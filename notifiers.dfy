/**
 * The notifier registry of pppd/main.c: ppp_add_notify, ppp_del_notify and
 * notify. Each event kind owns a linked list of (func, arg) subscribers,
 * modelled head first as a sequence; invoking the callbacks is modelled as
 * the trace of calls made.
 */
module Notifiers {
  import opened Common

  /** The ppp_notify_t kinds resolved by get_notifier_by_type. */
  datatype NotifyKind =
    | PidChange | PhaseChange | Exit | Signaled | IpUp | IpDown
    | Ipv6Up | Ipv6Down | AuthUp | LinkDown | Fork

  /** A struct notifier subscription. */
  datatype Notifier = Notifier(func: FuncId, arg: ArgId)

  /** One invocation `(*func)(arg, val)`. */
  datatype Call = Call(func: FuncId, arg: ArgId, val: int)

  /** The calls notify makes on the list `subs`: one per subscriber, head to tail, all with `val`. */
  function Calls(subs: seq<Notifier>, val: int): (r: seq<Call>)
    ensures |r| == |subs|
    ensures forall i :: 0 <= i < |subs| ==> r[i] == Call(subs[i].func, subs[i].arg, val)
  {
    if subs == [] then [] else [Call(subs[0].func, subs[0].arg, val)] + Calls(subs[1..], val)
  }

  /** Where the removal scan of ppp_del_notify stops: the first equal pair, or the end. */
  function FirstEqual(subs: seq<Notifier>, n: Notifier): (k: nat)
    ensures k <= |subs|
    ensures forall j :: 0 <= j < k ==> subs[j] != n
    ensures k < |subs| ==> subs[k] == n
  {
    if subs == [] || subs[0] == n then 0 else 1 + FirstEqual(subs[1..], n)
  }

  /** The list after ppp_del_notify removes `n`. */
  function Without(subs: seq<Notifier>, n: Notifier): seq<Notifier> {
    var k := FirstEqual(subs, n);
    if k < |subs| then subs[..k] + subs[k + 1..] else subs
  }

  /**
   * Removal takes away one copy of `n` exactly when there is one, leaves
   * the list alone otherwise, and keeps the other subscribers in order.
   */
  lemma WithoutRemovesOneCopy(subs: seq<Notifier>, n: Notifier)
    ensures n in subs ==> multiset(Without(subs, n)) == multiset(subs) - multiset{n}
    ensures n !in subs ==> Without(subs, n) == subs
    ensures var k := FirstEqual(subs, n);
      k < |subs| ==> Without(subs, n)[..k] == subs[..k] && Without(subs, n)[k..] == subs[k + 1..]
  {
    var k := FirstEqual(subs, n);
    if k < |subs| {
      var r := Without(subs, n);
      assert r == subs[..k] + subs[k + 1..];
      assert subs == subs[..k] + [n] + subs[k + 1..];
      calc {
        multiset(subs);
        multiset(subs[..k]) + multiset{n} + multiset(subs[k + 1..]);
        multiset(r) + multiset{n};
      }
      assert r[..k] == subs[..k];
      assert r[k..] == subs[k + 1..];
    } else {
      assert n !in subs;
    }
  }

  /**
   * Subscribing and then unsubscribing the same pair restores the list, and
   * a fresh subscriber is the first one notify calls.
   */
  lemma AddThenDelete(subs: seq<Notifier>, n: Notifier, val: int)
    ensures Without([n] + subs, n) == subs
    ensures Calls([n] + subs, val) == [Call(n.func, n.arg, val)] + Calls(subs, val)
  {
    assert ([n] + subs)[1..] == subs;
  }

  /** notify(notif, val): walk the list from head to tail calling every subscriber. */
  method Notify(subs: seq<Notifier>, val: int) returns (trace: seq<Call>)
    ensures trace == Calls(subs, val)
  {
    trace := [];
    var rest := subs;
    while rest != []
      invariant trace + Calls(rest, val) == Calls(subs, val)
      decreases |rest|
    {
      trace := trace + [Call(rest[0].func, rest[0].arg, val)];
      rest := rest[1..];
    }
  }

  /** The notifier lists; a kind without a list (not compiled in) is absent from `lists`. */
  class NotifierRegistry {
    var lists: map<NotifyKind, seq<Notifier>>

    /** The lists exist for every kind, except the IPv6 ones when IPv6CP is not compiled in. */
    constructor (withIpv6: bool)
      ensures forall k :: k in lists <==> (withIpv6 || !(k.Ipv6Up? || k.Ipv6Down?))
      ensures forall k :: k in lists ==> lists[k] == []
    {
      var all := map[PidChange := [], PhaseChange := [], Exit := [], Signaled := [], IpUp := [],
                     IpDown := [], AuthUp := [], LinkDown := [], Fork := []];
      var m := if withIpv6 then all[Ipv6Up := []][Ipv6Down := []] else all;
      forall k: NotifyKind
        ensures k in m <==> (withIpv6 || !(k.Ipv6Up? || k.Ipv6Down?))
      {
        match k
        case PidChange => case PhaseChange => case Exit => case Signaled => case IpUp =>
        case IpDown => case Ipv6Up => case Ipv6Down => case AuthUp => case LinkDown => case Fork =>
      }
      lists := m;
    }

    /** ppp_add_notify: put (func, arg) at the head of the kind's list; an unknown kind only logs. */
    method AddNotify(kind: NotifyKind, func: FuncId, arg: ArgId) returns (found: bool)
      modifies this
      ensures found <==> kind in old(lists)
      ensures lists == if found then old(lists)[kind := [Notifier(func, arg)] + old(lists)[kind]] else old(lists)
    {
      found := kind in lists;
      if found {
        lists := lists[kind := [Notifier(func, arg)] + lists[kind]];
      }
    }

    /** ppp_del_notify: unlink the first subscriber equal to (func, arg); an unknown kind only logs. */
    method DelNotify(kind: NotifyKind, func: FuncId, arg: ArgId) returns (found: bool)
      modifies this
      ensures found <==> kind in old(lists)
      ensures lists == if found then old(lists)[kind := Without(old(lists)[kind], Notifier(func, arg))] else old(lists)
    {
      found := kind in lists;
      if found {
        var subs := lists[kind];
        var i := 0;
        while i < |subs| && subs[i] != Notifier(func, arg)
          invariant 0 <= i <= |subs|
          invariant forall j :: 0 <= j < i ==> subs[j] != Notifier(func, arg)
        {
          i := i + 1;
        }
        assert i == FirstEqual(subs, Notifier(func, arg));
        if i < |subs| {
          lists := lists[kind := subs[..i] + subs[i + 1..]];
        }
      }
    }
  }
}
