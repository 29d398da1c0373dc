/**
 * The callout (timer) queue of pppd/main.c: ppp_timeout, ppp_untimeout,
 * calltimeout and timeleft. The singly linked `callout` list is the
 * sequence `entries` of a CalloutQueue, head first; the current time is a
 * parameter instead of a call to the clock.
 */
module Timers {
  import opened Common

  const USEC_PER_SEC: int := 1000000

  /** A struct timeval. */
  datatype TimeVal = TimeVal(sec: int, usec: int)

  /** A normalised timeval: the microseconds are a proper fraction of a second. */
  predicate ValidTime(t: TimeVal) {
    0 <= t.usec < USEC_PER_SEC
  }

  /** The instant `t` stands for, in microseconds. */
  function Micros(t: TimeVal): int {
    t.sec * USEC_PER_SEC + t.usec
  }

  /** `a` is strictly before `b` in the (sec, usec) order that ppp_timeout uses. */
  predicate Earlier(a: TimeVal, b: TimeVal) {
    a.sec < b.sec || (a.sec == b.sec && a.usec < b.usec)
  }

  /** An entry `c` is due at `now`: the test of calltimeout. */
  predicate Due(c: Callout, now: TimeVal) {
    c.time.sec < now.sec || (c.time.sec == now.sec && c.time.usec <= now.usec)
  }

  lemma DueIsNotLater(c: Callout, now: TimeVal)
    ensures Due(c, now) <==> !Earlier(now, c.time)
  {
  }

  /** A struct callout: fire time, routine and argument. */
  datatype Callout = Callout(time: TimeVal, func: FuncId, arg: ArgId)

  /** The list is non-decreasing in (sec, usec). */
  predicate Sorted(q: seq<Callout>) {
    forall i, j :: 0 <= i < j < |q| ==> !Earlier(q[j].time, q[i].time)
  }

  /**
   * The fire time ppp_timeout computes from the current time and the delay:
   * whole seconds in the microsecond sum are carried into the seconds.
   */
  function Deadline(now: TimeVal, secs: int, usecs: int): (t: TimeVal)
    ensures t.usec < USEC_PER_SEC
    ensures Micros(t) == Micros(now) + secs * USEC_PER_SEC + usecs
    ensures now.usec + usecs >= 0 ==> ValidTime(t)
    ensures now.usec + usecs < USEC_PER_SEC ==> t == TimeVal(now.sec + secs, now.usec + usecs)
  {
    var s := now.sec + secs;
    var u := now.usec + usecs;
    if u >= USEC_PER_SEC then TimeVal(s + u / USEC_PER_SEC, u % USEC_PER_SEC) else TimeVal(s, u)
  }

  /**
   * Where the insertion scan of ppp_timeout stops: the first entry that the
   * new time `t` is strictly earlier than, or the end of the list.
   */
  function InsertionPoint(q: seq<Callout>, t: TimeVal): (k: nat)
    ensures k <= |q|
    ensures forall j :: 0 <= j < k ==> !Earlier(t, q[j].time)
    ensures k < |q| ==> Earlier(t, q[k].time)
  {
    if q == [] || Earlier(t, q[0].time) then 0 else 1 + InsertionPoint(q[1..], t)
  }

  /** The list after linking `c` in at its insertion point. */
  function Inserted(q: seq<Callout>, c: Callout): seq<Callout> {
    var k := InsertionPoint(q, c.time);
    q[..k] + [c] + q[k..]
  }

  /**
   * Inserting adds exactly `c`, at the insertion point, after every entry
   * whose time is not later (so equal times keep insertion order), and
   * leaves the other entries in their order.
   */
  lemma InsertedShape(q: seq<Callout>, c: Callout)
    ensures var r, k := Inserted(q, c), InsertionPoint(q, c.time);
      && |r| == |q| + 1 && r[k] == c
      && r[..k] == q[..k] && r[k + 1..] == q[k..]
      && multiset(r) == multiset(q) + multiset{c}
      && (forall j :: 0 <= j < k ==> !Earlier(c.time, r[j].time))
  {
    var r, k := Inserted(q, c), InsertionPoint(q, c.time);
    assert r[..k] == q[..k];
    assert r[k + 1..] == q[k..];
    assert q == q[..k] + q[k..];
  }

  /** On a sorted list, every entry that ends up after the new one is strictly later. */
  lemma InsertedBeforeLater(q: seq<Callout>, c: Callout)
    requires Sorted(q)
    ensures var r, k := Inserted(q, c), InsertionPoint(q, c.time);
      forall j :: k < j < |r| ==> Earlier(c.time, r[j].time)
  {
    var r, k := Inserted(q, c), InsertionPoint(q, c.time);
    forall j | k < j < |r|
      ensures Earlier(c.time, r[j].time)
    {
      assert r[j] == q[j - 1];
      assert j - 1 == k || !Earlier(q[j - 1].time, q[k].time);
    }
  }

  /** ppp_timeout keeps the callout list non-decreasing in (sec, usec). */
  lemma {:induction false} InsertedSorted(q: seq<Callout>, c: Callout)
    requires Sorted(q)
    ensures Sorted(Inserted(q, c))
  {
    var r, k := Inserted(q, c), InsertionPoint(q, c.time);
    InsertedShape(q, c);
    InsertedBeforeLater(q, c);
    forall i, j | 0 <= i < j < |r|
      ensures !Earlier(r[j].time, r[i].time)
    {
      if j == k {
        assert r[i] == q[i];
      } else if i == k {
        assert Earlier(c.time, r[j].time);
      } else {
        var i', j' := if i < k then i else i - 1, if j < k then j else j - 1;
        assert r[i] == q[i'] && r[j] == q[j'];
      }
    }
  }

  /** Where the cancel scan of ppp_untimeout stops: the first (func, arg) match, or the end. */
  function MatchIndex(q: seq<Callout>, func: FuncId, arg: ArgId): (k: nat)
    ensures k <= |q|
    ensures forall j :: 0 <= j < k ==> !(q[j].func == func && q[j].arg == arg)
    ensures k < |q| ==> q[k].func == func && q[k].arg == arg
  {
    if q == [] || (q[0].func == func && q[0].arg == arg) then 0
    else 1 + MatchIndex(q[1..], func, arg)
  }

  /** The list after ppp_untimeout(func, arg). */
  function Cancelled(q: seq<Callout>, func: FuncId, arg: ArgId): seq<Callout> {
    var k := MatchIndex(q, func, arg);
    if k < |q| then q[..k] + q[k + 1..] else q
  }

  /**
   * Cancelling removes exactly the first entry with that identity, keeps
   * every other entry in order, and changes nothing when no entry matches.
   */
  lemma CancelledProperties(q: seq<Callout>, func: FuncId, arg: ArgId)
    ensures var r, k := Cancelled(q, func, arg), MatchIndex(q, func, arg);
      && (k == |q| <==> forall j :: 0 <= j < |q| ==> !(q[j].func == func && q[j].arg == arg))
      && (k == |q| ==> r == q)
      && (k < |q| ==> r == q[..k] + q[k + 1..] && multiset(r) + multiset{q[k]} == multiset(q))
  {
    var k := MatchIndex(q, func, arg);
    if k < |q| {
      assert q == q[..k] + [q[k]] + q[k + 1..];
    }
  }

  /** Cancelling keeps the list sorted. */
  lemma CancelledSorted(q: seq<Callout>, func: FuncId, arg: ArgId)
    requires Sorted(q)
    ensures Sorted(Cancelled(q, func, arg))
  {
    var r, k := Cancelled(q, func, arg), MatchIndex(q, func, arg);
    if k < |q| {
      forall i, j | 0 <= i < j < |r|
        ensures !Earlier(r[j].time, r[i].time)
      {
        var i', j' := if i < k then i else i + 1, if j < k then j else j + 1;
        assert r[i] == q[i'] && r[j] == q[j'];
      }
    }
  }

  /** The length of the run of due entries at the head of the list: what calltimeout fires. */
  function DueCount(q: seq<Callout>, now: TimeVal): (n: nat)
    ensures n <= |q|
    ensures forall j :: 0 <= j < n ==> Due(q[j], now)
    ensures n < |q| ==> !Due(q[n], now)
  {
    if q == [] || !Due(q[0], now) then 0 else 1 + DueCount(q[1..], now)
  }

  /**
   * On a sorted list the head run of due entries is exactly the set of due
   * entries: everything after it is still pending.
   */
  lemma {:induction false} DuePrefixIsAllDue(q: seq<Callout>, now: TimeVal)
    requires Sorted(q)
    ensures forall j :: 0 <= j < |q| ==> (j < DueCount(q, now) <==> Due(q[j], now))
    ensures Sorted(q[..DueCount(q, now)]) && Sorted(q[DueCount(q, now)..])
  {
    var n := DueCount(q, now);
    forall j | n < j < |q|
      ensures !Due(q[j], now)
    {
      assert !Earlier(q[j].time, q[n].time);
    }
  }

  /**
   * The value timeleft computes: None exactly when no timer is pending;
   * otherwise the head's time minus `now` with a microsecond borrow,
   * clamped to zero once the head is due.
   */
  function TimeLeft(q: seq<Callout>, now: TimeVal): (r: Option<TimeVal>)
    ensures r.None? <==> q == []
    ensures r.Some? && ValidTime(q[0].time) && ValidTime(now) ==>
      && ValidTime(r.value) && r.value.sec >= 0
      && Micros(r.value) == (if Micros(now) < Micros(q[0].time) then Micros(q[0].time) - Micros(now) else 0)
  {
    if q == [] then None
    else
      var h := q[0].time;
      var s, u := h.sec - now.sec, h.usec - now.usec;
      var s', u' := if u < 0 then s - 1 else s, if u < 0 then u + USEC_PER_SEC else u;
      if s' < 0 then Some(TimeVal(0, 0)) else Some(TimeVal(s', u'))
  }

  /** The callout list. */
  class CalloutQueue {
    /** The list, head first. */
    var entries: seq<Callout>

    ghost predicate Valid()
      reads this
    {
      Sorted(entries)
    }

    constructor ()
      ensures Valid() && entries == []
    {
      entries := [];
    }

    /** ppp_timeout: schedule (func, arg) `secs`/`usecs` after `now`. */
    method Timeout(func: FuncId, arg: ArgId, secs: int, usecs: int, now: TimeVal)
      requires Valid()
      modifies this
      ensures Valid()
      ensures entries == Inserted(old(entries), Callout(Deadline(now, secs, usecs), func, arg))
    {
      var c := Callout(Deadline(now, secs, usecs), func, arg);
      var i := 0;
      while i < |entries| && !Earlier(c.time, entries[i].time)
        invariant 0 <= i <= |entries|
        invariant forall j :: 0 <= j < i ==> !Earlier(c.time, entries[j].time)
      {
        i := i + 1;
      }
      assert i == InsertionPoint(entries, c.time);
      InsertedSorted(entries, c);
      entries := entries[..i] + [c] + entries[i..];
    }

    /** ppp_untimeout: unlink the first entry scheduled for (func, arg). */
    method Untimeout(func: FuncId, arg: ArgId)
      requires Valid()
      modifies this
      ensures Valid()
      ensures entries == Cancelled(old(entries), func, arg)
    {
      var i := 0;
      while i < |entries| && !(entries[i].func == func && entries[i].arg == arg)
        invariant 0 <= i <= |entries|
        invariant forall j :: 0 <= j < i ==> !(entries[j].func == func && entries[j].arg == arg)
      {
        i := i + 1;
      }
      assert i == MatchIndex(entries, func, arg);
      CancelledSorted(entries, func, arg);
      if i < |entries| {
        entries := entries[..i] + entries[i + 1..];
      }
    }

    /**
     * calltimeout: pop and fire the head while it is due at `now`; `fired`
     * lists the invoked entries in calling order.
     */
    method CallTimeout(now: TimeVal) returns (fired: seq<Callout>)
      requires Valid()
      modifies this
      ensures Valid()
      ensures fired == old(entries)[..DueCount(old(entries), now)]
      ensures entries == old(entries)[DueCount(old(entries), now)..]
    {
      ghost var q, n := entries, DueCount(entries, now);
      fired := [];
      while entries != [] && Due(entries[0], now)
        invariant |fired| <= n
        invariant fired == q[..|fired|] && entries == q[|fired|..]
        decreases |entries|
      {
        assert q[..|fired| + 1] == fired + [entries[0]];
        fired := fired + [entries[0]];
        entries := entries[1..];
      }
      DuePrefixIsAllDue(q, now);
    }
  }
}
