/**
 * The subprocess bookkeeping of pppd/main.c: record_child, forget_child,
 * reap_kids, childwait_end and the per-child branch of kill_my_pg. The
 * `children` list is a sequence, head first, beside the live-child counter
 * `n_children`. The operating system is abstracted away: the pids that
 * waitpid reports are an input, the pids to be signalled an output.
 */
module Children {
  import opened Common

  /** A struct subprocess record; `done` is None for a NULL completion routine. */
  datatype Subprocess = Subprocess(pid: int, prog: string, done: Option<FuncId>, arg: ArgId, killable: bool)

  /** One invocation `(*done)(arg)`. */
  datatype DoneCall = DoneCall(func: FuncId, arg: ArgId)

  /** How the waitpid(-1, WNOHANG) loop of reap_kids ended. */
  datatype WaitEnd =
    | NoneExited   // waitpid returned 0
    | NoChildren   // waitpid returned -1 with ECHILD
    | Interrupted  // waitpid returned -1 with EINTR
    | WaitFailed   // waitpid returned -1 with another error, which is logged

  /** Whom kill_my_pg signals: its whole process group, or the listed children. */
  datatype KillTargets = ProcessGroup | Listed(pids: seq<int>)

  /** The list and the counter together. */
  datatype Registry = Registry(children: seq<Subprocess>, count: int)

  /** A registry after some children were forgotten, with the completion calls made. */
  datatype Reaped = Reaped(reg: Registry, calls: seq<DoneCall>)

  /** The pids of the records, head first. */
  function Pids(cs: seq<Subprocess>): (r: seq<int>)
    ensures |r| == |cs|
    ensures forall i :: 0 <= i < |cs| ==> r[i] == cs[i].pid
  {
    if cs == [] then [] else [cs[0].pid] + Pids(cs[1..])
  }

  /** The pids of the killable records, head first. */
  function KillablePids(cs: seq<Subprocess>): (r: seq<int>)
    ensures |r| <= |cs|
    ensures forall i :: 0 <= i < |cs| && cs[i].killable ==> cs[i].pid in r
    ensures forall p :: p in r ==> exists i :: 0 <= i < |cs| && cs[i].killable && cs[i].pid == p
  {
    if cs == [] then []
    else
      var rest := KillablePids(cs[1..]);
      assert forall i :: 1 <= i < |cs| ==> cs[i] == cs[1..][i - 1];
      if cs[0].killable then [cs[0].pid] + rest else rest
  }

  lemma {:induction false} KillablePidsAppend(a: seq<Subprocess>, b: seq<Subprocess>)
    ensures KillablePids(a + b) == KillablePids(a) + KillablePids(b)
  {
    if a == [] {
      assert a + b == b;
    } else {
      assert (a + b)[0] == a[0];
      assert (a + b)[1..] == a[1..] + b;
      KillablePidsAppend(a[1..], b);
    }
  }

  /**
   * kill_my_pg spares exactly the non-killable children, whereas
   * childwait_end signals every pid in the list: the two agree only when
   * every record is killable.
   */
  lemma {:induction false} KillableIsAllIff(cs: seq<Subprocess>)
    ensures |KillablePids(cs)| == |Pids(cs)| <==> forall i :: 0 <= i < |cs| ==> cs[i].killable
    ensures KillablePids(cs) == Pids(cs) <==> forall i :: 0 <= i < |cs| ==> cs[i].killable
  {
    if cs != [] {
      KillableIsAllIff(cs[1..]);
      assert forall i :: 1 <= i < |cs| ==> cs[i] == cs[1..][i - 1];
    }
  }

  /** The completion calls forget_child makes for one record. */
  function DoneOf(r: Subprocess): seq<DoneCall> {
    if r.done.Some? then [DoneCall(r.done.value, r.arg)] else []
  }

  /** The completion calls owed to a list of records, head first. */
  function DoneCalls(cs: seq<Subprocess>): seq<DoneCall> {
    if cs == [] then [] else DoneOf(cs[0]) + DoneCalls(cs[1..])
  }

  lemma {:induction false} DoneCallsAppend(a: seq<Subprocess>, b: seq<Subprocess>)
    ensures DoneCalls(a + b) == DoneCalls(a) + DoneCalls(b)
  {
    if a == [] {
      assert a + b == b;
    } else {
      assert (a + b)[0] == a[0];
      assert (a + b)[1..] == a[1..] + b;
      DoneCallsAppend(a[1..], b);
    }
  }

  lemma {:induction false} PidsAppend(a: seq<Subprocess>, b: seq<Subprocess>)
    ensures Pids(a + b) == Pids(a) + Pids(b)
  {
  }

  /** Where the scan of forget_child stops: the first record with `pid`, or the end. */
  function PidIndex(cs: seq<Subprocess>, pid: int): (k: nat)
    ensures k <= |cs|
    ensures forall j :: 0 <= j < k ==> cs[j].pid != pid
    ensures k < |cs| ==> cs[k].pid == pid
  {
    if cs == [] || cs[0].pid == pid then 0 else 1 + PidIndex(cs[1..], pid)
  }

  /** forget_child(pid): unlink the first record for `pid`, count it off and call its `done`. */
  function Forget(reg: Registry, pid: int): Reaped {
    var k := PidIndex(reg.children, pid);
    if k < |reg.children| then
      Reaped(Registry(reg.children[..k] + reg.children[k + 1..], reg.count - 1), DoneOf(reg.children[k]))
    else Reaped(reg, [])
  }

  /** forget_child leaves the list, the counter and the calls alone when no record has the pid. */
  lemma ForgetUnrecorded(reg: Registry, pid: int)
    requires pid !in Pids(reg.children)
    ensures Forget(reg, pid) == Reaped(reg, [])
  {
    assert forall j :: 0 <= j < |reg.children| ==> Pids(reg.children)[j] != pid;
  }

  /** forget_child counts off exactly the record it unlinks. */
  lemma ForgetKeepsGap(reg: Registry, pid: int)
    ensures var r := Forget(reg, pid);
      r.reg.count - |r.reg.children| == reg.count - |reg.children|
  {
  }

  /**
   * forget_child calls at most one completion routine: that of the first
   * record with the pid, exactly when it has one.
   */
  lemma ForgetCallsDone(reg: Registry, pid: int)
    requires pid in Pids(reg.children)
    ensures var k, r := PidIndex(reg.children, pid), Forget(reg, pid);
      && k < |reg.children|
      && |r.calls| <= 1
      && (r.calls != [] <==> reg.children[k].done.Some?)
      && (r.calls != [] ==> r.calls[0] == DoneCall(reg.children[k].done.value, reg.children[k].arg))
  {
    var i :| 0 <= i < |Pids(reg.children)| && Pids(reg.children)[i] == pid;
  }

  /** reap_kids: forget every pid waitpid reports, in the order reported. */
  function Reap(reg: Registry, exits: seq<int>): Reaped
    decreases |exits|
  {
    if exits == [] then Reaped(reg, [])
    else
      var first := Forget(reg, exits[0]);
      var rest := Reap(first.reg, exits[1..]);
      Reaped(rest.reg, first.calls + rest.calls)
  }

  /**
   * Reaping never touches the gap between the counter and the list: a child
   * counted by record_child without a record (its allocation failed) keeps
   * the counter above the length of the list for ever.
   */
  lemma {:induction false} ReapKeepsGap(reg: Registry, exits: seq<int>)
    ensures Reap(reg, exits).reg.count - |Reap(reg, exits).reg.children| == reg.count - |reg.children|
    decreases |exits|
  {
    if exits != [] {
      ForgetKeepsGap(reg, exits[0]);
      ReapKeepsGap(Forget(reg, exits[0]).reg, exits[1..]);
    }
  }

  /**
   * When every recorded child exits, in any order, the list empties, the
   * counter drops by the number of records, and every completion routine
   * is called exactly once.
   */
  lemma {:induction false} ReapAllExited(reg: Registry, exits: seq<int>)
    requires multiset(exits) == multiset(Pids(reg.children))
    ensures Reap(reg, exits).reg.children == []
    ensures Reap(reg, exits).reg.count == reg.count - |reg.children|
    ensures multiset(Reap(reg, exits).calls) == multiset(DoneCalls(reg.children))
    decreases |exits|
  {
    ReapKeepsGap(reg, exits);
    if exits == [] {
      assert |Pids(reg.children)| == 0;
    } else {
      var p, later := exits[0], exits[1..];
      assert exits == [p] + later;
      assert multiset(exits) == multiset{p} + multiset(later);
      assert p in multiset(Pids(reg.children));
      ForgetExited(reg, p);
      var first := Forget(reg, p);
      MultisetCancel(p, multiset(later));
      ReapAllExited(first.reg, later);
      var rest := Reap(first.reg, later);
      assert Reap(reg, exits) == Reaped(rest.reg, first.calls + rest.calls);
      assert |rest.reg.children| == 0;
      assert multiset(first.calls + rest.calls) == multiset(first.calls) + multiset(rest.calls);
    }
  }

  /**
   * Forgetting a recorded pid removes one record, one count, one copy of
   * that pid and exactly that record's calls from those owed.
   */
  lemma ForgetExited(reg: Registry, p: int)
    requires p in Pids(reg.children)
    ensures var f := Forget(reg, p);
      && f.reg.count == reg.count - 1 && |f.reg.children| == |reg.children| - 1
      && multiset(Pids(f.reg.children)) == multiset(Pids(reg.children)) - multiset{p}
      && multiset(DoneCalls(reg.children)) == multiset(DoneCalls(f.reg.children)) + multiset(f.calls)
  {
    var cs, k := reg.children, PidIndex(reg.children, p);
    assert k < |cs| by {
      var i :| 0 <= i < |cs| && Pids(cs)[i] == p;
    }
    UnlinkedPids(cs, k);
    UnlinkedCalls(cs, k);
  }

  /** reap_kids' loop from the pid at index `i` on: forget that pid, then reap the rest. */
  lemma ReapStep(reg: Registry, exits: seq<int>, i: nat)
    requires i < |exits|
    ensures var first := Forget(reg, exits[i]);
      var rest := Reap(first.reg, exits[i + 1..]);
      Reap(reg, exits[i..]) == Reaped(rest.reg, first.calls + rest.calls)
  {
    assert exits[i..][0] == exits[i] && exits[i..][1..] == exits[i + 1..];
  }

  /**
   * After forgetting the pids before index `i`, the registry is `cur` and
   * the calls made are `calls`: reaping the rest from there ends where
   * reaping all of `exits` from `start` does.
   */
  ghost predicate ReapsTo(start: Registry, exits: seq<int>, i: nat, cur: Registry, calls: seq<DoneCall>)
    requires i <= |exits|
  {
    var rest := Reap(cur, exits[i..]);
    Reap(start, exits) == Reaped(rest.reg, calls + rest.calls)
  }

  /** One turn of reap_kids' loop keeps ReapsTo. */
  lemma ReapsToStep(start: Registry, exits: seq<int>, i: nat, cur: Registry, calls: seq<DoneCall>,
                    next: Registry, c: seq<DoneCall>)
    requires i < |exits| && ReapsTo(start, exits, i, cur, calls)
    requires Reaped(next, c) == Forget(cur, exits[i])
    ensures ReapsTo(start, exits, i + 1, next, calls + c)
  {
    ReapStep(cur, exits, i);
    var rest := Reap(next, exits[i + 1..]);
    SeqAssoc(calls, c, rest.calls);
  }

  /** Unlinking record `k` takes exactly its pid out of the recorded ones. */
  lemma UnlinkedPids(cs: seq<Subprocess>, k: nat)
    requires k < |cs|
    ensures multiset(Pids(cs)) == multiset(Pids(cs[..k] + cs[k + 1..])) + multiset{cs[k].pid}
  {
    var pre, x, post := cs[..k], cs[k], cs[k + 1..];
    SeqAround(cs, k);
    PidsAppend(pre, [x] + post);
    PidsAppend([x], post);
    PidsAppend(pre, post);
    assert Pids([x]) == [x.pid];
    MultisetAround(Pids(pre), x.pid, Pids(post));
  }

  /** Unlinking record `k` takes exactly its completion calls out of those owed. */
  lemma UnlinkedCalls(cs: seq<Subprocess>, k: nat)
    requires k < |cs|
    ensures multiset(DoneCalls(cs)) == multiset(DoneCalls(cs[..k] + cs[k + 1..])) + multiset(DoneOf(cs[k]))
  {
    DoneCallsAround(cs, k);
    DoneCallsAppend(cs[..k], cs[k + 1..]);
    MultisetMiddle(DoneCalls(cs[..k]), DoneOf(cs[k]), DoneCalls(cs[k + 1..]));
  }

  /** The calls owed to a list are those before record `k`, then its own, then those after it. */
  lemma DoneCallsAround(cs: seq<Subprocess>, k: nat)
    requires k < |cs|
    ensures DoneCalls(cs) == DoneCalls(cs[..k]) + DoneOf(cs[k]) + DoneCalls(cs[k + 1..])
  {
    var pre, post := cs[..k], cs[k + 1..];
    SeqAround(cs, k);
    DoneCallsAppend(pre, [cs[k]] + post);
    DoneCallsAppend([cs[k]], post);
    assert DoneCalls([cs[k]]) == DoneOf(cs[k]) by {
      assert [cs[k]][1..] == [];
    }
    SeqAssoc(DoneCalls(pre), DoneOf(cs[k]), DoneCalls(post));
  }

  /** The child-process list and the live-child counter. */
  class ChildRegistry {
    var children: seq<Subprocess>
    var nChildren: int
    /** childwait_done: shutdown gave up waiting for children. */
    var childwaitDone: bool

    /** record_child counts every child and records at most one entry for it. */
    ghost predicate Valid()
      reads this
    {
      |children| <= nChildren
    }

    function State(): Registry
      reads this
    {
      Registry(children, nChildren)
    }

    constructor ()
      ensures Valid() && children == [] && nChildren == 0 && !childwaitDone
    {
      children, nChildren, childwaitDone := [], 0, false;
    }

    /**
     * record_child: count the child and put its record at the head;
     * `recordAllocated` is false when the record's malloc failed, in which
     * case the child is counted but not recorded.
     */
    method RecordChild(pid: int, prog: string, done: Option<FuncId>, arg: ArgId, killable: bool,
                       recordAllocated: bool)
      requires Valid()
      modifies this`children, this`nChildren
      ensures Valid()
      ensures nChildren == old(nChildren) + 1
      ensures children == if recordAllocated then [Subprocess(pid, prog, done, arg, killable)] + old(children)
                          else old(children)
    {
      nChildren := nChildren + 1;
      if recordAllocated {
        children := [Subprocess(pid, prog, done, arg, killable)] + children;
      }
    }

    /** forget_child(pid, status); the status only selects a log message. */
    method ForgetChild(pid: int) returns (calls: seq<DoneCall>)
      requires Valid()
      modifies this`children, this`nChildren
      ensures Valid()
      ensures Reaped(State(), calls) == Forget(old(State()), pid)
    {
      var i := 0;
      while i < |children| && children[i].pid != pid
        invariant 0 <= i <= |children|
        invariant forall j :: 0 <= j < i ==> children[j].pid != pid
      {
        i := i + 1;
      }
      assert i == PidIndex(children, pid);
      calls := [];
      if i < |children| {
        var chp := children[i];
        nChildren := nChildren - 1;
        children := children[..i] + children[i + 1..];
        if chp.done.Some? {
          calls := [DoneCall(chp.done.value, chp.arg)];
        }
      }
    }

    /**
     * reap_kids: with no child counted, return 0 at once; otherwise forget
     * each pid in `exits` (what waitpid reported, in order) until the wait
     * ends as `end`, and return -1 exactly when it ended with ECHILD.
     */
    method ReapKids(exits: seq<int>, end: WaitEnd) returns (rc: int, calls: seq<DoneCall>)
      requires Valid()
      modifies this`children, this`nChildren
      ensures Valid()
      ensures old(nChildren) == 0 ==> rc == 0 && calls == [] && State() == old(State())
      ensures old(nChildren) != 0 ==>
        && Reaped(State(), calls) == Reap(old(State()), exits)
        && (rc == -1 <==> end == NoChildren)
        && (rc == 0 <==> end != NoChildren)
    {
      if nChildren == 0 {
        return 0, [];
      }
      calls := [];
      var i := 0;
      ghost var start := State();
      while i < |exits|
        invariant 0 <= i <= |exits|
        invariant Valid()
        invariant ReapsTo(start, exits, i, State(), calls)
      {
        ghost var before := State();
        var c := ForgetChild(exits[i]);
        ReapsToStep(start, exits, i, before, calls, State(), c);
        calls := calls + c;
        i := i + 1;
      }
      assert exits[i..] == [];
      rc := if end == NoChildren then -1 else 0;
    }

    /**
     * kill_my_pg(sig): when not detached, signal each killable child in
     * list order; when detached, signal the whole process group.
     */
    method KillMyPg(detached: bool) returns (targets: KillTargets)
      ensures targets == if detached then ProcessGroup else Listed(KillablePids(children))
    {
      if detached {
        return ProcessGroup;
      }
      var pids: seq<int> := [];
      var i := 0;
      while i < |children|
        invariant 0 <= i <= |children|
        invariant pids == KillablePids(children[..i])
      {
        assert children[..i + 1] == children[..i] + [children[i]];
        KillablePidsAppend(children[..i], [children[i]]);
        if children[i].killable {
          pids := pids + [children[i].pid];
        }
        i := i + 1;
      }
      assert children[..i] == children;
      targets := Listed(pids);
    }

    /** childwait_end: send SIGTERM to every recorded child, killable or not, and give up waiting. */
    method ChildwaitEnd() returns (signalled: seq<int>)
      modifies this`childwaitDone
      ensures signalled == Pids(children)
      ensures childwaitDone
    {
      signalled := [];
      var i := 0;
      while i < |children|
        invariant 0 <= i <= |children|
        invariant signalled == Pids(children[..i])
      {
        assert children[..i + 1] == children[..i] + [children[i]];
        PidsAppend(children[..i], [children[i]]);
        signalled := signalled + [children[i].pid];
        i := i + 1;
      }
      assert children[..i] == children;
      childwaitDone := true;
    }
  }
}
