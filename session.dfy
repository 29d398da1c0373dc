/**
 * The session controller's global state in pppd/main.c and the code that
 * overwrites it: new_phase and in_phase, ppp_signaled, the flag handling
 * of handle_events, the frame outcome of get_input, the retry and holdoff
 * decision of the main loop, ppp_send_config/ppp_recv_config and
 * print_link_stats. Scripts, hooks and notifications are emitted as a
 * trace; signal handlers are represented by the flags they leave behind.
 */
module Session {
  import opened Common
  import opened Phases
  import Notifiers
  import Timers
  import Children
  import Dispatch

  /** Linux signal numbers. */
  const SIGHUP: int := 1
  const SIGINT: int := 2
  const SIGUSR2: int := 12
  const SIGTERM: int := 15

  /** Values of ppp_exit_code_t (pppd.h). */
  type ExitCode = int
  const EXIT_OK: ExitCode := 0
  const EXIT_USER_REQUEST: ExitCode := 5
  const EXIT_HANGUP: ExitCode := 16

  /** The globals that handle_events, get_input and the retry decision read and write. */
  datatype Globals = Globals(
    phase: Phase, code: ExitCode,
    killLink: bool, openCcpFlag: bool, askedToQuit: bool, persist: bool,
    gotSighup: bool, gotSigterm: int, gotSigusr2: bool, gotSigchld: bool,
    needHoldoff: bool, hungup: bool)

  /**
   * Signals delivered while handle_events is blocked: what the handlers
   * hup, term (for SIGINT and SIGTERM, storing the number), open_ccp and
   * chld set. `term` is 0 when no terminating signal arrived.
   */
  datatype Arrivals = Arrivals(hup: bool, term: int, usr2: bool, chld: bool)

  /** Some got_* flag is set, so handle_events does not wait. */
  predicate Pending(g: Globals) {
    g.gotSighup || g.gotSigterm != 0 || g.gotSigusr2 || g.gotSigchld
  }

  /** The flags after the handlers for the signals in `s` have run. */
  function Arrive(g: Globals, s: Arrivals): Globals {
    g.(gotSighup := g.gotSighup || s.hup,
       gotSigterm := if s.term != 0 then s.term else g.gotSigterm,
       gotSigusr2 := g.gotSigusr2 || s.usr2,
       gotSigchld := g.gotSigchld || s.chld)
  }

  /**
   * The state once handle_events has cleared kill_link and open_ccp_flag
   * and come back from its wait, which it only enters when nothing is
   * pending.
   */
  function AfterWait(g: Globals, s: Arrivals): (r: Globals)
    ensures !r.killLink && !r.openCcpFlag
    ensures r.code == g.code && r.askedToQuit == g.askedToQuit && r.persist == g.persist
    ensures r.phase == g.phase && r.needHoldoff == g.needHoldoff && r.hungup == g.hungup
  {
    var c := g.(killLink := false, openCcpFlag := false);
    if Pending(g) then c else Arrive(c, s)
  }

  /** The SIGHUP branch of handle_events. */
  function OnHangup(g: Globals): (r: Globals)
    ensures r.killLink == (g.killLink || g.gotSighup) && !r.gotSighup
    ensures r.code == if g.gotSighup && g.code != EXIT_HANGUP then EXIT_USER_REQUEST else g.code
    ensures r.openCcpFlag == g.openCcpFlag && r.askedToQuit == g.askedToQuit && r.persist == g.persist
    ensures r.gotSigterm == g.gotSigterm && r.gotSigusr2 == g.gotSigusr2 && r.gotSigchld == g.gotSigchld
    ensures r.phase == g.phase && r.needHoldoff == g.needHoldoff && r.hungup == g.hungup
  {
    if g.gotSighup then
      g.(killLink := true, gotSighup := false, code := if g.code != EXIT_HANGUP then EXIT_USER_REQUEST else g.code)
    else g
  }

  /** The SIGTERM branch of handle_events. */
  function OnTerminate(g: Globals): (r: Globals)
    ensures r.killLink == (g.killLink || g.gotSigterm != 0) && r.gotSigterm == 0
    ensures r.code == if g.gotSigterm != 0 then EXIT_USER_REQUEST else g.code
    ensures r.askedToQuit == (g.askedToQuit || g.gotSigterm != 0) && r.persist == (g.persist && g.gotSigterm == 0)
    ensures r.openCcpFlag == g.openCcpFlag && r.gotSighup == g.gotSighup
    ensures r.gotSigusr2 == g.gotSigusr2 && r.gotSigchld == g.gotSigchld
    ensures r.phase == g.phase && r.needHoldoff == g.needHoldoff && r.hungup == g.hungup
  {
    if g.gotSigterm != 0 then
      g.(killLink := true, askedToQuit := true, persist := false, code := EXIT_USER_REQUEST, gotSigterm := 0)
    else g
  }

  /** The SIGCHLD branch of handle_events, apart from the reaping. */
  function OnChild(g: Globals): (r: Globals)
    ensures r == g.(gotSigchld := false)
  {
    if g.gotSigchld then g.(gotSigchld := false) else g
  }

  /** The SIGUSR2 branch of handle_events. */
  function OnUsr2(g: Globals): (r: Globals)
    ensures r == g.(openCcpFlag := g.openCcpFlag || g.gotSigusr2, gotSigusr2 := false)
  {
    if g.gotSigusr2 then g.(openCcpFlag := true, gotSigusr2 := false) else g
  }

  /** The globals after one handle_events: the four signal flags handled in the source's order. */
  function EventFlags(g: Globals, s: Arrivals): Globals {
    OnUsr2(OnChild(OnTerminate(OnHangup(AfterWait(g, s)))))
  }

  /** ppp_signaled: whether a hangup, terminate or SIGUSR2 is pending. */
  function Signaled(g: Globals, sig: int): (r: bool)
    ensures r ==> sig == SIGHUP || sig == SIGTERM || sig == SIGUSR2
    ensures sig == SIGHUP ==> (r <==> g.gotSighup)
    ensures sig == SIGTERM ==> (r <==> g.gotSigterm != 0)
    ensures sig == SIGUSR2 ==> (r <==> g.gotSigusr2)
  {
    if sig == SIGTERM then g.gotSigterm != 0
    else if sig == SIGUSR2 then g.gotSigusr2
    else if sig == SIGHUP then g.gotSighup
    else false
  }

  /**
   * After the handlers have run, ppp_signaled answers true for SIGHUP,
   * SIGTERM and SIGUSR2 exactly when that signal was already pending or
   * has just arrived.
   */
  lemma ArrivalsAreSignaled(g: Globals, s: Arrivals)
    ensures var r := Arrive(g, s);
      && (Signaled(r, SIGHUP) <==> g.gotSighup || s.hup)
      && (Signaled(r, SIGTERM) <==> g.gotSigterm != 0 || s.term != 0)
      && (Signaled(r, SIGUSR2) <==> g.gotSigusr2 || s.usr2)
  {
  }

  /**
   * SIGINT is stored in got_sigterm, so it reads back as SIGTERM while
   * ppp_signaled(SIGINT) is always false.
   */
  lemma InterruptReadsAsTerminate(g: Globals)
    ensures Signaled(Arrive(g, Arrivals(false, SIGINT, false, false)), SIGTERM)
    ensures !Signaled(Arrive(g, Arrivals(false, SIGINT, false, false)), SIGINT)
  {
  }

  /** handle_events ends with every got_* flag cleared, so ppp_signaled is false for every signal. */
  lemma EventFlagsClear(g: Globals, s: Arrivals)
    ensures var r := EventFlags(g, s);
      !Pending(r) && forall sig :: !Signaled(r, sig)
  {
  }

  /**
   * kill_link ends set exactly when a hangup or terminate was seen, and
   * open_ccp_flag exactly when SIGUSR2 was, both after the clearing at the
   * start of handle_events.
   */
  lemma EventFlagsRequests(g: Globals, s: Arrivals)
    ensures var r, w := EventFlags(g, s), AfterWait(g, s);
      && (r.killLink <==> w.gotSighup || w.gotSigterm != 0)
      && (r.openCcpFlag <==> w.gotSigusr2)
  {
  }

  /**
   * A hangup makes the code USER_REQUEST unless it is already HANGUP; a
   * terminate, handled after the hangup, makes it USER_REQUEST in any case,
   * asks to quit and clears persist.
   */
  lemma EventFlagsCode(g: Globals, s: Arrivals)
    ensures var r, w := EventFlags(g, s), AfterWait(g, s);
      && r.code == (if w.gotSigterm != 0 then EXIT_USER_REQUEST
                    else if w.gotSighup && g.code != EXIT_HANGUP then EXIT_USER_REQUEST
                    else g.code)
      && r.askedToQuit == (g.askedToQuit || w.gotSigterm != 0)
      && r.persist == (g.persist && w.gotSigterm == 0)
  {
  }

  /** handle_events leaves the phase, need_holdoff and hungup alone. */
  lemma EventFlagsKeep(g: Globals, s: Arrivals)
    ensures var r := EventFlags(g, s);
      r.phase == g.phase && r.needHoldoff == g.needHoldoff && r.hungup == g.hungup
  {
  }

  /**
   * A signal arriving only during the wait is acted on within the same
   * call: with nothing pending the arrivals are exactly what is handled.
   */
  lemma WaitCollectsArrivals(g: Globals, s: Arrivals)
    requires !Pending(g)
    ensures AfterWait(g, s).gotSighup == s.hup && AfterWait(g, s).gotSigterm == s.term
    ensures AfterWait(g, s).gotSigusr2 == s.usr2 && AfterWait(g, s).gotSigchld == s.chld
  {
  }

  /**
   * The main loop gives up after a session (`break` out of the retry
   * loop) when persist is off, a quit was asked for, or maxfail attempts
   * have failed.
   */
  predicate StopRetrying(g: Globals, maxfail: int, unsuccess: int) {
    !g.persist || g.askedToQuit || (maxfail > 0 && unsuccess >= maxfail)
  }

  /** The holdoff before a retry: the holdoff_hook's answer if there is a hook, else holdoff when needed. */
  function HoldoffTime(needHoldoff: bool, holdoff: int, hook: Option<int>): (t: int)
    ensures hook.None? && !needHoldoff ==> t == 0
    ensures hook.None? && needHoldoff ==> t == holdoff
    ensures hook.Some? ==> t == hook.value
  {
    if hook.Some? then hook.value else if needHoldoff then holdoff else 0
  }

  /**
   * A terminate signal received while blocked with nothing pending:
   * afterwards the link is being killed, persist is off, the code is
   * USER_REQUEST and the main loop will not retry.
   */
  lemma TerminateWhileBlocked(g: Globals, term: int, maxfail: int, unsuccess: int)
    requires !Pending(g) && term != 0
    ensures var r := EventFlags(g, Arrivals(false, term, false, false));
      r.killLink && !r.persist && r.askedToQuit && r.code == EXIT_USER_REQUEST && StopRetrying(r, maxfail, unsuccess)
  {
    EventFlagsRequests(g, Arrivals(false, term, false, false));
    EventFlagsCode(g, Arrivals(false, term, false, false));
  }

  /** A hangup signal alone neither asks to quit nor clears persist, so a persistent session is retried. */
  lemma HangupSignalRetries(g: Globals, s: Arrivals, maxfail: int, unsuccess: int)
    requires g.persist && !g.askedToQuit && !(maxfail > 0 && unsuccess >= maxfail)
    requires AfterWait(g, s).gotSigterm == 0
    ensures !StopRetrying(EventFlags(g, s), maxfail, unsuccess)
  {
    EventFlagsCode(g, s);
  }

  /** The globals get_input overwrites for its decision: a modem hangup records HANGUP and drops the holdoff. */
  function InputEffect(g: Globals, a: Dispatch.Action): Globals {
    if a.Hangup? then g.(hungup := true, code := EXIT_HANGUP, needHoldoff := false) else g
  }

  /**
   * After a modem hangup a persistent session is retried at once: without
   * a holdoff hook the holdoff is 0, and a later SIGHUP keeps the code
   * HANGUP.
   */
  lemma HangupRetriesWithoutHoldoff(g: Globals, holdoff: int, maxfail: int, unsuccess: int)
    requires g.persist && !g.askedToQuit && !(maxfail > 0 && unsuccess >= maxfail)
    ensures var r := InputEffect(g, Dispatch.Hangup);
      && r.code == EXIT_HANGUP && r.hungup
      && HoldoffTime(r.needHoldoff, holdoff, None) == 0
      && !StopRetrying(r, maxfail, unsuccess)
      && OnHangup(r.(gotSighup := true)).code == EXIT_HANGUP
  {
  }

  /** ppp_send_config / ppp_recv_config: -1 exactly when the channel routine ran and error_count moved. */
  function ConfigStatus(hasRoutine: bool, errorsBefore: int, errorsAfter: int): (r: int)
    ensures r == -1 <==> hasRoutine && errorsAfter != errorsBefore
    ensures r == 0 <==> !(hasRoutine && errorsAfter != errorsBefore)
  {
    if !hasRoutine then 0 else if errorsAfter != errorsBefore then -1 else 0
  }

  const U32: int := 0x1_0000_0000

  /**
   * The tenths of minutes print_link_stats reports for `ct` seconds:
   * `(ct + 5) / 6` in unsigned arithmetic, which rounds ct / 6 up, and
   * wraps to 0 for the last five values of the unsigned range.
   */
  function TenthsOfMinutes(ct: int): (t: int)
    requires 0 <= ct < U32
    ensures ct < U32 - 5 ==> 6 * t >= ct && 6 * t < ct + 6
    ensures ct >= U32 - 5 ==> t == 0
  {
    ((ct + 5) % U32) / 6
  }

  /** The "Connect time M.T minutes" line, when statistics are due and valid. */
  function LinkStatsLine(due: bool, valid: bool, ct: int): (line: Option<(int, int)>)
    requires 0 <= ct < U32
    ensures line.Some? <==> due && valid
    ensures line.Some? ==> 10 * line.value.0 + line.value.1 == TenthsOfMinutes(ct) && 0 <= line.value.1 < 10
  {
    if due && valid then
      var t := TenthsOfMinutes(ct);
      Some((t / 10, t % 10))
    else None
  }

  /** One event of the trace new_phase produces. */
  datatype Event =
    | RunNetScript(path: string, wait: bool)
    | IfRenamed(from: string, to: string)
    | PhaseHook(func: FuncId, p: Phase)
    | Notified(call: Notifiers.Call)

  /** The events for notifier calls, in calling order. */
  function Notifications(cs: seq<Notifiers.Call>): (r: seq<Event>)
    ensures |r| == |cs|
    ensures forall i :: 0 <= i < |cs| ==> r[i] == Notified(cs[i])
  {
    if cs == [] then [] else [Notified(cs[0])] + Notifications(cs[1..])
  }

  /** new_phase runs the pre-up script and re-resolves the interface name exactly in this case. */
  predicate EntersNetwork(from: Phase, p: Phase) {
    p == Network && AtMost(from, Network)
  }

  /** The events before `phase` is assigned: the net scripts and the interface rename. */
  function NetScripts(from: Phase, p: Phase, ifname: string, resolved: Option<string>, preup: string, down: string): (r: seq<Event>)
    ensures |r| <= 2
    ensures forall i :: 0 <= i < |r| ==> r[i].RunNetScript? || r[i].IfRenamed?
    ensures forall i :: 1 <= i < |r| ==> r[i].IfRenamed?
  {
    if EntersNetwork(from, p) then
      [RunNetScript(preup, true)] + (if resolved.Some? && resolved.value != ifname then [IfRenamed(ifname, resolved.value)] else [])
    else if p == Disconnect then [RunNetScript(down, false)]
    else []
  }

  /** The interface name after new_phase; `resolved` is what if_indextoname returned, if it succeeded. */
  function IfnameAfter(from: Phase, p: Phase, ifname: string, resolved: Option<string>): string {
    if EntersNetwork(from, p) && resolved.Some? then resolved.value else ifname
  }

  /** The whole trace of new_phase(p) from phase `from`, with hook `hook` and the phasechange subscribers `subs`. */
  function PhaseTrace(from: Phase, p: Phase, ifname: string, resolved: Option<string>, preup: string, down: string,
                      hook: Option<FuncId>, subs: seq<Notifiers.Notifier>): seq<Event> {
    NetScripts(from, p, ifname, resolved, preup, down)
    + (if hook.Some? then [PhaseHook(hook.value, p)] else [])
    + Notifications(Notifiers.Calls(subs, Ord(p)))
  }

  /**
   * Every new_phase, even to the current phase, ends by notifying each
   * phasechange subscriber once, head first, with the new phase's value,
   * right after the phase hook; nothing else in the trace is a
   * notification.
   */
  lemma PhaseTraceEndsWithNotifications(from: Phase, p: Phase, ifname: string, resolved: Option<string>,
                                        preup: string, down: string, hook: Option<FuncId>, subs: seq<Notifiers.Notifier>)
    ensures var t, n := PhaseTrace(from, p, ifname, resolved, preup, down, hook, subs), |subs|;
      && |t| >= n
      && (forall i :: 0 <= i < n ==> t[|t| - n + i] == Notified(Notifiers.Call(subs[i].func, subs[i].arg, Ord(p))))
      && (forall i :: 0 <= i < |t| - n ==> !t[i].Notified?)
      && (hook.Some? ==> t[|t| - n - 1] == PhaseHook(hook.value, p))
  {
    var pre := NetScripts(from, p, ifname, resolved, preup, down);
    var h: seq<Event> := if hook.Some? then [PhaseHook(hook.value, p)] else [];
    var ns := Notifications(Notifiers.Calls(subs, Ord(p)));
    var t := PhaseTrace(from, p, ifname, resolved, preup, down, hook, subs);
    assert t == (pre + h) + ns;
    forall i | 0 <= i < |subs|
      ensures t[|t| - |subs| + i] == Notified(Notifiers.Call(subs[i].func, subs[i].arg, Ord(p)))
    {
      assert t[|pre + h| + i] == ns[i];
    }
    forall i | 0 <= i < |t| - |subs|
      ensures !t[i].Notified?
    {
      assert t[i] == (pre + h)[i];
    }
    if hook.Some? {
      assert t[|pre|] == h[0];
    }
  }


  /** Some event of `t` runs a net script, waiting for it or not as `wait` says. */
  predicate RunsScript(t: seq<Event>, wait: bool) {
    exists i :: 0 <= i < |t| && t[i].RunNetScript? && t[i].wait == wait
  }

  /**
   * The pre-up script is run, waited for and first, exactly when entering
   * Network from a phase at most Network; the down script is run without
   * waiting exactly on entering Disconnect.
   */
  lemma PhaseTraceScripts(from: Phase, p: Phase, ifname: string, resolved: Option<string>,
                          preup: string, down: string, hook: Option<FuncId>, subs: seq<Notifiers.Notifier>)
    ensures var t := PhaseTrace(from, p, ifname, resolved, preup, down, hook, subs);
      && (RunsScript(t, true) <==> EntersNetwork(from, p))
      && (RunsScript(t, false) <==> p == Disconnect)
      && (EntersNetwork(from, p) ==> t[0] == RunNetScript(preup, true))
      && (p == Disconnect ==> t[0] == RunNetScript(down, false))
  {
    var pre := NetScripts(from, p, ifname, resolved, preup, down);
    var h: seq<Event> := if hook.Some? then [PhaseHook(hook.value, p)] else [];
    var rest := h + Notifications(Notifiers.Calls(subs, Ord(p)));
    assert PhaseTrace(from, p, ifname, resolved, preup, down, hook, subs) == pre + rest;
    assert forall i :: 0 <= i < |rest| ==> !rest[i].RunNetScript?;
    ScriptsOnlyBefore(pre, rest, true);
    ScriptsOnlyBefore(pre, rest, false);
    NetScriptsRun(from, p, ifname, resolved, preup, down);
  }

  /** Appending events that run no script changes which scripts run. */
  lemma ScriptsOnlyBefore(pre: seq<Event>, rest: seq<Event>, wait: bool)
    requires forall i :: 0 <= i < |rest| ==> !rest[i].RunNetScript?
    ensures RunsScript(pre + rest, wait) <==> RunsScript(pre, wait)
    ensures pre != [] ==> (pre + rest)[0] == pre[0]
  {
    var t := pre + rest;
    assert forall k :: |pre| <= k < |t| ==> t[k] == rest[k - |pre|];
    if RunsScript(t, wait) {
      var i :| 0 <= i < |t| && t[i].RunNetScript? && t[i].wait == wait;
      assert pre[i] == t[i];
    }
    if RunsScript(pre, wait) {
      var i :| 0 <= i < |pre| && pre[i].RunNetScript? && pre[i].wait == wait;
      assert t[i] == pre[i];
    }
  }

  /** The scripts new_phase runs before the assignment, and the first event. */
  lemma NetScriptsRun(from: Phase, p: Phase, ifname: string, resolved: Option<string>, preup: string, down: string)
    ensures var pre := NetScripts(from, p, ifname, resolved, preup, down);
      && (RunsScript(pre, true) <==> EntersNetwork(from, p))
      && (RunsScript(pre, false) <==> p == Disconnect)
      && (EntersNetwork(from, p) ==> pre != [] && pre[0] == RunNetScript(preup, true))
      && (p == Disconnect ==> pre == [RunNetScript(down, false)])
  {
    var pre := NetScripts(from, p, ifname, resolved, preup, down);
    if EntersNetwork(from, p) {
      assert pre[0].RunNetScript? && pre[0].wait;
      assert !RunsScript(pre, false);
    } else if p == Disconnect {
      assert pre[0].RunNetScript? && !pre[0].wait;
    }
  }

  /** The controller's globals. */
  class Session {
    var phase: Phase
    var code: ExitCode
    var killLink: bool
    var openCcpFlag: bool
    var askedToQuit: bool
    var persist: bool
    var gotSighup: bool
    var gotSigterm: int
    var gotSigusr2: bool
    var gotSigchld: bool
    var needHoldoff: bool
    var hungup: bool
    /** ifname */
    var ifname: string
    /** path_net_preup and path_net_down */
    var netPreup: string
    var netDown: string
    /** new_phase_hook; None is NULL. */
    var newPhaseHook: Option<FuncId>
    var linkStatsPrint: bool
    var linkStatsValid: bool
    /** link_connect_time, an unsigned 32-bit count of seconds */
    var linkConnectTime: int

    ghost predicate Valid()
      reads this
    {
      0 <= linkConnectTime < U32
    }

    function State(): Globals
      reads this
    {
      Globals(phase, code, killLink, openCcpFlag, askedToQuit, persist,
              gotSighup, gotSigterm, gotSigusr2, gotSigchld, needHoldoff, hungup)
    }

    /** The globals before main runs: all zero, with the given options. */
    constructor (persist: bool, ifname: string, netPreup: string, netDown: string, newPhaseHook: Option<FuncId>)
      ensures Valid()
      ensures State() == Globals(Dead, EXIT_OK, false, false, false, persist, false, 0, false, false, false, false)
      ensures this.ifname == ifname && this.netPreup == netPreup && this.netDown == netDown
      ensures this.newPhaseHook == newPhaseHook
      ensures !linkStatsPrint && !linkStatsValid && linkConnectTime == 0
    {
      phase := Dead;
      code := EXIT_OK;
      killLink, openCcpFlag, askedToQuit := false, false, false;
      this.persist := persist;
      gotSighup, gotSigterm, gotSigusr2, gotSigchld := false, 0, false, false;
      needHoldoff, hungup := false, false;
      this.ifname := ifname;
      this.netPreup, this.netDown := netPreup, netDown;
      this.newPhaseHook := newPhaseHook;
      linkStatsPrint, linkStatsValid, linkConnectTime := false, false, 0;
    }

    /** in_phase */
    function InPhase(p: Phase): bool
      reads this
    {
      phase == p
    }

    /**
     * new_phase(p): the Network and Disconnect side effects, then the
     * assignment, the hook and the phasechange notifications. `resolved`
     * is the current name of the interface's index, if it has one.
     */
    method NewPhase(p: Phase, reg: Notifiers.NotifierRegistry, resolved: Option<string>) returns (trace: seq<Event>)
      requires Notifiers.PhaseChange in reg.lists
      modifies this`phase, this`ifname
      ensures InPhase(p)
      ensures ifname == IfnameAfter(old(phase), p, old(ifname), resolved)
      ensures trace == PhaseTrace(old(phase), p, old(ifname), resolved, netPreup, netDown, newPhaseHook,
                                  reg.lists[Notifiers.PhaseChange])
    {
      var pre := RunNetScripts(p, resolved);
      phase := p;
      var h: seq<Event> := if newPhaseHook.Some? then [PhaseHook(newPhaseHook.value, p)] else [];
      var calls := Notifiers.Notify(reg.lists[Notifiers.PhaseChange], Ord(p));
      trace := pre + h + Notifications(calls);
    }

    /** The part of new_phase before the assignment: the net scripts and the interface rename. */
    method RunNetScripts(p: Phase, resolved: Option<string>) returns (trace: seq<Event>)
      modifies this`ifname
      ensures trace == NetScripts(phase, p, old(ifname), resolved, netPreup, netDown)
      ensures ifname == IfnameAfter(phase, p, old(ifname), resolved)
    {
      trace := [];
      if p == Network && AtMost(phase, Network) {
        trace := [RunNetScript(netPreup, true)];
        if resolved.Some? && resolved.value != ifname {
          trace := trace + [IfRenamed(ifname, resolved.value)];
          ifname := resolved.value;
        }
      } else if p == Disconnect {
        trace := [RunNetScript(netDown, false)];
      }
    }

    /**
     * The first half of handle_events: clear kill_link and open_ccp_flag
     * and wait only when no signal is pending; the wait's bound is
     * timeleft at `now`, and the signals `s` arrive during it.
     */
    method WaitForEvents(q: Timers.CalloutQueue, now: Timers.TimeVal, s: Arrivals)
      returns (waited: bool, timeout: Option<Timers.TimeVal>)
      modifies this`killLink, this`openCcpFlag, this`gotSighup, this`gotSigterm, this`gotSigusr2, this`gotSigchld
      ensures State() == AfterWait(old(State()), s)
      ensures waited <==> !Pending(old(State()))
      ensures timeout == if waited then Timers.TimeLeft(q.entries, now) else None
    {
      killLink, openCcpFlag := false, false;
      waited, timeout := Wait(q, now, s);
    }

    /** wait_input, entered only when no got_* flag is set; the handlers of the signals `s` run during it. */
    method Wait(q: Timers.CalloutQueue, now: Timers.TimeVal, s: Arrivals)
      returns (waited: bool, timeout: Option<Timers.TimeVal>)
      modifies this`gotSighup, this`gotSigterm, this`gotSigusr2, this`gotSigchld
      ensures State() == if Pending(old(State())) then old(State()) else Arrive(old(State()), s)
      ensures waited <==> !Pending(old(State()))
      ensures timeout == if waited then Timers.TimeLeft(q.entries, now) else None
    {
      waited := !(gotSighup || gotSigterm != 0 || gotSigusr2 || gotSigchld);
      timeout := None;
      if waited {
        timeout := Timers.TimeLeft(q.entries, now);
        gotSighup, gotSigterm, gotSigusr2, gotSigchld :=
          s.hup, if s.term != 0 then s.term else gotSigterm, s.usr2, s.chld;
      }
    }

    /**
     * The second half of handle_events, after the timers: act on SIGHUP,
     * SIGTERM, SIGCHLD (reaping with the reported exits) and SIGUSR2.
     */
    method ActOnSignals(kids: Children.ChildRegistry, exits: seq<int>, end: Children.WaitEnd)
      returns (reaped: seq<Children.DoneCall>)
      requires kids.Valid()
      modifies this`killLink, this`openCcpFlag, this`askedToQuit, this`persist, this`code
      modifies this`gotSighup, this`gotSigterm, this`gotSigusr2, this`gotSigchld, kids`children, kids`nChildren
      ensures State() == OnUsr2(OnChild(OnTerminate(OnHangup(old(State())))))
      ensures kids.Valid()
      ensures !old(gotSigchld) || old(kids.nChildren) == 0 ==> reaped == [] && kids.State() == old(kids.State())
      ensures old(gotSigchld) && old(kids.nChildren) != 0 ==>
                Children.Reaped(kids.State(), reaped) == Children.Reap(old(kids.State()), exits)
    {
      ActOnHangup();
      ActOnTerminate();
      reaped := ActOnChildExit(kids, exits, end);
      ActOnUsr2();
    }

    /** The SIGHUP branch of handle_events. */
    method ActOnHangup()
      modifies this`killLink, this`gotSighup, this`code
      ensures State() == OnHangup(old(State()))
    {
      if gotSighup {
        killLink := true;
        gotSighup := false;
        if code != EXIT_HANGUP {
          code := EXIT_USER_REQUEST;
        }
      }
    }

    /** The SIGTERM (or SIGINT) branch of handle_events. */
    method ActOnTerminate()
      modifies this`killLink, this`askedToQuit, this`persist, this`code, this`gotSigterm
      ensures State() == OnTerminate(old(State()))
    {
      if gotSigterm != 0 {
        killLink := true;
        askedToQuit := true;
        persist := false;
        code := EXIT_USER_REQUEST;
        gotSigterm := 0;
      }
    }

    /** The SIGUSR2 branch of handle_events. */
    method ActOnUsr2()
      modifies this`openCcpFlag, this`gotSigusr2
      ensures State() == OnUsr2(old(State()))
    {
      if gotSigusr2 {
        openCcpFlag := true;
        gotSigusr2 := false;
      }
    }

    /** The SIGCHLD branch of handle_events: clear got_sigchld and reap_kids. */
    method ActOnChildExit(kids: Children.ChildRegistry, exits: seq<int>, end: Children.WaitEnd)
      returns (reaped: seq<Children.DoneCall>)
      requires kids.Valid()
      modifies this`gotSigchld, kids`children, kids`nChildren
      ensures State() == OnChild(old(State()))
      ensures kids.Valid()
      ensures !old(gotSigchld) || old(kids.nChildren) == 0 ==> reaped == [] && kids.State() == old(kids.State())
      ensures old(gotSigchld) && old(kids.nChildren) != 0 ==>
                Children.Reaped(kids.State(), reaped) == Children.Reap(old(kids.State()), exits)
    {
      reaped := [];
      if gotSigchld {
        gotSigchld := false;
        var _, calls := kids.ReapKids(exits, end);
        reaped := calls;
      }
    }

    /**
     * handle_events: wait (bounded by timeleft at `before`), fire the
     * timers due at `after`, then act on the signal flags.
     */
    method HandleEvents(q: Timers.CalloutQueue, kids: Children.ChildRegistry, before: Timers.TimeVal,
                        after: Timers.TimeVal, s: Arrivals, exits: seq<int>, end: Children.WaitEnd)
      returns (waited: bool, timeout: Option<Timers.TimeVal>, fired: seq<Timers.Callout>, reaped: seq<Children.DoneCall>)
      requires q.Valid() && kids.Valid()
      modifies this`killLink, this`openCcpFlag, this`askedToQuit, this`persist, this`code
      modifies this`gotSighup, this`gotSigterm, this`gotSigusr2, this`gotSigchld, q, kids`children, kids`nChildren
      ensures State() == EventFlags(old(State()), s)
      ensures waited <==> !Pending(old(State()))
      ensures timeout == if waited then Timers.TimeLeft(old(q.entries), before) else None
      ensures q.Valid()
      ensures fired == old(q.entries)[..Timers.DueCount(old(q.entries), after)]
      ensures q.entries == old(q.entries)[Timers.DueCount(old(q.entries), after)..]
      ensures kids.Valid()
      ensures !AfterWait(old(State()), s).gotSigchld || old(kids.nChildren) == 0 ==>
                reaped == [] && kids.State() == old(kids.State())
      ensures AfterWait(old(State()), s).gotSigchld && old(kids.nChildren) != 0 ==>
                Children.Reaped(kids.State(), reaped) == Children.Reap(old(kids.State()), exits)
    {
      waited, timeout := WaitForEvents(q, before, s);
      fired := q.CallTimeout(after);
      reaped := ActOnSignals(kids, exits, end);
    }

    /**
     * get_input on one read: the dispatch decision in the current phase,
     * and on a modem hangup the globals it overwrites. The phase itself is
     * not changed here.
     */
    method GetInput(r: Dispatch.ReadResult, lastChannel: bool, lcpOpened: bool, table: seq<Dispatch.ProtEnt>)
      returns (a: Dispatch.Action)
      modifies this`hungup, this`code, this`needHoldoff
      ensures a == Dispatch.Dispatch(r, lastChannel, lcpOpened, phase, table)
      ensures State() == InputEffect(old(State()), a)
    {
      a := Dispatch.Dispatch(r, lastChannel, lcpOpened, phase, table);
      if a.Hangup? {
        hungup := true;
        code := EXIT_HANGUP;
        needHoldoff := false;
      }
    }

    /** print_link_stats: report the connect time once, then clear link_stats_print. */
    method PrintLinkStats() returns (line: Option<(int, int)>)
      requires Valid()
      modifies this`linkStatsPrint
      ensures line == LinkStatsLine(old(linkStatsPrint), linkStatsValid, linkConnectTime)
      ensures linkStatsPrint == (old(linkStatsPrint) && line.None?)
      ensures line.Some? ==> !linkStatsPrint
    {
      line := None;
      if linkStatsPrint && linkStatsValid {
        var t := ((linkConnectTime + 5) % U32) / 6;
        line := Some((t / 10, t % 10));
        linkStatsPrint := false;
      }
    }
  }
}
