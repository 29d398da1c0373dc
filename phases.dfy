/**
 * The session phases of pppd. They are the values of the ppp_phase_t
 * enumeration in pppd.h (PHASE_DEAD = 0 up to PHASE_MASTER = 12), which
 * pppd/main.c compares with `<=` and passes to the phase-change notifiers
 * as a plain integer.
 */
module Phases {

  newtype Phase = n: int | 0 <= n <= 12

  const Dead: Phase := 0
  const Initialize: Phase := 1
  const Serialconn: Phase := 2
  const Dormant: Phase := 3
  const Establish: Phase := 4
  const Authenticate: Phase := 5
  const Callback: Phase := 6
  const Network: Phase := 7
  const Running: Phase := 8
  const Terminate: Phase := 9
  const Disconnect: Phase := 10
  const Holdoff: Phase := 11
  const Master: Phase := 12

  /** The enumeration value of a phase, as handed to the notifiers. */
  function Ord(p: Phase): (n: nat)
    ensures n <= 12
  {
    p as int
  }

  /** `a <= b` on the enumeration values. */
  predicate AtMost(a: Phase, b: Phase) {
    a <= b
  }

  /** The phases up to and including Authenticate, in which get_input accepts only link-level packets. */
  lemma PhasesUpToAuthenticate(p: Phase)
    ensures AtMost(p, Authenticate) <==> p in {Dead, Initialize, Serialconn, Dormant, Establish, Authenticate}
  {
  }
}
