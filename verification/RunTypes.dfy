/** Run states and their transition table (services/orchestrator/src/types/run.ts). */
module RunTypes {

  /** Generated identifiers. They carry a fixed prefix, so none is the empty string. */
  datatype RunId = RunId(serial: nat)

  datatype Token = Token(serial: nat)

  /** Milliseconds on the process clock. */
  type Time = int

  datatype RunState = QUEUED | LEASED | RUNNING | COMPLETED | FAILED | CANCELLED | TIMED_OUT

  function ValidNextStates(from: RunState): seq<RunState> {
    match from
    case QUEUED => [LEASED, CANCELLED]
    case LEASED => [RUNNING, FAILED, CANCELLED]
    case RUNNING => [COMPLETED, FAILED, CANCELLED, TIMED_OUT]
    case COMPLETED => []
    case FAILED => []
    case CANCELLED => []
    case TIMED_OUT => []
  }

  predicate IsValidStateTransition(from: RunState, to: RunState) {
    to in ValidNextStates(from)
  }

  predicate IsTerminalState(s: RunState) {
    s in [COMPLETED, FAILED, CANCELLED, TIMED_OUT]
  }

  predicate IsActiveState(s: RunState) {
    s in [LEASED, RUNNING]
  }

  /** Every chain of table steps is short: at most three transitions lie ahead of any state. */
  function TransitionsLeft(s: RunState): nat {
    match s
    case QUEUED => 3
    case LEASED => 2
    case RUNNING => 1
    case _ => 0
  }

  /** Queued, active and terminal split the states, terminal is exactly "no way out",
      and every legal transition strictly advances, so the table has no cycle. */
  lemma StateClasses(s: RunState)
    ensures IsTerminalState(s) <==> ValidNextStates(s) == []
    ensures IsTerminalState(s) <==> s != QUEUED && !IsActiveState(s)
    ensures !IsActiveState(QUEUED)
    ensures forall t :: IsValidStateTransition(s, t) ==> TransitionsLeft(t) < TransitionsLeft(s)
    ensures IsTerminalState(s) <==> TransitionsLeft(s) == 0
  {
    match s
    case _ =>
  }
}
