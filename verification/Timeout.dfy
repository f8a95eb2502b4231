/** Run timers (services/orchestrator/src/services/timeout.ts). */
module TimeoutSpec {
  import opened RunTypes

  /** timeoutAt is what the service reports; firesAt is when the runtime's setTimeout calls back. */
  datatype Timer = Timer(scheduledAt: Time, timeoutAt: Time, firesAt: Time)

  const DEFAULT_RUN_TIMEOUT_MS: int := 10 * 60 * 1000
  const MAX_RUN_TIMEOUT_MS: int := 60 * 60 * 1000
  const MAX_TIMER_DELAY_MS: int := 0x7FFF_FFFF

  /** setTimeout turns a delay below 1 ms or above 2^31 - 1 ms into 1 ms. */
  function EffectiveDelay(delayMs: int): (d: int)
    ensures 1 <= d <= MAX_TIMER_DELAY_MS
    ensures d == delayMs || d == 1
  {
    if 1 <= delayMs <= MAX_TIMER_DELAY_MS then delayMs else 1
  }

  function NewTimer(now: Time, delayMs: int): Timer {
    Timer(now, now + delayMs, now + EffectiveDelay(delayMs))
  }

  function Schedule(timers: map<RunId, Timer>, now: Time, r: RunId, delayMs: int): map<RunId, Timer> {
    timers[r := NewTimer(now, delayMs)]
  }

  function Clear(timers: map<RunId, Timer>, r: RunId): map<RunId, Timer> {
    timers - {r}
  }

  predicate Due(timers: map<RunId, Timer>, now: Time, r: RunId) {
    r in timers && timers[r].firesAt <= now
  }
}

module TimeoutManager {
  import opened Collections
  import opened RunTypes
  import T = TimeoutSpec

  class InMemoryTimeoutManager {
    var timeouts: map<RunId, T.Timer>

    constructor ()
      ensures timeouts == map[]
    {
      timeouts := map[];
    }

    method Schedule(now: Time, runId: RunId, delayMs: int)
      modifies this
      ensures timeouts == T.Schedule(old(timeouts), now, runId, delayMs)
      ensures runId in timeouts && timeouts[runId].timeoutAt == now + delayMs
      ensures timeouts[runId].firesAt == if 1 <= delayMs <= 0x7FFF_FFFF then now + delayMs else now + 1
      ensures timeouts - {runId} == old(timeouts) - {runId}
    {
      var _ := Clear(runId);
      timeouts := timeouts[runId := T.NewTimer(now, delayMs)];
    }

    method Clear(runId: RunId) returns (cleared: bool)
      modifies this
      ensures timeouts == T.Clear(old(timeouts), runId)
      ensures cleared <==> runId in old(timeouts)
    {
      if runId !in timeouts {
        assert timeouts - {runId} == timeouts;
        return false;
      }
      timeouts := timeouts - {runId};
      cleared := true;
    }

    /** The runtime's callback: the entry goes first, then the caller runs its handler. */
    method Fire(runId: RunId)
      modifies this
      ensures timeouts == T.Clear(old(timeouts), runId)
    {
      timeouts := timeouts - {runId};
    }
  }
}
