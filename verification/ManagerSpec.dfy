/** What each RunManager call does (services/orchestrator/src/services/run-manager.ts), as functions
    over the run table, the queue, the leases, the abort contexts and the timers. Every await inside
    the manager is on an already-resolved promise, so one call is one step. */
module ManagerSpec {
  import opened Collections
  import opened RunTypes
  import opened Owner
  import Q = QueueSpec
  import L = LeaseSpec
  import T = TimeoutSpec
  import C = CancellationSpec

  datatype Config = Config(defaultTimeoutMs: int, maxTimeoutMs: int, leaseTtlMs: int)

  datatype Run = Run(
    id: RunId,
    owner: OwnerPrincipal,
    userId: OwnerKey,
    state: RunState,
    queuePosition: Option<nat>,
    leaseToken: Option<Token>,
    leaseExpiresAt: Option<Time>,
    createdAt: Time,
    startedAt: Option<Time>,
    completedAt: Option<Time>,
    maxDurationMs: int,
    error: Option<string>,
    finalMessages: Option<seq<string>>)

  datatype RunError =
    | RunNotFound(runId: RunId)
    | InvalidStateTransition(runId: RunId, from: RunState, to: RunState)
    | MalformedOwner

  datatype Manager = Manager(
    runs: map<RunId, Run>,
    queue: Q.QueueState,
    leases: L.LeaseState,
    contexts: C.Contexts,
    timers: map<RunId, T.Timer>)

  const EMPTY := Manager(map[], Q.EMPTY, L.EMPTY, map[], map[])

  /** The manager after a call, what the call returned or threw, and the reason delivered to the
      run's abort listeners if its signal fired on the way. */
  datatype Outcome = Outcome(m: Manager, result: Result<Run, RunError>, aborted: Option<string>)

  function Min(a: int, b: int): int { if a < b then a else b }

  function NewRun(cfg: Config, now: Time, id: RunId, owner: OwnerPrincipal, u: OwnerKey,
                  maxDurationMs: Option<int>, position: nat): Run {
    var wanted := if maxDurationMs.Some? then maxDurationMs.value else cfg.defaultTimeoutMs;
    Run(id, owner, u, QUEUED, Some(position), None, None, now, None, None,
        Min(wanted, cfg.maxTimeoutMs), None, None)
  }

  function CreateRun(m: Manager, cfg: Config, now: Time, id: RunId, owner: OwnerPrincipal,
                     maxDurationMs: Option<int>): Outcome {
    match OwnerKeyFromPrincipal(owner)
    case None => Outcome(m, Failure(MalformedOwner), None)
    case Some(u) =>
      var run := NewRun(cfg, now, id, owner, u, maxDurationMs, |Q.Lane(m.queue, u)|);
      Outcome(m.(runs := m.runs[id := run], queue := Q.Enqueue(m.queue, id, u)), Success(run), None)
  }

  /** The run as acquireNextRun writes it: LEASED whatever it was before. */
  function Leased(run: Run, now: Time, token: Token, ttlMs: int): Run {
    run.(state := LEASED, leaseToken := Some(token), leaseExpiresAt := Some(now + ttlMs),
         queuePosition := None, startedAt := Some(now))
  }

  datatype Acquired = Acquired(m: Manager, result: Result<Option<Run>, RunError>)

  function AcquireNextRun(m: Manager, cfg: Config, now: Time, u: OwnerKey, token: Token): Acquired {
    var head := Q.Peek(m.queue, u);
    if head.None? || L.Held(m.leases, now, u) then Acquired(m, Success(None))
    else
      var id := head.value;
      var m1 := m.(queue := Q.Dequeue(m.queue, u),
                   leases := L.Acquire(m.leases, now, u, id, token, cfg.leaseTtlMs));
      if id !in m.runs then Acquired(m1, Failure(RunNotFound(id)))
      else
        var run := Leased(m.runs[id], now, token, cfg.leaseTtlMs);
        Acquired(m1.(runs := m1.runs[id := run]), Success(Some(run)))
  }

  function Truthy(s: Option<string>): bool { s.Some? && s.value != "" }

  function Transitioned(run: Run, now: Time, to: RunState, error: Option<string>,
                        finalMessages: Option<seq<string>>): Run {
    run.(state := to,
         startedAt := if to == RUNNING && run.startedAt.None? then Some(now) else run.startedAt,
         completedAt := if IsTerminalState(to) then Some(now) else run.completedAt,
         queuePosition := if IsTerminalState(to) then None else run.queuePosition,
         error := if Truthy(error) then error else run.error,
         finalMessages := if finalMessages.Some? then finalMessages else run.finalMessages)
  }

  function TransitionState(m: Manager, now: Time, id: RunId, to: RunState, error: Option<string>,
                           finalMessages: Option<seq<string>>): Outcome {
    if id !in m.runs then Outcome(m, Failure(RunNotFound(id)), None)
    else if !IsValidStateTransition(m.runs[id].state, to) then
      Outcome(m, Failure(InvalidStateTransition(id, m.runs[id].state, to)), None)
    else
      var run := Transitioned(m.runs[id], now, to, error, finalMessages);
      Outcome(m.(runs := m.runs[id := run],
                 timers := if IsTerminalState(to) then T.Clear(m.timers, id) else m.timers),
              Success(run), None)
  }

  function StartRun(m: Manager, now: Time, id: RunId): Outcome {
    var o := TransitionState(m, now, id, RUNNING, None, None);
    if o.result.Failure? then o
    else o.(m := o.m.(contexts := C.Create(o.m.contexts, id),
                      timers := T.Schedule(o.m.timers, now, id, o.result.value.maxDurationMs)))
  }

  function ReleaseLeaseOf(m: Manager, run: Run): Manager {
    if run.leaseToken.Some? then m.(leases := L.Release(m.leases, run.leaseToken.value)) else m
  }

  /** The lease goes, the signal fires with this reason, then the state changes. */
  function AbortInto(m: Manager, now: Time, id: RunId, reason: string, to: RunState, error: Option<string>): Outcome
    requires id in m.runs
  {
    var m1 := ReleaseLeaseOf(m, m.runs[id]);
    var aborted := C.AbortEvent(m1.contexts, id, Some(reason));
    var m2 := m1.(contexts := C.Cancel(m1.contexts, id, Some(reason)));
    TransitionState(m2, now, id, to, error, None).(aborted := aborted)
  }

  function CancelRun(m: Manager, now: Time, id: RunId, reason: Option<string>): Outcome {
    if id !in m.runs then Outcome(m, Failure(RunNotFound(id)), None)
    else if IsTerminalState(m.runs[id].state) then Outcome(m, Success(m.runs[id]), None)
    else
      var m1 := if m.runs[id].state == QUEUED then m.(queue := Q.Remove(m.queue, id)) else m;
      AbortInto(m1, now, id, if reason.Some? then reason.value else "user_cancelled", CANCELLED,
                Some(if reason.Some? then reason.value else "cancelled"))
  }

  const TIMEOUT_ERROR := "Run exceeded maximum duration"

  /** The timer callback: its entry goes first, then timeoutRun. */
  function FireTimeout(m: Manager, now: Time, id: RunId): Outcome {
    var m1 := m.(timers := T.Clear(m.timers, id));
    if id !in m1.runs then Outcome(m1, Failure(RunNotFound(id)), None)
    else if IsTerminalState(m1.runs[id].state) then Outcome(m1, Success(m1.runs[id]), None)
    else AbortInto(m1, now, id, "timeout", TIMED_OUT, Some(TIMEOUT_ERROR))
  }

  /** Completing and failing release the lease and drop the context before the transition is checked. */
  function Finish(m: Manager, now: Time, id: RunId, to: RunState, error: Option<string>,
                  finalMessages: Option<seq<string>>): Outcome {
    if id !in m.runs then Outcome(m, Failure(RunNotFound(id)), None)
    else
      var m1 := ReleaseLeaseOf(m, m.runs[id]);
      TransitionState(m1.(contexts := C.Remove(m1.contexts, id)), now, id, to, error, finalMessages)
  }

  function CompleteRun(m: Manager, now: Time, id: RunId, finalMessages: Option<seq<string>>): Outcome {
    Finish(m, now, id, COMPLETED, None, finalMessages)
  }

  function FailRun(m: Manager, now: Time, id: RunId, error: string): Outcome {
    Finish(m, now, id, FAILED, Some(error), None)
  }
}
