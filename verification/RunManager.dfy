/** The run manager as the service runs it: five collaborating objects updated in place, each call
    proved to do what ManagerSpec says (services/orchestrator/src/services/run-manager.ts). */
module RunManager {
  import opened Collections
  import opened RunTypes
  import opened Owner
  import S = ManagerSpec
  import Q = QueueSpec
  import L = LeaseSpec
  import T = TimeoutSpec
  import RunQueue
  import LeaseManager
  import TimeoutManager
  import CancellationRegistry

  datatype Assigned<+T> = Absent | Set(value: T)

  /** Partial<Run>: the fields an update assigns. */
  datatype RunUpdates = RunUpdates(
    state: Assigned<RunState>,
    queuePosition: Assigned<Option<nat>>,
    leaseToken: Assigned<Option<Token>>,
    leaseExpiresAt: Assigned<Option<Time>>,
    startedAt: Assigned<Option<Time>>,
    completedAt: Assigned<Option<Time>>,
    error: Assigned<Option<string>>,
    finalMessages: Assigned<Option<seq<string>>>)

  const NO_UPDATES := RunUpdates(Absent, Absent, Absent, Absent, Absent, Absent, Absent, Absent)

  function Assign<T>(current: T, a: Assigned<T>): T { if a.Set? then a.value else current }

  /** Object.assign(run, updates). */
  function Merge(run: S.Run, u: RunUpdates): S.Run {
    run.(state := Assign(run.state, u.state),
         queuePosition := Assign(run.queuePosition, u.queuePosition),
         leaseToken := Assign(run.leaseToken, u.leaseToken),
         leaseExpiresAt := Assign(run.leaseExpiresAt, u.leaseExpiresAt),
         startedAt := Assign(run.startedAt, u.startedAt),
         completedAt := Assign(run.completedAt, u.completedAt),
         error := Assign(run.error, u.error),
         finalMessages := Assign(run.finalMessages, u.finalMessages))
  }

  lemma MergePosition(run: S.Run, position: nat)
    ensures Merge(run, NO_UPDATES.(queuePosition := Set(Some(position)))) == run.(queuePosition := Some(position))
  {
  }

  class InMemoryRunRepository {
    var runs: map<RunId, S.Run>

    constructor ()
      ensures runs == map[]
    {
      runs := map[];
    }

    method Create(run: S.Run)
      modifies this
      ensures runs == old(runs)[run.id := run]
    {
      runs := runs[run.id := run];
    }

    method GetById(runId: RunId) returns (run: Option<S.Run>)
      ensures run == if runId in runs then Some(runs[runId]) else None
    {
      run := if runId in runs then Some(runs[runId]) else None;
    }

    method Update(runId: RunId, updates: RunUpdates) returns (result: Result<(), S.RunError>)
      modifies this
      ensures runId in old(runs) ==>
                runs == old(runs)[runId := Merge(old(runs)[runId], updates)] && result == Success(())
      ensures runId !in old(runs) ==> runs == old(runs) && result == Failure(S.RunNotFound(runId))
    {
      if runId !in runs {
        return Failure(S.RunNotFound(runId));
      }
      runs := runs[runId := Merge(runs[runId], updates)];
      result := Success(());
    }
  }

  function OrElse(value: Option<int>, fallback: int): int { if value.Some? then value.value else fallback }

  class RunManager {
    const repo: InMemoryRunRepository
    const queue: RunQueue.InMemoryRunQueue
    const leaseManager: LeaseManager.InMemoryLeaseManager
    const cancellationRegistry: CancellationRegistry.InMemoryCancellationRegistry
    const timeoutManager: TimeoutManager.InMemoryTimeoutManager
    const config: S.Config

    ghost function Repr(): set<object>
      reads cancellationRegistry
    {
      {repo, queue, leaseManager, timeoutManager} + cancellationRegistry.Repr
    }

    ghost predicate Valid()
      reads cancellationRegistry, cancellationRegistry.Repr
    {
      && cancellationRegistry.Valid()
      && {repo, queue, leaseManager, timeoutManager} !! cancellationRegistry.Repr
    }

    ghost function State(): S.Manager
      reads repo, queue, leaseManager, timeoutManager, cancellationRegistry
    {
      S.Manager(repo.runs, queue.State(), leaseManager.State(), cancellationRegistry.State, timeoutManager.timeouts)
    }

    /** What is not configured takes its default. */
    constructor (defaultTimeoutMs: Option<int>, maxTimeoutMs: Option<int>, leaseTtlMs: Option<int>)
      ensures Valid() && fresh(Repr())
      ensures State() == S.EMPTY
      ensures config == S.Config(OrElse(defaultTimeoutMs, 10 * 60 * 1000), OrElse(maxTimeoutMs, 60 * 60 * 1000),
                                 OrElse(leaseTtlMs, 30_000))
    {
      repo := new InMemoryRunRepository();
      queue := new RunQueue.InMemoryRunQueue();
      leaseManager := new LeaseManager.InMemoryLeaseManager();
      cancellationRegistry := new CancellationRegistry.InMemoryCancellationRegistry();
      timeoutManager := new TimeoutManager.InMemoryTimeoutManager();
      config := S.Config(OrElse(defaultTimeoutMs, T.DEFAULT_RUN_TIMEOUT_MS), OrElse(maxTimeoutMs, T.MAX_RUN_TIMEOUT_MS),
                         OrElse(leaseTtlMs, L.DEFAULT_LEASE_TTL_MS));
    }

    method CreateRun(now: Time, runId: RunId, owner: OwnerPrincipal, maxDurationMs: Option<int>)
      returns (result: Result<S.Run, S.RunError>)
      requires Valid() && runId !in repo.runs
      modifies Repr()
      ensures Valid() && fresh(Repr() - old(Repr()))
      ensures S.Outcome(State(), result, None) == S.CreateRun(old(State()), config, now, runId, owner, maxDurationMs)
    {
      hide OwnerKeyFromPrincipal, Q.Enqueue, Merge, CancellationRegistry.InMemoryCancellationRegistry.Valid;
      var limit := S.Min(OrElse(maxDurationMs, config.defaultTimeoutMs), config.maxTimeoutMs);
      var key := OwnerKeyFromPrincipal(owner);
      if key.None? {
        return Failure(S.MalformedOwner);
      }
      var run := S.Run(runId, owner, key.value, QUEUED, None, None, None, now, None, None, limit, None, None);
      repo.Create(run);
      var position := queue.Enqueue(runId, key.value);
      MergePosition(run, position);
      run := run.(queuePosition := Some(position));
      var _ := repo.Update(runId, NO_UPDATES.(queuePosition := Set(Some(position))));
      result := Success(run);
    }

    method GetRun(runId: RunId) returns (run: Option<S.Run>)
      requires Valid()
      ensures run == if runId in State().runs then Some(State().runs[runId]) else None
    {
      run := repo.GetById(runId);
    }

    method TransitionState(now: Time, runId: RunId, newState: RunState, error: Option<string>,
                           finalMessages: Option<seq<string>>)
      returns (result: Result<S.Run, S.RunError>)
      requires Valid()
      modifies repo, timeoutManager
      ensures Valid() && Repr() == old(Repr())
      ensures S.Outcome(State(), result, None)
           == S.TransitionState(old(State()), now, runId, newState, error, finalMessages)
    {
      hide S.Transitioned, Merge, CancellationRegistry.InMemoryCancellationRegistry.Valid;
      var run := repo.GetById(runId);
      if run.None? {
        return Failure(S.RunNotFound(runId));
      }
      if !IsValidStateTransition(run.value.state, newState) {
        return Failure(S.InvalidStateTransition(runId, run.value.state, newState));
      }
      var updates := TransitionUpdates(run.value, now, newState, error, finalMessages);
      ClearTimeoutIf(IsTerminalState(newState), runId);
      var _ := repo.Update(runId, updates);
      var updated := repo.GetById(runId);
      result := Success(updated.value);
    }

    method ClearTimeoutIf(ended: bool, runId: RunId)
      modifies timeoutManager
      ensures timeoutManager.timeouts
           == if ended then T.Clear(old(timeoutManager.timeouts), runId) else old(timeoutManager.timeouts)
    {
      if ended {
        var _ := timeoutManager.Clear(runId);
      }
    }

    /** The fields a transition sets. */
    static method TransitionUpdates(run: S.Run, now: Time, newState: RunState, error: Option<string>,
                                    finalMessages: Option<seq<string>>)
      returns (updates: RunUpdates)
      ensures Merge(run, updates) == S.Transitioned(run, now, newState, error, finalMessages)
    {
      updates := NO_UPDATES.(state := Set(newState));
      if newState == RUNNING && run.startedAt.None? {
        updates := updates.(startedAt := Set(Some(now)));
      }
      if IsTerminalState(newState) {
        updates := updates.(completedAt := Set(Some(now)), queuePosition := Set(None));
      }
      if S.Truthy(error) {
        updates := updates.(error := Set(error));
      }
      if finalMessages.Some? {
        updates := updates.(finalMessages := Set(finalMessages));
      }
    }

    method AcquireNextRun(now: Time, userId: OwnerKey, token: Token)
      returns (result: Result<Option<S.Run>, S.RunError>)
      requires Valid()
      modifies Repr()
      ensures Valid() && Repr() == old(Repr())
      ensures S.Acquired(State(), result) == S.AcquireNextRun(old(State()), config, now, userId, token)
    {
      hide Q.Dequeue, Q.Peek;
      var nextRunId := queue.Peek(userId);
      if nextRunId.None? {
        return Success(None);
      }
      var lease := leaseManager.Acquire(now, userId, nextRunId.value, config.leaseTtlMs, token);
      if lease.None? {
        return Success(None);
      }
      hide L.Acquire, S.Leased;
      var _ := queue.Dequeue(userId);
      var granted := lease.value;
      result := WriteLease(now, nextRunId.value, granted);
    }

    /** The update and the re-read at the end of an acquisition. */
    method WriteLease(now: Time, runId: RunId, granted: L.Lease) returns (result: Result<Option<S.Run>, S.RunError>)
      requires granted.expiresAt == now + config.leaseTtlMs
      modifies repo
      ensures runId !in old(repo.runs) ==> repo.runs == old(repo.runs) && result == Failure(S.RunNotFound(runId))
      ensures runId in old(repo.runs) ==>
                var run := S.Leased(old(repo.runs)[runId], now, granted.token, config.leaseTtlMs);
                repo.runs == old(repo.runs)[runId := run] && result == Success(Some(run))
    {
      var updated := repo.Update(runId, NO_UPDATES.(
        state := Set(LEASED), leaseToken := Set(Some(granted.token)), leaseExpiresAt := Set(Some(granted.expiresAt)),
        queuePosition := Set(None), startedAt := Set(Some(now))));
      if updated.Failure? {
        return Failure(updated.error);
      }
      var run := repo.GetById(runId);
      result := Success(run);
    }

    method StartRun(now: Time, runId: RunId) returns (result: Result<S.Run, S.RunError>)
      requires Valid()
      modifies Repr()
      ensures Valid() && fresh(Repr() - old(Repr()))
      ensures S.Outcome(State(), result, None) == S.StartRun(old(State()), now, runId)
    {
      hide S.TransitionState;
      result := TransitionState(now, runId, RUNNING, None, None);
      if result.Failure? {
        return;
      }
      var _ := cancellationRegistry.Create(runId);
      timeoutManager.Schedule(now, runId, result.value.maxDurationMs);
    }

    /** Also returns the reason delivered to the run's abort listeners, if its signal fired. */
    method CancelRun(now: Time, runId: RunId, reason: Option<string>)
      returns (result: Result<S.Run, S.RunError>, aborted: Option<string>)
      requires Valid()
      modifies Repr()
      ensures Valid() && fresh(Repr() - old(Repr()))
      ensures S.Outcome(State(), result, aborted) == S.CancelRun(old(State()), now, runId, reason)
    {
      hide S.AbortInto;
      var run := repo.GetById(runId);
      if run.None? {
        return Failure(S.RunNotFound(runId)), None;
      }
      if IsTerminalState(run.value.state) {
        return Success(run.value), None;
      }
      if run.value.state == QUEUED {
        var _ := queue.Remove(runId);
      }
      result, aborted := Abort(now, runId, if reason.Some? then reason.value else "user_cancelled", CANCELLED,
                               Some(if reason.Some? then reason.value else "cancelled"));
    }

    /** The tail that cancelling and timing out share. */
    method Abort(now: Time, runId: RunId, reason: string, to: RunState, error: Option<string>)
      returns (result: Result<S.Run, S.RunError>, aborted: Option<string>)
      requires Valid() && runId in repo.runs
      modifies Repr()
      ensures Valid() && Repr() == old(Repr())
      ensures S.Outcome(State(), result, aborted) == S.AbortInto(old(State()), now, runId, reason, to, error)
    {
      hide S.TransitionState;
      var run := repo.GetById(runId);
      if run.value.leaseToken.Some? {
        leaseManager.Release(run.value.leaseToken.value);
      }
      var _, event := cancellationRegistry.Cancel(runId, Some(reason));
      aborted := event;
      result := TransitionState(now, runId, to, error, None);
    }

    /** The timer callback scheduled by StartRun. */
    method FireTimeout(now: Time, runId: RunId)
      returns (result: Result<S.Run, S.RunError>, aborted: Option<string>)
      requires Valid()
      modifies Repr()
      ensures Valid() && fresh(Repr() - old(Repr()))
      ensures S.Outcome(State(), result, aborted) == S.FireTimeout(old(State()), now, runId)
    {
      hide S.AbortInto;
      timeoutManager.Fire(runId);
      var run := repo.GetById(runId);
      if run.None? {
        return Failure(S.RunNotFound(runId)), None;
      }
      if IsTerminalState(run.value.state) {
        return Success(run.value), None;
      }
      result, aborted := Abort(now, runId, "timeout", TIMED_OUT, Some(S.TIMEOUT_ERROR));
    }

    method CompleteRun(now: Time, runId: RunId, finalMessages: Option<seq<string>>)
      returns (result: Result<S.Run, S.RunError>)
      requires Valid()
      modifies Repr()
      ensures Valid() && fresh(Repr() - old(Repr()))
      ensures S.Outcome(State(), result, None) == S.CompleteRun(old(State()), now, runId, finalMessages)
    {
      var run := repo.GetById(runId);
      if run.None? {
        return Failure(S.RunNotFound(runId));
      }
      if run.value.leaseToken.Some? {
        leaseManager.Release(run.value.leaseToken.value);
      }
      cancellationRegistry.Remove(runId);
      result := TransitionState(now, runId, COMPLETED, None, finalMessages);
    }

    method FailRun(now: Time, runId: RunId, error: string) returns (result: Result<S.Run, S.RunError>)
      requires Valid()
      modifies Repr()
      ensures Valid() && fresh(Repr() - old(Repr()))
      ensures S.Outcome(State(), result, None) == S.FailRun(old(State()), now, runId, error)
    {
      var run := repo.GetById(runId);
      if run.None? {
        return Failure(S.RunNotFound(runId));
      }
      if run.value.leaseToken.Some? {
        leaseManager.Release(run.value.leaseToken.value);
      }
      cancellationRegistry.Remove(runId);
      result := TransitionState(now, runId, FAILED, Some(error), None);
    }
  }
}
