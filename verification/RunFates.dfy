/** A second account of the run manager, one run at a time: what each call makes of one run's record, field by
    field, without leases, timers, contexts or the order in which the manager touches them. */
module RunFates {
  import opened Collections
  import opened RunTypes
  import opened Owner
  import opened ManagerSpec
  import opened ManagerInvariant
  import opened ManagerTheorems
  import Q = QueueSpec
  import L = LeaseSpec
  import T = TimeoutSpec
  import C = CancellationSpec

  /** What a caller who asks for `asked` gets. */
  predicate Grants(cfg: Config, asked: Option<int>, given: int) {
    && (asked.Some? && asked.value <= cfg.maxTimeoutMs ==> given == asked.value)
    && (asked.None? && cfg.defaultTimeoutMs <= cfg.maxTimeoutMs ==> given == cfg.defaultTimeoutMs)
    && (asked.Some? && asked.value > cfg.maxTimeoutMs ==> given == cfg.maxTimeoutMs)
    && (asked.None? && cfg.defaultTimeoutMs > cfg.maxTimeoutMs ==> given == cfg.maxTimeoutMs)
  }

  /** An error text that is empty is not stored. */
  function Kept(text: string): Option<string> {
    if text == "" then None else Some(text)
  }

  predicate Waiting(run: ManagerSpec.Run, owner: OwnerPrincipal, now: Time, position: nat) {
    && run.owner == owner && OwnerKeyFromPrincipal(owner) == Some(run.userId)
    && run.state == QUEUED && run.queuePosition == Some(position)
    && run.createdAt == now && run.leaseToken == None && run.leaseExpiresAt == None
    && run.startedAt == None && run.completedAt == None && run.error == None && run.finalMessages == None
  }

  /** The record of a run that nobody had created. */
  ghost predicate Arrives(w: World, cfg: Config, c: Call, run: ManagerSpec.Run) {
    && c.Create? && run.id == c.id && Waiting(run, c.owner, w.now, |Q.Lane(w.m.queue, run.userId)|)
    && Grants(cfg, c.maxDurationMs, run.maxDurationMs)
  }

  ghost predicate IsNext(w: World, u: OwnerKey, r: RunId) {
    |Q.Lane(w.m.queue, u)| > 0 && Q.Lane(w.m.queue, u)[0] == r && !SomeUnexpired(w.m.runs, w.now, u)
  }

  /** The record of a run that ends now. */
  function Closing(run: ManagerSpec.Run, now: Time, to: RunState, error: Option<string>,
                   messages: Option<seq<string>>): ManagerSpec.Run {
    run.(state := to, completedAt := Some(now), queuePosition := None, error := error, finalMessages := messages)
  }

  /** What a call makes of the record of run r. */
  ghost function Fate(w: World, cfg: Config, c: Call, r: RunId): ManagerSpec.Run
    requires r in w.m.runs
  {
    var run := w.m.runs[r];
    match c
    case Acquire(u, token) =>
      if !IsNext(w, u, r) then run
      else run.(state := LEASED, queuePosition := None, leaseToken := Some(token),
                startedAt := Some(w.now), leaseExpiresAt := Some(w.now + cfg.leaseTtlMs))
    case Start(id) => if id == r && run.state == LEASED then run.(state := RUNNING) else run
    case Complete(id, messages) =>
      if id == r && run.state == RUNNING then Closing(run, w.now, COMPLETED, None, messages) else run
    case Fail(id, error) =>
      if id == r && run.state in {LEASED, RUNNING} then Closing(run, w.now, FAILED, Kept(error), None) else run
    case Cancel(id, reason) =>
      if id == r && run.state in {QUEUED, LEASED, RUNNING}
      then Closing(run, w.now, CANCELLED, if reason.Some? then Kept(reason.value) else Some("cancelled"), None)
      else run
    case Fire(id) =>
      if id == r then Closing(run, w.now, TIMED_OUT, Some("Run exceeded maximum duration"), None) else run
    case _ => run
  }

  /** Every call a caller may make, and completing a LEASED run as well, does to every run's record just that:
      nothing goes, new runs come by Create alone, and what was there meets its fate. */
  lemma CallMakes(w: World, cfg: Config, c: Call, r: RunId)
    requires Inv(w.m, cfg, w.now) && (Allowed(w, c) || c.Complete?)
    ensures var runs' := Step(w, cfg, c).m.runs;
            && (r in w.m.runs ==> r in runs' && runs'[r] == Fate(w, cfg, c, r))
            && (r !in w.m.runs && r in runs' ==> c.Create? && c.id == r && Arrives(w, cfg, c, runs'[r]))
            && (c.Create? ==> (c.id in runs' <==> OwnerKeyFromPrincipal(c.owner).Some?))
  {
    hide Inv, Q.Enqueue, OwnerKeyFromPrincipal, CreateRun, AcquireNextRun, StartRun, CancelRun, FireTimeout, Finish;
    match c
    case Create(id, owner, max) => CreateMakes(w.m, cfg, w.now, id, owner, max);
    case Acquire(u, token) => AcquireMakes(w.m, cfg, w.now, u, token, r);
    case Start(id) =>
      if id in w.m.runs { StartMakes(w.m, cfg, w.now, id); } else { UnknownRuns(w.m, w.now, id); }
    case Cancel(id, reason) =>
      if id in w.m.runs { CancelMakes(w.m, cfg, w.now, id, reason); } else { UnknownRuns(w.m, w.now, id); }
    case Fire(id) => FireMakes(w.m, cfg, w.now, id);
    case Complete(id, messages) =>
      if id in w.m.runs {
        FinishMakes(w.m, cfg, w.now, id, COMPLETED, None, messages);
      } else {
        UnknownRuns(w.m, w.now, id);
      }
    case Fail(id, error) =>
      if id in w.m.runs {
        FinishMakes(w.m, cfg, w.now, id, FAILED, Some(error), None);
      } else {
        UnknownRuns(w.m, w.now, id);
      }
    case _ =>
  }

  /** Calls about a run that does not exist fail and change nothing. */
  lemma UnknownRuns(m: Manager, now: Time, id: RunId)
    requires id !in m.runs
    ensures StartRun(m, now, id) == Outcome(m, Failure(RunNotFound(id)), None)
    ensures forall reason :: CancelRun(m, now, id, reason) == Outcome(m, Failure(RunNotFound(id)), None)
    ensures forall to, error, messages ::
              Finish(m, now, id, to, error, messages) == Outcome(m, Failure(RunNotFound(id)), None)
  {
    hide AbortInto;
  }

  lemma CreateMakes(m: Manager, cfg: Config, now: Time, id: RunId, owner: OwnerPrincipal, max: Option<int>)
    requires id !in m.runs
    ensures var m' := CreateRun(m, cfg, now, id, owner, max).m;
            if OwnerKeyFromPrincipal(owner).None? then m' == m
            else && id in m'.runs && m'.runs == m.runs[id := m'.runs[id]]
                 && Arrives(World(m, now), cfg, Create(id, owner, max), m'.runs[id])
  {
    hide OwnerKeyFromPrincipal, Q.Enqueue;
  }

  lemma AcquireMakes(m: Manager, cfg: Config, now: Time, u: OwnerKey, token: Token, r: RunId)
    requires Inv(m, cfg, now)
    ensures var m' := AcquireNextRun(m, cfg, now, u, token).m;
            m'.runs.Keys == m.runs.Keys
            && (r in m.runs ==> m'.runs[r] == Fate(World(m, now), cfg, Acquire(u, token), r))
  {
    hide QueueOk, LeasesOk, HoldersOk, TimersOk, ContextsOk, RunsOk, Q.Dequeue, L.Acquire;
    HeldIff(m.runs, m.leases, now, u);
    if Q.Peek(m.queue, u).Some? { HeadIsQueued(m.runs, m.queue, u); }
  }

  lemma RecordPart(m: Manager, cfg: Config, now: Time, id: RunId)
    requires Inv(m, cfg, now)
    ensures id in m.runs ==> RunOk(id, m.runs[id], cfg, now)
  {
    hide QueueOk, LeasesOk, HoldersOk, TimersOk, ContextsOk;
  }

  /** A record that has not ended has no error, no messages and no completion time yet, and only a QUEUED
      one has a position. */
  lemma TransitionWrites(run: ManagerSpec.Run, now: Time, to: RunState, error: Option<string>,
                         messages: Option<seq<string>>)
    requires RunIsOpen(run) && (IsTerminalState(to) || run.state == LEASED)
    ensures to == RUNNING && error.None? && messages.None? ==>
              Transitioned(run, now, to, error, messages) == run.(state := RUNNING)
    ensures IsTerminalState(to) ==>
              Transitioned(run, now, to, error, messages)
              == run.(state := to, completedAt := Some(now), queuePosition := None,
                      error := if error.Some? then Kept(error.value) else None, finalMessages := messages)
  {
  }

  predicate RunIsOpen(run: ManagerSpec.Run) {
    && !IsTerminalState(run.state) && run.error == None && run.finalMessages == None
    && (run.state == LEASED ==> run.startedAt.Some?)
    && (run.queuePosition.Some? <==> run.state == QUEUED)
  }

  lemma Opens(r: RunId, run: ManagerSpec.Run, cfg: Config, now: Time)
    requires RunOk(r, run, cfg, now) && !IsTerminalState(run.state)
    ensures RunIsOpen(run)
  {
    hide OwnerKeyFromPrincipal;
  }

  /** Starting takes a LEASED run to RUNNING, and refuses any other. */
  lemma StartMakes(m: Manager, cfg: Config, now: Time, id: RunId)
    requires Inv(m, cfg, now) && id in m.runs
    ensures var o := StartRun(m, now, id); var run := m.runs[id];
            if run.state == LEASED
            then o.m.runs == m.runs[id := run.(state := RUNNING)] && o.result == Success(run.(state := RUNNING))
            else o.m.runs == m.runs && o.result == Failure(InvalidStateTransition(id, run.state, RUNNING))
  {
    hide Inv, RunOk, Transitioned;
    RecordPart(m, cfg, now, id);
    if m.runs[id].state == LEASED {
      Opens(id, m.runs[id], cfg, now);
      TransitionWrites(m.runs[id], now, RUNNING, None, None);
    }
  }

  lemma TransitionMakes(m: Manager, now: Time, id: RunId, to: RunState, error: Option<string>,
                        messages: Option<seq<string>>)
    requires id in m.runs && IsTerminalState(to)
    ensures var o := TransitionState(m, now, id, to, error, messages);
            if IsValidStateTransition(m.runs[id].state, to)
            then var run := Transitioned(m.runs[id], now, to, error, messages);
                 o.m.runs == m.runs[id := run] && o.result == Success(run)
            else o.m.runs == m.runs && o.result == Failure(InvalidStateTransition(id, m.runs[id].state, to))
  {
    hide Transitioned;
  }

  /** Completing takes a RUNNING run, failing a LEASED or RUNNING one; any other is refused. */
  lemma FinishMakes(m: Manager, cfg: Config, now: Time, id: RunId, to: RunState, error: Option<string>,
                    messages: Option<seq<string>>)
    requires Inv(m, cfg, now) && id in m.runs && to in {COMPLETED, FAILED}
    ensures var o := Finish(m, now, id, to, error, messages); var run := m.runs[id];
            if run.state == RUNNING || (to == FAILED && run.state == LEASED)
            then var run' := Closing(run, now, to, if error.Some? then Kept(error.value) else None, messages);
                 o.m.runs == m.runs[id := run'] && o.result == Success(run')
            else o.m.runs == m.runs && o.result == Failure(InvalidStateTransition(id, run.state, to))
  {
    hide Inv, RunOk, TransitionState, Transitioned, L.Release, C.Remove;
    RecordPart(m, cfg, now, id);
    var m1 := ReleaseLeaseOf(m, m.runs[id]);
    TransitionMakes(m1.(contexts := C.Remove(m1.contexts, id)), now, id, to, error, messages);
    if !IsTerminalState(m.runs[id].state) {
      Opens(id, m.runs[id], cfg, now);
      TransitionWrites(m.runs[id], now, to, error, messages);
    }
  }

  lemma AbortMakes(m: Manager, now: Time, id: RunId, reason: string, to: RunState, error: string)
    requires id in m.runs && RunIsOpen(m.runs[id])
    requires IsTerminalState(to) && IsValidStateTransition(m.runs[id].state, to)
    ensures var o := AbortInto(m, now, id, reason, to, Some(error));
            var run' := Closing(m.runs[id], now, to, Kept(error), None);
            o.m.runs == m.runs[id := run'] && o.result == Success(run')
  {
    hide TransitionState, Transitioned, L.Release, C.Cancel, C.AbortEvent;
    var m1 := ReleaseLeaseOf(m, m.runs[id]);
    TransitionMakes(m1.(contexts := C.Cancel(m1.contexts, id, Some(reason))), now, id, to, Some(error), None);
    TransitionWrites(m.runs[id], now, to, Some(error), None);
  }

  /** Cancelling ends any run that has not ended, with the caller's reason as its error, and answers with the
      record; a run that has ended is returned as it is. */
  lemma CancelMakes(m: Manager, cfg: Config, now: Time, id: RunId, reason: Option<string>)
    requires Inv(m, cfg, now) && id in m.runs
    ensures var o := CancelRun(m, now, id, reason); var run := m.runs[id];
            if run.state in {QUEUED, LEASED, RUNNING}
            then var error := if reason.Some? then Kept(reason.value) else Some("cancelled");
                 var run' := Closing(run, now, CANCELLED, error, None);
                 o.m.runs == m.runs[id := run'] && o.result == Success(run')
            else o.m.runs == m.runs && o.result == Success(run)
  {
    hide Inv, RunOk, AbortInto, Q.Remove;
    RecordPart(m, cfg, now, id);
    if !IsTerminalState(m.runs[id].state) {
      Opens(id, m.runs[id], cfg, now);
      var m1 := if m.runs[id].state == QUEUED then m.(queue := Q.Remove(m.queue, id)) else m;
      AbortMakes(m1, now, id, if reason.Some? then reason.value else "user_cancelled", CANCELLED,
                 if reason.Some? then reason.value else "cancelled");
    }
  }

  /** A timer that calls back when due ends its run. */
  lemma FireMakes(m: Manager, cfg: Config, now: Time, id: RunId)
    requires Inv(m, cfg, now) && T.Due(m.timers, now, id)
    ensures InState(m.runs, id, RUNNING)
    ensures var o := FireTimeout(m, now, id);
            var run' := Closing(m.runs[id], now, TIMED_OUT, Some("Run exceeded maximum duration"), None);
            o.m.runs == m.runs[id := run'] && o.result == Success(run')
  {
    hide Inv, RunOk, AbortInto, T.Due;
    RecordPart(m, cfg, now, id);
    FireKeeps(m, cfg, now, id);
    Opens(id, m.runs[id], cfg, now);
    AbortMakes(m.(timers := T.Clear(m.timers, id)), now, id, "timeout", TIMED_OUT, TIMEOUT_ERROR);
  }

  /** Cancelling reaches the abort context of a RUNNING run and nobody else's, with the caller's reason. */
  lemma CancelSignals(m: Manager, cfg: Config, now: Time, id: RunId, reason: Option<string>)
    requires Inv(m, cfg, now) && id in m.runs && !IsTerminalState(m.runs[id].state)
    ensures CancelRun(m, now, id, reason).m.contexts
         == if m.runs[id].state != RUNNING then m.contexts
            else m.contexts[id := C.Context(true, Some(if reason.Some? then reason.value else "user_cancelled"))]
  {
    hide Inv, Q.Remove, L.Release, T.Clear, Transitioned, IsTerminalState;
    ContextPart(m, cfg, now, id);
  }

  lemma ContextPart(m: Manager, cfg: Config, now: Time, id: RunId)
    requires Inv(m, cfg, now) && id in m.runs && !IsTerminalState(m.runs[id].state)
    ensures id in m.contexts <==> m.runs[id].state == RUNNING
    ensures id in m.contexts ==> !m.contexts[id].isCancelled
  {
    hide RunsOk, QueueOk, LeasesOk, HoldersOk, TimersOk;
    if id in m.contexts { assert ContextFits(m.runs[id], m.contexts[id]); }
    assert InState(m.runs, id, RUNNING) ==> id in m.contexts;
  }
}
