/** Every RunManager call keeps the invariant, so it holds after any history of calls; and what
    follows: mutual exclusion under leases, legal state changes, fencing of stale tokens. */
module ManagerTheorems {
  import opened Collections
  import opened RunTypes
  import opened Owner
  import opened ManagerSpec
  import opened ManagerInvariant
  import Q = QueueSpec
  import L = LeaseSpec
  import T = TimeoutSpec
  import C = CancellationSpec

  datatype Call =
    | Create(id: RunId, owner: OwnerPrincipal, maxDurationMs: Option<int>)
    | Acquire(u: OwnerKey, token: Token)
    | Start(id: RunId)
    | Cancel(id: RunId, reason: Option<string>)
    | Fire(id: RunId)
    | Complete(id: RunId, messages: Option<seq<string>>)
    | Fail(id: RunId, error: string)
    | Sweep
    | Probe(u: OwnerKey)
    | Wait(ms: nat)

  /** The manager and its clock. */
  datatype World = World(m: Manager, now: Time)

  function Step(w: World, cfg: Config, c: Call): World {
    match c
    case Create(id, owner, max) => w.(m := CreateRun(w.m, cfg, w.now, id, owner, max).m)
    case Acquire(u, token) => w.(m := AcquireNextRun(w.m, cfg, w.now, u, token).m)
    case Start(id) => w.(m := StartRun(w.m, w.now, id).m)
    case Cancel(id, reason) => w.(m := CancelRun(w.m, w.now, id, reason).m)
    case Fire(id) => w.(m := FireTimeout(w.m, w.now, id).m)
    case Complete(id, messages) => w.(m := CompleteRun(w.m, w.now, id, messages).m)
    case Fail(id, error) => w.(m := FailRun(w.m, w.now, id, error).m)
    case Sweep => w.(m := w.m.(leases := L.Cleanup(w.m.leases, w.now)))
    case Probe(u) => w.(m := w.m.(leases := L.Probe(w.m.leases, w.now, u)))
    case Wait(ms) => w.(now := w.now + ms)
  }

  /** What the environment guarantees: generated ids and tokens are new, owner keys are not empty,
      timers call back when due. And what the caller must not do: complete a run it never started. */
  ghost predicate Allowed(w: World, c: Call) {
    match c
    case Create(id, owner, _) => id !in w.m.runs && OwnerKeyFromPrincipal(owner) != Some([])
    case Acquire(_, token) => TokenFresh(w.m.runs, token)
    case Fire(id) => T.Due(w.m.timers, w.now, id)
    case Complete(id, _) => !InState(w.m.runs, id, LEASED)
    case _ => true
  }

  lemma CreateKeeps(m: Manager, cfg: Config, now: Time, id: RunId, owner: OwnerPrincipal, max: Option<int>)
    requires Inv(m, cfg, now) && id !in m.runs && OwnerKeyFromPrincipal(owner) != Some([])
    ensures Inv(CreateRun(m, cfg, now, id, owner, max).m, cfg, now)
  {
    hide QueueOk, LeasesOk, HoldersOk, TimersOk, ContextsOk;
    var key := OwnerKeyFromPrincipal(owner);
    if key.Some? {
      var run := NewRun(cfg, now, id, owner, key.value, max, |Q.Lane(m.queue, key.value)|);
      QueueGains(m.runs, m.queue, id, run);
      LeasesUntouched(m.runs, m.leases, now, id, run);
      TimersUntouched(m.runs, m.timers, id, run);
      NoContextYet(m.runs, m.contexts, id);
      ContextsUntouched(m.runs, m.contexts, id, run);
    }
  }

  lemma AcquireKeeps(m: Manager, cfg: Config, now: Time, u: OwnerKey, token: Token)
    requires Inv(m, cfg, now) && TokenFresh(m.runs, token)
    ensures Inv(AcquireNextRun(m, cfg, now, u, token).m, cfg, now)
    ensures AcquireNextRun(m, cfg, now, u, token).result.Success?
  {
    hide QueueOk, LeasesOk, HoldersOk, TimersOk, ContextsOk, Q.Dequeue, L.Acquire;
    var head := Q.Peek(m.queue, u);
    if head.Some? && !L.Held(m.leases, now, u) {
      var id := head.value;
      HeadIsQueued(m.runs, m.queue, u);
      var run := Leased(m.runs[id], now, token, cfg.leaseTtlMs);
      QueueServes(m.runs, m.queue, u, run);
      RunIsLeased(m.runs, cfg, now, id, token);
      LeaseGranted(m.runs, m.leases, now, id, run, token, cfg.leaseTtlMs);
      TimersUntouched(m.runs, m.timers, id, run);
      NoContextYet(m.runs, m.contexts, id);
      ContextsUntouched(m.runs, m.contexts, id, run);
    }
  }

  lemma RunIsLeased(runs: Runs, cfg: Config, now: Time, id: RunId, token: Token)
    requires RunsOk(runs, cfg, now) && InState(runs, id, QUEUED)
    ensures RunsOk(runs[id := Leased(runs[id], now, token, cfg.leaseTtlMs)], cfg, now)
  {
    assert RunOk(id, runs[id], cfg, now);
    assert RunOk(id, Leased(runs[id], now, token, cfg.leaseTtlMs), cfg, now);
  }

  lemma StartKeeps(m: Manager, cfg: Config, now: Time, id: RunId)
    requires Inv(m, cfg, now)
    ensures Inv(StartRun(m, now, id).m, cfg, now)
    ensures StartRun(m, now, id).result.Success? <==> InState(m.runs, id, LEASED)
  {
    hide QueueOk, LeasesOk, HoldersOk, TimersOk, ContextsOk;
    if InState(m.runs, id, LEASED) {
      assert RunOk(id, m.runs[id], cfg, now);
      var run := Transitioned(m.runs[id], now, RUNNING, None, None);
      QueueUntouched(m.runs, m.queue, id, run);
      LeasesUntouched(m.runs, m.leases, now, id, run);
      TimerSet(m.runs, m.timers, now, id, run);
      ContextOpened(m.runs, m.contexts, id, run);
    }
  }

  /** What an abort that the transition table allows does, part by part. */
  lemma AbortShape(m: Manager, now: Time, id: RunId, reason: string, to: RunState, error: Option<string>)
    requires id in m.runs && IsTerminalState(to) && IsValidStateTransition(m.runs[id].state, to)
    ensures var run := Transitioned(m.runs[id], now, to, error, None);
            var leases := if run.leaseToken.Some? then L.Release(m.leases, run.leaseToken.value) else m.leases;
            var contexts := C.Cancel(m.contexts, id, Some(reason));
            var m' := Manager(m.runs[id := run], m.queue, leases, contexts, T.Clear(m.timers, id));
            AbortInto(m, now, id, reason, to, error)
            == Outcome(m', Success(run), C.AbortEvent(m.contexts, id, Some(reason)))
  {
    hide L.Release, C.Cancel, C.AbortEvent, T.Clear;
  }

  /** Cancelling and timing out: the queue has already let go of the run. */
  lemma AbortKeeps(m: Manager, cfg: Config, now: Time, id: RunId, reason: string, to: RunState,
                   error: Option<string>)
    requires RunsOk(m.runs, cfg, now) && LeasesOk(m.runs, m.leases) && HoldersOk(m.runs, m.leases, now)
    requires ContextsOk(m.runs, m.contexts)
    requires id in m.runs && !IsTerminalState(m.runs[id].state)
    requires to == CANCELLED || (to == TIMED_OUT && m.runs[id].state == RUNNING && reason == "timeout"
               && OverdueBy(Transitioned(m.runs[id], now, to, error, None)))
    requires QueueOk(m.runs[id := Transitioned(m.runs[id], now, to, error, None)], m.queue)
    requires TimersOk(m.runs[id := Transitioned(m.runs[id], now, to, error, None)], T.Clear(m.timers, id))
    ensures AbortInto(m, now, id, reason, to, error).result
         == Success(Transitioned(m.runs[id], now, to, error, None))
    ensures Inv(AbortInto(m, now, id, reason, to, error).m, cfg, now)
    ensures AbortInto(m, now, id, reason, to, error).aborted
         == if m.runs[id].state == RUNNING then Some(reason) else None
  {
    hide QueueOk, LeasesOk, HoldersOk, TimersOk, ContextsOk, AbortInto, L.Release, C.Cancel, T.Clear;
    var run := Transitioned(m.runs[id], now, to, error, None);
    AbortShape(m, now, id, reason, to, error);
    RunEnds(m.runs, cfg, now, id, to, error, None);
    LeaseReturned(m.runs, m.leases, now, id, run);
    ContextCancelled(m.runs, m.contexts, id, run, reason);
  }

  /** A run that ends as the table allows leaves every record in order. */
  lemma RunEnds(runs: Runs, cfg: Config, now: Time, id: RunId, to: RunState, error: Option<string>,
                messages: Option<seq<string>>)
    requires RunsOk(runs, cfg, now) && id in runs && !IsTerminalState(runs[id].state) && IsTerminalState(to)
    requires to == TIMED_OUT ==> OverdueBy(Transitioned(runs[id], now, to, error, messages))
    ensures RunsOk(runs[id := Transitioned(runs[id], now, to, error, messages)], cfg, now)
    ensures runs[id].userId != [] && (IsActiveState(runs[id].state) ==> runs[id].leaseToken.Some?)
  {
    assert RunOk(id, runs[id], cfg, now);
    assert RunOk(id, Transitioned(runs[id], now, to, error, messages), cfg, now);
  }

  lemma CancelKeeps(m: Manager, cfg: Config, now: Time, id: RunId, reason: Option<string>)
    requires Inv(m, cfg, now)
    ensures Inv(CancelRun(m, now, id, reason).m, cfg, now)
    ensures id in m.runs && !IsTerminalState(m.runs[id].state) ==>
              CancelRun(m, now, id, reason).result.Success?
              && CancelRun(m, now, id, reason).result.value.state == CANCELLED
    ensures CancelRun(m, now, id, reason).aborted
         == if InState(m.runs, id, RUNNING)
            then Some(if reason.Some? then reason.value else "user_cancelled") else None
  {
    hide QueueOk, LeasesOk, HoldersOk, TimersOk, ContextsOk;
    if id in m.runs && !IsTerminalState(m.runs[id].state) {
      var queued := m.runs[id].state == QUEUED;
      var m1 := if queued then m.(queue := Q.Remove(m.queue, id)) else m;
      var error := Some(if reason.Some? then reason.value else "cancelled");
      var run := Transitioned(m.runs[id], now, CANCELLED, error, None);
      if queued { QueueLoses(m.runs, m.queue, id, run); } else { QueueUntouched(m.runs, m.queue, id, run); }
      TimerGone(m.runs, m.timers, id, run);
      AbortKeeps(m1, cfg, now, id, if reason.Some? then reason.value else "user_cancelled", CANCELLED, error);
    }
  }

  lemma FireKeeps(m: Manager, cfg: Config, now: Time, id: RunId)
    requires Inv(m, cfg, now) && T.Due(m.timers, now, id)
    ensures Inv(FireTimeout(m, now, id).m, cfg, now)
    ensures InState(m.runs, id, RUNNING)
    ensures FireTimeout(m, now, id).aborted == Some("timeout")
    ensures InState(FireTimeout(m, now, id).m.runs, id, TIMED_OUT)
  {
    hide QueueOk, LeasesOk, HoldersOk, ContextsOk;
    assert id in m.timers <==> InState(m.runs, id, RUNNING);
    assert TimerFits(m.runs[id], m.timers[id]);
    var m1 := m.(timers := T.Clear(m.timers, id));
    assert T.Clear(m1.timers, id) == m1.timers;
    var run := Transitioned(m.runs[id], now, TIMED_OUT, Some(TIMEOUT_ERROR), None);
    QueueUntouched(m.runs, m.queue, id, run);
    TimerGone(m.runs, m.timers, id, run);
    AbortKeeps(m1, cfg, now, id, "timeout", TIMED_OUT, Some(TIMEOUT_ERROR));
  }

  /** Finishing a run that may finish. */
  lemma FinishKeeps(m: Manager, cfg: Config, now: Time, id: RunId, to: RunState, error: Option<string>,
                    messages: Option<seq<string>>)
    requires Inv(m, cfg, now) && id in m.runs && to in {COMPLETED, FAILED}
    requires IsValidStateTransition(m.runs[id].state, to)
    ensures Inv(Finish(m, now, id, to, error, messages).m, cfg, now)
    ensures Finish(m, now, id, to, error, messages).result
         == Success(Transitioned(m.runs[id], now, to, error, messages))
  {
    hide QueueOk, LeasesOk, HoldersOk, TimersOk, ContextsOk, L.Release, C.Remove, T.Clear;
    RunEnds(m.runs, cfg, now, id, to, error, messages);
    var run := Transitioned(m.runs[id], now, to, error, messages);
    QueueUntouched(m.runs, m.queue, id, run);
    LeaseReturned(m.runs, m.leases, now, id, run);
    TimerGone(m.runs, m.timers, id, run);
    ContextDropped(m.runs, m.contexts, id, run);
  }

  /** Finishing a run that may not finish throws. What the call did before throwing is harmless
      exactly when the run is not a LEASED one whose lease still runs. */
  lemma RefusedFinish(m: Manager, cfg: Config, now: Time, id: RunId, to: RunState, error: Option<string>,
                      messages: Option<seq<string>>)
    requires Inv(m, cfg, now) && id in m.runs && to in {COMPLETED, FAILED}
    requires !IsValidStateTransition(m.runs[id].state, to)
    ensures Finish(m, now, id, to, error, messages).result.Failure?
    ensures Inv(Finish(m, now, id, to, error, messages).m, cfg, now)
       <==> !(m.runs[id].state == LEASED && Unexpired(m.runs[id], now))
  {
    hide QueueOk, TimersOk, LeasesOk, HoldersOk, ContextsOk;
    var run := m.runs[id];
    assert RunOk(id, run, cfg, now);
    var m' := Finish(m, now, id, to, error, messages).m;
    assert m.runs[id := run] == m.runs;
    assert InState(m.runs, id, RUNNING) ==> false;
    ContextDropped(m.runs, m.contexts, id, run);
    if run.state == LEASED {
      ReleaseFrees(m.runs, m.leases, now, id);
    } else {
      LeaseReturned(m.runs, m.leases, now, id, run);
    }
  }

  /** Giving up the lease of a run that stays active leaves every other lease in order; it costs
      that run its holder exactly if the lease had time left. */
  lemma ReleaseFrees(runs: Runs, l: L.LeaseState, now: Time, id: RunId)
    requires LeasesOk(runs, l) && HoldersOk(runs, l, now)
    requires id in runs && runs[id].leaseToken.Some? && runs[id].userId != [] && IsActiveState(runs[id].state)
    ensures LeasesOk(runs, L.Release(l, runs[id].leaseToken.value))
    ensures HoldersOk(runs, L.Release(l, runs[id].leaseToken.value), now) <==> !Unexpired(runs[id], now)
    ensures Unexpired(runs[id], now) ==> runs[id].userId !in L.Release(l, runs[id].leaseToken.value).leases
  {
    var l' := L.Release(l, runs[id].leaseToken.value);
    L.ApplyWF(l, L.At(now, L.ReleaseOp(runs[id].leaseToken.value)));
    forall v | v in l.leases ensures v in l'.leases <==> l.leases[v].runId != id {
      assert Backs(runs[l.leases[v].runId], v, l.leases[v]);
    }
    forall r | r in runs && r != id && Unexpired(runs[r], now) ensures Holds(l', r, runs[r]) {
      assert Holds(l, r, runs[r]);
    }
    assert !Holds(l', id, runs[id]);
    if Unexpired(runs[id], now) { assert Holds(l, id, runs[id]); }
  }

  lemma StepKeeps(w: World, cfg: Config, c: Call)
    requires Inv(w.m, cfg, w.now) && Allowed(w, c)
    ensures Inv(Step(w, cfg, c).m, cfg, Step(w, cfg, c).now)
  {
    hide Inv, TokenFresh;
    match c
    case Create(id, owner, max) => CreateKeeps(w.m, cfg, w.now, id, owner, max);
    case Acquire(u, token) => AcquireKeeps(w.m, cfg, w.now, u, token);
    case Start(id) => StartKeeps(w.m, cfg, w.now, id);
    case Cancel(id, reason) => CancelKeeps(w.m, cfg, w.now, id, reason);
    case Fire(id) => FireKeeps(w.m, cfg, w.now, id);
    case Complete(id, messages) => FinishAnyKeeps(w.m, cfg, w.now, id, COMPLETED, None, messages);
    case Fail(id, error) => FinishAnyKeeps(w.m, cfg, w.now, id, FAILED, Some(error), None);
    case Sweep => SweepKeeps(w.m, cfg, w.now, L.CleanupOp);
    case Probe(u) => SweepKeeps(w.m, cfg, w.now, L.ProbeOp(u));
    case Wait(ms) => ClockAdvances(w.m, cfg, w.now, w.now + ms);
  }

  lemma SweepKeeps(m: Manager, cfg: Config, now: Time, op: L.LeaseOp)
    requires Inv(m, cfg, now) && (op.CleanupOp? || op.ProbeOp?)
    ensures Inv(m.(leases := L.Apply(m.leases, L.At(now, op))), cfg, now)
  {
    LeasesSwept(m.runs, m.leases, now, op);
  }

  lemma FinishAnyKeeps(m: Manager, cfg: Config, now: Time, id: RunId, to: RunState, error: Option<string>,
                       messages: Option<seq<string>>)
    requires Inv(m, cfg, now) && to in {COMPLETED, FAILED}
    requires to == COMPLETED ==> !InState(m.runs, id, LEASED)
    ensures Inv(Finish(m, now, id, to, error, messages).m, cfg, now)
  {
    if id in m.runs {
      if IsValidStateTransition(m.runs[id].state, to) {
        FinishKeeps(m, cfg, now, id, to, error, messages);
      } else {
        RefusedFinish(m, cfg, now, id, to, error, messages);
      }
    }
  }

  ghost predicate AllAllowed(w: World, cfg: Config, calls: seq<Call>)
    decreases |calls|
  {
    calls == [] || (Allowed(w, calls[0]) && AllAllowed(Step(w, cfg, calls[0]), cfg, calls[1..]))
  }

  function Run(w: World, cfg: Config, calls: seq<Call>): World
    decreases |calls|
  {
    if calls == [] then w else Run(Step(w, cfg, calls[0]), cfg, calls[1..])
  }

  lemma {:induction false} HistoryKeeps(w: World, cfg: Config, calls: seq<Call>)
    requires Inv(w.m, cfg, w.now) && AllAllowed(w, cfg, calls)
    ensures Inv(Run(w, cfg, calls).m, cfg, Run(w, cfg, calls).now)
    decreases |calls|
  {
    if calls != [] {
      StepKeeps(w, cfg, calls[0]);
      HistoryKeeps(Step(w, cfg, calls[0]), cfg, calls[1..]);
    }
  }

  /** Mutual exclusion under the lease, for any caller: no owner ever has two active runs whose
      leases are both still running. */
  lemma OneUnexpiredActiveRun(cfg: Config, start: Time, calls: seq<Call>, r: RunId, x: RunId)
    requires AllAllowed(World(EMPTY, start), cfg, calls)
    requires var w := Run(World(EMPTY, start), cfg, calls);
             && r in w.m.runs && x in w.m.runs && w.m.runs[r].userId == w.m.runs[x].userId
             && Unexpired(w.m.runs[r], w.now) && Unexpired(w.m.runs[x], w.now)
    ensures r == x
  {
    InitInv(cfg, start);
    HistoryKeeps(World(EMPTY, start), cfg, calls);
    var w := Run(World(EMPTY, start), cfg, calls);
    assert Holds(w.m.leases, r, w.m.runs[r]);
    assert Holds(w.m.leases, x, w.m.runs[x]);
  }

  /** Where a record may go in one step: along one edge of the transition table or nowhere,
      keeping its identity; a terminal record is frozen. */
  predicate MayBecome(run: ManagerSpec.Run, run': ManagerSpec.Run) {
    && (run'.state == run.state || IsValidStateTransition(run.state, run'.state))
    && (IsTerminalState(run.state) ==> run' == run)
    && run'.id == run.id && run'.owner == run.owner && run'.userId == run.userId
    && run'.createdAt == run.createdAt && run'.maxDurationMs == run.maxDurationMs
  }

  ghost predicate Advances(runs: Runs, runs': Runs) {
    forall r :: r in runs ==> r in runs' && MayBecome(runs[r], runs'[r])
  }

  /** Although acquireNextRun writes LEASED without consulting the table, every call moves every
      run along the table, even calls a caller should not make. */
  lemma LegalStep(w: World, cfg: Config, c: Call)
    requires Inv(w.m, cfg, w.now)
    requires c.Create? ==> c.id !in w.m.runs
    ensures Advances(w.m.runs, Step(w, cfg, c).m.runs)
  {
    hide QueueOk, LeasesOk, HoldersOk, TimersOk, ContextsOk, RunsOk, CancelRun, FireTimeout, Finish;
    match c
    case Acquire(u, token) =>
      if Q.Peek(w.m.queue, u).Some? { HeadIsQueued(w.m.runs, w.m.queue, u); }
    case Cancel(id, reason) => CancelAdvances(w.m, w.now, id, reason);
    case Fire(id) => FireAdvances(w.m, w.now, id);
    case Complete(id, messages) => FinishAdvances(w.m, w.now, id, COMPLETED, None, messages);
    case Fail(id, error) => FinishAdvances(w.m, w.now, id, FAILED, Some(error), None);
    case _ =>
  }

  lemma TransitionAdvances(m: Manager, now: Time, id: RunId, to: RunState, error: Option<string>,
                           messages: Option<seq<string>>)
    ensures Advances(m.runs, TransitionState(m, now, id, to, error, messages).m.runs)
  {
  }

  lemma AbortAdvances(m: Manager, now: Time, id: RunId, reason: string, to: RunState, error: Option<string>)
    requires id in m.runs
    ensures Advances(m.runs, AbortInto(m, now, id, reason, to, error).m.runs)
  {
    hide TransitionState, Advances;
    var m1 := ReleaseLeaseOf(m, m.runs[id]);
    TransitionAdvances(m1.(contexts := C.Cancel(m1.contexts, id, Some(reason))), now, id, to, error, None);
  }

  lemma CancelAdvances(m: Manager, now: Time, id: RunId, reason: Option<string>)
    ensures Advances(m.runs, CancelRun(m, now, id, reason).m.runs)
  {
    hide AbortInto;
    if id in m.runs && !IsTerminalState(m.runs[id].state) {
      var m1 := if m.runs[id].state == QUEUED then m.(queue := Q.Remove(m.queue, id)) else m;
      AbortAdvances(m1, now, id, if reason.Some? then reason.value else "user_cancelled", CANCELLED,
                    Some(if reason.Some? then reason.value else "cancelled"));
    }
  }

  lemma FireAdvances(m: Manager, now: Time, id: RunId)
    ensures Advances(m.runs, FireTimeout(m, now, id).m.runs)
  {
    hide AbortInto;
    if id in m.runs && !IsTerminalState(m.runs[id].state) {
      AbortAdvances(m.(timers := T.Clear(m.timers, id)), now, id, "timeout", TIMED_OUT, Some(TIMEOUT_ERROR));
    }
  }

  lemma FinishAdvances(m: Manager, now: Time, id: RunId, to: RunState, error: Option<string>,
                       messages: Option<seq<string>>)
    ensures Advances(m.runs, Finish(m, now, id, to, error, messages).m.runs)
  {
    hide TransitionState;
    if id in m.runs {
      var m1 := ReleaseLeaseOf(m, m.runs[id]);
      TransitionAdvances(m1.(contexts := C.Remove(m1.contexts, id)), now, id, to, error, messages);
    }
  }

  /** Terminal states are never left, and the record stays as it was, through any later history. */
  lemma {:induction false} TerminalForever(w: World, cfg: Config, calls: seq<Call>, r: RunId)
    requires Inv(w.m, cfg, w.now) && AllAllowed(w, cfg, calls)
    requires r in w.m.runs && IsTerminalState(w.m.runs[r].state)
    ensures r in Run(w, cfg, calls).m.runs && Run(w, cfg, calls).m.runs[r] == w.m.runs[r]
    decreases |calls|
  {
    hide Inv;
    if calls != [] {
      StepKeeps(w, cfg, calls[0]);
      LegalStep(w, cfg, calls[0]);
      assert MayBecome(w.m.runs[r], Step(w, cfg, calls[0]).m.runs[r]);
      TerminalForever(Step(w, cfg, calls[0]), cfg, calls[1..], r);
    }
  }

  /** The next acquisition beside an active run of the same owner: it is turned away exactly while some run
      of that owner has time left on its lease; otherwise it goes through and makes a second active run. So
      the lease alone does not give one active run per owner. */
  lemma ExpiredLeaseAdmitsSecond(m: Manager, cfg: Config, now: Time, r: RunId, token: Token)
    requires Inv(m, cfg, now) && TokenFresh(m.runs, token) && Active(m.runs, r)
    requires Q.Peek(m.queue, m.runs[r].userId).Some?
    ensures var u := m.runs[r].userId;
            var x := Q.Peek(m.queue, u).value;
            var got := AcquireNextRun(m, cfg, now, u, token);
            && x != r && InState(m.runs, x, QUEUED) && m.runs[x].userId == u
            && (Active(got.m.runs, x) <==> !SomeUnexpired(m.runs, now, u))
            && (Active(got.m.runs, x) ==>
                  Active(got.m.runs, r) && got.m.runs[r] == m.runs[r] && got.m.runs[x].userId == u)
            && (!Active(got.m.runs, x) ==> got == Acquired(m, Success(None)))
  {
    hide QueueOk, LeasesOk, HoldersOk, TimersOk, ContextsOk, RunsOk;
    HeadIsQueued(m.runs, m.queue, m.runs[r].userId);
    HeldIff(m.runs, m.leases, now, m.runs[r].userId);
  }

  ghost predicate SomeUnexpired(runs: Runs, now: Time, u: OwnerKey) {
    exists r :: r in runs && runs[r].userId == u && Unexpired(runs[r], now)
  }

  /** A lease holds an owner off exactly while one of the owner's runs has time left. */
  lemma HeldIff(runs: Runs, l: L.LeaseState, now: Time, u: OwnerKey)
    requires LeasesOk(runs, l) && HoldersOk(runs, l, now)
    ensures L.Held(l, now, u) <==> SomeUnexpired(runs, now, u)
  {
    if L.Held(l, now, u) {
      var r := l.leases[u].runId;
      assert Backs(runs[r], u, l.leases[u]);
    }
    if SomeUnexpired(runs, now, u) {
      var r :| r in runs && runs[r].userId == u && Unexpired(runs[r], now);
      HolderHolds(runs, l, now, r);
    }
  }

  lemma HolderHolds(runs: Runs, l: L.LeaseState, now: Time, r: RunId)
    requires LeasesOk(runs, l) && HoldersOk(runs, l, now) && r in runs && Unexpired(runs[r], now)
    ensures L.Held(l, now, runs[r].userId)
  {
    assert Holds(l, r, runs[r]);
    assert Backs(runs[r], runs[r].userId, l.leases[runs[r].userId]);
  }

  /** Completing a run that was leased but never started throws, yet it has already given the lease
      away: the next acquisition makes a second active run while the first one's lease has time left. */
  lemma CompletingLeasedAdmitsSecond(m: Manager, cfg: Config, now: Time, r: RunId, token: Token,
                                     messages: Option<seq<string>>)
    requires Inv(m, cfg, now) && TokenFresh(m.runs, token)
    requires InState(m.runs, r, LEASED) && Unexpired(m.runs[r], now)
    requires Q.Peek(m.queue, m.runs[r].userId).Some? && cfg.leaseTtlMs > 0
    ensures var x := Q.Peek(m.queue, m.runs[r].userId).value;
            var c := CompleteRun(m, now, r, messages);
            var m' := AcquireNextRun(c.m, cfg, now, m.runs[r].userId, token).m;
            && c.result.Failure? && x != r && r in m'.runs && x in m'.runs
            && m'.runs[x].userId == m'.runs[r].userId
            && Unexpired(m'.runs[r], now) && Unexpired(m'.runs[x], now)
  {
    hide QueueOk, LeasesOk, HoldersOk, TimersOk, ContextsOk;
    HeadIsQueued(m.runs, m.queue, m.runs[r].userId);
    assert RunOk(r, m.runs[r], cfg, now);
    ReleaseFrees(m.runs, m.leases, now, r);
  }

  /** A terminal run's token is dead: completing or failing it again cannot release or extend
      whatever lease its owner has now. */
  lemma StaleTokenIsFenced(m: Manager, cfg: Config, now: Time, id: RunId)
    requires Inv(m, cfg, now) && id in m.runs && IsTerminalState(m.runs[id].state) && m.runs[id].leaseToken.Some?
    ensures m.runs[id].leaseToken.value !in m.leases.tokenToUser
    ensures forall to, error, messages :: Finish(m, now, id, to, error, messages).m.leases == m.leases
    ensures forall ms :: L.Extend(m.leases, m.runs[id].leaseToken.value, ms) == m.leases
  {
    hide QueueOk, TimersOk, ContextsOk, HoldersOk;
    var token := m.runs[id].leaseToken.value;
    forall t | t in m.leases.tokenToUser ensures t != token {
      var u := m.leases.tokenToUser[t];
      assert Backs(m.runs[m.leases.leases[u].runId], u, m.leases.leases[u]);
    }
  }
}
