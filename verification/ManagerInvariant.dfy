/** What holds after any sequence of RunManager calls, whoever makes them: the invariant, one
    clause per part of the manager's state, and how each clause survives a change of one run. */
module ManagerInvariant {
  import opened Collections
  import opened RunTypes
  import opened Owner
  import opened ManagerSpec
  import Q = QueueSpec
  import L = LeaseSpec
  import T = TimeoutSpec
  import C = CancellationSpec

  type Runs = map<RunId, Run>

  predicate InState(runs: Runs, r: RunId, s: RunState) { r in runs && runs[r].state == s }

  predicate Active(runs: Runs, r: RunId) { r in runs && IsActiveState(runs[r].state) }

  ghost predicate RunOk(r: RunId, run: Run, cfg: Config, now: Time) {
    && run.id == r
    && OwnerKeyFromPrincipal(run.owner) == Some(run.userId)
    && run.userId != []
    && run.maxDurationMs <= cfg.maxTimeoutMs
    && run.createdAt <= now
    && (run.startedAt.Some? ==> run.createdAt <= run.startedAt.value <= now)
    && (run.queuePosition.Some? <==> run.state == QUEUED)
    && (run.completedAt.Some? <==> IsTerminalState(run.state))
    && (run.state == QUEUED ==> run.leaseToken.None? && run.startedAt.None?)
    && (!IsTerminalState(run.state) ==> run.error.None? && run.finalMessages.None?)
    && (IsActiveState(run.state) ==> run.leaseToken.Some? && run.leaseExpiresAt.Some? && run.startedAt.Some?)
    && (run.state == TIMED_OUT ==> OverdueBy(run))
  }

  /** From its leasing to its end a timed-out run lasted at least the delay its timer was set to. */
  predicate OverdueBy(run: Run) {
    && run.startedAt.Some? && run.completedAt.Some?
    && run.completedAt.value >= run.startedAt.value + T.EffectiveDelay(run.maxDurationMs)
  }

  ghost predicate RunsOk(runs: Runs, cfg: Config, now: Time) {
    forall r :: r in runs ==> RunOk(r, runs[r], cfg, now)
  }

  predicate WaitsInPlace(run: Run, q: Q.QueueState, r: RunId)
    requires r in q.runToUser
  {
    && q.runToUser[r] == run.userId
    && Q.Locate(q, r).Some? && run.queuePosition.Some?
    && Q.Locate(q, r).value <= run.queuePosition.value
  }

  /** A run is QUEUED exactly when it waits, once, in its own owner's lane, at or before its stored position. */
  ghost predicate QueueOk(runs: Runs, q: Q.QueueState) {
    Q.WF(q) && Placed(runs, q)
  }

  ghost predicate Placed(runs: Runs, q: Q.QueueState) {
    && (forall r :: r in q.runToUser <==> InState(runs, r, QUEUED))
    && (forall r :: r in q.runToUser ==> WaitsInPlace(runs[r], q, r))
  }

  predicate Backs(run: Run, u: OwnerKey, lease: L.Lease) {
    && IsActiveState(run.state)
    && run.userId == u
    && run.leaseToken == Some(lease.token)
    && run.leaseExpiresAt == Some(lease.expiresAt)
  }

  /** Leases are indexed exactly, belong to active runs, and runs never share a token. */
  ghost predicate LeasesOk(runs: Runs, l: L.LeaseState) {
    && L.WF(l)
    && (forall u :: u in l.leases ==> l.leases[u].runId in runs && Backs(runs[l.leases[u].runId], u, l.leases[u]))
    && TokensApart(runs)
  }

  ghost predicate TokensApart(runs: Runs) {
    forall r, x :: r in runs && x in runs && runs[r].leaseToken.Some? && runs[r].leaseToken == runs[x].leaseToken
               ==> r == x
  }

  predicate Unexpired(run: Run, now: Time) {
    IsActiveState(run.state) && run.leaseExpiresAt.Some? && run.leaseExpiresAt.value > now
  }

  predicate Holds(l: L.LeaseState, r: RunId, run: Run) {
    run.userId in l.leases && l.leases[run.userId].runId == r
  }

  /** An active run whose lease has not run out is the one its owner's lease names. */
  ghost predicate HoldersOk(runs: Runs, l: L.LeaseState, now: Time) {
    forall r :: r in runs && Unexpired(runs[r], now) ==> Holds(l, r, runs[r])
  }

  predicate TimerFits(run: Run, timer: T.Timer) {
    && timer == T.NewTimer(timer.scheduledAt, run.maxDurationMs)
    && run.startedAt.Some? && run.startedAt.value <= timer.scheduledAt
  }

  /** Timers belong to exactly the RUNNING runs, each set no earlier than its run was leased and due
      the run's maximum duration after it was set. */
  ghost predicate TimersOk(runs: Runs, timers: map<RunId, T.Timer>) {
    && (forall r :: r in timers <==> InState(runs, r, RUNNING))
    && (forall r :: r in timers ==> TimerFits(runs[r], timers[r]))
  }

  predicate ContextFits(run: Run, c: C.Context) {
    && (if c.isCancelled then run.state in {CANCELLED, TIMED_OUT} else run.state == RUNNING)
    && (run.state == TIMED_OUT ==> c.cancelReason == Some("timeout"))
  }

  /** RUNNING runs have an uncancelled context; a cancelled one belongs to a CANCELLED or TIMED_OUT run. */
  ghost predicate ContextsOk(runs: Runs, cs: C.Contexts) {
    && (forall r :: InState(runs, r, RUNNING) ==> r in cs)
    && (forall r :: r in cs ==> r in runs && ContextFits(runs[r], cs[r]))
  }

  ghost predicate Inv(m: Manager, cfg: Config, now: Time) {
    && RunsOk(m.runs, cfg, now)
    && QueueOk(m.runs, m.queue)
    && LeasesOk(m.runs, m.leases)
    && HoldersOk(m.runs, m.leases, now)
    && TimersOk(m.runs, m.timers)
    && ContextsOk(m.runs, m.contexts)
  }

  lemma QueuePart(m: Manager, cfg: Config, now: Time)
    requires Inv(m, cfg, now)
    ensures QueueOk(m.runs, m.queue)
  {
  }

  lemma InitInv(cfg: Config, now: Time)
    ensures Inv(EMPTY, cfg, now)
  {
  }

  lemma ClockAdvances(m: Manager, cfg: Config, now: Time, later: Time)
    requires Inv(m, cfg, now) && now <= later
    ensures Inv(m, cfg, later)
  {
    assert RunsOk(m.runs, cfg, later);
    assert HoldersOk(m.runs, m.leases, later);
  }

  /** No run carries this token yet. */
  ghost predicate TokenFresh(runs: Runs, token: Token) {
    forall r :: r in runs ==> runs[r].leaseToken != Some(token)
  }

  // The queue clause.

  lemma QueueGains(runs: Runs, q: Q.QueueState, id: RunId, run: Run)
    requires QueueOk(runs, q) && id !in runs
    requires run.state == QUEUED && run.userId != [] && run.queuePosition == Some(|Q.Lane(q, run.userId)|)
    ensures QueueOk(runs[id := run], Q.Enqueue(q, id, run.userId))
  {
    assert id in q.runToUser <==> InState(runs, id, QUEUED);
    hide Q.Locate, Q.NoLater;
    Q.EnqueueWFIff(q, id, run.userId);
    Q.EnqueueAtEnd(q, id, run.userId);
    Q.EnqueueNoLater(q, id, run.userId);
    PlacedLater(runs, q, runs[id := run], Q.Enqueue(q, id, run.userId), id);
  }

  /** Placed survives a step that changes only run id, if nobody else's position grew. */
  lemma PlacedLater(runs: Runs, q: Q.QueueState, runs': Runs, q': Q.QueueState, id: RunId)
    requires Placed(runs, q)
    requires runs'.Keys == runs.Keys + {id} && forall r :: r in runs && r != id ==> runs'[r] == runs[r]
    requires forall r :: r != id ==> (r in q'.runToUser <==> r in q.runToUser)
    requires forall r :: r != id && r in q.runToUser ==> q'.runToUser[r] == q.runToUser[r]
    requires Q.NoLater(q, q')
    requires id in q'.runToUser <==> runs'[id].state == QUEUED
    requires id in q'.runToUser ==> WaitsInPlace(runs'[id], q', id)
    ensures Placed(runs', q')
  {
    forall r ensures r in q'.runToUser <==> InState(runs', r, QUEUED) {
      assert r in q.runToUser <==> InState(runs, r, QUEUED);
    }
    forall r | r in q'.runToUser ensures WaitsInPlace(runs'[r], q', r) {
      if r != id { assert WaitsInPlace(runs[r], q, r); }
    }
  }

  lemma HeadIsQueued(runs: Runs, q: Q.QueueState, u: OwnerKey)
    requires QueueOk(runs, q) && Q.Peek(q, u).Some?
    ensures InState(runs, Q.Peek(q, u).value, QUEUED) && runs[Q.Peek(q, u).value].userId == u
  {
    Q.IndexIsScan(q, Q.Peek(q, u).value, u);
    assert WaitsInPlace(runs[Q.Peek(q, u).value], q, Q.Peek(q, u).value);
  }

  lemma QueueServes(runs: Runs, q: Q.QueueState, u: OwnerKey, run: Run)
    requires QueueOk(runs, q) && Q.Peek(q, u).Some? && run.state != QUEUED
    ensures QueueOk(runs[Q.Peek(q, u).value := run], Q.Dequeue(q, u))
  {
    HeadIsQueued(runs, q, u);
    var id := Q.Peek(q, u).value;
    var q' := Q.Dequeue(q, u);
    Q.IndexIsScan(q, id, u);
    Q.DequeueWF(q, u);
    assert id in q.runToUser <==> InState(runs, id, QUEUED);
    assert WaitsInPlace(runs[id], q, id);
    Q.DequeueNoLater(q, u);
    PlacedLater(runs, q, runs[id := run], q', id);
  }

  lemma QueueLoses(runs: Runs, q: Q.QueueState, id: RunId, run: Run)
    requires QueueOk(runs, q) && InState(runs, id, QUEUED) && run.state != QUEUED
    ensures QueueOk(runs[id := run], Q.Remove(q, id))
  {
    assert id in q.runToUser && WaitsInPlace(runs[id], q, id);
    Q.RemoveWF(q, id);
    Q.RemoveNoLater(q, id);
    PlacedLater(runs, q, runs[id := run], Q.Remove(q, id), id);
  }

  lemma QueueUntouched(runs: Runs, q: Q.QueueState, id: RunId, run: Run)
    requires QueueOk(runs, q) && !InState(runs, id, QUEUED) && run.state != QUEUED
    ensures QueueOk(runs[id := run], q)
  {
    assert id in q.runToUser <==> InState(runs, id, QUEUED);
    PlacedLater(runs, q, runs[id := run], q, id);
  }

  // The lease clauses.

  lemma FreshTokenNotLive(runs: Runs, l: L.LeaseState, token: Token)
    requires LeasesOk(runs, l) && TokenFresh(runs, token)
    ensures token !in l.tokenToUser
  {
    forall t | t in l.tokenToUser ensures t != token {
      var u := l.tokenToUser[t];
      assert Backs(runs[l.leases[u].runId], u, l.leases[u]);
    }
  }

  lemma LeaseGranted(runs: Runs, l: L.LeaseState, now: Time, id: RunId, run: Run, token: Token, ttlMs: int)
    requires LeasesOk(runs, l) && HoldersOk(runs, l, now) && TokenFresh(runs, token)
    requires id in runs && !IsActiveState(runs[id].state) && run == Leased(runs[id], now, token, ttlMs)
    requires !L.Held(l, now, run.userId)
    ensures LeasesOk(runs[id := run], L.Acquire(l, now, run.userId, id, token, ttlMs))
    ensures HoldersOk(runs[id := run], L.Acquire(l, now, run.userId, id, token, ttlMs), now)
  {
    var u := run.userId;
    var runs', l' := runs[id := run], L.Acquire(l, now, u, id, token, ttlMs);
    FreshTokenNotLive(runs, l, token);
    L.ApplyWF(l, L.At(now, L.AcquireOp(u, id, token, ttlMs)));
    forall v | v in l'.leases
      ensures l'.leases[v].runId in runs' && Backs(runs'[l'.leases[v].runId], v, l'.leases[v])
    {
      if v != u { assert Backs(runs[l.leases[v].runId], v, l.leases[v]); }
    }
    forall r | r in runs' && Unexpired(runs'[r], now) ensures Holds(l', r, runs'[r]) {
      if r != id {
        assert Holds(l, r, runs[r]);
        assert Backs(runs[r], runs[r].userId, l.leases[runs[r].userId]);
      }
    }
  }

  /** Releasing a run's lease and making it inactive frees its owner's lane and touches no other lease. */
  lemma LeaseReturned(runs: Runs, l: L.LeaseState, now: Time, id: RunId, run: Run)
    requires LeasesOk(runs, l) && HoldersOk(runs, l, now)
    requires id in runs && !IsActiveState(run.state) && run.leaseToken == runs[id].leaseToken
    requires runs[id].userId != [] && (IsActiveState(runs[id].state) ==> runs[id].leaseToken.Some?)
    ensures var l' := if run.leaseToken.Some? then L.Release(l, run.leaseToken.value) else l;
            && LeasesOk(runs[id := run], l') && HoldersOk(runs[id := run], l', now)
            && (forall v :: v in l'.leases <==> v in l.leases && l.leases[v].runId != id)
            && (forall v :: v in l'.leases ==> l'.leases[v] == l.leases[v])
  {
    var l' := if run.leaseToken.Some? then L.Release(l, run.leaseToken.value) else l;
    var runs' := runs[id := run];
    if run.leaseToken.Some? {
      L.ApplyWF(l, L.At(now, L.ReleaseOp(run.leaseToken.value)));
    }
    forall v | v in l.leases ensures v in l'.leases <==> l.leases[v].runId != id {
      assert Backs(runs[l.leases[v].runId], v, l.leases[v]);
    }
    forall v | v in l'.leases
      ensures l'.leases[v].runId in runs' && Backs(runs'[l'.leases[v].runId], v, l'.leases[v])
    {
      assert Backs(runs[l.leases[v].runId], v, l.leases[v]);
    }
    forall r | r in runs' && Unexpired(runs'[r], now) ensures Holds(l', r, runs'[r]) {
      assert Holds(l, r, runs[r]);
    }
  }

  lemma LeasesUntouched(runs: Runs, l: L.LeaseState, now: Time, id: RunId, run: Run)
    requires LeasesOk(runs, l) && HoldersOk(runs, l, now)
    requires if id in runs
             then IsActiveState(runs[id].state) == IsActiveState(run.state) && run.leaseToken == runs[id].leaseToken
               && run.leaseExpiresAt == runs[id].leaseExpiresAt && run.userId == runs[id].userId
             else !IsActiveState(run.state) && run.leaseToken.None?
    ensures LeasesOk(runs[id := run], l) && HoldersOk(runs[id := run], l, now)
  {
    var runs' := runs[id := run];
    forall r | r in runs' && Unexpired(runs'[r], now) ensures Holds(l, r, runs'[r]) {
      assert Unexpired(runs[r], now);
    }
  }

  lemma LeasesSwept(runs: Runs, l: L.LeaseState, now: Time, op: L.LeaseOp)
    requires LeasesOk(runs, l) && HoldersOk(runs, l, now) && (op.CleanupOp? || op.ProbeOp?)
    ensures LeasesOk(runs, L.Apply(l, L.At(now, op))) && HoldersOk(runs, L.Apply(l, L.At(now, op)), now)
  {
    L.ApplyWF(l, L.At(now, op));
    var l' := L.Apply(l, L.At(now, op));
    forall r | r in runs && Unexpired(runs[r], now) ensures Holds(l', r, runs[r]) {
      assert Holds(l, r, runs[r]);
      assert Backs(runs[r], runs[r].userId, l.leases[runs[r].userId]);
    }
  }

  // The timer and context clauses.

  lemma TimersUntouched(runs: Runs, timers: map<RunId, T.Timer>, id: RunId, run: Run)
    requires TimersOk(runs, timers) && !InState(runs, id, RUNNING) && run.state != RUNNING
    ensures TimersOk(runs[id := run], timers) && id !in timers
  {
    forall r ensures r in timers <==> InState(runs[id := run], r, RUNNING) {
      assert r in timers <==> InState(runs, r, RUNNING);
    }
  }

  lemma TimerGone(runs: Runs, timers: map<RunId, T.Timer>, id: RunId, run: Run)
    requires TimersOk(runs, timers) && run.state != RUNNING
    ensures TimersOk(runs[id := run], T.Clear(timers, id))
  {
    var timers' := T.Clear(timers, id);
    forall r ensures r in timers' <==> InState(runs[id := run], r, RUNNING) {
      assert r in timers <==> InState(runs, r, RUNNING);
    }
  }

  lemma TimerSet(runs: Runs, timers: map<RunId, T.Timer>, now: Time, id: RunId, run: Run)
    requires TimersOk(runs, timers) && run.state == RUNNING
    requires run.startedAt.Some? && run.startedAt.value <= now
    ensures TimersOk(runs[id := run], T.Schedule(timers, now, id, run.maxDurationMs))
  {
    var timers' := T.Schedule(timers, now, id, run.maxDurationMs);
    forall r ensures r in timers' <==> InState(runs[id := run], r, RUNNING) {
      assert r in timers <==> InState(runs, r, RUNNING);
    }
  }

  lemma NoContextYet(runs: Runs, cs: C.Contexts, id: RunId)
    requires ContextsOk(runs, cs)
    requires id in runs ==> runs[id].state !in {RUNNING, CANCELLED, TIMED_OUT}
    ensures id !in cs
  {
    assert forall r :: r in cs ==> ContextFits(runs[r], cs[r]) && runs[r].state in {RUNNING, CANCELLED, TIMED_OUT};
  }

  lemma ContextsUntouched(runs: Runs, cs: C.Contexts, id: RunId, run: Run)
    requires ContextsOk(runs, cs) && run.state != RUNNING && id !in cs
    ensures ContextsOk(runs[id := run], cs)
  {
    forall r | InState(runs[id := run], r, RUNNING) ensures r in cs {
      assert InState(runs, r, RUNNING);
    }
  }

  lemma ContextOpened(runs: Runs, cs: C.Contexts, id: RunId, run: Run)
    requires ContextsOk(runs, cs) && run.state == RUNNING
    ensures ContextsOk(runs[id := run], C.Create(cs, id))
  {
    forall r | InState(runs[id := run], r, RUNNING) ensures r in C.Create(cs, id) {
      assert r != id ==> InState(runs, r, RUNNING);
    }
  }

  lemma ContextDropped(runs: Runs, cs: C.Contexts, id: RunId, run: Run)
    requires ContextsOk(runs, cs) && run.state != RUNNING
    ensures ContextsOk(runs[id := run], C.Remove(cs, id))
  {
    forall r | InState(runs[id := run], r, RUNNING) ensures r in C.Remove(cs, id) {
      assert InState(runs, r, RUNNING);
    }
  }

  lemma ContextCancelled(runs: Runs, cs: C.Contexts, id: RunId, run: Run, reason: string)
    requires ContextsOk(runs, cs) && id in runs && !IsTerminalState(runs[id].state)
    requires run.state == CANCELLED || (run.state == TIMED_OUT && reason == "timeout")
    ensures ContextsOk(runs[id := run], C.Cancel(cs, id, Some(reason)))
    ensures C.AbortEvent(cs, id, Some(reason)) == if runs[id].state == RUNNING then Some(reason) else None
  {
    assert id in cs ==> ContextFits(runs[id], cs[id]);
    assert InState(runs, id, RUNNING) ==> id in cs;
    forall r | InState(runs[id := run], r, RUNNING) ensures r in C.Cancel(cs, id, Some(reason)) {
      assert InState(runs, r, RUNNING);
    }
  }
}
