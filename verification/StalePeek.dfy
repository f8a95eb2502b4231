/** acquireNextRun taken apart at its first await: another call may run between looking at the head of the
    queue and acting on it (services/orchestrator/src/services/run-manager.ts:239-271). */
module StalePeek {
  import opened Collections
  import opened RunTypes
  import opened Owner
  import opened ManagerSpec
  import opened ManagerInvariant
  import MT = ManagerTheorems
  import Q = QueueSpec
  import L = LeaseSpec
  import T = TimeoutSpec
  import C = CancellationSpec

  /** The rest of the call, once peek has answered id: lease for id, dequeue whatever is first, write id. */
  function Resume(m: Manager, cfg: Config, now: Time, u: OwnerKey, id: RunId, token: Token): Acquired {
    if L.Held(m.leases, now, u) then Acquired(m, Success(None))
    else
      var m1 := m.(queue := Q.Dequeue(m.queue, u), leases := L.Acquire(m.leases, now, u, id, token, cfg.leaseTtlMs));
      if id !in m.runs then Acquired(m1, Failure(RunNotFound(id)))
      else
        var run := Leased(m.runs[id], now, token, cfg.leaseTtlMs);
        Acquired(m1.(runs := m1.runs[id := run]), Success(Some(run)))
  }

  /** Resuming with what was peeked earlier is the whole call made now exactly if the owner is held off by
      a lease or the peeked run is still first. */
  lemma ResumeIsAtomicIff(m: Manager, cfg: Config, now: Time, u: OwnerKey, id: RunId, token: Token)
    ensures Resume(m, cfg, now, u, id, token) == AcquireNextRun(m, cfg, now, u, token)
       <==> L.Held(m.leases, now, u) || Q.Peek(m.queue, u) == Some(id)
  {
    hide Q.Dequeue;
    if !L.Held(m.leases, now, u) {
      assert Resume(m, cfg, now, u, id, token).m.leases.leases[u].runId == id;
    }
  }

  /** It is refused exactly while some run of that owner has time left on its lease, whoever leased it. */
  lemma ResumeRefusedIff(m: Manager, cfg: Config, now: Time, u: OwnerKey, id: RunId, token: Token)
    requires Inv(m, cfg, now)
    ensures Resume(m, cfg, now, u, id, token) == Acquired(m, Success(None)) <==> MT.SomeUnexpired(m.runs, now, u)
  {
    MT.HeldIff(m.runs, m.leases, now, u);
    hide Inv, Q.Dequeue, L.Acquire, MT.SomeUnexpired;
  }

  /** Nothing but a cancellation of that run, or another acquisition for the same owner, moves a run from
      the head of its queue. */
  lemma StepKeepsHead(w: MT.World, cfg: Config, c: MT.Call, u: OwnerKey, id: RunId)
    requires Inv(w.m, cfg, w.now) && MT.Allowed(w, c) && Q.Peek(w.m.queue, u) == Some(id)
    ensures var m' := MT.Step(w, cfg, c).m;
            || Q.Peek(m'.queue, u) == Some(id)
            || (c.Cancel? && c.id == id && InState(m'.runs, id, CANCELLED))
            || (c.Acquire? && c.u == u && InState(m'.runs, id, LEASED))
  {
    hide Inv, MT.Allowed, CreateRun, AcquireNextRun, CancelRun, StartRun, FireTimeout, Finish, Q.Peek;
    match c
    case Create(x, owner, max) => CreateHead(w.m, cfg, w.now, x, owner, max, u);
    case Acquire(v, token) =>
      if v == u { AcquireOwn(w.m, cfg, w.now, u, token, id); } else { AcquireHead(w.m, cfg, w.now, v, token, u); }
    case Cancel(x, reason) => CancelHead(w.m, cfg, w.now, u, id, x, reason);
    case Start(x) => StartQueue(w.m, w.now, x);
    case Fire(x) => FireQueue(w.m, w.now, x);
    case Complete(x, messages) => FinishQueue(w.m, w.now, x, COMPLETED, None, messages);
    case Fail(x, error) => FinishQueue(w.m, w.now, x, FAILED, Some(error), None);
    case _ =>
  }

  lemma AcquireOwn(m: Manager, cfg: Config, now: Time, u: OwnerKey, token: Token, id: RunId)
    requires Inv(m, cfg, now) && Q.Peek(m.queue, u) == Some(id)
    ensures var m' := AcquireNextRun(m, cfg, now, u, token).m;
            Q.Peek(m'.queue, u) == Some(id) || InState(m'.runs, id, LEASED)
  {
    QueuePart(m, cfg, now);
    HeadIsQueued(m.runs, m.queue, u);
    hide Inv, Q.Dequeue, L.Acquire;
  }

  lemma CreateHead(m: Manager, cfg: Config, now: Time, x: RunId, owner: OwnerPrincipal, max: Option<int>, u: OwnerKey)
    requires Q.Peek(m.queue, u).Some?
    ensures Q.Peek(CreateRun(m, cfg, now, x, owner, max).m.queue, u) == Q.Peek(m.queue, u)
  {
    var key := OwnerKeyFromPrincipal(owner);
    if key.Some? { EnqueueHead(m.queue, u, x, key.value); }
    hide OwnerKeyFromPrincipal, Q.Peek, Q.Enqueue;
  }

  lemma AcquireHead(m: Manager, cfg: Config, now: Time, v: OwnerKey, token: Token, u: OwnerKey)
    requires u != v
    ensures Q.Peek(AcquireNextRun(m, cfg, now, v, token).m.queue, u) == Q.Peek(m.queue, u)
  {
    Q.DequeueLanes(m.queue, v);
    hide Q.Dequeue, L.Acquire;
  }

  lemma StartQueue(m: Manager, now: Time, x: RunId)
    ensures StartRun(m, now, x).m.queue == m.queue
  {
    TransitionQueue(m, now, x, RUNNING, None, None);
    hide TransitionState;
  }

  lemma FireQueue(m: Manager, now: Time, x: RunId)
    ensures FireTimeout(m, now, x).m.queue == m.queue
  {
    hide AbortInto;
    if x in m.runs {
      AbortQueue(m.(timers := T.Clear(m.timers, x)), now, x, "timeout", TIMED_OUT, Some(TIMEOUT_ERROR));
    }
  }

  lemma EnqueueHead(q: Q.QueueState, u: OwnerKey, r: RunId, v: OwnerKey)
    requires Q.Peek(q, u).Some?
    ensures Q.Peek(Q.Enqueue(q, r, v), u) == Q.Peek(q, u)
  {
  }

  lemma TransitionQueue(m: Manager, now: Time, id: RunId, to: RunState, error: Option<string>,
                        messages: Option<seq<string>>)
    ensures TransitionState(m, now, id, to, error, messages).m.queue == m.queue
  {
  }

  lemma AbortQueue(m: Manager, now: Time, id: RunId, reason: string, to: RunState, error: Option<string>)
    requires id in m.runs
    ensures AbortInto(m, now, id, reason, to, error).m.queue == m.queue
  {
    var m1 := ReleaseLeaseOf(m, m.runs[id]);
    hide TransitionState;
    TransitionQueue(m1.(contexts := C.Cancel(m1.contexts, id, Some(reason))), now, id, to, error, None);
  }

  lemma FinishQueue(m: Manager, now: Time, id: RunId, to: RunState, error: Option<string>,
                    messages: Option<seq<string>>)
    ensures Finish(m, now, id, to, error, messages).m.queue == m.queue
  {
    hide TransitionState;
    if id in m.runs {
      var m1 := ReleaseLeaseOf(m, m.runs[id]);
      TransitionQueue(m1.(contexts := C.Remove(m1.contexts, id)), now, id, to, error, messages);
    }
  }

  lemma CancelHead(m: Manager, cfg: Config, now: Time, u: OwnerKey, id: RunId, x: RunId, reason: Option<string>)
    requires Inv(m, cfg, now) && Q.Peek(m.queue, u) == Some(id)
    ensures var m' := CancelRun(m, now, x, reason).m;
            if x == id then InState(m'.runs, id, CANCELLED) else Q.Peek(m'.queue, u) == Some(id)
  {
    hide LeasesOk, HoldersOk, TimersOk, ContextsOk, RunsOk, Q.Remove, TransitionState;
    HeadIsQueued(m.runs, m.queue, u);
    if x == id {
      CancelledState(m, now, id, reason);
    } else if x in m.runs && !IsTerminalState(m.runs[x].state) {
      var m1 := if m.runs[x].state == QUEUED then m.(queue := Q.Remove(m.queue, x)) else m;
      RemoveHead(m.queue, u, x);
      AbortQueue(m1, now, x, if reason.Some? then reason.value else "user_cancelled", CANCELLED,
                 Some(if reason.Some? then reason.value else "cancelled"));
    }
  }

  lemma CancelledState(m: Manager, now: Time, id: RunId, reason: Option<string>)
    requires InState(m.runs, id, QUEUED)
    ensures InState(CancelRun(m, now, id, reason).m.runs, id, CANCELLED)
  {
    hide Q.Remove, L.Release, C.Cancel, T.Clear, C.AbortEvent;
  }

  lemma RemoveHead(q: Q.QueueState, u: OwnerKey, x: RunId)
    requires Q.WF(q) && Q.Peek(q, u).Some? && Q.Peek(q, u) != Some(x)
    ensures Q.Peek(Q.Remove(q, x), u) == Q.Peek(q, u)
  {
    Q.RemoveWF(q, x);
  }

  ghost predicate NoAcquireFor(calls: seq<MT.Call>, u: OwnerKey) {
    forall c :: c in calls ==> !(c.Acquire? && c.u == u)
  }

  /** Whatever else is called between the peek and the rest: the peeked run is still first exactly if it is
      still queued, which, if nobody else acquired for this owner, is if it was not cancelled. */
  lemma {:induction false} PeekStaysValidIff(w: MT.World, cfg: Config, calls: seq<MT.Call>, u: OwnerKey, id: RunId)
    requires Inv(w.m, cfg, w.now) && MT.AllAllowed(w, cfg, calls)
    requires Q.Peek(w.m.queue, u) == Some(id)
    ensures var m' := MT.Run(w, cfg, calls).m;
            && (Q.Peek(m'.queue, u) == Some(id) <==> InState(m'.runs, id, QUEUED))
            && (NoAcquireFor(calls, u) ==> (InState(m'.runs, id, QUEUED) <==> !InState(m'.runs, id, CANCELLED)))
    decreases |calls|
  {
    hide Inv, MT.Allowed;
    if calls == [] {
      QueuePart(w.m, cfg, w.now);
      HeadIsQueued(w.m.runs, w.m.queue, u);
    } else {
      var c := calls[0];
      assert c in calls;
      MT.StepKeeps(w, cfg, c);
      StepKeepsHead(w, cfg, c, u, id);
      var w' := MT.Step(w, cfg, c);
      assert NoAcquireFor(calls, u) ==> NoAcquireFor(calls[1..], u);
      if Q.Peek(w'.m.queue, u) == Some(id) {
        PeekStaysValidIff(w', cfg, calls[1..], u, id);
      } else {
        NeverRequeued(w', cfg, calls[1..], u, id);
        if InState(w'.m.runs, id, CANCELLED) { MT.TerminalForever(w', cfg, calls[1..], id); }
      }
    }
  }

  /** A run that has left the queue is never queued again, so never first. */
  lemma {:induction false} NeverRequeued(w: MT.World, cfg: Config, calls: seq<MT.Call>, u: OwnerKey, id: RunId)
    requires Inv(w.m, cfg, w.now) && MT.AllAllowed(w, cfg, calls)
    requires id in w.m.runs && w.m.runs[id].state != QUEUED
    ensures var m' := MT.Run(w, cfg, calls).m; !InState(m'.runs, id, QUEUED) && Q.Peek(m'.queue, u) != Some(id)
    decreases |calls|
  {
    hide Inv;
    if calls == [] {
      QueuePart(w.m, cfg, w.now);
      if Q.Peek(w.m.queue, u) == Some(id) { HeadIsQueued(w.m.runs, w.m.queue, u); }
    } else {
      var w' := MT.Step(w, cfg, calls[0]);
      hide MT.Step;
      MT.StepKeeps(w, cfg, calls[0]);
      MT.LegalStep(w, cfg, calls[0]);
      assert MT.MayBecome(w.m.runs[id], w'.m.runs[id]);
      NeverRequeued(w', cfg, calls[1..], u, id);
    }
  }

  /** A waiting run that no queue holds and nobody has leased. */
  ghost predicate Stranded(m: Manager, x: RunId) {
    x in m.runs && !IsActiveState(m.runs[x].state) && forall v :: x !in Q.Lane(m.queue, v)
  }

  /** What a cancellation in between does: the cancelled run is leased after all, against the transition
      table, and the run that had become first is taken off the queue unleased. */
  lemma StaleResumeStrandsNext(m: Manager, cfg: Config, now: Time, u: OwnerKey, id: RunId, token: Token, x: RunId)
    requires Inv(m, cfg, now) && InState(m.runs, id, CANCELLED) && Q.Peek(m.queue, u) == Some(x)
    requires !L.Held(m.leases, now, u)
    ensures var m' := Resume(m, cfg, now, u, id, token).m;
            && InState(m'.runs, id, LEASED) && !IsValidStateTransition(CANCELLED, LEASED)
            && InState(m'.runs, x, QUEUED) && Stranded(m', x)
  {
    QueuePart(m, cfg, now);
    HeadIsQueued(m.runs, m.queue, u);
    HeadGone(m.queue, u, x);
    assert id in m.runs;
    hide *;
    ResumeParts(m, cfg, now, u, id, token);
    RunsAfter(m.runs, id, x, Leased(m.runs[id], now, token, cfg.leaseTtlMs));
    IsStranded(Resume(m, cfg, now, u, id, token).m, x);
  }

  /** The whole story from any state of the invariant: an owner with two waiting runs and no live lease, the first
      cancelled between the peek and the rest. */
  lemma CancelBetweenStrands(m: Manager, cfg: Config, now: Time, u: OwnerKey, token: Token, reason: Option<string>)
    requires Inv(m, cfg, now) && |Q.Lane(m.queue, u)| >= 2 && !L.Held(m.leases, now, u)
    ensures var (id, x) := (Q.Lane(m.queue, u)[0], Q.Lane(m.queue, u)[1]);
            var m' := Resume(CancelRun(m, now, id, reason).m, cfg, now, u, id, token).m;
            id != x && InState(m'.runs, id, LEASED) && InState(m'.runs, x, QUEUED) && Stranded(m', x)
  {
    var (id, x) := (Q.Lane(m.queue, u)[0], Q.Lane(m.queue, u)[1]);
    QueuePart(m, cfg, now);
    HeadIsQueued(m.runs, m.queue, u);
    SecondBecomesHead(m.queue, u);
    QueuedHasNoToken(m, cfg, now, id);
    MT.CancelKeeps(m, cfg, now, id, reason);
    CancelledState(m, now, id, reason);
    CancelQueued(m, now, id, reason);
    hide *;
    StaleResumeStrandsNext(CancelRun(m, now, id, reason).m, cfg, now, u, id, token, x);
  }

  lemma SecondBecomesHead(q: Q.QueueState, u: OwnerKey)
    requires Q.WF(q) && |Q.Lane(q, u)| >= 2 && u != []
    ensures Q.Lane(q, u)[0] != Q.Lane(q, u)[1]
    ensures Q.Peek(Q.Remove(q, Q.Lane(q, u)[0]), u) == Some(Q.Lane(q, u)[1])
  {
    var id := Q.Lane(q, u)[0];
    Q.IndexIsScan(q, id, u);
    Q.LocatedIff(q, id);
    Q.RemoveWF(q, id);
  }

  lemma QueuedHasNoToken(m: Manager, cfg: Config, now: Time, id: RunId)
    requires Inv(m, cfg, now) && InState(m.runs, id, QUEUED)
    ensures m.runs[id].leaseToken.None? && m.runs[id].userId != []
  {
    assert RunOk(id, m.runs[id], cfg, now);
  }

  lemma CancelQueued(m: Manager, now: Time, id: RunId, reason: Option<string>)
    requires InState(m.runs, id, QUEUED) && m.runs[id].leaseToken.None?
    ensures CancelRun(m, now, id, reason).m.queue == Q.Remove(m.queue, id)
    ensures CancelRun(m, now, id, reason).m.leases == m.leases
  {
    hide Q.Remove, C.Cancel, T.Clear, C.AbortEvent;
  }

  lemma ResumeParts(m: Manager, cfg: Config, now: Time, u: OwnerKey, id: RunId, token: Token)
    requires !L.Held(m.leases, now, u) && id in m.runs
    ensures var m' := Resume(m, cfg, now, u, id, token).m;
            && m'.queue == Q.Dequeue(m.queue, u)
            && m'.runs == m.runs[id := Leased(m.runs[id], now, token, cfg.leaseTtlMs)]
    ensures Leased(m.runs[id], now, token, cfg.leaseTtlMs).state == LEASED
  {
    hide L.Acquire, Q.Dequeue;
  }

  lemma RunsAfter(runs: Runs, id: RunId, x: RunId, run: Run)
    requires InState(runs, id, CANCELLED) && InState(runs, x, QUEUED) && run.state == LEASED
    ensures InState(runs[id := run], id, LEASED) && InState(runs[id := run], x, QUEUED)
    ensures !IsValidStateTransition(CANCELLED, LEASED)
  {
  }

  lemma IsStranded(m: Manager, x: RunId)
    requires InState(m.runs, x, QUEUED) && forall v :: x !in Q.Lane(m.queue, v)
    ensures Stranded(m, x)
  {
  }

  lemma HeadGone(q: Q.QueueState, u: OwnerKey, x: RunId)
    requires Q.WF(q) && Q.Peek(q, u) == Some(x)
    ensures forall v :: x !in Q.Lane(Q.Dequeue(q, u), v)
  {
    Q.DequeueWF(q, u);
    forall v ensures x !in Q.Lane(Q.Dequeue(q, u), v) {
      Q.IndexIsScan(Q.Dequeue(q, u), x, v);
    }
  }

  lemma StepStrands(w: MT.World, cfg: Config, c: MT.Call, x: RunId)
    requires Stranded(w.m, x) && (c.Create? ==> c.id !in w.m.runs)
    ensures Stranded(MT.Step(w, cfg, c).m, x)
  {
    hide CreateRun, AcquireNextRun, AbortInto, TransitionState, CancelRun, Finish;
    match c
    case Create(id, owner, max) => CreateStrands(w.m, cfg, w.now, id, owner, max, x);
    case Acquire(u, token) => AcquireStrands(w.m, cfg, w.now, u, token, x);
    case Start(id) => TransitionStrands(w.m, w.now, id, RUNNING, None, None, x);
    case Cancel(id, reason) => CancelStrands(w.m, w.now, id, reason, x);
    case Fire(id) =>
      if id in w.m.runs {
        var m1 := w.m.(timers := T.Clear(w.m.timers, id));
        AbortStrands(m1, w.now, id, "timeout", TIMED_OUT, Some(TIMEOUT_ERROR), x);
      }
    case Complete(id, messages) => FinishStrands(w.m, w.now, id, COMPLETED, None, messages, x);
    case Fail(id, error) => FinishStrands(w.m, w.now, id, FAILED, Some(error), None, x);
    case _ =>
  }

  lemma CreateStrands(m: Manager, cfg: Config, now: Time, id: RunId, owner: OwnerPrincipal, max: Option<int>, x: RunId)
    requires Stranded(m, x) && id !in m.runs
    ensures Stranded(CreateRun(m, cfg, now, id, owner, max).m, x)
  {
    hide OwnerKeyFromPrincipal;
    var m' := CreateRun(m, cfg, now, id, owner, max).m;
    forall v ensures x !in Q.Lane(m'.queue, v) { assert x !in Q.Lane(m.queue, v); }
  }

  lemma AcquireStrands(m: Manager, cfg: Config, now: Time, u: OwnerKey, token: Token, x: RunId)
    requires Stranded(m, x)
    ensures Stranded(AcquireNextRun(m, cfg, now, u, token).m, x)
  {
    hide L.Acquire;
    assert x !in Q.Lane(m.queue, u);
    Q.DequeueLanes(m.queue, u);
    forall v ensures x !in Q.Lane(Q.Dequeue(m.queue, u), v) { assert x !in Q.Lane(m.queue, v); }
    hide Q.Dequeue;
  }

  lemma TransitionStrands(m: Manager, now: Time, id: RunId, to: RunState, error: Option<string>,
                          messages: Option<seq<string>>, x: RunId)
    requires Stranded(m, x) && (to == RUNNING || IsTerminalState(to))
    ensures Stranded(TransitionState(m, now, id, to, error, messages).m, x)
  {
  }

  lemma AbortStrands(m: Manager, now: Time, id: RunId, reason: string, to: RunState, error: Option<string>, x: RunId)
    requires Stranded(m, x) && id in m.runs && IsTerminalState(to)
    ensures Stranded(AbortInto(m, now, id, reason, to, error).m, x)
  {
    var m1 := ReleaseLeaseOf(m, m.runs[id]);
    hide TransitionState;
    TransitionStrands(m1.(contexts := C.Cancel(m1.contexts, id, Some(reason))), now, id, to, error, None, x);
  }

  lemma FinishStrands(m: Manager, now: Time, id: RunId, to: RunState, error: Option<string>,
                      messages: Option<seq<string>>, x: RunId)
    requires Stranded(m, x) && IsTerminalState(to)
    ensures Stranded(Finish(m, now, id, to, error, messages).m, x)
  {
    hide TransitionState;
    if id in m.runs {
      var m1 := ReleaseLeaseOf(m, m.runs[id]);
      TransitionStrands(m1.(contexts := C.Remove(m1.contexts, id)), now, id, to, error, messages, x);
    }
  }

  lemma CancelStrands(m: Manager, now: Time, id: RunId, reason: Option<string>, x: RunId)
    requires Stranded(m, x)
    ensures Stranded(CancelRun(m, now, id, reason).m, x)
  {
    hide AbortInto, Q.Remove;
    if id in m.runs && !IsTerminalState(m.runs[id].state) {
      var m1 := if m.runs[id].state == QUEUED then m.(queue := Q.Remove(m.queue, id)) else m;
      forall v ensures x !in Q.Lane(Q.Remove(m.queue, id), v) {
        if Q.Locate(m.queue, id).Some? {
          Q.RemoveLanes(m.queue, id);
          assert x !in Q.Lane(m.queue, v);
        } else {
          RemoveNothing(m.queue, id);
        }
      }
      AbortStrands(m1, now, id, if reason.Some? then reason.value else "user_cancelled", CANCELLED,
                   Some(if reason.Some? then reason.value else "cancelled"), x);
    }
  }

  lemma RemoveNothing(q: Q.QueueState, id: RunId)
    requires Q.Locate(q, id).None?
    ensures Q.Remove(q, id) == q
  {
  }

  ghost predicate NewIds(w: MT.World, cfg: Config, calls: seq<MT.Call>)
    decreases |calls|
  {
    calls == []
    || ((calls[0].Create? ==> calls[0].id !in w.m.runs) && NewIds(MT.Step(w, cfg, calls[0]), cfg, calls[1..]))
  }

  /** A stranded run is never leased and never started, whatever is called afterwards. */
  lemma {:induction false} StrandedForever(w: MT.World, cfg: Config, calls: seq<MT.Call>, x: RunId)
    requires Stranded(w.m, x) && NewIds(w, cfg, calls)
    ensures Stranded(MT.Run(w, cfg, calls).m, x)
    decreases |calls|
  {
    hide Stranded, MT.Step;
    if calls != [] {
      StepStrands(w, cfg, calls[0], x);
      StrandedForever(MT.Step(w, cfg, calls[0]), cfg, calls[1..], x);
    }
  }
}
