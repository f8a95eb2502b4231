/** The inductive invariant of the interleaved service, clause by clause. */
module ServiceInvariant {
  import opened Collections
  import opened RunTypes
  import opened Owner
  import opened ServiceSpec
  import opened ManagerInvariant
  import S = ManagerSpec
  import Q = QueueSpec
  import L = LeaseSpec
  import T = TimeoutSpec

  // Loops.

  predicate Drives(l: Loop, r: RunId) { RunOf(l) == Some(r) }

  /** The run a loop is busy with is its owner's and in a state that fits the stage. */
  predicate StageOk(runs: Runs, listening: set<RunId>, l: Loop) {
    match RunOf(l)
    case None => true
    case Some(r) =>
      && r in runs && runs[r].userId == l.owner
      && match l.stage
         case Preparing(_) => runs[r].state in {LEASED, CANCELLED} && r !in listening
         case Loading(_, signalled) => runs[r].state in {RUNNING, CANCELLED, TIMED_OUT} && r !in listening && signalled
         case _ => runs[r].state in {RUNNING, CANCELLED, TIMED_OUT} && r in listening
  }

  ghost predicate Driven(loops: map<LoopId, Loop>, r: RunId) {
    exists t :: t in loops && Drives(loops[t], r)
  }

  ghost predicate LaneTaken(loops: map<LoopId, Loop>, u: OwnerKey) {
    exists t :: t in loops && loops[t].owner == u
  }

  /** processingUsers are exactly the owners of the loops, no two loops share an owner, and every
      active run is the one its owner's loop is busy with. */
  ghost predicate LoopsOk(runs: Runs, loops: map<LoopId, Loop>, processing: set<OwnerKey>, listening: set<RunId>) {
    && (forall u :: u in processing <==> LaneTaken(loops, u))
    && (forall t, x :: t in loops && x in loops && loops[t].owner == loops[x].owner ==> t == x)
    && (forall t :: t in loops ==> StageOk(runs, listening, loops[t]))
    && (forall r :: Active(runs, r) ==> Driven(loops, r))
  }

  /** Only owners with a loop have anyone waiting. */
  ghost predicate NoLostWakeup(q: Q.QueueState, processing: set<OwnerKey>) {
    forall u :: Q.Lane(q, u) != [] ==> u in processing
  }

  /** Listeners are installed only on runs that have been started. */
  ghost predicate ListeningOk(runs: Runs, listening: set<RunId>) {
    forall r :: r in listening ==> r in runs && runs[r].state !in {QUEUED, LEASED}
  }

  // Terminal events.

  /** Terminal events a run has had if every one went out under a guard: one under the guard it has, one
      under the guard that was dropped. */
  function Announced(guarded: bool, dropped: bool): nat {
    (if guarded then 1 else 0) + (if dropped then 1 else 0)
  }

  /** What the guard, the dropped guard and the run's state say about the terminal events sent:
      one per guard (a timed-out run may have had none), and of the state's own kind unless the
      cancellation posed as a timeout. */
  predicate LedgerOk(state: RunState, guarded: bool, dropped: bool, spoofed: bool, sent: seq<TerminalKind>) {
    && (guarded || dropped || sent != [] ==> IsTerminalState(state))
    && (guarded && dropped ==> state == CANCELLED)
    && (!dropped ==> |sent| == if guarded then 1 else 0)
    && |sent| <= Announced(guarded, dropped)
    && (IsTerminalState(state) && state != TIMED_OUT ==> sent != [] && |sent| == Announced(guarded, dropped))
    && (if spoofed then state == CANCELLED && sent[0] == RunTimedOut
        else forall k :: k in sent ==> KindOf(state) == Some(k))
  }

  ghost predicate LedgersOk(runs: Runs, guard: set<RunId>, out: seq<Emission>, h: History) {
    && (forall r :: r !in runs ==> r !in guard && r !in h.dropped && r !in h.spoofed && TerminalsOf(out, r) == [])
    && (forall r :: r in runs ==>
          LedgerOk(runs[r].state, r in guard, r in h.dropped, r in h.spoofed, TerminalsOf(out, r)))
  }

  /** A run in flight still has its guard to drop. */
  ghost predicate FlightsOk(loops: map<LoopId, Loop>, dropped: set<RunId>) {
    forall t :: t in loops && RunOf(loops[t]).Some? ==> RunOf(loops[t]).value !in dropped
  }

  // FIFO.

  /** What an owner created, minus what it withdrew from the queue, is what has been leased followed by what waits. */
  predicate Conserved(h: History, q: Q.QueueState, u: OwnerKey) {
    Without(Of(h.created, u), h.withdrawn) == Of(h.leased, u) + Q.Lane(q, u)
  }

  ghost predicate HistoryOk(runs: Runs, q: Q.QueueState, h: History) {
    && (forall u :: Conserved(h, q, u))
    && (forall u, r :: r in Of(h.created, u) ==> r in runs && runs[r].userId == u)
    && (forall u, r :: r in Of(h.leased, u) ==> r in runs && runs[r].state != QUEUED)
    && h.withdrawn <= runs.Keys
  }

  ghost predicate Inv(w: World, cfg: S.Config) {
    && ManagerInvariant.Inv(w.s.m, cfg, w.s.now)
    && LoopsOk(w.s.m.runs, w.s.loops, w.s.processing, w.s.listening)
    && ListeningOk(w.s.m.runs, w.s.listening)
    && NoLostWakeup(w.s.m.queue, w.s.processing)
    && LedgersOk(w.s.m.runs, w.s.guard, w.s.out, w.h)
    && FlightsOk(w.s.loops, w.h.dropped)
    && HistoryOk(w.s.m.runs, w.s.m.queue, w.h)
  }

  // How the loop clause survives.

  lemma LoopSpawned(runs: Runs, runs': Runs, loops: map<LoopId, Loop>, processing: set<OwnerKey>, listening: set<RunId>,
                    t: LoopId, u: OwnerKey)
    requires LoopsOk(runs, loops, processing, listening)
    requires t !in loops && u !in processing
    requires forall r :: r in runs ==> r in runs' && runs'[r] == runs[r]
    requires forall r :: r in runs' && r !in runs ==> !IsActiveState(runs'[r].state)
    ensures LoopsOk(runs', loops[t := Loop(u, AtLoop)], processing + {u}, listening)
  {
    var loops' := loops[t := Loop(u, AtLoop)];
    forall v ensures v in processing + {u} <==> LaneTaken(loops', v) {
      if v in processing {
        var x :| x in loops && loops[x].owner == v;
        assert loops'[x].owner == v;
      }
      if v == u {
        assert loops'[t].owner == u;
      }
      if LaneTaken(loops', v) {
        var x :| x in loops' && loops'[x].owner == v;
        assert x == t || (x in loops && loops[x].owner == v);
      }
    }
    forall r | Active(runs', r) ensures Driven(loops', r) {
      assert Active(runs, r);
      var x :| x in loops && Drives(loops[x], r);
      assert Drives(loops'[x], r);
    }
  }

  lemma LoopsKeepRuns(runs: Runs, runs': Runs, loops: map<LoopId, Loop>, processing: set<OwnerKey>,
                      listening: set<RunId>)
    requires LoopsOk(runs, loops, processing, listening)
    requires forall r :: r in runs ==> r in runs' && runs'[r] == runs[r]
    requires forall r :: r in runs' && r !in runs ==> !IsActiveState(runs'[r].state)
    ensures LoopsOk(runs', loops, processing, listening)
  {
    forall r | Active(runs', r) ensures Driven(loops, r) {
      assert Active(runs, r);
    }
  }

  lemma LoopEnded(runs: Runs, loops: map<LoopId, Loop>, processing: set<OwnerKey>, listening: set<RunId>, t: LoopId)
    requires LoopsOk(runs, loops, processing, listening)
    requires t in loops && loops[t].stage.AtLoop?
    ensures LoopsOk(runs, loops - {t}, processing - {loops[t].owner}, listening)
  {
    var loops' := loops - {t};
    forall v ensures v in processing - {loops[t].owner} <==> LaneTaken(loops', v) {
      if v in processing && v != loops[t].owner {
        var x :| x in loops && loops[x].owner == v;
        assert loops'[x].owner == v;
      }
      if LaneTaken(loops', v) {
        var x :| x in loops' && loops'[x].owner == v;
        assert loops[x].owner == v;
      }
    }
    forall r | Active(runs, r) ensures Driven(loops', r) {
      var x :| x in loops && Drives(loops[x], r);
      assert Drives(loops'[x], r);
    }
  }

  /** A loop takes up, carries on with or leaves a run r of its owner. */
  lemma LoopMoved(runs: Runs, loops: map<LoopId, Loop>, processing: set<OwnerKey>, listening: set<RunId>,
                  t: LoopId, stage: Stage, r: RunId, run: S.Run, listening': set<RunId>)
    requires LoopsOk(runs, loops, processing, listening)
    requires t in loops && r in runs && runs[r].userId == loops[t].owner && run.userId == loops[t].owner
    requires RunOf(loops[t]) in {None, Some(r)}
    requires listening <= listening' <= listening + {r}
    requires StageOk(runs[r := run], listening', Loop(loops[t].owner, stage))
    requires if stage.AtLoop? then !IsActiveState(run.state) else stage.run == r
    ensures LoopsOk(runs[r := run], loops[t := loops[t].(stage := stage)], processing, listening')
  {
    var loops' := loops[t := loops[t].(stage := stage)];
    forall v ensures v in processing <==> LaneTaken(loops', v) {
      if LaneTaken(loops', v) {
        var x :| x in loops' && loops'[x].owner == v;
        assert loops[x].owner == v;
      }
      if LaneTaken(loops, v) {
        var x :| x in loops && loops[x].owner == v;
        assert loops'[x].owner == v;
      }
    }
    forall x | x in loops' ensures StageOk(runs[r := run], listening', loops'[x]) {
      if x != t {
        assert StageOk(runs, listening, loops[x]);
        assert loops[x].owner != loops[t].owner;
      }
    }
    forall x | Active(runs[r := run], x) ensures Driven(loops', x) {
      if x == r {
        assert Drives(loops'[t], r);
      } else {
        assert Active(runs, x);
        var y :| y in loops && Drives(loops[y], x);
        assert Drives(loops'[y], x);
      }
    }
  }

  /** A run is cancelled or times out, wherever its loop is. */
  lemma LoopsSeeAbort(runs: Runs, loops: map<LoopId, Loop>, processing: set<OwnerKey>, listening: set<RunId>,
                      r: RunId, run: S.Run)
    requires LoopsOk(runs, loops, processing, listening)
    requires r in runs && run.userId == runs[r].userId
    requires run.state == CANCELLED || (run.state == TIMED_OUT && runs[r].state == RUNNING)
    ensures LoopsOk(runs[r := run], loops, processing, listening)
  {
    forall t | t in loops ensures StageOk(runs[r := run], listening, loops[t]) {
      assert StageOk(runs, listening, loops[t]);
    }
    forall x | Active(runs[r := run], x) ensures Driven(loops, x) {
      assert Active(runs, x);
    }
  }

  /** The owner of a loop that is about to ask for work has no lease outstanding. */
  lemma LaneFree(runs: Runs, l: L.LeaseState, loops: map<LoopId, Loop>, processing: set<OwnerKey>,
                 listening: set<RunId>, t: LoopId)
    requires LoopsOk(runs, loops, processing, listening) && LeasesOk(runs, l)
    requires t in loops && loops[t].stage.AtLoop?
    ensures loops[t].owner !in l.leases
  {
    forall u | u in l.leases ensures u != loops[t].owner {
      var r := l.leases[u].runId;
      assert Backs(runs[r], u, l.leases[u]);
      assert Active(runs, r);
      var x :| x in loops && Drives(loops[x], r);
      assert StageOk(runs, listening, loops[x]);
      assert loops[x].owner == u && x != t;
    }
  }

  // How the ledger survives.

  lemma TerminalsAppend(out: seq<Emission>, e: Emission, r: RunId)
    ensures TerminalsOf(out + [e], r)
         == TerminalsOf(out, r) + (if e.Terminal? && e.run == r then [e.kind] else [])
  {
    assert (out + [e])[..|out|] == out;
  }

  /** Only run r's ledger may differ. */
  lemma LedgersElsewhere(runs: Runs, guard: set<RunId>, out: seq<Emission>, h: History,
                         runs': Runs, guard': set<RunId>, out': seq<Emission>, h': History, r: RunId)
    requires LedgersOk(runs, guard, out, h)
    requires runs'.Keys == runs.Keys + {r}
    requires forall x :: x in runs && x != r ==> runs'[x].state == runs[x].state
    requires forall x :: x != r ==> (x in guard' <==> x in guard)
    requires forall x :: x != r ==> (x in h'.dropped <==> x in h.dropped) && (x in h'.spoofed <==> x in h.spoofed)
    requires forall x :: x != r ==> TerminalsOf(out', x) == TerminalsOf(out, x)
    requires LedgerOk(runs'[r].state, r in guard', r in h'.dropped, r in h'.spoofed, TerminalsOf(out', r))
    ensures LedgersOk(runs', guard', out', h')
  {
  }

  /** What sending a terminal event once does to the ledgers. */
  lemma EmitOnceEffect(s: Sys, r: RunId, kind: TerminalKind)
    ensures var s' := EmitTerminalOnce(s, r, kind);
            && s'.guard == s.guard + {r}
            && (forall x :: x != r ==> TerminalsOf(s'.out, x) == TerminalsOf(s.out, x))
            && TerminalsOf(s'.out, r) == TerminalsOf(s.out, r) + (if r in s.guard then [] else [kind])
  {
    forall x ensures TerminalsOf(EmitTerminalOnce(s, r, kind).out, x)
                  == TerminalsOf(s.out, x) + (if x == r && r !in s.guard then [kind] else [])
    {
      TerminalsAppend(s.out, Terminal(r, kind), x);
    }
  }

  lemma SendEffect(s: Sys, e: Emission)
    requires !e.Terminal?
    ensures forall x :: TerminalsOf(Send(s, e).out, x) == TerminalsOf(s.out, x)
  {
    forall x ensures TerminalsOf(Send(s, e).out, x) == TerminalsOf(s.out, x) {
      TerminalsAppend(s.out, e, x);
    }
  }

  // How conservation survives.

  lemma EnqueuedLanes(q: Q.QueueState, r: RunId, u: OwnerKey)
    ensures forall v :: Q.Lane(Q.Enqueue(q, r, u), v) == Q.Lane(q, v) + if v == u then [r] else []
  {
  }

  lemma HistoryCreates(runs: Runs, q: Q.QueueState, h: History, id: RunId, run: S.Run)
    requires HistoryOk(runs, q, h) && id !in runs
    ensures HistoryOk(runs[id := run], Q.Enqueue(q, id, run.userId),
                      h.(created := h.created[run.userId := Of(h.created, run.userId) + [id]]))
  {
    var u := run.userId;
    var q', h' := Q.Enqueue(q, id, u), h.(created := h.created[u := Of(h.created, u) + [id]]);
    forall v ensures Conserved(h', q', v) {
      ConservedWithNew(h, q, id, u, v);
    }
    hide Q.Enqueue, Conserved;
    forall v, r | r in Of(h'.created, v) ensures r in runs[id := run] && runs[id := run][r].userId == v {
      assert r in Of(h.created, v) || (v == u && r == id);
    }
    forall v, r | r in Of(h'.leased, v) ensures runs[id := run][r].state != QUEUED {
      assert r in Of(h.leased, v);
    }
  }

  lemma ConservedWithNew(h: History, q: Q.QueueState, id: RunId, u: OwnerKey, v: OwnerKey)
    requires Conserved(h, q, v) && id !in h.withdrawn
    ensures Conserved(h.(created := h.created[u := Of(h.created, u) + [id]]), Q.Enqueue(q, id, u), v)
  {
    EnqueuedLanes(q, id, u);
    WithoutAppend(Of(h.created, u), [id], h.withdrawn);
    WithoutAbsent([id], h.withdrawn);
    hide Without, Q.Enqueue, Q.Lane;
    assert Of(h.leased, u) + (Q.Lane(q, u) + [id]) == (Of(h.leased, u) + Q.Lane(q, u)) + [id];
  }

  lemma HistoryLeases(runs: Runs, q: Q.QueueState, h: History, u: OwnerKey, run: S.Run)
    requires HistoryOk(runs, q, h) && Q.Peek(q, u).Some?
    requires Q.Peek(q, u).value in runs && run.state != QUEUED && run.userId == runs[Q.Peek(q, u).value].userId
    ensures HistoryOk(runs[Q.Peek(q, u).value := run], Q.Dequeue(q, u),
                      h.(leased := h.leased[u := Of(h.leased, u) + [Q.Peek(q, u).value]]))
  {
    hide Q.Dequeue, Without;
    var r := Q.Peek(q, u).value;
    var q', h' := Q.Dequeue(q, u), h.(leased := h.leased[u := Of(h.leased, u) + [r]]);
    Q.DequeueLanes(q, u);
    hide Q.Lane;
    forall v ensures Conserved(h', q', v) {
      assert Conserved(h, q, v);
      if v == u {
        assert Of(h.leased, u) + ([r] + Q.Lane(q', u)) == (Of(h.leased, u) + [r]) + Q.Lane(q', u);
      }
    }
    forall v, x | x in Of(h'.leased, v) ensures x in runs && runs[r := run][x].state != QUEUED {
      assert x in Of(h.leased, v) || x == r;
    }
  }

  lemma HistoryWithdraws(runs: Runs, q: Q.QueueState, h: History, r: RunId, run: S.Run)
    requires HistoryOk(runs, q, h) && QueueOk(runs, q) && InState(runs, r, QUEUED)
    requires run.state != QUEUED && run.userId == runs[r].userId
    ensures HistoryOk(runs[r := run], Q.Remove(q, r), h.(withdrawn := h.withdrawn + {r}))
  {
    var q', h' := Q.Remove(q, r), h.(withdrawn := h.withdrawn + {r});
    assert r in q.runToUser && WaitsInPlace(runs[r], q, r);
    Q.RemoveWF(q, r);
    forall v ensures Conserved(h', q', v) {
      assert Conserved(h, q, v);
      var before := Without(Of(h.created, v), h.withdrawn);
      WithoutTwice(Of(h.created, v), h.withdrawn, {r});
      WithoutAppend(Of(h.leased, v), Q.Lane(q, v), {r});
      WithoutAbsent(Of(h.leased, v), {r});
      if v == q.runToUser[r] {
        RemoveAtIsWithout(Q.Lane(q, v), Q.Locate(q, r).value);
      } else {
        Q.IndexIsScan(q, r, v);
        WithoutAbsent(Q.Lane(q, v), {r});
      }
    }
  }

  lemma HistoryKeeps(runs: Runs, q: Q.QueueState, h: History, r: RunId, run: S.Run, dropped: set<RunId>)
    requires HistoryOk(runs, q, h) && r in runs && run.state != QUEUED && run.userId == runs[r].userId
    ensures HistoryOk(runs[r := run], q, h.(dropped := dropped))
  {
    forall v ensures Conserved(h.(dropped := dropped), q, v) {
      assert Conserved(h, q, v);
    }
  }
}
