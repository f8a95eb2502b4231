/** Every atomic step of the service keeps its invariant. */
module ServiceSteps {
  import opened Collections
  import opened RunTypes
  import opened Owner
  import opened ServiceSpec
  import opened ServiceInvariant
  import MI = ManagerInvariant
  import MT = ManagerTheorems
  import S = ManagerSpec
  import Q = QueueSpec
  import L = LeaseSpec
  import T = TimeoutSpec
  import C = CancellationSpec

  lemma InitInv(cfg: S.Config)
    ensures Inv(INITIAL, cfg)
  {
    MI.InitInv(cfg, 0);
  }

  /** What the clauses say about one run. */
  lemma AboutRun(w: World, cfg: S.Config, r: RunId)
    requires Inv(w, cfg)
    ensures r in w.s.m.runs ==>
              && MI.RunOk(r, w.s.m.runs[r], cfg, w.s.now)
              && LedgerOk(w.s.m.runs[r].state, r in w.s.guard, r in w.h.dropped, r in w.h.spoofed,
                          TerminalsOf(w.s.out, r))
              && (r in w.s.listening ==> w.s.m.runs[r].state !in {QUEUED, LEASED})
    ensures r !in w.s.m.runs ==>
              && r !in w.s.guard && r !in w.h.dropped && r !in w.h.spoofed && r !in w.s.listening
              && TerminalsOf(w.s.out, r) == []
  {
    hide LoopsOk, NoLostWakeup, FlightsOk, HistoryOk, MI.QueueOk, MI.LeasesOk, MI.HoldersOk, MI.TimersOk, MI.ContextsOk;
  }

  /** What the clauses say about one loop. */
  lemma AboutLoop(w: World, cfg: S.Config, t: LoopId)
    requires Inv(w, cfg) && t in w.s.loops
    ensures StageOk(w.s.m.runs, w.s.listening, w.s.loops[t])
    ensures RunOf(w.s.loops[t]).Some? ==> RunOf(w.s.loops[t]).value !in w.h.dropped
  {
    hide NoLostWakeup, LedgersOk, HistoryOk, MI.Inv;
  }

  lemma CreateKeeps(w: World, cfg: S.Config, a: Action)
    requires Inv(w, cfg) && a.Create? && Enabled(w.s, a)
    ensures Inv(Step(w, cfg, a), cfg)
  {
    hide LoopsOk, NoLostWakeup, LedgersOk, FlightsOk, HistoryOk, MI.Inv, ListeningOk;
    hide OwnerKeyFromPrincipal, Q.Enqueue, TerminalsOf;
    var o := S.CreateRun(w.s.m, cfg, w.s.now, a.id, a.owner, a.maxDurationMs);
    if o.result.Success? {
      var run := o.result.value;
      var u := run.userId;
      var w' := Step(w, cfg, a);
      KeyNonEmpty(a.owner);
      MT.CreateKeeps(w.s.m, cfg, w.s.now, a.id, a.owner, a.maxDurationMs);
      AboutRun(w, cfg, a.id);
      if u in w.s.processing {
        LoopsKeepRuns(w.s.m.runs, o.m.runs, w.s.loops, w.s.processing, w.s.listening);
      } else {
        LoopSpawned(w.s.m.runs, o.m.runs, w.s.loops, w.s.processing, w.s.listening, a.loop, u);
        FlightsSpawned(w.s.loops, w.h.dropped, a.loop, u);
      }
      CreateWakes(w.s.m.queue, a.id, u, w.s.processing);
      SendEffect(w.s, Queued(a.id, if run.queuePosition.Some? then run.queuePosition.value else 0));
      LedgersElsewhere(w.s.m.runs, w.s.guard, w.s.out, w.h, w'.s.m.runs, w'.s.guard, w'.s.out, w'.h, a.id);
      HistoryCreates(w.s.m.runs, w.s.m.queue, w.h, a.id, run);
      ListeningKept(w.s.m.runs, w.s.listening, a.id, run);
    }
  }

  lemma FlightsSpawned(loops: map<LoopId, Loop>, dropped: set<RunId>, t: LoopId, u: OwnerKey)
    requires FlightsOk(loops, dropped)
    ensures FlightsOk(loops[t := Loop(u, AtLoop)], dropped)
  {
  }

  lemma CreateWakes(q: Q.QueueState, r: RunId, u: OwnerKey, processing: set<OwnerKey>)
    requires NoLostWakeup(q, processing)
    ensures NoLostWakeup(Q.Enqueue(q, r, u), processing + {u})
    ensures u in processing ==> NoLostWakeup(Q.Enqueue(q, r, u), processing)
  {
    forall v | Q.Lane(Q.Enqueue(q, r, u), v) != [] && v != u ensures v in processing {
      assert Q.Lane(q, v) != [];
    }
  }

  lemma ListeningKept(runs: MI.Runs, listening: set<RunId>, r: RunId, run: S.Run)
    requires ListeningOk(runs, listening)
    requires r in listening ==> run.state !in {QUEUED, LEASED}
    ensures ListeningOk(runs[r := run], listening)
  {
  }

  /** The lease never turns a loop away: it gets a run whenever one waits, and ends only when none does. */
  lemma LeaseNeverBlocks(w: World, cfg: S.Config, t: LoopId, token: Token)
    requires Inv(w, cfg) && Enabled(w.s, Turn(t, token))
    ensures var u := w.s.loops[t].owner;
            var got := S.AcquireNextRun(w.s.m, cfg, w.s.now, u, token);
            && got.result.Success?
            && (got.result.value.Some? <==> Q.Lane(w.s.m.queue, u) != [])
            && (got.result.value.Some? ==> Some(got.result.value.value.id) == Q.Peek(w.s.m.queue, u))
  {
    hide NoLostWakeup, LedgersOk, FlightsOk, HistoryOk, MI.QueueOk;
    hide MI.LeasesOk, MI.HoldersOk, MI.TimersOk, MI.ContextsOk;
    hide LoopsOk;
    var u := w.s.loops[t].owner;
    LaneFree(w.s.m.runs, w.s.m.leases, w.s.loops, w.s.processing, w.s.listening, t);
    if Q.Peek(w.s.m.queue, u).Some? {
      MI.HeadIsQueued(w.s.m.runs, w.s.m.queue, u);
      AboutRun(w, cfg, Q.Peek(w.s.m.queue, u).value);
    }
  }

  lemma TurnKeeps(w: World, cfg: S.Config, t: LoopId, token: Token)
    requires Inv(w, cfg) && Enabled(w.s, Turn(t, token))
    ensures Inv(Step(w, cfg, Turn(t, token)), cfg)
  {
    if Q.Lane(w.s.m.queue, w.s.loops[t].owner) == [] {
      TurnEnds(w, cfg, t, token);
    } else {
      TurnLeases(w, cfg, t, token);
    }
  }

  lemma TurnEnds(w: World, cfg: S.Config, t: LoopId, token: Token)
    requires Inv(w, cfg) && Enabled(w.s, Turn(t, token)) && Q.Lane(w.s.m.queue, w.s.loops[t].owner) == []
    ensures Inv(Step(w, cfg, Turn(t, token)), cfg)
  {
    hide LoopsOk, NoLostWakeup, LedgersOk, FlightsOk, HistoryOk, ListeningOk;
    hide MI.RunsOk, MI.QueueOk, MI.LeasesOk, MI.HoldersOk, MI.TimersOk, MI.ContextsOk;
    var u := w.s.loops[t].owner;
    LeaseNeverBlocks(w, cfg, t, token);
    MT.AcquireKeeps(w.s.m, cfg, w.s.now, u, token);
    LoopEnded(w.s.m.runs, w.s.loops, w.s.processing, w.s.listening, t);
    EndingLosesNothing(w.s.m.queue, w.s.processing, u);
    FlightsEnded(w.s.loops, w.h.dropped, t);
  }

  lemma TurnLeases(w: World, cfg: S.Config, t: LoopId, token: Token)
    requires Inv(w, cfg) && Enabled(w.s, Turn(t, token)) && Q.Lane(w.s.m.queue, w.s.loops[t].owner) != []
    ensures Inv(Step(w, cfg, Turn(t, token)), cfg)
  {
    hide LoopsOk, NoLostWakeup, LedgersOk, FlightsOk, HistoryOk, ListeningOk;
    hide MI.RunsOk, MI.QueueOk, MI.LeasesOk, MI.HoldersOk, MI.TimersOk, MI.ContextsOk;
    var u := w.s.loops[t].owner;
    LeaseNeverBlocks(w, cfg, t, token);
    MT.AcquireKeeps(w.s.m, cfg, w.s.now, u, token);
    var r := Q.Peek(w.s.m.queue, u).value;
    MI.HeadIsQueued(w.s.m.runs, w.s.m.queue, u);
    AboutRun(w, cfg, r);
    var run := S.Leased(w.s.m.runs[r], w.s.now, token, cfg.leaseTtlMs);
    LoopMoved(w.s.m.runs, w.s.loops, w.s.processing, w.s.listening, t, Preparing(r), r, run, w.s.listening);
    TurnWakes(w.s.m.queue, u, w.s.processing);
    LeasingLedgers(w.s.m.runs, w.s.guard, w.s.out, w.h, Of(w.h.leased, u) + [r], u, r, run);
    FlightsMoved(w.s.loops, w.h.dropped, t, Preparing(r), w.h.dropped);
    HistoryLeases(w.s.m.runs, w.s.m.queue, w.h, u, run);
    ListeningKept(w.s.m.runs, w.s.listening, r, run);
  }

  lemma LeasingLedgers(runs: MI.Runs, guard: set<RunId>, out: seq<Emission>, h: History, leased: seq<RunId>,
                       u: OwnerKey, r: RunId, run: S.Run)
    requires LedgersOk(runs, guard, out, h) && r in runs && runs[r].state == QUEUED && run.state == LEASED
    ensures LedgersOk(runs[r := run], guard, out, h.(leased := h.leased[u := leased]))
  {
    LedgersElsewhere(runs, guard, out, h, runs[r := run], guard, out, h.(leased := h.leased[u := leased]), r);
  }

  lemma EndingLosesNothing(q: Q.QueueState, processing: set<OwnerKey>, u: OwnerKey)
    requires NoLostWakeup(q, processing) && Q.Lane(q, u) == []
    ensures NoLostWakeup(q, processing - {u})
  {
  }

  lemma FlightsEnded(loops: map<LoopId, Loop>, dropped: set<RunId>, t: LoopId)
    requires FlightsOk(loops, dropped)
    ensures FlightsOk(loops - {t}, dropped)
  {
  }

  lemma TurnWakes(q: Q.QueueState, u: OwnerKey, processing: set<OwnerKey>)
    requires NoLostWakeup(q, processing)
    ensures NoLostWakeup(Q.Dequeue(q, u), processing)
  {
    Q.DequeueLanes(q, u);
    forall v | Q.Lane(Q.Dequeue(q, u), v) != [] ensures v in processing {
      assert Q.Lane(q, v) != [];
    }
  }

  lemma FlightsMoved(loops: map<LoopId, Loop>, dropped: set<RunId>, t: LoopId, stage: Stage, dropped': set<RunId>)
    requires FlightsOk(loops, dropped) && t in loops
    requires stage.AtLoop? || stage.run !in dropped'
    requires forall x :: x in loops && x != t && RunOf(loops[x]).Some? ==> RunOf(loops[x]).value !in dropped' - dropped
    ensures FlightsOk(loops[t := loops[t].(stage := stage)], dropped')
  {
  }

  /** Loops of different owners are busy with different runs. */
  lemma FlightsApart(runs: MI.Runs, loops: map<LoopId, Loop>, processing: set<OwnerKey>, listening: set<RunId>,
                     t: LoopId, x: LoopId)
    requires LoopsOk(runs, loops, processing, listening) && t in loops && x in loops
    requires RunOf(loops[t]).Some? && RunOf(loops[t]) == RunOf(loops[x])
    ensures t == x
  {
    assert StageOk(runs, listening, loops[t]) && StageOk(runs, listening, loops[x]);
  }

  /** Leaving executeRun with run r in a terminal state: m', guard' and out' are what the end of the run made. */
  lemma LeaveKeeps(w: World, cfg: S.Config, t: LoopId, r: RunId, s1: Sys)
    requires Inv(w, cfg) && t in w.s.loops && RunOf(w.s.loops[t]) == Some(r) && r in w.s.m.runs
    requires s1 == w.s.(m := s1.m, guard := s1.guard, out := s1.out)
    requires r in s1.m.runs && s1.m.runs == w.s.m.runs[r := s1.m.runs[r]] && s1.m.queue == w.s.m.queue
    requires MI.Inv(s1.m, cfg, w.s.now)
    requires IsTerminalState(s1.m.runs[r].state) && s1.m.runs[r].userId == w.s.m.runs[r].userId
    requires s1.guard - {r} == w.s.guard - {r}
    requires forall x :: x != r ==> TerminalsOf(s1.out, x) == TerminalsOf(w.s.out, x)
    requires LedgerOk(s1.m.runs[r].state, false, true, r in w.h.spoofed, TerminalsOf(s1.out, r))
    ensures Inv(World(Leave(s1, t, r), w.h.(dropped := w.h.dropped + {r})), cfg)
  {
    hide LoopsOk, NoLostWakeup, LedgersOk, FlightsOk, HistoryOk, MI.Inv, ListeningOk, TerminalsOf, LedgerOk;
    var run := s1.m.runs[r];
    AboutLoop(w, cfg, t);
    AboutRun(w, cfg, r);
    LoopMoved(w.s.m.runs, w.s.loops, w.s.processing, w.s.listening, t, AtLoop, r, run, w.s.listening);
    LedgersElsewhere(w.s.m.runs, w.s.guard, w.s.out, w.h,
                     s1.m.runs, s1.guard - {r}, s1.out, w.h.(dropped := w.h.dropped + {r}), r);
    forall x | x in w.s.loops && x != t ensures RunOf(w.s.loops[x]) != Some(r) {
      if RunOf(w.s.loops[x]) == RunOf(w.s.loops[t]) {
        FlightsApart(w.s.m.runs, w.s.loops, w.s.processing, w.s.listening, t, x);
      }
    }
    FlightsMoved(w.s.loops, w.h.dropped, t, AtLoop, w.h.dropped + {r});
    HistoryKeeps(w.s.m.runs, w.s.m.queue, w.h, r, run, w.h.dropped + {r});
    ListeningKept(w.s.m.runs, w.s.listening, r, run);
  }

  /** The catch block always gets the loop back to its top: failRun is only reached from states that
      allow FAILED, so executeRun never rejects. */
  lemma CaughtKeeps(w: World, cfg: S.Config, t: LoopId, r: RunId, error: string)
    requires Inv(w, cfg) && t in w.s.loops && RunOf(w.s.loops[t]) == Some(r)
    ensures Inv(World(Caught(w.s, t, r, error), w.h.(dropped := w.h.dropped + {r})), cfg)
    ensures t in Caught(w.s, t, r, error).loops
    ensures Caught(w.s, t, r, error).loops == w.s.loops[t := w.s.loops[t].(stage := AtLoop)]
  {
    hide LoopsOk, NoLostWakeup, LedgersOk, FlightsOk, HistoryOk, MI.Inv, ListeningOk, Inv;
    AboutLoop(w, cfg, t);
    AboutRun(w, cfg, r);
    if Aborted(w.s.m, r) {
      assert w.s.m.runs[r := w.s.m.runs[r]] == w.s.m.runs;
      ManagerPart(w, cfg);
      LeaveKeeps(w, cfg, t, r, w.s);
    } else {
      FinishAndLeaveKeeps(w, cfg, t, r, FAILED, Some(error), None, RunFailed);
    }
  }

  lemma ManagerPart(w: World, cfg: S.Config)
    requires Inv(w, cfg)
    ensures MI.Inv(w.s.m, cfg, w.s.now)
  {
  }

  /** Completing or failing the run, telling the clients once, closing the stream. */
  lemma FinishAndLeaveKeeps(w: World, cfg: S.Config, t: LoopId, r: RunId, to: RunState, error: Option<string>,
                            messages: Option<seq<string>>, kind: TerminalKind)
    requires Inv(w, cfg) && t in w.s.loops && RunOf(w.s.loops[t]) == Some(r) && r in w.s.m.runs
    requires to in {COMPLETED, FAILED} && IsValidStateTransition(w.s.m.runs[r].state, to) && KindOf(to) == Some(kind)
    ensures var o := S.Finish(w.s.m, w.s.now, r, to, error, messages);
            var s1 := Send(EmitTerminalOnce(w.s.(m := o.m), r, kind), Closed(r));
            && o.result.Success?
            && TerminalsOf(s1.out, r) == [kind]
            && Inv(World(Leave(s1, t, r), w.h.(dropped := w.h.dropped + {r})), cfg)
  {
    hide LoopsOk, NoLostWakeup, LedgersOk, FlightsOk, HistoryOk, MI.Inv, ListeningOk, Inv;
    hide S.Finish, S.Transitioned, TerminalsOf;
    var o := S.Finish(w.s.m, w.s.now, r, to, error, messages);
    var s0 := w.s.(m := o.m);
    AboutLoop(w, cfg, t);
    AboutRun(w, cfg, r);
    ManagerPart(w, cfg);
    MT.FinishKeeps(w.s.m, cfg, w.s.now, r, to, error, messages);
    EmitOnceEffect(s0, r, kind);
    SendEffect(EmitTerminalOnce(s0, r, kind), Closed(r));
    FinishShape(w.s.m, w.s.now, r, to, error, messages);
    LeaveKeeps(w, cfg, t, r, Send(EmitTerminalOnce(s0, r, kind), Closed(r)));
  }

  lemma FinishShape(m: S.Manager, now: Time, r: RunId, to: RunState, error: Option<string>,
                    messages: Option<seq<string>>)
    requires r in m.runs && to in {COMPLETED, FAILED} && IsValidStateTransition(m.runs[r].state, to)
    ensures var m' := S.Finish(m, now, r, to, error, messages).m;
            var run := S.Transitioned(m.runs[r], now, to, error, messages);
            && m'.queue == m.queue && m'.runs == m.runs[r := run]
            && run.state == to && run.userId == m.runs[r].userId
  {
  }

  lemma WorkspaceKeeps(w: World, cfg: S.Config, t: LoopId, error: Option<string>)
    requires Inv(w, cfg) && Enabled(w.s, Workspace(t, error))
    ensures Inv(Step(w, cfg, Workspace(t, error)), cfg)
  {
    hide LoopsOk, NoLostWakeup, LedgersOk, FlightsOk, HistoryOk, MI.Inv, ListeningOk, Inv;
    hide Caught, TerminalsOf, S.StartRun;
    var r := w.s.loops[t].stage.run;
    AboutLoop(w, cfg, t);
    ManagerPart(w, cfg);
    MT.StartKeeps(w.s.m, cfg, w.s.now, r);
    if error.Some? {
      CaughtKeeps(w, cfg, t, r, error.value);
    } else if w.s.m.runs[r].state != LEASED {
      StartRefused(w.s.m, w.s.now, r);
      CaughtKeeps(w, cfg, t, r, TRANSITION_REFUSED);
    } else {
      StartedKeeps(w, cfg, t, r);
    }
  }

  lemma StartRefused(m: S.Manager, now: Time, r: RunId)
    requires r in m.runs && !IsValidStateTransition(m.runs[r].state, RUNNING)
    ensures S.StartRun(m, now, r).m == m && S.StartRun(m, now, r).result.Failure?
  {
  }

  lemma StartShape(m: S.Manager, now: Time, r: RunId)
    requires r in m.runs && m.runs[r].state == LEASED
    ensures var o := S.StartRun(m, now, r);
            var run := S.Transitioned(m.runs[r], now, RUNNING, None, None);
            && o.result == Success(run) && o.m.queue == m.queue && o.m.runs == m.runs[r := run] && r in o.m.contexts
            && run.state == RUNNING && run.userId == m.runs[r].userId
  {
  }

  lemma StartedKeeps(w: World, cfg: S.Config, t: LoopId, r: RunId)
    requires Inv(w, cfg) && t in w.s.loops && w.s.loops[t].stage == Preparing(r)
    requires MI.InState(w.s.m.runs, r, LEASED)
    ensures Inv(Step(w, cfg, Workspace(t, None)), cfg)
  {
    hide LoopsOk, NoLostWakeup, LedgersOk, FlightsOk, HistoryOk, MI.Inv, ListeningOk;
    hide TerminalsOf, S.StartRun, S.Transitioned;
    AboutLoop(w, cfg, t);
    AboutRun(w, cfg, r);
    MT.StartKeeps(w.s.m, cfg, w.s.now, r);
    StartShape(w.s.m, w.s.now, r);
    var o := S.StartRun(w.s.m, w.s.now, r);
    var run := o.result.value;
    SendEffect(w.s.(m := o.m), Started(r));
    LoopMoved(w.s.m.runs, w.s.loops, w.s.processing, w.s.listening, t, Loading(r, true), r, run, w.s.listening);
    LedgersElsewhere(w.s.m.runs, w.s.guard, w.s.out, w.h, o.m.runs, w.s.guard, w.s.out + [Started(r)], w.h, r);
    FlightsMoved(w.s.loops, w.h.dropped, t, Loading(r, true), w.h.dropped);
    HistoryKeeps(w.s.m.runs, w.s.m.queue, w.h, r, run, w.h.dropped);
    ListeningKept(w.s.m.runs, w.s.listening, r, run);
  }

  lemma LoadKeeps(w: World, cfg: S.Config, t: LoopId, error: Option<string>)
    requires Inv(w, cfg) && Enabled(w.s, Load(t, error))
    ensures Inv(Step(w, cfg, Load(t, error)), cfg)
  {
    hide LoopsOk, NoLostWakeup, LedgersOk, FlightsOk, HistoryOk, MI.Inv, ListeningOk;
    hide Caught, TerminalsOf;
    var r := w.s.loops[t].stage.run;
    AboutLoop(w, cfg, t);
    if error.Some? {
      CaughtKeeps(w, cfg, t, r, error.value);
    } else {
      var run := w.s.m.runs[r];
      assert w.s.m.runs[r := run] == w.s.m.runs;
      LoopMoved(w.s.m.runs, w.s.loops, w.s.processing, w.s.listening, t, Prompting(r), r, run, w.s.listening + {r});
      FlightsMoved(w.s.loops, w.h.dropped, t, Prompting(r), w.h.dropped);
      ListeningAdded(w.s.m.runs, w.s.listening, r);
    }
  }

  lemma ListeningAdded(runs: MI.Runs, listening: set<RunId>, r: RunId)
    requires ListeningOk(runs, listening) && r in runs && runs[r].state !in {QUEUED, LEASED}
    ensures ListeningOk(runs, listening + {r})
  {
  }

  lemma SubscriptionsAside(w: World, cfg: S.Config, subscribed: set<RunId>)
    requires Inv(w, cfg)
    ensures Inv(w.(s := w.s.(subscribed := subscribed)), cfg)
  {
    hide LoopsOk, NoLostWakeup, LedgersOk, FlightsOk, HistoryOk, MI.Inv, ListeningOk;
  }

  lemma SettleKeeps(w: World, cfg: S.Config, t: LoopId, outcome: Result<seq<string>, string>)
    requires Inv(w, cfg) && Enabled(w.s, Settle(t, outcome))
    ensures Inv(Step(w, cfg, Settle(t, outcome)), cfg)
  {
    var r := w.s.loops[t].stage.run;
    hide Inv, AfterPrompt;
    AfterPromptKeeps(w, cfg, t, outcome);
    SubscriptionsAside(World(AfterPrompt(w.s, t, outcome), w.h.(dropped := w.h.dropped + {r})), cfg,
                       Next(w.s, cfg, Settle(t, outcome)).subscribed);
  }

  lemma AfterPromptKeeps(w: World, cfg: S.Config, t: LoopId, outcome: Result<seq<string>, string>)
    requires Inv(w, cfg) && Enabled(w.s, Settle(t, outcome))
    ensures Inv(World(AfterPrompt(w.s, t, outcome), w.h.(dropped := w.h.dropped + {w.s.loops[t].stage.run})), cfg)
    ensures t in AfterPrompt(w.s, t, outcome).loops && AfterPrompt(w.s, t, outcome).loops[t].stage == AtLoop
  {
    hide LoopsOk, NoLostWakeup, LedgersOk, FlightsOk, HistoryOk, MI.Inv, ListeningOk, Inv;
    hide Caught, TerminalsOf, S.Finish;
    var r := w.s.loops[t].stage.run;
    AboutLoop(w, cfg, t);
    if outcome.Failure? {
      CaughtKeeps(w, cfg, t, r, outcome.error);
    } else if Aborted(w.s.m, r) {
      AboutRun(w, cfg, r);
      ManagerPart(w, cfg);
      SendEffect(w.s, Closed(r));
      assert w.s.m.runs[r := w.s.m.runs[r]] == w.s.m.runs;
      LeaveKeeps(w, cfg, t, r, Send(w.s, Closed(r)));
    } else {
      FinishAndLeaveKeeps(w, cfg, t, r, COMPLETED, None, Some(outcome.value), RunCompleted);
    }
  }

  lemma AgentEventKeeps(w: World, cfg: S.Config, r: RunId)
    requires Inv(w, cfg) && Enabled(w.s, AgentEvent(r))
    ensures Inv(Step(w, cfg, AgentEvent(r)), cfg)
  {
    hide LoopsOk, NoLostWakeup, FlightsOk, HistoryOk, MI.Inv, ListeningOk, TerminalsOf;
    SendEffect(w.s, Agent(r));
  }

  /** A run is aborted, wherever its loop is: s1 is the state once the terminal event, if any, is out. */
  lemma AbortedKeeps(w: World, cfg: S.Config, r: RunId, s1: Sys, withdrawn: set<RunId>, spoofed: set<RunId>)
    requires Inv(w, cfg) && r in w.s.m.runs && !IsTerminalState(w.s.m.runs[r].state)
    requires s1 == w.s.(m := s1.m, guard := s1.guard, out := s1.out)
    requires r in s1.m.runs && s1.m.runs == w.s.m.runs[r := s1.m.runs[r]]
    requires s1.m.runs[r].userId == w.s.m.runs[r].userId
    requires s1.m.runs[r].state == CANCELLED || (s1.m.runs[r].state == TIMED_OUT && w.s.m.runs[r].state == RUNNING)
    requires MI.Inv(s1.m, cfg, w.s.now)
    requires if w.s.m.runs[r].state == QUEUED
             then s1.m.queue == Q.Remove(w.s.m.queue, r) && withdrawn == w.h.withdrawn + {r}
             else s1.m.queue == w.s.m.queue && withdrawn == w.h.withdrawn
    requires s1.guard - {r} == w.s.guard - {r} && spoofed - {r} == w.h.spoofed - {r}
    requires forall x :: x != r ==> TerminalsOf(s1.out, x) == TerminalsOf(w.s.out, x)
    requires LedgerOk(s1.m.runs[r].state, r in s1.guard, false, r in spoofed, TerminalsOf(s1.out, r))
    ensures Inv(World(s1, w.h.(withdrawn := withdrawn, spoofed := spoofed)), cfg)
  {
    hide LoopsOk, NoLostWakeup, LedgersOk, FlightsOk, HistoryOk, MI.Inv, ListeningOk, TerminalsOf, Q.Remove;
    var run := s1.m.runs[r];
    AboutRun(w, cfg, r);
    forall x | x != r ensures x in s1.guard <==> x in w.s.guard ensures x in spoofed <==> x in w.h.spoofed {
      assert x in s1.guard - {r} <==> x in w.s.guard - {r};
      assert x in spoofed - {r} <==> x in w.h.spoofed - {r};
    }
    LoopsSeeAbort(w.s.m.runs, w.s.loops, w.s.processing, w.s.listening, r, run);
    LedgersElsewhere(w.s.m.runs, w.s.guard, w.s.out, w.h, s1.m.runs, s1.guard, s1.out,
                     w.h.(withdrawn := withdrawn, spoofed := spoofed), r);
    ListeningKept(w.s.m.runs, w.s.listening, r, run);
    AbortHistory(w, cfg, r, run, spoofed);
  }

  lemma AbortHistory(w: World, cfg: S.Config, r: RunId, run: S.Run, spoofed: set<RunId>)
    requires Inv(w, cfg) && r in w.s.m.runs && run.state != QUEUED && run.userId == w.s.m.runs[r].userId
    ensures w.s.m.runs[r].state == QUEUED ==>
              && NoLostWakeup(Q.Remove(w.s.m.queue, r), w.s.processing)
              && HistoryOk(w.s.m.runs[r := run], Q.Remove(w.s.m.queue, r),
                           w.h.(withdrawn := w.h.withdrawn + {r}, spoofed := spoofed))
    ensures HistoryOk(w.s.m.runs[r := run], w.s.m.queue, w.h.(spoofed := spoofed)) || w.s.m.runs[r].state == QUEUED
  {
    hide LoopsOk, NoLostWakeup, LedgersOk, FlightsOk, HistoryOk, MI.Inv, ListeningOk, Q.Remove;
    HistoryAside(w.s.m.runs, w.s.m.queue, w.h, w.h.dropped, spoofed);
    var h := w.h.(spoofed := spoofed);
    if w.s.m.runs[r].state == QUEUED {
      ManagerPart(w, cfg);
      MI.QueuePart(w.s.m, cfg, w.s.now);
      HistoryWithdraws(w.s.m.runs, w.s.m.queue, h, r, run);
      RemovalWakes(w.s.m.runs, w.s.m.queue, r, w.s.processing);
    } else {
      HistoryKeeps(w.s.m.runs, w.s.m.queue, h, r, run, h.dropped);
    }
  }

  lemma HistoryAside(runs: MI.Runs, q: Q.QueueState, h: History, dropped: set<RunId>, spoofed: set<RunId>)
    requires HistoryOk(runs, q, h)
    ensures HistoryOk(runs, q, h.(dropped := dropped, spoofed := spoofed))
  {
    forall u ensures Conserved(h.(dropped := dropped, spoofed := spoofed), q, u) {
      assert Conserved(h, q, u);
    }
  }

  lemma RemovalWakes(runs: MI.Runs, q: Q.QueueState, r: RunId, processing: set<OwnerKey>)
    requires MI.QueueOk(runs, q) && NoLostWakeup(q, processing)
    ensures NoLostWakeup(Q.Remove(q, r), processing)
  {
    Q.RemoveWF(q, r);
  }

  /** What cancelling an unfinished run does to the manager, in the terms the service needs. */
  lemma CancelShape(m: S.Manager, now: Time, r: RunId, reason: Option<string>)
    requires r in m.runs && !IsTerminalState(m.runs[r].state)
    ensures var o := S.CancelRun(m, now, r, reason);
            && o.result.Success? && o.result.value.state == CANCELLED
            && r in o.m.runs && o.m.runs == m.runs[r := o.m.runs[r]]
            && o.m.runs[r].state == CANCELLED && o.m.runs[r].userId == m.runs[r].userId
            && o.m.queue == (if m.runs[r].state == QUEUED then Q.Remove(m.queue, r) else m.queue)
  {
    hide Q.Remove, L.Release, C.Cancel, C.AbortEvent, T.Clear;
  }

  lemma CancelKeeps(w: World, cfg: S.Config, id: RunId, owner: OwnerPrincipal, reason: Option<string>)
    requires Inv(w, cfg)
    ensures Inv(Step(w, cfg, Cancel(id, owner, reason)), cfg)
  {
    hide LoopsOk, NoLostWakeup, LedgersOk, FlightsOk, HistoryOk, MI.Inv, ListeningOk, Inv, TerminalsOf, S.CancelRun;
    if MayCancel(w.s, id, owner) {
      AboutRun(w, cfg, id);
      ManagerPart(w, cfg);
      if IsTerminalState(w.s.m.runs[id].state) {
        CancelledAgainKeeps(w, cfg, id, owner, reason);
      } else {
        CancelShape(w.s.m, w.s.now, id, reason);
        MT.CancelKeeps(w.s.m, cfg, w.s.now, id, reason);
        var s0 := w.s.(m := S.CancelRun(w.s.m, w.s.now, id, reason).m);
        EmitOnceEffect(s0, id, RunTimedOut);
        EmitOnceEffect(s0, id, RunCancelled);
        var s1 := CancelStep(w.s, id, owner, reason);
        assert |"user_cancelled"| != |"timeout"|;
        AbortedKeeps(w, cfg, id, s1,
                     if w.s.m.runs[id].state == QUEUED then w.h.withdrawn + {id} else w.h.withdrawn,
                     if Spoofs(w.s, id, owner, reason) then w.h.spoofed + {id} else w.h.spoofed);
      }
    }
  }

  /** Cancelling a finished run changes nothing but, for a CANCELLED run whose guard is gone, one more event. */
  lemma CancelledAgainKeeps(w: World, cfg: S.Config, id: RunId, owner: OwnerPrincipal, reason: Option<string>)
    requires Inv(w, cfg) && MayCancel(w.s, id, owner) && IsTerminalState(w.s.m.runs[id].state)
    ensures Inv(Step(w, cfg, Cancel(id, owner, reason)), cfg)
  {
    hide LoopsOk, NoLostWakeup, LedgersOk, FlightsOk, HistoryOk, MI.Inv, ListeningOk, TerminalsOf;
    AboutRun(w, cfg, id);
    if w.s.m.runs[id].state == CANCELLED {
      EmitOnceEffect(w.s, id, RunCancelled);
      var s1 := EmitTerminalOnce(w.s, id, RunCancelled);
      LedgersElsewhere(w.s.m.runs, w.s.guard, w.s.out, w.h, w.s.m.runs, s1.guard, s1.out, w.h, id);
    }
  }

  lemma FireShape(m: S.Manager, now: Time, r: RunId)
    requires r in m.runs && m.runs[r].state == RUNNING
    ensures var m' := S.FireTimeout(m, now, r).m;
            && r in m'.runs && m'.runs == m.runs[r := m'.runs[r]] && m'.queue == m.queue
            && m'.runs[r].state == TIMED_OUT && m'.runs[r].userId == m.runs[r].userId
  {
  }

  lemma FireKeeps(w: World, cfg: S.Config, id: RunId)
    requires Inv(w, cfg) && Enabled(w.s, Fire(id))
    ensures Inv(Step(w, cfg, Fire(id)), cfg)
    ensures MI.InState(w.s.m.runs, id, RUNNING)
    ensures Next(w.s, cfg, Fire(id)) == OnAbort(w.s.(m := S.FireTimeout(w.s.m, w.s.now, id).m), id, Some("timeout"))
  {
    hide LoopsOk, NoLostWakeup, LedgersOk, FlightsOk, HistoryOk, MI.Inv, ListeningOk, Inv, TerminalsOf, S.FireTimeout;
    ManagerPart(w, cfg);
    AboutRun(w, cfg, id);
    MT.FireKeeps(w.s.m, cfg, w.s.now, id);
    FireShape(w.s.m, w.s.now, id);
    EmitOnceEffect(w.s.(m := S.FireTimeout(w.s.m, w.s.now, id).m), id, RunTimedOut);
    AbortedKeeps(w, cfg, id, FireStep(w.s, id), w.h.withdrawn, w.h.spoofed);
  }

  lemma QuietKeeps(w: World, cfg: S.Config, a: Action)
    requires Inv(w, cfg) && (a.Sweep? || a.Wait?)
    ensures Inv(Step(w, cfg, a), cfg)
  {
    hide LoopsOk, NoLostWakeup, LedgersOk, FlightsOk, HistoryOk, MI.Inv, ListeningOk;
    if a.Sweep? {
      MT.SweepKeeps(w.s.m, cfg, w.s.now, L.CleanupOp);
    } else {
      MI.ClockAdvances(w.s.m, cfg, w.s.now, w.s.now + a.ms);
    }
  }

  lemma StepKeeps(w: World, cfg: S.Config, a: Action)
    requires Inv(w, cfg) && Enabled(w.s, a)
    ensures Inv(Step(w, cfg, a), cfg)
  {
    hide Inv, Step;
    match a
    case Create(_, _, _, _) => CreateKeeps(w, cfg, a);
    case Turn(t, token) => TurnKeeps(w, cfg, t, token);
    case Workspace(t, error) => WorkspaceKeeps(w, cfg, t, error);
    case Load(t, error) => LoadKeeps(w, cfg, t, error);
    case Settle(t, outcome) => SettleKeeps(w, cfg, t, outcome);
    case AgentEvent(r) => AgentEventKeeps(w, cfg, r);
    case Cancel(id, owner, reason) => CancelKeeps(w, cfg, id, owner, reason);
    case Fire(id) => FireKeeps(w, cfg, id);
    case Sweep => QuietKeeps(w, cfg, a);
    case Wait(_) => QuietKeeps(w, cfg, a);
  }

  /** The invariant holds in every reachable state. */
  lemma {:induction false} RunKeeps(w: World, cfg: S.Config, actions: seq<Action>)
    requires Inv(w, cfg) && Possible(w, cfg, actions)
    ensures Inv(After(w, cfg, actions), cfg)
    decreases |actions|
  {
    hide Inv, Step;
    if actions != [] {
      StepKeeps(w, cfg, actions[0]);
      RunKeeps(Step(w, cfg, actions[0]), cfg, actions[1..]);
    }
  }
}
