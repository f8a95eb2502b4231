/** What the service guarantees in every reachable state and over every run. */
module ServiceTheorems {
  import opened Collections
  import opened RunTypes
  import opened Owner
  import opened ServiceSpec
  import opened ServiceInvariant
  import opened ServiceSteps
  import MI = ManagerInvariant
  import MT = ManagerTheorems
  import S = ManagerSpec
  import Q = QueueSpec
  import L = LeaseSpec
  import T = TimeoutSpec

  lemma ReachableInv(cfg: S.Config, actions: seq<Action>)
    requires Possible(INITIAL, cfg, actions)
    ensures Inv(After(INITIAL, cfg, actions), cfg)
  {
    InitInv(cfg);
    RunKeeps(INITIAL, cfg, actions);
  }

  // Serialization.

  /** Whatever the interleaving, and even after leases have expired or were released early by a cancel
      or a timeout: an owner never has two executions in flight, nor two LEASED or RUNNING runs. */
  lemma OneActiveRunPerOwner(cfg: S.Config, actions: seq<Action>)
    requires Possible(INITIAL, cfg, actions)
    ensures var s := After(INITIAL, cfg, actions).s;
            && (forall t, x :: t in s.loops && x in s.loops && s.loops[t].owner == s.loops[x].owner ==> t == x)
            && (forall r, x :: Rivals(s.m.runs, r, x) ==> r == x)
  {
    ReachableInv(cfg, actions);
    var w := After(INITIAL, cfg, actions);
    forall r, x | Rivals(w.s.m.runs, r, x) ensures r == x
    {
      OneActive(w.s.m.runs, w.s.loops, w.s.processing, w.s.listening, r, x);
    }
  }

  predicate Rivals(runs: MI.Runs, r: RunId, x: RunId) {
    MI.Active(runs, r) && MI.Active(runs, x) && runs[r].userId == runs[x].userId
  }

  lemma OneActive(runs: MI.Runs, loops: map<LoopId, Loop>, processing: set<OwnerKey>, listening: set<RunId>,
                  r: RunId, x: RunId)
    requires LoopsOk(runs, loops, processing, listening)
    requires Rivals(runs, r, x)
    ensures r == x
  {
    var t :| t in loops && Drives(loops[t], r);
    var y :| y in loops && Drives(loops[y], x);
    assert StageOk(runs, listening, loops[t]) && StageOk(runs, listening, loops[y]);
  }

  /** No wake-up is lost: a run waits only while its owner's loop is alive. */
  lemma WaitingMeansLooping(cfg: S.Config, actions: seq<Action>, r: RunId)
    requires Possible(INITIAL, cfg, actions)
    requires MI.InState(After(INITIAL, cfg, actions).s.m.runs, r, QUEUED)
    ensures var s := After(INITIAL, cfg, actions).s;
            s.m.runs[r].userId in s.processing && LaneTaken(s.loops, s.m.runs[r].userId)
  {
    ReachableInv(cfg, actions);
    var w := After(INITIAL, cfg, actions);
    QueuedHasLoop(w, cfg, r);
  }

  lemma QueuedHasLoop(w: World, cfg: S.Config, r: RunId)
    requires Inv(w, cfg) && MI.InState(w.s.m.runs, r, QUEUED)
    ensures w.s.m.runs[r].userId in w.s.processing && LaneTaken(w.s.loops, w.s.m.runs[r].userId)
  {
    hide LedgersOk, FlightsOk, HistoryOk, MI.Inv, ListeningOk;
    ManagerPart(w, cfg);
    MI.QueuePart(w.s.m, cfg, w.s.now);
    assert r in w.s.m.queue.runToUser;
    assert MI.WaitsInPlace(w.s.m.runs[r], w.s.m.queue, r);
    Q.IndexIsScan(w.s.m.queue, r, w.s.m.runs[r].userId);
  }

  // Progress.

  function StageRank(stage: Stage): nat {
    match stage
    case AtLoop => 1
    case Prompting(_) => 2
    case Loading(_, _) => 3
    case Preparing(_) => 4
  }

  /** The stages left of the loop that serves owner u; t is that loop if there is one. */
  ghost function LoopRank(loops: map<LoopId, Loop>, u: OwnerKey): nat {
    if LaneTaken(loops, u) then
      var t :| t in loops && loops[t].owner == u;
      StageRank(loops[t].stage)
    else 0
  }

  /** Executor steps an owner still needs, at most: four per waiting run and what is left of the current one. */
  ghost function Measure(s: Sys, u: OwnerKey): nat {
    4 * |Q.Lane(s.m.queue, u)| + LoopRank(s.loops, u)
  }

  /** With one loop per owner the rank is that loop's. */
  lemma RankIs(loops: map<LoopId, Loop>, t: LoopId)
    requires t in loops
    requires forall x :: x in loops && loops[x].owner == loops[t].owner ==> x == t
    ensures LoopRank(loops, loops[t].owner) == StageRank(loops[t].stage)
  {
    assert LaneTaken(loops, loops[t].owner);
  }

  /** Loops of other owners do not count. */
  lemma RankElsewhere(loops: map<LoopId, Loop>, loops': map<LoopId, Loop>, u: OwnerKey)
    requires forall t, x :: t in loops && x in loops && loops[t].owner == loops[x].owner ==> t == x
    requires forall t, x :: t in loops' && x in loops' && loops'[t].owner == loops'[x].owner ==> t == x
    requires forall t :: (t in loops && loops[t].owner == u) <==> (t in loops' && loops'[t].owner == u)
    requires forall t :: t in loops && loops[t].owner == u ==> loops'[t] == loops[t]
    ensures LoopRank(loops, u) == LoopRank(loops', u)
  {
    if LaneTaken(loops, u) {
      var t :| t in loops && loops[t].owner == u;
      RankIs(loops, t);
      RankIs(loops', t);
    } else {
      assert !LaneTaken(loops', u);
    }
  }

  predicate LoopGoesOn(s: Sys, s': Sys, t: LoopId, turned: bool)
    requires t in s.loops && t in s'.loops
  {
    var u := s.loops[t].owner;
    && s'.loops == s.loops[t := s'.loops[t]] && s'.loops[t].owner == u
    && |Q.Lane(s.m.queue, u)| == |Q.Lane(s'.m.queue, u)| + (if turned then 1 else 0)
    && (turned || StageRank(s'.loops[t].stage) < StageRank(s.loops[t].stage))
  }

  /** What a step of loop t does to its own owner's lane and loop, and to nothing else. */
  lemma ExecutorStep(w: World, cfg: S.Config, a: Action, t: LoopId)
    requires Inv(w, cfg) && Enabled(w.s, a) && Executes(a, t)
    ensures var s, s' := w.s, Next(w.s, cfg, a);
            var u := s.loops[t].owner;
            && (t in s'.loops ==> LoopGoesOn(s, s', t, a.Turn?))
            && (t !in s'.loops ==>
                  s'.loops == s.loops - {t} && a.Turn? && Q.Lane(s.m.queue, u) == [] && Q.Lane(s'.m.queue, u) == [])
            && (forall v :: v != u ==> Q.Lane(s'.m.queue, v) == Q.Lane(s.m.queue, v))
  {
    hide LoopsOk, NoLostWakeup, LedgersOk, FlightsOk, HistoryOk, MI.Inv, ListeningOk, Inv, TerminalsOf;
    AboutLoop(w, cfg, t);
    match a
    case Turn(_, token) =>
      LeaseNeverBlocks(w, cfg, t, token);
      Q.DequeueLanes(w.s.m.queue, w.s.loops[t].owner);
    case Workspace(_, error) => WorkspaceStays(w, cfg, t, error);
    case Load(_, error) =>
      if error.Some? { CaughtStays(w, cfg, t, error.value); }
    case Settle(_, outcome) => SettleStays(w, cfg, t, outcome);
  }

  predicate Executes(a: Action, t: LoopId) {
    (a.Turn? || a.Workspace? || a.Load? || a.Settle?) && a.loop == t
  }

  lemma CaughtStays(w: World, cfg: S.Config, t: LoopId, error: string)
    requires Inv(w, cfg) && t in w.s.loops && RunOf(w.s.loops[t]).Some?
    ensures var s' := Caught(w.s, t, w.s.loops[t].stage.run, error);
            s'.loops == w.s.loops[t := w.s.loops[t].(stage := AtLoop)] && s'.m.queue == w.s.m.queue
  {
    hide LoopsOk, NoLostWakeup, LedgersOk, FlightsOk, HistoryOk, MI.Inv, ListeningOk, Inv, TerminalsOf;
    CaughtKeeps(w, cfg, t, w.s.loops[t].stage.run, error);
  }

  lemma WorkspaceStays(w: World, cfg: S.Config, t: LoopId, error: Option<string>)
    requires Inv(w, cfg) && Enabled(w.s, Workspace(t, error))
    ensures var s' := WorkspaceStep(w.s, t, error);
            && s'.loops.Keys == w.s.loops.Keys && s'.loops == w.s.loops[t := s'.loops[t]]
            && s'.loops[t].owner == w.s.loops[t].owner && !s'.loops[t].stage.Preparing?
            && s'.m.queue == w.s.m.queue
  {
    hide LoopsOk, NoLostWakeup, LedgersOk, FlightsOk, HistoryOk, MI.Inv;
    hide ListeningOk, Inv, TerminalsOf, S.StartRun, Caught;
    var r := w.s.loops[t].stage.run;
    AboutLoop(w, cfg, t);
    CaughtStays(w, cfg, t, if error.Some? then error.value else TRANSITION_REFUSED);
    if w.s.m.runs[r].state == LEASED {
      StartShape(w.s.m, w.s.now, r);
    } else {
      StartRefused(w.s.m, w.s.now, r);
    }
  }

  lemma SettleStays(w: World, cfg: S.Config, t: LoopId, outcome: Result<seq<string>, string>)
    requires Inv(w, cfg) && Enabled(w.s, Settle(t, outcome))
    ensures var s' := SettleStep(w.s, t, outcome);
            s'.loops == w.s.loops[t := w.s.loops[t].(stage := AtLoop)] && s'.m.queue == w.s.m.queue
  {
    hide LoopsOk, NoLostWakeup, LedgersOk, FlightsOk, HistoryOk, MI.Inv;
    hide ListeningOk, Inv, TerminalsOf, S.Finish, Caught;
    var r := w.s.loops[t].stage.run;
    AboutLoop(w, cfg, t);
    if outcome.Failure? {
      CaughtStays(w, cfg, t, outcome.error);
    } else if !Aborted(w.s.m, r) {
      FinishAndLeaveKeeps(w, cfg, t, r, COMPLETED, None, Some(outcome.value), RunCompleted);
      FinishShape(w.s.m, w.s.now, r, COMPLETED, None, Some(outcome.value));
    }
  }

  /** executeRun never rejects and the loop is never turned away: a loop ends only at its top,
      and only when its owner has nothing waiting. */
  lemma LoopEndsOnlyWhenIdle(w: World, cfg: S.Config, a: Action, t: LoopId)
    requires Inv(w, cfg) && Enabled(w.s, a) && t in w.s.loops && t !in Next(w.s, cfg, a).loops
    ensures a.Turn? && a.loop == t && Q.Lane(w.s.m.queue, w.s.loops[t].owner) == []
  {
    hide LoopsOk, NoLostWakeup, LedgersOk, FlightsOk, HistoryOk, MI.Inv, ListeningOk, Inv, TerminalsOf;
    if a.Turn? || a.Workspace? || a.Load? || a.Settle? {
      ExecutorStep(w, cfg, a, a.loop);
    }
  }

  /** So when an owner's loop ends, every run of that owner has ended. */
  lemma LoopEndMeansDone(w: World, cfg: S.Config, a: Action, t: LoopId, r: RunId)
    requires Inv(w, cfg) && Enabled(w.s, a) && t in w.s.loops && t !in Next(w.s, cfg, a).loops
    requires var m' := Next(w.s, cfg, a).m; r in m'.runs && m'.runs[r].userId == w.s.loops[t].owner
    ensures IsTerminalState(Next(w.s, cfg, a).m.runs[r].state)
  {
    hide Inv, Next, Record, LoopRank;
    LoopEndsOnlyWhenIdle(w, cfg, a, t);
    ExecutorStep(w, cfg, a, t);
    StepKeeps(w, cfg, a);
    DistinctLoops(w, cfg);
    NoRank(Next(w.s, cfg, a).loops, w.s.loops[t].owner);
    DrainedMeansTerminal(Step(w, cfg, a), cfg, w.s.loops[t].owner, r);
  }

  lemma DistinctLoops(w: World, cfg: S.Config)
    requires Inv(w, cfg)
    ensures forall t, x :: t in w.s.loops && x in w.s.loops && w.s.loops[t].owner == w.s.loops[x].owner ==> t == x
  {
    hide NoLostWakeup, LedgersOk, FlightsOk, HistoryOk, MI.Inv, ListeningOk;
  }

  /** Every step of an owner's loop brings the owner nearer to being done... */
  lemma ExecutorStepsDecrease(w: World, cfg: S.Config, a: Action, t: LoopId)
    requires Inv(w, cfg) && Enabled(w.s, a) && Executes(a, t)
    ensures Measure(Next(w.s, cfg, a), w.s.loops[t].owner) < Measure(w.s, w.s.loops[t].owner)
    ensures forall v :: v != w.s.loops[t].owner ==> Measure(Next(w.s, cfg, a), v) == Measure(w.s, v)
  {
    hide Inv, Next, LoopRank;
    var s, s' := w.s, Next(w.s, cfg, a);
    var u := s.loops[t].owner;
    ExecutorStep(w, cfg, a, t);
    StepKeeps(w, cfg, a);
    DistinctLoops(w, cfg);
    DistinctLoops(Step(w, cfg, a), cfg);
    RankIs(s.loops, t);
    if t in s'.loops {
      RankIs(s'.loops, t);
    } else {
      NoRank(s'.loops, u);
    }
    forall v | v != u ensures Measure(s', v) == Measure(s, v) {
      RankElsewhere(s.loops, s'.loops, v);
    }
  }

  lemma NoRank(loops: map<LoopId, Loop>, u: OwnerKey)
    requires forall t :: t in loops ==> loops[t].owner != u
    ensures LoopRank(loops, u) == 0
  {
  }

  /** ...and nothing but a new run of that owner takes it further away. */
  lemma OtherStepsDoNotIncrease(w: World, cfg: S.Config, a: Action, u: OwnerKey)
    requires Inv(w, cfg) && Enabled(w.s, a)
    requires a.Create? ==> OwnerKeyFromPrincipal(a.owner) != Some(u)
    requires !(a.Turn? || a.Workspace? || a.Load? || a.Settle?)
    ensures Measure(Next(w.s, cfg, a), u) <= Measure(w.s, u)
  {
    hide Inv, MI.Inv, MI.QueueOk, LoopRank, TerminalsOf, OwnerKeyFromPrincipal;
    hide S.CreateRun, S.CancelRun, S.FireTimeout, Possible, After;
    match a
    case Create(id, owner, max, t) =>
      DistinctLoops(w, cfg);
      StepKeeps(w, cfg, a);
      DistinctLoops(Step(w, cfg, a), cfg);
      CreateElsewhere(w.s, cfg, a, u);
      RankElsewhere(w.s.loops, Next(w.s, cfg, a).loops, u);
    case Cancel(id, owner, reason) =>
      ManagerPart(w, cfg);
      MI.QueuePart(w.s.m, cfg, w.s.now);
      CancelShrinks(w.s.m, w.s.now, id, reason, u);
    case Fire(id) => FireKeepsLanes(w.s.m, w.s.now, id);
    case _ =>
  }

  lemma CreateElsewhere(s: Sys, cfg: S.Config, a: Action, u: OwnerKey)
    requires a.Create? && a.loop !in s.loops && OwnerKeyFromPrincipal(a.owner) != Some(u)
    ensures var s' := CreateStep(s, cfg, a);
            && Q.Lane(s'.m.queue, u) == Q.Lane(s.m.queue, u)
            && (forall t :: t in s.loops ==> t in s'.loops && s'.loops[t] == s.loops[t])
            && (forall t :: t in s'.loops && t !in s.loops ==> s'.loops[t].owner != u)
  {
    hide OwnerKeyFromPrincipal;
  }

  lemma FireKeepsLanes(m: S.Manager, now: Time, id: RunId)
    ensures S.FireTimeout(m, now, id).m.queue == m.queue
  {
    hide L.Release;
  }

  lemma CancelShrinks(m: S.Manager, now: Time, id: RunId, reason: Option<string>, u: OwnerKey)
    requires MI.QueueOk(m.runs, m.queue)
    ensures |Q.Lane(S.CancelRun(m, now, id, reason).m.queue, u)| <= |Q.Lane(m.queue, u)|
  {
    Q.RemoveWF(m.queue, id);
    if id in m.runs && !IsTerminalState(m.runs[id].state) {
      CancelShape(m, now, id, reason);
    }
  }

  predicate StepOf(a: Action, s: Sys, u: OwnerKey) {
    (a.Turn? || a.Workspace? || a.Load? || a.Settle?) && a.loop in s.loops && s.loops[a.loop].owner == u
  }

  /** How many steps of a run of the system belong to owner u's loop. */
  ghost function StepsFor(w: World, cfg: S.Config, actions: seq<Action>, u: OwnerKey): nat
    requires Possible(w, cfg, actions)
    decreases |actions|
  {
    if actions == [] then 0
    else (if StepOf(actions[0], w.s, u) then 1 else 0) + StepsFor(Step(w, cfg, actions[0]), cfg, actions[1..], u)
  }

  predicate NoCreateFor(actions: seq<Action>, u: OwnerKey) {
    forall i :: 0 <= i < |actions| && actions[i].Create? ==> OwnerKeyFromPrincipal(actions[i].owner) != Some(u)
  }

  /** Draining terminates: with no further creates, an owner's loop takes at most Measure more steps,
      whatever everyone else does in between. */
  lemma {:induction false} DrainingTerminates(w: World, cfg: S.Config, actions: seq<Action>, u: OwnerKey)
    requires Inv(w, cfg) && Possible(w, cfg, actions) && NoCreateFor(actions, u)
    ensures StepsFor(w, cfg, actions, u) + Measure(After(w, cfg, actions).s, u) <= Measure(w.s, u)
    decreases |actions|
  {
    hide Inv, Measure, Next, Record;
    if actions != [] {
      var a := actions[0];
      StepKeeps(w, cfg, a);
      if a.Turn? || a.Workspace? || a.Load? || a.Settle? {
        ExecutorStepsDecrease(w, cfg, a, a.loop);
      } else {
        OtherStepsDoNotIncrease(w, cfg, a, u);
      }
      DrainingTerminates(Step(w, cfg, a), cfg, actions[1..], u);
    }
  }

  /** When nothing is left to do, every run of that owner is terminal. */
  lemma DrainedMeansTerminal(w: World, cfg: S.Config, u: OwnerKey, r: RunId)
    requires Inv(w, cfg) && Measure(w.s, u) == 0 && r in w.s.m.runs && w.s.m.runs[r].userId == u
    ensures IsTerminalState(w.s.m.runs[r].state)
  {
    hide LedgersOk, FlightsOk, HistoryOk, MI.Inv, ListeningOk, NoLostWakeup;
    forall t | t in w.s.loops ensures w.s.loops[t].owner != u {
      if w.s.loops[t].owner == u {
        RankIs(w.s.loops, t);
      }
    }
    if w.s.m.runs[r].state == QUEUED {
      QueuedHasLoop(w, cfg, r);
    } else if MI.Active(w.s.m.runs, r) {
      ActiveHasLoop(w, cfg, r);
    }
  }

  lemma ActiveHasLoop(w: World, cfg: S.Config, r: RunId)
    requires Inv(w, cfg) && MI.Active(w.s.m.runs, r)
    ensures LaneTaken(w.s.loops, w.s.m.runs[r].userId)
  {
    hide LedgersOk, FlightsOk, HistoryOk, MI.Inv, ListeningOk, NoLostWakeup;
    var t :| t in w.s.loops && Drives(w.s.loops[t], r);
    assert StageOk(w.s.m.runs, w.s.listening, w.s.loops[t]);
  }

  /** Until then the owner's loop is there and can take a step, whatever its awaited call comes back with. */
  lemma UndrainedCanStep(w: World, cfg: S.Config, u: OwnerKey, token: Token, error: Option<string>,
                         outcome: Result<seq<string>, string>)
    requires Inv(w, cfg) && Measure(w.s, u) > 0 && MI.TokenFresh(w.s.m.runs, token)
    ensures exists t :: t in w.s.loops && w.s.loops[t].owner == u
              && match w.s.loops[t].stage
                 case AtLoop => Enabled(w.s, Turn(t, token))
                 case Preparing(_) => Enabled(w.s, Workspace(t, error))
                 case Loading(_, _) => Enabled(w.s, Load(t, error))
                 case Prompting(_) => Enabled(w.s, Settle(t, outcome))
  {
    hide LedgersOk, FlightsOk, HistoryOk, MI.Inv, ListeningOk;
    assert LaneTaken(w.s.loops, u);
    var t :| t in w.s.loops && w.s.loops[t].owner == u;
    assert MI.TokenFresh(w.s.m.runs, token);
  }

  // Order.

  /** FIFO, over any run: what an owner created, minus what it withdrew while queued, is exactly what was
      leased, in that order, followed by what is waiting. */
  lemma FifoConservation(cfg: S.Config, actions: seq<Action>, u: OwnerKey)
    requires Possible(INITIAL, cfg, actions)
    ensures var w := After(INITIAL, cfg, actions);
            Without(Of(w.h.created, u), w.h.withdrawn) == Of(w.h.leased, u) + Q.Lane(w.s.m.queue, u)
  {
    ReachableInv(cfg, actions);
    var w := After(INITIAL, cfg, actions);
    HistoryPart(w, cfg);
    assert Conserved(w.h, w.s.m.queue, u);
  }

  lemma HistoryPart(w: World, cfg: S.Config)
    requires Inv(w, cfg)
    ensures HistoryOk(w.s.m.runs, w.s.m.queue, w.h)
  {
    hide LoopsOk, NoLostWakeup, LedgersOk, FlightsOk, HistoryOk, ListeningOk, MI.Inv;
  }

  /** Queue and run table agree in every reachable state: a run is QUEUED exactly when it waits in its own
      owner's queue, it waits nowhere else and only once, and its real position has never grown past the
      one stored with it. */
  lemma QueueMatchesRuns(cfg: S.Config, actions: seq<Action>, r: RunId)
    requires Possible(INITIAL, cfg, actions)
    ensures var m := After(INITIAL, cfg, actions).s.m;
            && (forall v :: r in Q.Lane(m.queue, v) ==> MI.InState(m.runs, r, QUEUED) && m.runs[r].userId == v)
            && (forall v :: Distinct(Q.Lane(m.queue, v)))
            && (MI.InState(m.runs, r, QUEUED) ==>
                  && r in Q.Lane(m.queue, m.runs[r].userId)
                  && m.runs[r].queuePosition.Some?
                  && 0 <= IndexOf(Q.Lane(m.queue, m.runs[r].userId), r) <= m.runs[r].queuePosition.value)
  {
    ReachableInv(cfg, actions);
    var w := After(INITIAL, cfg, actions);
    ManagerPart(w, cfg);
    MI.QueuePart(w.s.m, cfg, w.s.now);
    WaitingAt(w.s.m.runs, w.s.m.queue, r);
  }

  lemma WaitingAt(runs: MI.Runs, q: Q.QueueState, r: RunId)
    requires MI.QueueOk(runs, q)
    ensures forall v :: r in Q.Lane(q, v) ==> MI.InState(runs, r, QUEUED) && runs[r].userId == v
    ensures forall v :: Distinct(Q.Lane(q, v))
    ensures MI.InState(runs, r, QUEUED) ==>
              && r in Q.Lane(q, runs[r].userId)
              && runs[r].queuePosition.Some?
              && 0 <= IndexOf(Q.Lane(q, runs[r].userId), r) <= runs[r].queuePosition.value
  {
    assert r in q.runToUser <==> MI.InState(runs, r, QUEUED);
    if r in q.runToUser {
      assert MI.WaitsInPlace(runs[r], q, r);
      Q.IndexIsScan(q, r, q.runToUser[r]);
    }
    forall v | r in Q.Lane(q, v) ensures r in q.runToUser && q.runToUser[r] == v {
      Q.IndexIsScan(q, r, v);
    }
  }

  // States.

  /** Every step of the service moves every run along the transition table, and terminal records are frozen. */
  lemma StepsFollowTable(w: World, cfg: S.Config, a: Action)
    requires Inv(w, cfg) && Enabled(w.s, a)
    ensures MT.Advances(w.s.m.runs, Next(w.s, cfg, a).m.runs)
  {
    hide LoopsOk, NoLostWakeup, LedgersOk, FlightsOk, HistoryOk, ListeningOk, MI.Inv, TerminalsOf, Inv;
    hide S.CreateRun, S.AcquireNextRun, S.CancelRun, S.FireTimeout, WorkspaceStep, SettleStep, Caught;
    ManagerPart(w, cfg);
    match a
    case Create(id, owner, max, _) => MT.LegalStep(MT.World(w.s.m, w.s.now), cfg, MT.Create(id, owner, max));
    case Turn(t, token) => MT.LegalStep(MT.World(w.s.m, w.s.now), cfg, MT.Acquire(w.s.loops[t].owner, token));
    case Workspace(t, error) => WorkspaceAdvances(w, cfg, t, error);
    case Load(t, error) =>
      if error.Some? { CaughtAdvances(w.s, t, w.s.loops[t].stage.run, error.value); }
    case Settle(t, outcome) => SettleAdvances(w.s, t, outcome);
    case Cancel(id, owner, reason) => MT.CancelAdvances(w.s.m, w.s.now, id, reason);
    case Fire(id) => MT.FireAdvances(w.s.m, w.s.now, id);
    case _ =>
  }

  lemma CaughtAdvances(s: Sys, t: LoopId, r: RunId, error: string)
    requires t in s.loops
    ensures MT.Advances(s.m.runs, Caught(s, t, r, error).m.runs)
  {
    hide S.Finish;
    MT.FinishAdvances(s.m, s.now, r, FAILED, Some(error), None);
  }

  lemma WorkspaceAdvances(w: World, cfg: S.Config, t: LoopId, error: Option<string>)
    requires Inv(w, cfg) && Enabled(w.s, Workspace(t, error))
    ensures MT.Advances(w.s.m.runs, WorkspaceStep(w.s, t, error).m.runs)
  {
    hide LoopsOk, NoLostWakeup, LedgersOk, FlightsOk, HistoryOk, ListeningOk;
    hide MI.Inv, TerminalsOf, Inv, Caught, S.StartRun;
    var r := w.s.loops[t].stage.run;
    AboutLoop(w, cfg, t);
    CaughtAdvances(w.s, t, r, if error.Some? then error.value else TRANSITION_REFUSED);
    if w.s.m.runs[r].state == LEASED {
      StartShape(w.s.m, w.s.now, r);
    } else {
      StartRefused(w.s.m, w.s.now, r);
    }
  }

  lemma SettleAdvances(s: Sys, t: LoopId, outcome: Result<seq<string>, string>)
    requires t in s.loops && s.loops[t].stage.Prompting?
    ensures MT.Advances(s.m.runs, SettleStep(s, t, outcome).m.runs)
  {
    hide S.Finish, Caught;
    var r := s.loops[t].stage.run;
    if outcome.Failure? {
      CaughtAdvances(s, t, r, outcome.error);
    } else if r !in s.m.runs {
      CaughtAdvances(s, t, r, DISAPPEARED);
    } else if !Aborted(s.m, r) {
      var o := S.CompleteRun(s.m, s.now, r, Some(outcome.value));
      MT.FinishAdvances(s.m, s.now, r, COMPLETED, None, Some(outcome.value));
      if o.result.Failure? {
        FinishRefusedKeepsRuns(s.m, s.now, r, COMPLETED, None, Some(outcome.value));
        CaughtAdvances(s.(m := o.m), t, r, TRANSITION_REFUSED);
      }
    }
  }

  lemma FinishRefusedKeepsRuns(m: S.Manager, now: Time, r: RunId, to: RunState, error: Option<string>,
                               messages: Option<seq<string>>)
    requires S.Finish(m, now, r, to, error, messages).result.Failure?
    ensures S.Finish(m, now, r, to, error, messages).m.runs == m.runs
  {
  }

  /** A run that has ended has ended for good, record and all. */
  lemma {:induction false} EndedForGood(w: World, cfg: S.Config, actions: seq<Action>, r: RunId)
    requires Inv(w, cfg) && Possible(w, cfg, actions)
    requires r in w.s.m.runs && IsTerminalState(w.s.m.runs[r].state)
    ensures var s' := After(w, cfg, actions).s;
            r in s'.m.runs && s'.m.runs[r] == w.s.m.runs[r]
    decreases |actions|
  {
    hide Inv, Next, Record;
    if actions != [] {
      StepKeeps(w, cfg, actions[0]);
      StepsFollowTable(w, cfg, actions[0]);
      assert MT.MayBecome(w.s.m.runs[r], Next(w.s, cfg, actions[0]).m.runs[r]);
      EndedForGood(Step(w, cfg, actions[0]), cfg, actions[1..], r);
    }
  }

  // Timers and abort contexts.

  lemma AgreeAt(m: S.Manager, cfg: S.Config, now: Time, r: RunId)
    requires MI.Inv(m, cfg, now)
    ensures r in m.timers <==> MI.InState(m.runs, r, RUNNING)
    ensures r in m.timers ==> MI.TimerFits(m.runs[r], m.timers[r])
    ensures MI.InState(m.runs, r, RUNNING) ==> r in m.contexts
    ensures r in m.contexts ==> r in m.runs && MI.ContextFits(m.runs[r], m.contexts[r])
    ensures r in m.runs ==> MI.RunOk(r, m.runs[r], cfg, now)
  {
    hide MI.QueueOk, MI.LeasesOk, MI.HoldersOk;
  }

  predicate KeepsContext(m: S.Manager, m': S.Manager, r: RunId) {
    r in m.contexts && r in m'.contexts && m'.contexts[r] == m.contexts[r]
  }

  /** A cancelled context is never touched again: it keeps its first reason. */
  lemma FirstReasonStays(w: World, cfg: S.Config, a: Action, r: RunId)
    requires Inv(w, cfg) && Enabled(w.s, a)
    requires r in w.s.m.contexts && w.s.m.contexts[r].isCancelled
    ensures KeepsContext(w.s.m, Next(w.s, cfg, a).m, r)
  {
    hide LoopsOk, NoLostWakeup, LedgersOk, FlightsOk, HistoryOk, ListeningOk, MI.Inv, TerminalsOf, Inv;
    hide S.CancelRun, S.FireTimeout, WorkspaceStep, SettleStep, Caught, Q.Dequeue, Q.Enqueue, L.Acquire;
    ManagerPart(w, cfg);
    AgreeAt(w.s.m, cfg, w.s.now, r);
    match a
    case Workspace(t, error) => WorkspaceContexts(w, cfg, t, error, r);
    case Load(t, error) =>
      AboutLoop(w, cfg, t);
      if error.Some? { CaughtContexts(w.s, t, w.s.loops[t].stage.run, error.value, r); }
    case Settle(t, outcome) =>
      AboutLoop(w, cfg, t);
      SettleContexts(w.s, t, outcome, r);
    case Cancel(id, owner, reason) => CancelContexts(w.s.m, w.s.now, id, reason, r);
    case Fire(id) =>
      AgreeAt(w.s.m, cfg, w.s.now, id);
      FireContexts(w.s.m, w.s.now, id, r);
    case _ =>
  }

  lemma {:induction false} FirstReasonForever(w: World, cfg: S.Config, actions: seq<Action>, r: RunId)
    requires Inv(w, cfg) && Possible(w, cfg, actions)
    requires r in w.s.m.contexts && w.s.m.contexts[r].isCancelled
    ensures KeepsContext(w.s.m, After(w, cfg, actions).s.m, r)
    decreases |actions|
  {
    hide Inv, Next, Record;
    if actions != [] {
      StepKeeps(w, cfg, actions[0]);
      FirstReasonStays(w, cfg, actions[0], r);
      FirstReasonForever(Step(w, cfg, actions[0]), cfg, actions[1..], r);
    }
  }

  lemma CaughtContexts(s: Sys, t: LoopId, x: RunId, error: string, r: RunId)
    requires t in s.loops && r in s.m.contexts && r in s.m.runs && s.m.runs[r].state in {CANCELLED, TIMED_OUT}
    ensures KeepsContext(s.m, Caught(s, t, x, error).m, r)
  {
  }

  lemma WorkspaceContexts(w: World, cfg: S.Config, t: LoopId, error: Option<string>, r: RunId)
    requires Inv(w, cfg) && Enabled(w.s, Workspace(t, error))
    requires r in w.s.m.contexts && r in w.s.m.runs && w.s.m.runs[r].state in {CANCELLED, TIMED_OUT}
    ensures KeepsContext(w.s.m, WorkspaceStep(w.s, t, error).m, r)
  {
    hide LoopsOk, NoLostWakeup, LedgersOk, FlightsOk, HistoryOk, ListeningOk, MI.Inv, TerminalsOf, Inv, Caught;
    var x := w.s.loops[t].stage.run;
    AboutLoop(w, cfg, t);
    CaughtContexts(w.s, t, x, if error.Some? then error.value else TRANSITION_REFUSED, r);
    if w.s.m.runs[x].state != LEASED {
      StartRefused(w.s.m, w.s.now, x);
    }
  }

  lemma SettleContexts(s: Sys, t: LoopId, outcome: Result<seq<string>, string>, r: RunId)
    requires t in s.loops && s.loops[t].stage.Prompting? && StageOk(s.m.runs, s.listening, s.loops[t])
    requires r in s.m.contexts && r in s.m.runs && s.m.runs[r].state in {CANCELLED, TIMED_OUT}
    ensures KeepsContext(s.m, SettleStep(s, t, outcome).m, r)
  {
    hide Caught, L.Release;
    if outcome.Failure? {
      CaughtContexts(s, t, s.loops[t].stage.run, outcome.error, r);
    }
  }

  lemma CancelContexts(m: S.Manager, now: Time, id: RunId, reason: Option<string>, r: RunId)
    requires r in m.contexts && m.contexts[r].isCancelled
    ensures KeepsContext(m, S.CancelRun(m, now, id, reason).m, r)
  {
  }

  lemma FireContexts(m: S.Manager, now: Time, id: RunId, r: RunId)
    requires r in m.contexts && m.contexts[r].isCancelled
    ensures KeepsContext(m, S.FireTimeout(m, now, id).m, r)
  {
  }

  // Terminal events.

  /** A run cancelled while queued: CANCELLED, no loop ever drives it, so no executor ever drops its guard. */
  ghost predicate WithdrawnOk(w: World, r: RunId) {
    && MI.InState(w.s.m.runs, r, CANCELLED)
    && r !in w.h.dropped
    && forall t :: t in w.s.loops ==> RunOf(w.s.loops[t]) != Some(r)
  }

  ghost predicate AllWithdrawnOk(w: World) {
    forall r :: r in w.h.withdrawn ==> WithdrawnOk(w, r)
  }

  /** No loop drives a run it did not drive before. */
  predicate RunsOnlyLeave(loops: map<LoopId, Loop>, loops': map<LoopId, Loop>) {
    forall t :: t in loops' && RunOf(loops'[t]).Some? ==> t in loops && RunOf(loops'[t]) == RunOf(loops[t])
  }

  lemma CaughtRuns(s: Sys, t: LoopId, r: RunId, error: string)
    requires t in s.loops
    ensures RunsOnlyLeave(s.loops, Caught(s, t, r, error).loops)
  {
    hide S.FailRun;
  }

  lemma WorkspaceRuns(s: Sys, t: LoopId, error: Option<string>)
    requires t in s.loops && s.loops[t].stage.Preparing?
    ensures RunsOnlyLeave(s.loops, WorkspaceStep(s, t, error).loops)
  {
    hide S.StartRun, Caught;
    var r := s.loops[t].stage.run;
    CaughtRuns(s, t, r, if error.Some? then error.value else TRANSITION_REFUSED);
    CaughtRuns(s.(m := S.StartRun(s.m, s.now, r).m), t, r, TRANSITION_REFUSED);
  }

  lemma LoadRuns(s: Sys, t: LoopId, error: Option<string>)
    requires t in s.loops && s.loops[t].stage.Loading?
    ensures RunsOnlyLeave(s.loops, LoadStep(s, t, error).loops)
  {
    hide Caught;
    CaughtRuns(s, t, s.loops[t].stage.run, if error.Some? then error.value else "");
  }

  lemma SettleRuns(s: Sys, t: LoopId, outcome: Result<seq<string>, string>)
    requires t in s.loops && s.loops[t].stage.Prompting?
    ensures RunsOnlyLeave(s.loops, SettleStep(s, t, outcome).loops)
  {
    hide S.CompleteRun, Caught;
    var r := s.loops[t].stage.run;
    CaughtRuns(s, t, r, if outcome.Failure? then outcome.error else DISAPPEARED);
    if outcome.Success? {
      CaughtRuns(s.(m := S.CompleteRun(s.m, s.now, r, Some(outcome.value)).m), t, r, TRANSITION_REFUSED);
    }
  }

  /** Where a step leaves the run of a loop: a loop keeps its run, lets it go, or takes up a queued one. */
  lemma StepRuns(w: World, cfg: S.Config, a: Action, t: LoopId, r: RunId)
    requires Inv(w, cfg) && Enabled(w.s, a)
    requires t in Next(w.s, cfg, a).loops && RunOf(Next(w.s, cfg, a).loops[t]) == Some(r)
    ensures (t in w.s.loops && RunOf(w.s.loops[t]) == Some(r)) || MI.InState(w.s.m.runs, r, QUEUED)
  {
    hide Inv, WorkspaceStep, LoadStep, SettleStep, S.CreateRun, S.CancelRun, S.FireTimeout;
    match a
    case Turn(x, token) => TurnRuns(w, cfg, x, token, t, r);
    case Workspace(x, error) => WorkspaceRuns(w.s, x, error);
    case Load(x, error) => LoadRuns(w.s, x, error);
    case Settle(x, outcome) => SettleRuns(w.s, x, outcome);
    case _ =>
  }

  lemma TurnRuns(w: World, cfg: S.Config, x: LoopId, token: Token, t: LoopId, r: RunId)
    requires Inv(w, cfg) && Enabled(w.s, Turn(x, token))
    requires t in TurnStep(w.s, cfg, x, token).loops && RunOf(TurnStep(w.s, cfg, x, token).loops[t]) == Some(r)
    ensures (t in w.s.loops && RunOf(w.s.loops[t]) == Some(r)) || MI.InState(w.s.m.runs, r, QUEUED)
  {
    var u := w.s.loops[x].owner;
    AboutRun(w, cfg, r);
    ManagerPart(w, cfg);
    MI.QueuePart(w.s.m, cfg, w.s.now);
    hide Inv, L.Acquire, Q.Dequeue, MI.QueueOk;
    if Q.Peek(w.s.m.queue, u).Some? {
      var head := Q.Peek(w.s.m.queue, u).value;
      MI.HeadIsQueued(w.s.m.runs, w.s.m.queue, u);
      AboutRun(w, cfg, head);
    }
  }

  /** Only the run of a loop that is driving it gets its guard dropped. */
  lemma StepDrops(w: World, cfg: S.Config, a: Action, r: RunId)
    requires Enabled(w.s, a)
    requires r in Step(w, cfg, a).h.dropped && r !in w.h.dropped
    ensures exists t :: t in w.s.loops && RunOf(w.s.loops[t]) == Some(r)
  {
    hide Next;
    assert a.Workspace? || a.Load? || a.Settle?;
    assert RunOf(w.s.loops[a.loop]) == Some(r);
  }

  lemma StepWithdraws(w: World, cfg: S.Config, a: Action, r: RunId)
    requires Enabled(w.s, a) && r in Step(w, cfg, a).h.withdrawn && r !in w.h.withdrawn
    ensures a.Cancel? && a.id == r && MayCancel(w.s, r, a.owner) && w.s.m.runs[r].state == QUEUED
  {
    hide Next;
  }

  /** The moment of withdrawal: a queued run has no guard to drop and no loop. */
  lemma WithdrawnNow(w: World, cfg: S.Config, a: Action, r: RunId)
    requires Inv(w, cfg) && Enabled(w.s, a) && r in Step(w, cfg, a).h.withdrawn && r !in w.h.withdrawn
    ensures WithdrawnOk(Step(w, cfg, a), r)
  {
    hide Inv, TerminalsOf, S.CancelRun, OnAbort;
    StepWithdraws(w, cfg, a, r);
    AboutRun(w, cfg, r);
    QueuedUndriven(w, cfg, r);
    SpoofedCancel(w, cfg, r, a.owner, a.reason);
    CancelLoops(w.s, r, a.owner, a.reason);
  }

  lemma QueuedUndriven(w: World, cfg: S.Config, r: RunId)
    requires Inv(w, cfg) && MI.InState(w.s.m.runs, r, QUEUED)
    ensures forall t :: t in w.s.loops ==> RunOf(w.s.loops[t]) != Some(r)
  {
    hide Inv;
    forall t | t in w.s.loops ensures RunOf(w.s.loops[t]) != Some(r) {
      AboutLoop(w, cfg, t);
    }
  }

  lemma CancelLoops(s: Sys, id: RunId, owner: OwnerPrincipal, reason: Option<string>)
    ensures CancelStep(s, id, owner, reason).loops == s.loops
  {
    hide S.CancelRun;
  }

  /** Withdrawn runs stay as they are. */
  lemma WithdrawnStays(w: World, cfg: S.Config, a: Action, r: RunId)
    requires Inv(w, cfg) && Enabled(w.s, a) && WithdrawnOk(w, r)
    ensures WithdrawnOk(Step(w, cfg, a), r)
  {
    var w' := Step(w, cfg, a);
    hide Inv, Next, Record;
    StepsFollowTable(w, cfg, a);
    assert MT.MayBecome(w.s.m.runs[r], w'.s.m.runs[r]);
    if r in w'.h.dropped { StepDrops(w, cfg, a, r); }
    forall t | t in w'.s.loops ensures RunOf(w'.s.loops[t]) != Some(r) {
      if RunOf(w'.s.loops[t]) == Some(r) { StepRuns(w, cfg, a, t, r); }
    }
  }

  lemma {:induction false} WithdrawnRun(w: World, cfg: S.Config, actions: seq<Action>)
    requires Inv(w, cfg) && AllWithdrawnOk(w) && Possible(w, cfg, actions)
    ensures AllWithdrawnOk(After(w, cfg, actions))
    decreases |actions|
  {
    hide Inv, Next, Record, WithdrawnOk;
    if actions != [] {
      var a, w' := actions[0], Step(w, cfg, actions[0]);
      StepKeeps(w, cfg, a);
      forall r | r in w'.h.withdrawn ensures WithdrawnOk(w', r) {
        if r in w.h.withdrawn { WithdrawnStays(w, cfg, a, r); } else { WithdrawnNow(w, cfg, a, r); }
      }
      WithdrawnRun(w', cfg, actions[1..]);
    }
  }

  lemma ReachableWithdrawn(cfg: S.Config, actions: seq<Action>)
    requires Possible(INITIAL, cfg, actions)
    ensures AllWithdrawnOk(After(INITIAL, cfg, actions))
  {
    InitInv(cfg);
    WithdrawnRun(INITIAL, cfg, actions);
  }

  /** How often the end of a run is announced, whichever of listener, cancel call and executor gets there
      first. A run that ended other than by timing out has had exactly one terminal event under the guard it
      has and one under the guard the executor dropped; so at most one until the guard is dropped, and a
      second exactly if it is CANCELLED, its guard was dropped and it has a guard again. A run cancelled
      while queued never has its guard dropped: exactly one event, ever. A timed-out run has at most one. */
  lemma TerminalEventsBounded(cfg: S.Config, actions: seq<Action>, r: RunId)
    requires Possible(INITIAL, cfg, actions)
    requires r in After(INITIAL, cfg, actions).s.m.runs
    ensures var w := After(INITIAL, cfg, actions);
            var sent := TerminalsOf(w.s.out, r);
            var state := w.s.m.runs[r].state;
            && |sent| <= 2 && (r !in w.h.dropped ==> |sent| <= 1)
            && (!IsTerminalState(state) ==> sent == [])
            && (IsTerminalState(state) && state != TIMED_OUT ==>
                  1 <= |sent| == Announced(r in w.s.guard, r in w.h.dropped))
            && (state == TIMED_OUT ==> |sent| <= Announced(r in w.s.guard, r in w.h.dropped) <= 1)
            && (|sent| >= 2 <==> state == CANCELLED && r in w.h.dropped && r in w.s.guard)
            && (r in w.h.withdrawn ==> state == CANCELLED && r !in w.h.dropped && |sent| == 1)
  {
    ReachableInv(cfg, actions);
    ReachableWithdrawn(cfg, actions);
    var w := After(INITIAL, cfg, actions);
    AboutRun(w, cfg, r);
    hide Inv, TerminalsOf;
    if r in w.h.withdrawn { assert WithdrawnOk(w, r); }
  }

  /** When a second event goes out: a permitted cancel of a CANCELLED run announces it again exactly if the
      executor has dropped the run's guard in the meantime and nobody has set it again. */
  lemma RepeatedCancelAnnouncesIff(w: World, cfg: S.Config, id: RunId, owner: OwnerPrincipal, reason: Option<string>)
    requires Inv(w, cfg) && MayCancel(w.s, id, owner) && w.s.m.runs[id].state == CANCELLED
    ensures var s' := CancelStep(w.s, id, owner, reason);
            && TerminalsOf(s'.out, id) == TerminalsOf(w.s.out, id) + (if id in w.s.guard then [] else [RunCancelled])
            && s'.guard == w.s.guard + {id} && s'.m == w.s.m
            && (id !in w.s.guard <==> id in w.h.dropped && |TerminalsOf(w.s.out, id)| == 1)
  {
    hide Inv, TerminalsOf, S.CancelRun;
    AboutRun(w, cfg, id);
    CancelOfEnded(w.s.m, w.s.now, id, reason);
    EmitOnceEffect(w.s, id, RunCancelled);
  }

  lemma CancelOfEnded(m: S.Manager, now: Time, id: RunId, reason: Option<string>)
    requires id in m.runs && IsTerminalState(m.runs[id].state)
    ensures S.CancelRun(m, now, id, reason) == S.Outcome(m, Success(m.runs[id]), None)
  {
  }

  /** The events sent for a run all name its final state exactly if nobody cancelled it, while it was running
      and listened to, with the reason "timeout". */
  lemma TerminalKindMatchesIff(cfg: S.Config, actions: seq<Action>, r: RunId)
    requires Possible(INITIAL, cfg, actions)
    requires r in After(INITIAL, cfg, actions).s.m.runs
    ensures var w := After(INITIAL, cfg, actions);
            (forall k :: k in TerminalsOf(w.s.out, r) ==> KindOf(w.s.m.runs[r].state) == Some(k)) <==> r !in w.h.spoofed
  {
    hide Inv, TerminalsOf, Possible, After;
    ReachableInv(cfg, actions);
    var w := After(INITIAL, cfg, actions);
    AboutRun(w, cfg, r);
    if r in w.h.spoofed {
      assert TerminalsOf(w.s.out, r)[0] in TerminalsOf(w.s.out, r);
    }
  }

  /** Which cancellations pose as timeouts: a client is told run_timed_out about a run that is CANCELLED. */
  lemma SpoofedCancel(w: World, cfg: S.Config, id: RunId, owner: OwnerPrincipal, reason: Option<string>)
    requires Inv(w, cfg) && MayCancel(w.s, id, owner) && !IsTerminalState(w.s.m.runs[id].state)
    ensures var s' := CancelStep(w.s, id, owner, reason);
            && MI.InState(s'.m.runs, id, CANCELLED)
            && TerminalsOf(s'.out, id) == [if Spoofs(w.s, id, owner, reason) then RunTimedOut else RunCancelled]
  {
    hide LoopsOk, NoLostWakeup, LedgersOk, FlightsOk, HistoryOk, MI.Inv, ListeningOk, Inv, TerminalsOf, S.CancelRun;
    AboutRun(w, cfg, id);
    ManagerPart(w, cfg);
    CancelShape(w.s.m, w.s.now, id, reason);
    MT.CancelKeeps(w.s.m, cfg, w.s.now, id, reason);
    var s0 := w.s.(m := S.CancelRun(w.s.m, w.s.now, id, reason).m);
    EmitOnceEffect(s0, id, RunTimedOut);
    EmitOnceEffect(s0, id, RunCancelled);
    assert |"user_cancelled"| != |"timeout"|;
  }

  /** A timeout is announced exactly if the abort listener was installed when the timer fired... */
  lemma TimeoutAnnouncedIff(w: World, cfg: S.Config, id: RunId)
    requires Inv(w, cfg) && Enabled(w.s, Fire(id))
    ensures TerminalsOf(Next(w.s, cfg, Fire(id)).out, id) == if id in w.s.listening then [RunTimedOut] else []
    ensures MI.InState(Next(w.s, cfg, Fire(id)).m.runs, id, TIMED_OUT)
  {
    hide LoopsOk, NoLostWakeup, LedgersOk, FlightsOk, HistoryOk, MI.Inv, ListeningOk, Inv, TerminalsOf, S.FireTimeout;
    FireKeeps(w, cfg, id);
    AboutRun(w, cfg, id);
    FireShape(w.s.m, w.s.now, id);
    EmitOnceEffect(w.s.(m := S.FireTimeout(w.s.m, w.s.now, id).m), id, RunTimedOut);
  }

  /** Once a run has ended, no step sends another terminal event for it, except a repeated cancel of a
      CANCELLED run. */
  lemma TerminalsSettled(w: World, cfg: S.Config, a: Action, r: RunId)
    requires Inv(w, cfg) && Enabled(w.s, a)
    requires r in w.s.m.runs && IsTerminalState(w.s.m.runs[r].state)
    requires !(a.Cancel? && a.id == r && w.s.m.runs[r].state == CANCELLED)
    ensures TerminalsOf(Next(w.s, cfg, a).out, r) == TerminalsOf(w.s.out, r)
  {
    hide LoopsOk, NoLostWakeup, LedgersOk, FlightsOk, HistoryOk, MI.Inv, ListeningOk, Inv, TerminalsOf;
    match a
    case Create(id, _, _, _) => CreateQuiet(w.s, cfg, a, r);
    case Turn(_, _) =>
    case Workspace(t, error) => WorkspaceQuiet(w, cfg, t, error, r);
    case Load(t, error) =>
      if error.Some? { CaughtQuiet(w, cfg, t, error.value, r); }
    case Settle(t, outcome) => SettleQuiet(w, cfg, t, outcome, r);
    case AgentEvent(x) => SendEffect(w.s, Agent(x));
    case Cancel(id, owner, reason) => CancelQuiet(w.s, id, owner, reason, r);
    case Fire(id) =>
      FireKeeps(w, cfg, id);
      EmitOnceEffect(w.s.(m := S.FireTimeout(w.s.m, w.s.now, id).m), id, RunTimedOut);
    case _ =>
  }

  lemma CreateQuiet(s: Sys, cfg: S.Config, a: Action, r: RunId)
    requires a.Create?
    ensures TerminalsOf(CreateStep(s, cfg, a).out, r) == TerminalsOf(s.out, r)
  {
    hide TerminalsOf, S.CreateRun;
    var o := S.CreateRun(s.m, cfg, s.now, a.id, a.owner, a.maxDurationMs);
    if o.result.Success? {
      var run := o.result.value;
      SendEffect(s.(m := o.m), Queued(a.id, if run.queuePosition.Some? then run.queuePosition.value else 0));
    }
  }

  lemma CaughtQuiet(w: World, cfg: S.Config, t: LoopId, error: string, r: RunId)
    requires Inv(w, cfg) && t in w.s.loops && RunOf(w.s.loops[t]).Some?
    requires r in w.s.m.runs && IsTerminalState(w.s.m.runs[r].state)
    ensures TerminalsOf(Caught(w.s, t, w.s.loops[t].stage.run, error).out, r) == TerminalsOf(w.s.out, r)
  {
    hide LoopsOk, NoLostWakeup, LedgersOk, FlightsOk, HistoryOk, MI.Inv, ListeningOk, Inv, TerminalsOf, S.Finish;
    var x := w.s.loops[t].stage.run;
    AboutLoop(w, cfg, t);
    var s2 := w.s.(m := S.FailRun(w.s.m, w.s.now, x, error).m);
    EmitOnceEffect(s2, x, RunFailed);
    SendEffect(EmitTerminalOnce(s2, x, RunFailed), Closed(x));
  }

  lemma WorkspaceQuiet(w: World, cfg: S.Config, t: LoopId, error: Option<string>, r: RunId)
    requires Inv(w, cfg) && Enabled(w.s, Workspace(t, error))
    requires r in w.s.m.runs && IsTerminalState(w.s.m.runs[r].state)
    ensures TerminalsOf(WorkspaceStep(w.s, t, error).out, r) == TerminalsOf(w.s.out, r)
  {
    hide LoopsOk, NoLostWakeup, LedgersOk, FlightsOk, HistoryOk, MI.Inv;
    hide ListeningOk, Inv, TerminalsOf, Caught, S.StartRun;
    var x := w.s.loops[t].stage.run;
    AboutLoop(w, cfg, t);
    CaughtQuiet(w, cfg, t, if error.Some? then error.value else TRANSITION_REFUSED, r);
    if w.s.m.runs[x].state == LEASED {
      StartShape(w.s.m, w.s.now, x);
    } else {
      StartRefused(w.s.m, w.s.now, x);
    }
    SendEffect(w.s.(m := S.StartRun(w.s.m, w.s.now, x).m), Started(x));
  }

  lemma SettleQuiet(w: World, cfg: S.Config, t: LoopId, outcome: Result<seq<string>, string>, r: RunId)
    requires Inv(w, cfg) && Enabled(w.s, Settle(t, outcome))
    requires r in w.s.m.runs && IsTerminalState(w.s.m.runs[r].state)
    ensures TerminalsOf(SettleStep(w.s, t, outcome).out, r) == TerminalsOf(w.s.out, r)
  {
    hide LoopsOk, NoLostWakeup, LedgersOk, FlightsOk, HistoryOk, MI.Inv;
    hide ListeningOk, Inv, TerminalsOf, Caught, S.Finish;
    var x := w.s.loops[t].stage.run;
    AboutLoop(w, cfg, t);
    if outcome.Failure? {
      CaughtQuiet(w, cfg, t, outcome.error, r);
    } else if Aborted(w.s.m, x) {
      SendEffect(w.s, Closed(x));
    } else {
      FinishAndLeaveKeeps(w, cfg, t, x, COMPLETED, None, Some(outcome.value), RunCompleted);
      var s2 := w.s.(m := S.CompleteRun(w.s.m, w.s.now, x, Some(outcome.value)).m);
      EmitOnceEffect(s2, x, RunCompleted);
      SendEffect(EmitTerminalOnce(s2, x, RunCompleted), Closed(x));
    }
  }

  lemma CancelQuiet(s: Sys, id: RunId, owner: OwnerPrincipal, reason: Option<string>, r: RunId)
    requires r in s.m.runs && IsTerminalState(s.m.runs[r].state) && (id == r ==> s.m.runs[r].state != CANCELLED)
    ensures TerminalsOf(CancelStep(s, id, owner, reason).out, r) == TerminalsOf(s.out, r)
  {
    hide TerminalsOf;
    var s0 := s.(m := S.CancelRun(s.m, s.now, id, reason).m);
    EmitOnceEffect(s0, id, RunTimedOut);
    EmitOnceEffect(s0, id, RunCancelled);
    EmitOnceEffect(EmitTerminalOnce(s0, id, RunTimedOut), id, RunCancelled);
  }

  /** ...and a timeout that was not announced then is never announced. */
  lemma {:induction false} SilentTimeoutForever(w: World, cfg: S.Config, actions: seq<Action>, r: RunId)
    requires Inv(w, cfg) && Possible(w, cfg, actions)
    requires MI.InState(w.s.m.runs, r, TIMED_OUT) && TerminalsOf(w.s.out, r) == []
    ensures TerminalsOf(After(w, cfg, actions).s.out, r) == []
    decreases |actions|
  {
    hide Inv, Next, Record, TerminalsOf;
    if actions != [] {
      StepKeeps(w, cfg, actions[0]);
      TerminalsSettled(w, cfg, actions[0], r);
      StepsFollowTable(w, cfg, actions[0]);
      assert MT.MayBecome(w.s.m.runs[r], Next(w.s, cfg, actions[0]).m.runs[r]);
      SilentTimeoutForever(Step(w, cfg, actions[0]), cfg, actions[1..], r);
    }
  }
}
