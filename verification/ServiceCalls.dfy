/** The service as a caller of the run manager: which call each atomic step makes. So every run of the service is
    a history of the manager, and what RunFates says of one call holds of one step. */
module ServiceCalls {
  import opened Collections
  import opened RunTypes
  import opened Owner
  import opened ServiceSpec
  import opened ServiceInvariant
  import opened ServiceSteps
  import opened ServiceTheorems
  import MI = ManagerInvariant
  import MT = ManagerTheorems
  import RF = RunFates
  import S = ManagerSpec
  import Q = QueueSpec
  import L = LeaseSpec
  import T = TimeoutSpec

  predicate Unfinished(s: Sys, r: RunId) {
    r in s.m.runs && s.m.runs[r].state in {QUEUED, LEASED, RUNNING}
  }

  /** The manager call of a step, if it makes one. Only an unfinished run is failed or completed, and only its
      own principal cancels it. */
  function CallOf(s: Sys, a: Action): Option<MT.Call>
    requires (a.Turn? || a.Workspace? || a.Load? || a.Settle?) ==> a.loop in s.loops
    requires (a.Workspace? || a.Load? || a.Settle?) ==> RunOf(s.loops[a.loop]).Some?
  {
    match a
    case Create(id, owner, max, _) => Some(MT.Create(id, owner, max))
    case Turn(t, token) => Some(MT.Acquire(s.loops[t].owner, token))
    case Workspace(t, None) => Some(MT.Start(s.loops[t].stage.run))
    case Workspace(t, Some(error)) => FailCall(s, s.loops[t].stage.run, error)
    case Load(t, None) => None
    case Load(t, Some(error)) => FailCall(s, s.loops[t].stage.run, error)
    case Settle(t, Success(messages)) =>
      var r := s.loops[t].stage.run;
      if Unfinished(s, r) then Some(MT.Complete(r, Some(messages))) else None
    case Settle(t, Failure(error)) => FailCall(s, s.loops[t].stage.run, error)
    case AgentEvent(_) => None
    case Cancel(id, owner, reason) =>
      if id in s.m.runs && s.m.runs[id].owner == owner then Some(MT.Cancel(id, reason)) else None
    case Fire(id) => Some(MT.Fire(id))
    case Sweep => Some(MT.Sweep)
    case Wait(ms) => Some(MT.Wait(ms))
  }

  function FailCall(s: Sys, r: RunId, error: string): Option<MT.Call> {
    if Unfinished(s, r) then Some(MT.Fail(r, error)) else None
  }

  ghost function Called(w: MT.World, cfg: S.Config, c: Option<MT.Call>): MT.World {
    if c.Some? then MT.Step(w, cfg, c.value) else w
  }

  /** Every step makes that one call, which is one a caller may make, and touches the manager in no other way. */
  lemma StepCalls(w: World, cfg: S.Config, a: Action)
    requires Inv(w, cfg) && Enabled(w.s, a)
    ensures var c := CallOf(w.s, a); var s' := Next(w.s, cfg, a);
            && (c.Some? ==> MT.Allowed(MT.World(w.s.m, w.s.now), c.value))
            && MT.World(s'.m, s'.now) == Called(MT.World(w.s.m, w.s.now), cfg, c)
  {
    hide Inv, MI.Inv, S.CreateRun, S.AcquireNextRun, S.StartRun, S.CancelRun, S.FireTimeout, S.Finish;
    hide Caught, OwnerKeyFromPrincipal, EmitTerminalOnce, OnAbort, CancelStep;
    match a
    case Create(id, owner, max, _) =>
      if OwnerKeyFromPrincipal(owner).Some? { KeyNonEmpty(owner); }
      CreateCalls(w.s, cfg, a);
    case Turn(_, _) =>
    case Workspace(t, error) => WorkspaceCalls(w, cfg, t, error);
    case Load(t, error) =>
      AboutLoop(w, cfg, t);
      if error.Some? { CaughtCalls(w, cfg, t, error.value); }
    case Settle(t, outcome) => SettleCalls(w, cfg, t, outcome);
    case Cancel(id, owner, reason) =>
      CancelCalls(w.s, cfg, id, owner, reason);
    case Fire(id) =>
      var o := S.FireTimeout(w.s.m, w.s.now, id);
      AbortOutside(w.s.(m := o.m), id, o.aborted);
    case _ =>
  }

  lemma CreateCalls(s: Sys, cfg: S.Config, a: Action)
    requires a.Create?
    ensures CreateStep(s, cfg, a).m == S.CreateRun(s.m, cfg, s.now, a.id, a.owner, a.maxDurationMs).m
    ensures CreateStep(s, cfg, a).now == s.now
  {
    hide OwnerKeyFromPrincipal, Q.Enqueue;
  }

  lemma CaughtCalls(w: World, cfg: S.Config, t: LoopId, error: string)
    requires Inv(w, cfg) && t in w.s.loops && RunOf(w.s.loops[t]).Some?
    ensures var r := w.s.loops[t].stage.run; var s' := Caught(w.s, t, r, error);
            && MT.World(s'.m, s'.now) == Called(MT.World(w.s.m, w.s.now), cfg, FailCall(w.s, r, error))
  {
    hide Inv, S.Finish, EmitTerminalOnce;
    AboutLoop(w, cfg, t);
    var r := w.s.loops[t].stage.run;
    EmitOutside(w.s.(m := S.FailRun(w.s.m, w.s.now, r, error).m), r, RunFailed);
  }

  lemma EmitOutside(s: Sys, r: RunId, kind: TerminalKind)
    ensures EmitTerminalOnce(s, r, kind).m == s.m && EmitTerminalOnce(s, r, kind).now == s.now
  {
  }

  lemma AbortOutside(s: Sys, r: RunId, aborted: Option<string>)
    ensures OnAbort(s, r, aborted).m == s.m && OnAbort(s, r, aborted).now == s.now
  {
  }

  lemma CancelCalls(s: Sys, cfg: S.Config, id: RunId, owner: OwnerPrincipal, reason: Option<string>)
    ensures var s' := CancelStep(s, id, owner, reason);
            MT.World(s'.m, s'.now) == Called(MT.World(s.m, s.now), cfg, CallOf(s, Cancel(id, owner, reason)))
  {
    hide S.CancelRun, OnAbort, EmitTerminalOnce;
    var o := S.CancelRun(s.m, s.now, id, reason);
    AbortOutside(s.(m := o.m), id, o.aborted);
    EmitOutside(OnAbort(s.(m := o.m), id, o.aborted), id, RunCancelled);
  }

  lemma WorkspaceCalls(w: World, cfg: S.Config, t: LoopId, error: Option<string>)
    requires Inv(w, cfg) && Enabled(w.s, Workspace(t, error))
    ensures var s' := WorkspaceStep(w.s, t, error);
            MT.World(s'.m, s'.now) == Called(MT.World(w.s.m, w.s.now), cfg, CallOf(w.s, Workspace(t, error)))
  {
    hide Inv, S.StartRun, Caught;
    AboutLoop(w, cfg, t);
    var r := w.s.loops[t].stage.run;
    if error.Some? {
      CaughtCalls(w, cfg, t, error.value);
    } else if w.s.m.runs[r].state == LEASED {
      StartShape(w.s.m, w.s.now, r);
    } else {
      StartRefused(w.s.m, w.s.now, r);
      CaughtCalls(w, cfg, t, TRANSITION_REFUSED);
    }
  }

  lemma SettleCalls(w: World, cfg: S.Config, t: LoopId, outcome: Result<seq<string>, string>)
    requires Inv(w, cfg) && Enabled(w.s, Settle(t, outcome))
    ensures var s' := SettleStep(w.s, t, outcome);
            MT.World(s'.m, s'.now) == Called(MT.World(w.s.m, w.s.now), cfg, CallOf(w.s, Settle(t, outcome)))
    ensures var c := CallOf(w.s, Settle(t, outcome));
            c.Some? && c.value.Complete? ==> MI.InState(w.s.m.runs, c.value.id, RUNNING)
  {
    hide Inv, S.Finish, Caught, EmitTerminalOnce, TerminalsOf;
    AboutLoop(w, cfg, t);
    var r := w.s.loops[t].stage.run;
    if outcome.Failure? {
      CaughtCalls(w, cfg, t, outcome.error);
    } else if w.s.m.runs[r].state == RUNNING {
      FinishAndLeaveKeeps(w, cfg, t, r, COMPLETED, None, Some(outcome.value), RunCompleted);
      EmitOutside(w.s.(m := S.CompleteRun(w.s.m, w.s.now, r, Some(outcome.value)).m), r, RunCompleted);
    }
  }

  /** Cancelling a run that does not exist, or is another principal's, does nothing at all. */
  lemma ForeignCancelIsInert(s: Sys, cfg: S.Config, id: RunId, owner: OwnerPrincipal, reason: Option<string>)
    requires id in s.m.runs ==> s.m.runs[id].owner != owner
    ensures Next(s, cfg, Cancel(id, owner, reason)) == s
  {
    NextCancel(s, cfg, id, owner, reason);
  }

  /** What a step makes of run r's record. */
  lemma StepMakes(w: World, cfg: S.Config, a: Action, r: RunId)
    requires Inv(w, cfg) && Enabled(w.s, a)
    ensures var runs, runs' := w.s.m.runs, Next(w.s, cfg, a).m.runs;
            var mw := MT.World(w.s.m, w.s.now); var c := CallOf(w.s, a);
            && (r in runs ==> r in runs' && runs'[r] == if c.Some? then RF.Fate(mw, cfg, c.value, r) else runs[r])
            && (r !in runs && r in runs' ==>
                  a.Create? && a.id == r && RF.Arrives(mw, cfg, MT.Create(a.id, a.owner, a.maxDurationMs), runs'[r]))
            && (a.Create? ==> (a.id in runs' <==> OwnerKeyFromPrincipal(a.owner).Some?))
  {
    hide Inv, Next, MT.Allowed, RF.Fate, RF.Arrives, OwnerKeyFromPrincipal;
    ManagerPart(w, cfg);
    StepCalls(w, cfg, a);
    var c := CallOf(w.s, a);
    if c.Some? { RF.CallMakes(MT.World(w.s.m, w.s.now), cfg, c.value, r); }
  }

  /** The calls a run of the service makes, in order. */
  ghost function CallsOf(w: World, cfg: S.Config, actions: seq<Action>): seq<MT.Call>
    requires Possible(w, cfg, actions)
    decreases |actions|
  {
    if actions == [] then []
    else
      var c := CallOf(w.s, actions[0]);
      (if c.Some? then [c.value] else []) + CallsOf(Step(w, cfg, actions[0]), cfg, actions[1..])
  }

  /** Every run of the service is a history of the manager that a caller may make. */
  lemma {:induction false} RunIsHistory(w: World, cfg: S.Config, actions: seq<Action>)
    requires Inv(w, cfg) && Possible(w, cfg, actions)
    ensures var mw := MT.World(w.s.m, w.s.now); var s' := After(w, cfg, actions).s;
            && MT.AllAllowed(mw, cfg, CallsOf(w, cfg, actions))
            && MT.Run(mw, cfg, CallsOf(w, cfg, actions)) == MT.World(s'.m, s'.now)
    decreases |actions|
  {
    hide Inv, Next, Record, CallOf, MT.Step, MT.Allowed;
    if actions != [] {
      var c := CallOf(w.s, actions[0]);
      StepKeeps(w, cfg, actions[0]);
      StepCalls(w, cfg, actions[0]);
      RunIsHistory(Step(w, cfg, actions[0]), cfg, actions[1..]);
      var later := CallsOf(Step(w, cfg, actions[0]), cfg, actions[1..]);
      if c.Some? { assert ([c.value] + later)[1..] == later; } else { assert [] + later == later; }
    }
  }
}
