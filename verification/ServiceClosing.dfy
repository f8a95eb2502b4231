/** When the executor closes a run's event stream, and when it never does. */
module ServiceClosing {
  import opened Collections
  import opened RunTypes
  import opened ServiceSpec
  import opened ServiceInvariant
  import opened ServiceSteps
  import opened ServiceTheorems
  import MI = ManagerInvariant
  import S = ManagerSpec

  /** How often closeRun has been called for a run. */
  function ClosesOf(out: seq<Emission>, r: RunId): nat {
    if out == [] then 0
    else ClosesOf(out[..|out| - 1], r) + if out[|out| - 1] == Closed(r) then 1 else 0
  }

  /** The steps that leave executeRun for r by its completed path, by its failed path, or, aborted, after a
      prompt that came back. An aborted run that leaves through the catch block is not among them. */
  predicate Closes(s: Sys, a: Action, r: RunId) {
    match a
    case Workspace(t, error) => t in s.loops && RunOf(s.loops[t]) == Some(r) && error.Some? && !Aborted(s.m, r)
    case Load(t, error) => t in s.loops && RunOf(s.loops[t]) == Some(r) && error.Some? && !Aborted(s.m, r)
    case Settle(t, outcome) =>
      t in s.loops && RunOf(s.loops[t]) == Some(r) && (outcome.Success? || !Aborted(s.m, r))
    case _ => false
  }

  function One(b: bool): nat { if b then 1 else 0 }

  lemma SendCloses(out: seq<Emission>, e: Emission, r: RunId)
    ensures ClosesOf(out + [e], r) == ClosesOf(out, r) + One(e == Closed(r))
  {
    assert (out + [e])[..|out|] == out;
  }

  lemma EmitCloses(s: Sys, x: RunId, kind: TerminalKind, r: RunId)
    ensures ClosesOf(EmitTerminalOnce(s, x, kind).out, r) == ClosesOf(s.out, r)
  {
    SendCloses(s.out, Terminal(x, kind), r);
  }

  lemma AbortCloses(s: Sys, x: RunId, aborted: Option<string>, r: RunId)
    ensures ClosesOf(OnAbort(s, x, aborted).out, r) == ClosesOf(s.out, r)
  {
    hide ClosesOf, EmitTerminalOnce;
    EmitCloses(s, x, RunTimedOut, r);
    EmitCloses(s, x, RunCancelled, r);
  }

  lemma CaughtCloses(w: World, cfg: S.Config, t: LoopId, x: RunId, error: string, r: RunId)
    requires Inv(w, cfg) && t in w.s.loops && RunOf(w.s.loops[t]) == Some(x)
    ensures ClosesOf(Caught(w.s, t, x, error).out, r) == ClosesOf(w.s.out, r) + One(x == r && !Aborted(w.s.m, x))
  {
    hide Inv, ClosesOf, S.Finish, EmitTerminalOnce, TerminalsOf;
    AboutLoop(w, cfg, t);
    if !Aborted(w.s.m, x) {
      FinishAndLeaveKeeps(w, cfg, t, x, FAILED, Some(error), None, RunFailed);
      var s1 := w.s.(m := S.FailRun(w.s.m, w.s.now, x, error).m);
      EmitCloses(s1, x, RunFailed, r);
      SendCloses(EmitTerminalOnce(s1, x, RunFailed).out, Closed(x), r);
    }
  }

  lemma WorkspaceCloses(w: World, cfg: S.Config, t: LoopId, error: Option<string>, r: RunId)
    requires Inv(w, cfg) && Enabled(w.s, Workspace(t, error))
    ensures ClosesOf(WorkspaceStep(w.s, t, error).out, r)
         == ClosesOf(w.s.out, r) + One(Closes(w.s, Workspace(t, error), r))
  {
    hide Inv, ClosesOf, S.StartRun, Caught;
    var x := w.s.loops[t].stage.run;
    AboutLoop(w, cfg, t);
    CaughtCloses(w, cfg, t, x, if error.Some? then error.value else TRANSITION_REFUSED, r);
    if w.s.m.runs[x].state == LEASED {
      StartShape(w.s.m, w.s.now, x);
    } else {
      StartRefused(w.s.m, w.s.now, x);
    }
    SendCloses(w.s.out, Started(x), r);
  }

  lemma SettleCloses(w: World, cfg: S.Config, t: LoopId, outcome: Result<seq<string>, string>, r: RunId)
    requires Inv(w, cfg) && Enabled(w.s, Settle(t, outcome))
    ensures ClosesOf(SettleStep(w.s, t, outcome).out, r)
         == ClosesOf(w.s.out, r) + One(Closes(w.s, Settle(t, outcome), r))
  {
    hide Inv, ClosesOf, S.Finish, Caught, EmitTerminalOnce, TerminalsOf;
    var x := w.s.loops[t].stage.run;
    AboutLoop(w, cfg, t);
    if outcome.Failure? {
      CaughtCloses(w, cfg, t, x, outcome.error, r);
    } else if Aborted(w.s.m, x) {
      SendCloses(w.s.out, Closed(x), r);
    } else {
      FinishAndLeaveKeeps(w, cfg, t, x, COMPLETED, None, Some(outcome.value), RunCompleted);
      var s1 := w.s.(m := S.CompleteRun(w.s.m, w.s.now, x, Some(outcome.value)).m);
      EmitCloses(s1, x, RunCompleted, r);
      SendCloses(EmitTerminalOnce(s1, x, RunCompleted).out, Closed(x), r);
    }
  }

  /** A step closes a run's stream exactly if it is one of those, and then once. */
  lemma StepClosesIff(w: World, cfg: S.Config, a: Action, r: RunId)
    requires Inv(w, cfg) && Enabled(w.s, a)
    ensures ClosesOf(Next(w.s, cfg, a).out, r) == ClosesOf(w.s.out, r) + One(Closes(w.s, a, r))
  {
    hide Inv, ClosesOf, WorkspaceStep, SettleStep, Caught, OnAbort, EmitTerminalOnce;
    hide S.CreateRun, S.AcquireNextRun, S.CancelRun, S.FireTimeout;
    match a
    case Create(id, owner, max, _) =>
      var o := S.CreateRun(w.s.m, cfg, w.s.now, id, owner, max);
      if o.result.Success? {
        var position := o.result.value.queuePosition;
        SendCloses(w.s.out, Queued(id, if position.Some? then position.value else 0), r);
      }
    case Workspace(t, error) => WorkspaceCloses(w, cfg, t, error, r);
    case Load(t, error) =>
      if error.Some? { CaughtCloses(w, cfg, t, w.s.loops[t].stage.run, error.value, r); }
    case Settle(t, outcome) => SettleCloses(w, cfg, t, outcome, r);
    case AgentEvent(x) => SendCloses(w.s.out, Agent(x), r);
    case Cancel(id, owner, reason) =>
      var o := S.CancelRun(w.s.m, w.s.now, id, reason);
      AbortCloses(w.s.(m := o.m), id, o.aborted, r);
      EmitCloses(OnAbort(w.s.(m := o.m), id, o.aborted), id, RunCancelled, r);
    case Fire(id) =>
      var o := S.FireTimeout(w.s.m, w.s.now, id);
      AbortCloses(w.s.(m := o.m), id, o.aborted, r);
    case _ =>
  }

  // Over runs of the system.

  /** Some step of this run of the system closed r's stream. */
  ghost predicate ClosedDuring(w: World, cfg: S.Config, actions: seq<Action>, r: RunId)
    requires Possible(w, cfg, actions)
    decreases |actions|
  {
    actions != [] && (Closes(w.s, actions[0], r) || ClosedDuring(Step(w, cfg, actions[0]), cfg, actions[1..], r))
  }

  lemma DroppedStays(w: World, cfg: S.Config, a: Action)
    requires Enabled(w.s, a)
    ensures w.h.dropped <= Step(w, cfg, a).h.dropped
  {
    hide Next;
  }

  /** A closing step also drops the guard, of a run whose guard had not been dropped. */
  lemma ClosingDrops(w: World, cfg: S.Config, a: Action, r: RunId)
    requires Inv(w, cfg) && Enabled(w.s, a) && Closes(w.s, a, r)
    ensures r !in w.h.dropped && r in Step(w, cfg, a).h.dropped
  {
    hide Inv, WorkspaceStep, SettleStep, Caught;
    AboutLoop(w, cfg, a.loop);
    match a
    case Workspace(t, error) =>
      CaughtStays(w, cfg, t, error.value);
      WorkspaceFails(w.s, t, error);
    case Load(t, error) => CaughtStays(w, cfg, t, error.value);
    case Settle(t, outcome) => SettleStays(w, cfg, t, outcome);
  }

  lemma WorkspaceFails(s: Sys, t: LoopId, error: Option<string>)
    requires t in s.loops && s.loops[t].stage.Preparing? && error.Some?
    ensures WorkspaceStep(s, t, error) == Caught(s, t, s.loops[t].stage.run, error.value)
  {
  }

  lemma {:induction false} ClosedNoMore(w: World, cfg: S.Config, actions: seq<Action>, r: RunId)
    requires Inv(w, cfg) && Possible(w, cfg, actions) && r in w.h.dropped
    ensures !ClosedDuring(w, cfg, actions, r)
    decreases |actions|
  {
    hide Inv, Next, Record, Closes;
    if actions != [] {
      if Closes(w.s, actions[0], r) { ClosingDrops(w, cfg, actions[0], r); }
      DroppedStays(w, cfg, actions[0]);
      StepKeeps(w, cfg, actions[0]);
      ClosedNoMore(Step(w, cfg, actions[0]), cfg, actions[1..], r);
    }
  }

  lemma {:induction false} RunCloses(w: World, cfg: S.Config, actions: seq<Action>, r: RunId)
    requires Inv(w, cfg) && Possible(w, cfg, actions)
    ensures ClosesOf(After(w, cfg, actions).s.out, r) == ClosesOf(w.s.out, r) + One(ClosedDuring(w, cfg, actions, r))
    ensures ClosedDuring(w, cfg, actions, r) ==> r in After(w, cfg, actions).h.dropped
    ensures w.h.dropped <= After(w, cfg, actions).h.dropped
    decreases |actions|
  {
    hide Inv, Next, Record, Closes, ClosesOf;
    if actions != [] {
      var w' := Step(w, cfg, actions[0]);
      StepClosesIff(w, cfg, actions[0], r);
      StepKeeps(w, cfg, actions[0]);
      DroppedStays(w, cfg, actions[0]);
      RunCloses(w', cfg, actions[1..], r);
      if Closes(w.s, actions[0], r) {
        ClosingDrops(w, cfg, actions[0], r);
        ClosedNoMore(w', cfg, actions[1..], r);
      }
    }
  }

  /** A run's stream is closed at most once, and exactly if the executor left the run by its completed path,
      its failed path, or aborted after a prompt that came back. So never before the run has ended, and never
      for a run cancelled while queued, whose buffer and numbers stay. */
  lemma ClosedOnceIff(cfg: S.Config, actions: seq<Action>, r: RunId)
    requires Possible(INITIAL, cfg, actions)
    ensures var w := After(INITIAL, cfg, actions);
            && ClosesOf(w.s.out, r) == One(ClosedDuring(INITIAL, cfg, actions, r))
            && (ClosesOf(w.s.out, r) > 0 ==>
                  r in w.s.m.runs && IsTerminalState(w.s.m.runs[r].state) && r in w.h.dropped && r !in w.h.withdrawn)
  {
    hide Inv, After, ClosedDuring, TerminalsOf, WithdrawnOk;
    InitInv(cfg);
    RunCloses(INITIAL, cfg, actions, r);
    ReachableInv(cfg, actions);
    ReachableWithdrawn(cfg, actions);
    AboutRun(After(INITIAL, cfg, actions), cfg, r);
    if r in After(INITIAL, cfg, actions).h.withdrawn { WithdrawnKeepsGuard(After(INITIAL, cfg, actions), r); }
  }

  lemma WithdrawnKeepsGuard(w: World, r: RunId)
    requires AllWithdrawnOk(w) && r in w.h.withdrawn
    ensures r !in w.h.dropped
  {
    assert WithdrawnOk(w, r);
  }
}
