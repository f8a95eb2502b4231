/** Whose agent's events are passed on. */
module ServiceSubscriptions {
  import opened Collections
  import opened RunTypes
  import opened ServiceSpec
  import opened ServiceInvariant
  import opened ServiceSteps
  import opened ServiceTheorems
  import ServiceClosing
  import S = ManagerSpec

  ghost predicate IsPrompting(s: Sys, r: RunId) {
    exists t :: t in s.loops && s.loops[t].stage == Prompting(r)
  }

  predicate StartsPrompt(s: Sys, a: Action, r: RunId)
    requires a.Load? ==> a.loop in s.loops
  {
    a.Load? && a.error.None? && RunOf(s.loops[a.loop]) == Some(r)
  }

  predicate EndsPrompt(s: Sys, a: Action, r: RunId)
    requires a.Settle? ==> a.loop in s.loops
  {
    a.Settle? && RunOf(s.loops[a.loop]) == Some(r)
  }

  predicate Rejects(s: Sys, a: Action, r: RunId)
    requires a.Settle? ==> a.loop in s.loops
  {
    EndsPrompt(s, a, r) && a.outcome.Failure?
  }

  lemma WorkspaceSubscribes(s: Sys, t: LoopId, error: Option<string>)
    requires t in s.loops && s.loops[t].stage.Preparing?
    ensures WorkspaceStep(s, t, error).subscribed == s.subscribed
  {
    hide Caught, S.StartRun;
    var r := s.loops[t].stage.run;
    var s1 := s.(m := S.StartRun(s.m, s.now, r).m);
    CaughtAside(s, t, r, if error.Some? then error.value else TRANSITION_REFUSED, s.subscribed);
    CaughtAside(s1, t, r, TRANSITION_REFUSED, s.subscribed);
  }

  lemma StepSubscribes(s: Sys, cfg: S.Config, a: Action, r: RunId)
    requires Enabled(s, a)
    ensures r in Next(s, cfg, a).subscribed
       <==> StartsPrompt(s, a, r) || (r in s.subscribed && (EndsPrompt(s, a, r) ==> Rejects(s, a, r)))
  {
    hide WorkspaceStep, AfterPrompt, Caught, S.CreateRun, S.AcquireNextRun, S.CancelRun, S.FireTimeout;
    match a
    case Workspace(t, error) => WorkspaceSubscribes(s, t, error);
    case Load(t, error) =>
      if error.Some? { CaughtAside(s, t, s.loops[t].stage.run, error.value, s.subscribed); }
    case Settle(t, outcome) => AfterPromptAside(s, t, outcome, s.subscribed);
    case _ =>
  }

  /** A step of another kind leaves the loops that prompt as they are. */
  lemma OtherStepsKeepPrompts(s: Sys, cfg: S.Config, a: Action, r: RunId)
    requires Enabled(s, a) && !a.Workspace? && !a.Load? && !a.Settle?
    ensures IsPrompting(Next(s, cfg, a), r) <==> IsPrompting(s, r)
  {
    hide S.CreateRun, S.AcquireNextRun, S.CancelRun, S.FireTimeout;
    var s' := Next(s, cfg, a);
    forall t | t in s.loops && s.loops[t].stage == Prompting(r) ensures t in s'.loops && s'.loops[t] == s.loops[t] {
    }
    forall t | t in s'.loops && s'.loops[t].stage == Prompting(r) ensures t in s.loops && s.loops[t] == s'.loops[t] {
    }
  }

  /** Where the loop that takes an executor step goes, as far as prompting is concerned. */
  lemma ExecutorGoes(w: World, cfg: S.Config, a: Action)
    requires Inv(w, cfg) && Enabled(w.s, a) && (a.Workspace? || a.Load? || a.Settle?)
    ensures var s' := Next(w.s, cfg, a);
            && a.loop in s'.loops && s'.loops == w.s.loops[a.loop := s'.loops[a.loop]]
            && (forall r :: s'.loops[a.loop].stage == Prompting(r) <==> StartsPrompt(w.s, a, r))
  {
    hide Inv, WorkspaceStep, SettleStep, Caught;
    match a
    case Workspace(t, error) =>
      WorkspaceStays(w, cfg, t, error);
      WorkspaceNotPrompting(w, cfg, t, error);
    case Load(t, error) =>
      if error.Some? { CaughtStays(w, cfg, t, error.value); }
    case Settle(t, outcome) => SettleStays(w, cfg, t, outcome);
  }

  lemma WorkspaceNotPrompting(w: World, cfg: S.Config, t: LoopId, error: Option<string>)
    requires Inv(w, cfg) && Enabled(w.s, Workspace(t, error))
    ensures t in WorkspaceStep(w.s, t, error).loops ==> !WorkspaceStep(w.s, t, error).loops[t].stage.Prompting?
  {
    hide Inv, S.StartRun, Caught;
    var r := w.s.loops[t].stage.run;
    AboutLoop(w, cfg, t);
    CaughtStays(w, cfg, t, if error.Some? then error.value else TRANSITION_REFUSED);
    if w.s.m.runs[r].state == LEASED {
      StartShape(w.s.m, w.s.now, r);
    } else {
      StartRefused(w.s.m, w.s.now, r);
    }
  }

  lemma StepPrompts(w: World, cfg: S.Config, a: Action, r: RunId)
    requires Inv(w, cfg) && Enabled(w.s, a)
    ensures IsPrompting(Next(w.s, cfg, a), r)
       <==> StartsPrompt(w.s, a, r) || (IsPrompting(w.s, r) && !EndsPrompt(w.s, a, r))
  {
    hide Inv, Next, StageOk;
    var s' := Next(w.s, cfg, a);
    if a.Workspace? || a.Load? || a.Settle? {
      ExecutorGoes(w, cfg, a);
      forall t | t in w.s.loops && w.s.loops[t].stage == Prompting(r)
        ensures t == a.loop <==> RunOf(w.s.loops[a.loop]) == Some(r)
      {
        if RunOf(w.s.loops[a.loop]) == Some(r) { OneLoopPerRun(w, cfg, t, a.loop, r); }
      }
      forall t | t in w.s.loops && t != a.loop ensures s'.loops[t] == w.s.loops[t] {
      }
    } else {
      OtherStepsKeepPrompts(w.s, cfg, a, r);
    }
  }

  lemma OneLoopPerRun(w: World, cfg: S.Config, t: LoopId, x: LoopId, r: RunId)
    requires Inv(w, cfg) && t in w.s.loops && x in w.s.loops
    requires RunOf(w.s.loops[t]) == Some(r) == RunOf(w.s.loops[x])
    ensures t == x
  {
    hide Inv;
    AboutLoop(w, cfg, t);
    AboutLoop(w, cfg, x);
    DistinctLoops(w, cfg);
  }

  // Over runs of the system.

  /** Some step of this run of the system was the rejection of r's prompt. */
  ghost predicate RejectedDuring(w: World, cfg: S.Config, actions: seq<Action>, r: RunId)
    requires Possible(w, cfg, actions)
    decreases |actions|
  {
    actions != [] && (Rejects(w.s, actions[0], r) || RejectedDuring(Step(w, cfg, actions[0]), cfg, actions[1..], r))
  }

  /** A run whose prompt was rejected has left the executor for good. */
  ghost predicate Subscribed(w: World, r: RunId, rejected: bool) {
    && (r in w.s.subscribed <==> IsPrompting(w.s, r) || rejected)
    && (rejected ==> r in w.h.dropped)
  }

  lemma RejectionDrops(w: World, cfg: S.Config, a: Action, r: RunId)
    requires Inv(w, cfg) && Enabled(w.s, a) && Rejects(w.s, a, r)
    ensures r in Step(w, cfg, a).h.dropped
  {
    hide Inv, SettleStep;
    SettleStays(w, cfg, a.loop, a.outcome);
  }

  lemma StepKeepsSubscribed(w: World, cfg: S.Config, a: Action, r: RunId, rejected: bool)
    requires Inv(w, cfg) && Enabled(w.s, a) && Subscribed(w, r, rejected)
    ensures Subscribed(Step(w, cfg, a), r, rejected || Rejects(w.s, a, r))
  {
    hide Inv, Next, Record;
    StepSubscribes(w.s, cfg, a, r);
    StepPrompts(w, cfg, a, r);
    ServiceClosing.DroppedStays(w, cfg, a);
    if Rejects(w.s, a, r) { RejectionDrops(w, cfg, a, r); }
    if EndsPrompt(w.s, a, r) {
      AboutLoop(w, cfg, a.loop);
      assert w.s.loops[a.loop].stage == Prompting(r);
    }
  }

  lemma {:induction false} RunKeepsSubscribed(w: World, cfg: S.Config, actions: seq<Action>, r: RunId, rejected: bool)
    requires Inv(w, cfg) && Possible(w, cfg, actions) && Subscribed(w, r, rejected)
    ensures Subscribed(After(w, cfg, actions), r, rejected || RejectedDuring(w, cfg, actions, r))
    decreases |actions|
  {
    hide Inv, Next, Record, Subscribed, Rejects;
    if actions != [] {
      StepKeeps(w, cfg, actions[0]);
      StepKeepsSubscribed(w, cfg, actions[0], r, rejected);
      RunKeepsSubscribed(Step(w, cfg, actions[0]), cfg, actions[1..], r, rejected || Rejects(w.s, actions[0], r));
    }
  }

  /** In every reachable state an agent's events are passed on exactly while its prompt is running, or, once
      that was rejected, for ever after, although its run has ended by then. */
  lemma SubscribedIff(cfg: S.Config, actions: seq<Action>, r: RunId)
    requires Possible(INITIAL, cfg, actions)
    ensures var w := After(INITIAL, cfg, actions); var rejected := RejectedDuring(INITIAL, cfg, actions, r);
            && (Enabled(w.s, AgentEvent(r)) <==> IsPrompting(w.s, r) || rejected)
            && (rejected ==> r in w.s.m.runs && IsTerminalState(w.s.m.runs[r].state))
  {
    hide Inv, After, RejectedDuring, Possible, IsPrompting, TerminalsOf;
    InitInv(cfg);
    InitSubscribed(r);
    RunKeepsSubscribed(INITIAL, cfg, actions, r, false);
    ReachableInv(cfg, actions);
    AboutRun(After(INITIAL, cfg, actions), cfg, r);
  }

  lemma InitSubscribed(r: RunId)
    ensures Subscribed(INITIAL, r, false)
  {
  }
}
