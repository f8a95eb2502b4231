/** What a run is given when it is created and what it ends with, over every run of the service. */
module ServiceOutcomes {
  import opened Collections
  import opened RunTypes
  import opened Owner
  import opened ServiceSpec
  import opened ServiceInvariant
  import opened ServiceSteps
  import opened ServiceTheorems
  import opened ServiceCalls
  import opened ServiceTimers
  import MT = ManagerTheorems
  import RF = RunFates
  import MI = ManagerInvariant
  import S = ManagerSpec
  import Q = QueueSpec
  import T = TimeoutSpec

  /** A step of a run of the system: the state it was taken in, and the action. */
  datatype Moment = Moment(s: Sys, a: Action)

  /** The step that created run r. */
  ghost function CreatedBy(w: World, cfg: S.Config, actions: seq<Action>, r: RunId): Option<Moment>
    requires Possible(w, cfg, actions)
    decreases |actions|
  {
    if actions == [] then None
    else if r !in w.s.m.runs && r in Next(w.s, cfg, actions[0]).m.runs then Some(Moment(w.s, actions[0]))
    else CreatedBy(Step(w, cfg, actions[0]), cfg, actions[1..], r)
  }

  /** The step in which run r ended. */
  ghost function EndedBy(w: World, cfg: S.Config, actions: seq<Action>, r: RunId): Option<Moment>
    requires Possible(w, cfg, actions)
    decreases |actions|
  {
    if actions == [] then None
    else if Unfinished(w.s, r) && !Unfinished(Next(w.s, cfg, actions[0]), r) then Some(Moment(w.s, actions[0]))
    else EndedBy(Step(w, cfg, actions[0]), cfg, actions[1..], r)
  }

  /** What the creating step settles about a record, for good. */
  ghost predicate CreatedAs(run: S.Run, cfg: S.Config, made: Moment) {
    && made.a.Create? && run.id == made.a.id && run.owner == made.a.owner && run.createdAt == made.s.now
    && OwnerKeyFromPrincipal(made.a.owner) == Some(run.userId)
    && RF.Grants(cfg, made.a.maxDurationMs, run.maxDurationMs)
  }

  /** The run that loop t was busy with. */
  predicate Busy(s: Sys, t: LoopId, r: RunId) {
    t in s.loops && RunOf(s.loops[t]) == Some(r)
  }

  /** The error a step of the executor failed with. */
  function Thrown(a: Action): Option<string> {
    match a
    case Workspace(_, error) => error
    case Load(_, error) => error
    case Settle(_, Failure(error)) => Some(error)
    case _ => None
  }

  /** What a run ends with, by what ended it. */
  predicate EndsAs(run: S.Run, end: Moment) {
    && run.completedAt == Some(end.s.now)
    && match run.state
       case COMPLETED =>
         && end.a.Settle? && end.a.loop in end.s.loops && end.s.loops[end.a.loop].stage == Prompting(run.id)
         && end.a.outcome.Success? && run.finalMessages == Some(end.a.outcome.value) && run.error == None
       case FAILED =>
         && Thrown(end.a).Some? && Busy(end.s, end.a.loop, run.id)
         && run.error == (if Thrown(end.a).value == "" then None else Thrown(end.a)) && run.finalMessages == None
       case CANCELLED =>
         && end.a.Cancel? && end.a.id == run.id && end.a.owner == run.owner && run.finalMessages == None
         && run.error == (match end.a.reason
                          case None => Some("cancelled")
                          case Some(text) => if text == "" then None else Some(text))
       case TIMED_OUT =>
         && end.a == Fire(run.id)
         && run.error == Some("Run exceeded maximum duration") && run.finalMessages == None
       case _ => false
  }

  /** A run that appears was created by this step. */
  lemma StepCreates(w: World, cfg: S.Config, a: Action, r: RunId)
    requires Inv(w, cfg) && Enabled(w.s, a)
    ensures var s' := Next(w.s, cfg, a);
            r in s'.m.runs && r !in w.s.m.runs ==> CreatedAs(s'.m.runs[r], cfg, Moment(w.s, a)) && Unfinished(s', r)
  {
    hide Inv, Next, OwnerKeyFromPrincipal, RF.Grants, CallOf, Enabled;
    StepMakes(w, cfg, a, r);
  }

  /** A run that ends is ended by this step. */
  lemma StepEnds(w: World, cfg: S.Config, a: Action, r: RunId)
    requires Inv(w, cfg) && Enabled(w.s, a) && Unfinished(w.s, r) && !Unfinished(Next(w.s, cfg, a), r)
    ensures var s' := Next(w.s, cfg, a); r in s'.m.runs && EndsAs(s'.m.runs[r], Moment(w.s, a))
  {
    hide Inv, Next, OwnerKeyFromPrincipal, RF.Arrives;
    StepMakes(w, cfg, a, r);
    AboutRun(w, cfg, r);
  }

  /** Every run was created by one Create action, which settled whose it is, when it was created and how long it
      may take: what was asked for, or the default if nothing was, but no more than the configured maximum. */
  lemma {:induction false} CreatedByCreate(w: World, cfg: S.Config, actions: seq<Action>, r: RunId)
    requires Inv(w, cfg) && Possible(w, cfg, actions) && r !in w.s.m.runs
    ensures var s' := After(w, cfg, actions).s; var made := CreatedBy(w, cfg, actions, r);
            && (r in s'.m.runs <==> made.Some?)
            && (r in s'.m.runs ==> CreatedAs(s'.m.runs[r], cfg, made.value))
    decreases |actions|
  {
    hide Inv, Next, Record, CreatedAs;
    if actions != [] {
      var w' := Step(w, cfg, actions[0]);
      StepKeeps(w, cfg, actions[0]);
      StepCreates(w, cfg, actions[0], r);
      if r in w'.s.m.runs {
        CreationStays(w', cfg, actions[1..], r, Moment(w.s, actions[0]));
      } else {
        CreatedByCreate(w', cfg, actions[1..], r);
      }
    }
  }

  lemma {:induction false} CreationStays(w: World, cfg: S.Config, actions: seq<Action>, r: RunId, made: Moment)
    requires Inv(w, cfg) && Possible(w, cfg, actions)
    requires r in w.s.m.runs && CreatedAs(w.s.m.runs[r], cfg, made)
    ensures var s' := After(w, cfg, actions).s; r in s'.m.runs && CreatedAs(s'.m.runs[r], cfg, made)
    decreases |actions|
  {
    hide Inv, Next, Record, OwnerKeyFromPrincipal, RF.Grants;
    if actions != [] {
      StepKeeps(w, cfg, actions[0]);
      StepsFollowTable(w, cfg, actions[0]);
      assert MT.MayBecome(w.s.m.runs[r], Next(w.s, cfg, actions[0]).m.runs[r]);
      CreationStays(Step(w, cfg, actions[0]), cfg, actions[1..], r, made);
    }
  }

  /** Every run that has ended ended in one step, and its record says what that step brought: the agent's messages,
      the error that was thrown, the reason its own principal gave, or the timeout. */
  lemma {:induction false} EndsByItsEnd(w: World, cfg: S.Config, actions: seq<Action>, r: RunId)
    requires Inv(w, cfg) && Possible(w, cfg, actions) && (r in w.s.m.runs ==> Unfinished(w.s, r))
    ensures var s' := After(w, cfg, actions).s; var end := EndedBy(w, cfg, actions, r);
            && (r in s'.m.runs && !Unfinished(s', r) <==> end.Some?)
            && (end.Some? ==> EndsAs(s'.m.runs[r], end.value))
    decreases |actions|
  {
    hide Inv, Next, Record, EndsAs, Unfinished;
    if actions != [] {
      var w' := Step(w, cfg, actions[0]);
      StepKeeps(w, cfg, actions[0]);
      StepCreates(w, cfg, actions[0], r);
      StaysKnown(w, cfg, actions[0], r);
      if Unfinished(w.s, r) && !Unfinished(w'.s, r) {
        StepEnds(w, cfg, actions[0], r);
        EndedStays(w', cfg, actions[1..], r);
      } else {
        EndsByItsEnd(w', cfg, actions[1..], r);
      }
    }
  }

  lemma StaysKnown(w: World, cfg: S.Config, a: Action, r: RunId)
    requires Inv(w, cfg) && Enabled(w.s, a)
    ensures r in w.s.m.runs ==> r in Next(w.s, cfg, a).m.runs
    ensures Unfinished(w.s, r) ==> r in w.s.m.runs
    ensures forall s :: Unfinished(s, r) ==> r in s.m.runs
  {
    hide Inv, Next;
    StepsFollowTable(w, cfg, a);
  }

  lemma EndedStays(w: World, cfg: S.Config, actions: seq<Action>, r: RunId)
    requires Inv(w, cfg) && Possible(w, cfg, actions) && r in w.s.m.runs && !Unfinished(w.s, r)
    ensures var s' := After(w, cfg, actions).s;
            r in s'.m.runs && s'.m.runs[r] == w.s.m.runs[r] && !Unfinished(s', r)
  {
    hide Inv, After;
    StateClasses(w.s.m.runs[r].state);
    EndedForGood(w, cfg, actions, r);
  }

  /** From the request to the timer: a RUNNING run that was created with a duration, or without one, is due
      exactly that long after it began running; a run that timed out did so no sooner. */
  lemma TimeGranted(cfg: S.Config, actions: seq<Action>, r: RunId, d: int)
    requires Possible(INITIAL, cfg, actions) && 1 <= d <= 0x7FFF_FFFF
    requires var made := CreatedBy(INITIAL, cfg, actions, r);
             && made.Some? && made.value.a.Create?
             && match made.value.a.maxDurationMs
                case Some(asked) => d == if asked <= cfg.maxTimeoutMs then asked else cfg.maxTimeoutMs
                case None => d == if cfg.defaultTimeoutMs <= cfg.maxTimeoutMs then cfg.defaultTimeoutMs
                                  else cfg.maxTimeoutMs
    ensures var s := After(INITIAL, cfg, actions).s; var began := Began(INITIAL, cfg, actions, map[]);
            && (MI.InState(s.m.runs, r, RUNNING) ==>
                  r in began && (Enabled(s, Fire(r)) <==> s.now >= began[r] + d))
            && (MI.InState(s.m.runs, r, TIMED_OUT) ==>
                  && r in began && EndedBy(INITIAL, cfg, actions, r).Some?
                  && EndedBy(INITIAL, cfg, actions, r).value.s.now >= began[r] + d)
  {
    hide Inv, After, Possible, Began, CreatedBy, EndedBy, Next;
    InitInv(cfg);
    CreatedByCreate(INITIAL, cfg, actions, r);
    EndsByItsEnd(INITIAL, cfg, actions, r);
    TimersAndContextsAgree(cfg, actions, r);
  }
}
