/** Everything the executor tells the event stream, in order. */
module ServiceTranscript {
  import opened Collections
  import opened RunTypes
  import opened Owner
  import opened ServiceSpec
  import opened ServiceInvariant
  import opened ServiceSteps
  import opened ServiceTheorems
  import opened ServiceCalls
  import opened ServiceTimers
  import opened ServiceOutcomes
  import opened ServiceSubscriptions
  import MI = ManagerInvariant
  import MT = ManagerTheorems
  import RF = RunFates
  import S = ManagerSpec
  import Q = QueueSpec

  /** What a step tells the event stream. */
  function Spoken(s: Sys, a: Action): seq<Emission>
    requires (a.Workspace? || a.Load? || a.Settle?) ==> a.loop in s.loops && RunOf(s.loops[a.loop]).Some?
  {
    match a
    case Create(id, owner, _, _) =>
      var key := OwnerKeyFromPrincipal(owner);
      if key.None? then [] else [Queued(id, |Q.Lane(s.m.queue, key.value)|)]
    case Workspace(t, None) =>
      var r := s.loops[t].stage.run;
      if Unfinished(s, r) then [Started(r)] else []
    case Workspace(t, Some(_)) => FailureSpoken(s, s.loops[t].stage.run)
    case Load(t, None) => []
    case Load(t, Some(_)) => FailureSpoken(s, s.loops[t].stage.run)
    case Settle(t, Success(_)) =>
      var r := s.loops[t].stage.run;
      if Unfinished(s, r) then [Terminal(r, RunCompleted), Closed(r)] else [Closed(r)]
    case Settle(t, Failure(_)) => FailureSpoken(s, s.loops[t].stage.run)
    case AgentEvent(r) => [Agent(r)]
    case Cancel(id, owner, reason) =>
      if id !in s.m.runs || s.m.runs[id].owner != owner then []
      else if Unfinished(s, id) then
        [Terminal(id, if id in s.listening && s.m.runs[id].state == RUNNING && reason == Some("timeout")
                      then RunTimedOut else RunCancelled)]
      else if s.m.runs[id].state == CANCELLED && id !in s.guard then [Terminal(id, RunCancelled)]
      else []
    case Fire(id) => if id in s.listening then [Terminal(id, RunTimedOut)] else []
    case _ => []
  }

  function FailureSpoken(s: Sys, r: RunId): seq<Emission> {
    if Unfinished(s, r) then [Terminal(r, RunFailed), Closed(r)] else []
  }

  /** A step tells the event stream exactly that. */
  lemma StepSays(w: World, cfg: S.Config, a: Action)
    requires Inv(w, cfg) && Enabled(w.s, a)
    ensures Next(w.s, cfg, a).out == w.s.out + Spoken(w.s, a)
  {
    hide Inv, S.CreateRun, S.AcquireNextRun, WorkspaceStep, SettleStep, CancelStep, FireStep, Caught;
    hide OwnerKeyFromPrincipal;
    match a
    case Create(id, owner, max, _) => CreateSays(w.s, cfg, a);
    case Workspace(t, error) => WorkspaceSays(w, cfg, t, error);
    case Load(t, error) =>
      AboutLoop(w, cfg, t);
      if error.Some? { CaughtSays(w, cfg, t, error.value); }
    case Settle(t, outcome) => SettleSays(w, cfg, t, outcome);
    case Cancel(id, owner, reason) => CancelSays(w, cfg, id, owner, reason);
    case Fire(id) => FireSays(w, cfg, id);
    case _ =>
  }

  lemma CreateSays(s: Sys, cfg: S.Config, a: Action)
    requires a.Create?
    ensures CreateStep(s, cfg, a).out == s.out + Spoken(s, a)
  {
    hide OwnerKeyFromPrincipal, Q.Enqueue;
  }

  /** An unfinished run has no guard. */
  lemma UnfinishedUnguarded(w: World, cfg: S.Config, r: RunId)
    requires Inv(w, cfg) && Unfinished(w.s, r)
    ensures r !in w.s.guard
  {
    hide Inv, TerminalsOf;
    AboutRun(w, cfg, r);
  }

  lemma CaughtSays(w: World, cfg: S.Config, t: LoopId, error: string)
    requires Inv(w, cfg) && t in w.s.loops && RunOf(w.s.loops[t]).Some?
    ensures var r := w.s.loops[t].stage.run; Caught(w.s, t, r, error).out == w.s.out + FailureSpoken(w.s, r)
  {
    hide Inv, S.Finish;
    var r := w.s.loops[t].stage.run;
    AboutLoop(w, cfg, t);
    if Unfinished(w.s, r) {
      UnfinishedUnguarded(w, cfg, r);
      FinishAndLeaveKeeps(w, cfg, t, r, FAILED, Some(error), None, RunFailed);
      assert w.s.out + [Terminal(r, RunFailed)] + [Closed(r)] == w.s.out + [Terminal(r, RunFailed), Closed(r)];
    }
  }

  lemma WorkspaceSays(w: World, cfg: S.Config, t: LoopId, error: Option<string>)
    requires Inv(w, cfg) && Enabled(w.s, Workspace(t, error))
    ensures WorkspaceStep(w.s, t, error).out == w.s.out + Spoken(w.s, Workspace(t, error))
  {
    hide Inv, S.StartRun, Caught;
    AboutLoop(w, cfg, t);
    var r := w.s.loops[t].stage.run;
    if error.Some? {
      CaughtSays(w, cfg, t, error.value);
    } else if w.s.m.runs[r].state == LEASED {
      StartShape(w.s.m, w.s.now, r);
    } else {
      StartRefused(w.s.m, w.s.now, r);
      CaughtSays(w, cfg, t, TRANSITION_REFUSED);
    }
  }

  lemma SettleSays(w: World, cfg: S.Config, t: LoopId, outcome: Result<seq<string>, string>)
    requires Inv(w, cfg) && Enabled(w.s, Settle(t, outcome))
    ensures SettleStep(w.s, t, outcome).out == w.s.out + Spoken(w.s, Settle(t, outcome))
  {
    hide Inv, S.Finish, Caught, TerminalsOf;
    AboutLoop(w, cfg, t);
    var r := w.s.loops[t].stage.run;
    if outcome.Failure? {
      CaughtSays(w, cfg, t, outcome.error);
    } else if w.s.m.runs[r].state == RUNNING {
      UnfinishedUnguarded(w, cfg, r);
      FinishAndLeaveKeeps(w, cfg, t, r, COMPLETED, None, Some(outcome.value), RunCompleted);
      assert w.s.out + [Terminal(r, RunCompleted)] + [Closed(r)] == w.s.out + [Terminal(r, RunCompleted), Closed(r)];
    }
  }

  lemma CancelSays(w: World, cfg: S.Config, id: RunId, owner: OwnerPrincipal, reason: Option<string>)
    requires Inv(w, cfg)
    ensures CancelStep(w.s, id, owner, reason).out == w.s.out + Spoken(w.s, Cancel(id, owner, reason))
  {
    hide Inv, S.CancelRun, MI.Inv;
    if MayCancel(w.s, id, owner) {
      ManagerPart(w, cfg);
      StateClasses(w.s.m.runs[id].state);
      if Unfinished(w.s, id) {
        UnfinishedUnguarded(w, cfg, id);
        CancelShape(w.s.m, w.s.now, id, reason);
        MT.CancelKeeps(w.s.m, cfg, w.s.now, id, reason);
        assert |"user_cancelled"| != |"timeout"|;
      } else {
        CancelOfEnded(w.s.m, w.s.now, id, reason);
      }
    }
  }

  lemma FireSays(w: World, cfg: S.Config, id: RunId)
    requires Inv(w, cfg) && Enabled(w.s, Fire(id))
    ensures FireStep(w.s, id).out == w.s.out + Spoken(w.s, Fire(id))
  {
    hide Inv, S.FireTimeout;
    DueMeansRunning(w, cfg, id);
    UnfinishedUnguarded(w, cfg, id);
    FireKeeps(w, cfg, id);
  }

  // What is told about one run.

  function About(out: seq<Emission>, r: RunId): seq<Emission> {
    if out == [] then []
    else About(out[..|out| - 1], r) + if out[|out| - 1].run == r then [out[|out| - 1]] else []
  }

  lemma {:induction false} AboutAppend(out: seq<Emission>, more: seq<Emission>, r: RunId)
    ensures About(out + more, r) == About(out, r) + About(more, r)
    decreases |more|
  {
    if more == [] {
      assert out + more == out;
    } else {
      AboutAppend(out, more[..|more| - 1], r);
      assert (out + more)[..|out + more| - 1] == out + more[..|more| - 1];
    }
  }

  /** The one or two things a step says are all about one run. */
  lemma AboutFew(e: Emission, f: Emission, r: RunId)
    requires e.run == f.run
    ensures About([], r) == []
    ensures About([e], r) == if e.run == r then [e] else []
    ensures About([e, f], r) == if e.run == r then [e, f] else []
  {
    assert [e][..0] == [] && [e, f][..1] == [e];
  }

  /** The part of a transcript after the beginning. */
  predicate Later(told: seq<Emission>) {
    forall e :: e in told ==> !e.Queued? && !e.Started?
  }

  ghost predicate IsLoading(s: Sys, r: RunId) {
    exists t :: t in s.loops && s.loops[t].stage.Loading? && s.loops[t].stage.run == r
  }

  /** The agent of a run is being loaded, is prompted, or is listened to. */
  ghost predicate Streaming(s: Sys, r: RunId) {
    r in s.subscribed || IsPrompting(s, r) || IsLoading(s, r)
  }

  predicate Starts(s: Sys, a: Action, r: RunId) {
    a.Workspace? && a.error.None? && Busy(s, a.loop, r) && MI.InState(s.m.runs, r, LEASED)
  }

  lemma LoadingStarts(w: World, cfg: S.Config, a: Action, r: RunId)
    requires Inv(w, cfg) && Enabled(w.s, a) && IsLoading(Next(w.s, cfg, a), r) && !IsLoading(w.s, r)
    ensures Starts(w.s, a, r)
  {
    hide Inv, S.CreateRun, S.AcquireNextRun, S.CancelRun, S.FireTimeout, WorkspaceStep, SettleStep, Caught, StageOk;
    match a
    case Workspace(t, error) =>
      WorkspaceStays(w, cfg, t, error);
      WorkspaceLoads(w, cfg, t, error);
    case Load(t, error) =>
      if error.Some? { CaughtStays(w, cfg, t, error.value); }
    case Settle(t, outcome) => SettleStays(w, cfg, t, outcome);
    case _ =>
  }

  lemma WorkspaceLoads(w: World, cfg: S.Config, t: LoopId, error: Option<string>)
    requires Inv(w, cfg) && Enabled(w.s, Workspace(t, error))
    requires t in WorkspaceStep(w.s, t, error).loops && WorkspaceStep(w.s, t, error).loops[t].stage.Loading?
    ensures Starts(w.s, Workspace(t, error), WorkspaceStep(w.s, t, error).loops[t].stage.run)
  {
    hide Inv, S.StartRun, Caught;
    AboutLoop(w, cfg, t);
    var r := w.s.loops[t].stage.run;
    CaughtStays(w, cfg, t, if error.Some? then error.value else TRANSITION_REFUSED);
    if w.s.m.runs[r].state == LEASED {
      StartShape(w.s.m, w.s.now, r);
    } else {
      StartRefused(w.s.m, w.s.now, r);
    }
  }

  /** Streaming begins when the run is started. */
  lemma StreamingStarts(w: World, cfg: S.Config, a: Action, r: RunId)
    requires Inv(w, cfg) && Enabled(w.s, a) && Streaming(Next(w.s, cfg, a), r) && !Streaming(w.s, r)
    ensures Starts(w.s, a, r)
  {
    hide Inv, Next, StageOk;
    StepSubscribes(w.s, cfg, a, r);
    StepPrompts(w, cfg, a, r);
    if IsLoading(Next(w.s, cfg, a), r) { LoadingStarts(w, cfg, a, r); }
  }

  /** The transcript of run r: told of when it is created, then when it begins running, if it does, and only
      after that of what its agent does. */
  ghost predicate ToldOk(s: Sys, began: Moments, r: RunId) {
    var told := About(s.out, r);
    if r !in s.m.runs then told == [] && r !in began && !Streaming(s, r)
    else
      && told != [] && told[0].Queued?
      && (s.m.runs[r].state in {QUEUED, LEASED} ==> |told| == 1 && r !in began)
      && (s.m.runs[r].state == RUNNING ==> r in began)
      && (r in began ==> |told| >= 2 && told[1] == Started(r) && Later(told[2..]))
      && (r !in began ==> Later(told[1..]) && !Streaming(s, r) && forall e :: e in told ==> !e.Agent?)
  }

  /** A step speaks about one run at most. */
  lemma SaidAbout(s: Sys, a: Action, r: RunId)
    requires (a.Workspace? || a.Load? || a.Settle?) ==> a.loop in s.loops && RunOf(s.loops[a.loop]).Some?
    ensures var said := Spoken(s, a); About(said, r) == if said != [] && said[0].run == r then said else []
  {
    hide OwnerKeyFromPrincipal, About;
    var said := Spoken(s, a);
    if |said| == 2 {
      AboutFew(said[0], said[1], r);
      assert said == [said[0], said[1]];
    } else if |said| == 1 {
      AboutFew(said[0], said[0], r);
      assert said == [said[0]];
    } else {
      AboutFew(Closed(r), Closed(r), r);
    }
  }

  /** What a step says about a run that is there already. */
  lemma SaysLater(w: World, cfg: S.Config, a: Action, r: RunId)
    requires Inv(w, cfg) && Enabled(w.s, a) && r in w.s.m.runs
    requires Spoken(w.s, a) != [] && Spoken(w.s, a)[0].run == r
    ensures if Starts(w.s, a, r) then Spoken(w.s, a) == [Started(r)] else Later(Spoken(w.s, a))
    ensures !Streaming(w.s, r) ==> forall e :: e in Spoken(w.s, a) ==> !e.Agent?
  {
    hide Inv, OwnerKeyFromPrincipal;
    if a.Workspace? || a.Load? || a.Settle? { AboutLoop(w, cfg, a.loop); }
  }

  /** A run that is still waiting to be started has had nothing said about it in this step. */
  lemma SilentUntilStarted(w: World, cfg: S.Config, a: Action, r: RunId)
    requires Inv(w, cfg) && Enabled(w.s, a) && r in w.s.m.runs && !Streaming(w.s, r)
    requires r in Next(w.s, cfg, a).m.runs && Next(w.s, cfg, a).m.runs[r].state in {QUEUED, LEASED}
    ensures Spoken(w.s, a) == [] || Spoken(w.s, a)[0].run != r
  {
    hide Inv, Next, OwnerKeyFromPrincipal, RF.Arrives;
    hide RF.IsNext;
    StepMakes(w, cfg, a, r);
    if a.Workspace? || a.Load? || a.Settle? { AboutLoop(w, cfg, a.loop); }
    if a.Fire? { DueMeansRunning(w, cfg, a.id); }
  }

  /** A run begins running in the step that starts it. */
  lemma StartsIff(w: World, cfg: S.Config, a: Action, r: RunId)
    requires Inv(w, cfg) && Enabled(w.s, a)
    ensures Starts(w.s, a, r)
       <==> MI.InState(Next(w.s, cfg, a).m.runs, r, RUNNING) && !MI.InState(w.s.m.runs, r, RUNNING)
  {
    hide Inv, Next, OwnerKeyFromPrincipal, RF.IsNext;
    StepMakes(w, cfg, a, r);
  }

  lemma ToldStays(w: World, cfg: S.Config, a: Action, began: Moments, r: RunId, said: seq<Emission>)
    requires Inv(w, cfg) && Enabled(w.s, a) && ToldOk(w.s, began, r) && r in w.s.m.runs
    requires said == if Spoken(w.s, a) != [] && Spoken(w.s, a)[0].run == r then Spoken(w.s, a) else []
    requires About(Next(w.s, cfg, a).out, r) == About(w.s.out, r) + said
    ensures ToldOk(Next(w.s, cfg, a), NoteStarts(began, w.s, Next(w.s, cfg, a)), r)
  {
    hide Inv, Next, OwnerKeyFromPrincipal, About, Spoken, Streaming, Starts, Enabled;
    var s' := Next(w.s, cfg, a);
    StepsFollowTable(w, cfg, a);
    assert MT.MayBecome(w.s.m.runs[r], s'.m.runs[r]);
    StartsIff(w, cfg, a, r);
    if said != [] { SaysLater(w, cfg, a, r); }
    if Starts(w.s, a, r) {
      StartSaid(w, cfg, a, r);
    } else {
      if Streaming(s', r) && !Streaming(w.s, r) { StreamingStarts(w, cfg, a, r); }
      if s'.m.runs[r].state in {QUEUED, LEASED} { SilentUntilStarted(w, cfg, a, r); }
    }
  }

  lemma StartSaid(w: World, cfg: S.Config, a: Action, r: RunId)
    requires Inv(w, cfg) && Enabled(w.s, a) && Starts(w.s, a, r)
    ensures Spoken(w.s, a) == [Started(r)] && w.s.m.runs[r].state == LEASED
  {
    hide Inv;
  }

  /** Nothing is said about a run that does not exist. */
  lemma UnknownUnsaid(w: World, cfg: S.Config, a: Action, r: RunId)
    requires Inv(w, cfg) && Enabled(w.s, a) && r !in w.s.m.runs && !Streaming(w.s, r)
    ensures Spoken(w.s, a) != [] && Spoken(w.s, a)[0].run == r ==>
              a.Create? && a.id == r && OwnerKeyFromPrincipal(a.owner).Some?
    ensures !Streaming(Next(w.s, cfg, a), r)
  {
    hide Inv, Next, OwnerKeyFromPrincipal;
    if a.Workspace? || a.Load? || a.Settle? { AboutLoop(w, cfg, a.loop); }
    if a.Fire? { DueMeansRunning(w, cfg, a.id); }
    if Streaming(Next(w.s, cfg, a), r) { StreamingStarts(w, cfg, a, r); }
  }

  lemma ToldArrives(w: World, cfg: S.Config, a: Action, began: Moments, r: RunId, said: seq<Emission>)
    requires Inv(w, cfg) && Enabled(w.s, a) && ToldOk(w.s, began, r) && r !in w.s.m.runs
    requires said == if Spoken(w.s, a) != [] && Spoken(w.s, a)[0].run == r then Spoken(w.s, a) else []
    requires About(Next(w.s, cfg, a).out, r) == About(w.s.out, r) + said
    ensures ToldOk(Next(w.s, cfg, a), NoteStarts(began, w.s, Next(w.s, cfg, a)), r)
  {
    hide Inv, Next, OwnerKeyFromPrincipal, About, Streaming, CallOf, RF.Fate, RF.Grants;
    UnknownUnsaid(w, cfg, a, r);
    StepMakes(w, cfg, a, r);
    StartsIff(w, cfg, a, r);
  }

  lemma StepKeepsTold(w: World, cfg: S.Config, a: Action, began: Moments, r: RunId)
    requires Inv(w, cfg) && Enabled(w.s, a) && ToldOk(w.s, began, r)
    ensures ToldOk(Next(w.s, cfg, a), NoteStarts(began, w.s, Next(w.s, cfg, a)), r)
  {
    hide Inv, Next, About, ToldOk, Spoken, NoteStarts;
    StepSays(w, cfg, a);
    var said := Spoken(w.s, a);
    AboutAppend(w.s.out, said, r);
    SaidAbout(w.s, a, r);
    if r in w.s.m.runs {
      ToldStays(w, cfg, a, began, r, if said != [] && said[0].run == r then said else []);
    } else {
      ToldArrives(w, cfg, a, began, r, if said != [] && said[0].run == r then said else []);
    }
  }

  lemma {:induction false} RunKeepsTold(w: World, cfg: S.Config, actions: seq<Action>, began: Moments, r: RunId)
    requires Inv(w, cfg) && Possible(w, cfg, actions) && ToldOk(w.s, began, r)
    ensures ToldOk(After(w, cfg, actions).s, Began(w, cfg, actions, began), r)
    decreases |actions|
  {
    hide Inv, Next, Record, ToldOk, NoteStarts;
    if actions != [] {
      StepKeeps(w, cfg, actions[0]);
      StepKeepsTold(w, cfg, actions[0], began, r);
      RunKeepsTold(Step(w, cfg, actions[0]), cfg, actions[1..],
                   NoteStarts(began, w.s, Next(w.s, cfg, actions[0])), r);
    }
  }

  /** What was said stays said. */
  lemma {:induction false} OutGrows(w: World, cfg: S.Config, actions: seq<Action>, r: RunId)
    requires Inv(w, cfg) && Possible(w, cfg, actions) && About(w.s.out, r) != []
    ensures var told := About(After(w, cfg, actions).s.out, r); told != [] && told[0] == About(w.s.out, r)[0]
    decreases |actions|
  {
    hide Inv, Next, Record, About, Spoken;
    if actions != [] {
      StepKeeps(w, cfg, actions[0]);
      StepSays(w, cfg, actions[0]);
      AboutAppend(w.s.out, Spoken(w.s, actions[0]), r);
      OutGrows(Step(w, cfg, actions[0]), cfg, actions[1..], r);
    }
  }

  /** The first thing said about a run is the position at which it entered its owner's queue. */
  lemma {:induction false} QueuedFirst(w: World, cfg: S.Config, actions: seq<Action>, r: RunId)
    requires Inv(w, cfg) && Possible(w, cfg, actions) && r !in w.s.m.runs && About(w.s.out, r) == []
    requires !Streaming(w.s, r)
    ensures var s' := After(w, cfg, actions).s; var told := About(s'.out, r);
            r in s'.m.runs ==>
              && CreatedBy(w, cfg, actions, r).Some? && told != []
              && told[0] == Queued(r, |Q.Lane(CreatedBy(w, cfg, actions, r).value.s.m.queue, s'.m.runs[r].userId)|)
    decreases |actions|
  {
    hide Inv, Next, Record, About, Streaming, OwnerKeyFromPrincipal, RF.Grants;
    if actions != [] {
      var w' := Step(w, cfg, actions[0]);
      StepKeeps(w, cfg, actions[0]);
      StepSays(w, cfg, actions[0]);
      AboutAppend(w.s.out, Spoken(w.s, actions[0]), r);
      SaidAbout(w.s, actions[0], r);
      UnknownUnsaid(w, cfg, actions[0], r);
      StepCreates(w, cfg, actions[0], r);
      StepMakes(w, cfg, actions[0], r);
      if r in w'.s.m.runs {
        assert Spoken(w.s, actions[0]) == [Queued(r, |Q.Lane(w.s.m.queue, w'.s.m.runs[r].userId)|)];
        OutGrows(w', cfg, actions[1..], r);
        CreationStays(w', cfg, actions[1..], r, Moment(w.s, actions[0]));
      } else {
        QueuedFirst(w', cfg, actions[1..], r);
      }
    }
  }

  /** Over every run of the service, what is said about a run begins with run_queued, exactly once and with the
      number of runs its owner had waiting when it was created; then comes run_started, exactly once, if the run
      has begun running, and otherwise never; whatever else is said, its end and the closing of its stream
      included, comes after that. */
  lemma ToldInOrder(cfg: S.Config, actions: seq<Action>, r: RunId)
    requires Possible(INITIAL, cfg, actions)
    ensures var s := After(INITIAL, cfg, actions).s; var told := About(s.out, r);
            var began := Began(INITIAL, cfg, actions, map[]);
            if r !in s.m.runs then told == []
            else
              && CreatedBy(INITIAL, cfg, actions, r).Some? && told != []
              && told[0] == Queued(r, |Q.Lane(CreatedBy(INITIAL, cfg, actions, r).value.s.m.queue, s.m.runs[r].userId)|)
              && (if r in began then |told| >= 2 && told[1] == Started(r) && Later(told[2..])
                  else Later(told[1..]) && forall e :: e in told ==> !e.Agent?)
  {
    hide Inv, After, Possible, Began, CreatedBy, About, Streaming;
    InitInv(cfg);
    InitTold(r);
    RunKeepsTold(INITIAL, cfg, actions, map[], r);
    QueuedFirst(INITIAL, cfg, actions, r);
  }

  lemma InitTold(r: RunId)
    ensures ToldOk(INITIAL.s, map[], r) && !Streaming(INITIAL.s, r) && About(INITIAL.s.out, r) == []
  {
  }
}
