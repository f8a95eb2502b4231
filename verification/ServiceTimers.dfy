/** When runs start running, when their timers are due and how long a timed-out run has run. */
module ServiceTimers {
  import opened Collections
  import opened RunTypes
  import opened Owner
  import opened ServiceSpec
  import opened ServiceInvariant
  import opened ServiceSteps
  import opened ServiceTheorems
  import MI = ManagerInvariant
  import MT = ManagerTheorems
  import S = ManagerSpec
  import Q = QueueSpec
  import L = LeaseSpec
  import T = TimeoutSpec
  import C = CancellationSpec

  type Moments = map<RunId, Time>

  /** Runs that are RUNNING after a step and were not before it began running now. */
  function NoteStarts(began: Moments, s: Sys, s': Sys): Moments {
    began + map r | r in s'.m.runs && MI.InState(s'.m.runs, r, RUNNING) && !MI.InState(s.m.runs, r, RUNNING) :: s.now
  }

  /** When each run began running, read off the states along a run of the system. */
  ghost function Began(w: World, cfg: S.Config, actions: seq<Action>, began: Moments): Moments
    requires Possible(w, cfg, actions)
    decreases |actions|
  {
    if actions == [] then began
    else Began(Step(w, cfg, actions[0]), cfg, actions[1..], NoteStarts(began, w.s, Next(w.s, cfg, actions[0])))
  }

  // What each call does to timers, and to who has timed out.

  /** No timer appears or changes, and nobody times out. */
  ghost predicate Calm(m: S.Manager, m': S.Manager) {
    && (forall r :: r in m'.timers ==> r in m.timers && m'.timers[r] == m.timers[r])
    && (forall r :: MI.InState(m'.runs, r, TIMED_OUT) ==> MI.InState(m.runs, r, TIMED_OUT))
  }

  lemma TransitionCalm(m: S.Manager, now: Time, id: RunId, to: RunState, error: Option<string>,
                       messages: Option<seq<string>>)
    requires to != TIMED_OUT
    ensures Calm(m, S.TransitionState(m, now, id, to, error, messages).m)
  {
  }

  lemma FinishCalm(m: S.Manager, now: Time, id: RunId, to: RunState, error: Option<string>,
                   messages: Option<seq<string>>)
    requires to != TIMED_OUT
    ensures Calm(m, S.Finish(m, now, id, to, error, messages).m)
  {
    hide S.TransitionState;
    if id in m.runs {
      var m1 := S.ReleaseLeaseOf(m, m.runs[id]);
      TransitionCalm(m1.(contexts := C.Remove(m1.contexts, id)), now, id, to, error, messages);
    }
  }

  lemma AbortCalm(m: S.Manager, now: Time, id: RunId, reason: string, to: RunState, error: Option<string>)
    requires id in m.runs && to != TIMED_OUT
    ensures Calm(m, S.AbortInto(m, now, id, reason, to, error).m)
  {
    hide S.TransitionState;
    var m1 := S.ReleaseLeaseOf(m, m.runs[id]);
    TransitionCalm(m1.(contexts := C.Cancel(m1.contexts, id, Some(reason))), now, id, to, error, None);
  }

  lemma CancelCalm(m: S.Manager, now: Time, id: RunId, reason: Option<string>)
    ensures Calm(m, S.CancelRun(m, now, id, reason).m)
  {
    hide S.AbortInto, Q.Remove;
    if id in m.runs && !IsTerminalState(m.runs[id].state) {
      var m1 := if m.runs[id].state == QUEUED then m.(queue := Q.Remove(m.queue, id)) else m;
      AbortCalm(m1, now, id, if reason.Some? then reason.value else "user_cancelled", CANCELLED,
                Some(if reason.Some? then reason.value else "cancelled"));
    }
  }

  lemma CreateCalm(m: S.Manager, cfg: S.Config, now: Time, id: RunId, owner: OwnerPrincipal, max: Option<int>)
    requires id !in m.runs
    ensures Calm(m, S.CreateRun(m, cfg, now, id, owner, max).m)
  {
    hide OwnerKeyFromPrincipal, Q.Enqueue;
  }

  lemma AcquireCalm(m: S.Manager, cfg: S.Config, now: Time, u: OwnerKey, token: Token)
    ensures Calm(m, S.AcquireNextRun(m, cfg, now, u, token).m)
  {
    hide Q.Dequeue, L.Acquire;
  }

  lemma CaughtCalm(s: Sys, t: LoopId, r: RunId, error: string)
    requires t in s.loops
    ensures Calm(s.m, Caught(s, t, r, error).m)
  {
    hide S.Finish;
    FinishCalm(s.m, s.now, r, FAILED, Some(error), None);
  }

  lemma SettleCalm(s: Sys, t: LoopId, outcome: Result<seq<string>, string>)
    requires t in s.loops && s.loops[t].stage.Prompting?
    ensures Calm(s.m, SettleStep(s, t, outcome).m)
  {
    hide S.Finish, Caught;
    var r := s.loops[t].stage.run;
    if outcome.Failure? {
      CaughtCalm(s, t, r, outcome.error);
    } else {
      CaughtCalm(s, t, r, DISAPPEARED);
      var m := S.CompleteRun(s.m, s.now, r, Some(outcome.value)).m;
      FinishCalm(s.m, s.now, r, COMPLETED, None, Some(outcome.value));
      CaughtCalm(s.(m := m), t, r, TRANSITION_REFUSED);
    }
  }

  /** Starting a LEASED run sets its timer, from now; that is the only call that sets one. */
  lemma StartTimers(m: S.Manager, now: Time, r: RunId)
    requires MI.InState(m.runs, r, LEASED)
    ensures var m' := S.StartRun(m, now, r).m;
            && m'.timers == m.timers[r := T.NewTimer(now, m.runs[r].maxDurationMs)]
            && (forall x :: MI.InState(m'.runs, x, TIMED_OUT) ==> MI.InState(m.runs, x, TIMED_OUT))
  {
  }

  /** A timer is set by the step that starts its run and stays as it is. */
  ghost predicate TimerHasOrigin(s: Sys, s': Sys, r: RunId)
    requires r in s'.m.timers
  {
    || (r in s.m.timers && s'.m.timers[r] == s.m.timers[r])
    || (MI.InState(s.m.runs, r, LEASED) && s'.m.timers[r] == T.NewTimer(s.now, s.m.runs[r].maxDurationMs))
  }

  lemma WorkspaceTimers(w: World, cfg: S.Config, t: LoopId, error: Option<string>)
    requires Inv(w, cfg) && Enabled(w.s, Workspace(t, error))
    ensures TimersStep(w.s, Workspace(t, error), WorkspaceStep(w.s, t, error))
  {
    hide Inv, Caught, S.StartRun;
    var r := w.s.loops[t].stage.run;
    AboutLoop(w, cfg, t);
    CaughtCalm(w.s, t, r, if error.Some? then error.value else TRANSITION_REFUSED);
    if w.s.m.runs[r].state == LEASED {
      StartTimers(w.s.m, w.s.now, r);
      StartShape(w.s.m, w.s.now, r);
    } else {
      StartRefused(w.s.m, w.s.now, r);
    }
  }

  lemma FireEffect(m: S.Manager, now: Time, id: RunId)
    requires MI.InState(m.runs, id, RUNNING)
    ensures var m' := S.FireTimeout(m, now, id).m;
            && (forall r :: r in m'.timers ==> r in m.timers && m'.timers[r] == m.timers[r])
            && m'.runs.Keys == m.runs.Keys && (forall r :: r in m.runs && r != id ==> m'.runs[r] == m.runs[r])
            && m'.runs[id].completedAt == Some(now) && m'.runs[id].maxDurationMs == m.runs[id].maxDurationMs
  {
    hide S.AbortInto, L.Release, C.Cancel, C.AbortEvent;
    MT.AbortShape(m.(timers := T.Clear(m.timers, id)), now, id, "timeout", TIMED_OUT, Some(S.TIMEOUT_ERROR));
  }

  /** Timers and timeouts over one step: a timer has an origin, and who times out does so in its timer's
      callback, when that is due. */
  ghost predicate TimersStep(s: Sys, a: Action, s': Sys) {
    && (forall r :: r in s'.m.timers ==> TimerHasOrigin(s, s', r))
    && (forall r :: MI.InState(s'.m.runs, r, TIMED_OUT) && !MI.InState(s.m.runs, r, TIMED_OUT) ==>
          && a == Fire(r) && MI.InState(s.m.runs, r, RUNNING) && T.Due(s.m.timers, s.now, r)
          && s'.m.runs[r].completedAt == Some(s.now)
          && s'.m.runs[r].maxDurationMs == s.m.runs[r].maxDurationMs)
  }

  lemma CalmStep(s: Sys, a: Action, s': Sys)
    requires Calm(s.m, s'.m)
    ensures TimersStep(s, a, s')
  {
  }

  lemma FireTimers(s: Sys, id: RunId)
    requires MI.InState(s.m.runs, id, RUNNING) && T.Due(s.m.timers, s.now, id)
    ensures TimersStep(s, Fire(id), FireStep(s, id))
  {
    hide OnAbort, S.FireTimeout, T.Due;
    FireEffect(s.m, s.now, id);
    var o := S.FireTimeout(s.m, s.now, id);
    AbortListens(s.(m := o.m), id, o.aborted);
  }

  /** A due timer is a RUNNING run's. */
  lemma DueMeansRunning(w: World, cfg: S.Config, id: RunId)
    requires Inv(w, cfg) && T.Due(w.s.m.timers, w.s.now, id)
    ensures MI.InState(w.s.m.runs, id, RUNNING)
  {
    hide Inv, MI.Inv, MI.RunOk;
    ManagerPart(w, cfg);
    AgreeAt(w.s.m, cfg, w.s.now, id);
  }

  lemma TimerStep(w: World, cfg: S.Config, a: Action)
    requires Inv(w, cfg) && Enabled(w.s, a)
    ensures TimersStep(w.s, a, Next(w.s, cfg, a))
  {
    hide Inv, TimersStep, WorkspaceStep, SettleStep, Caught, OnAbort, FireStep, L.Cleanup, Calm;
    hide S.CreateRun, S.AcquireNextRun, S.CancelRun;
    var s' := Next(w.s, cfg, a);
    CalmItself(w.s.m, s'.m);
    match a
    case Create(id, owner, max, _) =>
      CreateCalm(w.s.m, cfg, w.s.now, id, owner, max);
      CalmStep(w.s, a, s');
    case Turn(t, token) =>
      AcquireCalm(w.s.m, cfg, w.s.now, w.s.loops[t].owner, token);
      CalmStep(w.s, a, s');
    case Workspace(t, error) => WorkspaceTimers(w, cfg, t, error);
    case Load(t, error) =>
      if error.Some? { CaughtCalm(w.s, t, w.s.loops[t].stage.run, error.value); }
      CalmStep(w.s, a, s');
    case Settle(t, outcome) =>
      SettleCalm(w.s, t, outcome);
      CalmStep(w.s, a, s');
    case Cancel(id, owner, reason) =>
      var o := S.CancelRun(w.s.m, w.s.now, id, reason);
      CancelCalm(w.s.m, w.s.now, id, reason);
      AbortListens(w.s.(m := o.m), id, o.aborted);
      CalmStep(w.s, a, s');
    case Fire(id) =>
      DueMeansRunning(w, cfg, id);
      FireTimers(w.s, id);
    case _ => CalmStep(w.s, a, s');
  }

  lemma CalmItself(m: S.Manager, m': S.Manager)
    ensures m'.timers == m.timers && m'.runs == m.runs ==> Calm(m, m')
  {
  }

  lemma AbortListens(s: Sys, r: RunId, aborted: Option<string>)
    ensures OnAbort(s, r, aborted).m == s.m
  {
  }

  // Over runs of the system.

  /** What `began` means: a RUNNING run's timer was set when the run began running, which was not later than
      now, and a timed-out run ran for at least its timer's delay. */
  ghost predicate BeganOk(s: Sys, began: Moments, r: RunId) {
    && (MI.InState(s.m.runs, r, RUNNING) ==>
          r in began && r in s.m.timers && s.m.timers[r].scheduledAt == began[r] <= s.now)
    && (MI.InState(s.m.runs, r, TIMED_OUT) ==> r in began && RanFor(s.m.runs[r], began[r]))
  }

  /** A duration that setTimeout can wait for was waited for; any other was cut to one millisecond. */
  predicate RanFor(run: S.Run, began: Time) {
    && run.completedAt.Some? && run.completedAt.value >= began + 1
    && (1 <= run.maxDurationMs <= 0x7FFF_FFFF ==> run.completedAt.value >= began + run.maxDurationMs)
  }

  lemma StepKeepsBegan(w: World, cfg: S.Config, a: Action, began: Moments, r: RunId)
    requires Inv(w, cfg) && Enabled(w.s, a) && BeganOk(w.s, began, r)
    ensures BeganOk(Next(w.s, cfg, a), NoteStarts(began, w.s, Next(w.s, cfg, a)), r)
  {
    hide Inv, Next, Record, Enabled, MI.Inv, MI.RunOk, MI.ContextFits;
    var s' := Next(w.s, cfg, a);
    TimerStep(w, cfg, a);
    StepsFollowTable(w, cfg, a);
    StepKeeps(w, cfg, a);
    ClockGoesOn(w.s, cfg, a);
    ManagerPart(w, cfg);
    AgreeAt(w.s.m, cfg, w.s.now, r);
    ManagerPart(Step(w, cfg, a), cfg);
    AgreeAt(s'.m, cfg, s'.now, r);
    if r in w.s.m.runs { assert MT.MayBecome(w.s.m.runs[r], s'.m.runs[r]); }
    if MI.InState(s'.m.runs, r, RUNNING) { assert TimerHasOrigin(w.s, s', r); }
  }

  lemma ClockGoesOn(s: Sys, cfg: S.Config, a: Action)
    requires Enabled(s, a)
    ensures s.now <= Next(s, cfg, a).now
    ensures !a.Wait? ==> Next(s, cfg, a).now == s.now
  {
    hide S.CreateRun, S.AcquireNextRun, S.CancelRun, S.FireTimeout, S.StartRun, S.Finish;
  }

  lemma {:induction false} RunKeepsBegan(w: World, cfg: S.Config, actions: seq<Action>, began: Moments, r: RunId)
    requires Inv(w, cfg) && Possible(w, cfg, actions) && BeganOk(w.s, began, r)
    ensures BeganOk(After(w, cfg, actions).s, Began(w, cfg, actions, began), r)
    decreases |actions|
  {
    hide Inv, Next, Record, BeganOk, NoteStarts;
    if actions != [] {
      StepKeeps(w, cfg, actions[0]);
      StepKeepsBegan(w, cfg, actions[0], began, r);
      RunKeepsBegan(Step(w, cfg, actions[0]), cfg, actions[1..],
                    NoteStarts(began, w.s, Next(w.s, cfg, actions[0])), r);
    }
  }

  /** Run r's timer may call back exactly once this long has passed. */
  predicate DueAfter(s: Sys, r: RunId, began: Time, duration: int) {
    if 1 <= duration <= 0x7FFF_FFFF then T.Due(s.m.timers, s.now, r) <==> s.now >= began + duration
    else T.Due(s.m.timers, s.now, r) <==> s.now >= began + 1
  }

  /** In every reachable state: pending timers are exactly the RUNNING runs; each was set at the moment its run
      began running and is due exactly once the run's maximum duration has passed since then, or one millisecond
      if that duration is below 1 ms or above 2^31 - 1 ms; a timed-out run ran at least that long; every RUNNING
      run has an uncancelled context; and every cancelled context belongs to a CANCELLED or TIMED_OUT run. */
  lemma TimersAndContextsAgree(cfg: S.Config, actions: seq<Action>, r: RunId)
    requires Possible(INITIAL, cfg, actions)
    ensures var s := After(INITIAL, cfg, actions).s; var m := s.m;
            var began := Began(INITIAL, cfg, actions, map[]);
            && (r in m.timers <==> MI.InState(m.runs, r, RUNNING))
            && (r in m.timers ==>
                  && r in began && m.runs[r].startedAt.Some? && m.runs[r].startedAt.value <= began[r] <= s.now
                  && m.runs[r].maxDurationMs <= cfg.maxTimeoutMs
                  && m.timers[r].scheduledAt == began[r]
                  && m.timers[r].timeoutAt == began[r] + m.runs[r].maxDurationMs
                  && DueAfter(s, r, began[r], m.runs[r].maxDurationMs))
            && (MI.InState(m.runs, r, TIMED_OUT) ==> r in began && RanFor(m.runs[r], began[r]))
            && (MI.InState(m.runs, r, RUNNING) ==> r in m.contexts && !m.contexts[r].isCancelled)
            && (r in m.contexts && m.contexts[r].isCancelled ==>
                  r in m.runs && m.runs[r].state in {CANCELLED, TIMED_OUT})
  {
    hide Inv, MI.Inv, After, Possible, Began, OwnerKeyFromPrincipal;
    var w := After(INITIAL, cfg, actions);
    ReachableInv(cfg, actions);
    InitInv(cfg);
    RunKeepsBegan(INITIAL, cfg, actions, map[], r);
    ManagerPart(w, cfg);
    AgreeAt(w.s.m, cfg, w.s.now, r);
  }

  /** A run begins running once: while it is RUNNING, and ever after, the moment it began stays what it was. */
  lemma {:induction false} BeganOnce(w: World, cfg: S.Config, actions: seq<Action>, began: Moments, r: RunId)
    requires Inv(w, cfg) && Possible(w, cfg, actions) && r in began
    requires r in w.s.m.runs && w.s.m.runs[r].state !in {QUEUED, LEASED}
    ensures r in Began(w, cfg, actions, began) && Began(w, cfg, actions, began)[r] == began[r]
    decreases |actions|
  {
    hide Inv, Next, Record;
    if actions != [] {
      var w' := Step(w, cfg, actions[0]);
      StepKeeps(w, cfg, actions[0]);
      StepsFollowTable(w, cfg, actions[0]);
      assert MT.MayBecome(w.s.m.runs[r], w'.s.m.runs[r]);
      BeganOnce(w', cfg, actions[1..], NoteStarts(began, w.s, w'.s), r);
    }
  }
}
