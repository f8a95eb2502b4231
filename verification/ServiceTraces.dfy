/** Runs of the service, from its start, in which what the theorems warn of happens. */
module ServiceTraces {
  import opened Collections
  import opened RunTypes
  import opened Owner
  import opened ServiceSpec
  import opened ServiceInvariant
  import opened ServiceSteps
  import opened ServiceTheorems
  import MI = ManagerInvariant
  import MT = ManagerTheorems
  import S = ManagerSpec
  import Q = QueueSpec
  import L = LeaseSpec
  import T = TimeoutSpec

  /** A principal the gateway lets through and that has a key. */
  predicate Usable(owner: OwnerPrincipal) {
    owner.tenantId != [] && owner.subjectId != [] && OwnerKeyFromPrincipal(owner).Some?
  }

  /** Created and leased. */
  function ToLease(r: RunId, owner: OwnerPrincipal, t: LoopId, token: Token): seq<Action> {
    [Create(r, owner, None, t)] + [Turn(t, token)]
  }

  /** Started, its pack still loading. */
  function ToLoading(r: RunId, owner: OwnerPrincipal, t: LoopId, token: Token): seq<Action> {
    ToLease(r, owner, t, token) + [Workspace(t, None)]
  }

  /** Prompted, its abort listener installed. */
  function ToPrompt(r: RunId, owner: OwnerPrincipal, t: LoopId, token: Token): seq<Action> {
    ToLoading(r, owner, t, token) + [Load(t, None)]
  }

  lemma {:induction false} Extend(w: World, cfg: S.Config, actions: seq<Action>, a: Action)
    requires Possible(w, cfg, actions) && Enabled(After(w, cfg, actions).s, a)
    ensures Possible(w, cfg, actions + [a])
    ensures After(w, cfg, actions + [a]) == Step(After(w, cfg, actions), cfg, a)
    decreases |actions|
  {
    hide Next, Record, Enabled;
    if actions == [] {
      assert [] + [a] == [a] && [a][1..] == [];
    } else {
      assert (actions + [a])[1..] == actions[1..] + [a];
      Extend(Step(w, cfg, actions[0]), cfg, actions[1..], a);
    }
  }

  /** Loop t is at this stage and owner's run r in this state. */
  predicate At(s: Sys, r: RunId, owner: OwnerPrincipal, t: LoopId, stage: Stage, state: RunState) {
    && t in s.loops && s.loops[t].stage == stage
    && MI.InState(s.m.runs, r, state)
    && s.m.runs[r].owner == owner && s.m.runs[r].userId == s.loops[t].owner
  }

  // One step each.

  lemma CreateAt(cfg: S.Config, r: RunId, owner: OwnerPrincipal, t: LoopId)
    requires Usable(owner)
    ensures var a := Create(r, owner, None, t); var s := Next(EMPTY_AT_ZERO, cfg, a);
            && Enabled(EMPTY_AT_ZERO, a) && At(s, r, owner, t, AtLoop, QUEUED)
            && s.m.runs.Keys == {r} && Q.Peek(s.m.queue, s.loops[t].owner) == Some(r)
  {
    hide OwnerKeyFromPrincipal;
  }

  lemma TurnAt(w: World, cfg: S.Config, r: RunId, owner: OwnerPrincipal, t: LoopId, token: Token)
    requires Inv(w, cfg) && At(w.s, r, owner, t, AtLoop, QUEUED)
    requires w.s.m.runs.Keys == {r} && Q.Peek(w.s.m.queue, w.s.loops[t].owner) == Some(r)
    ensures Enabled(w.s, Turn(t, token)) && At(Next(w.s, cfg, Turn(t, token)), r, owner, t, Preparing(r), LEASED)
  {
    hide Inv, Q.Dequeue, L.Acquire;
    AboutRun(w, cfg, r);
    assert w.s.m.runs[r].leaseToken.None?;
    assert Enabled(w.s, Turn(t, token));
    LeaseNeverBlocks(w, cfg, t, token);
  }

  lemma WorkspaceAt(w: World, cfg: S.Config, r: RunId, owner: OwnerPrincipal, t: LoopId)
    requires Inv(w, cfg) && At(w.s, r, owner, t, Preparing(r), LEASED)
    ensures var s := Next(w.s, cfg, Workspace(t, None));
            At(s, r, owner, t, Loading(r, true), RUNNING) && r !in s.listening
  {
    AboutRun(w, cfg, r);
    StartShape(w.s.m, w.s.now, r);
    hide Inv, S.StartRun, Caught;
  }

  lemma LoadAt(w: World, cfg: S.Config, r: RunId, owner: OwnerPrincipal, t: LoopId)
    requires At(w.s, r, owner, t, Loading(r, true), RUNNING)
    ensures var s := Next(w.s, cfg, Load(t, None));
            At(s, r, owner, t, Prompting(r), RUNNING) && r in s.listening
  {
  }

  // The traces so far.

  /** The service has come from its start to w by these actions. */
  ghost predicate Reached(cfg: S.Config, actions: seq<Action>, w: World) {
    Possible(INITIAL, cfg, actions) && After(INITIAL, cfg, actions) == w
  }

  lemma Go(cfg: S.Config, actions: seq<Action>, w: World, a: Action)
    requires Reached(cfg, actions, w) && Enabled(w.s, a)
    ensures Reached(cfg, actions + [a], Step(w, cfg, a)) && Inv(Step(w, cfg, a), cfg)
    ensures Step(w, cfg, a).s == Next(w.s, cfg, a)
  {
    hide Next, Record, Enabled, Inv;
    Extend(INITIAL, cfg, actions, a);
    ReachableInv(cfg, actions + [a]);
  }

  lemma LeaseReached(cfg: S.Config, r: RunId, owner: OwnerPrincipal, t: LoopId, token: Token) returns (w: World)
    requires Usable(owner)
    ensures Reached(cfg, ToLease(r, owner, t, token), w) && Inv(w, cfg)
    ensures At(w.s, r, owner, t, Preparing(r), LEASED)
  {
    var a := Create(r, owner, None, t);
    assert Reached(cfg, [], INITIAL) && [] + [a] == [a];
    CreateAt(cfg, r, owner, t);
    hide Reached, Next, Record, Enabled, At, Inv;
    Go(cfg, [], INITIAL, a);
    w := Step(INITIAL, cfg, a);
    TurnAt(w, cfg, r, owner, t, token);
    Go(cfg, [a], w, Turn(t, token));
    w := Step(w, cfg, Turn(t, token));
  }

  lemma LoadingReached(cfg: S.Config, r: RunId, owner: OwnerPrincipal, t: LoopId, token: Token) returns (w: World)
    requires Usable(owner)
    ensures Reached(cfg, ToLoading(r, owner, t, token), w) && Inv(w, cfg)
    ensures At(w.s, r, owner, t, Loading(r, true), RUNNING) && r !in w.s.listening
  {
    hide Reached, Next, Record, Inv, ToLease;
    w := LeaseReached(cfg, r, owner, t, token);
    WorkspaceAt(w, cfg, r, owner, t);
    Go(cfg, ToLease(r, owner, t, token), w, Workspace(t, None));
    w := Step(w, cfg, Workspace(t, None));
  }

  lemma PromptReached(cfg: S.Config, r: RunId, owner: OwnerPrincipal, t: LoopId, token: Token) returns (w: World)
    requires Usable(owner)
    ensures Reached(cfg, ToPrompt(r, owner, t, token), w) && Inv(w, cfg)
    ensures At(w.s, r, owner, t, Prompting(r), RUNNING) && r in w.s.listening
  {
    hide Reached, Next, Record, Inv, ToLoading;
    w := LoadingReached(cfg, r, owner, t, token);
    LoadAt(w, cfg, r, owner, t);
    Go(cfg, ToLoading(r, owner, t, token), w, Load(t, None));
    w := Step(w, cfg, Load(t, None));
  }

  // What happens at their ends.

  /** A run of the system after which r is in this state and these terminal events have gone out for it. */
  ghost predicate EndsWith(cfg: S.Config, actions: seq<Action>, r: RunId, state: RunState, sent: seq<TerminalKind>) {
    && Possible(INITIAL, cfg, actions)
    && MI.InState(After(INITIAL, cfg, actions).s.m.runs, r, state)
    && TerminalsOf(After(INITIAL, cfg, actions).s.out, r) == sent
  }

  /** A user whose reason happens to read "timeout" makes run_timed_out be told about a CANCELLED run. */
  lemma SpoofedCancelHappens(cfg: S.Config, r: RunId, owner: OwnerPrincipal, t: LoopId, token: Token)
    requires Usable(owner)
    ensures EndsWith(cfg, ToPrompt(r, owner, t, token) + [Cancel(r, owner, Some("timeout"))], r, CANCELLED,
                     [RunTimedOut])
  {
    hide *;
    var a := Cancel(r, owner, Some("timeout"));
    var w := PromptReached(cfg, r, owner, t, token);
    OwnerMay(w.s, r, owner, t, Prompting(r), RUNNING);
    NextCancel(w.s, cfg, r, owner, Some("timeout"));
    SpoofedCancel(w, cfg, r, owner, Some("timeout"));
    Go(cfg, ToPrompt(r, owner, t, token), w, a);
    EndsHere(cfg, ToPrompt(r, owner, t, token) + [a], Step(w, cfg, a), r, CANCELLED, [RunTimedOut]);
  }

  /** How long until the timer of r is due. */
  function UntilDue(s: Sys, r: RunId): nat {
    if r in s.m.timers && s.m.timers[r].firesAt > s.now then s.m.timers[r].firesAt - s.now else 0
  }

  lemma WaitAt(s: Sys, cfg: S.Config, r: RunId)
    requires r in s.m.timers
    ensures var s' := Next(s, cfg, Wait(UntilDue(s, r)));
            s'.listening == s.listening && Enabled(s, Wait(UntilDue(s, r))) && Enabled(s', Fire(r))
  {
  }

  /** A run whose time is up while its pack is loading ends without a word... */
  lemma SilentTimeoutHappens(cfg: S.Config, r: RunId, owner: OwnerPrincipal, t: LoopId, token: Token)
    requires Usable(owner)
    ensures exists ms: nat :: EndsWith(cfg, ToLoading(r, owner, t, token) + [Wait(ms)] + [Fire(r)], r, TIMED_OUT, [])
  {
    hide *;
    var loading := ToLoading(r, owner, t, token);
    var w := LoadingReached(cfg, r, owner, t, token);
    OwnerMay(w.s, r, owner, t, Loading(r, true), RUNNING);
    ManagerPart(w, cfg);
    AgreeAt(w.s.m, cfg, w.s.now, r);
    var ms := UntilDue(w.s, r);
    WaitAt(w.s, cfg, r);
    Go(cfg, loading, w, Wait(ms));
    w := Step(w, cfg, Wait(ms));
    TimeoutAnnouncedIff(w, cfg, r);
    Go(cfg, loading + [Wait(ms)], w, Fire(r));
    EndsHere(cfg, loading + [Wait(ms)] + [Fire(r)], Step(w, cfg, Fire(r)), r, TIMED_OUT, []);
  }

  lemma EndsHere(cfg: S.Config, actions: seq<Action>, w: World, r: RunId, state: RunState, sent: seq<TerminalKind>)
    requires Reached(cfg, actions, w) && MI.InState(w.s.m.runs, r, state) && TerminalsOf(w.s.out, r) == sent
    ensures EndsWith(cfg, actions, r, state, sent)
  {
  }

  /** ...and stays unannounced over everything that can still happen. */
  lemma SilentTimeoutStays(cfg: S.Config, actions: seq<Action>, r: RunId, later: seq<Action>)
    requires EndsWith(cfg, actions, r, TIMED_OUT, []) && Possible(After(INITIAL, cfg, actions), cfg, later)
    ensures TerminalsOf(After(After(INITIAL, cfg, actions), cfg, later).s.out, r) == []
  {
    hide TerminalsOf, Possible, After;
    ReachableInv(cfg, actions);
    SilentTimeoutForever(After(INITIAL, cfg, actions), cfg, later, r);
  }

  /** Cancelled before its workspace was ready, the executor gone, and cancelled again. */
  function CancelledTwice(r: RunId, owner: OwnerPrincipal, t: LoopId, token: Token): seq<Action> {
    ToLease(r, owner, t, token) + [Cancel(r, owner, None)] + [Workspace(t, None)] + [Cancel(r, owner, None)]
  }

  lemma CancelAt(w: World, cfg: S.Config, r: RunId, owner: OwnerPrincipal, t: LoopId)
    requires Inv(w, cfg) && At(w.s, r, owner, t, Preparing(r), LEASED)
    ensures var s' := CancelStep(w.s, r, owner, None);
            At(s', r, owner, t, Preparing(r), CANCELLED) && TerminalsOf(s'.out, r) == [RunCancelled]
  {
    hide Inv, TerminalsOf, CancelStep, Next;
    NextCancel(w.s, cfg, r, owner, None);
    SpoofedCancel(w, cfg, r, owner, None);
    CancelLoops(w.s, r, owner, None);
    StepsFollowTable(w, cfg, Cancel(r, owner, None));
    assert MT.MayBecome(w.s.m.runs[r], CancelStep(w.s, r, owner, None).m.runs[r]);
  }

  lemma WorkspaceDrops(w: World, cfg: S.Config, r: RunId, owner: OwnerPrincipal, t: LoopId)
    requires Inv(w, cfg) && At(w.s, r, owner, t, Preparing(r), CANCELLED)
    ensures var w' := Step(w, cfg, Workspace(t, None));
            && At(w'.s, r, owner, t, AtLoop, CANCELLED)
            && r !in w'.s.guard && TerminalsOf(w'.s.out, r) == TerminalsOf(w.s.out, r)
  {
    hide Inv, TerminalsOf, S.StartRun;
    AboutRun(w, cfg, r);
    TerminalsSettled(w, cfg, Workspace(t, None), r);
    StartRefused(w.s.m, w.s.now, r);
    NotStarted(w.s.m, w.s.now, r);
  }

  lemma NotStarted(m: S.Manager, now: Time, r: RunId)
    requires MI.InState(m.runs, r, CANCELLED)
    ensures S.StartRun(m, now, r).result.Failure?
  {
  }

  lemma TwiceIs(r: RunId, owner: OwnerPrincipal, t: LoopId, token: Token)
    ensures var a := Cancel(r, owner, None);
            CancelledTwice(r, owner, t, token) == ToLease(r, owner, t, token) + [a] + [Workspace(t, None)] + [a]
  {
  }

  /** And so the end of one run is announced twice. */
  lemma SecondAnnouncementHappens(cfg: S.Config, r: RunId, owner: OwnerPrincipal, t: LoopId, token: Token)
    requires Usable(owner)
    ensures EndsWith(cfg, CancelledTwice(r, owner, t, token), r, CANCELLED, [RunCancelled, RunCancelled])
  {
    TwiceIs(r, owner, t, token);
    hide *;
    var a := Cancel(r, owner, None);
    var leased := ToLease(r, owner, t, token);
    var w := LeaseReached(cfg, r, owner, t, token);
    OwnerMay(w.s, r, owner, t, Preparing(r), LEASED);
    NextCancel(w.s, cfg, r, owner, None);
    CancelAt(w, cfg, r, owner, t);
    Go(cfg, leased, w, a);
    w := Step(w, cfg, a);
    PreparingMay(w.s, r, owner, t, CANCELLED);
    WorkspaceDrops(w, cfg, r, owner, t);
    Go(cfg, leased + [a], w, Workspace(t, None));
    w := Step(w, cfg, Workspace(t, None));
    OwnerMay(w.s, r, owner, t, AtLoop, CANCELLED);
    NextCancel(w.s, cfg, r, owner, None);
    RepeatedCancelAnnouncesIff(w, cfg, r, owner, None);
    Go(cfg, leased + [a] + [Workspace(t, None)], w, a);
    EndsHere(cfg, CancelledTwice(r, owner, t, token), Step(w, cfg, a), r, CANCELLED, [RunCancelled, RunCancelled]);
  }

  lemma PreparingMay(s: Sys, r: RunId, owner: OwnerPrincipal, t: LoopId, state: RunState)
    requires At(s, r, owner, t, Preparing(r), state)
    ensures Enabled(s, Workspace(t, None))
  {
  }

  lemma OwnerMay(s: Sys, r: RunId, owner: OwnerPrincipal, t: LoopId, stage: Stage, state: RunState)
    requires At(s, r, owner, t, stage, state)
    ensures MayCancel(s, r, owner) && MI.InState(s.m.runs, r, state)
    ensures r in s.m.runs && s.m.runs[r].state == state
    ensures forall reason :: Enabled(s, Cancel(r, owner, reason))
    ensures state == RUNNING && r in s.listening ==> Spoofs(s, r, owner, Some("timeout"))
    ensures !IsTerminalState(RUNNING)
  {
  }
}
