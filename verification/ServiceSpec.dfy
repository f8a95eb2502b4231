/** The run execution service as an interleaving of atomic steps: what runs between two real awaits
    (services/orchestrator/src/runtime/run-execution.service.ts). Every processUserQueue call that gets
    past the guard is a loop of its own; that two loops never share an owner is a theorem, not part
    of the model. */
module ServiceSpec {
  import opened Collections
  import opened RunTypes
  import opened Owner
  import S = ManagerSpec
  import L = LeaseSpec
  import T = TimeoutSpec
  import Q = QueueSpec

  datatype LoopId = LoopId(serial: nat)

  /** Where a loop is suspended: about to ask for the next run, or inside executeRun at the health
      check and workspace, at the pack load, or at agent.prompt. */
  datatype Stage =
    | AtLoop
    | Preparing(run: RunId)
    | Loading(run: RunId, signalled: bool)
    | Prompting(run: RunId)

  datatype Loop = Loop(owner: OwnerKey, stage: Stage)

  function RunOf(l: Loop): Option<RunId> {
    if l.stage.AtLoop? then None else Some(l.stage.run)
  }

  datatype TerminalKind = RunCompleted | RunFailed | RunCancelled | RunTimedOut

  /** Calls into the event stream service. */
  datatype Emission =
    | Queued(run: RunId, position: nat)
    | Started(run: RunId)
    | Agent(run: RunId)
    | Terminal(run: RunId, kind: TerminalKind)
    | Closed(run: RunId)

  /** processing: processingUsers. guard: terminalEvents. listening: runs whose abort listener is installed.
      subscribed: runs whose agent's events are passed on. out: everything sent to the event stream so far. */
  datatype Sys = Sys(
    m: S.Manager,
    now: Time,
    processing: set<OwnerKey>,
    loops: map<LoopId, Loop>,
    guard: set<RunId>,
    listening: set<RunId>,
    subscribed: set<RunId>,
    out: seq<Emission>)

  const EMPTY_AT_ZERO := Sys(S.EMPTY, 0, {}, map[], {}, {}, {}, [])

  datatype Action =
    | Create(id: RunId, owner: OwnerPrincipal, maxDurationMs: Option<int>, loop: LoopId)
    | Turn(loop: LoopId, token: Token)
    | Workspace(loop: LoopId, error: Option<string>)
    | Load(loop: LoopId, error: Option<string>)
    | Settle(loop: LoopId, outcome: Result<seq<string>, string>)
    | AgentEvent(run: RunId)
    | Cancel(id: RunId, owner: OwnerPrincipal, reason: Option<string>)
    | Fire(id: RunId)
    | Sweep
    | Wait(ms: nat)

  function Send(s: Sys, e: Emission): Sys { s.(out := s.out + [e]) }

  function EmitTerminalOnce(s: Sys, r: RunId, kind: TerminalKind): Sys {
    if r in s.guard then s else Send(s.(guard := s.guard + {r}), Terminal(r, kind))
  }

  /** The abort listener, run when the run's signal fires. */
  function OnAbort(s: Sys, r: RunId, aborted: Option<string>): Sys {
    if aborted.None? || r !in s.listening then s
    else EmitTerminalOnce(s, r, if aborted.value == "timeout" then RunTimedOut else RunCancelled)
  }

  function GoTo(s: Sys, t: LoopId, stage: Stage): Sys
    requires t in s.loops
  {
    s.(loops := s.loops[t := s.loops[t].(stage := stage)])
  }

  /** The end of executeRun: the once-guard is dropped and the loop goes round. */
  function Leave(s: Sys, t: LoopId, r: RunId): Sys
    requires t in s.loops
  {
    GoTo(s.(guard := s.guard - {r}), t, AtLoop)
  }

  /** The end of processUserQueue, whether it breaks out of the loop or an error gets out of it. */
  function EndLoop(s: Sys, t: LoopId): Sys
    requires t in s.loops
  {
    s.(processing := s.processing - {s.loops[t].owner}, loops := s.loops - {t})
  }

  function CreateStep(s: Sys, cfg: S.Config, a: Action): Sys
    requires a.Create?
  {
    var o := S.CreateRun(s.m, cfg, s.now, a.id, a.owner, a.maxDurationMs);
    if o.result.Failure? then s
    else
      var run := o.result.value;
      var s1 := Send(s.(m := o.m), Queued(a.id, if run.queuePosition.Some? then run.queuePosition.value else 0));
      if run.userId in s.processing then s1
      else s1.(processing := s.processing + {run.userId}, loops := s.loops[a.loop := Loop(run.userId, AtLoop)])
  }

  function TurnStep(s: Sys, cfg: S.Config, t: LoopId, token: Token): Sys
    requires t in s.loops
  {
    var got := S.AcquireNextRun(s.m, cfg, s.now, s.loops[t].owner, token);
    var s1 := s.(m := got.m);
    if got.result.Failure? || got.result.value.None? then EndLoop(s1, t)
    else GoTo(s1, t, Preparing(got.result.value.value.id))
  }

  predicate Aborted(m: S.Manager, r: RunId) {
    r in m.runs && m.runs[r].state in {CANCELLED, TIMED_OUT}
  }

  /** The catch block. */
  function Caught(s: Sys, t: LoopId, r: RunId, error: string): Sys
    requires t in s.loops
  {
    if r !in s.m.runs || Aborted(s.m, r) then Leave(s, t, r)
    else
      var o := S.FailRun(s.m, s.now, r, error);
      var s1 := s.(m := o.m);
      if o.result.Failure? then EndLoop(s1, t)
      else Leave(Send(EmitTerminalOnce(s1, r, RunFailed), Closed(r)), t, r)
  }

  const TRANSITION_REFUSED := "Invalid state transition"
  const DISAPPEARED := "Run disappeared during execution"

  function WorkspaceStep(s: Sys, t: LoopId, error: Option<string>): Sys
    requires t in s.loops && s.loops[t].stage.Preparing?
  {
    var r := s.loops[t].stage.run;
    if error.Some? then Caught(s, t, r, error.value)
    else
      var o := S.StartRun(s.m, s.now, r);
      var s1 := s.(m := o.m);
      if o.result.Failure? then Caught(s1, t, r, TRANSITION_REFUSED)
      else GoTo(Send(s1, Started(r)), t, Loading(r, r in s1.m.contexts))
  }

  function LoadStep(s: Sys, t: LoopId, error: Option<string>): Sys
    requires t in s.loops && s.loops[t].stage.Loading?
  {
    var r := s.loops[t].stage.run;
    if error.Some? then Caught(s, t, r, error.value)
    else
      GoTo(s.(listening := if s.loops[t].stage.signalled then s.listening + {r} else s.listening,
              subscribed := s.subscribed + {r}), t, Prompting(r))
  }

  function AfterPrompt(s: Sys, t: LoopId, outcome: Result<seq<string>, string>): Sys
    requires t in s.loops && s.loops[t].stage.Prompting?
  {
    var r := s.loops[t].stage.run;
    if outcome.Failure? then Caught(s, t, r, outcome.error)
    else if r !in s.m.runs then Caught(s, t, r, DISAPPEARED)
    else if Aborted(s.m, r) then Leave(Send(s, Closed(r)), t, r)
    else
      var o := S.CompleteRun(s.m, s.now, r, Some(outcome.value));
      var s1 := s.(m := o.m);
      if o.result.Failure? then Caught(s1, t, r, TRANSITION_REFUSED)
      else Leave(Send(EmitTerminalOnce(s1, r, RunCompleted), Closed(r)), t, r)
  }

  /** Nothing in the catch block looks at subscriptions. */
  lemma CaughtAside(s: Sys, t: LoopId, r: RunId, error: string, subscribed: set<RunId>)
    requires t in s.loops
    ensures Caught(s.(subscribed := subscribed), t, r, error) == Caught(s, t, r, error).(subscribed := subscribed)
    ensures Caught(s, t, r, error).subscribed == s.subscribed
  {
    hide S.FailRun;
  }

  lemma AfterPromptAside(s: Sys, t: LoopId, outcome: Result<seq<string>, string>, subscribed: set<RunId>)
    requires t in s.loops && s.loops[t].stage.Prompting?
    ensures AfterPrompt(s.(subscribed := subscribed), t, outcome)
         == AfterPrompt(s, t, outcome).(subscribed := subscribed)
    ensures AfterPrompt(s, t, outcome).subscribed == s.subscribed
  {
    hide Caught, S.CompleteRun;
    var r := s.loops[t].stage.run;
    if outcome.Success? {
      var m := S.CompleteRun(s.m, s.now, r, Some(outcome.value)).m;
      CaughtAside(s.(m := m), t, r, TRANSITION_REFUSED, subscribed);
      CaughtAside(s, t, r, DISAPPEARED, subscribed);
    } else {
      CaughtAside(s, t, r, outcome.error, subscribed);
    }
  }

  /** A prompt that comes back is unsubscribed from; one that rejects skips that. */
  function SettleStep(s: Sys, t: LoopId, outcome: Result<seq<string>, string>): Sys
    requires t in s.loops && s.loops[t].stage.Prompting?
  {
    AfterPrompt(s, t, outcome).(
      subscribed := if outcome.Success? then s.subscribed - {s.loops[t].stage.run} else s.subscribed)
  }

  /** The run must exist and belong to the caller's principal. */
  predicate MayCancel(s: Sys, id: RunId, owner: OwnerPrincipal) {
    id in s.m.runs && SameOwnerPrincipal(s.m.runs[id].owner, owner)
  }

  function CancelStep(s: Sys, id: RunId, owner: OwnerPrincipal, reason: Option<string>): Sys {
    if !MayCancel(s, id, owner) then s
    else
      var o := S.CancelRun(s.m, s.now, id, reason);
      var s1 := OnAbort(s.(m := o.m), id, o.aborted);
      if o.result.Success? && o.result.value.state == CANCELLED then EmitTerminalOnce(s1, id, RunCancelled)
      else s1
  }

  function FireStep(s: Sys, id: RunId): Sys {
    var o := S.FireTimeout(s.m, s.now, id);
    OnAbort(s.(m := o.m), id, o.aborted)
  }

  /** What can happen next, given that generated ids and tokens are new, the gateway hands over
      principals with non-empty parts, and timers call back when due. */
  ghost predicate Enabled(s: Sys, a: Action) {
    match a
    case Create(id, owner, _, loop) =>
      id !in s.m.runs && loop !in s.loops && owner.tenantId != [] && owner.subjectId != []
    case Turn(t, token) =>
      t in s.loops && s.loops[t].stage.AtLoop? && forall r :: r in s.m.runs ==> s.m.runs[r].leaseToken != Some(token)
    case Workspace(t, _) => t in s.loops && s.loops[t].stage.Preparing?
    case Load(t, _) => t in s.loops && s.loops[t].stage.Loading?
    case Settle(t, _) => t in s.loops && s.loops[t].stage.Prompting?
    case AgentEvent(r) => r in s.subscribed
    case Cancel(_, _, _) => true
    case Fire(id) => T.Due(s.m.timers, s.now, id)
    case Sweep => true
    case Wait(_) => true
  }

  /** One atomic step. */
  ghost function Next(s: Sys, cfg: S.Config, a: Action): Sys
    requires Enabled(s, a)
  {
    match a
    case Create(_, _, _, _) => CreateStep(s, cfg, a)
    case Turn(t, token) => TurnStep(s, cfg, t, token)
    case Workspace(t, error) => WorkspaceStep(s, t, error)
    case Load(t, error) => LoadStep(s, t, error)
    case Settle(t, outcome) => SettleStep(s, t, outcome)
    case AgentEvent(r) => Send(s, Agent(r))
    case Cancel(id, owner, reason) => CancelStep(s, id, owner, reason)
    case Fire(id) => FireStep(s, id)
    case Sweep => s.(m := s.m.(leases := L.Cleanup(s.m.leases, s.now)))
    case Wait(ms) => s.(now := s.now + ms)
  }

  lemma NextCancel(s: Sys, cfg: S.Config, id: RunId, owner: OwnerPrincipal, reason: Option<string>)
    ensures Enabled(s, Cancel(id, owner, reason))
    ensures Next(s, cfg, Cancel(id, owner, reason)) == CancelStep(s, id, owner, reason)
  {
    hide CancelStep;
  }

  // What the proofs remember about the past.

  /** created, leased: per owner, in order. withdrawn: cancelled while queued.
      dropped: runs whose once-guard the executor has dropped. spoofed: cancelled while running and
      listened to, with the caller's reason reading "timeout". */
  datatype History = History(
    created: map<OwnerKey, seq<RunId>>,
    leased: map<OwnerKey, seq<RunId>>,
    withdrawn: set<RunId>,
    dropped: set<RunId>,
    spoofed: set<RunId>)

  const NO_HISTORY := History(map[], map[], {}, {}, {})

  predicate Spoofs(s: Sys, id: RunId, owner: OwnerPrincipal, reason: Option<string>) {
    MayCancel(s, id, owner) && s.m.runs[id].state == RUNNING && id in s.listening && reason == Some("timeout")
  }

  function Of(h: map<OwnerKey, seq<RunId>>, u: OwnerKey): seq<RunId> {
    if u in h then h[u] else []
  }

  /** A loop back at its top has dropped the once-guard of the run it was driving. */
  function RecordDrop(h: History, s: Sys, s': Sys, t: LoopId): History
    requires t in s.loops && !s.loops[t].stage.AtLoop?
  {
    if t in s'.loops && s'.loops[t].stage.AtLoop? then h.(dropped := h.dropped + {s.loops[t].stage.run}) else h
  }

  ghost function Record(h: History, s: Sys, cfg: S.Config, a: Action): History
    requires Enabled(s, a)
  {
    var s' := Next(s, cfg, a);
    match a
    case Create(id, _, _, _) =>
      if id !in s'.m.runs then h
      else h.(created := h.created[s'.m.runs[id].userId := Of(h.created, s'.m.runs[id].userId) + [id]])
    case Cancel(id, owner, reason) =>
      if !MayCancel(s, id, owner) then h
      else
        h.(withdrawn := if s.m.runs[id].state == QUEUED then h.withdrawn + {id} else h.withdrawn,
           spoofed := if Spoofs(s, id, owner, reason) then h.spoofed + {id} else h.spoofed)
    case Turn(t, _) =>
      if t in s'.loops && RunOf(s'.loops[t]).Some?
      then h.(leased := h.leased[s.loops[t].owner := Of(h.leased, s.loops[t].owner) + [RunOf(s'.loops[t]).value]])
      else h
    case Workspace(t, _) => RecordDrop(h, s, s', t)
    case Load(t, _) => RecordDrop(h, s, s', t)
    case Settle(t, _) => RecordDrop(h, s, s', t)
    case _ => h
  }

  datatype World = World(s: Sys, h: History)

  ghost function Step(w: World, cfg: S.Config, a: Action): World
    requires Enabled(w.s, a)
  {
    World(Next(w.s, cfg, a), Record(w.h, w.s, cfg, a))
  }

  const INITIAL := World(EMPTY_AT_ZERO, NO_HISTORY)

  /** A run of the system: every action enabled where it is taken. */
  ghost predicate Possible(w: World, cfg: S.Config, actions: seq<Action>)
    decreases |actions|
  {
    actions == [] || (Enabled(w.s, actions[0]) && Possible(Step(w, cfg, actions[0]), cfg, actions[1..]))
  }

  ghost function After(w: World, cfg: S.Config, actions: seq<Action>): World
    requires Possible(w, cfg, actions)
    decreases |actions|
  {
    if actions == [] then w else After(Step(w, cfg, actions[0]), cfg, actions[1..])
  }

  /** The terminal events a run has broadcast. */
  function TerminalsOf(out: seq<Emission>, r: RunId): seq<TerminalKind> {
    if out == [] then []
    else
      var last := out[|out| - 1];
      TerminalsOf(out[..|out| - 1], r) + (if last.Terminal? && last.run == r then [last.kind] else [])
  }

  function KindOf(s: RunState): Option<TerminalKind> {
    match s
    case COMPLETED => Some(RunCompleted)
    case FAILED => Some(RunFailed)
    case CANCELLED => Some(RunCancelled)
    case TIMED_OUT => Some(RunTimedOut)
    case _ => None
  }
}
