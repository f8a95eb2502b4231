/** The execution service as it runs: its two sets, its suspended executeRun activations and the run
    manager, updated in place. Each method is the code between two real awaits, proved to take the
    atomic step ServiceSpec describes (services/orchestrator/src/runtime/run-execution.service.ts). */
module RunExecutionService {
  import opened Collections
  import opened RunTypes
  import opened Owner
  import S = ManagerSpec
  import X = ServiceSpec
  import Q = QueueSpec
  import L = LeaseSpec
  import T = TimeoutSpec
  import C = CancellationSpec
  import RunManager

  datatype CreateError = PromptRequired | AgentPackIdRequired | Refused(error: S.RunError)

  function Created(result: Result<S.Run, S.RunError>): Result<S.Run, CreateError> {
    if result.Success? then Success(result.value) else Failure(Refused(result.error))
  }

  /** What String.prototype.trim strips: white space and line terminators (section 22.1.3.32 of ECMA-262). */
  predicate IsSpace(c: char) {
    || '\t' <= c <= '\r' || c in {' ', '\U{00A0}', '\U{1680}', '\U{202F}', '\U{205F}', '\U{3000}', '\U{FEFF}'}
    || '\U{2000}' <= c <= '\U{200A}' || c in {'\U{2028}', '\U{2029}'}
  }

  /** Absent, or nothing left of it once trimmed. */
  predicate Blank(text: Option<string>) {
    text.None? || forall c :: c in text.value ==> IsSpace(c)
  }

  /** The white space and line terminators of ECMA-262, one by one. */
  lemma SpacesAre(c: char)
    ensures IsSpace(c)
       <==> c in {'\t', '\n', '\U{000B}', '\U{000C}', '\r', ' ', '\U{00A0}', '\U{FEFF}', '\U{1680}',
                  '\U{2000}', '\U{2001}', '\U{2002}', '\U{2003}', '\U{2004}', '\U{2005}', '\U{2006}', '\U{2007}',
                  '\U{2008}', '\U{2009}', '\U{200A}', '\U{202F}', '\U{205F}', '\U{3000}', '\U{2028}', '\U{2029}'}
  {
  }

  /** String.prototype.trim. */
  function Trim(text: string): string
    decreases |text|
  {
    if text == "" then ""
    else if IsSpace(text[0]) then Trim(text[1..])
    else if IsSpace(text[|text| - 1]) then Trim(text[..|text| - 1])
    else text
  }

  /** A text is blank exactly if trimming leaves nothing of it. */
  lemma {:induction false} BlankIffTrimmedAway(text: string)
    ensures Blank(Some(text)) <==> Trim(text) == ""
    decreases |text|
  {
    if text != "" {
      var last := |text| - 1;
      if IsSpace(text[0]) {
        BlankIffTrimmedAway(text[1..]);
        assert text == [text[0]] + text[1..];
      } else {
        assert text[0] in text;
        if IsSpace(text[last]) {
          BlankIffTrimmedAway(text[..last]);
          assert text == text[..last] + [text[last]];
          assert text[..last][0] == text[0];
        }
      }
    }
  }

  /** A run that cannot be created leaves nothing behind. */
  lemma RefusedCreate(m: S.Manager, config: S.Config, now: Time, runId: RunId, owner: OwnerPrincipal,
                      maxDurationMs: Option<int>)
    ensures var o := S.CreateRun(m, config, now, runId, owner, maxDurationMs); o.result.Failure? ==> o.m == m
  {
    hide OwnerKeyFromPrincipal;
  }

  /** Cancelling an existing run answers with the record as it is afterwards, which is an ended one. */
  lemma CancelAnswers(m: S.Manager, now: Time, runId: RunId, reason: Option<string>)
    requires runId in m.runs
    ensures var o := S.CancelRun(m, now, runId, reason);
            runId in o.m.runs && o.result == Success(o.m.runs[runId]) && IsTerminalState(o.m.runs[runId].state)
  {
    hide L.Release, C.Cancel, C.AbortEvent, T.Clear, Q.Remove;
  }

  class RunExecutionService {
    const runManager: RunManager.RunManager
    var now: Time
    var processingUsers: set<OwnerKey>
    var terminalEvents: set<RunId>
    /** The suspended processUserQueue calls. */
    var loops: map<X.LoopId, X.Loop>
    /** Runs whose abort listener is installed. */
    var listening: set<RunId>
    /** Runs whose agent's events are passed on. */
    var subscribed: set<RunId>
    /** Everything handed to the event stream service, in order. */
    var sent: seq<X.Emission>

    ghost predicate Valid()
      reads this, runManager.cancellationRegistry, runManager.cancellationRegistry.Repr
    {
      runManager.Valid() && this !in runManager.Repr()
    }

    ghost function State(): X.Sys
      reads this, runManager.repo, runManager.queue, runManager.leaseManager, runManager.timeoutManager,
            runManager.cancellationRegistry
    {
      X.Sys(runManager.State(), now, processingUsers, loops, terminalEvents, listening, subscribed, sent)
    }

    constructor (config: S.Config)
      ensures Valid() && fresh(runManager.Repr())
      ensures State() == X.EMPTY_AT_ZERO && runManager.config == config
    {
      runManager := new RunManager.RunManager(Some(config.defaultTimeoutMs), Some(config.maxTimeoutMs),
                                              Some(config.leaseTtlMs));
      now, processingUsers, terminalEvents, loops, listening, subscribed, sent := 0, {}, {}, map[], {}, {}, [];
    }

    method EmitTerminalOnce(runId: RunId, kind: X.TerminalKind)
      requires Valid()
      modifies this
      ensures Valid() && State() == X.EmitTerminalOnce(old(State()), runId, kind)
    {
      if runId in terminalEvents {
        return;
      }
      terminalEvents := terminalEvents + {runId};
      sent := sent + [X.Terminal(runId, kind)];
    }

    /** Refuses a request without a prompt or a pack id; otherwise returns the new run, or the manager's
        error, and starts the owner's loop unless one is running. */
    method CreateRun(runId: RunId, owner: OwnerPrincipal, prompt: Option<string>, agentPackId: Option<string>,
                     maxDurationMs: Option<int>, loop: X.LoopId)
      returns (result: Result<S.Run, CreateError>)
      requires Valid() && runId !in runManager.repo.runs && loop !in loops
      modifies this, runManager.Repr()
      ensures fresh(runManager.Repr() - old(runManager.Repr()))
      ensures Valid()
      ensures Blank(prompt) || Blank(agentPackId) ==>
                && State() == old(State())
                && result == Failure(if Blank(prompt) then PromptRequired else AgentPackIdRequired)
      ensures !Blank(prompt) && !Blank(agentPackId) ==>
                && State() == X.CreateStep(old(State()), runManager.config, X.Create(runId, owner, maxDurationMs, loop))
                && result == Created(S.CreateRun(old(runManager.State()), runManager.config, old(now), runId, owner,
                                                 maxDurationMs).result)
    {
      if Blank(prompt) {
        return Failure(PromptRequired);
      }
      if Blank(agentPackId) {
        return Failure(AgentPackIdRequired);
      }
      hide Blank, S.CreateRun, X.CreateStep;
      var created := Enlist(runId, owner, maxDurationMs, loop);
      result := Created(created);
    }

    /** A request that passed validation. */
    method Enlist(runId: RunId, owner: OwnerPrincipal, maxDurationMs: Option<int>, loop: X.LoopId)
      returns (created: Result<S.Run, S.RunError>)
      requires Valid() && runId !in runManager.repo.runs && loop !in loops
      modifies this, runManager.Repr()
      ensures Valid() && fresh(runManager.Repr() - old(runManager.Repr()))
      ensures State() == X.CreateStep(old(State()), runManager.config, X.Create(runId, owner, maxDurationMs, loop))
      ensures created == S.CreateRun(old(runManager.State()), runManager.config, old(now), runId, owner,
                                     maxDurationMs).result
    {
      hide S.CreateRun, OwnerKeyFromPrincipal, RunManager.RunManager.Valid;
      RefusedCreate(runManager.State(), runManager.config, now, runId, owner, maxDurationMs);
      created := runManager.CreateRun(now, runId, owner, maxDurationMs);
      if created.Failure? {
        return;
      }
      var run := created.value;
      sent := sent + [X.Queued(runId, if run.queuePosition.Some? then run.queuePosition.value else 0)];
      ProcessUserQueue(run.userId, loop);
    }

    /** The synchronous beginning of processUserQueue. */
    method ProcessUserQueue(userId: OwnerKey, loop: X.LoopId)
      modifies this`processingUsers, this`loops
      ensures processingUsers == old(processingUsers) + {userId}
      ensures loops == if userId in old(processingUsers) then old(loops)
                       else old(loops)[loop := X.Loop(userId, X.AtLoop)]
    {
      if userId in processingUsers {
        return;
      }
      processingUsers := processingUsers + {userId};
      loops := loops[loop := X.Loop(userId, X.AtLoop)];
    }

    /** One turn of the loop: the next run's execution begins, or the loop ends. */
    method Turn(loop: X.LoopId, token: Token)
      requires Valid() && loop in loops
      modifies this, runManager.Repr()
      ensures fresh(runManager.Repr() - old(runManager.Repr()))
      ensures Valid() && State() == X.TurnStep(old(State()), runManager.config, loop, token)
    {
      hide S.AcquireNextRun;
      var next := runManager.AcquireNextRun(now, loops[loop].owner, token);
      if next.Failure? || next.value.None? {
        EndLoop(loop);
        return;
      }
      Goto(loop, X.Preparing(next.value.value.id));
    }

    method EndLoop(loop: X.LoopId)
      requires loop in loops
      modifies this`processingUsers, this`loops
      ensures processingUsers == old(processingUsers) - {old(loops)[loop].owner}
      ensures loops == old(loops) - {loop}
    {
      processingUsers := processingUsers - {loops[loop].owner};
      loops := loops - {loop};
    }

    method Goto(loop: X.LoopId, stage: X.Stage)
      requires loop in loops
      modifies this`loops
      ensures loops == old(loops)[loop := old(loops)[loop].(stage := stage)]
    {
      loops := loops[loop := loops[loop].(stage := stage)];
    }

    method Leave(loop: X.LoopId, runId: RunId)
      requires Valid() && loop in loops
      modifies this`terminalEvents, this`loops
      ensures Valid() && State() == X.Leave(old(State()), loop, runId)
    {
      terminalEvents := terminalEvents - {runId};
      Goto(loop, X.AtLoop);
    }

    /** The catch block of executeRun. */
    method Catch(loop: X.LoopId, runId: RunId, error: string)
      requires Valid() && loop in loops
      modifies this, runManager.Repr()
      ensures fresh(runManager.Repr() - old(runManager.Repr()))
      ensures Valid() && State() == X.Caught(old(State()), loop, runId, error)
    {
      hide S.Finish;
      var latestRun := runManager.GetRun(runId);
      if latestRun.None? || latestRun.value.state in {CANCELLED, TIMED_OUT} {
        Leave(loop, runId);
        return;
      }
      var failedRun := runManager.FailRun(now, runId, error);
      if failedRun.Failure? {
        EndLoop(loop);
        return;
      }
      EmitTerminalOnce(runId, X.RunFailed);
      sent := sent + [X.Closed(runId)];
      Leave(loop, runId);
    }

    /** The health check and the workspace have come back. */
    method Workspace(loop: X.LoopId, error: Option<string>)
      requires Valid() && loop in loops && loops[loop].stage.Preparing?
      modifies this, runManager.Repr()
      ensures fresh(runManager.Repr() - old(runManager.Repr()))
      ensures Valid() && State() == X.WorkspaceStep(old(State()), loop, error)
    {
      hide S.StartRun, X.Caught;
      var runId := loops[loop].stage.run;
      if error.Some? {
        Catch(loop, runId, error.value);
        return;
      }
      var startedRun := runManager.StartRun(now, runId);
      if startedRun.Failure? {
        Catch(loop, runId, X.TRANSITION_REFUSED);
        return;
      }
      sent := sent + [X.Started(runId)];
      var signalled := runId in runManager.cancellationRegistry.contexts;
      Goto(loop, X.Loading(runId, signalled));
    }

    /** The pack has been loaded and the agent built. */
    method Load(loop: X.LoopId, error: Option<string>)
      requires Valid() && loop in loops && loops[loop].stage.Loading?
      modifies this, runManager.Repr()
      ensures fresh(runManager.Repr() - old(runManager.Repr()))
      ensures Valid() && State() == X.LoadStep(old(State()), loop, error)
    {
      hide X.Caught;
      var runId := loops[loop].stage.run;
      if error.Some? {
        Catch(loop, runId, error.value);
        return;
      }
      subscribed := subscribed + {runId};
      if loops[loop].stage.signalled {
        listening := listening + {runId};
      }
      Goto(loop, X.Prompting(runId));
    }

    /** agent.prompt has settled. */
    method Settle(loop: X.LoopId, outcome: Result<seq<string>, string>)
      requires Valid() && loop in loops && loops[loop].stage.Prompting?
      modifies this, runManager.Repr()
      ensures fresh(runManager.Repr() - old(runManager.Repr()))
      ensures Valid() && State() == X.SettleStep(old(State()), loop, outcome)
    {
      var runId := loops[loop].stage.run;
      X.AfterPromptAside(State(), loop, outcome, subscribed - {runId});
      if outcome.Failure? {
        hide X.Caught;
        Catch(loop, runId, outcome.error);
        return;
      }
      hide X.AfterPrompt;
      subscribed := subscribed - {runId};
      Prompted(loop, runId, outcome.value);
    }

    /** After a prompt that came back. */
    method Prompted(loop: X.LoopId, runId: RunId, messages: seq<string>)
      requires Valid() && loop in loops && loops[loop].stage == X.Prompting(runId)
      modifies this, runManager.Repr()
      ensures fresh(runManager.Repr() - old(runManager.Repr()))
      ensures Valid() && State() == X.AfterPrompt(old(State()), loop, Success(messages))
    {
      hide X.Caught, S.Finish, RunManager.RunManager.Valid;
      var latestRun := runManager.GetRun(runId);
      if latestRun.None? {
        Catch(loop, runId, X.DISAPPEARED);
        return;
      }
      if latestRun.value.state in {CANCELLED, TIMED_OUT} {
        sent := sent + [X.Closed(runId)];
        Leave(loop, runId);
        return;
      }
      var completedRun := runManager.CompleteRun(now, runId, Some(messages));
      if completedRun.Failure? {
        Catch(loop, runId, X.TRANSITION_REFUSED);
        return;
      }
      EmitTerminalOnce(runId, X.RunCompleted);
      sent := sent + [X.Closed(runId)];
      Leave(loop, runId);
    }

    /** The subscription of run's agent. */
    method AgentEvent(runId: RunId)
      requires Valid() && runId in subscribed
      modifies this`sent
      ensures Valid() && State() == X.Send(old(State()), X.Agent(runId))
    {
      sent := sent + [X.Agent(runId)];
    }

    /** The abort listener. */
    method OnAbort(runId: RunId, aborted: Option<string>)
      requires Valid()
      modifies this
      ensures Valid() && State() == X.OnAbort(old(State()), runId, aborted)
    {
      if aborted.None? || runId !in listening {
        return;
      }
      if aborted.value == "timeout" {
        EmitTerminalOnce(runId, X.RunTimedOut);
      } else {
        EmitTerminalOnce(runId, X.RunCancelled);
      }
    }

    /** Returns None for a run that does not exist or belongs to someone else. */
    method CancelRun(runId: RunId, owner: OwnerPrincipal, reason: Option<string>) returns (cancelled: Option<S.Run>)
      requires Valid()
      modifies this, runManager.Repr()
      ensures fresh(runManager.Repr() - old(runManager.Repr()))
      ensures Valid() && State() == X.CancelStep(old(State()), runId, owner, reason)
      ensures cancelled == if !X.MayCancel(old(State()), runId, owner) then None
                           else Answer(S.CancelRun(old(runManager.State()), old(now), runId, reason).result)
      ensures var runs := old(runManager.State()).runs;
              if runId in runs && runs[runId].owner == owner
              then runId in runManager.State().runs && cancelled == Some(runManager.State().runs[runId])
                   && IsTerminalState(cancelled.value.state)
              else cancelled == None && State() == old(State())
    {
      hide S.CancelRun, RunManager.RunManager.Valid;
      if runId in runManager.repo.runs { CancelAnswers(runManager.State(), now, runId, reason); }
      var run := runManager.GetRun(runId);
      if run.None? || !SameOwnerPrincipal(run.value.owner, owner) {
        return None;
      }
      var result, aborted := runManager.CancelRun(now, runId, reason);
      OnAbort(runId, aborted);
      if result.Failure? {
        return None;
      }
      if result.value.state == CANCELLED {
        EmitTerminalOnce(runId, X.RunCancelled);
      }
      cancelled := Some(result.value);
    }

    static function Answer(result: Result<S.Run, S.RunError>): Option<S.Run> {
      if result.Success? then Some(result.value) else None
    }

    method Fire(runId: RunId)
      requires Valid()
      modifies this, runManager.Repr()
      ensures fresh(runManager.Repr() - old(runManager.Repr()))
      ensures Valid() && State() == X.FireStep(old(State()), runId)
    {
      hide S.FireTimeout;
      var _, aborted := runManager.FireTimeout(now, runId);
      OnAbort(runId, aborted);
    }
  }
}
