# Run orchestrator: a verified model

This project models the run orchestrator (`services/orchestrator/src/`): the life of a run from creation to its
terminal state, the per-owner queue, leases, timers and abort contexts it passes through, the executor that drives
it across awaits, the event stream that reports it, and three pure helpers (owner keys, path validation, skill
rendering). To check the project, run `dafny verify dfyconfig.toml` (Dafny 4.11).

The stateful parts appear twice. A specification module (`QueueSpec`, `LeaseSpec`, `ManagerSpec`, `ServiceSpec`,
`SseSpec`, ...) says what each operation does as a function from state to state, and the theorems are about those
functions, over all runs. A class (`InMemoryRunQueue`, `RunManager`, `RunExecutionService`, `SSEService`, ...)
keeps the fields the service keeps and updates them in place, branch by branch and loop by loop; each method's
postcondition ties its new state to the specification function.

| files | what they hold |
|---|---|
| Collections, StableSort | sequences without repetition; JavaScript's stable sort and filtering |
| RunTypes, Owner | run states and their table; owner keys, percent-encoding |
| RunQueue, Lease, Timeout, Cancellation | the four in-memory services a run passes through |
| ManagerSpec, ManagerInvariant, ManagerTheorems, RunManager | the run manager over them |
| RunFates | the run manager again, as what each call makes of one run's record |
| StalePeek | one manager call taken apart at its first await |
| ManagerTraces, ServiceTraces | histories from the start that end where the theorems warn of something |
| ServiceSpec, ServiceInvariant, ServiceSteps, ServiceTheorems, ServiceTimers, ServiceClosing, ServiceSubscriptions, RunExecutionService | the executor and everything that can interleave with it |
| ServiceCalls, ServiceOutcomes, ServiceTranscript | which manager call each step makes; what a run is given and what it ends with; everything that is said about it |
| SseSpec, SseReplay, SseHistory, SseSteps, SseTheorems, SseStreams, SseService | the event stream |
| EndToEnd | executor and event stream together: what a client is told about the end of its run |
| PathSecurity, Assembler | path validation; skill ordering, grouping and rendering |

## Assumptions

- Every await inside the run manager is on a promise that is already resolved, so one manager call is one step,
  unless two calls are pending in one drain of the microtask queue. StalePeek examines that case for the call in
  which it matters.
- The executor is suspended at three real awaits (health check and workspace, pack load, `agent.prompt`); what runs
  between two of them is one step. The prompt settles in a later step than the abort that causes it.
- Generated run ids and lease tokens are new; stream and set objects are new objects. The clock does not go back.
- The gateway hands over principals with non-empty parts (`services/orchestrator/src/auth/gateway-auth.service.ts:46-63`),
  so owner keys are not the empty string. What goes wrong for the empty key is stated (`QueueSpec.LocatedIff`,
  `LeaseSpec.ReleaseKillsIff`).
- `setTimeout` turns a delay below 1 ms or above 2^31 - 1 ms into 1 ms; timers call back when due or later.
- `Array.prototype.sort` is stable (section 22.1.3.27 of ECMA-262, tenth edition); `encodeURIComponent` encodes as in
  section 19.2.6.5 of ECMA-262; the functions of node:path are their POSIX versions.

## What the code does not do

Each of these is a theorem, with the condition under which it happens; where ManagerTraces or ServiceTraces is named,
there is also a history from the start in which it does happen.

- A lease lasts 30 seconds and is never extended by the manager, so the lease alone does not give one active run per
  owner (`ManagerTheorems.ExpiredLeaseAdmitsSecond`, `ManagerTraces.TwoActiveAfterExpiry`); the executor's one loop per
  owner does (`ServiceTheorems.OneActiveRunPerOwner`).
- `completeRun` and `failRun` release the lease before the transition is checked; refused, they do harm exactly to a
  LEASED run whose lease still runs (`ManagerTheorems.RefusedFinish`, `ManagerTraces.TwoActiveAfterRefusal`).
- If two calls are pending in one drain of the microtask queue, a run cancelled between the peek and the rest of
  `acquireNextRun` is leased after all and the next run of that owner is lost for good
  (`StalePeek.CancelBetweenStrands`, `StrandedForever`, `ManagerTraces.StrandingHappens`).
- The end of one run can be announced twice: exactly if it is CANCELLED, the executor has dropped its once-guard and
  it is cancelled again (`ServiceTheorems.TerminalEventsBounded`, `RepeatedCancelAnnouncesIff`,
  `ServiceTraces.SecondAnnouncementHappens`). A run cancelled while queued is announced exactly once, ever.
- A cancellation whose reason is the string `timeout` is announced as `run_timed_out` for a CANCELLED run
  (`ServiceTheorems.TerminalKindMatchesIff`, `ServiceTraces.SpoofedCancelHappens`).
- An error with an empty text, thrown or given as the reason of a cancellation, is not stored: the run ends without
  an error (`ServiceOutcomes.EndsByItsEnd`).
- A maximum duration below 1 ms or above 2^31 - 1 ms makes a run time out after 1 ms
  (`ServiceTimers.TimersAndContextsAgree`).
- A timeout before the abort listener is installed is never announced (`ServiceTheorems.TimeoutAnnouncedIff`,
  `ServiceTraces.SilentTimeoutHappens`, `SilentTimeoutStays`).
- `closeRun` is never called for a run cancelled while queued, nor for an aborted run that leaves through the catch
  block, so that its buffer and numbers stay (`ServiceClosing.StepClosesIff`, `ClosedOnceIff`).
- A rejected prompt leaves the agent subscribed for good, so that its events still go out after the run has ended
  (`ServiceSubscriptions.SubscribedIff`).
- A legacy subject with a colon can share another owner's lane (`Owner.LanesCollideIff`, `LegacyColonCollides`).
- `docs/api/sse-schema.md:23` and `:459` promise numbers without gaps; dropped agent events and connections use
  numbers up (`SseTheorems.GaplessIff`).
- `docs/api/sse-schema.md:483-484` describes replay from the number after the last received one, after
  `stream_connected`; the code replays from that number, before `stream_connected`
  (`SseTheorems.ReconnectRepeatsLast`, `Handover`).
- Replay is not restricted to the run asked for (`SseTheorems.ForeignEventsIff`).
- A cleanup that runs again after its set was dropped deletes the set of clients that connected since
  (`SseTheorems.StaysLiveIff`, `CleanupTwiceIsStale`, `StaleCleanupSilences`).
- A name that begins with two dots is refused although it stays inside the workspace (`PathSecurity.RefusedIff`,
  `DotsNameRefused`).
- Only the category ordering survives the grouping by category in general (`Assembler.RenderingKeepsOrderIff`,
  `SizeOrderingIsLost`).

## Model

| member | source | states |
|---|---|---|
| UriComponents.EncodableIffWellFormed | services/orchestrator/src/types/owner.ts:11 | `encodeURIComponent` throws exactly on strings with a lone surrogate |
| UriComponents.RoundTrip | services/orchestrator/src/types/owner.ts:11 | decoding what `encodeURIComponent` produced gives the string back, for every string it accepts |
| UriComponents.UnchangedIffPlain | services/orchestrator/src/types/owner.ts:11 | a string is its own encoding exactly if it consists of letters, digits and - _ . ! ~ * ' ( ) |
| UriComponents.PercentSpells | services/orchestrator/src/types/owner.ts:11 | every other octet is spelled as a percent sign and two upper-case hexadecimal digits |
| UriComponents.KnownEncodings | services/orchestrator/src/types/owner.ts:11 | one character for each number of UTF-8 octets |
| Owner.KeyExists | services/orchestrator/src/types/owner.ts:6-12 | a principal has a key exactly if it is legacy or both its parts are well-formed strings |
| Owner.PlainKey | services/orchestrator/src/types/owner.ts:6-12 | the key of a principal with plain parts is those parts with a colon between them, or the subject alone under the tenant `legacy` |
| Owner.KeyDecodes | services/orchestrator/src/types/owner.ts:6-12 | the key of a non-legacy principal decodes to that principal, so keys are injective on them |
| Owner.LanesCollideIff | services/orchestrator/src/types/owner.ts:6-16 | two principals share a key exactly if they are the same owner, or one is legacy and its subject spells the key of the other |
| Owner.DistinctLanes | services/orchestrator/src/types/owner.ts:6-16 | distinct owners have distinct keys as long as no legacy subject contains a colon |
| Owner.LegacyColonCollides | services/orchestrator/src/types/owner.ts:6-12 | a legacy subject with a colon can collide |
| Owner.KeyNonEmpty | services/orchestrator/src/types/owner.ts:6-12 | a key is empty only for the legacy principal with the empty subject |
| RunTypes.StateClasses | services/orchestrator/src/types/run.ts:123-164 | terminal states are exactly those without a way out, states split into queued, active and terminal, and the table has no cycle |
| QueueSpec.IndexIsScan | services/orchestrator/src/services/queue.ts:55-60 | the reverse index maps a run to an owner exactly if the run is in that owner's list |
| QueueSpec.EnqueueWFIff | services/orchestrator/src/services/queue.ts:62-76 | enqueuing appends to one list, and keeps lists duplicate-free and the index exact if and only if the run was not waiting |
| QueueSpec.DequeueWF | services/orchestrator/src/services/queue.ts:78-94 | dequeuing takes the oldest run of one list, drops emptied lists and keeps the index exact |
| QueueSpec.RemoveWF | services/orchestrator/src/services/queue.ts:105-131 | removing deletes one element of one list, changes no other and keeps the index exact |
| QueueSpec.LocatedIff | services/orchestrator/src/services/queue.ts:105-146 | a waiting run is found, and can be removed, exactly if its owner key is not the empty string |
| QueueSpec.RemovePositions | services/orchestrator/src/services/queue.ts:105-146 | removal lowers the position of every later run of that list by exactly one and no other position |
| QueueSpec.EnqueueAtEnd | services/orchestrator/src/services/queue.ts:62-76 | a run enters at the position enqueue reports |
| QueueSpec.EnqueueKeepsPosition | services/orchestrator/src/services/queue.ts:62-76 | enqueuing moves nobody who waits already |
| RunQueue.InMemoryRunQueue.Enqueue | services/orchestrator/src/services/queue.ts:62-76 | the two maps become what the specification says; returns the new position |
| RunQueue.InMemoryRunQueue.Dequeue | services/orchestrator/src/services/queue.ts:78-94 | the two maps become what the specification says; returns the head or nothing |
| RunQueue.InMemoryRunQueue.Peek | services/orchestrator/src/services/queue.ts:96-103 | returns the head without changing anything |
| RunQueue.InMemoryRunQueue.Remove | services/orchestrator/src/services/queue.ts:105-131 | the two maps become what the specification says; answers whether the run was found |
| RunQueue.InMemoryRunQueue.GetPosition | services/orchestrator/src/services/queue.ts:133-146 | returns where the run waits |
| LeaseSpec.ApplyWF | services/orchestrator/src/services/lease.ts:69-191 | every call keeps the token index the exact inverse of the leases and revives no token |
| LeaseSpec.HistoryWF | services/orchestrator/src/services/lease.ts:69-191 | after any history of acquire, release, extend, isActive and cleanupExpired the index is the exact inverse of the leases |
| LeaseSpec.LeaseLasts | services/orchestrator/src/services/lease.ts:69-96 | a granted lease holds its owner off for exactly its time to live and concerns no other owner |
| LeaseSpec.ExtendShifts | services/orchestrator/src/services/lease.ts:113-127 | extending moves the end of the hold by the given time and concerns no other owner |
| LeaseSpec.SweepIsInvisible | services/orchestrator/src/services/lease.ts:129-191 | isActive and cleanupExpired drop exactly what has expired, so nobody is held a moment longer or shorter for it |
| LeaseSpec.DeadTokenStaysDead | services/orchestrator/src/services/lease.ts:98-127 | fencing: a token that is no longer live never again releases or extends anything, through any later history |
| LeaseSpec.ReleaseKillsIff | services/orchestrator/src/services/lease.ts:98-111 | releasing kills the token exactly unless its owner key is the empty string |
| LeaseSpec.SupersededTokenDies | services/orchestrator/src/services/lease.ts:69-96 | taking over an expired lease kills the token it carried |
| LeaseManager.InMemoryLeaseManager.Acquire | services/orchestrator/src/services/lease.ts:69-96 | grants a lease and updates both maps unless an unexpired one blocks |
| LeaseManager.InMemoryLeaseManager.Release | services/orchestrator/src/services/lease.ts:98-111 | drops the lease whose current token this is, or nothing |
| LeaseManager.InMemoryLeaseManager.Extend | services/orchestrator/src/services/lease.ts:113-127 | moves the expiry of the lease whose current token this is, or fails |
| LeaseManager.InMemoryLeaseManager.IsActive | services/orchestrator/src/services/lease.ts:129-144 | answers whether an unexpired lease exists and drops an expired one |
| LeaseManager.InMemoryLeaseManager.GetActiveRun | services/orchestrator/src/services/lease.ts:146-153 | the run of the unexpired lease, dropping an expired one |
| LeaseManager.InMemoryLeaseManager.GetLease | services/orchestrator/src/services/lease.ts:155-172 | the unexpired lease with this token |
| LeaseManager.InMemoryLeaseManager.CleanupExpired | services/orchestrator/src/services/lease.ts:178-191 | the loop drops exactly the expired leases with their tokens and returns how many |
| TimeoutManager.InMemoryTimeoutManager.Schedule | services/orchestrator/src/services/timeout.ts:96-115 | replaces the run's timer, and no other, with one that calls back after the delay, or after 1 ms if setTimeout cannot wait that long |
| TimeoutManager.InMemoryTimeoutManager.Clear | services/orchestrator/src/services/timeout.ts:117-126 | drops the run's timer and answers whether there was one |
| TimeoutManager.InMemoryTimeoutManager.Fire | services/orchestrator/src/services/timeout.ts:104-111 | the callback drops the timer before the handler runs |
| CancellationSpec.CancelOnce | services/orchestrator/src/services/cancellation.ts:85-128 | the first cancel fires the signal with the reason given, or with `cancelled`; a second one changes nothing and fires nothing |
| CancellationRegistry.CancellationContext.Cancel | services/orchestrator/src/services/cancellation.ts:85-93 | sets the flag and the first reason once, and fires the signal with it |
| CancellationRegistry.InMemoryCancellationRegistry.Create | services/orchestrator/src/services/cancellation.ts:102-110 | replaces the run's context with a new uncancelled one |
| CancellationRegistry.InMemoryCancellationRegistry.Remove | services/orchestrator/src/services/cancellation.ts:116-118 | drops the run's context |
| CancellationRegistry.InMemoryCancellationRegistry.Cancel | services/orchestrator/src/services/cancellation.ts:120-128 | cancels the run's context if there is one and reports the reason the listeners get |
| RunManager.InMemoryRunRepository.Update | services/orchestrator/src/services/run-manager.ts:72-80 | assigns the given fields of one record and no others, or fails for an unknown run and changes nothing |
| RunManager.RunManager.CreateRun | services/orchestrator/src/services/run-manager.ts:135-169 | the record is stored and queued, with the position it was given |
| RunManager.RunManager.TransitionState | services/orchestrator/src/services/run-manager.ts:188-233 | checks the table, stamps times, clears the timer on a terminal state, keeps or sets error and messages |
| RunManager.RunManager.AcquireNextRun | services/orchestrator/src/services/run-manager.ts:239-271 | leases the head of the queue and writes LEASED, or returns nothing |
| RunManager.RunManager.StartRun | services/orchestrator/src/services/run-manager.ts:276-292 | moves to RUNNING, then opens a context and sets the timer |
| RunManager.RunManager.CancelRun | services/orchestrator/src/services/run-manager.ts:297-325 | unqueues, releases, signals, then moves to CANCELLED; terminal runs are returned unchanged |
| RunManager.RunManager.FireTimeout | services/orchestrator/src/services/run-manager.ts:330-348 | releases, signals with the reason timeout, then moves to TIMED_OUT; terminal runs are left alone |
| RunManager.RunManager.CompleteRun | services/orchestrator/src/services/run-manager.ts:353-371 | releases and drops the context, then moves to COMPLETED or throws |
| RunManager.RunManager.FailRun | services/orchestrator/src/services/run-manager.ts:376-392 | releases and drops the context, then moves to FAILED or throws |
| ManagerTheorems.CreateKeeps | services/orchestrator/src/services/run-manager.ts:135-169 | creating keeps the invariant that ties run table, queue, leases, timers and contexts together |
| ManagerTheorems.AcquireKeeps | services/orchestrator/src/services/run-manager.ts:239-271 | acquiring keeps it and never throws |
| ManagerTheorems.StartKeeps | services/orchestrator/src/services/run-manager.ts:276-292 | starting keeps it and succeeds exactly for a LEASED run |
| ManagerTheorems.CancelKeeps | services/orchestrator/src/services/run-manager.ts:297-325 | cancelling keeps it, ends every unfinished run CANCELLED, and fires the signal exactly for a RUNNING one |
| ManagerTheorems.FireKeeps | services/orchestrator/src/services/run-manager.ts:330-348 | a due timer belongs to a RUNNING run, which becomes TIMED_OUT |
| ManagerTheorems.FinishKeeps | services/orchestrator/src/services/run-manager.ts:353-392 | finishing a run that may finish keeps it and succeeds |
| ManagerTheorems.RefusedFinish | services/orchestrator/src/services/run-manager.ts:353-392 | finishing a run that may not finish throws, and breaks the invariant exactly if the run is LEASED with time left on its lease |
| ManagerTheorems.StepKeeps | services/orchestrator/src/services/run-manager.ts:104-392 | every call a caller may make keeps the invariant |
| ManagerTheorems.HistoryKeeps | services/orchestrator/src/services/run-manager.ts:104-392 | so does every history of calls |
| ManagerTheorems.OneUnexpiredActiveRun | services/orchestrator/src/services/run-manager.ts:239-271 | for any caller that never completes a LEASED run: no owner has two active runs with unexpired leases |
| ManagerTheorems.LegalStep | services/orchestrator/src/services/run-manager.ts:257-268 | although LEASED is written unchecked, every call moves every run along the transition table; terminal records are frozen |
| ManagerTheorems.TerminalForever | services/orchestrator/src/types/run.ts:123-131 | a terminal run keeps its record through any later history |
| ManagerTheorems.HeldIff | services/orchestrator/src/services/lease.ts:69-81 | a lease holds an owner off exactly while one of that owner's runs has time left |
| ManagerTheorems.ExpiredLeaseAdmitsSecond | services/orchestrator/src/services/run-manager.ts:239-255 | beside an active run the next acquisition makes a second active run of that owner exactly if none of the owner's runs has time left on its lease, and otherwise changes nothing |
| ManagerTheorems.CompletingLeasedAdmitsSecond | services/orchestrator/src/services/run-manager.ts:353-371 | completing a LEASED run throws but frees the lane, so a second run becomes active beside it |
| ManagerTheorems.StaleTokenIsFenced | services/orchestrator/src/services/run-manager.ts:353-392 | completing or failing an ended run again cannot touch its owner's current lease |
| RunFates.CallMakes | services/orchestrator/src/services/run-manager.ts:104-392 | every call does to every run's record what a one-run account of the manager says, field by field: new records come by createRun alone, with the duration asked for or the default, capped; no other record is touched |
| RunFates.StartMakes | services/orchestrator/src/services/run-manager.ts:276-292 | starting changes a LEASED record to RUNNING and nothing else in it, and refuses any other run with its state |
| RunFates.FinishMakes | services/orchestrator/src/services/run-manager.ts:353-392 | completing stores the final messages, failing the error unless it is empty, both the time; what is returned is the record; a run that may not finish is refused and its record kept |
| RunFates.CancelMakes | services/orchestrator/src/services/run-manager.ts:297-325 | cancelling stores the reason, or `cancelled`, or nothing for an empty one; what is returned is the record, unchanged if it had ended |
| RunFates.CancelSignals | services/orchestrator/src/services/run-manager.ts:317-319 | the abort context of a RUNNING run, and no other, is cancelled with the reason or `user_cancelled` |
| RunFates.FireMakes | services/orchestrator/src/services/run-manager.ts:330-348 | a due timer ends a RUNNING run with the timeout error |
| RunFates.UnknownRuns | services/orchestrator/src/services/run-manager.ts:188-392 | calls about a run that does not exist fail with its id and change nothing |
| ManagerTraces.TwoActiveAfterExpiry | services/orchestrator/src/services/run-manager.ts:239-271 | a history of five calls from the empty manager that ends with two active runs of one owner |
| ManagerTraces.TwoActiveAfterRefusal | services/orchestrator/src/services/run-manager.ts:353-371 | a history from the empty manager after which completing and acquiring leave two active runs with time left on both leases |
| StalePeek.ResumeIsAtomicIff | services/orchestrator/src/services/run-manager.ts:239-271 | resuming after the first await is the whole call exactly if a lease holds the owner off or the peeked run is still first |
| StalePeek.ResumeRefusedIff | services/orchestrator/src/services/run-manager.ts:239-255 | resuming is refused exactly while some run of that owner has time left on its lease, whoever leased it |
| StalePeek.PeekStaysValidIff | services/orchestrator/src/services/run-manager.ts:239-271 | whatever is called in between, another acquisition for the same owner included: the peeked run is still first exactly if it is still queued; without such an acquisition, exactly if it was not cancelled |
| StalePeek.StaleResumeStrandsNext | services/orchestrator/src/services/run-manager.ts:257-268 | if it was, a CANCELLED run becomes LEASED and the next run leaves the queue unleased |
| StalePeek.CancelBetweenStrands | services/orchestrator/src/services/run-manager.ts:239-325 | in any state of the invariant with two waiting runs and no live lease, cancelling the first between the peek and the rest does exactly that |
| StalePeek.StrandedForever | services/orchestrator/src/services/run-manager.ts:239-271 | that run is never leased or started by any later history |
| ManagerTraces.StrandingHappens | services/orchestrator/src/services/run-manager.ts:239-325 | a history from the empty manager after which a cancellation between the peek and the rest strands a run |
| RunExecutionService.SpacesAre | services/orchestrator/src/runtime/run-execution.service.ts:59-60 | what trim strips, character by character |
| RunExecutionService.BlankIffTrimmedAway | services/orchestrator/src/runtime/run-execution.service.ts:59-68 | a prompt or pack id counts as missing exactly if trimming leaves nothing of it |
| RunExecutionService.RunExecutionService.CreateRun | services/orchestrator/src/runtime/run-execution.service.ts:58-84 | refuses a request whose prompt or pack id is blank and changes nothing; otherwise creates, announces, and starts a loop unless the owner has one |
| RunExecutionService.RunExecutionService.Turn | services/orchestrator/src/runtime/run-execution.service.ts:129-141 | one turn of the loop: next run, or the end of the loop |
| RunExecutionService.RunExecutionService.Workspace | services/orchestrator/src/runtime/run-execution.service.ts:166-180 | resumption after the workspace: start and announce, or the catch block |
| RunExecutionService.RunExecutionService.Load | services/orchestrator/src/runtime/run-execution.service.ts:180-232 | resumption after the pack load: install the listener and prompt, or the catch block |
| RunExecutionService.RunExecutionService.AgentEvent | services/orchestrator/src/runtime/run-execution.service.ts:204-206 | a subscribed agent's event is passed on to the run's stream, and changes nothing else |
| RunExecutionService.RunExecutionService.Settle | services/orchestrator/src/runtime/run-execution.service.ts:232-277 | resumption after the prompt: unsubscribe, then complete or leave an aborted run alone; a rejected prompt goes to the catch block and stays subscribed |
| RunExecutionService.RunExecutionService.Catch | services/orchestrator/src/runtime/run-execution.service.ts:256-277 | the catch block: fail the run unless it was aborted, and drop the once-guard |
| RunExecutionService.RunExecutionService.OnAbort | services/orchestrator/src/runtime/run-execution.service.ts:209-228 | the abort listener announces a timeout or a cancellation by the reason |
| RunExecutionService.RunExecutionService.EmitTerminalOnce | services/orchestrator/src/runtime/run-execution.service.ts:370-381 | announces unless the guard is set, and sets it |
| RunExecutionService.RunExecutionService.CancelRun | services/orchestrator/src/runtime/run-execution.service.ts:97-120 | for a run that does not exist or belongs to another principal returns nothing and changes nothing; otherwise cancels, announces a CANCELLED run, and returns the record, which is an ended one |
| RunExecutionService.RunExecutionService.Fire | services/orchestrator/src/services/run-manager.ts:286-288 | a timer callback with the abort listener it may trigger |
| ServiceCalls.StepCalls | services/orchestrator/src/runtime/run-execution.service.ts:58-283 | every atomic step makes one manager call at most, one that a caller may make, and touches the manager in no other way; only its own principal cancels a run |
| ServiceCalls.RunIsHistory | services/orchestrator/src/runtime/run-execution.service.ts:58-283 | every run of the service is a history of manager calls of the kind the manager's theorems are about |
| ServiceCalls.ForeignCancelIsInert | services/orchestrator/src/runtime/run-execution.service.ts:97-120 | cancelling a run that does not exist or belongs to another principal changes nothing at all |
| ServiceSteps.LeaseNeverBlocks | services/orchestrator/src/runtime/run-execution.service.ts:130-134 | inside the loop acquireNextRun never fails and returns nothing only if the queue is empty |
| ServiceSteps.StepKeeps | services/orchestrator/src/runtime/run-execution.service.ts:58-283 | every atomic step keeps the invariant of the interleaved system |
| ServiceTheorems.OneActiveRunPerOwner | services/orchestrator/src/runtime/run-execution.service.ts:122-141 | in every reachable state each owner has at most one execution in flight and at most one LEASED or RUNNING run |
| ServiceTheorems.WaitingMeansLooping | services/orchestrator/src/runtime/run-execution.service.ts:81-141 | a run waits only while its owner's loop is alive |
| ServiceTheorems.LoopEndsOnlyWhenIdle | services/orchestrator/src/runtime/run-execution.service.ts:129-140 | executeRun never rejects: a loop ends only at its top and only with nothing waiting |
| ServiceTheorems.LoopEndMeansDone | services/orchestrator/src/runtime/run-execution.service.ts:129-140 | when a loop ends, every run of its owner has ended |
| ServiceTheorems.ExecutorStepsDecrease | services/orchestrator/src/runtime/run-execution.service.ts:130-137 | every executor step lowers its owner's measure and leaves the others' alone |
| ServiceTheorems.OtherStepsDoNotIncrease | services/orchestrator/src/runtime/run-execution.service.ts:58-114 | only a new run of that owner raises the measure |
| ServiceTheorems.DrainingTerminates | services/orchestrator/src/runtime/run-execution.service.ts:129-283 | without new runs an owner's loop takes at most as many more steps as the measure, whatever interleaves |
| ServiceTheorems.UndrainedCanStep | services/orchestrator/src/runtime/run-execution.service.ts:129-283 | until the measure is zero the owner's loop exists and can step |
| ServiceTheorems.DrainedMeansTerminal | services/orchestrator/src/runtime/run-execution.service.ts:129-283 | at zero every run of the owner is terminal |
| ServiceTheorems.FifoConservation | services/orchestrator/src/services/run-manager.ts:135-311 | creation history minus runs withdrawn while queued equals leasing history followed by the queue |
| ServiceTheorems.QueueMatchesRuns | services/orchestrator/src/services/run-manager.ts:158-268 | a run is QUEUED exactly if it waits, once, in its own owner's queue, at or before its stored position |
| ServiceTheorems.StepsFollowTable | services/orchestrator/src/types/run.ts:123-138 | every step moves every run along the transition table |
| ServiceTheorems.EndedForGood | services/orchestrator/src/types/run.ts:123-131 | an ended run keeps its record over any run of the system |
| ServiceTimers.TimerStep | services/orchestrator/src/services/run-manager.ts:276-348 | over every step: a timer there afterwards was there before, unchanged, or was set by the start of its LEASED run, from now; who times out was RUNNING and does so in its own timer's callback, when that is due |
| ServiceTimers.BeganOnce | services/orchestrator/src/services/run-manager.ts:276-292 | the moment a run began running never changes afterwards |
| ServiceTimers.TimersAndContextsAgree | services/orchestrator/src/services/run-manager.ts:276-348 | pending timers are exactly the RUNNING runs; each was set when its run began running and is due exactly maxDurationMs after that moment, or 1 ms after it if setTimeout cannot wait that long; a timed-out run ran at least that long; contexts and states agree |
| ServiceOutcomes.CreatedByCreate | services/orchestrator/src/services/run-manager.ts:135-169 | over every run of the service: a run exists exactly if one Create made it, and is that principal's for good, with the duration asked for, or the default, or the maximum if that is less |
| ServiceOutcomes.EndsByItsEnd | services/orchestrator/src/services/run-manager.ts:188-392 | over every run of the service: a run has ended exactly if some step ended it, and its record says what that step brought: the agent's messages, the error that was thrown, the reason its own principal gave, or the timeout, and when |
| ServiceOutcomes.TimeGranted | services/orchestrator/src/services/run-manager.ts:137-140 | from request to timer: a RUNNING run may time out exactly when the duration granted to the request that created it has passed since it began running, and one that timed out did so no sooner |
| ServiceTranscript.StepSays | services/orchestrator/src/runtime/run-execution.service.ts:76-381 | what each step tells the event stream, exactly |
| ServiceTranscript.ToldInOrder | services/orchestrator/src/runtime/run-execution.service.ts:76-78 | over every run of the service: what is said about a run begins with run_queued, once, with the number of runs its owner had waiting; then run_started, once, exactly if it began running; everything else comes later, and nothing of its agent before run_started |
| ServiceTheorems.FirstReasonForever | services/orchestrator/src/services/cancellation.ts:85-93 | a cancelled context keeps its first reason over any run of the system |
| ServiceTheorems.TerminalEventsBounded | services/orchestrator/src/runtime/run-execution.service.ts:370-381 | an ended run that did not time out has had one terminal event for the guard it has and one for the guard that was dropped; two exactly if it is CANCELLED, dropped and guarded again; exactly one if it was cancelled while queued |
| ServiceTheorems.RepeatedCancelAnnouncesIff | services/orchestrator/src/runtime/run-execution.service.ts:97-114 | cancelling a CANCELLED run announces it again exactly if its guard has been dropped and not set again |
| ServiceTheorems.WithdrawnStays | services/orchestrator/src/runtime/run-execution.service.ts:122-141 | a run cancelled while queued stays CANCELLED, driven by no loop and with its guard never dropped |
| ServiceClosing.StepClosesIff | services/orchestrator/src/runtime/run-execution.service.ts:232-273 | a step calls closeRun, once, exactly if it leaves the run by the completed path, by the failed path, or aborted after a prompt that came back |
| ServiceClosing.ClosedOnceIff | services/orchestrator/src/runtime/run-execution.service.ts:232-273 | over every run of the system closeRun is called at most once per run, exactly if such a step was taken; only for an ended run whose guard was dropped, and never for one cancelled while queued |
| ServiceSubscriptions.SubscribedIff | services/orchestrator/src/runtime/run-execution.service.ts:204-256 | in every reachable state an agent's events are passed on exactly while its prompt is running or, once that was rejected, for ever after, its run having ended |
| ServiceTheorems.TerminalKindMatchesIff | services/orchestrator/src/runtime/run-execution.service.ts:208-275 | all terminal events of a run name its final state exactly if it was not cancelled under the reason timeout while listened to |
| ServiceTheorems.SpoofedCancel | services/orchestrator/src/runtime/run-execution.service.ts:97-114 | what a cancellation announces: run_timed_out exactly in that case, run_cancelled otherwise |
| ServiceTheorems.TimeoutAnnouncedIff | services/orchestrator/src/runtime/run-execution.service.ts:208-228 | a timeout is announced exactly if the abort listener was installed |
| ServiceTheorems.TerminalsSettled | services/orchestrator/src/runtime/run-execution.service.ts:370-381 | after its end only a repeated cancel of a CANCELLED run sends another terminal event |
| ServiceTheorems.SilentTimeoutForever | services/orchestrator/src/runtime/run-execution.service.ts:256-273 | a timeout not announced then is never announced |
| ServiceTraces.SecondAnnouncementHappens | services/orchestrator/src/runtime/run-execution.service.ts:97-277 | a run of the service in which one run is announced CANCELLED twice |
| ServiceTraces.SpoofedCancelHappens | services/orchestrator/src/runtime/run-execution.service.ts:97-228 | a run of the service in which a CANCELLED run is announced as timed out |
| ServiceTraces.SilentTimeoutHappens | services/orchestrator/src/runtime/run-execution.service.ts:172-228 | a run of the service in which a run times out and nothing is announced |
| ServiceTraces.SilentTimeoutStays | services/orchestrator/src/runtime/run-execution.service.ts:256-273 | nor is it announced in anything that can follow |
| StableSort.SortIsTheStableSort | services/orchestrator/src/sse/buffer.ts:64 | the sort used here is the one stably sorted arrangement, for every consistent comparator |
| SseReplay.ReplaySpec | services/orchestrator/src/sse/buffer.ts:53-65 | getFrom is a sorted permutation of the buffered events from that number on, and one run's share of it is that run's own tail in order |
| SseReplay.TailOfLast | services/orchestrator/src/sse/buffer.ts:38-65 | selecting a tail and keeping the newest events commute |
| SseReplay.EvictIsLastN | services/orchestrator/src/sse/buffer.ts:45-50 | pushing with eviction keeps the newest maxSize events |
| SseSpec.PhasesArePublished | services/orchestrator/src/sse/mapper.ts:70-192 | an agent event takes a number in any case, and is published exactly if it is the start or end of an agent or turn, or the start, update or end of a message or tool execution |
| SseSteps.StepKeeps | services/orchestrator/src/sse/sse.service.ts:44-134 | every call keeps the invariant that ties counters, buffer, registry and transcripts to the unbounded log |
| SseTheorems.BufferRefinesLog | services/orchestrator/src/sse/sse.service.ts:51-95 | each buffer is the last maxSize events since the close, numbers increase within the counter, and the counter is pushed plus dropped plus connections |
| SseTheorems.NothingElseIsLogged | services/orchestrator/src/sse/sse.service.ts:51-95 | a run's log is exactly what was to be published for it since its last close, in order, type and payload |
| SseTheorems.TiesByArrival | services/orchestrator/src/sse/buffer.ts:53-65 | events of different runs with the same number are replayed in the order in which those runs' first buffered events arrived |
| SseTheorems.LosslessReconnectIff | services/orchestrator/src/sse/buffer.ts:38-65 | replay from n gives a run's whole tail exactly if the tail has at most maxSize events, else its newest maxSize |
| SseTheorems.ReconnectRepeatsLast | services/orchestrator/src/sse/sse.controller.ts:95-100 | replay from n is the event numbered n, if still buffered, followed by replay from n + 1 |
| SseTheorems.GaplessIff | services/orchestrator/src/sse/mapper.ts:70-72 | a published log has no gaps exactly if since the close no agent event was dropped and no client connected |
| SseTheorems.ForeignEventsIff | services/orchestrator/src/sse/buffer.ts:53-65 | replay carries another run's event exactly if another run has one buffered from that number on |
| SseTheorems.Handover | services/orchestrator/src/sse/sse.controller.ts:91-107 | a client has been sent exactly the replay, with other runs' events from that number on, stream_connected, and what its run published until it was closed or unregistered, or until now; its run's numbers strictly increase |
| SseTheorems.StaysLiveIff | services/orchestrator/src/sse/stream.ts:49-122 | a registered open client stays so exactly unless its run is closed, it leaves or hangs up, writing to it fails, or a stale cleanup deletes its set |
| SseTheorems.ResponseEndsIff | services/orchestrator/src/sse/stream.ts:49-122 | an open response is ended exactly by leaving, hanging up, the closing of its run while it is registered, or a failed write to it |
| SseTheorems.Frozen | services/orchestrator/src/sse/stream.ts:75-122 | a client that is closed or unregistered is never written to again over any run |
| SseTheorems.NothingAfterClose | services/orchestrator/src/sse/sse.service.ts:91-95 | nothing is written to any client of a run after closeRun |
| SseTheorems.StaleCleanupSilences | services/orchestrator/src/sse/stream.ts:58-72 | a stale cleanup leaves newer clients open and silent for good |
| SseTheorems.CleanupTwiceIsStale | services/orchestrator/src/sse/stream.ts:58-72 | running a cleanup twice around a new connection is such a stale cleanup |
| SseStreams.MemoryEventSequencer.Next | services/orchestrator/src/sse/envelope.ts:42-47 | the run's counter goes up by one and is returned |
| SseStreams.MemoryEventSequencer.Cleanup | services/orchestrator/src/sse/envelope.ts:58-60 | forgets the run's counter |
| SseStreams.BoundedEventBuffer.Push | services/orchestrator/src/sse/buffer.ts:38-51 | appends, and shifts the oldest out when over capacity |
| SseStreams.BoundedEventBuffer.GetFrom | services/orchestrator/src/sse/buffer.ts:53-65 | the nested loops and the sort compute the specified replay |
| SseStreams.BoundedEventBuffer.GetTotalSize | services/orchestrator/src/sse/buffer.ts:81-87 | the loop counts all buffered events |
| SseStreams.BoundedEventBuffer.Clear | services/orchestrator/src/sse/buffer.ts:72-74 | drops one run's buffer |
| SseStreams.MemorySSEStreamController.Register | services/orchestrator/src/sse/stream.ts:49-73 | adds the stream to the run's set, making one if needed, and captures that set |
| SseStreams.MemorySSEStreamController.Broadcast | services/orchestrator/src/sse/stream.ts:75-107 | the two loops write to every reachable stream of the run once and drop and close the others |
| SseStreams.MemorySSEStreamController.CloseRun | services/orchestrator/src/sse/stream.ts:109-122 | the loop closes every stream of the run, then the set is unmapped |
| SseStreams.MemorySSEStreamController.Cleanup | services/orchestrator/src/sse/stream.ts:58-72 | works on the captured set, unmaps the run if that is empty, closes the stream |
| SseService.DefaultEventMapper.Map | services/orchestrator/src/sse/mapper.ts:70-192 | takes a number, then emits a known event type or drops an unknown one; the payload is given |
| SseService.DefaultEventMapper.MapOrchestratorEvent | services/orchestrator/src/sse/mapper.ts:194-214 | takes a number and emits |
| SseService.DefaultEnvelopeFactory.Create | services/orchestrator/src/sse/envelope.ts:72-83 | takes a number and emits |
| SseService.SSEService.Broadcast | services/orchestrator/src/sse/sse.service.ts:51-56 | buffers first, then writes to the clients |
| SseService.SSEService.BroadcastAgentEvent | services/orchestrator/src/sse/sse.service.ts:61-66 | maps, and broadcasts unless the event was dropped |
| SseService.SSEService.BroadcastOrchestratorEvent | services/orchestrator/src/sse/sse.service.ts:71-86 | maps and broadcasts |
| SseService.SSEService.CloseRun | services/orchestrator/src/sse/sse.service.ts:91-95 | closes the streams, clears the buffer, forgets the counter |
| SseService.SSEService.CreateEnvelope | services/orchestrator/src/sse/sse.service.ts:128-134 | takes a number without buffering |
| SseService.SSEService.Connect | services/orchestrator/src/sse/sse.controller.ts:91-107 | registers, writes the replay in a loop, then stream_connected, to a response that takes every write |
| EndToEnd.ClientsTold | services/orchestrator/src/sse/sse.service.ts:51-95 | whatever clients connect, fail and leave, the terminal events a client has of its run are among those the executor announced, none twice |
| EndToEnd.ClientsToldOnce | services/orchestrator/src/runtime/run-execution.service.ts:97-275 | over every run of executor and event stream: a client is told of at most one ending, or two if the run is CANCELLED, its guard was dropped and it was cancelled again; none before the run ended; and of the right kind unless the cancellation posed as a timeout |
| EndToEnd.LiveClientsTold | services/orchestrator/src/runtime/run-execution.service.ts:208-275 | every client that is registered, open and not failing when the end is announced is told of it and stays told; of nothing else if it was announced once |
| PosixPath.NormalizeTwice | services/orchestrator/src/sandbox/security.ts:28 | a normalized path is a fixed point of normalisation |
| PosixPath.LocationNormalized | services/orchestrator/src/sandbox/security.ts:28-37 | normalising does not change where a path leads, from any working directory |
| PathSecurity.LastCheckNeverFires | services/orchestrator/src/sandbox/security.ts:30-41 | the final containment check never fires once the earlier ones pass, for any root |
| PathSecurity.AcceptedStaysBelow | services/orchestrator/src/sandbox/security.ts:13-44 | an accepted path, as given or as returned, leads to the root followed by plain names, and what is returned is normalized |
| PathSecurity.RefusedIff | services/orchestrator/src/sandbox/security.ts:17-33 | for every path: refused exactly if it holds a null byte, is absolute, climbs above its start at some point, or keeps first a name beginning with two dots; with the error of the first of these that applies |
| PathSecurity.DotsNameRefused | services/orchestrator/src/sandbox/security.ts:31-33 | such a name is refused although it leads to a direct child of the root |
| Assembler.GroupSkillsByCategory | services/orchestrator/src/packs/assembler.ts:161-171 | the loop builds, per category and in order of first appearance, exactly that category's skills in order |
| Assembler.BuildSkillsSection | services/orchestrator/src/packs/assembler.ts:111-136 | the loops render every group under its heading: headings are the categories, entries the grouped skills, each below its own heading |
| Assembler.JoinReadsBack | services/orchestrator/src/packs/assembler.ts:135 | the lines of the joined text are the lines of its parts, in order, whatever they hold |
| Assembler.OneSkillSection | services/orchestrator/src/packs/assembler.ts:116-135 | the section for one skill, character by character |
| Assembler.RenderingPermutes | services/orchestrator/src/packs/assembler.ts:111-171 | rendering is a permutation of the skills that keeps each category's own order |
| Assembler.RenderingKeepsOrderIff | services/orchestrator/src/packs/assembler.ts:111-171 | rendering keeps the given order exactly if every category stands together in it |
| Assembler.CategoryOrderingRendersSorted | services/orchestrator/src/packs/assembler.ts:161-185 | under the category ordering the rendered skills are the sorted list itself |
| Assembler.OrderingMeans | services/orchestrator/src/packs/assembler.ts:173-193 | each ordering permutes the skills and puts each where its names, categories or sizes compare; given order is kept |
| Assembler.OrderedAndRendered | services/orchestrator/src/packs/assembler.ts:111-193 | for every ordering the rendered skills are a permutation of the given ones |
| Assembler.SizeOrderingIsLost | services/orchestrator/src/packs/assembler.ts:161-188 | the size ordering does not survive the grouping |

## Left out

- Microtask interleaving inside the manager's other calls, and inside `acquireNextRun` after the lease is taken: StalePeek splits that call at its first await only.
- The `for` loop of `processUserQueue` and the `try`/`catch` of `executeRun` as one suspended body: RunExecutionService has one method per stretch between awaits, and a loop's position is part of its state.
- Metadata mapping, `getUserRuns`, `getLength`, `clear` and the other reading or test-only methods: single-expression members.
- Prompt, pack id and messages as structured data: a run carries neither prompt nor pack, and messages are strings.
- The millisecond figure inside the timeout error text and the texts of thrown errors: fixed strings stand for them.
- ISO timestamps, random ids and tokens: a clock, and freshness as a hypothesis of the step.
- Workspaces, sandbox tools, the pack loader, the model provider and the agent itself: awaited calls that succeed or fail with any outcome at any later step.
- Agent events between the settlement of a prompt that came back and `unsubscribe`: the two happen in one step.
- The lease object that `acquire` returns, which the caller shares with the manager's map: modelled as a value; no caller keeps it.
- Response objects and the Set objects of the stream registry: named by handles, so that a captured set and a later set of the same run stay distinct; a response is its open flag, whether writing to it throws, and what was written.
- A stream whose `close` throws, keep-alive comments and the one-second poll: a cleanup may run at any time, any number of times.
- SseService.SSEService.Connect: a response that has ended, or whose writes throw, before the replay and `stream_connected` are written is not modelled; a new response accepts those writes, and may fail or end at any later step.
- SseService.DefaultEventMapper.Map: the payload fields picked per event type, with their defaults, are a given string.
- Back-pressure from the event stream to the executor: there is none; EndToEnd carries the executor's emissions over the event stream in order, interleaved with any client actions, and only follows terminal events through.
- Envelope timestamps and payload shapes: a payload is a string, and the mapper takes a number and then emits or drops.
- `MemoryEventSequencer.reset` and `createAt`: nothing calls them.
- Liveness of the awaited calls: draining is bounded by a measure and never stuck, but nothing says that an agent settles.
- Locale rules of `localeCompare`: any consistent comparator, and for the category ordering one that tells the categories apart.
- Windows path rules, symbolic links and the file system: paths are compared lexically.
- `sanitizeFilename`, identity parsing, the other prompt sections and the maximum prompt length: string tests with no invariant.
- NestJS, HTTP responses, persistence schemas and the design documents: no behaviour of their own.
