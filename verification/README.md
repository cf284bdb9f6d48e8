# Verified model of the durable run platform

The platform executes agent runs that must survive crashes, restarts, overlapping workers and operator actions. Its
correctness rests on small protocols built from guarded database updates and in-process semaphores. This project models
those protocols in Dafny and proves what every run of them keeps.

Concurrency is modelled as state machines. Each database call, and each stretch of a coroutine between two awaits, is one
event; `Step` is total, an event that does not fit changes nothing, and so every sequence of events is a run. Any number of
workers interleave; a worker that crashes is one whose events stop. Histories (logs of what was dispatched, begun, written,
committed, granted) are part of the state, so that safety is stated over whole runs. Beside what never happens stands what does:
when a request is taken, what an undisturbed call achieves and what it leaves recorded. Guarded table updates, registries,
limiters and the artifact encoder are imperative: classes whose methods are proved against specification functions.

| file | component |
|---|---|
| `StageRows`, `StageProtocol`, `StageInvariant`, `StageSafety`, `StageReplay`, `StageDispatch`, `StageLateStart`, `StageCompletion` | stage table; `run_stage` and side-effecting tool calls over it |
| `Scheduler`, `SchedulerBounds` | admission: semaphores, ancestor walk, re-entrant lanes |
| `RunRows`, `RunLease`, `RunLeaseRuns` | run table; executors under leases, takeover, cancellation, reclaiming |
| `Submission` | idempotent submission under two unique keys |
| `CancelTree` | recursive cancellation |
| `PiTurns`, `PiRuns` | the Pi attempt: record loop, handlers, exit path |
| `Callbacks` | callback settlement by stale copies of the run |
| `Versions`, `AgentRegistries`, `SkillRegistries`, `ConfigWatcher` | registries and reloading |
| `TokenBuckets`, `SlidingWindow` | rate limits |
| `Artifact` | the hashed byte stream of a skill artifact |

## Findings

Properties that turned out not to hold of the code as one would first state them. Each has a witness and the condition
that decides it, in lemmas or contracts.

- A workflow that runs a stage of its own under the key of a tool operation gives up at-most-once dispatch. `run_stage`
  refuses rows of tool operations, whose stage index is negative (framework/runtime/stage_runner.py:268-272), but a tool
  operation accepts any row of its key (framework/tool/tools.py:435-450), and a stage may record a null output, which is then
  not taken for a cached answer (framework/tool/tools.py:263). A tool key that no stage uses is safe without exception
  (`AtMostOneDispatch`, `AtMostOneDispatchUnlessStage`); where a success is on record, a further dispatch is possible if and
  only if that output is null, and then it is a stage's (`DispatchAfterSuccessIffNull`, `CollidingStageDispatchesTwice`).
- A stage operation can start after its stage is SUCCEEDED, in the window between `begin_attempt` and the operation. For every
  call in that window, and without any further attempt being begun, it can happen if and only if another token has taken the
  stage over and the call that drew it has succeeded or still can (`LateStartIff`; `LateStartIffSuperseded` while that call
  has yet to start or is at work; a run in which it happens is `SupersededOperationCanStartAfterSuccess`). The late result
  is never accepted.
- `reclaim_expired_leases` and `cancel` do not compare attempts, so an attempt started between their read and their write is
  lost from the count. Of all events exactly these stale writes upset the balance (`BalanceIsKeptIffUpToDate`,
  `ReclaimCanLoseAnAttempt`), and counting what they lose restores it (`AttemptsAreConserved`).
- Registering an enabled default version orphans a tag, leaving it without a route although a candidate remains, if and only
  if the tag was routed to that version, is no longer listed, and another version lists it (`OrphanedByRegisterIff`,
  `RetaggingOrphans`). No other operation does: not disabling or deregistering (`RerouteNeverOrphans`), not registering a
  disabled or non-default version (`RefreshNeverOrphans`), not choosing a default (`SetDefaultNeverOrphans`).
- A tag that moves from one agent to another in the stored table can make every reload raise, because upserts are applied in
  table order and only removals come first (`TagMoveIsRefused`). Unless a version is disabled in place, a reload raises if and
  only if what is left after the removals is contested: a new or changed row wants a tag that an earlier new or changed row of
  another name wants, or that is routed to another name whose own row does not come earlier with a change (`ReloadAgents`,
  `ClashIffContested`).

## Model

| member | source | states |
|---|---|---|
| StageRows.StageRepository.GetOrCreate | infra/store/repository/stage.py:18-31 | an existing row is returned untouched, a missing one is created as given |
| StageRows.StageRepository.Begin | infra/store/repository/stage.py:54-99 | granted exactly from RUNNING, or from PENDING or FAILED while attempts are left; charges one attempt unless RUNNING, installs the token, fences off every other token, keeps output and checkpoint, touches no other row |
| StageRows.StageRepository.BeginOnce | infra/store/repository/stage.py:193-219 | granted exactly on a PENDING row without attempts, and never again on that row while it stays begun; fences off every other token |
| StageRows.StageRepository.UpdateActive | infra/store/repository/stage.py:295-326 | goes through exactly for the token of the row in an accepting status; keeps token, attempts and identity, changes the output only by a success, after which no write is accepted from anyone |
| StageRows.StageRepository.MarkDispatched | infra/store/repository/stage.py:221-244 | exactly the RUNNING rows of run, key and token are marked, no other row changes, and a marked row accepts nothing but the return mark of the same token |
| StageRows.StageRepository.MarkReturned | infra/store/repository/stage.py:246-268 | exactly the OUTCOME_UNKNOWN rows of run, key and token are marked, no other row changes, and the token may then record any success |
| StageRows.StageRepository.ResetFailedForRun | infra/store/repository/stage.py:270-288 | exactly the FAILED rows of the run are reset and counted, and none is left FAILED |
| StageSafety.RunKeepsInv | framework/runtime/stage_runner.py:54-231 | every event of every worker, crash and operator retry keeps the stage invariant: tokens owned once, attempts charged, answers stored, dispatches recorded |
| StageDispatch.RunKeepsToolInv | framework/tool/tools.py:501-566 | every event keeps stage calls and tool calls on their own paths, tool responses non-null, and recorded outputs of tool rows non-null |
| StageDispatch.AtMostOneDispatch | framework/tool/tools.py:250-264 | over every run, the external operation of a key whose row was created for a tool is called at most once |
| StageDispatch.AtMostOneDispatchUnlessStage | framework/tool/tools.py:419-468 | in particular for every key that no stage of the workflow uses |
| StageDispatch.LaterCallIsAnswered | framework/tool/tools.py:419-468 | once dispatched, a later call returns the stored output, which is not null, if and only if the row is SUCCEEDED, and raises if and only if it is not; it never dispatches |
| StageCompletion.OpenToolIff | framework/tool/tools.py:433-455 | a tool operation is answered exactly by a recorded output that is not null, raises exactly on RUNNING or OUTCOME_UNKNOWN, and goes on otherwise |
| StageCompletion.ClaimIff | framework/tool/tools.py:456-468 | the operation is claimed exactly on a PENDING row without attempts, and otherwise the call raises |
| StageCompletion.ToolOperationCompletes | framework/tool/tools.py:419-499 | undisturbed, an operation nobody has tried is claimed, recorded as dispatched, called exactly once, and its response recorded and returned |
| StageDispatch.DispatchAfterSuccessIffNull | framework/tool/tools.py:263-264 | after a recorded success some continuation dispatches if and only if the recorded output is null, and then the row is that of a stage |
| StageDispatch.CollidingStageDispatchesTwice | framework/tool/tools.py:435-450 | for every key, a run in which a stage of that key records null and the tool operation is called twice |
| StageReplay.AnswersAgree | framework/runtime/stage_runner.py:73-231 | any two normal returns for one (run, key) are equal, equal the stored output of the SUCCEEDED row, and were asked with the same identity |
| StageReplay.CompletedPassesAgree | framework/runtime/stage_runner.py:73-231 | replay transparency: all completed passes of a deterministic workflow, over all crashes, restarts and overlaps, obtained the same outputs |
| StageCompletion.CompletedPassIsReplayed | framework/runtime/stage_runner.py:73-98 | once a pass has completed, new calls that open the stages of the workflow in order are given the same outputs; no row changes, no attempt begins and no operation starts |
| StageCompletion.FinishedStageIsReplayed | framework/runtime/stage_runner.py:90-98 | in every reachable state a call that opens a SUCCEEDED stage of its identity returns the stored output |
| StageCompletion.OpenStageIff | framework/runtime/stage_runner.py:73-106 | a call that opens is answered exactly by a success of its identity, raises exactly on another identity, CANCELED or OUTCOME_UNKNOWN, and goes on otherwise; a missing row is created PENDING with at least one attempt |
| StageCompletion.BeginIff | framework/runtime/stage_runner.py:107-116 | the attempt is granted exactly on a RUNNING stage, or a PENDING or FAILED one with attempts left, and otherwise the call raises |
| StageCompletion.CheckpointIsSaved | framework/runtime/stage_runner.py:233-255 | a checkpoint is stored exactly while the stage is RUNNING under the token of the operation |
| StageCompletion.EndingIsRecorded | framework/runtime/stage_runner.py:140-231 | a result, a cancellation, an unknown outcome and a failure are recorded as SUCCEEDED with the output, CANCELED, OUTCOME_UNKNOWN and FAILED with the exception, and only a result is returned; under another token nothing is written and nothing returned |
| StageCompletion.RefusedRaises | framework/runtime/stage_runner.py:140-231 | a call whose success was refused raises, through OUTCOME_UNKNOWN if that is stored |
| StageCompletion.StageCompletes | framework/runtime/stage_runner.py:107-231 | undisturbed, a granted call runs its operation and returns what it produced, which the row then holds |
| StageCompletion.RetryResets | orchestration/manager.py:119-146 | a retry makes exactly the FAILED stages of the run new again |
| StageReplay.FinishedRowsAreFrozen | infra/store/repository/stage.py:54-191 | a SUCCEEDED row with its output, and a CANCELED row, never change again |
| StageReplay.UnknownIsLeftOnlyAfterReturn | infra/store/repository/stage.py:246-268 | OUTCOME_UNKNOWN is left only to SUCCEEDED, by the call that owns the token, after that token recorded the return |
| StageReplay.OnlyTheOwnerWrites | infra/store/repository/stage.py:295-326 | a row that changes under an unchanged token was changed by the one call that drew this token |
| StageReplay.WritesBelongToLatestToken | infra/store/repository/stage.py:101-191 | every committed output, failure, checkpoint or mark was written by the most recently begun token |
| StageReplay.AttemptsAreCharged | infra/store/repository/stage.py:54-99 | the attempts field equals the charged begins since the last reset, re-entries of a RUNNING stage being free, and stays within max_attempts |
| StageReplay.NoOperationAfterSuccess | framework/runtime/stage_runner.py:83-140 | no attempt begins on a SUCCEEDED stage, and an operation still to start there belongs to a superseded token |
| StageLateStart.LateStartIff | framework/runtime/stage_runner.py:100-140 | for every reachable state and every call that has begun and not started: with no further begin it can come to start on a SUCCEEDED stage if and only if another token holds the row and the call that drew it has succeeded or still can |
| StageLateStart.LateStartIffSuperseded | framework/runtime/stage_runner.py:100-140 | while the row is RUNNING and its owner has yet to start or is at work, that is so if and only if the row does not carry the call's own token |
| StageLateStart.LateStartHappens | framework/runtime/stage_runner.py:100-140 | such a call does start its operation after the success |
| StageReplay.SupersededOperationCanStartAfterSuccess | framework/runtime/stage_runner.py:83-140 | a concrete run in which a superseded operation starts after the stage succeeded |
| Scheduler.AncestorWalk | orchestration/scheduler.py:111-128 | the loop terminates on decreasing depth, stops at the first parent that is no active holder, and finds, for every agent and tag, the nearest active ancestor, and exactly the ancestors' callers |
| Scheduler.RunKeepsInv | orchestration/scheduler.py:97-191 | arrivals, acquisitions, abandoned waits and exits conserve every semaphore's permits and keep the nesting structured |
| SchedulerBounds.BoundedReentrancy | orchestration/scheduler.py:72-74 | runs of one agent never exceed its max_concurrency times (max_nested_depth + 1) |
| SchedulerBounds.BoundedRouteReentrancy | orchestration/scheduler.py:76-79 | runs of one route tag never exceed its configured limit, or 10 000, times (max_nested_depth + 1) |
| SchedulerBounds.BoundedCaller | orchestration/scheduler.py:81-84 | active runs of one caller without an active ancestor of that caller never exceed its configured limit, or 10 000, and all its active runs never exceed that times (1 + max_active_children_per_root) |
| SchedulerBounds.PermitIsGrantedIff | orchestration/scheduler.py:130-155 | a waiting run gets the permit it wants if and only if fewer runs hold one than the configured limit |
| SchedulerBounds.AgentLimitIsDeclared | orchestration/scheduler.py:72-74 | the limit of an agent's semaphore is one that a run of the agent declared |
| SchedulerBounds.ArrivalIff | orchestration/scheduler.py:103-107 | a run is let in if and only if its depth is within max_nested_depth |
| SchedulerBounds.LeaveFrees | orchestration/scheduler.py:186-191 | a run without children that leaves holds no permit any more, and all others keep theirs |
| SchedulerBounds.BoundedTotal | orchestration/scheduler.py:130-135 | active runs never exceed global_max_concurrency times (1 + max_active_children_per_root) |
| SchedulerBounds.AncestorsAreTransitive | orchestration/scheduler.py:115-124 | the walk meets exactly the parent and the parent's ancestors |
| SchedulerBounds.NoSelfBlocking | orchestration/scheduler.py:126-155 | no run waits for an agent, route, caller or lane permit that one of its active ancestors holds |
| SchedulerBounds.LoneChainIsAdmitted | orchestration/scheduler.py:130-165 | with only its ancestors present, a run that has arrived is active after exactly as many acquisitions as its plan has permits if and only if its depth fits the root's pool |
| RunLease.UpdateOwned | orchestration/run_executor.py:319-330 | the conditional update is the step `Owned` of the state machine: it writes only while worker and status are as expected, never to a row of another worker or of nobody, and to no other run |
| RunRows.RunRepository.ClaimReady | infra/store/repository/run.py:146-199 | claims only due queued rows or expired executing ones that are neither excluded nor locked, up to the limit, all of them below it and the first by priority, due time and creation above it; a takeover gives back one attempt; no other row changes |
| RunLease.RunKeepsInv | orchestration/run_executor.py:91-299 | every claim, expiry, takeover, cancel, reclaim, executor step and renewal, the last as a read and a later write of the lease alone, keeps the lease invariant |
| RunLease.CommitOnce | orchestration/run_executor.py:134-146 | at most one result is committed over every interleaving; a success status means exactly that one is stored, without an error |
| RunLeaseRuns.CommitsWereProduced | orchestration/run_executor.py:132-146 | what a run commits is the output that the agent, or the error handler, of the committing worker produced before |
| RunLeaseRuns.ResultIsCommitted | orchestration/run_executor.py:132-146 | the result of an undisturbed owner is committed as it is: AGENT_SUCCEEDED with that output and no error |
| RunLeaseRuns.RecoveryIsCommitted | orchestration/run_executor.py:365-388 | an error handler's result replaces the failure: SUCCEEDED with that output and no error |
| RunLeaseRuns.AttemptStarts | orchestration/run_executor.py:101-117 | a claimed run with attempts left starts the next one, as RUNNING the first time and RETRYING later |
| RunLeaseRuns.LoopHeadStops | orchestration/run_executor.py:105-117 | at the head of the loop the execution closes exactly without attempts left, and is given up exactly if the run is canceled |
| RunLeaseRuns.FailureIff | orchestration/run_executor.py:155-249 | an attempt fails as FAILED or TIMEOUT, as RETRYING only while attempts are left, and in no other way |
| RunLeaseRuns.FailureIsWritten | orchestration/run_executor.py:250-267 | a failure is recorded with its status and error, and ends the loop exactly for the three errors that are not retryable |
| RunLeaseRuns.FailureIsClosed | orchestration/run_executor.py:268-271 | a final failure is written as it is |
| RunLeaseRuns.ExecutionEnds | orchestration/run_executor.py:301-317 | a success settles as SUCCEEDED or WAITING_CALLBACK, a failure keeps its status, and worker and lease are released |
| RunLeaseRuns.AbortIsWritten | orchestration/manager.py:405-420 | an exception that escapes is recorded as FAILED with an internal error |
| RunLeaseRuns.TouchIsWritten | framework/tool/tools.py:156-166 | a tool call marks the run WAITING_TOOL and the attempt goes on |
| RunLeaseRuns.ClaimIff | infra/store/repository/run.py:146-199 | a run is claimed exactly if it is queued and due or its lease has run out; a takeover gives back an attempt |
| RunLeaseRuns.LeaseProtects | infra/store/repository/run.py:201-222 | the owner extends its lease, and until it has run out the run is neither claimed nor reclaimed |
| RunLeaseRuns.CancelIff | orchestration/manager.py:148-165 | an undisturbed cancel goes through exactly on a run that is not finished |
| RunLeaseRuns.ExpiredIsReclaimed | orchestration/manager.py:281-314 | an expired run goes back to the queue with its attempt given back |
| RunLease.CommittedOutputIsFinal | orchestration/run_executor.py:319-330 | once committed, neither the output nor the list of commits ever changes |
| RunLease.CanceledForever | orchestration/manager.py:148-165 | CANCELED is never left and nothing about a canceled row changes but the lease, which a late renewal may still write |
| RunLease.AttemptsAreConserved | infra/store/repository/run.py:185-198 | over every run, stored attempts, refunds and what stale writes lost make up the attempts started, and stored attempts stay within the maximum; nothing is lost while no cancel or reclaim writes a stale count |
| RunLease.BalanceIsKeptIffUpToDate | orchestration/manager.py:281-314 | of all events, exactly a cancel or reclaim that writes back an outdated attempt count upsets the balance |
| RunLease.ReclaimCanLoseAnAttempt | orchestration/manager.py:281-314 | a concrete run in which an attempt is lost from the count |
| Submission.RunKeepsInv | orchestration/run_service.py:29-131 | submitters' steps only add rows, keep both unique keys, and keep what each submitter has learnt |
| Submission.ReturnersAgree | orchestration/run_service.py:29-131 | all submissions of one (caller, route_tag, request_id) that return, return the same stored run, and at most one sees is_new |
| Submission.NeverRaises | orchestration/run_service.py:104-113 | the re-raise after a second conflict is unreachable |
| Submission.TablesStayUnique | infra/store/model/ai_conversation.py:31 | one run per key, one conversation per (caller, external id), every run in an existing conversation |
| Submission.NewRunBelongs | orchestration/conversation_service.py:20-46 | a new run is in the conversation asked for by id, or in that of the caller's external id |
| Submission.StoredConversationIsUsed | orchestration/conversation_service.py:31-34 | a submission that asks for a stored conversation by id puts its new run into that one |
| Submission.OtherwiseByExternalId | orchestration/conversation_service.py:35-46 | otherwise the run is in the conversation of the caller and the external id, or the request id if none is given |
| Submission.NewRequestCreates | orchestration/run_service.py:89-131 | undisturbed, a new request creates its run, and a conversation exactly where none is stored |
| Submission.DuplicateIsAnswered | orchestration/run_service.py:31-44 | a stored request is answered with its run and nothing is written |
| Submission.SubmissionIsWaitFree | orchestration/run_service.py:89-113 | whatever others do, a submission moves at most nine times, and until it returns its next database call moves it |
| CancelTree.RunManager.Cancel | orchestration/manager.py:148-184 | terminates on every child map, cyclic ones too; cancels and signals exactly the runs reached through live runs, leaves all others unchanged, swallows unknown children |
| CancelTree.CancelIsFinal | orchestration/manager.py:148-184 | afterwards nothing live is reached from the run or from any run it reached |
| CancelTree.CancelMeans | orchestration/manager.py:148-184 | an unfinished run loses worker and lease and is CANCELED, as is every unfinished child of a run that was; finished runs are left alone |
| PiTurns.RunKeepsInv | framework/runtime/adapters/pi_agent.py:126-274 | every order of handler stretches, cancellations and failures keeps the turn, tool, slot and handler bookkeeping consistent |
| PiTurns.TurnOrder | framework/runtime/adapters/pi_agent.py:126-215 | turns are exactly 1..n with n within max_turns, only the last may be open, tools run only for a last turn that ended in toolUse while no model call is open |
| PiTurns.ToolBudgets | framework/runtime/adapters/pi_agent.py:130-183 | each (turn, call id) is taken on once, within max_tool_calls, for a turn that ended in toolUse; parallel calls and pending handlers stay within their limits |
| PiTurns.FinishedTurnsAreFrozen | framework/runtime/adapters/pi_agent.py:216-274 | a finished turn is never reopened or rewritten, and no tool call is forgotten |
| PiTurns.ExitCloses | framework/runtime/adapters/pi_agent.py:344-362 | on every exit no call is left started, no handler pending, no tool running and every slot is free |
| PiTurns.AcceptedResult | framework/runtime/adapters/pi_agent.py:294-301 | an accepted result has every turn closed, the last ended with "stop", the right count, no failed handler and every request answered |
| PiRuns.AcceptedIff | framework/runtime/adapters/pi_agent.py:294-301 | after cleanup an attempt is accepted if and only if a result was returned and not refused, every turn is closed, the count matches and the last turn succeeded with "stop"; otherwise exactly the calls of open turns are marked failed |
| PiRuns.StopIsAccepted | framework/runtime/adapters/pi_agent.py:216-301 | from every reachable idle state with an open last turn, ending it with "stop" and returning the right count is accepted |
| PiRuns.ModelEndIff | framework/runtime/adapters/pi_agent.py:216-274 | the end of a model call is taken exactly for an open started turn and one of the five reasons; the turn succeeded exactly for "stop" and "toolUse" |
| PiRuns.TurnOpensIff | framework/runtime/adapters/pi_agent.py:184-215 | a turn is opened exactly if it is the next, within budget, with no turn open and no tool running |
| PiRuns.NextTurnOpens | framework/runtime/adapters/pi_agent.py:184-215 | in an idle reachable state within budget the next turn does open |
| PiRuns.ToolCallIff | framework/runtime/adapters/pi_agent.py:130-150 | a tool call is taken exactly for the last turn, closed and ended in "toolUse", with a known tool, a new id and budget left |
| PiRuns.ToolIsServed | framework/runtime/adapters/pi_agent.py:151-183 | such a call is made in a free slot, answered, and frees the slot |
| PiRuns.TroubleLeaves | framework/runtime/adapters/pi_agent.py:184-274 | what a handler that raises leaves behind, by where it raises |
| PiRuns.RequestIsTakenIff | framework/runtime/pi/transport.py:148-155 | a request is handled exactly if its id is the next and fewer than 128 are pending |
| PiRuns.ResultIsTakenIff | framework/runtime/pi/transport.py:135-142 | a result is taken exactly if no handler is pending and its count is not negative |
| Callbacks.PrepareKeepsOutcomeIff | orchestration/callback_service.py:101-155 | preparing keeps settled status and reported event exactly when no renamed success carries an error |
| Callbacks.SettleKeepsOutcomeIff | orchestration/callback_service.py:88-99 | skipping or delivering keeps the outcome exactly when AGENT_SUCCEEDED carries no error |
| Callbacks.OutcomeIsKept | orchestration/callback_service.py:82-265 | over every interleaving of prepare, skip, deliver, exhaust and resend with stale copies, the outcome is unchanged and everything posted reports it |
| Callbacks.PostedSaysWhatHappened | orchestration/callback_service.py:351-362 | everything posted says succeeded if and only if the execution succeeded, failed if and only if it failed or timed out, and carries its output |
| Callbacks.CallbackIsPrepared | orchestration/callback_service.py:101-155 | a callback that is asked for is recorded and a success waits for it; one that is not is skipped and a success settles; a failure keeps its status |
| Callbacks.DeliverySettles | orchestration/callback_service.py:200-213 | delivery settles a success, and a failure that an older release left waiting, by its error |
| Callbacks.ExhaustionIsRecorded | orchestration/callback_service.py:260-265 | giving up changes nothing but the status of the callback |
| Callbacks.WrittenIff | orchestration/callback_service.py:88-99 | a copy is written back exactly if the stored status, and for a preparation or release the worker, is still its own, and a cancellation only if the run is not finished |
| Callbacks.LeasedOutcomeIsKept | orchestration/run_executor.py:136-146 | composed with the lease protocol: whatever the execution was, callback steps do not change its outcome |
| Callbacks.OutcomeOrCanceled | orchestration/callback_service.py:338-359 | with cancellations about, the outcome is the original one or CANCELED, with the same output |
| Callbacks.CanceledIsFinal | orchestration/callback_service.py:200-213 | no stale copy brings a canceled run back |
| AgentRegistries.AgentRegistry.LatestEnabledForTag | framework/registry.py:169-173 | the newest registered, enabled agent listing the tag, or nothing exactly when there is none |
| AgentRegistries.AgentRegistry.Register | framework/registry.py:46-69 | refused, without any change, exactly when a tag is routed to another name; otherwise the spec is stored and the routes are those of the other versions plus the new ones, or refreshed; the invariant is kept |
| AgentRegistries.AgentRegistry.Disable | framework/registry.py:71-86 | exactly the matching versions are disabled; their tags follow the latest remaining candidate, no other route changes; the invariant is kept |
| AgentRegistries.AgentRegistry.Deregister | framework/registry.py:88-106 | the same for removal |
| AgentRegistries.AgentRegistry.SetDefault | framework/registry.py:108-118 | picks the version `get` would and succeeds exactly if that is enabled and none of its tags is routed to another name, and then routes them all; otherwise no route changes |
| AgentRegistries.AgentRegistry.Get | framework/registry.py:139-146 | the best match: enabled before disabled, then newest |
| AgentRegistries.AgentRegistry.Resolve | framework/registry.py:120-137 | whatever is resolved is registered, enabled and lists the tag; a version is missed only if no candidate has it |
| AgentRegistries.OrphanedByRegisterIff | framework/registry.py:55-69 | a default registration leaves a routed tag without a route although a candidate remains if and only if the tag was routed to the replaced version, is not listed any more, and another version lists it |
| AgentRegistries.RetaggingOrphans | framework/registry.py:46-69 | a registry built by three registrations in which that has happened |
| AgentRegistries.RerouteNeverOrphans | framework/registry.py:71-106 | disabling and deregistering never leave a routed tag without a route while a candidate remains |
| AgentRegistries.RefreshNeverOrphans | framework/registry.py:60-66 | nor does registering a disabled version or one that is not to be the default |
| AgentRegistries.SetDefaultNeverOrphans | framework/registry.py:108-118 | nor does choosing a default |
| AgentRegistries.UnroutedAfterRerouteIff | framework/registry.py:78-103 | after disabling or deregistering a routed tag is left unrouted if and only if its version went and no candidate remains |
| SkillRegistries.SkillRegistry.Register | framework/registry.py:244-255 | stores the version and moves the default as make_default says; a name keeps a default exactly while some version is enabled, and it is enabled |
| SkillRegistries.SkillRegistry.SelectDefault | framework/registry.py:319-324 | the default becomes the newest enabled version if there is one; no other name changes |
| SkillRegistries.SkillRegistry.Disable | framework/registry.py:280-293 | exactly the matching versions are disabled, and the default falls back only if it was among them |
| SkillRegistries.SkillRegistry.Deregister | framework/registry.py:295-307 | the same for removal |
| SkillRegistries.SkillRegistry.Get | framework/registry.py:257-268 | returns only enabled versions, and without a version returns one exactly when the name has one |
| ConfigWatcher.ReloadAgents | orchestration/config_watcher.py:60-81 | a reload that does not raise makes the registry equal the table and counts exactly the differences, so a second one counts zero and moves no route; unless a version is disabled in place it raises if and only if what the removals leave is contested; it never raises if each tag belongs to one name among the stored rows and the rows they replace |
| ConfigWatcher.ClashIffContested | orchestration/config_watcher.py:74-80 | some row meets a tag routed to another name when its turn comes if and only if the tables are contested, read off the registry, its routes and the table alone |
| ConfigWatcher.ReloadSkills | orchestration/config_watcher.py:104-123 | a verified table is taken over exactly, with the exact count; a failed verification changes nothing; a second reload counts zero |
| ConfigWatcher.TagMoveIsRefused | orchestration/config_watcher.py:60-81 | a table in which each tag belongs to one name, on which the reload raises every time, because a row it replaces still holds a tag that moved |
| TokenBuckets.GrantedIffWithinEveryAllowance | infra/rate_limiter.py:21-32 | a call is granted if and only if, from every earlier start, what was granted since and the amount stay within capacity plus rate times elapsed |
| TokenBuckets.AnyBlockIsBounded | infra/rate_limiter.py:21-32 | any block of calls is granted at most capacity plus fill_rate times elapsed |
| TokenBuckets.RefillSplits | infra/rate_limiter.py:21-25 | splitting a refill changes nothing |
| TokenBuckets.TokenBucket.Consume | infra/rate_limiter.py:27-32 | the method decides by that rule and keeps the bucket equal to the one its history defines |
| TokenBuckets.TokenBucket.Available | infra/rate_limiter.py:34-37 | what is shown is the least of all allowances, and reading counts as a call for nothing |
| SlidingWindow.QpsLimiter.TryAcquire | framework/tool/resilience.py:33-46 | after each turn the window is the grants of the last second; a grant is made exactly when fewer than qps of them exist; otherwise the sleep lasts until the oldest expires |
| SlidingWindow.SecondIsBounded | framework/tool/resilience.py:33-47 | any half-open second holds at most the ceiling of qps grants |
| SlidingWindow.WaitIsExact | framework/tool/resilience.py:45-47 | at a steady rate and with no other grant, a later turn is granted if and only if the sleep is over |
| Artifact.HashedStream | framework/skill/loader.py:332-341 | the loop produces the stream of the files in name order, decodable to the file map, and fails exactly when a length does not fit its field |
| Artifact.StreamRoundTrip | framework/skill/loader.py:332-341 | the stream decodes to the file map |
| Artifact.LessIsLexicographic | framework/skill/loader.py:335 | the order of the files is the lexicographic order of their names |
| Artifact.StreamsAgreeIffFilesAgree | framework/skill/loader.py:332-341 | two streams are equal if and only if the file maps are |
| Artifact.InspectArtifact | framework/skill/loader.py:43-80 | the list is refused exactly for duplicate paths or lengths that do not fit; otherwise the hashed bytes decode to its files |
| Artifact.OrderIsIrrelevant | domain/skill_spec.py:100-105 | every reordering of an artifact list is accepted or refused alike and hashed from the same bytes |
| Artifact.SameHashInputIffSameFiles | framework/skill/loader.py:328-341 | two accepted artifacts are hashed from the same bytes if and only if they hold the same files |

## Left out

- Clocks, timestamps, log events, metrics, hooks, error messages and `current_step`: no protocol decision depends on them; lease times and limiter times are parameters.
- Store calls that raise: a worker may stop at any point instead, except in the Pi handlers, where they are modelled.
- Stage rows: exception classes named like one of the two side-effect markers, and `delete_for_run`, which would erase the at-most-once record.
- `run_stage`: the local checks of `_seen` and `_next_index`, hooks, and the cancellation polls, which only raise earlier.
- Tool gateway: guardrails, breakers, fallback outputs and retries of tools that are not side-effecting.
- Scheduler: general deadlock freedom, which the code does not promise; `reconfigure`; the distributed slots; the `running_by_*` counters; nesting that is not structured; negative limits.
- RunLease: operator `retry`, `recover_incomplete`, starts without a worker id and nested runs, which the commit-once guarantee does not cover; the ten-fold retry of a cancel is any number of read and write events.
- Submission: routing, input validation and skill snapshots, which decide the stored status but not the two keys; deletions, of which the repository has none.
- CancelTree.RunManager.Cancel: states the effect without interference, so the retry loop around the conditional update succeeds at once; concurrent cancels are in `RunLease` and `Callbacks`; Python's recursion limit is not modelled.
- PiTurns: the text of records, byte limits, subprocess handling and output validation, which appear only as "may raise here"; semaphore fairness.
- Callbacks: delivery records other than their payloads, backoff, signing and acknowledgement parsing; overlapping dispatchers may each set the delivery status.
- AgentRegistries: specs are values, so a caller that mutates a spec after registering it is not covered; iteration order and version comparison are arbitrary, the latter a ranking of version strings.
- AgentRegistries.AgentRegistry.Disable: an unknown agent, for which the source raises, is the empty result; the same holds of the other registry methods that raise for unknown names.
- ConfigWatcher.ReloadAgents: where a version is disabled in place, its tags fall back to a latest version, and between versions of equal rank the source takes the first it meets; whether a reload raises then depends on that choice, so only the two one-way clauses are stated.
- ConfigWatcher: `_reload_tools`, the same loop over a map without routes or defaults, and platform settings.
- TokenBuckets, SlidingWindow: floating-point rounding; the per-caller dictionary and the circuit breaker.
- Artifact: SHA-256 itself, base64, UTF-8, which is taken to preserve the order of names, and the checks of `inspect_artifact` that do not concern the hash.
- HTTP routes, CLI, dashboard, migrations, SQL generation, outbound URL policy, redaction and file payloads: presentation or record handling with mostly easy properties.
