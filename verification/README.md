# DigitalKin SDK: verified models

DigitalKin runs agent modules behind gRPC, streams their output to consumers that may come and go, and
hands structured events to chat front ends. This project models the parts of it that are hardest to
get right and proves what they promise. `dafny verify dfyconfig.toml` checks all of it.

- **The Agno event adapter** turns the interleaved events of many agent runs into one bracketed stream of
  messages, reasoning phases and delegations. `StreamSpec` is its state and steps, `AgnoAdapter` the
  stateful class, `Brackets` the rules a trace must keep, read off the trace alone, and `Lifecycle`,
  `Closings` and `Voices` the results. `Ledger` says from the agent's events alone what the trace tells.
  `AgUi` and `Protocol` carry it on to the AG-UI protocol, `Intake` says when the client's stream keeps its
  rules, and `Reading` and `Speech` what a client reads from it in the end.
- **Dial-back delivery** pushes a durable log to a consumer that is lost and re-dialed. `Delivery` has the
  reader and its resume rule, `DialBack` the protocol over all schedules, `Claims` who may run the
  module while claims may expire, and the re-dial loop.
- **Task admission** (`Admission`) counts slots across creations, time-outs, duplicates, cancellations and
  racing cleanups; every await is a point where others may act.
- **Calling other services**: `Breaker` is a circuit breaker as a function of its history, `Retry` the
  retry loop around it, `Breakers` the bounded map of breakers per target.
- **JSON Schema transformations**: `InlineRefs`, `Pointers` and `Acceptance` (references inlined without
  changing what is accepted), `SetupSchema`, `SetupCompiler`, `SetupAgreement` and `SetupTheorems` (compiling
  a schema to Python types against reading it), `SchemaSplit`, `SchemaUi`, `SchemaEnds`, `SchemaSplitter`,
  `SchemaMerge` and `SchemaPaths` (the JSON and `ui:` halves of a form schema, and when the split ends),
  `ConditionalSchema` (fields shown under a condition), `UnsafeKeys` (keys storage would mangle).

Objects the source updates in place are classes whose methods are proved equal to a step of a
specification state; the results are then proved about that state for every run. Where a promise
holds only under a condition, the condition is a guard a caller can check, the equivalence is proved
in both directions, and a concrete input shows the failure.

Where the code and its documentation differ, the model follows the code. `docs/architecture/admission-queue.md`
says a queued task waits without limit; the code gives up after `queue_slot_timeout`.

## Model

| member | source | states |
|---|---|---|
| Lifecycle.BalancedIffOrderly | src/digitalkin/community/agno/agno_adapter.py:218-992 | For every input sequence, the flushed trace is well bracketed (each id opened once under a fresh id, content only in between and only for its owner, closed once with its opener's delegation and metadata, delegations started and ended once, nothing open when a run ends) if and only if every input was orderly: no reasoning started over an open one, no reasoning delta with none open, no nested run started again or after it had spoken. |
| Lifecycle.StepVerdict | src/digitalkin/community/agno/agno_adapter.py:218-248 | One input from any reachable state: an orderly one keeps the trace bracketed and the three tables equal to what is open in it; any other damages it for good. |
| Lifecycle.RunVerdict | src/digitalkin/community/agno/agno_adapter.py:218-248 | Over whole runs the tables list exactly the sequences open in the trace, as long as the inputs were orderly; after one that was not, no continuation repairs the trace. |
| Closings.RunEndsClosed | src/digitalkin/community/agno/agno_adapter.py:378-445 | Whatever came before, an input that ends the top-level run empties all three tables, and the batch is the closings and then the one terminal event. |
| Closings.CloseEverythingEmits | src/digitalkin/community/agno/agno_adapter.py:809-885 | Closing everything emits exactly one closing per open message, then per open reasoning, then per open delegation, newest first in each group, each with the id, owner and metadata it was opened with. |
| Closings.ForceCloseInnermostFirst | src/digitalkin/community/agno/agno_adapter.py:822-845 | Force-closed delegations end newest first, and no delegation ends before one that it owns. |
| Closings.FlushTwice | src/digitalkin/community/agno/agno_adapter.py:765-780 | A second flush emits nothing and changes nothing. |
| Closings.ReasoningStartedTwice | src/digitalkin/community/agno/agno_adapter.py:449-472 | Two reasoning starts in a row leave the first sequence open for ever. |
| Closings.ReasoningDeltaAlone | src/digitalkin/community/agno/agno_adapter.py:474-492 | A reasoning delta with nothing open names no sequence. |
| Closings.NestedRunStartedTwice | src/digitalkin/community/agno/agno_adapter.py:284-325 | A nested run started twice while in flight opens two delegations under one id. |
| Closings.NestedRunSpeaksFirst | src/digitalkin/community/agno/agno_adapter.py:130-140 | A nested run that speaks before it is announced has its message opened for nobody and closed for its delegation. |
| Ledger.TraceIsBook | src/digitalkin/community/agno/agno_adapter.py:218-992 | For every input sequence, orderly or not, without naming a handler: the starts, completions and failures of runs, the starts, finishes and failures of delegations, the tool calls and every piece of text and reasoning are in the trace exactly as a ledger kept from the agent's events alone writes them, in order, with their contents, attribution and metadata (the ids of messages and reasonings aside); so are the calls closed, the run in progress and what a pause asks for. |
| Voices.NonInterference | src/digitalkin/community/agno/agno_adapter.py:449-992 | For every interleaving of several runs' content, reasoning and tool events, one run's part of the trace (ids erased) is what that run's events give alone, if and only if none of its tool errors was dropped because another run had closed the same call id. |
| Voices.NothingLostAmongRuns | src/digitalkin/community/agno/agno_adapter.py:887-992 | For every interleaving of several runs, whatever becomes of their tool errors: the text deltas one run contributes to the adapter's trace concatenate to that run's text inputs, in order, character for character. |
| Voices.NothingLost | src/digitalkin/community/agno/agno_adapter.py:887-992 | The same of a run alone. |
| Voices.StepMoves | src/digitalkin/community/agno/agno_adapter.py:449-992 | One event changes its own run's phase (quiet, talking or thinking, never two at once) as the run alone would, and no other run's. |
| Voices.SharedCallIdInterferes | src/digitalkin/community/agno/agno_adapter.py:728-763 | Two runs that close one call id: the second run's error is silent. |
| AgnoAdapter.AgnoStreamAdapter.CloseContent | src/digitalkin/community/agno/agno_adapter.py:847-872 | Updates the fields in place and extends the trace exactly as the specification state does: pops the run's open message and emits its end; nothing when none is open. |
| AgnoAdapter.AgnoStreamAdapter.CloseReasoning | src/digitalkin/community/agno/agno_adapter.py:782-807 | Updates the fields in place and extends the trace exactly as the specification state does: pops the run's open reasoning and emits its end; nothing when none is open. |
| AgnoAdapter.AgnoStreamAdapter.CloseAllContent | src/digitalkin/community/agno/agno_adapter.py:874-885 | Updates the fields in place and extends the trace exactly as the specification state does: closes every open message, newest first. |
| AgnoAdapter.AgnoStreamAdapter.CloseAllReasoning | src/digitalkin/community/agno/agno_adapter.py:809-820 | Updates the fields in place and extends the trace exactly as the specification state does: closes every open reasoning, newest first. |
| AgnoAdapter.AgnoStreamAdapter.CloseSubagents | src/digitalkin/community/agno/agno_adapter.py:822-845 | Updates the fields in place and extends the trace exactly as the specification state does: finishes every open delegation, newest first. |
| AgnoAdapter.AgnoStreamAdapter.Flush | src/digitalkin/community/agno/agno_adapter.py:765-780 | Updates the fields in place and extends the trace exactly as the specification state does: closes messages, then reasonings, then delegations. |
| AgnoAdapter.AgnoStreamAdapter.HandleRunStarted | src/digitalkin/community/agno/agno_adapter.py:252-325 | Updates the fields in place and extends the trace exactly as the specification state does: announces a top-level run once, or opens the nested run's delegation. |
| AgnoAdapter.AgnoStreamAdapter.HandleRunCompleted | src/digitalkin/community/agno/agno_adapter.py:327-400 | Updates the fields in place and extends the trace exactly as the specification state does: ends a delegation, or closes everything and completes the run; repeats are ignored. |
| AgnoAdapter.AgnoStreamAdapter.HandleRunError | src/digitalkin/community/agno/agno_adapter.py:402-445 | Updates the fields in place and extends the trace exactly as the specification state does: fails a delegation, or closes everything and fails the run. |
| AgnoAdapter.AgnoStreamAdapter.HandleReasoningStarted | src/digitalkin/community/agno/agno_adapter.py:449-472 | Updates the fields in place and extends the trace exactly as the specification state does: opens a reasoning in the run's slot. |
| AgnoAdapter.AgnoStreamAdapter.HandleReasoningContentDelta | src/digitalkin/community/agno/agno_adapter.py:474-492 | Updates the fields in place and extends the trace exactly as the specification state does: emits the delta for the run's slot, or for no id. |
| AgnoAdapter.AgnoStreamAdapter.HandleReasoningStep | src/digitalkin/community/agno/agno_adapter.py:494-548 | Updates the fields in place and extends the trace exactly as the specification state does: closes content, opens a reasoning if needed and emits the step. |
| AgnoAdapter.AgnoStreamAdapter.ProcessReasoningContent | src/digitalkin/community/agno/agno_adapter.py:911-947 | Updates the fields in place and extends the trace exactly as the specification state does: closes content, opens a reasoning if needed and emits the delta; empty text only closes the open reasoning of the run. |
| AgnoAdapter.AgnoStreamAdapter.ProcessTextContent | src/digitalkin/community/agno/agno_adapter.py:949-992 | Updates the fields in place and extends the trace exactly as the specification state does: closes reasoning, opens a message if needed and emits the delta; empty text only closes the open message of the run. |
| AgnoAdapter.AgnoStreamAdapter.HandleRunContent | src/digitalkin/community/agno/agno_adapter.py:887-909 | Updates the fields in place and extends the trace exactly as the specification state does: reasoning first, then text. |
| AgnoAdapter.AgnoStreamAdapter.HandleToolCallStarted | src/digitalkin/community/agno/agno_adapter.py:598-629 | Updates the fields in place and extends the trace exactly as the specification state does: closes both sequences of the run and announces the call. |
| AgnoAdapter.AgnoStreamAdapter.HandleToolCallCompleted | src/digitalkin/community/agno/agno_adapter.py:631-664 | Updates the fields in place and extends the trace exactly as the specification state does: records the call as closed and emits its result. |
| AgnoAdapter.AgnoStreamAdapter.HandleToolCallError | src/digitalkin/community/agno/agno_adapter.py:728-763 | Updates the fields in place and extends the trace exactly as the specification state does: emits the error unless the call is already closed. |
| AgnoAdapter.AgnoStreamAdapter.HandleRunPaused | src/digitalkin/community/agno/agno_adapter.py:666-726 | Updates the fields in place and extends the trace exactly as the specification state does: closes the run's sequences, records what is asked for and synthesizes the missing tool calls once each. |
| AgnoAdapter.AgnoStreamAdapter.ToDigitalkinEvents | src/digitalkin/community/agno/agno_adapter.py:218-248 | Updates the fields in place and extends the trace exactly as the specification state does: dispatches on the event kind with the run key set. |
| Protocol.ImageFollowsRules | src/digitalkin/mixins/agui_mixin.py:188-507 | A bracketed adapter trace becomes an AG-UI stream that breaks no rule (each reasoning message strictly inside its reasoning, arguments inside their call, authors known, one run id; one run, from its start to its end or its error, with everything else in between; no sequence, delegation or tool call open when it ends) if and only if its tool events are identified, paired and, where they start a call, named, no announced call is open at the run's end, and the trace is one run. |
| Intake.EndToEnd | src/digitalkin/mixins/agui_mixin.py:188-507 | Orderly agent input, flushed and sent on, reaches the client by the rules exactly when the input's own tool calls are in order and it is one run; then no message, reasoning or delegation is open, the calls open are those started and never ended, and nothing at all is open exactly when there are none, as is so once the run is over. |
| Intake.IntakeIsTrace | src/digitalkin/community/agno/agno_adapter.py:218-780 | For every input sequence, orderly or not: a fold over the agent's events alone gives the tool calls open, used and closed, and whether a run has started, ended or been broken, exactly as the adapter's trace shows them; outside its run the adapter has nothing open. |
| Intake.SpeaksOutOfRun | src/digitalkin/community/agno/agno_adapter.py:949-992 | Whatever orderly input came before, text outside the run, before its start or after its end or error, breaks the rules. |
| Intake.TextBeforeStartBreaksRules | src/digitalkin/community/agno/hitl.py:477-482 | Text before any run has started is such an input. |
| Intake.SecondRunBreaksRules | src/digitalkin/community/agno/agno_adapter.py:252-325 | A second top-level run on the same stream, after the first ended or failed, is orderly input and sends a second run start, which the protocol does not accept. |
| Intake.RunEndsOverOpenCall | src/digitalkin/community/agno/agno_adapter.py:378-445 | From any reachable state: the end of the top-level run, or its failure, while an announced tool call is open makes the stream break the rules, because ending a run closes everything but tool calls. |
| Intake.RunLeavesCallOpen | src/digitalkin/community/agno/agno_adapter.py:378-445 | A run start, any named tool call and the run's end, or its error, are orderly input and give such a stream. |
| Reading.ClientReadsTrace | src/digitalkin/mixins/agui_mixin.py:105-507 | For every trace: what a client assembles from the AG-UI stream alone (messages and reasonings with their text, calls with arguments and results, how runs and delegations went, each with its author) is what the trace tells. |
| Reading.TextIsWhole | src/digitalkin/mixins/agui_mixin.py:237-255 | For every id of every trace: the text the client shows under it is the concatenation of the trace's deltas for it, for messages and for reasonings. |
| Speech.ClientReadsRun | src/digitalkin/community/agno/agno_adapter.py:887-992 | For every input sequence and every run, whatever streams beside it: the text the client of the flushed run shows in that run's messages is the text the run was given, character for character. |
| Speech.ClientSeesBook | src/digitalkin/community/agno/agno_adapter.py:218-780 | For every input sequence, flushed and sent on: the announced calls with name and arguments, their ends and results, the news of runs and delegations and the pieces of text with their speakers are what the ledger says; a delegation still open at the end is finished without a result. |
| Speech.FailureIsSeen | src/digitalkin/community/agno/agno_adapter.py:402-445 | Whatever came before, the failure of a run that is not an open delegation ends the client's stream as a failure, with its message (or the default one) and its code. |
| Speech.CompletionIsSeen | src/digitalkin/community/agno/agno_adapter.py:327-400 | Whatever came before, the first completion of a top-level run ends it as finished. |
| Protocol.OneRunId | src/digitalkin/mixins/agui_mixin.py:188-292 | For every trace: once a run id is pinned, every later run-level event carries it, and what was sent is never rewritten. |
| Protocol.UnnamedToolBreaksRules | src/digitalkin/mixins/agui_mixin.py:362-423 | A call started without a name is never announced, so its end has no start. |
| AgUi.AgUiMixin.HandleRunStarted | src/digitalkin/mixins/agui_mixin.py:188-216 | Sends exactly the AG-UI image of the event and updates the pinned ids with it: pins the first thread and run id. |
| AgUi.AgUiMixin.HandleRunCompleted | src/digitalkin/mixins/agui_mixin.py:269-292 | Sends exactly the AG-UI image of the event and updates the pinned ids with it: finishes under the pinned run id. |
| AgUi.AgUiMixin.HandleToolCallStarted | src/digitalkin/mixins/agui_mixin.py:362-392 | Sends exactly the AG-UI image of the event and updates the pinned ids with it: a start, and the arguments when there are any. |
| AgUi.AgUiMixin.HandleToolCallCompleted | src/digitalkin/mixins/agui_mixin.py:394-423 | Sends exactly the AG-UI image of the event and updates the pinned ids with it: an end, and a result when there is one. |
| AgUi.AgUiMixin.HandleReasoningStarted | src/digitalkin/mixins/agui_mixin.py:439-455 | Sends exactly the AG-UI image of the event and updates the pinned ids with it: the outer start, then the inner one. |
| AgUi.AgUiMixin.HandleReasoningCompleted | src/digitalkin/mixins/agui_mixin.py:491-507 | Sends exactly the AG-UI image of the event and updates the pinned ids with it: the inner end, then the outer one. |
| AgUi.AgUiMixin.SendMessage | src/digitalkin/mixins/agui_mixin.py:105-136 | Sends exactly the AG-UI image of the event and updates the pinned ids with it: dispatches every event to its handler. |
| DialBack.InOrderIffNotRewound | src/digitalkin/grpc_servers/gateway_servicer.py:712-1158 | For every schedule of outputs, sends, receipts, lost links and re-dials, before and after the end, and every cursor limit: the log's frames are the module's outputs under labels 1, 2, 3 … up to `stream.end`; and what the consumer has received is those frames from the first on, and at most that end again after them, if and only if it received no frame over a dial that cut its cursor down to the limit. |
| DialBack.ExactlyOnceInOrder | src/digitalkin/grpc_servers/gateway_servicer.py:712-1158 | So whenever each dial finds the outputs seen within the limit, however long the log: labels 1, 2, 3 …, none missing, repeated or relabelled; once the consumer has `stream.end` it has everything, and all that can follow is that same end. |
| DialBack.DialAfterEnd | src/digitalkin/grpc_servers/gateway_servicer.py:938-960 | A link lost right after the consumer got `stream.end` is dialed again; what arrives is the end once more, under the same label, and nothing else. |
| Delivery.ResumeIsExact | src/digitalkin/grpc_servers/gateway_servicer.py:592-650 | For every log: resuming after any number of outputs gives exactly the frames not yet seen, under the same labels, if and only if the stored seqs count the deliverable entries from 0 and the last readable entry is the last of them. |
| Delivery.FaithfulResumes | src/digitalkin/grpc_servers/gateway_servicer.py:613-642 | On such a log, resuming at one given cursor gives the rest of the fresh delivery, `stream.end` included. |
| Delivery.FreshAndResumed | src/digitalkin/core/task_manager/redis/proto_streams.py:72-160 | The reader loop, fresh and resumed, against a direct reading of the log: entries without a usable seq or body are passed over, skipped ones only move the position, the first end marker stops it. |
| Delivery.ResumeMissesFatal | src/digitalkin/grpc_servers/gateway_servicer.py:294-342 | A fatal entry has no seq: delivered first time, it is missed by every consumer that resumes after an output, and the end it gets is labelled 2. |
| Delivery.ProtoStreamReader.Next | src/digitalkin/core/task_manager/redis/proto_streams.py:72-160 | The next struct, end or wait, and the position after it. |
| Delivery.ConsumeFromRedis | src/digitalkin/grpc_servers/gateway_servicer.py:592-650 | The frames sent, for any cursor, read off the log alone: a resumed call gets the items past its cursor under their own seqs; a late client that has seen something gets what stands from the saved position on (from the start when none was saved) under the labels that follow its own, which is exactly the rest if and only if as many items stand before that position as it has seen; any other call gets everything afresh. |
| Delivery.SavedPositionIsExact | src/digitalkin/grpc_servers/gateway_servicer.py:613-642 | A late client that has seen c frames and is read to from a saved position before the end gets exactly the rest, under the right labels, if and only if c deliverable entries stand before that position. |
| Delivery.SavedPastEnd | src/digitalkin/core/task_manager/redis/proto_streams.py:59-66 | Read to from any position past an end marker, it gets only what was logged after that, under the labels that follow its own; at the end of the log nothing at all, not even the end. |
| Delivery.ProtoStreamReader.RestoreCursor | src/digitalkin/core/task_manager/redis/proto_streams.py:59-66 | The position saved, or the start when none was. |
| DialBack.OutputSink.OnOutput | src/digitalkin/core/task_manager/module_runner.py:127-164 | Outputs are numbered one after another; `stream.end` writes the end marker and no number. |
| DialBack.SendIsNext | src/digitalkin/grpc_servers/gateway_servicer.py:931-995 | What a link sends next is the frame at the number of frames received and in flight, on first and resumed dials alike. |
| DialBack.LimitRewinds | src/digitalkin/grpc_servers/gateway_servicer.py:1045-1050 | With a limit of 0, an output, a lost link and a second dial bring that output again: the consumer has it twice, out of order. |
| DialBack.CursorPastLimitRepeats | src/digitalkin/grpc_servers/gateway_servicer.py:794-1158 | A cursor cut down to the limit makes the frames in between arrive again. |
| Claims.RunsBounded | src/digitalkin/core/task_manager/redis/redis_idempotency.py:36-71 | Over all interleavings of concurrent calls, replicas, lost claim replies, failed registrations and seeds, undos, disconnects, re-dials and claims that expire: the module runs at most once more than the claim has expired. |
| Claims.AtMostOneRun | src/digitalkin/grpc_servers/gateway_servicer.py:219-283 | So while no claim has expired the module runs at most once per task id, and at most one call ever dials. |
| Claims.LapsedClaimRunsTwice | src/digitalkin/core/task_manager/redis/redis_idempotency.py:36-71 | After any schedule that leaves the claim free: a call that is accepted and dials, an expiry, and a call on another replica, and the module runs a second time while the first dial goes on. |
| Claims.DialedForever | src/digitalkin/grpc_servers/gateway_servicer.py:219-283 | Once a call has dialed, no path gives the claim back: it is free only if it expired. |
| Claims.DialConsumer | src/digitalkin/grpc_servers/gateway_servicer.py:743-792 | The loop counts one re-dial per pass that lost a spawned, live stream that is not empty before the deadline, spelled out for each pass, and stops at the first that did not. |
| Claims.RedialsBounded | src/digitalkin/grpc_servers/gateway_servicer.py:763-781 | With every backoff at least `least`, re-dial number i + 1 happens only if i backoffs fit in the window: at most the window over the backoff, rounded up. |
| Admission.Conservation | src/digitalkin/core/task_manager/base_task_manager.py:71-235 | After every interleaving: free slots plus active ones are the maximum; gate permits, waiting and active calls add up to maximum plus queue; and the active counter is the calls admitted, registered, being cleaned or leaked, less the slots given back unheld. |
| Admission.ReleasedOnce | src/digitalkin/core/task_manager/base_task_manager.py:71-111 | However many cleanups race, a registration's slot is given back exactly once, and until then it is in exactly one of the session table and the cleanups under way. |
| Admission.SlotsComeBack | src/digitalkin/core/task_manager/base_task_manager.py:71-111 | When nothing is queued, admitted, registered or being cleaned, exactly the leaked slots are missing: all are free if and only if leaks and surplus releases are equally many. |
| Admission.CleanRuns | src/digitalkin/core/task_manager/local_task_manager.py:31-100 | Without a cancellation between admission and registration and without config-setup sessions, nothing leaks and nothing is given back twice. |
| Admission.NeverOverAdmits | src/digitalkin/core/task_manager/base_task_manager.py:148-224 | Slots held never exceed the maximum by more than the surplus releases. |
| Admission.CancelledCreationLeaks | src/digitalkin/core/task_manager/local_task_manager.py:51-100 | A creation cancelled between admission and registration keeps its slot for ever. |
| Admission.SetupCleanupAddsSlot | src/digitalkin/core/job_manager/single_job_manager.py:144-168 | In any state, cleaning up one config-setup session, which was never admitted, adds a slot. |
| Admission.SetupCleanupOverAdmits | src/digitalkin/core/job_manager/single_job_manager.py:144-168 | So two calls are admitted where the maximum is one. |
| Admission.AfterKeeps | src/digitalkin/core/task_manager/base_task_manager.py:71-235 | The books, the partition of registrations and the uniqueness of names hold in every reachable state. |
| Admission.TaskManager.AcquireGate | src/digitalkin/core/task_manager/base_task_manager.py:184-195 | The counters, semaphores and table after the step: a permit and a place in the queue, or a refusal that changes nothing. |
| Admission.TaskManager.AcquireSlot | src/digitalkin/core/task_manager/base_task_manager.py:203-217 | The counters, semaphores and table after the step: a slot, or a timeout that gives the gate permit back when queued. |
| Admission.TaskManager.Abandon | src/digitalkin/core/task_manager/base_task_manager.py:210-215 | The counters, semaphores and table after the step: any other end of the wait gives the gate permit back. |
| Admission.TaskManager.Undo | src/digitalkin/core/task_manager/base_task_manager.py:226-235 | The counters, semaphores and table after the step: one admission is given back. |
| Admission.TaskManager.Register | src/digitalkin/core/task_manager/base_task_manager.py:113-132 | The counters, semaphores and table after the step: the session is registered, or a duplicate id undoes this call's own admission and leaves the live session alone. |
| Admission.TaskManager.PopSession | src/digitalkin/core/task_manager/base_task_manager.py:84-89 | The counters, semaphores and table after the step: at most one cleanup gets the session. |
| Breaker.SeenIsHistory | src/digitalkin/grpc_servers/utils/circuit_breaker.py:86-157 | What callers see is a function of the history: closed exactly while fewer than `fail_max` failures follow the last success or reset; otherwise half-open from `reset_timeout` after the last failure on, and a call is admitted exactly when closed or timed out with no probe out. |
| Breaker.StateIsHistory | src/digitalkin/grpc_servers/utils/circuit_breaker.py:86-157 | Every field is determined by the history; a held probe lock implies half-open. |
| Breaker.OneProbe | src/digitalkin/grpc_servers/utils/circuit_breaker.py:95-110 | While tripped, of the calls that ask with no outcome, release or reset between them, only one goes out. |
| Breaker.CircuitBreaker.CurrentState | src/digitalkin/grpc_servers/utils/circuit_breaker.py:86-93 | Keeps the fields equal to what the history so far says: an open circuit past the timeout turns half-open. |
| Breaker.CircuitBreaker.CheckCall | src/digitalkin/grpc_servers/utils/circuit_breaker.py:95-110 | Keeps the fields equal to what the history so far says: admits exactly when the specification does, and takes the probe lock. |
| Breaker.CircuitBreaker.RecordSuccess | src/digitalkin/grpc_servers/utils/circuit_breaker.py:112-118 | Keeps the fields equal to what the history so far says: closes. |
| Breaker.CircuitBreaker.RecordFailure | src/digitalkin/grpc_servers/utils/circuit_breaker.py:120-135 | Keeps the fields equal to what the history so far says: counts, and opens. |
| Breaker.CircuitBreaker.ReleaseProbe | src/digitalkin/grpc_servers/utils/circuit_breaker.py:137-151 | Keeps the fields equal to what the history so far says: frees a held probe lock and says so. |
| Breaker.CircuitBreaker.ForceReset | src/digitalkin/grpc_servers/utils/circuit_breaker.py:153-157 | Keeps the fields equal to what the history so far says: closes. |
| Retry.ExecQuery | src/digitalkin/grpc_servers/utils/grpc_client_wrapper.py:258-336 | For every script of outcomes: the deciding round is the first that is not UNAVAILABLE, INTERNAL or DEADLINE_EXCEEDED, at latest the last; the caller is answered exactly by a reply, rejected exactly by an error, with its own code and `retried` for those three codes, and interrupted exactly by a cancellation; the number of calls, the total sleep, the breaker's one outcome, and a free probe lock on every exit of an admitted call. |
| Retry.DecisiveIsFirst | src/digitalkin/grpc_servers/utils/grpc_client_wrapper.py:280-309 | The round that decides is the first that is not a retryable error, at latest the last one. |
| Retry.AttemptsBound | src/digitalkin/grpc_servers/utils/grpc_client_wrapper.py:274-320 | At most `max_retries` + 1 calls, and exactly that many whenever the caller is told of a retryable error. |
| Retry.SleptInAll | src/digitalkin/grpc_servers/utils/grpc_client_wrapper.py:276-282 | The first n backoffs add up to base × (2^n − 1). |
| Retry.OneOutcome | src/digitalkin/grpc_servers/utils/grpc_client_wrapper.py:299-312 | Exactly one outcome is recorded for a call that ended in a response or an error, none for one that was interrupted; it is a failure exactly for the circuit-failure codes. |
| Retry.ApplicationErrorsClose | src/digitalkin/grpc_servers/utils/grpc_client_wrapper.py:53-59 | A reply or an application error leaves the circuit closed with a clean count, whatever came before. |
| Retry.Settle | src/digitalkin/grpc_servers/utils/grpc_client_wrapper.py:284-312 | One round: answered exactly by a reply, rejected exactly by an error, with its code, interrupted otherwise; what the breaker is told, a failure for the five circuit-failure codes and a success for a reply or any other error; its probe lock is free afterwards. |
| Breakers.KeepsMostRecent | src/digitalkin/grpc_servers/m2m_call_registry.py:68-87 | After any accesses the map is, in order, the 256 distinct targets used most recently. |
| Breakers.KeepsBreaker | src/digitalkin/grpc_servers/m2m_call_registry.py:74-77 | While fewer than 256 other targets are used, a target keeps the breaker it got. |
| Breakers.OwnBreakers | src/digitalkin/grpc_servers/m2m_call_registry.py:78-84 | No two targets ever share a breaker. |
| Breakers.M2MCallRegistry.BreakerFor | src/digitalkin/grpc_servers/m2m_call_registry.py:68-87 | Returns the target's entry of the map after the access, reordering, inserting and evicting in place. |
| UnsafeKeys.RejectUnsafeKeys | src/digitalkin/utils/setup_content_validator.py:97-114 | The worklist ends for every value and refuses exactly when some object key, at any depth of objects and arrays, holds a control or non-BMP character; the path it names leads to such a key. |
| UnsafeKeys.VisitMembers | src/digitalkin/utils/setup_content_validator.py:100-111 | One object: refused at its first unsafe key, or all its values pushed in order. |
| InlineRefs.InlinesIffAcyclic | src/digitalkin/utils/llm_ready_schema.py:52-64 | Given enough depth, all definitions inline if and only if no reference leads back to itself. |
| InlineRefs.AcyclicEnds | src/digitalkin/utils/llm_ready_schema.py:52-64 | With ranked definitions the walk ends within the rank, whatever the schema. |
| InlineRefs.InlinedIsSettled | src/digitalkin/utils/llm_ready_schema.py:52-64 | No `#/$defs/` reference is left at any depth of the result. |
| InlineRefs.SettledIsKept | src/digitalkin/utils/llm_ready_schema.py:52-64 | A value without local references is left unchanged, so inlining twice is inlining once. |
| InlineRefs.DeeperIsSame | src/digitalkin/utils/llm_ready_schema.py:52-64 | More depth never changes a result. |
| Acceptance.InlineAccepts | src/digitalkin/utils/llm_ready_schema.py:39-64 | The inlined schema, read with no definitions at all, accepts exactly what the schema accepted with its own, for any meaning of the keywords that hold no schema. |
| Acceptance.InliningKeeps | src/digitalkin/utils/llm_ready_schema.py:52-64 | The same at every subschema, for any instance and any surrounding definitions. |
| Acceptance.ReferenceDecides | src/digitalkin/utils/llm_ready_schema.py:52-58 | For any local reference and any siblings, an instance is treated alike exactly when the definition that is taken accepts it just as what the JSON Pointer points to and the siblings together do. |
| Acceptance.SiblingsDecide | src/digitalkin/utils/llm_ready_schema.py:54-58 | So with keywords beside a `#/$defs/<name>` reference, which the code drops, an instance is treated alike exactly when the target's acceptance implies the siblings'. |
| Acceptance.NestedPointerLoosens | src/digitalkin/utils/llm_ready_schema.py:54-58 | A reference into a definition is taken for the definition its last segment names: a schema that accepts nothing becomes one that accepts everything. |
| Pointers.DirectNames | src/digitalkin/utils/llm_ready_schema.py:54-56 | For `#/$defs/<name>` without a slash, tilde or percent sign in the name, the last segment is what the pointer points to. |
| Acceptance.SiblingsAreDropped | src/digitalkin/utils/llm_ready_schema.py:54-58 | A schema that accepts nothing becomes one that accepts everything. |
| SchemaSplitter.SplitStrips | src/digitalkin/utils/schema_splitter.py:10-29 | The JSON half of a split is the stripped schema, and holds no `ui:` key where stripping looks, exactly for schemas whose property and item subschemas keep none under `allOf`, `if`, `then`, `else` or `$defs`. |
| SchemaMerge.SplitMergesInOrder | src/digitalkin/utils/schema_splitter.py:10-158 | For every schema that is split, under every name: the `ui` half holds the last assignment in the order of the schema, through properties, items, alternatives, `allOf`, conditionals and references. |
| SchemaPaths.SplitKeepsPlaces | src/digitalkin/utils/schema_splitter.py:10-29 | On every path through properties and items under which nothing is merged from `allOf` or a condition, references included: the `ui` half holds the `ui:` key a reader of the schema expects there, the subschema's own over that of the definition it refers to (a part that shows anything hides all the definition has for that part), and no other. |
| SchemaPaths.SplitLosesNothing | src/digitalkin/utils/schema_splitter.py:10-29 | A schema without references, and with no `ui:` key where stripping does not look, loses nothing on such a path: every `ui:` key is found in the `ui` half under the path it had, no other is, and the JSON half is the stripped schema. |
| SchemaPaths.UiIsExpected | src/digitalkin/utils/schema_splitter.py:161-220 | The same for the `ui` half of one property, for every path. |
| SchemaPaths.KeysGive | src/digitalkin/utils/schema_splitter.py:183-219 | Of all of a property's keys, exactly one decides what its `ui` half holds under a given name. |
| SchemaSplit.JsonHalfIsStrippedIff | src/digitalkin/utils/schema_splitter.py:82-220 | The same, on the two walkers' results for every member list. |
| SchemaSplit.PropertyIsStrippedIff | src/digitalkin/utils/schema_splitter.py:161-220 | The same for one property or item subschema. |
| SchemaSplit.StripKeepsIff | src/digitalkin/utils/schema_splitter.py:223-276 | Stripping is idempotent and changes a schema exactly when it holds a `ui:` key at a walked position. |
| SchemaSplit.StripLeavesNoUi | src/digitalkin/utils/schema_splitter.py:223-276 | No `ui:` key is left at any walked position. |
| SchemaSplit.StripKeepsRest | src/digitalkin/utils/schema_splitter.py:223-276 | Stripping takes away `ui:` keys and nothing else: the same subschemas are reached on every path through properties, definitions, items, conditions and lists of schemas, and each holds what it held under every key that holds no schemas itself. |
| SchemaEnds.ExtractsIffAcyclic | src/digitalkin/utils/schema_splitter.py:32-79 | When every walked reference names an object definition: the `ui` of all definitions is extracted, given enough depth, if and only if no definition leads back to itself through properties, items, alternatives, `allOf`, conditionals or references. |
| SchemaEnds.SplitsIffAcyclic | src/digitalkin/utils/schema_splitter.py:10-29 | The whole split ends, given enough depth, if and only if no definition leads back to itself. |
| SchemaEnds.CycleNeverEnds | src/digitalkin/utils/schema_splitter.py:75-79 | Definitions that lead back to themselves, through any number of others, exhaust every depth. |
| SchemaUi.ExtractionEnds | src/digitalkin/utils/schema_splitter.py:32-79 | With acyclic definitions, extraction never exceeds the depth of the ranks it starts from. |
| SchemaUi.SelfReferenceNeverEnds | src/digitalkin/utils/schema_splitter.py:75-79 | A definition that refers to itself exhausts every depth. |
| SchemaUi.UiKeysLand | src/digitalkin/utils/schema_splitter.py:161-220 | A property's own `ui:` keys end in its half with their values, over those of the definition it refers to, and no other `ui:` key does. |
| SchemaSplitter.SplitSchema | src/digitalkin/utils/schema_splitter.py:10-29 | The two halves, or the error met, from the definitions' extracted `ui` and one walk of the schema. |
| SchemaSplitter.ProcessObject | src/digitalkin/utils/schema_splitter.py:82-158 | Both halves of the schema, key by key. |
| SchemaSplitter.ProcessProperty | src/digitalkin/utils/schema_splitter.py:161-220 | Both halves of a property: what its reference brings, then its own keys over it. |
| SchemaSplitter.StripUiProperties | src/digitalkin/utils/schema_splitter.py:223-276 | The stripped copy, key by key. |
| SchemaSplitter.ExtractUiProperties | src/digitalkin/utils/schema_splitter.py:32-79 | What extraction adds to a target, merging `allOf` and conditionals into it and mirroring alternatives. |
| SetupTheorems.ValidateAgrees | src/digitalkin/utils/setup_content_validator.py:116-138 | With acyclic references, content passes `validate` exactly when every keyword of the schema allows it. |
| SetupTheorems.ValidateLoosens | src/digitalkin/utils/setup_content_validator.py:116-138 | With any references, as long as every definition on a cycle is typed as an object, content that conforms is never refused. |
| SetupTheorems.CompileAgrees | src/digitalkin/utils/setup_content_validator.py:164-236 | For every schema in the fragment and every value: compiling and accepting is reading the schema keyword by keyword. |
| SetupTheorems.CutCompileAgrees | src/digitalkin/utils/setup_content_validator.py:206-212 | For every schema in the fragment, cyclic references or not: the compiled type accepts exactly what the schema allows when each reference to a definition that is being followed already allows any object. |
| SetupTheorems.ValidateCutAgrees | src/digitalkin/utils/setup_content_validator.py:116-138 | Content passes `validate` exactly when it conforms to that reading, whatever the references. |
| SetupTheorems.CuttingLoosens | src/digitalkin/utils/setup_content_validator.py:206-212 | A value that the schema, unrolled to any depth, accepts is accepted by the compiled type even where cycles were cut. |
| SetupTheorems.CutAdmitsObjects | src/digitalkin/utils/setup_content_validator.py:209-210 | Where a cycle is cut, every object is let through and nothing else. |
| SetupTheorems.RequiredAreThere | src/digitalkin/utils/setup_content_validator.py:149-162 | Content that passes has every name that the schema lists under `required`. |
| SetupTheorems.OnlyDeclaredPass | src/digitalkin/utils/setup_content_validator.py:149-162 | Content that passes has no member outside `properties`, unless `additionalProperties` is true. |
| SetupTheorems.ValuesConform | src/digitalkin/utils/setup_content_validator.py:149-162 | In content that passes, each member's value is one that its property's own schema allows. |
| SetupTheorems.UndeclaredPasses | src/digitalkin/utils/setup_content_validator.py:141-148 | A schema, of any shape, that declares no properties lets everything through. |
| SetupTheorems.TypeDecides | src/digitalkin/utils/setup_content_validator.py:226-258 | For each of the seven type names, exactly which values the compiled type of `{type: name}` lets through. |
| SetupTheorems.Agree | src/digitalkin/utils/setup_content_validator.py:141-292 | The induction over schema shapes, references and cuts behind the four above. |
| SetupTheorems.ModelAgrees | src/digitalkin/utils/setup_content_validator.py:141-162 | A compiled model accepts an object exactly when its properties, required names and closedness do. |
| SetupAgreement.LiteralAgrees | src/digitalkin/utils/setup_content_validator.py:260-276 | A compiled literal is the enumeration. |
| SetupAgreement.AnyAgrees | src/digitalkin/utils/setup_content_validator.py:216-224 | `anyOf`, as compiled: the one non-null branch, or null when a branch says so. |
| SetupAgreement.OneAgrees | src/digitalkin/utils/setup_content_validator.py:216-224 | `oneOf`, as compiled, is exactly one branch, when the other branch is null and cannot overlap. |
| SetupCompiler.BuildModel | src/digitalkin/utils/setup_content_validator.py:149-162 | The model of a schema's properties: one field per identifier name, closed unless it opts out, none without usable properties. |
| SetupCompiler.Validate | src/digitalkin/utils/setup_content_validator.py:116-138 | Content is accepted when there is no model or the model accepts it. |
| ConditionalSchema.AcceptsIsSeparate | src/digitalkin/utils/conditional_schema.py:149-197 | For every instance and any meaning of the field schemas: the whole rewritten schema, closed or open, accepts it exactly when reading each field by its own condition does; closed, it also refuses every conditional field. |
| ConditionalSchema.ClosedRefusesShown | src/digitalkin/utils/conditional_schema.py:149-197 | So under a top-level `additionalProperties: false` an instance with a conditional field is refused even when the field is shown. |
| ConditionalSchema.VisibleIsSeparate | src/digitalkin/utils/conditional_schema.py:149-197 | For every instance, the rewritten schema offers exactly the fields whose own condition holds and the plain ones. |
| ConditionalSchema.DemandedIsSeparate | src/digitalkin/utils/conditional_schema.py:149-197 | And it requires exactly those that are required when shown, and the plain fields that always were. |
| ConditionalSchema.GroupsAreFaithful | src/digitalkin/utils/conditional_schema.py:81-111 | Grouping by trigger and value loses no conditional field, repeats none and adds none. |
| ConditionalSchema.InOneGroup | src/digitalkin/utils/conditional_schema.py:103-109 | A conditional field stands in the group of its own trigger and value, with its own flag, and in no other. |
| ConditionalSchema.TestIsShown | src/digitalkin/utils/conditional_schema.py:114-126 | The `if` clause holds of an instance exactly when the field's declared condition does, one-element lists included. |
| ConditionalSchema.CollectConditions | src/digitalkin/utils/conditional_schema.py:81-111 | The groups in order of first appearance, and the names to remove. |
| ConditionalSchema.RewriteSchema | src/digitalkin/utils/conditional_schema.py:164-197 | Existing clauses kept, one clause per group appended, moved fields taken out of properties and required. |

## Left out

- Agno adapter: timestamps, and the display name of a tool, are not modelled; `uuid4` is a counter that never repeats; a reasoning step announces no metadata of its own.
- AG-UI: the sending callback's failures.
- Closings.FlushTwice: stated for states that satisfy `Base`, which `Lifecycle.RunVerdict` gives for every reachable one.
- Delivery: log trimming by `maxlen`, a Redis error during a read (which the source reports as an error and an end, both labelled 0), stream expiry and idle time-outs; Redis is an append-only log, and who saves a cursor and when is a parameter.
- DialBack.ExactlyOnceInOrder: the consumer answers a re-dial with the label of the last frame it received, and outputs come from the output callback; `Delivery.ResumeMissesFatal` shows what a fatal entry does.
- Claims.AtMostOneRun: how long a claim lives is not modelled; it may lapse at any moment, and `Claims.RunsBounded` counts the lapses.
- Claims.RedialsBounded: the least backoff is the smaller of the base and the maximum, and the clock advances by at least the time slept.
- Admission: the remote task manager does the same admission and undo as the local one; asyncio semaphores are counters that never go below zero.
- Retry.ExecQuery: one caller at a time; with several callers on one half-open breaker, one call's release can free another's probe. Backoffs and times are real numbers.
- Breaker.SeenIsHistory: the clock starts at 0 and never goes back.
- M2M call registry: its call entries and slots are not modelled.
- Acceptance.InlineAccepts: the keywords of JSON Schema Core 2020-12 that hold schemas, except `unevaluatedItems`, `unevaluatedProperties`, `contentSchema` and the dynamic references; references are `#/$defs/<name>` with no slash, tilde or percent sign in the name and stand alone, no property is called `$ref`, and no data inside other keywords holds a reference, which the walk would rewrite too.
- Pointers.DirectNames: percent-encoding in a reference is not decoded.
- InlineRefs: the interpreter's stack limit is a depth parameter; the order of keys that the schema generator sorts is not modelled.
- SchemaSplitter.SplitSchema: a `$defs` that is 0, 0.0 or `false` counts as empty, where the source fails if it comes to look a reference up in it; targets are values handed along, and since no walker changes a value it did not create, aliasing between them cannot be seen within one split.
- SchemaEnds.ExtractsIffAcyclic: a reference to a definition that is not an object is an error of the source, and is excluded here.
- SchemaPaths.SplitKeepsPlaces: for schemas with distinct keys, references that are strings, and no property named `items`, `oneOf`, `anyOf` or like a `ui:` key, whose place in the `ui` half those take; `SchemaMerge.SplitMergesInOrder` says what wins there and where `allOf` or a condition is merged in.
- SetupTheorems.CompileAgrees: the fragment has references `#/$defs/<name>` with no slash, tilde or percent sign in the name, property names that are ASCII identifiers without a leading underscore or `model_` (pydantic refuses the first and reserves the second), one non-null branch per union, one non-null type name, enumerations of strings, integers, booleans and null, required names that are declared, boolean or absent `additionalProperties` beside properties, and no value constraints such as `minimum` or `pattern`; an integer is an integer token, so `2.0` is not one.
- SetupCompiler.BuildModel: a name that pydantic itself refuses as a field, such as one with a leading underscore, becomes a field here.
- SetupCompiler.Validate: error messages and `_constraints`.
- ConditionalSchema.RewriteSchema: resolving a field's own reference is a parameter; the handler's schema is the input.
- Not modelled at all, because they would only add plumbing or easy members: gRPC, Redis, pydantic and asyncio internals, settings, logging, timers, TLS, server start and stop, the tool cache, the bulkhead, channel reference counts, the HITL runner, file history, examples and the monitoring demo.
