# Verification of the durable agent session engine

This project models, in Dafny 4.11, how coding-agent-neo turns model replies into a durable log, how it
comes back from that log, and how the log reaches a browser; and it proves what those parts promise each
other.

- `Transcript` and `Grouping` hold the facts of a session and the two ways in which messages are split
  into indivisible interactions.
- `Replay` rebuilds context and budget from a log and states the discipline under which logs are written.
- `Runtime`, `Model`, `Context`, `Executor` and `Loop` are the running engine: classes with the program's
  own fields and branches; `Turn` holds what a turn plans and writes, as values. Model replies, tool
  outcomes, policy and approval answers, the clock, the cancelling thread and the store are arbitrary at
  every call. `Live` and `Agreement` relate a running loop to its log; `Assembly` builds loops and follows
  them over whole lifetimes.
- `SessionStore` is the log as bytes: line reading, appending with failures after any byte, truncating,
  reopening.
- `Pump` and `Control` are the concurrent parts, modelled by critical sections that interleave freely.
- `Sse`, `Reducer`, `Preview` and `Paging` are the way to the browser and its state.

## Main results

1. **Live context and log agree.** In every run of turns, compactions (stored, failed, degraded, forced)
   and resumes, replaying the log restores the live context whenever no declared call is pending
   (`Agreement.LiveReplayAgreement`, `Assembly.ReplayAgrees`). The exact exception is an interaction that
   an earlier resume dropped and that newer ones follow past the cutoff: then the next resume refuses the
   log. Every crash inside an interaction leads there once the session goes on, until a compaction is stored
   (`Agreement.CrashThenContinue`). With registered tool names only, a restart sends the very same request
   (`Assembly.SameRequestAfterRestart`).
2. **A crash at any byte** leaves a file that is read as exactly the records whose bytes survived and restores
   exactly their complete interactions (`SessionStore.CrashAtAnyByte`); acknowledged records survive any number
   of crashes and restarts (`SessionStore.StoreLifetimes`). The bytes refine the records that the running
   engine counts on (`SessionStore.AppendRecord`, `SessionStore.HeldIsRead`).
3. **Every declared call is answered exactly once**, in declaration order and with its own correlation,
   whenever a loop rests (`Assembly.EveryCallClosedOnce`, stated for every turn in `Loop.AgentLoop.RunTurn`).
   This is about the records that the loop itself has written, and holds for every log it may have started
   from, also one that a crash left inside an interaction, and whatever the store refused. A turn leaves
   the loop at rest unless the store refused a record. Over the whole log it holds if it held before
   (`Assembly.Lifetime`). **No tool runs before its decision is stored**
   (`Assembly.ToolsRunBehindTheirDecision`), even when the store fails.
4. **Turns end properly, work is bounded and coverage only grows** (`Loop.AgentLoop.RunTurn`,
   `Assembly.WorkIsBounded`, `Assembly.CoverageNeverShrinks`).
5. **Delivery** is in order and without duplicates in every interleaving, through printing, chunking and
   parsing, up to the browser's state (`Pump.FanOut`, `Sse.RoundTrip`, `Reducer.ClientRefines`), and
   **approval is fail-closed** (`Control.RequestApproval`).

## Where the code does less than it seems to promise

Each of these is a lemma or a clause, with the condition under which it happens.

- An interaction dropped by a resume (src/coding_agent_neo/assembly.py:258-260) makes a later resume fail as
  soon as something follows it and it is still past the cutoff (`Agreement.LiveReplayAgreement`; inputs:
  `Agreement.CrashThenContinue`).
- Groups that a failed compaction omitted are summarised later, but not across a restart: the resumed
  loop never loads them, and its next summary covers them without reading them, exactly if the log leaves
  the degraded cutoff past the covered one (`Agreement.SummaryReadsAll`, `Agreement.ResumeHides`; an input:
  `Agreement.OmittedGroupIsLost`).
- The last budget snapshot overrides the counts, so a crash inside a turn forgets the steps since the
  last turn end (`Agreement.SnapshotWins`).
- The two groupings differ on repeated identifiers (`Grouping.LenientAcceptsRepeats`); no log of the loop
  contains any (`Turn.RecordsWellDeclared`).
- If the store refuses the turn end of a limit that was raised during request preparation
  (src/coding_agent_neo/agent_loop.py:1042-1045), `run_turn` raises and the loop stays in its turn
  (last clause of `Loop.AgentLoop.RunTurn`).
- The comment at src/coding_agent_neo/agent_loop.py:587-591 says that a zero protocol error budget is not
  exhausted by zero errors; the tool loop compares with `>=` alone and ends the turn
  (`Loop.AgentLoop.RunTools`). The model follows the code.
- Closing the pump can put the terminal marker before an event that was already read, exactly while that
  event is being delivered (`Pump.CompleteUnlessOvertaken`; a run: `Pump.OvertakingIsPossible`).
- A chunk boundary inside CR LF changes what the browser parser yields (`Sse.SplitPairMatters`), exactly
  where data has been collected (`Sse.SplitPairExactly`); the server never prints a carriage return
  (`Sse.EncodedPlain`).
- A connection that breaks inside a character makes the browser yield a message whose data is no prefix of
  the event's (`Sse.CutInsideCharacter`).

## Assumptions

- Payloads are stored as they are: no truncation preview and no redaction on the way into the log.
- Tool content is compared as a value, not as text; names of unregistered tools are read back as
  `invalid_tool_name` (module `Live` makes the replacement explicit).
- Provider identifiers are never equal to internal correlations, and neither the empty name nor the
  placeholder for hidden names is a registered tool.
- The record encoding is any one that can be undone, has no raw line break (section 7 of RFC 8259) and no
  strict prefix that decodes (`SessionStore.Lawful`; `SessionStore.LawfulCodec` shows such an encoding).
- The chunks that the browser parses are text decoded by the streaming decoder (section 7.2 of the WHATWG
  Encoding standard): whole characters, and one replacement character at the end of a body that stops inside
  a character (`Sse.Received`).
- Token estimates are additive natural numbers. Exceptions are raised only by the model, the policy, the
  approval port, the tools, the environment and the store.

## Model

| member | source | states |
|---|---|---|
| `Grouping.SequenceBounds` | src/coding_agent_neo/context.py:169-176 | The start and end sequence of a group are attained by one of its messages and bound all of them. |
| `Grouping.GroupMessages` | src/coding_agent_neo/context.py:244-295 | The index loops over the stored messages compute the recursive strict grouping, with the same error at the same place. |
| `Grouping.CollectResults` | src/coding_agent_neo/context.py:268-292 | The inner loop takes exactly the results that answer the declaration, or refuses the first that does not belong to it or repeats one. |
| `Grouping.GroupedExactly` | src/coding_agent_neo/context.py:244-295 | Strict grouping returns `gs` if and only if the messages are the concatenation of `gs` and every group is complete: a lone message, or a declaration with exactly one result for each of its distinct calls. |
| `Grouping.CompleteMessageGroups` | src/coding_agent_neo/assembly.py:208-263 | The resume-side loops compute the recursive lenient grouping. |
| `Grouping.LenientAgrees` | src/coding_agent_neo/assembly.py:208-263 | Resume groups every list the live builder accepts in the same way. |
| `Grouping.LenientAcceptsRepeats` | src/coding_agent_neo/assembly.py:217-225 | A declaration that repeats an identifier is refused by the live builder and accepted by resume: a concrete list on which the two differ. |
| `Grouping.PartialDropped` | src/coding_agent_neo/assembly.py:258-260 | A trailing declaration with missing results is dropped, and everything before it is kept. |
| `Grouping.PartialInside` | src/coding_agent_neo/assembly.py:258-261 | A declaration with missing results that is followed by anything else makes the whole resume fail. |
| `Grouping.CompletedYields` | src/coding_agent_neo/assembly.py:208-263 | When declarations have distinct identifiers, resume succeeds only on complete groups followed by at most one unfinished declaration. |
| `Grouping.AboveFlatten` | src/coding_agent_neo/context.py:367-377 | At a cutoff that splits no group, cutting messages by sequence (what resume does) and cutting whole groups by end sequence (what the live builder does) keep the same messages. |
| `Replay.ContextFromEvents` | src/coding_agent_neo/assembly.py:356-426 | The one-pass replay loop computes the recursive replay of the log, then cuts at the larger cutoff and groups; it fails exactly when grouping fails. |
| `Replay.BudgetFromEvents` | src/coding_agent_neo/assembly.py:304-353 | The budget loop computes the tally of the log; the last snapshot wins over the counts. |
| `Replay.ShapeOf` | src/coding_agent_neo/assembly.py:356-426 | Every log written under the loop discipline projects to complete interactions followed by at most one open declaration whose missing results are exactly the open calls; both cutoffs are 0 or the end of an interaction. |
| `Replay.CutoffIsBoundary` | src/coding_agent_neo/assembly.py:415-426 | The cutoff of such a log splits no interaction. |
| `Replay.CrashRecovery` | src/coding_agent_neo/assembly.py:356-426 | Every prefix of such a log can be resumed, and the restored messages are exactly its complete interactions past the cutoff. |
| `Replay.CallsConserved` | src/coding_agent_neo/agent_loop.py:539-576 | In such a log the declared calls are, as a multiset, exactly the answered ones and the open ones: no call is answered twice and no result answers an undeclared call. |
| `Replay.CallsAnsweredInOrder` | src/coding_agent_neo/agent_loop.py:539-576 | When each result answers the oldest open call, results follow the declaration order, and at rest every declared call has exactly one. |
| `Replay.CoverageAdvances` | src/coding_agent_neo/agent_loop.py:651-704 | If every stored summary covers more than the log before it, coverage never shrinks between any two points of the log. |
| `Runtime.EventEmitter.Publish` | src/coding_agent_neo/events.py:428-467 | Store first: a record has a sequence only if it was appended; a failed write refuses everything after it, and the log stays disciplined with and without the unacknowledged record. |
| `Runtime.EventEmitter.Write` | src/coding_agent_neo/session.py:477-506 | The record-level store takes one of its three outcomes, and only refuses once it is broken. |
| `Runtime.CancellationSignal.IsCancelled` | src/coding_agent_neo/runtime.py:48-95 | Another thread may cancel before any look; a cancellation is never taken back. |
| `Runtime.ContextState.FromPlan` | src/coding_agent_neo/assembly.py:473-482 | The restored context holds the plan's summary, cutoffs, notice and messages, in order. |
| `Model.NormalizeCalls` | src/coding_agent_neo/model_client.py:331-370 | Every call keeps its name and arguments; identifiers that are missing, malformed or repeated within the reply are flagged, and the others are distinct. |
| `Context.ContextBuilder.Trigger` | src/coding_agent_neo/context.py:384-386 | The size at which compaction starts lies between 1 and the window. |
| `Context.ContextBuilder.EffectiveGroups` | src/coding_agent_neo/context.py:367-377 | The groups that are sent are those whose end lies past the larger cutoff. |
| `Context.ContextBuilder.Project` | src/coding_agent_neo/context.py:395-422 | The request is the prompt, the summary, the notice and every effective group whole, with its estimated total. |
| `Context.ContextBuilder.PlanCompaction` | src/coding_agent_neo/context.py:433-454 | The plan takes the oldest groups past the covered sequence and leaves the most recent ones out: at least one, or the configured number. |
| `Context.ContextBuilder.ApplyDegradedFallback` | src/coding_agent_neo/context.py:456-469 | The degraded cutoff never goes back and the notice is set; nothing else changes. |
| `Context.Compactor.BoundedGroups` | src/coding_agent_neo/compactor.py:159-172 | The source is the longest run of planned groups that fits group by group. |
| `Context.Compactor.Compact` | src/coding_agent_neo/compactor.py:195-234 | One attempt: on success the source, a non-empty run of the plan, was sent whole and the context covers exactly up to its end; on failure the context is unchanged. |
| `Executor.JustifiedLater` | src/coding_agent_neo/executor.py:955-1067 | The evidence for a dispatch stays in an append-only log. |
| `Executor.ApprovalPort.RequestApproval` | src/coding_agent_neo/backend_service.py:270-295 | An approval that returns true was asked for by the record stored right before and answered for this very call; whenever anybody was asked, the request is in the log. |
| `Executor.Registry.Execute` | src/coding_agent_neo/executor.py:1040-1067 | A tool is reached only with validated arguments, a stored tool_call and a stored decision that allows it; an ask needs an approval that returned true. |
| `Executor.ToolExecutor.NormalizeResult` | src/coding_agent_neo/executor.py:784-841 | Whatever a registry returns, the result is tied to this call. |
| `Executor.ToolExecutor.DecideAndRun` | src/coding_agent_neo/executor.py:1000-1067 | The decision is stored before the tool runs; a store failure leaves the tool untouched. |
| `Executor.ToolExecutor.Execute` | src/coding_agent_neo/executor.py:843-1137 | One call leaves a call record, at most one approval request and one decision, and exactly one result, unless the store fails; the tool was reached once if the stored decision allows it and not at all otherwise; what must unwind the loop is raised only after the result was stored. Every earlier dispatch stays justified. |
| `Executor.ToolExecutor.Skip` | src/coding_agent_neo/executor.py:1139-1208 | A skipped call leaves exactly a call record, a denial and its result, and reaches no tool. |
| `Live.LoneStep` | src/coding_agent_neo/agent_loop.py:436-445 | A record and its message keep log and context consistent. |
| `Live.DeclareStep` | src/coding_agent_neo/agent_loop.py:943-953 | A stored declaration opens an interaction in which every declared call is waiting. |
| `Live.CallStep` | src/coding_agent_neo/agent_loop.py:1001-1007 | A stored result and its message keep log and context consistent, close exactly one call, and keep the order if it was the first. |
| `Live.LostStep` | src/coding_agent_neo/agent_loop.py:548-561 | A call whose result could not be stored stays open in the log and in the context. |
| `Live.CutAtGroup` | src/coding_agent_neo/context.py:433-469 | The end of any group but the last is a cut that splits neither a group nor what a resume dropped. |
| `Live.CompactedStep` | src/coding_agent_neo/agent_loop.py:673-682 | A stored summary moves the covered cutoff to the end of a group that is not the last, in the log as in the context. |
| `Live.DegradedStep` | src/coding_agent_neo/agent_loop.py:684-703 | A stored failure moves the degraded cutoff the same way and leaves the notice. |
| `Live.CutEndsGroup` | src/coding_agent_neo/agent_loop.py:630-649 | Every cutoff a loop stores is the end of an interaction of its log. |
| `Agreement.LiveReplayAgreement` | src/coding_agent_neo/assembly.py:356-426 | Whenever no declared call is pending, replaying the log restores the live summary, cutoffs, notice and effective messages, with the names the log keeps, exactly if no interaction that an earlier resume dropped stands before newer ones past the cutoff; otherwise the log is refused. |
| `Agreement.CrashThenContinue` | src/coding_agent_neo/assembly.py:258-261 | The refusal has an input, every crash inside an interaction: a disciplined log with open calls resumes, and once the resumed session has said anything, the next resume refuses the log, whatever else follows, until a compaction is stored. |
| `Agreement.SameRequest` | src/coding_agent_neo/context.py:395-422 | Then, if every declared tool is registered, the resumed builder sends the very request the live builder sends. |
| `Agreement.ResumeConsistent` | src/coding_agent_neo/assembly.py:473-482 | Whatever sane log is resumed, the restored context is consistent with it, and the hidden, loaded and dropped parts of the log are identified. |
| `Agreement.Coverage` | src/coding_agent_neo/context.py:367-377 | Every group is wholly summarised, wholly omitted while the request carries the notice, or wholly sent, and the most recent one is always sent. |
| `Agreement.SummarySource` | src/coding_agent_neo/context.py:433-454 | A summary reads every live group between the old and the new coverage, and no group that the resume cut off; the new coverage lies past all of those. |
| `Agreement.SummaryReadsAll` | src/coding_agent_neo/context.py:433-454 | For a session at rest when it was resumed: a summary reads every group it newly covers, those that the resume cut off included, if and only if none of the latter lies past the old coverage. |
| `Agreement.ResumeHides` | src/coding_agent_neo/assembly.py:415-426 | Such a group exists right after a resume if and only if the log left the degraded cutoff past the covered one. |
| `Agreement.OmittedGroupIsLost` | src/coding_agent_neo/assembly.py:415-426 | An input: a log of two turns, at rest, whose first message was omitted by a failed compaction; the resumed loop may cover that message with a summary that never read it. |
| `Agreement.SelectedGroup` | src/coding_agent_neo/agent_loop.py:684-695 | The last group of any source is a context group past the old coverage, and another group follows it. |
| `Agreement.SnapshotWins` | src/coding_agent_neo/assembly.py:304-353 | Records behind the last snapshot do not change the recovered budget: a crash inside a turn forgets its steps. |
| `Turn.RecordsWellDeclared` | src/coding_agent_neo/agent_loop.py:447-457 | Declarations have distinct correlations and distinct context identifiers, whatever the provider sent, and the open calls of the log are the plans. |
| `Turn.SameDeclaration` | src/coding_agent_neo/agent_loop.py:459-506 | The live declaration equals the logged one after the names of unregistered tools are replaced. |
| `Loop.AgentLoop.NewCorrelationId` | src/coding_agent_neo/agent_loop.py:296-316 | Every issued correlation is new; the search ends. |
| `Loop.AgentLoop.PlanCalls` | src/coding_agent_neo/agent_loop.py:447-457 | One plan per call, in order, with a new correlation and the provider's identifier only where it is usable. |
| `Loop.AgentLoop.EmitLone` | src/coding_agent_neo/agent_loop.py:436-445 | The record is stored before its message is appended; a refused record changes nothing. |
| `Loop.AgentLoop.Declare` | src/coding_agent_neo/agent_loop.py:942-953 | The assistant record is stored before the declaration enters the context; from then on every call waits, or nothing has changed. |
| `Loop.AgentLoop.SkipNext` | src/coding_agent_neo/agent_loop.py:539-561 | A skipped call leaves the list of pending plans whether or not its result could be stored. |
| `Loop.AgentLoop.SkipPending` | src/coding_agent_neo/agent_loop.py:539-561 | Without a store failure every pending call is closed, and the log grows by exactly a call record, a denial and an unexecuted result with the given reason and status for each, in order. |
| `Loop.AgentLoop.RunFirst` | src/coding_agent_neo/agent_loop.py:1000-1001 | After an execution, returned or raised, the result of the first pending call is stored unless the store failed. |
| `Loop.AgentLoop.TakeResult` | src/coding_agent_neo/agent_loop.py:1002-1006 | A stored result enters the context once, under its own identifier. |
| `Loop.AgentLoop.ConsumePublished` | src/coding_agent_neo/agent_loop.py:563-576 | A result stored while an exception unwound is consumed, and nothing is consumed twice. |
| `Loop.AgentLoop.ContextGroups` | src/coding_agent_neo/context.py:244-295 | Inside the loop the stored messages always split into complete groups: grouping never raises. |
| `Loop.AgentLoop.EmitCompaction` | src/coding_agent_neo/agent_loop.py:630-649 | The compaction record is stored, or the four context fields are put back. |
| `Loop.AgentLoop.CompactOnce` | src/coding_agent_neo/agent_loop.py:651-704 | True is returned with exactly one stored summary that strictly extends the coverage and takes the notice away; it was asked for in one request that carries the old summary and exactly the n oldest groups past the old coverage, leaving at least one, and the new coverage is the end of the n-th. False is returned with nothing changed, or with exactly one stored failure that leaves out everything up to the end of its source, says so and touches neither summary nor coverage. At most one request is made. |
| `Loop.AgentLoop.PrepareContext` | src/coding_agent_neo/agent_loop.py:706-739 | The returned messages are the projection of the current context and fit the window; at most max_compactions_per_request summaries are tried; it gives up only while the projection is larger than the size at which compaction starts. |
| `Loop.AgentLoop.CompleteModelRequest` | src/coding_agent_neo/agent_loop.py:741-765 | One model step makes at most max_compactions_per_request + 3 requests, and a reply answers the projection of the current context. |
| `Loop.AgentLoop.StoreAnswer` | src/coding_agent_neo/agent_loop.py:935-953 | A reply is stored and all its calls are waiting, or nothing has changed. |
| `Loop.AgentLoop.CurrentLimit` | src/coding_agent_neo/agent_loop.py:584-604 | A limit is reported only if it is reached; none only while a model step is left and the protocol errors are zero or below their limit. |
| `Loop.AgentLoop.FallbackGroups` | src/coding_agent_neo/agent_loop.py:684-690 | The groups of the plan that end no later than the source, or the first one. |
| `Turn.SelectedThrough` | src/coding_agent_neo/agent_loop.py:684-703 | The groups left out after a failure end exactly where the attempted source ended. |
| `Turn.LastSnapshot` | src/coding_agent_neo/assembly.py:304-353 | A log that ends in a snapshot recovers exactly that snapshot. |
| `Loop.AgentLoop.RunNext` | src/coding_agent_neo/agent_loop.py:972-1040 | One declared call: the turn ends, or exactly this call is closed and the protocol error limit is not reached. |
| `Loop.AgentLoop.RunTools` | src/coding_agent_neo/agent_loop.py:972-1040 | The tool loop ends the turn or closes every call; it goes on only below the protocol error limit, so a limit of zero ends every turn with a tool call. |
| `Loop.AgentLoop.AnswerWithoutCalls` | src/coding_agent_neo/agent_loop.py:969-983 | Text without calls completes the turn; an empty reply reaches the protocol limit or continues below it. |
| `Loop.AgentLoop.ModelStep` | src/coding_agent_neo/agent_loop.py:926-983 | Every iteration ends the turn, raises with everything accounted for, or uses up one model step and leaves no call open. |
| `Loop.AgentLoop.EndTurn` | src/coding_agent_neo/agent_loop.py:785-806 | A turn that completes or reaches a limit is finished, or its end was refused and nothing has changed. |
| `Loop.AgentLoop.FinishSession` | src/coding_agent_neo/agent_loop.py:399-416 | Without a store failure exactly agent_end and session_end are appended, once. |
| `Loop.AgentLoop.FailedResult` | src/coding_agent_neo/agent_loop.py:836-861 | A failed turn is finished whatever the store does. |
| `Loop.AgentLoop.InterruptedResult` | src/coding_agent_neo/agent_loop.py:863-877 | So is an interrupted one. |
| `Loop.AgentLoop.Unwind` | src/coding_agent_neo/agent_loop.py:1046-1071 | Whatever unwinds the turn, every remaining call is closed and the turn is finished as interrupted or failed. |
| `Loop.AgentLoop.Handle` | src/coding_agent_neo/agent_loop.py:1042-1071 | Every exception closes the remaining calls and finishes the turn; only a limit whose end the store refuses is raised again. |
| `Loop.AgentLoop.TurnBody` | src/coding_agent_neo/agent_loop.py:922-1040 | The loop terminates on remaining model steps, then on pending calls. |
| `Loop.AgentLoop.RunTurn` | src/coding_agent_neo/agent_loop.py:903-1071 | Every turn that is finished without open calls leaves all calls that this loop ever declared answered exactly once, in order, with their own correlations. If no record was refused, there are no open calls, and an accepted turn ends with exactly one turn_end, followed by agent_end and session_end unless it completed, with a log from which exactly the live counters are recovered. The user's message is logged at most once, and surely if the turn completes or reaches a limit; a step, call, protocol or window limit is really reached, an interrupt is a cancellation, a completion the final reply. Coverage never shrinks, and requests are bounded by the model steps used. |
| `Loop.AgentLoop.Close` | src/coding_agent_neo/agent_loop.py:418-428 | An open session is ended exactly once. |
| `Assembly.RecoverSessionPlan` | src/coding_agent_neo/assembly.py:429-470 | Refused exactly for an empty log, a log without a root agent or a context that cannot be grouped. |
| `Assembly.BuildLoop` | src/coding_agent_neo/assembly.py:485-626 | The loop starts from the recovered context and counters and is consistent with its log. |
| `Assembly.BuildAgentBackend` | src/coding_agent_neo/assembly.py:485-626 | A resume fails exactly when the log cannot be recovered. |
| `Assembly.ReplayAgrees` | src/coding_agent_neo/assembly.py:356-426 | The agreement holds for every loop at rest, after any turns, compactions and resumes. |
| `Assembly.CrashLeavesResumable` | src/coding_agent_neo/assembly.py:356-426 | A loop that started from a log at rest leaves a resumable log at every moment, with every prefix and with the record of a failed write. |
| `Assembly.EveryCallClosedOnce` | src/coding_agent_neo/agent_loop.py:539-576 | Whatever log a loop started from, also one that a crash left inside an interaction, and whatever the store refused: at rest the loop has answered every call it declared exactly once, with its own correlation, in declaration order. |
| `Assembly.OnlyPendingCallsOpen` | src/coding_agent_neo/agent_loop.py:1000-1007 | In the middle of a turn the declared calls without a result are exactly the pending ones, in order, as long as none was lost to the store. |
| `Assembly.CoverageNeverShrinks` | src/coding_agent_neo/agent_loop.py:651-704 | Along the log of a loop what is summarised never shrinks, and every summary the loop stored covers strictly more than all records before it. |
| `Assembly.SameRequestAfterRestart` | src/coding_agent_neo/context.py:395-422 | For every loop at rest whose log can be resumed, with registered tools only, a restart sends the very request the loop would send. |
| `Assembly.ToolsRunBehindTheirDecision` | src/coding_agent_neo/executor.py:955-1067 | Whatever reached the registry was validated, is declared in the log, and was allowed by the record right before; an ask was approved. This holds with store failures at any point. |
| `Assembly.WorkIsBounded` | src/coding_agent_neo/agent_loop.py:280-294 | Over all turns, steps and dispatches never exceed the larger of the limit and the resumed count, and every request, summaries included, fits the window. |
| `Assembly.SessionEndIsLast` | src/coding_agent_neo/agent_loop.py:399-428 | Nothing of a loop comes behind its session_end. |
| `Assembly.RunLoop` | src/coding_agent_neo/agent_loop.py:903-1071 | Any sequence of turns leaves a sane log, disciplined if it was at rest before, and at rest again if nothing was refused. |
| `Assembly.Lifetime` | src/coding_agent_neo/assembly.py:485-626 | Resume, turns and close extend the log; over lifetimes without a refused record every call stays answered exactly once, in order. |
| `SessionStore.LawfulCodec` | src/coding_agent_neo/session.py:299-306 | The three laws asked of the record encoding can be met. |
| `SessionStore.ReadRecords` | src/coding_agent_neo/session.py:230-291 | The reading loop computes the recursive reading of the lines, with the same error for the same line. |
| `SessionStore.ReadSession` | src/coding_agent_neo/session.py:203-296 | So does the whole of read_session for the bytes of the file. |
| `SessionStore.ReadHeld` | src/coding_agent_neo/session.py:203-296 | A file of chained records is read back as exactly these, with or without the last line break. |
| `SessionStore.ReadTorn` | src/coding_agent_neo/session.py:252-263 | An unfinished last record is reported at its first byte and takes nothing away. |
| `SessionStore.CrashShape` | src/coding_agent_neo/session.py:462-475 | A crash at any byte leaves complete records and at most one unfinished one; a record is missing only if its last byte before the line break did not survive. |
| `SessionStore.CrashAtAnyByte` | src/coding_agent_neo/session.py:203-296 | Whatever byte prefix survives, it is read back as exactly the records whose bytes survived, with at most one incomplete tail, and restores exactly their complete interactions past the cutoff. |
| `SessionStore.AppendShape` | src/coding_agent_neo/session.py:477-506 | An append that stops after any byte leaves the old records, an unfinished one, or the new record as a whole. |
| `SessionStore.SeparatedLine` | src/coding_agent_neo/session.py:489-492 | The separator replaces a missing line break: appending continues the canonical file. |
| `SessionStore.Store.Opened` | src/coding_agent_neo/session.py:388-396 | A store over a readable file holds its records and continues their numbering. |
| `SessionStore.Store.Prepare` | src/coding_agent_neo/session.py:421-460 | A record gets the next sequence and a new identifier; another session or an explicit identifier that exists is refused. |
| `SessionStore.Store.Append` | src/coding_agent_neo/session.py:477-506 | An acknowledged record extends the file by one canonical line with the next sequence; a failed write leaves nothing, a part or the whole of that very record and makes the store refuse everything until it is reopened. |
| `SessionStore.AppendRecord` | src/coding_agent_neo/session.py:477-506 | The store with its bytes refines the record-level store of the emitter: whatever an append does to the file, some outcome of the emitter does to its records, and the two still agree. |
| `SessionStore.HeldIsRead` | src/coding_agent_neo/session.py:203-296 | Where they agree, the file reads back as exactly the acknowledged records, and behind them the record that broke the store if it arrived as a whole. |
| `SessionStore.DiscardIncompleteTail` | src/coding_agent_neo/session.py:183-200 | Only the unfinished record is cut off. |
| `SessionStore.StoreLifetime` | src/coding_agent_neo/session.py:347-506 | One process that may die in the middle of a write loses nothing that was read or acknowledged, and leaves at most one record more. |
| `SessionStore.StoreLifetimes` | src/coding_agent_neo/session.py:347-506 | Over any number of such processes every later reading extends all earlier ones, and sequences are exactly 1..n. |
| `Pump.StepKeeps` | src/coding_agent_neo/transports/http/registry.py:75-149 | Every critical section of every thread keeps the position of every subscription in the history. |
| `Pump.FanOut` | src/coding_agent_neo/transports/http/registry.py:75-149 | In every interleaving a subscriber reads, before its first terminal marker, the part above its cursor of a prefix of the history: in order and without duplicates. |
| `Pump.CompleteAtEnd` | src/coding_agent_neo/transports/http/registry.py:122-149 | If the stream ended by itself, every subscription that its consumer kept open has everything above its cursor that was published until the reader found the buffer closed. |
| `Pump.CloseOvertakes` | src/coding_agent_neo/transports/http/registry.py:108-120 | Closing during a delivery can put the marker before a cached event: from any such state three steps lose the event although it was read. |
| `Pump.CompleteUnlessOvertaken` | src/coding_agent_neo/transports/http/registry.py:108-120 | The exact condition: the marker of a close comes behind all cached events above the cursor if and only if the last of them is not just being delivered to that subscription. |
| `Pump.MarkerIsFinal` | src/coding_agent_neo/transports/http/registry.py:108-133 | After a close nothing more is read and nothing behind the marker counts, so what was lost stays lost. |
| `Pump.OvertakingIsPossible` | src/coding_agent_neo/transports/http/registry.py:108-133 | A run of six steps from the initial state in which a subscriber that stays open reads nothing of the one event that was published, cached and put into its queue. |
| `Pump.QueueGrows` | src/coding_agent_neo/transports/http/registry.py:36-40 | What a consumer can read only grows at the end. |
| `Pump.EventStreamBuffer.Batch` | src/coding_agent_neo/backend_service.py:116-135 | After k events were yielded, the next round is exactly the rest of the history. |
| `Control.NoStaleApproval` | src/coding_agent_neo/backend_service.py:184-213 | The channel approves if and only if the last response since the last begin approves that very request, no response since then is to another one, nobody has returned since then, and the channel was never interrupted or closed. |
| `Control.ApprovalChannel.Check` | src/coding_agent_neo/backend_service.py:184-202 | A round of wait approves if and only if the whole history of the channel says so. |
| `Control.ApprovalChannel.Respond` | src/coding_agent_neo/backend_service.py:204-213 | A response counts for the open request only. |
| `Control.RequestApproval` | src/coding_agent_neo/backend_service.py:270-295 | Under every interleaving the port returns true only if, since its own begin, the last response approves its own request and nothing speaks against it; and it returns true exactly when a round of wait did. |
| `Control.AgentBackendService.Send` | src/coding_agent_neo/backend_service.py:362-389 | A task is refused exactly while a turn is in progress, everything exactly after a stop; nothing else is queued. |
| `Control.AgentBackendService.RequestStop` | src/coding_agent_neo/backend_service.py:414-422 | The close goes behind any accepted task, and a running turn is cancelled. |
| `Control.AgentBackendService.Take` | src/coding_agent_neo/backend_service.py:424-435 | The worker takes commands in the order in which they were accepted and leaves on a close. |
| `Control.SingleWorker` | src/coding_agent_neo/backend_service.py:362-444 | At most one task is queued or running, exactly while a turn is in progress; at most one close is queued, behind any task, and nothing behind it. |
| `Control.Interleave` | src/coding_agent_neo/backend_service.py:362-444 | Any interleaving keeps this, only extends what was accepted and taken, and accepts nothing after a stop. |
| `Sse.SseMessages` | web/src/api/client.ts:455-521 | The buffered line parser yields what the character-by-character parser yields. |
| `Sse.ChunkingInvisible` | web/src/api/client.ts:487-506 | However a body is cut into chunks, the same messages come out, if no cut separates a carriage return from its line feed. |
| `Sse.SplitPairExactly` | web/src/api/client.ts:487-506 | A cut between the two is harmless at that place if and only if the line that the pair ends leaves no data collected. |
| `Sse.SplitPairMatters` | web/src/api/client.ts:500-501 | With such a cut one message can become another: a concrete family of bodies. |
| `Sse.FrameParsed` | src/coding_agent_neo/transports/http/wire.py:135-147 | One printed frame is parsed to exactly its event and leaves the parser clean; a heartbeat leaves no trace. |
| `Sse.RoundTrip` | src/coding_agent_neo/transports/http/wire.py:135-147 | Print, cut into chunks, parse: exactly the printed events, in order. |
| `Sse.TruncatedStream` | web/src/api/client.ts:475-499 | A body that stops between two characters yields the events sent whole and at most one message whose data is a prefix of the next event's. |
| `Sse.CutInsideCharacter` | web/src/api/client.ts:475-499 | A body that stops inside a character yields one more message that ends in the replacement character, so its data is no prefix of the event's, unless the character was the replacement itself. |
| `Sse.TruncatedBytes` | web/src/api/client.ts:475-499 | A connection that breaks after any byte yields the events sent whole and at most one message, whose data is what is decoded from a byte prefix of the next event's. |
| `Reducer.EventFacts` | web/src/domain/reducer.ts:316-350 | An event changes facts exactly when its sequence is the next one. |
| `Reducer.ClientRefines` | web/src/domain/reducer.ts:316-350 | For any delivery with duplicates, reordering, gaps and stream changes the cursor never goes back, moves by at most one per action, and the facts are the plain fold over exactly the entries up to it. |
| `Reducer.EverythingArrives` | web/src/domain/reducer.ts:316-350 | Once every entry came at least once after its predecessors, all are consumed. |
| `Reducer.TerminalStays` | web/src/domain/reducer.ts:175-184 | A terminal state stays terminal and no task can be submitted. |
| `Reducer.ClosedStays` | web/src/domain/reducer.ts:440-482 | Nothing delivered reopens a closed connection, and every command stays locked. |
| `Reducer.HydrationKeepsLive` | web/src/domain/reducer.ts:360-377 | Hydrating history consumes the same events but never ends the live session. |
| `Reducer.ApprovalIsOpen` | web/src/domain/reducer.ts:160-258 | A response can be given only to a logged request that names its own correlation and is neither decided nor followed by a turn end. |
| `Preview.SizeMonotone` | src/coding_agent_neo/session.py:318-327 | The encoded size is strictly monotone in the characters kept. |
| `Preview.BoundedPayload` | src/coding_agent_neo/session.py:309-344 | The binary search returns the longest preview that fits, found by trying all lengths from the top. |
| `Preview.LongestPreview` | src/coding_agent_neo/session.py:329-344 | That preview fits, every longer one does not, and there is one exactly if the bare metadata fits. |
| `Preview.NeverWhole` | src/coding_agent_neo/session.py:309-316 | A payload that is too long is never kept whole. |
| `Paging.BuildPage` | src/coding_agent_neo/backend_provider.py:287-303 | Every selected event is projected, in order, with its identity and sequence. |
| `Paging.Shrunk` | src/coding_agent_neo/backend_provider.py:305-311 | The payload bound strictly shrinks and never falls below its floor. |
| `Paging.EventPage` | src/coding_agent_neo/backend_provider.py:227-318 | The shrinking loop ends and serves the page of the first bound in its sequence that is small enough; a page carries exactly the selected events within its byte bound; otherwise even the smallest previews were too large, or an event had no preview. |
| `Paging.ReadSessionEvents` | src/coding_agent_neo/backend_provider.py:764-797 | A session without events is unavailable; any other request is the page or the refusal of the shrinking loop. |
| `Paging.CursorAdvances` | src/coding_agent_neo/backend_provider.py:294-302 | A page that promises more points past the cursor it was asked for. |
| `Paging.AfterCursor` | src/coding_agent_neo/backend_provider.py:235-237 | Asking behind the n-th event selects exactly the rest. |
| `Paging.HydrateHistory` | web/src/composables/useAgentSession.ts:733-751 | Following the cursor from 0 ends; without a refusal, and only then, a non-empty history has been consumed once, in order; a refusal is the one that the server gives for the page behind what was consumed. The guard against a cursor that does not move never fires. |

## Left out

- Child agents: every event belongs to the root agent.
- Token usage and elapsed time in the budget: the deadline is an arbitrary answer, counters are exact.
- Retries inside the model client (src/coding_agent_neo/model_client.py:910-1000) and the retry records it
  publishes: they neither change the context nor open a call.
- Loop.AgentLoop.RunTurn: does not name the exception behind a failed turn, nor the deadline behind a
  wall-time limit, because faults and the clock are arbitrary answers of the environment.
- The state WAITING_FOR_APPROVAL of the loop object and the reasons that end records carry.
- SessionStore.AppendRecord: takes the published record as the store bounds it; see the first assumption.
- Observers of the emitter: a failing observer does not affect the stored record.
- Environment start and close beyond the fact that a start may fail.
- Signature-inspecting adapters, compatibility aliases, field validation of transport objects,
  configuration, command line, rendering, routing and components: plumbing without a protocol of its own.
- File system paths and symbolic links; the policy's path rules; real tools and processes.
- The derived `last_state` of the event buffer (src/coding_agent_neo/backend_service.py:137-163).
- Transport sessions around the pump (src/coding_agent_neo/transports/http/registry.py:202-460).
- The list cursor of the history (src/coding_agent_neo/backend_provider.py:574-597).
- Cursor selection from headers and the second page bound of the wire layer
  (src/coding_agent_neo/transports/http/wire.py:305-354).
- Reconnection timing in the browser and the words of its diagnostics.
- Pump.StepKeeps: threads are modelled by their critical sections on values, not by an object with locks.
- Reducer.HydrationKeepsLive: does not equate hydrated and live facts, because a terminal event of the
  history is ignored by hydration and stops the live fold.
- Sse.ChunkingInvisible: states one direction only for a whole body; a cut inside CR LF that changes what is
  collected may still be made up for by a blank line behind it.
- Paging.EventPage: takes page sizes as arbitrary numbers, so it does not prove that the start bound is
  usually enough.
