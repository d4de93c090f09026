# Verified model of the agent runtime's protocols

This Dafny project models the protocol layer of the bounded agent runtime and four self-contained
algorithms of its dashboard, and proves their main properties for every input, every run and every
interleaving of the events that drive them.

Each source file has a module. What a file's objects do is given twice: as a specification on values
(a datatype for the state, a function for each operation, a step relation for whole runs), and as a
class whose methods change fields as the source does, each method proved to do what the specification
says. The theorems are about the specification and so hold of the classes; they are in the modules that the table below
names after the one they are about.

| module | models |
|---|---|
| `RemoteStorageModel`, `StorageProtocol` | the retry protocol of `RemoteStorage`; a channel that loses, repeats, delays and reorders, and the runner at its other end |
| `SessionReplay`, `ReplayGuarantees` | the repair of a session log before it is replayed, and the digest that identifies a log |
| `ToolTranscript`, `ToolArguments`, `ToolBroker`, `RequestChoice`, `ToolPairing`, `BrokerGuarantees`, `BrokerMemory` | the request ids of tool calls, the comparison of arguments, and the broker that pairs executions with transcript blocks and settles them |
| `Jsonl`, `JsonlGuarantees`, `JsonlLines`, `Output`, `AgentWorkerModel`, `WorkerGuarantees`, `WorkerTools`, `WorkerResults`, `WorkerLimits`, `WorkerEnding` | JSON Lines framing, the output with its budgets, and the life of a worker, each wait a point where anything else may happen |
| `TaskGraph` | the layered drawing of dependent tasks |
| `PaletteLoader`, `PaletteGuarantees`, `PaletteRuns` | the refresh of the command palette's index |
| `TerminalInput`, `TerminalGuarantees` | the ordered input of a terminal |
| `EventProjector` | the text deltas of a durable run |
| `BoundedJson`, `BoundedParts` | the shape check of JSON values |
| `Money`, `MoneyTexts`, `Decimal` | dollars read and printed |

What the proofs found out about the code:

- A shutdown or an abort does not stop every storage call. One that is asleep in its backoff, or has not read a retryable
  refusal yet, sends again; these are exactly the calls that do (`StorageProtocol.SendsAfterShutdownIff`,
  `StorageProtocol.SendsAfterAbortIff`). No new call begins.
- Request ids of a transcript are pairwise distinct exactly when no raw id spells the text that is hashed for
  the reuse of another; `x`, `x`, `x#1` gives one id twice (`ToolTranscript.DistinctIffNoSpelledReuse`).
- In the agent worker's `catch`, `#terminationState` is never set when it is consulted, so an error other than a
  limit always reports `FAILED` (part of `WorkerGuarantees.FirstCauseWins`).
- The layout counts no edge whose source id is the empty text, yet such an edge is drawn, and may run within a column
  (`TaskGraph.EmptyIdIsNotCounted`, with the exact condition in `TaskGraph.AcyclicDepths`). A graph with nodes and no root has a
  hole in place of its first layer, and then the drawing's height is not a number (`TaskGraph.TaskGraphLayout`).
- The comment at apps/api/dashboard/dashboard.js:971-972 says that a refresh of the palette never renews its
  timestamp without refetching. It does after a failure: the retry asks for the failed source only
  (`PaletteGuarantees.RetryRenewsTime`, with the exact condition in `PaletteGuarantees.RefreshIsCompleteIff` and `PaletteGuarantees.RenewedSources`).
- A lost terminal session comes back when the answer to a resize, a close or an input request that was still on its way
  carries a view of the terminal, though the comment at apps/api/dashboard/dashboard-terminal.js:94-100 says that a loss
  stops every loop (`TerminalGuarantees.LostComesBack`, with the exact conditions in `TerminalGuarantees.LostForGoodIff` and,
  for taking input in again, `TerminalGuarantees.LostTakesInputIff`). A chunk refused after the terminal stopped stays queued
  without a pump when such an answer says that it runs (`TerminalGuarantees.StrandedWhenRevived`,
  `TerminalGuarantees.NothingStrandedIff`).
- A tool call made after the worker's end is registered with the broker, and only its own abort settles it
  (`WorkerTools.CallAfterEnd`, with the exact condition in `WorkerTools.InFlightAfterEnd`). A tool request that goes over a
  limit is not written, but its cancellation may be (`WorkerTools.CancelledWithoutRequestExample`, with the condition in
  `WorkerTools.RefusedRequestIsCancelled`).

## Model

| member | source | states |
|---|---|---|
| `StorageProtocol.ExactlyOnce` | apps/agent-runtime-durable/src/remote-storage.ts:203-260 | over every interleaving each call takes effect at most once and with its own request; one that returned took effect exactly once and returned the runner's first result for its id |
| `StorageProtocol.BoundedEffort` | apps/agent-runtime-durable/src/remote-storage.ts:215-233 | over every interleaving no call sends more than `maxAttempts` records, and the delays it has slept are together no more than `(maxAttempts - 1) * maxBackoffMs` and than `baseBackoffMs * (2^(maxAttempts - 1) - 1)` |
| `StorageProtocol.SleepsAsScheduled` | apps/agent-runtime-durable/src/remote-storage.ts:219-265 | over every interleaving a call that sleeps after attempt k does so for the smaller of `baseBackoffMs * 2^(k - 1)` and `maxBackoffMs`, and what it slept before is exactly `baseBackoffMs * (2^(k - 1) - 1)` as long as the cap was not passed |
| `StorageProtocol.ThrowsOnlyWhatHappened` | apps/agent-runtime-durable/src/remote-storage.ts:217-258 | over every interleaving a call throws only what some event of the run did to it: a refusal that arrived for it and that before its last attempt was not retryable; a timeout or failed send of its last attempt, or after a shutdown; its own abort, if it has a context; or the shutdown |
| `RemoteStorageModel.AttemptIsolation` | apps/agent-runtime-durable/src/remote-storage.ts:238-258 | a settled attempt's late failure or timer leaves a newer attempt's pending entry and every other attempt's outcome alone |
| `StorageProtocol.ShutdownRejectsAll` | apps/agent-runtime-durable/src/remote-storage.ts:105-111 | a shutdown empties the pending map and each waiting call then throws the error of that shutdown |
| `StorageProtocol.NoNewCallAfterShutdown` | apps/agent-runtime-durable/src/remote-storage.ts:204-206 | in every run after a shutdown no call begins, so every record belongs to a call that already was |
| `StorageProtocol.NoNewCallOnceShutDown` | apps/agent-runtime-durable/src/remote-storage.ts:105-111 | after a shutdown of the channel no run begins a call, and the first shutdown stays the reason |
| `StorageProtocol.BeginsIff` | apps/agent-runtime-durable/src/remote-storage.ts:203-218 | a call begins, with a new id and its first record, if and only if the storage is neither closed nor shut down and its signal has not fired; otherwise nothing changes |
| `StorageProtocol.NoNewCallAfterClose` | apps/agent-runtime-durable/src/remote-storage.ts:186-205 | in every run after the close of the storage has ended or was refused no call begins |
| `StorageProtocol.ArrivedIsReturned` | apps/agent-runtime-durable/src/remote-storage.ts:97-102 | a result that arrives while its call waits is what the call returns |
| `StorageProtocol.LastErrorIff` | apps/agent-runtime-durable/src/remote-storage.ts:229-232 | over every run a step changes the recorded error if and only if by it a call throws a refusal of the runner, and then it is that one |
| `StorageProtocol.SendsAfterShutdownIff` | apps/agent-runtime-durable/src/remote-storage.ts:105-111 | after a shutdown some run sends a record if and only if, at the shutdown, some call is asleep in its backoff or holds an unread retryable refusal with attempts left; otherwise no run sends any |
| `StorageProtocol.SendAfterShutdownRuns` | apps/agent-runtime-durable/src/remote-storage.ts:219-227 | runs from the start to both: a call that timed out and sleeps at the shutdown, and one that has not read its refusal, go on to send |
| `StorageProtocol.SendsAfterAbortIff` | apps/agent-runtime-durable/src/remote-storage.ts:217-247 | an aborted call sends again in some run if and only if, at the abort, it was asleep or held an unread outcome that it retries |
| `RemoteStorageModel.RemoteStorage.AcceptResponse` | apps/agent-runtime-durable/src/remote-storage.ts:97-102 | settles the pending attempt of the id, drops a response nobody waits for, and keeps at most one entry an id |
| `RemoteStorageModel.RemoteStorage.SettleAttempt` | apps/agent-runtime-durable/src/remote-storage.ts:238-246 | removes the entry only if it is this attempt's, and settles this attempt's promise once |
| `RemoteStorageModel.RemoteStorage.ShutDownWith` | apps/agent-runtime-durable/src/remote-storage.ts:105-111 | the loop over a snapshot rejects every entry and nothing else; the first failure is kept |
| `RemoteStorageModel.RemoteStorage.StartCall` | apps/agent-runtime-durable/src/remote-storage.ts:203-218 | refuses a call when closed, failed or aborted, in that order, without sending; else sends its first attempt under a fresh id |
| `RemoteStorageModel.RemoteStorage.ContinueCall` | apps/agent-runtime-durable/src/remote-storage.ts:217-232 | after an attempt: returns, throws or sleeps, by the kind of error, the attempts left and the failure |
| `RemoteStorageModel.RemoteStorage.DelayEnded` | apps/agent-runtime-durable/src/remote-storage.ts:215-227 | the next attempt sends the same record under the same id |
| `SessionReplay.ReplayClosure` | apps/agent-runtime/src/session-replay.ts:62-98 | every live tool call of a replay is answered before the next message that is no tool result, every inserted result answers a call still open there, and without the inserted results the replay is the log |
| `ReplayGuarantees.InsertedAnswersByField` | apps/agent-runtime/src/session-replay.ts:51-84 | every message inserted into a replay is a tool result for a call open where it stands, with its id, its name and the given time, and with the text and error flag of its settled outcome or else the interruption |
| `ReplayGuarantees.TrailingRepairsExact` | apps/agent-runtime/src/session-replay.ts:62-97 | the trailing repairs are such answers for exactly the calls open at the end of the log, in the order in which the latest reply has their ids first, under the names it gives them last |
| `ReplayGuarantees.LiveCalls` | apps/agent-runtime/src/session-replay.ts:36-46 | the live calls of a message are those of its tool call blocks, in order, and none if the reply failed or was aborted; a call without a name is unknown |
| `SessionReplay.UnchangedIffClosed` | apps/agent-runtime/src/session-replay.ts:70-98 | a log is replayed as it is exactly when all its calls are answered in time |
| `SessionReplay.ReplayIsFixpoint` | apps/agent-runtime/src/session-replay.ts:70-98 | planning a replay again, at any time and with any outcomes, adds nothing |
| `SessionReplay.PersistedRepairs` | apps/agent-runtime/src/session-replay.ts:62-69 | with the trailing repairs persisted the replay is the same and needs no trailing repair |
| `SessionReplay.PersistedRepairsCompose` | apps/agent-runtime/src/session-replay.ts:62-98 | a log with its repairs persisted replays as itself, followed by the replay of whatever comes later |
| `SessionReplay.ReplayExtends` | apps/agent-runtime/src/session-replay.ts:85-94 | a log that goes on with a message other than a tool result replays as its own replay followed by that of the continuation |
| `SessionReplay.ReplayPrefixIff` | apps/agent-runtime/src/session-replay.ts:85-97 | the replay of a log is a prefix of the replay of the log with any continuation if and only if the tool results that the continuation starts with agree, as far as both go, with the repairs of the log's open calls |
| `SessionReplay.PlanSessionReplay` | apps/agent-runtime/src/session-replay.ts:70-98 | the loop over an insertion-ordered map computes the specified replay and trailing repairs |
| `SessionReplay.CollectToolCalls` | apps/agent-runtime/src/session-replay.ts:36-46 | the calls a provider sees, in order; none of a reply that stopped with an error or was aborted |
| `SessionReplay.ClosePending` | apps/agent-runtime/src/session-replay.ts:51-84 | one result for each open call, in order, with the settled outcome if there is one |
| `SessionReplay.HeadIdentifiesLog` | apps/agent-runtime/src/session-replay.ts:21-29 | from two different logs with one head a collision of the hash is computed, among the texts that were hashed for those logs |
| `SessionReplay.HeadsAgreeIff` | apps/agent-runtime/src/session-replay.ts:21-29 | without a collision among the texts hashed for two logs, they have one head if and only if they are the same log |
| `SessionReplay.ComputeSessionHead` | apps/agent-runtime/src/session-replay.ts:25-29 | the loop computes the chained digest |
| `ToolTranscript.PrefixStable` | apps/agent-runtime/src/proxy-tools.ts:94-118 | extending a transcript leaves the numbered calls of the earlier part as they are |
| `RequestChoice.PlainIff` | apps/agent-runtime/src/proxy-tools.ts:73-89 | an id is its own first request id if and only if it has up to 128 letters, digits, points, underscores, colons and hyphens and begins with a letter or a digit; any other is hashed |
| `ToolTranscript.DistinctIffNoSpelledReuse` | apps/agent-runtime/src/proxy-tools.ts:73-118 | with a hash ideal on the transcript's texts, request ids are pairwise distinct if and only if no raw id spells the text hashed for the reuse of another |
| `ToolTranscript.SpelledReuseExample` | apps/agent-runtime/src/proxy-tools.ts:86-89 | the smallest transcript with one request id for two blocks |
| `ToolTranscript.TranscriptToolCalls` | apps/agent-runtime/src/proxy-tools.ts:101-118 | the loops with the use counts give each block the id of its use index, the number of earlier blocks with its raw id |
| `RequestChoice.TranscriptCallsExact` | apps/agent-runtime/src/proxy-tools.ts:73-118 | the calls of a transcript are those of the tool call blocks of its assistant messages, in order and with the index of the message, each with the proxy id for the number of earlier blocks with its id |
| `ToolArguments.ObjectsSameIff` | apps/agent-runtime/src/proxy-tools.ts:142-161 | two objects are the same arguments if and only if, nulls aside, they hold the same arguments under the same keys, in any order |
| `ToolArguments.FormsSameIff` | apps/agent-runtime/src/proxy-tools.ts:142-161 | texts, numbers and truth values are the same arguments if and only if they spell the same text, arrays if and only if they have the same items, null and undefined being the same there; values of different forms never are |
| `RequestChoice.ExecutionGetsLatest` | apps/agent-runtime/src/proxy-tools.ts:285-303 | an execution finds a block if and only if the latest message with a block of its id has one not issued; it gets the request id of the first of those with its own arguments, else of the first, and otherwise falls back to a count |
| `RequestChoice.FallbacksAreNumbered` | apps/agent-runtime/src/proxy-tools.ts:294-300 | over every run an execution that finds no block gets the proxy id for the number of such executions under its id before it |
| `RequestChoice.ExecutionIsEmitted` | apps/agent-runtime/src/proxy-tools.ts:234-275 | an execution that is neither aborted nor in flight emits the request with its operation and input and is in flight; any other is rejected and emits nothing |
| `ToolPairing.GreedyIsExact` | apps/agent-runtime/src/proxy-tools.ts:285-303 | for any number of executions of an id, with any of its blocks proxied before: while blocks are left the greedy choice gives each execution one of its own; and each gets a block with its own arguments if and only if the multiset of their arguments is contained in that of the blocks left, in any order and among any other calls |
| `BrokerGuarantees.BrokerPairsExecutions` | apps/agent-runtime/src/proxy-tools.ts:234-303 | the same of the broker itself, for no more executions than blocks left, while its transcript grows without further blocks of the id and executions of other ids that find their blocks, results and cancellations come in between: the executions get distinct request ids, those of the chosen blocks |
| `ToolPairing.LatestBlocksDistinct` | apps/agent-runtime/src/proxy-tools.ts:285-290 | the candidates of an execution have distinct request ids and the execution's tool call id |
| `BrokerGuarantees.BrokerSafety` | apps/agent-runtime/src/proxy-tools.ts:194-322 | over every run each call is pending or settled, exactly one and once; pending and cancelled ids are disjoint; at most 256 cancelled ids are kept |
| `BrokerGuarantees.NoRequestCancelledTwice` | apps/agent-runtime/src/proxy-tools.ts:223-275 | over every run the emitted cancellations of a request id, with its call in flight if there is one, are no more than its emitted requests |
| `BrokerMemory.RequestsAreConserved` | apps/agent-runtime/src/proxy-tools.ts:194-322 | over every run the requests emitted under an id are exactly those in flight, those asked to be cancelled and those that the runner ended with a result or a cancellation |
| `BrokerGuarantees.SucceedsIff` | apps/agent-runtime/src/proxy-tools.ts:194-217 | an operation makes a call succeed if and only if it is a final result within the limit, without an error, that names the call's request id while the call is pending |
| `BrokerGuarantees.LateResultAbsorbedOnce` | apps/agent-runtime/src/proxy-tools.ts:194-199 | a late result is absorbed once if its id is remembered as cancelled, and refused otherwise |
| `BrokerMemory.CancelledIsAbsorbed` | apps/agent-runtime/src/proxy-tools.ts:194-322 | a call that is aborted, cancelled, failed without a final result or refused for its size is remembered last, and a late result or cancellation for it is absorbed |
| `BrokerMemory.FinishedIsRefused` | apps/agent-runtime/src/proxy-tools.ts:194-217 | whatever comes after the final result of a call is refused |
| `BrokerGuarantees.CancelAllInv` | apps/agent-runtime/src/proxy-tools.ts:223-228 | cancelling everything keeps the invariant and leaves nothing pending |
| `BrokerGuarantees.CancelAllEmits` | apps/agent-runtime/src/proxy-tools.ts:223-228 | cancelling everything emits one cancellation for each pending request, in order, and nothing else |
| `BrokerMemory.CancelAllRemembers` | apps/agent-runtime/src/proxy-tools.ts:223-228 | of the calls cancelled together the last 256 are remembered |
| `ToolBroker.ProxyToolBroker.ExecuteCall` | apps/agent-runtime/src/proxy-tools.ts:234-275 | an execution is refused when aborted or in flight, else it is pending under its request id and emitted |
| `ToolBroker.ProxyToolBroker.ReceiveResult` | apps/agent-runtime/src/proxy-tools.ts:194-217 | settles, keeps or refuses by the pending map, the byte limit, finality and error |
| `ToolBroker.ProxyToolBroker.CancelEverything` | apps/agent-runtime/src/proxy-tools.ts:223-228 | the loop over the ids pending on entry cancels them all |
| `ToolBroker.ProxyToolBroker.ChooseRequestId` | apps/agent-runtime/src/proxy-tools.ts:285-303 | takes the matching block not yet issued, else the first, else counts uses, and records the id as issued |
| `ToolBroker.ProxyToolBroker.SettleWithError` | apps/agent-runtime/src/proxy-tools.ts:305-315 | rejects and remembers a pending call, absorbs a cancelled id, refuses another |
| `ToolBroker.ProxyToolBroker.AbortCall` | apps/agent-runtime/src/proxy-tools.ts:254-262 | an abort cancels a pending call once and asks the runner to cancel it |
| `JsonlGuarantees.ChunkingInvariance` | apps/agent-runtime/src/jsonl.ts:44-62 | while all the bytes fit the buffer, feeding a stream in any chunks has the outcome of feeding it whole: the same error or none, the same records, and without an error the same state |
| `JsonlGuarantees.FeedAllConserves` | apps/agent-runtime/src/jsonl.ts:44-106 | over any chunks the queue keeps its record and byte budgets, and the accepted lines with their newlines followed by the buffer are the bytes fed |
| `JsonlGuarantees.RoundTrip` | apps/agent-runtime/src/jsonl.ts:44-140 | whatever a writer put out, cut into any chunks and read with any shifts, is decoded to the same records in order and ends cleanly; an overflow is the only error, and there is none if and only if at every feed the buffer has room for the chunk and the queue for the lines that it completes |
| `JsonlGuarantees.EmptiedHasRoom` | apps/agent-runtime/src/jsonl.ts:44-75 | an emptied queue always has room for a chunk of no more bytes than records fit the queue, and than the queue's bytes leave beside one record |
| `JsonlLines.LineIsTakenIff` | apps/agent-runtime/src/jsonl.ts:44-106 | the chunk that completes a line has its record queued last if and only if the input goes on, the line is good and there is place for it; an error names something wrong with it |
| `JsonlLines.PartIsKeptIff` | apps/agent-runtime/src/jsonl.ts:44-62 | a chunk without a newline is kept if and only if the line it goes on with is not too long yet |
| `JsonlLines.EndTells` | apps/agent-runtime/src/jsonl.ts:64-68 | the input ends once, an end within a line is reported, and nothing is taken in after it |
| `Jsonl.WriterKeepsInv` | apps/agent-runtime/src/jsonl.ts:126-140 | over any records offered, those written are valid and fit, at most one is a terminal record, and nothing follows it |
| `JsonlLines.WritesExactly` | apps/agent-runtime/src/jsonl.ts:126-140 | of any records offered, a writer writes exactly those that fit, in order, up to the first valid terminal one, even if that is too long |
| `JsonlLines.WriteTells` | apps/agent-runtime/src/jsonl.ts:126-140 | a writer reports every record it does not write, and why |
| `Jsonl.JsonlRecordQueue.FeedChunk` | apps/agent-runtime/src/jsonl.ts:44-62 | the loop that splits the buffer does what the specified feed does, errors included, and keeps the budgets |
| `Jsonl.JsonlRecordQueue.ShiftRecord` | apps/agent-runtime/src/jsonl.ts:70-75 | takes the oldest record and its bytes off the queue |
| `Jsonl.JsonlRecordQueue.EndInput` | apps/agent-runtime/src/jsonl.ts:64-68 | refuses an unterminated record, once |
| `Jsonl.JsonlWriter.WriteRecord` | apps/agent-runtime/src/jsonl.ts:126-140 | refuses or appends one encoded line; the output is always the stream of the written records |
| `Output.EmitKeeps` | apps/agent-runtime/src/output.ts:26-41 | an emission keeps the written records within the event count, byte and event size budgets |
| `Output.EmitSessionKeeps` | apps/agent-runtime/src/output.ts:43-56 | a session message leaves the counters, the limits and the caller's written bytes and events as they are |
| `Output.EmissionTells` | apps/agent-runtime/src/output.ts:26-56 | an emission reports whether its record was written, and after the terminal one nothing is |
| `Output.EmitTerminalInv` | apps/agent-runtime/src/output.ts:58-62 | a terminal record keeps the budgets and is the last one |
| `Output.TerminalTells` | apps/agent-runtime/src/output.ts:58-62 | there is one terminal emission: it reports whether its record was written, and any other is refused |
| `Output.BoundedOutput.EmitRecord` | apps/agent-runtime/src/output.ts:26-41 | checks the limits in order and charges before writing, so a record that cannot be written stays charged |
| `Output.BoundedOutput.WriteTerminal` | apps/agent-runtime/src/output.ts:58-62 | accepts one terminal record and refuses any other |
| `WorkerGuarantees.OneTerminal` | apps/agent-runtime/src/agent-worker.ts:246-274 | in every reachable state at most one terminal record is written, nothing follows it, and it states the first accepted cause |
| `WorkerGuarantees.FirstCauseWins` | apps/agent-runtime/src/agent-worker.ts:137-172 | from any reachable worker that is not ending, a step ends the run if and only if it is a reason, emissions over a limit or refused by the writer included, and that reason is then the state of the terminal record, whatever happens after it |
| `WorkerGuarantees.EndsIff` | apps/agent-runtime/src/agent-worker.ts:90-172 | for every step: which state it ends a run with, if any, from the input, the budgets and the writer's limits |
| `WorkerGuarantees.SilentAfterEnd` | apps/agent-runtime/src/agent-worker.ts:260-274 | after the end no event of any run changes the output |
| `WorkerGuarantees.EndingFinishes` | apps/agent-runtime/src/agent-worker.ts:246-270 | a worker that is ending waits only for its session's abort and then writes the terminal record of its cause as the last record, if that can be written |
| `WorkerEnding.FinishingTellsEnd` | apps/agent-runtime/src/agent-worker.ts:260-274 | whichever step finishes a run, the last record written is the terminal one with the cause of the end, if it is valid and fits a line |
| `WorkerEnding.OnlyToolsWhileEnding` | apps/agent-runtime/src/agent-worker.ts:223-274 | in every run, once something has ended it, only tool records and the terminal one are written, and no message is taken in or handed over |
| `WorkerEnding.LateCallsAreCancelled` | apps/agent-runtime/src/agent-worker.ts:246-266 | over every run from the step that starts the end: calls made while the session aborts are cancelled too when it has, with the reason of that step, and are written as cancelled if there is room |
| `WorkerGuarantees.EndingCancelsTools` | apps/agent-runtime/src/agent-worker.ts:246-250 | ending a run settles every pending tool request and writes one cancellation for each, in order, if the byte budget has room for them |
| `WorkerTools.RequestsCancelledOnce` | apps/agent-runtime/src/agent-worker.ts:235-274 | in every reachable state the written cancellations of a request id, with its request in flight if there is one, are no more than the requests the broker emitted under it |
| `WorkerTools.ToolRecordsComplete` | apps/agent-runtime/src/agent-worker.ts:235-258 | in every reachable state, until the run is ending, the written tool records are exactly those the broker emitted, in order |
| `WorkerTools.RefusedRequestIsCancelled` | apps/agent-runtime/src/agent-worker.ts:235-265 | a tool request that goes over a limit or that the writer refuses ends the run unwritten, and if there is room for the cancellations of what is in flight, its own is written as the last of them |
| `WorkerTools.CancelledWithoutRequest` | apps/agent-runtime/src/agent-worker.ts:235-265 | a run from the start in which the first request is larger than the output limit and its cancellation is not: what is written is that cancellation alone |
| `WorkerTools.CancelledWithoutRequestExample` | apps/agent-runtime/src/agent-worker.ts:235-265 | such a run with concrete limits, encoding and call: a request with a text of 2000 bytes under a limit of 1024 |
| `WorkerTools.InFlightAfterEnd` | apps/agent-runtime/src/agent-worker.ts:260-274 | over every run that goes on after its end: the ending step leaves nothing in flight, and from then on a request id is in flight if and only if the broker took in a call under it since, with no abort of it after that |
| `WorkerTools.NothingInFlightIff` | apps/agent-runtime/src/agent-worker.ts:260-274 | after the end nothing is in flight if and only if every call that was taken in has been aborted since |
| `WorkerTools.CallAfterEnd` | apps/agent-runtime/src/agent-worker.ts:260-274 | a run from the start that succeeds, with a call after its end: the call stays in flight unless it was aborted before |
| `WorkerTools.NothingInFlightWithoutCalls` | apps/agent-runtime/src/agent-worker.ts:260-274 | if no call is made after the end that was not aborted before, nothing is in flight ever after |
| `WorkerResults.InFlightOverRun` | apps/agent-runtime/src/agent-worker.ts:100-108 | over every run, before, during and after its end: a request id is in flight if and only if a call was taken in under it and since then it was not aborted, no step ended the run, and before that end it got no cancellation and no result that was final, failed or too large |
| `WorkerResults.ResultSettles` | apps/agent-runtime/src/agent-worker.ts:100-108 | while nothing ends the run, a result for a call in flight that is final, failed or too large settles it, as a success only if it is just final; one too large also ends the run; any other changes nothing |
| `WorkerResults.CancellationSettles` | apps/agent-runtime/src/agent-worker.ts:100-108 | while nothing ends the run, a cancellation of a call in flight settles it as failed |
| `WorkerResults.UnknownIsRefused` | apps/agent-runtime/src/agent-worker.ts:100-108 | a result or a cancellation for no call in flight is refused if and only if its id is not remembered as cancelled, and changes nothing else |
| `WorkerGuarantees.EventIsReported` | apps/agent-runtime/src/agent-worker.ts:223-233 | with room in the budgets a session event writes its message, what it shows and its usage, in this order and with the next numbers, and ends nothing |
| `WorkerGuarantees.RepairsAreReported` | apps/agent-runtime/src/agent-worker.ts:151-157 | a session that replayed a history first reports every trailing repair, numbered on from the history |
| `WorkerEnding.NoHistoryNoMessages` | apps/agent-runtime/src/agent-worker.ts:151-157 | over every run without a history no session message is written |
| `WorkerGuarantees.BudgetsHold` | apps/agent-runtime/src/output.ts:19-41 | in every reachable state the written events and bytes are within the limits of the start record, and without one there are none |
| `WorkerLimits.ChargesAreExact` | apps/agent-runtime/src/output.ts:19-41 | in every reachable state, until the run is ending, the charged events and bytes are exactly those written |
| `WorkerLimits.ShownIff` | apps/agent-runtime/src/output.ts:19-41 | in every reachable state that nothing has ended, an event is written with the next number if and only if what is written stays within the limits with it and the writer takes it; otherwise the run ends, as over a limit or as failed |
| `WorkerLimits.RequestedIff` | apps/agent-runtime/src/output.ts:19-41 | so is a tool request |
| `WorkerGuarantees.StartConfigures` | apps/agent-runtime/src/agent-worker.ts:126-135 | an accepted start never finds the output charged, so its limits take effect; its history is where session messages are numbered from |
| `WorkerGuarantees.StartStays` | apps/agent-runtime/src/agent-worker.ts:92-98 | over every run the limits and the history of the start record stay |
| `WorkerEnding.MisplacedIsRefused` | apps/agent-runtime/src/agent-worker.ts:90-99 | an input after the end, anything before the start but a start, and a second start are refused as such, and no refused input changes anything |
| `WorkerGuarantees.NumbersIncrease` | apps/agent-runtime/src/agent-worker.ts:183-233 | written event and usage numbers increase strictly up to the counter, and written session messages continue the history's numbering strictly |
| `WorkerGuarantees.MessagesDelivered` | apps/agent-runtime/src/agent-worker.ts:192-221 | accepted messages are handed over once each and in order or wait in the bounded queue, and none waits once there is a session |
| `WorkerResults.MessageRefusedIff` | apps/agent-runtime/src/agent-worker.ts:192-203 | a message is refused if and only if the worker has not started or is ending, or has no session yet and 64 messages or 512 KiB waiting with it |
| `WorkerResults.MessagesArriveInOrder` | apps/agent-runtime/src/agent-worker.ts:192-221 | over every run the messages that were not refused are handed to the session in the order in which they came, all of them once there is a session |
| `WorkerGuarantees.ReaderGetsTheRun` | apps/agent-runtime/src/jsonl.ts:44-140 | a reader at the other end gets exactly the records of any run, in order, however the bytes arrive, if and only if it has room at every feed; an overflow is the only error |
| `AgentWorkerModel.AgentWorker.ReceiveRecord` | apps/agent-runtime/src/agent-worker.ts:90-120 | accepts or refuses each input record by the worker's state, as specified |
| `AgentWorkerModel.AgentWorker.ToolResult` | apps/agent-runtime/src/agent-worker.ts:100-108 | hands a result to the broker; one over the limit ends the run, one for an unknown request is refused |
| `AgentWorkerModel.AgentWorker.ExecuteTool` | apps/agent-runtime/src/agent-worker.ts:126-135 | a tool call goes to the broker, and what it emits to the output |
| `AgentWorkerModel.AgentWorker.AbortTool` | apps/agent-runtime/src/agent-worker.ts:126-135 | so does the abort of one |
| `AgentWorkerModel.AgentWorker.TerminateRun` | apps/agent-runtime/src/agent-worker.ts:246-252 | the first reason marks the worker as ending and cancels the tools; a failing cancellation does not end it again |
| `AgentWorkerModel.AgentWorker.Aborted` | apps/agent-runtime/src/agent-worker.ts:256-258 | after the abort the run finishes with the state it was ended with |
| `AgentWorkerModel.AgentWorker.FinishRun` | apps/agent-runtime/src/agent-worker.ts:260-274 | finishes once: cancels the tools, then writes the terminal record |
| `AgentWorkerModel.AgentWorker.EmitOutput` | apps/agent-runtime/src/agent-worker.ts:235-244 | an emission that fails ends the run, by a limit or as failed |
| `AgentWorkerModel.AgentWorker.SessionReady` | apps/agent-runtime/src/agent-worker.ts:142-160 | discards a session that comes too late, else reports the repairs and hands over the queued messages |
| `AgentWorkerModel.AgentWorker.SessionIdle` | apps/agent-runtime/src/agent-worker.ts:162-166 | a session that became idle finishes the run with its failure or success, unless it is ending |
| `AgentWorkerModel.AgentWorker.HandleSessionEvent` | apps/agent-runtime/src/agent-worker.ts:223-233 | reports a message, an event and usage, each with its number, and nothing while ending |
| `AgentWorkerModel.AgentWorker.TakeMessage` | apps/agent-runtime/src/agent-worker.ts:192-203 | delivers, queues within 64 messages and 512 KiB, or refuses |
| `AgentWorkerModel.AgentWorker.FlushPendingMessages` | apps/agent-runtime/src/agent-worker.ts:205-210 | the loop hands over the queue in order and leaves it empty |
| `TaskGraph.TaskGraphLayout` | apps/api/dashboard/dashboard-render.js:408-433 | every node has one position, in the row of the number of nodes before it in its column, boxes lie apart and inside, and the page is as large as they need; all counted dependencies go to a later column if and only if the graph has no cycle, and then columns are longest-path depths; all drawn edges do if and only if besides every drawn edge from the empty id leads to a node with a longer chain of dependencies; the height is a number if and only if there is a root or no node |
| `TaskGraph.DepthTable.DepthOf` | apps/api/dashboard/dashboard-render.js:413-422 | terminates on any graph, keeps the depths already known, and leaves no node of an acyclic graph without its depth |
| `TaskGraph.Depths` | apps/api/dashboard/dashboard-render.js:411-423 | exactly the nodes get depths; 0 is for roots, and a depth from 2 up has a dependency just below; without a cycle every dependency is less deep |
| `TaskGraph.DepthIsLongestPath` | apps/api/dashboard/dashboard-render.js:413-422 | such depths are the lengths of the longest dependency chains |
| `TaskGraph.ForwardOnlyIfAcyclic` | apps/api/dashboard/dashboard-render.js:404-407 | no assignment of depths draws every dependency of a cyclic graph forward |
| `TaskGraph.AcyclicDepths` | apps/api/dashboard/dashboard-render.js:413-448 | all drawn edges go forward if and only if the graph has no cycle and every drawn edge from the empty id leads to a node with a longer chain of dependencies |
| `TaskGraph.CountedOnly` | apps/api/dashboard/dashboard-render.js:413-448 | if no drawn edge comes from the empty id, all drawn edges go forward if and only if the graph has no cycle |
| `TaskGraph.BuildLayers` | apps/api/dashboard/dashboard-render.js:424-429 | the sparse array holds each level's nodes in page order, up to the last level in use |
| `TaskGraph.OnlyFirstLayerEmpty` | apps/api/dashboard/dashboard-render.js:424-429 | on any graph no layer but the first can be empty |
| `TaskGraph.LayersDenseIff` | apps/api/dashboard/dashboard-render.js:424-433 | no layer is empty if and only if some node has no dependency or there is no node |
| `TaskGraph.BuildPositions` | apps/api/dashboard/dashboard-render.js:430-431 | every entry of a layer has a position, and every position is that of the last entry of its id |
| `TaskGraph.BoxesDisjoint` | apps/api/dashboard/dashboard-render.js:431-453 | the boxes of two ids never overlap |
| `TaskGraph.EmptyIdIsNotCounted` | apps/api/dashboard/dashboard-render.js:418-448 | an edge from the empty id is drawn and not counted: in every layout of this graph without a cycle it runs within the first column |
| `TaskGraph.MutualDependencyHasNoRoot` | apps/api/dashboard/dashboard-render.js:413-433 | two nodes that depend on each other make a graph without a root |
| `PaletteGuarantees.NotStaleIsCurrent` | apps/api/dashboard/dashboard.js:978-1029 | in every reachable state: unless stale, the index holds every source's own rows, asked for after the last invalidation; at most three requests are in flight |
| `PaletteGuarantees.ReturnedIndex` | apps/api/dashboard/dashboard.js:1000-1011 | a load that commits returns an index current for every source but those that failed, and it is stale if and only if one did |
| `PaletteGuarantees.FailedStayPending` | apps/api/dashboard/dashboard.js:1000-1010 | after a commit exactly the sources with a failed request are pending, and the index is stale if and only if there is one |
| `PaletteGuarantees.PendingIsRefetched` | apps/api/dashboard/dashboard.js:992-999 | the next load asks again for exactly the pending sources |
| `PaletteGuarantees.AnsweredAtOnceIff` | apps/api/dashboard/dashboard.js:991-1012 | a load answers without a request if and only if the index is fresh, or there is no source |
| `PaletteRuns.AnsweredByAge` | apps/api/dashboard/dashboard.js:986-1012 | over every run a caller is answered without a request if and only if a pass that nothing superseded had everything answered, at most `maxAgeMs` ago, and since then no pass came to its end and nothing was invalidated |
| `PaletteRuns.LoadIsShared` | apps/api/dashboard/dashboard.js:1016-1019 | while a load is under way any number of further callers share it |
| `PaletteRuns.NextBatchFollows` | apps/api/dashboard/dashboard.js:996-999 | a batch that settles is followed by the next requests of the pass, in order, until none is left |
| `PaletteGuarantees.SupersededStartsOver` | apps/api/dashboard/dashboard.js:992-1000 | a pass that an invalidation superseded commits nothing and the same load asks again for every source |
| `PaletteGuarantees.RefreshIsCompleteIff` | apps/api/dashboard/dashboard.js:993-995 | a pass asks for every source if and only if none or all were pending when it began |
| `PaletteGuarantees.RenewedSources` | apps/api/dashboard/dashboard.js:995-1010 | in a committed index that is not stale, the sources sent for since the pass began are exactly those it asked for, and every other is the one of an earlier pass |
| `PaletteGuarantees.RetryRenewsTime` | apps/api/dashboard/dashboard.js:971-1009 | a run after which the index counts as fresh with a source older than the maximum age |
| `PaletteLoader.ChunkPaletteRequests` | apps/api/dashboard/dashboard.js:880-885 | the loop cuts a list into batches that join to it, all of three except a last one that is not empty |
| `PaletteLoader.PaletteIndexLoader.EnsureLoad` | apps/api/dashboard/dashboard.js:1016-1019 | starts a load unless one is under way |
| `PaletteLoader.PaletteIndexLoader.InvalidateIndex` | apps/api/dashboard/dashboard.js:1020-1026 | makes the index stale, every source pending, and supersedes the pass under way |
| `PaletteLoader.PaletteIndexLoader.StartPass` | apps/api/dashboard/dashboard.js:991-999 | the top of the loop, up to the first batch |
| `PaletteLoader.PaletteIndexLoader.SettleBatch` | apps/api/dashboard/dashboard.js:997-1012 | the next batch, the next pass, or the commit |
| `PaletteLoader.PaletteIndexLoader.CommitPass` | apps/api/dashboard/dashboard.js:1001-1011 | the loop over the pass's requests stores what each brought and keeps the failed ones pending |
| `TerminalGuarantees.OrderedInput` | apps/api/dashboard/dashboard-terminal.js:173-266 | over every run the delivered bytes are a subsequence of the accepted ones, and the delivered, the in-flight and the queued bytes are the accepted ones in order if and only if no step dropped any; a request carries 1 to 16384 bytes and is tried at most seven times |
| `TerminalGuarantees.LossIff` | apps/api/dashboard/dashboard-terminal.js:114-202 | a step loses accepted bytes if and only if it refuses a chunk for good, or for the seventh time, or clears unsent input because the terminal stopped, was lost or was disposed of; lost bytes never come back |
| `TerminalGuarantees.RetryTriesAgain` | apps/api/dashboard/dashboard-terminal.js:187-192 | a refusal that may be retried keeps every byte, and after the delay the same bytes are sent again first |
| `TerminalGuarantees.RetryDropsIff` | apps/api/dashboard/dashboard-terminal.js:173-202 | over every run a refusal that may be retried drops input if and only if it is the seventh in a row at least, with no delivery and no new pump between; any other is retried after a delay |
| `TerminalGuarantees.SendTells` | apps/api/dashboard/dashboard-terminal.js:232-237 | input is taken in whole and reported so if and only if the session is live and its terminal runs; otherwise nothing changes |
| `TerminalGuarantees.ReadingEndsIff` | apps/api/dashboard/dashboard-terminal.js:121-170 | a step ends the read loop if and only if its page was the last of a terminal that does not run, the terminal is gone or refuses, or the session is over |
| `TerminalGuarantees.ReadingStaysOver` | apps/api/dashboard/dashboard-terminal.js:121-170 | over every run a read loop that has ended never starts again |
| `TerminalGuarantees.NothingStrandedIff` | apps/api/dashboard/dashboard-terminal.js:173-202 | over every run of a session, input waiting on a live, running terminal always has the pump at work, if and only if no response said that a stopped terminal runs while input waited without a pump |
| `TerminalGuarantees.StrandedWhenRevived` | apps/api/dashboard/dashboard-terminal.js:178-192 | a run from the start that does so: a chunk is refused and put back after the terminal stopped, and a resize answers that it runs |
| `TerminalGuarantees.NoInputAfterDispose` | apps/api/dashboard/dashboard-terminal.js:261-265 | after a disposal nothing is accepted, no request begins, and at most the one in flight is delivered |
| `TerminalGuarantees.LostForGoodIff` | apps/api/dashboard/dashboard-terminal.js:94-124 | over every run a lost session is never live again if and only if no response adopts a view of any kind before it is disposed of; until then it accepts nothing and begins no request |
| `TerminalGuarantees.LostTakesInputIff` | apps/api/dashboard/dashboard-terminal.js:173-259 | a lost session can accept input again in some run if and only if, at the loss, the answer to a resize or an input request is on its way, or that to a close while the reader waits between reads |
| `TerminalGuarantees.LostComesBack` | apps/api/dashboard/dashboard-terminal.js:238-249 | a run from the start in which the reader loses the session, a resize brings it back and it accepts input |
| `TerminalInput.TerminalSession.TakeInputChunk` | apps/api/dashboard/dashboard-terminal.js:53-69 | the loop takes exactly the smaller of the limit and what there is, and chunk and queue join to the old queue |
| `TerminalInput.TerminalSession.SendBytes` | apps/api/dashboard/dashboard-terminal.js:232-237 | refuses, or queues at the end and starts the pump if it is not at work |
| `TerminalInput.TerminalSession.Delivered` | apps/api/dashboard/dashboard-terminal.js:178-183 | counts the chunk as delivered, adopts the view and goes on |
| `TerminalInput.TerminalSession.Refused` | apps/api/dashboard/dashboard-terminal.js:184-197 | loses the session, puts the chunk back in front, or drops everything |
| `TerminalInput.TerminalSession.DelayOver` | apps/api/dashboard/dashboard-terminal.js:178-192 | after a delay the pump goes on with the attempt it had reached |
| `TerminalInput.TerminalSession.Adopt` | apps/api/dashboard/dashboard-terminal.js:114-119 | a view of a terminal that does not run empties the queue |
| `TerminalInput.TerminalSession.PageRead` | apps/api/dashboard/dashboard-terminal.js:157-165 | adopts the page's view, and the read loop goes on while there is more or the terminal runs |
| `TerminalInput.TerminalSession.CloseSettled` | apps/api/dashboard/dashboard-terminal.js:250-255 | adopts the closed view and aborts the read under way |
| `EventProjector.StreamingIndependence` | apps/agent-runtime-durable/src/events.ts:29-82 | over a run whose messages grow, the deltas join to the committed texts, in order and once, however progress was committed |
| `EventProjector.RunText` | apps/agent-runtime-durable/src/events.ts:48-82 | over any run the deltas join to what each message shows |
| `EventProjector.SentIsCommittedIff` | apps/agent-runtime-durable/src/events.ts:48-77 | the deltas sent for a message join to its committed text if and only if its first text and progress are a beginning of it |
| `EventProjector.RemembersWhatItSent` | apps/agent-runtime-durable/src/events.ts:41-77 | after any events, the start of an assistant message and its progress so far, the projector remembers exactly the text of the deltas it sent since that start |
| `EventProjector.NoEmptyDeltas` | apps/agent-runtime-durable/src/events.ts:41-77 | over any events no delta that is sent is empty |
| `EventProjector.JoinedIsText` | apps/agent-runtime-durable/src/events.ts:48-70 | the text of an update is that of its text changes, in order, and of nothing else |
| `EventProjector.OthersPass` | apps/agent-runtime-durable/src/events.ts:48-70 | over any events, what is not of an assistant's text is passed on whole and in order |
| `EventProjector.DurableEventProjector.ProjectEvent` | apps/agent-runtime-durable/src/events.ts:48-70 | projects one event and updates what was streamed, as specified |
| `EventProjector.DurableEventProjector.SendMissing` | apps/agent-runtime-durable/src/events.ts:72-77 | sends what a text adds to what was streamed, if it begins with that |
| `BoundedJson.AcceptsExactlyBounded` | apps/agent-runtime/src/protocol-schemas.ts:30-51 | the traversal that stops early accepts exactly the values whose node count, depth, widths, key lengths, numbers and total bytes are within bounds |
| `BoundedParts.AcceptsIff` | apps/agent-runtime/src/protocol-schemas.ts:30-51 | a value is accepted if and only if it holds at most 4096 values, none below level twelve and each sound in itself, and its texts and keys are at most 8 MiB of UTF-8 together |
| `BoundedParts.ByteLengthIsUtf8` | apps/agent-runtime/src/protocol-schemas.ts:38-47 | texts are measured by the length of their UTF-8 form, an unpaired surrogate as U+FFFD |
| `BoundedJson.VisitExact` | apps/agent-runtime/src/protocol-schemas.ts:33-49 | a visit accepts exactly what leaves the running totals within bounds, and then adds the value's totals to them |
| `BoundedJson.IsBoundedJson` | apps/agent-runtime/src/protocol-schemas.ts:30-51 | the check with counters changed in place answers whether the value is bounded |
| `BoundedJson.ShapeCheck.VisitValue` | apps/agent-runtime/src/protocol-schemas.ts:33-49 | the recursion with its loops does what the specified visit does, counters included |
| `Money.RoundTrip` | apps/api/dashboard/dashboard-models.js:95-108 | every amount up to 2^53-1 micro-dollars, printed and read, is itself |
| `MoneyTexts.PriceIff` | apps/api/dashboard/dashboard-models.js:95-101 | a text is a price of m micro-dollars if and only if, white space around it aside, it is one to twelve digits, perhaps with a point and one to six more, worth m, and m is a safe integer |
| `MoneyTexts.PrintedCanonically` | apps/api/dashboard/dashboard-models.js:103-108 | a safe amount is printed with two to six decimals, no more than it needs, and without a needless leading zero; anything else is printed empty |
| `Money.SpendRoundTrip` | apps/api/dashboard/dashboard-models.js:963-977 | every limit from 1 to 10^12 micro-dollars, printed and parsed, is itself |
| `Money.ReadersAgree` | apps/api/dashboard/dashboard-models.js:95-101 | on every text that the price reader takes, the limit parser gives the same amount, or refuses it as zero or too large |
| `Money.AmountsAreJudgedByValue` | apps/api/dashboard/dashboard-models.js:963-977 | an amount typed with digits before the point, after it or both, or without a point, and with or without a dollar sign, is a limit if and only if it has at most six decimals and its value is within the bounds; otherwise the reason is the one that applies |
| `MoneyTexts.LimitsAreJudged` | apps/api/dashboard/dashboard-models.js:963-977 | what is typed is judged by what is left without the white space around it and without a dollar sign: empty, negative, no amount, or an amount by its decimals and its value |
| `MoneyTexts.EveryTextHasParts` | apps/api/dashboard/dashboard-models.js:963-964 | every text splits into these parts |
| `Money.MicrosAreExact` | apps/api/dashboard/dashboard-models.js:958-973 | no digit of a text is rounded away |
| `Money.PrintsAreDistinct` | apps/api/dashboard/dashboard-models.js:103-108 | two amounts print alike if and only if they are equal, and none prints empty |
| `Money.LimitsAreStable` | apps/api/dashboard/dashboard-models.js:963-977 | a parsed limit is within its bounds, and printing and parsing it again changes nothing |

## Left out

- Storage runner: it is an assumption that the runner answers a repeated id with its first result for every id and for ever; apps/runner keeps this for a bounded table and part of the methods only. Ids are the numbers `n` of `storage-n`, arguments and results are texts.
- Hashes: SHA-256 is a function parameter. Ids and heads are compared under the assumption that it has no collision among the finitely many texts at hand, or a collision is exhibited.
- JSON and UTF-8: encoding, parsing and schema validation are one partial decoder with an inverse encoder whose output has no raw line feed or carriage return (section 7 of RFC 8259). Object keys are compared by Dafny characters, where JavaScript compares UTF-16 code units.
- Writer promises: the chain of pending writes hands records over in order; back-pressure and stream errors appear only as the event that a write failed.
- Broker emitter: it neither throws nor calls back into the broker. The worker keeps the state of its broker as a value and offers what a broker operation emitted to the output right after it.
- BrokerGuarantees.BrokerPairsExecutions: an execution in between that finds no block of the transcript falls back to counting uses, and its id may spell that of a block; such executions are outside it.
- Synchronous callbacks of a session inside `prompt`, `steer` and `followUp` happen as separate steps right after the call.
- AgentWorkerModel.AgentWorker.HandleSessionEvent: what an event shows and what usage it reports are given; projection, redaction and usage arithmetic are not modelled.
- `completionFailure` and `isLimitExceeded`: their results are parameters of the steps that use them.
- Engines, model providers, timers, clocks and the network: only the events they cause.
- TaskGraph.TaskGraphLayout: a node is its id, and ids are texts; names, states, durations and the SVG are not modelled.
- PaletteLoader: how rows become entries and how entries are ranked is not modelled, and requests of a batch settle together.
- TerminalInput: one terminal. Opening or attaching another one, the output itself and the lengths of delays are not modelled; resizing and closing are requests whose answers come at any later time, and a refused input request is assumed to have delivered nothing.
- EventProjector.StreamingIndependence: redaction and truncation of a delta are not modelled, so it speaks of texts before them.
- BoundedJson: a number is a real or not finite.
- Money: inputs that are no texts and amounts that are no integers.
- `apps/agent-runtime-durable/src/durable-worker.ts` and `apps/agent-runtime-durable/src/proxy-tools.ts`: near-duplicates of what is modelled. The durable worker does not recheck that it is stopping, so `WorkerGuarantees.FirstCauseWins` says nothing about it.
- Dashboard pages, HTML, the API server and the gateways: request handling, wiring and user interface.
