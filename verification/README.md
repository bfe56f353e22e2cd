# Verified model of the agent engine, the file sync and their bounded memories

A Dafny 4.11 model of the stateful cores of the repository, with proofs of what they
keep over whole runs. `dafny verify dfyconfig.toml` checks the project.

| file | models |
|---|---|
| `Prelude.dfy` | options, bytes, small facts about sets |
| `QueryLoop.dfy` | the query loop: state record, streaming, withholding, recovery transitions, tool turns, as pure iteration functions and as the loop itself |
| `QueryStream.dfy` | what a response is made of, told from the stream |
| `QueryOutcomes.dfy` | how iterations and runs end, told from what model, hooks and tools did |
| `QueryRecovery.dfy` | bounded recovery, task budget, turn limit |
| `QueryWithholding.dfy` | withheld errors: how often each message is shown, over streams, iterations and runs |
| `QueryPairing.dfy` | tool uses and tool results stay paired, in requests and in what a consumer sees |
| `QueryEngine.dfy` | the consumer of the loop: two message stores, compaction boundaries, one result per submitted message |
| `QueryStore.dfy` | loop and consumer together: is the store for the next query paired |
| `Scanner.dfy` | the polling watcher both sides of the file sync use |
| `SyncProtocol.dfy` | the two-node sync protocol as interleaved steps, and which steps keep it from echoing |
| `SyncEcho.dfy` | when exactly a synced file is sent back |
| `SyncStorm.dfy` | how many frames the protocol can produce once users stop editing |
| `SyncMirror.dfy` | convergence when one side writes, exactly |
| `SyncDivergence.dfy` | runs with one writer after which the folders disagree |
| `SyncRuns.dfy` | stretches of concrete runs the examples are made of |
| `SyncNode.dfy` | one side's code in its own imperative form, tied to the protocol's steps |
| `Chunks.dfy` | splitting and reassembling big files |
| `PromptHistory.dfy` | the prompt history: buffer, flush under a lock, undo, reading |
| `References.dfy` | placeholders for pasted content: printing, parsing, expanding |
| `BridgeMessaging.dfy` | the bounded id set and the ingress router built on it |
| `RateLimit.dfy` | the in-memory sliding window |
| `TurnScheduler.dfy` | user locks and the global semaphore around a turn |
| `UserStore.dfy` | users, names and tokens in one file |
| `CostTracker.dfy` | cost and token accounting through nesting, save and restore |

Code that changes state step by step is a class with methods (`QueryRun`, `Engine`,
`FileWatcher`, `SyncFolder`, `ChunkReceiver`, `HistoryBuffer`, `BoundedUUIDSet`,
`RateLimiter`, `Orchestrator`, `DB`, `Session`). Each method equates the new state with
a specification function of the old one, and the lemmas speak about those functions
over arbitrary runs.

## What the model assumes

* **Query loop.** Model calls, tools, hooks, compaction and attachments are inputs of each
  iteration (`World`). Bounded recovery needs reactive compaction to refuse a second
  attempt (`RefusesTwice`). Pairing needs `Honest` surroundings: a compaction result that
  is itself paired, messages from hooks and attachments without tool blocks, and one
  result per tool use from the tools. Messages carry only what the loop looks at; their
  content is an opaque number.
* **File sync.** Writing a received file and jailing its time is one step; so is the
  callback's handling of one event, and one walk of the tree. Channels are first-in
  first-out and may drop a whole batch. No clock is assumed: local edits may carry any time.
  A file's author is a history variable no code branches on. The gateway's jail entries may be
  collected at any time, and a watcher may start over whenever its last batch is
  done: on the gateway with every web connection, on the bridge with its process,
  which loses its jail and its connection. Convergence assumes that edits are newer than
  the last scan of their file and that nothing sent to the gateway is lost; its corollaries
  `MirrorsUpToPlaceholders` and `MirrorsWithoutVanishing` also assume that no synced
  file is unsealed (`Guarded`), the first that edits are newer than the last write
  received too. Base64
  (section 4 of RFC 4648) is an inverse pair and therefore invisible.
* **Chunks.** A read fills the buffer unless the file ends, and a streamed file does not
  change; `WrittenRightIffSameCount` and `MixtureIff` say what happens when it does.
* **Prompt history.** An append writes all of a batch or nothing, and a read runs without
  interruption. The file lock admits one flush at a time.
* **Turns.** A started child process ends.
* **User store.** A new user's id has not been used before. A failed write leaves the file as it was.
* **Costs.** Amounts are exact reals. The price of an advisor's usage comes with it.

## Results that differ from what the code's comments promise

* Synced content can be sent back. It is exactly while a file is neither in jail at its
  time nor recorded by a scan (`EchoesIffUnsealed`). Two steps can bring that about:
  collecting a jail entry before a scan has seen the file (`EarlyExpiryEchoes`), and a
  watcher that starts from nothing while the file is not in jail: on the gateway with a
  new web connection after the entry has been collected (`ReconnectEchoes`), on the
  bridge with its process (`RestartEchoesIffNotInJail`). Without these a file that vanishes between a
  scan and its callback is still sent as an empty file (`PlaceholderIffVanished`), and
  since removals are not jailed (`RemovalsAreReturned`) one such file can start an
  endless exchange (`ScratchFileStarts`). `FramesBounded` gives the account.
* One writer does not always get a copy. `GatewayMirrorsBridge` says exactly when: the
  files in doubt are those in jail at their time on the bridge: what the gateway has sent
  back, and edits no newer than that.
  A placeholder can bring a deleted file back to the bridge (`DeletedFileComesBack`),
  replace a new one (`RecreatedFileIsLost`), or hide a removal for good
  (`MissedRemovalStays`). A web client that reconnects after a file's jail entry has been
  collected can undo an edit that is on its way: the bridge ends with the old content,
  the gateway with the new one (`ReconnectLosesEdit`).
* `session.go` announces that pending chunks are collected, but its code collects jail
  entries only. After a stream that was cut short a complete one of a file that has lost
  chunks is never written, and of one that has gained chunks only the beginning is
  (`WrittenRightIffSameCount`).
* In the repository's reactive-compaction module the withholding test always answers no. With
  the module present an unrecovered prompt-too-long error is then shown twice
  (`UnwithheldErrorShownTwice`).
* The image-error exit of the loop leaves tool uses unanswered (`ImageErrorLeavesUsesOpen`).
* The engine ignores tombstones, so a response withdrawn in the middle of a stream leaves its
  tool uses unanswered in the store for the next query (`StorePairedIffNothingWithdrawn`).
* The structured-output limit counts calls of messages dropped by compaction as credit
  (`RetryCountIsReceivedLessDropped`, `TruncationGivesCredit`).
* Undoing an entry hides every line of the session with the same millisecond (`HiddenExactly`).
* The rate limiter equals the full history only while cutoffs do not fall
  (`CountsLikeFullHistory`, `ShorterWindowForgets`).
* A cost reset in the middle of a turn makes the turn's token count negative (`ResetMidTurn`).

## Model

| member | source | states |
|---|---|---|
| QueryLoop.QueryRun.StreamAttempt | server-side/engine/src/query.ts:654-868 | one streaming attempt of any items equals the item-by-item fold: withheld errors, tombstones after a fallback, tool uses collected |
| QueryLoop.QueryRun.YieldMissingToolResultBlocks | server-side/engine/src/query.ts:123-149 | one synthetic error result per tool use of every given assistant message, in order, and nothing else |
| QueryLoop.QueryRun.Respond | server-side/engine/src/query.ts:893-950 | every attempt that switched models is answered in full and announced before the next one starts afresh |
| QueryLoop.QueryRun.Decide | server-side/engine/src/query.ts:955-1060 | what follows the stream: thrown errors, aborts, the no-tool path and the tool path, with the new state record or the terminal reason |
| QueryLoop.QueryRun.FinishTurn | server-side/engine/src/query.ts:1062-1361 | the no-tool path: reactive compaction, escalation, recovery, surfacing, stop hooks and token budget, branch by branch |
| QueryLoop.QueryRun.CollectToolResults | server-side/engine/src/query.ts:1363-1411 | all tool updates are shown and exactly those that normalize to user messages are kept; a stopping attachment is noticed wherever it is |
| QueryLoop.QueryRun.ExecuteTools | server-side/engine/src/query.ts:1485-1730 | the tool path: interruption, stop by hook, turn limit, and the state of the next turn |
| QueryLoop.QueryRun.Iteration | server-side/engine/src/query.ts:307-650 | one pass through the loop body has exactly the effect of the iteration function on state, output and reason |
| QueryLoop.QueryRun.Run | server-side/engine/src/query.ts:307-1731 | the `while (true)` loop over any stretch of outside behaviour is the repeated iteration function |
| QueryStream.AttemptTells | server-side/engine/src/query.ts:654-868 | whatever one attempt streams: it is left with all assistant messages, or after a fallback only with one that came last; the consumer has seen the contents in order; tombstoned and kept messages together are all that were streamed, in order |
| QueryStream.ResponseTells | server-side/engine/src/query.ts:650-950 | a whole response, through any attempts and fallbacks, told from what was streamed: its messages, its tool uses, whether to follow up, and all that was shown |
| QueryStream.MissingResultsAnswer | server-side/engine/src/query.ts:123-149 | one error result for each tool use of the given messages, in order |
| QueryOutcomes.StopsIff | server-side/engine/src/query.ts:628-1712 | the run ends with an iteration for a reason if and only if the table of reasons, in terms of what model, hooks and tools did, says so |
| QueryOutcomes.GoesOnIff | server-side/engine/src/query.ts:1062-1730 | the loop goes round again by a transition if and only if the table of transitions says so |
| QueryOutcomes.CleanAnswer | server-side/engine/src/query.ts:1270-1360 | a clean answer goes on if and only if no hook prevents it and there are blocking errors or the token budget asks for more, with the errors or the nudge at the end of the conversation; it is prevented or completed exactly otherwise |
| QueryOutcomes.NextCounters | server-side/engine/src/query.ts:1152-1730 | recovery count, turn count, compaction guard, output override and hook flag after each transition |
| QueryOutcomes.NextMessages | server-side/engine/src/query.ts:1152-1730 | the conversation after each transition: the request, the surviving response, and recovery message, hook errors, nudge, or tool results and attachments |
| QueryOutcomes.RequestIs | server-side/engine/src/query.ts:365-535 | the request is the summary if compaction ran, and otherwise all from the last compact boundary on, contents replaced only where the result budget says so |
| QueryOutcomes.ShownIs | server-side/engine/src/query.ts:628-1730 | an iteration shows its response and then just what its situation calls for: errors, results, hook and tool messages, attachments, interruption or turn-limit notice |
| QueryOutcomes.RunEnds | server-side/engine/src/query.ts:307-1731 | a run that ends for a reason ends in an iteration the table gives that reason for, and one without a reason went on throughout |
| QueryOutcomes.CompletedMeans | server-side/engine/src/query.ts:1264-1360 | a run that ends `completed` ends with a clean answer without blocking errors and budget continuation, or with an error |
| QueryOutcomes.BlockingErrorsReachModel | server-side/engine/src/query.ts:1285-1306 | in any run, after a clean answer that stop hooks blocked the next request ends with the hooks' errors |
| QueryOutcomes.HookFlag | server-side/engine/src/query.ts:1270-1306 | stop hooks are told they are active exactly if the last transition other than tool turns was a blocking |
| QueryOutcomes.TurnLimitMet | server-side/engine/src/query.ts:1679-1712 | a run ends by the turn limit only when just that many turns have been taken |
| QueryOutcomes.TurnLimitFromStart | server-side/engine/src/query.ts:268-279 | from the start of a query that is the first turn and one less than the limit of tool turns |
| QueryRecovery.RetryBurnsFuel | server-side/engine/src/query.ts:1122-1255 | every retry lowers the remaining fuel, compaction at most once, recovery one step at a time, escalation only with the override unset |
| QueryRecovery.BoundedRecovery | server-side/engine/src/query.ts:1122-1255 | a stretch of retries has at most nine: one compaction, three recoveries, five escalations |
| QueryRecovery.NoLongRetryWindow | server-side/engine/src/query.ts:1122-1255 | in any run, between two other transitions there are at most nine consecutive retries |
| QueryRecovery.CompactionsApart | server-side/engine/src/query.ts:1155-1166 | in any run, between two reactive compactions lies a completed tool turn or a token-budget continuation, stop-hook retries notwithstanding |
| QueryRecovery.NineRetries | server-side/engine/src/query.ts:1122-1255 | the bound is met under its own hypothesis: a run of exactly nine retries with one compaction and none asked for again |
| QueryRecovery.ErrorsSkipHooks | server-side/engine/src/query.ts:1171-1267 | a response ending in an API error is retried or ends the run; it never reaches stop hooks or the token budget |
| QueryRecovery.NoDeathSpiral | server-side/engine/src/query.ts:1171-1267 | a run in which every response ends in an error stops within ten iterations |
| QueryRecovery.FallbackKeepsLastOnly | server-side/engine/src/query.ts:657-740 | the fallback flag of an attempt is never cleared, so of what arrives after a fallback only the last message survives |
| QueryRecovery.TaskBudgetAddsUp | server-side/engine/src/query.ts:504-515 | over any run the task budget left is the total less all compacted context, never negative, unset before the first compaction |
| QueryRecovery.TaskBudgetFromStart | server-side/engine/src/query.ts:282-291 | from the start of a query the budget is unset before the first compaction and afterwards the total less all compacted context |
| QueryRecovery.TurnLimit | server-side/engine/src/query.ts:1679-1730 | the turn count is one more than the tool turns taken and never exceeds a set limit |
| QueryPairing.PairedAppend | server-side/engine/src/query.ts:1716-1730 | a paired transcript followed by a response and then exactly its results is paired |
| QueryPairing.IterationKeepsReady | server-side/engine/src/query.ts:1716-1730 | every state the loop continues with is ready for a paired request |
| QueryPairing.TranscriptPairing | server-side/engine/src/query.ts:307-1731 | over any run every request to the model has, for each tool id, as many results as uses, no result before its use, and every use answered before the next response begins |
| QueryPairing.NextAppends | server-side/engine/src/query.ts:1226-1350 | an iteration that goes on without compacting appends to the request exactly what its transition promises |
| QueryPairing.ConversationGrows | server-side/engine/src/query.ts:307-1731 | over any run without compaction the conversation at its start is a prefix of the one at its end |
| QueryPairing.IterationSettles | server-side/engine/src/query.ts:897-1060 | what one iteration shows leaves no tool use open, except exactly the last response's after a thrown image error |
| QueryPairing.ConsumerPairing | server-side/engine/src/query.ts:1018-1054 | over a whole run every shown tool use is answered by a shown result or withdrawn |
| QueryPairing.ImageErrorLeavesUsesOpen | server-side/engine/src/query.ts:970-981 | the image-error exit leaves an id unanswered exactly as often as the response used it |
| QueryWithholding.ResponseShows | server-side/engine/src/query.ts:657-868 | through all attempts and fallbacks a response shows an assistant message as often as compaction kept it and, unless withheld, as often as the model sent it |
| QueryWithholding.IterationShows | server-side/engine/src/query.ts:307-1731 | one iteration shows an assistant message as often as compactions kept it, the model sent it unwithheld, and once more if it ends the run by surfacing it |
| QueryWithholding.WithheldErrorRetriedOrShown | server-side/engine/src/query.ts:1062-1268 | in any iteration a withheld error that ends the response leads to one retry, or is shown as the last thing, ends the run, and is nowhere before it save in what compaction kept |
| QueryWithholding.WithheldErrorLost | server-side/engine/src/query.ts:955-1060 | in any iteration a withheld last error is retried or shown if and only if the stream finished without abort and without tool use; otherwise nothing is seen of it |
| QueryWithholding.UnwithheldErrorShownTwice | server-side/engine/src/query.ts:1073-1178 | in any response ended by an unrecovered prompt-too-long error it is shown once if the withholding test knows it, otherwise once more than the model sent it |
| QueryWithholding.FinalErrorShown | server-side/engine/src/query.ts:801-831 | how often the error a response ends with is shown, kind by kind: recoverable ones once when the run ends and not at all on a retry, others as often as sent |
| QueryWithholding.OutputErrorShownWhenExhausted | server-side/engine/src/query.ts:1191-1259 | a max_output_tokens error is shown only with the recovery count at its limit, compaction output apart |
| QueryWithholding.RunShows | server-side/engine/src/query.ts:307-1731 | over a whole run an assistant message is shown as often as compactions kept it, the model sent it unwithheld, and once more if the run ended on it |
| QueryWithholding.WithheldShownOnlyAtTheEnd | server-side/engine/src/query.ts:801-831 | over a whole run a withheld error is shown, apart from what compactions kept, exactly once if the run ended on it and otherwise not at all |
| QueryEngine.Engine.RecordMessage | server-side/engine/src/QueryEngine.ts:691-760 | before the switch: the transcript takes assistant, user and boundary messages, the input is acknowledged once, user messages count turns |
| QueryEngine.Engine.DispatchMessage | server-side/engine/src/QueryEngine.ts:762-993 | the switch over message types on both stores, the stop reason and the output |
| QueryEngine.Engine.ReleaseBeforeBoundary | server-side/engine/src/QueryEngine.ts:942-955 | both stores keep exactly their last message, the boundary |
| QueryEngine.Engine.SubmitMessage | server-side/engine/src/QueryEngine.ts:433-1181 | one submitted message, with or without a query, changes stores and output as the event-by-event fold says |
| QueryEngine.StoresAgree | server-side/engine/src/QueryEngine.ts:679-993 | after every event `messages` equals `mutableMessages` without the unrecorded messages of this call, across truncations |
| QueryEngine.SameLastTurnMessage | server-side/engine/src/QueryEngine.ts:1083-1085 | both stores agree on the last assistant or user message |
| QueryEngine.ConsumeIsAfterPlusResult | server-side/engine/src/QueryEngine.ts:679-1181 | a run is its handled events followed by one result |
| QueryEngine.ExactlyOneResult | server-side/engine/src/QueryEngine.ts:679-1181 | every run shows exactly one result, last; success and execution error only after all events; the turn count in it is right |
| QueryEngine.ResultIs | server-side/engine/src/QueryEngine.ts:872-1158 | the result of every run: the first limit met (turn attachment, budget, structured-output calls) decides it; otherwise success if and only if the last assistant or user message ends in text or thinking, or has tool results only, or the model said end_turn; it is an error only for an API error message; turn count and stop reason are those of the events |
| QueryEngine.SameVerdict | server-side/engine/src/QueryEngine.ts:1083-1085 | the conversation store and the transcript give the same verdict |
| QueryEngine.OutputIs | server-side/engine/src/QueryEngine.ts:740-993 | the whole output before the result: init, then event by event acknowledgements, shown messages, replays, boundaries, retries, partials and summaries, in order |
| QueryEngine.OutputTellsEvents | server-side/engine/src/QueryEngine.ts:740-812 | after every event the input is acknowledged once exactly if a transcript message has come, the client has seen exactly the assistant, user and progress messages in order, and the stop reason is the latest |
| QueryEngine.RetryCountIsReceivedLessDropped | server-side/engine/src/QueryEngine.ts:1029-1036 | the count compared with the retry limit is the calls received less those dropped at truncating boundaries, and is the calls received exactly if none were dropped |
| QueryEngine.RetryLimitMet | server-side/engine/src/QueryEngine.ts:1029-1046 | a user message ends the run exactly when the calls received less those dropped reach the limit |
| QueryEngine.TruncationGivesCredit | server-side/engine/src/QueryEngine.ts:942-955 | after the last truncation of any run only the calls received since are counted, and the limit ends the run once they reach the limit plus all calls the query began with |
| QueryStore.StoreIsOpenPlusWithdrawn | server-side/engine/src/QueryEngine.ts:762-798 | after any events the uses unanswered in the engine's store are those open since the last boundary plus those withdrawn by a tombstone since |
| QueryStore.StorePairedIffNothingWithdrawn | server-side/engine/src/QueryEngine.ts:679-798 | after a run of the loop the store handed to the next query is paired on an id if and only if no use of it was withdrawn by a tombstone since the last boundary |
| QueryStore.StoreAfterEarlyExit | server-side/engine/src/QueryEngine.ts:872-1080 | a run left early at a budget or limit adds the uses then open |
| Scanner.FileWatcher.Scan | client-side/linkstar-bridge/file_watcher.go:73-126 | one scan emits exactly the difference to the last good snapshot, each path once, removals last; a failed walk changes nothing |
| Scanner.FileWatcher.Start | client-side/linkstar-bridge/file_watcher.go:47-67 | all batches since the start, replayed over nothing, give exactly the paths of the current snapshot |
| Scanner.CollectedIs | client-side/linkstar-bridge/file_watcher.go:76-96 | a walk collects exactly the files found, each with the time it was found with |
| Scanner.BatchIs | client-side/linkstar-bridge/file_watcher.go:97-126 | a batch names as created, written and removed exactly the new, the newer and the gone paths |
| Scanner.ReplayDiff | server-side/gateway/orchestrator/watcher.go:73-134 | replaying one batch turns the old path set into the new one |
| Scanner.ScanReplay | server-side/gateway/orchestrator/watcher.go:73-134 | over any mix of good and failed scans the replayed events give exactly the paths of the last good one |
| Scanner.RisingTimeIsReported | client-side/linkstar-bridge/file_watcher.go:97-105 | a path whose time rises between two good scans is named by a content event, however many scans fail in between |
| Scanner.OlderReplacementIsInvisible | client-side/linkstar-bridge/file_watcher.go:100-105 | a changed file goes unreported if and only if its time stamp did not rise |
| SyncNode.SyncFolder.WriteFrame | client-side/linkstar-bridge/main.go:253-292 | writing a received frame and jailing its time, or removing without jailing, or on a fault nothing |
| SyncNode.SyncFolder.WriteBatch | client-side/linkstar-bridge/main.go:200-207 | a batch of frames is written in order, and a failing one does not stop the rest |
| SyncNode.SyncFolder.OnChangeBatch | server-side/gateway/gateway/websocket.go:420-448 | the watcher callback yields exactly the frames of the event-by-event filter of the protocol |
| SyncNode.SyncFolder.Poll | client-side/linkstar-bridge/file_watcher.go:73-126 | a tick compares what the walk saw with the snapshot and runs the callback over the difference: a Walk step and its Filter steps, or nothing if the walk fails |
| SyncNode.SyncFolder.GCSyncState | server-side/gateway/orchestrator/session.go:203-212 | jail collection drops exactly the entries older than the limit |
| SyncProtocol.DrainIsFiltering | client-side/linkstar-bridge/main.go:142-171 | the callback over a batch is a run of single Filter steps |
| SyncNode.BatchIsDelivering | client-side/linkstar-bridge/main.go:200-207 | writing a batch is a run of single Deliver steps of the protocol |
| SyncProtocol.StepKeepsEchoFree | server-side/gateway/gateway/websocket.go:408-455 | every step of either side keeps all files genuine, foreign files sealed and gathered frames own, if and only if it is guarded: no unsettled collection, no restart over files not in jail |
| SyncProtocol.RestartKeepsNodeOk | server-side/gateway/gateway/websocket.go:408-408 | a new watcher with an empty snapshot keeps a side echo-free exactly if every file from the other side is in jail at its time |
| SyncProtocol.NoEcho | client-side/linkstar-bridge/main.go:142-171 | in every state reached by guarded steps each content frame carries exactly the data of an edit of its sender to that path, nothing if over 10 MiB, or is the empty placeholder of a vanished file |
| SyncProtocol.PlaceholderIffVanished | client-side/linkstar-bridge/main.go:158-170 | in every reachable state a placeholder is sent exactly when the file is gone by the time the callback looks, or is an unsealed placeholder itself; in runs of guarded steps exactly when it is gone |
| SyncEcho.EchoesIffUnsealed | client-side/linkstar-bridge/main.go:147-156 | in any state a side sends a synced file back by itself if and only if the file is neither in jail at its time nor recorded by a scan |
| SyncEcho.CollectionEchoesIffUnsettled | server-side/gateway/orchestrator/session.go:203-212 | collecting the jail entry of a synced file leads to an echo exactly if the file was not settled |
| SyncEcho.RestartEchoesIffNotInJail | server-side/gateway/gateway/websocket.go:408-408 | starting a watcher over leads to an echo of a synced file exactly if the file is not in jail at its time |
| SyncEcho.EarlyExpiryEchoes | server-side/gateway/orchestrator/session.go:203-212 | reachable: a file arrives, its entry is collected before a scan has seen it, and it is sent back |
| SyncEcho.ReconnectEchoes | server-side/gateway/gateway/websocket.go:399-408 | reachable after guarded steps only: a settled entry is collected, a web client reconnects, and the file is sent back |
| SyncProtocol.CollectionKeepsNodeOk | server-side/gateway/orchestrator/session.go:203-212 | collecting any set of entries keeps a side echo-free if and only if each collected file from the other side is settled |
| SyncProtocol.RemovalsAreReturned | client-side/linkstar-bridge/main.go:262-265 | a received removal is sent back by the next scan exactly if a scan had recorded the path |
| SyncStorm.StepPays | client-side/linkstar-bridge/main.go:142-171 | every step but a local edit pays for its frame out of the potential and its charge: vanishing 2, early collection 4, restart 2 per file |
| SyncStorm.FramesBounded | server-side/gateway/gateway/websocket.go:408-455 | after the last local edit the frames produced are between the vanishings and the potential plus the charges |
| SyncStorm.OnlyVanishingsCharged | server-side/gateway/gateway/websocket.go:408-455 | while watchers run on and settled entries only are collected, the charges are twice the vanishings |
| SyncStorm.RallyGoesOn | client-side/linkstar-bridge/main.go:158-170 | two sides can return a placeholder and its removal as often as one likes |
| SyncStorm.ScratchFileStarts | client-side/linkstar-bridge/main.go:158-170 | one scratch file deleted before its callback starts an unbounded exchange without further user action |
| SyncMirror.StepKeepsMirrored | server-side/gateway/gateway/websocket.go:326-366 | with one writer every step, early collections and restarts included, keeps the gateway, with what is on its way, in step with all of the bridge that is scanned and not in jail, up to the removals missed |
| SyncMirror.GatewayMirrorsBridge | server-side/gateway/gateway/websocket.go:326-366 | with one writer, whenever the bridge has caught up the gateway holds a copy of every bridge file that is not in jail at its time, and of the other paths just those whose removal was missed; it mirrors the bridge iff it also holds a copy of the files in jail and nothing missed remains |
| SyncMirror.GatewayHoldsData | server-side/gateway/gateway/websocket.go:438-444 | byte for byte: with one writer, whenever the bridge has caught up, the gateway holds the very data of every bridge file of at most 10 MiB that is not in jail, and an empty file for a bigger one |
| SyncMirror.MirrorsWhileSilent | server-side/gateway/gateway/websocket.go:408-447 | while the gateway's callback sends no content, every bridge file is copied once the bridge has caught up, and the gateway mirrors the bridge iff no removal missed by a restarted bridge remains |
| SyncMirror.MirrorsUpToPlaceholders | server-side/gateway/gateway/websocket.go:326-366 | in runs of guarded steps with edits newer than the last write received, every file of the bridge's user is copied, and the gateway mirrors the bridge iff it holds an empty file wherever the bridge holds a placeholder and nothing missed remains |
| SyncMirror.MirrorsWithoutVanishing | server-side/gateway/gateway/websocket.go:326-366 | in runs of guarded steps (no unsettled collection, no restart over files not in jail), while no file vanishes under the gateway's callback and no restart overlooks a removal, the gateway mirrors the bridge whenever the bridge has caught up |
| SyncDivergence.DeletedFileComesBack | server-side/gateway/gateway/websocket.go:435-447 | a run with one writer after which the bridge holds its deleted file again, empty, and the gateway nothing |
| SyncDivergence.RecreatedFileIsLost | server-side/gateway/gateway/websocket.go:435-447 | a run with one writer after which the bridge's newly created file is empty and only the gateway has its content |
| SyncDivergence.MissedRemovalStays | client-side/linkstar-bridge/main.go:147-156 | a run with one writer after which the bridge holds nothing and the gateway keeps the file |
| SyncDivergence.ReconnectLosesEdit | server-side/gateway/gateway/websocket.go:399-408 | a run with one writer, in which nothing vanishes, after which a web reconnect has put the old content back on the bridge, only the gateway has the user's edit, and the jail keeps both sides from telling |
| Chunks.StreamFileChunks | client-side/linkstar-bridge/main.go:361-420 | the stream is the prefix of the file's chunks that can be read and that the connection accepts, from ceil-division count and short last read |
| Chunks.SplitIsExact | client-side/linkstar-bridge/main.go:376-418 | the chunks of a file: numbered, each telling their number, all but the last of 1048576 bytes, none empty but for an empty file, and together the file |
| Chunks.FileReader.Read | client-side/linkstar-bridge/main.go:394-402 | a read fills the buffer with the next piece of the file and reports its end |
| Chunks.ChunkReceiver.Receive | server-side/gateway/gateway/websocket.go:236-282 | one received chunk updates the pending assemblies and writes the joined content exactly on completion |
| Chunks.FullAssembly | server-side/gateway/gateway/websocket.go:257-267 | as many chunks of the file as expected means all of them, and joined they are the file |
| Chunks.CompletedMeansFile | server-side/gateway/gateway/websocket.go:244-272 | for any interleaving, repetition or loss of frames of unchanged files every completed assembly writes exactly its file |
| Chunks.CompleteStreamWrites | server-side/gateway/gateway/websocket.go:244-272 | once every chunk of a file has arrived in any order amid other frames, the file has been written |
| Chunks.StallsIff | server-side/gateway/gateway/websocket.go:246-257 | frames of a path in assembly, whatever they hold, write nothing if and only if their indices and those held are fewer than the expected count |
| Chunks.NoCountNoFile | server-side/gateway/gateway/websocket.go:246-257 | a path whose first frame announces a count of zero or less is never written, whatever follows |
| Chunks.StreamAfterBrokenOff | server-side/gateway/gateway/websocket.go:246-272 | after a broken-off stream a complete stream of the file as it is now writes nothing if it has fewer chunks than before, otherwise its first chunks, as many as before |
| Chunks.WrittenRightIffSameCount | server-side/gateway/gateway/websocket.go:246-272 | for files of all sizes: it stalls iff the file has lost chunks, is written right iff the number of chunks is unchanged, and a grown file is cut off |
| Chunks.MixtureIff | server-side/gateway/gateway/websocket.go:244-272 | of frames of two versions with equally many chunks, in any order, one file is written, and it is the newer version iff its piece came last at every index |
| Chunks.ChangedFileMixes | server-side/gateway/gateway/websocket.go:246-255 | an instance: two overlapping two-chunk streams assemble a mixture |
| Chunks.ShrunkFileStalls | server-side/gateway/gateway/websocket.go:246-257 | an instance: three chunks before, two now |
| Chunks.GrownFileIsCut | server-side/gateway/gateway/websocket.go:246-257 | an instance: two chunks before, three now |
| PromptHistory.HistoryBuffer.AddToPromptHistory | server-side/engine/src/history.ts:355-409 | the new entry goes to the end of the buffer and becomes the one to undo |
| PromptHistory.HistoryBuffer.TakeBatch | server-side/engine/src/history.ts:315-316 | with the lock held the whole buffer becomes the batch in flight |
| PromptHistory.HistoryBuffer.AppendBatch | server-side/engine/src/history.ts:318-321 | the batch ends on disk, or on failure is gone |
| PromptHistory.HistoryBuffer.RemoveLastFromHistory | server-side/engine/src/history.ts:453-464 | the undo takes the last occurrence out of the buffer, else skips the timestamp, once |
| PromptHistory.HistoryBuffer.ReadEntries | server-side/engine/src/history.ts:106-130 | a read yields the buffer backwards and then the unskipped lines of the file backwards |
| PromptHistory.StepConserves | server-side/engine/src/history.ts:281-353 | every step keeps: disk, in flight and pending, in order, are what was added less what was undone in the buffer, lost or cleared |
| PromptHistory.RunConserves | server-side/engine/src/history.ts:281-464 | conservation in every state a process reaches from its start by adds, flushes, failures, undos, clears, foreign lines and session switches |
| PromptHistory.UndoneForGood | server-side/engine/src/history.ts:453-464 | after any run from the start: no later read of its session returns the entry undone, wherever it had got to, as long as nothing is cleared |
| PromptHistory.UndoIsOfNewest | server-side/engine/src/history.ts:405-464 | an undo is about the entry added last, whatever flushes, failures, foreign lines and session switches came between: that entry is not read again in its session |
| PromptHistory.UndoOnce | server-side/engine/src/history.ts:453-464 | until the next add a second undo, or one after a clear, does nothing |
| PromptHistory.ReadIs | server-side/engine/src/history.ts:106-130 | a read, line by line: the buffer from its end, then from the end of the file every line but those of this session with a skipped timestamp |
| PromptHistory.ForeignLinesKept | server-side/engine/src/history.ts:305-321 | over any run the file holds the foreign lines it held and those appended by other processes, in order; the session is the last switched to |
| PromptHistory.HiddenExactly | server-side/engine/src/history.ts:120-128 | after any run from the start: a line of the file is hidden if and only if it is of the session and shares the timestamp of an entry undone after leaving the buffer |
| PromptHistory.SameMillisecondHidesBoth | server-side/engine/src/history.ts:120-128 | undoing the second of two entries of one millisecond hides the first too |
| PromptHistory.ClearBringsBack | server-side/engine/src/history.ts:436-440 | clearing makes an undone line of the file visible again |
| PromptHistory.ReadReturnsWhatWasAdded | server-side/engine/src/history.ts:106-130 | after any run from the start with distinct times a read returns, newest first, exactly the added entries not undone, in flight, lost or cleared |
| References.MatchLocal | server-side/engine/src/history.ts:65-67 | whether and how a reference matches depends on its own characters only |
| References.MatchShape | server-side/engine/src/history.ts:65-67 | a match holds no opening bracket but its first character |
| References.WrittenIsMatched | server-side/engine/src/history.ts:65-67 | whatever the pattern can write, with any label, number, line count and dots, is matched whole, whatever follows |
| References.MatchedIsWritten | server-side/engine/src/history.ts:65-67 | whatever is matched is written by the pattern |
| References.FindsExactly | server-side/engine/src/history.ts:62-75 | parsing finds a reference if and only if the pattern can write that stretch of the input, at its place and with its positive number |
| References.FormatIsWritten | server-side/engine/src/history.ts:51-60 | a printed reference has the parts it should: label, number and line count read back, dots |
| References.PrintTellsAll | server-side/engine/src/history.ts:51-60 | two placeholders are printed alike only if kind, number and line count are the same |
| References.FormatMatches | server-side/engine/src/history.ts:51-60 | a printed reference is matched whole with its own number, whatever follows |
| References.ParseWoven | server-side/engine/src/history.ts:62-75 | texts and printed references in turn parse to the references in place among what the texts parse to alone |
| References.ParseReturnsThePlaceholders | server-side/engine/src/history.ts:62-75 | exactly the printed references are found if and only if no text holds one itself; texts without a bracket hold none |
| References.ReferencesInPlace | server-side/engine/src/history.ts:62-75 | the found references are in order, do not overlap and are where they say |
| References.InputIsWoven | server-side/engine/src/history.ts:81-100 | gaps and references in turn are the input again |
| References.ExpandPastedTextRefs | server-side/engine/src/history.ts:81-100 | the backwards splice in place equals one pass over the original references from left to right, for all inputs |
| References.ExpandIsSubstitution | server-side/engine/src/history.ts:81-100 | an input around printed references expands to the same text around what was pasted, even if that looks like references |
| BridgeMessaging.BoundedUUIDSet.Add | server-side/engine/src/bridge/bridgeMessaging.ts:441-451 | adding keeps ring, set and history agreeing, evicting exactly the oldest id of a full ring |
| BridgeMessaging.BoundedUUIDSet.Has | server-side/engine/src/bridge/bridgeMessaging.ts:453-455 | the set has an id exactly if it is among the last `capacity` accepted since the last clear |
| BridgeMessaging.BoundedUUIDSet.Clear | server-side/engine/src/bridge/bridgeMessaging.ts:457-461 | clearing forgets everything |
| BridgeMessaging.HandleIngressMessage | server-side/engine/src/bridge/bridgeMessaging.ts:132-208 | which handler gets a message and what is remembered of it, for every kind of message |
| BridgeMessaging.HistoryIsForwarded | server-side/engine/src/bridge/bridgeMessaging.ts:162-197 | the inbound memory is the history of forwarded ids, and none comes back within its window |
| BridgeMessaging.ForwardedAgainOnlyAfter | server-side/engine/src/bridge/bridgeMessaging.ts:162-197 | between two forwards of one id at least `capacity` different other ids were forwarded |
| BridgeMessaging.ForwardedExactlyWhenNew | server-side/engine/src/bridge/bridgeMessaging.ts:162-197 | a user message with an id is forwarded if and only if the id is neither among the last posted nor among the last forwarded |
| BridgeMessaging.WhereMessagesGo | server-side/engine/src/bridge/bridgeMessaging.ts:141-208 | after any run: permission responses and control requests go to their handlers, user messages inwards if they have no id or one in neither window, all else nowhere; only what goes inwards is remembered |
| BridgeMessaging.EchoIsIgnored | server-side/engine/src/bridge/bridgeMessaging.ts:165-175 | a newly posted id that comes back is ignored while fewer than the window's size of other posts have followed |
| RateLimit.RateLimiter.CheckRateLimit | server-side/gateway/orchestrator/rate_limit.go:47-69 | one check prunes, decides and records as specified |
| RateLimit.AcceptedIsLoggedOrPruned | server-side/gateway/orchestrator/rate_limit.go:51-67 | for all calls every accepted hit is in the log or was pruned, counted after any cutoff |
| RateLimit.CountsLikeFullHistory | server-side/gateway/orchestrator/rate_limit.go:51-61 | the pruned log counts as the full history exactly if no pruned hit lies in the window, and never more |
| RateLimit.DecidesLikeFullHistory | server-side/gateway/orchestrator/rate_limit.go:51-67 | with cutoffs that never fall every call is decided as the full history decides |
| RateLimit.DecidesByWindow | server-side/gateway/orchestrator/rate_limit.go:47-68 | with one window and a clock that does not go back a call is let through if and only if fewer than `limit` hits were accepted within the window before it |
| RateLimit.ShorterWindowForgets | server-side/gateway/orchestrator/rate_limit.go:51-67 | a shorter window in between lets a call through that the full history refuses |
| RateLimit.NoWindowOverLimit | server-side/gateway/orchestrator/rate_limit.go:47-68 | every half-open window, ending at any time, holds at most `limit` accepted hits |
| TurnScheduler.Orchestrator.GetUserLock | server-side/gateway/orchestrator/process.go:22-25 | every turn of a user gets the same lock, made unlocked at first use |
| TurnScheduler.Orchestrator.Start | server-side/gateway/orchestrator/process.go:40-46 | a turn without workspace ends at once, another goes for its lock |
| TurnScheduler.Orchestrator.Lock | server-side/gateway/orchestrator/process.go:28-53 | a lock that is free goes to the turn, which moves on to the directory check or to waiting for a slot |
| TurnScheduler.Orchestrator.InitUserDir | server-side/gateway/orchestrator/process.go:27-38 | the directory check releases the lock on every exit |
| TurnScheduler.Orchestrator.Select | server-side/gateway/orchestrator/process.go:57-62 | a slot is taken, or a cancelled turn gives its lock back |
| TurnScheduler.Orchestrator.Release | server-side/gateway/orchestrator/process.go:53-59 | the deferred releases give back the slot and then the lock |
| TurnScheduler.StepKeepsConsistent | server-side/gateway/orchestrator/process.go:17-62 | every step keeps locks and semaphore equal to what the turns hold |
| TurnScheduler.MutualExclusion | server-side/gateway/orchestrator/process.go:51-62 | in every reachable state at most one turn of a user holds its lock and at most fifty run, as the semaphore counts |
| TurnScheduler.NoDeadlock | server-side/gateway/orchestrator/process.go:27-62 | while a turn is unfinished some turn can make a step of its own |
| TurnScheduler.EveryTurnFinishes | server-side/gateway/orchestrator/process.go:40-62 | at most seven steps per turn, and a run that cannot go on has finished every turn and freed every lock and slot |
| TurnScheduler.RanIff | server-side/gateway/orchestrator/process.go:40-62 | a finished turn has run if and only if it had a workspace, its directory was made and it did not give up; only a cancelled turn gives up; what ran has given back slot and lock |
| TurnScheduler.SlotIffFewerThanFifty | server-side/gateway/orchestrator/process.go:57-59 | a turn with its lock can take a slot exactly if fewer than fifty run |
| UserStore.HashInjective | server-side/gateway/orchestrator/user_auth.go:65-67 | two passwords have the same hash only if they are the same |
| UserStore.NormalizeOnce | server-side/gateway/orchestrator/user_auth.go:111 | a normalized name is its own normal form |
| UserStore.SameNameIff | server-side/gateway/orchestrator/user_auth.go:111 | two spellings are one name if and only if they differ in outer blanks and letter case only |
| UserStore.EverySpelling | server-side/gateway/orchestrator/user_auth.go:111 | every text is a name between blanks |
| UserStore.DB.RegisterUser | server-side/gateway/orchestrator/user_auth.go:110-145 | adds user and name under a fresh id unless the normalized name is taken; unreadable or unwritable files change nothing |
| UserStore.DB.LoginUser | server-side/gateway/orchestrator/user_auth.go:147-177 | adds a token for the named user if the hash fits; unknown name and wrong password get the same answer |
| UserStore.DB.ValidateToken | server-side/gateway/orchestrator/user_auth.go:179-194 | answers the user a token maps to, or that it is invalid, and changes nothing |
| UserStore.DB.GetUserByID | server-side/gateway/orchestrator/user_auth.go:197-213 | answers the public part of the user, or that there is none, and changes nothing |
| UserStore.DB.UpdateUser | server-side/gateway/orchestrator/user_auth.go:216-247 | profile update: empty name and email keep the old ones, the avatar is always set |
| UserStore.DB.ChangePassword | server-side/gateway/orchestrator/user_auth.go:250-280 | replaces the hash if the user exists, the old password fits and the new one has four characters, tested in this order |
| UserStore.DB.InvalidateToken | server-side/gateway/orchestrator/user_auth.go:283-300 | removes the token; one already gone is no error and needs no save |
| UserStore.ServeAgrees | server-side/gateway/orchestrator/user_auth.go:110-300 | every operation keeps names and users inverse, tokens owned, and the file in agreement with what clients were told |
| UserStore.HistoryAgrees | server-side/gateway/orchestrator/user_auth.go:110-300 | the same after any history of operations and file failures |
| UserStore.LoginIffLastPassword | server-side/gateway/orchestrator/user_auth.go:147-177 | login succeeds exactly with a registered name and the last password accepted for it |
| UserStore.ValidIffOut | server-side/gateway/orchestrator/user_auth.go:179-194 | a token validates, as its user, exactly if issued and not invalidated |
| UserStore.RegisterIffFree | server-side/gateway/orchestrator/user_auth.go:117-124 | registration succeeds exactly if no user has that normalized name |
| UserStore.RegistrationIsReadBack | server-side/gateway/orchestrator/user_auth.go:110-213 | an accepted registration is read back with its email, logs in in any spelling of the name with its password only, and takes the name in every spelling |
| UserStore.LogoutEndsOneSession | server-side/gateway/orchestrator/user_auth.go:169-297 | logging in again gives another token, and giving it back leaves the first valid |
| UserStore.FailuresAre | server-side/gateway/orchestrator/user_auth.go:110-300 | which error each operation fails with, if and only if |
| UserStore.ChangedPasswordReplaces | server-side/gateway/orchestrator/user_auth.go:250-280 | a change succeeds exactly with the last password and a long enough new one, which then is the only one |
| UserStore.UpdateIsReadBack | server-side/gateway/orchestrator/user_auth.go:197-247 | a profile update is read back, obeys the rules for empty fields and touches no password, name, token or other user |
| UserStore.FailureChangesNothing | server-side/gateway/orchestrator/user_auth.go:140-142 | an operation that fails or cannot save leaves the store as it was |
| CostTracker.Session.AddToTotalModelUsage | server-side/engine/src/cost-tracker.ts:250-276 | the model's record grows by the usage itself |
| CostTracker.Session.AddToTotalSessionCost | server-side/engine/src/cost-tracker.ts:278-323 | a call adds the usage and all nested advisor usage, and returns exactly the increase of the total |
| CostTracker.Session.SaveCurrentSessionCosts | server-side/engine/src/cost-tracker.ts:143-175 | puts totals, per-model usage and counters into the project configuration under the session's id, over any other session's |
| CostTracker.Session.RestoreCostStateForSession | server-side/engine/src/cost-tracker.ts:87-137 | brings back what was saved under exactly this session id, zero for missing parts, and leaves per-model usage alone if none was saved |
| CostTracker.Session.GetTotalOutputTokens | server-side/engine/src/bootstrap/state.ts:708-710 | is the sum of output tokens over all models, in whatever order they are visited |
| CostTracker.Session.GetTurnOutputTokens | server-side/engine/src/bootstrap/state.ts:724-728 | is the total output tokens now less those at the last snapshot |
| CostTracker.SumAddWhole | server-side/engine/src/cost-tracker.ts:303-322 | the sum over all models grows by exactly the whole nested usage |
| CostTracker.EachNumberGrows | server-side/engine/src/cost-tracker.ts:250-322 | each number summed over all models grows by what the usage and all nested usages report of just that number, and the cost by all prices |
| CostTracker.EachModelItsShare | server-side/engine/src/cost-tracker.ts:303-322 | each model is charged its own share of a nested usage and nothing else |
| CostTracker.RunKeepsBalance | server-side/engine/src/bootstrap/state.ts:557-564 | over any operations the total cost equals the sum of the per-model costs |
| CostTracker.RestoreBalances | server-side/engine/src/bootstrap/state.ts:881-910 | a restore of any configuration ends balanced exactly if its parts add up; counters it lacks are zero |
| CostTracker.TurnCountsOutput | server-side/engine/src/bootstrap/state.ts:724-728 | turn tokens are the output added since the snapshot exactly as long as resets and restores have not moved the sum |
| CostTracker.TurnTokensAfterSnapshot | server-side/engine/src/bootstrap/state.ts:733-737 | without reset or restore, turn tokens are the output added since the snapshot |
| CostTracker.ResetMidTurn | server-side/engine/src/bootstrap/state.ts:864-876 | a reset clears totals, usage and counters, and without a new snapshot leaves the turn counting below zero |
| CostTracker.SaveThenRestore | server-side/engine/src/cost-tracker.ts:130-175 | after a save, whatever happens short of another save, restoring that session brings its totals back and any other restore does nothing |

## Left out

- Query loop: streaming tool execution, context collapse, history snipping, tool-use summaries, query tracking, signature stripping, telemetry and the queued-command lookups; the injected services appear as inputs with contracts.
- QueryPairing.TranscriptPairing: pairing is counted per tool id; results stand between their response and the next one, but not in a stated order.
- QueryWithholding.OutputErrorShownWhenExhausted: excepts an error that a compaction shows among the messages it kept; stop hooks, tools and attachments are taken to yield no assistant messages.
- QueryEngine.Engine.SubmitMessage: processing of the user's input, the echo of local command output, the snip callback, usage accumulation, transcript files, the text and structured output of a result, and the expansion of a message into several outputs are not modelled; whether the budget is exceeded after an event is an input.
- QueryEngine.ExactlyOneResult: speaks of runs that do not throw; an exception in the query ends a run without a result.
- Walk steps of the protocol see the folder as it is at one moment, and every file in it can be examined; SyncNode.SyncFolder.Poll does without this.
- SyncProtocol.NoEcho: excepts the empty placeholder of a vanished file, which the code does send, and runs with an unguarded collection or restart, which echo.
- QueryStore.StorePairedIffNothingWithdrawn: runs that end in an image error are left to QueryPairing.ImageErrorLeavesUsesOpen, and streams are taken to bring no compact boundaries.
- SyncStorm.FramesBounded: counts frames of both sides together.
- SyncMirror.GatewayMirrorsBridge: one writer; convergence of two writers is not promised by the protocol. Files over 10 MiB arrive as empty placeholders and are modelled so.
- The session table and the terminal buffer of `session.go`, which would add easy members.
- File sync: path checks, unknown actions, unreadable files that stay on disk, a failing stat right after a write, and two watchers at once while two web clients are connected.
- Chunks.ChunkReceiver.Receive: the jail entry made after writing is the one of SyncNode.SyncFolder.WriteFrame; chunk frames with a negative index or count are possible inputs, but the file system is not modelled.
- PromptHistory: the retry schedule of flushes (any number of flushes at any time is allowed), paste storage, malformed lines, and the date filters of the history picker.
- PromptHistory.HistoryBuffer.ReadEntries: a read interleaved with changes of the buffer is not modelled.
- References.ParseWoven: ids are exact naturals; the rounding of numbers beyond 2^53 - 1 is not modelled.
- References: counting the line breaks of a pasted text, which only computes the number that is printed.
- BridgeMessaging.BoundedUUIDSet.Add: a capacity of zero, where the real ring index becomes NaN, is excluded.
- BridgeMessaging.HandleIngressMessage: parsing, type guards and the handlers behind the routes.
- RateLimit: the Redis counter.
- TurnScheduler: the child process, its output and the idle watchdog; a turn waiting for its user's lock does not notice cancellation, as in the code.
- UserStore.NormalizeOnce: trimming and lower-casing of ASCII only; the code also treats other Unicode letters and spaces.
- UserStore.LogoutEndsOneSession: user ids are of one length, as the UUIDs of the code are, and random parts differ.
- UserStore.DB.ChangePassword: passwords are sequences of bytes, so their length is the code's.
- CostTracker: prices, context-window sizes, wall-clock duration, number formatting and floating-point rounding.
- The consent round trip, sockets, Redis, process spawning, JSON, logging, the command-line interface and the terminal interface.
