# Corivo desktop: verified model of the chat, agent-run and update logic

This project models the stateful core of the Corivo desktop application and its agent sidecar, and
proves what that core promises its users. Each module stands for one component:

- **Chat stream** (`ChatModel`, `LiveFold`, `BlockAccumulation`, `Reload`, `ReloadOrder`,
  `ChatAgreement`, `ChatOutcome`, `StreamingStoreModel`). One event stream is folded twice: into the live message a
  window shows, and into the blocks that go to the database. A reload rebuilds the live shape from
  the blocks, with tool-event objects shared between a flat list and clusters. The two views are
  compared for every stream, across threads and across windows.
- **Correlated calls** (`RpcFraming`, `RpcClientModel`, `BridgeClientModel`, `ComposedSignals`,
  `ToolTimeout`, `CancelRegistryModel`). Clients with a map of pending calls, raced by responses,
  aborts, timeouts, write errors and closes, the deadline around a tool call, and the map of notify
  handles that cancels a running turn. Each is a state machine whose steps are interleaved freely,
  with a class whose methods are proved to take exactly those steps.
- **Context compaction** (`AgentMessages`, `CompactionSafeguard`, `CrossTurnCompaction`). The hard
  truncation of one model round, and summarising passes over an append-only session log.
- **Updates and runs** (`UpdaterStoreModel`, `AgentRunnerModel`, `SidecarMain`). Asynchronous
  operations that interleave at their awaits, and one sidecar run from entry to its last event.
- **Order-sensitive transformations** (`Skills`, `ShellPath`, `RequestRewrite`, `Versions`,
  `ThreadTitle`). Merges, deduplication, extraction, rewriting and ordering laws.
- `Sequences` and `Texts` hold shared vocabulary: first occurrences, trimming, searching, splitting,
  decimal numbers.

Code that changes state is a class or a method with loops, proved against a pure function; the laws
are lemmas about that function. Runs are sequences of events extended at the end, so a statement
about a run is a statement about every prefix of it.

Where the code does not meet the obvious property, the code is kept, the exact condition under which
it does is proved for all inputs, and a lemma shows an input that fails:

- blank text runs on reload: `ChatAgreement.ReloadExact`, `BlankRunWitness`;
- line breaks in the reloaded content: `ChatAgreement.ContentExact`, `ResumedTextWitness`;
- errors that a reload drops: `ChatOutcome.ErrorSurvivesReload`, `ErrorDroppedWitness`;
- calls issued after a socket closed: `RpcClientModel.SettlesAfterClose`, `StrandedCallWitness`;
- a tool that throws synchronously under the deadline: `ToolTimeout.TimeoutSignalExact`,
  `ThrowingToolWitness` (every `execute` in `packages/agent/src` is `async`, so only a tool of the
  coding-agent package, which is not part of this model, could do that);
- overlapping turns on one thread: `CancelRegistryModel.OwnerIsLastRegistered`, `OverlapLosesCancel`;
- a restart prompt lost to another operation: `UpdaterStoreModel.RestartPromptExact`, `RestartPromptLost`;
- skills that overwrite each other silently: `Skills.NothingLostSilently`, `OverwrittenSilently`;
- the label of a collision's winner, always "agent": `Skills.WinnerLabelExact`, `WrongLabel`;
- system texts dropped from a request: `RequestRewrite.SystemTextsKeptExact`, `SystemTextDiscarded`;
- a path that brings a sentinel with it: `ShellPath.ProbeExact`, `OverlappingSentinel`.

Two comments in the code disagree with it, and the model follows the code. `exec_agent.rs` 555-558 says
that a previous turn's handle is harmless once overwritten, but the previous turn's removal takes the
new entry away. `chatgpt-fetch-interceptor.ts` 189-193 calls the hoist a no-op when `instructions` is
populated, but it still removes the system entries.

The table below lists the results first, component by component, and then the methods that take the
steps they are about.

`dafny verify dfyconfig.toml` checks the whole project.

## Model

| member | source | states |
|---|---|---|
| `LiveFold.LiveNormalForm` | apps/desktop/src/hooks/use-chat.ts:687-728 | In every reachable live state no segment is empty and no two neighbours are of one kind. |
| `LiveFold.LiveProjections` | apps/desktop/src/hooks/use-chat.ts:608-647 | The text segments laid end to end are `content` and all text of the stream; the clusters laid end to end are `toolEvents`. |
| `Sequences.FirstOccurrencesOrder` | apps/desktop/src/hooks/use-chat.ts:648-651 | The dedup keeps its survivors in the order in which they first appeared. |
| `LiveFold.LiveCitations` | apps/desktop/src/hooks/use-chat.ts:648-651 | `citedFrameIds` is the first-occurrence dedup of everything cited so far. |
| `LiveFold.LiveToolEvents` | apps/desktop/src/hooks/use-chat.ts:626-647 | The tool events are the stream's calls in order, each with the last result delivered for its id after it: repeated ids share it, a result before its call is lost. |
| `LiveFold.LiveInvariant` | apps/desktop/src/hooks/use-chat.ts:608-728 | All of the above for every stream at once: the whole live message is determined by the stream. |
| `LiveFold.LiveOrder` | apps/desktop/src/hooks/use-chat.ts:608-728 | The timeline shows the non-empty text and the calls of the stream in the stream's own order, each with its own text, id, name and arguments. |
| `LiveFold.LiveState` | apps/desktop/src/hooks/use-chat.ts:608-673 | The message keeps its id and role, streams exactly until the first finish or error event, and shows the last status hint that no later event cleared. |
| `Reload.DeliveredViews` | apps/desktop/src/hooks/use-chat.ts:886-901 | A delivery to the shared objects shows in the flat list and in the clusters alike, as a pure replacement would. |
| `ChatAgreement.RebuildFollows` | apps/desktop/src/hooks/use-chat.ts:753-926 | Reloading after one more event extends the reloaded timeline by that event, whether or not the accumulator opened a new block for it. |
| `ChatAgreement.ReloadAgrees` | apps/desktop/src/hooks/use-chat.ts:608-926 | For every stream, the reloaded tool events are the live ones (results stringified), and the reloaded segments are the live ones once empty texts are squeezed out. |
| `ChatAgreement.CitationsAgree` | apps/desktop/src/hooks/use-chat.ts:648-651 | Both folds cite the same frames in the same order. |
| `ChatAgreement.RunsTracked` | apps/desktop/src/hooks/use-chat.ts:755-766 | The empty texts in a reloaded timeline are exactly the blank stretches of the stream between tool calls. |
| `ChatAgreement.ReloadExact` | apps/desktop/src/hooks/use-chat.ts:608-926 | The reloaded timeline is exactly the live one if and only if no stretch between tool calls has text deltas that are all empty; non-empty deltas are enough for that. |
| `ReloadOrder.BlocksAreTheStream` | apps/desktop/src/hooks/use-chat.ts:753-793 | The stored blocks hold the stream's text, calls, results and citations, each with its own data, in the stream's order. |
| `ReloadOrder.ReloadOrdered` | apps/desktop/src/hooks/use-chat.ts:842-926 | Whatever the blocks, a reloaded timeline shows their text, reasoning and calls in their order. |
| `ReloadOrder.ReloadMerged` | apps/desktop/src/hooks/use-chat.ts:847-910 | No two neighbours of a reloaded timeline are of one kind. |
| `ReloadOrder.ReloadedClusters` | apps/desktop/src/hooks/use-chat.ts:870-901 | The reloaded clusters laid end to end are the reloaded tool events. |
| `ReloadOrder.ReloadedUses` | apps/desktop/src/hooks/use-chat.ts:870-901 | Of any block list: one tool event per use, in order, with its id and name, its stored input unless that is nullish and an empty object then, and the content of the last later result stored for its id. |
| `ReloadOrder.ReloadedCalls` | apps/desktop/src/hooks/use-chat.ts:608-926 | For every stream: reloaded tool event k is the k-th call, with exactly that call's arguments unless they are nullish and an empty object then, and the last later result for its id as it is stored: a string as itself, nullish as the empty string, anything else rendered. |
| `ChatAgreement.BlankRunWitness` | apps/desktop/src/hooks/use-chat.ts:691-691 | Call, empty delta, call: one live segment, three reloaded ones. |
| `ChatAgreement.ContentExact` | apps/desktop/src/hooks/use-chat.ts:849-915 | For every stream the reloaded content equals the live one if and only if no text resumes after some text and a call, a result or a citation. |
| `ReloadOrder.RollupJoinsTexts` | apps/desktop/src/hooks/use-chat.ts:849-915 | The reloaded content of any block list is its texts, without the leading empty ones, joined by line breaks. |
| `ChatAgreement.InkTracked` | apps/desktop/src/hooks/use-chat.ts:753-793 | The accumulated blocks tell from the stream alone whether it has text, whether that text is closed, and whether text resumed after it. |
| `ChatAgreement.StoredIsRollup` | apps/desktop/src-tauri/src/db/repos/chat.rs:1036-1053 | The plain text stored beside the blocks is the same rollup when there are no reasoning blocks. |
| `ChatAgreement.ResumedTextWitness` | apps/desktop/src/hooks/use-chat.ts:856-856 | Text, call, text: the reload inserts a line break that live does not show. |
| `ChatOutcome.LiveErrorFollows` | apps/desktop/src/hooks/use-chat.ts:654-670 | The live error is the last error event's message, else the fallback if some finish had reason error, else none. |
| `ChatOutcome.AccumulatedOutcome` | apps/desktop/src/hooks/use-chat.ts:795-814 | The accumulator remembers the last error event, the reason of the last finish and whether any finish was a cancel. |
| `ChatOutcome.StoredOutcome` | apps/desktop/src/hooks/use-chat.ts:472-520 | For every stream and every rejection of the send: stored as an error, as cancelled or as complete exactly under the stated conditions on the stream, with the rejection or else the last error event as its message. |
| `ChatOutcome.ReloadedErrorExact` | apps/desktop/src/hooks/use-chat.ts:917-924 | A reloaded message shows an error exactly when its stored status is one: the stored message, or the stock one when there is none. |
| `ChatOutcome.RejectedSend` | apps/desktop/src/hooks/use-chat.ts:472-506 | A rejected send ends the live message with the rejection as its error and keeps its text, timeline and tool events; without a rejection nothing changes. |
| `ChatOutcome.ErrorSurvivesReload` | apps/desktop/src/hooks/use-chat.ts:472-506 | The reloaded message shows the live error if and only if: for a rejected send, its message is not empty or the stream would be stored as an error anyway; otherwise no finish anywhere in the stream is a cancel and the last error is not empty, or there is no error event and no failed finish. |
| `ChatOutcome.ErrorDroppedWitness` | apps/desktop/src/hooks/use-chat.ts:498-506 | An error followed by a cancelled finish: live shows it, the reload shows none. |
| `ChatOutcome.MergedShowsEachOnce` | apps/desktop/src/hooks/use-chat.ts:345-355 | The merged list shows each id once, keeps every persisted row, and hides a live row only behind a persisted one. |
| `StreamingStoreModel.MapMessages` | apps/desktop/src/hooks/use-chat.ts:615-673 | Only messages with the addressed id change. |
| `StreamingStoreModel.ThreadLocality` | apps/desktop/src/stores/streaming-store.ts:50-114 | In any interleaving of actions, received and mirrored events over many threads, a thread's bucket is the result of its own items alone. |
| `StreamingStoreModel.BucketExact` | apps/desktop/src/stores/streaming-store.ts:50-114 | After any actions on a thread its bucket exists exactly when it was opened since the last clear, and messages, flag and error are what was last said of each. |
| `StreamingStoreModel.SenderShowsLive` | apps/desktop/src/hooks/use-chat.ts:449-470 | After every prefix of a stream the sending window's bucket is the live fold of that prefix. |
| `StreamingStoreModel.MirrorShowsLive` | apps/desktop/src/hooks/use-chat.ts:119-159 | From no bucket or a stale one, a mirroring window holds the same live fold after every non-empty prefix. |
| `StreamingStoreModel.FallbackOnlyInError` | apps/desktop/src/hooks/use-chat.ts:654-663 | Windows with different fallback texts can differ only in the error shown. |
| `StreamingStoreModel.WindowsAgree` | apps/desktop/src/hooks/use-chat.ts:119-159 | Amid arbitrary other traffic both windows show the live fold, and their buckets are equal if and only if the fallback texts are, or no fallback is on screen. |
| `RpcFraming.LinesSplit` | packages/agent/src/rpc.ts:81-87 | Framing a stream in two parts is framing it whole, with the unfinished line carried over. |
| `RpcFraming.NextFrame` | packages/agent/src/rpc.ts:84-87 | Cutting at the first newline takes exactly the first line and leaves the framing of the rest. |
| `RpcFraming.LinesExact` | packages/agent/src/rpc.ts:84-87 | The lines and the unfinished rest, joined by newlines, are the stream, and no line has a newline inside. |
| `RpcFraming.FramesExact` | packages/agent/src/rpc.ts:88-89 | One frame for each line that is not blank, in order: that line without its outer spaces. |
| `RpcFraming.CarriageReturnIgnored` | packages/agent/src/rpc.ts:84-89 | Lines that end in a carriage return and a newline dispatch the same frames. |
| `RpcClientModel.StepKeepsInv` | packages/agent/src/rpc.ts:81-201 | Every step keeps: the pending keys are exactly the issued calls without outcome, a live timer or listener belongs to one of them, the buffer holds no complete line, and without a socket no pending call was written. |
| `RpcClientModel.RunKeepsInv` | packages/agent/src/rpc.ts:81-201 | The same in every interleaving. |
| `RpcClientModel.SocketExact` | packages/agent/src/rpc.ts:55-116 | In every run there is a socket iff some connect succeeded with no close after it. |
| `RpcClientModel.WhatCanHappen` | packages/agent/src/rpc.ts:55-200 | After any run, exactly: a new connect when the last attempt failed or there was none; a call under a new id once a connect has succeeded, even after the close; data and a close while the connection is open; an abort or a timeout on a pending call that asked for it; a write error on a call issued on an open connection, however it was settled. |
| `RpcClientModel.AttemptExact` | packages/agent/src/rpc.ts:55-79 | In every run the connect promise is absent, pending or resolved as the last attempt says. |
| `RpcClientModel.CallExact` | packages/agent/src/rpc.ts:122-200 | In every run a call was written iff the connection was open when it was issued, and has its timer and listener exactly while it is pending and asked for them. |
| `RpcClientModel.IssuedAsAsked` | packages/agent/src/rpc.ts:122-200 | In every run an issued call is pending, written iff the connection is open, with a timer iff it has a timeout and a listener iff its signal is live; with an aborted signal it is rejected at once, unwritten and unarmed. |
| `RpcClientModel.OutcomeIsFirstSettlement` | packages/agent/src/rpc.ts:81-200 | In every run the outcome of a pending call is the first of the things that settle it: its own abort, timeout or write error, a close, or a completed line with its id, with that line's result or error. |
| `RpcClientModel.PendingCallStep` | packages/agent/src/rpc.ts:81-200 | The same for one step. |
| `RpcClientModel.DispatchAnswers` | packages/agent/src/rpc.ts:88-107 | Of many lines the first with the call's id decides its outcome. |
| `RpcClientModel.SettledIsFinal` | packages/agent/src/rpc.ts:148-157 | No step touches a call that has an outcome. |
| `RpcClientModel.FirstOutcomeWins` | packages/agent/src/rpc.ts:133-200 | Over any run the first outcome of a call stays, even when a write error settles it again. |
| `RpcClientModel.SettledByItsCause` | packages/agent/src/rpc.ts:98-107 | Each outcome has its own cause, addressed to its own call: a response settles only the call whose id it carries. |
| `RpcClientModel.LateResponse` | packages/agent/src/rpc.ts:98-99 | Responses nobody waits for, late or unknown, change nothing but the buffer. |
| `RpcClientModel.ChunkingIrrelevant` | packages/agent/src/rpc.ts:81-109 | Any chunking of a stream leaves the same client as the whole stream at once. |
| `RpcClientModel.ClosedForGood` | packages/agent/src/rpc.ts:55-79 | After a close the resolved connect promise is never renewed, and the client has no socket in any later state. |
| `RpcClientModel.NeverWritten` | packages/agent/src/rpc.ts:128-200 | A call pending on a closed client is never written, and without timer and listener never settles. |
| `RpcClientModel.SettlesAfterClose` | packages/agent/src/rpc.ts:128-200 | After the close an unsettled call can still settle in some run if and only if it has an armed timer or a live abort signal. |
| `RpcClientModel.StrandedCallWitness` | packages/agent/src/rpc.ts:55-200 | Connected, closed, then called without signal or timeout: pending in every continuation. |
| `BridgeClientModel.RequestIdInjective` | packages/mcp/src/main.rs:265-269 | Printed request ids are equal only for equal counters. |
| `BridgeClientModel.RequestIdFormat` | packages/mcp/src/main.rs:265-269 | A request id is "req-" and the counter in decimal. |
| `BridgeClientModel.IdsNeverReused` | packages/mcp/src/main.rs:265-270 | In any run the next id differs from every id issued before and is not pending. |
| `BridgeClientModel.Tracking` | packages/mcp/src/main.rs:263-312 | Pending map, writes, channels and replies follow, call by call, from that call's own events. |
| `BridgeClientModel.EachCallGetsItsOwnReply` | packages/mcp/src/main.rs:263-312 | A call has returned exactly what its own write and its own first response say: an error when the write failed, even after a response, else that response, in any arrival order. |
| `BridgeClientModel.AnswerReaches` | packages/mcp/src/main.rs:277-312 | A written call whose first response has been read returns that response's error, else its result, else null. |
| `BridgeClientModel.WhatCanHappen` | packages/mcp/src/main.rs:263-312 | After any run a call can begin, a write can end exactly once for each call that began, and lines come exactly until the end of the stream. |
| `BridgeClientModel.PendingUntilAnswered` | packages/mcp/src/main.rs:270-312 | An entry stays until its response is read: a failed write leaks it. |
| `BridgeClientModel.NobodyWokenAfterEnd` | packages/mcp/src/main.rs:293-312 | After the end of the stream an unanswered call returns, in any continuation, only by a failed write of its own. |
| `ComposedSignals.FirstAborted` | packages/agent/src/tool-timeout.ts:113-117 | The first source aborted at the start, in list order, if any. |
| `ComposedSignals.ComposedFollowsEarliest` | packages/agent/src/tool-timeout.ts:105-123 | After any aborts the composed signal is aborted iff some source is, with the reason of the earliest abort. |
| `ToolTimeout.StepKeepsInv` | packages/agent/src/tool-timeout.ts:58-95 | Every callback keeps the flag, timer, promise and timeout signal consistent and never changes an outcome. |
| `ToolTimeout.SettlesByDeadline` | packages/agent/src/tool-timeout.ts:49-97 | Whatever the tool does, the promise settles at most once, and has settled no later than the deadline once the clock is past it. |
| `ToolTimeout.OutcomeExact` | packages/agent/src/tool-timeout.ts:58-95 | The caller of a tool that hands back a promise gets the first of the tool's own value, the tool's own error and the timeout, at the time that came. |
| `ToolTimeout.WhatCanHappen` | packages/agent/src/tool-timeout.ts:58-95 | After any run the user can abort, the tool can settle unless it has, and while the timer is armed it fires at the deadline and time stops there. |
| `ToolTimeout.ArmedExact` | packages/agent/src/tool-timeout.ts:58-95 | The timer is armed until something settles the call; for a tool that throws at once until it fires. |
| `ToolTimeout.TimeoutSignalExact` | packages/agent/src/tool-timeout.ts:61-94 | For a tool that hands back a promise the timeout signal fires iff the deadline won; for one that throws at once the promise is rejected and the signal still fires at the deadline. |
| `ToolTimeout.ThrowingToolWitness` | packages/agent/src/tool-timeout.ts:58-94 | A tool that throws at once under a deadline of zero: the signal fires although the deadline did not win. |
| `ToolTimeout.ToolSeesEarliestAbort` | packages/agent/src/tool-timeout.ts:55-81 | The tool's signal is aborted iff the user aborted or the timeout fired, with the reason of the earlier one. |
| `ToolTimeout.UserSignalExact` | packages/agent/src/tool-timeout.ts:49-58 | The user's signal as the tool sees it: absent, aborted from the start, or aborted by the first user abort, with that reason. |
| `CancelRegistryModel.OwnerIsLastRegistered` | apps/desktop/src-tauri/src/commands/exec_agent.rs:559-588 | In every run, overlaps included, an entry leads to turn t iff the last insertion or removal on its thread was t's registration. |
| `CancelRegistryModel.CancelReachesOwner` | apps/desktop/src-tauri/src/commands/exec_agent.rs:618-631 | A cancel stores exactly that turn's permit and changes no other turn. |
| `CancelRegistryModel.ExclusiveRun` | apps/desktop/src-tauri/src/commands/exec_agent.rs:559-588 | With at most one turn per thread, a turn has its thread's entry exactly from its registration to its removal. |
| `CancelRegistryModel.CancelHitsExactlyTheTurn` | apps/desktop/src-tauri/src/commands/exec_agent.rs:618-631 | Under that assumption a cancel between registration and removal reaches exactly that turn, even before its pump waits. |
| `CancelRegistryModel.OtherCancelsAreNoOps` | apps/desktop/src-tauri/src/commands/exec_agent.rs:618-638 | A cancel on a thread whose turns have all left changes nothing, overlaps or not. |
| `CancelRegistryModel.FateIsTold` | apps/desktop/src-tauri/src/services/exec_agent/runner/corivo.rs:441-464 | While a turn runs its permit is stored iff a cancel came since it registered, and only such a cancel ends it as cancelled. |
| `CancelRegistryModel.PollOutcome` | apps/desktop/src-tauri/src/services/exec_agent/runner/corivo.rs:441-578 | A poll ends the turn as cancelled iff a cancel came since it registered, even with a last line or the end of the stream ready; otherwise each input has its own outcome. |
| `CancelRegistryModel.TurnStep` | apps/desktop/src-tauri/src/services/exec_agent/runner/corivo.rs:449-473 | Any step by anyone leaves a running turn its permit, adds one only by a cancel of its thread, and ends it as cancelled only on a permit. |
| `CancelRegistryModel.PhaseStep` | apps/desktop/src-tauri/src/services/exec_agent/runner/corivo.rs:441-578 | Any step seen from any turn: which of them end it and how, that it stays on its thread, and that a cancel stores its permit and a poll consumes it. |
| `CancelRegistryModel.TurnEndExact` | apps/desktop/src-tauri/src/services/exec_agent/runner/corivo.rs:441-578 | With one turn per thread every turn ends as its own events say, once and for all, and has left exactly when it was removed. |
| `CancelRegistryModel.NewTurn` | apps/desktop/src-tauri/src/commands/exec_agent.rs:559-563 | A new turn runs without a permit on the thread it was sent on, and owns that thread's entry. |
| `CancelRegistryModel.EveryTurnCanLeave` | apps/desktop/src-tauri/src/commands/exec_agent.rs:564-588 | In every run a running turn can fail and then leave, an ended one can leave with the end it had, and a gone one does neither again. |
| `CancelRegistryModel.OverlapLosesCancel` | apps/desktop/src-tauri/src/commands/exec_agent.rs:585-588 | Two turns on one thread: the first one's removal makes a cancel miss the second, which runs on. |
| `AgentMessages.EstimateAppend` | packages/agent/src/extensions/compaction-safeguard.ts:73-80 | The estimate of a concatenation is the sum. |
| `AgentMessages.TokensExact` | packages/agent/src/extensions/compaction-safeguard.ts:73-80 | A message costs four tokens and the fewest that cover its visible characters at four characters each. |
| `AgentMessages.PartsLengthExact` | packages/agent/src/extensions/compaction-safeguard.ts:82-100 | The visible characters of a part list are those of its text and thinking parts, in order. |
| `AgentMessages.EstimateOne` | packages/agent/src/extensions/compaction-safeguard.ts:73-80 | The estimate of one message is its own cost, and of none zero; with the law of sums this determines every estimate. |
| `CompactionSafeguard.CutStep` | packages/agent/src/extensions/compaction-safeguard.ts:50-56 | Each drop lowers the estimate by that message's tokens, at least the overhead; a summary stays. |
| `CompactionSafeguard.SafeguardIsLeastTruncation` | packages/agent/src/extensions/compaction-safeguard.ts:34-69 | The result is the input minus its first droppable messages, as few as get under the ceiling, or all; the last message and every summary stay. |
| `CompactionSafeguard.SafeguardActsExact` | packages/agent/src/extensions/compaction-safeguard.ts:34-69 | The transcript changes iff the window is known, the estimate exceeds the ceiling and a message before the last is no summary of either kind. |
| `CompactionSafeguard.SummariesStayByRole` | packages/agent/src/extensions/compaction-safeguard.ts:102-112 | No compaction summary and no branch summary is ever dropped. |
| `CompactionSafeguard.SafeguardIdempotent` | packages/agent/src/extensions/compaction-safeguard.ts:34-69 | Truncating the result again changes nothing. |
| `CrossTurnCompaction.SplitUnique` | packages/agent/src/cross-turn-compaction.ts:147-158 | There is at most one such message. |
| `CrossTurnCompaction.PassCutsWell` | packages/agent/src/cross-turn-compaction.ts:144-205 | A successful pass cuts a non-empty head before a tail that starts at a user message and holds exactly `MIN_KEEP_TURNS` of them, counted in the log itself. |
| `CrossTurnCompaction.PassExact` | packages/agent/src/cross-turn-compaction.ts:87-234 | For every log: it grows iff the window is positive, the estimate has reached the threshold, a tail of four user messages starts behind an eligible message, the model replies and the append is accepted; the entry holds that reply, the tail's first id and the estimate of the messages before it since the last compaction. |
| `CrossTurnCompaction.CandidatesExact` | packages/agent/src/cross-turn-compaction.ts:124-135 | The candidates are the positions of the messages since the last compaction entry, in order. |
| `CrossTurnCompaction.SessionInv` | packages/agent/src/cross-turn-compaction.ts:124-218 | In every run of appends and passes all past cuts stay good and later heads lie behind earlier entries. |
| `CrossTurnCompaction.RunsNeverResummarise` | packages/agent/src/cross-turn-compaction.ts:124-218 | No message is summarised twice, kept positions strictly advance, and the tail a pass keeps is in no head and no other tail. |
| `CrossTurnCompaction.TailsAreNotCandidates` | packages/agent/src/cross-turn-compaction.ts:124-135 | Earlier heads and tails are out of reach of the next pass. |
| `CrossTurnCompaction.LogOnlyGrows` | packages/agent/src/cross-turn-compaction.ts:198-218 | The old log is a prefix of the log after any run. |
| `UpdaterStoreModel.StepKeepsInv` | apps/desktop/src/stores/updater-store.ts:72-194 | Every step at every await keeps the store invariant. |
| `UpdaterStoreModel.EveryInterleaving` | apps/desktop/src/stores/updater-store.ts:72-194 | In every interleaving `available` and `updating` have a pending update, the settled statuses none, the shown version is the pending one's, and `checking`, `updating` and `restarting` each have a check, a download or a timer in flight: the store is never stuck. |
| `UpdaterStoreModel.ShownExact` | apps/desktop/src/stores/updater-store.ts:72-194 | In every interleaving the store shows the version, date and notes of the last check's update, holds that update until it is installed, and shows an error exactly as the last failure reported it. |
| `UpdaterStoreModel.ShownStep` | apps/desktop/src/stores/updater-store.ts:92-169 | What one step does to the shown version, date, notes, error and pending update. |
| `UpdaterStoreModel.FlightExact` | apps/desktop/src/stores/updater-store.ts:72-194 | In every run what is in flight is what was started less what came back, kind by kind. |
| `UpdaterStoreModel.WhatCanHappen` | apps/desktop/src/stores/updater-store.ts:72-194 | After any run the user can act at any time, and exactly what is in flight can come back, in any order. |
| `UpdaterStoreModel.ActionsShow` | apps/desktop/src/stores/updater-store.ts:80-192 | In every run: what status each action and each result leads to, and which operation it puts in flight. |
| `UpdaterStoreModel.ProgressShown` | apps/desktop/src/stores/updater-store.ts:84-182 | The progress shown is the last report until an operation begins or a check ends. |
| `UpdaterStoreModel.AwaitingFollowsRestarting` | apps/desktop/src/stores/updater-store.ts:182-192 | `awaiting-restart` was entered by a timer from `restarting`. |
| `UpdaterStoreModel.RestartPromptExact` | apps/desktop/src/stores/updater-store.ts:80-192 | In every interleaving the store shows `restarting`, or the restart prompt, if and only if some install was followed only by progress reports, resuming installs and timers, without a timer or with one; every other event loses the prompt. |
| `UpdaterStoreModel.CheckingWhileInstalling` | apps/desktop/src/stores/updater-store.ts:80-158 | A run with a check and a download in flight together. |
| `UpdaterStoreModel.RestartPromptLost` | apps/desktop/src/stores/updater-store.ts:92-105 | A witness: a check still suspended when the install finishes; nothing is in flight, no timer is left, and the store says up to date. |
| `UpdaterStoreModel.PromptComes` | apps/desktop/src/stores/updater-store.ts:176-192 | In every run whose last install is so undisturbed the timer is still armed and its firing shows the prompt. |
| `AgentRunnerModel.CancelIsSticky` | packages/agent/src/agent-runner.ts:579-590 | After a cancel no event or stop reason changes the finish reason. |
| `AgentRunnerModel.FinishReasonExact` | packages/agent/src/agent-runner.ts:562-572 | Without a cancel the run is cancelled iff some stop was an abort, and else ends as its last stop says. |
| `AgentRunnerModel.LastStopDecides` | packages/agent/src/agent-runner.ts:745-763 | How each stop reason of the model ends a run that nobody cancelled. |
| `AgentRunnerModel.LastStopExact` | packages/agent/src/agent-runner.ts:733-743 | The stop reason of an event is that of its last assistant message, whatever follows it. |
| `AgentRunnerModel.NoAssistantNoStop` | packages/agent/src/agent-runner.ts:733-743 | Without an assistant message there is none. |
| `AgentRunnerModel.SessionLogExact` | packages/agent/src/agent-runner.ts:535-609 | The log is the old log, the user message, then per turn the assistant message and its results in order; a failing append only shortens its own turn. |
| `AgentRunnerModel.LogWithFailures` | packages/agent/src/agent-runner.ts:535-609 | The log for every script, failing appends included: the old log, the user message if it was accepted, then what each turn could append. |
| `AgentRunnerModel.TurnIndicesCount` | packages/agent/src/agent-runner.ts:371-375 | The emitted turn indices are 0, 1, 2 and so on, and no end is emitted during the prompt. |
| `AgentRunnerModel.EmittedExact` | packages/agent/src/agent-runner.ts:353-576 | For every stream of happenings: one wire for each agent event that is neither ignored nor the end, in order and with its own content, and turn starts count up. |
| `AgentRunnerModel.UpstreamErrorExact` | packages/agent/src/agent-runner.ts:515-534 | The captured error is the last failed upstream response of the run, an authentication failure iff its status is 401. |
| `AgentRunnerModel.EndingEndsOnce` | packages/agent/src/agent-runner.ts:695-722 | What a run emits after its prompt holds exactly one end. |
| `AgentRunnerModel.FinishedRun` | packages/agent/src/agent-runner.ts:652-722 | A finished run emitted exactly one end, last, with its final reason, which differs from the one at the gate only by a cancel during the compaction. |
| `AgentRunnerModel.EndingReports` | packages/agent/src/agent-runner.ts:652-714 | Compaction is reported iff the prompt ended neither cancelled nor failed and the gate was open; an upstream error iff the run failed and one was captured. |
| `AgentRunnerModel.EndingExact` | packages/agent/src/agent-runner.ts:652-722 | What follows the prompt, wire by wire: the compaction notes when the gate is open, the captured error of a failed run, recoverable iff it is an authentication failure, and the end with the final reason. |
| `Skills.LookupPut` | packages/agent/src/skills.ts:135-137 | Setting a name makes it lead to the new skill and leaves every other name alone. |
| `Skills.MergeByPrecedence` | packages/agent/src/skills.ts:122-199 | Names are unique, in the order they were first loaded, and each leads to the skill of the highest source that holds it. |
| `Skills.AgentWinner` | packages/agent/src/skills.ts:122-137 | By position: the last skill of a name in the agent source holds it. |
| `Skills.LowerWinner` | packages/agent/src/skills.ts:138-199 | A name the agent source lacks is held by the first skill of that name in the other sources, in order. |
| `Skills.FilterCommutesWithMerge` | packages/agent/src/skills.ts:199-213 | Filtering the merge by name equals merging the filtered sources, order included. |
| `Skills.EnabledExact` | packages/agent/src/skills.ts:199-213 | The filter keeps exactly the skills with an enabled name, as often as they occur. |
| `Skills.AllEnabled` | packages/agent/src/skills.ts:199-213 | With every name enabled the filter changes nothing. |
| `Skills.CollisionsNameTheWinner` | packages/agent/src/skills.ts:138-197 | Each collision names one loser, in loading order, and the path of the final winner. |
| `Skills.NothingLostSilently` | packages/agent/src/skills.ts:135-197 | Survivors and losers account for every loaded skill if and only if the agent source has no repeated name. |
| `Skills.OverwrittenSilently` | packages/agent/src/skills.ts:135-137 | Two agent skills of one name: the second survives and no collision is reported. |
| `Skills.WinnerLabelExact` | packages/agent/src/skills.ts:140-155 | The winner's reported source is right if and only if the agent source holds the name. |
| `Skills.WrongLabel` | packages/agent/src/skills.ts:140-155 | Two bundled skills of one name: reported as shadowed by the agent source. |
| `ShellPath.ProbeRecovers` | apps/desktop/src-tauri/src/shell_path.rs:76-86 | Whatever surrounds the sentinels, the trimmed text between the last BEGIN and the first END after it comes back, or nothing when it is blank. |
| `ShellPath.ProbeInventsNothing` | apps/desktop/src-tauri/src/shell_path.rs:76-86 | Every result has such a frame in the output. |
| `ShellPath.ProbeExact` | apps/desktop/src-tauri/src/shell_path.rs:76-86 | When no sentinel follows the written pair, a path that is not blank is recovered if and only if the written sentinels are the last BEGIN and the first END after it. |
| `ShellPath.OverlappingSentinel` | apps/desktop/src-tauri/src/shell_path.rs:24-25 | A path that starts with the sentinel's own text is not recovered. |
| `ShellPath.TrailingNoise` | apps/desktop/src-tauri/src/shell_path.rs:96-96 | Entries are compared as paths: a trailing slash or "/." makes no new entry. |
| `ShellPath.InnerNoise` | apps/desktop/src-tauri/src/shell_path.rs:96-96 | A doubled slash or a "." inside a path makes no new entry either. |
| `ShellPath.KeyInjective` | apps/desktop/src-tauri/src/shell_path.rs:96-96 | Two paths without such noise are one entry only if they are the same string. |
| `ShellPath.MergeOfPlainEntries` | apps/desktop/src-tauri/src/shell_path.rs:88-106 | When the entries of both values have no noise, the merged value splits back to their first occurrences in order, and to all of them when they are distinct. |
| `ShellPath.MergeUnique` | apps/desktop/src-tauri/src/shell_path.rs:88-106 | That specification determines the result. |
| `ShellPath.MergeStable` | apps/desktop/src-tauri/src/shell_path.rs:88-106 | Merging the result with the same inherited value again changes nothing. |
| `RequestRewrite.RewriteFields` | packages/agent/src/chatgpt-fetch-interceptor.ts:165-222 | The result is never stored, has no unsupported field, and keeps every field that is not in question. |
| `RequestRewrite.RewriteInput` | packages/agent/src/chatgpt-fetch-interceptor.ts:199-222 | If some system entry has text, all system entries go and the others stay in order; otherwise the input is untouched. |
| `RequestRewrite.RewriteInstructions` | packages/agent/src/chatgpt-fetch-interceptor.ts:217-221 | Non-empty caller instructions are never replaced; otherwise the system texts take their place when there are any. |
| `RequestRewrite.RewriteInstructs` | packages/agent/src/chatgpt-fetch-interceptor.ts:188-222 | The result has instructions iff the caller gave some or some system entry has text. |
| `RequestRewrite.RewriteSpelledOut` | packages/agent/src/chatgpt-fetch-interceptor.ts:165-222 | The rewrite of every object with every name spelled out: store is false, the three refused fields are gone, no system entry is left when one has text, and the instructions are the caller's, or else the system texts joined by blank lines. |
| `RequestRewrite.SystemTextsExact` | packages/agent/src/chatgpt-fetch-interceptor.ts:199-215 | The system texts are those of the system entries that have any, in order. |
| `RequestRewrite.ContentText` | packages/agent/src/chatgpt-fetch-interceptor.ts:231-255 | The text of each shape of content. |
| `RequestRewrite.PartsText` | packages/agent/src/chatgpt-fetch-interceptor.ts:238-247 | The text of a content list is that of its parts, one after the other; a list without any has none. |
| `RequestRewrite.OnlyObjects` | packages/agent/src/chatgpt-fetch-interceptor.ts:165-178 | What is no object is refused, and every object is rewritten. |
| `RequestRewrite.SystemTextsKeptExact` | packages/agent/src/chatgpt-fetch-interceptor.ts:199-222 | Of any two requests that differ only in their system entries, both with text in some, the rewrites are equal if and only if the caller has instructions or the joined system texts are equal. |
| `RequestRewrite.RewriteIdempotent` | packages/agent/src/chatgpt-fetch-interceptor.ts:165-222 | Rewriting the result again changes nothing. |
| `RequestRewrite.SystemTextDiscarded` | packages/agent/src/chatgpt-fetch-interceptor.ts:204-221 | A witness: with caller instructions, all texts of a system entry give one and the same request. |
| `Versions.Unique` | apps/desktop/src/lib/updater.ts:62-68 | That specification determines the result. |
| `Versions.Antisymmetric` | apps/desktop/src/lib/updater.ts:59-69 | Swapping the arguments negates the result. |
| `Versions.Transitive` | apps/desktop/src/lib/updater.ts:59-69 | The order is transitive over lists of any lengths, strictly when one step is strict. |
| `Versions.ZeroExact` | apps/desktop/src/lib/updater.ts:59-69 | Zero exactly when the lists agree after dropping trailing zeros. |
| `Versions.PrintedVersion` | apps/desktop/src/lib/updater.ts:60-61 | A printed list of numbers parses back to itself. |
| `Versions.ParseExact` | apps/desktop/src/lib/updater.ts:60-61 | A component is its leading number: spaces before it and anything behind its digits are ignored, a sign counts, and without digits it is zero. |
| `ThreadTitle.TitleIsFirstLine` | apps/desktop/src-tauri/src/commands/chat.rs:479-497 | The title comes from the first line of the trimmed message. |
| `ThreadTitle.TitleShape` | apps/desktop/src-tauri/src/commands/chat.rs:479-497 | Empty exactly for a blank message; otherwise without outer spaces and at most 25 characters. |
| `ThreadTitle.TitleExact` | apps/desktop/src-tauri/src/commands/chat.rs:479-497 | The title is the trimmed first line when that has at most 24 characters, else its first 24 and an ellipsis. |
| `ThreadTitle.NeedsExact` | apps/desktop/src-tauri/src/commands/chat.rs:463-474 | A thread is titled automatically iff it has no title, a blank one or the placeholder between any spaces. |
| `ThreadTitle.DerivedIsFinal` | apps/desktop/src-tauri/src/commands/chat.rs:463-474 | A derived title needs another one iff it is empty or the placeholder itself. |
| `ThreadTitle.FirstRealTitleWins` | apps/desktop/src-tauri/src/commands/chat.rs:345-354 | Over any messages a real title is kept, and a thread without one takes the first real title a message gives. |
| `BlockAccumulation.BlockAccumulator.AddCited` | apps/desktop/src/hooks/use-chat.ts:767-770 | The loop over the cited ids leaves the first occurrences of old and new ids. |
| `BlockAccumulation.BlockAccumulator.Consume` | apps/desktop/src/hooks/use-chat.ts:753-819 | One event changes the accumulator's five fields exactly as the accumulator's step function says, and keeps the cited ids distinct. |
| `Reload.DeliverResult` | apps/desktop/src/hooks/use-chat.ts:886-901 | Patching the first match in the flat list and every match in the clusters delivers the result to every shared object with the id, and to no other. |
| `Reload.PutNewTool` | apps/desktop/src/hooks/use-chat.ts:870-885 | A tool use allocates one object that stands in both lists, with nullish input turned into an empty object. |
| `Reload.ReloadBlock` | apps/desktop/src/hooks/use-chat.ts:847-910 | One block takes the shared objects, read as values, from one rebuilt state to the next. |
| `Reload.PersistedToLive` | apps/desktop/src/hooks/use-chat.ts:842-926 | The whole rebuild: fresh objects, each once in the flat list and once, in the same order, in the clusters, which read as values are the pure rebuild of the blocks. |
| `StreamingStoreModel.StreamingStore.StartStream` | apps/desktop/src/stores/streaming-store.ts:53-63 | Replaces the bucket of one thread, error included, and no other. |
| `StreamingStoreModel.StreamingStore.UpdateLiveMessages` | apps/desktop/src/stores/streaming-store.ts:65-78 | Updates the bucket of one thread if there is one, and no other. |
| `StreamingStoreModel.StreamingStore.SetError` | apps/desktop/src/stores/streaming-store.ts:80-93 | Sets the error of one thread, creating its bucket if necessary, and no other. |
| `StreamingStoreModel.StreamingStore.SetStreaming` | apps/desktop/src/stores/streaming-store.ts:95-105 | Sets the flag of one thread that has a bucket, and no other. |
| `StreamingStoreModel.StreamingStore.ClearStream` | apps/desktop/src/stores/streaming-store.ts:107-113 | Removes the bucket of one thread and no other. |
| `StreamingStoreModel.StreamingStore.HandleStreamEvent` | apps/desktop/src/hooks/use-chat.ts:608-685 | The composed updates of one event touch only its thread; terminal events also reset the bucket's flag and set its error. |
| `StreamingStoreModel.StreamingStore.OnMirrored` | apps/desktop/src/hooks/use-chat.ts:124-151 | A mirrored event opens a fresh bucket exactly when its message is not tracked, then is handled like a received one. |
| `RpcClientModel.RpcClient.EnsureConnected` | packages/agent/src/rpc.ts:55-79 | Connects only when there is neither a socket nor a promise, pending or resolved. |
| `RpcClientModel.RpcClient.OnConnect` | packages/agent/src/rpc.ts:66-74 | The socket opens and the promise resolves. |
| `RpcClientModel.RpcClient.OnConnectError` | packages/agent/src/rpc.ts:61-65 | A failed attempt clears the promise, so that the next call tries again. |
| `RpcClientModel.RpcClient.HandleLine` | packages/agent/src/rpc.ts:88-107 | A parsed line settles the pending call it names, and nothing else. |
| `RpcClientModel.RpcClient.DrainBuffer` | packages/agent/src/rpc.ts:83-108 | The loop dispatches every complete non-blank line, trimmed, in order, and leaves the unfinished line. |
| `RpcClientModel.RpcClient.OnData` | packages/agent/src/rpc.ts:81-109 | A chunk takes the client's data step and keeps the invariant. |
| `RpcClientModel.RpcClient.OnClose` | packages/agent/src/rpc.ts:111-116 | The loop over the pending calls rejects each of them, and no other, and empties the map. |
| `RpcClientModel.RpcClient.IssueCall` | packages/agent/src/rpc.ts:129-200 | Registers the call with its listener, timer and write, or settles it at once when its signal is already aborted. |
| `RpcClientModel.RpcClient.OnAbort` | packages/agent/src/rpc.ts:161-164 | An abort takes the call off the map and rejects it unless it has an outcome. |
| `RpcClientModel.RpcClient.OnTimeout` | packages/agent/src/rpc.ts:184-191 | A timeout takes the call off the map and rejects it. |
| `RpcClientModel.RpcClient.OnWriteError` | packages/agent/src/rpc.ts:194-199 | A write error takes the call off the map and rejects it unless it has an outcome. |
| `BridgeClientModel.BridgeClient.BeginCall` | packages/mcp/src/main.rs:263-270 | Increments the counter and registers the call under its new id. |
| `BridgeClientModel.BridgeClient.AfterWrite` | packages/mcp/src/main.rs:277-289 | A finished write returns an error, the response that has arrived, or nothing yet. |
| `BridgeClientModel.BridgeClient.OnResponse` | packages/mcp/src/main.rs:307-310 | A response removes its entry, goes into that call's channel, and answers the call if its write is done. |
| `ComposedSignals.Compose` | packages/agent/src/tool-timeout.ts:105-123 | The loop aborts at once with the first aborted source's reason, or else listens to exactly the present sources. |
| `ToolTimeout.WrappedCall.OnTimer` | packages/agent/src/tool-timeout.ts:61-79 | The timer callback takes the deadline step: nothing when settled, else abort and reject. |
| `ToolTimeout.WrappedCall.OnResolve` | packages/agent/src/tool-timeout.ts:82-87 | A resolved tool settles the promise and clears the timer unless already settled. |
| `ToolTimeout.WrappedCall.OnReject` | packages/agent/src/tool-timeout.ts:88-93 | A rejected tool likewise. |
| `CancelRegistryModel.PendingTurns.Insert` | apps/desktop/src-tauri/src/commands/exec_agent.rs:559-563 | Registers a fresh handle object under the thread, overwriting. |
| `CancelRegistryModel.PendingTurns.Signal` | apps/desktop/src-tauri/src/commands/exec_agent.rs:618-638 | Notifies the handle object of the thread's entry, if there is one. |
| `CancelRegistryModel.PendingTurns.Remove` | apps/desktop/src-tauri/src/commands/exec_agent.rs:585-588 | Removes by thread, whoever's entry it is. |
| `CancelRegistryModel.PendingTurns.Select` | apps/desktop/src-tauri/src/services/exec_agent/runner/corivo.rs:449-578 | The biased select consumes a stored permit first and reports the cancel; a line that reports the end and the end of the stream end the turn. |
| `AgentMessages.MessageTextLength` | packages/agent/src/extensions/compaction-safeguard.ts:82-100 | The loop adds up the text and thinking parts. |
| `AgentMessages.EstimateTokens` | packages/agent/src/extensions/compaction-safeguard.ts:73-80 | The loop adds overhead and a quarter of the length, rounded up, per message. |
| `CompactionSafeguard.OldestDroppableIndex` | packages/agent/src/extensions/compaction-safeguard.ts:102-112 | The first message before the last that is no summary, or -1 when there is none. |
| `CompactionSafeguard.ApplyCompactionSafeguard` | packages/agent/src/extensions/compaction-safeguard.ts:34-69 | The loop terminates with the first cut that fits and counts its drops. |
| `CrossTurnCompaction.WalkEntries` | packages/agent/src/cross-turn-compaction.ts:124-135 | The walk leaves the messages after the last compaction entry. |
| `CrossTurnCompaction.FindSplit` | packages/agent/src/cross-turn-compaction.ts:147-158 | The backward scan finds a user message with exactly `MIN_KEEP_TURNS` user messages from it on, or there are fewer. |
| `CrossTurnCompaction.RunCrossTurnCompaction` | packages/agent/src/cross-turn-compaction.ts:87-234 | A pass appends one entry with the first kept id and the head's estimate, or on any failure leaves the log as it was. |
| `UpdaterStoreModel.UpdaterStore.BeginCheck` | apps/desktop/src/stores/updater-store.ts:80-90 | Answers at once when busy, else moves to checking and suspends. |
| `UpdaterStoreModel.UpdaterStore.CheckForUpdates` | apps/desktop/src/stores/updater-store.ts:80-94 | A check by itself takes the start step: nothing when busy. |
| `UpdaterStoreModel.UpdaterStore.FinishCheck` | apps/desktop/src/stores/updater-store.ts:92-133 | The three ways a check resumes set all fields and answer whether there is an update. |
| `UpdaterStoreModel.UpdaterStore.InstallUpdate` | apps/desktop/src/stores/updater-store.ts:135-154 | An install goes to its check when nothing is pending, else straight to updating. |
| `UpdaterStoreModel.UpdaterStore.ContinueInstall` | apps/desktop/src/stores/updater-store.ts:138-154 | After its check an install goes on only if an update is still pending. |
| `UpdaterStoreModel.UpdaterStore.FinishInstall` | apps/desktop/src/stores/updater-store.ts:176-182 | A finished install clears the update and arms the timer. |
| `UpdaterStoreModel.UpdaterStore.FailInstall` | apps/desktop/src/stores/updater-store.ts:160-169 | A failed install shows the error and keeps the update. |
| `UpdaterStoreModel.UpdaterStore.OnTimer` | apps/desktop/src/stores/updater-store.ts:182-192 | The timer changes the status only from `restarting`. |
| `AgentRunnerModel.AgentRunner.LastAssistantStop` | packages/agent/src/agent-runner.ts:733-743 | The backward scan returns the last assistant message's stop reason. |
| `AgentRunnerModel.AgentRunner.AppendTurn` | packages/agent/src/agent-runner.ts:540-551 | The log gains the turn's messages up to the append that throws. |
| `AgentRunnerModel.AgentRunner.OnEvent` | packages/agent/src/agent-runner.ts:353-576 | One agent event changes the runner's fields, log and output exactly as the step function says. |
| `AgentRunnerModel.AgentRunner.DrivePrompt` | packages/agent/src/agent-runner.ts:593-638 | The user message and all happenings in order. |
| `AgentRunnerModel.AgentRunner.Finish` | packages/agent/src/agent-runner.ts:652-722 | What follows the prompt: gated compaction, upstream error, one end; an exception out of the compaction stops it before both. |
| `AgentRunnerModel.AgentRunner.AwaitCompaction` | packages/agent/src/agent-runner.ts:675-680 | The awaited compaction emits its notes and lets cancels in. |
| `SidecarMain.Start` | packages/agent/src/main.ts:131-309 | The run emits exactly one end, as its last event, iff the input parses and has the fields read outside every `try`; without them nothing is emitted and the promise is rejected. Exit code 0 iff nothing was missing, rejected or thrown, and then what the run emitted; every other path ends with its own error code, unrecoverable, and an error end. The account id goes to the fetch wrapper in the one mode that uses it, unless it is blank. |
| `SidecarMain.Failing` | packages/agent/src/main.ts:217-228 | The closing pair of events of a failing path. |
| `SidecarMain.RunGuarded` | packages/agent/src/main.ts:255-309 | The `try` around the run: what was emitted so far and, after an exception, an unrecoverable error and an error end. |
| `SidecarMain.ThrowsExact` | packages/agent/src/agent-runner.ts:611-731 | Which runs throw, read off the script: those with a throwing set-up, prompt or clean-up, and those whose compaction throws after a prompt that nobody cancelled, no stop aborted and the last stop did not fail. |
| `SidecarMain.RunEmits` | packages/agent/src/agent-runner.ts:611-722 | A run that does not throw emits what its happenings say and then its ending, and leaves the log of its prompt. |
| `SidecarMain.ThrowEmits` | packages/agent/src/agent-runner.ts:611-731 | What a run that throws has emitted: nothing before the set-up is over, else what its happenings say, and the notes of a compaction that throws. |
| `SidecarMain.Refusing` | packages/agent/src/main.ts:217-228 | A refused start emits its own error code and an error end. |
| `SidecarMain.RunAgent` | packages/agent/src/agent-runner.ts:611-731 | An exception before, in or after the prompt, or out of the awaited compaction, leaves what was emitted so far and no end; otherwise the run ends once. |
| `Skills.AddSource` | packages/agent/src/skills.ts:138-197 | The loop of a lower source adds the skills whose names are free and pushes one collision for every other. |
| `Skills.LoadCorivoSkills` | packages/agent/src/skills.ts:91-238 | The four loops and the filter compute the merge and its diagnostics. |
| `ShellPath.Dedup` | apps/desktop/src-tauri/src/shell_path.rs:94-99 | The loop keeps the first path under every key, in order. |
| `ShellPath.MergePaths` | apps/desktop/src-tauri/src/shell_path.rs:88-106 | Nothing only when there is nothing to merge; otherwise joining succeeds and the result splits back to the deduplicated entries of both values. |
| `RequestRewrite.ExtractText` | packages/agent/src/chatgpt-fetch-interceptor.ts:231-255 | The three content shapes flatten to one text. |
| `RequestRewrite.Body.DeleteUnsupported` | packages/agent/src/chatgpt-fetch-interceptor.ts:179-181 | The loop removes exactly the unsupported fields. |
| `RequestRewrite.Body.HoistSystemToInstructions` | packages/agent/src/chatgpt-fetch-interceptor.ts:199-222 | The loop splits the input and edits the body in place. |
| `RequestRewrite.InjectStoreFalse` | packages/agent/src/chatgpt-fetch-interceptor.ts:165-187 | Text that is no JSON object is refused; an object is rewritten. |
| `Versions.Compare` | apps/desktop/src/lib/updater.ts:62-68 | The loop returns zero iff the lists agree everywhere, and otherwise the first difference. |
| `Versions.CompareVersions` | apps/desktop/src/lib/updater.ts:59-69 | The same for the parsed texts. |
| `ThreadTitle.Chat.CreateUserMessage` | apps/desktop/src-tauri/src/commands/chat.rs:319-361 | The message is stored even without its thread; only its own thread's title can change. |

## Left out

- `CompactionSafeguard.ApplyCompactionSafeguard`: takes the ceiling as an integer; the product with 0.95 is floating point and not modelled. Neither is the recoverable error it emits.
- `CrossTurnCompaction.RunCrossTurnCompaction`: takes the threshold as an integer; the product with 0.75 is not modelled. The summary model is an answer or a failure, and the estimate of the live transcript is an input, since `buildSessionContext` is not part of this model.
- `RpcClientModel.RpcClient.OnData`: `JSON.parse` is a parameter that gives a response or nothing. A line that parses to `null`, or a response whose `error` is `null`, makes the original throw out of its loop; such lines are not modelled.
- `RpcClientModel.RpcClient.IssueCall`: call ids are fresh by assumption, because the original draws them at random; the caller's signal is one abort per call, and an abort shared by several calls is the sequence of those aborts.
- `BridgeClientModel.BridgeClient.BeginCall`: the counter is unbounded; the wrap of a 64-bit counter is not modelled. Neither is the command dispatch around the client.
- `ToolTimeout.SettlesByDeadline`: time is discrete and timers fire on time; a late event loop is not modelled. The list of tools that are exempt from the deadline is left out as an easy member.
- `CancelRegistryModel.PendingTurns.Select`: a turn's child process and its events are reduced to a line, a line that ends the turn, an end of stream or nothing; a failure anywhere in the run is one step.
- `Reload.PersistedToLive`: fields that are copied unchanged are left out.
- `ChatAgreement.ReloadAgrees`: `JSON.stringify` is an opaque rendering carried by the value.
- `StreamingStoreModel.StreamingStore.UpdateLiveMessages`: the immutable records are values; that React sees a new object only on change is not modelled.
- `SidecarMain.Start`: the exit code of a process whose main promise is rejected is left to the runtime.
- `AgentRunnerModel.AgentRunner.OnEvent`: texts of error messages, token usage and tool metadata are left out; an error is its code and whether it is recoverable. A dispatch to no handler is the event that emits nothing.
- `UpdaterStoreModel.UpdaterStore.FinishInstall`: the relaunch itself, which may end the process, is left out, and progress values are opaque.
- `ShellPath.MergePaths`: the Unix form only; paths are characters instead of bytes. Running the shell is left out.
- `RequestRewrite.InjectStoreFalse`: works on parsed values; JSON text and the order of an object's fields are not modelled.
- `Versions.CompareVersions`: numbers are unbounded, so the rounding of components beyond 2^53 is not modelled.
- `ThreadTitle.Chat.CreateUserMessage`: repository failures and the focus context are left out.
- Selecting a thread's bucket, the permission queue, dialogs and label formatting are left out as easy members.
- Logging, timings, metrics, user interface, network calls, sign-in, billing, native capture code and generated types are not modelled.
