# acp2larkbot: model and proofs

acp2larkbot runs an ACP agent for each Lark chat and streams the agent's output into a card. This
project models the parts of it whose state evolves over long runs and proves what every run keeps:

- the JSON-RPC clients: the pending table and its response channels (`ResponseMux`), the stream table
  and the prompts' event channels (`PromptStreams`, `PromptOutcomes`), the lock regions of the client object (`CmdClient`),
  and the websocket client's streams (`RpcStreams`, `RpcClient`);
- the streaming card: the action list and its compaction (`CardState`), the card as the service holds it
  (`RemoteCard`), the renderer's operations as functions (`CardRendering`) and as the methods that
  compute them (`CardStreamingRenderer`), what each operation does told from the operation itself
  (`CardDeltas`), and the theorems over whole runs (`CardActions`, `CardSequence`, `CardMirror`,
  `CardAgreement`, `CardPanels`, `CardAnswer`);
- the rate limiter and the retry loop (`RateLimiter`, `Retry`, `Spacing`);
- the self-message filter (`SelfFilter`);
- the store, the session manager and the session key (`StateStore`, `Cleanup`, `EventGate`, `Sessions`,
  `SessionKey`);
- the per-chat worker: its queue, one job of it, the index of running requests, the table of workers
  (`WorkerQueue`, `WorkerHandle`, `Runtime`, `WorkerManager`).

Objects whose methods update their fields are classes, and their methods are proved equal to functions
on values; theorems over runs are lemmas about those functions. What happens between two goroutines is
a step system: every lock region and every channel operation is one step, a run is any sequence of
enabled steps, and an invariant is proved for every step. Instants and durations are integers
(nanoseconds from the zero time); machine integers appear where they wrap (`Retry`).

Where the code does not keep a promise, the failing run is a lemma of its own, next to the condition
under which the promise does hold:

| promise | failing run | condition |
|---|---|---|
| at most Limit slots per window, over all chats | `RateLimiter.TruncationExceeds` | `RateLimiter.LimitHonouredIffExact`: exactly when Limit divides Window |
| at most Limit slots per window, in one chat | `RateLimiter.ChatBurstInWindow` | `RateLimiter.ChatLimitHonouredIff`: exactly when Window is at most Limit times the longer of the two intervals |
| backoff doubles up to its cap | `Retry.DoublingWraps` | `Retry.BackoffIffNoOverflow`: exactly when no doubling within the cap overflows |
| cleanup changes no answer | `Cleanup.EarlierReadingSeesCleanup` | `Cleanup.CleanupInvisibleIff`: exactly when nothing it deleted still counts at the earliest later reading, which holds if the clock does not go back past it |
| a session key identifies a conversation | `SessionKey.NulAlwaysCollides` | `SessionKey.KeyIdentifies`: no NUL in the fields; any other field than the scope with a NUL collides |
| no send on a closed events channel | `PromptStreams.LateUpdateCanPanic`, `CancelCanPanic`, `ShutDownCanPanic` | `PromptStreams.PanicReachableIffExposed`: exactly while the reader holds, a shutdown owes or the pipe contains something for a prompt that can end first; never if nothing is shown outside a prompt and there is neither cancellation nor shutdown |
| a stream is closed at most once | `RpcStreams.FailedWriteClosesTwice` | `RpcStreams.StreamsAreClosedOnce`: always until its caller closes it after a failed write; `RpcStreams.FailedWriteMisusesIff`: then exactly if it is closed already or the reader has found it |
| a registered stream stays in the table until it is closed or a thread is about to close it | `RpcStreams.ReusedIDOrphansStream` | `RpcStreams.OrphanedIff`: lost exactly when its id is removed in another stream's name; `RpcStreams.StreamsAreNotOrphaned`: never with fresh ids |
| the cache knows what the card shows | `CardAgreement.TenthToolDisagrees` | `CardAgreement.AgreementKeptIff`: exactly while an operation writes under an id only what the other panels with that id show |
| every panel has an id of its own | `CardMirror.TenToolsShareAnID` | `CardMirror.MirrorKeptIffFresh`: exactly while every insert uses an id that is not on the card |
| a continuation reaches its action's panel | `CardPanels.NinthToolIsMissed`, `FailedToolIsNowhere`, `TenthWritesOnNinth` | `CardPanels.ContinuationReachesIff`: exactly when the action's insert went through, did not compact the list and used an id new to the card |
| the summary counts the hidden actions | `CardMirror.TenToolsAreMiscounted` | `CardActions.SummaryCountsHiddenIffFirst`: exactly at the first compaction |
| a full queue never blocks a producer | `WorkerQueue.SecondProducerTakesRoom` | `WorkerQueue.NeverBlocksIffOneProducer`: exactly when jobs are rejected or there is at most one producer; app/app.go:69-81 handles events in one loop, so a second one would have to be another caller |
| a card is ended once | `WorkerHandle.FinishThenCancel`, `TwoErrorsEndTwice` | `WorkerHandle.EndedOnceIff`: exactly when one terminal event is shown and the stream is not cut off, or it is cut off before any; `WorkerHandle.WellFormedTimesEnded`: with one terminal event per stream, at its end, twice exactly if the context is found ended right after it and not before |
| a prompt's channel has one terminal event | `PromptStreams.ShutDownSendsTwoErrors` | `PromptStreams.OneTerminalIffNotNoticed`: exactly when no shutdown's notice was delivered on it |
| the two indexes of running requests agree | `Runtime.ClashLeavesStale` | `Runtime.StartCoherentIffNoClash`: exactly when the new request replaces nothing but itself |

## Model

| member | source | states |
|---|---|---|
| `ResponseMux.InvStep` | acp/cmd_client.go:305-339 | every lock region and channel operation of calls, readers and shutdowns keeps the ownership invariant: each response channel's right to send is in the table, with one reader, in the sweep, spent or dropped |
| `ResponseMux.RunKeepsInv` | acp/cmd_client.go:305-398 | the invariant holds at every point of every interleaving of any number of calls, readers and shutdowns |
| `ResponseMux.SendsNeverBlock` | acp/cmd_client.go:372-398 | each response channel is sent to at most once in its life, so no reader and no shutdown ever waits on one |
| `ResponseMux.AnswersAreOwn` | acp/cmd_client.go:319-339 | a call returns only a response that carries its own id, or the reason of the shutdown |
| `ResponseMux.OutcomesAreSourced` | acp/cmd_client.go:305-398 | in every run a call answered with a response got, whole, one that a reader looked up while the table led its id to that call; one answered with a reason, cancelled or refused is so because of a shutdown, its own cancellation or write |
| `ResponseMux.ResponseReachesCall` | acp/cmd_client.go:372-398 | a response whose id leads to a waiting call is returned by it unchanged after four steps of reader and call |
| `ResponseMux.FirstReasonStays` | acp/cmd_client.go:532-542 | the reason of the first shutdown survives every later one |
| `ResponseMux.WaitingCallsCanLeave` | acp/cmd_client.go:319-339 | after a shutdown every call still waiting can return in two steps of its own, with that shutdown's reason |
| `ResponseMux.CallsCanLeave` | acp/cmd_client.go:305-339 | without a response, too, a call leaves in two steps when it is cancelled or its write fails, and takes its entry out of the table |
| `PromptStreams.InvStep` | acp/cmd_client.go:184-223 | every step of prompts, reader and an agent that shows something only while it has a prompt keeps: what a channel got, what the reader holds and what is in the pipe is what the agent emitted, in order |
| `PromptStreams.DisciplinedRunKeepsInv` | acp/cmd_client.go:184-223 | so does every run without a visible update outside its prompt, cancellation or shutdown; updates that show nothing may come at any time |
| `PromptStreams.ChannelsCarryTheirSession` | acp/cmd_client.go:184-439 | in those runs nothing is sent on a closed channel, a session has one prompt in flight at most, a channel carries its session's updates in wire order, and a closed one all of them and then one terminal event, a finish exactly on success |
| `PromptStreams.ChannelTellsTheRun` | acp/cmd_client.go:184-439 | told by the steps alone: in those runs a closed channel is the updates the agent sent for the session between the write and its first reply, then a finish exactly if that reply was a success; without a reply an error, and the write failed |
| `PromptStreams.ReplyEndsPrompt` | acp/cmd_client.go:209-223 | a reply next in the pipe ends the prompt that waits for it in four steps, with a finish if it is a success and an error otherwise |
| `PromptStreams.UpdateReachesChannel` | acp/cmd_client.go:400-439 | an update next in the pipe gets to the channel of its session's prompt unchanged |
| `PromptStreams.BufferIsBounded` | acp/cmd_client.go:191 | in every run at most 1024 events of a channel are unread |
| `PromptOutcomes.OutcomeIsFirstSettled` | acp/cmd_client.go:305-339 | in every run the first of failed write, cancellation, shutdown and reply read settles a prompt, and nothing later changes it |
| `PromptOutcomes.ChannelGrowsBy` | acp/cmd_client.go:209-223 | in every run a channel grows by what the reader holds for it, by an error when the shutdown notifies it and there is room, and by its terminal event: a finish exactly if it was settled as a success |
| `PromptOutcomes.ChannelIsSourced` | acp/cmd_client.go:400-439 | in every run each update on a channel was sent by the agent for the prompt's session, and there is a finish only if the agent replied with success |
| `PromptOutcomes.FailureEndsPrompt` | acp/cmd_client.go:209-223 | a cancellation or a failed write ends the prompt in four steps with an error |
| `PromptOutcomes.ShutDownNotifiesTable` | acp/cmd_client.go:532-558 | the shutdown notifies exactly the prompts that have not removed their streams |
| `PromptStreams.EmittedAreUpdates` | acp/cmd_client.go:400-439 | what the agent emits for a prompt is never terminal, so the terminal event is the prompt's own |
| `PromptStreams.ClosedIsFinal` | acp/cmd_client.go:209-223 | a closed channel gets nothing more and is not closed again |
| `PromptStreams.PanicReachableIffExposed` | acp/cmd_client.go:209-439 | in every reachable state the running goroutines alone can reach a send on a closed channel exactly when the reader holds an update of a prompt that can end, a shutdown has streams to notify, or an update in the pipe comes when its prompt, in the table, is settled, unwritten or replied to before it |
| `PromptStreams.EndThenPanic` | acp/cmd_client.go:209-223 | a prompt that can end can do so before the reader's send or the shutdown's notice meant for it |
| `PromptStreams.SafeRun` | acp/cmd_client.go:400-439 | from an unexposed state no run of those goroutines panics |
| `PromptStreams.TerminalsAreOwnAndNotices` | acp/cmd_client.go:209-223 | in every run, disciplined or not, a channel has its prompt's own terminal event once the prompt is ending, and one more for each shutdown notice delivered |
| `PromptStreams.NoticedOnce` | acp/cmd_client.go:532-558 | a prompt is noticed at most once |
| `PromptStreams.OneTerminalIffNotNoticed` | acp/cmd_client.go:552-557 | so a closed channel has one terminal event exactly when it was not noticed |
| `PromptStreams.ShutDownSendsTwoErrors` | acp/cmd_client.go:552-557 | the process goes away in the middle of a prompt: the closed channel is two errors |
| `PromptStreams.LateUpdateCanPanic` | acp/cmd_client.go:408-426 | a run in which an update sent after the reply is looked up in time and delivered to a closed channel |
| `PromptStreams.CancelCanPanic` | acp/cmd_client.go:408-426 | a run in which a cancellation closes the channel under the reader |
| `PromptStreams.ShutDownCanPanic` | acp/cmd_client.go:532-558 | a run in which a shutdown notifies a stream whose prompt has ended and closed it |
| `CmdClient.CmdClient.NewID` | acp/cmd_client.go:306 | the counter region is the multiplexer's first step of a call: it hands out that call's id |
| `CmdClient.CmdClient.Register` | acp/cmd_client.go:308-310 | the table region of a call is the multiplexer's registration step |
| `CmdClient.CmdClient.Take` | acp/cmd_client.go:372-398 | the reader's region is the multiplexer's look-up step: the entry is out, and the reader holds the response for the call returned, or is free if there is none |
| `CmdClient.CmdClient.OpenStream` | acp/cmd_client.go:192-199 | the region is the step that starts a prompt: a session with one in flight refuses another, otherwise the stream is entered |
| `CmdClient.CmdClient.ShutDown` | acp/cmd_client.go:532-558 | the region is the shutdown step of both machines: the first empties both tables and gets what they still have to be told, later ones get nothing |
| `RpcStreams.InvStep` | acp/rpc.go:33-142 | each step of caller, watcher, reader and final failure keeps: a stream whose write has not failed is in the table, closed, or held by a thread that will close it |
| `RpcStreams.StreamsAreClosedOnce` | acp/rpc.go:33-54 | in every run, ids reused or not, a stream is never sent to after its close and is closed at most once, until its caller closes it after a failed write |
| `RpcStreams.StreamsAreNotOrphaned` | acp/rpc.go:93-219 | in every run with fresh ids a stream whose write has not failed is in the table, closed, or held by a thread that will close it |
| `RpcStreams.StreamsEndForReason` | acp/rpc.go:93-224 | in every run a stream is sent to only after an event its id led to, the end of its context or of the connection, and closed only after a terminal event, one of these ends or a failed write |
| `RpcStreams.EventReachesStream` | acp/rpc.go:186-204 | an event the table leads to a stream reaches it if it is open; a terminal one takes it out of the table and closes it, any other leaves it there |
| `RpcStreams.CancelReachesStream` | acp/rpc.go:104-114 | the end of its context takes an open stream out of the table, sends it one event and closes it |
| `RpcStreams.OrphanedIff` | acp/rpc.go:104-142 | in every run it stops being so exactly when a step takes its id out of the table in another stream's name and no thread is about to close it |
| `RpcStreams.FailedWriteMisusesIff` | acp/rpc.go:99-102 | just before the outright close, some continuation misuses the channel exactly when it is closed already or the reader has found it and is not done |
| `RpcStreams.FailedWriteClosesTwice` | acp/rpc.go:99-102 | a failed write closes the channel again after the failing connection closed it |
| `RpcStreams.ReusedIDOrphansStream` | acp/rpc.go:104-114 | with a reused id one stream's watcher removes the other stream, which is then open with no thread to close it |
| `RpcClient.RpcClient.Register` | acp/rpc.go:122-134 | an empty or taken id is an error, otherwise the table points to the request |
| `RpcClient.RpcClient.FailAll` | acp/rpc.go:206-224 | empties the table; exactly the streams that were in it get the error, if open, and are closed |
| `RpcClient.FailOneStep` | acp/rpc.go:206-219 | failing one entry keeps: those out of the table have failed, the rest is as before |
| `CardState.CompactActions` | lark/card_state.go:211-244 | the two loops compute the compaction |
| `CardState.CompactKeepsLastSeven` | lark/card_state.go:211-244 | a list over the limit becomes eight entries, a finished summary and the last seven, changed in position only |
| `CardState.SummaryDescribesMerged` | lark/card_state.go:216-233 | the summary's title counts the merged entries in decimal, its detail lists their titles in order, one quoted line each |
| `CardState.CompactIsIndexed` | lark/card_state.go:235-243 | renumbering keeps entry i being panel i |
| `CardState.SummaryTitleInjective` | lark/card_state.go:228 | the summary's title determines the count it shows |
| `Text.TrimSpaceIff` | lark/card_renderer.go:220 | trimming removes the white space at both ends, all of it, and nothing else |
| `Text.DecimalReadsBack` | lark/card_state.go:228 | the digits of a count stand for it, without leading zeros |
| `RemoteCard.InsertAt` | lark/fake.go:118-145 | an element goes right before the first answer element, or nowhere |
| `RemoteCard.UpdateFirst` | lark/fake.go:214-240 | an update changes the first element with the id and no other |
| `RemoteCard.Gateway.InsertStreamingElementsBefore` | lark/fake.go:118-145 | the search loop and splice compute the insertion |
| `RemoteCard.Gateway.UpdateStreamingElement` | lark/fake.go:214-240 | the search computes the update |
| `RemoteCard.Gateway.Deliver` | lark/card_renderer.go:407-409 | a call and its retries: every attempt is recorded, the card changes once if one succeeds and not otherwise |
| `CardStreamingRenderer.CardStreamingRenderer.Append` | lark/card_renderer.go:161-173 | the new handle, card and error are those of the function the theorems speak of |
| `CardStreamingRenderer.CardStreamingRenderer.AppendProcess` | lark/card_renderer.go:175-282 | the nested branches compute the choice between ignoring, continuing and adding, with the insert, cache and compaction of each |
| `CardStreamingRenderer.CardStreamingRenderer.FlushPendingDelta` | lark/card_renderer.go:349-367 | suppresses, sends or fails, and empties the buffer unless it failed |
| `CardStreamingRenderer.CardStreamingRenderer.SyncLastAction` | lark/card_renderer.go:369-387 | suppresses, sends or fails the last action's text |
| `CardStreamingRenderer.CardStreamingRenderer.Finish` | lark/card_renderer.go:284-307 | flush, finalize and replacement, each stopping at the first error |
| `CardStreamingRenderer.CardStreamingRenderer.Fail` | lark/card_renderer.go:309-345 | the last running action fails or an error entry is added, then finalize and replacement |
| `CardDeltas.DeltaReachesHistory` | lark/card_renderer.go:175-282 | in the history of all actions a delta begins an entry exactly if it is a titled tool, a tool with no tool last, or no tool and not a continuation of its own kind; the entry has its kind, title and detail; otherwise the last entry alone changes, its old detail and the new one joined and trimmed, and is failed exactly if it was or the delta is a failing tool output |
| `CardDeltas.SameEntriesBegin` | lark/card_renderer.go:175-282 | a delta begins an entry in the compacted list exactly if it does in the full history |
| `CardDeltas.DeltaReachesList` | lark/card_renderer.go:175-282 | the renderer's own list follows the same rule, and is compacted after an insert that went through, except the fallback tool's |
| `CardDeltas.FailureIsListed` | lark/card_renderer.go:324-336 | a failing card marks its last action if it is running, with the error added to its detail, and lists an error entry otherwise |
| `CardDeltas.DeltaMakesCall` | lark/card_renderer.go:175-282 | a new entry is one insert of its panel above the answer, a continued one an update of its text unless the cache holds it, a blank delta no call; numbers, cache, counters and clock change accordingly, and a failed call leaves all but the number |
| `CardDeltas.AppendSendsIffDue` | lark/card_renderer.go:161-173 | the answer is sent exactly if five seconds have passed since the last call that went through or the buffer is as long as one update; the buffer is emptied unless the call failed |
| `CardDeltas.FinishStages` | lark/card_renderer.go:284-307 | which calls a finish makes, in order: the flush if there is buffered text the cache does not hold, the end of the streaming mode, and the replacement by one panel per action, with the icon of how it ended, and the answer; it stops at the first that fails |
| `CardDeltas.FailStages` | lark/card_renderer.go:309-345 | a failure makes the same calls whatever becomes of the flush |
| `CardActions.ActionsAreIndexed` | lark/card_renderer.go:188-281 | in every reachable state, failed calls and compactions included, entry i is panel i with sequence i |
| `CardActions.ListIsBounded` | lark/card_renderer.go:188-281 | at most eight entries, two more for each entry added without reaching the compaction, one more only with a tool last |
| `CardActions.AtMostNine` | lark/card_renderer.go:208-245 | when every insert goes through and no error entry is added: at most nine entries, nine only with a tool last |
| `CardActions.CompactionSimulates` | lark/card_renderer.go:175-282 | after any run the compacting renderer takes the same branch for the next delta as one that never compacts, and its last seven entries are the last seven of the full history |
| `CardActions.SummaryCountsHiddenIffFirst` | lark/card_state.go:216-233 | a new summary's count is the number of hidden actions exactly when nothing was hidden before |
| `CardSequence.SequencesIncrease` | lark/card_renderer.go:349-395 | of two streaming attempts the later has the larger sequence number unless it repeats the earlier call exactly |
| `CardMirror.MirrorKeptIffFresh` | lark/card_renderer.go:349-387 | from distinct ids and a cache that tells what the card shows, an operation keeps both exactly when its insert, if any, uses an id not on the card |
| `CardMirror.MirrorUntilCompaction` | lark/card_renderer.go:199-207 | so the cache is right for every element, whatever calls failed, up to and including the first compaction |
| `CardMirror.PanelWithIDShowsText` | lark/card_renderer.go:369-387 | then, if a continuation returns no error, sent or suppressed, the panel with the last action's current id shows its truncated text |
| `CardMirror.SharedIDUpdatesOlder` | lark/fake.go:214-240 | when two panels share the last action's id, its updates go to the older panel and are cached as shown |
| `CardMirror.TenToolsShareAnID` | lark/card_renderer.go:188-211 | ten tools started without any failure leave two panels with one id |
| `CardMirror.TenToolsAreMiscounted` | lark/card_state.go:216-233 | they also leave a summary of two earlier actions above the last seven of ten |
| `CardAgreement.AgreementKeptIff` | lark/card_renderer.go:188-281 | with ids reused or not, from a cache that tells what every element shows an operation keeps that exactly when the text it writes under an id is what the other panels with the id show already |
| `CardAgreement.AlwaysAgreedIff` | lark/card_renderer.go:349-387 | so the cache is right throughout a run exactly when every operation of it meets that condition |
| `CardAgreement.TenthToolDisagrees` | lark/card_renderer.go:188-211 | nine tools and a tenth with another detail, no call failing: the ninth panel's text differs from its cache entry |
| `CardPanels.AlwaysOwned` | lark/card_renderer.go:188-207 | in every run each panel on the card is, but for its text, the one that some operation of the run inserted, in the order of the inserts |
| `CardPanels.LastWasAdded` | lark/card_renderer.go:188-281 | the last action of any list was added by an operation of the run, to which the next row applies |
| `CardPanels.ContinuationReachesIff` | lark/card_renderer.go:199-223 | after any run and however its insert went, the last action's updates go to a panel inserted for it exactly when the insert went through, did not compact the list and used a new id; then a continuation without error shows there, otherwise it changes another action's panel, the first with the id, or none |
| `CardPanels.ContinuationReachesCard` | lark/card_renderer.go:369-387 | until the first compaction an action is reached exactly if its insert went through: a continuation without error, sent or suppressed, shows on the panel inserted for it; if the insert failed, the card does not change |
| `CardPanels.NinthToolIsMissed` | lark/card_state.go:235-243 | nine tools and one output, no call failing: the ninth tool's panel stays and the eighth tool's panel gets the text |
| `CardPanels.FailedToolIsNowhere` | lark/card_renderer.go:199-206 | one tool whose start failed and one output: no error, and the card shows nothing of it |
| `CardPanels.TenthWritesOnNinth` | lark/card_renderer.go:199-206 | nine tools, a tenth whose start failed and one output: the tenth's text is on the ninth tool's panel |
| `CardAnswer.AnswerIsConserved` | lark/card_renderer.go:161-173 | before the finish, all deltas are the flushed part followed by the buffered part, and the cache holds the truncated flushed part |
| `CardAnswer.CardShowsFlushed` | lark/card_renderer.go:349-367 | and the card's answer element shows it, or still the placeholder, also after compactions |
| `CardAnswer.StreamedTextsGrow` | lark/card_renderer.go:349-367 | the answer texts sent, failed attempts included, form a chain of prefixes |
| `CardAnswer.FinishedCardShowsAnswer` | lark/card_renderer.go:284-307 | a finish without error leaves the given text, else all deltas, else the placeholder, below one panel per action in order, with the icon of how it ended, its title and its detail |
| `RateLimiter.StreamingLimiter.Wait` | lark/renderer.go:173-198 | the slot is the earliest one that is not before the reading and keeps both intervals to every earlier reservation |
| `RateLimiter.GrantsAreSpaced` | lark/renderer.go:173-198 | for arbitrary clock readings any two slots are the global interval apart, two of one chat the per-chat interval |
| `RateLimiter.RateInterval` | lark/renderer.go:166-171 | a limit is on exactly if 0 < Limit <= Window, and then its interval is the longest of which Limit fit into the window |
| `RateLimiter.RateBound` | lark/renderer.go:166-198 | with 0 < Limit <= Window a half-open window of length Window holds at most Limit + ceil((Window mod Limit) / interval) slots |
| `RateLimiter.LimitHonouredIffExact` | lark/renderer.go:166-171 | with 0 < Limit <= Window no run ever exceeds the global Limit per window, over all chats, exactly when the division is exact |
| `RateLimiter.ChatLimitHonouredIff` | lark/renderer.go:173-198 | no run ever exceeds a chat's Limit per window exactly when the window is at most Limit times the longer of the global and the per-chat interval |
| `RateLimiter.TruncationExceeds` | lark/renderer.go:166-171 | otherwise a burst of Limit + 1 requests fits in one window |
| `Retry.WithStreamingRetry` | lark/renderer.go:208-235 | at most MaxRetries + 1 runs, or one if that is not positive or wraps; every run before the last failed, not by a rate limit unless those are retried; gives up only then, on success, on a final failure or on interruption |
| `Retry.BackoffFor` | lark/renderer.go:237-257 | the loop computes the doubling with wrap-around and cap |
| `Retry.BackoffIffNoOverflow` | lark/renderer.go:237-257 | with a positive MaxBackoff, for every attempt it is min(Backoff * 2^a, MaxBackoff), Backoff for the first, exactly when no doubling within the cap overflows; both at most half the maximum is enough; without one, an attempt sleeps Backoff * 2^a exactly when that fits |
| `Retry.DoublingWraps` | lark/renderer.go:242-248 | otherwise some sleep is negative |
| `SelfFilter.SelfFilter.Ignore` | lark/filter.go:28-49 | an event is ignored outright or exactly when its id's latest `Remember` is at most the TTL old and fewer than the maximum of other ids came since |
| `SelfFilter.SelfFilter.Remember` | lark/filter.go:60-72 | the history of calls grows by this one, and map and list represent it again |
| `SelfFilter.UseFilter` | lark/filter.go:28-85 | over a whole run of look-ups and remembered ids with readings that never go back, every look-up answers what the calls before it call for |
| `SelfFilter.SelfFilter.Prune` | lark/filter.go:74-85 | one walk leaves a list another walk leaves alone |
| `SelfFilter.HeldIffKnown` | lark/filter.go:41-49 | after a prune the held ids are the ids the history knows |
| `SelfFilter.PrunedIsLongestSuffix` | lark/filter.go:74-85 | on a sorted list the walk keeps precisely the longest legal suffix |
| `SelfFilter.MapAndListAgree` | lark/filter.go:66-70 | map and list are in bijection: one element per id, where the map points |
| `SelfFilter.HeldIsSorted` | lark/filter.go:60-85 | with a clock that never goes back the list is sorted by expiry |
| `SessionKey.KeyIdentifies` | session/key.go:11-21 | under an injective hash two conversations share a key exactly when they are the same, if no field contains NUL |
| `SessionKey.JoinInjective` | session/key.go:19-20 | the joined string determines its parts |
| `SessionKey.NulAlwaysCollides` | session/key.go:12-20 | any field of the key but the scope: with a NUL in it there is another conversation with the same key, whatever the hash |
| `StateStore.BoltStore.MarkSeen` | state/bolt.go:158-184 | seen exactly while the stored expiry lies ahead, otherwise the expiry is set anew |
| `StateStore.BoltStore.Cleanup` | state/bolt.go:112-130 | a complete cleanup deletes the expired entries of the three buckets and nothing else |
| `StateStore.CleanupTimeBucket` | state/bolt.go:145-156 | the walk deletes exactly the expired instants |
| `Cleanup.CleanupIsInvisible` | state/bolt.go:112-211 | inserting cleanups that delete any expired entries changes no answer of any run whose later readings are not before the cleanup's |
| `Cleanup.CleanupInvisibleIff` | state/bolt.go:112-211 | a cleanup is invisible to all runs with readings from an instant on exactly when nothing it deleted still counts then, which is so from its own reading on |
| `Cleanup.InvisibleIffNoneCounts` | state/bolt.go:112-211 | the same for any deletions from the three tables |
| `Cleanup.SameAnswer` | state/bolt.go:112-211 | entries expired by an instant count for nothing at any later reading |
| `Cleanup.EarlierReadingSeesCleanup` | state/bolt.go:120-127 | a clock that goes back past a cleanup sees it |
| `EventGate.AcceptedIffWindowPassed` | state/bolt.go:158-184 | a key is accepted exactly when its last acceptance is at least the TTL ago; rejections do not extend the window |
| `EventGate.AcceptsPerWindow` | state/bolt.go:158-184 | a window of length L admits at most floor(L / ttl) + 1 per key |
| `EventGate.RepliesAreMarks` | state/bolt.go:186-211 | replies to unknown chats are gated exactly as dedupe marks with the interval for TTL |
| `EventGate.RepliesPerWindow` | state/bolt.go:186-211 | an unknown chat gets at most floor(L / interval) + 1 replies in a window of length L |
| `EventGate.App.HandleEvent` | app/app.go:112-158 | self filter, dedupe by event id or else message id with its store error, and routing in this order; only what passes them is queued |
| `EventGate.DuplicatesRepeat` | app/app.go:112-158 | an event is taken for a duplicate only if an earlier one with its event id, or else its message id, got through less than the TTL before |
| `EventGate.JobsPerWindow` | app/app.go:112-158 | the bound per window carries through to the jobs queued |
| `Sessions.Manager.ResolveAuto` | session/manager.go:67-93 | reuse, touch and open with every error path, and the record afterwards, field by field |
| `Sessions.ReuseIffContinues` | session/manager.go:67-93 | a use answers with the session of the use before it exactly when there was no reset, the gap is below the idle timeout and the age below the TTL |
| `Sessions.SessionsAreNotShared` | session/manager.go:67-93 | given fresh ids two keys never share a session |
| `Sessions.SameSessionIffContinues` | session/manager.go:67-93 | given fresh ids the previous session comes back exactly then |
| `WorkerQueue.JobsAreConserved` | worker/worker.go:44-85 | for any number of producers: accepted jobs are the consumed ones, in order, followed by the queued ones, which never exceed the capacity |
| `WorkerQueue.DroppedAreOldest` | worker/worker.go:55-61 | every dropped job was accepted before every job still queued |
| `WorkerQueue.HandledThenQueued` | worker/worker.go:71-85 | the handled jobs followed by the queued ones are the accepted ones in order with some left out |
| `WorkerQueue.RejectingLosesNothing` | worker/worker.go:54-64 | a worker that rejects drops nothing |
| `WorkerQueue.EnqueueNeverBlocks` | worker/worker.go:55-61 | with one producer the send after the drop always finds room, whatever the loop takes meanwhile |
| `WorkerQueue.NeverBlocksIffOneProducer` | worker/worker.go:44-65 | at any capacity no run of a set of producers blocks one exactly when the worker rejects or the set has at most one member |
| `WorkerQueue.SecondProducerTakesRoom` | worker/worker.go:55-61 | at any capacity: one producer drops the oldest job, another takes the room, and the first is left without |
| `WorkerQueue.UninterruptedEnqueue` | worker/worker.go:44-65 | the steps of one producer with nothing in between do what the method does: added with room, refused for want of room only without any, in the place of the oldest job otherwise |
| `WorkerQueue.Worker.Enqueue` | worker/worker.go:44-65 | the queue after an accepted job, unchanged after a refused one, and when each refusal happens |
| `WorkerHandle.Worker.Handle` | worker/worker.go:87-178 | a configured session is the only one ever prompted, registered or closed, and so is an ephemeral one, which is closed at the end; an automatic job prompts first the stored session if it is still good at the reading, else the one just opened; every prompt that gets a stream, and nothing else, is followed by its registration, and the request is unregistered; at most four prompts, four opened sessions and one refresh; the number of times a card is ended is told by the environment alone, for any streams: the terminal events shown, and one for a cancellation, a failed send or a failed refresh |
| `WorkerHandle.Worker.RenderEvents` | worker/worker.go:122-176 | without a stale-session error the stream is rendered event by event in order; with one, exactly one refresh: the events before it are rendered, it is announced, and the whole new stream is rendered; how often it ends the card, and whether late, is told by the context's look-ups |
| `WorkerHandle.EndedOnceIff` | worker/worker.go:122-176 | a started card is ended once exactly if no prompt gets a stream, one terminal event is shown and nothing cuts the stream off, or it is cut off before any |
| `WorkerHandle.WellFormedTimesEnded` | worker/worker.go:122-176 | with one terminal event per stream, at its end: once, or twice exactly if the context is found ended right after it and not before |
| `WorkerHandle.TwoErrorsEndTwice` | worker/worker.go:144-176 | the two errors of a process that went away end a card twice with no cancellation |
| `WorkerHandle.FinishThenCancel` | worker/worker.go:122-142 | an environment with well-formed streams in which a card is ended twice |
| `WorkerHandle.Worker.SendWithRecovery` | worker/worker.go:182-196 | one prompt, and after a stale-session error one reset, one resolve and one more prompt |
| `WorkerHandle.Worker.RefreshSession` | worker/worker.go:205-215 | at most two prompts and two opened sessions, all after a reset |
| `WorkerHandle.PromptsNameLastSession` | worker/worker.go:182-215 | a prompt names the session last opened, none having been forgotten since, or the one the job began with if none was opened or forgotten before |
| `WorkerHandle.RegistrationsFollowPrompts` | worker/worker.go:121-169 | a registration follows, at once, a prompt of the same session that got a stream, and each of those is followed by one |
| `WorkerHandle.ResendsUseNewSessions` | worker/worker.go:182-215 | between a reset and any later prompt, the prompt's session was opened, and no other since |
| `Runtime.Runtime.Finish` | session/runtime.go:36-47 | the request leaves both indexes, its chat's entry only if it is still the chat's current one |
| `Runtime.Runtime.Cancel` | session/runtime.go:49-61 | refuses an idle chat and a stranger, otherwise calls the cancel function of the chat's indexed request |
| `Runtime.StartCoherentIffNoClash` | session/runtime.go:29-34 | starting a request keeps the two indexes in agreement exactly when it replaces nothing but an earlier start of itself |
| `Runtime.IndexIsExact` | session/runtime.go:29-47 | with one worker per chat and distinct ids among the running requests both indexes hold exactly the running requests, through restarts on refresh |
| `Runtime.CancelReachesRunning` | session/runtime.go:49-72 | in every run a chat's status is the request its worker is running, and an authorised cancel calls that request's own function |
| `Runtime.EndedIsForgotten` | session/runtime.go:36-72 | after a request ends its chat is idle and its id unknown |
| `Runtime.LateFinishKeepsNewer` | session/runtime.go:36-47 | a request that its chat has replaced meanwhile ends without taking the newer one's place |
| `Runtime.ClashLeavesStale` | session/runtime.go:36-47 | with one id in two chats, the first to end unregisters the other's request and leaves its own behind for good |
| `WorkerManager.SameWorkerIffSameChat` | worker/manager.go:86-99 | two jobs get the same worker exactly when they are of the same chat |
| `WorkerManager.Manager.Close` | worker/manager.go:67-84 | the first close gets all workers to close, later ones none |

## Left out

- I/O and libraries: processes, stdio, websockets, TLS, the Lark API, bbolt transactions and JSON are outcomes chosen by the environment; stored times that cannot be decoded are not modelled.
- `WSClient`: it repeats `CmdClient` and adds no new theorem.
- `CardRenderer`, `StreamingRenderer`, `FallbackRenderer`: they render everything they keep anew at each flush, without a cache, a compaction or incremental calls, so they would add easy members only.
- Classification of process deltas: a delta is represented by its type, title, continuation and failure flags and formatted detail; panel layout beyond header and text is not modelled.
- Starting a card: the two calls that create and send it; a handle begins with the card they leave.
- Element names: ids such as `panel_3_content` are symbols that carry the number, so that two are equal exactly if the numbers are.
- Failed gateway calls: one that reports failure is taken to have left the card unchanged.
- Characters: a text is a sequence of Unicode scalar values, so a delta never ends inside one.
- `RateLimiter.StreamingLimiter.Wait`: returns the reserved slot; the sleep until it, with a second clock reading, is left out.
- `PromptStreams`: the agent's tool table and the summaries of its updates are left out; an update is what it shows, if anything.
- `RpcStreams`: plain requests share the table but have no events channel; they are left out, and so is a duplicate response that blocks the reader. A send on an events channel is one step, as if the consumer always made room.
- `RpcClient`: its methods are the regions with nothing in between; `RpcStreams` has the interleavings.
- `WorkerHandle`: one job at a time with a store that nobody else writes meanwhile; streams are finite, and one that stalls is one the context ends. Logging is left out.
- `WorkerHandle.Worker.Handle`: the strings by which a stale session is recognised are a flag of the error.
- `WorkerQueue.Worker.Enqueue`: when several cases of its select are ready, the choice among them is one flag, and a closed worker is reported before an ended context.
- `StateStore.BoltStore.Cleanup`: every expired entry is deleted; that bbolt may skip entries while it deletes is covered by `Cleanup`, which allows any subset.
- `SessionKey`: SHA-256 is any injective function.
- `WorkerManager.Manager.Close`: the cancellation of the workers' context and the wait until they have stopped are left out; the workers to close are returned.
- Liveness: that goroutines are scheduled and that timers fire is not modelled.
- Configuration, authorisation, mention routing and commands: flat checks; validated ranges appear as preconditions where a theorem needs them.
