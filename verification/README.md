# Verified model of the OmniGo gateway

OmniGo is a gateway in front of several LLM providers. A request names a model or a combo (a
chain of targets); the gateway tries targets until one answers, buffers each attempt until it is
certain to be an answer, re-frames streams between wire formats on the way, and keeps catalogs,
caches and credentials beside that. This project models the parts of it where order, timing and
incremental parsing decide what a client sees, and proves what they promise for every input, every
run and every way the network cuts the bytes.

What is here, hardest first:

* **The failover engine.** `Combo` is the meaning of `Combo.Run` with the callback of `runCombo`:
  every reading of the clock, of a context or of an upstream is an arbitrary answer of an
  environment (`Combo.Env`), which is only asked to have a clock that does not run backwards and a
  request context that stays ended (`Combo.Sane`). `ComboSafety` proves what a client may see,
  `ComboHealth` what a run does to the shared drain state and the rotation, `ComboEngine` is the
  imperative engine, refined step by step to `Combo`. `Strikes` and `RoundRobin` hold the strike
  window, the 429 back-off and the rotation.
  Claims about the loop over targets are proved one round at a time (`Combo.ChainInduction`).
* **Commit or buffer.** `SseCommit` is the incremental detector of a reply and its one-shot
  meaning, `Writers` the two nested buffering writers, `Attempts` what a provider does with them
  and exactly how that ends: straight to the outer writer, or account after account, each behind
  an attempt writer of its own. `ChatDispatch` and `ComboEngine` join them to the engine on one
  client: what a whole request sends it are the bytes of one attempt, or none, and one closing.
* **Stream re-framing.** `AnthropicTx` (state and steps), `AnthropicView` (a client that rejects
  every protocol violation, and the invariant), `AnthropicTools` (when tool fragments come too
  late for their block), `AnthropicStream` (the transaction as it runs);
  `CodexStream` and `CodexResponse` (streamed against collected answer); `SseProxy` (the verdict
  and usage of a proxied stream).
* **Stateful helpers.** `LruCache`, `IdleGuard`, `TokenManager`.
* **Catalogs and schemas.** `Effort` (the suffix codec), `Picker` (what the combo picker offers
  against what the target rule accepts), `Config` (validation, pruning, catalog refresh),
  `CleanSchema`, `GeminiContents` and `GeminiHeard` (which user texts arrive).

`Bytes` holds what all stream scanners share: lines, the open last line, white space, JSON values.

Some natural claims about this code are false. Each is stated as what holds exactly, beside a
lemma with an input that breaks the simpler claim:

* an error envelope never follows an answer: true of a combo exactly when it has no timeout
  (`ComboSafety.EnvelopeAfterBytesIff`, `ComboSafety.EnvelopeAfterAnswer`);
* a combo with a healthy target never runs out: exactly when its upstreams cannot fail after the
  client was reached (`ComboHealth.CommittedFailureDecides`, `ComboHealth.MarkingNothingKeepsHealthy`,
  `ComboHealth.CommittedFailureEmptiesOrder`; for one run, `ComboHealth.RunKeepsOneHealthy`);
* tool fragments always reach an open block: exactly when none with arguments follows text that
  came on top of its slot (`AnthropicTools.ToolsHitOpenIff`, `AnthropicTools.TextBetweenFragments`);
* every id the picker offers is an acceptable target: exactly when every clone fits
  (`Picker.AllOfferedAcceptedIff`, `Picker.MarkedFamilyIsRejected`, `Picker.ExtraIsRejected`);
* a catalog refresh keeps a config valid: exactly when no id is empty and the provider still
  covers its targets (`Config.RefreshStaysValidIff`, `Config.AllDisabledBreaks`, `Config.PickerRefreshBreaks`);
* every user's text reaches the Gemini contents: exactly when none stands between an assistant
  message that made calls and the next one (`GeminiHeard.EveryoneIsHeardIff`,
  `GeminiHeard.UserBehindCallsIsLost`).

README.md:134-151 of the repository says a combo's timeout is split evenly over the remaining
targets. The code gives every attempt all that remains (internal/combo/combo.go:27-31, 141-152);
the model follows the code.

Check the whole project with `dafny verify dfyconfig.toml` (Dafny 4.11).

## Model

| member | source | states |
|---|---|---|
| ComboSafety.ChatWire | internal/api/chat.go:418-470 | for every target list, budget, clock, upstream and client: once bytes of an attempt reached the client no further dispatch starts; the client gets the bytes of at most that attempt; an envelope follows them exactly when that attempt had finished well and its context ended meanwhile; and a run that reached nobody ends in one envelope |
| ComboSafety.ChainIsSafe | internal/combo/combo.go:46-106 | the same of the chain alone, from any point of it: only the last dispatch may have reached the client, and a run counts as served exactly when it did and its context was alive |
| ComboSafety.NoEnvelopeAfterBytes | internal/api/chat.go:466-470 | without a combo timeout and with a client that stays, bytes of an attempt are never followed by an error envelope |
| ComboSafety.EnvelopeAfterAnswer | internal/combo/combo.go:122-136 | for every combo with a timeout on an undrained tracker there are a sane clock and upstreams, and a client that stays, such that a complete answer is followed by an envelope: a context that ended turns a committed success into an error |
| ComboSafety.EnvelopeAfterBytesIff | internal/combo/combo.go:122-152 | so for every combo on an undrained tracker with a client that stays, an envelope can follow an answer exactly when there is a timeout |
| ComboSafety.RunAsks | internal/combo/combo.go:46-136 | entry number k of a run's log is what dispatch number k answered |
| ComboSafety.RetryMeansUntouched | internal/combo/combo.go:108-120 | a second try of a target happens only after a 502, 503 or 504 of an attempt that sent the client nothing, in a live context |
| ComboSafety.OneDispatch | internal/combo/combo.go:122-152 | a dispatch that reached the client and still returns an error returns only the end of its context, and then the client is gone or the budget spent |
| ComboSafety.OneTarget | internal/combo/combo.go:108-120 | one target gets one dispatch or two, and the client at most one attempt of it |
| ComboSafety.ChainTriesInOrder | internal/combo/combo.go:56-90 | targets are tried in the given order without gaps, twice only where a retry is allowed, and the chain gives up before the last one only when one served, the client left or the budget is spent |
| ComboSafety.SpentStops | internal/combo/combo.go:56-59 | a spent budget dispatches nothing more |
| ComboHealth.NeverNoHealthyTargets | internal/combo/combo.go:94-96 | over any number of sequential reliable or round-robin runs on one tracker with distinct targets: some target is healthy all the way exactly when no run empties the combo, and until one does "no healthy targets" never comes back; only round-robin needs its counter below 2^63 |
| ComboHealth.MarkingNothingKeepsHealthy | internal/combo/combo.go:94-96 | with upstreams that never fail after reaching the client, the callback marks nothing, some target stays healthy over any number of runs, and "no healthy targets" never comes back |
| ComboHealth.RunKeepsOneHealthy | internal/api/chat.go:438-455 | one run on a tracker with a healthy target finds it, and leaves none exactly when its last dispatch was of the last target of its order and failed after the client was reached, the callback parked it until later than now, and every other target is drained |
| ComboHealth.NoHealthyMeansEmptyOrder | internal/combo/combo.go:94-96 | "no healthy targets" comes back exactly when the order of a run is empty |
| ComboHealth.ChainSparesLast | internal/combo/combo.go:279-303 | a chain leaves the drain entry of its last target alone, unless its own last dispatch is of that target and the callback parks it |
| ComboHealth.CommittedFailureEmptiesOrder | internal/api/chat.go:438-455 | for every reliable or round-robin combo on an undrained tracker and every committed failure: when all other dispatches are refused with a 401 and the last target fails that way, with a standing clock and a client that stays, the next run finds no healthy target |
| ComboHealth.CommittedFailureDecides | internal/api/chat.go:438-455 | for every such combo on an undrained tracker and every set of answers its upstreams may give, a 401 refusal among them: some run in some sane environment finds no healthy target exactly when a failure after the client was reached is one of the answers |
| ComboHealth.OrderedFacts | internal/combo/combo.go:154-180 | an order holds exactly the targets found undrained, each once |
| ComboHealth.AllLimitedKeepsError | internal/combo/combo.go:97-101 | when all dispatches of a run met a limit, and neither the client left nor the budget ran out meanwhile, the typed error of the last one comes back unchanged, so the client gets 429 and not an aggregate |
| ComboHealth.RotationOrder | internal/combo/combo.go:166-180 | a round-robin order is a rotation of the healthy targets that starts where the counter says |
| ComboHealth.RotationIsFair | internal/combo/combo.go:154-180 | over any consecutive runs with an unchanged healthy list of n >= 2 and the counter below 2^63, any two targets lead equally often up to one, and equally often over a multiple of n |
| ComboHealth.RunCounts | internal/combo/combo.go:166-180 | a run bumps the rotation counter at most once, and fails to produce an order only when the counter has overflown |
| RoundRobin.StartIndexUsable | internal/combo/combo.go:170-178 | the start index is usable exactly while the counter, read as a 64-bit integer, is not negative or happens to divide evenly |
| RoundRobin.RotateIsPermutation | internal/combo/combo.go:170-178 | a rotation is a permutation and its k-th element is the start plus k, modulo n |
| RoundRobin.Fair | internal/combo/combo.go:166-180 | counting form of fairness over any window of consecutive counter values |
| RoundRobin.LeadsClosed | internal/combo/combo.go:166-180 | closed form of how often one index leads |
| RoundRobin.WholeRounds | internal/combo/combo.go:166-180 | over a multiple of n runs every target leads exactly the same number of times |
| Strikes.RememberedIsRecent | internal/combo/combo.go:308-323 | forgetting old strikes never changes a count: the filtered slice is always the strikes of the complete history inside the last minute |
| Strikes.StrikeLog.RecordTransient | internal/combo/combo.go:308-323 | filters its slice in place and appends; the count it returns is the number of strikes in the whole history later than now minus one minute, the new one included |
| Strikes.RecentTwice | internal/combo/combo.go:308-323 | filtering with an earlier cutoff first changes nothing |
| Strikes.RateLimitCooldown | internal/combo/combo.go:336-353 | the doubling loop with its early exit is min(60s, 5s * 2^n) for every n |
| ComboEngine.Engine.OrderedTargets | internal/combo/combo.go:154-180 | refines Combo.Ordered, drain look-ups and counter included |
| ComboEngine.Engine.NewContext | internal/combo/combo.go:138-152 | refines Combo.AttemptContext: the attempt gets all of the remaining budget |
| ComboEngine.Engine.Dispatch | internal/api/chat.go:419-463 | refines the callback on all sides: the tracker, the wire and the client, who has exactly what the wire trace spells |
| ComboEngine.Engine.Break | internal/api/chat.go:436-457 | a failure after the client was reached: the flag, the parking of the target and the error event of a stream, on the client and in the trace |
| ComboEngine.Engine.Park | internal/api/chat.go:440-449 | parks a target after a committed failure unless the client left or the gateway's own deadline ended the attempt |
| ComboEngine.Engine.DispatchOnce | internal/combo/combo.go:122-136 | refines Combo.DispatchOnce: an ended context turns even a success into an error |
| ComboEngine.Engine.Attempt | internal/combo/combo.go:108-120 | refines Combo.TryTarget: the one same-target retry and the clock readings before it |
| ComboEngine.Engine.MayRetry | internal/combo/combo.go:108-120 | allowed exactly for a 502, 503 or 504 that is no deadline, with the client there and budget left |
| ComboEngine.Engine.RecordTransient | internal/combo/combo.go:308-323 | refines the strike slice of one target, whatever the other targets' slices hold |
| ComboEngine.Engine.ShouldDrain | internal/combo/combo.go:289-303 | refines Combo.ShouldDrain: never the last healthy target, at once for 401, 429 and cooldowns, on the fifth strike for 5xx |
| ComboEngine.Engine.CooldownFor | internal/combo/combo.go:325-353 | refines Combo.CooldownFor: Retry-After, then the back-off, then the error's own cooldown, then the drain TTL |
| ComboEngine.Engine.MarkDrained | internal/combo/tracker.go:81-92 | refines Combo.MarkDrained: no entry for a ttl that is not positive |
| ComboEngine.Engine.AfterFailure | internal/combo/combo.go:60-83 | a failed target: the chain ends with the client or the budget, or the failure is counted and the target blamed |
| ComboEngine.Engine.TryNext | internal/combo/combo.go:56-90 | one round of the chain: either the result the chain ends with, or the tally to go on with |
| ComboEngine.Engine.TryAll | internal/combo/combo.go:46-106 | refines Combo.Chain from its first target |
| ComboEngine.Engine.Run | internal/combo/combo.go:46-106 | refines Combo.Run, state and trace |
| ComboEngine.Engine.RunCombo | internal/api/chat.go:399-470 | refines Combo.RunCombo: the flag of a committed failure and the final envelope |
| ComboEngine.Engine.ServeChat | internal/api/chat.go:399-470 | a whole request with real providers, writers and client: the client's body grows by the complete bytes of the last dispatch's job, or by no attempt bytes, and behind them by at most one error event or envelope; by an envelope alone when nobody was reached |
| SseCommit.ReplyPayloadIffPath | internal/api/response.go:107-149 | a decoded frame is a reply exactly when some path of reply keys and array indices leads to assistant text or a tool call |
| SseCommit.ScanMeaning | internal/api/response.go:59-82 | the fold over complete lines is ready exactly when some complete event carries a reply, and otherwise holds the name and data of the event under construction |
| SseCommit.HasReplySnoc | internal/api/response.go:59-82 | one more line completes a reply exactly when it is blank and the event it ends is one |
| SseCommit.EventFields | internal/api/response.go:66-82 | the last event field names an event and its data values join with newlines, whatever other lines stand between |
| SseCommit.CarriesReplyMonotone | internal/api/response.go:26-57 | more bytes never take a reply back |
| SseCommit.SseCommitState.Feed | internal/api/response.go:26-57 | for every growing body the answer is the one-shot meaning of what has arrived |
| SseCommit.SseCommitState.ConsumeLine | internal/api/response.go:59-82 | refines the fold by one line |
| SseCommit.FeedChunks | internal/api/response.go:26-57 | a whole presentation chunk by chunk: every answer is the meaning of its prefix, and the answers are monotone |
| Writers.BufferedResponseWriter.Write | internal/api/response.go:203-211 | bytes go on once committed and are kept before; the body is everything written in either case |
| Writers.BufferedResponseWriter.Flush | internal/api/response.go:213-228 | commits exactly when a reply is complete in a successful stream, and then every flush reaches the client |
| Writers.BufferedResponseWriter.Commit | internal/api/response.go:230-241 | hands over header, status and all bytes kept so far, once |
| Writers.BufferedResponseWriter.WriteHeader | internal/api/response.go:195-201 | only the first status before any write counts |
| Writers.BufferedResponseWriter.Finish | internal/api/response.go:247-277 | an error without errResponseCommitted exactly when the client is untouched; success of a buffered body exactly when status, body and reply rule allow it; otherwise the client has every byte |
| Writers.AttemptWriter.Write | internal/provider/accounts.go:266-271 | client bytes, outer buffer and inner buffer together always spell what was written, in order |
| Writers.AttemptWriter.Flush | internal/provider/accounts.go:273-289 | the inner writer commits on a flush only after the outer one has, and before that a flush moves nothing |
| Writers.AttemptWriter.CommitTo | internal/provider/accounts.go:304-322 | hands the inner header and bytes to the outer writer, once |
| Writers.AttemptWriter.Commit | internal/provider/accounts.go:324-343 | commits to the writer's own destination and flushes it |
| Writers.AttemptWriter.WriteHeader | internal/provider/accounts.go:257-264 | the first status other than 200 before the commit stays |
| Attempts.Apply | internal/provider/accounts.go:242-343 | after any operation on fresh writers: which header and status were handed over, whether the outer writer has committed, and that everything written is in the client, the outer or the inner buffer, in order |
| Attempts.Attempt | internal/api/response.go:176-277 | one attempt, any sequence of operations: how it ends is a function of stream, operations and error, and the client ends with all bytes of it or with none |
| Attempts.AttemptReachesIff | internal/api/response.go:213-277 | an attempt reaches the client exactly when it was committed with a success status, and either a flush found a complete reply or it ended without an error and with a presentable body |
| Attempts.ReachesWhere | internal/provider/accounts.go:273-289 | the client is reached before the end exactly when some flush or commit, at the first commit or after it, finds a complete reply among the bytes so far |
| Attempts.ConcludePost | internal/provider/openai.go:251-262 | how an attempt ends whose provider writes straight to the outer writer |
| Attempts.TryAccounts | internal/provider/codex/provider.go:312-329 | accounts in turn, each behind its own writer: the first without an error is handed over and decides, and with none the last error comes back and the client is untouched |
| Attempts.RunJob | internal/api/chat.go:432-437 | any job of a provider ends as the two shapes say, and the client has all of its bytes or is as it was |
| ChatDispatch.Serve | internal/api/chat.go:419-463 | one dispatch, unknown providers included: the engine is told the outcome the writers give this job, and the client is touched exactly when it got bytes, and then it got all of them |
| ChatDispatch.RunBytes | internal/api/chat.go:418-470 | when the upstreams of a run are the jobs of a client, the wire the run leaves spells the bytes of its last job, or none, and at most one closing |
| ChatDispatch.AnyRunBytes | internal/api/chat.go:418-470 | this leaves out no clock, no context and no list of jobs: every sane environment has a sane one that differs in its upstreams alone, which are those jobs, and its runs send the client just that |
| ChatDispatch.OneAnswer | internal/api/chat.go:418-470 | a safe wire trace spells one answer and one closing at most |
| AnthropicView.StepsKeepInv | internal/api/messages.go:399-502 | every delta keeps: the event stream is accepted, the client's blocks are the transaction's, stopped exactly when not open, only the top of the open list is text, and the blocks are the upstream's answer |
| AnthropicView.LinesKeepInv | internal/api/messages.go:387-442 | after any lines the client has exactly the upstream's answer so far |
| AnthropicView.OnTextShape | internal/api/messages.go:444-464 | text goes to an open text block on top, found or opened |
| AnthropicView.CallStep | internal/api/messages.go:466-502 | a tool fragment opens at most one block for its slot and its arguments reach that block |
| AnthropicView.UpToolArguments | internal/api/messages.go:466-502 | a slot's input is the concatenation of its arguments |
| AnthropicView.CommitsOnOutput | internal/api/messages.go:399-442 | the reply commits with the first text or tool fragment, never on a finish reason alone |
| AnthropicView.AcceptedStream | internal/api/messages.go:207-229 | an accepted event stream numbers its starts 0, 1, 2, ..., opens with its one message_start if it has one, stops a block at most once and only after a start of the same index, and a tool block's input is the partial_json sent to it |
| AnthropicView.TextArrives | internal/api/messages.go:444-464 | the text deltas put together are the upstream text |
| AnthropicView.FinishCompletes | internal/api/messages.go:258-313 | a successful finish leaves the client with all blocks, every one stopped |
| AnthropicView.FinishFails | internal/api/messages.go:258-313 | a failed finish is one error event, or silence when nothing was on the wire |
| AnthropicView.FinishText | internal/api/messages.go:258-313 | the terminal events carry no text |
| AnthropicTools.ToolsHitOpenIff | internal/api/messages.go:444-502 | in a whole reply every partial_json goes to a block the client has not seen stopped exactly when no fragment with arguments follows text that came on top of its slot |
| AnthropicTools.ClosedIffInterrupted | internal/api/messages.go:444-502 | after any lines a slot's block is closed exactly when text came while it was the last one opened |
| AnthropicTools.TextBetweenFragments | internal/api/messages.go:444-502 | text between two fragments of one call makes the second reach a stopped block, whatever they carry |
| AnthropicStream.Transaction.Parse | internal/api/messages.go:387-397 | however the bytes are cut, the state is that of the complete lines so far and the pending bytes are the open line |
| AnthropicStream.Transaction.Line | internal/api/messages.go:399-442 | refines one line |
| AnthropicStream.Transaction.OnDelta | internal/api/messages.go:444-464 | refines a text delta |
| AnthropicStream.Transaction.OnToolDelta | internal/api/messages.go:466-502 | refines a tool fragment |
| AnthropicStream.Transaction.CloseBlocks | internal/api/messages.go:367-385 | stops every open block, once |
| AnthropicStream.Transaction.Finished | internal/api/messages.go:258-313 | appends the terminal events, once |
| AnthropicStream.ReplyArrives | internal/api/messages.go:258-502 | after output without a failure the client holds exactly the upstream's answer, the message is ended, and every block has exactly one stop |
| AnthropicStream.Reply | internal/api/messages.go:258-502 | a whole reply for any split of the upstream bytes into writes: the events are a function of the bytes, a client accepts them all whether or not the reply began or failed, text arrives whole, tool fragments are late exactly as above, and after output without a failure the client holds the answer with every block stopped once |
| AnthropicStream.ChatReply | internal/api/messages.go:399-427 | the same with the line syntax of the source |
| AnthropicStream.SameEvents | internal/api/messages.go:387-397 | two ways of cutting the same bytes give the same events |
| CodexStream.StreamAgreesWithCollected | internal/provider/codex/provider.go:428-521 | after any events, putting the streamed chunks together gives exactly the message completeResponse builds; a call is announced once, under the next index, before its arguments |
| CodexStream.ConsumeAgrees | internal/provider/codex/provider.go:533-644 | one event streams exactly what it adds to the collected message, role chunk included |
| CodexStream.OneEvent | internal/provider/codex/provider.go:533-644 | the same of every event kind |
| CodexResponse.StreamState.AddToolCall | internal/provider/codex/provider.go:671-687 | refines adding a call and both of its look-up tables |
| CodexResponse.StreamState.FindToolCall | internal/provider/codex/provider.go:689-716 | refines the look-up by item id, item, call id, output index, or the only call |
| CodexResponse.StreamState.Handle | internal/provider/codex/provider.go:533-644 | refines one event without its role chunk |
| CodexResponse.StreamState.ConsumeEvent | internal/provider/codex/provider.go:533-653 | refines one event, the role chunk first |
| CodexResponse.StreamResponse | internal/provider/codex/provider.go:428-474 | the streamed chunks and the verdict, up to the first malformed event or the first frame the client does not take, and the closing frame exactly after an answer |
| CodexResponse.CompleteResponse | internal/provider/codex/provider.go:476-521 | the collected message and the verdict over the same events |
| CodexResponse.SameAnswer | internal/provider/codex/provider.go:428-521 | both paths reach the same verdict on the same events unless a client write failed, and a completed stream reassembles to the collected message |
| SseProxy.SseProxyState.ScanLines | internal/provider/openai.go:312-332 | for every chunk: whether a completion signal ended in it, and the open line, too-long mark and last usage carried over |
| SseProxy.SseProxyState.AddLine | internal/provider/openai.go:334-346 | keeps the open line up to the limit and gives it up beyond |
| SseProxy.SseProxyState.ObserveUsage | internal/provider/openai.go:355-362 | the last usage object wins |
| SseProxy.SseProxyState.PendingComplete | internal/provider/openai.go:348-353 | whether the unterminated last line of all bytes read is short enough and a completion signal |
| SseProxy.SseProxyState.Release | internal/provider/openai.go:364-377 | a released state is as good as a fresh one |
| SseProxy.Conclude | internal/provider/openai.go:265-310 | the verdict at the end of the body is the one of all lines, the unterminated one included |
| SseProxy.Forward | internal/provider/openai.go:265-310 | what was written is a prefix of the upstream bytes, all of them unless a write failed |
| SseProxy.ProxyStream | internal/provider/openai.go:265-310 | for every chunking: bytes unchanged, verdict and usage those of the lines of at most the maximal length, and the pooled state ends as it began |
| SseProxy.ProxyChat | internal/provider/openai.go:379-413 | the same with the source's completion signal: finished exactly when some line is one |
| LruCache.RunIsValid | internal/cache/cache.go:51-131 | after any history order lists the keys of items without repeats and stays within capacity |
| LruCache.HitIsLatest | internal/cache/cache.go:51-73 | every hit returns the latest value set and never an expired one |
| LruCache.StackDistance | internal/cache/cache.go:75-102 | a key with fewer than capacity distinct other keys touched since its own last touch is in the cache with its latest value, from any history |
| LruCache.RecentIsHit | internal/cache/cache.go:51-102 | the guarantee as a caller sees it: not deleted, not expired, and fewer than capacity distinct other keys touched since its own last touch, hence a hit on the latest value |
| LruCache.EvictedIsCold | internal/cache/cache.go:84-98 | a key is evicted only when at least capacity distinct other keys came after it |
| LruCache.RunTracks | internal/cache/cache.go:51-131 | after any history the cache knows of every key what the history says of it |
| LruCache.LRUCache.Get | internal/cache/cache.go:51-73 | refines a look-up: an expired item is removed, a hit moves to the back |
| LruCache.LRUCache.Set | internal/cache/cache.go:75-102 | refines a store: eviction only for a new key in a full cache |
| LruCache.LRUCache.Delete | internal/cache/cache.go:104-110 | refines a removal |
| LruCache.LRUCache.Close | internal/cache/cache.go:112-118 | empties the cache |
| LruCache.LRUCache.RemoveOrder | internal/cache/cache.go:120-131 | splices the first occurrence out of the order |
| IdleGuard.StallMeansSilence | internal/provider/stream.go:131-176 | in every timed interleaving an idle stall means at least idle - floor(idle/2) of real silence, the stall is declared once and cancel runs at most once |
| IdleGuard.EarliestStall | internal/provider/stream.go:161-176 | that bound is met, up to one tick |
| IdleGuard.StallIsFinal | internal/provider/stream.go:156-159 | a stall keeps its cause and time whatever comes later |
| IdleGuard.SilenceStalls | internal/provider/stream.go:131-144 | with prompt timers a silence of idle after the last byte always ends in a stall |
| IdleGuard.PromptInv | internal/provider/stream.go:117-176 | with prompt timers the timer is always one window after the stamp, and an idle stall comes at most idle after the last byte |
| IdleGuard.IdleGuard.Touch | internal/provider/stream.go:161-176 | refines a byte: the first half of the window leaves the timer alone |
| IdleGuard.IdleGuard.OnIdleTimer | internal/provider/stream.go:131-144 | refines the idle callback, late and overtaken ones included |
| IdleGuard.IdleGuard.OnBudgetTimer | internal/provider/stream.go:146-154 | refines the budget callback |
| IdleGuard.Drive | internal/provider/stream.go:103-214 | a guard driven by any timed sequence ends as the functions say, with at most one cancel; a read that failed after a stall reports that stall, and a reported silence was one |
| TokenManager.OneExchangePerRejection | internal/provider/codex/refresh.go:40-91 | in every interleaving, unforced refreshes at any moment among them, forced refreshes for one rejected non-empty access token make at most one successful exchange, when writes succeed and tokens are never re-issued |
| TokenManager.RejectedPairIsNotRetried | internal/provider/codex/refresh.go:44-97 | a pair rejected as unrecoverable is never posted again while the store holds it, whoever asks |
| TokenManager.RejectionKills | internal/provider/codex/refresh.go:75-97 | an unrecoverable rejection is what makes the pair dead |
| TokenManager.RefreshPosts | internal/provider/codex/refresh.go:44-91 | exactly when a refresh adds a successful exchange |
| TokenManager.EnsuredIsRun | internal/provider/codex/refresh.go:26-38 | a whole call, with any actions of others between its reading of the store, its test of the dead pair and its refresh, leaves what a sequence of atomic actions leaves: theirs in order and one more refresh at most, so every run property holds of it |
| TokenManager.SharedManager.Probe | internal/provider/codex/refresh.go:31-36 | the unlocked tests of credentials read before: the two answers without a refresh, or the wish to refresh |
| TokenManager.SharedManager.EnsureFreshToken | internal/provider/codex/refresh.go:26-38 | its answer and what it leaves, with whatever other callers do between its unlocked steps |
| TokenManager.SharedManager.ForceRefreshToken | internal/provider/codex/refresh.go:40-42 | refines a forced refresh |
| TokenManager.SharedManager.RefreshToken | internal/provider/codex/refresh.go:44-91 | refines the refresh under the mutex, its early answers and what it stores |
| Effort.RoundTrip | internal/effort/effort.go:45-77 | Split undoes Apply exactly when the base is not empty and the pair is not low on extra or on a longer id ending in -extra |
| Effort.SplitSpells | internal/effort/effort.go:45-64 | base and suffix found spell the id again and the base is never empty; an id without a suffix is its own base |
| Effort.SplitsExtraLow | internal/effort/effort.go:10-12 | low on a longer id ending in -extra reads as extra-low |
| Effort.OtherSuffix | internal/effort/effort.go:12-28 | the order of the table matters only for low and extra-low |
| Picker.OfferedIsAccepted | internal/provider/effort.go:97-128 | every id the picker offers is accepted as a target on the same catalog when each family base is non-empty, carries no further suffix and is neither extra nor ends in -extra |
| Picker.CloneAcceptedIff | internal/config/config.go:149-165 | exactly which clones the target rule accepts, all exceptions included |
| Picker.AllOfferedAcceptedIff | internal/provider/effort.go:97-128 | without that condition: picker and rule agree exactly when every clone fits |
| Picker.MarkedFamilyIsRejected | internal/provider/effort.go:24-26 | a family that still carries a capability marker is offered and rejected, for every such family |
| Picker.ExtraIsRejected | internal/effort/effort.go:46-50 | the clone extra-low of a family extra is offered and rejected |
| Picker.PickerMeaning | internal/provider/effort.go:97-128 | each listed model once and in first-seen order, a clone for every level of every listed model unless listed itself, no id twice, nothing else |
| Picker.ModelsWithEffort | internal/provider/effort.go:97-128 | refines that list, family index and both skips included |
| Picker.DedupeLevels | internal/provider/effort.go:64-78 | exactly the concrete levels, each once, in first-seen order |
| Picker.EffortFamilies | internal/provider/effort.go:43-52 | exactly the bases with a level variant |
| Picker.VariantsMeaning | internal/provider/effort.go:28-36 | which levels a base has, without repeats, for every provider type |
| Picker.ListedTargetMonotone | internal/config/config.go:149-165 | a larger catalog accepts no fewer targets |
| Config.RefreshStaysValidIff | internal/config/mutate.go:82-97 | SetModels on a valid config without smart combos gives a valid one exactly when no active id is empty and the provider keeps active models, or has no models at all, or its disabled ones still list every target that names it |
| Config.RefreshStaysValid | internal/config/mutate.go:82-97 | in particular with non-empty ids and active models left or none disabled |
| Config.AllDisabledBreaks | internal/config/mutate.go:46-77 | when every fetched model is disabled, pruning keeps targets that Validate then rejects |
| Config.PickerRefreshBreaks | internal/config/config.go:138-165 | and so it is with the target rule of the source, for every capability table and every kind of provider |
| Config.PruneIsIdempotent | internal/config/mutate.go:46-77 | pruning twice is pruning once |
| Config.PrunedMeaning | internal/config/mutate.go:46-77 | what is left are the combos of before with the targets that pass, and every combo with a passing target is left |
| Config.PrunedFixed | internal/config/mutate.go:46-77 | pruning changes nothing exactly when every combo is left as it is |
| Config.ValidSurvivesPruning | internal/config/mutate.go:42-45 | where nothing is disabled, pruning a valid config drops nothing |
| Config.PickerRules | internal/config/config.go:138-165 | the target rule is one to which all of this applies |
| Config.Config.Validate | internal/config/config.go:378-473 | no error exactly when providers and combos are valid, and otherwise the first entry at fault |
| Config.Config.PruneComboTargets | internal/config/mutate.go:46-77 | refines pruning against the active catalogs |
| Config.Config.SetModels | internal/config/mutate.go:82-97 | the first provider of that name gets the fetched models that are not disabled and the combos are pruned; validity is kept exactly as above; an unknown name changes nothing |
| CleanSchema.CleanIsFit | internal/provider/antigravity/translate.go:427-485 | no schema object of a cleaned tree has an unsupported key or a list-valued type, and a required list names defined properties |
| CleanSchema.CleanIsIdempotent | internal/provider/antigravity/translate.go:427-485 | cleaning changes nothing exactly on fit trees, so cleaning twice is cleaning once |
| CleanSchema.CleanKeeps | internal/provider/antigravity/translate.go:445-455 | only keywords go: properties keep their exact names, lists their length, scalars their value, and every supported key its place, but for a union's type and a required list |
| CleanSchema.UnionMeaning | internal/provider/antigravity/translate.go:430-444 | a union leaves its first non-null type, and null sets nullable |
| CleanSchema.RequiredMeaning | internal/provider/antigravity/translate.go:456-475 | a required list keeps exactly the defined names in order and goes when none is |
| CleanSchema.CleanSchema | internal/provider/antigravity/translate.go:427-485 | the in-place pass gives this result whatever the order maps are iterated in |
| GeminiContents.CallsAreAnswered | internal/provider/antigravity/translate.go:81-139 | in every successful result a turn with calls is a model turn followed at once by a user turn with exactly one response per call, matching id, name and order; responses occur nowhere else |
| GeminiContents.JumpMovesNothing | internal/provider/antigravity/translate.go:81-139 | every successful result is what the messages tell one at a time, each in its place and nothing skipped: leading system texts, an assistant\'s turn with the answers to its calls, any other text unless an exchange uses it up; the index jump moves and repeats nothing |
| GeminiHeard.EveryoneIsHeardIff | internal/provider/antigravity/translate.go:221-236 | in a successful result every user text arrives in order exactly when none stands behind an assistant message that made calls, with no other assistant message in between |
| GeminiHeard.UserBehindCallsIsLost | internal/provider/antigravity/translate.go:125-132 | for every conversation whose last assistant message made calls: a user text added behind it is lost, though the translation succeeds |
| GeminiContents.FailsExactlyOnFault | internal/provider/antigravity/translate.go:85-89 | it fails exactly when some message is faulty, with the error of the first one, even behind a jump |
| GeminiContents.ResultMeaning | internal/provider/antigravity/translate.go:221-261 | a call's result is the text of the last tool message with its id before the next assistant |
| GeminiContents.NoResultMeaning | internal/provider/antigravity/translate.go:248-253 | and {} when there is none |
| GeminiContents.ReadReplies | internal/provider/antigravity/translate.go:221-261 | refines the answers of one exchange and how many messages it uses up |
| GeminiContents.ReadCalls | internal/provider/antigravity/translate.go:171-204 | refines the calls of an assistant message and the first malformed one |
| GeminiContents.ReadContents | internal/provider/antigravity/translate.go:81-139 | refines the whole translation with its moving index |

## Left out

- JSON decoding and encoding: an uninterpreted function from bytes to the decoded shape; the capability table of `Picker` likewise is any function.
- HTTP clients, transports, OAuth exchanges, trace headers, metrics, logs, dashboards, vault and config files, encryption, random ids and cache-key hashing: I/O over code that is not part of this model.
- Concurrent runs of one combo on a shared tracker: the "no healthy targets" result is proved for sequential runs and is not claimed for concurrent ones.
- Drain reasons, persistence of drains and `Clear`: the tracker is its drain map and the clock.
- Errors of the failover engine: an error is what errors.As and errors.Is can find in it (status, cooldown, retry-after and so on); message texts are not modelled.
- Client writes in `Writers` do not fail; in `SseProxy` they may, at any point. The error event and the error envelope are fixed bytes, whatever error they spell.
- CodexResponse.StreamResponse: counts the frames the client took in full; the part of a frame that a failed write delivered is not modelled.
- Writers.AttemptWriter.Commit: models a commit to the writer's own destination, not to a different one or to none.
- Telemetry headers put on the buffered writer before a provider runs: an attempt writer's commit clears them again, and no rule modelled here reads them.
- Client pings of the Anthropic stream: a ping may still race after the terminal event, so they are no part of the event list; the non-streaming rendering of a message and the prompt side are left out as well.
- Several attempts on one Anthropic transaction: pending bytes and the finish flag are not reset between attempts, so the model is of one attempt.
- Usage details of the Codex stream and its SSE framing: the model starts at decoded events; tool calls are positions in a list instead of pointers.
- Aliasing of the byte slice given to the cache: a stored value is the value at the time of the call.
- The antigravity finish reason: stream and aggregate compute it from different call counts.
- The opencode translation: output applied at completion is not streamed, so the agreement proved for Codex does not hold there.
- CleanSchema.CleanSchema: works on values; that the source rewrites the caller's maps in place, and so changes a shared subtree everywhere, is not captured.
- Config.Config.Validate: does not model duration strings and the cache and quota sections; whether a smart combo's routes resolve is a parameter.
- Lower-casing of event names reaches ASCII letters only as far as it can produce one of the ping names.
- IdleGuard.Drive: the mutex puts callbacks in a sequence, so interleavings are sequences of whole callbacks; a callback's own clock readings may still be apart.
- Limiters, quota cooldowns, timeout parsing and account identity: easy members.
