# Numbat, verified

A Dafny model of the stateful parts of the Numbat agent daemon, with proofs of
the guarantees that span several of its functions. `dafny verify dfyconfig.toml`
checks the whole project.

## What is modelled

| module | part of Numbat |
|---|---|
| `Messages` | messages and content blocks; what it means that every tool call is answered |
| `AgentLoop`, `Budget`, `AnthropicStream` | one agent run: the loop, request truncation, the provider's filter, stream parser and retries, mid-run compaction |
| `SessionStore`, `SessionHandler` | a session's stored thread over any sequence of messages, clears and compactions |
| `EventStream`, `EventServer` | event subscriptions: replay, activation, broadcast, eviction, writers |
| `ToolInvoker`, `TraceReader` | one tool call with its permission check and retries, and reading its outcome back from a trace |
| `NestedAgents` | runs that spawn runs through retried tool calls |
| `Permissions`, `DecisionLog`, `PermissionManager` | the permission decision, its wait/respond/timeout/cancel protocol, its caches and policy file |
| `GuardedTools` | tool calls under the permission protocol: what must have happened before a body runs |
| `SenderQueues`, `ChannelManager` | per-sender queues and workers of the message channels |
| `RpcCalls`, `RpcClient` | the RPC client's correlation of responses with calls |
| `ListDir`, `RateLimiter`, `TaskStore` | the capped directory walk, the token bucket, the store of tasks and their dependencies |
| `Basics` | shared vocabulary |

Sequential code is modelled by classes and methods with the loops the program
has. Each method is proved equal to a function on values, and the guarantees are
proved about those functions: on what they keep over whole runs, and on what they
answer, read off the inputs, the replies or the run's actions alone.

Concurrent code (`EventStream`, `Permissions`, `SenderQueues`, `RpcCalls`) is a
transition system in which an action is one atomic step of one goroutine: a
section under a lock, one channel operation, one write. A run is any sequence of
enabled actions; the guarantees hold in every reachable state, hence for every
interleaving. Beside each stands the module with the program's objects, whose
methods change fields in place and are each proved to be one action of the
system. A send to a bounded channel is enabled only while there is room, and
closing or sending on a closed channel is not expressible, so these methods also
show the absence of blocking sends and of such panics where that is claimed.

What the program does not decide comes in as a parameter: the model's replies,
tool results, user decisions, the clock, what a file parses to. Regular
expressions, glob patterns and the JSON decoder are uninterpreted functions.
A map or directory is walked in an arbitrary order.

### Terms

* A history is *paired* when the tool calls of each assistant message are
  answered, in order and completely, by the message right after it, and nothing
  else is answered. It is *balanced* when no call is outstanding at its end, which
  is all the session store looks at. Paired implies balanced.
* The provider *obeys* when a reply that contains tool calls stops with
  `tool_use` or `max_tokens`. The stream parser does not enforce this; its default
  stop reason is `end_turn`.

### Where the guarantees end

Some expected properties fail on inputs the program can meet. For each there is
the exact condition, and a lemma that shows the failure:

* an iteration of the loop keeps a paired history paired if and only if the reply
  obeys (`AgentLoop.IteratePairsIff`);
* a turn leaves the stored thread balanced if and only if the run was not
  compacted with tool calls left in its last reply (`SessionHandler.SendKeepsPaired`;
  `EndsDanglingIff` says when that is, `ErrorAfterCompactionDangles` how it happens,
  `DanglingHidesTurns` what follows);
* a stream's tokens spell its text, whatever the pieces, if and only if text
  arrives block after block (`AnthropicStream.TokensSpellTextIff`, `TokensCanDiffer`);
* a decision that `Respond` accepted is the check's answer if and only if the check
  did not time out and was not cancelled first (`Permissions.AcceptedStandsIff`,
  `TrueMayBeOvertaken`);
* a waiting check can be reached by `Respond` if and only if no other check under
  its id registered or gave up after it registered (`Permissions.OwnsEntryIff`,
  `WaitingIsReachedIff`, `ClashingIdsStrand`);
* a listing that leaves entries out says so if and only if one of them is not below
  the 200th (`ListDir.WalkTruncatesIff`, `OmissionCanBeSilent`);
* after a task completes, somebody still waits for it if and only if its own list
  names it and keeps it (`TaskStore.CompletedIsAwaitedIff`,
  `SelfBlockSurvivesCompletion`).

Two more depend on how names are chosen; the names the program makes are safe:

* cached decisions agree with the decision log if and only if no session id and
  "::" begin another session id and "::"; ids as the program generates them never do
  (`DecisionLog.CachesAgreeIff`, `GeneratedIdsApart`);
* messages are accounted for, per sender and channel, if and only if no two parties
  share a queue key. For senders without a "/", such as Telegram's decimal chat ids,
  that holds whatever the channels are called (`SenderQueues.PlainSendersApart`); for
  arbitrary senders, if and only if no channel's name and "/" begin another's name
  (`EverySenderAccountedIff`). Parties that do share a key need a sender id with a
  "/" in it, and can be confused (`ClashMisdirects`).

### Code and documentation

`docs/transport.md` and `docs/compact.md` describe an automatic compaction of long
histories when a message is sent; `internal/transport/handler.go` has none, and
neither has the model.

## Model

| member | source | states |
|---|---|---|
| EventStream.DeliveryIsGapFree | internal/transport/server.go:144-293 | In every reachable state, subscription i is what the i-th registration asked for, and the messages taken from its channel followed by those still buffered are exactly the records its replay handled that match the topics asked for, then the events broadcast after its activation until the step that took it out (a registration or removal of its connection, or the matching event that found 256 waiting) that match the topics and scope asked for: none missing, none reordered. As many were taken and written as the run took such steps. |
| EventStream.SubsAreAsAsked | internal/transport/server.go:203-219 | Every registration makes one subscription, and its connection, topics, scope and recorded events stay those asked for. |
| EventStream.MatchesIff | internal/transport/server.go:174-200 | An event passes exactly if some topic pattern matches (or none is given) and the scope is empty, "global" or "run:" and the event's run id. |
| EventStream.WriterMoves | internal/transport/server.go:284-304 | In every reachable state a writer waits only on an empty channel that is still in use, and leaves exactly after a failed write or a closed, drained channel. |
| EventStream.ReplayMoves | internal/transport/server.go:222-274 | A replay waits only for a full channel still in use; activation comes exactly when it has seen everything or its subscription has ended; the server's own steps are never held up. |
| EventStream.RefinesStream | internal/transport/server.go:144-293 | Every action refines the simple specification: a subscription's stream only grows at its end, and its delivered prefix only by the next element. |
| EventStream.NoSilentLoss | internal/transport/server.go:157-169 | A matching event is lost to a live subscription only by evicting it: otherwise it joins the stream. |
| EventStream.ChannelsAreSafe | internal/transport/server.go:157-313 | No channel is closed twice; a subscription's channel is open exactly while the table lists it, so broadcast never sends on a closed channel. |
| EventStream.WhoClosesConnections | internal/transport/server.go:284-313 | A writer that exits closes its connection exactly if its subscription has not been replaced by then; a replaced one is closed only after its own write failed. |
| EventStream.LogIsBroadcasts | internal/transport/server.go:144-171 | The log the streams are cut from is exactly what was broadcast, in lock order. |
| EventStream.NextKeepsInv | internal/transport/server.go:144-313 | Every action of every goroutine keeps table, channels, writers and streams consistent. |
| EventStream.ReachableIsInv | internal/transport/server.go:144-313 | That invariant holds in every reachable state. |
| EventServer.Server.RegisterSubscriber | internal/transport/server.go:203-219 | Installing a subscription is the Register action: the connection's old one is detached and its channel closed once, the new one is what was asked for. |
| EventServer.Server.ReplayRecord | internal/transport/server.go:230-274 | One replayed record is the ReplayNext action, a closed channel ending the replay. |
| EventServer.Server.ActivateSubscriber | internal/transport/server.go:222-226 | Activation, after the replay, is the Activate action. |
| EventServer.Server.BroadcastEvent | internal/transport/server.go:144-171 | The loop over the table, in any map order, is the one Broadcast action: each matching live subscription gets the event or is evicted. |
| EventServer.Server.WriterReceive | internal/transport/server.go:284-289 | The writer's receive takes the oldest buffered message. |
| EventServer.Server.WriterWrite | internal/transport/server.go:284-303 | A write extends the delivered prefix by the message taken, or stops the writer. |
| EventServer.Server.WriterDrained | internal/transport/server.go:284-289 | The range loop ends only on a closed and drained channel. |
| EventServer.Server.WriterExit | internal/transport/server.go:290-293 | A leaving writer closes the connection unless its subscription was replaced. |
| EventServer.Server.RemoveSubscriber | internal/transport/server.go:306-313 | Removal closes the listed subscription's channel, and no other. |
| Messages.PairedIsBalanced | internal/session/store.go:193-208 | The loop's notion of answered calls implies the store's. |
| Messages.PairedAppend | internal/loop/loop.go:103-154 | Paired histories concatenate to paired histories. |
| Messages.PendingIff | internal/session/store.go:193-208 | A call is outstanding exactly if some message makes it and no later message answers it. |
| Messages.AsksSay | internal/session/store.go:197-205 | Calls are the tool_use blocks of assistant messages, answers the tool_result blocks of user messages; others do not count. |
| Messages.ToolUsesAppend | internal/loop/loop.go:195-203 | The calls of a reply are taken block by block, in order. |
| AgentLoop.IteratePairsIff | internal/loop/loop.go:58-122 | One iteration, however it ends and whatever order its tools finish in, keeps a paired history paired if and only if the reply obeys. |
| AgentLoop.RunKeepsPaired | internal/loop/loop.go:58-124 | A whole run keeps the history paired. |
| AgentLoop.RequestsArePaired | internal/loop/loop.go:62-88 | Every request of a run is paired, after truncation and after the provider's filter. |
| AgentLoop.RunEnds | internal/loop/loop.go:58-125 | A run leaves status running if and only if it may take a step, within its step limit. |
| AgentLoop.AbortedIsCancelled | internal/loop/loop.go:88-96 | Run returns an error only for a cancelled run, which is marked failed with reason cancelled. |
| AgentLoop.AbortedIff | internal/loop/loop.go:88-96 | Run returns an error if and only if the run ends with reason cancelled. |
| AgentLoop.RunInWorldTerms | internal/loop/loop.go:58-124 | How many steps a run takes, whether it is compacted and which reply it keeps, read off the replies and summaries alone. |
| AgentLoop.RunOutcome | internal/loop/loop.go:88-117 | How a run ends, by its last turn: cancelled or llm_error with the error's text, success with the reply's text, or exceeded_max_steps. |
| AgentLoop.CallsGetTheirOwnResults | internal/loop/loop.go:131-173 | After a reply with calls the next message holds, for the k-th call, its own id and the k-th outcome's text and error mark; after one cut off by the token limit, its id and the limit error. |
| AgentLoop.RunHistory | internal/loop/loop.go:58-122 | The history a run leaves is what it began with, or the two messages of its last compaction, followed by one exchange for every turn since. |
| AgentLoop.OneRequestAStep | internal/loop/loop.go:58-88 | A run sends one request a step. |
| AgentLoop.RequestsAreHistories | internal/loop/loop.go:62-88 | Each request is the history so far, in that sense, with long tool results cut. |
| AgentLoop.RunAppends | internal/loop/loop.go:103-122 | Without compaction a run only appends to the history it was given, and adds nothing only if it got no reply. |
| AgentLoop.CompactedStays | internal/compact/compactor.go:67-77 | The mark of a mid-run compaction is never taken back. |
| AgentLoop.Loop.RunTools | internal/loop/loop.go:134-153 | For every completion order of the parallel calls, result i carries call i's id and call i's own outcome. |
| AgentLoop.Loop.Act | internal/loop/loop.go:131-173 | The message appended answers exactly the reply's calls, each with its own outcome for tool_use, with an error for max_tokens; otherwise none is appended. |
| AgentLoop.Loop.CompactIfNeeded | internal/loop/loop.go:178-192 | History is replaced only for a still running tool_use step above the threshold whose summary succeeded. |
| AgentLoop.Loop.RunIteration | internal/loop/loop.go:58-122 | The loop body is one step of the specified run. |
| AgentLoop.Loop.Run | internal/loop/loop.go:55-125 | The loop computes the specified run, its requests and its error. |
| Budget.TruncateKeepsPaired | internal/compact/budget.go:31-59 | Truncating long results keeps a history paired. |
| Budget.TruncateSays | internal/compact/budget.go:31-59 | Each block of a request is the block of the history, except that a user's tool result over the limit is its kept beginning and the note saying how much was left out. |
| Budget.DigitsAreTheNumber | internal/compact/budget.go:45-50 | The number in that note is the number of characters left out, in decimal. |
| Budget.ResultBudget.SetBudget | internal/compact/budget.go:18-28 | After any configuration the kept prefix is positive and no longer than the limit. |
| Budget.ResultBudget.TruncateToolResults | internal/compact/budget.go:31-59 | The loop rewrites over-long results and nothing else. |
| AnthropicStream.FilterKeepsPaired | internal/llm/anthropic.go:335-350 | Dropping empty thinking blocks and emptied messages keeps a history paired. |
| AnthropicStream.FilterMessages | internal/llm/anthropic.go:335-350 | The append loop computes that filter. |
| AnthropicStream.KeptBlocksAppend | internal/llm/anthropic.go:335-350 | Blocks are kept or dropped one by one, in order. |
| AnthropicStream.FilteredOne | internal/llm/anthropic.go:335-350 | A block goes exactly if it is thinking without text; a message goes exactly if nothing of it is left. |
| AnthropicStream.AccumulateIsSpec | internal/llm/anthropic.go:255-284 | One event changes the accumulator as the per-block description says. |
| AnthropicStream.ParseSSE | internal/llm/anthropic.go:212-332 | The one-pass accumulator yields the per-block contents, text and usage of the stream, or its error. |
| AnthropicStream.ContentIsPerBlock | internal/llm/anthropic.go:255-318 | With indices counting up from 0, block i is its opening plus the concatenation of its own deltas, its input its own decoded JSON, for any interleaving of blocks. |
| AnthropicStream.PiecesOneMore | internal/llm/anthropic.go:264-284 | What a block receives of one kind grows by a delta for its index of that kind, and by nothing else. |
| AnthropicStream.StartsAreAll | internal/llm/anthropic.go:260-264 | Every block start opens a block, in order. |
| AnthropicStream.StopReasonIsLast | internal/llm/anthropic.go:285-288 | The stop reason is the last one given, else end_turn. |
| AnthropicStream.InputUsageIsLast | internal/llm/anthropic.go:256-259 | Input and cache counts and the context share are those of the last message_start. |
| AnthropicStream.OutputUsageIsLast | internal/llm/anthropic.go:289-291 | The output count is that of the last message_delta that has a positive one. |
| AnthropicStream.NoUsageIsZero | internal/llm/anthropic.go:212-216 | Counts never reported are zero. |
| AnthropicStream.JoinTextSnoc | internal/llm/anthropic.go:320-326 | The text is that of the text blocks, in order. |
| AnthropicStream.PublishedSnoc | internal/llm/anthropic.go:264-275 | A token is published for each non-empty text delta of an open block, and for nothing else. |
| AnthropicStream.ParseSays | internal/llm/anthropic.go:294-332 | The first error event fails the request for good; a broken stream without one is retryable; otherwise content, text, stop reason and usage of all events are returned. |
| AnthropicStream.InputIsOwnPieces | internal/llm/anthropic.go:260-284 | The JSON buffer of a tool_use block holds exactly the pieces sent for that block after it opened. |
| AnthropicStream.BuffersOneMore | internal/llm/anthropic.go:260-284 | For any indices: a tool_use block opens a buffer under the index announced, and a JSON delta extends the one under its index once that many blocks are open. |
| AnthropicStream.ContentDecodes | internal/llm/anthropic.go:305-318 | For any indices: a tool_use block gets the buffer under its position decoded, if that is not empty and decodes. |
| AnthropicStream.TokensAreTheText | internal/llm/anthropic.go:271-275 | If text deltas come in block order into text blocks that start empty, the published tokens concatenate to the response text. |
| AnthropicStream.TokensSpellTextIff | internal/llm/anthropic.go:271-275 | With text sent to text blocks that open empty: the tokens spell the text for every choice of the pieces if and only if the indices of live text deltas never decrease. |
| AnthropicStream.TokensCanDiffer | internal/llm/anthropic.go:271-275 | A stream the provider's format allows, read as "ba" while its text is "ab". |
| AnthropicStream.ChatStream | internal/llm/anthropic.go:162-199 | An attempt reports its usage once if it parses and never otherwise. |
| AnthropicStream.Chat | internal/llm/anthropic.go:137-157 | At most three attempts, another one only after a retryable failure; usage is reported exactly once if and only if Chat succeeds; tokens come from the first attempt only. |
| AnthropicStream.RetriesIff | internal/llm/anthropic.go:137-157 | Another attempt follows exactly a failed or broken connection whose stream reported no error, while the caller has not cancelled. |
| AnthropicStream.TokensSay | internal/llm/anthropic.go:264-302 | An attempt reports the tokens before its stream's first error. |
| SessionStore.TrimOrphanToolUse | internal/session/store.go:193-214 | The scan returns the longest prefix with no call outstanding. |
| SessionStore.TrimIdentity | internal/session/store.go:209-211 | Trimming is the identity exactly on balanced histories. |
| SessionStore.TrimIdempotent | internal/session/store.go:193-214 | Trimming twice is trimming once. |
| SessionStore.TrimDistributes | internal/session/store.go:193-214 | A balanced prefix is always kept: trim(A + B) = A + trim(B). |
| SessionStore.OrphanHidesTheRest | internal/session/store.go:193-214 | Once a call is outstanding, nothing appended that does not answer it is ever returned. |
| SessionStore.Store.AppendMessages | internal/session/store.go:113-145 | Appending extends one session's thread in order and touches no other. |
| SessionStore.Store.ReadMessages | internal/session/store.go:148-188 | Reading returns the readable rows, trimmed. |
| SessionStore.ReadableOne | internal/session/store.go:160-186 | A row is read exactly if it decodes to a user's or an assistant's message. |
| SessionStore.Store.ClearMessages | internal/session/store.go:60-72 | Clearing removes one session's thread and keeps backups and other threads. |
| SessionStore.Store.WriteCompacted | internal/session/store.go:217-253 | The thread is replaced, the old one kept as a backup when the rename succeeds. |
| SessionHandler.SendKeepsPaired | internal/transport/handler.go:208-270 | A turn keeps a paired thread paired, and balanced, if and only if it is not a compacted run whose last reply still calls tools; otherwise readers get back all but that reply. |
| SessionHandler.TurnSays | internal/transport/handler.go:208-270 | A turn is the user's message followed by all the run added to the readable history, or, for a compacted run, by its last reply alone. |
| SessionHandler.ThreadStaysPaired | internal/transport/handler.go:192-380 | So does every sequence of messages, clears and compactions without such a run. |
| SessionHandler.ReadsAllTurns | internal/transport/handler.go:208-270 | Reading then drops nothing: it returns the concatenation of all turns since the start. |
| SessionHandler.ResetForgets | internal/transport/handler.go:331-380 | After a clear or compact, whatever came before, reading returns what that left plus all turns since. |
| SessionHandler.DanglingHidesTurns | internal/session/store.go:193-214 | With an unanswered call stored, no later turn that does not reuse its id is ever read back. |
| SessionHandler.EveryRequestIsPaired | internal/transport/handler.go:208-255 | Even so, every run starts from a paired history and sends paired requests only, after the provider's filter too, as long as no turn reuses the ids of all calls still open. |
| SessionHandler.EndsDanglingIff | internal/transport/handler.go:260-267 | The bad case, in terms of the replies: some step was compacted and the last reply received calls tools. |
| SessionHandler.ErrorAfterCompactionDangles | internal/transport/handler.go:260-267 | How it arises: tool calls, compaction, then a failed model call. |
| SessionHandler.SessionService.MessagesToStore | internal/transport/handler.go:259-267 | What is stored of a run: its own messages, or only the last reply after a compaction. |
| SessionHandler.SessionService.SendMessage | internal/transport/handler.go:192-295 | The handler extends the stored thread by exactly one turn, run on the readable history, reports an error if and only if the run was cancelled, and refuses unknown and closed sessions unchanged. |
| SessionHandler.SessionService.ClearSession | internal/session/manager.go:90-101 | Clear empties the thread and forgets the session's runs. |
| SessionHandler.SessionService.CompactSession | internal/transport/handler.go:356-380 | Compact replaces the thread by its summary, or leaves it when summarising fails. |
| ToolInvoker.BodyOnlyIfAllowed | internal/tools/invoker.go:69-84 | A tool body runs if and only if the tool is known, no required parameter is missing and this call's own check allowed it; at most three times. |
| ToolInvoker.ExecuteShape | internal/tools/invoker.go:123-180 | Each attempt emits exactly one event, numbered 1, 2, 3; all but the last are retryable failures; the last is the outcome. |
| ToolInvoker.AttemptsSay | internal/tools/invoker.go:123-180 | Attempts go on exactly while the last one failed, did not time out, was not cancelled, and is a runtime_error or rate_limited, at most three; each publishes its own text, type, time and number; a success is returned as it is, a failure as the timeout text, the error or the result's text under its type. |
| ToolInvoker.InvokeSays | internal/tools/invoker.go:61-180 | A permitted call publishes its start, the request and the grant if a user took part, and its attempts' reports, and returns what the last attempt came to. |
| ToolInvoker.MissingParameterSays | internal/tools/invoker.go:69-77 | The first missing parameter is reported as schema_error, before any permission check. |
| ToolInvoker.UnknownToolSays | internal/tools/invoker.go:69-73 | An unknown tool is reported as runtime_error. |
| ToolInvoker.DeniedSays | internal/tools/invoker.go:79-120 | A refused call publishes the refusal unless it was automatic, and returns the denial text; no body runs. |
| ToolInvoker.LastEventTells | internal/tools/invoker.go:61-202 | A call's events begin with its start and end with its outcome, which reports success exactly for a result that is no error. |
| ToolInvoker.Invoker.ExecuteWithRetry | internal/tools/invoker.go:123-180 | The attempt loop publishes those events, never reaches its trailing internal-error return, and returns what its last attempt came to: that attempt's own result, or its error text under its type. |
| ToolInvoker.Invoker.Invoke | internal/tools/invoker.go:61-85 | Invoke publishes and returns what is specified, in every branch; a body that ran gives its own result or its error. |
| ToolInvoker.Invoker.CheckPermission | internal/tools/invoker.go:89-120 | Only decisions a user took are published, and an error with an allowing verdict still refuses. |
| ToolInvoker.Invoker.ValidateParams | internal/tools/tool.go:97-104 | The first missing or null required parameter is reported. |
| TraceReader.Summarize | internal/trace/reader.go:191-254 | The loop over the lines computes the specified scan, at most 100 events kept. |
| TraceReader.ToolsAreTold | internal/trace/reader.go:218-234 | For any trace, ids reused or not: one entry for each call started, in order, told by the results that follow under its id until that id starts again; results without a start are ignored. |
| TraceReader.EventsAreFirst100 | internal/trace/reader.go:239-241 | The events kept are the first hundred lines. |
| TraceReader.StartIsLast | internal/trace/reader.go:204-206 | Goal and start time are those of the last run.started. |
| TraceReader.EndIsLast | internal/trace/reader.go:207-211 | The end time is that of the last run.finished. |
| TraceReader.StatusIsLast | internal/trace/reader.go:193-211 | The status is the last one a run.finished gives, else running. |
| TraceReader.UsageIsLast | internal/trace/reader.go:212-236 | Tokens and skill are the last ones recorded. |
| TraceReader.OutcomesAreReadBack | internal/trace/reader.go:191-242 | For every interleaving of calls with distinct ids, the summary lists each once, in start order, under its name, with its time, as a success exactly if that invocation returned no error. |
| TraceReader.UnfinishedCalls | internal/trace/reader.go:218-234 | A call still going on is listed as running, or as failed after a failed attempt, never as a success. |
| NestedAgents.RunTreeIsBounded | internal/subagent/spawn.go:175-330 | Whatever is replied: the run tree is finite, no deeper than the limit, of at most the sum over d of (3 * K * MaxSteps)^d runs, and the root run ends. |
| NestedAgents.EveryRunEnds | internal/loop/loop.go:58-124 | Every run of the tree ends with a definite status if and only if MaxSteps is at least 1. |
| NestedAgents.StatusIs | internal/loop/loop.go:58-117 | A run succeeds if and only if, within its steps, its first reply that is neither cut off nor calls tools ends the turn; otherwise it fails. |
| NestedAgents.RunsAreStarted | internal/subagent/spawn.go:158-330 | The runs started under a root are exactly those reached from it child by child, each once: a child for each permitted, complete spawn call of a step the run takes, below the depth limit, and another one exactly after an uninterrupted foreground child that did not succeed. |
| NestedAgents.CallStartsChildren | internal/tools/invoker.go:123-180 | So a spawn call's first child is always started, the next exactly after an uninterrupted failed foreground child, never a fourth; a child that succeeds at once is run once. |
| NestedAgents.RunDepths | internal/subagent/spawn.go:322-330 | No run started under another is deeper than the limit. |
| NestedAgents.TreeSizeIsPowerSum | internal/subagent/spawn.go:158-231 | The bound the tree builds is the geometric sum. |
| NestedAgents.BoundIsAttained | internal/subagent/spawn.go:158-231 | When every reply spawns K permitted foreground children and nothing is interrupted, the tree has exactly that many runs, for all limits and all K. |
| NestedAgents.FailingChildRunsThrice | internal/tools/invoker.go:123-180 | Where the factor 3 comes from: one call with a failing foreground child starts three runs, and which. |
| NestedAgents.Agents.Run | internal/loop/loop.go:55-125 | The mutually recursive procedures terminate, by depth, steps and attempts left, and start exactly the runs above, with that status. |
| NestedAgents.Agents.InvokeSpawn | internal/tools/invoker.go:123-180 | The attempt loop around a spawn retries failed, complete, uninterrupted children only. |
| NestedAgents.Agents.SpawnBody | internal/subagent/spawn.go:158-231 | Spawning refuses at the depth limit; a background child counts as a success at once. |
| Permissions.CachesCannotOverride | internal/permissions/manager.go:94-142 | Whatever is cached, a deny hit is refused and an outside-cwd command is never answered without asking. |
| Permissions.DecideInOrder | internal/permissions/manager.go:80-142 | Where neither applies, what is remembered is answered first, then an allow pattern, then the tool's default; an unknown tool asks. |
| Permissions.DefaultsAskIff | internal/permissions/policy.go:26-34 | Under the default policies and empty caches exactly read_file, list_dir and note_save run unasked; every other tool, known or not, asks. |
| Permissions.OverridesOnlyByOwnResponse | internal/permissions/manager.go:80-222 | In every run, an outside-cwd command is allowed only by an allowing response sent to that very check under its id, and a deny hit is refused unasked. |
| Permissions.AtMostOneDecision | internal/permissions/manager.go:144-199 | Each channel gets at most one decision; no finished check keeps a pending entry; a user decision is reported only after a Respond for that id and decision returned true. |
| Permissions.RespondNeverBlocks | internal/permissions/manager.go:189-199 | The channel of a pending entry is empty, so Respond never blocks under the lock. |
| Permissions.DoneIsFinal | internal/permissions/manager.go:144-186 | An answer, once given, stands under every later action. |
| Permissions.WaitingCanBeAnswered | internal/permissions/manager.go:144-199 | With distinct ids in flight a waiting check can always be ended by a response with its id, and by that decision. |
| Permissions.OwnsEntryIff | internal/permissions/manager.go:144-186 | In every run: a waiting check that was told nothing owns the entry under its id if and only if no other check with that id registered or gave up after it registered. |
| Permissions.WaitingIsReachedIff | internal/permissions/manager.go:144-199 | So a Respond with its id reaches a waiting check under exactly that condition, and then ends it with that decision. |
| Permissions.DistinctOwnEntries | internal/permissions/manager.go:144-186 | With distinct ids in flight that is always so. |
| Permissions.AcceptedStandsIff | internal/permissions/manager.go:157-199 | In every run: a decision Respond accepted for a finished check is its answer if and only if the check neither timed out nor was cancelled; otherwise the answer says which. Without a timeout only cancellation can come first. |
| Permissions.NeverStuck | internal/permissions/manager.go:144-186 | Every unfinished check has a step of its own to take; it receives exactly when it was sent a decision, and times out only under a timeout. |
| Permissions.TrueMayBeOvertaken | internal/permissions/manager.go:157-186 | Both can happen after Respond returned true; the decision is then not remembered. |
| Permissions.ClashingIdsStrand | internal/permissions/manager.go:145-161 | With one id in flight twice, a check can become unreachable for every Respond. |
| DecisionLog.LookupIsDecisionLog | internal/permissions/manager.go:107-123 | In every reachable state, for sessions whose keys cannot meet: a lookup is the last always decision of that session for that tool, else the last for the tool in any session, else the loaded policy. |
| DecisionLog.RememberedDecides | internal/permissions/manager.go:107-123 | In every run, a check with no deny hit and no outside-cwd command is answered at once, unasked: refused with auto_deny if its session's last always decision for the tool was always_deny, allowed with auto_allow if it was always_allow; without one by the last of any session; without that by the policy file. |
| DecisionLog.PolicyDecides | internal/permissions/manager.go:125-142 | With nothing remembered it is allowed by an allow pattern or the tool's default, refused by that default, or answered only by a user's decision or by giving up. |
| DecisionLog.ChecksWereBegun | internal/permissions/manager.go:80-94 | Every check keeps the id, session, tool and command it was begun with. |
| DecisionLog.CachesAgreeIff | internal/permissions/manager.go:86-123 | That agreement, over every log of a set of sessions, holds if and only if no two of them can meet. |
| DecisionLog.KeysMeetIff | internal/permissions/manager.go:86 | Two sessions share a cache key for some tools if and only if one id and "::" begin the other id and "::". |
| DecisionLog.GeneratedIdsApart | internal/session/manager.go:34-51 | Ids as the program generates them, and the empty id, never meet. |
| DecisionLog.LogIsUserDecisions | internal/permissions/manager.go:157-222 | Each log entry is the decision of the one response that reached a check of that session and tool; every check ended by a user's decision has exactly one entry. |
| DecisionLog.RestartKeepsPersistent | internal/permissions/manager.go:230-284 | A restart on the file left behind restores exactly the persistent decisions and drops the session ones. |
| Permissions.LoadOfSaved | internal/permissions/manager.go:230-284 | Loading what was saved gives back the same decisions. |
| Permissions.LoadSays | internal/permissions/manager.go:230-263 | A tool's decision is loaded exactly if it is allow or deny in the always section, or in a flat key where the section has none. |
| Permissions.NextKeepsInv | internal/permissions/manager.go:80-222 | Every step of every check keeps channels, entries, caches and file consistent. |
| GuardedTools.BodyNeedsOwnApproval | internal/tools/invoker.go:75-84 | In every run of the permission protocol, a tool body that runs has its required parameters, hits no deny pattern and, for an outside-cwd command, was approved by a response to this very call. |
| PermissionManager.PatternCache.MatchPattern | internal/permissions/manager.go:51-68 | The memoised matcher agrees with compiling afresh, an invalid pattern matching nothing. |
| PermissionManager.Manager.DecideNow | internal/permissions/manager.go:80-142 | The phases and pattern loops compute the decision the results above are about; what that is, DecideInOrder, RememberedDecides and PolicyDecides say. |
| PermissionManager.Manager.Respond | internal/permissions/manager.go:189-199 | Respond is the Respond action, true exactly if the id was pending. |
| PermissionManager.Manager.RegisterPending | internal/permissions/manager.go:145-148 | Registering is the Register action. |
| PermissionManager.Manager.ApplyResponse | internal/permissions/manager.go:201-222 | Applying a decision updates both caches and the file together, for always decisions only. |
| PermissionManager.Manager.DropPending | internal/permissions/manager.go:156-186 | Giving up removes the entry under that id and refuses. |
| PermissionManager.Manager.LoadPolicyFile | internal/permissions/manager.go:230-263 | The two loading loops, in any map order, take valid entries only, the always section first. |
| SenderQueues.NothingLostOrReordered | internal/channel/manager.go:92-169 | In every run whose parties do not share keys, for every sender on every channel: arrived = processed + in process + queued (at most 16) + blocked in dispatch, in arrival order, at most one in process; and what was sent back is exactly the non-empty outputs, in order. |
| SenderQueues.DoneIsEndings | internal/channel/manager.go:131-169 | The messages processed on a queue ended as the run says, in order. |
| SenderQueues.ReaderMoves | internal/channel/manager.go:98-126 | A reader waits only for a full queue of 16. |
| SenderQueues.WorkerMoves | internal/channel/manager.go:131-143 | A worker waits only for an empty queue. |
| SenderQueues.AccountedIff | internal/channel/manager.go:92-169 | For any set of parties, that account holds in every run if and only if no two of them share a key. |
| SenderQueues.EverySenderAccountedIff | internal/channel/manager.go:92-169 | For arbitrary senders: if and only if no channel's name and "/" begin another channel's name. |
| SenderQueues.RepliesReachTheirSender | internal/channel/manager.go:147-169 | Every reply a party gets is one to its own messages, in message order, on its own channel. |
| SenderQueues.KeysMeetIff | internal/channel/manager.go:112 | Two channels share a queue key for some senders if and only if one name and "/" begin the other. |
| SenderQueues.PlainSendersApart | internal/channel/telegram.go:253 | Senders without a "/" never share a key, whatever the channels are called. |
| SenderQueues.ClashMisdirects | internal/channel/manager.go:112-169 | Any two parties that share a key can be confused: a run in which the reply to one goes out on the other's channel. |
| SenderQueues.NextKeepsInv | internal/channel/manager.go:92-169 | Every step of a reader or worker keeps that account for every party. |
| ChannelManager.Manager.ReadMessage | internal/channel/manager.go:98-106 | Reading a message is the Arrive action. |
| ChannelManager.Manager.FindQueue | internal/channel/manager.go:111-121 | Each key gets one queue and one worker, once. |
| ChannelManager.Manager.Dispatch | internal/channel/manager.go:123-126 | The send appends to the sender's queue and frees the reader. |
| ChannelManager.Manager.TakeNext | internal/channel/manager.go:131-143 | The worker takes the oldest message only when it has none in process. |
| ChannelManager.Manager.Process | internal/channel/manager.go:147-169 | No agent, an error or empty output send nothing; other output goes to the message's sender. |
| RpcCalls.CallsEndWithTheirOwn | internal/tui/client.go:74-119 | A call has ended by an encoding or write error, a timeout or a message exactly if the run took that step for it; the message is a response read for its own id or the news that the connection closed; its channel carries at most one message ever. |
| RpcCalls.FramesAreAccounted | internal/tui/client.go:121-155 | Every frame read is, as often as it was read, an event, or the message of one call, or in the reader's hand: none is lost or doubled. |
| RpcCalls.ReaderNeverBlocks | internal/tui/client.go:121-155 | Neither delivering a response nor the disconnect loop can block on a call's channel. |
| RpcCalls.EndedIsFinal | internal/tui/client.go:99-118 | A call ends once. |
| RpcCalls.DisconnectWakesAll | internal/tui/client.go:124-132 | With distinct ids in flight, a disconnect leaves a message for every waiting call. |
| RpcCalls.ResponseFindsItsCall | internal/tui/client.go:140-150 | A response, in any order, ends exactly the call that asked for it (JSON-RPC 2.0 Specification, section 5). |
| RpcCalls.LateCallsEndAlone | internal/tui/client.go:124-132 | A call not yet sent at the disconnect is never told of it: it ends by an encoding or write error or its own timer only. |
| RpcCalls.SameIdIff | internal/tui/client.go:75-81 | Call n has the id n mod (2^63 - 1) + 1, so two calls share an id if and only if their numbers differ by a multiple of 2^63 - 1. |
| RpcCalls.ShortRunsAreDistinct | internal/tui/client.go:75-81 | So ids are distinct in every run of up to 2^63 - 1 calls. |
| RpcCalls.JunkNeverMatches | internal/tui/client.go:157-170 | An id that is no number never claims a call. |
| RpcCalls.NextKeepsInv | internal/tui/client.go:74-155 | Every step of a caller or the reader keeps calls, entries and the claimed response consistent. |
| RpcClient.Client.DrawId | internal/tui/client.go:75-81 | Drawing an id, with int64 wrap-around, is the Number action. |
| RpcClient.Client.SendRequest | internal/tui/client.go:98-106 | Registering and writing are one step; a failed write leaves no entry. |
| RpcClient.Client.ReadFrame | internal/tui/client.go:140-154 | A frame claims the call listed under its id, else becomes an event. |
| RpcClient.Client.PushClaimed | internal/tui/client.go:143-147 | The send outside the lock delivers the claimed response. |
| RpcClient.Client.ConnectionLost | internal/tui/client.go:124-132 | The loop over the table, in any map order, is the one Disconnect action. |
| RpcClient.Client.ReturnTimeout | internal/tui/client.go:113-118 | A timeout drops the entry and ends the call. |
| ListDir.WalkIsFirst200 | internal/tools/builtin/list_dir.go:84-122 | For every tree: without its "(truncated)" lines the listing is the depth-limited preorder traversal cut after the 200th entry, its entries the first min(200, N); a "(truncated)" line means some were left out. |
| ListDir.WalkIs | internal/tools/builtin/list_dir.go:84-122 | The whole listing, line by line: the traversal cut after its 200th entry, then one "(truncated)" line for each level at which it would have gone on, innermost first, at that level's indentation. |
| ListDir.WalkTruncatesIff | internal/tools/builtin/list_dir.go:97-100 | A "(truncated)" line appears if and only if some entry left out is not below the 200th. |
| ListDir.SmallTreesAreComplete | internal/tools/builtin/list_dir.go:84-122 | Below 200 entries the listing is the whole traversal, error lines included. |
| ListDir.OmissionCanBeSilent | internal/tools/builtin/list_dir.go:84-136 | A directory, sorted and with distinct names, whose listing leaves an entry out without a "(truncated)" line. |
| ListDir.Walker.WalkDir | internal/tools/builtin/list_dir.go:84-122 | The recursive closure over the captured lines and count prints the specified walk. |
| ListDir.Invoke | internal/tools/builtin/list_dir.go:58-125 | The three path errors exclude each other in order; otherwise the walk from the root. |
| ListDir.DepthLimit | internal/tools/builtin/list_dir.go:63-66 | The depth in force is 2 unless a positive one is asked for, and then the largest whole number up to that and 4. |
| RateLimiter.WindowBound | internal/transport/websocket.go:34-48 | In every run, within any window of consecutive calls at most burst + rate * length are accepted. |
| RateLimiter.InflowIs | internal/transport/websocket.go:34-48 | Tokens flow in at the configured rate. |
| RateLimiter.BucketStaysOk | internal/transport/websocket.go:34-48 | At every point of every run 0 <= avail <= burst. |
| RateLimiter.FreshSpacedAreAccepted | internal/transport/websocket.go:25-48 | From a fresh limiter, calls at least 1/rate apart are all accepted. |
| RateLimiter.BurstIsAccepted | internal/transport/websocket.go:34-48 | Calls that the bucket covers are all accepted, however fast they come. |
| RateLimiter.RefusedIsFree | internal/transport/websocket.go:34-48 | A refused call costs nothing: all later calls are answered as if it had not been made. |
| RateLimiter.Configured | internal/transport/gateway.go:204-208 | There is a limiter if and only if the rate is positive, with that rate and the burst asked for, at least 1. |
| RateLimiter.Limiter.Allow | internal/transport/websocket.go:34-48 | The field updates are one step of the run the bounds are about. |
| TaskStore.ReachableIsInv | internal/task/manager.go:35-176 | Over every sequence of creations, updates that add nothing, and restarts: each dependency is an existing task with a smaller id, and the next id exceeds them all. |
| TaskStore.NoCycles | internal/task/manager.go:90-176 | So no task waits for itself, however indirectly. |
| TaskStore.RewrittenElements | internal/task/manager.go:142-171 | Any update leaves the dependencies (old + added) minus removed, without duplicates once it added. |
| TaskStore.AppendNewInOrder | internal/task/manager.go:142-160 | Added dependencies come at the end, in order, those already there left out. |
| TaskStore.WithoutInOrder | internal/task/manager.go:160-171 | Removing dependencies keeps the order of the others. |
| TaskStore.CreateSays | internal/task/manager.go:90-114 | Creation is refused for the first unknown dependency and then changes nothing; else a pending task with all that was asked is saved under the next id, and nothing else. |
| TaskStore.UpdateSays | internal/task/manager.go:124-176 | An update is refused for an unknown task or status and then changes nothing; else it changes status, dependencies and time as asked, nothing else about it, and no other task unless it completes this one. |
| TaskStore.CompletionClears | internal/task/manager.go:207-242 | Completing a task takes it, and it only, out of every other list and changes nothing else but timestamps. |
| TaskStore.CompletedIsAwaitedIff | internal/task/manager.go:128-176 | Afterwards some task still waits for it if and only if its own list named it or this update adds it, and this update does not remove it. |
| TaskStore.SelfBlockSurvivesCompletion | internal/task/manager.go:128-176 | A reachable case of that. |
| TaskStore.Manager.MaxID | internal/task/manager.go:45-59 | The scan finds the largest id, 0 for none. |
| TaskStore.Manager.CreateTask | internal/task/manager.go:90-114 | Creation refuses unknown dependencies unchanged, else stores it under the next id. |
| TaskStore.Manager.UpdateTask | internal/task/manager.go:124-176 | The update, with its loops, is the specified one, saved last over what clearing did to the same file. |
| TaskStore.Manager.ClearDependency | internal/task/manager.go:207-242 | The loop over the files, in any order, rewrites exactly those that name the completed task. |

## Left out

- EventStream.DeliveryIsGapFree: says nothing about the seam between replay and live events; an event between the end of the recorded file and activation can be missed or seen twice.
- EventStream.NextKeepsInv: does not claim that a replay ends; an inactive full buffer whose writer has died is never drained.
- SessionHandler.SessionService.SendMessage: one request at a time per session, as the interface demands of clients; skill expansion and memory, which shape the prompt but not the stored thread, are not modelled.
- SenderQueues.NothingLostOrReordered: covers a run until cancellation; a cancelled dispatch may drop the message it holds.
- RpcCalls.ResponseFindsItsCall: takes the id as the client decodes it; a JSON number above 2^53 loses precision on the way.
- RpcCalls.ReaderNeverBlocks: is about response channels; the channel of events, 100 long, is modelled as unbounded.
- ListDir.WalkIsFirst200: leaves out the header line with the root's name and the drawing of the branches; takes children in the order the listing sorts them into; the sort itself is a library call. A max_depth beyond the int64 range is not modelled.
- RateLimiter.WindowBound: computes over real numbers, without floating-point rounding.
- TaskStore.ReachableIsInv: excludes updates that add dependencies, which the code does not check for cycles or existence.
- TraceReader.Summarize: event details, durations and subagent entries are not modelled.
- File-system errors and partial writes; a saved file is assumed to read back as written, one file name per task.
- The WebSocket, HTTP and JSON layers, ping/pong, shutdown timing, and the terminal and browser clients.
- The language model, shell commands, MCP subprocesses and chat networks: any result they could give is allowed.
- Panics inside tools and child runs, which the program recovers into failed runs.
- Generation of run, session and subscription ids, configuration loading, prompt assembly, global trace rotation, agent routing: each a single step with nothing spanning functions.
