# ra2a: what the SDK's protocol core promises, proved

ra2a is a Rust SDK for the Agent2Agent protocol. This project models the parts of it that carry state
or recursion and proves what they keep over every input, every interleaving and every run:

- **Task lifecycle.** `Lifecycle` is the server as a step machine: sends, cancellations, background
  executors, broadcast channels and the task store. Every access to the store, the queue map or a
  channel is a step of its own, so reading a task and saving it can be interleaved with anything.
  `TerminalTasks` proves, task by task, in which states no request can replace a terminal task any more,
  however many requests overlap and whatever other tasks' executors emit. `LostTasks` proves that these
  are exactly the states that keep it: from any other one a run that replaces the task is constructed.
  `CalmRuns` has conditions on a run, from its start, that lead to such states, and `BrokenConditions` a
  run from the idle server for each of them, built with `Scenarios`. `Collector` is the loop that folds
  received events into the store, `Broadcast` the bounded channel with one cursor per receiver,
  `QueueManager` the get-or-create race on the queue map. `Answers` says which event ends a request.
- **Task store.** `TaskStore` has versioned saves whose ticket is taken before the write lock.
  `Pagination` and `Pages` have the offset pages and the token that is printed and parsed again.
- **Event streams.** `Sse` has the two incremental decoders of server-sent events and the framing they
  read. `SseStandard` has the reading that section 9.2.6 of the WHATWG HTML Living Standard gives the
  same text, and exactly where the decoders depart from it.
- **Tree conversion.** `JsonTree` and `TaskConvert` have the native and protobuf forms of JSON values,
  parts, messages, artifacts and tasks, and the trips between them.
- **Artifact reducer, interceptors, transport choice, push configurations** in `ArtifactReducer`,
  `Interceptors`, `TransportSelection` and `PushStore`.

`Types` holds the shared value types, `Wrappers` the two result shapes and `Arithmetic` facts about
numbers. Objects that the Rust code updates in place are classes; each method is proved against a
function of the old state, and the lemmas are about those functions or about step machines built from
them. Clock readings, generated ids, hash-map iteration orders, chunk boundaries and everything a
foreign executor, interceptor or transport builder does are parameters, so the statements hold for all
of them.

Some promises hold only under a condition. They are stated as equivalences (`...Iff`) or come with a
run or an input that breaks them, most with both: the members of `BrokenConditions`,
`TaskStore.DefaultStoreLosesUpdates`, `TaskStore.DeletionLetsBothSucceed`, `TaskStore.StoredVersionCanDecrease`,
`Pagination.ZeroPageMakesNoProgress`, `TaskConvert.YearTenThousandIsLost`,
`SseStandard.CrlfLosesEverything` and `SseStandard.ByteOrderMarkHidesEvent`.

Where code and documentation differ the model follows the code: a send without configuration does not
block; a status update's own message is not stored (only its state is); artifact events never reach the
store; version numbers are called monotonic but are only unique; page size 0 is accepted and makes no
progress.

`dafny verify dfyconfig.toml` checks the whole project.

## Model

| member | source | states |
|---|---|---|
| LostTasks.TerminalIsKeptIff | ra2a/src/server/handler/default.rs:331-404 | in any reachable state, however many requests on the task overlap, whatever events naming it other tasks' channels hold and whatever lags are due: a terminal task (that is also what its failed executors have yet to report) is kept by every continuation in which only its own executors name it, none of them fails and its id is not generated again, if and only if no request holds a stale snapshot or harmful event, is about to bring a new executor on the task, or can reach a harmful event before it stops |
| LostTasks.OverlapsKeptIff | ra2a/src/server/handler/default.rs:541-571 | the same after every such run from the idle server: sends and cancellations on the task may overlap in it and after it as they like |
| LostTasks.FailureIsKeptIff | ra2a/src/server/handler/default.rs:307-316 | an executor fails after any such run, on a task that is terminal or not: every such continuation keeps what it saved if and only if no request is left that can replace it, lags and the pending report included |
| LostTasks.HarmEscapes | ra2a/src/server/handler/default.rs:331-404 | one direction of all three, by construction: from a single request in the way, a run that replaces the terminal task, pushing the request on with reports, with a new executor, or by first making another task non-terminal |
| LostTasks.HarmlessBacklogIsSafe | ra2a/src/server/handler/default.rs:355-370 | a task is left alone if the requests on it have their answers, or have only messages, artifacts or nothing left to read and share their channel with no live executor |
| TerminalTasks.RunGuarded | ra2a/src/server/handler/default.rs:331-404 | the other direction: a state in which no request can replace the terminal task leads to such states only, and the task stays as it is |
| TerminalTasks.StepGuarded | ra2a/src/server/handler/default.rs:331-404 | the same for each single step of any request or executor, of this task or another |
| TerminalTasks.QuietSent | ra2a/src/server/handler/default.rs:528-538 | an event sent later never helps a reader to a harmful event: a lag can skip the event that would have stopped it only if that was counted in before |
| TerminalTasks.TerminalRefusesRequests | ra2a/src/server/handler/default.rs:624-626 | sends and cancellations naming a terminal stored task leave the whole system as it was |
| CalmRuns.TerminalIsAbsorbing | ra2a/src/server/handler/default.rs:257-264 | for every task and every run from the idle server in which requests on that task do not overlap until it is terminal, only its own executors emit events that name it, they fail only undisturbed and before it is terminal, and generated ids are new: once terminal, the task is stored unchanged for ever, whatever happens to other tasks |
| CalmRuns.RunKeeps | ra2a/src/server/handler/default.rs:541-665 | the invariant of one task (events that name it on its own channels only; until it is terminal, one request at a time with a loaded snapshot that is still current; from then on no request that can replace it) survives every run calm for it |
| CalmRuns.StepKeeps | ra2a/src/server/handler/default.rs:541-665 | the same for each single step of any request or executor, whatever the others are in the middle of |
| CalmRuns.SaveIsAtomic | ra2a/src/server/handler/default.rs:355-370 | although a status update reads the task and saves it in two separate store accesses, for that task the save has the effect of the collector's atomic one on the store as it then is |
| CalmRuns.PersistOwn | ra2a/src/server/handler/default.rs:355-370 | an event that does not name a task leaves it alone, and one that does not end the request leaves it non-terminal |
| Lifecycle.AdmittedIff | ra2a/src/server/handler/default.rs:212-264 | a message is admitted exactly if it has an id and parts, does not name a terminal task, and does not name an unknown task without a context; ids and context come from the message, the stored task or are fresh, in that order |
| Lifecycle.EveryRunIsWired | ra2a/src/server/handler/default.rs:541-665 | in every run, as from the idle server, without any further condition: entries are stored under their own id, and every executor, queue and request works on a channel of its own task, its cursor inside the log |
| Lifecycle.OpenKeepsWired | ra2a/src/server/event.rs:108-122 | getting or creating the queue of an admitted request gives it a channel of its own task, left over from an earlier request or new |
| Lifecycle.ReceivingStays | ra2a/src/server/handler/default.rs:338-350 | a receive yields an event of the channel, or moves the cursor by the reported lag, never past the log |
| Answers.AnsweredByFirstEnding | ra2a/src/server/handler/default.rs:541-665 | in every run a send or cancellation has its answer exactly from the first event it handles that ends it: without a configuration any event that names a task; for a blocking send and every cancellation only a message, one of the four terminal states or a request for authentication |
| Answers.CancellationEntersIff | ra2a/src/server/handler/default.rs:612-650 | a cancellation gets in exactly if its task is stored and not terminal, and works in that task's context |
| Answers.FailureIsSavedAndReported | ra2a/src/server/handler/default.rs:307-316 | a failing executor replaces the stored task by a failed one that holds the error and nothing else, and sends that very task as its last event |
| Answers.LeavingSeparates | ra2a/src/server/handler/default.rs:541-571 | once a request with its answer has left, the next one on the task gets a new, empty channel that no earlier executor sends on and no earlier request reads |
| BrokenConditions.FailureOverwritesTerminal | ra2a/src/server/handler/default.rs:307-316 | a failing executor saves the failed task itself; an event it had sent before is collected afterwards and replaces the terminal task by a non-terminal one |
| BrokenConditions.LateFailureOverwritesTerminal | ra2a/src/server/handler/default.rs:307-316 | an executor that fails after its task was completed replaces the completed task at once |
| BrokenConditions.OverlapOverwritesTerminal | ra2a/src/server/handler/default.rs:541-571 | two overlapping sends on one task: the second one's event replaces the terminal task the first one stored |
| BrokenConditions.ForeignEventOverwritesTerminal | ra2a/src/server/handler/default.rs:355-360 | a task is completed; then an executor of another task emits a snapshot of it, which replaces it, terminal or not |
| BrokenConditions.ReusedIdOverwritesTerminal | ra2a/src/server/handler/default.rs:212-264 | a message that names no task is given a generated id that is in use, without a look at the state of that task: its request is admitted to the terminal task and replaces it |
| Collector.DefaultRequestHandler.CollectResult | ra2a/src/server/handler/default.rs:331-352 | for every received sequence and both modes the store becomes the fold of the snapshots up to and including the first stopping event, whose reply is the result; without one it waits, or finalizes when the channel closes |
| Collector.DefaultRequestHandler.HandleEvent | ra2a/src/server/handler/default.rs:373-404 | one event: snapshot saved first, then interruption, then terminal reply, else continue |
| Collector.DefaultRequestHandler.PersistEventSnapshot | ra2a/src/server/handler/default.rs:355-370 | a task event is saved as it is, a status update only replaces the status of a stored task, anything else saves nothing |
| Collector.DefaultRequestHandler.StoreTask | ra2a/src/server/handler/default.rs:187-191 | an unversioned save replaces the entry under the task's id and nothing else |
| Collector.ProcessEventMeetsSpec | ra2a/src/server/handler/default.rs:373-404 | an event ends the request exactly when it is a message, terminal, asks for authentication (blocking) or names a task (non-blocking); the unexpected-terminal error is unreachable |
| Collector.StopIndex | ra2a/src/server/handler/default.rs:338-351 | the first position at which an event ends the request; none before it does |
| Collector.WritesExplainStore | ra2a/src/server/handler/default.rs:355-370 | the collector's store is the initial one with exactly the listed saves applied in order |
| Collector.NoTerminalWriteBefore | ra2a/src/server/handler/default.rs:385-403 | before the first stopping event no terminal task is saved |
| Collector.TerminalWriteIsLast | ra2a/src/server/handler/default.rs:331-404 | a request saves at most one terminal snapshot, as its very last save, and only for a terminal stopping event |
| Collector.StatusReply | ra2a/src/server/handler/default.rs:361-395 | a stopping status update of a stored task is answered with that task: the new state, no status message, artifacts, history and metadata untouched |
| Collector.AnswerIsStored | ra2a/src/server/handler/default.rs:373-404 | whatever the event, the answer is the message itself or the event's task as the store has it afterwards; a task that is not stored is answered as submitted, without context or content |
| Collector.FinalAnswer | ra2a/src/server/handler/default.rs:406-430 | when the channel closes first, the last event is answered as if it had been a stopping one, unless it names no task; without any event that is an error |
| Collector.PersistTouchesOnly | ra2a/src/server/handler/default.rs:355-370 | an event changes the entry of its own task only, and a status update nothing but its status: the new state, no message, the time of handling |
| Collector.ArtifactsAreNotStored | ra2a/src/server/handler/default.rs:368 | any number of artifact events leaves the store as it was |
| Broadcast.EventQueue.constructor | ra2a/src/server/event.rs:26-29 | an empty channel whose capacity is the requested one rounded up to a power of two |
| Broadcast.EventQueue.Send | ra2a/src/server/event.rs:36-41 | with a subscriber the event is appended to the log and no receiver moves; without one it fails and nothing changes |
| Broadcast.EventQueue.Subscribe | ra2a/src/server/event.rs:45-47 | a new receiver starts at the tail of the log |
| Broadcast.EventQueue.RecvNext | ra2a/src/server/handler/default.rs:528-538 | yields the next event, or the number of events lost when the backlog exceeds the capacity, and moves the cursor accordingly |
| Broadcast.LogIsWhatWasSent | ra2a/src/server/event.rs:36-47 | in every run the log from a receiver's subscription on is the sequence of all events sent since, read off the steps alone |
| Broadcast.ReceiveYields | ra2a/src/server/handler/default.rs:528-538 | what any receive yields, as a function of what was sent since the subscription and what the receiver has passed: nothing, the next event, or the number of events out of reach, which leaves a full buffer |
| Broadcast.EveryReceiverIsSound | ra2a/src/server/handler/default.rs:528-538 | in every run every receiver's items are the log's events at the positions its earlier items lead to |
| Broadcast.NothingLostSilently | ra2a/src/server/handler/default.rs:528-538 | deliveries plus reported losses are how far a receiver has come in what was sent since its subscription, and it waits exactly when that is all of it |
| Broadcast.DeliveredInOrder | ra2a/src/server/handler/default.rs:528-538 | each delivered item is the sent event at the place the deliveries and losses before it lead to, later items at later places: in order, no duplicates |
| Broadcast.WithoutLossComplete | ra2a/src/server/handler/default.rs:549-551 | a stream that reported no loss has delivered exactly the first of the events sent since its subscription, all of them once it waits |
| QueueManager.QueueManager.CreateQueue | ra2a/src/server/event.rs:90-99 | inserts a fresh queue, or refuses and changes nothing if the id has one |
| QueueManager.QueueManager.InsertIfAbsent | ra2a/src/server/event.rs:115-121 | the write phase looks again: an entry inserted meanwhile wins over a new queue |
| QueueManager.QueueManager.GetOrCreateQueue | ra2a/src/server/event.rs:108-122 | without interference: the existing queue, or a fresh one that is the entry from then on |
| QueueManager.QueueManager.RemoveQueue | ra2a/src/server/event.rs:125-128 | returns and removes the entry, leaves the others |
| QueueManager.StepRefines | ra2a/src/server/event.rs:90-128 | each phase has the effect of at most one atomic operation, namely in the step in which the call returns |
| QueueManager.Linearizable | ra2a/src/server/event.rs:90-128 | every interleaving of read and write phases, creations and removals yields the map and the replies of those atomic operations in order of effect |
| QueueManager.ReplyIsCurrentEntry | ra2a/src/server/event.rs:108-122 | the queue a call returns is the map's entry at the instant it returns |
| QueueManager.OneQueueBetweenRemovals | ra2a/src/server/event.rs:108-122 | between two removals of an id all calls for it return one queue, the one still in the map |
| QueueManager.RemovalSeparates | ra2a/src/server/event.rs:108-128 | calls linearized before and after a removal of their id never share a queue |
| QueueManager.CountIsBalance | ra2a/src/server/event.rs:131-134 | in every interleaving the count is insertions minus successful removals |
| TaskStore.InMemoryTaskStore.New | ra2a/src/server/task_store.rs:102-107 | an empty store whose first version is 1 |
| TaskStore.InMemoryTaskStore.Default | ra2a/src/server/task_store.rs:92-98 | the derived default starts at the version that means "missing" |
| TaskStore.InMemoryTaskStore.Save | ra2a/src/server/task_store.rs:112-139 | takes a ticket in any case; succeeds if and only if the key is new, no version is asked for, or it is the stored one; then exactly this task and ticket are under its id, otherwise nothing changed |
| TaskStore.InMemoryTaskStore.Get | ra2a/src/server/task_store.rs:141-146 | task and version of the entry, if there is one |
| TaskStore.InMemoryTaskStore.Delete | ra2a/src/server/task_store.rs:148-156 | removes the entry and nothing else |
| TaskStore.InMemoryTaskStore.List | ra2a/src/server/task_store.rs:158-203 | filtering twice in place, clamping, skipping and taking gives the specified page of the tasks that match the request |
| TaskStore.VersionsUsableFromIff | ra2a/src/server/task_store.rs:120-123 | versions issued from any first one on are distinct and never "missing" exactly while the counter has not wrapped to it |
| TaskStore.VersionsUsableIff | ra2a/src/server/task_store.rs:92-107 | so for a store built by `new` as long as fewer than 2^64 were issued, and for the derived default only while none was |
| TaskStore.EveryRunIsSafe | ra2a/src/server/task_store.rs:112-156 | in every interleaving of tickets, writes, deletions and reads below overflow: each ticket commits at most once, two saves with the same version that find their key never both succeed, and a save that succeeds with a version read earlier had no write or deletion of the key in between |
| TaskStore.EntryIsLastSave | ra2a/src/server/task_store.rs:112-156 | in every interleaving, overflow included, a key shows exactly the task and version of the ticket whose save under it was the last to succeed, if it was not deleted since; tickets are read off the steps alone |
| TaskStore.LogTellsSteps | ra2a/src/server/task_store.rs:112-156 | what the other guarantees are stated about is what happened: which saves came through with which version, what was read and deleted |
| TaskStore.RunKeeps | ra2a/src/server/task_store.rs:112-156 | the invariant behind it, kept by every run |
| TaskStore.WriteIsSafe | ra2a/src/server/task_store.rs:128-135 | the commit under the write lock keeps all three guarantees |
| TaskStore.WriteKeepsSwaps | ra2a/src/server/task_store.rs:128-135 | a version that a successful conditional save has replaced is never stored again |
| TaskStore.WriteKeepsReads | ra2a/src/server/task_store.rs:128-135 | a key that still has the version some read returned has not been touched since that read |
| TaskStore.DefaultStoreLosesUpdates | ra2a/src/server/task_store.rs:92-98 | from the derived default two saves that carry the first version both win |
| TaskStore.DeletionLetsBothSucceed | ra2a/src/server/task_store.rs:129-135 | with a deletion in between, two saves carrying one version both succeed: the second finds no key |
| TaskStore.SecondSaveSucceedsIff | ra2a/src/server/task_store.rs:129-135 | of two saves that carry one version, the first of which found its key and replaced it, the second succeeds if and only if it finds no key |
| TaskStore.StoredVersionCanDecrease | ra2a/src/server/task_store.rs:120-135 | the stored version of one key can go down when an older ticket commits last |
| TaskStore.WalkVisitsEveryMatchOnce | ra2a/src/server/task_store.rs:158-203 | on any reachable store, in any iteration order, following the tokens visits every stored task that passes the filters exactly once and nothing else |
| Pagination.ParsePrint | ra2a/src/server/task_store.rs:182-191 | parsing a printed offset gives it back |
| Pagination.ParseDigitsPrint | ra2a/src/server/task_store.rs:182-191 | the decimal digits of a number denote it |
| Pagination.PrintIsDecimal | ra2a/src/server/task_store.rs:191 | a token is the decimal numeral of its offset, without leading zeros |
| Pagination.UnreadableTokenIsFirstPage | ra2a/src/server/task_store.rs:182-186 | a token that is no number gives the first page |
| Pagination.RetainExactly | ra2a/src/server/task_store.rs:169-176 | filtering keeps every occurrence of what matches and nothing else |
| Pagination.FiltersCompose | ra2a/src/server/task_store.rs:169-176 | one filter after the other is the filter of the whole request |
| Pagination.PageSize | ra2a/src/server/task_store.rs:179 | sizes up to 100 are taken as they are, larger ones are cut to 100, a negative or missing one becomes 50 |
| Pagination.PageHolds | ra2a/src/server/task_store.rs:178-202 | a page reports the saturated number of matches and its clamped size, and is a run of the matches from the offset on, cut short only by their end |
| Pagination.NextOffsetFits | ra2a/src/server/task_store.rs:188-189 | for no token does the unchecked addition of offset and page length overflow |
| Pagination.NextToken | ra2a/src/server/task_store.rs:189-194 | there is a next token exactly while the page ends before the saturated total, and it stands for that end |
| Pagination.ZeroPageMakesNoProgress | ra2a/src/server/task_store.rs:179-194 | only the requested size 0 gives pages of size 0, and their token stands for the same offset again |
| Pagination.WalkSteps | ra2a/src/server/task_store.rs:182-194 | following printed tokens visits consecutive offsets, one page apart, until the total is reached |
| Pagination.Walk | ra2a/src/server/task_store.rs:178-202 | every page of a walk reports the same total, that of the matches, and the clamped size |
| Pagination.WalkVisitsEverything | ra2a/src/server/task_store.rs:158-203 | with at most i32::MAX matches the walk returns all of them once, in order, in max(1, ceil(n / page size)) calls |
| Pagination.WalkCompleteIff | ra2a/src/server/task_store.rs:178-194 | for any number of matches: the walk is complete exactly if the pages needed to reach the saturated total cover them all |
| Pages.GatherAll | ra2a/src/server/task_store.rs:188-194 | the pages from offset 0 on, put together, are the items up to the end of the last page, in ceil(total / page) pages |
| Sse.CutIncrementally | ra2a/src/client/jsonrpc.rs:280-289 | blocks already cut stay, and only the residue matters for what follows: delimiters may straddle chunks |
| Sse.BlocksAreUnique | ra2a/src/client/jsonrpc.rs:280-289 | blocks and residue are the only reading of a text as delimited clean blocks plus a rest without delimiter |
| Sse.BlocksCover | ra2a/src/client/jsonrpc.rs:280-289 | put together again, blocks and residue are the text |
| Sse.BlocksAreClean | ra2a/src/client/jsonrpc.rs:282-284 | cutting is leftmost: no block contains a delimiter or ends in a line feed |
| Sse.LineEnds | ra2a/src/client/jsonrpc.rs:325 | both line ends are cut off; a carriage return stays only at the end of the text |
| Sse.TrimIff | ra2a/src/client/jsonrpc.rs:330 | trimming takes whitespace off both ends, all of it, and nothing else |
| Sse.ParseSseMessage | ra2a/src/client/jsonrpc.rs:322-336 | the accumulating loop yields the trimmed data lines joined by line feeds, leading empty ones skipped, nothing for a block without data |
| Sse.SseStream.TryExtract | ra2a/src/client/jsonrpc.rs:280-289 | returns the payload of the first block that has one and keeps the rest; terminates because the buffer shrinks |
| Sse.SseStream.ParseBlock | ra2a/src/client/rest.rs:371-387 | the payload of one block by the client's own rules |
| Sse.SseStream.Next | ra2a/src/client/jsonrpc.rs:292-313 | each poll returns the first of the outputs that buffer and remaining chunks stand for, and leaves the rest |
| Sse.EventsDependOnTextOnly | ra2a/src/client/jsonrpc.rs:299-307 | with broken and malformed chunks too, the events are those of the accumulated text |
| Sse.MalformedChunk | ra2a/src/client/jsonrpc.rs:302 | a chunk that is not UTF-8 counts for its lossy decoding with the REST client, for nothing with the JSON-RPC client |
| Sse.ErrorsPassThrough | ra2a/src/client/jsonrpc.rs:304 | every error of the body stream is passed on once, in order, and the stream goes on |
| Sse.ChunkingIndependence | ra2a/src/client/jsonrpc.rs:280-313 | however valid text is cut into chunks, the stream yields what one chunk would: the payloads of its leftmost-greedy blocks, data-less ones skipped |
| Sse.DataBlockPayload | ra2a/src/client/rest.rs:363-366 | a one-line data block carries its payload, trimmed by the JSON-RPC client only |
| Sse.FrameRoundTrip | ra2a/src/server/http.rs:255-276 | data frames and keep-alive comments, chunked anywhere, are decoded by both clients to exactly the payload sequence |
| Sse.PayloadSurvivesIff | ra2a/src/client/jsonrpc.rs:326-336 | a newline-free payload survives exactly when it is not empty and, for the JSON-RPC client, neither its first nor its last character is whitespace; inside there may be any |
| Sse.CarriageReturnsStall | ra2a/src/client/rest.rs:371-375 | a text in which every line feed follows a carriage return yields nothing, for either client |
| SseStandard.StandardByBlocks | ra2a/src/client/jsonrpc.rs:280-289 | for every text without carriage returns, the non-empty events that section 9.2.6 dispatches are those of the blocks the clients cut, taken one by one |
| SseStandard.StreamConformsIff | ra2a/src/client/jsonrpc.rs:280-336 | a stream without carriage returns and byte order mark, chunked anywhere, gives a client exactly the standard's non-empty events if and only if every block conforms |
| SseStandard.BlockConformsIff | ra2a/src/client/rest.rs:363-386 | a client agrees with the standard on a block exactly if it has no data, or one empty value, or no `data` field without colon and, for the JSON-RPC client, only trimmed values of which the first is not empty |
| SseStandard.RestMeetsStandard | ra2a/src/client/rest.rs:363-387 | with a colon after every `data` the REST client yields exactly the standard's non-empty events |
| SseStandard.JsonRpcTidiesStandard | ra2a/src/client/jsonrpc.rs:322-336 | with a colon after every `data` the JSON-RPC client yields the standard's events with every line trimmed and leading empty lines dropped, as far as anything is left |
| SseStandard.ClientField | ra2a/src/client/rest.rs:363-366 | the clients find exactly the standard's data lines, except a field name without colon, with the same value, trimmed by the JSON-RPC client |
| SseStandard.JoinInjective | ra2a/src/client/rest.rs:377-381 | joined values can be told apart again, so no departure is hidden by joining |
| SseStandard.CrlfLosesEverything | ra2a/src/client/rest.rs:371-375 | with CRLF line ends the standard dispatches the same events as with line feeds, both clients none of them |
| SseStandard.ByteOrderMarkHidesEvent | ra2a/src/client/rest.rs:371-387 | the standard ignores a leading byte order mark; to both clients it hides the first event |
| SseStandard.MarkedBlockIff | ra2a/src/client/rest.rs:363-386 | the condition on the first block, which loses its first line to the mark |
| SseStandard.MarkedStreamConformsIff | ra2a/src/client/rest.rs:371-387 | a stream that starts with a byte order mark, without carriage returns, chunked anywhere, gives a client exactly the standard's non-empty events if and only if every block after the first conforms and the first has no data, or one empty value, or conforms and does not begin with a data field |
| JsonTree.Ulp | ra2a/src/grpc/convert.rs:392-394 | the spacing of doubles around an integer: 1 below 2^53, then a power of two that keeps 53 bits |
| JsonTree.RoundingError | ra2a/src/grpc/convert.rs:392-394 | integers up to 2^53 are exact; larger ones become a multiple of the spacing, at most half a spacing away |
| JsonTree.RoundsToNearest | ra2a/src/grpc/convert.rs:392-394 | no double, a coarser, equal or finer one, is nearer to the integer than its rounding |
| JsonTree.IntegerRoundTrip | ra2a/src/grpc/convert.rs:388-419 | a positive or negative integer comes back as a float with its sign: itself up to 2^53, beyond that a double that no other is nearer than, at most half a spacing away, the one with the even mantissa if two are as near |
| JsonTree.JsonRoundTrip | ra2a/src/grpc/convert.rs:388-431 | JSON to prost and back rewrites every number to its double and changes nothing else |
| JsonTree.MetadataRoundTrip | ra2a/src/grpc/convert.rs:342-359 | the same for metadata maps, key by key |
| JsonTree.NormIdempotent | ra2a/src/grpc/convert.rs:388-431 | a second trip changes nothing |
| JsonTree.RoundTripLosslessIff | ra2a/src/grpc/convert.rs:392-419 | the trip is lossless exactly on trees without an integer representation |
| JsonTree.ProstRoundTrip | ra2a/src/grpc/convert.rs:413-431 | prost to JSON and back prunes unset and non-finite nodes below the root, and fails exactly when the root is one |
| JsonTree.ToProstMirrors | ra2a/src/grpc/convert.rs:388-411 | the protobuf tree says the same as the JSON tree, node by node: kinds, truth values, texts, list positions, keys, and for each number its nearest double |
| JsonTree.FromProstMirrors | ra2a/src/grpc/convert.rs:413-431 | what is read from a protobuf tree mirrors what of it can be converted, in the same sense |
| JsonTree.PruneIdempotent | ra2a/src/grpc/convert.rs:378-431 | pruning twice is pruning once |
| TaskConvert.PartRoundTrip | ra2a/src/grpc/convert.rs:85-142 | a part comes back with empty optional strings absent and numbers as doubles, otherwise unchanged |
| TaskConvert.MessageRoundTrip | ra2a/src/grpc/convert.rs:144-189 | the same for messages, parts in number and order |
| TaskConvert.ArtifactRoundTrip | ra2a/src/grpc/convert.rs:191-223 | the same for artifacts |
| TaskConvert.TaskRoundTrip | ra2a/src/grpc/convert.rs:225-294 | the same for tasks at every level, for every timestamp codec: a timestamp that parses is reprinted, one that does not is dropped |
| TaskConvert.TaskToProtoMirrors | ra2a/src/grpc/convert.rs:85-294 | the proto task holds every field of the native one in the field of the same name, down to each part's content and each node of its data |
| TaskConvert.ProtoPartRoundTrip | ra2a/src/grpc/convert.rs:85-142 | from proto and back, for any part whatsoever: no content becomes an empty text, data that JSON does not have becomes null or is left out, everything else stays in its field |
| TaskConvert.ProtoTaskRoundTrip | ra2a/src/grpc/convert.rs:225-294 | the same for any proto task; a missing status becomes an unspecified one of the current time, a timestamp is what its printed form parses as |
| TaskConvert.SecondTripChangesNothingIff | ra2a/src/grpc/convert.rs:225-294 | a second trip of a task changes nothing if and only if reprinting the timestamp it came back with gives the same text; otherwise it changes that timestamp alone |
| TaskConvert.YearTenThousandIsLost | ra2a/src/grpc/convert.rs:230-251 | a timestamp in the last hour of the year 9999 west of Greenwich is printed with a five-digit year, which does not parse: the second trip drops it |
| TaskConvert.PartLosslessIff | ra2a/src/grpc/convert.rs:85-142 | a part survives unchanged exactly when it has no empty optional string and no integer |
| TaskConvert.MessageLosslessIff | ra2a/src/grpc/convert.rs:144-189 | the same for messages |
| TaskConvert.ArtifactLosslessIff | ra2a/src/grpc/convert.rs:191-223 | the same for artifacts |
| TaskConvert.TaskLosslessIff | ra2a/src/grpc/convert.rs:225-294 | the same for tasks, whose timestamp must also be the text the codec prints for it |
| ArtifactReducer.LiveTask.ApplyArtifactUpdate | ra2a/src/types/task.rs:279-295 | the update in place is the step of the fold |
| ArtifactReducer.LiveTask.TruncateHistory | ra2a/src/types/task.rs:271-276 | keeps the last n messages, all of them if there are no more |
| ArtifactReducer.ApplyLookup | ra2a/src/types/task.rs:279-295 | one update affects only the artifact with its own id: replaced, extended by the parts, or neither |
| ArtifactReducer.FoldClosedForm | ra2a/src/types/task.rs:279-295 | after any event sequence each id's artifact depends on its own events only: the last replacement with its parts followed by all parts appended since; ids stay distinct |
| ArtifactReducer.FoldOrder | ra2a/src/types/task.rs:279-295 | artifact order is order of first creation, the initial artifacts first |
| ArtifactReducer.AppendsBeforeCreationVanish | ra2a/src/types/task.rs:292-294 | chunks appended before an artifact is created leave no trace in it, whatever events come later |
| ArtifactReducer.ClosedFormStep | ra2a/src/types/task.rs:286-294 | one more event of an id moves its closed form as the update moves the artifact |
| Interceptors.RunBeforeTyped | ra2a/src/server/handler/intercepted.rs:69-90 | the befores run in order up to and including the first failure; a changed request type is an error after all of them |
| Interceptors.RunAfterTyped | ra2a/src/server/handler/intercepted.rs:95-125 | the afters run in reverse down to and including the first failure; an error wins over a payload, a missing or retyped payload is an error |
| Interceptors.Handle | ra2a/src/server/handler/intercepted.rs:149-154 | a method with a single response: befores in order, the inner handler once, afters in reverse; a failing before ends the call with nothing else run, an inner error still reaches the afters |
| Interceptors.HandleStream | ra2a/src/server/handler/intercepted.rs:161-167 | a streaming method: befores in order, the inner handler once, whose error is returned past all afters; each event of the stream meets the afters with the context of a new call |
| Interceptors.ReadWrapped | ra2a/src/server/handler/intercepted.rs:128-140 | reading a wrapped stream to its end: every event once through the afters, error items through none |
| Interceptors.BeforeCalls | ra2a/src/server/handler/intercepted.rs:77-79 | the number of befores that run ends at the first failing one, and its failure is the chain's |
| Interceptors.AfterStop | ra2a/src/server/handler/intercepted.rs:105-107 | a failing after skips exactly the interceptors attached before it, and its failure is the chain's |
| Interceptors.FirstAttachedDecides | ra2a/src/server/handler/intercepted.rs:95-125 | the interceptor attached first has the last word: what its after leaves is the answer, an error whatever the payload, a payload only if there and of the method's type |
| Interceptors.InnerCalledIff | ra2a/src/server/handler/intercepted.rs:69-154 | the inner handler runs once, right after all befores, exactly if none fails and the request keeps its type; otherwise no after runs either |
| Interceptors.ApplyStreamAfter | ra2a/src/server/handler/intercepted.rs:290-308 | a stream event goes through the afters like a response, with one message for a missing and a retyped event |
| Interceptors.WrapStreamPointwise | ra2a/src/server/handler/intercepted.rs:128-140 | a wrapped stream keeps length and order; error items pass untouched |
| Interceptors.StreamsForgetTheContext | ra2a/src/server/handler/intercepted.rs:128-167 | what the befores put into the context never reaches the afters of stream events: only the requests they leave and the afters matter |
| Interceptors.CompositionIff | ra2a/src/server/handler/intercepted.rs:69-125 | the list a ++ b and a wrapped around b agree on a call exactly if b itself does not fail on it or a's afters leave that failure as it is |
| Interceptors.OnionComposes | ra2a/src/server/handler/intercepted.rs:69-125 | for interceptors that never fail, keep types, keep one of payload and error, and ignore the context, the two always agree |
| TransportSelection.CollectCandidates | ra2a/src/client/factory.rs:157-170 | exactly the interfaces with a builder, in card order, each with its first preference index |
| TransportSelection.StableSortSorts | ra2a/src/client/factory.rs:184 | the sort keeps the candidates and orders them by preference, card order among equals |
| TransportSelection.BeforeIff | ra2a/src/client/factory.rs:162-184 | the ranking without numbers: an interface comes before another exactly if its protocol is listed before the other's is, or both are equally good to the client and it is earlier on the card |
| TransportSelection.TryInOrder | ra2a/src/client/factory.rs:186-209 | candidates are tried until one builds, with one error for each failure before |
| TransportSelection.PrefixIsRanked | ra2a/src/client/factory.rs:184-194 | what was tried at any point is a prefix of the ranking: no better candidate was skipped |
| TransportSelection.CreateFromCard | ra2a/src/client/factory.rs:150-215 | the first interface in rank order that builds is chosen, with its transport and its tenant unless that is empty; everything before it was tried and failed, nothing after it was tried; no other that builds is listed earlier by the client, or as early and earlier on the card; if all fail, one error each in that order; the two early errors exactly when they apply |
| TransportSelection.ChoiceIsLeast | ra2a/src/client/factory.rs:184-209 | every other interface that builds ranks behind the chosen one and was not tried |
| TransportSelection.ChoiceIsBest | ra2a/src/client/factory.rs:162-194 | preferences decide: if an interface that builds has its protocol at some index of the client's list, the chosen protocol is listed no later; among equals the lowest card position that builds wins; an unlisted protocol only if no listed one builds |
| PushStore.AcceptedIff | ra2a/src/server/push.rs:156-169 | exactly http and https addresses are accepted |
| PushStore.InMemoryPushStore.SaveConfig | ra2a/src/server/push.rs:70-95 | accepts exactly web addresses; stores and returns the caller's configuration, its own id kept and a missing one generated, found under that id; all other entries stay |
| PushStore.InMemoryPushStore.GetConfig | ra2a/src/server/push.rs:97-112 | the entry under task and id, or not found |
| PushStore.InMemoryPushStore.ListConfigs | ra2a/src/server/push.rs:114-126 | every entry of the task once, in some order |
| PushStore.InMemoryPushStore.DeleteConfig | ra2a/src/server/push.rs:128-141 | removes that entry and no other, possibly leaving an empty inner map |
| PushStore.InMemoryPushStore.DeleteAllConfigs | ra2a/src/server/push.rs:143-152 | removes all entries of the task and no others |
| PushStore.NestedRefinesFlat | ra2a/src/server/push.rs:70-152 | after any run the map of maps answers like one flat map keyed by task and id; empty inner maps are invisible |
| PushStore.SavedIsFound | ra2a/src/server/push.rs:70-95 | a saved configuration is found under its own id, or the generated one, with the caller's address, token and authentication, and displaces no other |
| PushStore.EveryRunIsFiled | ra2a/src/server/push.rs:78-91 | every stored configuration has a non-empty id equal to its key and an http or https address |
| PushStore.ListedIdsWork | ra2a/src/server/handler/default.rs:733-793 | the ids the list handler answers with are exactly those the get handler accepts, and deleting one removes it alone |

## Left out

- serde, base64, chrono and uuid: JSON text is a payload string, timestamps go through a codec parameter, generated ids and clock readings are parameters.
- Protobuf enum numbers: role and task state are the same enumeration on both sides, so unknown numbers turning into "unspecified" are not part of the model.
- Floating point beyond integer conversion: JSON floats are kept as they are; only rounding of integers to doubles is modelled.
- Event and message fields no modelled code reads: the metadata of status and artifact events.
- CalmRuns.TerminalIsAbsorbing: the server enforces none of its conditions; that requests on one task are kept apart is up to the clients, what an executor emits up to the agent. They are sufficient, with a breaking run each; the exact condition is on states, in `LostTasks.TerminalIsKeptIff`.
- Lifecycle: the abort of a running execution by a cancellation is the step `Finish`, which may happen at any time, also after further events; the `running_tasks` map itself is left out.
- Lifecycle: a streaming send is a send whose receiver goes away (`Send`, `Open`, `Subscribe`, `Drop`): its executor runs on, and saves the failed task itself when it fails. A subscription never writes the store. What the receivers of both see is in `Broadcast`.
- Lifecycle: request-context interceptors, push configurations sent along with a message, push delivery and the history limit on replies.
- Collector.DefaultRequestHandler.StoreTask: a failing store is only logged by the code; here the in-memory store's unversioned saves always succeed.
- Collector.DefaultRequestHandler.CollectResult: the handler keeps its own queue handle while it collects, so the channel does not close by itself and termination is not claimed without a stopping event.
- LostTasks.FailureIsKeptIff: the runs it speaks of are those in which other tasks' executors never name the task, no other executor of the task fails and its id is not generated again once it is stored; after a breach of one of these `LostTasks.TerminalIsKeptIff` says whether the task is kept from then on.
- LostTasks.TerminalIsKeptIff: states in which an executor failed, what it saved has been replaced by another terminal task since, and its report is still to come.
- Broadcast.EventQueue.RecvNext: waking of waiting receivers and closing of the channel; a receive that has nothing to yield leaves the receiver as it was.
- QueueManager: the derived `Default` has capacity 0, for which creating a queue panics; capacities are positive here.
- TaskStore.InMemoryTaskStore.List: history length, timestamp filter and artifact selection of the request are ignored by the code as well; tasks saved between two pages of a walk are not considered.
- Sse: bytes inside a chunk; a chunk that is not valid UTF-8 by itself adds nothing (JSON-RPC) or its lossy decoding (REST), so text cut inside a character is outside the round trip.
- SseStandard: event names, last event ids and retry fields of the standard, which neither client reads; texts that mix carriage returns with line feeds other than as CRLF throughout; the decoding of bytes.
- Interceptors: interceptors with state of their own between calls; here each is a function of what it is given.
- TransportSelection.CreateFromCard: attaching the card and the client interceptors to the new client.
- The SQL stores, HTTP and gRPC plumbing, agent cards, error tables, telemetry and the ra2a-ext crate.
