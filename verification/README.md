# shclop: a verified model

shclop lets people chat with agents that run in sandboxes of their own. This project models,
in Dafny, the parts of its backend that keep state, and proves properties of them over all
inputs, all runs and all interleavings. `dafny verify dfyconfig.toml` checks everything.

**The chat protocol** (`Envelopes`, `Protocol*`, `GatewayRegistry`, `TaskLoop`, `Subprocess`,
`SubprocessText`, `OpenAI`, `ToolUseText`, `CodeFences`, `Claw`, `EndToEnd`, `ChatSystem`, `ChatDelivery`,
`ChatReuse`, `ForeignAnswers`). A browser handler parks a waiter with a queue of 16 slots; the
reader of a runtime connection delivers events to it; connections are replaced, dropped and
given up at any moment. `Protocol` is a step system whose actions are the pieces of the
goroutines between two lock operations; `select` keeps its choice. `ProtocolInvariant` holds the
inductive invariant, stated waiter by waiter in a small context; `ProtocolDelivery` says what a
browser sees; `ProtocolSweeps` when a sweep is made and what it tells; `ProtocolReuse` and
`ProtocolStranding` when a message id may be used again; `ProtocolWaiting` and `ProtocolRescue`
which waiting browsers nothing can reach any more;
`ProtocolProgress`, `ProtocolJam`, `ProtocolStuck` and `ProtocolAbandoned` who can get stuck; and
`ProtocolBound` that everything else comes to its end. `GatewayRegistry` has
the registry in its own form, objects on the heap changed in place, and proves that its critical
sections are the steps of `Protocol`. The producers are the runtime's task loop, the adapter that
merges the two pipes of a child process and the tool-use loop; `EndToEnd` composes them.
`ChatSystem` is the gateway with its runtimes and the order-keeping connections between them, as one
step system; `ChatDelivery` proves over all its runs that a browser whose id is not in use sees its own
task's answer, and `ChatReuse` exactly when an id in use does no harm to that.

**The plugin registries** (`Plugins`, `SnapshotText`, `DbRegistry`, `FileRegistry`, `CrdRegistry`,
`MergedRegistry`, `Wakeups`). Three caches keep the last good manifest of a row, a file or a custom
resource; a merge by precedence is rebuilt on notifications that may be dropped. Parsing is an
arbitrary partial function, hashing an arbitrary function that is injective where that is needed.

**The store and single sign-on** (`Tables`, `Store`, `MemoryStore`, `Sso`, `SsoLogin`). `Store`
says what the operations mean on maps, `MemoryStore` is the store of slices and is proved to do
that, `Sso` interleaves the calls of logins with each other and with everything else.

**The sandbox lifecycle** (`Labels`, `LabelText`, `Cluster`, `KubernetesProvider`, `Sandboxes`).
Start and Stop are sequences of API calls. Each call may be refused, or take effect and still report an error, and before each
call others may change whatever is not this agent's, as long as they keep the order. Every write is
recorded, and the ordering invariant is proved of the state after each of them.

## What came out

These are properties one would expect of the code and that it does not have. The lemmas named show
what happens instead, and under which condition the property does hold.

- A message id that is used again can leave a browser waiting for ever. It can be the first one:
  `SendTask` puts the new waiter in the place of the old one, without closing that or telling its
  browser (internal/gateway/registry.go:97-99), so the browser of a chat in progress is cut off at
  once (`ProtocolStranding.FirstBrowserIsLeft`). It can be the second one: `removeWaiter` goes by the
  id, so any goroutine that still has its call to make for the first chat takes out the second
  chat's waiter and closes it, with overlapping chats (`ProtocolDelivery.ReusedIdStrandsBrowser`) and
  with strictly sequential ones (`ProtocolStranding.SequentialReuseIsUnsafe`). Exactly when one of
  the two can happen is said by `ProtocolStranding.ReuseStrandsIff`, for the new chat alone by
  `ProtocolStranding.ReuseIsUnsafeIff`, and exactly which browsers wait for ever by
  `ProtocolRescue.OutOfReachIff`.
- A message id that is used again on the same connection can show a browser the answer to another
  browser's task (`ForeignAnswers.ForeignAnswerIsShown`). A connection brings a browser its own
  answer and no other, until the id is used yet again, exactly when it owes nothing for the id as
  the task is sent (`ChatReuse.BringsOwnIff`, `ChatReuse.ShownIsBrought`).
- A browser whose connection breaks while its queue is full stops reading. If its runtime
  reconnects before it is taken out, the sweep waits for room while it holds the registry's lock,
  and the whole registry stands still for good (`ProtocolJam.JamIsReachable`,
  `ProtocolProgress.JamIsForever`).
- A browser whose connection breaks while its queue is full, and whose message id was used again,
  leaves the reader of its runtime's connection in a delivery that never ends: that reader never
  reads or unregisters again (`ProtocolAbandoned.AbandonedIsReachable`,
  `ProtocolAbandoned.StuckIsForever`). These two are the only ways in which a goroutine
  gets stuck in the middle of something (`ProtocolStuck.GoesOnUnlessStuck`).
- The closing code fence of a command whose output does not end with a newline does not start a
  line, and leaves its block open; and so does an output that is a fence line itself
  (`CodeFences.UnbalancedOutputs`). All commands leave their blocks exactly under
  the condition of `CodeFences.BalancedIff` (`CodeFences.AlwaysOutsideIff`).
- A plugin deleted and uploaded again between two polls starts at revision 1 again, so that the
  database cache keeps the old manifest (`DbRegistry.RecreatedRowIsMissed`,
  `DbRegistry.SkipIsRightIffNothingNew`).
- A custom resource that changes its plugin id leaves its old entry behind, even when it is deleted
  (`CrdRegistry.ChangedIdLeavesAnEntry`, `CrdRegistry.AlwaysExactIff`).
- A change that a source announces after the first rebuild and before the merge subscribes to it is
  not shown until another change starts a rebuild (`Wakeups.EarlyBroadcastIsLost`,
  `Wakeups.CurrentIff`).
- An agent id without any letter or digit has an empty label value, and its policy selects no pod,
  not even its own (`Labels.UnderscoreIsUnguarded`, `Labels.SelectsOwnPodIff`). No id of the store
  has this form: the store gives out 32 hex digits, and for these the policy selects the agent's own
  pod and no other (`Labels.PolicySelectsOwnPod`). The failure reaches only ids from elsewhere.
- `DeleteIntegrationConnection` says that it removes the bindings of the user's own agents
  (internal/store/store.go:537) and removes those of every agent (`Store.OtherUsersBindingGoes`,
  `Store.DeletionIsOwnIff`). The model follows the code.

## Model

| member | source | states |
|---|---|---|
| `ProtocolInvariant.StepKeeps` | internal/gateway/registry.go:70-152 | every step of every goroutine keeps the structural invariant of waiters, connections and locks |
| `ProtocolInvariant.ReachableInv` | internal/gateway/registry.go:70-152 | the invariant holds in every reachable state, whatever message ids browsers choose |
| `ProtocolDelivery.BrowserSeesPrefix` | internal/api/server.go:1757-1776 | in every interleaving a browser is written a prefix, without loss, duplicate or reordering, of what its connection dispatched for its key since the waiter was inserted, cut at the first final event; or such a prefix without final event and then one error of a sweep |
| `ProtocolDelivery.QueuedEventsComeFromOwnConnection` | internal/gateway/registry.go:114-132 | every queued event carries its waiter's own agent and message id, and the non-synthetic ones are, in order, from the connection the task was sent on, even if that was replaced between snapshot and delivery |
| `ProtocolDelivery.MapHoldsCurrentWaiters` | internal/gateway/registry.go:70-100 | a waiter in the map has `done` open, belongs to a registered agent and was inserted against its present connection, except while a sweep of that agent runs |
| `ProtocolDelivery.SweptGetsExactlyOneError` | internal/gateway/registry.go:49-58 | a waiter a sweep took out gets exactly one synthetic event, before its `done` closes, and that is an error |
| `ProtocolDelivery.SweepsSendErrors` | internal/gateway/registry.go:134-142 | in every reachable state every synthetic event is of the error type, carries the chat's own agent and message id, and says that the runtime was replaced or is disconnected, and nothing else |
| `ProtocolSweeps.SweepTellsWhy` | internal/gateway/registry.go:75-86 | the error says `runtime connection replaced` if and only if the agent has a runtime again, and otherwise `runtime disconnected` |
| `ProtocolSweeps.SweepStartsIff` | internal/gateway/registry.go:70-88 | a sweep starts if and only if a connection registers in the place of another one, or the registered one unregisters |
| `ProtocolSweeps.RegistrationIff` | internal/gateway/registry.go:70-88 | a connection becomes its agent's if and only if it registers, and ceases to be if and only if it unregisters or another one of the agent registers |
| `ProtocolSweeps.SweptLostItsConnection` | internal/gateway/registry.go:70-88 | a chat is swept only when its task's connection is not the registered one any more |
| `ProtocolDelivery.SixteenWait` | internal/gateway/registry.go:30-47 | at most 16 events wait for a browser, and a delivery goes on exactly while there are fewer |
| `ProtocolDelivery.OnlySweptGetErrors` | internal/gateway/registry.go:134-142 | no other waiter ever gets a synthetic error |
| `ProtocolDelivery.ClosedMeansAnswered` | internal/gateway/registry.go:38-47 | if `done` is closed and it was not another chat's removeWaiter that took the waiter out, a final event is queued or written, or its browser has gone; when another's can is `ProtocolStranding.ReuseIsUnsafeIff` |
| `ProtocolReuse.OverwrittenIff` | internal/gateway/registry.go:97-99 | a waiter's place in the map is taken by another at a step if and only if that step sends a task with its id to its agent's registered runtime |
| `ProtocolDelivery.NothingIsLost` | internal/gateway/registry.go:90-142 | a browser still reading has been sent everything dispatched for it up to the first final event, or a part and a sweep's error; and without a final event its waiter is still in the map |
| `ProtocolDelivery.UndisturbedChatIsComplete` | internal/api/server.go:1768-1776 | a browser that ended of its own accord, with no sweep, was written exactly the dispatched stream up to its first final event |
| `ProtocolDelivery.ReusedIdStrandsBrowser` | internal/gateway/registry.go:99-107 | a concrete run of two overlapping chats with one id, after which the second one's waiter is closed and out of the map with nothing sent |
| `ProtocolReuse.LeftWaitingForEver` | internal/api/server.go:1769-1776 | a browser that waits at an empty queue, with its waiter out of the map, whoever took it out or overwrote it, and nobody delivering to it, is never written another response, whatever happens |
| `ProtocolWaiting.OutOfReachForEver` | internal/gateway/registry.go:134-142 | and no more is one whose waiter is in the map, while a sweep that cannot end keeps the registry's lock |
| `ProtocolRescue.OutOfReachIff` | internal/api/server.go:1769-1776 | in every reachable state, a browser at an empty queue is never written another response, on any run, if and only if nobody is delivering to it and its waiter is out of the map, or behind a sweep that cannot end |
| `ProtocolRescue.LeftWaitingIff` | internal/api/server.go:1769-1776 | so while the registry's lock is free: if and only if nobody is delivering to it and its waiter is out of the map |
| `ProtocolStranding.StrandedIsLeftWaiting` | internal/gateway/registry.go:99-107 | the run above leaves its second browser in that state |
| `ProtocolReuse.UnmeddledStays` | internal/gateway/registry.go:90-152 | as long as the id is not used again, no goroutine that could call removeWaiter for it appears where there was none, and the waiter is not displaced |
| `ProtocolStranding.SafeReuse` | internal/gateway/registry.go:97-111 | for the new chat: if no goroutine can still call removeWaiter for the id when it is sent, its waiter is never displaced and its browser never left waiting, until the id is used again |
| `ProtocolStranding.ReuseIsUnsafeIff` | internal/gateway/registry.go:97-151 | for the new chat: when it is sent, it can be displaced, and it can be left waiting for ever, without the id being used again, if and only if some goroutine can still call removeWaiter for the id: a browser before its own call that is not waiting for nothing, a reader after the delivery of a final event, or one that carries a final event to a queue with room |
| `ProtocolStranding.ReuseStrandsIff` | internal/gateway/registry.go:97-151 | for both chats: when a task is sent, some browser of its id, the new one or an earlier one, can be left waiting for ever without the id being used yet again, if and only if the id is in the map with a browser that is still reading, or some goroutine can still call removeWaiter for it |
| `ProtocolStranding.FirstBrowserIsLeft` | internal/gateway/registry.go:97-99 | a concrete chat in progress, with no goroutine about to call removeWaiter, whose browser is left waiting the moment its id is used again |
| `ProtocolStranding.SequentialReuseIsUnsafe` | internal/gateway/registry.go:129-131 | a strictly sequential reuse is of this kind: all browsers of the id have gone and nothing is in the map, but the reader has not come to its removeWaiter |
| `ProtocolProgress.LockChainMovesUnlessJammed` | internal/gateway/registry.go:134-142 | while a sweep holds the registry lock, a goroutine it waits for can move if and only if the state is not jammed (full queue, browser gone by a failed write) |
| `ProtocolProgress.LittleAfterTheEnd` | internal/api/server.go:1769-1776 | a browser that read to its first final event leaves at most one event on its queue |
| `ProtocolProgress.JamIsForever` | internal/gateway/registry.go:49-58 | a jammed registry stays jammed over every run |
| `ProtocolStuck.ClosersStep` | internal/gateway/registry.go:144-152 | every step keeps: a waiter that removeWaiter took out is closed, or some goroutine is about to close it |
| `ProtocolStuck.GoesOnUnlessStuck` | internal/gateway/registry.go:38-58 | in every reachable state, a goroutine in the middle of something, or one it waits for, can take a step if and only if it is neither behind a jammed registry nor delivering to a full queue whose waiter was overwritten and whose browser has gone |
| `ProtocolStuck.SettledIff` | internal/gateway/registry.go:38-58 | no goroutine can take a step of its own if and only if all that are in the middle of something are stuck in one of these two ways |
| `ProtocolStuck.NobodyStuckIfNobodyQuits` | internal/api/server.go:1770-1772 | nobody is ever stuck if no browser gives up on a failed write |
| `ProtocolAbandoned.StuckIsForever` | internal/gateway/registry.go:38-58 | what is stuck stays stuck over every run |
| `ProtocolAbandoned.AbandonedIsReachable` | internal/gateway/registry.go:97-99 | a reader abandoned in a delivery is reachable, with the registry's lock free |
| `ProtocolBound.NoRunIsLonger` | internal/gateway/registry.go:90-152 | without new connections, events, errors and tasks, only boundedly many steps can be taken, in whatever order |
| `ProtocolBound.SettledChatHasEnded` | internal/api/server.go:1769-1776 | and then every chat that has its end, by a dispatched final event or a sweep, and was not displaced, has ended with it or its browser gave up, unless its browser or its reader is stuck |
| `ProtocolProgress.SweepTakesOutExactlyItsAgent` | internal/gateway/registry.go:134-142 | a sweep, however it interleaves, takes out all of its own agent's waiters and no other agent's, and nothing is registered meanwhile |
| `ProtocolJam.JamIsReachable` | internal/api/server.go:1770-1772 | a jam is reachable: the browser's write fails while its queue is full, then the runtime reconnects |
| `GatewayRegistry.Waiter.Deliver` | internal/gateway/registry.go:38-47 | the select: appends when there is room, refuses only when `done` is closed, either when both |
| `GatewayRegistry.RuntimeRegistry.Register` | internal/gateway/registry.go:70-79 | the map moves as the step system's Register does; a sweep follows exactly on a replacement |
| `GatewayRegistry.RuntimeRegistry.Unregister` | internal/gateway/registry.go:81-88 | the map moves as the step system's Unregister does; a sweep follows exactly if the connection is the registered one |
| `GatewayRegistry.RuntimeRegistry.SendTask` | internal/gateway/registry.go:90-100 | a fresh waiter object is parked, replacing one of the same key, if the agent has a runtime |
| `GatewayRegistry.RuntimeRegistry.Snapshot` | internal/gateway/registry.go:114-125 | Dispatch's critical section picks the waiter object the step system picks, or drops the event |
| `GatewayRegistry.RuntimeRegistry.Deliver` | internal/gateway/registry.go:126-131 | delivery on the shared object is the step system's Push or Drop |
| `GatewayRegistry.RuntimeRegistry.TakeOut` | internal/gateway/registry.go:144-148 | removeWaiter's critical section is the step system's |
| `GatewayRegistry.RuntimeRegistry.SweepOne` | internal/gateway/registry.go:135-139 | one turn of the sweep's loop takes out the waiter the step system takes out |
| `GatewayRegistry.RuntimeRegistry.Fail` | internal/gateway/registry.go:49-58 | the error is queued behind everything else and `done` is closed; it is of the error type, with one of the two texts |
| `Envelopes.CutIsPrefix` | cmd/shclop-runtime/main.go:148-150 | cutting at the first final event gives the longest prefix with at most one final event, at its end |
| `TaskLoop.RunTask` | cmd/shclop-runtime/main.go:63-97 | what is written is the specified envelope sequence, or a proper prefix of it if a write failed |
| `TaskLoop.ToEnvelope` | cmd/shclop-runtime/main.go:120-146 | an envelope echoes its chat's ids and number, and is final for every event but Started and Delta, unknown types included |
| `TaskLoop.TaskEndsExactlyOnce` | cmd/shclop-runtime/main.go:63-97 | for every adapter outcome the envelopes are numbered 1..n, echo the ids, and have exactly one final envelope, the last |
| `TaskLoop.TaskForwardsEveryEvent` | cmd/shclop-runtime/main.go:75-88 | every adapter event up to the first final one is forwarded, translated, in its place |
| `TaskLoop.TextIsConserved` | cmd/shclop-runtime/main.go:75-88 | the texts of the delta envelopes of a task, put together, are those of the adapter's deltas up to its first final event, put together: no character is lost, added or moved |
| `TaskLoop.StreamedIsTold` | cmd/shclop-runtime/main.go:122-127 | event by event: Started comes as Started and carries nothing, a delta as a delta with exactly its text |
| `TaskLoop.EndIsTold` | cmd/shclop-runtime/main.go:89-146 | the last envelope: done, with nothing; or the adapter's error, or else its text, with the exit code exactly when it is not 0; or what was unknown, or missing, in its stream |
| `TaskLoop.FailureIsTold` | cmd/shclop-runtime/main.go:65-73 | an adapter that does not start is reported by one error with its message |
| `EndToEnd.ChatEventResponse` | internal/api/server.go:1887-1900 | which response keys are present and what they hold: text or error, and `done` exactly for final events |
| `EndToEnd.NothingAfterDone` | internal/api/server.go:1769-1776 | a browser gets at most one `done` response and nothing after it |
| `EndToEnd.UndisturbedChatShowsWholeTask` | internal/api/server.go:1757-1776 | an undisturbed chat shows every envelope of the runtime's task loop, in order, with exactly one `done`, at the end, if what was dispatched for it is a part of them from the start |
| `ChatDelivery.MoveKeeps` | cmd/shclop-runtime/main.go:53-97 | of the gateway and its runtimes as one system, every move keeps: what was read of a key is what was dispatched and what is in hand, and what a runtime wrote is part of what its task loop says for the tasks it took up |
| `ChatDelivery.TaskArrivesAsSent` | internal/gateway/registry.go:90-105 | the task a browser sends is written, as it was sent, to the connection its waiter was made for and to no other, and so is what that runtime takes up for it |
| `ChatDelivery.OfferedIsOfItsTask` | internal/gateway/registry.go:90-132 | so in every run of that system, for a chat that is alone with its id on its connection, what was dispatched is a part of what the task loop writes for its own task, from the start and in order |
| `ChatDelivery.BrowserSeesItsTask` | internal/api/server.go:1757-1776 | such a browser is shown a part of that, cut at its first final event, or such a part and one error of a sweep, and nothing of any other task |
| `ChatDelivery.BrowserSeesWholeTask` | internal/api/server.go:1768-1776 | and all of it, with one `done` at the end, when it ended of its own accord and no sweep hit it |
| `ChatReuse.BringsOwnIff` | internal/gateway/registry.go:90-132 | whenever a task is sent: on every run without the id being used yet again, its connection brings its waiter (dispatched for it, in the reader's hand, or on the wire) nothing but the answer to this task, if and only if at that moment the connection owes nothing for the id: no event of it is in hand or on the wire, no task of it is unanswered, and no browser is about to write one |
| `ChatReuse.ShownIsBrought` | internal/api/server.go:1757-1776 | and what is brought is all that can be shown, but for one error of a sweep |
| `ChatReuse.BroughtOwnIsShownWhole` | internal/api/server.go:1768-1776 | a browser that is brought only its own, and ends of its own accord without a sweep, has been shown the whole answer, with one `done` at the end |
| `ChatReuse.BroughtOwnIsRead` | internal/api/server.go:1757-1776 | and has read exactly what its own task's adapter said |
| `ForeignAnswers.ForeignAnswerIsShown` | internal/gateway/registry.go:114-132 | a concrete run in which the id is used again on the same connection, and the second browser is shown the answer to the first one's task and none to its own |
| `EndToEnd.SweptChatEnds` | internal/gateway/registry.go:134-142 | every browser that did not give up ends with exactly one `done`, swept or not |
| `EndToEnd.SweptChatShowsError` | internal/api/server.go:1887-1900 | a chat whose last event is the sweep's does not look complete: its browser's last response is an error with one of the two texts, and has no text of its own |
| `EndToEnd.UndisturbedChatShowsText` | internal/api/server.go:1757-1776 | an undisturbed chat shows, response by response, the adapter's text up to its first final event, all of it and nothing else |
| `EndToEnd.AnswerIsRead` | internal/claw/openai.go:166-172 | of a run of the tool-use loop the browser reads the commands with their outputs and then exactly the model's answer, and is told that it is done |
| `EndToEnd.OutputIsRead` | internal/claw/subprocess.go:71-95 | of a child that prints nothing to stderr the browser reads all that was read from its stdout |
| `EndToEnd.SubprocessIsForwarded` | internal/claw/subprocess.go:52-122 | all a child printed that could be read to its end passes the task loop unchanged |
| `EndToEnd.ToolUseIsForwarded` | internal/claw/openai.go:90-226 | all the tool-use loop says passes the task loop unchanged |
| `Subprocess.StepKeeps` | internal/claw/subprocess.go:71-122 | every step of the two readers, the finisher and the consumer keeps the invariant |
| `Subprocess.NoSendAfterClose` | internal/claw/subprocess.go:57-122 | in every schedule, cancelled or not, no send is possible once the channel is closed |
| `Subprocess.CompleteStream` | internal/claw/subprocess.go:52-122 | without cancellation the closed channel carried Started, an order-keeping shuffle of exactly the chunks read from both pipes (a read error last of its pipe), and one exit event |
| `Subprocess.CompleteStreamEndsOnce` | internal/claw/subprocess.go:84-121 | without cancellation and read error the exit event is the only final one |
| `Subprocess.ReaderSendsInOrder` | internal/claw/subprocess.go:71-95 | in every schedule what a reader sent is a gapless prefix of what it read |
| `Subprocess.ThirtyTwoWait` | internal/claw/subprocess.go:22-22 | a send waits exactly while 32 events have not been received |
| `SubprocessText.OutputIsConserved` | internal/claw/subprocess.go:71-121 | over every run without cancellation: the deltas of a pipe, put together, are all that the run read from it, each chunk of stderr behind its prefix; an error follows exactly when the last read failed; and the last event is Done exactly when Wait gave no error, and otherwise that error with its exit code |
| `SubprocessText.StdoutIsShown` | internal/claw/subprocess.go:71-95 | if nothing came on stderr, the text of the whole stream is what was read from stdout |
| `OpenAI.Run` | internal/claw/openai.go:90-226 | the requests are the specified transcripts, at most ten, one more for every answer that asks for tools and none after any other reply; and the events are the specified stream, for every sequence of replies |
| `ToolUseText.AnswerIsSent` | internal/claw/openai.go:126-226 | the text of all that is sent is that of the commands with their outputs, and then exactly the content of the answer that ended the run; Done is sent if and only if an answer ended it, and otherwise the final event is an error that carries what went wrong |
| `ToolUseText.CommandsAreShown` | internal/claw/openai.go:200-206 | before the end, the text sent is exactly that of the executed commands, each in a code block with its output, in order |
| `ToolUseText.RequestSays` | internal/claw/openai.go:98-222 | the n-th request opens with the system prompt and the user's text and repeats the n replies as they came, each with one result per call in order: the command's output and how it failed, or why there was no command; and holds nothing else |
| `OpenAI.BlocksAreDialogue` | internal/claw/openai.go:159-222 | after system and user, every request is made of blocks of one message with k>=1 tool calls and then k tool messages with the same ids in the same order |
| `OpenAI.BlocksGrow` | internal/claw/openai.go:164-222 | a request only ever extends the one before |
| `OpenAI.StreamEndsOnce` | internal/claw/openai.go:93-226 | the stream starts with Started and has exactly one final event, the last |
| `OpenAI.ProgressIsClosed` | internal/claw/openai.go:200-206 | between Started and the ending, every event that opens a code fence is followed by one that closes it, after at most one delta |
| `CodeFences.FenceStartsLineIff` | internal/claw/openai.go:200-206 | in the text of the deltas put together, the closing fence of a command starts a line if and only if the command's output is empty or ends with a newline |
| `CodeFences.AllFencesStartLinesIff` | internal/claw/openai.go:200-206 | every closing fence of a run starts a line if and only if all its commands' outputs are of this kind |
| `CodeFences.PrintfLeavesItsFenceOpen` | internal/claw/openai.go:202-206 | the output of `printf foo` is not |
| `CodeFences.AlwaysOutsideIff` | internal/claw/openai.go:200-206 | where every line that begins with three backticks opens a code block or closes one: the text between two commands of a run is always outside of any block if and only if every command, with its output and closing fence, leaves the block it opened |
| `CodeFences.BalancedIff` | internal/claw/openai.go:200-206 | a command does if and only if the lines of it and of its output that begin with three backticks are even in number and its closing fence begins a line, or they are odd and the fence does not |
| `CodeFences.UnbalancedOutputs` | internal/claw/openai.go:202-206 | neither `foo` without a newline nor a line of three backticks is such an output |
| `SnapshotText.SortedFormIsUnique` | internal/plugins/db_registry.go:110-111 | with distinct ids there is one sorted order of the entries, whatever the order of the rows and the sort |
| `SnapshotText.TextIsInjective` | internal/plugins/db_registry.go:112-120 | the text `id:rev;...` determines the entries, on ids without `:` and `;` |
| `DbRegistry.DBRegistry.Poll` | internal/plugins/db_registry.go:70-137 | a poll is the specified step of the cache, with a broadcast exactly when it swaps, and none on a store error |
| `DbRegistry.RefreshedOfSameRows` | internal/plugins/db_registry.go:89-108 | the refreshed map does not depend on the order of the rows |
| `DbRegistry.RefreshedIsSettled` | internal/plugins/db_registry.go:89-108 | the fallback to the prior manifest is idempotent |
| `DbRegistry.SkippingIsSound` | internal/plugins/db_registry.go:70-137 | over every run of polls, with store errors anywhere, the cache equals that of a registry that never skips, if row ids are the manifests' and a row's revision changes with its text between successive successful polls |
| `DbRegistry.SkipIsRightIff` | internal/plugins/db_registry.go:126-130 | a poll that sees the same ids and revisions is skipped, and rightly if and only if every row that parses parses to what is cached |
| `DbRegistry.LastParsedIff` | internal/plugins/db_registry.go:89-108 | what the last text of an id that parsed says is what some successful poll read for it, with only malformed texts of it and failed polls since |
| `DbRegistry.NoSkipIsLastParsed` | internal/plugins/db_registry.go:89-108 | over every run of polls, refreshing at each keeps for every id exactly what its last text that parsed says |
| `DbRegistry.SkipIsRightIffNothingNew` | internal/plugins/db_registry.go:126-130 | after every run of faithful polls, skipping a poll is right if and only if every text it sees is malformed or says what the last one of its id that parsed said |
| `DbRegistry.RecreatedRowIsMissed` | internal/plugins/db_registry.go:126-130 | a row deleted and created anew between two polls, so at revision 1 again, keeps its old manifest in the cache |
| `DbRegistry.RefreshedIsKeyed` | internal/plugins/db_registry.go:89-108 | what is cached is filed under the manifests' own ids |
| `DbRegistry.RefreshedMeans` | internal/plugins/db_registry.go:89-108 | whatever the rows: an id has the manifest of the last row that has something to say under it, by its text, or by what was there before if that is malformed |
| `FileRegistry.FileRegistry.Scan` | internal/plugins/file_registry.go:108-186 | after any run of scans `pathLast` holds each file's last good version, `pathToID` has its domain and ids, and the map is the catalogue of the directory last read; a directory that cannot be read changes nothing |
| `FileRegistry.LastGoodIff` | internal/plugins/file_registry.go:135-171 | a last good version is the most recent successful parse since the file was last absent; it vanishes with the file and is not resurrected |
| `FileRegistry.LastGoodMeans` | internal/plugins/file_registry.go:119-186 | told of the directories: a file's last good version is what it parsed to in one of them, with the file there but unreadable or malformed in all those since |
| `FileRegistry.EligibleIff` | internal/plugins/file_registry.go:122-133 | read are exactly the visible files, not directories, whose names end in `.yaml` or `.yml` in letters of either case |
| `FileRegistry.CatalogueAt` | internal/plugins/file_registry.go:119-171 | an id maps to the last good version of the last entry that offers it, and to nothing else |
| `CrdRegistry.CRDRegistry.Upsert` | internal/plugins/crd_registry.go:79-122 | a valid version is filed under its id and indexed by its resource, with a broadcast; anything else changes nothing |
| `CrdRegistry.CRDRegistry.Delete` | internal/plugins/crd_registry.go:125-150 | the entry the index names for the resource is removed, tombstones unwrapped, with a broadcast exactly if there was one |
| `CrdRegistry.UpsertIsRead` | internal/plugins/crd_registry.go:79-122 | after every log, a valid version is found under its id and its resource; anything else that is added changes nothing |
| `CrdRegistry.DeletionIsRead` | internal/plugins/crd_registry.go:125-150 | after every log, a resource that is deleted, or of which only a tombstone tells, is gone from the index with its entry, and nothing else is |
| `CrdRegistry.LiveIff` | internal/plugins/crd_registry.go:79-150 | a living resource's version is its last valid one, later invalid updates notwithstanding, and it was not deleted since |
| `CrdRegistry.LiveMeans` | internal/plugins/crd_registry.go:79-150 | the same, told of the objects the events carry |
| `CrdRegistry.IndexNamesTheLiving` | internal/plugins/crd_registry.go:118-145 | over every sequence of events, `nameToID` names exactly the living resources and their ids |
| `CrdRegistry.StepIsExactIff` | internal/plugins/crd_registry.go:79-150 | an event keeps the cache exact if and only if a new version keeps its resource's id and no other living resource has it |
| `CrdRegistry.AlwaysExactIff` | internal/plugins/crd_registry.go:79-150 | at every moment of a run the cache is the map from id to the last valid version of each living resource, and the index its exact inverse, if and only if every event of the run is orderly |
| `CrdRegistry.ChangedIdLeavesAnEntry` | internal/plugins/crd_registry.go:117-119 | a resource that changes its id leaves its old entry behind even after it is deleted |
| `MergedRegistry.MergedRegistry.Rebuild` | internal/plugins/registry.go:120-188 | the merged map holds, for exactly the listed ids, the entry of the first source that lists the id, and the shadow log stays right |
| `MergedRegistry.WinnerIsPrecedence` | internal/plugins/registry.go:131-142 | whatever order the lists come in, the winner is the precedence merge of the caches |
| `MergedRegistry.KeyIsInjective` | internal/plugins/registry.go:161-162 | the key joined by bars determines the shadow event, on components without bars |
| `MergedRegistry.ShadowsAreLoggedOnce` | internal/plugins/registry.go:152-187 | over any sequence of rebuilds exactly the shadowings that occurred are logged, each once |
| `MergedRegistry.ShadowsMean` | internal/plugins/registry.go:152-176 | what is logged names the source and the hash of an entry that is shown, and those of a listed one of the same id with another hash that is not |
| `MergedRegistry.List` | internal/plugins/base_registry.go:27-35 | a list holds every cached entry once and nothing else |
| `Wakeups.StepKeeps` | internal/plugins/base_registry.go:39-59 | every step keeps: a cache that changed since it was read has an announcement, a token, a woken watcher, a rebuild that will read it, or a broadcast that found no subscriber |
| `Wakeups.QuietIsCurrent` | internal/plugins/registry.go:87-116 | when all is quiet the merge is that of the current caches, although full channels drop tokens, if every cache was read after its last change; and one that was not had a broadcast before its subscription |
| `Wakeups.CurrentIff` | internal/plugins/registry.go:87-116 | a schedule that ends quiet makes the merge current, whatever the caches hold, if and only if it reads every cache after its last change |
| `Wakeups.NoRunIsLonger` | internal/plugins/registry.go:99-112 | without further changes only boundedly many steps can be taken |
| `Wakeups.StuckIsQuiet` | internal/plugins/registry.go:99-112 | and the machinery stops exactly when all is quiet |
| `Wakeups.EarlyBroadcastIsLost` | internal/plugins/registry.go:90-98 | a change announced between the first rebuild and Subscribe is not shown when all is quiet, so not before another change |
| `Tables.IndexIsExact` | internal/store/store.go:145-157 | with distinct keys a first-match scan is a map lookup |
| `Tables.Appended` | internal/store/store.go:121-143 | appending under a free key is an insertion |
| `Tables.Replaced` | internal/store/store.go:184-203 | editing in place is an update of the map |
| `Tables.CutOut` | internal/store/store.go:866-880 | cutting a record out of the slice removes its key |
| `Tables.Filtered` | internal/store/store.go:528-549 | filtering the slice filters the map |
| `Store.OpKeepsWellFormed` | internal/store/store.go:121-880 | every operation keeps usernames unique, identities naming existing users, and every record under its own key |
| `Store.RunKeepsWellFormed` | internal/store/store.go:121-880 | and so does every run of operations |
| `Store.RevisionCountsUpserts` | internal/store/store.go:450-675 | while a connection, a binding or a plugin lives, its revision grows with every upsert of it and is changed by nothing else, short of the largest int64 |
| `Store.LastWriteIsRead` | internal/store/store.go:450-675 | as long as a connection, a binding or a plugin lives, whatever else happens, it says what it was last given: its scope, account, status and secret, its flag and status, or its text and flag |
| `Store.DeletionIsOwnIff` | internal/store/store.go:528-549 | deleting a connection removes exactly the bindings of the user's own agents, as the comment has it, if and only if no other agent has a binding of that provider |
| `Store.OtherUsersBindingGoes` | internal/store/store.go:537-544 | a concrete store in which another user's binding goes |
| `MemoryStore.Memory.CreateUser` | internal/store/store.go:121-143 | the slices do what the operation means on maps, conflict and failure included; after a success the store has exactly the returned user more, enabled, with the name and the role given, and a hash that is not empty under the name |
| `MemoryStore.Memory.GetUser` | internal/store/store.go:145-157 | lookup by id |
| `MemoryStore.Memory.GetUserByUsername` | internal/store/store.go:159-171 | lookup by the unique username |
| `MemoryStore.Memory.UpdateUser` | internal/store/store.go:184-203 | only the given fields of that user change |
| `MemoryStore.Memory.BootstrapAdmin` | internal/store/store.go:692-728 | the named user becomes an enabled admin, created if missing |
| `MemoryStore.Memory.CreateAgent` | internal/store/store.go:226-251 | after a success the store has exactly the returned agent more, idle, with the owner given |
| `MemoryStore.Memory.DeleteAgent` | internal/store/store.go:314-334 | the agent and exactly its bindings go |
| `MemoryStore.Memory.UpsertIntegrationConnection` | internal/store/store.go:450-493 | the returned connection is filed for that user and provider, with the account, status and secret given, the scope given or else the user's, and its revision; nothing else changes |
| `MemoryStore.Memory.GetIntegrationConnection` | internal/store/store.go:495-507 | lookup by user and provider |
| `MemoryStore.Memory.DeleteIntegrationConnection` | internal/store/store.go:528-549 | the connection goes, and every agent's bindings of that provider, whoever owns the agent |
| `MemoryStore.Memory.ListUserIntegrationProviderIDs` | internal/store/store.go:509-526 | exactly the providers of the user's user-scoped connections, each once |
| `MemoryStore.Memory.UpsertAgentIntegration` | internal/store/store.go:553-589 | the returned binding is filed for that agent and provider, with the flag and status given, its revision raised or 1; nothing else changes |
| `MemoryStore.Memory.GetAgentIntegration` | internal/store/store.go:609-621 | lookup by agent and provider |
| `MemoryStore.Memory.UpsertPluginManifest` | internal/store/store.go:654-675 | the returned manifest is filed with the text and flag given, at the next revision or 1; nothing else changes |
| `MemoryStore.Memory.DeletePluginManifest` | internal/store/store.go:677-688 | the manifest goes, or NotFound |
| `MemoryStore.Memory.GetUserIDByIdentity` | internal/store/store.go:740-752 | lookup by provider and subject |
| `MemoryStore.Memory.TouchIdentityLogin` | internal/store/store.go:754-768 | that identity is marked as having logged in |
| `MemoryStore.Memory.CreateUserAndIdentity` | internal/store/store.go:770-804 | both records or neither, refused if the username or the identity is taken; after a success the store has exactly the returned user and its identity more, with the email and display name given |
| `MemoryStore.Memory.LinkIdentityToUser` | internal/store/store.go:806-839 | links to an existing user only, and only an identity nobody has; after a success the store has exactly this identity more, with the email and display name given |
| `MemoryStore.Memory.UnlinkIdentity` | internal/store/store.go:866-880 | removes the identity only if it is that user's |
| `Sso.StepKeeps` | internal/api/oidc.go:256-292 | every step of every login, and every other operation of the store in between, keeps the provenance of accounts |
| `Sso.OnlyOwnAccounts` | internal/api/oidc.go:256-292 | in every interleaving a login returns only an account its own identity created or an admin linked to it, never a disabled one |
| `Sso.ReturnsWhatItRead` | internal/api/oidc.go:261-271 | the account returned stands enabled in the store at that very step |
| `Sso.OpeningsAreConserved` | internal/store/store.go:770-880 | creations and links of an identity less its unlinks are what the store holds: one or none |
| `Sso.RacingLoginsShareOneAccount` | internal/api/oidc.go:274-291 | racing logins of an identity that is not unlinked open one account at most and return the same one |
| `Sso.NewAccountIsRecorded` | internal/api/oidc.go:274-291 | an account that a login creates is an enabled ordinary user's under the given email, recorded with the identity that opened it, its email and display name; nothing else changes |
| `SsoLogin.LinkOrCreateUser` | internal/api/oidc.go:256-292 | the code on the store of slices is the step system's login, when nothing interleaves; it is refused as disabled exactly when the identity's account is, and as registered exactly when the identity is new and the name taken |
| `Labels.ComputeLabelValue` | internal/sandbox/networkpolicy.go:136-157 | the buffer loop computes the label value specified |
| `Labels.LabelValueIsValid` | internal/sandbox/networkpolicy.go:136-157 | for every input the result is empty or a valid label value: 1 to 63 characters of `[a-z0-9.-]`, alphanumeric at both ends |
| `Labels.LabelValueKeepsIff` | internal/sandbox/networkpolicy.go:136-157 | the fixed points are exactly the empty string and the valid label values |
| `Labels.LabelValueIsIdempotent` | internal/sandbox/networkpolicy.go:136-157 | sanitising twice is sanitising once |
| `Labels.LabelIsEmptyIff` | internal/sandbox/networkpolicy.go:136-157 | the result is empty if and only if the input, in lower case, has no letter or digit of ASCII |
| `LabelText.WordsAreKept` | internal/sandbox/networkpolicy.go:136-157 | of words with other characters between them the result is the words joined by single dashes, and of that all, or all but the dashes and dots at the end of the first 63 characters |
| `LabelText.AlnumsAreKept` | internal/sandbox/networkpolicy.go:136-157 | the letters and digits of the result are those of the text in lower case, in order from the first on; all of them, if the text has no more than 63 characters |
| `Labels.SelectsIff` | internal/sandbox/networkpolicy.go:73-84 | an agent's policy selects an agent's pod if and only if the pod's label value is not empty and equals its own |
| `Labels.SelectsOwnPodIff` | internal/sandbox/networkpolicy.go:73-84 | an agent's policy selects its own pod if and only if its id has a letter or a digit |
| `Labels.UnderscoreIsUnguarded` | internal/sandbox/networkpolicy.go:84-84 | the policy of the agent `_` selects no pod at all |
| `Labels.PolicySelectsOwnPod` | internal/sandbox/podspec.go:118-127 | for ids of 32 hex digits: its own pod and no other agent's |
| `Cluster.OwnersAreDistinct` | internal/sandbox/kubernetes_provider.go:336-339 | agents with different trimmed ids own different objects |
| `Cluster.AddingKeepsOrder` | internal/sandbox/kubernetes_provider.go:151-162 | writing an object keeps the order, for a pod if its secret, claim and policy are there |
| `Cluster.RemovingKeepsOrder` | internal/sandbox/kubernetes_provider.go:340-353 | removing an object keeps the order, if its agent's pod went first |
| `Cluster.OwnWritesAreAllowed` | internal/sandbox/kubernetes_provider.go:87-355 | what is done for one agent never disturbs another's Start or Stop, so those of different agents may overlap |
| `KubernetesProvider.KubernetesRuntimeProvider.CreateOrUpdateSecret` | internal/sandbox/kubernetes_provider.go:389-411 | leaves the secret created or overwritten, or as it was with an error, if some call failed |
| `KubernetesProvider.KubernetesRuntimeProvider.CreateOrUpdateClaim` | internal/sandbox/kubernetes_provider.go:413-429 | likewise; of an existing claim only the labels change |
| `KubernetesProvider.KubernetesRuntimeProvider.CreateOrUpdatePolicy` | internal/sandbox/kubernetes_provider.go:431-451 | likewise for the policy, and nothing without one |
| `KubernetesProvider.KubernetesRuntimeProvider.CreateOrUpdatePod` | internal/sandbox/kubernetes_provider.go:453-469 | likewise; of an existing pod only the labels change, and the pod is written only after what it needs |
| `KubernetesProvider.KubernetesRuntimeProvider.DeleteIgnoreNotFound` | internal/sandbox/kubernetes_provider.go:357-364 | without error the object is gone, whether it was there or not |
| `KubernetesProvider.KubernetesRuntimeProvider.BuildPolicy` | internal/sandbox/networkpolicy.go:73-119 | an error exactly when policies are enforced and a non-blank CIDR is malformed; otherwise the policy specified, whose selector and rules are told by `KubernetesProvider.StartGuardsOwnPod` and `Sandboxes.PolicyIsAsConfigured` |
| `KubernetesProvider.KubernetesRuntimeProvider.Start` | internal/sandbox/kubernetes_provider.go:87-176 | at every write the order holds and only this agent's objects change; a rejected Start writes nothing; one that is not, asks for no model secret and is answered truthfully succeeds when the pod becomes ready; a successful one leaves the objects specified, with the pod under its policy; nothing is ever removed |
| `KubernetesProvider.StartGuardsOwnPod` | internal/sandbox/networkpolicy.go:73-84 | for ids of the store, with policies enforced and whatever was there before: the policy a Start leaves selects the pod it leaves, and no pod that a Start leaves for another agent |
| `Sandboxes.PolicyIsAsConfigured` | internal/sandbox/networkpolicy.go:86-115 | the policy has the two allowances configured and the configured rules, trimmed, in order and without the blank ones; none is written when policies are not enforced |
| `Sandboxes.PodIsAsAsked` | internal/sandbox/podspec.go:118-127 | the pod has the labels of its agent, runtime, sandbox and owner; a new one runs its runtime's configured image and is told its owner and the gateway, and of one that was there what it runs is kept |
| `Sandboxes.SecretIsToken` | internal/sandbox/secrets.go:29-56 | the secret holds exactly the trimmed token |
| `Sandboxes.WorkspaceIsKept` | internal/sandbox/k8s_resources.go:12-36 | a new workspace has the class and size configured, or 10Gi; one that was there is kept |
| `Sandboxes.ObjectsAreNamed` | internal/sandbox/kubernetes_provider.go:336-339 | every object is named after its agent and carries its label |
| `Sandboxes.RejectedIff` | internal/sandbox/kubernetes_provider.go:87-117 | a Start is refused at once if and only if the agent id or the token is blank, the runtime is unknown or has no image, the workspace size is malformed, or policies are enforced and a rule that is not blank has a malformed CIDR |
| `Sandboxes.StopKeepsWorkspaceIff` | internal/sandbox/kubernetes_provider.go:340-353 | a complete Stop leaves nothing of the agent but the workspace, and that if and only if the configuration does not say `delete`, in letters of either case |
| `KubernetesProvider.KubernetesRuntimeProvider.Stop` | internal/sandbox/kubernetes_provider.go:328-364 | at every write the order holds; one Stop whose calls are answered truthfully succeeds and clears whatever is left of the agent, but for the claim under retain |

## Left out

- HTTP routing, JSON, cookies, metrics, logging, static files and the user interface: no state of interest.
- The Postgres store: what SQL does is not visible in the code. Nothing proved of `Memory` is claimed of it.
- Encryption, password hashing, token verification, YAML and template parsing: library code, arbitrary functions here.
- Timestamps, and the errors every store method returns for a cancelled context before it does anything.
- Random ids: `newID` gives an id that no record has, or fails.
- A cluster whose pods lack what they need from the start: the provider is taken to begin with one in order.
- What an adapter makes of a task's text: in `ChatSystem` the outcome of a task is arbitrary.
- Models, gateway settings, app settings, sorted identity lists and agent state strings: they would add easy members only.
- Programs other than shclop's runtime at the other end of a connection, in `ChatSystem`; the gateway's own theorems allow for any.
- The `runtime.accepted` message: a runtime that reads a task before it exits, and is then one that makes no further move.
- The writer mutex of a runtime connection, and the connection that `Register` closes: a write succeeds or fails arbitrarily.
- Writing to the child's stdin and its termination on cancellation: reads return arbitrary bytes and errors.
- Overlapping rebuilds of the merged registry: rebuilds are taken to be serialised, as two that overlap may commit out of order.
- The merged registry's own subscribers, the debounce of the file watcher, tickers and the informer.
- Readiness polling: whether the pod becomes ready in time is given; it only reads.
- An API server that deletes late (finalizers, grace periods): a delete takes effect within its call.
- Agent ids with spaces around them: Start uses them untrimmed in names that Kubernetes does not accept; the ordering invariant speaks of trimmed ids.
- The system prompt's full text: its first sentence stands for it.
- The further fields of pods, claims and policies: the image, owner and gateway, the size, and the selector and rules stand for them.
- SnapshotText.Sort: an insertion sort stands for the library's, and of it only a sorted permutation is promised.
- FileRegistry.FileRegistry.Scan: asks for directory entries with distinct names, which an operating system gives.
- DbRegistry.SkippingIsSound, DbRegistry.SkipIsRightIffNothingNew: ask for a hash without collisions.
- MergedRegistry.MergedRegistry.Rebuild: the order in which shadowings are logged is not stated, as map iteration has none.
- How a markdown viewer treats code fences beyond this: a line that begins with three backticks opens a block or closes one.
