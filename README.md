# Sumo Logic NLog target and flushing buffer, in Dafny

This project models two parts of the Sumo Logic .NET log appenders:

- **The NLog target** (`SumoLogicTarget`).
  - Its configuration properties are held as layouts: `Url`, `SourceName`, `SourceCategory` and `SourceHost`. Each setter stores a null as the empty string. The getters fail on a null layout.
  - `InitializeTarget` creates the message sender on first use. It then passes the connection timeout and the rendered URL to the sender. An empty or null URL leaves the sender without one, so it cannot send.
  - `Write` throws on a null event. It drops the entry when no sender is ready. Otherwise it renders the body and the three source headers. It appends the platform newline unless the body is at least as long as the newline and already ends in the newline's last character. Then it makes exactly one send attempt.
  - `CloseTarget` disposes the sender and forgets it.
- **The cost-bounded FIFO buffer and its flushing task**, as the buffer-flushing tests use them.
  - `BufferWithFifoEviction<T>` appends each item. It then evicts from the head while the total cost (here, the string's C# `Length`: its UTF-16 code units) exceeds the capacity.
  - The flushing task's `Run` checks the size trigger (at least `messagesPerRequest` items queued) and the time trigger. A `MaxValue` interval never fires the time trigger. When a trigger fires, `Run` drains the whole queue into one batch. It records the batch in `SentOut` if the batch is non-empty, and records the flush time.

Files:

- `wrappers.dfy`: `Option` and `Result`.
- `sender.dfy`: the part of the message sender that the target relies on.
- `target.dfy`: the target.
- `queue.dfy`: the buffer, its eviction function and the flushing task.
- `queue_tests.dfy` and `target_tests.dfy`: the test scenarios as verified methods.
- `target_scenarios.dfy`: further scenarios derived from the target's code (null event, newline, write after close, null URL).

Modelling choices:

- NLog's layout engine is a function value, `render(template, event)`, supplied to the target. It may return `None`, which stands for a C# null.
- The platform's `Environment.NewLine` is a non-empty string supplied to the target.
- The sender's outgoing HTTP traffic is its `requests` sequence. Each send attempt appends one `Request`: the body and the three headers.
- The clock is the `now` argument of `Run`, in milliseconds.

## Model

| member | source | states |
|---|---|---|
| SumoLogicNLog.OrEmpty | SumoLogic.Logging.NLog/SumoLogicTarget.cs:74 | a null string reads as the empty string; any other string is kept as it is |
| SumoLogicNLog.IsTerminated | SumoLogic.Logging.NLog/SumoLogicTarget.cs:228 | the body is at least as long as the newline and ends in its last character, the negation of Write's append condition (no contract; a definition, used by Terminate's contract) |
| SumoLogicNLog.Terminate | SumoLogic.Logging.NLog/SumoLogicTarget.cs:228-231 | the result always ends in the newline's last character and is at least as long as the newline; the body is kept exactly when it already ends that way, and otherwise the result is the body followed by the newline |
| SumoLogicNLog.TerminateIdempotent | SumoLogic.Logging.NLog/SumoLogicTarget.cs:228-231 | normalising an already normalised body changes nothing, so no body gets a second newline |
| SumoLogicNLog.TerminateExtends | SumoLogic.Logging.NLog/SumoLogicTarget.cs:228-231 | the sent body starts with the rendered body and is at most one newline longer |
| SumoLogicNLog.NullBodyIsNewLine | SumoLogic.Logging.NLog/SumoLogicTarget.cs:227-231 | a body that renders as null is sent as the newline alone |
| SumoLogicNLog.SenderUrl | SumoLogic.Logging.NLog/SumoLogicTarget.cs:198-201 | the sender gets no URL exactly when the rendered URL is null or empty; otherwise it gets the rendered text |
| SumoLogicNLog.SumoLogicTarget.constructor | SumoLogic.Logging.NLog/SumoLogicTarget.cs:56-64 | the defaults: source name "Nlog-SumoObject", a 60000 ms timeout, the default layout, no sender yet |
| SumoLogicNLog.SumoLogicTarget.LayoutText | SumoLogic.Logging.NLog/SumoLogicTarget.cs:73 | reading a property whose layout is null fails with a null reference; otherwise it yields the layout's text |
| SumoLogicNLog.SumoLogicTarget.Url | SumoLogic.Logging.NLog/SumoLogicTarget.cs:73 | reads the URL layout's text through LayoutText (no contract; the setters' contracts state the read-back) |
| SumoLogicNLog.SumoLogicTarget.SourceName | SumoLogic.Logging.NLog/SumoLogicTarget.cs:83 | reads the source-name layout's text through LayoutText (no contract) |
| SumoLogicNLog.SumoLogicTarget.SourceCategory | SumoLogic.Logging.NLog/SumoLogicTarget.cs:93 | reads the category layout's text through LayoutText (no contract) |
| SumoLogicNLog.SumoLogicTarget.SourceHost | SumoLogic.Logging.NLog/SumoLogicTarget.cs:103 | reads the host layout's text through LayoutText (no contract) |
| SumoLogicNLog.SumoLogicTarget.RenderOrEmpty | SumoLogic.Logging.NLog/SumoLogicTarget.cs:224-227 | a layout rendered against an event, with a null layout or a null rendering read as "" (no contract; a definition) |
| SumoLogicNLog.SumoLogicTarget.RenderedUrl | SumoLogic.Logging.NLog/SumoLogicTarget.cs:198 | the URL layout rendered against the null event, null when the layout is null (no contract; SenderUrl and InitializeTarget state its use) |
| SumoLogicNLog.SumoLogicTarget.RequestFor | SumoLogic.Logging.NLog/SumoLogicTarget.cs:224-235 | the request a ready Write sends: the normalised body and the three rendered headers (no contract; Write and RequestBodyIsTerminated state it) |
| SumoLogicNLog.SumoLogicTarget.Ready | SumoLogic.Logging.NLog/SumoLogicTarget.cs:215 | Write's send condition: a sender exists and it can try to send (no contract; InitializeTarget states when it holds) |
| SumoLogicNLog.SumoLogicTarget.SetUrl | SumoLogic.Logging.NLog/SumoLogicTarget.cs:71-75 | after setting, the URL layout holds the value, or the empty string for null, and reading `Url` gives that text back |
| SumoLogicNLog.SumoLogicTarget.SetSourceName | SumoLogic.Logging.NLog/SumoLogicTarget.cs:81-85 | after setting, the source-name layout holds the value, or "" for null, and reading it gives that text back |
| SumoLogicNLog.SumoLogicTarget.SetSourceCategory | SumoLogic.Logging.NLog/SumoLogicTarget.cs:91-95 | after setting, the category layout holds the value, or "" for null, and reading it gives that text back |
| SumoLogicNLog.SumoLogicTarget.SetSourceHost | SumoLogic.Logging.NLog/SumoLogicTarget.cs:101-105 | after setting, the host layout holds the value, or "" for null, and reading it gives that text back |
| SumoLogicNLog.SumoLogicTarget.InitializeTarget | SumoLogic.Logging.NLog/SumoLogicTarget.cs:180-202 | an existing sender is reused with its history; otherwise a fresh "sumo-nlog-sender" is created; the sender gets the target's timeout and the mapped URL; the target is ready exactly when the rendered URL is non-null, non-empty and the sender is not disposed |
| SumoLogicNLog.SumoLogicTarget.Write | SumoLogic.Logging.NLog/SumoLogicTarget.cs:208-238 | a null event is rejected with ArgumentNull("logEvent"); when not ready the entry is dropped and nothing is sent; when ready exactly one request is appended, with the normalised body and the three rendered headers; the sender's URL, disposal and timeout are unchanged |
| SumoLogicNLog.SumoLogicTarget.CloseTarget | SumoLogic.Logging.NLog/SumoLogicTarget.cs:246-254 | afterwards there is no sender and the target is not ready; a previous sender is disposed and keeps what it received, its URL and its timeout |
| SumoLogicNLog.SumoLogicTarget.RequestBodyIsTerminated | SumoLogic.Logging.NLog/SumoLogicTarget.cs:224-231 | every request a ready Write makes carries a normalised body that starts with the rendered body |
| SumoLogicSender.SumoLogicMessageSender.CanTrySend | SumoLogic.Logging.NLog/SumoLogicTarget.cs:215 | the sender's readiness: a URL is set and the sender is not disposed (no contract; a definition) |
| SumoLogicSender.SumoLogicMessageSender.constructor | SumoLogic.Logging.NLog/SumoLogicTarget.cs:195 | a new sender has no URL, is not disposed and has received nothing; its timeout is left open, since InitializeTarget sets it before any send |
| SumoLogicSender.SumoLogicMessageSender.TrySend | SumoLogic.Logging.NLog/SumoLogicTarget.cs:234-237 | one send attempt appends exactly one request |
| SumoLogicSender.SumoLogicMessageSender.Dispose | SumoLogic.Logging.NLog/SumoLogicTarget.cs:251 | a disposed sender can no longer try to send |
| SumoLogicQueue.TotalCost | SumoLogic.Logging.Common.Tests/Queue/BufferFlushingTaskTest.cs:48 | the buffer's occupancy: the sum of the cost assigner over the queued items (no contract; its additivity and monotonicity are the lemmas below) |
| SumoLogicQueue.StringLengthCost | SumoLogic.Logging.Common.Tests/Queue/BufferFlushingTaskTest.cs:48 | StringLengthCostAssigner: a string costs its UTF-16 length, never less than its number of characters |
| SumoLogicQueue.StringLengthCostInBmp | SumoLogic.Logging.Common.Tests/Queue/BufferFlushingTaskTest.cs:48 | a string costs exactly its number of characters if and only if every character lies in the Basic Multilingual Plane |
| SumoLogicQueue.StringLengthCostBound | SumoLogic.Logging.Common.Tests/Queue/BufferFlushingTaskTest.cs:48 | a string costs at most two code units per character |
| SumoLogicQueue.EvictOldest | SumoLogic.Logging.Common.Tests/Queue/BufferFlushingTaskTest.cs:92-100 | the buffer's eviction rule: drop the head item while the queue's cost exceeds the capacity (no contract; what it keeps is stated by EvictOldestFits, EvictOldestIsLongest and the lemmas after them) |
| SumoLogicQueue.TotalCostAppend | SumoLogic.Logging.Common.Tests/Queue/BufferFlushingTaskTest.cs:92-97 | the cost of a concatenation is the sum of the costs, which is what keeps the buffer's running size exact |
| SumoLogicQueue.EvictOldestFits | SumoLogic.Logging.Common.Tests/Queue/BufferFlushingTaskTest.cs:92-100 | eviction keeps a suffix of the queue (the newest items, in arrival order) whose total cost fits the capacity |
| SumoLogicQueue.EvictOldestIsLongest | SumoLogic.Logging.Common.Tests/Queue/BufferFlushingTaskTest.cs:92-100 | eviction drops no more than it must: every longer suffix is over capacity |
| SumoLogicQueue.EvictOldestKeepsFitting | SumoLogic.Logging.Common.Tests/Queue/BufferFlushingTaskTest.cs:48-59 | nothing is evicted while everything fits |
| SumoLogicQueue.TotalCostSuffixMonotone | SumoLogic.Logging.Common.Tests/Queue/BufferFlushingTaskTest.cs:92-97 | dropping items from the head never raises the cost |
| SumoLogicQueue.KeepsNewestArrival | SumoLogic.Logging.Common.Tests/Queue/BufferFlushingTaskTest.cs:92-100 | an arrival that fits the capacity on its own is never evicted: it is the newest item afterwards |
| SumoLogicQueue.OversizedArrivalEmpties | SumoLogic.Logging.Common.Tests/Queue/BufferFlushingTaskTest.cs:92-97 | an arrival costlier than the whole capacity empties the buffer |
| SumoLogicQueue.AddAll | SumoLogic.Logging.Common.Tests/Queue/BufferFlushingTaskTest.cs:77-80 | a run of `Add` calls: each item is appended and the result evicted, one at a time (no contract; a definition, the reference the AddAll lemmas are about) |
| SumoLogicQueue.AddAllWithinCapacityLosesNothing | SumoLogic.Logging.Common.Tests/Queue/BufferFlushingTaskTest.cs:74-82 | a run of adds whose total cost fits loses nothing and keeps arrival order |
| SumoLogicQueue.AddAllKeepsNewestArrivals | SumoLogic.Logging.Common.Tests/Queue/BufferFlushingTaskTest.cs:92-100 | after any run of adds the buffer holds the newest arrivals in arrival order, within capacity |
| SumoLogicQueue.EvictOldestAppend | SumoLogic.Logging.Common.Tests/Queue/BufferFlushingTaskTest.cs:94-97 | adding an item to what eviction left of a history gives the same queue as evicting the whole history with the item appended |
| SumoLogicQueue.AddAllIsEvictOldest | SumoLogic.Logging.Common.Tests/Queue/BufferFlushingTaskTest.cs:94-97 | a run of adds from what eviction left of a history ends exactly where evicting the history followed by all arrivals ends |
| SumoLogicQueue.AddAllKeepsLongestFittingSuffix | SumoLogic.Logging.Common.Tests/Queue/BufferFlushingTaskTest.cs:92-100 | from an empty buffer, a run of adds keeps the longest suffix of all arrivals that fits: in arrival order, within capacity, and every longer suffix is over capacity |
| SumoLogicQueue.BufferWithFifoEviction.constructor | SumoLogic.Logging.Common.Tests/Queue/BufferFlushingTaskTest.cs:48 | a new buffer is empty, with the given capacity and cost assigner |
| SumoLogicQueue.BufferWithFifoEviction.Add | SumoLogic.Logging.Common.Tests/Queue/BufferFlushingTaskTest.cs:92-97 | the new queue is the old queue plus the item, with the oldest items evicted until it fits; the item is simply appended exactly when it fits; the size stays the total cost and within capacity |
| SumoLogicQueue.BufferWithFifoEviction.DrainTo | SumoLogic.Logging.Common.Tests/Queue/BufferFlushingTaskTest.cs:77-82 | returns every queued item in arrival order and leaves the buffer empty |
| SumoLogicQueue.DummyBufferFlushingTask.constructor | SumoLogic.Logging.Common.Tests/Queue/BufferFlushingTaskTest.cs:49 | a new task has sent nothing and starts its interval at `now` |
| SumoLogicQueue.BufferWithFifoEviction.Count | SumoLogic.Logging.Common.Tests/Queue/BufferFlushingTaskTest.cs:56-61 | the number of queued items, which the size trigger reads (no contract; a definition) |
| SumoLogicQueue.DummyBufferFlushingTask.SizeTrigger | SumoLogic.Logging.Common.Tests/Queue/BufferFlushingTaskTest.cs:56-61 | the size trigger: at least messagesPerRequest items are queued (no contract; a definition) |
| SumoLogicQueue.DummyBufferFlushingTask.TimeTrigger | SumoLogic.Logging.Common.Tests/Queue/BufferFlushingTaskTest.cs:49 | the time trigger: a finite interval has elapsed since the last flush; `MaxValue` never elapses (no contract; a definition) |
| SumoLogicQueue.DummyBufferFlushingTask.NeedsFlushing | SumoLogic.Logging.Common.Tests/Queue/BufferFlushingTaskTest.cs:51-61 | a flush starts when either trigger fires (no contract; Run's contract and MaxIntervalOnlySizeTriggers state its use) |
| SumoLogicQueue.DummyBufferFlushingTask.MaxIntervalOnlySizeTriggers | SumoLogic.Logging.Common.Tests/Queue/BufferFlushingTaskTest.cs:49-57 | with a `MaxValue` interval a flush happens exactly when enough messages are queued |
| SumoLogicQueue.DummyBufferFlushingTask.Run | SumoLogic.Logging.Common.Tests/Queue/BufferFlushingTaskTest.cs:51-61 | when a trigger fires, the whole queue leaves as one batch, which is recorded if non-empty, and the flush time is now; otherwise queue, size, batches and flush time are unchanged |
| BufferFlushingTaskTest.FlushBySizeTest | SumoLogic.Logging.Common.Tests/Queue/BufferFlushingTaskTest.cs:46-65 | no batch before any item or with two items; the third item makes one batch ["msg1","msg2","msg3"] |
| BufferFlushingTaskTest.FlushWithNPlusOneElementsTest | SumoLogic.Logging.Common.Tests/Queue/BufferFlushingTaskTest.cs:72-83 | four items against a limit of three leave as one batch of all four |
| BufferFlushingTaskTest.MessageCosts | SumoLogic.Logging.Common.Tests/Queue/BufferFlushingTaskTest.cs:92-97 | each test message costs 4 |
| BufferFlushingTaskTest.SupplementaryCharacterCostsTwo | SumoLogic.Logging.Common.Tests/Queue/BufferFlushingTaskTest.cs:48 | a character outside the Basic Multilingual Plane costs 2, so three of them and "abc" exceed capacity 8 and the first item is evicted |
| BufferFlushingTaskTest.AddFitting | SumoLogic.Logging.Common.Tests/Queue/BufferFlushingTaskTest.cs:54-55 | adding a four-unit message that fits appends it and grows the size by 4 |
| BufferFlushingTaskTest.FourthMessageEvictsFirst | SumoLogic.Logging.Common.Tests/Queue/BufferFlushingTaskTest.cs:92-97 | with capacity 12 the first three messages fit exactly and a fourth evicts exactly "msg1" |
| BufferFlushingTaskTest.FlushWhenBufferCapacityIsSmallTest | SumoLogic.Logging.Common.Tests/Queue/BufferFlushingTaskTest.cs:90-101 | with capacity 12 the flush sends ["msg2","msg3","msg4"] |
| SumoLogicTargetTest.NewTestTarget | SumoLogic.Logging.NLog.Tests/SumoLogicTargetTest.cs:59-80 | the test fixture's configured and initialised target is ready and its sender has received nothing |
| SumoLogicTargetTest.TestTargetRequest | SumoLogic.Logging.NLog.Tests/SumoLogicTargetTest.cs:64-67 | under the test configuration every event yields level, ": ", message and one newline, with the fixture's name and category and the machine name as host |
| SumoLogicTargetTest.Log | SumoLogic.Logging.NLog.Tests/SumoLogicTargetTest.cs:128 | one log call on the configured target appends its request and keeps the target ready |
| SumoLogicTargetTest.SingleMessageTest | SumoLogic.Logging.NLog.Tests/SumoLogicTargetTest.cs:86-91 | one call makes exactly one request, "INFO: This is a message" plus newline, with the machine name as host |
| SumoLogicTargetTest.CheckedRequestContentTest | SumoLogic.Logging.NLog.Tests/SumoLogicTargetTest.cs:126-138 | five calls make five requests whose bodies are the five rendered lines in call order |
| SumoLogicTargetScenarios.NullEventRejected | SumoLogic.Logging.NLog/SumoLogicTarget.cs:210-213 | a null event is rejected with ArgumentNull("logEvent") and nothing is sent |
| SumoLogicTargetScenarios.UnterminatedBodyGetsNewLine | SumoLogic.Logging.NLog/SumoLogicTarget.cs:228-231 | a rendered body without a newline is sent with one appended |
| SumoLogicTargetScenarios.WriteAfterCloseDropped | SumoLogic.Logging.NLog/SumoLogicTarget.cs:246-254 | after closing, a write is dropped and the old sender keeps only the earlier request |
| SumoLogicTargetScenarios.NullUrlDisablesSending | SumoLogic.Logging.NLog/SumoLogicTarget.cs:198-201 | a null URL reads back as "", makes the sender's URL absent, and the next write is dropped |
| SumoLogicTargetScenarios.WindowsNewLineLastCharacter | SumoLogic.Logging.NLog/SumoLogicTarget.cs:228-231 | with "\r\n" as the newline, "\n" is shorter than the newline and gets one appended, while "x\n" is kept because only the last character is compared |

## Left out

- The implementation files of BufferWithFifoEviction, BufferFlushingTask, StringLengthCostAssigner and SumoLogicMessageSender are not part of this model. The buffer and the flushing task are modelled in `queue.dfy` from what BufferFlushingTaskTest.cs asserts about them, and the sender from what SumoLogicTarget.cs uses of it.
- A C# string may hold an unpaired UTF-16 surrogate, but a Dafny `char` is a Unicode scalar value, so such strings are not modelled. `StringLengthCost` counts a character outside the Basic Multilingual Plane as the two code units of its surrogate pair.
- The buffer follows one rule: append, then evict from the head while the total cost exceeds the capacity. A single item costlier than the whole capacity therefore empties the buffer (`OversizedArrivalEmpties`). Keeping it would break `size <= capacity`, so the model does not keep it.
- The message sender is reduced to what the target observes:
  - `CanTrySend` holds when a URL is set and the sender is not disposed;
  - HTTP delivery, the retry loop, TrySend's success or failure, and the `HttpMessageHandler` are not modelled;
  - a send attempt is one appended `Request`.
- NLog's layout engine is a parameter function. Rendering details, level filtering (the `NoLogOnTheLevelTraceTest` case) and `MultipleMessagesTest`'s logging rules belong to NLog, not to the target.
- The InternalLogger debug and warning messages are not modelled. Neither are `UseConsoleLog`/`ActivateConsoleLog` or `OptimizeBufferReuse`. The observable result of a dropped entry is the `Dropped` outcome.
- The obsolete `AppendException` property has no effect in the target and is not modelled.
- Setting `Layout` is a plain field update on the model's `layout`, which is inherited from NLog's TargetWithLayout.
- `new Uri(url)` may throw on a malformed URL. The model accepts any non-empty text as a URI.
- `InitializeTarget` is modelled as a method that the configuration reload calls. NLog's lifecycle, `base.CloseTarget()` and the test class's `Dispose` are not modelled.
- The connection timeout is a whole number of milliseconds. The conversion through `TimeSpan.FromMilliseconds` and the 64-bit range of `long` are not modelled.
- The flushing task's timer, polling accuracy, async execution, cancellation and thread safety are not modelled. The clock is the `now` argument of `Run`.
- Draining at most `messagesPerRequest` items per flush is not modelled; BufferFlushingTaskTest.cs:77-82 shows the whole queue leaving as one batch.
- The connection defaults of SumoLogicConnection belong to the Serilog appender and are not modelled.
- SumoLogicQueue.BufferWithFifoEviction.Add: arrival order across batches is not stated as an invariant of the object, because there is no log of arrivals. The lemmas `AddAllKeepsNewestArrivals`, `AddAllWithinCapacityLosesNothing`, `AddAllIsEvictOldest` and `AddAllKeepsLongestFittingSuffix` state it about any run of adds.
- SumoLogicTargetTest.CheckedRequestContentTest: states the bodies as the test layout's rendered lines (`Line(level, message)`) rather than as literal strings. `SingleMessageTest` shows that such a line equals the literal text.
