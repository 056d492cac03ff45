# A verified model of the tokio-jsonrpc endpoint

tokio-jsonrpc is a JSON-RPC 2.0 endpoint for tokio: one connection on which both sides
may call, notify and answer. This project models its hard parts in Dafny and proves what
they promise.

| file | what it models |
|---|---|
| `Json.dfy`, `Message.dfy` | the messages, the ordered untagged classification of JSON values, the serializer (src/message.rs) |
| `WireForms.dfy` | which JSON is which message and what messages are written as, key by key |
| `JsonText.dfy`, `JsonUnique.dfy` | compact JSON text as bytes, and that it is uniquely readable |
| `WireText.dfy` | the text of JSON values against RFC 8259 and RFC 3629, and of messages |
| `Codec.dfy` | the line codec with its cached scan position (src/codec.rs) |
| `Life.dfy`, `LifeRuns.dfy` | the connection's life cycle as a state machine: control, reference count, id map, calls, outbound queue (src/endpoint.rs) |
| `CallLaws.dfy` | what a call or notification puts on the wire, what a call ends with, what the id map holds |
| `Connection.dfy` | the objects of that life cycle with the methods that update them; each method is one step of `Life` |
| `Futures.dfy`, `Dispatch.dfy` | `do_msg` and `do_batch`: futures, streams of futures, batch channels, and the specified replies |
| `StopOrder.dfy` | the order of effects of one message, and what a stop in the middle of a batch leaves |
| `Callbacks.dfy` | what callbacks do, read off the log of a dispatch |
| `Work.dfy` | how many futures a message makes and how much room its channels need, exactly |
| `Protocol.dfy` | the specified replies against sections 4.1, 5 and 6 of the JSON-RPC 2.0 specification, stopped midway or not |
| `Canon.dfy` | equality of replies up to the order inside batches |
| `Executor.dfy`, `ExecutorRuns.dfy` | the flattened, `buffer_unordered` pipeline under every schedule |
| `Merge.dfy` | two streams merged into one, each in its order |
| `Endpoint.dfy` | executor and life cycle joined as `Endpoint::start` joins them; graceful shutdown |
| `Taking.dfy` | what taking one message does to the connection: responses delivered, callbacks acting |
| `Endings.dfy` | how a connection ends and what it tells |
| `EndToEnd.dfy` | endpoint runs as runs of the parts, and the wire read by the other side's codec |
| `AfterInput.dfy` | what becomes of calls once the input is over |
| `Shutdown.dfy` | shutting down under every schedule |
| `Asking.dfy`, `Answering.dfy`, `Pair.dfy`, `Exchange.dfy` | two endpoints joined: whose answer a call gets, and that it gets it |

A run of the life cycle, the executor, the codec or the endpoint is any sequence of
events; an event that the program could not perform in a state leaves the state alone, so
a statement about all sequences is one about all interleavings.

Results that differ from what the documentation or the comments of the crate suggest:

- `ServerCtl::client` is documented to fail once the connection is lost
  (src/endpoint.rs:129-130). After a sink error it still succeeds
  (`LifeRuns.ClientAfterSinkError`); `LifeRuns.ControlHistory` says exactly when it fails.
- The end of the input does not end the waiting of every call: one sent afterwards by a
  client that is still held waits although no answer can arrive any more
  (`AfterInput.CallAfterEndOfInput`, `AfterInput.NoAnswerAfterEnd`);
  `AfterInput.WaitsUntilEnded` says exactly how long.
- An empty batch is not answered (`Protocol.EmptyBatchUnanswered`), where the examples of
  the JSON-RPC 2.0 specification show an "Invalid Request" error.
- `Endpoint::parallel` accepts 0, with which nothing is ever processed
  (`ExecutorRuns.NothingWithoutSlots`); `ExecutorRuns.WorksExactlyWithSlots` says that
  one slot is exactly what it takes.

What is assumed of the libraries: admission by `buffer_unordered` is first in first out;
a bounded channel holds exactly its capacity and its receiver ends when no sender is alive
and it is empty; a oneshot delivers one value and is cut when its sender is dropped; a
server's future resolves without waiting for inbound messages; UUIDs are fresh; serde's
derived readers accept an object with exactly the known fields or an array of all fields
in order; serde_json reads back the compact text it wrote for a message, which it does for
values nested less than its recursion limit of 128 (the codec's round trips ask this of
the reader for the messages sent, and of no others).

## Model

| member | source | states |
|---|---|---|
| WireForms.RequestForm | src/message.rs:48-58 | which JSON is which request, in both directions: an object with exactly the keys "jsonrpc" ("2.0"), "method", "id" and perhaps "params", none twice, or the array of the four; null params are none |
| WireForms.ResponseForm | src/message.rs:143-198 | which JSON is which response: exactly one of "result", which may be null, and "error", null being none; as an array only with a result, and not if it is a request |
| WireForms.NotificationForm | src/message.rs:201-207 | which JSON is which notification |
| WireForms.OtherForms | src/message.rs:224-247 | every other array is the batch of what its elements are, and other JSON is an error at the top and kept as unmatched inside |
| WireForms.WrittenRequest | src/message.rs:48-58 | the exact object written for a request, absent params omitted |
| WireForms.WrittenNotification | src/message.rs:201-207 | the exact object written for a notification |
| WireForms.WrittenResponse | src/message.rs:143-154 | the exact object written for a response, with a result or an error, absent data omitted |
| WireForms.WrittenBatch | src/message.rs:224-247 | a batch is written as the array of what its members are written as, exactly if each can be |
| Message.RoundTrip | src/message.rs:143-247 | serialization succeeds exactly if no `UnmatchedSub` occurs at any depth, and then classifying the result gives the message back with null params and error data made absent |
| Message.Reparse | src/message.rs:313-329 | parsing, serializing and parsing again is parsing once, for every JSON value that parses with no unmatched part |
| Message.ObjectFormsExclude | src/message.rs:224-247 | on objects the request, response and notification forms exclude each other, so the order of the untagged match does not matter |
| Message.ErrorRoundTrip | src/message.rs:82-90 | an error object is read back with null data made absent |
| JsonText.PrintHasNoNewline | src/codec.rs:37-44 | the compact text of any JSON value contains no newline, which the line codec rests on |
| JsonUnique.PrintUnique | src/codec.rs:37-44 | no compact text is another value's, nor followed by a non-digit a prefix of one: the text is uniquely readable |
| WireText.LiteralTexts | src/codec.rs:37-44 | null, true and false are their names |
| WireText.ObjectText | src/codec.rs:37-44 | the text of an object: its fields' texts with commas between them, in braces, no white space |
| WireText.ArrayText | src/codec.rs:37-44 | the text of an array |
| WireText.NumberText | src/codec.rs:37-44 | a number's text denotes it in decimal, with a minus sign if negative and no leading zero |
| WireText.StringText | src/codec.rs:37-44 | a string's text is its escaped characters between quotes |
| WireText.EscapeTable | src/codec.rs:37-44 | the two-character escapes of section 7 of RFC 8259, every other character from the space on as it is |
| WireText.OtherControls | src/codec.rs:37-44 | the other control characters as \u00 and two hexadecimal digits |
| WireText.Utf8Form | src/codec.rs:37-44 | characters are UTF-8: length by range, lead and continuation bytes, and the code point they carry |
| WireText.RequestText | src/codec.rs:37-44 | the text of a request on the wire |
| Codec.IncrementalIsSplit | src/codec.rs:46-67 | however the bytes are cut into chunks and decode calls are interleaved, lines so far and buffer split like everything that arrived; once decode finds nothing the lines are all lines |
| Codec.SplitIsUnique | src/codec.rs:46-67 | that plain split is the only way to read the bytes as newline-free lines and a rest |
| Codec.NothingFoundMeansExhausted | src/codec.rs:55-66 | decode gives a line exactly if the buffer holds a newline |
| Codec.ScannedOnce | src/codec.rs:53-66 | bytes looked at are bytes consumed plus the cached position, so scanning is linear under any chunking |
| Codec.EncodedIsJoined | src/codec.rs:37-44 | encoding appends one newline-free line per serializable message and nothing else |
| Codec.StreamRoundTrip | src/codec.rs:37-67 | encoding messages one after another and decoding the bytes in any chunks, with a reader that reads the texts of these messages back, gives exactly the serializable ones, normalized and in order, and an empty buffer |
| Codec.DecodeStepTakes | src/codec.rs:53-66 | a decode call takes off exactly the bytes up to the first line feed from the position on and scans from the start again, or remembers the end exactly if there is none |
| Codec.FromSliceIs | src/message.rs:305-329 | a line that is no JSON is a syntax error, any other is parsed |
| Codec.Line.Decode | src/codec.rs:46-67 | the scanning loop makes the specified decode step on position and buffer and looks at the specified number of bytes |
| Codec.Line.Encode | src/codec.rs:37-44 | appends the text and the byte 0x0A, or fails and leaves the buffer alone, failing exactly for unserializable messages |
| Life.StepKeeps | src/endpoint.rs:94-147 | every event keeps the invariant tying counts, control, id map, calls and queue together |
| Life.ReferenceCount | src/endpoint.rs:42-49 | in every reachable state the terminator's count is the clients, those inside sends, the unresolved call futures and the control; it has fired exactly if it is zero, and once |
| Life.FiredMeansAlone | src/endpoint.rs:94-114 | once it fired no client, unfinished send, unresolved call or sender of the outbound queue exists |
| Life.ZeroAbsorbs | src/endpoint.rs:42-49 | no events revive a connection whose terminator fired, nor fire it again |
| Life.OutcomeIsFinal | src/endpoint.rs:403-468 | a call keeps its id and its one outcome for ever, a dropped one gets none, and one that does not wait never waits again |
| Life.AnswerCarriesId | src/endpoint.rs:302-316 | in every run an answer a call holds or resolved with carries that call's id |
| Life.ResponseReachesOne | src/endpoint.rs:302-316 | a response reaches a call exactly if the call waits and the ids are equal, and no other call has that id |
| Life.LateResponseReachesNobody | src/endpoint.rs:427-454 | a response for a call that timed out, was answered, cut or dropped changes no call |
| Life.WaitsExactlyUntil | src/endpoint.rs:302-468 | which events end the waiting of a call, in both directions |
| Life.NoHangingCall | src/endpoint.rs:668-694 | in every run a waiting call is in the id map under its id, and after the transmit end no call that was handed out waits |
| CallLaws.CallSends | src/endpoint.rs:403-468 | a call by a free client: its record and map entry, and once sent, with room for fewer than 32 queued, the request with exactly its name, params and id at the end of the queue and the client back |
| CallLaws.NotificationSends | src/endpoint.rs:473-481 | likewise for a notification |
| CallLaws.WhatGoesOut | src/endpoint.rs:403-481 | in every run whatever goes out is, name, params and id, what somebody called or notified, and every call is one somebody made, with its timeout |
| CallLaws.ResolvedExactly | src/endpoint.rs:417-452 | in every run a call ends timed out exactly by its own timeout, answered exactly by a poll that finds this answer, lost exactly by a poll that finds its oneshot cut |
| CallLaws.Fills | src/endpoint.rs:302-316 | a waiting call gets an answer exactly by a response with its id, and is cut exactly when the map is cleared |
| CallLaws.StaysUntilPolled | src/endpoint.rs:417-452 | an answer, or a cut, stays until the call is resolved or dropped |
| CallLaws.MapIsOfWaiting | src/endpoint.rs:427-458 | in every run the map holds the ids of all waiting calls and of no call that was answered, cut or resolved |
| CallLaws.DroppedStaysMapped | src/endpoint.rs:417-458 | dropping a call gives up its references and leaves its id in the map |
| LifeRuns.StopHistory | src/endpoint.rs:98-123 | stop is set exactly by a terminate, a kill or the end of input, for good |
| LifeRuns.ControlHistory | src/endpoint.rs:98-147 | in every run stopped means the queue sender is gone, a missing terminator or killer implies stopped, client() succeeds exactly if no terminate, kill or end of input ever ran, the control's terminator is gone exactly by a terminate or the end of input, and the kill signal is sent exactly by a kill |
| LifeRuns.PossibleExactly | src/endpoint.rs:94-147 | what each event needs; without it nothing changes, with it something does |
| LifeRuns.TransmitStep | src/endpoint.rs:668-694 | the transmission ends once, with what ended it |
| LifeRuns.ClientAfterSinkError | src/endpoint.rs:129-147 | a lost connection alone does not make client() fail |
| LifeRuns.OutboundInOrder | src/endpoint.rs:458-481 | accepted client messages are neither lost, repeated nor reordered while transmitting, and what is written is a prefix of them at the end |
| Connection.DropTerminator.DropRc | src/endpoint.rs:42-49 | dropping the last reference, and only that, takes the oneshot and sends it |
| Connection.ServerCtl.Cleanup | src/endpoint.rs:98-104 | sets stop and gives up the queue sender, once |
| Connection.ServerCtl.Terminate | src/endpoint.rs:109-114 | also drops the control's terminator reference, firing it if it was the last |
| Connection.ServerCtl.Kill | src/endpoint.rs:118-123 | also sends the kill signal if it was not sent before |
| Connection.Connection.constructor | src/endpoint.rs:598-622 | start leaves one client and the control sharing one terminator and one queue |
| Connection.Connection.Client | src/endpoint.rs:135-147 | one step of the life cycle; succeeds exactly if terminator and sender are there |
| Connection.Connection.Call | src/endpoint.rs:403-468 | one step of the life cycle: the record of the call with its request (name, params, id), its id in the map before anything is sent, and its hold on the terminator |
| Connection.Connection.CallSent | src/endpoint.rs:460-467 | one step of the life cycle: the call's request is queued last, client and call future come out |
| Connection.Connection.CallSendGone | src/endpoint.rs:460-467 | one step of the life cycle: the unfinished send's client and call are dropped, both references with them |
| Connection.Connection.DropCall | src/endpoint.rs:417-426 | one step of the life cycle: the call's reference is dropped, its id stays in the map |
| Connection.Connection.TimerFailed | src/endpoint.rs:429-433 | one step of the life cycle: a client is gone |
| Connection.Connection.Notify | src/endpoint.rs:473-481 | one step of the life cycle: the client goes into the send, with the notification of this name and params |
| Connection.Connection.NotificationSent | src/endpoint.rs:473-481 | one step of the life cycle: the notification is queued last, the client comes back |
| Connection.Connection.NotificationGone | src/endpoint.rs:473-481 | one step of the life cycle: the client in the send is dropped |
| Connection.Connection.DoResponse | src/endpoint.rs:302-316 | one step of the life cycle: the id's entry goes and a waiting call gets the response |
| Connection.Connection.Poll | src/endpoint.rs:419-426 | one step of the life cycle and the outcome a call resolves with |
| Connection.Connection.TimeOut | src/endpoint.rs:437-452 | one step of the life cycle: the call is resolved as timed out, its id removed and its reference dropped |
| Connection.Connection.Cleaner | src/endpoint.rs:643-651 | one step of the life cycle: the map is cleared, then the control terminates |
| Connection.Connection.TakeQueued | src/endpoint.rs:662-670 | one step of the life cycle: the first queued message is written |
| Connection.Connection.Transmitted | src/endpoint.rs:671-694 | one step of the life cycle after which no call waits |
| Futures.NextIsHead | src/endpoint.rs:285-299 | polling the stream of a message, however nested, yields its futures one by one in list order |
| Futures.StreamHolders | src/endpoint.rs:254-287 | a sender held by a future is held by its stream, and of any batch a stream holds a sender of, it still has the collector |
| Dispatch.RequestReply | src/endpoint.rs:196-216 | the reply has the request's id and exactly what the server's future resolved to, or the error -32601 "Method not found" with the method if it refused |
| Dispatch.Opens | src/endpoint.rs:246-347 | dispatching has the specified effects and opens one fresh empty channel per dispatched batch, touching no other |
| Dispatch.Orders | src/endpoint.rs:285-299 | every collector comes once, after everything that holds a sender of its channel |
| Dispatch.AtMostOne | src/endpoint.rs:262-284 | at most one future of a message yields outside of it, and each batch channel has capacity for all futures that send into it, at every depth |
| Dispatch.YieldsReply | src/endpoint.rs:246-347 | the futures of a message yield, in order, the specified reply outside and the planned results into every batch channel |
| Dispatch.BoundedWork | src/endpoint.rs:320-347 | a message makes at most as many futures as it has messages in it |
| Work.ExactWork | src/endpoint.rs:246-347 | a message makes one future for each callback made and each unmatched part reached, one collector for each channel it opens, and no other |
| Work.CapacityIsTight | src/endpoint.rs:249-251 | the capacity of a batch channel is exact: if each part is answered, as many futures send into it as it has room for |
| StopOrder.DispatchEffects | src/endpoint.rs:254-347 | callbacks happen depth first and left to right up to the first that stops the server; after it exactly the later responses directly in a batch already being dispatched are routed |
| Callbacks.CallbacksAreServers | src/endpoint.rs:196-244 | at any depth every callback logged did what the server does with that request or notification at that place, none is made by a stopped server or after one that terminated or killed it, and the server is stopped afterwards exactly if it was or one of them did |
| Protocol.RepliesFollowRules | src/endpoint.rs:196-347 | for every message and every server, stopped before, meanwhile or not at all: the part that is performed is answered by the rules, with one reply with the right id for what calls for one, nested to any depth and in order; and one by one the answers are exactly those to the requests whose callback was made and null-id errors for the unmatched parts reached |
| Protocol.UnstoppedIsAnswered | src/endpoint.rs:287-347 | a message whose dispatch leaves the server running is performed whole, and answered exactly if it calls for it, by one reply |
| Protocol.CallbacksMade | src/endpoint.rs:320-347 | the callbacks the server saw are those among the items performed, in order |
| Protocol.EmptyBatchUnanswered | src/endpoint.rs:287-296 | the empty array is read as an empty batch, which gets no answer |
| Protocol.BrokenIsAnswered | src/message.rs:290-303 | input that is no JSON, or no message, is answered by the exact errors -32700 with the text and -32600, with a null id |
| Canon.BagCounts | src/endpoint.rs:287-296 | replies are compared by how often each occurs, up to order inside batches |
| Canon.SameUpToOrder | src/endpoint.rs:287-296 | two messages are the same up to order exactly if they are equal or batches with the same members up to order |
| Executor.CollectorComplete | src/endpoint.rs:251-299 | an admitted collector finds no sender alive exactly if no future of its batch is left anywhere |
| Executor.NoSendBlocks | src/endpoint.rs:249-251 | a future in flight always finds room in the channel it sends to |
| Executor.OldestCanFinish | src/endpoint.rs:654-662 | the oldest future in flight depends on finished ones only |
| Executor.StepKeeps | src/endpoint.rs:654-662 | every step keeps what is sent plus what is still to come equal to the plan, per batch and outside, up to order |
| ExecutorRuns.NoDeadlock | src/endpoint.rs:246-300 | for every nesting, parallelism and schedule: no batch send blocks, some step is enabled while work is left, and at most `parallel` futures are in flight |
| ExecutorRuns.EnabledExactly | src/endpoint.rs:654-662 | in every reachable state a message is taken exactly if a slot is free and the stream is exhausted, the next future admitted exactly if a slot is free, any work in flight can resolve, and a collector exactly if no future of its batch is left anywhere |
| ExecutorRuns.AdmitsNext | src/endpoint.rs:654-662 | admission is first in, first out |
| ExecutorRuns.NothingWithoutSlots | src/endpoint.rs:576-578 | with no slot no message is ever taken, no callback made, no answer given: only the stop flag and the end of the input can change |
| ExecutorRuns.WorksExactlyWithSlots | src/endpoint.rs:654-662 | in every reachable state the next message can be taken once nothing is left to do exactly if there is a slot, and if something is left there is a slot and an enabled step |
| ExecutorRuns.RepliesAsSpecified | src/endpoint.rs:654-662 | at any time the answers are among the specified ones up to order inside batches, and exactly those once nothing is left to do |
| ExecutorRuns.ScheduleIndependent | src/endpoint.rs:654-662 | two runs over the same inbound history give the same answers, whatever the schedules and the parallelism |
| ExecutorRuns.InOrder | src/endpoint.rs:563-578 | with one slot the answers are in message order, and inside each batch in request order |
| ExecutorRuns.BoundedRun | src/endpoint.rs:569-578 | the work steps of any run are bounded by the sizes of the messages taken |
| ExecutorRuns.CanComplete | src/endpoint.rs:654-662 | from every reachable state with a slot the pending work completes within the measure |
| Endpoint.StepKeeps | src/endpoint.rs:598-694 | every step of the joined endpoint keeps the invariants of its parts, the shared stop flag, and the wire being a merge of the answers and the client messages, each in their order |
| Taking.TakingPerforms | src/endpoint.rs:302-347 | taking a message performs on the connection exactly the effects newly logged, in their order |
| Taking.ResponseIsDelivered | src/endpoint.rs:302-316 | a response taken from the input, stopped or not, fills the call that waits under its id and touches nothing else |
| Taking.ResponsesEndWaiting | src/endpoint.rs:302-347 | each response routed anywhere in a message leaves no earlier call waiting under its id |
| Taking.FirstResponseIsHeld | src/endpoint.rs:302-347 | the first of them is what the call holds afterwards, unless a callback of the same message gives up on the call |
| Taking.RequestActs | src/endpoint.rs:196-216 | a request makes the server's callback act on the connection as the server wants, unless stopped |
| Taking.NotificationActs | src/endpoint.rs:218-244 | likewise for a notification |
| Taking.CallbackStops | src/endpoint.rs:98-123 | a callback that terminates or kills, anywhere in a message, has stopped the connection afterwards and taken the terminator or sent the kill signal |
| Endings.EndTells | src/endpoint.rs:668-694 | the transmission ends with an error exactly if input or sink failed, and without one exactly by a kill or when everything is out and no sender is left |
| Endings.EndClears | src/endpoint.rs:671-676 | however it ends, the map is empty, nothing queued is sent and no call waits |
| Endings.KillEnds | src/endpoint.rs:118-123 | a kill ends a running connection at once, whatever is left to do |
| Endings.InputEnds | src/endpoint.rs:643-651 | the end of the input stops the server, takes the control's own hold and cuts every waiting call |
| Endings.InboundEnds | src/endpoint.rs:629-658 | the inbound stream ends exactly at the end of the input or once the terminator has fired, when nothing is left of the message before and a slot is free |
| Endings.TakenExactly | src/endpoint.rs:323-347 | a message is taken, stopped or not, exactly if the transmission runs, the inbound stream has not ended, a slot is free and nothing is left of the message before |
| Endpoint.FiredIsClosing | src/endpoint.rs:629-634 | once the terminator fired nobody can send any more |
| Endpoint.ClosingProgresses | src/endpoint.rs:654-670 | a closing endpoint always has an enabled step of its own |
| Endpoint.OwnStepsDecrease | src/endpoint.rs:654-670 | each such step strictly decreases the measure and keeps it closing until the transmission is finished |
| Endpoint.OthersDoNotDelay | src/endpoint.rs:323-329 | no user action and no message still taken in increases the measure or reopens it |
| Endpoint.AllSentMeansAll | src/endpoint.rs:664-670 | the outbound stream ends only with all specified replies and all client messages on the wire, the latter in their order |
| Endpoint.GracefulShutdown | src/endpoint.rs:629-684 | from every reachable closing state its own steps finish the transmission well, with every answer and queued message written |
| Shutdown.EveryScheduleShutsDown | src/endpoint.rs:629-684 | from a closing state with a slot, unless it is killed or breaks, every schedule, with users acting and messages still coming in, shuts down well: own steps are bounded by the measure, one is enabled as long as it runs, and at its end every answer and queued message is on the wire |
| EndToEnd.RunIsLifeRun | src/endpoint.rs:598-705 | every run of the endpoint is a run of the life cycle |
| EndToEnd.RunIsExecRun | src/endpoint.rs:654-662 | every run of the endpoint is a run of the executor |
| EndToEnd.NoCallLeftWaiting | src/endpoint.rs:449-458 | in every run of the endpoint no handed-out call waits after the transmission ended, and a waiting call is in the map and keeps the terminator from firing |
| EndToEnd.WireInOrder | src/endpoint.rs:563-578 | with one slot the wire merges a prefix of the specified replies in message order, all of them once nothing is left to do, with the client messages in the order they were accepted; without client messages it is those replies |
| AfterInput.NoAnswerAfterEnd | src/endpoint.rs:643-656 | once the input is over no call gets an answer it did not have, whatever happens |
| AfterInput.WaitsUntilEnded | src/endpoint.rs:449-468 | a call waiting then goes on waiting exactly until its own timeout, its own drop or the end of the transmission |
| AfterInput.CallAfterEndOfInput | src/endpoint.rs:643-651 | a call made and sent after the end of the input is such a call, and keeps the terminator from firing |
| EndToEnd.WireSerializable | src/codec.rs:37-38 | nothing the endpoint hands to the sink can fail to be encoded |
| EndToEnd.PeerReadsWire | src/codec.rs:92-106 | the other side's line codec reads the encoded wire of any run, in any chunks, as exactly its messages, normalized and in order |
| Asking.StepAsks | src/endpoint.rs:403-468 | whatever happens, each request going out is the request of a call that was sent, and no id is asked for twice |
| Pair.CallsAreAnsweredByPeer | src/endpoint.rs:196-316 | in every run of two joined endpoints a call that got an answer got exactly what the other side's server answered to the request this call sent, and that server was called for it exactly once |
| Pair.HeardInOrder | src/endpoint.rs:643-658 | in every run of two joined endpoints each side has taken exactly the first messages of the other's wire, in order |
| Pair.AHearsAnswer | src/endpoint.rs:302-316 | when a side hears the response to a call of its own that waits, the call has it |
| Pair.BHearsAnswer | src/endpoint.rs:302-316 | likewise for the other side |
| Exchange.CallIsAnswered | src/endpoint.rs:196-468 | whatever is called with whatever params on any server with a slot: a given run of eight steps resolves the call with exactly what that server answers to that request |

## Left out

- Sockets, the reactor, wake-ups and real time: timeouts and server futures are events that may happen at any time.
- serde_json's text parser: a reader is any function that reads the compact texts of the messages sent back (`Codec.ReadsBack`; `Codec.SomethingReadsBack` shows there is one for all messages); white space and malformed text stay with it.
- Numbers that are not 64-bit integers (serde_json's floating-point numbers), and duplicate object keys inside values, which its map drops.
- The `Boundary` codec: it is almost wholly serde_json's stream deserializer.
- UTF-8 lossy conversion in `DirtyLine`: it uses the same `decode_codec`, whose conversion is a parameter here.
- UUID generation: a call's id is one not used before; an id that is in use is not taken.
- The trailing partial line at the end of the input.
- src/server.rs beyond the callbacks: a server is an arbitrary function of the effects dispatched so far, which may act on the connection and may refuse. What else a server may depend on (clocks, users, when futures resolve) is not an argument of it: as every callback adds to those effects, any reactions of one run are those of some such function, and the results hold for all of them.
- Dropping of the control object itself after the connection is over, which nobody can observe any more.
- A server future that holds a client is a client held by a user; which future holds it is not modelled.
- The order in which `select` merges answers and client messages, and the inbound messages and the terminator: any merge is allowed.
- Logging, `Display` and `Error` implementations, error texts of the parser.
