# Proofs about the HTTP/2 exchange and its bookkeeping

ngh2 is an HTTP/2 library; its repository also holds protocol code written by hand around the library: the benchmark
that lets two connections talk to each other in memory, two servers and a client that keep track of requests,
a bounded upload, and the frame reading and writing of the tests. This project models that code in Dafny and proves
what it is relied on for. `dafny verify dfyconfig.toml` checks everything.

## The exchange

`benchmarks/compare_h2.py` runs a workload over two connections. `H2Exchange` cuts bodies to the flow-control windows
and acknowledges data itself; `Ngh2Exchange` leaves both to its library. Both are classes here (`H2Exchange.dfy`,
`Ngh2Exchange.dfy`) with the source's queues, totals and loops. Their methods are proved against a state machine on
values:

- `Http2.dfy` is the library as a caller sees it, from sections 4.1, 5.2, 6.9 and 6.9.1 of RFC 9113. A sender spends
  the stream window and the connection window together. A receiver collects acknowledged bytes and may keep credit
  back, but never as much as a threshold T. T, the window W and the frame size are arbitrary, with 1 <= T <= W.
  How much credit is returned at each step is left open, so every result holds for every such library.
- `Flush.dfy` is the greedy framer, `Cells.dfy` the source's `[data, offset, end_stream]` cells that refine it, and
  `Flush.Schedules` what any framer owes its caller, which is all that is used of the framer inside ngh2.
- `Bodies.dfy` is the send queue inside ngh2, where `send_data` appends to one body per stream and empty data leaves no
  trace, and what that changes of a message: nothing but DATA frames without bytes.
- `Direction.dfy` holds the two laws of one direction. Credit: send window + DATA in flight + data not handled +
  credit withheld + credit in flight = W, for the connection and for every stream still open for sending.
  Tape: what was delivered, is in flight and is queued on a stream is, in this order, the message that was queued,
  including empty DATA frames, and END_STREAM is its last symbol.
- `Exchange.dfy` adds the answers (a request is answered once, when its end is handled) and shows that every
  transition keeps all laws; `NativeFlow.dfy` does so for a library that acknowledges data on arrival.
- `Progress.dfy` has the totals an exchange is bound for, which no transition changes, and the potential that every
  delivered frame lowers, although data causes credit frames and requests cause responses.
- `Liveness.dfy` concludes: every run is safe, and an exchange that stops has finished. `Integrity.dfy` carries the tape
  law through whole runs: the message of a stream is what the client said on it, call by call. `Deadlock.dfy` shows
  that the bound on T is exactly what makes an exchange finish: with T > W it gives a run that stops unfinished.
- `Requests.dfy` and `Transfer.dfy` take this to whole iterations, in numbers, frames and bytes, and `Workloads.dfy` to
  the comparison of both libraries.

## The bookkeeping

- `RequestTracker.dfy`, `Requested.dfy`, `Batching.dfy`: the example server's dict and set refine one automaton per
  stream over whole connections; what is kept and answered, by positions in the event trace; what splitting a batch
  changes, exactly.
- `H2SpecServer.dfy`: the h2spec adapter as a second implementation, and when the two agree.
- `ResponseFold.dfy`: the example client, and when its calls on parts of the events equal one call on all of them.
- `Upload.dfy`: the two loops of the manual flow-control example, how much they submit and when the second one ends.
- `FrameCodec.dfy`: the tests' frame writer and both walkers, and reading a wire in slices of any size.
- `MarkedTable.dfy`: replacing the table between two markers of a document.

## Where the code does not keep what one would expect

Each of these is stated with the exact condition under which the expectation holds. They are about the code for any
parameters; the last three do not arise from the values the scripts contain today.

- `asyncio_client.py`: a response that is complete when a read has been processed is still reported as
  an error if the events after the following write contain ConnectionClosed, because every call starts with
  `complete = False` (`CompleteResponseCanBeLost`, `SplitsAgreeExactly`, `GetIsOneFold`).
- `asyncio_server.py`: a request that is reset after it completed is answered or not depending on where the batches
  end (`SplitsAgreeExactlyWhenKept`, and `ResetRequestIsLost` for such a request).
- `manual_flow_control.py` prints "upload complete" without having submitted a body longer than
  (floor(W / C) + 1) * C bytes (`SubmitChunks`), and its second loop never ends if the returned credit does not cover
  the queued tail (`TailDrainsExactlyWhenCovered`, `FinishesForEveryLibraryExactly`; with a chunk and a body
  above two windows it never does, `LargeChunkNeverFinishes`). The example's body is shorter, and its credit suffices.
- `compare_h2.py`: a scenario with a negative number of requests fails its own check (`ExpectedIsTotals`).
- `render_results.py`: a table that contains the end marker leaves remains behind when it is replaced (`OverwriteLaw`, and
  `EndMarkerSurvives` for such a table).

## Model

| member | source | states |
|---|---|---|
| Flush.CutFrames | benchmarks/compare_h2.py:266-283 | a visit to a stream produces only DATA frames of that stream, none larger than the maximum outbound frame size |
| Flush.CutKeepsTape | benchmarks/compare_h2.py:265-285 | the frames of a visit followed by what stays queued are what was queued: no byte lost, reordered or doubled, empty chunks kept, END_STREAM in place |
| Flush.CutConserves | benchmarks/compare_h2.py:265-285 | bytes and END_STREAM marks are conserved by a visit, and the sum of remaining + 1 over the queue falls by at least the number of frames |
| Flush.CutIsGreedy | benchmarks/compare_h2.py:266-274 | a visit sends exactly the smaller of what is queued and what the windows allow, and uses the windows up when something stays queued |
| Flush.CutFillsFrames | benchmarks/compare_h2.py:268-283 | frames are filled: at most one frame per queued chunk is smaller than the limit, in (frames - chunks) * limit <= bytes |
| Flush.CutOfOneChunk | benchmarks/compare_h2.py:268-285 | one chunk leaves in frames of exactly the limit, except the last |
| Flush.FlushEmitsData | benchmarks/compare_h2.py:268-283 | every frame of a flush fits the maximum outbound frame size |
| Flush.FlushSpendsWindows | benchmarks/compare_h2.py:261-287 | after a flush each stream window, and the connection window, is short by exactly the bytes framed against it, so none goes negative |
| Flush.FlushEndsStreams | benchmarks/compare_h2.py:277-281 | a stream is ended by a flush if and only if a frame of it carries END_STREAM |
| Flush.FlushKeepsTape | benchmarks/compare_h2.py:261-287 | for every stream, what was queued before a flush is its frames followed by what stays queued; streams are not mixed |
| Flush.FlushConserves | benchmarks/compare_h2.py:261-287 | over all streams bytes and END_STREAM marks are conserved, and the work bound falls by at least the number of frames |
| Flush.FlushKeepsPendingOk | benchmarks/compare_h2.py:262-287 | no stream has two queues, and no empty queue survives a flush |
| Flush.FlushIsMaximal | benchmarks/compare_h2.py:261-287 | after a flush every stream still pending has min(connection window, stream window) = 0, also those visited before others drained the connection |
| Flush.FlushFillsFrames | benchmarks/compare_h2.py:261-287 | over all streams too, at most one frame per queued chunk is smaller than the limit |
| Flush.FlushInOrder | benchmarks/compare_h2.py:263-287 | streams are visited in the order of the dict: flushing a first part of it and then the rest is flushing all of it |
| Flush.FlushShare | benchmarks/compare_h2.py:263-274 | each stream sends the smallest of what it has queued, its window, and what its predecessors left of the connection window, and its frames follow theirs |
| Flush.FlushSchedules | benchmarks/compare_h2.py:261-287 | the greedy flush meets the contract of any framer, on every queue and every window |
| Flush.EnqueueAppends | benchmarks/compare_h2.py:248-259 | queued data goes behind everything its stream has queued, and other streams do not notice |
| Flush.EnqueueKeepsOrder | benchmarks/compare_h2.py:257 | a stream that has nothing queued yet comes last in the dict, and no other changes its place |
| Cells.AppendIsEnqueue | benchmarks/compare_h2.py:257-259 | appending a cell with offset 0 is queueing the chunk |
| Cells.ShiftIsAdvance | benchmarks/compare_h2.py:277-285 | moving a cell's offset, or popping it, leaves the unsent part, and the sliced payload is the next frame of that part |
| Cells.FramingStep | benchmarks/compare_h2.py:265-285 | one turn of the inner loop: the calls made so far and the cutting of the rest still add up to cutting the whole queue, and the call is one the library accepts |
| Cells.FlushQueue | benchmarks/compare_h2.py:264-285 | the inner loop on cells ends, makes exactly the frames of the cutting of the unsent parts (in size, number and order), and leaves cells that hold the rest |
| Direction.FramingKeepsChannels | benchmarks/compare_h2.py:261-287 | framing by any framer keeps the credit and the tape law of both directions |
| Direction.ArrivalKeepsFlow | benchmarks/compare_h2.py:301-304 | credit law of the direction the frame travels: its bytes move from the wire to the data not handled |
| Direction.ArrivalKeepsReverseFlow | benchmarks/compare_h2.py:301-302 | credit law of the other direction: credit in flight moves to the window it is for, or is ignored on an ended stream |
| Direction.ArrivalKeepsTapes | benchmarks/compare_h2.py:301-302 | a frame that arrives moves from in flight to delivered; neither message changes |
| Direction.ArrivalKeepsChannels | benchmarks/compare_h2.py:301-302 | an arriving frame keeps both laws of both directions, even when the receiver ignores late credit |
| Direction.AcknowledgeKeepsFlow | benchmarks/compare_h2.py:303-308 | credit law, data acknowledged: it becomes withheld credit or credit in flight, whatever part is released |
| Direction.AcknowledgeKeepsChannels | benchmarks/compare_h2.py:303-308 | acknowledging data keeps both laws of both directions |
| Direction.OpenKeepsChannels | benchmarks/compare_h2.py:241-242 | HEADERS on an unused stream keep both laws of both directions |
| Direction.QueueKeepsChannels | benchmarks/compare_h2.py:243-244 | queueing data on a stream that has not ended keeps both laws of both directions |
| Exchange.EndArrivesOnce | benchmarks/compare_h2.py:313-314 | END_STREAM of a request reaches the server at most once |
| Exchange.ResponseTape | benchmarks/compare_h2.py:317-321 | answering puts the whole response message on the stream and nothing on any other |
| Exchange.FlushKeepsInv | benchmarks/compare_h2.py:298-299 | a flush keeps both laws and the answers |
| Exchange.ArrivalKeepsInv | benchmarks/compare_h2.py:301-302 | an arriving frame keeps both laws and the answers |
| Exchange.HandleKeepsInv | benchmarks/compare_h2.py:303-314 | handling an event keeps both laws, and a stream has a response if and only if the end of its request was handled |
| Bodies.SubmitEnds | src/ngh2/_core.pyx:742-748 | data appended to an open body changes no other stream, and the body ends, with its last symbol, if and only if the data was marked as final |
| Bodies.SubmitAppends | src/ngh2/_core.pyx:742-748 | submitted bytes and the end mark go behind everything their stream has queued, also when part of its body is framed already |
| Bodies.SubmitKeepsChannels | src/ngh2/_core.pyx:707-752 | appending data to an open body keeps the laws of both directions and appends exactly that data to the stream's message |
| Bodies.SubmitTwice | src/ngh2/_core.pyx:744-748 | appending a body in two parts is appending it at once, also when a part is empty |
| Bodies.MergedSaysTheSame | benchmarks/compare_h2.py:166-168 | merging the parts of a message keeps all its octets and its end |
| Bodies.MergedIsEqualExactly | benchmarks/compare_h2.py:166-168 | both libraries carry the very same message if and only if no one of several parts is empty |
| NativeFlow.ConsumeKeepsInv | benchmarks/compare_h2.py:182-187 | a frame acknowledged on arrival, its data still to be counted, keeps both laws and the answers |
| NativeFlow.ConsumeEvolves | benchmarks/compare_h2.py:182-187 | it changes neither the messages nor the totals the exchange is bound for, and lowers the potential |
| NativeFlow.SliceEvolves | benchmarks/compare_h2.py:182-184 | so does receiving a whole slice of the wire, frame by frame |
| Progress.FlushEvolves | benchmarks/compare_h2.py:298-299 | a flush changes neither messages nor bound totals and does not raise the potential |
| Progress.ArrivalEvolves | benchmarks/compare_h2.py:301-302 | an arriving frame changes neither messages nor bound totals and lowers the potential |
| Progress.RespondLoad | benchmarks/compare_h2.py:313-321 | a response is paid for in full by the request end it consumes: bound totals stay, the potential does not rise |
| Progress.HandleEvolves | benchmarks/compare_h2.py:303-314 | handling an event changes neither messages nor bound totals and does not raise the potential, although it adds credit frames and responses |
| Progress.BatchEvolves | benchmarks/compare_h2.py:301-302 | receiving frames one after the other lowers the potential as soon as there is one |
| Liveness.EveryRunIsSafe | benchmarks/compare_h2.py:159-321 | every state of every run satisfies the credit law, has END_STREAM last on every stream, and answers each request once and whole, for either library and its way of queueing data, any framer and any order of steps |
| Integrity.StepSays | benchmarks/compare_h2.py:235-321 | a step of the client appends exactly what it says to its stream; every other step leaves all messages alone |
| Integrity.EveryRunKeepsMessages | benchmarks/compare_h2.py:159-321 | over every run, what is delivered, in flight and queued on a stream is what the client's calls said on it, in order; for bodies kept in the library up to DATA frames without bytes |
| Integrity.DeliveredIsPrefix | benchmarks/compare_h2.py:159-321 | at any time the server has received the beginning of what was said, and the client the beginning of the response |
| Liveness.WindowsAreRespected | benchmarks/compare_h2.py:222-233 | every send window lies between 0 and W, and data in flight, unhandled or withheld never exceeds W |
| Liveness.PendingIsLegal | benchmarks/compare_h2.py:277-281 | a queued chunk is never on an ended stream, and only the last chunk of a queue ends it, so `send_data` is never refused |
| Liveness.HandleIsLegal | benchmarks/compare_h2.py:313-321 | the stream of an ended request carries no response yet, so the response is never refused |
| Liveness.NoDeadlock | benchmarks/compare_h2.py:261-287 | with nothing in flight and nothing unhandled, a pending stream finds both windows open |
| Liveness.StuckIsQuiescent | benchmarks/compare_h2.py:289-315 | when both directions move nothing, no queue, frame or event is left on either side |
| Deadlock.AskedStarves | benchmarks/compare_h2.py:261-287 | a run: one request of W + 1 bytes is opened, queued and flushed, which stops at the window before END_STREAM, for every W and every frame size |
| Deadlock.StarvingHalts | benchmarks/compare_h2.py:294-315 | when T > W, delivering everything and withholding all credit goes on, within the rules, until nothing moves |
| Deadlock.DeadlockFreeExactly | benchmarks/compare_h2.py:289-315 | every state that a run can reach and that does not move is finished if and only if T <= W, for every window, frame size and threshold |
| Liveness.QuiescentIsComplete | benchmarks/compare_h2.py:235-246 | a finished exchange has counted what it was bound for, every request has arrived whole, and exactly the ended requests have their whole response |
| Requests.SendRequestIsSound | benchmarks/compare_h2.py:240-244 | one request puts its whole message on a new stream, touches no other, and adds one request, its bytes, one response and its bytes to the bound totals |
| Requests.ExpectedIsTotals | benchmarks/compare_h2.py:80-87 | `expected` is the totals of the requests that are made if and only if `parallel` is not negative |
| Transfer.RequestPartsAre | benchmarks/compare_h2.py:53-57 | a request has as many parts as the chunk count says, none for a negative one, and without one a single part unless the body is empty; every part is the body |
| Transfer.TotalsInNumbers | benchmarks/compare_h2.py:80-87 | the four totals in numbers of the scenario |
| Transfer.TapeCarries | benchmarks/compare_h2.py:301-304 | the tape of a stream has exactly the bytes, HEADERS and END_STREAM marks of its frames |
| Transfer.ExchangeTransfers | benchmarks/compare_h2.py:235-246 | whole messages on both sides of a stream mean the request body at the server and the response body at the client, byte for byte |
| Requests.ExchangeCompletes | benchmarks/compare_h2.py:235-246 | after the pump the totals are those of the queued requests, and each side of each new stream has received its whole message |
| H2Exchanges.H2Exchange.constructor | benchmarks/compare_h2.py:211-233 | a new exchange is sound, has nothing pending, and both sides have the window of the scenario, or 65535 |
| H2Exchanges.H2Exchange.SendData | benchmarks/compare_h2.py:248-259 | the cell goes to the end of its stream's queue; the other connection's queues stay |
| H2Exchanges.H2Exchange.Flush | benchmarks/compare_h2.py:261-287 | the two loops end, and leave the connection and the queues of the greedy flush, every frame of it |
| H2Exchanges.H2Exchange.Respond | benchmarks/compare_h2.py:317-321 | headers and body of the response are on the stream, the body queued |
| H2Exchanges.H2Exchange.Handle | benchmarks/compare_h2.py:303-314 | one event is handled: all laws hold, messages and bound totals stay |
| H2Exchanges.H2Exchange.ReceiveSlice | benchmarks/compare_h2.py:301-314 | a slice and all its events are handled, in order, and the potential falls |
| H2Exchanges.H2Exchange.Deliver | benchmarks/compare_h2.py:294-315 | true means the potential fell; false means the receiver is untouched and the source has nothing it may send |
| H2Exchanges.H2Exchange.Pump | benchmarks/compare_h2.py:289-292 | the loop ends, with nothing pending or in flight |
| H2Exchanges.H2Exchange.SendRequest | benchmarks/compare_h2.py:241-244 | a new stream carries exactly the request's message; the rest of the exchange stays |
| H2Exchanges.H2Exchange.Call | benchmarks/compare_h2.py:235-246 | an iteration returns parallel requests, their bytes (copies of the body times its length), as many responses and their bytes, equal to `expected` if and only if `parallel` is not negative; on every new stream one HEADERS frame, the whole body and one END_STREAM arrived on each side; and it can be repeated |
| Ngh2Exchanges.EventsExpand | benchmarks/compare_h2.py:184-194 | end-of-stream flags on the last event carry the same information as separate `StreamEnded` events |
| Ngh2Exchanges.HandleExpanded | benchmarks/compare_h2.py:185-194 | handling an event with its flag is handling the two events it stands for |
| Ngh2Exchanges.Ngh2Exchange.constructor | benchmarks/compare_h2.py:143-157 | a new exchange is sound, has nothing pending, and both sides have the window of the scenario, or 65535 |
| Ngh2Exchanges.Ngh2Exchange.Respond | benchmarks/compare_h2.py:197-203 | headers and body of the response are on the stream, the body queued in the library |
| Ngh2Exchanges.Ngh2Exchange.Handle | benchmarks/compare_h2.py:185-194 | one event is handled: all laws hold, messages and bound totals stay |
| Ngh2Exchanges.Ngh2Exchange.ReceiveSlice | benchmarks/compare_h2.py:182-194 | a slice and all its events are handled, in order, and the potential falls |
| Ngh2Exchanges.Ngh2Exchange.Deliver | benchmarks/compare_h2.py:176-195 | true means the potential fell; false means the receiver is untouched and the source has nothing it may send |
| Ngh2Exchanges.Ngh2Exchange.Pump | benchmarks/compare_h2.py:171-174 | the loop ends, with nothing pending or in flight |
| Ngh2Exchanges.Ngh2Exchange.SendRequest | benchmarks/compare_h2.py:165-168 | a new stream carries the request's message with its parts merged into one body, as `send_data` does; the rest of the exchange stays |
| Ngh2Exchanges.Ngh2Exchange.Call | benchmarks/compare_h2.py:159-169 | an iteration returns the same numbers as with the other library, and on every new stream one HEADERS frame, the whole body and one END_STREAM arrived on each side |
| Workloads.CheckWorkload | benchmarks/compare_h2.py:337-343 | both libraries, twice each, report the same numbers for a scenario; the check passes if and only if `parallel` is not negative |
| Workloads.CheckWorkloads | benchmarks/compare_h2.py:335-343 | the check of all scenarios passes if and only if each of them does |
| RequestTracker.ReadyIsTracked | examples/python/asyncio_server.py:54-80 | `ready` never names a stream that is not in `requests` |
| RequestTracker.Tracker.ProcessRequestEvents | examples/python/asyncio_server.py:47-86 | the two loops compute the fold of the batch, its answers and what stays tracked |
| RequestTracker.HandleConnection | examples/python/asyncio_server.py:104-121 | the driver loop processes batches until one reports ConnectionClosed, and answers what the fold over the connection answers |
| RequestTracker.TrackerRefinesAutomaton | examples/python/asyncio_server.py:52-80 | on every stream the shared dict and set behave like that stream's own automaton, whatever the other streams do |
| Requested.TrackMeans | examples/python/asyncio_server.py:54-69 | by positions in the trace: a stream is tracked if and only if it was requested and not reset or closed since, ready if and only if its request was finished while tracked and not reset or closed since, and it holds the headers of its last request |
| Requested.BatchMeans | examples/python/asyncio_server.py:54-85 | the streams that a batch answers and those it keeps are exactly these, each with the headers of its last request |
| RequestTracker.ServeRefinesAutomaton | examples/python/asyncio_server.py:107-121 | over a whole open connection `requests` holds exactly the streams whose automaton is open, and each stream is answered as often as its automaton says |
| RequestTracker.AnsweredAtMostOncePerRequest | examples/python/asyncio_server.py:81-85 | no stream is answered more often than it was requested, on any run |
| RequestTracker.NothingAnsweredOnceClosed | examples/python/asyncio_server.py:79-86 | nothing is answered in a batch with ConnectionClosed or after it |
| Requested.ServeUntilClosed | examples/python/asyncio_server.py:107-121 | batches before the one with ConnectionClosed are answered as if it did not exist |
| Batching.AnsweredUnderEverySplit | examples/python/asyncio_server.py:52-86 | a stream requested at most once and answered when the trace is one batch is answered under every split of it |
| Batching.SplitsAgreeExactlyWhenKept | examples/python/asyncio_server.py:52-86 | all splits answer a stream equally often if and only if no reset or close follows its completion |
| Batching.ResetRequestIsLost | examples/python/asyncio_server.py:64-85 | a complete request that is reset in the same batch is never answered, and is answered once if the reset comes in the next batch |
| H2SpecServer.MethodsAgree | tests/interop/h2spec_server.py:63-66 | the first and the last `:method` are the same when the field occurs once |
| H2SpecServer.SpecServer.ReadInput | tests/interop/h2spec_server.py:61-80 | the loop computes the fold of the input events; it raises if and only if a request has no method, and notices GOAWAY and ConnectionClosed exactly if they are there |
| H2SpecServer.SpecBatchMeans | tests/interop/h2spec_server.py:61-84 | answered are exactly the streams finished while in use, kept those in use and not finished, with the first `:method` of the last request |
| H2SpecServer.SpecServer.AnswerReady | tests/interop/h2spec_server.py:81-84 | exactly the ready and tracked streams are answered, with their methods, and forgotten |
| H2SpecServer.SpecServer.ReadOutput | tests/interop/h2spec_server.py:87-91 | after the output only closed streams are forgotten and only ConnectionClosed is noticed |
| H2SpecServer.SpecServer.Serve | tests/interop/h2spec_server.py:51-96 | one turn of the receive loop, and whether it is the last |
| H2SpecServer.RoundStopsExactly | tests/interop/h2spec_server.py:77-96 | a round is the last one if and only if its input has GOAWAY or ConnectionClosed or its output has ConnectionClosed |
| H2SpecServer.ServeConnection | tests/interop/h2spec_server.py:50-96 | the receive loop serves exactly the rounds up to and including the first with GOAWAY or ConnectionClosed, or up to a request without a method, and answers each from what was tracked when it began |
| H2SpecServer.InputsAgreeExactlyUnlessClosing | tests/interop/h2spec_server.py:61-84 | on one batch both servers answer the same requests if and only if it has no ConnectionClosed or nothing is ready; without it they keep the same streams |
| H2SpecServer.InputsAgreeWhenDrained | tests/interop/h2spec_server.py:61-84 | both servers answer the same and keep the same streams on every batch in which ConnectionClosed leaves no request, as the library reports it only when it needs no more input |
| H2SpecServer.OutputsAgreeExactly | tests/interop/h2spec_server.py:87-91 | on the events after the output neither server answers, and both keep the same streams if and only if every tracked stream that is reset is also closed, as docs/site/guides/events.md:60-61 promises |
| H2SpecServer.RoundsAgreeExactly | tests/interop/h2spec_server.py:61-91 | one round without ConnectionClosed or GOAWAY in the input gives the same answers, and the same streams under the same condition |
| H2SpecServer.TrackersAgree | tests/interop/h2spec_server.py:50-96 | over any number of such rounds, until an output ends the connection for both, the servers give the same answers and keep the same streams |
| H2SpecServer.TrackersAgreeExactly | tests/interop/h2spec_server.py:50-92 | after every number of rounds both keep the same streams if and only if along the run no tracked stream is reset without being closed |
| ResponseFold.ProcessMeans | examples/python/asyncio_client.py:25-52 | the fold fails at the first fatal event, with the error of that event and the body up to it, or goes through: the data of the stream appended in order, the status of the last response, completion by a clean close |
| ResponseFold.Client.ProcessResponseEvents | examples/python/asyncio_client.py:18-52 | the loop computes the fold: status, body and completion are those the events of the stream amount to, or it raises what one of them reports and keeps the body so far |
| ResponseFold.CompletionOnlyHidesLoss | examples/python/asyncio_client.py:48-51 | being complete changes nothing of the outcome of a batch but the flag, if and only if the batch does not lose the connection before it settles the stream; then the open call fails with that loss and the complete one does not |
| ResponseFold.SplitsAgreeExactly | examples/python/asyncio_client.py:25-52 | processing two parts of a batch equals processing the batch if and only if the first part does not complete the stream before the second loses the connection |
| ResponseFold.Get | examples/python/asyncio_client.py:104-141 | a response is the status of the last response headers and all data of the stream in order, closed cleanly, over the events looked at; an error is one that an event reports, a missing status, or the end of the input |
| ResponseFold.GetIsOneFold | examples/python/asyncio_client.py:104-141 | `get` returns what one pass over all events returns if and only if no round completes the response and then loses the connection |
| ResponseFold.CompleteResponseCanBeLost | examples/python/asyncio_client.py:119-137 | a complete response followed by ConnectionClosed after the write is reported as an error |
| Upload.TransferData | examples/python/manual_flow_control.py:4-7 | as much of the queue as the window allows arrives, in order, in any number of frames, and END_STREAM with the last of an ended body |
| Upload.ConsumeAvailableData | examples/python/manual_flow_control.py:26-35 | every DATA event is taken once and exactly its bytes are released |
| Upload.SubmitOne | examples/python/manual_flow_control.py:65-73 | one turn of the first loop: what the window allows of the chunk is received, the rest is queued, END_STREAM arrives with the end of the final chunk |
| Upload.SubmitChunks | examples/python/manual_flow_control.py:56-73 | offset = received + queued with queued <= C throughout, the whole body is submitted if and only if N <= (floor(W / C) + 1) * C, and it is marked as ended exactly then unless it is empty |
| Upload.DrainTurns | examples/python/manual_flow_control.py:84-86 | what the second loop has left queued after any number of turns, as a function of the tail and the credit |
| Upload.TailDrainsExactlyWhenCovered | examples/python/manual_flow_control.py:84-86 | some number of turns leaves nothing queued if and only if the credit covers the tail, and then one turn does |
| Upload.DrainTail | examples/python/manual_flow_control.py:84-86 | when it is covered, the whole tail is received |
| Upload.Submit | examples/python/manual_flow_control.py:56-83 | the tail is covered if and only if W plus the released credit reaches what was submitted |
| Upload.Run | examples/python/manual_flow_control.py:56-92 | however often its second loop may turn, the upload ends if and only if the credit that came back covers the tail, always when C + T <= W + 1; what it has received; and when END_STREAM arrives |
| Upload.FinishesForEveryLibraryExactly | examples/python/manual_flow_control.py:80-86 | with every library of a threshold T the upload ends if and only if what was submitted is at most W + max(0, min(N, W) - (T - 1)) |
| Upload.LargeChunkNeverFinishes | examples/python/manual_flow_control.py:80-86 | a body and a chunk of more than two windows keep the second loop running for any number of turns |
| FrameCodec.LengthRoundTrip | tests/test_upstream.py:53-53 | three octets hold every length below 2^24 |
| FrameCodec.BigEndian | tests/test_upstream.py:70-72 | one, three and four octets are read as the number they spell in network byte order |
| FrameCodec.FrameLayout | tests/test_upstream.py:50-56 | length, type, flags, stream 0 and payload stand where section 4.1 of RFC 9113 puts them, and a frame is written exactly when they fit |
| FrameCodec.WalksAgree | tests/test_output.py:238-246 | the index-advancing and the slice-consuming walk visit the same frames and fail on the same wires, well-formed or not |
| FrameCodec.WalkFailsExactly | tests/test_output.py:241-245 | a walk fails if and only if one to three octets are left behind the last whole frame |
| FrameCodec.DataFrameLengths | tests/test_output.py:238-246 | the loop returns the DATA lengths of the walk, or fails as the walk does |
| FrameCodec.GoawayStreamIds | tests/test_upstream.py:67-74 | the loop returns the GOAWAY stream identifiers of the walk, or fails as the walk does |
| FrameCodec.WalkersReadBack | tests/test_upstream.py:50-74 | on written frames followed by any wire the walkers return exactly the written lengths and identifiers, then what they return on the rest |
| FrameCodec.GoawayReadsBack | tests/test_upstream.py:67-74 | a GOAWAY frame (type 7) that starts with the four octets of n is read back as n, whatever follows |
| FrameCodec.DataReadsBack | tests/test_output.py:238-246 | a DATA frame (type 0) is read back as the length of its payload |
| FrameCodec.OthersAreSkipped | tests/test_upstream.py:67-74 | frames of other types are passed over |
| FrameCodec.WalkersDistribute | tests/test_output.py:238-246 | on any wire of whole frames followed by anything, what the walkers return is what they return on the two parts |
| FrameCodec.SlicesTile | benchmarks/compare_h2.py:301-302 | slices of any size join to the wire, and none is empty or too long |
| FrameCodec.SlicesAreFull | benchmarks/compare_h2.py:301-302 | every slice but the last has exactly the read size |
| FrameCodec.ReadsAreOneParse | benchmarks/compare_h2.py:301-302 | a reader that keeps partial frames finds, over any reads, the frames of the whole wire |
| FrameCodec.ReadSizeDoesNotMatter | benchmarks/compare_h2.py:182-183 | for every slice size the written frames come back, in order and complete |
| MarkedTable.ReplaceKeepsSurroundings | benchmarks/render_results.py:81-87 | text before and after the markers stays, and between them is a newline and the table |
| MarkedTable.ReplaceFailsExactly | benchmarks/render_results.py:83-86 | it fails if and only if no end marker follows a start marker |
| MarkedTable.TableIsReplaced | benchmarks/render_results.py:81-87 | with the two markers of the file: text before and after them stays, and between them is a newline and the table |
| MarkedTable.TableFailsExactly | benchmarks/render_results.py:83-86 | it fails if and only if no `benchmark-table:end` marker follows a `benchmark-table:start` marker |
| MarkedTable.FirstOccurrenceIsStable | benchmarks/render_results.py:83-84 | the first occurrence of a marker depends only on the text up to its end |
| MarkedTable.TableHidesNoEnd | benchmarks/render_results.py:84-87 | a table without the end marker cannot move the marker that follows it |
| MarkedTable.OverwriteLaw | benchmarks/render_results.py:81-87 | replacing twice equals replacing once if and only if the first table does not contain the end marker |
| MarkedTable.EndMarkerSurvives | benchmarks/render_results.py:81-87 | a table that is the end marker is such a table |

## Left out

- The code of `H2Connection` and of `ngh2.Connection`: their part of the exchange is the contract in `Http2.dfy`, `Flush.Schedules` and `NativeFlow.MayTake`; of `src/ngh2/_core.pyx` only the send queue is modelled, in `Bodies.dfy`. Header fields, HPACK, SETTINGS, priorities, content-length checks, the limit on concurrent streams and running out of stream identifiers are not part of this model.
- The handshake: the model starts after the constructor's first pump, with every window at `Scenario.window` or 65535; raising a window to less than 65535, which the h2 library refuses, is not modelled.
- Read slices inside the exchange: a slice is an arbitrary non-empty group of whole frames, and slices that complete no frame, which have no effect, are skipped; `FrameCodec.ReadSizeDoesNotMatter` relates byte slices to frames.
- Padding: no frame is padded, so the flow-controlled length of a DATA frame is the length of its data.
- Timing and order inside the ngh2 framer: which stream is served first, and how bodies are cut, is left open by `Flush.Schedules`.
- The `pending` dict is kept as its entries in insertion order; the iteration order of the `ready` sets is arbitrary, as in Python.
- The order of the calls within one pair `send_response`/`send_data`, and what they send: response contents, logging and transport handling of the two servers and the client.
- Upload.DrainTail: covers the second loop only when it ends, because otherwise the source loops for ever; `Upload.DrainTurns` runs any number of its turns, and `Upload.TailDrainsExactlyWhenCovered` says when it ends.
- Upload.TransferData: one stream carries the upload, so the stream window and the connection window are one window; frame sizes are arbitrary.
- H2SpecServer.TrackersAgree: events that the library publishes only while it receives (requests, ends of bodies, trailers) are not admitted after the output, where the input's events have been taken already; ConnectionClosed and GOAWAY, after which the adapter stops, are not admitted in the input (`H2SpecServer.InputsAgreeWhenDrained` covers the former for one batch). That a batch of input with ConnectionClosed has a request ready cannot happen (src/ngh2/_core.pyx:1494-1508).
- FrameCodec.GoawayStreamIds: a GOAWAY payload shorter than four octets makes the walker read into the next frame, as the code does; the round trip and the distribution of the identifiers require four octets.
- Sockets, TLS, asyncio, argument parsing, the benchmark's timing and the rest of the library's Python surface (`events.pyx`, `enums.py`, `config.py`, `types.py`).
