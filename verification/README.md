# A model of the streaming speech server

This project models, in Dafny 4.11, the parts of the server where correctness does not follow from
reading one function, and proves what they promise.

**Streaming.** `server/stream_out.c` gives each response a bounded byte ring, a detached writer that
reads it outside the lock, and two references; helper lanes can take delivery off the synthesis
thread. `StreamProtocol` is the transition system (a critical section or one socket write is a
step), `StreamSafety` its invariant, `StreamTheorems` and `StreamAcceptance` the results over all
runs, `StreamOut` the object updated in place, `StreamWriter` the writer thread. `ChunkedCoding` is
the chunked transfer coding and an independent receiver for it, after section 7.1 of RFC 9112; `Pcm`
is the samples as bytes and an independent listener. `DeliveryLane` is a lane, `Delivery` a lane with
its streams, `DeliveredWhole` what a complete response then holds, `DeliverLane` its linked lists.

**Jobs.** `JobProtocol`, `JobTheorems` and `SynthJob` are the job object of `server/main.c`:
reference count, descriptor claim, and the race between completion and timeout.

**Router.** `Router` is the state of the routing process of `server/prefork.c` and what each routine
does to it; `RouterAdmission` says when a connection is served, queued or refused, `RouterBooks`,
`RouterInvariants` and `RouterSafety` what all that keeps, `RouterTheorems`, `RouterCalls`,
`RouterLanguages` and `RouterLedger` what holds on every run. `WorkerState` and `RouterLoop` are the
process with its arrays, its poll set and its loops, `RouterService` its whole life.
`LingeringClose` is the refusal that does not reset, `Watchdog` the service cap.

**Codec.** `CausalConv`, `ConvByMatrix` and `Conv1d` are the causal convolution and its algorithms
on row-major buffers, `TransposedConv` the transposed one, `Impulses` what the two do to a signal.
`NanoCodec` is the decoder as a function of the codes with its causality, `NanoCodecWindow` how soon
it forgets, `NanoCodecDecode` the decoder buffer by buffer, `StreamedDecode` its use for a stream of
pieces. `ConvQ8`, `ConvQ8Run` and `ConvQ8Call` are the blocked int8 convolution, `Quantizers` its two
quantizers, `ConvQ8Error` how close it comes. `Sums` and `Pool` serve them; `Options` and
`Multiplying` serve several parts.

**Planning.** `Planning` has the bucket walk and the buffer plans, `Fleet` the division of
processors and languages among workers.

## Conventions

Clocks are arbitrary nondecreasing inputs; what sockets, polls and allocations answer is arbitrary.
Samples are reals and integer widths are written out where they matter. The router hands a
connection off, refuses it and makes room for it at most once each, so those outcomes are functions
of the connection. A field that exists only to state a property (the history of a run, the ticket
that numbers calls of `router_admit`, the place of a descriptor) is said to be one where it is
declared. A parallel loop runs its indices in an arbitrary order.

## Where code and comments differ

- `server/prefork.c:1462-1467` says that the head of the watchdog ring is always the oldest
  outstanding dispatch. It is not (`Watchdog.HeadIsNotAlwaysOldest`); `Watchdog.HeadIsOldestIff`
  says when it is. What the comment concludes, that an alarm is never false, holds
  (`RouterLedger.NeverAFalseAlarm`).
- `job_finish` (`server/main.c:567-577`) stores the result only when it is given an error text, and
  `sink_on_done` gives none (`server/main.c:821`, `838`): a synthesis that failed or was cancelled
  is answered as a success (`JobTheorems.FailureAnsweredAsSuccess`; exactly when:
  `JobTheorems.FailureReportedIff`).
- `res_layer` (`src/codec_nanocodec.c:117-214`) takes a failed convolution for a success when it was
  given no error buffer or one without room, and a success for a failure when the buffer was not
  empty (`NanoCodecDecode.ReportIsTrueIff`).
- `src/engine_magpie_ctx.c:31-32` counts six samples for the last convolution, which has three taps
  (`src/codec_nanocodec.c:548`) and reaches back two. The bound it arrives at, 25 frames, holds
  (`NanoCodecWindow.WindowIsExact`).
- With more workers than processors the slice of some worker is empty or negative
  (`Fleet.SlicesFitIff`).

## Model

| member | source | states |
|---|---|---|
| ChunkedCoding.RoundTrip | server/stream_out.c:199-217 | a client that decodes the chunked coding (section 7.1 of RFC 9112) gets back exactly the chunks written, for every sequence of non-empty chunks and whatever follows the last chunk |
| ChunkedCoding.ParseEncode | server/stream_out.c:199-217 | chunks already framed can be peeled off the front of any continuation, complete or not |
| ChunkedCoding.ProperPrefixIsIncomplete | server/stream_out.c:236-238 | every proper prefix of a terminated stream of chunks, cut anywhere, decodes as unfinished: a client can tell a truncated body |
| ChunkedCoding.VerdictIsFinal | server/stream_out.c:199-217 | more bytes never change what a client has already decoded as complete or as malformed |
| ChunkedCoding.HexLeads | server/stream_out.c:202-202 | a chunk size is written without a leading zero, so that no chunk reads as the last one |
| ChunkedCoding.SizeLineFits | server/stream_out.c:201-203 | the size line of any chunk of less than 16^k bytes has at most k digits, so the 32-byte buffer is never too short |
| Pcm.SampleIsHeard | server/stream_out.c:409-415 | a listener who reads the two bytes of a sample as a little-endian 16-bit number hears the sample, clamped to [-1, 1], times 32767 to within one step, no louder and of the same sign |
| Pcm.ChunksAreHeard | server/stream_out.c:409-437 | and hears every sample of every chunk, in order |
| Pcm.ConvertInto | server/stream_out.c:409-415 | the loop leaves in the buffer a number for each sample that a listener takes for that sample, and touches nothing behind |
| Pcm.MemoryIsConverted | server/stream_out.c:411-437 | that buffer, byte by byte, is the conversion the theorems speak of |
| StreamTheorems.WireRefinement | server/stream_out.c:251-322 | on every interleaving of producer, writer and hangup poll, with any short writes and failures: what the client decodes after the header is unfinished or exactly the accepted bytes, the latter if and only if the last chunk was written whole; accepted bytes are a whole-chunk prefix of those offered; a stream that ends without failure is terminated; peak and queued stay within the ring |
| StreamTheorems.ClientView | server/stream_out.c:251-322 | the same in every state of the invariant; the last chunk is out only when the producer had finished and the ring was empty |
| StreamTheorems.SpanIsStable | server/stream_out.c:279-284 | while the writer sends its span outside the lock, no enqueue, wrapping or not, and no poll, finish or release changes a byte of it, its offset or its length |
| StreamTheorems.RefusalIsForever | server/stream_out.c:418-445 | once one chunk is refused every later one is: backpressure keeps a prefix of the chunks offered |
| StreamTheorems.NoUseAfterFree | server/stream_out.c:230-234 | no step is possible after both references are gone, and the descriptor is closed by the one writer, once, before the last reference goes |
| StreamTheorems.WriterIsNeverStuck | server/stream_out.c:271-277 | the writer can always step unless it waits on an empty ring that is still being fed; no wake-up is lost |
| StreamTheorems.ShutdownIsBounded | server/stream_out.c:251-341 | once finished or failed, a stream is released within a number of writer steps bounded by what is queued, however they interleave |
| StreamSafety.StepInv | server/stream_out.c:251-445 | every critical section and every socket write keeps the invariant: accepted[sent..] is the readable ring, completed chunks concatenate to accepted[..sent], chunks are non-empty, `failed` implies `producer_done`, refs count the holders |
| StreamSafety.FillAppends | server/stream_out.c:433-439 | the one or two copies of an enqueue append exactly the data to the readable bytes |
| StreamSafety.FillKeepsSpan | server/stream_out.c:433-439 | and touch no byte that was readable, so not the span being written |
| StreamSafety.AdvanceReadable | server/stream_out.c:292-296 | advancing the head drops exactly the written span from the readable bytes |
| StreamOutImpl.WriteAllOrGone | server/stream_out.c:159-173 | under any schedule of short writes and interrupts: on success exactly the data went out, otherwise a proper prefix of it; it gives up at the first error or empty write the socket answers and at nothing else, with that error, and stops early only when the socket has no more answers |
| StreamOutImpl.WritevAllOrGone | server/stream_out.c:177-197 | the same for a gather list, the vector advanced in place, with the same cause of every outcome |
| StreamOutImpl.Advance | server/stream_out.c:185-194 | advancing the vector over a short write drops exactly the written bytes from its concatenation |
| StreamOutImpl.WriteChunk | server/stream_out.c:200-217 | one gather write and three sends emit the same: size line, data, CRLF, or a proper prefix of that; and in which portions, and which answer of the socket was the cause if not all of it went out |
| StreamOutImpl.StreamOut.Enqueue | server/stream_out.c:418-445 | with the converted bytes: accepted exactly when they are there, the stream neither failed nor was finished, and no more than the free bytes of the ring are needed; then appended whole and counted, else nothing is taken; and as the action of the protocol |
| StreamOutImpl.StreamOut.EnqueueSamples | server/stream_out.c:393-445 | the whole enqueue, its conversion buffer grown if need be: accepted exactly when there are samples and not too many, the buffer was long enough or there was memory, the stream takes chunks, and two bytes a sample fit; what is accepted sounds like the samples |
| StreamOutImpl.PeersAreTold | server/stream_out.c:464-541 | a peer is taken to be there exactly if poll and the peek say nothing, or bytes, or to ask again; a failed stream has lost its peer exactly if its first error was EPIPE, ECONNRESET, ENOTCONN or ESHUTDOWN |
| StreamAcceptance.AcceptedIff | server/stream_out.c:393-445 | in every reachable state a chunk is accepted, whole and last, if and only if it could be converted, the stream neither failed nor was finished, and unread bytes and chunk together fit the ring |
| StreamAcceptance.EverythingIsAcceptedIff | server/stream_out.c:251-445 | on every run everything offered is accepted and the stream has not failed if and only if no write failed, no hangup was seen, memory sufficed, each offer fitted beside what was unread, and nothing was offered after the end; then a complete response decodes to everything that was offered |
| StreamAcceptance.FirstFailureIsKept | server/stream_out.c:239-247 | a run fails if and only if something in it was a cause of failure, and is remembered to have failed for the first one |
| StreamAcceptance.LookTakesAll | server/stream_out.c:271-282 | a writer that finds bytes takes all of them, or all up to the end of the ring |
| StreamAcceptance.StatsAreTrue | server/stream_out.c:393-445 | on every run a stream reports as many chunks as it took, as many failures as it refused or its producer dropped, and as its peak the most that was ever unread |
| StreamOutImpl.StreamOut.NextSpan | server/stream_out.c:271-282 | the top of the writer loop is the protocol action: wait, leave, or take the contiguous span |
| StreamOutImpl.StreamOut.CommitSpan | server/stream_out.c:292-296 | a written span is handed back: head, queued and sent_bytes move together; a chunk that failed is not counted |
| StreamOutImpl.StreamOut.WriteFailed | server/stream_out.c:284-290 | a failed write is the protocol action: first errno kept, producer done, waiters woken |
| StreamOutImpl.StreamOut.PeerGone | server/stream_out.c:478-541 | the poll is the protocol action, and what it answers: the recorded reason once failed, closed descriptors are gone, a hangup fails the stream |
| StreamOutImpl.StreamOut.CloseFd | server/stream_out.c:318-322 | the descriptor is closed and retired in one critical section |
| StreamOutImpl.StreamOut.FinishStream | server/stream_out.c:543-549 | finishing is the protocol action |
| StreamOutImpl.StreamOut.Release | server/stream_out.c:230-234 | the last of the two references destroys the object, and only it |
| StreamWriter.WriterMain | server/stream_out.c:251-341 | the writer thread from the header to its last reference, on the object and the socket, against any script of the socket and of everybody else: what it does is a run of the protocol and the socket has exactly the bytes of that run; the run fails with exactly the errors the socket answered, in order; the thread has left, or is midway through a message with no answer of the socket left, or waits unwoken for a producer that has not finished; when it has left a stream that did not fail, the client decodes exactly the accepted bytes, and never a part of them as the whole |
| StreamWriter.WriteSpan | server/stream_out.c:271-297 | one turn of the loop, as the steps it takes: look and leave; look, what others do, and a wake-up; or look, the sends of one chunk, what others do meanwhile, and a commit or a failure with the error the socket gave. A commit has put the chunk of the bytes taken on the wire and handed them back; only a socket without answers stalls it |
| StreamWriter.SendChunk | server/stream_out.c:284-290 | one call of write_chunk is a run of write steps, one for each portion the socket took, that puts this prefix of the chunk on the wire, all of it exactly on success; it ends where the protocol commits, or where it fails with the error the socket answered; short of both the socket had no more answers |
| StreamWriter.WritesAreARun | server/stream_out.c:159-217 | any portions that add up to at most the chunk are valid write steps, and lead to the same state as one write of all of them |
| StreamWriter.AnyOrder | server/stream_out.c:279-292 | however the same sends and the same steps of anybody else are interleaved, every order is possible if one is, and all end in the same state |
| StreamWriter.SendsCommute | server/stream_out.c:279-292 | one send and one step of anybody else can be exchanged: both orders are possible and end in the same state |
| Delivery.DeliveryRefinesEnqueue | server/stream_out.c:572-622 | on every interleaving of producer, helper and writers: the helper offers each stream the chunks handed over, in order, with their contents at hand-over; what a stream accepted is the PCM of a whole-chunk prefix of them and sounds like it; a client that has decoded a complete response hears every sample handed over, in order; the close comes once, after the last chunk |
| DeliveredWhole.NothingIsMissing | server/stream_out.c:657-733 | on every interleaving, if a response is complete, or a stream was closed without having failed, every chunk the producer ever delivered was handed over, in order, none turned away, and the client of a complete response hears all of them: a chunk lost for want of memory is never a gap |
| DeliveredWhole.DoomedForGood | server/stream_out.c:299-322 | a stream that failed before its last chunk was begun never ends a response properly, whatever follows |
| Delivery.NothingIsLostOrStale | server/stream_out.c:657-733 | every chunk item is in exactly one of spare list, lane queue, helper batch, spent list or hand; everything queued belongs to a stream whose producer reference is still held; a parked helper has an empty queue |
| Delivery.CallsAreAllowed | server/stream_out.c:593-613 | the helper acts on a stream only while that stream still holds the producer reference |
| Delivery.MoveInv | server/stream_out.c:572-733 | every step of the lane and of every stream keeps the joint invariant |
| DeliveryLane.StepInv | server/stream_out.c:572-733 | every critical section of the lane keeps: items in one place, a close queued once behind its chunks, hand-over order, and no lost wake-up |
| DeliverLaneImpl.DeliverLane.TakeItem | server/stream_out.c:668-673 | following one pointer pops the first item of the spare list, or a new item is made; the four lists stay linked and share no item |
| DeliverLaneImpl.DeliverLane.FillItem | server/stream_out.c:674-701 | the item in hand holds a copy of the samples; one that cannot grow is linked in front of the spare list |
| DeliverLaneImpl.DeliverLane.AppendItem | server/stream_out.c:702-711 | two pointers link the item behind the tail, or at the head of an empty queue; a parked helper is woken |
| DeliverLaneImpl.DeliverLane.Deliver | server/stream_out.c:657-712 | a delivery hands the chunk over exactly when there is a spare item whose buffer is large enough or grows, or without spare items memory for a new one and its buffer; else it answers -1 and changes neither the queue nor any log |
| DeliverLaneImpl.DeliverLane.DeliverClose | server/stream_out.c:714-733 | the close item embedded in the stream, on no list until now, is linked behind its chunks; nothing is allocated |
| DeliverLaneImpl.DeliverLane.Turn | server/stream_out.c:575-620 | the spent list is spliced in front of the spare one through its tail pointer, and the queue becomes the batch by moving the head pointer |
| DeliverLaneImpl.Join | server/stream_out.c:616-619 | linking the last item of a list to the first of another makes one list of both, when they share no item |
| DeliverLaneImpl.DeliverLane.ServeChunk | server/stream_out.c:593-611 | a chunk item is offered to its stream and relinked behind the spent ones |
| DeliverLaneImpl.DeliverLane.ServeRelease | server/stream_out.c:594-600 | the next pointer of a close item is read before the release, after which its memory is gone and no list holds it |
| DeliverLaneImpl.DeliverLane.Perform | server/stream_out.c:572-733 | every step of a lane, in every reachable state, is performed by these pointer operations, so that what is proved of all runs of lanes is true of the linked lists |
| DeliverLaneImpl.DeliverLane.ServeBatch | server/stream_out.c:591-613 | a batch offers each stream exactly its chunks of the batch in order, closes exactly the streams whose close item it holds, and returns every chunk item |
| JobTheorems.ExactlyOnce | server/main.c:431-577 | on every interleaving of submitter, scheduler, shutdown drain and stream writer: the descriptor is claimed at most once and closed at most once, and exactly once when nobody is left to act; conn_done fires exactly once, whether or not the connection became a job; the job is freed; a warm-up closes nothing and gives back no slot |
| JobTheorems.EveryoneIsAnswered | server/main.c:431-577 | on every interleaving every close of a descriptor is that of somebody who has just answered the client, and when nobody is left to act there has been exactly one: no job is dropped with its client unanswered |
| JobTheorems.GivenUpIsNotRun | server/main.c:683-692 | on no run does a driver report for a job whose client had given up before the scheduler took it: it is not synthesized |
| JobTheorems.NoUseAfterFree | server/main.c:455-487 | whoever touches the job holds a reference or just dropped the last; two never free it |
| JobTheorems.ClosesOwnDescriptor | server/main.c:448-497 | a descriptor is closed only by its owner and only while open |
| JobTheorems.VerdictIsFinal | server/main.c:528-577 | the verdict of the submitter, a result or a timeout, is reached once and never changes, although `done` may still be set after `abandoned`; a result it acts on was published before |
| JobTheorems.RunsAreShort | server/main.c:431-577 | no run of a connection has more than 31 steps |
| JobTheorems.SomeoneCanMove | server/main.c:431-577 | a run that is not settled can be continued: nobody waits for ever |
| JobTheorems.FailureReportedIff | server/main.c:567-577 | a submitter that got a result is told of a failure exactly when there was one, if and only if the driver did not fail: the result is stored only together with an error text |
| JobTheorems.FailureAnsweredAsSuccess | server/main.c:821-838 | a run in which the driver fails and the submitter is answered with success |
| JobProtocol.StepInv | server/main.c:431-577 | every atomic step keeps reference counts, descriptor ownership, the counts of claims and closes, and the relation of done, abandoned and verdict |
| SynthJobImpl.SynthJob.constructor | server/main.c:431-446 | a new job holds one reference and the descriptor |
| SynthJobImpl.SynthJob.ClaimFd | server/main.c:448-453 | the descriptor goes to the first caller, -1 to everyone after |
| SynthJobImpl.SynthJob.RespondError | server/main.c:489-497 | answers and closes unless someone else has the descriptor |
| SynthJobImpl.SynthJob.Release | server/main.c:459-487 | the last reference closes an unanswered descriptor, gives the slot back unless it was a warm-up, and frees the job |
| SynthJobImpl.SynthJob.Wait | server/main.c:531-563 | whatever the wake-ups find: a result if and only if the first deciding one finds the job done, so that a completion that raced the timeout wins; abandoned and given up if and only if it finds only the deadline passed |
| SynthJobImpl.SynthJob.Finish | server/main.c:567-577 | publishes the job, stores the result only with an error text, and drops a reference |
| SynthJobImpl.JobQueue.Enqueue | server/main.c:499-526 | refused when full or stopping with nothing changed; otherwise last in the queue, with a reference of its own |
| SynthJobImpl.JobQueue.Pop | server/main.c:667-682 | the oldest job; none for a stopping scheduler, while the shutdown drain takes them all |
| RouterTheorems.EveryConnectionOnce | server/prefork.c:2048-2345 | on every run of the routing loop: each accepted connection is in exactly one of queue, classification set, lingering set, a worker or closed; accepted = dispatched + queued + pending + client_gone + refused for every reason but the service cap |
| RouterLedger.SlotsAreGivenBackOnce | server/prefork.c:2181-2217 | on every run each worker is charged between 0 and its slots, with one stamp each and room to spare; a live worker is charged exactly what it was handed less what it reported if and only if no report was more than it still owed, and after one that was, and was clamped, with more than that for as long as it lives |
| RouterTheorems.NobodyWaitsInVain | server/prefork.c:1646-1669 | at the top of every iteration no connection is queued while a live worker of its group has a free slot, and none has been queued for the deadline or longer |
| RouterTheorems.GroupsAreServedInOrder | server/prefork.c:1595-1669 | within a group connections are handed off in the order router_admit saw them, before any still queued, and only to a worker of that group |
| RouterLanguages.LanguagesAreKept | server/prefork.c:2261-2344 | on every run, whoever is handed to a group other than the default one named its language, and only who named a language nobody holds is refused for it |
| RouterLanguages.DecidedJoinsItsGroup | server/prefork.c:2272-2289 | a connection whose language is known joins that group: handed to a live worker of it, queued for it, or refused for capacity or a failed handoff |
| RouterAdmission.AdmitDecides | server/prefork.c:1594-1633 | said on workers and queue alone: if nobody of the group is queued and a live worker of it has a free slot, the least loaded of those gets the connection, or it is refused because the handoff failed; else, if the queue is unbounded or holds fewer of the group than the bound times its live workers, and there is memory, it is last in the queue; else, and only then, it is refused for capacity |
| RouterAdmission.DrainDecides | server/prefork.c:1646-1669 | a pass of the drain takes the oldest of the group: late, it is refused for that; else the least loaded free worker gets it; with none free it stays |
| RouterAdmission.ArrivalDecides | server/prefork.c:2298-2344 | with one group an arrival is admitted to it; else it is admitted to the group it names, refused if nobody holds its language, kept for two seconds while there is a place, or admitted to the default group |
| RouterAdmission.RouteDecides | server/prefork.c:2272-2289 | a decided connection is refused if nobody holds its language, else admitted to the group named or to the default one |
| RouterCalls.CallsAreAnswered | server/prefork.c:2048-2345 | on every run each call of router_admit was answered by what workers and queue allowed at that moment: the record shows the handoff to the least loaded free worker, the handoff that failed, or, where there was neither a free worker nor room behind, the refusal for capacity |
| RouterCalls.CapacityRefusalsAreTrue | server/prefork.c:1631-1632 | on every run each refusal for capacity is that of a call which found somebody of its group queued or no free worker of it, and no room behind |
| RouterCalls.HandoffsAreTrue | server/prefork.c:1576-1592 | on every run whoever was handed off could be, and whoever was refused for that could not |
| RouterAdmission.RefusalDecides | server/prefork.c:1517-1535 | a refused connection whose close could not be completed at once lingers for half a second, unless 256 do already; then it is closed by force and counted |
| RouterAdmission.AdmissionIsCounted | server/prefork.c:1594-1633 | the counters of handoffs, queued entries and refusals go up by what was recorded, the peak with the queue |
| RouterCalls.HungUpIsNotServed | server/prefork.c:2244-2255 | on every run, of the first 64 queued whoever poll reports gone is closed and in the hands of no worker, then or ever after |
| RouterCalls.HangupsAreSeen | server/prefork.c:2244-2255 | exactly those leave the queue, counted as gone and not as refused; the others, and everybody behind, keep their order |
| RouterCalls.DecidedAreRouted | server/prefork.c:2261-2290 | an iteration leaves in the classification set exactly who is still undecided and inside its time, and an arrival that found a place: it keeps nobody longer and gives up on nobody sooner |
| RouterCalls.LingeringIsBounded | server/prefork.c:2170-2179 | on every run no refused connection is kept longer than half a second |
| RouterCalls.LingerLeaves | server/prefork.c:2170-2179 | and none is closed before its time is up unless poll reported it and its step closed it: the pass ends exactly those |
| RouterTheorems.RefusalsAreHonest | server/prefork.c:1517-1535 | the shared page equals the refusals made, the counters of the router differ from it only in the service cap, and QUEUED_TOO_LONG is only told to one who did |
| RouterTheorems.ClassificationIsBounded | server/prefork.c:2261-2290 | nobody stays in the classification set past its budget |
| RouterTheorems.ShutdownHoldsNobody | server/prefork.c:2347-2387 | after shutdown queue, classification set and lingering set are empty and every accepted connection was handed off, refused or had hung up |
| RouterTheorems.AcceptPlaces | server/prefork.c:2298-2344 | a fresh connection gets the next number, is counted and ends in exactly one place |
| RouterTheorems.AcceptInv | server/prefork.c:2298-2344 | and leaves nobody waiting in vain |
| RouterInvariants.BoundedQueueNeverGrows | server/prefork.c:1609-1630 | with a bounded queue the array allocated at the start is long enough for whoever is let in: only an unbounded queue is ever grown |
| RouterSafety.DrainGroupInv | server/prefork.c:1646-1669 | draining one group ends, even when handoffs fail, with nobody of it late or servable, and leaves the other groups and their workers alone |
| RouterSafety.AdmitInv | server/prefork.c:1595-1633 | admission keeps order, slots, bounds and honest counters on each of its paths |
| RouterBooks.AdmitPlaces | server/prefork.c:1595-1633 | an admitted connection ends in exactly one place and is counted once |
| RouterBooks.RefusePlaces | server/prefork.c:1517-1535 | a refused connection lingers or is closed, is nowhere else, and is counted once |
| RouterBooks.DispatchPlaces | server/prefork.c:1576-1592 | a connection handed to a worker, or refused because that failed, is in one place and counted once |
| RouterBooks.SettleKeeps | server/prefork.c:2168-2293 | a whole pass of lingering closes, completions, watchdog, hangups, classification and drain loses and duplicates nobody |
| Router.GroupPick | server/prefork.c:1552-1560 | the least loaded live worker of the group with a free slot, the first of equals; none only if there is none |
| Router.GroupHead | server/prefork.c:1649-1652 | the oldest queued entry of the group |
| RouterLoop.RouterProcess.Pick | server/prefork.c:1552-1560 | the scan over the workers finds the one that function specifies |
| RouterLoop.RouterProcess.CountLive | server/prefork.c:1541-1547 | the scan counts the live workers of the group |
| RouterLoop.RouterProcess.CountQueued | server/prefork.c:1562-1566 | the scan counts the queued entries of the group |
| RouterLoop.RouterProcess.FindHead | server/prefork.c:1649-1652 | the scan finds the head of the group |
| RouterLoop.MoveDown | server/prefork.c:1568-1572 | the memmove takes out one entry and keeps the order of the others |
| RouterLoop.RouterProcess.Grow | server/prefork.c:1610-1620 | twice the room, the entries copied |
| RouterLoop.RouterProcess.LayOut | server/prefork.c:2049-2109 | one slot for each live worker, the listener, the first 64 queued clients, every lingering close and every unclassified connection, in order; the array is always long enough |
| RouterLoop.RouterProcess.AskPoll | server/prefork.c:2131-2131 | after poll each slot holds what was reported of the entry it stands for |
| RouterLoop.RouterProcess.RefuseFd | server/prefork.c:1517-1535 | in the arrays: both counters of the reason go up, and the connection is closed, put at the end of at most 256 lingering closes, or forced |
| RouterLoop.RouterProcess.DispatchTo | server/prefork.c:1576-1592 | on the worker object: its counters and its ring of stamps change and no other worker, or the handoff becomes a refusal |
| RouterLoop.RouterProcess.AdmitFd | server/prefork.c:1595-1633 | the routine on its arrays does what RouterAdmission.AdmitDecides says of the state: it scans, hands off, grows the queue or refuses, in place |
| RouterLoop.RouterProcess.DrainStep | server/prefork.c:1647-1667 | one turn of the drain loop: late entries refused, then one handed off, or the group is done |
| RouterLoop.RouterProcess.DrainAll | server/prefork.c:1646-1669 | the two nested loops are the drain of every group in turn, and end |
| RouterLoop.RouterProcess.LingerLoop | server/prefork.c:2170-2179 | walking backwards and moving the last entry into each gap, the loop finds at slot l_first + i what was polled of the connection at i, and drops exactly the closes that finish |
| RouterLoop.RouterProcess.CompletionLoop | server/prefork.c:2181-2217 | each live worker is read through its own slot at most once, whoever dies on the way: credited, clamped at zero, or declared dead |
| RouterLoop.RouterProcess.WatchLoop | server/prefork.c:2219-2242 | breaches are counted and stamped anew; no connection is refused |
| RouterLoop.RouterProcess.HangupLoop | server/prefork.c:2244-2255 | of the first 64 queued clients exactly those whose slot reported a hangup leave, although entries move down meanwhile |
| RouterLoop.RouterProcess.ClassifyLoop | server/prefork.c:2261-2290 | walking backwards and moving the last entry into each gap, the loop finds at slot p_first + i what was polled of the connection at i, visits each once and routes the decided ones |
| RouterLoop.RouterProcess.RunIteration | server/prefork.c:2048-2345 | with its poll set laid out, polled and consumed slot by slot, an iteration on the arrays does to each connection what poll reported of that connection |
| RouterLoop.RouterProcess.Run | server/prefork.c:2048-2345 | the loop itself, so that the theorems about runs are about it |
| RouterService.ServeUntilStopped | server/prefork.c:2048-2387 | from start to stop, whatever arrives and whatever fails: the three arrays are empty and the counters of the process account for every accepted connection |
| RouterLoop.RouterProcess.ShutDown | server/prefork.c:2347-2387 | the shutdown, in place |
| LingeringClose.Linger.SendRest | server/prefork.c:1219-1230 | exactly as much of the response is sent as the socket takes; it waits for more if and only if some is left, the socket would block and there is time |
| LingeringClose.Linger.DrainInput | server/prefork.c:1243-1259 | exactly what the client sends is read, up to the limit; it waits for more if and only if the limit is not reached, the socket would block and there is time |
| LingeringClose.Linger.Step | server/prefork.c:1218-1265 | closes with some of the response left if and only if the time is up or the peer is gone; with all of it and the end of the stream out, if and only if the time is up, the client stopped or is gone, or has sent 64 KiB; the end of the stream never precedes the response |
| RouterLedger.NeverAFalseAlarm | server/prefork.c:2226-2242 | on every run of the router, for every worker whose reports are true, whichever of its connections they are about: its head stamp is past the cap only if it still has a connection that was handed to it at least that long ago |
| RouterLedger.WhatIsCountedIsTrue | server/prefork.c:2226-2242 | and its count of breaches rises only if, after its reports, it still has such a connection |
| RouterLedger.BreachesAreCounted | server/prefork.c:2219-2242 | conversely none goes unseen: in each iteration every live worker whose head stamp is past the cap after its reports is counted once, on its own count and under the service cap, and nobody else is |
| RouterLedger.ReportsAreBelieved | server/prefork.c:2181-2217 | on every run a worker is alive until it closes its channel, and its count of completions is what it reported until then |
| RouterLedger.IterateTracks | server/prefork.c:2170-2345 | each iteration keeps the ledger of each worker: what was handed to it, what of that came back, and the stamps |
| Watchdog.NeverAFalseAlarm | server/prefork.c:2226-2242 | on every run of a single worker that is dealt connections and gives some back: its head stamp is past the cap only if a connection that old is still out |
| Watchdog.NoFalseAlarm | server/prefork.c:1462-1483 | and in every state of its invariant, by counting: the younger dispatches are too few to be all that is outstanding |
| Watchdog.HeadIsOldestIff | server/prefork.c:1462-1467 | the head stands for the oldest outstanding dispatch exactly when what came back is what was dealt first |
| Watchdog.HeadIsNotAlwaysOldest | server/prefork.c:1462-1467 | a run in which it does not, and an older connection passes the cap unseen |
| WorkerStates.WorkerState.Push | server/prefork.c:1473-1477 | appends a stamp, or drops it when the ring is full or missing |
| WorkerStates.WorkerState.Pop | server/prefork.c:1478-1483 | drops that many of the oldest stamps, or all |
| WorkerStates.WorkerState.Look | server/prefork.c:2228-2236 | a breach is counted once: its stamp becomes the time it was seen |
| Conv1d.Conv1dCausal | src/conv1d.c:408-609 | whichever algorithm it takes, with anything in the workspace and the cache, success means the output is the causal convolution; it fails only without a backend, memory, data, or for too large a kernel |
| Conv1d.AlgorithmsAgree | src/conv1d.c:483-608 | two buffers that hold the convolution are equal, so the algorithms agree |
| CausalConv.Direct | src/conv1d.c:595-607 | the quadruple loop computes the convolution |
| CausalConv.DirectAt | src/conv1d.c:597-605 | its two inner loops compute one sample |
| Impulses.EchoOf | src/conv1d.c:595-607 | what the convolution does to one sample: it comes back once for each tap, weighted, the last tap at once and each one before it one dilation later |
| Impulses.NoEcho | src/conv1d.c:595-607 | at no other time, so never before |
| Impulses.ConvAdds | src/conv1d.c:595-607 | and the convolution of a sum is the sum of the convolutions |
| Impulses.BiasAdds | src/conv1d.c:595-607 | with the bias added once |
| CausalConv.Sgemm | src/backend.c:950-967 | C += A * B on a column window of C and nothing else, or a failure that leaves C alone |
| CausalConv.SeedBias | src/conv1d.c:483-485 | the output starts as the bias of each channel |
| ConvByMatrix.Unfold | src/conv1d.c:502-514 | every cell of the columns is written, whatever was there before |
| ConvByMatrix.FillColumn | src/conv1d.c:504-513 | one row is the channel delayed by its tap, zeros first, and no other row changes |
| ConvByMatrix.ByColumns | src/conv1d.c:483-537 | bias, unfolded columns and one matrix product make the convolution; a failed product is reported, not shipped |
| ConvByMatrix.ByTaps | src/conv1d.c:545-593 | one shifted matrix product for each tap, packed afresh or cached, makes the convolution; taps that reach before the start are skipped |
| ConvByMatrix.PackTap | src/conv1d.c:562-570 | one tap of the weights as a matrix |
| ConvByMatrix.UnfoldByTime | src/conv1d.c:28-43 | each row is what the taps see at that time |
| ConvByMatrix.UnfoldedDot | src/conv1d.c:28-43 | so its product with a row of weights is the causal convolution of dilation one |
| Conv1d.TapCache.CachedTaps | src/conv1d.c:167-229 | the taps returned, found or packed now, are those of the weights; there are none exactly when the cache is off, a size is zero, or what is not in the cache yet is too large or finds no memory for itself or for one more entry; entries only accumulate |
| Conv1d.TapCache.Lookup | src/conv1d.c:175-183 | an entry of the same weights and sizes, if there is one |
| Conv1d.PackAll | src/conv1d.c:190-205 | all taps, one after the other |
| TransposedConv.ConvTransposeCausal | src/conv1d.c:648-670 | with the channels in any order, the scatter computes the gather definition: bias and the samples of the group no later than p / stride, each through the tap that lands on p |
| TransposedConv.ScatterChannel | src/conv1d.c:627-646 | a channel task computes its row and touches no other |
| TransposedConv.LateSamplesMissed | src/conv1d.c:638-643 | samples later than p / stride do not reach position p |
| Impulses.StretchOf | src/conv1d.c:627-646 | one sample becomes the kernel, laid down one stride later for each sample it is late, in each output channel of its group |
| Impulses.NotItsGroup | src/conv1d.c:627-646 | and nothing in the other groups |
| Impulses.ConvTAdds | src/conv1d.c:627-646 | and the transposed convolution of a sum is the sum of the two |
| TransposedConv.OutputLengthIs | src/conv1d.c:659-661 | the output length is length * stride, also in wrapping 64-bit arithmetic |
| NanoCodec.DecodePrefix | src/codec_nanocodec.c:444-583 | for every code sequence and every n, decoding the first n frames gives exactly the first 1024 n samples of the whole decode |
| NanoCodec.DecodeIsCausal | src/codec_nanocodec.c:444-583 | codes that agree on n frames decode alike for 1024 n samples |
| NanoCodec.StreamedSamplesAreFinal | src/codec_nanocodec.c:444-583 | samples already streamed never change as frames arrive |
| NanoCodec.ConvAgree | src/conv1d.c:595-607 | a causal convolution reads nothing later than its output |
| NanoCodec.ConvTAgree | src/conv1d.c:627-646 | nor does the transposed one, nor does it depend on the length |
| NanoCodec.ResAgree | src/codec_nanocodec.c:117-214 | nor the residual layer of three branches of three dilated blocks |
| NanoCodec.StagesAgree | src/codec_nanocodec.c:491-533 | nor the five stages, each stretching time by its rate |
| NanoCodec.ScaleIs | src/codec_nanocodec.c:491-491 | the rates 8, 8, 4, 2, 2 make 1024 samples a frame |
| NanoCodec.LatentIsTheCode | src/codec_nanocodec.c:457-475 | with the centring undone the four numbers of a code are its digits, below 8, 7, 6 and 6, and the code, below 2016, is a0 + 8 (a1 + 7 (a2 + 6 a3)) |
| NanoCodec.CodesAreToldApart | src/codec_nanocodec.c:457-475 | so different codes have different latents |
| NanoCodec.MutedLayer | src/codec_nanocodec.c:117-214 | a residual layer whose blocks add nothing is the identity: the branches are averaged, not added |
| NanoCodec.ActivationIs | src/codec_nanocodec.c:59-115 | the first half of the channels goes through snake; of the rest what is not negative passes, and a hundredth of what is |
| NanoCodec.AudioInRange | src/codec_nanocodec.c:555-558 | audio stays in [-1, 1] and what is in that range is not touched |
| NanoCodecWindow.WindowIsExact | src/engine_magpie_ctx.c:25-38 | a decoder started at any frame of any code sequence has, from its 25th frame on, exactly the samples of one that was started at the beginning |
| NanoCodecWindow.ConvAlike | src/conv1d.c:595-607 | because a causal convolution forgets what is longer ago than its kernel, dilated |
| NanoCodecWindow.ConvTAlike | src/conv1d.c:627-646 | a transposed one with taps for two strides what is more than one sample ago |
| NanoCodecWindow.ResAlike | src/codec_nanocodec.c:117-214 | a residual layer what is more than 120 samples ago |
| NanoCodecWindow.BranchReaches | src/codec_nanocodec.c:117-214 | its three branches reach back 24, 72 and 120 samples |
| NanoCodecWindow.StagesAlike | src/codec_nanocodec.c:491-533 | and the stages add these up, each at its own rate |
| NanoCodecWindow.BlurIs | src/engine_magpie_ctx.c:31-37 | to 25438 samples of the 25600 in 25 frames |
| StreamedDecode.DecodeAudio | src/engine_magpie_ctx.c:534-590 | a piece of a stream is decoded from its frames and at most 32 before them: what is returned are the samples of just those frames in the decode of everything, whatever follows; with memory it succeeds exactly when the frames are in the buffer |
| StreamedDecode.SuffixIsPiece | src/engine_magpie_ctx.c:542-555 | the samples kept of such a window are those of the whole decode |
| StreamedDecode.StreamIsTheDecode | src/engine_magpie_ctx.c:542-590 | the pieces of a stream, each decoded from what had been said by then, cut anywhere, are together the decode of the whole |
| StreamedDecode.WholeIsAPiece | src/engine_magpie_ctx.c:542-590 | which is the decode of all codes at once |
| StreamedDecode.CopyWindow | src/engine_magpie_ctx.c:564-573 | each codebook is copied from its own stretch of the buffer |
| NanoCodecDecode.DecodeCodes | src/codec_nanocodec.c:444-583 | given an empty error buffer with room for a text, the decode returns the audio of the codes or nothing; with a backend and memory it returns nothing if and only if there are no frames or the error buffer held a text already |
| NanoCodecDecode.RunStages | src/codec_nanocodec.c:489-533 | the stage loop with its rebinding of buffer, channels and length |
| NanoCodecDecode.RunStage | src/codec_nanocodec.c:492-532 | one stage: activation in place, transposed convolution, residual layer into a fresh buffer |
| NanoCodecDecode.ResLayerInto | src/codec_nanocodec.c:117-214 | when nothing failed the output is the mean of the branches; what it reports depends on the error text, not on the failure |
| NanoCodecDecode.ReportIsTrueIff | src/codec_nanocodec.c:205-213 | that report is true, failure or not, if and only if the caller gave an empty buffer with room for a text |
| NanoCodecDecode.BranchInto | src/codec_nanocodec.c:165-203 | a branch is three blocks accumulated in place |
| NanoCodecDecode.HalfSnakeInPlace | src/codec_nanocodec.c:59-115 | snake on the first half of the channels, leaky rectifier on the rest, in place |
| NanoCodecDecode.FillLatent | src/codec_nanocodec.c:463-475 | the buffer filled is the latent of the codes, whose digits NanoCodec.LatentIsTheCode gives |
| NanoCodecDecode.UpsampleInto | src/codec_nanocodec.c:494-516 | activation and transposed convolution of a stage |
| NanoCodecDecode.Finish | src/codec_nanocodec.c:534-558 | last activation, convolution to one channel, clip |
| ConvQ8Call.Run | src/convq8.c:574-746 | refused calls write nothing; otherwise every output element is the plain formula on the weights and the window given, rows and columns each through their own quantizer, and was written exactly once, for every thread count, row plan, batch width and order of the pool |
| ConvQ8Error.RunQuantized | src/convq8.c:574-746 | the call with the quantizers of the program: each output is bias plus the real convolution of the real weights and activations, to within 127 k times the step of its row times that of its column for each tap, and nothing else is written |
| ConvQ8Error.CellIsClose | src/convq8.c:513-543 | the same of the plain formula, for all weights and windows |
| ConvQ8Error.Dequantized | src/convq8.c:527-537 | a scaled integer dot product is exactly the sum of the products of the real numbers the codes stand for |
| ConvQ8Call.TakenIff | src/convq8.c:577-646 | which calls are taken, condition by condition, and which make no sense |
| ConvQ8Run.RunTasks | src/convq8.c:715-742 | row blocks of any size in any order cover each output element exactly once |
| ConvQ8Run.Task | src/convq8.c:546-564 | a row block in strips of 64 rows and batches of at most 4 columns computes its own rectangle |
| ConvQ8.Strip | src/convq8.c:513-543 | a strip sums every tap into its accumulators and writes its own cells |
| ConvQ8.ColumnInSpan | src/convq8.c:524-528 | every activation column a tap reads is below the span |
| ConvQ8Run.QuantizeAll | src/convq8.c:670-700 | the quantization tasks cover every column of the span |
| ConvQ8Run.QuantTask | src/convq8.c:475-488 | a task quantizes its own columns through its own slice of the gather buffer and changes no other |
| ConvQ8Run.SlicesAreOwn | src/convq8.c:686-695 | there are never more tasks than slices, so no two share one |
| ConvQ8Run.RowBlockIsEven | src/convq8.c:718-732 | row blocks have an even number of rows |
| ConvQ8Call.ProgramQuantizers | src/qmat.c:688-706 | the quantizers of weights and of activations give one code for each element, which is all that call asks of them |
| ConvQ8Call.Pack | src/convq8.c:211-249 | the packed rows are those of [taps][m][k], gathered from either layout |
| ConvQ8Call.TransposedPacksAlike | src/convq8.c:231-239 | a transposed copy of the weights packs to the same rows |
| ConvQ8Call.StartAndStep | src/convq8.c:235-238 | the start and step of the gather address the element meant |
| ConvQ8Call.DotFits | src/convq8.c:32-35 | with the two quantizers of the program and k at most 8192 no dot product leaves 32 bits |
| Quantizers.QuantizersDifferIff | src/qmat.c:688-706 | the quantizers of weights and of activations give the same codes to every vector and the same scale exactly to those that are not zero |
| Quantizers.WithinHalfAStep | src/qmat.c:827-845 | a code stands for its element to within half a step, for either quantizer |
| Pool.TasksPartition | src/convq8.c:475-480 | tasks of equal size over a range: every item in exactly one |
| Pool.NoMoreTasks | src/convq8.c:693-695 | rounding the size up never needs more tasks |
| Planning.WalkIsExact | server/main.c:1304-1325 | with every request stopping at its cap all run until the first event, and after event e exactly targets[e] do, for two polls, down to none |
| Planning.BucketWalkCaps | server/main.c:1304-1325 | the targets are count - 1, every smaller bucket descending, and 0, at most 66 of them; each cap belongs to the first event at or below its width |
| Planning.CapsAreOrdered | server/main.c:1318-1324 | caps never decrease and are at most 4 + 2 (buckets + 1) |
| Planning.FixedBuffersPlan | src/backend.c:332-352 | reserve and fit are the formulas over unbounded integers, for all 64-bit inputs |
| Planning.PlanIsTight | src/backend.c:332-352 | an allotment fits with the unsaturated reserve, and one row more would not |
| Planning.FixedBuffersRefit | src/backend.c:358-381 | margin and cap are the formulas over unbounded integers, clipped |
| Planning.RefitIsSafe | src/backend.c:358-381 | raising the cap above what is live never takes more than is free |
| Planning.SatAdd | src/backend.c:354-356 | the sum, or the largest word |
| Fleet.OrderCoreMajor | server/prefork.c:542-579 | fails only on an unreadable processor or without memory, changing nothing; else the processors are rearranged by cores in order of first occurrence, nobody lost or doubled |
| Fleet.CoresTogether | server/prefork.c:530-541 | all processors of one core stand together |
| Fleet.SlicesFitIff | server/prefork.c:1854-1858 | every worker has a slice of its own inside the machine if and only if there are no more workers than processors |
| Fleet.SlicesApart | server/prefork.c:945-945 | no two slices share a processor |
| Fleet.SlicesAreEven | server/prefork.c:945-945 | each worker has as many processors as there are for each, and fewer than one for each are left over |
| Fleet.AssignGroups | server/prefork.c:1713-1732 | the group of each worker: contiguous, everyone assigned, refused when there are more groups than workers |
| Fleet.GroupsAreEven | server/prefork.c:1724-1729 | no group is empty and none has two workers more than another |
| Fleet.LanguageMatch | server/prefork.c:753-769 | the first exact name; else, for two letters or more, the only name they begin; else none or ambiguous |
| Fleet.CiEqual | server/prefork.c:736-743 | equality up to letter case |
| Fleet.CiPrefix | server/prefork.c:745-751 | prefix up to letter case |
| Fleet.WorkerAcceptsWhatRouterSends | server/main.c:1547-1554 | whatever the router sends to a group, matching all names, the workers of that group accept, matching their one |
| Fleet.RouterSendsWhatWorkerAcceptsIff | server/prefork.c:753-769 | the converse holds exactly when no other name of the fleet is equal earlier or begins alike |

## Left out

- Rounding, and with it bit-identity: sums are over reals, so algorithms that add in different orders are equal here.
- `Snake` and the epilogue's rounding: Snake is an arbitrary pointwise function, and the quantizers are over reals.
- The device paths (CUDA, Metal), BNNS and vendor BLAS: the matrix product is its definition, the device convolution is taken as unavailable.
- `matmul_block` and the other CPU matrix paths of `src/backend.c`: the row-block partition is the one proved for the int8 row plan.
- `cq8_memo_get`'s fingerprint: packed weights are taken to be those of the weights given.
- The row sums of the unsigned activation encoding: dot products are exact integers here.
- `classify_language`, JSON and HTTP parsing: what a connection asks for is an arbitrary answer.
- Fork, pinning, signals, descriptor passing: a handoff succeeds or fails.
- The window counters, the in-flight integral, dumps, /health and /metrics.
- The timeout the router gives to `poll`: a call may return at any time.
- The loop's end when the last worker has died: its runs are stopped anywhere.
- The sample buffer of a delivery item as memory of its own: an item holds its samples as a value.
- The bounded descriptor queue between acceptor and HTTP threads (`queue_push`, `queue_pop`): a plain ring.
- `stream_out_start`'s allocation failures: a stream exists with a ring that is not empty.
- Failed allocations of the decoder's buffers: they are errors before any result.
- NaN samples, which the program clamps to -1: samples are reals.
- Missing tensors: every weight is present with its size.
- NanoCodecDecode.DecodeCodes: assumes that 1024 times the frames fits in a word, beyond which the buffer sizes of the program wrap.
- StreamedDecode.DecodeAudio: has the eight codebooks of the codec, and assumes that 1024 times the frames of the buffer fits in a word.
- TransposedConv.ConvTransposeCausal: assumes that length times stride fits in a word; `TransposedConv.OutputLengthIs` covers the wrapping length.
- DeliverLaneImpl.DeliverLane.Deliver: states one call with nobody in between; the interleavings are in `Delivery`.
