/** One streaming response: a producer that fills a bounded byte ring, a detached writer that
    drains it to the socket, and a poller that may declare the peer gone.

    The protocol is a transition system. Every critical section is one atomic step, every
    successful or failed socket write is one step, and the writer reads the ring outside the
    lock: the bytes of a write are the ring's bytes at the moment of that write. A write may be
    short by any amount; an interrupted write changes nothing and is not a step.
  */
module StreamProtocol {
  import opened ChunkedCoding

  datatype Errno = NoErrno | Epipe | Econnreset | Enotconn | Eshutdown | Eagain | Enomem | OtherErrno(code: int)

  /** Where the writer thread is. */
  datatype Phase =
    | Header(sent: nat)                              // sending the response header
    | Ready                                          // about to take the lock
    | Parked(woken: bool)                            // in the condition wait
    | Writing(offset: nat, span: nat, sent: nat)     // sending one chunk, lock released
    | Sampling                                       // left the loop, about to read `failed`
    | Terminating(sent: nat)                         // sending the last chunk
    | Closing
    | Closed
    | Released                                       // dropped its reference

  /** The byte ring and its counters. `accepted` is the data of every accepted enqueue,
      `offered` that of every enqueue, of which the first `taken` were accepted. */
  datatype Queue = Queue(
    ring: seq<Byte>,
    head: nat,
    queued: nat,
    peak: nat,
    sent: nat,
    enqueuedChunks: nat,
    accepted: seq<Byte>,
    offered: seq<seq<Byte>>,
    taken: nat)

  /** What the socket took: `wire` is all of it, `chunks` the data of the chunks written
      completely, `current` the data of the chunk begun last and `partial` the bytes sent of
      the message in progress. */
  datatype Output = Output(
    wire: seq<Byte>,
    headerCut: bool,
    chunks: seq<seq<Byte>>,
    current: seq<Byte>,
    partial: seq<Byte>)

  datatype Stream = Stream(
    header: seq<Byte>,
    q: Queue,
    out: Output,
    phase: Phase,
    producerDone: bool,
    failed: bool,
    failureErrno: Errno,
    dead: bool,
    failedEnqueues: nat,
    refs: int,
    fdOpen: bool,
    producerHolds: bool)

  function Start(header: seq<Byte>, ring: seq<Byte>): Stream {
    Stream(header, Queue(ring, 0, 0, 0, 0, 0, [], [], 0), Output([], false, [], [], []),
           if header == [] then Ready else Header(0), false, false, NoErrno, false, 0, 2, true, true)
  }

  // ------------------------------------------------------------------ the ring

  /** `x % cap` for the range the ring uses. */
  function Wrap(x: nat, cap: nat): nat
    requires x < 2 * cap
  {
    if x < cap then x else x - cap
  }

  /** The queued bytes, oldest first. */
  function Readable(ring: seq<Byte>, head: nat, queued: nat): (r: seq<Byte>)
    requires head < |ring| && queued <= |ring|
    ensures |r| == queued
  {
    if head + queued <= |ring| then ring[head..head + queued]
    else ring[head..] + ring[..head + queued - |ring|]
  }

  function Blit(ring: seq<Byte>, at: nat, data: seq<Byte>): (r: seq<Byte>)
    requires at + |data| <= |ring|
    ensures |r| == |ring|
  {
    ring[..at] + data + ring[at + |data|..]
  }

  function Min(a: nat, b: nat): nat { if a < b then a else b }

  /** The two copies of an enqueue: up to the end of the ring, then from its start. */
  function Fill(ring: seq<Byte>, head: nat, queued: nat, data: seq<Byte>): (r: seq<Byte>)
    requires head < |ring| && queued + |data| <= |ring|
    ensures |r| == |ring|
  {
    var tail := Wrap(head + queued, |ring|);
    var first := Min(|data|, |ring| - tail);
    Blit(Blit(ring, tail, data[..first]), 0, data[first..])
  }

  /** The contiguous span the writer may take: a wrap becomes a second chunk. */
  function Span(q: Queue): nat
    requires q.head < |q.ring|
  {
    Min(q.queued, |q.ring| - q.head)
  }

  predicate Fits(q: Queue, data: seq<Byte>) {
    q.queued + |data| <= |q.ring|
  }

  function Push(q: Queue, data: seq<Byte>): Queue
    requires q.head < |q.ring| && Fits(q, data)
  {
    var queued := q.queued + |data|;
    q.(ring := Fill(q.ring, q.head, q.queued, data),
       queued := queued,
       peak := if queued > q.peak then queued else q.peak,
       enqueuedChunks := q.enqueuedChunks + 1,
       accepted := q.accepted + data,
       offered := q.offered + [data],
       taken := q.taken + 1)
  }

  function Drop(q: Queue, span: nat): Queue
    requires q.head < |q.ring| && span <= q.queued && q.head + span <= |q.ring|
  {
    q.(head := Wrap(q.head + span, |q.ring|), queued := q.queued - span, sent := q.sent + span)
  }

  // ------------------------------------------------------------------- actions

  datatype Action =
    // the writer
    | HeaderWrite(n: nat) | HeaderFail(err: Errno)
    | Look | Wake
    | Write(n: nat) | WriteFail(err: Errno) | Commit
    | Sample
    | TermWrite(n: nat) | TermFail(err: Errno)
    | Close | WriterRelease
    // the producer, or whoever holds its reference
    | Enqueue(data: seq<Byte>, converted: bool)
    | DropDead | DropNoMemory
    | PollPeer(hangup: bool)
    | Finish | ProducerRelease

  predicate IsWriterAction(a: Action) {
    a.HeaderWrite? || a.HeaderFail? || a.Look? || a.Wake? || a.Write? || a.WriteFail? || a.Commit? ||
    a.Sample? || a.TermWrite? || a.TermFail? || a.Close? || a.WriterRelease?
  }

  /** A chunk's message, as the ring holds its data now. */
  function Message(q: Queue, offset: nat, span: nat): seq<Byte>
    requires offset + span <= |q.ring|
  {
    SizeLine(span) + q.ring[offset..offset + span] + CRLF
  }

  predicate Sane(s: Stream) {
    && s.q.head < |s.q.ring| && s.q.queued <= |s.q.ring| && s.q.sent + s.q.queued <= |s.q.accepted|
    && (s.phase.Header? ==> s.phase.sent < |s.header|)
    && (s.phase.Writing? ==> s.phase.offset == s.q.head && s.phase.span <= Span(s.q)
                             && s.phase.sent <= |Message(s.q, s.phase.offset, s.phase.span)|)
    && (s.phase.Terminating? ==> s.phase.sent < |TERMINATOR|)
  }

  predicate Enabled(s: Stream, a: Action)
    requires Sane(s)
  {
    match a
    case HeaderWrite(n) => s.phase.Header? && 1 <= n <= |s.header| - s.phase.sent
    case HeaderFail(_) => s.phase.Header?
    case Look => s.phase.Ready?
    case Wake => s.phase.Parked?
    case Write(n) => s.phase.Writing? && 1 <= n <= |Message(s.q, s.phase.offset, s.phase.span)| - s.phase.sent
    case WriteFail(_) => s.phase.Writing? && s.phase.sent < |Message(s.q, s.phase.offset, s.phase.span)|
    case Commit => s.phase.Writing? && s.phase.sent == |Message(s.q, s.phase.offset, s.phase.span)|
    case Sample => s.phase.Sampling?
    case TermWrite(n) => s.phase.Terminating? && 1 <= n <= |TERMINATOR| - s.phase.sent
    case TermFail(_) => s.phase.Terminating?
    case Close => s.phase.Closing?
    case WriterRelease => s.phase.Closed?
    case Enqueue(data, _) => s.producerHolds && data != []
    case DropDead => s.producerHolds && s.dead
    case DropNoMemory => s.producerHolds
    case PollPeer(_) => s.producerHolds
    case Finish => s.producerHolds
    case ProducerRelease => s.producerHolds
  }

  /** A signal or broadcast reaches the writer if it is waiting. */
  function Notify(p: Phase): Phase {
    if p.Parked? then Parked(true) else p
  }

  function MarkFailed(s: Stream, err: Errno): Stream {
    s.(failed := true,
       failureErrno := if s.failed then s.failureErrno else err,
       dead := true,
       producerDone := true,
       phase := Notify(s.phase))
  }

  /** An enqueue that was not accepted: it is remembered as offered and counted. */
  function Refuse(s: Stream, data: seq<Byte>): Stream {
    s.(q := s.q.(offered := s.q.offered + [data]), failedEnqueues := s.failedEnqueues + 1)
  }

  /** `stream_out_enqueue` for data converted to PCM16 (`converted`), or whose conversion
      buffer could not be allocated. */
  function Offer(s: Stream, data: seq<Byte>, converted: bool): Stream
    requires Sane(s)
  {
    if !converted then MarkFailed(Refuse(s, data), Enomem)
    else if s.failed || s.producerDone then Refuse(s, data)
    else if !Fits(s.q, data) then MarkFailed(Refuse(s, data), NoErrno)
    else s.(q := Push(s.q, data), phase := Notify(s.phase))
  }

  /** The top of the writer's loop, under the lock. */
  function LookOnce(s: Stream): Stream
    requires Sane(s)
  {
    if s.q.queued == 0 && !s.producerDone && !s.failed then s.(phase := Parked(false))
    else if s.failed || s.q.queued == 0 then s.(phase := Sampling)
    else
      s.(phase := Writing(s.q.head, Span(s.q), 0),
         out := s.out.(current := s.q.accepted[s.q.sent..s.q.sent + Span(s.q)]))
  }

  function Sent(o: Output, bytes: seq<Byte>): Output {
    o.(wire := o.wire + bytes, partial := o.partial + bytes)
  }

  function Apply(s: Stream, a: Action): Stream
    requires Sane(s) && Enabled(s, a)
  {
    match a
    case HeaderWrite(n) =>
      var sent := s.phase.sent + n;
      s.(out := s.out.(wire := s.out.wire + s.header[s.phase.sent..sent]),
         phase := if sent == |s.header| then Ready else Header(sent))
    case HeaderFail(err) => MarkFailed(s.(out := s.out.(headerCut := true), phase := Ready), err)
    case Look => LookOnce(s)
    case Wake => s.(phase := Ready)
    case Write(n) =>
      var k := s.phase.sent;
      s.(out := Sent(s.out, Message(s.q, s.phase.offset, s.phase.span)[k..k + n]),
         phase := s.phase.(sent := k + n))
    case WriteFail(err) => MarkFailed(s.(phase := Sampling), err)
    case Commit =>
      s.(q := Drop(s.q, s.phase.span),
         out := s.out.(chunks := s.out.chunks + [s.out.current], partial := []),
         phase := Ready)
    case Sample => s.(phase := if s.failed then Closing else Terminating(0))
    case TermWrite(n) =>
      var sent := s.phase.sent + n;
      s.(out := Sent(s.out, TERMINATOR[s.phase.sent..sent]),
         phase := if sent == |TERMINATOR| then Closing else Terminating(sent))
    case TermFail(err) => MarkFailed(s.(phase := Closing), err)
    case Close => s.(phase := Closed, fdOpen := false)
    case WriterRelease => s.(phase := Released, refs := s.refs - 1)
    case Enqueue(data, converted) => Offer(s, data, converted)
    case DropDead => s.(failedEnqueues := s.failedEnqueues + 1)
    case DropNoMemory => MarkFailed(s.(failedEnqueues := s.failedEnqueues + 1), Enomem)
    case PollPeer(hangup) => if !s.failed && s.fdOpen && hangup then MarkFailed(s, Epipe) else s
    case Finish => s.(producerDone := true, phase := Notify(s.phase))
    case ProducerRelease => s.(producerHolds := false, refs := s.refs - 1)
  }

  // ----------------------------------------------------------------- invariant

  /** The ring holds exactly the accepted bytes that were not handed back yet. */
  ghost predicate QueueInv(q: Queue) {
    && q.head < |q.ring|
    && q.queued <= q.peak <= |q.ring|
    && q.sent + q.queued == |q.accepted|
    && Readable(q.ring, q.head, q.queued) == q.accepted[q.sent..]
    && q.taken <= |q.offered|
    && q.accepted == Concat(q.offered[..q.taken])
  }

  ghost predicate FlagInv(s: Stream) {
    && (s.failed ==> s.producerDone)
    && s.dead == s.failed
    && s.refs == (if s.producerHolds then 1 else 0) + (if s.phase.Released? then 0 else 1)
    && s.fdOpen == !(s.phase.Closed? || s.phase.Released?)
    && (s.q.taken < |s.q.offered| ==> s.producerDone)
    && (s.phase == Parked(false) ==> s.q.queued == 0 && !s.producerDone && !s.failed)
    && (s.phase.Sampling? && !s.failed ==> s.producerDone && s.q.queued == 0)
    && (s.phase.Terminating? ==> s.producerDone && s.q.queued == 0)
  }

  /** What the writer holds of the ring while it writes outside the lock. */
  ghost predicate SpanInv(q: Queue, o: Output, p: Phase) {
    p.Writing? ==>
      && p.offset == q.head
      && 0 < p.span <= q.queued
      && p.offset + p.span <= |q.ring|
      && q.ring[p.offset..p.offset + p.span] == o.current
      && q.sent + p.span <= |q.accepted|
      && o.current == q.accepted[q.sent..q.sent + p.span]
  }

  predicate Ended(p: Phase) {
    p.Closing? || p.Closed? || p.Released?
  }

  /** A message cut short: nothing of it, part of a chunk of data, or part of the last chunk. */
  ghost predicate CutShort(o: Output) {
    || o.partial == []
    || (o.current != [] && o.partial < Frame(o.current))
    || o.partial < TERMINATOR
  }

  /** The chunks written so far are the bytes handed back, and the wire is the header, those
      chunks, and a part of the message in progress. */
  ghost predicate WireInv(header: seq<Byte>, o: Output, p: Phase) {
    && NonEmpty(o.chunks)
    && (p.Header? ==> p.sent < |header| && o == Output(header[..p.sent], false, [], [], []))
    && (o.headerCut ==> o.wire < header && o.chunks == [] && o.partial == [] && (p.Ready? || p.Sampling? || Ended(p)))
    && (!p.Header? && !o.headerCut ==> o.wire == header + Encode(o.chunks) + o.partial)
  }

  ghost predicate PartialInv(o: Output, p: Phase, failed: bool) {
    && (o.headerCut ==> failed)
    && (p.Ready? || p.Parked? ==> o.partial == [])
    && (p.Writing? ==> p.sent <= |Frame(o.current)| && o.partial == Frame(o.current)[..p.sent])
    && (p.Sampling? ==> if failed then CutShort(o) else o.partial == [])
    && (p.Terminating? ==> p.sent < |TERMINATOR| && o.partial == TERMINATOR[..p.sent])
    && (Ended(p) ==> (o.partial == TERMINATOR && !o.headerCut) || (failed && CutShort(o)))
  }

  /** The last chunk has been written in full. */
  predicate Terminated(s: Stream) {
    Ended(s.phase) && s.out.partial == TERMINATOR
  }

  ghost predicate Inv(s: Stream) {
    && QueueInv(s.q)
    && FlagInv(s)
    && SpanInv(s.q, s.out, s.phase)
    && WireInv(s.header, s.out, s.phase)
    && PartialInv(s.out, s.phase, s.failed)
    && Concat(s.out.chunks) == s.q.accepted[..s.q.sent]
    && (Terminated(s) ==> s.producerDone && s.q.queued == 0)
  }

  lemma InvSane(s: Stream)
    requires Inv(s)
    ensures Sane(s)
    ensures s.phase.Writing? ==> Message(s.q, s.phase.offset, s.phase.span) == Frame(s.out.current)
  {
  }
}
