/** What a stream guarantees over every interleaving of its producer, its writer and the
    hangup poll. */
module StreamTheorems {
  import opened ChunkedCoding
  import opened StreamProtocol
  import opened StreamSafety

  ghost predicate ValidRun(s: Stream, run: seq<Action>)
    decreases |run|
  {
    run == [] || (Sane(s) && Enabled(s, run[0]) && ValidRun(Apply(s, run[0]), run[1..]))
  }

  ghost function Final(s: Stream, run: seq<Action>): Stream
    requires ValidRun(s, run)
    decreases |run|
  {
    if run == [] then s else Final(Apply(s, run[0]), run[1..])
  }

  /** One run after another is a run. */
  lemma {:induction false} RunConcat(s: Stream, first: seq<Action>, second: seq<Action>)
    requires ValidRun(s, first) && ValidRun(Final(s, first), second)
    ensures ValidRun(s, first + second) && Final(s, first + second) == Final(Final(s, first), second)
    decreases |first|
  {
    if first == [] {
      assert first + second == second;
    } else {
      assert (first + second)[1..] == first[1..] + second;
      RunConcat(Apply(s, first[0]), first[1..], second);
    }
  }

  lemma StartInv(header: seq<Byte>, ring: seq<Byte>)
    requires ring != []
    ensures Inv(Start(header, ring))
  {
    assert header != [] ==> header[..0] == [];
  }

  lemma {:induction false} RunInv(s: Stream, run: seq<Action>)
    requires Inv(s) && ValidRun(s, run)
    ensures Inv(Final(s, run))
    decreases |run|
  {
    if run != [] {
      StepInv(s, run[0]);
      RunInv(Apply(s, run[0]), run[1..]);
    }
  }

  // ------------------------------------------------------------ the client's view

  /** The body bytes are a proper prefix of some terminated stream of non-empty chunks. */
  ghost predicate Truncated(body: seq<Byte>) {
    exists chunks: seq<seq<Byte>> :: NonEmpty(chunks) && body < Encode(chunks) + TERMINATOR
  }

  lemma TruncatedIsIncomplete(body: seq<Byte>)
    requires Truncated(body)
    ensures Parse(body) == Incomplete
  {
    var chunks: seq<seq<Byte>> :| NonEmpty(chunks) && body < Encode(chunks) + TERMINATOR;
    ProperPrefixIsIncomplete(chunks, body);
  }

  lemma PartOfTerminator(chunks: seq<seq<Byte>>, partial: seq<Byte>)
    requires NonEmpty(chunks) && partial < TERMINATOR
    ensures Truncated(Encode(chunks) + partial)
  {
    assert Encode(chunks) + partial < Encode(chunks) + TERMINATOR;
  }

  lemma PartOfFrame(chunks: seq<seq<Byte>>, current: seq<Byte>, partial: seq<Byte>)
    requires NonEmpty(chunks) && current != [] && partial <= Frame(current)
    ensures Truncated(Encode(chunks) + partial)
  {
    var more := chunks + [current];
    EncodeAppend(chunks, current);
    assert Encode(chunks) + partial < Encode(chunks) + Frame(current) + TERMINATOR;
    assert NonEmpty(more) && Encode(chunks) + partial < Encode(more) + TERMINATOR;
  }

  predicate HeaderOut(s: Stream) {
    !s.phase.Header? && !s.out.headerCut
  }

  /** What is on the wire, and what it means that the last chunk is out. */
  lemma OnTheWire(s: Stream)
    requires Inv(s)
    ensures if HeaderOut(s) then s.out.wire == s.header + (Encode(s.out.chunks) + s.out.partial) else s.out.wire < s.header
    ensures Terminated(s) ==> HeaderOut(s) && s.producerDone && s.q.queued == 0
    ensures Terminated(s) ==> s.out.partial == TERMINATOR && Concat(s.out.chunks) == s.q.accepted && NonEmpty(s.out.chunks)
  {
    hide Frame, SpanInv, CutShort, StreamProtocol.Readable;
    if Terminated(s) {
      assert s.q.accepted[..s.q.sent] == s.q.accepted;
    }
  }

  /** In every state of the invariant, a client that applies the chunked coding to what it has
      received sees either an unfinished response or exactly the accepted bytes; it sees the
      latter if and only if the last chunk was written in full, and then the producer had
      finished and nothing was left in the ring. */
  lemma ClientView(s: Stream)
    requires Inv(s)
    ensures !(s.header <= s.out.wire) ==> s.out.wire < s.header && !Terminated(s)
    ensures s.header <= s.out.wire ==>
              Parse(s.out.wire[|s.header|..]) == if Terminated(s) then Complete(s.q.accepted, []) else Incomplete
    ensures Terminated(s) ==> s.producerDone && s.q.queued == 0
  {
    hide Inv, Terminated, Parse, Encode, Concat;
    OnTheWire(s);
    if HeaderOut(s) {
      var body := Encode(s.out.chunks) + s.out.partial;
      assert s.out.wire[|s.header|..] == body;
      if Terminated(s) {
        RoundTrip(s.out.chunks, []);
        assert body + [] == body;
      } else {
        UnfinishedBody(s);
        TruncatedIsIncomplete(body);
      }
    }
  }

  lemma UnfinishedBody(s: Stream)
    requires Inv(s) && !Terminated(s)
    ensures Truncated(Encode(s.out.chunks) + s.out.partial)
  {
    if s.phase.Writing? {
      PartOfFrame(s.out.chunks, s.out.current, s.out.partial);
    } else if s.out.partial < TERMINATOR {
      PartOfTerminator(s.out.chunks, s.out.partial);
    } else {
      PartOfFrame(s.out.chunks, s.out.current, s.out.partial);
    }
  }

  /** The whole-run statement: whatever the interleaving, the short writes and the failures. */
  lemma WireRefinement(header: seq<Byte>, ring: seq<Byte>, run: seq<Action>)
    requires ring != [] && ValidRun(Start(header, ring), run)
    ensures var s := Final(Start(header, ring), run);
      && s.q.taken <= |s.q.offered| && s.q.accepted == Concat(s.q.offered[..s.q.taken])
      && (header <= s.out.wire ==>
            Parse(s.out.wire[|header|..]) == if Terminated(s) then Complete(s.q.accepted, []) else Incomplete)
      && (Ended(s.phase) && !s.failed ==> Terminated(s))
      && s.q.queued <= s.q.peak <= |ring|
  {
    StartInv(header, ring);
    RunInv(Start(header, ring), run);
    KeepsShape(Start(header, ring), run);
    ClientView(Final(Start(header, ring), run));
  }

  lemma OfferKeepsShape(s: Stream, data: seq<Byte>, converted: bool)
    requires Sane(s)
    ensures Offer(s, data, converted).header == s.header && |Offer(s, data, converted).q.ring| == |s.q.ring|
  {
  }

  lemma StepKeepsShape(s: Stream, a: Action)
    requires Sane(s) && Enabled(s, a)
    ensures Apply(s, a).header == s.header && |Apply(s, a).q.ring| == |s.q.ring|
  {
    match a {
      case Enqueue(data, converted) => OfferKeepsShape(s, data, converted);
      case Write(n) =>
        var t := Apply(s, a);
        assert t.q == s.q;
      case _ =>
    }
  }

  lemma {:induction false} KeepsShape(s: Stream, run: seq<Action>)
    requires Inv(s) && ValidRun(s, run)
    ensures Final(s, run).header == s.header && |Final(s, run).q.ring| == |s.q.ring|
    decreases |run|
  {
    if run != [] {
      StepInv(s, run[0]);
      StepKeepsShape(s, run[0]);
      KeepsShape(Apply(s, run[0]), run[1..]);
    }
  }

  // ------------------------------------------------- bytes outside the critical section

  /** While the writer sends its span with the lock released, no step of anyone else changes a
      byte of it, the offset or the length: every write of the chunk reads the same message. */
  lemma SpanIsStable(s: Stream, a: Action)
    requires Inv(s) && Sane(s) && s.phase.Writing? && Enabled(s, a) && !IsWriterAction(a)
    ensures var t := Apply(s, a);
      && t.phase == s.phase && t.out == s.out
      && t.q.ring[s.phase.offset..s.phase.offset + s.phase.span] == s.q.ring[s.phase.offset..s.phase.offset + s.phase.span]
  {
    if a.Enqueue? && a.converted && !s.failed && !s.producerDone && Fits(s.q, a.data) {
      FillKeepsSpan(s.q.ring, s.q.head, s.q.queued, a.data, s.phase.span);
    }
  }

  lemma RefusedAfterDone(s: Stream, data: seq<Byte>, converted: bool)
    requires Sane(s) && s.producerDone
    ensures var q := Offer(s, data, converted).q;
      q.taken == s.q.taken && q.accepted == s.q.accepted && q.offered == s.q.offered + [data]
  {
  }

  /** Backpressure takes whole chunks: once one is refused every later one is, so what the
      stream accepted is a prefix of the chunks it was offered. */
  lemma RefusalIsForever(s: Stream, a: Action)
    requires Inv(s) && Sane(s) && Enabled(s, a) && s.q.taken < |s.q.offered|
    ensures Apply(s, a).q.taken == s.q.taken && Apply(s, a).q.accepted == s.q.accepted
    ensures s.q.offered <= Apply(s, a).q.offered
  {
    match a {
      case Enqueue(data, converted) => RefusedAfterDone(s, data, converted);
      case _ =>
        assert Apply(s, a).q.taken == s.q.taken;
    }
  }

  // ------------------------------------------------------------------ lifetime

  /** Nobody acts on a stream after both references are gone, and the descriptor is closed by
      the one writer before its reference goes. */
  lemma NoUseAfterFree(s: Stream, a: Action)
    requires Inv(s) && Sane(s) && Enabled(s, a)
    ensures s.refs > 0
    ensures s.refs == 1 && (a.WriterRelease? || a.ProducerRelease?) ==> Apply(s, a).refs == 0
    ensures Apply(s, a).refs == 0 ==> !Apply(s, a).producerHolds && Apply(s, a).phase.Released? && !Apply(s, a).fdOpen
    ensures a.Close? ==> s.fdOpen
    ensures !s.fdOpen ==> !Apply(s, a).fdOpen
  {
    hide QueueInv, SpanInv, WireInv, PartialInv, Message, Concat, Terminated, Fill, Span;
  }

  // ------------------------------------------------------------------ progress

  /** Steps the writer can still take once the producer is done, counted generously: each
      queued byte costs at most eight. */
  function Budget(s: Stream): nat
    requires Sane(s)
  {
    match s.phase
    case Header(sent) => |s.header| - sent + 8 * s.q.queued + 11
    case Parked(_) => 8 * s.q.queued + 11
    case Ready => 8 * s.q.queued + 10
    case Writing(offset, span, sent) => 8 * (s.q.queued - span) + 11 + (|Message(s.q, offset, span)| - sent)
    case Sampling => 9
    case Terminating(sent) => 8 - sent
    case Closing => 2
    case Closed => 1
    case Released => 0
  }

  lemma {:induction false} HexIsShort(n: nat)
    requires n > 0
    ensures |Hex(n)| <= n
  {
    if n >= 16 {
      HexIsShort(n / 16);
    }
  }

  lemma LookSpendsBudget(s: Stream)
    requires Inv(s) && Sane(s) && s.phase.Ready? && s.producerDone && Sane(Apply(s, Look))
    ensures Budget(Apply(s, Look)) < Budget(s) && Apply(s, Look).producerDone
  {
    if !s.failed && s.q.queued > 0 {
      HexIsShort(Span(s.q));
    }
  }

  lemma SendSpendsBudget(s: Stream, a: Action)
    requires Inv(s) && Sane(s) && Enabled(s, a) && (a.Write? || a.WriteFail? || a.Commit?) && Sane(Apply(s, a))
    ensures Budget(Apply(s, a)) < Budget(s)
    ensures s.producerDone ==> Apply(s, a).producerDone
  {
  }

  lemma RestSpendsBudget(s: Stream, a: Action)
    requires Inv(s) && Sane(s) && Enabled(s, a) && s.producerDone && Sane(Apply(s, a))
    requires IsWriterAction(a) && !a.Look? && !a.Write? && !a.WriteFail? && !a.Commit?
    ensures Budget(Apply(s, a)) < Budget(s)
    ensures Apply(s, a).producerDone
  {
    hide QueueInv, SpanInv, WireInv, PartialInv, Message, Concat, Terminated, Span;
  }

  lemma OthersSpendNothing(s: Stream, a: Action)
    requires Inv(s) && Sane(s) && Enabled(s, a) && s.producerDone && !IsWriterAction(a)
    ensures Apply(s, a).q.ring == s.q.ring && Apply(s, a).q.queued == s.q.queued && Apply(s, a).producerDone
    ensures Apply(s, a).header == s.header
    ensures Apply(s, a).phase == s.phase || (s.phase.Parked? && Apply(s, a).phase.Parked?)
  {
  }

  /** Once the producer is done, every writer step spends budget and nobody else adds any. */
  lemma StepSpendsBudget(s: Stream, a: Action)
    requires Inv(s) && Sane(s) && Enabled(s, a) && s.producerDone && Sane(Apply(s, a))
    ensures Apply(s, a).producerDone
    ensures if IsWriterAction(a) then Budget(Apply(s, a)) < Budget(s) else Budget(Apply(s, a)) <= Budget(s)
  {
    if a.Look? {
      LookSpendsBudget(s);
    } else if a.Write? || a.WriteFail? || a.Commit? {
      SendSpendsBudget(s, a);
    } else if IsWriterAction(a) {
      RestSpendsBudget(s, a);
    } else {
      OthersSpendNothing(s, a);
    }
  }

  /** The writer is never stuck: short of having released the stream it can always step, except
      while parked on an empty ring that somebody still feeds; and then no wake-up was lost. */
  lemma WriterIsNeverStuck(s: Stream) returns (a: Action)
    requires Inv(s) && Sane(s) && !s.phase.Released?
    requires s.phase == Parked(false) ==> s.producerDone || s.failed || s.q.queued > 0
    ensures IsWriterAction(a) && Enabled(s, a) && s.phase != Parked(false)
  {
    match s.phase {
      case Header(_) => a := HeaderWrite(1);
      case Ready => a := Look;
      case Parked(_) => a := Wake;
      case Writing(offset, span, sent) =>
        a := if sent < |Message(s.q, offset, span)| then Write(1) else Commit;
      case Sampling => a := Sample;
      case Terminating(_) => a := TermWrite(1);
      case Closing => a := Close;
      case Closed => a := WriterRelease;
    }
  }

  ghost function WriterSteps(run: seq<Action>): nat {
    if run == [] then 0 else (if IsWriterAction(run[0]) then 1 else 0) + WriterSteps(run[1..])
  }

  /** A finished or failed stream is released after a bounded number of writer steps, however
      they interleave with everybody else's. */
  lemma {:induction false} ShutdownIsBounded(s: Stream, run: seq<Action>)
    requires Inv(s) && Sane(s) && s.producerDone && ValidRun(s, run)
    ensures WriterSteps(run) <= Budget(s)
    decreases |run|
  {
    if run != [] {
      StepInv(s, run[0]);
      InvSane(Apply(s, run[0]));
      StepSpendsBudget(s, run[0]);
      ShutdownIsBounded(Apply(s, run[0]), run[1..]);
    }
  }
}
