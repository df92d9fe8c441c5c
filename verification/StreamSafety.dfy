/** Safety of the stream protocol over every run: the ring is read consistently although the
    writer reads it unlocked, and the client can recover exactly the accepted bytes or see that
    the response is incomplete. */
module StreamSafety {
  import opened ChunkedCoding
  import opened StreamProtocol

  // ------------------------------------------------------------ ring lemmas

  lemma ReadableAt(ring: seq<Byte>, head: nat, queued: nat, i: nat)
    requires head < |ring| && queued <= |ring| && i < queued
    ensures Readable(ring, head, queued)[i] == ring[Wrap(head + i, |ring|)]
  {
  }

  lemma BlitAt(ring: seq<Byte>, at: nat, data: seq<Byte>, j: nat)
    requires at + |data| <= |ring| && j < |ring|
    ensures Blit(ring, at, data)[j] == if at <= j < at + |data| then data[j - at] else ring[j]
  {
  }

  /** Slot `head + i` of the ring after an enqueue: old bytes stay, new ones follow them. */
  lemma FillAt(ring: seq<Byte>, head: nat, queued: nat, data: seq<Byte>, i: nat)
    requires head < |ring| && queued + |data| <= |ring| && i < queued + |data|
    ensures Fill(ring, head, queued, data)[Wrap(head + i, |ring|)] ==
            if i < queued then ring[Wrap(head + i, |ring|)] else data[i - queued]
  {
    var tail := Wrap(head + queued, |ring|);
    var first := Min(|data|, |ring| - tail);
    var j := Wrap(head + i, |ring|);
    BlitAt(ring, tail, data[..first], j);
    BlitAt(Blit(ring, tail, data[..first]), 0, data[first..], j);
  }

  /** Enqueueing appends to what the writer can read. */
  lemma FillAppends(ring: seq<Byte>, head: nat, queued: nat, data: seq<Byte>)
    requires head < |ring| && queued + |data| <= |ring|
    ensures Readable(Fill(ring, head, queued, data), head, queued + |data|) == Readable(ring, head, queued) + data
  {
    var after := Readable(Fill(ring, head, queued, data), head, queued + |data|);
    var expected := Readable(ring, head, queued) + data;
    forall i | 0 <= i < |after| ensures after[i] == expected[i] {
      ReadableAt(Fill(ring, head, queued, data), head, queued + |data|, i);
      FillAt(ring, head, queued, data, i);
      if i < queued {
        ReadableAt(ring, head, queued, i);
      }
    }
  }

  /** The span a writer holds survives every enqueue, including one that wraps. */
  lemma FillKeepsSpan(ring: seq<Byte>, head: nat, queued: nat, data: seq<Byte>, span: nat)
    requires head < |ring| && queued + |data| <= |ring|
    requires span <= queued && head + span <= |ring|
    ensures Fill(ring, head, queued, data)[head..head + span] == ring[head..head + span]
  {
    var filled := Fill(ring, head, queued, data);
    forall j | head <= j < head + span ensures filled[j] == ring[j] {
      FillAt(ring, head, queued, data, j - head);
    }
  }

  lemma ReadableSpan(ring: seq<Byte>, head: nat, queued: nat, span: nat)
    requires head < |ring| && queued <= |ring| && span <= queued && head + span <= |ring|
    ensures ring[head..head + span] == Readable(ring, head, queued)[..span]
  {
  }

  /** Handing a written span back moves the read cursor past exactly that span. */
  lemma AdvanceReadable(ring: seq<Byte>, head: nat, queued: nat, span: nat)
    requires head < |ring| && queued <= |ring| && span <= queued && head + span <= |ring|
    ensures Readable(ring, Wrap(head + span, |ring|), queued - span) == Readable(ring, head, queued)[span..]
  {
    var next := Wrap(head + span, |ring|);
    var after := Readable(ring, next, queued - span);
    var before := Readable(ring, head, queued);
    forall i | 0 <= i < queued - span ensures after[i] == before[span + i] {
      ReadableAt(ring, next, queued - span, i);
      ReadableAt(ring, head, queued, span + i);
    }
  }

  lemma {:induction false} TakePrefix(offered: seq<seq<Byte>>, taken: nat, data: seq<Byte>)
    requires taken <= |offered|
    ensures (offered + [data])[..taken] == offered[..taken]
    ensures taken == |offered| ==> Concat((offered + [data])[..taken + 1]) == Concat(offered[..taken]) + data
  {
    if taken == |offered| {
      assert (offered + [data])[..taken + 1] == offered + [data];
      assert offered[..taken] == offered;
      ConcatAppend(offered, data);
    }
  }

  lemma PushInv(q: Queue, data: seq<Byte>)
    requires QueueInv(q) && Fits(q, data) && q.taken == |q.offered|
    ensures QueueInv(Push(q, data))
    ensures Push(q, data).accepted[..q.sent] == q.accepted[..q.sent]
  {
    hide Fill, Readable, Concat;
    FillAppends(q.ring, q.head, q.queued, data);
    TakePrefix(q.offered, q.taken, data);
    assert q.accepted[q.sent..] + data == (q.accepted + data)[q.sent..];
  }

  lemma DropInv(q: Queue, span: nat)
    requires QueueInv(q) && span <= q.queued && q.head + span <= |q.ring|
    ensures QueueInv(Drop(q, span))
  {
    hide Readable, Concat;
    AdvanceReadable(q.ring, q.head, q.queued, span);
    assert q.accepted[q.sent..][span..] == q.accepted[q.sent + span..];
  }

  // ------------------------------------------------------- preservation, by step

  lemma StepHeader(s: Stream, a: Action)
    requires Inv(s) && Sane(s) && (a.HeaderWrite? || a.HeaderFail?) && Enabled(s, a)
    ensures Inv(Apply(s, a))
  {
    var t := Apply(s, a);
    if a.HeaderWrite? {
      assert t.out.wire == s.header[..s.phase.sent + a.n];
      if t.phase.Ready? {
        assert t.out.wire == s.header + Encode([]) + [];
      }
    }
  }

  lemma LookSpan(q: Queue)
    requires QueueInv(q) && q.queued > 0
    ensures q.ring[q.head..q.head + Span(q)] == q.accepted[q.sent..q.sent + Span(q)]
  {
    var span := Span(q);
    ReadableSpan(q.ring, q.head, q.queued, span);
    assert q.accepted[q.sent..][..span] == q.accepted[q.sent..q.sent + span];
  }

  lemma BeginInv(s: Stream, span: nat, current: seq<Byte>)
    requires Inv(s) && s.phase.Ready? && !s.failed && 0 < span <= s.q.queued && s.q.head + span <= |s.q.ring|
    requires current == s.q.accepted[s.q.sent..s.q.sent + span] == s.q.ring[s.q.head..s.q.head + span]
    ensures Inv(s.(phase := Writing(s.q.head, span, 0), out := s.out.(current := current)))
  {
    assert Frame(current)[..0] == [];
  }

  lemma StepLook(s: Stream)
    requires Inv(s) && Sane(s) && s.phase.Ready?
    ensures Inv(Apply(s, Look))
  {
    hide Concat, Encode, Frame, Readable;
    if !s.failed && s.q.queued > 0 {
      LookSpan(s.q);
      BeginInv(s, Span(s.q), s.q.accepted[s.q.sent..s.q.sent + Span(s.q)]);
    } else {
      assert Apply(s, Look).out == s.out;
    }
  }

  lemma SentWire(header: seq<Byte>, o: Output, p: Phase, bytes: seq<Byte>, next: Phase)
    requires WireInv(header, o, p) && !p.Header? && !o.headerCut && !next.Header?
    ensures WireInv(header, Sent(o, bytes), next)
  {
    assert header + Encode(o.chunks) + o.partial + bytes == header + Encode(o.chunks) + (o.partial + bytes);
  }

  lemma SentPartial(o: Output, p: Phase, failed: bool, n: nat)
    requires PartialInv(o, p, failed) && p.Writing? && p.sent + n <= |Frame(o.current)|
    ensures PartialInv(Sent(o, Frame(o.current)[p.sent..p.sent + n]), p.(sent := p.sent + n), failed)
  {
    var f := Frame(o.current);
    assert f[..p.sent] + f[p.sent..p.sent + n] == f[..p.sent + n];
  }

  /** Sending changes the output and the writer's position, nothing the ring depends on. */
  lemma SendInv(s: Stream, out: Output, next: Phase)
    requires Inv(s) && s.phase.Writing?
    requires WireInv(s.header, out, next) && PartialInv(out, next, s.failed)
    requires out.chunks == s.out.chunks && out.current == s.out.current
    requires next.Writing? && next.offset == s.phase.offset && next.span == s.phase.span
    ensures Inv(s.(out := out, phase := next))
  {
  }

  lemma WriteInv(s: Stream, n: nat, bytes: seq<Byte>)
    requires Inv(s) && s.phase.Writing? && s.phase.sent + n <= |Frame(s.out.current)|
    requires bytes == Frame(s.out.current)[s.phase.sent..s.phase.sent + n]
    ensures Inv(s.(out := Sent(s.out, bytes), phase := s.phase.(sent := s.phase.sent + n)))
  {
    var next := s.phase.(sent := s.phase.sent + n);
    SentWire(s.header, s.out, s.phase, bytes, next);
    SentPartial(s.out, s.phase, s.failed, n);
    SendInv(s, Sent(s.out, bytes), next);
  }

  lemma StepWrite(s: Stream, n: nat)
    requires Inv(s) && Sane(s) && Enabled(s, Write(n))
    ensures Inv(Apply(s, Write(n)))
  {
    hide Inv, Sane, Message, Frame, Sent;
    InvSane(s);
    var bytes := Frame(s.out.current)[s.phase.sent..s.phase.sent + n];
    WriteInv(s, n, bytes);
    assert Apply(s, Write(n)) == s.(out := Sent(s.out, bytes), phase := s.phase.(sent := s.phase.sent + n));
  }

  lemma StepWriteFail(s: Stream, err: Errno)
    requires Inv(s) && Sane(s) && Enabled(s, WriteFail(err))
    ensures Inv(Apply(s, WriteFail(err)))
  {
    InvSane(s);
    assert s.out.current != [];
    assert s.out.partial < Frame(s.out.current);
  }

  lemma CommitWire(header: seq<Byte>, o: Output, p: Phase)
    requires WireInv(header, o, p) && p.Writing? && o.partial == Frame(o.current) && o.current != []
    ensures WireInv(header, o.(chunks := o.chunks + [o.current], partial := []), Ready)
  {
    EncodeAppend(o.chunks, o.current);
    assert header + Encode(o.chunks) + Frame(o.current) == header + (Encode(o.chunks) + Frame(o.current)) + [];
  }

  /** What the writer holds continues the bytes it already handed back. */
  lemma HeldSpan(q: Queue, o: Output, p: Phase)
    requires QueueInv(q) && SpanInv(q, o, p) && p.Writing?
    ensures p.offset == q.head && 0 < p.span <= q.queued && p.offset + p.span <= |q.ring|
    ensures o.current != [] && q.sent + p.span <= |q.accepted|
    ensures q.accepted[..q.sent] + o.current == q.accepted[..q.sent + p.span]
  {
  }

  lemma CommitInv(s: Stream, span: nat, out: Output)
    requires Inv(s) && s.phase.Writing? && s.phase.span == span && s.out.partial == Frame(s.out.current)
    requires out == s.out.(chunks := s.out.chunks + [s.out.current], partial := [])
    ensures Inv(s.(q := Drop(s.q, span), out := out, phase := Ready))
  {
    hide QueueInv, WireInv, Encode, Readable, Frame, Concat;
    HeldSpan(s.q, s.out, s.phase);
    DropInv(s.q, span);
    CommitWire(s.header, s.out, s.phase);
    ConcatAppend(s.out.chunks, s.out.current);
  }

  lemma StepCommit(s: Stream)
    requires Inv(s) && Sane(s) && Enabled(s, Commit)
    ensures Inv(Apply(s, Commit))
  {
    InvSane(s);
    assert s.out.partial == Frame(s.out.current);
    CommitInv(s, s.phase.span, s.out.(chunks := s.out.chunks + [s.out.current], partial := []));
  }

  lemma TerminatorGrows(k: nat, n: nat)
    requires k + n <= |TERMINATOR|
    ensures TERMINATOR[..k] + TERMINATOR[k..k + n] == TERMINATOR[..k + n]
    ensures TERMINATOR[..|TERMINATOR|] == TERMINATOR
  {
  }

  lemma StepTermWrite(s: Stream, n: nat)
    requires Inv(s) && Sane(s) && Enabled(s, TermWrite(n))
    ensures Inv(Apply(s, TermWrite(n)))
  {
    hide QueueInv, Message, Concat, Encode, Frame, CutShort, Readable, Span, WireInv, PartialInv, Sent;
    var k := s.phase.sent;
    var next := if k + n == |TERMINATOR| then Closing else Terminating(k + n);
    NoCutHeader(s.out, s.phase, s.header);
    SentWire(s.header, s.out, s.phase, TERMINATOR[k..k + n], next);
    SentTerminator(s.out, s.phase, s.failed, n);
    SentOnly(s.out, TERMINATOR[k..k + n]);
  }

  lemma NoCutHeader(o: Output, p: Phase, header: seq<Byte>)
    requires WireInv(header, o, p) && p.Terminating?
    ensures !o.headerCut
  {
  }

  lemma SentOnly(o: Output, bytes: seq<Byte>)
    ensures Sent(o, bytes).chunks == o.chunks && Sent(o, bytes).current == o.current
  {
  }

  lemma SentTerminator(o: Output, p: Phase, failed: bool, n: nat)
    requires PartialInv(o, p, failed) && p.Terminating? && p.sent + n <= |TERMINATOR| && !o.headerCut
    ensures var k := p.sent + n;
      PartialInv(Sent(o, TERMINATOR[p.sent..k]), if k == |TERMINATOR| then Closing else Terminating(k), failed)
  {
    hide Frame;
    TerminatorGrows(p.sent, n);
  }

  /** A message cut short never reads as the last chunk: chunk sizes have no leading zero. */
  lemma CutShortIsNotTerminated(o: Output)
    requires CutShort(o)
    ensures o.partial != TERMINATOR
  {
    if o.current != [] {
      HexLeads(|o.current|);
      assert Frame(o.current)[0] == Hex(|o.current|)[0];
    }
  }

  lemma StepSample(s: Stream)
    requires Inv(s) && Sane(s) && s.phase.Sampling?
    ensures Inv(Apply(s, Sample))
  {
    assert TERMINATOR[..0] == [];
    if s.failed {
      CutShortIsNotTerminated(s.out);
    }
  }

  lemma StepTermFail(s: Stream, err: Errno)
    requires Inv(s) && Sane(s) && s.phase.Terminating?
    ensures Inv(Apply(s, TermFail(err)))
  {
    assert s.out.partial < TERMINATOR;
  }

  lemma MarkFailedInv(s: Stream, err: Errno)
    requires Inv(s)
    ensures Inv(MarkFailed(s, err))
  {
  }

  /** A refused enqueue leaves the ring, the accepted bytes and the wire alone. */
  lemma RefuseInv(s: Stream, data: seq<Byte>)
    requires Inv(s) && s.producerDone
    ensures Inv(Refuse(s, data))
  {
    hide Encode, Frame, Readable, CutShort, Concat;
    TakePrefix(s.q.offered, s.q.taken, data);
  }

  lemma StepRefused(s: Stream, data: seq<Byte>, converted: bool)
    requires Inv(s) && Sane(s)
    requires !converted || s.failed || s.producerDone || !Fits(s.q, data)
    ensures Inv(Offer(s, data, converted))
  {
    if converted && (s.failed || s.producerDone) {
      RefuseInv(s, data);
    } else {
      var err := if converted then NoErrno else Enomem;
      MarkFailedInv(s, err);
      RefuseInv(MarkFailed(s, err), data);
      assert MarkFailed(Refuse(s, data), err) == Refuse(MarkFailed(s, err), data);
    }
  }

  lemma PushKeepsSpan(q: Queue, o: Output, p: Phase, data: seq<Byte>)
    requires QueueInv(q) && Fits(q, data) && SpanInv(q, o, p)
    ensures SpanInv(Push(q, data), o, p)
  {
    if p.Writing? {
      FillKeepsSpan(q.ring, q.head, q.queued, data, p.span);
      assert (q.accepted + data)[q.sent..q.sent + p.span] == q.accepted[q.sent..q.sent + p.span];
    }
  }

  lemma StepAccepted(s: Stream, data: seq<Byte>)
    requires Inv(s) && Sane(s) && data != []
    requires !s.failed && !s.producerDone && Fits(s.q, data)
    ensures Inv(Offer(s, data, true))
  {
    PushInv(s.q, data);
    PushKeepsSpan(s.q, s.out, s.phase, data);
  }

  lemma StepSimple(s: Stream, a: Action)
    requires Inv(s) && Sane(s) && Enabled(s, a)
    requires a.Wake? || a.Close? || a.WriterRelease? || a.DropDead? || a.Finish? || a.ProducerRelease?
    ensures Inv(Apply(s, a))
  {
    hide QueueInv, Message, Concat, Encode, Frame, CutShort;
    assert Apply(s, a).q == s.q && Apply(s, a).out == s.out;
  }

  lemma StepOffer(s: Stream, data: seq<Byte>, converted: bool)
    requires Inv(s) && Sane(s) && data != []
    ensures Inv(Offer(s, data, converted))
  {
    if !converted || s.failed || s.producerDone || !Fits(s.q, data) {
      StepRefused(s, data, converted);
    } else {
      StepAccepted(s, data);
    }
  }

  lemma StepInv(s: Stream, a: Action)
    requires Inv(s) && Sane(s) && Enabled(s, a)
    ensures Inv(Apply(s, a))
  {
    hide Message, Span, Readable;
    match a {
      case HeaderWrite(_) => StepHeader(s, a);
      case HeaderFail(_) => StepHeader(s, a);
      case Look => StepLook(s);
      case Write(n) => StepWrite(s, n);
      case WriteFail(err) => StepWriteFail(s, err);
      case Commit => StepCommit(s);
      case Sample => StepSample(s);
      case TermWrite(n) => StepTermWrite(s, n);
      case TermFail(err) => StepTermFail(s, err);
      case Enqueue(data, converted) => StepOffer(s, data, converted);
      case DropNoMemory => MarkFailedInv(s.(failedEnqueues := s.failedEnqueues + 1), Enomem);
      case PollPeer(_) => MarkFailedInv(s, Epipe);
      case _ => StepSimple(s, a);
    }
  }
}
