/** The delivery lane together with the streams pinned to it: handing chunks to a helper
    delivers, on every interleaving, what enqueueing them synchronously would. */
module Delivery {
  import opened ChunkedCoding
  import opened DeliveryLane
  import opened Pcm
  import S = StreamProtocol
  import Safety = StreamSafety
  import Theorems = StreamTheorems

  // ------------------------------------------------------------------ the system

  datatype System = System(lane: Lane, streams: seq<S.Stream>)

  datatype Move =
    | LaneMove(step: Step, converted: bool)
    | StreamMove(out: nat, action: S.Action)

  /** What the writer does, and what the producer's thread may still ask of a stream it has not
      closed: whether the peer is gone, and the refusal of a chunk for a dead stream. */
  predicate Outside(l: Lane, out: nat, a: S.Action) {
    S.IsWriterAction(a) || ((a.PollPeer? || a.DropDead?) && Open(l, out))
  }

  /** The call a lane step makes on a stream, if it makes one. */
  datatype Call = NoCall | Call(out: nat, action: S.Action)

  function CallOf(l: Lane, a: Step, converted: bool): Call
    requires Wellformed(l) && DeliveryLane.Enabled(l, a)
  {
    match a
    case Take(out, _, memory) => if l.spare == [] && !memory then Call(out, S.DropNoMemory) else NoCall
    case Fill(grown) =>
      if |l.hand.samples| > l.cap[l.hand.item] && !grown then Call(l.hand.out, S.DropNoMemory) else NoCall
    case Serve =>
      var e := l.batch[0];
      if e.Chunk? then Call(e.out, S.Enqueue(Convert(l.buf[e.item]), converted))
      else if !l.logs[e.out].finished then Call(e.out, S.Finish)
      else Call(e.out, S.ProducerRelease)
    case _ => NoCall
  }

  ghost predicate MoveEnabled(s: System, m: Move) {
    match m
    case LaneMove(a, converted) =>
      Wellformed(s.lane) && DeliveryLane.Enabled(s.lane, a) &&
      (var c := CallOf(s.lane, a, converted);
       c.Call? ==> c.out < |s.streams| && S.Sane(s.streams[c.out]) && S.Enabled(s.streams[c.out], c.action))
    case StreamMove(out, a) =>
      out < |s.streams| && Outside(s.lane, out, a) && S.Sane(s.streams[out]) && S.Enabled(s.streams[out], a)
  }

  function CallStream(streams: seq<S.Stream>, out: nat, a: S.Action): seq<S.Stream>
    requires out < |streams| && S.Sane(streams[out]) && S.Enabled(streams[out], a)
  {
    streams[out := S.Apply(streams[out], a)]
  }

  ghost function ApplyMove(s: System, m: Move): System
    requires MoveEnabled(s, m)
  {
    match m
    case LaneMove(a, converted) =>
      var c := CallOf(s.lane, a, converted);
      System(DeliveryLane.Apply(s.lane, a), if c.Call? then CallStream(s.streams, c.out, c.action) else s.streams)
    case StreamMove(out, a) => s.(streams := CallStream(s.streams, out, a))
  }

  // ----------------------------------------------------------------- invariant

  /** A stream and the lane's log of it agree. */
  ghost predicate Agree(s: S.Stream, log: Log) {
    && S.Inv(s)
    && s.producerHolds == !log.closed
    && s.q.offered == ConvertAll(log.calls)
    && (s.producerDone ==> s.failed || log.finished)
    && (log.finished ==> s.producerDone)
    && (s.q.taken < |s.q.offered| ==> s.failed)
    && (s.phase.Terminating? || S.Terminated(s) ==> log.finished && s.q.taken == |s.q.offered|)
  }

  ghost predicate SystemInv(s: System) {
    && DeliveryLane.Inv(s.lane)
    && |s.streams| == |s.lane.logs|
    && (forall o | 0 <= o < |s.streams| :: Agree(s.streams[o], s.lane.logs[o]))
    && NonEmptyItems(s.lane)
  }

  /** Handed-over chunks are never empty. */
  ghost predicate NonEmptyItems(l: Lane) {
    && (l.hand != Nothing ==> l.hand.samples != [])
    && (forall o, i | 0 <= o < |l.logs| && 0 <= i < |l.logs[o].handed| :: l.logs[o].handed[i] != [])
  }

  // -------------------------------------------------------- stream-side steps

  lemma {:induction false} ConvertAllAppend(calls: seq<Samples>, c: Samples)
    ensures ConvertAll(calls + [c]) == ConvertAll(calls) + [Convert(c)]
  {
  }

  lemma AgreeOutside(s: S.Stream, log: Log, a: S.Action)
    requires Agree(s, log) && S.Sane(s) && S.Enabled(s, a)
    requires S.IsWriterAction(a)
    ensures Agree(S.Apply(s, a), log)
  {
    hide S.SpanInv, S.WireInv, ConvertAll, Concat, S.CutShort;
    Safety.StepInv(s, a);
    WriterKeepsQueue(s, a);
    if a.Sample? && s.failed {
      Safety.CutShortIsNotTerminated(s.out);
    }
  }

  lemma WriterKeepsQueue(s: S.Stream, a: S.Action)
    requires S.Sane(s) && S.Enabled(s, a) && S.IsWriterAction(a)
    ensures var t := S.Apply(s, a);
      && t.q.offered == s.q.offered && t.q.taken == s.q.taken && t.producerHolds == s.producerHolds
      && (t.producerDone ==> s.producerDone || t.failed) && (s.producerDone ==> t.producerDone)
      && (s.failed ==> t.failed)
  {
    if a.HeaderWrite? || a.Write? || a.TermWrite? {
      WritesKeepQueue(s, a);
    } else {
      hide S.Message, S.Readable, S.Span, S.Wrap, S.Sent;
    }
  }

  lemma WritesKeepQueue(s: S.Stream, a: S.Action)
    requires S.Sane(s) && S.Enabled(s, a) && (a.HeaderWrite? || a.Write? || a.TermWrite?)
    ensures var t := S.Apply(s, a);
      t.q == s.q && t.producerHolds == s.producerHolds && t.producerDone == s.producerDone && t.failed == s.failed
  {
    hide S.Message, S.Readable, S.Span, S.Wrap, S.Sent;
  }

  lemma AgreeMarked(s: S.Stream, log: Log, a: S.Action)
    requires Agree(s, log) && S.Sane(s) && S.Enabled(s, a) && (a.PollPeer? || a.DropDead? || a.DropNoMemory?)
    ensures Agree(S.Apply(s, a), log)
  {
    hide S.QueueInv, S.SpanInv, S.WireInv, ConvertAll, Concat;
    Safety.StepInv(s, a);
  }

  lemma AgreeFinish(s: S.Stream, log: Log)
    requires Agree(s, log) && S.Sane(s) && S.Enabled(s, S.Finish)
    ensures Agree(S.Apply(s, S.Finish), log.(finished := true))
  {
    hide S.QueueInv, S.SpanInv, S.WireInv, ConvertAll, Concat;
    Safety.StepInv(s, S.Finish);
  }

  lemma AgreeRelease(s: S.Stream, log: Log)
    requires Agree(s, log) && S.Sane(s) && S.Enabled(s, S.ProducerRelease)
    ensures Agree(S.Apply(s, S.ProducerRelease), log.(closed := true))
  {
    hide S.QueueInv, S.SpanInv, S.WireInv, ConvertAll, Concat;
    Safety.StepInv(s, S.ProducerRelease);
  }

  lemma OfferFacts(s: S.Stream, data: seq<Byte>, converted: bool)
    requires S.Sane(s)
    ensures var t := S.Offer(s, data, converted);
      && t.q.offered == s.q.offered + [data] && t.producerHolds == s.producerHolds
      && (t.failed ==> t.producerDone || s.failed) && (s.failed ==> t.failed)
      && (t.producerDone ==> s.producerDone || t.failed) && (s.producerDone ==> t.producerDone)
      && (if t.q.taken == s.q.taken then t.failed || s.producerDone else t.q.taken == s.q.taken + 1)
      && t.phase.Terminating? == s.phase.Terminating? && S.Terminated(t) == S.Terminated(s)
  {
  }

  /** The helper offers a chunk of a stream whose end has not been run. */
  lemma AgreeEnqueue(s: S.Stream, log: Log, samples: Samples, converted: bool)
    requires Agree(s, log) && !log.finished && samples != [] && S.Sane(s)
    requires S.Enabled(s, S.Enqueue(Convert(samples), converted))
    ensures Agree(S.Apply(s, S.Enqueue(Convert(samples), converted)), log.(calls := log.calls + [samples]))
  {
    hide S.QueueInv, S.SpanInv, S.WireInv, ConvertAll, Concat, Convert;
    Safety.StepInv(s, S.Enqueue(Convert(samples), converted));
    OfferFacts(s, Convert(samples), converted);
    ConvertAllAppend(log.calls, samples);
  }

  // -------------------------------------------------------------- preservation

  /** The call a lane step makes is one its stream allows: it still has the producer's
      reference. */
  lemma CallsAreAllowed(s: System, a: Step, converted: bool)
    requires SystemInv(s) && Wellformed(s.lane) && DeliveryLane.Enabled(s.lane, a)
    ensures MoveEnabled(s, LaneMove(a, converted))
  {
    CallTarget(s, a, converted);
    hide DeliveryLane.Inv, S.Inv, NonEmptyItems, Convert, ConvertAll, S.Terminated, CallOf, S.Enabled, S.Sane;
    var c := CallOf(s.lane, a, converted);
    if c.Call? {
      assert Agree(s.streams[c.out], s.lane.logs[c.out]);
      S.InvSane(s.streams[c.out]);
      ProducerMay(s.streams[c.out], c.action);
    }
  }

  lemma ProducerMay(s: S.Stream, a: S.Action)
    requires S.Sane(s) && s.producerHolds && (a.Enqueue? ==> a.data != [])
    requires a.Enqueue? || a.DropNoMemory? || a.Finish? || a.ProducerRelease?
    ensures S.Enabled(s, a)
  {
  }

  lemma CallTarget(s: System, a: Step, converted: bool)
    requires SystemInv(s) && Wellformed(s.lane) && DeliveryLane.Enabled(s.lane, a)
    ensures var c := CallOf(s.lane, a, converted);
      c.Call? ==> c.out < |s.streams| && !s.lane.logs[c.out].closed && (c.action.Enqueue? ==> c.action.data != []) &&
                  (c.action.Enqueue? || c.action.DropNoMemory? || c.action.Finish? || c.action.ProducerRelease?)
  {
    hide Agree, OrderInv, Items, ConvertAll;
    var l := s.lane;
    if a.Serve? {
      assert Pipe(l)[0] == l.batch[0];
      if l.batch[0].Chunk? {
        ServedChunk(s);
      }
    } else if l.hand != Nothing {
      assert Open(l, l.hand.out);
    }
  }

  /** The chunk at the front of the batch is one that was handed over, so it is not empty. */
  lemma ServedChunk(s: System)
    requires SystemInv(s) && Wellformed(s.lane) && s.lane.batch != [] && s.lane.batch[0].Chunk?
    ensures s.lane.buf[s.lane.batch[0].item] != []
    ensures !s.lane.logs[s.lane.batch[0].out].finished
  {
    var l := s.lane;
    var e := l.batch[0];
    assert Pipe(l)[0] == e;
    var log := l.logs[e.out];
    assert log.handed == log.calls + Payload(Pipe(l), l.buf, e.out);
    assert Payload(Pipe(l), l.buf, e.out)[0] == l.buf[e.item];
    assert log.handed[|log.calls|] == l.buf[e.item];
  }

  lemma ItemsStayNonEmpty(l: Lane, a: Step)
    requires Wellformed(l) && DeliveryLane.Enabled(l, a) && NonEmptyItems(l)
    ensures NonEmptyItems(DeliveryLane.Apply(l, a))
  {
  }

  lemma StreamMoveInv(s: System, out: nat, a: S.Action)
    requires SystemInv(s) && MoveEnabled(s, StreamMove(out, a))
    ensures SystemInv(ApplyMove(s, StreamMove(out, a)))
  {
    hide DeliveryLane.Inv, Agree, NonEmptyItems;
    var r := ApplyMove(s, StreamMove(out, a));
    if S.IsWriterAction(a) {
      AgreeOutside(s.streams[out], s.lane.logs[out], a);
    } else {
      AgreeMarked(s.streams[out], s.lane.logs[out], a);
    }
    forall o | 0 <= o < |r.streams| ensures Agree(r.streams[o], r.lane.logs[o]) {
      assert Agree(s.streams[o], s.lane.logs[o]);
    }
  }

  lemma LaneMoveInv(s: System, a: Step, converted: bool)
    requires SystemInv(s) && MoveEnabled(s, LaneMove(a, converted))
    ensures SystemInv(ApplyMove(s, LaneMove(a, converted)))
  {
    hide DeliveryLane.Inv, Agree, NonEmptyItems, Convert, S.Enabled, S.Sane;
    var r := ApplyMove(s, LaneMove(a, converted));
    DeliveryLane.StepInv(s.lane, a);
    ItemsStayNonEmpty(s.lane, a);
    var c := CallOf(s.lane, a, converted);
    if c.Call? {
      assert Agree(s.streams[c.out], s.lane.logs[c.out]);
      if a.Serve? && s.lane.batch[0].Chunk? {
        ServedChunk(s);
        AgreeEnqueue(s.streams[c.out], s.lane.logs[c.out], s.lane.buf[s.lane.batch[0].item], converted);
      } else if a.Serve? && !s.lane.logs[c.out].finished {
        AgreeFinish(s.streams[c.out], s.lane.logs[c.out]);
      } else if a.Serve? {
        AgreeRelease(s.streams[c.out], s.lane.logs[c.out]);
      } else {
        AgreeMarked(s.streams[c.out], s.lane.logs[c.out], c.action);
      }
    }
    forall o | 0 <= o < |r.streams| ensures Agree(r.streams[o], r.lane.logs[o]) {
      assert Agree(s.streams[o], s.lane.logs[o]);
      HandingOverAgrees(s, a, o);
    }
  }

  /** Handing over and asking for the end change nothing a stream agrees on. */
  lemma HandingOverAgrees(s: System, a: Step, o: nat)
    requires Wellformed(s.lane) && DeliveryLane.Enabled(s.lane, a) && o < |s.lane.logs| && o < |s.streams|
    requires Agree(s.streams[o], s.lane.logs[o])
    ensures !a.Serve? ==> Agree(s.streams[o], DeliveryLane.Apply(s.lane, a).logs[o])
    ensures a.Serve? && s.lane.batch[0].out != o ==> DeliveryLane.Apply(s.lane, a).logs[o] == s.lane.logs[o]
  {
    hide S.QueueInv, S.SpanInv, S.WireInv, S.FlagInv, S.PartialInv, ConvertAll, Concat;
  }

  lemma MoveInv(s: System, m: Move)
    requires SystemInv(s) && MoveEnabled(s, m)
    ensures SystemInv(ApplyMove(s, m))
  {
    match m {
      case LaneMove(a, converted) => LaneMoveInv(s, a, converted);
      case StreamMove(out, a) => StreamMoveInv(s, out, a);
    }
  }

  // ------------------------------------------------------------------ whole runs

  ghost predicate ValidRun(s: System, run: seq<Move>)
    decreases |run|
  {
    run == [] || (MoveEnabled(s, run[0]) && ValidRun(ApplyMove(s, run[0]), run[1..]))
  }

  ghost function Final(s: System, run: seq<Move>): System
    requires ValidRun(s, run)
    decreases |run|
  {
    if run == [] then s else Final(ApplyMove(s, run[0]), run[1..])
  }

  /** A lane whose streams have just been started. */
  ghost predicate Initial(s: System) {
    && s.lane == Fresh(|s.streams|)
    && forall o | 0 <= o < |s.streams| ::
         s.streams[o].q.ring != [] && s.streams[o] == S.Start(s.streams[o].header, s.streams[o].q.ring)
  }

  lemma InitialInv(s: System)
    requires Initial(s)
    ensures SystemInv(s)
  {
    FreshInv(|s.streams|);
    forall o | 0 <= o < |s.streams| ensures Agree(s.streams[o], s.lane.logs[o]) {
      Theorems.StartInv(s.streams[o].header, s.streams[o].q.ring);
    }
  }

  lemma {:induction false} RunInv(s: System, run: seq<Move>)
    requires SystemInv(s) && ValidRun(s, run)
    ensures SystemInv(Final(s, run))
    decreases |run|
  {
    if run != [] {
      MoveInv(s, run[0]);
      RunInv(ApplyMove(s, run[0]), run[1..]);
    }
  }

  lemma ConvertAllTake(chunks: seq<Samples>, k: nat)
    requires k <= |chunks|
    ensures ConvertAll(chunks)[..k] == ConvertAll(chunks[..k])
  {
  }

  /** What a client that has decoded `body` has been sent are the samples of these chunks. */
  ghost predicate ClientHears(st: S.Stream, chunks: seq<Samples>) {
    && st.header <= st.out.wire
    && var body := Concat(ConvertAll(chunks));
       Parse(st.out.wire[|st.header|..]) == Complete(body, []) && HeardAs(body, Concat(chunks))
  }

  /** Off-thread delivery refines synchronous enqueueing. For every stream of every run: the
      helper has offered the stream a prefix of the chunks handed over, in order and with the
      contents they had then; what the stream accepted sounds like a whole-chunk prefix of them;
      and a client that reads a complete response hears every sample handed over, in order. */
  lemma DeliveryRefinesEnqueue(s0: System, run: seq<Move>, out: nat)
    requires Initial(s0) && ValidRun(s0, run) && out < |s0.streams|
    ensures var s := Final(s0, run);
      && |s.streams| == |s.lane.logs| && out < |s.streams|
      && (var st, log := s.streams[out], s.lane.logs[out];
          && log.calls <= log.handed
          && (log.closed ==> log.calls == log.handed)
          && st.q.taken <= |log.handed|
          && st.q.accepted == Concat(ConvertAll(log.handed[..st.q.taken]))
          && HeardAs(st.q.accepted, Concat(log.handed[..st.q.taken]))
          && (S.Terminated(st) ==> log.finished && ClientHears(st, log.handed))
          && (log.closed && !st.failed ==> st.q.accepted == Concat(ConvertAll(log.handed))))
  {
    InitialInv(s0);
    RunInv(s0, run);
    KeepsStreams(s0, run);
    var s := Final(s0, run);
    var st, log := s.streams[out], s.lane.logs[out];
    assert Agree(st, log);
    EndOfLog(s.lane, out);
    AcceptedOfHanded(st, log);
    ChunksAreHeard(log.handed[..st.q.taken]);
    ChunksAreHeard(log.handed);
    hide Agree, DeliveryLane.Inv, ConvertAll, HeardAs, Concat;
    assert S.Inv(st) by { StreamIsSound(st, log); }
    Theorems.ClientView(st);
  }

  lemma StreamIsSound(st: S.Stream, log: Log)
    requires Agree(st, log)
    ensures S.Inv(st)
  {
  }

  lemma {:induction false} KeepsStreams(s: System, run: seq<Move>)
    requires SystemInv(s) && ValidRun(s, run)
    ensures |Final(s, run).streams| == |s.streams|
    decreases |run|
  {
    if run != [] {
      MoveInv(s, run[0]);
      KeepsStreams(ApplyMove(s, run[0]), run[1..]);
    }
  }

  /** Once the end of a stream has been reached by the helper, nothing of it is still queued. */
  lemma EndOfLog(l: Lane, out: nat)
    requires DeliveryLane.Inv(l) && out < |l.logs|
    ensures l.logs[out].calls <= l.logs[out].handed
    ensures l.logs[out].finished ==> l.logs[out].calls == l.logs[out].handed
  {
    assert l.logs[out].handed == l.logs[out].calls + Payload(Pipe(l), l.buf, out);
    if l.logs[out].finished {
      NoChunksOf(Pipe(l), l.buf, out, l.logs);
    }
  }

  lemma {:induction false} NoChunksOf(es: seq<Entry>, buf: seq<Samples>, out: nat, logs: seq<Log>)
    requires out < |logs| && logs[out].finished
    requires forall i | 0 <= i < |es| :: es[i].out < |logs| && (es[i].Chunk? ==> !logs[es[i].out].finished)
    ensures Payload(es, buf, out) == []
  {
    if es != [] {
      NoChunksOf(es[1..], buf, out, logs);
    }
  }

  lemma AcceptedOfHanded(st: S.Stream, log: Log)
    requires Agree(st, log) && log.calls <= log.handed
    requires log.finished ==> log.calls == log.handed
    ensures st.q.taken <= |log.handed|
    ensures st.q.accepted == Concat(ConvertAll(log.handed[..st.q.taken]))
    ensures S.Terminated(st) ==> log.finished && st.q.accepted == Concat(ConvertAll(log.handed))
    ensures log.finished && !st.failed ==> st.q.accepted == Concat(ConvertAll(log.handed))
  {
    var k := st.q.taken;
    ConvertAllTake(log.calls, k);
    assert log.calls[..k] == log.handed[..k];
    if k == |log.handed| {
      assert log.handed[..k] == log.handed;
    }
  }

  /** The helper and the producer only ever act on streams that hold the producer's reference,
      and every chunk item is in exactly one place. */
  lemma NothingIsLostOrStale(s0: System, run: seq<Move>)
    requires Initial(s0) && ValidRun(s0, run)
    ensures var s := Final(s0, run);
      && Items(s.lane) == AllItems(|s.lane.buf|)
      && |s.streams| == |s.lane.logs|
      && (forall i | 0 <= i < |Pipe(s.lane)| :: Pipe(s.lane)[i].out < |s.streams|)
      && (forall i | 0 <= i < |Pipe(s.lane)| :: s.streams[Pipe(s.lane)[i].out].refs > 0)
      && (s.lane.helper == Parked(false) ==> s.lane.queue == [])
  {
    InitialInv(s0);
    RunInv(s0, run);
    var s := Final(s0, run);
    forall i | 0 <= i < |Pipe(s.lane)|
      ensures Pipe(s.lane)[i].out < |s.streams| && s.streams[Pipe(s.lane)[i].out].refs > 0
    {
      var o := Pipe(s.lane)[i].out;
      assert !s.lane.logs[o].closed;
      assert Agree(s.streams[o], s.lane.logs[o]);
    }
  }
}
