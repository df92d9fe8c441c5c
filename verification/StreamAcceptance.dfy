/** Which chunks a stream takes and for what it fails: exactly when, in every state and on every
    run. */
module StreamAcceptance {
  import opened ChunkedCoding
  import opened Options
  import opened StreamProtocol
  import opened StreamSafety
  import opened StreamTheorems

  /** Accepted and not sent yet. */
  function Unread(s: Stream): int {
    |s.q.accepted| - s.q.sent
  }

  /** A chunk is accepted, whole and at the end, if and only if it could be converted, the stream
      has neither failed nor been finished, and with it no more is unread than the ring holds. */
  lemma AcceptedIff(s: Stream, data: seq<Byte>, converted: bool)
    requires Inv(s) && Sane(s) && Enabled(s, Enqueue(data, converted))
    ensures var t := Apply(s, Enqueue(data, converted));
      && (t.q.accepted == s.q.accepted + data <==>
            converted && !s.failed && !s.producerDone && Unread(s) + |data| <= |s.q.ring|)
      && t.q.offered == s.q.offered + [data]
      && (if t.q.accepted == s.q.accepted + data then t.q.taken == s.q.taken + 1 && !t.failed
          else t.q.accepted == s.q.accepted && t.q.taken == s.q.taken)
  {
    hide SpanInv, WireInv, PartialInv, Fill, Concat, StreamProtocol.Readable;
  }

  /** A writer that finds bytes takes all of them, or all up to the end of the ring. */
  lemma LookTakesAll(s: Stream)
    requires Inv(s) && Sane(s) && s.phase.Ready? && !s.failed && Unread(s) > 0
    ensures var t := Apply(s, Look);
      && t.phase.Writing? && t.phase.offset == s.q.head && t.phase.sent == 0
      && (t.phase.span == Unread(s) || t.phase.offset + t.phase.span == |s.q.ring|)
      && t.out.current == s.q.accepted[s.q.sent..s.q.sent + t.phase.span]
  {
    hide WireInv, PartialInv, Concat, StreamProtocol.Readable;
  }

  // ---------------------------------------------------------------------- failure

  /** For what a stream that has not failed fails at this step: a write that failed, memory, a peer
      that is gone while the descriptor is open, or a chunk for which there is no room. */
  function Cause(s: Stream, a: Action): Option<Errno> {
    match a
    case HeaderFail(err) => Some(err)
    case WriteFail(err) => Some(err)
    case TermFail(err) => Some(err)
    case DropNoMemory => Some(Enomem)
    case PollPeer(hangup) => if hangup && s.fdOpen then Some(Epipe) else None
    case Enqueue(data, converted) =>
      if !converted then Some(Enomem)
      else if !s.producerDone && Unread(s) + |data| > |s.q.ring| then Some(NoErrno)
      else None
    case _ => None
  }

  lemma FailsFor(s: Stream, a: Action)
    requires Inv(s) && Sane(s) && Enabled(s, a)
    ensures var t := Apply(s, a);
      if s.failed then t.failed && t.failureErrno == s.failureErrno
      else (t.failed <==> Cause(s, a).Some?) && (t.failed ==> t.failureErrno == Cause(s, a).value)
  {
    hide SpanInv, WireInv, PartialInv, Fill, Concat, StreamProtocol.Readable, Message, Terminated, LookOnce, Wrap;
    if a.Look? {
      LookFailsNothing(s);
    }
  }

  lemma LookFailsNothing(s: Stream)
    requires Sane(s) && s.phase.Ready?
    ensures Apply(s, Look).failed == s.failed && Apply(s, Look).failureErrno == s.failureErrno
    ensures Apply(s, Look).q == s.q
  {
  }

  /** The first cause of failure in a run. */
  ghost function FirstCause(s: Stream, run: seq<Action>): Option<Errno>
    requires ValidRun(s, run)
    decreases |run|
  {
    if run == [] then None
    else if Cause(s, run[0]).Some? then Cause(s, run[0])
    else FirstCause(Apply(s, run[0]), run[1..])
  }

  lemma {:induction false} StaysFailed(s: Stream, run: seq<Action>)
    requires Inv(s) && ValidRun(s, run) && s.failed
    ensures Final(s, run).failed && Final(s, run).failureErrno == s.failureErrno
    decreases |run|
  {
    hide Inv, Sane, Enabled, Apply;
    if run != [] {
      StepInv(s, run[0]);
      FailsFor(s, run[0]);
      StaysFailed(Apply(s, run[0]), run[1..]);
    }
  }

  /** A run fails if and only if something in it was a cause, and is remembered to have failed for
      the first one: what a stream that failed says of its peer rests on that. */
  lemma {:induction false} FirstFailureIsKept(s: Stream, run: seq<Action>)
    requires Inv(s) && ValidRun(s, run) && !s.failed
    ensures Final(s, run).failed <==> FirstCause(s, run).Some?
    ensures Final(s, run).failed ==> Final(s, run).failureErrno == FirstCause(s, run).value
    decreases |run|
  {
    hide Inv, Sane, Enabled, Apply, Cause;
    if run != [] {
      var t := Apply(s, run[0]);
      StepInv(s, run[0]);
      FailsFor(s, run[0]);
      if t.failed {
        StaysFailed(t, run[1..]);
      } else {
        FirstFailureIsKept(t, run[1..]);
      }
    }
  }

  // ------------------------------------------------------------------- acceptance

  /** Nothing in the run is a cause of failure, and nothing is offered after the end. */
  ghost predicate Untroubled(s: Stream, run: seq<Action>)
    requires ValidRun(s, run)
    decreases |run|
  {
    run == [] ||
    (Cause(s, run[0]).None? && !(run[0].Enqueue? && s.producerDone) && Untroubled(Apply(s, run[0]), run[1..]))
  }

  ghost predicate TakesAll(s: Stream) {
    !s.failed && s.q.taken == |s.q.offered|
  }

  lemma StepTakesAll(s: Stream, a: Action)
    requires Inv(s) && Sane(s) && Enabled(s, a)
    ensures TakesAll(Apply(s, a)) <==> TakesAll(s) && Cause(s, a).None? && !(a.Enqueue? && s.producerDone)
  {
    FailsFor(s, a);
    Counted(s);
    if a.Enqueue? {
      AcceptedIff(s, a.data, a.converted);
    } else {
      OffersNothing(s, a);
    }
    hide Inv, Sane, Enabled, Apply;
  }

  lemma Counted(s: Stream)
    requires Inv(s)
    ensures s.q.taken <= |s.q.offered| && (s.failed ==> s.producerDone)
  {
  }

  lemma OffersNothing(s: Stream, a: Action)
    requires Inv(s) && Sane(s) && Enabled(s, a) && !a.Enqueue?
    ensures Apply(s, a).q.taken == s.q.taken && Apply(s, a).q.offered == s.q.offered
  {
    hide SpanInv, WireInv, PartialInv, Fill, Concat, StreamProtocol.Readable, Message, Terminated, LookOnce, Wrap, Offer;
    if a.Look? {
      LookFailsNothing(s);
    }
  }

  lemma {:induction false} RunTakesAll(s: Stream, run: seq<Action>)
    requires Inv(s) && ValidRun(s, run)
    ensures TakesAll(Final(s, run)) <==> TakesAll(s) && Untroubled(s, run)
    decreases |run|
  {
    hide Inv, Sane, Enabled, Apply, Cause, TakesAll;
    if run != [] {
      StepInv(s, run[0]);
      StepTakesAll(s, run[0]);
      RunTakesAll(Apply(s, run[0]), run[1..]);
    }
  }

  /** On every run: a stream has not failed and has accepted every chunk it was offered if and only
      if no write failed, nobody hung up, memory sufficed, unread bytes and each offer together
      fitted the ring, and nothing was offered after the end. Then a client of a response that is
      complete has been sent everything that was offered. */
  lemma EverythingIsAcceptedIff(header: seq<Byte>, ring: seq<Byte>, run: seq<Action>)
    requires ring != [] && ValidRun(Start(header, ring), run)
    ensures var s := Final(Start(header, ring), run);
      && (!s.failed && s.q.taken == |s.q.offered| <==> Untroubled(Start(header, ring), run))
      && (Untroubled(Start(header, ring), run) ==>
            s.q.accepted == Concat(s.q.offered) &&
            (Terminated(s) ==> header <= s.out.wire && Parse(s.out.wire[|header|..]) == Complete(Concat(s.q.offered), [])))
  {
    hide Start, Inv;
    var s0 := Start(header, ring);
    StartInv(header, ring);
    Fresh(header, ring);
    RunTakesAll(s0, run);
    RunInv(s0, run);
    KeepsShape(s0, run);
    WireRefinement(header, ring, run);
    var s := Final(s0, run);
    ClientView(s);
    if TakesAll(s) {
      assert s.q.offered[..s.q.taken] == s.q.offered;
    }
  }

  lemma Fresh(header: seq<Byte>, ring: seq<Byte>)
    ensures TakesAll(Start(header, ring)) && Start(header, ring).header == header
  {
  }

  // ------------------------------------------------------------------- the statistics

  /** How often the producer dropped a chunk itself. */
  function Drops(run: seq<Action>): nat {
    if run == [] then 0 else (if run[0].DropDead? || run[0].DropNoMemory? then 1 else 0) + Drops(run[1..])
  }

  /** Whoever does not enqueue leaves the counts alone, but for a chunk the producer drops itself. */
  lemma OthersKeepCounts(s: Stream, a: Action)
    requires Inv(s) && Sane(s) && Enabled(s, a) && !a.Enqueue?
    ensures var t := Apply(s, a);
      && t.q.enqueuedChunks == s.q.enqueuedChunks && t.q.peak == s.q.peak && Unread(t) <= Unread(s)
      && t.failedEnqueues == s.failedEnqueues + (if a.DropDead? || a.DropNoMemory? then 1 else 0)
  {
    hide SpanInv, WireInv, PartialInv, Fill, Concat, StreamProtocol.Readable, Message, Terminated, LookOnce, Wrap, Offer;
    if a.Look? {
      LookKeepsCounts(s);
    }
  }

  lemma EnqueueCounts(s: Stream, data: seq<Byte>, converted: bool)
    requires Inv(s) && Sane(s) && Enabled(s, Enqueue(data, converted))
    ensures var t := Apply(s, Enqueue(data, converted));
      && t.q.enqueuedChunks - t.q.taken == s.q.enqueuedChunks - s.q.taken
      && t.failedEnqueues + t.q.taken - |t.q.offered| == s.failedEnqueues + s.q.taken - |s.q.offered|
      && t.q.peak == Larger(s.q.peak, Unread(t))
  {
    hide SpanInv, WireInv, PartialInv, Fill, Concat, StreamProtocol.Readable;
  }

  lemma StepCounts(s: Stream, a: Action)
    requires Inv(s) && Sane(s) && Enabled(s, a)
    ensures var t := Apply(s, a);
      && t.q.enqueuedChunks - t.q.taken == s.q.enqueuedChunks - s.q.taken
      && t.failedEnqueues + t.q.taken - |t.q.offered| ==
           s.failedEnqueues + s.q.taken - |s.q.offered| + (if a.DropDead? || a.DropNoMemory? then 1 else 0)
      && t.q.peak == Larger(s.q.peak, Unread(t))
  {
    hide Inv, Sane, Enabled, Apply, Unread;
    if a.Enqueue? {
      EnqueueCounts(s, a.data, a.converted);
    } else {
      OthersKeepCounts(s, a);
      OffersNothing(s, a);
      PeakIs(s);
    }
  }

  lemma LookKeepsCounts(s: Stream)
    requires Sane(s) && s.phase.Ready?
    ensures Apply(s, Look).q == s.q && Apply(s, Look).failedEnqueues == s.failedEnqueues
  {
  }

  lemma {:induction false} RunCounts(s: Stream, run: seq<Action>)
    requires Inv(s) && ValidRun(s, run)
    ensures var t := Final(s, run);
      && t.q.enqueuedChunks - t.q.taken == s.q.enqueuedChunks - s.q.taken
      && t.failedEnqueues + t.q.taken - |t.q.offered| == s.failedEnqueues + s.q.taken - |s.q.offered| + Drops(run)
    decreases |run|
  {
    hide Inv, Sane, Enabled, Apply;
    if run != [] {
      StepInv(s, run[0]);
      StepCounts(s, run[0]);
      RunCounts(Apply(s, run[0]), run[1..]);
    }
  }

  function Larger(a: int, b: int): int {
    if a > b then a else b
  }

  /** The most that was unread at any time of a run. */
  ghost function MostUnread(s: Stream, run: seq<Action>): int
    requires ValidRun(s, run)
    decreases |run|
  {
    if run == [] then Unread(s) else Larger(Unread(s), MostUnread(Apply(s, run[0]), run[1..]))
  }

  lemma PeakIs(s: Stream)
    requires Inv(s)
    ensures Unread(s) <= s.q.peak
  {
  }

  lemma {:induction false} RunPeak(s: Stream, run: seq<Action>)
    requires Inv(s) && ValidRun(s, run)
    ensures Final(s, run).q.peak == Larger(s.q.peak, MostUnread(s, run))
    decreases |run|
  {
    hide Inv, Sane, Enabled, Apply, Unread;
    PeakIs(s);
    if run != [] {
      StepInv(s, run[0]);
      StepCounts(s, run[0]);
      RunPeak(Apply(s, run[0]), run[1..]);
      PeakIs(Apply(s, run[0]));
    }
  }

  /** What a stream reports of itself: the chunks it has accepted, those refused or dropped, and the
      most its ring has ever held. */
  lemma StatsAreTrue(header: seq<Byte>, ring: seq<Byte>, run: seq<Action>)
    requires ring != [] && ValidRun(Start(header, ring), run)
    ensures var s := Final(Start(header, ring), run);
      && s.q.enqueuedChunks == s.q.taken && s.failedEnqueues == |s.q.offered| - s.q.taken + Drops(run)
      && s.q.peak == MostUnread(Start(header, ring), run)
  {
    StartInv(header, ring);
    RunCounts(Start(header, ring), run);
    RunPeak(Start(header, ring), run);
    NothingYet(Start(header, ring), run);
  }

  lemma NothingYet(s: Stream, run: seq<Action>)
    requires ValidRun(s, run)
    ensures Unread(s) <= MostUnread(s, run)
  {
  }
}
