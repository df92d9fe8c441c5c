/** Nothing is missing from a response that is complete: a chunk that could not be delivered fails
    its stream for good, so whoever reads a response to its end hears everything the producer ever
    delivered to it. */
module DeliveredWhole {
  import opened ChunkedCoding
  import opened DeliveryLane
  import opened Delivery
  import S = StreamProtocol
  import Safety = StreamSafety

  // --------------------------------------------------------------- what was delivered

  /** The chunks the producer's deliveries to a stream began with, in order. */
  function Given(run: seq<Move>, out: nat): seq<Samples> {
    if run == [] then []
    else
      var init, last := run[..|run| - 1], run[|run| - 1];
      Given(init, out) + (if last.LaneMove? && last.step.Take? && last.step.out == out then [last.step.samples] else [])
  }

  /** Deliveries answered at once, the stream being dead. */
  predicate TurnedAway(run: seq<Move>, out: nat) {
    exists k :: 0 <= k < |run| && run[k] == StreamMove(out, S.DropDead)
  }

  // ------------------------------------------------------------ a stream that is cut short

  /** It has failed, and its last chunk is neither out nor on its way. */
  predicate Doomed(st: S.Stream) {
    st.failed && !st.phase.Terminating? && !S.Terminated(st)
  }

  lemma DoomedForGood(st: S.Stream, a: S.Action)
    requires S.Inv(st) && S.Sane(st) && S.Enabled(st, a) && Doomed(st)
    ensures Doomed(S.Apply(st, a))
  {
    hide S.QueueInv, S.SpanInv, S.WireInv, S.CutShort, S.Message, S.Readable, S.Span, S.Wrap, S.Sent, S.Fill, S.FlagInv;
    if a.Sample? {
      Safety.CutShortIsNotTerminated(st.out);
    }
  }

  /** A delivery that is dropped dooms a stream whose end has not come. */
  lemma DropDooms(st: S.Stream, log: Log, a: S.Action)
    requires Agree(st, log) && !log.finished && S.Sane(st) && S.Enabled(st, a) && (a.DropDead? || a.DropNoMemory?)
    ensures Doomed(S.Apply(st, a))
  {
    hide S.QueueInv, S.SpanInv, S.WireInv, S.CutShort, S.PartialInv, Pcm.ConvertAll;
  }

  // ------------------------------------------------------------------------ every move

  function InHandFor(l: Lane, out: nat): seq<Samples> {
    if l.hand != Nothing && l.hand.out == out then [l.hand.samples] else []
  }

  /** Everything given has been handed over or is in the producer's hand. */
  ghost predicate Whole(s: System, out: nat, given: seq<Samples>) {
    out < |s.streams| && out < |s.lane.logs| && given == s.lane.logs[out].handed + InHandFor(s.lane, out)
  }

  ghost predicate WholeOrDoomed(s: System, out: nat, given: seq<Samples>, away: bool) {
    && out < |s.streams|
    && (Doomed(s.streams[out]) || (!away && Whole(s, out, given)))
  }

  lemma FinishedIsClosing(l: Lane, out: nat)
    requires DeliveryLane.Inv(l) && out < |l.logs| && !l.logs[out].closing
    ensures !l.logs[out].finished
  {
    hide OrderInv, HandInv, HelperInv, Items, AllItems;
  }

  /** What a step of the lane does to the chunks of a stream, if it makes no call for want of memory. */
  lemma LaneStepGives(l: Lane, a: Step, out: nat)
    requires Wellformed(l) && DeliveryLane.Enabled(l, a) && out < |l.logs|
    ensures var t := DeliveryLane.Apply(l, a);
      && out < |t.logs|
      && (if a.Take? && l.spare == [] && !a.memory then t == l
          else if a.Fill? && |l.hand.samples| > l.cap[l.hand.item] && !a.grown then
            t.logs == l.logs && (l.hand.out != out ==> InHandFor(t, out) == InHandFor(l, out))
          else t.logs[out].handed + InHandFor(t, out) ==
                 l.logs[out].handed + InHandFor(l, out) + (if a.Take? && a.out == out then [a.samples] else []))
  {
  }

  lemma CallDooms(s: System, a: Step, converted: bool, out: nat)
    requires SystemInv(s) && MoveEnabled(s, LaneMove(a, converted)) && out < |s.streams|
    requires var c := CallOf(s.lane, a, converted); c.Call? && c.out == out
    ensures var c := CallOf(s.lane, a, converted);
      Doomed(s.streams[out]) || c.action.DropNoMemory? ==> Doomed(S.Apply(s.streams[out], c.action))
  {
    hide DeliveryLane.Inv, CallOf, Doomed, S.Apply, S.Enabled, S.Sane, S.Inv, NonEmptyItems;
    var c := CallOf(s.lane, a, converted);
    assert Agree(s.streams[out], s.lane.logs[out]);
    StreamIsSound(s.streams[out], s.lane.logs[out]);
    if c.action.DropNoMemory? {
      DroppedIsOpen(s.lane, a, converted, out);
      DropDooms(s.streams[out], s.lane.logs[out], c.action);
    } else if Doomed(s.streams[out]) {
      DoomedForGood(s.streams[out], c.action);
    }
  }

  lemma LaneMoveWhole(s: System, a: Step, converted: bool, out: nat, given: seq<Samples>, away: bool)
    requires SystemInv(s) && MoveEnabled(s, LaneMove(a, converted)) && WholeOrDoomed(s, out, given, away)
    ensures WholeOrDoomed(ApplyMove(s, LaneMove(a, converted)), out,
                          given + (if a.Take? && a.out == out then [a.samples] else []), away)
  {
    hide Agree, DeliveryLane.Inv, DeliveryLane.Apply, Doomed, S.Apply, S.Enabled, S.Sane, NonEmptyItems, Pcm.Convert;
    LaneStepGives(s.lane, a, out);
    var c := CallOf(s.lane, a, converted);
    if c.Call? && c.out == out {
      CallDooms(s, a, converted, out);
    }
  }

  lemma DroppedIsOpen(l: Lane, a: Step, converted: bool, out: nat)
    requires DeliveryLane.Inv(l) && Wellformed(l) && DeliveryLane.Enabled(l, a)
    requires var c := CallOf(l, a, converted); c.Call? && c.out == out && c.action.DropNoMemory?
    ensures out < |l.logs| && !l.logs[out].finished
  {
    hide OrderInv, EndInv, HelperInv, Items, AllItems, Pcm.Convert;
    if a.Take? {
      FinishedIsClosing(l, out);
    } else {
      assert Open(l, l.hand.out);
      FinishedIsClosing(l, out);
    }
  }

  lemma MoveDooms(s: System, a: S.Action, out: nat)
    requires SystemInv(s) && MoveEnabled(s, StreamMove(out, a)) && (Doomed(s.streams[out]) || a.DropDead?)
    ensures Doomed(S.Apply(s.streams[out], a))
  {
    hide DeliveryLane.Inv, Doomed, S.Apply, S.Enabled, S.Sane, S.Inv, NonEmptyItems, S.IsWriterAction;
    assert Agree(s.streams[out], s.lane.logs[out]);
    StreamIsSound(s.streams[out], s.lane.logs[out]);
    if Doomed(s.streams[out]) {
      DoomedForGood(s.streams[out], a);
    } else {
      OnlyWhileOpen(s.lane, out, a);
      FinishedIsClosing(s.lane, out);
      DropDooms(s.streams[out], s.lane.logs[out], a);
    }
  }

  lemma OnlyWhileOpen(l: Lane, out: nat, a: S.Action)
    requires Outside(l, out, a) && a.DropDead?
    ensures Open(l, out)
  {
  }

  lemma StreamMoveWhole(s: System, o: nat, a: S.Action, out: nat, given: seq<Samples>, away: bool)
    requires SystemInv(s) && MoveEnabled(s, StreamMove(o, a)) && WholeOrDoomed(s, out, given, away)
    ensures WholeOrDoomed(ApplyMove(s, StreamMove(o, a)), out, given, away || (o == out && a.DropDead?))
  {
    hide Agree, DeliveryLane.Inv, Doomed, S.Apply, S.Enabled, S.Sane, NonEmptyItems;
    if o == out && (Doomed(s.streams[out]) || a.DropDead?) {
      MoveDooms(s, a, out);
    }
  }

  // ----------------------------------------------------------------------- every run

  lemma LastMove(s: System, run: seq<Move>)
    requires ValidRun(s, run) && run != []
    ensures var init, last := run[..|run| - 1], run[|run| - 1];
      ValidRun(s, init) && MoveEnabled(Final(s, init), last) && Final(s, run) == ApplyMove(Final(s, init), last)
    decreases |run|
  {
    hide MoveEnabled, ApplyMove;
    var init, last := run[..|run| - 1], run[|run| - 1];
    if |run| > 1 {
      LastMove(ApplyMove(s, run[0]), run[1..]);
      assert run[1..][..|run| - 2] == init[1..] && init[0] == run[0];
    } else {
      assert init == [];
    }
  }

  lemma AwayNext(run: seq<Move>, out: nat)
    requires run != []
    ensures TurnedAway(run, out) <==>
      TurnedAway(run[..|run| - 1], out) || run[|run| - 1] == StreamMove(out, S.DropDead)
  {
    var init := run[..|run| - 1];
    if TurnedAway(init, out) {
      var k :| 0 <= k < |init| && init[k] == StreamMove(out, S.DropDead);
      assert run[k] == StreamMove(out, S.DropDead);
    }
    if TurnedAway(run, out) && run[|run| - 1] != StreamMove(out, S.DropDead) {
      var k :| 0 <= k < |run| && run[k] == StreamMove(out, S.DropDead);
      assert init[k] == run[k];
    }
  }

  lemma {:induction false} RunWhole(s0: System, run: seq<Move>, out: nat)
    requires Initial(s0) && ValidRun(s0, run) && out < |s0.streams|
    ensures WholeOrDoomed(Final(s0, run), out, Given(run, out), TurnedAway(run, out))
    decreases |run|
  {
    hide Initial, SystemInv, ValidRun, Final, MoveEnabled, ApplyMove, WholeOrDoomed;
    if run == [] {
      NothingGiven(s0, out);
    } else {
      var init, last := run[..|run| - 1], run[|run| - 1];
      LastMove(s0, run);
      RunWhole(s0, init, out);
      InitialInv(s0);
      RunInv(s0, init);
      AwayNext(run, out);
      var s := Final(s0, init);
      match last {
        case LaneMove(a, converted) => LaneMoveWhole(s, a, converted, out, Given(init, out), TurnedAway(init, out));
        case StreamMove(o, a) =>
          StreamMoveWhole(s, o, a, out, Given(init, out), TurnedAway(init, out));
          assert Given(run, out) == Given(init, out);
      }
    }
  }

  lemma NothingGiven(s0: System, out: nat)
    requires Initial(s0) && out < |s0.streams|
    ensures Final(s0, []) == s0 && WholeOrDoomed(s0, out, Given([], out), TurnedAway([], out))
  {
  }

  lemma EndedIsWhole(s: System, out: nat, given: seq<Samples>, away: bool)
    requires SystemInv(s) && WholeOrDoomed(s, out, given, away) && out < |s.lane.logs|
    requires S.Terminated(s.streams[out]) || (s.lane.logs[out].closed && !s.streams[out].failed)
    ensures !away && given == s.lane.logs[out].handed
  {
    var l := s.lane;
    assert Agree(s.streams[out], l.logs[out]);
    assert l.logs[out].closing && HandInv(l);
    hide S.Inv, EndInv, OrderInv, HelperInv, Items, AllItems;
  }

  /** On every run and for every stream: if a client has read a response to its end, or the stream
      was closed and has not failed, then every chunk the producer ever delivered to it was taken and
      handed over, in order, and the client hears all of them. */
  lemma NothingIsMissing(s0: System, run: seq<Move>, out: nat)
    requires Initial(s0) && ValidRun(s0, run) && out < |s0.streams|
    ensures var s := Final(s0, run);
      && out < |s.streams| && out < |s.lane.logs|
      && (S.Terminated(s.streams[out]) || (s.lane.logs[out].closed && !s.streams[out].failed) ==>
            !TurnedAway(run, out) && s.lane.logs[out].handed == Given(run, out))
      && (S.Terminated(s.streams[out]) ==> ClientHears(s.streams[out], Given(run, out)))
  {
    hide Initial, SystemInv, ValidRun, MoveEnabled, ApplyMove, WholeOrDoomed, S.Terminated, ClientHears, Given, TurnedAway;
    DeliveryRefinesEnqueue(s0, run, out);
    RunWhole(s0, run, out);
    InitialInv(s0);
    RunInv(s0, run);
    var s := Final(s0, run);
    if S.Terminated(s.streams[out]) || (s.lane.logs[out].closed && !s.streams[out].failed) {
      EndedIsWhole(s, out, Given(run, out), TurnedAway(run, out));
    }
  }
}
