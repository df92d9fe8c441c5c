/** Every call of `router_admit` in a run, with the router as it found it, and what came of it: on
    all runs each connection got what the workers and the queue allowed at that moment, and the
    record says nothing else. */
module RouterCalls {
  import opened Options
  import opened Router
  import opened RouterAdmission
  import opened RouterBooks
  import opened RouterInvariants
  import opened RouterTheorems

  // ------------------------------------------------------------------- the calls of a run

  datatype Call = Call(s: State, id: nat, lang: nat, at: real)

  function RouteCalls(s: State, id: nat, c: Class, now: real): seq<Call> {
    match c
    case Unknown => []
    case Group(g) => [Call(s, id, g, now)]
    case _ => [Call(s, id, 0, now)]
  }

  /** Those of the classification pass over the first `i` connections. */
  function ClassifyCalls(s: State, world: World, tick: Tick, i: nat): seq<Call>
    requires i <= |s.pending|
    decreases i
  {
    if i == 0 then []
    else
      var p := s.pending[i - 1];
      if Decided(p, tick) then
        var c := tick.decide(p.id);
        var t := Unpark(s, i - 1, c.Wait?);
        RoutePending(t, world, p.id, c, tick.now);
        RouteCalls(t, p.id, c, tick.now) + ClassifyCalls(Route(t, world, p.id, c, tick.now), world, tick, i - 1)
      else ClassifyCalls(s, world, tick, i - 1)
  }

  /** That of an arrival. */
  function AcceptCalls(s: State, c: Class, now: real): seq<Call> {
    if s.cfg.groups <= 1 then [Call(Counted(s), s.n.accepted, 0, now)]
    else if c.Wait? && |s.pending| < PENDING_MAX then []
    else RouteCalls(Counted(s), s.n.accepted, c, now)
  }

  /** An iteration up to its classification pass. */
  function Polled(s: State, tick: Tick): State {
    var s1 := LingerPass(s, tick, |s.linger|);
    var s3 := WatchPass(s1.(w := CompletePass(s1.w, tick)), tick.now);
    HangupPass(s3, tick, Watched(s3))
  }

  function IterateCalls(s: State, world: World, tick: Tick): seq<Call> {
    var t := Polled(s, tick);
    ClassifyCalls(t, world, tick, |t.pending|) +
    (if tick.arrival.Some? then AcceptCalls(Settle(s, world, tick), tick.arrival.value, tick.now) else [])
  }

  function RunCalls(s: State, world: World, ticks: seq<Tick>): seq<Call> {
    if ticks == [] then []
    else
      var init := ticks[..|ticks| - 1];
      RunCalls(s, world, init) + IterateCalls(After(s, world, init), world, ticks[|ticks| - 1])
  }

  // ------------------------------------------------------------------- what came of them

  /** The record shows what the call came to: the handoff to the least loaded free worker, the
      handoff that failed, the refusal for capacity; a connection with room behind it is queued, and
      the record shows nothing yet. */
  ghost predicate Answered(world: World, c: Call, log: History) {
    var h, r := |c.s.log.handoffs|, |c.s.log.refusals|;
    if Straight(c.s, c.lang) then
      if world.handoff(c.id) then
        && h < |log.handoffs|
        && var x := log.handoffs[h];
           x.id == c.id && x.lang == c.lang && x.at == c.at && LeastLoaded(c.s.w, c.lang, c.s.cfg.slots, x.worker)
      else r < |log.refusals| && log.refusals[r] == Refusal(c.id, HandoffFailed, c.at, c.at)
    else
      RoomBehind(c.s, c.lang, world.grows(c.id)) ||
      (r < |log.refusals| && log.refusals[r] == Refusal(c.id, AtCapacity, c.at, c.at))
  }

  /** Refusal number `k` is that of a call that found no free worker for it nor room behind. */
  ghost predicate TurnedAway(world: World, c: Call, refusals: seq<Refusal>, k: nat) {
    && k < |refusals| && c.id == refusals[k].id && c.at == refusals[k].at && c.s.log.refusals == refusals[..k]
    && !Straight(c.s, c.lang) && !RoomBehind(c.s, c.lang, world.grows(c.id))
  }

  /** A stretch of a run, with the calls in it. Records only grow; whoever was handed off could be,
      and whoever was refused for that could not; whoever was refused for capacity was turned away. */
  ghost predicate Recorded(world: World, calls: seq<Call>, a: History, b: History) {
    && a.handoffs <= b.handoffs && a.refusals <= b.refusals && a.closed <= b.closed
    && (forall k :: |a.handoffs| <= k < |b.handoffs| ==> world.handoff(b.handoffs[k].id))
    && (forall k :: |a.refusals| <= k < |b.refusals| && b.refusals[k].reason == HandoffFailed ==>
          !world.handoff(b.refusals[k].id))
    && (forall k :: |a.refusals| <= k < |b.refusals| && b.refusals[k].reason == AtCapacity ==>
          exists j :: 0 <= j < |calls| && TurnedAway(world, calls[j], b.refusals, k))
    && (forall j :: 0 <= j < |calls| ==> Answered(world, calls[j], b))
  }

  /** ... at time `now`, and with the breaches counted in it: whoever lingers since has half a second. */
  ghost predicate Moves(world: World, calls: seq<Call>, breaches: nat, now: real, s: State, t: State) {
    && Recorded(world, calls, s.log, t.log)
    && (forall l :: l in t.linger ==> l in s.linger || l.deadline == now + 0.5)
    && t.n.refused.serviceCap == s.n.refused.serviceCap + breaches
  }

  lemma AnsweredForGood(world: World, c: Call, log: History, later: History)
    requires Answered(world, c, log) && log.handoffs <= later.handoffs && log.refusals <= later.refusals
    ensures Answered(world, c, later)
  {
    hide Straight, RoomBehind, LeastLoaded;
  }

  lemma TurnedAwayForGood(world: World, c: Call, refusals: seq<Refusal>, later: seq<Refusal>, k: nat)
    requires TurnedAway(world, c, refusals, k) && refusals <= later
    ensures TurnedAway(world, c, later, k)
  {
    hide Straight, RoomBehind;
    assert later[..|refusals|][..k] == later[..k];
  }

  lemma CapacityCovered(world: World, a: seq<Call>, b: seq<Call>, r0: seq<Refusal>, r1: seq<Refusal>, r2: seq<Refusal>, k: nat)
    requires r0 <= r1 <= r2 && |r0| <= k < |r2| && r2[k].reason == AtCapacity
    requires |r0| <= k < |r1| && r1[k].reason == AtCapacity ==> exists j :: 0 <= j < |a| && TurnedAway(world, a[j], r1, k)
    requires |r1| <= k ==> exists j :: 0 <= j < |b| && TurnedAway(world, b[j], r2, k)
    ensures exists j :: 0 <= j < |a + b| && TurnedAway(world, (a + b)[j], r2, k)
  {
    if k < |r1| {
      assert r1[k] == r2[k];
      var j :| 0 <= j < |a| && TurnedAway(world, a[j], r1, k);
      TurnedAwayForGood(world, a[j], r1, r2, k);
      assert (a + b)[j] == a[j];
    } else {
      var j :| 0 <= j < |b| && TurnedAway(world, b[j], r2, k);
      assert (a + b)[|a| + j] == b[j];
    }
  }

  lemma RecordedTwice(world: World, x: seq<Call>, y: seq<Call>, a: History, b: History, c: History)
    requires Recorded(world, x, a, b) && Recorded(world, y, b, c)
    ensures Recorded(world, x + y, a, c)
  {
    hide Answered, TurnedAway;
    forall k | |a.refusals| <= k < |c.refusals| && c.refusals[k].reason == AtCapacity
      ensures exists j :: 0 <= j < |x + y| && TurnedAway(world, (x + y)[j], c.refusals, k)
    {
      CapacityCovered(world, x, y, a.refusals, b.refusals, c.refusals, k);
    }
    forall j | 0 <= j < |x + y|
      ensures Answered(world, (x + y)[j], c)
    {
      if j < |x| {
        AnsweredForGood(world, x[j], b, c);
      }
    }
    assert forall k :: |a.handoffs| <= k < |b.handoffs| ==> c.handoffs[k] == b.handoffs[k];
    assert forall k :: |a.refusals| <= k < |b.refusals| ==> c.refusals[k] == b.refusals[k];
  }

  lemma MovesTwice(world: World, a: seq<Call>, b: seq<Call>, m: nat, n: nat, now: real, s: State, t: State, u: State)
    requires Moves(world, a, m, now, s, t) && Moves(world, b, n, now, t, u)
    ensures Moves(world, a + b, m + n, now, s, u)
  {
    hide Recorded;
    RecordedTwice(world, a, b, s.log, t.log, u.log);
  }

  /** Nothing is recorded, nobody lingers. */
  lemma NothingMoves(world: World, now: real, s: State, t: State)
    requires t.log.handoffs == s.log.handoffs && t.log.refusals == s.log.refusals && s.log.closed <= t.log.closed
    requires (forall l :: l in t.linger ==> l in s.linger) && t.n.refused.serviceCap == s.n.refused.serviceCap
    ensures Moves(world, [], 0, now, s, t)
  {
  }

  // ----------------------------------------------------------------------- one by one

  lemma RefuseMoves(world: World, s: State, id: nat, reason: Reason, since: real, now: real)
    requires reason != AtCapacity && reason != ServiceCap && (reason == HandoffFailed ==> !world.handoff(id))
    ensures Moves(world, [], 0, now, s, Refuse(s, world, id, reason, since, now))
  {
  }

  lemma DispatchMoves(world: World, s: State, worker: nat, e: Queued, now: real)
    requires worker < |s.w|
    ensures Moves(world, [], 0, now, s, Dispatch(s, world, worker, e, now))
  {
    hide Refuse, Assign;
    if !world.handoff(e.id) {
      RefuseMoves(world, s, e.id, HandoffFailed, e.enqueued, now);
    }
  }

  /** What an admission leaves alone. */
  lemma AdmitSides(world: World, s: State, id: nat, lang: nat, now: real)
    ensures var t := Admit(s, world, id, lang, now);
      && s.log.closed <= t.log.closed && t.n.refused.serviceCap == s.n.refused.serviceCap
      && (forall l :: l in t.linger ==> l in s.linger || l.deadline == now + 0.5)
  {
    hide GroupPick, GroupQueued, HasRoom, Assign;
  }

  lemma AdmitMoves(world: World, s: State, id: nat, lang: nat, now: real)
    ensures Moves(world, [Call(s, id, lang, now)], 0, now, s, Admit(s, world, id, lang, now))
  {
    AdmitSides(world, s, id, lang, now);
    var i := AdmitDecides(s, world, id, lang, now);
    hide Admit, Straight, RoomBehind, LeastLoaded, OneMore;
    var c := Call(s, id, lang, now);
    var t := Admit(s, world, id, lang, now);
    if !Straight(s, lang) && !RoomBehind(s, lang, world.grows(id)) {
      assert [c][0] == c && TurnedAway(world, c, t.log.refusals, |s.log.refusals|);
    }
  }

  lemma RouteMoves(world: World, s: State, id: nat, c: Class, now: real)
    ensures Moves(world, RouteCalls(s, id, c, now), 0, now, s, Route(s, world, id, c, now))
  {
    hide Moves, Admit, Refuse;
    match c {
      case Unknown => RefuseMoves(world, s, id, LanguageNotServed, now, now);
      case Group(g) => AdmitMoves(world, s, id, g, now);
      case _ => AdmitMoves(world, s, id, 0, now);
    }
  }

  lemma {:induction false} ClassifyMoves(world: World, s: State, tick: Tick, i: nat)
    requires i <= |s.pending|
    ensures Moves(world, ClassifyCalls(s, world, tick, i), 0, tick.now, s, ClassifyPass(s, world, tick, i))
    decreases i
  {
    hide Moves, Route, Decided, SwapErase, RouteCalls;
    if i == 0 {
      NothingMoves(world, tick.now, s, s);
    } else {
      var p := s.pending[i - 1];
      if Decided(p, tick) {
        var c := tick.decide(p.id);
        var t := Unpark(s, i - 1, c.Wait?);
        var u := Route(t, world, p.id, c, tick.now);
        NothingMoves(world, tick.now, s, t);
        RouteMoves(world, t, p.id, c, tick.now);
        MovesTwice(world, [], RouteCalls(t, p.id, c, tick.now), 0, 0, tick.now, s, t, u);
        RoutePending(t, world, p.id, c, tick.now);
        ClassifyMoves(world, u, tick, i - 1);
        MovesTwice(world, [] + RouteCalls(t, p.id, c, tick.now), ClassifyCalls(u, world, tick, i - 1), 0, 0, tick.now,
                   s, u, ClassifyPass(u, world, tick, i - 1));
        assert [] + RouteCalls(t, p.id, c, tick.now) == RouteCalls(t, p.id, c, tick.now);
      } else {
        ClassifyMoves(world, s, tick, i - 1);
      }
    }
  }

  lemma DrainOneMoves(world: World, s: State, lang: nat, now: real)
    ensures var r := DrainOne(s, world, lang, now); r.Some? ==> Moves(world, [], 0, now, s, r.value)
  {
    hide Moves, GroupHead, GroupPick, Dispatch, Refuse, Erase;
    var head := GroupHead(s.q, lang);
    if head.Some? {
      var e := s.q[head.value];
      var t := PopAt(s, head.value);
      NothingMoves(world, now, s, t);
      var best := GroupPick(s.w, lang, s.cfg.slots);
      var none: seq<Call> := [];
      assert none + none == none;
      if Expired(e.enqueued, s.cfg.deadlineMs, now) {
        RefuseMoves(world, t, e.id, QueuedTooLong, e.enqueued, now);
        MovesTwice(world, none, none, 0, 0, now, s, t, Refuse(t, world, e.id, QueuedTooLong, e.enqueued, now));
      } else if best.Some? {
        DispatchMoves(world, t, best.value, e, now);
        MovesTwice(world, none, none, 0, 0, now, s, t, Dispatch(t, world, best.value, e, now));
      }
    }
  }

  lemma {:induction false} DrainGroupMoves(world: World, s: State, lang: nat, now: real)
    ensures Moves(world, [], 0, now, s, DrainGroup(s, world, lang, now))
    decreases |s.q|
  {
    hide Moves, DrainOne;
    var r := DrainOne(s, world, lang, now);
    if r.None? {
      NothingMoves(world, now, s, s);
    } else {
      DrainOneMoves(world, s, lang, now);
      DrainGroupMoves(world, r.value, lang, now);
      var none: seq<Call> := [];
      assert none + none == none;
      MovesTwice(world, none, none, 0, 0, now, s, r.value, DrainGroup(r.value, world, lang, now));
    }
  }

  lemma {:induction false} DrainMoves(world: World, s: State, groups: nat, now: real)
    ensures Moves(world, [], 0, now, s, DrainUpTo(s, world, groups, now))
  {
    hide Moves, DrainGroup;
    if groups == 0 {
      NothingMoves(world, now, s, s);
    } else {
      var t := DrainUpTo(s, world, groups - 1, now);
      DrainMoves(world, s, groups - 1, now);
      DrainGroupMoves(world, t, groups - 1, now);
      var none: seq<Call> := [];
      assert none + none == none;
      MovesTwice(world, none, none, 0, 0, now, s, t, DrainGroup(t, world, groups - 1, now));
    }
  }

  lemma {:induction false} LingerMoves(world: World, s: State, tick: Tick, i: nat)
    requires i <= |s.linger|
    ensures Moves(world, [], 0, tick.now, s, LingerPass(s, tick, i))
    decreases i
  {
    hide Moves, Finishes, SwapErase;
    if i == 0 {
      NothingMoves(world, tick.now, s, s);
    } else if Finishes(s.linger[i - 1], tick) {
      var t := EndLinger(s, i - 1);
      EndLingerMoves(world, s, i - 1, tick.now);
      LingerMoves(world, t, tick, i - 1);
      var none: seq<Call> := [];
      assert none + none == none;
      MovesTwice(world, none, none, 0, 0, tick.now, s, t, LingerPass(t, tick, i - 1));
    } else {
      LingerMoves(world, s, tick, i - 1);
    }
  }

  lemma EndLingerMoves(world: World, s: State, at: nat, now: real)
    requires at < |s.linger|
    ensures Moves(world, [], 0, now, s, EndLinger(s, at))
  {
    NothingMoves(world, now, s, EndLinger(s, at));
  }

  lemma {:induction false} HangupMoves(world: World, s: State, tick: Tick, i: nat)
    requires i <= |s.q|
    ensures Moves(world, [], 0, tick.now, s, HangupPass(s, tick, i))
    decreases i
  {
    hide Moves, Erase;
    if i == 0 {
      NothingMoves(world, tick.now, s, s);
    } else if tick.fired(s.q[i - 1].id) {
      var t := HangUp(s, i - 1);
      NothingMoves(world, tick.now, s, t);
      HangupMoves(world, t, tick, i - 1);
      var none: seq<Call> := [];
      assert none + none == none;
      MovesTwice(world, none, none, 0, 0, tick.now, s, t, HangupPass(t, tick, i - 1));
    } else {
      HangupMoves(world, s, tick, i - 1);
    }
  }

  lemma WatchMoves(world: World, s: State, tick: Tick)
    ensures var w := CompletePass(s.w, tick);
      Moves(world, [], Breachers(w, s.cfg.serviceCapMs, tick.now), tick.now, s, WatchPass(s.(w := w), tick.now))
  {
    hide CompletePass, Watch, Breachers;
  }

  lemma AcceptMoves(world: World, s: State, c: Class, now: real)
    ensures Moves(world, AcceptCalls(s, c, now), 0, now, s, Accept(s, world, c, now))
  {
    hide Moves, Admit, Route, RouteCalls;
    var t, id := Counted(s), s.n.accepted;
    NothingMoves(world, now, s, t);
    if s.cfg.groups <= 1 {
      AdmitMoves(world, t, id, 0, now);
      MovesTwice(world, [], [Call(t, id, 0, now)], 0, 0, now, s, t, Admit(t, world, id, 0, now));
      assert [] + [Call(t, id, 0, now)] == [Call(t, id, 0, now)];
    } else if c.Wait? && |s.pending| < PENDING_MAX {
      NothingMoves(world, now, s, Park(t, id, now));
    } else {
      RouteMoves(world, t, id, c, now);
      MovesTwice(world, [], RouteCalls(t, id, c, now), 0, 0, now, s, t, Route(t, world, id, c, now));
      assert [] + RouteCalls(t, id, c, now) == RouteCalls(t, id, c, now);
    }
  }

  /** How many breaches an iteration counts. */
  function BreachesSeen(s: State, tick: Tick): nat {
    Breachers(CompletePass(s.w, tick), s.cfg.serviceCapMs, tick.now)
  }

  lemma {:induction false} LingerKeepsRest(s: State, tick: Tick, i: nat)
    requires i <= |s.linger|
    ensures var t := LingerPass(s, tick, i); t.w == s.w && t.cfg == s.cfg && t.q == s.q && t.log.handoffs == s.log.handoffs
    decreases i
  {
    hide Finishes, SwapErase;
    if i > 0 {
      LingerKeepsRest(if Finishes(s.linger[i - 1], tick) then EndLinger(s, i - 1) else s, tick, i - 1);
    }
  }

  /** From after the lingering closes on, an iteration ... */
  lemma PolledMoves(world: World, s: State, tick: Tick)
    ensures Moves(world, [], BreachesSeen(s, tick), tick.now, LingerPass(s, tick, |s.linger|), Polled(s, tick))
  {
    hide Moves, LingerPass, CompletePass, WatchPass, HangupPass, Breachers;
    var now := tick.now;
    var s1 := LingerPass(s, tick, |s.linger|);
    var s3 := WatchPass(s1.(w := CompletePass(s1.w, tick)), now);
    var none: seq<Call> := [];
    assert none + none == none;
    LingerKeepsRest(s, tick, |s.linger|);
    WatchMoves(world, s1, tick);
    HangupMoves(world, s3, tick, Watched(s3));
    MovesTwice(world, none, none, BreachesSeen(s, tick), 0, now, s1, s3, Polled(s, tick));
  }

  lemma SettleMoves(world: World, s: State, tick: Tick)
    ensures var t := Polled(s, tick);
      Moves(world, ClassifyCalls(t, world, tick, |t.pending|), BreachesSeen(s, tick), tick.now,
            LingerPass(s, tick, |s.linger|), Settle(s, world, tick))
  {
    var s1, t := LingerPass(s, tick, |s.linger|), Polled(s, tick);
    var u := ClassifyPass(t, world, tick, |t.pending|);
    assert Settle(s, world, tick) == Drain(u, world, tick.now);
    hide Moves, Polled, LingerPass, ClassifyPass, ClassifyCalls, DrainUpTo, BreachesSeen, Settle;
    var calls := ClassifyCalls(t, world, tick, |t.pending|);
    PolledMoves(world, s, tick);
    ClassifyMoves(world, t, tick, |t.pending|);
    MovesTwice(world, [], calls, BreachesSeen(s, tick), 0, tick.now, s1, t, u);
    DrainMoves(world, u, u.cfg.groups, tick.now);
    MovesTwice(world, [] + calls, [], BreachesSeen(s, tick), 0, tick.now, s1, u, Drain(u, world, tick.now));
    assert [] + calls + [] == calls;
  }

  lemma IterateMoves(world: World, s: State, tick: Tick)
    ensures Moves(world, IterateCalls(s, world, tick), BreachesSeen(s, tick), tick.now,
                  LingerPass(s, tick, |s.linger|), Iterate(s, world, tick))
  {
    hide Moves, Polled, LingerPass, ClassifyCalls, AcceptCalls, Settle, Accept, BreachesSeen;
    var t := Polled(s, tick);
    var calls := ClassifyCalls(t, world, tick, |t.pending|);
    SettleMoves(world, s, tick);
    if tick.arrival.Some? {
      var u := Settle(s, world, tick);
      AcceptMoves(world, u, tick.arrival.value, tick.now);
      MovesTwice(world, calls, AcceptCalls(u, tick.arrival.value, tick.now), BreachesSeen(s, tick), 0, tick.now,
                 LingerPass(s, tick, |s.linger|), u, Accept(u, world, tick.arrival.value, tick.now));
    } else {
      assert calls + [] == calls;
    }
  }

  /** ... and a whole one. */
  lemma IterateRecorded(world: World, s: State, tick: Tick)
    ensures Moves(world, IterateCalls(s, world, tick), BreachesSeen(s, tick), tick.now, s, Iterate(s, world, tick))
  {
    hide Moves, LingerPass, IterateCalls, BreachesSeen, Iterate;
    IterateMoves(world, s, tick);
    LingerMoves(world, s, tick, |s.linger|);
    var calls := IterateCalls(s, world, tick);
    MovesTwice(world, [], calls, 0, BreachesSeen(s, tick), tick.now, s, LingerPass(s, tick, |s.linger|), Iterate(s, world, tick));
    assert [] + calls == calls;
  }

  // ------------------------------------------------------------------------- on every run

  lemma {:induction false} RunRecorded(world: World, s: State, ticks: seq<Tick>)
    ensures Recorded(world, RunCalls(s, world, ticks), s.log, After(s, world, ticks).log)
  {
    hide Recorded, IterateCalls, Iterate;
    if ticks == [] {
      NothingRecorded(world, s.log);
    } else {
      var init, last := ticks[..|ticks| - 1], ticks[|ticks| - 1];
      var t := After(s, world, init);
      RunRecorded(world, s, init);
      IterateRecorded(world, t, last);
      RecordedTwice(world, RunCalls(s, world, init), IterateCalls(t, world, last), s.log, t.log, Iterate(t, world, last).log);
    }
  }

  lemma NothingRecorded(world: World, a: History)
    ensures Recorded(world, [], a, a)
  {
  }

  /** Admission. Of every run: each call of `router_admit` was answered by what the workers and the
      queue allowed when it was made. */
  lemma CallsAreAnswered(cfg: Config, w: seq<Worker>, world: World, ticks: seq<Tick>, j: nat)
    requires j < |RunCalls(Start(cfg, w), world, ticks)|
    ensures Answered(world, RunCalls(Start(cfg, w), world, ticks)[j], After(Start(cfg, w), world, ticks).log)
  {
    hide Answered, RunCalls, After;
    RunRecorded(world, Start(cfg, w), ticks);
  }

  /** And every refusal for want of capacity is that of a call which found somebody of its group
      waiting or no worker of it free, and no room behind. */
  lemma CapacityRefusalsAreTrue(cfg: Config, w: seq<Worker>, world: World, ticks: seq<Tick>, k: nat) returns (j: nat)
    requires k < |After(Start(cfg, w), world, ticks).log.refusals|
    requires After(Start(cfg, w), world, ticks).log.refusals[k].reason == AtCapacity
    ensures j < |RunCalls(Start(cfg, w), world, ticks)|
    ensures TurnedAway(world, RunCalls(Start(cfg, w), world, ticks)[j], After(Start(cfg, w), world, ticks).log.refusals, k)
  {
    hide TurnedAway, Answered, RunCalls, After;
    RunRecorded(world, Start(cfg, w), ticks);
    var calls, refusals := RunCalls(Start(cfg, w), world, ticks), After(Start(cfg, w), world, ticks).log.refusals;
    var i :| 0 <= i < |calls| && TurnedAway(world, calls[i], refusals, k);
    j := i;
  }

  /** Whoever was handed off could be, and nobody was refused for a handoff that would have gone well. */
  lemma HandoffsAreTrue(cfg: Config, w: seq<Worker>, world: World, ticks: seq<Tick>)
    ensures var log := After(Start(cfg, w), world, ticks).log;
      && (forall k :: 0 <= k < |log.handoffs| ==> world.handoff(log.handoffs[k].id))
      && (forall k :: 0 <= k < |log.refusals| && log.refusals[k].reason == HandoffFailed ==>
            !world.handoff(log.refusals[k].id))
  {
    hide TurnedAway, Answered, RunCalls, After;
    RunRecorded(world, Start(cfg, w), ticks);
  }

  // ------------------------------------------------------------------- lingering closes

  ghost predicate InTime(linger: seq<Lingering>, from: nat, now: real) {
    forall k :: from <= k < |linger| ==> now < linger[k].deadline
  }

  lemma {:induction false} LingerPassLeaves(s: State, tick: Tick, i: nat)
    requires i <= |s.linger| && InTime(s.linger, i, tick.now)
    ensures InTime(LingerPass(s, tick, i).linger, 0, tick.now)
    decreases i
  {
    if i > 0 {
      if Finishes(s.linger[i - 1], tick) {
        LingerPassLeaves(EndLinger(s, i - 1), tick, i - 1);
      } else {
        LingerPassLeaves(s, tick, i - 1);
      }
    }
  }

  lemma LingerAfter(world: World, s: State, tick: Tick)
    ensures var t := Iterate(s, world, tick); forall l :: l in t.linger ==> tick.now < l.deadline
    ensures var t := Iterate(s, world, tick); forall l :: l in t.linger ==> l in s.linger || l.deadline == tick.now + 0.5
  {
    hide Iterate, LingerPass, Recorded, IterateCalls, BreachesSeen;
    LingerPassLeaves(s, tick, |s.linger|);
    LingerMoves(world, s, tick, |s.linger|);
    IterateMoves(world, s, tick);
  }

  /** No refused connection is kept for more than half a second: at the top of each iteration but the
      first every lingering close is inside its time. */
  lemma {:induction false} LingeringIsBounded(
    cfg: Config, w: seq<Worker>, world: World, ticks: seq<Tick>, start: real, l: Lingering)
    requires ValidTicks(cfg.groups, ticks, start) && l in After(Start(cfg, w), world, ticks).linger
    ensures ticks != [] && Clock(ticks, start) < l.deadline <= Clock(ticks, start) + 0.5
  {
    if ticks != [] {
      hide Iterate;
      var init, last := ticks[..|ticks| - 1], ticks[|ticks| - 1];
      var s := After(Start(cfg, w), world, init);
      LingerAfter(world, s, last);
      if l in s.linger {
        LingeringIsBounded(cfg, w, world, init, start, l);
      }
    }
  }

  // ------------------------------------------------------------------- clients that hang up

  lemma {:induction false} HangupCloses(s: State, tick: Tick, n: nat, i: nat, world: World)
    requires i < n <= |s.q| && tick.fired(s.q[i].id)
    ensures s.q[i].id in HangupPass(s, tick, n).log.closed
    decreases n
  {
    hide Recorded;
    var t := if tick.fired(s.q[n - 1].id) then HangUp(s, n - 1) else s;
    if i == n - 1 {
      HangupMoves(world, t, tick, n - 1);
      Stays(t, tick, n - 1, s.q[i].id, world);
    } else {
      HangupCloses(t, tick, n - 1, i, world);
    }
  }

  lemma Stays(s: State, tick: Tick, n: nat, id: nat, world: World)
    requires n <= |s.q| && id in s.log.closed
    ensures id in HangupPass(s, tick, n).log.closed
  {
    HangupMoves(world, s, tick, n);
  }

  /** The queue without those of the first `n` that `poll` reported gone, in its order. */
  function Staying(q: seq<Queued>, tick: Tick, n: nat): seq<Queued>
    requires n <= |q|
  {
    if n == 0 then [] else Staying(q, tick, n - 1) + (if tick.fired(q[n - 1].id) then [] else [q[n - 1]])
  }

  lemma {:induction false} StayingSame(p: seq<Queued>, q: seq<Queued>, tick: Tick, n: nat)
    requires n <= |p| && n <= |q| && p[..n] == q[..n]
    ensures Staying(p, tick, n) == Staying(q, tick, n)
  {
    if n > 0 {
      assert p[n - 1] == p[..n][n - 1] == q[n - 1];
      assert p[..n - 1] == p[..n][..n - 1] == q[..n - 1];
      StayingSame(p, q, tick, n - 1);
    }
  }

  lemma ErasedAround(q: seq<Queued>, n: nat)
    requires 0 < n <= |q|
    ensures Erase(q, n - 1)[..n - 1] == q[..n - 1] && Erase(q, n - 1)[n - 1..] == q[n..]
  {
  }

  lemma StayingNext(q: seq<Queued>, tick: Tick, n: nat)
    requires 0 < n <= |q| && !tick.fired(q[n - 1].id)
    ensures Staying(q, tick, n - 1) + q[n - 1..] == Staying(q, tick, n) + q[n..]
  {
    assert q[n - 1..] == [q[n - 1]] + q[n..];
  }

  /** The pass over the queue takes out exactly those, and counts them. */
  lemma {:induction false} HangupLeaves(s: State, tick: Tick, n: nat)
    requires n <= |s.q|
    ensures var t := HangupPass(s, tick, n);
      t.q == Staying(s.q, tick, n) + s.q[n..] && t.n.clientGone == s.n.clientGone + |s.q| - |t.q|
    decreases n
  {
    hide Erase;
    if n == 0 {
      assert [] + s.q[0..] == s.q;
    } else if tick.fired(s.q[n - 1].id) {
      var t := HangUp(s, n - 1);
      ErasedAround(s.q, n);
      HangupLeaves(t, tick, n - 1);
      StayingSame(s.q, t.q, tick, n - 1);
    } else {
      HangupLeaves(s, tick, n - 1);
      StayingNext(s.q, tick, n);
    }
  }

  lemma {:induction false} LingerCounts(s: State, tick: Tick, i: nat)
    requires i <= |s.linger|
    ensures LingerPass(s, tick, i).n == s.n
    decreases i
  {
    hide Finishes, SwapErase;
    if i > 0 {
      LingerCounts(if Finishes(s.linger[i - 1], tick) then EndLinger(s, i - 1) else s, tick, i - 1);
    }
  }

  /** Of the first 64 queued exactly those leave that `poll` reported gone, counted, not refused; the
      others and all behind keep their order. */
  lemma HangupsAreSeen(s: State, tick: Tick)
    ensures var t, n := Polled(s, tick), if |s.q| < 64 then |s.q| else 64;
      && t.q == Staying(s.q, tick, n) + s.q[n..] && t.n.clientGone == s.n.clientGone + |s.q| - |t.q|
  {
    hide LingerPass, CompletePass, HangupPass, Staying, Watch, Breachers;
    LingerKeepsRest(s, tick, |s.linger|);
    LingerCounts(s, tick, |s.linger|);
    var s1 := LingerPass(s, tick, |s.linger|);
    var s3 := WatchPass(s1.(w := CompletePass(s1.w, tick)), tick.now);
    HangupLeaves(s3, tick, Watched(s3));
  }

  lemma {:induction false} LaterRecord(s: State, world: World, ticks: seq<Tick>, k: nat)
    requires k <= |ticks|
    ensures After(s, world, ticks[..k]).log.closed <= After(s, world, ticks).log.closed
    decreases |ticks|
  {
    hide Iterate, IterateCalls, BreachesSeen;
    if k == |ticks| {
      assert ticks[..k] == ticks;
    } else {
      var init, last := ticks[..|ticks| - 1], ticks[|ticks| - 1];
      LaterRecord(s, world, init, k);
      assert init[..k] == ticks[..k];
      IterateRecorded(world, After(s, world, init), last);
    }
  }

  lemma HungUpIsClosed(s: State, world: World, tick: Tick, i: nat)
    requires i < |s.q| && i < 64 && tick.fired(s.q[i].id)
    ensures s.q[i].id in Iterate(s, world, tick).log.closed
  {
    var s1 := LingerPass(s, tick, |s.linger|);
    LingerKeepsRest(s, tick, |s.linger|);
    var s3 := WatchPass(s1.(w := CompletePass(s1.w, tick)), tick.now);
    assert s3.q == s.q;
    HangupCloses(s3, tick, Watched(s3), i, world);
    PolledIsEarlier(s, world, tick);
    hide LingerPass, CompletePass, WatchPass, HangupPass, Iterate;
  }

  lemma PolledIsEarlier(s: State, world: World, tick: Tick)
    ensures Polled(s, tick).log.closed <= Iterate(s, world, tick).log.closed
  {
    hide Polled, ClassifyPass, ClassifyCalls, DrainUpTo, Accept, AcceptCalls;
    var t := Polled(s, tick);
    SettleIs(s, world, tick);
    hide Settle;
    ClassifyMoves(world, t, tick, |t.pending|);
    var u := ClassifyPass(t, world, tick, |t.pending|);
    DrainMoves(world, u, u.cfg.groups, tick.now);
    if tick.arrival.Some? {
      AcceptMoves(world, Settle(s, world, tick), tick.arrival.value, tick.now);
    }
  }

  lemma SettleIs(s: State, world: World, tick: Tick)
    ensures Settle(s, world, tick) == Drain(ClassifyPass(Polled(s, tick), world, tick, |Polled(s, tick).pending|), world, tick.now)
  {
    hide LingerPass, CompletePass, WatchPass, HangupPass, ClassifyPass, DrainUpTo;
  }

  lemma {:induction false} IdsHas(h: seq<Handoff>, k: nat)
    requires k < |h|
    ensures Ids(h, HandoffId)[h[k].id] >= 1
  {
    if k < |h| - 1 {
      IdsHas(h[..|h| - 1], k);
    }
  }

  /** A client that hung up in the queue, and was seen to have, is served by nobody any more: of the
      first 64 queued whoever `poll` reports gone is in no worker's hands, then or ever after. */
  lemma HungUpIsNotServed(
    cfg: Config, w: seq<Worker>, world: World, ticks: seq<Tick>, start: real, k: nat, i: nat)
    requires FreshFleet(cfg, w) && ValidTicks(cfg.groups, ticks, start) && k < |ticks|
    requires i < 64 && i < |After(Start(cfg, w), world, ticks[..k]).q|
    requires ticks[k].fired(After(Start(cfg, w), world, ticks[..k]).q[i].id)
    ensures var id, log := After(Start(cfg, w), world, ticks[..k]).q[i].id, After(Start(cfg, w), world, ticks).log;
      id in log.closed && forall h :: 0 <= h < |log.handoffs| ==> log.handoffs[h].id != id
  {
    var s := After(Start(cfg, w), world, ticks[..k]);
    var id, t := s.q[i].id, After(Start(cfg, w), world, ticks);
    hide After, Iterate, Start, FreshFleet, ValidTicks, Everyone, Recorded, Numbered, Accounted, Refusals;
    AfterNext(Start(cfg, w), world, ticks, k);
    HungUpIsClosed(s, world, ticks[k], i);
    LaterRecord(Start(cfg, w), world, ticks, k + 1);
    EveryConnectionOnce(cfg, w, world, ticks, start);
    OnePlace(t, id);
  }

  lemma AfterNext(s: State, world: World, ticks: seq<Tick>, k: nat)
    requires k < |ticks|
    ensures After(s, world, ticks[..k + 1]) == Iterate(After(s, world, ticks[..k]), world, ticks[k])
  {
    assert ticks[..k + 1][..k] == ticks[..k];
  }

  lemma OnePlace(t: State, id: nat)
    requires Everyone(t)[id] <= 1 && id in t.log.closed
    ensures forall h :: 0 <= h < |t.log.handoffs| ==> t.log.handoffs[h].id != id
  {
    hide Ids;
    forall h | 0 <= h < |t.log.handoffs|
      ensures t.log.handoffs[h].id != id
    {
      IdsHas(t.log.handoffs, h);
    }
  }

  // -------------------------------------------------------------- who stays, exactly

  function Filter<T>(s: seq<T>, keep: T -> bool): seq<T> {
    if s == [] then [] else Filter(s[..|s| - 1], keep) + (if keep(s[|s| - 1]) then [s[|s| - 1]] else [])
  }

  lemma SwapErased<T>(s: seq<T>, i: nat)
    requires i < |s|
    ensures SwapErase(s, i)[..i] == s[..i] && multiset(SwapErase(s, i)[i..]) == multiset(s[i + 1..])
  {
    var last := s[|s| - 1];
    if i < |s| - 1 {
      assert SwapErase(s, i)[i..] == [last] + s[i + 1..|s| - 1];
      assert s[i + 1..] == s[i + 1..|s| - 1] + [last];
    }
  }

  lemma FilterNext<T>(s: seq<T>, i: nat, keep: T -> bool)
    requires 0 < i <= |s|
    ensures Filter(s[..i], keep) == Filter(s[..i - 1], keep) + (if keep(s[i - 1]) then [s[i - 1]] else [])
    ensures multiset(s[i - 1..]) == multiset{s[i - 1]} + multiset(s[i..])
  {
    assert s[..i][..i - 1] == s[..i - 1];
    assert s[i - 1..] == [s[i - 1]] + s[i..];
  }

  /** It still has time, and has not been seen to be done with. */
  function Lingers(tick: Tick): Lingering -> bool {
    (l: Lingering) => tick.now < l.deadline && !(tick.fired(l.id) && tick.lingerCloses(l.id))
  }

  /** The pass over the lingering closes ends exactly those whose time is up or that `poll` reported
      and the step then closed: nobody's response is cut short before. */
  lemma {:induction false} LingerLeaves(s: State, tick: Tick, i: nat)
    requires i <= |s.linger|
    ensures multiset(LingerPass(s, tick, i).linger) ==
      multiset(Filter(s.linger[..i], Lingers(tick))) + multiset(s.linger[i..])
    decreases i
  {
    hide SwapErase;
    if i == 0 {
      assert s.linger[0..] == s.linger;
    } else {
      FilterNext(s.linger, i, Lingers(tick));
      if Finishes(s.linger[i - 1], tick) {
        SwapErased(s.linger, i - 1);
        LingerLeaves(EndLinger(s, i - 1), tick, i - 1);
      } else {
        LingerLeaves(s, tick, i - 1);
      }
    }
  }

  /** Neither is its time up nor can its language be told from what `poll` reported. */
  function Undecided(tick: Tick): Pending -> bool {
    (p: Pending) => tick.now < p.deadline && (tick.fired(p.id) ==> tick.decide(p.id).Wait?)
  }

  lemma {:induction false} ClassifyLeaves(s: State, world: World, tick: Tick, i: nat)
    requires i <= |s.pending|
    ensures multiset(ClassifyPass(s, world, tick, i).pending) ==
      multiset(Filter(s.pending[..i], Undecided(tick))) + multiset(s.pending[i..])
    decreases i
  {
    hide Route, SwapErase;
    if i == 0 {
      assert s.pending[0..] == s.pending;
    } else {
      FilterNext(s.pending, i, Undecided(tick));
      var p := s.pending[i - 1];
      if Decided(p, tick) {
        var c := tick.decide(p.id);
        var t := Unpark(s, i - 1, c.Wait?);
        SwapErased(s.pending, i - 1);
        RoutePending(t, world, p.id, c, tick.now);
        ClassifyLeaves(Route(t, world, p.id, c, tick.now), world, tick, i - 1);
      } else {
        ClassifyLeaves(s, world, tick, i - 1);
      }
    }
  }

  lemma {:induction false} LingerPending(s: State, tick: Tick, i: nat)
    requires i <= |s.linger|
    ensures LingerPass(s, tick, i).pending == s.pending
    decreases i
  {
    hide SwapErase, Finishes;
    if i > 0 {
      LingerPending(if Finishes(s.linger[i - 1], tick) then EndLinger(s, i - 1) else s, tick, i - 1);
    }
  }

  lemma {:induction false} HangupPending(s: State, tick: Tick, i: nat)
    requires i <= |s.q|
    ensures HangupPass(s, tick, i).pending == s.pending
    decreases i
  {
    hide Erase;
    if i > 0 {
      HangupPending(if tick.fired(s.q[i - 1].id) then HangUp(s, i - 1) else s, tick, i - 1);
    }
  }

  lemma PolledPending(s: State, tick: Tick)
    ensures Polled(s, tick).pending == s.pending
  {
    hide LingerPass, CompletePass, HangupPass, Watch, Breachers;
    LingerPending(s, tick, |s.linger|);
    var s1 := LingerPass(s, tick, |s.linger|);
    var s3 := WatchPass(s1.(w := CompletePass(s1.w, tick)), tick.now);
    HangupPending(s3, tick, Watched(s3));
  }

  /** An iteration leaves in the classification set exactly who is still undecided, and whoever arrived
      in it undecided and found a place: it keeps nobody waiting whose language it can tell or whose
      time is up, and gives up on nobody before. */
  lemma DecidedAreRouted(s: State, world: World, tick: Tick)
    ensures var v := Settle(s, world, tick);
      multiset(Iterate(s, world, tick).pending) ==
        multiset(Filter(s.pending, Undecided(tick))) +
        (if tick.arrival.Some? && tick.arrival.value.Wait? && v.cfg.groups > 1 && |v.pending| < 64
         then multiset{Pending(v.n.accepted, tick.now + 2.0)} else multiset{})
  {
    hide Polled, ClassifyPass, DrainUpTo, Undecided, Accept, Admit, Route, Filter;
    var t := Polled(s, tick);
    SettleIs(s, world, tick);
    hide Settle;
    PolledPending(s, tick);
    ClassifyLeaves(t, world, tick, |t.pending|);
    assert t.pending[..|t.pending|] == s.pending;
    var u := ClassifyPass(t, world, tick, |t.pending|);
    DrainPending(u, world, u.cfg.groups, tick.now);
    var v := Settle(s, world, tick);
    if tick.arrival.Some? {
      ArrivalDecides(v, world, tick.arrival.value, tick.now);
      var group := if v.cfg.groups > 1 && tick.arrival.value.Group? then tick.arrival.value.g else 0;
      AdmitPending(Counted(v), world, v.n.accepted, group, tick.now);
    }
  }
}
