/** The books the router keeps: every accepted connection is in one place and counted once, every
    slot is given back once, every group is served in order. This module shows what each routine
    does to them. */
module RouterBooks {
  import opened Router

  // ------------------------------------------------------- where connections are

  ghost function Ids<T>(s: seq<T>, id: T -> nat): multiset<nat> {
    if s == [] then multiset{} else Ids(s[..|s| - 1], id) + multiset{id(s[|s| - 1])}
  }

  lemma IdsAppend<T>(s: seq<T>, x: T, id: T -> nat)
    ensures Ids(s + [x], id) == Ids(s, id) + multiset{id(x)}
  {
    assert (s + [x])[..|s|] == s;
  }

  lemma {:induction false} IdsConcat<T>(a: seq<T>, b: seq<T>, id: T -> nat)
    ensures Ids(a + b, id) == Ids(a, id) + Ids(b, id)
  {
    if b == [] {
      assert a + b == a;
    } else {
      var init, last := b[..|b| - 1], b[|b| - 1];
      assert b == init + [last] && a + b == (a + init) + [last];
      IdsAppend(init, last, id);
      IdsAppend(a + init, last, id);
      IdsConcat(a, init, id);
    }
  }

  /** The element at `at` replaced by `x`. */
  lemma IdsAround<T>(s: seq<T>, at: nat, x: T, id: T -> nat)
    requires at < |s|
    ensures Ids(s[at := x], id) == Ids(s[..at], id) + multiset{id(x)} + Ids(s[at + 1..], id)
  {
    hide Ids;
    assert s[at := x] == (s[..at] + [x]) + s[at + 1..];
    IdsAppend(s[..at], x, id);
    IdsConcat(s[..at] + [x], s[at + 1..], id);
  }

  lemma IdsErase<T>(s: seq<T>, at: nat, id: T -> nat)
    requires at < |s|
    ensures Ids(Erase(s, at), id) + multiset{id(s[at])} == Ids(s, id)
  {
    hide Ids;
    assert s[at := s[at]] == s;
    IdsAround(s, at, s[at], id);
    IdsConcat(s[..at], s[at + 1..], id);
  }

  lemma SwapEraseShape<T>(s: seq<T>, at: nat)
    requires at < |s|
    ensures s == s[..|s| - 1] + [s[|s| - 1]]
    ensures at == |s| - 1 ==> SwapErase(s, at) == s[..|s| - 1]
    ensures at < |s| - 1 ==> SwapErase(s, at) == s[..|s| - 1][at := s[|s| - 1]]
  {
  }

  lemma IdsSwapErase<T>(s: seq<T>, at: nat, id: T -> nat)
    requires at < |s|
    ensures Ids(SwapErase(s, at), id) + multiset{id(s[at])} == Ids(s, id)
  {
    hide Ids, SwapErase;
    SwapEraseShape(s, at);
    var init, last := s[..|s| - 1], s[|s| - 1];
    IdsAppend(init, last, id);
    if at < |init| {
      IdsAround(init, at, last, id);
      IdsAround(init, at, s[at], id);
      assert init[at := s[at]] == init;
      ghost var m, n := Ids(init[..at], id), Ids(init[at + 1..], id);
      assert m + multiset{id(last)} + n + multiset{id(s[at])} == m + multiset{id(s[at])} + n + multiset{id(last)};
    }
  }

  function QueuedId(e: Queued): nat { e.id }
  function PendingId(p: Pending): nat { p.id }
  function LingeringId(l: Lingering): nat { l.id }
  function HandoffId(h: Handoff): nat { h.id }

  /** Every connection that is queued, parked, lingering, with a worker or closed. */
  ghost function Everyone(s: State): multiset<nat> {
    Ids(s.q, QueuedId) + Ids(s.pending, PendingId) + Ids(s.linger, LingeringId) +
    Ids(s.log.handoffs, HandoffId) + s.log.closed
  }

  /** What the counters account for. */
  function Accounted(s: State): nat {
    s.n.dispatched + |s.q| + |s.pending| + s.n.clientGone + Refusals(s.n.refused)
  }

  /** `t` has taken `id` in, and counted it; nothing else has moved in or out. */
  ghost predicate Places(s: State, t: State, id: nat) {
    && Everyone(t) == Everyone(s) + multiset{id}
    && Accounted(t) == Accounted(s) + 1
    && t.n.accepted == s.n.accepted
  }

  ghost predicate Keeps(s: State, t: State) {
    Everyone(t) == Everyone(s) && Accounted(t) == Accounted(s) && t.n.accepted == s.n.accepted
  }

  lemma RefusePlaces(s: State, world: World, id: nat, reason: Reason, since: real, now: real)
    requires reason != ServiceCap
    ensures Places(s, Refuse(s, world, id, reason, since, now), id)
  {
    hide Ids;
    IdsAppend(s.linger, Lingering(id, now + LINGER_S), LingeringId);
  }

  lemma DispatchPlaces(s: State, world: World, worker: nat, e: Queued, now: real)
    requires worker < |s.w|
    ensures Places(s, Dispatch(s, world, worker, e, now), e.id)
  {
    hide Ids, Refuse;
    RefusePlaces(s, world, e.id, HandoffFailed, e.enqueued, now);
    IdsAppend(s.log.handoffs, Handoff(e.id, worker, e.lang, e.ticket, now), HandoffId);
  }

  lemma EnqueuePlaces(s: State, e: Queued)
    ensures Places(s, Enqueue(s, e), e.id)
  {
    hide Ids;
    IdsAppend(s.q, e, QueuedId);
  }

  lemma AdmitPlaces(s: State, world: World, id: nat, lang: nat, now: real)
    ensures Places(s, Admit(s, world, id, lang, now), id)
  {
    var t := Ticketed(s);
    assert Keeps(s, t);
    var e := Queued(id, now, lang, s.log.tickets);
    var best := GroupPick(s.w, lang, s.cfg.slots);
    hide Everyone, Accounted, Dispatch, Refuse, Enqueue, GroupPick, GroupQueued, HasRoom;
    if GroupQueued(s.q, lang) == 0 && best.Some? {
      DispatchPlaces(t, world, best.value, e, now);
    } else if HasRoom(s, lang) && (|s.q| < s.qAlloc || world.grows(id)) {
      EnqueuePlaces(t, e);
    } else {
      RefusePlaces(t, world, id, AtCapacity, now, now);
    }
  }

  lemma RoutePlaces(s: State, world: World, id: nat, c: Class, now: real)
    ensures Places(s, Route(s, world, id, c, now), id)
  {
    hide Places, Admit, Refuse;
    match c {
      case Unknown => RefusePlaces(s, world, id, LanguageNotServed, now, now);
      case Group(g) => AdmitPlaces(s, world, id, g, now);
      case _ => AdmitPlaces(s, world, id, 0, now);
    }
  }

  lemma PopPlaces(s: State, at: nat)
    requires at < |s.q|
    ensures Places(PopAt(s, at), s, s.q[at].id)
  {
    hide Ids, Erase;
    IdsErase(s.q, at, QueuedId);
  }

  lemma DrainOneKeeps(s: State, world: World, lang: nat, now: real)
    ensures var r := DrainOne(s, world, lang, now); r.Some? ==> Keeps(s, r.value)
  {
    hide Everyone, Accounted, Refuse, Dispatch, Erase, GroupHead, GroupPick;
    var head := GroupHead(s.q, lang);
    if head.Some? {
      var e := s.q[head.value];
      var popped := PopAt(s, head.value);
      PopPlaces(s, head.value);
      RefusePlaces(popped, world, e.id, QueuedTooLong, e.enqueued, now);
      var best := GroupPick(s.w, lang, s.cfg.slots);
      if best.Some? {
        DispatchPlaces(popped, world, best.value, e, now);
      }
    }
  }

  lemma {:induction false} DrainGroupKeeps(s: State, world: World, lang: nat, now: real)
    ensures Keeps(s, DrainGroup(s, world, lang, now))
    decreases |s.q|
  {
    hide Everyone, Accounted, DrainOne;
    var r := DrainOne(s, world, lang, now);
    DrainOneKeeps(s, world, lang, now);
    if r.Some? {
      DrainGroupKeeps(r.value, world, lang, now);
    }
  }

  lemma {:induction false} DrainKeeps(s: State, world: World, groups: nat, now: real)
    ensures Keeps(s, DrainUpTo(s, world, groups, now))
  {
    hide Everyone, Accounted, DrainGroup;
    if groups > 0 {
      DrainKeeps(s, world, groups - 1, now);
      DrainGroupKeeps(DrainUpTo(s, world, groups - 1, now), world, groups - 1, now);
    }
  }

  lemma EndLingerKeeps(s: State, at: nat)
    requires at < |s.linger|
    ensures Keeps(s, EndLinger(s, at))
  {
    hide Ids;
    IdsSwapErase(s.linger, at, LingeringId);
  }

  lemma {:induction false} LingerKeeps(s: State, tick: Tick, i: nat)
    requires i <= |s.linger|
    ensures Keeps(s, LingerPass(s, tick, i))
    decreases i
  {
    hide Everyone, Accounted, Finishes, SwapErase;
    if i > 0 {
      if Finishes(s.linger[i - 1], tick) {
        var t := EndLinger(s, i - 1);
        EndLingerKeeps(s, i - 1);
        LingerKeeps(t, tick, i - 1);
      } else {
        LingerKeeps(s, tick, i - 1);
      }
    }
  }

  lemma HangUpKeeps(s: State, at: nat)
    requires at < |s.q|
    ensures Keeps(s, HangUp(s, at))
  {
    hide Ids, Erase;
    IdsErase(s.q, at, QueuedId);
  }

  lemma {:induction false} HangupPassKeeps(s: State, tick: Tick, i: nat)
    requires i <= |s.q|
    ensures Keeps(s, HangupPass(s, tick, i))
    decreases i
  {
    hide Everyone, Accounted;
    if i > 0 {
      if tick.fired(s.q[i - 1].id) {
        HangUpKeeps(s, i - 1);
        HangupPassKeeps(HangUp(s, i - 1), tick, i - 1);
      } else {
        HangupPassKeeps(s, tick, i - 1);
      }
    }
  }

  lemma UnparkPlaces(s: State, at: nat, timedOut: bool)
    requires at < |s.pending|
    ensures Places(Unpark(s, at, timedOut), s, s.pending[at].id)
  {
    hide Ids;
    IdsSwapErase(s.pending, at, PendingId);
  }

  lemma {:induction false} ClassifyKeeps(s: State, world: World, tick: Tick, i: nat)
    requires i <= |s.pending|
    ensures Keeps(s, ClassifyPass(s, world, tick, i))
    decreases i
  {
    hide Everyone, Accounted, Decided, Route;
    if i > 0 {
      var p := s.pending[i - 1];
      if Decided(p, tick) {
        var c := tick.decide(p.id);
        var t := Unpark(s, i - 1, c.Wait?);
        UnparkPlaces(s, i - 1, c.Wait?);
        RoutePlaces(t, world, p.id, c, tick.now);
        RoutePending(t, world, p.id, c, tick.now);
        ClassifyKeeps(Route(t, world, p.id, c, tick.now), world, tick, i - 1);
      } else {
        ClassifyKeeps(s, world, tick, i - 1);
      }
    }
  }

  lemma ReportsKeep(s: State, tick: Tick)
    ensures Keeps(s, WatchPass(s.(w := CompletePass(s.w, tick)), tick.now))
  {
    hide Ids, CompletePass, Watch, Breachers;
  }

  lemma SettleKeeps(s: State, world: World, tick: Tick)
    ensures Keeps(s, Settle(s, world, tick))
  {
    hide Everyone, Accounted, LingerPass, CompletePass, WatchPass, HangupPass, ClassifyPass, DrainUpTo;
    var s1 := LingerPass(s, tick, |s.linger|);
    LingerKeeps(s, tick, |s.linger|);
    var s3 := WatchPass(s1.(w := CompletePass(s1.w, tick)), tick.now);
    ReportsKeep(s1, tick);
    var s4 := HangupPass(s3, tick, Watched(s3));
    HangupPassKeeps(s3, tick, Watched(s3));
    var s5 := ClassifyPass(s4, world, tick, |s4.pending|);
    ClassifyKeeps(s4, world, tick, |s4.pending|);
    DrainKeeps(s5, world, s5.cfg.groups, tick.now);
  }

  lemma ParkPlaces(s: State, id: nat, now: real)
    ensures Places(s, Park(s, id, now), id)
  {
    hide Ids;
    IdsAppend(s.pending, Pending(id, now + CLASSIFY_S), PendingId);
  }
}
