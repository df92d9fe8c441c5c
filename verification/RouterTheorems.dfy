/** What the router guarantees on every run: any fleet, any arrivals, any clock, any completions,
    any outcome of a handoff or of a lingering close. */
module RouterTheorems {
  import opened Router
  import opened RouterBooks
  import opened RouterInvariants
  import opened RouterSafety

  // ----------------------------------------------------------- the passes of a tick

  ghost predicate ValidTick(groups: nat, tick: Tick, past: real) {
    && past <= tick.now
    && (forall id :: tick.decide(id).Group? ==> tick.decide(id).g < groups)
    && (tick.arrival.Some? && tick.arrival.value.Group? ==> tick.arrival.value.g < groups)
  }

  lemma TimePasses(s: State, past: real, now: real)
    requires Inv(s, past) && past <= now
    ensures Inv(s, now)
  {
    hide WorkersOk, ServedInOrder, Behind, RefusalsOk, WithinBound;
  }

  lemma {:induction false} LingerPassInv(s: State, tick: Tick, i: nat, now: real)
    requires i <= |s.linger| && Inv(s, now)
    ensures Inv(LingerPass(s, tick, i), now) && LingerPass(s, tick, i).cfg == s.cfg
    decreases i
  {
    hide WorkersOk, InLine, ServedInOrder, Behind, RefusalsOk, WithinBound, Finishes, SwapErase;
    if i > 0 {
      LingerPassInv(if Finishes(s.linger[i - 1], tick) then EndLinger(s, i - 1) else s, tick, i - 1, now);
    }
  }

  lemma CompleteOk(cfg: Config, w: Worker, r: Report)
    requires WorkerOk(cfg, w)
    ensures WorkerOk(cfg, Complete(w, r)) && Complete(w, r).lang == w.lang
  {
  }

  lemma WatchOk(cfg: Config, w: Worker, now: real)
    requires WorkerOk(cfg, w)
    ensures WorkerOk(cfg, Watch(w, cfg.serviceCapMs, now)) && Watch(w, cfg.serviceCapMs, now).lang == w.lang
  {
  }

  /** New workers of the same groups, each sound, and more breaches counted. */
  lemma WorkersChange(s: State, w: seq<Worker>, breaches: nat, now: real)
    requires Inv(s, now) && WorkersOk(s.cfg, w) && SameGroups(s.w, w)
    ensures Inv(s.(w := w, n := s.n.(refused := s.n.refused.(serviceCap := s.n.refused.serviceCap + breaches))), now)
  {
    OrderAfterWorkers(s.w, w, s.log.handoffs, s.log.tickets);
    BoundAfterWorkers(s.cfg, s.w, w, s.q, s.qAlloc);
    hide WorkersOk, InLine, ServedInOrder, Behind, WithinBound, TallyOf, Late;
  }

  lemma ReportsInv(s: State, tick: Tick)
    requires Inv(s, tick.now)
    ensures var t := WatchPass(s.(w := CompletePass(s.w, tick)), tick.now);
      Inv(t, tick.now) && t.cfg == s.cfg && t.q == s.q && t.pending == s.pending
  {
    var w1 := CompletePass(s.w, tick);
    forall i | 0 <= i < |w1|
      ensures WorkerOk(s.cfg, w1[i]) && w1[i].lang == s.w[i].lang
    {
      CompleteOk(s.cfg, s.w[i], tick.report(i));
    }
    var t := WatchPass(s.(w := w1), tick.now);
    forall i | 0 <= i < |t.w|
      ensures WorkerOk(s.cfg, t.w[i]) && t.w[i].lang == s.w[i].lang
    {
      WatchOk(s.cfg, w1[i], tick.now);
    }
    hide Inv, WorkerOk, CompletePass, Watch, Breachers;
    WorkersChange(s, t.w, Breachers(w1, s.cfg.serviceCapMs, tick.now), tick.now);
  }

  lemma HangUpInv(s: State, at: nat, now: real)
    requires at < |s.q| && Inv(s, now)
    ensures Inv(HangUp(s, at), now)
  {
    PopInv(s, at, now);
    hide Erase, WorkersOk, InLine, ServedInOrder, Behind, WithinBound, RefusalsOk;
  }

  lemma {:induction false} HangupPassInv(s: State, tick: Tick, i: nat, now: real)
    requires i <= |s.q| && Inv(s, now)
    ensures Inv(HangupPass(s, tick, i), now) && HangupPass(s, tick, i).cfg == s.cfg
    decreases i
  {
    hide Inv;
    if i > 0 {
      if tick.fired(s.q[i - 1].id) {
        HangUpInv(s, i - 1, now);
        HangupPassInv(HangUp(s, i - 1), tick, i - 1, now);
      } else {
        HangupPassInv(s, tick, i - 1, now);
      }
    }
  }

  lemma UnparkInv(s: State, at: nat, timedOut: bool, now: real)
    requires at < |s.pending| && Inv(s, now)
    ensures Inv(Unpark(s, at, timedOut), now)
  {
    hide SwapErase, WorkersOk, InLine, ServedInOrder, Behind, WithinBound, RefusalsOk;
  }

  lemma {:induction false} ClassifyInv(s: State, world: World, tick: Tick, i: nat, past: real)
    requires i <= |s.pending| && Inv(s, tick.now) && ValidTick(s.cfg.groups, tick, past)
    ensures Inv(ClassifyPass(s, world, tick, i), tick.now) && ClassifyPass(s, world, tick, i).cfg == s.cfg
    decreases i
  {
    hide Inv, Route, Decided;
    if i > 0 {
      var p := s.pending[i - 1];
      if Decided(p, tick) {
        var c := tick.decide(p.id);
        var t := Unpark(s, i - 1, c.Wait?);
        UnparkInv(s, i - 1, c.Wait?, tick.now);
        RouteInv(t, world, p.id, c, tick.now);
        RoutePending(t, world, p.id, c, tick.now);
        ClassifyInv(Route(t, world, p.id, c, tick.now), world, tick, i - 1, past);
      } else {
        ClassifyInv(s, world, tick, i - 1, past);
      }
    }
  }

  /** No connection is queued while a worker of its group has a free slot, and none is queued
      past the deadline. */
  ghost predicate NoneWaitsInVain(s: State, now: real) {
    forall k :: 0 <= k < |s.q| ==> Settled(s.cfg, s.w, s.q, s.q[k].lang, now)
  }

  lemma SettleInv(s: State, world: World, tick: Tick, past: real)
    requires Inv(s, past) && ValidTick(s.cfg.groups, tick, past)
    ensures var t := Settle(s, world, tick); Inv(t, tick.now) && t.cfg == s.cfg && NoneWaitsInVain(t, tick.now)
  {
    hide Inv, LingerPass, CompletePass, WatchPass, HangupPass, ClassifyPass, DrainUpTo, Settled;
    TimePasses(s, past, tick.now);
    var s1 := LingerPass(s, tick, |s.linger|);
    LingerPassInv(s, tick, |s.linger|, tick.now);
    var s3 := WatchPass(s1.(w := CompletePass(s1.w, tick)), tick.now);
    ReportsInv(s1, tick);
    var s4 := HangupPass(s3, tick, Watched(s3));
    HangupPassInv(s3, tick, Watched(s3), tick.now);
    var s5 := ClassifyPass(s4, world, tick, |s4.pending|);
    ClassifyInv(s4, world, tick, |s4.pending|, past);
    DrainInv(s5, world, s5.cfg.groups, tick.now);
    LanguagesInRange(Settle(s, world, tick), tick.now);
  }

  lemma LanguagesInRange(s: State, now: real)
    requires Inv(s, now)
    ensures forall k :: 0 <= k < |s.q| ==> s.q[k].lang < s.cfg.groups
  {
    hide WorkersOk, ServedInOrder, Behind, RefusalsOk, WithinBound;
  }

  // ------------------------------------------------------------------- an arrival

  lemma DispatchInVain(s: State, world: World, worker: nat, e: Queued, now: real)
    requires NoneWaitsInVain(s, now) && worker < |s.w|
    ensures NoneWaitsInVain(Dispatch(s, world, worker, e, now), now)
  {
    hide Expired;
    var t := Dispatch(s, world, worker, e, now);
    assert t.q == s.q && t.cfg == s.cfg && |t.w| == |s.w|;
    assert forall i, g :: 0 <= i < |t.w| && HasFreeSlot(t.w[i], g, t.cfg.slots) ==> HasFreeSlot(s.w[i], g, s.cfg.slots);
  }

  lemma EnqueueInVain(s: State, e: Queued, now: real)
    requires NoneWaitsInVain(s, now) && e.enqueued == now
    requires GroupQueued(s.q, e.lang) != 0 || GroupPick(s.w, e.lang, s.cfg.slots).None?
    ensures NoneWaitsInVain(Enqueue(s, e), now)
  {
    hide GroupPick, HasFreeSlot;
    NoneQueued(s.q, e.lang);
    assert forall i :: 0 <= i < |s.w| ==> !HasFreeSlot(s.w[i], e.lang, s.cfg.slots) by {
      if GroupQueued(s.q, e.lang) != 0 {
        var k :| 0 <= k < |s.q| && s.q[k].lang == e.lang;
        assert Settled(s.cfg, s.w, s.q, s.q[k].lang, now);
      }
    }
    var q := s.q + [e];
    forall k | 0 <= k < |q|
      ensures !Expired(q[k].enqueued, s.cfg.deadlineMs, now)
      ensures forall i :: 0 <= i < |s.w| ==> !HasFreeSlot(s.w[i], q[k].lang, s.cfg.slots)
    {
      if k < |s.q| {
        assert q[k] == s.q[k] && Settled(s.cfg, s.w, s.q, s.q[k].lang, now);
      }
    }
  }

  lemma AdmitInVain(s: State, world: World, id: nat, lang: nat, now: real)
    requires NoneWaitsInVain(s, now)
    ensures NoneWaitsInVain(Admit(s, world, id, lang, now), now)
  {
    hide Settled, GroupPick, GroupQueued, HasRoom, Dispatch, Enqueue;
    var t := Ticketed(s);
    var e := Queued(id, now, lang, s.log.tickets);
    var best := GroupPick(s.w, lang, s.cfg.slots);
    if GroupQueued(s.q, lang) == 0 && best.Some? {
      DispatchInVain(t, world, best.value, e, now);
    } else if HasRoom(s, lang) && (|s.q| < s.qAlloc || world.grows(id)) {
      EnqueueInVain(t, e, now);
    }
  }

  lemma RouteInVain(s: State, world: World, id: nat, c: Class, now: real)
    requires NoneWaitsInVain(s, now)
    ensures NoneWaitsInVain(Route(s, world, id, c, now), now)
  {
    hide Settled, Admit;
    match c {
      case Unknown =>
      case Group(g) => AdmitInVain(s, world, id, g, now);
      case _ => AdmitInVain(s, world, id, 0, now);
    }
  }

  lemma CountedInv(s: State, now: real)
    requires Inv(s, now) && NoneWaitsInVain(s, now)
    ensures Inv(Counted(s), now) && NoneWaitsInVain(Counted(s), now)
  {
    hide WorkersOk, InLine, ServedInOrder, Behind, RefusalsOk, WithinBound, Settled;
  }

  lemma ParkInv(s: State, id: nat, now: real)
    requires Inv(s, now) && |s.pending| < PENDING_MAX
    ensures Inv(Park(s, id, now), now)
  {
    hide WorkersOk, InLine, ServedInOrder, Behind, RefusalsOk, WithinBound;
  }

  lemma ParkInVain(s: State, id: nat, now: real)
    requires NoneWaitsInVain(s, now)
    ensures NoneWaitsInVain(Park(s, id, now), now)
  {
    hide Settled;
  }

  lemma PlaceFreshInv(s: State, world: World, id: nat, c: Class, now: real)
    requires s.cfg.groups > 0 && Inv(s, now) && NoneWaitsInVain(s, now) && (c.Group? ==> c.g < s.cfg.groups)
    ensures var t := PlaceFresh(s, world, id, c, now); Inv(t, now) && t.cfg == s.cfg && NoneWaitsInVain(t, now)
  {
    hide Inv, NoneWaitsInVain, Admit, Route;
    if s.cfg.groups <= 1 {
      AdmitInv(s, world, id, 0, now);
      AdmitKeepsConfig(s, world, id, 0, now);
      AdmitInVain(s, world, id, 0, now);
    } else if c.Wait? && |s.pending| < PENDING_MAX {
      ParkInv(s, id, now);
      ParkInVain(s, id, now);
    } else {
      RouteInv(s, world, id, c, now);
      RouteInVain(s, world, id, c, now);
    }
  }

  lemma AcceptInv(s: State, world: World, c: Class, now: real)
    requires Inv(s, now) && NoneWaitsInVain(s, now) && (c.Group? ==> c.g < s.cfg.groups)
    ensures var t := Accept(s, world, c, now); Inv(t, now) && t.cfg == s.cfg && NoneWaitsInVain(t, now)
  {
    assert s.cfg.groups > 0;
    hide Inv, NoneWaitsInVain, PlaceFresh;
    CountedInv(s, now);
    PlaceFreshInv(Counted(s), world, s.n.accepted, c, now);
  }

  lemma PlaceFreshPlaces(s: State, world: World, id: nat, c: Class, now: real)
    ensures Places(s, PlaceFresh(s, world, id, c, now), id)
  {
    hide Places, Admit, Route, Park;
    AdmitPlaces(s, world, id, 0, now);
    ParkPlaces(s, id, now);
    RoutePlaces(s, world, id, c, now);
  }

  lemma AcceptPlaces(s: State, world: World, c: Class, now: real)
    ensures var t := Accept(s, world, c, now);
      && Everyone(t) == Everyone(s) + multiset{s.n.accepted}
      && Accounted(t) == Accounted(s) + 1 && t.n.accepted == s.n.accepted + 1
  {
    var t := Counted(s);
    assert Everyone(t) == Everyone(s) && Accounted(t) == Accounted(s);
    hide Everyone, Accounted, PlaceFresh;
    PlaceFreshPlaces(t, world, s.n.accepted, c, now);
  }

  // ------------------------------------------------------------------------- runs

  function Clock(ticks: seq<Tick>, start: real): real {
    if ticks == [] then start else ticks[|ticks| - 1].now
  }

  /** The clock never goes back, and only groups that exist are named. */
  ghost predicate ValidTicks(groups: nat, ticks: seq<Tick>, start: real) {
    ticks == [] ||
    (ValidTicks(groups, ticks[..|ticks| - 1], start) &&
     ValidTick(groups, ticks[|ticks| - 1], Clock(ticks[..|ticks| - 1], start)))
  }

  ghost predicate FreshFleet(cfg: Config, w: seq<Worker>) {
    cfg.groups > 0 && forall i :: 0 <= i < |w| ==> FreshWorker(w[i], cfg)
  }

  lemma StartInv(cfg: Config, w: seq<Worker>, now: real)
    requires FreshFleet(cfg, w)
    ensures Inv(Start(cfg, w), now) && NoneWaitsInVain(Start(cfg, w), now)
  {
  }

  lemma IterateInv(s: State, world: World, tick: Tick, past: real)
    requires Inv(s, past) && ValidTick(s.cfg.groups, tick, past)
    ensures var t := Iterate(s, world, tick); Inv(t, tick.now) && t.cfg == s.cfg && NoneWaitsInVain(t, tick.now)
  {
    hide Inv, NoneWaitsInVain, Settle, Accept;
    SettleInv(s, world, tick, past);
    if tick.arrival.Some? {
      AcceptInv(Settle(s, world, tick), world, tick.arrival.value, tick.now);
    }
  }

  lemma {:induction false} RunInv(cfg: Config, w: seq<Worker>, world: World, ticks: seq<Tick>, start: real)
    requires FreshFleet(cfg, w) && ValidTicks(cfg.groups, ticks, start)
    ensures var s := After(Start(cfg, w), world, ticks);
      s.cfg == cfg && Inv(s, Clock(ticks, start)) && NoneWaitsInVain(s, Clock(ticks, start))
  {
    hide Inv, NoneWaitsInVain, Iterate, ValidTick, FreshFleet;
    if ticks == [] {
      StartInv(cfg, w, start);
    } else {
      var init, last := ticks[..|ticks| - 1], ticks[|ticks| - 1];
      RunInv(cfg, w, world, init, start);
      IterateInv(After(Start(cfg, w), world, init), world, last, Clock(init, start));
    }
  }

  ghost function Numbered(n: nat): multiset<nat> {
    if n == 0 then multiset{} else Numbered(n - 1) + multiset{n - 1}
  }

  lemma {:induction false} NumberedOnce(n: nat, id: nat)
    ensures Numbered(n)[id] == if id < n then 1 else 0
  {
    if n > 0 {
      NumberedOnce(n - 1, id);
    }
  }

  lemma IterateKeepsBooks(s: State, world: World, tick: Tick)
    requires Everyone(s) == Numbered(s.n.accepted) && Accounted(s) == s.n.accepted
    ensures var t := Iterate(s, world, tick); Everyone(t) == Numbered(t.n.accepted) && Accounted(t) == t.n.accepted
  {
    hide Everyone, Accounted, Settle, Accept;
    SettleKeeps(s, world, tick);
    if tick.arrival.Some? {
      AcceptPlaces(Settle(s, world, tick), world, tick.arrival.value, tick.now);
    }
  }

  lemma {:induction false} BooksBalance(cfg: Config, w: seq<Worker>, world: World, ticks: seq<Tick>)
    ensures var s := After(Start(cfg, w), world, ticks); Everyone(s) == Numbered(s.n.accepted) && Accounted(s) == s.n.accepted
  {
    if ticks != [] {
      hide Everyone, Accounted, Iterate;
      BooksBalance(cfg, w, world, ticks[..|ticks| - 1]);
      IterateKeepsBooks(After(Start(cfg, w), world, ticks[..|ticks| - 1]), world, ticks[|ticks| - 1]);
    }
  }

  // --------------------------------------------------------------- the main results

  /** Conservation. Whatever happens, each connection accepted so far is in exactly one of the
      queue, the classification set, the lingering set, a worker's hands or the closed ones, and
      the counters add up to exactly the connections accepted. */
  lemma EveryConnectionOnce(cfg: Config, w: seq<Worker>, world: World, ticks: seq<Tick>, start: real)
    requires FreshFleet(cfg, w) && ValidTicks(cfg.groups, ticks, start)
    ensures var s := After(Start(cfg, w), world, ticks);
      && (forall id: nat :: Everyone(s)[id] == if id < s.n.accepted then 1 else 0)
      && s.n.accepted == s.n.dispatched + |s.q| + |s.pending| + s.n.clientGone + Refusals(s.n.refused)
      && s.n.dispatched == |s.log.handoffs|
  {
    var s := After(Start(cfg, w), world, ticks);
    RunInv(cfg, w, world, ticks, start);
    BooksBalance(cfg, w, world, ticks);
    forall id: nat
      ensures Numbered(s.n.accepted)[id] == if id < s.n.accepted then 1 else 0
    {
      NumberedOnce(s.n.accepted, id);
    }
    hide WorkersOk, InLine, ServedInOrder, Behind, RefusalsOk, WithinBound, NoneWaitsInVain, After, Ids;
  }

  /** Work conservation and the queue deadline. At the top of every iteration no connection is
      queued while a live worker of its group has a free slot, and none has been queued for the
      deadline or longer. */
  lemma NobodyWaitsInVain(
    cfg: Config, w: seq<Worker>, world: World, ticks: seq<Tick>, start: real, k: nat, i: nat)
    requires FreshFleet(cfg, w) && ValidTicks(cfg.groups, ticks, start)
    requires k < |After(Start(cfg, w), world, ticks).q| && i < |After(Start(cfg, w), world, ticks).w|
    ensures var s := After(Start(cfg, w), world, ticks);
      && !(s.w[i].alive && s.w[i].lang == s.q[k].lang && s.w[i].active < cfg.slots)
      && (cfg.deadlineMs > 0 ==> (Clock(ticks, start) - s.q[k].enqueued) * 1000.0 < cfg.deadlineMs as real)
  {
    RunInv(cfg, w, world, ticks, start);
    var s := After(Start(cfg, w), world, ticks);
    assert Settled(s.cfg, s.w, s.q, s.q[k].lang, Clock(ticks, start));
    hide Inv, After;
  }

  /** Order and language. Of two connections of one group the one admitted first is handed off
      first, before any that is still queued; and a handoff goes to a worker of that group. */
  lemma GroupsAreServedInOrder(cfg: Config, w: seq<Worker>, world: World, ticks: seq<Tick>, start: real)
    requires FreshFleet(cfg, w) && ValidTicks(cfg.groups, ticks, start)
    ensures var s := After(Start(cfg, w), world, ticks); var h := s.log.handoffs;
      && (forall a, b :: 0 <= a < b < |h| && h[a].lang == h[b].lang ==> h[a].ticket < h[b].ticket)
      && (forall a, k :: 0 <= a < |h| && 0 <= k < |s.q| && h[a].lang == s.q[k].lang ==> h[a].ticket < s.q[k].ticket)
      && (forall a :: 0 <= a < |h| ==> h[a].worker < |s.w| && s.w[h[a].worker].lang == h[a].lang)
  {
    RunInv(cfg, w, world, ticks, start);
    hide WorkersOk, InLine, RefusalsOk, WithinBound, NoneWaitsInVain, After;
  }

  /** Refusals. The page shared with the workers shows exactly the refusals made; the router's own
      counters differ from it only in the service cap, under which nobody is refused; and nobody
      is told it queued too long who did not. */
  lemma RefusalsAreHonest(cfg: Config, w: seq<Worker>, world: World, ticks: seq<Tick>, start: real)
    requires FreshFleet(cfg, w) && ValidTicks(cfg.groups, ticks, start)
    ensures var s := After(Start(cfg, w), world, ticks);
      && s.n.shared == TallyOf(s.log.refusals) && s.n.shared.serviceCap == 0
      && s.n.refused == s.n.shared.(serviceCap := s.n.refused.serviceCap)
      && forall i :: 0 <= i < |s.log.refusals| && s.log.refusals[i].reason == QueuedTooLong ==>
           Late(s.log.refusals[i], cfg.deadlineMs)
  {
    RunInv(cfg, w, world, ticks, start);
    hide WorkersOk, InLine, ServedInOrder, Behind, WithinBound, NoneWaitsInVain, After, TallyOf, Late;
  }

  // ----------------------------------------------------- the classification budget

  ghost predicate InBudget(pending: seq<Pending>, from: nat, now: real) {
    forall k :: from <= k < |pending| ==> now < pending[k].deadline
  }

  lemma {:induction false} ClassifyInBudget(s: State, world: World, tick: Tick, i: nat)
    requires i <= |s.pending| && InBudget(s.pending, i, tick.now)
    ensures InBudget(ClassifyPass(s, world, tick, i).pending, 0, tick.now)
    decreases i
  {
    hide Route;
    if i > 0 {
      var p := s.pending[i - 1];
      if Decided(p, tick) {
        var c := tick.decide(p.id);
        var t := Unpark(s, i - 1, c.Wait?);
        RoutePending(t, world, p.id, c, tick.now);
        ClassifyInBudget(Route(t, world, p.id, c, tick.now), world, tick, i - 1);
      } else {
        ClassifyInBudget(s, world, tick, i - 1);
      }
    }
  }

  lemma DrainOnePending(s: State, world: World, lang: nat, now: real)
    ensures var r := DrainOne(s, world, lang, now); r.Some? ==> r.value.pending == s.pending
  {
    hide GroupHead, GroupPick, Erase, Assign;
  }

  lemma {:induction false} DrainGroupPending(s: State, world: World, lang: nat, now: real)
    ensures DrainGroup(s, world, lang, now).pending == s.pending
    decreases |s.q|
  {
    hide DrainOne;
    var r := DrainOne(s, world, lang, now);
    if r.Some? {
      DrainOnePending(s, world, lang, now);
      DrainGroupPending(r.value, world, lang, now);
    }
  }

  lemma {:induction false} DrainPending(s: State, world: World, groups: nat, now: real)
    ensures DrainUpTo(s, world, groups, now).pending == s.pending
  {
    hide DrainGroup;
    if groups > 0 {
      DrainPending(s, world, groups - 1, now);
      DrainGroupPending(DrainUpTo(s, world, groups - 1, now), world, groups - 1, now);
    }
  }

  lemma AcceptInBudget(s: State, world: World, c: Class, now: real)
    requires InBudget(s.pending, 0, now)
    ensures InBudget(Accept(s, world, c, now).pending, 0, now)
  {
    hide Admit, Route;
    AdmitPending(Counted(s), world, s.n.accepted, 0, now);
    RoutePending(Counted(s), world, s.n.accepted, c, now);
  }

  lemma AdmitPending(s: State, world: World, id: nat, lang: nat, now: real)
    ensures Admit(s, world, id, lang, now).pending == s.pending
  {
    hide GroupPick, GroupQueued, HasRoom, Assign;
  }

  /** Nobody is left waiting to be classified: at the top of every iteration but the first, every
      connection in the classification set is still inside its budget. */
  lemma ClassificationIsBounded(
    cfg: Config, w: seq<Worker>, world: World, ticks: seq<Tick>, start: real, k: nat)
    requires ticks != [] && k < |After(Start(cfg, w), world, ticks).pending|
    ensures Clock(ticks, start) < After(Start(cfg, w), world, ticks).pending[k].deadline
  {
    var s := After(Start(cfg, w), world, ticks[..|ticks| - 1]);
    var tick := ticks[|ticks| - 1];
    hide After, LingerPass, CompletePass, WatchPass, HangupPass, ClassifyPass, DrainUpTo, Accept;
    var s1 := LingerPass(s, tick, |s.linger|);
    var s3 := WatchPass(s1.(w := CompletePass(s1.w, tick)), tick.now);
    var s4 := HangupPass(s3, tick, Watched(s3));
    ClassifyInBudget(s4, world, tick, |s4.pending|);
    var s5 := ClassifyPass(s4, world, tick, |s4.pending|);
    DrainPending(s5, world, s5.cfg.groups, tick.now);
    if tick.arrival.Some? {
      AcceptInBudget(Settle(s, world, tick), world, tick.arrival.value, tick.now);
    }
    assert After(Start(cfg, w), world, ticks) == Iterate(s, world, tick) by { AfterLast(Start(cfg, w), world, ticks); }
  }

  lemma AfterLast(s: State, world: World, ticks: seq<Tick>)
    requires ticks != []
    ensures After(s, world, ticks) == Iterate(After(s, world, ticks[..|ticks| - 1]), world, ticks[|ticks| - 1])
  {
  }

  lemma FirstQueuedKeeps(s: State, now: real)
    requires s.q != []
    ensures Keeps(s, RefuseFirstQueued(s, now))
  {
    hide Ids;
    IdsErase(s.q, 0, QueuedId);
    assert Erase(s.q, 0) == s.q[1..];
  }

  lemma FirstPendingKeeps(s: State, now: real)
    requires s.pending != []
    ensures Keeps(s, RefuseFirstPending(s, now))
  {
    hide Ids;
    IdsErase(s.pending, 0, PendingId);
    assert Erase(s.pending, 0) == s.pending[1..];
  }

  lemma FirstLingeringKeeps(s: State)
    requires s.linger != []
    ensures Keeps(s, CloseFirstLingering(s))
  {
    hide Ids;
    IdsErase(s.linger, 0, LingeringId);
    assert Erase(s.linger, 0) == s.linger[1..];
  }

  lemma {:induction false} CloseQueueKeeps(s: State, now: real)
    ensures var t := CloseQueue(s, now); Keeps(s, t) && t.q == [] && t.pending == s.pending && t.linger == s.linger
    decreases |s.q|
  {
    hide Everyone, Accounted;
    if s.q != [] {
      FirstQueuedKeeps(s, now);
      CloseQueueKeeps(RefuseFirstQueued(s, now), now);
    }
  }

  lemma {:induction false} ClosePendingKeeps(s: State, now: real)
    ensures var t := ClosePending(s, now); Keeps(s, t) && t.q == s.q && t.pending == [] && t.linger == s.linger
    decreases |s.pending|
  {
    hide Everyone, Accounted;
    if s.pending != [] {
      FirstPendingKeeps(s, now);
      ClosePendingKeeps(RefuseFirstPending(s, now), now);
    }
  }

  lemma {:induction false} CloseLingerKeeps(s: State)
    ensures var t := CloseLinger(s); Keeps(s, t) && t.q == s.q && t.pending == s.pending && t.linger == []
    decreases |s.linger|
  {
    hide Everyone, Accounted;
    if s.linger != [] {
      FirstLingeringKeeps(s);
      CloseLingerKeeps(CloseFirstLingering(s));
    }
  }

  /** Shutdown answers everyone it still holds: afterwards the queue, the classification set and
      the lingering set are empty, and every connection ever accepted was handed off, refused or
      had hung up. */
  lemma ShutdownHoldsNobody(cfg: Config, w: seq<Worker>, world: World, ticks: seq<Tick>, start: real, now: real)
    ensures var s := Shutdown(After(Start(cfg, w), world, ticks), now);
      && s.q == [] && s.pending == [] && s.linger == []
      && s.n.accepted == s.n.dispatched + s.n.clientGone + Refusals(s.n.refused)
      && Ids(s.log.handoffs, HandoffId) + s.log.closed == Numbered(s.n.accepted)
  {
    var s := After(Start(cfg, w), world, ticks);
    BooksBalance(cfg, w, world, ticks);
    hide After, CloseQueue, ClosePending, CloseLinger;
    CloseQueueKeeps(s, now);
    ClosePendingKeeps(CloseQueue(s, now), now);
    CloseLingerKeeps(ClosePending(CloseQueue(s, now), now));
  }
}
