/** What the router believes a worker still owes it, against what the worker really owes: the
    count of busy slots, and the watchdog's stamps. Both are statements about whole runs, under
    hypotheses about what the workers report and nothing else. */
module RouterLedger {
  import opened Router
  import opened RouterInvariants
  import opened RouterTheorems
  import C = RouterCalls
  import Watchdog

  // ---------------------------------------------------- what a routine deals to a worker

  /** The handoffs to one worker, oldest first. */
  function HandedTo(h: seq<Handoff>, i: nat): (r: seq<Handoff>) {
    if h == [] then []
    else HandedTo(h[..|h| - 1], i) + (if h[|h| - 1].worker == i then [h[|h| - 1]] else [])
  }

  lemma HandedToAppend(h: seq<Handoff>, x: Handoff, i: nat)
    ensures HandedTo(h + [x], i) == HandedTo(h, i) + (if x.worker == i then [x] else [])
  {
    assert (h + [x])[..|h|] == h;
  }

  /** A worker after `k` connections more, all dealt at one time. */
  function Dealt(w: Worker, now: real, k: nat): Worker {
    if k == 0 then w else Assign(Dealt(w, now, k - 1), now)
  }

  lemma {:induction false} DealtMore(w: Worker, now: real, a: nat, b: nat)
    ensures Dealt(Dealt(w, now, a), now, b) == Dealt(w, now, a + b)
  {
    hide Assign;
    if b > 0 {
      DealtMore(w, now, a, b - 1);
    }
  }

  lemma {:induction false} DealtCounts(w: Worker, now: real, k: nat)
    ensures var v := Dealt(w, now, k);
      && v.active == w.active + k && v.dealt == w.dealt + k
      && v == w.(active := v.active, dealt := v.dealt, disp := v.disp)
  {
    if k > 0 {
      DealtCounts(w, now, k - 1);
    }
  }

  /** Worker `i` got `k` handoffs more at time `now`, and nothing else happened to it. */
  ghost predicate Deals(s: State, t: State, i: nat, now: real, k: nat) {
    && |t.w| == |s.w| && (i < |s.w| ==> t.w[i] == Dealt(s.w[i], now, k))
    && var had, has := HandedTo(s.log.handoffs, i), HandedTo(t.log.handoffs, i);
       |has| == |had| + k && has[..|had|] == had && forall j :: |had| <= j < |has| ==> has[j].at == now
  }

  lemma DealsNothing(s: State, t: State, i: nat, now: real)
    requires t.w == s.w && t.log.handoffs == s.log.handoffs
    ensures Deals(s, t, i, now, 0)
  {
    hide HandedTo;
  }

  lemma DealsTwice(s: State, t: State, u: State, i: nat, now: real, a: nat, b: nat)
    requires Deals(s, t, i, now, a) && Deals(t, u, i, now, b)
    ensures Deals(s, u, i, now, a + b)
  {
    hide HandedTo, Dealt;
    if i < |s.w| {
      DealtMore(s.w[i], now, a, b);
    }
    var had, mid, has := HandedTo(s.log.handoffs, i), HandedTo(t.log.handoffs, i), HandedTo(u.log.handoffs, i);
    assert has[..|had|] == has[..|mid|][..|had|];
    assert forall j :: |had| <= j < |mid| ==> has[j] == has[..|mid|][j];
  }

  lemma DispatchDeals(s: State, world: World, worker: nat, e: Queued, now: real, i: nat) returns (k: nat)
    requires worker < |s.w|
    ensures Deals(s, Dispatch(s, world, worker, e, now), i, now, k)
  {
    hide HandedTo, Assign, Refuse, Bump;
    RefuseDeals(s, world, e.id, HandoffFailed, e.enqueued, now, i);
    var x := Handoff(e.id, worker, e.lang, e.ticket, now);
    HandedToAppend(s.log.handoffs, x, i);
    k := if world.handoff(e.id) && worker == i then 1 else 0;
    if k == 1 {
      OneDealt(s.w[i], now);
    }
  }

  lemma OneDealt(w: Worker, now: real)
    ensures Dealt(w, now, 1) == Assign(w, now)
  {
    assert Dealt(w, now, 0) == w;
  }

  lemma RefuseDeals(s: State, world: World, id: nat, reason: Reason, since: real, now: real, i: nat)
    ensures Deals(s, Refuse(s, world, id, reason, since, now), i, now, 0)
  {
    hide HandedTo, Bump;
  }

  lemma AdmitDeals(s: State, world: World, id: nat, lang: nat, now: real, i: nat) returns (k: nat)
    ensures Deals(s, Admit(s, world, id, lang, now), i, now, k)
  {
    hide HandedTo, GroupPick, GroupQueued, HasRoom, Dispatch, Refuse, Deals;
    var e := Queued(id, now, lang, s.log.tickets);
    var t := Ticketed(s);
    DealsNothing(s, t, i, now);
    var best := GroupPick(s.w, lang, s.cfg.slots);
    k := 0;
    if GroupQueued(s.q, lang) == 0 && best.Some? {
      k := DispatchDeals(t, world, best.value, e, now, i);
      DealsTwice(s, t, Dispatch(t, world, best.value, e, now), i, now, 0, k);
    } else if HasRoom(s, lang) && (|s.q| < s.qAlloc || world.grows(id)) {
      DealsNothing(s, Enqueue(t, e), i, now);
    } else {
      RefuseDeals(t, world, id, AtCapacity, now, now, i);
      DealsTwice(s, t, Refuse(t, world, id, AtCapacity, now, now), i, now, 0, 0);
    }
  }

  lemma RouteDeals(s: State, world: World, id: nat, c: Class, now: real, i: nat) returns (k: nat)
    ensures Deals(s, Route(s, world, id, c, now), i, now, k)
  {
    hide Admit, Refuse, Deals;
    match c {
      case Unknown => k := 0; RefuseDeals(s, world, id, LanguageNotServed, now, now, i);
      case Group(g) => k := AdmitDeals(s, world, id, g, now, i);
      case _ => k := AdmitDeals(s, world, id, 0, now, i);
    }
  }

  lemma {:induction false} ClassifyDeals(s: State, world: World, tick: Tick, n: nat, i: nat) returns (k: nat)
    requires n <= |s.pending|
    ensures Deals(s, ClassifyPass(s, world, tick, n), i, tick.now, k)
    decreases n
  {
    hide Deals, Route, Decided, SwapErase;
    if n == 0 {
      k := 0;
      DealsNothing(s, s, i, tick.now);
    } else {
      var p := s.pending[n - 1];
      if Decided(p, tick) {
        var c := tick.decide(p.id);
        var t := Unpark(s, n - 1, c.Wait?);
        var u := Route(t, world, p.id, c, tick.now);
        DealsNothing(s, t, i, tick.now);
        var a := RouteDeals(t, world, p.id, c, tick.now, i);
        DealsTwice(s, t, u, i, tick.now, 0, a);
        RoutePending(t, world, p.id, c, tick.now);
        var b := ClassifyDeals(u, world, tick, n - 1, i);
        DealsTwice(s, u, ClassifyPass(u, world, tick, n - 1), i, tick.now, a, b);
        k := a + b;
      } else {
        k := ClassifyDeals(s, world, tick, n - 1, i);
      }
    }
  }

  lemma DrainOneDeals(s: State, world: World, lang: nat, now: real, i: nat) returns (k: nat)
    ensures var r := DrainOne(s, world, lang, now); r.Some? ==> Deals(s, r.value, i, now, k)
  {
    hide Deals, GroupHead, GroupPick, Dispatch, Refuse, Erase;
    k := 0;
    var head := GroupHead(s.q, lang);
    if head.Some? {
      var e := s.q[head.value];
      var t := PopAt(s, head.value);
      DealsNothing(s, t, i, now);
      var best := GroupPick(s.w, lang, s.cfg.slots);
      if Expired(e.enqueued, s.cfg.deadlineMs, now) {
        RefuseDeals(t, world, e.id, QueuedTooLong, e.enqueued, now, i);
        DealsTwice(s, t, Refuse(t, world, e.id, QueuedTooLong, e.enqueued, now), i, now, 0, 0);
      } else if best.Some? {
        k := DispatchDeals(t, world, best.value, e, now, i);
        DealsTwice(s, t, Dispatch(t, world, best.value, e, now), i, now, 0, k);
      }
    }
  }

  lemma {:induction false} DrainGroupDeals(s: State, world: World, lang: nat, now: real, i: nat) returns (k: nat)
    ensures Deals(s, DrainGroup(s, world, lang, now), i, now, k)
    decreases |s.q|
  {
    hide Deals, DrainOne;
    var r := DrainOne(s, world, lang, now);
    if r.None? {
      k := 0;
      DealsNothing(s, s, i, now);
    } else {
      var a := DrainOneDeals(s, world, lang, now, i);
      var b := DrainGroupDeals(r.value, world, lang, now, i);
      DealsTwice(s, r.value, DrainGroup(r.value, world, lang, now), i, now, a, b);
      k := a + b;
    }
  }

  lemma {:induction false} DrainDeals(s: State, world: World, groups: nat, now: real, i: nat) returns (k: nat)
    ensures Deals(s, DrainUpTo(s, world, groups, now), i, now, k)
  {
    hide Deals, DrainGroup;
    if groups == 0 {
      k := 0;
      DealsNothing(s, s, i, now);
    } else {
      var t := DrainUpTo(s, world, groups - 1, now);
      var a := DrainDeals(s, world, groups - 1, now, i);
      var b := DrainGroupDeals(t, world, groups - 1, now, i);
      DealsTwice(s, t, DrainGroup(t, world, groups - 1, now), i, now, a, b);
      k := a + b;
    }
  }

  lemma AcceptDeals(s: State, world: World, c: Class, now: real, i: nat) returns (k: nat)
    ensures Deals(s, Accept(s, world, c, now), i, now, k)
  {
    hide Deals, Admit, Route;
    var t := Counted(s);
    var id := s.n.accepted;
    DealsNothing(s, t, i, now);
    if s.cfg.groups <= 1 {
      k := AdmitDeals(t, world, id, 0, now, i);
    } else if c.Wait? && |s.pending| < PENDING_MAX {
      k := 0;
      DealsNothing(t, Park(t, id, now), i, now);
    } else {
      k := RouteDeals(t, world, id, c, now, i);
    }
    DealsTwice(s, t, Accept(s, world, c, now), i, now, 0, k);
  }

  lemma {:induction false} HangupKeepsWorkers(s: State, tick: Tick, n: nat)
    requires n <= |s.q|
    ensures var t := HangupPass(s, tick, n); t.w == s.w && t.log.handoffs == s.log.handoffs
    decreases n
  {
    hide Erase;
    if n > 0 {
      HangupKeepsWorkers(if tick.fired(s.q[n - 1].id) then HangUp(s, n - 1) else s, tick, n - 1);
    }
  }

  /** What the worker's report and the watchdog make of it, before anything new is dealt. */
  function Heard(s: State, tick: Tick, i: nat): Worker
    requires i < |s.w|
  {
    Watch(Complete(s.w[i], tick.report(i)), s.cfg.serviceCapMs, tick.now)
  }

  function Hearing(s: State, tick: Tick): State {
    WatchPass(s.(w := CompletePass(s.w, tick)), tick.now)
  }

  /** One iteration, seen by worker `i`: it reports, the watchdog looks, and it is dealt some more. */
  lemma IterateDeals(s: State, world: World, tick: Tick, i: nat) returns (k: nat)
    ensures var t := Hearing(s, tick);
      (i < |s.w| ==> t.w[i] == Heard(s, tick, i)) && t.log == s.log && Deals(t, Iterate(s, world, tick), i, tick.now, k)
  {
    hide Deals, LingerPass, HangupPass, ClassifyPass, DrainUpTo, Accept, Complete, Watch, Breachers;
    var now := tick.now;
    var s1 := LingerPass(s, tick, |s.linger|);
    C.LingerKeepsRest(s, tick, |s.linger|);
    var s3 := Hearing(s1, tick);
    var t := Hearing(s, tick);
    DealsNothing(t, s3, i, now);
    var s4 := HangupPass(s3, tick, Watched(s3));
    HangupKeepsWorkers(s3, tick, Watched(s3));
    DealsNothing(t, s4, i, now);
    var s5 := ClassifyPass(s4, world, tick, |s4.pending|);
    k := ClassifyDeals(s4, world, tick, |s4.pending|, i);
    DealsTwice(t, s4, s5, i, now, 0, k);
    var s6 := DrainUpTo(s5, world, s5.cfg.groups, now);
    var b := DrainDeals(s5, world, s5.cfg.groups, now, i);
    DealsTwice(t, s5, s6, i, now, k, b);
    k := k + b;
    if tick.arrival.Some? {
      b := AcceptDeals(s6, world, tick.arrival.value, now, i);
      DealsTwice(t, s6, Accept(s6, world, tick.arrival.value, now), i, now, k, b);
      k := k + b;
    }
  }

  // ------------------------------------------------------------------- counted slots

  /** A live worker reports no more than it was dealt and has not reported yet. */
  predicate ReportsWithin(w: Worker, r: Report) {
    w.alive && r.Done? ==> r.count <= w.dealt - w.completed
  }

  /** ... in every iteration of a run. */
  ghost predicate HonestCounts(s: State, world: World, ticks: seq<Tick>, i: nat) {
    ticks == [] ||
    var init, last := ticks[..|ticks| - 1], ticks[|ticks| - 1];
    && HonestCounts(s, world, init, i)
    && var x := After(s, world, init); i < |x.w| ==> ReportsWithin(x.w[i], last.report(i))
  }

  /** The count of busy slots is what was dealt less what was reported, or more than that. */
  ghost predicate Charged(x: Worker, honest: bool) {
    x.alive ==> x.active >= x.dealt - x.completed && (x.active == x.dealt - x.completed <==> honest)
  }

  lemma HeardCharged(s: State, tick: Tick, i: nat, honest: bool)
    requires i < |s.w| && s.w[i].active >= 0 && Charged(s.w[i], honest)
    ensures Charged(Heard(s, tick, i), honest && ReportsWithin(s.w[i], tick.report(i)))
    ensures Heard(s, tick, i).dealt == s.w[i].dealt
  {
    hide PopStamps, Breaches;
  }

  lemma {:induction false} CountsRun(
    cfg: Config, w: seq<Worker>, world: World, ticks: seq<Tick>, start: real, i: nat)
    requires FreshFleet(cfg, w) && ValidTicks(cfg.groups, ticks, start) && i < |w|
    ensures var s := After(Start(cfg, w), world, ticks);
      && i < |s.w| && s.w[i].dealt == |HandedTo(s.log.handoffs, i)|
      && Charged(s.w[i], HonestCounts(Start(cfg, w), world, ticks, i))
  {
    if ticks != [] {
      hide Iterate, Heard, Charged, ValidTick, FreshFleet, HandedTo, Start, ReportsWithin, Dealt;
      var init, last := ticks[..|ticks| - 1], ticks[|ticks| - 1];
      CountsRun(cfg, w, world, init, start, i);
      RunInv(cfg, w, world, init, start);
      var s := After(Start(cfg, w), world, init);
      BusyIsCounted(s, Clock(init, start), i);
      HeardCharged(s, last, i, HonestCounts(Start(cfg, w), world, init, i));
      var k := IterateDeals(s, world, last, i);
      DealtCharged(Heard(s, last, i), last.now, k, HonestCounts(Start(cfg, w), world, ticks, i));
    }
  }

  lemma BusyIsCounted(s: State, now: real, i: nat)
    requires Inv(s, now) && i < |s.w|
    ensures WorkerOk(s.cfg, s.w[i])
  {
  }

  lemma DealtCharged(x: Worker, now: real, k: nat, honest: bool)
    requires Charged(x, honest)
    ensures Charged(Dealt(x, now, k), honest) && Dealt(x, now, k).dealt == x.dealt + k
  {
    DealtCounts(x, now, k);
  }

  /** Slots. A worker is never charged with more than its slots; the watchdog's ring, when there is
      one, holds one stamp for each and never overflows. A live worker is charged with exactly what
      it was dealt less what it reported if and only if it never reported more than it still owed;
      after one report too many, clamped at zero, it is charged with more than that for as long as it
      lives. */
  lemma SlotsAreGivenBackOnce(cfg: Config, w: seq<Worker>, world: World, ticks: seq<Tick>, start: real, i: nat)
    requires FreshFleet(cfg, w) && ValidTicks(cfg.groups, ticks, start) && i < |w|
    ensures var s := After(Start(cfg, w), world, ticks);
      && i < |s.w|
      && var x := s.w[i];
      && 0 <= x.active <= cfg.slots
      && (x.ring > 0 ==> |x.disp| == x.active < x.ring)
      && x.dealt == |HandedTo(s.log.handoffs, i)|
      && (x.alive ==> x.active >= x.dealt - x.completed)
      && (x.alive ==> (x.active == x.dealt - x.completed <==> HonestCounts(Start(cfg, w), world, ticks, i)))
  {
    hide After, HandedTo, Inv, Start;
    CountsRun(cfg, w, world, ticks, start, i);
    RunInv(cfg, w, world, ticks, start);
    BusyIsCounted(After(Start(cfg, w), world, ticks), Clock(ticks, start), i);
  }

  // ------------------------------------------------------------------ true alarms

  /** What the router never learns: `back` says which of the worker's handoffs, by their number,
      each iteration's report was about. */
  ghost function Gone(back: seq<set<nat>>): set<nat> {
    if back == [] then {} else Gone(back[..|back| - 1]) + back[|back| - 1]
  }

  ghost function StillOut(n: nat, gone: set<nat>): set<nat> {
    set k: nat | k < n && k !in gone
  }

  /** A report is about that many connections, each dealt to the worker and not reported before. */
  ghost predicate Truly(w: Worker, n: nat, gone: set<nat>, r: Report, back: set<nat>) {
    w.alive ==>
      match r
      case Silent => back == {}
      case Done(count) => |back| == count && back <= StillOut(n, gone)
      case ChannelClosed => true
  }

  /** ... in every iteration of a run. */
  ghost predicate HonestReturns(s: State, world: World, ticks: seq<Tick>, i: nat, back: seq<set<nat>>) {
    |back| == |ticks| &&
    (ticks == [] ||
     var init, last := ticks[..|ticks| - 1], ticks[|ticks| - 1];
     && HonestReturns(s, world, init, i, back[..|back| - 1])
     && var x := After(s, world, init);
        i < |x.w| ==>
          Truly(x.w[i], |HandedTo(x.log.handoffs, i)|, Gone(back[..|back| - 1]), last.report(i), back[|back| - 1]))
  }

  function TimesOf(h: seq<Handoff>): seq<real> {
    seq(|h|, j requires 0 <= j < |h| => h[j].at)
  }

  ghost function LedgerOf(w: Worker, h: seq<Handoff>, gone: set<nat>): Watchdog.Ledger {
    Watchdog.Ledger(TimesOf(h), StillOut(|h|, gone), w.disp)
  }

  /** The router's stamps of a live worker are the ring of the ledger that knows the truth. */
  ghost predicate Tracks(w: Worker, h: seq<Handoff>, gone: set<nat>, now: real) {
    && (forall j :: 0 <= j < |h| ==> h[j].at <= now)
    && (w.alive ==>
          && (forall k :: k in gone ==> k < |h|)
          && w.active == |StillOut(|h|, gone)|
          && (w.ring > 0 ==> Watchdog.Inv(LedgerOf(w, h, gone))))
  }

  lemma CompleteTracks(w: Worker, h: seq<Handoff>, gone: set<nat>, now: real, r: Report, back: set<nat>)
    requires Tracks(w, h, gone, now) && Truly(w, |h|, gone, r, back)
    ensures Tracks(Complete(w, r), h, gone + back, now)
    ensures Complete(w, r).alive && r.Done? && w.ring > 0 ==>
      LedgerOf(Complete(w, r), h, gone + back) == Watchdog.Step(LedgerOf(w, h, gone), Watchdog.Return(back))
  {
    if Complete(w, r).alive {
      if r.Silent? {
        assert gone + back == gone;
      } else {
        DoneTracks(w, h, gone, now, r.count, back);
      }
    }
  }

  lemma DoneTracks(w: Worker, h: seq<Handoff>, gone: set<nat>, now: real, count: nat, back: set<nat>)
    requires w.alive && Tracks(w, h, gone, now) && |back| == count && back <= StillOut(|h|, gone)
    ensures Tracks(Complete(w, Done(count)), h, gone + back, now)
    ensures w.ring > 0 ==>
      LedgerOf(Complete(w, Done(count)), h, gone + back) == Watchdog.Step(LedgerOf(w, h, gone), Watchdog.Return(back))
  {
    hide Watchdog.Inv, PopStamps;
    StillOutLess(|h|, gone, back);
    if w.ring > 0 {
      Watchdog.ReturnInv(LedgerOf(w, h, gone), back);
    }
  }

  lemma StillOutLess(n: nat, gone: set<nat>, back: set<nat>)
    requires back <= StillOut(n, gone)
    ensures StillOut(n, gone + back) == StillOut(n, gone) - back
    ensures |StillOut(n, gone + back)| == |StillOut(n, gone)| - |back|
  {
    var out := StillOut(n, gone);
    assert StillOut(n, gone + back) == out - back;
    assert out == (out - back) + back;
  }

  lemma WatchTracks(w: Worker, h: seq<Handoff>, gone: set<nat>, now: real, capMs: int)
    requires Tracks(w, h, gone, now)
    ensures Tracks(Watch(w, capMs, now), h, gone, now)
    ensures w.alive ==>
      LedgerOf(Watch(w, capMs, now), h, gone) == Watchdog.Step(LedgerOf(w, h, gone), Watchdog.Check(now, capMs))
  {
    if w.alive && w.ring > 0 {
      Watchdog.StepInv(LedgerOf(w, h, gone), Watchdog.Check(now, capMs));
    }
  }

  lemma {:induction false} DealtStamps(w: Worker, h: seq<Handoff>, gone: set<nat>, now: real, k: nat)
    requires |w.disp| + k <= w.ring
    ensures Dealt(w, now, k).disp == Watchdog.Dealing(LedgerOf(w, h, gone), now, k).ring
    ensures |Dealt(w, now, k).disp| == |w.disp| + k && Dealt(w, now, k).ring == w.ring
  {
    if k > 0 {
      DealtStamps(w, h, gone, now, k - 1);
    }
  }

  /** With room in the ring, dealing keeps the ledger. */
  lemma DealtTracks(w: Worker, h: seq<Handoff>, g: seq<Handoff>, gone: set<nat>, now: real, k: nat)
    requires Tracks(w, h, gone, now) && |g| == |h| + k && g[..|h|] == h
    requires forall j :: |h| <= j < |g| ==> g[j].at == now
    requires w.alive && w.ring > 0 ==> |w.disp| + k <= w.ring
    ensures Tracks(Dealt(w, now, k), g, gone, now)
  {
    hide Watchdog.Inv, Dealt, StillOut, LedgerOf;
    DealtCounts(w, now, k);
    assert forall j :: 0 <= j < |h| ==> g[j] == g[..|h|][j];
    if w.alive {
      StillOutMore(|h|, k, gone);
      if w.ring > 0 {
        DealtLedger(w, h, g, gone, now, k);
      }
    }
  }

  lemma StillOutMore(n: nat, k: nat, gone: set<nat>)
    requires forall j :: j in gone ==> j < n
    ensures |StillOut(n + k, gone)| == |StillOut(n, gone)| + k
  {
    Watchdog.RangeHolds(n, n + k);
    var more := Watchdog.Range(n, n + k);
    assert StillOut(n + k, gone) == StillOut(n, gone) + more;
    assert StillOut(n, gone) !! more;
  }

  lemma DealtLedger(w: Worker, h: seq<Handoff>, g: seq<Handoff>, gone: set<nat>, now: real, k: nat)
    requires Watchdog.Inv(LedgerOf(w, h, gone)) && |g| == |h| + k && (forall j :: 0 <= j < |h| ==> g[j] == h[j])
    requires (forall j :: 0 <= j < |h| ==> h[j].at <= now) && forall j :: |h| <= j < |g| ==> g[j].at == now
    requires |w.disp| + k <= w.ring && forall j :: j in gone ==> j < |h|
    ensures LedgerOf(Dealt(w, now, k), g, gone) == Watchdog.Dealing(LedgerOf(w, h, gone), now, k)
    ensures Watchdog.Inv(LedgerOf(Dealt(w, now, k), g, gone))
  {
    hide Watchdog.Inv, Watchdog.Dealing, Dealt;
    var t := Watchdog.Dealing(LedgerOf(w, h, gone), now, k);
    DealtStamps(w, h, gone, now, k);
    Watchdog.DealingInv(LedgerOf(w, h, gone), now, k);
    assert t.times == TimesOf(g) by {
      assert forall j :: 0 <= j < |h| ==> t.times[j] == t.times[..|h|][j];
    }
    assert t.out == StillOut(|g|, gone);
  }

  lemma TimePassesTracks(w: Worker, h: seq<Handoff>, gone: set<nat>, past: real, now: real)
    requires Tracks(w, h, gone, past) && past <= now
    ensures Tracks(w, h, gone, now)
  {
    hide StillOut, LedgerOf;
  }

  lemma IterateTracks(s: State, world: World, tick: Tick, i: nat, gone: set<nat>, back: set<nat>, past: real)
    requires Inv(s, past) && ValidTick(s.cfg.groups, tick, past) && i < |s.w|
    requires Tracks(s.w[i], HandedTo(s.log.handoffs, i), gone, past)
    requires Truly(s.w[i], |HandedTo(s.log.handoffs, i)|, gone, tick.report(i), back)
    ensures var t := Iterate(s, world, tick); i < |t.w| && Tracks(t.w[i], HandedTo(t.log.handoffs, i), gone + back, tick.now)
    ensures Tracks(Complete(s.w[i], tick.report(i)), HandedTo(s.log.handoffs, i), gone + back, tick.now)
  {
    var now := tick.now;
    var h := HandedTo(s.log.handoffs, i);
    var t := Iterate(s, world, tick);
    var k := IterateDeals(s, world, tick, i);
    IterateInv(s, world, tick, past);
    BusyIsCounted(s, past, i);
    BusyIsCounted(t, now, i);
    hide Tracks, Truly, HandedTo, Iterate, Inv, ValidTick, Complete, Watch;
    assert past <= now by { Later(s, tick, past); }
    TimePassesTracks(s.w[i], h, gone, past, now);
    CompleteTracks(s.w[i], h, gone, now, tick.report(i), back);
    WatchTracks(Complete(s.w[i], tick.report(i)), h, gone + back, now, s.cfg.serviceCapMs);
    HeardOk(s, tick, i);
    DealtCounts(Heard(s, tick, i), now, k);
    DealtTracks(Heard(s, tick, i), h, HandedTo(t.log.handoffs, i), gone + back, now, k);
  }

  lemma Later(s: State, tick: Tick, past: real)
    requires ValidTick(s.cfg.groups, tick, past)
    ensures past <= tick.now
  {
  }

  lemma HeardOk(s: State, tick: Tick, i: nat)
    requires i < |s.w| && WorkerOk(s.cfg, s.w[i])
    ensures WorkerOk(s.cfg, Heard(s, tick, i))
  {
    CompleteOk(s.cfg, s.w[i], tick.report(i));
    WatchOk(s.cfg, Complete(s.w[i], tick.report(i)), tick.now);
  }

  lemma {:induction false} RunTracks(
    cfg: Config, w: seq<Worker>, world: World, ticks: seq<Tick>, start: real, i: nat, back: seq<set<nat>>)
    requires FreshFleet(cfg, w) && ValidTicks(cfg.groups, ticks, start) && i < |w|
    requires HonestReturns(Start(cfg, w), world, ticks, i, back)
    ensures var s := After(Start(cfg, w), world, ticks);
      i < |s.w| && Tracks(s.w[i], HandedTo(s.log.handoffs, i), Gone(back), Clock(ticks, start))
  {
    if ticks == [] {
      assert StillOut(0, {}) == {};
    } else {
      hide Iterate, Tracks, Truly, HandedTo, ValidTick, FreshFleet, Start;
      var init, last := ticks[..|ticks| - 1], ticks[|ticks| - 1];
      var before := back[..|back| - 1];
      RunTracks(cfg, w, world, init, start, i, before);
      RunInv(cfg, w, world, init, start);
      IterateTracks(After(Start(cfg, w), world, init), world, last, i, Gone(before), back[|back| - 1], Clock(init, start));
    }
  }

  /** A stamp past the cap means a connection past the cap, and one that the worker still has. */
  lemma TrackedAlarm(x: Worker, h: seq<Handoff>, gone: set<nat>, past: real, capMs: int, now: real) returns (k: nat)
    requires Tracks(x, h, gone, past) && Breaches(x, capMs, now) && x.ring > 0
    ensures k < |h| && k !in gone && (now - h[k].at) * 1000.0 >= capMs as real
  {
    k := Watchdog.NoFalseAlarm(LedgerOf(x, h, gone), now, capMs);
  }

  /** No false alarm, on every run of the router. If a worker's reports are true, whichever of its
      connections they are about and in whatever order, then at any time its head stamp is past the
      cap only if it still has a connection that was handed to it at least that long ago. */
  lemma NeverAFalseAlarm(
    cfg: Config, w: seq<Worker>, world: World, ticks: seq<Tick>, start: real, i: nat, back: seq<set<nat>>,
    capMs: int, now: real) returns (k: nat)
    requires FreshFleet(cfg, w) && ValidTicks(cfg.groups, ticks, start)
    requires i < |w| && i < |After(Start(cfg, w), world, ticks).w|
    requires HonestReturns(Start(cfg, w), world, ticks, i, back)
    requires Breaches(After(Start(cfg, w), world, ticks).w[i], capMs, now)
    ensures var h := HandedTo(After(Start(cfg, w), world, ticks).log.handoffs, i);
      k < |h| && k !in Gone(back) && (now - h[k].at) * 1000.0 >= capMs as real
  {
    hide After, HandedTo, Tracks, Inv, Gone, Start, HonestReturns;
    RunTracks(cfg, w, world, ticks, start, i, back);
    RunInv(cfg, w, world, ticks, start);
    var s := After(Start(cfg, w), world, ticks);
    BusyIsCounted(s, Clock(ticks, start), i);
    k := TrackedAlarm(s.w[i], HandedTo(s.log.handoffs, i), Gone(back), Clock(ticks, start), capMs, now);
  }

  lemma OnlyBreachesCount(s: State, world: World, tick: Tick, i: nat)
    requires i < |s.w| && i < |Iterate(s, world, tick).w|
    ensures Iterate(s, world, tick).w[i].overCap == s.w[i].overCap +
      (if Breaches(Complete(s.w[i], tick.report(i)), s.cfg.serviceCapMs, tick.now) then 1 else 0)
  {
    hide Iterate, Breaches, PopStamps, HandedTo;
    var k := IterateDeals(s, world, tick, i);
    DealtCounts(Heard(s, tick, i), tick.now, k);
  }

  /** ... and what is counted is never false: a worker's count of connections seen past the cap
      rises in an iteration only if, after its reports, it still has one that is. */
  lemma WhatIsCountedIsTrue(
    cfg: Config, w: seq<Worker>, world: World, ticks: seq<Tick>, start: real, i: nat, back: seq<set<nat>>)
    returns (k: nat)
    requires FreshFleet(cfg, w) && ValidTicks(cfg.groups, ticks, start) && ticks != []
    requires i < |w| && HonestReturns(Start(cfg, w), world, ticks, i, back)
    requires i < |After(Start(cfg, w), world, ticks).w| && i < |After(Start(cfg, w), world, ticks[..|ticks| - 1]).w|
    requires After(Start(cfg, w), world, ticks).w[i].overCap > After(Start(cfg, w), world, ticks[..|ticks| - 1]).w[i].overCap
    ensures var h := HandedTo(After(Start(cfg, w), world, ticks[..|ticks| - 1]).log.handoffs, i);
      k < |h| && k !in Gone(back) && (Clock(ticks, start) - h[k].at) * 1000.0 >= cfg.serviceCapMs as real
  {
    var init, last := ticks[..|ticks| - 1], ticks[|ticks| - 1];
    var before := back[..|back| - 1];
    var s := After(Start(cfg, w), world, init);
    assert After(Start(cfg, w), world, ticks) == Iterate(s, world, last);
    var h := HandedTo(s.log.handoffs, i);
    assert HonestReturns(Start(cfg, w), world, init, i, before);
    assert Truly(s.w[i], |h|, Gone(before), last.report(i), back[|back| - 1]);
    hide After, HandedTo, Tracks, Truly, Inv, Start, HonestReturns, Iterate, ValidTick, Breaches, Complete, FreshFleet;
    RunTracks(cfg, w, world, init, start, i, before);
    RunInv(cfg, w, world, init, start);
    BusyIsCounted(s, Clock(init, start), i);
    OnlyBreachesCount(s, world, last, i);
    IterateTracks(s, world, last, i, Gone(before), back[|back| - 1], Clock(init, start));
    StampsNeedARing(s, last, i);
    k := TrackedAlarm(Complete(s.w[i], last.report(i)), h, Gone(back), last.now, cfg.serviceCapMs, last.now);
  }

  lemma StampsNeedARing(s: State, tick: Tick, i: nat)
    requires i < |s.w| && WorkerOk(s.cfg, s.w[i])
    ensures Breaches(Complete(s.w[i], tick.report(i)), s.cfg.serviceCapMs, tick.now) ==> Complete(s.w[i], tick.report(i)).ring > 0
  {
    CompleteOk(s.cfg, s.w[i], tick.report(i));
  }

  // ------------------------------------------------------------- every breach is counted

  /** The workers whose head stamp, after this iteration's reports, is past the cap. */
  ghost function PastCap(w: seq<Worker>, tick: Tick, capMs: int): set<nat> {
    set i: nat | i < |w| && capMs > 0 &&
      var x := Complete(w[i], tick.report(i)); x.alive && x.disp != [] && (tick.now - x.disp[0]) * 1000.0 >= capMs as real
  }

  ghost function BreachersOf(w: seq<Worker>, capMs: int, now: real): set<nat> {
    set i: nat | i < |w| && Breaches(w[i], capMs, now)
  }

  lemma {:induction false} BreachersCounted(w: seq<Worker>, capMs: int, now: real)
    ensures Breachers(w, capMs, now) == |BreachersOf(w, capMs, now)|
  {
    hide Breaches;
    if w == [] {
      assert BreachersOf(w, capMs, now) == {};
    } else {
      var last: nat := |w| - 1;
      BreachersCounted(w[..last], capMs, now);
      assert BreachersOf(w, capMs, now) ==
        BreachersOf(w[..last], capMs, now) + (if Breaches(w[last], capMs, now) then {last} else {});
    }
  }

  lemma PastCapIs(w: seq<Worker>, tick: Tick, capMs: int)
    ensures BreachersOf(CompletePass(w, tick), capMs, tick.now) == PastCap(w, tick, capMs)
  {
    hide Complete;
  }

  /** No breach goes unseen. In each iteration every live worker whose head stamp is past the cap after
      its reports is counted, once, on its own count and under the service cap, and nobody else is. */
  lemma BreachesAreCounted(s: State, world: World, tick: Tick)
    ensures var t, past := Iterate(s, world, tick), PastCap(s.w, tick, s.cfg.serviceCapMs);
      && t.n.refused.serviceCap == s.n.refused.serviceCap + |past|
      && |t.w| == |s.w| && forall i :: 0 <= i < |s.w| ==> t.w[i].overCap == s.w[i].overCap + (if i in past then 1 else 0)
  {
    hide Iterate, Complete, Breaches, Breachers, C.Recorded, C.IterateCalls, CompletePass;
    C.IterateRecorded(world, s, tick);
    PastCapIs(s.w, tick, s.cfg.serviceCapMs);
    BreachersCounted(CompletePass(s.w, tick), s.cfg.serviceCapMs, tick.now);
    SameFleet(s, world, tick);
    forall i | 0 <= i < |s.w|
      ensures Iterate(s, world, tick).w[i].overCap == s.w[i].overCap + (if i in PastCap(s.w, tick, s.cfg.serviceCapMs) then 1 else 0)
    {
      OnlyBreachesCount(s, world, tick, i);
      InPastCap(s.w, tick, s.cfg.serviceCapMs, i);
    }
  }

  lemma InPastCap(w: seq<Worker>, tick: Tick, capMs: int, i: nat)
    requires i < |w|
    ensures i in PastCap(w, tick, capMs) <==> Breaches(Complete(w[i], tick.report(i)), capMs, tick.now)
  {
    hide Complete;
  }

  lemma SameFleet(s: State, world: World, tick: Tick)
    ensures |Iterate(s, world, tick).w| == |s.w|
  {
    hide Iterate, HandedTo, Dealt;
    var k := IterateDeals(s, world, tick, 0);
  }

  // ------------------------------------------------------------- what workers report

  /** Worker `i` has not closed its channel. */
  ghost predicate StillThere(ticks: seq<Tick>, i: nat) {
    forall k :: 0 <= k < |ticks| ==> ticks[k].report(i) != ChannelClosed
  }

  /** How many completions it has reported until it did. */
  ghost function Reported(ticks: seq<Tick>, i: nat): nat {
    if ticks == [] then 0
    else
      var init, last := ticks[..|ticks| - 1], ticks[|ticks| - 1];
      Reported(init, i) + (if StillThere(init, i) && last.report(i).Done? then last.report(i).count else 0)
  }

  lemma StillThereNext(ticks: seq<Tick>, i: nat)
    requires ticks != []
    ensures StillThere(ticks, i) <==> StillThere(ticks[..|ticks| - 1], i) && ticks[|ticks| - 1].report(i) != ChannelClosed
  {
    var init := ticks[..|ticks| - 1];
    assert forall k :: 0 <= k < |init| ==> init[k] == ticks[k];
  }

  lemma HeardOf(s: State, tick: Tick, i: nat)
    requires i < |s.w|
    ensures var x, y, r := s.w[i], Heard(s, tick, i), tick.report(i);
      && y.alive == (x.alive && r != ChannelClosed)
      && y.completed == x.completed + (if x.alive && r.Done? then r.count else 0)
  {
    hide PopStamps, Breaches;
  }

  /** Reports are believed: a worker that started is alive until it closes its channel, and its count
      of completions is what it has reported until then. With the handoffs made to it and as long as it
      reports no more than it was dealt, that is its load (SlotsAreGivenBackOnce). */
  lemma {:induction false} ReportsAreBelieved(cfg: Config, w: seq<Worker>, world: World, ticks: seq<Tick>, i: nat)
    requires FreshFleet(cfg, w) && i < |w|
    ensures var s := After(Start(cfg, w), world, ticks);
      && i < |s.w|
      && (s.w[i].alive <==> w[i].alive && StillThere(ticks, i))
      && s.w[i].completed == if w[i].alive then Reported(ticks, i) else 0
  {
    if ticks != [] {
      hide Iterate, Heard, FreshFleet, HandedTo, Start, Dealt, StillThere;
      var init, last := ticks[..|ticks| - 1], ticks[|ticks| - 1];
      ReportsAreBelieved(cfg, w, world, init, i);
      var s := After(Start(cfg, w), world, init);
      var k := IterateDeals(s, world, last, i);
      HeardOf(s, last, i);
      DealtCounts(Heard(s, last, i), last.now, k);
      StillThereNext(ticks, i);
    }
  }
}
