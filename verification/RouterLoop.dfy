/** The routing process itself: its arrays, their lengths and its counters, updated in place. The
    queue closes gaps by moving its tail down, the other two sets by moving their last entry; what
    `poll` reported stands in an array of its own, at the places the sets had when it was asked.
    Each method is proved to perform the routine of the Router module it is named after. */
module RouterLoop {
  import opened Options
  import opened Router
  import opened WorkerStates

  /** A queued connection as the process holds it; the number of its call of `router_admit` is only
      there to say in which order they came. */
  datatype Waiting = Waiting(id: nat, enqueued: real, lang: nat)

  ghost function EntryOf(x: Waiting, ticket: nat): Queued {
    Queued(x.id, x.enqueued, x.lang, ticket)
  }

  ghost function Line(q: seq<Waiting>, order: seq<nat>): (r: seq<Queued>)
    requires |q| == |order|
    ensures |r| == |q| && forall i :: 0 <= i < |q| ==> r[i] == EntryOf(q[i], order[i])
  {
    seq(|q|, i requires 0 <= i < |q| == |order| => EntryOf(q[i], order[i]))
  }

  lemma LineErased(q: seq<Waiting>, order: seq<nat>, at: nat)
    requires at < |q| == |order|
    ensures Line(Erase(q, at), Erase(order, at)) == Erase(Line(q, order), at)
  {
  }

  lemma LineLonger(q: seq<Waiting>, order: seq<nat>, x: Waiting, ticket: nat)
    requires |q| == |order|
    ensures Line(q + [x], order + [ticket]) == Line(q, order) + [EntryOf(x, ticket)]
  {
  }

  /** A watched descriptor and what was reported of it. */
  datatype Descriptor = Channel(worker: nat) | Listener | Client(id: nat)
  datatype PollFd = PollFd(fd: Descriptor, revents: bool)

  /** Where the sets start in the poll set, and how many entries each had. */
  datatype Layout = Layout(workers: nat, queued: nat, lingering: nat, pending: nat)

  function QFirst(l: Layout): nat { l.workers + 1 }
  function LFirst(l: Layout): nat { QFirst(l) + l.queued }
  function PFirst(l: Layout): nat { LFirst(l) + l.lingering }
  function Used(l: Layout): nat { PFirst(l) + l.pending }

  /** What `poll` reports of a descriptor. */
  predicate Seen(tick: Tick, fd: Descriptor) {
    match fd
    case Channel(i) => tick.report(i) != Silent
    case Listener => tick.arrival.Some?
    case Client(id) => tick.fired(id)
  }

  // -------------------------------------------------------------- the refusal counters

  const REASONS := 5

  function Index(r: Reason): (i: nat)
    ensures i < REASONS
  {
    match r
    case AtCapacity => 0
    case QueuedTooLong => 1
    case ServiceCap => 2
    case HandoffFailed => 3
    case LanguageNotServed => 4
  }

  function CountersOf(a: seq<nat>): Tally
    requires |a| == REASONS
  {
    Tally(a[0], a[1], a[2], a[3], a[4])
  }

  method CountOne(a: array<nat>, r: Reason)
    requires a.Length == REASONS
    modifies a
    ensures CountersOf(a[..]) == Bump(old(CountersOf(a[..])), r)
  {
    a[Index(r)] := a[Index(r)] + 1;
  }

  // --------------------------------------------------------------------- the fleet

  ghost function Rings(w: seq<WorkerState>): set<array<real>> {
    set i | 0 <= i < |w| && w[i].disp != null :: w[i].disp
  }

  /** Sound workers, each with a ring of its own. */
  ghost predicate SoundFleet(w: seq<WorkerState>)
    reads w
  {
    && (forall i :: 0 <= i < |w| ==> w[i].Valid())
    && (forall i, j :: 0 <= i < j < |w| ==> w[i] != w[j] && (w[i].disp == null || w[i].disp != w[j].disp))
  }

  ghost function Values(w: seq<WorkerState>): (r: seq<Worker>)
    requires SoundFleet(w)
    reads w, Rings(w)
    ensures |r| == |w| && forall i :: 0 <= i < |w| ==> r[i] == w[i].Value()
  {
    seq(|w|, i requires 0 <= i < |w| && w[i].Valid() reads w, Rings(w) => w[i].Value())
  }

  /** The live workers below `n`, in order. */
  ghost predicate LiveBelow(who: seq<nat>, w: seq<WorkerState>, n: nat)
    requires n <= |w|
    reads w
  {
    && (forall k :: 0 <= k < |who| ==> who[k] < n && w[who[k]].alive)
    && (forall j, k :: 0 <= j < k < |who| ==> who[j] < who[k])
    && (forall i :: 0 <= i < n && w[i].alive ==> i in who)
  }

  lemma NoSlots(w: seq<WorkerState>)
    ensures LiveBelow([], w, 0)
  {
  }

  lemma LiveNext(who: seq<nat>, w: seq<WorkerState>, n: nat)
    requires n < |w| && LiveBelow(who, w, n)
    ensures LiveBelow(if w[n].alive then who + [n] else who, w, n + 1)
  {
    if w[n].alive {
      forall i | 0 <= i < n + 1 && w[i].alive
        ensures i in who + [n]
      {
        assert i < n ==> i in who;
      }
    }
  }

  /** The first slots watch the channels of these workers. */
  ghost predicate ShowsChannels(slots: seq<PollFd>, who: seq<nat>) {
    |who| <= |slots| && forall k :: 0 <= k < |who| ==> slots[k].fd == Channel(who[k])
  }

  /** The slots from `first` watch these connections. */
  ghost predicate Shows(slots: seq<PollFd>, first: nat, ids: seq<nat>) {
    first + |ids| <= |slots| && forall i :: 0 <= i < |ids| ==> slots[first + i].fd == Client(ids[i])
  }

  /** What has been laid out below slot `n` is still there when only slots from `n` on changed. */
  lemma EarlierStays(was: seq<PollFd>, now: seq<PollFd>, who: seq<nat>, ids: seq<nat>, first: nat, n: nat)
    requires n <= |was| == |now| && was[..n] == now[..n]
    ensures |who| <= n && ShowsChannels(was, who) ==> ShowsChannels(now, who)
    ensures first + |ids| <= n && Shows(was, first, ids) ==> Shows(now, first, ids)
    ensures forall k :: 0 <= k < n ==> now[k] == was[k]
  {
    assert forall k :: 0 <= k < n ==> was[..n][k] == now[..n][k];
  }

  lemma SameFds(was: seq<PollFd>, now: seq<PollFd>, who: seq<nat>, ids: seq<nat>, first: nat)
    requires |was| == |now| && forall k :: 0 <= k < |was| ==> now[k].fd == was[k].fd
    ensures ShowsChannels(was, who) ==> ShowsChannels(now, who)
    ensures Shows(was, first, ids) ==> Shows(now, first, ids)
  {
  }

  method TakeOnAt(w: seq<WorkerState>, i: nat, now: real)
    requires SoundFleet(w) && i < |w|
    modifies w, Rings(w)
    ensures SoundFleet(w) && Values(w) == old(Values(w))[i := Assign(old(Values(w))[i], now)]
  {
    hide Assign;
    w[i].TakeOn(now);
  }

  method HearAt(w: seq<WorkerState>, i: nat, r: Report)
    requires SoundFleet(w) && i < |w| && w[i].alive
    modifies w, Rings(w)
    ensures SoundFleet(w) && Values(w) == old(Values(w))[i := Complete(old(Values(w))[i], r)]
  {
    hide Complete;
    w[i].Hear(r);
  }

  method LookAt(w: seq<WorkerState>, i: nat, capMs: int, now: real) returns (breached: bool)
    requires SoundFleet(w) && i < |w|
    modifies w, Rings(w)
    ensures breached == Breaches(old(Values(w))[i], capMs, now)
    ensures SoundFleet(w) && Values(w) == old(Values(w))[i := Watch(old(Values(w))[i], capMs, now)]
  {
    hide Watch, Breaches;
    breached := w[i].Look(capMs, now);
  }

  lemma PickNone(lang: nat, slots: nat)
    ensures GroupPick([], lang, slots) == None
  {
  }

  lemma PickNext(ws: seq<Worker>, lang: nat, slots: nat, i: nat)
    requires i < |ws|
    ensures var best := GroupPick(ws[..i], lang, slots);
      GroupPick(ws[..i + 1], lang, slots) ==
      if HasFreeSlot(ws[i], lang, slots) && (best.None? || ws[i].active < ws[best.value].active) then Some(i) else best
  {
    assert ws[..i + 1][..i] == ws[..i];
  }

  method Room<T>(n: nat, x: T) returns (a: array<T>)
    ensures fresh(a) && a.Length == n && forall i :: 0 <= i < n ==> a[i] == x
  {
    a := new T[n](_ => x);
  }

  method Sets(places: nat) returns (q: array<Waiting>, pending: array<Pending>, linger: array<Lingering>)
    ensures fresh(q) && fresh(pending) && fresh(linger)
    ensures q.Length == places && pending.Length == PENDING_MAX && linger.Length == LINGER_MAX
  {
    q := Room(places, Waiting(0, 0.0, 0));
    pending := Room(PENDING_MAX, Pending(0, 0.0));
    linger := Room(LINGER_MAX, Lingering(0, 0.0));
  }

  method NewCounters() returns (refused: array<nat>, shared: array<nat>)
    ensures fresh(refused) && fresh(shared) && refused != shared && refused.Length == shared.Length == REASONS
    ensures CountersOf(refused[..]) == NO_REFUSALS && CountersOf(shared[..]) == NO_REFUSALS
  {
    refused := Room(REASONS, 0);
    shared := Room(REASONS, 0);
  }

  class RouterProcess {
    const cfg: Config
    const world: World
    const w: seq<WorkerState>
    var q: array<Waiting>
    var qN: nat
    const pending: array<Pending>
    var pendingN: nat
    const linger: array<Lingering>
    var lingerN: nat
    const pfd: array<PollFd>
    const slotOf: array<nat>          // which worker a slot of the poll set is of
    const refused: array<nat>
    const shared: array<nat>
    var accepted: nat
    var dispatched: nat
    var queuedTotal: nat
    var queuePeak: nat
    var clientGone: nat
    var lingerForced: nat
    var classifyTimeouts: nat
    ghost var order: seq<nat>         // the tickets of the queued
    ghost var log: History

    // ------------------------------------------------------------------ what it means

    ghost predicate Lengths()
      reads this
    {
      && qN <= q.Length && |order| == qN && (q.Length > 0 || (cfg.qPer > 0 && w == []))
      && pendingN <= pending.Length == PENDING_MAX
      && lingerN <= linger.Length == LINGER_MAX
      && pfd.Length == |w| + 1 + QPOLL_MAX + LINGER_MAX + PENDING_MAX && slotOf.Length == |w|
      && refused.Length == shared.Length == REASONS && refused != shared && slotOf != refused && slotOf != shared
    }

    ghost predicate Valid()
      reads this, w
    {
      SoundFleet(w) && Lengths()
    }

    ghost function Totals(): Counters
      requires Lengths()
      reads this, refused, shared
    {
      Counters(accepted, dispatched, queuedTotal, queuePeak, clientGone, lingerForced, classifyTimeouts,
               CountersOf(refused[..]), CountersOf(shared[..]))
    }

    ghost function View(): State
      requires Valid()
      reads this, w, Rings(w), q, pending, linger, refused, shared
    {
      State(cfg, Values(w), Line(q[..qN], order), q.Length, pending[..pendingN], linger[..lingerN], Totals(), log)
    }

    constructor (cfg: Config, w: seq<WorkerState>, world: World)
      requires SoundFleet(w)
      ensures Valid() && View() == Start(cfg, Values(w))
      ensures this.cfg == cfg && this.w == w && this.world == world
    {
      hide SoundFleet, Values, Rings, CountersOf;
      var places: nat := if cfg.qPer < 0 then 16 else if cfg.qPer > 0 then cfg.qPer * |w| else 1;
      var queue, parking, closing := Sets(places);
      var slots := Room(|w| + 1 + QPOLL_MAX + LINGER_MAX + PENDING_MAX, PollFd(Listener, false));
      var owners := Room(|w|, 0);
      var ours, page := NewCounters();
      this.cfg, this.world, this.w := cfg, world, w;
      q, pending, linger, pfd, slotOf, refused, shared := queue, parking, closing, slots, owners, ours, page;
      qN, pendingN, lingerN, order := 0, 0, 0, [];
      accepted, dispatched, queuedTotal, queuePeak, clientGone, lingerForced, classifyTimeouts := 0, 0, 0, 0, 0, 0, 0;
      log := History(0, [], [], multiset{});
    }

    // ------------------------------------------------------------------------- scans

    method CountLive(lang: nat) returns (n: nat)
      requires SoundFleet(w)
      ensures n == GroupLive(Values(w), lang)
    {
      ghost var ws := Values(w);
      n := 0;
      for i := 0 to |w|
        invariant n == GroupLive(ws[..i], lang)
      {
        assert ws[..i + 1][..i] == ws[..i] && ws[i] == w[i].Value();
        if w[i].alive && w[i].lang == lang {
          n := n + 1;
        }
      }
      assert ws[..|w|] == ws;
    }

    method CountQueued(lang: nat) returns (n: nat)
      requires Lengths()
      ensures n == GroupQueued(Line(q[..qN], order), lang)
    {
      hide Line;
      n := 0;
      ghost var line := Line(q[..qN], order);
      for i := 0 to qN
        invariant n == GroupQueued(line[..i], lang)
      {
        assert line[..i + 1][..i] == line[..i] && line[i].lang == q[i].lang;
        if q[i].lang == lang {
          n := n + 1;
        }
      }
      assert line[..qN] == line;
    }

    method Pick(lang: nat) returns (best: Option<nat>)
      requires SoundFleet(w)
      ensures best == GroupPick(Values(w), lang, cfg.slots)
    {
      hide GroupPick, Values;
      ghost var ws := Values(w);
      best := None;
      PickNone(lang, cfg.slots);
      for i := 0 to |w|
        invariant best == GroupPick(ws[..i], lang, cfg.slots)
      {
        PickNext(ws, lang, cfg.slots, i);
        assert ws[i] == w[i].Value();
        if w[i].alive && w[i].lang == lang && w[i].active < cfg.slots &&
           (best.None? || w[i].active < w[best.value].active) {
          best := Some(i);
        }
      }
      assert ws[..|w|] == ws;
    }

    method FindHead(lang: nat) returns (head: Option<nat>)
      requires Lengths()
      ensures head == GroupHead(Line(q[..qN], order), lang)
    {
      hide Line;
      for i := 0 to qN
        invariant forall k :: 0 <= k < i ==> q[k].lang != lang
      {
        if q[i].lang == lang {
          return Some(i);
        }
      }
      return None;
    }

    // --------------------------------------------------------- one connection at a time

    method CountRefusal(reason: Reason)
      requires Valid()
      modifies refused, shared
      ensures Valid()
      ensures var n := old(View()).n;
        View() == old(View()).(n := n.(refused := Bump(n.refused, reason), shared := Bump(n.shared, reason)))
    {
      hide Bump, CountersOf, SoundFleet, Values, Rings;
      CountOne(refused, reason);
      CountOne(shared, reason);
    }

    method PushLinger(x: Lingering)
      requires Valid() && lingerN < LINGER_MAX
      modifies this`lingerN, linger
      ensures Valid() && View() == old(View()).(linger := old(View()).linger + [x])
    {
      hide CountersOf, SoundFleet, Values, Rings;
      linger[lingerN] := x;
      lingerN := lingerN + 1;
    }

    /** What cannot be finished at once is parked, or closed when there is no place left for it. */
    method PutAway(id: nat, now: real)
      requires Valid()
      modifies this`lingerN, this`lingerForced, this`log, linger
      ensures Valid()
      ensures var s := old(View());
        var parked := !world.closesAtOnce(id) && |s.linger| < LINGER_MAX;
        View() == s.(
          linger := if parked then s.linger + [Lingering(id, now + LINGER_S)] else s.linger,
          n := s.n.(lingerForced := if parked || world.closesAtOnce(id) then s.n.lingerForced else s.n.lingerForced + 1),
          log := s.log.(closed := if parked then s.log.closed else s.log.closed + multiset{id}))
    {
      hide CountersOf, SoundFleet, Values, Rings;
      if world.closesAtOnce(id) {
        log := log.(closed := log.closed + multiset{id});
      } else if lingerN < LINGER_MAX {
        PushLinger(Lingering(id, now + LINGER_S));
      } else {
        lingerForced := lingerForced + 1;
        log := log.(closed := log.closed + multiset{id});
      }
    }

    ghost method Note(id: nat, reason: Reason, since: real, now: real)
      requires Valid()
      modifies this`log
      ensures Valid()
      ensures var s := old(View());
        View() == s.(log := s.log.(refusals := s.log.refusals + [Refusal(id, reason, since, now)]))
    {
      hide CountersOf, SoundFleet, Values, Rings;
      log := log.(refusals := log.refusals + [Refusal(id, reason, since, now)]);
    }

    /** Counted here and on the page shared with the workers, so that a refusal cannot be delivered
        without being counted. */
    method RefuseFd(id: nat, reason: Reason, since: real, now: real)
      requires Valid()
      modifies this`lingerN, this`lingerForced, this`log, linger, refused, shared
      ensures Valid() && View() == Refuse(old(View()), world, id, reason, since, now)
    {
      hide Bump, Valid, View;
      CountRefusal(reason);
      Note(id, reason, since, now);
      PutAway(id, now);
    }

    /** The worker owns the connection from here. */
    method HandTo(worker: nat, ghost e: Queued, now: real)
      requires Valid() && worker < |w|
      modifies this`dispatched, this`log, w, Rings(w)
      ensures Valid()
      ensures var s := old(View());
        View() == s.(w := s.w[worker := Assign(s.w[worker], now)],
                     n := s.n.(dispatched := s.n.dispatched + 1),
                     log := s.log.(handoffs := s.log.handoffs + [Handoff(e.id, worker, e.lang, e.ticket, now)]))
    {
      hide Valid, View, Assign;
      GiveSlot(worker, now);
      CountHandoff(Handoff(e.id, worker, e.lang, e.ticket, now));
    }

    method GiveSlot(worker: nat, now: real)
      requires Valid() && worker < |w|
      modifies w, Rings(w)
      ensures Valid() && |old(View()).w| == |w|
      ensures var s := old(View()); View() == s.(w := s.w[worker := Assign(s.w[worker], now)])
    {
      hide CountersOf, SoundFleet, Values, Assign;
      TakeOnAt(w, worker, now);
    }

    method CountHandoff(ghost h: Handoff)
      requires Valid()
      modifies this`dispatched, this`log
      ensures Valid()
      ensures var s := old(View());
        View() == s.(n := s.n.(dispatched := s.n.dispatched + 1), log := s.log.(handoffs := s.log.handoffs + [h]))
    {
      hide CountersOf, SoundFleet, Values, Rings;
      dispatched := dispatched + 1;
      log := log.(handoffs := log.handoffs + [h]);
    }

    method DispatchTo(worker: nat, x: Waiting, ghost ticket: nat, now: real)
      requires Valid() && worker < |w|
      modifies this`dispatched, this`log, this`lingerN, this`lingerForced, linger, refused, shared, w, Rings(w)
      ensures Valid() && View() == Dispatch(old(View()), world, worker, EntryOf(x, ticket), now)
    {
      hide Refuse, Assign, Valid, View;
      if !world.handoff(x.id) {
        RefuseFd(x.id, HandoffFailed, x.enqueued, now);
        return;
      }
      HandTo(worker, EntryOf(x, ticket), now);
    }

    // -------------------------------------------------------------------- the queue

    /** Twice the room; only a queue without a bound ever needs it. */
    method Grow()
      requires Lengths()
      modifies this`q
      ensures Lengths() && fresh(q) && q.Length == 2 * old(q.Length) && q[..qN] == old(q[..qN])
    {
      var bigger := Room(q.Length * 2, Waiting(0, 0.0, 0));
      for i := 0 to qN
        invariant q == old(q) && forall k :: 0 <= k < i ==> bigger[k] == q[k]
        invariant fresh(bigger) && bigger.Length == 2 * q.Length && q[..qN] == old(q[..qN])
      {
        bigger[i] := q[i];
      }
      q := bigger;
    }

    method Append(x: Waiting, ghost ticket: nat)
      requires Valid() && q.Length > 0
      modifies this`q, this`qN, this`order, this`queuedTotal, this`queuePeak, q
      ensures Valid() && View() == Enqueue(old(View()), EntryOf(x, ticket)) && (q == old(q) || fresh(q))
    {
      hide CountersOf, SoundFleet, Values;
      if qN >= q.Length {
        Grow();
      }
      PutLast(x, ticket);
    }

    method PutLast(x: Waiting, ghost ticket: nat)
      requires Valid() && qN < q.Length
      modifies this`qN, this`order, this`queuedTotal, this`queuePeak, q
      ensures Valid()
      ensures var s := old(View());
        View() == s.(q := s.q + [EntryOf(x, ticket)], n := s.n.(queuedTotal := s.n.queuedTotal + 1,
          queuePeak := if |s.q| + 1 > s.n.queuePeak then |s.q| + 1 else s.n.queuePeak))
    {
      hide Valid, View;
      StoreLast(x, ticket);
      NoteQueued();
    }

    method StoreLast(x: Waiting, ghost ticket: nat)
      requires Valid() && qN < q.Length
      modifies this`qN, this`order, q
      ensures Valid() && View() == old(View()).(q := old(View()).q + [EntryOf(x, ticket)])
    {
      hide CountersOf, SoundFleet, Values, Line;
      LineLonger(q[..qN], order, x, ticket);
      q[qN] := x;
      assert q[..qN + 1] == old(q[..qN]) + [x];
      qN, order := qN + 1, order + [ticket];
    }

    method NoteQueued()
      requires Valid()
      modifies this`queuedTotal, this`queuePeak
      ensures Valid()
      ensures var s := old(View());
        View() == s.(n := s.n.(queuedTotal := s.n.queuedTotal + 1,
          queuePeak := if |s.q| > s.n.queuePeak then |s.q| else s.n.queuePeak))
    {
      hide CountersOf, SoundFleet, Values;
      queuedTotal := queuedTotal + 1;
      if qN > queuePeak {
        queuePeak := qN;
      }
    }

    /** `queue_erase`: the entries behind move down by one. */
    method EraseQueued(at: nat)
      requires Valid() && at < qN
      modifies this`qN, this`order, q
      ensures Valid() && View() == PopAt(old(View()), at)
      ensures q[..at] == old(q[..at]) && qN == old(qN) - 1
    {
      hide CountersOf, SoundFleet, Values;
      LineErased(q[..qN], order, at);
      MoveDown(q, at, qN);
      qN, order := qN - 1, Erase(order, at);
    }

    method OfGroup(lang: nat) returns (n: nat)
      requires Valid()
      ensures n == GroupQueued(View().q, lang)
    {
      n := CountQueued(lang);
    }

    method BestOf(lang: nat) returns (best: Option<nat>)
      requires Valid()
      ensures best == GroupPick(View().w, lang, cfg.slots) && (best.Some? ==> best.value < |w|)
    {
      best := Pick(lang);
    }

    /** Rung 2 is bounded for each group, by its live workers. */
    method RoomFor(lang: nat, mine: nat) returns (fits: bool)
      requires Valid() && mine == GroupQueued(View().q, lang)
      ensures fits == HasRoom(View(), lang) && (fits ==> q.Length > 0)
    {
      hide GroupLive, GroupQueued;
      var live := CountLive(lang);
      NobodyIsLive(Values(w), lang);
      var bound := if cfg.qPer < 0 then -1 else cfg.qPer * live;
      fits := bound != 0 && (bound < 0 || mine < bound);
    }

    method FitsOrGrows(id: nat) returns (fits: bool)
      requires Valid()
      ensures fits == (|View().q| < View().qAlloc || world.grows(id))
    {
      fits := qN < q.Length || world.grows(id);
    }

    lemma SameConfig()
      requires Valid()
      ensures View().cfg == cfg && View().log.tickets == log.tickets && |View().w| == |w|
    {
    }

    /** Rungs 1 and 2 for a connection whose group is known. */
    method AdmitFd(id: nat, lang: nat, now: real)
      requires Valid()
      modifies this`q, this`qN, this`order, this`queuedTotal, this`queuePeak, q
      modifies this`dispatched, this`log, this`lingerN, this`lingerForced, linger, refused, shared, w, Rings(w)
      ensures Valid() && View() == Admit(old(View()), world, id, lang, now) && (q == old(q) || fresh(q))
    {
      hide GroupPick, GroupQueued, HasRoom, Dispatch, Refuse, Enqueue, Valid, View;
      SameConfig();
      ghost var s := View();
      var x := Waiting(id, now, lang);
      ghost var ticket := log.tickets;
      TakeTicket();
      TicketsTakeNoRoom(s, lang);
      var mine := OfGroup(lang);
      if mine == 0 {
        var best := BestOf(lang);
        if best.Some? {
          DispatchTo(best.value, x, ticket, now);
          return;
        }
      }
      var fits := RoomFor(lang, mine);
      var fits' := FitsOrGrows(id);
      if fits && fits' {
        Append(x, ticket);
      } else {
        RefuseFd(id, AtCapacity, now, now);
      }
    }

    ghost method TakeTicket()
      requires Valid()
      modifies this`log
      ensures Valid() && View() == Ticketed(old(View()))
    {
      hide CountersOf, SoundFleet, Values;
      log := log.(tickets := log.tickets + 1);
    }

    // ------------------------------------------------------------------- the drain

    method HeadOf(lang: nat) returns (head: Option<nat>)
      requires Valid()
      ensures head == GroupHead(View().q, lang) && (head.Some? ==> head.value < qN <= q.Length)
      ensures head.Some? ==> qN == |order| == |View().q| && View().q[head.value] == EntryOf(q[head.value], order[head.value])
    {
      head := FindHead(lang);
    }

    /** One turn of the inner loop; false when the group is done. */
    method DrainStep(lang: nat, now: real) returns (more: bool)
      requires Valid()
      modifies this`qN, this`order, q
      modifies this`dispatched, this`log, this`lingerN, this`lingerForced, linger, refused, shared, w, Rings(w)
      ensures Valid()
      ensures var r := DrainOne(old(View()), world, lang, now);
        more == r.Some? && View() == if more then r.value else old(View())
    {
      hide GroupHead, GroupPick, Dispatch, Refuse, Erase, Valid, View;
      SameConfig();
      var head := HeadOf(lang);
      if head.None? {
        return false;
      }
      var x := q[head.value];
      ghost var ticket := order[head.value];
      if Expired(x.enqueued, cfg.deadlineMs, now) {
        EraseQueued(head.value);
        RefuseFd(x.id, QueuedTooLong, x.enqueued, now);
        return true;
      }
      var best := BestOf(lang);
      if best.None? {
        return false;
      }
      EraseQueued(head.value);
      DispatchTo(best.value, x, ticket, now);
      return true;
    }

    method DrainAll(now: real)
      requires Valid()
      modifies this`qN, this`order, q
      modifies this`dispatched, this`log, this`lingerN, this`lingerForced, linger, refused, shared, w, Rings(w)
      ensures Valid() && View() == Drain(old(View()), world, now)
    {
      hide Valid, View, DrainOne;
      SameConfig();
      for lang := 0 to cfg.groups
        invariant Valid() && View() == DrainUpTo(old(View()), world, lang, now)
      {
        ghost var s := View();
        var more := true;
        while more
          invariant Valid()
          invariant more ==> DrainGroup(View(), world, lang, now) == DrainGroup(s, world, lang, now)
          invariant !more ==> View() == DrainGroup(s, world, lang, now)
          decreases more, |View().q|
        {
          more := DrainStep(lang, now);
        }
      }
    }

    // ----------------------------------------------------------------- the poll set

    /** Slot `k` watches worker `slotOf[k]`; the live workers have one each. */
    ghost predicate WatchesWorkers(n: nat)
      reads w, slotOf, pfd
    {
      && n <= |w| && n <= slotOf.Length && LiveBelow(slotOf[..n], w, |w|)
      && ShowsChannels(pfd[..], slotOf[..n])
    }

    /** The slots of the poll set are the entries of the sets, in order. */
    ghost predicate Laid(l: Layout)
      requires Lengths()
      reads this, w, slotOf, pfd, q, linger, pending
    {
      && l.queued == (if qN < QPOLL_MAX then qN else QPOLL_MAX) && l.lingering == lingerN && l.pending == pendingN
      && WatchesWorkers(l.workers) && Used(l) <= pfd.Length
      && pfd[l.workers].fd == Listener
      && Shows(pfd[..], QFirst(l), QueuedIds(q[..l.queued]))
      && Shows(pfd[..], LFirst(l), LingeringIds(linger[..lingerN]))
      && Shows(pfd[..], PFirst(l), PendingIds(pending[..pendingN]))
    }

    method LayWorkers() returns (n: nat)
      requires Lengths()
      modifies pfd, slotOf
      ensures WatchesWorkers(n)
    {
      hide LiveBelow;
      n := 0;
      NoSlots(w);
      for i := 0 to |w|
        invariant n <= i && LiveBelow(slotOf[..n], w, i)
        invariant ShowsChannels(pfd[..], slotOf[..n])
      {
        LiveNext(slotOf[..n], w, i);
        if w[i].alive {
          slotOf[n] := i;
          pfd[n] := PollFd(Channel(i), false);
          n := n + 1;
          assert slotOf[..n] == slotOf[..n - 1] + [i];
        }
      }
    }

    method LayQueue(first: nat, n: nat)
      requires n <= qN <= q.Length && first + n <= pfd.Length
      modifies pfd
      ensures Shows(pfd[..], first, QueuedIds(q[..n])) && pfd[..first] == old(pfd[..first])
    {
      for i := 0 to n
        invariant forall j :: 0 <= j < i ==> pfd[first + j].fd == Client(q[j].id)
        invariant forall k :: 0 <= k < first ==> pfd[k] == old(pfd[k])
      {
        pfd[first + i] := PollFd(Client(q[i].id), false);
      }
    }

    method LayLinger(first: nat)
      requires lingerN <= linger.Length && first + lingerN <= pfd.Length
      modifies pfd
      ensures Shows(pfd[..], first, LingeringIds(linger[..lingerN])) && pfd[..first] == old(pfd[..first])
    {
      for i := 0 to lingerN
        invariant forall j :: 0 <= j < i ==> pfd[first + j].fd == Client(linger[j].id)
        invariant forall k :: 0 <= k < first ==> pfd[k] == old(pfd[k])
      {
        pfd[first + i] := PollFd(Client(linger[i].id), false);
      }
    }

    method LayPending(first: nat)
      requires pendingN <= pending.Length && first + pendingN <= pfd.Length
      modifies pfd
      ensures Shows(pfd[..], first, PendingIds(pending[..pendingN])) && pfd[..first] == old(pfd[..first])
    {
      for i := 0 to pendingN
        invariant forall j :: 0 <= j < i ==> pfd[first + j].fd == Client(pending[j].id)
        invariant forall k :: 0 <= k < first ==> pfd[k] == old(pfd[k])
      {
        pfd[first + i] := PollFd(Client(pending[i].id), false);
      }
    }

    /** The poll set as it is laid out anew before every call; it never runs out of places. */
    method LayOut() returns (l: Layout)
      requires Lengths()
      modifies pfd, slotOf
      ensures Laid(l)
    {
      hide LiveBelow, Shows, ShowsChannels, QueuedIds, LingeringIds, PendingIds;
      var n := LayWorkers();
      ghost var who := slotOf[..n];
      l := Layout(n, if qN < QPOLL_MAX then qN else QPOLL_MAX, lingerN, pendingN);
      ghost var p0 := pfd[..];
      pfd[n] := PollFd(Listener, false);
      ghost var p1 := pfd[..];
      LayQueue(QFirst(l), l.queued);
      ghost var p2 := pfd[..];
      LayLinger(LFirst(l));
      ghost var p3 := pfd[..];
      LayPending(PFirst(l));
      EarlierStays(p0, p1, who, [], QFirst(l), n);
      EarlierStays(p1, p2, who, [], QFirst(l), QFirst(l));
      EarlierStays(p2, p3, who, QueuedIds(q[..l.queued]), QFirst(l), LFirst(l));
      EarlierStays(p3, pfd[..], who, QueuedIds(q[..l.queued]), QFirst(l), PFirst(l));
      EarlierStays(p3, pfd[..], who, LingeringIds(linger[..lingerN]), LFirst(l), PFirst(l));
      assert slotOf[..n] == who && WatchesWorkers(n);
    }

    /** `poll` */
    method Poll(l: Layout, tick: Tick)
      requires Lengths() && Laid(l)
      modifies pfd
      ensures Laid(l) && forall k :: 0 <= k < Used(l) ==> pfd[k].revents == Seen(tick, pfd[k].fd)
    {
      hide Seen, Shows, ShowsChannels, LiveBelow, QueuedIds, LingeringIds, PendingIds;
      ghost var was, who := pfd[..], slotOf[..l.workers];
      PollSlots(Used(l), tick);
      SameFds(was, pfd[..], who, QueuedIds(q[..l.queued]), QFirst(l));
      SameFds(was, pfd[..], who, LingeringIds(linger[..lingerN]), LFirst(l));
      SameFds(was, pfd[..], who, PendingIds(pending[..pendingN]), PFirst(l));
    }

    method PollSlots(n: nat, tick: Tick)
      requires n <= pfd.Length
      modifies pfd
      ensures forall k :: 0 <= k < pfd.Length ==> pfd[k].fd == old(pfd[k]).fd
      ensures forall k :: 0 <= k < n ==> pfd[k].revents == Seen(tick, pfd[k].fd)
    {
      hide Seen;
      for k := 0 to n
        invariant forall j :: 0 <= j < pfd.Length ==> pfd[j].fd == old(pfd[j]).fd
        invariant forall j :: 0 <= j < k ==> pfd[j].revents == Seen(tick, pfd[j].fd)
      {
        pfd[k] := pfd[k].(revents := Seen(tick, pfd[k].fd));
      }
    }

    // ------------------------------------------------------------------- the passes

    /** The `n` slots from `first` report what there is to see of the first `n` connections of a set,
        although by now entries behind them may have gone. */
    ghost predicate ReportsOf(tick: Tick, first: nat, ids: seq<nat>)
      requires first + |ids| <= pfd.Length
      reads pfd
    {
      forall i :: 0 <= i < |ids| ==> pfd[first + i].revents == tick.fired(ids[i])
    }

    lemma LingerIs()
      requires Valid()
      ensures lingerN <= linger.Length && View().linger == linger[..lingerN]
    {
    }

    /** `linger_step` has ended it: the last entry moves into its place. */
    method DropLinger(at: nat)
      requires Valid() && at < lingerN
      modifies this`lingerN, this`log, linger
      ensures Valid() && View() == EndLinger(old(View()), at)
      ensures lingerN == old(lingerN) - 1 && linger[..at] == old(linger[..at])
    {
      hide CountersOf, SoundFleet, Values;
      log := log.(closed := log.closed + multiset{linger[at].id});
      linger[at] := linger[lingerN - 1];
      lingerN := lingerN - 1;
    }

    method LingerLoop(l: Layout, tick: Tick)
      requires Valid() && LFirst(l) + lingerN <= pfd.Length
      requires ReportsOf(tick, LFirst(l), LingeringIds(linger[..lingerN]))
      modifies this`lingerN, this`log, linger
      ensures Valid() && View() == LingerPass(old(View()), tick, old(lingerN))
    {
      hide Valid, View, EndLinger;
      LingerIs();
      ghost var was := linger[..lingerN];
      for i := lingerN downto 0
        invariant Valid() && i <= lingerN <= linger.Length && linger[..i] == was[..i]
        invariant View().linger == linger[..lingerN]
        invariant LingerPass(View(), tick, i) == LingerPass(old(View()), tick, old(lingerN))
      {
        assert linger[i] == was[i] && LingeringIds(was)[i] == was[i].id;
        var fired := pfd[LFirst(l) + i].revents;
        if fired || tick.now >= linger[i].deadline {
          var closes := tick.lingerCloses(linger[i].id) || tick.now >= linger[i].deadline;
          if closes {
            DropLinger(i);
            LingerIs();
          }
        }
      }
    }

    /** One slot of a worker. */
    method HearOne(i: nat, fired: bool, tick: Tick)
      requires SoundFleet(w) && i < |w| && Values(w)[i].alive && fired == (tick.report(i) != Silent)
      modifies w, Rings(w)
      ensures SoundFleet(w) && Values(w) == old(Values(w))[i := Complete(old(Values(w))[i], tick.report(i))]
    {
      hide SoundFleet, Rings, Complete;
      if fired {
        HearAt(w, i, tick.report(i));
      } else {
        SilentIsNothing(Values(w)[i]);
      }
    }

    /** Each live worker's channel is read at most once, whoever of them dies on the way. */
    method HearAll(l: Layout, tick: Tick)
      requires SoundFleet(w) && slotOf.Length == |w| <= pfd.Length && WatchesWorkers(l.workers)
      requires forall k :: 0 <= k < l.workers ==> pfd[k].revents == (tick.report(slotOf[k]) != Silent)
      modifies w, Rings(w)
      ensures SoundFleet(w) && Values(w) == CompletePass(old(Values(w)), tick)
    {
      hide LiveBelow, Rings, SoundFleet, Values, Complete, HeardFrom, CompletePass;
      ghost var was, who := Values(w), slotOf[..l.workers];
      LiveMeans(who, w);
      NoneHeard(was, tick);
      for k := 0 to l.workers
        invariant SoundFleet(w) && HeardFrom(was, Values(w), who[..k], tick)
      {
        assert slotOf[k] == who[k];
        OneHeard(was, Values(w), who, k, tick);
        HearOne(slotOf[k], pfd[k].revents, tick);
      }
      assert who[..l.workers] == who;
      AllHeard(was, Values(w), who, tick);
    }

    method CompletionLoop(l: Layout, tick: Tick)
      requires Valid() && WatchesWorkers(l.workers)
      requires forall k :: 0 <= k < l.workers ==> pfd[k].revents == (tick.report(slotOf[k]) != Silent)
      modifies w, Rings(w)
      ensures Valid() && View() == old(View()).(w := CompletePass(old(View()).w, tick))
    {
      hide LiveBelow, Rings, CountersOf, SoundFleet, Values, CompletePass;
      HearAll(l, tick);
    }

    method LookAtOne(i: nat, now: real) returns (breached: bool)
      requires SoundFleet(w) && refused.Length == REASONS && i < |w|
      modifies w, Rings(w), refused
      ensures breached == Breaches(old(Values(w))[i], cfg.serviceCapMs, now)
      ensures SoundFleet(w) && Values(w) == old(Values(w))[i := Watch(old(Values(w))[i], cfg.serviceCapMs, now)]
      ensures var t := old(CountersOf(refused[..]));
        CountersOf(refused[..]) == t.(serviceCap := t.serviceCap + (if breached then 1 else 0))
    {
      hide CountersOf, SoundFleet, Values, Watch, Breaches, Rings;
      breached := LookAt(w, i, cfg.serviceCapMs, now);
      if breached {
        CountOne(refused, ServiceCap);
      }
    }

    /** The watchdog looks at every worker, and counts what it sees. */
    method LookAtAll(now: real)
      requires SoundFleet(w) && refused.Length == REASONS
      modifies w, Rings(w), refused
      ensures SoundFleet(w) && Values(w) == LookedAt(old(Values(w)), cfg.serviceCapMs, now)
      ensures var t := old(CountersOf(refused[..]));
        CountersOf(refused[..]) == t.(serviceCap := t.serviceCap + Breachers(old(Values(w)), cfg.serviceCapMs, now))
    {
      hide CountersOf, SoundFleet, Values, Watch, Breaches, Rings, Looked, LookedAt, Breachers;
      ghost var was, tally := Values(w), CountersOf(refused[..]);
      ghost var found: nat := 0;
      NoneLooked(was, cfg.serviceCapMs, now);
      for i := 0 to |w|
        invariant SoundFleet(w) && Looked(was, Values(w), i, cfg.serviceCapMs, now)
        invariant found == Breachers(was[..i], cfg.serviceCapMs, now)
        invariant CountersOf(refused[..]) == tally.(serviceCap := tally.serviceCap + found)
      {
        OneLooked(was, Values(w), i, cfg.serviceCapMs, now);
        var breached := LookAtOne(i, now);
        found := found + (if breached then 1 else 0);
      }
      assert was[..|w|] == was;
      AllLooked(was, Values(w), cfg.serviceCapMs, now);
    }

    method WatchLoop(now: real)
      requires Valid()
      modifies w, Rings(w), refused
      ensures Valid() && View() == WatchPass(old(View()), now)
    {
      hide SoundFleet, Values, Watch, Breachers, Rings, CountersOf;
      LookAtAll(now);
    }

    lemma QueueIs()
      requires Valid()
      ensures qN <= q.Length && qN == |View().q| && forall i :: 0 <= i < qN ==> View().q[i].id == q[i].id
    {
    }

    method HangUpAt(at: nat)
      requires Valid() && at < qN
      modifies this`qN, this`order, this`clientGone, this`log, q
      ensures Valid() && View() == HangUp(old(View()), at)
      ensures q[..at] == old(q[..at]) && qN == old(qN) - 1
    {
      hide CountersOf, SoundFleet, Values, Erase;
      log := log.(closed := log.closed + multiset{q[at].id});
      clientGone := clientGone + 1;
      EraseQueued(at);
    }

    method HangupOne(i: nat, fired: bool, tick: Tick)
      requires Valid() && i < qN <= q.Length && fired == tick.fired(q[i].id)
      modifies this`qN, this`order, this`clientGone, this`log, q
      ensures Valid() && i <= qN <= q.Length && q[..i] == old(q[..i])
      ensures i < |old(View()).q|
      ensures View() == if tick.fired(old(View()).q[i].id) then HangUp(old(View()), i) else old(View())
    {
      hide Valid, View, HangUp;
      QueueIs();
      if fired {
        HangUpAt(i);
        QueueIs();
      }
    }

    method HangupLoop(l: Layout, tick: Tick)
      requires Valid() && l.queued == (if qN < QPOLL_MAX then qN else QPOLL_MAX) && LFirst(l) <= pfd.Length
      requires ReportsOf(tick, QFirst(l), QueuedIds(q[..l.queued]))
      modifies this`qN, this`order, this`clientGone, this`log, q
      ensures Valid() && View() == HangupPass(old(View()), tick, Watched(old(View())))
    {
      hide Valid, View, HangUp, HangupPass;
      QueueIs();
      ghost var was := q[..l.queued];
      for i := l.queued downto 0
        invariant Valid() && i <= qN <= q.Length && q[..i] == was[..i] && i <= |View().q|
        invariant HangupPass(View(), tick, i) == HangupPass(old(View()), tick, l.queued)
      {
        assert q[i] == was[i] && QueuedIds(was)[i] == was[i].id;
        QueueIs();
        OneHangup(View(), tick, i);
        HangupOne(i, pfd[QFirst(l) + i].revents, tick);
        QueueIs();
      }
      NoHangup(View(), tick);
    }

    method RouteFd(id: nat, c: Class, now: real)
      requires Valid()
      modifies this`q, this`qN, this`order, this`queuedTotal, this`queuePeak, q
      modifies this`dispatched, this`log, this`lingerN, this`lingerForced, linger, refused, shared, w, Rings(w)
      ensures Valid() && View() == Route(old(View()), world, id, c, now) && (q == old(q) || fresh(q))
    {
      hide Valid, View, Admit, Refuse;
      match c {
        case Unknown => RefuseFd(id, LanguageNotServed, now, now);
        case Group(g) => AdmitFd(id, g, now);
        case _ => AdmitFd(id, 0, now);
      }
    }

    lemma PendingIs()
      requires Valid()
      ensures pendingN <= pending.Length == PENDING_MAX && View().pending == pending[..pendingN]
    {
    }

    /** A decided connection leaves the set: the last entry moves into its place. */
    method DropPending(at: nat, timedOut: bool)
      requires Valid() && at < pendingN
      modifies this`pendingN, this`classifyTimeouts, pending
      ensures Valid() && View() == Unpark(old(View()), at, timedOut)
      ensures pendingN == old(pendingN) - 1 && pending[..at] == old(pending[..at])
    {
      hide CountersOf, SoundFleet, Values;
      if timedOut {
        classifyTimeouts := classifyTimeouts + 1;
      }
      pending[at] := pending[pendingN - 1];
      pendingN := pendingN - 1;
    }

    method ClassifyOne(i: nat, fired: bool, tick: Tick)
      requires Valid() && i < pendingN <= pending.Length && fired == tick.fired(pending[i].id)
      modifies this`pendingN, this`classifyTimeouts, pending
      modifies this`q, this`qN, this`order, this`queuedTotal, this`queuePeak, q
      modifies this`dispatched, this`log, this`lingerN, this`lingerForced, linger, refused, shared, w, Rings(w)
      ensures Valid() && i <= pendingN <= pending.Length && pending[..i] == old(pending[..i]) && i < |old(View()).pending|
      ensures q == old(q) || fresh(q)
      ensures var s := old(View()); var p := s.pending[i]; var c := tick.decide(p.id);
        View() == if Decided(p, tick) then Route(Unpark(s, i, c.Wait?), world, p.id, c, tick.now) else s
    {
      hide Valid, View, Route, Unpark;
      PendingIs();
      var p := pending[i];
      var expired := tick.now >= p.deadline;
      if fired || expired {
        var c := tick.decide(p.id);
        if !c.Wait? || expired {
          DropPending(i, c.Wait?);
          RouteFd(p.id, c, tick.now);
        }
      }
    }

    method ClassifyLoop(l: Layout, tick: Tick)
      requires Valid() && PFirst(l) + pendingN <= pfd.Length
      requires ReportsOf(tick, PFirst(l), PendingIds(pending[..pendingN]))
      modifies this`pendingN, this`classifyTimeouts, pending
      modifies this`q, this`qN, this`order, this`queuedTotal, this`queuePeak, q
      modifies this`dispatched, this`log, this`lingerN, this`lingerForced, linger, refused, shared, w, Rings(w)
      ensures Valid() && View() == ClassifyPass(old(View()), world, tick, old(pendingN)) && (q == old(q) || fresh(q))
    {
      hide Valid, View, Route, Unpark, Decided, ClassifyPass;
      PendingIs();
      ghost var was := pending[..pendingN];
      for i := pendingN downto 0
        invariant Valid() && i <= pendingN <= pending.Length && pending[..i] == was[..i] && i <= |View().pending|
        invariant q == old(q) || fresh(q)
        invariant ClassifyPass(View(), world, tick, i) == ClassifyPass(old(View()), world, tick, old(pendingN))
      {
        assert pending[i] == was[i] && PendingIds(was)[i] == was[i].id;
        ghost var s := View();
        PendingIs();
        ClassifyOne(i, pfd[PFirst(l) + i].revents, tick);
        PendingIs();
        OnePass(s, world, tick, i);
      }
      NoPass(View(), world, tick);
    }

    // ------------------------------------------------------------------ the iteration

    /** A fresh connection parks until enough of its first bytes are here. */
    method ParkFd(id: nat, now: real)
      requires Valid() && pendingN < PENDING_MAX
      modifies this`pendingN, pending
      ensures Valid() && View() == Park(old(View()), id, now)
    {
      hide CountersOf, SoundFleet, Values;
      pending[pendingN] := Pending(id, now + CLASSIFY_S);
      pendingN := pendingN + 1;
    }

    method CountFresh() returns (id: nat)
      requires Valid()
      modifies this`accepted
      ensures Valid() && View() == Counted(old(View())) && id == old(View()).n.accepted
    {
      hide CountersOf, SoundFleet, Values;
      id := accepted;
      accepted := accepted + 1;
    }

    method AcceptFd(c: Class, now: real)
      requires Valid()
      modifies this`accepted, this`pendingN, pending
      modifies this`q, this`qN, this`order, this`queuedTotal, this`queuePeak, q
      modifies this`dispatched, this`log, this`lingerN, this`lingerForced, linger, refused, shared, w, Rings(w)
      ensures Valid() && View() == Accept(old(View()), world, c, now) && (q == old(q) || fresh(q))
    {
      hide Valid, View, Admit, Route, Park;
      SameConfig();
      var id := CountFresh();
      PendingIs();
      if cfg.groups <= 1 {
        AdmitFd(id, 0, now);
      } else if c.Wait? && pendingN < PENDING_MAX {
        ParkFd(id, now);
      } else {
        RouteFd(id, c, now);
      }
    }

    /** What `poll` has left in the array is about the entries the sets have. */
    ghost predicate Reported(l: Layout, tick: Tick)
      requires Lengths()
      reads this, w, slotOf, pfd, q, linger, pending
    {
      && Used(l) <= pfd.Length
      && l.queued == (if qN < QPOLL_MAX then qN else QPOLL_MAX) && l.lingering == lingerN && l.pending == pendingN
      && WatchesWorkers(l.workers) && (forall k :: 0 <= k < l.workers ==> pfd[k].revents == (tick.report(slotOf[k]) != Silent))
      && pfd[l.workers].revents == tick.arrival.Some?
      && ReportsOf(tick, QFirst(l), QueuedIds(q[..l.queued]))
      && ReportsOf(tick, LFirst(l), LingeringIds(linger[..lingerN]))
      && ReportsOf(tick, PFirst(l), PendingIds(pending[..pendingN]))
    }

    method LayOutAndPoll(tick: Tick) returns (l: Layout)
      requires Lengths()
      modifies pfd, slotOf
      ensures Reported(l, tick)
    {
      hide LiveBelow;
      l := LayOut();
      Poll(l, tick);
      SeenReports(l, tick);
    }

    lemma SeenReports(l: Layout, tick: Tick)
      requires Lengths() && Laid(l) && forall k :: 0 <= k < Used(l) ==> pfd[k].revents == Seen(tick, pfd[k].fd)
      ensures Reported(l, tick)
    {
      hide LiveBelow;
      forall k | 0 <= k < l.workers
        ensures pfd[k].revents == (tick.report(slotOf[k]) != Silent)
      {
        assert pfd[k].fd == Channel(slotOf[k]);
      }
    }

    method AskPoll(tick: Tick) returns (l: Layout)
      requires Valid()
      modifies pfd, slotOf
      ensures Valid() && View() == old(View()) && Lengths() && Reported(l, tick)
    {
      hide CountersOf, SoundFleet, Values, Reported;
      l := LayOutAndPoll(tick);
    }

    /** The passes that only take away: lingering closes first, for they free descriptors. */
    method Clear(tick: Tick, l: Layout)
      requires Valid() && Lengths() && Reported(l, tick)
      modifies this`lingerN, this`log, linger, w, Rings(w), refused, this`qN, this`order, this`clientGone, q
      ensures Valid() && View() == Cleared(old(View()), tick)
      ensures pendingN <= pending.Length && PFirst(l) + pendingN <= pfd.Length
      ensures ReportsOf(tick, PFirst(l), PendingIds(pending[..pendingN]))
    {
      hide Valid, View, LingerPass, CompletePass, WatchPass, HangupPass, LiveBelow, SoundFleet;
      hide QueuedIds, LingeringIds, PendingIds, ReportsOf, WatchesWorkers;
      LingerIs();
      LingerLoop(l, tick);
      CompletionLoop(l, tick);
      WatchLoop(tick.now);
      HangupLoop(l, tick);
    }

    method Passes(tick: Tick, l: Layout)
      requires Valid() && Lengths() && Reported(l, tick)
      modifies this`lingerN, this`log, linger, w, Rings(w), refused, this`qN, this`order, this`clientGone, q
      modifies this`pendingN, this`classifyTimeouts, pending, this`q, this`queuedTotal, this`queuePeak
      modifies this`dispatched, this`lingerForced, shared
      ensures Valid() && View() == Passed(old(View()), world, tick) && (q == old(q) || fresh(q))
    {
      hide Valid, View, Cleared, ClassifyPass, Reported, ReportsOf, Lengths;
      Clear(tick, l);
      PendingIs();
      ClassifyLoop(l, tick);
    }

    /** One iteration of the routing loop. */
    method RunIteration(tick: Tick)
      requires Valid()
      modifies this, q, pending, linger, pfd, slotOf, refused, shared, w, Rings(w)
      ensures Valid() && View() == Iterate(old(View()), world, tick) && (q == old(q) || fresh(q))
    {
      hide Valid, View, Passed, Drain, Accept, Reported, Lengths;
      SettleIs(View(), world, tick);
      var l := AskPoll(tick);
      var arrival := Arrived(l, tick);
      Passes(tick, l);
      DrainAll(tick.now);
      if arrival {
        AcceptFd(tick.arrival.value, tick.now);
      }
    }

    method Arrived(l: Layout, tick: Tick) returns (yes: bool)
      requires Lengths() && Reported(l, tick)
      ensures yes == tick.arrival.Some?
    {
      hide LiveBelow, ReportsOf;
      yes := pfd[l.workers].revents;
    }

    /** The loop: as many iterations as `poll` returned before it was told to stop. */
    method Run(ticks: seq<Tick>)
      requires Valid()
      modifies this, q, pending, linger, pfd, slotOf, refused, shared, w, Rings(w)
      ensures Valid() && View() == After(old(View()), world, ticks) && (q == old(q) || fresh(q))
    {
      hide Valid, View, Iterate;
      for i := 0 to |ticks|
        invariant Valid() && View() == After(old(View()), world, ticks[..i]) && (q == old(q) || fresh(q))
      {
        assert ticks[..i + 1][..i] == ticks[..i];
        RunIteration(ticks[i]);
      }
      assert ticks[..|ticks|] == ticks;
    }

    // -------------------------------------------------------------------- shutdown

    method RefuseAndClose(id: nat, now: real)
      requires Valid()
      modifies this`log, refused, shared
      ensures Valid() && View() == RefuseNow(old(View()), id, now)
    {
      hide Bump, Valid, View;
      CountRefusal(AtCapacity);
      Note(id, AtCapacity, now, now);
      NoteClosed(id);
    }

    ghost method NoteClosed(id: nat)
      requires Valid()
      modifies this`log
      ensures Valid()
      ensures var s := old(View()); View() == s.(log := s.log.(closed := s.log.closed + multiset{id}))
    {
      hide CountersOf, SoundFleet, Values;
      log := log.(closed := log.closed + multiset{id});
    }

    method RefuseQueue(now: real)
      requires Valid()
      modifies this`log, this`qN, this`order, refused, shared
      ensures Valid() && View() == CloseQueue(old(View()), now)
    {
      hide Valid, View, RefuseNow;
      ghost var s := View();
      QueueIs();
      for i := 0 to qN
        invariant Valid() && qN == |s.q| <= q.Length && View().q == s.q && forall k :: 0 <= k < qN ==> q[k].id == s.q[k].id
        invariant CloseQueue(View().(q := s.q[i..]), now) == CloseQueue(s, now)
      {
        StillQueued(View(), s.q, i, now);
        RefuseAndClose(q[i].id, now);
        QueueIs();
      }
      assert s.q[|s.q|..] == [];
      ForgetQueue();
    }

    method ForgetQueue()
      requires Valid()
      modifies this`qN, this`order
      ensures Valid() && View() == old(View()).(q := [])
    {
      hide CountersOf, SoundFleet, Values;
      qN, order := 0, [];
    }

    method RefusePending(now: real)
      requires Valid()
      modifies this`log, this`pendingN, refused, shared
      ensures Valid() && View() == ClosePending(old(View()), now)
    {
      hide Valid, View, RefuseNow;
      ghost var s := View();
      PendingIs();
      for i := 0 to pendingN
        invariant Valid() && pendingN <= pending.Length && View().pending == pending[..pendingN] && pending[..pendingN] == s.pending
        invariant ClosePending(View().(pending := s.pending[i..]), now) == ClosePending(s, now)
      {
        StillPending(View(), s.pending, i, now);
        assert pending[i] == s.pending[i];
        RefuseAndClose(pending[i].id, now);
        PendingIs();
      }
      assert s.pending[|s.pending|..] == [];
      ForgetPending();
    }

    method ForgetPending()
      requires Valid()
      modifies this`pendingN
      ensures Valid() && View() == old(View()).(pending := [])
    {
      hide CountersOf, SoundFleet, Values;
      pendingN := 0;
    }

    method FinishLingering()
      requires Valid()
      modifies this`log, this`lingerN
      ensures Valid() && View() == CloseLinger(old(View()))
    {
      hide Valid, View;
      ghost var s := View();
      LingerIs();
      for i := 0 to lingerN
        invariant Valid() && lingerN <= linger.Length && View().linger == linger[..lingerN] && linger[..lingerN] == s.linger
        invariant CloseLinger(View().(linger := s.linger[i..])) == CloseLinger(s)
      {
        StillLingering(View(), s.linger, i);
        assert linger[i] == s.linger[i];
        NoteClosed(linger[i].id);
        LingerIs();
      }
      assert s.linger[|s.linger|..] == [];
      ForgetLinger();
    }

    method ForgetLinger()
      requires Valid()
      modifies this`lingerN
      ensures Valid() && View() == old(View()).(linger := [])
    {
      hide CountersOf, SoundFleet, Values;
      lingerN := 0;
    }

    method ShutDown(now: real)
      requires Valid()
      modifies this`log, this`qN, this`order, this`pendingN, this`lingerN, refused, shared
      ensures Valid() && View() == Shutdown(old(View()), now)
    {
      hide Valid, View, CloseQueue, ClosePending, CloseLinger;
      RefuseQueue(now);
      RefusePending(now);
      FinishLingering();
    }
  }

  /** An iteration up to the drain. */
  function Passed(s: State, world: World, tick: Tick): State {
    var t := Cleared(s, tick);
    ClassifyPass(t, world, tick, |t.pending|)
  }

  function Cleared(s: State, tick: Tick): State {
    var s1 := LingerPass(s, tick, |s.linger|);
    var s3 := WatchPass(s1.(w := CompletePass(s1.w, tick)), tick.now);
    HangupPass(s3, tick, Watched(s3))
  }

  lemma SettleIs(s: State, world: World, tick: Tick)
    ensures Settle(s, world, tick) == Drain(Passed(s, world, tick), world, tick.now)
  {
  }

  lemma StillQueued(s: State, queue: seq<Queued>, i: nat, now: real)
    requires i < |queue|
    ensures CloseQueue(s.(q := queue[i..]), now) == CloseQueue(RefuseNow(s, queue[i].id, now).(q := queue[i + 1..]), now)
    ensures RefuseNow(s, queue[i].id, now).q == s.q
  {
    assert queue[i..][1..] == queue[i + 1..];
  }

  lemma StillPending(s: State, pending: seq<Pending>, i: nat, now: real)
    requires i < |pending|
    ensures ClosePending(s.(pending := pending[i..]), now) ==
      ClosePending(RefuseNow(s, pending[i].id, now).(pending := pending[i + 1..]), now)
  {
    assert pending[i..][1..] == pending[i + 1..];
  }

  lemma StillLingering(s: State, linger: seq<Lingering>, i: nat)
    requires i < |linger|
    ensures CloseLinger(s.(linger := linger[i..])) ==
      CloseLinger(s.(linger := linger[i + 1..], log := s.log.(closed := s.log.closed + multiset{linger[i].id})))
  {
    assert linger[i..][1..] == linger[i + 1..];
  }

  // ------------------------------------------------------------ what the loops have done

  /** The workers of `who` have been heard, the others not yet. */
  ghost predicate HeardFrom(was: seq<Worker>, now: seq<Worker>, who: seq<nat>, tick: Tick) {
    |now| == |was| &&
    forall i :: 0 <= i < |was| ==> now[i] == if i in who then Complete(was[i], tick.report(i)) else was[i]
  }

  lemma LiveMeans(who: seq<nat>, w: seq<WorkerState>)
    requires SoundFleet(w) && LiveBelow(who, w, |w|)
    ensures forall k :: 0 <= k < |who| ==> who[k] < |w| && Values(w)[who[k]].alive && who[k] !in who[..k]
    ensures forall i :: 0 <= i < |w| && Values(w)[i].alive ==> i in who
  {
  }

  lemma SilentIsNothing(w: Worker)
    ensures Complete(w, Silent) == w && (!w.alive ==> forall r :: Complete(w, r) == w)
  {
  }

  lemma AllHeard(was: seq<Worker>, now: seq<Worker>, who: seq<nat>, tick: Tick)
    requires HeardFrom(was, now, who, tick)
    requires forall i :: 0 <= i < |was| && was[i].alive ==> i in who
    ensures now == CompletePass(was, tick)
  {
    hide Complete;
    forall i | 0 <= i < |was|
      ensures now[i] == Complete(was[i], tick.report(i))
    {
      SilentIsNothing(was[i]);
    }
  }

  ghost predicate Looked(was: seq<Worker>, now: seq<Worker>, n: nat, capMs: int, at: real) {
    |now| == |was| &&
    forall i :: 0 <= i < |was| ==> now[i] == if i < n then Watch(was[i], capMs, at) else was[i]
  }

  function LookedAt(was: seq<Worker>, capMs: int, at: real): seq<Worker> {
    seq(|was|, i requires 0 <= i < |was| => Watch(was[i], capMs, at))
  }

  lemma NoneLooked(was: seq<Worker>, capMs: int, at: real)
    ensures Looked(was, was, 0, capMs, at) && Breachers(was[..0], capMs, at) == 0
  {
  }

  lemma OneLooked(was: seq<Worker>, now: seq<Worker>, i: nat, capMs: int, at: real)
    requires i < |was| && Looked(was, now, i, capMs, at)
    ensures |now| == |was| && now[i] == was[i] && Looked(was, now[i := Watch(now[i], capMs, at)], i + 1, capMs, at)
    ensures Breachers(was[..i + 1], capMs, at) == Breachers(was[..i], capMs, at) + (if Breaches(was[i], capMs, at) then 1 else 0)
  {
    hide Watch, Breaches;
    assert was[..i + 1][..i] == was[..i];
  }

  lemma AllLooked(was: seq<Worker>, now: seq<Worker>, capMs: int, at: real)
    requires Looked(was, now, |was|, capMs, at)
    ensures now == LookedAt(was, capMs, at)
  {
    hide Watch;
  }

  lemma NoneHeard(was: seq<Worker>, tick: Tick)
    ensures HeardFrom(was, was, [], tick)
  {
  }

  lemma OneHeard(was: seq<Worker>, now: seq<Worker>, who: seq<nat>, k: nat, tick: Tick)
    requires k < |who| && who[k] < |was| && who[k] !in who[..k] && HeardFrom(was, now, who[..k], tick)
    ensures |now| == |was| && now[who[k]] == was[who[k]]
    ensures HeardFrom(was, now[who[k] := Complete(now[who[k]], tick.report(who[k]))], who[..k + 1], tick)
  {
    hide Complete;
    assert who[..k + 1] == who[..k] + [who[k]];
  }

  lemma OneHangup(s: State, tick: Tick, i: nat)
    requires i < |s.q|
    ensures var t := if tick.fired(s.q[i].id) then HangUp(s, i) else s;
      i <= |t.q| && HangupPass(s, tick, i + 1) == HangupPass(t, tick, i)
  {
    hide Erase;
  }

  lemma NoHangup(s: State, tick: Tick)
    ensures HangupPass(s, tick, 0) == s
  {
  }

  lemma NoPass(s: State, world: World, tick: Tick)
    ensures ClassifyPass(s, world, tick, 0) == s
  {
  }

  /** One turn of the classification pass. */
  lemma OnePass(s: State, world: World, tick: Tick, i: nat)
    requires i < |s.pending|
    ensures var p := s.pending[i]; var c := tick.decide(p.id);
      var t := if Decided(p, tick) then Route(Unpark(s, i, c.Wait?), world, p.id, c, tick.now) else s;
      i <= |t.pending| && ClassifyPass(s, world, tick, i + 1) == ClassifyPass(t, world, tick, i)
  {
    hide Route, Decided;
    var p := s.pending[i];
    var c := tick.decide(p.id);
    RoutePending(Unpark(s, i, c.Wait?), world, p.id, c, tick.now);
  }

  function LingeringIds(s: seq<Lingering>): (r: seq<nat>)
    ensures |r| == |s|
  {
    seq(|s|, i requires 0 <= i < |s| => s[i].id)
  }

  function PendingIds(s: seq<Pending>): (r: seq<nat>)
    ensures |r| == |s|
  {
    seq(|s|, i requires 0 <= i < |s| => s[i].id)
  }

  function QueuedIds(s: seq<Waiting>): (r: seq<nat>)
    ensures |r| == |s|
  {
    seq(|s|, i requires 0 <= i < |s| => s[i].id)
  }

  lemma NobodyIsLive(ws: seq<Worker>, lang: nat)
    ensures ws == [] ==> GroupLive(ws, lang) == 0
  {
  }

  lemma TicketsTakeNoRoom(s: State, lang: nat)
    ensures HasRoom(Ticketed(s), lang) == HasRoom(s, lang)
  {
  }

  method MoveDown(q: array<Waiting>, at: nat, n: nat)
    requires at < n <= q.Length
    modifies q
    ensures q[..n - 1] == Erase(old(q[..n]), at)
  {
    for k := at to n - 1
      invariant forall j :: 0 <= j < at ==> q[j] == old(q[j])
      invariant forall j :: at <= j < k ==> q[j] == old(q[j + 1])
      invariant forall j :: k <= j < n ==> q[j] == old(q[j])
    {
      q[k] := q[k + 1];
    }
  }
}
