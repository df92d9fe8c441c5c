/** The admission router: the one thread that accepts connections and hands each to a worker,
    queues it, parks it until its language is known, or refuses it. This module is the state and
    what each routine does to it; RouterTheorems says what that keeps. */
module Router {
  import opened Options

  const PENDING_MAX := 64
  const LINGER_MAX := 256
  const QPOLL_MAX := 64
  const LINGER_S := 0.5
  const CLASSIFY_S := 2.0

  datatype Reason = AtCapacity | QueuedTooLong | ServiceCap | HandoffFailed | LanguageNotServed

  datatype Tally = Tally(
    atCapacity: nat, queuedTooLong: nat, serviceCap: nat, handoffFailed: nat, languageNotServed: nat)

  function Bump(t: Tally, r: Reason): Tally {
    match r
    case AtCapacity => t.(atCapacity := t.atCapacity + 1)
    case QueuedTooLong => t.(queuedTooLong := t.queuedTooLong + 1)
    case ServiceCap => t.(serviceCap := t.serviceCap + 1)
    case HandoffFailed => t.(handoffFailed := t.handoffFailed + 1)
    case LanguageNotServed => t.(languageNotServed := t.languageNotServed + 1)
  }

  /** Connections refused: every reason but the service cap, whose counter the watchdog raises
      for a connection that a worker already has. */
  function Refusals(t: Tally): nat {
    t.atCapacity + t.queuedTooLong + t.handoffFailed + t.languageNotServed
  }

  /** `qPer` is -1 for an unbounded queue, 0 for none; a `deadlineMs` or `serviceCapMs` of 0 or
      less is off. */
  datatype Config = Config(slots: nat, qPer: int, deadlineMs: int, groups: nat, serviceCapMs: int)

  /** `disp` is the watchdog's ring of dispatch times, head first, of capacity `ring` (0 when it
      could not be allocated). */
  datatype Worker = Worker(
    alive: bool, lang: nat, active: int, dealt: nat, completed: nat,
    ring: nat, disp: seq<real>, overCap: nat)

  /** `ticket` numbers the calls of `router_admit`; the code has no such field, it is what FIFO
      order is stated with. */
  datatype Queued = Queued(id: nat, enqueued: real, lang: nat, ticket: nat)

  datatype Pending = Pending(id: nat, deadline: real)

  datatype Lingering = Lingering(id: nat, deadline: real)

  datatype Counters = Counters(
    accepted: nat, dispatched: nat, queuedTotal: nat, queuePeak: nat, clientGone: nat,
    lingerForced: nat, classifyTimeouts: nat, refused: Tally, shared: Tally)

  /** What has left the router, oldest first. */
  datatype Handoff = Handoff(id: nat, worker: nat, lang: nat, ticket: nat, at: real)
  datatype Refusal = Refusal(id: nat, reason: Reason, since: real, at: real)
  datatype History = History(tickets: nat, handoffs: seq<Handoff>, refusals: seq<Refusal>, closed: multiset<nat>)

  datatype State = State(
    cfg: Config, w: seq<Worker>, q: seq<Queued>, qAlloc: nat, pending: seq<Pending>,
    linger: seq<Lingering>, n: Counters, log: History)

  /** The outcomes the router does not choose. A connection is handed off at most once, refused
      at most once and made room for at most once, so each outcome is a function of the
      connection. */
  datatype World = World(handoff: nat -> bool, closesAtOnce: nat -> bool, grows: nat -> bool)

  // ------------------------------------------------------------ single routines

  function Refuse(s: State, world: World, id: nat, reason: Reason, since: real, now: real): State {
    var parked := !world.closesAtOnce(id) && |s.linger| < LINGER_MAX;
    s.(n := s.n.(refused := Bump(s.n.refused, reason), shared := Bump(s.n.shared, reason),
                 lingerForced := if parked || world.closesAtOnce(id) then s.n.lingerForced else s.n.lingerForced + 1),
       linger := if parked then s.linger + [Lingering(id, now + LINGER_S)] else s.linger,
       log := s.log.(refusals := s.log.refusals + [Refusal(id, reason, since, now)],
                     closed := if parked then s.log.closed else s.log.closed + multiset{id}))
  }

  predicate Serves(w: Worker, lang: nat) {
    w.alive && w.lang == lang
  }

  predicate HasFreeSlot(w: Worker, lang: nat, slots: nat) {
    Serves(w, lang) && w.active < slots
  }

  function GroupLive(w: seq<Worker>, lang: nat): nat {
    if w == [] then 0 else GroupLive(w[..|w| - 1], lang) + (if Serves(w[|w| - 1], lang) then 1 else 0)
  }

  function GroupQueued(q: seq<Queued>, lang: nat): nat {
    if q == [] then 0 else GroupQueued(q[..|q| - 1], lang) + (if q[|q| - 1].lang == lang then 1 else 0)
  }

  /** The least loaded worker of the group with a free slot, the first of them when several are
      equally loaded. */
  function GroupPick(w: seq<Worker>, lang: nat, slots: nat): (best: Option<nat>)
    ensures best.None? ==> forall i :: 0 <= i < |w| ==> !HasFreeSlot(w[i], lang, slots)
    ensures best.Some? ==>
      && best.value < |w| && HasFreeSlot(w[best.value], lang, slots)
      && (forall i :: 0 <= i < |w| && HasFreeSlot(w[i], lang, slots) ==> w[best.value].active <= w[i].active)
      && (forall i :: 0 <= i < best.value && HasFreeSlot(w[i], lang, slots) ==> w[best.value].active < w[i].active)
  {
    if w == [] then None
    else
      var last := |w| - 1;
      var best := GroupPick(w[..last], lang, slots);
      if HasFreeSlot(w[last], lang, slots) && (best.None? || w[last].active < w[best.value].active)
      then Some(last)
      else best
  }

  /** Where the group's oldest queued entry is. */
  function GroupHead(q: seq<Queued>, lang: nat): (head: Option<nat>)
    ensures head.None? ==> forall i :: 0 <= i < |q| ==> q[i].lang != lang
    ensures head.Some? ==>
      && head.value < |q| && q[head.value].lang == lang
      && forall i :: 0 <= i < head.value ==> q[i].lang != lang
  {
    if q == [] then None
    else
      var last := |q| - 1;
      var head := GroupHead(q[..last], lang);
      if head.None? && q[last].lang == lang then Some(last) else head
  }

  function Erase<T>(s: seq<T>, at: nat): (r: seq<T>)
    requires at < |s|
    ensures |r| == |s| - 1
  {
    s[..at] + s[at + 1..]
  }

  /** The tail moves into the hole. */
  function SwapErase<T>(s: seq<T>, at: nat): (r: seq<T>)
    requires at < |s|
    ensures |r| == |s| - 1
  {
    s[at := s[|s| - 1]][..|s| - 1]
  }

  /** `disp_push`: a full or missing ring drops the stamp. */
  function PushStamp(disp: seq<real>, ring: nat, t: real): seq<real> {
    if |disp| >= ring then disp else disp + [t]
  }

  /** `disp_pop`: the oldest stamps go first. */
  function PopStamps(disp: seq<real>, n: nat): seq<real> {
    if n >= |disp| then [] else disp[n..]
  }

  function Assign(w: Worker, now: real): Worker {
    w.(active := w.active + 1, dealt := w.dealt + 1, disp := PushStamp(w.disp, w.ring, now))
  }

  function Dispatch(s: State, world: World, worker: nat, e: Queued, now: real): State
    requires worker < |s.w|
  {
    if !world.handoff(e.id) then Refuse(s, world, e.id, HandoffFailed, e.enqueued, now)
    else
      s.(w := s.w[worker := Assign(s.w[worker], now)],
         n := s.n.(dispatched := s.n.dispatched + 1),
         log := s.log.(handoffs := s.log.handoffs + [Handoff(e.id, worker, e.lang, e.ticket, now)]))
  }

  function QueueBound(s: State, lang: nat): int {
    if s.cfg.qPer < 0 then -1 else s.cfg.qPer * GroupLive(s.w, lang)
  }

  predicate HasRoom(s: State, lang: nat) {
    var bound := QueueBound(s, lang);
    bound != 0 && (bound < 0 || GroupQueued(s.q, lang) < bound)
  }

  function Enqueue(s: State, e: Queued): State {
    s.(q := s.q + [e],
       qAlloc := if |s.q| >= s.qAlloc then s.qAlloc * 2 else s.qAlloc,
       n := s.n.(queuedTotal := s.n.queuedTotal + 1,
                 queuePeak := if |s.q| + 1 > s.n.queuePeak then |s.q| + 1 else s.n.queuePeak))
  }

  function Ticketed(s: State): State {
    s.(log := s.log.(tickets := s.log.tickets + 1))
  }

  /** Rungs 1 and 2 for a connection whose group is known. */
  function Admit(s: State, world: World, id: nat, lang: nat, now: real): State {
    var e := Queued(id, now, lang, s.log.tickets);
    var t := Ticketed(s);
    var best := GroupPick(s.w, lang, s.cfg.slots);
    if GroupQueued(s.q, lang) == 0 && best.Some? then Dispatch(t, world, best.value, e, now)
    else if HasRoom(s, lang) && (|s.q| < s.qAlloc || world.grows(id)) then Enqueue(t, e)
    else Refuse(t, world, id, AtCapacity, now, now)
  }

  // --------------------------------------------------------------------- drain

  predicate Expired(since: real, deadlineMs: int, now: real) {
    deadlineMs > 0 && (now - since) * 1000.0 >= deadlineMs as real
  }

  function PopAt(s: State, at: nat): State
    requires at < |s.q|
  {
    s.(q := Erase(s.q, at))
  }

  /** One pass of the inner loop of `router_drain`: None when the group is done. */
  function DrainOne(s: State, world: World, lang: nat, now: real): (r: Option<State>)
    ensures r.Some? ==> |r.value.q| == |s.q| - 1
  {
    var head := GroupHead(s.q, lang);
    if head.None? then None
    else
      var e := s.q[head.value];
      if Expired(e.enqueued, s.cfg.deadlineMs, now) then
        Some(Refuse(PopAt(s, head.value), world, e.id, QueuedTooLong, e.enqueued, now))
      else
        var best := GroupPick(s.w, lang, s.cfg.slots);
        if best.None? then None else Some(Dispatch(PopAt(s, head.value), world, best.value, e, now))
  }

  function DrainGroup(s: State, world: World, lang: nat, now: real): State
    decreases |s.q|
  {
    var r := DrainOne(s, world, lang, now);
    if r.None? then s else DrainGroup(r.value, world, lang, now)
  }

  /** The groups below `groups`, in order. */
  function DrainUpTo(s: State, world: World, groups: nat, now: real): State {
    if groups == 0 then s else DrainGroup(DrainUpTo(s, world, groups - 1, now), world, groups - 1, now)
  }

  function Drain(s: State, world: World, now: real): State {
    DrainUpTo(s, world, s.cfg.groups, now)
  }

  // ------------------------------------------------------- the passes of a tick

  datatype Class = Wait | Default | Unknown | Group(g: nat)

  datatype Report = Silent | Done(count: nat) | ChannelClosed

  /** What one return of `poll` brought: the clock, and for each connection or worker what there
      was to see. `fired` is what `poll` reported of a connection, whichever of the sets it is in;
      `lingerCloses` is whether a lingering close looked at now finishes. */
  datatype Tick = Tick(
    now: real, fired: nat -> bool, lingerCloses: nat -> bool, report: nat -> Report,
    decide: nat -> Class, arrival: Option<Class>)

  /** An expired lingering close always finishes (see LingeringClose). */
  predicate Finishes(l: Lingering, tick: Tick) {
    (tick.fired(l.id) && tick.lingerCloses(l.id)) || tick.now >= l.deadline
  }

  function EndLinger(s: State, at: nat): State
    requires at < |s.linger|
  {
    s.(linger := SwapErase(s.linger, at), log := s.log.(closed := s.log.closed + multiset{s.linger[at].id}))
  }

  /** Backwards over the first `i` lingering closes. */
  function LingerPass(s: State, tick: Tick, i: nat): State
    requires i <= |s.linger|
    decreases i
  {
    if i == 0 then s
    else if Finishes(s.linger[i - 1], tick) then
      LingerPass(EndLinger(s, i - 1), tick, i - 1)
    else LingerPass(s, tick, i - 1)
  }

  function Complete(w: Worker, r: Report): Worker {
    if !w.alive then w
    else
      match r
      case Silent => w
      case Done(n) =>
        if w.active - n < 0 then
          w.(completed := w.completed + n, active := 0, disp := [])
        else
          w.(completed := w.completed + n, active := w.active - n, disp := PopStamps(w.disp, n))
      case ChannelClosed => w.(alive := false, active := 0, disp := [])
  }

  function CompletePass(w: seq<Worker>, tick: Tick): seq<Worker> {
    seq(|w|, i requires 0 <= i < |w| => Complete(w[i], tick.report(i)))
  }

  predicate Breaches(w: Worker, capMs: int, now: real) {
    capMs > 0 && w.alive && |w.disp| > 0 && (now - w.disp[0]) * 1000.0 >= capMs as real
  }

  function Watch(w: Worker, capMs: int, now: real): Worker {
    if Breaches(w, capMs, now) then w.(overCap := w.overCap + 1, disp := w.disp[0 := now]) else w
  }

  function Breachers(w: seq<Worker>, capMs: int, now: real): nat {
    if w == [] then 0
    else Breachers(w[..|w| - 1], capMs, now) + (if Breaches(w[|w| - 1], capMs, now) then 1 else 0)
  }

  /** The watchdog counts a breach under `refused`, and only there: no connection is refused. */
  function WatchPass(s: State, now: real): State {
    s.(w := seq(|s.w|, i requires 0 <= i < |s.w| => Watch(s.w[i], s.cfg.serviceCapMs, now)),
       n := s.n.(refused := s.n.refused.(
         serviceCap := s.n.refused.serviceCap + Breachers(s.w, s.cfg.serviceCapMs, now))))
  }

  function HangUp(s: State, at: nat): State
    requires at < |s.q|
  {
    s.(q := Erase(s.q, at), n := s.n.(clientGone := s.n.clientGone + 1),
       log := s.log.(closed := s.log.closed + multiset{s.q[at].id}))
  }

  /** Backwards over the first `i` queued clients. */
  function HangupPass(s: State, tick: Tick, i: nat): State
    requires i <= |s.q|
    decreases i
  {
    if i == 0 then s
    else if tick.fired(s.q[i - 1].id) then HangupPass(HangUp(s, i - 1), tick, i - 1)
    else HangupPass(s, tick, i - 1)
  }

  function Watched(s: State): nat {
    if |s.q| < QPOLL_MAX then |s.q| else QPOLL_MAX
  }

  predicate Decided(p: Pending, tick: Tick) {
    (tick.fired(p.id) || tick.now >= p.deadline) && !(tick.decide(p.id).Wait? && tick.now < p.deadline)
  }

  /** A decided connection leaves the classification set: refused when its language is nobody's,
      otherwise admitted, the undecided ones whose time is up to the default group. */
  function Route(s: State, world: World, id: nat, c: Class, now: real): State {
    match c
    case Unknown => Refuse(s, world, id, LanguageNotServed, now, now)
    case Group(g) => Admit(s, world, id, g, now)
    case _ => Admit(s, world, id, 0, now)
  }

  function Unpark(s: State, at: nat, timedOut: bool): State
    requires at < |s.pending|
  {
    s.(pending := SwapErase(s.pending, at),
       n := if timedOut then s.n.(classifyTimeouts := s.n.classifyTimeouts + 1) else s.n)
  }

  /** Backwards over the first `i` unclassified connections. */
  function ClassifyPass(s: State, world: World, tick: Tick, i: nat): State
    requires i <= |s.pending|
    decreases i
  {
    if i == 0 then s
    else
      var p := s.pending[i - 1];
      if Decided(p, tick) then
        var c := tick.decide(p.id);
        var t := Route(Unpark(s, i - 1, c.Wait?), world, p.id, c, tick.now);
        RoutePending(Unpark(s, i - 1, c.Wait?), world, p.id, c, tick.now);
        ClassifyPass(t, world, tick, i - 1)
      else ClassifyPass(s, world, tick, i - 1)
  }

  lemma RoutePending(s: State, world: World, id: nat, c: Class, now: real)
    ensures Route(s, world, id, c, now).pending == s.pending
  {
  }

  function Park(s: State, id: nat, now: real): State {
    s.(pending := s.pending + [Pending(id, now + CLASSIFY_S)])
  }

  /** With one group nothing is classified; a full classification set sends the undecided to the
      default group. */
  function PlaceFresh(s: State, world: World, id: nat, c: Class, now: real): State {
    if s.cfg.groups <= 1 then Admit(s, world, id, 0, now)
    else if c.Wait? && |s.pending| < PENDING_MAX then Park(s, id, now)
    else Route(s, world, id, c, now)
  }

  function Counted(s: State): State {
    s.(n := s.n.(accepted := s.n.accepted + 1))
  }

  /** A fresh connection is numbered `accepted`. */
  function Accept(s: State, world: World, c: Class, now: real): State {
    PlaceFresh(Counted(s), world, s.n.accepted, c, now)
  }

  /** One iteration of the routing loop. */
  function Settle(s: State, world: World, tick: Tick): State {
    var afterLinger := LingerPass(s, tick, |s.linger|);
    var afterReports := afterLinger.(w := CompletePass(afterLinger.w, tick));
    var afterWatch := WatchPass(afterReports, tick.now);
    var afterHangups := HangupPass(afterWatch, tick, Watched(afterWatch));
    var afterClasses := ClassifyPass(afterHangups, world, tick, |afterHangups.pending|);
    Drain(afterClasses, world, tick.now)
  }

  function Iterate(s: State, world: World, tick: Tick): State {
    var settled := Settle(s, world, tick);
    if tick.arrival.None? then settled else Accept(settled, world, tick.arrival.value, tick.now)
  }

  /** The state at the top of the iteration after the given ones. */
  function After(s: State, world: World, ticks: seq<Tick>): State {
    if ticks == [] then s else Iterate(After(s, world, ticks[..|ticks| - 1]), world, ticks[|ticks| - 1])
  }

  /** Connections still queued or parked at shutdown are refused and closed on the spot. */
  function RefuseNow(s: State, id: nat, now: real): State {
    s.(n := s.n.(refused := Bump(s.n.refused, AtCapacity), shared := Bump(s.n.shared, AtCapacity)),
       log := s.log.(refusals := s.log.refusals + [Refusal(id, AtCapacity, now, now)],
                     closed := s.log.closed + multiset{id}))
  }

  function RefuseFirstQueued(s: State, now: real): State
    requires s.q != []
  {
    RefuseNow(s, s.q[0].id, now).(q := s.q[1..])
  }

  function RefuseFirstPending(s: State, now: real): State
    requires s.pending != []
  {
    RefuseNow(s, s.pending[0].id, now).(pending := s.pending[1..])
  }

  function CloseFirstLingering(s: State): State
    requires s.linger != []
  {
    s.(linger := s.linger[1..], log := s.log.(closed := s.log.closed + multiset{s.linger[0].id}))
  }

  function CloseQueue(s: State, now: real): State
    decreases |s.q|
  {
    if s.q == [] then s else CloseQueue(RefuseFirstQueued(s, now), now)
  }

  function ClosePending(s: State, now: real): State
    decreases |s.pending|
  {
    if s.pending == [] then s else ClosePending(RefuseFirstPending(s, now), now)
  }

  function CloseLinger(s: State): State
    decreases |s.linger|
  {
    if s.linger == [] then s else CloseLinger(CloseFirstLingering(s))
  }

  function Shutdown(s: State, now: real): State {
    CloseLinger(ClosePending(CloseQueue(s, now), now))
  }

  /** A fleet just started: some workers may have failed to. */
  predicate FreshWorker(w: Worker, cfg: Config) {
    && w.lang < cfg.groups && w.active == 0 && w.dealt == 0 && w.completed == 0
    && w.disp == [] && w.overCap == 0 && (w.ring == 0 || w.ring == cfg.slots + 1)
  }

  const NO_REFUSALS := Tally(0, 0, 0, 0, 0)

  function Start(cfg: Config, w: seq<Worker>): State {
    State(cfg, w, [], if cfg.qPer < 0 then 16 else if cfg.qPer > 0 then cfg.qPer * |w| else 1, [], [],
          Counters(0, 0, 0, 0, 0, 0, 0, NO_REFUSALS, NO_REFUSALS), History(0, [], [], multiset{}))
  }
}
