/** What becomes of a connection, said on the workers and the queue as they stand: when it goes
    straight to a worker, when it is queued, and when it is turned away. */
module RouterAdmission {
  import opened Options
  import opened Router
  import opened RouterInvariants

  /** Where the queued entries of a group are, its live workers, and those of them with a free slot. */
  ghost function QueuedOf(q: seq<Queued>, lang: nat): set<nat> {
    set k: nat | k < |q| && q[k].lang == lang
  }

  ghost function LiveOf(w: seq<Worker>, lang: nat): set<nat> {
    set i: nat | i < |w| && w[i].alive && w[i].lang == lang
  }

  ghost function FreeOf(w: seq<Worker>, lang: nat, slots: nat): set<nat> {
    set i: nat | i < |w| && w[i].alive && w[i].lang == lang && w[i].active < slots
  }

  lemma {:induction false} QueuedCounted(q: seq<Queued>, lang: nat)
    ensures GroupQueued(q, lang) == |QueuedOf(q, lang)|
  {
    if q == [] {
      assert QueuedOf(q, lang) == {};
    } else {
      var last: nat := |q| - 1;
      QueuedCounted(q[..last], lang);
      assert QueuedOf(q, lang) == QueuedOf(q[..last], lang) + (if q[last].lang == lang then {last} else {});
    }
  }

  lemma {:induction false} LiveCounted(w: seq<Worker>, lang: nat)
    ensures GroupLive(w, lang) == |LiveOf(w, lang)|
  {
    if w == [] {
      assert LiveOf(w, lang) == {};
    } else {
      var last: nat := |w| - 1;
      LiveCounted(w[..last], lang);
      assert LiveOf(w, lang) == LiveOf(w[..last], lang) + (if w[last].alive && w[last].lang == lang then {last} else {});
    }
  }

  /** A free worker of the group, none less loaded, and the first of those. */
  ghost predicate LeastLoaded(w: seq<Worker>, lang: nat, slots: nat, i: nat) {
    && i in FreeOf(w, lang, slots)
    && (forall j :: j in FreeOf(w, lang, slots) ==> w[i].active <= w[j].active && (j < i ==> w[i].active < w[j].active))
  }

  /** Nobody of the group waits, and some worker of it is free. */
  ghost predicate Straight(s: State, lang: nat) {
    QueuedOf(s.q, lang) == {} && FreeOf(s.w, lang, s.cfg.slots) != {}
  }

  /** The queue is not bounded, or the group has fewer in it than its live workers allow; and there
      is memory for one more. */
  ghost predicate RoomBehind(s: State, lang: nat, grows: bool) {
    && (s.cfg.qPer < 0 || |QueuedOf(s.q, lang)| < s.cfg.qPer * |LiveOf(s.w, lang)|)
    && (|s.q| < s.qAlloc || grows)
  }

  lemma RoomIs(s: State, lang: nat, grows: bool)
    ensures RoomBehind(s, lang, grows) <==> HasRoom(s, lang) && (|s.q| < s.qAlloc || grows)
  {
    hide QueuedOf, LiveOf, GroupQueued, GroupLive;
    QueuedCounted(s.q, lang);
    LiveCounted(s.w, lang);
  }

  lemma StraightIs(s: State, lang: nat)
    ensures Straight(s, lang) <==> GroupQueued(s.q, lang) == 0 && GroupPick(s.w, lang, s.cfg.slots).Some?
  {
    hide GroupQueued, GroupPick;
    NoneQueued(s.q, lang);
    NobodyOf(s.q, lang);
    PickIs(s.w, lang, s.cfg.slots);
  }

  lemma NobodyOf(q: seq<Queued>, lang: nat)
    ensures QueuedOf(q, lang) == {} <==> forall k :: 0 <= k < |q| ==> q[k].lang != lang
  {
    if QueuedOf(q, lang) == {} {
      forall k | 0 <= k < |q|
        ensures q[k].lang != lang
      {
        assert k !in QueuedOf(q, lang);
      }
    }
  }

  lemma PickIs(w: seq<Worker>, lang: nat, slots: nat)
    ensures GroupPick(w, lang, slots).Some? ==> LeastLoaded(w, lang, slots, GroupPick(w, lang, slots).value)
    ensures GroupPick(w, lang, slots).None? ==> FreeOf(w, lang, slots) == {}
  {
    assert forall i :: i in FreeOf(w, lang, slots) ==> HasFreeSlot(w[i], lang, slots);
  }

  // -------------------------------------------------------------------- one admission

  /** The state `t` is `s` but for the queue, the workers and the record, which are these. */
  ghost predicate Turns(s: State, t: State, q: seq<Queued>, w: seq<Worker>, handoffs: seq<Handoff>, refusals: seq<Refusal>) {
    t.cfg == s.cfg && t.q == q && t.w == w && t.log.handoffs == handoffs && t.log.refusals == refusals
  }

  /** The worker has one connection more. */
  ghost predicate OneMore(s: State, t: State, i: nat) {
    && i < |s.w| == |t.w| && t.w == s.w[i := t.w[i]]
    && t.w[i] == s.w[i].(active := s.w[i].active + 1, dealt := s.w[i].dealt + 1, disp := t.w[i].disp)
  }

  lemma DispatchDecides(s: State, world: World, i: nat, e: Queued, now: real)
    requires i < |s.w|
    ensures var t := Dispatch(s, world, i, e, now);
      if world.handoff(e.id) then
        OneMore(s, t, i) && Turns(s, t, s.q, t.w, s.log.handoffs + [Handoff(e.id, i, e.lang, e.ticket, now)], s.log.refusals)
      else Turns(s, t, s.q, s.w, s.log.handoffs, s.log.refusals + [Refusal(e.id, HandoffFailed, e.enqueued, now)])
  {
  }

  /** `router_admit`. A connection for whose group nobody waits goes to the group's least loaded
      worker with a free slot, if there is one, and is refused then only if it cannot be handed
      over; any other is queued last while the group's bound and memory allow; only what neither
      can be helped by a worker nor be queued is turned away for want of capacity. */
  lemma AdmitDecides(s: State, world: World, id: nat, lang: nat, now: real) returns (i: nat)
    ensures var t := Admit(s, world, id, lang, now);
      if Straight(s, lang) then
        LeastLoaded(s.w, lang, s.cfg.slots, i) &&
        if world.handoff(id) then
          OneMore(s, t, i) && Turns(s, t, s.q, t.w, s.log.handoffs + [Handoff(id, i, lang, s.log.tickets, now)], s.log.refusals)
        else Turns(s, t, s.q, s.w, s.log.handoffs, s.log.refusals + [Refusal(id, HandoffFailed, now, now)])
      else if RoomBehind(s, lang, world.grows(id)) then
        Turns(s, t, s.q + [Queued(id, now, lang, s.log.tickets)], s.w, s.log.handoffs, s.log.refusals)
      else Turns(s, t, s.q, s.w, s.log.handoffs, s.log.refusals + [Refusal(id, AtCapacity, now, now)])
  {
    hide Straight, RoomBehind, LeastLoaded, HasRoom, GroupQueued, GroupPick, Dispatch, Bump, OneMore;
    StraightIs(s, lang);
    RoomIs(s, lang, world.grows(id));
    PickIs(s.w, lang, s.cfg.slots);
    i := 0;
    if Straight(s, lang) {
      i := GroupPick(s.w, lang, s.cfg.slots).value;
      DispatchDecides(Ticketed(s), world, i, Queued(id, now, lang, s.log.tickets), now);
      TicketChangesNothing(s, Dispatch(Ticketed(s), world, i, Queued(id, now, lang, s.log.tickets), now), i);
    }
  }

  lemma TicketChangesNothing(s: State, t: State, i: nat)
    ensures OneMore(Ticketed(s), t, i) ==> OneMore(s, t, i)
  {
  }

  /** One pass of `router_drain` over a group. Its oldest entry is refused if it is late; else it
      goes to the least loaded worker with a free slot, or the pass is over. */
  lemma DrainDecides(s: State, world: World, lang: nat, now: real) returns (k: nat, i: nat)
    ensures var r := DrainOne(s, world, lang, now);
      if QueuedOf(s.q, lang) == {} then r.None?
      else
        && k in QueuedOf(s.q, lang) && (forall j :: j in QueuedOf(s.q, lang) ==> k <= j)
        && var e, rest := s.q[k], s.q[..k] + s.q[k + 1..];
           if s.cfg.deadlineMs > 0 && (now - e.enqueued) * 1000.0 >= s.cfg.deadlineMs as real then
             r.Some? && Turns(s, r.value, rest, s.w, s.log.handoffs, s.log.refusals + [Refusal(e.id, QueuedTooLong, e.enqueued, now)])
           else if FreeOf(s.w, lang, s.cfg.slots) == {} then r.None?
           else
             && r.Some? && LeastLoaded(s.w, lang, s.cfg.slots, i)
             && if world.handoff(e.id) then
                  OneMore(s, r.value, i) &&
                  Turns(s, r.value, rest, r.value.w, s.log.handoffs + [Handoff(e.id, i, lang, e.ticket, now)], s.log.refusals)
                else Turns(s, r.value, rest, s.w, s.log.handoffs, s.log.refusals + [Refusal(e.id, HandoffFailed, e.enqueued, now)])
  {
    hide LeastLoaded, GroupHead, GroupPick, Dispatch, Bump, OneMore, FreeOf;
    k, i := 0, 0;
    var head, best := GroupHead(s.q, lang), GroupPick(s.w, lang, s.cfg.slots);
    PickIs(s.w, lang, s.cfg.slots);
    if head.Some? {
      k := head.value;
      assert k in QueuedOf(s.q, lang);
      if best.Some? {
        i := best.value;
        FreeIs(s.w, lang, s.cfg.slots, i);
        DispatchDecides(PopAt(s, k), world, i, s.q[k], now);
        PopChangesNothing(s, k, Dispatch(PopAt(s, k), world, i, s.q[k], now), i);
      }
    } else {
      assert QueuedOf(s.q, lang) == {};
    }
  }

  lemma FreeIs(w: seq<Worker>, lang: nat, slots: nat, i: nat)
    requires LeastLoaded(w, lang, slots, i)
    ensures FreeOf(w, lang, slots) != {} && i < |w|
  {
  }

  lemma PopChangesNothing(s: State, at: nat, t: State, i: nat)
    requires at < |s.q|
    ensures OneMore(PopAt(s, at), t, i) ==> OneMore(s, t, i)
  {
  }

  /** A refused connection is closed if its response and the end of the stream went out at once and
      the client had stopped sending; else it lingers for half a second, unless 256 others do, and
      then it is closed by force, which is counted. */
  lemma RefusalDecides(s: State, world: World, id: nat, reason: Reason, since: real, now: real)
    ensures var t := Refuse(s, world, id, reason, since, now);
      && t.log.refusals == s.log.refusals + [Refusal(id, reason, since, now)]
      && (if !world.closesAtOnce(id) && |s.linger| < 256 then
            t.linger == s.linger + [Lingering(id, now + 0.5)] && t.log.closed == s.log.closed
          else t.linger == s.linger && t.log.closed == s.log.closed + multiset{id})
      && t.n.lingerForced - s.n.lingerForced == (if !world.closesAtOnce(id) && |s.linger| >= 256 then 1 else 0)
  {
    hide Bump;
  }

  /** What an admission counts. */
  lemma AdmissionIsCounted(s: State, world: World, id: nat, lang: nat, now: real)
    requires |s.q| <= s.n.queuePeak
    ensures var t := Admit(s, world, id, lang, now);
      && t.n.dispatched - s.n.dispatched == |t.log.handoffs| - |s.log.handoffs|
      && t.n.queuedTotal - s.n.queuedTotal == |t.q| - |s.q|
      && Refusals(t.n.refused) - Refusals(s.n.refused) == |t.log.refusals| - |s.log.refusals|
      && t.n.queuePeak == (if |t.q| > s.n.queuePeak then |t.q| else s.n.queuePeak)
  {
    hide GroupPick, GroupQueued, HasRoom, Assign;
  }

  // --------------------------------------------------------------------- an arrival

  /** A fresh connection. Where there is one group it is admitted to it; else it is admitted to the
      group it names, refused if it names nobody's language, kept until its language is known, for
      two seconds, while there is a place for it, and else admitted to the default group. */
  lemma ArrivalDecides(s: State, world: World, c: Class, now: real)
    ensures var t, id := Accept(s, world, c, now), s.n.accepted;
      if s.cfg.groups > 1 && c.Wait? && |s.pending| < 64 then
        t.pending == s.pending + [Pending(id, now + 2.0)] && Turns(s, t, s.q, s.w, s.log.handoffs, s.log.refusals)
      else if s.cfg.groups > 1 && c.Unknown? then
        t.pending == s.pending &&
        Turns(s, t, s.q, s.w, s.log.handoffs, s.log.refusals + [Refusal(id, LanguageNotServed, now, now)])
      else t == Admit(Counted(s), world, id, if s.cfg.groups > 1 && c.Group? then c.g else 0, now)
  {
    hide Admit, Bump;
  }

  /** A connection whose language has been told, or whose time to be told is up. */
  lemma RouteDecides(s: State, world: World, id: nat, c: Class, now: real)
    ensures var t := Route(s, world, id, c, now);
      if c.Unknown? then Turns(s, t, s.q, s.w, s.log.handoffs, s.log.refusals + [Refusal(id, LanguageNotServed, now, now)])
      else t == Admit(s, world, id, if c.Group? then c.g else 0, now)
  {
    hide Admit, Bump;
  }
}
