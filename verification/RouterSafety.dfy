/** Every routine of the router keeps its invariant, and after the drain no group has both a
    queued connection and a free slot, nor a connection that has waited too long. */
module RouterSafety {
  import opened Router
  import opened RouterInvariants

  // -------------------------------------------------------------------- refusing

  lemma RefusalCounted(deadlineMs: int, refused: Tally, shared: Tally, r: seq<Refusal>, x: Refusal)
    requires RefusalsOk(deadlineMs, refused, shared, r)
    requires x.reason != ServiceCap && (x.reason == QueuedTooLong ==> Late(x, deadlineMs))
    ensures RefusalsOk(deadlineMs, Bump(refused, x.reason), Bump(shared, x.reason), r + [x])
  {
    assert (r + [x])[..|r|] == r;
  }

  lemma RefuseInv(s: State, world: World, id: nat, reason: Reason, since: real, now: real)
    requires Inv(s, now)
    requires reason != ServiceCap
    requires reason == QueuedTooLong ==> Late(Refusal(id, reason, since, now), s.cfg.deadlineMs)
    ensures Inv(Refuse(s, world, id, reason, since, now), now)
  {
    hide WorkersOk, InLine, ServedInOrder, Behind, WithinBound, RefusalsOk, Late, Bump;
    RefusalCounted(s.cfg.deadlineMs, s.n.refused, s.n.shared, s.log.refusals, Refusal(id, reason, since, now));
  }

  // ----------------------------------------------------------------- handing off

  /** `e` may be handed off now without overtaking anyone of its group. */
  ghost predicate Next(s: State, e: Queued) {
    && e.lang < s.cfg.groups && e.ticket < s.log.tickets
    && (forall i :: 0 <= i < |s.log.handoffs| && s.log.handoffs[i].lang == e.lang ==> s.log.handoffs[i].ticket < e.ticket)
    && (forall i :: 0 <= i < |s.q| && s.q[i].lang == e.lang ==> e.ticket < s.q[i].ticket)
  }

  lemma AssignOk(cfg: Config, w: Worker, lang: nat, now: real)
    requires WorkerOk(cfg, w) && HasFreeSlot(w, lang, cfg.slots)
    ensures WorkerOk(cfg, Assign(w, now)) && Assign(w, now).lang == w.lang
  {
  }

  lemma HandoffInOrder(w: seq<Worker>, h: seq<Handoff>, tickets: nat, x: Handoff)
    requires ServedInOrder(w, h, tickets)
    requires x.worker < |w| && w[x.worker].lang == x.lang && x.ticket < tickets
    requires forall i :: 0 <= i < |h| && h[i].lang == x.lang ==> h[i].ticket < x.ticket
    ensures ServedInOrder(w, h + [x], tickets)
  {
  }

  lemma OrderAfterWorkers(v: seq<Worker>, w: seq<Worker>, h: seq<Handoff>, tickets: nat)
    requires SameGroups(v, w) && ServedInOrder(v, h, tickets)
    ensures ServedInOrder(w, h, tickets)
  {
  }

  lemma HandoffBehind(h: seq<Handoff>, q: seq<Queued>, x: Handoff)
    requires Behind(h, q)
    requires forall i :: 0 <= i < |q| && q[i].lang == x.lang ==> x.ticket < q[i].ticket
    ensures Behind(h + [x], q)
  {
  }

  lemma DispatchInv(s: State, world: World, worker: nat, e: Queued, now: real)
    requires Inv(s, now) && worker < |s.w| && HasFreeSlot(s.w[worker], e.lang, s.cfg.slots) && Next(s, e)
    ensures Inv(Dispatch(s, world, worker, e, now), now)
  {
    if !world.handoff(e.id) {
      hide Inv, Next;
      RefuseInv(s, world, e.id, HandoffFailed, e.enqueued, now);
    } else {
      hide WorkerOk, InLine, ServedInOrder, Behind, WithinBound, RefusalsOk, Assign;
      var x := Handoff(e.id, worker, e.lang, e.ticket, now);
      var w := s.w[worker := Assign(s.w[worker], now)];
      AssignOk(s.cfg, s.w[worker], e.lang, now);
      OrderAfterWorkers(s.w, w, s.log.handoffs, s.log.tickets);
      HandoffInOrder(w, s.log.handoffs, s.log.tickets, x);
      HandoffBehind(s.log.handoffs, s.q, x);
      BoundAfterWorkers(s.cfg, s.w, w, s.q, s.qAlloc);
    }
  }

  // ------------------------------------------------------------------- admission

  lemma TicketedInv(s: State, now: real)
    requires Inv(s, now)
    ensures Inv(Ticketed(s), now)
  {
    hide WorkersOk, Behind, WithinBound, RefusalsOk;
  }

  lemma JoinLine(groups: nat, q: seq<Queued>, tickets: nat, now: real, e: Queued)
    requires InLine(groups, q, tickets, now)
    requires e.lang < groups && e.ticket == tickets && e.enqueued == now
    ensures InLine(groups, q + [e], tickets + 1, now)
  {
  }

  lemma JoinBehind(w: seq<Worker>, h: seq<Handoff>, q: seq<Queued>, tickets: nat, e: Queued)
    requires ServedInOrder(w, h, tickets) && Behind(h, q) && e.ticket == tickets
    ensures Behind(h, q + [e])
  {
  }

  lemma EnqueueInv(s: State, e: Queued, now: real)
    requires Inv(s, now) && HasRoom(s, e.lang)
    requires e.lang < s.cfg.groups && e.ticket == s.log.tickets && e.enqueued == now
    ensures Inv(Enqueue(Ticketed(s), e), now)
  {
    TicketedInv(s, now);
    JoinLine(s.cfg.groups, s.q, s.log.tickets, now, e);
    JoinBehind(s.w, s.log.handoffs, s.q, s.log.tickets, e);
    if s.cfg.qPer >= 0 {
      RoomMeans(s, e.lang);
      BoundedQueueNeverGrows(s, now, e.lang);
    }
    BoundAfterAppend(s.cfg, s.w, s.q, e, s.qAlloc);
    hide WorkersOk, InLine, ServedInOrder, Behind, WithinBound, RefusalsOk, HasRoom;
  }

  lemma FreshIsNext(s: State, e: Queued, now: real)
    requires Inv(s, now) && GroupQueued(s.q, e.lang) == 0 && e.lang < s.cfg.groups && e.ticket == s.log.tickets
    ensures Next(Ticketed(s), e)
  {
    hide GroupQueued, WorkersOk, WithinBound, RefusalsOk;
    NoneQueued(s.q, e.lang);
  }

  lemma AdmitInv(s: State, world: World, id: nat, lang: nat, now: real)
    requires Inv(s, now) && lang < s.cfg.groups
    ensures Inv(Admit(s, world, id, lang, now), now)
  {
    hide Inv, Next, Dispatch, Refuse, Enqueue, GroupPick, GroupQueued, HasRoom, HasFreeSlot;
    var t := Ticketed(s);
    TicketedInv(s, now);
    var e := Queued(id, now, lang, s.log.tickets);
    var best := GroupPick(s.w, lang, s.cfg.slots);
    if GroupQueued(s.q, lang) == 0 && best.Some? {
      FreshIsNext(s, e, now);
      DispatchInv(t, world, best.value, e, now);
    } else if HasRoom(s, lang) && (|s.q| < s.qAlloc || world.grows(id)) {
      EnqueueInv(s, e, now);
    } else {
      RefuseInv(t, world, id, AtCapacity, now, now);
    }
  }

  lemma AdmitKeepsConfig(s: State, world: World, id: nat, lang: nat, now: real)
    ensures Admit(s, world, id, lang, now).cfg == s.cfg
  {
    hide GroupPick, GroupQueued, HasRoom, Assign;
  }

  lemma RouteInv(s: State, world: World, id: nat, c: Class, now: real)
    requires Inv(s, now) && (c.Group? ==> c.g < s.cfg.groups)
    ensures Inv(Route(s, world, id, c, now), now) && Route(s, world, id, c, now).cfg == s.cfg
  {
    assert s.cfg.groups > 0;
    hide Inv, Admit;
    match c {
      case Unknown => RefuseInv(s, world, id, LanguageNotServed, now, now);
      case Group(g) =>
        AdmitInv(s, world, id, g, now);
        AdmitKeepsConfig(s, world, id, g, now);
      case _ =>
        AdmitInv(s, world, id, 0, now);
        AdmitKeepsConfig(s, world, id, 0, now);
    }
  }

  // ----------------------------------------------------------------------- drain

  lemma LineAfterErase(groups: nat, q: seq<Queued>, at: nat, tickets: nat, now: real)
    requires at < |q| && InLine(groups, q, tickets, now)
    ensures InLine(groups, Erase(q, at), tickets, now)
  {
  }

  lemma BehindAfterErase(h: seq<Handoff>, q: seq<Queued>, at: nat)
    requires at < |q| && Behind(h, q)
    ensures Behind(h, Erase(q, at))
  {
  }

  lemma PopInv(s: State, at: nat, now: real)
    requires at < |s.q| && Inv(s, now)
    ensures Inv(PopAt(s, at), now)
  {
    LineAfterErase(s.cfg.groups, s.q, at, s.log.tickets, now);
    BehindAfterErase(s.log.handoffs, s.q, at);
    BoundAfterErase(s.cfg, s.w, s.q, at, s.qAlloc);
    hide Erase, WorkersOk, InLine, ServedInOrder, Behind, WithinBound, RefusalsOk;
  }

  lemma HeadIsNext(s: State, at: nat, now: real)
    requires Inv(s, now) && at < |s.q| && forall i :: 0 <= i < at ==> s.q[i].lang != s.q[at].lang
    ensures Next(PopAt(s, at), s.q[at])
  {
    hide WorkersOk, ServedInOrder, WithinBound, RefusalsOk;
    var q := Erase(s.q, at);
    forall i | 0 <= i < |q| && q[i].lang == s.q[at].lang
      ensures s.q[at].ticket < q[i].ticket
    {
      assert i >= at && q[i] == s.q[i + 1];
    }
  }

  lemma DrainOneInv(s: State, world: World, lang: nat, now: real)
    requires Inv(s, now)
    ensures var r := DrainOne(s, world, lang, now); r.Some? ==> Inv(r.value, now)
  {
    hide Inv, Next, Refuse, Dispatch, Erase, GroupHead, GroupPick, HasFreeSlot;
    var head := GroupHead(s.q, lang);
    if head.Some? {
      var e := s.q[head.value];
      var popped := PopAt(s, head.value);
      PopInv(s, head.value, now);
      if Expired(e.enqueued, s.cfg.deadlineMs, now) {
        RefuseInv(popped, world, e.id, QueuedTooLong, e.enqueued, now);
      } else {
        var best := GroupPick(s.w, lang, s.cfg.slots);
        if best.Some? {
          HeadIsNext(s, head.value, now);
          DispatchInv(popped, world, best.value, e, now);
        }
      }
    }
  }

  /** No one of group `lang` could be served now, and none has waited too long. */
  ghost predicate Settled(cfg: Config, w: seq<Worker>, q: seq<Queued>, lang: nat, now: real) {
    forall k :: 0 <= k < |q| && q[k].lang == lang ==>
      && !Expired(q[k].enqueued, cfg.deadlineMs, now)
      && forall i :: 0 <= i < |w| ==> !HasFreeSlot(w[i], lang, cfg.slots)
  }

  /** What draining one group leaves alone. */
  ghost predicate OthersUntouched(s: State, t: State, lang: nat) {
    && t.cfg == s.cfg && SameGroups(s.w, t.w)
    && (forall i :: 0 <= i < |s.w| && s.w[i].lang != lang ==> t.w[i] == s.w[i])
    && (forall k :: 0 <= k < |t.q| ==> t.q[k] in s.q)
  }

  lemma StopMeansSettled(s: State, world: World, lang: nat, now: real)
    requires Inv(s, now) && DrainOne(s, world, lang, now).None?
    ensures Settled(s.cfg, s.w, s.q, lang, now)
  {
    hide WorkersOk, ServedInOrder, Behind, RefusalsOk, WithinBound, GroupHead, GroupPick, HasFreeSlot;
    var head := GroupHead(s.q, lang);
    if head.Some? {
      var e := s.q[head.value];
      forall k | 0 <= k < |s.q| && s.q[k].lang == lang
        ensures !Expired(s.q[k].enqueued, s.cfg.deadlineMs, now)
      {
        assert head.value <= k;
        assert e.enqueued <= s.q[k].enqueued;
      }
    }
  }

  lemma DrainOneLocal(s: State, world: World, lang: nat, now: real)
    ensures var r := DrainOne(s, world, lang, now); r.Some? ==> OthersUntouched(s, r.value, lang)
  {
    hide GroupHead, GroupPick, Assign;
    assert forall w: Worker, t: real :: Assign(w, t).lang == w.lang by {
      forall w: Worker, t: real ensures Assign(w, t).lang == w.lang { AssignKeepsGroup(w, t); }
    }
  }

  lemma AssignKeepsGroup(w: Worker, now: real)
    ensures Assign(w, now).lang == w.lang
  {
  }

  lemma UntouchedTrans(s: State, t: State, u: State, lang: nat)
    requires OthersUntouched(s, t, lang) && OthersUntouched(t, u, lang)
    ensures OthersUntouched(s, u, lang)
  {
  }

  lemma {:induction false} DrainGroupInv(s: State, world: World, lang: nat, now: real)
    requires Inv(s, now)
    ensures var t := DrainGroup(s, world, lang, now);
      Inv(t, now) && Settled(t.cfg, t.w, t.q, lang, now) && OthersUntouched(s, t, lang)
    decreases |s.q|
  {
    hide Inv, Settled, DrainOne;
    var r := DrainOne(s, world, lang, now);
    if r.None? {
      StopMeansSettled(s, world, lang, now);
    } else {
      DrainOneInv(s, world, lang, now);
      DrainOneLocal(s, world, lang, now);
      DrainGroupInv(r.value, world, lang, now);
      hide OthersUntouched;
      UntouchedTrans(s, r.value, DrainGroup(r.value, world, lang, now), lang);
    }
  }

  lemma StaysSettled(s: State, t: State, drained: nat, lang: nat, now: real)
    requires OthersUntouched(s, t, drained) && lang != drained && Settled(s.cfg, s.w, s.q, lang, now)
    ensures Settled(t.cfg, t.w, t.q, lang, now)
  {
    hide Expired;
    forall k | 0 <= k < |t.q| && t.q[k].lang == lang
      ensures !Expired(t.q[k].enqueued, t.cfg.deadlineMs, now)
      ensures forall i :: 0 <= i < |t.w| ==> !HasFreeSlot(t.w[i], lang, t.cfg.slots)
    {
      var j :| 0 <= j < |s.q| && s.q[j] == t.q[k];
    }
  }

  lemma {:induction false} DrainInv(s: State, world: World, groups: nat, now: real)
    requires Inv(s, now)
    ensures var t := DrainUpTo(s, world, groups, now);
      Inv(t, now) && t.cfg == s.cfg && forall g :: 0 <= g < groups ==> Settled(t.cfg, t.w, t.q, g, now)
  {
    hide Inv, Settled, DrainGroup;
    if groups > 0 {
      DrainInv(s, world, groups - 1, now);
      var t := DrainUpTo(s, world, groups - 1, now);
      DrainGroupInv(t, world, groups - 1, now);
      var u := DrainGroup(t, world, groups - 1, now);
      forall g | 0 <= g < groups - 1
        ensures Settled(u.cfg, u.w, u.q, g, now)
      {
        StaysSettled(t, u, groups - 1, g, now);
      }
    }
  }
}
