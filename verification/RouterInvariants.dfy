/** What holds of the router between any two of its routines: slot accounting, order within a
    group, honest refusals, bounded sets. */
module RouterInvariants {
  import opened Multiplying
  import opened Router

  // ------------------------------------------------------------------ the books

  /** The router's count of what a live worker is busy with is never negative and never above the
      slots, and the watchdog's ring holds that many stamps. */
  ghost predicate WorkerOk(cfg: Config, w: Worker) {
    && w.lang < cfg.groups && 0 <= w.active <= cfg.slots
    && (w.ring == 0 || w.ring == cfg.slots + 1)
    && |w.disp| == (if w.ring == 0 then 0 else w.active)
    && (!w.alive ==> w.active == 0)
  }

  ghost predicate WorkersOk(cfg: Config, w: seq<Worker>) {
    forall i :: 0 <= i < |w| ==> WorkerOk(cfg, w[i])
  }

  /** The queue is in order of admission, and of time. */
  ghost predicate InLine(groups: nat, q: seq<Queued>, tickets: nat, now: real) {
    && (forall i :: 0 <= i < |q| ==> q[i].lang < groups && q[i].ticket < tickets && q[i].enqueued <= now)
    && (forall i, j :: 0 <= i < j < |q| ==> q[i].ticket < q[j].ticket && q[i].enqueued <= q[j].enqueued)
  }

  /** Every handoff went to a worker of the connection's own group, and each group was served in
      the order its connections were admitted. */
  ghost predicate ServedInOrder(w: seq<Worker>, h: seq<Handoff>, tickets: nat) {
    && (forall i :: 0 <= i < |h| ==> h[i].worker < |w| && w[h[i].worker].lang == h[i].lang && h[i].ticket < tickets)
    && (forall i, j :: 0 <= i < j < |h| && h[i].lang == h[j].lang ==> h[i].ticket < h[j].ticket)
  }

  ghost predicate Behind(h: seq<Handoff>, q: seq<Queued>) {
    forall i, j :: 0 <= i < |h| && 0 <= j < |q| && h[i].lang == q[j].lang ==> h[i].ticket < q[j].ticket
  }

  function TallyOf(r: seq<Refusal>): Tally {
    if r == [] then NO_REFUSALS else Bump(TallyOf(r[..|r| - 1]), r[|r| - 1].reason)
  }

  predicate Late(r: Refusal, deadlineMs: int) {
    deadlineMs > 0 && (r.at - r.since) * 1000.0 >= deadlineMs as real
  }

  /** Both sets of counters are what was refused, the service cap's aside; none was refused for
      the service cap, and none as late that was not. */
  ghost predicate RefusalsOk(deadlineMs: int, refused: Tally, shared: Tally, r: seq<Refusal>) {
    && shared == TallyOf(r)
    && refused == shared.(serviceCap := refused.serviceCap)
    && shared.serviceCap == 0
    && (forall i :: 0 <= i < |r| ==> r[i].reason != ServiceCap && (r[i].reason == QueuedTooLong ==> Late(r[i], deadlineMs)))
  }

  function GroupSize(w: seq<Worker>, lang: nat): nat {
    if w == [] then 0 else GroupSize(w[..|w| - 1], lang) + (if w[|w| - 1].lang == lang then 1 else 0)
  }

  ghost predicate WithinBound(cfg: Config, w: seq<Worker>, q: seq<Queued>, qAlloc: nat) {
    && (cfg.qPer >= 0 ==> forall g :: 0 <= g < cfg.groups ==> GroupQueued(q, g) <= cfg.qPer * GroupSize(w, g))
    && (cfg.qPer > 0 ==> qAlloc == cfg.qPer * |w|)
    && (cfg.qPer < 0 ==> |q| <= qAlloc && qAlloc > 0)
  }

  ghost predicate Inv(s: State, now: real) {
    && s.cfg.groups > 0
    && WorkersOk(s.cfg, s.w)
    && InLine(s.cfg.groups, s.q, s.log.tickets, now)
    && ServedInOrder(s.w, s.log.handoffs, s.log.tickets)
    && Behind(s.log.handoffs, s.q)
    && RefusalsOk(s.cfg.deadlineMs, s.n.refused, s.n.shared, s.log.refusals)
    && WithinBound(s.cfg, s.w, s.q, s.qAlloc)
    && s.n.dispatched == |s.log.handoffs|
    && |s.pending| <= PENDING_MAX && |s.linger| <= LINGER_MAX
  }

  // ------------------------------------------------------------- counting groups

  lemma {:induction false} NoneQueued(q: seq<Queued>, lang: nat)
    ensures GroupQueued(q, lang) == 0 <==> forall i :: 0 <= i < |q| ==> q[i].lang != lang
  {
    if q != [] {
      NoneQueued(q[..|q| - 1], lang);
      assert forall i :: 0 <= i < |q| - 1 ==> q[..|q| - 1][i] == q[i];
    }
  }

  lemma QueuedAppend(q: seq<Queued>, e: Queued, lang: nat)
    ensures GroupQueued(q + [e], lang) == GroupQueued(q, lang) + (if e.lang == lang then 1 else 0)
  {
    assert (q + [e])[..|q|] == q;
  }

  lemma {:induction false} QueuedErase(q: seq<Queued>, at: nat, lang: nat)
    requires at < |q|
    ensures GroupQueued(Erase(q, at), lang) <= GroupQueued(q, lang)
  {
    var init, last := q[..|q| - 1], q[|q| - 1];
    if at == |init| {
      assert Erase(q, at) == init;
    } else {
      assert Erase(q, at) == Erase(init, at) + [last];
      QueuedAppend(Erase(init, at), last, lang);
      QueuedErase(init, at, lang);
    }
  }

  lemma {:induction false} LiveWithinSize(w: seq<Worker>, lang: nat)
    ensures GroupLive(w, lang) <= GroupSize(w, lang)
  {
    if w != [] {
      LiveWithinSize(w[..|w| - 1], lang);
    }
  }

  predicate SameGroups(v: seq<Worker>, w: seq<Worker>) {
    |v| == |w| && forall i :: 0 <= i < |v| ==> v[i].lang == w[i].lang
  }

  lemma {:induction false} SizeOfSame(v: seq<Worker>, w: seq<Worker>, lang: nat)
    requires SameGroups(v, w)
    ensures GroupSize(v, lang) == GroupSize(w, lang)
  {
    if v != [] {
      SizeOfSame(v[..|v| - 1], w[..|w| - 1], lang);
    }
  }

  lemma BoundAfterWorkers(cfg: Config, v: seq<Worker>, w: seq<Worker>, q: seq<Queued>, qAlloc: nat)
    requires SameGroups(v, w) && WithinBound(cfg, v, q, qAlloc)
    ensures WithinBound(cfg, w, q, qAlloc)
  {
    forall g | 0 <= g < cfg.groups
      ensures GroupSize(v, g) == GroupSize(w, g)
    {
      SizeOfSame(v, w, g);
    }
  }

  lemma BoundAfterErase(cfg: Config, w: seq<Worker>, q: seq<Queued>, at: nat, qAlloc: nat)
    requires at < |q| && WithinBound(cfg, w, q, qAlloc)
    ensures WithinBound(cfg, w, Erase(q, at), qAlloc)
  {
    hide GroupSize, GroupQueued, Erase;
    forall g | 0 <= g < cfg.groups
      ensures GroupQueued(Erase(q, at), g) <= GroupQueued(q, g)
    {
      QueuedErase(q, at, g);
    }
  }

  /** A group with room is below the bound it would have with all its workers alive. */
  lemma RoomMeans(s: State, lang: nat)
    requires HasRoom(s, lang) && s.cfg.qPer >= 0
    ensures s.cfg.qPer > 0 && GroupQueued(s.q, lang) < s.cfg.qPer * GroupSize(s.w, lang)
  {
    hide GroupQueued, GroupSize, GroupLive;
    LiveWithinSize(s.w, lang);
    Monotone(GroupLive(s.w, lang), GroupSize(s.w, lang), s.cfg.qPer);
  }

  lemma BoundAfterAppend(cfg: Config, w: seq<Worker>, q: seq<Queued>, e: Queued, qAlloc: nat)
    requires WithinBound(cfg, w, q, qAlloc)
    requires cfg.qPer >= 0 ==> GroupQueued(q, e.lang) < cfg.qPer * GroupSize(w, e.lang)
    ensures WithinBound(cfg, w, q + [e], if cfg.qPer < 0 && |q| >= qAlloc then qAlloc * 2 else qAlloc)
  {
    hide GroupQueued, GroupSize;
    forall g | 0 <= g < cfg.groups
      ensures GroupQueued(q + [e], g) == GroupQueued(q, g) + (if e.lang == g then 1 else 0)
    {
      QueuedAppend(q, e, g);
    }
  }

  // ----------------------------------------- the queue's bound needs no room made

  function SumQueued(q: seq<Queued>, groups: nat): nat {
    if groups == 0 then 0 else SumQueued(q, groups - 1) + GroupQueued(q, groups - 1)
  }

  function SumSize(w: seq<Worker>, groups: nat): nat {
    if groups == 0 then 0 else SumSize(w, groups - 1) + GroupSize(w, groups - 1)
  }

  lemma {:induction false} SumQueuedAppend(q: seq<Queued>, e: Queued, groups: nat)
    ensures SumQueued(q + [e], groups) == SumQueued(q, groups) + (if e.lang < groups then 1 else 0)
  {
    if groups > 0 {
      SumQueuedAppend(q, e, groups - 1);
      QueuedAppend(q, e, groups - 1);
    }
  }

  lemma {:induction false} SumQueuedNone(groups: nat)
    ensures SumQueued([], groups) == 0
  {
    if groups > 0 {
      SumQueuedNone(groups - 1);
    }
  }

  lemma {:induction false} SumQueuedAll(q: seq<Queued>, groups: nat)
    requires forall i :: 0 <= i < |q| ==> q[i].lang < groups
    ensures SumQueued(q, groups) == |q|
  {
    if q == [] {
      SumQueuedNone(groups);
    } else {
      var init, last := q[..|q| - 1], q[|q| - 1];
      assert q == init + [last] && last.lang < groups;
      SumQueuedAppend(init, last, groups);
      SumQueuedAll(init, groups);
    }
  }

  lemma SizeAppend(w: seq<Worker>, x: Worker, lang: nat)
    ensures GroupSize(w + [x], lang) == GroupSize(w, lang) + (if x.lang == lang then 1 else 0)
  {
    assert (w + [x])[..|w|] == w;
  }

  lemma {:induction false} SumSizeAppend(w: seq<Worker>, x: Worker, groups: nat)
    ensures SumSize(w + [x], groups) == SumSize(w, groups) + (if x.lang < groups then 1 else 0)
  {
    if groups > 0 {
      SumSizeAppend(w, x, groups - 1);
      SizeAppend(w, x, groups - 1);
    }
  }

  lemma {:induction false} SumSizeNone(groups: nat)
    ensures SumSize([], groups) == 0
  {
    if groups > 0 {
      SumSizeNone(groups - 1);
    }
  }

  lemma {:induction false} SumSizeAll(w: seq<Worker>, groups: nat)
    requires forall i :: 0 <= i < |w| ==> w[i].lang < groups
    ensures SumSize(w, groups) == |w|
  {
    if w == [] {
      SumSizeNone(groups);
    } else {
      var init, last := w[..|w| - 1], w[|w| - 1];
      assert w == init + [last] && last.lang < groups;
      SumSizeAppend(init, last, groups);
      SumSizeAll(init, groups);
    }
  }

  lemma Distribute(k: nat, a: nat, b: nat)
    ensures k * (a + b) == k * a + k * b
  {
  }

  lemma {:induction false} SumsWithin(q: seq<Queued>, w: seq<Worker>, k: nat, groups: nat, lang: nat)
    requires forall g :: 0 <= g < groups ==> GroupQueued(q, g) <= k * GroupSize(w, g)
    requires lang < groups ==> GroupQueued(q, lang) < k * GroupSize(w, lang)
    ensures SumQueued(q, groups) <= k * SumSize(w, groups)
    ensures lang < groups ==> SumQueued(q, groups) < k * SumSize(w, groups)
  {
    hide GroupQueued, GroupSize;
    if groups > 0 {
      SumsWithin(q, w, k, groups - 1, lang);
      Distribute(k, SumSize(w, groups - 1), GroupSize(w, groups - 1));
    }
  }

  /** With a bounded queue, whoever is let in finds the array it was given at the start long
      enough: only an unbounded queue ever grows. */
  lemma BoundedQueueNeverGrows(s: State, now: real, lang: nat)
    requires Inv(s, now) && s.cfg.qPer >= 0 && lang < s.cfg.groups && HasRoom(s, lang)
    ensures |s.q| < s.qAlloc
  {
    hide GroupQueued, GroupSize, GroupLive, SumQueued, SumSize, ServedInOrder, Behind, RefusalsOk, HasRoom;
    RoomMeans(s, lang);
    SumsWithin(s.q, s.w, s.cfg.qPer, s.cfg.groups, lang);
    SumQueuedAll(s.q, s.cfg.groups);
    assert forall i :: 0 <= i < |s.w| ==> WorkerOk(s.cfg, s.w[i]);
    SumSizeAll(s.w, s.cfg.groups);
  }
}
