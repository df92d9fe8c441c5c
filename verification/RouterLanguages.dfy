/** Language safety across the fleet: what a connection asks for is where it goes, as far as the
    router has been able to find out. */
module RouterLanguages {
  import opened Router
  import opened RouterTheorems

  /** A connection in group `lang` asked for it, or is in the default group. */
  ghost predicate Says(truth: nat -> Class, id: nat, lang: nat) {
    lang == 0 || truth(id) == Group(lang)
  }

  /** Queued and handed-off connections are where they asked to be, and only those that asked for
      a language nobody holds were told so. */
  ghost predicate Spoken(truth: nat -> Class, q: seq<Queued>, log: History) {
    && (forall k :: 0 <= k < |q| ==> Says(truth, q[k].id, q[k].lang))
    && (forall k :: 0 <= k < |log.handoffs| ==> Says(truth, log.handoffs[k].id, log.handoffs[k].lang))
    && (forall k :: 0 <= k < |log.refusals| && log.refusals[k].reason == LanguageNotServed ==>
          truth(log.refusals[k].id) == Unknown)
  }

  /** What is seen of a connection's bytes is what it asks for, or not yet enough to tell. */
  ghost predicate Truthful(truth: nat -> Class, tick: Tick, next: nat) {
    && (forall id :: tick.decide(id) == Wait || tick.decide(id) == truth(id))
    && (tick.arrival.Some? ==> tick.arrival.value == Wait || tick.arrival.value == truth(next))
  }

  lemma RefuseSpoken(truth: nat -> Class, s: State, world: World, id: nat, reason: Reason, since: real, now: real)
    requires Spoken(truth, s.q, s.log) && (reason == LanguageNotServed ==> truth(id) == Unknown)
    ensures var t := Refuse(s, world, id, reason, since, now); Spoken(truth, t.q, t.log)
  {
    hide Says;
  }

  lemma DispatchSpoken(truth: nat -> Class, s: State, world: World, worker: nat, e: Queued, now: real)
    requires Spoken(truth, s.q, s.log) && worker < |s.w| && Says(truth, e.id, e.lang)
    ensures var t := Dispatch(s, world, worker, e, now); Spoken(truth, t.q, t.log)
  {
    hide Says, Assign;
    RefuseSpoken(truth, s, world, e.id, HandoffFailed, e.enqueued, now);
  }

  lemma AdmitSpoken(truth: nat -> Class, s: State, world: World, id: nat, lang: nat, now: real)
    requires Spoken(truth, s.q, s.log) && Says(truth, id, lang)
    ensures var t := Admit(s, world, id, lang, now); Spoken(truth, t.q, t.log)
  {
    hide Says, GroupPick, GroupQueued, HasRoom, Dispatch, Refuse;
    var t := Ticketed(s);
    var e := Queued(id, now, lang, s.log.tickets);
    var best := GroupPick(s.w, lang, s.cfg.slots);
    if GroupQueued(s.q, lang) == 0 && best.Some? {
      DispatchSpoken(truth, t, world, best.value, e, now);
    } else {
      RefuseSpoken(truth, t, world, id, AtCapacity, now, now);
    }
  }

  lemma RouteSpoken(truth: nat -> Class, s: State, world: World, id: nat, c: Class, now: real)
    requires Spoken(truth, s.q, s.log) && (c == Wait || c == truth(id))
    ensures var t := Route(s, world, id, c, now); Spoken(truth, t.q, t.log)
  {
    hide Spoken, Admit, Refuse;
    match c {
      case Unknown => RefuseSpoken(truth, s, world, id, LanguageNotServed, now, now);
      case Group(g) => AdmitSpoken(truth, s, world, id, g, now);
      case _ => AdmitSpoken(truth, s, world, id, 0, now);
    }
  }

  lemma DrainOneSpoken(truth: nat -> Class, s: State, world: World, lang: nat, now: real)
    requires Spoken(truth, s.q, s.log)
    ensures var r := DrainOne(s, world, lang, now); r.Some? ==> Spoken(truth, r.value.q, r.value.log)
  {
    hide Says, GroupHead, GroupPick, Dispatch, Refuse;
    var head := GroupHead(s.q, lang);
    if head.Some? {
      var e := s.q[head.value];
      var popped := PopAt(s, head.value);
      RefuseSpoken(truth, popped, world, e.id, QueuedTooLong, e.enqueued, now);
      var best := GroupPick(s.w, lang, s.cfg.slots);
      if best.Some? {
        DispatchSpoken(truth, popped, world, best.value, e, now);
      }
    }
  }

  lemma {:induction false} DrainGroupSpoken(truth: nat -> Class, s: State, world: World, lang: nat, now: real)
    requires Spoken(truth, s.q, s.log)
    ensures var t := DrainGroup(s, world, lang, now); Spoken(truth, t.q, t.log)
    decreases |s.q|
  {
    hide Spoken, DrainOne;
    DrainOneSpoken(truth, s, world, lang, now);
    var r := DrainOne(s, world, lang, now);
    if r.Some? {
      DrainGroupSpoken(truth, r.value, world, lang, now);
    }
  }

  lemma {:induction false} DrainSpoken(truth: nat -> Class, s: State, world: World, groups: nat, now: real)
    requires Spoken(truth, s.q, s.log)
    ensures var t := DrainUpTo(s, world, groups, now); Spoken(truth, t.q, t.log)
  {
    hide Spoken, DrainGroup;
    if groups > 0 {
      DrainSpoken(truth, s, world, groups - 1, now);
      DrainGroupSpoken(truth, DrainUpTo(s, world, groups - 1, now), world, groups - 1, now);
    }
  }

  lemma {:induction false} LingerSpoken(truth: nat -> Class, s: State, tick: Tick, i: nat)
    requires i <= |s.linger| && Spoken(truth, s.q, s.log)
    ensures var t := LingerPass(s, tick, i); Spoken(truth, t.q, t.log)
    decreases i
  {
    hide Says, Finishes, SwapErase;
    if i > 0 {
      LingerSpoken(truth, if Finishes(s.linger[i - 1], tick) then EndLinger(s, i - 1) else s, tick, i - 1);
    }
  }

  lemma {:induction false} HangupSpoken(truth: nat -> Class, s: State, tick: Tick, i: nat)
    requires i <= |s.q| && Spoken(truth, s.q, s.log)
    ensures var t := HangupPass(s, tick, i); Spoken(truth, t.q, t.log)
    decreases i
  {
    hide Says;
    if i > 0 {
      HangupSpoken(truth, if tick.fired(s.q[i - 1].id) then HangUp(s, i - 1) else s, tick, i - 1);
    }
  }

  lemma {:induction false} ClassifySpoken(truth: nat -> Class, s: State, world: World, tick: Tick, next: nat, i: nat)
    requires i <= |s.pending| && Spoken(truth, s.q, s.log) && Truthful(truth, tick, next)
    ensures var t := ClassifyPass(s, world, tick, i); Spoken(truth, t.q, t.log)
    decreases i
  {
    hide Spoken, Route, Decided;
    if i > 0 {
      var p := s.pending[i - 1];
      if Decided(p, tick) {
        var c := tick.decide(p.id);
        var t := Unpark(s, i - 1, c.Wait?);
        RouteSpoken(truth, t, world, p.id, c, tick.now);
        RoutePending(t, world, p.id, c, tick.now);
        ClassifySpoken(truth, Route(t, world, p.id, c, tick.now), world, tick, next, i - 1);
      } else {
        ClassifySpoken(truth, s, world, tick, next, i - 1);
      }
    }
  }

  lemma SettleSpoken(truth: nat -> Class, s: State, world: World, tick: Tick, next: nat)
    requires Spoken(truth, s.q, s.log) && Truthful(truth, tick, next)
    ensures var t := Settle(s, world, tick); Spoken(truth, t.q, t.log)
  {
    hide Spoken, Truthful, LingerPass, CompletePass, HangupPass, ClassifyPass, DrainUpTo, Watch, Breachers;
    var s1 := LingerPass(s, tick, |s.linger|);
    LingerSpoken(truth, s, tick, |s.linger|);
    var s3 := WatchPass(s1.(w := CompletePass(s1.w, tick)), tick.now);
    var s4 := HangupPass(s3, tick, Watched(s3));
    HangupSpoken(truth, s3, tick, Watched(s3));
    var s5 := ClassifyPass(s4, world, tick, |s4.pending|);
    ClassifySpoken(truth, s4, world, tick, next, |s4.pending|);
    DrainSpoken(truth, s5, world, s5.cfg.groups, tick.now);
  }

  lemma AcceptSpoken(truth: nat -> Class, s: State, world: World, c: Class, now: real)
    requires Spoken(truth, s.q, s.log) && (c == Wait || c == truth(s.n.accepted))
    ensures var t := Accept(s, world, c, now); Spoken(truth, t.q, t.log)
  {
    hide Spoken, Admit, Route;
    var t := Counted(s);
    AdmitSpoken(truth, t, world, s.n.accepted, 0, now);
    RouteSpoken(truth, t, world, s.n.accepted, c, now);
  }

  lemma IterateSpoken(truth: nat -> Class, s: State, world: World, tick: Tick)
    requires Spoken(truth, s.q, s.log) && Truthful(truth, tick, Settle(s, world, tick).n.accepted)
    ensures var t := Iterate(s, world, tick); Spoken(truth, t.q, t.log)
  {
    hide Spoken, Settle, Accept;
    SettleSpoken(truth, s, world, tick, Settle(s, world, tick).n.accepted);
    if tick.arrival.Some? {
      AcceptSpoken(truth, Settle(s, world, tick), world, tick.arrival.value, tick.now);
    }
  }

  ghost predicate TruthfulTicks(truth: nat -> Class, s: State, world: World, ticks: seq<Tick>) {
    ticks == [] ||
    (var init := ticks[..|ticks| - 1];
     TruthfulTicks(truth, s, world, init) &&
     Truthful(truth, ticks[|ticks| - 1], Settle(After(s, world, init), world, ticks[|ticks| - 1]).n.accepted))
  }

  lemma {:induction false} RunSpoken(truth: nat -> Class, s: State, world: World, ticks: seq<Tick>)
    requires Spoken(truth, s.q, s.log) && TruthfulTicks(truth, s, world, ticks)
    ensures var t := After(s, world, ticks); Spoken(truth, t.q, t.log)
  {
    hide Spoken, Truthful, Iterate, Settle;
    if ticks != [] {
      var init := ticks[..|ticks| - 1];
      RunSpoken(truth, s, world, init);
      IterateSpoken(truth, After(s, world, init), world, ticks[|ticks| - 1]);
    }
  }

  /** On every run: a connection that was handed to a worker of a group other than the default one
      named that group's language, and only one that named a language nobody holds is refused for
      it. With GroupsAreServedInOrder, the worker it went to is one of that group. */
  lemma LanguagesAreKept(cfg: Config, w: seq<Worker>, world: World, ticks: seq<Tick>, truth: nat -> Class)
    requires TruthfulTicks(truth, Start(cfg, w), world, ticks)
    ensures var log := After(Start(cfg, w), world, ticks).log;
      && (forall k :: 0 <= k < |log.handoffs| ==>
            log.handoffs[k].lang == 0 || truth(log.handoffs[k].id) == Group(log.handoffs[k].lang))
      && (forall k :: 0 <= k < |log.refusals| && log.refusals[k].reason == LanguageNotServed ==>
            truth(log.refusals[k].id) == Unknown)
  {
    assert Spoken(truth, Start(cfg, w).q, Start(cfg, w).log);
    RunSpoken(truth, Start(cfg, w), world, ticks);
    hide After;
    var log := After(Start(cfg, w), world, ticks).log;
    forall k | 0 <= k < |log.handoffs|
      ensures log.handoffs[k].lang == 0 || truth(log.handoffs[k].id) == Group(log.handoffs[k].lang)
    {
      assert Says(truth, log.handoffs[k].id, log.handoffs[k].lang);
    }
  }

  /** And a connection whose language is known in time joins its own group: it is handed to one of
      the group's workers, queued there, or refused for want of capacity or of a handoff. */
  lemma DecidedJoinsItsGroup(s: State, world: World, id: nat, g: nat, now: real)
    ensures var t := Route(s, world, id, Group(g), now); var r := t.log.refusals;
      || (t.q == s.q + [Queued(id, now, g, s.log.tickets)] && t.log.handoffs == s.log.handoffs && r == s.log.refusals)
      || (t.q == s.q && |t.log.handoffs| == |s.log.handoffs| + 1 && s.log.handoffs <= t.log.handoffs &&
          r == s.log.refusals &&
          var h := t.log.handoffs[|s.log.handoffs|];
          h.id == id && h.lang == g && h.worker < |s.w| && s.w[h.worker].alive && s.w[h.worker].lang == g)
      || (t.q == s.q && t.log.handoffs == s.log.handoffs && |r| == |s.log.refusals| + 1 &&
          r[|r| - 1].id == id && (r[|r| - 1].reason == AtCapacity || r[|r| - 1].reason == HandoffFailed))
  {
    hide GroupQueued, HasRoom, Assign, Bump;
    var best := GroupPick(s.w, g, s.cfg.slots);
    hide GroupPick;
    if GroupQueued(s.q, g) == 0 && best.Some? {
      assert HasFreeSlot(s.w[best.value], g, s.cfg.slots);
    }
  }
}
