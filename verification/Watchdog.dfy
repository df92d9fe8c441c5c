/** Rung 4's watchdog. The router knows when it dealt each connection to a worker but not which of
    them a completion is about, so it keeps a ring of dispatch times and lets every completion
    remove the oldest. */
module Watchdog {
  import opened Router

  /** One worker, seen with the knowledge the router lacks: when the k-th connection was dealt,
      and which of them are still outstanding. `ring` is what the router keeps. */
  datatype Ledger = Ledger(times: seq<real>, out: set<nat>, ring: seq<real>)

  /** `Return` is one report of the worker: so many connections are done, the router does not
      learn which. */
  datatype Event = Deal(at: real) | Return(back: set<nat>) | Check(at: real, capMs: int)

  const NEW := Ledger([], {}, [])

  predicate Possible(s: Ledger, e: Event) {
    match e
    case Deal(t) => |s.times| > 0 ==> s.times[|s.times| - 1] <= t
    case Return(back) => back <= s.out
    case Check(t, _) => forall i :: 0 <= i < |s.times| ==> s.times[i] <= t
  }

  predicate Breached(ring: seq<real>, capMs: int, now: real) {
    capMs > 0 && |ring| > 0 && (now - ring[0]) * 1000.0 >= capMs as real
  }

  function Step(s: Ledger, e: Event): Ledger {
    match e
    case Deal(t) =>
      s.(times := s.times + [t], out := s.out + {|s.times|}, ring := PushStamp(s.ring, |s.ring| + 1, t))
    case Return(back) => s.(out := s.out - back, ring := PopStamps(s.ring, |back|))
    case Check(t, cap) => if Breached(s.ring, cap, t) then s.(ring := s.ring[0 := t]) else s
  }

  /** How many have come back. */
  function Returned(s: Ledger): int {
    |s.times| - |s.out|
  }

  ghost predicate Inv(s: Ledger) {
    && |s.ring| == |s.out| <= |s.times|
    && (forall k :: k in s.out ==> k < |s.times|)
    && (forall i, j :: 0 <= i < j < |s.times| ==> s.times[i] <= s.times[j])
    && (forall j :: 0 <= j < |s.ring| ==> s.times[Returned(s) + j] <= s.ring[j])
  }

  lemma DealInv(s: Ledger, t: real)
    requires Inv(s) && Possible(s, Deal(t))
    ensures Inv(Step(s, Deal(t)))
  {
    assert |s.times| !in s.out;
  }

  lemma ReturnInv(s: Ledger, back: set<nat>)
    requires Inv(s) && back <= s.out
    ensures Inv(Step(s, Return(back)))
  {
    assert s.out == (s.out - back) + back;
  }

  lemma StepInv(s: Ledger, e: Event)
    requires Inv(s) && Possible(s, e)
    ensures Inv(Step(s, e))
  {
    match e {
      case Deal(t) => DealInv(s, t);
      case Return(back) => ReturnInv(s, back);
      case Check(t, cap) =>
    }
  }

  /** Some connection that is still outstanding was dealt no later than the one just behind those
      that came back: there are too few younger ones to fill the outstanding set. */
  lemma OldOneIsOut(s: Ledger) returns (k: nat)
    requires Inv(s) && s.out != {}
    ensures k in s.out && k <= Returned(s)
  {
    var p := Returned(s);
    if forall k :: k in s.out ==> k > p {
      Within(s.out, p + 1, |s.times|);
      assert false;
    }
    k :| k in s.out && k <= p;
  }

  function Range(lo: nat, hi: nat): set<nat>
    decreases hi
  {
    if lo >= hi then {} else Range(lo, hi - 1) + {hi - 1}
  }

  lemma {:induction false} RangeHolds(lo: nat, hi: nat)
    requires lo <= hi
    ensures |Range(lo, hi)| == hi - lo
    ensures forall i: nat :: i in Range(lo, hi) <==> lo <= i < hi
    decreases hi
  {
    if lo < hi {
      RangeHolds(lo, hi - 1);
    }
  }

  /** A set of so many numbers of an interval: at most all of them, and all of them if as many. */
  lemma Within(a: set<nat>, lo: nat, hi: nat)
    requires lo <= hi && forall k :: k in a ==> lo <= k < hi
    ensures |a| <= hi - lo
    ensures |a| == hi - lo ==> a == Range(lo, hi)
  {
    RangeHolds(lo, hi);
    Cardinality(a, Range(lo, hi));
    if |a| == hi - lo && a != Range(lo, hi) {
      var k :| k in Range(lo, hi) && k !in a;
      Cardinality(a, Range(lo, hi) - {k});
    }
  }

  lemma {:induction false} Cardinality(a: set<nat>, b: set<nat>)
    requires a <= b
    ensures |a| <= |b|
  {
    if a != {} {
      var x :| x in a;
      Cardinality(a - {x}, b - {x});
    }
  }

  /** No false alarm. Although completions arrive in any order and a breach stamps the head anew,
      whenever the head is past the cap some connection the worker really still owes is. */
  lemma NoFalseAlarm(s: Ledger, now: real, capMs: int) returns (k: nat)
    requires Inv(s) && Breached(s.ring, capMs, now)
    ensures k in s.out && k < |s.times| && (now - s.times[k]) * 1000.0 >= capMs as real
  {
    k := OldOneIsOut(s);
    assert s.times[k] <= s.times[Returned(s)] <= s.ring[0];
  }

  function Run(events: seq<Event>): Ledger {
    if events == [] then NEW else Step(Run(events[..|events| - 1]), events[|events| - 1])
  }

  ghost predicate ValidRun(events: seq<Event>) {
    events == [] ||
    (ValidRun(events[..|events| - 1]) && Possible(Run(events[..|events| - 1]), events[|events| - 1]))
  }

  lemma {:induction false} RunInv(events: seq<Event>)
    requires ValidRun(events)
    ensures Inv(Run(events))
  {
    hide Inv, Step, Possible;
    if events == [] {
      NewInv();
    } else {
      RunInv(events[..|events| - 1]);
      StepInv(Run(events[..|events| - 1]), events[|events| - 1]);
    }
  }

  lemma NewInv()
    ensures Inv(NEW)
  {
  }

  /** ... on every run. */
  lemma NeverAFalseAlarm(events: seq<Event>, now: real, capMs: int) returns (k: nat)
    requires ValidRun(events) && Breached(Run(events).ring, capMs, now)
    ensures var s := Run(events);
      k in s.out && k < |s.times| && (now - s.times[k]) * 1000.0 >= capMs as real
  {
    RunInv(events);
    k := NoFalseAlarm(Run(events), now, capMs);
  }

  // --------------------------------------- what the router does is what the ledger does

  /** So many connections more, all dealt at one time. */
  function Dealing(s: Ledger, now: real, k: nat): Ledger {
    if k == 0 then s else Step(Dealing(s, now, k - 1), Deal(now))
  }

  lemma {:induction false} DealingInv(s: Ledger, now: real, k: nat)
    requires Inv(s) && forall j :: 0 <= j < |s.times| ==> s.times[j] <= now
    ensures var t := Dealing(s, now, k);
      && Inv(t) && |t.times| == |s.times| + k && t.times[..|s.times|] == s.times
      && (forall j :: |s.times| <= j < |t.times| ==> t.times[j] == now)
      && (forall j :: j in t.out <==> j in s.out || |s.times| <= j < |t.times|)
  {
    if k > 0 {
      DealingInv(s, now, k - 1);
      var t := Dealing(s, now, k - 1);
      DealInv(t, now);
    }
  }

  function ReturnAll(ring: seq<real>, n: nat): seq<real>
    decreases n
  {
    if n == 0 then ring else ReturnAll(PopStamps(ring, 1), n - 1)
  }

  lemma {:induction false} PopsOneByOne(ring: seq<real>, n: nat)
    ensures PopStamps(ring, n) == ReturnAll(ring, n)
    decreases n
  {
    if n > 0 {
      PopsOneByOne(PopStamps(ring, 1), n - 1);
      if n < |ring| {
        assert ring[1..][n - 1..] == ring[n..];
      }
    } else if ring != [] {
      assert ring[0..] == ring;
    }
  }

  lemma NothingToPop(ring: seq<real>, n: nat)
    requires ring == [] || n == 0
    ensures PopStamps(ring, n) == ring
  {
  }

  predicate Oldest(s: Ledger, k: nat) {
    k in s.out && forall j :: j in s.out ==> k <= j
  }

  /** The source says that the head always is the oldest outstanding dispatch. The head stands for
      dispatch number `Returned`, and that is the oldest outstanding one exactly when what came
      back is what was dealt first. */
  lemma HeadIsOldestIff(s: Ledger)
    requires Inv(s) && s.out != {}
    ensures Oldest(s, Returned(s)) <==> s.out == Range(Returned(s), |s.times|)
  {
    RangeHolds(Returned(s), |s.times|);
    if Oldest(s, Returned(s)) {
      Within(s.out, Returned(s), |s.times|);
    }
  }

  /** It is not when a later connection comes back first: here the head is the stamp of a
      connection that is done, and the older one that is not goes unnoticed at its cap. */
  lemma HeadIsNotAlwaysOldest()
    ensures var s := Run([Deal(0.0), Deal(5.0), Return({1})]);
      && ValidRun([Deal(0.0), Deal(5.0), Return({1})])
      && s.out == {0} && s.ring == [5.0] && s.times[0] == 0.0
      && (6.0 - s.times[0]) * 1000.0 >= 6000.0 && !Breached(s.ring, 6000, 6.0)
  {
    var e1: seq<Event> := [Deal(0.0)];
    var e2 := e1 + [Deal(5.0)];
    var e3 := e2 + [Return({1})];
    assert e1[..0] == [] && e2[..1] == e1 && e3[..2] == e2;
    assert Run(e1) == Ledger([0.0], {0}, [0.0]);
    assert Run(e2) == Ledger([0.0, 5.0], {0, 1}, [0.0, 5.0]);
    var back: set<nat> := {1};
    assert |back| == 1 && {0, 1} - back == {0} && Possible(Run(e2), Return(back));
    assert Run(e3) == Ledger([0.0, 5.0], {0}, [5.0]);
    assert e3 == [Deal(0.0), Deal(5.0), Return({1})];
  }
}
