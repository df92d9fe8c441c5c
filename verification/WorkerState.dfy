/** One worker as the router keeps it: its counters and the ring of dispatch times, updated in
    place. Each method performs the function of the Router module it is proved against. */
module WorkerStates {
  import opened Router
  import Watchdog

  function Wrap(i: nat, cap: nat): nat
    requires i < 2 * cap
  {
    if i < cap then i else i - cap
  }

  method Modulo(i: nat, cap: nat) returns (r: nat)
    requires i < 2 * cap
    ensures r == Wrap(i, cap)
  {
    r := i % cap;
  }

  /** The stamps in the ring, head first. */
  function Unrolled(d: seq<real>, head: nat, n: nat): (r: seq<real>)
    requires head < |d| && n <= |d|
    ensures |r| == n
    ensures forall i :: 0 <= i < n ==> r[i] == d[Wrap(head + i, |d|)]
  {
    seq(n, i requires 0 <= i < n => d[Wrap(head + i, |d|)])
  }

  lemma UnrolledTail(d: seq<real>, head: nat, n: nat)
    requires head < |d| && 0 < n <= |d|
    ensures Wrap(head + 1, |d|) < |d|
    ensures Unrolled(d, Wrap(head + 1, |d|), n - 1) == PopStamps(Unrolled(d, head, n), 1)
  {
    var was := Unrolled(d, head, n);
    assert Unrolled(d, Wrap(head + 1, |d|), n - 1) == was[1..];
    assert n == 1 ==> was[1..] == [];
  }

  class WorkerState {
    const lang: nat
    const disp: array?<real>          // null when it could not be allocated
    var alive: bool
    var active: int
    var dealt: nat
    var completed: nat
    var dispHead: nat
    var dispN: nat
    var overCap: nat

    ghost predicate Valid()
      reads this
    {
      if disp == null then dispN == 0 else dispHead < disp.Length && dispN <= disp.Length
    }

    ghost function Stamps(): seq<real>
      requires Valid()
      reads this, disp
    {
      if disp == null then [] else Unrolled(disp[..], dispHead, dispN)
    }

    ghost function Value(): Worker
      requires Valid()
      reads this, disp
    {
      Worker(alive, lang, active, dealt, completed, if disp == null then 0 else disp.Length, Stamps(), overCap)
    }

    /** A worker that was started, or was not, and its ring, if there is memory for one. */
    constructor (lang: nat, slots: nat, started: bool, memory: bool)
      ensures Valid() && Value() == Worker(started, lang, 0, 0, 0, if memory then slots + 1 else 0, [], 0)
      ensures disp != null ==> fresh(disp)
    {
      this.lang := lang;
      if memory {
        disp := new real[slots + 1](_ => 0.0);
      } else {
        disp := null;
      }
      alive := started;
      active, dealt, completed, dispHead, dispN, overCap := 0, 0, 0, 0, 0, 0;
    }

    /** `disp_push` */
    method Push(t: real)
      requires Valid()
      modifies this`dispN, disp
      ensures Valid() && Stamps() == PushStamp(old(Stamps()), if disp == null then 0 else disp.Length, t)
    {
      if disp == null || dispN >= disp.Length {
        return;
      }
      ghost var was := Stamps();
      var at := Modulo(dispHead + dispN, disp.Length);
      disp[at] := t;
      dispN := dispN + 1;
      assert forall i :: 0 <= i < dispN ==> Stamps()[i] == (was + [t])[i];
      assert Stamps() == was + [t];
    }

    method PopOne()
      requires Valid() && dispN > 0
      modifies this`dispHead, this`dispN
      ensures Valid() && Stamps() == PopStamps(old(Stamps()), 1) && dispN == old(dispN) - 1
    {
      hide Unrolled, Wrap;
      UnrolledTail(disp[..], dispHead, dispN);
      dispHead := Modulo(dispHead + 1, disp.Length);
      dispN := dispN - 1;
    }

    /** `disp_pop` */
    method Pop(count: nat)
      requires Valid()
      modifies this`dispHead, this`dispN
      ensures Valid() && Stamps() == PopStamps(old(Stamps()), count)
    {
      hide Unrolled, PopStamps;
      var left := count;
      Watchdog.PopsOneByOne(Stamps(), count);
      while left > 0 && dispN > 0
        invariant 0 <= left && Valid() && Watchdog.ReturnAll(Stamps(), left) == Watchdog.ReturnAll(old(Stamps()), count)
      {
        PopOne();
        left := left - 1;
      }
      Watchdog.PopsOneByOne(Stamps(), left);
      Watchdog.NothingToPop(Stamps(), left);
    }

    /** A connection has been handed to the worker. */
    method TakeOn(now: real)
      requires Valid()
      modifies this`active, this`dealt, this`dispN, disp
      ensures Valid() && Value() == Assign(old(Value()), now)
    {
      active := active + 1;
      dealt := dealt + 1;
      Push(now);
    }

    /** What was read from the worker's channel: so many bytes, one for each connection done, or
        its end. */
    method Hear(r: Report)
      requires Valid() && alive
      modifies this`alive, this`active, this`completed, this`dispHead, this`dispN
      ensures Valid() && Value() == Complete(old(Value()), r)
    {
      hide Unrolled, PopStamps;
      match r {
        case Silent =>
        case Done(n) =>
          completed := completed + n;
          active := active - n;
          Pop(n);
          if active < 0 {
            active := 0;
            Forget();
          }
        case ChannelClosed =>
          alive := false;
          active := 0;
          Forget();
      }
    }

    method Forget()
      requires Valid()
      modifies this`dispN
      ensures Valid() && Stamps() == []
    {
      dispN := 0;
      assert Stamps() == [];
    }

    /** The watchdog's look at the head of the ring. A breach is charged once: its stamp becomes the
        time it was seen. */
    method Look(capMs: int, now: real) returns (breached: bool)
      requires Valid()
      modifies this`overCap, disp
      ensures Valid() && breached == Breaches(old(Value()), capMs, now)
      ensures Value() == Router.Watch(old(Value()), capMs, now)
    {
      if capMs <= 0 || !alive || dispN == 0 || disp == null {
        return false;
      }
      ghost var was := Stamps();
      assert was[0] == disp[dispHead];
      breached := (now - disp[dispHead]) * 1000.0 >= capMs as real;
      if breached {
        overCap := overCap + 1;
        disp[dispHead] := now;
        assert Stamps() == was[0 := now];
      }
    }
  }
}
