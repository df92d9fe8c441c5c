/** Delivery off the producer's thread: one helper, its FIFO queue, and the chunk items it
    recycles. The producer and the helper interleave freely; a step is one critical section of
    the lane, one copy into an item, or one call of the helper on a stream. */
module DeliveryLane {

  type Samples = seq<real>

  datatype Entry = Chunk(item: nat, out: nat) | Close(out: nat)

  /** What the producer holds between its critical sections. */
  datatype Hand =
    | Nothing
    | Taken(item: nat, out: nat, samples: Samples)
    | Filled(item: nat, out: nat, samples: Samples)

  datatype Helper = Working | Parked(woken: bool)

  /** One stream as the lane sees it: the chunks handed over, the chunks the helper has offered
      to the stream, and how far its end has got. */
  datatype Log = Log(handed: seq<Samples>, calls: seq<Samples>, closing: bool, finished: bool, closed: bool)

  /** `buf[i]` and `cap[i]` are the contents and the capacity of item `i`. */
  datatype Lane = Lane(
    queue: seq<Entry>,
    spare: seq<nat>,
    batch: seq<Entry>,
    spent: seq<nat>,
    hand: Hand,
    helper: Helper,
    buf: seq<Samples>,
    cap: seq<nat>,
    logs: seq<Log>)

  function Fresh(streams: nat): Lane {
    Lane([], [], [], [], Nothing, Working, [], [], seq(streams, _ => Log([], [], false, false, false)))
  }

  // ------------------------------------------------------------------- actions

  datatype Step =
    // the producer
    | Take(out: nat, samples: Samples, memory: bool)
    | Fill(grown: bool)
    | Append
    | AskClose(out: nat)
    // the helper
    | Turn            // returns spent items, then takes the whole queue or waits
    | Wake
    | Serve           // runs the first entry of its batch

  predicate Open(l: Lane, out: nat) {
    out < |l.logs| && !l.logs[out].closing
  }

  predicate Wellformed(l: Lane) {
    && |l.cap| == |l.buf|
    && (l.hand != Nothing ==> l.hand.item < |l.buf| && l.hand.out < |l.logs|)
    && (forall e | e in l.batch :: e.out < |l.logs| && (e.Chunk? ==> e.item < |l.buf|))
  }

  predicate Enabled(l: Lane, a: Step) {
    match a
    case Take(out, samples, _) => l.hand == Nothing && Open(l, out) && samples != []
    case Fill(_) => l.hand.Taken?
    case Append => l.hand.Filled?
    case AskClose(out) => l.hand == Nothing && Open(l, out)
    case Turn => l.helper == Working && l.batch == []
    case Wake => l.helper.Parked?
    case Serve => l.helper == Working && l.batch != []
  }

  function Signal(h: Helper): Helper {
    if h.Parked? then Parked(true) else h
  }

  function Apply(l: Lane, a: Step): Lane
    requires Wellformed(l) && Enabled(l, a)
  {
    match a
    case Take(out, samples, memory) =>
      if l.spare != [] then l.(spare := l.spare[1..], hand := Taken(l.spare[0], out, samples))
      else if memory then l.(buf := l.buf + [[]], cap := l.cap + [0], hand := Taken(|l.buf|, out, samples))
      else l
    case Fill(grown) =>
      var Taken(item, out, samples) := l.hand;
      if |samples| > l.cap[item] && !grown then l.(spare := [item] + l.spare, hand := Nothing)
      else
        l.(buf := l.buf[item := samples],
           cap := l.cap[item := if |samples| > l.cap[item] then |samples| else l.cap[item]],
           hand := Filled(item, out, samples))
    case Append =>
      var Filled(item, out, samples) := l.hand;
      var log := l.logs[out];
      l.(queue := l.queue + [Chunk(item, out)],
         logs := l.logs[out := log.(handed := log.handed + [samples])],
         hand := Nothing,
         helper := Signal(l.helper))
    case AskClose(out) =>
      l.(queue := l.queue + [Close(out)],
         logs := l.logs[out := l.logs[out].(closing := true)],
         helper := Signal(l.helper))
    case Turn =>
      var back := l.(spare := l.spent + l.spare, spent := []);
      if l.queue == [] then back.(helper := Parked(false))
      else back.(batch := l.queue, queue := [])
    case Wake => l.(helper := Working)
    case Serve =>
      var e := l.batch[0];
      var log := l.logs[e.out];
      if e.Chunk? then
        l.(batch := l.batch[1..], spent := l.spent + [e.item],
           logs := l.logs[e.out := log.(calls := log.calls + [l.buf[e.item]])])
      else if !log.finished then l.(logs := l.logs[e.out := log.(finished := true)])
      else l.(batch := l.batch[1..], logs := l.logs[e.out := log.(closed := true)])
  }

  /** A chunk can be delivered: into a spare item if there is one and into a new one, without a
      buffer yet, if there is memory; its buffer is large enough or can be grown. */
  predicate Carries(l: Lane, samples: Samples, memory: bool, grown: bool) {
    if l.spare != [] then grown || (l.spare[0] < |l.cap| && |samples| <= l.cap[l.spare[0]])
    else memory && grown
  }

  lemma TakenThenFilled(l: Lane, out: nat, samples: Samples, memory: bool, grown: bool)
    requires Wellformed(l) && Enabled(l, Take(out, samples, memory))
    requires Wellformed(Apply(l, Take(out, samples, memory)))
    ensures var t := Apply(l, Take(out, samples, memory));
      Carries(l, samples, memory, grown) <==> t.hand.Taken? && Apply(t, Fill(grown)).hand.Filled?
  {
  }

  // ----------------------------------------------------------------- invariant

  /** Everything queued and not yet run, oldest first. */
  function Pipe(l: Lane): seq<Entry> {
    l.batch + l.queue
  }

  function ItemsOf(es: seq<Entry>): multiset<nat> {
    if es == [] then multiset{}
    else (if es[0].Chunk? then multiset{es[0].item} else multiset{}) + ItemsOf(es[1..])
  }

  function InHand(h: Hand): multiset<nat> {
    if h == Nothing then multiset{} else multiset{h.item}
  }

  /** Every place an item can be, with multiplicity. */
  function Items(l: Lane): multiset<nat> {
    Places(l.spare, Pipe(l), l.spent, l.hand)
  }

  function Places(spare: seq<nat>, pipe: seq<Entry>, spent: seq<nat>, hand: Hand): multiset<nat> {
    multiset(spare) + ItemsOf(pipe) + multiset(spent) + InHand(hand)
  }

  function AllItems(n: nat): multiset<nat> {
    if n == 0 then multiset{} else AllItems(n - 1) + multiset{n - 1}
  }

  /** The contents of the queued chunks of stream `out`, in queue order. */
  function Payload(es: seq<Entry>, buf: seq<Samples>, out: nat): seq<Samples> {
    if es == [] then []
    else (if es[0].Chunk? && es[0].out == out && es[0].item < |buf| then [buf[es[0].item]] else [])
         + Payload(es[1..], buf, out)
  }

  /** A stream's end is queued once, after all its chunks, and nothing follows it. */
  ghost predicate EndInv(pipe: seq<Entry>, logs: seq<Log>) {
    && (forall i | 0 <= i < |pipe| :: pipe[i].out < |logs| && !logs[pipe[i].out].closed)
    && (forall i | 0 <= i < |pipe| && pipe[i].Close? :: logs[pipe[i].out].closing)
    && (forall i, j | 0 <= i < j < |pipe| && pipe[i].Close? :: pipe[j].out != pipe[i].out)
    && (forall o | 0 <= o < |logs| && logs[o].closing && !logs[o].closed :: Close(o) in pipe)
    && (forall o | 0 <= o < |logs| :: (logs[o].closed ==> logs[o].finished) && (logs[o].finished ==> logs[o].closing))
    && (forall i | 0 <= i < |pipe| && pipe[i].Chunk? :: !logs[pipe[i].out].finished)
  }

  ghost predicate OrderInv(pipe: seq<Entry>, buf: seq<Samples>, logs: seq<Log>) {
    forall o | 0 <= o < |logs| :: logs[o].handed == logs[o].calls + Payload(pipe, buf, o)
  }

  ghost predicate HandInv(l: Lane) {
    && |l.cap| == |l.buf|
    && (l.hand != Nothing ==> l.hand.item < |l.buf| && Open(l, l.hand.out))
    && (l.hand.Filled? ==> l.buf[l.hand.item] == l.hand.samples)
  }

  ghost predicate HelperInv(l: Lane) {
    && (l.helper.Parked? ==> l.batch == [] && l.spent == [])
    && (l.helper == Parked(false) ==> l.queue == [])
  }

  ghost predicate Inv(l: Lane) {
    && Items(l) == AllItems(|l.buf|)
    && EndInv(Pipe(l), l.logs)
    && OrderInv(Pipe(l), l.buf, l.logs)
    && HandInv(l)
    && HelperInv(l)
  }

  // -------------------------------------------------------------------- lemmas

  lemma {:induction false} AllItemsHas(n: nat, x: nat)
    ensures AllItems(n)[x] == if x < n then 1 else 0
  {
    if n > 0 {
      AllItemsHas(n - 1, x);
    }
  }

  lemma {:induction false} ItemsOfAppend(a: seq<Entry>, e: Entry)
    ensures ItemsOf(a + [e]) == ItemsOf(a) + (if e.Chunk? then multiset{e.item} else multiset{})
  {
    if a == [] {
      assert a + [e] == [e];
      assert ItemsOf([e][1..]) == multiset{};
    } else {
      assert (a + [e])[1..] == a[1..] + [e];
      ItemsOfAppend(a[1..], e);
    }
  }

  lemma {:induction false} ItemsOfHas(es: seq<Entry>, i: nat)
    requires i < |es| && es[i].Chunk?
    ensures ItemsOf(es)[es[i].item] >= 1
  {
    if i > 0 {
      ItemsOfHas(es[1..], i - 1);
    }
  }

  lemma {:induction false} PayloadAppend(a: seq<Entry>, e: Entry, buf: seq<Samples>, out: nat)
    ensures Payload(a + [e], buf, out) ==
            Payload(a, buf, out) + (if e.Chunk? && e.out == out && e.item < |buf| then [buf[e.item]] else [])
  {
    if a == [] {
      assert a + [e] == [e];
      assert Payload([e][1..], buf, out) == [];
    } else {
      assert (a + [e])[1..] == a[1..] + [e];
      PayloadAppend(a[1..], e, buf, out);
    }
  }

  /** Rewriting an item that is not queued does not change what is queued. */
  lemma {:induction false} PayloadFrame(es: seq<Entry>, buf: seq<Samples>, item: nat, samples: Samples, out: nat)
    requires item < |buf| && ItemsOf(es)[item] == 0
    ensures Payload(es, buf[item := samples], out) == Payload(es, buf, out)
  {
    if es != [] {
      PayloadFrame(es[1..], buf, item, samples, out);
    }
  }

  lemma {:induction false} PayloadGrow(es: seq<Entry>, buf: seq<Samples>, more: Samples, out: nat)
    requires forall x | x in ItemsOf(es) :: x < |buf|
    ensures Payload(es, buf + [more], out) == Payload(es, buf, out)
  {
    if es != [] {
      if es[0].Chunk? {
        assert es[0].item in ItemsOf(es);
      }
      assert forall x | x in ItemsOf(es[1..]) :: x in ItemsOf(es);
      PayloadGrow(es[1..], buf, more, out);
    }
  }

  lemma QueuedItemsExist(l: Lane)
    requires Items(l) == AllItems(|l.buf|)
    ensures forall x | x in ItemsOf(Pipe(l)) :: x < |l.buf|
  {
    forall x | x in ItemsOf(Pipe(l)) ensures x < |l.buf| {
      AllItemsHas(|l.buf|, x);
      assert Items(l)[x] > 0;
    }
  }

  lemma InvWellformed(l: Lane)
    requires Inv(l)
    ensures Wellformed(l)
  {
    QueuedItemsExist(l);
    forall i | 0 <= i < |l.batch| ensures l.batch[i].out < |l.logs| && (l.batch[i].Chunk? ==> l.batch[i].item < |l.buf|) {
      assert Pipe(l)[i] == l.batch[i];
      if l.batch[i].Chunk? {
        ItemsOfHas(Pipe(l), i);
        assert Pipe(l)[i].item in ItemsOf(Pipe(l));
      }
    }
  }

  lemma FreshInv(streams: nat)
    ensures Inv(Fresh(streams))
  {
    assert Pipe(Fresh(streams)) == [];
  }

  lemma TakeItems(spare: seq<nat>, pipe: seq<Entry>, spent: seq<nat>, out: nat, samples: Samples)
    requires spare != []
    ensures Places(spare[1..], pipe, spent, Taken(spare[0], out, samples)) == Places(spare, pipe, spent, Nothing)
  {
    assert spare == [spare[0]] + spare[1..];
  }

  lemma SpareItem(spare: seq<nat>, pipe: seq<Entry>, spent: seq<nat>, hand: Hand, n: nat)
    requires spare != [] && Places(spare, pipe, spent, hand) == AllItems(n)
    ensures spare[0] < n
  {
    AllItemsHas(n, spare[0]);
    assert Places(spare, pipe, spent, hand)[spare[0]] > 0;
  }

  lemma NewItem(spare: seq<nat>, pipe: seq<Entry>, spent: seq<nat>, n: nat, out: nat, samples: Samples)
    requires Places(spare, pipe, spent, Nothing) == AllItems(n)
    ensures Places(spare, pipe, spent, Taken(n, out, samples)) == AllItems(n + 1)
  {
  }

  lemma RecycleInv(l: Lane, out: nat, samples: Samples)
    requires Inv(l) && l.hand == Nothing && l.spare != [] && Open(l, out)
    ensures Inv(l.(spare := l.spare[1..], hand := Taken(l.spare[0], out, samples)))
  {
    hide EndInv, OrderInv, Places, AllItems, ItemsOf, Payload;
    var r := l.(spare := l.spare[1..], hand := Taken(l.spare[0], out, samples));
    assert Pipe(r) == Pipe(l);
    TakeItems(l.spare, Pipe(l), l.spent, out, samples);
    SpareItem(l.spare, Pipe(l), l.spent, l.hand, |l.buf|);
  }

  lemma AllocateInv(l: Lane, out: nat, samples: Samples)
    requires Inv(l) && l.hand == Nothing && Open(l, out)
    ensures Inv(l.(buf := l.buf + [[]], cap := l.cap + [0], hand := Taken(|l.buf|, out, samples)))
  {
    hide EndInv, OrderInv, Places, AllItems, ItemsOf, Payload;
    var r := l.(buf := l.buf + [[]], cap := l.cap + [0], hand := Taken(|l.buf|, out, samples));
    assert Pipe(r) == Pipe(l);
    NewItem(l.spare, Pipe(l), l.spent, |l.buf|, out, samples);
    QueuedItemsExist(l);
    OrderGrow(Pipe(l), l.buf, l.logs);
  }

  lemma TakeInv(l: Lane, a: Step)
    requires Inv(l) && Wellformed(l) && a.Take? && Enabled(l, a)
    ensures Inv(Apply(l, a))
  {
    if l.spare != [] {
      RecycleInv(l, a.out, a.samples);
    } else if a.memory {
      AllocateInv(l, a.out, a.samples);
    }
  }

  lemma OrderGrow(pipe: seq<Entry>, buf: seq<Samples>, logs: seq<Log>)
    requires OrderInv(pipe, buf, logs) && forall x | x in ItemsOf(pipe) :: x < |buf|
    ensures OrderInv(pipe, buf + [[]], logs)
  {
    forall o | 0 <= o < |logs| ensures logs[o].handed == logs[o].calls + Payload(pipe, buf + [[]], o) {
      PayloadGrow(pipe, buf, [], o);
    }
  }

  lemma OrderFill(pipe: seq<Entry>, buf: seq<Samples>, logs: seq<Log>, item: nat, samples: Samples)
    requires OrderInv(pipe, buf, logs) && item < |buf| && ItemsOf(pipe)[item] == 0
    ensures OrderInv(pipe, buf[item := samples], logs)
  {
    forall o | 0 <= o < |logs| ensures logs[o].handed == logs[o].calls + Payload(pipe, buf[item := samples], o) {
      PayloadFrame(pipe, buf, item, samples, o);
    }
  }

  lemma HeldItems(spare: seq<nat>, pipe: seq<Entry>, spent: seq<nat>, item: nat, out: nat, samples: Samples, n: nat)
    requires Places(spare, pipe, spent, Taken(item, out, samples)) == AllItems(n)
    ensures ItemsOf(pipe)[item] == 0
    ensures Places(spare, pipe, spent, Filled(item, out, samples)) == AllItems(n)
    ensures Places([item] + spare, pipe, spent, Nothing) == AllItems(n)
  {
    AllItemsHas(n, item);
    assert Places(spare, pipe, spent, Taken(item, out, samples))[item] <= 1;
  }

  lemma FillInv(l: Lane, grown: bool)
    requires Inv(l) && Wellformed(l) && l.hand.Taken?
    ensures Inv(Apply(l, Fill(grown)))
  {
    hide EndInv, OrderInv, Places, AllItems, ItemsOf, Payload;
    var Taken(item, out, samples) := l.hand;
    var r := Apply(l, Fill(grown));
    assert Pipe(r) == Pipe(l);
    HeldItems(l.spare, Pipe(l), l.spent, item, out, samples, |l.buf|);
    OrderFill(Pipe(l), l.buf, l.logs, item, samples);
  }

  lemma OrderAppend(pipe: seq<Entry>, buf: seq<Samples>, logs: seq<Log>, item: nat, out: nat, samples: Samples)
    requires OrderInv(pipe, buf, logs) && item < |buf| && buf[item] == samples && out < |logs|
    ensures OrderInv(pipe + [Chunk(item, out)], buf, logs[out := logs[out].(handed := logs[out].handed + [samples])])
  {
    var logs' := logs[out := logs[out].(handed := logs[out].handed + [samples])];
    var pipe' := pipe + [Chunk(item, out)];
    forall o | 0 <= o < |logs'| ensures logs'[o].handed == logs'[o].calls + Payload(pipe', buf, o) {
      PayloadAppend(pipe, Chunk(item, out), buf, o);
      assert logs[o].handed == logs[o].calls + Payload(pipe, buf, o);
    }
  }

  lemma OrderClose(pipe: seq<Entry>, buf: seq<Samples>, logs: seq<Log>, out: nat)
    requires OrderInv(pipe, buf, logs) && out < |logs|
    ensures OrderInv(pipe + [Close(out)], buf, logs[out := logs[out].(closing := true)])
  {
    var logs' := logs[out := logs[out].(closing := true)];
    forall o | 0 <= o < |logs'| ensures logs'[o].handed == logs'[o].calls + Payload(pipe + [Close(out)], buf, o) {
      PayloadAppend(pipe, Close(out), buf, o);
      assert logs[o].handed == logs[o].calls + Payload(pipe, buf, o);
    }
  }

  lemma PayloadPop(pipe: seq<Entry>, buf: seq<Samples>, o: nat)
    requires pipe != [] && pipe[0].Chunk? && pipe[0].item < |buf|
    ensures Payload(pipe, buf, o) ==
      (if pipe[0].out == o then [buf[pipe[0].item]] + Payload(pipe[1..], buf, o) else Payload(pipe[1..], buf, o))
  {
    assert [] + Payload(pipe[1..], buf, o) == Payload(pipe[1..], buf, o);
  }

  lemma OrderPop(pipe: seq<Entry>, buf: seq<Samples>, logs: seq<Log>)
    requires OrderInv(pipe, buf, logs) && pipe != [] && pipe[0].Chunk? && pipe[0].item < |buf| && pipe[0].out < |logs|
    ensures var log := logs[pipe[0].out];
      OrderInv(pipe[1..], buf, logs[pipe[0].out := log.(calls := log.calls + [buf[pipe[0].item]])])
  {
    hide Payload;
    var out := pipe[0].out;
    var logs' := logs[out := logs[out].(calls := logs[out].calls + [buf[pipe[0].item]])];
    forall o | 0 <= o < |logs'| ensures logs'[o].handed == logs'[o].calls + Payload(pipe[1..], buf, o) {
      assert logs[o].handed == logs[o].calls + Payload(pipe, buf, o);
      PayloadPop(pipe, buf, o);
      if o == out {
        assert logs[o].calls + ([buf[pipe[0].item]] + Payload(pipe[1..], buf, o)) ==
               logs[o].calls + [buf[pipe[0].item]] + Payload(pipe[1..], buf, o);
      }
    }
  }

  /** A stream's progress towards its end does not touch its chunks. */
  lemma OrderFlags(pipe: seq<Entry>, buf: seq<Samples>, logs: seq<Log>, logs': seq<Log>)
    requires OrderInv(pipe, buf, logs) && |logs'| == |logs|
    requires forall o | 0 <= o < |logs| :: logs'[o].handed == logs[o].handed && logs'[o].calls == logs[o].calls
    ensures OrderInv(pipe, buf, logs')
    ensures pipe != [] && pipe[0].Close? ==> OrderInv(pipe[1..], buf, logs')
  {
    forall o | 0 <= o < |logs'| ensures logs'[o].handed == logs'[o].calls + Payload(pipe, buf, o) {
      assert logs[o].handed == logs[o].calls + Payload(pipe, buf, o);
    }
    if pipe != [] && pipe[0].Close? {
      forall o | 0 <= o < |logs'| ensures logs'[o].handed == logs'[o].calls + Payload(pipe[1..], buf, o) {
        assert Payload(pipe, buf, o) == [] + Payload(pipe[1..], buf, o);
        assert logs[o].handed == logs[o].calls + Payload(pipe, buf, o);
      }
    }
  }

  lemma PipeAppend(l: Lane, e: Entry)
    ensures l.batch + (l.queue + [e]) == Pipe(l) + [e]
  {
  }

  lemma AppendItems(spare: seq<nat>, pipe: seq<Entry>, spent: seq<nat>, hand: Hand)
    requires hand.Filled?
    ensures Places(spare, pipe + [Chunk(hand.item, hand.out)], spent, Nothing) == Places(spare, pipe, spent, hand)
  {
    ItemsOfAppend(pipe, Chunk(hand.item, hand.out));
  }

  lemma AppendInv(l: Lane)
    requires Inv(l) && Wellformed(l) && l.hand.Filled?
    ensures Inv(Apply(l, Append))
  {
    hide EndInv, OrderInv, Places, AllItems, ItemsOf, Payload;
    var r := Apply(l, Append);
    var e := Chunk(l.hand.item, l.hand.out);
    PipeAppend(l, e);
    assert Pipe(r) == Pipe(l) + [e];
    AppendItems(l.spare, Pipe(l), l.spent, l.hand);
    OrderAppend(Pipe(l), l.buf, l.logs, l.hand.item, l.hand.out, l.hand.samples);
    AppendEnd(Pipe(l), l.logs, e, r.logs);
  }

  /** Handing over one more chunk of a stream that has not been closed. */
  lemma AppendEnd(pipe: seq<Entry>, logs: seq<Log>, e: Entry, logs': seq<Log>)
    requires EndInv(pipe, logs) && e.Chunk? && e.out < |logs| && !logs[e.out].closing
    requires |logs'| == |logs|
    requires forall o | 0 <= o < |logs| ::
               logs'[o].closing == logs[o].closing && logs'[o].finished == logs[o].finished && logs'[o].closed == logs[o].closed
    ensures EndInv(pipe + [e], logs')
  {
    forall o | 0 <= o < |logs'| && logs'[o].closing && !logs'[o].closed ensures Close(o) in pipe + [e] {
      assert logs[o].closing && !logs[o].closed;
    }
  }

  lemma CloseItems(spare: seq<nat>, pipe: seq<Entry>, spent: seq<nat>, hand: Hand, out: nat)
    ensures Places(spare, pipe + [Close(out)], spent, hand) == Places(spare, pipe, spent, hand)
  {
    ItemsOfAppend(pipe, Close(out));
  }

  lemma AskCloseInv(l: Lane, out: nat)
    requires Inv(l) && Wellformed(l) && Enabled(l, AskClose(out))
    ensures Inv(Apply(l, AskClose(out)))
  {
    hide EndInv, OrderInv, Places, AllItems, ItemsOf, Payload;
    var r := Apply(l, AskClose(out));
    PipeAppend(l, Close(out));
    assert Pipe(r) == Pipe(l) + [Close(out)];
    CloseItems(l.spare, Pipe(l), l.spent, l.hand, out);
    OrderClose(Pipe(l), l.buf, l.logs, out);
    AskCloseEnd(Pipe(l), l.logs, out);
  }

  lemma AskCloseEnd(pipe: seq<Entry>, logs: seq<Log>, out: nat)
    requires EndInv(pipe, logs) && out < |logs| && !logs[out].closing
    ensures EndInv(pipe + [Close(out)], logs[out := logs[out].(closing := true)])
  {
    var logs' := logs[out := logs[out].(closing := true)];
    var pipe' := pipe + [Close(out)];
    forall o | 0 <= o < |logs'| && logs'[o].closing && !logs'[o].closed ensures Close(o) in pipe' {
      if o == out {
        assert pipe'[|pipe|] == Close(out);
      } else {
        assert logs[o].closing && !logs[o].closed;
      }
    }
  }

  lemma TurnItems(spare: seq<nat>, pipe: seq<Entry>, spent: seq<nat>, hand: Hand)
    ensures Places(spent + spare, pipe, [], hand) == Places(spare, pipe, spent, hand)
  {
  }

  lemma TurnInv(l: Lane)
    requires Inv(l) && Wellformed(l) && Enabled(l, Turn)
    ensures Inv(Apply(l, Turn))
  {
    hide EndInv, OrderInv, Places, AllItems, ItemsOf, Payload;
    var r := Apply(l, Turn);
    assert Pipe(r) == l.queue == Pipe(l);
    TurnItems(l.spare, Pipe(l), l.spent, l.hand);
    assert r.logs == l.logs && r.buf == l.buf;
  }

  lemma PopItems(spare: seq<nat>, pipe: seq<Entry>, spent: seq<nat>, hand: Hand)
    requires pipe != []
    ensures Places(spare, pipe[1..], if pipe[0].Chunk? then spent + [pipe[0].item] else spent, hand) ==
            Places(spare, pipe, spent, hand)
  {
  }

  lemma ServeChunkInv(l: Lane)
    requires Inv(l) && Wellformed(l) && Enabled(l, Serve) && l.batch[0].Chunk?
    ensures Inv(Apply(l, Serve))
  {
    hide EndInv, OrderInv, Places, AllItems, ItemsOf, Payload;
    var r := Apply(l, Serve);
    assert Pipe(l)[0] == l.batch[0] && Pipe(r) == Pipe(l)[1..];
    PopItems(l.spare, Pipe(l), l.spent, l.hand);
    OrderPop(Pipe(l), l.buf, l.logs);
    PopEnd(Pipe(l), l.logs, r.logs);
  }

  /** Running the first entry, when it is a chunk. */
  lemma PopEnd(pipe: seq<Entry>, logs: seq<Log>, logs': seq<Log>)
    requires EndInv(pipe, logs) && pipe != [] && pipe[0].Chunk? && |logs'| == |logs|
    requires forall o | 0 <= o < |logs| ::
               logs'[o].closing == logs[o].closing && logs'[o].finished == logs[o].finished && logs'[o].closed == logs[o].closed
    ensures EndInv(pipe[1..], logs')
  {
    var pipe' := pipe[1..];
    forall o | 0 <= o < |logs'| && logs'[o].closing && !logs'[o].closed ensures Close(o) in pipe' {
      assert Close(o) in pipe && pipe[0] != Close(o);
    }
  }

  lemma ServeFinishInv(l: Lane)
    requires Inv(l) && Wellformed(l) && Enabled(l, Serve) && l.batch[0].Close? && !l.logs[l.batch[0].out].finished
    ensures Inv(Apply(l, Serve))
  {
    hide EndInv, OrderInv, Places, AllItems, ItemsOf, Payload;
    var r := Apply(l, Serve);
    assert Pipe(l)[0] == l.batch[0] && Pipe(r) == Pipe(l);
    var out := l.batch[0].out;
    var logs := l.logs[out := l.logs[out].(finished := true)];
    FinishEnd(Pipe(l), l.logs, out);
    OrderFlags(Pipe(l), l.buf, l.logs, logs);
    assert r == l.(logs := logs);
  }

  lemma FinishEnd(pipe: seq<Entry>, logs: seq<Log>, out: nat)
    requires EndInv(pipe, logs) && pipe != [] && pipe[0] == Close(out) && out < |logs|
    ensures EndInv(pipe, logs[out := logs[out].(finished := true)])
  {
    var logs' := logs[out := logs[out].(finished := true)];
    forall o | 0 <= o < |logs'| && logs'[o].closing && !logs'[o].closed ensures Close(o) in pipe {
      assert logs[o].closing && !logs[o].closed;
    }
  }

  lemma ServeCloseInv(l: Lane)
    requires Inv(l) && Wellformed(l) && Enabled(l, Serve) && l.batch[0].Close? && l.logs[l.batch[0].out].finished
    ensures Inv(Apply(l, Serve))
  {
    hide EndInv, OrderInv, Places, AllItems, ItemsOf, Payload;
    var r := Apply(l, Serve);
    assert Pipe(l)[0] == l.batch[0] && Pipe(r) == Pipe(l)[1..];
    PopItems(l.spare, Pipe(l), l.spent, l.hand);
    var out := l.batch[0].out;
    var logs := l.logs[out := l.logs[out].(closed := true)];
    CloseEnd(Pipe(l), l.logs, out);
    OrderFlags(Pipe(l), l.buf, l.logs, logs);
    assert r == l.(batch := l.batch[1..], logs := logs);
  }

  lemma CloseEnd(pipe: seq<Entry>, logs: seq<Log>, out: nat)
    requires EndInv(pipe, logs) && pipe != [] && pipe[0] == Close(out) && out < |logs| && logs[out].finished
    ensures EndInv(pipe[1..], logs[out := logs[out].(closed := true)])
  {
    var logs' := logs[out := logs[out].(closed := true)];
    var pipe' := pipe[1..];
    forall i | 0 <= i < |pipe'| ensures pipe'[i].out < |logs'| && pipe'[i].out != out && !logs'[pipe'[i].out].closed {
      assert pipe'[i] == pipe[i + 1];
    }
    forall o | 0 <= o < |logs'| && logs'[o].closing && !logs'[o].closed ensures Close(o) in pipe' {
      assert logs[o].closing && !logs[o].closed;
      assert Close(o) in pipe && pipe[0] != Close(o);
    }
  }

  lemma StepInv(l: Lane, a: Step)
    requires Inv(l) && Wellformed(l) && Enabled(l, a)
    ensures Inv(Apply(l, a))
  {
    match a {
      case Take(_, _, _) => TakeInv(l, a);
      case Fill(grown) => FillInv(l, grown);
      case Append => AppendInv(l);
      case AskClose(out) => AskCloseInv(l, out);
      case Turn => TurnInv(l);
      case Wake => assert Pipe(Apply(l, a)) == Pipe(l);
      case Serve =>
        if l.batch[0].Chunk? {
          ServeChunkInv(l);
        } else if !l.logs[l.batch[0].out].finished {
          ServeFinishInv(l);
        } else {
          ServeCloseInv(l);
        }
    }
  }
}
