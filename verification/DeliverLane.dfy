/** The delivery lane as it is laid out: items with one `next` pointer each, which four lists take
    turns to use. The lane's queue and its spare items, the helper's batch and the items it is done
    with, and the item in the producer's hand share no item; each critical section relinks them in
    place and is proved to be one step of DeliveryLane. */
module DeliverLaneImpl {
  import opened DeliveryLane

  /** Where an item is: on one of the four lists, in the producer's hand, or at rest in its stream. */
  datatype Place = AtRest | Queued | Spare | Batch | Done | Held

  class Item {
    ghost const index: nat       // which of the chunk items, or whose close item
    ghost const embedded: bool   // part of a stream
    ghost var place: Place
    var next: Item?
    var out: int                 // the stream, -1 for none
    var pcm: Samples             // as many samples as the item was filled with
    var cap: nat
    var close: bool
    ghost var freed: bool

    constructor (ghost index: nat, ghost embedded: bool)
      ensures this.index == index && this.embedded == embedded && next == null && out == -1 && pcm == [] && cap == 0 && !close && !freed
      ensures place == AtRest
    {
      this.index, this.embedded, place := index, embedded, AtRest;
      next, out, pcm, cap, close, freed := null, -1, [], 0, false, false;
    }

    /** A chunk: grown if need be, and filled with a copy. */
    method Load(out: nat, samples: Samples)
      modifies `cap, `pcm, `out, `close, `next
      ensures cap == (if |samples| > old(cap) then |samples| else old(cap))
      ensures pcm == samples && this.out == out && !close && next == null
    {
      if |samples| > cap {
        cap := |samples|;
      }
      pcm := samples;
      this.out := out;
      close := false;
      next := null;
    }

    /** A stream's end. */
    method AskClose(out: nat)
      modifies `pcm, `out, `close, `next
      ensures pcm == [] && this.out == out && close && next == null
    {
      pcm := [];
      this.out := out;
      close := true;
      next := null;
    }

    /** An item that was run belongs to no stream and points nowhere. */
    method Reset()
      modifies `out, `next
      ensures out == -1 && next == null
    {
      out, next := -1, null;
    }

    /** The pointer may be followed only while the item's memory is there. */
    function Next(): Item?
      requires !freed
      reads this
    {
      next
    }
  }

  // ---------------------------------------------------------------------- lists

  ghost function NextIn(items: seq<Item>, i: nat): Item? {
    if i + 1 < |items| then items[i + 1] else null
  }

  /** From `first`, the pointers lead through exactly `items`. */
  ghost predicate Chain(first: Item?, items: seq<Item>)
    reads items`next
  {
    && first == (if items == [] then null else items[0])
    && forall i {:trigger items[i].next} :: 0 <= i < |items| ==> items[i].next == NextIn(items, i)
  }

  ghost function LastOf(items: seq<Item>): Item? {
    if items == [] then null else items[|items| - 1]
  }

  /** A list that ends meets no item twice. */
  lemma {:induction false} ChainApart(first: Item?, items: seq<Item>, i: nat, j: nat)
    requires Chain(first, items) && i < j < |items|
    ensures items[i] != items[j]
    decreases |items| - j
  {
    assert items[i].next == NextIn(items, i) && items[j].next == NextIn(items, j);
    if j + 1 < |items| {
      ChainApart(first, items, i + 1, j + 1);
    }
  }

  lemma FirstOf(first: Item?, items: seq<Item>)
    requires Chain(first, items)
    ensures if items == [] then first == null else first == items[0]
  {
  }

  lemma ChainTail(first: Item?, items: seq<Item>)
    requires Chain(first, items) && items != []
    ensures items[0] !in items[1..] && Chain(items[0].next, items[1..])
  {
    assert items[0].next == NextIn(items, 0);
    forall i | 0 <= i < |items| - 1
      ensures items[1..][i].next == NextIn(items[1..], i)
    {
      assert items[i + 1].next == NextIn(items, i + 1);
    }
    forall j | 0 < j < |items|
      ensures items[0] != items[j]
    {
      ChainApart(first, items, 0, j);
    }
  }

  lemma ChainPush(x: Item, first: Item?, items: seq<Item>)
    requires Chain(first, items) && x.next == first
    ensures Chain(x, [x] + items)
  {
    FirstOf(first, items);
    forall i | 0 <= i < |items| + 1
      ensures ([x] + items)[i].next == NextIn([x] + items, i)
    {
      if i > 0 {
        assert items[i - 1].next == NextIn(items, i - 1);
      }
    }
  }

  /** Links two lists, the second behind the first. */
  method Join(tail: Item?, second: Item?, ghost first: Item?, ghost a: seq<Item>, ghost b: seq<Item>)
    requires Chain(first, a) && tail == LastOf(a) && Chain(second, b) && (forall x | x in a :: x !in b)
    modifies (if tail == null then {} else {tail})`next
    ensures Chain(if tail == null then second else first, a + b)
    ensures Chain(second, b)
  {
    if tail != null {
      LastIsLast(first, a);
      assert tail in a;
      tail.next := second;
      Joined(first, a, second, b);
    } else {
      assert a + b == b;
    }
  }

  lemma LastIsLast(first: Item?, items: seq<Item>)
    requires Chain(first, items) && items != []
    ensures forall i :: 0 <= i < |items| - 1 ==> items[i] != items[|items| - 1]
  {
    forall i | 0 <= i < |items| - 1
      ensures items[i] != items[|items| - 1]
    {
      ChainApart(first, items, i, |items| - 1);
    }
  }

  lemma Joined(first: Item?, a: seq<Item>, second: Item?, b: seq<Item>)
    requires a != [] && first == a[0] && a[|a| - 1].next == second && Chain(second, b)
    requires forall i {:trigger a[i].next} :: 0 <= i < |a| - 1 ==> a[i].next == NextIn(a, i)
    ensures Chain(first, a + b)
  {
    FirstOf(second, b);
    forall i | 0 <= i < |a| + |b|
      ensures (a + b)[i].next == NextIn(a + b, i)
    {
      if i < |a| - 1 {
        assert a[i].next == NextIn(a, i);
      } else if i >= |a| {
        assert b[i - |a|].next == NextIn(b, i - |a|);
      }
    }
  }

  lemma One(x: Item)
    requires x.next == null
    ensures Chain(x, [x]) && LastOf([x]) == x
  {
  }

  ghost function EntryOf(x: Item): Entry
    reads x`out, x`close
  {
    var out: nat := if x.out < 0 then 0 else x.out;
    if x.close then Close(out) else Chunk(x.index, out)
  }

  ghost function Indices(items: seq<Item>): (r: seq<nat>) {
    seq(|items|, i requires 0 <= i < |items| => items[i].index)
  }

  ghost predicate InPool(pool: seq<Item>, x: Item) {
    x.index < |pool| && pool[x.index] == x
  }

  /** Something to run: a chunk item of the pool, or a stream's close item. */
  ghost predicate Runnable(pool: seq<Item>, closeItems: seq<Item>, x: Item, e: Entry)
    reads x`freed, x`out, x`close
  {
    && !x.freed && 0 <= x.out < |closeItems| && EntryOf(x) == e
    && if x.close then x == closeItems[x.out] else InPool(pool, x)
  }

  ghost predicate AllRunnable(pool: seq<Item>, closeItems: seq<Item>, items: seq<Item>, es: seq<Entry>)
    reads items`freed, items`out, items`close
  {
    |es| == |items| && forall i :: 0 <= i < |items| ==> Runnable(pool, closeItems, items[i], es[i])
  }

  ghost predicate AllAt(items: seq<Item>, p: Place)
    reads items`place
  {
    forall i :: 0 <= i < |items| ==> items[i].place == p
  }

  ghost predicate AllInPool(pool: seq<Item>, items: seq<Item>) {
    forall i :: 0 <= i < |items| ==> InPool(pool, items[i])
  }

  ghost predicate PoolOf(pool: seq<Item>, buf: seq<Samples>, cap: seq<nat>)
    reads pool`freed, pool`close, pool`pcm, pool`cap
  {
    && |buf| == |cap| == |pool|
    && forall i :: 0 <= i < |pool| ==>
         pool[i].index == i && !pool[i].embedded && !pool[i].freed && !pool[i].close
         && pool[i].pcm == buf[i] && pool[i].cap == cap[i]
  }

  lemma PoolOfMore(pool: seq<Item>, buf: seq<Samples>, cap: seq<nat>, x: Item)
    requires PoolOf(pool, buf, cap)
    requires x.index == |pool| && !x.embedded && !x.freed && !x.close && x.pcm == [] && x.cap == 0
    ensures PoolOf(pool + [x], buf + [[]], cap + [0]) && InPool(pool + [x], x)
  {
  }

  lemma NotAt(items: seq<Item>, p: Place, x: Item)
    requires AllAt(items, p) && x.place != p
    ensures x !in items
  {
  }

  /** What holds of all holds of all but the first. */
  lemma AllButFirst(pool: seq<Item>, items: seq<Item>, p: Place)
    requires items != []
    ensures AllAt(items, p) ==> items[0].place == p && AllAt(items[1..], p)
    ensures AllInPool(pool, items) ==> InPool(pool, items[0]) && AllInPool(pool, items[1..])
  {
  }

  lemma AllAndFirst(pool: seq<Item>, x: Item, items: seq<Item>, p: Place)
    ensures AllAt(items, p) && x.place == p ==> AllAt([x] + items, p)
    ensures AllInPool(pool, items) && InPool(pool, x) ==> AllInPool(pool, [x] + items)
  {
  }

  lemma RunnableMore(pool: seq<Item>, closeItems: seq<Item>, items: seq<Item>, es: seq<Entry>, x: Item, e: Entry)
    requires AllRunnable(pool, closeItems, items, es) && Runnable(pool, closeItems, x, e)
    ensures AllRunnable(pool, closeItems, items + [x], es + [e])
  {
    hide Runnable;
  }

  lemma AllAndLast(items: seq<Item>, x: Item, p: Place)
    requires AllAt(items, p) && x.place == p
    ensures AllAt(items + [x], p)
  {
  }

  lemma AllTogether(pool: seq<Item>, a: seq<Item>, b: seq<Item>, p: Place)
    ensures AllAt(a, p) && AllAt(b, p) ==> AllAt(a + b, p)
    ensures AllInPool(pool, a) && AllInPool(pool, b) ==> AllInPool(pool, a + b)
  {
  }

  lemma PlacesApart(a: seq<Item>, p: Place, b: seq<Item>, q: Place)
    requires AllAt(a, p) && AllAt(b, q) && p != q
    ensures forall x | x in a :: x !in b
  {
  }

  /** A whole list goes from one place to another, and no item of another list with it. */
  ghost method MoveAll(items: seq<Item>, from: Place, to: Place, others: seq<(seq<Item>, Place)>)
    requires AllAt(items, from)
    requires forall k :: 0 <= k < |others| ==> others[k].1 != from && AllAt(others[k].0, others[k].1)
    modifies items`place
    ensures AllAt(items, to) && forall k :: 0 <= k < |others| ==> AllAt(others[k].0, others[k].1)
  {
    forall x | x in items {
      x.place := to;
    }
    forall k | 0 <= k < |others|
      ensures AllAt(others[k].0, others[k].1)
    {
      forall i | 0 <= i < |others[k].0|
        ensures others[k].0[i].place == others[k].1
      {
        assert old(others[k].0[i].place) == others[k].1;
        assert others[k].0[i] !in items;
      }
    }
  }

  lemma RunnableButFirst(pool: seq<Item>, closeItems: seq<Item>, items: seq<Item>, es: seq<Entry>)
    requires items != [] && AllRunnable(pool, closeItems, items, es)
    ensures AllRunnable(pool, closeItems, items[1..], es[1..])
  {
    hide Runnable;
  }

  lemma PoolGrows(pool: seq<Item>, more: Item, closeItems: seq<Item>, items: seq<Item>, es: seq<Entry>)
    ensures AllInPool(pool, items) ==> AllInPool(pool + [more], items)
    ensures AllRunnable(pool, closeItems, items, es) ==> AllRunnable(pool + [more], closeItems, items, es)
  {
    hide EntryOf;
    if AllRunnable(pool, closeItems, items, es) {
      forall i | 0 <= i < |items|
        ensures Runnable(pool + [more], closeItems, items[i], es[i])
      {
        assert Runnable(pool, closeItems, items[i], es[i]);
      }
    }
  }

  class DeliverLane {
    // guarded by the lane's lock
    var head: Item?
    var tail: Item?
    var spare: Item?
    var idle: bool                    // the helper is parked
    // the helper's variables
    var it: Item?
    var spent: Item?
    var spentTail: Item?
    // the producer's variable
    var held: Item?
    // the close items embedded in the streams
    const closeItems: seq<Item>

    // what the pointers mean
    ghost var pool: seq<Item>         // every chunk item ever made
    ghost var queued: seq<Item>
    ghost var recycled: seq<Item>
    ghost var batched: seq<Item>
    ghost var done: seq<Item>
    ghost var queue: seq<Entry>
    ghost var batch: seq<Entry>
    ghost var buf: seq<Samples>
    ghost var cap: seq<nat>
    ghost var woken: bool
    ghost var hand: Hand
    ghost var logs: seq<Log>

    ghost function View(): Lane
      reads this
    {
      Lane(queue, Indices(recycled), batch, Indices(done), hand, if idle then Parked(woken) else Working, buf, cap, logs)
    }

    ghost predicate Pool()
      reads `pool, `buf, `cap, pool`freed, pool`close, pool`pcm, pool`cap
    {
      PoolOf(pool, buf, cap)
    }

    ghost predicate Embedded()
      reads `logs, closeItems`freed, closeItems`place
    {
      && |closeItems| == |logs|
      && forall o :: 0 <= o < |closeItems| ==>
           closeItems[o].index == o && closeItems[o].embedded
           && (!logs[o].closing ==> !closeItems[o].freed && closeItems[o].place == AtRest)
    }

    ghost predicate Linked()
      reads `head, `tail, `spare, `it, `spent, `spentTail, `queued, `batched, `recycled, `done
      reads queued`next, recycled`next, batched`next, done`next
    {
      && Chain(head, queued) && tail == LastOf(queued)
      && Chain(it, batched)
      && Chain(spare, recycled)
      && Chain(spent, done) && spentTail == LastOf(done)
    }

    ghost predicate Placed()
      reads `queued, `batched, `recycled, `done
      reads queued`place, recycled`place, batched`place, done`place
    {
      AllAt(queued, Queued) && AllAt(batched, Batch) && AllAt(recycled, Spare) && AllAt(done, Done)
    }

    ghost predicate Sound()
      reads `pool, `queued, `queue, `batched, `batch, `recycled, `done
      reads queued`freed, queued`out, queued`close, batched`freed, batched`out, batched`close
    {
      && AllRunnable(pool, closeItems, queued, queue)
      && AllRunnable(pool, closeItems, batched, batch)
      && AllInPool(pool, recycled) && AllInPool(pool, done)
    }

    ghost predicate Holding()
      reads `held, `hand, `pool, held
    {
      && (held == null <==> hand == Nothing)
      && (held != null ==> InPool(pool, held) && held.index == hand.item && held.place == Held)
      && (held != null && hand.Filled? ==> held.out == hand.out && !held.close && held.next == null)
    }

    ghost predicate Valid()
      reads this, pool, closeItems, queued, recycled, batched, done, held
    {
      Pool() && Embedded() && Linked() && Placed() && Sound() && Holding()
    }

    constructor (closeItems: seq<Item>)
      requires forall o :: 0 <= o < |closeItems| ==>
        closeItems[o].index == o && closeItems[o].embedded && !closeItems[o].freed && closeItems[o].place == AtRest
      ensures Valid() && View() == Fresh(|closeItems|) && this.closeItems == closeItems
    {
      head, tail, spare, idle := null, null, null, false;
      it, spent, spentTail, held := null, null, null, null;
      this.closeItems := closeItems;
      pool, queued, recycled, batched, done := [], [], [], [], [];
      queue, batch, buf, cap := [], [], [], [];
      woken, hand := false, Nothing;
      logs := seq(|closeItems|, _ => Log([], [], false, false, false));
    }

    /** Pops a recycled item. */
    method PopSpare(ghost out: nat, ghost samples: Samples) returns (item: Item)
      requires Valid() && spare != null && hand == Nothing
      modifies this`spare, this`recycled, this`held, this`hand, spare`place
      ensures Valid() && item == held && item == old(spare)
      ensures recycled == old(recycled)[1..] && hand == Taken(old(recycled)[0].index, out, samples)
    {
      hide PoolOf, Embedded, AllRunnable, AllAt, AllInPool, Chain, InPool;
      item := spare;
      FirstOf(spare, recycled);
      ChainTail(spare, recycled);
      AllButFirst(pool, recycled, Spare);
      InPoolMeans(item);
      AloneAt(item);
      spare := item.Next();
      recycled := recycled[1..];
      assert Linked();
      Grab(item, out, samples);
    }

    /** An item on no list goes into the producer's hand. */
    method Grab(item: Item, ghost out: nat, ghost samples: Samples)
      requires Placed() && InPool(pool, item)
      requires item !in queued && item !in batched && item !in recycled && item !in done
      modifies this`held, this`hand, item`place
      ensures Placed() && Holding() && item == held && hand == Taken(item.index, out, samples)
    {
      hide InPool;
      item.place := Held;
      held, hand := item, Taken(item.index, out, samples);
    }

    /** An item of the pool that is on one list is on no other, nor in a stream. */
    lemma AloneAt(x: Item)
      requires Placed() && !x.embedded
      ensures x.place != Queued ==> x !in queued
      ensures x.place != Batch ==> x !in batched
      ensures x.place != Spare ==> x !in recycled
      ensures x.place != Done ==> x !in done
      ensures Embedded() ==> x !in closeItems
    {
    }

    lemma InPoolMeans(x: Item)
      requires Pool() && InPool(pool, x)
      ensures !x.freed && !x.close && !x.embedded && x.pcm == buf[x.index] && x.cap == cap[x.index]
    {
    }

    lemma SameLength()
      requires Pool()
      ensures |buf| == |cap| == |pool|
    {
    }

    method NewItem(ghost out: nat, ghost samples: Samples) returns (item: Item)
      requires Valid() && hand == Nothing
      modifies this`pool, this`buf, this`cap, this`held, this`hand
      ensures Valid() && item == held && fresh(item) && |pool| == |old(pool)| + 1
      ensures buf == old(buf) + [[]] && cap == old(cap) + [0] && hand == Taken(|old(pool)|, out, samples)
    {
      hide Pool, Sound, Placed, Linked, Embedded, Holding, InPool;
      SameLength();
      item := new Item(|pool|, false);
      Enrol(item);
      assert Embedded();
      assert Linked();
      Grab(item, out, samples);
    }

    /** A new item counts among the lane's. */
    ghost method Enrol(item: Item)
      requires Pool() && Sound() && item.index == |pool| && !item.embedded
      requires !item.freed && !item.close && item.pcm == [] && item.cap == 0
      modifies this`pool, this`buf, this`cap
      ensures Pool() && Sound() && InPool(pool, item)
      ensures pool == old(pool) + [item] && buf == old(buf) + [[]] && cap == old(cap) + [0]
    {
      hide AllRunnable, AllInPool, PoolOf, InPool;
      PoolOfMore(pool, buf, cap, item);
      PoolGrows(pool, item, closeItems, queued, queue);
      PoolGrows(pool, item, closeItems, batched, batch);
      PoolGrows(pool, item, closeItems, recycled, []);
      PoolGrows(pool, item, closeItems, done, []);
      pool, buf, cap := pool + [item], buf + [[]], cap + [0];
    }

    /** What the pointers say about the lists. */
    lemma PointersMean()
      requires Valid()
      ensures (spare == null <==> recycled == []) && (spare != null ==> spare == recycled[0] && spare in pool)
      ensures (it == null <==> batched == []) && (it != null ==> it == batched[0])
      ensures (head == null <==> queued == []) && (tail == null <==> queued == [])
      ensures (held == null <==> hand == Nothing) && (held != null ==> held in pool && held.index == hand.item)
      ensures |buf| == |cap| == |pool| && |queue| == |queued| && |batch| == |batched| && |closeItems| == |logs|
    {
      FirstOf(spare, recycled);
      FirstOf(it, batched);
      FirstOf(head, queued);
      hide Chain, AllRunnable, PoolOf;
      Lengths();
    }

    lemma Lengths()
      requires Pool() && Sound() && Embedded()
      ensures |buf| == |cap| == |pool| && |queue| == |queued| && |batch| == |batched| && |closeItems| == |logs|
    {
    }

    /** Pops a recycled item, or makes one; none when there is no memory for it. */
    method TakeItem(out: nat, samples: Samples, memory: bool) returns (item: Item?)
      requires Valid() && Wellformed(View()) && Enabled(View(), Take(out, samples, memory))
      modifies this`spare, this`recycled, this`held, this`hand, this`pool, this`buf, this`cap, pool`place
      ensures Valid() && View() == Apply(old(View()), Take(out, samples, memory))
      ensures item == held && (item == null <==> hand == Nothing)
      ensures item != null ==> item in old(pool) || fresh(item)
    {
      hide Valid;
      PointersMean();
      if spare != null {
        item := PopSpare(out, samples);
        assert Indices(recycled) == Indices(old(recycled))[1..];
      } else if memory {
        item := NewItem(out, samples);
      } else {
        item := null;
      }
    }

    /** An item whose buffer cannot grow goes back in front of the spare ones. */
    method PutBack(item: Item)
      requires Valid() && item == held
      modifies this`spare, this`recycled, this`held, this`hand, item`next, item`place
      ensures Valid() && recycled == [item] + old(recycled) && hand == Nothing && held == null
    {
      hide PoolOf, Embedded, AllRunnable, AllAt, AllInPool, InPool, Linked;
      HeldAlone();
      PushSpare(item);
      held, hand, item.place := null, Nothing, Spare;
      AllAndFirst(pool, item, old(recycled), Spare);
    }

    method PushSpare(item: Item)
      requires Linked() && item !in queued && item !in batched && item !in recycled && item !in done
      modifies this`spare, this`recycled, item`next
      ensures Linked() && recycled == [item] + old(recycled)
    {
      hide Chain;
      item.next := spare;
      ChainPush(item, spare, recycled);
      spare, recycled := item, [item] + recycled;
    }

    /** The item in the producer's hand is nowhere else. */
    lemma HeldAlone()
      requires Valid() && held != null
      ensures held !in queued && held !in batched && held !in recycled && held !in done && held !in closeItems
      ensures InPool(pool, held) && held in pool && !held.freed
    {
      hide Linked, Sound;
      InPoolMeans(held);
      AloneAt(held);
    }

    /** Copies the caller's samples, so that its buffer is free again. */
    method Load(item: Item, out: nat, samples: Samples)
      requires Valid() && item == held && hand == Taken(item.index, out, samples)
      modifies this`buf, this`cap, this`hand, item`pcm, item`cap, item`out, item`close, item`next
      ensures Valid() && held == item && hand == Filled(item.index, out, samples)
      ensures |old(buf)| == |old(cap)| == |pool| && item.index < |pool| && buf == old(buf)[item.index := samples]
      ensures cap == old(cap)[item.index := if |samples| > old(cap)[item.index] then |samples| else old(cap)[item.index]]
    {
      hide PoolOf, Embedded, Placed, Sound, Linked;
      HeldAlone();
      FillBuffer(item, out, samples);
      hand := Filled(item.index, out, samples);
    }

    method FillBuffer(item: Item, out: nat, samples: Samples)
      requires Pool() && InPool(pool, item)
      modifies this`buf, this`cap, item`pcm, item`cap, item`out, item`close, item`next
      ensures Pool() && item.out == out && !item.close && item.next == null
      ensures |old(buf)| == |old(cap)| == |pool| && buf == old(buf)[item.index := samples]
      ensures cap == old(cap)[item.index := if |samples| > old(cap)[item.index] then |samples| else old(cap)[item.index]]
    {
      item.Load(out, samples);
      buf, cap := buf[item.index := samples], cap[item.index := item.cap];
    }

    method FillItem(item: Item, out: nat, samples: Samples, grown: bool) returns (ok: bool)
      requires Valid() && Wellformed(View()) && hand == Taken(item.index, out, samples) && item == held
      modifies this`spare, this`recycled, this`held, this`hand, this`buf, this`cap, item
      ensures Valid() && View() == Apply(old(View()), Fill(grown))
      ensures ok <==> hand.Filled?
      ensures ok ==> held == item
    {
      hide Valid;
      CapIs(item);
      if |samples| > item.cap && !grown {
        PutBack(item);
        assert Indices(recycled) == [item.index] + Indices(old(recycled));
        return false;
      }
      Load(item, out, samples);
      return true;
    }

    lemma CapIs(item: Item)
      requires Valid() && item == held
      ensures item.index < |cap| && item.cap == cap[item.index]
    {
      InPoolMeans(item);
    }

    lemma TailAlone()
      requires Placed() && tail == LastOf(queued) && tail != null
      ensures tail in queued && tail !in batched && tail !in recycled && tail !in done
    {
      assert tail.place == Queued;
      hide AllAt;
      NotAt(batched, Batch, tail);
      NotAt(recycled, Spare, tail);
      NotAt(done, Done, tail);
    }

    /** Behind the tail, or at the head of an empty queue. */
    method LinkLast(item: Item)
      requires Linked() && Placed() && item.next == null
      requires item !in queued && item !in batched && item !in recycled && item !in done
      modifies this`head, this`tail, this`queued, queued`next
      ensures Linked() && queued == old(queued) + [item]
    {
      hide Chain, AllAt;
      if tail != null {
        TailAlone();
      }
      One(item);
      Join(tail, item, head, queued, [item]);
      if tail == null {
        head := item;
      }
      tail := item;
      queued := queued + [item];
    }

    /** What both kinds of item have in common on their way into the queue; only a parked helper
        needs the wake-up. */
    method Enlist(item: Item, ghost e: Entry)
      requires Linked() && Placed() && Sound() && item.next == null && Runnable(pool, closeItems, item, e)
      requires item !in queued && item !in batched && item !in recycled && item !in done
      modifies this`head, this`tail, this`queued, this`queue, this`woken, item`place, queued`next
      ensures Linked() && Placed() && Sound() && item.place == Queued
      ensures queued == old(queued) + [item] && queue == old(queue) + [e] && woken == (old(woken) || idle)
    {
      hide AllAt, AllInPool, AllRunnable, Linked;
      LinkLast(item);
      RunnableMore(pool, closeItems, old(queued), queue, item, e);
      NoteEntry(e);
      assert Sound();
      item.place := Queued;
      AllAndLast(old(queued), item, Queued);
      assert Placed();
      assert Linked();
    }

    ghost method NoteEntry(e: Entry)
      modifies this`queue, this`woken
      ensures queue == old(queue) + [e] && woken == (old(woken) || idle)
    {
      queue, woken := queue + [e], woken || idle;
    }

    /** Links the filled item; the producer's hand is empty again. */
    method HandOver(item: Item, out: nat)
      requires Valid() && hand.Filled? && item == held && hand.out == out && out < |logs|
      modifies this`head, this`tail, this`queued, this`queue, this`woken, this`logs, this`held, this`hand
      modifies item`place, queued`next
      ensures Valid() && hand == Nothing && queue == old(queue) + [Chunk(item.index, out)] && woken == (old(woken) || idle)
      ensures |old(logs)| == |logs|
      ensures logs == old(logs)[out := old(logs)[out].(handed := old(logs)[out].handed + [old(hand).samples])]
    {
      hide Pool, Placed, Sound, Linked, Embedded;
      HeldAlone();
      Lengths();
      Enlist(item, Chunk(item.index, out));
      LetGo(out);
    }

    method LetGo(out: nat)
      requires out < |logs| && hand.Filled? && Embedded()
      modifies this`logs, this`held, this`hand
      ensures Embedded() && Holding() && hand == Nothing && |logs| == |old(logs)|
      ensures logs == old(logs)[out := old(logs)[out].(handed := old(logs)[out].handed + [old(hand).samples])]
    {
      logs := logs[out := logs[out].(handed := logs[out].handed + [hand.samples])];
      held, hand := null, Nothing;
    }

    method AppendItem(item: Item, out: nat)
      requires Valid() && Wellformed(View()) && hand.Filled? && item == held && hand.out == out
      modifies this, item`place, queued`next
      ensures Valid() && View() == Apply(old(View()), DeliveryLane.Append)
    {
      hide Valid;
      PointersMean();
      HandOver(item, out);
    }

    /** `stream_out_deliver_close` under the lock: the close item is part of the stream, so there is
        nothing to allocate and this cannot fail. */
    method HandOverClose(out: nat)
      requires Valid() && out < |logs| && !logs[out].closing && hand == Nothing
      modifies this`head, this`tail, this`queued, this`queue, this`woken, this`logs, queued`next
      modifies closeItems`pcm, closeItems`out, closeItems`close, closeItems`next, closeItems`place
      ensures Valid() && queue == old(queue) + [Close(out)] && woken == (old(woken) || idle)
      ensures |old(logs)| == |logs| && logs == old(logs)[out := old(logs)[out].(closing := true)]
    {
      hide Pool, Placed, Sound, Linked;
      CloseItemAlone(out);
      var item := closeItems[out];
      item.AskClose(out);
      Enlist(item, Close(out));
      logs := logs[out := logs[out].(closing := true)];
      assert Pool();
      assert Embedded();
      assert Holding();
    }

    lemma CloseItemAlone(out: nat)
      requires Valid() && out < |logs| && !logs[out].closing
      ensures out < |closeItems|
      ensures var x := closeItems[out];
        !x.freed && x !in queued && x !in batched && x !in recycled && x !in done && x !in pool && x != held
    {
      hide Linked, Sound;
      var x := closeItems[out];
      assert x.place == AtRest;
      NotAt(queued, Queued, x);
      NotAt(batched, Batch, x);
      NotAt(recycled, Spare, x);
      NotAt(done, Done, x);
    }

    method DeliverClose(out: nat)
      requires Valid() && Wellformed(View()) && Enabled(View(), AskClose(out))
      modifies this, queued`next
      modifies closeItems`pcm, closeItems`out, closeItems`close, closeItems`next, closeItems`place
      ensures Valid() && View() == Apply(old(View()), AskClose(out))
    {
      hide Valid;
      HandOverClose(out);
    }

    // ------------------------------------------------------------------- the helper

    /** No two lists share an item. */
    lemma ListsApart()
      requires Placed()
      ensures forall x | x in queued :: x !in batched && x !in recycled && x !in done
      ensures forall x | x in done :: x !in queued && x !in batched && x !in recycled
      ensures forall x | x in batched :: x !in queued && x !in recycled && x !in done
    {
      hide AllAt;
      PlacesApart(queued, Queued, batched, Batch);
      PlacesApart(queued, Queued, recycled, Spare);
      PlacesApart(queued, Queued, done, Done);
      PlacesApart(batched, Batch, recycled, Spare);
      PlacesApart(batched, Batch, done, Done);
      PlacesApart(recycled, Spare, done, Done);
    }

    /** An item on a list is in nobody's hand and not a resting close item. */
    lemma ListedMeans()
      requires Valid()
      ensures held != null ==> held !in queued && held !in done && held !in batched
      ensures forall o :: 0 <= o < |closeItems| && o < |logs| && !logs[o].closing ==>
        closeItems[o] !in queued && closeItems[o] !in done && closeItems[o] !in batched
    {
      hide Linked, Sound, Pool;
      if held != null {
        HeldAlone();
      }
    }

    /** The items the helper is done with, in front of the spare ones. */
    method SpliceSpent()
      requires Linked() && forall x | x in done :: x !in queued && x !in batched && x !in recycled
      modifies this`spare, this`recycled, this`spent, this`spentTail, this`done, done`next
      ensures Linked() && recycled == old(done) + old(recycled) && done == []
    {
      hide Chain, AllAt, LastOf;
      NoItems(pool, closeItems, Done);
      LastIsIn(done);
      Join(spentTail, spare, spent, done, recycled);
      if spentTail != null {
        spare := spent;
      }
      recycled, done, spent, spentTail := done + recycled, [], null, null;
      assert Chain(head, queued);
      assert Chain(it, batched);
    }

    method Recycle()
      requires Valid()
      modifies this`spare, this`recycled, this`spent, this`spentTail, this`done, done`next, done`place
      ensures Valid() && recycled == old(done) + old(recycled) && done == []
    {
      hide Pool, AllAt, AllInPool, AllRunnable, Linked, Holding, Embedded;
      ListsApart();
      ListedMeans();
      CallDone();
      AllTogether(pool, done, recycled, Spare);
      SpliceSpent();
      NoItems(pool, closeItems, Done);
    }

    ghost method CallDone()
      requires Valid()
      modifies done`place
      ensures Pool() && Embedded() && Linked() && Sound() && Holding()
      ensures AllAt(queued, Queued) && AllAt(batched, Batch) && AllAt(recycled, Spare) && AllAt(done, Spare)
    {
      hide Pool, AllAt, Sound, Linked;
      ListedMeans();
      ghost var others := [(queued, Queued), (batched, Batch), (recycled, Spare)];
      MoveAll(done, Done, Spare, others);
      assert AllAt(others[0].0, Queued) && AllAt(others[1].0, Batch) && AllAt(others[2].0, Spare);
    }

    /** The whole queue becomes the batch: four pointers. */
    method TakeAll()
      requires Valid() && it == null
      modifies this`head, this`tail, this`it, this`queued, this`batched, this`queue, this`batch, queued`place
      ensures Valid() && batch == old(queue) && queue == [] && queued == []
      ensures batched == old(queued) && it == old(head)
    {
      hide Pool, AllAt, AllInPool, AllRunnable, Linked, Holding, Embedded;
      CallBatch();
      TakePointers();
      NoItems(pool, closeItems, Queued);
    }

    method TakePointers()
      requires Linked()
      modifies this`head, this`tail, this`it, this`queued, this`batched, this`queue, this`batch
      ensures Linked() && batched == old(queued) && queued == [] && batch == old(queue) && queue == [] && it == old(head)
    {
      hide Chain, LastOf;
      NoItems(pool, closeItems, Queued);
      it, head, tail := head, null, null;
      QueueIsBatch();
    }

    ghost method QueueIsBatch()
      modifies this`queued, this`batched, this`queue, this`batch
      ensures batched == old(queued) && queued == [] && batch == old(queue) && queue == []
    {
      batched, batch, queued, queue := queued, queue, [], [];
    }

    ghost method CallBatch()
      requires Valid()
      modifies queued`place
      ensures Pool() && Embedded() && Linked() && Sound() && Holding()
      ensures AllAt(queued, Batch) && AllAt(recycled, Spare) && AllAt(done, Done)
    {
      hide Pool, AllAt, Sound, Linked;
      ListsApart();
      ListedMeans();
      ghost var others := [(recycled, Spare), (done, Done)];
      MoveAll(queued, Queued, Batch, others);
      assert AllAt(others[0].0, Spare) && AllAt(others[1].0, Done);
    }

    /** What the helper is done with goes back in front of the spare items, then the whole queue is
        taken at once, or the helper waits. */
    method TakeBatch()
      requires Valid() && batch == []
      modifies this`spare, this`recycled, this`spent, this`spentTail, this`done, this`idle, this`woken
      modifies this`head, this`tail, this`it, this`queued, this`batched, this`queue, this`batch
      modifies done`next, done`place, queued`place
      ensures Valid() && it == old(head)
      ensures recycled == old(done) + old(recycled) && done == [] && queue == [] && batch == old(queue)
      ensures if old(queue) == [] then idle && !woken else idle == old(idle) && woken == old(woken)
    {
      hide Valid;
      PointersMean();
      Recycle();
      PointersMean();
      if head == null {
        Park();
      } else {
        TakeAll();
      }
    }

    /** The helper's critical section. */
    method Turn()
      requires Valid() && Wellformed(View()) && Enabled(View(), DeliveryLane.Turn)
      modifies this, done`next, done`place, queued`place
      ensures Valid() && View() == Apply(old(View()), DeliveryLane.Turn)
      ensures it == old(head)
    {
      hide Valid, Indices;
      TakeBatch();
      IndicesTogether(old(done), old(recycled));
    }

    method Park()
      requires Valid()
      modifies this`idle, this`woken
      ensures Valid() && idle && !woken
    {
      hide Pool, Embedded, Linked, Placed, Sound, Holding;
      idle, woken := true, false;
    }

    /** Out of the condition wait. */
    method WakeUp()
      requires Valid() && Wellformed(View()) && idle
      modifies this`idle
      ensures Valid() && View() == Apply(old(View()), DeliveryLane.Wake)
    {
      hide Pool, Embedded, Linked, Placed, Sound, Holding;
      idle := false;
    }

    /** What the first item of the batch is. */
    lemma FirstOfBatch()
      requires Valid() && batch != []
      ensures it != null && batched != [] && it == batched[0] && it in batched && !it.freed
      ensures batch[0] == EntryOf(it) && 0 <= it.out < |logs| && batch[0].out == it.out
      ensures it !in queued && it !in recycled && it !in done && it != held
      ensures !it.close ==> it in pool && InPool(pool, it) && batch[0] == Chunk(it.index, it.out) && it.pcm == buf[it.index]
      ensures it.close ==> it.out < |closeItems| && it == closeItems[it.out] && batch[0] == Close(it.out)
    {
      PointersMean();
      assert Runnable(pool, closeItems, batched[0], batch[0]);
      hide Linked, Sound;
      ListsApart();
      ListedMeans();
      if !it.close {
        InPoolMeans(it);
      }
    }

    /** The next pointer is read while the item is sure to be there. */
    method PopBatch()
      requires Valid() && batch != []
      modifies this`it, this`batched, this`batch
      ensures Valid() && batched == old(batched)[1..] && batch == old(batch)[1..]
      ensures old(it) != null && old(it) !in batched
    {
      hide Pool, Embedded, Holding, AllRunnable, AllAt, AllInPool, Chain;
      FirstOfBatch();
      ChainTail(it, batched);
      AllButFirst(pool, batched, Batch);
      RunnableButFirst(pool, closeItems, batched, batch);
      it, batched, batch := it.Next(), batched[1..], batch[1..];
    }

    /** A chunk item that has been run joins those the helper is done with. */
    method LinkSpent(item: Item)
      requires Linked() && Placed() && item !in queued && item !in batched && item !in recycled && item !in done
      modifies this`spent, this`spentTail, this`done, item`out, item`next, done`next
      ensures Linked() && done == old(done) + [item]
    {
      hide Chain, AllAt, LastOf;
      item.Reset();
      if spentTail != null {
        SpentTailAlone();
      }
      LastOfMore(done, item);
      One(item);
      Join(spentTail, item, spent, done, [item]);
      if spentTail == null {
        spent := item;
      }
      spentTail, done := item, done + [item];
      assert Chain(head, queued);
      assert Chain(it, batched);
      assert Chain(spare, recycled);
    }

    lemma SpentTailAlone()
      requires Placed() && spentTail == LastOf(done) && spentTail != null
      ensures spentTail in done && spentTail !in batched && spentTail !in recycled && spentTail !in queued
    {
      assert spentTail.place == Done;
      hide AllAt;
      NotAt(batched, Batch, spentTail);
      NotAt(recycled, Spare, spentTail);
      NotAt(queued, Queued, spentTail);
    }

    method Spend(item: Item)
      requires Valid() && item in pool && item.place == Batch && item !in batched && item != held && InPool(pool, item)
      modifies this`spent, this`spentTail, this`done, item`out, item`next, item`place, done`next
      ensures Valid() && done == old(done) + [item]
    {
      hide Pool, AllRunnable, AllAt, AllInPool, Linked;
      Strays(item);
      ListedMeans();
      LinkSpent(item);
      item.place := Done;
      AllAndLast(old(done), item, Done);
      AllTogether(pool, old(done), [item], Done);
      OneInPool(pool, item);
    }

    /** An item that has just left the batch is on no list. */
    lemma Strays(item: Item)
      requires Valid() && item in pool && item.place == Batch
      ensures item !in queued && item !in recycled && item !in done && item !in closeItems
    {
      hide Linked, Sound;
      AloneAt(item);
    }

    /** What the helper has offered a stream, and how far its end has got. */
    ghost method NoteCall(out: nat, samples: Samples)
      requires Valid() && out < |logs|
      modifies this`logs
      ensures Valid() && |logs| == |old(logs)|
      ensures logs == old(logs)[out := old(logs)[out].(calls := old(logs)[out].calls + [samples])]
    {
      hide Pool, Linked, Placed, Sound, Holding;
      logs := logs[out := logs[out].(calls := logs[out].calls + [samples])];
    }

    /** A chunk item is run: its stream is offered the samples, and it joins those done with. */
    method RunChunk() returns (out: nat, samples: Samples)
      requires Valid() && batch != [] && batch[0].Chunk?
      modifies this`it, this`batched, this`batch, this`spent, this`spentTail, this`done, this`logs
      modifies batched`out, batched`next, batched`place, done`next
      ensures Valid() && |old(batch)| > 0 && old(batch)[0] == Chunk(old(batch)[0].item, out)
      ensures old(batch)[0].item < |buf| && samples == buf[old(batch)[0].item]
      ensures batch == old(batch)[1..] && Indices(done) == Indices(old(done)) + [old(batch)[0].item]
      ensures |old(batched)| > 0 && batched == old(batched)[1..] && done == old(done) + [old(batched)[0]]
      ensures out < |old(logs)| == |logs|
      ensures logs == old(logs)[out := old(logs)[out].(calls := old(logs)[out].calls + [samples])]
    {
      hide Valid, Indices;
      PointersMean();
      FirstOfBatch();
      BatchIsAtBatch();
      var item := it;
      PopBatch();
      out, samples := item.out, item.pcm;
      Spend(item);
      IndicesTogether(old(done), [item]);
      OneIndex(item);
      NoteCall(out, samples);
    }

    method ServeChunk() returns (out: nat, samples: Samples)
      requires Valid() && Wellformed(View()) && Enabled(View(), DeliveryLane.Serve) && batch[0].Chunk?
      modifies this`it, this`batched, this`batch, this`spent, this`spentTail, this`done, this`logs
      modifies batched`out, batched`next, batched`place, done`next
      ensures Valid() && View() == Apply(old(View()), DeliveryLane.Serve)
      ensures |old(batched)| > 0 && batched == old(batched)[1..] && done == old(done) + [old(batched)[0]]
    {
      hide Valid, Indices;
      out, samples := RunChunk();
    }

    lemma BatchIsAtBatch()
      requires Valid() && batch != []
      ensures it != null && it.place == Batch
    {
      PointersMean();
      hide Linked, Sound, Pool;
    }

    /** The memory of a close item goes with its stream. */
    method Retire(item: Item, out: nat)
      requires Valid() && out < |logs| && out < |closeItems| && item == closeItems[out] && logs[out].closing
      requires item !in queued && item !in batched && item !in recycled && item !in done && item != held
      modifies this`logs, item`freed
      ensures Valid() && item.freed && |logs| == |old(logs)|
      ensures logs == old(logs)[out := old(logs)[out].(closed := true)]
    {
      hide PoolOf, Linked, Placed, Sound;
      CloseItemsNotInPool();
      item.freed := true;
      logs := logs[out := logs[out].(closed := true)];
    }

    lemma CloseItemsNotInPool()
      requires Valid()
      ensures forall o :: 0 <= o < |closeItems| ==> closeItems[o] !in pool && closeItems[o] != held
    {
      hide Linked, Placed, Sound;
      if held != null {
        InPoolMeans(held);
      }
    }

    /** The end of a stream: first `finish` ... */
    method ServeFinish()
      requires Valid() && Wellformed(View()) && Enabled(View(), DeliveryLane.Serve) && batch[0].Close?
      requires batch[0].out < |logs| && !logs[batch[0].out].finished
      modifies this`logs
      ensures Valid() && View() == Apply(old(View()), DeliveryLane.Serve)
    {
      hide Pool, Linked, Placed, Sound, Holding, Indices;
      FirstOfBatch();
      var out: nat := it.out;
      logs := logs[out := logs[out].(finished := true)];
    }

    /** ... then `release`. What follows in the batch is read before, for the item goes with the
        stream it is part of. */
    method ServeRelease() returns (released: Item)
      requires Inv(View()) && Valid() && Wellformed(View()) && Enabled(View(), DeliveryLane.Serve)
      requires batch[0].Close? && batch[0].out < |logs| && logs[batch[0].out].finished
      modifies this`it, this`batched, this`batch, this`logs, batched`freed
      ensures Valid() && View() == Apply(old(View()), DeliveryLane.Serve)
      ensures released == old(it) && released.freed && |old(batched)| > 0 && batched == old(batched)[1..]
    {
      hide Valid, Inv, Indices;
      FirstOfBatch();
      CloseIsAsked(View());
      released := it;
      PopBatch();
      var out: nat := released.out;
      Retire(released, out);
    }

    /** Every step of DeliveryLane is one of these. `out`, `samples` and `finished` are what the
        thread that makes it knows: whom its item is for, and whether it has called `finish`. */
    method Perform(a: Step, out: nat, samples: Samples, finished: bool)
      requires Valid() && Inv(View()) && Wellformed(View()) && Enabled(View(), a)
      requires hand != Nothing ==> hand.out == out && hand.samples == samples
      requires a == DeliveryLane.Serve ==> finished == (batch[0].Close? && batch[0].out < |logs| && logs[batch[0].out].finished)
      modifies this, pool, closeItems, queued, batched, done
      ensures Valid() && View() == Apply(old(View()), a)
    {
      hide Valid, Inv, Apply;
      PointersMean();
      match a {
        case Take(o, chunk, memory) => var _ := TakeItem(o, chunk, memory);
        case Fill(grown) => var _ := FillItem(held, out, samples, grown);
        case Append => AppendItem(held, out);
        case AskClose(o) => DeliverClose(o);
        case Turn => Turn();
        case Wake => WakeUp();
        case Serve =>
          FirstOfBatch();
          if !it.close {
            var _, _ := ServeChunk();
          } else if !finished {
            ServeFinish();
          } else {
            var _ := ServeRelease();
          }
      }
    }

    // ------------------------------------------------------------ with nobody in between

    /** `stream_out_deliver` past its check of `dead`: it is refused exactly for want of an item or of
        room in it, and then nothing was handed over. */
    method Deliver(out: nat, samples: Samples, memory: bool, grown: bool) returns (rc: int)
      requires Valid() && Inv(View()) && Enabled(View(), Take(out, samples, memory))
      modifies this, pool, queued`next
      ensures Valid() && Inv(View()) && |logs| == |old(logs)| && out < |logs|
      ensures rc == if old(Carries(View(), samples, memory, grown)) then 0 else -1
      ensures rc == 0 ==> logs[out].handed == old(logs)[out].handed + [samples] && |queue| == |old(queue)| + 1
      ensures rc != 0 ==> logs == old(logs) && queue == old(queue)
    {
      hide Valid, Inv, Wellformed, Indices, Carries;
      InvWellformed(View());
      StepInv(View(), Take(out, samples, memory));
      InvWellformed(Apply(View(), Take(out, samples, memory)));
      TakenThenFilled(View(), out, samples, memory, grown);
      PointersMean();
      var item := TakeItem(out, samples, memory);
      if item == null { return -1; }
      PointersMean();
      InvWellformed(View());
      StepInv(View(), Fill(grown));
      var ok := FillItem(item, out, samples, grown);
      if !ok { return -1; }
      InvWellformed(View());
      StepInv(View(), DeliveryLane.Append);
      AppendItem(item, out);
      return 0;
    }

    /** One item of the batch. */
    method ServeOne()
      requires Valid() && Inv(View()) && it != null && !idle && NoneHalfClosed(logs)
      modifies this`it, this`batched, this`batch, this`spent, this`spentTail, this`done, this`logs
      modifies batched`out, batched`next, batched`place, batched`freed, done`next
      ensures Valid() && Inv(View()) && |logs| == |old(logs)|
      ensures |old(batched)| > 0 && batched == old(batched)[1..]
      ensures done == old(done) || done == old(done) + [old(batched)[0]]
      ensures |old(batch)| > 0 && batch == old(batch)[1..]
      ensures old(batch)[0].Chunk? ==> old(batch)[0].item < |buf|
      ensures forall o | 0 <= o < |logs| :: logs[o] == Ran(old(logs)[o], o, old(batch)[0], buf)
    {
      hide Valid, Inv, Wellformed, Indices;
      PointersMean();
      FirstOfBatch();
      ghost var before := View();
      InvWellformed(before);
      FrontItem(before);
      FrontIsOpen(before);
      StepInv(before, DeliveryLane.Serve);
      if !it.close {
        var _, _ := ServeChunk();
      } else {
        ServeFinish();
        InvWellformed(View());
        StepInv(View(), DeliveryLane.Serve);
        var _ := ServeRelease();
      }
    }

    /** The helper's loop over one batch. */
    method ServeBatch() returns (ghost mine: seq<Entry>)
      requires Valid() && Inv(View()) && done == [] && !idle && NoneHalfClosed(logs)
      modifies this, batched
      ensures Valid() && Inv(View()) && it == null && batch == [] && mine == old(batch)
      ensures |logs| == |old(logs)|
      ensures forall o | 0 <= o < |logs| :: logs[o].calls == old(logs)[o].calls + Payload(mine, buf, o)
      ensures forall o | 0 <= o < |logs| :: logs[o].closed <==> old(logs)[o].closed || Close(o) in mine
    {
      hide Valid, Inv, Wellformed, Indices, Served, NoneHalfClosed;
      mine := batch;
      PointersMean();
      NoneServed(logs, mine, buf);
      while it != null
        invariant Valid() && Inv(View()) && !idle && buf == old(buf) && NoneHalfClosed(logs)
        invariant it == null <==> batch == []
        invariant forall i :: 0 <= i < |batched| ==> batched[i] in old(batched)
        invariant forall i :: 0 <= i < |done| ==> done[i] in old(batched)
        invariant Served(old(logs), logs, mine, batch, buf)
        decreases |batch|
      {
        ghost var before := View();
        ServeOne();
        OneServed(old(logs), mine, before, View());
        PointersMean();
      }
      AllServed(old(logs), logs, mine, buf);
    }
  }

  /** Of a batch `mine`, all but `rest` has been run. */
  ghost predicate Served(was: seq<Log>, now: seq<Log>, mine: seq<Entry>, rest: seq<Entry>, buf: seq<Samples>) {
    && |now| == |was|
    && (forall o | 0 <= o < |now| :: now[o].calls + Payload(rest, buf, o) == was[o].calls + Payload(mine, buf, o))
    && (forall o | 0 <= o < |now| :: (now[o].closed || Close(o) in rest) <==> (was[o].closed || Close(o) in mine))
  }

  /** No stream is between `finish` and `release`. */
  ghost predicate NoneHalfClosed(logs: seq<Log>) {
    forall o | 0 <= o < |logs| && !logs[o].closed :: !logs[o].finished
  }

  lemma NoneServed(logs: seq<Log>, mine: seq<Entry>, buf: seq<Samples>)
    ensures Served(logs, logs, mine, mine, buf)
  {
  }

  lemma AllServed(was: seq<Log>, now: seq<Log>, mine: seq<Entry>, buf: seq<Samples>)
    requires Served(was, now, mine, [], buf)
    ensures |now| == |was|
    ensures forall o | 0 <= o < |now| :: now[o].calls == was[o].calls + Payload(mine, buf, o)
    ensures forall o | 0 <= o < |now| :: now[o].closed <==> was[o].closed || Close(o) in mine
  {
    forall o | 0 <= o < |now|
      ensures now[o].calls == was[o].calls + Payload(mine, buf, o)
    {
      assert Payload([], buf, o) == [] && now[o].calls + [] == now[o].calls;
    }
  }

  lemma OneServed(was: seq<Log>, mine: seq<Entry>, before: Lane, after: Lane)
    requires before.batch != [] && (before.batch[0].Chunk? ==> before.batch[0].item < |before.buf|)
    requires after.batch == before.batch[1..] && after.buf == before.buf && |after.logs| == |before.logs|
    requires forall o | 0 <= o < |after.logs| :: after.logs[o] == Ran(before.logs[o], o, before.batch[0], before.buf)
    requires Served(was, before.logs, mine, before.batch, before.buf) && NoneHalfClosed(before.logs)
    ensures Served(was, after.logs, mine, after.batch, after.buf) && NoneHalfClosed(after.logs)
  {
    Progress(before, after, before.batch);
    hide Payload;
  }

  lemma OneIndex(x: Item)
    ensures Indices([x]) == [x.index]
  {
  }

  lemma CloseIsAsked(l: Lane)
    requires Inv(l) && l.batch != [] && l.batch[0].Close?
    ensures l.batch[0].out < |l.logs| && l.logs[l.batch[0].out].closing
  {
    assert Pipe(l)[0] == l.batch[0];
  }

  lemma OneInPool(pool: seq<Item>, x: Item)
    requires InPool(pool, x)
    ensures AllInPool(pool, [x])
  {
  }

  lemma LastOfMore(items: seq<Item>, x: Item)
    ensures LastOf(items + [x]) == x
  {
  }

  lemma LastIsIn(items: seq<Item>)
    ensures LastOf(items) != null <==> items != []
    ensures LastOf(items) != null ==> LastOf(items) in items
  {
  }

  lemma IndicesTogether(a: seq<Item>, b: seq<Item>)
    ensures Indices(a + b) == Indices(a) + Indices(b) && Indices([]) == []
  {
  }

  lemma NoItems(pool: seq<Item>, closeItems: seq<Item>, p: Place)
    ensures Chain(null, []) && LastOf([]) == null
    ensures AllAt([], p) && AllRunnable(pool, closeItems, [], []) && AllInPool(pool, [])
  {
  }

  lemma FrontItem(l: Lane)
    requires Wellformed(l) && l.batch != []
    ensures l.batch[0].Chunk? ==> l.batch[0].item < |l.buf|
  {
  }

  lemma FrontIsOpen(l: Lane)
    requires Inv(l) && l.batch != []
    ensures l.batch[0].out < |l.logs| && !l.logs[l.batch[0].out].closed
  {
    assert Pipe(l)[0] == l.batch[0];
  }

  /** The log of stream `o` after the entry `e` has been run. */
  function Ran(log: Log, o: nat, e: Entry, buf: seq<Samples>): Log
    requires e.Chunk? ==> e.item < |buf|
  {
    if e.out != o then log
    else if e.Chunk? then log.(calls := log.calls + [buf[e.item]])
    else log.(finished := true, closed := true)
  }

  lemma RanCalls(log: Log, o: nat, it: seq<Entry>, buf: seq<Samples>)
    requires it != [] && (it[0].Chunk? ==> it[0].item < |buf|)
    ensures Ran(log, o, it[0], buf).calls + Payload(it[1..], buf, o) == log.calls + Payload(it, buf, o)
  {
    var tail := Payload(it[1..], buf, o);
    if it[0].Chunk? && it[0].out == o {
      assert log.calls + [buf[it[0].item]] + tail == log.calls + ([buf[it[0].item]] + tail);
    } else {
      assert [] + tail == tail;
    }
  }

  lemma RanClosed(log: Log, o: nat, it: seq<Entry>, buf: seq<Samples>)
    requires it != [] && (it[0].Chunk? ==> it[0].item < |buf|)
    ensures (Ran(log, o, it[0], buf).closed || Close(o) in it[1..]) <==> (log.closed || Close(o) in it)
  {
    assert it == [it[0]] + it[1..];
  }

  /** One entry run: what is left of the batch plus what was called stays the same. */
  lemma Progress(before: Lane, after: Lane, it: seq<Entry>)
    requires it != [] && (it[0].Chunk? ==> it[0].item < |before.buf|)
    requires after.buf == before.buf && |after.logs| == |before.logs|
    requires forall o | 0 <= o < |after.logs| :: after.logs[o] == Ran(before.logs[o], o, it[0], before.buf)
    ensures forall o | 0 <= o < |after.logs| ::
              after.logs[o].calls + Payload(it[1..], after.buf, o) == before.logs[o].calls + Payload(it, before.buf, o)
    ensures forall o | 0 <= o < |after.logs| ::
              (after.logs[o].closed || Close(o) in it[1..]) <==> (before.logs[o].closed || Close(o) in it)
  {
    hide Payload, Ran;
    forall o | 0 <= o < |after.logs|
      ensures after.logs[o].calls + Payload(it[1..], after.buf, o) == before.logs[o].calls + Payload(it, before.buf, o)
      ensures (after.logs[o].closed || Close(o) in it[1..]) <==> (before.logs[o].closed || Close(o) in it)
    {
      RanCalls(before.logs[o], o, it, before.buf);
      RanClosed(before.logs[o], o, it, before.buf);
    }
  }
}
