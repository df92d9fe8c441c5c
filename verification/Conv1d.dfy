/** The causal convolution as it is called: the choice among the algorithms and the cache of
    packed taps. */
module Conv1d {
  import opened Options
  import opened Sums
  import opened CausalConv
  import opened ConvByMatrix

  const SIZE_MAX: nat := 0xFFFF_FFFF_FFFF_FFFF
  const INT_MAX: nat := 0x7FFF_FFFF
  const FLOAT_BYTES := 4
  const ENTRY_BYTES := 40

  // --------------------------------------------------------------------- the cache

  datatype Entry = Entry(weight: nat, inChannels: nat, outChannels: nat, kernel: nat, packed: seq<real>)

  predicate Matches(e: Entry, weight: nat, s: Shape) {
    e.weight == weight && e.inChannels == s.inChannels && e.outChannels == s.outChannels && e.kernel == s.kernel
  }

  ghost predicate Right(e: Entry, weights: seq<real>) {
    TapMatrices(e.inChannels, e.outChannels, e.kernel, weights, e.packed)
  }

  /** What is out of the program's hands: whether the cache is turned off, and whether there is
      memory for packed taps, for a longer list of them, for columns and for one tap. */
  datatype Luck = Luck(cacheOff: bool, memory: bool, listMemory: bool, columnMemory: bool, tapMemory: bool)

  /** There is nothing to pack. */
  predicate NoTaps(s: Shape) {
    s.inChannels == 0 || s.outChannels == 0 || s.kernel == 0
  }

  /** The packed taps would not fit the address space. */
  predicate TooManyTaps(s: Shape) {
    s.kernel * s.outChannels * s.inChannels * FLOAT_BYTES > SIZE_MAX
  }

  /** Room for how many entries comes after room for `capacity` of them; 0 where there is none. */
  function NextCapacity(capacity: nat): nat {
    if capacity == 0 then 4 else if capacity > SIZE_MAX / 2 then 0 else capacity * 2
  }

  /** A list with room for `capacity` entries can get more. */
  predicate Extensible(capacity: nat) {
    0 < NextCapacity(capacity) <= SIZE_MAX / ENTRY_BYTES
  }

  /** Packed taps by the address of the weights and their sizes. */
  class TapCache {
    var entries: seq<Entry>
    var capacity: nat

    /** `memory` is what the weights at an address are; they do not change. */
    ghost predicate Valid(memory: nat -> seq<real>)
      reads this
    {
      |entries| <= capacity && forall i :: 0 <= i < |entries| ==> Right(entries[i], memory(entries[i].weight))
    }

    constructor ()
      ensures entries == [] && capacity == 0
    {
      entries, capacity := [], 0;
    }

    method Lookup(weight: nat, s: Shape) returns (taps: Option<seq<real>>)
      ensures taps.Some? ==> exists i :: 0 <= i < |entries| && Matches(entries[i], weight, s) && entries[i].packed == taps.value
      ensures taps.None? ==> forall i :: 0 <= i < |entries| ==> !Matches(entries[i], weight, s)
    {
      for i := 0 to |entries|
        invariant forall j :: 0 <= j < i ==> !Matches(entries[j], weight, s)
      {
        if Matches(entries[i], weight, s) {
          return Some(entries[i].packed);
        }
      }
      return None;
    }

    predicate Has(weight: nat, s: Shape)
      reads this`entries
    {
      exists i :: 0 <= i < |entries| && Matches(entries[i], weight, s)
    }

    /** The cache is turned off, there is nothing to pack, or what is not in the cache yet does not
        fit the address space or finds no memory, for itself or for one more entry. */
    predicate Unavailable(luck: Luck, weight: nat, s: Shape)
      reads this`entries, this`capacity
    {
      || luck.cacheOff || NoTaps(s)
      || (!Has(weight, s) &&
          (TooManyTaps(s) || !luck.memory || (|entries| == capacity && !(Extensible(capacity) && luck.listMemory))))
    }

    /** The packed taps of these weights, found or packed now, or none exactly when they are
        unavailable. Nothing already in the cache changes, and what was just handed out is found
        there the next time. */
    method CachedTaps(luck: Luck, weight: nat, s: Shape, d: Operands, ghost memory: nat -> seq<real>)
      returns (taps: Option<seq<real>>)
      requires Valid(memory) && Fits(s, d) && d.weight == memory(weight)
      modifies this
      ensures Valid(memory) && old(entries) <= entries
      ensures taps.Some? ==> AllTaps(s, d, taps.value)
      ensures taps.Some? ==> Has(weight, s)
      ensures taps.None? ==> entries == old(entries)
      ensures taps.None? <==> old(Unavailable(luck, weight, s))
    {
      hide TapMatrices, TooManyTaps;
      if luck.cacheOff || NoTaps(s) {
        return None;
      }
      taps := Lookup(weight, s);
      if taps.Some? {
        return;
      }
      if TooManyTaps(s) || !luck.memory {
        return None;
      }
      var packed := PackAll(s, d);
      if |entries| == capacity {
        if !Extensible(capacity) || !luck.listMemory {
          return None;
        }
        capacity := NextCapacity(capacity);
      }
      entries := entries + [Entry(weight, s.inChannels, s.outChannels, s.kernel, packed)];
      assert Matches(entries[|entries| - 1], weight, s);
      return Some(packed);
    }
  }

  method PackAll(s: Shape, d: Operands) returns (packed: seq<real>)
    requires Fits(s, d)
    ensures AllTaps(s, d, packed)
  {
    hide TapMatrix, At;
    var perTap := s.outChannels * s.inChannels;
    var wk := new real[s.kernel * perTap];
    for k := 0 to s.kernel
      invariant forall q: nat :: q < k ==>
        TapMatrix(s.inChannels, s.outChannels, s.kernel, d.weight, wk[..], At(q, perTap, 0), q)
    {
      TapsApart(k, perTap, s.kernel);
      ghost var was := wk[..];
      PackTap(s.inChannels, s.outChannels, s.kernel, d.weight, k, wk, At(k, perTap, 0));
      forall q: nat | q < k
        ensures TapMatrix(s.inChannels, s.outChannels, s.kernel, d.weight, wk[..], At(q, perTap, 0), q)
      {
        TapsApart(q, perTap, k);
        TapStays(s, d, was, wk[..], At(q, perTap, 0), q);
      }
    }
    packed := wk[..];
  }

  lemma TapsApart(q: nat, perTap: nat, k: nat)
    requires q < k
    ensures At(q, perTap, 0) + perTap <= k * perTap == At(k, perTap, 0)
  {
    RowsApart(q, k, perTap);
  }

  lemma TapStays(s: Shape, d: Operands, was: seq<real>, now: seq<real>, from: nat, k: nat)
    requires TapMatrix(s.inChannels, s.outChannels, s.kernel, d.weight, was, from, k)
    requires |was| == |now|
    requires forall x :: 0 <= x < from + s.outChannels * s.inChannels ==> now[x] == was[x]
    ensures TapMatrix(s.inChannels, s.outChannels, s.kernel, d.weight, now, from, k)
  {
    hide At;
    AtsWithin(s.outChannels, s.inChannels);
  }

  lemma Cell(x: nat, width: nat)
    requires width > 0
    ensures At(x / width, width, x % width) == x && x % width < width
  {
  }

  lemma RowWithin(x: nat, width: nat, rows: nat)
    requires width > 0 && x < rows * width
    ensures x / width < rows
  {
    Cell(x, width);
    RowsApart(rows, x / width, width);
  }

  /** The convolution is one function: two buffers that hold it are equal, so any two of the
      algorithms that succeed leave the same output. */
  lemma AlgorithmsAgree(s: Shape, d: Operands, a: seq<real>, b: seq<real>)
    requires Holds(s, d, a) && Holds(s, d, b)
    ensures a == b
  {
    hide At, Result;
    if s.length > 0 {
      forall x | 0 <= x < |a|
        ensures a[x] == b[x]
      {
        Cell(x, s.length);
        RowWithin(x, s.length, s.outChannels);
        assert Get(a, At(x / s.length, s.length, x % s.length)) == Get(b, At(x / s.length, s.length, x % s.length));
      }
    }
  }

  // ----------------------------------------------------------------- the whole call

  predicate Small(s: Shape) {
    s.inChannels <= INT_MAX && s.outChannels <= INT_MAX && s.length <= INT_MAX
  }

  /** `mynah_conv1d_causal` on the processor. Whichever algorithm it takes, with whatever in the
      workspace and the cache, success means that the output is the convolution; and it succeeds
      unless there is no backend, nothing to compute, no memory, or too large a kernel. */
  method Conv1dCausal(
    s: Shape, d: Operands, tapGemms: bool, backend: bool, luck: Luck, weight: nat, cache: TapCache?,
    workspace: array?<real>, output: array<real>, ghost memory: nat -> seq<real>)
    returns (ok: bool)
    requires Fits(s, d) && s.kernel >= 1 && output.Length == s.outChannels * s.length
    requires d.weight == memory(weight) && (cache != null ==> cache.Valid(memory))
    requires workspace != output
    modifies output, workspace, cache
    ensures ok ==> Holds(s, d, output[..])
    ensures !ok ==>
      Small(s) && (!backend || s.inChannels == 0 || s.outChannels == 0 || s.length == 0 || !luck.tapMemory ||
                   s.outChannels * s.inChannels * FLOAT_BYTES > SIZE_MAX)
    ensures cache != null ==> cache.Valid(memory)
  {
    hide Holds, Seeded, Fits, TapMatrices, Right;
    assert Fits(s, d);
    SeedBias(s, d, output);
    if !Small(s) {
      Direct(s, d, output);
      return true;
    }
    if s.inChannels > 0 && !tapGemms && s.inChannels * s.kernel <= INT_MAX &&
       s.inChannels * s.kernel * s.length * FLOAT_BYTES <= SIZE_MAX {
      var count := s.inChannels * s.kernel * s.length;
      var columns := workspace;
      if columns == null || columns.Length < count {
        columns := null;
        if luck.columnMemory {
          columns := new real[count];
        }
      }
      if columns != null {
        var failed := ByColumns(s, d, backend, columns, output);
        return !failed;
      }
    }
    if s.inChannels == 0 || s.outChannels * s.inChannels * FLOAT_BYTES > SIZE_MAX {
      return false;
    }
    var cached: Option<seq<real>> := None;
    if cache != null {
      cached := cache.CachedTaps(luck, weight, s, d, memory);
    }
    if cached.None? && !luck.tapMemory {
      return false;
    }
    var wk := new real[s.outChannels * s.inChannels];
    var failed := ByTaps(s, d, backend, cached, wk, output);
    return !failed;
  }
}
