/** The causal convolution by matrix products: of unfolded columns at once, or tap by tap with the
    taps packed afresh or taken from a cache. */
module ConvByMatrix {
  import opened Options
  import opened Sums
  import opened CausalConv

  // -------------------------------------------------------------- unfolded columns

  function Delayed(x: Wave, back: nat, i: nat, t: nat): real {
    if t < back then 0.0 else x(i, t - back)
  }

  /** Row (i, k) of the columns is channel `i` as tap `k` sees it. */
  ghost predicate Unfolded(s: Shape, d: Operands, columns: seq<real>) {
    |columns| >= s.inChannels * s.kernel * s.length &&
    forall i: nat, k: nat, t: nat :: i < s.inChannels && k < s.kernel && t < s.length ==>
      Get(columns, At(At(i, s.kernel, k), s.length, t)) ==
        Delayed(WaveOf(d.input, s.length), Shift(k, s.kernel, s.dilation), i, t)
  }

  method FillColumn(s: Shape, d: Operands, columns: array<real>, row: nat, i: nat, k: nat)
    requires Fits(s, d) && i < s.inChannels && k < s.kernel
    requires row < s.inChannels * s.kernel && columns.Length >= s.inChannels * s.kernel * s.length
    modifies columns
    ensures forall t: nat :: t < s.length ==>
      Get(columns[..], At(row, s.length, t)) == Delayed(WaveOf(d.input, s.length), Shift(k, s.kernel, s.dilation), i, t)
    ensures forall r: nat, t: nat :: r != row && t < s.length ==>
      Get(columns[..], At(r, s.length, t)) == Get(old(columns[..]), At(r, s.length, t))
  {
    var shift := Shift(k, s.kernel, s.dilation);
    var zeros := if shift < s.length then shift else s.length;
    AtsWithin(s.inChannels * s.kernel, s.length);
    AtsWithin(s.inChannels, s.length);
    hide At, Shift;
    for t := 0 to s.length
      invariant forall c: nat :: c < t ==>
        Get(columns[..], At(row, s.length, c)) == Delayed(WaveOf(d.input, s.length), shift, i, c)
      invariant forall r: nat, c: nat :: r != row && c < s.length ==>
        Get(columns[..], At(r, s.length, c)) == Get(old(columns[..]), At(r, s.length, c))
    {
      AtApart(row, s.length, t);
      columns[At(row, s.length, t)] := if t < zeros then 0.0 else d.input[At(i, s.length, t - shift)];
    }
  }

  /** Whatever the workspace held before, every cell the product reads has been written. */
  method Unfold(s: Shape, d: Operands, columns: array<real>)
    requires Fits(s, d) && columns.Length >= s.inChannels * s.kernel * s.length
    modifies columns
    ensures Unfolded(s, d, columns[..])
  {
    hide At, Shift, Delayed;
    AtsWithin(s.inChannels, s.kernel);
    for i := 0 to s.inChannels
      invariant forall j: nat, q: nat, t: nat :: j < i && q < s.kernel && t < s.length ==>
        Get(columns[..], At(At(j, s.kernel, q), s.length, t)) ==
          Delayed(WaveOf(d.input, s.length), Shift(q, s.kernel, s.dilation), j, t)
    {
      for k := 0 to s.kernel
        invariant forall j: nat, q: nat, t: nat :: j < i && q < s.kernel && t < s.length ==>
          Get(columns[..], At(At(j, s.kernel, q), s.length, t)) ==
            Delayed(WaveOf(d.input, s.length), Shift(q, s.kernel, s.dilation), j, t)
        invariant forall q: nat, t: nat :: q < k && t < s.length ==>
          Get(columns[..], At(At(i, s.kernel, q), s.length, t)) ==
            Delayed(WaveOf(d.input, s.length), Shift(q, s.kernel, s.dilation), i, t)
      {
        AtApart(i, s.kernel, k);
        FillColumn(s, d, columns, At(i, s.kernel, k), i, k);
      }
    }
  }

  lemma WeightAddress(s: Shape, o: nat, i: nat, k: nat)
    ensures At(o, s.inChannels * s.kernel, At(i, s.kernel, k)) == At(At(o, s.inChannels, i), s.kernel, k)
  {
    AtNested(o, s.inChannels, i, s.kernel, k);
  }

  lemma ColumnsDot(s: Shape, d: Operands, columns: seq<real>, o: nat, t: nat)
    requires Unfolded(s, d, columns) && t < s.length
    ensures var inner := s.inChannels * s.kernel;
      Dot(d.weight, 0, inner, o, columns, s.length, t, inner) == Rows(s.inChannels, s.kernel, Terms(s, d, o, t))
  {
    hide At, Rows, Sum;
    var inner := s.inChannels * s.kernel;
    var f := DotTerms(d.weight, 0, inner, o, columns, s.length, t);
    var g := Terms(s, d, o, t);
    forall i: nat, k: nat | i < s.inChannels && k < s.kernel
      ensures f(At(i, s.kernel, k)) == g(i, k)
    {
      WeightAddress(s, o, i, k);
    }
    SumFlat(s.inChannels, s.kernel, f, g);
  }

  lemma Reassociate(a: nat, b: nat, c: nat)
    ensures a * b * c == a * (b * c)
  {
  }

  method ByColumns(s: Shape, d: Operands, backend: bool, columns: array<real>, output: array<real>)
    returns (failed: bool)
    requires Fits(s, d) && Seeded(s, d, output[..])
    requires columns.Length >= s.inChannels * s.kernel * s.length && columns != output
    modifies columns, output
    ensures failed == (!backend || s.outChannels == 0 || s.length == 0 || s.inChannels * s.kernel == 0)
    ensures !failed ==> Holds(s, d, output[..])
  {
    hide At, Dot, Unfolded, Terms, Rows;
    Unfold(s, d, columns);
    var inner := s.inChannels * s.kernel;
    ghost var seeded := output[..];
    Reassociate(s.outChannels, s.inChannels, s.kernel);
    AtsWithin(s.outChannels, inner);
    AtsWithin(inner, s.length);
    failed := Sgemm(backend, s.outChannels, s.length, inner, d.weight, 0, inner, columns[..], s.length, output, 0, s.length);
    if !failed {
      forall o: nat, t: nat | o < s.outChannels && t < s.length
        ensures Get(output[..], At(o, s.length, t)) == Result(s, d, o, t)
      {
        ColumnsDot(s, d, columns[..], o, t);
        ResultIs(s, d, o, t);
      }
    }
  }

  lemma ResultIs(s: Shape, d: Operands, o: nat, t: nat)
    ensures Result(s, d, o, t) == Get(d.bias, o) + Rows(s.inChannels, s.kernel, Terms(s, d, o, t))
  {
  }

  // -------------------------------------------------------------------- tap by tap

  /** Tap `k` of the weights as a matrix, `from` into a buffer. */
  ghost predicate TapMatrix(
    inChannels: nat, outChannels: nat, kernel: nat, weight: seq<real>, taps: seq<real>, from: nat, k: nat)
  {
    from + outChannels * inChannels <= |taps| &&
    forall o: nat, i: nat :: o < outChannels && i < inChannels ==>
      Get(taps, from + At(o, inChannels, i)) == Get(weight, At(At(o, inChannels, i), kernel, k))
  }

  /** Every tap, one after the other. */
  ghost predicate TapMatrices(inChannels: nat, outChannels: nat, kernel: nat, weight: seq<real>, taps: seq<real>) {
    forall k: nat :: k < kernel ==>
      TapMatrix(inChannels, outChannels, kernel, weight, taps, At(k, outChannels * inChannels, 0), k)
  }

  ghost predicate TapAt(s: Shape, d: Operands, taps: seq<real>, from: nat, k: nat) {
    TapMatrix(s.inChannels, s.outChannels, s.kernel, d.weight, taps, from, k)
  }

  ghost predicate AllTaps(s: Shape, d: Operands, taps: seq<real>) {
    TapMatrices(s.inChannels, s.outChannels, s.kernel, d.weight, taps)
  }

  method PackTap(
    inChannels: nat, outChannels: nat, kernel: nat, weight: seq<real>, k: nat, wk: array<real>, from: nat)
    requires |weight| == outChannels * inChannels * kernel && k < kernel && from + outChannels * inChannels <= wk.Length
    modifies wk
    ensures TapMatrix(inChannels, outChannels, kernel, weight, wk[..], from, k)
    ensures forall x :: 0 <= x < from ==> wk[x] == old(wk[x])
  {
    hide At;
    AtsWithin(outChannels, inChannels);
    for o := 0 to outChannels
      invariant forall r: nat, i: nat :: r < o && i < inChannels ==>
        Get(wk[..], from + At(r, inChannels, i)) == Get(weight, At(At(r, inChannels, i), kernel, k))
      invariant forall x :: 0 <= x < from ==> wk[x] == old(wk[x])
    {
      for i := 0 to inChannels
        invariant forall r: nat, c: nat :: r < o && c < inChannels ==>
          Get(wk[..], from + At(r, inChannels, c)) == Get(weight, At(At(r, inChannels, c), kernel, k))
        invariant forall c: nat :: c < i ==>
          Get(wk[..], from + At(o, inChannels, c)) == Get(weight, At(At(o, inChannels, c), kernel, k))
        invariant forall x :: 0 <= x < from ==> wk[x] == old(wk[x])
      {
        AtApart(o, inChannels, i);
        AtWithin(At(o, inChannels, i), kernel, k, outChannels * inChannels);
        wk[from + At(o, inChannels, i)] := weight[At(At(o, inChannels, i), kernel, k)];
      }
    }
  }

  lemma TapDot(s: Shape, d: Operands, taps: seq<real>, from: nat, k: nat, o: nat, t: nat)
    requires TapAt(s, d, taps, from, k) && k < s.kernel && o < s.outChannels && t < s.length
    ensures var back := Shift(k, s.kernel, s.dilation);
      ColumnSum(s.inChannels, k, Terms(s, d, o, t)) ==
        if t < back then 0.0 else Dot(taps, from, s.inChannels, o, d.input, s.length, t - back, s.inChannels)
  {
    hide At, ColumnSum, Sum, Shift;
    var back := Shift(k, s.kernel, s.dilation);
    var f := Terms(s, d, o, t);
    if t < back {
      ColumnZero(s.inChannels, k, f);
    } else {
      ColumnIs(s.inChannels, k, f, DotTerms(taps, from, s.inChannels, o, d.input, s.length, t - back));
    }
  }

  /** The first `k` taps have been added. */
  ghost predicate TapsAdded(s: Shape, d: Operands, out: seq<real>, k: nat) {
    |out| == s.outChannels * s.length &&
    forall o: nat, t: nat :: o < s.outChannels && t < s.length ==>
      Get(out, At(o, s.length, t)) == Get(d.bias, o) + Columns(s.inChannels, k, Terms(s, d, o, t))
  }

  lemma TapSkipped(s: Shape, d: Operands, out: seq<real>, k: nat)
    requires TapsAdded(s, d, out, k) && k < s.kernel && Shift(k, s.kernel, s.dilation) >= s.length
    ensures TapsAdded(s, d, out, k + 1)
  {
    hide At, ColumnSum, Shift;
    forall o: nat, t: nat | o < s.outChannels && t < s.length
      ensures ColumnSum(s.inChannels, k, Terms(s, d, o, t)) == 0.0
    {
      ColumnZero(s.inChannels, k, Terms(s, d, o, t));
    }
  }

  lemma TapTaken(s: Shape, d: Operands, was: seq<real>, now: seq<real>, taps: seq<real>, from: nat, k: nat)
    requires TapsAdded(s, d, was, k) && k < s.kernel && Shift(k, s.kernel, s.dilation) < s.length
    requires TapAt(s, d, taps, from, k)
    requires var back := Shift(k, s.kernel, s.dilation);
      Added(was, now, s.outChannels, s.length - back, s.inChannels, taps, from, s.inChannels,
            d.input, s.length, back, s.length)
    ensures TapsAdded(s, d, now, k + 1)
  {
    hide At, ColumnSum, Shift, Dot, Terms, TapMatrix;
    forall o: nat, t: nat | o < s.outChannels && t < s.length
      ensures Get(now, At(o, s.length, t)) == Get(d.bias, o) + Columns(s.inChannels, k + 1, Terms(s, d, o, t))
    {
      TapDot(s, d, taps, from, k, o, t);
    }
  }

  lemma TapsDone(s: Shape, d: Operands, out: seq<real>)
    requires TapsAdded(s, d, out, s.kernel)
    ensures Holds(s, d, out)
  {
    hide At, Rows, Columns, Terms;
    forall o: nat, t: nat | o < s.outChannels && t < s.length
      ensures Get(out, At(o, s.length, t)) == Result(s, d, o, t)
    {
      Exchange(s.inChannels, s.kernel, Terms(s, d, o, t));
      ResultIs(s, d, o, t);
    }
  }

  method ByTaps(s: Shape, d: Operands, backend: bool, cached: Option<seq<real>>, wk: array<real>, output: array<real>)
    returns (failed: bool)
    requires Fits(s, d) && Seeded(s, d, output[..]) && wk != output
    requires if cached.Some? then AllTaps(s, d, cached.value) else wk.Length == s.outChannels * s.inChannels
    modifies wk, output
    ensures failed ==> s.length > 0 && (!backend || s.outChannels == 0 || s.inChannels == 0)
    ensures !failed ==> Holds(s, d, output[..])
  {
    hide At, Dot, Terms, Shift, TapMatrix, Columns, ColumnSum, Added;
    NoTapsYet(s, d, output[..]);
    AtsWithin(s.outChannels, s.inChannels);
    AtsWithin(s.inChannels, s.length);
    for k := 0 to s.kernel
      invariant TapsAdded(s, d, output[..], k)
    {
      var back := Shift(k, s.kernel, s.dilation);
      if back >= s.length {
        TapSkipped(s, d, output[..], k);
        continue;
      }
      var taps, from := [], 0;
      if cached.Some? {
        taps, from := cached.value, At(k, s.outChannels * s.inChannels, 0);
      } else {
        PackTap(s.inChannels, s.outChannels, s.kernel, d.weight, k, wk, 0);
        taps := wk[..];
      }
      TapRoom(s, d, taps, from, k);
      ghost var was := output[..];
      ColumnsWithin(s, d, back);
      failed := Sgemm(backend, s.outChannels, s.length - back, s.inChannels, taps, from, s.inChannels,
                      d.input, s.length, output, back, s.length);
      if failed {
        return;
      }
      TapTaken(s, d, was, output[..], taps, from, k);
    }
    TapsDone(s, d, output[..]);
    failed := false;
  }

  lemma NoTapsYet(s: Shape, d: Operands, out: seq<real>)
    requires Seeded(s, d, out)
    ensures TapsAdded(s, d, out, 0)
  {
  }

  lemma TapRoom(s: Shape, d: Operands, taps: seq<real>, from: nat, k: nat)
    requires TapAt(s, d, taps, from, k)
    ensures forall o: nat, i: nat :: o < s.outChannels && i < s.inChannels ==> from + At(o, s.inChannels, i) < |taps|
  {
    hide At;
    AtsWithin(s.outChannels, s.inChannels);
  }

  lemma ColumnsWithin(s: Shape, d: Operands, back: nat)
    requires Fits(s, d) && back <= s.length
    ensures forall p: nat, j: nat :: p < s.inChannels && j < s.length - back ==> At(p, s.length, j) < |d.input|
  {
    hide At;
    AtsWithin(s.inChannels, s.length);
  }

  // ------------------------------------------------- unfolding, one row for each time

  /** Row `t` of `col` is what every tap sees at `t`, for a signal stored time by time. */
  ghost predicate UnfoldedByTime(input: seq<real>, col: seq<real>, length: nat, channels: nat, kernel: nat) {
    forall t: nat, i: nat, k: nat :: t < length && i < channels && k < kernel ==>
      Get(col, At(t, channels * kernel, At(i, kernel, k))) ==
        Delayed(ByTime(input, channels), Shift(k, kernel, 1), i, t)
  }

  function ByTime(s: seq<real>, channels: nat): Wave {
    (c: nat, t: nat) => Get(s, At(t, channels, c))
  }

  method UnfoldTap(input: seq<real>, col: array<real>, length: nat, channels: nat, kernel: nat, t: nat, k: nat)
    requires |input| == length * channels && col.Length == length * (channels * kernel) && t < length && k < kernel
    modifies col
    ensures forall i: nat :: i < channels ==>
      Get(col[..], At(t, channels * kernel, At(i, kernel, k))) ==
        Delayed(ByTime(input, channels), Shift(k, kernel, 1), i, t)
    ensures forall r: nat, i: nat, q: nat :: i < channels && q < kernel && (r != t || q != k) ==>
      Get(col[..], At(r, channels * kernel, At(i, kernel, q))) ==
        Get(old(col[..]), At(r, channels * kernel, At(i, kernel, q)))
  {
    var source := t - (kernel - 1) + k;
    ShiftByOne(t, k, kernel);
    AtsWithin(channels, kernel);
    AtsWithin(length, channels * kernel);
    AtsWithin(length, channels);
    hide At, Shift;
    for i := 0 to channels
      invariant forall c: nat :: c < i ==>
        Get(col[..], At(t, channels * kernel, At(c, kernel, k))) ==
          Delayed(ByTime(input, channels), Shift(k, kernel, 1), c, t)
      invariant forall r: nat, c: nat, q: nat :: c < channels && q < kernel && (r != t || q != k) ==>
        Get(col[..], At(r, channels * kernel, At(c, kernel, q))) ==
          Get(old(col[..]), At(r, channels * kernel, At(c, kernel, q)))
    {
      AtApart(i, kernel, k);
      AtApart(t, channels * kernel, At(i, kernel, k));
      col[At(t, channels * kernel, At(i, kernel, k))] := if source < 0 then 0.0 else input[At(source, channels, i)];
    }
  }

  lemma ShiftByOne(t: nat, k: nat, kernel: nat)
    requires k < kernel
    ensures t - (kernel - 1) + k == t - Shift(k, kernel, 1)
  {
  }

  method UnfoldByTime(input: seq<real>, col: array<real>, length: nat, channels: nat, kernel: nat)
    requires |input| == length * channels && col.Length == length * (channels * kernel)
    modifies col
    ensures UnfoldedByTime(input, col[..], length, channels, kernel)
  {
    hide At, Shift, Delayed;
    for t := 0 to length
      invariant UnfoldedByTime(input, col[..], t, channels, kernel)
    {
      for k := 0 to kernel
        invariant UnfoldedByTime(input, col[..], t, channels, kernel)
        invariant forall i: nat, q: nat :: i < channels && q < k ==>
          Get(col[..], At(t, channels * kernel, At(i, kernel, q))) ==
            Delayed(ByTime(input, channels), Shift(q, kernel, 1), i, t)
      {
        UnfoldTap(input, col, length, channels, kernel, t, k);
      }
    }
  }

  /** So the product of a row of `col` with a row of the weights is the convolution. */
  lemma UnfoldedDot(
    input: seq<real>, col: seq<real>, length: nat, channels: nat, kernel: nat, weight: seq<real>, o: nat, t: nat,
    f: nat -> real)
    requires UnfoldedByTime(input, col, length, channels, kernel) && t < length
    requires forall p: nat ::
      f(p) == Get(col, At(t, channels * kernel, p)) * Get(weight, At(o, channels * kernel, p))
    ensures Sum(channels * kernel, f) ==
      ConvAt(ByTime(input, channels), KernelOf(weight, channels, kernel), _ => 0.0, channels, kernel, 1, o, t)
  {
    hide At, Rows, Sum, Shift;
    var g := Taps(ByTime(input, channels), KernelOf(weight, channels, kernel), kernel, 1, o, t);
    forall i: nat, k: nat | i < channels && k < kernel
      ensures f(At(i, kernel, k)) == g(i, k)
    {
      AtNested(o, channels, i, kernel, k);
    }
    SumFlat(channels, kernel, f, g);
  }
}
