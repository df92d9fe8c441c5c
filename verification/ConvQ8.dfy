/** The blocked int8 convolution, from packed weights and quantized columns to the output. The
    integer dot product is exact; how a row or a column is quantized is not of interest here. */
module ConvQ8 {
  import opened Multiplying
  import opened Sums
  import opened Pool

  const ROW_STRIP := 64
  const MAX_BATCH := 4

  function GetInt(s: seq<int>, i: nat): int {
    if i < |s| then s[i] else 0
  }

  function IntSum(n: nat, f: nat -> int): int {
    if n == 0 then 0 else IntSum(n - 1, f) + f(n - 1)
  }

  /** A call: `m` rows of `k` weights for each tap, `n` output columns, the activation columns a
      tap apart being `tapStride` apart. */
  datatype Job = Job(
    m: nat, n: nat, k: nat, taps: nat, tapStride: nat,
    q: seq<int>, scale: seq<real>, xq: seq<int>, sx: seq<real>, hasBias: bool, bias: seq<real>)

  /** The activation columns the call reads. */
  function Span(n: nat, taps: nat, tapStride: nat): nat
    requires taps > 0
  {
    (taps - 1) * tapStride + n
  }

  predicate Ready(j: Job) {
    && j.taps > 0 && j.m > 0 && j.n > 0
    && |j.q| == j.taps * j.m * j.k && |j.scale| == j.taps * j.m
    && |j.xq| == Span(j.n, j.taps, j.tapStride) * j.k && |j.sx| == Span(j.n, j.taps, j.tapStride)
    && (j.hasBias ==> |j.bias| == j.m)
  }

  // ------------------------------------------------------------- the plain formula

  function Products(j: Job, t: nat, i: nat, col: nat): nat -> int {
    (p: nat) => GetInt(j.q, At(At(t, j.m, i), j.k, p)) * GetInt(j.xq, At(col, j.k, p))
  }

  /** Row `i` of tap `t` against column `col`. */
  function DotAt(j: Job, t: nat, i: nat, col: nat): int {
    IntSum(j.k, Products(j, t, i, col))
  }

  function Epilogue(dot: int, ws: real, sx: real): real {
    dot as real * (ws * sx)
  }

  function TapTerms(j: Job, i: nat, column: nat): nat -> real {
    (t: nat) => Epilogue(DotAt(j, t, i, column + t * j.tapStride), Get(j.scale, At(t, j.m, i)), Get(j.sx, column + t * j.tapStride))
  }

  function BiasAt(j: Job, i: nat): real {
    if j.hasBias then Get(j.bias, i) else 0.0
  }

  /** Output row `i`, column `column`. */
  function Cell(j: Job, i: nat, column: nat): real {
    Sum(j.taps, TapTerms(j, i, column)) + BiasAt(j, i)
  }

  /** Every column a tap reads is one of the span's. */
  lemma ColumnInSpan(j: Job, column: nat, t: nat)
    requires j.taps > 0 && column < j.n && t < j.taps
    ensures column + t * j.tapStride < Span(j.n, j.taps, j.tapStride)
  {
    Monotone(t, j.taps - 1, j.tapStride);
  }

  // ------------------------------------------------------------------- one strip

  method DotOf(j: Job, t: nat, i: nat, col: nat) returns (dot: int)
    requires Ready(j) && t < j.taps && i < j.m && col < Span(j.n, j.taps, j.tapStride)
    ensures dot == DotAt(j, t, i, col)
  {
    AtWithin(t, j.m, i, j.taps);
    AtsWithin(j.taps * j.m, j.k);
    AtsWithin(Span(j.n, j.taps, j.tapStride), j.k);
    hide At, Span;
    dot := 0;
    for p := 0 to j.k
      invariant dot == IntSum(p, Products(j, t, i, col))
    {
      dot := dot + j.q[At(At(t, j.m, i), j.k, p)] * j.xq[At(col, j.k, p)];
    }
  }

  /** Tap `t` added to the accumulators of one column of the strip. */
  method AddTapTo(j: Job, i0: nat, rows: nat, j0: nat, b: nat, t: nat, acc: array2<real>)
    requires Ready(j) && t < j.taps && i0 + rows <= j.m && j0 + b < j.n && b < acc.Length0 && rows <= acc.Length1
    requires forall r: nat :: r < rows ==> acc[b, r] == Sum(t, TapTerms(j, i0 + r, j0 + b))
    modifies acc
    ensures forall r: nat :: r < rows ==> acc[b, r] == Sum(t + 1, TapTerms(j, i0 + r, j0 + b))
    ensures forall d: nat, r: nat :: d < acc.Length0 && r < acc.Length1 && d != b ==> acc[d, r] == old(acc[d, r])
  {
    AtsWithin(j.taps, j.m);
    hide At, DotAt, TapTerms, Sum, Span;
    ColumnInSpan(j, j0 + b, t);
    var col := j0 + b + t * j.tapStride;
    for r := 0 to rows
      invariant forall s: nat :: s < r ==> acc[b, s] == Sum(t + 1, TapTerms(j, i0 + s, j0 + b))
      invariant forall s: nat :: r <= s < rows ==> acc[b, s] == Sum(t, TapTerms(j, i0 + s, j0 + b))
      invariant forall d: nat, s: nat :: d < acc.Length0 && s < acc.Length1 && d != b ==> acc[d, s] == old(acc[d, s])
    {
      var dot := DotOf(j, t, i0 + r, col);
      acc[b, r] := acc[b, r] + Epilogue(dot, j.scale[At(t, j.m, i0 + r)], j.sx[col]);
      SumStep(j, t, i0 + r, j0 + b);
    }
  }

  /** Tap `t` added to every accumulator of the strip. */
  method AddTap(j: Job, i0: nat, rows: nat, j0: nat, batch: nat, t: nat, acc: array2<real>)
    requires Ready(j) && t < j.taps && i0 + rows <= j.m && j0 + batch <= j.n
    requires acc.Length0 == MAX_BATCH && acc.Length1 == ROW_STRIP && rows <= ROW_STRIP && batch <= MAX_BATCH
    requires forall b: nat, r: nat :: b < batch && r < rows ==> acc[b, r] == Sum(t, TapTerms(j, i0 + r, j0 + b))
    modifies acc
    ensures forall b: nat, r: nat :: b < batch && r < rows ==> acc[b, r] == Sum(t + 1, TapTerms(j, i0 + r, j0 + b))
  {
    hide At, DotAt, TapTerms, Sum, Ready;
    for b := 0 to batch
      invariant forall d: nat, r: nat :: d < b && r < rows ==> acc[d, r] == Sum(t + 1, TapTerms(j, i0 + r, j0 + d))
      invariant forall d: nat, r: nat :: b <= d < batch && r < rows ==> acc[d, r] == Sum(t, TapTerms(j, i0 + r, j0 + d))
    {
      AddTapTo(j, i0, rows, j0, b, t, acc);
    }
  }

  lemma SumStep(j: Job, t: nat, i: nat, column: nat)
    ensures Sum(t + 1, TapTerms(j, i, column)) ==
      Sum(t, TapTerms(j, i, column)) +
      Epilogue(DotAt(j, t, i, column + t * j.tapStride), Get(j.scale, At(t, j.m, i)), Get(j.sx, column + t * j.tapStride))
  {
  }

  predicate Inside(i: nat, column: nat, i0: nat, rows: nat, j0: nat, columns: nat) {
    i0 <= i < i0 + rows && j0 <= column < j0 + columns
  }

  /** What a piece of the work leaves behind: its own cells computed and written once more, all
      else as it was. */
  ghost predicate Did(
    j: Job, was: seq<real>, now: seq<real>, ldc: nat, i0: nat, rows: nat, j0: nat, columns: nat)
  {
    |now| == |was| &&
    forall i: nat, c: nat :: i < j.m && c < ldc ==>
      Get(now, At(i, ldc, c)) == if Inside(i, c, i0, rows, j0, columns) then Cell(j, i, c) else Get(was, At(i, ldc, c))
  }

  ghost predicate Counted(j: Job, was: seq<nat>, now: seq<nat>, ldc: nat, i0: nat, rows: nat, j0: nat, columns: nat) {
    |now| == |was| &&
    forall i: nat, c: nat :: i < j.m && c < ldc ==>
      Times(now, At(i, ldc, c)) == Times(was, At(i, ldc, c)) + (if Inside(i, c, i0, rows, j0, columns) then 1 else 0)
  }

  function Times(s: seq<nat>, i: nat): nat {
    if i < |s| then s[i] else 0
  }

  /** The output, and how often each of its cells has been written. */
  class Output {
    const c: array<real>
    const ldc: nat
    ghost var writes: seq<nat>

    ghost predicate Sized(m: nat)
      reads this
    {
      c.Length == m * ldc && |writes| == c.Length
    }

    constructor (c: array<real>, ldc: nat)
      ensures this.c == c && this.ldc == ldc && writes == seq(c.Length, _ => 0)
    {
      this.c, this.ldc := c, ldc;
      writes := seq(c.Length, _ => 0);
    }

    method Store(i: nat, column: nat, v: real, m: nat)
      requires Sized(m) && i < m && column < ldc
      modifies this, c
      ensures Sized(m)
      ensures forall r: nat, d: nat :: r < m && d < ldc ==>
        Get(c[..], At(r, ldc, d)) == if r == i && d == column then v else Get(old(c[..]), At(r, ldc, d))
      ensures forall r: nat, d: nat :: r < m && d < ldc ==>
        Times(writes, At(r, ldc, d)) == Times(old(writes), At(r, ldc, d)) + (if r == i && d == column then 1 else 0)
    {
      AtsWithin(m, ldc);
      AtApart(i, ldc, column);
      hide At;
      c[At(i, ldc, column)] := v;
      writes := writes[At(i, ldc, column) := writes[At(i, ldc, column)] + 1];
    }
  }

  method StoreStrip(j: Job, i0: nat, rows: nat, j0: nat, batch: nat, acc: array2<real>, out: Output)
    requires Ready(j) && i0 + rows <= j.m && j0 + batch <= j.n <= out.ldc && out.Sized(j.m)
    requires acc.Length0 == MAX_BATCH && acc.Length1 == ROW_STRIP && rows <= ROW_STRIP && batch <= MAX_BATCH
    requires forall b: nat, r: nat :: b < batch && r < rows ==> acc[b, r] == Sum(j.taps, TapTerms(j, i0 + r, j0 + b))
    modifies out, out.c
    ensures out.Sized(j.m)
    ensures Did(j, old(out.c[..]), out.c[..], out.ldc, i0, rows, j0, batch)
    ensures Counted(j, old(out.writes), out.writes, out.ldc, i0, rows, j0, batch)
  {
    hide At, Sum, TapTerms;
    for r := 0 to rows
      invariant out.Sized(j.m)
      invariant Did(j, old(out.c[..]), out.c[..], out.ldc, i0, r, j0, batch)
      invariant Counted(j, old(out.writes), out.writes, out.ldc, i0, r, j0, batch)
    {
      var bv := if j.hasBias then j.bias[i0 + r] else 0.0;
      ghost var c0, w0 := out.c[..], out.writes;
      for b := 0 to batch
        invariant out.Sized(j.m)
        invariant Did(j, c0, out.c[..], out.ldc, i0 + r, 1, j0, b)
        invariant Counted(j, w0, out.writes, out.ldc, i0 + r, 1, j0, b)
      {
        out.Store(i0 + r, j0 + b, acc[b, r] + bv, j.m);
      }
    }
  }

  /** `cq8_strip`. */
  method Strip(j: Job, i0: nat, rows: nat, j0: nat, batch: nat, out: Output)
    requires Ready(j) && i0 + rows <= j.m && j0 + batch <= j.n <= out.ldc && out.Sized(j.m)
    requires rows <= ROW_STRIP && batch <= MAX_BATCH
    modifies out, out.c
    ensures out.Sized(j.m)
    ensures Did(j, old(out.c[..]), out.c[..], out.ldc, i0, rows, j0, batch)
    ensures Counted(j, old(out.writes), out.writes, out.ldc, i0, rows, j0, batch)
  {
    hide At, TapTerms, Did, Counted;
    var acc := new real[MAX_BATCH, ROW_STRIP]((b, r) => 0.0);
    for t := 0 to j.taps
      invariant forall b: nat, r: nat :: b < batch && r < rows ==> acc[b, r] == Sum(t, TapTerms(j, i0 + r, j0 + b))
      invariant out.c[..] == old(out.c[..]) && out.writes == old(out.writes)
    {
      AddTap(j, i0, rows, j0, batch, t, acc);
    }
    StoreStrip(j, i0, rows, j0, batch, acc, out);
  }
}
