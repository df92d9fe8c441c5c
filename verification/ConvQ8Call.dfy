/** The entry point of the int8 convolution: which calls it takes, how it packs the weights in
    either layout, and what it has computed when it returns. */
module ConvQ8Call {
  import opened Sums
  import opened Pool
  import opened ConvQ8
  import opened ConvQ8Run
  import opened Quantizers

  /** The weights: `m` rows of `k` by `taps`, or transposed, `k` rows `ldw` apart. */
  datatype Weights = Weights(w: seq<real>, m: nat, k: nat, taps: nat, trans: bool, ldw: nat)

  function Source(x: Weights, i: nat, p: nat, t: nat): nat {
    if x.trans then At(p, x.ldw, i) else At(At(i, x.k, p), x.taps, t)
  }

  ghost predicate WeightsHold(x: Weights) {
    forall i: nat, p: nat, t: nat :: i < x.m && p < x.k && t < x.taps ==> Source(x, i, p, t) < |x.w|
  }

  /** Row `i` of tap `t`. */
  function RowOf(x: Weights, t: nat, i: nat): (v: seq<real>)
    ensures |v| == x.k
  {
    seq(x.k, p requires 0 <= p => Get(x.w, Source(x, i, p, t)))
  }

  /** The address the program computes with a start and a step is the element's. */
  lemma StartAndStep(x: Weights, i: nat, p: nat, t: nat)
    ensures Source(x, i, p, t) == (if x.trans then i + p * x.ldw else i * x.k * x.taps + t + p * x.taps)
  {
  }

  /** A transposed copy of the weights packs to the same matrix. */
  lemma TransposedPacksAlike(x: Weights, y: Weights, i: nat)
    requires !x.trans && y.trans && x.taps == y.taps == 1 && x.k == y.k && i < x.m == y.m
    requires forall p: nat :: p < x.k ==> Get(y.w, At(p, y.ldw, i)) == Get(x.w, At(i, x.k, p))
    ensures RowOf(x, 0, i) == RowOf(y, 0, i)
  {
    forall p: nat | p < x.k
      ensures RowOf(x, 0, i)[p] == RowOf(y, 0, i)[p]
    {
      assert At(At(i, x.k, p), 1, 0) == At(i, x.k, p);
    }
  }

  ghost predicate PackedAt(z: Quantizer, x: Weights, q: seq<int>, scale: seq<real>, t: nat, i: nat) {
    Get(scale, At(t, x.m, i)) == z.scale(RowOf(x, t, i)) &&
    forall p: nat :: p < x.k ==> GetInt(q, At(At(t, x.m, i), x.k, p)) == GetInt(z.codes(RowOf(x, t, i)), p)
  }

  method GatherRow(x: Weights, t: nat, i: nat) returns (v: seq<real>)
    requires WeightsHold(x) && i < x.m && t < x.taps
    ensures v == RowOf(x, t, i)
  {
    hide Source;
    var row := new real[x.k](_ => 0.0);
    for p := 0 to x.k
      invariant forall s: nat :: s < p ==> row[s] == Get(x.w, Source(x, i, s, t))
    {
      row[p] := x.w[Source(x, i, p, t)];
    }
    v := row[..];
  }

  method PackRow(z: Quantizer, x: Weights, t: nat, i: nat, q: array<int>, scale: array<real>)
    requires KeepsLength(z) && WeightsHold(x) && i < x.m && t < x.taps
    requires q.Length == x.taps * x.m * x.k && scale.Length == x.taps * x.m
    modifies q, scale
    ensures PackedAt(z, x, q[..], scale[..], t, i)
    ensures forall t': nat, i': nat :: t' < x.taps && i' < x.m && (t' != t || i' != i) ==>
      PackedAt(z, x, old(q[..]), old(scale[..]), t', i') ==> PackedAt(z, x, q[..], scale[..], t', i')
  {
    var v := GatherRow(x, t, i);
    AtsWithin(x.taps, x.m);
    AtsWithin(x.taps * x.m, x.k);
    AtApart(t, x.m, i);
    hide At, RowOf;
    var codes := z.codes(v);
    scale[At(t, x.m, i)] := z.scale(v);
    for p := 0 to x.k
      invariant scale[..] == old(scale[..])[At(t, x.m, i) := z.scale(v)]
      invariant forall s: nat :: s < p ==> GetInt(q[..], At(At(t, x.m, i), x.k, s)) == codes[s]
      invariant forall r: nat, s: nat :: r != At(t, x.m, i) && s < x.k ==>
        GetInt(q[..], At(r, x.k, s)) == GetInt(old(q[..]), At(r, x.k, s))
    {
      AtApart(At(t, x.m, i), x.k, p);
      q[At(At(t, x.m, i), x.k, p)] := codes[p];
    }
  }

  ghost predicate Packed(z: Quantizer, x: Weights, q: seq<int>, scale: seq<real>, taps: nat, rows: nat) {
    forall t: nat, i: nat :: t < taps && i < rows ==> PackedAt(z, x, q, scale, t, i)
  }

  /** `cq8_pack`. */
  method Pack(z: Quantizer, x: Weights) returns (q: array<int>, scale: array<real>)
    requires KeepsLength(z) && WeightsHold(x)
    ensures fresh(q) && fresh(scale) && q.Length == x.taps * x.m * x.k && scale.Length == x.taps * x.m
    ensures Packed(z, x, q[..], scale[..], x.taps, x.m)
  {
    hide KeepsLength, WeightsHold, PackedAt;
    q := new int[x.taps * x.m * x.k](_ => 0);
    scale := new real[x.taps * x.m](_ => 0.0);
    for t := 0 to x.taps
      invariant Packed(z, x, q[..], scale[..], t, x.m)
    {
      for i := 0 to x.m
        invariant Packed(z, x, q[..], scale[..], t, x.m)
        invariant forall r: nat :: r < i ==> PackedAt(z, x, q[..], scale[..], t, r)
      {
        PackRow(z, x, t, i, q, scale);
      }
    }
  }

  // ------------------------------------------------------------- what is promised

  /** The activations and the output's shape. */
  datatype Window = Window(b: seq<real>, ldb: nat, n: nat, tapStride: nat, hasBias: bool, bias: seq<real>)

  function PlainProducts(zw: Quantizer, za: Quantizer, x: Weights, a: Window, i: nat, t: nat, col: nat): nat -> int {
    (p: nat) => GetInt(zw.codes(RowOf(x, t, i)), p) * GetInt(za.codes(ColumnOf(a.b, a.ldb, x.k, col)), p)
  }

  function PlainTerms(zw: Quantizer, za: Quantizer, x: Weights, a: Window, i: nat, c: nat): nat -> real {
    (t: nat) =>
      Epilogue(IntSum(x.k, PlainProducts(zw, za, x, a, i, t, c + t * a.tapStride)),
               zw.scale(RowOf(x, t, i)), za.scale(ColumnOf(a.b, a.ldb, x.k, c + t * a.tapStride)))
  }

  /** The plain formula, on what was given: quantize a row of weights, quantize a column of
      activations (which the program does differently, see Quantizers), multiply, scale, add up
      the taps, add the bias. */
  function PlainCell(zw: Quantizer, za: Quantizer, x: Weights, a: Window, i: nat, c: nat): real {
    Sum(x.taps, PlainTerms(zw, za, x, a, i, c)) + (if a.hasBias then Get(a.bias, i) else 0.0)
  }

  ghost predicate AllQuantized(za: Quantizer, x: Weights, a: Window, xq: seq<int>, sx: seq<real>, span: nat) {
    forall col: nat :: col < span ==> QuantizedAt(za, a.b, a.ldb, x.k, xq, sx, col)
  }

  function JobOf(x: Weights, a: Window, q: seq<int>, scale: seq<real>, xq: seq<int>, sx: seq<real>): Job {
    Job(x.m, a.n, x.k, x.taps, a.tapStride, q, scale, xq, sx, a.hasBias, a.bias)
  }

  lemma {:induction false} SameIntSum(n: nat, f: nat -> int, g: nat -> int)
    requires forall i: nat :: i < n ==> f(i) == g(i)
    ensures IntSum(n, f) == IntSum(n, g)
  {
    if n > 0 {
      SameIntSum(n - 1, f, g);
    }
  }

  lemma TermIsPlain(
    zw: Quantizer, za: Quantizer, x: Weights, a: Window, q: seq<int>, scale: seq<real>, xq: seq<int>, sx: seq<real>,
    i: nat, c: nat, t: nat)
    requires x.taps > 0 && i < x.m && c < a.n && t < x.taps
    requires Packed(zw, x, q, scale, x.taps, x.m) && AllQuantized(za, x, a, xq, sx, Span(a.n, x.taps, a.tapStride))
    ensures TapTerms(JobOf(x, a, q, scale, xq, sx), i, c)(t) == PlainTerms(zw, za, x, a, i, c)(t)
  {
    var j := JobOf(x, a, q, scale, xq, sx);
    var col := c + t * a.tapStride;
    ColumnInSpan(j, c, t);
    hide At, Span, ColumnOf, RowOf, IntSum;
    assert PackedAt(zw, x, q, scale, t, i) && QuantizedAt(za, a.b, a.ldb, x.k, xq, sx, col);
    SameIntSum(x.k, Products(j, t, i, col), PlainProducts(zw, za, x, a, i, t, col));
  }

  lemma CellIsPlain(
    zw: Quantizer, za: Quantizer, x: Weights, a: Window, q: seq<int>, scale: seq<real>, xq: seq<int>, sx: seq<real>,
    i: nat, c: nat)
    requires x.taps > 0 && i < x.m && c < a.n
    requires Packed(zw, x, q, scale, x.taps, x.m) && AllQuantized(za, x, a, xq, sx, Span(a.n, x.taps, a.tapStride))
    ensures Cell(JobOf(x, a, q, scale, xq, sx), i, c) == PlainCell(zw, za, x, a, i, c)
  {
    hide Packed, AllQuantized, TapTerms, PlainTerms, Sum;
    var f, g := TapTerms(JobOf(x, a, q, scale, xq, sx), i, c), PlainTerms(zw, za, x, a, i, c);
    forall t | 0 <= t < x.taps
      ensures f(t) == g(t)
    {
      TermIsPlain(zw, za, x, a, q, scale, xq, sx, i, c, t);
    }
    SumSame(x.taps, f, g);
  }

  // ---------------------------------------------------------------- the whole call

  /** The machine the call runs on. `pool` gives the order in which a parallel loop's indices
      happened to run. */
  datatype Machine = Machine(
    hostOk: bool, kernelBatch: nat, threads: nat, forcedBlocks: nat, packMemory: bool, scratchMemory: bool, pool: nat -> seq<nat>)

  /** Multiplications in all. */
  function Work(x: Weights, a: Window): nat {
    var cells: nat := x.m * a.n;
    var deep: nat := cells * x.k;
    deep * x.taps
  }

  /** What the call answers before it looks at any data: 0 to go on, 1 to leave it to the caller's
      own convolution, -1 for a call that makes no sense. */
  function Precheck(mc: Machine, x: Weights, a: Window, ldc: nat): int {
    if x.taps == 0 then -1
    else if x.m == 0 || a.n == 0 || x.k == 0 then 1
    else if ldc < a.n then -1
    else if !mc.hostOk || x.k > K_MAX || mc.kernelBatch < 1 then 1
    else if Span(a.n, x.taps, a.tapStride) > SIZE_MAX then 1
    else if a.ldb < Span(a.n, x.taps, a.tapStride) then -1
    else if Work(x, a) > SIZE_MAX then 1
    else if x.trans && (x.k * x.ldw > SIZE_MAX || x.ldw < x.m || x.taps != 1) then 1
    else if Work(x, a) < MIN_WORK then 1
    else if x.k * x.taps < 128 || x.m < 64 then 1
    else 0
  }

  /** Which calls are taken, and which make no sense. */
  lemma TakenIff(mc: Machine, x: Weights, a: Window, ldc: nat)
    ensures Precheck(mc, x, a, ldc) == 0 <==>
      && mc.hostOk && mc.kernelBatch >= 1
      && x.taps >= 1 && x.m >= 64 && a.n >= 1 && 1 <= x.k <= 8192 && x.k * x.taps >= 128
      && ldc >= a.n && (x.taps - 1) * a.tapStride + a.n <= SIZE_MAX && a.ldb >= (x.taps - 1) * a.tapStride + a.n
      && (x.trans ==> x.taps == 1 && x.ldw >= x.m && x.k * x.ldw <= SIZE_MAX)
      && 0x4_0000 <= x.m * a.n * x.k * x.taps <= SIZE_MAX
    ensures Precheck(mc, x, a, ldc) == -1 ==> x.taps == 0 || ldc < a.n || a.ldb < (x.taps - 1) * a.tapStride + a.n
    ensures Precheck(mc, x, a, ldc) in {-1, 0, 1}
  {
  }

  function Blocks(mc: Machine, x: Weights, a: Window): nat {
    Ceiling(x.m, RowBlock(x.m, mc.threads, Work(x, a), mc.forcedBlocks))
  }

  /** `cq8_run`. Either the call is refused and nothing is written, or every output element is
      the plain formula and was written exactly once: for every number of threads, every row plan,
      every batch the kernel takes, every order the pool ran them in. */
  method Run(mc: Machine, zw: Quantizer, za: Quantizer, x: Weights, a: Window, out: Output) returns (code: int)
    requires KeepsLength(zw) && KeepsLength(za) && WeightsHold(x) && (a.hasBias ==> |a.bias| == x.m)
    requires x.taps > 0 ==> WindowHolds(a.b, a.ldb, x.k, Span(a.n, x.taps, a.tapStride))
    requires forall n: nat :: EachOnce(mc.pool(n), n)
    requires out.Sized(x.m)
    modifies out, out.c
    ensures code == (if Precheck(mc, x, a, out.ldc) != 0 then Precheck(mc, x, a, out.ldc)
                     else if !mc.packMemory || !mc.scratchMemory || Blocks(mc, x, a) > INT_MAX then 1 else 0)
    ensures code != 0 ==> out.c[..] == old(out.c[..]) && out.writes == old(out.writes)
    ensures code == 0 ==> forall i: nat, c: nat :: i < x.m && c < out.ldc ==>
      && Get(out.c[..], At(i, out.ldc, c)) == (if c < a.n then PlainCell(zw, za, x, a, i, c) else Get(old(out.c[..]), At(i, out.ldc, c)))
      && Times(out.writes, At(i, out.ldc, c)) == Times(old(out.writes), At(i, out.ldc, c)) + (if c < a.n then 1 else 0)
  {
    hide KeepsLength, WeightsHold, WindowHolds, Span, EachOnce, Packed, Ceiling, RowBlock, At, PlainCell, QuantizedAt;
    code := Precheck(mc, x, a, out.ldc);
    if code != 0 {
      return;
    }
    if !mc.packMemory || !mc.scratchMemory {
      return 1;
    }
    var q, scale := Pack(zw, x);
    var span := Span(a.n, x.taps, a.tapStride);
    SpanPositive(a.n, x.taps, a.tapStride);
    var xq := new int[span * x.k](_ => 0);
    var sx := new real[span](_ => 0.0);
    var cols := QuantColumns(mc.threads, span, x.k);
    FewTasks(mc.threads, span, x.k);
    QuantizeAll(za, a.b, a.ldb, x.k, span, cols, mc.pool(Ceiling(span, cols)), xq, sx);
    var rowBlock := RowBlock(x.m, mc.threads, Work(x, a), mc.forcedBlocks);
    if Ceiling(x.m, rowBlock) > INT_MAX {
      return 1;
    }
    var j := JobOf(x, a, q[..], scale[..], xq[..], sx[..]);
    RunTasks(j, rowBlock, mc.pool(Ceiling(x.m, rowBlock)), mc.kernelBatch, out);
    forall i: nat, c: nat | i < x.m && c < a.n
      ensures Cell(j, i, c) == PlainCell(zw, za, x, a, i, c)
    {
      CellIsPlain(zw, za, x, a, q[..], scale[..], xq[..], sx[..], i, c);
    }
    hide Cell;
    code := 0;
  }

  lemma SpanPositive(n: nat, taps: nat, tapStride: nat)
    requires n > 0 && taps > 0
    ensures Span(n, taps, tapStride) > 0
  {
  }

  // ------------------------------------------------------------- exact in 32 bits

  lemma {:induction false} SumWithin(n: nat, f: nat -> int, bound: int)
    requires forall p: nat :: p < n ==> -bound <= f(p) <= bound
    ensures -(n * bound) <= IntSum(n, f) <= n * bound
  {
    if n > 0 {
      SumWithin(n - 1, f, bound);
      assert n * bound == (n - 1) * bound + bound;
    }
  }

  lemma Positive(a: nat, b: nat)
    ensures a * b >= 0
  {
  }

  lemma ProductWithin(a: int, b: int)
    requires -127 <= a <= 127 && -128 <= b <= 128
    ensures -16256 <= a * b <= 16256
  {
    Positive(127 - a, 128 - b);
    Positive(127 + a, 128 + b);
    Positive(127 - a, 128 + b);
    Positive(127 + a, 128 - b);
    assert (127 - a) * (128 - b) + (127 + a) * (128 + b) == 2 * 16256 + 2 * (a * b);
    assert (127 - a) * (128 + b) + (127 + a) * (128 - b) == 2 * 16256 - 2 * (a * b);
  }

  /** With the program's own quantizers, no dot product of a call that is taken leaves 32 bits. */
  lemma DotFits(x: Weights, a: Window, i: nat, t: nat, col: nat)
    requires x.k <= K_MAX
    ensures -0x8000_0000 <= IntSum(x.k, PlainProducts(WEIGHTS, ACTIVATIONS, x, a, i, t, col)) < 0x8000_0000
  {
    hide RowOf, ColumnOf, WeightCodes, ActCodes;
    var f := PlainProducts(WEIGHTS, ACTIVATIONS, x, a, i, t, col);
    forall p: nat | p < x.k
      ensures -16256 <= f(p) <= 16256
    {
      ProductWithin(GetInt(WeightCodes(RowOf(x, t, i)), p), GetInt(ActCodes(ColumnOf(a.b, a.ldb, x.k, col)), p));
    }
    SumWithin(x.k, f, 16256);
    assert x.k * 16256 <= 8192 * 16256;
  }

  /** The program's quantizers are among those `Run` speaks of. */
  lemma ProgramQuantizers()
    ensures KeepsLength(WEIGHTS) && KeepsLength(ACTIVATIONS)
  {
  }
}
