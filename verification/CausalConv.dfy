/** The causal convolution: one definition, and the three ways the processor computes it. Numbers
    are reals; a signal is a function of channel and time, a buffer a row-major array. */
module CausalConv {
  import opened Sums

  type Wave = (nat, nat) -> real          // channel, time
  type Kernel = (nat, nat, nat) -> real   // output channel, input channel, tap

  /** How far back tap `k` looks. */
  function Shift(k: nat, kernel: nat, dilation: nat): nat {
    if k < kernel then (kernel - 1 - k) * dilation else 0
  }

  function Tap(x: Wave, w: Kernel, kernel: nat, dilation: nat, o: nat, t: nat, i: nat, k: nat): real {
    var back := Shift(k, kernel, dilation);
    if t < back then 0.0 else w(o, i, k) * x(i, t - back)
  }

  function Taps(x: Wave, w: Kernel, kernel: nat, dilation: nat, o: nat, t: nat): (nat, nat) -> real {
    (i: nat, k: nat) => Tap(x, w, kernel, dilation, o, t, i, k)
  }

  /** The convolution: the bias and every tap's reading of the past, which before the start is
      silence. */
  function ConvAt(
    x: Wave, w: Kernel, b: nat -> real, inChannels: nat, kernel: nat, dilation: nat, o: nat, t: nat): real
  {
    b(o) + Rows(inChannels, kernel, Taps(x, w, kernel, dilation, o, t))
  }

  function WaveOf(s: seq<real>, length: nat): Wave {
    (c: nat, t: nat) => Get(s, At(c, length, t))
  }

  function KernelOf(s: seq<real>, inChannels: nat, kernel: nat): Kernel {
    (o: nat, i: nat, k: nat) => Get(s, At(At(o, inChannels, i), kernel, k))
  }

  function BiasOf(s: seq<real>): nat -> real {
    (o: nat) => Get(s, o)
  }

  /** A convolution's sizes. */
  datatype Shape = Shape(inChannels: nat, outChannels: nat, length: nat, kernel: nat, dilation: nat)

  /** The input, the weights and the bias it is given. */
  datatype Operands = Operands(input: seq<real>, weight: seq<real>, bias: seq<real>)

  predicate Fits(s: Shape, d: Operands) {
    && |d.input| == s.inChannels * s.length
    && |d.weight| == s.outChannels * s.inChannels * s.kernel
    && |d.bias| == s.outChannels
  }

  function Result(s: Shape, d: Operands, o: nat, t: nat): real {
    ConvAt(WaveOf(d.input, s.length), KernelOf(d.weight, s.inChannels, s.kernel), BiasOf(d.bias),
           s.inChannels, s.kernel, s.dilation, o, t)
  }

  function Terms(s: Shape, d: Operands, o: nat, t: nat): (nat, nat) -> real {
    Taps(WaveOf(d.input, s.length), KernelOf(d.weight, s.inChannels, s.kernel), s.kernel, s.dilation, o, t)
  }

  /** The buffer holds the convolution. */
  ghost predicate Holds(s: Shape, d: Operands, out: seq<real>) {
    |out| == s.outChannels * s.length &&
    forall o: nat, t: nat :: o < s.outChannels && t < s.length ==> Get(out, At(o, s.length, t)) == Result(s, d, o, t)
  }

  lemma InputWithin(s: Shape, d: Operands, i: nat, t: nat)
    requires Fits(s, d) && i < s.inChannels && t < s.length
    ensures At(i, s.length, t) < |d.input|
  {
    AtWithin(i, s.length, t, s.inChannels);
  }

  lemma WeightWithin(s: Shape, d: Operands, o: nat, i: nat, k: nat)
    requires Fits(s, d) && o < s.outChannels && i < s.inChannels && k < s.kernel
    ensures At(At(o, s.inChannels, i), s.kernel, k) < |d.weight|
  {
    AtWithin(o, s.inChannels, i, s.outChannels);
    AtWithin(At(o, s.inChannels, i), s.kernel, k, s.outChannels * s.inChannels);
  }

  // -------------------------------------------------------------- the direct loop

  method DirectAt(s: Shape, d: Operands, o: nat, t: nat) returns (value: real)
    requires Fits(s, d) && o < s.outChannels && t < s.length
    ensures value == Result(s, d, o, t)
  {
    hide At;
    value := d.bias[o];
    ghost var f := Terms(s, d, o, t);
    for i := 0 to s.inChannels
      invariant value == Get(d.bias, o) + Rows(i, s.kernel, f)
    {
      for k := 0 to s.kernel
        invariant value == Get(d.bias, o) + Rows(i, s.kernel, f) + RowSum(i, k, f)
      {
        var source := t - (s.kernel - 1) * s.dilation + k * s.dilation;
        SourceIsShift(t, k, s.kernel, s.dilation);
        if source >= 0 {
          WeightWithin(s, d, o, i, k);
          InputWithin(s, d, i, source);
          value := value + d.weight[At(At(o, s.inChannels, i), s.kernel, k)] * d.input[At(i, s.length, source)];
        }
      }
    }
  }

  lemma SourceIsShift(t: nat, k: nat, kernel: nat, dilation: nat)
    requires k < kernel
    ensures t - (kernel - 1) * dilation + k * dilation == t - Shift(k, kernel, dilation)
  {
  }

  method Direct(s: Shape, d: Operands, output: array<real>)
    requires Fits(s, d) && output.Length == s.outChannels * s.length
    modifies output
    ensures Holds(s, d, output[..])
  {
    hide At, Result;
    AtsWithin(s.outChannels, s.length);
    for o := 0 to s.outChannels
      invariant forall r: nat, c: nat :: r < o && c < s.length ==> Get(output[..], At(r, s.length, c)) == Result(s, d, r, c)
    {
      for t := 0 to s.length
        invariant forall r: nat, c: nat :: r < o && c < s.length ==> Get(output[..], At(r, s.length, c)) == Result(s, d, r, c)
        invariant forall c: nat :: c < t ==> Get(output[..], At(o, s.length, c)) == Result(s, d, o, c)
      {
        var value := DirectAt(s, d, o, t);
        AtApart(o, s.length, t);
        output[At(o, s.length, t)] := value;
      }
    }
  }

  // ----------------------------------------------------------- the matrix product

  function DotTerms(a: seq<real>, aFrom: nat, lda: nat, i: nat, b: seq<real>, ldb: nat, j: nat): nat -> real {
    (p: nat) => Get(a, aFrom + At(i, lda, p)) * Get(b, At(p, ldb, j))
  }

  function Dot(a: seq<real>, aFrom: nat, lda: nat, i: nat, b: seq<real>, ldb: nat, j: nat, n: nat): real {
    Sum(n, DotTerms(a, aFrom, lda, i, b, ldb, j))
  }

  method DotProduct(a: seq<real>, aFrom: nat, lda: nat, i: nat, b: seq<real>, ldb: nat, j: nat, n: nat)
    returns (value: real)
    requires forall p: nat :: p < n ==> aFrom + At(i, lda, p) < |a| && At(p, ldb, j) < |b|
    ensures value == Dot(a, aFrom, lda, i, b, ldb, j, n)
  {
    hide At;
    value := 0.0;
    for p := 0 to n
      invariant value == Sum(p, DotTerms(a, aFrom, lda, i, b, ldb, j))
    {
      value := value + a[aFrom + At(i, lda, p)] * b[At(p, ldb, j)];
    }
  }

  /** What a matrix product added to: `cFrom` columns in, `n` columns wide, rows `ldc` apart. */
  ghost predicate Added(
    was: seq<real>, now: seq<real>, m: nat, n: nat, k: nat, a: seq<real>, aFrom: nat, lda: nat,
    b: seq<real>, ldb: nat, cFrom: nat, ldc: nat)
  {
    |now| == |was| &&
    forall i: nat, t: nat :: i < m && t < ldc ==>
      Get(now, At(i, ldc, t)) ==
        if cFrom <= t < cFrom + n then Get(was, At(i, ldc, t)) + Dot(a, aFrom, lda, i, b, ldb, t - cFrom, k)
        else Get(was, At(i, ldc, t))
  }

  /** `C += A * B`, or a failure that leaves C alone when there is no backend or nothing to do. */
  method Sgemm(
    backend: bool, m: nat, n: nat, k: nat, a: seq<real>, aFrom: nat, lda: nat, b: seq<real>, ldb: nat,
    c: array<real>, cFrom: nat, ldc: nat) returns (failed: bool)
    requires forall i: nat, p: nat :: i < m && p < k ==> aFrom + At(i, lda, p) < |a|
    requires forall p: nat, j: nat :: p < k && j < n ==> At(p, ldb, j) < |b|
    requires cFrom + n <= ldc && c.Length == m * ldc
    modifies c
    ensures failed == (!backend || m == 0 || n == 0 || k == 0)
    ensures failed ==> c[..] == old(c[..])
    ensures !failed ==> Added(old(c[..]), c[..], m, n, k, a, aFrom, lda, b, ldb, cFrom, ldc)
  {
    if !backend || m == 0 || n == 0 || k == 0 {
      return true;
    }
    hide At, Dot;
    ghost var was := c[..];
    AtsWithin(m, ldc);
    for i := 0 to m
      invariant Added(was, c[..], i, n, k, a, aFrom, lda, b, ldb, cFrom, ldc)
      invariant forall r: nat, t: nat :: i <= r < m && t < ldc ==> Get(c[..], At(r, ldc, t)) == Get(was, At(r, ldc, t))
    {
      for j := 0 to n
        invariant Added(was, c[..], i, n, k, a, aFrom, lda, b, ldb, cFrom, ldc)
        invariant forall r: nat, t: nat :: i < r < m && t < ldc ==> Get(c[..], At(r, ldc, t)) == Get(was, At(r, ldc, t))
        invariant forall t: nat :: t < ldc ==>
          Get(c[..], At(i, ldc, t)) ==
            if cFrom <= t < cFrom + j then Get(was, At(i, ldc, t)) + Dot(a, aFrom, lda, i, b, ldb, t - cFrom, k)
            else Get(was, At(i, ldc, t))
      {
        var value := DotProduct(a, aFrom, lda, i, b, ldb, j, k);
        AtApart(i, ldc, cFrom + j);
        c[At(i, ldc, cFrom + j)] := c[At(i, ldc, cFrom + j)] + value;
      }
    }
    failed := false;
  }

  /** The output starts as the bias. */
  ghost predicate Seeded(s: Shape, d: Operands, out: seq<real>) {
    |out| == s.outChannels * s.length &&
    forall o: nat, t: nat :: o < s.outChannels && t < s.length ==> Get(out, At(o, s.length, t)) == Get(d.bias, o)
  }

  method SeedBias(s: Shape, d: Operands, output: array<real>)
    requires Fits(s, d) && output.Length == s.outChannels * s.length
    modifies output
    ensures Seeded(s, d, output[..])
  {
    hide At;
    AtsWithin(s.outChannels, s.length);
    for o := 0 to s.outChannels
      invariant forall r: nat, c: nat :: r < o && c < s.length ==> Get(output[..], At(r, s.length, c)) == d.bias[r]
    {
      for t := 0 to s.length
        invariant forall r: nat, c: nat :: r < o && c < s.length ==> Get(output[..], At(r, s.length, c)) == d.bias[r]
        invariant forall c: nat :: c < t ==> Get(output[..], At(o, s.length, c)) == d.bias[o]
      {
        AtApart(o, s.length, t);
        output[At(o, s.length, t)] := d.bias[o];
      }
    }
  }
}
