/** The causal transposed convolution: scattered by the program, gathered by the definition. */
module TransposedConv {
  import opened Sums
  import opened CausalConv
  import opened Pool

  /** Sizes: `inPer` and `outPer` are the channels of one group. */
  datatype Stretch = Stretch(inPer: nat, outPer: nat, length: nat, kernel: nat, stride: nat)

  /** Input channel, output channel within the group, tap. */
  type GroupKernel = (nat, nat, nat) -> real

  /** What input sample (i, t) puts at output position `p`: the tap that lands there, if any. */
  function Lands(x: Wave, w: GroupKernel, g: Stretch, local: nat, p: nat, i: nat, t: nat): real {
    if t * g.stride <= p < t * g.stride + g.kernel then x(i, t) * w(i, local, p - t * g.stride) else 0.0
  }

  function Landings(x: Wave, w: GroupKernel, g: Stretch, local: nat, p: nat, first: nat): (nat, nat) -> real {
    (j: nat, t: nat) => Lands(x, w, g, local, p, first + j, t)
  }

  /** Gathered: the bias and, for each input channel of the output channel's group, the samples
      no later than `p / stride`. */
  function ConvTAt(x: Wave, w: GroupKernel, b: nat -> real, g: Stretch, o: nat, p: nat): real
    requires g.outPer > 0 && g.stride > 0
  {
    b(o) + Rows(g.inPer, p / g.stride + 1, Landings(x, w, g, o % g.outPer, p, (o / g.outPer) * g.inPer))
  }

  // ------------------------------------------------------------------ the row loop

  function GroupKernelOf(s: seq<real>, outPer: nat, kernel: nat): GroupKernel {
    (i: nat, local: nat, k: nat) => Get(s, At(At(i, outPer, local), kernel, k))
  }

  datatype Buffers = Buffers(input: seq<real>, weight: seq<real>, bias: seq<real>)

  predicate Fits(g: Stretch, groups: nat, d: Buffers) {
    && g.outPer > 0 && g.stride > 0
    && |d.input| == groups * g.inPer * g.length
    && |d.weight| == groups * g.inPer * g.outPer * g.kernel
    && |d.bias| == groups * g.outPer
  }

  function Gathered(g: Stretch, d: Buffers, o: nat, p: nat): real
    requires g.outPer > 0 && g.stride > 0
  {
    ConvTAt(WaveOf(d.input, g.length), GroupKernelOf(d.weight, g.outPer, g.kernel), BiasOf(d.bias), g, o, p)
  }

  ghost predicate OtherRowsKept(was: seq<real>, now: seq<real>, width: nat, o: nat) {
    |was| == |now| &&
    forall r: nat, p: nat :: r != o && p < width ==> Get(now, At(r, width, p)) == Get(was, At(r, width, p))
  }

  /** The innermost loop: one sample's value over the taps of one row of the weights. */
  method AddTaps(
    weight: seq<real>, row: nat, kernel: nat, v: real, at: nat, out: array<real>, width: nat, channels: nat, o: nat)
    requires out.Length == channels * width && o < channels
    requires forall k: nat :: k < kernel ==> At(row, kernel, k) < |weight|
    modifies out
    ensures OtherRowsKept(old(out[..]), out[..], width, o)
    ensures forall p: nat :: p < width ==>
      Get(out[..], At(o, width, p)) ==
        Get(old(out[..]), At(o, width, p)) + (if at <= p < at + kernel then v * Get(weight, At(row, kernel, p - at)) else 0.0)
  {
    AtsWithin(channels, width);
    hide At;
    for k := 0 to kernel
      invariant OtherRowsKept(old(out[..]), out[..], width, o)
      invariant forall p: nat :: p < width ==>
        Get(out[..], At(o, width, p)) ==
          Get(old(out[..]), At(o, width, p)) + (if at <= p < at + k then v * Get(weight, At(row, kernel, p - at)) else 0.0)
    {
      var position := at + k;
      if position < width {
        AtApart(o, width, position);
        out[At(o, width, position)] := out[At(o, width, position)] + v * weight[At(row, kernel, k)];
      }
    }
  }

  lemma WeightRow(g: Stretch, groups: nat, d: Buffers, i: nat, local: nat)
    requires Fits(g, groups, d) && i < groups * g.inPer && local < g.outPer
    ensures forall k: nat :: k < g.kernel ==> At(At(i, g.outPer, local), g.kernel, k) < |d.weight|
  {
    hide At;
    AtWithin(i, g.outPer, local, groups * g.inPer);
    AtsWithin(groups * g.inPer * g.outPer, g.kernel);
  }

  method ScatterSample(
    g: Stretch, groups: nat, d: Buffers, out: array<real>, width: nat, channels: nat, o: nat, local: nat, i: nat, t: nat)
    requires Fits(g, groups, d) && out.Length == channels * width && o < channels
    requires i < groups * g.inPer && local < g.outPer && t < g.length
    modifies out
    ensures OtherRowsKept(old(out[..]), out[..], width, o)
    ensures forall p: nat :: p < width ==>
      Get(out[..], At(o, width, p)) ==
        Get(old(out[..]), At(o, width, p)) +
        Lands(WaveOf(d.input, g.length), GroupKernelOf(d.weight, g.outPer, g.kernel), g, local, p, i, t)
  {
    AtWithin(i, g.length, t, groups * g.inPer);
    WeightRow(g, groups, d, i, local);
    hide At, OtherRowsKept, Fits;
    AddTaps(d.weight, At(i, g.outPer, local), g.kernel, d.input[At(i, g.length, t)], t * g.stride, out, width, channels, o);
  }

  /** One input channel into one row. */
  method ScatterInput(
    g: Stretch, groups: nat, d: Buffers, out: array<real>, width: nat, channels: nat, o: nat, local: nat, i0: nat, j: nat)
    requires Fits(g, groups, d) && out.Length == channels * width && o < channels
    requires i0 + j < groups * g.inPer && local < g.outPer
    modifies out
    ensures OtherRowsKept(old(out[..]), out[..], width, o)
    ensures forall p: nat :: p < width ==>
      Get(out[..], At(o, width, p)) ==
        Get(old(out[..]), At(o, width, p)) +
        RowSum(j, g.length, Landings(WaveOf(d.input, g.length), GroupKernelOf(d.weight, g.outPer, g.kernel), g, local, p, i0))
  {
    ghost var x, w := WaveOf(d.input, g.length), GroupKernelOf(d.weight, g.outPer, g.kernel);
    NoneYet(j, g.length);
    hide At, Lands, WaveOf, GroupKernelOf, RowSum, Fits;
    for t := 0 to g.length
      invariant OtherRowsKept(old(out[..]), out[..], width, o)
      invariant forall p: nat :: p < width ==>
        Get(out[..], At(o, width, p)) ==
          Get(old(out[..]), At(o, width, p)) + RowSum(j, t, Landings(x, w, g, local, p, i0))
    {
      ScatterSample(g, groups, d, out, width, channels, o, local, i0 + j, t);
      forall p: nat | p < width
        ensures RowSum(j, t + 1, Landings(x, w, g, local, p, i0)) ==
          RowSum(j, t, Landings(x, w, g, local, p, i0)) + Lands(x, w, g, local, p, i0 + j, t)
      {
        RowSumStep(j, t, Landings(x, w, g, local, p, i0));
      }
    }
  }

  method FillRow(out: array<real>, width: nat, channels: nat, o: nat, v: real)
    requires out.Length == channels * width && o < channels
    modifies out
    ensures OtherRowsKept(old(out[..]), out[..], width, o)
    ensures forall p: nat :: p < width ==> Get(out[..], At(o, width, p)) == v
  {
    AtsWithin(channels, width);
    hide At;
    for t := 0 to width
      invariant OtherRowsKept(old(out[..]), out[..], width, o)
      invariant forall p: nat :: p < t ==> Get(out[..], At(o, width, p)) == v
    {
      AtApart(o, width, t);
      out[At(o, width, t)] := v;
    }
  }

  /** One output channel: its row and no other. */
  method ScatterChannel(g: Stretch, groups: nat, d: Buffers, out: array<real>, width: nat, channels: nat, o: nat)
    requires Fits(g, groups, d) && out.Length == channels * width && o < channels == groups * g.outPer
    requires width <= g.length * g.stride
    modifies out
    ensures OtherRowsKept(old(out[..]), out[..], width, o)
    ensures forall p: nat :: p < width ==> Get(out[..], At(o, width, p)) == Gathered(g, d, o, p)
  {
    var group, local := o / g.outPer, o % g.outPer;
    GroupWithin(o, g.outPer, groups);
    var i0 := group * g.inPer;
    GroupChannels(group, groups, g.inPer);
    ghost var x, w := WaveOf(d.input, g.length), GroupKernelOf(d.weight, g.outPer, g.kernel);
    assert Get(d.bias, o) == d.bias[o];
    FillRow(out, width, channels, o, d.bias[o]);
    NoneYet(0, g.length);
    ScatterInputs(g, groups, d, out, width, channels, o, local, i0);
    hide At, Landings, Rows, WaveOf, GroupKernelOf, OtherRowsKept;
    forall p: nat | p < width
      ensures Get(out[..], At(o, width, p)) == Gathered(g, d, o, p)
    {
      LateSamplesMissed(x, w, g, local, p, i0);
    }
  }

  method ScatterInputs(
    g: Stretch, groups: nat, d: Buffers, out: array<real>, width: nat, channels: nat, o: nat, local: nat, i0: nat)
    requires Fits(g, groups, d) && out.Length == channels * width && o < channels
    requires i0 + g.inPer <= groups * g.inPer && local < g.outPer
    modifies out
    ensures OtherRowsKept(old(out[..]), out[..], width, o)
    ensures forall p: nat :: p < width ==>
      Get(out[..], At(o, width, p)) ==
        Get(old(out[..]), At(o, width, p)) +
        Rows(g.inPer, g.length, Landings(WaveOf(d.input, g.length), GroupKernelOf(d.weight, g.outPer, g.kernel), g, local, p, i0))
  {
    ghost var x, w := WaveOf(d.input, g.length), GroupKernelOf(d.weight, g.outPer, g.kernel);
    NoneYet(0, g.length);
    hide At, Landings, WaveOf, GroupKernelOf, Rows, Fits;
    for j := 0 to g.inPer
      invariant OtherRowsKept(old(out[..]), out[..], width, o)
      invariant forall p: nat :: p < width ==>
        Get(out[..], At(o, width, p)) ==
          Get(old(out[..]), At(o, width, p)) + Rows(j, g.length, Landings(x, w, g, local, p, i0))
    {
      ScatterInput(g, groups, d, out, width, channels, o, local, i0, j);
      forall p: nat | p < width
        ensures Rows(j + 1, g.length, Landings(x, w, g, local, p, i0)) ==
          Rows(j, g.length, Landings(x, w, g, local, p, i0)) + RowSum(j, g.length, Landings(x, w, g, local, p, i0))
      {
        RowsStep(j, g.length, Landings(x, w, g, local, p, i0));
      }
    }
  }

  lemma NoneYet(j: nat, n: nat)
    ensures forall f: (nat, nat) -> real :: RowSum(j, 0, f) == 0.0 && Rows(0, n, f) == 0.0
  {
  }

  lemma RowSumStep(j: nat, t: nat, f: (nat, nat) -> real)
    ensures RowSum(j, t + 1, f) == RowSum(j, t, f) + f(j, t)
  {
  }

  lemma RowsStep(j: nat, n: nat, f: (nat, nat) -> real)
    ensures Rows(j + 1, n, f) == Rows(j, n, f) + RowSum(j, n, f)
  {
  }

  lemma GroupWithin(o: nat, outPer: nat, groups: nat)
    requires outPer > 0 && o < groups * outPer
    ensures o / outPer < groups
  {
  }

  lemma GroupChannels(group: nat, groups: nat, inPer: nat)
    requires group < groups
    ensures group * inPer + inPer <= groups * inPer
  {
    RowsApart(group, groups, inPer);
  }

  // ------------------------------------------------------- only the past contributes

  lemma BeyondPosition(t: nat, p: nat, stride: nat)
    requires stride > 0 && t > p / stride
    ensures p < t * stride
  {
    var q := p / stride;
    assert p < q * stride + stride;
    RowsApart(q, t, stride);
  }

  lemma {:induction false} RowTruncate(j: nat, m: nat, n: nat, f: (nat, nat) -> real)
    requires m <= n && forall t: nat :: m <= t < n ==> f(j, t) == 0.0
    ensures RowSum(j, n, f) == RowSum(j, m, f)
  {
    if m < n {
      RowTruncate(j, m, n - 1, f);
    }
  }

  lemma {:induction false} RowsTruncate(r: nat, m: nat, n: nat, f: (nat, nat) -> real)
    requires m <= n && forall j: nat, t: nat :: j < r && m <= t < n ==> f(j, t) == 0.0
    ensures Rows(r, n, f) == Rows(r, m, f)
  {
    if r > 0 {
      RowsTruncate(r - 1, m, n, f);
      RowTruncate(r - 1, m, n, f);
    }
  }

  /** Samples later than `p / stride` land beyond `p`. */
  lemma LateSamplesMissed(x: Wave, w: GroupKernel, g: Stretch, local: nat, p: nat, first: nat)
    requires g.stride > 0 && p < g.length * g.stride
    ensures Rows(g.inPer, g.length, Landings(x, w, g, local, p, first)) ==
            Rows(g.inPer, p / g.stride + 1, Landings(x, w, g, local, p, first))
  {
    var m := p / g.stride + 1;
    if m > g.length {
      BelowPosition(g.length, p, g.stride);
      assert false;
    }
    var f := Landings(x, w, g, local, p, first);
    hide Lands, Rows;
    forall j: nat, t: nat | j < g.inPer && m <= t < g.length
      ensures f(j, t) == 0.0
    {
      BeyondPosition(t, p, g.stride);
      LandsLate(x, w, g, local, p, first + j, t);
    }
    RowsTruncate(g.inPer, m, g.length, f);
  }

  lemma LandsLate(x: Wave, w: GroupKernel, g: Stretch, local: nat, p: nat, i: nat, t: nat)
    requires p < t * g.stride
    ensures Lands(x, w, g, local, p, i, t) == 0.0
  {
  }

  lemma BelowPosition(t: nat, p: nat, stride: nat)
    requires stride > 0 && t <= p / stride
    ensures t * stride <= p
  {
    var q := p / stride;
    assert q * stride <= p;
    if t < q {
      RowsApart(t, q, stride);
    }
  }

  // ---------------------------------------------------------------- the whole call

  const WORD: nat := 0x1_0000_0000_0000_0000

  /** The output length in the machine's arithmetic, which wraps. */
  function OutputLength(length: nat, kernel: nat, stride: nat): nat {
    var full := ((length - 1) * stride + kernel) % WORD;
    (full - (kernel - stride) % WORD) % WORD
  }

  /** Whatever wraps on the way, the result is the length times the stride, and exactly that
      whenever it fits in a word. */
  lemma OutputLengthIs(length: nat, kernel: nat, stride: nat)
    ensures OutputLength(length, kernel, stride) == (length * stride) % WORD
    ensures length * stride < WORD ==> OutputLength(length, kernel, stride) == length * stride
  {
    var a, b := (length - 1) * stride + kernel, kernel - stride;
    assert a - b == length * stride by { LessOne(length, stride); }
    ModOfDifference(a, b);
  }

  lemma LessOne(length: nat, stride: nat)
    ensures (length - 1) * stride == length * stride - stride
  {
  }

  lemma ModOfDifference(a: int, b: int)
    ensures (a % WORD - b % WORD) % WORD == (a - b) % WORD
  {
    var q, r := a / WORD, b / WORD;
    assert a == WORD * q + a % WORD && b == WORD * r + b % WORD;
    ModShift(a % WORD - b % WORD, q - r);
  }

  lemma {:induction false} ModShift(x: int, n: int)
    ensures (x + WORD * n) % WORD == x % WORD
    decreases if n < 0 then -n else n
  {
    if n > 0 {
      ModShift(x, n - 1);
      ModStep(x + WORD * (n - 1));
    } else if n < 0 {
      ModShift(x, n + 1);
      ModStep(x + WORD * n);
    }
  }

  lemma ModStep(x: int)
    ensures (x + WORD) % WORD == x % WORD
  {
  }

  method ScatterAll(
    g: Stretch, groups: nat, d: Buffers, order: seq<nat>, out: array<real>, width: nat, channels: nat)
    requires Fits(g, groups, d) && channels == groups * g.outPer && width <= g.length * g.stride
    requires out.Length == channels * width && EachOnce(order, channels)
    modifies out
    ensures forall o: nat, p: nat :: o < channels && p < width ==> Get(out[..], At(o, width, p)) == Gathered(g, d, o, p)
  {
    hide At, Gathered, Fits;
    for i := 0 to |order|
      invariant forall q: nat, p: nat :: q < i && p < width ==> Get(out[..], At(order[q], width, p)) == Gathered(g, d, order[q], p)
    {
      ScatterChannel(g, groups, d, out, width, channels, order[i]);
    }
    forall o: nat, p: nat | o < channels && p < width
      ensures Get(out[..], At(o, width, p)) == Gathered(g, d, o, p)
    {
      assert o in order;
      var q :| 0 <= q < |order| && order[q] == o;
    }
  }

  /** `mynah_conv_transpose_causal`: the channels in any order the pool runs them in. */
  method ConvTransposeCausal(g: Stretch, groups: nat, d: Buffers, order: seq<nat>, out: array<real>)
    requires Fits(g, groups, d) && g.length * g.stride < WORD
    requires out.Length == groups * g.outPer * (g.length * g.stride) && EachOnce(order, groups * g.outPer)
    modifies out
    ensures forall o: nat, p: nat :: o < groups * g.outPer && p < g.length * g.stride ==>
      Get(out[..], At(o, g.length * g.stride, p)) == Gathered(g, d, o, p)
  {
    hide At, Gathered, OutputLength, EachOnce;
    OutputLengthIs(g.length, g.kernel, g.stride);
    var width := OutputLength(g.length, g.kernel, g.stride);
    ScatterAll(g, groups, d, order, out, width, groups * g.outPer);
  }
}
