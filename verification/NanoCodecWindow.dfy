/** Decoding in windows. A decoder that is started in the middle of a stream hears silence where
    there was speech, and no more than 25 frames later nothing of that is left: from there on its
    samples are those of a decoder that heard everything. */
module NanoCodecWindow {
  import opened Multiplying
  import opened Sums
  import opened CausalConv
  import opened TransposedConv
  import opened NanoCodec

  /** From `lo` on, `x` is `y` from `lo + d` on. */
  ghost predicate Alike(x: Wave, y: Wave, channels: nat, d: nat, lo: nat, n: nat) {
    forall c: nat, t: nat :: c < channels && lo <= t < n ==> x(c, t) == y(c, t + d)
  }

  lemma AlikeLater(x: Wave, y: Wave, channels: nat, d: nat, lo: nat, later: nat, n: nat)
    requires Alike(x, y, channels, d, lo, n) && lo <= later
    ensures Alike(x, y, channels, d, later, n)
  {
  }

  // ------------------------------------------------------------------- layer by layer

  lemma SnakeAlike(x: Wave, y: Wave, a: Snake, channels: nat, d: nat, lo: nat, n: nat)
    requires Alike(x, y, channels, d, lo, n)
    ensures Alike(HalfSnake(x, a, channels), HalfSnake(y, a, channels), channels, d, lo, n)
  {
  }

  lemma PlusAlike(x: Wave, y: Wave, u: Wave, v: Wave, channels: nat, d: nat, lo: nat, n: nat)
    requires Alike(x, y, channels, d, lo, n) && Alike(u, v, channels, d, lo, n)
    ensures Alike(Plus(x, u), Plus(y, v), channels, d, lo, n)
  {
  }

  lemma LooksBack(k: nat, kernel: nat, dilation: nat)
    requires k < kernel
    ensures Shift(k, kernel, dilation) <= (kernel - 1) * dilation
  {
    Monotone(kernel - 1 - k, kernel - 1, dilation);
  }

  /** A convolution forgets what is more than its kernel, dilated, ago. */
  lemma ConvAlike(
    x: Wave, y: Wave, w: Kernel, b: Bias, inC: nat, kernel: nat, dilation: nat, outC: nat, d: nat, lo: nat, n: nat)
    requires kernel > 0 && Alike(x, y, inC, d, lo, n)
    ensures Alike(ConvWave(x, w, b, inC, kernel, dilation), ConvWave(y, w, b, inC, kernel, dilation), outC,
                  d, lo + (kernel - 1) * dilation, n)
  {
    var reach: nat := (kernel - 1) * dilation;
    forall o: nat, t: nat | o < outC && lo + reach <= t < n
      ensures ConvAt(x, w, b, inC, kernel, dilation, o, t) == ConvAt(y, w, b, inC, kernel, dilation, o, t + d)
    {
      ConvAlikeAt(x, y, w, b, inC, kernel, dilation, d, lo, n, o, t);
    }
    hide ConvAt;
  }

  lemma ConvAlikeAt(
    x: Wave, y: Wave, w: Kernel, b: Bias, inC: nat, kernel: nat, dilation: nat, d: nat, lo: nat, n: nat, o: nat, t: nat)
    requires kernel > 0 && Alike(x, y, inC, d, lo, n) && lo + (kernel - 1) * dilation <= t < n
    ensures ConvAt(x, w, b, inC, kernel, dilation, o, t) == ConvAt(y, w, b, inC, kernel, dilation, o, t + d)
  {
    hide Rows, Shift;
    var f, g := Taps(x, w, kernel, dilation, o, t), Taps(y, w, kernel, dilation, o, t + d);
    forall i: nat, k: nat | i < inC && k < kernel
      ensures f(i, k) == g(i, k)
    {
      LooksBack(k, kernel, dilation);
      var back := Shift(k, kernel, dilation);
      assert x(i, t - back) == y(i, t - back + d);
    }
    RowsSame(inC, kernel, f, g);
  }

  // ----------------------------------------------------------- the transposed convolution

  /** Two sums that differ only in how many zeros they begin with. */
  lemma {:induction false} RowShifted(i: nat, z: nat, e: nat, n: nat, f: (nat, nat) -> real, g: (nat, nat) -> real)
    requires forall k: nat :: k < z ==> f(i, k) == 0.0
    requires forall k: nat :: k < z + e ==> g(i, k) == 0.0
    requires forall k: nat :: z <= k < z + n ==> f(i, k) == g(i, k + e)
    ensures RowSum(i, z + n, f) == RowSum(i, z + e + n, g)
  {
    if n == 0 {
      RowSilent(i, z, f);
      RowSilent(i, z + e, g);
    } else {
      RowShifted(i, z, e, n - 1, f, g);
      assert f(i, z + n - 1) == g(i, z + n - 1 + e);
    }
  }

  lemma {:induction false} RowsShifted(m: nat, z: nat, e: nat, n: nat, f: (nat, nat) -> real, g: (nat, nat) -> real)
    requires forall i: nat, k: nat :: i < m && k < z ==> f(i, k) == 0.0
    requires forall i: nat, k: nat :: i < m && k < z + e ==> g(i, k) == 0.0
    requires forall i: nat, k: nat :: i < m && z <= k < z + n ==> f(i, k) == g(i, k + e)
    ensures Rows(m, z + n, f) == Rows(m, z + e + n, g)
  {
    if m > 0 {
      RowsShifted(m - 1, z, e, n, f, g);
      RowShifted(m - 1, z, e, n, f, g);
    }
  }

  /** With taps for two strides a sample reaches no further than the next one. */
  lemma EarlyMisses(x: Wave, w: GroupKernel, g: Stretch, local: nat, p: nat, i: nat, t: nat)
    requires g.stride > 0 && g.kernel == g.stride * 2 && t + 2 <= p / g.stride
    ensures Lands(x, w, g, local, p, i, t) == 0.0
  {
    Monotone(t + 2, p / g.stride, g.stride);
    assert p == g.stride * (p / g.stride) + p % g.stride;
    assert (t + 2) * g.stride == t * g.stride + g.stride * 2;
  }

  lemma LandsAlike(x: Wave, y: Wave, w: GroupKernel, g: Stretch, local: nat, p: nat, i: nat, t: nat, d: nat)
    requires x(i, t) == y(i, t + d)
    ensures Lands(x, w, g, local, p, i, t) == Lands(y, w, g, local, p + d * g.stride, i, t + d)
  {
    assert (t + d) * g.stride == t * g.stride + d * g.stride;
  }

  /** At position `p` only the samples `m - 1` and `m` land. */
  lemma LandingsAlike(
    x: Wave, y: Wave, w: GroupKernel, g: Stretch, local: nat, p: nat, p': nat, first: nat, m: nat, d: nat)
    requires g.stride > 0 && g.kernel == g.stride * 2 && m > 0 && m == p / g.stride
    requires p' == p + d * g.stride && m + d == p' / g.stride
    requires forall i: nat, t: nat :: first <= i < first + g.inPer && m - 1 <= t <= m ==> x(i, t) == y(i, t + d)
    ensures Rows(g.inPer, m + 1, Landings(x, w, g, local, p, first)) == Rows(g.inPer, m + d + 1, Landings(y, w, g, local, p', first))
  {
    hide Rows, Lands;
    var f, f' := Landings(x, w, g, local, p, first), Landings(y, w, g, local, p', first);
    forall j: nat, k: nat | j < g.inPer && k < m - 1
      ensures f(j, k) == 0.0
    {
      EarlyMisses(x, w, g, local, p, first + j, k);
    }
    forall j: nat, k: nat | j < g.inPer && k < m - 1 + d
      ensures f'(j, k) == 0.0
    {
      EarlyMisses(y, w, g, local, p', first + j, k);
    }
    forall j: nat, k: nat | j < g.inPer && m - 1 <= k < m + 1
      ensures f(j, k) == f'(j, k + d)
    {
      LandsAlike(x, y, w, g, local, p, first + j, k, d);
    }
    RowsShifted(g.inPer, m - 1, d, 2, f, f');
  }

  lemma ConvTAlikeAt(
    x: Wave, y: Wave, w: GroupKernel, b: Bias, g: Stretch, groups: nat, d: nat, lo: nat, n: nat, o: nat, p: nat)
    requires g.outPer > 0 && g.stride > 0 && g.kernel == g.stride * 2
    requires Alike(x, y, groups * g.inPer, d, lo, n) && o < groups * g.outPer && (lo + 1) * g.stride <= p < n * g.stride
    ensures ConvTAt(x, w, b, g, o, p) == ConvTAt(y, w, b, g, o, p + d * g.stride)
  {
    hide Rows, Landings, ConvTAt;
    var group, local, m := o / g.outPer, o % g.outPer, p / g.stride;
    Between(p, g.stride, lo, n);
    Later(p, g.stride, d);
    ConvTIs(x, w, b, g, o, p, group, local, m);
    ConvTIs(y, w, b, g, o, p + d * g.stride, group, local, m + d);
    GroupWithin(o, g.outPer, groups);
    InGroup(x, y, groups, g.inPer, group, d, lo, n, m);
    LandingsAlike(x, y, w, g, local, p, p + d * g.stride, group * g.inPer, m, d);
  }

  lemma ConvTIs(x: Wave, w: GroupKernel, b: Bias, g: Stretch, o: nat, p: nat, group: nat, local: nat, m: nat)
    requires g.outPer > 0 && g.stride > 0 && group == o / g.outPer && local == o % g.outPer && m == p / g.stride
    ensures ConvTAt(x, w, b, g, o, p) == b(o) + Rows(g.inPer, m + 1, Landings(x, w, g, local, p, group * g.inPer))
  {
    hide Rows, Landings;
  }

  lemma InGroup(x: Wave, y: Wave, groups: nat, inPer: nat, group: nat, d: nat, lo: nat, n: nat, m: nat)
    requires Alike(x, y, groups * inPer, d, lo, n) && group < groups && lo < m < n
    ensures forall i: nat, t: nat :: group * inPer <= i < group * inPer + inPer && m - 1 <= t <= m ==> x(i, t) == y(i, t + d)
  {
    GroupChannels(group, groups, inPer);
  }

  lemma Between(p: nat, stride: nat, lo: nat, n: nat)
    requires stride > 0 && (lo + 1) * stride <= p < n * stride
    ensures lo + 1 <= p / stride < n
  {
    var m := p / stride;
    assert p == m * stride + p % stride;
    if m < lo + 1 {
      Monotone(m + 1, lo + 1, stride);
      assert false;
    }
    if m >= n {
      Monotone(n, m, stride);
      assert false;
    }
  }

  lemma Later(p: nat, stride: nat, d: nat)
    requires stride > 0
    ensures (p + d * stride) / stride == p / stride + d
  {
    assert p + d * stride == stride * (p / stride + d) + p % stride;
    Below(p + d * stride, stride, p / stride + d, p % stride);
  }

  lemma ConvTAlike(x: Wave, y: Wave, w: GroupKernel, b: Bias, g: Stretch, groups: nat, d: nat, lo: nat, n: nat)
    requires g.outPer > 0 && g.stride > 0 && g.kernel == g.stride * 2
    requires Alike(x, y, groups * g.inPer, d, lo, n)
    ensures Alike(ConvTWave(x, w, b, g), ConvTWave(y, w, b, g), groups * g.outPer,
                  d * g.stride, (lo + 1) * g.stride, n * g.stride)
  {
    forall o: nat, p: nat | o < groups * g.outPer && (lo + 1) * g.stride <= p < n * g.stride
      ensures ConvTAt(x, w, b, g, o, p) == ConvTAt(y, w, b, g, o, p + d * g.stride)
    {
      ConvTAlikeAt(x, y, w, b, g, groups, d, lo, n, o, p);
    }
    hide ConvTAt;
  }

  // ------------------------------------------------------------------- residual layers

  /** What one block of a branch forgets late. */
  function BlockReach(branch: nat, block: nat): nat {
    (BranchKernel(branch) - 1) * BlockDilation(block) + (BranchKernel(branch) - 1)
  }

  function BranchReach(branch: nat, blocks: nat): nat {
    if blocks == 0 then 0 else BranchReach(branch, blocks - 1) + BlockReach(branch, blocks - 1)
  }

  lemma BlockReaches(branch: nat, block: nat)
    requires branch < 3 && block < 3
    ensures BlockReach(branch, block) == (2 + 4 * branch) * (2 + 2 * block)
  {
    assert block == 0 || block == 1 || block == 2;
    assert branch == 0 || branch == 1 || branch == 2;
  }

  /** Kernels of 3, 7 and 11 over dilations 1, 3 and 5, an input and a skip convolution each. */
  lemma BranchReaches(branch: nat)
    ensures BranchReach(branch, 3) == if branch == 0 then 24 else if branch == 1 then 72 else 120
  {
    var b := if branch < 3 then branch else 2;
    BlockReaches(b, 0);
    BlockReaches(b, 1);
    BlockReaches(b, 2);
    assert BranchReach(branch, 1) == BlockReach(branch, 0);
    assert BranchReach(branch, 2) == BlockReach(branch, 0) + BlockReach(branch, 1);
  }

  lemma SkipAlike(x: Wave, y: Wave, r: Residual, channels: nat, branch: nat, block: nat, d: nat, lo: nat, n: nat)
    requires Alike(x, y, channels, d, lo, n)
    ensures Alike(Skip(x, r, channels, branch, block), Skip(y, r, channels, branch, block), channels,
                  d, lo + BlockReach(branch, block), n)
  {
    hide Alike, ConvWave, HalfSnake;
    var k, dil := BranchKernel(branch), BlockDilation(block);
    SnakeAlike(x, y, r.inAct(branch, block), channels, d, lo, n);
    ConvAlike(HalfSnake(x, r.inAct(branch, block), channels), HalfSnake(y, r.inAct(branch, block), channels),
              r.inConv(branch, block), r.inBias(branch, block), channels, k, dil, channels, d, lo, n);
    var u, v, mid := Inner(x, r, channels, branch, block), Inner(y, r, channels, branch, block), lo + (k - 1) * dil;
    SnakeAlike(u, v, r.skipAct(branch, block), channels, d, mid, n);
    ConvAlike(HalfSnake(u, r.skipAct(branch, block), channels), HalfSnake(v, r.skipAct(branch, block), channels),
              r.skipConv(branch, block), r.skipBias(branch, block), channels, k, 1, channels, d, mid, n);
  }

  lemma {:induction false} BranchAlike(
    x: Wave, y: Wave, r: Residual, channels: nat, branch: nat, blocks: nat, d: nat, lo: nat, n: nat)
    requires Alike(x, y, channels, d, lo, n)
    ensures Alike(Branch(x, r, channels, branch, blocks), Branch(y, r, channels, branch, blocks), channels,
                  d, lo + BranchReach(branch, blocks), n)
    decreases blocks
  {
    hide Alike, Skip, Plus, BlockReach;
    if blocks > 0 {
      var u, v := Branch(x, r, channels, branch, blocks - 1), Branch(y, r, channels, branch, blocks - 1);
      var mid := lo + BranchReach(branch, blocks - 1);
      BranchAlike(x, y, r, channels, branch, blocks - 1, d, lo, n);
      SkipAlike(u, v, r, channels, branch, blocks - 1, d, mid, n);
      AlikeLater(u, v, channels, d, mid, mid + BlockReach(branch, blocks - 1), n);
      PlusAlike(u, v, Skip(u, r, channels, branch, blocks - 1), Skip(v, r, channels, branch, blocks - 1), channels,
                d, mid + BlockReach(branch, blocks - 1), n);
    }
  }

  lemma {:induction false} BranchSumAlike(x: Wave, y: Wave, r: Residual, channels: nat, branches: nat, d: nat, lo: nat, n: nat)
    requires Alike(x, y, channels, d, lo, n)
    ensures Alike(BranchSum(x, r, channels, branches), BranchSum(y, r, channels, branches), channels, d, lo + 120, n)
    decreases branches
  {
    hide Alike, Branch, Plus, BranchReach, Silence;
    if branches == 0 {
      SilenceAlike(channels, d, lo + 120, n);
    } else {
      var b := branches - 1;
      BranchSumAlike(x, y, r, channels, b, d, lo, n);
      BranchAlike(x, y, r, channels, b, 3, d, lo, n);
      BranchReaches(b);
      AlikeLater(Branch(x, r, channels, b, 3), Branch(y, r, channels, b, 3), channels, d, lo + BranchReach(b, 3), lo + 120, n);
      PlusAlike(BranchSum(x, r, channels, b), BranchSum(y, r, channels, b),
                Branch(x, r, channels, b, 3), Branch(y, r, channels, b, 3), channels, d, lo + 120, n);
    }
  }

  lemma SilenceAlike(channels: nat, d: nat, lo: nat, n: nat)
    ensures Alike(Silence(), Silence(), channels, d, lo, n)
  {
  }

  lemma ResAlike(x: Wave, y: Wave, r: Residual, channels: nat, d: nat, lo: nat, n: nat)
    requires Alike(x, y, channels, d, lo, n)
    ensures Alike(ResLayer(x, r, channels), ResLayer(y, r, channels), channels, d, lo + 120, n)
  {
    BranchSumAlike(x, y, r, channels, 3, d, lo, n);
    hide BranchSum;
  }

  // --------------------------------------------------------------------- the stages

  /** One stage on: upsampling reaches back one sample, the residual layer 120 of the faster ones. */
  function Blurred(lo: nat, stage: nat): nat {
    (lo + 1) * Rate(stage) + 120
  }

  /** After how many of its samples stage `stage` starts from what it should. */
  function Blur(stage: nat): nat {
    if stage == 0 then 6 else Blurred(Blur(stage - 1), stage - 1)
  }

  lemma BlurIs()
    ensures Blur(STAGES) == 25438
  {
    assert Blur(0) == 6 && Blur(1) == 176 && Blur(2) == 1536 && Blur(3) == 6268 && Blur(4) == 12658;
  }

  lemma UpsampledAlike(codec: Codec, x: Wave, y: Wave, stage: nat, d: nat, lo: nat, n: nat)
    requires stage < STAGES && Alike(x, y, Channels(stage), d, lo, n)
    ensures Alike(Upsampled(codec, x, stage), Upsampled(codec, y, stage), Channels(stage + 1),
                  d * Rate(stage), (lo + 1) * Rate(stage), n * Rate(stage))
  {
    hide Alike, Channels, Rate;
    ChannelsHalve(stage);
    SnakeAlike(x, y, codec.act(stage), Channels(stage), d, lo, n);
    RatePositive(stage);
    ConvTAlike(HalfSnake(x, codec.act(stage), Channels(stage)), HalfSnake(y, codec.act(stage), Channels(stage)),
               codec.up(stage), codec.upBias(stage), Upsample(stage, 0), Channels(stage + 1), d, lo, n);
  }

  lemma StageAlike(codec: Codec, x: Wave, y: Wave, stage: nat, d: nat, lo: nat, n: nat, d': nat, n': nat)
    requires stage < STAGES && Alike(x, y, Channels(stage), d, lo, n) && d' == d * Rate(stage) && n' == n * Rate(stage)
    ensures Alike(ResLayer(Upsampled(codec, x, stage), codec.res(stage), Channels(stage + 1)),
                  ResLayer(Upsampled(codec, y, stage), codec.res(stage), Channels(stage + 1)), Channels(stage + 1),
                  d', Blurred(lo, stage), n')
  {
    hide Alike, Channels, Rate, Upsampled, ResLayer;
    UpsampledAlike(codec, x, y, stage, d, lo, n);
    ResAlike(Upsampled(codec, x, stage), Upsampled(codec, y, stage), codec.res(stage), Channels(stage + 1),
             d', (lo + 1) * Rate(stage), n');
  }

  lemma {:induction false} StagesAlike(codec: Codec, x: Wave, y: Wave, stages: nat, d: nat, n: nat)
    requires stages <= STAGES && Alike(x, y, Channels(0), d, 6, n)
    ensures Alike(Stages(codec, x, stages), Stages(codec, y, stages), Channels(stages),
                  d * Scale(stages), Blur(stages), n * Scale(stages))
    decreases stages
  {
    hide Alike, Channels, Rate, Upsampled, ResLayer, Blurred;
    if stages > 0 {
      StagesAlike(codec, x, y, stages - 1, d, n);
      ScaleStep(n, stages - 1);
      ScaleStep(d, stages - 1);
      hide Scale;
      StageAlike(codec, Stages(codec, x, stages - 1), Stages(codec, y, stages - 1), stages - 1,
                 d * Scale(stages - 1), Blur(stages - 1), n * Scale(stages - 1), d * Scale(stages), n * Scale(stages));
    }
  }

  lemma PostAlike(codec: Codec, u: Wave, v: Wave, d: nat, lo: nat, n: nat)
    requires Alike(u, v, Channels(STAGES), d, lo, n)
    ensures forall p: nat :: lo + 2 <= p < n ==> Post(codec, u)(0, p) == Post(codec, v)(0, p + d)
  {
    var c := Channels(STAGES);
    hide Channels;
    SnakeAlike(u, v, codec.postAct, c, d, lo, n);
    ConvAlike(HalfSnake(u, codec.postAct, c), HalfSnake(v, codec.postAct, c), codec.post, codec.postBias, c, 3, 1, 1, d, lo, n);
    hide ConvAt, HalfSnake;
  }

  /** The codes from frame `d` on are those of `whole`. */
  ghost predicate WindowOf(window: (nat, nat) -> nat, whole: (nat, nat) -> nat, d: nat, n: nat) {
    forall g: nat, t: nat :: g < GROUPS && t < n ==> window(g, t) == whole(g, t + d)
  }

  lemma LatentAlike(window: (nat, nat) -> nat, whole: (nat, nat) -> nat, d: nat, n: nat)
    requires WindowOf(window, whole, d, n)
    ensures Alike(Latent(window), Latent(whole), LATENT, d, 0, n)
  {
    hide Digit;
    forall c: nat, t: nat | c < LATENT && t < n
      ensures Latent(window)(c, t) == Latent(whole)(c, t + d)
    {
      assert window(c / 4, t) == whole(c / 4, t + d);
    }
  }

  /** A decoder started at frame `d` has, from its 25th frame on, the samples of one that was
      started at the beginning. */
  lemma WindowIsExact(codec: Codec, window: (nat, nat) -> nat, whole: (nat, nat) -> nat, d: nat, n: nat)
    requires WindowOf(window, whole, d, n)
    ensures forall p: nat :: 25 * 1024 <= p < 1024 * n ==> Sample(codec, window, p) == Sample(codec, whole, p + 1024 * d)
  {
    hide Alike, Stages, Channels, Latent, Blur, Scale, Post, Sample, Clip, ConvWave, WindowOf;
    LatentAlike(window, whole, d, n);
    var u, v := Latent(window), Latent(whole);
    ConvAlike(u, v, codec.pre, codec.preBias, LATENT, 7, 1, Channels(0), d, 0, n);
    var x, y := ConvWave(u, codec.pre, codec.preBias, LATENT, 7, 1), ConvWave(v, codec.pre, codec.preBias, LATENT, 7, 1);
    StagesAlike(codec, x, y, STAGES, d, n);
    ScaleIs();
    BlurIs();
    PostAlike(codec, Stages(codec, x, STAGES), Stages(codec, y, STAGES), 1024 * d, Blur(STAGES), 1024 * n);
    forall p: nat | 25 * 1024 <= p < 1024 * n
      ensures Sample(codec, window, p) == Sample(codec, whole, p + 1024 * d)
    {
      SampleIs(codec, window, x, p);
      SampleIs(codec, whole, y, p + 1024 * d);
    }
  }

  lemma SampleIs(codec: Codec, codes: (nat, nat) -> nat, x: Wave, p: nat)
    requires x == ConvWave(Latent(codes), codec.pre, codec.preBias, LATENT, 7, 1)
    ensures Sample(codec, codes, p) == Clip(Post(codec, Stages(codec, x, STAGES))(0, p))
  {
    hide ConvWave, Stages, Post, Latent, Clip;
  }
}
