/** The codec's decoder as a function of the codes, and why decoding a prefix gives a prefix. */
module NanoCodec {
  import opened Multiplying
  import opened Sums
  import opened CausalConv
  import opened TransposedConv

  type Bias = nat -> real
  type Snake = (nat, real) -> real   // channel, sample

  /** The weights of the residual layers of one stage, by branch and block. */
  datatype Residual = Residual(
    inAct: (nat, nat) -> Snake, inConv: (nat, nat) -> Kernel, inBias: (nat, nat) -> Bias,
    skipAct: (nat, nat) -> Snake, skipConv: (nat, nat) -> Kernel, skipBias: (nat, nat) -> Bias)

  datatype Codec = Codec(
    pre: Kernel, preBias: Bias,
    act: nat -> Snake, up: nat -> GroupKernel, upBias: nat -> Bias, res: nat -> Residual,
    postAct: Snake, post: Kernel, postBias: Bias)

  const GROUPS := 8
  const LATENT := 32
  const STAGES := 5

  function Level(d: nat): nat {
    if d == 0 then 8 else if d == 1 then 7 else 6
  }

  function Base(d: nat): nat {
    if d == 0 then 1 else if d == 1 then 8 else if d == 2 then 56 else 336
  }

  /** Digit `d` of a code, centred on zero. */
  function Digit(code: nat, d: nat): real {
    var digit := (code / Base(d)) % Level(d);
    (digit as real - (Level(d) / 2) as real) / (Level(d) / 2) as real
  }

  /** Four digits a code. */
  function Latent(codes: (nat, nat) -> nat): Wave {
    (c: nat, t: nat) => Digit(codes(c / 4, t), c % 4)
  }

  // ---------------------------------------------------------------- what a latent says

  /** The digit a number of the latent came from: the centring on half the levels undone. */
  function Undone(v: real, half: nat): real {
    v * half as real + half as real
  }

  lemma DigitOf(code: nat, d: nat, digit: nat, half: nat)
    requires d < 4 && half > 0 && Level(d) / 2 == half && digit == (code / Base(d)) % Level(d)
    ensures Undone(Digit(code, d), half) == digit as real
  {
    Centred(digit as real, half as real);
  }

  lemma Centred(x: real, h: real)
    requires h > 0.0
    ensures (x - h) / h * h + h == x
  {
  }

  /** Taking off one digit after another. */
  lemma MixedRadix(code: nat)
    ensures code % 2016 == code % 8 + 8 * ((code / 8) % 7 + 7 * ((code / 56) % 6 + 6 * ((code / 336) % 6)))
  {
    var a, a0 := code / 8, code % 8;
    var b, a1 := a / 7, a % 7;
    var c, a2 := b / 6, b % 6;
    var e, a3 := c / 6, c % 6;
    assert code == 8 * a + a0 && a == 7 * b + a1 && b == 6 * c + a2 && c == 6 * e + a3;
    Below(code, 56, b, 8 * a1 + a0);
    Below(code, 336, c, 56 * a2 + 8 * a1 + a0);
    Below(code, 2016, e, 336 * a3 + 56 * a2 + 8 * a1 + a0);
  }

  lemma FourDigits(code: nat) returns (a0: nat, a1: nat, a2: nat, a3: nat)
    ensures Undone(Digit(code, 0), 4) == a0 as real && Undone(Digit(code, 1), 3) == a1 as real
    ensures Undone(Digit(code, 2), 3) == a2 as real && Undone(Digit(code, 3), 3) == a3 as real
    ensures a0 < 8 && a1 < 7 && a2 < 6 && a3 < 6
    ensures code % 2016 == a0 + 8 * (a1 + 7 * (a2 + 6 * a3))
  {
    hide Digit, Undone;
    assert code / 1 == code;
    a0, a1, a2, a3 := code % 8, (code / 8) % 7, (code / 56) % 6, (code / 336) % 6;
    DigitOf(code, 0, a0, 4);
    DigitOf(code, 1, a1, 3);
    DigitOf(code, 2, a2, 3);
    DigitOf(code, 3, a3, 3);
    MixedRadix(code);
  }

  lemma LatentAt(codes: (nat, nat) -> nat, g: nat, t: nat, d: nat)
    requires d < 4
    ensures Latent(codes)(4 * g + d, t) == Digit(codes(g, t), d)
  {
    hide Digit;
    Below(4 * g + d, 4, g, d);
  }

  /** The four numbers a code becomes are its digits, of 8, 7, 6 and 6 levels, each centred on zero:
      undone they are the code again. */
  lemma LatentIsTheCode(codes: (nat, nat) -> nat, g: nat, t: nat) returns (a0: nat, a1: nat, a2: nat, a3: nat)
    ensures var x := Latent(codes);
      && Undone(x(4 * g, t), 4) == a0 as real && Undone(x(4 * g + 1, t), 3) == a1 as real
      && Undone(x(4 * g + 2, t), 3) == a2 as real && Undone(x(4 * g + 3, t), 3) == a3 as real
    ensures a0 < 8 && a1 < 7 && a2 < 6 && a3 < 6
    ensures codes(g, t) % 2016 == a0 + 8 * (a1 + 7 * (a2 + 6 * a3))
    ensures codes(g, t) < 2016 ==> codes(g, t) == a0 + 8 * (a1 + 7 * (a2 + 6 * a3))
  {
    hide Latent, Digit, Undone;
    a0, a1, a2, a3 := FourDigits(codes(g, t));
    LatentAt(codes, g, t, 0);
    LatentAt(codes, g, t, 1);
    LatentAt(codes, g, t, 2);
    LatentAt(codes, g, t, 3);
    if codes(g, t) < 2016 {
      Below(codes(g, t), 2016, 0, codes(g, t));
    }
  }

  /** So different codes have different latents. */
  lemma CodesAreToldApart(a: (nat, nat) -> nat, b: (nat, nat) -> nat, g: nat, t: nat)
    requires forall c: nat :: 4 * g <= c < 4 * g + 4 ==> Latent(a)(c, t) == Latent(b)(c, t)
    ensures a(g, t) % 2016 == b(g, t) % 2016
    ensures a(g, t) < 2016 && b(g, t) < 2016 ==> a(g, t) == b(g, t)
  {
    hide Latent;
    var a0, a1, a2, a3 := LatentIsTheCode(a, g, t);
    var b0, b1, b2, b3 := LatentIsTheCode(b, g, t);
  }

  function Rate(stage: nat): nat {
    if stage < 2 then 8 else if stage == 2 then 4 else 2
  }

  function Channels(stage: nat): nat {
    if stage == 0 then 864 else Channels(stage - 1) / 2
  }

  /** Samples for each frame before stage `stage`. */
  function Scale(stage: nat): nat {
    if stage == 0 then 1 else Scale(stage - 1) * Rate(stage - 1)
  }

  function BranchKernel(branch: nat): nat {
    if branch == 0 then 3 else if branch == 1 then 7 else 11
  }

  function BlockDilation(block: nat): nat {
    if block == 0 then 1 else if block == 1 then 3 else 5
  }

  // ------------------------------------------------------------------- the layers

  function ConvWave(x: Wave, w: Kernel, b: Bias, inChannels: nat, kernel: nat, dilation: nat): Wave {
    (o: nat, t: nat) => ConvAt(x, w, b, inChannels, kernel, dilation, o, t)
  }

  function ConvTWave(x: Wave, w: GroupKernel, b: Bias, g: Stretch): Wave
    requires g.outPer > 0 && g.stride > 0
  {
    (o: nat, p: nat) => ConvTAt(x, w, b, g, o, p)
  }

  /** Snake on the first half of the channels, a leaky rectifier on the rest. */
  function Activated(a: Snake, channels: nat, c: nat, v: real): real {
    if c < channels / 2 then a(c, v) else if v < 0.0 then v * 0.01 else v
  }

  function HalfSnake(x: Wave, a: Snake, channels: nat): Wave {
    (c: nat, t: nat) => Activated(a, channels, c, x(c, t))
  }

  function Plus(x: Wave, y: Wave): Wave {
    (c: nat, t: nat) => x(c, t) + y(c, t)
  }

  /** Block `block` of a branch: two activations and convolutions, added to what came in. */
  function Inner(x: Wave, r: Residual, channels: nat, branch: nat, block: nat): Wave {
    ConvWave(HalfSnake(x, r.inAct(branch, block), channels), r.inConv(branch, block), r.inBias(branch, block),
             channels, BranchKernel(branch), BlockDilation(block))
  }

  function Skip(x: Wave, r: Residual, channels: nat, branch: nat, block: nat): Wave {
    ConvWave(HalfSnake(Inner(x, r, channels, branch, block), r.skipAct(branch, block), channels),
             r.skipConv(branch, block), r.skipBias(branch, block), channels, BranchKernel(branch), 1)
  }

  function Branch(x: Wave, r: Residual, channels: nat, branch: nat, blocks: nat): Wave {
    if blocks == 0 then x
    else
      var y := Branch(x, r, channels, branch, blocks - 1);
      Plus(y, Skip(y, r, channels, branch, blocks - 1))
  }

  function Silence(): Wave {
    (c: nat, t: nat) => 0.0
  }

  function BranchSum(x: Wave, r: Residual, channels: nat, branches: nat): Wave {
    if branches == 0 then Silence()
    else Plus(BranchSum(x, r, channels, branches - 1), Branch(x, r, channels, branches - 1, 3))
  }

  /** The residual layer: the mean of three branches. */
  function ResLayer(x: Wave, r: Residual, channels: nat): Wave {
    var sum := BranchSum(x, r, channels, 3);
    (c: nat, t: nat) => sum(c, t) / 3.0
  }

  function Upsample(stage: nat, length: nat): Stretch {
    Stretch(2, 1, length, Rate(stage) * 2, Rate(stage))
  }

  function Upsampled(codec: Codec, x: Wave, stage: nat): Wave {
    ConvTWave(HalfSnake(x, codec.act(stage), Channels(stage)), codec.up(stage), codec.upBias(stage), Upsample(stage, 0))
  }

  function Stages(codec: Codec, x: Wave, stages: nat): Wave {
    if stages == 0 then x
    else ResLayer(Upsampled(codec, Stages(codec, x, stages - 1), stages - 1), codec.res(stages - 1), Channels(stages))
  }

  function Clip(v: real): real {
    if v > 1.0 then 1.0 else if v < -1.0 then -1.0 else v
  }

  function BeforePost(codec: Codec, codes: (nat, nat) -> nat): Wave {
    Stages(codec, ConvWave(Latent(codes), codec.pre, codec.preBias, LATENT, 7, 1), STAGES)
  }

  function Post(codec: Codec, x: Wave): Wave {
    ConvWave(HalfSnake(x, codec.postAct, Channels(STAGES)), codec.post, codec.postBias, Channels(STAGES), 3, 1)
  }

  /** Sample `p` of the audio. */
  function Sample(codec: Codec, codes: (nat, nat) -> nat, p: nat): real {
    Clip(Post(codec, BeforePost(codec, codes))(0, p))
  }

  // -------------------------------------------------------- what the layers come to

  /** Half of the channels pass what is not negative and a hundredth of what is. */
  lemma ActivationIs(a: Snake, channels: nat, c: nat, v: real)
    ensures 2 * c + 2 <= channels ==> Activated(a, channels, c, v) == a(c, v)
    ensures 2 * c + 2 > channels && v >= 0.0 ==> Activated(a, channels, c, v) == v
    ensures 2 * c + 2 > channels && v <= 0.0 ==> 100.0 * Activated(a, channels, c, v) == v
  {
  }

  ghost predicate Muted(r: Residual) {
    && (forall b: nat, j: nat, o: nat :: r.skipBias(b, j)(o) == 0.0)
    && (forall b: nat, j: nat, o: nat, i: nat, k: nat :: r.skipConv(b, j)(o, i, k) == 0.0)
  }

  lemma MutedSkip(x: Wave, r: Residual, channels: nat, branch: nat, block: nat, c: nat, t: nat)
    requires Muted(r)
    ensures Skip(x, r, channels, branch, block)(c, t) == 0.0
  {
    hide Rows, Shift, Inner;
    var y := HalfSnake(Inner(x, r, channels, branch, block), r.skipAct(branch, block), channels);
    RowsSilent(channels, BranchKernel(branch), Taps(y, r.skipConv(branch, block), BranchKernel(branch), 1, c, t));
  }

  lemma {:induction false} MutedBranch(x: Wave, r: Residual, channels: nat, branch: nat, blocks: nat, c: nat, t: nat)
    requires Muted(r)
    ensures Branch(x, r, channels, branch, blocks)(c, t) == x(c, t)
  {
    hide Muted, Skip;
    if blocks > 0 {
      MutedBranch(x, r, channels, branch, blocks - 1, c, t);
      MutedSkip(Branch(x, r, channels, branch, blocks - 1), r, channels, branch, blocks - 1, c, t);
    }
  }

  /** A residual layer whose blocks add nothing passes its input through, as it is. */
  lemma MutedLayer(x: Wave, r: Residual, channels: nat, c: nat, t: nat)
    requires Muted(r)
    ensures ResLayer(x, r, channels)(c, t) == x(c, t)
  {
    hide Muted, Branch;
    MutedBranch(x, r, channels, 0, 3, c, t);
    MutedBranch(x, r, channels, 1, 3, c, t);
    MutedBranch(x, r, channels, 2, 3, c, t);
    assert BranchSum(x, r, channels, 1)(c, t) == Branch(x, r, channels, 0, 3)(c, t);
    assert BranchSum(x, r, channels, 2)(c, t) == Branch(x, r, channels, 0, 3)(c, t) + Branch(x, r, channels, 1, 3)(c, t);
  }

  /** Audio stays in range, and what is in range is not touched. */
  lemma AudioInRange(codec: Codec, codes: (nat, nat) -> nat, p: nat)
    ensures -1.0 <= Sample(codec, codes, p) <= 1.0
    ensures var v := Post(codec, BeforePost(codec, codes))(0, p); -1.0 <= v <= 1.0 ==> Sample(codec, codes, p) == v
  {
    hide Post, BeforePost;
  }

  // -------------------------------------------------------------------- causality

  /** The two signals cannot be told apart before time `n`. */
  ghost predicate Agree(x: Wave, y: Wave, channels: nat, n: nat) {
    forall c: nat, t: nat :: c < channels && t < n ==> x(c, t) == y(c, t)
  }

  lemma ConvAgree(x: Wave, y: Wave, w: Kernel, b: Bias, inC: nat, kernel: nat, dilation: nat, outC: nat, n: nat)
    requires Agree(x, y, inC, n)
    ensures Agree(ConvWave(x, w, b, inC, kernel, dilation), ConvWave(y, w, b, inC, kernel, dilation), outC, n)
  {
    hide Rows, Shift;
    forall o: nat, t: nat | o < outC && t < n
      ensures ConvAt(x, w, b, inC, kernel, dilation, o, t) == ConvAt(y, w, b, inC, kernel, dilation, o, t)
    {
      RowsSame(inC, kernel, Taps(x, w, kernel, dilation, o, t), Taps(y, w, kernel, dilation, o, t));
    }
  }

  /** Position `p` of the stretched signal depends on nothing after `p / stride`, nor on how long
      the signal is. */
  lemma ConvTAgree(x: Wave, y: Wave, w: GroupKernel, b: Bias, g: Stretch, h: Stretch, groups: nat, n: nat)
    requires g.outPer > 0 && g.stride > 0 && h == g.(length := h.length)
    requires Agree(x, y, groups * g.inPer, n)
    ensures Agree(ConvTWave(x, w, b, g), ConvTWave(y, w, b, h), groups * g.outPer, n * g.stride)
  {
    forall o: nat, p: nat | o < groups * g.outPer && p < n * g.stride
      ensures ConvTAt(x, w, b, g, o, p) == ConvTAt(y, w, b, h, o, p)
    {
      ConvTAgreeAt(x, y, w, b, g, h, groups, n, o, p);
    }
    hide ConvTAt;
  }

  lemma ConvTAgreeAt(
    x: Wave, y: Wave, w: GroupKernel, b: Bias, g: Stretch, h: Stretch, groups: nat, n: nat, o: nat, p: nat)
    requires g.outPer > 0 && g.stride > 0 && h == g.(length := h.length)
    requires Agree(x, y, groups * g.inPer, n) && o < groups * g.outPer && p < n * g.stride
    ensures ConvTAt(x, w, b, g, o, p) == ConvTAt(y, w, b, h, o, p)
  {
    var group, local := o / g.outPer, o % g.outPer;
    var first := group * g.inPer;
    GroupWithin(o, g.outPer, groups);
    GroupChannels(group, groups, g.inPer);
    var m := p / g.stride + 1;
    if m > n {
      BelowPosition(n, p, g.stride);
      assert false;
    }
    var f, f' := Landings(x, w, g, local, p, first), Landings(y, w, h, local, p, first);
    hide Rows, Lands;
    forall j: nat, t: nat | j < g.inPer && t < m
      ensures f(j, t) == f'(j, t)
    {
      LandsSame(x, y, w, g, h, local, p, first + j, t);
    }
    RowsSame(g.inPer, m, f, f');
  }

  lemma LandsSame(x: Wave, y: Wave, w: GroupKernel, g: Stretch, h: Stretch, local: nat, p: nat, i: nat, t: nat)
    requires h == g.(length := h.length) && x(i, t) == y(i, t)
    ensures Lands(x, w, g, local, p, i, t) == Lands(y, w, h, local, p, i, t)
  {
  }

  lemma SnakeAgree(x: Wave, y: Wave, a: Snake, channels: nat, n: nat)
    requires Agree(x, y, channels, n)
    ensures Agree(HalfSnake(x, a, channels), HalfSnake(y, a, channels), channels, n)
  {
  }

  lemma PlusAgree(x: Wave, y: Wave, u: Wave, v: Wave, channels: nat, n: nat)
    requires Agree(x, y, channels, n) && Agree(u, v, channels, n)
    ensures Agree(Plus(x, u), Plus(y, v), channels, n)
  {
  }

  lemma InnerAgree(x: Wave, y: Wave, r: Residual, channels: nat, branch: nat, block: nat, n: nat)
    requires Agree(x, y, channels, n)
    ensures Agree(Inner(x, r, channels, branch, block), Inner(y, r, channels, branch, block), channels, n)
  {
    hide Agree;
    SnakeAgree(x, y, r.inAct(branch, block), channels, n);
    ConvAgree(HalfSnake(x, r.inAct(branch, block), channels), HalfSnake(y, r.inAct(branch, block), channels),
              r.inConv(branch, block), r.inBias(branch, block), channels, BranchKernel(branch), BlockDilation(block),
              channels, n);
  }

  lemma SkipAgree(x: Wave, y: Wave, r: Residual, channels: nat, branch: nat, block: nat, n: nat)
    requires Agree(x, y, channels, n)
    ensures Agree(Skip(x, r, channels, branch, block), Skip(y, r, channels, branch, block), channels, n)
  {
    hide Agree, Inner;
    InnerAgree(x, y, r, channels, branch, block, n);
    var u, v := Inner(x, r, channels, branch, block), Inner(y, r, channels, branch, block);
    SnakeAgree(u, v, r.skipAct(branch, block), channels, n);
    ConvAgree(HalfSnake(u, r.skipAct(branch, block), channels), HalfSnake(v, r.skipAct(branch, block), channels),
              r.skipConv(branch, block), r.skipBias(branch, block), channels, BranchKernel(branch), 1, channels, n);
  }

  lemma {:induction false} BranchAgree(x: Wave, y: Wave, r: Residual, channels: nat, branch: nat, blocks: nat, n: nat)
    requires Agree(x, y, channels, n)
    ensures Agree(Branch(x, r, channels, branch, blocks), Branch(y, r, channels, branch, blocks), channels, n)
    decreases blocks
  {
    hide Agree, Skip;
    if blocks > 0 {
      var u, v := Branch(x, r, channels, branch, blocks - 1), Branch(y, r, channels, branch, blocks - 1);
      BranchAgree(x, y, r, channels, branch, blocks - 1, n);
      SkipAgree(u, v, r, channels, branch, blocks - 1, n);
      PlusAgree(u, v, Skip(u, r, channels, branch, blocks - 1), Skip(v, r, channels, branch, blocks - 1), channels, n);
    }
  }

  lemma {:induction false} BranchSumAgree(x: Wave, y: Wave, r: Residual, channels: nat, branches: nat, n: nat)
    requires Agree(x, y, channels, n)
    ensures Agree(BranchSum(x, r, channels, branches), BranchSum(y, r, channels, branches), channels, n)
    decreases branches
  {
    if branches > 0 {
      BranchSumAgree(x, y, r, channels, branches - 1, n);
      BranchAgree(x, y, r, channels, branches - 1, 3, n);
      hide Agree, Branch;
      PlusAgree(BranchSum(x, r, channels, branches - 1), BranchSum(y, r, channels, branches - 1),
                Branch(x, r, channels, branches - 1, 3), Branch(y, r, channels, branches - 1, 3), channels, n);
    }
  }

  lemma ResAgree(x: Wave, y: Wave, r: Residual, channels: nat, n: nat)
    requires Agree(x, y, channels, n)
    ensures Agree(ResLayer(x, r, channels), ResLayer(y, r, channels), channels, n)
  {
    BranchSumAgree(x, y, r, channels, 3, n);
    hide BranchSum;
  }

  lemma ChannelsHalve(stage: nat)
    requires stage < STAGES
    ensures Channels(stage) == Channels(stage + 1) * 2
  {
    assert Channels(1) == 432 && Channels(2) == 216 && Channels(3) == 108 && Channels(4) == 54 && Channels(5) == 27;
  }

  lemma UpsampledAgree(codec: Codec, x: Wave, y: Wave, stage: nat, n: nat)
    requires stage < STAGES && Agree(x, y, Channels(stage), n)
    ensures Agree(Upsampled(codec, x, stage), Upsampled(codec, y, stage), Channels(stage + 1), n * Rate(stage))
  {
    hide Agree, Channels, Rate;
    ChannelsHalve(stage);
    SnakeAgree(x, y, codec.act(stage), Channels(stage), n);
    RatePositive(stage);
    ConvTAgree(HalfSnake(x, codec.act(stage), Channels(stage)), HalfSnake(y, codec.act(stage), Channels(stage)),
               codec.up(stage), codec.upBias(stage), Upsample(stage, 0), Upsample(stage, 0), Channels(stage + 1), n);
  }

  lemma RatePositive(stage: nat)
    ensures Rate(stage) > 0
  {
  }

  lemma ScaleStep(n: nat, stage: nat)
    ensures n * Scale(stage) * Rate(stage) == n * Scale(stage + 1)
  {
  }

  lemma {:induction false} StagesAgree(codec: Codec, x: Wave, y: Wave, stages: nat, n: nat)
    requires stages <= STAGES && Agree(x, y, Channels(0), n)
    ensures Agree(Stages(codec, x, stages), Stages(codec, y, stages), Channels(stages), n * Scale(stages))
    decreases stages
  {
    hide Agree, Channels, Rate, Upsampled, ResLayer;
    if stages > 0 {
      StagesAgree(codec, x, y, stages - 1, n);
      ScaleStep(n, stages - 1);
      hide Scale;
      var u, v := Stages(codec, x, stages - 1), Stages(codec, y, stages - 1);
      UpsampledAgree(codec, u, v, stages - 1, n * Scale(stages - 1));
      ResAgree(Upsampled(codec, u, stages - 1), Upsampled(codec, v, stages - 1), codec.res(stages - 1),
               Channels(stages), n * Scale(stages));
    }
  }

  lemma ScaleIs()
    ensures Scale(STAGES) == 1024
  {
    assert Scale(1) == 8 && Scale(2) == 64 && Scale(3) == 256 && Scale(4) == 512;
  }

  /** Causality of the decoder: codes that agree on the first `n` frames decode to the same first
      1024 * n samples. */
  lemma DecodeIsCausal(codec: Codec, a: (nat, nat) -> nat, b: (nat, nat) -> nat, n: nat)
    requires forall g: nat, t: nat :: g < GROUPS && t < n ==> a(g, t) == b(g, t)
    ensures forall p: nat :: p < 1024 * n ==> Sample(codec, a, p) == Sample(codec, b, p)
  {
    assert Agree(Latent(a), Latent(b), LATENT, n);
    hide Agree, Stages, Channels, Latent;
    var x, y := ConvWave(Latent(a), codec.pre, codec.preBias, LATENT, 7, 1), ConvWave(Latent(b), codec.pre, codec.preBias, LATENT, 7, 1);
    ConvAgree(Latent(a), Latent(b), codec.pre, codec.preBias, LATENT, 7, 1, Channels(0), n);
    StagesAgree(codec, x, y, STAGES, n);
    ScaleIs();
    var u, v := Stages(codec, x, STAGES), Stages(codec, y, STAGES);
    PostAgree(codec, u, v, 1024 * n);
  }

  lemma PostAgree(codec: Codec, u: Wave, v: Wave, n: nat)
    requires Agree(u, v, Channels(STAGES), n)
    ensures forall p: nat :: p < n ==> Post(codec, u)(0, p) == Post(codec, v)(0, p)
  {
    var c := Channels(STAGES);
    hide Channels;
    SnakeAgree(u, v, codec.postAct, c, n);
    ConvAgree(HalfSnake(u, codec.postAct, c), HalfSnake(v, codec.postAct, c), codec.post, codec.postBias, c, 3, 1, 1, n);
    hide ConvAt, HalfSnake;
  }

  // ----------------------------------------------------------------- whole streams

  function CodesOf(codes: seq<nat>, frames: nat): (nat, nat) -> nat {
    (g: nat, t: nat) => if At(g, frames, t) < |codes| then codes[At(g, frames, t)] else 0
  }

  /** The decode of a stream of `frames` frames, stored group by group. */
  function Decode(codec: Codec, codes: seq<nat>, frames: nat): seq<real> {
    seq(1024 * frames, p requires 0 <= p => Sample(codec, CodesOf(codes, frames), p))
  }

  /** `part` is the first `n` frames of `codes`. */
  ghost predicate Prefix(part: seq<nat>, n: nat, codes: seq<nat>, frames: nat) {
    n <= frames && |part| == GROUPS * n && |codes| == GROUPS * frames &&
    forall g: nat, t: nat :: g < GROUPS && t < n ==> CodesOf(part, n)(g, t) == CodesOf(codes, frames)(g, t)
  }

  /** The decode of a prefix is the prefix of the decode, for every stream and every prefix: what
      streaming rests on. */
  lemma DecodePrefix(codec: Codec, part: seq<nat>, n: nat, codes: seq<nat>, frames: nat)
    requires Prefix(part, n, codes, frames)
    ensures Decode(codec, part, n) == Decode(codec, codes, frames)[..1024 * n]
  {
    DecodeIsCausal(codec, CodesOf(part, n), CodesOf(codes, frames), n);
    hide Sample, CodesOf;
    assert |Decode(codec, part, n)| == 1024 * n;
    forall p | 0 <= p < 1024 * n
      ensures Decode(codec, part, n)[p] == Decode(codec, codes, frames)[p]
    {
    }
  }

  /** So the samples a stream has already been given never change as more frames arrive. */
  lemma StreamedSamplesAreFinal(
    codec: Codec, early: seq<nat>, m: nat, late: seq<nat>, n: nat, codes: seq<nat>, frames: nat)
    requires m <= n && Prefix(early, m, codes, frames) && Prefix(late, n, codes, frames)
    ensures Decode(codec, early, m) <= Decode(codec, late, n) <= Decode(codec, codes, frames)
  {
    DecodePrefix(codec, early, m, codes, frames);
    DecodePrefix(codec, late, n, codes, frames);
    hide Sample, CodesOf;
    var whole := Decode(codec, codes, frames);
    assert whole[..1024 * n][..1024 * m] == whole[..1024 * m];
  }
}
