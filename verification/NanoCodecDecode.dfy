/** The decoder as it runs, buffer by buffer: what each buffer holds is the wave that the NanoCodec
    module says. */
module NanoCodecDecode {
  import opened Multiplying
  import opened Sums
  import opened CausalConv
  import opened TransposedConv
  import opened Conv1d
  import opened NanoCodec
  import opened Pool

  datatype Tensor = Tensor(at: nat, data: seq<real>)
  datatype Layer = Layer(weight: Tensor, bias: seq<real>)

  datatype ResidualPack = ResidualPack(
    inAct: (nat, nat) -> Snake, inConv: (nat, nat) -> Layer, skipAct: (nat, nat) -> Snake, skipConv: (nat, nat) -> Layer)

  /** The weights as they are stored. */
  datatype Pack = Pack(
    pre: Layer, act: nat -> Snake, up: nat -> Layer, res: nat -> ResidualPack, postAct: Snake, post: Layer)

  function KernelIn(l: Layer, channels: nat, kernel: nat): Kernel {
    KernelOf(l.weight.data, channels, kernel)
  }

  function ResidualOf(r: ResidualPack, channels: nat): Residual {
    Residual(
      r.inAct, (b: nat, j: nat) => KernelIn(r.inConv(b, j), channels, BranchKernel(b)), (b: nat, j: nat) => BiasOf(r.inConv(b, j).bias),
      r.skipAct, (b: nat, j: nat) => KernelIn(r.skipConv(b, j), channels, BranchKernel(b)), (b: nat, j: nat) => BiasOf(r.skipConv(b, j).bias))
  }

  function CodecOf(p: Pack): Codec {
    Codec(
      KernelIn(p.pre, LATENT, 7), BiasOf(p.pre.bias), p.act,
      (s: nat) => GroupKernelOf(p.up(s).weight.data, 1, Rate(s) * 2), (s: nat) => BiasOf(p.up(s).bias),
      (s: nat) => ResidualOf(p.res(s), Channels(s + 1)),
      p.postAct, KernelIn(p.post, Channels(STAGES), 3), BiasOf(p.post.bias))
  }

  /** A layer's weights have the size the layer needs, and are what is at their address. */
  ghost predicate Stored(l: Layer, outC: nat, inC: nat, kernel: nat, memory: nat -> seq<real>) {
    |l.weight.data| == outC * inC * kernel && |l.bias| == outC && l.weight.data == memory(l.weight.at)
  }

  ghost predicate ResidualStored(r: ResidualPack, c: nat, memory: nat -> seq<real>) {
    forall b: nat, j: nat :: b < 3 && j < 3 ==>
      Stored(r.inConv(b, j), c, c, BranchKernel(b), memory) && Stored(r.skipConv(b, j), c, c, BranchKernel(b), memory)
  }

  /** The buffer holds the wave. */
  ghost predicate Carries(out: seq<real>, channels: nat, length: nat, x: Wave) {
    |out| == channels * length &&
    forall c: nat, t: nat :: c < channels && t < length ==> Get(out, At(c, length, t)) == x(c, t)
  }

  lemma CarriesAgrees(out: seq<real>, channels: nat, length: nat, x: Wave)
    requires Carries(out, channels, length, x)
    ensures Agree(WaveOf(out, length), x, channels, length)
  {
  }

  lemma CarriesSame(out: seq<real>, channels: nat, length: nat, x: Wave, y: Wave)
    requires Carries(out, channels, length, x) && Agree(x, y, channels, length)
    ensures Carries(out, channels, length, y)
  {
  }

  /** What does not depend on the data: the algorithm chosen, the backend, and the luck of each
      convolution. */
  datatype Setting = Setting(tapGemms: bool, backend: bool, luck: nat -> Luck)

  /** Nothing is in the way of any convolution: there is a backend, and memory for one tap. */
  ghost predicate Lucky(env: Setting) {
    env.backend && forall call: nat :: env.luck(call).tapMemory
  }

  /** A layer's convolution of something: its weights and its output have a size, and a tap's
      matrix fits into memory's addresses. No layer of the decoder has more channels. */
  predicate Moderate(outC: nat, inC: nat, length: nat) {
    0 < outC <= 864 && 0 < inC <= 864 && 0 < length
  }

  lemma ModerateFits(outC: nat, inC: nat, length: nat)
    requires Moderate(outC, inC, length)
    ensures outC * inC * FLOAT_BYTES <= SIZE_MAX
  {
    Monotone(inC, 864, outC);
    Monotone(outC, 864, 864);
    assert outC * inC <= 864 * 864;
  }

  // ------------------------------------------------------------------- the steps

  method ConvInto(
    env: Setting, call: nat, l: Layer, s: Shape, input: array<real>, output: array<real>, cache: TapCache?,
    ghost memory: nat -> seq<real>, ghost x: Wave) returns (ok: bool)
    requires Stored(l, s.outChannels, s.inChannels, s.kernel, memory) && s.kernel >= 1
    requires Carries(input[..], s.inChannels, s.length, x) && output.Length == s.outChannels * s.length
    requires cache != null ==> cache.Valid(memory)
    modifies output, cache
    ensures cache != null ==> cache.Valid(memory)
    ensures Lucky(env) && Moderate(s.outChannels, s.inChannels, s.length) ==> ok
    ensures ok ==> Carries(output[..], s.outChannels, s.length,
      ConvWave(x, KernelIn(l, s.inChannels, s.kernel), BiasOf(l.bias), s.inChannels, s.kernel, s.dilation))
  {
    var d := Operands(input[..], l.weight.data, l.bias);
    CarriesAgrees(input[..], s.inChannels, s.length, x);
    if Moderate(s.outChannels, s.inChannels, s.length) {
      ModerateFits(s.outChannels, s.inChannels, s.length);
    }
    ok := Conv1dCausal(s, d, env.tapGemms, env.backend, env.luck(call), l.weight.at, cache, null, output, memory);
    if ok {
      hide Agree, ConvAt, KernelOf, WaveOf, At;
      ConvAgree(WaveOf(d.input, s.length), x, KernelIn(l, s.inChannels, s.kernel), BiasOf(l.bias), s.inChannels,
                s.kernel, s.dilation, s.outChannels, s.length);
      HoldsCarries(s, d, output[..]);
      CarriesSame(output[..], s.outChannels, s.length,
        ConvWave(WaveOf(d.input, s.length), KernelIn(l, s.inChannels, s.kernel), BiasOf(l.bias), s.inChannels, s.kernel, s.dilation),
        ConvWave(x, KernelIn(l, s.inChannels, s.kernel), BiasOf(l.bias), s.inChannels, s.kernel, s.dilation));
    }
  }

  lemma HoldsCarries(s: Shape, d: Operands, out: seq<real>)
    requires Holds(s, d, out)
    ensures Carries(out, s.outChannels, s.length,
      ConvWave(WaveOf(d.input, s.length), KernelOf(d.weight, s.inChannels, s.kernel), BiasOf(d.bias), s.inChannels, s.kernel, s.dilation))
  {
  }

  /** In place, a channel at a time. */
  method HalfSnakeInPlace(a: Snake, signal: array<real>, channels: nat, length: nat, ghost x: Wave)
    requires Carries(signal[..], channels, length, x)
    modifies signal
    ensures Carries(signal[..], channels, length, HalfSnake(x, a, channels))
  {
    AtsWithin(channels, length);
    hide At, Activated;
    for c := 0 to channels
      invariant forall r: nat, t: nat :: r < c && t < length ==> Get(signal[..], At(r, length, t)) == Activated(a, channels, r, x(r, t))
      invariant forall r: nat, t: nat :: c <= r < channels && t < length ==> Get(signal[..], At(r, length, t)) == x(r, t)
    {
      for t := 0 to length
        invariant forall r: nat, q: nat :: r < c && q < length ==> Get(signal[..], At(r, length, q)) == Activated(a, channels, r, x(r, q))
        invariant forall q: nat :: q < t ==> Get(signal[..], At(c, length, q)) == Activated(a, channels, c, x(c, q))
        invariant forall q: nat :: t <= q < length ==> Get(signal[..], At(c, length, q)) == x(c, q)
        invariant forall r: nat, q: nat :: c < r < channels && q < length ==> Get(signal[..], At(r, length, q)) == x(r, q)
      {
        AtApart(c, length, t);
        signal[At(c, length, t)] := Activated(a, channels, c, signal[At(c, length, t)]);
      }
    }
  }

  method Copy(from: array<real>, to: array<real>)
    requires from.Length == to.Length && from != to
    modifies to
    ensures to[..] == from[..]
  {
    for i := 0 to to.Length
      invariant forall k :: 0 <= k < i ==> to[k] == from[k]
    {
      to[i] := from[i];
    }
  }

  method AddInto(to: array<real>, from: array<real>, ghost channels: nat, ghost length: nat, ghost x: Wave, ghost y: Wave)
    requires from.Length == to.Length && from != to
    modifies to
    ensures Carries(old(to[..]), channels, length, x) && Carries(from[..], channels, length, y) ==>
      Carries(to[..], channels, length, Plus(x, y))
  {
    for i := 0 to to.Length
      invariant forall k :: 0 <= k < i ==> to[k] == old(to[k]) + from[k]
      invariant forall k :: i <= k < to.Length ==> to[k] == old(to[k])
    {
      to[i] := to[i] + from[i];
    }
    AtsWithin(channels, length);
    hide At;
  }

  method Third(a: array<real>, ghost channels: nat, ghost length: nat, ghost x: Wave)
    modifies a
    ensures Carries(old(a[..]), channels, length, x) ==> Carries(a[..], channels, length, (c: nat, t: nat) => x(c, t) / 3.0)
  {
    for i := 0 to a.Length
      invariant forall k :: 0 <= k < i ==> a[k] == old(a[k]) / 3.0
      invariant forall k :: i <= k < a.Length ==> a[k] == old(a[k])
    {
      a[i] := a[i] / 3.0;
    }
    AtsWithin(channels, length);
    hide At;
  }

  // ----------------------------------------------------------- the residual layer

  /** The caller's buffer for an error text. A failure writes a text that fits at least one
      character into it, cuts it to nothing when there is room for the terminator only, and
      leaves a buffer of no size alone. */
  class ErrorText {
    const capacity: nat
    var written: bool

    constructor (capacity: nat, written: bool)
      ensures this.capacity == capacity && this.written == written
    {
      this.capacity, this.written := capacity, written;
    }

    method Report()
      modifies this
      ensures written == After(capacity, old(written))
    {
      if capacity > 1 {
        written := true;
      } else if capacity == 1 {
        written := false;
      }
    }
  }

  predicate After(capacity: nat, written: bool) {
    capacity > 1 || (capacity == 0 && written)
  }

  /** Whether the residual layer reports success: it looks at the text, not at the failure. */
  predicate SaysOk(hasText: bool, capacity: nat, writtenBefore: bool, failed: bool) {
    !hasText || !(if failed then After(capacity, writtenBefore) else writtenBefore)
  }

  /** Its report can be trusted, failure or not, exactly when it is given an empty buffer with
      room for a text. */
  lemma ReportIsTrueIff(hasText: bool, capacity: nat, writtenBefore: bool)
    ensures (forall failed :: SaysOk(hasText, capacity, writtenBefore, failed) == !failed) <==>
      hasText && capacity > 1 && !writtenBefore
  {
    if !(hasText && capacity > 1 && !writtenBefore) {
      assert SaysOk(hasText, capacity, writtenBefore, true) || !SaysOk(hasText, capacity, writtenBefore, false);
    }
  }

  method ResBlock(
    env: Setting, call: nat, r: ResidualPack, channels: nat, length: nat, b: nat, j: nat, current: array<real>,
    activated: array<real>, residual: array<real>, branch: array<real>, cache: TapCache?,
    ghost memory: nat -> seq<real>, ghost y: Wave) returns (ok: bool)
    requires b < 3 && j < 3 && ResidualStored(r, channels, memory) && Carries(current[..], channels, length, y)
    requires activated.Length == residual.Length == branch.Length == current.Length == channels * length
    requires activated !in {current, residual, branch} && residual !in {current, branch} && branch != current
    requires cache != null ==> cache.Valid(memory)
    modifies current, activated, residual, branch, cache
    ensures cache != null ==> cache.Valid(memory)
    ensures Lucky(env) && Moderate(channels, channels, length) ==> ok
    ensures ok ==> Carries(current[..], channels, length, Plus(y, Skip(y, ResidualOf(r, channels), channels, b, j)))
  {
    hide Carries, Stored, ConvAt, Activated, Lucky, Moderate;
    assert Stored(r.inConv(b, j), channels, channels, BranchKernel(b), memory);
    assert Stored(r.skipConv(b, j), channels, channels, BranchKernel(b), memory);
    Copy(current, activated);
    HalfSnakeInPlace(r.inAct(b, j), activated, channels, length, y);
    ghost var u := HalfSnake(y, r.inAct(b, j), channels);
    ok := ConvInto(env, call, r.inConv(b, j), Shape(channels, channels, length, BranchKernel(b), BlockDilation(j)),
                   activated, residual, cache, memory, u);
    if !ok {
      return;
    }
    ghost var v := Inner(y, ResidualOf(r, channels), channels, b, j);
    HalfSnakeInPlace(r.skipAct(b, j), residual, channels, length, v);
    ghost var z := HalfSnake(v, r.skipAct(b, j), channels);
    ok := ConvInto(env, call + 1, r.skipConv(b, j), Shape(channels, channels, length, BranchKernel(b), 1),
                   residual, branch, cache, memory, z);
    if ok {
      AddInto(current, branch, channels, length, y, Skip(y, ResidualOf(r, channels), channels, b, j));
    }
  }

  method BranchInto(
    env: Setting, call: nat, r: ResidualPack, channels: nat, length: nat, b: nat, current: array<real>,
    activated: array<real>, residual: array<real>, branch: array<real>, cache: TapCache?,
    ghost memory: nat -> seq<real>, ghost x: Wave) returns (ok: bool)
    requires b < 3 && ResidualStored(r, channels, memory) && Carries(current[..], channels, length, x)
    requires activated.Length == residual.Length == branch.Length == current.Length == channels * length
    requires activated !in {current, residual, branch} && residual !in {current, branch} && branch != current
    requires cache != null ==> cache.Valid(memory)
    modifies current, activated, residual, branch, cache
    ensures cache != null ==> cache.Valid(memory)
    ensures Lucky(env) && Moderate(channels, channels, length) ==> ok
    ensures ok ==> Carries(current[..], channels, length, Branch(x, ResidualOf(r, channels), channels, b, 3))
  {
    hide Carries, ResidualStored, Skip, ResidualOf, Lucky, Moderate;
    for j := 0 to 3
      invariant Carries(current[..], channels, length, Branch(x, ResidualOf(r, channels), channels, b, j))
      invariant cache != null ==> cache.Valid(memory)
    {
      ok := ResBlock(env, call + 2 * j, r, channels, length, b, j, current, activated, residual, branch, cache, memory,
                     Branch(x, ResidualOf(r, channels), channels, b, j));
      if !ok {
        return;
      }
    }
    ok := true;
  }

  /** One branch, started from the input and added to the output whether or not it failed. */
  method AddBranch(
    env: Setting, call: nat, r: ResidualPack, channels: nat, length: nat, b: nat, input: array<real>,
    output: array<real>, current: array<real>, activated: array<real>, residual: array<real>, branch: array<real>,
    error: ErrorText?, cache: TapCache?, ghost memory: nat -> seq<real>, ghost x: Wave, ghost sum: Wave)
    returns (fine: bool)
    requires b < 3 && ResidualStored(r, channels, memory) && Carries(input[..], channels, length, x)
    requires input.Length == output.Length == current.Length == channels * length
    requires activated.Length == residual.Length == branch.Length == channels * length
    requires activated !in {current, residual, branch} && residual !in {current, branch} && branch != current
    requires input !in {output, current, activated, residual, branch} && output !in {current, activated, residual, branch}
    requires cache != null ==> cache.Valid(memory)
    modifies output, current, activated, residual, branch, cache, error
    ensures cache != null ==> cache.Valid(memory)
    ensures Lucky(env) && Moderate(channels, channels, length) ==> fine
    ensures fine && old(Carries(output[..], channels, length, sum)) ==>
      Carries(output[..], channels, length, Plus(sum, Branch(x, ResidualOf(r, channels), channels, b, 3)))
    ensures error != null ==> error.written == if fine then old(error.written) else After(error.capacity, old(error.written))
  {
    hide Carries, ResidualStored, ResidualOf, Branch, Lucky, Moderate;
    Copy(input, current);
    fine := BranchInto(env, call, r, channels, length, b, current, activated, residual, branch, cache, memory, x);
    if !fine && error != null {
      error.Report();
    }
    AddInto(output, current, channels, length, sum, Branch(x, ResidualOf(r, channels), channels, b, 3));
  }

  /** `res_layer`. A failed convolution ends its branch only; what is reported depends on the
      error text. */
  method ResLayerInto(
    env: Setting, call: nat, r: ResidualPack, channels: nat, length: nat, input: array<real>, output: array<real>,
    error: ErrorText?, cache: TapCache?, ghost memory: nat -> seq<real>, ghost x: Wave)
    returns (ok: bool, ghost failed: bool)
    requires ResidualStored(r, channels, memory) && Carries(input[..], channels, length, x)
    requires input.Length == output.Length == channels * length && input != output
    requires cache != null ==> cache.Valid(memory)
    modifies output, cache, error
    ensures cache != null ==> cache.Valid(memory)
    ensures Lucky(env) && Moderate(channels, channels, length) ==> !failed
    ensures channels * length > 0 ==> ok == SaysOk(error != null, if error == null then 0 else error.capacity,
      error != null && old(if error == null then false else error.written), failed)
    ensures ok && error != null ==> !error.written
    ensures ok && !failed ==> Carries(output[..], channels, length, ResLayer(x, ResidualOf(r, channels), channels))
  {
    failed := false;
    Product(channels, length);
    if channels * length == 0 {
      if error != null {
        error.Report();
      }
      return false, true;
    }
    hide Carries, ResidualStored, ResidualOf, Branch, Lucky;
    var elements := channels * length;
    var branch := new real[elements](_ => 0.0);
    var current := new real[elements](_ => 0.0);
    var activated := new real[elements](_ => 0.0);
    var residual := new real[elements](_ => 0.0);
    Mute(output, channels, length);
    ghost var was := error != null && error.written;
    for b := 0 to 3
      invariant cache != null ==> cache.Valid(memory)
      invariant input[..] == old(input[..])
      invariant !failed ==> Carries(output[..], channels, length, BranchSum(x, ResidualOf(r, channels), channels, b))
      invariant error != null ==> error.written == if failed then After(error.capacity, was) else was
      invariant b > 0 && error != null ==> !error.written
      invariant Lucky(env) && Moderate(channels, channels, length) ==> !failed
    {
      var fine := AddBranch(env, call + 6 * b, r, channels, length, b, input, output, current, activated, residual,
                            branch, error, cache, memory, x, BranchSum(x, ResidualOf(r, channels), channels, b));
      failed := failed || !fine;
      if error != null && error.written {
        return false, failed;
      }
    }
    Third(output, channels, length, BranchSum(x, ResidualOf(r, channels), channels, 3));
    ok := error == null || !error.written;
  }

  method Mute(a: array<real>, ghost channels: nat, ghost length: nat)
    requires a.Length == channels * length
    modifies a
    ensures Carries(a[..], channels, length, Silence())
  {
    for i := 0 to a.Length
      invariant forall k :: 0 <= k < i ==> a[k] == 0.0
    {
      a[i] := 0.0;
    }
    AtsWithin(channels, length);
    hide At;
  }

  // -------------------------------------------------------------- the whole decode

  ghost predicate PackStored(p: Pack, memory: nat -> seq<real>) {
    && Stored(p.pre, Channels(0), LATENT, 7, memory)
    && Stored(p.post, 1, Channels(STAGES), 3, memory)
    && (forall s: nat :: s < STAGES ==> UpStored(p.up(s), s) && ResidualStored(p.res(s), Channels(s + 1), memory))
  }

  predicate UpStored(l: Layer, stage: nat) {
    |l.weight.data| == Channels(stage + 1) * 2 * 1 * (Rate(stage) * 2) && |l.bias| == Channels(stage + 1) * 1
  }

  /** One number of the latent, and no other. */
  method PutDigit(latent: array<real>, frames: nat, c: nat, t: nat, v: real)
    requires latent.Length == LATENT * frames && c < LATENT && t < frames
    modifies latent
    ensures Get(latent[..], At(c, frames, t)) == v
    ensures forall r: nat, q: nat :: q < frames && (q != t || r != c) ==>
      Get(latent[..], At(r, frames, q)) == Get(old(latent[..]), At(r, frames, q))
  {
    AtWithin(c, frames, t, LATENT);
    AtApart(c, frames, t);
    hide At;
    latent[At(c, frames, t)] := v;
  }

  /** One code's four digits. */
  method FillDigits(codes: seq<nat>, frames: nat, latent: array<real>, group: nat, t: nat)
    requires |codes| == GROUPS * frames && latent.Length == LATENT * frames && group < GROUPS && t < frames
    modifies latent
    ensures forall c: nat :: 4 * group <= c < 4 * group + 4 ==>
      Get(latent[..], At(c, frames, t)) == Latent(CodesOf(codes, frames))(c, t)
    ensures forall c: nat, q: nat :: q < frames && (q != t || c < 4 * group || 4 * group + 4 <= c) ==>
      Get(latent[..], At(c, frames, q)) == Get(old(latent[..]), At(c, frames, q))
  {
    hide At, Digit, Latent, Get;
    AtWithin(group, frames, t, GROUPS);
    var index := codes[At(group, frames, t)];
    for d := 0 to 4
      invariant forall c: nat :: 4 * group <= c < 4 * group + d ==>
        Get(latent[..], At(c, frames, t)) == Latent(CodesOf(codes, frames))(c, t)
      invariant forall c: nat, q: nat :: q < frames && (q != t || c < 4 * group || 4 * group + d <= c) ==>
        Get(latent[..], At(c, frames, q)) == Get(old(latent[..]), At(c, frames, q))
    {
      var v := Digit(index, d);
      PutDigit(latent, frames, 4 * group + d, t, v);
      LatentIs(codes, frames, group, d, t);
    }
  }

  method FillFrame(codes: seq<nat>, frames: nat, latent: array<real>, t: nat)
    requires |codes| == GROUPS * frames && latent.Length == LATENT * frames && t < frames
    modifies latent
    ensures forall c: nat :: c < LATENT ==> Get(latent[..], At(c, frames, t)) == Latent(CodesOf(codes, frames))(c, t)
    ensures forall c: nat, q: nat :: q < frames && q != t ==>
      Get(latent[..], At(c, frames, q)) == Get(old(latent[..]), At(c, frames, q))
  {
    hide At, Latent;
    for group := 0 to GROUPS
      invariant forall c: nat :: c < 4 * group ==> Get(latent[..], At(c, frames, t)) == Latent(CodesOf(codes, frames))(c, t)
      invariant forall c: nat, q: nat :: q < frames && q != t ==>
        Get(latent[..], At(c, frames, q)) == Get(old(latent[..]), At(c, frames, q))
    {
      FillDigits(codes, frames, latent, group, t);
    }
  }

  method FillLatent(codes: seq<nat>, frames: nat) returns (latent: array<real>)
    requires |codes| == GROUPS * frames
    ensures fresh(latent) && Carries(latent[..], LATENT, frames, Latent(CodesOf(codes, frames)))
  {
    latent := new real[LATENT * frames](_ => 0.0);
    hide At, Latent;
    for t := 0 to frames
      invariant forall c: nat, q: nat :: c < LATENT && q < t ==>
        Get(latent[..], At(c, frames, q)) == Latent(CodesOf(codes, frames))(c, q)
    {
      FillFrame(codes, frames, latent, t);
    }
  }

  lemma LatentIs(codes: seq<nat>, frames: nat, group: nat, d: nat, t: nat)
    requires d < 4 && At(group, frames, t) < |codes|
    ensures Latent(CodesOf(codes, frames))(4 * group + d, t) == Digit(codes[At(group, frames, t)], d)
  {
    assert (4 * group + d) % 4 == d && (4 * group + d) / 4 == group;
  }

  /** Snake and transposed convolution: the first half of a stage. */
  method UpsampleInto(
    p: Pack, stage: nat, frames: nat, current: array<real>, order: seq<nat>, upsampled: array<real>, ghost x: Wave)
    requires stage < STAGES && UpStored(p.up(stage), stage) && frames * Rate(stage) < WORD
    requires Carries(current[..], Channels(stage), frames, x) && current != upsampled
    requires upsampled.Length == Channels(stage + 1) * (frames * Rate(stage)) && EachOnce(order, Channels(stage + 1))
    modifies current, upsampled
    ensures Carries(upsampled[..], Channels(stage + 1), frames * Rate(stage), Upsampled(CodecOf(p), x, stage))
  {
    hide At, Channels, Rate, EachOnce, Activated, ConvTAt;
    ChannelsHalve(stage);
    RatePositive(stage);
    HalfSnakeInPlace(p.act(stage), current, Channels(stage), frames, x);
    ghost var y := HalfSnake(x, p.act(stage), Channels(stage));
    CarriesAgrees(current[..], Channels(stage), frames, y);
    var g := Upsample(stage, frames);
    var d := Buffers(current[..], p.up(stage).weight.data, p.up(stage).bias);
    ConvTransposeCausal(g, Channels(stage + 1), d, order, upsampled);
    hide Agree;
    ConvTAgree(WaveOf(d.input, frames), y, CodecOf(p).up(stage), CodecOf(p).upBias(stage), g, Upsample(stage, 0),
               Channels(stage + 1), frames);
    CarriesSame(upsampled[..], Channels(stage + 1), frames * Rate(stage),
      ConvTWave(WaveOf(d.input, frames), CodecOf(p).up(stage), CodecOf(p).upBias(stage), g), Upsampled(CodecOf(p), x, stage));
  }

  /** The residual layer's report can be trusted. */
  ghost predicate Trusted(error: ErrorText?)
    reads error
  {
    error != null && error.capacity > 1 && !error.written
  }

  ghost predicate Clean(error: ErrorText?)
    reads error
  {
    error == null || !error.written
  }

  method RunStage(
    env: Setting, p: Pack, stage: nat, frames: nat, current: array<real>, order: seq<nat>, error: ErrorText?,
    cache: TapCache?, ghost memory: nat -> seq<real>, ghost x: Wave) returns (ok: bool, next: array<real>)
    requires stage < STAGES && UpStored(p.up(stage), stage) && ResidualStored(p.res(stage), Channels(stage + 1), memory)
    requires 0 < frames * Rate(stage) < WORD && Carries(current[..], Channels(stage), frames, x)
    requires EachOnce(order, Channels(stage + 1)) && (cache != null ==> cache.Valid(memory))
    modifies current, cache, error
    ensures fresh(next) && next.Length == Channels(stage + 1) * (frames * Rate(stage))
    ensures cache != null ==> cache.Valid(memory)
    ensures ok ==> Clean(error)
    ensures Lucky(env) ==> ok == old(Clean(error))
    ensures ok && old(Trusted(error)) ==>
      Trusted(error) && Carries(next[..], Channels(stage + 1), frames * Rate(stage),
        ResLayer(Upsampled(CodecOf(p), x, stage), CodecOf(p).res(stage), Channels(stage + 1)))
  {
    hide Carries, ResidualStored, UpStored, EachOnce, ResLayer, Upsampled, Rate, Lucky;
    var channels, length := Channels(stage + 1), frames * Rate(stage);
    ChannelsPositive(stage + 1);
    hide Channels;
    var upsampled := new real[channels * length](_ => 0.0);
    UpsampleInto(p, stage, frames, current, order, upsampled, x);
    next := new real[channels * length](_ => 0.0);
    Product(channels, length);
    ghost var failed;
    ok, failed := ResLayerInto(env, 18 * stage + 1, p.res(stage), channels, length, upsampled, next, error, cache, memory,
                               Upsampled(CodecOf(p), x, stage));
  }

  lemma ChannelsPositive(stage: nat)
    requires stage <= STAGES
    ensures 0 < Channels(stage) <= 864
  {
    assert Channels(1) == 432 && Channels(2) == 216 && Channels(3) == 108 && Channels(4) == 54 && Channels(5) == 27;
  }

  lemma Product(a: nat, b: nat)
    ensures a > 0 && b > 0 ==> a * b > 0
  {
  }

  method ClipInPlace(audio: array<real>, ghost x: Wave)
    requires Carries(audio[..], 1, audio.Length, x)
    modifies audio
    ensures forall p :: 0 <= p < audio.Length ==> audio[p] == Clip(x(0, p))
  {
    for i := 0 to audio.Length
      invariant forall p :: 0 <= p < i ==> audio[p] == Clip(old(audio[p]))
      invariant forall p :: i <= p < audio.Length ==> audio[p] == old(audio[p])
    {
      if audio[i] > 1.0 {
        audio[i] := 1.0;
      }
      if audio[i] < -1.0 {
        audio[i] := -1.0;
      }
    }
    forall p: nat | p < audio.Length
      ensures old(audio[p]) == x(0, p)
    {
      assert At(0, audio.Length, p) == p;
      assert Get(old(audio[..]), At(0, audio.Length, p)) == x(0, p);
    }
  }

  lemma StageLength(frames: nat, stage: nat)
    requires stage < STAGES && frames * 1024 < WORD
    ensures frames * Scale(stage) * Rate(stage) == frames * Scale(stage + 1) < WORD
    ensures frames > 0 ==> frames * Scale(stage) * Rate(stage) > 0
  {
    ScaleStep(frames, stage);
    ScaleUpTo(stage + 1);
    Monotone(Scale(stage + 1), 1024, frames);
    Product(frames, Scale(stage + 1));
  }

  lemma ScaleUpTo(stage: nat)
    requires stage <= STAGES
    ensures 0 < Scale(stage) <= 1024
  {
    assert Scale(1) == 8 && Scale(2) == 64 && Scale(3) == 256 && Scale(4) == 512 && Scale(5) == 1024;
  }

  /** The stage loop. `y` is the wave in the buffer: that of the stages, if the reports could be
      trusted. */
  method RunStages(
    env: Setting, p: Pack, frames: nat, first: array<real>, orders: nat -> seq<nat>, error: ErrorText?,
    cache: TapCache?, ghost memory: nat -> seq<real>, ghost x: Wave)
    returns (ok: bool, length: nat, current: array<real>, ghost y: Wave)
    requires 0 < frames && frames * 1024 < WORD && PackStored(p, memory) && Carries(first[..], Channels(0), frames, x)
    requires forall s: nat :: s < STAGES ==> EachOnce(orders(s), Channels(s + 1))
    requires cache != null ==> cache.Valid(memory)
    modifies first, cache, error
    ensures cache != null ==> cache.Valid(memory)
    ensures current == first || fresh(current)
    ensures Lucky(env) ==> ok == old(Clean(error))
    ensures ok ==> length == frames * Scale(STAGES) && Carries(current[..], Channels(STAGES), length, y)
    ensures ok && old(Trusted(error)) ==> y == Stages(CodecOf(p), x, STAGES)
  {
    hide Carries, Stored, UpStored, ResidualStored, EachOnce, Channels, Rate, Scale, ResLayer, Upsampled, Lucky;
    current, length, y := first, frames, x;
    StartScale(frames);
    for stage := 0 to STAGES
      invariant (current == first || fresh(current)) && Carries(current[..], Channels(stage), length, y)
      invariant cache != null ==> cache.Valid(memory)
      invariant length == frames * Scale(stage)
      invariant stage > 0 ==> Clean(error)
      invariant Lucky(env) ==> Clean(error) == old(Clean(error))
      invariant old(Trusted(error)) ==> Trusted(error) && y == Stages(CodecOf(p), x, stage)
    {
      StageLength(frames, stage);
      ok, current := RunStage(env, p, stage, length, current, orders(stage), error, cache, memory, y);
      if !ok {
        return;
      }
      length := length * Rate(stage);
      if old(Trusted(error)) {
        y := Stages(CodecOf(p), x, stage + 1);
      } else {
        y := WaveOf(current[..], length);
        CarriesItself(current[..], Channels(stage + 1), length);
      }
    }
    ok := true;
  }

  /** `mynah_nanocodec_decode` on the processor. Given an empty error buffer with room for a text,
      it returns the decode of the codes or nothing, never anything else. With a backend and
      memory it returns nothing exactly for no frames, or when the error buffer held a text. */
  method DecodeCodes(
    env: Setting, p: Pack, codes: seq<nat>, frames: nat, orders: nat -> seq<nat>, error: ErrorText?,
    cache: TapCache?, ghost memory: nat -> seq<real>) returns (audio: array?<real>)
    requires |codes| == GROUPS * frames && frames * 1024 < WORD && PackStored(p, memory)
    requires forall s: nat :: s < STAGES ==> EachOnce(orders(s), Channels(s + 1))
    requires cache != null ==> cache.Valid(memory)
    modifies cache, error
    ensures cache != null ==> cache.Valid(memory)
    ensures frames == 0 ==> audio == null
    ensures Lucky(env) ==> (audio == null <==> frames == 0 || !old(Clean(error)))
    ensures audio != null ==> audio.Length == 1024 * frames
    ensures audio != null && old(Trusted(error)) ==> audio[..] == Decode(CodecOf(p), codes, frames)
  {
    hide Carries, Stored, UpStored, ResidualStored, EachOnce, Latent, ConvAt, Channels, Rate, Scale, ResLayer, Upsampled,
      Stages, Post, Clip, Decode, CodesOf, Lucky;
    if frames == 0 {
      return null;
    }
    ghost var codec := CodecOf(p);
    ghost var x := ConvWave(Latent(CodesOf(codes, frames)), codec.pre, codec.preBias, LATENT, 7, 1);
    ChannelsPositive(0);
    var latent := FillLatent(codes, frames);
    var channels: nat, length: nat := Channels(0), frames;
    var current := new real[channels * length](_ => 0.0);
    var ok := ConvInto(env, 0, p.pre, Shape(LATENT, channels, length, 7, 1), latent, current, cache, memory,
                       Latent(CodesOf(codes, frames)));
    if !ok {
      return null;
    }
    StartScale(frames);
    ScaleUpTo(STAGES);
    ScaleIs();
    Product(frames, Scale(STAGES));
    ghost var y;
    ok, length, current, y := RunStages(env, p, frames, current, orders, error, cache, memory, x);
    if !ok {
      return null;
    }
    audio := Finish(env, p, length, current, cache, memory, y);
    if audio != null && old(Trusted(error)) {
      IsDecode(codec, codes, frames, audio[..], x);
    }
  }

  lemma CarriesItself(s: seq<real>, channels: nat, length: nat)
    requires |s| == channels * length
    ensures Carries(s, channels, length, WaveOf(s, length))
  {
  }

  /** The last activation and convolution, and the clip. */
  method Finish(
    env: Setting, p: Pack, length: nat, current: array<real>, cache: TapCache?, ghost memory: nat -> seq<real>, ghost y: Wave)
    returns (audio: array?<real>)
    requires Stored(p.post, 1, Channels(STAGES), 3, memory) && Carries(current[..], Channels(STAGES), length, y)
    requires cache != null ==> cache.Valid(memory)
    modifies current, cache
    ensures cache != null ==> cache.Valid(memory)
    ensures Lucky(env) && length > 0 ==> audio != null
    ensures audio != null ==> fresh(audio) && audio.Length == length
    ensures audio != null ==> forall i :: 0 <= i < length ==> audio[i] == Clip(Post(CodecOf(p), y)(0, i))
  {
    ChannelsPositive(STAGES);
    hide Carries, Stored, Channels, ConvAt, Activated, Lucky;
    HalfSnakeInPlace(p.postAct, current, Channels(STAGES), length, y);
    audio := new real[length](_ => 0.0);
    var ok := ConvInto(env, 91, p.post, Shape(Channels(STAGES), 1, length, 3, 1), current, audio, cache, memory,
                       HalfSnake(y, p.postAct, Channels(STAGES)));
    if !ok {
      return null;
    }
    ClipInPlace(audio, Post(CodecOf(p), y));
  }

  lemma IsDecode(codec: Codec, codes: seq<nat>, frames: nat, audio: seq<real>, x: Wave)
    requires x == ConvWave(Latent(CodesOf(codes, frames)), codec.pre, codec.preBias, LATENT, 7, 1)
    requires |audio| == frames * Scale(STAGES)
    requires forall i :: 0 <= i < |audio| ==> audio[i] == Clip(Post(codec, Stages(codec, x, STAGES))(0, i))
    ensures audio == Decode(codec, codes, frames)
  {
    ScaleIs();
    hide Scale, Stages, Post, Clip, Latent, ConvWave;
    forall i | 0 <= i < |audio|
      ensures audio[i] == Sample(codec, CodesOf(codes, frames), i)
    {
    }
    hide Sample;
  }

  lemma StartScale(frames: nat)
    ensures frames * Scale(0) == frames
  {
  }
}
