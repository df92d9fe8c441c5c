/** What the two convolutions do to an impulse, and that they add up: signals being sums of
    impulses, that is all they do. */
module Impulses {
  import opened Multiplying
  import opened Sums
  import opened CausalConv
  import opened TransposedConv

  /** One sample of `v`, in channel `i` at time `u`. */
  function Impulse(i: nat, u: nat, v: real): Wave {
    (c: nat, t: nat) => if c == i && t == u then v else 0.0
  }

  function Together(x: Wave, y: Wave): Wave {
    (c: nat, t: nat) => x(c, t) + y(c, t)
  }

  function NoBias(): nat -> real {
    (o: nat) => 0.0
  }

  // -------------------------------------------------------------------------- sums

  lemma {:induction false} RowAdds(i: nat, n: nat, f: (nat, nat) -> real, g: (nat, nat) -> real, h: (nat, nat) -> real)
    requires forall k: nat :: k < n ==> h(i, k) == f(i, k) + g(i, k)
    ensures RowSum(i, n, h) == RowSum(i, n, f) + RowSum(i, n, g)
  {
    if n > 0 {
      RowAdds(i, n - 1, f, g, h);
    }
  }

  lemma {:induction false} RowsAdd(m: nat, n: nat, f: (nat, nat) -> real, g: (nat, nat) -> real, h: (nat, nat) -> real)
    requires forall i: nat, k: nat :: i < m && k < n ==> h(i, k) == f(i, k) + g(i, k)
    ensures Rows(m, n, h) == Rows(m, n, f) + Rows(m, n, g)
  {
    if m > 0 {
      RowsAdd(m - 1, n, f, g, h);
      RowAdds(m - 1, n, f, g, h);
    }
  }

  lemma {:induction false} OneInRow(i: nat, n: nat, f: (nat, nat) -> real, at: nat)
    requires at < n && forall k: nat :: k < n && k != at ==> f(i, k) == 0.0
    ensures RowSum(i, n, f) == f(i, at)
  {
    if at == n - 1 {
      RowSilent(i, n - 1, f);
    } else {
      OneInRow(i, n - 1, f, at);
    }
  }

  lemma {:induction false} OneInRows(m: nat, n: nat, f: (nat, nat) -> real, row: nat, at: nat)
    requires row < m && at < n && forall i: nat, k: nat :: i < m && k < n && (i != row || k != at) ==> f(i, k) == 0.0
    ensures Rows(m, n, f) == f(row, at)
  {
    if row == m - 1 {
      RowsSilent(m - 1, n, f);
      OneInRow(row, n, f, at);
    } else {
      OneInRows(m - 1, n, f, row, at);
      RowSilent(m - 1, n, f);
    }
  }

  // ---------------------------------------------------------------- the convolution

  /** The convolution of a sum is the sum of the convolutions. */
  lemma ConvAdds(
    x: Wave, y: Wave, w: Kernel, inC: nat, kernel: nat, dilation: nat, o: nat, t: nat)
    ensures ConvAt(Together(x, y), w, NoBias(), inC, kernel, dilation, o, t) ==
      ConvAt(x, w, NoBias(), inC, kernel, dilation, o, t) + ConvAt(y, w, NoBias(), inC, kernel, dilation, o, t)
  {
    hide Rows, Shift;
    var f, g, h := Taps(x, w, kernel, dilation, o, t), Taps(y, w, kernel, dilation, o, t),
      Taps(Together(x, y), w, kernel, dilation, o, t);
    RowsAdd(inC, kernel, f, g, h);
  }

  /** The bias is added once. */
  lemma BiasAdds(x: Wave, w: Kernel, b: nat -> real, inC: nat, kernel: nat, dilation: nat, o: nat, t: nat)
    ensures ConvAt(x, w, b, inC, kernel, dilation, o, t) == b(o) + ConvAt(x, w, NoBias(), inC, kernel, dilation, o, t)
  {
    hide Rows, Taps;
  }

  /** When tap `k` gives back what came in at time `u`. */
  function EchoTime(u: nat, k: nat, kernel: nat, dilation: nat): nat
    requires k < kernel
  {
    u + (kernel - 1 - k) * dilation
  }

  lemma EchoesApart(u: nat, k: nat, j: nat, kernel: nat, dilation: nat)
    requires dilation > 0 && j < kernel && k < kernel && j != k
    ensures EchoTime(u, j, kernel, dilation) != EchoTime(u, k, kernel, dilation)
  {
    if j < k {
      Monotone(kernel - k, kernel - 1 - j, dilation);
    } else {
      Monotone(kernel - j, kernel - 1 - k, dilation);
    }
  }

  lemma TapOf(w: Kernel, kernel: nat, dilation: nat, o: nat, i: nat, u: nat, v: real, c: nat, k: nat, t: nat)
    requires k < kernel
    ensures Tap(Impulse(i, u, v), w, kernel, dilation, o, t, c, k) ==
      if c == i && t == EchoTime(u, k, kernel, dilation) then w(o, i, k) * v else 0.0
  {
  }

  /** An impulse comes back once for each tap: the last tap at once, each one before it `dilation`
      later, weighted; ... */
  lemma EchoOf(w: Kernel, inC: nat, kernel: nat, dilation: nat, o: nat, i: nat, u: nat, v: real, k: nat)
    requires dilation > 0 && i < inC && k < kernel
    ensures ConvAt(Impulse(i, u, v), w, NoBias(), inC, kernel, dilation, o, EchoTime(u, k, kernel, dilation)) == w(o, i, k) * v
  {
    hide Rows, Tap, EchoTime;
    var t := EchoTime(u, k, kernel, dilation);
    var f := Taps(Impulse(i, u, v), w, kernel, dilation, o, t);
    forall c: nat, j: nat | c < inC && j < kernel && (c != i || j != k)
      ensures f(c, j) == 0.0
    {
      TapOf(w, kernel, dilation, o, i, u, v, c, j, t);
      if j != k {
        EchoesApart(u, k, j, kernel, dilation);
      }
    }
    TapOf(w, kernel, dilation, o, i, u, v, i, k, t);
    OneInRows(inC, kernel, f, i, k);
  }

  /** ... and at no other time, and never before. */
  lemma NoEcho(w: Kernel, inC: nat, kernel: nat, dilation: nat, o: nat, i: nat, u: nat, v: real, t: nat)
    requires forall k: nat :: k < kernel ==> t != EchoTime(u, k, kernel, dilation)
    ensures ConvAt(Impulse(i, u, v), w, NoBias(), inC, kernel, dilation, o, t) == 0.0
  {
    hide Rows, Tap, EchoTime;
    var f := Taps(Impulse(i, u, v), w, kernel, dilation, o, t);
    forall c: nat, k: nat | c < inC && k < kernel
      ensures f(c, k) == 0.0
    {
      TapOf(w, kernel, dilation, o, i, u, v, c, k, t);
    }
    RowsSilent(inC, kernel, f);
  }

  // ------------------------------------------------------- the transposed convolution

  lemma LandsAdd(x: Wave, y: Wave, w: GroupKernel, g: Stretch, local: nat, p: nat, i: nat, t: nat)
    ensures Lands(Together(x, y), w, g, local, p, i, t) == Lands(x, w, g, local, p, i, t) + Lands(y, w, g, local, p, i, t)
  {
  }

  lemma LandsOf(w: GroupKernel, g: Stretch, local: nat, i: nat, u: nat, v: real, p: nat, c: nat, t: nat)
    ensures Lands(Impulse(i, u, v), w, g, local, p, c, t) ==
      if c == i && t == u && u * g.stride <= p < u * g.stride + g.kernel then v * w(i, local, p - u * g.stride) else 0.0
  {
  }

  lemma ConvTAdds(x: Wave, y: Wave, w: GroupKernel, g: Stretch, o: nat, p: nat)
    requires g.outPer > 0 && g.stride > 0
    ensures ConvTAt(Together(x, y), w, NoBias(), g, o, p) == ConvTAt(x, w, NoBias(), g, o, p) + ConvTAt(y, w, NoBias(), g, o, p)
  {
    hide Rows, Lands;
    var first := (o / g.outPer) * g.inPer;
    forall j: nat, t: nat | j < g.inPer && t < p / g.stride + 1
      ensures Landings(Together(x, y), w, g, o % g.outPer, p, first)(j, t) ==
        Landings(x, w, g, o % g.outPer, p, first)(j, t) + Landings(y, w, g, o % g.outPer, p, first)(j, t)
    {
      LandsAdd(x, y, w, g, o % g.outPer, p, first + j, t);
    }
    RowsAdd(g.inPer, p / g.stride + 1, Landings(x, w, g, o % g.outPer, p, first), Landings(y, w, g, o % g.outPer, p, first),
            Landings(Together(x, y), w, g, o % g.outPer, p, first));
  }

  lemma InTimeFor(u: nat, p: nat, stride: nat)
    requires stride > 0 && u * stride <= p
    ensures u <= p / stride
  {
    var m := p / stride;
    assert p == m * stride + p % stride;
    if m < u {
      Monotone(m + 1, u, stride);
      assert false;
    }
  }

  /** An impulse becomes the kernel, laid down `stride` positions later for each sample it is late, in
      the output channels of its group and in no other. */
  lemma StretchOf(w: GroupKernel, g: Stretch, group: nat, j: nat, local: nat, u: nat, v: real, p: nat)
    requires g.stride > 0 && j < g.inPer && local < g.outPer
    ensures ConvTAt(Impulse(group * g.inPer + j, u, v), w, NoBias(), g, group * g.outPer + local, p) ==
      if u * g.stride <= p < u * g.stride + g.kernel then v * w(group * g.inPer + j, local, p - u * g.stride) else 0.0
  {
    hide Rows, Lands;
    GroupOf(group, g.outPer, local);
    var i := group * g.inPer + j;
    var f := Landings(Impulse(i, u, v), w, g, local, p, group * g.inPer);
    forall c: nat, t: nat | c < g.inPer
      ensures f(c, t) ==
        if c == j && t == u && u * g.stride <= p < u * g.stride + g.kernel then v * w(i, local, p - u * g.stride) else 0.0
    {
      LandsOf(w, g, local, i, u, v, p, group * g.inPer + c, t);
    }
    if u * g.stride <= p {
      InTimeFor(u, p, g.stride);
      OneInRows(g.inPer, p / g.stride + 1, f, j, u);
    } else {
      RowsSilent(g.inPer, p / g.stride + 1, f);
    }
  }

  lemma GroupOf(group: nat, outPer: nat, local: nat)
    requires local < outPer
    ensures (group * outPer + local) / outPer == group && (group * outPer + local) % outPer == local
  {
    Below(group * outPer + local, outPer, group, local);
  }

  lemma NotItsGroup(w: GroupKernel, g: Stretch, group: nat, i: nat, local: nat, u: nat, v: real, p: nat)
    requires g.stride > 0 && local < g.outPer && (i < group * g.inPer || i >= group * g.inPer + g.inPer)
    ensures ConvTAt(Impulse(i, u, v), w, NoBias(), g, group * g.outPer + local, p) == 0.0
  {
    hide Rows, Lands;
    GroupOf(group, g.outPer, local);
    var f := Landings(Impulse(i, u, v), w, g, local, p, group * g.inPer);
    forall c: nat, t: nat | c < g.inPer
      ensures f(c, t) == 0.0
    {
      LandsOf(w, g, local, i, u, v, p, group * g.inPer + c, t);
    }
    RowsSilent(g.inPer, p / g.stride + 1, f);
  }
}
