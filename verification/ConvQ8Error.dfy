/** What the int8 convolution approximates, and how well: with the program's two quantizers every
    output is the convolution of the real weights with the real activations, up to a multiple of
    the steps they were quantized with. */
module ConvQ8Error {
  import opened Sums
  import opened Pool
  import opened ConvQ8
  import opened ConvQ8Run
  import opened ConvQ8Call
  import opened Quantizers

  function Mul(a: real, b: real): real {
    a * b
  }

  // ------------------------------------------------------------- what integers stand for

  /** An integer sum of products, scaled, is the sum of the products of what the integers stand for. */
  lemma {:induction false} Dequantized(n: nat, f: nat -> int, g: nat -> int, h: nat -> int, ws: real, sx: real, e: nat -> real)
    requires forall p: nat :: p < n ==> h(p) == f(p) * g(p) && e(p) == Mul(Value(f(p), ws), Value(g(p), sx))
    ensures Epilogue(IntSum(n, h), ws, sx) == Sum(n, e)
  {
    if n > 0 {
      Dequantized(n - 1, f, g, h, ws, sx, e);
      OneProduct(f(n - 1), g(n - 1), ws, sx);
      Scaling(IntSum(n - 1, h), h(n - 1), ws, sx);
    }
  }

  lemma OneProduct(a: int, b: int, ws: real, sx: real)
    ensures Epilogue(a * b, ws, sx) == Mul(Value(a, ws), Value(b, sx))
  {
    var x, y := a as real, b as real;
    assert (a * b) as real == x * y;
    assert x * y * (ws * sx) == (x * ws) * (y * sx);
  }

  lemma Scaling(a: int, b: int, ws: real, sx: real)
    ensures Epilogue(a + b, ws, sx) == Epilogue(a, ws, sx) + Epilogue(b, ws, sx)
  {
  }

  // ------------------------------------------------------------------ what is meant

  /** Weight `p` of tap `t` in row `i`, where it lies. */
  function WeightAt(x: Weights, i: nat, p: nat, t: nat): real {
    Get(x.w, if x.trans then p * x.ldw + i else (i * x.k + p) * x.taps + t)
  }

  function TapProducts(x: Weights, a: Window, i: nat, c: nat, t: nat): nat -> real {
    (p: nat) => Mul(WeightAt(x, i, p, t), Get(a.b, p * a.ldb + (c + t * a.tapStride)))
  }

  function Convolved(x: Weights, a: Window, i: nat, c: nat): nat -> real {
    (t: nat) => Sum(x.k, TapProducts(x, a, i, c, t))
  }

  /** The convolution the call is for: no integers, no steps. */
  function Meant(x: Weights, a: Window, i: nat, c: nat): real {
    Sum(x.taps, Convolved(x, a, i, c)) + (if a.hasBias then Get(a.bias, i) else 0.0)
  }

  /** For each product of a tap, 127 times the step of the row times that of the column. */
  function Allowance(x: Weights, a: Window, i: nat, c: nat): nat -> real {
    (t: nat) =>
      x.k as real * (127.0 * Mul(WeightScale(RowOf(x, t, i)), ActScale(ColumnOf(a.b, a.ldb, x.k, c + t * a.tapStride))))
  }

  // --------------------------------------------------------------------- how close

  lemma ProductBound(a: real, b: real, u: real, v: real)
    requires Abs(a) <= u && Abs(b) <= v
    ensures Abs(Mul(a, b)) <= Mul(u, v)
  {
    NonNegative(u - a, v + b);
    NonNegative(u + a, v - b);
    NonNegative(u - a, v - b);
    NonNegative(u + a, v + b);
    assert (u - a) * (v + b) + (u + a) * (v - b) == 2.0 * (u * v) - 2.0 * (a * b);
    assert (u - a) * (v - b) + (u + a) * (v + b) == 2.0 * (u * v) + 2.0 * (a * b);
  }

  /** Two factors each off by half a step, within 127 steps. */
  lemma ProductsClose(w: real, x: real, w': real, x': real, sw: real, sx: real)
    requires Abs(w - w') <= sw / 2.0 && Abs(x - x') <= sx / 2.0 && Abs(w') <= 127.0 * sw && Abs(x) <= 127.0 * sx
    ensures Abs(Mul(w', x') - Mul(w, x)) <= 127.0 * Mul(sw, sx)
  {
    hide Mul;
    ProductBound(w - w', x, sw / 2.0, 127.0 * sx);
    ProductBound(w', x - x', 127.0 * sw, sx / 2.0);
    Split(w, x, w', x');
    HalfSteps(sw, sx);
  }

  lemma Split(w: real, x: real, w': real, x': real)
    ensures Mul(w, x) - Mul(w', x') == Mul(w - w', x) + Mul(w', x - x')
  {
  }

  lemma HalfSteps(sw: real, sx: real)
    ensures Mul(sw / 2.0, 127.0 * sx) + Mul(127.0 * sw, sx / 2.0) == 127.0 * Mul(sw, sx)
  {
    assert sw / 2.0 * (127.0 * sx) == 63.5 * (sw * sx);
    assert 127.0 * sw * (sx / 2.0) == 63.5 * (sw * sx);
  }

  /** No element is more than 127 steps, nor is what its code stands for. */
  lemma WithinSteps(v: seq<real>, p: nat)
    requires p < |v|
    ensures Abs(v[p]) <= 127.0 * ActScale(v)
    ensures Abs(Value(WeightCodes(v)[p], WeightScale(v))) <= 127.0 * WeightScale(v)
  {
    var q := WeightCodes(v)[p];
    assert Abs(v[p]) <= Absmax(v);
    hide WeightCodes, Absmax;
    LargestIs(Absmax(v));
    hide ActScale, StepOf;
    CodeWithin(q, WeightScale(v));
  }

  lemma LargestIs(amax: real)
    requires amax >= 0.0
    ensures amax <= 127.0 * (if amax == 0.0 then 0.0 else amax / 127.0)
  {
  }

  lemma CodeWithin(q: int, s: real)
    requires -127 <= q <= 127 && s > 0.0
    ensures Abs(Value(q, s)) <= 127.0 * s
  {
    NonNegative(127.0 - q as real, s);
    NonNegative(127.0 + q as real, s);
  }

  lemma CodesClose(row: seq<real>, column: seq<real>, p: nat)
    requires p < |row| == |column|
    ensures Abs(Mul(Value(WeightCodes(row)[p], WeightScale(row)), Value(ActCodes(column)[p], ActScale(column)))
                - Mul(row[p], column[p])) <= 127.0 * Mul(WeightScale(row), ActScale(column))
  {
    hide WeightCodes, ActCodes, WeightScale, ActScale, Value, Abs, Mul;
    WithinHalfAStep(row, p);
    WithinHalfAStep(column, p);
    WithinSteps(row, p);
    WithinSteps(column, p);
    ProductsClose(row[p], column[p], Value(WeightCodes(row)[p], WeightScale(row)), Value(ActCodes(column)[p], ActScale(column)),
                  WeightScale(row), ActScale(column));
  }

  lemma {:induction false} SumsClose(n: nat, f: nat -> real, g: nat -> real, e: nat -> real)
    requires forall p: nat :: p < n ==> Abs(f(p) - g(p)) <= e(p)
    ensures Abs(Sum(n, f) - Sum(n, g)) <= Sum(n, e)
  {
    if n > 0 {
      SumsClose(n - 1, f, g, e);
      assert Abs(f(n - 1) - g(n - 1)) <= e(n - 1);
    }
  }

  function Always(c: real): nat -> real {
    (p: nat) => c
  }

  lemma {:induction false} SumOfOne(n: nat, c: real)
    ensures Sum(n, Always(c)) == n as real * c
  {
    if n > 0 {
      SumOfOne(n - 1, c);
      assert n as real * c == (n - 1) as real * c + c;
    }
  }

  /** Where the gather takes its elements from. */
  lemma Elements(x: Weights, a: Window, i: nat, c: nat, t: nat, p: nat)
    requires p < x.k
    ensures RowOf(x, t, i)[p] == WeightAt(x, i, p, t)
    ensures ColumnOf(a.b, a.ldb, x.k, c + t * a.tapStride)[p] == Get(a.b, p * a.ldb + (c + t * a.tapStride))
  {
    AtIs(p, x.ldw, i);
    AtIs(i, x.k, p);
    AtIs(At(i, x.k, p), x.taps, t);
    AtIs(p, a.ldb, c + t * a.tapStride);
  }

  lemma TapIsClose(x: Weights, a: Window, i: nat, c: nat, t: nat)
    ensures Abs(PlainTerms(WEIGHTS, ACTIVATIONS, x, a, i, c)(t) - Convolved(x, a, i, c)(t)) <= Allowance(x, a, i, c)(t)
  {
    hide RowOf, ColumnOf, WeightCodes, ActCodes, WeightScale, ActScale, Value, Abs, Epilogue, IntSum, Sum, WeightAt, Get, Mul;
    var row, column := RowOf(x, t, i), ColumnOf(a.b, a.ldb, x.k, c + t * a.tapStride);
    var sw, sx := WeightScale(row), ActScale(column);
    var f, g := (p: nat) => GetInt(WeightCodes(row), p), (p: nat) => GetInt(ActCodes(column), p);
    var e := (p: nat) => Mul(Value(f(p), sw), Value(g(p), sx));
    Dequantized(x.k, f, g, PlainProducts(WEIGHTS, ACTIVATIONS, x, a, i, t, c + t * a.tapStride), sw, sx, e);
    var bound := 127.0 * Mul(sw, sx);
    forall p: nat | p < x.k
      ensures Abs(e(p) - TapProducts(x, a, i, c, t)(p)) <= Always(bound)(p)
    {
      CodesClose(row, column, p);
      Elements(x, a, i, c, t, p);
    }
    SumsClose(x.k, e, TapProducts(x, a, i, c, t), Always(bound));
    SumOfOne(x.k, bound);
  }

  /** Every cell of the plain formula is the convolution meant, within the allowance of its taps. */
  lemma CellIsClose(x: Weights, a: Window, i: nat, c: nat)
    ensures Abs(PlainCell(WEIGHTS, ACTIVATIONS, x, a, i, c) - Meant(x, a, i, c)) <= Sum(x.taps, Allowance(x, a, i, c))
  {
    hide PlainTerms, Convolved, Allowance, Sum, Abs;
    forall t: nat | t < x.taps
      ensures Abs(PlainTerms(WEIGHTS, ACTIVATIONS, x, a, i, c)(t) - Convolved(x, a, i, c)(t)) <= Allowance(x, a, i, c)(t)
    {
      TapIsClose(x, a, i, c, t);
    }
    SumsClose(x.taps, PlainTerms(WEIGHTS, ACTIVATIONS, x, a, i, c), Convolved(x, a, i, c), Allowance(x, a, i, c));
  }

  /** `cq8_run` as the program calls it, with its own quantizers: every cell of a call that is taken
      is the convolution meant, within the allowance; nothing else is written. */
  method RunQuantized(mc: Machine, x: Weights, a: Window, out: Output) returns (code: int)
    requires WeightsHold(x) && (a.hasBias ==> |a.bias| == x.m)
    requires x.taps > 0 ==> WindowHolds(a.b, a.ldb, x.k, Span(a.n, x.taps, a.tapStride))
    requires forall n: nat :: EachOnce(mc.pool(n), n)
    requires out.Sized(x.m)
    modifies out, out.c
    ensures code != 0 ==> out.c[..] == old(out.c[..])
    ensures code == 0 ==> forall i: nat, c: nat :: i < x.m && c < a.n && c < out.ldc ==>
      Abs(Get(out.c[..], At(i, out.ldc, c)) - Meant(x, a, i, c)) <= Sum(x.taps, Allowance(x, a, i, c))
    ensures code == 0 ==> forall i: nat, c: nat :: i < x.m && a.n <= c < out.ldc ==>
      Get(out.c[..], At(i, out.ldc, c)) == Get(old(out.c[..]), At(i, out.ldc, c))
  {
    hide WeightsHold, WindowHolds, Span, EachOnce, At, PlainCell, Meant, Allowance, Sum, Abs, KeepsLength, Precheck, Blocks;
    ProgramQuantizers();
    code := Run(mc, WEIGHTS, ACTIVATIONS, x, a, out);
    forall i: nat, c: nat | i < x.m && c < a.n
      ensures Abs(PlainCell(WEIGHTS, ACTIVATIONS, x, a, i, c) - Meant(x, a, i, c)) <= Sum(x.taps, Allowance(x, a, i, c))
    {
      CellIsClose(x, a, i, c);
    }
  }
}
