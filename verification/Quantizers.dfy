/** How vectors become bytes and a scale. Weight rows and activation columns are quantized by two
    different functions: they differ on a zero vector, and only the second one clamps. */
module Quantizers {

  datatype Quantizer = Quantizer(codes: seq<real> -> seq<int>, scale: seq<real> -> real)

  ghost predicate KeepsLength(z: Quantizer) {
    forall v: seq<real> :: |z.codes(v)| == |v|
  }

  function Abs(x: real): real {
    if x < 0.0 then -x else x
  }

  function Absmax(v: seq<real>): (amax: real)
    ensures amax >= 0.0
    ensures forall i :: 0 <= i < |v| ==> Abs(v[i]) <= amax
  {
    if v == [] then 0.0
    else
      var rest := Absmax(v[..|v| - 1]);
      if Abs(v[|v| - 1]) > rest then Abs(v[|v| - 1]) else rest
  }

  /** A half added away from zero, and truncated. */
  function Round(v: real): (q: int)
    ensures Abs(v - q as real) <= 0.5
    ensures Abs(v) <= 127.0 ==> -127 <= q <= 127
  {
    if v >= 0.0 then (v + 0.5).Floor else -((0.5 - v).Floor)
  }

  /** The step of a weight row whose largest element is `amax`. */
  function StepOf(amax: real): (s: real)
    requires amax >= 0.0
    ensures s > 0.0
  {
    if amax > 0.0 then amax / 127.0 else 1.0
  }

  function Scaled(x: real, inv: real): real {
    x * inv
  }

  function WeightSample(x: real, amax: real): (q: int)
    requires Abs(x) <= amax
    ensures -127 <= q <= 127
  {
    WeightInRange(x, amax);
    Round(Scaled(x, 1.0 / StepOf(amax)))
  }

  function Clamp(q: int): (r: int)
    ensures -127 <= r <= 127
  {
    if q > 127 then 127 else if q < -127 then -127 else q
  }

  function ActSample(x: real, amax: real): (q: int)
    requires amax >= 0.0
    ensures -127 <= q <= 127
  {
    if amax == 0.0 then 0 else Clamp(Round(Scaled(x, 127.0 / amax)))
  }

  function WeightScale(v: seq<real>): real {
    StepOf(Absmax(v))
  }

  function WeightCodes(v: seq<real>): (q: seq<int>)
    ensures |q| == |v|
    ensures forall i :: 0 <= i < |q| ==> -127 <= q[i] <= 127
  {
    var amax := Absmax(v);
    seq(|v|, i requires 0 <= i < |v| && Abs(v[i]) <= amax => WeightSample(v[i], amax))
  }

  function ActScale(v: seq<real>): real {
    if Absmax(v) == 0.0 then 0.0 else Absmax(v) / 127.0
  }

  function ActCodes(v: seq<real>): (q: seq<int>)
    ensures |q| == |v|
    ensures forall i :: 0 <= i < |q| ==> -127 <= q[i] <= 127
  {
    var amax := Absmax(v);
    seq(|v|, i requires 0 <= i < |v| => ActSample(v[i], amax))
  }

  const WEIGHTS := Quantizer(WeightCodes, WeightScale)
  const ACTIVATIONS := Quantizer(ActCodes, ActScale)

  lemma NonNegative(a: real, b: real)
    requires a >= 0.0 && b >= 0.0
    ensures a * b >= 0.0
  {
  }

  lemma Inverse(amax: real, inv: real)
    requires amax > 0.0 && inv == 127.0 / amax
    ensures inv > 0.0 && amax * inv == 127.0 && 1.0 / (amax / 127.0) == inv
  {
  }

  lemma WeightInRange(x: real, amax: real)
    requires Abs(x) <= amax
    ensures Abs(Scaled(x, 1.0 / StepOf(amax))) <= 127.0
    ensures amax > 0.0 ==> 1.0 / StepOf(amax) == 127.0 / amax
  {
    if amax > 0.0 {
      var inv := 127.0 / amax;
      Inverse(amax, inv);
      NonNegative(amax - x, inv);
      NonNegative(amax + x, inv);
    }
  }

  /** Element by element the two agree: without rounding errors the clamp never acts, and a vector
      of zeros is coded as zeros either way. */
  lemma SamplesAgree(x: real, amax: real)
    requires Abs(x) <= amax
    ensures ActSample(x, amax) == WeightSample(x, amax)
  {
    hide Round, Clamp, Scaled, StepOf;
    WeightInRange(x, amax);
    if amax == 0.0 {
      OnZero(x, amax);
    } else {
      ClampIdle(Scaled(x, 127.0 / amax));
    }
  }

  lemma OnZero(x: real, amax: real)
    requires x == 0.0 == amax
    ensures WeightSample(x, amax) == 0 == ActSample(x, amax)
  {
    assert Scaled(x, 1.0 / StepOf(amax)) == 0.0;
  }

  lemma ClampIdle(y: real)
    requires Abs(y) <= 127.0
    ensures Clamp(Round(y)) == Round(y)
  {
    hide Round;
  }

  /** So the two quantizers differ in the scale of a vector of zeros, and in nothing else. */
  lemma QuantizersDifferIff(v: seq<real>)
    ensures ActCodes(v) == WeightCodes(v)
    ensures ActScale(v) == WeightScale(v) <==> Absmax(v) > 0.0
  {
    hide ActSample, WeightSample;
    forall i | 0 <= i < |v|
      ensures ActCodes(v)[i] == WeightCodes(v)[i]
    {
      SamplesAgree(v[i], Absmax(v));
    }
  }

  /** What a code stands for. */
  function Value(q: int, step: real): real {
    q as real * step
  }

  lemma HalfAStep(x: real, q: int, y: real, s: real)
    requires s > 0.0 && x == y * s && Abs(y - q as real) <= 0.5
    ensures Abs(x - Value(q, s)) <= s / 2.0
  {
    NonNegative(0.5 - (y - q as real), s);
    NonNegative(0.5 + (y - q as real), s);
  }

  lemma Undo(x: real, s: real)
    requires s > 0.0
    ensures x == Scaled(x, 1.0 / s) * s
  {
    assert 1.0 / s * s == 1.0;
  }

  lemma WeightWithin(x: real, amax: real)
    requires Abs(x) <= amax
    ensures Abs(x - Value(WeightSample(x, amax), StepOf(amax))) <= StepOf(amax) / 2.0
  {
    hide Value;
    assert amax >= 0.0;
    var s := StepOf(amax);
    hide StepOf, Abs, Round, Scaled;
    Undo(x, s);
    HalfAStep(x, WeightSample(x, amax), Scaled(x, 1.0 / s), s);
  }

  lemma ActWithin(x: real, amax: real)
    requires Abs(x) <= amax
    ensures var s := if amax == 0.0 then 0.0 else amax / 127.0; Abs(x - Value(ActSample(x, amax), s)) <= s / 2.0
  {
    SamplesAgree(x, amax);
    if amax == 0.0 {
      assert Value(0, 0.0) == 0.0;
    } else {
      hide ActSample, WeightSample, Value;
      WeightWithin(x, amax);
    }
  }

  /** A code stands for its element to within half a step of its vector. */
  lemma WithinHalfAStep(v: seq<real>, i: nat)
    requires i < |v|
    ensures Abs(v[i] - Value(WeightCodes(v)[i], WeightScale(v))) <= WeightScale(v) / 2.0
    ensures Abs(v[i] - Value(ActCodes(v)[i], ActScale(v))) <= ActScale(v) / 2.0
  {
    hide ActSample, WeightSample, StepOf, Value, Absmax, Abs;
    WeightWithin(v[i], Absmax(v));
    ActWithin(v[i], Absmax(v));
  }
}
