/** Start-up arithmetic: the widths the bucket walk visits, and how many fixed buffers fit. */
module Planning {
  import opened Multiplying

  // --------------------------------------------------------------- the bucket walk

  /** Buckets as the model reports them. */
  ghost predicate Ascending(buckets: seq<nat>) {
    (forall k :: 0 <= k < |buckets| ==> 0 < buckets[k]) &&
    forall j, k :: 0 <= j < k < |buckets| ==> buckets[j] < buckets[k]
  }

  /** Requests still running after `p` polls, when request `i` stops at its own cap. */
  function Live(caps: seq<nat>, p: nat): nat {
    if caps == [] then 0 else Live(caps[..|caps| - 1], p) + (if caps[|caps| - 1] > p then 1 else 0)
  }

  lemma {:induction false} LiveFrom(caps: seq<nat>, p: nat, from: nat)
    requires from <= |caps|
    requires forall i :: 0 <= i < |caps| ==> (caps[i] > p <==> i >= from)
    ensures Live(caps, p) == |caps| - from
  {
    if caps != [] {
      if from == |caps| {
        LiveFrom(caps[..|caps| - 1], p, from - 1);
      } else {
        LiveFrom(caps[..|caps| - 1], p, from);
      }
    }
  }

  /** The widths to visit: one below the full width, then every bucket below that, then none. */
  ghost predicate Widths(targets: seq<nat>, buckets: seq<nat>, count: nat) {
    && 2 <= |targets| <= |buckets| + 2
    && targets[0] == count - 1 && targets[|targets| - 1] == 0
    && (forall e :: 0 < e < |targets| - 1 ==> targets[e] in buckets)
    && (forall k :: 0 <= k < |buckets| && buckets[k] < count - 1 ==> buckets[k] in targets)
    && (forall d, e :: 0 <= d < e < |targets| ==> targets[d] > targets[e])
  }

  method PlanWidths(buckets: seq<nat>, count: nat) returns (targets: seq<nat>)
    requires Ascending(buckets) && count >= 2
    ensures Widths(targets, buckets, count)
  {
    targets := [count - 1];
    for k := |buckets| downto 0
      invariant 1 <= |targets| <= |buckets| - k + 1
      invariant targets[0] == count - 1
      invariant forall e :: 0 < e < |targets| ==> targets[e] in buckets
      invariant forall e :: 0 <= e < |targets| ==> targets[e] > 0 && (k < |buckets| && e > 0 ==> targets[e] >= buckets[k])
      invariant k == |buckets| ==> |targets| == 1
      invariant forall j :: k <= j < |buckets| && buckets[j] < count - 1 ==> buckets[j] in targets
      invariant forall d, e :: 0 <= d < e < |targets| ==> targets[d] > targets[e]
    {
      if buckets[k] < count - 1 {
        targets := targets + [buckets[k]];
      }
    }
    targets := targets + [0];
  }

  /** When the width after request `i` retires is reached: the first event at or below it. */
  ghost predicate FirstAtOrBelow(targets: seq<nat>, width: nat, e: nat) {
    e < |targets| && targets[e] <= width && forall d :: 0 <= d < e ==> targets[d] > width
  }

  /** A cap of four polls, and two for each event before the request's own. */
  ghost predicate StopsFor(targets: seq<nat>, width: nat, cap: nat) {
    cap >= 4 && cap % 2 == 0 && FirstAtOrBelow(targets, width, (cap - 4) / 2)
  }

  /** `bucket_walk_caps`; no buckets, too many, or a single request, and there is no plan. */
  method BucketWalkCaps(buckets: seq<nat>, count: nat, caps: array<nat>)
    returns (planned: bool, ghost targets: seq<nat>)
    requires Ascending(buckets) && caps.Length == count
    modifies caps
    ensures planned <==> 0 < |buckets| <= 64 && count >= 2
    ensures !planned ==> caps[..] == old(caps[..])
    ensures planned ==> Widths(targets, buckets, count) && |targets| <= 66
    ensures planned ==> forall i :: 0 <= i < count ==> StopsFor(targets, count - 1 - i, caps[i])
  {
    targets := [];
    if |buckets| == 0 || |buckets| > 64 || count < 2 {
      return false, [];
    }
    var widths := PlanWidths(buckets, count);
    targets := widths;
    var e := 0;
    for i := 0 to count
      invariant 0 <= e < |widths|
      invariant i < count ==> forall d :: 0 <= d < e ==> widths[d] > count - 1 - i
      invariant forall j :: 0 <= j < i ==> StopsFor(widths, count - 1 - j, caps[j])
    {
      var widthAfter := count - 1 - i;
      while widths[e] > widthAfter
        invariant 0 <= e < |widths| && forall d :: 0 <= d < e ==> widths[d] > widthAfter
        decreases |widths| - e
      {
        e := e + 1;
      }
      assert FirstAtOrBelow(widths, widthAfter, e);
      caps[i] := 4 + 2 * e;
      assert (caps[i] - 4) / 2 == e;
    }
    planned := true;
  }

  /** What BucketWalkCaps promises of its caps. */
  ghost predicate Planned(targets: seq<nat>, buckets: seq<nat>, count: nat, caps: seq<nat>) {
    && count >= 2 && |caps| == count && Widths(targets, buckets, count)
    && forall i :: 0 <= i < count ==> StopsFor(targets, count - 1 - i, caps[i])
  }

  lemma CapAfter(targets: seq<nat>, buckets: seq<nat>, count: nat, caps: seq<nat>, e: nat, i: nat)
    requires Planned(targets, buckets, count, caps) && e < |targets| && i < count
    ensures caps[i] > 4 + 2 * e <==> i >= count - targets[e]
  {
    var f := (caps[i] - 4) / 2;
    assert FirstAtOrBelow(targets, count - 1 - i, f) && caps[i] == 4 + 2 * f;
    assert f <= e ==> targets[f] >= targets[e];
  }

  lemma LiveAfter(targets: seq<nat>, buckets: seq<nat>, count: nat, caps: seq<nat>, p: nat, e: nat)
    requires Planned(targets, buckets, count, caps) && e < |targets| && 4 + 2 * e <= p < 4 + 2 * (e + 1)
    ensures Live(caps, p) == targets[e]
  {
    assert targets[e] <= count - 1 by { assert e > 0 ==> targets[0] > targets[e]; }
    forall i | 0 <= i < count
      ensures caps[i] > p <==> i >= count - targets[e]
    {
      assert StopsFor(targets, count - 1 - i, caps[i]);
      CapAfter(targets, buckets, count, caps, e, i);
    }
    hide Planned;
    LiveFrom(caps, p, count - targets[e]);
  }

  lemma LiveAtEnd(targets: seq<nat>, buckets: seq<nat>, count: nat, caps: seq<nat>, p: nat)
    requires Planned(targets, buckets, count, caps) && p >= 4 + 2 * (|targets| - 1)
    ensures Live(caps, p) == 0
  {
    forall i | 0 <= i < count
      ensures caps[i] <= p
    {
      CapAfter(targets, buckets, count, caps, |targets| - 1, i);
    }
    hide Planned;
    LiveFrom(caps, p, count);
  }

  /** The walk is exact: until the first event all requests run; after event `e` exactly
      `targets[e]` do, for two polls; and so every bucket below the top is held for two polls,
      and nothing is left at the end. */
  lemma WalkIsExact(targets: seq<nat>, buckets: seq<nat>, count: nat, caps: seq<nat>, p: nat)
    requires Planned(targets, buckets, count, caps)
    ensures p < 4 ==> Live(caps, p) == count
    ensures forall e: nat :: e < |targets| && 4 + 2 * e <= p < 4 + 2 * (e + 1) ==> Live(caps, p) == targets[e]
    ensures p >= 4 + 2 * (|targets| - 1) ==> Live(caps, p) == 0
  {
    forall i | 0 <= i < count
      ensures caps[i] >= 4 && caps[i] % 2 == 0
    {
      assert StopsFor(targets, count - 1 - i, caps[i]);
    }
    if p < 4 {
      LiveFrom(caps, p, 0);
    } else if (p - 4) / 2 < |targets| {
      LiveAfter(targets, buckets, count, caps, p, (p - 4) / 2);
    } else {
      LiveAtEnd(targets, buckets, count, caps, p);
    }
  }

  lemma LaterWhenNarrower(targets: seq<nat>, width: nat, e: nat, narrower: nat, f: nat)
    requires FirstAtOrBelow(targets, width, e) && FirstAtOrBelow(targets, narrower, f) && narrower <= width
    ensures e <= f
  {
  }

  /** Caps never decrease and are bounded by the number of buckets. */
  lemma CapsAreOrdered(targets: seq<nat>, buckets: seq<nat>, count: nat, caps: seq<nat>, i: nat, j: nat)
    requires Planned(targets, buckets, count, caps) && i <= j < count
    ensures caps[i] <= caps[j] <= 4 + 2 * (|buckets| + 1)
  {
    var e, f := (caps[i] - 4) / 2, (caps[j] - 4) / 2;
    assert FirstAtOrBelow(targets, count - 1 - i, e) && caps[i] == 4 + 2 * e;
    assert FirstAtOrBelow(targets, count - 1 - j, f) && caps[j] == 4 + 2 * f;
    LaterWhenNarrower(targets, count - 1 - i, e, count - 1 - j, f);
  }

  // ------------------------------------------------------------- the buffer plans

  const SIZE_MAX: nat := 0xFFFF_FFFF_FFFF_FFFF
  const GIB: nat := 0x4000_0000

  type Word = n: nat | n <= SIZE_MAX witness 0

  function Min(a: nat, b: nat): nat {
    if a < b then a else b
  }

  function Max(a: nat, b: nat): nat {
    if a > b then a else b
  }

  /** Subtraction that stops at zero. */
  function Less(a: nat, b: nat): nat {
    if a > b then a - b else 0
  }

  function SatAdd(a: Word, b: Word): (r: Word)
    ensures r == Min(a + b, SIZE_MAX)
  {
    if a > SIZE_MAX - b then SIZE_MAX else a + b
  }

  lemma DivideBound(n: nat, a: nat, b: nat)
    requires b > 0
    ensures n > a / b <==> n * b > a
  {
    var q := a / b;
    assert a == q * b + a % b;
    if n > q {
      Monotone(q + 1, n, b);
    } else {
      Monotone(n, q, b);
    }
  }

  function Div(a: nat, b: nat): (q: nat)
    requires b > 0
    ensures q * b <= a < (q + 1) * b && q <= a
  {
    DivideBound(a / b + 1, a, b);
    DivideBound(a / b, a, b);
    Monotone(1, b, a / b);
    a / b
  }

  /** Multiplication by the guard the program uses. */
  function SatMul(a: Word, b: Word): (r: Word)
    ensures r == Min(a * b, SIZE_MAX)
  {
    if b != 0 then
      DivideBound(a, SIZE_MAX, b);
      if a > SIZE_MAX / b then SIZE_MAX else a * b
    else a * b
  }

  /** `mynah_backend_fixed_buffers_plan`: what to keep back, and how many rows get a buffer. */
  method FixedBuffersPlan(free: Word, total: Word, rows: Word, buffer: Word, perRowOther: Word)
    returns (ok: bool, reserve: Word, fit: Word)
    ensures ok <==> buffer != 0
    ensures ok ==> reserve == Min(TrueReserve(total, rows, perRowOther), SIZE_MAX)
    ensures ok ==> fit == Min(rows, Div(Less(free, TrueReserve(total, rows, perRowOther)), buffer))
  {
    if buffer == 0 {
      return false, 0, 0;
    }
    hide Div, SatMul;
    reserve := total / 5;
    if reserve < 4 * GIB {
      reserve := 4 * GIB;
    }
    var other := SatMul(rows, perRowOther);
    reserve := if other > SIZE_MAX - reserve then SIZE_MAX else reserve + other;
    var budget := if free > reserve then free - reserve else 0;
    fit := Div(budget, buffer);
    if fit > rows {
      fit := rows;
    }
    ok := true;
  }

  /** The reserve without saturation: a fifth of the device or four gigabytes, and what the rows
      need besides. */
  function TrueReserve(total: nat, rows: nat, perRowOther: nat): nat {
    Max(total / 5, 4 * GIB) + rows * perRowOther
  }

  /** An allotment is never larger than what is free, even reckoned without saturation, and it is
      the largest that is not. */
  lemma PlanIsTight(free: Word, total: Word, rows: Word, buffer: Word, perRowOther: Word)
    requires buffer != 0
    ensures var reserve := TrueReserve(total, rows, perRowOther); var fit := Min(rows, Div(Less(free, reserve), buffer));
      && (fit > 0 ==> reserve + fit * buffer <= free)
      && (fit < rows ==> reserve + (fit + 1) * buffer > free)
  {
    var reserve := TrueReserve(total, rows, perRowOther);
    hide TrueReserve;
    var budget := Less(free, reserve);
    var most := Div(budget, buffer);
    var fit := Min(rows, most);
    hide Div;
    Monotone(fit, most, buffer);
  }

  function TrueMargin(total: nat, rows: nat, setsMade: nat, perRowOther: nat, extra: nat): nat {
    Max(total / 16, 2 * GIB) + Less(rows, setsMade) * perRowOther + extra
  }

  /** `mynah_backend_fixed_buffers_refit`: how many sets may hold a buffer, once some are live. */
  method FixedBuffersRefit(
    free: Word, total: Word, rows: Word, spares: Word, setsMade: Word, live: Word, buffer: Word, perRowOther: Word,
    extra: Word) returns (ok: bool, margin: Word, cap: Word)
    ensures ok <==> buffer != 0
    ensures ok ==> margin == Min(TrueMargin(total, rows, setsMade, perRowOther, extra), SIZE_MAX)
    ensures ok ==> cap == Min(SIZE_MAX, Min(rows + spares,
      live + Div(Less(free, TrueMargin(total, rows, setsMade, perRowOther, extra)), buffer)))
  {
    if buffer == 0 {
      return false, 0, 0;
    }
    hide Div, SatMul;
    margin := total / 16;
    if margin < 2 * GIB {
      margin := 2 * GIB;
    }
    var missing: Word := if rows > setsMade then rows - setsMade else 0;
    var other := SatMul(missing, perRowOther);
    margin := SatAdd(SatAdd(margin, other), extra);
    var budget := if free > margin then free - margin else 0;
    var limit := SatAdd(rows, spares);
    var fit := SatAdd(live, Div(budget, buffer));
    cap := if fit < limit then fit else limit;
    ok := true;
  }

  /** Raising the cap above what is live never takes more than is free. */
  lemma RefitIsSafe(
    free: Word, total: Word, rows: Word, spares: Word, setsMade: Word, live: Word, buffer: Word, perRowOther: Word,
    extra: Word, cap: Word)
    requires buffer != 0
    requires cap == Min(SIZE_MAX, Min(rows + spares,
      live + Div(Less(free, TrueMargin(total, rows, setsMade, perRowOther, extra)), buffer)))
    ensures cap > live ==> TrueMargin(total, rows, setsMade, perRowOther, extra) + (cap - live) * buffer <= free
  {
    var margin := TrueMargin(total, rows, setsMade, perRowOther, extra);
    hide TrueMargin;
    if cap > live {
      hide Div;
      Monotone(1, buffer, cap - live);
      Monotone(cap - live, Div(Less(free, margin), buffer), buffer);
    }
  }
}
