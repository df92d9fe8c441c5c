/** Samples as they travel: 16-bit PCM, little endian, and an independent listener for it. */
module Pcm {
  import opened ChunkedCoding

  // -------------------------------------------------------------------- the sender

  function Clamped(v: real): real {
    if v <= -1.0 then -1.0 else if v >= 1.0 then 1.0 else v
  }

  /** The conversion of a real to an integer type. */
  function Truncated(x: real): int {
    if x >= 0.0 then x.Floor else -((-x).Floor)
  }

  /** Clamp to [-1, 1], scale by 32767, truncate towards zero. */
  function Pcm16(v: real): (r: int)
    ensures -32767 <= r <= 32767
  {
    Truncated(Clamped(v) * 32767.0)
  }

  /** A 16-bit integer in memory: two's complement, little endian. */
  function BytesOf(c: int): (b: seq<Byte>)
    requires -32768 <= c < 32768
    ensures |b| == 2
  {
    var u := if c >= 0 then c else c + 65536;
    [u % 256, u / 256]
  }

  function Convert(samples: seq<real>): (b: seq<Byte>)
    ensures |b| == 2 * |samples|
  {
    if samples == [] then [] else BytesOf(Pcm16(samples[0])) + Convert(samples[1..])
  }

  function ConvertAll(chunks: seq<seq<real>>): (b: seq<seq<Byte>>)
    ensures |b| == |chunks|
  {
    seq(|chunks|, i requires 0 <= i < |chunks| => Convert(chunks[i]))
  }

  // ------------------------------------------------------------------ the listener

  /** The number two bytes stand for. */
  function Heard(b0: Byte, b1: Byte): int {
    var u := b0 + 256 * b1;
    if u < 32768 then u else u - 65536
  }

  function Hear(b: seq<Byte>): seq<int> {
    if |b| < 2 then [] else [Heard(b[0], b[1])] + Hear(b[2..])
  }

  /** `h` is `v`, clamped, to within one step of 32767, no larger and of the same sign. */
  predicate Hears(h: int, v: real) {
    var c := if v > 1.0 then 1.0 else if v < -1.0 then -1.0 else v;
    if c >= 0.0 then 0 <= h && h as real <= c * 32767.0 < h as real + 1.0
    else h <= 0 && h as real - 1.0 < c * 32767.0 <= h as real
  }

  /** These bytes sound like these samples. */
  ghost predicate HeardAs(b: seq<Byte>, samples: seq<real>) {
    |b| == 2 * |samples| == 2 * |Hear(b)| && forall i :: 0 <= i < |samples| ==> Hears(Hear(b)[i], samples[i])
  }

  lemma SampleIsHeard(v: real)
    ensures var b := BytesOf(Pcm16(v)); Hears(Heard(b[0], b[1]), v)
  {
  }

  lemma {:induction false} HearAppend(a: seq<Byte>, b: seq<Byte>)
    requires |a| % 2 == 0
    ensures Hear(a + b) == Hear(a) + Hear(b)
  {
    if a == [] {
      assert a + b == b && Hear(a) + Hear(b) == Hear(b);
    } else {
      assert (a + b)[2..] == a[2..] + b;
      HearAppend(a[2..], b);
    }
  }

  lemma HeardTogether(a: seq<Byte>, b: seq<Byte>, x: seq<real>, y: seq<real>)
    requires HeardAs(a, x) && HeardAs(b, y)
    ensures HeardAs(a + b, x + y)
  {
    hide Hears, Hear;
    HearAppend(a, b);
  }

  lemma OneIsHeard(v: real)
    ensures HeardAs(BytesOf(Pcm16(v)), [v])
  {
    hide Hears, Pcm16, BytesOf, Heard;
    SampleIsHeard(v);
    var b := BytesOf(Pcm16(v));
    assert Hear(b[2..]) == [];
  }

  /** What is converted is heard: sample by sample, in order. */
  lemma {:induction false} ConvertIsHeard(samples: seq<real>)
    ensures HeardAs(Convert(samples), samples)
  {
    hide HeardAs, Pcm16, BytesOf;
    if samples == [] {
      assert HeardAs([], []) by { SilenceIsHeard(); }
    } else {
      OneIsHeard(samples[0]);
      ConvertIsHeard(samples[1..]);
      HeardTogether(BytesOf(Pcm16(samples[0])), Convert(samples[1..]), [samples[0]], samples[1..]);
      assert [samples[0]] + samples[1..] == samples;
    }
  }

  lemma SilenceIsHeard()
    ensures HeardAs([], [])
  {
  }

  /** ... chunk after chunk. */
  lemma {:induction false} ChunksAreHeard(chunks: seq<seq<real>>)
    ensures HeardAs(Concat(ConvertAll(chunks)), Concat(chunks))
  {
    hide HeardAs, Convert;
    if chunks == [] {
      SilenceIsHeard();
    } else {
      ConvertIsHeard(chunks[0]);
      ChunksAreHeard(chunks[1..]);
      assert ConvertAll(chunks)[1..] == ConvertAll(chunks[1..]);
      HeardTogether(Convert(chunks[0]), Concat(ConvertAll(chunks[1..])), chunks[0], Concat(chunks[1..]));
    }
  }

  // ------------------------------------------------------------------ the loop

  /** The program's loop, into a buffer of 16-bit integers. */
  method ConvertInto(samples: seq<real>, convert: array<int>)
    requires |samples| <= convert.Length
    modifies convert
    ensures forall i :: 0 <= i < |samples| ==> -32767 <= convert[i] <= 32767 && Hears(convert[i], samples[i])
    ensures forall i :: 0 <= i < |samples| ==> convert[i] == Pcm16(samples[i])
    ensures forall i :: |samples| <= i < convert.Length ==> convert[i] == old(convert[i])
  {
    for i := 0 to |samples|
      invariant forall j :: 0 <= j < i ==> convert[j] == Pcm16(samples[j]) && Hears(convert[j], samples[j])
      invariant forall j :: i <= j < convert.Length ==> convert[j] == old(convert[j])
    {
      var v := samples[i];
      if !(v > -1.0) { v := -1.0; }
      if !(v < 1.0) { v := 1.0; }
      convert[i] := Truncated(v * 32767.0);
    }
  }

  /** The first `n` integers of a buffer, byte by byte. */
  function Memory(convert: seq<int>): (b: seq<Byte>)
    requires forall i :: 0 <= i < |convert| ==> -32768 <= convert[i] < 32768
  {
    if convert == [] then [] else BytesOf(convert[0]) + Memory(convert[1..])
  }

  lemma {:induction false} MemoryIsConverted(convert: seq<int>, samples: seq<real>)
    requires forall i :: 0 <= i < |convert| ==> -32768 <= convert[i] < 32768
    requires |convert| == |samples| && forall i :: 0 <= i < |samples| ==> convert[i] == Pcm16(samples[i])
    ensures Memory(convert) == Convert(samples)
  {
    hide Pcm16, BytesOf;
    if samples != [] {
      MemoryIsConverted(convert[1..], samples[1..]);
    }
  }
}
