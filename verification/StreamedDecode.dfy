/** How a stream is decoded while it is still being said: each piece from a bounded stretch of
    codes, the 32 frames before it included. The pieces put together are the decode of the whole. */
module StreamedDecode {
  import opened Multiplying
  import opened Sums
  import opened Pool
  import opened Conv1d
  import opened NanoCodec
  import opened NanoCodecWindow
  import opened NanoCodecDecode
  import TransposedConv

  const CONTEXT_FRAMES := 32

  /** Frame `t` of codebook `g` in the buffer of a request: each codebook has `maxRaw` places, of
      which the first `stacking` are the start of audio. */
  function Said(codes: seq<nat>, maxRaw: nat, stacking: nat): (nat, nat) -> nat {
    (g: nat, t: nat) => if g * maxRaw + stacking + t < |codes| then codes[g * maxRaw + stacking + t] else 0
  }

  /** The samples of frames `a` to `b` in the decode of everything. */
  function Piece(codec: Codec, said: (nat, nat) -> nat, a: nat, b: nat): (s: seq<real>)
    requires a <= b
    ensures |s| == 1024 * (b - a)
  {
    seq(1024 * (b - a), i requires 0 <= i => Sample(codec, said, 1024 * a + i))
  }

  // ------------------------------------------------------------------- one piece

  lemma InBuffer(g: nat, maxRaw: nat, at: nat)
    requires g < GROUPS && at < maxRaw
    ensures g * maxRaw + at < GROUPS * maxRaw
  {
    Monotone(g + 1, GROUPS, maxRaw);
  }

  /** One codebook's stretch of the buffer. */
  method CopyRow(
    codes: array<nat>, maxRaw: nat, stacking: nat, start: nat, span: nat, c: nat, frames: array<nat>)
    requires codes.Length == GROUPS * maxRaw && stacking + start + span <= maxRaw && c < GROUPS
    requires frames.Length == GROUPS * span && frames != codes
    modifies frames
    ensures RowIs(frames[..], span, c, Said(codes[..], maxRaw, stacking), start)
    ensures forall g: nat, q: (nat, nat) -> nat :: g < GROUPS && g != c && RowIs(old(frames[..]), span, g, q, start) ==>
      RowIs(frames[..], span, g, q, start)
  {
    hide At;
    AtsWithin(GROUPS, span);
    for t := 0 to span
      invariant forall k: nat :: k < t ==> frames[..][At(c, span, k)] == Said(codes[..], maxRaw, stacking)(c, k + start)
      invariant forall g: nat, k: nat :: g < GROUPS && g != c && k < span ==>
        frames[..][At(g, span, k)] == old(frames[..])[At(g, span, k)]
    {
      InBuffer(c, maxRaw, stacking + start + t);
      AtApart(c, span, t);
      frames[At(c, span, t)] := codes[c * maxRaw + stacking + start + t];
    }
  }

  /** Codebook `g` in a buffer of `span` frames. */
  ghost predicate RowIs(frames: seq<nat>, span: nat, g: nat, said: (nat, nat) -> nat, start: nat) {
    |frames| == GROUPS * span &&
    forall t: nat :: t < span ==> At(g, span, t) < |frames| && frames[At(g, span, t)] == said(g, t + start)
  }

  /** The codes of frames `start` on, codebook by codebook. */
  method CopyWindow(codes: array<nat>, maxRaw: nat, stacking: nat, start: nat, span: nat) returns (frames: array<nat>)
    requires codes.Length == GROUPS * maxRaw && stacking + start + span <= maxRaw
    ensures fresh(frames) && frames.Length == GROUPS * span
    ensures WindowOf(CodesOf(frames[..], span), Said(codes[..], maxRaw, stacking), start, span)
  {
    hide RowIs, Said;
    frames := new nat[GROUPS * span](_ => 0);
    for c := 0 to GROUPS
      invariant forall g: nat :: g < c ==> RowIs(frames[..], span, g, Said(codes[..], maxRaw, stacking), start)
    {
      CopyRow(codes, maxRaw, stacking, start, span, c, frames);
    }
    RowsAreWindow(frames[..], span, Said(codes[..], maxRaw, stacking), start);
  }

  lemma RowsAreWindow(frames: seq<nat>, span: nat, said: (nat, nat) -> nat, start: nat)
    requires forall g: nat :: g < GROUPS ==> RowIs(frames, span, g, said, start)
    ensures WindowOf(CodesOf(frames, span), said, start, span)
  {
    hide At;
    forall g: nat, t: nat | g < GROUPS && t < span
      ensures CodesOf(frames, span)(g, t) == said(g, t + start)
    {
      assert RowIs(frames, span, g, said, start);
    }
  }

  /** What the window says of the frames asked for is what everything says of them. */
  lemma SuffixIsPiece(codec: Codec, window: (nat, nat) -> nat, said: (nat, nat) -> nat, first: nat, count: nat, start: nat)
    requires start == if first > 32 then first - 32 else 0
    requires WindowOf(window, said, start, first + count - start)
    ensures Piece(codec, window, first - start, first + count - start) == Piece(codec, said, first, first + count)
  {
    hide Sample;
    if start == 0 {
      assert forall g: nat, t: nat :: g < GROUPS && t < first + count ==> window(g, t) == said(g, t + 0);
      DecodeIsCausal(codec, window, said, first + count);
    } else {
      WindowIsExact(codec, window, said, start, first + count - start);
    }
    var a, b := Piece(codec, window, first - start, first + count - start), Piece(codec, said, first, first + count);
    forall i | 0 <= i < 1024 * count
      ensures a[i] == b[i]
    {
    }
  }

  lemma DropFrames(codec: Codec, codes: seq<nat>, span: nat, skip: nat)
    requires skip <= span
    ensures Decode(codec, codes, span)[1024 * skip..] == Piece(codec, CodesOf(codes, span), skip, span)
  {
    hide Sample, CodesOf;
  }

  /** `magpie_decode_audio`: frames `first` to `first + count` decoded with at most 32 frames before
      them. What it returns are their samples in the decode of everything said, whatever follows. */
  method DecodeAudio(
    env: Setting, p: Pack, codes: array<nat>, maxRaw: nat, stacking: nat, first: nat, count: nat, frameMemory: bool,
    orders: nat -> seq<nat>, error: ErrorText?, cache: TapCache?, ghost memory: nat -> seq<real>)
    returns (rc: int, samples: seq<real>)
    requires codes.Length == GROUPS * maxRaw && maxRaw * 1024 < TransposedConv.WORD && PackStored(p, memory)
    requires forall s: nat :: s < STAGES ==> EachOnce(orders(s), Channels(s + 1))
    requires cache != null ==> cache.Valid(memory)
    modifies cache, error
    ensures cache != null ==> cache.Valid(memory)
    ensures rc == 0 || (rc == -1 && samples == [])
    ensures count == 0 ==> rc == 0 && samples == []
    ensures rc == 0 && old(Trusted(error)) ==>
      samples == Piece(CodecOf(p), Said(codes[..], maxRaw, stacking), first, first + count)
    ensures Lucky(env) && frameMemory && old(Clean(error)) && count > 0 ==>
      (rc == 0 <==> first + count + stacking <= maxRaw)
  {
    hide PackStored, EachOnce, Lucky, Said, CodesOf, WindowOf, Decode, Piece, Channels, Trusted, Clean;
    samples := [];
    if count == 0 {
      EmptyPiece(CodecOf(p), Said(codes[..], maxRaw, stacking), first);
      return 0, [];
    }
    var start := if first > CONTEXT_FRAMES then first - CONTEXT_FRAMES else 0;
    var span := first + count - start;
    if span > SIZE_MAX / GROUPS || first + count + stacking > maxRaw {
      return -1, [];
    }
    if !frameMemory {
      return -1, [];
    }
    var frames := CopyWindow(codes, maxRaw, stacking, start, span);
    var audio := DecodeCodes(env, p, frames[..], span, orders, error, cache, memory);
    if audio == null {
      return -1, [];
    }
    var perFrame := audio.Length / span;
    PerFrame(span);
    var skip := (first - start) * perFrame;
    if audio.Length < skip {
      return -1, [];
    }
    samples := audio[skip..];
    rc := 0;
    if old(Trusted(error)) {
      DropFrames(CodecOf(p), frames[..], span, first - start);
      SuffixIsPiece(CodecOf(p), CodesOf(frames[..], span), Said(codes[..], maxRaw, stacking), first, count, start);
    }
  }

  lemma PerFrame(span: nat)
    requires span > 0
    ensures 1024 * span / span == 1024
  {
    Below(1024 * span, span, 1024, 0);
  }

  lemma EmptyPiece(codec: Codec, said: (nat, nat) -> nat, a: nat)
    ensures Piece(codec, said, a, a) == []
  {
  }

  // ------------------------------------------------------------------ all the pieces

  /** What a stream has been given: at its call `k` the frames from `cuts[k]` to `cuts[k + 1]`, decoded
      from what had been said by then. */
  ghost function Together(codec: Codec, said: seq<(nat, nat) -> nat>, cuts: seq<nat>): seq<real>
    requires |cuts| == |said| + 1 && forall k :: 0 <= k < |said| ==> cuts[k] <= cuts[k + 1]
    decreases |said|
  {
    var n := |said|;
    if n == 0 then []
    else Together(codec, said[..n - 1], cuts[..n]) + Piece(codec, said[n - 1], cuts[n - 1], cuts[n])
  }

  lemma SaidSince(codec: Codec, early: (nat, nat) -> nat, all: (nat, nat) -> nat, a: nat, b: nat)
    requires a <= b && forall g: nat, t: nat :: g < GROUPS && t < b ==> early(g, t) == all(g, t)
    ensures Piece(codec, early, a, b) == Piece(codec, all, a, b)
  {
    hide Sample;
    DecodeIsCausal(codec, early, all, b);
  }

  lemma PiecesMeet(codec: Codec, all: (nat, nat) -> nat, a: nat, b: nat, c: nat)
    requires a <= b <= c
    ensures Piece(codec, all, a, b) + Piece(codec, all, b, c) == Piece(codec, all, a, c)
  {
    hide Sample;
  }

  /** A stream decoded in pieces, each from the frames said so far and at most 32 before it, is the
      decode of the whole: for any cuts and whatever is said between them. */
  lemma {:induction false} StreamIsTheDecode(
    codec: Codec, said: seq<(nat, nat) -> nat>, cuts: seq<nat>, all: (nat, nat) -> nat)
    requires |cuts| == |said| + 1 && cuts[0] == 0 && forall k :: 0 <= k < |said| ==> cuts[k] <= cuts[k + 1]
    requires forall k, g: nat, t: nat :: 0 <= k < |said| && g < GROUPS && t < cuts[k + 1] ==> said[k](g, t) == all(g, t)
    ensures Together(codec, said, cuts) == Piece(codec, all, 0, cuts[|said|])
    decreases |said|
  {
    hide Piece;
    var n := |said|;
    if n == 0 {
      EmptyPiece(codec, all, 0);
    } else {
      StreamIsTheDecode(codec, said[..n - 1], cuts[..n], all);
      Ascend(cuts, n - 1);
      SaidSince(codec, said[n - 1], all, cuts[n - 1], cuts[n]);
      PiecesMeet(codec, all, 0, cuts[n - 1], cuts[n]);
    }
  }

  lemma {:induction false} Ascend(cuts: seq<nat>, k: nat)
    requires k < |cuts| && forall j :: 0 <= j < |cuts| - 1 ==> cuts[j] <= cuts[j + 1]
    ensures cuts[0] <= cuts[k]
  {
    if k > 0 {
      Ascend(cuts, k - 1);
    }
  }

  lemma WholeIsAPiece(codec: Codec, codes: seq<nat>, frames: nat)
    ensures Decode(codec, codes, frames) == Piece(codec, CodesOf(codes, frames), 0, frames)
  {
    hide Sample, CodesOf;
  }
}
