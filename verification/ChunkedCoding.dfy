/** The HTTP/1.1 chunked transfer coding: the framing the stream writer emits, and an
    independent receiver for it, after section 7.1 of RFC 9112.

    The receiver reads an arbitrary prefix of a connection, so it can answer "not finished
    yet" (Incomplete) as well as "done" and "not chunked coding at all".
  */
module ChunkedCoding {

  type Byte = x: int | 0 <= x < 256

  const CR: Byte := 13
  const LF: Byte := 10
  const CRLF: seq<Byte> := [CR, LF]
  /** The last chunk, with an empty trailer section. */
  const TERMINATOR: seq<Byte> := [48, 13, 10, 13, 10]

  // ---------------------------------------------------------------- the sender

  function HexDigit(d: nat): Byte
    requires d < 16
  {
    if d < 10 then 48 + d else 87 + d
  }

  /** Lower-case hexadecimal without leading zeros. */
  function Hex(n: nat): (h: seq<Byte>)
    ensures |h| >= 1
  {
    if n < 16 then [HexDigit(n)] else Hex(n / 16) + [HexDigit(n % 16)]
  }

  function SizeLine(n: nat): seq<Byte> {
    Hex(n) + CRLF
  }

  /** One chunk on the wire: size line, data, CRLF. */
  function Frame(data: seq<Byte>): seq<Byte> {
    SizeLine(|data|) + data + CRLF
  }

  function Encode(chunks: seq<seq<Byte>>): seq<Byte> {
    if chunks == [] then [] else Frame(chunks[0]) + Encode(chunks[1..])
  }

  function Concat<T>(parts: seq<seq<T>>): seq<T> {
    if parts == [] then [] else parts[0] + Concat(parts[1..])
  }

  ghost predicate NonEmpty(chunks: seq<seq<Byte>>) {
    forall i | 0 <= i < |chunks| :: chunks[i] != []
  }

  // -------------------------------------------------------------- the receiver

  predicate IsHex(b: Byte) {
    48 <= b <= 57 || 97 <= b <= 102 || 65 <= b <= 70
  }

  function HexValue(b: Byte): nat
    requires IsHex(b)
  {
    if b <= 57 then b - 48 else if b >= 97 then b - 87 else b - 55
  }

  datatype SizeResult = Size(n: nat, next: nat) | NeedMore | BadSize

  /** Reads `1*HEXDIG CRLF` from position `i`, the digits so far being worth `n`. */
  function ReadSize(s: seq<Byte>, i: nat, n: nat): (r: SizeResult)
    requires i <= |s|
    ensures r.Size? ==> i < r.next <= |s|
    decreases |s| - i
  {
    if i == |s| then NeedMore
    else if IsHex(s[i]) then ReadSize(s, i + 1, 16 * n + HexValue(s[i]))
    else if i == 0 || s[i] != CR then BadSize
    else if i + 1 == |s| then NeedMore
    else if s[i + 1] == LF then Size(n, i + 2)
    else BadSize
  }

  datatype Parsed = Complete(payload: seq<Byte>, rest: seq<Byte>) | Incomplete | Malformed

  /** What CRLF at position `i` looks like when only a prefix of the stream has arrived. */
  datatype Eol = Present | Missing | Wrong

  function ReadEol(s: seq<Byte>, i: nat): Eol {
    if i >= |s| then Missing
    else if s[i] != CR then Wrong
    else if i + 1 == |s| then Missing
    else if s[i + 1] == LF then Present else Wrong
  }

  datatype ChunkResult = Data(data: seq<Byte>, rest: seq<Byte>) | Last(rest: seq<Byte>) | Short | Bad

  /** Reads one chunk, or the last chunk with its empty trailer section. */
  function ReadChunk(s: seq<Byte>): (r: ChunkResult)
    ensures r.Data? ==> |r.rest| < |s|
  {
    match ReadSize(s, 0, 0)
    case NeedMore => Short
    case BadSize => Bad
    case Size(n, next) =>
      match ReadEol(s, next + n)
      case Missing => Short
      case Wrong => Bad
      case Present =>
        if n == 0 then Last(s[next + 2..]) else Data(s[next..next + n], s[next + n + 2..])
  }

  function Parse(s: seq<Byte>): Parsed
    decreases |s|
  {
    match ReadChunk(s)
    case Short => Incomplete
    case Bad => Malformed
    case Last(rest) => Complete([], rest)
    case Data(data, rest) => Prepend(data, Parse(rest))
  }

  function Prepend(data: seq<Byte>, r: Parsed): Parsed {
    if r.Complete? then Complete(data + r.payload, r.rest) else r
  }

  // ------------------------------------------------------------- round trip

  lemma {:induction false} ReadHex(n: nat, t: seq<Byte>)
    ensures ReadSize(Hex(n) + t, 0, 0) == ReadSize(Hex(n) + t, |Hex(n)|, n)
  {
    var s := Hex(n) + t;
    if n >= 16 {
      var d := [HexDigit(n % 16)];
      assert s == Hex(n / 16) + (d + t);
      ReadHex(n / 16, d + t);
    }
  }

  /** Where the parts of a frame sit. */
  lemma FrameLayout(data: seq<Byte>, s: seq<Byte>, whole: seq<Byte>, h: nat)
    requires whole == Frame(data) + s && h == |Hex(|data|)|
    ensures whole == Hex(|data|) + (CRLF + data + CRLF + s)
    ensures |whole| >= h + |data| + 4
    ensures whole[h] == CR && whole[h + 1] == LF
    ensures whole[h + 2..h + 2 + |data|] == data
    ensures whole[h + 2 + |data|] == CR && whole[h + 3 + |data|] == LF
    ensures whole[h + 4 + |data|..] == s
  {
    hide Hex;
    assert Frame(data) == Hex(|data|) + CRLF + data + CRLF;
    Layout(Hex(|data|), data, s, whole);
  }

  lemma Layout(size: seq<Byte>, data: seq<Byte>, s: seq<Byte>, whole: seq<Byte>)
    requires whole == size + CRLF + data + CRLF + s
    ensures var h := |size|;
      && whole == size + (CRLF + data + CRLF + s)
      && |whole| >= h + |data| + 4
      && whole[h] == CR && whole[h + 1] == LF
      && whole[h + 2..h + 2 + |data|] == data
      && whole[h + 2 + |data|] == CR && whole[h + 3 + |data|] == LF
      && whole[h + 4 + |data|..] == s
  {
  }

  lemma ReadFrameSize(data: seq<Byte>, s: seq<Byte>, whole: seq<Byte>, h: nat)
    requires whole == Frame(data) + s && h == |Hex(|data|)|
    requires |whole| >= h + 2 && whole[h] == CR && whole[h + 1] == LF
    requires whole == Hex(|data|) + (CRLF + data + CRLF + s)
    ensures ReadSize(whole, 0, 0) == Size(|data|, h + 2)
  {
    ReadHex(|data|, CRLF + data + CRLF + s);
  }

  lemma ReadFrame(data: seq<Byte>, s: seq<Byte>)
    requires data != []
    ensures ReadChunk(Frame(data) + s) == Data(data, s)
  {
    var whole := Frame(data) + s;
    var h := |Hex(|data|)|;
    FrameLayout(data, s, whole, h);
    ReadFrameSize(data, s, whole, h);
    assert h + 2 + |data| + 2 == h + 4 + |data|;
  }

  lemma PrependTwice(a: seq<Byte>, b: seq<Byte>, r: Parsed)
    ensures Prepend(a, Prepend(b, r)) == Prepend(a + b, r)
  {
    if r.Complete? {
      assert a + (b + r.payload) == a + b + r.payload;
    }
  }

  lemma ReadTerminator(rest: seq<Byte>)
    ensures ReadChunk(TERMINATOR + rest) == Last(rest)
  {
    var s := TERMINATOR + rest;
    assert s[0] == 48 && s[1] == CR && s[2] == LF && s[3] == CR && s[4] == LF;
    assert ReadSize(s, 1, 0) == Size(0, 3);
    assert ReadSize(s, 0, 0) == ReadSize(s, 1, 0);
    assert s[5..] == rest;
  }

  /** Chunks already framed can be peeled off the front of any continuation. */
  lemma {:induction false} ParseEncode(chunks: seq<seq<Byte>>, s: seq<Byte>)
    requires NonEmpty(chunks)
    ensures Parse(Encode(chunks) + s) == Prepend(Concat(chunks), Parse(s))
  {
    if chunks == [] {
      assert Encode(chunks) + s == s;
    } else {
      var tail := Encode(chunks[1..]) + s;
      assert Encode(chunks) + s == Frame(chunks[0]) + tail;
      ReadFrame(chunks[0], tail);
      ParseEncode(chunks[1..], s);
      PrependTwice(chunks[0], Concat(chunks[1..]), Parse(s));
    }
  }

  /** A terminated stream of non-empty chunks decodes to exactly the concatenation of their
      data, and the receiver leaves whatever follows untouched. */
  lemma RoundTrip(chunks: seq<seq<Byte>>, rest: seq<Byte>)
    requires NonEmpty(chunks)
    ensures Parse(Encode(chunks) + TERMINATOR + rest) == Complete(Concat(chunks), rest)
  {
    assert Encode(chunks) + TERMINATOR + rest == Encode(chunks) + (TERMINATOR + rest);
    ReadTerminator(rest);
    ParseEncode(chunks, TERMINATOR + rest);
    assert Concat(chunks) + [] == Concat(chunks);
  }

  lemma {:induction false} HexLeads(n: nat)
    requires n > 0
    ensures Hex(n)[0] != 48
  {
    if n >= 16 {
      HexLeads(n / 16);
    }
  }

  // ------------------------------------------------------------- truncation

  lemma {:induction false} ReadSizeExtends(p: seq<Byte>, q: seq<Byte>, i: nat, n: nat)
    requires i <= |p|
    requires ReadSize(p, i, n) != NeedMore
    ensures ReadSize(p + q, i, n) == ReadSize(p, i, n)
    decreases |p| - i
  {
    assert (p + q)[i] == p[i];
    if IsHex(p[i]) {
      ReadSizeExtends(p, q, i + 1, 16 * n + HexValue(p[i]));
    } else if i != 0 && p[i] == CR {
      assert (p + q)[i + 1] == p[i + 1];
    }
  }

  lemma ReadChunkExtends(p: seq<Byte>, q: seq<Byte>)
    requires ReadChunk(p) != Short
    ensures ReadChunk(p).Bad? ==> ReadChunk(p + q).Bad?
    ensures ReadChunk(p).Last? ==> ReadChunk(p + q) == Last(ReadChunk(p).rest + q)
    ensures ReadChunk(p).Data? ==> ReadChunk(p + q) == Data(ReadChunk(p).data, ReadChunk(p).rest + q)
  {
    ReadSizeExtends(p, q, 0, 0);
    var r := ReadSize(p, 0, 0);
    if r.Size? {
      var end := r.next + r.n;
      assert ReadEol(p + q, end) == ReadEol(p, end);
      if ReadEol(p, end) == Present {
        assert (p + q)[end + 2..] == p[end + 2..] + q;
        assert (p + q)[r.next..end] == p[r.next..end];
      }
    }
  }

  /** A verdict, once reached, is not changed by more bytes: only Incomplete can be revised. */
  lemma {:induction false} VerdictIsFinal(p: seq<Byte>, q: seq<Byte>)
    requires Parse(p) != Incomplete
    ensures Parse(p).Malformed? ==> Parse(p + q).Malformed?
    ensures Parse(p).Complete? ==> Parse(p + q) == Complete(Parse(p).payload, Parse(p).rest + q)
    decreases |p|
  {
    ReadChunkExtends(p, q);
    if ReadChunk(p).Data? {
      VerdictIsFinal(ReadChunk(p).rest, q);
    }
  }

  /** Truncation is always visible: no proper prefix of a terminated stream is accepted as a
      complete body, and none is rejected as malformed either. */
  lemma ProperPrefixIsIncomplete(chunks: seq<seq<Byte>>, p: seq<Byte>)
    requires NonEmpty(chunks)
    requires p < Encode(chunks) + TERMINATOR
    ensures Parse(p) == Incomplete
  {
    var full := Encode(chunks) + TERMINATOR;
    var q := full[|p|..];
    assert p + q == full;
    RoundTrip(chunks, []);
    assert full + [] == full;
    if Parse(p) != Incomplete {
      VerdictIsFinal(p, q);
    }
  }

  // ----------------------------------------------------------------- appending

  lemma {:induction false} EncodeAppend(chunks: seq<seq<Byte>>, c: seq<Byte>)
    ensures Encode(chunks + [c]) == Encode(chunks) + Frame(c)
  {
    if chunks == [] {
      assert chunks + [c] == [c];
      assert Encode([c]) == Frame(c) + Encode([]);
    } else {
      assert (chunks + [c])[1..] == chunks[1..] + [c];
      EncodeAppend(chunks[1..], c);
    }
  }

  lemma {:induction false} ConcatAppend<T>(parts: seq<seq<T>>, p: seq<T>)
    ensures Concat(parts + [p]) == Concat(parts) + p
  {
    if parts == [] {
      assert parts + [p] == [p];
      assert Concat([p]) == p + Concat<T>([]);
    } else {
      assert (parts + [p])[1..] == parts[1..] + [p];
      ConcatAppend(parts[1..], p);
    }
  }

  /** `%zx` of any 64-bit length, with its CRLF, fits the writer's 32-byte line buffer. */
  lemma {:induction false} SizeLineFits(n: nat, digits: nat)
    requires digits >= 1 && n < Pow16(digits)
    ensures |Hex(n)| <= digits
    decreases n
  {
    if n >= 16 {
      assert Pow16(1) == 16;
      assert n / 16 < Pow16(digits - 1);
      SizeLineFits(n / 16, digits - 1);
    }
  }

  function Pow16(e: nat): nat {
    if e == 0 then 1 else 16 * Pow16(e - 1)
  }
}
