/** The stream's object and its loops, in place, proved against the protocol of StreamProtocol:
    every critical section is one method and its effect is one action of the protocol, so that
    what StreamTheorems says of every run holds of the object. */
module StreamOutImpl {
  import opened ChunkedCoding
  import opened Pcm
  import opened StreamProtocol

  const SIZE_MAX: nat := 0xFFFF_FFFF_FFFF_FFFF

  // ------------------------------------------------------------------ sockets

  /** What one write call answers. */
  datatype Io = Interrupted | Failed(err: Errno) | Took(n: nat)

  /** `Pending`: the script of socket answers ended before the data did. */
  datatype Outcome = Done | Gone(err: Errno) | Pending

  /** An answer after which nothing more can be sent. */
  predicate Fatal(io: Io) {
    io.Failed? || io == Took(0)
  }

  /** The errors a writer meets in these answers, in order; sending nothing counts as a broken pipe. */
  function Errors(answers: seq<Io>): seq<Errno> {
    if answers == [] then []
    else
      var init, last := answers[..|answers| - 1], answers[|answers| - 1];
      Errors(init) + (if !Fatal(last) then [] else if last.Failed? then [last.err] else [Epipe])
  }

  lemma {:induction false} ErrorsConcat(a: seq<Io>, b: seq<Io>)
    ensures Errors(a + b) == Errors(a) + Errors(b)
  {
    if b == [] {
      assert a + b == a;
    } else {
      var init, last := b[..|b| - 1], b[|b| - 1];
      assert (a + b)[..|a + b| - 1] == a + init;
      ErrorsConcat(a, init);
    }
  }

  /** What is left of a script after some of its answers. */
  ghost predicate LeftOf(now: seq<Io>, was: seq<Io>) {
    |now| <= |was| && was[|was| - |now|..] == now
  }

  function Used(was: seq<Io>, now: seq<Io>): seq<Io>
    requires |now| <= |was|
  {
    was[..|was| - |now|]
  }

  /** A write loop gives up at the first fatal answer and at no other, with the error of that answer;
      it stops early only when there are no more answers. */
  ghost predicate Because(was: seq<Io>, now: seq<Io>, r: Outcome) {
    && LeftOf(now, was)
    && Errors(Used(was, now)) == (if r.Gone? then [r.err] else [])
    && (r.Pending? ==> now == [])
    && (r.Gone? ==> |now| < |was| && Fatal(was[|was| - |now| - 1]))
  }

  lemma OneAnswer(was: seq<Io>, now: seq<Io>)
    requires LeftOf(now, was) && now != []
    ensures LeftOf(now[1..], was) && Used(was, now[1..]) == Used(was, now) + [now[0]]
    ensures was[|was| - |now|] == now[0]
    ensures Errors(Used(was, now[1..])) ==
      Errors(Used(was, now)) + (if !Fatal(now[0]) then [] else if now[0].Failed? then [now[0].err] else [Epipe])
  {
    var k := |was| - |now|;
    assert was[k..][0] == was[k] && was[k..][1..] == was[k + 1..];
    assert was[..k + 1] == was[..k] + [was[k]];
    assert (was[..k] + [was[k]])[..k] == was[..k];
  }

  /** The causes of what came of one loop after another that went through. */
  lemma BecauseOn(was: seq<Io>, mid: seq<Io>, now: seq<Io>, r: Outcome)
    requires LeftOf(mid, was) && Because(mid, now, r)
    ensures LeftOf(now, was) && Errors(Used(was, now)) == Errors(Used(was, mid)) + (if r.Gone? then [r.err] else [])
    ensures Because(was, mid, Done) ==> Because(was, now, r)
  {
    assert was[|was| - |mid|..][|mid| - |now|..] == was[|was| - |now|..];
    assert Used(was, now) == Used(was, mid) + Used(mid, now);
    ErrorsConcat(Used(was, mid), Used(mid, now));
    assert [] + Errors(Used(mid, now)) == Errors(Used(mid, now));
    if r.Gone? {
      assert mid[|mid| - |now| - 1] == was[|was| - |mid|..][|mid| - |now| - 1];
    }
  }

  lemma BecauseThen(was: seq<Io>, mid: seq<Io>, now: seq<Io>, r: Outcome)
    requires Because(was, mid, Done) && Because(mid, now, r)
    ensures Because(was, now, r)
  {
    BecauseOn(was, mid, now, r);
  }

  /** Giving up at the next answer. */
  lemma GivesUp(was: seq<Io>, now: seq<Io>)
    requires LeftOf(now, was) && now != [] && Errors(Used(was, now)) == [] && Fatal(now[0])
    ensures Because(was, now[1..], Gone(if now[0].Failed? then now[0].err else Epipe))
  {
    hide Errors, Used;
    OneAnswer(was, now);
    assert |now[1..]| == |now| - 1;
  }

  /** Not having had to give up. */
  lemma WentOn(was: seq<Io>, now: seq<Io>, r: Outcome)
    requires LeftOf(now, was) && |now| <= |was| && Errors(Used(was, now)) == [] && !r.Gone? && (r.Pending? ==> now == [])
    ensures Because(was, now, r)
  {
  }

  lemma NothingUsed(was: seq<Io>)
    ensures LeftOf(was, was) && Used(was, was) == [] && Errors([]) == []
  {
  }

  /** A count is clipped to what was asked for. */
  function Clip(io: Io, n: nat): Io {
    if io.Took? then Took(Min(io.n, n)) else io
  }

  /** A connected socket: the bytes it took so far, and its future answers. */
  class Socket {
    var wire: seq<Byte>
    var script: seq<Io>

    constructor (script: seq<Io>)
      ensures wire == [] && this.script == script
    {
      this.wire := [];
      this.script := script;
    }

    /** One `send` or `writev` of `bytes`. */
    method Write(bytes: seq<Byte>) returns (r: Io)
      requires script != []
      modifies this
      ensures script == old(script)[1..] && r == Clip(old(script)[0], |bytes|)
      ensures wire == if r.Took? then old(wire) + bytes[..r.n] else old(wire)
    {
      r := Clip(script[0], |bytes|);
      script := script[1..];
      if r.Took? {
        wire := wire + bytes[..r.n];
      }
    }
  }

  /** What a write loop may have done to a socket that was asked to take `data`. */
  ghost predicate Emitted(before: seq<Byte>, after: seq<Byte>, data: seq<Byte>, r: Outcome) {
    if r.Done? then after == before + data
    else before <= after && after[|before|..] < data
  }

  function Total(takes: seq<nat>): nat {
    if takes == [] then 0 else Total(takes[..|takes| - 1]) + takes[|takes| - 1]
  }

  lemma TotalMore(takes: seq<nat>, n: nat)
    ensures Total(takes + [n]) == Total(takes) + n
  {
    assert (takes + [n])[..|takes|] == takes;
  }

  lemma {:induction false} TotalConcat(a: seq<nat>, b: seq<nat>)
    ensures Total(a + b) == Total(a) + Total(b)
  {
    if b == [] {
      assert a + b == a;
    } else {
      var init, last := b[..|b| - 1], b[|b| - 1];
      assert a + b == (a + init) + [last] && b == init + [last];
      TotalConcat(a, init);
      TotalMore(a + init, last);
      TotalMore(init, last);
    }
  }

  ghost predicate AllPositive(takes: seq<nat>) {
    forall k :: 0 <= k < |takes| ==> takes[k] > 0
  }

  lemma NoTakes()
    ensures Total([]) == 0
  {
  }

  /** What the socket took at each write that took something. */
  ghost predicate TookIn(takes: seq<nat>, before: seq<Byte>, after: seq<Byte>) {
    AllPositive(takes) && |before| + Total(takes) == |after|
  }

  lemma NextPart(wire: seq<Byte>, data: seq<Byte>, p: nat, k: nat)
    requires p + k <= |data|
    ensures wire + data[..p] + data[p..][..k] == wire + data[..p + k]
  {
  }

  lemma StoppedAt(before: seq<Byte>, data: seq<Byte>, p: nat, takes: seq<nat>, r: Outcome)
    requires p <= |data| && AllPositive(takes) && Total(takes) == p && (r.Done? <==> p == |data|)
    ensures Emitted(before, before + data[..p], data, r) && TookIn(takes, before, before + data[..p])
  {
    assert p == |data| ==> data[..p] == data;
  }

  /** `write_all_or_gone`: everything, or the peer is gone. */
  method WriteAllOrGone(fd: Socket, data: seq<Byte>) returns (r: Outcome, ghost takes: seq<nat>)
    requires data != []
    modifies fd
    ensures Emitted(old(fd.wire), fd.wire, data, r) && TookIn(takes, old(fd.wire), fd.wire)
    ensures Because(old(fd.script), fd.script, r)
  {
    hide Total, LeftOf, Errors, Used, Emitted, TookIn, Because;
    var p := 0;
    takes := [];
    NoTakes();
    NothingUsed(fd.script);
    while p < |data| && fd.script != []
      invariant p <= |data| && AllPositive(takes) && Total(takes) == p
      invariant LeftOf(fd.script, old(fd.script)) && |fd.script| <= |old(fd.script)|
      invariant Errors(Used(old(fd.script), fd.script)) == []
      invariant fd.wire == old(fd.wire) + data[..p]
      decreases |fd.script|
    {
      OneAnswer(old(fd.script), fd.script);
      ghost var mid := fd.script;
      var n := fd.Write(data[p..]);
      match n {
        case Interrupted =>
        case Failed(err) =>
          r := Gone(err);
          GivesUp(old(fd.script), mid);
          StoppedAt(old(fd.wire), data, p, takes, r);
          return;
        case Took(k) =>
          NextPart(old(fd.wire), data, p, k);
          if k == 0 {
            r := Gone(Epipe);
            GivesUp(old(fd.script), mid);
            StoppedAt(old(fd.wire), data, p, takes, r);
            return;
          }
          p := p + k;
          TotalMore(takes, k);
          takes := takes + [k];
      }
    }
    r := if p == |data| then Done else Pending;
    WentOn(old(fd.script), fd.script, r);
    StoppedAt(old(fd.wire), data, p, takes, r);
  }

  /** Dropping `n` bytes from the front of a gather list, one emptied entry at a time. */
  method Advance(iov: array<seq<Byte>>, first: nat, n: nat) returns (next: nat)
    requires first < iov.Length
    requires n <= |Concat(iov[first..])|
    modifies iov
    ensures first <= next <= iov.Length
    ensures Concat(iov[next..]) == old(Concat(iov[first..]))[n..]
    ensures next < iov.Length ==> iov[next] != []
  {
    next := first;
    var left := n;
    ghost var whole := Concat(iov[first..]);
    assert n <= |whole| && whole[0..] == whole;
    while next < iov.Length && left >= |iov[next]|
      invariant first <= next <= iov.Length
      invariant 0 <= left <= n <= |whole|
      invariant whole[n - left..] == Concat(iov[next..])
      invariant iov[..] == old(iov[..])
      decreases iov.Length - next
    {
      assert iov[next..][0] == iov[next] && iov[next..][1..] == iov[next + 1..];
      assert Concat(iov[next..])[|iov[next]|..] == Concat(iov[next + 1..]);
      assert whole[n - left..][|iov[next]|..] == whole[n - left + |iov[next]|..];
      left := left - |iov[next]|;
      next := next + 1;
    }
    if next < iov.Length {
      ghost var tail := Concat(iov[next..]);
      assert iov[next..][0] == iov[next] && iov[next..][1..] == iov[next + 1..];
      ghost var rest := iov[next + 1..];
      assert tail == iov[next] + Concat(rest);
      iov[next] := iov[next][left..];
      assert iov[next..][0] == iov[next] && iov[next..][1..] == rest;
      assert Concat(iov[next..]) == iov[next] + Concat(rest);
      assert Concat(iov[next..]) == tail[left..];
      assert whole[n - left..][left..] == whole[n..];
    } else {
      assert iov[next..] == [];
    }
  }

  lemma RestAfter(data: seq<Byte>, p: nat, k: nat)
    requires p + k <= |data|
    ensures data[p..][k..] == data[p + k..]
  {
  }

  lemma SomeLeft(parts: seq<seq<Byte>>)
    ensures parts == [] ==> Concat(parts) == []
    ensures parts != [] && parts[0] != [] ==> Concat(parts) != []
  {
  }

  /** `writev_all_or_gone`: the same contract for a gather list. */
  method WritevAllOrGone(fd: Socket, iov: array<seq<Byte>>) returns (r: Outcome, ghost takes: seq<nat>)
    requires iov.Length > 0 && Concat(iov[..]) != []
    modifies fd, iov
    ensures Emitted(old(fd.wire), fd.wire, old(Concat(iov[..])), r) && TookIn(takes, old(fd.wire), fd.wire)
    ensures Because(old(fd.script), fd.script, r)
  {
    hide Total, Concat, LeftOf, Errors, Used, Emitted, TookIn, Because;
    var i := 0;
    takes := [];
    NoTakes();
    NothingUsed(fd.script);
    ghost var data := Concat(iov[..]);
    ghost var done := 0;
    assert iov[0..] == iov[..];
    while i < iov.Length && fd.script != []
      invariant 0 <= i <= iov.Length && AllPositive(takes) && Total(takes) == done
      invariant LeftOf(fd.script, old(fd.script)) && |fd.script| <= |old(fd.script)|
      invariant Errors(Used(old(fd.script), fd.script)) == []
      invariant done <= |data|
      invariant Concat(iov[i..]) == data[done..]
      invariant i < iov.Length ==> done < |data|
      invariant fd.wire == old(fd.wire) + data[..done]
      decreases |fd.script|
    {
      OneAnswer(old(fd.script), fd.script);
      ghost var mid, rest := fd.script, Concat(iov[i..]);
      var n := fd.Write(Concat(iov[i..]));
      assert Concat(iov[i..]) == rest;
      match n {
        case Interrupted =>
        case Failed(err) =>
          r := Gone(err);
          GivesUp(old(fd.script), mid);
          StoppedAt(old(fd.wire), data, done, takes, r);
          return;
        case Took(k) =>
          NextPart(old(fd.wire), data, done, k);
          if k == 0 {
            r := Gone(Epipe);
            GivesUp(old(fd.script), mid);
            StoppedAt(old(fd.wire), data, done, takes, r);
            return;
          }
          i := Advance(iov, i, k);
          assert Concat(iov[i..]) == rest[k..];
          TotalMore(takes, k);
          takes := takes + [k];
          RestAfter(data, done, k);
          done := done + k;
          SomeLeft(iov[i..]);
      }
    }
    SomeLeft(iov[i..]);
    r := if i == iov.Length then Done else Pending;
    WentOn(old(fd.script), fd.script, r);
    StoppedAt(old(fd.wire), data, done, takes, r);
  }

  /** `write_chunk`: one gather write or three sends, the same bytes either way. */
  method WriteChunk(fd: Socket, data: seq<Byte>, oneWrite: bool) returns (r: Outcome, ghost takes: seq<nat>)
    requires data != [] && |data| < Pow16(16)
    modifies fd
    ensures Emitted(old(fd.wire), fd.wire, Frame(data), r) && TookIn(takes, old(fd.wire), fd.wire)
    ensures Because(old(fd.script), fd.script, r)
  {
    var sizeLine := SizeLine(|data|);
    SizeLineFits(|data|, 16);
    assert |sizeLine| < 32;   // snprintf into size_line[32] never truncates
    if oneWrite {
      var iov := new seq<Byte>[3](i => if i == 0 then sizeLine else if i == 1 then data else CRLF);
      assert iov[..] == [sizeLine, data, CRLF];
      ConcatOfThree(sizeLine, data, CRLF);
      r, takes := WritevAllOrGone(fd, iov);
    } else {
      r, takes := WriteThree(fd, sizeLine, data, CRLF);
    }
  }

  method WriteThree(fd: Socket, a: seq<Byte>, b: seq<Byte>, c: seq<Byte>) returns (r: Outcome, ghost takes: seq<nat>)
    requires a != [] && b != [] && c != []
    modifies fd
    ensures Emitted(old(fd.wire), fd.wire, a + b + c, r) && TookIn(takes, old(fd.wire), fd.wire)
    ensures Because(old(fd.script), fd.script, r)
  {
    hide Emitted, TookIn, Because;
    ghost var more;
    ghost var w0, s0 := fd.wire, fd.script;
    r, takes := WriteAllOrGone(fd, a);
    if !r.Done? {
      CutEarly(w0, fd.wire, a, b + c, r);
      assert a + (b + c) == a + b + c;
      return;
    }
    ghost var w1, s1 := fd.wire, fd.script;
    r, more := WriteAllOrGone(fd, b);
    BecauseThen(s0, s1, fd.script, r);
    EmittedOn(w0, w1, fd.wire, a, b, takes, more, r);
    takes := takes + more;
    if !r.Done? {
      CutEarly(w0, fd.wire, a + b, c, r);
      return;
    }
    w1, s1 := fd.wire, fd.script;
    r, more := WriteAllOrGone(fd, c);
    BecauseThen(s0, s1, fd.script, r);
    EmittedOn(w0, w1, fd.wire, a + b, c, takes, more, r);
    takes := takes + more;
  }

  /** One part after another. */
  lemma EmittedOn(
    before: seq<Byte>, mid: seq<Byte>, after: seq<Byte>, a: seq<Byte>, b: seq<Byte>, takes: seq<nat>, more: seq<nat>, r: Outcome)
    requires Emitted(before, mid, a, Done) && TookIn(takes, before, mid)
    requires Emitted(mid, after, b, r) && TookIn(more, mid, after)
    ensures Emitted(before, after, a + b, r) && TookIn(takes + more, before, after)
  {
    TotalConcat(takes, more);
    assert before + a + b == before + (a + b);
    if !r.Done? {
      assert after[|before|..] == a + after[|mid|..];
    }
  }

  /** A part that failed leaves the whole cut short too. */
  lemma CutEarly(before: seq<Byte>, after: seq<Byte>, part: seq<Byte>, rest: seq<Byte>, r: Outcome)
    requires !r.Done? && Emitted(before, after, part, r)
    ensures Emitted(before, after, part + rest, r)
  {
  }

  lemma ConcatOfThree(a: seq<Byte>, b: seq<Byte>, c: seq<Byte>)
    ensures Concat([a, b, c]) == a + b + c
  {
    assert [a, b, c][1..] == [b, c] && [b, c][1..] == [c] && [c][1..] == [];
    assert Concat([c]) == c + Concat<Byte>([]);
    assert Concat([b, c]) == b + Concat([c]);
  }

  // ------------------------------------------------------------------ the object

  /** What polling the descriptor found. */
  datatype Poll =
    | PollFailed(retry: bool)
    | Quiet
    | Events(hangup: bool, halfClosed: bool, readable: bool, probe: Probe)
  datatype Probe = Eof | Bytes | ProbeFailed(retry: bool)

  predicate SaysGone(p: Poll) {
    match p
    case PollFailed(retry) => !retry
    case Quiet => false
    case Events(hangup, halfClosed, readable, probe) =>
      hangup || halfClosed || (readable && (probe.Eof? || (probe.ProbeFailed? && !probe.retry)))
  }

  predicate FailureIsHangup(err: Errno) {
    err.Epipe? || err.Econnreset? || err.Enotconn? || err.Eshutdown?
  }

  /** What `poll` and the peek say of a peer that is there: nothing, or bytes, or to ask again. And
      a stream that failed has lost its peer if its first error was one of the four of a peer gone. */
  lemma PeersAreTold(p: Poll, err: Errno)
    ensures !SaysGone(p) <==>
      p == Quiet || p == PollFailed(true) ||
      (p.Events? && !p.hangup && !p.halfClosed && (p.readable ==> p.probe == Bytes || p.probe == ProbeFailed(true)))
    ensures FailureIsHangup(err) <==> err in {Epipe, Econnreset, Enotconn, Eshutdown}
  {
  }

  method Memcpy(dst: array<Byte>, at: nat, src: seq<Byte>)
    requires at + |src| <= dst.Length
    modifies dst
    ensures dst[..] == Blit(old(dst[..]), at, src)
  {
    var i := 0;
    while i < |src|
      invariant i <= |src|
      invariant forall j | 0 <= j < dst.Length :: dst[j] == if at <= j < at + i then src[j - at] else old(dst[j])
    {
      dst[at + i] := src[i];
      i := i + 1;
    }
  }

  lemma BlitNothing(ring: seq<Byte>, data: seq<Byte>)
    requires data == []
    ensures Blit(ring, 0, data) == ring
  {
  }

  lemma Doubled(q: nat, cap: nat)
    ensures q >= 2 ==> q * cap >= 2 * cap
  {
  }

  lemma QuotientIsZeroOrOne(x: nat, cap: nat, q: nat, r: nat)
    requires r < cap && x < 2 * cap && x == q * cap + r
    ensures r == Wrap(x, cap)
  {
    Doubled(q, cap);
  }

  method RingIndex(x: nat, cap: nat) returns (r: nat)
    requires 0 < cap && x < 2 * cap
    ensures r == Wrap(x, cap)
  {
    var q := x / cap;
    r := x % cap;
    assert x == q * cap + r && q >= 0;
    QuotientIsZeroOrOne(x, cap, q, r);
  }

  lemma CommitIs(s: Stream)
    requires Sane(s) && Enabled(s, Commit)
    ensures s.phase.Writing? && s.q.head < |s.q.ring| && s.phase.span <= s.q.queued
    ensures s.q.head + s.phase.span <= |s.q.ring|
    ensures Apply(s, Commit) ==
      s.(q := Drop(s.q, s.phase.span), out := s.out.(chunks := s.out.chunks + [s.out.current], partial := []), phase := Ready)
  {
  }

  class StreamOut {
    const ring: array<Byte>
    const header: seq<Byte>
    var head: nat
    var queued: nat
    var peakBytes: nat
    var sentBytes: nat
    var enqueuedChunks: nat
    var failedEnqueues: nat
    var producerDone: bool
    var failed: bool
    var failureErrno: Errno
    var dead: bool
    var refs: int
    var fd: int                       // -1 once closed
    var convert: array<int>           // 16-bit integers
    ghost var producerHolds: bool
    ghost var phase: Phase
    ghost var out: Output
    ghost var accepted: seq<Byte>
    ghost var offered: seq<seq<Byte>>
    ghost var taken: nat

    ghost function View(): Stream
      reads this, ring
    {
      Stream(header, Queue(ring[..], head, queued, peakBytes, sentBytes, enqueuedChunks, accepted, offered, taken),
             out, phase, producerDone, failed, failureErrno, dead, failedEnqueues, refs, fd >= 0, producerHolds)
    }

    constructor (fd: int, header: seq<Byte>, capacity: nat)
      requires fd >= 0 && capacity > 0
      ensures fresh(ring) && ring.Length == capacity && fresh(convert) && convert.Length == 0
      ensures View() == Start(header, ring[..])
    {
      this.ring := new Byte[capacity];
      this.convert := new int[0];
      this.header := header;
      this.fd := fd;
      head, queued, peakBytes, sentBytes, enqueuedChunks, failedEnqueues := 0, 0, 0, 0, 0, 0;
      producerDone, failed, dead := false, false, false;
      failureErrno := NoErrno;
      refs := 2;
      producerHolds := true;
      phase := if header == [] then Ready else Header(0);
      out := Output([], false, [], [], []);
      accepted, offered, taken := [], [], 0;
    }

    /** Bookkeeping of the writer's steps that change no field of the object: its sends, its
        wake-ups and its reading of `failed`. */
    ghost method Advance(a: Action)
      requires Sane(View()) && Enabled(View(), a)
      requires a.HeaderWrite? || a.Wake? || a.Write? || a.Sample? || a.TermWrite?
      modifies this`phase, this`out
      ensures View() == Apply(old(View()), a)
    {
      var next := Apply(View(), a);
      phase := next.phase;
      out := next.out;
    }

    /** `mark_failed_locked` */
    method MarkFailedLocked(err: Errno)
      modifies this`failed, this`failureErrno, this`dead, this`producerDone, this`phase
      ensures View() == MarkFailed(old(View()), err)
    {
      if !failed {
        failed := true;
        failureErrno := err;
      }
      dead := true;
      producerDone := true;
      phase := Notify(phase);
    }

    /** `stream_out_enqueue`. A call without samples, or with more than a buffer can hold, is refused
        and leaves the stream as it was. */
    method EnqueueSamples(samples: seq<real>, memory: bool) returns (rc: int)
      requires Sane(View())
      modifies this, ring, convert
      ensures View() == if samples == [] || |samples| > SIZE_MAX / 2 then old(View())
                        else Offer(old(View()), Convert(samples), |samples| <= old(convert.Length) || memory)
      ensures rc == if 0 < |samples| <= SIZE_MAX / 2 && (|samples| <= old(convert.Length) || memory) &&
                       !old(failed) && !old(producerDone) && 2 * |samples| <= ring.Length - old(queued) then 0 else -1
      ensures rc == 0 ==> accepted == old(accepted) + Convert(samples) && HeardAs(Convert(samples), samples)
      ensures rc != 0 ==> accepted == old(accepted)
    {
      hide Sane, Offer, Convert, HeardAs, Memory, Pcm16, Hears;
      if samples == [] || |samples| > SIZE_MAX / 2 {
        return -1;
      }
      ConvertIsHeard(samples);
      if |samples| > convert.Length {
        if !memory {
          RefuseUnconverted(Convert(samples));
          return -1;
        }
        convert := new int[|samples|];
      }
      ConvertInto(samples, convert);
      MemoryIsConverted(convert[..|samples|], samples);
      rc := Enqueue(Memory(convert[..|samples|]), true);
    }

    /** There was no memory to convert into. */
    method RefuseUnconverted(ghost data: seq<Byte>)
      requires Sane(View())
      modifies this
      ensures View() == Offer(old(View()), data, false) && accepted == old(accepted) && taken == old(taken)
    {
      CountRefusal(data);
      MarkFailedLocked(Enomem);
    }

    /** `stream_out_enqueue` with the converted bytes. A chunk is accepted exactly when it has been
        converted, the stream takes chunks, and the ring has that much room. */
    method Enqueue(data: seq<Byte>, converted: bool) returns (rc: int)
      requires Sane(View())
      modifies this, ring
      ensures View() == Offer(old(View()), data, converted)
      ensures rc == if converted && !old(failed) && !old(producerDone) && |data| <= ring.Length - old(queued) then 0 else -1
      ensures accepted == if rc == 0 then old(accepted) + data else old(accepted)
      ensures taken == if rc == 0 then old(taken) + 1 else old(taken)
    {
      if !converted {
        RefuseUnconverted(data);
        return -1;
      }
      if failed || producerDone {
        CountRefusal(data);
        return -1;
      }
      if |data| > ring.Length - queued {
        CountRefusal(data);
        MarkFailedLocked(NoErrno);
        return -1;
      }
      Append(data);
      return 0;
    }

    method CountRefusal(ghost data: seq<Byte>)
      modifies this`failedEnqueues, this`offered
      ensures View() == Refuse(old(View()), data)
    {
      failedEnqueues := failedEnqueues + 1;
      offered := offered + [data];
    }

    method Append(data: seq<Byte>)
      requires head < ring.Length && queued + |data| <= ring.Length
      modifies this, ring
      ensures View() == old(View()).(q := Push(old(View()).q, data), phase := Notify(old(phase)))
    {
      ghost var before := View();
      CopyIn(data);
      ghost var filled := ring[..];
      assert filled == Fill(before.q.ring, head, queued, data);
      CountChunk(data);
      assert ring[..] == filled;
    }

    method CountChunk(data: seq<Byte>)
      modifies this`queued, this`peakBytes, this`enqueuedChunks, this`accepted, this`offered, this`taken, this`phase
      ensures queued == old(queued) + |data| && peakBytes == (if queued > old(peakBytes) then queued else old(peakBytes))
      ensures enqueuedChunks == old(enqueuedChunks) + 1 && taken == old(taken) + 1
      ensures accepted == old(accepted) + data && offered == old(offered) + [data]
      ensures phase == Notify(old(phase))
    {
      queued := queued + |data|;
      if queued > peakBytes { peakBytes := queued; }
      enqueuedChunks := enqueuedChunks + 1;
      accepted := accepted + data;
      offered := offered + [data];
      taken := taken + 1;
      phase := Notify(phase);
    }

    /** The two copies of an enqueue. */
    method CopyIn(data: seq<Byte>)
      requires head < ring.Length && queued + |data| <= ring.Length
      modifies ring
      ensures ring[..] == Fill(old(ring[..]), head, queued, data)
    {
      hide Blit;
      var tail := RingIndex(head + queued, ring.Length);
      var first := if |data| < ring.Length - tail then |data| else ring.Length - tail;
      Memcpy(ring, tail, data[..first]);
      ghost var half := ring[..];
      if first < |data| {
        Memcpy(ring, 0, data[first..]);
        assert ring[..] == Blit(half, 0, data[first..]);
      } else {
        BlitNothing(half, data[first..]);
      }
    }

    /** The top of the writer's loop: the span to send next, or none when it must wait or stop. */
    method NextSpan() returns (offset: nat, span: nat)
      requires Sane(View()) && Enabled(View(), Look)
      modifies this`phase, this`out
      ensures View() == Apply(old(View()), Look)
      ensures span > 0 <==> phase.Writing?
      ensures phase.Writing? ==> phase == Writing(offset, span, 0)
    {
      ghost var before := View();
      phase := LookOnce(before).phase;
      out := LookOnce(before).out;
      if failed || queued == 0 {
        return 0, 0;
      }
      span := queued;
      if span > ring.Length - head { span := ring.Length - head; }
      offset := head;
    }

    /** Hands the written span back to the producer. */
    method CommitSpan(span: nat)
      requires phase.Writing? && Sane(View()) && Enabled(View(), Commit) && span == phase.span
      modifies this`head, this`queued, this`sentBytes, this`phase, this`out
      ensures View() == Apply(old(View()), Commit)
    {
      hide Sane, Enabled, Apply, Wrap, Message, Span;
      CommitIs(View());
      Retreat(span);
      NoteChunk();
    }

    method Retreat(span: nat)
      requires head < ring.Length && span <= queued && head + span <= ring.Length
      modifies this`head, this`queued, this`sentBytes
      ensures View() == old(View()).(q := Drop(old(View()).q, span))
    {
      hide Wrap;
      head := RingIndex(head + span, ring.Length);
      queued := queued - span;
      sentBytes := sentBytes + span;
    }

    ghost method NoteChunk()
      modifies this`phase, this`out
      ensures View() == old(View()).(
        out := old(View()).out.(chunks := old(View()).out.chunks + [old(View()).out.current], partial := []), phase := Ready)
    {
      out := out.(chunks := out.chunks + [out.current], partial := []);
      phase := Ready;
    }

    /** A failed write of the header, of a chunk or of the last chunk. */
    method WriteFailed(a: Action)
      requires Sane(View()) && Enabled(View(), a) && (a.HeaderFail? || a.WriteFail? || a.TermFail?)
      modifies this
      ensures View() == Apply(old(View()), a)
    {
      if a.HeaderFail? { out := out.(headerCut := true); }
      phase := if a.HeaderFail? then Ready else if a.WriteFail? then Sampling else Closing;
      MarkFailedLocked(a.err);
    }

    /** The descriptor is closed and retired in one critical section. */
    method CloseFd() returns (doomed: int)
      requires Inv(View()) && Sane(View()) && Enabled(View(), Close)
      modifies this`fd, this`phase
      ensures View() == Apply(old(View()), Close)
      ensures doomed == old(fd) && doomed >= 0 && fd == -1
    {
      doomed := fd;
      fd := -1;
      phase := Closed;
    }

    /** `stream_out_peer_gone` */
    method PeerGone(poll: Poll) returns (gone: bool)
      requires Sane(View()) && producerHolds
      modifies this
      ensures View() == Apply(old(View()), PollPeer(SaysGone(poll)))
      ensures gone == if old(failed) then FailureIsHangup(old(failureErrno)) else old(fd) < 0 || SaysGone(poll)
    {
      if failed {
        return FailureIsHangup(failureErrno);
      }
      if fd < 0 { return true; }
      gone := SaysGone(poll);
      if gone { MarkFailedLocked(Epipe); }
    }

    /** `stream_out_finish` */
    method FinishStream()
      requires Sane(View()) && producerHolds
      modifies this`producerDone, this`phase
      ensures View() == Apply(old(View()), Finish)
    {
      producerDone := true;
      phase := Notify(phase);
    }

    /** `stream_out_release`, by either side; the last one out must destroy the object. */
    method Release(ghost byWriter: bool) returns (destroy: bool)
      requires Inv(View()) && Sane(View()) && Enabled(View(), if byWriter then WriterRelease else ProducerRelease)
      modifies this`refs, this`phase, this`producerHolds
      ensures View() == Apply(old(View()), if byWriter then WriterRelease else ProducerRelease)
      ensures destroy <==> !producerHolds && phase.Released?
    {
      hide QueueInv, SpanInv, WireInv, PartialInv, Message, Concat, Terminated;
      destroy := refs == 1;
      refs := refs - 1;
      if byWriter { phase := Released; } else { producerHolds := false; }
    }
  }
}
