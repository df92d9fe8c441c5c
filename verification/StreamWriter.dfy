/** `stream_out_writer_main` from the first byte of the header to its last reference, against any
    producer: what it does to the object and to the socket is a run of the protocol, so that what
    StreamTheorems says of runs is true of the bytes the client gets. */
module StreamWriter {
  import opened ChunkedCoding
  import opened StreamProtocol
  import opened StreamSafety
  import opened StreamTheorems
  import opened StreamOutImpl

  // ----------------------------------------------------- sends are steps of the protocol

  predicate IsSend(a: Action) {
    a.HeaderWrite? || a.Write? || a.TermWrite?
  }

  /** Neither what was sent nor how far the writer has come matters to anyone else, unless it waits. */
  lemma OthersIgnoreTheWriter(s: Stream, a: Action, o: Output, p: Phase)
    requires Sane(s) && Sane(s.(out := o, phase := p)) && !s.phase.Parked? && !p.Parked?
    requires !IsWriterAction(a) && Enabled(s, a)
    ensures Enabled(s.(out := o, phase := p), a)
    ensures Apply(s.(out := o, phase := p), a) == Apply(s, a).(out := o, phase := p)
  {
    hide Sane, Fits, Message, Offer;
    match a {
      case Enqueue(data, converted) => OfferIgnoresTheWriter(s, data, converted, o, p);
      case _ =>
    }
  }

  lemma OfferIgnoresTheWriter(s: Stream, data: seq<Byte>, converted: bool, o: Output, p: Phase)
    requires Sane(s) && Sane(s.(out := o, phase := p)) && !s.phase.Parked? && !p.Parked?
    ensures Offer(s.(out := o, phase := p), data, converted) == Offer(s, data, converted).(out := o, phase := p)
  {
    hide Push, Message;
  }

  /** A send depends on the output, the writer's place and the message it sends, and changes only
      the first two. */
  lemma SendIs(s: Stream, t: Stream, send: Action)
    requires Inv(s) && Sane(s) && IsSend(send) && Enabled(s, send)
    requires Inv(t) && Sane(t) && t.out == s.out && t.phase == s.phase && t.header == s.header
    ensures Enabled(t, send)
    ensures var u := Apply(s, send);
      Apply(t, send) == t.(out := u.out, phase := u.phase) && !u.phase.Parked? && !s.phase.Parked?
  {
    hide Inv, Sane, Message, Frame, Sent, Enabled, Apply;
    if send.Write? {
      ChunkSendIs(s, t, send.n);
    } else {
      EdgeSendIs(s, t, send);
    }
  }

  lemma ChunkSendIs(s: Stream, t: Stream, n: nat)
    requires Inv(s) && Sane(s) && Enabled(s, Write(n))
    requires Inv(t) && Sane(t) && t.out == s.out && t.phase == s.phase
    ensures Enabled(t, Write(n)) && !s.phase.Parked?
    ensures var u := Apply(s, Write(n));
      Apply(t, Write(n)) == t.(out := u.out, phase := u.phase) && !u.phase.Parked?
  {
    hide Inv, Sane, Message, Frame, Sent;
    InvSane(s);
    InvSane(t);
  }

  lemma EdgeSendIs(s: Stream, t: Stream, send: Action)
    requires Sane(s) && (send.HeaderWrite? || send.TermWrite?) && Enabled(s, send)
    requires Sane(t) && t.out == s.out && t.phase == s.phase && t.header == s.header
    ensures Enabled(t, send) && !s.phase.Parked?
    ensures var u := Apply(s, send);
      Apply(t, send) == t.(out := u.out, phase := u.phase) && !u.phase.Parked?
  {
    hide Sent;
  }

  /** What others do while the socket is taking bytes may as well be done before or after: no
      order of the two is told from the other. */
  lemma SendsCommute(s: Stream, send: Action, a: Action)
    requires Inv(s) && Sane(s) && IsSend(send) && Enabled(s, send) && !IsWriterAction(a) && Enabled(s, a)
    ensures var t := Apply(s, a); var u := Apply(s, send);
      && Sane(t) && Sane(u) && Enabled(t, send) && Enabled(u, a) && Apply(t, send) == Apply(u, a)
  {
    hide Inv, Sane, Enabled, Apply, IsWriterAction, IsSend;
    StepInv(s, a);
    StepInv(s, send);
    InvSane(Apply(s, a));
    InvSane(Apply(s, send));
    ForeignKeeps(s, a);
    SendIs(s, s, send);
    var u := Apply(s, send);
    OthersIgnoreTheWriter(s, a, u.out, u.phase);
    SendIs(s, Apply(s, a), send);
  }

  /** Whoever is not the writer leaves the output alone, and moves the writer only by waking it. */
  lemma ForeignKeeps(s: Stream, a: Action)
    requires Inv(s) && Sane(s) && !IsWriterAction(a) && Enabled(s, a)
    ensures var t := Apply(s, a);
      t.out == s.out && t.header == s.header && (t.phase == s.phase || (s.phase.Parked? && t.phase.Parked?))
    ensures |Apply(s, a).q.ring| == |s.q.ring| && Apply(s, a).q.sent == s.q.sent
  {
    hide Inv, Sane, Message, Fill, LookOnce, Sent, Drop;
    StepKeepsShape(s, a);
  }

  // ------------------------------------------------- any order of sends and other steps

  /** Sends of one message, and steps of others, in some order. */
  ghost predicate SendsAndOthers(run: seq<Action>) {
    forall k :: 0 <= k < |run| ==> IsSend(run[k]) || !IsWriterAction(run[k])
  }

  /** The sends of a run, or what others do in it, in order. */
  function Only(run: seq<Action>, sends: bool): seq<Action> {
    if run == [] then []
    else (if IsSend(run[0]) == sends then [run[0]] else []) + Only(run[1..], sends)
  }

  lemma SendsAreAwake(s: Stream, send: Action)
    requires Sane(s) && IsSend(send) && Enabled(s, send)
    ensures !s.phase.Parked?
  {
  }

  /** Two neighbours, one a send and one not, change places. */
  lemma Swap(s: Stream, p: Action, x: Action)
    requires Inv(s) && Sane(s) && Enabled(s, p) && Sane(Apply(s, p)) && Enabled(Apply(s, p), x)
    requires if IsSend(p) then !IsWriterAction(x) else !IsWriterAction(p) && IsSend(x)
    ensures Enabled(s, x) && Sane(Apply(s, x)) && Enabled(Apply(s, x), p)
    ensures Apply(Apply(s, x), p) == Apply(Apply(s, p), x)
  {
    hide Inv, Sane, Enabled, Apply, IsWriterAction, IsSend;
    var t := Apply(s, p);
    StepInv(s, p);
    if IsSend(p) {
      SendIs(s, s, p);
      OthersIgnoreTheWriter(t, x, s.out, s.phase);
      SendsCommute(s, p, x);
    } else {
      ForeignKeeps(s, p);
      SendsAreAwake(t, x);
      SendIs(t, s, x);
      SendsCommute(s, x, p);
    }
  }

  /** The first step of its kind may as well come before everything else. */
  lemma {:induction false} PullFirst(s: Stream, run: seq<Action>, sends: bool) returns (rest: seq<Action>)
    requires Inv(s) && Sane(s) && ValidRun(s, run) && SendsAndOthers(run) && Only(run, sends) != []
    ensures var x := Only(run, sends)[0];
      Enabled(s, x) && ValidRun(Apply(s, x), rest) && Final(Apply(s, x), rest) == Final(s, run)
    ensures SendsAndOthers(rest) && Only(rest, sends) == Only(run, sends)[1..] && Only(rest, !sends) == Only(run, !sends)
    decreases |run|
  {
    hide Inv, Sane, Enabled, Apply, IsWriterAction, IsSend;
    var p := run[0];
    if IsSend(p) == sends {
      rest := run[1..];
    } else {
      var t := Apply(s, p);
      StepInv(s, p);
      InvSane(t);
      var less := PullFirst(t, run[1..], sends);
      var x := Only(run, sends)[0];
      OnlyItsKind(run, sends);
      Swap(s, p, x);
      rest := [p] + less;
      assert rest[1..] == less && Only(run, sends) == Only(run[1..], sends);
    }
  }

  lemma {:induction false} OnlyItsKind(run: seq<Action>, sends: bool)
    requires SendsAndOthers(run)
    ensures forall x :: x in Only(run, sends) ==> IsSend(x) == sends && (IsSend(x) || !IsWriterAction(x))
  {
    if run != [] {
      OnlyItsKind(run[1..], sends);
    }
  }

  /** However the same sends and the same steps of others are interleaved, the order is possible
      and ends in the same state: it may as well be all the sends first. */
  lemma {:induction false} AnyOrder(s: Stream, run: seq<Action>, other: seq<Action>)
    requires Inv(s) && Sane(s) && ValidRun(s, run) && SendsAndOthers(run)
    requires Only(other, true) == Only(run, true) && Only(other, false) == Only(run, false)
    ensures ValidRun(s, other) && Final(s, other) == Final(s, run)
    decreases |other|
  {
    hide Inv, Sane, Enabled, Apply, IsWriterAction, IsSend;
    if other == [] {
      assert run == [];
    } else {
      var x := other[0];
      var rest := PullFirst(s, run, IsSend(x));
      StepInv(s, x);
      InvSane(Apply(s, x));
      AnyOrder(Apply(s, x), rest, other[1..]);
    }
  }

  // ------------------------------------------------------- the sends of a chunk

  function Writes(takes: seq<nat>): seq<Action> {
    seq(|takes|, k requires 0 <= k < |takes| => Write(takes[k]))
  }

  /** The writer `n` bytes further into its chunk. */
  function Further(s: Stream, n: nat): Stream
    requires s.phase.Writing? && s.phase.sent + n <= |Frame(s.out.current)|
  {
    var k := s.phase.sent;
    s.(out := Sent(s.out, Frame(s.out.current)[k..k + n]), phase := s.phase.(sent := k + n))
  }

  lemma WriteFurther(s: Stream, m: nat, n: nat)
    requires Inv(s) && s.phase.Writing? && s.phase.sent + m + n <= |Frame(s.out.current)| && n > 0
    requires Inv(Further(s, m))
    ensures var t := Further(s, m);
      Sane(t) && Enabled(t, Write(n)) && Apply(t, Write(n)) == Further(s, m + n) && Inv(Further(s, m + n))
  {
    hide Inv, Sane, Frame, Message, Sent;
    var t := Further(s, m);
    InvSane(t);
    var k, f := s.phase.sent, Frame(s.out.current);
    SentTwice(s.out, f, k, k + m, k + m + n);
    SentKeeps(s.out, f[k..k + m]);
    StepInv(t, Write(n));
  }

  /** The sends of one chunk, in whatever portions the socket takes it, are so many write steps. */
  lemma {:induction false} WritesAreARun(s: Stream, takes: seq<nat>)
    requires Inv(s) && s.phase.Writing? && AllPositive(takes)
    requires s.phase.sent + Total(takes) <= |Frame(s.out.current)|
    ensures ValidRun(s, Writes(takes)) && Inv(Final(s, Writes(takes)))
    ensures Final(s, Writes(takes)) == Further(s, Total(takes))
  {
    hide Inv, Sane, Enabled, Apply, Frame, Further;
    if takes == [] {
      FurtherByNothing(s);
      assert Writes(takes) == [];
    } else {
      var init, n := takes[..|takes| - 1], takes[|takes| - 1];
      WritesAreARun(s, init);
      WriteFurther(s, Total(init), n);
      OneStep(s, Writes(init), Write(n));
      assert Writes(takes) == Writes(init) + [Write(n)];
    }
  }

  lemma FurtherByNothing(s: Stream)
    requires s.phase.Writing? && s.phase.sent <= |Frame(s.out.current)|
    ensures Further(s, 0) == s
  {
    var k := s.phase.sent;
    assert Frame(s.out.current)[k..k + 0] == [] && s.out.wire + [] == s.out.wire && s.out.partial + [] == s.out.partial;
  }

  lemma SentKeeps(o: Output, bytes: seq<Byte>)
    ensures Sent(o, bytes).current == o.current
  {
  }

  lemma SentTwice(o: Output, f: seq<Byte>, a: nat, b: nat, c: nat)
    requires a <= b <= c <= |f|
    ensures Sent(Sent(o, f[a..b]), f[b..c]) == Sent(o, f[a..c])
  {
    assert f[a..b] + f[b..c] == f[a..c];
    assert o.wire + f[a..b] + f[b..c] == o.wire + f[a..c];
    assert o.partial + f[a..b] + f[b..c] == o.partial + f[a..c];
  }

  lemma OneStep(s: Stream, run: seq<Action>, a: Action)
    requires ValidRun(s, run) && Sane(Final(s, run)) && Enabled(Final(s, run), a)
    ensures ValidRun(s, run + [a]) && Final(s, run + [a]) == Apply(Final(s, run), a)
  {
    var t := Final(s, run);
    assert ValidRun(Apply(t, a), []) && [a][1..] == [];
    assert ValidRun(t, [a]) && Final(t, [a]) == Apply(t, a);
    RunConcat(s, run, [a]);
  }

  // ------------------------------------------------------------------- the story so far

  /** Where a story begins: the stream as it was, and all the answers the socket has to give. */
  datatype Tale = Tale(start: Stream, script: seq<Io>)

  predicate IsFailure(a: Action) {
    a.HeaderFail? || a.WriteFail? || a.TermFail?
  }

  /** The errors with which the writer failed, in order. */
  function Failures(run: seq<Action>): seq<Errno> {
    if run == [] then []
    else
      var init, last := run[..|run| - 1], run[|run| - 1];
      Failures(init) + (if IsFailure(last) then [last.err] else [])
  }

  lemma {:induction false} FailuresConcat(a: seq<Action>, b: seq<Action>)
    ensures Failures(a + b) == Failures(a) + Failures(b)
  {
    if b == [] {
      assert a + b == a;
    } else {
      var init := b[..|b| - 1];
      assert (a + b)[..|a + b| - 1] == a + init;
      FailuresConcat(a, init);
    }
  }

  lemma {:induction false} NoFailures(run: seq<Action>)
    requires forall k :: 0 <= k < |run| ==> !IsFailure(run[k])
    ensures Failures(run) == []
  {
    if run != [] {
      NoFailures(run[..|run| - 1]);
    }
  }

  lemma Failing(a: Action)
    ensures Failures([a]) == if IsFailure(a) then [a.err] else []
  {
    assert [a][..0] == [] && Failures([]) == [];
  }

  /** Every error the socket has answered is a failure of the run, in order, and the run has no
      other; but for those not yet acted upon. */
  ghost predicate Caused(now: seq<Io>, was: seq<Io>, run: seq<Action>, owed: seq<Errno>) {
    LeftOf(now, was) && Errors(Used(was, now)) == Failures(run) + owed
  }

  function Owed(r: Outcome): seq<Errno> {
    if r.Gone? then [r.err] else []
  }

  lemma CausedByAnswers(was: seq<Io>, mid: seq<Io>, now: seq<Io>, run: seq<Action>, r: Outcome)
    requires Caused(mid, was, run, []) && Because(mid, now, r)
    ensures Caused(now, was, run, Owed(r))
  {
    BecauseOn(was, mid, now, r);
    assert Failures(run) + [] == Failures(run);
  }

  /** Steps that fail at nothing owe nothing; a failure pays for one answer. */
  lemma CausedBySteps(
    now: seq<Io>, was: seq<Io>, run: seq<Action>, more: seq<Action>, owed: seq<Errno>, left: seq<Errno>)
    requires Caused(now, was, run, owed) && Failures(more) + left == owed
    ensures Caused(now, was, run + more, left)
  {
    FailuresConcat(run, more);
    assert Failures(run) + (Failures(more) + left) == Failures(run) + Failures(more) + left;
  }

  /** The object is where a run of the protocol leads, and the socket has taken what that run says
      and answered what made it fail. */
  ghost predicate Told(stream: StreamOut, sock: Socket, tale: Tale, run: seq<Action>, owed: seq<Errno>)
    reads stream, stream.ring, sock
  {
    && ValidRun(tale.start, run) && stream.View() == Final(tale.start, run)
    && Inv(stream.View()) && Sane(stream.View())
    && sock.wire == stream.out.wire && stream.ring.Length < Pow16(16)
    && Caused(sock.script, tale.script, run, owed)
  }

  lemma NextStep(start: Stream, before: seq<Action>, s: Stream, a: Action)
    requires ValidRun(start, before) && s == Final(start, before) && Inv(s) && Sane(s) && Enabled(s, a)
    ensures ValidRun(start, before + [a]) && Final(start, before + [a]) == Apply(s, a)
    ensures Inv(Apply(s, a)) && Sane(Apply(s, a))
  {
    hide Inv, Sane, Enabled, Apply;
    StepInv(s, a);
    InvSane(Apply(s, a));
    OneStep(start, before, a);
  }

  /** The story goes on by step `a`; a failure pays for one of the errors owed. */
  lemma Tell(
    stream: StreamOut, sock: Socket, tale: Tale, before: seq<Action>, s: Stream, a: Action, owed: seq<Errno>, left: seq<Errno>)
    requires ValidRun(tale.start, before) && s == Final(tale.start, before) && Inv(s) && Sane(s) && Enabled(s, a)
    requires stream.View() == Apply(s, a) && sock.wire == stream.out.wire && stream.ring.Length < Pow16(16)
    requires Caused(sock.script, tale.script, before, owed)
    requires (if IsFailure(a) then [a.err] else []) + left == owed
    ensures Told(stream, sock, tale, before + [a], left)
  {
    hide Inv, Sane, Enabled, Apply, Caused, Failures, ValidRun, Final, Pow16;
    NextStep(tale.start, before, s, a);
    Failing(a);
    CausedBySteps(sock.script, tale.script, before, [a], owed, left);
  }

  /** Whether the script's move can be made: the producer still holds its reference, has something
      to enqueue, and has seen the stream dead before it drops a chunk for that. */
  method CanMove(stream: StreamOut, a: Action) returns (can: bool)
    requires Inv(stream.View()) && Sane(stream.View()) && !stream.phase.Released?
    ensures can <==> !IsWriterAction(a) && Enabled(stream.View(), a)
  {
    can := stream.refs == 2 && !IsWriterAction(a) && (a.Enqueue? ==> a.data != []) && (a.DropDead? ==> stream.dead);
  }

  method Perform(stream: StreamOut, a: Action)
    requires Inv(stream.View()) && Sane(stream.View()) && !IsWriterAction(a) && Enabled(stream.View(), a)
    modifies stream, stream.ring
    ensures stream.View() == Apply(old(stream.View()), a)
  {
    hide Inv, QueueInv, SpanInv, WireInv, PartialInv, Message;
    match a {
      case Enqueue(data, converted) => var _ := stream.Enqueue(data, converted);
      case PollPeer(hangup) => var _ := stream.PeerGone(if hangup then Events(true, false, false, Bytes) else Quiet);
      case Finish => stream.FinishStream();
      case ProducerRelease => var _ := stream.Release(false);
      case DropDead => stream.failedEnqueues := stream.failedEnqueues + 1;
      case DropNoMemory =>
        stream.failedEnqueues := stream.failedEnqueues + 1;
        stream.MarkFailedLocked(Enomem);
    }
  }

  /** Nobody but the writer, and none of them a failure of the writer. */
  ghost predicate Foreign(run: seq<Action>) {
    forall k :: 0 <= k < |run| ==> !IsWriterAction(run[k])
  }

  method Move(
    stream: StreamOut, sock: Socket, a: Action, ghost tale: Tale, ghost before: seq<Action>, ghost owed: seq<Errno>)
    requires Told(stream, sock, tale, before, owed) && !IsWriterAction(a) && Enabled(stream.View(), a)
    modifies stream, stream.ring
    ensures Told(stream, sock, tale, before + [a], owed)
    ensures stream.out == old(stream.out) && stream.sentBytes == old(stream.sentBytes)
    ensures stream.phase == old(stream.phase) || (old(stream.phase).Parked? && stream.phase.Parked?)
  {
    hide Inv, Sane, Enabled, Apply, Caused, Failures, ValidRun, Final, Pow16;
    ghost var s := stream.View();
    Perform(stream, a);
    ForeignKeeps(s, a);
    assert !IsFailure(a) && [] + owed == owed;
    Tell(stream, sock, tale, before, s, a, owed, owed);
  }

  method Other(
    stream: StreamOut, sock: Socket, a: Action, ghost tale: Tale, ghost before: seq<Action>, ghost owed: seq<Errno>)
    returns (ghost moved: seq<Action>)
    requires Told(stream, sock, tale, before, owed) && !stream.phase.Released?
    modifies stream, stream.ring
    ensures Told(stream, sock, tale, before + moved, owed) && Foreign(moved)
    ensures stream.out == old(stream.out) && stream.sentBytes == old(stream.sentBytes)
    ensures stream.phase == old(stream.phase) || (old(stream.phase).Parked? && stream.phase.Parked?)
  {
    hide Inv, Sane, Enabled, Apply, Caused, ValidRun, Final, Pow16, IsWriterAction;
    moved := [];
    assert before + moved == before;
    var can := CanMove(stream, a);
    if can {
      Move(stream, sock, a, tale, before, owed);
      moved := [a];
    }
  }

  /** What the rest of the process may do to the stream while the writer does not hold the lock. */
  method Others(
    stream: StreamOut, sock: Socket, moves: seq<Action>, ghost tale: Tale, ghost before: seq<Action>, ghost owed: seq<Errno>)
    returns (ghost moved: seq<Action>)
    requires Told(stream, sock, tale, before, owed) && !stream.phase.Released?
    modifies stream, stream.ring
    ensures Told(stream, sock, tale, before + moved, owed) && Foreign(moved)
    ensures stream.out == old(stream.out) && stream.sentBytes == old(stream.sentBytes)
    ensures stream.phase == old(stream.phase) || (old(stream.phase).Parked? && stream.phase.Parked?)
    ensures moves == [] ==> moved == [] && stream.View() == old(stream.View())
  {
    hide Told, IsWriterAction;
    moved := [];
    assert before + moved == before;
    for i := 0 to |moves|
      invariant Told(stream, sock, tale, before + moved, owed) && Foreign(moved)
      invariant stream.out == old(stream.out) && stream.sentBytes == old(stream.sentBytes)
      invariant stream.phase == old(stream.phase) || (old(stream.phase).Parked? && stream.phase.Parked?)
      invariant i == 0 ==> moved == [] && stream.View() == old(stream.View())
    {
      ghost var more := Other(stream, sock, moves[i], tale, before + moved, owed);
      assert before + moved + more == before + (moved + more);
      moved := moved + more;
    }
  }

  // ------------------------------------------------------------- the writer's own steps

  /** The header, as far as it went. */
  method SendHeader(stream: StreamOut, sock: Socket, ghost tale: Tale) returns (r: Outcome, ghost run: seq<Action>)
    requires Told(stream, sock, tale, [], []) && stream.header != [] && stream.phase == Header(0) && sock.wire == []
    modifies stream`phase, stream`out, sock
    ensures Told(stream, sock, tale, run, Owed(r)) && Because(old(sock.script), sock.script, r)
    ensures if r.Done? then stream.phase.Ready? else stream.phase.Header?
  {
    hide Inv, Sane, Message, TookIn, Total, AllPositive, Emitted, Because, Caused, ValidRun, Final, Pow16;
    ghost var takes;
    ghost var s := stream.View();
    r, takes := WriteAllOrGone(sock, stream.header);
    SentSoFar([], sock.wire, stream.header, r, takes);
    CausedByAnswers(tale.script, old(sock.script), sock.script, [], r);
    run := [];
    ghost var n := Total(takes);
    if n > 0 {
      stream.Advance(HeaderWrite(n));
      assert [] + Owed(r) == Owed(r);
      Tell(stream, sock, tale, [], s, HeaderWrite(n), Owed(r), Owed(r));
      run := [] + [HeaderWrite(n)];
    }
  }

  /** What the sends of a chunk lead to. */
  lemma ChunkIsARun(start: Stream, before: seq<Action>, s: Stream, takes: seq<nat>, end: Action) returns (t: Stream)
    requires ValidRun(start, before) && s == Final(start, before) && Inv(s) && s.phase.Writing? && s.phase.sent == 0
    requires AllPositive(takes) && Total(takes) <= |Frame(s.out.current)|
    ensures ValidRun(start, before + Writes(takes)) && Final(start, before + Writes(takes)) == t
    ensures Inv(t) && Sane(t) && t == s.(phase := s.phase.(sent := Total(takes)), out := t.out)
    ensures t.out.wire == s.out.wire + Frame(s.out.current)[0..Total(takes)] && t.out.current == s.out.current
    ensures (if Total(takes) == |Frame(s.out.current)| then end.Commit? else end.WriteFail?) ==> Enabled(t, end)
  {
    hide Inv, Sane, Apply, Frame, Message;
    WritesAreARun(s, takes);
    RunConcat(start, before, Writes(takes));
    t := Further(s, Total(takes));
    SentKeeps(s.out, Frame(s.out.current)[0..Total(takes)]);
    InvSane(t);
  }

  /** The first `n` bytes accepted and not handed back yet. */
  predicate IsNext(data: seq<Byte>, s: Stream, n: nat) {
    s.q.sent + n <= |s.q.accepted| && data == s.q.accepted[s.q.sent..s.q.sent + n]
  }

  lemma HeldBytes(s: Stream)
    requires Inv(s)
    ensures s.phase.Writing? ==> IsNext(s.out.current, s, s.phase.span)
    ensures s.phase.Writing? ==> s.phase.offset + s.phase.span <= |s.q.ring| && s.phase.span > 0
    ensures s.phase.Writing? ==> s.q.ring[s.phase.offset..s.phase.offset + s.phase.span] == s.out.current
  {
  }

  lemma SentSoFar(before: seq<Byte>, after: seq<Byte>, f: seq<Byte>, r: Outcome, takes: seq<nat>)
    requires Emitted(before, after, f, r) && TookIn(takes, before, after)
    ensures Total(takes) <= |f| && after == before + f[0..Total(takes)] && AllPositive(takes)
    ensures r.Done? <==> Total(takes) == |f|
  {
    if r.Done? {
      assert f[0..|f|] == f;
    }
  }

  /** Bookkeeping: the writer's place and the output, and nothing else, become those of `t`. */
  ghost method MoveOn(stream: StreamOut, t: Stream)
    requires t == stream.View().(phase := t.phase, out := t.out)
    modifies stream`phase, stream`out
    ensures stream.View() == t
  {
    stream.phase := t.phase;
    stream.out := t.out;
  }

  /** `write_chunk` on the span the writer holds. */
  method SendSpan(stream: StreamOut, sock: Socket, offset: nat, span: nat, oneWrite: bool)
    returns (r: Outcome, ghost takes: seq<nat>)
    requires Inv(stream.View()) && stream.phase == Writing(offset, span, 0) && stream.ring.Length < Pow16(16)
    modifies sock
    ensures var f := Frame(stream.out.current);
      && Total(takes) <= |f| && sock.wire == old(sock.wire) + f[0..Total(takes)] && AllPositive(takes)
      && (r.Done? <==> Total(takes) == |f|)
    ensures Because(old(sock.script), sock.script, r)
  {
    hide Inv, Frame, Emitted, TookIn, Total, AllPositive, Because;
    HeldBytes(stream.View());
    r, takes := WriteChunk(sock, stream.ring[offset..offset + span], oneWrite);
    SentSoFar(old(sock.wire), sock.wire, Frame(stream.out.current), r, takes);
  }

  /** How a chunk ends whose sends came to `r`. */
  function Ending(r: Outcome): Action {
    if r.Gone? then WriteFail(r.err) else Commit
  }

  /** One chunk, as far as it went: a run of write steps that put on the wire so much of the chunk,
      all of it exactly if the socket took all of it; and if the socket did not, that is its doing. */
  method SendChunk(
    stream: StreamOut, sock: Socket, offset: nat, span: nat, oneWrite: bool, ghost tale: Tale, ghost before: seq<Action>)
    returns (r: Outcome, ghost takes: seq<nat>)
    requires Told(stream, sock, tale, before, []) && stream.phase == Writing(offset, span, 0)
    modifies stream`phase, stream`out, sock
    ensures Told(stream, sock, tale, before + Writes(takes), Owed(r)) && AllPositive(takes)
    ensures var f := Frame(old(stream.out.current));
      && Total(takes) <= |f| && sock.wire == old(sock.wire) + f[0..Total(takes)]
      && (r.Done? <==> Total(takes) == |f|)
    ensures Because(old(sock.script), sock.script, r)
    ensures stream.phase == Writing(offset, span, Total(takes)) && stream.out.current == old(stream.out.current)
    ensures r.Pending? || Enabled(stream.View(), Ending(r))
  {
    hide Inv, Sane, Apply, Enabled, Frame, ValidRun, Final, Writes, Total, AllPositive, Because, Caused, Failures, Pow16;
    ghost var s := stream.View();
    r, takes := SendSpan(stream, sock, offset, span, oneWrite);
    ghost var t := ChunkIsARun(tale.start, before, s, takes, Ending(r));
    ChunkCauses(tale.script, old(sock.script), sock.script, before, takes, r);
    MoveOn(stream, t);
  }

  lemma ChunkCauses(was: seq<Io>, mid: seq<Io>, now: seq<Io>, before: seq<Action>, takes: seq<nat>, r: Outcome)
    requires Caused(mid, was, before, []) && Because(mid, now, r)
    ensures Caused(now, was, before + Writes(takes), Owed(r))
  {
    hide Caused, Because, Failures;
    CausedByAnswers(was, mid, now, before, r);
    NoFailures(Writes(takes));
    assert [] + Owed(r) == Owed(r);
    CausedBySteps(now, was, before, Writes(takes), Owed(r), Owed(r));
  }

  /** The last chunk, as far as it went. */
  method SendLast(stream: StreamOut, sock: Socket, ghost tale: Tale, ghost before: seq<Action>)
    returns (r: Outcome, ghost run: seq<Action>)
    requires Told(stream, sock, tale, before, []) && stream.phase == Terminating(0)
    modifies stream`phase, stream`out, sock
    ensures Told(stream, sock, tale, run, Owed(r)) && Because(old(sock.script), sock.script, r)
    ensures if r.Done? then stream.phase.Closing? else stream.phase.Terminating?
  {
    hide Inv, Sane, Message, Emitted, TookIn, Total, AllPositive, Because, Caused, ValidRun, Final, Pow16;
    ghost var takes;
    ghost var s := stream.View();
    r, takes := WriteAllOrGone(sock, TERMINATOR);
    SentSoFar(s.out.wire, sock.wire, TERMINATOR, r, takes);
    CausedByAnswers(tale.script, old(sock.script), sock.script, before, r);
    run := before;
    ghost var n := Total(takes);
    if n > 0 {
      stream.Advance(TermWrite(n));
      assert [] + Owed(r) == Owed(r);
      Tell(stream, sock, tale, before, s, TermWrite(n), Owed(r), Owed(r));
      run := before + [TermWrite(n)];
    }
  }

  /** The failure is recorded, and with it the socket's error is paid for. */
  method Fail(stream: StreamOut, sock: Socket, a: Action, ghost tale: Tale, ghost before: seq<Action>)
    requires IsFailure(a) && Told(stream, sock, tale, before, [a.err]) && Enabled(stream.View(), a)
    modifies stream
    ensures Told(stream, sock, tale, before + [a], []) && stream.failed
    ensures if a.HeaderFail? then stream.phase.Ready? else if a.WriteFail? then stream.phase.Sampling? else stream.phase.Closing?
  {
    hide Inv, Sane, Message, Caused, ValidRun, Final, Pow16;
    ghost var s := stream.View();
    stream.WriteFailed(a);
    Tell(stream, sock, tale, before, s, a, [a.err], []);
  }

  // ------------------------------------------------------------------- the thread

  /** Part of a message is still to be sent. */
  predicate Midway(s: Stream) {
    s.phase.Header? || s.phase.Terminating? || (s.phase.Writing? && s.phase.sent < |Frame(s.out.current)|)
  }

  /** What one turn of the loop came to. `Stalled`: the socket had no answer any more. `Waiting`:
      the writer waits, and nobody will ever wake it. */
  datatype Turn = Woken | Committed | Over | Cut(err: Errno) | Stalled | Waiting

  predicate GoesOn(t: Turn) {
    t.Woken? || t.Committed?
  }

  function At(others: seq<seq<Action>>, k: nat): seq<Action> {
    if k < |others| then others[k] else []
  }

  /** The steps of one turn after its look: what the writer did, and in the middle of it others. */
  ghost function Rest(t: Turn, takes: seq<nat>, meanwhile: seq<Action>): seq<Action> {
    match t
    case Woken => meanwhile + [Wake]
    case Committed => Writes(takes) + meanwhile + [Commit]
    case Cut(err) => Writes(takes) + meanwhile + [WriteFail(err)]
    case Stalled => Writes(takes)
    case Over => []
    case Waiting => []
  }

  /** The bytes accepted, from those handed back in `s` up to the first `sent`, went out as one chunk. */
  predicate ChunkOut(s: Stream, sent: nat, was: seq<Byte>, now: seq<Byte>) {
    s.q.sent < sent <= |s.q.accepted| && now == was + Frame(s.q.accepted[s.q.sent..sent])
  }

  /** One turn of the loop, from taking the lock to giving it back. `during` is what others do while
      the writer waits or sends; if they are `gone` they do nothing any more. The turn takes the
      steps it says, stalls only for want of an answer, and waits only for a producer that has not
      finished; and a turn that ends in a commit has put the chunk of the bytes it took on the wire. */
  method WriteSpan(
    stream: StreamOut, sock: Socket, oneWrite: bool, during: seq<Action>, gone: bool,
    ghost tale: Tale, ghost before: seq<Action>)
    returns (next: Turn, ghost takes: seq<nat>, ghost meanwhile: seq<Action>)
    requires Told(stream, sock, tale, before, []) && stream.phase.Ready? && (gone ==> during == [])
    modifies stream, stream.ring, sock
    ensures Told(stream, sock, tale, before + ([Look] + Rest(next, takes, meanwhile)), []) && Foreign(meanwhile)
    ensures GoesOn(next) ==> stream.phase.Ready?
    ensures next.Over? || next.Cut? ==> stream.phase.Sampling?
    ensures next.Stalled? ==> sock.script == [] && Midway(stream.View())
    ensures next.Waiting? ==> stream.phase == Parked(false)
    ensures gone && GoesOn(next) ==> stream.queued < old(stream.queued)
    ensures next.Committed? ==> ChunkOut(old(stream.View()), stream.sentBytes, old(sock.wire), sock.wire)
  {
    hide Told, Inv, Sane, Enabled, Apply, Writes, Frame;
    takes, meanwhile := [], [];
    var offset, span := TakeSpan(stream, sock, tale, before);
    ghost var run := before + [Look];
    assert run == before + ([Look] + []);
    if span > 0 {
      next, takes, meanwhile := SendAndGiveBack(stream, sock, offset, span, oneWrite, during, tale, run);
      assert run + Rest(next, takes, meanwhile) == before + ([Look] + Rest(next, takes, meanwhile));
    } else if stream.failed || stream.producerDone {
      next := Over;
    } else if gone {
      next := Waiting;
    } else {
      meanwhile := Others(stream, sock, during, tale, run, []);
      WakeUp(stream, sock, tale, run + meanwhile);
      assert run + meanwhile + [Wake] == before + ([Look] + (meanwhile + [Wake]));
      next := Woken;
    }
  }

  /** The part of the turn that sends the span taken. */
  method SendAndGiveBack(
    stream: StreamOut, sock: Socket, offset: nat, span: nat, oneWrite: bool, during: seq<Action>,
    ghost tale: Tale, ghost before: seq<Action>)
    returns (next: Turn, ghost takes: seq<nat>, ghost meanwhile: seq<Action>)
    requires Told(stream, sock, tale, before, []) && stream.phase == Writing(offset, span, 0)
    requires span > 0 && IsNext(stream.out.current, stream.View(), span)
    modifies stream, stream.ring, sock
    ensures Told(stream, sock, tale, before + Rest(next, takes, meanwhile), []) && Foreign(meanwhile)
    ensures match next
      case Committed =>
        stream.phase.Ready? && ChunkOut(old(stream.View()), stream.sentBytes, old(sock.wire), sock.wire)
      case Cut(_) => stream.phase.Sampling?
      case Stalled => sock.script == [] && Midway(stream.View())
      case _ => false
    ensures next.Committed? && during == [] ==> stream.queued < old(stream.queued)
  {
    hide Told, Inv, Sane, Enabled, Apply, Frame, Writes, LeftOf, Errors, Used;
    meanwhile := [];
    ghost var data := stream.out.current;
    var r;
    r, takes := SendChunk(stream, sock, offset, span, oneWrite, tale, before);
    if r.Pending? {
      return Stalled, takes, meanwhile;
    }
    meanwhile := OthersWhileSending(stream, sock, during, tale, before + Writes(takes), r);
    ghost var run := before + Writes(takes) + meanwhile;
    assert run + [Ending(r)] == before + (Writes(takes) + meanwhile + [Ending(r)]);
    if r.Gone? {
      Fail(stream, sock, WriteFail(r.err), tale, run);
      return Cut(r.err), takes, meanwhile;
    }
    GiveBack(stream, sock, span, tale, run);
    assert Frame(data)[0..|Frame(data)|] == Frame(data);
    next := Committed;
  }

  method TakeSpan(stream: StreamOut, sock: Socket, ghost tale: Tale, ghost before: seq<Action>)
    returns (offset: nat, span: nat)
    requires Told(stream, sock, tale, before, []) && stream.phase.Ready?
    modifies stream`phase, stream`out
    ensures Told(stream, sock, tale, before + [Look], [])
    ensures if span > 0 then stream.phase == Writing(offset, span, 0)
            else if stream.failed || stream.producerDone then stream.phase.Sampling? else stream.phase == Parked(false)
    ensures span > 0 ==> IsNext(stream.out.current, stream.View(), span)
  {
    hide Inv, Sane, ValidRun, Final, Message, Caused, Pow16;
    ghost var s := stream.View();
    offset, span := stream.NextSpan();
    Tell(stream, sock, tale, before, s, Look, [], []);
    HeldBytes(stream.View());
  }

  /** Out of the condition wait, for whatever reason. */
  method WakeUp(stream: StreamOut, sock: Socket, ghost tale: Tale, ghost before: seq<Action>)
    requires Told(stream, sock, tale, before, []) && stream.phase.Parked?
    modifies stream`phase, stream`out
    ensures Told(stream, sock, tale, before + [Wake], []) && stream.phase.Ready?
  {
    hide Inv, Sane, ValidRun, Final, Message, Caused, Pow16;
    ghost var s := stream.View();
    stream.Advance(Wake);
    Tell(stream, sock, tale, before, s, Wake, [], []);
  }

  method GiveBack(stream: StreamOut, sock: Socket, span: nat, ghost tale: Tale, ghost before: seq<Action>)
    requires Told(stream, sock, tale, before, []) && Enabled(stream.View(), Commit)
    requires stream.phase.Writing? && span == stream.phase.span
    modifies stream
    ensures Told(stream, sock, tale, before + [Commit], []) && stream.phase.Ready?
    ensures stream.queued == old(stream.queued) - span && stream.sentBytes == old(stream.sentBytes) + span
  {
    hide Inv, Sane, ValidRun, Final, Message, Caused, Pow16;
    ghost var s := stream.View();
    stream.CommitSpan(span);
    Tell(stream, sock, tale, before, s, Commit, [], []);
  }

  /** Others do not keep the writer from ending its chunk one way or the other. */
  method OthersWhileSending(
    stream: StreamOut, sock: Socket, during: seq<Action>, ghost tale: Tale, ghost before: seq<Action>, ghost r: Outcome)
    returns (ghost moved: seq<Action>)
    requires Told(stream, sock, tale, before, Owed(r)) && stream.phase.Writing? && Enabled(stream.View(), Ending(r))
    modifies stream, stream.ring
    ensures Told(stream, sock, tale, before + moved, Owed(r)) && Foreign(moved)
    ensures stream.phase == old(stream.phase) && Enabled(stream.View(), Ending(r))
    ensures during == [] ==> stream.View() == old(stream.View())
    ensures stream.sentBytes == old(stream.sentBytes)
  {
    hide Inv, Sane, ValidRun, Final, Enabled, Caused, Pow16;
    ghost var s := stream.View();
    moved := Others(stream, sock, during, tale, before, Owed(r));
    EndsAlike(s, stream.View(), Ending(r));
  }

  lemma EndsAlike(s: Stream, t: Stream, end: Action)
    requires Inv(s) && Sane(s) && Inv(t) && Sane(t) && t.phase == s.phase && t.out == s.out && s.phase.Writing?
    requires (end.Commit? || end.WriteFail?) && Enabled(s, end)
    ensures Enabled(t, end)
  {
    hide Inv, Sane, Message, Frame;
    InvSane(s);
    InvSane(t);
  }

  /** After the loop: the last chunk unless the stream failed. */
  method LastWords(
    stream: StreamOut, sock: Socket, during: seq<Action>, ghost tale: Tale, ghost before: seq<Action>)
    returns (closing: bool, ghost run: seq<Action>)
    requires Told(stream, sock, tale, before, []) && stream.phase.Sampling?
    modifies stream, stream.ring, sock
    ensures Told(stream, sock, tale, run, [])
    ensures if closing then stream.phase.Closing? else sock.script == [] && Midway(stream.View())
  {
    hide Inv, Sane, ValidRun, Final, Message, Caused, Pow16, LeftOf, Errors, Used;
    ghost var s := stream.View();
    stream.Advance(Sample);
    Tell(stream, sock, tale, before, s, Sample, [], []);
    run := before + [Sample];
    if stream.failed {
      return true, run;
    }
    var r;
    r, run := SendLast(stream, sock, tale, run);
    if r.Pending? {
      return false, run;
    }
    ghost var moved := Others(stream, sock, during, tale, run, Owed(r));
    run := run + moved;
    if r.Gone? {
      Fail(stream, sock, TermFail(r.err), tale, run);
      run := run + [TermFail(r.err)];
    }
    return true, run;
  }

  method CloseAndLeave(
    stream: StreamOut, sock: Socket, during: seq<Action>, ghost tale: Tale, ghost before: seq<Action>)
    returns (ghost run: seq<Action>)
    requires Told(stream, sock, tale, before, []) && stream.phase.Closing?
    modifies stream, stream.ring
    ensures Told(stream, sock, tale, run, []) && stream.phase.Released?
  {
    hide Inv, Sane, ValidRun, Final, Message, Caused, Pow16;
    ghost var s := stream.View();
    var _ := stream.CloseFd();
    Tell(stream, sock, tale, before, s, Close, [], []);
    run := before + [Close];
    ghost var moved := Others(stream, sock, during, tale, run, []);
    run := run + moved;
    Leave(stream, sock, tale, run);
    run := run + [WriterRelease];
  }

  method Leave(stream: StreamOut, sock: Socket, ghost tale: Tale, ghost before: seq<Action>)
    requires Told(stream, sock, tale, before, []) && stream.phase.Closed?
    modifies stream
    ensures Told(stream, sock, tale, before + [WriterRelease], []) && stream.phase.Released?
  {
    hide Inv, Sane, ValidRun, Final, Message, Caused, Pow16;
    ghost var s := stream.View();
    var _ := stream.Release(true);
    Tell(stream, sock, tale, before, s, WriterRelease, [], []);
  }

  lemma Beginning(s: Stream, script: seq<Io>)
    requires s == Start(s.header, s.q.ring) && s.q.ring != []
    ensures ValidRun(s, []) && Final(s, []) == s && Inv(s) && Sane(s)
    ensures s.out.wire == [] && s.phase == if s.header == [] then Ready else Header(0)
    ensures Caused(script, script, [], [])
  {
    StartInv(s.header, s.q.ring);
    InvSane(s);
    NothingUsed(script);
  }

  /** The client's side of any story the object can tell. */
  lemma Received(start: Stream, run: seq<Action>)
    requires start == Start(start.header, start.q.ring) && start.q.ring != [] && ValidRun(start, run)
    ensures var s := Final(start, run);
      && s.header == start.header
      && (s.header <= s.out.wire ==>
            Parse(s.out.wire[|s.header|..]) == if Terminated(s) then Complete(s.q.accepted, []) else Incomplete)
      && (Ended(s.phase) && !s.failed ==> Terminated(s) && s.header <= s.out.wire)
  {
    hide Inv, Start;
    WireRefinement(start.header, start.q.ring, run);
    StartInv(start.header, start.q.ring);
    KeepsShape(start, run);
    RunInv(start, run);
    ClientView(Final(start, run));
  }

  /** Who waits unwoken waits for a producer that has not finished. */
  lemma WaitsForMore(s: Stream)
    requires Inv(s) && s.phase == Parked(false)
    ensures s.q.queued == 0 && !s.producerDone && !s.failed
  {
  }

  /** `stream_out_writer_main`. The scripts say what the socket answers to each write and what
      others do each time the lock is free. The thread leaves, unless it is midway through a
      message and the script has no more answers, or it waits for a producer that has not finished
      and nobody wakes it any more. It fails for what the socket answered, each time it answered so, and for
      nothing else. If it left and the stream did not fail, the client has the header and, in
      chunks, all the bytes ever accepted; and at no time can it take a part for the whole. */
  method WriterMain(stream: StreamOut, sock: Socket, oneWrite: bool, others: seq<seq<Action>>)
    returns (left: bool, ghost run: seq<Action>)
    requires stream.View() == Start(stream.header, stream.ring[..]) && 0 < stream.ring.Length < Pow16(16)
    requires sock.wire == []
    modifies stream, stream.ring, sock
    ensures ValidRun(old(stream.View()), run) && stream.View() == Final(old(stream.View()), run)
    ensures sock.wire == stream.out.wire
    ensures LeftOf(sock.script, old(sock.script)) && Errors(Used(old(sock.script), sock.script)) == Failures(run)
    ensures left ==> stream.phase.Released?
    ensures left || (sock.script == [] && Midway(stream.View()))
      || (stream.phase == Parked(false) && stream.queued == 0 && !stream.producerDone && !stream.failed)
    ensures stream.header <= sock.wire ==>
      Parse(sock.wire[|stream.header|..]) == if Terminated(stream.View()) then Complete(stream.accepted, []) else Incomplete
    ensures left && !stream.failed ==>
      stream.header <= sock.wire && Parse(sock.wire[|stream.header|..]) == Complete(stream.accepted, [])
  {
    hide Inv, Sane, ValidRun, Final, Start, Message, Pow16, LeftOf, Errors, Used, Failures;
    ghost var tale := Tale(stream.View(), sock.script);
    Beginning(tale.start, tale.script);
    left, run := WriteAll(stream, sock, oneWrite, others, tale);
    Received(tale.start, run);
    if stream.phase == Parked(false) {
      WaitsForMore(stream.View());
    }
    assert Failures(run) + [] == Failures(run);
  }

  method WriteAll(stream: StreamOut, sock: Socket, oneWrite: bool, others: seq<seq<Action>>, ghost tale: Tale)
    returns (left: bool, ghost run: seq<Action>)
    requires Told(stream, sock, tale, [], []) && sock.wire == []
    requires stream.phase == if stream.header == [] then Ready else Header(0)
    modifies stream, stream.ring, sock
    ensures Told(stream, sock, tale, run, [])
    ensures if left then stream.phase.Released? else (sock.script == [] && Midway(stream.View())) || stream.phase == Parked(false)
  {
    hide Told, Rest;
    var fine;
    fine, run := BeginResponse(stream, sock, At(others, 0), tale);
    if !fine {
      return false, run;
    }
    var turn, next := 1, Woken;
    while GoesOn(next)
      invariant Told(stream, sock, tale, run, [])
      invariant GoesOn(next) ==> stream.phase.Ready?
      invariant next.Over? || next.Cut? ==> stream.phase.Sampling?
      invariant next.Stalled? ==> sock.script == [] && Midway(stream.View())
      invariant next.Waiting? ==> stream.phase == Parked(false)
      decreases if GoesOn(next) then 1 else 0, if turn < |others| then |others| - turn else 0, stream.queued
    {
      ghost var moved := Others(stream, sock, At(others, turn), tale, run, []);
      run := run + moved;
      ghost var takes, meanwhile;
      next, takes, meanwhile := WriteSpan(stream, sock, oneWrite, At(others, turn + 1), turn + 1 >= |others|, tale, run);
      run := run + ([Look] + Rest(next, takes, meanwhile));
      turn := turn + 2;
    }
    if next.Stalled? || next.Waiting? {
      return false, run;
    }
    ghost var moved := Others(stream, sock, At(others, turn), tale, run, []);
    left, run := LastWords(stream, sock, At(others, turn + 1), tale, run + moved);
    if left {
      ghost var more := Others(stream, sock, At(others, turn + 2), tale, run, []);
      run := CloseAndLeave(stream, sock, At(others, turn + 3), tale, run + more);
    }
  }

  /** The header, if there is one; a failure of it ends nothing yet. */
  method BeginResponse(stream: StreamOut, sock: Socket, during: seq<Action>, ghost tale: Tale)
    returns (fine: bool, ghost run: seq<Action>)
    requires Told(stream, sock, tale, [], []) && sock.wire == []
    requires stream.phase == if stream.header == [] then Ready else Header(0)
    modifies stream, stream.ring, sock
    ensures Told(stream, sock, tale, run, [])
    ensures if fine then stream.phase.Ready? else sock.script == [] && Midway(stream.View())
  {
    hide Inv, Sane, ValidRun, Final, Message, Pow16, Caused, LeftOf, Errors, Used;
    run := [];
    if stream.header != [] {
      var r;
      r, run := SendHeader(stream, sock, tale);
      if r.Pending? {
        return false, run;
      }
      ghost var moved := Others(stream, sock, during, tale, run, Owed(r));
      run := run + moved;
      if r.Gone? {
        Fail(stream, sock, HeaderFail(r.err), tale, run);
        run := run + [HeaderFail(r.err)];
      }
    }
    fine := true;
  }
}
