/** Refusing without a reset: the response, then the end of the stream, then reading what the
    client still sends, and only then the close. One call goes as far as it can without
    blocking. */
module LingeringClose {
  import opened ChunkedCoding

  const DRAIN_MAX := 65536
  const SCRATCH := 4096

  /** What a non-blocking `send` or `recv` returned. */
  datatype Io = Bytes(n: nat) | End | Interrupted | WouldBlock | Broken

  /** An answer after which the loops go on. */
  predicate GoesOn(io: Io) {
    io.Bytes? || io.Interrupted?
  }

  /** What moves before the first answer that ends a loop, and that answer. */
  function Moved(answers: seq<Io>): nat {
    if answers == [] || !GoesOn(answers[0]) then 0
    else (if answers[0].Bytes? then answers[0].n else 0) + Moved(answers[1..])
  }

  function Stop(answers: seq<Io>): (io: Io)
    ensures !GoesOn(io)
  {
    if answers == [] then WouldBlock else if GoesOn(answers[0]) then Stop(answers[1..]) else answers[0]
  }

  lemma {:induction false} Unroll(answers: seq<Io>, i: nat)
    requires i <= |answers|
    ensures i < |answers| && GoesOn(answers[i]) ==>
      Moved(answers[i..]) == (if answers[i].Bytes? then answers[i].n else 0) + Moved(answers[i + 1..]) &&
      Stop(answers[i..]) == Stop(answers[i + 1..])
    ensures i < |answers| && !GoesOn(answers[i]) ==> Moved(answers[i..]) == 0 && Stop(answers[i..]) == answers[i]
    ensures i == |answers| ==> Moved(answers[i..]) == 0 && Stop(answers[i..]) == WouldBlock
  {
    if i < |answers| {
      assert answers[i..][1..] == answers[i + 1..];
    }
  }

  function Least(a: nat, b: nat): nat {
    if a < b then a else b
  }

  class Linger {
    const msg: seq<Byte>
    const deadline: real
    var sent: nat
    var drained: nat
    var shut: bool
    var open: bool
    ghost var wire: seq<Byte>   // what the peer can read
    ghost var fin: bool         // and whether it sees the end of the stream

    /** The end of the stream is announced after the whole response or not at all, and nothing is
        read from the client before it. */
    ghost predicate Valid()
      reads this
    {
      && sent <= |msg| && wire == msg[..sent]
      && fin == shut && (shut ==> sent == |msg|)
      && (drained > 0 ==> shut)
      && drained < DRAIN_MAX + SCRATCH && (open ==> drained < DRAIN_MAX)
    }

    constructor (msg: seq<Byte>, now: real)
      ensures Valid() && open && this.msg == msg && deadline == now + 0.5 && sent == 0
    {
      this.msg, deadline := msg, now + 0.5;
      sent, drained, shut, open := 0, 0, false, true;
      wire, fin := [], false;
    }

    /** The response, as far as the socket takes it now. `blocked` means to come back when it takes
        more; otherwise all is sent, or the peer is gone, or the time is. */
    method SendRest(now: real, sends: seq<Io>) returns (blocked: bool)
      requires Valid() && open
      requires forall i :: 0 <= i < |sends| && sends[i].Bytes? ==> 0 < sends[i].n
      modifies this`sent, this`wire
      ensures Valid() && sent == Least(|msg|, old(sent) + Moved(sends))
      ensures blocked <==> sent < |msg| && Stop(sends).WouldBlock? && now < deadline
    {
      var i := 0;
      assert sends[0..] == sends;
      while sent < |msg|
        invariant i <= |sends| && Valid()
        invariant Least(|msg|, sent + Moved(sends[i..])) == Least(|msg|, old(sent) + Moved(sends))
        invariant sent < |msg| ==> Stop(sends[i..]) == Stop(sends)
        decreases |sends| - i
      {
        Unroll(sends, i);
        var r := if i < |sends| then sends[i] else WouldBlock;
        match r {
          case Bytes(n) =>
            var k := Least(n, |msg| - sent);
            wire := wire + msg[sent..sent + k];
            sent := sent + k;
          case Interrupted =>
          case WouldBlock =>
            return now < deadline;
          case _ =>
            return false;
        }
        i := i + 1;
      }
      return false;
    }

    /** Reading until the client stops, has sent more than is worth reading, or the time is up. */
    method DrainInput(now: real, recvs: seq<Io>) returns (blocked: bool)
      requires Valid() && open && shut
      requires forall i :: 0 <= i < |recvs| && recvs[i].Bytes? ==> 0 < recvs[i].n <= SCRATCH
      modifies this`drained
      ensures old(drained) <= drained < DRAIN_MAX + SCRATCH
      ensures drained < DRAIN_MAX ==> drained == old(drained) + Moved(recvs)
      ensures drained >= DRAIN_MAX <==> old(drained) + Moved(recvs) >= DRAIN_MAX
      ensures blocked <==> drained < DRAIN_MAX && Stop(recvs).WouldBlock? && now < deadline
    {
      var i := 0;
      assert recvs[0..] == recvs;
      while true
        invariant i <= |recvs| && drained < DRAIN_MAX
        invariant drained + Moved(recvs[i..]) == old(drained) + Moved(recvs) && drained >= old(drained)
        invariant Stop(recvs[i..]) == Stop(recvs)
        decreases |recvs| - i
      {
        Unroll(recvs, i);
        var r := if i < |recvs| then recvs[i] else WouldBlock;
        match r {
          case Bytes(n) =>
            drained := drained + n;
            if drained >= DRAIN_MAX {
              return false;
            }
          case Interrupted =>
          case WouldBlock =>
            return now < deadline;
          case _ =>
            return false;
        }
        i := i + 1;
      }
    }

    /** One step, exactly. As much of the response is sent as the socket takes. While some of it is
        left, the step closes if and only if the time is up or the peer is gone. Once all of it and
        the end of the stream are out, it closes if and only if the time is up, the client has
        stopped sending or is gone, or has sent too much. */
    method Step(now: real, sends: seq<Io>, recvs: seq<Io>) returns (closed: bool)
      requires Valid() && open
      requires forall i :: 0 <= i < |sends| && sends[i].Bytes? ==> 0 < sends[i].n
      requires forall i :: 0 <= i < |recvs| && recvs[i].Bytes? ==> 0 < recvs[i].n <= SCRATCH
      modifies this
      ensures Valid() && closed == !open
      ensures sent == Least(|msg|, old(sent) + Moved(sends)) && (shut <==> sent == |msg|)
      ensures sent < |msg| ==> (closed <==> now >= deadline || !Stop(sends).WouldBlock?) && drained == old(drained)
      ensures sent == |msg| ==> wire == msg && fin && drained >= old(drained)
      ensures sent == |msg| ==>
        (closed <==> now >= deadline || !Stop(recvs).WouldBlock? || old(drained) + Moved(recvs) >= DRAIN_MAX)
    {
      var blocked := SendRest(now, sends);
      if blocked {
        return false;
      }
      if sent >= |msg| && !shut {
        shut := true;
        fin := true;
      }
      if shut {
        blocked := DrainInput(now, recvs);
        if blocked {
          return false;
        }
      }
      open := false;
      return true;
    }
  }
}
