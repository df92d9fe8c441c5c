/** The job object and the queue it waits in, updated in place. Each method is one atomic
    operation or one critical section, and its contract is the step of JobProtocol it performs. */
module SynthJobImpl {
  import opened Options
  import opened JobProtocol

  /** What a wake-up of the submitter finds: whether its time is up, and whether somebody has
      published a result since it fell asleep. */
  datatype WakeUp = WakeUp(timedOut: bool, published: Option<int>)

  /** The first wake-up that ends the wait. */
  ghost predicate DecidedAt(hasDeadline: bool, wakes: seq<WakeUp>, i: nat) {
    && i < |wakes|
    && (wakes[i].published.Some? || (hasDeadline && wakes[i].timedOut))
    && forall j :: 0 <= j < i ==> !wakes[j].published.Some? && !(hasDeadline && wakes[j].timedOut)
  }

  ghost predicate Decides(hasDeadline: bool, wakes: seq<WakeUp>, completed: bool) {
    exists i: nat :: DecidedAt(hasDeadline, wakes, i) && wakes[i].published.Some? == completed
  }

  class SynthJob {
    const kind: Kind
    const fd: int
    var fdClaimed: bool
    var gaveUp: bool
    var refs: int
    var done: bool
    var abandoned: bool
    var result: int
    ghost var driverFailed: bool
    ghost var drained: bool
    ghost var inQueue: bool
    ghost var freed: bool
    ghost var net: Fd       // the descriptor as the rest of the process sees it

    ghost function View(): Job
      reads this
    {
      Job(true, inQueue, refs, done, abandoned, gaveUp, result, driverFailed, drained, freed)
    }

    /** A warm-up has no descriptor; everyone else's is non-negative. */
    ghost predicate Wellformed()
      reads this
    {
      (kind == Warmup <==> fd < 0) && net.claimed == fdClaimed
    }

    constructor (kind: Kind, fd: int)
      requires kind == Warmup <==> fd < 0
      ensures Wellformed() && this.kind == kind && this.fd == fd
      ensures var s := SubmitterStep(Connection(kind), Build); View() == s.job && net == s.fd
    {
      this.kind, this.fd := kind, fd;
      fdClaimed, gaveUp, done, abandoned := false, false, false, false;
      refs, result := 1, 0;
      driverFailed, drained, inQueue, freed := false, false, false, false;
      net := Fd(false, if kind == Warmup then NoFd else InJob, 0, 0, 0);
    }

    /** An atomic exchange: the descriptor to the first caller, -1 to everyone after. */
    method ClaimFd(ghost winner: Owner) returns (claimed: int)
      requires Wellformed()
      modifies this`fdClaimed, this`net
      ensures Wellformed() && fdClaimed
      ensures net == JobProtocol.ClaimFd(kind, old(net), winner)
      ensures claimed >= 0 <==> ClaimWins(kind, old(net))
      ensures claimed >= 0 ==> claimed == fd
    {
      var before := fdClaimed;
      fdClaimed := true;
      net := JobProtocol.ClaimFd(kind, net, winner);
      claimed := if before then -1 else fd;
    }

    /** Answers and closes, unless someone else has the descriptor. */
    method RespondError(ghost winner: Owner) returns (answered: bool)
      requires Wellformed()
      modifies this`fdClaimed, this`net
      ensures Wellformed()
      ensures answered == ClaimWins(kind, old(net))
      ensures net == (if answered then JobProtocol.CloseFd(JobProtocol.ClaimFd(kind, old(net), winner))
                      else JobProtocol.ClaimFd(kind, old(net), winner))
    {
      var claimed := ClaimFd(winner);
      answered := claimed >= 0;
      if answered {
        net := JobProtocol.CloseFd(net);
      }
    }

    method Retain()
      modifies this`refs
      ensures View() == old(View()).(refs := old(refs) + 1)
    {
      refs := refs + 1;
    }

    /** What the last release does to the descriptor and the slot. */
    method EndConnection()
      requires Wellformed()
      modifies this`fdClaimed, this`net
      ensures Wellformed() && net == LastRelease(kind, old(net))
    {
      hide JobProtocol.ClaimFd, LastRelease;
      LastReleaseIs(kind, net);
      var claimed := ClaimFd(InJob);
      if claimed >= 0 {
        net := JobProtocol.CloseFd(net);
      }
      if kind != Warmup {
        net := net.(connDone := net.connDone + 1);
      }
    }

    /** Drops one reference; the last one closes an unanswered descriptor, gives the slot back
        unless this was a warm-up, and frees the job. */
    method Release()
      requires Wellformed() && refs >= 1 && !freed
      modifies this
      ensures Wellformed()
      ensures View() == old(View()).(refs := old(refs) - 1, freed := old(refs) == 1)
      ensures net == (if old(refs) == 1 then LastRelease(kind, old(net)) else old(net))
    {
      hide LastRelease;
      refs := refs - 1;
      if refs == 0 {
        EndConnection();
        freed := true;
      }
    }

    /** `job_wait`: sleeps until a wake-up finds the job done or, with a deadline, past it. While
        it sleeps others may publish; `wakes` is what each wake-up finds. A completion that raced
        the timeout wins, and only a submitter that saw no completion marks the job abandoned. */
    method Wait(hasDeadline: bool, wakes: seq<WakeUp>) returns (verdict: Verdict)
      modifies this`done, this`result, this`abandoned, this`gaveUp
      ensures verdict.Got? <==> old(done) || Decides(hasDeadline, wakes, true)
      ensures verdict.TimedOut? <==> !old(done) && Decides(hasDeadline, wakes, false)
      ensures verdict.Got? <==> done
      ensures verdict.Got? ==> verdict.result == result
      ensures verdict.TimedOut? ==> abandoned && gaveUp
      ensures !verdict.TimedOut? ==> abandoned == old(abandoned) && gaveUp == old(gaveUp)
      ensures verdict.TimedOut? || old(done) ==> result == old(result)
    {
      var i := 0;
      while i < |wakes| && !done
        invariant i <= |wakes| && gaveUp == old(gaveUp) && abandoned == old(abandoned)
        invariant old(done) ==> i == 0
        invariant !done ==> !old(done) && result == old(result)
        invariant !done ==> forall j :: 0 <= j < i ==> !wakes[j].published.Some? && !(hasDeadline && wakes[j].timedOut)
        invariant done ==> old(done) || Decides(hasDeadline, wakes, true)
        invariant done && old(done) ==> result == old(result)
      {
        var w := wakes[i];
        if w.published.Some? {
          done, result := true, w.published.value;
          assert DecidedAt(hasDeadline, wakes, i) && wakes[i].published.Some?;
        } else if hasDeadline && w.timedOut {
          assert DecidedAt(hasDeadline, wakes, i);
          abandoned, gaveUp := true, true;
          return TimedOut;
        }
        i := i + 1;
      }
      verdict := if done then Got(result) else Undecided;
      if !done {
        assert forall j :: 0 <= j < |wakes| ==> !DecidedAt(hasDeadline, wakes, j);
      }
    }

    /** Publishes the job and drops the queue's reference. The result is stored only when there
        is an error text to go with it. */
    method Finish(value: int, hasErrorText: bool)
      requires Wellformed() && refs >= 1 && !freed
      modifies this
      ensures Wellformed()
      ensures View() == old(View()).(result := if hasErrorText then value else old(result), done := true,
                                     refs := old(refs) - 1, freed := old(refs) == 1)
      ensures net == (if old(refs) == 1 then LastRelease(kind, old(net)) else old(net))
    {
      if hasErrorText {
        result := value;
      }
      done := true;
      Release();
    }
  }

  lemma LastReleaseIs(kind: Kind, before: Fd)
    ensures var claimed := JobProtocol.ClaimFd(kind, before, InJob);
      var closed := if ClaimWins(kind, before) then JobProtocol.CloseFd(claimed) else claimed;
      LastRelease(kind, before) == if kind == Warmup then closed else closed.(connDone := closed.connDone + 1)
  {
  }

  /** `g_batch`: the queue between the HTTP threads and the scheduler. */
  class JobQueue {
    const maxPending: nat
    var jobs: seq<SynthJob>
    var stop: bool

    constructor (maxPending: nat)
      ensures this.maxPending == maxPending && jobs == [] && !stop
    {
      this.maxPending := maxPending;
      jobs, stop := [], false;
    }

    ghost predicate Valid()
      reads this, jobs
    {
      && |jobs| <= maxPending
      && (forall j <- jobs :: j.inQueue)
      && (forall i, k :: 0 <= i < k < |jobs| ==> jobs[i] != jobs[k])
    }

    /** Refused when full or stopping, with nothing changed; otherwise the queue takes a
        reference of its own and the job goes last. */
    method Enqueue(j: SynthJob) returns (ok: bool)
      requires Valid() && !j.inQueue
      modifies this`jobs, j
      ensures Valid()
      ensures ok == (!stop && old(|jobs|) < maxPending)
      ensures jobs == if ok then old(jobs) + [j] else old(jobs)
      ensures j.View() == if ok then old(j.View()).(refs := old(j.refs) + 1, inQueue := true) else old(j.View())
      ensures j.net == old(j.net) && j.fdClaimed == old(j.fdClaimed)
    {
      if stop || |jobs| >= maxPending {
        return false;
      }
      j.Retain();
      j.inQueue := true;
      jobs := jobs + [j];
      ok := true;
    }

    /** The oldest job, or none when the queue is empty or (for the scheduler) stopping; the
        shutdown drain takes jobs regardless of `stop`. */
    method Pop(draining: bool) returns (j: SynthJob?)
      requires Valid()
      modifies this`jobs, jobs
      ensures Valid() && stop == old(stop)
      ensures j == null <==> (old(stop) && !draining) || old(jobs) == []
      ensures j == null ==> jobs == old(jobs)
      ensures j != null ==> old(jobs) == [j] + jobs
      ensures j != null ==> j.View() == old(jobs[0].View()).(inQueue := false) && j.net == old(jobs[0].net)
      ensures forall q <- old(jobs) :: q != j ==> q.View() == old(q.View()) && q.net == old(q.net)
    {
      if (stop && !draining) || |jobs| == 0 {
        return null;
      }
      j := jobs[0];
      j.inQueue := false;
      jobs := jobs[1..];
    }
  }
}
