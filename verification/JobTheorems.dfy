/** What the job protocol guarantees on every interleaving of submitter, scheduler, shutdown
    drain and stream writer. */
module JobTheorems {
  import opened JobProtocol

  ghost predicate ValidRun(s: State, run: seq<Action>)
    decreases |run|
  {
    run == [] || (Enabled(s, run[0]) && ValidRun(Apply(s, run[0]), run[1..]))
  }

  ghost function Final(s: State, run: seq<Action>): State
    requires ValidRun(s, run)
    decreases |run|
  {
    if run == [] then s else Final(Apply(s, run[0]), run[1..])
  }

  lemma {:induction false} RunInv(s: State, run: seq<Action>)
    requires Inv(s) && ValidRun(s, run)
    ensures Inv(Final(s, run)) && Final(s, run).kind == s.kind
    decreases |run|
  {
    hide Inv, Apply, Enabled;
    if run != [] {
      StepInv(s, run[0]);
      RunInv(Apply(s, run[0]), run[1..]);
    }
  }

  /** Nobody is left to act on the connection. */
  predicate Settled(s: State) {
    && (s.submitter.Left? || s.submitter.Dismissed?)
    && (s.consumer.Absent? || s.consumer.ConsumerLeft?)
    && !s.job.inQueue && s.fd.owner != ByWriter
  }

  /** In every state of every run the descriptor has been claimed at most once and closed at
      most once, the slot given back at most once, and never before the job is freed. When
      nobody is left to act, the descriptor has been closed and the slot given back exactly
      once, whether or not the connection became a job, and every job built has been freed. A
      warm-up closes nothing and gives back no slot. */
  lemma ExactlyOnce(kind: Kind, run: seq<Action>)
    requires ValidRun(Connection(kind), run)
    ensures var s := Final(Connection(kind), run);
      && s.fd.claims <= 1 && s.fd.closes <= 1 && s.fd.connDone <= 1
      && (s.fd.connDone == 1 <==> kind != Warmup && (s.submitter.Dismissed? || s.job.freed))
      && (s.job.freed ==> s.job.refs == 0)
      && (Settled(s) ==> s.job.freed == s.job.built)
      && (Settled(s) && kind != Warmup ==> s.fd.closes == 1 && s.fd.connDone == 1)
      && (kind == Warmup ==> s.fd.closes == 0 && s.fd.claims == 0 && s.fd.connDone == 0)
  {
    ConnectionInv(kind);
    RunInv(Connection(kind), run);
  }

  /** Steps that read or write the job object. */
  predicate TouchesJob(m: Action) {
    match m
    case Submit(a) => !(a.Refuse? || a.ConnClose? || a.Build? || a.Reply?)
    case Consume(c) => !(c.AnswerStartFailure? || c.DrainReply?)
    case WriterClose => false
  }

  /** Whoever touches the job does so before it is freed, and holds one of its references or is
      the one that dropped the last; there are never two that free it. */
  lemma NoUseAfterFree(s: State, m: Action)
    requires Inv(s) && Enabled(s, m) && TouchesJob(m)
    ensures s.job.built && !s.job.freed
    ensures s.job.refs > 0 || m == Submit(Free) || m == Consume(ConsumerFree)
    ensures !(s.submitter.Freeing? && s.consumer.ConsumerFreeing?)
  {
  }

  predicate ClosesAs(m: Action, o: Owner) {
    match m
    case Submit(a) => (a.ConnClose? && o == HttpThread) || (a.Reply? && o == BySubmitter) || (a.Free? && o == InJob)
    case Consume(c) => ((c.AnswerStartFailure? || c.DrainReply?) && o == ByConsumer) || (c.ConsumerFree? && o == InJob)
    case WriterClose => o == ByWriter
  }

  /** A descriptor is closed only by its owner, and only while it is open. */
  lemma ClosesOwnDescriptor(s: State, m: Action)
    requires Inv(s) && Enabled(s, m) && Apply(s, m).fd.closes != s.fd.closes
    ensures Apply(s, m).fd.closes == s.fd.closes + 1 && ClosesAs(m, s.fd.owner)
  {
  }

  /** The submitter's verdict, once reached, never changes; a result it acts on was published
      before and is never written again. A result may still be published after the submitter has
      given up. */
  lemma VerdictIsFinal(s: State, m: Action)
    requires Inv(s) && Enabled(s, m) && !s.verdict.Undecided?
    ensures Apply(s, m).verdict == s.verdict
    ensures s.verdict.Got? ==> s.job.done && s.verdict.result == s.job.result == Apply(s, m).job.result
  {
  }

  // ------------------------------------------------------------------ the answer

  /** Closes that follow an answer, be it the response, an error, or a stream. */
  predicate Answers(m: Action) {
    match m
    case Submit(a) => a.ConnClose? || a.Reply?
    case Consume(c) => c.AnswerStartFailure? || c.DrainReply?
    case WriterClose => true
  }

  function Answered(run: seq<Action>): nat {
    if run == [] then 0 else (if Answers(run[0]) then 1 else 0) + Answered(run[1..])
  }

  /** Whose descriptor nobody has claimed yet, somebody is still going to. */
  ghost predicate AnswerInv(s: State) {
    && (s.kind == Streaming ==> s.verdict.Undecided?)
    && (s.kind != Warmup && s.job.built && !s.fd.claimed ==>
          || s.submitter.Built? || s.submitter.Responding? || s.submitter.Waiting?
          || (s.kind == Streaming && (s.job.inQueue || s.consumer.Popped? || s.consumer.Claiming? || s.consumer.Draining?)))
  }

  lemma AnswerAfterSubmitter(s: State, a: SubmitterAction)
    requires Inv(s) && AnswerInv(s) && SubmitterEnabled(s, a)
    ensures AnswerInv(SubmitterStep(s, a))
  {
    hide CountInv;
  }

  lemma AnswerAfterConsumer(s: State, a: ConsumerAction)
    requires Inv(s) && AnswerInv(s) && ConsumerEnabled(s, a)
    ensures AnswerInv(ConsumerStep(s, a))
  {
    hide CountInv;
  }

  lemma AnswerStep(s: State, m: Action)
    requires Inv(s) && AnswerInv(s) && Enabled(s, m)
    ensures AnswerInv(Apply(s, m)) && Apply(s, m).fd.closes == s.fd.closes + (if Answers(m) then 1 else 0)
  {
    OnlyAnswersClose(s, m);
    hide Inv, AnswerInv, SubmitterEnabled, ConsumerEnabled, SubmitterStep, ConsumerStep;
    match m {
      case Submit(a) => AnswerAfterSubmitter(s, a);
      case Consume(a) => AnswerAfterConsumer(s, a);
      case WriterClose => assert AnswerInv(Apply(s, m)) by { StreamIsClosed(s); }
    }
  }

  lemma StreamIsClosed(s: State)
    requires AnswerInv(s) && Enabled(s, WriterClose)
    ensures AnswerInv(Apply(s, WriterClose))
  {
  }

  lemma OnlyAnswersClose(s: State, m: Action)
    requires Inv(s) && AnswerInv(s) && Enabled(s, m)
    ensures Apply(s, m).fd.closes == s.fd.closes + (if Answers(m) then 1 else 0)
  {
    hide CountInv;
  }

  lemma {:induction false} AnswersCounted(s: State, run: seq<Action>)
    requires Inv(s) && AnswerInv(s) && ValidRun(s, run)
    ensures Final(s, run).fd.closes == s.fd.closes + Answered(run)
    decreases |run|
  {
    hide Inv, AnswerInv, Apply, Enabled, Answers;
    if run != [] {
      AnswerStep(s, run[0]);
      StepInv(s, run[0]);
      AnswersCounted(Apply(s, run[0]), run[1..]);
    }
  }

  /** Nobody is cut off. On every run whoever closes the descriptor has answered the client, and when
      nobody is left to act exactly one has; the close behind the last reference is never needed. */
  lemma EveryoneIsAnswered(kind: Kind, run: seq<Action>)
    requires ValidRun(Connection(kind), run)
    ensures var s := Final(Connection(kind), run);
      s.fd.closes == Answered(run) <= 1 && (Settled(s) && kind != Warmup ==> Answered(run) == 1)
  {
    ConnectionInv(kind);
    AnswersCounted(Connection(kind), run);
    ExactlyOnce(kind, run);
  }

  predicate NotStarted(c: Consumer) {
    !(c.Claiming? || c.Opening? || c.Failing? || c.Running? || (c.Finishing? && !c.drained))
  }

  lemma NotStartedBySubmitter(s: State, a: SubmitterAction)
    requires SubmitterEnabled(s, a)
    ensures SubmitterStep(s, a).consumer == s.consumer && (s.job.gaveUp ==> SubmitterStep(s, a).job.gaveUp)
  {
  }

  lemma NotStartedBySchedule(s: State, a: ConsumerAction)
    requires s.job.gaveUp && NotStarted(s.consumer) && ConsumerEnabled(s, a) && (a.Pop? || a.CheckGaveUp? || a.OnDone?)
    ensures ConsumerStep(s, a).job.gaveUp && NotStarted(ConsumerStep(s, a).consumer) && !a.OnDone?
  {
  }

  lemma OnlyStarted(s: State, a: ConsumerAction)
    requires ConsumerEnabled(s, a) && NotStarted(s.consumer)
    ensures !a.StreamClaim? && !a.StartWriter? && !a.AnswerStartFailure? && !a.OnDone?
  {
  }

  lemma NotStartedByDrain(s: State, a: ConsumerAction)
    requires s.job.gaveUp && NotStarted(s.consumer) && ConsumerEnabled(s, a) && (a.DrainPop? || a.DrainClaim? || a.DrainReply?)
    ensures ConsumerStep(s, a).job.gaveUp && NotStarted(ConsumerStep(s, a).consumer)
  {
  }

  lemma NotStartedByEnd(s: State, a: ConsumerAction)
    requires s.job.gaveUp && ConsumerEnabled(s, a) && (a.Finish? || a.ConsumerRelease? || a.ConsumerFree?)
    ensures ConsumerStep(s, a).job.gaveUp && NotStarted(ConsumerStep(s, a).consumer)
  {
  }

  lemma NotStartedStep(s: State, m: Action)
    requires s.job.gaveUp && NotStarted(s.consumer) && Enabled(s, m)
    ensures Apply(s, m).job.gaveUp && NotStarted(Apply(s, m).consumer) && !(m.Consume? && m.c.OnDone?)
  {
    hide SubmitterEnabled, ConsumerEnabled, SubmitterStep, ConsumerStep, NotStarted;
    match m {
      case Submit(a) => NotStartedBySubmitter(s, a);
      case Consume(a) =>
        if a.Pop? || a.CheckGaveUp? || a.OnDone? {
          NotStartedBySchedule(s, a);
        } else if a.DrainPop? || a.DrainClaim? || a.DrainReply? {
          NotStartedByDrain(s, a);
        } else {
          OnlyStarted(s, a);
          NotStartedByEnd(s, a);
        }
      case WriterClose =>
    }
  }

  /** A client that gave up while its job was queued costs no synthesis: the driver never reports. */
  lemma {:induction false} GivenUpIsNotRun(s: State, run: seq<Action>, k: nat)
    requires ValidRun(s, run) && k < |run|
    requires s.job.gaveUp && (s.consumer.Absent? || s.consumer.Popped?)
    ensures !(run[k].Consume? && run[k].c.OnDone?)
  {
    NeverStarted(s, run, k);
  }

  lemma {:induction false} NeverStarted(s: State, run: seq<Action>, k: nat)
    requires ValidRun(s, run) && k < |run| && s.job.gaveUp && NotStarted(s.consumer)
    ensures !(run[k].Consume? && run[k].c.OnDone?)
    decreases |run|
  {
    hide Apply, Enabled, NotStarted;
    NotStartedStep(s, run[0]);
    if k > 0 {
      NeverStarted(Apply(s, run[0]), run[1..], k - 1);
    }
  }

  // ---------------------------------------------------------------- termination

  function SubmitterRank(p: Submitter): nat {
    match p
    case Parsing => 30 case Refusing => 1 case Built => 20 case Waiting => 8 case Responding => 6 case Replying => 5
    case Releasing => 4 case Freeing => 1 case Left => 0 case Dismissed => 0
  }

  function ConsumerRank(c: Consumer): nat {
    match c
    case Absent => 0
    case Popped => 8 case Claiming => 7 case Opening => 6 case Failing => 5 case Running => 4
    case Draining => 8 case DrainReplying => 7 case Finishing(_) => 3
    case ConsumerReleasing => 2 case ConsumerFreeing => 1 case ConsumerLeft => 0
  }

  function Rank(s: State): nat {
    SubmitterRank(s.submitter) + ConsumerRank(s.consumer) + (if s.job.inQueue then 9 else 0) +
    (if s.fd.owner == FdClosed then 0 else 1)
  }

  lemma SubmitterDescends(s: State, a: SubmitterAction)
    requires Inv(s) && SubmitterEnabled(s, a)
    ensures Rank(SubmitterStep(s, a)) < Rank(s)
  {
    hide CountInv, OutcomeInv;
  }

  lemma SchedulerDescends(s: State, a: ConsumerAction)
    requires Inv(s) && ConsumerEnabled(s, a)
    requires a.Pop? || a.CheckGaveUp? || a.StreamClaim? || a.StartWriter? || a.AnswerStartFailure? || a.OnDone?
    ensures Rank(ConsumerStep(s, a)) < Rank(s)
  {
    hide CountInv, OutcomeInv;
  }

  lemma DrainDescends(s: State, a: ConsumerAction)
    requires Inv(s) && ConsumerEnabled(s, a)
    requires !(a.Pop? || a.CheckGaveUp? || a.StreamClaim? || a.StartWriter? || a.AnswerStartFailure? || a.OnDone?)
    ensures Rank(ConsumerStep(s, a)) < Rank(s)
  {
    hide CountInv, OutcomeInv;
  }

  lemma EveryStepDescends(s: State, m: Action)
    requires Inv(s) && Enabled(s, m)
    ensures Rank(Apply(s, m)) < Rank(s)
  {
    hide Inv, SubmitterEnabled, ConsumerEnabled, SubmitterStep, ConsumerStep;
    match m {
      case Submit(a) => SubmitterDescends(s, a);
      case Consume(a) =>
        if a.Pop? || a.CheckGaveUp? || a.StreamClaim? || a.StartWriter? || a.AnswerStartFailure? || a.OnDone? {
          SchedulerDescends(s, a);
        } else {
          DrainDescends(s, a);
        }
      case WriterClose =>
    }
  }

  /** No run of a connection has more than 31 steps ... */
  lemma {:induction false} RunsAreShort(s: State, run: seq<Action>)
    requires Inv(s) && ValidRun(s, run)
    ensures |run| <= Rank(s)
    ensures forall kind :: s == Connection(kind) ==> |run| <= 31
    decreases |run|
  {
    hide Inv, Apply, Enabled;
    if run != [] {
      EveryStepDescends(s, run[0]);
      StepInv(s, run[0]);
      RunsAreShort(Apply(s, run[0]), run[1..]);
    }
  }

  /** ... and one that cannot be continued is settled, so with ExactlyOnce every connection is
      answered or closed, reported and freed on every interleaving. */
  lemma SomeoneCanMove(s: State) returns (m: Action)
    requires Inv(s) && !Settled(s)
    ensures Enabled(s, m)
  {
    if s.fd.owner == ByWriter {
      return WriterClose;
    }
    if s.job.inQueue {
      return Consume(Pop);
    }
    match s.consumer {
      case Popped => return Consume(CheckGaveUp);
      case Claiming => return Consume(StreamClaim);
      case Opening => return Consume(StartWriter(true));
      case Failing => return Consume(AnswerStartFailure);
      case Running => return Consume(OnDone(true));
      case Draining => return Consume(DrainClaim);
      case DrainReplying => return Consume(DrainReply);
      case Finishing(_) => return Consume(Finish);
      case ConsumerReleasing => return Consume(ConsumerRelease);
      case ConsumerFreeing => return Consume(ConsumerFree);
      case _ =>
    }
    match s.submitter {
      case Parsing => return Submit(Build);
      case Refusing => return Submit(ConnClose);
      case Built => return Submit(EnqueueOk);
      case Responding => return Submit(Claim);
      case Replying => return Submit(Reply);
      case Waiting => return Submit(SeeDone);
      case Releasing => return Submit(Release);
      case _ => return Submit(Free);
    }
  }

  // ----------------------------------------------------------- the outcome reported

  ghost predicate ResultInv(c: Consumer, j: Job) {
    && j.result == (if j.done && j.drained then -1 else 0)
    && !(j.driverFailed && j.drained)
    && (j.drained ==> c.Draining? || c.DrainReplying? || c == Finishing(true) || ConsumerPast(c))
    && (c.Draining? || c.DrainReplying? || c == Finishing(true) ==> j.drained)
    && (j.driverFailed ==> c == Finishing(false) || ConsumerPast(c))
  }

  lemma ResultAfterSubmitter(s: State, a: SubmitterAction)
    requires Inv(s) && ResultInv(s.consumer, s.job) && SubmitterEnabled(s, a)
    ensures ResultInv(SubmitterStep(s, a).consumer, SubmitterStep(s, a).job)
  {
    hide FdInv, CountInv, OutcomeInv;
  }

  lemma ResultAfterConsumer(s: State, a: ConsumerAction)
    requires Inv(s) && ResultInv(s.consumer, s.job) && ConsumerEnabled(s, a)
    ensures ResultInv(ConsumerStep(s, a).consumer, ConsumerStep(s, a).job)
  {
    hide FdInv, CountInv;
  }

  lemma ResultStep(s: State, m: Action)
    requires Inv(s) && ResultInv(s.consumer, s.job) && Enabled(s, m)
    ensures ResultInv(Apply(s, m).consumer, Apply(s, m).job)
  {
    hide Inv, ResultInv, SubmitterEnabled, ConsumerEnabled, SubmitterStep, ConsumerStep;
    match m {
      case Submit(a) => ResultAfterSubmitter(s, a);
      case Consume(a) => ResultAfterConsumer(s, a);
      case WriterClose =>
    }
  }

  lemma {:induction false} ResultRun(s: State, run: seq<Action>)
    requires Inv(s) && ResultInv(s.consumer, s.job) && ValidRun(s, run)
    ensures ResultInv(Final(s, run).consumer, Final(s, run).job)
    decreases |run|
  {
    hide Inv, ResultInv, Apply, Enabled;
    if run != [] {
      ResultStep(s, run[0]);
      StepInv(s, run[0]);
      ResultRun(Apply(s, run[0]), run[1..]);
    }
  }

  /** A submitter that got a result is told of a failure if and only if there was one (the
      driver's, or the drain at shutdown) exactly when the driver did not fail: `job_finish`
      stores the result it is given only together with an error text, and the scheduler passes
      none, so a failure of the driver is answered as a success. */
  lemma FailureReportedIff(kind: Kind, run: seq<Action>)
    requires ValidRun(Connection(kind), run)
    ensures var s := Final(Connection(kind), run);
      s.verdict.Got? ==>
        ((s.verdict.result != 0 <==> s.job.driverFailed || s.job.drained) <==> !s.job.driverFailed)
  {
    ConnectionInv(kind);
    RunInv(Connection(kind), run);
    ResultRun(Connection(kind), run);
  }

  lemma OneMore(s: State, m: Action, run: seq<Action>)
    requires Enabled(s, m) && ValidRun(Apply(s, m), run)
    ensures ValidRun(s, [m] + run) && Final(s, [m] + run) == Final(Apply(s, m), run)
  {
    assert ([m] + run)[0] == m && ([m] + run)[1..] == run;
  }

  lemma NoMore(s: State)
    ensures ValidRun(s, []) && Final(s, []) == s
  {
  }

  /** A run in which it happens: the driver fails, the submitter is told success. */
  lemma FailureAnsweredAsSuccess() returns (run: seq<Action>)
    ensures ValidRun(Connection(Batch), run)
    ensures var s := Final(Connection(Batch), run); s.job.driverFailed && s.verdict == Got(0)
  {
    hide ValidRun, Final;
    var s1 := Apply(Connection(Batch), Submit(Build));
    var s2 := Apply(s1, Submit(EnqueueOk));
    var s3 := Apply(s2, Consume(Pop));
    var s4 := Apply(s3, Consume(CheckGaveUp));
    var s5 := Apply(s4, Consume(OnDone(false)));
    var s6 := Apply(s5, Consume(Finish));
    run := [];
    NoMore(Apply(s6, Submit(SeeDone)));
    OneMore(s6, Submit(SeeDone), run);
    run := [Submit(SeeDone)] + run;
    OneMore(s5, Consume(Finish), run);
    run := [Consume(Finish)] + run;
    OneMore(s4, Consume(OnDone(false)), run);
    run := [Consume(OnDone(false))] + run;
    OneMore(s3, Consume(CheckGaveUp), run);
    run := [Consume(CheckGaveUp)] + run;
    OneMore(s2, Consume(Pop), run);
    run := [Consume(Pop)] + run;
    OneMore(s1, Submit(EnqueueOk), run);
    run := [Submit(EnqueueOk)] + run;
    OneMore(Connection(Batch), Submit(Build), run);
    run := [Submit(Build)] + run;
  }
}
