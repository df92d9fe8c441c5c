/** One client connection inside a worker, from the HTTP thread that parses it to the reply:
    the submitter, the consumer of the synthesis queue (the scheduler, or the drain that runs
    after it at shutdown) and the stream writer race for the same job object and the same
    descriptor. Every step is one atomic operation or one critical section. */
module JobProtocol {

  datatype Kind = Batch | Streaming | Warmup

  /** Who must close the descriptor. `NoFd` is a warm-up's. */
  datatype Owner = NoFd | HttpThread | InJob | BySubmitter | ByConsumer | ByWriter | FdClosed

  datatype Submitter =
    | Parsing        // no job yet
    | Refusing       // answered without a job, about to run conn_close
    | Dismissed      // conn_close has run
    | Built          // holds the first reference
    | Responding     // about to claim the descriptor
    | Replying       // claimed it
    | Waiting
    | Releasing
    | Freeing        // dropped the last reference
    | Left

  datatype Consumer =
    | Absent
    | Popped | Claiming | Opening | Failing | Running
    | Draining | DrainReplying
    | Finishing(drained: bool)
    | ConsumerReleasing | ConsumerFreeing | ConsumerLeft

  /** The fields of `synth_job` that the protocol is about. `driverFailed` records what the
      driver reported and `drained` that the job was answered at shutdown; `result` is the field
      the submitter reads. */
  datatype Job = Job(
    built: bool, inQueue: bool, refs: int, done: bool, abandoned: bool, gaveUp: bool, result: int,
    driverFailed: bool, drained: bool, freed: bool)

  /** The descriptor, with the number of claims that got it, of closes, and of slots given back. */
  datatype Fd = Fd(claimed: bool, owner: Owner, claims: nat, closes: nat, connDone: nat)

  datatype Verdict = Undecided | Got(result: int) | TimedOut

  datatype State = State(
    kind: Kind, submitter: Submitter, consumer: Consumer, job: Job, fd: Fd, verdict: Verdict)

  function Connection(kind: Kind): State {
    State(kind, Parsing, Absent,
          Job(false, false, 0, false, false, false, 0, false, false, false),
          Fd(false, if kind == Warmup then NoFd else HttpThread, 0, 0, 0),
          Undecided)
  }

  datatype SubmitterAction =
    | Refuse | ConnClose | Build | HeaderTooLong | EnqueueOk | EnqueueFull
    | SeeDone | Expire | Claim | Reply | Release | Free

  datatype ConsumerAction =
    // the scheduler
    | Pop | CheckGaveUp | StreamClaim | StartWriter(ok: bool) | AnswerStartFailure | OnDone(ok: bool)
    // the drain
    | DrainPop | DrainClaim | DrainReply
    // either
    | Finish | ConsumerRelease | ConsumerFree

  datatype Action = Submit(a: SubmitterAction) | Consume(c: ConsumerAction) | WriterClose

  predicate SubmitterEnabled(s: State, a: SubmitterAction) {
    match a
    case Refuse => s.submitter.Parsing? && s.kind != Warmup
    case ConnClose => s.submitter.Refusing?
    case Build => s.submitter.Parsing?
    case HeaderTooLong => s.submitter.Built? && s.kind == Streaming
    case EnqueueOk => s.submitter.Built?
    case EnqueueFull => s.submitter.Built?
    case SeeDone => s.submitter.Waiting? && s.job.done
    case Expire => s.submitter.Waiting? && !s.job.done && s.kind != Warmup
    case Claim => s.submitter.Responding?
    case Reply => s.submitter.Replying?
    case Release => s.submitter.Releasing?
    case Free => s.submitter.Freeing?
  }

  predicate ConsumerEnabled(s: State, a: ConsumerAction) {
    match a
    case Pop => s.job.inQueue && s.consumer.Absent?
    case CheckGaveUp => s.consumer.Popped?
    case StreamClaim => s.consumer.Claiming?
    case StartWriter(_) => s.consumer.Opening?
    case AnswerStartFailure => s.consumer.Failing?
    case OnDone(_) => s.consumer.Running?
    case DrainPop => s.job.inQueue && s.consumer.Absent?
    case DrainClaim => s.consumer.Draining?
    case DrainReply => s.consumer.DrainReplying?
    case Finish => s.consumer.Finishing?
    case ConsumerRelease => s.consumer.ConsumerReleasing?
    case ConsumerFree => s.consumer.ConsumerFreeing?
  }

  predicate Enabled(s: State, m: Action) {
    match m
    case Submit(a) => SubmitterEnabled(s, a)
    case Consume(c) => ConsumerEnabled(s, c)
    case WriterClose => s.fd.owner.ByWriter?
  }

  /** `job_claim_fd`: the descriptor, once, to the first caller. */
  predicate ClaimWins(kind: Kind, fd: Fd) {
    !fd.claimed && kind != Warmup
  }

  function ClaimFd(kind: Kind, fd: Fd, winner: Owner): Fd {
    if ClaimWins(kind, fd) then fd.(claimed := true, owner := winner, claims := fd.claims + 1)
    else fd.(claimed := true)
  }

  function CloseFd(fd: Fd): Fd {
    fd.(owner := FdClosed, closes := fd.closes + 1)
  }

  /** What `job_release` does to the descriptor and the slot behind the last reference. */
  function LastRelease(kind: Kind, fd: Fd): Fd {
    var claimed := ClaimFd(kind, fd, InJob);
    var closed := if ClaimWins(kind, fd) then CloseFd(claimed) else claimed;
    if kind == Warmup then closed else closed.(connDone := fd.connDone + 1)
  }

  function SubmitterStep(s: State, a: SubmitterAction): State
    requires SubmitterEnabled(s, a)
  {
    match a
    case Refuse => s.(submitter := Refusing)
    case ConnClose => s.(submitter := Dismissed, fd := CloseFd(s.fd).(connDone := s.fd.connDone + 1))
    case Build =>
      s.(submitter := Built, job := s.job.(built := true, refs := 1),
         fd := if s.kind == Warmup then s.fd else s.fd.(owner := InJob))
    case HeaderTooLong => s.(submitter := Responding)
    case EnqueueOk =>
      s.(submitter := if s.kind == Streaming then Releasing else Waiting,
         job := s.job.(inQueue := true, refs := s.job.refs + 1))
    case EnqueueFull => s.(submitter := if s.kind == Warmup then Releasing else Responding)
    case SeeDone => s.(submitter := if s.kind == Warmup then Releasing else Responding, verdict := Got(s.job.result))
    case Expire => s.(submitter := Responding, job := s.job.(abandoned := true, gaveUp := true), verdict := TimedOut)
    case Claim =>
      s.(submitter := if ClaimWins(s.kind, s.fd) then Replying else Releasing, fd := ClaimFd(s.kind, s.fd, BySubmitter))
    case Reply => s.(submitter := Releasing, fd := CloseFd(s.fd))
    case Release =>
      s.(submitter := if s.job.refs == 1 then Freeing else Left, job := s.job.(refs := s.job.refs - 1))
    case Free => s.(submitter := Left, job := s.job.(freed := true), fd := LastRelease(s.kind, s.fd))
  }

  function ConsumerStep(s: State, a: ConsumerAction): State
    requires ConsumerEnabled(s, a)
  {
    match a
    case Pop => s.(consumer := Popped, job := s.job.(inQueue := false))
    case CheckGaveUp =>
      s.(consumer := if s.job.gaveUp then ConsumerReleasing else if s.kind == Streaming then Claiming else Running)
    case StreamClaim =>
      s.(consumer := if ClaimWins(s.kind, s.fd) then Opening else ConsumerReleasing,
         fd := ClaimFd(s.kind, s.fd, ByConsumer))
    case StartWriter(ok) => if ok then s.(consumer := Running, fd := s.fd.(owner := ByWriter)) else s.(consumer := Failing)
    case AnswerStartFailure => s.(consumer := ConsumerReleasing, fd := CloseFd(s.fd))
    case OnDone(ok) =>
      s.(consumer := if s.kind == Streaming then ConsumerReleasing else Finishing(false),
         job := s.job.(driverFailed := !ok))
    case DrainPop => s.(consumer := Draining, job := s.job.(inQueue := false, drained := true))
    case DrainClaim =>
      s.(consumer := if ClaimWins(s.kind, s.fd) then DrainReplying else Finishing(true),
         fd := ClaimFd(s.kind, s.fd, ByConsumer))
    case DrainReply => s.(consumer := Finishing(true), fd := CloseFd(s.fd))
    case Finish =>
      s.(consumer := ConsumerReleasing,
         job := s.job.(result := if s.consumer.drained then -1 else s.job.result, done := true))
    case ConsumerRelease =>
      s.(consumer := if s.job.refs == 1 then ConsumerFreeing else ConsumerLeft, job := s.job.(refs := s.job.refs - 1))
    case ConsumerFree => s.(consumer := ConsumerLeft, job := s.job.(freed := true), fd := LastRelease(s.kind, s.fd))
  }

  function Apply(s: State, m: Action): State
    requires Enabled(s, m)
  {
    match m
    case Submit(a) => SubmitterStep(s, a)
    case Consume(c) => ConsumerStep(s, c)
    case WriterClose => s.(fd := CloseFd(s.fd))
  }

  // ----------------------------------------------------------------- invariant

  function SubmitterHolds(p: Submitter): int {
    match p
    case Built => 1 case Responding => 1 case Replying => 1 case Waiting => 1 case Releasing => 1
    case _ => 0
  }

  predicate ConsumerHolds(c: Consumer) {
    !(c.Absent? || c.ConsumerFreeing? || c.ConsumerLeft?)
  }

  predicate NoJob(p: Submitter) {
    p.Parsing? || p.Refusing? || p.Dismissed?
  }

  predicate ConsumerPast(c: Consumer) {
    c.ConsumerReleasing? || c.ConsumerFreeing? || c.ConsumerLeft?
  }

  ghost predicate RefInv(p: Submitter, c: Consumer, j: Job) {
    && j.built == !NoJob(p)
    && j.refs == SubmitterHolds(p) + (if j.inQueue || ConsumerHolds(c) then 1 else 0)
    && (p.Freeing? || c.ConsumerFreeing? ==> j.refs == 0 && !j.freed)
    && (p.Freeing? ==> !c.ConsumerFreeing?)
    && (j.built && j.refs == 0 ==> j.freed || p.Freeing? || c.ConsumerFreeing?)
    && (j.freed ==> j.built && j.refs == 0)
    && (j.inQueue ==> c.Absent?)
    && (!j.built || p.Built? ==> c.Absent? && !j.inQueue)
    && (p.Waiting? ==> j.inQueue || !c.Absent?)
  }

  ghost predicate FdInv(kind: Kind, p: Submitter, c: Consumer, j: Job, fd: Fd) {
    && (kind == Warmup ==> fd.owner == NoFd && !p.Refusing? && !p.Dismissed? && !p.Responding? && !p.Replying?)
    && (kind != Warmup ==> fd.owner != NoFd)
    && (fd.owner == HttpThread <==> kind != Warmup && (p.Parsing? || p.Refusing?))
    && (p.Dismissed? ==> fd.owner == FdClosed)
    && (j.built && kind != Warmup ==> (fd.owner == InJob <==> !fd.claimed))
    && (fd.owner == BySubmitter <==> p.Replying?)
    && (fd.owner == ByConsumer <==> c.Opening? || c.Failing? || c.DrainReplying?)
    && (fd.owner == ByWriter ==> kind == Streaming)
    && (j.freed && kind != Warmup ==> fd.claimed)
    && (!j.built ==> !fd.claimed)
  }

  ghost predicate CountInv(kind: Kind, p: Submitter, j: Job, fd: Fd) {
    && fd.closes == (if fd.owner == FdClosed then 1 else 0)
    && fd.claims == (if fd.claimed && kind != Warmup then 1 else 0)
    && fd.connDone == (if kind != Warmup && (j.freed || p.Dismissed?) then 1 else 0)
  }

  ghost predicate OutcomeInv(kind: Kind, p: Submitter, c: Consumer, j: Job, v: Verdict) {
    && j.abandoned == j.gaveUp == v.TimedOut?
    && (NoJob(p) || p.Built? || p.Waiting? ==> v.Undecided?)
    && (v.Got? ==> j.done && v.result == j.result)
    && (j.done ==> ConsumerPast(c))
    && (p.Waiting? && ConsumerPast(c) ==> j.done)
    && (c.Claiming? || c.Opening? || c.Failing? ==> kind == Streaming)
    && (kind == Streaming ==> !p.Waiting?)
    && (c == Finishing(false) ==> kind != Streaming)
  }

  ghost predicate Inv(s: State) {
    && RefInv(s.submitter, s.consumer, s.job)
    && FdInv(s.kind, s.submitter, s.consumer, s.job, s.fd)
    && CountInv(s.kind, s.submitter, s.job, s.fd)
    && OutcomeInv(s.kind, s.submitter, s.consumer, s.job, s.verdict)
  }

  lemma ConnectionInv(kind: Kind)
    ensures Inv(Connection(kind))
  {
  }

  lemma StepBeforeQueue(s: State, a: SubmitterAction)
    requires Inv(s) && SubmitterEnabled(s, a)
    requires a.Refuse? || a.ConnClose? || a.Build? || a.HeaderTooLong? || a.EnqueueOk? || a.EnqueueFull?
    ensures Inv(SubmitterStep(s, a))
  {
  }

  lemma StepAnswer(s: State, a: SubmitterAction)
    requires Inv(s) && SubmitterEnabled(s, a) && (a.SeeDone? || a.Expire? || a.Claim? || a.Reply?)
    ensures Inv(SubmitterStep(s, a))
  {
  }

  lemma StepLeave(s: State, a: SubmitterAction)
    requires Inv(s) && SubmitterEnabled(s, a) && (a.Release? || a.Free?)
    ensures Inv(SubmitterStep(s, a))
  {
  }

  lemma StepSchedule(s: State, a: ConsumerAction)
    requires Inv(s) && ConsumerEnabled(s, a)
    requires a.Pop? || a.CheckGaveUp? || a.StreamClaim? || a.StartWriter? || a.AnswerStartFailure? || a.OnDone?
    ensures Inv(ConsumerStep(s, a))
  {
  }

  lemma StepDrain(s: State, a: ConsumerAction)
    requires Inv(s) && ConsumerEnabled(s, a) && (a.DrainPop? || a.DrainClaim? || a.DrainReply?)
    ensures Inv(ConsumerStep(s, a))
  {
  }

  lemma StepPublish(s: State, a: ConsumerAction)
    requires Inv(s) && ConsumerEnabled(s, a) && (a.Finish? || a.ConsumerRelease? || a.ConsumerFree?)
    ensures Inv(ConsumerStep(s, a))
  {
  }

  lemma StepInv(s: State, m: Action)
    requires Inv(s) && Enabled(s, m)
    ensures Inv(Apply(s, m)) && Apply(s, m).kind == s.kind
  {
    match m {
      case Submit(a) =>
        if a.SeeDone? || a.Expire? || a.Claim? || a.Reply? {
          StepAnswer(s, a);
        } else if a.Release? || a.Free? {
          StepLeave(s, a);
        } else {
          StepBeforeQueue(s, a);
        }
      case Consume(a) =>
        if a.DrainPop? || a.DrainClaim? || a.DrainReply? {
          StepDrain(s, a);
        } else if a.Finish? || a.ConsumerRelease? || a.ConsumerFree? {
          StepPublish(s, a);
        } else {
          StepSchedule(s, a);
        }
      case WriterClose =>
    }
  }
}
