/** The branches of the worker's segments, each as an equation to rewrite with. */
module StepCases {
  import opened Wrappers
  import opened Protocol
  import opened Client
  import opened Scheduler

  lemma BeginAttemptEither(config: Config, s: State, job: Control, attempt: nat, wrote: bool, error: Option<LsxError>)
    ensures BeginAttempt(config, s, job, attempt, wrote, error)
         == if GivesUp(s, job) then FinishAttempts(config, s, job, wrote, error)
            else HandToClient(config, s, Prepare(config, s.Speaker(), job), attempt, wrote)
  {
  }

  /** A control that is wanted, in time and on a known volume starts its first attempt. */
  predicate StartsAttempt(s: State, job: Control) {
    !AllCancelled(s.futures, job.waiters) && s.now < job.deadline && !NeedsVolume(job, s.Speaker())
  }

  lemma StartControlAttempts(config: Config, s: State, job: Control, drift: nat)
    requires StartsAttempt(s, job)
    ensures StartControl(config, s, job, drift) == BeginAttempt(config, s.(now := s.now + drift), job, 0, false, None)
  {
  }

  lemma StartControlDoesNotAttempt(config: Config, s: State, job: Control, drift: nat)
    requires !StartsAttempt(s, job)
    ensures var t := StartControl(config, s, job, drift);
            || t == DropControl(s, job) || t == FinishControlError(s, job, DeadlineExpired, false)
            || (NeedsVolume(job, s.Speaker()) && t == ResolveVolume(s, job))
  {
  }

  lemma TurnTakesControl(config: Config, s: State, drift: nat)
    requires !s.closing && s.controls != []
    ensures Turn(config, s, drift) == StartControl(config, s.(controls := s.controls[1..]), s.controls[0], drift)
  {
  }

  lemma TurnTakesNone(config: Config, s: State, drift: nat)
    requires s.closing || s.controls == []
    ensures var t := Turn(config, s, drift);
            || (s.closing && t == s.(worker := Stopped))
            || (!s.closing && VerificationDue(s) && t == StartSourceRead(s, Verification))
            || (!s.closing && s.pollPending && t == StartSourceRead(s, Poll))
            || (!s.closing && s.maintenancePending && t == TakeMaintenance(s))
            || (!s.closing && !VerificationDue(s) && !s.pollPending && !s.maintenancePending && t == GoIdle(s))
  {
  }

  lemma WriteFailedEither(config: Config, s: State, error: LsxError)
    requires s.worker.Writing?
    ensures var logged := s.Log(Ended(WriteOf(s.worker), error.writeAttempted));
            var job, wrote := s.worker.job, s.worker.wrote || error.writeAttempted;
            WriteFailed(config, s, error)
              == if error.fault.CommandRejected? then WriteRejected(config, logged, job, wrote, error)
                 else AttemptFailed(config, logged, job, s.worker.attempt, wrote, error)
  {
  }

  lemma StepAcknowledges(config: Config, s: State)
    requires s.worker.Writing?
    ensures Step(config, s, WriteReplies(None)) == WriteAcknowledged(config, s)
  {
  }

  lemma StepFailsWrite(config: Config, s: State, error: LsxError)
    requires s.worker.Writing?
    ensures Step(config, s, WriteReplies(Some(error))) == WriteFailed(config, s, error)
  {
  }

  lemma StepHearsSource(config: Config, s: State, status: SourceStatus)
    requires s.worker.ReadingSource?
    ensures Step(config, s, SourceReplies(Success(status))) == SourceArrived(config, s, s.worker.reason, status)
  {
  }

  lemma StepFailsSource(config: Config, s: State, error: LsxError)
    requires s.worker.ReadingSource?
    ensures Step(config, s, SourceReplies(Failure(error))) == SourceFailed(config, s, s.worker.reason, error)
  {
  }

  /** The state after the failure of the attempt whose exchange `u` has logged. */
  function AfterFailure(config: Config, u: State, wrote: bool, error: LsxError): State
    requires u.worker.Writing?
  {
    if error.fault.CommandRejected? then WriteRejected(config, u, u.worker.job, wrote, error)
    else AttemptFailed(config, u, u.worker.job, u.worker.attempt, wrote, error)
  }

  lemma WriteFailedIsAfterFailure(config: Config, s: State, error: LsxError)
    requires s.worker.Writing?
    ensures WriteFailed(config, s, error)
         == AfterFailure(config, s.Log(Ended(WriteOf(s.worker), error.writeAttempted)),
                         s.worker.wrote || error.writeAttempted, error)
  {
  }
}
