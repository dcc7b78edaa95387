/** What each event means for the channel's health: stated by the worker's state and the event alone. */
module Reports {
  import opened Wrappers
  import opened Protocol
  import opened Client
  import opened Scheduler
  import opened StepCases
  import opened Invariant
  import opened Guarantees
  import opened Endings

  /**
   * The speaker answered; a poll or a command failed for good; a read that nobody asked for
   * failed; or nothing is said about the channel.
   */
  datatype Report = Silent | Answered | Lost(error: ErrorName) | Impaired(error: ErrorName)

  predicate Refused(error: ErrorName) { error.ClientError? && error.fault.CommandRejected? }

  function ReportOf(s: State, event: Event): Report {
    match ConclusionOf(s, event)
    case Done(_) => Answered
    case Skipped(_) => Silent
    case GivenUp(job, error, _) =>
      if Refused(error) && event.WriteReplies? then Answered
      else if event.WorkerTurn? && s.now >= job.deadline then Silent
      else Lost(error)
    case Ongoing =>
      match event
      case SourceReplies(Success(_)) => if s.worker.ReadingSource? then Answered else Silent
      case SourceReplies(Failure(error)) =>
        if !s.worker.ReadingSource? then Silent
        else if s.worker.reason == Poll || s.pollPending then Lost(ClientError(error.fault))
        else Impaired(ClientError(error.fault))
      case VolumeReplies(Success(_)) => if s.worker.ReadingVolume? || s.worker.Resolving? then Answered else Silent
      case VolumeReplies(Failure(error)) =>
        if s.worker.ReadingVolume? then Impaired(ClientError(error.fault)) else Silent
      case _ => Silent
  }

  /** The answer to a read contradicts the plan that was due. */
  predicate Contradicts(s: State, event: Event) {
    && event.SourceReplies? && event.source.Success? && s.worker.ReadingSource?
    && s.plan.due.Some? && s.now >= s.plan.due.value
    && (s.worker.reason == Verification || s.plan.kind.Some?)
    && !Confirms(s.plan, event.source.value)
  }

  /** What health is judged by, and what it is. */
  datatype Vitals = Vitals(now: int, started: int, lastChannel: Option<int>, lastState: Option<int>, health: Health)

  function VitalsOf(s: State): Vitals {
    Vitals(s.now, s.startedMono, s.lastChannelMono, s.lastStateMono, s.snapshot.health)
  }

  /** How long ago, or since the start. */
  function Since(v: Vitals, last: Option<int>): int {
    v.now - if last.Some? then last.value else v.started
  }

  /** The failures and the error after a report. */
  predicate Counts(before: Health, after: Health, report: Report, contradicted: bool) {
    match report
    case Silent => after == before
    case Answered =>
      && after.consecutiveFailures == 0 && after.available
      && after.lastError == (if contradicted then Some(VerificationMismatch) else None)
      && after.degraded == (contradicted || after.stale)
    case Lost(error) =>
      after.consecutiveFailures == before.consecutiveFailures + 1 && after.lastError == Some(error) && after.degraded
    case Impaired(error) =>
      after.consecutiveFailures == before.consecutiveFailures && after.lastError == Some(error) && after.degraded
  }

  /** The ages are tested whenever something is reported, and only then. */
  predicate Tested(config: Config, v: Vitals) {
    && (v.health.stale <==> Since(v, v.lastState) >= config.timing.staleAfter)
    && (!v.health.available <==>
          && v.health.consecutiveFailures >= config.timing.failureThreshold
          && Since(v, v.lastChannel) >= config.timing.unavailableAfter)
  }

  /** Every answer is one of the channel; an answered source read is one of the state, too. */
  predicate Remembers(before: Vitals, after: Vitals, report: Report, stateRead: bool) {
    && after.lastChannel == (if report == Answered then Some(after.now) else before.lastChannel)
    && after.lastState == (if report == Answered && stateRead then Some(after.now) else before.lastState)
  }

  predicate Follows(
    config: Config, before: Vitals, after: Vitals, report: Report, stateRead: bool, contradicted: bool)
  {
    var counts := Counts(before.health, after.health, report, contradicted);
    var remembers := Remembers(before, after, report, stateRead);
    counts && remembers && (report == Silent || Tested(config, after))
  }

  // ------------------------------------------------------------------ each report

  lemma SuccessFollows(config: Config, s: State, stateRead: bool)
    ensures Follows(config, VitalsOf(s), VitalsOf(RecordSuccess(config, s, stateRead)), Answered, stateRead, false)
  {
  }

  lemma FailureFollows(config: Config, s: State, error: ErrorName, counts: bool)
    ensures var report := if counts then Lost(error) else Silent;
            Follows(config, VitalsOf(s), VitalsOf(RecordPrimaryFailure(config, s, error, counts)), report, false, false)
  {
  }

  lemma OptionalFailureFollows(config: Config, s: State, error: ErrorName)
    ensures Follows(
              config, VitalsOf(s), VitalsOf(RecordOptionalFailure(config, s, error)), Impaired(error), false, false)
  {
  }

  lemma AcknowledgementFollows(config: Config, s: State)
    requires s.worker.Writing?
    ensures Follows(config, VitalsOf(s), VitalsOf(WriteAcknowledged(config, s)), Answered, false, false)
  {
    var logged := s.Log(Ended(WriteOf(s.worker), true));
    SuccessFollows(config, ApplyOptimistic(config, logged, s.worker.job), false);
  }

  /** Giving a control up counts as a failure unless the speaker refused it. */
  lemma GivingUpFollows(config: Config, s: State, job: Control, wrote: bool, error: Option<LsxError>)
    ensures var name := if error.Some? then ClientError(error.value.fault) else DeadlineExpired;
            var report := if Refused(name) then Silent else Lost(name);
            Follows(config, VitalsOf(s), VitalsOf(FinishAttempts(config, s, job, wrote, error)), report, false, false)
  {
    var name := if error.Some? then ClientError(error.value.fault) else DeadlineExpired;
    FailureFollows(config, s, name, !Refused(name));
  }

  lemma RejectionFollows(config: Config, s: State, job: Control, wrote: bool, error: LsxError)
    requires error.fault.CommandRejected?
    ensures Follows(config, VitalsOf(s), VitalsOf(WriteRejected(config, s, job, wrote, error)), Answered, false, false)
  {
    var heard := RecordSuccess(config, s, false);
    SuccessFollows(config, s, false);
    GivingUpFollows(config, heard, job, wrote, Some(error));
  }

  /** The second failure counts; the first one says nothing yet. */
  lemma AttemptFollows(config: Config, s: State, job: Control, attempt: nat, wrote: bool, error: LsxError)
    requires !error.fault.CommandRejected?
    ensures var report := if attempt > 0 then Lost(ClientError(error.fault)) else Silent;
            Follows(config, VitalsOf(s), VitalsOf(AttemptFailed(config, s, job, attempt, wrote, error)), report,
                    false, false)
  {
    if attempt > 0 {
      GivingUpFollows(config, s, job, wrote, Some(error));
    }
  }

  lemma FailedWriteFollows(config: Config, s: State, error: LsxError)
    requires s.worker.Writing?
    ensures Follows(config, VitalsOf(s), VitalsOf(WriteFailed(config, s, error)),
                    ReportOf(s, WriteReplies(Some(error))), false, false)
  {
    var u := s.Log(Ended(WriteOf(s.worker), error.writeAttempted));
    var job, wrote := s.worker.job, s.worker.wrote || error.writeAttempted;
    WriteFailedEither(config, s, error);
    if error.fault.CommandRejected? {
      RejectionFollows(config, u, job, wrote, error);
    } else {
      AttemptFollows(config, u, job, s.worker.attempt, wrote, error);
    }
  }

  lemma RetryFollows(config: Config, s: State)
    requires s.worker.Sleeping? && !s.worker.failure.fault.CommandRejected?
    ensures Follows(config, VitalsOf(s), VitalsOf(Step(config, s, RetryPauseEnds)), ReportOf(s, RetryPauseEnds),
                    false, false)
  {
    var job, wrote, error := s.worker.job, s.worker.wrote, Some(s.worker.failure);
    BeginAttemptEither(config, s, job, 1, wrote, error);
    GivingUpFollows(config, s, job, wrote, error);
  }

  lemma TakingFollows(config: Config, s: State, job: Control, drift: nat)
    requires !s.closing
    ensures var report :=
              match TakenNow(s, job, drift)
              case GivenUp(_, error, _) => if s.now >= job.deadline then Silent else Lost(error)
              case _ => Silent;
            Follows(config, VitalsOf(s), VitalsOf(StartControl(config, s, job, drift)), report, false, false)
  {
    if StartsAttempt(s, job) {
      var u := s.(now := s.now + drift);
      StartControlAttempts(config, s, job, drift);
      BeginAttemptEither(config, u, job, 0, false, None);
      GivingUpFollows(config, u, job, false, None);
    } else {
      StartControlDoesNotAttempt(config, s, job, drift);
    }
  }

  lemma TurnFollows(config: Config, s: State, drift: nat)
    requires s.worker.Ready?
    ensures Follows(config, VitalsOf(s), VitalsOf(Turn(config, s, drift)), ReportOf(s, WorkerTurn(drift)), false, false)
  {
    if s.closing || s.controls == [] {
      TurnTakesNone(config, s, drift);
    } else {
      TurnTakesControl(config, s, drift);
      TakingFollows(config, s.(controls := s.controls[1..]), s.controls[0], drift);
    }
  }

  /** A failed verification read impairs what the failure of the polls it was to answer left. */
  lemma FailedVerificationFollows(config: Config, s: State, error: ErrorName, verifying: bool)
    ensures var report := if verifying then Impaired(error) else Silent;
            Follows(config, VitalsOf(s), VitalsOf(FailVerification(config, s, error, verifying)), report, false, false)
  {
    OptionalFailureFollows(config, s, error);
  }

  lemma FailedPollsFollow(config: Config, s: State, error: ErrorName, polling: bool)
    ensures var report := if polling then Lost(error) else Silent;
            Follows(config, VitalsOf(s), VitalsOf(FailPolls(config, s, error, polling)), report, false, false)
            && VitalsOf(FailPolls(config, s, error, polling)).(health := s.snapshot.health) == VitalsOf(s)
  {
    FailureFollows(config, s, error, polling);
  }

  lemma FailedSourceReadFollows(config: Config, s: State, error: LsxError)
    requires s.worker.ReadingSource?
    ensures Follows(config, VitalsOf(s), VitalsOf(SourceFailed(config, s, s.worker.reason, error)),
                    ReportOf(s, SourceReplies(Failure(error))), true, false)
  {
    var name := ClientError(error.fault);
    var logged := s.Log(Ended(SourceRead(s.worker.reason), error.writeAttempted));
    var polling := s.worker.reason.Poll? || s.pollPending;
    FailedPollsFollow(config, logged, name, polling);
    FailedVerificationFollows(config, FailPolls(config, logged, name, polling), name, s.worker.reason.Verification?);
  }

  lemma AnsweredSourceReadFollows(config: Config, s: State, status: SourceStatus)
    requires Inv(config, s) && s.worker.ReadingSource?
    ensures var event := SourceReplies(Success(status));
            Follows(config, VitalsOf(s), VitalsOf(SourceArrived(config, s, s.worker.reason, status)),
                    Answered, true, Contradicts(s, event))
  {
    var logged := s.Log(Ended(SourceRead(s.worker.reason), true));
    SuccessFollows(config, ApplySource(logged, status), true);
  }

  lemma VolumeArrivedFollows(config: Config, s: State, status: VolumeStatus)
    ensures Follows(config, VitalsOf(s), VitalsOf(VolumeArrived(config, s, status)), Answered, false, false)
  {
    SuccessFollows(config, ApplyVolume(s, status).(lastVolumeMono := Some(s.now)), false);
  }

  lemma MaintenanceFollows(config: Config, s: State, volume: Result<VolumeStatus, LsxError>)
    requires s.worker.ReadingVolume?
    ensures Follows(config, VitalsOf(s), VitalsOf(Step(config, s, VolumeReplies(volume))),
                    ReportOf(s, VolumeReplies(volume)), false, false)
  {
    match volume
    case Success(status) => VolumeArrivedFollows(config, s.Log(Ended(MaintenanceRead, true)), status);
    case Failure(error) =>
      OptionalFailureFollows(config, s.Log(Ended(MaintenanceRead, error.writeAttempted)), ClientError(error.fault));
  }

  lemma ResolvingFollows(config: Config, s: State, volume: Result<VolumeStatus, LsxError>)
    requires s.worker.Resolving?
    ensures Follows(config, VitalsOf(s), VitalsOf(Step(config, s, VolumeReplies(volume))),
                    ReportOf(s, VolumeReplies(volume)), false, false)
  {
    match volume
    case Success(status) => VolumeArrivedFollows(config, s.Log(Ended(ResolvingRead(s.worker.job.job), true)), status);
    case Failure(error) =>
      FailureFollows(
        config, s.Log(Ended(ResolvingRead(s.worker.job.job), error.writeAttempted)), ClientError(error.fault), true);
  }

  lemma CallersFollow(config: Config, s: State, event: Event)
    requires event.PollState? || event.Cancel? || event.Tick? || event.CloseBegins?
          || event.CloseForces? || event.CloseEnds? || event.WorkerWakes? || event.SubmitCommand?
    ensures Follows(config, VitalsOf(s), VitalsOf(Step(config, s, event)), Silent, false, false)
  {
  }

  lemma StartFollows(config: Config, s: State)
    ensures Follows(config, VitalsOf(s), VitalsOf(StartWorker(s)), Silent, false, false)
  {
  }

  /** Every event changes the health exactly as it reports on the channel. */
  lemma StepFollows(config: Config, s: State, event: Event)
    requires Inv(config, s)
    ensures Follows(config, VitalsOf(s), VitalsOf(Step(config, s, event)), ReportOf(s, event), event.SourceReplies?,
                    Contradicts(s, event))
  {
    match event
    case Start => StartFollows(config, s);
    case SourceReplies(Success(status)) =>
      if s.worker.ReadingSource? {
        StepHearsSource(config, s, status);
        AnsweredSourceReadFollows(config, s, status);
      }
    case SourceReplies(Failure(error)) =>
      if s.worker.ReadingSource? {
        StepFailsSource(config, s, error);
        FailedSourceReadFollows(config, s, error);
      }
    case VolumeReplies(volume) =>
      if s.worker.ReadingVolume? { MaintenanceFollows(config, s, volume); }
      else if s.worker.Resolving? { ResolvingFollows(config, s, volume); }
    case WriteReplies(None) =>
      if s.worker.Writing? {
        StepAcknowledges(config, s);
        AcknowledgementFollows(config, s);
      }
    case WriteReplies(Some(error)) =>
      if s.worker.Writing? {
        StepFailsWrite(config, s, error);
        FailedWriteFollows(config, s, error);
      }
    case WorkerTurn(drift) => if s.worker.Ready? { TurnFollows(config, s, drift); }
    case RetryPauseEnds => if s.worker.Sleeping? { RetryFollows(config, s); }
    case _ => CallersFollow(config, s, event);
  }

  // -------------------------------------------------------------------- whole runs

  lemma HealthFollowsReports(config: Config, start: int, before: seq<Event>, event: Event)
    ensures var s := Run(config, Initial(start), before);
            Follows(config, VitalsOf(s), VitalsOf(Step(config, s, event)), ReportOf(s, event), event.SourceReplies?,
                    Contradicts(s, event))
  {
    Reachable(config, start, before);
    StepFollows(config, Run(config, Initial(start), before), event);
  }

  /** Failures lost in a row, starting from `count`. */
  function LostInARow(config: Config, s: State, events: seq<Event>, count: nat): nat
    decreases |events|
  {
    if events == [] then count
    else
      var now := match ReportOf(s, events[0]) case Answered => 0 case Lost(_) => count + 1 case _ => count;
      LostInARow(config, Step(config, s, events[0]), events[1..], now)
  }

  lemma {:induction false} FailuresAreCountedFrom(config: Config, s: State, events: seq<Event>)
    requires Inv(config, s)
    ensures Run(config, s, events).snapshot.health.consecutiveFailures
         == LostInARow(config, s, events, s.snapshot.health.consecutiveFailures)
    decreases |events|
  {
    if events != [] {
      StepFollows(config, s, events[0]);
      StepKeeps(config, s, events[0]);
      FailuresAreCountedFrom(config, Step(config, s, events[0]), events[1..]);
    }
  }

  /** Over every run the failure count is the number of failures since the speaker last answered. */
  lemma FailuresAreCounted(config: Config, start: int, events: seq<Event>)
    ensures Run(config, Initial(start), events).snapshot.health.consecutiveFailures
         == LostInARow(config, Initial(start), events, 0)
  {
    Reachable(config, start, []);
    FailuresAreCountedFrom(config, Initial(start), events);
  }
}
