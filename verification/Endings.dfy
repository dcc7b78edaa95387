/**
 * What each event does to the control it ends, to those who wait for it, and to the verification
 * plan: stated by the worker's state and the event alone.
 */
module Endings {
  import opened Wrappers
  import opened Protocol
  import opened Client
  import opened Device
  import opened Scheduler
  import opened StepCases
  import opened Invariant
  import opened Accounting
  import opened Waiters
  import opened Guarantees
  import opened World

  // ------------------------------------------------------------ which control ends

  datatype Conclusion =
    | Ongoing
    | Done(job: Control)
    | GivenUp(job: Control, error: ErrorName, wrote: bool)
    | Skipped(job: Control)

  predicate Abandoned(s: State, job: Control) {
    forall w :: w in job.waiters ==> w < |s.futures| && s.futures[w].outcome == Cancelled
  }

  /** The control changes the level and the level is not known. */
  predicate LevelIsMissing(s: State, job: Control) {
    && job.kind in {VolumeUp, VolumeDown, Mute, Unmute}
    && (s.snapshot.speaker.volume == None || s.snapshot.speaker.muted == None)
  }

  /** What becomes of a control that is taken off the queue now, `drift` before its first attempt. */
  function TakenNow(s: State, job: Control, drift: nat): Conclusion {
    if Abandoned(s, job) then Skipped(job)
    else if s.now >= job.deadline || (!LevelIsMissing(s, job) && s.now + drift >= job.deadline)
    then GivenUp(job, DeadlineExpired, false)
    else Ongoing
  }

  /** The control an event ends, and how. */
  function ConclusionOf(s: State, event: Event): Conclusion {
    match event
    case WriteReplies(None) => if s.worker.Writing? then Done(s.worker.job) else Ongoing
    case WriteReplies(Some(error)) =>
      if s.worker.Writing? && (error.fault.CommandRejected? || s.worker.attempt > 0)
      then GivenUp(s.worker.job, ClientError(error.fault), s.worker.wrote || error.writeAttempted)
      else Ongoing
    case RetryPauseEnds =>
      if s.worker.Sleeping? && s.now >= s.worker.until && (s.closing || s.now >= s.worker.job.deadline)
      then GivenUp(s.worker.job, ClientError(s.worker.failure.fault), s.worker.wrote)
      else Ongoing
    case VolumeReplies(Failure(error)) =>
      if s.worker.Resolving? then GivenUp(s.worker.job, ClientError(error.fault), error.writeAttempted) else Ongoing
    case WorkerTurn(drift) =>
      if s.worker == Ready && !s.closing && s.controls != [] then TakenNow(s, s.controls[0], drift) else Ongoing
    case _ => Ongoing
  }

  // -------------------------------------------------------- what the waiters are given

  /** The control's waiters that were pending have this outcome, and no other future changed. */
  predicate Delivered(before: seq<Future>, after: seq<Future>, job: Control, outcome: Outcome) {
    && |after| == |before|
    && forall w :: 0 <= w < |before| ==>
         after[w]
           == if w in job.waiters && before[w].outcome == Pending then Future(before[w].owner, outcome) else before[w]
  }

  /** The worker is free, the result is published, and everybody who waited has the outcome. */
  predicate SettledAs(s: State, t: State, job: Control, result: CommandResult, outcome: Outcome) {
    && t.worker == Ready && t.snapshot.lastCommand == Some(result)
    && Delivered(s.futures, t.futures, job, outcome)
  }

  /** The end of a control as its callers see it. */
  predicate Tells(s: State, t: State, conclusion: Conclusion) {
    match conclusion
    case Ongoing => true
    case Done(job) =>
      SettledAs(s, t, job, CommandResult(job.job, job.kind, true, true, true, None, None), Resolved(t.snapshot))
    case GivenUp(job, error, wrote) =>
      SettledAs(s, t, job, CommandResult(job.job, job.kind, true, wrote, false, None, Some(error)), Raised(error))
    case Skipped(_) => t.worker == Ready && t.snapshot == s.snapshot && t.futures == s.futures
  }

  // ---------------------------------------------------------------- what is planned

  /** A verification of the control is planned: after the first delay, for the state the control asked for. */
  predicate Plans(config: Config, s: State, job: Control, plan: Plan) {
    && plan.attempt == 0 && plan.due == Some(s.now + config.timing.verificationDelays[0])
    && plan.kind == Some(job.kind) && plan.expected.Some?
    && plan.expected.value.powerOn == Some(job.kind != TurnOff)
    && plan.expected.value.source
         == if job.kind == TurnOff then s.snapshot.speaker.source
            else if job.value.SourceValue? then Some(job.value.source) else None
  }

  predicate SwitchesSource(job: Control) { job.kind in {TurnOn, TurnOff, SelectSource} }

  /** The control may have reached the speaker, and there is a source to verify. */
  predicate ToBeVerified(conclusion: Conclusion) {
    match conclusion
    case Done(job) => SwitchesSource(job)
    case GivenUp(job, error, wrote) =>
      SwitchesSource(job) && wrote && !(error.ClientError? && error.fault.CommandRejected?)
    case _ => false
  }

  predicate PlansFor(config: Config, s: State, t: State, conclusion: Conclusion) {
    if ToBeVerified(conclusion) then Plans(config, s, conclusion.job, t.plan) else t.plan == s.plan
  }

  // -------------------------------------------------------------------- each ending

  lemma Completing(futures: seq<Future>, job: Control, outcome: Outcome)
    ensures Delivered(futures, Complete(futures, job.waiters, outcome), job, outcome)
  {
  }

  lemma AcknowledgementEnds(config: Config, s: State)
    requires s.worker.Writing?
    ensures var t := WriteAcknowledged(config, s);
            Tells(s, t, Done(s.worker.job)) && PlansFor(config, s, t, Done(s.worker.job))
  {
    Completing(s.futures, s.worker.job, Resolved(WriteAcknowledged(config, s).snapshot));
  }

  lemma ReportingEnds(config: Config, s: State, job: Control, wrote: bool, error: Option<LsxError>)
    ensures var name := if error.Some? then ClientError(error.value.fault) else DeadlineExpired;
            var t := ReportFailure(config, s, job, wrote, error);
            Tells(s, t, GivenUp(job, name, error.Some? && wrote)) && t.plan == s.plan
  {
    Completing(s.futures, job, Raised(if error.Some? then ClientError(error.value.fault) else DeadlineExpired));
  }

  lemma GivingUpEnds(config: Config, s: State, job: Control, wrote: bool, error: Option<LsxError>)
    ensures var name := if error.Some? then ClientError(error.value.fault) else DeadlineExpired;
            var t := FinishAttempts(config, s, job, wrote, error);
            var conclusion := GivenUp(job, name, error.Some? && wrote);
            Tells(s, t, conclusion) && PlansFor(config, s, t, conclusion)
  {
    ReportingEnds(config, s, job, wrote, error);
  }

  lemma RejectionEnds(config: Config, s: State, job: Control, wrote: bool, error: LsxError)
    ensures var t := WriteRejected(config, s, job, wrote, error);
            var conclusion := GivenUp(job, ClientError(error.fault), wrote);
            Tells(s, t, conclusion) && PlansFor(config, s, t, conclusion)
  {
    GivingUpEnds(config, RecordSuccess(config, s, false), job, wrote, Some(error));
  }

  lemma SecondFailureEnds(config: Config, s: State, job: Control, attempt: nat, wrote: bool, error: LsxError)
    requires !error.fault.CommandRejected?
    ensures var t := AttemptFailed(config, s, job, attempt, wrote, error);
            var conclusion := if attempt > 0 then GivenUp(job, ClientError(error.fault), wrote) else Ongoing;
            Tells(s, t, conclusion) && PlansFor(config, s, t, conclusion)
  {
    if attempt > 0 {
      GivingUpEnds(config, s, job, wrote, Some(error));
    }
  }

  lemma AfterFailureEnds(config: Config, s: State, wrote: bool, error: LsxError)
    requires s.worker.Writing?
    ensures var t, job := AfterFailure(config, s, wrote, error), s.worker.job;
            var given := error.fault.CommandRejected? || s.worker.attempt > 0;
            var conclusion := if given then GivenUp(job, ClientError(error.fault), wrote) else Ongoing;
            Tells(s, t, conclusion) && PlansFor(config, s, t, conclusion)
  {
    if error.fault.CommandRejected? {
      RejectionEnds(config, s, s.worker.job, wrote, error);
    } else {
      SecondFailureEnds(config, s, s.worker.job, s.worker.attempt, wrote, error);
    }
  }

  /** What was recorded before makes no difference to an ending. */
  lemma RecordsEndNothing(config: Config, s: State, history: History, t: State, conclusion: Conclusion)
    requires !conclusion.Skipped?
    requires var u := s.(history := history); Tells(u, t, conclusion) && PlansFor(config, u, t, conclusion)
    ensures Tells(s, t, conclusion) && PlansFor(config, s, t, conclusion)
  {
  }

  lemma FailedAttemptEnds(config: Config, s: State, error: LsxError)
    requires s.worker.Writing?
    ensures var t, conclusion := WriteFailed(config, s, error), ConclusionOf(s, WriteReplies(Some(error)));
            Tells(s, t, conclusion) && PlansFor(config, s, t, conclusion)
  {
    var u := s.Log(Ended(WriteOf(s.worker), error.writeAttempted));
    WriteFailedIsAfterFailure(config, s, error);
    AfterFailureEnds(config, u, s.worker.wrote || error.writeAttempted, error);
    RecordsEndNothing(
      config, s, u.history, WriteFailed(config, s, error), ConclusionOf(s, WriteReplies(Some(error))));
  }

  lemma FailedReadEnds(config: Config, s: State, error: LsxError)
    requires s.worker.Resolving? && s.worker.job.kind.IsRelative()
    ensures var t := ResolvingFailed(config, s, s.worker.job, error);
            var conclusion := GivenUp(s.worker.job, ClientError(error.fault), error.writeAttempted);
            Tells(s, t, conclusion) && PlansFor(config, s, t, conclusion)
  {
    Completing(s.futures, s.worker.job, Raised(ClientError(error.fault)));
  }

  lemma PauseEnds(config: Config, s: State)
    requires s.worker.Sleeping?
    ensures var t := Step(config, s, RetryPauseEnds);
            var conclusion := ConclusionOf(s, RetryPauseEnds);
            Tells(s, t, conclusion) && PlansFor(config, s, t, conclusion)
  {
    var job, wrote, error := s.worker.job, s.worker.wrote, Some(s.worker.failure);
    BeginAttemptEither(config, s, job, 1, wrote, error);
    GivingUpEnds(config, s, job, wrote, error);
  }

  lemma FirstAttemptEnds(config: Config, s: State, job: Control, drift: nat)
    requires StartsAttempt(s, job)
    ensures var t, conclusion := StartControl(config, s, job, drift), TakenNow(s, job, drift);
            Tells(s, t, conclusion) && t.plan == s.plan
  {
    var u := s.(now := s.now + drift);
    StartControlAttempts(config, s, job, drift);
    BeginAttemptEither(config, u, job, 0, false, None);
    GivingUpEnds(config, u, job, false, None);
  }

  /** A control that is taken off the queue and ends there, or starts an exchange. */
  lemma TakingEnds(config: Config, s: State, job: Control, drift: nat)
    ensures var t, conclusion := StartControl(config, s, job, drift), TakenNow(s, job, drift);
            Tells(s, t, conclusion) && t.plan == s.plan
  {
    if StartsAttempt(s, job) {
      FirstAttemptEnds(config, s, job, drift);
    } else {
      UntriedEnds(config, s, job, drift);
    }
  }

  lemma UntriedEnds(config: Config, s: State, job: Control, drift: nat)
    requires !StartsAttempt(s, job)
    ensures var t, conclusion := StartControl(config, s, job, drift), TakenNow(s, job, drift);
            Tells(s, t, conclusion) && t.plan == s.plan
  {
    StartControlDoesNotAttempt(config, s, job, drift);
    ExpiryEnds(s, job);
    SkippingEnds(s, job);
  }

  lemma ExpiryEnds(s: State, job: Control)
    ensures var t := FinishControlError(s, job, DeadlineExpired, false);
            Tells(s, t, GivenUp(job, DeadlineExpired, false)) && t.plan == s.plan
  {
    Completing(s.futures, job, Raised(DeadlineExpired));
  }

  lemma SkippingEnds(s: State, job: Control)
    ensures Tells(s, DropControl(s, job), Skipped(job)) && DropControl(s, job).plan == s.plan
    ensures ResolveVolume(s, job).plan == s.plan
  {
  }

  lemma TurnEnds(config: Config, s: State, drift: nat)
    requires s.worker.Ready?
    ensures var t, conclusion := Turn(config, s, drift), ConclusionOf(s, WorkerTurn(drift));
            Tells(s, t, conclusion) && PlansFor(config, s, t, conclusion)
  {
    if s.closing || s.controls == [] {
      TurnTakesNone(config, s, drift);
    } else {
      TurnTakesControl(config, s, drift);
      TakingEnds(config, s.(controls := s.controls[1..]), s.controls[0], drift);
    }
  }

  /** Events that take up or drop a plan by themselves: a submission, closing, and an answer to a read. */
  predicate Replans(event: Event) { event.SubmitCommand? || event.CloseBegins? || event.SourceReplies? }

  lemma CallersEndNothing(config: Config, s: State, event: Event)
    requires event.Start? || event.PollState? || event.Cancel? || event.Tick? || event.CloseForces? || event.CloseEnds?
          || event.WorkerWakes?
    ensures Step(config, s, event).plan == s.plan
  {
  }

  lemma VolumeReadEnds(config: Config, s: State, volume: Result<VolumeStatus, LsxError>)
    requires s.worker.Resolving? ==> s.worker.job.kind.IsRelative()
    ensures var t, conclusion := Step(config, s, VolumeReplies(volume)), ConclusionOf(s, VolumeReplies(volume));
            Tells(s, t, conclusion) && PlansFor(config, s, t, conclusion)
  {
    if s.worker.Resolving? && volume.Failure? {
      FailedReadEnds(config, s, volume.error);
    }
  }

  /**
   * Every event ends exactly the control that the worker's state and the event say, with the
   * outcome delivered to exactly its pending waiters and published; and a verification is
   * planned exactly when the control may have switched the speaker's source.
   */
  lemma StepEnds(config: Config, s: State, event: Event)
    requires s.worker.Resolving? ==> s.worker.job.kind.IsRelative()
    ensures var t, conclusion := Step(config, s, event), ConclusionOf(s, event);
            Tells(s, t, conclusion) && (Replans(event) || PlansFor(config, s, t, conclusion))
  {
    match event
    case WriteReplies(None) =>
      if s.worker.Writing? {
        StepAcknowledges(config, s);
        AcknowledgementEnds(config, s);
      }
    case WriteReplies(Some(error)) =>
      if s.worker.Writing? {
        StepFailsWrite(config, s, error);
        FailedAttemptEnds(config, s, error);
      }
    case RetryPauseEnds => if s.worker.Sleeping? { PauseEnds(config, s); }
    case VolumeReplies(volume) => VolumeReadEnds(config, s, volume);
    case WorkerTurn(drift) => if s.worker.Ready? { TurnEnds(config, s, drift); }
    case _ => if !Replans(event) { CallersEndNothing(config, s, event); }
  }

  lemma EventsEndControls(config: Config, start: int, before: seq<Event>, event: Event)
    ensures var s := Run(config, Initial(start), before);
            var t, conclusion := Step(config, s, event), ConclusionOf(s, event);
            Tells(s, t, conclusion) && (Replans(event) || PlansFor(config, s, t, conclusion))
  {
    Reachable(config, start, before);
    StepEnds(config, Run(config, Initial(start), before), event);
  }

  // ------------------------------------------------------ nothing else is delivered

  /** No control's future is done, except by cancelling it. */
  predicate ToldNobody(before: seq<Future>, after: seq<Future>) {
    && |before| <= |after|
    && forall w :: 0 <= w < |before| && before[w].owner.Some? ==>
         after[w] == before[w] || after[w] == Future(before[w].owner, Cancelled)
  }

  lemma PollsTellNobody(futures: seq<Future>, waiters: seq<nat>, outcome: Outcome, pending: bool)
    requires forall w :: w in waiters ==> w < |futures| && futures[w].owner.None?
    ensures ToldNobody(futures, if pending then Complete(futures, waiters, outcome) else futures)
  {
  }

  lemma CallersTellNobody(config: Config, s: State, event: Event)
    requires event.Start? || event.PollState? || event.Cancel? || event.Tick? || event.CloseForces? || event.CloseEnds?
          || event.WorkerWakes? || event.SubmitCommand?
    ensures ToldNobody(s.futures, Step(config, s, event).futures)
  {
  }

  lemma ClosingTellsNobody(s: State)
    ensures ToldNobody(s.futures, BeginClose(s).futures)
  {
  }

  lemma SourceReadTellsNobody(config: Config, s: State, source: Result<SourceStatus, LsxError>)
    requires PollsSound(s.futures, s.pollWaiters, s.pollPending) && s.worker.ReadingSource?
    ensures ToldNobody(s.futures, Step(config, s, SourceReplies(source)).futures)
  {
    match source
    case Success(status) =>
      var t := SourceArrived(config, s, s.worker.reason, status);
      StepHearsSource(config, s, status);
      PollsTellNobody(s.futures, s.pollWaiters, Resolved(t.snapshot), s.pollPending);
    case Failure(error) =>
      StepFailsSource(config, s, error);
      FailedReadTellsNobody(config, s, s.worker.reason, error);
  }

  lemma FailedReadTellsNobody(config: Config, s: State, reason: Reason, error: LsxError)
    requires PollsSound(s.futures, s.pollWaiters, s.pollPending)
    ensures ToldNobody(s.futures, SourceFailed(config, s, reason, error).futures)
  {
    var logged := s.Log(Ended(SourceRead(reason), error.writeAttempted));
    var polling := reason.Poll? || s.pollPending;
    var failed := RecordPrimaryFailure(config, logged, ClientError(error.fault), polling);
    PollsTellNobody(s.futures, s.pollWaiters, Resolved(failed.snapshot), polling);
  }

  lemma TurnTellsNobody(config: Config, s: State, drift: nat)
    requires s.worker.Ready? && ConclusionOf(s, WorkerTurn(drift)).Ongoing?
    ensures Turn(config, s, drift).futures == s.futures
  {
    if s.closing || s.controls == [] {
      TurnTakesNone(config, s, drift);
    } else {
      TurnTakesControl(config, s, drift);
      OngoingKeepsFutures(config, s.(controls := s.controls[1..]), s.controls[0], drift);
    }
  }

  lemma OngoingKeepsFutures(config: Config, s: State, job: Control, drift: nat)
    requires TakenNow(s, job, drift).Ongoing? && !s.closing
    ensures StartControl(config, s, job, drift).futures == s.futures
  {
    if StartsAttempt(s, job) {
      StartControlAttempts(config, s, job, drift);
      BeginAttemptEither(config, s.(now := s.now + drift), job, 0, false, None);
    } else {
      StartControlDoesNotAttempt(config, s, job, drift);
    }
  }

  /** A control's waiters are given a result only by the event that ends it; else they can only be cancelled. */
  lemma OnlyEndingsDeliver(config: Config, start: int, before: seq<Event>, event: Event)
    requires ConclusionOf(Run(config, Initial(start), before), event).Ongoing?
    ensures var s := Run(config, Initial(start), before);
            ToldNobody(s.futures, Step(config, s, event).futures)
  {
    ReachableIsKept(config, start, before);
    OngoingTellsNobody(config, Run(config, Initial(start), before), event);
  }

  /** Pausing before the second attempt, and starting it, complete nothing. */
  lemma RetryingTellsNobody(config: Config, s: State, event: Event)
    requires (s.worker.Writing? && event.WriteReplies?) || (s.worker.Sleeping? && event.RetryPauseEnds?)
    requires ConclusionOf(s, event).Ongoing?
    ensures Step(config, s, event).futures == s.futures
  {
    if s.worker.Writing? {
      WriteFailedEither(config, s, event.failure.value);
    } else {
      BeginAttemptEither(config, s, s.worker.job, 1, s.worker.wrote, Some(s.worker.failure));
    }
  }

  lemma VolumeReadTellsNobody(config: Config, s: State, status: VolumeStatus)
    ensures MaintenanceArrived(config, s, status).futures == s.futures
    ensures s.worker.Resolving? ==> ResolvingArrived(config, s, s.worker.job, status).futures == s.futures
  {
  }

  lemma FailedMaintenanceTellsNobody(config: Config, s: State, error: LsxError)
    ensures MaintenanceFailed(config, s, error).futures == s.futures
  {
  }

  lemma VolumeRepliesTellNobody(config: Config, s: State, volume: Result<VolumeStatus, LsxError>)
    requires ConclusionOf(s, VolumeReplies(volume)).Ongoing?
    ensures Step(config, s, VolumeReplies(volume)).futures == s.futures
  {
    match volume
    case Success(status) => VolumeReadTellsNobody(config, s, status);
    case Failure(error) => FailedMaintenanceTellsNobody(config, s, error);
  }

  lemma WorkerTellsNobody(config: Config, s: State, event: Event)
    requires event.WriteReplies? || event.RetryPauseEnds? || event.WorkerTurn?
    requires ConclusionOf(s, event).Ongoing?
    ensures Step(config, s, event).futures == s.futures
  {
    match event
    case WorkerTurn(drift) => if s.worker.Ready? { TurnTellsNobody(config, s, drift); }
    case WriteReplies(_) => if s.worker.Writing? { RetryingTellsNobody(config, s, event); }
    case RetryPauseEnds => if s.worker.Sleeping? { RetryingTellsNobody(config, s, event); }
  }

  lemma OngoingTellsNobody(config: Config, s: State, event: Event)
    requires WaitersKept(s) && ConclusionOf(s, event).Ongoing?
    ensures ToldNobody(s.futures, Step(config, s, event).futures)
  {
    match event
    case SourceReplies(source) => if s.worker.ReadingSource? { SourceReadTellsNobody(config, s, source); }
    case VolumeReplies(volume) => VolumeRepliesTellNobody(config, s, volume);
    case WriteReplies(_) => WorkerTellsNobody(config, s, event);
    case RetryPauseEnds => WorkerTellsNobody(config, s, event);
    case WorkerTurn(_) => WorkerTellsNobody(config, s, event);
    case CloseBegins => ClosingTellsNobody(s);
    case _ => CallersTellNobody(config, s, event);
  }
}
