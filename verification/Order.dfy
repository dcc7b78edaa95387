/** Controls run in the order they were accepted, also when one is put back in front. */
module Order {
  import opened Wrappers
  import opened Protocol
  import opened Client
  import opened Scheduler
  import opened StepCases
  import opened Invariant

  /** The acceptance number of the control that runs or runs next; that of the next submission when none is left. */
  function Front(worker: Worker, controls: seq<Control>, nextJob: nat): nat {
    if worker.HasJob() then worker.job.job else if controls != [] then controls[0].job else nextJob
  }

  predicate MovesOn(s: State, t: State) {
    Front(s.worker, s.controls, s.nextJob) <= Front(t.worker, t.controls, t.nextJob)
  }

  lemma ClosingMovesOn(config: Config, s: State)
    requires Inv(config, s)
    ensures MovesOn(s, BeginClose(s)) && MovesOn(s, ForceStop(s))
  {
  }

  lemma QuietMovesOn(s: State, t: State)
    requires t.controls == s.controls && t.nextJob == s.nextJob
    requires t.worker == s.worker || (!s.worker.HasJob() && !t.worker.HasJob())
    ensures MovesOn(s, t)
  {
  }

  lemma CallersMoveOn(config: Config, s: State, event: Event)
    requires event.Start? || event.PollState? || event.Cancel? || event.Tick?
    ensures MovesOn(s, Step(config, s, event))
  {
    QuietMovesOn(s, Step(config, s, event));
  }

  lemma EndingsMoveOn(config: Config, s: State, event: Event)
    requires Inv(config, s)
    requires event.CloseBegins? || event.CloseForces? || event.CloseEnds? || event.WorkerWakes?
    ensures MovesOn(s, Step(config, s, event))
  {
    match event
    case CloseBegins => ClosingMovesOn(config, s);
    case CloseForces => ClosingMovesOn(config, s);
    case _ => QuietMovesOn(s, Step(config, s, event));
  }

  lemma MergeMovesOn(s: State, value: Value)
    requires s.controls != []
    ensures MovesOn(s, MergeIntoLast(s, value))
  {
  }

  lemma EnqueueMovesOn(config: Config, s: State, kind: Kind, value: Value)
    ensures MovesOn(s, Enqueue(config, s, kind, value))
  {
  }

  lemma SubmissionsMoveOn(config: Config, s: State, kind: Kind, value: Value)
    ensures MovesOn(s, Submit(config, s, kind, value))
  {
    if Judge(s, kind).Admitted? {
      if Merges(s, kind) {
        MergeMovesOn(s, value);
      } else {
        EnqueueMovesOn(config, s, kind, value);
      }
    }
  }

  lemma SourceArrivalMovesOn(config: Config, s: State, reason: Reason, status: SourceStatus)
    requires s.worker.ReadingSource?
    ensures MovesOn(s, SourceArrived(config, s, reason, status))
  {
  }

  lemma SourceFailureMovesOn(config: Config, s: State, reason: Reason, error: LsxError)
    requires s.worker.ReadingSource?
    ensures MovesOn(s, SourceFailed(config, s, reason, error))
  {
  }

  lemma MaintenanceMovesOn(config: Config, s: State, volume: Result<VolumeStatus, LsxError>)
    requires s.worker.ReadingVolume?
    ensures volume.Success? ==> MovesOn(s, MaintenanceArrived(config, s, volume.value))
    ensures volume.Failure? ==> MovesOn(s, MaintenanceFailed(config, s, volume.error))
  {
  }

  /** The control put back is still the oldest one. */
  lemma ResolutionMovesOn(config: Config, s: State, volume: Result<VolumeStatus, LsxError>)
    requires Inv(config, s) && s.worker.Resolving?
    ensures volume.Success? ==> MovesOn(s, ResolvingArrived(config, s, s.worker.job, volume.value))
    ensures volume.Failure? ==> MovesOn(s, ResolvingFailed(config, s, s.worker.job, volume.error))
  {
  }

  /** What the worker does with a control that is older than the whole queue. */
  lemma FinishingMovesOn(config: Config, s: State, job: Control, wrote: bool, error: Option<LsxError>)
    requires Precedes(job.job, s.controls, s.nextJob)
    ensures var t := FinishAttempts(config, s, job, wrote, error);
            job.job <= Front(t.worker, t.controls, t.nextJob)
  {
  }

  lemma AttemptsMoveOn(config: Config, s: State, job: Control, attempt: nat, wrote: bool, error: Option<LsxError>)
    requires Precedes(job.job, s.controls, s.nextJob)
    ensures var t := BeginAttempt(config, s, job, attempt, wrote, error);
            job.job <= Front(t.worker, t.controls, t.nextJob)
  {
    BeginAttemptEither(config, s, job, attempt, wrote, error);
    FinishingMovesOn(config, s, job, wrote, error);
  }

  lemma TurnsMoveOn(config: Config, s: State, drift: nat)
    requires Inv(config, s) && s.worker.Ready?
    ensures MovesOn(s, Turn(config, s, drift))
  {
    if s.closing || s.controls == [] {
      TurnTakesNone(config, s, drift);
    } else {
      TurnTakesControl(config, s, drift);
      TakingKeepsQueue(config, s.controls, s.nextJob);
      var u, job := s.(controls := s.controls[1..]), s.controls[0];
      if StartsAttempt(u, job) {
        StartControlAttempts(config, u, job, drift);
        AttemptsMoveOn(config, u.(now := u.now + drift), job, 0, false, None);
      } else {
        StartControlDoesNotAttempt(config, u, job, drift);
      }
    }
  }

  lemma AcknowledgementsMoveOn(config: Config, s: State)
    requires Inv(config, s) && s.worker.Writing?
    ensures MovesOn(s, WriteAcknowledged(config, s))
  {
  }

  lemma RejectionMovesOn(config: Config, s: State, job: Control, wrote: bool, error: LsxError)
    requires Precedes(job.job, s.controls, s.nextJob)
    ensures var t := WriteRejected(config, s, job, wrote, error);
            job.job <= Front(t.worker, t.controls, t.nextJob)
  {
    FinishingMovesOn(config, RecordSuccess(config, s, false), job, wrote, Some(error));
  }

  lemma AttemptFailureMovesOn(config: Config, s: State, job: Control, attempt: nat, wrote: bool, error: LsxError)
    requires Precedes(job.job, s.controls, s.nextJob)
    ensures var t := AttemptFailed(config, s, job, attempt, wrote, error);
            job.job <= Front(t.worker, t.controls, t.nextJob)
  {
    FinishingMovesOn(config, s, job, wrote, Some(error));
  }

  lemma FailureMovesOn(config: Config, s: State, wrote: bool, error: LsxError)
    requires s.worker.Writing? && Precedes(s.worker.job.job, s.controls, s.nextJob)
    ensures MovesOn(s, AfterFailure(config, s, wrote, error))
  {
    if error.fault.CommandRejected? {
      RejectionMovesOn(config, s, s.worker.job, wrote, error);
    } else {
      AttemptFailureMovesOn(config, s, s.worker.job, s.worker.attempt, wrote, error);
    }
  }

  lemma FailuresMoveOn(config: Config, s: State, error: LsxError)
    requires Inv(config, s) && s.worker.Writing?
    ensures MovesOn(s, WriteFailed(config, s, error))
  {
    WriteFailedIsAfterFailure(config, s, error);
    FailureMovesOn(
      config, s.Log(Ended(WriteOf(s.worker), error.writeAttempted)), s.worker.wrote || error.writeAttempted, error);
  }

  lemma ReadStepsMoveOn(config: Config, s: State, event: Event)
    requires Inv(config, s) && (event.SourceReplies? || event.VolumeReplies?)
    ensures MovesOn(s, Step(config, s, event))
  {
    match event
    case SourceReplies(Success(status)) =>
      if s.worker.ReadingSource? { SourceArrivalMovesOn(config, s, s.worker.reason, status); }
    case SourceReplies(Failure(error)) =>
      if s.worker.ReadingSource? { SourceFailureMovesOn(config, s, s.worker.reason, error); }
    case VolumeReplies(volume) =>
      if s.worker.ReadingVolume? { MaintenanceMovesOn(config, s, volume); }
      else if s.worker.Resolving? { ResolutionMovesOn(config, s, volume); }
  }

  lemma StepMovesOn(config: Config, s: State, event: Event)
    requires Inv(config, s)
    ensures MovesOn(s, Step(config, s, event))
  {
    match event
    case SubmitCommand(command) => SubmissionsMoveOn(config, s, KindOf(command), ValueOf(config, command));
    case SourceReplies(_) => ReadStepsMoveOn(config, s, event);
    case VolumeReplies(_) => ReadStepsMoveOn(config, s, event);
    case WorkerTurn(drift) => if s.worker.Ready? { TurnsMoveOn(config, s, drift); }
    case WriteReplies(None) => if s.worker.Writing? { AcknowledgementsMoveOn(config, s); }
    case WriteReplies(Some(error)) => if s.worker.Writing? { FailuresMoveOn(config, s, error); }
    case RetryPauseEnds =>
      if s.worker.Sleeping? {
        AttemptsMoveOn(config, s, s.worker.job, 1, s.worker.wrote, Some(s.worker.failure));
      }
    case _ =>
      if event.Start? || event.PollState? || event.Cancel? || event.Tick? { CallersMoveOn(config, s, event); }
      else { EndingsMoveOn(config, s, event); }
  }

  lemma {:induction false} RunMovesOn(config: Config, s: State, events: seq<Event>)
    requires Inv(config, s)
    ensures MovesOn(s, Run(config, s, events))
    decreases |events|
  {
    if events != [] {
      StepMovesOn(config, s, events[0]);
      StepKeeps(config, s, events[0]);
      RunMovesOn(config, Step(config, s, events[0]), events[1..]);
    }
  }

  /** Of two controls the worker is ever with, the one it is with later was not accepted earlier. */
  lemma ControlsRunInAcceptanceOrder(config: Config, start: int, before: seq<Event>, after: seq<Event>)
    requires Run(config, Initial(start), before).worker.HasJob()
    requires Run(config, Run(config, Initial(start), before), after).worker.HasJob()
    ensures var s := Run(config, Initial(start), before);
            s.worker.job.job <= Run(config, s, after).worker.job.job
  {
    Reachable(config, start, before);
    RunMovesOn(config, Run(config, Initial(start), before), after);
  }
}
