/** What the worker turns to, how it retries, and when it reads the volume: stated on the fields of the state. */
module Choices {
  import opened Wrappers
  import opened Protocol
  import opened Client
  import opened Scheduler
  import opened StepCases
  import opened Invariant
  import opened Accounting
  import opened Waiters
  import opened Guarantees
  import opened Endings

  // -------------------------------------------------------------------- one turn

  /** The source of a power command: the preferred one, else the cached one, else optical. */
  function WakeSource(config: Config, s: State): Source {
    if config.preferredWakeSource.Some? then config.preferredWakeSource.value
    else if s.snapshot.speaker.source.Some? then s.snapshot.speaker.source.value
    else Opt
  }

  /** The control with the source it is to switch to. */
  function Chosen(config: Config, s: State, job: Control): Control {
    if job.kind in {TurnOn, TurnOff} then job.(value := SourceValue(WakeSource(config, s))) else job
  }

  /** The worker writes the control for the `attempt`-th time, or cannot encode its standby time. */
  predicate Writes(config: Config, worker: Worker, job: Control, attempt: nat, wrote: bool) {
    if SwitchesSource(job) && config.standby !in [None, Some(20), Some(60)] then worker == Crashed(job)
    else worker.Writing? && worker == Writing(job, attempt, wrote, worker.request)
  }

  /** The worker after a turn at the control `job`, which it takes off the queue. */
  predicate TurnsToControl(config: Config, s: State, worker: Worker, job: Control, drift: nat) {
    if !TakenNow(s, job, drift).Ongoing? then worker == Ready
    else if LevelIsMissing(s, job) then worker == Resolving(job)
    else Writes(config, worker, Chosen(config, s, job), 0, false)
  }

  /** The worker after a turn without a control: verification, poll and maintenance in this order, else sleep. */
  function WithoutControl(s: State): Worker {
    if s.plan.due.Some? && s.now >= s.plan.due.value then ReadingSource(Verification)
    else if s.pollPending then ReadingSource(Poll)
    else if s.maintenancePending then
      if s.snapshot.speaker.powerOn == Some(true) then ReadingVolume else Ready
    else Idle(s.plan.due)
  }

  predicate Sleeps(s: State) {
    && s.controls == [] && !(s.plan.due.Some? && s.now >= s.plan.due.value)
    && !s.pollPending && !s.maintenancePending
  }

  predicate TurnsTo(config: Config, s: State, t: State, drift: nat) {
    if s.closing then t == s.(worker := Stopped)
    else if s.controls != [] then
      t.controls == s.controls[1..] && TurnsToControl(config, s, t.worker, s.controls[0], drift)
    else
      && t.worker == WithoutControl(s) && t.controls == []
      && t.wake == (s.wake && !Sleeps(s))
      && t.maintenancePending == (s.maintenancePending && t.worker.ReadingSource?)
  }

  lemma PreparingChooses(config: Config, s: State, job: Control)
    requires WellFormed(config, job)
    ensures var ready := Prepare(config, s.snapshot.speaker, job);
            && ready == Chosen(config, s, job) && WellFormed(config, ready)
            && ready.kind == job.kind && Prepare(config, s.snapshot.speaker, ready) == ready
  {
  }

  lemma HandingWrites(config: Config, s: State, job: Control, attempt: nat, wrote: bool)
    requires WellFormed(config, job) && VolumeSound(s.snapshot.speaker)
    ensures var t := HandToClient(config, s, Prepare(config, s.snapshot.speaker, job), attempt, wrote);
            Writes(config, t.worker, Chosen(config, s, job), attempt, wrote) && t.controls == s.controls
  {
    PreparingChooses(config, s, job);
    RequestNeverFails(config, s.snapshot.speaker, Prepare(config, s.snapshot.speaker, job));
  }

  lemma AttemptTurns(config: Config, s: State, job: Control, drift: nat)
    requires StartsAttempt(s, job) && WellFormed(config, job) && VolumeSound(s.snapshot.speaker) && !s.closing
    ensures var t := StartControl(config, s, job, drift);
            TurnsToControl(config, s, t.worker, job, drift) && t.controls == s.controls
  {
    var u := s.(now := s.now + drift);
    StartControlAttempts(config, s, job, drift);
    BeginAttemptEither(config, u, job, 0, false, None);
    HandingWrites(config, u, job, 0, false);
  }

  lemma ControlTurns(config: Config, s: State, job: Control, drift: nat)
    requires WellFormed(config, job) && VolumeSound(s.snapshot.speaker) && !s.closing
    ensures var t := StartControl(config, s, job, drift);
            TurnsToControl(config, s, t.worker, job, drift) && t.controls == s.controls
  {
    if StartsAttempt(s, job) {
      AttemptTurns(config, s, job, drift);
    } else {
      StartControlDoesNotAttempt(config, s, job, drift);
    }
  }

  lemma FreeTurns(config: Config, s: State, drift: nat)
    requires s.worker.Ready? && (s.closing || s.controls == [])
    ensures TurnsTo(config, s, Turn(config, s, drift), drift)
  {
    TurnTakesNone(config, s, drift);
  }

  lemma TurnChooses(config: Config, s: State, drift: nat)
    requires Inv(config, s) && s.worker.Ready?
    ensures TurnsTo(config, s, Turn(config, s, drift), drift)
  {
    if s.closing || s.controls == [] {
      FreeTurns(config, s, drift);
    } else {
      TurnTakesControl(config, s, drift);
      ControlTurns(config, s.(controls := s.controls[1..]), s.controls[0], drift);
    }
  }

  /**
   * A turn does what the fields of the state say, and nothing else: it stops when closing, else
   * takes the first control, else reads the source for a due plan, else for a poll, else the
   * volume for a pending maintenance, else sleeps until the plan is due.
   */
  lemma WorkerChooses(config: Config, start: int, before: seq<Event>, drift: nat)
    requires Run(config, Initial(start), before).worker.Ready?
    ensures var s := Run(config, Initial(start), before);
            TurnsTo(config, s, Step(config, s, WorkerTurn(drift)), drift)
  {
    Reachable(config, start, before);
    TurnChooses(config, Run(config, Initial(start), before), drift);
  }

  // ----------------------------------------------------------------------- retry

  /** Nothing changed but the worker and the record of what happened. */
  predicate OnlyWorkerMoved(s: State, t: State) {
    t == s.(worker := t.worker, history := t.history)
  }

  /** A first failure that is no refusal: a pause, no longer than the delay and the time that is left. */
  lemma FirstFailurePauses(config: Config, s: State, error: LsxError)
    requires s.worker.Writing? && s.worker.attempt == 0 && !error.fault.CommandRejected?
    ensures var t, job := Step(config, s, WriteReplies(Some(error))), s.worker.job;
            var left := if job.deadline > s.now then job.deadline - s.now else 0;
            var pause := if config.timing.retryDelay <= left then config.timing.retryDelay else left;
            && OnlyWorkerMoved(s, t)
            && t.worker == Sleeping(job, s.worker.wrote || error.writeAttempted, error, s.now + pause)
  {
    WriteFailedEither(config, s, error);
  }

  /** The pause ends exactly when its time has come; then the same bytes are written once more. */
  lemma SecondAttemptFollows(config: Config, start: int, before: seq<Event>)
    requires var s := Run(config, Initial(start), before);
             s.worker.Sleeping? && !s.closing && s.now < s.worker.job.deadline
    ensures var s := Run(config, Initial(start), before);
            var t, account := Step(config, s, RetryPauseEnds), AccountOf(s.history, s.worker.job.job);
            && OnlyWorkerMoved(s, t) && account.request.Some?
            && t.worker == if s.now < s.worker.until then s.worker
                           else Writing(s.worker.job, 1, s.worker.wrote, account.request.value)
  {
    ReachableIsKept(config, start, before);
    var s := Run(config, Initial(start), before);
    BeginAttemptEither(config, s, s.worker.job, 1, s.worker.wrote, Some(s.worker.failure));
  }

  // ------------------------------------------------------------------ maintenance

  /** A volume is due to be read: none is known, or the last one is old. */
  predicate VolumeIsDue(config: Config, s: State) {
    s.lastVolumeMono == None || s.now - s.lastVolumeMono.value >= config.timing.volumePollInterval
  }

  lemma AnsweredReadPlansMaintenance(config: Config, s: State, status: SourceStatus)
    requires Inv(config, s) && s.worker.ReadingSource?
    ensures var t := SourceArrived(config, s, s.worker.reason, status);
            && (t.maintenancePending <==> status.powerOn && (s.maintenancePending || VolumeIsDue(config, s)))
            && (t.wake <==> s.wake || (status.powerOn && VolumeIsDue(config, s)))
  {
  }

  /**
   * After an answered source read a maintenance read is pending exactly when the speaker is on
   * and one was pending, the volume is not known, or the last volume is as old as the interval.
   */
  lemma MaintenanceIsPlannedExactly(config: Config, start: int, before: seq<Event>, status: SourceStatus)
    requires Run(config, Initial(start), before).worker.ReadingSource?
    ensures var s := Run(config, Initial(start), before);
            var t := Step(config, s, SourceReplies(Success(status)));
            && (t.maintenancePending <==> status.powerOn && (s.maintenancePending || VolumeIsDue(config, s)))
            && (t.wake <==> s.wake || (status.powerOn && VolumeIsDue(config, s)))
            && (s.lastVolumeMono == None <==> s.snapshot.speaker.volume == None)
  {
    Reachable(config, start, before);
    var s := Run(config, Initial(start), before);
    StepHearsSource(config, s, status);
    AnsweredReadPlansMaintenance(config, s, status);
  }

  /** The volume is heard: read, or acknowledged as written. */
  predicate HearsLevel(s: State, event: Event) {
    || (event.VolumeReplies? && event.volume.Success? && (s.worker.ReadingVolume? || s.worker.Resolving?))
    || (event == WriteReplies(None) && s.worker.Writing? && !SwitchesSource(s.worker.job))
  }

  /** The step switches the speaker off, as acknowledged. */
  predicate SwitchedOff(s: State, event: Event) {
    event == WriteReplies(None) && s.worker.Writing? && s.worker.job.kind == TurnOff
  }

  /** When the volume was last heard, and whether its reading is still to be done. */
  predicate KeepsTrack(s: State, t: State, event: Event) {
    && t.lastVolumeMono == (if HearsLevel(s, event) then Some(s.now) else s.lastVolumeMono)
    && (!(event.SourceReplies? && event.source.Success?) && !event.WorkerTurn? ==>
          t.maintenancePending
            == (s.maintenancePending && !SwitchedOff(s, event) && !(event.CloseBegins? && !s.closing)))
  }

  lemma GivingUpKeepsTrack(config: Config, s: State, job: Control, wrote: bool, error: Option<LsxError>)
    ensures var t := FinishAttempts(config, s, job, wrote, error);
            (t.lastVolumeMono, t.maintenancePending) == (s.lastVolumeMono, s.maintenancePending)
  {
  }

  lemma RejectionKeepsTrack(config: Config, s: State, job: Control, wrote: bool, error: LsxError)
    ensures var t := WriteRejected(config, s, job, wrote, error);
            (t.lastVolumeMono, t.maintenancePending) == (s.lastVolumeMono, s.maintenancePending)
  {
    GivingUpKeepsTrack(config, RecordSuccess(config, s, false), job, wrote, Some(error));
  }

  lemma FailureKeepsTrack(config: Config, s: State, job: Control, attempt: nat, wrote: bool, error: LsxError)
    ensures var t := AttemptFailed(config, s, job, attempt, wrote, error);
            (t.lastVolumeMono, t.maintenancePending) == (s.lastVolumeMono, s.maintenancePending)
  {
    GivingUpKeepsTrack(config, s, job, wrote, Some(error));
  }

  lemma FailedWriteKeepsTrack(config: Config, s: State, error: LsxError)
    requires s.worker.Writing?
    ensures KeepsTrack(s, WriteFailed(config, s, error), WriteReplies(Some(error)))
  {
    var u := s.Log(Ended(WriteOf(s.worker), error.writeAttempted));
    var job, wrote := s.worker.job, s.worker.wrote || error.writeAttempted;
    WriteFailedEither(config, s, error);
    RejectionKeepsTrack(config, u, job, wrote, error);
    FailureKeepsTrack(config, u, job, s.worker.attempt, wrote, error);
  }

  lemma WriteKeepsTrack(config: Config, s: State, failure: Option<LsxError>)
    requires s.worker.Writing?
    ensures KeepsTrack(s, Step(config, s, WriteReplies(failure)), WriteReplies(failure))
  {
    match failure
    case None => StepAcknowledges(config, s);
    case Some(error) =>
      StepFailsWrite(config, s, error);
      FailedWriteKeepsTrack(config, s, error);
  }

  lemma AttemptKeepsTrack(config: Config, s: State, job: Control, attempt: nat, wrote: bool, error: Option<LsxError>)
    ensures var t := BeginAttempt(config, s, job, attempt, wrote, error);
            (t.lastVolumeMono, t.maintenancePending) == (s.lastVolumeMono, s.maintenancePending)
  {
    BeginAttemptEither(config, s, job, attempt, wrote, error);
    GivingUpKeepsTrack(config, s, job, wrote, error);
  }

  lemma TurnKeepsTrack(config: Config, s: State, drift: nat)
    requires s.worker.Ready?
    ensures KeepsTrack(s, Turn(config, s, drift), WorkerTurn(drift))
  {
    if s.closing || s.controls == [] {
      TurnTakesNone(config, s, drift);
    } else {
      TurnTakesControl(config, s, drift);
      TakingKeepsTrack(config, s.(controls := s.controls[1..]), s.controls[0], drift);
    }
  }

  lemma TakingKeepsTrack(config: Config, s: State, job: Control, drift: nat)
    ensures StartControl(config, s, job, drift).lastVolumeMono == s.lastVolumeMono
  {
    if StartsAttempt(s, job) {
      StartControlAttempts(config, s, job, drift);
      AttemptKeepsTrack(config, s.(now := s.now + drift), job, 0, false, None);
    } else {
      StartControlDoesNotAttempt(config, s, job, drift);
    }
  }

  lemma SourceReadKeepsTrack(config: Config, s: State, source: Result<SourceStatus, LsxError>)
    requires s.worker.ReadingSource?
    ensures KeepsTrack(s, Step(config, s, SourceReplies(source)), SourceReplies(source))
  {
    match source
    case Success(status) => StepHearsSource(config, s, status);
    case Failure(error) => StepFailsSource(config, s, error);
  }

  lemma MaintenanceKeepsTrack(config: Config, s: State, volume: Result<VolumeStatus, LsxError>)
    requires s.worker.ReadingVolume?
    ensures KeepsTrack(s, Step(config, s, VolumeReplies(volume)), VolumeReplies(volume))
  {
    match volume
    case Success(status) =>
      assert Step(config, s, VolumeReplies(volume)) == MaintenanceArrived(config, s, status);
    case Failure(error) =>
      assert Step(config, s, VolumeReplies(volume)) == MaintenanceFailed(config, s, error);
  }

  lemma ResolvingKeepsTrack(config: Config, s: State, volume: Result<VolumeStatus, LsxError>)
    requires s.worker.Resolving?
    ensures KeepsTrack(s, Step(config, s, VolumeReplies(volume)), VolumeReplies(volume))
  {
    match volume
    case Success(status) =>
      assert Step(config, s, VolumeReplies(volume)) == ResolvingArrived(config, s, s.worker.job, status);
    case Failure(error) =>
      assert Step(config, s, VolumeReplies(volume)) == ResolvingFailed(config, s, s.worker.job, error);
  }

  lemma CallersKeepTrack(config: Config, s: State, event: Event)
    requires event.Start? || event.PollState? || event.Cancel? || event.Tick? || event.CloseBegins?
          || event.CloseForces? || event.CloseEnds? || event.WorkerWakes? || event.SubmitCommand?
    ensures KeepsTrack(s, Step(config, s, event), event)
  {
  }

  /** The time of the last volume moves exactly when one is heard; only switching off or closing drops a reading. */
  lemma VolumeIsTracked(config: Config, s: State, event: Event)
    ensures KeepsTrack(s, Step(config, s, event), event)
  {
    match event
    case SourceReplies(source) => if s.worker.ReadingSource? { SourceReadKeepsTrack(config, s, source); }
    case VolumeReplies(volume) =>
      if s.worker.ReadingVolume? { MaintenanceKeepsTrack(config, s, volume); }
      else if s.worker.Resolving? { ResolvingKeepsTrack(config, s, volume); }
    case WriteReplies(failure) => if s.worker.Writing? { WriteKeepsTrack(config, s, failure); }
    case WorkerTurn(drift) => if s.worker.Ready? { TurnKeepsTrack(config, s, drift); }
    case RetryPauseEnds =>
      if s.worker.Sleeping? {
        AttemptKeepsTrack(config, s, s.worker.job, 1, s.worker.wrote, Some(s.worker.failure));
      }
    case _ => CallersKeepTrack(config, s, event);
  }

  // --------------------------------------------------- reads that must take place

  predicate PlanIsDue(s: State) { s.plan.due.Some? && s.now >= s.plan.due.value }

  lemma AnsweredReadFrees(config: Config, s: State, status: SourceStatus)
    requires s.worker.ReadingSource? && !PlanIsDue(s)
    ensures var t := SourceArrived(config, s, s.worker.reason, status);
            && (t.worker, t.closing, t.controls, t.now, t.plan, t.pollPending)
                 == (Ready, s.closing, s.controls, s.now, s.plan, false)
            && t.snapshot.lastCommand == s.snapshot.lastCommand && t.snapshot.speaker.powerOn == Some(status.powerOn)
  {
  }

  /**
   * With no control to run and no plan due, a source read is followed by a volume read exactly
   * when the speaker is on and one was pending, the volume is not known, or the last one is old.
   */
  lemma VolumeIsReadNextExactly(config: Config, start: int, before: seq<Event>, status: SourceStatus)
    requires var s := Run(config, Initial(start), before);
             s.worker.ReadingSource? && !s.closing && s.controls == [] && !PlanIsDue(s)
    ensures var s := Run(config, Initial(start), before);
            (Run(config, s, [SourceReplies(Success(status))] + [WorkerTurn(0)]).worker == ReadingVolume)
              <==> (status.powerOn && (s.maintenancePending || VolumeIsDue(config, s)))
  {
    Reachable(config, start, before);
    var s := Run(config, Initial(start), before);
    var t := SourceArrived(config, s, s.worker.reason, status);
    StepHearsSource(config, s, status);
    AnsweredReadFrees(config, s, status);
    AnsweredReadPlansMaintenance(config, s, status);
    FreeTurns(config, t, 0);
    RunOne(config, s, SourceReplies(Success(status)), [WorkerTurn(0)]);
    RunOneMore(config, t, WorkerTurn(0));
  }

  /** A read that is answered before the plan is due leaves the plan and the last command alone. */
  lemma EarlyReadVerifiesNothing(config: Config, s: State, status: SourceStatus)
    requires s.worker.ReadingSource? && !PlanIsDue(s)
    ensures var t := Step(config, s, SourceReplies(Success(status)));
            t.plan == s.plan && t.snapshot.lastCommand == s.snapshot.lastCommand
  {
    StepHearsSource(config, s, status);
    AnsweredReadFrees(config, s, status);
  }
}
