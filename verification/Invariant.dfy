/** What every run keeps about the scheduler's own state. */
module Invariant {
  import opened Wrappers
  import opened Protocol
  import opened Client
  import opened Scheduler
  import opened StepCases

  // -------------------------------------------------------------------- queue

  /** Acceptance numbers increase along the queue. */
  predicate InAcceptanceOrder(controls: seq<Control>, nextJob: nat) {
    && (forall i, j :: 0 <= i < j < |controls| ==> controls[i].job < controls[j].job)
    && (forall i :: 0 <= i < |controls| ==> controls[i].job < nextJob)
  }

  /** A control accepted before everything in the queue. */
  predicate Precedes(job: nat, controls: seq<Control>, nextJob: nat) {
    job < nextJob && forall i :: 0 <= i < |controls| ==> job < controls[i].job
  }

  function Load(worker: Worker, controls: seq<Control>): nat {
    |controls| + if worker.HasJob() then 1 else 0
  }

  /** Cached volume and mute are known together, and the volume is a percentage. */
  predicate VolumeSound(speaker: SpeakerState) {
    && (speaker.volume.Some? <==> speaker.muted.Some?)
    && (speaker.volume.Some? ==> 0 <= speaker.volume.value <= 100)
  }

  /** A control carries the value its kind needs. */
  predicate WellFormed(config: Config, job: Control) {
    && (job.kind.SetVolume? ==> job.value.VolumeValue? && 0 <= job.value.percent <= config.maximumVolume)
    && (job.kind.SelectSource? ==> job.value.SourceValue?)
  }

  predicate QueueWellFormed(config: Config, controls: seq<Control>) {
    forall i :: 0 <= i < |controls| ==> WellFormed(config, controls[i])
  }

  /**
   * The active control may be where it is: a volume is read only for a relative command, and
   * what was handed to the client is what the control asks for on the cached state.
   */
  predicate ActiveSound(config: Config, worker: Worker, speaker: SpeakerState) {
    match worker
    case Resolving(job) => WellFormed(config, job) && job.kind.IsRelative()
    case Writing(job, attempt, _, request) =>
      && WellFormed(config, job) && !NeedsVolume(job, speaker) && attempt <= 1
      && Prepare(config, speaker, job) == job && RequestFor(config, speaker, job) == Success(request)
    case Sleeping(job, _, failure, _) =>
      && WellFormed(config, job) && !NeedsVolume(job, speaker) && Prepare(config, speaker, job) == job
      && !failure.fault.CommandRejected?
    case Crashed(_) => !StandbySupported(config.standby)
    case _ => true
  }

  predicate QueueSound(config: Config, controls: seq<Control>, nextJob: nat, speaker: SpeakerState) {
    InAcceptanceOrder(controls, nextJob) && QueueWellFormed(config, controls) && VolumeSound(speaker)
  }

  predicate Sound(config: Config, s: State) {
    && QueueSound(config, s.controls, s.nextJob, s.snapshot.speaker)
    && (s.worker.HasJob() ==> Precedes(s.worker.job.job, s.controls, s.nextJob))
    && Load(s.worker, s.controls) <= QUEUE_CAPACITY + 1
    && ActiveSound(config, s.worker, s.snapshot.speaker)
  }

  // ------------------------------------------------------------------- volume

  function Requeues(history: History): nat {
    match history
    case Nothing => 0
    case Then(before, latest) => Requeues(before) + if latest.Requeued? then 1 else 0
  }

  function LastMaintained(history: History): Option<int> {
    match history
    case Nothing => None
    case Then(before, latest) => if latest.Maintained? then Some(latest.at) else LastMaintained(before)
  }

  /** Consecutive successful maintenance reads are at least `interval` apart. */
  predicate Spaced(history: History, interval: int) {
    match history
    case Nothing => true
    case Then(before, latest) =>
      && Spaced(before, interval)
      && (latest.Maintained? && LastMaintained(before).Some? ==> latest.at - LastMaintained(before).value >= interval)
  }

  /** The volume read in front of a relative command happens while the volume is unknown, so once. */
  predicate RequeueSound(requeues: nat, worker: Worker, volume: Option<int>) {
    && requeues <= 1
    && (requeues == 1 ==> volume.Some?)
    && (worker.Resolving? ==> volume.None?)
  }

  /** A maintenance read is due or running only after the interval, on the clock of the last one. */
  predicate MaintenanceSound(config: Config, s: State, last: Option<int>) {
    && (s.snapshot.speaker.volume.Some? <==> s.lastVolumeMono.Some?)
    && (s.lastVolumeMono.Some? ==> s.lastVolumeMono.value <= s.now)
    && (last.Some? ==> s.lastVolumeMono.Some? && last.value <= s.lastVolumeMono.value)
    && (last.Some? && (s.maintenancePending || s.worker.ReadingVolume?) ==>
          s.now - last.value >= config.timing.volumePollInterval)
    && (s.worker.ReadingVolume? ==> !s.maintenancePending)
  }

  /** After closing began only a control put back after its volume read can be queued. */
  predicate ClosingSound(closing: bool, closed: bool, controls: seq<Control>, requeues: nat) {
    && (closed ==> closing)
    && (closing && controls != [] ==> |controls| == 1 && requeues == 1)
  }

  predicate VolumeKept(config: Config, s: State) {
    && RequeueSound(Requeues(s.history), s.worker, s.snapshot.speaker.volume)
    && MaintenanceSound(config, s, LastMaintained(s.history))
    && Spaced(s.history, config.timing.volumePollInterval)
    && ClosingSound(s.closing, s.closed, s.controls, Requeues(s.history))
  }

  // ------------------------------------------------------------- verification

  predicate Unverified(last: Option<CommandResult>) {
    last.Some? && last.value.verified.None?
  }

  predicate PlanSound(config: Config, plan: Plan, last: Option<CommandResult>) {
    && (plan.kind.Some? <==> plan.expected.Some?)
    && (plan.kind.Some? ==> plan.due.Some? && plan.kind.value.ChangesSource())
    && (plan.due.Some? ==> 0 <= plan.attempt < |config.timing.verificationDelays| && Unverified(last))
  }

  /** A verification read in flight: its plan is due, or was superseded since it started. */
  predicate VerifyingSound(s: State) {
    && Unverified(s.snapshot.lastCommand)
    && (s.plan == NO_PLAN || VerificationDue(s))
  }

  predicate PlanKept(config: Config, s: State) {
    && PlanSound(config, s.plan, s.snapshot.lastCommand)
    && (s.worker == ReadingSource(Verification) ==> VerifyingSound(s))
  }

  // --------------------------------------------------------------------- wake

  /** A worker that sleeps with its event clear has nothing to do but wait for its timer. */
  predicate WakeKept(s: State) {
    s.worker.Idle? && !s.wake ==>
      && s.controls == [] && !s.pollPending && !s.maintenancePending && !s.closing
      && s.worker.timer == s.plan.due
  }

  // ------------------------------------------------------------------- health

  function FailuresSinceSuccess(history: History): nat {
    match history
    case Nothing => 0
    case Then(before, latest) =>
      if latest.Succeeded? then 0
      else FailuresSinceSuccess(before) + if latest.PrimaryFailed? then 1 else 0
  }

  function LastSuccess(history: History): Option<int> {
    match history
    case Nothing => None
    case Then(before, latest) => if latest.Succeeded? then Some(latest.at) else LastSuccess(before)
  }

  predicate IsRecord(entry: Entry) { entry.Succeeded? || entry.PrimaryFailed? || entry.OptionalFailed? }

  /** Enough failures since the last success, and long enough without one, at time `at`. */
  predicate Lost(config: Config, started: int, history: History, at: int) {
    && FailuresSinceSuccess(history) >= config.timing.failureThreshold
    && at - (if LastSuccess(history).Some? then LastSuccess(history).value else started)
         >= config.timing.unavailableAfter
  }

  /** Availability replayed from the recorded successes and failures alone. */
  predicate AvailableBy(config: Config, started: int, history: History) {
    match history
    case Nothing => true
    case Then(before, latest) =>
      if IsRecord(latest) then !Lost(config, started, history, latest.at) else AvailableBy(config, started, before)
  }

  function LastStateRead(history: History): Option<int> {
    match history
    case Nothing => None
    case Then(before, latest) =>
      if latest.Succeeded? && latest.stateRead then Some(latest.at) else LastStateRead(before)
  }

  function LastRecord(history: History): Option<int> {
    match history
    case Nothing => None
    case Then(before, latest) => if IsRecord(latest) then Some(latest.at) else LastRecord(before)
  }

  /** The last source read, or the start, is long ago at time `at`. */
  predicate Aged(config: Config, started: int, history: History, at: int) {
    at - (if LastStateRead(history).Some? then LastStateRead(history).value else started)
      >= config.timing.staleAfter
  }

  /** The age test as it came out at the last recorded success or failure. */
  predicate StaleBy(config: Config, started: int, history: History) {
    LastRecord(history).Some? && Aged(config, started, history, LastRecord(history).value)
  }

  /** A failure or a contradicting read degrades; a success lasts until then unless state is old. */
  predicate DegradedBy(config: Config, started: int, history: History) {
    match history
    case Nothing => false
    case Then(before, latest) =>
      if latest.Succeeded? then Aged(config, started, history, latest.at)
      else if IsRecord(latest) || latest.Contradicted? then true
      else DegradedBy(config, started, before)
  }

  predicate NothingRecorded(history: History) {
    match history
    case Nothing => true
    case Then(before, latest) => !IsRecord(latest) && !latest.Contradicted? && NothingRecorded(before)
  }

  predicate HealthKept(config: Config, s: State) {
    && s.snapshot.health.consecutiveFailures == FailuresSinceSuccess(s.history)
    && s.lastChannelMono == LastSuccess(s.history)
    && s.snapshot.health.available == AvailableBy(config, s.startedMono, s.history)
    && s.lastStateMono == LastStateRead(s.history)
    && s.snapshot.health.stale == StaleBy(config, s.startedMono, s.history)
    && s.snapshot.health.degraded == DegradedBy(config, s.startedMono, s.history)
    && (LastRecord(s.history).Some? ==> LastRecord(s.history).value <= s.now)
    && (s.snapshot.health.consecutiveFailures > 0 ==> s.snapshot.health.degraded)
    && (!s.snapshot.health.available ==> Lost(config, s.startedMono, s.history, s.now))
    && (s.worker.NotStarted? ==> NothingRecorded(s.history))
  }

  lemma {:induction false} UnrecordedIsAvailable(config: Config, started: int, history: History)
    requires NothingRecorded(history)
    ensures (AvailableBy(config, started, history), DegradedBy(config, started, history)) == (true, false)
    ensures (FailuresSinceSuccess(history), LastSuccess(history), LastStateRead(history), LastRecord(history))
         == (0, None, None, None)
  {
    if history.Then? {
      UnrecordedIsAvailable(config, started, history.before);
    }
  }

  // ---------------------------------------------------------------- together

  predicate Inv(config: Config, s: State) {
    var control, volume := Sound(config, s), VolumeKept(config, s);
    var plan, wake, health := PlanKept(config, s), WakeKept(s), HealthKept(config, s);
    control && volume && plan && wake && health
  }

  /** The definitions over histories, at every entry. */
  lemma ReadHistory(config: Config)
    ensures forall h: History, e: Entry {:trigger Then(h, e)} ::
              && Requeues(Then(h, e)) == Requeues(h) + (if e.Requeued? then 1 else 0)
              && LastMaintained(Then(h, e)) == (if e.Maintained? then Some(e.at) else LastMaintained(h))
              && (!e.Maintained? ==>
                    Spaced(Then(h, e), config.timing.volumePollInterval) == Spaced(h, config.timing.volumePollInterval))
    ensures forall h: History, e: Entry {:trigger Then(h, e)} ::
              && FailuresSinceSuccess(Then(h, e))
                   == (if e.Succeeded? then 0 else FailuresSinceSuccess(h) + (if e.PrimaryFailed? then 1 else 0))
              && LastSuccess(Then(h, e)) == (if e.Succeeded? then Some(e.at) else LastSuccess(h))
              && (NothingRecorded(Then(h, e)) <==> NothingRecorded(h) && !IsRecord(e) && !e.Contradicted?)
              && LastStateRead(Then(h, e))
                   == (if e.Succeeded? && e.stateRead then Some(e.at) else LastStateRead(h))
              && LastRecord(Then(h, e)) == (if IsRecord(e) then Some(e.at) else LastRecord(h))
    ensures forall h: History, e: Entry, started: int {:trigger AvailableBy(config, started, Then(h, e))} ::
              AvailableBy(config, started, Then(h, e))
                == if IsRecord(e) then !Lost(config, started, Then(h, e), e.at) else AvailableBy(config, started, h)
    ensures forall h: History, e: Entry, started: int {:trigger DegradedBy(config, started, Then(h, e))} ::
              DegradedBy(config, started, Then(h, e))
                == if e.Succeeded? then Aged(config, started, Then(h, e), e.at)
                   else if IsRecord(e) || e.Contradicted? then true
                   else DegradedBy(config, started, h)
  {
  }

  // ---------------------------------------------------------- callers and clock

  lemma AppendingKeepsQueue(config: Config, before: seq<Control>, after: seq<Control>, nextJob: nat)
    requires InAcceptanceOrder(before, nextJob) && QueueWellFormed(config, before)
    requires |after| == |before| + 1 && after[..|before|] == before
    requires after[|before|].job == nextJob && WellFormed(config, after[|before|])
    ensures InAcceptanceOrder(after, nextJob + 1) && QueueWellFormed(config, after)
  {
    assert forall i :: 0 <= i < |before| ==> after[i] == after[..|before|][i];
  }

  lemma ReplacingLastKeepsQueue(config: Config, before: seq<Control>, after: seq<Control>, nextJob: nat)
    requires InAcceptanceOrder(before, nextJob) && QueueWellFormed(config, before)
    requires |after| == |before| > 0
    requires var last := |before| - 1;
             && after == before[last := after[last]]
             && after[last].job == before[last].job && WellFormed(config, after[last])
    ensures InAcceptanceOrder(after, nextJob) && QueueWellFormed(config, after)
  {
    assert forall i :: 0 <= i < |after| ==> after[i].job == before[i].job;
  }

  lemma MergeKeeps(config: Config, s: State, value: Value)
    requires Inv(config, s) && s.controls != [] && !s.closing
    requires WellFormed(config, s.controls[|s.controls| - 1].(value := value))
    ensures Inv(config, MergeIntoLast(s, value))
  {
    ReadHistory(config);
    ReplacingLastKeepsQueue(config, s.controls, MergeIntoLast(s, value).controls, s.nextJob);
  }

  lemma EnqueueKeeps(config: Config, s: State, kind: Kind, value: Value)
    requires Inv(config, s) && |s.controls| < QUEUE_CAPACITY && !s.closing
    requires WellFormed(config, Control(0, kind, value, 0, []))
    ensures Inv(config, Enqueue(config, s, kind, value))
  {
    ReadHistory(config);
    AppendingKeepsQueue(config, s.controls, Enqueue(config, s, kind, value).controls, s.nextJob);
  }

  lemma SubmitKeeps(config: Config, s: State, kind: Kind, value: Value)
    requires Inv(config, s) && WellFormed(config, Control(0, kind, value, 0, []))
    ensures Inv(config, Submit(config, s, kind, value))
  {
    if Judge(s, kind).Admitted? {
      if Merges(s, kind) {
        MergeKeeps(config, s, value);
      } else {
        EnqueueKeeps(config, s, kind, value);
      }
    }
  }

  lemma PollKeeps(config: Config, s: State)
    requires Inv(config, s)
    ensures Inv(config, PollOnce(s))
  {
  }

  lemma CancelKeeps(config: Config, s: State, waiter: nat)
    requires Inv(config, s)
    ensures Inv(config, CancelWaiter(s, waiter))
  {
  }

  lemma CloseKeeps(config: Config, s: State)
    requires Inv(config, s)
    ensures Inv(config, BeginClose(s))
  {
  }

  lemma ForceKeeps(config: Config, s: State)
    requires Inv(config, s)
    ensures Inv(config, ForceStop(s))
  {
  }

  lemma CallerKeeps(config: Config, s: State, event: Event)
    requires Inv(config, s)
    requires event.PollState? || event.Cancel? || event.CloseBegins? || event.CloseForces? || event.CloseEnds?
          || event.WorkerWakes?
    ensures Inv(config, Step(config, s, event))
  {
    match event
    case PollState => PollKeeps(config, s);
    case Cancel(waiter) => CancelKeeps(config, s, waiter);
    case CloseBegins => CloseKeeps(config, s);
    case CloseForces => ForceKeeps(config, s);
    case _ =>
  }

  lemma TickKeeps(config: Config, s: State, elapsed: nat)
    requires Inv(config, s)
    ensures Inv(config, s.(now := s.now + elapsed))
  {
  }

  lemma StartKeeps(config: Config, s: State)
    requires Inv(config, s)
    ensures Inv(config, StartWorker(s))
  {
    if s.worker.NotStarted? {
      UnrecordedIsAvailable(config, s.startedMono, s.history);
      UnrecordedIsAvailable(config, s.now, s.history);
    }
  }

  // -------------------------------------------------------------------- reads

  lemma HearingSourceKeeps(config: Config, s: State, status: SourceStatus)
    requires Inv(config, s) && s.worker.ReadingSource?
    ensures Inv(config, RecordSuccess(config, ApplySource(s, status), true))
  {
    ReadHistory(config);
  }

  lemma ConcludingKeeps(config: Config, s: State, reason: Reason)
    requires Inv(config, s) && s.worker == ReadingSource(reason)
    ensures Inv(config, CompleteVerification(config, s, VerificationConcluded(s, reason)).(worker := Ready))
  {
    ReadHistory(config);
  }

  /** What a source read does last: it answers polls and plans the next volume read. */
  lemma AnsweringKeeps(config: Config, s: State, status: SourceStatus)
    requires Inv(config, s.(worker := Ready))
    ensures var polled := ResolvePolls(s, s.pollPending);
            var maintain := status.powerOn && MaintenanceDue(config, polled);
            Inv(config, polled.(
              maintenancePending := maintain || (status.powerOn && polled.maintenancePending),
              wake := maintain || polled.wake, worker := Ready))
  {
  }

  lemma SourceArrivedKeeps(config: Config, s: State, reason: Reason, status: SourceStatus)
    requires Inv(config, s) && s.worker == ReadingSource(reason)
    ensures Inv(config, SourceArrived(config, s, reason, status))
  {
    var logged := s.Log(Ended(SourceRead(reason), true));
    var heard := RecordSuccess(config, ApplySource(logged, status), true);
    LoggingKeeps(config, s, SourceRead(reason), true);
    HearingSourceKeeps(config, logged, status);
    ConcludingKeeps(config, heard, reason);
    AnsweringKeeps(config, CompleteVerification(config, heard, VerificationConcluded(heard, reason)), status);
  }

  lemma FailPollsKeeps(config: Config, s: State, error: ErrorName, polling: bool)
    requires Inv(config, s) && s.worker.ReadingSource?
    ensures Inv(config, FailPolls(config, s, error, polling))
  {
    ReadHistory(config);
  }

  lemma FailVerificationKeeps(config: Config, s: State, error: ErrorName, reason: Reason)
    requires Inv(config, s) && s.worker == ReadingSource(reason)
    ensures Inv(config, FailVerification(config, s, error, reason.Verification?))
  {
    ReadHistory(config);
  }

  lemma LoggingKeeps(config: Config, s: State, exchange: Exchange, wrote: bool)
    requires Inv(config, s)
    ensures Inv(config, s.Log(Ended(exchange, wrote)))
  {
    ReadHistory(config);
  }

  lemma SourceFailedKeeps(config: Config, s: State, reason: Reason, error: LsxError)
    requires Inv(config, s) && s.worker == ReadingSource(reason)
    ensures Inv(config, SourceFailed(config, s, reason, error))
  {
    var name := ClientError(error.fault);
    var logged := s.Log(Ended(SourceRead(reason), error.writeAttempted));
    var polled := FailPolls(config, logged, name, reason.Poll? || s.pollPending);
    LoggingKeeps(config, s, SourceRead(reason), error.writeAttempted);
    FailPollsKeeps(config, logged, name, reason.Poll? || s.pollPending);
    FailVerificationKeeps(config, polled, name, reason);
  }

  lemma MaintenanceArrivedKeeps(config: Config, s: State, status: VolumeStatus)
    requires Inv(config, s) && s.worker.ReadingVolume?
    ensures Inv(config, MaintenanceArrived(config, s, status))
  {
    ReadHistory(config);
  }

  lemma MaintenanceFailedKeeps(config: Config, s: State, error: LsxError)
    requires Inv(config, s) && s.worker.ReadingVolume?
    ensures Inv(config, MaintenanceFailed(config, s, error))
  {
    ReadHistory(config);
  }

  /** A resolved relative command goes back in front of controls that are all younger. */
  lemma ResolvingKeeps(config: Config, s: State, volume: Result<VolumeStatus, LsxError>)
    requires Inv(config, s) && s.worker.Resolving?
    ensures volume.Success? ==> Inv(config, ResolvingArrived(config, s, s.worker.job, volume.value))
    ensures volume.Failure? ==> Inv(config, ResolvingFailed(config, s, s.worker.job, volume.error))
  {
    match volume
    case Success(_) =>
      ReadHistory(config);
      PrependingKeepsQueue(config, s.worker.job, s.controls, s.nextJob);
    case Failure(error) =>
      LoggingKeepsHolding(config, s, s.worker.job, ResolvingRead(s.worker.job.job), error.writeAttempted);
      TellingKeeps(
        config, s.Log(Ended(ResolvingRead(s.worker.job.job), error.writeAttempted)), s.worker.job,
        ClientError(error.fault), true, error.writeAttempted);
  }

  lemma PrependingKeepsQueue(config: Config, job: Control, controls: seq<Control>, nextJob: nat)
    requires InAcceptanceOrder(controls, nextJob) && QueueWellFormed(config, controls)
    requires Precedes(job.job, controls, nextJob) && WellFormed(config, job)
    ensures InAcceptanceOrder([job] + controls, nextJob) && QueueWellFormed(config, [job] + controls)
  {
  }

  // ----------------------------------------------------------------- controls

  /** The worker holds a control it took off the queue. */
  predicate Holding(config: Config, s: State, job: Control) {
    && QueueSound(config, s.controls, s.nextJob, s.snapshot.speaker)
    && Precedes(job.job, s.controls, s.nextJob) && |s.controls| <= QUEUE_CAPACITY && WellFormed(config, job)
    && VolumeKept(config, s) && PlanSound(config, s.plan, s.snapshot.lastCommand) && HealthKept(config, s)
    && (s.worker.Ready? || s.worker.Resolving? || s.worker.Writing? || s.worker.Sleeping?)
  }

  lemma DropKeeps(config: Config, s: State, job: Control)
    requires Holding(config, s, job)
    ensures Inv(config, DropControl(s, job))
  {
    ReadHistory(config);
  }

  lemma ErrorKeeps(config: Config, s: State, job: Control, error: ErrorName, wrote: bool)
    requires Holding(config, s, job)
    ensures Inv(config, FinishControlError(s, job, error, wrote))
  {
    ReadHistory(config);
  }

  lemma ResolveKeeps(config: Config, s: State, job: Control)
    requires Holding(config, s, job) && NeedsVolume(job, s.snapshot.speaker)
    ensures Inv(config, ResolveVolume(s, job))
  {
    ReadHistory(config);
  }

  lemma TellingKeeps(config: Config, s: State, job: Control, error: ErrorName, counts: bool, wrote: bool)
    requires Holding(config, s, job)
    ensures Inv(config, FinishControlError(RecordPrimaryFailure(config, s, error, counts), job, error, wrote))
  {
    FailingKeepsHolding(config, s, job, error, counts);
    ErrorKeeps(config, RecordPrimaryFailure(config, s, error, counts), job, error, wrote);
  }

  lemma ReportFailureKeeps(config: Config, s: State, job: Control, wrote: bool, error: Option<LsxError>)
    requires Holding(config, s, job)
    ensures Inv(config, ReportFailure(config, s, job, wrote, error))
  {
    match error
    case None => TellingKeeps(config, s, job, DeadlineExpired, true, false);
    case Some(e) => TellingKeeps(config, s, job, ClientError(e.fault), !e.fault.CommandRejected?, wrote);
  }

  lemma FinishAttemptsKeeps(config: Config, s: State, job: Control, wrote: bool, error: Option<LsxError>)
    requires Holding(config, s, job)
    ensures Inv(config, FinishAttempts(config, s, job, wrote, error))
  {
    ReportFailureKeeps(config, s, job, wrote, error);
    PlanningKeeps(
      config, ReportFailure(config, s, job, wrote, error), FinishAttempts(config, s, job, wrote, error).plan);
  }

  lemma FailingKeepsHolding(config: Config, s: State, job: Control, error: ErrorName, counts: bool)
    requires Holding(config, s, job)
    ensures Holding(config, RecordPrimaryFailure(config, s, error, counts), job)
  {
    ReadHistory(config);
  }

  lemma PlanningKeeps(config: Config, s: State, plan: Plan)
    requires Inv(config, s) && s.worker.Ready? && PlanSound(config, plan, s.snapshot.lastCommand)
    ensures Inv(config, s.(plan := plan))
  {
  }

  lemma RequestNeverFails(config: Config, speaker: SpeakerState, job: Control)
    requires VolumeSound(speaker) && WellFormed(config, job) && Prepare(config, speaker, job) == job
    ensures RequestFor(config, speaker, job).Failure? <==> job.kind.ChangesSource() && !StandbySupported(config.standby)
  {
    if job.kind.ChangesSource() && StandbySupported(config.standby) {
      SourceRoundTrip(job.value.source, config.standby, config.inverse, !job.kind.TurnOff?);
    }
  }

  lemma HandToClientKeeps(config: Config, s: State, ready: Control, attempt: nat, wrote: bool)
    requires Holding(config, s, ready) && !NeedsVolume(ready, s.snapshot.speaker) && attempt <= 1
    requires Prepare(config, s.snapshot.speaker, ready) == ready
    ensures Inv(config, HandToClient(config, s, ready, attempt, wrote))
  {
    ReadHistory(config);
    RequestNeverFails(config, s.snapshot.speaker, ready);
  }

  lemma BeginAttemptKeeps(config: Config, s: State, job: Control, attempt: nat, wrote: bool, error: Option<LsxError>)
    requires Holding(config, s, job) && !NeedsVolume(job, s.snapshot.speaker) && attempt <= 1
    ensures Inv(config, BeginAttempt(config, s, job, attempt, wrote, error))
  {
    BeginAttemptEither(config, s, job, attempt, wrote, error);
    if GivesUp(s, job) {
      FinishAttemptsKeeps(config, s, job, wrote, error);
    } else {
      HandToClientKeeps(config, s, Prepare(config, s.snapshot.speaker, job), attempt, wrote);
    }
  }

  lemma StartControlKeeps(config: Config, s: State, job: Control, drift: nat)
    requires Holding(config, s, job)
    ensures Inv(config, StartControl(config, s, job, drift))
  {
    if StartsAttempt(s, job) {
      StartControlAttempts(config, s, job, drift);
      BeginAttemptKeeps(config, s.(now := s.now + drift), job, 0, false, None);
    } else {
      StartControlDoesNotAttempt(config, s, job, drift);
      DropKeeps(config, s, job);
      ErrorKeeps(config, s, job, DeadlineExpired, false);
      if NeedsVolume(job, s.snapshot.speaker) {
        ResolveKeeps(config, s, job);
      }
    }
  }

  lemma TakingKeepsQueue(config: Config, controls: seq<Control>, nextJob: nat)
    requires InAcceptanceOrder(controls, nextJob) && QueueWellFormed(config, controls) && controls != []
    ensures InAcceptanceOrder(controls[1..], nextJob) && QueueWellFormed(config, controls[1..])
    ensures Precedes(controls[0].job, controls[1..], nextJob) && WellFormed(config, controls[0])
  {
  }

  lemma StartSourceReadKeeps(config: Config, s: State, reason: Reason)
    requires Inv(config, s) && s.worker.Ready? && (reason.Verification? ==> VerificationDue(s))
    ensures Inv(config, StartSourceRead(s, reason))
  {
    ReadHistory(config);
  }

  lemma TakeMaintenanceKeeps(config: Config, s: State)
    requires Inv(config, s) && s.worker.Ready? && s.maintenancePending
    ensures Inv(config, TakeMaintenance(s))
  {
    ReadHistory(config);
  }

  lemma GoIdleKeeps(config: Config, s: State)
    requires Inv(config, s) && s.worker.Ready?
    requires !s.closing && s.controls == [] && !s.pollPending && !s.maintenancePending
    ensures Inv(config, GoIdle(s))
  {
  }

  lemma TurnKeeps(config: Config, s: State, drift: nat)
    requires Inv(config, s) && s.worker.Ready?
    ensures Inv(config, Turn(config, s, drift))
  {
    if s.closing || s.controls == [] {
      TurnTakesNone(config, s, drift);
      if !s.closing {
        if VerificationDue(s) {
          StartSourceReadKeeps(config, s, Verification);
        }
        StartSourceReadKeeps(config, s, Poll);
        if s.maintenancePending {
          TakeMaintenanceKeeps(config, s);
        } else if !s.pollPending {
          GoIdleKeeps(config, s);
        }
      }
    } else {
      TurnTakesControl(config, s, drift);
      TakingKeepsQueue(config, s.controls, s.nextJob);
      StartControlKeeps(config, s.(controls := s.controls[1..]), s.controls[0], drift);
    }
  }

  lemma ExpectedVolumeSound(config: Config, speaker: SpeakerState, job: Control)
    requires VolumeSound(speaker) && WellFormed(config, job)
    ensures VolumeSound(ExpectedState(config, speaker, job))
    ensures speaker.volume.Some? ==> ExpectedState(config, speaker, job).volume.Some?
    ensures !job.kind.ChangesSource() ==> ExpectedState(config, speaker, job).volume.Some?
    ensures job.kind.ChangesSource() ==> ExpectedState(config, speaker, job).volume == speaker.volume
  {
  }

  lemma FinishAcknowledgedKeeps(config: Config, s: State, job: Control)
    requires Holding(config, s, job)
    ensures Inv(config, FinishAcknowledged(config, s, job))
  {
    ReadHistory(config);
    ExpectedVolumeSound(config, s.snapshot.speaker, job);
  }

  lemma LoggingKeepsHolding(config: Config, s: State, job: Control, exchange: Exchange, wrote: bool)
    requires Holding(config, s, job)
    ensures Holding(config, s.Log(Ended(exchange, wrote)), job)
  {
    ReadHistory(config);
  }

  lemma HearingKeepsHolding(config: Config, s: State, job: Control)
    requires Holding(config, s, job)
    ensures Holding(config, RecordSuccess(config, s, false), job)
  {
    ReadHistory(config);
  }

  lemma WriteRejectedKeeps(config: Config, s: State, job: Control, wrote: bool, error: LsxError)
    requires Holding(config, s, job)
    ensures Inv(config, WriteRejected(config, s, job, wrote, error))
  {
    HearingKeepsHolding(config, s, job);
    FinishAttemptsKeeps(config, RecordSuccess(config, s, false), job, wrote, Some(error));
  }

  lemma PauseKeeps(config: Config, s: State, job: Control, wrote: bool, error: LsxError)
    requires Holding(config, s, job) && s.worker.Writing? && s.worker.job == job
    requires ActiveSound(config, s.worker, s.snapshot.speaker) && !error.fault.CommandRejected?
    ensures Inv(config, PauseBeforeRetry(config, s, job, wrote, error))
  {
  }

  lemma WriteAcknowledgedKeeps(config: Config, s: State)
    requires Inv(config, s) && s.worker.Writing?
    ensures Inv(config, WriteAcknowledged(config, s))
  {
    LoggingKeepsHolding(config, s, s.worker.job, WriteOf(s.worker), true);
    FinishAcknowledgedKeeps(config, s.Log(Ended(WriteOf(s.worker), true)), s.worker.job);
  }

  lemma AttemptFailedKeeps(config: Config, s: State, wrote: bool, error: LsxError)
    requires s.worker.Writing? && Holding(config, s, s.worker.job)
    requires ActiveSound(config, s.worker, s.snapshot.speaker) && !error.fault.CommandRejected?
    ensures Inv(config, AttemptFailed(config, s, s.worker.job, s.worker.attempt, wrote, error))
  {
    PauseKeeps(config, s, s.worker.job, wrote, error);
    FinishAttemptsKeeps(config, s, s.worker.job, wrote, Some(error));
  }

  lemma WritingHolds(config: Config, s: State, wrote: bool)
    requires Inv(config, s) && s.worker.Writing?
    ensures Holding(config, s.Log(Ended(WriteOf(s.worker), wrote)), s.worker.job)
  {
    LoggingKeepsHolding(config, s, s.worker.job, WriteOf(s.worker), wrote);
  }

  lemma WriteFailedKeeps(config: Config, s: State, error: LsxError)
    requires Inv(config, s) && s.worker.Writing?
    ensures Inv(config, WriteFailed(config, s, error))
  {
    WritingHolds(config, s, error.writeAttempted);
    WriteFailedEither(config, s, error);
    var wrote := s.worker.wrote || error.writeAttempted;
    if error.fault.CommandRejected? {
      WriteRejectedKeeps(config, s.Log(Ended(WriteOf(s.worker), error.writeAttempted)), s.worker.job, wrote, error);
    } else {
      AttemptFailedKeeps(config, s.Log(Ended(WriteOf(s.worker), error.writeAttempted)), wrote, error);
    }
  }

  lemma RetryKeeps(config: Config, s: State)
    requires Inv(config, s) && s.worker.Sleeping?
    ensures Inv(config, BeginAttempt(config, s, s.worker.job, 1, s.worker.wrote, Some(s.worker.failure)))
  {
    BeginAttemptKeeps(config, s, s.worker.job, 1, s.worker.wrote, Some(s.worker.failure));
  }

  // -------------------------------------------------------------------- steps

  lemma ReadStepKeeps(config: Config, s: State, event: Event)
    requires Inv(config, s) && (event.SourceReplies? || event.VolumeReplies?)
    ensures Inv(config, Step(config, s, event))
  {
    match event
    case SourceReplies(Success(status)) =>
      if s.worker.ReadingSource? { SourceArrivedKeeps(config, s, s.worker.reason, status); }
    case SourceReplies(Failure(error)) =>
      if s.worker.ReadingSource? { SourceFailedKeeps(config, s, s.worker.reason, error); }
    case VolumeReplies(volume) =>
      if s.worker.ReadingVolume? {
        match volume
        case Success(status) => MaintenanceArrivedKeeps(config, s, status);
        case Failure(error) => MaintenanceFailedKeeps(config, s, error);
      } else if s.worker.Resolving? {
        ResolvingKeeps(config, s, volume);
      }
  }

  lemma ControlStepKeeps(config: Config, s: State, event: Event)
    requires Inv(config, s) && (event.WorkerTurn? || event.WriteReplies? || event.RetryPauseEnds?)
    ensures Inv(config, Step(config, s, event))
  {
    match event
    case WorkerTurn(drift) =>
      if s.worker.Ready? { TurnKeeps(config, s, drift); }
    case WriteReplies(None) =>
      if s.worker.Writing? { WriteAcknowledgedKeeps(config, s); }
    case WriteReplies(Some(error)) =>
      if s.worker.Writing? { WriteFailedKeeps(config, s, error); }
    case RetryPauseEnds =>
      if s.worker.Sleeping? && s.now >= s.worker.until { RetryKeeps(config, s); }
  }

  lemma StepKeeps(config: Config, s: State, event: Event)
    requires Inv(config, s)
    ensures Inv(config, Step(config, s, event))
  {
    match event
    case Start => StartKeeps(config, s);
    case SubmitCommand(command) => SubmitKeeps(config, s, KindOf(command), ValueOf(config, command));
    case Tick(elapsed) => TickKeeps(config, s, elapsed);
    case SourceReplies(_) => ReadStepKeeps(config, s, event);
    case VolumeReplies(_) => ReadStepKeeps(config, s, event);
    case WorkerTurn(_) => ControlStepKeeps(config, s, event);
    case WriteReplies(_) => ControlStepKeeps(config, s, event);
    case RetryPauseEnds => ControlStepKeeps(config, s, event);
    case _ => CallerKeeps(config, s, event);
  }

  lemma {:induction false} RunKeeps(config: Config, s: State, events: seq<Event>)
    requires Inv(config, s)
    ensures Inv(config, Run(config, s, events))
    decreases |events|
  {
    if events != [] {
      StepKeeps(config, s, events[0]);
      RunKeeps(config, Step(config, s, events[0]), events[1..]);
    }
  }

  /** Every state reachable from the start satisfies the invariant. */
  lemma Reachable(config: Config, start: int, events: seq<Event>)
    ensures Inv(config, Run(config, Initial(start), events))
  {
    RunKeeps(config, Initial(start), events);
  }
}
