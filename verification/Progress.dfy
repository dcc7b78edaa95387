/** How far one step can move: what never goes back, and what every exchange uses up. */
module Progress {
  import opened Wrappers
  import opened Protocol
  import opened Client
  import opened Scheduler
  import opened StepCases
  import opened Invariant

  /** Counts over a history: `handled` counts controls settled or put back, `levels` volumes read. */
  datatype Tally = Tally(
    begun: nat, ended: nat, verifications: nat, handled: nat, successes: nat, records: nat, levels: nat)

  function Count(tally: Tally, entry: Entry): Tally {
    match entry
    case Began(exchange, _) =>
      tally.(begun := tally.begun + 1,
             verifications := tally.verifications + if exchange == SourceRead(Verification) then 1 else 0)
    case Ended(_, _) => tally.(ended := tally.ended + 1)
    case Requeued(_) => tally.(handled := tally.handled + 1, levels := tally.levels + 1)
    case Maintained(_) => tally.(levels := tally.levels + 1)
    case Settled(_, _) => tally.(handled := tally.handled + 1)
    case Succeeded(_, _) => tally.(successes := tally.successes + 1, records := tally.records + 1)
    case PrimaryFailed(_) => tally.(records := tally.records + 1)
    case OptionalFailed(_) => tally.(records := tally.records + 1)
    case _ => tally
  }

  function TallyOf(history: History): Tally {
    match history
    case Nothing => Tally(0, 0, 0, 0, 0, 0, 0)
    case Then(before, latest) => Count(TallyOf(before), latest)
  }

  lemma ReadTally()
    ensures forall h: History, e: Entry {:trigger Then(h, e)} :: TallyOf(Then(h, e)) == Count(TallyOf(h), e)
  {
  }

  // --------------------------------------------------------------- potentials

  function Flying(worker: Worker): nat {
    if worker.ReadingSource? || worker.ReadingVolume? || worker.Resolving? || worker.Writing? then 1 else 0
  }

  /** Exchanges that can still end before the worker next takes a control off the queue. */
  function Ahead(worker: Worker): nat {
    match worker
    case ReadingSource(_) => 1
    case ReadingVolume => 1
    case Resolving(_) => 2
    case Writing(_, attempt, _, _) => if attempt == 0 then 2 else 1
    case Sleeping(_, _, _, _) => 1
    case _ => 0
  }

  function Unknown(speaker: SpeakerState): nat {
    if speaker.volume.None? then 1 else 0
  }

  /**
   * Exchanges that can still end before the control at `position` starts its own. An early volume
   * read comes in between only when a control is in front, or is having its volume read.
   */
  function Wait(s: State, position: nat): nat {
    var early := if position > 0 || s.worker.Resolving? then Unknown(s.snapshot.speaker) else 0;
    2 * position + Ahead(s.worker) + early
  }

  /** Controls that can still be handled when no more are accepted. */
  function Backlog(s: State): nat {
    2 * Load(s.worker, s.controls) + Unknown(s.snapshot.speaker)
  }

  /** Verification reads that can still start when no more controls are accepted. */
  function ReadsLeft(config: Config, s: State): int {
    var n := |config.timing.verificationDelays|;
    if s.closing then 0
    else if s.worker.HasJob() || s.controls != [] then n
    else if s.plan.due.Some? then
      if s.worker == ReadingSource(Verification) then n - s.plan.attempt - 1 else n - s.plan.attempt
    else if s.worker == ReadingSource(Verification) then n
    else 0
  }

  /** A done future never changes, and no future changes hands. */
  predicate FuturesGrow(a: seq<Future>, b: seq<Future>) {
    && |a| <= |b|
    && (forall w :: 0 <= w < |a| ==> b[w].owner == a[w].owner && (!a[w].outcome.Pending? ==> b[w] == a[w]))
  }

  /** After closing began no exchange starts, and only the one in flight can end. */
  predicate ClosingHolds(s: State, t: State) {
    s.closing ==>
      && t.closing && TallyOf(t.history).begun == TallyOf(s.history).begun
      && TallyOf(t.history).ended + Flying(t.worker) <= TallyOf(s.history).ended + Flying(s.worker)
      && t.nextJob == s.nextJob && |t.futures| == |s.futures|
  }

  /** A control that stays queued comes closer to its turn with every exchange that ends. */
  predicate WaitShrinks(s: State, t: State) {
    forall i, k :: 0 <= i < |s.controls| && 0 <= k < |t.controls| && s.controls[i].job == t.controls[k].job ==>
      Wait(t, k) + TallyOf(t.history).ended <= Wait(s, i) + TallyOf(s.history).ended
  }

  predicate WorkShrinks(config: Config, s: State, t: State) {
    t.nextJob == s.nextJob ==>
      && Backlog(t) + TallyOf(t.history).handled <= Backlog(s) + TallyOf(s.history).handled
      && ReadsLeft(config, t) + TallyOf(t.history).verifications
           <= ReadsLeft(config, s) + TallyOf(s.history).verifications
  }

  /** Availability changes only when something is recorded, and comes back only with a success. */
  predicate AvailabilityMoves(config: Config, s: State, t: State) {
    && (t.snapshot.health.available != s.snapshot.health.available ==>
          TallyOf(t.history).records > TallyOf(s.history).records)
    && (!s.snapshot.health.available && t.snapshot.health.available ==>
          TallyOf(t.history).successes > TallyOf(s.history).successes)
    && (TallyOf(t.history).successes > TallyOf(s.history).successes ==> t.snapshot.health.available)
    && TallyOf(t.history).successes >= TallyOf(s.history).successes
    && TallyOf(t.history).records >= TallyOf(s.history).records
  }

  /** Only a volume read can put the cached volume above both the maximum and what it was. */
  predicate VolumeMoves(config: Config, s: State, t: State) {
    && TallyOf(t.history).levels >= TallyOf(s.history).levels
    && (s.snapshot.speaker.volume.Some? ==> t.snapshot.speaker.volume.Some?)
    && (TallyOf(t.history).levels == TallyOf(s.history).levels && t.snapshot.speaker.volume.Some? ==>
          t.snapshot.speaker.volume.value <= Max(config.maximumVolume, VolumeOrZero(s.snapshot.speaker)))
  }

  predicate Reading(worker: Worker) { worker.ReadingSource? || worker.ReadingVolume? }

  predicate Advances(config: Config, s: State, t: State) {
    && s.now <= t.now && s.nextJob <= t.nextJob
    && FuturesGrow(s.futures, t.futures) && ClosingHolds(s, t) && WaitShrinks(s, t) && WorkShrinks(config, s, t)
    && AvailabilityMoves(config, s, t) && VolumeMoves(config, s, t)
    && (s.controls != [] && !Reading(s.worker) ==> !Reading(t.worker))
  }

  // ------------------------------------------------------------ queue positions

  /** The same acceptance numbers in the same places: positions do not move. */
  predicate SamePlaces(a: seq<Control>, b: seq<Control>) {
    |a| <= |b| && forall i :: 0 <= i < |a| ==> b[i].job == a[i].job
  }

  lemma SamePlacesKeepPositions(a: seq<Control>, b: seq<Control>, nextJob: nat)
    requires SamePlaces(a, b) && InAcceptanceOrder(b, nextJob)
    ensures forall i, k :: 0 <= i < |a| && 0 <= k < |b| && a[i].job == b[k].job ==> i == k
  {
  }

  /** When nothing moved up or down the queue, the wait shrinks if it does at the front. */
  lemma InPlaceWaits(s: State, t: State, nextJob: nat)
    requires SamePlaces(s.controls, t.controls) && InAcceptanceOrder(t.controls, nextJob)
    requires Wait(t, 0) + TallyOf(t.history).ended <= Wait(s, 0) + TallyOf(s.history).ended
    requires Wait(t, 1) + TallyOf(t.history).ended <= Wait(s, 1) + TallyOf(s.history).ended
    ensures WaitShrinks(s, t)
  {
    SamePlacesKeepPositions(s.controls, t.controls, nextJob);
  }

  lemma MergeAdvances(config: Config, s: State, value: Value)
    requires Inv(config, s) && s.controls != [] && Inv(config, MergeIntoLast(s, value)) && !s.closing
    ensures Advances(config, s, MergeIntoLast(s, value))
  {
    ReadTally();
    InPlaceWaits(s, MergeIntoLast(s, value), s.nextJob);
  }

  lemma EnqueueAdvances(config: Config, s: State, kind: Kind, value: Value)
    requires Inv(config, s) && Inv(config, Enqueue(config, s, kind, value)) && !s.closing
    ensures Advances(config, s, Enqueue(config, s, kind, value))
  {
    ReadTally();
    InPlaceWaits(s, Enqueue(config, s, kind, value), s.nextJob + 1);
  }

  /** Steps that change at most the clock, the futures of callers, and where a worker waits. */
  lemma QuietAdvances(config: Config, s: State, t: State)
    requires InAcceptanceOrder(s.controls, s.nextJob)
    requires s.now <= t.now && t.nextJob == s.nextJob && t.closing == s.closing && t.controls == s.controls
    requires t.history == s.history && t.snapshot == s.snapshot && t.plan == s.plan
    requires FuturesGrow(s.futures, t.futures) && (s.closing ==> |t.futures| == |s.futures|)
    requires || t.worker == s.worker || ((s.worker.NotStarted? || s.worker.Idle?) && t.worker == Ready)
             || (s.closing && t.worker == Stopped)
    ensures Advances(config, s, t)
  {
    InPlaceWaits(s, t, s.nextJob);
  }

  lemma StartAdvances(config: Config, s: State)
    requires Inv(config, s)
    ensures Advances(config, s, StartWorker(s))
  {
    QuietAdvances(config, s, StartWorker(s));
  }

  lemma PollAdvances(config: Config, s: State)
    requires Inv(config, s)
    ensures Advances(config, s, PollOnce(s))
  {
    QuietAdvances(config, s, PollOnce(s));
  }

  lemma OneFutureChanges(before: seq<Future>, w: nat, after: seq<Future>)
    requires w < |before| && before[w].outcome.Pending?
    requires after == before[w := before[w].(outcome := Cancelled)]
    ensures FuturesGrow(before, after) && |after| == |before|
  {
  }

  lemma CancelAdvances(config: Config, s: State, waiter: nat)
    requires Inv(config, s)
    ensures Advances(config, s, CancelWaiter(s, waiter))
  {
    var t := CancelWaiter(s, waiter);
    if t != s {
      OneFutureChanges(s.futures, waiter, t.futures);
    }
    QuietAdvances(config, s, t);
  }

  lemma ClockAdvances(config: Config, s: State, event: Event)
    requires Inv(config, s)
    requires event.Tick? || event.CloseForces? || event.CloseEnds? || event.WorkerWakes?
    ensures Advances(config, s, Step(config, s, event))
  {
    QuietAdvances(config, s, Step(config, s, event));
  }

  lemma CloseAdvances(config: Config, s: State)
    requires Inv(config, s)
    ensures Advances(config, s, BeginClose(s))
  {
    if s.closing {
      QuietAdvances(config, s, s);
    }
  }

  lemma CallerAdvances(config: Config, s: State, event: Event)
    requires Inv(config, s)
    requires event.Start? || event.PollState? || event.Cancel? || event.Tick? || event.CloseBegins?
          || event.CloseForces? || event.CloseEnds? || event.WorkerWakes?
    ensures Advances(config, s, Step(config, s, event))
  {
    match event
    case Start => StartAdvances(config, s);
    case PollState => PollAdvances(config, s);
    case Cancel(waiter) => CancelAdvances(config, s, waiter);
    case CloseBegins => CloseAdvances(config, s);
    case _ => ClockAdvances(config, s, event);
  }

  // -------------------------------------------------------------------- reads

  lemma CompleteGrows(futures: seq<Future>, waiters: seq<nat>, outcome: Outcome)
    ensures FuturesGrow(futures, Complete(futures, waiters, outcome))
    ensures |Complete(futures, waiters, outcome)| == |futures|
  {
  }

  /** One exchange ended, controls stayed where they were. */
  predicate ReadEnded(config: Config, s: State, t: State) {
    && t.now == s.now && t.nextJob == s.nextJob && t.closing == s.closing && t.controls == s.controls
    && t.worker == Ready && FuturesGrow(s.futures, t.futures) && |t.futures| == |s.futures|
    && VolumeMoves(config, s, t)
    && TallyOf(t.history).begun == TallyOf(s.history).begun
    && TallyOf(t.history).ended == TallyOf(s.history).ended + 1
    && TallyOf(t.history).verifications == TallyOf(s.history).verifications
    && TallyOf(t.history).handled == TallyOf(s.history).handled
  }

  lemma ReadEndedAdvances(config: Config, s: State, t: State)
    requires Inv(config, s) && ReadEnded(config, s, t) && !s.worker.HasJob() && Flying(s.worker) == 1
    requires AvailabilityMoves(config, s, t) && ReadsLeft(config, t) <= ReadsLeft(config, s)
    ensures Advances(config, s, t)
  {
    InPlaceWaits(s, t, s.nextJob);
  }

  lemma SourceArrivedReadsLeft(config: Config, s: State, reason: Reason, status: SourceStatus)
    requires Inv(config, s) && s.worker == ReadingSource(reason)
    ensures ReadsLeft(config, SourceArrived(config, s, reason, status)) <= ReadsLeft(config, s)
  {
  }

  lemma SourceArrivedAdvances(config: Config, s: State, reason: Reason, status: SourceStatus)
    requires Inv(config, s) && s.worker == ReadingSource(reason)
    ensures Advances(config, s, SourceArrived(config, s, reason, status))
  {
    ReadTally();
    SourceArrivedReadsLeft(config, s, reason, status);
    ReadEndedAdvances(config, s, SourceArrived(config, s, reason, status));
  }

  lemma SourceFailedReadsLeft(config: Config, s: State, reason: Reason, error: LsxError)
    requires Inv(config, s) && s.worker == ReadingSource(reason)
    ensures ReadsLeft(config, SourceFailed(config, s, reason, error)) <= ReadsLeft(config, s)
  {
  }

  /** Nothing but records, the plan, the health and polls' futures moved. */
  predicate FailureOnly(s: State, t: State) {
    && t.now == s.now && t.nextJob == s.nextJob && t.closing == s.closing && t.controls == s.controls
    && t.snapshot.speaker == s.snapshot.speaker
    && FuturesGrow(s.futures, t.futures) && |t.futures| == |s.futures|
    && TallyOf(t.history).(successes := 0, records := 0) == TallyOf(s.history).(successes := 0, records := 0)
  }

  lemma FailPollsOnly(config: Config, s: State, error: ErrorName, polling: bool)
    ensures FailureOnly(s, FailPolls(config, s, error, polling))
  {
    ReadTally();
    CompleteGrows(s.futures, s.pollWaiters, Resolved(RecordPrimaryFailure(config, s, error, polling).snapshot));
  }

  lemma SourceFailedEnds(config: Config, s: State, reason: Reason, error: LsxError)
    requires Inv(config, s)
    ensures ReadEnded(config, s, SourceFailed(config, s, reason, error))
  {
    ReadTally();
    var logged := s.Log(Ended(SourceRead(reason), error.writeAttempted));
    FailPollsOnly(config, logged, ClientError(error.fault), reason.Poll? || s.pollPending);
  }

  lemma SourceFailedAdvances(config: Config, s: State, reason: Reason, error: LsxError)
    requires Inv(config, s) && s.worker == ReadingSource(reason)
    ensures Advances(config, s, SourceFailed(config, s, reason, error))
  {
    SourceFailedEnds(config, s, reason, error);
    SourceFailedReadsLeft(config, s, reason, error);
    SourceFailedAvailability(config, s, reason, error);
    ReadEndedAdvances(config, s, SourceFailed(config, s, reason, error));
  }

  /** A failure recorded while unavailable leaves the runtime unavailable: the clock only moved on. */
  lemma SourceFailedAvailability(config: Config, s: State, reason: Reason, error: LsxError)
    requires Inv(config, s)
    ensures AvailabilityMoves(config, s, SourceFailed(config, s, reason, error))
  {
    ReadTally();
    ReadHistory(config);
  }

  lemma MaintenanceArrivedAdvances(config: Config, s: State, status: VolumeStatus)
    requires Inv(config, s) && s.worker.ReadingVolume?
    ensures Advances(config, s, MaintenanceArrived(config, s, status))
  {
    ReadTally();
    ReadEndedAdvances(config, s, MaintenanceArrived(config, s, status));
  }

  lemma MaintenanceFailedAdvances(config: Config, s: State, error: LsxError)
    requires Inv(config, s) && s.worker.ReadingVolume?
    ensures Advances(config, s, MaintenanceFailed(config, s, error))
  {
    ReadTally();
    ReadHistory(config);
    ReadEndedAdvances(config, s, MaintenanceFailed(config, s, error));
  }

  // ----------------------------------------------------------------- controls

  /** What stays the same from the state in which the worker holds a control to the one after. */
  predicate Same(config: Config, u: State, t: State) {
    && u.now == t.now && t.nextJob == u.nextJob && t.closing == u.closing && t.controls == u.controls
    && FuturesGrow(u.futures, t.futures) && |t.futures| == |u.futures|
    && VolumeMoves(config, u, t)
    && TallyOf(t.history).ended == TallyOf(u.history).ended
    && TallyOf(t.history).verifications == TallyOf(u.history).verifications
  }

  /** The worker is done with its control; the plan is the old one or a new one. */
  predicate Released(config: Config, u: State, t: State) {
    && Same(config, u, t) && t.worker == Ready
    && TallyOf(t.history).begun == TallyOf(u.history).begun
    && TallyOf(t.history).handled == TallyOf(u.history).handled + 1
    && (t.plan == u.plan || t.plan.attempt == 0)
  }

  /** The worker handed its control's request to the client. */
  predicate Launched(config: Config, u: State, t: State) {
    && Same(config, u, t) && t.worker.HasJob() && t.snapshot == u.snapshot
    && TallyOf(t.history).handled == TallyOf(u.history).handled
    && TallyOf(t.history).records == TallyOf(u.history).records
    && TallyOf(t.history).successes == TallyOf(u.history).successes
  }

  lemma DropReleases(config: Config, s: State, job: Control)
    ensures Released(config, s, DropControl(s, job))
  {
    ReadTally();
  }

  lemma ErrorReleases(config: Config, s: State, job: Control, error: ErrorName, wrote: bool)
    ensures Released(config, s, FinishControlError(s, job, error, wrote))
  {
    ReadTally();
    CompleteGrows(s.futures, job.waiters, Raised(error));
  }

  lemma ReportFailureReleases(config: Config, s: State, job: Control, wrote: bool, error: Option<LsxError>)
    ensures var t := ReportFailure(config, s, job, wrote, error); Released(config, s, t) && t.plan == s.plan
  {
    ReadTally();
    var name := if error.Some? then ClientError(error.value.fault) else DeadlineExpired;
    CompleteGrows(s.futures, job.waiters, Raised(name));
  }

  lemma PlanningReleases(config: Config, s: State, t: State, plan: Plan)
    requires Released(config, s, t) && (plan == s.plan || plan.attempt == 0)
    ensures Released(config, s, t.(plan := plan))
  {
  }

  lemma FinishAttemptsReleases(config: Config, s: State, job: Control, wrote: bool, error: Option<LsxError>)
    ensures Released(config, s, FinishAttempts(config, s, job, wrote, error))
  {
    ReportFailureReleases(config, s, job, wrote, error);
    PlanningReleases(
      config, s, ReportFailure(config, s, job, wrote, error), FinishAttempts(config, s, job, wrote, error).plan);
  }

  lemma FinishAcknowledgedReleases(config: Config, s: State, job: Control)
    requires WellFormed(config, job)
    ensures Released(config, s, FinishAcknowledged(config, s, job))
  {
    ReadTally();
    CompleteGrows(s.futures, job.waiters, Resolved(FinishAcknowledged(config, s, job).snapshot));
  }

  lemma WriteRejectedReleases(config: Config, s: State, job: Control, wrote: bool, error: LsxError)
    ensures Released(config, s, WriteRejected(config, s, job, wrote, error))
  {
    ReadTally();
    FinishAttemptsReleases(config, RecordSuccess(config, s, false), job, wrote, Some(error));
  }

  lemma HandToClientLaunches(config: Config, s: State, ready: Control, attempt: nat, wrote: bool)
    ensures Launched(config, s, HandToClient(config, s, ready, attempt, wrote))
    ensures var t := HandToClient(config, s, ready, attempt, wrote);
            attempt <= 1 ==> Ahead(t.worker) <= 2 - attempt
  {
    ReadTally();
  }

  lemma ResolveLaunches(config: Config, s: State, job: Control)
    ensures Launched(config, s, ResolveVolume(s, job))
  {
    ReadTally();
  }

  /** Availability after a control is given up: a failure cannot bring it back. */
  lemma FinishAttemptsAvailability(config: Config, s: State, job: Control, wrote: bool, error: Option<LsxError>)
    requires HealthKept(config, s)
    ensures AvailabilityMoves(config, s, FinishAttempts(config, s, job, wrote, error))
  {
    ReadTally();
    ReadHistory(config);
  }

  lemma FinishAcknowledgedAvailability(config: Config, s: State, job: Control)
    ensures AvailabilityMoves(config, s, FinishAcknowledged(config, s, job))
  {
    ReadTally();
  }

  lemma WriteRejectedAvailability(config: Config, s: State, job: Control, wrote: bool, error: LsxError)
    requires error.fault.CommandRejected?
    ensures AvailabilityMoves(config, s, WriteRejected(config, s, job, wrote, error))
  {
    ReadTally();
  }

  /** From a queue with a control taken off its front to the state after the worker's segment. */
  lemma TakingAdvances(config: Config, s: State, u: State, t: State)
    requires Inv(config, s) && s.worker.Ready? && !s.closing && s.controls != []
    requires u == s.(controls := s.controls[1..], now := u.now) && s.now <= u.now
    requires Released(config, u, t) || (Launched(config, u, t) && Ahead(t.worker) <= 2)
    requires AvailabilityMoves(config, u, t)
    ensures Advances(config, s, t)
  {
    forall i, k | 0 <= i < |s.controls| && 0 <= k < |t.controls| && s.controls[i].job == t.controls[k].job
      ensures k == i - 1
    {
      assert t.controls[k] == s.controls[k + 1];
    }
  }

  /** From the end of an exchange, or of the pause before the retry, to the state after the segment. */
  lemma HoldingAdvances(config: Config, s: State, u: State, t: State)
    requires Inv(config, s) && s.worker.HasJob() && u == s.(history := u.history)
    requires TallyOf(u.history).(ended := 0) == TallyOf(s.history).(ended := 0)
    requires TallyOf(u.history).ended == TallyOf(s.history).ended + Flying(s.worker)
    requires || Released(config, u, t)
             || (Launched(config, u, t) && !s.closing && Ahead(t.worker) + Flying(s.worker) <= Ahead(s.worker))
    requires Flying(s.worker) <= Ahead(s.worker)
    requires AvailabilityMoves(config, u, t)
    ensures Advances(config, s, t)
  {
    InPlaceWaits(s, t, s.nextJob);
  }

  lemma BeginAttemptMoves(config: Config, u: State, job: Control, attempt: nat, wrote: bool, error: Option<LsxError>)
    requires HealthKept(config, u) && attempt <= 1
    ensures var t := BeginAttempt(config, u, job, attempt, wrote, error);
            && (Released(config, u, t) || (Launched(config, u, t) && !u.closing && Ahead(t.worker) <= 2 - attempt))
            && AvailabilityMoves(config, u, t)
  {
    BeginAttemptEither(config, u, job, attempt, wrote, error);
    if GivesUp(u, job) {
      FinishAttemptsReleases(config, u, job, wrote, error);
      FinishAttemptsAvailability(config, u, job, wrote, error);
    } else {
      HandToClientLaunches(config, u, Prepare(config, u.snapshot.speaker, job), attempt, wrote);
    }
  }

  lemma StartControlAdvances(config: Config, s: State, drift: nat)
    requires Inv(config, s) && s.worker.Ready? && !s.closing && s.controls != []
    ensures Advances(config, s, StartControl(config, s.(controls := s.controls[1..]), s.controls[0], drift))
  {
    var u, job := s.(controls := s.controls[1..]), s.controls[0];
    if StartsAttempt(u, job) {
      StartControlAttempts(config, u, job, drift);
      var v := u.(now := u.now + drift);
      BeginAttemptMoves(config, v, job, 0, false, None);
      TakingAdvances(config, s, v, BeginAttempt(config, v, job, 0, false, None));
    } else {
      StartControlDoesNotAttempt(config, u, job, drift);
      DropAdvances(config, s, u, job);
      ExpiryAdvances(config, s, u, job);
      ResolveAdvances(config, s, u, job);
    }
  }

  lemma DropAdvances(config: Config, s: State, u: State, job: Control)
    requires Inv(config, s) && s.worker.Ready? && !s.closing && s.controls != []
    requires u == s.(controls := s.controls[1..])
    ensures Advances(config, s, DropControl(u, job))
  {
    DropReleases(config, u, job);
    TakingAdvances(config, s, u, DropControl(u, job));
  }

  lemma ExpiryAdvances(config: Config, s: State, u: State, job: Control)
    requires Inv(config, s) && s.worker.Ready? && !s.closing && s.controls != []
    requires u == s.(controls := s.controls[1..])
    ensures Advances(config, s, FinishControlError(u, job, DeadlineExpired, false))
  {
    ErrorReleases(config, u, job, DeadlineExpired, false);
    TakingAdvances(config, s, u, FinishControlError(u, job, DeadlineExpired, false));
  }

  lemma ResolveAdvances(config: Config, s: State, u: State, job: Control)
    requires Inv(config, s) && s.worker.Ready? && !s.closing && s.controls != []
    requires u == s.(controls := s.controls[1..])
    ensures Advances(config, s, ResolveVolume(u, job))
  {
    ResolveLaunches(config, u, job);
    TakingAdvances(config, s, u, ResolveVolume(u, job));
  }

  /** With no control queued, a turn starts a read, uses up an intent, sleeps or stops. */
  lemma StartSourceReadAdvances(config: Config, s: State, reason: Reason)
    requires Inv(config, s) && s.worker.Ready? && !s.closing && s.controls == []
    requires reason.Verification? ==> VerificationDue(s)
    ensures Advances(config, s, StartSourceRead(s, reason))
  {
    ReadTally();
  }

  lemma TakeMaintenanceAdvances(config: Config, s: State)
    requires Inv(config, s) && s.worker.Ready? && !s.closing && s.controls == []
    ensures Advances(config, s, TakeMaintenance(s))
  {
    ReadTally();
  }

  lemma GoIdleAdvances(config: Config, s: State)
    requires Inv(config, s) && s.worker.Ready? && !s.closing && s.controls == []
    ensures Advances(config, s, GoIdle(s))
  {
  }

  lemma ChooseReadAdvances(config: Config, s: State)
    requires Inv(config, s) && s.worker.Ready? && !s.closing && s.controls == []
    ensures VerificationDue(s) ==> Advances(config, s, StartSourceRead(s, Verification))
    ensures Advances(config, s, StartSourceRead(s, Poll))
    ensures Advances(config, s, TakeMaintenance(s)) && Advances(config, s, GoIdle(s))
  {
    if VerificationDue(s) {
      StartSourceReadAdvances(config, s, Verification);
    }
    StartSourceReadAdvances(config, s, Poll);
    TakeMaintenanceAdvances(config, s);
    GoIdleAdvances(config, s);
  }

  lemma TurnAdvances(config: Config, s: State, drift: nat)
    requires Inv(config, s) && s.worker.Ready?
    ensures Advances(config, s, Turn(config, s, drift))
  {
    if s.closing {
      TurnTakesNone(config, s, drift);
      QuietAdvances(config, s, s.(worker := Stopped));
    } else if s.controls == [] {
      TurnTakesNone(config, s, drift);
      ChooseReadAdvances(config, s);
    } else {
      TurnTakesControl(config, s, drift);
      StartControlAdvances(config, s, drift);
    }
  }

  lemma RetryAdvances(config: Config, s: State)
    requires Inv(config, s) && s.worker.Sleeping?
    ensures Advances(config, s, BeginAttempt(config, s, s.worker.job, 1, s.worker.wrote, Some(s.worker.failure)))
  {
    BeginAttemptMoves(config, s, s.worker.job, 1, s.worker.wrote, Some(s.worker.failure));
    HoldingAdvances(
      config, s, s, BeginAttempt(config, s, s.worker.job, 1, s.worker.wrote, Some(s.worker.failure)));
  }

  lemma WriteAcknowledgedAdvances(config: Config, s: State)
    requires Inv(config, s) && s.worker.Writing?
    ensures Advances(config, s, WriteAcknowledged(config, s))
  {
    ReadTally();
    var u := s.Log(Ended(WriteOf(s.worker), true));
    FinishAcknowledgedReleases(config, u, s.worker.job);
    FinishAcknowledgedAvailability(config, u, s.worker.job);
    HoldingAdvances(config, s, u, FinishAcknowledged(config, u, s.worker.job));
  }

  lemma WriteRejectedAdvances(config: Config, s: State, wrote: bool, error: LsxError)
    requires Inv(config, s) && s.worker.Writing? && error.fault.CommandRejected?
    ensures var u := s.Log(Ended(WriteOf(s.worker), error.writeAttempted));
            Advances(config, s, WriteRejected(config, u, s.worker.job, wrote, error))
  {
    ReadTally();
    var u := s.Log(Ended(WriteOf(s.worker), error.writeAttempted));
    WriteRejectedReleases(config, u, s.worker.job, wrote, error);
    WriteRejectedAvailability(config, u, s.worker.job, wrote, error);
    HoldingAdvances(config, s, u, WriteRejected(config, u, s.worker.job, wrote, error));
  }

  lemma PauseAdvances(config: Config, s: State, wrote: bool, error: LsxError)
    requires Inv(config, s) && s.worker.Writing? && s.worker.attempt == 0
    ensures var u := s.Log(Ended(WriteOf(s.worker), error.writeAttempted));
            Advances(config, s, PauseBeforeRetry(config, u, s.worker.job, wrote, error))
  {
    ReadTally();
    var u := s.Log(Ended(WriteOf(s.worker), error.writeAttempted));
    InPlaceWaits(s, PauseBeforeRetry(config, u, s.worker.job, wrote, error), s.nextJob);
  }

  lemma LastFailureAdvances(config: Config, s: State, wrote: bool, error: LsxError)
    requires Inv(config, s) && s.worker.Writing?
    ensures var u := s.Log(Ended(WriteOf(s.worker), error.writeAttempted));
            Advances(config, s, FinishAttempts(config, u, s.worker.job, wrote, Some(error)))
  {
    ReadTally();
    var u, job := s.Log(Ended(WriteOf(s.worker), error.writeAttempted)), s.worker.job;
    LoggingKeepsHealth(config, s, WriteOf(s.worker), error.writeAttempted);
    FinishAttemptsReleases(config, u, job, wrote, Some(error));
    FinishAttemptsAvailability(config, u, job, wrote, Some(error));
    HoldingAdvances(config, s, u, FinishAttempts(config, u, job, wrote, Some(error)));
  }

  lemma AttemptFailedAdvances(config: Config, s: State, wrote: bool, error: LsxError)
    requires Inv(config, s) && s.worker.Writing?
    ensures var u := s.Log(Ended(WriteOf(s.worker), error.writeAttempted));
            Advances(config, s, AttemptFailed(config, u, s.worker.job, s.worker.attempt, wrote, error))
  {
    if s.worker.attempt == 0 {
      PauseAdvances(config, s, wrote, error);
    } else {
      LastFailureAdvances(config, s, wrote, error);
    }
  }

  lemma LoggingKeepsHealth(config: Config, s: State, exchange: Exchange, wrote: bool)
    requires HealthKept(config, s)
    ensures HealthKept(config, s.Log(Ended(exchange, wrote)))
  {
    ReadHistory(config);
  }

  lemma FailureAdvances(config: Config, s: State, wrote: bool, error: LsxError)
    requires Inv(config, s) && s.worker.Writing?
    ensures var u := s.Log(Ended(WriteOf(s.worker), error.writeAttempted));
            Advances(config, s, AfterFailure(config, u, wrote, error))
  {
    if error.fault.CommandRejected? {
      WriteRejectedAdvances(config, s, wrote, error);
    } else {
      AttemptFailedAdvances(config, s, wrote, error);
    }
  }

  lemma WriteFailedAdvances(config: Config, s: State, error: LsxError)
    requires Inv(config, s) && s.worker.Writing?
    ensures Advances(config, s, WriteFailed(config, s, error))
  {
    WriteFailedIsAfterFailure(config, s, error);
    FailureAdvances(config, s, s.worker.wrote || error.writeAttempted, error);
  }

  lemma ResolvingArrivedAdvances(config: Config, s: State, status: VolumeStatus)
    requires Inv(config, s) && s.worker.Resolving?
    ensures Advances(config, s, ResolvingArrived(config, s, s.worker.job, status))
  {
    ReadTally();
    var t := ResolvingArrived(config, s, s.worker.job, status);
    forall i, k | 0 <= i < |s.controls| && 0 <= k < |t.controls| && s.controls[i].job == t.controls[k].job
      ensures k == i + 1
    {
      assert k > 0 ==> t.controls[k] == s.controls[k - 1];
    }
  }

  lemma ResolvingFailedReleases(config: Config, s: State, job: Control, error: LsxError)
    ensures var u := s.Log(Ended(ResolvingRead(job.job), error.writeAttempted));
            Released(config, u, ResolvingFailed(config, s, job, error))
  {
    ReadTally();
    CompleteGrows(s.futures, job.waiters, Raised(ClientError(error.fault)));
  }

  lemma ResolvingFailedAdvances(config: Config, s: State, error: LsxError)
    requires Inv(config, s) && s.worker.Resolving?
    ensures Advances(config, s, ResolvingFailed(config, s, s.worker.job, error))
  {
    ReadTally();
    ReadHistory(config);
    var u := s.Log(Ended(ResolvingRead(s.worker.job.job), error.writeAttempted));
    ResolvingFailedReleases(config, s, s.worker.job, error);
    HoldingAdvances(config, s, u, ResolvingFailed(config, s, s.worker.job, error));
  }

  // -------------------------------------------------------------------- steps

  lemma SubmitAdvances(config: Config, s: State, kind: Kind, value: Value)
    requires Inv(config, s) && Inv(config, Submit(config, s, kind, value))
    ensures Advances(config, s, Submit(config, s, kind, value))
  {
    if Judge(s, kind).Admitted? {
      if Merges(s, kind) {
        MergeAdvances(config, s, value);
      } else {
        EnqueueAdvances(config, s, kind, value);
      }
    } else {
      QuietAdvances(config, s, s);
    }
  }

  lemma StayingAdvances(config: Config, s: State)
    requires Inv(config, s)
    ensures Advances(config, s, s)
  {
    QuietAdvances(config, s, s);
  }

  lemma SourceStepAdvances(config: Config, s: State, source: Result<SourceStatus, LsxError>)
    requires Inv(config, s)
    ensures Advances(config, s, Step(config, s, SourceReplies(source)))
  {
    if !s.worker.ReadingSource? {
      StayingAdvances(config, s);
    } else {
      match source
      case Success(status) =>
        StepHearsSource(config, s, status);
        SourceArrivedAdvances(config, s, s.worker.reason, status);
      case Failure(error) =>
        StepFailsSource(config, s, error);
        SourceFailedAdvances(config, s, s.worker.reason, error);
    }
  }

  lemma VolumeStepAdvances(config: Config, s: State, volume: Result<VolumeStatus, LsxError>)
    requires Inv(config, s)
    ensures Advances(config, s, Step(config, s, VolumeReplies(volume)))
  {
    if s.worker.ReadingVolume? {
      match volume
      case Success(status) => MaintenanceArrivedAdvances(config, s, status);
      case Failure(error) => MaintenanceFailedAdvances(config, s, error);
    } else if s.worker.Resolving? {
      match volume
      case Success(status) => ResolvingArrivedAdvances(config, s, status);
      case Failure(error) => ResolvingFailedAdvances(config, s, error);
    } else {
      StayingAdvances(config, s);
    }
  }

  lemma FailedWriteStepAdvances(config: Config, s: State, error: LsxError)
    requires Inv(config, s)
    ensures Advances(config, s, Step(config, s, WriteReplies(Some(error))))
  {
    if s.worker.Writing? {
      StepFailsWrite(config, s, error);
      WriteFailedAdvances(config, s, error);
    } else {
      StayingAdvances(config, s);
    }
  }

  lemma AcknowledgedStepAdvances(config: Config, s: State)
    requires Inv(config, s)
    ensures Advances(config, s, Step(config, s, WriteReplies(None)))
  {
    if s.worker.Writing? {
      StepAcknowledges(config, s);
      WriteAcknowledgedAdvances(config, s);
    } else {
      StayingAdvances(config, s);
    }
  }

  lemma ControlStepAdvances(config: Config, s: State, event: Event)
    requires Inv(config, s)
    requires event.WorkerTurn? || event.WriteReplies? || event.RetryPauseEnds?
    ensures Advances(config, s, Step(config, s, event))
  {
    StayingAdvances(config, s);
    match event
    case WorkerTurn(drift) =>
      if s.worker.Ready? { TurnAdvances(config, s, drift); }
    case WriteReplies(None) => AcknowledgedStepAdvances(config, s);
    case WriteReplies(Some(error)) => FailedWriteStepAdvances(config, s, error);
    case RetryPauseEnds =>
      if s.worker.Sleeping? && s.now >= s.worker.until { RetryAdvances(config, s); }
  }

  lemma StepAdvances(config: Config, s: State, event: Event)
    requires Inv(config, s)
    ensures Advances(config, s, Step(config, s, event)) && Inv(config, Step(config, s, event))
  {
    StepKeeps(config, s, event);
    match event
    case SubmitCommand(command) => SubmitAdvances(config, s, KindOf(command), ValueOf(config, command));
    case SourceReplies(source) => SourceStepAdvances(config, s, source);
    case VolumeReplies(volume) => VolumeStepAdvances(config, s, volume);
    case WorkerTurn(_) => ControlStepAdvances(config, s, event);
    case WriteReplies(_) => ControlStepAdvances(config, s, event);
    case RetryPauseEnds => ControlStepAdvances(config, s, event);
    case _ => CallerAdvances(config, s, event);
  }
}
