/**
 * The single-owner command scheduler as a state machine.
 *
 * One step is what runs between two suspension points of the event loop: a caller's
 * submission, poll, cancellation or close, a clock tick, or one segment of the worker.
 * The worker's program counter is part of the state, so other steps may come in wherever
 * the worker is suspended (and also between two turns of its loop).
 */
module Scheduler {
  import opened Wrappers
  import opened Protocol
  import opened Client

  const QUEUE_CAPACITY: nat := 16

  // ------------------------------------------------------------------- values

  datatype Kind = TurnOn | TurnOff | SelectSource | SetVolume | VolumeUp | VolumeDown | Mute | Unmute {
    predicate ChangesSource() { TurnOn? || TurnOff? || SelectSource? }

    predicate IsRelative() { VolumeUp? || VolumeDown? || Mute? || Unmute? }
  }

  /** The `value: Any` of a control. */
  datatype Value = NoValue | SourceValue(source: Source) | VolumeValue(percent: int)

  /** The public operations that submit a control. */
  datatype Command =
    | CommandTurnOn
    | CommandTurnOff
    | CommandSelectSource(source: Source)
    | CommandSetVolume(percent: int)
    | CommandVolumeUp
    | CommandVolumeDown
    | CommandMute(muted: bool)

  datatype Timing = Timing(
    controlDeadline: int, retryDelay: int, verificationDelays: seq<int>, staleAfter: int,
    unavailableAfter: int, failureThreshold: int, volumePollInterval: int)

  datatype Settings = Settings(
    preferredWakeSource: Option<Source>, maximumVolume: int, volumeStep: int, inverse: bool, standby: Standby,
    timing: Timing)
  {
    predicate Valid() {
      && 1 <= maximumVolume <= 100 && 1 <= volumeStep
      && |timing.verificationDelays| >= 1 && timing.failureThreshold >= 1
    }
  }

  const DEFAULT_SETTINGS :=
    Settings(None, 50, 5, false, None, Timing(80, 3, [10, 20, 40], 450, 1200, 4, 3000))

  /** Settings as the constructor leaves them. The standby time is whatever it was given. */
  type Config = settings: Settings | settings.Valid() witness DEFAULT_SETTINGS

  datatype ErrorName = ClientError(fault: Fault) | DeadlineExpired | VerificationMismatch

  datatype SpeakerState = SpeakerState(
    powerOn: Option<bool>, source: Option<Source>, volume: Option<int>, muted: Option<bool>)

  datatype Health = Health(
    available: bool, stale: bool, degraded: bool, consecutiveFailures: nat, lastError: Option<ErrorName>)

  /** `job` stands for the submission time that tells results apart. */
  datatype CommandResult = CommandResult(
    job: nat, command: Kind, completed: bool, writeAttempted: bool, acknowledged: bool,
    verified: Option<bool>, error: Option<ErrorName>)

  datatype Snapshot = Snapshot(speaker: SpeakerState, health: Health, lastCommand: Option<CommandResult>)

  datatype Outcome = Pending | Cancelled | Resolved(snapshot: Snapshot) | Raised(error: ErrorName)

  /**
   * `owner` is the control a future was created for. A poll has none: it awaits its future
   * through a shield, so cancelling the caller leaves the future alone.
   */
  datatype Future = Future(owner: Option<nat>, outcome: Outcome)

  /** Waiters are indices into the futures ever created. */
  datatype Control = Control(job: nat, kind: Kind, value: Value, deadline: int, waiters: seq<nat>)

  /** The index of the verification read being waited for; -1 when there is no plan. */
  type Attempt = a: int | -1 <= a witness -1

  datatype Plan = Plan(attempt: Attempt, due: Option<int>, kind: Option<Kind>, expected: Option<SpeakerState>)

  const NO_PLAN := Plan(-1, None, None, None)

  datatype Reason = Poll | Verification

  /** Where the worker is suspended. */
  datatype Worker =
    | NotStarted
    | Ready
    | Idle(timer: Option<int>)
    | ReadingSource(reason: Reason)
    | ReadingVolume
    | Resolving(job: Control)
    | Writing(job: Control, attempt: nat, wrote: bool, request: Bytes)
    | Sleeping(job: Control, wrote: bool, failure: LsxError, until: int)
    | Stopped
    | Crashed(job: Control)
  {
    /** Whether the `_active_control` field is set, to `job`. */
    predicate HasJob() { Resolving? || Writing? || Sleeping? || Crashed? }

    function Active(): seq<Control> {
      if HasJob() then [job] else []
    }
  }

  datatype Exchange =
    | SourceRead(reason: Reason)
    | MaintenanceRead
    | ResolvingRead(job: nat)
    | Write(job: nat, attempt: nat, request: Bytes)

  datatype Fate = Acked(snapshot: Snapshot) | FailedWith(error: ErrorName, wrote: bool) | Dropped

  /**
   * What happened, in order. The model's own record; no step reads it. A success says whether
   * the source was read, and a verification read contradicts when it shows another state.
   */
  datatype Entry =
    | Accepted(job: nat, kind: Kind, deadline: int)
    | Merged(job: nat, percent: int)
    | Began(exchange: Exchange, at: int)
    | Ended(exchange: Exchange, wrote: bool)
    | Succeeded(at: int, stateRead: bool)
    | PrimaryFailed(at: int)
    | OptionalFailed(at: int)
    | Contradicted(at: int)
    | Requeued(job: nat)
    | Maintained(at: int)
    | Settled(job: nat, fate: Fate)

  datatype History = Nothing | Then(before: History, latest: Entry)

  datatype State = State(
    now: int,
    controls: seq<Control>,
    pollPending: bool,
    pollWaiters: seq<nat>,
    plan: Plan,
    maintenancePending: bool,
    startedMono: int,
    lastChannelMono: Option<int>,
    lastStateMono: Option<int>,
    lastVolumeMono: Option<int>,
    wake: bool,
    closing: bool,
    closed: bool,
    snapshot: Snapshot,
    worker: Worker,
    futures: seq<Future>,
    nextJob: nat,
    history: History)
  {
    /** Accepted controls that are not settled, in execution order. */
    function Outstanding(): seq<Control> { worker.Active() + controls }

    function Speaker(): SpeakerState { snapshot.speaker }

    function Log(entry: Entry): State { this.(history := Then(history, entry)) }
  }

  function InitialSnapshot(): Snapshot {
    Snapshot(SpeakerState(None, None, None, None), Health(true, false, false, 0, None), None)
  }

  function Initial(now: int): State {
    State(now, [], false, [], NO_PLAN, false, 0, None, None, None, false, false, false,
      InitialSnapshot(), NotStarted, [], 0, Nothing)
  }

  // ------------------------------------------------------------------ futures

  /** Completes every waiter that is still pending; a done future never changes. */
  function Complete(futures: seq<Future>, waiters: seq<nat>, outcome: Outcome): seq<Future> {
    seq(|futures|, i requires 0 <= i < |futures| =>
      if i in waiters && futures[i].outcome.Pending? then futures[i].(outcome := outcome) else futures[i])
  }

  predicate AllCancelled(futures: seq<Future>, waiters: seq<nat>) {
    forall w :: w in waiters ==> w < |futures| && futures[w].outcome.Cancelled?
  }

  // ------------------------------------------------------------------- health

  function ComputeHealth(config: Config, s: State, health: Health, failed: bool): Health {
    var stateAge := s.now - (if s.lastStateMono.Some? then s.lastStateMono.value else s.startedMono);
    var channelAge := s.now - (if s.lastChannelMono.Some? then s.lastChannelMono.value else s.startedMono);
    var stale := stateAge >= config.timing.staleAfter;
    var unavailable :=
      health.consecutiveFailures >= config.timing.failureThreshold && channelAge >= config.timing.unavailableAfter;
    health.(available := !unavailable, stale := stale, degraded := failed || stale || health.consecutiveFailures > 0)
  }

  function RecordSuccess(config: Config, s: State, stateSuccess: bool): State {
    var t := s.(lastChannelMono := Some(s.now), lastStateMono := if stateSuccess then Some(s.now) else s.lastStateMono);
    var health := s.snapshot.health.(available := true, consecutiveFailures := 0, lastError := None);
    t.(snapshot := t.snapshot.(health := ComputeHealth(config, t, health, false))).Log(Succeeded(s.now, stateSuccess))
  }

  function AfterPrimaryFailure(config: Config, s: State, error: ErrorName): Health {
    var before := s.snapshot.health;
    var counted := before.(consecutiveFailures := before.consecutiveFailures + 1, lastError := Some(error));
    ComputeHealth(config, s, counted, true)
  }

  /** A recorded primary failure, when there is one to record. */
  function RecordPrimaryFailure(config: Config, s: State, error: ErrorName, counts: bool): State {
    s.(snapshot := s.snapshot.(health := if counts then AfterPrimaryFailure(config, s, error) else s.snapshot.health),
       history := if counts then Then(s.history, PrimaryFailed(s.now)) else s.history)
  }

  function RecordOptionalFailure(config: Config, s: State, error: ErrorName): State {
    var health := s.snapshot.health.(degraded := true, lastError := Some(error));
    s.(snapshot := s.snapshot.(health := ComputeHealth(config, s, health, true))).Log(OptionalFailed(s.now))
  }

  // ------------------------------------------------------------- verification

  /** A fresh plan for one source-changing command. */
  function NewPlan(config: Config, now: int, kind: Kind, expected: SpeakerState): Plan {
    Plan(0, Some(now + config.timing.verificationDelays[0]), Some(kind), Some(expected))
  }

  /** The plan after a read that did not confirm: one more read, or none. */
  function NextPlan(config: Config, now: int, plan: Plan): Plan {
    var attempt := plan.attempt + 1;
    if attempt >= |config.timing.verificationDelays| then Plan(attempt, None, None, None)
    else plan.(attempt := attempt, due := Some(now + config.timing.verificationDelays[attempt]))
  }

  /** A command whose verification ran out of reads counts as not verified. */
  function GivenUp(plan: Plan, last: Option<CommandResult>): Option<CommandResult> {
    if plan.due.None? && last.Some? && last.value.verified.None?
    then Some(last.value.(verified := Some(false)))
    else last
  }

  function ScheduleNextVerification(config: Config, s: State, failed: bool): State {
    var plan := if failed then NextPlan(config, s.now, s.plan) else s.plan;
    var last := if failed then GivenUp(plan, s.snapshot.lastCommand) else s.snapshot.lastCommand;
    s.(plan := plan, snapshot := s.snapshot.(lastCommand := last))
  }

  predicate PlanMatches(plan: Plan, speaker: SpeakerState) {
    && plan.kind.Some? && plan.expected.Some?
    && if plan.kind.value.ChangesSource()
       then speaker.powerOn == plan.expected.value.powerOn && speaker.source == plan.expected.value.source
       else speaker.volume == plan.expected.value.volume && speaker.muted == plan.expected.value.muted
  }

  /** The confirming read matched: the plan is done and the last command is verified. */
  function Confirm(s: State, matches: bool): State {
    var last := s.snapshot.lastCommand;
    var judged := if matches && last.Some? then Some(last.value.(verified := Some(true))) else last;
    s.(plan := if matches then NO_PLAN else s.plan, snapshot := s.snapshot.(lastCommand := judged))
  }

  function Mismatched(health: Health, mismatch: bool): Health {
    if mismatch then health.(degraded := true, lastError := Some(VerificationMismatch)) else health
  }

  /** Compare the confirming read with the expected state, when a read concludes the plan. */
  function CompleteVerification(config: Config, s: State, concluded: bool): State {
    var matches := concluded && PlanMatches(s.plan, s.Speaker());
    var mismatch := concluded && !matches;
    var confirmed := Confirm(s, matches);
    ScheduleNextVerification(
      config,
      confirmed.(
        snapshot := confirmed.snapshot.(health := Mismatched(confirmed.snapshot.health, mismatch)),
        history := if mismatch then Then(s.history, Contradicted(s.now)) else s.history),
      mismatch)
  }

  // ------------------------------------------------------------------ speaker

  function ApplySource(s: State, status: SourceStatus): State {
    s.(snapshot := s.snapshot.(speaker :=
      s.Speaker().(powerOn := Some(status.powerOn), source := Some(status.source))))
  }

  function ApplyVolume(s: State, status: VolumeStatus): State {
    s.(snapshot := s.snapshot.(speaker :=
      s.Speaker().(volume := Some(status.volume), muted := Some(status.muted))))
  }

  function VolumeOrZero(speaker: SpeakerState): int {
    if speaker.volume.Some? then speaker.volume.value else 0
  }

  predicate IsMuted(speaker: SpeakerState) {
    speaker.muted == Some(true)
  }

  function Percent(value: Value): int {
    if value.VolumeValue? then value.percent else 0
  }

  function Min(a: int, b: int): int { if a <= b then a else b }

  function Max(a: int, b: int): int { if a >= b then a else b }

  /** The speaker state a control leads to if its write takes effect. */
  function ExpectedState(config: Config, speaker: SpeakerState, job: Control): SpeakerState {
    var source := if job.value.SourceValue? then Some(job.value.source) else None;
    match job.kind
    case TurnOn => speaker.(powerOn := Some(true), source := source)
    case TurnOff => speaker.(powerOn := Some(false))
    case SelectSource => speaker.(powerOn := Some(true), source := source)
    case SetVolume => speaker.(volume := Some(Percent(job.value)), muted := Some(IsMuted(speaker)))
    case VolumeUp =>
      speaker.(volume := Some(Min(config.maximumVolume, VolumeOrZero(speaker) + config.volumeStep)),
               muted := Some(IsMuted(speaker)))
    case VolumeDown =>
      speaker.(volume := Some(Max(0, VolumeOrZero(speaker) - config.volumeStep)), muted := Some(IsMuted(speaker)))
    case Mute => speaker.(volume := Some(VolumeOrZero(speaker)), muted := Some(true))
    case Unmute => speaker.(volume := Some(VolumeOrZero(speaker)), muted := Some(false))
  }

  function SourceForPowerCommand(config: Config, speaker: SpeakerState): Source {
    if config.preferredWakeSource.Some? then config.preferredWakeSource.value
    else if speaker.source.Some? then speaker.source.value
    else Opt
  }

  /** Power commands pick their source when they run. */
  function Prepare(config: Config, speaker: SpeakerState, job: Control): Control {
    if job.kind.TurnOn? || job.kind.TurnOff?
    then job.(value := SourceValue(SourceForPowerCommand(config, speaker)))
    else job
  }

  /** The bytes a prepared control writes, or the encoder's ValueError. */
  function RequestFor(config: Config, speaker: SpeakerState, job: Control): Result<Bytes, CodecError> {
    if job.kind.ChangesSource() then
      if !job.value.SourceValue? then Failure(ValueError)
      else EncodeSetSource(job.value.source, config.standby, config.inverse, !job.kind.TurnOff?)
    else
      var volume := VolumeOrZero(speaker);
      var level :=
        if job.kind.SetVolume? then Percent(job.value)
        else if job.kind.VolumeUp? then Min(config.maximumVolume, volume + config.volumeStep)
        else if job.kind.VolumeDown? then Max(0, volume - config.volumeStep)
        else volume;
      var muted := if job.kind.Mute? then true else if job.kind.Unmute? then false else IsMuted(speaker);
      EncodeSetVolume(level, muted)
  }

  // -------------------------------------------------------------- submissions

  datatype Verdict = Admitted(waiter: nat) | RefusedClosed | RefusedBusy

  function KindOf(command: Command): Kind {
    match command
    case CommandTurnOn => TurnOn
    case CommandTurnOff => TurnOff
    case CommandSelectSource(_) => SelectSource
    case CommandSetVolume(_) => SetVolume
    case CommandVolumeUp => VolumeUp
    case CommandVolumeDown => VolumeDown
    case CommandMute(muted) => if muted then Mute else Unmute
  }

  /** The requested volume is clamped before it is queued. */
  function ValueOf(config: Config, command: Command): Value {
    match command
    case CommandSelectSource(source) => SourceValue(source)
    case CommandSetVolume(percent) => VolumeValue(Min(config.maximumVolume, Max(0, percent)))
    case _ => NoValue
  }

  /** Only adjacent absolute-volume requests are merged. */
  predicate Merges(s: State, kind: Kind) {
    kind.SetVolume? && |s.controls| > 0 && s.controls[|s.controls| - 1].kind.SetVolume?
  }

  function Judge(s: State, kind: Kind): Verdict {
    if s.closing then RefusedClosed
    else if !Merges(s, kind) && |s.controls| >= QUEUE_CAPACITY then RefusedBusy
    else Admitted(|s.futures|)
  }

  /** The new value replaces the one in the last queued control, which gains a waiter. */
  function MergeIntoLast(s: State, value: Value): State
    requires s.controls != []
  {
    var last := |s.controls| - 1;
    var job := s.controls[last];
    s.(futures := s.futures + [Future(Some(job.job), Pending)],
       controls := s.controls[last := job.(value := value, waiters := job.waiters + [|s.futures|])],
       wake := true).Log(Merged(job.job, Percent(value)))
  }

  /** A new control at the end of the queue supersedes the verification plan. */
  function Enqueue(config: Config, s: State, kind: Kind, value: Value): State {
    var job := Control(s.nextJob, kind, value, s.now + config.timing.controlDeadline, [|s.futures|]);
    var result := CommandResult(s.nextJob, kind, false, false, false, None, None);
    s.(futures := s.futures + [Future(Some(job.job), Pending)],
       plan := NO_PLAN,
       controls := s.controls + [job],
       snapshot := s.snapshot.(lastCommand := Some(result)),
       nextJob := s.nextJob + 1,
       wake := true).Log(Accepted(job.job, kind, job.deadline))
  }

  function Submit(config: Config, s: State, kind: Kind, value: Value): State {
    if !Judge(s, kind).Admitted? then s
    else if Merges(s, kind) then MergeIntoLast(s, value)
    else Enqueue(config, s, kind, value)
  }

  function PollOnce(s: State): State {
    if s.closing then s
    else s.(futures := s.futures + [Future(None, Pending)],
            pollWaiters := s.pollWaiters + [|s.futures|],
            pollPending := true,
            wake := true)
  }

  function StartWorker(s: State): State {
    if s.worker.NotStarted? then PollOnce(s.(startedMono := s.now, worker := Ready)) else s
  }

  function CancelWaiter(s: State, waiter: nat): State {
    if waiter < |s.futures| && s.futures[waiter].owner.Some? && s.futures[waiter].outcome.Pending?
    then s.(futures := s.futures[waiter := s.futures[waiter].(outcome := Cancelled)])
    else s
  }

  // ----------------------------------------------------------------- shutdown

  function WaitersOf(controls: seq<Control>): seq<nat> {
    if controls == [] then [] else controls[0].waiters + WaitersOf(controls[1..])
  }

  /** The part of closing that runs before the worker is awaited. */
  function BeginClose(s: State): State {
    if s.closing then s
    else
      s.(closing := true,
         futures := Complete(Complete(s.futures, WaitersOf(s.controls), Cancelled), s.pollWaiters, Cancelled),
         controls := [], pollWaiters := [], pollPending := false, maintenancePending := false,
         plan := NO_PLAN, wake := true)
  }

  /** The shutdown budget ran out: the worker is cancelled where it is suspended. */
  function ForceStop(s: State): State {
    if s.closing && !s.worker.NotStarted? && !s.worker.Crashed? then s.(worker := Stopped) else s
  }

  function FinishClose(s: State): State {
    if s.closing && (s.worker.NotStarted? || s.worker.Stopped?) then s.(closed := true) else s
  }

  // ------------------------------------------------------------------- worker

  /** Hands the snapshot to every waiting poll, when a poll is pending. */
  function ResolvePolls(s: State, pending: bool): State {
    s.(futures := if pending then Complete(s.futures, s.pollWaiters, Resolved(s.snapshot)) else s.futures,
       pollWaiters := if pending then [] else s.pollWaiters,
       pollPending := s.pollPending && !pending)
  }

  function FinishControlError(s: State, job: Control, error: ErrorName, wrote: bool): State {
    var result := CommandResult(job.job, job.kind, true, wrote, false, None, Some(error));
    s.(snapshot := s.snapshot.(lastCommand := Some(result)),
       futures := Complete(s.futures, job.waiters, Raised(error)),
       worker := Ready).Log(Settled(job.job, FailedWith(error, wrote)))
  }

  /** A control that was not acknowledged: a rejection is no failure of the channel. */
  function ReportFailure(config: Config, s: State, job: Control, wrote: bool, error: Option<LsxError>): State {
    var rejected := error.Some? && error.value.fault.CommandRejected?;
    var name := if error.Some? then ClientError(error.value.fault) else DeadlineExpired;
    FinishControlError(RecordPrimaryFailure(config, s, name, !rejected), job, name, error.Some? && wrote)
  }

  /** After the retry loop, without an acknowledgement. */
  function FinishAttempts(config: Config, s: State, job: Control, wrote: bool, error: Option<LsxError>): State {
    var told := ReportFailure(config, s, job, wrote, error);
    told.(plan :=
      if error.Some? && wrote && !error.value.fault.CommandRejected? && job.kind.ChangesSource()
      then NewPlan(config, told.now, job.kind, ExpectedState(config, told.Speaker(), job))
      else told.plan)
  }

  /** Encodes a prepared control and starts its exchange; an encoder error ends the worker. */
  function HandToClient(config: Config, s: State, ready: Control, attempt: nat, wrote: bool): State {
    var request := RequestFor(config, s.Speaker(), ready);
    s.(worker :=
         (match request
          case Failure(_) => Crashed(ready)
          case Success(bytes) => Writing(ready, attempt, wrote, bytes)),
       history :=
         (match request
          case Failure(_) => s.history
          case Success(bytes) => Then(s.history, Began(Write(ready.job, attempt, bytes), s.now))))
  }

  /** The deadline has passed or the runtime is closing. */
  predicate GivesUp(s: State, job: Control) {
    s.closing || s.now >= job.deadline
  }

  /** One pass of the retry loop: give up, or hand the request to the client. */
  function BeginAttempt(
    config: Config, s: State, job: Control, attempt: nat, wrote: bool, error: Option<LsxError>): State
  {
    if GivesUp(s, job) then FinishAttempts(config, s, job, wrote, error)
    else HandToClient(config, s, Prepare(config, s.Speaker(), job), attempt, wrote)
  }

  /** The cached state follows an acknowledged write at once. */
  function ApplyOptimistic(config: Config, s: State, job: Control): State {
    s.(snapshot := s.snapshot.(speaker := ExpectedState(config, s.Speaker(), job)),
       maintenancePending := if job.kind.TurnOff? then false else s.maintenancePending,
       lastVolumeMono := if job.kind.ChangesSource() then s.lastVolumeMono else Some(s.now))
  }

  /** The result, the verification plan and the waiters of an acknowledged control. */
  function SettleAcknowledged(config: Config, s: State, job: Control): State {
    var result := CommandResult(job.job, job.kind, true, true, true, None, None);
    var snapshot := s.snapshot.(lastCommand := Some(result));
    s.(snapshot := snapshot,
       plan := if job.kind.ChangesSource() then NewPlan(config, s.now, job.kind, snapshot.speaker) else s.plan,
       futures := Complete(s.futures, job.waiters, Resolved(snapshot)),
       worker := Ready).Log(Settled(job.job, Acked(snapshot)))
  }

  function FinishAcknowledged(config: Config, s: State, job: Control): State {
    SettleAcknowledged(config, RecordSuccess(config, ApplyOptimistic(config, s, job), false), job)
  }

  /** Relative commands first read a volume that is not known. */
  predicate NeedsVolume(job: Control, speaker: SpeakerState) {
    job.kind.IsRelative() && (speaker.volume.None? || speaker.muted.None?)
  }

  function DropControl(s: State, job: Control): State {
    s.(worker := Ready).Log(Settled(job.job, Dropped))
  }

  function ResolveVolume(s: State, job: Control): State {
    s.(worker := Resolving(job)).Log(Began(ResolvingRead(job.job), s.now))
  }

  /** `drift` is how far the clock moves between the two deadline checks. */
  function StartControl(config: Config, s: State, job: Control, drift: nat): State {
    if AllCancelled(s.futures, job.waiters) then DropControl(s, job)
    else if s.now >= job.deadline then FinishControlError(s, job, DeadlineExpired, false)
    else if NeedsVolume(job, s.Speaker()) then ResolveVolume(s, job)
    else BeginAttempt(config, s.(now := s.now + drift), job, 0, false, None)
  }

  predicate VerificationDue(s: State) {
    s.plan.due.Some? && s.now >= s.plan.due.value
  }

  function StartSourceRead(s: State, reason: Reason): State {
    s.(worker := ReadingSource(reason)).Log(Began(SourceRead(reason), s.now))
  }

  /** A maintenance intent is used up even when the speaker is not known to be on. */
  function TakeMaintenance(s: State): State {
    var on := s.Speaker().powerOn == Some(true);
    s.(maintenancePending := false,
       worker := if on then ReadingVolume else Ready,
       history := if on then Then(s.history, Began(MaintenanceRead, s.now)) else s.history)
  }

  function GoIdle(s: State): State {
    s.(wake := false, worker := Idle(s.plan.due))
  }

  /** One pass of the worker's loop, in its order of preference. */
  function Turn(config: Config, s: State, drift: nat): State {
    if s.closing then s.(worker := Stopped)
    else if s.controls != [] then StartControl(config, s.(controls := s.controls[1..]), s.controls[0], drift)
    else if VerificationDue(s) then StartSourceRead(s, Verification)
    else if s.pollPending then StartSourceRead(s, Poll)
    else if s.maintenancePending then TakeMaintenance(s)
    else GoIdle(s)
  }

  /** A failed source read answers the polls that wait, if the failure is theirs. */
  function FailPolls(config: Config, s: State, error: ErrorName, polling: bool): State {
    ResolvePolls(RecordPrimaryFailure(config, s, error, polling), polling)
  }

  /** A failed verification read uses up one read of the plan. */
  function FailVerification(config: Config, s: State, error: ErrorName, verifying: bool): State {
    ScheduleNextVerification(config, if verifying then RecordOptionalFailure(config, s, error) else s, verifying)
      .(worker := Ready)
  }

  function SourceFailed(config: Config, s: State, reason: Reason, error: LsxError): State {
    var name := ClientError(error.fault);
    var logged := s.Log(Ended(SourceRead(reason), error.writeAttempted));
    FailVerification(config, FailPolls(config, logged, name, reason.Poll? || s.pollPending), name, reason.Verification?)
  }

  predicate VerificationConcluded(s: State, reason: Reason) {
    && VerificationDue(s)
    && (reason.Verification? || (s.plan.kind.Some? && s.plan.kind.value.ChangesSource()))
    && s.snapshot.lastCommand.Some? && s.snapshot.lastCommand.value.verified.None?
  }

  predicate MaintenanceDue(config: Config, s: State) {
    || (s.lastVolumeMono.None? && s.Speaker().volume.None?)
    || (s.lastVolumeMono.Some? && s.now - s.lastVolumeMono.value >= config.timing.volumePollInterval)
  }

  function SourceArrived(config: Config, s: State, reason: Reason, status: SourceStatus): State {
    var logged := s.Log(Ended(SourceRead(reason), true));
    var heard := RecordSuccess(config, ApplySource(logged, status), true);
    var verified := CompleteVerification(config, heard, VerificationConcluded(heard, reason));
    var polled := ResolvePolls(verified, verified.pollPending);
    var maintain := status.powerOn && MaintenanceDue(config, polled);
    polled.(
      maintenancePending := maintain || (status.powerOn && polled.maintenancePending),
      wake := maintain || polled.wake,
      worker := Ready)
  }

  /** A volume read took effect: the state every successful volume GET leaves. */
  function VolumeArrived(config: Config, s: State, status: VolumeStatus): State {
    RecordSuccess(config, ApplyVolume(s, status).(lastVolumeMono := Some(s.now)), false)
  }

  function MaintenanceFailed(config: Config, s: State, error: LsxError): State {
    RecordOptionalFailure(config, s.Log(Ended(MaintenanceRead, error.writeAttempted)), ClientError(error.fault))
      .(worker := Ready)
  }

  function MaintenanceArrived(config: Config, s: State, status: VolumeStatus): State {
    VolumeArrived(config, s.Log(Ended(MaintenanceRead, true)), status).(worker := Ready).Log(Maintained(s.now))
  }

  function ResolvingFailed(config: Config, s: State, job: Control, error: LsxError): State {
    var name := ClientError(error.fault);
    var logged := s.Log(Ended(ResolvingRead(job.job), error.writeAttempted));
    FinishControlError(RecordPrimaryFailure(config, logged, name, true), job, name, error.writeAttempted)
  }

  /** The volume read in front of a relative command arrived: the control goes back to the front. */
  function ResolvingArrived(config: Config, s: State, job: Control, status: VolumeStatus): State {
    var read := VolumeArrived(config, s.Log(Ended(ResolvingRead(job.job), true)), status);
    read.(controls := [job] + read.controls, worker := Ready).Log(Requeued(job.job))
  }

  /** The first attempt failed without a rejection: pause before the second. */
  function PauseBeforeRetry(config: Config, s: State, job: Control, wrote: bool, error: LsxError): State {
    var pause := Min(config.timing.retryDelay, Max(0, job.deadline - s.now));
    s.(worker := Sleeping(job, wrote, error, s.now + pause))
  }

  /** The speaker answered, with a refusal: no retry, and the channel works. */
  function WriteRejected(config: Config, s: State, job: Control, wrote: bool, error: LsxError): State {
    FinishAttempts(config, RecordSuccess(config, s, false), job, wrote, Some(error))
  }

  function AttemptFailed(config: Config, s: State, job: Control, attempt: nat, wrote: bool, error: LsxError): State {
    if attempt == 0 then PauseBeforeRetry(config, s, job, wrote, error)
    else FinishAttempts(config, s, job, wrote, Some(error))
  }

  /** The client call of an attempt raised `error`. */
  function WriteFailed(config: Config, s: State, error: LsxError): State
    requires s.worker.Writing?
  {
    var logged := s.Log(Ended(WriteOf(s.worker), error.writeAttempted));
    var job, wrote := s.worker.job, s.worker.wrote || error.writeAttempted;
    if error.fault.CommandRejected? then WriteRejected(config, logged, job, wrote, error)
    else AttemptFailed(config, logged, job, s.worker.attempt, wrote, error)
  }

  function WriteAcknowledged(config: Config, s: State): State
    requires s.worker.Writing?
  {
    FinishAcknowledged(config, s.Log(Ended(WriteOf(s.worker), true)), s.worker.job)
  }

  function WriteOf(worker: Worker): Exchange
    requires worker.Writing?
  {
    Write(worker.job.job, worker.attempt, worker.request)
  }

  // -------------------------------------------------------------------- steps

  datatype Event =
    | Start
    | SubmitCommand(command: Command)
    | PollState
    | Cancel(waiter: nat)
    | Tick(elapsed: nat)
    | CloseBegins
    | CloseForces
    | CloseEnds
    | WorkerTurn(drift: nat)
    | WorkerWakes
    | SourceReplies(source: Result<SourceStatus, LsxError>)
    | VolumeReplies(volume: Result<VolumeStatus, LsxError>)
    | WriteReplies(failure: Option<LsxError>)
    | RetryPauseEnds

  /** The worker is between a control's first attempt and its end. */
  predicate Trying(s: State) { s.worker.Writing? || s.worker.Sleeping? }

  /** The timer of an idle worker fired, or its event was set. */
  predicate CanWake(s: State) {
    s.worker.Idle? && (s.wake || (s.worker.timer.Some? && s.now >= s.worker.timer.value))
  }

  /** An event that cannot happen in a state leaves it alone. */
  function Step(config: Config, s: State, event: Event): State {
    match event
    case Start => StartWorker(s)
    case SubmitCommand(command) => Submit(config, s, KindOf(command), ValueOf(config, command))
    case PollState => PollOnce(s)
    case Cancel(waiter) => CancelWaiter(s, waiter)
    case Tick(elapsed) => s.(now := s.now + elapsed)
    case CloseBegins => BeginClose(s)
    case CloseForces => ForceStop(s)
    case CloseEnds => FinishClose(s)
    case WorkerTurn(drift) => if s.worker.Ready? then Turn(config, s, drift) else s
    case WorkerWakes => if CanWake(s) then s.(worker := Ready) else s
    case SourceReplies(source) =>
      if !s.worker.ReadingSource? then s
      else
        (match source
         case Success(status) => SourceArrived(config, s, s.worker.reason, status)
         case Failure(error) => SourceFailed(config, s, s.worker.reason, error))
    case VolumeReplies(volume) =>
      if s.worker.ReadingVolume? then
        (match volume
         case Success(status) => MaintenanceArrived(config, s, status)
         case Failure(error) => MaintenanceFailed(config, s, error))
      else if s.worker.Resolving? then
        (match volume
         case Success(status) => ResolvingArrived(config, s, s.worker.job, status)
         case Failure(error) => ResolvingFailed(config, s, s.worker.job, error))
      else s
    case WriteReplies(failure) =>
      if !s.worker.Writing? then s
      else
        (match failure
         case None => WriteAcknowledged(config, s)
         case Some(error) => WriteFailed(config, s, error))
    case RetryPauseEnds =>
      if s.worker.Sleeping? && s.now >= s.worker.until
      then BeginAttempt(config, s, s.worker.job, 1, s.worker.wrote, Some(s.worker.failure))
      else s
  }

  function Run(config: Config, s: State, events: seq<Event>): State
    decreases |events|
  {
    if events == [] then s else Run(config, Step(config, s, events[0]), events[1..])
  }
}
