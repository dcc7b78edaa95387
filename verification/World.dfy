/** The runtime and the speaker together: when the cached state is the speaker's own. */
module World {
  import opened Wrappers
  import opened Protocol
  import opened Client
  import opened Device
  import opened Scheduler
  import opened StepCases
  import opened Invariant

  datatype World = World(runtime: State, device: DeviceState)

  /** A step of the runtime, and whether the speaker obeyed the SET whose exchange it ends. */
  datatype Happening = Happening(event: Event, obeyed: bool)

  function ObeyRequest(device: DeviceState, request: Bytes): DeviceState {
    match ParseCommand(request)
    case None => device
    case Some(command) => Obey(device, command)
  }

  /** The step ends the exchange of the SET in flight, in a reply, an error or a forced stop. */
  predicate EndsWrite(s: State, event: Event) {
    s.worker.Writing? && (event.WriteReplies? || (event.CloseForces? && s.closing))
  }

  predicate Acknowledges(s: State, event: Event) {
    s.worker.Writing? && event == WriteReplies(None)
  }

  /**
   * What is assumed of the channel: replies to GETs are the speaker's state, an acknowledged SET
   * was obeyed, and any other SET was obeyed only if its bytes were handed over, before its
   * exchange ended.
   */
  predicate Faithful(w: World, h: Happening) {
    && (h.obeyed ==> EndsWrite(w.runtime, h.event))
    && (Acknowledges(w.runtime, h.event) ==> h.obeyed)
    && match h.event
       case SourceReplies(Success(status)) =>
         status == SourceStatus(w.device.source, w.device.standby, w.device.inverse, w.device.power)
       case VolumeReplies(Success(status)) => VolumeOf(w.device) == Success(status)
       case WriteReplies(Some(error)) => h.obeyed ==> error.writeAttempted
       case _ => true
  }

  function DeviceAfter(w: World, h: Happening): DeviceState {
    if h.obeyed && w.runtime.worker.Writing? then ObeyRequest(w.device, w.runtime.worker.request) else w.device
  }

  function Happen(config: Config, w: World, h: Happening): World {
    World(Step(config, w.runtime, h.event), DeviceAfter(w, h))
  }

  function Live(config: Config, w: World, happenings: seq<Happening>): World
    decreases |happenings|
  {
    if happenings == [] then w else Live(config, Happen(config, w, happenings[0]), happenings[1..])
  }

  predicate FaithfulRun(config: Config, w: World, happenings: seq<Happening>)
    decreases |happenings|
  {
    happenings != [] ==>
      Faithful(w, happenings[0]) && FaithfulRun(config, Happen(config, w, happenings[0]), happenings[1..])
  }

  // ------------------------------------------------------------------ agreement

  predicate VolumeMatches(speaker: SpeakerState, device: DeviceState) {
    speaker.volume == Some(device.volume) && speaker.muted == Some(device.muted)
  }

  predicate PowerMatches(speaker: SpeakerState, device: DeviceState) {
    speaker.powerOn == Some(device.power)
  }

  predicate SourceMatches(speaker: SpeakerState, device: DeviceState) {
    speaker.source == Some(device.source)
  }

  predicate VolumeAgrees(w: World) { VolumeMatches(w.runtime.snapshot.speaker, w.device) }

  predicate PowerAgrees(w: World) { PowerMatches(w.runtime.snapshot.speaker, w.device) }

  predicate SourceAgrees(w: World) { SourceMatches(w.runtime.snapshot.speaker, w.device) }

  /** A volume GET or SET is answered with success. */
  predicate HearsVolume(s: State, event: Event) {
    || (event.VolumeReplies? && event.volume.Success? && (s.worker.ReadingVolume? || s.worker.Resolving?))
    || (Acknowledges(s, event) && !s.worker.job.kind.ChangesSource())
  }

  /** A source GET, or a SET that names the source it switches to, is answered with success. */
  predicate HearsSource(s: State, event: Event) {
    || (event.SourceReplies? && event.source.Success? && s.worker.ReadingSource?)
    || (Acknowledges(s, event) && (s.worker.job.kind.TurnOn? || s.worker.job.kind.SelectSource?))
  }

  predicate SwitchesOff(s: State, event: Event) {
    Acknowledges(s, event) && s.worker.job.kind.TurnOff?
  }

  /** A SET was obeyed and its acknowledgement never came. */
  predicate LosesAck(w: World, h: Happening) {
    h.obeyed && w.runtime.worker.Writing? && !Acknowledges(w.runtime, h.event)
  }

  predicate LosesVolumeAck(w: World, h: Happening) {
    LosesAck(w, h) && !w.runtime.worker.job.kind.ChangesSource()
  }

  predicate LosesSourceAck(w: World, h: Happening) {
    LosesAck(w, h) && w.runtime.worker.job.kind.ChangesSource()
  }

  // ------------------------------------------------------------------- the cache

  lemma CallersLeaveTheCache(config: Config, s: State, event: Event)
    requires !event.SourceReplies? && !event.VolumeReplies? && !event.WriteReplies? && !event.WorkerTurn?
          && !event.RetryPauseEnds?
    ensures Step(config, s, event).snapshot.speaker == s.snapshot.speaker
  {
  }

  lemma FailedSourceReadLeavesTheCache(config: Config, s: State, reason: Reason, error: LsxError)
    ensures SourceFailed(config, s, reason, error).snapshot.speaker == s.snapshot.speaker
  {
  }

  lemma FailedVolumeReadLeavesTheCache(config: Config, s: State, job: Control, error: LsxError)
    ensures MaintenanceFailed(config, s, error).snapshot.speaker == s.snapshot.speaker
    ensures ResolvingFailed(config, s, job, error).snapshot.speaker == s.snapshot.speaker
  {
  }

  lemma FailedReadsLeaveTheCache(config: Config, s: State, event: Event)
    requires (event.SourceReplies? && event.source.Failure?) || (event.VolumeReplies? && event.volume.Failure?)
    ensures Step(config, s, event).snapshot.speaker == s.snapshot.speaker
  {
    match event
    case SourceReplies(Failure(error)) =>
      if s.worker.ReadingSource? { FailedSourceReadLeavesTheCache(config, s, s.worker.reason, error); }
    case VolumeReplies(Failure(error)) =>
      if s.worker.ReadingVolume? {
        FailedVolumeReadLeavesTheCache(config, s, Control(0, Mute, NoValue, 0, []), error);
      } else if s.worker.Resolving? {
        FailedVolumeReadLeavesTheCache(config, s, s.worker.job, error);
      }
  }

  lemma AttemptsLeaveTheCache(
    config: Config, s: State, job: Control, attempt: nat, wrote: bool, error: Option<LsxError>)
    ensures BeginAttempt(config, s, job, attempt, wrote, error).snapshot.speaker == s.snapshot.speaker
  {
    BeginAttemptEither(config, s, job, attempt, wrote, error);
  }

  lemma TurnsLeaveTheCache(config: Config, s: State, drift: nat)
    ensures Turn(config, s, drift).snapshot.speaker == s.snapshot.speaker
  {
    if s.closing || s.controls == [] {
      TurnTakesNone(config, s, drift);
    } else {
      TurnTakesControl(config, s, drift);
      var u, job := s.(controls := s.controls[1..]), s.controls[0];
      if StartsAttempt(u, job) {
        StartControlAttempts(config, u, job, drift);
        AttemptsLeaveTheCache(config, u.(now := u.now + drift), job, 0, false, None);
      } else {
        StartControlDoesNotAttempt(config, u, job, drift);
      }
    }
  }

  lemma FinishingLeavesTheCache(config: Config, s: State, job: Control, wrote: bool, error: Option<LsxError>)
    ensures FinishAttempts(config, s, job, wrote, error).snapshot.speaker == s.snapshot.speaker
  {
  }

  lemma RejectionLeavesTheCache(config: Config, s: State, job: Control, wrote: bool, error: LsxError)
    ensures WriteRejected(config, s, job, wrote, error).snapshot.speaker == s.snapshot.speaker
  {
  }

  lemma FailureLeavesTheCache(config: Config, s: State, job: Control, attempt: nat, wrote: bool, error: LsxError)
    ensures AttemptFailed(config, s, job, attempt, wrote, error).snapshot.speaker == s.snapshot.speaker
  {
    FinishingLeavesTheCache(config, s, job, wrote, Some(error));
  }

  lemma FailedWritesLeaveTheCache(config: Config, s: State, error: LsxError)
    requires s.worker.Writing?
    ensures WriteFailed(config, s, error).snapshot.speaker == s.snapshot.speaker
  {
    WriteFailedEither(config, s, error);
    var logged := s.Log(Ended(WriteOf(s.worker), error.writeAttempted));
    var job, wrote := s.worker.job, s.worker.wrote || error.writeAttempted;
    RejectionLeavesTheCache(config, logged, job, wrote, error);
    FailureLeavesTheCache(config, logged, job, s.worker.attempt, wrote, error);
  }

  /** The cached speaker state after a step: the speaker's answers change it, nothing else does. */
  function Heard(config: Config, s: State, event: Event): SpeakerState {
    var cached := s.snapshot.speaker;
    match event
    case SourceReplies(Success(status)) =>
      if s.worker.ReadingSource?
      then cached.(powerOn := Some(status.powerOn), source := Some(status.source))
      else cached
    case VolumeReplies(Success(status)) =>
      if s.worker.ReadingVolume? || s.worker.Resolving?
      then cached.(volume := Some(status.volume), muted := Some(status.muted))
      else cached
    case WriteReplies(None) => if s.worker.Writing? then ExpectedState(config, cached, s.worker.job) else cached
    case _ => cached
  }

  lemma SourceAnswersAreCached(config: Config, s: State, event: Event)
    requires event.SourceReplies? && event.source.Success?
    ensures Step(config, s, event).snapshot.speaker == Heard(config, s, event)
  {
  }

  lemma ReadVolumeIsCached(config: Config, s: State, job: Control, status: VolumeStatus)
    ensures MaintenanceArrived(config, s, status).snapshot.speaker
         == s.snapshot.speaker.(volume := Some(status.volume), muted := Some(status.muted))
    ensures ResolvingArrived(config, s, job, status).snapshot.speaker
         == s.snapshot.speaker.(volume := Some(status.volume), muted := Some(status.muted))
  {
  }

  lemma VolumeAnswersAreCached(config: Config, s: State, event: Event)
    requires event.VolumeReplies? && event.volume.Success?
    ensures Step(config, s, event).snapshot.speaker == Heard(config, s, event)
  {
    ReadVolumeIsCached(
      config, s, if s.worker.Resolving? then s.worker.job else Control(0, Mute, NoValue, 0, []), event.volume.value);
  }

  lemma AcknowledgementsAreCached(config: Config, s: State, event: Event)
    requires event == WriteReplies(None)
    ensures Step(config, s, event).snapshot.speaker == Heard(config, s, event)
  {
  }

  lemma OnlyAnswersTouchTheCache(config: Config, s: State, event: Event)
    ensures Step(config, s, event).snapshot.speaker == Heard(config, s, event)
  {
    match event
    case SourceReplies(source) =>
      if source.Failure? { FailedReadsLeaveTheCache(config, s, event); }
      else { SourceAnswersAreCached(config, s, event); }
    case VolumeReplies(volume) =>
      if volume.Failure? { FailedReadsLeaveTheCache(config, s, event); }
      else { VolumeAnswersAreCached(config, s, event); }
    case WriteReplies(None) => AcknowledgementsAreCached(config, s, event);
    case WriteReplies(Some(error)) => if s.worker.Writing? { FailedWritesLeaveTheCache(config, s, error); }
    case WorkerTurn(drift) => if s.worker.Ready? { TurnsLeaveTheCache(config, s, drift); }
    case RetryPauseEnds =>
      if s.worker.Sleeping? {
        AttemptsLeaveTheCache(config, s, s.worker.job, 1, s.worker.wrote, Some(s.worker.failure));
      }
    case _ => CallersLeaveTheCache(config, s, event);
  }

  // ---------------------------------------------------------------- one exchange

  /** The speaker after obeying the request in flight is what the scheduler expects of it. */
  lemma RequestObeyed(config: Config, s: State, device: DeviceState)
    requires Inv(config, s) && s.worker.Writing?
    ensures var job := s.worker.job;
            var after := ObeyRequest(device, s.worker.request);
            var expected := ExpectedState(config, s.snapshot.speaker, job);
            && (job.kind.ChangesSource() ==>
                  && job.value.SourceValue?
                  && after == device.(power := !job.kind.TurnOff?, source := job.value.source,
                                      standby := config.standby, inverse := config.inverse))
            && (!job.kind.ChangesSource() ==>
                  && expected.volume.Some? && expected.muted.Some?
                  && after == device.(volume := expected.volume.value, muted := expected.muted.value))
  {
    var speaker, job := s.snapshot.speaker, s.worker.job;
    RequestNeverFails(config, speaker, job);
    ExpectedVolumeSound(config, speaker, job);
    if job.kind.ChangesSource() {
      SourceSetObeyed(device, job.value.source, config.standby, config.inverse, !job.kind.TurnOff?);
    } else {
      var expected := ExpectedState(config, speaker, job);
      VolumeSetObeyed(device, expected.volume.value, expected.muted.value);
    }
  }

  /** Obeying the same request again changes nothing. */
  lemma ObeyingTwiceIsObeyingOnce(device: DeviceState, request: Bytes)
    ensures ObeyRequest(ObeyRequest(device, request), request) == ObeyRequest(device, request)
  {
  }

  lemma HeardVolumeMatches(config: Config, w: World, h: Happening)
    requires Inv(config, w.runtime) && Faithful(w, h) && HearsVolume(w.runtime, h.event)
    ensures VolumeMatches(Heard(config, w.runtime, h.event), DeviceAfter(w, h))
  {
    if w.runtime.worker.Writing? {
      RequestObeyed(config, w.runtime, w.device);
    }
  }

  /** After every answered volume GET and every acknowledged volume SET, cache and speaker agree. */
  lemma AnsweredVolumeAgrees(config: Config, w: World, h: Happening)
    requires Inv(config, w.runtime) && Faithful(w, h) && HearsVolume(w.runtime, h.event)
    ensures VolumeAgrees(Happen(config, w, h))
  {
    OnlyAnswersTouchTheCache(config, w.runtime, h.event);
    HeardVolumeMatches(config, w, h);
  }

  lemma HeardSourceMatches(config: Config, w: World, h: Happening)
    requires Inv(config, w.runtime) && Faithful(w, h) && HearsSource(w.runtime, h.event)
    ensures PowerMatches(Heard(config, w.runtime, h.event), DeviceAfter(w, h))
    ensures SourceMatches(Heard(config, w.runtime, h.event), DeviceAfter(w, h))
  {
    if w.runtime.worker.Writing? {
      RequestObeyed(config, w.runtime, w.device);
    }
  }

  /** After every answered source GET and every acknowledged turn-on or selection, power and source agree. */
  lemma AnsweredSourceAgrees(config: Config, w: World, h: Happening)
    requires Inv(config, w.runtime) && Faithful(w, h) && HearsSource(w.runtime, h.event)
    ensures PowerAgrees(Happen(config, w, h)) && SourceAgrees(Happen(config, w, h))
  {
    OnlyAnswersTouchTheCache(config, w.runtime, h.event);
    HeardSourceMatches(config, w, h);
  }

  lemma SwitchingOffMatches(config: Config, w: World, h: Happening)
    requires Inv(config, w.runtime) && Faithful(w, h) && SwitchesOff(w.runtime, h.event)
    ensures PowerMatches(Heard(config, w.runtime, h.event), DeviceAfter(w, h))
    ensures SourceMatches(Heard(config, w.runtime, h.event), DeviceAfter(w, h))
       <==> var cached := w.runtime.snapshot.speaker.source;
            cached.Some? && (config.preferredWakeSource.None? || config.preferredWakeSource == cached)
  {
    RequestObeyed(config, w.runtime, w.device);
  }

  /**
   * Switching off sends a source of its own choice and the cache does not follow: after the
   * acknowledgement the power agrees, and the source exactly when the cached one was known and
   * no other wake source is preferred.
   */
  lemma SwitchingOffAgreesExactly(config: Config, w: World, h: Happening)
    requires Inv(config, w.runtime) && Faithful(w, h) && SwitchesOff(w.runtime, h.event)
    ensures PowerAgrees(Happen(config, w, h))
    ensures SourceAgrees(Happen(config, w, h))
       <==> var cached := w.runtime.snapshot.speaker.source;
            cached.Some? && (config.preferredWakeSource.None? || config.preferredWakeSource == cached)
  {
    OnlyAnswersTouchTheCache(config, w.runtime, h.event);
    SwitchingOffMatches(config, w, h);
  }

  // -------------------------------------------------------------- what can change

  lemma VolumeStillMatches(config: Config, w: World, h: Happening)
    requires Inv(config, w.runtime) && Faithful(w, h) && VolumeAgrees(w) && !LosesVolumeAck(w, h)
    requires !HearsVolume(w.runtime, h.event)
    ensures VolumeMatches(Heard(config, w.runtime, h.event), DeviceAfter(w, h))
  {
    if w.runtime.worker.Writing? {
      RequestObeyed(config, w.runtime, w.device);
    }
  }

  lemma VolumeStaysAgreed(config: Config, w: World, h: Happening)
    requires Inv(config, w.runtime) && Faithful(w, h) && VolumeAgrees(w) && !LosesVolumeAck(w, h)
    ensures VolumeAgrees(Happen(config, w, h))
  {
    OnlyAnswersTouchTheCache(config, w.runtime, h.event);
    if HearsVolume(w.runtime, h.event) {
      HeardVolumeMatches(config, w, h);
    } else {
      VolumeStillMatches(config, w, h);
    }
  }

  /** Switching off to another source than the cached one. */
  predicate SwitchesSourceAway(config: Config, w: World, h: Happening) {
    && SwitchesOff(w.runtime, h.event)
    && config.preferredWakeSource.Some? && config.preferredWakeSource != w.runtime.snapshot.speaker.source
  }

  lemma SourceStillMatches(config: Config, w: World, h: Happening)
    requires Inv(config, w.runtime) && Faithful(w, h) && !LosesSourceAck(w, h)
    requires !HearsSource(w.runtime, h.event)
    ensures PowerAgrees(w) ==> PowerMatches(Heard(config, w.runtime, h.event), DeviceAfter(w, h))
    ensures SourceAgrees(w) && !SwitchesSourceAway(config, w, h) ==>
              SourceMatches(Heard(config, w.runtime, h.event), DeviceAfter(w, h))
  {
    if SwitchesOff(w.runtime, h.event) {
      SwitchingOffMatches(config, w, h);
    } else if w.runtime.worker.Writing? {
      RequestObeyed(config, w.runtime, w.device);
    }
  }

  lemma SourceStaysAgreed(config: Config, w: World, h: Happening)
    requires Inv(config, w.runtime) && Faithful(w, h) && !LosesSourceAck(w, h)
    ensures PowerAgrees(w) ==> PowerAgrees(Happen(config, w, h))
    ensures SourceAgrees(w) && !SwitchesSourceAway(config, w, h) ==> SourceAgrees(Happen(config, w, h))
  {
    OnlyAnswersTouchTheCache(config, w.runtime, h.event);
    if HearsSource(w.runtime, h.event) {
      HeardSourceMatches(config, w, h);
    } else {
      SourceStillMatches(config, w, h);
    }
  }

  // ------------------------------------------------------------------ whole runs

  predicate VolumeAcksArrive(config: Config, w: World, happenings: seq<Happening>)
    decreases |happenings|
  {
    happenings != [] ==>
      && !LosesVolumeAck(w, happenings[0])
      && VolumeAcksArrive(config, Happen(config, w, happenings[0]), happenings[1..])
  }

  predicate SourceAcksArrive(config: Config, w: World, happenings: seq<Happening>)
    decreases |happenings|
  {
    happenings != [] ==>
      && !LosesSourceAck(w, happenings[0])
      && SourceAcksArrive(config, Happen(config, w, happenings[0]), happenings[1..])
  }

  predicate StaysOnSource(config: Config, w: World, happenings: seq<Happening>)
    decreases |happenings|
  {
    happenings != [] ==>
      && !SwitchesSourceAway(config, w, happenings[0])
      && StaysOnSource(config, Happen(config, w, happenings[0]), happenings[1..])
  }

  lemma {:induction false} LiveKeeps(config: Config, w: World, happenings: seq<Happening>)
    requires Inv(config, w.runtime)
    ensures Inv(config, Live(config, w, happenings).runtime)
    decreases |happenings|
  {
    if happenings != [] {
      StepKeeps(config, w.runtime, happenings[0].event);
      LiveKeeps(config, Happen(config, w, happenings[0]), happenings[1..]);
    }
  }

  lemma {:induction false} VolumeStaysAgreedOver(config: Config, w: World, happenings: seq<Happening>)
    requires Inv(config, w.runtime) && VolumeAgrees(w)
    requires FaithfulRun(config, w, happenings) && VolumeAcksArrive(config, w, happenings)
    ensures VolumeAgrees(Live(config, w, happenings))
    decreases |happenings|
  {
    if happenings != [] {
      VolumeStaysAgreed(config, w, happenings[0]);
      StepKeeps(config, w.runtime, happenings[0].event);
      VolumeStaysAgreedOver(config, Happen(config, w, happenings[0]), happenings[1..]);
    }
  }

  lemma {:induction false} SourceStaysAgreedOver(config: Config, w: World, happenings: seq<Happening>)
    requires Inv(config, w.runtime)
    requires FaithfulRun(config, w, happenings) && SourceAcksArrive(config, w, happenings)
    ensures PowerAgrees(w) ==> PowerAgrees(Live(config, w, happenings))
    ensures SourceAgrees(w) && StaysOnSource(config, w, happenings) ==> SourceAgrees(Live(config, w, happenings))
    decreases |happenings|
  {
    if happenings != [] {
      SourceStaysAgreed(config, w, happenings[0]);
      StepKeeps(config, w.runtime, happenings[0].event);
      SourceStaysAgreedOver(config, Happen(config, w, happenings[0]), happenings[1..]);
    }
  }

  lemma VolumeAgreesFrom(config: Config, w: World, h: Happening, after: seq<Happening>)
    requires Inv(config, w.runtime) && HearsVolume(w.runtime, h.event) && Faithful(w, h)
    requires FaithfulRun(config, Happen(config, w, h), after) && VolumeAcksArrive(config, Happen(config, w, h), after)
    ensures VolumeAgrees(Live(config, Happen(config, w, h), after))
  {
    StepKeeps(config, w.runtime, h.event);
    AnsweredVolumeAgrees(config, w, h);
    VolumeStaysAgreedOver(config, Happen(config, w, h), after);
  }

  lemma SourceAgreesFrom(config: Config, w: World, h: Happening, after: seq<Happening>)
    requires Inv(config, w.runtime) && HearsSource(w.runtime, h.event) && Faithful(w, h)
    requires FaithfulRun(config, Happen(config, w, h), after) && SourceAcksArrive(config, Happen(config, w, h), after)
    ensures PowerAgrees(Live(config, Happen(config, w, h), after))
    ensures StaysOnSource(config, Happen(config, w, h), after) ==>
              SourceAgrees(Live(config, Happen(config, w, h), after))
  {
    StepKeeps(config, w.runtime, h.event);
    AnsweredSourceAgrees(config, w, h);
    SourceStaysAgreedOver(config, Happen(config, w, h), after);
  }

  /**
   * From any answered volume exchange on, the cached volume and mute are the speaker's, unless
   * the acknowledgement of a later volume SET that was obeyed is lost.
   */
  lemma VolumeAgreesSinceAnswer(
    config: Config, start: int, device: DeviceState, before: seq<Happening>, h: Happening, after: seq<Happening>)
    requires var w := Live(config, World(Initial(start), device), before);
             && HearsVolume(w.runtime, h.event) && Faithful(w, h)
             && FaithfulRun(config, Happen(config, w, h), after)
             && VolumeAcksArrive(config, Happen(config, w, h), after)
    ensures var w := Live(config, World(Initial(start), device), before);
            VolumeAgrees(Live(config, Happen(config, w, h), after))
  {
    LiveKeeps(config, World(Initial(start), device), before);
    VolumeAgreesFrom(config, Live(config, World(Initial(start), device), before), h, after);
  }

  /**
   * From any answered source GET, turn-on or selection on, the cached power is the speaker's
   * unless a later obeyed source SET is not acknowledged, and the cached source is unless,
   * besides, the speaker is switched off to another source than the cached one.
   */
  lemma SourceAgreesSinceAnswer(
    config: Config, start: int, device: DeviceState, before: seq<Happening>, h: Happening, after: seq<Happening>)
    requires var w := Live(config, World(Initial(start), device), before);
             && HearsSource(w.runtime, h.event) && Faithful(w, h)
             && FaithfulRun(config, Happen(config, w, h), after)
             && SourceAcksArrive(config, Happen(config, w, h), after)
    ensures var u := Happen(config, Live(config, World(Initial(start), device), before), h);
            && PowerAgrees(Live(config, u, after))
            && (StaysOnSource(config, u, after) ==> SourceAgrees(Live(config, u, after)))
  {
    LiveKeeps(config, World(Initial(start), device), before);
    SourceAgreesFrom(config, Live(config, World(Initial(start), device), before), h, after);
  }
}
