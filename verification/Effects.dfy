/** What sending a command does to the speaker: retries, the bytes on the wire, and a misreported source. */
module Effects {
  import opened Wrappers
  import opened Protocol
  import opened Client
  import opened Device
  import opened Scheduler
  import opened StepCases
  import opened Invariant
  import opened World

  // --------------------------------------------------------------------- retries

  /** The worker is with one control, between its first write and the end of the last. */
  predicate KeepsTrying(config: Config, w: World, happenings: seq<Happening>)
    decreases |happenings|
  {
    && Trying(w.runtime)
    && (happenings != [] ==> KeepsTrying(config, Happen(config, w, happenings[0]), happenings[1..]))
  }

  lemma FailureKeepsJob(config: Config, s: State, error: LsxError)
    requires s.worker.Writing? && Trying(WriteFailed(config, s, error))
    ensures WriteFailed(config, s, error).worker.job == s.worker.job
  {
    WriteFailedEither(config, s, error);
  }

  lemma RetryKeepsJob(config: Config, s: State)
    requires s.worker.Sleeping? && Prepare(config, s.snapshot.speaker, s.worker.job) == s.worker.job
    ensures var t := BeginAttempt(config, s, s.worker.job, 1, s.worker.wrote, Some(s.worker.failure));
            Trying(t) ==> t.worker.job == s.worker.job
  {
    BeginAttemptEither(config, s, s.worker.job, 1, s.worker.wrote, Some(s.worker.failure));
  }

  lemma CallersKeepJob(config: Config, s: State, event: Event)
    requires Trying(s) && !event.WriteReplies? && !event.RetryPauseEnds?
    ensures Trying(Step(config, s, event)) ==> Step(config, s, event).worker == s.worker
  {
  }

  /** While the worker keeps trying it is with the same control and the cache does not move. */
  lemma TryingStep(config: Config, s: State, event: Event)
    requires Inv(config, s) && Trying(s) && Trying(Step(config, s, event))
    ensures var t := Step(config, s, event);
            t.worker.job == s.worker.job && t.snapshot.speaker == s.snapshot.speaker
  {
    OnlyAnswersTouchTheCache(config, s, event);
    match event
    case WriteReplies(Some(error)) => if s.worker.Writing? { FailureKeepsJob(config, s, error); }
    case WriteReplies(None) =>
    case RetryPauseEnds => if s.worker.Sleeping? { RetryKeepsJob(config, s); }
    case _ => CallersKeepJob(config, s, event);
  }

  /** The speaker as it was, or as one SET of `request` leaves it. */
  predicate ObeyedAtMostOnce(device: DeviceState, request: Bytes, after: DeviceState) {
    after == device || after == ObeyRequest(device, request)
  }

  lemma {:induction false} TryingObeysOnce(
    config: Config, w: World, happenings: seq<Happening>, device: DeviceState, request: Bytes)
    requires Inv(config, w.runtime) && KeepsTrying(config, w, happenings)
    requires RequestFor(config, w.runtime.snapshot.speaker, w.runtime.worker.job) == Success(request)
    requires ObeyedAtMostOnce(device, request, w.device)
    ensures var u := Live(config, w, happenings);
            && Inv(config, u.runtime) && Trying(u.runtime)
            && u.runtime.worker.job == w.runtime.worker.job
            && u.runtime.snapshot.speaker == w.runtime.snapshot.speaker
            && ObeyedAtMostOnce(device, request, u.device)
    decreases |happenings|
  {
    if happenings != [] {
      TryingStep(config, w.runtime, happenings[0].event);
      StepKeeps(config, w.runtime, happenings[0].event);
      ObeyingTwiceIsObeyingOnce(device, request);
      TryingObeysOnce(config, Happen(config, w, happenings[0]), happenings[1..], device, request);
    }
  }

  /** What a control's attempts from `w` to their end `v` did to the speaker and the cache. */
  predicate TookEffectOnce(config: Config, w: World, v: World, acknowledged: bool)
    requires w.runtime.worker.Writing?
  {
    var job, request := w.runtime.worker.job, w.runtime.worker.request;
    && ObeyedAtMostOnce(w.device, request, v.device)
    && (acknowledged ==>
          && v.device == ObeyRequest(w.device, request)
          && v.runtime.snapshot.speaker == ExpectedState(config, w.runtime.snapshot.speaker, job)
          && (!job.kind.ChangesSource() ==> VolumeAgrees(v)))
  }

  lemma LastAttemptTakesEffect(config: Config, w: World, u: World, last: Happening)
    requires w.runtime.worker.Writing? && Inv(config, u.runtime) && Trying(u.runtime) && Faithful(u, last)
    requires u.runtime.worker.job == w.runtime.worker.job && u.runtime.snapshot.speaker == w.runtime.snapshot.speaker
    requires ObeyedAtMostOnce(w.device, w.runtime.worker.request, u.device)
    requires RequestFor(config, w.runtime.snapshot.speaker, w.runtime.worker.job) == Success(w.runtime.worker.request)
    ensures TookEffectOnce(config, w, Happen(config, u, last), Acknowledges(u.runtime, last.event))
  {
    ObeyingTwiceIsObeyingOnce(w.device, w.runtime.worker.request);
    OnlyAnswersTouchTheCache(config, u.runtime, last.event);
    if Acknowledges(u.runtime, last.event) && !w.runtime.worker.job.kind.ChangesSource() {
      HeardVolumeMatches(config, u, last);
    }
  }

  lemma RetriesTakeEffectOnceFrom(config: Config, w: World, trying: seq<Happening>, last: Happening)
    requires Inv(config, w.runtime) && w.runtime.worker.Writing? && KeepsTrying(config, w, trying)
    requires Faithful(Live(config, w, trying), last)
    ensures var u := Live(config, w, trying);
            TookEffectOnce(config, w, Happen(config, u, last), Acknowledges(u.runtime, last.event))
  {
    TryingObeysOnce(config, w, trying, w.device, w.runtime.worker.request);
    LastAttemptTakesEffect(config, w, Live(config, w, trying), last);
  }

  /**
   * A control's attempts move the speaker at most once, whatever is lost: from its first write
   * until the worker lets go of it, the speaker is as before or as after one request. Once it
   * is acknowledged a volume control leaves exactly the volume it meant at its first write.
   */
  lemma RetriesTakeEffectOnce(
    config: Config, start: int, device: DeviceState, before: seq<Happening>, trying: seq<Happening>, last: Happening)
    requires var w := Live(config, World(Initial(start), device), before);
             && w.runtime.worker.Writing? && KeepsTrying(config, w, trying)
             && Faithful(Live(config, w, trying), last)
    ensures var w := Live(config, World(Initial(start), device), before);
            var u := Live(config, w, trying);
            TookEffectOnce(config, w, Happen(config, u, last), Acknowledges(u.runtime, last.event))
  {
    LiveKeeps(config, World(Initial(start), device), before);
    RetriesTakeEffectOnceFrom(config, Live(config, World(Initial(start), device), before), trying, last);
  }

  /** What a listener expects a command to do to a speaker that was in the cached state. */
  function Intended(config: Config, cached: SpeakerState, device: DeviceState, job: Control): DeviceState {
    var wakeSource :=
      if config.preferredWakeSource.Some? then config.preferredWakeSource.value
      else if cached.source.Some? then cached.source.value
      else Opt;
    var adjusted := device.(standby := config.standby, inverse := config.inverse);
    match job.kind
    case TurnOn => adjusted.(power := true, source := wakeSource)
    case TurnOff => adjusted.(power := false, source := wakeSource)
    case SelectSource => adjusted.(power := true, source := if job.value.SourceValue? then job.value.source else Opt)
    case SetVolume => device.(volume := Percent(job.value))
    case VolumeUp => device.(volume := Min(config.maximumVolume, device.volume + config.volumeStep))
    case VolumeDown => device.(volume := Max(0, device.volume - config.volumeStep))
    case Mute => device.(muted := true)
    case Unmute => device.(muted := false)
  }

  lemma RequestIsIntended(config: Config, w: World)
    requires Inv(config, w.runtime) && w.runtime.worker.Writing?
    requires VolumeAgrees(w) || w.runtime.worker.job.kind.ChangesSource()
    ensures ObeyRequest(w.device, w.runtime.worker.request)
         == Intended(config, w.runtime.snapshot.speaker, w.device, w.runtime.worker.job)
  {
    RequestObeyed(config, w.runtime, w.device);
  }

  /**
   * Every command does to a speaker that agreed with the cache what it is meant to do, once,
   * however often it was sent: a step is one step, and nothing else about the speaker changes.
   */
  lemma CommandsTakeEffectOnce(
    config: Config, start: int, device: DeviceState, before: seq<Happening>, trying: seq<Happening>, last: Happening)
    requires var w := Live(config, World(Initial(start), device), before);
             && w.runtime.worker.Writing?
             && (VolumeAgrees(w) || w.runtime.worker.job.kind.ChangesSource())
             && KeepsTrying(config, w, trying)
             && Faithful(Live(config, w, trying), last)
    ensures var w := Live(config, World(Initial(start), device), before);
            var intended := Intended(config, w.runtime.snapshot.speaker, w.device, w.runtime.worker.job);
            var u := Live(config, w, trying);
            && Happen(config, u, last).device in {w.device, intended}
            && (Acknowledges(u.runtime, last.event) ==> Happen(config, u, last).device == intended)
  {
    LiveKeeps(config, World(Initial(start), device), before);
    var w := Live(config, World(Initial(start), device), before);
    RetriesTakeEffectOnceFrom(config, w, trying, last);
    RequestIsIntended(config, w);
  }

  // -------------------------------------------------------------------- the wire

  lemma {:induction false} LiveKeepsDevice(config: Config, w: World, happenings: seq<Happening>)
    requires w.device.Valid()
    ensures Live(config, w, happenings).device.Valid()
    decreases |happenings|
  {
    if happenings != [] {
      var s := w.runtime;
      if happenings[0].obeyed && s.worker.Writing? && ParseCommand(s.worker.request).Some? {
        ObeyKeepsValid(w.device, ParseCommand(s.worker.request).value);
      }
      LiveKeepsDevice(config, Happen(config, w, happenings[0]), happenings[1..]);
    }
  }

  /** What the client makes of the speaker's bytes, however they are cut, is faithful: GETs. */
  lemma WireGetsAreFaithful(w: World, chunks: seq<Chunk>, ending: Ending)
    requires w.device.Valid()
    ensures Flatten(chunks) == Reply(w.device, EncodeGet(SOURCE_REGISTER).value) ==>
              var reply := SourceReply(ReadLoop(Some(SOURCE_REGISTER), [], 0, chunks, ending).result);
              reply.Success? && Faithful(w, Happening(SourceReplies(reply), false))
    ensures Flatten(chunks) == Reply(w.device, EncodeGet(VOLUME_REGISTER).value) ==>
              var reply := VolumeReply(ReadLoop(Some(VOLUME_REGISTER), [], 0, chunks, ending).result);
              Faithful(w, Happening(VolumeReplies(reply), false))
  {
    if Flatten(chunks) == Reply(w.device, EncodeGet(SOURCE_REGISTER).value) {
      SourceGetEndToEnd(w.device, chunks, ending);
    }
    if Flatten(chunks) == Reply(w.device, EncodeGet(VOLUME_REGISTER).value) {
      VolumeGetEndToEnd(w.device, chunks, ending);
    }
  }

  /** ... SETs: the speaker understands every request the worker writes, and its reply acknowledges it. */
  lemma WireSetsAreFaithful(config: Config, w: World, chunks: seq<Chunk>, ending: Ending)
    requires Inv(config, w.runtime) && w.runtime.worker.Writing? && w.device.Valid()
    ensures ParseCommand(w.runtime.worker.request).Some?
    ensures Flatten(chunks) == Reply(w.device, w.runtime.worker.request) ==>
              && ReadLoop(None, [], 0, chunks, ending).result == ExchangeResult.Acknowledged
              && Faithful(w, Happening(WriteReplies(None), true))
  {
    var s := w.runtime;
    var speaker, job := s.snapshot.speaker, s.worker.job;
    RequestNeverFails(config, speaker, job);
    if job.kind.ChangesSource() {
      SourceSetObeyed(w.device, job.value.source, config.standby, config.inverse, !job.kind.TurnOff?);
    } else {
      ExpectedVolumeSound(config, speaker, job);
      var expected := ExpectedState(config, speaker, job);
      VolumeSetObeyed(w.device, expected.volume.value, expected.muted.value);
    }
    if Flatten(chunks) == SET_OK {
      SetEndToEnd(chunks, ending);
    }
  }

  /**
   * ... and failing exchanges: a speaker obeys only what was handed to a connection, and the
   * error says whether that was so.
   */
  lemma WireFailuresAreFaithful(w: World, script: Script, obeyed: bool)
    requires w.runtime.worker.Writing? && SetOutcome(script).Some?
    requires obeyed ==> w.runtime.worker.request in Handed(false, w.runtime.worker.request, script)
    ensures Faithful(w, Happening(WriteReplies(SetOutcome(script)), obeyed))
  {
    WriteFlagIsExact(false, None, script);
  }

  // ------------------------------------------------------ a misreported source

  lemma LiveOne(config: Config, w: World, h: Happening, rest: seq<Happening>)
    ensures Live(config, w, [h] + rest) == Live(config, Happen(config, w, h), rest)
    ensures FaithfulRun(config, w, [h] + rest) <==> Faithful(w, h) && FaithfulRun(config, Happen(config, w, h), rest)
  {
    assert ([h] + rest)[1..] == rest;
  }

  /** The worker is ready, nothing is queued, and the speaker plays and is known to play `source`. */
  predicate KnownToPlay(w: World, source: Source, now: int) {
    var s := w.runtime;
    (s.worker, s.closing, s.controls, s.now, s.snapshot.speaker.source, w.device.source)
      == (Ready, false, [], now, Some(source), source)
  }

  /** A first poll answered by the speaker. */
  lemma FirstPoll(config: Config, start: int, device: DeviceState) returns (happenings: seq<Happening>)
    ensures var w := World(Initial(start), device);
            FaithfulRun(config, w, happenings) && KnownToPlay(Live(config, w, happenings), device.source, start)
  {
    var status := SourceStatus(device.source, device.standby, device.inverse, device.power);
    var begin, turn, reply :=
      Happening(Start, false), Happening(WorkerTurn(0), false), Happening(SourceReplies(Success(status)), false);
    var w0 := World(Initial(start), device);
    var w1 := World(StartWorker(Initial(start)), device);
    var w2 := World(StartSourceRead(w1.runtime, Poll), device);
    assert Happen(config, w0, begin) == w1;
    assert Happen(config, w1, turn) == w2;
    happenings := [begin] + ([turn] + ([reply] + []));
    LiveOne(config, w0, begin, [turn] + ([reply] + []));
    LiveOne(config, w1, turn, [reply] + []);
    LiveOne(config, w2, reply, []);
    FirstReply(config, w2, status);
  }

  lemma FirstReply(config: Config, w: World, status: SourceStatus)
    requires w.runtime.worker == ReadingSource(Poll) && !w.runtime.closing && w.runtime.controls == []
    requires status == SourceStatus(w.device.source, w.device.standby, w.device.inverse, w.device.power)
    ensures var h := Happening(SourceReplies(Success(status)), false);
            KnownToPlay(Happen(config, w, h), w.device.source, w.runtime.now)
  {
  }

  /** From there a turn-off is accepted, taken and handed to the client. */
  lemma TurnOffIsWritten(config: Config, s: State)
    requires s.worker == Ready && !s.closing && s.controls == [] && StandbySupported(config.standby)
    requires config.timing.controlDeadline > 0
    ensures var t := Turn(config, Enqueue(config, s, TurnOff, NoValue), 0);
            t.worker.Writing? && t.worker.job.kind.TurnOff? && t.snapshot.speaker == s.snapshot.speaker
  {
    var u := Enqueue(config, s, TurnOff, NoValue);
    var job := u.controls[0];
    var popped := u.(controls := u.controls[1..]);
    assert job == Control(s.nextJob, TurnOff, NoValue, s.now + config.timing.controlDeadline, [|s.futures|]);
    assert |s.futures| in job.waiters && u.futures[|s.futures|].outcome.Pending?;
    TurnTakesControl(config, u, 0);
    StartControlAttempts(config, popped, job, 0);
    TurnOffIsHanded(config, popped.(now := popped.now + 0), job);
  }

  lemma TurnOffIsHanded(config: Config, s: State, job: Control)
    requires job.kind.TurnOff? && !GivesUp(s, job) && StandbySupported(config.standby)
    ensures var t := BeginAttempt(config, s, job, 0, false, None);
            t.worker.Writing? && t.worker.job.kind.TurnOff? && t.snapshot.speaker == s.snapshot.speaker
  {
    SourceRoundTrip(SourceForPowerCommand(config, s.snapshot.speaker), config.standby, config.inverse, false);
  }

  /** A preferred wake source is enough: a speaker playing another one is switched off and misreported. */
  lemma SwitchingOffCanMisreport(config: Config, start: int, device: DeviceState)
    requires config.timing.controlDeadline > 0 && StandbySupported(config.standby)
    requires config.preferredWakeSource.Some? && config.preferredWakeSource != Some(device.source)
    ensures exists happenings: seq<Happening> ::
              var w := Live(config, World(Initial(start), device), happenings);
              && FaithfulRun(config, World(Initial(start), device), happenings)
              && w.runtime.snapshot.speaker.source == Some(device.source) && !SourceAgrees(w)
  {
    var polling := FirstPoll(config, start, device);
    var w0 := World(Initial(start), device);
    var w := Live(config, w0, polling);
    LiveKeeps(config, w0, polling);
    var switching := SwitchedOff(config, w, device.source, start);
    LiveConcat(config, w0, polling, switching);
  }

  lemma AcknowledgedTurnOffMisreports(config: Config, w: World, source: Source)
    requires Inv(config, w.runtime) && w.runtime.worker.Writing? && w.runtime.worker.job.kind.TurnOff?
    requires w.runtime.snapshot.speaker.source == Some(source)
    requires config.preferredWakeSource.Some? && config.preferredWakeSource != Some(source)
    ensures var h := Happening(WriteReplies(None), true);
            && Faithful(w, h) && !SourceAgrees(Happen(config, w, h))
            && Happen(config, w, h).runtime.snapshot.speaker.source == Some(source)
  {
    SwitchingOffAgreesExactly(config, w, Happening(WriteReplies(None), true));
    OnlyAnswersTouchTheCache(config, w.runtime, WriteReplies(None));
  }

  lemma SwitchedOff(config: Config, w: World, source: Source, now: int) returns (happenings: seq<Happening>)
    requires KnownToPlay(w, source, now) && Inv(config, w.runtime)
    requires config.timing.controlDeadline > 0 && StandbySupported(config.standby)
    requires config.preferredWakeSource.Some? && config.preferredWakeSource != Some(source)
    ensures FaithfulRun(config, w, happenings)
    ensures Live(config, w, happenings).runtime.snapshot.speaker.source == Some(source)
    ensures !SourceAgrees(Live(config, w, happenings))
  {
    var submit, turn, reply := Happening(SubmitCommand(CommandTurnOff), false), Happening(WorkerTurn(0), false),
                               Happening(WriteReplies(None), true);
    var w1, w2 := Happen(config, w, submit), Happen(config, Happen(config, w, submit), turn);
    SubmittedTurnOffIsWritten(config, w, source, now);
    happenings := [submit] + ([turn] + ([reply] + []));
    LiveOne(config, w, submit, [turn] + ([reply] + []));
    LiveOne(config, w1, turn, [reply] + []);
    LiveOne(config, w2, reply, []);
    StepKeeps(config, w.runtime, submit.event);
    StepKeeps(config, w1.runtime, turn.event);
    AcknowledgedTurnOffMisreports(config, w2, source);
  }

  lemma SubmittedTurnOffIsWritten(config: Config, w: World, source: Source, now: int)
    requires KnownToPlay(w, source, now) && config.timing.controlDeadline > 0 && StandbySupported(config.standby)
    ensures var submit, turn := Happening(SubmitCommand(CommandTurnOff), false), Happening(WorkerTurn(0), false);
            var w2 := Happen(config, Happen(config, w, submit), turn);
            && Faithful(w, submit) && Faithful(Happen(config, w, submit), turn)
            && w2.runtime.worker.Writing? && w2.runtime.worker.job.kind.TurnOff?
            && w2.runtime.snapshot.speaker == w.runtime.snapshot.speaker
  {
    var u := Enqueue(config, w.runtime, TurnOff, NoValue);
    assert Happen(config, w, Happening(SubmitCommand(CommandTurnOff), false)) == World(u, w.device);
    TurnOffIsWritten(config, w.runtime);
  }

  lemma {:induction false} LiveConcat(config: Config, w: World, a: seq<Happening>, b: seq<Happening>)
    ensures Live(config, w, a + b) == Live(config, Live(config, w, a), b)
    ensures FaithfulRun(config, w, a + b)
       <==> FaithfulRun(config, w, a) && FaithfulRun(config, Live(config, w, a), b)
    decreases |a|
  {
    if a == [] {
      assert a + b == b;
    } else {
      assert a + b == [a[0]] + (a[1..] + b) && a == [a[0]] + a[1..];
      LiveOne(config, w, a[0], a[1..] + b);
      LiveConcat(config, Happen(config, w, a[0]), a[1..], b);
    }
  }
}
