/** Merging and putting back do not change what the accepted requests add up to. */
module Coalescing {
  import opened Wrappers
  import opened Protocol
  import opened Client
  import opened Scheduler
  import opened StepCases
  import opened Invariant
  import opened Progress

  /** The cached state after a request takes effect; power requests pick their source then. */
  function Meant(config: Config, speaker: SpeakerState, kind: Kind, value: Value): SpeakerState {
    ExpectedState(config, speaker, Prepare(config, speaker, Control(0, kind, value, 0, [])))
  }

  /** Controls executed one after the other. */
  function Fold(config: Config, speaker: SpeakerState, jobs: seq<Control>): SpeakerState
    decreases |jobs|
  {
    if jobs == [] then speaker else Fold(config, Meant(config, speaker, jobs[0].kind, jobs[0].value), jobs[1..])
  }

  datatype Request = Request(kind: Kind, value: Value)

  function FoldRequests(config: Config, speaker: SpeakerState, requests: seq<Request>): SpeakerState
    decreases |requests|
  {
    if requests == [] then speaker
    else FoldRequests(config, Meant(config, speaker, requests[0].kind, requests[0].value), requests[1..])
  }

  /** A cached state with the volume and mute that a read reports. */
  function WithLevel(speaker: SpeakerState, level: Option<VolumeStatus>): SpeakerState {
    match level
    case None => speaker
    case Some(status) => speaker.(volume := Some(status.volume), muted := Some(status.muted))
  }

  /** The cached state once everything outstanding has taken effect, given the level still to be read. */
  function Meaning(config: Config, s: State, level: Option<VolumeStatus>): SpeakerState {
    Fold(config, WithLevel(s.snapshot.speaker, level), s.Outstanding())
  }

  /** The volume read in front of a relative command is answered. */
  predicate ReadsEarly(s: State, event: Event) {
    s.worker.Resolving? && event.VolumeReplies? && event.volume.Success?
  }

  /** What the first such read of a run reports. */
  function EarlyRead(config: Config, s: State, events: seq<Event>): Option<VolumeStatus>
    decreases |events|
  {
    if events == [] then None
    else if ReadsEarly(s, events[0]) then Some(events[0].volume.value)
    else EarlyRead(config, Step(config, s, events[0]), events[1..])
  }

  /** The request an event gets accepted, one by one and before any merging. */
  function AcceptedBy(config: Config, s: State, event: Event): seq<Request> {
    if event.SubmitCommand? && Judge(s, KindOf(event.command)).Admitted?
    then [Request(KindOf(event.command), ValueOf(config, event.command))]
    else []
  }

  function AcceptedIn(config: Config, s: State, events: seq<Event>): seq<Request>
    decreases |events|
  {
    if events == [] then []
    else AcceptedBy(config, s, events[0]) + AcceptedIn(config, Step(config, s, events[0]), events[1..])
  }

  /**
   * The event loses no control: it does not close, no write is rejected or fails for good, and a
   * control that is taken is wanted and in time. No GET is answered but the volume read in front
   * of a relative command, which is.
   */
  predicate Undisturbed(s: State, event: Event) {
    match event
    case CloseBegins => false
    case CloseForces => false
    case SourceReplies(source) => s.worker.ReadingSource? ==> source.Failure?
    case VolumeReplies(volume) =>
      (s.worker.Resolving? ==> volume.Success?) && (s.worker.ReadingVolume? ==> volume.Failure?)
    case WriteReplies(failure) =>
      s.worker.Writing? && failure.Some? ==> !failure.value.fault.CommandRejected? && s.worker.attempt == 0
    case WorkerTurn(drift) =>
      s.worker.Ready? && s.controls != [] ==>
        !AllCancelled(s.futures, s.controls[0].waiters) && s.now + drift < s.controls[0].deadline
    case RetryPauseEnds => s.worker.Sleeping? ==> s.now < s.worker.job.deadline
    case _ => true
  }

  predicate UndisturbedRun(config: Config, s: State, events: seq<Event>)
    decreases |events|
  {
    events != [] ==> Undisturbed(s, events[0]) && UndisturbedRun(config, Step(config, s, events[0]), events[1..])
  }

  // ------------------------------------------------------------------- folding

  lemma {:induction false} FoldAppend(config: Config, speaker: SpeakerState, jobs: seq<Control>, job: Control)
    ensures Fold(config, speaker, jobs + [job]) == Meant(config, Fold(config, speaker, jobs), job.kind, job.value)
    decreases |jobs|
  {
    if jobs == [] {
      assert jobs + [job] == [job] && [job][1..] == [];
    } else {
      assert (jobs + [job])[1..] == jobs[1..] + [job];
      FoldAppend(config, Meant(config, speaker, jobs[0].kind, jobs[0].value), jobs[1..], job);
    }
  }

  /** An absolute volume overwrites an adjacent one: running both is running the second. */
  lemma {:induction false} FoldMerge(
    config: Config, speaker: SpeakerState, jobs: seq<Control>, merged: seq<Control>, value: Value)
    requires |jobs| == |merged| > 0
    requires forall i :: 0 <= i < |jobs| - 1 ==> merged[i] == jobs[i]
    requires jobs[|jobs| - 1].kind.SetVolume? && merged[|jobs| - 1].kind.SetVolume? && merged[|jobs| - 1].value == value
    ensures Fold(config, speaker, merged) == Meant(config, Fold(config, speaker, jobs), SetVolume, value)
    decreases |jobs|
  {
    if |jobs| == 1 {
      assert jobs[1..] == [] && merged[1..] == [];
    } else {
      FoldMerge(config, Meant(config, speaker, jobs[0].kind, jobs[0].value), jobs[1..], merged[1..], value);
    }
  }

  /** Only kind and value of the controls matter. */
  lemma {:induction false} FoldSame(config: Config, speaker: SpeakerState, a: seq<Control>, b: seq<Control>)
    requires |a| == |b| && forall i :: 0 <= i < |a| ==> a[i].kind == b[i].kind && a[i].value == b[i].value
    ensures Fold(config, speaker, a) == Fold(config, speaker, b)
    decreases |a|
  {
    if a != [] {
      FoldSame(config, Meant(config, speaker, a[0].kind, a[0].value), a[1..], b[1..]);
    }
  }

  lemma {:induction false} FoldRequestsAppend(config: Config, speaker: SpeakerState, a: seq<Request>, b: seq<Request>)
    ensures FoldRequests(config, speaker, a + b) == FoldRequests(config, FoldRequests(config, speaker, a), b)
    decreases |a|
  {
    if a == [] {
      assert a + b == b;
    } else {
      assert (a + b)[1..] == a[1..] + b;
      FoldRequestsAppend(config, Meant(config, speaker, a[0].kind, a[0].value), a[1..], b);
    }
  }

  lemma FoldRequestsOne(config: Config, speaker: SpeakerState, request: Request)
    ensures FoldRequests(config, speaker, [request]) == Meant(config, speaker, request.kind, request.value)
  {
    assert [request][1..] == [];
  }

  // --------------------------------------------------------------------- steps

  lemma MergeMeans(config: Config, s: State, value: Value, level: Option<VolumeStatus>)
    requires s.controls != [] && Merges(s, SetVolume)
    ensures Meaning(config, MergeIntoLast(s, value), level)
         == Meant(config, Meaning(config, s, level), SetVolume, value)
  {
    FoldMerge(
      config, WithLevel(s.snapshot.speaker, level), s.Outstanding(), MergeIntoLast(s, value).Outstanding(), value);
  }

  lemma EnqueueMeans(config: Config, s: State, kind: Kind, value: Value, level: Option<VolumeStatus>)
    ensures Meaning(config, Enqueue(config, s, kind, value), level)
         == Meant(config, Meaning(config, s, level), kind, value)
  {
    var t := Enqueue(config, s, kind, value);
    var job := t.controls[|s.controls|];
    assert t.Outstanding() == s.Outstanding() + [job];
    FoldAppend(config, WithLevel(s.snapshot.speaker, level), s.Outstanding(), job);
  }

  /** Same cached state, same outstanding controls up to a source picked for the one that starts. */
  lemma SameMeaning(config: Config, s: State, t: State, level: Option<VolumeStatus>)
    requires t.snapshot.speaker == s.snapshot.speaker && |t.Outstanding()| == |s.Outstanding()|
    requires forall i :: 1 <= i < |s.Outstanding()| ==> t.Outstanding()[i] == s.Outstanding()[i]
    requires s.Outstanding() != [] ==>
      var a, b := s.Outstanding()[0], t.Outstanding()[0];
      && b.kind == a.kind
      && (b.value == a.value || b.value == Prepare(config, s.snapshot.speaker, a).value)
    ensures Meaning(config, t, level) == Meaning(config, s, level)
  {
    if s.Outstanding() != [] {
      var a, b := s.Outstanding()[0], t.Outstanding()[0];
      var base := WithLevel(s.snapshot.speaker, level);
      assert Meant(config, base, a.kind, a.value) == Meant(config, base, b.kind, b.value);
      FoldSame(config, Meant(config, base, a.kind, a.value), s.Outstanding()[1..], t.Outstanding()[1..]);
    }
  }

  lemma TakingMeans(config: Config, s: State, drift: nat, level: Option<VolumeStatus>)
    requires s.worker.Ready? && !s.closing && s.controls != [] && Undisturbed(s, WorkerTurn(drift))
    ensures var t := StartControl(config, s.(controls := s.controls[1..]), s.controls[0], drift);
            Meaning(config, t, level) == Meaning(config, s, level) && !t.closing
  {
    var u, job := s.(controls := s.controls[1..]), s.controls[0];
    if StartsAttempt(u, job) {
      StartControlAttempts(config, u, job, drift);
      HandingMeans(config, s, u.(now := u.now + drift), job, 0, false, None, level);
    } else {
      StartControlDoesNotAttempt(config, u, job, drift);
      assert ResolveVolume(u, job).Outstanding() == s.Outstanding();
    }
  }

  lemma TurnMeans(config: Config, s: State, drift: nat, level: Option<VolumeStatus>)
    requires s.worker.Ready? && !s.closing && Undisturbed(s, WorkerTurn(drift))
    ensures Meaning(config, Turn(config, s, drift), level) == Meaning(config, s, level)
    ensures !Turn(config, s, drift).closing
  {
    if s.controls == [] {
      TurnTakesNone(config, s, drift);
    } else {
      TurnTakesControl(config, s, drift);
      TakingMeans(config, s, drift, level);
    }
  }

  lemma HandingMeans(
    config: Config, s: State, u: State, job: Control, attempt: nat, wrote: bool, error: Option<LsxError>,
    level: Option<VolumeStatus>)
    requires s.Outstanding() == [job] + u.controls && u.snapshot == s.snapshot && !GivesUp(u, job)
    ensures Meaning(config, BeginAttempt(config, u, job, attempt, wrote, error), level) == Meaning(config, s, level)
    ensures !BeginAttempt(config, u, job, attempt, wrote, error).closing
  {
    var t := BeginAttempt(config, u, job, attempt, wrote, error);
    assert t.Outstanding() == [Prepare(config, u.snapshot.speaker, job)] + u.controls;
    SameMeaning(config, s, t, level);
  }

  /** The acknowledgement of a volume control, after which the volume is known. */
  predicate AcksVolume(s: State, event: Event) {
    event == WriteReplies(None) && s.worker.Writing? && !s.worker.job.kind.ChangesSource()
  }

  /**
   * An acknowledgement moves the first outstanding control's effect into the cached state; a
   * source control does so whether the volume is read before or after it.
   */
  lemma AcknowledgementMeans(config: Config, s: State, level: Option<VolumeStatus>)
    requires s.worker.Writing? && Prepare(config, s.snapshot.speaker, s.worker.job) == s.worker.job && !s.closing
    requires level.Some? ==> s.worker.job.kind.ChangesSource()
    ensures Meaning(config, WriteAcknowledged(config, s), level) == Meaning(config, s, level)
    ensures !WriteAcknowledged(config, s).closing
  {
    var t, job, base := WriteAcknowledged(config, s), s.worker.job, WithLevel(s.snapshot.speaker, level);
    assert t.Outstanding() == s.controls && s.Outstanding()[1..] == s.controls;
    assert t.snapshot.speaker == ExpectedState(config, s.snapshot.speaker, job);
    assert WithLevel(t.snapshot.speaker, level) == ExpectedState(config, base, job);
    assert Meant(config, base, job.kind, job.value) == ExpectedState(config, base, job);
  }

  /** The volume read in front of a relative command keeps the outstanding controls in order. */
  lemma PuttingBackMeans(config: Config, s: State, status: VolumeStatus)
    requires s.worker.Resolving?
    ensures var t := ResolvingArrived(config, s, s.worker.job, status);
            && t.Outstanding() == s.Outstanding()
            && t.snapshot.speaker == s.snapshot.speaker.(volume := Some(status.volume), muted := Some(status.muted))
  {
  }

  lemma RetryMeans(config: Config, s: State, level: Option<VolumeStatus>)
    requires s.worker.Sleeping? && !s.closing && s.now < s.worker.job.deadline
    ensures var t := BeginAttempt(config, s, s.worker.job, 1, s.worker.wrote, Some(s.worker.failure));
            Meaning(config, t, level) == Meaning(config, s, level) && !t.closing
  {
    HandingMeans(config, s, s, s.worker.job, 1, s.worker.wrote, Some(s.worker.failure), level);
  }

  lemma FailuresMean(config: Config, s: State, reason: Reason, error: LsxError, level: Option<VolumeStatus>)
    requires !s.closing && !s.worker.HasJob()
    ensures var t := SourceFailed(config, s, reason, error);
            Meaning(config, t, level) == Meaning(config, s, level) && !t.closing
    ensures var t := MaintenanceFailed(config, s, error);
            Meaning(config, t, level) == Meaning(config, s, level) && !t.closing
  {
  }

  lemma PauseMeans(config: Config, s: State, error: LsxError, level: Option<VolumeStatus>)
    requires !s.closing && s.worker.Writing? && !error.fault.CommandRejected? && s.worker.attempt == 0
    ensures var t := WriteFailed(config, s, error);
            Meaning(config, t, level) == Meaning(config, s, level) && !t.closing
  {
    WriteFailedEither(config, s, error);
  }

  lemma SubmitMeans(config: Config, s: State, command: Command, level: Option<VolumeStatus>)
    requires !s.closing
    ensures var t := Submit(config, s, KindOf(command), ValueOf(config, command));
            && Meaning(config, t, level)
                 == FoldRequests(config, Meaning(config, s, level), AcceptedBy(config, s, SubmitCommand(command)))
            && !t.closing
  {
    var kind, value := KindOf(command), ValueOf(config, command);
    if Judge(s, kind).Admitted? {
      FoldRequestsOne(config, Meaning(config, s, level), Request(kind, value));
      if Merges(s, kind) {
        MergeMeans(config, s, value, level);
      } else {
        EnqueueMeans(config, s, kind, value, level);
      }
    }
  }

  /** What one step means: accepted requests are added at the end, and the run stays open. */
  predicate Means(config: Config, s: State, event: Event, t: State, level: Option<VolumeStatus>) {
    && Meaning(config, t, level) == FoldRequests(config, Meaning(config, s, level), AcceptedBy(config, s, event))
    && !t.closing
  }

  lemma ControlStepMeans(config: Config, s: State, event: Event, level: Option<VolumeStatus>)
    requires Inv(config, s) && !s.closing && Undisturbed(s, event) && !ReadsEarly(s, event)
    requires level.Some? ==> !AcksVolume(s, event)
    requires event.WorkerTurn? || event.WriteReplies? || event.RetryPauseEnds?
    ensures Means(config, s, event, Step(config, s, event), level)
  {
    match event
    case WorkerTurn(drift) =>
      if s.worker.Ready? { TurnMeans(config, s, drift, level); }
    case WriteReplies(None) =>
      if s.worker.Writing? { AcknowledgementMeans(config, s, level); }
    case WriteReplies(Some(error)) =>
      if s.worker.Writing? { PauseMeans(config, s, error, level); }
    case RetryPauseEnds =>
      if s.worker.Sleeping? { RetryMeans(config, s, level); }
  }

  /** Callers that submit nothing, the clock and the worker's wake-up leave controls and cache alone. */
  lemma QuietStepMeans(config: Config, s: State, event: Event, level: Option<VolumeStatus>)
    requires !s.closing
    requires event.Start? || event.PollState? || event.Cancel? || event.Tick? || event.CloseEnds? || event.WorkerWakes?
    ensures Means(config, s, event, Step(config, s, event), level)
  {
    var t := Step(config, s, event);
    assert t.controls == s.controls && t.snapshot == s.snapshot && t.worker.Active() == s.worker.Active();
  }

  lemma FailedReadMeans(config: Config, s: State, event: Event, level: Option<VolumeStatus>)
    requires !s.closing && Undisturbed(s, event) && !ReadsEarly(s, event)
    requires event.SourceReplies? || event.VolumeReplies?
    ensures Means(config, s, event, Step(config, s, event), level)
  {
    match event
    case SourceReplies(source) =>
      if s.worker.ReadingSource? { FailuresMean(config, s, s.worker.reason, source.error, level); }
    case VolumeReplies(volume) =>
      if s.worker.ReadingVolume? { FailuresMean(config, s, Poll, volume.error, level); }
  }

  lemma OtherStepMeans(config: Config, s: State, event: Event, level: Option<VolumeStatus>)
    requires !s.closing && Undisturbed(s, event) && !ReadsEarly(s, event)
    requires !event.WorkerTurn? && !event.WriteReplies? && !event.RetryPauseEnds?
    ensures Means(config, s, event, Step(config, s, event), level)
  {
    match event
    case SubmitCommand(command) => SubmitMeans(config, s, command, level);
    case SourceReplies(_) => FailedReadMeans(config, s, event, level);
    case VolumeReplies(_) => FailedReadMeans(config, s, event, level);
    case _ => QuietStepMeans(config, s, event, level);
  }

  lemma StepMeans(config: Config, s: State, event: Event, level: Option<VolumeStatus>)
    requires Inv(config, s) && !s.closing && Undisturbed(s, event) && !ReadsEarly(s, event)
    requires level.Some? ==> !AcksVolume(s, event)
    ensures Means(config, s, event, Step(config, s, event), level)
  {
    if event.WorkerTurn? || event.WriteReplies? || event.RetryPauseEnds? {
      ControlStepMeans(config, s, event, level);
    } else {
      OtherStepMeans(config, s, event, level);
    }
  }

  // ---------------------------------------------------------------------- runs

  /** The read makes known what was still to be read, and puts the control back. */
  lemma EarlyReadMeans(config: Config, s: State, event: Event)
    requires !s.closing && ReadsEarly(s, event)
    ensures var t := Step(config, s, event);
            && Meaning(config, t, None) == Meaning(config, s, Some(event.volume.value)) && !t.closing
            && AcceptedBy(config, s, event) == [] && t.snapshot.speaker.volume.Some?
  {
    PuttingBackMeans(config, s, event.volume.value);
  }

  /** A known volume is not read again in front of a command. */
  lemma {:induction false} NoSecondRead(config: Config, s: State, events: seq<Event>)
    requires Inv(config, s) && s.snapshot.speaker.volume.Some?
    ensures EarlyRead(config, s, events) == None
    decreases |events|
  {
    if events != [] {
      StepAdvances(config, s, events[0]);
      StepKeeps(config, s, events[0]);
      NoSecondRead(config, Step(config, s, events[0]), events[1..]);
    }
  }

  lemma AcknowledgedVolumeIsKnown(config: Config, s: State)
    requires Inv(config, s) && s.worker.Writing? && !s.worker.job.kind.ChangesSource()
    ensures WriteAcknowledged(config, s).snapshot.speaker.volume.Some?
  {
    ExpectedVolumeSound(config, s.snapshot.speaker, s.worker.job);
  }

  /** When the volume is still to be read, no volume control is acknowledged before. */
  lemma SourcesBeforeTheRead(config: Config, s: State, event: Event, rest: seq<Event>)
    requires Inv(config, s) && AcksVolume(s, event)
    ensures EarlyRead(config, Step(config, s, event), rest) == None
  {
    AcknowledgedVolumeIsKnown(config, s);
    StepKeeps(config, s, event);
    NoSecondRead(config, Step(config, s, event), rest);
  }

  lemma {:induction false} RunMeans(config: Config, s: State, events: seq<Event>)
    requires Inv(config, s) && !s.closing && UndisturbedRun(config, s, events)
    ensures Meaning(config, Run(config, s, events), None)
         == FoldRequests(config, Meaning(config, s, EarlyRead(config, s, events)), AcceptedIn(config, s, events))
    decreases |events|
  {
    if events != [] {
      var event, rest := events[0], events[1..];
      var t, level := Step(config, s, event), EarlyRead(config, s, events);
      StepKeeps(config, s, event);
      if ReadsEarly(s, event) {
        EarlyReadMeans(config, s, event);
        NoSecondRead(config, t, rest);
        assert AcceptedIn(config, s, events) == [] + AcceptedIn(config, t, rest) == AcceptedIn(config, t, rest);
      } else {
        if AcksVolume(s, event) {
          SourcesBeforeTheRead(config, s, event, rest);
        }
        StepMeans(config, s, event, level);
        FoldRequestsAppend(
          config, Meaning(config, s, level), AcceptedBy(config, s, event), AcceptedIn(config, t, rest));
      }
      RunMeans(config, t, rest);
    }
  }

  /**
   * For every interleaving of submissions with the worker in which nothing is lost, once all work
   * is done the cached state is the fold of the accepted requests, one by one in acceptance order.
   * It starts from the cached state the run began with, with volume and mute as the read in front
   * of a relative command reported them, when the run contains that read and the put-back.
   */
  lemma CoalescingPreservesMeaning(config: Config, start: int, before: seq<Event>, events: seq<Event>)
    requires var s := Run(config, Initial(start), before);
             && !s.closing && s.Outstanding() == [] && UndisturbedRun(config, s, events)
             && Run(config, s, events).Outstanding() == []
    ensures var s := Run(config, Initial(start), before);
            var first := WithLevel(s.snapshot.speaker, EarlyRead(config, s, events));
            Run(config, s, events).snapshot.speaker == FoldRequests(config, first, AcceptedIn(config, s, events))
  {
    Reachable(config, start, before);
    RunMeans(config, Run(config, Initial(start), before), events);
  }
}
