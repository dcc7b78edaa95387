/** Concrete runs: promises that fail, and bounds that are reached. */
module Witnesses {
  import opened Wrappers
  import opened Protocol
  import opened Client
  import opened Scheduler
  import opened StepCases
  import opened Invariant
  import opened Waiters
  import opened Progress
  import opened Guarantees
  import opened Channel
  import opened Shutdown

  // -------------------------------------------------------- an early volume read

  /** A first relative command, whose volume is unknown; its waiter is the second future. */
  function FirstControl(config: Config, start: int, kind: Kind): Control {
    Control(0, kind, NoValue, start + config.timing.controlDeadline, [1])
  }

  function Opening(command: Command): seq<Event> {
    [Start] + ([SubmitCommand(command)] + ([WorkerTurn(0)] + []))
  }

  predicate ReadingFor(s: State, job: Control, now: int) {
    (s.worker, s.closing, s.closed, s.controls, s.now, s.futures, s.snapshot.speaker)
      == (Resolving(job), false, false, [], now, [Future(None, Pending), Future(Some(0), Pending)],
          InitialSnapshot().speaker)
  }

  lemma RelativeIsQueued(config: Config, start: int, kind: Kind)
    requires !kind.SetVolume?
    ensures var s := Enqueue(config, StartWorker(Initial(start)), kind, NoValue);
            && Submit(config, StartWorker(Initial(start)), kind, NoValue) == s
            && !s.closing && !s.closed && s.worker == Ready && s.now == start
            && s.snapshot.speaker == InitialSnapshot().speaker
            && s.controls == [FirstControl(config, start, kind)]
            && s.futures == [Future(None, Pending), Future(Some(0), Pending)]
  {
  }

  lemma TurnReadsVolume(config: Config, s: State, job: Control)
    requires !s.closing && s.controls == [job] && NeedsVolume(job, s.snapshot.speaker) && s.now < job.deadline
    requires job.waiters == [1] && |s.futures| == 2 && s.futures[1].outcome.Pending?
    ensures Turn(config, s, 0) == ResolveVolume(s.(controls := []), job)
  {
    assert s.controls[1..] == [];
    assert 1 in job.waiters;
  }

  lemma RelativeReadsFirst(config: Config, start: int, command: Command)
    requires KindOf(command).IsRelative() && config.timing.controlDeadline > 0
    ensures ReadingFor(
              Run(config, Initial(start), Opening(command)), FirstControl(config, start, KindOf(command)), start)
  {
    var kind := KindOf(command);
    var s1 := StartWorker(Initial(start));
    var s2 := Enqueue(config, s1, kind, NoValue);
    RelativeIsQueued(config, start, kind);
    TurnReadsVolume(config, s2, s2.controls[0]);
    RunOne(config, Initial(start), Start, [SubmitCommand(command)] + ([WorkerTurn(0)] + []));
    RunOne(config, s1, SubmitCommand(command), [WorkerTurn(0)] + []);
    RunOne(config, s2, WorkerTurn(0), []);
  }

  lemma ReaderCanBeStranded(config: Config, s: State, job: Control, now: int)
    requires Kept(config, s) && ReadingFor(s, job, now) && job.waiters == [1]
    ensures Stranded(Run(config, s, [CloseBegins] + STRANDING), 1)
  {
    assert 1 in s.worker.job.waiters;
    TheReaderIsStranded(config, s, 1);
    RunOne(config, s, CloseBegins, STRANDING);
  }

  /** A relative command whose volume read ends after closing began is never answered. */
  lemma ClosingCanStrandAWaiter(config: Config, start: int)
    requires config.timing.controlDeadline > 0
    ensures exists events: seq<Event> :: Unforced(events) && Stranded(Run(config, Initial(start), events), 1)
  {
    var opening := Opening(CommandVolumeUp);
    RelativeReadsFirst(config, start, CommandVolumeUp);
    ReachableIsKept(config, start, opening);
    ReaderCanBeStranded(
      config, Run(config, Initial(start), opening), FirstControl(config, start, VolumeUp), start);
    RunConcat(config, Initial(start), opening, [CloseBegins] + STRANDING);
    assert Unforced(opening + ([CloseBegins] + STRANDING));
  }

  // --------------------------------------------------- a level above the maximum

  lemma ReadAnswers(config: Config, s: State, job: Control, now: int, level: Volume)
    requires ReadingFor(s, job, now)
    ensures var t := ResolvingArrived(config, s, job, VolumeStatus(level, false));
            && t.worker == Ready && !t.closing && t.controls == [job] && t.now == now && t.futures == s.futures
            && t.snapshot.speaker.volume == Some(level) && t.snapshot.speaker.muted == Some(false)
  {
  }

  lemma MuteIsWritten(config: Config, s: State, job: Control, level: Volume)
    requires s.worker == Ready && !s.closing && s.controls == [job] && s.now < job.deadline
    requires job.kind.Mute? && job.waiters == [1] && |s.futures| == 2 && s.futures[1].outcome.Pending?
    requires s.snapshot.speaker.volume == Some(level) && s.snapshot.speaker.muted.Some?
    ensures Turn(config, s, 0).worker == Writing(job, 0, false, [SET, VOLUME_REGISTER, SET_MARKER, level + 0x80])
  {
    var u := s.(controls := s.controls[1..]);
    assert 1 in job.waiters;
    TurnTakesControl(config, s, 0);
    StartControlAttempts(config, u, job, 0);
    BeginAttemptEither(config, u.(now := u.now + 0), job, 0, false, None);
  }

  lemma MuteRuns(config: Config, s: State, job: Control, level: Volume)
    requires s.worker == Ready && !s.closing && s.controls == [job] && s.now < job.deadline
    requires job.kind.Mute? && job.waiters == [1] && |s.futures| == 2 && s.futures[1].outcome.Pending?
    requires s.snapshot.speaker.volume == Some(level) && s.snapshot.speaker.muted.Some?
    ensures Run(config, s, [WorkerTurn(0)] + []).worker
         == Writing(job, 0, false, [SET, VOLUME_REGISTER, SET_MARKER, level + 0x80])
  {
    MuteIsWritten(config, s, job, level);
    RunOne(config, s, WorkerTurn(0), []);
  }

  function ReadThenWrite(level: Volume): seq<Event> {
    [VolumeReplies(Success(VolumeStatus(level, false)))] + ([WorkerTurn(0)] + [])
  }

  lemma MuteRepeatsTheLevel(config: Config, s: State, job: Control, now: int, level: Volume)
    requires ReadingFor(s, job, now) && job.kind.Mute? && job.waiters == [1] && now < job.deadline
    ensures Run(config, s, ReadThenWrite(level)).worker
         == Writing(job, 0, false, [SET, VOLUME_REGISTER, SET_MARKER, level + 0x80])
  {
    var t := ResolvingArrived(config, s, job, VolumeStatus(level, false));
    ReadAnswers(config, s, job, now, level);
    MuteRuns(config, t, job, level);
    RunOne(config, s, VolumeReplies(Success(VolumeStatus(level, false))), [WorkerTurn(0)] + []);
  }

  lemma MuteRun(config: Config, start: int, level: Volume)
    requires config.timing.controlDeadline > 0
    ensures Run(config, Initial(start), Opening(CommandMute(true)) + ReadThenWrite(level)).worker
         == Writing(FirstControl(config, start, Mute), 0, false, [SET, VOLUME_REGISTER, SET_MARKER, level + 0x80])
  {
    var opening := Opening(CommandMute(true));
    RelativeReadsFirst(config, start, CommandMute(true));
    MuteRepeatsTheLevel(
      config, Run(config, Initial(start), opening), FirstControl(config, start, Mute), start, level);
    RunConcat(config, Initial(start), opening, ReadThenWrite(level));
  }

  /** The run ends with a volume SET of this level on its way. */
  predicate Writes(config: Config, start: int, events: seq<Event>, level: int) {
    var s := Run(config, Initial(start), events);
    s.worker.Writing? && !s.worker.job.kind.ChangesSource() && WrittenLevel(s.worker.request) == level
  }

  /** A speaker that reports a level above the maximum has it written back by a mute. */
  lemma MuteCanExceedMaximum(config: Config, start: int, level: Volume)
    requires config.timing.controlDeadline > 0 && level > config.maximumVolume
    ensures exists events: seq<Event> :: Writes(config, start, events, level)
  {
    MuteRun(config, start, level);
    assert Writes(config, start, Opening(CommandMute(true)) + ReadThenWrite(level), level);
  }

  // ------------------------------------------------------------ the longest wait

  /** Volume-ups in a row with one deadline, each awaited by the future after its own number. */
  predicate InLine(controls: seq<Control>, futures: seq<Future>, first: nat, deadline: int) {
    forall i :: 0 <= i < |controls| ==> Awaited(controls[i], futures, first + i, deadline)
  }

  predicate Awaited(control: Control, futures: seq<Future>, job: nat, deadline: int) {
    control == LinedControl(job, deadline) && job + 1 < |futures| && futures[job + 1].outcome.Pending?
  }

  function LinedControl(job: nat, deadline: int): Control {
    Control(job, VolumeUp, NoValue, deadline, [job + 1])
  }

  predicate Lined(s: State, first: nat, count: nat, deadline: int) {
    (s.closing, |s.controls|) == (false, count) && InLine(s.controls, s.futures, first, deadline)
  }

  /** A poll is in flight while volume-ups are submitted. */
  predicate Gathering(s: State, count: nat, now: int, deadline: int) {
    var line, polls := Lined(s, 0, count, deadline), s.pollWaiters == [0];
    line && polls && (s.worker, s.now, s.nextJob, |s.futures|, s.snapshot.speaker)
                       == (ReadingSource(Poll), now, count, count + 1, InitialSnapshot().speaker)
  }

  lemma OneMoreGathered(config: Config, s: State, count: nat)
    requires Gathering(s, count, s.now, s.now + config.timing.controlDeadline) && count < QUEUE_CAPACITY
    ensures Gathering(Step(config, s, SubmitCommand(CommandVolumeUp)), count + 1, s.now,
                      s.now + config.timing.controlDeadline)
  {
  }

  lemma {:induction false} Gather(config: Config, start: int, count: nat) returns (events: seq<Event>)
    requires count <= QUEUE_CAPACITY
    ensures Gathering(Run(config, Initial(start), events), count, start, start + config.timing.controlDeadline)
  {
    if count == 0 {
      events := [Start] + ([WorkerTurn(0)] + []);
      var started := StartWorker(Initial(start));
      assert Turn(config, started, 0) == StartSourceRead(started, Poll);
      RunOne(config, Initial(start), Start, [WorkerTurn(0)] + []);
      RunOne(config, started, WorkerTurn(0), []);
    } else {
      var fewer := Gather(config, start, count - 1);
      var s := Run(config, Initial(start), fewer);
      OneMoreGathered(config, s, count - 1);
      RunOneMore(config, s, SubmitCommand(CommandVolumeUp));
      RunConcat(config, Initial(start), fewer, [SubmitCommand(CommandVolumeUp)]);
      events := fewer + [SubmitCommand(CommandVolumeUp)];
    }
  }

  const TIMED_OUT := LsxError(ConnectTimeout, false)

  /** Between two controls of the line: the worker is ready. */
  predicate Between(s: State, first: nat, count: nat, now: int, deadline: int) {
    var line, ready := Lined(s, first, count, deadline), (s.worker, s.now) == (Ready, now);
    line && ready
  }

  predicate LevelKnown(s: State) {
    var speaker := s.snapshot.speaker;
    (speaker.volume.Some?, speaker.muted.Some?, VolumeSound(speaker)) == (true, true, true)
  }

  /** Completing other futures leaves the line as it is. */
  lemma CompletingKeepsLine(
    controls: seq<Control>, futures: seq<Future>, first: nat, deadline: int, waiter: nat, outcome: Outcome)
    requires InLine(controls, futures, first, deadline) && waiter <= first
    ensures InLine(controls, Complete(futures, [waiter], outcome), first, deadline)
  {
    forall i | 0 <= i < |controls|
      ensures Awaited(controls[i], Complete(futures, [waiter], outcome), first + i, deadline)
    {
      assert Awaited(controls[i], futures, first + i, deadline);
      CompleteLeavesOthers(futures, [waiter], outcome, first + i + 1);
    }
  }

  lemma PollFails(config: Config, s: State) returns (outcome: Outcome)
    requires s.worker == ReadingSource(Poll)
    ensures var t := SourceFailed(config, s, Poll, TIMED_OUT);
            (t.worker, t.closing, t.controls, t.now, t.snapshot.speaker, t.futures, ExchangesEnded(t))
              == (Ready, s.closing, s.controls, s.now, s.snapshot.speaker, Complete(s.futures, s.pollWaiters, outcome),
                  ExchangesEnded(s) + 1)
  {
    ReadTally();
    var logged := s.Log(Ended(SourceRead(Poll), false));
    outcome := Resolved(RecordPrimaryFailure(config, logged, ClientError(ConnectTimeout), true).snapshot);
  }

  lemma PollSteps(config: Config, s: State, count: nat, now: int, deadline: int) returns (t: State)
    requires Gathering(s, count, now, deadline)
    ensures t == Step(config, s, SourceReplies(Failure(TIMED_OUT)))
    ensures Between(t, 0, count, now, deadline)
    ensures (t.snapshot.speaker, ExchangesEnded(t)) == (s.snapshot.speaker, ExchangesEnded(s) + 1)
  {
    t := SourceFailed(config, s, Poll, TIMED_OUT);
    StepFailsSource(config, s, TIMED_OUT);
    var outcome := PollFails(config, s);
    CompletingKeepsLine(s.controls, s.futures, 0, deadline, 0, outcome);
  }

  /** The first control of the line is having its volume read. */
  predicate ReadingLevel(s: State, count: nat, now: int, deadline: int) {
    var line := count > 0 && Lined(s, 1, count - 1, deadline);
    var awaited := 1 < |s.futures| && s.futures[1].outcome.Pending?;
    line && awaited && (s.worker, s.now) == (Resolving(LinedControl(0, deadline)), now)
  }

  lemma LevelReadStarts(config: Config, s: State, count: nat, now: int, deadline: int) returns (t: State)
    requires Between(s, 0, count, now, deadline) && s.snapshot.speaker.volume.None? && count > 0 && now < deadline
    ensures t == Step(config, s, WorkerTurn(0))
    ensures ReadingLevel(t, count, now, deadline) && ExchangesEnded(t) == ExchangesEnded(s)
  {
    ReadTally();
    t := ResolveVolume(s.(controls := s.controls[1..]), s.controls[0]);
    assert Awaited(s.controls[0], s.futures, 0, deadline);
    assert s.controls[0].waiters[0] == 1;
    TailInLine(s.controls, s.futures, 0, deadline);
    TurnTakesControl(config, s, 0);
  }

  lemma LevelReadEnds(config: Config, s: State, count: nat, now: int, deadline: int) returns (t: State)
    requires ReadingLevel(s, count, now, deadline)
    ensures t == Step(config, s, VolumeReplies(Success(VolumeStatus(20, false))))
    ensures Between(t, 0, count, now, deadline) && LevelKnown(t) && ExchangesEnded(t) == ExchangesEnded(s) + 1
  {
    ReadTally();
    t := ResolvingArrived(config, s, s.worker.job, VolumeStatus(20, false));
    HeadInLine(s.controls, s.futures, 0, deadline);
  }

  lemma HeadInLine(controls: seq<Control>, futures: seq<Future>, first: nat, deadline: int)
    requires InLine(controls, futures, first + 1, deadline)
    requires Awaited(LinedControl(first, deadline), futures, first, deadline)
    ensures InLine([LinedControl(first, deadline)] + controls, futures, first, deadline)
  {
    forall i | 0 <= i <= |controls|
      ensures Awaited(([LinedControl(first, deadline)] + controls)[i], futures, first + i, deadline)
    {
      if i > 0 {
        assert Awaited(controls[i - 1], futures, first + 1 + (i - 1), deadline);
      }
    }
  }

  /** The worker is with the control before `first`. */
  predicate With(s: State, first: nat, count: nat, now: int, deadline: int) {
    var line, known := Lined(s, first, count, deadline), LevelKnown(s);
    var trying := Trying(s) && first >= 1 && (s.worker.job, s.now) == (LinedControl(first - 1, deadline), now);
    trying && line && known
  }

  lemma TailInLine(controls: seq<Control>, futures: seq<Future>, first: nat, deadline: int)
    requires InLine(controls, futures, first, deadline) && controls != []
    ensures InLine(controls[1..], futures, first + 1, deadline)
  {
    forall i | 0 <= i < |controls| - 1
      ensures Awaited(controls[1..][i], futures, first + 1 + i, deadline)
    {
      assert Awaited(controls[i + 1], futures, first + (i + 1), deadline);
    }
  }

  lemma LineStartsAttempt(config: Config, s: State, job: Control, first: nat)
    requires job == LinedControl(first, job.deadline) && s.now < job.deadline && !s.closing
    requires first + 1 < |s.futures| && s.futures[first + 1].outcome.Pending?
    requires LevelKnown(s)
    ensures var t := StartControl(config, s, job, 0);
            && t.worker.Writing? && t.worker.attempt == 0 && t.worker.job == job
            && t.controls == s.controls && t.futures == s.futures && t.now == s.now && t.closing == s.closing
            && t.snapshot == s.snapshot && ExchangesEnded(t) == ExchangesEnded(s)
  {
    ReadTally();
    assert job.waiters[0] == first + 1;
    StartControlAttempts(config, s, job, 0);
    BeginAttemptEither(config, s.(now := s.now + 0), job, 0, false, None);
  }

  lemma ControlIsTaken(config: Config, s: State, first: nat, count: nat, now: int, deadline: int)
    requires Between(s, first, count, now, deadline) && LevelKnown(s)
    requires count > 0 && now < deadline
    ensures var t := Turn(config, s, 0);
            && With(t, first + 1, count - 1, now, deadline) && t.worker.Writing? && t.worker.attempt == 0
            && ExchangesEnded(t) == ExchangesEnded(s)
  {
    TurnTakesControl(config, s, 0);
    TailInLine(s.controls, s.futures, first, deadline);
    LineStartsAttempt(config, s.(controls := s.controls[1..]), s.controls[0], first);
  }

  lemma FirstAttemptFails(config: Config, s: State, first: nat, count: nat, now: int, deadline: int)
    requires With(s, first, count, now, deadline) && s.worker.Writing? && s.worker.attempt == 0
    ensures var t := WriteFailed(config, s, TIMED_OUT);
            && With(t, first, count, now, deadline) && t.worker.Sleeping? && t.worker.failure == TIMED_OUT
            && t.worker.until <= now + config.timing.retryDelay
            && ExchangesEnded(t) == ExchangesEnded(s) + 1
  {
    ReadTally();
    WriteFailedEither(config, s, TIMED_OUT);
  }

  lemma SecondAttemptStarts(config: Config, s: State, first: nat, count: nat, now: int, deadline: int)
    requires With(s, first, count, now, deadline) && s.worker.Sleeping? && s.worker.until <= now < deadline
    ensures var t := Step(config, s, RetryPauseEnds);
            && With(t, first, count, now, deadline) && t.worker.Writing? && t.worker.attempt == 1
            && ExchangesEnded(t) == ExchangesEnded(s)
  {
    ReadTally();
    BeginAttemptEither(config, s, s.worker.job, 1, s.worker.wrote, Some(s.worker.failure));
  }

  lemma SecondAttemptFails(config: Config, s: State, first: nat, count: nat, now: int, deadline: int)
    requires With(s, first, count, now, deadline) && s.worker.Writing? && s.worker.attempt == 1
    ensures var t := WriteFailed(config, s, TIMED_OUT);
            && Between(t, first, count, now, deadline) && LevelKnown(t)
            && ExchangesEnded(t) == ExchangesEnded(s) + 1
  {
    WriteFailedEither(config, s, TIMED_OUT);
    LastFailure(config, s.Log(Ended(WriteOf(s.worker), false)), s.worker.job, s.worker.wrote, first, deadline);
    ReadTally();
  }

  lemma LastFailure(config: Config, s: State, job: Control, wrote: bool, first: nat, deadline: int)
    requires job.waiters == [first] && !job.kind.ChangesSource() && InLine(s.controls, s.futures, first, deadline)
    ensures var t := FinishAttempts(config, s, job, wrote, Some(TIMED_OUT));
            && t.worker == Ready && t.controls == s.controls && InLine(t.controls, t.futures, first, deadline)
            && t.closing == s.closing && t.now == s.now && t.snapshot.speaker == s.snapshot.speaker
            && ExchangesEnded(t) == ExchangesEnded(s)
  {
    ReadTally();
    CompletingKeepsLine(s.controls, s.futures, first, deadline, first, Raised(ClientError(ConnectTimeout)));
  }

  /** The control numbered `job` stays queued over the run, which ends in `t`. */
  predicate WaitsUntil(config: Config, s: State, events: seq<Event>, job: nat, t: State) {
    (StaysQueued(config, s, events, job), Run(config, s, events)) == (true, t)
  }

  lemma LinedIsQueued(s: State, first: nat, count: nat, deadline: int, job: nat)
    requires Lined(s, first, count, deadline) && first <= job < first + count
    ensures Queued(s, job)
  {
    assert s.controls[job - first].job == job;
  }

  lemma WaitsStep(config: Config, s: State, event: Event, job: nat, t: State) returns (events: seq<Event>)
    requires t == Step(config, s, event) && Queued(s, job) && Queued(t, job)
    ensures WaitsUntil(config, s, events, job, t)
  {
    events := [event];
    assert events[1..] == [];
  }

  lemma WaitsNone(config: Config, s: State, job: nat)
    requires Queued(s, job)
    ensures WaitsUntil(config, s, [], job, s)
  {
  }

  lemma {:induction false} WaitsThen(
    config: Config, s: State, a: seq<Event>, u: State, b: seq<Event>, t: State, job: nat)
    requires WaitsUntil(config, s, a, job, u) && WaitsUntil(config, u, b, job, t)
    ensures WaitsUntil(config, s, a + b, job, t)
    decreases |a|
  {
    if a == [] {
      assert a + b == b;
    } else {
      assert (a + b)[0] == a[0] && (a + b)[1..] == a[1..] + b;
      WaitsThen(config, Step(config, s, a[0]), a[1..], u, b, t, job);
    }
  }

  lemma TakingSteps(config: Config, s: State, first: nat, count: nat, now: int, deadline: int) returns (t: State)
    requires Between(s, first, count, now, deadline) && LevelKnown(s)
    requires now < deadline && count > 0
    ensures t == Step(config, s, WorkerTurn(0))
    ensures With(t, first + 1, count - 1, now, deadline) && t.worker.Writing? && t.worker.attempt == 0
    ensures ExchangesEnded(t) == ExchangesEnded(s)
  {
    t := Turn(config, s, 0);
    ControlIsTaken(config, s, first, count, now, deadline);
  }

  lemma TakingWaits(config: Config, s: State, first: nat, count: nat, now: int, deadline: int, job: nat)
    returns (events: seq<Event>, t: State)
    requires Between(s, first, count, now, deadline) && LevelKnown(s)
    requires now < deadline && count > 1 && first < job < first + count
    ensures WaitsUntil(config, s, events, job, t)
    ensures With(t, first + 1, count - 1, now, deadline) && t.worker.Writing? && t.worker.attempt == 0
    ensures ExchangesEnded(t) == ExchangesEnded(s)
  {
    t := TakingSteps(config, s, first, count, now, deadline);
    LinedIsQueued(s, first, count, deadline, job);
    LinedIsQueued(t, first + 1, count - 1, deadline, job);
    events := WaitsStep(config, s, WorkerTurn(0), job, t);
  }

  lemma FirstFailureWaits(config: Config, s: State, first: nat, count: nat, now: int, deadline: int, job: nat)
    returns (events: seq<Event>, t: State)
    requires With(s, first, count, now, deadline) && s.worker.Writing? && s.worker.attempt == 0
    requires first <= job < first + count
    ensures WaitsUntil(config, s, events, job, t)
    ensures ExchangesEnded(t) == ExchangesEnded(s) + 1
    ensures With(t, first, count, now, deadline) && t.worker.Sleeping?
    ensures t.worker.until <= now + config.timing.retryDelay
  {
    t := WriteFailed(config, s, TIMED_OUT);
    FirstAttemptFails(config, s, first, count, now, deadline);
    LinedIsQueued(s, first, count, deadline, job);
    LinedIsQueued(t, first, count, deadline, job);
    events := WaitsStep(config, s, WriteReplies(Some(TIMED_OUT)), job, t);
  }

  lemma SecondFailureSteps(config: Config, s: State, first: nat, count: nat, now: int, deadline: int)
    returns (t: State)
    requires With(s, first, count, now, deadline) && s.worker.Writing? && s.worker.attempt == 1
    ensures t == Step(config, s, WriteReplies(Some(TIMED_OUT)))
    ensures ExchangesEnded(t) == ExchangesEnded(s) + 1 && Between(t, first, count, now, deadline) && LevelKnown(t)
  {
    t := WriteFailed(config, s, TIMED_OUT);
    SecondAttemptFails(config, s, first, count, now, deadline);
  }

  lemma SecondFailureWaits(config: Config, s: State, first: nat, count: nat, now: int, deadline: int, job: nat)
    returns (events: seq<Event>, t: State)
    requires With(s, first, count, now, deadline) && s.worker.Writing? && s.worker.attempt == 1
    requires first <= job < first + count
    ensures WaitsUntil(config, s, events, job, t)
    ensures ExchangesEnded(t) == ExchangesEnded(s) + 1
    ensures Between(t, first, count, now, deadline) && LevelKnown(t)
  {
    t := SecondFailureSteps(config, s, first, count, now, deadline);
    LinedIsQueued(s, first, count, deadline, job);
    LinedIsQueued(t, first, count, deadline, job);
    events := WaitsStep(config, s, WriteReplies(Some(TIMED_OUT)), job, t);
  }

  lemma PausingWaits(
    config: Config, s: State, first: nat, count: nat, now: int, deadline: int, job: nat, pause: nat)
    returns (events: seq<Event>, t: State)
    requires With(s, first, count, now, deadline) && s.worker.Sleeping?
    requires s.worker.until <= now + pause < deadline && first <= job < first + count
    ensures WaitsUntil(config, s, events, job, t)
    ensures With(t, first, count, now + pause, deadline) && t.worker.Writing? && t.worker.attempt == 1
    ensures ExchangesEnded(t) == ExchangesEnded(s)
  {
    var u := s.(now := s.now + pause);
    t := Step(config, u, RetryPauseEnds);
    SecondAttemptStarts(config, u, first, count, now + pause, deadline);
    LinedIsQueued(s, first, count, deadline, job);
    LinedIsQueued(u, first, count, deadline, job);
    LinedIsQueued(t, first, count, deadline, job);
    var pausing := WaitsStep(config, s, Tick(pause), job, u);
    var waking := WaitsStep(config, u, RetryPauseEnds, job, t);
    WaitsThen(config, s, pausing, u, waking, t, job);
    events := pausing + waking;
  }

  /** A control that fails twice makes two exchanges end, and the ones behind it still wait. */
  lemma ControlFailsTwice(config: Config, s: State, first: nat, count: nat, now: int, deadline: int, job: nat)
    returns (events: seq<Event>, t: State)
    requires Between(s, first, count, now, deadline) && LevelKnown(s)
    requires config.timing.retryDelay >= 0 && now + config.timing.retryDelay < deadline
    requires count > 1 && first < job < first + count
    ensures WaitsUntil(config, s, events, job, t)
    ensures Between(t, first + 1, count - 1, now + config.timing.retryDelay, deadline) && LevelKnown(t)
    ensures ExchangesEnded(t) == ExchangesEnded(s) + 2
  {
    var pause := config.timing.retryDelay;
    var taking, s1 := TakingWaits(config, s, first, count, now, deadline, job);
    var failing, s2 := FirstFailureWaits(config, s1, first + 1, count - 1, now, deadline, job);
    var pausing, s3 := PausingWaits(config, s2, first + 1, count - 1, now, deadline, job, pause);
    var again;
    again, t := SecondFailureWaits(config, s3, first + 1, count - 1, now + pause, deadline, job);
    WaitsThen(config, s, taking, s1, failing, s2, job);
    WaitsThen(config, s, taking + failing, s2, pausing, s3, job);
    WaitsThen(config, s, (taking + failing) + pausing, s3, again, t, job);
    events := ((taking + failing) + pausing) + again;
  }

  /** All controls in front of the one numbered `job` fail twice. */
  lemma {:induction false} LineFails(
    config: Config, s: State, first: nat, count: nat, now: int, deadline: int, ahead: nat)
    returns (events: seq<Event>, t: State)
    requires Between(s, first, count, now, deadline) && LevelKnown(s)
    requires config.timing.retryDelay >= 0 && now + ahead * config.timing.retryDelay < deadline
    requires ahead < count
    ensures WaitsUntil(config, s, events, first + ahead, t) && ExchangesEnded(t) == ExchangesEnded(s) + 2 * ahead
    decreases ahead
  {
    if ahead == 0 {
      events, t := [], s;
      LinedIsQueued(s, first, count, deadline, first);
      WaitsNone(config, s, first);
    } else {
      var later := now + config.timing.retryDelay;
      assert ahead * config.timing.retryDelay == (ahead - 1) * config.timing.retryDelay + config.timing.retryDelay;
      assert 0 <= (ahead - 1) * config.timing.retryDelay;
      var failing, u := ControlFailsTwice(config, s, first, count, now, deadline, first + ahead);
      var rest;
      rest, t := LineFails(config, u, first + 1, count - 1, later, deadline, ahead - 1);
      events := failing + rest;
      WaitsThen(config, s, failing, u, rest, t, first + ahead);
    }
  }

  lemma PollWaits(config: Config, s: State, count: nat, now: int, deadline: int, job: nat)
    returns (events: seq<Event>, t: State)
    requires Gathering(s, count, now, deadline) && job < count
    ensures WaitsUntil(config, s, events, job, t)
    ensures Between(t, 0, count, now, deadline) && t.snapshot.speaker == s.snapshot.speaker
    ensures ExchangesEnded(t) == ExchangesEnded(s) + 1
  {
    t := PollSteps(config, s, count, now, deadline);
    LinedIsQueued(s, 0, count, deadline, job);
    LinedIsQueued(t, 0, count, deadline, job);
    events := WaitsStep(config, s, SourceReplies(Failure(TIMED_OUT)), job, t);
  }

  lemma LevelWaits(config: Config, s: State, count: nat, now: int, deadline: int, job: nat)
    returns (events: seq<Event>, t: State)
    requires Between(s, 0, count, now, deadline) && s.snapshot.speaker.volume.None? && now < deadline
    requires 0 < job < count
    ensures WaitsUntil(config, s, events, job, t)
    ensures Between(t, 0, count, now, deadline) && LevelKnown(t)
    ensures ExchangesEnded(t) == ExchangesEnded(s) + 1
  {
    var read := LevelReadStarts(config, s, count, now, deadline);
    t := LevelReadEnds(config, read, count, now, deadline);
    LinedIsQueued(s, 0, count, deadline, job);
    LinedIsQueued(read, 1, count - 1, deadline, job);
    LinedIsQueued(t, 0, count, deadline, job);
    var taking := WaitsStep(config, s, WorkerTurn(0), job, read);
    var reading := WaitsStep(config, read, VolumeReplies(Success(VolumeStatus(20, false))), job, t);
    WaitsThen(config, s, taking, read, reading, t, job);
    events := taking + reading;
  }

  lemma AcknowledgementKeepsLine(config: Config, s: State, job: Control, first: nat, deadline: int)
    requires first >= 1 && job == LinedControl(first - 1, job.deadline) && LevelKnown(s)
    requires InLine(s.controls, s.futures, first, deadline)
    ensures var t := FinishAcknowledged(config, s, job);
            && t.worker == Ready && t.controls == s.controls && InLine(t.controls, t.futures, first, deadline)
            && t.closing == s.closing && t.now == s.now && LevelKnown(t) && ExchangesEnded(t) == ExchangesEnded(s)
  {
    ReadTally();
    CompletingKeepsLine(
      s.controls, s.futures, first, deadline, first, Resolved(FinishAcknowledged(config, s, job).snapshot));
  }

  lemma AcknowledgementWaits(config: Config, s: State, first: nat, count: nat, now: int, deadline: int, job: nat)
    returns (events: seq<Event>, t: State)
    requires With(s, first, count, now, deadline) && s.worker.Writing? && first <= job < first + count
    ensures WaitsUntil(config, s, events, job, t)
    ensures ExchangesEnded(t) == ExchangesEnded(s) + 1
    ensures Between(t, first, count, now, deadline) && LevelKnown(t)
  {
    ReadTally();
    t := WriteAcknowledged(config, s);
    StepAcknowledges(config, s);
    AcknowledgementKeepsLine(config, s.Log(Ended(WriteOf(s.worker), true)), s.worker.job, first, deadline);
    LinedIsQueued(s, first, count, deadline, job);
    LinedIsQueued(t, first, count, deadline, job);
    events := WaitsStep(config, s, WriteReplies(None), job, t);
  }

  /** A control that succeeds makes one exchange end, and the ones behind it still wait. */
  lemma ControlSucceeds(config: Config, s: State, first: nat, count: nat, now: int, deadline: int, job: nat)
    returns (events: seq<Event>, t: State)
    requires Between(s, first, count, now, deadline) && LevelKnown(s) && now < deadline
    requires count > 1 && first < job < first + count
    ensures WaitsUntil(config, s, events, job, t)
    ensures Between(t, first + 1, count - 1, now, deadline) && LevelKnown(t)
    ensures ExchangesEnded(t) == ExchangesEnded(s) + 1
  {
    var taking, u := TakingWaits(config, s, first, count, now, deadline, job);
    var ending;
    ending, t := AcknowledgementWaits(config, u, first + 1, count - 1, now, deadline, job);
    WaitsThen(config, s, taking, u, ending, t, job);
    events := taking + ending;
  }

  /** All controls in front of the one numbered `job` are acknowledged at once. */
  lemma {:induction false} LineSucceeds(
    config: Config, s: State, first: nat, count: nat, now: int, deadline: int, ahead: nat)
    returns (events: seq<Event>, t: State)
    requires Between(s, first, count, now, deadline) && LevelKnown(s) && now < deadline && ahead < count
    ensures WaitsUntil(config, s, events, first + ahead, t) && ExchangesEnded(t) == ExchangesEnded(s) + ahead
    decreases ahead
  {
    if ahead == 0 {
      events, t := [], s;
      LinedIsQueued(s, first, count, deadline, first);
      WaitsNone(config, s, first);
    } else {
      var succeeding, u := ControlSucceeds(config, s, first, count, now, deadline, first + ahead);
      var rest;
      rest, t := LineSucceeds(config, u, first + 1, count - 1, now, deadline, ahead - 1);
      events := succeeding + rest;
      WaitsThen(config, s, succeeding, u, rest, t, first + ahead);
    }
  }

  /** A poll in flight and an early volume read, and one exchange of each control in front. */
  lemma LineWaits(config: Config, s: State, start: int, deadline: int, ahead: nat)
    returns (during: seq<Event>, t: State)
    requires Gathering(s, ahead + 1, start, deadline) && ahead > 0 && start < deadline
    ensures WaitsUntil(config, s, during, ahead, t) && ExchangesEnded(t) == ExchangesEnded(s) + ahead + 2
  {
    var polling, s1 := PollWaits(config, s, ahead + 1, start, deadline, ahead);
    var reading, s2 := LevelWaits(config, s1, ahead + 1, start, deadline, ahead);
    var rest;
    rest, t := LineSucceeds(config, s2, 0, ahead + 1, start, deadline, ahead);
    WaitsThen(config, s, polling, s1, reading, s2, ahead);
    WaitsThen(config, s, polling + reading, s2, rest, t, ahead);
    during := (polling + reading) + rest;
  }

  /**
   * A command waits for no more than the exchange in flight and one exchange of each earlier
   * control exactly when no control is outstanding in front of it: a single one, even if
   * everything succeeds, can bring a volume read of its own.
   */
  lemma DocumentedWaitExactly(config: Config, start: int, ahead: nat)
    requires ahead < QUEUE_CAPACITY && config.timing.controlDeadline > 0
    ensures (forall before: seq<Event>, during: seq<Event> :: WaitsBehind(config, start, before, during, ahead) ==>
               EndedDuring(config, start, before, during) <= ahead + 1)
       <==> ahead == 0
  {
    if ahead == 0 {
      forall before: seq<Event>, during: seq<Event> | WaitsBehind(config, start, before, during, ahead)
        ensures EndedDuring(config, start, before, during) <= 1
      {
        Reachable(config, start, before);
        BoundedWait(config, start, before, during, ahead);
      }
    } else {
      var before := Gather(config, start, ahead + 1);
      var s := Run(config, Initial(start), before);
      var during, t := LineWaits(config, s, start, start + config.timing.controlDeadline, ahead);
      GatheredWaits(config, start, before, during, ahead);
    }
  }

  lemma GatheredWaits(config: Config, start: int, before: seq<Event>, during: seq<Event>, ahead: nat)
    requires var s := Run(config, Initial(start), before);
             && Gathering(s, ahead + 1, start, start + config.timing.controlDeadline)
             && StaysQueued(config, s, during, ahead)
    ensures WaitsBehind(config, start, before, during, ahead)
  {
    var s := Run(config, Initial(start), before);
    assert Awaited(s.controls[ahead], s.futures, ahead, start + config.timing.controlDeadline);
  }

  /** Some run reaches the bound on the wait. */
  predicate WaitsLongest(
    config: Config, start: int, before: seq<Event>, during: seq<Event>, ahead: nat, active: bool)
  {
    && WaitsBehind(config, start, before, during, ahead)
    && Run(config, Initial(start), before).worker.HasJob() == active
    && EndedDuring(config, start, before, during) == LongestWait(ahead, active)
  }

  /** A poll in flight, an early volume read, and two attempts of each control in front. */
  lemma LongestWithoutActive(config: Config, s: State, start: int, deadline: int, ahead: nat)
    returns (during: seq<Event>, t: State)
    requires Gathering(s, ahead + 1, start, deadline)
    requires config.timing.retryDelay >= 0 && start + ahead * config.timing.retryDelay < deadline
    ensures WaitsUntil(config, s, during, ahead, t)
    ensures ExchangesEnded(t) == ExchangesEnded(s) + LongestWait(ahead, false)
  {
    assert 0 <= ahead * config.timing.retryDelay;
    var polling, s1 := PollWaits(config, s, ahead + 1, start, deadline, ahead);
    if ahead == 0 {
      during, t := polling, s1;
    } else {
      var reading, s2 := LevelWaits(config, s1, ahead + 1, start, deadline, ahead);
      var rest;
      rest, t := LineFails(config, s2, 0, ahead + 1, start, deadline, ahead);
      WaitsThen(config, s, polling, s1, reading, s2, ahead);
      WaitsThen(config, s, polling + reading, s2, rest, t, ahead);
      during := (polling + reading) + rest;
    }
  }

  /** The active control's early volume read, and two attempts of each control in front. */
  lemma LongestWithActive(config: Config, s: State, now: int, deadline: int, ahead: nat)
    returns (during: seq<Event>, t: State)
    requires ReadingLevel(s, ahead + 1, now, deadline) && ahead > 0
    requires config.timing.retryDelay >= 0 && now + ahead * config.timing.retryDelay < deadline
    ensures WaitsUntil(config, s, during, ahead, t)
    ensures ExchangesEnded(t) == ExchangesEnded(s) + LongestWait(ahead, true)
  {
    var s1 := LevelReadEnds(config, s, ahead + 1, now, deadline);
    LinedIsQueued(s, 1, ahead, deadline, ahead);
    LinedIsQueued(s1, 0, ahead + 1, deadline, ahead);
    var reading := WaitsStep(config, s, VolumeReplies(Success(VolumeStatus(20, false))), ahead, s1);
    var rest;
    rest, t := LineFails(config, s1, 0, ahead + 1, now, deadline, ahead);
    WaitsThen(config, s, reading, s1, rest, t, ahead);
    during := reading + rest;
  }

  /** After the poll has failed the worker reads the volume for the first control in line. */
  lemma GatherAndTake(config: Config, start: int, count: nat) returns (events: seq<Event>)
    requires 0 < count <= QUEUE_CAPACITY && config.timing.controlDeadline > 0
    ensures ReadingLevel(
              Run(config, Initial(start), events), count, start, start + config.timing.controlDeadline)
  {
    var deadline := start + config.timing.controlDeadline;
    var gathering := Gather(config, start, count);
    var s := Run(config, Initial(start), gathering);
    var polled := PollSteps(config, s, count, start, deadline);
    var reading := LevelReadStarts(config, polled, count, start, deadline);
    RunOneMore(config, s, SourceReplies(Failure(TIMED_OUT)));
    RunConcat(config, Initial(start), gathering, [SourceReplies(Failure(TIMED_OUT))]);
    RunOneMore(config, polled, WorkerTurn(0));
    RunConcat(config, Initial(start), gathering + [SourceReplies(Failure(TIMED_OUT))], [WorkerTurn(0)]);
    events := (gathering + [SourceReplies(Failure(TIMED_OUT))]) + [WorkerTurn(0)];
  }

  /** The bound on the wait is reached, behind any number of controls. */
  lemma WaitIsReached(config: Config, start: int, ahead: nat, active: bool)
    requires ahead < QUEUE_CAPACITY && (active ==> ahead > 0)
    requires config.timing.retryDelay >= 0 && ahead * config.timing.retryDelay < config.timing.controlDeadline
    ensures exists before: seq<Event>, during: seq<Event> ::
              WaitsLongest(config, start, before, during, ahead, active)
  {
    assert 0 <= ahead * config.timing.retryDelay;
    var deadline := start + config.timing.controlDeadline;
    if active {
      var before := GatherAndTake(config, start, ahead + 1);
      var s := Run(config, Initial(start), before);
      var during, t := LongestWithActive(config, s, start, deadline, ahead);
      assert Awaited(s.controls[ahead - 1], s.futures, ahead, deadline);
      assert WaitsLongest(config, start, before, during, ahead, active);
    } else {
      var before := Gather(config, start, ahead + 1);
      var s := Run(config, Initial(start), before);
      var during, t := LongestWithoutActive(config, s, start, deadline, ahead);
      GatheredWaits(config, start, before, during, ahead);
      assert WaitsLongest(config, start, before, during, ahead, active);
    }
  }
}
