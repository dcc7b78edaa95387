/** Availability, attempts and volume reads, as functions of what happened on the channel. */
module Channel {
  import opened Wrappers
  import opened Protocol
  import opened Client
  import opened Scheduler
  import opened StepCases
  import opened Invariant
  import opened Accounting
  import opened Waiters
  import opened Progress
  import opened Guarantees

  // ------------------------------------------------------------- availability

  /**
   * Over every run the failure count is the number of primary failures since the last success,
   * and availability, staleness and degradation are what replaying the records gives.
   */
  lemma HealthIsReplayed(config: Config, start: int, events: seq<Event>)
    ensures var s := Run(config, Initial(start), events);
            var health := s.snapshot.health;
            && health.consecutiveFailures == FailuresSinceSuccess(s.history)
            && health.available == AvailableBy(config, s.startedMono, s.history)
            && health.stale == StaleBy(config, s.startedMono, s.history)
            && health.degraded == DegradedBy(config, s.startedMono, s.history)
            && (!health.available ==> health.degraded && Lost(config, s.startedMono, s.history, s.now))
  {
    Reachable(config, start, events);
  }

  /** Ages and counts change meaning only at a record, so availability is the test made there. */
  lemma {:induction false} AvailableByLastRecord(config: Config, started: int, history: History)
    ensures AvailableBy(config, started, history)
         == !(LastRecord(history).Some? && Lost(config, started, history, LastRecord(history).value))
  {
    if history.Then? && !IsRecord(history.latest) {
      AvailableByLastRecord(config, started, history.before);
    }
  }

  /**
   * Staleness is the age test of the last state read and unavailability the test of failures and
   * silence, both as they came out at the last record. They agree with the tests made now exactly
   * when the test made now fails or already held then.
   */
  lemma HealthLagsExactly(config: Config, start: int, events: seq<Event>)
    ensures var s := Run(config, Initial(start), events);
            var health, last := s.snapshot.health, LastRecord(s.history);
            var aged := Aged(config, s.startedMono, s.history, s.now);
            var lost := Lost(config, s.startedMono, s.history, s.now);
            && (health.stale ==> aged) && (!health.available ==> lost)
            && ((health.stale == aged) <==>
                  (!aged || (last.Some? && Aged(config, s.startedMono, s.history, last.value))))
            && ((health.available == !lost) <==>
                  (!lost || (last.Some? && Lost(config, s.startedMono, s.history, last.value))))
  {
    Reachable(config, start, events);
    var s := Run(config, Initial(start), events);
    AvailableByLastRecord(config, s.startedMono, s.history);
  }

  /** The worker is ready and has only polls to serve. */
  predicate OnlyPolls(s: State) {
    (s.worker, s.closing, s.controls, s.plan, s.maintenancePending) == (Ready, false, [], NO_PLAN, false)
  }

  /** The worker sleeps with its event clear and no planned read to wake up for. */
  predicate Asleep(s: State) { (s.worker, s.wake) == (Idle(None), false) }

  /** The first poll is answered, by a speaker that is off, and the worker goes to sleep. */
  function AnsweredPoll(status: SourceStatus): seq<Event> {
    [Start] + ([WorkerTurn(0)] + HearAndSleep(status))
  }

  function HearAndSleep(status: SourceStatus): seq<Event> {
    [SourceReplies(Success(status))] + ([WorkerTurn(0)] + [])
  }

  lemma FirstPollStarts(config: Config, start: int, rest: seq<Event>)
    ensures Run(config, Initial(start), [Start] + ([WorkerTurn(0)] + rest))
         == Run(config, StartSourceRead(StartWorker(Initial(start)), Poll), rest)
  {
    var started := StartWorker(Initial(start));
    assert Turn(config, started, 0) == StartSourceRead(started, Poll);
    RunOne(config, Initial(start), Start, [WorkerTurn(0)] + rest);
    RunOne(config, started, WorkerTurn(0), rest);
  }

  lemma TurnSleeps(config: Config, s: State)
    requires OnlyPolls(s) && !s.pollPending
    ensures Run(config, s, [WorkerTurn(0)] + []) == GoIdle(s)
  {
    RunOne(config, s, WorkerTurn(0), []);
  }

  lemma HeardAndAsleep(config: Config, s: State, status: SourceStatus)
    requires s.worker == ReadingSource(Poll) && s.plan == NO_PLAN && s.controls == [] && !s.closing
    requires !status.powerOn && config.timing.staleAfter > 0
    ensures Run(config, s, HearAndSleep(status)) == GoIdle(SourceArrived(config, s, Poll, status))
  {
    PollIsHeard(config, s, status);
    StepHearsSource(config, s, status);
    TurnSleeps(config, SourceArrived(config, s, Poll, status));
    RunOne(config, s, SourceReplies(Success(status)), [WorkerTurn(0)] + []);
  }

  lemma AnsweredPollIsFresh(config: Config, start: int, status: SourceStatus)
    requires !status.powerOn && config.timing.staleAfter > 0
    ensures var s := Run(config, Initial(start), AnsweredPoll(status));
            (Asleep(s), s.now, LastStateRead(s.history), s.snapshot.health.stale) == (true, start, Some(start), false)
  {
    var reading := StartSourceRead(StartWorker(Initial(start)), Poll);
    FirstPollStarts(config, start, HearAndSleep(status));
    HeardAndAsleep(config, reading, status);
    PollIsHeard(config, reading, status);
  }

  lemma PollIsHeard(config: Config, s: State, status: SourceStatus)
    requires !status.powerOn && config.timing.staleAfter > 0 && s.plan == NO_PLAN && s.controls == [] && !s.closing
    ensures var t := SourceArrived(config, s, Poll, status);
            (OnlyPolls(t), t.pollPending, t.now, LastStateRead(t.history), t.snapshot.health.stale)
              == (true, false, s.now, Some(s.now), false)
  {
    ReadHistory(config);
  }

  /** While the worker sleeps after a poll the state ages without becoming stale. */
  lemma StaleLagsBehind(config: Config, start: int, status: SourceStatus, elapsed: nat)
    requires !status.powerOn && elapsed >= config.timing.staleAfter > 0
    ensures var s := Run(config, Initial(start), AnsweredPoll(status) + [Tick(elapsed)]);
            (Asleep(s), Aged(config, s.startedMono, s.history, s.now), s.snapshot.health.stale) == (true, true, false)
  {
    AnsweredPollIsFresh(config, start, status);
    RunConcat(config, Initial(start), AnsweredPoll(status), [Tick(elapsed)]);
    RunOneMore(config, Run(config, Initial(start), AnsweredPoll(status)), Tick(elapsed));
  }

  /** What unavailability is judged by. */
  datatype Silence = Silence(
    now: int, started: int, failures: nat, lastSuccess: Option<int>, lastRecord: Option<int>)

  function SilenceOf(s: State): Silence {
    Silence(s.now, s.startedMono, FailuresSinceSuccess(s.history), LastSuccess(s.history), LastRecord(s.history))
  }

  /** One more failure since the last success, at the same time, and no poll is left to serve. */
  predicate OneMoreFailure(s: State, t: State) {
    && OnlyPolls(t) && !t.pollPending
    && SilenceOf(t) == SilenceOf(s).(failures := SilenceOf(s).failures + 1, lastRecord := Some(s.now))
  }

  lemma FailedPollIsCounted(config: Config, s: State, error: LsxError)
    requires OnlyPolls(s)
    ensures OneMoreFailure(s, SourceFailed(config, StartSourceRead(PollOnce(s), Poll), Poll, error))
  {
    ReadHistory(config);
  }

  function FailingPoll(error: LsxError): seq<Event> {
    [PollState] + ([WorkerTurn(0)] + ([SourceReplies(Failure(error))] + []))
  }

  lemma PollIsRead(config: Config, s: State, rest: seq<Event>)
    requires OnlyPolls(s)
    ensures Run(config, s, [PollState] + ([WorkerTurn(0)] + rest))
         == Run(config, StartSourceRead(PollOnce(s), Poll), rest)
  {
    RunOne(config, s, PollState, [WorkerTurn(0)] + rest);
    RunOne(config, PollOnce(s), WorkerTurn(0), rest);
  }

  lemma ReadFails(config: Config, s: State, error: LsxError)
    requires s.worker.ReadingSource?
    ensures Run(config, s, [SourceReplies(Failure(error))] + []) == SourceFailed(config, s, s.worker.reason, error)
  {
    RunOne(config, s, SourceReplies(Failure(error)), []);
    StepFailsSource(config, s, error);
  }

  lemma FailingPollRuns(config: Config, s: State, error: LsxError)
    requires OnlyPolls(s)
    ensures Run(config, s, FailingPoll(error))
         == SourceFailed(config, StartSourceRead(PollOnce(s), Poll), Poll, error)
  {
    PollIsRead(config, s, [SourceReplies(Failure(error))] + []);
    ReadFails(config, StartSourceRead(PollOnce(s), Poll), error);
  }

  lemma OnePollFails(config: Config, s: State, error: LsxError)
    requires OnlyPolls(s)
    ensures OneMoreFailure(s, Run(config, s, FailingPoll(error)))
  {
    FailingPollRuns(config, s, error);
    FailedPollIsCounted(config, s, error);
  }

  lemma {:induction false} PollsFail(config: Config, s: State, count: nat, error: LsxError) returns (events: seq<Event>)
    requires OnlyPolls(s)
    ensures var t, silence := Run(config, s, events), SilenceOf(s);
            && OnlyPolls(t) && (t.pollPending ==> count == 0 && s.pollPending)
            && SilenceOf(t) == silence.(
                 failures := silence.failures + count,
                 lastRecord := if count > 0 then Some(s.now) else silence.lastRecord)
    decreases count
  {
    if count == 0 {
      events := [];
    } else {
      OnePollFails(config, s, error);
      var rest := PollsFail(config, Run(config, s, FailingPoll(error)), count - 1, error);
      RunConcat(config, s, FailingPoll(error), rest);
      events := FailingPoll(error) + rest;
    }
  }

  /** With every poll answered the worker goes to sleep, and time passes. */
  lemma SleepingThrough(config: Config, s: State, silence: nat)
    requires OnlyPolls(s) && !s.pollPending
    ensures var t := Run(config, s, [WorkerTurn(0), Tick(silence)]);
            (Asleep(t), t.snapshot, SilenceOf(t)) == (true, s.snapshot, SilenceOf(s).(now := s.now + silence))
  {
    RunOne(config, s, WorkerTurn(0), [Tick(silence)]);
    RunOneMore(config, GoIdle(s), Tick(silence));
    assert [WorkerTurn(0)] + [Tick(silence)] == [WorkerTurn(0), Tick(silence)];
  }

  /** The worker sleeps, has had enough failures and no success for long, and is still available. */
  predicate LagsAsleep(config: Config, s: State) {
    Asleep(s) && Lost(config, s.startedMono, s.history, s.now) && s.snapshot.health.available
  }

  /** Enough failures at once and then sleep: long unheard of, and still available. */
  lemma AvailabilityLagsBehind(config: Config, start: int, silence: nat)
    requires silence >= config.timing.unavailableAfter > 0
    ensures exists events: seq<Event> :: LagsAsleep(config, Run(config, Initial(start), events))
  {
    var started := StartWorker(Initial(start));
    var polls := PollsFail(config, started, config.timing.failureThreshold, LsxError(ConnectTimeout, false));
    var failed, sleep := Run(config, started, polls), [WorkerTurn(0), Tick(silence)];
    RunOneMore(config, Initial(start), Start);
    RunConcat(config, Initial(start), [Start], polls);
    RunConcat(config, Initial(start), [Start] + polls, sleep);
    SleepingThrough(config, failed, silence);
    Reachable(config, start, [Start] + polls);
    AvailableByLastRecord(config, failed.startedMono, failed.history);
    assert LagsAsleep(config, Run(config, Initial(start), ([Start] + polls) + sleep));
  }

  /** Availability is lost only at a recorded failure, with enough failures and enough time without a success. */
  lemma AvailabilityIsLostOnlyWhenLost(config: Config, start: int, before: seq<Event>, event: Event)
    requires var s := Run(config, Initial(start), before);
             s.snapshot.health.available && !Step(config, s, event).snapshot.health.available
    ensures var s := Run(config, Initial(start), before);
            var t := Step(config, s, event);
            && TallyOf(t.history).records > TallyOf(s.history).records
            && TallyOf(t.history).successes == TallyOf(s.history).successes
            && t.snapshot.health.consecutiveFailures >= config.timing.failureThreshold
            && Lost(config, t.startedMono, t.history, t.now)
  {
    Reachable(config, start, before);
    StepAdvances(config, Run(config, Initial(start), before), event);
  }

  /** One success restores availability at once. */
  lemma SuccessRestores(config: Config, start: int, before: seq<Event>, event: Event)
    ensures var s := Run(config, Initial(start), before);
            var t := Step(config, s, event);
            TallyOf(t.history).successes > TallyOf(s.history).successes ==> t.snapshot.health.available
  {
    Reachable(config, start, before);
    StepAdvances(config, Run(config, Initial(start), before), event);
  }

  lemma {:induction false} SuccessesGrow(config: Config, s: State, events: seq<Event>)
    requires Inv(config, s)
    ensures TallyOf(Run(config, s, events).history).successes >= TallyOf(s.history).successes
    ensures TallyOf(Run(config, s, events).history).levels >= TallyOf(s.history).levels
    decreases |events|
  {
    if events != [] {
      StepAdvances(config, s, events[0]);
      SuccessesGrow(config, Step(config, s, events[0]), events[1..]);
    }
  }

  lemma {:induction false} UnavailableUntilSuccessFrom(config: Config, s: State, events: seq<Event>)
    requires Inv(config, s) && !s.snapshot.health.available
    requires TallyOf(Run(config, s, events).history).successes == TallyOf(s.history).successes
    ensures !Run(config, s, events).snapshot.health.available
    decreases |events|
  {
    if events != [] {
      StepAdvances(config, s, events[0]);
      SuccessesGrow(config, Step(config, s, events[0]), events[1..]);
      UnavailableUntilSuccessFrom(config, Step(config, s, events[0]), events[1..]);
    }
  }

  /** Once unavailable, the runtime stays so until the next success, whatever else happens. */
  lemma UnavailableUntilSuccess(config: Config, start: int, before: seq<Event>, after: seq<Event>)
    requires var s := Run(config, Initial(start), before);
             && !s.snapshot.health.available
             && TallyOf(Run(config, s, after).history).successes == TallyOf(s.history).successes
    ensures !Run(config, Run(config, Initial(start), before), after).snapshot.health.available
  {
    Reachable(config, start, before);
    UnavailableUntilSuccessFrom(config, Run(config, Initial(start), before), after);
  }

  // ----------------------------------------------------------------- attempts

  /** Every history a run can produce is lawful. */
  lemma HistoriesAreLawful(config: Config, start: int, events: seq<Event>)
    ensures AllLawful(Run(config, Initial(start), events).history)
  {
    ReachableIsKept(config, start, events);
  }

  lemma {:induction false} LawfulWrites(history: History, job: nat)
    requires AllLawful(history)
    ensures AccountOf(history, job).writes <= 2
  {
    if history.Then? {
      LawfulWrites(history.before, job);
    }
  }

  /** `part` is the history as it stood at some point on the way to `whole`. */
  predicate Reached(part: History, whole: History) {
    part == whole || (whole.Then? && Reached(part, whole.before))
  }

  lemma {:induction false} LawfulParts(part: History, whole: History)
    requires AllLawful(whole) && Reached(part, whole)
    ensures AllLawful(part)
  {
    if part != whole {
      LawfulParts(part, whole.before);
    }
  }

  /**
   * Every SET a run starts is the first or second of its control, starts before the control's
   * deadline and before anything settled it, and a second one repeats the bytes of the first.
   */
  lemma AttemptsAreBounded(
    config: Config, start: int, events: seq<Event>, before: History, job: nat, attempt: nat, request: Bytes, at: int)
    requires Reached(Then(before, Began(Write(job, attempt, request), at)), Run(config, Initial(start), events).history)
    ensures var account := AccountOf(before, job);
            && attempt == account.writes <= 1
            && account.deadline.Some? && at < account.deadline.value && account.fate.None?
            && (attempt == 1 ==> account.request == Some(request))
    ensures AccountOf(Run(config, Initial(start), events).history, job).writes <= 2
  {
    HistoriesAreLawful(config, start, events);
    var whole := Run(config, Initial(start), events).history;
    LawfulParts(Then(before, Began(Write(job, attempt, request), at)), whole);
    LawfulWrites(whole, job);
  }

  /** A control is settled once, and an error's write flag says whether its last try handed bytes over. */
  lemma SettlementsAreBooked(
    config: Config, start: int, events: seq<Event>, before: History, job: nat, fate: Fate)
    requires Reached(Then(before, Settled(job, fate)), Run(config, Initial(start), events).history)
    ensures var account := AccountOf(before, job);
            && account.deadline.Some? && account.fate.None?
            && (fate.Acked? ==> account.handed && account.writes >= 1)
            && (fate.FailedWith? ==> fate.wrote == account.handed)
            && (fate.Dropped? ==> account.writes == 0)
  {
    HistoriesAreLawful(config, start, events);
    LawfulParts(Then(before, Settled(job, fate)), Run(config, Initial(start), events).history);
  }

  /** The published result of a completed command is its control's fate. */
  lemma ResultsAreTruthful(config: Config, start: int, events: seq<Event>)
    ensures var s := Run(config, Initial(start), events);
            s.snapshot.lastCommand.Some? && s.snapshot.lastCommand.value.completed ==>
              var result := s.snapshot.lastCommand.value;
              var account := AccountOf(s.history, result.job);
              && account.fate.Some? && ResultTells(result, account.fate)
              && (result.acknowledged ==> result.writeAttempted)
  {
    ReachableIsKept(config, start, events);
  }

  /** A rejected SET is settled in the same step, so it is never repeated. */
  lemma RejectionSettles(config: Config, start: int, before: seq<Event>, error: LsxError)
    requires Run(config, Initial(start), before).worker.Writing? && error.fault.CommandRejected?
    ensures var s := Run(config, Initial(start), before);
            var t := Step(config, s, WriteReplies(Some(error)));
            && t.worker == Ready
            && AccountOf(t.history, s.worker.job.job).fate
                 == Some(FailedWith(ClientError(error.fault), s.worker.wrote || error.writeAttempted))
  {
    RejectionSettlesIn(config, Run(config, Initial(start), before), error);
  }

  lemma RejectionSettlesIn(config: Config, s: State, error: LsxError)
    requires s.worker.Writing? && error.fault.CommandRejected?
    ensures var t := Step(config, s, WriteReplies(Some(error)));
            && t.worker == Ready
            && AccountOf(t.history, s.worker.job.job).fate
                 == Some(FailedWith(ClientError(error.fault), s.worker.wrote || error.writeAttempted))
  {
    var wrote := s.worker.wrote || error.writeAttempted;
    WriteFailedIsAfterFailure(config, s, error);
    RejectionBooks(config, s.Log(Ended(WriteOf(s.worker), error.writeAttempted)), s.worker.job, wrote, error);
  }

  lemma RejectionBooks(config: Config, u: State, job: Control, wrote: bool, error: LsxError)
    requires error.fault.CommandRejected?
    ensures var t := WriteRejected(config, u, job, wrote, error);
            t.worker == Ready && AccountOf(t.history, job.job).fate == Some(FailedWith(ClientError(error.fault), wrote))
  {
    ReadAccounts();
  }

  // ------------------------------------------------------------------- volume

  /** Successful maintenance reads are at least the poll interval apart, over every run. */
  lemma MaintenanceIsRateLimited(config: Config, start: int, events: seq<Event>)
    ensures var s := Run(config, Initial(start), events);
            && Spaced(s.history, config.timing.volumePollInterval)
            && (s.snapshot.speaker.volume.Some? <==> s.lastVolumeMono.Some?)
  {
    Reachable(config, start, events);
  }

  lemma {:induction false} CommandsRespectMaximumFrom(config: Config, s: State, events: seq<Event>)
    requires Inv(config, s)
    requires TallyOf(Run(config, s, events).history).levels == TallyOf(s.history).levels
    ensures var t := Run(config, s, events);
            t.snapshot.speaker.volume.Some? ==>
              t.snapshot.speaker.volume.value <= Max(config.maximumVolume, VolumeOrZero(s.snapshot.speaker))
    decreases |events|
  {
    if events != [] {
      StepAdvances(config, s, events[0]);
      SuccessesGrow(config, Step(config, s, events[0]), events[1..]);
      CommandsRespectMaximumFrom(config, Step(config, s, events[0]), events[1..]);
    }
  }

  /** No command raises the cached volume above the maximum; only a volume read can. */
  lemma CommandsRespectMaximum(config: Config, start: int, before: seq<Event>, after: seq<Event>)
    requires var s := Run(config, Initial(start), before);
             && (s.snapshot.speaker.volume.Some? ==> s.snapshot.speaker.volume.value <= config.maximumVolume)
             && TallyOf(Run(config, s, after).history).levels == TallyOf(s.history).levels
    ensures var t := Run(config, Run(config, Initial(start), before), after);
            t.snapshot.speaker.volume.Some? ==> 0 <= t.snapshot.speaker.volume.value <= config.maximumVolume
  {
    Reachable(config, start, before);
    RunAdvances(config, Run(config, Initial(start), before), after);
    CommandsRespectMaximumFrom(config, Run(config, Initial(start), before), after);
  }

  /** The level in the bytes of a volume SET. */
  function WrittenLevel(request: Bytes): int {
    if |request| == 4 then request[3] % 0x80 else 0
  }

  /** Whether a volume control, run on this cached volume, stays within the maximum. */
  predicate KeepsToMaximum(config: Config, kind: Kind, volume: int) {
    match kind
    case VolumeDown => volume - config.volumeStep <= config.maximumVolume
    case Mute => volume <= config.maximumVolume
    case Unmute => volume <= config.maximumVolume
    case _ => true
  }

  lemma WrittenLevelExactlyIn(config: Config, s: State)
    requires Inv(config, s) && s.worker.Writing? && !s.worker.job.kind.ChangesSource()
    ensures |s.worker.request| == 4 && s.worker.request[..3] == [SET, VOLUME_REGISTER, SET_MARKER]
    ensures WrittenLevel(s.worker.request) <= config.maximumVolume
       <==> KeepsToMaximum(config, s.worker.job.kind, VolumeOrZero(s.snapshot.speaker))
  {
  }

  /**
   * Every volume SET a run writes carries a level within the maximum if and only if its kind and
   * the volume cached when it is written allow it: setting and raising always do, muting and
   * unmuting repeat the cached volume, and lowering may stay above.
   */
  lemma WrittenLevelExactly(config: Config, start: int, events: seq<Event>)
    requires var s := Run(config, Initial(start), events);
             s.worker.Writing? && !s.worker.job.kind.ChangesSource()
    ensures var s := Run(config, Initial(start), events);
            && |s.worker.request| == 4 && s.worker.request[..3] == [SET, VOLUME_REGISTER, SET_MARKER]
            && ((WrittenLevel(s.worker.request) <= config.maximumVolume) <==>
                  KeepsToMaximum(config, s.worker.job.kind, VolumeOrZero(s.snapshot.speaker)))
  {
    Reachable(config, start, events);
    WrittenLevelExactlyIn(config, Run(config, Initial(start), events));
  }

  /** From a cached volume within the maximum on, every level written is, until a volume read. */
  lemma WritesRespectMaximum(config: Config, start: int, before: seq<Event>, after: seq<Event>)
    requires var s := Run(config, Initial(start), before);
             && (s.snapshot.speaker.volume.Some? ==> s.snapshot.speaker.volume.value <= config.maximumVolume)
             && TallyOf(Run(config, s, after).history).levels == TallyOf(s.history).levels
    ensures var t := Run(config, Run(config, Initial(start), before), after);
            t.worker.Writing? && !t.worker.job.kind.ChangesSource() ==>
              WrittenLevel(t.worker.request) <= config.maximumVolume
  {
    CommandsRespectMaximum(config, start, before, after);
    var t := Run(config, Run(config, Initial(start), before), after);
    RunConcat(config, Initial(start), before, after);
    if t.worker.Writing? && !t.worker.job.kind.ChangesSource() {
      WrittenLevelExactly(config, start, before + after);
    }
  }
}
