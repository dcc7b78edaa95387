/** The worker never gets stuck, and settles every control within a bounded number of its moves. */
module Settling {
  import opened Wrappers
  import opened Protocol
  import opened Client
  import opened Scheduler
  import opened StepCases
  import opened Invariant
  import opened Waiters
  import opened Progress
  import opened Guarantees

  // -------------------------------------------------------------------- moves

  /** The event is one the worker waits for: its turn, its wake-up, an exchange's end, a pause's end. */
  predicate Moves(s: State, event: Event) {
    match event
    case WorkerTurn(_) => s.worker.Ready?
    case WorkerWakes => CanWake(s)
    case SourceReplies(_) => s.worker.ReadingSource?
    case VolumeReplies(_) => s.worker.ReadingVolume? || s.worker.Resolving?
    case WriteReplies(_) => s.worker.Writing?
    case RetryPauseEnds => s.worker.Sleeping? && s.now >= s.worker.until
    case _ => false
  }

  function Moved(s: State, event: Event): nat { if Moves(s, event) then 1 else 0 }

  /** How often the worker moves in a run. */
  function MoveCount(config: Config, s: State, events: seq<Event>): nat
    decreases |events|
  {
    if events == [] then 0
    else Moved(s, events[0]) + MoveCount(config, Step(config, s, events[0]), events[1..])
  }

  /**
   * Moves until the worker is free for the next control, less the four that a control takes at
   * most: its turn, its SET, the pause and the second SET. An early volume read takes two more.
   */
  function Debt(s: State): int {
    var early := if s.snapshot.speaker.volume.None? then 2 else 0;
    match s.worker
    case Idle(_) => 1 + early
    case ReadingSource(_) => 1 + early
    case ReadingVolume => 1 + early
    case Resolving(_) => 1
    case Writing(_, attempt, _, _) => (if attempt == 0 then -1 else -3) + early
    case Sleeping(_, _, _, _) => -2 + early
    case Crashed(_) => -3 + early
    case _ => early
  }

  /** The outstanding controls are the old ones without the first `settled`, and newly accepted ones. */
  predicate Keeps(s: State, t: State, settled: nat) {
    var a, b := s.Outstanding(), t.Outstanding();
    && settled <= |a| <= |b| + settled
    && (forall i :: settled <= i < |a| ==> b[i - settled].job == a[i].job)
    && (forall j :: |a| - settled <= j < |b| ==> b[j].job >= s.nextJob)
  }

  /** The first `settled` outstanding controls are gone, for which the worker had that many moves. */
  predicate Nearer(s: State, t: State, settled: nat, moved: nat) {
    Keeps(s, t, settled) && (s.Outstanding() == [] || Debt(t) + moved <= Debt(s) + 4 * settled)
  }

  /** Every move brings each outstanding control nearer to its end; nothing puts it back. */
  predicate Settles(s: State, t: State, moved: nat) {
    (t.worker.Stopped? ==> s.worker.Stopped?) && (Nearer(s, t, 0, moved) || Nearer(s, t, 1, moved))
  }

  // ----------------------------------------------------------- what a step does

  /** The same controls are outstanding, or one more. */
  lemma StayingSettles(s: State, t: State)
    requires SamePlaces(s.controls, t.controls)
    requires forall k :: |s.controls| <= k < |t.controls| ==> t.controls[k].job >= s.nextJob
    requires t.worker.Active() == s.worker.Active()
    ensures Keeps(s, t, 0)
  {
  }

  /** The worker stays where it is, or gets ready. */
  lemma QuietSettles(s: State, t: State, moved: nat)
    requires t.controls == s.controls && t.snapshot == s.snapshot
    requires (t.worker == s.worker && moved == 0)
          || (s.worker.NotStarted? && t.worker == Ready && moved == 0)
          || (s.worker.Idle? && t.worker == Ready && moved <= 1)
    ensures Settles(s, t, moved)
  {
    StayingSettles(s, t);
  }

  lemma CallerSettles(config: Config, s: State, event: Event)
    requires event.Start? || event.PollState? || event.Cancel? || event.Tick?
    ensures Settles(s, Step(config, s, event), Moved(s, event))
  {
    QuietSettles(s, Step(config, s, event), Moved(s, event));
  }

  lemma WakingSettles(config: Config, s: State, event: Event)
    requires !s.closing && (event.CloseForces? || event.CloseEnds? || event.WorkerWakes?)
    ensures Settles(s, Step(config, s, event), Moved(s, event))
  {
    QuietSettles(s, Step(config, s, event), Moved(s, event));
  }

  lemma SubmissionSettles(config: Config, s: State, kind: Kind, value: Value)
    ensures Settles(s, Submit(config, s, kind, value), 0)
  {
    if Judge(s, kind).Admitted? && Merges(s, kind) {
      StayingSettles(s, MergeIntoLast(s, value));
    } else {
      StayingSettles(s, Submit(config, s, kind, value));
    }
  }

  /** The worker was free or reading and is free again, with the same queue. */
  lemma ReadSettles(config: Config, s: State, t: State)
    requires s.worker.ReadingSource? || s.worker.ReadingVolume?
    requires t.worker == Ready && t.controls == s.controls && VolumeMoves(config, s, t)
    ensures Settles(s, t, 1)
  {
    StayingSettles(s, t);
  }

  lemma SourceReadSettles(config: Config, s: State, source: Result<SourceStatus, LsxError>)
    requires Inv(config, s) && s.worker.ReadingSource?
    ensures Settles(s, Step(config, s, SourceReplies(source)), 1)
  {
    StepAdvances(config, s, SourceReplies(source));
    match source
    case Success(status) =>
      StepHearsSource(config, s, status);
      ReadSettles(config, s, SourceArrived(config, s, s.worker.reason, status));
    case Failure(error) =>
      StepFailsSource(config, s, error);
      ReadSettles(config, s, SourceFailed(config, s, s.worker.reason, error));
  }

  lemma MaintenanceSettles(config: Config, s: State, volume: Result<VolumeStatus, LsxError>)
    requires Inv(config, s) && s.worker.ReadingVolume?
    ensures Settles(s, Step(config, s, VolumeReplies(volume)), 1)
  {
    StepAdvances(config, s, VolumeReplies(volume));
    ReadSettles(config, s, Step(config, s, VolumeReplies(volume)));
  }

  /** The control put back is outstanding as before, and its volume is known. */
  lemma PuttingBackSettles(config: Config, s: State, status: VolumeStatus)
    requires s.worker.Resolving?
    ensures Settles(s, ResolvingArrived(config, s, s.worker.job, status), 1)
  {
    assert ResolvingArrived(config, s, s.worker.job, status).Outstanding() == s.Outstanding();
  }

  lemma FailedResolutionSettles(config: Config, s: State, error: LsxError)
    requires s.worker.Resolving?
    ensures Settles(s, ResolvingFailed(config, s, s.worker.job, error), 1)
  {
    var u := s.Log(Ended(ResolvingRead(s.worker.job.job), error.writeAttempted));
    ResolvingFailedReleases(config, s, s.worker.job, error);
    ReleasingSettles(config, s, u, ResolvingFailed(config, s, s.worker.job, error));
  }

  lemma ResolutionSettles(config: Config, s: State, volume: Result<VolumeStatus, LsxError>)
    requires s.worker.Resolving?
    ensures Settles(s, Step(config, s, VolumeReplies(volume)), 1)
  {
    match volume
    case Success(status) => PuttingBackSettles(config, s, status);
    case Failure(error) => FailedResolutionSettles(config, s, error);
  }

  /** The active control is settled. */
  lemma ReleasingSettles(config: Config, s: State, u: State, t: State)
    requires s.worker.HasJob() && u.controls == s.controls && u.snapshot.speaker == s.snapshot.speaker
    requires Released(config, u, t)
    ensures Settles(s, t, 1)
  {
    assert s.Outstanding()[1..] == s.controls;
  }

  /** The control taken off the queue is settled. */
  lemma TakingReleases(config: Config, s: State, u: State, t: State)
    requires s.worker.Ready? && s.controls != [] && u.controls == s.controls[1..]
    requires u.snapshot.speaker == s.snapshot.speaker && Released(config, u, t)
    ensures Settles(s, t, 1)
  {
    assert s.Outstanding() == s.controls && t.Outstanding() == s.controls[1..];
  }

  /** The worker holds the control that is first in line, and is nearer to its end than before. */
  lemma HoldingSettles(s: State, t: State, job: Control)
    requires s.Outstanding() != [] && s.Outstanding()[0].job == job.job
    requires t.worker.HasJob() && t.worker.job.job == job.job && t.controls == s.Outstanding()[1..]
    requires Debt(t) + 1 <= Debt(s)
    ensures Settles(s, t, 1)
  {
    assert forall i :: 1 <= i < |s.Outstanding()| ==> t.Outstanding()[i] == t.controls[i - 1];
  }

  lemma HandingSettles(config: Config, s: State, u: State, ready: Control, attempt: nat, wrote: bool)
    requires s.Outstanding() != [] && s.Outstanding()[0].job == ready.job && u.controls == s.Outstanding()[1..]
    requires u.snapshot.speaker == s.snapshot.speaker
    requires (s.worker.Ready? && attempt == 0) || (s.worker.Sleeping? && attempt == 1)
    ensures Settles(s, HandToClient(config, u, ready, attempt, wrote), 1)
  {
    HoldingSettles(s, HandToClient(config, u, ready, attempt, wrote), ready);
  }

  lemma FreeTurnHoldsNothing(config: Config, s: State, drift: nat)
    requires !s.closing && s.controls == []
    ensures var t := Turn(config, s, drift);
            t.controls == [] && (t.worker.Ready? || t.worker.Idle? || Reading(t.worker) || t.worker == s.worker)
  {
  }

  /** With no control queued nothing is outstanding, and nothing is after the turn. */
  lemma FreeTurnSettles(config: Config, s: State, drift: nat)
    requires s.worker.Ready? && !s.closing && s.controls == []
    ensures Settles(s, Turn(config, s, drift), 1)
  {
    FreeTurnHoldsNothing(config, s, drift);
    NothingSettles(s, Turn(config, s, drift), 1);
  }

  lemma NothingSettles(s: State, t: State, moved: nat)
    requires s.Outstanding() == [] && t.Outstanding() == [] && !t.worker.Stopped?
    ensures Settles(s, t, moved)
  {
  }

  lemma TakingSettles(config: Config, s: State, drift: nat)
    requires s.worker.Ready? && s.controls != [] && VolumeSound(s.snapshot.speaker)
    ensures Settles(s, StartControl(config, s.(controls := s.controls[1..]), s.controls[0], drift), 1)
  {
    var u, job := s.(controls := s.controls[1..]), s.controls[0];
    if StartsAttempt(u, job) {
      StartControlAttempts(config, u, job, drift);
      AttemptSettles(config, s, u.(now := u.now + drift), job);
    } else {
      StartControlDoesNotAttempt(config, u, job, drift);
      DropReleases(config, u, job);
      ErrorReleases(config, u, job, DeadlineExpired, false);
      NoAttemptSettles(config, s, u, job, StartControl(config, u, job, drift));
    }
  }

  lemma TurnSettles(config: Config, s: State, drift: nat)
    requires s.worker.Ready? && !s.closing && VolumeSound(s.snapshot.speaker)
    ensures Settles(s, Turn(config, s, drift), 1)
  {
    if s.controls == [] {
      FreeTurnSettles(config, s, drift);
    } else {
      TurnTakesControl(config, s, drift);
      TakingSettles(config, s, drift);
    }
  }

  lemma NoAttemptSettles(config: Config, s: State, u: State, job: Control, t: State)
    requires s.worker.Ready? && s.controls != [] && job == s.controls[0] && u == s.(controls := s.controls[1..])
    requires VolumeSound(s.snapshot.speaker)
    requires Released(config, u, t) || (NeedsVolume(job, u.Speaker()) && t == ResolveVolume(u, job))
    ensures Settles(s, t, 1)
  {
    assert s.Outstanding() == s.controls;
    if Released(config, u, t) {
      TakingReleases(config, s, u, t);
    } else {
      HoldingSettles(s, t, job);
    }
  }

  lemma AttemptSettles(config: Config, s: State, u: State, job: Control)
    requires s.worker.Ready? && s.controls != [] && job == s.controls[0]
    requires u == s.(controls := s.controls[1..], now := u.now)
    ensures Settles(s, BeginAttempt(config, u, job, 0, false, None), 1)
  {
    BeginAttemptEither(config, u, job, 0, false, None);
    assert s.Outstanding() == s.controls;
    if GivesUp(u, job) {
      FinishAttemptsReleases(config, u, job, false, None);
      TakingReleases(config, s, u, FinishAttempts(config, u, job, false, None));
    } else {
      HandingSettles(config, s, u, Prepare(config, u.Speaker(), job), 0, false);
    }
  }

  lemma RetrySettles(config: Config, s: State)
    requires s.worker.Sleeping?
    ensures Settles(s, BeginAttempt(config, s, s.worker.job, 1, s.worker.wrote, Some(s.worker.failure)), 1)
  {
    var job, wrote, error := s.worker.job, s.worker.wrote, Some(s.worker.failure);
    BeginAttemptEither(config, s, job, 1, wrote, error);
    assert s.Outstanding()[1..] == s.controls;
    if GivesUp(s, job) {
      FinishAttemptsReleases(config, s, job, wrote, error);
      ReleasingSettles(config, s, s, FinishAttempts(config, s, job, wrote, error));
    } else {
      HandingSettles(config, s, s, Prepare(config, s.Speaker(), job), 1, wrote);
    }
  }

  lemma AcknowledgementSettles(config: Config, s: State)
    requires Inv(config, s) && s.worker.Writing?
    ensures Settles(s, WriteAcknowledged(config, s), 1)
  {
    var u := s.Log(Ended(WriteOf(s.worker), true));
    FinishAcknowledgedReleases(config, u, s.worker.job);
    ReleasingSettles(config, s, u, FinishAcknowledged(config, u, s.worker.job));
  }

  lemma PausingSettles(config: Config, s: State, u: State, wrote: bool, error: LsxError)
    requires s.worker.Writing? && s.worker.attempt == 0 && u == s.(history := u.history)
    ensures Settles(s, AttemptFailed(config, u, s.worker.job, 0, wrote, error), 1)
  {
    assert s.Outstanding()[1..] == s.controls;
    HoldingSettles(s, PauseBeforeRetry(config, u, s.worker.job, wrote, error), s.worker.job);
  }

  lemma LastFailureSettles(config: Config, s: State, u: State, wrote: bool, error: LsxError)
    requires s.worker.Writing? && u == s.(history := u.history)
    ensures Settles(s, FinishAttempts(config, u, s.worker.job, wrote, Some(error)), 1)
  {
    FinishAttemptsReleases(config, u, s.worker.job, wrote, Some(error));
    ReleasingSettles(config, s, u, FinishAttempts(config, u, s.worker.job, wrote, Some(error)));
  }

  lemma RejectionSettles(config: Config, s: State, u: State, wrote: bool, error: LsxError)
    requires s.worker.Writing? && u == s.(history := u.history)
    ensures Settles(s, WriteRejected(config, u, s.worker.job, wrote, error), 1)
  {
    WriteRejectedReleases(config, u, s.worker.job, wrote, error);
    ReleasingSettles(config, s, u, WriteRejected(config, u, s.worker.job, wrote, error));
  }

  lemma FailureSettles(config: Config, s: State, error: LsxError)
    requires Inv(config, s) && s.worker.Writing?
    ensures Settles(s, WriteFailed(config, s, error), 1)
  {
    var u := s.Log(Ended(WriteOf(s.worker), error.writeAttempted));
    var wrote := s.worker.wrote || error.writeAttempted;
    WriteFailedEither(config, s, error);
    if error.fault.CommandRejected? {
      RejectionSettles(config, s, u, wrote, error);
    } else if s.worker.attempt == 0 {
      PausingSettles(config, s, u, wrote, error);
    } else {
      LastFailureSettles(config, s, u, wrote, error);
    }
  }

  lemma WorkerSettles(config: Config, s: State, event: Event)
    requires Inv(config, s) && Moves(s, event) && !event.WorkerWakes? && !s.closing
    ensures Settles(s, Step(config, s, event), 1)
  {
    match event
    case WorkerTurn(drift) => TurnSettles(config, s, drift);
    case SourceReplies(source) => SourceReadSettles(config, s, source);
    case VolumeReplies(volume) =>
      if s.worker.ReadingVolume? {
        MaintenanceSettles(config, s, volume);
      } else {
        ResolutionSettles(config, s, volume);
      }
    case WriteReplies(None) =>
      StepAcknowledges(config, s);
      AcknowledgementSettles(config, s);
    case WriteReplies(Some(error)) =>
      StepFailsWrite(config, s, error);
      FailureSettles(config, s, error);
    case RetryPauseEnds => RetrySettles(config, s);
  }

  lemma StepSettles(config: Config, s: State, event: Event)
    requires Inv(config, s) && !s.closing && !Step(config, s, event).closing
    ensures Settles(s, Step(config, s, event), Moved(s, event))
  {
    match event
    case SubmitCommand(command) => SubmissionSettles(config, s, KindOf(command), ValueOf(config, command));
    case Start => CallerSettles(config, s, event);
    case PollState => CallerSettles(config, s, event);
    case Cancel(_) => CallerSettles(config, s, event);
    case Tick(_) => CallerSettles(config, s, event);
    case CloseForces => WakingSettles(config, s, event);
    case CloseEnds => WakingSettles(config, s, event);
    case WorkerWakes => WakingSettles(config, s, event);
    case _ =>
      if Moves(s, event) { WorkerSettles(config, s, event); } else { StayingSettles(s, s); }
  }

  // ---------------------------------------------------------------- whole runs

  /** The control with this number is accepted and not settled. */
  predicate IsOutstanding(s: State, job: nat) {
    exists i :: 0 <= i < |s.Outstanding()| && s.Outstanding()[i].job == job
  }

  /** How many moves the worker can make until the outstanding control number `i` is settled. */
  function MovesLeft(s: State, i: nat): int {
    4 * (i + 1) + Debt(s)
  }

  /** An outstanding control was outstanding before the step, and has used up what was moved. */
  lemma MoveIsUsedUp(s: State, u: State, moved: nat, k: nat) returns (i: nat)
    requires Settles(s, u, moved) && k < |u.Outstanding()| && u.Outstanding()[k].job < s.nextJob
    ensures i < |s.Outstanding()| && s.Outstanding()[i].job == u.Outstanding()[k].job
    ensures moved + MovesLeft(u, k) <= MovesLeft(s, i)
  {
    i := if Nearer(s, u, 0, moved) then k else k + 1;
  }

  /** Going back over a run, a control that is still outstanding was outstanding all the time. */
  lemma {:induction false} MovesAreUsedUp(config: Config, s: State, events: seq<Event>, job: nat, j: nat)
    returns (i: nat)
    requires Inv(config, s) && job < s.nextJob && !Run(config, s, events).closing
    requires var t := Run(config, s, events); j < |t.Outstanding()| && t.Outstanding()[j].job == job
    ensures i < |s.Outstanding()| && s.Outstanding()[i].job == job
    ensures MoveCount(config, s, events) + MovesLeft(Run(config, s, events), j) <= MovesLeft(s, i)
    decreases |events|
  {
    if events == [] {
      i := j;
    } else {
      var u := Step(config, s, events[0]);
      RunAdvances(config, s, events);
      StepAdvances(config, s, events[0]);
      RunAdvances(config, u, events[1..]);
      StepSettles(config, s, events[0]);
      var k := MovesAreUsedUp(config, u, events[1..], job, j);
      i := MoveIsUsedUp(s, u, Moved(s, events[0]), k);
    }
  }

  /** Four moves of the worker for each control, two for an early volume read, one for what it is doing. */
  function MostMoves(ahead: nat, active: bool): nat {
    4 * ahead + if active then 5 else 7
  }

  /** Before closing begins the worker does not stop. */
  lemma {:induction false} RunIsNotStopped(config: Config, s: State, events: seq<Event>)
    requires Inv(config, s) && !s.worker.Stopped? && !Run(config, s, events).closing
    ensures !Run(config, s, events).worker.Stopped?
    decreases |events|
  {
    if events != [] {
      var u := Step(config, s, events[0]);
      RunAdvances(config, s, events);
      StepAdvances(config, s, events[0]);
      RunAdvances(config, u, events[1..]);
      StepSettles(config, s, events[0]);
      RunIsNotStopped(config, u, events[1..]);
    }
  }

  lemma OutstandingIsSorted(config: Config, s: State, i: nat, j: nat)
    requires Inv(config, s) && i < |s.Outstanding()| && j < |s.Outstanding()|
    requires s.Outstanding()[i].job == s.Outstanding()[j].job
    ensures i == j
  {
    if s.worker.HasJob() {
      assert forall k :: 1 <= k < |s.Outstanding()| ==> s.Outstanding()[k] == s.controls[k - 1];
    }
  }

  lemma OutstandingIsAccepted(config: Config, s: State, i: nat)
    requires Inv(config, s) && i < |s.Outstanding()|
    ensures s.Outstanding()[i].job < s.nextJob && MovesLeft(s, i) <= MostMoves(i, s.worker.HasJob())
    ensures MovesLeft(s, i) > 0
  {
    assert i >= |s.worker.Active()| ==> s.Outstanding()[i] == s.controls[i - |s.worker.Active()|];
  }

  /** Nobody waits any more for a control that is not outstanding, unless the worker stopped. */
  lemma SettledIsAnswered(s: State, job: nat)
    requires WaitersKept(s) && !s.worker.Stopped? && !IsOutstanding(s, job)
    ensures Answered(s, job)
  {
    assert s.worker.HasJob() ==> s.Outstanding()[0] == s.worker.job;
    assert forall i :: 0 <= i < |s.controls| ==> s.Outstanding()[i + |s.worker.Active()|] == s.controls[i];
  }

  /** Every caller that waited for the control has an outcome. */
  predicate Answered(s: State, job: nat) {
    forall w :: 0 <= w < |s.futures| && s.futures[w].owner == Some(job) ==> !s.futures[w].outcome.Pending?
  }

  lemma EnoughMovesSettle(config: Config, s: State, after: seq<Event>, ahead: nat)
    requires Inv(config, s) && ahead < |s.Outstanding()| && !Run(config, s, after).closing
    requires MoveCount(config, s, after) >= MostMoves(ahead, s.worker.HasJob())
    ensures !IsOutstanding(Run(config, s, after), s.Outstanding()[ahead].job)
  {
    var t, job := Run(config, s, after), s.Outstanding()[ahead].job;
    if IsOutstanding(t, job) {
      var j :| 0 <= j < |t.Outstanding()| && t.Outstanding()[j].job == job;
      RunAdvances(config, s, after);
      OutstandingIsAccepted(config, t, j);
      OutstandingIsAccepted(config, s, ahead);
      var i := MovesAreUsedUp(config, s, after, job, j);
      OutstandingIsSorted(config, s, i, ahead);
      assert false;
    }
  }

  /**
   * Every accepted control is settled in time: once the worker has moved MostMoves times, with
   * whatever else in between, the control is not outstanding and everybody who waited has an outcome.
   */
  lemma ControlsAreSettled(config: Config, start: int, before: seq<Event>, after: seq<Event>, ahead: nat)
    requires var s := Run(config, Initial(start), before);
             && ahead < |s.Outstanding()| && !Run(config, s, after).closing
             && MoveCount(config, s, after) >= MostMoves(ahead, s.worker.HasJob())
    ensures var s := Run(config, Initial(start), before);
            var t, job := Run(config, s, after), s.Outstanding()[ahead].job;
            !IsOutstanding(t, job) && Answered(t, job)
  {
    ReachableIsKept(config, start, before);
    var s := Run(config, Initial(start), before);
    EnoughMovesSettle(config, s, after, ahead);
    RunConcat(config, Initial(start), before, after);
    ReachableIsKept(config, start, before + after);
    Reachable(config, start, []);
    RunIsNotStopped(config, Initial(start), before + after);
    SettledIsAnswered(Run(config, s, after), s.Outstanding()[ahead].job);
  }

  /** With a control outstanding a running worker can move, now or once its pause is over. */
  lemma WorkerCanMove(config: Config, start: int, events: seq<Event>)
    requires var s := Run(config, Initial(start), events);
             s.Outstanding() != [] && !s.closing && !s.worker.NotStarted? && !s.worker.Crashed?
    ensures var s := Run(config, Initial(start), events);
            exists elapsed: nat, event: Event :: Moves(Step(config, s, Tick(elapsed)), event)
  {
    Reachable(config, start, events);
    Reachable(config, start, []);
    RunIsNotStopped(config, Initial(start), events);
    NextMove(config, Run(config, Initial(start), events));
  }

  lemma NextMove(config: Config, s: State)
    requires Inv(config, s) && s.Outstanding() != []
    requires !s.worker.NotStarted? && !s.worker.Crashed? && !s.worker.Stopped?
    ensures exists elapsed: nat, event: Event :: Moves(Step(config, s, Tick(elapsed)), event)
  {
    var timedOut := LsxError(ConnectTimeout, false);
    var event :=
      if s.worker.Idle? then WorkerWakes
      else if s.worker.ReadingSource? then SourceReplies(Failure(timedOut))
      else if s.worker.ReadingVolume? || s.worker.Resolving? then VolumeReplies(Failure(timedOut))
      else if s.worker.Writing? then WriteReplies(None)
      else if s.worker.Sleeping? then RetryPauseEnds
      else WorkerTurn(0);
    var elapsed := if s.worker.Sleeping? then Max(0, s.worker.until - s.now) else 0;
    assert Moves(Step(config, s, Tick(elapsed)), event);
  }
}
