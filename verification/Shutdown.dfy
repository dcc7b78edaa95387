/** What shutdown does to the waiters, and which of them it leaves without an answer. */
module Shutdown {
  import opened Wrappers
  import opened Protocol
  import opened Client
  import opened Scheduler
  import opened StepCases
  import opened Invariant
  import opened Accounting
  import opened Waiters
  import opened Progress
  import opened Guarantees

  /** Once closing began nothing is accepted, no exchange starts and at most the one in flight ends. */
  lemma ShutdownIsQuiet(config: Config, start: int, before: seq<Event>, after: seq<Event>)
    requires Run(config, Initial(start), before).closing
    ensures var s := Run(config, Initial(start), before);
            var t := Run(config, s, after);
            && t.closing && t.nextJob == s.nextJob && |t.futures| == |s.futures|
            && TallyOf(t.history).begun == TallyOf(s.history).begun
            && TallyOf(t.history).ended - TallyOf(s.history).ended <= Flying(s.worker) <= 1
  {
    Reachable(config, start, before);
    RunAdvances(config, Run(config, Initial(start), before), after);
  }

  /**
   * Beginning to close completes every waiter but those of the active control: what stays
   * pending is exactly that control's pending waiters.
   */
  lemma ClosingSparesOnlyTheActiveControl(config: Config, start: int, before: seq<Event>, waiter: nat)
    requires var s := Run(config, Initial(start), before);
             !s.closing && !s.worker.Stopped? && waiter < |s.futures| && s.futures[waiter].outcome.Pending?
    ensures var s := Run(config, Initial(start), before);
            var t := Step(config, s, CloseBegins);
            && waiter < |t.futures|
            && (t.futures[waiter].outcome.Pending? <==> s.worker.HasJob() && waiter in s.worker.job.waiters)
            && (!t.futures[waiter].outcome.Pending? ==> t.futures[waiter].outcome.Cancelled?)
  {
    ReachableIsKept(config, start, before);
    var s := Run(config, Initial(start), before);
    ClosingSpares(config, s, waiter);
  }

  lemma ClosingSpares(config: Config, s: State, waiter: nat)
    requires Kept(config, s)
    requires !s.closing && !s.worker.Stopped? && waiter < |s.futures| && s.futures[waiter].outcome.Pending?
    ensures var t := BeginClose(s);
            && waiter < |t.futures|
            && (t.futures[waiter].outcome.Pending? <==> s.worker.HasJob() && waiter in s.worker.job.waiters)
            && (!t.futures[waiter].outcome.Pending? ==> t.futures[waiter].outcome.Cancelled?)
  {
    CloseKeepsWaiters(s);
    ClosingCancelsListed(s, waiter);
    if s.worker.HasJob() && waiter in s.worker.job.waiters {
      ActiveWaiterIsNotQueued(config, s, waiter);
    }
  }

  /** Beginning to close cancels exactly the pending waiters that are listed. */
  lemma ClosingCancelsListed(s: State, waiter: nat)
    requires !s.closing && waiter < |s.futures| && s.futures[waiter].outcome.Pending?
    ensures var t := BeginClose(s);
            && |t.futures| == |s.futures| && t.futures[waiter].owner == s.futures[waiter].owner
            && t.futures[waiter].outcome
                 == if waiter in WaitersOf(s.controls) || waiter in s.pollWaiters then Cancelled else Pending
  {
    CompleteLeavesOthers(s.futures, WaitersOf(s.controls), Cancelled, waiter);
    CompleteLeavesOthers(Complete(s.futures, WaitersOf(s.controls), Cancelled), s.pollWaiters, Cancelled, waiter);
  }

  lemma CompleteLeavesOthers(futures: seq<Future>, waiters: seq<nat>, outcome: Outcome, w: nat)
    requires w < |futures|
    ensures var t := Complete(futures, waiters, outcome);
            && |t| == |futures| && t[w].owner == futures[w].owner
            && t[w].outcome == (if w in waiters && futures[w].outcome.Pending? then outcome else futures[w].outcome)
  {
  }

  lemma {:induction false} ListedIsQueued(controls: seq<Control>, w: nat) returns (i: nat)
    requires w in WaitersOf(controls)
    ensures i < |controls| && w in controls[i].waiters
    decreases |controls|
  {
    if w in controls[0].waiters {
      i := 0;
    } else {
      i := ListedIsQueued(controls[1..], w);
      i := i + 1;
    }
  }

  lemma ActiveWaiterIsNotQueued(config: Config, s: State, waiter: nat)
    requires Inv(config, s) && WaitersKept(s) && s.worker.HasJob() && waiter in s.worker.job.waiters
    ensures waiter !in WaitersOf(s.controls) && waiter !in s.pollWaiters
  {
    if waiter in WaitersOf(s.controls) {
      var i := ListedIsQueued(s.controls, waiter);
    }
  }

  // -------------------------------------------------------- who is left waiting

  /** No forced stop: the worker is given the time to leave by itself. */
  predicate Unforced(events: seq<Event>) {
    forall i :: 0 <= i < |events| ==> !events[i].CloseForces?
  }

  /** The runtime is closed and the caller still waits. */
  predicate Stranded(s: State, waiter: nat) {
    s.closed && waiter < |s.futures| && s.futures[waiter].outcome.Pending?
  }

  /** A run that begins with closing and leaves the waiter stranded. */
  predicate Strands(config: Config, s: State, after: seq<Event>, waiter: nat) {
    Stranded(Run(config, BeginClose(s), after), waiter)
  }

  predicate NothingPending(futures: seq<Future>) {
    forall w :: 0 <= w < |futures| ==> !futures[w].outcome.Pending?
  }

  /** Closing with nothing queued and no control about to be put back. */
  predicate Draining(s: State) {
    && s.closing && s.controls == [] && !s.worker.Resolving?
    && (s.worker.Stopped? || s.closed ==> NothingPending(s.futures))
  }

  /** Where a draining worker can go: it takes nothing, and it stops only when it is with nothing. */
  predicate DrainsTo(s: State, t: State) {
    && t.closing && t.controls == [] && !t.worker.Resolving?
    && (t.worker.Stopped? ==> s.worker.Stopped? || s.worker.Ready?)
    && (t.closed ==> s.closed || s.worker.Stopped? || s.worker.NotStarted?)
  }

  lemma CallersDrain(config: Config, s: State, event: Event)
    requires s.closing && s.controls == [] && !s.worker.Resolving?
    requires event.Start? || event.SubmitCommand? || event.PollState? || event.Cancel? || event.Tick?
          || event.CloseBegins? || event.CloseEnds? || event.WorkerWakes?
    ensures DrainsTo(s, Step(config, s, event))
  {
  }

  lemma SourceRepliesDrain(config: Config, s: State, reason: Reason, status: SourceStatus, error: LsxError)
    requires s.closing && s.controls == [] && s.worker.ReadingSource?
    ensures DrainsTo(s, SourceArrived(config, s, reason, status))
    ensures DrainsTo(s, SourceFailed(config, s, reason, error))
  {
  }

  lemma VolumeRepliesDrain(config: Config, s: State, status: VolumeStatus, error: LsxError)
    requires s.closing && s.controls == [] && s.worker.ReadingVolume?
    ensures DrainsTo(s, MaintenanceArrived(config, s, status)) && DrainsTo(s, MaintenanceFailed(config, s, error))
  {
  }

  lemma FinishingDrains(config: Config, s: State, u: State, job: Control, wrote: bool, error: Option<LsxError>)
    requires u.closing && u.controls == [] && u.closed == s.closed
    ensures DrainsTo(s, FinishAttempts(config, u, job, wrote, error))
  {
  }

  lemma FailureDrains(config: Config, s: State, u: State, wrote: bool, error: LsxError)
    requires u.closing && u.controls == [] && u.closed == s.closed && u.worker.Writing?
    ensures DrainsTo(s, AfterFailure(config, u, wrote, error))
  {
    FinishingDrains(config, s, u, u.worker.job, wrote, Some(error));
    FinishingDrains(config, s, RecordSuccess(config, u, false), u.worker.job, wrote, Some(error));
  }

  lemma AcknowledgementDrains(config: Config, s: State)
    requires s.closing && s.controls == [] && s.worker.Writing?
    ensures DrainsTo(s, WriteAcknowledged(config, s))
  {
  }

  lemma FailedWriteDrains(config: Config, s: State, error: LsxError)
    requires s.closing && s.controls == [] && s.worker.Writing?
    ensures DrainsTo(s, WriteFailed(config, s, error))
  {
    WriteFailedIsAfterFailure(config, s, error);
    FailureDrains(
      config, s, s.Log(Ended(WriteOf(s.worker), error.writeAttempted)), s.worker.wrote || error.writeAttempted, error);
  }

  lemma RepliesDrain(config: Config, s: State, event: Event)
    requires s.closing && s.controls == [] && !s.worker.Resolving? && (event.SourceReplies? || event.VolumeReplies?)
    ensures DrainsTo(s, Step(config, s, event))
  {
    var ok, bad := VolumeStatus(0, false), LsxError(MalformedReply, false);
    match event
    case SourceReplies(Success(status)) =>
      if s.worker.ReadingSource? { SourceRepliesDrain(config, s, s.worker.reason, status, bad); }
    case SourceReplies(Failure(error)) =>
      if s.worker.ReadingSource? {
        SourceRepliesDrain(config, s, s.worker.reason, SourceStatus(Opt, None, false, false), error);
      }
    case VolumeReplies(Success(status)) =>
      if s.worker.ReadingVolume? { VolumeRepliesDrain(config, s, status, bad); }
    case VolumeReplies(Failure(error)) =>
      if s.worker.ReadingVolume? { VolumeRepliesDrain(config, s, ok, error); }
  }

  lemma WorkerDrains(config: Config, s: State, event: Event)
    requires s.closing && s.controls == [] && !s.worker.Resolving? && (event.WorkerTurn? || event.RetryPauseEnds?)
    ensures DrainsTo(s, Step(config, s, event))
  {
    match event
    case WorkerTurn(drift) => TurnTakesNone(config, s, drift);
    case RetryPauseEnds =>
      if s.worker.Sleeping? {
        BeginAttemptEither(config, s, s.worker.job, 1, s.worker.wrote, Some(s.worker.failure));
        FinishingDrains(config, s, s, s.worker.job, s.worker.wrote, Some(s.worker.failure));
      }
  }

  lemma StepDrains(config: Config, s: State, event: Event)
    requires s.closing && s.controls == [] && !s.worker.Resolving? && !event.CloseForces?
    ensures DrainsTo(s, Step(config, s, event))
  {
    match event
    case WriteReplies(None) => if s.worker.Writing? { AcknowledgementDrains(config, s); }
    case WriteReplies(Some(error)) => if s.worker.Writing? { FailedWriteDrains(config, s, error); }
    case WorkerTurn(_) => WorkerDrains(config, s, event);
    case RetryPauseEnds => WorkerDrains(config, s, event);
    case SourceReplies(_) => RepliesDrain(config, s, event);
    case VolumeReplies(_) => RepliesDrain(config, s, event);
    case _ => CallersDrain(config, s, event);
  }

  /** A worker that is with nothing, has nothing queued and is closing leaves nobody waiting. */
  lemma IdleLeavesNobody(config: Config, s: State)
    requires Kept(config, s) && s.closing && s.controls == [] && !s.worker.HasJob() && !s.worker.Stopped?
    ensures NothingPending(s.futures)
  {
  }

  lemma DrainingGoesOn(config: Config, s: State, event: Event)
    requires Kept(config, s) && Draining(s) && !event.CloseForces?
    ensures Draining(Step(config, s, event))
  {
    StepDrains(config, s, event);
    StepAdvances(config, s, event);
    if s.worker.Ready? || s.worker.NotStarted? {
      IdleLeavesNobody(config, s);
    }
  }

  lemma {:induction false} DrainingRun(config: Config, s: State, events: seq<Event>)
    requires Kept(config, s) && Draining(s) && Unforced(events)
    ensures Draining(Run(config, s, events))
    decreases |events|
  {
    if events != [] {
      var t := Step(config, s, events[0]);
      DrainingGoesOn(config, s, events[0]);
      assert t == Run(config, s, [events[0]]) by { RunOneMore(config, s, events[0]); }
      RunKeepsAll(config, s, [events[0]]);
      DrainingRun(config, t, events[1..]);
    }
  }

  lemma ClosingKeeps(config: Config, s: State)
    requires Kept(config, s)
    ensures Kept(config, BeginClose(s))
  {
    CloseKeeps(config, s);
    CallerKeepsBooks(config, s, CloseBegins);
    if !s.closing {
      CloseKeepsWaiters(s);
    }
  }

  lemma ClosingDrains(config: Config, s: State)
    requires Inv(config, s) && !s.closing && !s.worker.Stopped? && !s.worker.Resolving?
    ensures Draining(BeginClose(s))
  {
  }

  /** Whoever is left after closing waits for the control that was active when it began. */
  lemma SparedIsActive(config: Config, s: State, after: seq<Event>, waiter: nat)
    requires Kept(config, s) && !s.closing && !s.worker.Stopped?
    requires waiter < |s.futures| && s.futures[waiter].outcome.Pending?
    requires Stranded(Run(config, BeginClose(s), after), waiter)
    ensures s.worker.HasJob() && waiter in s.worker.job.waiters
  {
    ClosingKeeps(config, s);
    ClosingSpares(config, s, waiter);
    RunAdvances(config, BeginClose(s), after);
  }

  /** Only a waiter of the control whose volume is being read can be left, unless the stop is forced. */
  lemma OnlyTheReaderIsStranded(config: Config, s: State, after: seq<Event>, waiter: nat)
    requires Kept(config, s) && !s.closing && !s.worker.Stopped? && Unforced(after)
    requires waiter < |s.futures| && s.futures[waiter].outcome.Pending?
    requires Stranded(Run(config, BeginClose(s), after), waiter)
    ensures s.worker.Resolving? && waiter in s.worker.job.waiters
  {
    SparedIsActive(config, s, after, waiter);
    if !s.worker.Resolving? {
      ClosingKeeps(config, s);
      ClosingDrains(config, s);
      DrainingRun(config, BeginClose(s), after);
    }
  }

  /** The volume arrives, the control goes back into the queue, and the worker leaves. */
  const STRANDING: seq<Event> := [VolumeReplies(Success(VolumeStatus(20, false))), WorkerTurn(0), CloseEnds]

  lemma TheReaderIsStranded(config: Config, s: State, waiter: nat)
    requires Kept(config, s) && !s.closing && s.worker.Resolving? && waiter in s.worker.job.waiters
    requires waiter < |s.futures| && s.futures[waiter].outcome.Pending?
    ensures Stranded(Run(config, BeginClose(s), STRANDING), waiter)
  {
    ClosingSpares(config, s, waiter);
    StrandingRead(config, BeginClose(s), STRANDING);
  }

  /**
   * Who is never answered, seen when closing begins: without a forced stop some continuation
   * ends closed with a waiter pending if and only if the waiter's control is having its volume
   * read at that moment.
   */
  lemma ClosingStrandsExactly(config: Config, start: int, before: seq<Event>, waiter: nat)
    requires var s := Run(config, Initial(start), before);
             !s.closing && !s.worker.Stopped? && waiter < |s.futures| && s.futures[waiter].outcome.Pending?
    ensures var s := Run(config, Initial(start), before);
            (exists after: seq<Event> :: Unforced(after) && Strands(config, s, after, waiter))
              <==> (s.worker.Resolving? && waiter in s.worker.job.waiters)
  {
    ReachableIsKept(config, start, before);
    var s := Run(config, Initial(start), before);
    if s.worker.Resolving? && waiter in s.worker.job.waiters {
      TheReaderIsStranded(config, s, waiter);
      assert Unforced(STRANDING) && Strands(config, s, STRANDING, waiter);
    }
    forall after: seq<Event> | Unforced(after) && Strands(config, s, after, waiter)
      ensures s.worker.Resolving? && waiter in s.worker.job.waiters
    {
      OnlyTheReaderIsStranded(config, s, after, waiter);
    }
  }

  // ---------------------------------------------------------------- forced stops

  lemma CrashedStays(config: Config, s: State, event: Event)
    requires s.worker.Crashed?
    ensures Step(config, s, event).worker == s.worker && Step(config, s, event).closed == s.closed
  {
  }

  lemma {:induction false} CrashedNeverCloses(config: Config, s: State, events: seq<Event>)
    requires s.worker.Crashed? && !s.closed
    ensures !Run(config, s, events).closed
    decreases |events|
  {
    if events != [] {
      CrashedStays(config, s, events[0]);
      CrashedNeverCloses(config, Step(config, s, events[0]), events[1..]);
    }
  }

  lemma ForcedStopStrands(config: Config, s: State, waiter: nat)
    requires Kept(config, s) && !s.closing && s.worker.HasJob() && !s.worker.Crashed?
    requires waiter in s.worker.job.waiters && waiter < |s.futures| && s.futures[waiter].outcome.Pending?
    ensures Stranded(Run(config, BeginClose(s), [CloseForces, CloseEnds]), waiter)
  {
    ClosingSpares(config, s, waiter);
    ForcedRun(config, BeginClose(s));
  }

  lemma ForcedRun(config: Config, s: State)
    requires s.closing && s.worker.HasJob() && !s.worker.Crashed?
    ensures Run(config, s, [CloseForces, CloseEnds]) == s.(worker := Stopped, closed := true)
  {
    RunOne(config, s, CloseForces, [CloseEnds]);
    RunOneMore(config, ForceStop(s), CloseEnds);
    assert [CloseForces] + [CloseEnds] == [CloseForces, CloseEnds];
  }

  predicate ActiveAwaits(s: State, waiter: nat) {
    s.worker.HasJob() && !s.worker.Crashed? && waiter in s.worker.job.waiters
  }

  lemma OnlyTheActiveIsStranded(config: Config, s: State, after: seq<Event>, waiter: nat)
    requires Kept(config, s) && !s.closing && !s.worker.Stopped?
    requires waiter < |s.futures| && s.futures[waiter].outcome.Pending?
    requires Stranded(Run(config, BeginClose(s), after), waiter)
    ensures ActiveAwaits(s, waiter)
  {
    SparedIsActive(config, s, after, waiter);
    if s.worker.Crashed? {
      CrashedNeverCloses(config, BeginClose(s), after);
    }
  }

  lemma ForcedClosingStrandsExactlyFrom(config: Config, s: State, waiter: nat)
    requires Kept(config, s) && !s.closing && !s.worker.Stopped?
    requires waiter < |s.futures| && s.futures[waiter].outcome.Pending?
    ensures (exists after: seq<Event> :: Strands(config, s, after, waiter)) <==> ActiveAwaits(s, waiter)
  {
    if ActiveAwaits(s, waiter) {
      ForcedStopStrands(config, s, waiter);
      assert Strands(config, s, [CloseForces, CloseEnds], waiter);
    }
    forall after: seq<Event> | Strands(config, s, after, waiter)
      ensures ActiveAwaits(s, waiter)
    {
      OnlyTheActiveIsStranded(config, s, after, waiter);
    }
  }

  /**
   * When the stop may be forced: a waiter can be left pending by a close that ends if and only
   * if its control is the active one when closing begins, and did not crash the worker.
   */
  lemma ForcedClosingStrandsExactly(config: Config, start: int, before: seq<Event>, waiter: nat)
    requires var s := Run(config, Initial(start), before);
             !s.closing && !s.worker.Stopped? && waiter < |s.futures| && s.futures[waiter].outcome.Pending?
    ensures var s := Run(config, Initial(start), before);
            (exists after: seq<Event> :: Strands(config, s, after, waiter)) <==> ActiveAwaits(s, waiter)
  {
    ReachableIsKept(config, start, before);
    ForcedClosingStrandsExactlyFrom(config, Run(config, Initial(start), before), waiter);
  }

  lemma StrandingRead(config: Config, s: State, events: seq<Event>)
    requires s.closing && s.worker.Resolving?
    requires events == [VolumeReplies(Success(VolumeStatus(20, false))), WorkerTurn(0), CloseEnds]
    ensures var t := Run(config, s, events);
            t.closed && t.futures == s.futures
  {
    var t := ResolvingArrived(config, s, s.worker.job, VolumeStatus(20, false));
    RunOne(config, s, events[0], events[1..]);
    StoppedRun(config, t, events[1..]);
    assert events == [events[0]] + events[1..];
  }

  lemma StoppedRun(config: Config, s: State, events: seq<Event>)
    requires s.closing && s.worker == Ready && events == [WorkerTurn(0), CloseEnds]
    ensures Run(config, s, events) == s.(worker := Stopped, closed := true)
  {
    var s1 := s.(worker := Stopped);
    RunOne(config, s, events[0], [events[1]]);
    RunOne(config, s1, events[1], []);
    assert events == [events[0]] + [events[1]] && [events[1]] == [events[1]] + [];
  }
}
