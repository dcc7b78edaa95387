/** What every run keeps about the futures handed to callers. */
module Waiters {
  import opened Wrappers
  import opened Protocol
  import opened Client
  import opened Scheduler
  import opened StepCases
  import opened Invariant
  import opened Accounting

  predicate Delivered(outcome: Outcome) { outcome.Resolved? || outcome.Raised? }

  /** What a control's waiters are given when it is settled. */
  function OutcomeOf(fate: Fate): Outcome {
    match fate
    case Acked(snapshot) => Resolved(snapshot)
    case FailedWith(error, _) => Raised(error)
    case Dropped => Cancelled
  }

  /** A control's waiter is given the control's fate, or nothing yet, or was cancelled. */
  predicate DeliveredByFate(futures: seq<Future>, history: History, nextJob: nat) {
    forall w :: 0 <= w < |futures| && futures[w].owner.Some? ==>
      && futures[w].owner.value < nextJob
      && (Delivered(futures[w].outcome) ==>
            var fate := AccountOf(history, futures[w].owner.value).fate;
            fate.Some? && futures[w].outcome == OutcomeOf(fate.value))
  }

  predicate InQueue(waiter: nat, job: nat, controls: seq<Control>) {
    exists i :: 0 <= i < |controls| && controls[i].job == job && waiter in controls[i].waiters
  }

  predicate InJob(waiter: nat, job: nat, held: Option<Control>) {
    held.Some? && held.value.job == job && waiter in held.value.waiters
  }

  /** Every pending waiter of a control is listed in it, and it is queued or held by the worker. */
  predicate PendingIsOutstanding(futures: seq<Future>, held: Option<Control>, controls: seq<Control>) {
    forall w :: 0 <= w < |futures| && futures[w].owner.Some? && futures[w].outcome.Pending? ==>
      InJob(w, futures[w].owner.value, held) || InQueue(w, futures[w].owner.value, controls)
  }

  predicate OwnsWaiters(futures: seq<Future>, job: Control) {
    forall w :: w in job.waiters ==> w < |futures| && futures[w].owner == Some(job.job)
  }

  predicate QueueOwnsWaiters(futures: seq<Future>, controls: seq<Control>) {
    forall i :: 0 <= i < |controls| ==> OwnsWaiters(futures, controls[i])
  }

  /** Every pending poll is in the list, and a non-empty list has a poll pending. */
  predicate PollsSound(futures: seq<Future>, pollWaiters: seq<nat>, pollPending: bool) {
    && (forall w :: w in pollWaiters ==> w < |futures| && futures[w].owner.None?)
    && (forall w :: 0 <= w < |futures| && futures[w].owner.None? && futures[w].outcome.Pending? ==> w in pollWaiters)
    && (pollWaiters != [] ==> pollPending)
  }

  function Held(worker: Worker): Option<Control> {
    if worker.HasJob() then Some(worker.job) else None
  }

  predicate WaitersKept(s: State) {
    && DeliveredByFate(s.futures, s.history, s.nextJob)
    && (s.worker.Stopped? || PendingIsOutstanding(s.futures, Held(s.worker), s.controls))
    && QueueOwnsWaiters(s.futures, s.controls)
    && (s.worker.HasJob() ==> OwnsWaiters(s.futures, s.worker.job))
    && PollsSound(s.futures, s.pollWaiters, s.pollPending)
    && (s.closing ==> s.pollWaiters == [])
  }

  // ------------------------------------------------------- small steps on futures

  /** Completing polls does not touch any control's future. */
  lemma PollsAnswered(futures: seq<Future>, waiters: seq<nat>, outcome: Outcome)
    requires forall w :: w in waiters ==> w < |futures| && futures[w].owner.None?
    requires !outcome.Pending?
    ensures var t := Complete(futures, waiters, outcome);
            && |t| == |futures|
            && (forall w :: 0 <= w < |t| && t[w].owner.Some? ==> t[w] == futures[w])
            && (forall w :: 0 <= w < |t| ==> t[w].owner == futures[w].owner)
            && (forall w :: 0 <= w < |t| && t[w].outcome.Pending? ==> futures[w].outcome.Pending? && w !in waiters)
  {
  }

  /** The same futures of controls, and no new pending poll outside the list. */
  predicate OnlyPollsAnswered(a: seq<Future>, b: seq<Future>) {
    && |a| == |b|
    && (forall w :: 0 <= w < |a| ==> b[w].owner == a[w].owner)
    && (forall w :: 0 <= w < |a| && a[w].owner.Some? ==> b[w] == a[w])
  }

  /** A step that logs nothing about a control and answers at most polls. */
  lemma SilentKeepsWaiters(s: State, t: State)
    requires WaitersKept(s) && !s.worker.HasJob() && !s.worker.Stopped?
    requires OnlyPollsAnswered(s.futures, t.futures) && SameAccounts(s.history, t.history, None)
    requires t.controls == s.controls && t.nextJob == s.nextJob && !t.worker.HasJob()
    requires PollsSound(t.futures, t.pollWaiters, t.pollPending)
    requires t.closing == s.closing && (t.pollWaiters == s.pollWaiters || t.pollWaiters == [])
    ensures WaitersKept(t)
  {
  }

  /** The worker settles the control it holds: its pending waiters all get its fate. */
  lemma SettlingKeepsWaiters(
    futures: seq<Future>, job: Control, controls: seq<Control>, fate: Fate, a: History, b: History, nextJob: nat)
    requires DeliveredByFate(futures, a, nextJob) && PendingIsOutstanding(futures, Some(job), controls)
    requires OwnsWaiters(futures, job) && QueueOwnsWaiters(futures, controls)
    requires SameAccounts(a, b, Some(job.job))
    requires AccountOf(a, job.job).fate.None? && AccountOf(b, job.job).fate == Some(fate)
    ensures var t := Complete(futures, job.waiters, OutcomeOf(fate));
            && DeliveredByFate(t, b, nextJob) && PendingIsOutstanding(t, None, controls)
            && QueueOwnsWaiters(t, controls)
            && |t| == |futures|
            && (forall w :: 0 <= w < |t| && t[w].owner.None? ==> t[w] == futures[w])
            && (forall w :: 0 <= w < |t| ==> t[w].owner == futures[w].owner)
  {
  }

  // ---------------------------------------------------------- callers and clock

  lemma MergingKeepsInQueue(before: seq<Control>, after: seq<Control>)
    requires |after| == |before|
    requires forall i :: 0 <= i < |before| ==>
               after[i].job == before[i].job && forall w :: w in before[i].waiters ==> w in after[i].waiters
    ensures forall w, j :: InQueue(w, j, before) ==> InQueue(w, j, after)
  {
  }

  lemma MergeKeepsWaiters(config: Config, s: State, value: Value)
    requires WaitersKept(s) && Inv(config, s) && s.controls != []
    ensures WaitersKept(MergeIntoLast(s, value))
  {
    ReadAccounts();
    var t, last := MergeIntoLast(s, value), |s.controls| - 1;
    assert SameAccounts(s.history, t.history, None);
    assert t.controls[last].job == s.controls[last].job && |s.futures| in t.controls[last].waiters;
    MergingKeepsInQueue(s.controls, t.controls);
  }

  lemma EnqueueKeepsWaiters(config: Config, s: State, kind: Kind, value: Value)
    requires WaitersKept(s) && Booked(config, s)
    ensures WaitersKept(Enqueue(config, s, kind, value))
  {
    ReadAccounts();
    var t := Enqueue(config, s, kind, value);
    assert SameAccounts(s.history, t.history, Some(s.nextJob));
    assert t.controls[|s.controls|].job == s.nextJob && |s.futures| in t.controls[|s.controls|].waiters;
    forall w, j | InQueue(w, j, s.controls)
      ensures InQueue(w, j, t.controls)
    {
      var i :| 0 <= i < |s.controls| && s.controls[i].job == j && w in s.controls[i].waiters;
      assert t.controls[i] == s.controls[i];
    }
  }

  lemma SubmitKeepsWaiters(config: Config, s: State, kind: Kind, value: Value)
    requires WaitersKept(s) && Booked(config, s) && Inv(config, s)
    ensures WaitersKept(Submit(config, s, kind, value))
  {
    if Judge(s, kind).Admitted? {
      if Merges(s, kind) {
        MergeKeepsWaiters(config, s, value);
      } else {
        EnqueueKeepsWaiters(config, s, kind, value);
      }
    }
  }

  lemma PollKeepsWaiters(s: State)
    requires WaitersKept(s)
    ensures WaitersKept(PollOnce(s))
  {
  }

  lemma {:induction false} QueuedWaitersAreListed(controls: seq<Control>, i: nat, w: nat)
    requires i < |controls| && w in controls[i].waiters
    ensures w in WaitersOf(controls)
    decreases i
  {
    if i > 0 {
      QueuedWaitersAreListed(controls[1..], i - 1, w);
    }
  }

  lemma {:induction false} ListedWaitersAreOwned(futures: seq<Future>, controls: seq<Control>)
    requires QueueOwnsWaiters(futures, controls)
    ensures forall w :: w in WaitersOf(controls) ==> w < |futures| && futures[w].owner.Some?
    decreases |controls|
  {
    if controls != [] {
      assert OwnsWaiters(futures, controls[0]);
      ListedWaitersAreOwned(futures, controls[1..]);
    }
  }

  /** Closing cancels whatever waits for a queued control or a poll; the active control's waiters stay. */
  lemma CloseKeepsWaiters(s: State)
    requires WaitersKept(s)
    ensures WaitersKept(BeginClose(s))
  {
    if !s.closing {
      var t := BeginClose(s);
      ListedWaitersAreOwned(s.futures, s.controls);
      forall w, j | InQueue(w, j, s.controls)
        ensures w in WaitersOf(s.controls)
      {
        var i :| 0 <= i < |s.controls| && s.controls[i].job == j && w in s.controls[i].waiters;
        QueuedWaitersAreListed(s.controls, i, w);
      }
    }
  }

  lemma StartKeepsWaiters(s: State)
    requires WaitersKept(s)
    ensures WaitersKept(StartWorker(s))
  {
    if s.worker.NotStarted? {
      var t := s.(startedMono := s.now, worker := Ready);
      assert WaitersKept(t);
      PollKeepsWaiters(t);
    }
  }

  lemma CancellingKeepsFutures(
    before: seq<Future>, after: seq<Future>, waiter: nat, history: History, nextJob: nat,
    held: Option<Control>, controls: seq<Control>, pollWaiters: seq<nat>, pollPending: bool)
    requires waiter < |before| && before[waiter].owner.Some?
    requires after == before[waiter := before[waiter].(outcome := Cancelled)]
    requires DeliveredByFate(before, history, nextJob) && QueueOwnsWaiters(before, controls)
    requires PollsSound(before, pollWaiters, pollPending)
    ensures DeliveredByFate(after, history, nextJob) && QueueOwnsWaiters(after, controls)
    ensures PollsSound(after, pollWaiters, pollPending)
    ensures PendingIsOutstanding(before, held, controls) ==> PendingIsOutstanding(after, held, controls)
    ensures held.Some? && OwnsWaiters(before, held.value) ==> OwnsWaiters(after, held.value)
  {
  }

  lemma CancelKeepsWaiters(s: State, waiter: nat)
    requires WaitersKept(s)
    ensures WaitersKept(CancelWaiter(s, waiter))
  {
    if waiter < |s.futures| && s.futures[waiter].owner.Some? {
      CancellingKeepsFutures(
        s.futures, s.futures[waiter := s.futures[waiter].(outcome := Cancelled)], waiter, s.history, s.nextJob,
        Held(s.worker), s.controls, s.pollWaiters, s.pollPending);
    }
  }

  lemma CallerKeepsWaiters(config: Config, s: State, event: Event)
    requires WaitersKept(s)
    requires event.Start? || event.PollState? || event.Cancel? || event.Tick? || event.CloseBegins?
          || event.CloseForces? || event.CloseEnds? || event.WorkerWakes?
    ensures WaitersKept(Step(config, s, event))
  {
    match event
    case Start => StartKeepsWaiters(s);
    case PollState => PollKeepsWaiters(s);
    case Cancel(waiter) => CancelKeepsWaiters(s, waiter);
    case CloseBegins => CloseKeepsWaiters(s);
    case _ =>
  }

  // -------------------------------------------------------------------- reads

  lemma SourceArrivedKeepsWaiters(config: Config, s: State, reason: Reason, status: SourceStatus)
    requires WaitersKept(s) && s.worker.ReadingSource?
    ensures WaitersKept(SourceArrived(config, s, reason, status))
    ensures SourceArrived(config, s, reason, status).pollWaiters == []
  {
    ReadAccounts();
    var t := SourceArrived(config, s, reason, status);
    PollsAnswered(s.futures, s.pollWaiters, Resolved(t.snapshot));
    SilentKeepsWaiters(s, t);
  }

  lemma SourceFailedKeepsWaiters(config: Config, s: State, reason: Reason, error: LsxError)
    requires WaitersKept(s) && s.worker.ReadingSource?
    ensures WaitersKept(SourceFailed(config, s, reason, error))
    ensures SourceFailed(config, s, reason, error).pollWaiters == []
  {
    ReadAccounts();
    var name := ClientError(error.fault);
    var logged := s.Log(Ended(SourceRead(reason), error.writeAttempted));
    var polled := RecordPrimaryFailure(config, logged, name, reason.Poll? || s.pollPending);
    PollsAnswered(s.futures, s.pollWaiters, Resolved(polled.snapshot));
    SilentKeepsWaiters(s, SourceFailed(config, s, reason, error));
  }

  lemma MaintenanceArrivedKeepsWaiters(config: Config, s: State, status: VolumeStatus)
    requires WaitersKept(s) && s.worker.ReadingVolume?
    ensures WaitersKept(MaintenanceArrived(config, s, status))
  {
    ReadAccounts();
    SilentKeepsWaiters(s, MaintenanceArrived(config, s, status));
  }

  lemma MaintenanceFailedKeepsWaiters(config: Config, s: State, error: LsxError)
    requires WaitersKept(s) && s.worker.ReadingVolume?
    ensures WaitersKept(MaintenanceFailed(config, s, error))
  {
    ReadAccounts();
    SilentKeepsWaiters(s, MaintenanceFailed(config, s, error));
  }

  // ----------------------------------------------------------------- controls

  /** The futures while the worker holds `job`. */
  predicate HoldsWaiters(s: State, job: Control) {
    && DeliveredByFate(s.futures, s.history, s.nextJob)
    && PendingIsOutstanding(s.futures, Some(job), s.controls)
    && QueueOwnsWaiters(s.futures, s.controls) && OwnsWaiters(s.futures, job)
    && PollsSound(s.futures, s.pollWaiters, s.pollPending) && (s.closing ==> s.pollWaiters == [])
    && AccountOf(s.history, job.job).fate.None?
  }

  /** A step in which the worker settles the control it holds. */
  lemma SettledKeepsWaiters(s: State, job: Control, fate: Fate, t: State)
    requires HoldsWaiters(s, job) && !t.worker.HasJob()
    requires t.futures == Complete(s.futures, job.waiters, OutcomeOf(fate))
    requires t.controls == s.controls && t.nextJob == s.nextJob && t.closing == s.closing
    requires t.pollWaiters == s.pollWaiters && t.pollPending == s.pollPending
    requires SameAccounts(s.history, t.history, Some(job.job)) && AccountOf(t.history, job.job).fate == Some(fate)
    ensures WaitersKept(t)
  {
    SettlingKeepsWaiters(s.futures, job, s.controls, fate, s.history, t.history, s.nextJob);
  }

  /** Dropping is allowed only when nothing is left to complete. */
  lemma DropKeepsWaiters(s: State, job: Control)
    requires HoldsWaiters(s, job) && AllCancelled(s.futures, job.waiters)
    ensures WaitersKept(DropControl(s, job))
  {
    ReadAccounts();
    assert Complete(s.futures, job.waiters, Cancelled) == s.futures;
    SettledKeepsWaiters(s, job, Dropped, DropControl(s, job));
  }

  lemma ErrorKeepsWaiters(s: State, job: Control, error: ErrorName, wrote: bool)
    requires HoldsWaiters(s, job)
    ensures WaitersKept(FinishControlError(s, job, error, wrote))
  {
    ReadAccounts();
    SettledKeepsWaiters(s, job, FailedWith(error, wrote), FinishControlError(s, job, error, wrote));
  }

  lemma FinishAttemptsKeepsWaiters(config: Config, s: State, job: Control, wrote: bool, error: Option<LsxError>)
    requires HoldsWaiters(s, job)
    ensures WaitersKept(FinishAttempts(config, s, job, wrote, error))
  {
    ReadAccounts();
    var name := if error.Some? then ClientError(error.value.fault) else DeadlineExpired;
    SettledKeepsWaiters(
      s, job, FailedWith(name, error.Some? && wrote), FinishAttempts(config, s, job, wrote, error));
  }

  lemma FinishAcknowledgedKeepsWaiters(config: Config, s: State, job: Control)
    requires HoldsWaiters(s, job)
    ensures WaitersKept(FinishAcknowledged(config, s, job))
  {
    ReadAccounts();
    var t := FinishAcknowledged(config, s, job);
    SettledKeepsWaiters(s, job, Acked(t.snapshot), t);
  }

  /** A step in which the worker keeps the control it holds. */
  lemma StayingKeepsWaiters(s: State, job: Control, t: State)
    requires HoldsWaiters(s, job)
    requires t.worker.HasJob() && t.worker.job.job == job.job && t.worker.job.waiters == job.waiters
    requires t.futures == s.futures && t.controls == s.controls && t.nextJob == s.nextJob && t.closing == s.closing
    requires t.pollWaiters == s.pollWaiters && t.pollPending == s.pollPending
    requires forall j :: AccountOf(t.history, j).fate == AccountOf(s.history, j).fate
    ensures WaitersKept(t)
  {
  }

  lemma BeginAttemptKeepsWaiters(
    config: Config, s: State, job: Control, attempt: nat, wrote: bool, error: Option<LsxError>)
    requires HoldsWaiters(s, job)
    ensures WaitersKept(BeginAttempt(config, s, job, attempt, wrote, error))
  {
    BeginAttemptEither(config, s, job, attempt, wrote, error);
    if GivesUp(s, job) {
      FinishAttemptsKeepsWaiters(config, s, job, wrote, error);
    } else {
      ReadAccounts();
      StayingKeepsWaiters(
        s, job, HandToClient(config, s, Prepare(config, s.snapshot.speaker, job), attempt, wrote));
    }
  }

  lemma ResolveKeepsWaiters(s: State, job: Control)
    requires HoldsWaiters(s, job)
    ensures WaitersKept(ResolveVolume(s, job))
  {
    ReadAccounts();
    StayingKeepsWaiters(s, job, ResolveVolume(s, job));
  }

  lemma StartControlKeepsWaiters(config: Config, s: State, job: Control, drift: nat)
    requires HoldsWaiters(s, job)
    ensures WaitersKept(StartControl(config, s, job, drift))
  {
    if StartsAttempt(s, job) {
      StartControlAttempts(config, s, job, drift);
      BeginAttemptKeepsWaiters(config, s.(now := s.now + drift), job, 0, false, None);
    } else if AllCancelled(s.futures, job.waiters) {
      DropKeepsWaiters(s, job);
    } else {
      StartControlDoesNotAttempt(config, s, job, drift);
      ErrorKeepsWaiters(s, job, DeadlineExpired, false);
      ResolveKeepsWaiters(s, job);
    }
  }

  lemma TakingKeepsWaiters(config: Config, s: State)
    requires WaitersKept(s) && Booked(config, s) && s.worker.Ready? && s.controls != []
    ensures HoldsWaiters(s.(controls := s.controls[1..]), s.controls[0])
  {
    var popped := s.(controls := s.controls[1..]);
    forall w, j | InQueue(w, j, s.controls)
      ensures InJob(w, j, Some(s.controls[0])) || InQueue(w, j, popped.controls)
    {
      var i :| 0 <= i < |s.controls| && s.controls[i].job == j && w in s.controls[i].waiters;
      if i > 0 {
        assert popped.controls[i - 1] == s.controls[i];
      }
    }
  }

  lemma TurnKeepsWaiters(config: Config, s: State, drift: nat)
    requires WaitersKept(s) && Booked(config, s) && s.worker.Ready?
    ensures WaitersKept(Turn(config, s, drift))
  {
    if s.closing || s.controls == [] {
      TurnTakesNone(config, s, drift);
      ReadAccounts();
      SilentKeepsWaiters(s, Turn(config, s, drift));
    } else {
      TurnTakesControl(config, s, drift);
      TakingKeepsWaiters(config, s);
      StartControlKeepsWaiters(config, s.(controls := s.controls[1..]), s.controls[0], drift);
    }
  }

  /** A control at the front of the queue keeps its waiters where they can be found. */
  lemma PendingMovesToFront(futures: seq<Future>, job: Control, controls: seq<Control>)
    requires PendingIsOutstanding(futures, Some(job), controls)
    requires OwnsWaiters(futures, job) && QueueOwnsWaiters(futures, controls)
    ensures PendingIsOutstanding(futures, None, [job] + controls) && QueueOwnsWaiters(futures, [job] + controls)
  {
    var front := [job] + controls;
    assert front[0] == job;
    forall w, j | InQueue(w, j, controls)
      ensures InQueue(w, j, front)
    {
      var i :| 0 <= i < |controls| && controls[i].job == j && w in controls[i].waiters;
      assert front[i + 1] == controls[i];
    }
  }

  lemma ResolvingArrivedKeepsWaiters(config: Config, s: State, status: VolumeStatus)
    requires WaitersKept(s) && Booked(config, s) && s.worker.Resolving?
    ensures WaitersKept(ResolvingArrived(config, s, s.worker.job, status))
  {
    ReadAccounts();
    var t := ResolvingArrived(config, s, s.worker.job, status);
    assert t.futures == s.futures;
    assert forall j :: AccountOf(t.history, j).fate == AccountOf(s.history, j).fate;
    PendingMovesToFront(s.futures, s.worker.job, s.controls);
  }

  lemma ResolvingFailedKeepsWaiters(config: Config, s: State, error: LsxError)
    requires WaitersKept(s) && Booked(config, s) && s.worker.Resolving?
    ensures WaitersKept(ResolvingFailed(config, s, s.worker.job, error))
  {
    ReadAccounts();
    SettledKeepsWaiters(
      s, s.worker.job, FailedWith(ClientError(error.fault), error.writeAttempted),
      ResolvingFailed(config, s, s.worker.job, error));
  }

  lemma WritingHoldsWaiters(config: Config, s: State, wrote: bool)
    requires WaitersKept(s) && Booked(config, s) && s.worker.Writing?
    ensures HoldsWaiters(s.Log(Ended(WriteOf(s.worker), wrote)), s.worker.job)
  {
    ReadAccounts();
  }

  lemma HearingHoldsWaiters(config: Config, s: State, job: Control)
    requires HoldsWaiters(s, job)
    ensures HoldsWaiters(RecordSuccess(config, s, false), job)
  {
    ReadAccounts();
  }

  lemma WriteRejectedKeepsWaiters(config: Config, s: State, job: Control, wrote: bool, error: LsxError)
    requires HoldsWaiters(s, job)
    ensures WaitersKept(WriteRejected(config, s, job, wrote, error))
  {
    HearingHoldsWaiters(config, s, job);
    FinishAttemptsKeepsWaiters(config, RecordSuccess(config, s, false), job, wrote, Some(error));
  }

  lemma WriteAcknowledgedKeepsWaiters(config: Config, s: State)
    requires WaitersKept(s) && Booked(config, s) && s.worker.Writing?
    ensures WaitersKept(WriteAcknowledged(config, s))
  {
    WritingHoldsWaiters(config, s, true);
    FinishAcknowledgedKeepsWaiters(config, s.Log(Ended(WriteOf(s.worker), true)), s.worker.job);
  }

  lemma AttemptFailedKeepsWaiters(config: Config, s: State, wrote: bool, error: LsxError)
    requires s.worker.Writing? && HoldsWaiters(s, s.worker.job)
    ensures WaitersKept(AttemptFailed(config, s, s.worker.job, s.worker.attempt, wrote, error))
  {
    if s.worker.attempt == 0 {
      StayingKeepsWaiters(s, s.worker.job, PauseBeforeRetry(config, s, s.worker.job, wrote, error));
    } else {
      FinishAttemptsKeepsWaiters(config, s, s.worker.job, wrote, Some(error));
    }
  }

  lemma WriteFailedKeepsWaiters(config: Config, s: State, error: LsxError)
    requires WaitersKept(s) && Booked(config, s) && s.worker.Writing?
    ensures WaitersKept(WriteFailed(config, s, error))
  {
    WritingHoldsWaiters(config, s, error.writeAttempted);
    WriteFailedEither(config, s, error);
    FailureKeepsWaiters(
      config, s.Log(Ended(WriteOf(s.worker), error.writeAttempted)), s.worker.wrote || error.writeAttempted, error);
  }

  lemma FailureKeepsWaiters(config: Config, s: State, wrote: bool, error: LsxError)
    requires s.worker.Writing? && HoldsWaiters(s, s.worker.job)
    ensures error.fault.CommandRejected? ==> WaitersKept(WriteRejected(config, s, s.worker.job, wrote, error))
    ensures !error.fault.CommandRejected? ==>
              WaitersKept(AttemptFailed(config, s, s.worker.job, s.worker.attempt, wrote, error))
  {
    if error.fault.CommandRejected? {
      WriteRejectedKeepsWaiters(config, s, s.worker.job, wrote, error);
    } else {
      AttemptFailedKeepsWaiters(config, s, wrote, error);
    }
  }

  // -------------------------------------------------------------------- steps

  lemma ReadStepKeepsWaiters(config: Config, s: State, event: Event)
    requires WaitersKept(s) && Booked(config, s) && (event.SourceReplies? || event.VolumeReplies?)
    ensures WaitersKept(Step(config, s, event))
  {
    match event
    case SourceReplies(Success(status)) =>
      if s.worker.ReadingSource? { SourceArrivedKeepsWaiters(config, s, s.worker.reason, status); }
    case SourceReplies(Failure(error)) =>
      if s.worker.ReadingSource? { SourceFailedKeepsWaiters(config, s, s.worker.reason, error); }
    case VolumeReplies(Success(status)) =>
      if s.worker.ReadingVolume? { MaintenanceArrivedKeepsWaiters(config, s, status); }
      else if s.worker.Resolving? { ResolvingArrivedKeepsWaiters(config, s, status); }
    case VolumeReplies(Failure(error)) =>
      if s.worker.ReadingVolume? { MaintenanceFailedKeepsWaiters(config, s, error); }
      else if s.worker.Resolving? { ResolvingFailedKeepsWaiters(config, s, error); }
  }

  lemma ControlStepKeepsWaiters(config: Config, s: State, event: Event)
    requires WaitersKept(s) && Booked(config, s)
    requires event.WorkerTurn? || event.WriteReplies? || event.RetryPauseEnds?
    ensures WaitersKept(Step(config, s, event))
  {
    match event
    case WorkerTurn(drift) =>
      if s.worker.Ready? { TurnKeepsWaiters(config, s, drift); }
    case WriteReplies(None) =>
      if s.worker.Writing? { WriteAcknowledgedKeepsWaiters(config, s); }
    case WriteReplies(Some(error)) =>
      if s.worker.Writing? { WriteFailedKeepsWaiters(config, s, error); }
    case RetryPauseEnds =>
      if s.worker.Sleeping? && s.now >= s.worker.until {
        BeginAttemptKeepsWaiters(config, s, s.worker.job, 1, s.worker.wrote, Some(s.worker.failure));
      }
  }

  lemma StepKeepsWaiters(config: Config, s: State, event: Event)
    requires WaitersKept(s) && Booked(config, s) && Inv(config, s)
    ensures WaitersKept(Step(config, s, event))
  {
    match event
    case SubmitCommand(command) => SubmitKeepsWaiters(config, s, KindOf(command), ValueOf(config, command));
    case SourceReplies(_) => ReadStepKeepsWaiters(config, s, event);
    case VolumeReplies(_) => ReadStepKeepsWaiters(config, s, event);
    case WorkerTurn(_) => ControlStepKeepsWaiters(config, s, event);
    case WriteReplies(_) => ControlStepKeepsWaiters(config, s, event);
    case RetryPauseEnds => ControlStepKeepsWaiters(config, s, event);
    case _ => CallerKeepsWaiters(config, s, event);
  }

  /** Everything the three parts of the invariant say together. */
  ghost predicate Kept(config: Config, s: State) {
    Inv(config, s) && Booked(config, s) && WaitersKept(s)
  }

  lemma {:induction false} RunKeepsAll(config: Config, s: State, events: seq<Event>)
    requires Kept(config, s)
    ensures Kept(config, Run(config, s, events))
    decreases |events|
  {
    if events != [] {
      StepKeeps(config, s, events[0]);
      StepKeepsBooks(config, s, events[0]);
      StepKeepsWaiters(config, s, events[0]);
      RunKeepsAll(config, Step(config, s, events[0]), events[1..]);
    }
  }

  lemma ReachableIsKept(config: Config, start: int, events: seq<Event>)
    ensures Kept(config, Run(config, Initial(start), events))
  {
    RunKeepsAll(config, Initial(start), events);
  }
}
