/**
 * The runtime object itself: mutable fields, and one method per segment of code between two
 * suspension points. Every method is proved to take the scheduler's step on the whole state.
 */
module Runtime {
  import opened Wrappers
  import opened Protocol
  import opened Client
  import opened Scheduler
  import opened StepCases
  import opened Guarantees

  /** Cancelling, answering or failing twice is doing it once for both lists. */
  lemma CompleteTwice(futures: seq<Future>, a: seq<nat>, b: seq<nat>, outcome: Outcome)
    ensures Complete(Complete(futures, a, outcome), b, outcome) == Complete(futures, a + b, outcome)
  {
  }

  lemma CompleteNone(futures: seq<Future>, outcome: Outcome)
    ensures Complete(futures, [], outcome) == futures
  {
  }

  lemma {:induction false} WaitersOfAppend(controls: seq<Control>, job: Control)
    ensures WaitersOf(controls + [job]) == WaitersOf(controls) + job.waiters
  {
    if controls == [] {
      assert (controls + [job])[1..] == [];
    } else {
      assert (controls + [job])[1..] == controls[1..] + [job];
      WaitersOfAppend(controls[1..], job);
    }
  }

  class KefLsxRuntime {
    const config: Config
    var now: int
    var controls: seq<Control>
    var pollPending: bool
    var pollWaiters: seq<nat>
    var verificationAttempt: Attempt
    var verificationDue: Option<int>
    var verificationKind: Option<Kind>
    var verificationExpected: Option<SpeakerState>
    var maintenancePending: bool
    var startedMono: int
    var lastChannelMono: Option<int>
    var lastStateMono: Option<int>
    var lastVolumeMono: Option<int>
    var wake: bool
    var closing: bool
    var closed: bool
    var snapshot: Snapshot
    var worker: Worker
    var futures: seq<Future>
    var nextJob: nat
    ghost var history: History

    /** The whole state, as the scheduler's state machine sees it. */
    ghost function View(): State
      reads this
    {
      State(now, controls, pollPending, pollWaiters,
        Plan(verificationAttempt, verificationDue, verificationKind, verificationExpected),
        maintenancePending, startedMono, lastChannelMono, lastStateMono, lastVolumeMono, wake, closing, closed,
        snapshot, worker, futures, nextJob, history)
    }

    /** Options come as they are configured; maximum and step are forced into range. */
    constructor (preferredWakeSource: Option<Source>, maximumVolume: int, volumeStep: int, inverse: bool,
                 standby: Standby, timing: Timing, now: int)
      requires |timing.verificationDelays| >= 1 && timing.failureThreshold >= 1
      ensures config == Settings(preferredWakeSource, Max(1, Min(100, maximumVolume)), Max(1, volumeStep), inverse,
                                 standby, timing)
      ensures View() == Initial(now)
    {
      config := Settings(
        preferredWakeSource, Max(1, Min(100, maximumVolume)), Max(1, volumeStep), inverse, standby, timing);
      this.now := now;
      controls := [];
      pollPending := false;
      pollWaiters := [];
      verificationAttempt := -1;
      verificationDue := None;
      verificationKind := None;
      verificationExpected := None;
      maintenancePending := false;
      startedMono := 0;
      lastChannelMono := None;
      lastStateMono := None;
      lastVolumeMono := None;
      wake := false;
      closing := false;
      closed := false;
      snapshot := InitialSnapshot();
      worker := NotStarted;
      futures := [];
      nextJob := 0;
      history := Nothing;
    }

    method PassTime(elapsed: nat)
      modifies `now
      ensures View() == old(View()).(now := old(now) + elapsed)
    {
      now := now + elapsed;
    }

    ghost method Log(entry: Entry)
      modifies this`history
      ensures View() == old(View()).Log(entry)
    {
      history := Then(history, entry);
    }

    // --------------------------------------------------------------- futures

    /** Gives the outcome to every waiter that is not done. */
    method Finish(waiters: seq<nat>, outcome: Outcome)
      modifies this`futures
      ensures futures == Complete(old(futures), waiters, outcome)
    {
      CompleteNone(futures, outcome);
      var i := 0;
      while i < |waiters|
        invariant 0 <= i <= |waiters|
        invariant futures == Complete(old(futures), waiters[..i], outcome)
      {
        var waiter := waiters[i];
        ghost var before := futures;
        if waiter < |futures| && futures[waiter].outcome.Pending? {
          futures := futures[waiter := futures[waiter].(outcome := outcome)];
        }
        assert futures == Complete(before, [waiter], outcome);
        CompleteTwice(old(futures), waiters[..i], [waiter], outcome);
        assert waiters[..i + 1] == waiters[..i] + [waiter];
        i := i + 1;
      }
      assert waiters[..|waiters|] == waiters;
    }

    /** Hands the snapshot to every waiting poll. */
    method ResolvePolls()
      modifies this
      ensures View() == Scheduler.ResolvePolls(old(View()), true)
    {
      pollPending := false;
      var waiters := pollWaiters;
      pollWaiters := [];
      Finish(waiters, Resolved(snapshot));
    }

    // ---------------------------------------------------------------- health

    method ComputeHealth(health: Health, failed: bool) returns (computed: Health)
      ensures computed == Scheduler.ComputeHealth(config, View(), health, failed)
    {
      var stateAge := now - (if lastStateMono.Some? then lastStateMono.value else startedMono);
      var channelAge := now - (if lastChannelMono.Some? then lastChannelMono.value else startedMono);
      var stale := stateAge >= config.timing.staleAfter;
      var unavailable :=
        health.consecutiveFailures >= config.timing.failureThreshold && channelAge >= config.timing.unavailableAfter;
      computed := health.(
        available := !unavailable, stale := stale, degraded := failed || stale || health.consecutiveFailures > 0);
    }

    method MarkHeard(stateSuccess: bool)
      modifies `lastChannelMono, `lastStateMono
      ensures View() == old(View()).(
                lastChannelMono := Some(now), lastStateMono := if stateSuccess then Some(now) else old(lastStateMono))
    {
      lastChannelMono := Some(now);
      if stateSuccess {
        lastStateMono := Some(now);
      }
    }

    method RecordSuccess(stateSuccess: bool)
      modifies this
      ensures View() == Scheduler.RecordSuccess(config, old(View()), stateSuccess)
    {
      MarkHeard(stateSuccess);
      var health := snapshot.health.(available := true, consecutiveFailures := 0, lastError := None);
      health := ComputeHealth(health, false);
      snapshot := snapshot.(health := health);
      Log(Succeeded(now, stateSuccess));
    }

    method RecordPrimaryFailure(error: ErrorName)
      modifies this
      ensures View() == Scheduler.RecordPrimaryFailure(config, old(View()), error, true)
    {
      var health := snapshot.health.(
        consecutiveFailures := snapshot.health.consecutiveFailures + 1, lastError := Some(error));
      health := ComputeHealth(health, true);
      snapshot := snapshot.(health := health);
      Log(PrimaryFailed(now));
    }

    method RecordOptionalFailure(error: ErrorName)
      modifies this
      ensures View() == Scheduler.RecordOptionalFailure(config, old(View()), error)
    {
      var health := snapshot.health.(degraded := true, lastError := Some(error));
      health := ComputeHealth(health, true);
      snapshot := snapshot.(health := health);
      Log(OptionalFailed(now));
    }

    // ---------------------------------------------------------- verification

    method StartVerification(job: Control, expected: SpeakerState)
      modifies this
      ensures View() == old(View()).(plan := NewPlan(config, old(now), job.kind, expected))
    {
      verificationAttempt := 0;
      verificationKind := Some(job.kind);
      verificationExpected := Some(expected);
      verificationDue := Some(now + config.timing.verificationDelays[0]);
    }

    method ClearVerification()
      modifies `verificationAttempt, `verificationDue, `verificationKind, `verificationExpected
      ensures View() == old(View()).(plan := NO_PLAN)
    {
      verificationAttempt := -1;
      verificationDue := None;
      verificationKind := None;
      verificationExpected := None;
    }

    /** The last planned read is used up. */
    method GiveUpVerification()
      modifies `verificationDue, `verificationKind, `verificationExpected, `snapshot
      ensures var plan := Plan(old(verificationAttempt), None, None, None);
              View() == old(View()).(
                plan := plan,
                snapshot := old(snapshot).(lastCommand := GivenUp(plan, old(snapshot).lastCommand)))
    {
      verificationDue := None;
      if snapshot.lastCommand.Some? && snapshot.lastCommand.value.verified.None? {
        snapshot := snapshot.(lastCommand := Some(snapshot.lastCommand.value.(verified := Some(false))));
      }
      verificationKind := None;
      verificationExpected := None;
    }

    method ScheduleNextVerification()
      modifies this
      ensures View() == Scheduler.ScheduleNextVerification(config, old(View()), true)
    {
      verificationAttempt := verificationAttempt + 1;
      if verificationAttempt >= |config.timing.verificationDelays| {
        GiveUpVerification();
      } else {
        verificationDue := Some(now + config.timing.verificationDelays[verificationAttempt]);
      }
    }

    method CompareWithExpected() returns (matches: bool)
      ensures matches == PlanMatches(View().plan, snapshot.speaker)
    {
      if verificationKind.None? || verificationExpected.None? {
        return false;
      }
      var speaker, expected := snapshot.speaker, verificationExpected.value;
      if verificationKind.value.ChangesSource() {
        matches := speaker.powerOn == expected.powerOn && speaker.source == expected.source;
      } else {
        matches := speaker.volume == expected.volume && speaker.muted == expected.muted;
      }
    }

    method CompleteVerification()
      modifies this
      ensures View() == Scheduler.CompleteVerification(config, old(View()), true)
    {
      var matches := CompareWithExpected();
      if matches {
        if snapshot.lastCommand.Some? {
          snapshot := snapshot.(lastCommand := Some(snapshot.lastCommand.value.(verified := Some(true))));
        }
        ClearVerification();
      } else {
        snapshot := snapshot.(health := snapshot.health.(degraded := true, lastError := Some(VerificationMismatch)));
        Log(Contradicted(now));
        ScheduleNextVerification();
      }
    }

    // --------------------------------------------------------------- callers

    method AsyncStart()
      modifies this
      ensures View() == StartWorker(old(View()))
    {
      if !worker.NotStarted? {
        return;
      }
      startedMono := now;
      worker := Ready;
      var _ := AsyncPoll();
    }

    /** A poll joins the pending one; the caller waits on its own future. */
    method AsyncPoll() returns (waiter: Option<nat>)
      modifies this
      ensures View() == PollOnce(old(View()))
      ensures waiter == if old(closing) then None else Some(|old(futures)|)
    {
      if closing {
        return None;
      }
      waiter := Some(|futures|);
      pollWaiters := pollWaiters + [|futures|];
      futures := futures + [Future(None, Pending)];
      pollPending := true;
      wake := true;
    }

    /** The last queued control takes the new level and one more waiter. */
    method Merge(value: Value)
      requires controls != []
      modifies this
      ensures View() == MergeIntoLast(old(View()), value)
    {
      var job := controls[|controls| - 1];
      controls := controls[|controls| - 1 := job.(value := value, waiters := job.waiters + [|futures|])];
      futures := futures + [Future(Some(job.job), Pending)];
      wake := true;
      Log(Merged(job.job, Percent(value)));
    }

    /** A new control supersedes the verification plan. */
    method Append(kind: Kind, value: Value)
      modifies this
      ensures View() == Enqueue(config, old(View()), kind, value)
    {
      ClearVerification();
      var job := Control(nextJob, kind, value, now + config.timing.controlDeadline, [|futures|]);
      nextJob := nextJob + 1;
      controls := controls + [job];
      futures := futures + [Future(Some(job.job), Pending)];
      snapshot := snapshot.(lastCommand := Some(CommandResult(job.job, kind, false, false, false, None, None)));
      wake := true;
      Log(Accepted(job.job, kind, job.deadline));
    }

    method Submit(kind: Kind, value: Value) returns (verdict: Verdict)
      modifies this
      ensures verdict == Judge(old(View()), kind)
      ensures View() == Scheduler.Submit(config, old(View()), kind, value)
    {
      if closing {
        return RefusedClosed;
      }
      verdict := Admitted(|futures|);
      if kind.SetVolume? && controls != [] && controls[|controls| - 1].kind == kind {
        Merge(value);
      } else if |controls| >= QUEUE_CAPACITY {
        verdict := RefusedBusy;
      } else {
        Append(kind, value);
      }
    }

    /** The public operations: each submits one control, a volume after clamping it. */
    method Perform(command: Command) returns (verdict: Verdict)
      modifies this
      ensures verdict == Judge(old(View()), KindOf(command))
      ensures View() == Scheduler.Submit(config, old(View()), KindOf(command), ValueOf(config, command))
    {
      match command
      case CommandTurnOn => verdict := Submit(TurnOn, NoValue);
      case CommandTurnOff => verdict := Submit(TurnOff, NoValue);
      case CommandSelectSource(source) => verdict := Submit(SelectSource, SourceValue(source));
      case CommandSetVolume(percent) =>
        var target := Min(config.maximumVolume, Max(0, percent));
        verdict := Submit(SetVolume, VolumeValue(target));
      case CommandVolumeUp => verdict := Submit(VolumeUp, NoValue);
      case CommandVolumeDown => verdict := Submit(VolumeDown, NoValue);
      case CommandMute(muted) => verdict := Submit(if muted then Mute else Unmute, NoValue);
    }

    /** A caller awaiting a control is cancelled, and its future with it. */
    method CancelWaiter(waiter: nat)
      modifies this
      ensures View() == Scheduler.CancelWaiter(old(View()), waiter)
    {
      if waiter < |futures| && futures[waiter].owner.Some? && futures[waiter].outcome.Pending? {
        futures := futures[waiter := futures[waiter].(outcome := Cancelled)];
      }
    }

    // -------------------------------------------------------------- shutdown

    method CancelQueued()
      modifies this`futures
      ensures futures == Complete(old(futures), WaitersOf(controls), Cancelled)
    {
      CompleteNone(futures, Cancelled);
      var i := 0;
      while i < |controls|
        invariant 0 <= i <= |controls|
        invariant futures == Complete(old(futures), WaitersOf(controls[..i]), Cancelled)
      {
        Finish(controls[i].waiters, Cancelled);
        WaitersOfAppend(controls[..i], controls[i]);
        CompleteTwice(old(futures), WaitersOf(controls[..i]), controls[i].waiters, Cancelled);
        assert controls[..i + 1] == controls[..i] + [controls[i]];
        i := i + 1;
      }
      assert controls[..|controls|] == controls;
    }

    method CancelWaiting()
      modifies `futures
      ensures futures == Complete(Complete(old(futures), WaitersOf(controls), Cancelled), pollWaiters, Cancelled)
    {
      CancelQueued();
      Finish(pollWaiters, Cancelled);
    }

    method DropControls()
      modifies `controls, `wake
      ensures View() == old(View()).(controls := [], wake := true)
    {
      controls := [];
      wake := true;
    }

    method DropIntents()
      modifies `pollWaiters, `pollPending, `maintenancePending
      ensures View() == old(View()).(pollWaiters := [], pollPending := false, maintenancePending := false)
    {
      pollWaiters := [];
      pollPending := false;
      maintenancePending := false;
    }

    /** The part of closing that runs before the worker is awaited. */
    method BeginClose()
      modifies this
      ensures View() == Scheduler.BeginClose(old(View()))
    {
      if closing {
        return;
      }
      closing := true;
      CancelWaiting();
      DropControls();
      DropIntents();
      ClearVerification();
    }

    // ---------------------------------------------------------------- worker

    /** The worker is done with a control: its waiters share one outcome. */
    method Deliver(job: Control, outcome: Outcome, fate: Fate)
      modifies `futures, `worker, `history
      ensures View() == old(View()).(
                futures := Complete(old(futures), job.waiters, outcome), worker := Ready,
                history := Then(old(history), Settled(job.job, fate)))
    {
      Finish(job.waiters, outcome);
      worker := Ready;
      Log(Settled(job.job, fate));
    }

    method FinishControlError(job: Control, error: ErrorName, wrote: bool)
      modifies this
      ensures View() == Scheduler.FinishControlError(old(View()), job, error, wrote)
    {
      snapshot := snapshot.(
        lastCommand := Some(CommandResult(job.job, job.kind, true, wrote, false, None, Some(error))));
      Deliver(job, Raised(error), FailedWith(error, wrote));
    }

    /** What follows the retry loop when no attempt was acknowledged. */
    method FinishAttempts(job: Control, wrote: bool, error: Option<LsxError>)
      modifies this
      ensures View() == Scheduler.FinishAttempts(config, old(View()), job, wrote, error)
    {
      if error.Some? {
        var name := ClientError(error.value.fault);
        if !error.value.fault.CommandRejected? {
          RecordPrimaryFailure(name);
        }
        FinishControlError(job, name, wrote);
        if wrote && !error.value.fault.CommandRejected? && job.kind.ChangesSource() {
          StartVerification(job, ExpectedState(config, snapshot.speaker, job));
        }
        return;
      }
      RecordPrimaryFailure(DeadlineExpired);
      FinishControlError(job, DeadlineExpired, false);
    }

    /** Picks source and level now, encodes, and starts the exchange. */
    method ExecuteControl(job: Control, attempt: nat, wrote: bool)
      modifies this
      ensures View()
           == HandToClient(config, old(View()), Prepare(config, old(snapshot.speaker), job), attempt, wrote)
    {
      var speaker := snapshot.speaker;
      var ready := job;
      var request: Result<Bytes, CodecError>;
      if job.kind.TurnOn? || job.kind.TurnOff? {
        var source := SourceForPowerCommand(config, speaker);
        ready := job.(value := SourceValue(source));
        request := EncodeSetSource(source, config.standby, config.inverse, job.kind.TurnOn?);
      } else if job.kind.SelectSource? {
        request :=
          if job.value.SourceValue? then EncodeSetSource(job.value.source, config.standby, config.inverse, true)
          else Failure(ValueError);
      } else {
        var volume := if speaker.volume.Some? then speaker.volume.value else 0;
        var muted := speaker.muted == Some(true);
        match job.kind {
          case SetVolume => volume := Percent(job.value);
          case VolumeUp => volume := Min(config.maximumVolume, volume + config.volumeStep);
          case VolumeDown => volume := Max(0, volume - config.volumeStep);
          case Mute => muted := true;
          case Unmute => muted := false;
        }
        request := EncodeSetVolume(volume, muted);
      }
      match request {
        case Failure(_) => worker := Crashed(ready);
        case Success(bytes) =>
          worker := Writing(ready, attempt, wrote, bytes);
          Log(Began(Write(ready.job, attempt, bytes), now));
      }
    }

    /** One pass of the retry loop. */
    method BeginAttempt(job: Control, attempt: nat, wrote: bool, error: Option<LsxError>)
      modifies this
      ensures View() == Scheduler.BeginAttempt(config, old(View()), job, attempt, wrote, error)
    {
      if closing || now >= job.deadline {
        FinishAttempts(job, wrote, error);
      } else {
        ExecuteControl(job, attempt, wrote);
      }
    }

    /** Nobody waits for the control any more. */
    method Drop(job: Control)
      modifies `worker, `history
      ensures View() == DropControl(old(View()), job)
    {
      worker := Ready;
      Log(Settled(job.job, Dropped));
    }

    method StartResolving(job: Control)
      modifies `worker, `history
      ensures View() == ResolveVolume(old(View()), job)
    {
      worker := Resolving(job);
      Log(Began(ResolvingRead(job.job), now));
    }

    method StartAttempts(job: Control, drift: nat)
      modifies this
      ensures View()
           == Scheduler.BeginAttempt(config, old(View()).(now := old(now) + drift), job, 0, false, None)
    {
      PassTime(drift);
      BeginAttempt(job, 0, false, None);
    }

    /** Relative commands first resolve an unknown volume. */
    method ResolveOrAttempt(job: Control, drift: nat)
      modifies this
      ensures View()
           == if NeedsVolume(job, old(snapshot.speaker)) then ResolveVolume(old(View()), job)
              else Scheduler.BeginAttempt(config, old(View()).(now := old(now) + drift), job, 0, false, None)
    {
      if NeedsVolume(job, snapshot.speaker) {
        StartResolving(job);
      } else {
        StartAttempts(job, drift);
      }
    }

    method AsyncControl(job: Control, drift: nat)
      modifies this
      ensures View() == StartControl(config, old(View()), job, drift)
    {
      if AllCancelled(futures, job.waiters) {
        Drop(job);
      } else if now >= job.deadline {
        FinishControlError(job, DeadlineExpired, false);
      } else {
        ResolveOrAttempt(job, drift);
      }
    }

    method StartRead(reason: Reason)
      modifies this
      ensures View() == StartSourceRead(old(View()), reason)
    {
      worker := ReadingSource(reason);
      Log(Began(SourceRead(reason), now));
    }

    /** One pass of the worker's loop. */
    method AsyncWorkerTurn(drift: nat)
      modifies this
      ensures View() == Turn(config, old(View()), drift)
    {
      if closing {
        worker := Stopped;
        return;
      }
      if controls != [] {
        var job := controls[0];
        controls := controls[1..];
        AsyncControl(job, drift);
        return;
      }
      if verificationDue.Some? && now >= verificationDue.value {
        StartRead(Verification);
        return;
      }
      if pollPending {
        StartRead(Poll);
        return;
      }
      if maintenancePending {
        maintenancePending := false;
        if snapshot.speaker.powerOn == Some(true) {
          worker := ReadingVolume;
          Log(Began(MaintenanceRead, now));
        } else {
          worker := Ready;
        }
        return;
      }
      wake := false;
      worker := Idle(verificationDue);
    }

    /** A failed source read answers the polls that wait, whatever it was for. */
    method FailWaitingPolls(reason: Reason, error: ErrorName)
      modifies this
      ensures View() == FailPolls(config, old(View()), error, reason.Poll? || old(pollPending))
    {
      if reason == Poll || pollPending {
        RecordPrimaryFailure(error);
        ResolvePolls();
      }
    }

    method FailVerificationRead(reason: Reason, error: ErrorName)
      modifies this
      ensures View() == FailVerification(config, old(View()), error, reason.Verification?)
    {
      if reason == Verification {
        RecordOptionalFailure(error);
        ScheduleNextVerification();
      }
      worker := Ready;
    }

    method SourceReadFailed(reason: Reason, error: LsxError)
      modifies this
      ensures View() == SourceFailed(config, old(View()), reason, error)
    {
      Log(Ended(SourceRead(reason), error.writeAttempted));
      FailWaitingPolls(reason, ClientError(error.fault));
      FailVerificationRead(reason, ClientError(error.fault));
    }

    method ApplySource(status: SourceStatus)
      modifies this
      ensures View() == Scheduler.ApplySource(old(View()), status)
    {
      snapshot := snapshot.(
        speaker := snapshot.speaker.(powerOn := Some(status.powerOn), source := Some(status.source)));
    }

    method ApplyVolume(status: VolumeStatus)
      modifies this
      ensures View() == Scheduler.ApplyVolume(old(View()), status)
    {
      snapshot := snapshot.(
        speaker := snapshot.speaker.(volume := Some(status.volume), muted := Some(status.muted)));
    }

    /** A source read concludes a plan that is due. */
    method ConcludeVerification(reason: Reason)
      modifies this
      ensures View()
           == Scheduler.CompleteVerification(config, old(View()), VerificationConcluded(old(View()), reason))
    {
      if && verificationDue.Some? && now >= verificationDue.value
         && (reason == Verification || (verificationKind.Some? && verificationKind.value.ChangesSource()))
         && snapshot.lastCommand.Some? && snapshot.lastCommand.value.verified.None?
      {
        CompleteVerification();
      }
    }

    method AnswerPolls()
      modifies this
      ensures View() == Scheduler.ResolvePolls(old(View()), old(pollPending))
    {
      if pollPending {
        ResolvePolls();
      }
    }

    /** Whether to read the volume next: a speaker that is off is left alone. */
    method PlanMaintenance(status: SourceStatus)
      modifies this
      ensures var maintain := status.powerOn && MaintenanceDue(config, old(View()));
              View() == old(View()).(
                maintenancePending := maintain || (status.powerOn && old(maintenancePending)),
                wake := maintain || old(wake), worker := Ready)
    {
      if status.powerOn
         && (|| (lastVolumeMono.None? && snapshot.speaker.volume.None?)
             || (lastVolumeMono.Some? && now - lastVolumeMono.value >= config.timing.volumePollInterval))
      {
        maintenancePending := true;
        wake := true;
      } else if !status.powerOn {
        maintenancePending := false;
      }
      worker := Ready;
    }

    method SourceReadArrived(reason: Reason, status: SourceStatus)
      modifies this
      ensures View() == SourceArrived(config, old(View()), reason, status)
    {
      Log(Ended(SourceRead(reason), true));
      ApplySource(status);
      RecordSuccess(true);
      ConcludeVerification(reason);
      AnswerPolls();
      PlanMaintenance(status);
    }

    method VolumeRead(status: VolumeStatus)
      modifies this
      ensures View() == VolumeArrived(config, old(View()), status)
    {
      ApplyVolume(status);
      lastVolumeMono := Some(now);
      RecordSuccess(false);
    }

    method MaintenanceEnds(volume: Result<VolumeStatus, LsxError>)
      modifies this
      ensures View() == (match volume
                         case Success(status) => MaintenanceArrived(config, old(View()), status)
                         case Failure(error) => MaintenanceFailed(config, old(View()), error))
    {
      match volume
      case Success(status) =>
        Log(Ended(MaintenanceRead, true));
        VolumeRead(status);
        worker := Ready;
        Log(Maintained(now));
      case Failure(error) =>
        Log(Ended(MaintenanceRead, error.writeAttempted));
        RecordOptionalFailure(ClientError(error.fault));
        worker := Ready;
    }

    method ResolvingEnds(job: Control, volume: Result<VolumeStatus, LsxError>)
      modifies this
      ensures View() == (match volume
                         case Success(status) => ResolvingArrived(config, old(View()), job, status)
                         case Failure(error) => ResolvingFailed(config, old(View()), job, error))
    {
      match volume
      case Success(status) =>
        Log(Ended(ResolvingRead(job.job), true));
        VolumeRead(status);
        controls := [job] + controls;
        worker := Ready;
        Log(Requeued(job.job));
      case Failure(error) =>
        Log(Ended(ResolvingRead(job.job), error.writeAttempted));
        RecordPrimaryFailure(ClientError(error.fault));
        FinishControlError(job, ClientError(error.fault), error.writeAttempted);
    }

    method ApplyOptimistic(job: Control)
      modifies this
      ensures View() == Scheduler.ApplyOptimistic(config, old(View()), job)
    {
      snapshot := snapshot.(speaker := ExpectedState(config, snapshot.speaker, job));
      if job.kind.TurnOff? {
        maintenancePending := false;
      }
      if !job.kind.ChangesSource() {
        lastVolumeMono := Some(now);
      }
    }

    /** The result, the verification plan and the waiters of an acknowledged control. */
    method Settle(job: Control)
      modifies this
      ensures View() == SettleAcknowledged(config, old(View()), job)
    {
      snapshot := snapshot.(lastCommand := Some(CommandResult(job.job, job.kind, true, true, true, None, None)));
      if job.kind.ChangesSource() {
        StartVerification(job, snapshot.speaker);
      }
      Deliver(job, Resolved(snapshot), Acked(snapshot));
    }

    method Acknowledged(job: Control)
      modifies this
      ensures View() == FinishAcknowledged(config, old(View()), job)
    {
      ApplyOptimistic(job);
      RecordSuccess(false);
      Settle(job);
    }

    method WriteEndsInError(error: LsxError)
      requires worker.Writing?
      modifies this
      ensures View() == WriteFailed(config, old(View()), error)
    {
      var job, attempt, wrote := worker.job, worker.attempt, worker.wrote || error.writeAttempted;
      Log(Ended(WriteOf(worker), error.writeAttempted));
      if error.fault.CommandRejected? {
        RecordSuccess(false);
        FinishAttempts(job, wrote, Some(error));
      } else if attempt == 0 {
        worker := Sleeping(job, wrote, error, now + Min(config.timing.retryDelay, Max(0, job.deadline - now)));
      } else {
        FinishAttempts(job, wrote, Some(error));
      }
    }

    method WriteEnds()
      requires worker.Writing?
      modifies this
      ensures View() == WriteAcknowledged(config, old(View()))
    {
      var job := worker.job;
      Log(Ended(WriteOf(worker), true));
      Acknowledged(job);
    }

    // ----------------------------------------------------------------- steps

    method HearSource(status: SourceStatus)
      modifies this
      ensures View() == Step(config, old(View()), SourceReplies(Success(status)))
    {
      if worker.ReadingSource? {
        SourceReadArrived(worker.reason, status);
      }
    }

    method MissSource(error: LsxError)
      modifies this
      ensures View() == Step(config, old(View()), SourceReplies(Failure(error)))
    {
      if worker.ReadingSource? {
        SourceReadFailed(worker.reason, error);
      }
    }

    method AnswerSource(source: Result<SourceStatus, LsxError>)
      modifies this
      ensures View() == Step(config, old(View()), SourceReplies(source))
    {
      match source
      case Success(status) => HearSource(status);
      case Failure(error) => MissSource(error);
    }

    method AnswerVolume(volume: Result<VolumeStatus, LsxError>)
      modifies this
      ensures View() == Step(config, old(View()), VolumeReplies(volume))
    {
      if worker.ReadingVolume? {
        MaintenanceEnds(volume);
      } else if worker.Resolving? {
        ResolvingEnds(worker.job, volume);
      }
    }

    method HearAcknowledgement()
      modifies this
      ensures View() == Step(config, old(View()), WriteReplies(None))
    {
      if worker.Writing? {
        WriteEnds();
      }
    }

    method MissAcknowledgement(error: LsxError)
      modifies this
      ensures View() == Step(config, old(View()), WriteReplies(Some(error)))
    {
      if worker.Writing? {
        StepFailsWrite(config, View(), error);
        WriteEndsInError(error);
      }
    }

    method AnswerWrite(failure: Option<LsxError>)
      modifies this
      ensures View() == Step(config, old(View()), WriteReplies(failure))
    {
      match failure
      case None => HearAcknowledgement();
      case Some(error) => MissAcknowledgement(error);
    }

    /** Steps of the worker that no reply triggers. */
    method ResumeWorker(event: Event)
      requires event.WorkerTurn? || event.WorkerWakes? || event.RetryPauseEnds?
      modifies this
      ensures View() == Step(config, old(View()), event)
    {
      match event
      case WorkerTurn(drift) =>
        if worker.Ready? {
          AsyncWorkerTurn(drift);
        }
      case WorkerWakes =>
        if worker.Idle? && (wake || (worker.timer.Some? && now >= worker.timer.value)) {
          worker := Ready;
        }
      case RetryPauseEnds =>
        if worker.Sleeping? && now >= worker.until {
          BeginAttempt(worker.job, 1, worker.wrote, Some(worker.failure));
        }
    }

    /** Steps of the callers and of the clock. */
    method TakeCall(event: Event)
      requires event.Start? || event.SubmitCommand? || event.PollState? || event.Cancel? || event.Tick?
            || event.CloseBegins? || event.CloseForces? || event.CloseEnds?
      modifies this
      ensures View() == Step(config, old(View()), event)
    {
      match event
      case Start => AsyncStart();
      case SubmitCommand(command) => var _ := Perform(command);
      case PollState => var _ := AsyncPoll();
      case Cancel(waiter) => CancelWaiter(waiter);
      case Tick(elapsed) => PassTime(elapsed);
      case CloseBegins => BeginClose();
      case CloseForces =>
        if closing && !worker.NotStarted? && !worker.Crashed? {
          worker := Stopped;
        }
      case CloseEnds =>
        if closing && (worker.NotStarted? || worker.Stopped?) {
          closed := true;
        }
    }

    method Take(event: Event)
      modifies this
      ensures View() == Step(config, old(View()), event)
    {
      match event
      case SourceReplies(source) => AnswerSource(source);
      case VolumeReplies(volume) => AnswerVolume(volume);
      case WriteReplies(failure) => AnswerWrite(failure);
      case WorkerTurn(_) => ResumeWorker(event);
      case WorkerWakes => ResumeWorker(event);
      case RetryPauseEnds => ResumeWorker(event);
      case _ => TakeCall(event);
    }

    /** The object follows the state machine over any run, so every property of runs is its own. */
    method TakeAll(events: seq<Event>)
      modifies this
      ensures View() == Run(config, old(View()), events)
    {
      var i := 0;
      while i < |events|
        invariant 0 <= i <= |events|
        invariant View() == Run(config, old(View()), events[..i])
      {
        Take(events[i]);
        RunConcat(config, old(View()), events[..i], [events[i]]);
        RunOneMore(config, Run(config, old(View()), events[..i]), events[i]);
        assert events[..i + 1] == events[..i] + [events[i]];
        i := i + 1;
      }
      assert events[..|events|] == events;
    }
  }
}
