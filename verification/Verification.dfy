/** Verification of source-changing commands: when it is planned, that it takes place, and what it can confirm. */
module Verification {
  import opened Wrappers
  import opened Protocol
  import opened Client
  import opened Device
  import opened Scheduler
  import opened StepCases
  import opened Invariant
  import opened Guarantees
  import opened Waiters
  import opened World
  import opened Admission
  import opened Endings
  import opened Reports
  import opened Choices

  // ------------------------------------------------------------- what is expected

  function StatusOf(device: DeviceState): SourceStatus {
    SourceStatus(device.source, device.standby, device.inverse, device.power)
  }

  /** The attempt's end plans a verification. */
  predicate StartsPlan(s: State, event: Event) {
    event.WriteReplies? && s.worker.Writing? && ToBeVerified(ConclusionOf(s, event))
  }

  lemma PlanIsStarted(config: Config, s: State, event: Event)
    requires Inv(config, s) && StartsPlan(s, event)
    ensures Plans(config, s, s.worker.job, Step(config, s, event).plan)
  {
    StepEnds(config, s, event);
  }

  /**
   * The plan expects the power that the request leads to, and its source too, except that a
   * turn-off expects the cached source: an answer confirms it exactly when that is the same.
   */
  predicate ExpectsObeyed(s: State, plan: Plan, after: DeviceState) {
    && plan.expected.Some? && plan.expected.value.powerOn == Some(after.power)
    && (s.worker.HasJob() && s.worker.job.kind != TurnOff ==> plan.expected.value.source == Some(after.source))
    && (Confirms(plan, StatusOf(after)) <==>
          (s.worker.HasJob() && s.worker.job.kind != TurnOff) || s.snapshot.speaker.source == Some(after.source))
  }

  lemma PlanExpectsObeyed(config: Config, s: State, plan: Plan, device: DeviceState)
    requires Inv(config, s) && s.worker.Writing? && SwitchesSource(s.worker.job)
    requires Plans(config, s, s.worker.job, plan)
    ensures ExpectsObeyed(s, plan, ObeyRequest(device, s.worker.request))
  {
    RequestObeyed(config, s, device);
  }

  /**
   * Once the speaker obeyed, its answer confirms a command that switched the source, except
   * exactly a turn-off whose request names another source than the cached one.
   */
  lemma ObeyedIsConfirmedExactly(config: Config, start: int, before: seq<Event>, event: Event, device: DeviceState)
    requires StartsPlan(Run(config, Initial(start), before), event)
    ensures var s := Run(config, Initial(start), before);
            ExpectsObeyed(s, Step(config, s, event).plan, ObeyRequest(device, s.worker.request))
  {
    Reachable(config, start, before);
    var s := Run(config, Initial(start), before);
    PlanIsStarted(config, s, event);
    PlanExpectsObeyed(config, s, Step(config, s, event).plan, device);
  }

  // ------------------------------------------------------------ the read takes place

  /** A free worker reads for verification exactly when no control is queued and the plan is due. */
  lemma DueReadStartsExactly(config: Config, s: State, elapsed: nat)
    requires s.worker == Ready && !s.closing && s.controls == []
    ensures (Run(config, s, [Tick(elapsed)] + [WorkerTurn(0)]).worker == ReadingSource(Verification))
       <==> (s.plan.due.Some? && s.now + elapsed >= s.plan.due.value)
  {
    var t := s.(now := s.now + elapsed);
    RunOne(config, s, Tick(elapsed), [WorkerTurn(0)]);
    RunOneMore(config, t, WorkerTurn(0));
    FreeTurns(config, t, 0);
  }

  lemma EndedWriteFrees(config: Config, s: State, event: Event)
    requires StartsPlan(s, event)
    ensures var t := Step(config, s, event);
            (t.worker, t.closing, t.controls, t.now) == (Ready, s.closing, s.controls, s.now)
  {
    match event.failure
    case None => StepAcknowledges(config, s);
    case Some(error) =>
      StepFailsWrite(config, s, error);
      FailedWriteFrees(config, s, error);
  }

  lemma FailedWriteFrees(config: Config, s: State, error: LsxError)
    requires s.worker.Writing? && s.worker.attempt > 0 && !error.fault.CommandRejected?
    ensures var t := WriteFailed(config, s, error);
            (t.worker, t.closing, t.controls, t.now) == (Ready, s.closing, s.controls, s.now)
  {
    var u := s.Log(Ended(WriteOf(s.worker), error.writeAttempted));
    WriteFailedEither(config, s, error);
    LastFailureFrees(config, u, s.worker.job, s.worker.wrote || error.writeAttempted, error);
  }

  lemma LastFailureFrees(config: Config, s: State, job: Control, wrote: bool, error: LsxError)
    ensures var t := FinishAttempts(config, s, job, wrote, Some(error));
            (t.worker, t.closing, t.controls, t.now) == (Ready, s.closing, s.controls, s.now)
  {
  }

  /** After a command that may have switched the source, its verification starts when the first delay is over. */
  lemma VerificationStartsExactly(config: Config, start: int, before: seq<Event>, event: Event, elapsed: nat)
    requires var s := Run(config, Initial(start), before);
             StartsPlan(s, event) && !s.closing && s.controls == []
    ensures var s := Run(config, Initial(start), before);
            (Run(config, s, [event] + ([Tick(elapsed)] + [WorkerTurn(0)])).worker == ReadingSource(Verification))
              <==> (elapsed >= config.timing.verificationDelays[0])
  {
    Reachable(config, start, before);
    var s := Run(config, Initial(start), before);
    PlanIsStarted(config, s, event);
    EndedWriteFrees(config, s, event);
    DueReadStartsExactly(config, Step(config, s, event), elapsed);
    RunOne(config, s, event, [Tick(elapsed)] + [WorkerTurn(0)]);
  }

  /** A sleeping worker wakes up for a due plan and reads. */
  lemma SleeperVerifies(config: Config, start: int, before: seq<Event>, elapsed: nat)
    requires var s := Run(config, Initial(start), before);
             && s.worker.Idle? && !s.closing && s.controls == []
             && s.plan.due.Some? && s.now + elapsed >= s.plan.due.value
    ensures var s := Run(config, Initial(start), before);
            Run(config, s, [Tick(elapsed)] + ([WorkerWakes] + [WorkerTurn(0)])).worker == ReadingSource(Verification)
  {
    Reachable(config, start, before);
    var s := Run(config, Initial(start), before);
    var t := s.(now := s.now + elapsed);
    RunOne(config, s, Tick(elapsed), [WorkerWakes] + [WorkerTurn(0)]);
    RunOne(config, t, WorkerWakes, [WorkerTurn(0)]);
    RunOneMore(config, t.(worker := Ready), WorkerTurn(0));
    FreeTurns(config, t.(worker := Ready), 0);
  }

  // ------------------------------------------------------------- a superseded read

  /** A read is planned that belongs to no command. */
  predicate Ownerless(plan: Plan) { plan.due.Some? && plan.kind.None? }

  /** A verification read fails whose plan was superseded while it was in flight. */
  predicate FailsSuperseded(s: State, event: Event) {
    s.worker == ReadingSource(Verification) && s.plan.due.None? && event.SourceReplies? && event.source.Failure?
  }

  lemma FailedReadPlans(config: Config, s: State, error: LsxError)
    requires Inv(config, s) && s.worker.ReadingSource? && !Ownerless(s.plan)
    ensures Ownerless(SourceFailed(config, s, s.worker.reason, error).plan)
       <==> FailsSuperseded(s, SourceReplies(Failure(error)))
  {
  }

  lemma AnsweredReadOwns(config: Config, s: State, status: SourceStatus)
    requires Inv(config, s) && s.worker.ReadingSource? && !Ownerless(s.plan)
    ensures !Ownerless(SourceArrived(config, s, s.worker.reason, status).plan)
  {
  }

  lemma StepOwns(config: Config, s: State, event: Event)
    requires Inv(config, s) && !Ownerless(s.plan)
    ensures Ownerless(Step(config, s, event).plan) <==> FailsSuperseded(s, event)
  {
    match event
    case SourceReplies(Failure(error)) =>
      if s.worker.ReadingSource? {
        StepFailsSource(config, s, error);
        FailedReadPlans(config, s, error);
      }
    case SourceReplies(Success(status)) =>
      if s.worker.ReadingSource? {
        StepHearsSource(config, s, status);
        AnsweredReadOwns(config, s, status);
      }
    case SubmitCommand(command) => SubmissionIsExact(config, s, command);
    case CloseBegins => if !s.closing { ClosingIsExact(config, s); }
    case _ => StepEnds(config, s, event);
  }

  /**
   * A read that belongs to no command comes to be planned exactly when a superseded verification
   * read fails: the failure takes up the plan that the new command had dropped.
   */
  lemma OwnerlessPlanExactly(config: Config, start: int, before: seq<Event>, event: Event)
    requires !Ownerless(Run(config, Initial(start), before).plan)
    ensures var s := Run(config, Initial(start), before);
            Ownerless(Step(config, s, event).plan) <==> FailsSuperseded(s, event)
  {
    Reachable(config, start, before);
    StepOwns(config, Run(config, Initial(start), before), event);
  }

  /** The speaker's answer to such a read contradicts whatever it says, and degrades the channel. */
  lemma OwnerlessReadContradicts(config: Config, start: int, before: seq<Event>, status: SourceStatus)
    requires var s := Run(config, Initial(start), before);
             s.worker == ReadingSource(Verification) && Ownerless(s.plan)
    ensures var s := Run(config, Initial(start), before);
            var t := Step(config, s, SourceReplies(Success(status)));
            && t.snapshot.health.degraded && t.snapshot.health.lastError == Some(VerificationMismatch)
            && t.snapshot.lastCommand.Some? && s.snapshot.lastCommand.Some?
            && t.snapshot.lastCommand.value.job == s.snapshot.lastCommand.value.job
            && t.snapshot.lastCommand.value.verified
                 == if s.plan.attempt + 1 == |config.timing.verificationDelays| then Some(false) else None
  {
    Reachable(config, start, before);
    var s := Run(config, Initial(start), before);
    StepFollows(config, s, SourceReplies(Success(status)));
    StepHearsSource(config, s, status);
    OwnerlessReadMoves(config, s, status);
  }

  lemma OwnerlessReadMoves(config: Config, s: State, status: SourceStatus)
    requires Inv(config, s) && s.worker == ReadingSource(Verification) && Ownerless(s.plan)
    ensures var t := SourceArrived(config, s, Verification, status);
            && t.snapshot.lastCommand.Some? && s.snapshot.lastCommand.Some?
            && t.snapshot.lastCommand.value.job == s.snapshot.lastCommand.value.job
            && t.snapshot.lastCommand.value.verified
                 == if s.plan.attempt + 1 == |config.timing.verificationDelays| then Some(false) else None
  {
  }

  /** The last command is an acknowledged volume, and a read that belongs to no command is still planned. */
  predicate VolumeAwaitsNoOne(s: State) {
    && s.worker == Ready && s.controls == [] && !s.closing && Ownerless(s.plan)
    && s.snapshot.lastCommand.Some?
    && s.snapshot.lastCommand.value.command == SetVolume && s.snapshot.lastCommand.value.acknowledged
  }

  function Superseding(level: int, error: LsxError): seq<Event> {
    [SubmitCommand(CommandSetVolume(level))]
      + ([SourceReplies(Failure(error))] + ([WorkerTurn(0)] + [WriteReplies(None)]))
  }

  lemma SupersedingSubmits(config: Config, s: State, level: int)
    requires s.worker == ReadingSource(Verification) && !s.closing && s.controls == []
    ensures var t := Step(config, s, SubmitCommand(CommandSetVolume(level)));
            && (t.worker, t.closing, t.plan, t.now) == (s.worker, false, NO_PLAN, s.now)
            && |t.controls| == 1 && t.controls[0].kind == SetVolume
            && t.controls[0].deadline == s.now + config.timing.controlDeadline
            && |t.controls[0].waiters| == 1 && t.controls[0].waiters[0] < |t.futures|
            && t.futures[t.controls[0].waiters[0]] == Future(Some(t.controls[0].job), Pending)
  {
  }

  /** The volume is queued and wanted, and a read that belongs to no command is planned. */
  predicate VolumeIsNext(s: State, worker: Worker) {
    && s.worker == worker && !s.closing && |s.controls| == 1
    && s.controls[0].kind == SetVolume && s.now < s.controls[0].deadline
    && |s.controls[0].waiters| == 1 && s.controls[0].waiters[0] < |s.futures|
    && s.futures[s.controls[0].waiters[0]] == Future(Some(s.controls[0].job), Pending)
  }

  lemma SupersededFails(config: Config, s: State, error: LsxError)
    requires VolumeIsNext(s, ReadingSource(Verification)) && s.plan == NO_PLAN
    requires PollsSound(s.futures, s.pollWaiters, s.pollPending)
    ensures var t := SourceFailed(config, s, Verification, error);
            VolumeIsNext(t, Ready) && Ownerless(t.plan)
  {
    FailedReadTellsNobody(config, s, Verification, error);
    FailedReadLeavesPending(config, s, error, s.controls[0].waiters[0]);
  }

  lemma FailedReadLeavesPending(config: Config, s: State, error: LsxError, w: nat)
    requires w < |s.futures| && w !in s.pollWaiters
    ensures var t := SourceFailed(config, s, Verification, error);
            w < |t.futures| && t.futures[w] == s.futures[w]
  {
  }

  lemma VolumeIsWritten(config: Config, s: State)
    requires Inv(config, s) && VolumeIsNext(s, Ready) && Ownerless(s.plan)
    ensures var t := Step(config, s, WorkerTurn(0));
            && t.worker.Writing? && t.worker.job == s.controls[0] && t.worker.job.kind == SetVolume
            && t.controls == [] && !t.closing && Ownerless(t.plan)
  {
    var w := s.controls[0].waiters[0];
    assert w in s.controls[0].waiters && s.futures[w].outcome.Pending?;
    TurnChooses(config, s, 0);
    StepEnds(config, s, WorkerTurn(0));
    assert s.controls[1..] == [];
    TurnTakesControl(config, s, 0);
    assert !AllCancelled(s.futures, s.controls[0].waiters);
    StartControlAttempts(config, s.(controls := []), s.controls[0], 0);
    BeginAttemptEither(config, s.(controls := []).(now := s.now + 0), s.controls[0], 0, false, None);
  }

  lemma VolumeIsAcknowledged(config: Config, s: State)
    requires s.worker.Writing? && s.worker.job.kind == SetVolume && s.controls == [] && !s.closing && Ownerless(s.plan)
    ensures VolumeAwaitsNoOne(Step(config, s, WriteReplies(None)))
  {
    StepEnds(config, s, WriteReplies(None));
    StepAcknowledges(config, s);
  }

  /**
   * New commands do not always supersede a verification: when its read is in flight and then
   * fails, the acknowledged volume command that came in between is the one to be verified next.
   */
  lemma SupersededReadLingers(config: Config, start: int, before: seq<Event>, level: int, error: LsxError)
    requires var s := Run(config, Initial(start), before);
             s.worker == ReadingSource(Verification) && !s.closing && s.controls == []
    requires config.timing.controlDeadline > 0
    ensures VolumeAwaitsNoOne(Run(config, Run(config, Initial(start), before), Superseding(level, error)))
  {
    var s := Run(config, Initial(start), before);
    ReachableIsKept(config, start, before);
    var s1 := Step(config, s, SubmitCommand(CommandSetVolume(level)));
    SupersedingSubmits(config, s, level);
    StepKeeps(config, s, SubmitCommand(CommandSetVolume(level)));
    StepKeepsWaiters(config, s, SubmitCommand(CommandSetVolume(level)));
    var s2 := Step(config, s1, SourceReplies(Failure(error)));
    StepFailsSource(config, s1, error);
    SupersededFails(config, s1, error);
    StepKeeps(config, s1, SourceReplies(Failure(error)));
    var s3 := Step(config, s2, WorkerTurn(0));
    VolumeIsWritten(config, s2);
    VolumeIsAcknowledged(config, s3);
    SupersedingRuns(config, s, level, error);
  }

  lemma SupersedingRuns(config: Config, s: State, level: int, error: LsxError)
    ensures var s1 := Step(config, s, SubmitCommand(CommandSetVolume(level)));
            var s2 := Step(config, s1, SourceReplies(Failure(error)));
            Run(config, s, Superseding(level, error))
              == Step(config, Step(config, s2, WorkerTurn(0)), WriteReplies(None))
  {
    var s1 := Step(config, s, SubmitCommand(CommandSetVolume(level)));
    var s2 := Step(config, s1, SourceReplies(Failure(error)));
    var rest := [WorkerTurn(0)] + [WriteReplies(None)];
    RunOne(config, s, SubmitCommand(CommandSetVolume(level)), [SourceReplies(Failure(error))] + rest);
    RunOne(config, s1, SourceReplies(Failure(error)), rest);
    RunOne(config, s2, WorkerTurn(0), [WriteReplies(None)]);
    RunOneMore(config, Step(config, s2, WorkerTurn(0)), WriteReplies(None));
  }
}
