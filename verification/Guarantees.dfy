/** What callers and the speaker can rely on, over every run. */
module Guarantees {
  import opened Wrappers
  import opened Protocol
  import opened Client
  import opened Scheduler
  import opened Invariant
  import opened Waiters
  import opened Progress

  // ------------------------------------------------------------ runs in general

  lemma {:induction false} RunAdvances(config: Config, s: State, events: seq<Event>)
    requires Inv(config, s)
    ensures var t := Run(config, s, events);
            && Inv(config, t) && s.now <= t.now && s.nextJob <= t.nextJob
            && FuturesGrow(s.futures, t.futures) && ClosingHolds(s, t)
            && (s.snapshot.speaker.volume.Some? ==> t.snapshot.speaker.volume.Some?)
    decreases |events|
  {
    if events != [] {
      var u := Step(config, s, events[0]);
      StepAdvances(config, s, events[0]);
      RunAdvances(config, u, events[1..]);
    }
  }

  lemma {:induction false} RunConcat(config: Config, s: State, a: seq<Event>, b: seq<Event>)
    ensures Run(config, s, a + b) == Run(config, Run(config, s, a), b)
    decreases |a|
  {
    if a == [] {
      assert a + b == b;
    } else {
      assert (a + b)[0] == a[0] && (a + b)[1..] == a[1..] + b;
      RunConcat(config, Step(config, s, a[0]), a[1..], b);
    }
  }

  lemma RunOne(config: Config, s: State, event: Event, rest: seq<Event>)
    ensures Run(config, s, [event] + rest) == Run(config, Step(config, s, event), rest)
  {
    assert ([event] + rest)[1..] == rest;
  }

  lemma RunOneMore(config: Config, s: State, event: Event)
    ensures Run(config, s, [event]) == Step(config, s, event)
  {
    assert [event][1..] == [];
  }

  // -------------------------------------------------------------------- queue

  /** Outstanding controls are in acceptance order and never more than the capacity and one. */
  lemma OutstandingWorkIsBounded(config: Config, start: int, events: seq<Event>)
    ensures var s := Run(config, Initial(start), events);
            && |s.Outstanding()| <= QUEUE_CAPACITY + 1
            && (forall i, j :: 0 <= i < j < |s.Outstanding()| ==> s.Outstanding()[i].job < s.Outstanding()[j].job)
  {
    Reachable(config, start, events);
    var s := Run(config, Initial(start), events);
    if s.worker.HasJob() {
      assert forall i :: 1 <= i < |s.Outstanding()| ==> s.Outstanding()[i] == s.controls[i - 1];
    }
  }

  /** Volume and mute are known together, stay known, and are read for a relative command at most once. */
  lemma VolumeBecomesKnownOnce(config: Config, start: int, before: seq<Event>, after: seq<Event>)
    ensures var s := Run(config, Initial(start), before);
            var t := Run(config, s, after);
            && (s.snapshot.speaker.volume.Some? <==> s.snapshot.speaker.muted.Some?)
            && (s.snapshot.speaker.volume.Some? ==> t.snapshot.speaker.volume.Some? && t.snapshot.speaker.muted.Some?)
            && Requeues(t.history) <= 1
            && (s.worker.Writing? && s.worker.job.kind.IsRelative() ==> s.snapshot.speaker.volume.Some?)
  {
    Reachable(config, start, before);
    RunAdvances(config, Run(config, Initial(start), before), after);
  }

  /**
   * The encoders never fail in the worker exactly when the standby time has an encoding:
   * otherwise switching on is enough to end the worker.
   */
  lemma WorkerNeverCrashesExactly(config: Config, start: int)
    requires config.timing.controlDeadline > 0
    ensures (forall events: seq<Event> :: !Run(config, Initial(start), events).worker.Crashed?)
       <==> StandbySupported(config.standby)
  {
    if StandbySupported(config.standby) {
      forall events: seq<Event>
        ensures !Run(config, Initial(start), events).worker.Crashed?
      {
        Reachable(config, start, events);
      }
    } else {
      var crashing := CrashRun(config, start);
    }
  }

  lemma CrashRun(config: Config, start: int) returns (events: seq<Event>)
    requires !StandbySupported(config.standby) && config.timing.controlDeadline > 0
    ensures Run(config, Initial(start), events).worker.Crashed?
  {
    events := [Start, SubmitCommand(CommandTurnOn), WorkerTurn(0)];
    var s1 := Step(config, Initial(start), Start);
    var s2 := Step(config, s1, SubmitCommand(CommandTurnOn));
    assert s2.controls[0] == Control(0, TurnOn, NoValue, start + config.timing.controlDeadline, [1]);
    assert s2.futures[1] == Future(Some(0), Pending);
    var s3 := Step(config, s2, WorkerTurn(0));
    assert s3.worker.Crashed?;
    assert events[1..] == [SubmitCommand(CommandTurnOn), WorkerTurn(0)] && events[1..][1..] == [WorkerTurn(0)];
    assert Run(config, s2, [WorkerTurn(0)]) == Run(config, s3, []);
    assert Run(config, s1, events[1..]) == Run(config, s2, [WorkerTurn(0)]);
  }

  // ----------------------------------------------------------------- priority

  /** No verification, poll or maintenance exchange starts while a control is queued. */
  lemma ControlsComeFirst(config: Config, start: int, before: seq<Event>, event: Event)
    ensures var s := Run(config, Initial(start), before);
            s.controls != [] && !Reading(s.worker) ==> !Reading(Step(config, s, event).worker)
  {
    Reachable(config, start, before);
    StepAdvances(config, Run(config, Initial(start), before), event);
  }

  predicate Queued(s: State, job: nat) {
    exists i :: 0 <= i < |s.controls| && s.controls[i].job == job
  }

  /** The control is in the queue in every state of the run. */
  predicate StaysQueued(config: Config, s: State, events: seq<Event>, job: nat)
    decreases |events|
  {
    Queued(s, job) && (events != [] ==> StaysQueued(config, Step(config, s, events[0]), events[1..], job))
  }

  lemma {:induction false} WaitIsUsedUp(config: Config, s: State, events: seq<Event>, position: nat)
    requires Inv(config, s) && position < |s.controls|
    requires StaysQueued(config, s, events, s.controls[position].job)
    ensures TallyOf(Run(config, s, events).history).ended <= TallyOf(s.history).ended + Wait(s, position)
    decreases |events|
  {
    if events != [] {
      var t := Step(config, s, events[0]);
      StepAdvances(config, s, events[0]);
      var k :| 0 <= k < |t.controls| && t.controls[k].job == s.controls[position].job;
      WaitIsUsedUp(config, t, events[1..], k);
    }
  }

  /** A control stays queued over `during`, with `ahead` outstanding controls in front of it at first. */
  predicate WaitsBehind(config: Config, start: int, before: seq<Event>, during: seq<Event>, ahead: nat) {
    var s := Run(config, Initial(start), before);
    ahead < |s.Outstanding()| && StaysQueued(config, s, during, s.Outstanding()[ahead].job)
  }

  function ExchangesEnded(s: State): nat { TallyOf(s.history).ended }

  function EndedDuring(config: Config, start: int, before: seq<Event>, during: seq<Event>): int {
    var s := Run(config, Initial(start), before);
    ExchangesEnded(Run(config, s, during)) - ExchangesEnded(s)
  }

  /**
   * Two attempts of each control in front, one early volume read, and the exchange in flight;
   * when a control is active its own exchange is the one in flight.
   */
  function LongestWait(ahead: nat, active: bool): nat {
    if active then 2 * ahead + 1 else if ahead == 0 then 1 else 2 * ahead + 2
  }

  /** Bounded wait, whatever else is submitted, polled, cancelled or failing. */
  lemma BoundedWait(config: Config, start: int, before: seq<Event>, during: seq<Event>, ahead: nat)
    requires WaitsBehind(config, start, before, during, ahead)
    ensures EndedDuring(config, start, before, during)
         <= LongestWait(ahead, Run(config, Initial(start), before).worker.HasJob())
  {
    Reachable(config, start, before);
    var s := Run(config, Initial(start), before);
    WaitIsUsedUp(config, s, during, ahead - |s.worker.Active()|);
  }

  /** Without further submissions the queue drains: at most Backlog controls are handled. */
  lemma {:induction false} QueueDrains(config: Config, s: State, events: seq<Event>)
    requires Inv(config, s) && Run(config, s, events).nextJob == s.nextJob
    ensures var t := Run(config, s, events);
            Backlog(t) + TallyOf(t.history).handled <= Backlog(s) + TallyOf(s.history).handled
    decreases |events|
  {
    if events != [] {
      var u := Step(config, s, events[0]);
      StepAdvances(config, s, events[0]);
      RunAdvances(config, u, events[1..]);
      QueueDrains(config, u, events[1..]);
    }
  }

  // ------------------------------------------------------------- verification

  lemma {:induction false} ReadsAreUsedUp(config: Config, s: State, events: seq<Event>)
    requires Inv(config, s) && Run(config, s, events).nextJob == s.nextJob
    ensures var t := Run(config, s, events);
            ReadsLeft(config, t) + TallyOf(t.history).verifications
              <= ReadsLeft(config, s) + TallyOf(s.history).verifications
    decreases |events|
  {
    if events != [] {
      var u := Step(config, s, events[0]);
      StepAdvances(config, s, events[0]);
      RunAdvances(config, u, events[1..]);
      ReadsAreUsedUp(config, u, events[1..]);
    }
  }

  /** After the last accepted submission at most one verification read per planned delay starts. */
  lemma VerificationIsBounded(config: Config, start: int, before: seq<Event>, after: seq<Event>)
    requires var s := Run(config, Initial(start), before); Run(config, s, after).nextJob == s.nextJob
    ensures var s := Run(config, Initial(start), before);
            TallyOf(Run(config, s, after).history).verifications - TallyOf(s.history).verifications
              <= |config.timing.verificationDelays|
  {
    Reachable(config, start, before);
    var s := Run(config, Initial(start), before);
    ReadsAreUsedUp(config, s, after);
    RunAdvances(config, s, after);
  }

  /**
   * A planned read has an expected state, a kind that changes the source and a due time, and
   * indexes an existing delay; the command it is to verify is not verified yet.
   */
  lemma PlanIsAlwaysSound(config: Config, start: int, events: seq<Event>)
    ensures var s := Run(config, Initial(start), events);
            && (s.plan.kind.Some? <==> s.plan.expected.Some?)
            && (s.plan.kind.Some? ==> s.plan.due.Some? && s.plan.kind.value.ChangesSource())
            && (s.plan.due.Some? ==>
                  && 0 <= s.plan.attempt < |config.timing.verificationDelays|
                  && s.snapshot.lastCommand.Some? && s.snapshot.lastCommand.value.verified.None?)
  {
    Reachable(config, start, events);
  }

  /** A plan that was due is confirmed, given up after its last read, or waits out the next delay. */
  predicate PlanMoved(config: Config, now: int, before: Plan, after: Plan, last: Option<CommandResult>) {
    var delays := config.timing.verificationDelays;
    || (after == NO_PLAN && last.Some? && last.value.verified == Some(true))
    || (before.attempt + 1 == |delays| && after.due.None? && last.Some? && last.value.verified == Some(false))
    || (&& 0 <= before.attempt + 1 < |delays|
        && after == before.(attempt := before.attempt + 1, due := Some(now + delays[before.attempt + 1])))
  }

  /** The speaker reports the power and the source that the plan waits for. */
  predicate Confirms(plan: Plan, status: SourceStatus) {
    && plan.expected.Some?
    && plan.expected.value.powerOn == Some(status.powerOn) && plan.expected.value.source == Some(status.source)
  }

  /** A source read that ends while a planned read is due verifies the command or counts as a mismatch. */
  predicate Judged(config: Config, before: State, status: SourceStatus, after: State) {
    && PlanMoved(config, before.now, before.plan, after.plan, after.snapshot.lastCommand)
    && after.snapshot.lastCommand.Some?
    && (after.snapshot.lastCommand.value.verified == Some(true) <==> Confirms(before.plan, status))
    && (!Confirms(before.plan, status) ==>
          after.snapshot.health.degraded && after.snapshot.health.lastError == Some(VerificationMismatch))
  }

  lemma ArrivedReadMovesThePlan(config: Config, s: State, reason: Reason, status: SourceStatus)
    requires Inv(config, s) && s.worker == ReadingSource(reason) && VerificationDue(s)
    requires reason.Poll? ==> s.plan.kind.Some?
    ensures Judged(config, s, status, SourceArrived(config, s, reason, status))
  {
  }

  lemma FailedReadMovesThePlan(config: Config, s: State, error: LsxError)
    requires Inv(config, s) && s.worker == ReadingSource(Verification) && s.plan.due.Some?
    ensures var t := SourceFailed(config, s, Verification, error);
            PlanMoved(config, s.now, s.plan, t.plan, t.snapshot.lastCommand)
  {
  }

  /**
   * Every source read that is answered while a planned read is due verifies the command exactly
   * when the speaker reports what the plan expects, and otherwise uses up one planned read.
   */
  lemma DueReadIsJudged(config: Config, start: int, before: seq<Event>, status: SourceStatus)
    requires var s := Run(config, Initial(start), before);
             && s.worker.ReadingSource? && VerificationDue(s)
             && (s.worker.reason.Poll? ==> s.plan.kind.Some?)
    ensures var s := Run(config, Initial(start), before);
            Judged(config, s, status, Step(config, s, SourceReplies(Success(status))))
  {
    Reachable(config, start, before);
    var s := Run(config, Initial(start), before);
    ArrivedReadMovesThePlan(config, s, s.worker.reason, status);
  }

  /** A verification read that fails, unless its plan was superseded, uses up one planned read too. */
  lemma FailedDueReadMovesThePlan(config: Config, start: int, before: seq<Event>, error: LsxError)
    requires var s := Run(config, Initial(start), before);
             s.worker == ReadingSource(Verification) && s.plan.due.Some?
    ensures var s := Run(config, Initial(start), before);
            var t := Step(config, s, SourceReplies(Failure(error)));
            PlanMoved(config, s.now, s.plan, t.plan, t.snapshot.lastCommand)
  {
    Reachable(config, start, before);
    FailedReadMovesThePlan(config, Run(config, Initial(start), before), error);
  }

  // --------------------------------------------------------------------- wake

  /** A sleeping worker whose event is clear has no control, poll, maintenance or close to see. */
  lemma NoLostWakeUp(config: Config, start: int, events: seq<Event>)
    ensures var s := Run(config, Initial(start), events);
            s.worker.Idle? && !s.wake ==>
              && s.controls == [] && !s.pollPending && !s.maintenancePending && !s.closing
              && s.pollWaiters == [] && s.worker.timer == s.plan.due
  {
    ReachableIsKept(config, start, events);
  }
}
