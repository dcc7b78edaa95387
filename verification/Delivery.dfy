/** What each future of a caller is given, and when. */
module Delivery {
  import opened Wrappers
  import opened Protocol
  import opened Client
  import opened Scheduler
  import opened StepCases
  import opened Invariant
  import opened Accounting
  import opened Waiters
  import opened Guarantees

  /** No waiter is lost: while the worker runs, a pending waiter's control is queued or active. */
  lemma PendingWaitersAreOutstanding(config: Config, start: int, events: seq<Event>, waiter: nat)
    requires var s := Run(config, Initial(start), events);
             waiter < |s.futures| && s.futures[waiter].outcome.Pending? && !s.worker.Stopped?
    ensures var s := Run(config, Initial(start), events);
            match s.futures[waiter].owner
            case None => s.pollPending && waiter in s.pollWaiters
            case Some(job) =>
              exists i :: 0 <= i < |s.Outstanding()| && s.Outstanding()[i].job == job
                          && waiter in s.Outstanding()[i].waiters
  {
    ReachableIsKept(config, start, events);
    var s := Run(config, Initial(start), events);
    if s.futures[waiter].owner.Some? {
      var job := s.futures[waiter].owner.value;
      if InJob(waiter, job, Held(s.worker)) {
        assert s.Outstanding()[0] == s.worker.job;
      } else {
        var i :| 0 <= i < |s.controls| && s.controls[i].job == job && waiter in s.controls[i].waiters;
        assert s.Outstanding()[|s.worker.Active()| + i] == s.controls[i];
      }
    }
  }

  /** All waiters merged into a control that were given anything were given the same thing. */
  lemma WaitersShareOneOutcome(config: Config, start: int, events: seq<Event>, a: nat, b: nat)
    requires var s := Run(config, Initial(start), events);
             && a < |s.futures| && b < |s.futures|
             && s.futures[a].owner.Some? && s.futures[a].owner == s.futures[b].owner
             && Delivered(s.futures[a].outcome) && Delivered(s.futures[b].outcome)
    ensures var s := Run(config, Initial(start), events);
            && s.futures[a].outcome == s.futures[b].outcome
            && AccountOf(s.history, s.futures[a].owner.value).fate.Some?
  {
    ReachableIsKept(config, start, events);
  }

  /** A future is completed at most once: what it was given it keeps. */
  lemma DoneFuturesNeverChange(config: Config, start: int, before: seq<Event>, after: seq<Event>, waiter: nat)
    requires var s := Run(config, Initial(start), before);
             waiter < |s.futures| && !s.futures[waiter].outcome.Pending?
    ensures var s := Run(config, Initial(start), before);
            var t := Run(config, s, after);
            waiter < |t.futures| && t.futures[waiter] == s.futures[waiter]
  {
    Reachable(config, start, before);
    RunAdvances(config, Run(config, Initial(start), before), after);
  }

  /** The snapshot is the published one, or, after a failed verification read, the one before its own failure. */
  predicate AnswersPoll(s: State, t: State, outcome: Outcome, last: bool) {
    && outcome.Resolved? && outcome.snapshot.speaker == t.snapshot.speaker
    && outcome.snapshot.health.consecutiveFailures == t.snapshot.health.consecutiveFailures
    && (if last then outcome.snapshot == t.snapshot else outcome.snapshot.lastCommand == s.snapshot.lastCommand)
  }

  /** Every poll that waits is answered by the first source read to end, whatever that read was for. */
  lemma SourceReadAnswersEveryPoll(
    config: Config, start: int, before: seq<Event>, source: Result<SourceStatus, LsxError>, waiter: nat)
    requires var s := Run(config, Initial(start), before);
             && s.worker.ReadingSource?
             && waiter < |s.futures| && s.futures[waiter] == Future(None, Pending)
    ensures var t := Step(config, Run(config, Initial(start), before), SourceReplies(source));
            var s := Run(config, Initial(start), before);
            && waiter < |t.futures|
            && AnswersPoll(s, t, t.futures[waiter].outcome, source.Success? || s.worker.reason.Poll?)
  {
    ReachableIsKept(config, start, before);
    ReadAnswers(config, Run(config, Initial(start), before), source, waiter);
  }

  lemma ReadAnswers(config: Config, s: State, source: Result<SourceStatus, LsxError>, waiter: nat)
    requires s.worker.ReadingSource? && PollsSound(s.futures, s.pollWaiters, s.pollPending)
    requires waiter < |s.futures| && s.futures[waiter] == Future(None, Pending)
    ensures var t := Step(config, s, SourceReplies(source));
            && waiter < |t.futures|
            && AnswersPoll(s, t, t.futures[waiter].outcome, source.Success? || s.worker.reason.Poll?)
  {
    match source
    case Success(status) =>
      StepHearsSource(config, s, status);
      ArrivedReadAnswers(config, s, s.worker.reason, status, waiter);
    case Failure(error) =>
      StepFailsSource(config, s, error);
      FailedReadAnswers(config, s, s.worker.reason, error, waiter);
  }

  lemma ArrivedReadAnswers(config: Config, s: State, reason: Reason, status: SourceStatus, waiter: nat)
    requires waiter < |s.futures| && s.futures[waiter].outcome.Pending? && waiter in s.pollWaiters && s.pollPending
    ensures var t := SourceArrived(config, s, reason, status);
            waiter < |t.futures| && t.futures[waiter].outcome == Resolved(t.snapshot)
  {
  }

  lemma FailedReadAnswers(config: Config, s: State, reason: Reason, error: LsxError, waiter: nat)
    requires waiter < |s.futures| && s.futures[waiter].outcome.Pending? && waiter in s.pollWaiters && s.pollPending
    ensures var t := SourceFailed(config, s, reason, error);
            waiter < |t.futures| && AnswersPoll(s, t, t.futures[waiter].outcome, reason.Poll?)
  {
  }
}
