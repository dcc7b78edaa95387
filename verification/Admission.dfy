/** Which requests are accepted, and what an accepted one leaves: stated on the fields of the state. */
module Admission {
  import opened Wrappers
  import opened Protocol
  import opened Client
  import opened Scheduler
  import opened Invariant

  /** The command can share the last queued control. */
  predicate Joins(s: State, command: Command) {
    command.CommandSetVolume? && s.controls != [] && s.controls[|s.controls| - 1].kind == SetVolume
  }

  /** Open, and with room for the command. Where the worker is does not matter. */
  predicate Accepts(s: State, command: Command) {
    !s.closing && (|s.controls| < 16 || Joins(s, command))
  }

  /** The control asks for what the command says, with a volume clamped to the allowed range. */
  predicate Asks(config: Config, job: Control, command: Command) {
    match command
    case CommandTurnOn => (job.kind, job.value) == (TurnOn, NoValue)
    case CommandTurnOff => (job.kind, job.value) == (TurnOff, NoValue)
    case CommandSelectSource(source) => (job.kind, job.value) == (SelectSource, SourceValue(source))
    case CommandSetVolume(percent) =>
      var level := if percent < 0 then 0 else if percent > config.maximumVolume then config.maximumVolume else percent;
      (job.kind, job.value) == (SetVolume, VolumeValue(level))
    case CommandVolumeUp => (job.kind, job.value) == (VolumeUp, NoValue)
    case CommandVolumeDown => (job.kind, job.value) == (VolumeDown, NoValue)
    case CommandMute(muted) => (job.kind, job.value) == (if muted then Mute else Unmute, NoValue)
  }

  function Last(controls: seq<Control>): Control
    requires controls != []
  {
    controls[|controls| - 1]
  }

  /** The last queued control has the command's value and one more waiter, the caller; nothing else changed. */
  predicate JoinsLast(s: State, t: State) {
    && t.controls != [] && |t.controls| == |s.controls|
    && t.controls[..|s.controls| - 1] == s.controls[..|s.controls| - 1]
    && Last(t.controls) == Last(s.controls).(
         value := Last(t.controls).value, waiters := Last(s.controls).waiters + [|s.futures|])
    && t == s.(futures := t.futures, controls := t.controls, wake := true, history := t.history)
  }

  /** A new control is last in the queue, with its deadline and the caller; it supersedes what was to be verified. */
  predicate IsLast(config: Config, s: State, t: State) {
    && |t.controls| == |s.controls| + 1 && t.controls[..|s.controls|] == s.controls
    && Last(t.controls) == Control(
         s.nextJob, Last(t.controls).kind, Last(t.controls).value, s.now + config.timing.controlDeadline, [|s.futures|])
    && t.plan.due == None && t.plan.kind == None && t.plan.expected == None
    && t.snapshot == s.snapshot.(
         lastCommand := Some(CommandResult(s.nextJob, Last(t.controls).kind, false, false, false, None, None)))
    && t == s.(futures := t.futures, controls := t.controls, plan := t.plan, snapshot := t.snapshot,
               nextJob := s.nextJob + 1, wake := true, history := t.history)
  }

  /** The caller has a pending future of the last outstanding control. */
  predicate Takes(config: Config, s: State, t: State, command: Command) {
    && t.Outstanding() != [] && t.controls != [] && Last(t.Outstanding()) == Last(t.controls)
    && t.futures == s.futures + [Future(Some(Last(t.controls).job), Pending)]
    && Asks(config, Last(t.controls), command)
    && if Joins(s, command) then JoinsLast(s, t) else IsLast(config, s, t)
  }

  lemma JoiningTakes(config: Config, s: State, command: Command)
    requires Joins(s, command) && !s.closing
    ensures Takes(config, s, Step(config, s, SubmitCommand(command)), command)
  {
    var t := MergeIntoLast(s, ValueOf(config, command));
    assert Last(t.Outstanding()) == Last(t.controls);
  }

  lemma EnqueueingTakes(config: Config, s: State, command: Command)
    requires !Joins(s, command) && Accepts(s, command)
    ensures Takes(config, s, Step(config, s, SubmitCommand(command)), command)
  {
    var t := Enqueue(config, s, KindOf(command), ValueOf(config, command));
    assert Last(t.Outstanding()) == Last(t.controls);
  }

  /**
   * A command is accepted exactly while the runtime is open and fewer than sixteen controls are
   * queued, or it can share the last of them; then its caller waits for the last outstanding
   * control, which asks for what the command says. Else it is refused and changes nothing.
   */
  lemma SubmissionIsExact(config: Config, s: State, command: Command)
    ensures var t, verdict := Step(config, s, SubmitCommand(command)), Judge(s, KindOf(command));
            && (if Accepts(s, command) then Takes(config, s, t, command) else t == s)
            && (verdict == RefusedClosed <==> s.closing)
            && (verdict == RefusedBusy <==> !s.closing && !Accepts(s, command))
            && (Accepts(s, command) <==> verdict == Admitted(|s.futures|))
  {
    if Accepts(s, command) {
      if Joins(s, command) {
        JoiningTakes(config, s, command);
      } else {
        EnqueueingTakes(config, s, command);
      }
    }
  }

  /** A caller gets a future exactly when its command is accepted, and a pending one. */
  lemma AcceptedExactly(config: Config, start: int, before: seq<Event>, command: Command)
    ensures var s := Run(config, Initial(start), before);
            var t := Step(config, s, SubmitCommand(command));
            && (t.futures != s.futures <==> !s.closing && (|s.controls| < 16 || Joins(s, command)))
            && (t.futures != s.futures ==> |t.futures| == |s.futures| + 1 && t.futures[|s.futures|].outcome == Pending)
  {
    SubmissionIsExact(config, Run(config, Initial(start), before), command);
  }

  /** A poll gets a future of its own exactly while the runtime is open, and the worker is told. */
  lemma PollIsExact(config: Config, s: State)
    ensures var t := Step(config, s, PollState);
            if s.closing then t == s
            else t == s.(futures := s.futures + [Future(None, Pending)], pollWaiters := s.pollWaiters + [|s.futures|],
                         pollPending := true, wake := true)
  {
  }

  /** The worker is started once, with a first poll. */
  lemma StartIsExact(config: Config, s: State)
    ensures var t := Step(config, s, Start);
            && (s.worker != NotStarted ==> t == s)
            && (s.worker == NotStarted ==>
                  && t.worker == Ready && t.startedMono == s.now
                  && (!s.closing ==> t.pollPending && t.futures == s.futures + [Future(None, Pending)]))
  {
  }

  /** Cancelling reaches the caller's own pending command and nothing else; a poll is shielded. */
  lemma CancelIsExact(config: Config, s: State, waiter: nat)
    ensures var t := Step(config, s, Cancel(waiter));
            && |t.futures| == |s.futures| && t == s.(futures := t.futures)
            && forall w :: 0 <= w < |s.futures| ==>
                 t.futures[w] == if w == waiter && s.futures[w].owner.Some? && s.futures[w].outcome == Pending
                                 then Future(s.futures[w].owner, Cancelled) else s.futures[w]
  {
  }

  /** Closing drops every intent at once. */
  lemma ClosingIsExact(config: Config, s: State)
    requires !s.closing
    ensures var t := Step(config, s, CloseBegins);
            && t.closing && t.wake && t.controls == [] && t.pollWaiters == []
            && !t.pollPending && !t.maintenancePending && t.plan.due == None
            && t.worker == s.worker && t.snapshot == s.snapshot && t.history == s.history
  {
  }

  /** A forced stop ends a started worker once closing began; closing ends when no worker is left. */
  lemma StoppingIsExact(config: Config, s: State)
    ensures Step(config, s, CloseForces)
         == if s.closing && !s.worker.NotStarted? && !s.worker.Crashed? then s.(worker := Stopped) else s
    ensures Step(config, s, CloseEnds)
         == s.(closed := s.closed || (s.closing && (s.worker == NotStarted || s.worker == Stopped)))
  {
  }
}
