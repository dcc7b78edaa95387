/** What every run's history says about each accepted control: attempts, bytes, deadline, fate. */
module Accounting {
  import opened Wrappers
  import opened Protocol
  import opened Client
  import opened Scheduler
  import opened StepCases
  import opened Invariant

  /** One control's history, replayed. */
  datatype Account = Account(
    deadline: Option<int>, writes: nat, request: Option<Bytes>, handed: bool, fate: Option<Fate>)

  const NO_ACCOUNT := Account(None, 0, None, false, None)

  function JobOf(exchange: Exchange): Option<nat> {
    match exchange
    case Write(job, _, _) => Some(job)
    case ResolvingRead(job) => Some(job)
    case _ => None
  }

  /** The control an entry is about. */
  function Subject(entry: Entry): Option<nat> {
    match entry
    case Accepted(job, _, _) => Some(job)
    case Merged(job, _) => Some(job)
    case Requeued(job) => Some(job)
    case Settled(job, _) => Some(job)
    case Began(exchange, _) => JobOf(exchange)
    case Ended(exchange, _) => JobOf(exchange)
    case _ => None
  }

  /**
   * `handed` means bytes reached the writer: in some SET attempt, or in the volume read in
   * front of a relative command when that read failed and so was the last thing tried.
   */
  function Book(account: Account, entry: Entry): Account {
    match entry
    case Accepted(_, _, deadline) => account.(deadline := Some(deadline))
    case Began(Write(_, _, request), _) => account.(writes := account.writes + 1, request := Some(request))
    case Ended(Write(_, _, _), wrote) => account.(handed := account.handed || wrote)
    case Ended(ResolvingRead(_), wrote) => account.(handed := wrote)
    case Requeued(_) => account.(handed := false)
    case Settled(_, fate) => account.(fate := Some(fate))
    case _ => account
  }

  function AccountOf(history: History, job: nat): Account {
    match history
    case Nothing => NO_ACCOUNT
    case Then(before, latest) =>
      if Subject(latest) == Some(job) then Book(AccountOf(before, job), latest) else AccountOf(before, job)
  }

  /** Accepted, not settled, and still before its deadline at `at`. */
  predicate MayStart(account: Account, at: int) {
    account.deadline.Some? && at < account.deadline.value && account.fate.None?
  }

  /** What an entry about a control may be, given what was booked for it before. */
  predicate Lawful(account: Account, entry: Entry) {
    match entry
    case Accepted(_, _, _) => account == NO_ACCOUNT
    case Began(Write(_, attempt, request), at) =>
      && MayStart(account, at) && attempt == account.writes <= 1
      && (attempt == 1 ==> account.request == Some(request))
    case Began(ResolvingRead(_), at) => MayStart(account, at) && account.writes == 0
    case Settled(_, fate) =>
      && account.deadline.Some? && account.fate.None?
      && (match fate
          case Acked(_) => account.handed && account.writes >= 1
          case FailedWith(_, wrote) => wrote == account.handed
          case Dropped => account.writes == 0 && !account.handed)
    case _ => true
  }

  predicate AllLawful(history: History) {
    match history
    case Nothing => true
    case Then(before, latest) =>
      var earlier := AllLawful(before);
      var lawful := Subject(latest).Some? ==> Lawful(AccountOf(before, Subject(latest).value), latest);
      earlier && lawful
  }

  /** The definitions above, at every entry. */
  lemma ReadAccounts()
    ensures forall h: History, e: Entry, j: nat {:trigger AccountOf(Then(h, e), j)} ::
              AccountOf(Then(h, e), j) == if Subject(e) == Some(j) then Book(AccountOf(h, j), e) else AccountOf(h, j)
    ensures forall h: History, e: Entry {:trigger AllLawful(Then(h, e))} ::
              AllLawful(Then(h, e))
                == (AllLawful(h) && (Subject(e).Some? ==> Lawful(AccountOf(h, Subject(e).value), e)))
  {
  }

  // ------------------------------------------------------- state and accounts

  /** A queued control has been accepted and nothing has been written for it. */
  predicate Waiting(account: Account, job: Control) {
    account.deadline == Some(job.deadline) && account.writes == 0 && !account.handed && account.fate.None?
  }

  predicate QueueWaiting(history: History, controls: seq<Control>) {
    forall i :: 0 <= i < |controls| ==> Waiting(AccountOf(history, controls[i].job), controls[i])
  }

  ghost predicate Unheard(history: History, nextJob: nat) {
    forall j: nat :: nextJob <= j ==> AccountOf(history, j) == NO_ACCOUNT
  }

  /** The active control's account says what the worker holds about it. */
  predicate ActiveBooked(config: Config, account: Account, worker: Worker, speaker: SpeakerState) {
    match worker
    case Resolving(job) => Waiting(account, job)
    case Writing(job, attempt, wrote, request) =>
      account == Account(Some(job.deadline), attempt + 1, Some(request), wrote, None)
    case Sleeping(job, wrote, _, _) =>
      && account.request.Some? && account == Account(Some(job.deadline), 1, account.request, wrote, None)
      && RequestFor(config, speaker, job) == Success(account.request.value)
    case _ => true
  }

  /** The published result of a completed command says what was booked for it. */
  predicate ResultTells(result: CommandResult, fate: Option<Fate>) {
    var told := (result.acknowledged, result.writeAttempted, result.error);
    result.completed ==>
      match fate
      case Some(Acked(_)) => told == (true, true, None)
      case Some(FailedWith(error, wrote)) => told == (false, wrote, Some(error))
      case _ => false
  }

  predicate ResultBooked(history: History, last: Option<CommandResult>) {
    last.Some? ==> ResultTells(last.value, AccountOf(history, last.value.job).fate)
  }

  /** The same result, up to its verification. */
  predicate SameResult(a: Option<CommandResult>, b: Option<CommandResult>) {
    a == b || (a.Some? && b.Some? && a.value.(verified := None) == b.value.(verified := None))
  }

  ghost predicate Booked(config: Config, s: State) {
    var result, lawful := ResultBooked(s.history, s.snapshot.lastCommand), AllLawful(s.history);
    var queue, future := QueueWaiting(s.history, s.controls), Unheard(s.history, s.nextJob);
    var active := s.worker.HasJob() ==>
      ActiveBooked(config, AccountOf(s.history, s.worker.job.job), s.worker, s.snapshot.speaker);
    result && lawful && queue && future && active
  }

  /** Entries about an older control, or about none, leave the queue's accounts alone. */
  ghost predicate SameAccounts(a: History, b: History, except: Option<nat>) {
    forall j: nat :: except != Some(j) ==> AccountOf(a, j) == AccountOf(b, j)
  }

  lemma OthersKeepQueue(a: History, b: History, except: Option<nat>, controls: seq<Control>, nextJob: nat)
    requires SameAccounts(a, b, except) && QueueWaiting(a, controls) && Unheard(a, nextJob)
    requires except.Some? ==> Precedes(except.value, controls, nextJob)
    ensures QueueWaiting(b, controls) && Unheard(b, nextJob)
  {
  }

  /** A step that logs nothing about any control keeps the books. */
  lemma SilentKeeps(config: Config, s: State, t: State)
    requires Booked(config, s) && t.controls == s.controls && t.nextJob == s.nextJob
    requires SameAccounts(s.history, t.history, None) && AllLawful(t.history)
    requires !t.worker.HasJob() || (t.worker == s.worker && t.snapshot.speaker == s.snapshot.speaker)
    requires SameResult(s.snapshot.lastCommand, t.snapshot.lastCommand)
    ensures Booked(config, t)
  {
    OthersKeepQueue(s.history, t.history, None, s.controls, s.nextJob);
  }

  lemma MergeKeepsBooks(config: Config, s: State, value: Value)
    requires Booked(config, s) && s.controls != []
    ensures Booked(config, MergeIntoLast(s, value))
  {
    ReadAccounts();
    var t := MergeIntoLast(s, value);
    assert SameAccounts(s.history, t.history, None);
    assert forall i :: 0 <= i < |t.controls| ==>
             t.controls[i].job == s.controls[i].job && t.controls[i].deadline == s.controls[i].deadline;
  }

  lemma EnqueueKeepsBooks(config: Config, s: State, kind: Kind, value: Value)
    requires Booked(config, s) && Inv(config, s)
    ensures Booked(config, Enqueue(config, s, kind, value))
  {
    ReadAccounts();
    var t := Enqueue(config, s, kind, value);
    assert SameAccounts(s.history, t.history, Some(s.nextJob));
    assert forall i :: 0 <= i < |s.controls| ==> t.controls[i] == s.controls[i];
  }

  lemma SourceArrivedKeepsBooks(config: Config, s: State, reason: Reason, status: SourceStatus)
    requires Booked(config, s)
    ensures Booked(config, SourceArrived(config, s, reason, status))
  {
    ReadAccounts();
    SilentKeeps(config, s, SourceArrived(config, s, reason, status));
  }

  lemma SourceFailedKeepsBooks(config: Config, s: State, reason: Reason, error: LsxError)
    requires Booked(config, s)
    ensures Booked(config, SourceFailed(config, s, reason, error))
  {
    ReadAccounts();
    SilentKeeps(config, s, SourceFailed(config, s, reason, error));
  }

  lemma MaintenanceKeepsBooks(config: Config, s: State, volume: Result<VolumeStatus, LsxError>)
    requires Booked(config, s)
    ensures volume.Success? ==> Booked(config, MaintenanceArrived(config, s, volume.value))
    ensures volume.Failure? ==> Booked(config, MaintenanceFailed(config, s, volume.error))
  {
    ReadAccounts();
    match volume
    case Success(status) => SilentKeeps(config, s, MaintenanceArrived(config, s, status));
    case Failure(error) => SilentKeeps(config, s, MaintenanceFailed(config, s, error));
  }

  lemma CallerKeepsBooks(config: Config, s: State, event: Event)
    requires Booked(config, s)
    requires event.Start? || event.PollState? || event.Cancel? || event.Tick? || event.CloseBegins?
          || event.CloseForces? || event.CloseEnds? || event.WorkerWakes?
    ensures Booked(config, Step(config, s, event))
  {
  }

  // ----------------------------------------------------------------- controls

  /** The books while the worker holds `job`, whose account stands at `account`. */
  ghost predicate Holds(s: State, job: Control, account: Account) {
    && AllLawful(s.history) && QueueWaiting(s.history, s.controls) && Unheard(s.history, s.nextJob)
    && ResultBooked(s.history, s.snapshot.lastCommand)
    && Precedes(job.job, s.controls, s.nextJob)
    && AccountOf(s.history, job.job) == account
    && account.deadline == Some(job.deadline) && account.fate.None?
  }

  /** The worker is done with `job`, and only that control's account moved. */
  lemma LettingGoKeepsBooks(config: Config, s: State, job: Control, account: Account, t: State)
    requires Holds(s, job, account)
    requires t.controls == s.controls && t.nextJob == s.nextJob && !t.worker.HasJob()
    requires SameAccounts(s.history, t.history, Some(job.job)) && AllLawful(t.history)
    requires ResultBooked(t.history, t.snapshot.lastCommand)
    ensures Booked(config, t)
  {
    OthersKeepQueue(s.history, t.history, Some(job.job), s.controls, s.nextJob);
  }

  lemma DropKeepsBooks(config: Config, s: State, job: Control)
    requires Holds(s, job, AccountOf(s.history, job.job)) && Waiting(AccountOf(s.history, job.job), job)
    ensures Booked(config, DropControl(s, job))
  {
    ReadAccounts();
    LettingGoKeepsBooks(config, s, job, AccountOf(s.history, job.job), DropControl(s, job));
  }

  lemma ErrorKeepsBooks(config: Config, s: State, job: Control, error: ErrorName, account: Account)
    requires Holds(s, job, account)
    ensures Booked(config, FinishControlError(s, job, error, account.handed))
  {
    ReadAccounts();
    LettingGoKeepsBooks(config, s, job, account, FinishControlError(s, job, error, account.handed));
  }

  lemma ResolveKeepsBooks(config: Config, s: State, job: Control)
    requires Holds(s, job, AccountOf(s.history, job.job)) && Waiting(AccountOf(s.history, job.job), job)
    requires s.now < job.deadline
    ensures Booked(config, ResolveVolume(s, job))
  {
    ReadAccounts();
    OthersKeepQueue(s.history, ResolveVolume(s, job).history, None, s.controls, s.nextJob);
  }

  lemma FinishAttemptsKeepsBooks(config: Config, s: State, job: Control, account: Account, error: Option<LsxError>)
    requires Holds(s, job, account) && (error.None? ==> !account.handed)
    ensures Booked(config, FinishAttempts(config, s, job, account.handed, error))
  {
    ReadAccounts();
    LettingGoKeepsBooks(config, s, job, account, FinishAttempts(config, s, job, account.handed, error));
  }

  lemma HandToClientKeepsBooks(config: Config, s: State, ready: Control, attempt: nat, account: Account)
    requires Holds(s, ready, account) && s.now < ready.deadline && attempt == account.writes <= 1
    requires attempt == 1 ==>
      account.request.Some? && RequestFor(config, s.snapshot.speaker, ready) == Success(account.request.value)
    ensures Booked(config, HandToClient(config, s, ready, attempt, account.handed))
  {
    ReadAccounts();
    var t := HandToClient(config, s, ready, attempt, account.handed);
    assert SameAccounts(s.history, t.history, Some(ready.job));
    OthersKeepQueue(s.history, t.history, Some(ready.job), s.controls, s.nextJob);
  }

  /** The second attempt asks for the bytes of the first. */
  predicate AsksAgain(config: Config, s: State, job: Control, attempt: nat, account: Account) {
    attempt == 1 ==>
      && Prepare(config, s.snapshot.speaker, job) == job && account.request.Some?
      && RequestFor(config, s.snapshot.speaker, job) == Success(account.request.value)
  }

  lemma BeginAttemptKeepsBooks(
    config: Config, s: State, job: Control, attempt: nat, account: Account, error: Option<LsxError>)
    requires Holds(s, job, account) && attempt == account.writes <= 1 && AsksAgain(config, s, job, attempt, account)
    requires error.None? ==> !account.handed
    ensures Booked(config, BeginAttempt(config, s, job, attempt, account.handed, error))
  {
    BeginAttemptEither(config, s, job, attempt, account.handed, error);
    if GivesUp(s, job) {
      FinishAttemptsKeepsBooks(config, s, job, account, error);
    } else {
      HandToClientKeepsBooks(config, s, Prepare(config, s.snapshot.speaker, job), attempt, account);
    }
  }

  lemma StartControlKeepsBooks(config: Config, s: State, job: Control, drift: nat, account: Account)
    requires Holds(s, job, account) && Waiting(account, job)
    ensures Booked(config, StartControl(config, s, job, drift))
  {
    if StartsAttempt(s, job) {
      StartControlAttempts(config, s, job, drift);
      BeginAttemptKeepsBooks(config, s.(now := s.now + drift), job, 0, account, None);
    } else {
      StartControlDoesNotAttempt(config, s, job, drift);
      DropKeepsBooks(config, s, job);
      ErrorKeepsBooks(config, s, job, DeadlineExpired, account);
      if s.now < job.deadline {
        ResolveKeepsBooks(config, s, job);
      }
    }
  }

  lemma TurnKeepsBooks(config: Config, s: State, drift: nat)
    requires Booked(config, s) && Inv(config, s) && s.worker.Ready?
    ensures Booked(config, Turn(config, s, drift))
  {
    if s.closing || s.controls == [] {
      TurnTakesNone(config, s, drift);
      ReadAccounts();
      SilentKeeps(config, s, Turn(config, s, drift));
    } else {
      var job := s.controls[0];
      TurnTakesControl(config, s, drift);
      TakingKeepsQueue(config, s.controls, s.nextJob);
      StartControlKeepsBooks(
        config, s.(controls := s.controls[1..]), job, drift, AccountOf(s.history, job.job));
    }
  }

  lemma ResolvingArrivedKeepsBooks(config: Config, s: State, status: VolumeStatus)
    requires Booked(config, s) && Inv(config, s) && s.worker.Resolving?
    ensures Booked(config, ResolvingArrived(config, s, s.worker.job, status))
  {
    ReadAccounts();
    var t := ResolvingArrived(config, s, s.worker.job, status);
    OthersKeepQueue(s.history, t.history, Some(s.worker.job.job), s.controls, s.nextJob);
    assert t.controls == [s.worker.job] + s.controls;
  }

  lemma ResolvingFailedKeepsBooks(config: Config, s: State, error: LsxError)
    requires Booked(config, s) && Inv(config, s) && s.worker.Resolving?
    ensures Booked(config, ResolvingFailed(config, s, s.worker.job, error))
  {
    ReadAccounts();
    LettingGoKeepsBooks(
      config, s, s.worker.job, AccountOf(s.history, s.worker.job.job), ResolvingFailed(config, s, s.worker.job, error));
  }

  /** The books between the end of an attempt's exchange and what follows it. */
  ghost predicate HoldsAttempt(config: Config, s: State, account: Account) {
    && s.worker.Writing? && Holds(s, s.worker.job, account)
    && account.writes == s.worker.attempt + 1 && account.request == Some(s.worker.request)
    && RequestFor(config, s.snapshot.speaker, s.worker.job) == Success(s.worker.request)
  }

  /** An attempt's end books whether it handed bytes over, and nothing else. */
  lemma AttemptEnds(config: Config, s: State, wrote: bool)
    requires Booked(config, s) && Inv(config, s) && s.worker.Writing?
    ensures var account := AccountOf(s.history, s.worker.job.job).(handed := s.worker.wrote || wrote);
            HoldsAttempt(config, s.Log(Ended(WriteOf(s.worker), wrote)), account)
  {
    ReadAccounts();
    var t := s.Log(Ended(WriteOf(s.worker), wrote));
    assert SameAccounts(s.history, t.history, Some(s.worker.job.job));
    OthersKeepQueue(s.history, t.history, Some(s.worker.job.job), s.controls, s.nextJob);
  }

  lemma WriteAcknowledgedKeepsBooks(config: Config, s: State)
    requires Booked(config, s) && Inv(config, s) && s.worker.Writing?
    ensures Booked(config, WriteAcknowledged(config, s))
  {
    AttemptEnds(config, s, true);
    FinishAcknowledgedKeepsBooks(
      config, s.Log(Ended(WriteOf(s.worker), true)), s.worker.job,
      AccountOf(s.history, s.worker.job.job).(handed := true));
  }

  lemma FinishAcknowledgedKeepsBooks(config: Config, s: State, job: Control, account: Account)
    requires Holds(s, job, account) && account.handed && account.writes >= 1
    ensures Booked(config, FinishAcknowledged(config, s, job))
  {
    ReadAccounts();
    LettingGoKeepsBooks(config, s, job, account, FinishAcknowledged(config, s, job));
  }

  lemma WriteRejectedKeepsBooks(config: Config, s: State, job: Control, account: Account, error: LsxError)
    requires Holds(s, job, account)
    ensures Booked(config, WriteRejected(config, s, job, account.handed, error))
  {
    ReadAccounts();
    var t := RecordSuccess(config, s, false);
    assert SameAccounts(s.history, t.history, None);
    OthersKeepQueue(s.history, t.history, None, s.controls, s.nextJob);
    FinishAttemptsKeepsBooks(config, t, job, account, Some(error));
  }

  lemma AttemptFailedKeepsBooks(config: Config, s: State, account: Account, error: LsxError)
    requires HoldsAttempt(config, s, account)
    ensures Booked(config, AttemptFailed(config, s, s.worker.job, s.worker.attempt, account.handed, error))
  {
    if s.worker.attempt != 0 {
      FinishAttemptsKeepsBooks(config, s, s.worker.job, account, Some(error));
    }
  }

  lemma FailureKeepsBooks(config: Config, s: State, account: Account, error: LsxError)
    requires HoldsAttempt(config, s, account)
    ensures Booked(config, AfterFailure(config, s, account.handed, error))
  {
    if error.fault.CommandRejected? {
      WriteRejectedKeepsBooks(config, s, s.worker.job, account, error);
    } else {
      AttemptFailedKeepsBooks(config, s, account, error);
    }
  }

  lemma WriteFailedKeepsBooks(config: Config, s: State, error: LsxError)
    requires Booked(config, s) && Inv(config, s) && s.worker.Writing?
    ensures Booked(config, WriteFailed(config, s, error))
  {
    var wrote := s.worker.wrote || error.writeAttempted;
    AttemptEnds(config, s, error.writeAttempted);
    WriteFailedIsAfterFailure(config, s, error);
    FailureKeepsBooks(
      config, s.Log(Ended(WriteOf(s.worker), error.writeAttempted)),
      AccountOf(s.history, s.worker.job.job).(handed := wrote), error);
  }

  // -------------------------------------------------------------------- steps

  lemma RetryKeepsBooks(config: Config, s: State)
    requires Booked(config, s) && Inv(config, s) && s.worker.Sleeping?
    ensures Booked(config, BeginAttempt(config, s, s.worker.job, 1, s.worker.wrote, Some(s.worker.failure)))
  {
    BeginAttemptKeepsBooks(
      config, s, s.worker.job, 1, AccountOf(s.history, s.worker.job.job), Some(s.worker.failure));
  }

  lemma SubmitKeepsBooks(config: Config, s: State, kind: Kind, value: Value)
    requires Booked(config, s) && Inv(config, s)
    ensures Booked(config, Submit(config, s, kind, value))
  {
    if Judge(s, kind).Admitted? {
      if Merges(s, kind) {
        MergeKeepsBooks(config, s, value);
      } else {
        EnqueueKeepsBooks(config, s, kind, value);
      }
    }
  }

  lemma ReadStepKeepsBooks(config: Config, s: State, event: Event)
    requires Booked(config, s) && Inv(config, s) && (event.SourceReplies? || event.VolumeReplies?)
    ensures Booked(config, Step(config, s, event))
  {
    match event
    case SourceReplies(Success(status)) =>
      if s.worker.ReadingSource? { SourceArrivedKeepsBooks(config, s, s.worker.reason, status); }
    case SourceReplies(Failure(error)) =>
      if s.worker.ReadingSource? { SourceFailedKeepsBooks(config, s, s.worker.reason, error); }
    case VolumeReplies(volume) =>
      if s.worker.ReadingVolume? { MaintenanceKeepsBooks(config, s, volume); }
      else if s.worker.Resolving? {
        match volume
        case Success(status) => ResolvingArrivedKeepsBooks(config, s, status);
        case Failure(error) => ResolvingFailedKeepsBooks(config, s, error);
      }
  }

  lemma ControlStepKeepsBooks(config: Config, s: State, event: Event)
    requires Booked(config, s) && Inv(config, s)
    requires event.WorkerTurn? || event.WriteReplies? || event.RetryPauseEnds?
    ensures Booked(config, Step(config, s, event))
  {
    match event
    case WorkerTurn(drift) =>
      if s.worker.Ready? { TurnKeepsBooks(config, s, drift); }
    case WriteReplies(None) =>
      if s.worker.Writing? { WriteAcknowledgedKeepsBooks(config, s); }
    case WriteReplies(Some(error)) =>
      if s.worker.Writing? { WriteFailedKeepsBooks(config, s, error); }
    case RetryPauseEnds =>
      if s.worker.Sleeping? && s.now >= s.worker.until { RetryKeepsBooks(config, s); }
  }

  lemma StepKeepsBooks(config: Config, s: State, event: Event)
    requires Booked(config, s) && Inv(config, s)
    ensures Booked(config, Step(config, s, event))
  {
    match event
    case SubmitCommand(command) => SubmitKeepsBooks(config, s, KindOf(command), ValueOf(config, command));
    case SourceReplies(_) => ReadStepKeepsBooks(config, s, event);
    case VolumeReplies(_) => ReadStepKeepsBooks(config, s, event);
    case WorkerTurn(_) => ControlStepKeepsBooks(config, s, event);
    case WriteReplies(_) => ControlStepKeepsBooks(config, s, event);
    case RetryPauseEnds => ControlStepKeepsBooks(config, s, event);
    case _ => CallerKeepsBooks(config, s, event);
  }
}
