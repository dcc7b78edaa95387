# Verified model of the KEF LSX integration

This project models the parts of the `kef_lsx` Home Assistant integration that talk to a KEF LSX
speaker, and proves what they promise: the single-owner command scheduler
(`custom_components/kef_lsx/runtime.py`), the request/reply exchange (`client.py`), the wire codec
(`protocol.py`), the speaker automaton of the repository's fake server (`tests/fake_lsx.py`), and the
choice of unique entry titles (`config_flow.py`).

Check it with `dafny verify dfyconfig.toml` (Dafny 4.11).

## How it is built

| file | contents |
|---|---|
| `Protocol.dfy` | encoders, decoders, the source table, frame parsing; class `FrameParser` |
| `Client.dfy` | one exchange over a scripted network; class `LsxClient`; the frame scan it refines |
| `Verdicts.dfy` | which bytes make an exchange succeed |
| `Cuts.dfy` | when the way a reply is cut into reads matters |
| `Device.dfy` | the speaker: what it obeys and answers; class `FakeSpeaker`; requests and replies end to end |
| `Scheduler.dfy` | the scheduler as a state machine: states, events, `Step`, `Run` |
| `StepCases.dfy` | the branches of the worker's segments as equations |
| `Invariant.dfy`, `Accounting.dfy`, `Waiters.dfy` | what every step keeps: state, per-control history, waiters |
| `Progress.dfy`, `Order.dfy` | how far one step moves: potentials, and the order of controls |
| `Guarantees.dfy`, `Delivery.dfy`, `Channel.dfy`, `Shutdown.dfy` | properties of all runs |
| `Settling.dfy` | the worker never gets stuck: every control is settled within a bounded number of moves |
| `Witnesses.dfy` | concrete runs: promises that fail, bounds that are reached |
| `Admission.dfy`, `Endings.dfy`, `Reports.dfy`, `Choices.dfy`, `Verification.dfy` | what each event must do, on the fields of the state: accept, settle, report, choose, verify |
| `Coalescing.dfy` | merging and putting back preserve meaning |
| `World.dfy`, `Effects.dfy` | runtime and speaker together: agreement, retries, the wire |
| `Runtime.dfy` | class `KefLsxRuntime`: the mutable object, method by method, refining the state machine |
| `UniqueTitle.dfy` | unique titles of config entries |

The scheduler is a state machine whose atomic steps are the code between two suspension points of the
event loop. Callers (start, submit, poll, cancel, close), the clock, the network and the worker
interleave in every order; the worker's program counter and its locals are part of the state, and an
event that cannot happen leaves the state alone. `Run` is therefore a run under any interleaving, and
"every run" below means every event list from `Initial`. The class `KefLsxRuntime` holds the same
state in mutable fields; each of its methods follows one method, or one segment of one method, of the
Python class, and `Take` and `TakeAll` tie it to `Step` and `Run`.

The `history` of a state is a record kept for the proofs: accepted controls, exchanges begun and
ended, recorded successes and failures, settlements. No step reads it. Acceptance numbers stand for the
submission times that tell command results apart.

## Assumptions

- The clock does not run backwards. One segment reads one clock value, except that time may pass
  between a control's two deadline checks (`drift`).
- Times, delays and volumes are integers: a volume is a percentage.
- At least one verification delay and a failure threshold of at least one. The preferred wake source
  does not change after construction. The runtime starts from the default snapshot.
- For `World` and `Effects`: only this client changes the speaker; a written request takes effect, or
  is lost, before its exchange ends; a request whose bytes were not handed over has no effect; an
  acknowledged one has.
- Case folding maps each character on its own and leaves digits and the underscore alone.

## Where code and documentation differ

The model follows the code.

- `docs/architecture.md:31-33` says a command waits behind at most the exchange in flight plus earlier controls.
  That holds exactly for a command with no control outstanding in front of it (`Witnesses.DocumentedWaitExactly`).
  Behind k of them an early volume read and the retries come in: the bound is 2k + 2 exchanges, or 2k + 1 when one
  of the k is active (`Guarantees.BoundedWait`), and it is reached (`Witnesses.WaitIsReached`).
- `docs/architecture.md:41-43` says queued futures are resolved at unload. A relative command whose volume read
  ends after closing began is put back into the queue and its caller is never answered
  (`Witnesses.ClosingCanStrandAWaiter`). `Shutdown.ClosingStrandsExactly` says exactly whom this can happen to,
  and `Shutdown.ForcedClosingStrandsExactly` the same when the stop may be forced.
- `docs/architecture.md:51-53` gives stale and available as tests of ages and counts. The runtime makes these tests
  only when it records a success or a failure, so both can lag behind (`Channel.StaleLagsBehind`,
  `Channel.AvailabilityLagsBehind`), exactly as `Channel.HealthLagsExactly` says.
- `docs/architecture.md:56-57` counts failed explicit controls as failures. A control that expires before its first
  attempt is not counted, one that expires between the two deadline checks is: `Reports.HealthFollowsReports`.
- `docs/implementation-plan.md:140-141` says new commands supersede stale verifications. When the superseded read is
  in flight and fails, it plans another read, which no answer can confirm: `Verification.OwnerlessPlanExactly`,
  `Verification.OwnerlessReadContradicts`, with a run in `Verification.SupersededReadLingers`.
- `docs/architecture.md:69` says a turn-off uses the same source selection as a turn-on. It does, and the speaker
  switches to that source, but the cached source stays: it is then wrong exactly in the case of
  `World.SwitchingOffAgreesExactly`, with a run in `Effects.SwitchingOffCanMisreport`; and exactly then the
  speaker's answer does not confirm the turn-off (`Verification.ObeyedIsConfirmedExactly`).
- `docs/architecture.md:72` says the maximum volume is enforced before bytes are queued. That holds for setting and
  raising the volume. Mute and unmute repeat the cached volume, and lowering may stay above the maximum: a
  written level is within it exactly in the cases of `Channel.WrittenLevelExactly`, and
  `Witnesses.MuteCanExceedMaximum` is a run that writes more.
- The outcome of one exchange can depend on how its reply is cut: a verdict is lost when a framing error is read
  together with it, exactly in the case of `Cuts.CutsMatterExactly`.

## Model

The methods of `KefLsxRuntime` that have no row each take the function of the same name on the whole state; `Take` puts them together.

| member | source | states |
|---|---|---|
| `Protocol.BuildSourceLookup` | custom_components/kef_lsx/protocol.py:78-98 | The table built row by row holds exactly the seven-bit codes that decoding by arithmetic accepts, with the same meaning, Bluetooth-paired included. |
| `Protocol.SourceLookupIsTheTable` | custom_components/kef_lsx/protocol.py:78-98 | A code decodes to (source, standby, orientation) if and only if it is the sum of a base of that source, a supported standby offset and the orientation bit. |
| `Protocol.SourceRoundTrip` | custom_components/kef_lsx/protocol.py:128-161 | Decoding the value byte of any source SET gives back its source, standby, orientation and power, in spite of the value-48 repair. |
| `Protocol.ParsePrint` | custom_components/kef_lsx/protocol.py:194-224 | Parsing any printed frame list followed by an incomplete frame gives the same list and that residue, whatever the payload bytes are. |
| `Protocol.ParseIsInverseOfPrint` | custom_components/kef_lsx/protocol.py:194-224 | Whenever a byte string parses, it is the print of its frames followed by a residue of at most four bytes that starts with R and has 0x81 third. |
| `Protocol.ParseExactlyInvertsPrint` | tests/fake_lsx.py:19-33 | A byte string parses to (frames, residue) if and only if it is the print of the frames followed by that incomplete frame. |
| `Protocol.ParseConcat` | custom_components/kef_lsx/protocol.py:194-224 | Parsing a concatenation is parsing the first part and then its residue with the second part, for every split point, errors included. |
| `Protocol.ChunkInvariance` | custom_components/kef_lsx/protocol.py:182-229 | For every list of chunks no longer than the limit less four, feeding them in turn gives the frames and residue of the whole stream, and some feed fails exactly when the whole stream is malformed. |
| `Protocol.FrameParser.Feed` | custom_components/kef_lsx/protocol.py:194-224 | The in-place loop returns all complete frames of buffer and data and keeps the residue; an overlong or malformed buffer is an error that empties it. |
| `Client.LsxClient.AsyncExchange` | custom_components/kef_lsx/client.py:137-245 | For every network script the method hands exactly its request to the connection it opens, returns what the exchange function gives, makes at most 85 non-empty reads, and leaves no connection behind: one it opens is gone again, and without opening one nothing changes. |
| `Client.LsxClient.ReadReplies` | custom_components/kef_lsx/client.py:184-237 | The read loop over an incremental parser computes the recursive read loop: result and number of reads. |
| `Client.LsxClient.AsyncGetSource` | custom_components/kef_lsx/client.py:71-83 | Hands the bytes of a source GET to the connection and returns the decoded reply or its error. |
| `Client.LsxClient.AsyncGetVolume` | custom_components/kef_lsx/client.py:85-99 | Hands the bytes of a volume GET to the connection and returns the decoded reply or its error. |
| `Client.LsxClient.AsyncSetSource` | custom_components/kef_lsx/client.py:101-115 | Fails before any exchange exactly for a standby time without encoding, and else hands the encoded SET over. |
| `Client.LsxClient.AsyncSetVolume` | custom_components/kef_lsx/client.py:117-125 | Fails before any exchange exactly for a volume outside 0..100, and else hands the SET of that level and mute over. |
| `Client.LsxClient.ExamineFrames` | custom_components/kef_lsx/client.py:204-225 | The frame loop of one read stops at the first deciding frame or at the seventeenth frame of the exchange. |
| `Client.LsxClient.Close` | custom_components/kef_lsx/client.py:127-135 | Closing is permanent and repeated closing changes nothing. |
| `Client.ReadsAreBounded` | custom_components/kef_lsx/client.py:194-225 | From any point of an exchange the number of further non-empty reads is at most 85 less five per frame examined and one per byte held. |
| `Client.FeedSpendsBudget` | custom_components/kef_lsx/client.py:194-225 | An undecided read turns every byte it brings into examined frames or residue, so the 84 bytes an exchange can absorb shrink. |
| `Client.OverflowIsUnreachable` | custom_components/kef_lsx/client.py:194-204 | With reads of at most 1024 bytes the parser's 4096-byte limit is never reached from the client. |
| `Client.LoopRefinesScan` | custom_components/kef_lsx/client.py:183-237 | For every well-formed stream, cut in any way, the exchange returns what one scan of the frame list returns. |
| `Client.FirstVerdictDecides` | custom_components/kef_lsx/client.py:204-225 | The first deciding frame among the first sixteen is the outcome. |
| `Client.NoVerdictInSixteen` | custom_components/kef_lsx/client.py:204-237 | Without one, a seventeenth frame is refused and otherwise the way the stream ends names the error. |
| `Client.ChunkingIsIrrelevant` | custom_components/kef_lsx/client.py:183-237 | Two ways of cutting a well-formed stream give the same outcome. |
| `Cuts.EveryCutting` | custom_components/kef_lsx/client.py:183-237 | For a malformed stream where cuts do not matter, every cutting gives the verdict of the frames before the error, or 'malformed' without one. |
| `Cuts.CutsAreHarmless` | custom_components/kef_lsx/client.py:183-237 | Two cuttings of any stream agree unless a framing error follows a verdict other than 'malformed' and one read can bring both. |
| `Cuts.CutsMatterExactly` | custom_components/kef_lsx/client.py:183-237 | For every stream two cuttings give different outcomes if and only if it is malformed within 1023 bytes after a deciding frame whose verdict is not 'malformed': read together, the verdict is lost. |
| `Cuts.StrayByteMatters` | custom_components/kef_lsx/client.py:204-225 | Such a stream: an acknowledgement followed by one stray byte. |
| `Cuts.ReadsGoOn` | custom_components/kef_lsx/client.py:194-225 | Reads whose bytes parse are a scan of their frames, and reading goes on from the residue, whatever comes next. |
| `Client.WriteFlagIsExact` | custom_components/kef_lsx/client.py:155-240 | An exchange's error carries write_attempted exactly when the client was open and a connection was opened. |
| `Verdicts.WireFormat` | custom_components/kef_lsx/protocol.py:114-168 | The bytes of GETs and volume SETs, and of the frames that are read, spelled out for every register, value and volume; a volume outside 0..100 is refused. |
| `Verdicts.DecodesExactly` | custom_components/kef_lsx/protocol.py:148-161 | A source byte decodes to a status if and only if it is the sum of a nibble of that source (15 for Bluetooth when paired), its standby offset, orientation and power bit, or it is 48 and the status is Wi-Fi, 60 minutes, inverse, on. |
| `Verdicts.SourceSetCarries` | custom_components/kef_lsx/protocol.py:128-146 | A source SET is encoded exactly for the three standby times, as the bytes 53 30 81 and a byte that carries its arguments and never the paired nibble. |
| `Verdicts.SetIsDecidedByFirstStatus` | custom_components/kef_lsx/client.py:204-237 | For every well-formed stream and cutting a SET is acknowledged if and only if the first status among the first sixteen frames is 0x11, rejected with exactly that status if it is another, and else fails by the way the reads end. |
| `Verdicts.GetIsDecidedByFirstValue` | custom_components/kef_lsx/client.py:204-237 | A GET returns a frame if and only if it is the first value of its register among the first sixteen frames and no status comes before it; a status that comes first is malformed. |
| `Verdicts.FailuresBeforeReading` | custom_components/kef_lsx/client.py:146-183 | Each failure before the reads has its own error, with the flag that says whether bytes were handed over. |
| `Verdicts.SetSucceedsExactly` | custom_components/kef_lsx/client.py:101-125 | A SET returns without an error if and only if the client was open, the connection opened and drained, and its first status is 0x11. |
| `Verdicts.GetVolumeSucceedsExactly` | custom_components/kef_lsx/client.py:85-99 | A volume GET returns a volume and mute if and only if the exchange was asked and the first value of register 0x25 carries them. |
| `Verdicts.GetSourceSucceedsExactly` | custom_components/kef_lsx/client.py:71-83 | A source GET returns a status if and only if the exchange was asked and the first value of register 0x30 decodes to it. |
| `Device.FakeSpeaker.AutoReply` | tests/fake_lsx.py:344-371 | From every state whose replies can be built the in-place automaton leaves the obeyed state and returns the reply, and its state stays such. |
| `Device.VolumeSetObeyed` | custom_components/kef_lsx/protocol.py:164-168 | Obeying an encoded volume SET sets exactly volume and mute, and is answered with OK. |
| `Device.SourceSetObeyed` | custom_components/kef_lsx/protocol.py:128-146 | Obeying an encoded source SET sets exactly power, source, standby and orientation, and is answered with OK. |
| `Device.OtherCommandsObeyed` | tests/fake_lsx.py:344-371 | A source code that cannot be set is refused but switches the power; other registers accept everything, keep nothing and read as zero. |
| `Device.SourceCodeIsSettable` | tests/fake_lsx.py:21-28 | Every encoded source byte carries the power in its top bit and a code the speaker knows below it. |
| `Device.GetIsUnderstood` | custom_components/kef_lsx/protocol.py:114-118 | The speaker parses an encoded GET as a command for that register without a value. |
| `Device.SourceGetEndToEnd` | custom_components/kef_lsx/client.py:71-83 | The speaker's reply to the bytes of a source GET, cut in any way, yields its own source, standby, orientation and power. |
| `Device.VolumeGetEndToEnd` | custom_components/kef_lsx/client.py:85-99 | The reply to the bytes of a volume GET yields volume and mute as the volume byte shows them, or the decoding error when that volume is above 100. |
| `Device.SetEndToEnd` | custom_components/kef_lsx/client.py:101-125 | A SET answered with OK is acknowledged, for every cutting of the reply. |
| `Invariant.StepKeeps` | custom_components/kef_lsx/runtime.py:137-695 | Every step keeps the scheduler's invariant: queue order and bound, known volume, one early volume read, maintenance spacing, a sound plan, no lost wake-up, replayed health. |
| `Invariant.Reachable` | custom_components/kef_lsx/runtime.py:100-122 | Every state reachable from the initial one satisfies that invariant. |
| `Invariant.RequestNeverFails` | custom_components/kef_lsx/protocol.py:128-168 | On a sound cached state an encoder refuses a prepared control exactly when it is a source control and the standby time has no encoding. |
| `Admission.SubmissionIsExact` | custom_components/kef_lsx/runtime.py:219-248 | A command is accepted if and only if the runtime is open and fewer than 16 controls are queued or it can share the last one, wherever the worker is; then its caller gets a pending future of the last outstanding control, with the kind and clamped value asked for, its deadline, and what was to be verified superseded; else it is refused as closed or as busy and nothing changes. |
| `Admission.AcceptedExactly` | custom_components/kef_lsx/runtime.py:219-248 | In every reachable state a caller gets one pending future exactly when its command is accepted. |
| `Admission.PollIsExact` | custom_components/kef_lsx/runtime.py:187-194 | A poll gets a future of its own exactly while the runtime is open, is pending and wakes the worker. |
| `Admission.StartIsExact` | custom_components/kef_lsx/runtime.py:137-143 | Starting starts the worker once, with a first poll. |
| `Admission.CancelIsExact` | custom_components/kef_lsx/runtime.py:187-194 | Cancelling completes the caller's own pending command and nothing else; a poll is shielded. |
| `Admission.ClosingIsExact` | custom_components/kef_lsx/runtime.py:151-164 | Beginning to close drops every queued control, poll, maintenance and plan at once and leaves the worker where it is. |
| `Invariant.ResolvingKeeps` | custom_components/kef_lsx/runtime.py:354-370 | The early volume read keeps the invariant: answered, it puts its control back in front of controls that are all younger and at most once in a run; failed, it settles it. |
| `Invariant.WriteAcknowledgedKeeps` | custom_components/kef_lsx/runtime.py:419-436 | An acknowledgement keeps the invariant. |
| `Invariant.WriteFailedKeeps` | custom_components/kef_lsx/runtime.py:381-412 | A failed attempt keeps the invariant: rejection, pause before the retry, or giving up. |
| `Channel.HistoriesAreLawful` | custom_components/kef_lsx/runtime.py:345-436 | Every history a run can produce is lawful: per control at most two SETs, both before its deadline, the second repeating the bytes of the first, and one settlement that says whether bytes were handed over. |
| `Accounting.StepKeepsBooks` | custom_components/kef_lsx/runtime.py:218-436 | Every step keeps the books: queue, worker and published result agree with what was recorded for each control. |
| `Accounting.HandToClientKeepsBooks` | custom_components/kef_lsx/runtime.py:372-380 | Starting an attempt is lawful: the first or the second, before the deadline, with unchanged bytes. |
| `Waiters.StepKeepsWaiters` | custom_components/kef_lsx/runtime.py:187-436 | Every step keeps each waiter attached to exactly the control or poll it waits for until that is settled. |
| `Waiters.ReachableIsKept` | custom_components/kef_lsx/runtime.py:137-695 | State, books and waiters agree in every reachable state. |
| `Endings.EventsEndControls` | custom_components/kef_lsx/runtime.py:345-436 | In every reachable state each event ends exactly the control that the worker's state and the event determine: its result is published, its pending waiters and no others get the published snapshot or the one error, and a verification is planned, after the first delay and for the state asked for, if and only if the control changes the source and was acknowledged or gave up unrejected with bytes handed over. |
| `Endings.OnlyEndingsDeliver` | custom_components/kef_lsx/runtime.py:345-436 | An event that ends no control gives no control's waiter a result; it can only cancel them. |
| `Reports.HealthFollowsReports` | custom_components/kef_lsx/runtime.py:566-614 | Every event changes health exactly as it reports: an unrejected second failure, a retry loop that expires or closes and a failed early read or poll count one failure, degrade and name the error; any answer resets the count and restores availability; a failed verification or maintenance read degrades without counting; expiry before the first attempt and everything else change nothing; ages are tested at every report. |
| `Reports.FailuresAreCounted` | custom_components/kef_lsx/runtime.py:566-588 | Over every run the failure count is the number of such failures since the speaker last answered. |
| `Choices.WorkerChooses` | custom_components/kef_lsx/runtime.py:250-295 | A turn of the worker does exactly what the fields of the state say: stop, the first control (skip, expire, read the volume, or write), a due verification, a poll, maintenance, or sleep until the plan is due. |
| `Choices.FirstFailurePauses` | custom_components/kef_lsx/runtime.py:386-395 | A first failure that is no rejection pauses for the retry delay or the time left, whichever is less, and changes nothing else. |
| `Choices.SecondAttemptFollows` | custom_components/kef_lsx/runtime.py:372-395 | The pause ends exactly when its time has come; before the deadline the same bytes are then written once more. |
| `Choices.MaintenanceIsPlannedExactly` | custom_components/kef_lsx/runtime.py:319-332 | After an answered source read a maintenance read is pending if and only if the speaker is on and one was pending, the volume is unknown, or the last one is as old as the interval. |
| `Choices.VolumeIsReadNextExactly` | custom_components/kef_lsx/runtime.py:250-332 | With no control and no due plan a source read is followed by a volume read exactly in that case. |
| `Choices.VolumeIsTracked` | custom_components/kef_lsx/runtime.py:334-436 | The time of the last volume moves exactly when one is read or acknowledged as written; only a turn-off or closing drops a pending maintenance. |
| `Choices.EarlyReadVerifiesNothing` | custom_components/kef_lsx/runtime.py:304-317 | A source read that is answered before the plan is due leaves plan and last command alone. |
| `Verification.VerificationStartsExactly` | custom_components/kef_lsx/runtime.py:403-432 | After a command that may have switched the source, with nothing queued, the worker reads for verification if and only if the first delay is over. |
| `Verification.SleeperVerifies` | custom_components/kef_lsx/runtime.py:275-295 | A sleeping worker wakes up for a due plan and reads. |
| `Verification.ObeyedIsConfirmedExactly` | custom_components/kef_lsx/runtime.py:636-676 | The plan of an obeyed command is confirmed by the speaker's own answer, except exactly a turn-off whose request names another source than the cached one. |
| `Verification.OwnerlessPlanExactly` | custom_components/kef_lsx/runtime.py:297-309 | A read that belongs to no command comes to be planned if and only if a verification read fails whose plan was superseded while it was in flight. |
| `Verification.OwnerlessReadContradicts` | custom_components/kef_lsx/runtime.py:636-676 | Whatever the speaker answers to such a read counts as a mismatch, and after the last one the superseding command is published as not verified. |
| `Verification.SupersededReadLingers` | custom_components/kef_lsx/runtime.py:219-240 | From every reachable state with a verification read in flight and nothing queued, an accepted and acknowledged volume command is left with such a read planned when that read fails. |
| `Progress.StepAdvances` | custom_components/kef_lsx/runtime.py:137-695 | One step never undoes an outcome, starts nothing after closing, brings every queued control nearer to its turn, uses up backlog and planned reads, and moves availability and volume only as allowed. |
| `Guarantees.OutstandingWorkIsBounded` | custom_components/kef_lsx/runtime.py:222-243 | Queued and active controls are in acceptance order and never more than the capacity plus one. |
| `Guarantees.VolumeBecomesKnownOnce` | custom_components/kef_lsx/runtime.py:354-370 | Volume and mute are known together and stay known, the early volume read succeeds at most once, and no relative command is written on an unknown volume. |
| `Guarantees.WorkerNeverCrashesExactly` | custom_components/kef_lsx/runtime.py:438-481 | No run ends the worker with an encoder error if and only if the standby time is 20, 60 or None. |
| `Guarantees.CrashRun` | custom_components/kef_lsx/runtime.py:440-448 | With any other standby time start, turn-on and one turn of the worker end it. |
| `Guarantees.ControlsComeFirst` | custom_components/kef_lsx/runtime.py:250-271 | No verification, poll or maintenance read starts while a control is queued. |
| `Guarantees.BoundedWait` | custom_components/kef_lsx/runtime.py:250-396 | While a control stays queued behind k outstanding ones, whatever callers and network do, at most 2k + 2 exchanges end; only 1 when k is 0, and 2k + 1 when one of the k is active. |
| `Witnesses.WaitIsReached` | custom_components/kef_lsx/runtime.py:250-396 | That bound is reached, with and without an active control, for every k up to 15 whose retry pauses fit into the deadline. |
| `Witnesses.DocumentedWaitExactly` | docs/architecture.md:31-33 | Every control that waits behind k outstanding ones sees at most the exchange in flight and one exchange of each earlier control end if and only if k is 0: from 1 on, even when every command succeeds, an early volume read can come in between. |
| `Settling.StepSettles` | custom_components/kef_lsx/runtime.py:250-436 | Before closing, every move of the worker brings each outstanding control nearer to its end, and no other event puts it back. |
| `Settling.ControlsAreSettled` | custom_components/kef_lsx/runtime.py:250-436 | Before closing, a control behind k outstanding ones is settled and everybody who waits for it has an outcome after at most 4k + 7 moves of the worker (4k + 5 when a control is active), whatever happens in between. |
| `Settling.WorkerCanMove` | custom_components/kef_lsx/runtime.py:250-396 | In every reachable state with a control outstanding, before closing, a started worker that has not crashed has a move to make, now or once its pause is over. |
| `Guarantees.QueueDrains` | custom_components/kef_lsx/runtime.py:250-370 | Without new submissions, twice the outstanding controls plus one for an unknown volume bounds the controls still handled. |
| `Guarantees.VerificationIsBounded` | custom_components/kef_lsx/runtime.py:262-316 | After the last accepted submission at most one verification read per configured delay starts. |
| `Guarantees.PlanIsAlwaysSound` | custom_components/kef_lsx/runtime.py:522-534 | Kind and expected state are set together and only with a due time and a source-changing kind; a due read indexes an existing delay and the last command is unverified. |
| `Guarantees.DueReadIsJudged` | custom_components/kef_lsx/runtime.py:303-316 | A source read answered while a planned read is due marks the command verified exactly when power and source are the expected ones, and else degrades health and waits out the next configured delay or, after the last read, gives the plan up. |
| `Guarantees.FailedDueReadMovesThePlan` | custom_components/kef_lsx/runtime.py:293-301 | A failed verification read waits out the next configured delay too, and the last one marks the command not verified. |
| `Guarantees.NoLostWakeUp` | custom_components/kef_lsx/runtime.py:250-286 | A sleeping worker whose event is clear has no control, poll, maintenance or close to see, and its timer is the plan's due time. |
| `Order.ControlsRunInAcceptanceOrder` | custom_components/kef_lsx/runtime.py:255-261 | Of two controls the worker is ever with, the later one was not accepted earlier, the one put back in front included. |
| `Order.StepMovesOn` | custom_components/kef_lsx/runtime.py:218-370 | The acceptance number at the front of the outstanding work never goes back. |
| `Delivery.PendingWaitersAreOutstanding` | custom_components/kef_lsx/runtime.py:187-244 | While the worker runs, a pending control waiter belongs to a queued or active control and a pending poll waiter to the pending poll. |
| `Delivery.WaitersShareOneOutcome` | custom_components/kef_lsx/runtime.py:221-225 | All waiters of one control that were given anything were given the same outcome. |
| `Delivery.DoneFuturesNeverChange` | custom_components/kef_lsx/runtime.py:434-436 | A future that is done keeps its outcome over every run. |
| `Delivery.SourceReadAnswersEveryPoll` | custom_components/kef_lsx/runtime.py:297-320 | Every pending poll is answered by the first source read to end, with the published snapshot; after a failed verification read with the one just before that read's own failure is recorded. |
| `Shutdown.ShutdownIsQuiet` | custom_components/kef_lsx/runtime.py:151-166 | Once closing began nothing is accepted, no exchange starts, the pending retry included, and at most the exchange in flight ends. |
| `Shutdown.ClosingSparesOnlyTheActiveControl` | custom_components/kef_lsx/runtime.py:151-166 | Beginning to close cancels a pending waiter if and only if it does not wait for the active control. |
| `Shutdown.ClosingStrandsExactly` | custom_components/kef_lsx/runtime.py:151-185 | Seen when closing begins: without a forced stop some continuation ends closed with a waiter still pending if and only if the volume is being read for the control it waits for. |
| `Shutdown.ForcedClosingStrandsExactly` | custom_components/kef_lsx/runtime.py:151-185 | With a forced stop allowed, if and only if it waits for the active control, and that did not crash the worker. |
| `Witnesses.ClosingCanStrandAWaiter` | custom_components/kef_lsx/runtime.py:366-370 | A run without forced stop that closes with the first control's waiter pending: its volume read ends after closing began. |
| `Channel.HealthIsReplayed` | custom_components/kef_lsx/runtime.py:552-614 | In every reachable state the failure count, availability, staleness and degradation are what replaying the recorded results gives: stale is the age test at the last record, degraded holds from a failure or contradicting read until the next success on fresh state. |
| `Channel.HealthLagsExactly` | custom_components/kef_lsx/runtime.py:590-614 | Stale and unavailable imply the age and failure tests made now, and agree with them if and only if the test fails now or already held at the last record. |
| `Channel.StaleLagsBehind` | custom_components/kef_lsx/runtime.py:590-614 | After an answered poll of a speaker that is off the worker sleeps with nothing to wake it; left so past the stale age, the runtime is not stale. |
| `Channel.AvailabilityLagsBehind` | custom_components/kef_lsx/runtime.py:590-614 | Enough failed polls at once, after which the worker sleeps past the limit, leave the runtime available. |
| `Channel.AvailabilityIsLostOnlyWhenLost` | custom_components/kef_lsx/runtime.py:590-614 | Availability is lost only at a recorded failure with at least the threshold of primary failures and at least the configured time since the last success or start. |
| `Channel.UnavailableUntilSuccess` | custom_components/kef_lsx/runtime.py:552-614 | Once lost it stays lost over every run without a success. |
| `Channel.SuccessRestores` | custom_components/kef_lsx/runtime.py:552-567 | Any recorded success restores it at once. |
| `Channel.AttemptsAreBounded` | custom_components/kef_lsx/runtime.py:372-396 | Every SET of a run is the first or second of its control, starts before the deadline and before the settlement, and a second one has the bytes of the first. |
| `Channel.SettlementsAreBooked` | custom_components/kef_lsx/runtime.py:397-436 | A control is settled once; acknowledged means bytes were handed over, and a failure's flag says whether they were. |
| `Channel.ResultsAreTruthful` | custom_components/kef_lsx/runtime.py:675-689 | The published result of a completed command is its control's fate, and acknowledged implies write_attempted. |
| `Channel.RejectionSettles` | custom_components/kef_lsx/runtime.py:384-386 | A rejected SET is settled in the same step and so never repeated. |
| `Channel.MaintenanceIsRateLimited` | custom_components/kef_lsx/runtime.py:320-343 | Successful maintenance reads are at least the poll interval apart over every run, and volume is known exactly when its read time is. |
| `Channel.CommandsRespectMaximum` | custom_components/kef_lsx/runtime.py:497-520 | Over every run without a volume read, a cached volume within the maximum stays within it. |
| `Channel.WrittenLevelExactly` | custom_components/kef_lsx/runtime.py:466-481 | Every volume SET a run writes is within the maximum if and only if it sets or raises, mutes or unmutes a cached volume within it, or lowers a cached volume to it. |
| `Channel.WritesRespectMaximum` | custom_components/kef_lsx/runtime.py:466-481 | From a cached volume within the maximum on, every level written is within it until a volume is read. |
| `Witnesses.MuteCanExceedMaximum` | custom_components/kef_lsx/runtime.py:466-481 | A run in which the speaker reports any level above the maximum and a mute writes that level back. |
| `Coalescing.CoalescingPreservesMeaning` | custom_components/kef_lsx/runtime.py:218-261 | For every interleaving of submissions and worker in which nothing is lost, the final cached state is the fold of the requests in acceptance order, before any merging, over the first cached state with volume and mute as the early read of the run, if any, reported them. |
| `Coalescing.StepMeans` | custom_components/kef_lsx/runtime.py:218-436 | Every such step keeps the state that all outstanding controls add up to over the level still to be read, plus what it accepts. |
| `Coalescing.EarlyReadMeans` | custom_components/kef_lsx/runtime.py:354-370 | The early read makes known the level the fold was taken over, and the control put back is folded where it was. |
| `Coalescing.SourcesBeforeTheRead` | custom_components/kef_lsx/runtime.py:419-421 | After an acknowledged volume control no run contains an early read. |
| `Coalescing.FoldMerge` | custom_components/kef_lsx/runtime.py:222-225 | Replacing the value of the last queued volume control is running the old control and then the new one. |
| `Coalescing.PuttingBackMeans` | custom_components/kef_lsx/runtime.py:366-370 | Putting a control back in front leaves the outstanding controls and their order as they were. |
| `World.OnlyAnswersTouchTheCache` | custom_components/kef_lsx/runtime.py:492-550 | Only an answered GET or an acknowledged SET changes the cached speaker state, and to exactly this. |
| `World.RequestObeyed` | custom_components/kef_lsx/runtime.py:438-520 | A speaker that obeys the request in flight has the power, source, volume and mute the scheduler expects, and nothing else changes. |
| `World.AnsweredVolumeAgrees` | custom_components/kef_lsx/runtime.py:336-370 | After every answered volume GET and acknowledged volume SET the cached volume and mute are the speaker's. |
| `World.AnsweredSourceAgrees` | custom_components/kef_lsx/runtime.py:303-304 | After every answered source GET, acknowledged turn-on and selection the cached power and source are the speaker's. |
| `World.VolumeAgreesSinceAnswer` | custom_components/kef_lsx/runtime.py:419-436 | From then on, over every run, volume and mute agree unless an obeyed volume SET loses its acknowledgement. |
| `World.SourceAgreesSinceAnswer` | custom_components/kef_lsx/runtime.py:419-436 | From then on power agrees unless an obeyed source SET loses its acknowledgement, and source unless, besides, the speaker is switched off to another source than the cached one. |
| `World.SwitchingOffAgreesExactly` | custom_components/kef_lsx/runtime.py:449-503 | After an acknowledged turn-off power agrees, and the source agrees if and only if the cached one was known and no other wake source is preferred. |
| `Effects.SwitchingOffCanMisreport` | custom_components/kef_lsx/runtime.py:449-503 | A run in which it does not: a speaker playing one source is switched off while another is preferred. |
| `Effects.RetriesTakeEffectOnce` | custom_components/kef_lsx/runtime.py:372-396 | However many attempts and acknowledgements are lost, a control leaves the speaker as it was or as one request leaves it, and exactly the latter once acknowledged. |
| `Effects.CommandsTakeEffectOnce` | custom_components/kef_lsx/runtime.py:438-520 | Each of the eight commands does to a speaker that agreed with the cache what it means, once: a volume step is one step, however often it was sent. |
| `Effects.WireGetsAreFaithful` | custom_components/kef_lsx/client.py:71-99 | The speaker's replies to the bytes of the GETs, cut in any way, are heard as its state. |
| `Effects.WireSetsAreFaithful` | custom_components/kef_lsx/client.py:101-125 | The speaker understands every request the worker writes, and its reply, cut in any way, acknowledges it. |
| `Effects.WireFailuresAreFaithful` | custom_components/kef_lsx/client.py:155-240 | A failed exchange is heard as the channel assumption has it: its error carries write_attempted whenever the request was handed over and so may have been obeyed. |
| `UniqueTitle.UniqueTitle` | custom_components/kef_lsx/config_flow.py:269-283 | The loop ends with a title whose case fold is unused: the request if free, else the request with the smallest free suffix from 2 on, which is at most the number of used titles plus one. |
| `UniqueTitle.TakenAreFew` | custom_components/kef_lsx/config_flow.py:281-283 | If all suffixes below one are taken, it is at most the number of used titles plus one. |
| `UniqueTitle.ChosenExactly` | custom_components/kef_lsx/config_flow.py:268-283 | The title is the request when no other entry uses it up to case, else the request, an underscore and the numeral, without leading zeros, of the smallest number from two on that gives an unused title. |
| `UniqueTitle.DecimalExactly` | custom_components/kef_lsx/config_flow.py:280-283 | A string is the suffix of a number if and only if it is a numeral without leading zeros of that value. |
| `UniqueTitle.CandidatesDiffer` | custom_components/kef_lsx/config_flow.py:281-283 | Candidates with different suffixes differ after case folding, from each other and from the request. |
| `UniqueTitle.ChosenIsUnique` | custom_components/kef_lsx/config_flow.py:269-283 | The used titles determine the choice. |
| `UniqueTitle.AddingKeepsTitlesDifferent` | custom_components/kef_lsx/config_flow.py:274-283 | Titles that differ up to case still do after an entry is added under the chosen title. |
| `UniqueTitle.RenamingKeepsTitlesDifferent` | custom_components/kef_lsx/config_flow.py:274-283 | And after one is reconfigured, whose own old title does not count as used. |
| `Runtime.KefLsxRuntime.constructor` | custom_components/kef_lsx/runtime.py:72-122 | The options with maximum volume and step forced into range, and the initial state. |
| `Runtime.KefLsxRuntime.Finish` | custom_components/kef_lsx/runtime.py:434-436 | The loop over waiters completes exactly those that are not done. |
| `Runtime.KefLsxRuntime.ResolvePolls` | custom_components/kef_lsx/runtime.py:691-695 | Every waiting poll gets the snapshot, and none waits any more. |
| `Runtime.KefLsxRuntime.BeginClose` | custom_components/kef_lsx/runtime.py:151-166 | The nested loops cancel queued and polling waiters, and all intents are dropped. |
| `Runtime.KefLsxRuntime.ExecuteControl` | custom_components/kef_lsx/runtime.py:438-485 | Source and level are picked and encoded, and the exchange starts or the encoder error ends the worker. |
| `Runtime.KefLsxRuntime.Take` | custom_components/kef_lsx/runtime.py:137-695 | For every event the object takes exactly the state machine's step. |
| `Runtime.KefLsxRuntime.TakeAll` | custom_components/kef_lsx/runtime.py:137-695 | Over every run the object's state is the state machine's, so all properties of runs above are its own. |

## Left out

- Sockets, TCP open and close, `wait_closed` and real timeouts: each is one of the outcomes of a network script or an event.
- Wall-clock times, and the publisher callback, which only observes the snapshot.
- Floats and `round`: volumes, steps and times are integers.
- The exchange lock: the worker is the only caller, so an exchange never waits for another.
- The wait for the worker in `_async_close_impl`, its time budget and the shared close task: `CloseForces` and `CloseEnds` may come at any time after `CloseBegins`.
- The cancellation of the active control's waiters at `custom_components/kef_lsx/runtime.py:180-183`: the worker's `finally` has cleared the active control before, so the loop never runs; what a forced stop leaves pending is `Shutdown.ForcedClosingStrandsExactly`.
- Starting again after closing.
- An exception other than an LSX error in the worker, besides the encoders' ValueError.
- `coerce_source` and the host normalisation of the config flow: sources are an enumeration and endpoints do not occur.
- The config-flow forms, coordinator, entities, sensors, diagnostics and translations.
- The scripted steps, gates, transcript and connection handling of the fake server.
- Aliasing between the runtime's lists: futures are numbered in order of creation and waiter lists hold those numbers.
- Protocol.FrameParser.Feed: the byte buffer is a sequence the method reassigns, so its identity as one bytearray is not modelled.
- Coalescing.CoalescingPreservesMeaning: speaks of runs in which no control expires, every SET is acknowledged at its first or second attempt and no GET but the early volume read is answered, because anything else changes the cached state by design.
- Runtime.KefLsxRuntime.constructor: asks for at least one verification delay and a failure threshold of at least one; without a delay the first command that changes the source ends the worker with an IndexError (`custom_components/kef_lsx/runtime.py:527`), and below one failure a success need not restore availability.
- Device.FakeSpeaker.AutoReply: a state with another standby time, or whose volume does not fit into its byte, for which the fake server cannot build its reply, is not modelled.
