# Breeze backup helper and measurement kernels, modelled and proved

This project models the execution and result-delivery core of the Breeze RMM backup helper (Go) and two measurement
kernels (TypeScript), and proves what their code and comments promise. The theorems are statements about all inputs,
all runs or all reachable states of the model; where a promise fails, a lemma gives an input or a run that the code can
in fact meet.

1. **Execution queue, canceller and message protocol.** `HelperSystem` is a transition system: tickets in a FIFO of
   close-once channels, their handlers and heartbeats, the three-map canceller with a forest of contexts, targeted
   `backup_stop` commands and every other tracked command, in any interleaving and any number. Each step is one
   critical section, one channel operation or one send. `QueueSafety`, `MessageProtocol`, `CancelSafety` and
   `StopSafety` hold the inductive invariants; `QueueProgress` proves that nothing deadlocks; `WaitAnswers` says what
   the two waits of a queued command answer and when its heartbeat beats; `SharedIds` says exactly what cancel and stop
   promise when several commands track one id; `RebindRace` and `GuardBypass` give runs in which they miss;
   `HelperObjects` has the two Go objects as classes, each method proved against the transition it performs.
2. **Tiered result bounding.** `Bytes` has Go strings as byte strings with UTF-8 and JSON escaping, `JsonStrings` reads
   the escapes back; `WarningNotes` and `NotePreservation` have the warning with its reserved note tail, `WarningText`
   the run's own text in front of it; `ResultBounds` specifies `fitBackupResult` with all its tiers; `ResultDelivery`,
   `NamedLimit`, `ResultContents`, `ResultFields`, `ResultDegrees`, `ResultNotes` and `TerminalStatus` prove what every
   delivered result satisfies; `ResultBounder` is the imperative function on a mutable object, proved equal to the
   specification. JSON is modelled at value level: a parsed body holds the value of each member and its encoded bytes,
   and re-encoding is an arbitrary function, so every statement holds for any whitespace and key order; `JsonText` is
   one concrete encoder, used for the inputs in `ResultWitnesses` and for the texts the helper writes itself.
   `SortedKeys` stands for `sort.Strings`.
3. **Measurement kernels.** `Histogram` (fixed-memory percentiles against sorting), `RevisionTracker` (accepted
   revisions against polls) and `MediaClock` (RTP timestamp unwrapping).
4. **Smaller stateful kernels.** `RebuildWatchdog` (stall windows over whole runs) and `HypervPreflight` (space per
   volume).

Clocks, disks, the IPC connection and the commands themselves are parameters or steps that may happen at any time:
`executeCommand` is one opaque step. Of `AcquireExecutionWithProgress` the model has its answer: it returns at once under
a context it derived before, otherwise with a derived context or, once its context has ended, with an error; when the
guard becomes free is left open.

## What the proofs found

Where the code does not meet a promise, the model follows the code. Each item names the lemma that gives an input or a
run, and the lemma that says exactly when the promise holds.

- A successful result is turned into a failure not only for an oversize stdout that is no JSON object: an oversize
  command id does it too (`LongIdFails`; exactly when: `SuccessVerdict`).
- A scalar `attestation` is deleted along with a dropped control manifest (`AttestationLost`; exactly when:
  `ScalarsSurvive`).
- Clipping stderr can lengthen it by its suffix and so push a deliverable result over the frame; the notes then name no
  limit (`UnnamedLimit`; exactly when: `NamedByMeasure`, and by the length of stderr alone `NamedByLength`).
- Five notes can be appended, where a comment counts four (`FiveNotes`; never more: `NotesDelivered`).
- A warning that neutralising lengthens past its budget is clipped with nothing counted or logged
  (`ClippedInSilence`; exactly when: `CountIsRight`).
- A run warning that is just " || bounded:" is lost with the second note (`HeadLost`; any other text stays in front:
  `TextMeans`, `NotesDelivered`).
- A run warning that ends in " || bounded:" moves the boundary between text and notes when split
  (`RoundTripFails`; exactly when: `SplitComposeRoundTrip`).
- `cancel(id)` can miss a queued backup whose id some other command was already tracking when it was admitted
  (`CancelMissesSharedId`; exactly when: `CancelReachesIff`).
- A targeted stop can report stopped and drained while a queued backup of that very id has yet to send its first message
  (`StopMissesSharedId`; exactly when: `DrainedIff`). The comment in `executeCommand` says the reply is held back
  until the run is over.
- When the acknowledgement fails to send, a queued command sends no terminal message at all (`FailedAckIsSilent`;
  otherwise it sends exactly one: `ProtocolHolds`).
- A backup cancelled while it waits for the execution guard can start all the same, when its id was handed out under
  the context an earlier backup of that id was rebound to (`CancelledPassesGuard`; exactly when: `CancelledAtGuardIff`).
- A histogram bucket below the cap that wraps makes some percentile too high (`WrapShows`; exactly when:
  `AgreesIffUnwrapped`).
- An RTP step of half the range across a wrap reads backwards (`HalfRangeFlips`; exactly when: `UnwrapsExactly`).
- Space needs whose sum leaves 64 bits are accepted (`WrappedSumAccepted`; exactly when: `PromiseIffInRange`).

## Model

| member | source | states |
|---|---|---|
| `QueueSafety.StepSafe` | agent/cmd/breeze-backup/execution_queue.go:37-86 | every step of every handler, parked closer, stop or other command keeps the chain of done channels, the admission index and the lock invariant |
| `QueueSafety.ClosedMeansReleased` | agent/cmd/breeze-backup/execution_queue.go:37-86 | in every run a closed done means every ticket admitted at or before it is released, a granted wait means every earlier ticket is released, and at most one ticket is between wait returning nil and release |
| `QueueSafety.GrantsInAdmissionOrder` | agent/cmd/breeze-backup/execution_queue.go:57-86 | in every run the waits that return nil do so in admission order, also when waiters in the middle are cancelled; which waits return nil is WaitAnswer |
| `WaitAnswers.WaitAnswer` | agent/cmd/breeze-backup/execution_queue.go:57-71 | a wait that ends returns nil exactly when the context the ticket was admitted with has not ended |
| `WaitAnswers.UnstartedWasCancelled` | agent/cmd/breeze-backup/main.go:610-640 | in every run a command that ended without being granted its turn had been cancelled, unless its ack failed; one granted its turn that ended without starting had its run cancelled; only granted commands start |
| `WaitAnswers.CancelledNeverStarts` | agent/cmd/breeze-backup/execution_queue.go:57-71 | in every run a command cancelled before its turn is never granted it and never sends starting, in any continuation |
| `WaitAnswers.CancelledAtGuardIff` | agent/internal/backup/execution_guard.go:19-44 | a command whose run is cancelled while it waits for the execution guard never starts in any continuation, exactly when its context was not derived by the guard before |
| `GuardBypass.CancelledPassesGuard` | agent/internal/backup/execution_guard.go:19-44 | for every id there is a legal run after which a cancelled backup waits at the guard, and a continuation in which it starts |
| `QueueSafety.IndexExact` | agent/cmd/breeze-backup/execution_queue.go:37-56 | entries holds exactly the ids of admitted, unreleased tickets, and two such tickets never share an id |
| `QueueSafety.Readmission` | agent/cmd/breeze-backup/execution_queue.go:37-56 | a duplicate admission changes no queue or canceller state; a released id is admitted again at the end of the queue |
| `QueueProgress.MeasureDecreases` | agent/cmd/breeze-backup/execution_queue.go:57-86 | every handler step except a liveness tick lowers one ranking over all tickets |
| `QueueProgress.NoDeadlock` | agent/cmd/breeze-backup/execution_queue.go:57-86 | in every reachable state with an unclosed done, the earliest such ticket, or the one holding the queue lock it needs, has an enabled step |
| `QueueProgress.Drains` | agent/cmd/breeze-backup/execution_queue.go:57-86 | from every reachable state the handlers' own steps reach, within the ranking, a state where every done is closed exactly once |
| `QueueProgress.ProgressEnds` | agent/cmd/breeze-backup/execution_queue.go:57-86 | handler progress cannot go on forever, and where none is possible every done is closed |
| `QueueProgress.ProgressBounded` | agent/cmd/breeze-backup/execution_queue.go:57-86 | in every run, with anything else in between, progress steps taken plus what is left to do are at most what there was to do plus a constant per admission and one per received tick |
| `QueueProgress.NeverClosedTwice` | agent/cmd/breeze-backup/execution_queue.go:72-86 | no run closes a done channel twice |
| `MessageProtocol.ProtocolHolds` | agent/cmd/breeze-backup/main.go:592-685 | in every run a handler's messages are ack when async, queued at least once, then optionally starting and executing any number of times, then exactly one terminal, or nothing at all when the ack failed |
| `MessageProtocol.TerminalIsLast` | agent/cmd/breeze-backup/execution_queue.go:90-104 | once a handler is past its terminal send, no continuation of the run adds a message of it or of its heartbeat |
| `MessageProtocol.FailedAckIsSilent` | agent/cmd/breeze-backup/main.go:666-674 | in every run an ack may fail to send, and then that command says nothing in any continuation |
| `WaitAnswers.NativeBeats` | agent/cmd/breeze-backup/main.go:642-652 | in every run only native commands send executing, and each has a heartbeat from its start until that is joined |
| `Contexts.CancelReach` | agent/cmd/breeze-backup/main.go:121-130 | cancelling a context ends exactly its descendants, and changes no descent |
| `Canceller.TrackValid` | agent/cmd/breeze-backup/main.go:84-97 | track, also when it re-enters, keeps the three maps, the trackers and the channels consistent |
| `Canceller.DeleteMapsValid` | agent/cmd/breeze-backup/main.go:98-102 | the cleanup's critical section keeps them consistent |
| `Canceller.CloseDoneValid` | agent/cmd/breeze-backup/main.go:103-104 | cancel and close after the lock keep them consistent: a channel is closed exactly when its cleanup is over |
| `Canceller.RebindValid` | agent/cmd/breeze-backup/main.go:111-118 | rebinding to an existing context keeps them consistent |
| `CancelSafety.StepLinks` | agent/cmd/breeze-backup/main.go:592-640 | every step keeps each ticket's handler in phase with the cleanups it owns |
| `StopSafety.StepAll` | agent/cmd/breeze-backup/main.go:84-150 | every step of the whole system keeps all invariants together |
| `StopSafety.MapsAgree` | agent/cmd/breeze-backup/main.go:84-118 | in every run the three maps have the same keys and an id is in them exactly when it has one live owning cleanup |
| `StopSafety.CancelReachesHandedOut` | agent/cmd/breeze-backup/main.go:84-130 | in every run the registered cancel of an id the queue tracks ends the context handed out for it, however often rebound, the one its handler waits under and the one its run is under, and nothing outside its descendants |
| `SharedIds.StepShared` | agent/cmd/breeze-backup/main.go:84-150 | every step also keeps which command each tracker belongs to and which queued commands each stop has seen |
| `SharedIds.OwnerOfId` | agent/cmd/breeze-backup/main.go:84-106 | in every reachable state a tracked id is owned by another command, by the unreleased ticket of that id, or by that ticket's own run |
| `SharedIds.CancelReachesIff` | agent/cmd/breeze-backup/main.go:84-130 | a backup about to be admitted is reached by cancel in every continuation until its terminal send, exactly when no other command tracks its id |
| `RebindRace.CancelMissesSharedId` | agent/cmd/breeze-backup/main.go:108-130 | for every id there is a legal run after which cancel finds the id yet leaves the context handed out for it alive, because another command tracked the id first |
| `SharedIds.DrainedMeansGone` | agent/cmd/breeze-backup/main.go:736-751 | a stop that reports stopped has ended the run it found; one that reports drained found that run gone from the maps, also when the id was tracked again, and every queued command of the id admitted before the stop and owning the id past its terminal send |
| `SharedIds.DrainedIff` | agent/cmd/breeze-backup/main.go:736-751 | for an unfinished queued command, every continuation in which a stop of its id reports stopped and drained finds it past its terminal send, exactly when it owns the id or nothing tracks the id |
| `RebindRace.StopMissesSharedId` | agent/cmd/breeze-backup/main.go:736-751 | for every id there is a legal run in which a stop reports stopped and drained while a backup of that id admitted before it is still at its acknowledgement |
| `QueueProgress.StopCanReport` | agent/cmd/breeze-backup/main.go:135-150 | in every run a targeted stop waiting for a queued command can report drained once that command is released |
| `HelperObjects.ActiveCommandCanceller.Track` | agent/cmd/breeze-backup/main.go:84-97 | a second track of an id returns the context handed out for it, with a cleanup that owns nothing and no map changed; a first one registers a fresh live context and an open channel under the id; validity is kept |
| `HelperObjects.ActiveCommandCanceller.Forget` | agent/cmd/breeze-backup/main.go:98-102 | an owning cleanup leaves its id, and no other, out of all three maps, another one leaves them alone; nothing is cancelled or closed yet; validity is kept |
| `HelperObjects.ActiveCommandCanceller.Close` | agent/cmd/breeze-backup/main.go:103-104 | exactly its channel is closed and exactly its context's descendants end; the maps are not touched; validity is kept |
| `HelperObjects.ActiveCommandCanceller.Rebind` | agent/cmd/breeze-backup/main.go:111-118 | the tracked ids stay the same, only a tracked id's own context changes, and validity is kept |
| `HelperObjects.ActiveCommandCanceller.Cancel` | agent/cmd/breeze-backup/main.go:121-130 | reports whether the id was tracked and ends exactly the descendants of its registered context |
| `HelperObjects.ActiveCommandCanceller.CancelAll` | agent/cmd/breeze-backup/main.go:152-169 | reports whether anything was tracked and ends exactly what descends from some registered context |
| `HelperObjects.BackupExecutionQueue.Enqueue` | agent/cmd/breeze-backup/execution_queue.go:37-56 | performs the admission transition; a duplicate is refused with no change to queue or canceller |
| `HelperObjects.BackupExecutionQueue.Cleanup` | agent/cmd/breeze-backup/execution_queue.go:47-52 | the cleanup under the lock performs the two release transitions |
| `HelperObjects.BackupExecutionQueue.Release` | agent/cmd/breeze-backup/execution_queue.go:72-86 | cleanup, then closed at once exactly when the predecessor is closed, parked otherwise |
| `HelperObjects.BackupExecutionQueue.CloseParked` | agent/cmd/breeze-backup/execution_queue.go:83-83 | one close of one ticket, no other ticket changed, and the order, index and lock invariants of the queue kept |
| `Bytes.ClipText` | agent/cmd/breeze-backup/result_bounds.go:481-497 | the backing-off loop computes truncateText: the text cut on its last rune boundary within the cap, followed by the count of bytes over the cap in decimal, which is returned too |
| `Bytes.TruncateTextValid` | agent/cmd/breeze-backup/result_bounds.go:481-497 | valid UTF-8 stays valid UTF-8 |
| `Bytes.TruncateTextCut` | agent/cmd/breeze-backup/result_bounds.go:481-497 | for any bytes the cut is the last rune boundary within the cap, in valid text at most three bytes back and leaving valid text; behind it stand, between the fixed words, digits that read back as the bytes over the cap with no leading zero; text within the cap is untouched |
| `Bytes.DecimalRenders` | agent/cmd/breeze-backup/result_bounds.go:481-493 | a number is written as digits that read back as it, with no leading zero |
| `Bytes.RendersOnce` | agent/cmd/breeze-backup/result_bounds.go:481-493 | and there is only one such text |
| `Bytes.TruncateTextBound` | agent/cmd/breeze-backup/result_bounds.go:103-105 | the clipped text is at most 48 bytes over the cap, and bytes are reported dropped exactly when it was over |
| `Bytes.EscapeSize` | agent/cmd/breeze-backup/result_bounds.go:470-476 | JSON escaping costs one to six bytes per byte |
| `JsonStrings.EscapeRoundTrip` | agent/cmd/breeze-backup/result_bounds.go:856-864 | marshalling a string and reading it back gives the string with ill-formed bytes replaced, the very string when it is valid UTF-8 |
| `JsonStrings.EscapeInert` | agent/cmd/breeze-backup/result_bounds.go:856-864 | an escaped string holds no bare quote, no control byte and no HTML metacharacter |
| `JsonText.MarshalIsJson` | agent/cmd/breeze-backup/result_bounds.go:470-476 | the size measured is that of the JSON object with exactly the five members of a result |
| `WarningNotes.NeutralizeIsLabelFree` | agent/cmd/breeze-backup/result_bounds.go:837-839 | neutralised text never holds the note label |
| `WarningNotes.NeutralizeReplaces` | agent/cmd/breeze-backup/result_bounds.go:837-839 | the first label becomes its defanged form, what is in front of it is copied and what is behind it neutralised in turn |
| `WarningNotes.SplitComposeRoundTrip` | agent/cmd/breeze-backup/result_bounds.go:793-832 | splitting a composed warning gives back the text and notes exactly when there are no notes, or the text does not end in the marker's head, or all-notes text holds no marker |
| `WarningNotes.RoundTripFails` | agent/cmd/breeze-backup/result_bounds.go:127-131 | for every note, a run warning equal to the marker's head is split in the wrong place |
| `NotePreservation.AppendDelivers` | agent/cmd/breeze-backup/result_bounds.go:845-854 | appending keeps every note already there, adds the new one behind, and stays within the free-text cap |
| `WarningText.AppendKeeps` | agent/cmd/breeze-backup/result_bounds.go:845-854 | appending keeps the run's own text, cut once on a rune boundary, at the front of the warning, unless it is the marker's head alone |
| `WarningText.TextMeans` | agent/cmd/breeze-backup/result_bounds.go:727-735 | after any number of appends the kept text leads the warning, exactly unless it is the marker's head alone and there were two or more |
| `WarningText.HeadLost` | agent/cmd/breeze-backup/result_bounds.go:793-854 | for any two notes, a run warning that is the marker's head alone survives the first append and is lost with the second |
| `NotePreservation.NotesSurvive` | agent/cmd/breeze-backup/result_bounds.go:83-119 | for every run warning, after up to seven appends the warning ends with all notes in full and in order, within the cap |
| `NotePreservation.NotesAreListed` | agent/cmd/breeze-backup/result_bounds.go:845-854 | repeated appends leave the notes in the order they came, each clipped to 512 bytes, with "; " between |
| `ResultDelivery.FitsIff` | agent/cmd/breeze-backup/result_bounds.go:364-399 | the length pre-check changes no verdict: a result fits exactly when stdout is at most 4,934,464 bytes and the marshalled result at most 16,711,680, and of the two the first exceeded is named |
| `ResultDelivery.AlwaysFits` | agent/cmd/breeze-backup/result_bounds.go:198-297 | whatever the stdout, stderr and command id, the returned result meets both delivery budgets |
| `ResultDelivery.LastResortFits` | agent/cmd/breeze-backup/result_bounds.go:736-770 | the minimal status fits by worst-case escaping |
| `ResultDelivery.OversizeFailureFits` | agent/cmd/breeze-backup/result_bounds.go:711-726 | so does the oversize failure |
| `ResultDelivery.SuccessVerdict` | agent/cmd/breeze-backup/result_bounds.go:198-297 | success never goes from false to true, and from true to false exactly when the clipped result does not fit and its stdout is no object |
| `ResultDelivery.LongIdFails` | agent/cmd/breeze-backup/result_bounds.go:222-233 | every success with a command id over the frame budget and an empty stdout becomes a failure |
| `ResultFields.ResultAnswers` | agent/cmd/breeze-backup/result_bounds.go:198-297 | in every tier the duration is kept; the command id and the stderr under its cap are kept before the last tier and the failure; there the id is as given up to 1024 bytes and otherwise clipped, and the last tier's stderr is as given up to 1024 bytes and otherwise begins like it; a body is delivered as its own encoding |
| `ResultFields.FailureSays` | agent/cmd/breeze-backup/result_bounds.go:711-726 | an oversize failure says, word for word, which limit was exceeded and how many bytes of stdout and clipped stderr went |
| `ResultFields.LimitAttributed` | agent/cmd/breeze-backup/result_bounds.go:299-315 | the limit reported is the one the result as given exceeded, or the free-text cap when it exceeded none and something was dropped |
| `ResultFields.NotesRead` | agent/cmd/breeze-backup/result_bounds.go:560-770 | the notes word for word, with the number of entries and the threshold of each limit in decimal |
| `NamedLimit.ClipCost` | agent/cmd/breeze-backup/result_bounds.go:481-493 | for any bytes, clipping changes the escaped length by the suffix less the escaped tail it replaces |
| `NamedLimit.NamedByMeasure` | agent/cmd/breeze-backup/result_bounds.go:203-224 | a deliverable result is degraded with no limit to name exactly when the escaped suffix pushes the marshalled result over the frame |
| `NamedLimit.NamedByLength` | agent/cmd/breeze-backup/result_bounds.go:203-224 | every result with a stderr of a given length names a real limit when degraded, exactly when that length is within the cap or at least 25 bytes over it |
| `NamedLimit.UnnamedLimit` | agent/cmd/breeze-backup/result_bounds.go:203-222 | for every length one to 24 bytes over the cap, a result that meets every limit is degraded with no limit to name |
| `ResultContents.NoFurtherThanNeeded` | agent/cmd/breeze-backup/result_bounds.go:198-297 | which tier delivers, exactly, from whether the clipped result and each earlier tier's result fit |
| `ResultContents.ScalarsSurvive` | agent/cmd/breeze-backup/result_bounds.go:242-288 | unless not even its scalars fit, every top-level scalar but the warning is delivered, exactly unless it is an attestation beside a bulk manifest and neither the clipped result, the emptied index nor the bulk drop fits; numbers and booleans unchanged, strings unchanged or, when dropping the manifests does not fit either, clipped |
| `ResultWitnesses.AttestationLost` | agent/cmd/breeze-backup/result_bounds.go:264-279 | a run whose layout manifest is too large for the server loses its boolean attestation, with actual JSON text before and after |
| `ResultDegrees.SilentIsLossless` | agent/cmd/breeze-backup/result_bounds.go:198-297 | with an empty log, the id, verdict, stderr, duration and every body member but the warning are delivered as given, and the warning as given or clamped |
| `ResultDegrees.SilentWarning` | agent/cmd/breeze-backup/result_bounds.go:528-541 | with an empty log a clamped warning was within its budget before it was neutralised, and nothing was cut from it when it holds no label or stays within the budget neutralised |
| `ResultWitnesses.ClippedInSilence` | agent/cmd/breeze-backup/result_bounds.go:528-541 | a result over the server's budget by white space alone comes out with its warning clipped and nothing logged |
| `ResultDegrees.CountIsRight` | agent/cmd/breeze-backup/result_bounds.go:520-541 | of a changed warning, the count reported is what is cut from the text composed, exactly when that held no label or still fits its budget neutralised |
| `ResultDegrees.UntouchedIff` | agent/cmd/breeze-backup/result_bounds.go:198-224 | a result comes back as it was with nothing logged exactly when it fits and its stderr is within the cap |
| `ResultWitnesses.FiveNotes` | agent/cmd/breeze-backup/result_bounds.go:83-93 | a run with one file, two bulk fields and an overlong number is degraded with five notes, with actual JSON text throughout |
| `ResultContents.SnapshotSurvives` | agent/cmd/breeze-backup/result_bounds.go:566-593 | through tiers 1 to 3 the five snapshot identity keys are kept and an array of files is delivered whole or empty, never partial; before tier 3 nothing else of the snapshot changes, and in tier 3 nothing else is left |
| `ResultContents.AttestationSurvivesWhole` | agent/cmd/breeze-backup/result_bounds.go:248-288 | in every tier, a delivered container attestation comes with every container manifest of the original, unchanged |
| `ResultDegrees.ContainersSurvive` | agent/cmd/breeze-backup/result_bounds.go:242-280 | unless not even the scalars fit, each top-level container other than the snapshot is delivered unchanged, exactly unless it is bulk and the emptied index does not fit, is a bulk manifest or an attestation beside one and the bulk drop does not fit, or dropping the manifests does not fit |
| `ResultDegrees.NothingAdded` | agent/cmd/breeze-backup/result_bounds.go:198-297 | no tier before the last adds a member other than the warning |
| `ResultDegrees.MinimalIdentifies` | agent/cmd/breeze-backup/result_bounds.go:736-770 | even the minimal status carries the job id, id, status and the snapshot's id unchanged when they were short strings, and the top-level snapshot id when the snapshot has none of its own |
| `TerminalStatus.MinimalIsJson` | agent/cmd/breeze-backup/result_bounds.go:736-770 | in the last tier stdout is the JSON text of the minimal status, its members in key order |
| `ResultNotes.NotesDelivered` | agent/cmd/breeze-backup/result_bounds.go:198-297 | every note any tier appended, at most five, is in the delivered warning in order, each whole up to 512 bytes, the warning is within the cap, and the run's own text as the clamp kept it leads it, exactly unless that is a bare marker head with two notes or more |
| `ResultNotes.EmptiedIndexIsNoted` | agent/cmd/breeze-backup/result_bounds.go:566-593 | the delivered warning of a degraded result that had a file index contains, word for word, the note with the number of its entries and the limit, whatever the warning was before |
| `ResultNotes.DroppedIsNamed` | agent/cmd/breeze-backup/result_bounds.go:606-626 | a top-level container that was not delivered is named in the delivered warning, in a note with its limit that is whole up to 512 bytes, unless it is an attestation that went with its manifest |
| `ResultNotes.WarningLeads` | agent/cmd/breeze-backup/result_bounds.go:727-735 | a run warning of up to 3987 bytes without the note label leads the delivered warning word for word in every tier, also when it was not a string |
| `ResultBounder.StdoutObject.BoundObjectWarning` | agent/cmd/breeze-backup/result_bounds.go:528-541 | the warning becomes valid, label-free text within the run's own budget and every other member stays; the count returned is what was cut from that text exactly when the warning held no label or fits its budget neutralised |
| `ResultBounder.StdoutObject.EmptySnapshotFiles` | agent/cmd/breeze-backup/result_bounds.go:566-593 | no file entry is left, the rest of the snapshot and every member but the warning stay, and a body without entries is untouched |
| `ResultBounder.StdoutObject.DropBulkFields` | agent/cmd/breeze-backup/result_bounds.go:606-626 | removes exactly the oversize containers not kept back, reported in sorted order, with one note |
| `ResultBounder.DropAttestation` | agent/cmd/breeze-backup/result_bounds.go:264-279 | a dropped manifest takes a present attestation along, logged once |
| `ResultBounder.ReduceToScalars` | agent/cmd/breeze-backup/result_bounds.go:650-704 | the loop over the members computes the tier-3 object |
| `ResultBounder.FitBackupResult` | agent/cmd/breeze-backup/result_bounds.go:198-315 | the whole function on one mutable object computes the specified result, log and limit, with the command id, stderr and duration kept as ResultAnswers says |
| `Histogram.PercentileIsLeast` | scripts/topology/ingest-soak.ts:183-187 | the sort-based percentile is the least value that as many samples as its rank do not exceed; what that rank means is PercentileMeans |
| `Histogram.PercentileMeans` | scripts/topology/ingest-soak.ts:183-187 | the sort-based percentile is a sample that at least the fraction of samples do not exceed, while fewer do not exceed any smaller value; the least sample for no fraction and the greatest for more than all |
| `Histogram.RankCounts` | scripts/topology/ingest-soak.ts:183-187 | the rank used there is the number of samples at or below a value |
| `Histogram.Agrees` | scripts/topology/ingest-soak.ts:174-187 | with no wrapped bucket below the cap, the histogram answers the percentile of the sorted clamped samples, for every fraction |
| `Histogram.WrapShows` | scripts/topology/ingest-soak.ts:168-180 | the first wrapped bucket below the cap makes the percentile at its own rank too high |
| `Histogram.AgreesIffUnwrapped` | scripts/topology/ingest-soak.ts:163-187 | the two agree for all fractions exactly when no bucket below the cap wrapped |
| `Histogram.FewSamplesNeverWrap` | scripts/topology/ingest-soak.ts:161-166 | fewer than 2^32 samples never wrap a bucket |
| `Histogram.LoopAlwaysReturns` | scripts/topology/ingest-soak.ts:178-179 | with between one and 2^32 - 1 samples the loop reaches its rank, so the final return is not reached |
| `Histogram.MsHistogram.Record` | scripts/topology/ingest-soak.ts:168-173 | the counters stay the wrapped tallies of all rounded, clamped samples and max their exact maximum, above the cap too; a sample counts as its nearest whole millisecond, halves up, and as zero when negative |
| `Histogram.BucketsCount` | scripts/topology/ingest-soak.ts:161-173 | each counter is the number of clamped samples in its bucket modulo 2^32 |
| `Histogram.MsHistogram.Percentile` | scripts/topology/ingest-soak.ts:174-180 | the loop computes the specified percentile; with samples and no wrapped bucket below the cap it is the percentile of the clamped samples in the sense of PercentileMeans, and zero without samples |
| `RevisionTracker.TrackExact` | scripts/topology/ingest-soak.ts:369-373 | pushing and sorting keeps every queue equal to its site's never-covered revisions, sorted, equal ones in order of acceptance |
| `RevisionTracker.PollExact` | scripts/topology/ingest-soak.ts:356-364 | so does draining up to any high-water mark and dropping an emptied site |
| `RevisionTracker.DrainSplits` | scripts/topology/ingest-soak.ts:359-362 | the loop pops exactly what the mark covers and leaves exactly what exceeds it |
| `RevisionTracker.Drain` | scripts/topology/ingest-soak.ts:359-362 | the loop splits the queue into popped entries the mark covers and the rest it does not, and collects, in steady state, the time since acceptance of each popped entry |
| `RevisionTracker.TimedOrLost` | scripts/topology/ingest-soak.ts:349-373 | in every history each accepted revision is timed once, first covered before steady state, or lost |
| `RevisionTracker.FirstCoverIsFirst` | scripts/topology/ingest-soak.ts:356-362 | the poll row a revision is timed or passed by is the first one that covers it |
| `RevisionTracker.TrackConserves` | scripts/topology/ingest-soak.ts:369-373 | accepting a revision adds exactly it to what is popped or pending for its site |
| `RevisionTracker.PollConserves` | scripts/topology/ingest-soak.ts:356-364 | a poll row only moves entries from pending to popped, so accepted stays popped plus pending, entry by entry |
| `RevisionTracker.Tracker.Track` | scripts/topology/ingest-soak.ts:369-373 | records the acceptance and keeps queues, latencies and accepted equal to popped plus pending for the whole history |
| `RevisionTracker.Tracker.PollRow` | scripts/topology/ingest-soak.ts:355-364 | records the poll row, pops only covered revisions of its site, leaves only revisions above the mark, and keeps queues, latencies and accepted equal to popped plus pending for the whole history |
| `RevisionTracker.Tracker.Lost` | scripts/topology/ingest-soak.ts:498-498 | the final count is exactly the accepted revisions that no later poll row covered |
| `MediaClock.UnwrapsExactly` | e2e-tests/perf-harness/summarize.ts:71-77 | two timestamps give the true tick difference exactly when it is below half the range, or half of it without crossing a wrap |
| `MediaClock.DeltaMisread` | e2e-tests/perf-harness/summarize.ts:71-77 | otherwise they are off by whole wraps |
| `MediaClock.HalfRangeFlips` | e2e-tests/perf-harness/summarize.ts:71-77 | at every wrap, a step of half the range across it reads as half the range back |
| `MediaClock.ElapsedTelescopes` | e2e-tests/perf-harness/summarize.ts:91-94 | the summed deltas are last minus first, less the wraps lost on the way |
| `MediaClock.PacingIsTrue` | e2e-tests/perf-harness/summarize.ts:95-98 | for a stream that unwraps, the pacing errors are the distances between arrival spacing and true media spacing at 90 ticks a millisecond, and exactly the pairs that went backwards are skipped |
| `MediaClock.MediaClockMetrics` | e2e-tests/perf-harness/summarize.ts:78-106 | the loop computes the drift and the pacing series; nothing for fewer than two frames |
| `MediaClock.DriftIsTrue` | e2e-tests/perf-harness/summarize.ts:100-102 | drift is wall time minus true media time when every pair unwraps, and always up to whole wraps |
| `MediaClock.InteriorIrrelevant` | e2e-tests/perf-harness/summarize.ts:58-70 | any reordering or replacement of the interior frames whose pairs unwrap leaves the drift unchanged, over any number of wraps |
| `RebuildWatchdog.WindowMonotone` | agent/cmd/breeze-backup/rebuild_budget.go:56-71 | more downloaded bytes never shorten the window, and tool phases never exceed the ceiling; how long the window is is WindowMeans |
| `RebuildWatchdog.WindowMeans` | agent/cmd/breeze-backup/rebuild_budget.go:56-71 | streaming phases get the stall window; a tool phase gets the floor or, when longer, the whole nanoseconds its downloaded bytes take at the given rate, capped by the ceiling |
| `RebuildWatchdog.FieldsFollow` | agent/cmd/breeze-backup/rebuild_budget.go:158-170 | reports and downloaded bytes both count as activity, only reports change the phase, and bytes add up |
| `RebuildWatchdog.NeverStalledIff` | agent/cmd/breeze-backup/rebuild_budget.go:128-170 | no run whose reports are at most the stall window apart is ever called stalled, in any phase, exactly when that window is no longer than the tool floor and the ceiling |
| `RebuildWatchdog.SilentIsStopped` | agent/cmd/breeze-backup/rebuild_budget.go:145-152 | a run gone silent is cancelled by the first tick past its last phase's window, with that phase, idle time and window, and by no earlier one |
| `RebuildWatchdog.RunFirst` | agent/cmd/breeze-backup/rebuild_budget.go:128-155 | the first event that ends the watch decides its outcome |
| `RebuildWatchdog.RunStep` | agent/cmd/breeze-backup/rebuild_budget.go:128-155 | while the watch goes on, the end of the run, the ceiling and a tick past the window each end it with their own outcome, and nothing else does |
| `RebuildWatchdog.RunSettled` | agent/cmd/breeze-backup/rebuild_budget.go:128-155 | nothing that comes later changes an outcome |
| `RebuildWatchdog.Watchdog.Report` | agent/cmd/breeze-backup/rebuild_budget.go:158-162 | the fields stay the last phase, last report time and byte sum of the history |
| `RebuildWatchdog.Watchdog.Download` | agent/cmd/breeze-backup/rebuild_budget.go:165-170 | so they do for downloaded bytes |
| `RebuildWatchdog.Watchdog.Turn` | agent/cmd/breeze-backup/rebuild_budget.go:133-153 | one case of the select gives the verdict of the history |
| `RebuildWatchdog.Watch` | agent/cmd/breeze-backup/rebuild_budget.go:128-155 | the loop over a run computes its specified outcome |
| `HypervPreflight.Group` | agent/cmd/breeze-backup/exec_hyperv_preflight.go:101-113 | the first loop lists each volume once, in order of first mention, with its first directory, its 64-bit sum and all its purposes |
| `HypervPreflight.VolumesInOrder` | agent/cmd/breeze-backup/exec_hyperv_preflight.go:101-113 | the volumes are those of the needs that mention theirs first, in that order, each with the directory named there |
| `HypervPreflight.WrapCongruent` | agent/cmd/breeze-backup/exec_hyperv_preflight.go:111-111 | a machine sum is within 64 bits and off the true one by whole multiples of 2^64 |
| `HypervPreflight.CheckSpace` | agent/cmd/breeze-backup/exec_hyperv_preflight.go:95-133 | accepts exactly when every readable volume has its sum plus headroom; on success the warnings are exactly the unreadable volumes in order, on refusal the first volume without room is named |
| `HypervPreflight.SkippedMeans` | agent/cmd/breeze-backup/exec_hyperv_preflight.go:114-122 | the skipped directories are those of exactly the volumes that cannot be read, in order |
| `HypervPreflight.OrderIrrelevant` | agent/cmd/breeze-backup/exec_hyperv_preflight.go:91-133 | the verdict does not depend on the order of the needs when free space depends only on the volume |
| `HypervPreflight.PromiseIffInRange` | agent/cmd/breeze-backup/exec_hyperv_preflight.go:91-133 | for all disk states the verdict is the one of the true sums, exactly when each volume's true sum plus headroom stays within 64 bits |
| `HypervPreflight.WrappedSumAccepted` | agent/cmd/breeze-backup/exec_hyperv_preflight.go:111-124 | a restore of 2^62 bytes with staging and import on one volume is accepted when that reports nothing free |
| `HypervPreflight.SizeOf` | agent/cmd/breeze-backup/exec_hyperv_preflight.go:162-167 | the recorded size when positive, else its 64-bit sum with the file sizes, which is the true sum while in range |
| `HypervPreflight.PreflightRestore` | agent/cmd/breeze-backup/exec_hyperv_preflight.go:158-194 | no manifest or no size passes, with a warning for the latter; otherwise the verdict of the needs of download and import, with exactly the checks that could not be made as warnings, on refusal those before the volume it names |
| `HypervPreflight.RestoreCopies` | agent/cmd/breeze-backup/exec_hyperv_preflight.go:154-194 | for every size, staging and import on one readable volume need two copies plus headroom, on two volumes one copy plus headroom each, as 64-bit sums that are the true ones exactly while in range |

## Left out

- IPC transport, authentication, logging, configuration, vaults and the bodies of the `exec*` handlers: calls into packages that are not part of this model.
- The blocking loops of `wait`, `waitDone` and the heartbeat goroutine: each turn is a transition of `HelperSystem`, not an iteration of a method, because it may interleave with every other handler. Ticker periods and fairness are not modelled.
- QueueProgress.Drains: shows that the handlers' steps can always bring every done channel to its close; that the Go scheduler takes them is assumed.
- Untargeted `backup_stop` and the idle timeout of the command loop; `CancelAll` models the canceller's part of them.
- JSON text: parsing and printing are at value level. The encoder is any function, which covers changed whitespace and key order; case-insensitive matching of struct field names in the last tier is not modelled.
- ResultDelivery.AlwaysFits: lengths are at most 2^64 bytes and the duration at most 20 digits, as every Go string and int64 is.
- ResultNotes.NotesDelivered: for a warning that is valid UTF-8 and member names that do not hold the note label; a warning that is a container is covered when there is a file index to empty, and can otherwise be dropped in tier 3.
- ResultNotes.EmptiedIndexIsNoted: for a warning that is valid UTF-8 and member names that do not hold the note label.
- ResultNotes.DroppedIsNamed: for the same warnings and member names as NotesDelivered.
- ResultNotes.WarningLeads: for the same warnings and member names as NotesDelivered.
- TerminalStatus.MinimalIsJson: for the same warnings and member names as NotesDelivered, and identifying strings that are valid UTF-8.
- ResultContents.ScalarsSurvive: leaves out the warning member, of which NotesDelivered says what becomes, and the minimal status, which MinimalIdentifies covers.
- `sendBackupResult` and its log line; the log notes of `fitBackupResult` are values, not text.
- `mean` (the sum over the count), the linearly interpolated percentile and the rounding to two digits of `summarize.ts`, which turn the pacing series into two summary numbers.
- Floating point: fractions, samples, arrival times and the byte scaling are exact reals; the histogram's `samples` is unbounded.
- MediaClock.DriftIsTrue: gives the drift without the final rounding to two digits.
- Reading the pending sites before the database answers: a poll row here may name any site at any time, which includes every such order.
- `annotateBudgetFailure` and the text of the watchdog's error. The watchdog's byte counter and durations are unbounded integers.
- `preflightHypervExport`, the staging heartbeat and the orphan sweep beside the Hyper-V preflight: thin wrappers or file system work.
