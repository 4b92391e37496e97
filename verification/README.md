# CommerceVision web client: durable commands and recovery

The web client of CommerceVision sends its writes under idempotency keys, keeps
the commands it has not seen settled in browser storage, and recovers them when a
page loads again.  This project models that code and proves what it keeps over
every run, and where it does not keep it, exactly when.

`dafny verify dfyconfig.toml` checks the whole project.

## The modules

- `Texts`, `Json`, `JsonEncoding`, `CanonicalJson`: UTF-16 texts, JSON values with
  every finite number as ECMA-262 prints it, `JSON.stringify`, and the key-sorting
  `canonicalize` behind the fingerprints.
- `PendingCommand`, `PendingLedger`: the sealed record of a Brand Profile command
  and the ledger of them in one storage item.
- `BrandController`, `BrandCoordinator`, `BrandWorkbench` and their `Runs` and
  `Recovery` modules: the controller's generation tokens, the replay of a
  persisted command, and the page's write paths.
- `BrandProtocol`, `BrandProtocolRuns`, `BrandRefinement`: the page, its ledger and
  an idempotent server as a state machine with crashes, lost requests and late
  answers; the workbench's calls are proved to be runs of it.
- `EventStream`, `EventChunking`, `EventReconnect`, `EventReconnectRuns`: the event
  parser, its independence of chunking, and the reconnect loop against the framing
  of the server.
- `KeyCodec`, `BriefFields`, `BriefRecord`, `BriefRoundTrip`, `BriefPersistence(Runs)`,
  `BriefRetention(Runs)`, `BriefController(Runs)`: storage keys, the canonical form
  of a revised field, stored Product Brief records, the retention timer, and the
  controller with its polling budget.
- `BriefWorkbench`, `BriefProtocol`, `BriefProtocolRuns`, `BriefIdentityRuns`,
  `BriefPendingRuns`, `BriefOverlaps`, `BriefDeadlines(Runs)`: the Product Brief protocol
  step by step, between two waits of the hook's callbacks, and its runs.
- `JsonBudget`, `UploadWorkflow`, `UploadRuns`, `Labels`: the bounded decoder, the
  upload reducer and its storage, label allocation and line lists.

Classes stand for the objects and hooks whose fields the source updates; each
method is proved equal to a function of the old state, and the results are
proved about those functions and their runs.

## Findings

Where a promise of the code does not hold, the input and the exact condition are
proved.

- Pending Product Brief commands and overlapping operations.  `analyze`, `confirm`
  and `load` test for a pending command only before they wait, and `busy` is a
  matter of the user interface.  `BriefOverlaps` starts from empty storage: an
  analysis is started on the empty page and two confirmations on the brief then
  shown; all pass their guards (`GuardsHold`).  After the first confirmation is
  pending (`PendingIsReached`), the second replaces it and both are sent
  (`SecondClickReplaces`), the refusal of the analysis deletes its record
  (`RefusedAnalysisDeletesRecord`), and another analysis, an accepted one or a load
  of another brief takes the record.  `StepKeepsIff` says for every step exactly
  when memory and record keep the command, and `HeldUntilReleased` says it for
  whole runs.  The releasing steps are: an answer, refusal or resolution that
  settles it; the server's word that the brief is gone; the passing of the
  deadline; another identity or a marker that does not name the identity; and
  the overlaps above.  A load begun before the command was sent is no danger: the
  sending outdates its token (`BriefControllerRuns.TokenNeverAcceptedAgain`).
- A version published by the Brand Profile controller can go back, through a
  recorded conflict whose authority is older (`ConflictCanGoBack`) or a create
  answered with the profile already shown (`CreateCanGoBack`);
  `VersionsGoBackOnlyInConflicts` says there is no other way.
- A recorded conflict compares profile keys, not ids: where two profiles share a
  key, the history of one can stay beside the other (`ConflictKeepsHistoryIff`,
  `ConflictCanMisleadHistory`).
- While a conflict is open and the draft is clean, a further server advance
  replaces the attempted draft unless it is the local one
  (`OpenConflictKeepsAttemptIff`); `OpenConflictCanLoseAttempt` is a run that loses it.
- A replay answered by a 409 marked retryable may be discarded by hand although
  its outcome is uncertain, because the coordinator tests for a conflict first; the
  first sending is stricter (`UncertainReplayDiscardsIff`).  In
  `RetryableConflictForgetsEffect` the record so discarded is that of a write the
  server has carried out.
- A failed auxiliary read re-arms polling even after a terminal status
  (`TerminalCanRearm`, reached in `TerminalIsRearmed`).
- Only image uploads survive a reload while they are being created (`LoraIsLost`,
  `RoundTripIff`).
- The stored deadline of one brief and workflow can move later, where two analyses
  of it overlap.  `analyze` reckons with the record only if it is no analysis and
  names the operation in memory, so the second of two analyses may store a later
  deadline than the first (`AnalysisKeepsDeadlineIff`, reached from empty storage in
  `AnalysisMovesDeadlineLater`).  And the brief of an accepted analysis is loaded
  under a ceiling taken from the record the analysis started from; when a second
  analysis has meanwhile stored a sooner deadline, the load passes over it
  (`AcceptanceKeepsDeadlineIff`, reached in `AcceptanceMovesDeadlineLater`).
  `DeadlineNeverLater` covers every other step, and these two whenever what they
  were given stays within the record (`StaysWithin`); an accepted analysis whose
  record nothing has replaced always does (`AcceptedLoadStaysWithin`).

## What is assumed of the environment

- `ParsesJson`: JSON.parse inverts JSON.stringify on values JSON.parse can yield
  (safe or printable numbers, no key twice, index-like keys first and ascending).
  Some parser does (`SupportExists`).  Infinity, as `1e400` parses, is no value of
  the model.
- SHA-256 is a function of the text.  Where equal fingerprints have to mean equal
  values, the lemma assumes that the digest does not collide on exactly the two
  texts at hand (`Separates`).
- `Canonicalizes`: the environment's canonical form of a revised field is the one
  `BriefFields` models, for values JavaScript can hold; that it is its own canonical
  form is proved there.  `Browser` in `BriefOverlaps` is an environment that meets
  this and everything above.
- Browser storage does not fail, and one ledger operation is not interrupted.
- The server of the Brand Profile protocol stores one outcome per key, answers a
  known key with it, and may replace any answer by one that decides nothing; the
  one restriction is that a new outcome is not hidden behind anything but an
  uncertain answer.
- The event server continues strictly after the cursor it is asked for, with
  distinct cursors, in the framing of `workflow_sse.py`.
- Timers fire no earlier than asked; cancelling may or may not work.

## Model

| member | source | states |
|---|---|---|
| CanonicalJson.CanonicalizeDecidesSame | apps/web/lib/brand-profile-pending-command.ts:101-128 | two JSON values, with any finite numbers, have the same canonical text exactly when they are the same value up to the order of object fields |
| CanonicalJson.FingerprintDecidesSame | apps/web/lib/brand-profile-pending-command.ts:136-156 | equal fingerprints mean the same value up to field order, unless the digest collides on these two texts |
| JsonEncoding.StringifyInjective | apps/web/lib/brand-profile-pending-command.ts:101-128 | JSON.stringify loses nothing: equal texts come from equal values |
| PendingCommand.SupportExists | apps/web/lib/brand-profile-pending-command.ts:321-360 | some JSON.parse meets everything the ledger relies on |
| PendingCommand.PlatformSupportsLedger | apps/web/lib/brand-profile-pending-command.ts:283-402 | the record tests and the record comparison of the source are all the ledger relies on, given a parser that inverts JSON.stringify |
| PendingCommand.SameCommandSameContent | apps/web/lib/brand-profile-pending-command.ts:158-183 | two sealed records that sameCommand equates carry the same payload and attempted draft although it compares neither |
| PendingCommand.CreatedCommandIsSealed | apps/web/lib/brand-profile-pending-command.ts:404-432 | a created record carries both of its own fingerprints, so it verifies exactly when its shape is acceptable |
| PendingLedger.SavePreservesAndReadsBack | apps/web/lib/brand-profile-pending-command.ts:434-474 | a save succeeds exactly when the record verifies and its owner has none; it is then what the owner reads, and no other owner sees a difference |
| PendingLedger.ClearRemovesExactly | apps/web/lib/brand-profile-pending-command.ts:492-509 | a clear removes the one matching record and keeps the rest in order |
| PendingLedger.ClearMissesExactly | apps/web/lib/brand-profile-pending-command.ts:492-509 | a clear reports a miss exactly when no record matches, and then changes nothing |
| PendingLedger.ClearWhatWasRead | apps/web/lib/brand-profile-pending-command.ts:476-509 | clearing what a read returned succeeds, leaves its owner without a record and every other owner with the one it had |
| PendingLedger.EveryRunIsSound | apps/web/lib/brand-profile-pending-command.ts:321-509 | from empty storage, after any saves and clears, what is stored verifies and each workspace and brand owns at most one record |
| PendingLedger.UnverifiableIsNeverChanged | apps/web/lib/brand-profile-pending-command.ts:321-360 | storage that does not verify is left byte for byte as it is by every run |
| PendingLedger.Ledger.ReadCommands | apps/web/lib/brand-profile-pending-command.ts:321-360 | reads absence, the verified records in order, or the reason why storage cannot be trusted |
| PendingLedger.Ledger.WriteCommands | apps/web/lib/brand-profile-pending-command.ts:362-371 | no records means no item; otherwise the serialized list |
| PendingLedger.Ledger.Save | apps/web/lib/brand-profile-pending-command.ts:434-474 | the new ledger item and the outcome, and an unchanged item for every outcome but a save |
| PendingLedger.Ledger.Read | apps/web/lib/brand-profile-pending-command.ts:476-490 | the owner's one record, none, or a refusal when there are several or storage is unverifiable |
| PendingLedger.Ledger.Clear | apps/web/lib/brand-profile-pending-command.ts:492-509 | the new ledger item and the outcome, and an unchanged item unless a record was cleared |
| BrandControllerRuns.ReachableIsCoherent | apps/web/lib/brand-profile-workbench-controller.ts:147-564 | in every reachable snapshot profile, draft, validation and conflict agree with each other and with the identity |
| BrandControllerRuns.ReachableHistoryBelongs | apps/web/lib/brand-profile-workbench-controller.ts:486-564 | when profile keys determine ids, the history shown is strictly descending and the published profile's own |
| BrandControllerRuns.ConflictKeepsHistoryIff | apps/web/lib/brand-profile-workbench-controller.ts:349-383 | without that hypothesis a recorded conflict keeps the history right exactly when the id is unchanged or there is no history |
| BrandControllerRuns.ConflictCanMisleadHistory | apps/web/lib/brand-profile-workbench-controller.ts:349-383 | a run of the controller in which the conflict of a mutation of another profile with the same key leaves the first profile's history shown |
| BrandControllerRuns.VersionsGoBackOnlyInConflicts | apps/web/lib/brand-profile-workbench-controller.ts:205-347 | exactly when a published version can go back: an older conflict authority, or a create answered with the profile already shown |
| BrandControllerRuns.ConflictCanGoBack | apps/web/lib/brand-profile-workbench-controller.ts:349-383 | a run in which recording a conflict replaces version 3 by version 2 |
| BrandControllerRuns.CreateCanGoBack | apps/web/lib/brand-profile-workbench-controller.ts:303-347 | a run in which a create, answered with the profile already shown, replaces version 3 by version 1 |
| BrandControllerRuns.DirtyDraftSurvivesRead | apps/web/lib/brand-profile-workbench-controller.ts:205-270 | a read that does not reset keeps a dirty draft and opens a conflict with the newer profile |
| BrandControllerRuns.OpenConflictKeepsAttemptIff | apps/web/lib/brand-profile-workbench-controller.ts:228-248 | with a clean draft and an open conflict, a further advance keeps the attempted draft exactly when it already is the local one |
| BrandControllerRuns.OpenConflictCanLoseAttempt | apps/web/lib/brand-profile-workbench-controller.ts:228-248 | a run in which a conflict with version 2, followed by a read of version 3, keeps the server's second draft as the attempted one |
| BrandControllerRuns.TokenNeverAcceptedAgain | apps/web/lib/brand-profile-workbench-controller.ts:175-218 | a token outdated once, by an identity change, a newer token, an accepted mutation or a conflict, never changes the state again |
| BrandControllerRuns.BegunTokensAreIssued | apps/web/lib/brand-profile-workbench-controller.ts:196-203 | a token just begun is one of those issued |
| BrandControllerRuns.CloneIdempotent | apps/web/lib/brand-profile-workbench-controller.ts:89-104 | cloning a cloned draft changes nothing |
| BrandController.Controller.constructor | apps/web/lib/brand-profile-workbench-controller.ts:156-167 | starts with the initial snapshot of its identity |
| BrandController.Controller.ChangeIdentity | apps/web/lib/brand-profile-workbench-controller.ts:175-194 | a different identity restarts the snapshot and outdates all tokens; the same one changes nothing |
| BrandController.Controller.BeginProfileRead | apps/web/lib/brand-profile-workbench-controller.ts:196-203 | issues the newest profile token |
| BrandController.Controller.PublishProfile | apps/web/lib/brand-profile-workbench-controller.ts:205-270 | the whole new state of an accepted read, unchanged when refused |
| BrandController.Controller.EditDraft | apps/web/lib/brand-profile-workbench-controller.ts:272-280 | the draft and whether it is dirty |
| BrandController.Controller.BeginMutation | apps/web/lib/brand-profile-workbench-controller.ts:282-301 | issues a token that remembers profile, version and attempted draft |
| BrandController.Controller.PublishMutation | apps/web/lib/brand-profile-workbench-controller.ts:303-347 | the whole new state of an accepted mutation, unchanged when refused |
| BrandController.Controller.RecordVersionConflict | apps/web/lib/brand-profile-workbench-controller.ts:349-383 | the conflict and the authoritative profile, unchanged when refused |
| BrandController.Controller.RestoreConflictDraft | apps/web/lib/brand-profile-workbench-controller.ts:385-397 | the attempted draft becomes the dirty local one |
| BrandController.Controller.DiscardConflictDraft | apps/web/lib/brand-profile-workbench-controller.ts:399-402 | as DiscardLocalChanges, when a conflict is open |
| BrandController.Controller.DiscardLocalChanges | apps/web/lib/brand-profile-workbench-controller.ts:404-415 | the draft is the profile's again and the conflict is gone |
| BrandController.Controller.BeginValidation | apps/web/lib/brand-profile-workbench-controller.ts:417-433 | issues a validation token for the clean published version |
| BrandController.Controller.PublishValidation | apps/web/lib/brand-profile-workbench-controller.ts:435-458 | the validation of exactly that version, or nothing |
| BrandController.Controller.InvalidateValidation | apps/web/lib/brand-profile-workbench-controller.ts:460-472 | no validation, and none in flight accepted |
| BrandController.Controller.ExpireValidation | apps/web/lib/brand-profile-workbench-controller.ts:474-484 | the validation goes when its time is over |
| BrandController.Controller.BeginHistoryRead | apps/web/lib/brand-profile-workbench-controller.ts:486-502 | issues the newest history token |
| BrandController.Controller.PublishHistory | apps/web/lib/brand-profile-workbench-controller.ts:504-564 | appends the unseen versions of one profile, or nothing |
| BrandController.Controller.FailHistory | apps/web/lib/brand-profile-workbench-controller.ts:566-580 | ends the loading state of the newest history read only |
| BrandController.Controller.BeginVersionRead | apps/web/lib/brand-profile-workbench-controller.ts:582-595 | issues the newest version token |
| BrandController.Controller.PublishVersion | apps/web/lib/brand-profile-workbench-controller.ts:597-620 | the selected version, or nothing |
| BrandRecovery.ResolvedIff | apps/web/lib/brand-profile-command-coordinator.ts:264-548 | a recovery ends resolved exactly when an administrator's replay was answered as asked, a later head confirms it and can be shown, and the ledger still held the record |
| BrandRecovery.RecordRemovedIffResolved | apps/web/lib/brand-profile-command-coordinator.ts:181-213 | the ledger changes only when a recovery resolves, and then by removing the record |
| BrandRecovery.ResolvedRemovesExactly | apps/web/lib/brand-profile-command-coordinator.ts:181-213 | a resolved recovery leaves the owner without a record and every other owner's in place |
| BrandRecovery.OnlyTheCommandIsSent | apps/web/lib/brand-profile-command-coordinator.ts:302-548 | every write a recovery sends is the record's own, with its key and payload, and it sends one exactly when an administrator is shown the profile |
| BrandRecovery.AcceptedAnswerHoldsAttempt | apps/web/lib/brand-profile-command-coordinator.ts:103-134 | an accepted answer holds the attempted draft, whatever the action, unless the digest collides |
| BrandRecovery.ConflictKeepsAttempt | apps/web/lib/brand-profile-command-coordinator.ts:228-262 | a conflicting replay removes nothing and keeps the attempt as a local draft |
| BrandCoordinator.Coordinator.ConfirmAcceptedMutation | apps/web/lib/brand-profile-command-coordinator.ts:264-300 | its result, the requests it sends, and the controller and ledger it leaves, for any answers |
| BrandCoordinator.Coordinator.Recover | apps/web/lib/brand-profile-command-coordinator.ts:302-327 | its result, the requests it sends, and the controller and ledger it leaves, for any answers |
| BrandCoordinator.Coordinator.RecoverCreate | apps/web/lib/brand-profile-command-coordinator.ts:329-389 | its result, the requests it sends, and the controller and ledger it leaves, for any answers |
| BrandCoordinator.Coordinator.RecoverExisting | apps/web/lib/brand-profile-command-coordinator.ts:391-434 | its result, the requests it sends, and the controller and ledger it leaves, for any answers |
| BrandCoordinator.Coordinator.RecoverUpdate | apps/web/lib/brand-profile-command-coordinator.ts:436-490 | its result, the requests it sends, and the controller and ledger it leaves, for any answers |
| BrandCoordinator.Coordinator.RecoverPublish | apps/web/lib/brand-profile-command-coordinator.ts:492-548 | its result, the requests it sends, and the controller and ledger it leaves, for any answers |
| BrandWorkbenchRuns.EveryRunMirrors | apps/web/app/use-brand-profile-workbench.ts:460-684 | from a sound ledger, over any loads, submissions and discards, the page is frozen exactly while the ledger holds its record |
| BrandWorkbench.PublishedAnswersRecord | apps/web/app/use-brand-profile-workbench.ts:768-860 | an answer the controller publishes answers the saved record: profile, next version and draft |
| BrandWorkbench.Workbench.FailClosedOnAuthorityLoss | apps/web/app/use-brand-profile-workbench.ts:186-195 | losing the authority takes the right to administer |
| BrandWorkbench.Workbench.ClearPending | apps/web/app/use-brand-profile-workbench.ts:197-230 | the record is gone and the page free, or it stays and the page is frozen |
| BrandWorkbench.Workbench.ReconcileExplicitDiscardConflict | apps/web/app/use-brand-profile-workbench.ts:253-313 | whether the authoritative profile could be shown, and the controller it leaves |
| BrandWorkbench.Workbench.Submit | apps/web/app/use-brand-profile-workbench.ts:768-860 | ledger, controller, authority and requests after a submission, for any answers |
| BrandWorkbench.Workbench.RecoverPending | apps/web/app/use-brand-profile-workbench.ts:460-564 | ledger, controller, authority and requests after a recovery, for any answers |
| BrandWorkbench.Workbench.Open | apps/web/app/use-brand-profile-workbench.ts:566-684 | what loading the page leaves, recovery included |
| BrandWorkbench.Workbench.DiscardPendingAuthority | apps/web/app/use-brand-profile-workbench.ts:1171-1186 | a record is discarded only where that is allowed |
| BrandRefinement.SubmissionRefines | apps/web/app/use-brand-profile-workbench.ts:768-1143 | a submission is a run of the protocol: save, send once, take in any answer or none, confirm, remove |
| BrandRefinement.RecoveryRefines | apps/web/app/use-brand-profile-workbench.ts:460-564 | a recovery is a run of the protocol: one replay and the way with its answer, or setting the record aside |
| BrandRefinement.OpeningRefines | apps/web/app/use-brand-profile-workbench.ts:566-684 | loading the page is the protocol's opening, followed by the recovery of what it finds |
| BrandRefinement.DiscardingRefines | apps/web/app/use-brand-profile-workbench.ts:1171-1186 | discarding is the protocol's discard |
| BrandProtocolRuns.EachKeyAppliedOnce | apps/web/app/use-brand-profile-workbench.ts:460-1143 | in every run, with crashes, losses and late answers, a key is carried out at most once and every resend carries the same key and payload |
| BrandProtocolRuns.SentOnlyWhileOnRecord | apps/web/app/use-brand-profile-workbench.ts:768-1143 | a request leaves only while the ledger holds its record |
| BrandProtocolRuns.RecordsLeaveOnlyWhenSettled | apps/web/app/use-brand-profile-workbench.ts:197-230 | a record leaves the ledger only confirmed, definitely refused and never carried out, or discarded by hand where allowed |
| BrandProtocolRuns.RefusedNeverApplied | apps/web/lib/brand-profile-command-coordinator.ts:71-87 | a write whose record was removed for a refusal is not carried out at any later time |
| BrandProtocolRuns.EveryEffectAccountedFor | apps/web/lib/brand-profile-command-coordinator.ts:181-213 | every write the server carried out has its record in the ledger, or was confirmed before the record went, or was discarded by hand |
| BrandProtocolRuns.DiscardOnlyAfterConflict | apps/web/lib/brand-profile-command-coordinator.ts:228-262 | discarding becomes possible only when a 409, or an answer that is not the record's, has come back |
| BrandProtocolRuns.UncertainReplayDiscardsIff | apps/web/lib/brand-profile-command-coordinator.ts:244-262 | exactly which uncertain answer to a replay allows discarding: a conflict marked retryable |
| BrandProtocolRuns.RetryableConflictForgetsEffect | apps/web/lib/brand-profile-command-coordinator.ts:228-262 | a run from the start in which the write is carried out, its replay is answered with a retryable conflict, and the record is discarded |
| EventChunking.ChunkingDoesNotMatter | apps/web/lib/workflow-event-stream.ts:105-216 | two ways of cutting a text that never overflow give the same calls, cursor, delay and error: those of its lines read one by one |
| EventChunking.ConsumingFoldsLines | apps/web/lib/workflow-event-stream.ts:196-216 | what reading in chunks computes, overflow included: the fold over the lines of what fits |
| EventChunking.LinesPartitionText | apps/web/lib/workflow-event-stream.ts:200-207 | the lines are the text but for line ends and the unterminated tail |
| EventChunking.ReadableIffLinesFit | apps/web/lib/workflow-event-stream.ts:196-216 | some cutting avoids the overflow exactly when every line and the tail are within the bound |
| EventStream.StreamReader.Dispatch | apps/web/lib/workflow-event-stream.ts:112-150 | the reader a blank line leaves: handler called, cursor committed only after it succeeded |
| EventStream.StreamReader.AcceptLine | apps/web/lib/workflow-event-stream.ts:152-194 | the reader one line leaves, for every field and limit |
| EventStream.StreamReader.Consume | apps/web/lib/workflow-event-stream.ts:105-216 | the reader and the error after all chunks |
| EventReconnectRuns.DeliveryRead | services/api/src/commercevision_api/workflow_sse.py:93-109 | one framed event, read whole, calls its handler and commits its cursor exactly when the handler succeeds |
| EventReconnectRuns.NoEventSkipped | apps/web/lib/use-creative-plan-workbench.ts:326-380 | from any cursor that names a log position, over any connections and handler failures, the committed cursors are those of the following events, in order and without a gap |
| EventReconnectRuns.VisitCaughtUp | apps/web/lib/use-creative-plan-workbench.ts:243-250 | a first visit starts at the beginning of the log, a restored one where its stored cursor points |
| EventReconnectRuns.NoCursorTwice | apps/web/lib/use-creative-plan-workbench.ts:326-380 | no cursor is committed twice |
| EventReconnectRuns.CompleteSessionCommitsAll | services/api/src/commercevision_api/workflow_sse.py:93-131 | a session read to its end with succeeding handlers commits every event in it |
| EventReconnect.EventLink.Connect | apps/web/lib/workflow-event-stream.ts:64-223 | the cursor, calls, delay and error one connection leaves |
| EventReconnect.EventLink.Run | apps/web/lib/use-creative-plan-workbench.ts:326-380 | the cursor and calls after any connections, and whether the loop stopped and why |
| KeyCodec.KeysNameIdentities | apps/web/lib/product-brief-persistence.ts:139-173 | a storage key names an identity exactly when it is that identity's key, in both directions |
| KeyCodec.DecodeEncode | apps/web/lib/product-brief-persistence.ts:139-173 | percent-decoding undoes percent-encoding on every text that can be encoded |
| KeyCodec.EncodeAvoidsSeparator | apps/web/lib/product-brief-persistence.ts:139-148 | percent-encoding never emits the separator |
| KeyCodec.KeysDistinguish | apps/web/lib/product-brief-persistence.ts:139-148 | different identities have different keys |
| KeyCodec.KeyExistsIff | apps/web/lib/product-brief-persistence.ts:128-148 | an identity has a key exactly when it is bounded and free of lone surrogates |
| BriefFields.CanonicalFieldIsCanonical | apps/web/lib/product-brief-workbench-state.ts:63-339 | for every path and kind of value: the canonical form of a revised field is its own canonical form, and a value JSON.parse can yield |
| BriefFields.CanonicalFieldIsSame | apps/web/lib/product-brief-workbench-state.ts:96-339 | the canonical form is the field itself up to the order of object members: nothing is dropped, added or changed |
| BriefFields.ReadDimensions | apps/web/lib/product-brief-workbench-state.ts:155-192 | the loop over the dimensions: at most sixteen, each with its members in order, no name twice |
| BriefRoundTrip.CanonicalReadsBack | apps/web/lib/product-brief-persistence.ts:337-456 | whatever record is accepted, its canonical form is accepted as itself until the deadline and refused from then on |
| BriefRoundTrip.CommandBack | apps/web/lib/product-brief-workbench-state.ts:423-472 | a canonical command is its own canonical form |
| BriefPersistenceRuns.WrittenReadsBack | apps/web/lib/product-brief-persistence.ts:458-598 | a written record reads back as its canonical form until its deadline, and as absent and deleted from then on |
| BriefPersistenceRuns.SweepKeepsExactly | apps/web/lib/product-brief-persistence.ts:523-559 | a sweep keeps exactly the records that parse for the identity in their key and touches nothing outside the namespace |
| BriefPersistenceRuns.OthersUntouched | apps/web/lib/product-brief-persistence.ts:561-598 | a write touches no other item |
| BriefPersistenceRuns.SweepIsInvisible | apps/web/lib/product-brief-persistence.ts:523-559 | a sweep does not change what a read finds |
| BriefPersistenceRuns.StoredBelongsToMarker | apps/web/lib/product-brief-persistence.ts:175-238 | over runs of activate, write, read, clear and sweep every stored record belongs to the marker's identity |
| BriefPersistence.BriefStore.Parse | apps/web/lib/product-brief-persistence.ts:337-456 | the record in a text, if it is one in force for the identity |
| BriefPersistence.BriefStore.Read | apps/web/lib/product-brief-persistence.ts:458-484 | what is read, and the item deleted when it is not a record in force |
| BriefPersistence.BriefStore.Write | apps/web/lib/product-brief-persistence.ts:561-598 | whether a value is a record in force, stored in canonical form if so and removed if not |
| BriefPersistence.BriefStore.ClearRecord | apps/web/lib/product-brief-persistence.ts:600-615 | the identity's items gone and nothing else |
| BriefPersistence.BriefStore.Keys | apps/web/lib/product-brief-persistence.ts:486-504 | exactly the namespace's keys, each once |
| BriefPersistence.BriefStore.ClearNamespace | apps/web/lib/product-brief-persistence.ts:506-521 | everything outside the namespace, and how many items went |
| BriefPersistence.BriefStore.Sweep | apps/web/lib/product-brief-persistence.ts:523-559 | the surviving items and how many went |
| BriefPersistence.BriefStore.Activate | apps/web/lib/product-brief-persistence.ts:175-238 | the items of another identity gone, and the marker naming this one |
| BriefRetention.RetentionController.Activate | apps/web/lib/product-brief-persistence.ts:656-684 | the timer armed for the deadline, or the record expired at once |
| BriefRetention.RetentionController.ChangeIdentity | apps/web/lib/product-brief-persistence.ts:686-705 | the former activation dropped |
| BriefRetention.RetentionController.Dispose | apps/web/lib/product-brief-persistence.ts:707-711 | no activation and no timer |
| BriefRetention.RetentionController.ScheduleDeadline | apps/web/lib/product-brief-persistence.ts:713-747 | one timer within the platform's bound |
| BriefRetention.RetentionController.Fire | apps/web/lib/product-brief-persistence.ts:727-741 | expiry of the live activation when it is due, re-arming when not, nothing when superseded |
| BriefRetention.RetentionController.Expire | apps/web/lib/product-brief-persistence.ts:749-754 | the record removed before the callback |
| BriefRetentionRuns.DeadlinesEnforced | apps/web/lib/product-brief-persistence.ts:617-761 | in every run, whether or not cancelling works, no activation expires twice or early, and an active deadline has a timer due no later than it |
| BriefRetentionRuns.ExpiresOnlyLive | apps/web/lib/product-brief-persistence.ts:713-754 | only the live activation expires, and its record is gone by then |
| BriefRetentionRuns.SupersededNeverExpires | apps/web/lib/product-brief-persistence.ts:656-711 | a superseded activation never expires |
| BriefRetentionRuns.RearmingEnds | apps/web/lib/product-brief-persistence.ts:713-747 | after ceil(remaining / 2147483647) on-time firings the activation has expired |
| BriefRetentionRuns.ActivationArms | apps/web/lib/product-brief-persistence.ts:656-684 | activating a deadline in force arms such a timer |
| BriefControllerRuns.PollingWithinBudget | apps/web/lib/product-brief-workbench-controller.ts:255-415 | in every run at most 24 polls are counted before a terminal state, the 24th pauses, and all ids are the published brief's |
| BriefControllerRuns.AuxiliaryKeepsBudget | apps/web/lib/product-brief-workbench-controller.ts:294-339 | auxiliary reads never refund the budget, and restart polling only after a terminal state |
| BriefControllerRuns.TerminalCanRearm | apps/web/lib/product-brief-workbench-controller.ts:306-339 | after a terminal state a failed auxiliary read sets a delay again exactly when polling is not paused |
| BriefControllerRuns.TerminalIsRearmed | apps/web/lib/product-brief-workbench-controller.ts:294-339 | a run that reaches it: the operation is reported finished, polling ends, and the next auxiliary read fails |
| BriefControllerRuns.DelayWithin | apps/web/lib/operation-polling.ts:20-36 | the delay doubles from one second up to ten and jitter takes at most half |
| BriefControllerRuns.TokenNeverAcceptedAgain | apps/web/lib/product-brief-workbench-controller.ts:101-153 | a token that was outdated is refused at every later time, even when the identity changes back |
| BriefController.Controller.RestartIdentity | apps/web/lib/product-brief-workbench-controller.ts:101-109 | a fresh snapshot, all tokens outdated |
| BriefController.Controller.ChangeIdentity | apps/web/lib/product-brief-workbench-controller.ts:111-120 | the same for a different identity, nothing for the same one |
| BriefController.Controller.ExpireRetention | apps/web/lib/product-brief-workbench-controller.ts:122-131 | the same, marked as expired |
| BriefController.Controller.PublishBrief | apps/web/lib/product-brief-workbench-controller.ts:141-185 | the brief with its own operation and history, unchanged when refused |
| BriefController.Controller.PublishHistory | apps/web/lib/product-brief-workbench-controller.ts:204-235 | the unseen versions appended, or nothing |
| BriefController.Controller.FailHistory | apps/web/lib/product-brief-workbench-controller.ts:237-253 | loading ended for the newest read only |
| BriefController.Controller.PublishOperation | apps/web/lib/product-brief-workbench-controller.ts:264-292 | the operation of the published brief, or nothing |
| BriefController.Controller.CompleteAuxiliaryOperationRead | apps/web/lib/product-brief-workbench-controller.ts:294-304 | the operation published, polling re-armed unless terminal |
| BriefController.Controller.FailAuxiliaryOperationRead | apps/web/lib/product-brief-workbench-controller.ts:306-319 | polling re-armed |
| BriefController.Controller.CompleteOperationPoll | apps/web/lib/product-brief-workbench-controller.ts:341-367 | one more counted poll |
| BriefController.Controller.FailOperationPoll | apps/web/lib/product-brief-workbench-controller.ts:369-399 | one more counted poll |
| BriefController.Controller.ResumePolling | apps/web/lib/product-brief-workbench-controller.ts:401-415 | the budget starts afresh when paused |
| BriefController.Controller.RecoverCommand | apps/web/lib/product-brief-workbench-controller.ts:431-452 | the canonical form of an acceptable command remembered, nothing otherwise |
| BriefController.Controller.MarkVersionConflict | apps/web/lib/product-brief-workbench-controller.ts:454-467 | the matching revision marked |
| BriefController.Controller.SettleCommand | apps/web/lib/product-brief-workbench-controller.ts:469-483 | the matching command forgotten |
| BriefWorkbench.Workbench.WritePersisted | apps/web/lib/use-product-brief-workbench-controller.ts:623-670 | what is stored and whether the workbench was closed |
| BriefWorkbench.Workbench.InvalidateRetainedWorkbench | apps/web/lib/use-product-brief-workbench-controller.ts:597-621 | record and memory gone |
| BriefWorkbench.Workbench.BeginLoad | apps/web/lib/use-product-brief-workbench-controller.ts:858-859 | the read token and the record at the start |
| BriefWorkbench.Workbench.LoadCurrent | apps/web/lib/use-product-brief-workbench-controller.ts:838-978 | storage and controller after a loaded brief |
| BriefWorkbench.Workbench.SettlePendingCommand | apps/web/lib/use-product-brief-workbench-controller.ts:1019-1094 | storage and controller after a settlement, or nothing changed |
| BriefWorkbench.Workbench.Send | apps/web/lib/use-product-brief-workbench-controller.ts:1318-1360 | what is sent, if anything |
| BriefWorkbench.Workbench.Revise | apps/web/lib/use-product-brief-workbench-controller.ts:2205-2258 | storage, controller and requests of a revision |
| BriefWorkbench.Workbench.Confirm | apps/web/lib/use-product-brief-workbench-controller.ts:2321-2382 | the same for a confirmation once its workflow has arrived |
| BriefWorkbench.Workbench.Analyze | apps/web/lib/use-product-brief-workbench-controller.ts:2053-2112 | storage and controller of an analysis once its workflow has arrived |
| BriefWorkbench.Workbench.RequestAnalysis | apps/web/lib/use-product-brief-workbench-controller.ts:1104-1124 | the record an analysis is requested with, or the analysis remembered when it is no longer its record |
| BriefWorkbench.Workbench.AnalysisAccepted | apps/web/lib/use-product-brief-workbench-controller.ts:1135-1166 | the load an accepted analysis begins, with its ceiling, or the analysis remembered when the answer does not fit |
| BriefWorkbench.Workbench.AnalysisLoaded | apps/web/lib/use-product-brief-workbench-controller.ts:1171-1172 | the analysis forgotten |
| BriefWorkbench.Workbench.AnalysisLost | apps/web/lib/use-product-brief-workbench-controller.ts:1236-1242 | an analysis of unknown outcome remembered |
| BriefWorkbench.Workbench.AnalysisRefused | apps/web/lib/use-product-brief-workbench-controller.ts:1203-1234 | the prior brief restored or the record cleared |
| BriefWorkbench.Workbench.AnswerArrived | apps/web/lib/use-product-brief-workbench-controller.ts:1370-1408 | an answered command settled and its brief published |
| BriefWorkbench.Workbench.RefusalArrived | apps/web/lib/use-product-brief-workbench-controller.ts:1453-1486 | a refused command settled, or marked as a version conflict |
| BriefWorkbench.Workbench.ResolveRevisionConflict | apps/web/lib/use-product-brief-workbench-controller.ts:2570-2602 | the marked revision settled |
| BriefWorkbench.Workbench.ResultUnknown | apps/web/lib/use-product-brief-workbench-controller.ts:1487-1489 | the command remembered |
| BriefWorkbench.Workbench.RetryPending | apps/web/lib/use-product-brief-workbench-controller.ts:2559-2568 | the pending command sent again |
| BriefWorkbench.Workbench.Mount | apps/web/lib/use-product-brief-workbench-controller.ts:1692-1865 | storage, memory and requests when the page opens for an identity |
| BriefWorkbench.FindEarliestActive | apps/web/lib/use-product-brief-workbench-controller.ts:339-354 | the earliest of several deadlines if all are in force |
| BriefProtocol.MatchBothWays | apps/web/lib/product-brief-workbench-state.ts:474-493 | two commands match exactly when one is the other's canonical form, in either direction |
| BriefProtocol.ReadIsCanonical | apps/web/lib/product-brief-persistence.ts:458-484 | what is read is in force, about the identity and its own canonical form |
| BriefProtocolRuns.EveryRunSendsDurably | apps/web/lib/use-product-brief-workbench-controller.ts:244-259 | in every run, in whatever order, a revise or confirm request leaves only when memory and storage hold exactly its command as pending, and it names the identity's product |
| BriefProtocolRuns.SentIffDurable | apps/web/lib/use-product-brief-workbench-controller.ts:1318-1355 | a request leaves exactly when memory and storage hold its command as pending, and they still do afterwards |
| BriefProtocolRuns.WrittenIsRecovered | apps/web/lib/product-brief-workbench-controller.ts:431-452 | whatever the writer accepts, recoverCommand accepts |
| BriefProtocolRuns.SubmittingOutcome | apps/web/lib/use-product-brief-workbench-controller.ts:2227-2270 | a submission does nothing without a common deadline, is written, remembered and sent when storable, and closes the workbench otherwise |
| BriefPendingRuns.StepKeepsIff | apps/web/lib/use-product-brief-workbench-controller.ts:838-2602 | for every step: memory and record keep the pending command exactly when the step is not one of the listed releases, whose guards can be read before it |
| BriefPendingRuns.HeldUntilReleased | apps/web/lib/use-product-brief-workbench-controller.ts:838-2602 | over any run, both hold the pending command throughout exactly when no step releases it and its deadline does not pass |
| BriefPendingRuns.ConfirmKeepsIff | apps/web/lib/use-product-brief-workbench-controller.ts:2273-2386 | a resuming confirmation keeps the pending command exactly when the deadlines have nothing in common, or it is that very command and storable |
| BriefPendingRuns.AnalyzeKeepsIff | apps/web/lib/use-product-brief-workbench-controller.ts:2004-2114 | a resuming analysis keeps it exactly when it finds no common deadline |
| BriefPendingRuns.LoadKeepsIff | apps/web/lib/use-product-brief-workbench-controller.ts:838-978 | an arriving load keeps it exactly when it publishes nothing, or its own brief and that can be stored |
| BriefPendingRuns.AnalysisStepsKeep | apps/web/lib/use-product-brief-workbench-controller.ts:1096-1242 | an analysis requested again, accepted, loaded or lost keeps it; only the load of its brief may not, as LoadKeepsIff says |
| BriefPendingRuns.RefusalOfAnalysisReleases | apps/web/lib/use-product-brief-workbench-controller.ts:1203-1234 | a refused analysis always deletes the record of a pending command, which memory goes on holding |
| BriefPendingRuns.LostKeepsIff | apps/web/lib/use-product-brief-workbench-controller.ts:1487-1489 | an answer of unknown outcome keeps it exactly when it is about the same command or an unacceptable one |
| BriefPendingRuns.AnswerKeepsIff | apps/web/lib/use-product-brief-workbench-controller.ts:1370-1408 | an answer releases it exactly when it settles it, and then from memory and record at once |
| BriefPendingRuns.RefusalKeepsIff | apps/web/lib/use-product-brief-workbench-controller.ts:1453-1486 | a refusal releases it exactly when it settles it; a version conflict of a revision never does |
| BriefPendingRuns.MountKeepsIff | apps/web/lib/use-product-brief-workbench-controller.ts:1692-1865 | opening the page again keeps it exactly when the identity is the same and the marker names it |
| BriefPendingRuns.SettledFromBoth | apps/web/lib/use-product-brief-workbench-controller.ts:1019-1094 | settlement and the server's word that the brief is gone release it from memory and from its record at once |
| BriefOverlaps.PendingIsReached | apps/web/lib/use-product-brief-workbench-controller.ts:2273-2386 | a run from empty storage that reaches a pending confirmation with other operations still waiting |
| BriefOverlaps.GuardsHold | apps/web/lib/use-product-brief-workbench-controller.ts:2004-2286 | every one of those operations passed its test for a pending command when it started |
| BriefOverlaps.ConfirmationStores | apps/web/lib/use-product-brief-workbench-controller.ts:2321-2382 | a confirmation in force that resumes is written, remembered and sent, whatever is pending |
| BriefOverlaps.SecondClickReplaces | apps/web/lib/use-product-brief-workbench-controller.ts:2273-2386 | from there a second confirmation resumes: both are sent and only the second is held |
| BriefOverlaps.LostAnswerParts | apps/web/lib/use-product-brief-workbench-controller.ts:1663-1665 | then the loss of the first answer puts the first back in memory, away from the record |
| BriefOverlaps.AnalysisTakesRecord | apps/web/lib/use-product-brief-workbench-controller.ts:2053-2112 | from there another analysis takes the record |
| BriefOverlaps.RefusedAnalysisDeletesRecord | apps/web/lib/use-product-brief-workbench-controller.ts:1203-1234 | from there the refusal of the analysis deletes the record |
| BriefOverlaps.AcceptedAnalysisTakesRecord | apps/web/lib/use-product-brief-workbench-controller.ts:1135-1172 | from there the analysis is accepted, and the brief loaded for it takes the record |
| BriefOverlaps.LoadTakesRecord | apps/web/lib/use-product-brief-workbench-controller.ts:838-978 | from there a load of another brief takes the record |
| BriefIdentityRuns.NoForeignRecords | apps/web/lib/use-product-brief-workbench-controller.ts:1692-1770 | from the first opening on, after any run, storage holds no record of any other identity |
| BriefIdentityRuns.ChangedIdentityLeavesNothing | apps/web/lib/use-product-brief-workbench-controller.ts:1692-1770 | opening for another identity leaves no record and nothing in memory, and sends nothing |
| BriefIdentityRuns.MountedReads | apps/web/lib/product-brief-persistence.ts:175-238 | opening again for the same identity finds its record exactly when the marker names it |
| BriefDeadlines.EarliestActiveIs | apps/web/lib/use-product-brief-workbench-controller.ts:339-354 | there is an earliest deadline exactly when all are in force, and it is one of them and no later than any |
| BriefDeadlines.DeadlineNeverLater | apps/web/lib/use-product-brief-workbench-controller.ts:339-424 | between two consecutive records of one brief and workflow the deadline never moves later, whatever the server returns, in every step but an accepted load and an analysis that pass over it; the condition on those two is the exact one of the next rows |
| BriefDeadlines.DeadlinesNeverLaterOverStretch | apps/web/lib/use-product-brief-workbench-controller.ts:918-978 | over any stretch of such records and steps the last deadline is no later than the first |
| BriefDeadlines.AcceptanceKeepsDeadlineIff | apps/web/lib/use-product-brief-workbench-controller.ts:918-941 | the load of an accepted analysis stores the deadline it was answered with, which is within the stored one exactly when the answer is |
| BriefDeadlines.AcceptedLoadStaysWithin | apps/web/lib/use-product-brief-workbench-controller.ts:1150-1171 | when nothing has come between, that load stands under a ceiling within the record it started from |
| BriefDeadlines.AnalysisKeepsDeadlineIff | apps/web/lib/use-product-brief-workbench-controller.ts:2041-2071 | when the record is an analysis, or names another operation than memory, an analysis stays within the stored deadline exactly when the workflow's or the remembered brief's does |
| BriefDeadlineRuns.AcceptanceMovesDeadlineLater | apps/web/lib/use-product-brief-workbench-controller.ts:1135-1172 | a run from empty storage in which the load of an accepted analysis, whose record another analysis has replaced, moves the deadline of one brief and workflow later |
| BriefDeadlineRuns.AnalysisMovesDeadlineLater | apps/web/lib/use-product-brief-workbench-controller.ts:2041-2114 | a run from empty storage in which the second of two analyses moves it later |
| JsonBudget.Budget.JsonValue | apps/web/lib/creative-plan-api-decoders.ts:233-261 | accepts, and returns as it is, exactly a value with no more nodes than are left whose every node keeps depth and limits; the budget is lowered by exactly its nodes |
| JsonBudget.JsonObject | apps/web/lib/creative-plan-api-decoders.ts:263-265 | at most 4096 nodes, at most sixteen levels below the top |
| UploadRuns.RoundTripIff | apps/web/lib/upload-workflow.ts:152-256 | a state reads back from storage exactly when its identifiers, version and creation request are acceptable, and as nothing otherwise |
| UploadRuns.DecodedIsStable | apps/web/lib/upload-workflow.ts:240-256 | whatever text is stored, decoding, encoding and decoding again changes nothing |
| UploadRuns.OtherKindsAreLost | apps/web/lib/upload-workflow.ts:118-138 | the creation of any asset but an image does not read back |
| UploadRuns.LoraIsLost | apps/web/lib/upload-workflow.ts:118-138 | a LoRA creation that the reducer accepts and storage loses |
| UploadRuns.FinalizedIffAsset | apps/web/lib/upload-workflow.ts:272-362 | over every run a session has an asset exactly when it is finalized |
| UploadRuns.FinalizedIsAbsorbing | apps/web/lib/upload-workflow.ts:272-362 | finalized is never left |
| UploadRuns.CreationIsKept | apps/web/lib/upload-workflow.ts:272-362 | a creation keeps its key and request |
| UploadRuns.FinalizeKeyNamesVersion | apps/web/lib/upload-workflow.ts:290-351 | with fresh keys a finalize key stays tied to one expected version |
| UploadRuns.ReachableRoundTrips | apps/web/lib/upload-workflow.ts:240-362 | events with acceptable parts only reach states that read back exactly |
| Labels.FirstUnused | apps/web/lib/brand-profile-editor-state.ts:52-61 | the least unused label, and the throw is never reached |
| Labels.SomeUnused | apps/web/lib/brand-profile-editor-state.ts:52-61 | by the pigeonhole principle one of n + 1 labels is not among n used ones |
| Labels.NextUniqueRuleCode | apps/web/lib/brand-profile-editor-state.ts:63-70 | the least unused rule code |
| Labels.NextUniqueColorName | apps/web/lib/brand-profile-editor-state.ts:72-79 | the least unused colour name |
| Labels.NextUniqueProfileKey | apps/web/lib/brand-profile-editor-state.ts:81-91 | "primary", or the least unused numbered key |
| Labels.NormalizeLineList | apps/web/lib/brand-profile-editor-state.ts:36-46 | the trimmed, non-empty lines in order, each once |
| Labels.NormalizingIsIdempotent | apps/web/lib/brand-profile-editor-state.ts:36-46 | the lines are trimmed, distinct and non-empty, and normalizing them joined again changes nothing |
| Labels.NormalizedHolds | apps/web/lib/brand-profile-editor-state.ts:36-46 | a line is in the result exactly when it is a non-empty trimmed line of the text |

## Left out

- The API client, `fetch`, aborts and timeouts: a response, a lost one and a refusal are parameters of the steps.
- Notices, busy flags, form seeds and React rendering.
- `creative-plan-api-decoders.ts` apart from `jsonValue`, and the other field-by-field decoders: single-branch checks.
- Coordinates and confidences are compared as the decimals JavaScript writes; that these order as the doubles do is not proved.
- What `onEvent` does with an event: a handled event is one for which it returned.  In the source it returns early while a refresh is active, and `loadAuthority` reports a failed refresh without throwing, so a committed cursor does not say that its refresh succeeded.
- `isCurrentRequest` and the target test of `handleAuthoritativeGone`: the steps of a run are those that pass them, so the run lemmas also cover runs in which they would have stopped a callback; the example of `BriefOverlaps` opens the page once, so every request in it is current.
- Throwing storage, and two pages that interleave inside one ledger operation.
- Product Brief identities without a storage key (lone surrogates, or out of bounds): the source throws when it builds the key; the run lemmas open the page only for identities that have one.
- An object that `JSON.parse` yields is a list of fields in enumeration order; prototypes, and -0 as against 0, are not told apart.
- `mergeVersions` and the review session of `use-creative-plan-workbench.ts`, apart from the restored cursor.
- The finalize attempt of an upload is its key and version: the order of its two fields is not kept.  Nor is that of a session's: `Encoded` writes them in the decoder's order, where the reducer puts the creation's before the abort key and the asset.
- The Python domain packages, database migrations and scripts.
