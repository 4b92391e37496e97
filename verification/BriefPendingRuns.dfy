// How long a pending command stays: exactly which steps take it out of memory
// or off its record, and that through every other step it stays in both.
module BriefPendingRuns {
  import opened Texts
  import opened Json
  import opened PendingCommand
  import opened KeyCodec
  import opened BriefRecord
  import opened BriefRoundTrip
  import opened BriefPersistence
  import opened BriefPersistenceRuns
  import opened BriefController
  import opened BriefWorkbench
  import opened BriefProtocol
  import opened BriefProtocolRuns
  import opened BriefIdentityRuns

  ghost predicate OnRecord(env: BriefEnvironment, b: Bench, command: BriefCommand, now: int) {
    var r := ReadOwn(env, b, now);
    r.Some? && r.value.content.Commanding? && r.value.content.command == command
  }

  // Memory and the stored record both hold the command, with its kind, key and
  // payload.
  ghost predicate Holds(env: BriefEnvironment, b: Bench, command: BriefCommand, now: int) {
    Pending(b) == Some(command) && OnRecord(env, b, command, now)
  }

  ghost predicate Keeps(env: BriefEnvironment, b: Bench, t: Bench, command: BriefCommand, now: int) {
    Own(t) == Own(b) && Holds(env, t, command, now)
  }

  // ------------------------------------------------------ what releases it

  // A confirmation that resumes over a pending command replaces it, unless the
  // deadlines have nothing in common or it is that very command.
  predicate ConfirmReleases(
    env: BriefEnvironment, b: Bench, current: Brief, payload: BriefPayload, workflowDeadline: Option<Text>, key: Text, now: int)
  {
    var command := BriefCommand(Own(b).productId, current.id, key, payload);
    var deadlines := [workflowDeadline, Some(current.retentionDeadline)];
    && SubmissionDeadline(env, b, current, deadlines, now).Some?
    && (Canonical(env, Own(b).productId, command) != Pending(b) || !SubmissionStorable(env, b, current, command, deadlines, now))
  }

  function AnalysisDeadline(
    env: BriefEnvironment, b: Bench, captured: Option<Brief>, workflowDeadline: Option<Text>, now: int): Option<Text>
  {
    EarliestActive(env, [workflowDeadline]
                        + (if captured.Some? then [Some(captured.value.retentionDeadline)] else [])
                        + EstablishedDeadline(ReadOwn(env, b, now), captured), now)
  }

  // What a load would publish and store, if it publishes anything.
  function LoadCurrent(env: BriefEnvironment, b: Bench, load: Load, response: Brief, now: int): Option<Brief> {
    var deadline := LoadDeadline(env, load, ReadOwn(env, b, now), response, now);
    if !LoadMatches(Own(b), load, response) || deadline.None? then None
    else
      var current := response.(retentionDeadline := deadline.value);
      if AcceptsBrief(b.controller, load.read, current) then Some(current) else None
  }

  // A load that resumes over a pending command takes its record when it
  // publishes another brief.
  predicate LoadReleases(env: BriefEnvironment, b: Bench, load: Load, response: Brief, now: int) {
    var current := LoadCurrent(env, b, load, response, now);
    && current.Some?
    && !(Pending(b).Some? && load.briefId == Pending(b).value.briefId
         && Storable(env, b, LoadedRecord(Own(b), ReadOwn(env, b, now), current.value, current.value.retentionDeadline), now))
  }

  // The answer settles the command it answers.
  predicate AnswerReleases(env: BriefEnvironment, b: Bench, command: BriefCommand, response: Brief, workflowId: Text, now: int) {
    && response.productId == command.productId && (command.payload.Confirm? ==> workflowId == response.workflowId)
    && Settlement(env, b.controller.snapshot, ReadOwn(env, b, now), command, Some(response), Awaited, command.payload.Revise?, now).Some?
  }

  // A refusal settles the command it refuses, but for the version conflict of a
  // revision, which only marks it.
  predicate RefusalReleases(env: BriefEnvironment, b: Bench, command: BriefCommand, conflict: bool, now: int) {
    && !(conflict && command.payload.Revise?)
    && Settlement(env, b.controller.snapshot, ReadOwn(env, b, now), command, None, Awaited, false, now).Some?
  }

  // A command of doubtful outcome is remembered in place of the pending one.
  predicate LostReleases(env: BriefEnvironment, b: Bench, command: BriefCommand) {
    var canonical := Canonical(env, Own(b).productId, command);
    canonical.Some? && canonical != Pending(b)
  }

  predicate ResolutionReleases(env: BriefEnvironment, b: Bench, now: int) {
    var n := b.controller.snapshot;
    && n.commandStatus == Some(VersionConflict) && n.pendingCommand.Some? && n.pendingCommand.value.payload.Revise?
    && Settlement(env, n, ReadOwn(env, b, now), n.pendingCommand.value, n.brief, VersionConflict, false, now).Some?
  }

  // Every step that releases a pending command, and when it does.
  predicate Releases(env: BriefEnvironment, b: Bench, step: Step, now: int) {
    match step
    case Revise(_, _) => false
    case Confirm(current, payload, deadline, key) => ConfirmReleases(env, b, current, payload, deadline, key, now)
    case Analyze(captured, _, deadline) => AnalysisDeadline(env, b, captured, deadline, now).Some?
    case BeginLoad => false
    case LoadArrived(load, response) => LoadReleases(env, b, load, response, now)
    case RequestAnalysis(_) => false
    case AnalysisAccepted(_, _, _) => false
    case AnalysisLoaded => false
    case AnalysisRefused(_) => true
    case AnalysisLost(_) => false
    case AnswerArrived(command, _, response, workflowId) => AnswerReleases(env, b, command, response, workflowId, now)
    case RefusalArrived(command, conflict) => RefusalReleases(env, b, command, conflict, now)
    case Lost(command) => LostReleases(env, b, command)
    case ResolveConflict => ResolutionReleases(env, b, now)
    case Mount(identity) => identity != Own(b) || !MarkerNames(env, b, identity)
    case Retry => false
    case Gone => true
  }

  // ------------------------------------------------------------- submissions

  // A stored record of a canonical command reads back with that command.
  lemma StoredCommand(env: BriefEnvironment, b: Bench, value: Record, command: BriefCommand, now: int)
    requires Fit(env, b) && CanonicalCommand(env, command) && command.productId == Own(b).productId
    requires value.content.Commanding? && value.content.command == command && value.content.briefId == command.briefId
    requires Storable(env, b, value, now)
    ensures var r := ParseRecord(env, Own(b), RecordJson(value), now).value;
      r.content == value.content
  {
    CanonicalParts(env, Own(b), value, now, ParseRecord(env, Own(b), RecordJson(value), now).value);
    hide ParseRecord, RecordJson, ParseCommand, CommandJson;
  }

  lemma ConfirmKeepsIff(
    env: BriefEnvironment, b: Bench, current: Brief, payload: BriefPayload, workflowDeadline: Option<Text>, key: Text, now: int,
    command: BriefCommand)
    requires Fit(env, b) && Holds(env, b, command, now)
    ensures Keeps(env, b, Confirming(env, b, current, payload, workflowDeadline, key, now).0, command, now)
       <==> !ConfirmReleases(env, b, current, payload, workflowDeadline, key, now)
  {
    var resumed := BriefCommand(Own(b).productId, current.id, key, payload);
    hide Submitting, ReadOwn, Canonical, SubmissionDeadline, SubmissionStorable, MemoryCanonical;
    SubmittingOutcome(env, b, current, resumed, [workflowDeadline, Some(current.retentionDeadline)], now);
  }

  // --------------------------------------------------------------- analyses

  lemma AnalyzeKeepsIff(
    env: BriefEnvironment, b: Bench, captured: Option<Brief>, pending: Analysis, workflowDeadline: Option<Text>, now: int,
    command: BriefCommand)
    requires Fit(env, b) && Holds(env, b, command, now)
    ensures Keeps(env, b, StartingAnalysis(env, b, captured, pending, workflowDeadline, now).0, command, now)
       <==> AnalysisDeadline(env, b, captured, workflowDeadline, now).None?
  {
    ReadTwice(env, b, now);
    ReadOwnIs(env, b, now);
    var b1 := ReadingOwn(env, b, now).0;
    FitKept(env, b, b1);
    var deadline := AnalysisDeadline(env, b, captured, workflowDeadline, now);
    hide ReadingOwn, ReadOwn, WritingOwn, EarliestActive, EstablishedDeadline, Fit;
    if deadline.Some? {
      var value := Record(Own(b).workspaceId, Own(b).productId, pending.workflowId, pending.assetVersionIds, deadline.value,
                          Analysing(pending));
      OwnWrite(env, b1, value, now);
      var (b2, written) := WritingOwn(env, b1, value, now);
      if written {
        CanonicalParts(env, Own(b), value, now, ParseRecord(env, Own(b), RecordJson(value), now).value);
        RecoveredReads(env, b2, RecoveringAnalysis(b2.controller, pending), now);
      }
      hide ParseRecord, RecordJson;
    }
  }

  lemma RefusalOfAnalysisReleases(env: BriefEnvironment, b: Bench, pending: Analysis, now: int, command: BriefCommand)
    requires Fit(env, b) && Holds(env, b, command, now)
    ensures var t := RefusingAnalysis(env, b, pending, now);
      ReadOwn(env, t, now) == None && Pending(t) == Pending(b)
  {
    ReadTwice(env, b, now);
    ReadOwnIs(env, b, now);
    var b1 := ReadingOwn(env, b, now).0;
    FitKept(env, b, b1);
    hide ReadingOwn, ReadOwn, Fit;
    ClearedReadsNothing(env, b1, RefusingAnalysis(env, b, pending, now), now);
  }

  // ------------------------------------------------------------------ loads

  lemma LoadingOutcome(env: BriefEnvironment, b: Bench, load: Load, response: Brief, now: int)
    requires Fit(env, b)
    ensures var t := Loading(env, b, load, response, now).0;
      var current := LoadCurrent(env, b, load, response, now);
      if current.None? then Pending(t) == Pending(b) && ReadOwn(env, t, now) == ReadOwn(env, b, now)
      else
        var value := LoadedRecord(Own(b), ReadOwn(env, b, now), current.value, current.value.retentionDeadline);
        && ReadOwn(env, t, now) == ParseRecord(env, Own(b), RecordJson(value), now)
        && (if Storable(env, b, value, now) then Pending(t) == Pending(b) else Pending(t).None?)
  {
    hide ReadOwn, WritingOwn, LoadDeadline, LoadMatches, AcceptsBrief, ParseRecord, RecordJson, LoadedRecord;
    ReadTwice(env, b, now);
    ReadOwnIs(env, b, now);
    ReadOfOwner(env, b, now);
    var (b1, persisted) := ReadingOwn(env, b, now);
    FitKept(env, b, b1);
    var deadline := LoadDeadline(env, load, persisted, response, now);
    hide ReadingOwn, Fit;
    if LoadMatches(Own(b), load, response) && deadline.Some? {
      var current := response.(retentionDeadline := deadline.value);
      var (s, published) := PublishingBrief(b1.controller, load.read, current, load.resetForm);
      PublishLeavesPending(b1.controller, load.read, current, load.resetForm);
      var b2 := b1.(controller := s);
      RecoveredReads(env, b1, s, now);
      FitKept(env, b1, b2);
      if published {
        var value := LoadedRecord(Own(b), persisted, current, deadline.value);
        LoadedOfOwner(Own(b), persisted, current, deadline.value);
        OwnWrite(env, b2, value, now);
      }
    }
  }

  lemma LoadedOfOwner(identity: BriefIdentity, persisted: Option<Record>, current: Brief, deadline: Text)
    requires persisted.Some? ==> BriefIdentity(persisted.value.workspaceId, persisted.value.productId) == identity
    ensures var value := LoadedRecord(identity, persisted, current, deadline);
      BriefIdentity(value.workspaceId, value.productId) == identity
  {
  }

  lemma LoadKeepsIff(env: BriefEnvironment, b: Bench, load: Load, response: Brief, now: int, command: BriefCommand)
    requires Fit(env, b) && Holds(env, b, command, now)
    ensures Keeps(env, b, Loading(env, b, load, response, now).0, command, now) <==> !LoadReleases(env, b, load, response, now)
  {
    LoadingOutcome(env, b, load, response, now);
    LoadingQuiet(env, b, load, response, now);
    LoadedBrief(env, b, load, response, now);
    var current := LoadCurrent(env, b, load, response, now);
    hide Loading, ReadOwn, LoadCurrent, ParseRecord, RecordJson, Fit, Local, LoadedRecord;
    if current.Some? { LoadedCommand(env, b, current.value, now, command); }
  }

  // What a load stores holds the command exactly when it is of its brief.
  lemma LoadedCommand(env: BriefEnvironment, b: Bench, current: Brief, now: int, command: BriefCommand)
    requires Fit(env, b) && Holds(env, b, command, now)
    ensures var value := LoadedRecord(Own(b), ReadOwn(env, b, now), current, current.retentionDeadline);
      Storable(env, b, value, now) ==>
        var r := ParseRecord(env, Own(b), RecordJson(value), now).value;
        (r.content.Commanding? && r.content.command == command <==> current.id == command.briefId)
  {
    ReadIsCanonical(env, b, now);
    var value := LoadedRecord(Own(b), ReadOwn(env, b, now), current, current.retentionDeadline);
    hide ReadOwn, Fit;
    if Storable(env, b, value, now) {
      if current.id == command.briefId {
        StoredCommand(env, b, value, command, now);
      } else {
        CanonicalParts(env, Own(b), value, now, ParseRecord(env, Own(b), RecordJson(value), now).value);
      }
    }
    hide ParseRecord, RecordJson, CanonicalCommand;
  }

  lemma LoadedBrief(env: BriefEnvironment, b: Bench, load: Load, response: Brief, now: int)
    ensures var current := LoadCurrent(env, b, load, response, now); current.Some? ==> current.value.id == load.briefId
  {
    hide ReadOwn, LoadDeadline, AcceptsBrief, ReloadMatches;
  }

  // An analysis that is requested again, accepted, loaded or lost keeps what is
  // pending; only the load of its brief may release it, as LoadKeepsIff says.
  lemma AnalysisStepsKeep(env: BriefEnvironment, b: Bench, step: Step, now: int, command: BriefCommand)
    requires Fit(env, b) && Holds(env, b, command, now) && AnalysisStep(step)
    ensures Keeps(env, b, Next(env, b, step, now), command, now)
  {
    hide ReadingOwn, ReadOwn, Fit, BeginningLoad, AcceptedMatches, DeadlineAtOrBefore, Holds, Keeps;
    BeginningKeeps(env, b, now, command);
    DoubtingKeeps(env, b, now, command);
    RequestingKeeps(env, b, now, command);
  }

  lemma RequestingKeeps(env: BriefEnvironment, b: Bench, now: int, command: BriefCommand)
    requires Fit(env, b) && Holds(env, b, command, now)
    ensures forall pending :: Keeps(env, b, RequestingAnalysis(env, b, pending, now).0, command, now)
    ensures Keeps(env, b, EndingAnalysis(b), command, now)
  {
    ReadTwice(env, b, now);
    var b1 := ReadingOwn(env, b, now).0;
    hide ReadingOwn, ReadOwn, AnalysisOnRecord;
    DoubtingKeeps(env, b1, now, command);
    RecoveredReads(env, b, SettlingAnalysis(b.controller), now);
  }

  lemma DoubtingKeeps(env: BriefEnvironment, b: Bench, now: int, command: BriefCommand)
    requires Holds(env, b, command, now)
    ensures forall pending :: Keeps(env, b, DoubtingAnalysis(b, pending), command, now)
    ensures Keeps(env, b, b, command, now)
  {
    forall pending ensures Keeps(env, b, DoubtingAnalysis(b, pending), command, now) {
      hide ReadOwn;
      RecoveredReads(env, b, RecoveringAnalysis(b.controller, pending), now);
    }
  }

  lemma BeginningKeeps(env: BriefEnvironment, b: Bench, now: int, command: BriefCommand)
    requires Fit(env, b) && Holds(env, b, command, now)
    ensures Keeps(env, b, BeginningLoad(env, b, now).0, command, now)
  {
    ReadTwice(env, b, now);
    var b1 := ReadingOwn(env, b, now).0;
    hide ReadingOwn, ReadOwn;
    RecoveredReads(env, b1, BeginningBriefRead(b1.controller).0, now);
  }

  // -------------------------------------------------------------- settlement

  // A settlement takes the command out of memory and off the record at once.
  lemma SettlingOutcome(
    env: BriefEnvironment, b: Bench, command: BriefCommand, current: Option<Brief>, status: Status, transition: bool, now: int)
    requires Fit(env, b) && MemoryCanonical(env, b) && (transition ==> command.payload.Revise?)
    ensures var (t, deadline) := Settling(env, b, command, current, status, transition, now);
      && Own(t) == Own(b)
      && (if Settlement(env, b.controller.snapshot, ReadOwn(env, b, now), command, current, status, transition, now).None? then
            deadline.None? && t == b.(items := t.items) && ReadOwn(env, t, now) == ReadOwn(env, b, now)
          else Pending(t).None? && (ReadOwn(env, t, now).Some? ==> ReadOwn(env, t, now).value.content.Published?))
  {
    ReadTwice(env, b, now);
    ReadOwnIs(env, b, now);
    var (b1, persisted) := ReadingOwn(env, b, now);
    FitKept(env, b, b1);
    hide ReadingOwn, ReadOwn, Settlement, Releasing, ExactlyDurable, Fit, CanonicalCommand;
    var settlement := Settlement(env, b1.controller.snapshot, persisted, command, current, status, transition, now);
    if settlement.Some? {
      SettlementOfOwner(env, b1.controller.snapshot, persisted, command, current, status, transition, now);
      DurableMatches(env, b1, persisted, command, status);
      ReleasingOutcome(env, b1, settlement.value, command, now);
    }
  }

  lemma DurableMatches(env: BriefEnvironment, b: Bench, persisted: Option<Record>, command: BriefCommand, status: Status)
    requires Canonicalizes(env) && MemoryCanonical(env, b)
    requires ExactlyDurable(env, b.controller.snapshot, persisted, command, status)
    ensures Pending(b).Some? && CommandsMatch(env, command, Pending(b).value)
  {
    MatchBothWays(env, command, Pending(b).value);
    hide CommandsMatch, CanonicalCommand, Canonical;
  }

  lemma ReleasingOutcome(env: BriefEnvironment, b: Bench, next: Record, command: BriefCommand, now: int)
    requires Fit(env, b) && next.content.Published? && BriefIdentity(next.workspaceId, next.productId) == Own(b)
    requires Pending(b).Some? && CommandsMatch(env, command, Pending(b).value)
    ensures var t := Releasing(env, b, next, command, now).0;
      Own(t) == Own(b) && Pending(t).None? && (ReadOwn(env, t, now).Some? ==> ReadOwn(env, t, now).value.content.Published?)
  {
    hide WritingOwn, ReadOwn, CommandsMatch, ParseRecord, RecordJson;
    OwnWrite(env, b, next, now);
    var (b1, written) := WritingOwn(env, b, next, now);
    if written {
      CanonicalParts(env, Own(b), next, now, ParseRecord(env, Own(b), RecordJson(next), now).value);
      RecoveredReads(env, b1, SettlingCommand(env, b1.controller, command).0, now);
    }
  }

  lemma AnswerKeepsIff(
    env: BriefEnvironment, b: Bench, answered: BriefCommand, read: Stamp, response: Brief, workflowId: Text, now: int,
    command: BriefCommand)
    requires Fit(env, b) && MemoryCanonical(env, b) && Holds(env, b, command, now)
    ensures Keeps(env, b, Answering(env, b, answered, read, response, workflowId, now).0, command, now)
       <==> !AnswerReleases(env, b, answered, response, workflowId, now)
    ensures AnswerReleases(env, b, answered, response, workflowId, now) ==>
      Forgotten(env, Answering(env, b, answered, read, response, workflowId, now).0, now)
  {
    ReadTwice(env, b, now);
    ReadOwnIs(env, b, now);
    var (b1, persisted) := ReadingOwn(env, b, now);
    FitKept(env, b, b1);
    SettlementMeans(env, b, answered, response, now);
    AnsweringReads(env, b, answered, read, response, workflowId, now);
    hide ReadingOwn, ReadOwn, Settling, Settlement, ExactlyDurable, MatchesIdentity, MatchesRevision, Fit, CanonicalCommand, Answering;
    SettlingOutcome(env, b1, answered, Some(response), Awaited, answered.payload.Revise?, now);
  }

  predicate Answers(env: BriefEnvironment, b: Bench, command: BriefCommand, response: Brief, workflowId: Text, now: int) {
    var n, persisted := b.controller.snapshot, ReadOwn(env, b, now);
    && ExactlyDurable(env, n, persisted, command, Awaited) && response.productId == command.productId
    && (if command.payload.Revise? then MatchesRevision(response, n.identity, command.briefId, persisted.value, command.payload)
        else MatchesIdentity(response, n.identity, command.briefId, Some(persisted.value.workflowId), OperationOf(persisted.value))
             && workflowId == response.workflowId)
  }

  // Publishing what was answered changes neither the record nor what is pending.
  lemma AnsweringReads(
    env: BriefEnvironment, b: Bench, command: BriefCommand, read: Stamp, response: Brief, workflowId: Text, now: int)
    ensures var t := Answering(env, b, command, read, response, workflowId, now).0;
      var b1 := ReadingOwn(env, b, now).0;
      var u := if Answers(env, b, command, response, workflowId, now)
               then Settling(env, b1, command, Some(response), Awaited, command.payload.Revise?, now).0 else b1;
      Own(t) == Own(u) && Pending(t) == Pending(u) && ReadOwn(env, t, now) == ReadOwn(env, u, now)
  {
    ReadOwnIs(env, b, now);
    ReadingQuiet(env, b, now);
    var b1 := ReadingOwn(env, b, now).0;
    hide ReadingOwn, ReadOwn, Settling, ExactlyDurable, MatchesIdentity, MatchesRevision, Local;
    var (b2, deadline) := Settling(env, b1, command, Some(response), Awaited, command.payload.Revise?, now);
    if deadline.Some? {
      var published := response.(retentionDeadline := deadline.value);
      PublishLeavesPending(b2.controller, read, published, true);
      RecoveredReads(env, b2, PublishingBrief(b2.controller, read, published, true).0, now);
    }
    hide PublishingBrief;
  }

  // Nothing pending in memory, no command on record.
  ghost predicate Forgotten(env: BriefEnvironment, t: Bench, now: int) {
    Pending(t).None? && (ReadOwn(env, t, now).Some? ==> !ReadOwn(env, t, now).value.content.Commanding?)
  }

  // What a settlement by an answer has tested.
  lemma SettlementMeans(env: BriefEnvironment, b: Bench, command: BriefCommand, response: Brief, now: int)
    ensures var n, persisted := b.controller.snapshot, ReadOwn(env, b, now);
      Settlement(env, n, persisted, command, Some(response), Awaited, command.payload.Revise?, now).Some? ==>
        && ExactlyDurable(env, n, persisted, command, Awaited)
        && (if command.payload.Revise? then MatchesRevision(response, n.identity, command.briefId, persisted.value, command.payload)
            else MatchesIdentity(response, n.identity, command.briefId, Some(persisted.value.workflowId), OperationOf(persisted.value)))
  {
    hide EarliestActive, MatchesIdentity, MatchesRevision, CommandsMatch, ReadOwn;
  }

  // -------------------------------------------------------------- refusals

  // A version conflict can always be marked on the record.
  lemma ConflictStorable(env: BriefEnvironment, b: Bench, r: Record, now: int)
    requires Fit(env, b) && ReadOwn(env, b, now) == Some(r) && r.content.Commanding? && r.content.command.payload.Revise?
    ensures Storable(env, b, r.(content := r.content.(status := VersionConflict)), now)
  {
    hide ReadOwn, CanonicalCommand, ParseRecord, RecordJson, ParseContent;
    ReadIsCanonical(env, b, now);
    var value := r.(content := r.content.(status := VersionConflict));
    CommandingBounds(env, Own(b), r, now);
    CommandFrame(env, Own(b), r, now);
    CommandingBack(env, Own(b), r.assetVersionIds, value);
    SameBaseParses(env, Own(b), r, value, now);
  }

  lemma CommandFrame(env: BriefEnvironment, identity: BriefIdentity, r: Record, now: int)
    requires Canonicalizes(env) && ParseRecord(env, identity, RecordJson(r), now) == Some(r) && r.content.Commanding?
    ensures ParseCommand(env, identity.productId, r.content.briefId, CommandJson(r.content.command)) == Some(r.content.command)
  {
    CanonicalParts(env, identity, r, now, r);
    hide ParseRecord, RecordJson, ParseCommand, CommandJson;
  }

  lemma CommandingBounds(env: BriefEnvironment, identity: BriefIdentity, r: Record, now: int)
    requires ParseRecord(env, identity, RecordJson(r), now) == Some(r) && r.content.Commanding?
    ensures 1 <= |r.content.briefId| <= 36 && 1 <= |r.content.operationId| <= 36
  {
    RecordFields(r);
    KindsDiffer();
    hide NameText, Ascii, Field, ExactFields, RecordJson, AssetIds, ParseCommand, CommandJson, StatusText, IsActiveDeadline;
    var names, values := ContentNames(r.content), ContentValues(r.content);
    assert Field(RecordJson(r), names[0]) == Some(values[0]) && Field(RecordJson(r), names[1]) == Some(values[1]);
  }

  // Two records alike but for their content are accepted alike.
  lemma SameBaseParses(env: BriefEnvironment, identity: BriefIdentity, r: Record, value: Record, now: int)
    requires ParseRecord(env, identity, RecordJson(r), now) == Some(r) && value == r.(content := value.content)
    requires SchemaOf(value.content) == SchemaOf(r.content)
    requires ParseContent(env, identity, r.workflowId, r.assetVersionIds, RecordJson(value)) == Some(value.content)
    ensures ParseRecord(env, identity, RecordJson(value), now) == Some(value)
  {
    RecordFields(r);
    RecordFields(value);
    hide NameText, Ascii, Field, ExactFields, RecordJson, AssetIds, ParseContent, TextsJson, IsActiveDeadline, ContentValues;
  }

  lemma RefusalKeepsIff(env: BriefEnvironment, b: Bench, refused: BriefCommand, conflict: bool, now: int, command: BriefCommand)
    requires Fit(env, b) && MemoryCanonical(env, b) && Holds(env, b, command, now)
    ensures var t := Refusing(env, b, refused, conflict, now);
      && (Keeps(env, b, t, command, now) <==> !RefusalReleases(env, b, refused, conflict, now))
      && (RefusalReleases(env, b, refused, conflict, now) ==> Forgotten(env, t, now))
  {
    if conflict && refused.payload.Revise? {
      ConflictKeeps(env, b, refused, now, command);
    } else {
      hide ReadOwn, Settling, Settlement, Fit, CanonicalCommand;
      SettlingOutcome(env, b, refused, None, Awaited, false, now);
    }
  }

  lemma ConflictKeeps(env: BriefEnvironment, b: Bench, refused: BriefCommand, now: int, command: BriefCommand)
    requires Fit(env, b) && MemoryCanonical(env, b) && Holds(env, b, command, now) && refused.payload.Revise?
    ensures Keeps(env, b, Refusing(env, b, refused, true, now), command, now)
  {
    ReadTwice(env, b, now);
    ReadOwnIs(env, b, now);
    var (b1, persisted) := ReadingOwn(env, b, now);
    FitKept(env, b, b1);
    hide ReadingOwn, ReadOwn, Fit, WritingOwn;
    if ExactlyDurable(env, b1.controller.snapshot, persisted, refused, Awaited) {
      RefusedKind(env, b1, persisted, refused);
      ReadIsCanonical(env, b1, now);
      hide ExactlyDurable, CanonicalCommand, MarkingConflict;
      var r := persisted.value;
      var value := r.(content := r.content.(status := VersionConflict));
      ConflictStorable(env, b1, r, now);
      OwnWrite(env, b1, value, now);
      StoredCommand(env, b1, value, command, now);
      var b2 := WritingOwn(env, b1, value, now).0;
      MarkingLeavesPending(env, b2.controller, refused);
      RecoveredReads(env, b2, MarkingConflict(env, b2.controller, refused).0, now);
      hide ParseRecord, RecordJson;
    }
  }

  lemma MarkingLeavesPending(env: BriefEnvironment, s: State, command: BriefCommand)
    ensures var t := MarkingConflict(env, s, command).0;
      t.snapshot.identity == s.snapshot.identity && t.snapshot.pendingCommand == s.snapshot.pendingCommand
  {
    hide CommandsMatch;
  }

  // A pending command that matches a revision is one.
  lemma RefusedKind(env: BriefEnvironment, b: Bench, persisted: Option<Record>, refused: BriefCommand)
    requires Canonicalizes(env) && MemoryCanonical(env, b) && refused.payload.Revise?
    requires ExactlyDurable(env, b.controller.snapshot, persisted, refused, Awaited)
    ensures Pending(b).Some? && Pending(b).value.payload.Revise?
  {
    DurableMatches(env, b, persisted, refused, Awaited);
    MatchBothWays(env, refused, Pending(b).value);
    hide ExactlyDurable, CommandsMatch, CanonicalCommand, MemoryCanonical;
    KindKept(env, refused.productId, refused.briefId, refused, Pending(b).value);
  }

  lemma KindKept(env: BriefEnvironment, productId: Text, briefId: Text, command: BriefCommand, canonical: BriefCommand)
    requires command.payload.Revise? && ParseCommand(env, productId, briefId, CommandJson(command)) == Some(canonical)
    ensures canonical.payload.Revise?
  {
    hide NameText, Ascii, ParseConfirmation, PayloadJson, ExactFields;
    KindsDiffer();
    var c := command;
    var values := [Num(1), Str(KindText(c.payload)), Str(c.productId), Str(c.briefId), PayloadJson(c.payload), Str(c.idempotencyKey)];
    ObjectReads(COMMAND_NAMES, values);
    hide Field, Object, CanonicalFields, BoundedText, VersionNumber;
    assert Field(CommandJson(c), COMMAND_NAMES[1]) == Some(values[1]);
  }

  // ------------------------------------------------------- mounting, the rest

  lemma MountKeepsIff(env: BriefEnvironment, b: Bench, identity: BriefIdentity, now: int, command: BriefCommand)
    requires Fit(env, b) && Holds(env, b, command, now) && KeyOf(identity).Some?
    ensures Keeps(env, b, Mounting(env, b, identity, now), command, now)
       <==> identity == Own(b) && MarkerNames(env, b, identity)
  {
    if identity == Own(b) {
      MountedReads(env, b, now);
      var (items, active) := Activating(env, b.items, identity);
      var mounted := b.(items := Sweeping(env, items, now), controller := Restarting(b.controller, identity));
      FitKept(env, b, mounted);
      hide Activating, Sweeping, Rebuilding, ReadOwn, Fit, MarkerNames, KeyOf;
      RebuildingOutcome(env, mounted, now);
    } else {
      MountingOutcome(env, b, identity, now);
      hide Mounting, ReadOwn, MarkerNames, KeyOf, MemoryCanonical, SendsDurably;
    }
  }

  lemma LostKeepsIff(env: BriefEnvironment, b: Bench, lost: BriefCommand, now: int, command: BriefCommand)
    requires Holds(env, b, command, now)
    ensures Keeps(env, b, Doubting(env, b, lost), command, now) <==> !LostReleases(env, b, lost)
  {
    hide ReadOwn, Canonical;
    RecoveredReads(env, b, RecoveringCommand(env, b.controller, lost, Awaited).0, now);
  }

  lemma ResolutionKeepsIff(env: BriefEnvironment, b: Bench, now: int, command: BriefCommand)
    requires Fit(env, b) && MemoryCanonical(env, b) && Holds(env, b, command, now)
    ensures var t := ResolvingConflict(env, b, now).0;
      && (Keeps(env, b, t, command, now) <==> !ResolutionReleases(env, b, now))
      && (ResolutionReleases(env, b, now) ==> Forgotten(env, t, now))
  {
    hide ReadOwn, Settling, Settlement, Fit, CanonicalCommand;
    if command.payload.Revise? {
      SettlingOutcome(env, b, command, b.controller.snapshot.brief, VersionConflict, false, now);
    }
  }

  lemma GoneReleases(env: BriefEnvironment, b: Bench, now: int)
    requires Fit(env, b)
    ensures Forgotten(env, Invalidating(b), now)
  {
    hide ReadOwn;
    ClearedReadsNothing(env, b, Invalidating(b), now);
  }

  // ------------------------------------------------------------- every step

  // A step keeps the pending command, in memory and on its record, exactly when
  // it is not one of the releasing ones.
  lemma StepKeepsIff(env: BriefEnvironment, b: Bench, step: Step, now: int, command: BriefCommand)
    requires Fit(env, b) && MemoryCanonical(env, b) && Holds(env, b, command, now) && Keyed(step)
    ensures Keeps(env, b, Next(env, b, step, now), command, now) <==> !Releases(env, b, step, now)
  {
    hide ReadOwn, Fit, MemoryCanonical, Next, Holds, Keeps;
    if AnalysisStep(step) {
      AnalysisStepsKeep(env, b, step, now, command);
    } else if Silent(step) {
      SilentKeepsIff(env, b, step, now, command);
    } else {
      LoudKeepsIff(env, b, step, now, command);
    }
  }

  lemma SilentKeepsIff(env: BriefEnvironment, b: Bench, step: Step, now: int, command: BriefCommand)
    requires Fit(env, b) && MemoryCanonical(env, b) && Holds(env, b, command, now)
    requires Silent(step) && !AnalysisStep(step)
    ensures Keeps(env, b, Next(env, b, step, now), command, now) <==> !Releases(env, b, step, now)
  {
    hide ReadOwn, Fit, MemoryCanonical, StartingAnalysis, BeginningLoad, Loading, RefusingAnalysis, Answering, Refusing,
      ResolvingConflict, Invalidating, AnalysisDeadline, LoadReleases, AnswerReleases, RefusalReleases, ResolutionReleases;
    match step {
      case Analyze(captured, pending, deadline) => AnalyzeKeepsIff(env, b, captured, pending, deadline, now, command);
      case BeginLoad => BeginningKeeps(env, b, now, command);
      case LoadArrived(load, response) => LoadKeepsIff(env, b, load, response, now, command);
      case AnalysisRefused(pending) => RefusalOfAnalysisReleases(env, b, pending, now, command);
      case AnswerArrived(c, read, response, workflowId) => AnswerKeepsIff(env, b, c, read, response, workflowId, now, command);
      case RefusalArrived(c, conflict) => RefusalKeepsIff(env, b, c, conflict, now, command);
      case ResolveConflict => ResolutionKeepsIff(env, b, now, command);
      case Gone => GoneReleases(env, b, now);
    }
  }

  lemma LoudKeepsIff(env: BriefEnvironment, b: Bench, step: Step, now: int, command: BriefCommand)
    requires Fit(env, b) && MemoryCanonical(env, b) && Holds(env, b, command, now) && Keyed(step) && !Silent(step)
    ensures Keeps(env, b, Next(env, b, step, now), command, now) <==> !Releases(env, b, step, now)
  {
    hide ReadOwn, Fit, MemoryCanonical, Confirming, Doubting, Mounting, Sending, ConfirmReleases, LostReleases, MarkerNames;
    match step {
      case Revise(_, _) =>
      case Confirm(current, payload, deadline, key) => ConfirmKeepsIff(env, b, current, payload, deadline, key, now, command);
      case Lost(c) => LostKeepsIff(env, b, c, now, command);
      case Mount(identity) => MountKeepsIff(env, b, identity, now, command);
      case Retry => SentIffDurable(env, b, command, now);
    }
  }

  // ------------------------------------------------------------ main results

  // Held at the time of every step of a run, before it and after it.
  ghost predicate HeldThroughout(env: BriefEnvironment, b: Bench, run: seq<Timed>, command: BriefCommand)
    decreases |run|
  {
    run == [] ||
    (var (step, now) := (run[0].step, run[0].now);
     var t := Next(env, b, step, now);
     Holds(env, b, command, now) && Keeps(env, b, t, command, now) && HeldThroughout(env, t, run[1..], command))
  }

  // No step comes after the stored deadline, and none releases.
  ghost predicate NothingReleases(env: BriefEnvironment, b: Bench, run: seq<Timed>)
    decreases |run|
  {
    run == [] ||
    (var (step, now) := (run[0].step, run[0].now);
     && ReadOwn(env, b, now).Some? && !Releases(env, b, step, now)
     && NothingReleases(env, Next(env, b, step, now), run[1..]))
  }

  // Over any run, from any moment at which memory and its record hold a pending
  // command: both hold it through the whole run exactly when no step of the run
  // releases it and the stored deadline does not pass.
  lemma {:induction false} HeldUntilReleased(
    env: BriefEnvironment, b: Bench, run: seq<Timed>, command: BriefCommand, since: int)
    requires Fit(env, b) && MemoryCanonical(env, b) && Holds(env, b, command, since)
    requires forall i :: 0 <= i < |run| ==> Keyed(run[i].step) && since <= run[i].now
    requires forall i, j :: 0 <= i <= j < |run| ==> run[i].now <= run[j].now
    ensures HeldThroughout(env, b, run, command) <==> NothingReleases(env, b, run)
    decreases |run|
  {
    if run != [] {
      var (step, now) := (run[0].step, run[0].now);
      var t := Next(env, b, step, now);
      hide Next, Fit, MemoryCanonical, ReadOwn, Releases, Keyed;
      if ReadOwn(env, b, now).Some? {
        LaterRead(env, b, since, now);
        StepKeepsIff(env, b, step, now, command);
        StepSendsDurably(env, b, step, now);
        if !Releases(env, b, step, now) { HeldUntilReleased(env, t, run[1..], command, now); }
      }
    }
  }

  // A settlement, and the server's word that the brief is gone, release the
  // command from memory and from its record at once.
  lemma SettledFromBoth(env: BriefEnvironment, b: Bench, step: Step, now: int, command: BriefCommand)
    requires Fit(env, b) && MemoryCanonical(env, b) && Holds(env, b, command, now)
    requires step.AnswerArrived? || step.RefusalArrived? || step.ResolveConflict? || step.Gone?
    requires Releases(env, b, step, now)
    ensures Forgotten(env, Next(env, b, step, now), now)
  {
    hide ReadOwn, Fit, MemoryCanonical, Answering, Refusing, ResolvingConflict, Invalidating, AnswerReleases, RefusalReleases,
      ResolutionReleases, Forgotten;
    match step {
      case AnswerArrived(c, read, response, workflowId) => AnswerKeepsIff(env, b, c, read, response, workflowId, now, command);
      case RefusalArrived(c, conflict) => RefusalKeepsIff(env, b, c, conflict, now, command);
      case ResolveConflict => ResolutionKeepsIff(env, b, now, command);
      case Gone => GoneReleases(env, b, now);
    }
  }
}
