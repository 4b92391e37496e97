// Runs of the Product Brief protocol: whatever happens in whatever order, a
// revise or confirm request leaves only when memory and storage both hold
// exactly its command as pending, and storage holds one identity's record only.
module BriefProtocolRuns {
  import opened Texts
  import opened Json
  import opened PendingCommand
  import opened KeyCodec
  import opened BriefRecord
  import opened BriefRoundTrip
  import opened BriefPersistence
  import opened BriefPersistenceRuns
  import opened BriefController
  import opened BriefWorkbench
  import opened BriefProtocol

  // The page's callbacks between two waits.  What a callback captured before
  // it waited, and the answer it waited for, are arbitrary.
  datatype Step =
    | Revise(payload: BriefPayload, key: Text)
    | Confirm(current: Brief, payload: BriefPayload, workflowDeadline: Option<Text>, key: Text)
    | Analyze(captured: Option<Brief>, pending: Analysis, workflowDeadline: Option<Text>)
    | BeginLoad
    | LoadArrived(load: Load, response: Brief)
    | RequestAnalysis(pending: Analysis)
    | AnalysisAccepted(start: Record, pending: Analysis, accepted: Accepted)
    | AnalysisLoaded
    | AnalysisRefused(pending: Analysis)
    | AnalysisLost(pending: Analysis)
    | AnswerArrived(command: BriefCommand, read: Stamp, response: Brief, workflowId: Text)
    | RefusalArrived(command: BriefCommand, conflict: bool)
    | Lost(command: BriefCommand)
    | ResolveConflict
    | Mount(identity: BriefIdentity)
    | Retry
    | Gone

  function Next(env: BriefEnvironment, b: Bench, step: Step, now: int): Bench {
    match step
    case Revise(payload, key) => Revising(env, b, payload, key, now).0
    case Confirm(current, payload, deadline, key) => Confirming(env, b, current, payload, deadline, key, now).0
    case Analyze(captured, pending, deadline) => StartingAnalysis(env, b, captured, pending, deadline, now).0
    case BeginLoad => BeginningLoad(env, b, now).0
    case LoadArrived(load, response) => Loading(env, b, load, response, now).0
    case RequestAnalysis(pending) => RequestingAnalysis(env, b, pending, now).0
    case AnalysisAccepted(start, pending, accepted) =>
      if start.content == Analysing(pending) then AcceptingAnalysis(env, b, start, pending, accepted, now).0 else b
    case AnalysisLoaded => EndingAnalysis(b)
    case AnalysisRefused(pending) => RefusingAnalysis(env, b, pending, now)
    case AnalysisLost(pending) => DoubtingAnalysis(b, pending)
    case AnswerArrived(command, read, response, workflowId) => Answering(env, b, command, read, response, workflowId, now).0
    case RefusalArrived(command, conflict) => Refusing(env, b, command, conflict, now)
    case Lost(command) => Doubting(env, b, command)
    case ResolveConflict => ResolvingConflict(env, b, now).0
    case Mount(identity) => Mounting(env, b, identity, now)
    case Retry => Retrying(env, b, now)
    case Gone => Invalidating(b)
  }

  // The steps of recoverAnalysis beside the load and the refusal: they write
  // nothing.
  predicate AnalysisStep(step: Step) {
    step.RequestAnalysis? || step.AnalysisAccepted? || step.AnalysisLoaded? || step.AnalysisLost?
  }

  datatype Timed = Timed(step: Step, now: int)

  function After(env: BriefEnvironment, b: Bench, run: seq<Timed>): Bench
    decreases |run|
  {
    if run == [] then b else After(env, Next(env, b, run[0].step, run[0].now), run[1..])
  }

  // The page is opened for identities that have a storage key.
  predicate Keyed(step: Step) { step.Mount? ==> KeyOf(step.identity).Some? }

  function Pending(b: Bench): Option<BriefCommand> { b.controller.snapshot.pendingCommand }

  // -------------------------------------------------- reads of unchanged items

  lemma FitKept(env: BriefEnvironment, b: Bench, t: Bench)
    requires Fit(env, b) && Own(t) == Own(b)
    ensures Fit(env, t)
  {
  }

  lemma RecoveredReads(env: BriefEnvironment, b: Bench, s: State, now: int)
    requires s.snapshot.identity == Own(b)
    ensures ReadOwn(env, b.(controller := s), now) == ReadOwn(env, b, now)
  {
    hide Reading;
  }

  lemma ReadIgnoresReads(env: BriefEnvironment, b: Bench, command: BriefCommand, now: int)
    ensures var t := b.(controller := BeginningBriefRead(b.controller).0, sent := b.sent + [command]);
      ReadOwn(env, t, now) == ReadOwn(env, b, now)
  {
    hide Reading;
  }

  lemma ReadAfterSweep(env: BriefEnvironment, b: Bench, t: Bench, now: int)
    requires t.items == Sweeping(env, b.items, now) && Own(t) == Own(b)
    ensures ReadOwn(env, t, now) == ReadOwn(env, b, now)
  {
    hide Sweeping, Reading;
    SweepIsInvisible(env, b.items, Own(b), now);
  }

  lemma ClearedReadsNothing(env: BriefEnvironment, b: Bench, t: Bench, now: int)
    requires Fit(env, b) && t.items == ClearingRecord(b.items, Own(b)) && Own(t) == Own(b)
    ensures ReadOwn(env, t, now) == None
  {
    hide KeyOf, LegacyKey, Parsed, Canonicalizes, ParsesJson;
  }

  lemma LaterParse(env: BriefEnvironment, identity: BriefIdentity, v: Json, now: int, later: int)
    requires now <= later && ParseRecord(env, identity, v, later).Some?
    ensures ParseRecord(env, identity, v, now) == ParseRecord(env, identity, v, later)
  {
    hide ParseContent, Field, AssetIds, BoundedText, EndsWithZone, NameText;
  }

  lemma LaterRead(env: BriefEnvironment, b: Bench, now: int, later: int)
    requires now <= later && ReadOwn(env, b, later).Some?
    ensures ReadOwn(env, b, now) == ReadOwn(env, b, later)
  {
    hide KeyOf, LegacyKey, ParseRecord;
    var key := KeyOf(Own(b)).value;
    var raw := (b.items - {LegacyKey(Own(b).productId)})[key];
    LaterParse(env, Own(b), env.parse(raw).value, now, later);
  }

  // ----------------------------------------------------------- durable first

  ghost predicate MemoryCanonical(env: BriefEnvironment, b: Bench) {
    var n := b.controller.snapshot;
    && (n.pendingCommand.Some? <==> n.commandStatus.Some?)
    && (n.pendingCommand.Some? ==>
          CanonicalCommand(env, n.pendingCommand.value) && n.pendingCommand.value.productId == n.identity.productId)
  }

  // Memory and storage hold exactly this command, pending.
  ghost predicate Durable(env: BriefEnvironment, b: Bench, command: BriefCommand, now: int) {
    var n, r := b.controller.snapshot, ReadOwn(env, b, now);
    && r.Some? && r.value.content.Commanding? && r.value.content.status == Awaited
    && n.pendingCommand == Some(r.value.content.command) && n.commandStatus == Some(Awaited)
    && Canonical(env, command.productId, command) == Some(r.value.content.command)
  }

  lemma DurableIff(env: BriefEnvironment, b: Bench, command: BriefCommand, now: int)
    requires Fit(env, b) && MemoryCanonical(env, b)
    ensures ExactlyDurable(env, b.controller.snapshot, ReadOwn(env, b, now), command, Awaited) <==> Durable(env, b, command, now)
  {
    var n, r := b.controller.snapshot, ReadOwn(env, b, now);
    if r.Some? {
      ReadIsCanonical(env, b, now);
      if r.value.content.Commanding? { MatchBothWays(env, command, r.value.content.command); }
    }
    if n.pendingCommand.Some? { MatchBothWays(env, command, n.pendingCommand.value); }
    hide ReadOwn, CommandsMatch, Canonical, CanonicalCommand, RecordJson, ParseRecord;
  }

  // A revise or confirm request leaves exactly when memory and storage both
  // hold its command as pending, and they still do afterwards.
  lemma SentIffDurable(env: BriefEnvironment, b: Bench, command: BriefCommand, now: int)
    requires Fit(env, b) && MemoryCanonical(env, b)
    ensures var (b', dispatched) := Sending(env, b, command, now);
      && (dispatched <==> Durable(env, b, command, now))
      && (if dispatched then b'.sent == b.sent + [command] && Durable(env, b', command, now)
          else b'.sent == b.sent && b'.controller == b.controller)
      && MemoryCanonical(env, b') && Own(b') == Own(b)
      && b'.controller.snapshot == b.controller.snapshot && ReadOwn(env, b', now) == ReadOwn(env, b, now)
  {
    DurableIff(env, b, command, now);
    ReadTwice(env, b, now);
    ReadIgnoresReads(env, ReadingOwn(env, b, now).0, command, now);
    ReadOwnIs(env, b, now);
    hide ReadingOwn, ReadOwn, ExactlyDurable, Canonical, CanonicalCommand;
  }

  // Whether the writer accepts a record.
  predicate Storable(env: BriefEnvironment, b: Bench, value: Record, now: int) {
    ParseRecord(env, Own(b), RecordJson(value), now).Some?
  }

  // The canonical form of what the writer accepts.
  lemma WrittenCommand(env: BriefEnvironment, b: Bench, value: Record, now: int)
    requires Fit(env, b) && value.content.Commanding? && ParseRecord(env, Own(b), RecordJson(value), now).Some?
    ensures var r := ParseRecord(env, Own(b), RecordJson(value), now).value;
      && r.content.Commanding? && r.content == value.content.(command := r.content.command)
      && Canonical(env, Own(b).productId, value.content.command) == Some(r.content.command)
      && CanonicalCommand(env, r.content.command) && value.content.command.productId == Own(b).productId
  {
    hide ParseRecord, RecordJson, ParseCommand, CommandJson;
    var r := ParseRecord(env, Own(b), RecordJson(value), now).value;
    CanonicalParts(env, Own(b), value, now, r);
    FrameIsOwn(env, Own(b).productId, value.content.briefId, value.content.command);
    CanonicalIsCanonical(env, Own(b).productId, value.content.briefId, value.content.command, r.content.command);
  }

  // Whatever the writer accepts, memory accepts: the stored command becomes the
  // pending one, so a submission whose record is written is always sent.
  lemma WrittenIsRecovered(env: BriefEnvironment, b: Bench, value: Record, now: int)
    requires Fit(env, b) && BriefIdentity(value.workspaceId, value.productId) == Own(b)
    requires value.content.Commanding? && WritingOwn(env, b, value, now).1
    ensures var b1 := WritingOwn(env, b, value, now).0;
      var (s, recovered) := RecoveringCommand(env, b1.controller, value.content.command, value.content.status);
      && recovered
      && ReadOwn(env, b1, now).Some? && ReadOwn(env, b1, now).value.content
           == value.content.(command := s.snapshot.pendingCommand.value)
      && s.snapshot == b1.controller.snapshot.(pendingCommand := s.snapshot.pendingCommand, commandStatus := Some(value.content.status))
      && CanonicalCommand(env, s.snapshot.pendingCommand.value)
      && s.snapshot.pendingCommand == Canonical(env, Own(b).productId, value.content.command)
      && value.content.command.productId == Own(b).productId
  {
    hide WritingOwn, ParseRecord, RecordJson, CommandJson, ParseCommand, CanonicalCommand, ReadOwn;
    OwnWrite(env, b, value, now);
    var b1 := WritingOwn(env, b, value, now).0;
    FitKept(env, b, b1);
    WrittenCommand(env, b, value, now);
    ReadIsCanonical(env, b1, now);
  }

  lemma RememberedIsDurable(env: BriefEnvironment, b: Bench, value: Record, command: BriefCommand, now: int)
    requires Fit(env, b) && BriefIdentity(value.workspaceId, value.productId) == Own(b)
    requires value.content.Commanding? && value.content.command == command && value.content.status == Awaited
    requires WritingOwn(env, b, value, now).1
    ensures var b2 := WritingOwn(env, b, value, now).0;
      var b3 := b2.(controller := RecoveringCommand(env, b2.controller, command, Awaited).0);
      Fit(env, b3) && MemoryCanonical(env, b3) && Durable(env, b3, command, now) && b3.sent == b.sent && Own(b3) == Own(b)
  {
    OwnWrite(env, b, value, now);
    WrittenIsRecovered(env, b, value, now);
    var b2 := WritingOwn(env, b, value, now).0;
    RecoveredReads(env, b2, RecoveringCommand(env, b2.controller, command, Awaited).0, now);
    hide WritingOwn, ReadOwn, RecoveringCommand, ParseRecord, RecordJson, Canonical, CanonicalCommand;
  }

  lemma WrittenThenSent(env: BriefEnvironment, b: Bench, value: Record, command: BriefCommand, now: int)
    requires Fit(env, b) && BriefIdentity(value.workspaceId, value.productId) == Own(b)
    requires value.content.Commanding? && value.content.command == command && value.content.status == Awaited
    requires WritingOwn(env, b, value, now).1
    ensures var b2 := WritingOwn(env, b, value, now).0;
      var b3 := b2.(controller := RecoveringCommand(env, b2.controller, command, Awaited).0);
      var (b', dispatched) := Sending(env, b3, command, now);
      && dispatched && MemoryCanonical(env, b') && Durable(env, b', command, now)
      && b'.sent == b.sent + [command] && Own(b') == Own(b)
  {
    RememberedIsDurable(env, b, value, command, now);
    var b2 := WritingOwn(env, b, value, now).0;
    var b3 := b2.(controller := RecoveringCommand(env, b2.controller, command, Awaited).0);
    hide WritingOwn, RecoveringCommand, Durable, MemoryCanonical;
    SentIffDurable(env, b3, command, now);
  }

  function SubmissionDeadline(
    env: BriefEnvironment, b: Bench, current: Brief, deadlines: seq<Option<Text>>, now: int): Option<Text>
  {
    EarliestActive(env, deadlines + StoredDeadline(ReadOwn(env, b, now), current.id, current.workflowId), now)
  }

  // What a submission may write.
  predicate SubmissionStorable(
    env: BriefEnvironment, b: Bench, current: Brief, command: BriefCommand, deadlines: seq<Option<Text>>, now: int)
    requires SubmissionDeadline(env, b, current, deadlines, now).Some?
  {
    Storable(env, b, CommandRecord(b, ReadOwn(env, b, now), current, command,
                                   SubmissionDeadline(env, b, current, deadlines, now).value), now)
  }

  // Persist, remember, send: without a common deadline nothing happens; a
  // record the writer accepts is written, remembered and sent; one it refuses
  // closes the workbench.
  lemma SubmittingOutcome(
    env: BriefEnvironment, b: Bench, current: Brief, command: BriefCommand, deadlines: seq<Option<Text>>, now: int)
    requires Fit(env, b)
    ensures var (t, dispatched) := Submitting(env, b, current, command, deadlines, now);
      var deadline := SubmissionDeadline(env, b, current, deadlines, now);
      && Own(t) == Own(b)
      && (dispatched <==> deadline.Some? && SubmissionStorable(env, b, current, command, deadlines, now))
      && (if dispatched then
            t.sent == b.sent + [command] && MemoryCanonical(env, t) && Durable(env, t, command, now)
          else
            && t.sent == b.sent
            && (if deadline.None? then t.controller == b.controller && ReadOwn(env, t, now) == ReadOwn(env, b, now)
                else t.controller == ExpiringRetention(b.controller) && ReadOwn(env, t, now) == None))
  {
    ReadTwice(env, b, now);
    ReadOwnIs(env, b, now);
    var (b1, persisted) := ReadingOwn(env, b, now);
    var deadline := SubmissionDeadline(env, b, current, deadlines, now);
    if deadline.Some? {
      var value := CommandRecord(b, persisted, current, command, deadline.value);
      FitKept(env, b, b1);
      OwnWrite(env, b1, value, now);
      if WritingOwn(env, b1, value, now).1 {
        hide Durable, MemoryCanonical;
        WrittenThenSent(env, b1, value, command, now);
      }
    }
    hide ReadingOwn, ReadOwn, WritingOwn, RecoveringCommand, ParseRecord, RecordJson, EarliestActive, Sending, Fit;
  }

  // ------------------------------------------------- steps that send nothing

  // Nothing sent, the identity kept, and a pending command kept or forgotten.
  ghost predicate Quiet(b: Bench, t: Bench) {
    var n, m := b.controller.snapshot, t.controller.snapshot;
    && t.sent == b.sent && m.identity == n.identity
    && ((m.pendingCommand == n.pendingCommand && (m.commandStatus.Some? <==> n.commandStatus.Some?))
        || (m.pendingCommand.None? && m.commandStatus.None?))
  }

  // Only the identity's own item may have appeared, and the marker is as it was.
  ghost predicate Local(b: Bench, t: Bench) {
    && (MARKER_KEY in t.items <==> MARKER_KEY in b.items)
    && (MARKER_KEY in b.items ==> t.items[MARKER_KEY] == b.items[MARKER_KEY])
    && forall key :: key in t.items && InNamespace(key) ==> key in b.items || KeyOf(Own(b)) == Some(key)
  }

  lemma ReadingQuiet(env: BriefEnvironment, b: Bench, now: int)
    ensures var t := ReadingOwn(env, b, now).0; Quiet(b, t) && Local(b, t) && t.controller == b.controller
  {
    MarkerApart(Own(b));
    hide KeyOf, Parsed, LegacyKey;
  }

  // The marker is neither a record's item nor a legacy one.
  lemma MarkerApart(identity: BriefIdentity)
    ensures LegacyKey(identity.productId) != MARKER_KEY && KeyOf(identity) != Some(MARKER_KEY)
    ensures !InNamespace(MARKER_KEY)
  {
    MarkersOutside();
    LegacyIsNamespace(identity.productId);
    if KeyOf(identity).Some? { KeyNotLegacy(identity); }
  }

  lemma WritingQuiet(env: BriefEnvironment, b: Bench, value: Record, now: int)
    requires BriefIdentity(value.workspaceId, value.productId) == Own(b)
    ensures var t := WritingOwn(env, b, value, now).0; Quiet(b, t) && Local(b, t)
  {
    MarkerApart(Own(b));
    ReadingQuiet(env, b, now);
    var b1 := ReadingOwn(env, b, now).0;
    hide ReadingOwn, KeyOf, LegacyKey, InNamespace, IsActiveDeadline, ParseRecord, RecordJson, Stringify, Survives;
  }

  lemma ClearingQuiet(b: Bench, t: Bench)
    requires t.items == ClearingRecord(b.items, Own(b)) && Quiet(b, t)
    ensures Local(b, t)
  {
    MarkerApart(Own(b));
    hide KeyOf, LegacyKey, InNamespace;
  }

  lemma QuietThen(b: Bench, t: Bench, u: Bench)
    requires Quiet(b, t) && Local(b, t) && Quiet(t, u) && Local(t, u)
    ensures Quiet(b, u) && Local(b, u)
  {
  }

  lemma PublishLeavesPending(s: State, token: Stamp, brief: Brief, resetForm: bool)
    ensures var t := PublishingBrief(s, token, brief, resetForm).0;
      && t.snapshot.identity == s.snapshot.identity && t.snapshot.pendingCommand == s.snapshot.pendingCommand
      && t.snapshot.commandStatus == s.snapshot.commandStatus
  {
  }

  lemma ReadOfOwner(env: BriefEnvironment, b: Bench, now: int)
    ensures var r := ReadOwn(env, b, now);
      r.Some? ==> BriefIdentity(r.value.workspaceId, r.value.productId) == Own(b)
  {
    hide KeyOf, LegacyKey, IsActiveDeadline, BoundedText, AssetIds, ParseContent, Field, NameText;
  }

  lemma LoadingQuiet(env: BriefEnvironment, b: Bench, load: Load, response: Brief, now: int)
    ensures var t := Loading(env, b, load, response, now).0; Quiet(b, t) && Local(b, t)
  {
    ReadingQuiet(env, b, now);
    ReadOfOwner(env, b, now);
    ReadOwnIs(env, b, now);
    var (b1, persisted) := ReadingOwn(env, b, now);
    hide ReadingOwn, ReadOwn, LoadDeadline, LoadMatches;
    if LoadMatches(Own(b), load, response) && LoadDeadline(env, load, persisted, response, now).Some? {
      var deadline := LoadDeadline(env, load, persisted, response, now).value;
      var current := response.(retentionDeadline := deadline);
      var (s, published) := PublishingBrief(b1.controller, load.read, current, load.resetForm);
      PublishLeavesPending(b1.controller, load.read, current, load.resetForm);
      var b2 := b1.(controller := s);
      QuietThen(b, b1, b2);
      if published {
        var value := LoadedRecord(Own(b), persisted, current, deadline);
        WritingQuiet(env, b2, value, now);
        hide WritingOwn, LoadedRecord, PublishingBrief;
        QuietThen(b, b2, WritingOwn(env, b2, value, now).0);
      }
    }
  }

  lemma StartingQuiet(
    env: BriefEnvironment, b: Bench, captured: Option<Brief>, pending: Analysis, workflowDeadline: Option<Text>, now: int)
    ensures var t := StartingAnalysis(env, b, captured, pending, workflowDeadline, now).0; Quiet(b, t) && Local(b, t)
  {
    ReadingQuiet(env, b, now);
    var (b1, persisted) := ReadingOwn(env, b, now);
    hide ReadingOwn, EarliestActive, EstablishedDeadline, WritingOwn, Local;
    forall value: Record | BriefIdentity(value.workspaceId, value.productId) == Own(b)
      ensures Quiet(b, WritingOwn(env, b1, value, now).0) && Local(b, WritingOwn(env, b1, value, now).0)
    {
      WritingQuiet(env, b1, value, now);
      QuietThen(b, b1, WritingOwn(env, b1, value, now).0);
    }
    SameItemsLocal();
  }

  // Whatever happens to the controller alone is local.
  lemma SameItemsLocal()
    ensures forall b: Bench, t: Bench, s: State :: Local(b, t) && Own(t) == Own(b) ==> Local(b, t.(controller := s))
  {
  }

  lemma RequestingQuiet(env: BriefEnvironment, b: Bench, pending: Analysis, now: int)
    ensures var t := RequestingAnalysis(env, b, pending, now).0; Quiet(b, t) && Local(b, t)
  {
    ReadingQuiet(env, b, now);
    SameItemsLocal();
    hide ReadingOwn, Local;
  }

  lemma AcceptingQuiet(env: BriefEnvironment, b: Bench, start: Record, pending: Analysis, a: Accepted, now: int)
    requires start.content == Analysing(pending)
    ensures var t := AcceptingAnalysis(env, b, start, pending, a, now).0; Quiet(b, t) && Local(b, t)
  {
    ReadingQuiet(env, b, now);
    hide ReadingOwn, AcceptedMatches, DeadlineAtOrBefore, InNamespace, KeyOf;
  }

  lemma RefusingAnalysisQuiet(env: BriefEnvironment, b: Bench, pending: Analysis, now: int)
    ensures var t := RefusingAnalysis(env, b, pending, now); Quiet(b, t) && Local(b, t)
  {
    ReadingQuiet(env, b, now);
    ReadOfOwner(env, b, now);
    ReadOwnIs(env, b, now);
    var (b1, persisted) := ReadingOwn(env, b, now);
    hide ReadingOwn, ReadOwn;
    if AnalysisOnRecord(persisted, pending) && pending.prior.Some? {
      var value := persisted.value.(content := Published(pending.prior.value.briefId, pending.prior.value.operationId));
      WritingQuiet(env, b1, value, now);
      hide WritingOwn;
      QuietThen(b, b1, WritingOwn(env, b1, value, now).0);
    } else {
      var t := RefusingAnalysis(env, b, pending, now);
      ClearingQuiet(b1, t);
      hide ClearingRecord;
      QuietThen(b, b1, t);
    }
  }

  lemma SettlementOfOwner(
    env: BriefEnvironment, n: Snapshot, persisted: Option<Record>, command: BriefCommand, current: Option<Brief>, status: Status,
    transition: bool, now: int)
    requires transition ==> command.payload.Revise?
    requires Settlement(env, n, persisted, command, current, status, transition, now).Some?
    ensures ExactlyDurable(env, n, persisted, command, status)
    ensures var next := Settlement(env, n, persisted, command, current, status, transition, now).value;
      next.content.Published? && BriefIdentity(next.workspaceId, next.productId) == n.identity
  {
    hide EarliestActive, MatchesIdentity, MatchesRevision, CommandsMatch;
  }

  lemma SettlingQuiet(
    env: BriefEnvironment, b: Bench, command: BriefCommand, current: Option<Brief>, status: Status, transition: bool, now: int)
    requires transition ==> command.payload.Revise?
    ensures var t := Settling(env, b, command, current, status, transition, now).0; Quiet(b, t) && Local(b, t)
  {
    ReadingQuiet(env, b, now);
    var (b1, persisted) := ReadingOwn(env, b, now);
    hide ReadingOwn, Settlement, Releasing, ExactlyDurable, Local;
    var settlement := Settlement(env, b1.controller.snapshot, persisted, command, current, status, transition, now);
    if settlement.Some? {
      SettlementOfOwner(env, b1.controller.snapshot, persisted, command, current, status, transition, now);
      ReleasingQuiet(env, b1, settlement.value, command, now);
      QuietThen(b, b1, Releasing(env, b1, settlement.value, command, now).0);
    }
  }

  lemma ReleasingQuiet(env: BriefEnvironment, b: Bench, next: Record, command: BriefCommand, now: int)
    requires BriefIdentity(next.workspaceId, next.productId) == Own(b)
    ensures var t := Releasing(env, b, next, command, now).0; Quiet(b, t) && Local(b, t)
  {
    WritingQuiet(env, b, next, now);
    hide WritingOwn, CommandsMatch, InNamespace, KeyOf;
  }

  lemma AnsweringQuiet(env: BriefEnvironment, b: Bench, command: BriefCommand, read: Stamp, response: Brief, workflowId: Text, now: int)
    ensures var t := Answering(env, b, command, read, response, workflowId, now).0; Quiet(b, t) && Local(b, t)
  {
    ReadingQuiet(env, b, now);
    var (b1, persisted) := ReadingOwn(env, b, now);
    hide ReadingOwn, ExactlyDurable, MatchesIdentity, MatchesRevision;
    SettlingQuiet(env, b1, command, Some(response), Awaited, command.payload.Revise?, now);
    var (b2, deadline) := Settling(env, b1, command, Some(response), Awaited, command.payload.Revise?, now);
    hide Settling;
    QuietThen(b, b1, b2);
    if deadline.Some? {
      PublishLeavesPending(b2.controller, read, response.(retentionDeadline := deadline.value), true);
      hide PublishingBrief;
    }
  }

  lemma RefusingQuiet(env: BriefEnvironment, b: Bench, command: BriefCommand, conflict: bool, now: int)
    ensures var t := Refusing(env, b, command, conflict, now); Quiet(b, t) && Local(b, t)
  {
    SettlingQuiet(env, b, command, None, Awaited, false, now);
    ReadingQuiet(env, b, now);
    ReadOfOwner(env, b, now);
    ReadOwnIs(env, b, now);
    var (b1, persisted) := ReadingOwn(env, b, now);
    hide ReadingOwn, ReadOwn, Settling, CommandsMatch;
    if ExactlyDurable(env, b1.controller.snapshot, persisted, command, Awaited) {
      var r := persisted.value;
      var value := r.(content := r.content.(status := VersionConflict));
      WritingQuiet(env, b1, value, now);
      hide WritingOwn;
      QuietThen(b, b1, WritingOwn(env, b1, value, now).0);
    }
  }

  lemma InvalidatingQuiet(b: Bench)
    ensures Quiet(b, Invalidating(b)) && Local(b, Invalidating(b))
  {
    ClearingQuiet(b, Invalidating(b));
  }

  // The steps that neither send, nor remember, nor change the identity.
  predicate Silent(step: Step) {
    !step.Revise? && !step.Confirm? && !step.Lost? && !step.Mount? && !step.Retry?
  }

  lemma SilentIsQuiet(env: BriefEnvironment, b: Bench, step: Step, now: int)
    requires Silent(step)
    ensures Quiet(b, Next(env, b, step, now)) && Local(b, Next(env, b, step, now))
  {
    hide StartingAnalysis, Loading, RequestingAnalysis, AcceptingAnalysis, RefusingAnalysis, Answering, Refusing, Settling, Invalidating,
      InNamespace;
    match step {
      case Analyze(captured, pending, deadline) => StartingQuiet(env, b, captured, pending, deadline, now);
      case BeginLoad => ReadingQuiet(env, b, now); hide ReadingOwn;
      case LoadArrived(load, response) => LoadingQuiet(env, b, load, response, now);
      case RequestAnalysis(pending) => RequestingQuiet(env, b, pending, now);
      case AnalysisAccepted(start, pending, accepted) =>
        if start.content == Analysing(pending) { AcceptingQuiet(env, b, start, pending, accepted, now); }
      case AnalysisLoaded =>
      case AnalysisLost(_) =>
      case AnalysisRefused(pending) => RefusingAnalysisQuiet(env, b, pending, now);
      case AnswerArrived(command, read, response, workflowId) => AnsweringQuiet(env, b, command, read, response, workflowId, now);
      case RefusalArrived(command, conflict) => RefusingQuiet(env, b, command, conflict, now);
      case ResolveConflict =>
        if Pending(b).Some? && Pending(b).value.payload.Revise? {
          SettlingQuiet(env, b, Pending(b).value, b.controller.snapshot.brief, VersionConflict, false, now);
        }
      case Gone => InvalidatingQuiet(b);
    }
  }

  lemma QuietKeepsMemory(env: BriefEnvironment, b: Bench, t: Bench)
    requires MemoryCanonical(env, b) && Quiet(b, t)
    ensures MemoryCanonical(env, t)
  {
    hide CanonicalCommand;
  }

  // ---------------------------------------------------------- the other steps

  // At most one request is sent, and memory and storage hold it.
  ghost predicate SendsDurably(env: BriefEnvironment, b: Bench, t: Bench, now: int) {
    t.sent == b.sent ||
    (|t.sent| == |b.sent| + 1 && t.sent[..|b.sent|] == b.sent && Durable(env, t, t.sent[|b.sent|], now))
  }

  lemma NothingSent(env: BriefEnvironment, b: Bench, t: Bench, now: int)
    ensures t.sent == b.sent ==> SendsDurably(env, b, t, now)
  {
  }

  lemma OneSent(env: BriefEnvironment, b: Bench, t: Bench, command: BriefCommand, now: int)
    ensures t.sent == b.sent + [command] && Durable(env, t, command, now) ==> SendsDurably(env, b, t, now)
  {
    hide Durable;
  }

  lemma NothingPending(env: BriefEnvironment, b: Bench)
    ensures Pending(b).None? && b.controller.snapshot.commandStatus.None? ==> MemoryCanonical(env, b)
  {
  }

  lemma DoubtingKeepsMemory(env: BriefEnvironment, b: Bench, command: BriefCommand)
    requires Fit(env, b) && MemoryCanonical(env, b)
    ensures var t := Doubting(env, b, command); MemoryCanonical(env, t) && Own(t) == Own(b) && t.sent == b.sent
  {
    var canonical := Canonical(env, Own(b).productId, command);
    if canonical.Some? { CanonicalIsCanonical(env, Own(b).productId, command.briefId, command, canonical.value); }
    hide ParseCommand, CommandJson;
  }

  // Rebuilding finds what the record says, and sends it again if it is pending.
  lemma RebuildingOutcome(env: BriefEnvironment, b: Bench, now: int)
    requires Fit(env, b) && Pending(b).None? && b.controller.snapshot.commandStatus.None?
    ensures var t := Rebuilding(env, b, now);
      var r := ReadOwn(env, b, now);
      && Own(t) == Own(b) && MemoryCanonical(env, t) && ReadOwn(env, t, now) == r && SendsDurably(env, b, t, now)
      && Pending(t) == (if r.Some? && r.value.content.Commanding? then Some(r.value.content.command) else None)
      && (r.None? || !r.value.content.Commanding? ==> t.sent == b.sent)
  {
    ReadTwice(env, b, now);
    ReadOwnIs(env, b, now);
    var (b1, persisted) := ReadingOwn(env, b, now);
    FitKept(env, b, b1);
    NothingSent(env, b, Rebuilding(env, b, now), now);
    NothingPending(env, Rebuilding(env, b, now));
    hide ReadingOwn, ReadOwn, Fit, MemoryCanonical, SendsDurably, RecoveringCommand, Sending;
    if persisted.Some? {
      match persisted.value.content {
        case Published(_, _) =>
        case Analysing(a) => RecoveredReads(env, b1, RecoveringAnalysis(b1.controller, a), now);
        case Commanding(_, _, command, status) =>
          CommandRebuilt(env, b1, persisted.value, now);
          SentFrom(env, b, b1, Rebuilding(env, b, now), now);
      }
    }
  }

  lemma SentFrom(env: BriefEnvironment, b: Bench, b1: Bench, t: Bench, now: int)
    requires SendsDurably(env, b1, t, now) && b1.sent == b.sent
    ensures SendsDurably(env, b, t, now)
  {
    hide Durable;
  }

  lemma CommandRebuilt(env: BriefEnvironment, b: Bench, r: Record, now: int)
    requires Fit(env, b) && ReadOwn(env, b, now) == Some(r) && r.content.Commanding?
    ensures var b2 := b.(controller := RecoveringCommand(env, b.controller, r.content.command, r.content.status).0);
      var t := if r.content.status == Awaited then Sending(env, b2, r.content.command, now).0 else b2;
      && Own(t) == Own(b) && MemoryCanonical(env, t) && ReadOwn(env, t, now) == Some(r) && SendsDurably(env, b, t, now)
      && Pending(t) == Some(r.content.command)
  {
    hide ReadOwn, ParseRecord, RecordJson;
    ReadIsCanonical(env, b, now);
    var s := RecoveringCommand(env, b.controller, r.content.command, r.content.status).0;
    var b2 := b.(controller := s);
    assert Pending(b2) == Some(r.content.command) && s.snapshot.commandStatus == Some(r.content.status);
    RecoveredReads(env, b, s, now);
    FitKept(env, b, b2);
    hide RecoveringCommand, ReadOwn, CanonicalCommand, ParseRecord, RecordJson, Fit;
    SentIffDurable(env, b2, r.content.command, now);
    hide Sending, Durable;
  }

  lemma MountingOutcome(env: BriefEnvironment, b: Bench, identity: BriefIdentity, now: int)
    requires Canonicalizes(env) && ParsesJson(env.parse) && KeyOf(identity).Some?
    ensures var t := Mounting(env, b, identity, now);
      && Fit(env, t) && Own(t) == identity && MemoryCanonical(env, t) && SendsDurably(env, b, t, now)
  {
    var (items, active) := Activating(env, b.items, identity);
    var mounted := b.(items := Sweeping(env, items, now), controller := Restarting(b.controller, identity));
    hide Activating, Sweeping, Rebuilding, KeyOf;
    assert Fit(env, mounted);
    if active {
      RebuildingOutcome(env, mounted, now);
      FitKept(env, mounted, Rebuilding(env, mounted, now));
    }
  }

  // ------------------------------------------------------------ every step

  lemma StepSendsDurably(env: BriefEnvironment, b: Bench, step: Step, now: int)
    requires Fit(env, b) && MemoryCanonical(env, b) && Keyed(step)
    ensures var t := Next(env, b, step, now);
      && Fit(env, t) && MemoryCanonical(env, t) && SendsDurably(env, b, t, now)
      && Own(t) == (if step.Mount? then step.identity else Own(b))
  {
    var t := Next(env, b, step, now);
    if Silent(step) {
      SilentIsQuiet(env, b, step, now);
      hide Next, Fit, MemoryCanonical;
      QuietKeepsMemory(env, b, t);
      FitKept(env, b, t);
    } else {
      hide Next, Fit, MemoryCanonical, SendsDurably;
      LoudSendsDurably(env, b, step, now);
    }
  }

  lemma LoudSendsDurably(env: BriefEnvironment, b: Bench, step: Step, now: int)
    requires Fit(env, b) && MemoryCanonical(env, b) && Keyed(step) && !Silent(step)
    ensures var t := Next(env, b, step, now);
      && Fit(env, t) && MemoryCanonical(env, t) && SendsDurably(env, b, t, now)
      && Own(t) == (if step.Mount? then step.identity else Own(b))
  {
    var t := Next(env, b, step, now);
    NothingSent(env, b, t, now);
    hide Submitting, Doubting, Mounting, Sending, Fit, MemoryCanonical, Durable, SendsDurably;
    match step {
      case Revise(payload, key) =>
        var n := b.controller.snapshot;
        if n.brief.Some? && n.pendingCommand.None? {
          SubmissionStep(env, b, n.brief.value, BriefCommand(n.identity.productId, n.brief.value.id, key, payload),
                         [Some(n.brief.value.retentionDeadline)], now);
        }
      case Confirm(current, payload, deadline, key) =>
        SubmissionStep(env, b, current, BriefCommand(Own(b).productId, current.id, key, payload),
                       [deadline, Some(current.retentionDeadline)], now);
      case Lost(command) => DoubtingKeepsMemory(env, b, command); FitKept(env, b, t);
      case Mount(identity) => MountingStep(env, b, identity, now);
      case Retry =>
        if Pending(b).Some? {
          SentIffDurable(env, b, Pending(b).value, now);
          OneSent(env, b, t, Pending(b).value, now);
          FitKept(env, b, Sending(env, b, Pending(b).value, now).0);
        }
    }
  }

  lemma MountingStep(env: BriefEnvironment, b: Bench, identity: BriefIdentity, now: int)
    requires Fit(env, b) && KeyOf(identity).Some?
    ensures var t := Mounting(env, b, identity, now);
      Fit(env, t) && Own(t) == identity && MemoryCanonical(env, t) && SendsDurably(env, b, t, now)
  {
    MountingOutcome(env, b, identity, now);
  }

  lemma SubmissionStep(
    env: BriefEnvironment, b: Bench, current: Brief, command: BriefCommand, deadlines: seq<Option<Text>>, now: int)
    requires Fit(env, b) && MemoryCanonical(env, b)
    ensures var t := Submitting(env, b, current, command, deadlines, now).0;
      Fit(env, t) && MemoryCanonical(env, t) && SendsDurably(env, b, t, now) && Own(t) == Own(b)
  {
    SubmittingOutcome(env, b, current, command, deadlines, now);
    FitKept(env, b, Submitting(env, b, current, command, deadlines, now).0);
    hide Submitting, CanonicalCommand, Durable, Fit, SubmissionStorable, SubmissionDeadline;
  }

  lemma {:induction false} RunIsFit(env: BriefEnvironment, b: Bench, run: seq<Timed>)
    requires Fit(env, b) && MemoryCanonical(env, b) && forall i :: 0 <= i < |run| ==> Keyed(run[i].step)
    ensures Fit(env, After(env, b, run)) && MemoryCanonical(env, After(env, b, run))
    decreases |run|
  {
    if run != [] {
      StepSendsDurably(env, b, run[0].step, run[0].now);
      hide Next, Fit, MemoryCanonical, Keyed;
      RunIsFit(env, Next(env, b, run[0].step, run[0].now), run[1..]);
    }
  }

  // ------------------------------------------------------------ main results

  // In every run, whatever the order of its steps, at most one revise or
  // confirm request leaves in a step; when it does, memory and storage hold
  // exactly its command as pending, and it names the identity's product.
  lemma {:induction false} EveryRunSendsDurably(env: BriefEnvironment, b: Bench, run: seq<Timed>, step: Step, now: int)
    requires Fit(env, b) && MemoryCanonical(env, b)
    requires Keyed(step) && forall i :: 0 <= i < |run| ==> Keyed(run[i].step)
    ensures var c := After(env, b, run);
      var t := Next(env, c, step, now);
      t.sent == c.sent ||
      (&& |t.sent| == |c.sent| + 1 && t.sent[..|c.sent|] == c.sent
       && Durable(env, t, t.sent[|c.sent|], now) && t.sent[|c.sent|].productId == Own(t).productId)
  {
    RunIsFit(env, b, run);
    var c := After(env, b, run);
    StepSendsDurably(env, c, step, now);
    var t := Next(env, c, step, now);
    hide After, Next, Keyed, Fit;
    if t.sent != c.sent { DurableNamesProduct(env, t, t.sent[|c.sent|], now); }
  }

  lemma DurableNamesProduct(env: BriefEnvironment, b: Bench, command: BriefCommand, now: int)
    requires Fit(env, b) && MemoryCanonical(env, b) && Durable(env, b, command, now)
    ensures command.productId == Own(b).productId
  {
    var canonical := Pending(b).value;
    CanonicalIsCanonical(env, command.productId, command.briefId, command, canonical);
    hide ReadOwn, ParseCommand, CommandJson, CanonicalCommand;
  }
}
