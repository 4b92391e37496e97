// Operations that overlap: confirm, analyze and load test for a pending command
// only before they wait.  From empty storage the page reaches a state in which
// each of them, resuming, takes a pending command off its record.
module BriefOverlaps {
  import opened Texts
  import opened Json
  import opened PendingCommand
  import opened KeyCodec
  import opened BriefRecord
  import opened BriefRoundTrip
  import opened BriefPersistence
  import opened BriefPersistenceRuns
  import opened BriefController
  import opened BriefWorkbench
  import opened BriefProtocol
  import opened BriefProtocolRuns
  import opened BriefIdentityRuns
  import opened BriefPendingRuns
  import opened BriefDeadlines

  // --------------------------------------------------- records that are stored

  // A confirmation within the limits is its own canonical form.
  lemma ConfirmationParses(p: BriefPayload)
    requires p.Confirm? && p.reasonCode.Missing? && p.commentRef.Missing?
    requires 1 <= p.expectedVersion <= MAXIMUM_SAFE_INTEGER && 1 <= p.expectedWorkflowVersion <= MAXIMUM_SAFE_INTEGER
    requires 1 <= |p.versionId| <= 36
    ensures ParseConfirmation(PayloadJson(p)) == Some(p)
  {
    hide NameText, Ascii, Field;
    ConfirmationFields(p);
    ConfirmationKeys(p);
  }

  lemma ConfirmCommandParses(env: BriefEnvironment, c: BriefCommand)
    requires ParseConfirmation(PayloadJson(c.payload)) == Some(c.payload) && c.payload.Confirm?
    requires 1 <= |c.productId| <= 36 && 1 <= |c.briefId| <= 36 && 8 <= |c.idempotencyKey| <= 256
    ensures CanonicalCommand(env, c)
  {
    hide NameText, Ascii, ParseConfirmation, ParseRevision, PayloadJson;
    KindsDiffer();
    var values := [Num(1), Str(KindText(c.payload)), Str(c.productId), Str(c.briefId), PayloadJson(c.payload), Str(c.idempotencyKey)];
    ObjectReads(COMMAND_NAMES, values);
    var o := Object(COMMAND_NAMES, values);
    hide Field, Object;
    assert Field(o, COMMAND_NAMES[0]) == Some(values[0]) && Field(o, COMMAND_NAMES[1]) == Some(values[1]);
    assert Field(o, COMMAND_NAMES[2]) == Some(values[2]) && Field(o, COMMAND_NAMES[3]) == Some(values[3]);
    assert Field(o, COMMAND_NAMES[4]) == Some(values[4]) && Field(o, COMMAND_NAMES[5]) == Some(values[5]);
  }

  // A record within the limits whose content is accepted is accepted.
  lemma RecordParses(env: BriefEnvironment, identity: BriefIdentity, r: Record, now: int)
    requires Bounded(identity) && BriefIdentity(r.workspaceId, r.productId) == identity
    requires 1 <= |r.workflowId| <= 36 && IsActiveDeadline(env, r.retentionDeadline, now)
    requires AssetIds(Some(TextsJson(r.assetVersionIds)), if r.content.Analysing? then 1 else 0) == Some(r.assetVersionIds)
    requires ParseContent(env, identity, r.workflowId, r.assetVersionIds, RecordJson(r)) == Some(r.content)
    ensures ParseRecord(env, identity, RecordJson(r), now) == Some(r)
  {
    RecordFields(r);
    hide NameText, Ascii, Field, ExactFields, RecordJson, ParseContent, TextsJson, AssetIds, ContentValues, Bounded, EndsWithZone;
  }

  lemma AssetsParse(ids: seq<Text>, minimum: nat)
    requires minimum <= |ids| <= 1 && forall id <- ids :: 1 <= |id| <= 36
    ensures AssetIds(Some(TextsJson(ids)), minimum) == Some(ids)
  {
    assert TextValues(TextsJson(ids).items) == ids;
  }

  lemma PriorParses(prior: Option<Prior>)
    requires prior.Some? ==> 1 <= |prior.value.briefId| <= 36 && 1 <= |prior.value.operationId| <= 36
    ensures ParsePrior(PriorJson(prior)) == Some(prior)
  {
    hide NameText, Ascii;
    if prior.Some? {
      var values := [Str(prior.value.briefId), Str(prior.value.operationId)];
      ObjectReads(PRIOR_NAMES, values);
      hide Field, Object, ExactFields;
      assert Field(PriorJson(prior), PRIOR_NAMES[0]) == Some(values[0]) && Field(PriorJson(prior), PRIOR_NAMES[1]) == Some(values[1]);
    }
  }

  lemma AnalysisParses(a: Analysis)
    requires 1 <= |a.productId| <= 36 && 1 <= |a.workflowId| <= 36 && 8 <= |a.idempotencyKey| <= 256
    requires a.prior.Some? ==> 1 <= |a.prior.value.briefId| <= 36 && 1 <= |a.prior.value.operationId| <= 36
    requires 1 <= a.expectedWorkflowVersion <= MAXIMUM_SAFE_INTEGER
    requires AssetIds(Some(TextsJson(a.assetVersionIds)), 1) == Some(a.assetVersionIds)
    ensures ParseAnalysis(a.productId, a.workflowId, a.assetVersionIds, AnalysisJson(a)) == Some(a)
  {
    hide NameText, Ascii, Stringify;
    RequestBack(a);
    PriorParses(a.prior);
    var values := [RequestJson(a), Str(a.idempotencyKey), PriorJson(a.prior)];
    ObjectReads(ANALYSIS_NAMES, values);
    var o := Object(ANALYSIS_NAMES, values);
    hide Field, Object, AssetIds, RequestJson, TextsJson, ParsePrior, PriorJson;
    assert Field(o, ANALYSIS_NAMES[0]) == Some(values[0]) && Field(o, ANALYSIS_NAMES[1]) == Some(values[1]);
    assert Field(o, ANALYSIS_NAMES[2]) == Some(values[2]);
  }

  // ------------------------------------------------------------ a fresh load

  ghost predicate Fits(env: BriefEnvironment, b: Bench, brief: Brief, now: int) {
    && BriefIdentity(brief.workspaceId, brief.productId) == Own(b) && Bounded(Own(b))
    && 1 <= |brief.id| <= 36 && 1 <= |brief.workflowId| <= 36 && 1 <= |brief.operationId| <= 36
    && IsActiveDeadline(env, brief.retentionDeadline, now)
  }

  // A load that began after everything else, of a brief that is not on record.
  function FreshLoad(env: BriefEnvironment, b: Bench, brief: Brief, now: int): Load {
    var (persisted, read) := BeginningLoad(env, b, now).1;
    Load(brief.id, read, persisted, None, None, true)
  }

  lemma FreshLoadPublishes(env: BriefEnvironment, b: Bench, brief: Brief, now: int)
    requires Fit(env, b) && Fits(env, b, brief, now)
    requires ReadOwn(env, b, now).Some? ==> BriefOf(ReadOwn(env, b, now).value) != Some(brief.id)
    requires var shown := b.controller.snapshot.brief; shown.Some? && shown.value.id == brief.id ==> shown.value.version <= brief.version
    ensures var b1 := Next(env, b, BeginLoad, now);
      && b1.controller.snapshot == b.controller.snapshot && b1.sent == b.sent && ReadOwn(env, b1, now) == ReadOwn(env, b, now)
      && LoadCurrent(env, b1, FreshLoad(env, b, brief, now), brief, now) == Some(brief)
  {
    hide ReadOwn, IsActiveDeadline, EarliestActive, Bounded;
    BeginningReads(env, b, now);
    ReadingFits(env, b, now);
    ReadOwnIs(env, b, now);
    var b1 := Next(env, b, BeginLoad, now);
    var load := FreshLoad(env, b, brief, now);
    hide ReadingOwn, Fit;
    var deadlines := [Some(brief.retentionDeadline)] + StoredDeadline(load.persistedAtStart, brief.id, brief.workflowId)
                     + StoredDeadline(ReadOwn(env, b1, now), brief.id, brief.workflowId);
    assert deadlines == [Some(brief.retentionDeadline)];
    OnlyDeadline(env, brief.retentionDeadline, deadlines, now);
  }

  lemma OnlyDeadline(env: BriefEnvironment, d: Text, deadlines: seq<Option<Text>>, now: int)
    requires IsActiveDeadline(env, d, now) && deadlines != [] && forall e <- deadlines :: e == Some(d)
    ensures EarliestActive(env, deadlines, now) == Some(d)
  {
    hide IsActiveDeadline;
    EarliestActiveIs(env, deadlines, now);
  }

  function PublishedRecord(brief: Brief): Record {
    Record(brief.workspaceId, brief.productId, brief.workflowId, [], brief.retentionDeadline, Published(brief.id, brief.operationId))
  }

  lemma PublishedParses(env: BriefEnvironment, b: Bench, brief: Brief, now: int)
    requires Fits(env, b, brief, now)
    ensures ParseRecord(env, Own(b), RecordJson(PublishedRecord(brief)), now) == Some(PublishedRecord(brief))
  {
    hide ParseContent, RecordJson, ParseRecord, IsActiveDeadline, Bounded;
    PublishedBack(env, Own(b), [], PublishedRecord(brief));
    AssetsParse([], 0);
    RecordParses(env, Own(b), PublishedRecord(brief), now);
  }

  // Nothing pending, and at most another brief shown and on record.
  ghost predicate Elsewhere(env: BriefEnvironment, b: Bench, brief: Brief, now: int) {
    var shown, r := b.controller.snapshot.brief, ReadOwn(env, b, now);
    && Pending(b).None? && (shown.Some? ==> shown.value.id != brief.id)
    && (r.Some? ==> r.value.content.Published? && r.value.content.briefId != brief.id && r.value.assetVersionIds == [])
  }

  // The brief it shows goes on record.
  lemma FreshLoadStores(env: BriefEnvironment, b: Bench, brief: Brief, now: int)
    requires Fit(env, b) && Fits(env, b, brief, now) && Elsewhere(env, b, brief, now)
    ensures var t := Next(env, Next(env, b, BeginLoad, now), LoadArrived(FreshLoad(env, b, brief, now), brief), now);
      && Fit(env, t) && Own(t) == Own(b) && Pending(t).None? && t.sent == b.sent
      && ReadOwn(env, t, now) == Some(PublishedRecord(brief)) && t.controller.snapshot.brief == Some(brief)
      && t.controller.snapshot.pendingAnalysis == b.controller.snapshot.pendingAnalysis
  {
    hide ReadOwn, Loading, Fit, FreshLoad, ParseRecord, RecordJson, LoadCurrent, BeginningLoad, IsActiveDeadline, Bounded;
    FreshLoadPublishes(env, b, brief, now);
    var b1 := Next(env, b, BeginLoad, now);
    FitKept(env, b, b1);
    PublishedParses(env, b, brief, now);
    LoadStores(env, b1, FreshLoad(env, b, brief, now), brief, now);
  }

  lemma LoadStores(env: BriefEnvironment, b: Bench, load: Load, brief: Brief, now: int)
    requires Fit(env, b) && LoadCurrent(env, b, load, brief, now) == Some(brief) && Pending(b).None?
    requires BriefIdentity(brief.workspaceId, brief.productId) == Own(b)
    requires ParseRecord(env, Own(b), RecordJson(PublishedRecord(brief)), now) == Some(PublishedRecord(brief))
    requires var r := ReadOwn(env, b, now); r.Some? ==> r.value.content.Published? && r.value.assetVersionIds == []
    ensures var t := Loading(env, b, load, brief, now).0;
      && Fit(env, t) && Own(t) == Own(b) && Pending(t).None? && t.sent == b.sent
      && ReadOwn(env, t, now) == Some(PublishedRecord(brief)) && t.controller.snapshot.brief == Some(brief)
      && t.controller.snapshot.pendingAnalysis == b.controller.snapshot.pendingAnalysis
  {
    hide ReadOwn, Loading, Fit, ParseRecord, RecordJson, LoadCurrent, Local;
    LoadingOutcome(env, b, load, brief, now);
    LoadingQuiet(env, b, load, brief, now);
    LoadShows(env, b, load, brief, now);
    FitKept(env, b, Loading(env, b, load, brief, now).0);
  }

  lemma LoadShows(env: BriefEnvironment, b: Bench, load: Load, brief: Brief, now: int)
    requires Fit(env, b) && LoadCurrent(env, b, load, brief, now) == Some(brief)
    requires Storable(env, b, LoadedRecord(Own(b), ReadOwn(env, b, now), brief, brief.retentionDeadline), now)
    ensures var n := Loading(env, b, load, brief, now).0.controller.snapshot;
      n.brief == Some(brief) && n.pendingAnalysis == b.controller.snapshot.pendingAnalysis
  {
    hide LoadCurrent, ReadOwn, ReadingOwn, WritingOwn, Loading, LoadedRecord, ParseRecord, RecordJson, Fit;
    LoadingIs(env, b, load, brief, now);
    ReadOfOwner(env, b, now);
    LoadedOfOwner(Own(b), ReadOwn(env, b, now), brief, brief.retentionDeadline);
    var b2 := Publishing(env, b, load, brief, now);
    FitKept(env, b, b2);
    OwnWrite(env, b2, LoadedRecord(Own(b), ReadOwn(env, b, now), brief, brief.retentionDeadline), now);
  }

  function Publishing(env: BriefEnvironment, b: Bench, load: Load, brief: Brief, now: int): Bench {
    var b1 := ReadingOwn(env, b, now).0;
    b1.(controller := PublishingBrief(b1.controller, load.read, brief, load.resetForm).0)
  }

  lemma LoadingIs(env: BriefEnvironment, b: Bench, load: Load, brief: Brief, now: int)
    requires LoadCurrent(env, b, load, brief, now) == Some(brief)
    ensures var b2 := Publishing(env, b, load, brief, now);
      && Own(b2) == Own(b) && b2.controller.snapshot.brief == Some(brief)
      && b2.controller.snapshot.pendingAnalysis == b.controller.snapshot.pendingAnalysis
      && Loading(env, b, load, brief, now)
           == WritingOwn(env, b2, LoadedRecord(Own(b), ReadOwn(env, b, now), brief, brief.retentionDeadline), now)
  {
    ReadOwnIs(env, b, now);
    ReadingQuiet(env, b, now);
    hide ReadOwn, ReadingOwn, WritingOwn, LoadedRecord, LoadDeadline, LoadMatches, Local, AcceptsBrief;
  }

  // ----------------------------------------------- analyses and confirmations

  function AnalysisRecord(b: Bench, pending: Analysis, deadline: Text): Record {
    Record(Own(b).workspaceId, Own(b).productId, pending.workflowId, pending.assetVersionIds, deadline, Analysing(pending))
  }

  lemma AnalysisStores(
    env: BriefEnvironment, b: Bench, captured: Option<Brief>, pending: Analysis, workflowDeadline: Option<Text>, d: Text, now: int)
    requires Fit(env, b) && Bounded(Own(b)) && IsActiveDeadline(env, d, now)
    requires AnalysisDeadline(env, b, captured, workflowDeadline, now) == Some(d)
    requires ParseAnalysis(pending.productId, pending.workflowId, pending.assetVersionIds, AnalysisJson(pending)) == Some(pending)
    requires pending.productId == Own(b).productId && 1 <= |pending.workflowId| <= 36
    requires AssetIds(Some(TextsJson(pending.assetVersionIds)), 1) == Some(pending.assetVersionIds)
    ensures StartingAnalysis(env, b, captured, pending, workflowDeadline, now).1
    ensures var t := StartingAnalysis(env, b, captured, pending, workflowDeadline, now).0;
      Fit(env, t) && Own(t) == Own(b) && t.sent == b.sent && ReadOwn(env, t, now) == Some(AnalysisRecord(b, pending, d))
  {
    hide ParseContent, ParseRecord, RecordJson, AnalysisJson, ParseAnalysis, IsActiveDeadline, Bounded, ReadOwn, ReadingOwn, WritingOwn,
      Fit, EarliestActive, Local, AssetIds, TextsJson, EstablishedDeadline;
    var value := AnalysisRecord(b, pending, d);
    AnalysingBack(env, Own(b), pending.assetVersionIds, value);
    RecordParses(env, Own(b), value, now);
    ReadingFits(env, b, now);
    ReadOwnIs(env, b, now);
    var b1 := ReadingOwn(env, b, now).0;
    OwnWrite(env, b1, value, now);
    var b2 := WritingOwn(env, b1, value, now).0;
    RecoveredReads(env, b2, RecoveringAnalysis(b2.controller, pending), now);
    StartingQuiet(env, b, captured, pending, workflowDeadline, now);
    FitKept(env, b, StartingAnalysis(env, b, captured, pending, workflowDeadline, now).0);
  }

  lemma OneDeadline(env: BriefEnvironment, b: Bench, d: Text, now: int)
    requires IsActiveDeadline(env, d, now)
    ensures AnalysisDeadline(env, b, None, Some(d), now) == Some(d)
  {
    hide IsActiveDeadline, EarliestActive, ReadOwn;
    OnlyDeadline(env, d, [Some(d)] + [] + [], now);
  }

  // A confirmation in force that resumes is written, remembered and sent,
  // whatever is pending.
  lemma ConfirmationStores(env: BriefEnvironment, b: Bench, current: Brief, payload: BriefPayload, key: Text, now: int)
    requires Fit(env, b) && Fits(env, b, current, now)
    requires CanonicalCommand(env, BriefCommand(Own(b).productId, current.id, key, payload))
    ensures var c := BriefCommand(Own(b).productId, current.id, key, payload);
      var t := Confirming(env, b, current, payload, Some(current.retentionDeadline), key, now).0;
      && Fit(env, t) && MemoryCanonical(env, t) && Own(t) == Own(b) && Holds(env, t, c, now) && t.sent == b.sent + [c]
  {
    hide ReadOwn, Submitting, Fit, MemoryCanonical, ParseRecord, RecordJson, IsActiveDeadline, Bounded, AssetIds, TextsJson,
      EarliestActive;
    var c := BriefCommand(Own(b).productId, current.id, key, payload);
    var d := current.retentionDeadline;
    ConfirmationDeadline(env, b, current, now);
    if ReadOwn(env, b, now).Some? { ReadAssets(env, b, now); }
    AssetsParse([], 0);
    var earliest := SubmissionDeadline(env, b, current, [Some(d), Some(d)], now).value;
    CommandParses(env, b, CommandRecord(b, ReadOwn(env, b, now), current, c, earliest), c, now);
    SubmittingOutcome(env, b, current, c, [Some(d), Some(d)], now);
    var t := Confirming(env, b, current, payload, Some(d), key, now).0;
    FitKept(env, b, t);
    hide CommandJson, ParseCommand;
  }

  lemma ConfirmationDeadline(env: BriefEnvironment, b: Bench, current: Brief, now: int)
    requires Fit(env, b) && IsActiveDeadline(env, current.retentionDeadline, now)
    ensures var d := Some(current.retentionDeadline);
      var earliest := SubmissionDeadline(env, b, current, [d, d], now);
      earliest.Some? && IsActiveDeadline(env, earliest.value, now)
  {
    hide IsActiveDeadline, ReadOwn, EarliestActive, ParseRecord, RecordJson, CanonicalCommand;
    var d := Some(current.retentionDeadline);
    if ReadOwn(env, b, now).Some? { ReadIsCanonical(env, b, now); }
    EarliestActiveIs(env, [d, d] + StoredDeadline(ReadOwn(env, b, now), current.id, current.workflowId), now);
  }

  lemma ReadAssets(env: BriefEnvironment, b: Bench, now: int)
    requires Fit(env, b) && ReadOwn(env, b, now).Some?
    ensures var ids := ReadOwn(env, b, now).value.assetVersionIds; AssetIds(Some(TextsJson(ids)), 0) == Some(ids)
  {
    ReadIsCanonical(env, b, now);
    var r := ReadOwn(env, b, now).value;
    RecordFields(r);
    hide NameText, Ascii, Field, ExactFields, RecordJson, ReadOwn, ParseContent, TextsJson, IsActiveDeadline, ContentValues;
  }

  lemma CommandParses(env: BriefEnvironment, b: Bench, value: Record, c: BriefCommand, now: int)
    requires Bounded(Own(b)) && BriefIdentity(value.workspaceId, value.productId) == Own(b)
    requires 1 <= |value.workflowId| <= 36 && IsActiveDeadline(env, value.retentionDeadline, now)
    requires AssetIds(Some(TextsJson(value.assetVersionIds)), 0) == Some(value.assetVersionIds)
    requires value.content.Commanding? && value.content.command == c && value.content.status == Awaited
    requires CanonicalCommand(env, c) && c.productId == Own(b).productId && c.briefId == value.content.briefId
    requires 1 <= |value.content.briefId| <= 36 && 1 <= |value.content.operationId| <= 36
    ensures ParseRecord(env, Own(b), RecordJson(value), now) == Some(value)
  {
    hide ParseContent, ParseRecord, RecordJson, IsActiveDeadline, Bounded, AssetIds, TextsJson, CommandJson, ParseCommand;
    CommandingBack(env, Own(b), value.assetVersionIds, value);
    RecordParses(env, Own(b), value, now);
  }

  // ------------------------------------------------------------- the example

  const DEADLINE := Ascii("2999-01-01T00:00:00Z")
  const SOONER := Ascii("2998-01-01T00:00:00Z")
  const PAGE := BriefIdentity(Ascii("w"), Ascii("p"))
  const BRIEF := Brief(Ascii("b"), Ascii("w"), Ascii("p"), Ascii("f"), Ascii("o"), 1, true, Some(Ascii("v")), None, DEADLINE)
  const OTHER := BRIEF.(id := Ascii("bb"))
  const CONFIRMATION := BriefPayload.Confirm(1, Ascii("v"), 1, Missing, Missing)
  const KEY_ONE := Ascii("confirm-1")
  const KEY_TWO := Ascii("confirm-22")
  const FIRST := BriefCommand(Ascii("p"), Ascii("b"), KEY_ONE, CONFIRMATION)
  const SECOND := BriefCommand(Ascii("p"), Ascii("b"), KEY_TWO, CONFIRMATION)

  // A browser: its clock stands a moment before two deadlines.
  ghost function Browser(): BriefEnvironment {
    BriefEnvironment(t => ReferenceParse(t), t => if t == DEADLINE then Some(2) else if t == SOONER then Some(1) else None,
                     v => FieldOf(v))
  }

  lemma BrowserFits()
    ensures Canonicalizes(Browser()) && ParsesJson(Browser().parse)
    ensures IsActiveDeadline(Browser(), DEADLINE, 0) && IsActiveDeadline(Browser(), SOONER, 0)
    ensures Browser().parseDate(SOONER).value < Browser().parseDate(DEADLINE).value
  {
    ReferenceParsesJson();
    var parse: Text -> Option<Json> := t => ReferenceParse(t);
    assert ParsesJson(Browser().parse) by {
      forall v | WellFormed(v) ensures RoundTrips(Browser().parse, v) {
        assert RoundTrips(parse, v);
        hide ReferenceParse;
      }
    }
    assert DEADLINE[19] == 90 && SOONER[19] == 90 && DEADLINE[3] == 57 && SOONER[3] == 56;
  }

  lemma PageHasKey()
    ensures KeyOf(PAGE).Some? && Bounded(PAGE)
  {
    assert FirstPoint(Ascii("w")) == Some(119) && FirstPoint(Ascii("p")) == Some(112);
    KeyExistsIff(PAGE);
  }

  // An analysis and two confirmations of one brief are started, and wait; the
  // user looks at another brief; the analysis resumes, then one confirmation.
  const ANALYSIS := Analysis(Ascii("f"), Ascii("p"), [Ascii("a")], 1, Ascii("analyze-1"), None)

  ghost function Shown(b: Bench, brief: Brief): Bench {
    Next(Browser(), Next(Browser(), b, BeginLoad, 0), LoadArrived(FreshLoad(Browser(), b, brief, 0), brief), 0)
  }

  ghost function Page(): Bench { Opened(Browser(), PAGE, 0) }
  ghost function Looking(): Bench { Shown(Shown(Page(), BRIEF), OTHER) }
  ghost function Started(): Bench { Next(Browser(), Looking(), Analyze(None, ANALYSIS, Some(DEADLINE)), 0) }
  ghost function Confirmed(): Bench { Next(Browser(), Started(), Step.Confirm(BRIEF, CONFIRMATION, Some(DEADLINE), KEY_ONE), 0) }

  lemma PageIsEmpty()
    ensures var b := Page();
      && Fit(Browser(), b) && MemoryCanonical(Browser(), b) && Own(b) == PAGE && b.sent == []
      && b.controller.snapshot == InitialSnapshot(PAGE, 2) && ReadOwn(Browser(), b, 0) == None
  {
    BrowserFits();
    PageHasKey();
    hide Browser, KeyOf, Bounded, Mounting;
    OpenedIsFit(Browser(), PAGE, 0);
    FirstMount(Browser(), PAGE, 0);
  }

  lemma FirstMount(env: BriefEnvironment, identity: BriefIdentity, now: int)
    requires KeyOf(identity).Some?
    ensures var t := Opened(env, identity, now);
      t.sent == [] && t.controller.snapshot == InitialSnapshot(identity, 2) && ReadOwn(env, t, now) == None
  {
    KeyInNamespace(identity);
    MarkersOutside();
    assert Bounded(identity) by { hide Encode; }
    hide KeyOf, InNamespace, MarkedIdentity, IdentityJson, Stringify, Bounded, Survives, LegacyKey, Parsed;
  }

  lemma ExampleFits()
    ensures CanonicalCommand(Browser(), FIRST) && CanonicalCommand(Browser(), SECOND)
    ensures ParseAnalysis(ANALYSIS.productId, ANALYSIS.workflowId, ANALYSIS.assetVersionIds, AnalysisJson(ANALYSIS)) == Some(ANALYSIS)
    ensures AssetIds(Some(TextsJson(ANALYSIS.assetVersionIds)), 0) == Some(ANALYSIS.assetVersionIds)
    ensures AssetIds(Some(TextsJson(ANALYSIS.assetVersionIds)), 1) == Some(ANALYSIS.assetVersionIds)
  {
    hide ParseAnalysis, AnalysisJson, TextsJson, AssetIds, ParseConfirmation, PayloadJson, ParseCommand, CommandJson;
    ConfirmationParses(CONFIRMATION);
    ConfirmCommandParses(Browser(), FIRST);
    ConfirmCommandParses(Browser(), SECOND);
    AssetsParse(ANALYSIS.assetVersionIds, 0);
    AssetsParse(ANALYSIS.assetVersionIds, 1);
    AnalysisParses(ANALYSIS);
  }

  // The guards hold when the callbacks start: on the empty page for the
  // analysis, with the brief shown for the confirmations.
  lemma GuardsHold()
    ensures var page, shown := Page().controller.snapshot, Shown(Page(), BRIEF).controller.snapshot;
      && page.brief.None? && page.pendingAnalysis.None? && page.pendingCommand.None?
      && shown.brief == Some(BRIEF) && shown.pendingAnalysis.None? && shown.pendingCommand.None?
  {
    PageIsEmpty();
    FirstShown();
    hide Page, Shown, Browser, ReadOwn;
  }

  lemma FirstShown()
    ensures var t := Shown(Page(), BRIEF);
      && Fit(Browser(), t) && Own(t) == PAGE && Pending(t).None? && t.sent == []
      && ReadOwn(Browser(), t, 0) == Some(PublishedRecord(BRIEF)) && t.controller.snapshot.brief == Some(BRIEF)
      && t.controller.snapshot.pendingAnalysis.None?
  {
    PageIsEmpty();
    PageHasKey();
    BrowserFits();
    hide Page, Browser, ReadOwn, Next, Fit, FreshLoad, IsActiveDeadline, KeyOf, Bounded;
    FreshLoadStores(Browser(), Page(), BRIEF, 0);
  }

  lemma OtherShown()
    ensures var t := Looking();
      && Fit(Browser(), t) && Own(t) == PAGE && t.sent == []
      && ReadOwn(Browser(), t, 0) == Some(PublishedRecord(OTHER))
  {
    FirstShown();
    PageHasKey();
    BrowserFits();
    assert |OTHER.id| == 2 && |BRIEF.id| == 1;
    hide Page, Browser, ReadOwn, Next, Fit, FreshLoad, IsActiveDeadline, KeyOf, Bounded;
    FreshLoadStores(Browser(), Shown(Page(), BRIEF), OTHER, 0);
  }

  lemma AnalysisResumed()
    ensures var t := Started();
      && Fit(Browser(), t) && Own(t) == PAGE && t.sent == []
      && ReadOwn(Browser(), t, 0) == Some(AnalysisRecord(Looking(), ANALYSIS, DEADLINE))
  {
    OtherShown();
    PageHasKey();
    BrowserFits();
    ExampleFits();
    hide Looking, Browser, ReadOwn, StartingAnalysis, Fit, IsActiveDeadline, KeyOf, Bounded, AssetIds, TextsJson, ParseAnalysis, AnalysisJson;
    OneDeadline(Browser(), Looking(), DEADLINE, 0);
    AnalysisStores(Browser(), Looking(), None, ANALYSIS, Some(DEADLINE), DEADLINE, 0);
  }

  // From empty storage a state is reached in which the first confirmation is
  // pending, in memory and on record, and sent.
  lemma PendingIsReached()
    ensures var b := Confirmed();
      Fit(Browser(), b) && MemoryCanonical(Browser(), b) && Own(b) == PAGE && Holds(Browser(), b, FIRST, 0) && b.sent == [FIRST]
  {
    AnalysisResumed();
    OtherShown();
    PageHasKey();
    BrowserFits();
    ExampleFits();
    hide Looking, Started, Browser, ReadOwn, Confirming, Fit, MemoryCanonical, IsActiveDeadline, KeyOf, Bounded, AssetIds, TextsJson,
      CanonicalCommand;
    ConfirmationStores(Browser(), Started(), BRIEF, CONFIRMATION, KEY_ONE, 0);
  }

  // ------------------------------------------------- what happens from there

  const SECOND_CLICK := Step.Confirm(BRIEF, CONFIRMATION, Some(DEADLINE), KEY_TWO)

  // The second click resumes: both confirmations are sent, and only the second
  // is held.
  lemma SecondClickReplaces()
    ensures var t := Next(Browser(), Confirmed(), SECOND_CLICK, 0);
      && Own(t) == PAGE && t.sent == [FIRST, SECOND] && Holds(Browser(), t, SECOND, 0)
      && !OnRecord(Browser(), t, FIRST, 0) && Pending(t) != Some(FIRST)
  {
    PendingIsReached();
    PageHasKey();
    BrowserFits();
    ExampleFits();
    KeysDiffer();
    hide Confirmed, Browser, ReadOwn, Confirming, Fit, MemoryCanonical, IsActiveDeadline, KeyOf, Bounded, CanonicalCommand;
    ConfirmationStores(Browser(), Confirmed(), BRIEF, CONFIRMATION, KEY_TWO, 0);
  }

  lemma KeysDiffer()
    ensures FIRST != SECOND
  {
    assert |KEY_ONE| == 9 && |KEY_TWO| == 10;
  }

  // Its loss of the first answer then puts the first back in memory, away from
  // the record.
  lemma LostAnswerParts()
    ensures var b := Next(Browser(), Confirmed(), SECOND_CLICK, 0);
      var t := Next(Browser(), b, Lost(FIRST), 0);
      Releases(Browser(), b, Lost(FIRST), 0) && Pending(t) == Some(FIRST) && OnRecord(Browser(), t, SECOND, 0)
  {
    hide Confirmed, Browser, Next, ReadOwn, Releases, CanonicalCommand;
    SecondClickReplaces();
    ExampleFits();
    LostRemembers(Browser(), Next(Browser(), Confirmed(), SECOND_CLICK, 0), FIRST, 0);
  }

  lemma LostRemembers(env: BriefEnvironment, b: Bench, c: BriefCommand, now: int)
    requires CanonicalCommand(env, c) && c.productId == Own(b).productId && Pending(b) != Some(c)
    ensures var t := Next(env, b, Lost(c), now);
      Releases(env, b, Lost(c), now) && Pending(t) == Some(c) && ReadOwn(env, t, now) == ReadOwn(env, b, now)
  {
    hide ReadOwn, ParseCommand, CommandJson;
    RecoveredReads(env, b, RecoveringCommand(env, b.controller, c, Awaited).0, now);
  }

  // Another analysis that resumes takes the record.
  lemma AnalysisTakesRecord()
    ensures var t := Next(Browser(), Confirmed(), Analyze(None, ANALYSIS, Some(DEADLINE)), 0);
      && Releases(Browser(), Confirmed(), Analyze(None, ANALYSIS, Some(DEADLINE)), 0)
      && ReadOwn(Browser(), t, 0) == Some(AnalysisRecord(Confirmed(), ANALYSIS, DEADLINE)) && !OnRecord(Browser(), t, FIRST, 0)
  {
    PendingIsReached();
    PageHasKey();
    BrowserFits();
    ExampleFits();
    hide Confirmed, Browser, ReadOwn, StartingAnalysis, Fit, MemoryCanonical, IsActiveDeadline, KeyOf, Bounded, AssetIds, TextsJson,
      ParseAnalysis, AnalysisJson, CanonicalCommand, EarliestActive;
    OneDeadline(Browser(), Confirmed(), DEADLINE, 0);
    AnalysisStores(Browser(), Confirmed(), None, ANALYSIS, Some(DEADLINE), DEADLINE, 0);
  }

  // The refusal of the analysis deletes the record of the confirmation, which
  // memory goes on holding.
  lemma RefusedAnalysisDeletesRecord()
    ensures var t := Next(Browser(), Confirmed(), AnalysisRefused(ANALYSIS), 0);
      ReadOwn(Browser(), t, 0) == None && Pending(t) == Some(FIRST)
  {
    PendingIsReached();
    hide Confirmed, Browser, ReadOwn, RefusingAnalysis, Fit, MemoryCanonical;
    RefusalOfAnalysisReleases(Browser(), Confirmed(), ANALYSIS, 0, FIRST);
  }

  // The brief the analysis produced, loaded when it is accepted, takes the
  // record too.
  const PRODUCED := BRIEF.(id := Ascii("bbb"), operationId := Ascii("oo"))

  lemma AcceptedAnalysisTakesRecord(brief: Brief)
    requires brief == PRODUCED.(version := brief.version)
    requires var shown := Confirmed().controller.snapshot.brief; shown.Some? ==> shown.value.version <= brief.version
    ensures var start, a := AnalysisRecord(Looking(), ANALYSIS, DEADLINE), Accepted(brief, brief.operationId);
      var b := Next(Browser(), Confirmed(), AnalysisAccepted(start, ANALYSIS, a), 0);
      var load := AcceptingAnalysis(Browser(), Confirmed(), start, ANALYSIS, a, 0).1;
      && load.Some? && Holds(Browser(), b, FIRST, 0) && Releases(Browser(), b, LoadArrived(load.value, brief), 0)
      && !Keeps(Browser(), b, Next(Browser(), b, LoadArrived(load.value, brief), 0), FIRST, 0)
  {
    hide Confirmed, Looking, Browser, KeyOf, Bounded, Next, ReadOwn, Releases, Keeps, Holds, Fit, MemoryCanonical, AcceptingAnalysis,
      IsActiveDeadline;
    PendingIsReached();
    BrowserFits();
    assert |PRODUCED.id| == 3 && |BRIEF.id| == 1;
    AcceptanceTakes(Browser(), Confirmed(), AnalysisRecord(Looking(), ANALYSIS, DEADLINE), ANALYSIS, brief, FIRST, 0);
  }

  // The load an accepted analysis begins, when its record and its answer name
  // one deadline.
  ghost predicate Accepts(env: BriefEnvironment, b: Bench, start: Record, pending: Analysis, brief: Brief, now: int) {
    && start.content == Analysing(pending) && start.retentionDeadline == brief.retentionDeadline
    && AcceptedMatches(Accepted(brief, brief.operationId), pending, Own(b).workspaceId) && pending.productId == Own(b).productId
    && IsActiveDeadline(env, brief.retentionDeadline, now)
    && var shown := b.controller.snapshot.brief; shown.Some? ==> shown.value.version <= brief.version
  }

  lemma AcceptanceIs(env: BriefEnvironment, b: Bench, start: Record, pending: Analysis, brief: Brief, now: int)
    requires Accepts(env, b, start, pending, brief, now)
    ensures var a := Accepted(brief, brief.operationId);
      var (t, load) := AcceptingAnalysis(env, b, start, pending, a, now);
      && t == BeginningLoad(env, b, now).0 && Next(env, b, AnalysisAccepted(start, pending, a), now) == t
      && load == Some(Load(brief.id, BeginningLoad(env, b, now).1.1, BeginningLoad(env, b, now).1.0, Some(brief.retentionDeadline),
                           Some(a), true))
  {
    hide BeginningLoad, AcceptedMatches, IsActiveDeadline, DeadlineAtOrBefore;
    SameDeadline(env, brief.retentionDeadline, now);
  }

  // What it is answered with is published and stored.
  lemma AcceptedPublishes(env: BriefEnvironment, b: Bench, start: Record, pending: Analysis, brief: Brief, now: int)
    requires Fit(env, b) && Accepts(env, b, start, pending, brief, now)
    ensures var load := AcceptingAnalysis(env, b, start, pending, Accepted(brief, brief.operationId), now).1;
      load.Some? && load.value.briefId == brief.id && LoadCurrent(env, BeginningLoad(env, b, now).0, load.value, brief, now) == Some(brief)
  {
    AcceptanceIs(env, b, start, pending, brief, now);
    BeginningReads(env, b, now);
    ReadingQuiet(env, b, now);
    SameDeadline(env, brief.retentionDeadline, now);
    hide ReadOwn, ReadingOwn, Fit, IsActiveDeadline, EarliestActive, Local, AcceptingAnalysis, DeadlineAtOrBefore;
  }

  // Whatever is pending for another brief.
  lemma AcceptanceTakes(
    env: BriefEnvironment, b: Bench, start: Record, pending: Analysis, brief: Brief, command: BriefCommand, now: int)
    requires Fit(env, b) && MemoryCanonical(env, b) && Holds(env, b, command, now) && brief.id != command.briefId
    requires Accepts(env, b, start, pending, brief, now)
    ensures var a := Accepted(brief, brief.operationId);
      var b1 := Next(env, b, AnalysisAccepted(start, pending, a), now);
      var load := AcceptingAnalysis(env, b, start, pending, a, now).1;
      && load.Some? && Holds(env, b1, command, now) && Releases(env, b1, LoadArrived(load.value, brief), now)
      && !Keeps(env, b1, Next(env, b1, LoadArrived(load.value, brief), now), command, now)
  {
    hide ReadOwn, Fit, MemoryCanonical, BeginningLoad, AcceptingAnalysis, IsActiveDeadline, Holds, Keeps, AcceptedMatches, LoadCurrent, Next;
    AcceptanceIs(env, b, start, pending, brief, now);
    AcceptedPublishes(env, b, start, pending, brief, now);
    BegunIs(env, b, now);
    BegunHolds(env, b, command, now);
    var b1 := BeginningLoad(env, b, now).0;
    var load := AcceptingAnalysis(env, b, start, pending, Accepted(brief, brief.operationId), now).1.value;
    OtherBriefReleases(env, b1, load, brief, command, now);
    StepKeepsIff(env, b1, LoadArrived(load, brief), now, command);
  }

  lemma OtherBriefReleases(env: BriefEnvironment, b: Bench, load: Load, brief: Brief, command: BriefCommand, now: int)
    requires Holds(env, b, command, now) && LoadCurrent(env, b, load, brief, now) == Some(brief)
    requires load.briefId == brief.id && brief.id != command.briefId
    ensures Releases(env, b, LoadArrived(load, brief), now)
  {
    hide ReadOwn, LoadCurrent;
  }

  lemma BegunIs(env: BriefEnvironment, b: Bench, now: int)
    ensures Next(env, b, BeginLoad, now) == BeginningLoad(env, b, now).0
  {
  }

  lemma BegunHolds(env: BriefEnvironment, b: Bench, command: BriefCommand, now: int)
    requires Fit(env, b) && MemoryCanonical(env, b) && Holds(env, b, command, now)
    ensures var b1 := Next(env, b, BeginLoad, now); Fit(env, b1) && MemoryCanonical(env, b1) && Holds(env, b1, command, now)
  {
    hide ReadOwn, Fit, MemoryCanonical, BeginningLoad, SendsDurably, Holds, Next;
    BegunIs(env, b, now);
    BeginningKeeps(env, b, now, command);
    StepSendsDurably(env, b, BeginLoad, now);
  }

  lemma SameDeadline(env: BriefEnvironment, d: Text, now: int)
    requires IsActiveDeadline(env, d, now)
    ensures DeadlineAtOrBefore(env, d, d, now) == Some(d)
  {
    hide EarliestActive, EndsWithZone;
    OnlyDeadline(env, d, [Some(d), Some(d)], now);
  }

  // A load of the other brief, as polling its operation starts one, takes the
  // record of the confirmation.
  lemma LoadTakesRecord(response: Brief)
    requires response == OTHER.(version := response.version)
    requires var shown := Confirmed().controller.snapshot.brief; shown.Some? ==> shown.value.version <= response.version
    ensures var b := Next(Browser(), Confirmed(), BeginLoad, 0);
      var step := LoadArrived(FreshLoad(Browser(), Confirmed(), response, 0), response);
      && Holds(Browser(), b, FIRST, 0) && Releases(Browser(), b, step, 0)
      && !Keeps(Browser(), b, Next(Browser(), b, step, 0), FIRST, 0)
  {
    PendingIsReached();
    PageHasKey();
    BrowserFits();
    assert |OTHER.id| == 2 && |BRIEF.id| == 1;
    hide Confirmed, Browser, KeyOf, Bounded;
    LoadTakes(Browser(), Confirmed(), response, FIRST, 0);
  }

  lemma LoadTakes(env: BriefEnvironment, b: Bench, response: Brief, command: BriefCommand, now: int)
    requires Fit(env, b) && MemoryCanonical(env, b) && Holds(env, b, command, now) && response.id != command.briefId
    requires Fits(env, b, response, now)
    requires var shown := b.controller.snapshot.brief; shown.Some? ==> shown.value.version <= response.version
    ensures var b1 := Next(env, b, BeginLoad, now);
      var step := LoadArrived(FreshLoad(env, b, response, now), response);
      && Holds(env, b1, command, now) && Releases(env, b1, step, now) && !Keeps(env, b1, Next(env, b1, step, now), command, now)
  {
    var b1 := Next(env, b, BeginLoad, now);
    var step := LoadArrived(FreshLoad(env, b, response, now), response);
    hide ReadOwn, Fit, MemoryCanonical, Releases, BeginningLoad, IsActiveDeadline, Holds, Keeps, FreshLoad, Bounded, Next;
    BegunHolds(env, b, command, now);
    LoadGuard(env, b, response, command, now);
    StepKeepsIff(env, b1, step, now, command);
  }

  lemma LoadGuard(env: BriefEnvironment, b: Bench, response: Brief, command: BriefCommand, now: int)
    requires Fit(env, b) && Holds(env, b, command, now) && response.id != command.briefId
    requires Fits(env, b, response, now)
    requires var shown := b.controller.snapshot.brief; shown.Some? ==> shown.value.version <= response.version
    ensures Releases(env, Next(env, b, BeginLoad, now), LoadArrived(FreshLoad(env, b, response, now), response), now)
  {
    hide ReadOwn, Fit, FreshLoad, LoadCurrent, BeginningLoad, IsActiveDeadline, Bounded, Next;
    HeldBrief(env, b, command, now);
    FreshLoadPublishes(env, b, response, now);
    FreshLoadNames(env, b, response, now);
    BegunHeld(env, b, command, now);
    OtherBriefReleases(env, Next(env, b, BeginLoad, now), FreshLoad(env, b, response, now), response, command, now);
  }

  lemma BegunHeld(env: BriefEnvironment, b: Bench, command: BriefCommand, now: int)
    requires Fit(env, b) && Holds(env, b, command, now)
    ensures Holds(env, Next(env, b, BeginLoad, now), command, now)
  {
    hide ReadOwn, Fit, BeginningLoad;
    BeginningKeeps(env, b, now, command);
  }

  lemma HeldBrief(env: BriefEnvironment, b: Bench, command: BriefCommand, now: int)
    requires Fit(env, b) && Holds(env, b, command, now)
    ensures BriefOf(ReadOwn(env, b, now).value) == Some(command.briefId)
  {
    ReadIsCanonical(env, b, now);
    hide ReadOwn, ParseRecord, RecordJson, CanonicalCommand;
  }

  lemma FreshLoadNames(env: BriefEnvironment, b: Bench, brief: Brief, now: int)
    ensures FreshLoad(env, b, brief, now).briefId == brief.id
  {
    hide BeginningLoad;
  }
}
