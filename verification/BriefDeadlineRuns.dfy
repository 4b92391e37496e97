// Two analyses of one brief that overlap: from empty storage the page reaches
// states in which the stored deadline moves later.
module BriefDeadlineRuns {
  import opened Texts
  import opened Json
  import opened PendingCommand
  import opened KeyCodec
  import opened BriefRecord
  import opened BriefRoundTrip
  import opened BriefPersistence
  import opened BriefController
  import opened BriefWorkbench
  import opened BriefProtocol
  import opened BriefProtocolRuns
  import opened BriefIdentityRuns
  import opened BriefPendingRuns
  import opened BriefDeadlines
  import opened BriefOverlaps

  // The soonest of some deadlines that are one of two.
  lemma SoonestWins(env: BriefEnvironment, soon: Text, late: Text, deadlines: seq<Option<Text>>, now: int)
    requires IsActiveDeadline(env, soon, now) && IsActiveDeadline(env, late, now)
    requires env.parseDate(soon).value < env.parseDate(late).value
    requires Some(soon) in deadlines && forall d <- deadlines :: d == Some(soon) || d == Some(late)
    ensures EarliestActive(env, deadlines, now) == Some(soon)
  {
    hide EndsWithZone, EarliestActive;
    EarliestActiveIs(env, deadlines, now);
  }

  // ------------------------------------------------------------- the example

  // The brief is on screen, and its analysis is asked for twice.
  const PRIOR := Some(Prior(BRIEF.id, BRIEF.operationId))
  const ONCE := ANALYSIS.(prior := PRIOR)
  const TWICE := ONCE.(idempotencyKey := Ascii("analyze-22"))

  function Asking(pending: Analysis, workflowDeadline: Text): Step { Analyze(Some(BRIEF), pending, Some(workflowDeadline)) }

  ghost function OnScreen(): Bench { Shown(Page(), BRIEF) }

  // The first of the two has resumed, then the second.
  ghost function AskedOnce(first: Text): Bench { Next(Browser(), OnScreen(), Asking(ONCE, first), 0) }
  ghost function AskedTwice(first: Text, second: Text): Bench { Next(Browser(), AskedOnce(first), Asking(TWICE, second), 0) }

  lemma AnalysesParse()
    ensures ParseAnalysis(ONCE.productId, ONCE.workflowId, ONCE.assetVersionIds, AnalysisJson(ONCE)) == Some(ONCE)
    ensures ParseAnalysis(TWICE.productId, TWICE.workflowId, TWICE.assetVersionIds, AnalysisJson(TWICE)) == Some(TWICE)
    ensures AssetIds(Some(TextsJson(ANALYSIS.assetVersionIds)), 1) == Some(ANALYSIS.assetVersionIds)
  {
    hide ParseAnalysis, AnalysisJson, TextsJson, AssetIds;
    AssetsParse(ANALYSIS.assetVersionIds, 1);
    AnalysisParses(ONCE);
    AnalysisParses(TWICE);
  }

  // The brief is on screen, and on record or being analysed.
  ghost predicate Asks(env: BriefEnvironment, b: Bench, now: int) {
    && Fit(env, b) && Own(b) == PAGE && Bounded(PAGE) && b.controller.snapshot.brief == Some(BRIEF)
    && (ReadOwn(env, b, now) == Some(PublishedRecord(BRIEF))
        || (ReadOwn(env, b, now).Some? && ReadOwn(env, b, now).value.content.Analysing?))
  }

  ghost predicate TwoDeadlines(env: BriefEnvironment, now: int) {
    && IsActiveDeadline(env, SOONER, now) && IsActiveDeadline(env, DEADLINE, now)
    && env.parseDate(SOONER).value < env.parseDate(DEADLINE).value
  }

  // On record under the later deadline, or not reckoned with, the brief leaves
  // an analysis the workflow's deadline.
  lemma AskedDeadline(env: BriefEnvironment, b: Bench, workflowDeadline: Text, now: int)
    requires TwoDeadlines(env, now) && Asks(env, b, now) && (workflowDeadline == SOONER || workflowDeadline == DEADLINE)
    ensures AnalysisDeadline(env, b, Some(BRIEF), Some(workflowDeadline), now) == Some(workflowDeadline)
  {
    hide ReadOwn, IsActiveDeadline, EarliestActive, Fit, Bounded;
    var established := EstablishedDeadline(ReadOwn(env, b, now), Some(BRIEF));
    var deadlines := [Some(workflowDeadline)] + [Some(DEADLINE)] + established;
    assert deadlines[0] == Some(workflowDeadline) && forall d <- established :: d == Some(DEADLINE);
    if workflowDeadline == SOONER {
      SoonestWins(env, SOONER, DEADLINE, deadlines, now);
    } else {
      OnlyDeadline(env, DEADLINE, deadlines, now);
    }
  }

  lemma Asked(env: BriefEnvironment, b: Bench, pending: Analysis, workflowDeadline: Text, now: int)
    requires TwoDeadlines(env, now) && Asks(env, b, now) && (workflowDeadline == SOONER || workflowDeadline == DEADLINE)
    requires pending == ONCE || pending == TWICE
    ensures var t := Next(env, b, Asking(pending, workflowDeadline), now);
      Asks(env, t, now) && ReadOwn(env, t, now) == Some(AnalysisRecord(b, pending, workflowDeadline))
  {
    hide ReadOwn, StartingAnalysis, Fit, IsActiveDeadline, Bounded, AssetIds, TextsJson, ParseAnalysis, AnalysisJson, EarliestActive,
      AnalysisDeadline;
    AnalysesParse();
    AskedDeadline(env, b, workflowDeadline, now);
    AnalysisStores(env, b, Some(BRIEF), pending, Some(workflowDeadline), workflowDeadline, now);
    AnalysisShows(env, b, pending, workflowDeadline, now);
  }

  // What is on screen stays there.
  lemma AnalysisShows(env: BriefEnvironment, b: Bench, pending: Analysis, workflowDeadline: Text, now: int)
    requires StartingAnalysis(env, b, Some(BRIEF), pending, Some(workflowDeadline), now).1
    ensures StartingAnalysis(env, b, Some(BRIEF), pending, Some(workflowDeadline), now).0.controller.snapshot.brief
         == b.controller.snapshot.brief
  {
    ReadingQuiet(env, b, now);
    hide Reading, Sweeping, Writing, ClearingRecord, IsActiveDeadline, EarliestActive, EstablishedDeadline, Local;
  }

  lemma BothAsked(first: Text, second: Text)
    requires (first == SOONER || first == DEADLINE) && (second == SOONER || second == DEADLINE)
    ensures Asks(Browser(), AskedOnce(first), 0) && Asks(Browser(), AskedTwice(first, second), 0)
    ensures ReadOwn(Browser(), AskedOnce(first), 0) == Some(AnalysisRecord(OnScreen(), ONCE, first))
    ensures ReadOwn(Browser(), AskedTwice(first, second), 0) == Some(AnalysisRecord(AskedOnce(first), TWICE, second))
  {
    FirstShown();
    PageHasKey();
    BrowserFits();
    hide Shown, Page, Browser, ReadOwn, Next, Fit, IsActiveDeadline, Bounded, KeyOf;
    Asked(Browser(), OnScreen(), ONCE, first, 0);
    Asked(Browser(), AskedOnce(first), TWICE, second, 0);
  }

  lemma MovedLater(env: BriefEnvironment, r: Record, t: Record, now: int)
    requires TwoDeadlines(env, now) && r.retentionDeadline == SOONER && t.retentionDeadline == DEADLINE
    requires BriefOf(r).Some? && BriefOf(r) == BriefOf(t) && r.workflowId == t.workflowId
    ensures !Shrinks(env, Some(r), Some(t))
  {
    hide EndsWithZone, Ascii;
  }

  // ------------------------------------------------------------ main results

  // The first analysis has stored the sooner deadline; the second resumes with a
  // later one, and the deadline of one brief of one workflow moves later.
  lemma AnalysisMovesDeadlineLater()
    ensures var b := AskedOnce(SOONER);
      var t := Next(Browser(), b, Asking(TWICE, DEADLINE), 0);
      var r, moved := AnalysisRecord(OnScreen(), ONCE, SOONER), AnalysisRecord(b, TWICE, DEADLINE);
      && ReadOwn(Browser(), b, 0) == Some(r) && ReadOwn(Browser(), t, 0) == Some(moved)
      && AsThePage(r, Asking(TWICE, DEADLINE)) && !Shrinks(Browser(), Some(r), Some(moved))
  {
    hide OnScreen, Browser, ReadOwn, Fit, IsActiveDeadline, Next, Bounded, AskedOnce, Shrinks, Ascii;
    BothAsked(SOONER, DEADLINE);
    BrowserFits();
    MovedLater(Browser(), AnalysisRecord(OnScreen(), ONCE, SOONER), AnalysisRecord(AskedOnce(SOONER), TWICE, DEADLINE), 0);
  }

  // The first analysis, accepted after the second has stored a sooner deadline,
  // is answered with its own: the deadline moves later.
  const ANSWER := BRIEF.(operationId := Ascii("oo"), version := 2)
  const ACCEPTED := Accepted(ANSWER, Ascii("oo"))

  ghost function Start(): Record { AnalysisRecord(OnScreen(), ONCE, DEADLINE) }
  ghost function AcceptedOnce(): Bench { Next(Browser(), AskedTwice(DEADLINE, SOONER), AnalysisAccepted(Start(), ONCE, ACCEPTED), 0) }
  ghost function AcceptedLoad(): Option<Load> {
    AcceptingAnalysis(Browser(), AskedTwice(DEADLINE, SOONER), Start(), ONCE, ACCEPTED, 0).1
  }

  lemma AcceptanceMovesDeadlineLater()
    ensures RequestingAnalysis(Browser(), AskedOnce(DEADLINE), ONCE, 0).1 == Some(Start())
    ensures AcceptedLoad().Some?
    ensures var r := AnalysisRecord(AskedOnce(DEADLINE), TWICE, SOONER);
      var moved := PublishedRecord(ANSWER).(assetVersionIds := ANALYSIS.assetVersionIds);
      && ReadOwn(Browser(), AcceptedOnce(), 0) == Some(r)
      && ReadOwn(Browser(), Next(Browser(), AcceptedOnce(), LoadArrived(AcceptedLoad().value, ANSWER), 0), 0) == Some(moved)
      && !Shrinks(Browser(), Some(r), Some(moved))
  {
    hide OnScreen, Browser, ReadOwn, Fit, IsActiveDeadline, Next, Bounded, AskedOnce, AskedTwice, AcceptingAnalysis, Shrinks, Ascii;
    BothAsked(DEADLINE, SOONER);
    BrowserFits();
    Requested(Browser(), AskedOnce(DEADLINE), Start(), ONCE, 0);
    AcceptedStores(Browser(), AskedTwice(DEADLINE, SOONER), Start(), 0);
    MovedLater(Browser(), AnalysisRecord(AskedOnce(DEADLINE), TWICE, SOONER),
               PublishedRecord(ANSWER).(assetVersionIds := ANALYSIS.assetVersionIds), 0);
  }

  lemma Requested(env: BriefEnvironment, b: Bench, r: Record, pending: Analysis, now: int)
    requires ReadOwn(env, b, now) == Some(r) && r.content == Analysing(pending)
    ensures RequestingAnalysis(env, b, pending, now).1 == Some(r)
  {
    hide Reading;
  }

  lemma AcceptedStores(env: BriefEnvironment, b: Bench, start: Record, now: int)
    requires TwoDeadlines(env, now) && Asks(env, b, now) && start.content == Analysing(ONCE) && start.retentionDeadline == DEADLINE
    requires ReadOwn(env, b, now) == Some(AnalysisRecord(b, TWICE, SOONER))
    ensures var load := AcceptingAnalysis(env, b, start, ONCE, ACCEPTED, now).1;
      var b1 := Next(env, b, AnalysisAccepted(start, ONCE, ACCEPTED), now);
      && load.Some? && ReadOwn(env, b1, now) == ReadOwn(env, b, now)
      && ReadOwn(env, Next(env, b1, LoadArrived(load.value, ANSWER), now), now)
           == Some(PublishedRecord(ANSWER).(assetVersionIds := ANALYSIS.assetVersionIds))
  {
    hide ReadOwn, Fit, IsActiveDeadline, Bounded, AcceptingAnalysis, BeginningLoad, Loading, LoadCurrent, ParseRecord, RecordJson;
    AcceptanceIs(env, b, start, ONCE, ANSWER, now);
    AcceptedPublishes(env, b, start, ONCE, ANSWER, now);
    BeginningReads(env, b, now);
    var b1 := BeginningLoad(env, b, now).0;
    BegunOwns(env, b, now);
    FitKept(env, b, b1);
    AnswerParses(env, b1, now);
    LoadingOutcome(env, b1, AcceptingAnalysis(env, b, start, ONCE, ACCEPTED, now).1.value, ANSWER, now);
  }

  lemma BegunOwns(env: BriefEnvironment, b: Bench, now: int)
    ensures Own(BeginningLoad(env, b, now).0) == Own(b)
  {
    ReadingQuiet(env, b, now);
    hide ReadingOwn, Local;
  }

  lemma AnswerParses(env: BriefEnvironment, b: Bench, now: int)
    requires Own(b) == PAGE && Bounded(PAGE) && IsActiveDeadline(env, DEADLINE, now)
    ensures var value := PublishedRecord(ANSWER).(assetVersionIds := ANALYSIS.assetVersionIds);
      ParseRecord(env, Own(b), RecordJson(value), now) == Some(value)
  {
    hide ParseContent, RecordJson, ParseRecord, IsActiveDeadline, Bounded, AssetIds, TextsJson;
    var value := PublishedRecord(ANSWER).(assetVersionIds := ANALYSIS.assetVersionIds);
    PublishedBack(env, Own(b), ANALYSIS.assetVersionIds, value);
    AssetsParse(ANALYSIS.assetVersionIds, 0);
    RecordParses(env, Own(b), value, now);
  }
}
