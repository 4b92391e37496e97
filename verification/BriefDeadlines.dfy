// For one product brief the stored deadline never moves later, whatever the
// server returns; but for two operations that overlap, whose exact conditions
// are given.
module BriefDeadlines {
  import opened Texts
  import opened Json
  import opened PendingCommand
  import opened KeyCodec
  import opened BriefRecord
  import opened BriefRoundTrip
  import opened BriefPersistence
  import opened BriefPersistenceRuns
  import opened BriefController
  import opened BriefWorkbench
  import opened BriefProtocol
  import opened BriefProtocolRuns
  import opened BriefIdentityRuns

  // ------------------------------------------------------ the earliest deadline

  ghost predicate NoLater(env: BriefEnvironment, d: Text, e: Option<Text>, now: int) {
    e.Some? && IsActiveDeadline(env, e.value, now) && env.parseDate(d).Some? && env.parseDate(d).value <= env.parseDate(e.value).value
  }

  lemma {:induction false} EarliestIs(env: BriefEnvironment, best: Option<Text>, deadlines: seq<Option<Text>>, now: int)
    requires best.Some? ==> IsActiveDeadline(env, best.value, now)
    requires Earliest(env, best, deadlines, now).Some?
    ensures var d := Earliest(env, best, deadlines, now).value;
      && IsActiveDeadline(env, d, now)
      && (best == Some(d) || Some(d) in deadlines)
      && (best.Some? ==> NoLater(env, d, best, now))
      && forall e :: e in deadlines ==> NoLater(env, d, e, now)
    decreases |deadlines|
  {
    hide EndsWithZone;
    if deadlines != [] {
      var sooner := best.None? || env.parseDate(deadlines[0].value).value < env.parseDate(best.value).value;
      EarliestIs(env, if sooner then deadlines[0] else best, deadlines[1..], now);
      forall e | e in deadlines ensures NoLater(env, Earliest(env, best, deadlines, now).value, e, now) {
        if e != deadlines[0] { assert e in deadlines[1..]; }
      }
    }
  }

  // The earliest of the deadlines, if every one of them is still in force.
  lemma EarliestActiveIs(env: BriefEnvironment, deadlines: seq<Option<Text>>, now: int)
    ensures EarliestActive(env, deadlines, now).Some?
       <==> deadlines != [] && forall e :: e in deadlines ==> e.Some? && IsActiveDeadline(env, e.value, now)
    ensures EarliestActive(env, deadlines, now).Some? ==>
      var d := EarliestActive(env, deadlines, now).value;
      Some(d) in deadlines && forall e :: e in deadlines ==> NoLater(env, d, e, now)
  {
    EarliestExists(env, None, deadlines, now);
    if EarliestActive(env, deadlines, now).Some? { EarliestIs(env, None, deadlines, now); }
  }

  lemma {:induction false} EarliestExists(env: BriefEnvironment, best: Option<Text>, deadlines: seq<Option<Text>>, now: int)
    requires best.Some? ==> IsActiveDeadline(env, best.value, now)
    ensures Earliest(env, best, deadlines, now).Some?
       <==> (best.Some? || deadlines != []) && forall e :: e in deadlines ==> e.Some? && IsActiveDeadline(env, e.value, now)
    decreases |deadlines|
  {
    hide EndsWithZone;
    if deadlines != [] {
      if deadlines[0].Some? && IsActiveDeadline(env, deadlines[0].value, now) {
        var sooner := best.None? || env.parseDate(deadlines[0].value).value < env.parseDate(best.value).value;
        EarliestExists(env, if sooner then deadlines[0] else best, deadlines[1..], now);
        assert deadlines == [deadlines[0]] + deadlines[1..];
      } else {
        assert deadlines[0] in deadlines;
      }
    }
  }

  lemma EarliestNoLater(env: BriefEnvironment, deadlines: seq<Option<Text>>, e: Text, now: int)
    requires EarliestActive(env, deadlines, now).Some? && Some(e) in deadlines
    ensures NoLater(env, EarliestActive(env, deadlines, now).value, Some(e), now)
  {
    EarliestActiveIs(env, deadlines, now);
  }

  // --------------------------------------------------------- stored deadlines

  // What a write leaves to be read keeps the deadline, the workflow and the
  // brief of what was written.
  ghost predicate Wrote(env: BriefEnvironment, t: Bench, value: Record, now: int) {
    var r := ReadOwn(env, t, now);
    r.Some? ==> r.value.retentionDeadline == value.retentionDeadline && r.value.workflowId == value.workflowId
                && BriefOf(r.value) == BriefOf(value)
  }

  lemma WriteWrote(env: BriefEnvironment, b: Bench, value: Record, now: int)
    requires Fit(env, b) && BriefIdentity(value.workspaceId, value.productId) == Own(b)
    ensures Wrote(env, WritingOwn(env, b, value, now).0, value, now) && Own(WritingOwn(env, b, value, now).0) == Own(b)
  {
    OwnWrite(env, b, value, now);
    if WritingOwn(env, b, value, now).1 {
      CanonicalParts(env, Own(b), value, now, ParseRecord(env, Own(b), RecordJson(value), now).value);
    }
    hide WritingOwn, ReadOwn, ParseRecord, RecordJson;
  }

  // The two records are about one brief of one workflow, and the second does
  // not outlive the first.
  ghost predicate Shrinks(env: BriefEnvironment, r: Option<Record>, t: Option<Record>) {
    r.Some? && t.Some? && BriefOf(r.value).Some? && BriefOf(r.value) == BriefOf(t.value) && r.value.workflowId == t.value.workflowId
    ==> env.parseDate(r.value.retentionDeadline).Some? && env.parseDate(t.value.retentionDeadline).Some?
        && env.parseDate(t.value.retentionDeadline).value <= env.parseDate(r.value.retentionDeadline).value
  }

  lemma ReadingFits(env: BriefEnvironment, b: Bench, now: int)
    requires Fit(env, b)
    ensures var b1 := ReadingOwn(env, b, now).0;
      b1 == b.(items := b1.items) && ReadOwn(env, b1, now) == ReadOwn(env, b, now) && Fit(env, b1)
  {
    ReadTwice(env, b, now);
    hide ReadingOwn, ReadOwn;
  }

  lemma SameShrinks(env: BriefEnvironment, b: Bench, now: int)
    requires Fit(env, b)
    ensures Shrinks(env, ReadOwn(env, b, now), ReadOwn(env, b, now))
  {
    if ReadOwn(env, b, now).Some? { ReadIsCanonical(env, b, now); }
    hide ReadOwn;
  }

  lemma WrittenShrinks(env: BriefEnvironment, b: Bench, r: Record, value: Record, now: int)
    requires Fit(env, b) && BriefIdentity(value.workspaceId, value.productId) == Own(b)
    requires BriefOf(value) == BriefOf(r) && BriefOf(r).Some? && value.workflowId == r.workflowId ==>
      NoLater(env, value.retentionDeadline, Some(r.retentionDeadline), now)
    ensures Shrinks(env, Some(r), ReadOwn(env, WritingOwn(env, b, value, now).0, now))
    ensures Own(WritingOwn(env, b, value, now).0) == Own(b)
  {
    WriteWrote(env, b, value, now);
    hide WritingOwn, ReadOwn;
  }

  lemma SendingReads(env: BriefEnvironment, b: Bench, command: BriefCommand, now: int)
    requires Fit(env, b)
    ensures ReadOwn(env, Sending(env, b, command, now).0, now) == ReadOwn(env, b, now)
  {
    ReadTwice(env, b, now);
    ReadIgnoresReads(env, ReadingOwn(env, b, now).0, command, now);
    ReadOwnIs(env, b, now);
    hide ReadingOwn, ReadOwn, ExactlyDurable;
  }

  // How the page starts its steps: an analysis is about the brief that was on
  // screen, and the page opens again for its own identity.
  ghost predicate AsThePage(r: Record, step: Step) {
    match step
    case Analyze(captured, pending, _) =>
      pending.prior == if captured.Some? then Some(Prior(captured.value.id, captured.value.operationId)) else None
    case Mount(identity) => identity == BriefIdentity(r.workspaceId, r.productId)
    case _ => true
  }

  // What the two operations that may pass over the stored deadline were given is
  // within it: the ceiling or the answer of an accepted analysis; and, where
  // analyze does not take the record into account, one of its other deadlines.
  ghost predicate StaysWithin(env: BriefEnvironment, r: Record, step: Step, now: int) {
    var stored := Some(r.retentionDeadline);
    match step
    case LoadArrived(load, response) =>
      || load.ceiling.None?
      || NoLater(env, load.ceiling.value, stored, now)
      || NoLater(env, response.retentionDeadline, stored, now)
    case Analyze(captured, _, workflowDeadline) =>
      captured.None? ||
      if r.content.Analysing? || OperationOf(r) != Some(captured.value.operationId) then
        || (workflowDeadline.Some? && NoLater(env, workflowDeadline.value, stored, now))
        || NoLater(env, captured.value.retentionDeadline, stored, now)
      else true
    case _ => true
  }

  lemma LoadingShrinks(env: BriefEnvironment, b: Bench, load: Load, response: Brief, now: int, r: Record)
    requires Fit(env, b) && ReadOwn(env, b, now) == Some(r)
    requires StaysWithin(env, r, LoadArrived(load, response), now)
    ensures Shrinks(env, Some(r), ReadOwn(env, Loading(env, b, load, response, now).0, now))
  {
    hide Fit, ReadOwn, WritingOwn, PublishingBrief, LoadMatches, RecordJson, ParseRecord;
    SameShrinks(env, b, now);
    ReadIsCanonical(env, b, now);
    ReadingFits(env, b, now);
    var (b1, persisted) := ReadingOwn(env, b, now);
    ReadOwnIs(env, b, now);
    hide ReadingOwn;
    var deadline := LoadDeadline(env, load, persisted, response, now);
    if LoadMatches(Own(b), load, response) && deadline.Some? {
      var current := response.(retentionDeadline := deadline.value);
      var (s, published) := PublishingBrief(b1.controller, load.read, current, load.resetForm);
      PublishLeavesPending(b1.controller, load.read, current, load.resetForm);
      RecoveredReads(env, b1, s, now);
      FitKept(env, b, b1.(controller := s));
      LoadDeadlineBounded(env, load, r, response, now);
      LoadedIs(Own(b), r, current, deadline.value);
      if published { WrittenShrinks(env, b1.(controller := s), r, LoadedRecord(Own(b), persisted, current, deadline.value), now); }
    }
  }

  lemma LoadedIs(identity: BriefIdentity, r: Record, current: Brief, deadline: Text)
    requires BriefIdentity(r.workspaceId, r.productId) == identity
    ensures var value := LoadedRecord(identity, Some(r), current, deadline);
      && BriefIdentity(value.workspaceId, value.productId) == identity
      && value.workflowId == current.workflowId && value.retentionDeadline == deadline
      && (BriefOf(value) == Some(current.id) || (r.content.Commanding? && BriefOf(value) == BriefOf(r)))
      && ((r.content.Commanding? ==> r.content.command.briefId == r.content.briefId) ==> BriefOf(value) == Some(current.id))
  {
  }

  lemma LoadDeadlineBounded(env: BriefEnvironment, load: Load, r: Record, response: Brief, now: int)
    requires LoadDeadline(env, load, Some(r), response, now).Some?
    requires StaysWithin(env, r, LoadArrived(load, response), now)
    ensures load.ceiling.Some? || (BriefOf(r) == Some(response.id) && r.workflowId == response.workflowId) ==>
      NoLater(env, LoadDeadline(env, load, Some(r), response, now).value, Some(r.retentionDeadline), now)
  {
    hide IsActiveDeadline;
    if load.ceiling.Some? {
      EarliestNoLater(env, [Some(response.retentionDeadline), load.ceiling], load.ceiling.value, now);
      EarliestNoLater(env, [Some(response.retentionDeadline), load.ceiling], response.retentionDeadline, now);
    } else if BriefOf(r) == Some(response.id) && r.workflowId == response.workflowId {
      var deadlines := [Some(response.retentionDeadline)] + StoredDeadline(load.persistedAtStart, response.id, response.workflowId)
                       + StoredDeadline(Some(r), response.id, response.workflowId);
      assert deadlines[|deadlines| - 1] == Some(r.retentionDeadline);
      EarliestNoLater(env, deadlines, r.retentionDeadline, now);
    }
  }

  lemma SettlingShrinks(
    env: BriefEnvironment, b: Bench, command: BriefCommand, current: Option<Brief>, status: Status, transition: bool, now: int, r: Record)
    requires Fit(env, b) && ReadOwn(env, b, now) == Some(r) && (transition ==> command.payload.Revise?)
    ensures Shrinks(env, Some(r), ReadOwn(env, Settling(env, b, command, current, status, transition, now).0, now))
  {
    hide Fit, ReadOwn, Settlement, Releasing, RecordJson, ParseRecord;
    SameShrinks(env, b, now);
    ReadIsCanonical(env, b, now);
    ReadingFits(env, b, now);
    var (b1, persisted) := ReadingOwn(env, b, now);
    ReadOwnIs(env, b, now);
    hide ReadingOwn;
    var settlement := Settlement(env, b1.controller.snapshot, persisted, command, current, status, transition, now);
    if settlement.Some? {
      SettlementOfOwner(env, b1.controller.snapshot, persisted, command, current, status, transition, now);
      SettlementNoLater(env, b1.controller.snapshot, r, command, current, status, transition, now);
      ReleasingShrinks(env, b1, r, settlement.value, command, now);
    }
  }

  lemma SettlementNoLater(
    env: BriefEnvironment, n: Snapshot, r: Record, command: BriefCommand, current: Option<Brief>, status: Status, transition: bool, now: int)
    requires transition ==> command.payload.Revise?
    requires Settlement(env, n, Some(r), command, current, status, transition, now).Some?
    ensures NoLater(env, Settlement(env, n, Some(r), command, current, status, transition, now).value.retentionDeadline,
                    Some(r.retentionDeadline), now)
  {
    var deadlines := [Some(r.retentionDeadline)] + (if current.Some? then [Some(current.value.retentionDeadline)] else []);
    assert deadlines[0] == Some(r.retentionDeadline);
    hide NoLater, ExactlyDurable, MatchesIdentity, MatchesRevision, EarliestActive;
    EarliestNoLater(env, deadlines, r.retentionDeadline, now);
  }

  lemma ReleasingShrinks(env: BriefEnvironment, b: Bench, r: Record, value: Record, command: BriefCommand, now: int)
    requires Fit(env, b) && value.content.Published? && BriefIdentity(value.workspaceId, value.productId) == Own(b)
    requires NoLater(env, value.retentionDeadline, Some(r.retentionDeadline), now)
    ensures Shrinks(env, Some(r), ReadOwn(env, Releasing(env, b, value, command, now).0, now))
  {
    WrittenShrinks(env, b, r, value, now);
    var b1 := WritingOwn(env, b, value, now).0;
    RecoveredReads(env, b1, SettlingCommand(env, b1.controller, command).0, now);
    hide WritingOwn, ReadOwn, CommandsMatch;
  }

  lemma AnsweringShrinks(
    env: BriefEnvironment, b: Bench, command: BriefCommand, read: Stamp, response: Brief, workflowId: Text, now: int, r: Record)
    requires Fit(env, b) && ReadOwn(env, b, now) == Some(r)
    ensures Shrinks(env, Some(r), ReadOwn(env, Answering(env, b, command, read, response, workflowId, now).0, now))
  {
    hide Fit, ReadOwn, Settling, ExactlyDurable, MatchesIdentity, MatchesRevision, PublishingBrief;
    SameShrinks(env, b, now);
    ReadingFits(env, b, now);
    var (b1, persisted) := ReadingOwn(env, b, now);
    hide ReadingOwn;
    SettlingShrinks(env, b1, command, Some(response), Awaited, command.payload.Revise?, now, r);
    var (b2, deadline) := Settling(env, b1, command, Some(response), Awaited, command.payload.Revise?, now);
    if deadline.Some? {
      var published := response.(retentionDeadline := deadline.value);
      PublishLeavesPending(b2.controller, read, published, true);
      RecoveredReads(env, b2, PublishingBrief(b2.controller, read, published, true).0, now);
    }
  }

  lemma RefusingShrinks(env: BriefEnvironment, b: Bench, command: BriefCommand, conflict: bool, now: int, r: Record)
    requires Fit(env, b) && ReadOwn(env, b, now) == Some(r)
    ensures Shrinks(env, Some(r), ReadOwn(env, Refusing(env, b, command, conflict, now), now))
  {
    hide Fit, ReadOwn, Settling, WritingOwn, ExactlyDurable, RecordJson, ParseRecord, Shrinks, MarkingConflict;
    if conflict && command.payload.Revise? {
      SameShrinks(env, b, now);
      ReadingFits(env, b, now);
      var (b1, persisted) := ReadingOwn(env, b, now);
      ReadOwnIs(env, b, now);
      hide ReadingOwn;
      if ExactlyDurable(env, b1.controller.snapshot, persisted, command, Awaited) {
        DurableHoldsCommand(env, b1.controller.snapshot, persisted, command, Awaited);
        ConflictShrinks(env, b1, command, now, r);
      }
    } else {
      SettlingShrinks(env, b, command, None, Awaited, false, now, r);
    }
  }

  lemma ConflictShrinks(env: BriefEnvironment, b: Bench, command: BriefCommand, now: int, r: Record)
    requires Fit(env, b) && ReadOwn(env, b, now) == Some(r) && r.content.Commanding?
    ensures var (t, written) := WritingOwn(env, b, r.(content := r.content.(status := VersionConflict)), now);
      && Shrinks(env, Some(r), ReadOwn(env, t, now))
      && Shrinks(env, Some(r), ReadOwn(env, t.(controller := MarkingConflict(env, t.controller, command).0), now))
  {
    hide Fit, ReadOwn, WritingOwn, RecordJson, ParseRecord, CommandsMatch;
    ReadIsCanonical(env, b, now);
    var value := r.(content := r.content.(status := VersionConflict));
    WrittenShrinks(env, b, r, value, now);
    var t := WritingOwn(env, b, value, now).0;
    RecoveredReads(env, t, MarkingConflict(env, t.controller, command).0, now);
  }

  lemma SubmittingShrinks(
    env: BriefEnvironment, b: Bench, current: Brief, command: BriefCommand, deadlines: seq<Option<Text>>, now: int, r: Record)
    requires Fit(env, b) && ReadOwn(env, b, now) == Some(r)
    ensures Shrinks(env, Some(r), ReadOwn(env, Submitting(env, b, current, command, deadlines, now).0, now))
  {
    hide Fit, ReadOwn, WritingOwn, RecoveringCommand, Sending, EarliestActive;
    SameShrinks(env, b, now);
    ReadingFits(env, b, now);
    var (b1, persisted) := ReadingOwn(env, b, now);
    ReadOwnIs(env, b, now);
    hide ReadingOwn;
    var all := deadlines + StoredDeadline(persisted, current.id, current.workflowId);
    var deadline := EarliestActive(env, all, now);
    if deadline.Some? {
      var value := CommandRecord(b, persisted, current, command, deadline.value);
      if BriefOf(r) == Some(current.id) && r.workflowId == current.workflowId {
        assert all[|all| - 1] == Some(r.retentionDeadline);
        EarliestNoLater(env, all, r.retentionDeadline, now);
      }
      WrittenShrinks(env, b1, r, value, now);
      var b2 := WritingOwn(env, b1, value, now).0;
      FitKept(env, b1, b2);
      RecoveringLeavesIdentity(env, b2.controller, command, Awaited);
      var b3 := b2.(controller := RecoveringCommand(env, b2.controller, command, Awaited).0);
      RecoveredReads(env, b2, b3.controller, now);
      FitKept(env, b2, b3);
      SendingReads(env, b3, command, now);
    }
  }

  // The deadlines analyze reckons with.
  function AnalysisDeadlines(r: Record, captured: Option<Brief>, workflowDeadline: Option<Text>): seq<Option<Text>> {
    [workflowDeadline] + (if captured.Some? then [Some(captured.value.retentionDeadline)] else [])
    + EstablishedDeadline(Some(r), captured)
  }

  lemma AnalysisBounded(
    env: BriefEnvironment, captured: Brief, pending: Analysis, workflowDeadline: Option<Text>, now: int, r: Record)
    requires StaysWithin(env, r, Analyze(Some(captured), pending, workflowDeadline), now)
    requires EarliestActive(env, AnalysisDeadlines(r, Some(captured), workflowDeadline), now).Some?
    ensures BriefOf(r) == Some(captured.id) ==>
      NoLater(env, EarliestActive(env, AnalysisDeadlines(r, Some(captured), workflowDeadline), now).value, Some(r.retentionDeadline), now)
  {
    hide IsActiveDeadline, EarliestActive;
    var all := AnalysisDeadlines(r, Some(captured), workflowDeadline);
    EarliestActiveIs(env, all, now);
    assert all[0] == workflowDeadline && all[1] == Some(captured.retentionDeadline) && all[0] in all && all[1] in all;
    if BriefOf(r) == Some(captured.id) && !r.content.Analysing? && OperationOf(r) == Some(captured.operationId) {
      assert all[2] == Some(r.retentionDeadline) && all[2] in all;
    }
  }

  lemma StartingShrinks(
    env: BriefEnvironment, b: Bench, captured: Option<Brief>, pending: Analysis, workflowDeadline: Option<Text>, now: int, r: Record)
    requires Fit(env, b) && ReadOwn(env, b, now) == Some(r)
    requires var step := Analyze(captured, pending, workflowDeadline); AsThePage(r, step) && StaysWithin(env, r, step, now)
    ensures Shrinks(env, Some(r), ReadOwn(env, StartingAnalysis(env, b, captured, pending, workflowDeadline, now).0, now))
  {
    hide Fit, ReadOwn, WritingOwn, EarliestActive, NoLater, StaysWithin, Shrinks;
    SameShrinks(env, b, now);
    ReadingFits(env, b, now);
    var (b1, persisted) := ReadingOwn(env, b, now);
    ReadOwnIs(env, b, now);
    hide ReadingOwn;
    var deadline := EarliestActive(env, AnalysisDeadlines(r, captured, workflowDeadline), now);
    if deadline.Some? {
      var value := Record(Own(b).workspaceId, Own(b).productId, pending.workflowId, pending.assetVersionIds, deadline.value,
                          Analysing(pending));
      if captured.Some? { AnalysisBounded(env, captured.value, pending, workflowDeadline, now, r); }
      WrittenShrinks(env, b1, r, value, now);
      var b2 := WritingOwn(env, b1, value, now).0;
      RecoveredReads(env, b2, RecoveringAnalysis(b2.controller, pending), now);
    }
  }

  // What an accepted analysis, requested again or lost, does before its brief is
  // loaded leaves the record as it is.
  lemma AnalysisStepsRead(env: BriefEnvironment, b: Bench, step: Step, now: int)
    requires Fit(env, b) && AnalysisStep(step)
    ensures ReadOwn(env, Next(env, b, step, now), now) == ReadOwn(env, b, now)
  {
    hide ReadingOwn, ReadOwn, Fit, BeginningLoad, AcceptedMatches, DeadlineAtOrBefore;
    ReadingFits(env, b, now);
    BeginningReads(env, b, now);
    var b1 := ReadingOwn(env, b, now).0;
    match step {
      case RequestAnalysis(pending) => RecoveredReads(env, b1, RecoveringAnalysis(b1.controller, pending), now);
      case AnalysisAccepted(_, pending, _) => RecoveredReads(env, b, RecoveringAnalysis(b.controller, pending), now);
      case AnalysisLoaded => RecoveredReads(env, b, SettlingAnalysis(b.controller), now);
      case AnalysisLost(pending) => RecoveredReads(env, b, RecoveringAnalysis(b.controller, pending), now);
    }
  }

  lemma RefusingAnalysisShrinks(env: BriefEnvironment, b: Bench, pending: Analysis, now: int, r: Record)
    requires Fit(env, b) && ReadOwn(env, b, now) == Some(r)
    ensures Shrinks(env, Some(r), ReadOwn(env, RefusingAnalysis(env, b, pending, now), now))
  {
    hide ReadOwn, WritingOwn, RecordJson, ParseRecord;
    SameShrinks(env, b, now);
    ReadIsCanonical(env, b, now);
    ReadingFits(env, b, now);
    var (b1, persisted) := ReadingOwn(env, b, now);
    ReadOwnIs(env, b, now);
    hide ReadingOwn;
    if AnalysisOnRecord(persisted, pending) && pending.prior.Some? {
      hide Fit;
      var value := r.(content := Published(pending.prior.value.briefId, pending.prior.value.operationId));
      WrittenShrinks(env, b1, r, value, now);
      var b2 := WritingOwn(env, b1, value, now).0;
      RecoveredReads(env, b2, SettlingAnalysis(b2.controller), now);
    } else {
      hide Fit;
      ClearedReadsNothing(env, b1, RefusingAnalysis(env, b, pending, now), now);
    }
  }

  // The page opened again for its identity finds its record or nothing.
  lemma MountingShrinks(env: BriefEnvironment, b: Bench, now: int, r: Record)
    requires Fit(env, b) && ReadOwn(env, b, now) == Some(r)
    ensures Shrinks(env, Some(r), ReadOwn(env, Mounting(env, b, Own(b), now), now))
  {
    SameShrinks(env, b, now);
    MountedReads(env, b, now);
    var (items, active) := Activating(env, b.items, Own(b));
    var mounted := b.(items := Sweeping(env, items, now), controller := Restarting(b.controller, Own(b)));
    FitKept(env, b, mounted);
    hide Activating, Sweeping, Rebuilding, ReadOwn, Fit, MarkerNames, MemoryCanonical, SendsDurably;
    RebuildingOutcome(env, mounted, now);
  }

  lemma BeginningReads(env: BriefEnvironment, b: Bench, now: int)
    requires Fit(env, b)
    ensures ReadOwn(env, BeginningLoad(env, b, now).0, now) == ReadOwn(env, b, now)
  {
    ReadingFits(env, b, now);
    var b1 := ReadingOwn(env, b, now).0;
    hide ReadingOwn, ReadOwn;
    RecoveredReads(env, b1, BeginningBriefRead(b1.controller).0, now);
  }

  // ------------------------------------------------------------ main results

  // Between two consecutive stored records about one brief of one workflow, the
  // deadline never moves later, whatever the server returned, while the two
  // operations that may pass over it stay within it.
  lemma DeadlineNeverLater(env: BriefEnvironment, b: Bench, step: Step, now: int, r: Record)
    requires Fit(env, b) && ReadOwn(env, b, now) == Some(r) && AsThePage(r, step) && StaysWithin(env, r, step, now)
    ensures Shrinks(env, Some(r), ReadOwn(env, Next(env, b, step, now), now))
  {
    hide ReadOwn, Loading, RequestingAnalysis, AcceptingAnalysis, EndingAnalysis, DoubtingAnalysis, Submitting, StartingAnalysis,
      RefusingAnalysis, Answering, Refusing, Doubting,
      Settling, BeginningLoad, Mounting, Sending, Invalidating, Shrinks;
    SameShrinks(env, b, now);
    ReadOfOwner(env, b, now);
    match step {
      case Revise(payload, key) =>
        var n := b.controller.snapshot;
        if n.brief.Some? {
          SubmittingShrinks(env, b, n.brief.value, BriefCommand(n.identity.productId, n.brief.value.id, key, payload),
                            [Some(n.brief.value.retentionDeadline)], now, r);
        }
      case Confirm(current, payload, deadline, key) =>
        SubmittingShrinks(env, b, current, BriefCommand(Own(b).productId, current.id, key, payload),
                          [deadline, Some(current.retentionDeadline)], now, r);
      case Analyze(captured, pending, deadline) => StartingShrinks(env, b, captured, pending, deadline, now, r);
      case BeginLoad => BeginningReads(env, b, now);
      case LoadArrived(load, response) => LoadingShrinks(env, b, load, response, now, r);
      case RequestAnalysis(_) => AnalysisStepsRead(env, b, step, now);
      case AnalysisAccepted(_, _, _) => AnalysisStepsRead(env, b, step, now);
      case AnalysisLoaded => AnalysisStepsRead(env, b, step, now);
      case AnalysisLost(_) => AnalysisStepsRead(env, b, step, now);
      case AnalysisRefused(pending) => RefusingAnalysisShrinks(env, b, pending, now, r);
      case AnswerArrived(command, read, response, workflowId) =>
        AnsweringShrinks(env, b, command, read, response, workflowId, now, r);
      case RefusalArrived(command, conflict) => RefusingShrinks(env, b, command, conflict, now, r);
      case Lost(command) => LostReads(env, b, command, now);
      case ResolveConflict =>
        if Pending(b).Some? && Pending(b).value.payload.Revise? {
          SettlingShrinks(env, b, Pending(b).value, b.controller.snapshot.brief, VersionConflict, false, now, r);
        }
      case Mount(_) => MountingShrinks(env, b, now, r);
      case Retry => if Pending(b).Some? { SendingReads(env, b, Pending(b).value, now); }
      case Gone => GoneReads(env, b, now, r);
    }
  }

  lemma LostReads(env: BriefEnvironment, b: Bench, command: BriefCommand, now: int)
    ensures ReadOwn(env, Doubting(env, b, command), now) == ReadOwn(env, b, now)
  {
    hide ReadOwn, Canonical;
    RecoveredReads(env, b, RecoveringCommand(env, b.controller, command, Awaited).0, now);
  }

  lemma GoneReads(env: BriefEnvironment, b: Bench, now: int, r: Record)
    requires Fit(env, b)
    ensures Shrinks(env, Some(r), ReadOwn(env, Invalidating(b), now))
  {
    hide ReadOwn;
    ClearedReadsNothing(env, b, Invalidating(b), now);
  }

  // A stretch of steps during which one brief of one workflow stays on record.
  ghost predicate Stretch(env: BriefEnvironment, b: Bench, run: seq<Timed>, briefId: Text, workflowId: Text)
    decreases |run|
  {
    run == [] ||
    (var (step, now) := (run[0].step, run[0].now);
     var r := ReadOwn(env, b, now);
     && r.Some? && BriefOf(r.value) == Some(briefId) && r.value.workflowId == workflowId
     && AsThePage(r.value, step) && StaysWithin(env, r.value, step, now)
     && Stretch(env, Next(env, b, step, now), run[1..], briefId, workflowId))
  }

  // Over any such stretch the last deadline is no later than the first.
  lemma {:induction false} DeadlinesNeverLaterOverStretch(
    env: BriefEnvironment, b: Bench, run: seq<Timed>, briefId: Text, workflowId: Text, at: int, r: Record, last: Record)
    requires Fit(env, b) && Stretch(env, b, run, briefId, workflowId)
    requires ReadOwn(env, b, at) == Some(r) && BriefOf(r) == Some(briefId) && r.workflowId == workflowId
    requires forall i :: 0 <= i < |run| ==> at <= run[i].now <= run[|run| - 1].now
    requires forall i, j :: 0 <= i <= j < |run| ==> run[i].now <= run[j].now
    requires ReadOwn(env, After(env, b, run), if run == [] then at else run[|run| - 1].now) == Some(last)
    requires BriefOf(last) == Some(briefId) && last.workflowId == workflowId
    ensures env.parseDate(r.retentionDeadline).Some? && env.parseDate(last.retentionDeadline).Some?
    ensures env.parseDate(last.retentionDeadline).value <= env.parseDate(r.retentionDeadline).value
    decreases |run|
  {
    hide ReadOwn, Next, Fit;
    SameShrinks(env, b, at);
    ReadOfOwner(env, b, at);
    if run != [] {
      var (step, now) := (run[0].step, run[0].now);
      LaterRead(env, b, at, now);
      DeadlineNeverLater(env, b, step, now, r);
      var t := Next(env, b, step, now);
      StillFit(env, b, step, now);
      if |run| == 1 {
        assert run[1..] == [] && After(env, b, run) == t;
      } else {
        ReadAtNext(env, t, run, briefId, workflowId);
        var r1 := ReadOwn(env, t, now).value;
        DeadlinesNeverLaterOverStretch(env, t, run[1..], briefId, workflowId, now, r1, last);
      }
    }
  }

  lemma ReadAtNext(env: BriefEnvironment, t: Bench, run: seq<Timed>, briefId: Text, workflowId: Text)
    requires |run| > 1 && Stretch(env, t, run[1..], briefId, workflowId) && run[0].now <= run[1].now
    ensures ReadOwn(env, t, run[0].now).Some?
    ensures var r := ReadOwn(env, t, run[0].now).value; BriefOf(r) == Some(briefId) && r.workflowId == workflowId
  {
    hide ReadOwn, Next;
    LaterRead(env, t, run[0].now, run[1].now);
  }

  lemma StillFit(env: BriefEnvironment, b: Bench, step: Step, now: int)
    requires Fit(env, b) && (step.Mount? ==> step.identity == Own(b))
    ensures Fit(env, Next(env, b, step, now))
  {
    NextKeepsOwner(env, b, step, now);
    hide Fit, Next;
    FitKept(env, b, Next(env, b, step, now));
  }

  lemma NextKeepsOwner(env: BriefEnvironment, b: Bench, step: Step, now: int)
    requires step.Mount? ==> step.identity == Own(b)
    ensures Own(Next(env, b, step, now)) == Own(b)
  {
    if Silent(step) {
      SilentIsQuiet(env, b, step, now);
    } else {
      match step {
        case Revise(payload, key) =>
          var n := b.controller.snapshot;
          if n.brief.Some? {
            SubmittingKeepsIdentity(env, b, n.brief.value, BriefCommand(n.identity.productId, n.brief.value.id, key, payload),
                                    [Some(n.brief.value.retentionDeadline)], now);
          }
        case Confirm(current, payload, deadline, key) =>
          SubmittingKeepsIdentity(env, b, current, BriefCommand(Own(b).productId, current.id, key, payload),
                                  [deadline, Some(current.retentionDeadline)], now);
        case Lost(command) => RecoveringLeavesIdentity(env, b.controller, command, Awaited);
        case Mount(identity) => MountingKeepsIdentity(env, b, identity, now);
        case Retry => if Pending(b).Some? { SendingLocal(env, b, Pending(b).value, now); }
      }
      hide Submitting, Sending, Mounting, Local, Canonical;
    }
    hide Next, Local;
  }

  lemma MountingKeepsIdentity(env: BriefEnvironment, b: Bench, identity: BriefIdentity, now: int)
    ensures Own(Mounting(env, b, identity, now)) == identity
  {
    var (items, active) := Activating(env, b.items, identity);
    RebuildingLocal(env, b.(items := Sweeping(env, items, now), controller := Restarting(b.controller, identity)), now);
    hide Activating, Sweeping, Rebuilding, Local;
  }

  // analyze takes the stored deadline into account only when memory and storage
  // name one operation.  When they do not, the deadline stays within the stored
  // one exactly when the workflow's or the remembered brief's deadline does.
  lemma AnalysisKeepsDeadlineIff(
    env: BriefEnvironment, b: Bench, captured: Brief, pending: Analysis, workflowDeadline: Option<Text>, now: int, r: Record)
    requires Fit(env, b) && ReadOwn(env, b, now) == Some(r)
    requires r.content.Analysing? || OperationOf(r) != Some(captured.operationId)
    requires StartingAnalysis(env, b, Some(captured), pending, workflowDeadline, now).1
    ensures var t := ReadOwn(env, StartingAnalysis(env, b, Some(captured), pending, workflowDeadline, now).0, now);
      && t.Some? && workflowDeadline.Some?
      && (NoLater(env, t.value.retentionDeadline, Some(r.retentionDeadline), now) <==>
            NoLater(env, workflowDeadline.value, Some(r.retentionDeadline), now)
            || NoLater(env, captured.retentionDeadline, Some(r.retentionDeadline), now))
      && (NoLater(env, t.value.retentionDeadline, Some(r.retentionDeadline), now) <==>
            StaysWithin(env, r, Analyze(Some(captured), pending, workflowDeadline), now))
  {
    hide Fit, ReadOwn, WritingOwn, EarliestActive, NoLater, RecordJson, ParseRecord, IsActiveDeadline;
    ReadIsCanonical(env, b, now);
    ReadingFits(env, b, now);
    var (b1, persisted) := ReadingOwn(env, b, now);
    ReadOwnIs(env, b, now);
    hide ReadingOwn;
    var all := AnalysisDeadlines(r, Some(captured), workflowDeadline);
    assert all == [workflowDeadline, Some(captured.retentionDeadline)];
    EarliestOfTwo(env, workflowDeadline, Some(captured.retentionDeadline), r.retentionDeadline, now);
    var value := Record(Own(b).workspaceId, Own(b).productId, pending.workflowId, pending.assetVersionIds,
                        EarliestActive(env, all, now).value, Analysing(pending));
    OwnWrite(env, b1, value, now);
    WriteWrote(env, b1, value, now);
    var b2 := WritingOwn(env, b1, value, now).0;
    RecoveredReads(env, b2, RecoveringAnalysis(b2.controller, pending), now);
  }

  // The earliest of two deadlines is within a third exactly when one of them is.
  lemma EarliestOfTwo(env: BriefEnvironment, d: Option<Text>, e: Option<Text>, stored: Text, now: int)
    requires EarliestActive(env, [d, e], now).Some?
    ensures d.Some? && e.Some?
    ensures NoLater(env, EarliestActive(env, [d, e], now).value, Some(stored), now)
       <==> NoLater(env, d.value, Some(stored), now) || NoLater(env, e.value, Some(stored), now)
  {
    hide EarliestActive, EndsWithZone;
    EarliestActiveIs(env, [d, e], now);
    assert [d, e][0] in [d, e] && [d, e][1] in [d, e];
  }

  // The load of an accepted analysis stands under a ceiling instead of the
  // record it finds.  It stores the deadline it was answered with, which is
  // within the stored one exactly when the answer is.
  lemma AcceptanceKeepsDeadlineIff(env: BriefEnvironment, b: Bench, load: Load, response: Brief, now: int, r: Record)
    requires Fit(env, b) && ReadOwn(env, b, now) == Some(r) && load.ceiling.Some?
    requires Loading(env, b, load, response, now).1
    ensures var t := ReadOwn(env, Loading(env, b, load, response, now).0, now);
      && t.Some? && t.value.retentionDeadline == response.retentionDeadline && BriefOf(t.value) == Some(load.briefId)
      && (NoLater(env, t.value.retentionDeadline, Some(r.retentionDeadline), now) <==>
            NoLater(env, response.retentionDeadline, Some(r.retentionDeadline), now))
      && (NoLater(env, t.value.retentionDeadline, Some(r.retentionDeadline), now) <==>
            StaysWithin(env, r, LoadArrived(load, response), now))
  {
    hide Fit, ReadOwn, WritingOwn, PublishingBrief, RecordJson, ParseRecord;
    ReadIsCanonical(env, b, now);
    ReadingFits(env, b, now);
    var (b1, persisted) := ReadingOwn(env, b, now);
    ReadOwnIs(env, b, now);
    hide ReadingOwn;
    CeilingDeadline(env, response.retentionDeadline, load.ceiling.value, now);
    var current := response.(retentionDeadline := response.retentionDeadline);
    var (s, _) := PublishingBrief(b1.controller, load.read, current, load.resetForm);
    PublishLeavesPending(b1.controller, load.read, current, load.resetForm);
    FitKept(env, b, b1.(controller := s));
    LoadedIs(Own(b), r, current, current.retentionDeadline);
    var value := LoadedRecord(Own(b), persisted, current, current.retentionDeadline);
    OwnWrite(env, b1.(controller := s), value, now);
    WriteWrote(env, b1.(controller := s), value, now);
  }

  // Under a ceiling a load stores what it was answered with.
  lemma CeilingDeadline(env: BriefEnvironment, candidate: Text, ceiling: Text, now: int)
    ensures DeadlineAtOrBefore(env, candidate, ceiling, now).Some? ==> DeadlineAtOrBefore(env, candidate, ceiling, now) == Some(candidate)
  {
    hide EndsWithZone;
    if DeadlineAtOrBefore(env, candidate, ceiling, now).Some? {
      var deadlines: seq<Option<Text>> := [Some(candidate), Some(ceiling)];
      assert deadlines[1..] == [Some(ceiling)];
      assert Earliest(env, Some(candidate), [Some(ceiling)], now) == Some(candidate);
    }
  }

  // When nothing has come between, the load of an accepted analysis stays within
  // the record it started from.
  lemma AcceptedLoadStaysWithin(
    env: BriefEnvironment, b: Bench, start: Record, pending: Analysis, a: Accepted, now: int, later: int, response: Brief)
    requires start.content == Analysing(pending) && IsActiveDeadline(env, start.retentionDeadline, later)
    ensures var load := AcceptingAnalysis(env, b, start, pending, a, now).1;
      load.Some? ==> load.value.ceiling.Some? && StaysWithin(env, start, LoadArrived(load.value, response), later)
  {
    hide BeginningLoad, AcceptedMatches, EndsWithZone;
    CeilingDeadline(env, a.brief.retentionDeadline, start.retentionDeadline, now);
  }
}
