// ProductBriefWorkbenchController of
// apps/web/lib/product-brief-workbench-controller.ts, with the polling
// arithmetic of apps/web/lib/operation-polling.ts.
module BriefController {
  import opened Texts
  import opened Json
  import opened KeyCodec
  import opened BriefRecord

  const INITIAL_POLL_DELAY_MS := 1_000
  const MAXIMUM_POLL_DELAY_MS := 10_000
  const MAXIMUM_AUTOMATIC_POLL_REQUESTS := 24
  const HISTORY_PAGE_SIZE := 20

  datatype OperationState = Queued | Active | WaitingHuman | Succeeded | Failed | Cancelled | OtherState(name: Text)

  datatype Operation = Operation(id: Text, version: int, state: OperationState)

  datatype Brief = Brief(
    id: Text,
    workspaceId: Text,
    productId: Text,
    workflowId: Text,
    operationId: Text,
    version: int,
    awaitingConfirmation: bool,
    currentVersionId: Option<Text>,
    confirmedVersionId: Option<Text>,
    retentionDeadline: Text)

  datatype VersionSummary = VersionSummary(id: Text, briefId: Text)

  datatype HistoryPage = HistoryPage(items: seq<VersionSummary>, nextCursor: Option<int>)

  datatype Polling = Polling(
    operationId: Option<Text>,
    completedRequests: nat,
    nextDelayMs: Option<int>,
    requestToken: nat,
    paused: bool)

  datatype Snapshot = Snapshot(
    identity: BriefIdentity,
    identityGeneration: nat,
    brief: Option<Brief>,
    versions: seq<VersionSummary>,
    versionsNextCursor: Option<int>,
    historyLoading: bool,
    operation: Option<Operation>,
    pendingAnalysis: Option<Analysis>,
    pendingCommand: Option<BriefCommand>,
    commandStatus: Option<Status>,
    polling: Polling,
    formRevision: nat,
    retentionExpired: bool)

  datatype State = State(snapshot: Snapshot, briefReads: nat, historyReads: nat, operationReads: nat)

  datatype Stamp = Stamp(identityGeneration: nat, readGeneration: nat)
  datatype HistoryToken = HistoryToken(stamp: Stamp, briefId: Text, more: bool)
  datatype OperationToken = OperationToken(stamp: Stamp, operationId: Text)

  // ----------------------------------------------------------------- polling

  predicate IsTerminal(state: OperationState) {
    state in {WaitingHuman, Succeeded, Failed, Cancelled}
  }

  function Power(n: nat): nat { if n == 0 then 1 else 2 * Power(n - 1) }

  function MaximumDelay(completed: nat): nat
    requires completed >= 1
  {
    var doubled := INITIAL_POLL_DELAY_MS * Power(completed - 1);
    if doubled < MAXIMUM_POLL_DELAY_MS then doubled else MAXIMUM_POLL_DELAY_MS
  }

  // Math.round of a non-negative number.
  function Round(x: real): int { (x + 0.5).Floor }

  // operationPollDelayMs; random is between 0 and 1.
  function PollDelay(completed: nat, random: real): int
    requires completed >= 1
  {
    Round(MaximumDelay(completed) as real * (0.5 + random * 0.5))
  }

  predicate ContinuesPolling(completed: nat) { completed < MAXIMUM_AUTOMATIC_POLL_REQUESTS }

  // --------------------------------------------------------------- commands

  // pendingProductBriefCommandFor applied to a command.
  function Canonical(env: BriefEnvironment, productId: Text, c: BriefCommand): Option<BriefCommand> {
    ParseCommand(env, productId, c.briefId, CommandJson(c))
  }

  // productBriefCommandsMatch.
  predicate CommandsMatch(env: BriefEnvironment, dispatched: BriefCommand, candidate: BriefCommand) {
    var matching := ParseCommand(env, dispatched.productId, dispatched.briefId, CommandJson(candidate));
    var canonical := ParseCommand(env, dispatched.productId, dispatched.briefId, CommandJson(dispatched));
    && matching.Some? && canonical.Some?
    && Stringify(CommandJson(matching.value)) == Stringify(CommandJson(canonical.value))
  }

  // ----------------------------------------------------------- specification

  function InitialSnapshot(identity: BriefIdentity, generation: nat): Snapshot {
    Snapshot(identity, generation, None, [], None, false, None, None, None, None, Polling(None, 0, None, 0, false), generation,
             false)
  }

  function Restarting(s: State, identity: BriefIdentity): State {
    State(InitialSnapshot(identity, s.snapshot.identityGeneration + 1), s.briefReads + 1, s.historyReads + 1,
          s.operationReads + 1)
  }

  function ChangingIdentity(s: State, identity: BriefIdentity): (State, bool) {
    if identity == s.snapshot.identity then (s, false) else (Restarting(s, identity), true)
  }

  function ExpiringRetention(s: State): State {
    var restarted := Restarting(s, s.snapshot.identity);
    restarted.(snapshot := restarted.snapshot.(retentionExpired := true))
  }

  predicate Live(s: State, stamp: Stamp, generation: nat) {
    stamp.identityGeneration == s.snapshot.identityGeneration && stamp.readGeneration == generation
  }

  function BeginningBriefRead(s: State): (State, Stamp) {
    (s.(briefReads := s.briefReads + 1), Stamp(s.snapshot.identityGeneration, s.briefReads + 1))
  }

  predicate AcceptsBrief(s: State, token: Stamp, brief: Brief) {
    var published := s.snapshot.brief;
    && Live(s, token, s.briefReads)
    && brief.productId == s.snapshot.identity.productId
    && !(published.Some? && published.value.id == brief.id && brief.version < published.value.version)
  }

  predicate ChangesOperation(s: State, brief: Brief) {
    s.snapshot.brief.None? || s.snapshot.brief.value.operationId != brief.operationId
  }

  function PublishingBrief(s: State, token: Stamp, brief: Brief, resetForm: bool): (State, bool) {
    if !AcceptsBrief(s, token, brief) then (s, false)
    else
      var n := s.snapshot;
      var a := n.(brief := Some(brief), formRevision := if resetForm then n.formRevision + 1 else n.formRevision);
      var b :=
        if n.brief.None? || n.brief.value.id != brief.id then a.(versions := [], versionsNextCursor := None, historyLoading := false)
        else a;
      var c :=
        if ChangesOperation(s, brief) then
          b.(operation := None, polling := Polling(Some(brief.operationId), 0, Some(0), n.polling.requestToken + 1, false))
        else b;
      (s.(snapshot := c), true)
  }

  function BeginningHistoryRead(s: State, more: bool, briefId: Text): (State, HistoryToken) {
    (s.(historyReads := s.historyReads + 1, snapshot := s.snapshot.(historyLoading := true)),
     HistoryToken(Stamp(s.snapshot.identityGeneration, s.historyReads + 1), briefId, more))
  }

  predicate LiveHistory(s: State, token: HistoryToken) {
    Live(s, token.stamp, s.historyReads) && s.snapshot.brief.Some? && s.snapshot.brief.value.id == token.briefId
  }

  function VersionIds(versions: seq<VersionSummary>): set<Text> { set v <- versions :: v.id }

  function Unseen(seen: set<Text>, items: seq<VersionSummary>): seq<VersionSummary>
    decreases |items|
  {
    if items == [] then []
    else if items[0].id in seen then Unseen(seen, items[1..])
    else [items[0]] + Unseen(seen + {items[0].id}, items[1..])
  }

  function PublishingHistory(s: State, token: HistoryToken, page: HistoryPage): (State, bool) {
    if !LiveHistory(s, token) || |page.items| > HISTORY_PAGE_SIZE || (exists v <- page.items :: v.briefId != token.briefId) then
      (s, false)
    else
      var existing := if token.more then s.snapshot.versions else [];
      (s.(snapshot := s.snapshot.(versions := existing + Unseen(VersionIds(existing), page.items),
                                  versionsNextCursor := page.nextCursor, historyLoading := false)), true)
  }

  function FailingHistory(s: State, token: HistoryToken, clearUnavailable: bool): (State, bool) {
    if !LiveHistory(s, token) then (s, false)
    else
      var n := if clearUnavailable && !token.more then s.snapshot.(versions := [], versionsNextCursor := None) else s.snapshot;
      (s.(snapshot := n.(historyLoading := false)), true)
  }

  function BeginningOperationRead(s: State, operationId: Text): (State, OperationToken) {
    (s.(operationReads := s.operationReads + 1),
     OperationToken(Stamp(s.snapshot.identityGeneration, s.operationReads + 1), operationId))
  }

  predicate LiveOperation(s: State, token: OperationToken) {
    && Live(s, token.stamp, s.operationReads)
    && s.snapshot.brief.Some? && s.snapshot.brief.value.operationId == token.operationId
  }

  predicate AcceptsOperation(s: State, token: OperationToken, operation: Operation) {
    var published := s.snapshot.operation;
    && LiveOperation(s, token) && operation.id == token.operationId
    && !(published.Some? && published.value.id == operation.id && operation.version < published.value.version)
  }

  function PublishingOperation(s: State, token: OperationToken, operation: Operation): (State, bool) {
    if !AcceptsOperation(s, token, operation) then (s, false)
    else
      var polling := s.snapshot.polling.(operationId := Some(operation.id));
      (s.(snapshot := s.snapshot.(
         operation := Some(operation),
         polling := if IsTerminal(operation.state) then polling.(nextDelayMs := None, paused := false) else polling)), true)
  }

  // rearmPollingAfterAuxiliaryRead.
  function Rearming(s: State, random: real): State {
    var p := s.snapshot.polling;
    if p.paused then s
    else
      var completed := if p.completedRequests < 1 then 1 else p.completedRequests;
      s.(snapshot := s.snapshot.(polling := p.(
        nextDelayMs := if p.nextDelayMs.Some? then p.nextDelayMs else Some(PollDelay(completed, random)),
        requestToken := p.requestToken + 1)))
  }

  function CompletingAuxiliary(s: State, token: OperationToken, operation: Operation, random: real): (State, bool) {
    var (s', published) := PublishingOperation(s, token, operation);
    if !published then (s, false)
    else (if IsTerminal(operation.state) then s' else Rearming(s', random), true)
  }

  function FailingAuxiliary(s: State, token: OperationToken, random: real): (State, bool) {
    if !LiveOperation(s, token) then (s, false) else (Rearming(s, random), true)
  }

  // What one more counted poll leaves, when it did or did not end the operation.
  function Counted(p: Polling, operationId: Text, stopped: bool, random: real): Polling {
    var completed := p.completedRequests + 1;
    var continues := !stopped && ContinuesPolling(completed);
    Polling(Some(operationId), completed, if continues then Some(PollDelay(completed, random)) else None,
            if continues then p.requestToken + 1 else p.requestToken, !stopped && !continues)
  }

  function CompletingPoll(s: State, token: OperationToken, operation: Operation, random: real): (State, bool) {
    var (s', published) := PublishingOperation(s, token, operation);
    if !published then (s, false)
    else
      (s'.(snapshot := s'.snapshot.(
         polling := Counted(s'.snapshot.polling, operation.id, IsTerminal(operation.state), random))), true)
  }

  function FailingPoll(s: State, token: OperationToken, random: real): (State, bool) {
    if !LiveOperation(s, token) then (s, false)
    else (s.(snapshot := s.snapshot.(polling := Counted(s.snapshot.polling, token.operationId, false, random))), true)
  }

  function ResumingPolling(s: State): (State, bool) {
    var n := s.snapshot;
    if n.brief.None? || n.brief.value.operationId == [] || !n.polling.paused then (s, false)
    else
      (s.(snapshot := n.(polling := Polling(Some(n.brief.value.operationId), 0, Some(0), n.polling.requestToken + 1, false))), true)
  }

  function RecoveringAnalysis(s: State, pending: Analysis): State {
    s.(snapshot := s.snapshot.(pendingAnalysis := Some(pending)))
  }

  function SettlingAnalysis(s: State): State {
    s.(snapshot := s.snapshot.(pendingAnalysis := None))
  }

  function RecoveringCommand(env: BriefEnvironment, s: State, command: BriefCommand, status: Status): (State, bool) {
    var canonical := Canonical(env, s.snapshot.identity.productId, command);
    if canonical.None? || (status == VersionConflict && !canonical.value.payload.Revise?) then (s, false)
    else (s.(snapshot := s.snapshot.(pendingCommand := canonical, commandStatus := Some(status))), true)
  }

  function MarkingConflict(env: BriefEnvironment, s: State, command: BriefCommand): (State, bool) {
    var pending := s.snapshot.pendingCommand;
    if !command.payload.Revise? || pending.None? || !CommandsMatch(env, command, pending.value) then (s, false)
    else (s.(snapshot := s.snapshot.(commandStatus := Some(VersionConflict))), true)
  }

  function SettlingCommand(env: BriefEnvironment, s: State, command: BriefCommand): (State, bool) {
    var pending := s.snapshot.pendingCommand;
    if pending.None? || !CommandsMatch(env, command, pending.value) then (s, false)
    else (s.(snapshot := s.snapshot.(pendingCommand := None, commandStatus := None)), true)
  }

  // ------------------------------------------------------------- the class

  class Controller {
    const env: BriefEnvironment
    var snapshot: Snapshot
    var briefReadGeneration: nat
    var historyReadGeneration: nat
    var operationReadGeneration: nat

    function Now(): State
      reads this
    {
      State(snapshot, briefReadGeneration, historyReadGeneration, operationReadGeneration)
    }

    constructor (env: BriefEnvironment, identity: BriefIdentity)
      ensures this.env == env && Now() == State(InitialSnapshot(identity, 1), 0, 0, 0)
    {
      this.env, snapshot := env, InitialSnapshot(identity, 1);
      briefReadGeneration, historyReadGeneration, operationReadGeneration := 0, 0, 0;
    }

    method RestartIdentity(identity: BriefIdentity)
      modifies this
      ensures Now() == Restarting(old(Now()), identity)
    {
      briefReadGeneration := briefReadGeneration + 1;
      historyReadGeneration := historyReadGeneration + 1;
      operationReadGeneration := operationReadGeneration + 1;
      snapshot := InitialSnapshot(identity, snapshot.identityGeneration + 1);
    }

    method ChangeIdentity(identity: BriefIdentity) returns (changed: bool)
      modifies this
      ensures (Now(), changed) == ChangingIdentity(old(Now()), identity)
    {
      if identity.workspaceId == snapshot.identity.workspaceId && identity.productId == snapshot.identity.productId {
        return false;
      }
      RestartIdentity(identity);
      return true;
    }

    method ExpireRetention()
      modifies this
      ensures Now() == ExpiringRetention(old(Now()))
    {
      var next := InitialSnapshot(snapshot.identity, snapshot.identityGeneration + 1);
      briefReadGeneration := briefReadGeneration + 1;
      historyReadGeneration := historyReadGeneration + 1;
      operationReadGeneration := operationReadGeneration + 1;
      snapshot := next.(retentionExpired := true);
    }

    method BeginBriefRead() returns (token: Stamp)
      modifies this
      ensures (Now(), token) == BeginningBriefRead(old(Now()))
    {
      briefReadGeneration := briefReadGeneration + 1;
      return Stamp(snapshot.identityGeneration, briefReadGeneration);
    }

    method PublishBrief(token: Stamp, brief: Brief, resetForm: bool) returns (published: bool)
      modifies this
      ensures (Now(), published) == PublishingBrief(old(Now()), token, brief, resetForm)
    {
      var current := snapshot.brief;
      if !AcceptsBrief(Now(), token, brief) {
        return false;
      }
      var operationChanged := current.None? || current.value.operationId != brief.operationId;
      var briefChanged := current.None? || current.value.id != brief.id;
      snapshot := snapshot.(brief := Some(brief));
      if briefChanged {
        snapshot := snapshot.(versions := [], versionsNextCursor := None, historyLoading := false);
      }
      if operationChanged {
        snapshot := snapshot.(
          operation := None,
          polling := Polling(Some(brief.operationId), 0, Some(0), snapshot.polling.requestToken + 1, false));
      }
      if resetForm {
        snapshot := snapshot.(formRevision := snapshot.formRevision + 1);
      }
      return true;
    }

    method BeginHistoryRead(more: bool, briefId: Text) returns (token: HistoryToken)
      modifies this
      ensures (Now(), token) == BeginningHistoryRead(old(Now()), more, briefId)
    {
      historyReadGeneration := historyReadGeneration + 1;
      snapshot := snapshot.(historyLoading := true);
      return HistoryToken(Stamp(snapshot.identityGeneration, historyReadGeneration), briefId, more);
    }

    method PublishHistory(token: HistoryToken, page: HistoryPage) returns (published: bool)
      modifies this
      ensures (Now(), published) == PublishingHistory(old(Now()), token, page)
    {
      if !LiveHistory(Now(), token) || |page.items| > HISTORY_PAGE_SIZE
        || (exists v <- page.items :: v.briefId != token.briefId)
      {
        return false;
      }
      var existing := if token.more then snapshot.versions else [];
      var versions, versionIds := existing, VersionIds(existing);
      var i := 0;
      while i < |page.items|
        invariant 0 <= i <= |page.items|
        invariant versions + Unseen(versionIds, page.items[i..]) == existing + Unseen(VersionIds(existing), page.items)
      {
        var version := page.items[i];
        ghost var rest := page.items[i..];
        assert rest[0] == version && rest[1..] == page.items[i + 1..];
        if version.id !in versionIds {
          ghost var tail := Unseen(versionIds + {version.id}, rest[1..]);
          assert versions + ([version] + tail) == (versions + [version]) + tail;
          versionIds := versionIds + {version.id};
          versions := versions + [version];
        }
        i := i + 1;
      }
      assert versions == versions + Unseen(versionIds, page.items[i..]);
      snapshot := snapshot.(versions := versions, versionsNextCursor := page.nextCursor, historyLoading := false);
      return true;
    }

    method FailHistory(token: HistoryToken, clearUnavailable: bool) returns (failed: bool)
      modifies this
      ensures (Now(), failed) == FailingHistory(old(Now()), token, clearUnavailable)
    {
      if !LiveHistory(Now(), token) {
        return false;
      }
      if clearUnavailable && !token.more {
        snapshot := snapshot.(versions := [], versionsNextCursor := None);
      }
      snapshot := snapshot.(historyLoading := false);
      return true;
    }

    method BeginOperationRead(operationId: Text) returns (token: OperationToken)
      modifies this
      ensures (Now(), token) == BeginningOperationRead(old(Now()), operationId)
    {
      operationReadGeneration := operationReadGeneration + 1;
      return OperationToken(Stamp(snapshot.identityGeneration, operationReadGeneration), operationId);
    }

    method PublishOperation(token: OperationToken, operation: Operation) returns (published: bool)
      modifies this
      ensures (Now(), published) == PublishingOperation(old(Now()), token, operation)
    {
      if !AcceptsOperation(Now(), token, operation) {
        return false;
      }
      var stopped := IsTerminal(operation.state);
      snapshot := snapshot.(operation := Some(operation), polling := snapshot.polling.(operationId := Some(operation.id)));
      if stopped {
        snapshot := snapshot.(polling := snapshot.polling.(nextDelayMs := None, paused := false));
      }
      return true;
    }

    method RearmPollingAfterAuxiliaryRead(random: real)
      modifies this
      ensures Now() == Rearming(old(Now()), random)
    {
      if snapshot.polling.paused { return; }
      var completedRequests := if snapshot.polling.completedRequests < 1 then 1 else snapshot.polling.completedRequests;
      var nextDelayMs := snapshot.polling.nextDelayMs;
      if nextDelayMs.None? { nextDelayMs := Some(PollDelay(completedRequests, random)); }
      snapshot := snapshot.(
        polling := snapshot.polling.(nextDelayMs := nextDelayMs, requestToken := snapshot.polling.requestToken + 1));
    }

    method CompleteAuxiliaryOperationRead(token: OperationToken, operation: Operation, random: real) returns (completed: bool)
      modifies this
      ensures (Now(), completed) == CompletingAuxiliary(old(Now()), token, operation, random)
    {
      completed := PublishOperation(token, operation);
      if !completed { return false; }
      if !IsTerminal(operation.state) {
        RearmPollingAfterAuxiliaryRead(random);
      }
      return true;
    }

    method FailAuxiliaryOperationRead(token: OperationToken, random: real) returns (failed: bool)
      modifies this
      ensures (Now(), failed) == FailingAuxiliary(old(Now()), token, random)
    {
      if !LiveOperation(Now(), token) {
        return false;
      }
      RearmPollingAfterAuxiliaryRead(random);
      return true;
    }

    method CompleteOperationPoll(token: OperationToken, operation: Operation, random: real) returns (completed: bool)
      modifies this
      ensures (Now(), completed) == CompletingPoll(old(Now()), token, operation, random)
    {
      completed := PublishOperation(token, operation);
      if !completed { return false; }
      var completedRequests := snapshot.polling.completedRequests + 1;
      var stopped := IsTerminal(operation.state);
      var shouldContinue := !stopped && ContinuesPolling(completedRequests);
      var polling := Polling(Some(operation.id), completedRequests, None, snapshot.polling.requestToken, !stopped && !shouldContinue);
      if shouldContinue {
        polling := polling.(nextDelayMs := Some(PollDelay(completedRequests, random)), requestToken := polling.requestToken + 1);
      }
      snapshot := snapshot.(polling := polling);
      return true;
    }

    method FailOperationPoll(token: OperationToken, random: real) returns (failed: bool)
      modifies this
      ensures (Now(), failed) == FailingPoll(old(Now()), token, random)
    {
      if !LiveOperation(Now(), token) {
        return false;
      }
      var completedRequests := snapshot.polling.completedRequests + 1;
      var polling := Polling(Some(token.operationId), completedRequests, None, snapshot.polling.requestToken, true);
      if ContinuesPolling(completedRequests) {
        polling := polling.(nextDelayMs := Some(PollDelay(completedRequests, random)), requestToken := polling.requestToken + 1,
                            paused := false);
      }
      snapshot := snapshot.(polling := polling);
      return true;
    }

    method ResumePolling() returns (resumed: bool)
      modifies this
      ensures (Now(), resumed) == ResumingPolling(old(Now()))
    {
      if snapshot.brief.None? || snapshot.brief.value.operationId == [] || !snapshot.polling.paused {
        return false;
      }
      snapshot := snapshot.(polling := Polling(Some(snapshot.brief.value.operationId), 0, Some(0),
                                               snapshot.polling.requestToken + 1, false));
      return true;
    }

    method RecoverAnalysis(pending: Analysis)
      modifies this
      ensures Now() == RecoveringAnalysis(old(Now()), pending)
    {
      snapshot := snapshot.(pendingAnalysis := Some(pending));
    }

    method SettleAnalysis()
      modifies this
      ensures Now() == SettlingAnalysis(old(Now()))
    {
      snapshot := snapshot.(pendingAnalysis := None);
    }

    method RecoverCommand(command: BriefCommand, status: Status) returns (recovered: bool)
      modifies this
      ensures (Now(), recovered) == RecoveringCommand(env, old(Now()), command, status)
    {
      var canonical := Canonical(env, snapshot.identity.productId, command);
      if canonical.None? || (status == VersionConflict && !canonical.value.payload.Revise?) {
        return false;
      }
      snapshot := snapshot.(pendingCommand := canonical, commandStatus := Some(status));
      return true;
    }

    method MarkVersionConflict(command: BriefCommand) returns (marked: bool)
      modifies this
      ensures (Now(), marked) == MarkingConflict(env, old(Now()), command)
    {
      hide CommandsMatch;
      if !command.payload.Revise? || snapshot.pendingCommand.None?
        || !CommandsMatch(env, command, snapshot.pendingCommand.value)
      {
        return false;
      }
      snapshot := snapshot.(commandStatus := Some(VersionConflict));
      return true;
    }

    method SettleCommand(command: BriefCommand) returns (settled: bool)
      modifies this
      ensures (Now(), settled) == SettlingCommand(env, old(Now()), command)
    {
      hide CommandsMatch;
      if snapshot.pendingCommand.None? || !CommandsMatch(env, command, snapshot.pendingCommand.value) {
        return false;
      }
      snapshot := snapshot.(pendingCommand := None, commandStatus := None);
      return true;
    }
  }
}
