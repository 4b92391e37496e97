// The Product Brief protocol of
// apps/web/lib/use-product-brief-workbench-controller.ts: what its callbacks do
// to storage, to the controller and to the network between two waits.
//
// Each step happens at one time now; a server answer is a parameter of the step
// that receives it, together with what the callback captured before waiting.
module BriefWorkbench {
  import opened Texts
  import opened Json
  import opened KeyCodec
  import opened BriefRecord
  import opened BriefPersistence
  import opened BriefController

  // ---------------------------------------------------------------- deadlines

  // earliestActiveProductBriefRetentionDeadline, from the best of those before.
  function Earliest(env: BriefEnvironment, best: Option<Text>, deadlines: seq<Option<Text>>, now: int): Option<Text>
    requires best.Some? ==> IsActiveDeadline(env, best.value, now)
    decreases |deadlines|
  {
    if deadlines == [] then best
    else if deadlines[0].None? || !IsActiveDeadline(env, deadlines[0].value, now) then None
    else
      var sooner := best.None? || env.parseDate(deadlines[0].value).value < env.parseDate(best.value).value;
      Earliest(env, if sooner then deadlines[0] else best, deadlines[1..], now)
  }

  function EarliestActive(env: BriefEnvironment, deadlines: seq<Option<Text>>, now: int): Option<Text> {
    Earliest(env, None, deadlines, now)
  }

  method FindEarliestActive(env: BriefEnvironment, deadlines: seq<Option<Text>>, now: int) returns (earliest: Option<Text>)
    ensures earliest == EarliestActive(env, deadlines, now)
  {
    earliest := None;
    var i := 0;
    while i < |deadlines|
      invariant 0 <= i <= |deadlines|
      invariant earliest.Some? ==> IsActiveDeadline(env, earliest.value, now)
      invariant EarliestActive(env, deadlines, now) == Earliest(env, earliest, deadlines[i..], now)
    {
      var deadline := deadlines[i];
      if deadline.None? || !IsActiveDeadline(env, deadline.value, now) { return None; }
      if earliest.None? || env.parseDate(deadline.value).value < env.parseDate(earliest.value).value {
        earliest := deadline;
      }
      i := i + 1;
    }
  }

  // The deadline already stored for a brief.
  function StoredDeadline(persisted: Option<Record>, briefId: Text, workflowId: Text): seq<Option<Text>> {
    if persisted.None? || persisted.value.workflowId != workflowId then []
    else if BriefOf(persisted.value) == Some(briefId) then [Some(persisted.value.retentionDeadline)]
    else []
  }

  // The brief a record is about: its own, or the one being analysed again.
  function BriefOf(r: Record): Option<Text> {
    match r.content
    case Published(briefId, _) => Some(briefId)
    case Commanding(briefId, _, _, _) => Some(briefId)
    case Analysing(a) => if a.prior.Some? then Some(a.prior.value.briefId) else None
  }

  function OperationOf(r: Record): Option<Text> {
    match r.content
    case Published(_, operationId) => Some(operationId)
    case Commanding(_, operationId, _, _) => Some(operationId)
    case Analysing(a) => if a.prior.Some? then Some(a.prior.value.operationId) else None
  }

  function DeadlineAtOrBefore(env: BriefEnvironment, candidate: Text, ceiling: Text, now: int): Option<Text> {
    var earliest := EarliestActive(env, [Some(candidate), Some(ceiling)], now);
    if earliest.None? || !IsActiveDeadline(env, candidate, now) || env.parseDate(ceiling).None?
       || env.parseDate(candidate).value > env.parseDate(ceiling).value
    then None
    else earliest
  }

  // --------------------------------------------------------------- identities

  predicate MatchesIdentity(
    b: Brief, identity: BriefIdentity, briefId: Text, workflowId: Option<Text>, operationId: Option<Text>)
  {
    && b.workspaceId == identity.workspaceId && b.productId == identity.productId && b.id == briefId
    && (workflowId.Some? ==> b.workflowId == workflowId.value)
    && (operationId.Some? ==> b.operationId == operationId.value)
  }

  predicate MatchesRevision(b: Brief, identity: BriefIdentity, briefId: Text, persisted: Record, payload: BriefPayload)
    requires payload.Revise? && OperationOf(persisted).Some?
  {
    && MatchesIdentity(b, identity, briefId, Some(persisted.workflowId), None)
    && b.awaitingConfirmation && b.version == payload.expectedVersion + 1
    && b.currentVersionId.Some? && b.currentVersionId.value != payload.baseVersionId
    && (b.operationId == OperationOf(persisted).value || b.confirmedVersionId == Some(payload.baseVersionId))
  }

  // An accepted analysis: the brief and operation the server answered with.
  datatype Accepted = Accepted(brief: Brief, operationId: Text)

  predicate ReloadMatches(current: Brief, a: Accepted) {
    && a.brief.operationId == a.operationId
    && current.id == a.brief.id && current.workspaceId == a.brief.workspaceId && current.productId == a.brief.productId
    && current.workflowId == a.brief.workflowId && current.version >= a.brief.version
    && (current.version > a.brief.version || current.operationId == a.operationId)
  }

  // pendingAnalysesMatch compares every member.
  predicate AnalysisOnRecord(persisted: Option<Record>, pending: Analysis) {
    persisted.Some? && persisted.value.content == Analysing(pending)
  }

  predicate AcceptedMatches(a: Accepted, pending: Analysis, workspaceId: Text) {
    && a.brief.workspaceId == workspaceId && a.brief.productId == pending.productId
    && a.brief.workflowId == pending.workflowId && a.brief.operationId == a.operationId
    && (pending.prior.Some? ==> a.brief.id == pending.prior.value.briefId && a.operationId != pending.prior.value.operationId)
  }

  // ----------------------------------------------------------- specification

  datatype Bench = Bench(items: Items, controller: State, sent: seq<BriefCommand>)

  function Own(b: Bench): BriefIdentity { b.controller.snapshot.identity }

  // exactPendingProductBriefCommandIsDurable.
  predicate ExactlyDurable(env: BriefEnvironment, n: Snapshot, persisted: Option<Record>, command: BriefCommand, status: Status) {
    && persisted.Some? && persisted.value.content.Commanding?
    && CommandsMatch(env, command, persisted.value.content.command)
    && n.identity == BriefIdentity(persisted.value.workspaceId, persisted.value.productId)
    && n.commandStatus == Some(status) && n.pendingCommand.Some?
    && CommandsMatch(env, n.pendingCommand.value, command)
    && persisted.value.content.status == status
  }

  lemma DurableHoldsCommand(env: BriefEnvironment, n: Snapshot, persisted: Option<Record>, command: BriefCommand, status: Status)
    requires ExactlyDurable(env, n, persisted, command, status)
    ensures persisted.Some? && persisted.value.content.Commanding?
  {
  }

  function ReadingOwn(env: BriefEnvironment, b: Bench, now: int): (Bench, Option<Record>) {
    var (items, r) := Reading(env, b.items, Own(b), now);
    (b.(items := items), r)
  }

  // invalidateRetainedWorkbench: the retention is over, or the server says the
  // brief is gone.
  function Invalidating(b: Bench): Bench {
    b.(items := ClearingRecord(b.items, Own(b)), controller := ExpiringRetention(b.controller))
  }

  // writePersisted: arm the retention, then write; either failing closes the
  // workbench.
  function WritingOwn(env: BriefEnvironment, b: Bench, value: Record, now: int): (Bench, bool) {
    var (b1, _) := ReadingOwn(env, b, now);
    if !IsActiveDeadline(env, value.retentionDeadline, now) then (Invalidating(b1), false)
    else
      var (items, written) := Writing(env, Sweeping(env, b1.items, now), value, now);
      if written then (b1.(items := items), true)
      else (b1.(items := items, controller := ExpiringRetention(b1.controller)), false)
  }

  function AssetsOf(persisted: Option<Record>): seq<Text> {
    if persisted.Some? then persisted.value.assetVersionIds else []
  }

  // What loadCurrent stores for a brief.
  function LoadedRecord(identity: BriefIdentity, persisted: Option<Record>, current: Brief, deadline: Text): Record {
    if persisted.Some? && persisted.value.content.Commanding? && persisted.value.content.command.briefId == current.id then
      persisted.value.(workflowId := current.workflowId, retentionDeadline := deadline,
                       content := persisted.value.content.(operationId := current.operationId))
    else
      Record(identity.workspaceId, identity.productId, current.workflowId, AssetsOf(persisted), deadline,
             Published(current.id, current.operationId))
  }

  // Everything loadCurrent captured before it asked for the brief.
  datatype Load = Load(
    briefId: Text,
    read: Stamp,
    persistedAtStart: Option<Record>,
    ceiling: Option<Text>,
    accepted: Option<Accepted>,
    resetForm: bool)

  // loadCurrent, up to its request.
  function BeginningLoad(env: BriefEnvironment, b: Bench, now: int): (Bench, (Option<Record>, Stamp)) {
    var (b1, persisted) := ReadingOwn(env, b, now);
    var (s, read) := BeginningBriefRead(b1.controller);
    (b1.(controller := s), (persisted, read))
  }

  predicate LoadMatches(identity: BriefIdentity, load: Load, response: Brief) {
    var bound := load.persistedAtStart;
    && (if load.accepted.Some? then
          MatchesIdentity(response, identity, load.briefId, Some(load.accepted.value.brief.workflowId),
                          Some(load.accepted.value.operationId))
        else if bound.Some? && BriefOf(bound.value) == Some(load.briefId) then
          MatchesIdentity(response, identity, load.briefId, Some(bound.value.workflowId), OperationOf(bound.value))
        else MatchesIdentity(response, identity, load.briefId, None, None))
    && (load.accepted.Some? ==> ReloadMatches(response, load.accepted.value))
  }

  function LoadDeadline(env: BriefEnvironment, load: Load, persisted: Option<Record>, response: Brief, now: int): Option<Text> {
    if load.ceiling.Some? then DeadlineAtOrBefore(env, response.retentionDeadline, load.ceiling.value, now)
    else
      EarliestActive(env, [Some(response.retentionDeadline)]
                          + StoredDeadline(load.persistedAtStart, response.id, response.workflowId)
                          + StoredDeadline(persisted, response.id, response.workflowId), now)
  }

  // loadCurrent, once the brief has arrived.
  function Loading(env: BriefEnvironment, b: Bench, load: Load, response: Brief, now: int): (Bench, bool) {
    if !LoadMatches(Own(b), load, response) then (b, false)
    else
      var (b1, persisted) := ReadingOwn(env, b, now);
      match LoadDeadline(env, load, persisted, response, now)
      case None => (b1, false)
      case Some(deadline) =>
        var current := response.(retentionDeadline := deadline);
        var (s, published) := PublishingBrief(b1.controller, load.read, current, load.resetForm);
        if !published then (b1.(controller := s), false)
        else WritingOwn(env, b1.(controller := s), LoadedRecord(Own(b), persisted, current, deadline), now)
  }

  // The plain record that replaces a settled command's, if it may be settled.
  function Settlement(
    env: BriefEnvironment, n: Snapshot, persisted: Option<Record>, command: BriefCommand, current: Option<Brief>, status: Status,
    transition: bool, now: int): Option<Record>
    requires transition ==> command.payload.Revise?
  {
    if !ExactlyDurable(env, n, persisted, command, status) then None
    else
      var r := persisted.value;
      if current.Some?
         && !(if transition then MatchesRevision(current.value, n.identity, command.briefId, r, command.payload)
              else MatchesIdentity(current.value, n.identity, command.briefId, Some(r.workflowId), OperationOf(r)))
      then None
      else
        match EarliestActive(env, [Some(r.retentionDeadline)]
                                  + (if current.Some? then [Some(current.value.retentionDeadline)] else []), now)
        case None => None
        case Some(deadline) =>
          Some(Record(r.workspaceId, r.productId, if current.Some? then current.value.workflowId else r.workflowId,
                      r.assetVersionIds, deadline,
                      Published(if current.Some? then current.value.id else r.content.briefId,
                                if current.Some? then current.value.operationId else r.content.operationId)))
  }

  // settlePendingCommand: back to a plain record, then out of memory.
  function Settling(
    env: BriefEnvironment, b: Bench, command: BriefCommand, current: Option<Brief>, status: Status, transition: bool, now: int)
    : (Bench, Option<Text>)
    requires transition ==> command.payload.Revise?
  {
    var (b1, persisted) := ReadingOwn(env, b, now);
    match Settlement(env, b1.controller.snapshot, persisted, command, current, status, transition, now)
    case None => (b1, None)
    case Some(next) => Releasing(env, b1, next, command, now)
  }

  function Releasing(env: BriefEnvironment, b: Bench, next: Record, command: BriefCommand, now: int): (Bench, Option<Text>) {
    var (b1, written) := WritingOwn(env, b, next, now);
    if !written then (b1, None)
    else
      var (s, settled) := SettlingCommand(env, b1.controller, command);
      (b1.(controller := s), if settled then Some(next.retentionDeadline) else None)
  }

  // recoverRevision and recoverConfirmation up to the request: sent only when
  // memory and storage both hold exactly this command, pending.
  function Sending(env: BriefEnvironment, b: Bench, command: BriefCommand, now: int): (Bench, bool) {
    var (b1, persisted) := ReadingOwn(env, b, now);
    if !ExactlyDurable(env, b1.controller.snapshot, persisted, command, Awaited) then (b1, false)
    else (b1.(controller := BeginningBriefRead(b1.controller).0, sent := b1.sent + [command]), true)
  }

  function CommandRecord(b: Bench, persisted: Option<Record>, current: Brief, command: BriefCommand, deadline: Text): Record {
    Record(Own(b).workspaceId, Own(b).productId, current.workflowId, AssetsOf(persisted), deadline,
           Commanding(current.id, current.operationId, command, Awaited))
  }

  // Persist, remember, send.
  function Submitting(
    env: BriefEnvironment, b: Bench, current: Brief, command: BriefCommand, deadlines: seq<Option<Text>>, now: int): (Bench, bool)
  {
    var (b1, persisted) := ReadingOwn(env, b, now);
    var deadline := EarliestActive(env, deadlines + StoredDeadline(persisted, current.id, current.workflowId), now);
    if deadline.None? then (b1, false)
    else
      var (b2, written) := WritingOwn(env, b1, CommandRecord(b, persisted, current, command, deadline.value), now);
      if !written then (b2, false)
      else
        var (s, _) := RecoveringCommand(env, b2.controller, command, Awaited);
        Sending(env, b2.(controller := s), command, now)
  }

  // revise.
  function Revising(env: BriefEnvironment, b: Bench, payload: BriefPayload, key: Text, now: int): (Bench, bool) {
    var n := b.controller.snapshot;
    if n.brief.None? || n.pendingAnalysis.Some? || n.pendingCommand.Some? then (b, false)
    else
      var command := BriefCommand(n.identity.productId, n.brief.value.id, key, payload);
      Submitting(env, b, n.brief.value, command, [Some(n.brief.value.retentionDeadline)], now)
  }

  // confirm, once the workflow has arrived; current is the brief it captured
  // before waiting.
  function Confirming(
    env: BriefEnvironment, b: Bench, current: Brief, payload: BriefPayload, workflowDeadline: Option<Text>, key: Text, now: int)
    : (Bench, bool)
  {
    var command := BriefCommand(Own(b).productId, current.id, key, payload);
    Submitting(env, b, current, command, [workflowDeadline, Some(current.retentionDeadline)], now)
  }

  // The deadline stored for a captured brief that analyze honours.
  function EstablishedDeadline(persisted: Option<Record>, current: Option<Brief>): seq<Option<Text>> {
    if current.Some? && persisted.Some? && !persisted.value.content.Analysing?
       && BriefOf(persisted.value) == Some(current.value.id) && OperationOf(persisted.value) == Some(current.value.operationId)
    then [Some(persisted.value.retentionDeadline)]
    else []
  }

  // analyze, once the workflow has arrived.
  function StartingAnalysis(
    env: BriefEnvironment, b: Bench, current: Option<Brief>, pending: Analysis, workflowDeadline: Option<Text>, now: int)
    : (Bench, bool)
  {
    var (b1, persisted) := ReadingOwn(env, b, now);
    var deadline := EarliestActive(env, [workflowDeadline]
                      + (if current.Some? then [Some(current.value.retentionDeadline)] else [])
                      + EstablishedDeadline(persisted, current), now);
    if deadline.None? then (b1, false)
    else
      var value := Record(Own(b).workspaceId, Own(b).productId, pending.workflowId, pending.assetVersionIds, deadline.value,
                          Analysing(pending));
      var (b2, written) := WritingOwn(env, b1, value, now);
      if !written then (b2, false) else (b2.(controller := RecoveringAnalysis(b2.controller, pending)), true)
  }

  // recoverAnalysis, up to its request: it goes out with the record it starts
  // from, if that is still the record of this analysis.
  function RequestingAnalysis(env: BriefEnvironment, b: Bench, pending: Analysis, now: int): (Bench, Option<Record>) {
    var (b1, persisted) := ReadingOwn(env, b, now);
    if AnalysisOnRecord(persisted, pending) then (b1, persisted) else (DoubtingAnalysis(b1, pending), None)
  }

  // recoverAnalysis, once the analysis has been accepted: the load of its brief
  // begins, under a ceiling taken from the record it started from.
  function AcceptingAnalysis(
    env: BriefEnvironment, b: Bench, start: Record, pending: Analysis, a: Accepted, now: int): (Bench, Option<Load>)
    requires start.content == Analysing(pending)
  {
    if !AcceptedMatches(a, pending, Own(b).workspaceId) then (DoubtingAnalysis(b, pending), None)
    else
      match DeadlineAtOrBefore(env, a.brief.retentionDeadline, start.retentionDeadline, now)
      case None => (DoubtingAnalysis(b, pending), None)
      case Some(ceiling) =>
        var (b1, (persisted, read)) := BeginningLoad(env, b, now);
        (b1, Some(Load(a.brief.id, read, persisted, Some(ceiling), Some(a), true)))
  }

  // recoverAnalysis, once that load is through.
  function EndingAnalysis(b: Bench): Bench { b.(controller := SettlingAnalysis(b.controller)) }

  // An analysis of unknown outcome is remembered.
  function DoubtingAnalysis(b: Bench, pending: Analysis): Bench { b.(controller := RecoveringAnalysis(b.controller, pending)) }

  // A definitive refusal of an analysis.
  function RefusingAnalysis(env: BriefEnvironment, b: Bench, pending: Analysis, now: int): Bench {
    var (b1, persisted) := ReadingOwn(env, b, now);
    if AnalysisOnRecord(persisted, pending) && pending.prior.Some? then
      var r := persisted.value;
      var (b2, written) := WritingOwn(env, b1, r.(content := Published(pending.prior.value.briefId, pending.prior.value.operationId)), now);
      if written then b2.(controller := SettlingAnalysis(b2.controller)) else b2
    else b1.(items := ClearingRecord(b1.items, Own(b1)), controller := SettlingAnalysis(b1.controller))
  }

  // The answer to a command: a revision, or a confirmation with its workflow.
  function Answering(
    env: BriefEnvironment, b: Bench, command: BriefCommand, read: Stamp, response: Brief, workflowId: Text, now: int): (Bench, bool)
  {
    var (b1, persisted) := ReadingOwn(env, b, now);
    if !ExactlyDurable(env, b1.controller.snapshot, persisted, command, Awaited) then (b1, false)
    else
      var r := persisted.value;
      var matches :=
        if command.payload.Revise? then
          response.productId == command.productId && MatchesRevision(response, Own(b), command.briefId, r, command.payload)
        else
          response.productId == command.productId
          && MatchesIdentity(response, Own(b), command.briefId, Some(r.workflowId), OperationOf(r))
          && workflowId == response.workflowId;
      if !matches then (b1, false)
      else
        var (b2, deadline) := Settling(env, b1, command, Some(response), Awaited, command.payload.Revise?, now);
        if deadline.None? then (b2, false)
        else
          var (s, published) := PublishingBrief(b2.controller, read, response.(retentionDeadline := deadline.value), true);
          (b2.(controller := s), published)
  }

  // A definitive refusal of a command; conflict tells a version conflict.
  function Refusing(env: BriefEnvironment, b: Bench, command: BriefCommand, conflict: bool, now: int): Bench {
    if !(conflict && command.payload.Revise?) then Settling(env, b, command, None, Awaited, false, now).0
    else
      var (b1, persisted) := ReadingOwn(env, b, now);
      if !ExactlyDurable(env, b1.controller.snapshot, persisted, command, Awaited) then b1
      else
        var r := persisted.value;
        var (b2, written) := WritingOwn(env, b1, r.(content := r.content.(status := VersionConflict)), now);
        if !written then b2 else b2.(controller := MarkingConflict(env, b2.controller, command).0)
  }

  // An answer that never came, or decides nothing.
  function Doubting(env: BriefEnvironment, b: Bench, command: BriefCommand): Bench {
    b.(controller := RecoveringCommand(env, b.controller, command, Awaited).0)
  }

  // resolveRevisionConflict.
  function ResolvingConflict(env: BriefEnvironment, b: Bench, now: int): (Bench, bool) {
    var n := b.controller.snapshot;
    if n.commandStatus != Some(VersionConflict) || n.pendingCommand.None? || !n.pendingCommand.value.payload.Revise? then (b, false)
    else
      var (b1, deadline) := Settling(env, b, n.pendingCommand.value, n.brief, VersionConflict, false, now);
      (b1, deadline.Some?)
  }

  // What the page does once its identity is active: memory is rebuilt from the
  // record, and a pending command is sent again under its own key.
  function Rebuilding(env: BriefEnvironment, b: Bench, now: int): Bench {
    var (b1, persisted) := ReadingOwn(env, b, now);
    if persisted.None? then b1
    else
      match persisted.value.content
      case Published(_, _) => b1
      case Analysing(a) => b1.(controller := RecoveringAnalysis(b1.controller, a))
      case Commanding(_, _, command, status) =>
        var b2 := b1.(controller := RecoveringCommand(env, b1.controller, command, status).0);
        if status == Awaited then Sending(env, b2, command, now).0 else b2
  }

  // The page opens, or opens again, for an identity.
  function Mounting(env: BriefEnvironment, b: Bench, identity: BriefIdentity, now: int): Bench {
    var (items, active) := Activating(env, b.items, identity);
    var mounted := b.(items := Sweeping(env, items, now), controller := Restarting(b.controller, identity));
    if active then Rebuilding(env, mounted, now) else mounted
  }

  // retryPending.
  function Retrying(env: BriefEnvironment, b: Bench, now: int): Bench {
    var n := b.controller.snapshot;
    if n.pendingAnalysis.Some? || n.pendingCommand.None? then b else Sending(env, b, n.pendingCommand.value, now).0
  }

  // ------------------------------------------------------------ the workbench

  class Workbench {
    const store: BriefStore
    const controller: Controller
    var sent: seq<BriefCommand>  // every revise and confirm request, in order

    ghost predicate Wired()
      reads this, store.storage
    {
      store.storage.Valid() && controller.env == store.env
    }

    function Now(): Bench
      reads this, store.storage, controller
    {
      Bench(store.storage.items, controller.Now(), sent)
    }

    constructor (store: BriefStore, controller: Controller)
      requires store.storage.Valid() && controller.env == store.env
      ensures Wired() && this.store == store && this.controller == controller
      ensures Now() == Bench(store.storage.items, controller.Now(), [])
    {
      this.store, this.controller, sent := store, controller, [];
    }

    method ReadPersisted(now: int) returns (r: Option<Record>)
      requires Wired()
      modifies store.storage
      ensures Wired() && (Now(), r) == ReadingOwn(store.env, old(Now()), now)
    {
      hide Reading;
      r := store.Read(controller.snapshot.identity, now);
    }

    method InvalidateRetainedWorkbench()
      requires Wired()
      modifies store.storage, controller
      ensures Wired() && Now() == Invalidating(old(Now()))
    {
      hide ClearingRecord;
      store.ClearRecord(controller.snapshot.identity);
      controller.ExpireRetention();
    }

    method WritePersisted(value: Record, now: int) returns (written: bool)
      requires Wired()
      modifies store.storage, controller
      ensures Wired() && (Now(), written) == WritingOwn(store.env, old(Now()), value, now)
    {
      hide Reading, Sweeping, Writing, ClearingRecord, IsActiveDeadline, ExpiringRetention;
      var _ := ReadPersisted(now);
      if !IsActiveDeadline(store.env, value.retentionDeadline, now) {
        InvalidateRetainedWorkbench();
        return false;
      }
      var _ := store.Sweep(now);
      written := store.Write(value, now);
      if !written { controller.ExpireRetention(); }
    }

    method BeginLoad(now: int) returns (persistedAtStart: Option<Record>, read: Stamp)
      requires Wired()
      modifies store.storage, controller
      ensures Wired() && (Now(), (persistedAtStart, read)) == BeginningLoad(store.env, old(Now()), now)
    {
      hide ReadingOwn;
      persistedAtStart := ReadPersisted(now);
      read := controller.BeginBriefRead();
    }

    method LoadCurrent(load: Load, response: Brief, now: int) returns (loaded: bool)
      requires Wired()
      modifies store.storage, controller
      ensures Wired() && (Now(), loaded) == Loading(store.env, old(Now()), load, response, now)
    {
      hide ReadingOwn, WritingOwn, PublishingBrief, LoadMatches, LoadDeadline, LoadedRecord;
      var identity := controller.snapshot.identity;
      if !LoadMatches(identity, load, response) { return false; }
      var persisted := ReadPersisted(now);
      var deadline := LoadDeadline(store.env, load, persisted, response, now);
      if deadline.None? { return false; }
      var current := response.(retentionDeadline := deadline.value);
      var published := controller.PublishBrief(load.read, current, load.resetForm);
      if !published { return false; }
      loaded := WritePersisted(LoadedRecord(identity, persisted, current, deadline.value), now);
    }

    method SettlePendingCommand(command: BriefCommand, current: Option<Brief>, status: Status, transition: bool, now: int)
      returns (deadline: Option<Text>)
      requires Wired() && (transition ==> command.payload.Revise?)
      modifies store.storage, controller
      ensures Wired() && (Now(), deadline) == Settling(store.env, old(Now()), command, current, status, transition, now)
    {
      hide ReadingOwn, Releasing, ExactlyDurable, MatchesIdentity, MatchesRevision, EarliestActive;
      var snapshot := controller.snapshot;
      var persisted := ReadPersisted(now);
      if !ExactlyDurable(store.env, snapshot, persisted, command, status) { return None; }
      DurableHoldsCommand(store.env, snapshot, persisted, command, status);
      var r := persisted.value;
      if current.Some? {
        var matches :=
          if transition then MatchesRevision(current.value, snapshot.identity, command.briefId, r, command.payload)
          else MatchesIdentity(current.value, snapshot.identity, command.briefId, Some(r.workflowId), OperationOf(r));
        if !matches { return None; }
      }
      var earliest := FindEarliestActive(store.env,
        [Some(r.retentionDeadline)] + (if current.Some? then [Some(current.value.retentionDeadline)] else []), now);
      if earliest.None? { return None; }
      var next := Record(r.workspaceId, r.productId, if current.Some? then current.value.workflowId else r.workflowId,
                         r.assetVersionIds, earliest.value,
                         Published(if current.Some? then current.value.id else r.content.briefId,
                                   if current.Some? then current.value.operationId else r.content.operationId));
      deadline := Release(next, command, now);
    }

    method Release(next: Record, command: BriefCommand, now: int) returns (deadline: Option<Text>)
      requires Wired()
      modifies store.storage, controller
      ensures Wired() && (Now(), deadline) == Releasing(store.env, old(Now()), next, command, now)
    {
      hide WritingOwn, SettlingCommand;
      var written := WritePersisted(next, now);
      if !written { return None; }
      var settled := controller.SettleCommand(command);
      return if settled then Some(next.retentionDeadline) else None;
    }

    // recoverRevision and recoverConfirmation, up to the request.
    method Send(command: BriefCommand, now: int) returns (dispatched: bool)
      requires Wired()
      modifies this, store.storage, controller
      ensures Wired() && (Now(), dispatched) == Sending(store.env, old(Now()), command, now)
    {
      hide ReadingOwn, ExactlyDurable;
      var persisted := ReadPersisted(now);
      if !ExactlyDurable(store.env, controller.snapshot, persisted, command, Awaited) { return false; }
      var _ := controller.BeginBriefRead();
      sent := sent + [command];
      return true;
    }

    method Submit(current: Brief, command: BriefCommand, deadlines: seq<Option<Text>>, now: int) returns (dispatched: bool)
      requires Wired()
      modifies this, store.storage, controller
      ensures Wired() && (Now(), dispatched) == Submitting(store.env, old(Now()), current, command, deadlines, now)
    {
      hide ReadingOwn, WritingOwn, RecoveringCommand, Sending, EarliestActive, StoredDeadline;
      ghost var before := Now();
      var identity := controller.snapshot.identity;
      var persisted := ReadPersisted(now);
      var deadline := FindEarliestActive(store.env, deadlines + StoredDeadline(persisted, current.id, current.workflowId), now);
      if deadline.None? { return false; }
      var written := WritePersisted(
        Record(identity.workspaceId, identity.productId, current.workflowId, AssetsOf(persisted), deadline.value,
               Commanding(current.id, current.operationId, command, Awaited)), now);
      if !written { return false; }
      var _ := controller.RecoverCommand(command, Awaited);
      dispatched := Send(command, now);
    }

    method Revise(payload: BriefPayload, key: Text, now: int) returns (dispatched: bool)
      requires Wired()
      modifies this, store.storage, controller
      ensures Wired() && (Now(), dispatched) == Revising(store.env, old(Now()), payload, key, now)
    {
      hide Submitting;
      var snapshot := controller.snapshot;
      if snapshot.brief.None? || snapshot.pendingAnalysis.Some? || snapshot.pendingCommand.Some? { return false; }
      var current := snapshot.brief.value;
      var command := BriefCommand(snapshot.identity.productId, current.id, key, payload);
      dispatched := Submit(current, command, [Some(current.retentionDeadline)], now);
    }

    // The part of confirm after the workflow has arrived.
    method Confirm(current: Brief, payload: BriefPayload, workflowDeadline: Option<Text>, key: Text, now: int)
      returns (dispatched: bool)
      requires Wired()
      modifies this, store.storage, controller
      ensures Wired() && (Now(), dispatched) == Confirming(store.env, old(Now()), current, payload, workflowDeadline, key, now)
    {
      hide Submitting;
      var command := BriefCommand(controller.snapshot.identity.productId, current.id, key, payload);
      dispatched := Submit(current, command, [workflowDeadline, Some(current.retentionDeadline)], now);
    }

    // The part of analyze after the workflow has arrived.
    method Analyze(current: Option<Brief>, pending: Analysis, workflowDeadline: Option<Text>, now: int) returns (started: bool)
      requires Wired()
      modifies store.storage, controller
      ensures Wired() && (Now(), started) == StartingAnalysis(store.env, old(Now()), current, pending, workflowDeadline, now)
    {
      hide ReadingOwn, WritingOwn, EarliestActive, EstablishedDeadline;
      var identity := controller.snapshot.identity;
      var persisted := ReadPersisted(now);
      var deadline := FindEarliestActive(store.env,
        [workflowDeadline] + (if current.Some? then [Some(current.value.retentionDeadline)] else [])
        + EstablishedDeadline(persisted, current), now);
      if deadline.None? { return false; }
      started := WritePersisted(
        Record(identity.workspaceId, identity.productId, pending.workflowId, pending.assetVersionIds, deadline.value,
               Analysing(pending)), now);
      if started { controller.RecoverAnalysis(pending); }
    }

    // recoverAnalysis, up to the request.
    method RequestAnalysis(pending: Analysis, now: int) returns (start: Option<Record>)
      requires Wired()
      modifies store.storage, controller
      ensures Wired() && (Now(), start) == RequestingAnalysis(store.env, old(Now()), pending, now)
    {
      hide ReadingOwn;
      start := ReadPersisted(now);
      if !AnalysisOnRecord(start, pending) {
        controller.RecoverAnalysis(pending);
        return None;
      }
    }

    // The part of recoverAnalysis after the analysis has been accepted, up to
    // the request for its brief.
    method AnalysisAccepted(start: Record, pending: Analysis, accepted: Accepted, now: int) returns (load: Option<Load>)
      requires Wired() && start.content == Analysing(pending)
      modifies store.storage, controller
      ensures Wired() && (Now(), load) == AcceptingAnalysis(store.env, old(Now()), start, pending, accepted, now)
    {
      hide BeginningLoad, DeadlineAtOrBefore, AcceptedMatches;
      if !AcceptedMatches(accepted, pending, controller.snapshot.identity.workspaceId) {
        controller.RecoverAnalysis(pending);
        return None;
      }
      var ceiling := DeadlineAtOrBefore(store.env, accepted.brief.retentionDeadline, start.retentionDeadline, now);
      if ceiling.None? {
        controller.RecoverAnalysis(pending);
        return None;
      }
      var persisted, read := BeginLoad(now);
      load := Some(Load(accepted.brief.id, read, persisted, ceiling, Some(accepted), true));
    }

    // The part of recoverAnalysis after its brief has been loaded.
    method AnalysisLoaded()
      requires Wired()
      modifies controller
      ensures Wired() && Now() == EndingAnalysis(old(Now()))
    {
      controller.SettleAnalysis();
    }

    method AnalysisLost(pending: Analysis)
      requires Wired()
      modifies controller
      ensures Wired() && Now() == DoubtingAnalysis(old(Now()), pending)
    {
      controller.RecoverAnalysis(pending);
    }

    method AnalysisRefused(pending: Analysis, now: int)
      requires Wired()
      modifies store.storage, controller
      ensures Wired() && Now() == RefusingAnalysis(store.env, old(Now()), pending, now)
    {
      hide ReadingOwn, WritingOwn, ClearingRecord;
      var persisted := ReadPersisted(now);
      if AnalysisOnRecord(persisted, pending) && pending.prior.Some? {
        var r := persisted.value;
        var written := WritePersisted(
          r.(content := Published(pending.prior.value.briefId, pending.prior.value.operationId)), now);
        if !written { return; }
      } else {
        store.ClearRecord(controller.snapshot.identity);
      }
      controller.SettleAnalysis();
    }

    method AnswerArrived(command: BriefCommand, read: Stamp, response: Brief, workflowId: Text, now: int) returns (published: bool)
      requires Wired()
      modifies store.storage, controller
      ensures Wired() && (Now(), published) == Answering(store.env, old(Now()), command, read, response, workflowId, now)
    {
      hide ReadingOwn, Settling, ExactlyDurable, MatchesIdentity, PublishingBrief;
      var identity := controller.snapshot.identity;
      var persisted := ReadPersisted(now);
      if !ExactlyDurable(store.env, controller.snapshot, persisted, command, Awaited) { return false; }
      DurableHoldsCommand(store.env, controller.snapshot, persisted, command, Awaited);
      var r := persisted.value;
      if response.productId != command.productId { return false; }
      if command.payload.Revise? {
        if !MatchesRevision(response, identity, command.briefId, r, command.payload) { return false; }
      } else if !MatchesIdentity(response, identity, command.briefId, Some(r.workflowId), OperationOf(r))
        || workflowId != response.workflowId
      {
        return false;
      }
      var deadline := SettlePendingCommand(command, Some(response), Awaited, command.payload.Revise?, now);
      if deadline.None? { return false; }
      published := controller.PublishBrief(read, response.(retentionDeadline := deadline.value), true);
    }

    method RefusalArrived(command: BriefCommand, conflict: bool, now: int)
      requires Wired()
      modifies store.storage, controller
      ensures Wired() && Now() == Refusing(store.env, old(Now()), command, conflict, now)
    {
      hide ReadingOwn, WritingOwn, Settling, ExactlyDurable, MarkingConflict;
      if !conflict || !command.payload.Revise? {
        var _ := SettlePendingCommand(command, None, Awaited, false, now);
        return;
      }
      var persisted := ReadPersisted(now);
      if !ExactlyDurable(store.env, controller.snapshot, persisted, command, Awaited) { return; }
      DurableHoldsCommand(store.env, controller.snapshot, persisted, command, Awaited);
      var r := persisted.value;
      var written := WritePersisted(r.(content := r.content.(status := VersionConflict)), now);
      if written {
        var _ := controller.MarkVersionConflict(command);
      }
    }

    method ResolveRevisionConflict(now: int) returns (resolved: bool)
      requires Wired()
      modifies store.storage, controller
      ensures Wired() && (Now(), resolved) == ResolvingConflict(store.env, old(Now()), now)
    {
      hide Settling;
      var snapshot := controller.snapshot;
      if snapshot.commandStatus != Some(VersionConflict) || snapshot.pendingCommand.None?
        || !snapshot.pendingCommand.value.payload.Revise?
      {
        return false;
      }
      var deadline := SettlePendingCommand(snapshot.pendingCommand.value, snapshot.brief, VersionConflict, false, now);
      return deadline.Some?;
    }

    method ResultUnknown(command: BriefCommand)
      requires Wired()
      modifies controller
      ensures Wired() && Now() == Doubting(store.env, old(Now()), command)
    {
      hide RecoveringCommand;
      var _ := controller.RecoverCommand(command, Awaited);
    }

    method RetryPending(now: int)
      requires Wired()
      modifies this, store.storage, controller
      ensures Wired() && Now() == Retrying(store.env, old(Now()), now)
    {
      hide Sending;
      var snapshot := controller.snapshot;
      if snapshot.pendingAnalysis.Some? || snapshot.pendingCommand.None? { return; }
      var _ := Send(snapshot.pendingCommand.value, now);
    }

    method Rebuild(now: int)
      requires Wired()
      modifies this, store.storage, controller
      ensures Wired() && Now() == Rebuilding(store.env, old(Now()), now)
    {
      hide ReadingOwn, RecoveringCommand, Sending;
      var persisted := ReadPersisted(now);
      if persisted.None? { return; }
      match persisted.value.content {
        case Published(_, _) =>
        case Analysing(a) => controller.RecoverAnalysis(a);
        case Commanding(_, _, command, status) =>
          var _ := controller.RecoverCommand(command, status);
          if status == Awaited {
            var _ := Send(command, now);
          }
      }
    }

    method Mount(identity: BriefIdentity, now: int)
      requires Wired()
      modifies this, store.storage, controller
      ensures Wired() && Now() == Mounting(store.env, old(Now()), identity, now)
    {
      hide Activating, Sweeping, Restarting, Rebuilding;
      ghost var before := Now();
      var active := store.Activate(identity);
      var _ := store.Sweep(now);
      controller.RestartIdentity(identity);
      if active { Rebuild(now); }
    }
  }
}
