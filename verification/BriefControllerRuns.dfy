// What every run of the Product Brief controller keeps: the budget of
// automatic polls, the agreement of operation ids, and the retirement of
// tokens.
module BriefControllerRuns {
  import opened Texts
  import opened Json
  import opened KeyCodec
  import opened BriefRecord
  import opened BriefController

  datatype Event =
    | Restart(identity: BriefIdentity)
    | ChangeIdentity(identity: BriefIdentity)
    | Expire
    | BeginBrief
    | PublishBrief(briefToken: Stamp, brief: Brief, resetForm: bool)
    | BeginHistory(more: bool, briefId: Text)
    | PublishHistory(historyToken: HistoryToken, page: HistoryPage)
    | FailHistory(historyToken: HistoryToken, clearUnavailable: bool)
    | StartPoll
    | CompletePoll(token: OperationToken, operation: Operation, random: real)
    | FailPoll(token: OperationToken, random: real)
    | BeginAuxiliary(operationId: Text)
    | CompleteAuxiliary(token: OperationToken, operation: Operation, random: real)
    | FailAuxiliary(token: OperationToken, random: real)
    | Resume
    | RecoverAnalysis(analysis: Analysis)
    | SettleAnalysis
    | RecoverCommand(command: BriefCommand, status: Status)
    | MarkConflict(command: BriefCommand)
    | SettleCommand(command: BriefCommand)

  function CurrentOperation(s: State): Text {
    if s.snapshot.brief.Some? then s.snapshot.brief.value.operationId else []
  }

  function Apply(env: BriefEnvironment, s: State, e: Event): State {
    match e
    case Restart(identity) => Restarting(s, identity)
    case ChangeIdentity(identity) => ChangingIdentity(s, identity).0
    case Expire => ExpiringRetention(s)
    case BeginBrief => BeginningBriefRead(s).0
    case PublishBrief(token, brief, resetForm) => PublishingBrief(s, token, brief, resetForm).0
    case BeginHistory(more, briefId) => BeginningHistoryRead(s, more, briefId).0
    case PublishHistory(token, page) => PublishingHistory(s, token, page).0
    case FailHistory(token, clear) => FailingHistory(s, token, clear).0
    case StartPoll => BeginningOperationRead(s, CurrentOperation(s)).0
    case CompletePoll(token, operation, random) => CompletingPoll(s, token, operation, random).0
    case FailPoll(token, random) => FailingPoll(s, token, random).0
    case BeginAuxiliary(operationId) => BeginningOperationRead(s, operationId).0
    case CompleteAuxiliary(token, operation, random) => CompletingAuxiliary(s, token, operation, random).0
    case FailAuxiliary(token, random) => FailingAuxiliary(s, token, random).0
    case Resume => ResumingPolling(s).0
    case RecoverAnalysis(a) => RecoveringAnalysis(s, a)
    case SettleAnalysis => SettlingAnalysis(s)
    case RecoverCommand(c, status) => RecoveringCommand(env, s, c, status).0
    case MarkConflict(c) => MarkingConflict(env, s, c).0
    case SettleCommand(c) => SettlingCommand(env, s, c).0
  }

  // -------------------------------------------------------------- poll budget

  // The controller with what an observer has seen since the operation, the
  // identity or a resumption last changed: polls in flight, whether a terminal
  // state was reported, and how many polls were counted.
  datatype Watch = Watch(state: State, flights: set<OperationToken>, terminal: bool, polls: nat)

  // The page starts a poll only while a delay is set and polling is not
  // paused, and finishes each started poll once.
  predicate Allowed(w: Watch, e: Event) {
    match e
    case StartPoll => w.state.snapshot.brief.Some? && w.state.snapshot.polling.nextDelayMs.Some? && !w.state.snapshot.polling.paused
    case CompletePoll(token, _, _) => w.terminal || token in w.flights
    case FailPoll(token, _) => w.terminal || token in w.flights
    case _ => true
  }

  predicate StartsAfresh(s: State, e: Event) {
    match e
    case Restart(_) => true
    case Expire => true
    case ChangeIdentity(identity) => identity != s.snapshot.identity
    case PublishBrief(token, brief, _) => AcceptsBrief(s, token, brief) && ChangesOperation(s, brief)
    case Resume => ResumingPolling(s).1
    case _ => false
  }

  predicate ReportsTerminal(s: State, e: Event) {
    (e.CompletePoll? || e.CompleteAuxiliary?) && AcceptsOperation(s, e.token, e.operation) && IsTerminal(e.operation.state)
  }

  predicate CountsPoll(s: State, e: Event) {
    || (e.CompletePoll? && AcceptsOperation(s, e.token, e.operation))
    || (e.FailPoll? && LiveOperation(s, e.token))
  }

  function Step(env: BriefEnvironment, w: Watch, e: Event): Watch {
    if !Allowed(w, e) then w
    else
      var s := Apply(env, w.state, e);
      var flights :=
        if e.StartPoll? then w.flights + {BeginningOperationRead(w.state, CurrentOperation(w.state)).1}
        else if e.CompletePoll? || e.FailPoll? then w.flights - {e.token}
        else w.flights;
      if StartsAfresh(w.state, e) then Watch(s, flights, false, 0)
      else Watch(s, flights, w.terminal || ReportsTerminal(w.state, e), w.polls + if CountsPoll(w.state, e) then 1 else 0)
  }

  function Run(env: BriefEnvironment, w: Watch, events: seq<Event>): Watch
    decreases |events|
  {
    if events == [] then w else Run(env, Step(env, w, events[0]), events[1..])
  }

  function Start(identity: BriefIdentity): Watch {
    Watch(State(InitialSnapshot(identity, 1), 0, 0, 0), {}, false, 0)
  }

  // Polling and the published operation are about the brief's operation.
  ghost predicate IdsAgree(s: State) {
    var n := s.snapshot;
    && n.polling.operationId == (if n.brief.Some? then Some(n.brief.value.operationId) else None)
    && (n.operation.Some? ==> n.brief.Some? && n.operation.value.id == n.brief.value.operationId)
  }

  // Until a terminal state is reported: the budget counts the polls, at most
  // 24; the 24th pauses polling; and polling stops only by pausing.
  ghost predicate WithinBudget(w: Watch) {
    var p := w.state.snapshot.polling;
    !w.terminal ==>
      && w.polls == p.completedRequests <= MAXIMUM_AUTOMATIC_POLL_REQUESTS
      && (if w.state.snapshot.brief.Some? then
            && (p.paused <==> w.polls == MAXIMUM_AUTOMATIC_POLL_REQUESTS)
            && (p.paused <==> p.nextDelayMs.None?)
          else w.polls == 0 && p.nextDelayMs.None? && !p.paused)
  }

  // A poll that could still be counted was started within the budget.
  ghost predicate FlightsWithinBudget(w: Watch) {
    !w.terminal ==>
      forall t :: t in w.flights && LiveOperation(w.state, t) ==>
        w.state.snapshot.polling.completedRequests < MAXIMUM_AUTOMATIC_POLL_REQUESTS
  }

  // Tokens are issued with generations that exist.
  ghost predicate FlightsIssued(w: Watch) {
    forall t :: t in w.flights ==>
      t.stamp.identityGeneration <= w.state.snapshot.identityGeneration && t.stamp.readGeneration <= w.state.operationReads
  }

  ghost predicate Kept(w: Watch) {
    IdsAgree(w.state) && WithinBudget(w) && FlightsWithinBudget(w) && FlightsIssued(w)
  }

  lemma StepKeepsIds(env: BriefEnvironment, w: Watch, e: Event)
    requires IdsAgree(w.state)
    ensures IdsAgree(Step(env, w, e).state)
  {
    hide PollDelay, Unseen, VersionIds, Canonical, CommandsMatch, IsTerminal;
  }

  lemma StepKeepsBudget(env: BriefEnvironment, w: Watch, e: Event)
    requires Kept(w)
    ensures WithinBudget(Step(env, w, e))
  {
    hide PollDelay, Unseen, VersionIds, Canonical, CommandsMatch, IsTerminal, FlightsIssued;
  }

  lemma StepKeepsIssued(env: BriefEnvironment, w: Watch, e: Event)
    requires Kept(w)
    ensures FlightsIssued(Step(env, w, e))
  {
    hide PollDelay, Unseen, VersionIds, Canonical, CommandsMatch, IsTerminal, FlightsWithinBudget, WithinBudget, IdsAgree;
  }

  // Two live tokens for one operation are the same token.
  lemma LiveTokensEqual(s: State, a: OperationToken, b: OperationToken)
    requires LiveOperation(s, a) && LiveOperation(s, b)
    ensures a == b
  {
  }

  lemma PollKeepsFlights(env: BriefEnvironment, w: Watch, e: Event)
    requires Kept(w) && (e.CompletePoll? || e.FailPoll?)
    ensures FlightsWithinBudget(Step(env, w, e))
  {
    hide PollDelay, IsTerminal, FlightsIssued, IdsAgree;
    var t := Step(env, w, e);
    forall token | token in t.flights && LiveOperation(t.state, token) && !t.terminal
      ensures t.state.snapshot.polling.completedRequests < MAXIMUM_AUTOMATIC_POLL_REQUESTS
    {
      assert LiveOperation(w.state, token);
      if CountsPoll(w.state, e) && Allowed(w, e) { LiveTokensEqual(w.state, token, e.token); }
    }
  }

  lemma StepKeepsFlights(env: BriefEnvironment, w: Watch, e: Event)
    requires Kept(w)
    ensures FlightsWithinBudget(Step(env, w, e))
  {
    if e.CompletePoll? || e.FailPoll? {
      PollKeepsFlights(env, w, e);
    } else {
      hide PollDelay, Unseen, VersionIds, Canonical, CommandsMatch, IsTerminal, CompletingPoll, FailingPoll;
    }
  }

  lemma {:induction false} RunKeeps(env: BriefEnvironment, w: Watch, events: seq<Event>)
    requires Kept(w)
    ensures Kept(Run(env, w, events))
    decreases |events|
  {
    if events != [] {
      StepKeepsIds(env, w, events[0]);
      StepKeepsBudget(env, w, events[0]);
      StepKeepsIssued(env, w, events[0]);
      StepKeepsFlights(env, w, events[0]);
      hide Step, IdsAgree, WithinBudget, FlightsWithinBudget, FlightsIssued;
      RunKeeps(env, Step(env, w, events[0]), events[1..]);
    }
  }

  // ------------------------------------------------------------ main results

  // In every run, with any interleaving of polls and other reads: until a
  // terminal state is reported at most 24 polls are counted for an operation,
  // the 24th pauses polling with no delay set, polling stops only by pausing,
  // and the polling and operation ids are those of the published brief.
  lemma PollingWithinBudget(env: BriefEnvironment, identity: BriefIdentity, events: seq<Event>)
    ensures var w := Run(env, Start(identity), events);
      var p := w.state.snapshot.polling;
      && IdsAgree(w.state)
      && (!w.terminal ==> w.polls == p.completedRequests <= 24)
      && (!w.terminal && w.polls == 24 ==> p.paused && p.nextDelayMs.None?)
      && (!w.terminal && w.state.snapshot.brief.Some? && p.nextDelayMs.None? ==> w.polls == 24)
      && (!w.terminal && w.polls == 24 ==> forall t :: t in w.flights ==> !LiveOperation(w.state, t))
  {
    RunKeeps(env, Start(identity), events);
  }

  // An auxiliary read never refunds the budget, and starts polling again after
  // it stopped only once a terminal state has been reported.
  lemma AuxiliaryKeepsBudget(env: BriefEnvironment, w: Watch, e: Event)
    requires Kept(w) && (e.CompleteAuxiliary? || e.FailAuxiliary?)
    ensures var p, q := w.state.snapshot.polling, Step(env, w, e).state.snapshot.polling;
      && q.completedRequests == p.completedRequests
      && (p.nextDelayMs.None? && q.nextDelayMs.Some? ==> w.terminal)
      && (p.paused ==> q.nextDelayMs.None? || q.nextDelayMs == p.nextDelayMs)
      && Step(env, w, e).polls == w.polls
  {
    hide PollDelay, IsTerminal;
  }

  // That exception exists: after a terminal status a failed auxiliary read sets
  // a delay again, whatever the budget.
  lemma TerminalCanRearm(s: State, token: OperationToken, random: real)
    requires LiveOperation(s, token) && s.snapshot.operation.Some? && IsTerminal(s.snapshot.operation.value.state)
    ensures FailingAuxiliary(s, token, random).1
    ensures FailingAuxiliary(s, token, random).0.snapshot.polling.nextDelayMs.Some?
       <==> !s.snapshot.polling.paused || s.snapshot.polling.nextDelayMs.Some?
  {
    hide PollDelay, IsTerminal;
  }

  // A run that reaches it: the operation of a published brief is reported
  // finished, polling ends, and the next auxiliary read fails.
  lemma TerminalIsRearmed(env: BriefEnvironment, identity: BriefIdentity, brief: Brief, random: real)
    requires brief.productId == identity.productId
    ensures var token := (n: nat) => OperationToken(Stamp(1, n), brief.operationId);
      var events := [
        BeginBrief, PublishBrief(Stamp(1, 1), brief, true), BeginAuxiliary(brief.operationId),
        CompleteAuxiliary(token(1), Operation(brief.operationId, 1, Succeeded), random), BeginAuxiliary(brief.operationId)];
      var w := Run(env, Start(identity), events);
      var p, q := w.state.snapshot.polling, Step(env, w, FailAuxiliary(token(2), random)).state.snapshot.polling;
      && w.terminal && LiveOperation(w.state, token(2)) && w.state.snapshot.operation == Some(Operation(brief.operationId, 1, Succeeded))
      && !p.paused && p.nextDelayMs.None? && q.nextDelayMs.Some?
  {
    hide Step;
    var a, b, c := BeginBrief, PublishBrief(Stamp(1, 1), brief, true), BeginAuxiliary(brief.operationId);
    var d := CompleteAuxiliary(OperationToken(Stamp(1, 1), brief.operationId), Operation(brief.operationId, 1, Succeeded), random);
    RunFive(env, Start(identity), a, b, c, d, c);
    BriefIsShown(env, identity, brief);
    FinishedIsRearmed(env, Step(env, Step(env, Start(identity), a), b), brief, random);
  }

  lemma BriefIsShown(env: BriefEnvironment, identity: BriefIdentity, brief: Brief)
    requires brief.productId == identity.productId
    ensures var s := Step(env, Step(env, Start(identity), BeginBrief), PublishBrief(Stamp(1, 1), brief, true)).state;
      && s.snapshot.brief == Some(brief) && s.snapshot.operation.None? && s.snapshot.identityGeneration == 1 && s.operationReads == 0
      && !s.snapshot.polling.paused
  {
  }

  lemma FinishedIsRearmed(env: BriefEnvironment, w: Watch, brief: Brief, random: real)
    requires w.state.snapshot.brief == Some(brief) && w.state.snapshot.operation.None? && w.state.snapshot.identityGeneration == 1
    requires w.state.operationReads == 0 && !w.state.snapshot.polling.paused
    ensures var token := (n: nat) => OperationToken(Stamp(1, n), brief.operationId);
      var c := BeginAuxiliary(brief.operationId);
      var d := CompleteAuxiliary(token(1), Operation(brief.operationId, 1, Succeeded), random);
      var x := Step(env, Step(env, Step(env, w, c), d), c);
      var p, q := x.state.snapshot.polling, Step(env, x, FailAuxiliary(token(2), random)).state.snapshot.polling;
      && x.terminal && LiveOperation(x.state, token(2)) && x.state.snapshot.operation == Some(Operation(brief.operationId, 1, Succeeded))
      && !p.paused && p.nextDelayMs.None? && q.nextDelayMs.Some?
  {
    hide PollDelay;
  }

  lemma RunFive(env: BriefEnvironment, w: Watch, a: Event, b: Event, c: Event, d: Event, e: Event)
    ensures Run(env, w, [a, b, c, d, e]) == Step(env, Step(env, Step(env, Step(env, Step(env, w, a), b), c), d), e)
  {
    hide Step;
    RunCons(env, w, a, [b, c, d, e]);
    RunCons(env, Step(env, w, a), b, [c, d, e]);
    RunCons(env, Step(env, Step(env, w, a), b), c, [d, e]);
    RunCons(env, Step(env, Step(env, Step(env, w, a), b), c), d, [e]);
    RunCons(env, Step(env, Step(env, Step(env, Step(env, w, a), b), c), d), e, []);
    assert [a] + [b, c, d, e] == [a, b, c, d, e] && [b] + [c, d, e] == [b, c, d, e];
    assert [c] + [d, e] == [c, d, e] && [d] + [e] == [d, e] && [e] + [] == [e];
  }

  lemma RunCons(env: BriefEnvironment, w: Watch, e: Event, events: seq<Event>)
    ensures Run(env, w, [e] + events) == Run(env, Step(env, w, e), events)
  {
    assert ([e] + events)[1..] == events;
  }

  // The delay before the next poll doubles from one second up to ten, and the
  // jitter takes away at most half of it.
  lemma DelayWithin(completed: nat, random: real)
    requires completed >= 1 && 0.0 <= random <= 1.0
    ensures MaximumDelay(completed) <= 2 * PollDelay(completed, random) && PollDelay(completed, random) <= MaximumDelay(completed)
    ensures MaximumDelay(completed) == if completed <= 4 then 1_000 * Power(completed - 1) else 10_000
  {
    PowerGrows(completed - 1);
    assert Power(0) == 1 && Power(1) == 2 && Power(2) == 4 && Power(3) == 8;
    JitterWithin(MaximumDelay(completed), random);
  }

  lemma JitterWithin(d: nat, random: real)
    requires 0.0 <= random <= 1.0
    ensures d <= 2 * Round(d as real * (0.5 + random * 0.5)) && Round(d as real * (0.5 + random * 0.5)) <= d
  {
    var x := d as real;
    var y := x * (0.5 + random * 0.5);
    assert y == x * 0.5 + x * random * 0.5;
    assert 0.0 <= x * random <= x by { ProductWithin(x, random); }
    RoundWithin(y, d);
  }

  lemma RoundWithin(y: real, d: nat)
    requires d as real * 0.5 <= y <= d as real
    ensures d <= 2 * Round(y) && Round(y) <= d
  {
    var r := (y + 0.5).Floor;
    assert r as real <= y + 0.5 < r as real + 1.0;
    assert (r as real) < (d + 1) as real;
    assert d as real < (2 * r + 1) as real;
  }

  lemma ProductWithin(x: real, random: real)
    requires 0.0 <= x && 0.0 <= random <= 1.0
    ensures 0.0 <= x * random <= x
  {
    assert x * (1.0 - random) >= 0.0;
  }

  lemma {:induction false} PowerGrows(n: nat)
    ensures Power(n) >= 1 && (n >= 4 ==> Power(n) >= 16)
  {
    if n > 0 { PowerGrows(n - 1); }
    assert Power(4) == 2 * Power(3) && Power(3) == 2 * Power(2) && Power(2) == 2 * Power(1) && Power(1) == 2 * Power(0);
  }

  // ------------------------------------------------------------------ tokens

  datatype Kind = BriefReads | HistoryReads | OperationReads

  function Generation(s: State, kind: Kind): nat {
    match kind
    case BriefReads => s.briefReads
    case HistoryReads => s.historyReads
    case OperationReads => s.operationReads
  }

  ghost predicate IssuedBy(s: State, kind: Kind, stamp: Stamp) {
    stamp.identityGeneration <= s.snapshot.identityGeneration && stamp.readGeneration <= Generation(s, kind)
  }

  ghost predicate Outdated(s: State, kind: Kind, stamp: Stamp) {
    stamp.identityGeneration < s.snapshot.identityGeneration || stamp.readGeneration < Generation(s, kind)
  }

  function Presents(e: Event): Option<(Kind, Stamp)> {
    match e
    case PublishBrief(token, _, _) => Some((BriefReads, token))
    case PublishHistory(token, _) => Some((HistoryReads, token.stamp))
    case FailHistory(token, _) => Some((HistoryReads, token.stamp))
    case CompletePoll(token, _, _) => Some((OperationReads, token.stamp))
    case FailPoll(token, _) => Some((OperationReads, token.stamp))
    case CompleteAuxiliary(token, _, _) => Some((OperationReads, token.stamp))
    case FailAuxiliary(token, _) => Some((OperationReads, token.stamp))
    case _ => None
  }

  // A change of identity, a restart or the expiry of the retention retires
  // every token; a newer read retires the tokens of its kind.
  predicate Outdates(s: State, e: Event, kind: Kind) {
    match e
    case Restart(_) => true
    case Expire => true
    case ChangeIdentity(identity) => identity != s.snapshot.identity
    case BeginBrief => kind == BriefReads
    case BeginHistory(_, _) => kind == HistoryReads
    case StartPoll => kind == OperationReads
    case BeginAuxiliary(_) => kind == OperationReads
    case _ => false
  }

  lemma GenerationsAdvance(env: BriefEnvironment, s: State, e: Event, kind: Kind)
    ensures var t := Apply(env, s, e);
      && s.snapshot.identityGeneration <= t.snapshot.identityGeneration
      && Generation(s, kind) <= Generation(t, kind)
      && (Outdates(s, e, kind) ==>
            s.snapshot.identityGeneration < t.snapshot.identityGeneration || Generation(s, kind) < Generation(t, kind))
  {
    hide PollDelay, Unseen, VersionIds, Canonical, CommandsMatch, IsTerminal;
  }

  function ApplyAll(env: BriefEnvironment, s: State, events: seq<Event>): State
    decreases |events|
  {
    if events == [] then s else ApplyAll(env, Apply(env, s, events[0]), events[1..])
  }

  lemma {:induction false} TokensAge(env: BriefEnvironment, s: State, events: seq<Event>, kind: Kind, stamp: Stamp)
    ensures IssuedBy(s, kind, stamp) ==> IssuedBy(ApplyAll(env, s, events), kind, stamp)
    ensures Outdated(s, kind, stamp) ==> Outdated(ApplyAll(env, s, events), kind, stamp)
    decreases |events|
  {
    hide Apply;
    if events != [] {
      GenerationsAdvance(env, s, events[0], kind);
      TokensAge(env, Apply(env, s, events[0]), events[1..], kind, stamp);
    }
  }

  lemma OutdatedIsRefused(env: BriefEnvironment, s: State, e: Event, kind: Kind, stamp: Stamp)
    requires Presents(e) == Some((kind, stamp)) && Outdated(s, kind, stamp)
    ensures Apply(env, s, e) == s
  {
    hide PollDelay, Unseen, VersionIds, Canonical, CommandsMatch, IsTerminal;
  }

  // A token that existed before an outdating event is refused at every later
  // time, even after the identity has changed back.
  lemma TokenNeverAcceptedAgain(
    env: BriefEnvironment, s: State, kind: Kind, stamp: Stamp, before: seq<Event>, outdating: Event, after: seq<Event>, e: Event)
    requires IssuedBy(s, kind, stamp)
    requires Outdates(ApplyAll(env, s, before), outdating, kind)
    requires Presents(e) == Some((kind, stamp))
    ensures var t := ApplyAll(env, Apply(env, ApplyAll(env, s, before), outdating), after); Apply(env, t, e) == t
  {
    TokensAge(env, s, before, kind, stamp);
    GenerationsAdvance(env, ApplyAll(env, s, before), outdating, kind);
    hide Apply, Outdates;
    TokensAge(env, Apply(env, ApplyAll(env, s, before), outdating), after, kind, stamp);
    OutdatedIsRefused(env, ApplyAll(env, Apply(env, ApplyAll(env, s, before), outdating), after), e, kind, stamp);
  }
}
