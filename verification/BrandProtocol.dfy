// The command protocol between the page, its ledger and an idempotent server,
// step by step: the page may crash or reload after any step, requests and
// answers may be lost or arrive late, and the server answers as it likes
// within its contract of one stored outcome per key.
module BrandProtocol {
  import opened Texts
  import opened Json
  import opened PendingCommand
  import opened PendingLedger
  import opened BrandController
  import opened BrandCoordinator
  import opened BrandWorkbench

  // A request on its way; reply is the server's answer once it has processed it.
  datatype Flight = Flight(request: Request, reply: Option<Reply>)

  // What the page is doing with the one record of its workspace and brand.
  datatype Stage =
    | Persisted                                // saved, nothing sent
    | Recovered                                // found in the ledger when the page loaded
    | Awaiting(flight: nat, replayed: bool)
    | Accepted(answer: Profile)
    | Confirmed(answer: Profile, head: Profile)
    | Rejected(failure: Failure)
    | Held(discardAllowed: bool)

  datatype Phase = Closed | Idle(own: Identity) | Owning(own: Identity, command: Json, stage: Stage)

  datatype Why = AfterConfirmation(answer: Profile, head: Profile) | AfterRefusal(failure: Failure) | AfterDiscard

  datatype System = System(
    item: Option<Text>,           // browser storage
    phase: Phase,                 // the page's memory
    flights: seq<Flight>,         // every request ever sent
    outcomes: map<Text, Reply>,   // the server's stored outcomes by key
    applied: seq<Request>,        // the writes the server has carried out
    persisted: map<Text, Json>,   // every record ever saved, by key
    removed: map<Text, Why>)      // why a record is no longer in the ledger

  datatype Step =
    | Crash
    | Open(own: Identity)
    | SetAside
    | Persist(command: Json)
    | Send
    | Process(flight: nat, outcome: Option<Reply>, answer: Reply)
    | Lose(failure: Failure)
    | Deliver(shown: bool)
    | Confirm(current: Reply, shown: bool)
    | Clear
    | Discard

  function KeyOf(command: Json): Text { TextOf(command, IDEMPOTENCY_KEY) }

  // -------------------------------------------------------------- the server

  // Answers that need not be a stored outcome: nothing was decided about the
  // key, or no answer came back.
  predicate Transient(f: Failure) {
    f.Refused? && (IsUncertain(f) || f.status in {401, 403, 404, 409})
  }

  predicate FromServer(r: Reply) { r.Replied? || r.failure.Refused? }

  // A known key is answered with its stored outcome; a new one gets an
  // outcome, stored before the answer leaves.  Any answer may be replaced by a
  // transient one, but only an uncertain one can hide a new outcome.
  predicate MayAnswer(outcomes: map<Text, Reply>, key: Text, outcome: Option<Reply>, answer: Reply) {
    FromServer(answer) &&
    if key in outcomes then answer == outcomes[key] || (answer.Raised? && Transient(answer.failure))
    else if outcome.None? then answer.Raised? && Transient(answer.failure)
    else FromServer(outcome.value) && (answer == outcome.value || (answer.Raised? && IsUncertain(answer.failure)))
  }

  function Processing(s: System, i: nat, outcome: Option<Reply>, answer: Reply): System {
    if i >= |s.flights| || s.flights[i].reply.Some? || !MayAnswer(s.outcomes, s.flights[i].request.key, outcome, answer) then s
    else
      var request := s.flights[i].request;
      var answered := s.(flights := s.flights[i := Flight(request, Some(answer))]);
      if request.key in s.outcomes || outcome.None? then answered
      else
        answered.(outcomes := s.outcomes[request.key := outcome.value],
                  applied := if outcome.value.Replied? then s.applied + [request] else s.applied)
  }

  // ---------------------------------------------------------------- the page

  function To(s: System, stage: Stage): System
    requires s.phase.Owning?
  {
    s.(phase := s.phase.(stage := stage))
  }

  function Opening(k: Checks, s: System, own: Identity): System {
    match Reading(k, s.item, own)
    case NoCommand => s.(phase := Idle(own))
    case Found(command) => s.(phase := Owning(own, command, Recovered))
    case Blocked(_) => s
  }

  ghost function Persisting(k: Checks, s: System, command: Json): System {
    var (item, outcome) := Saving(k, s.item, command);
    if !s.phase.Idle? || IdentityOf(command) != s.phase.own || !WellFormed(command) || KeyOf(command) in s.persisted
       || outcome != Saved
    then s
    else s.(item := item, phase := Owning(s.phase.own, command, Persisted), persisted := s.persisted[KeyOf(command) := command])
  }

  function Sending(s: System): System {
    if !s.phase.Owning? || !(s.phase.stage.Persisted? || s.phase.stage.Recovered?) then s
    else
      To(s.(flights := s.flights + [Flight(RequestOf(s.phase.command), None)]),
         Awaiting(|s.flights|, s.phase.stage.Recovered?))
  }

  function Judging(verdict: Verdict, f: Failure): Stage {
    if verdict.Remove? then Rejected(f) else Held(verdict.discardAllowed)
  }

  function SubmittedStage(own: Identity, command: Json, reply: Reply, shown: bool): Stage {
    match reply
    case Replied(p) => if shown && SubmissionAnswered(own, command, p) then Accepted(p) else Held(false)
    case Raised(f) => Judging(SubmitVerdict(HasAction(command, CREATE), f, shown), f)
  }

  function ReplayedStage(digest: Text -> Text, own: Identity, command: Json, reply: Reply): Stage {
    match reply
    case Replied(p) => if Answers(digest, own, command, p) then Accepted(p) else Held(true)
    case Raised(f) =>
      if IsAuthorityOrIdentityFailure(f) then Held(false)
      else if IsReplayConflict(f) then Held(true)
      else Judging(RecoveryVerdict(f), f)
  }

  function Delivering(digest: Text -> Text, s: System, shown: bool): System {
    if !s.phase.Owning? || !s.phase.stage.Awaiting? || s.phase.stage.flight >= |s.flights|
       || s.flights[s.phase.stage.flight].reply.None?
    then s
    else
      var reply := s.flights[s.phase.stage.flight].reply.value;
      To(s, if s.phase.stage.replayed then ReplayedStage(digest, s.phase.own, s.phase.command, reply)
            else SubmittedStage(s.phase.own, s.phase.command, reply, shown))
  }

  function ConfirmingHead(s: System, current: Reply, shown: bool): System {
    if !s.phase.Owning? || !s.phase.stage.Accepted? then s
    else
      var p, profileKey := s.phase.stage.answer, TextOf(s.phase.command, PROFILE_KEY);
      To(s, if InContext(s.phase.own, p, profileKey) && current.Replied?
               && Confirms(s.phase.own, p, current.profile, profileKey) && shown
            then Confirmed(p, current.profile) else Held(false))
  }

  function Removing(k: Checks, s: System, why: Why): System
    requires s.phase.Owning?
  {
    var (item, outcome) := Clearing(k, s.item, s.phase.command);
    if outcome != Cleared then To(s, Held(false))
    else s.(item := item, phase := Idle(s.phase.own), removed := s.removed[KeyOf(s.phase.command) := why])
  }

  ghost function Next(k: Checks, digest: Text -> Text, s: System, step: Step): System {
    match step
    case Crash => s.(phase := Closed)
    case Open(own) => if s.phase.Closed? then Opening(k, s, own) else s
    case SetAside => if s.phase.Owning? && s.phase.stage.Recovered? then To(s, Held(false)) else s
    case Persist(command) => Persisting(k, s, command)
    case Send => Sending(s)
    case Process(i, outcome, answer) => Processing(s, i, outcome, answer)
    case Lose(f) =>
      if s.phase.Owning? && s.phase.stage.Awaiting? && (f.Refused? ==> IsUncertain(f)) then To(s, Held(false)) else s
    case Deliver(shown) => Delivering(digest, s, shown)
    case Confirm(current, shown) => ConfirmingHead(s, current, shown)
    case Clear =>
      if s.phase.Owning? && s.phase.stage.Confirmed? then
        Removing(k, s, AfterConfirmation(s.phase.stage.answer, s.phase.stage.head))
      else if s.phase.Owning? && s.phase.stage.Rejected? then Removing(k, s, AfterRefusal(s.phase.stage.failure))
      else s
    case Discard =>
      if s.phase.Owning? && s.phase.stage.Held? && s.phase.stage.discardAllowed then Removing(k, s, AfterDiscard) else s
  }

  ghost function After(k: Checks, digest: Text -> Text, s: System, steps: seq<Step>): System
    decreases |steps|
  {
    if steps == [] then s else After(k, digest, Next(k, digest, s, steps[0]), steps[1..])
  }

  function Start(): System {
    System(None, Closed, [], map[], [], map[], map[])
  }

  // ---------------------------------------------------------------- invariant

  ghost predicate OnRecord(k: Checks, s: System, command: Json) {
    Reading(k, s.item, IdentityOf(command)) == Found(command)
  }

  // What a reading finds is a record that was saved, filed under its key.
  ghost predicate Filed(s: System, id: Identity, result: ReadResult) {
    result.Found? ==>
      && IdentityOf(result.command) == id && KeyOf(result.command) in s.persisted
      && s.persisted[KeyOf(result.command)] == result.command
  }

  ghost predicate LedgerFiled(k: Checks, s: System) {
    Sound(k, s.item) && forall id :: Filed(s, id, Reading(k, s.item, id))
  }

  // Every saved record is in the ledger until it is removed.
  ghost predicate Accounted(k: Checks, s: System) {
    && s.removed.Keys <= s.persisted.Keys
    && forall key :: key in s.persisted ==>
         KeyOf(s.persisted[key]) == key && (OnRecord(k, s, s.persisted[key]) <==> key !in s.removed)
  }

  ghost predicate CarriesRecord(persisted: map<Text, Json>, request: Request) {
    request.key in persisted && request == RequestOf(persisted[request.key])
  }

  ghost predicate FlightsCarryRecords(s: System) {
    forall i :: 0 <= i < |s.flights| ==> CarriesRecord(s.persisted, s.flights[i].request)
  }

  // Decisive answers are the stored outcomes.
  ghost predicate Honest(outcomes: map<Text, Reply>, f: Flight) {
    f.reply.Some? && !(f.reply.value.Raised? && Transient(f.reply.value.failure)) ==>
      f.request.key in outcomes && outcomes[f.request.key] == f.reply.value
  }

  ghost predicate FlightsHonest(s: System) {
    forall i :: 0 <= i < |s.flights| ==> Honest(s.outcomes, s.flights[i])
  }

  ghost predicate Suggests(f: Flight, key: Text) {
    && f.request.key == key && f.reply.Some?
    && (f.reply.value.Replied? || IsUncertain(f.reply.value.failure))
  }

  // A write was carried out only if some request of its key was answered with
  // it or left uncertain.
  ghost predicate Witnessed(s: System) {
    forall key :: key in s.outcomes && s.outcomes[key].Replied? ==>
      exists i :: 0 <= i < |s.flights| && Suggests(s.flights[i], key)
  }

  ghost predicate AppliedOnce(s: System) {
    && (forall i, j :: 0 <= i < j < |s.applied| ==> s.applied[i].key != s.applied[j].key)
    && (forall i :: 0 <= i < |s.applied| ==>
          && CarriesRecord(s.persisted, s.applied[i])
          && s.applied[i].key in s.outcomes && s.outcomes[s.applied[i].key].Replied?)
    && (forall key :: key in s.outcomes && s.outcomes[key].Replied? ==> IsApplied(s, key))
  }

  ghost predicate IsApplied(s: System, key: Text) {
    exists i :: 0 <= i < |s.applied| && s.applied[i].key == key
  }

  // No write of this key was or will be carried out while no further request
  // is sent.
  ghost predicate NeverApplies(s: System, key: Text) {
    if key in s.outcomes then s.outcomes[key].Raised?
    else forall i :: 0 <= i < |s.flights| && s.flights[i].request.key == key ==> s.flights[i].reply.Some?
  }

  // A refusal that decides: not a version conflict, not a lost answer.
  predicate Definite(f: Failure) { f.Refused? && f.status != 409 && !IsUncertain(f) }

  ghost predicate AnswersRecord(digest: Text -> Text, own: Identity, command: Json, p: Profile) {
    Answers(digest, own, command, p) || SubmissionAnswered(own, command, p)
  }

  ghost predicate IsOutcome(s: System, key: Text, p: Profile) {
    key in s.outcomes && s.outcomes[key] == Replied(p)
  }

  ghost predicate ConfirmedOutcome(digest: Text -> Text, s: System, command: Json, answer: Profile, head: Profile) {
    && IsOutcome(s, KeyOf(command), answer)
    && AnswersRecord(digest, IdentityOf(command), command, answer)
    && Confirms(IdentityOf(command), answer, head, TextOf(command, PROFILE_KEY))
  }

  ghost predicate StageHolds(digest: Text -> Text, s: System, command: Json, stage: Stage) {
    var key := KeyOf(command);
    match stage
    case Persisted => forall i :: 0 <= i < |s.flights| ==> s.flights[i].request.key != key
    case Recovered => true
    case Awaiting(i, replayed) =>
      && i < |s.flights| && s.flights[i].request.key == key
      && (!replayed ==> forall j :: 0 <= j < |s.flights| && s.flights[j].request.key == key ==> j == i)
    case Accepted(p) => IsOutcome(s, key, p) && AnswersRecord(digest, IdentityOf(command), command, p)
    case Confirmed(p, head) => ConfirmedOutcome(digest, s, command, p, head)
    case Rejected(f) => Definite(f) && NeverApplies(s, key)
    case Held(_) => true
  }

  ghost predicate PhaseHolds(k: Checks, digest: Text -> Text, s: System) {
    match s.phase
    case Closed => true
    case Idle(own) => Reading(k, s.item, own) == NoCommand
    case Owning(own, command, stage) => Reading(k, s.item, own) == Found(command) && StageHolds(digest, s, command, stage)
  }

  ghost predicate WhyHolds(digest: Text -> Text, s: System, command: Json, why: Why) {
    match why
    case AfterConfirmation(answer, head) => ConfirmedOutcome(digest, s, command, answer, head)
    case AfterRefusal(f) => Definite(f) && NeverApplies(s, KeyOf(command))
    case AfterDiscard => true
  }

  ghost predicate RemovalsHold(digest: Text -> Text, s: System) {
    forall key :: key in s.removed && key in s.persisted ==> WhyHolds(digest, s, s.persisted[key], s.removed[key])
  }

  ghost predicate Invariant(k: Checks, digest: Text -> Text, s: System) {
    && LedgerFiled(k, s) && Accounted(k, s)
    && FlightsCarryRecords(s) && FlightsHonest(s) && Witnessed(s) && AppliedOnce(s)
    && PhaseHolds(k, digest, s) && RemovalsHold(digest, s)
  }
}
