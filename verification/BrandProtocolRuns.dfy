// Every run of the command protocol keeps its invariant, and what that means:
// no write happens twice, every request is the saved record's own, and no
// record is forgotten before its outcome is settled.
module BrandProtocolRuns {
  import opened Texts
  import opened Json
  import opened PendingCommand
  import opened PendingLedger
  import opened BrandController
  import opened BrandCoordinator
  import opened BrandWorkbench
  import opened BrandProtocol

  // --------------------------------------------------- steps of the page only

  lemma PhaseOnly(k: Checks, digest: Text -> Text, s: System, phase: Phase)
    requires Invariant(k, digest, s) && PhaseHolds(k, digest, s.(phase := phase))
    ensures Invariant(k, digest, s.(phase := phase))
  {
    hide Reading, Sound, AnswersRecord, Confirms, RequestOf, IdentityOf, Transient, IsUncertain;
  }

  lemma OwnerOf(k: Checks, s: System)
    requires LedgerFiled(k, s) && s.phase.Owning? && Reading(k, s.item, s.phase.own) == Found(s.phase.command)
    ensures IdentityOf(s.phase.command) == s.phase.own
    ensures KeyOf(s.phase.command) in s.persisted && s.persisted[KeyOf(s.phase.command)] == s.phase.command
  {
    hide Reading, Sound;
    assert Filed(s, s.phase.own, Reading(k, s.item, s.phase.own));
  }

  // A single request, answered decisively against the write, leaves nothing to
  // be carried out.
  lemma OnlyFlightRefused(s: System, key: Text, i: nat)
    requires FlightsHonest(s) && Witnessed(s)
    requires i < |s.flights| && s.flights[i].request.key == key
    requires forall j :: 0 <= j < |s.flights| && s.flights[j].request.key == key ==> j == i
    requires s.flights[i].reply.Some? && s.flights[i].reply.value.Raised? && Definite(s.flights[i].reply.value.failure)
    ensures NeverApplies(s, key)
  {
  }

  lemma DecisiveRefused(s: System, i: nat)
    requires FlightsHonest(s)
    requires i < |s.flights| && s.flights[i].reply.Some? && s.flights[i].reply.value.Raised?
    requires Definite(s.flights[i].reply.value.failure) && s.flights[i].reply.value.failure.status !in {401, 403, 404}
    ensures NeverApplies(s, s.flights[i].request.key)
  {
    assert Honest(s.outcomes, s.flights[i]);
  }

  lemma SubmittedStages(own: Identity, command: Json, reply: Reply, shown: bool)
    ensures var stage := SubmittedStage(own, command, reply, shown);
      || stage.Held?
      || (stage.Accepted? && reply == Replied(stage.answer) && SubmissionAnswered(own, command, stage.answer))
      || (stage.Rejected? && reply == Raised(stage.failure) && Definite(stage.failure))
  {
    hide SubmissionAnswered;
  }

  lemma ReplayedStages(digest: Text -> Text, own: Identity, command: Json, reply: Reply)
    ensures var stage := ReplayedStage(digest, own, command, reply);
      || stage.Held?
      || (stage.Accepted? && reply == Replied(stage.answer) && Answers(digest, own, command, stage.answer))
      || (stage.Rejected? && reply == Raised(stage.failure) && Definite(stage.failure)
          && stage.failure.status !in {401, 403, 404})
  {
    hide Answers;
  }

  lemma SubmittedHolds(digest: Text -> Text, s: System, command: Json, i: nat, shown: bool)
    requires FlightsHonest(s) && Witnessed(s)
    requires StageHolds(digest, s, command, Awaiting(i, false)) && s.flights[i].reply.Some?
    ensures StageHolds(digest, s, command, SubmittedStage(IdentityOf(command), command, s.flights[i].reply.value, shown))
  {
    hide SubmittedStage, SubmissionAnswered, Answers, IdentityOf, KeyOf, NeverApplies, Witnessed, Definite;
    assert Honest(s.outcomes, s.flights[i]);
    SubmittedStages(IdentityOf(command), command, s.flights[i].reply.value, shown);
    if SubmittedStage(IdentityOf(command), command, s.flights[i].reply.value, shown).Rejected? {
      OnlyFlightRefused(s, KeyOf(command), i);
    }
  }

  lemma ReplayedHolds(digest: Text -> Text, s: System, command: Json, i: nat)
    requires FlightsHonest(s)
    requires StageHolds(digest, s, command, Awaiting(i, true)) && s.flights[i].reply.Some?
    ensures StageHolds(digest, s, command, ReplayedStage(digest, IdentityOf(command), command, s.flights[i].reply.value))
  {
    hide ReplayedStage, SubmissionAnswered, Answers, IdentityOf, KeyOf, NeverApplies, Definite;
    assert Honest(s.outcomes, s.flights[i]);
    ReplayedStages(digest, IdentityOf(command), command, s.flights[i].reply.value);
    if ReplayedStage(digest, IdentityOf(command), command, s.flights[i].reply.value).Rejected? {
      DecisiveRefused(s, i);
    }
  }

  lemma DeliverHolds(k: Checks, digest: Text -> Text, s: System, shown: bool)
    requires Invariant(k, digest, s)
    ensures PhaseHolds(k, digest, Delivering(digest, s, shown))
  {
    if s.phase.Owning? && s.phase.stage.Awaiting? {
      OwnerOf(k, s);
      var i := s.phase.stage.flight;
      hide Reading, SubmittedStage, ReplayedStage, IdentityOf, LedgerFiled, Accounted, FlightsCarryRecords, FlightsHonest,
        Witnessed, AppliedOnce, RemovalsHold;
      if s.flights[i].reply.Some? {
        if s.phase.stage.replayed {
          ReplayedHolds(digest, s, s.phase.command, i);
        } else {
          SubmittedHolds(digest, s, s.phase.command, i, shown);
        }
        StageIgnoresPhase(digest, s, Delivering(digest, s, shown), s.phase.command, Delivering(digest, s, shown).phase.stage);
      }
    }
  }

  lemma StageIgnoresPhase(digest: Text -> Text, s: System, t: System, command: Json, stage: Stage)
    requires StageHolds(digest, s, command, stage) && t == s.(phase := t.phase)
    ensures StageHolds(digest, t, command, stage)
  {
    hide AnswersRecord, Confirms, IdentityOf, KeyOf, Definite;
  }

  lemma ConfirmHolds(k: Checks, digest: Text -> Text, s: System, current: Reply, shown: bool)
    requires Invariant(k, digest, s)
    ensures PhaseHolds(k, digest, ConfirmingHead(s, current, shown))
  {
    hide LedgerFiled, Accounted, FlightsCarryRecords, FlightsHonest, Witnessed, AppliedOnce, RemovalsHold;
    if s.phase.Owning? { OwnerOf(k, s); }
    hide Reading, AnswersRecord, TextOf, IdentityOf, KeyOf, NeverApplies, InContext, Confirms;
  }

  // ------------------------------------------------------------------ saving

  lemma PersistKeeps(k: Checks, digest: Text -> Text, s: System, command: Json)
    requires Supported(k) && Invariant(k, digest, s)
    ensures Invariant(k, digest, Persisting(k, s, command))
  {
    var t := Persisting(k, s, command);
    if t != s {
      hide Supported, Sound, Reading, Saving;
      SavePreservesAndReadsBack(k, s.item, command);
      PersistKeepsLedger(k, s, t, command);
      PersistKeepsRest(digest, s, t, command);
    }
  }

  ghost predicate Saves(k: Checks, s: System, t: System, command: Json) {
    && s.phase.Idle? && Reading(k, s.item, s.phase.own) == NoCommand
    && IdentityOf(command) == s.phase.own && KeyOf(command) !in s.persisted
    && Sound(k, t.item) && Reading(k, t.item, IdentityOf(command)) == Found(command)
    && (forall other :: other != IdentityOf(command) ==> Reading(k, t.item, other) == Reading(k, s.item, other))
    && t == s.(item := t.item, phase := Owning(s.phase.own, command, Persisted),
               persisted := s.persisted[KeyOf(command) := command])
  }

  lemma PersistKeepsLedger(k: Checks, s: System, t: System, command: Json)
    requires LedgerFiled(k, s) && Accounted(k, s) && Saves(k, s, t, command)
    ensures LedgerFiled(k, t) && Accounted(k, t)
  {
    hide Sound, Reading, IdentityOf, KeyOf;
    forall id ensures Filed(t, id, Reading(k, t.item, id)) {
      assert Filed(s, id, Reading(k, s.item, id));
    }
    forall key | key in t.persisted
      ensures KeyOf(t.persisted[key]) == key && (OnRecord(k, t, t.persisted[key]) <==> key !in t.removed)
    {
      if key != KeyOf(command) {
        assert key in s.persisted;
        assert OnRecord(k, s, s.persisted[key]) <==> key !in s.removed;
      }
    }
  }

  lemma PersistKeepsRest(digest: Text -> Text, s: System, t: System, command: Json)
    requires FlightsCarryRecords(s) && FlightsHonest(s) && Witnessed(s) && AppliedOnce(s) && RemovalsHold(digest, s)
    requires s.removed.Keys <= s.persisted.Keys && KeyOf(command) !in s.persisted && s.phase.Idle?
    requires t == s.(item := t.item, phase := Owning(s.phase.own, command, Persisted),
                     persisted := s.persisted[KeyOf(command) := command])
    ensures FlightsCarryRecords(t) && FlightsHonest(t) && Witnessed(t) && AppliedOnce(t) && RemovalsHold(digest, t)
    ensures StageHolds(digest, t, command, Persisted)
  {
    hide AnswersRecord, Confirms, RequestOf, IdentityOf, KeyOf, Transient, IsUncertain;
    forall i | 0 <= i < |t.flights| ensures CarriesRecord(t.persisted, t.flights[i].request) {
      assert CarriesRecord(s.persisted, s.flights[i].request);
    }
  }

  // ----------------------------------------------------------------- sending

  lemma SendKeeps(k: Checks, digest: Text -> Text, s: System)
    requires Invariant(k, digest, s)
    ensures Invariant(k, digest, Sending(s))
  {
    var t := Sending(s);
    if s.phase.Owning? && (s.phase.stage.Persisted? || s.phase.stage.Recovered?) {
      OwnerOf(k, s);
      hide Reading, Sound, IdentityOf;
      SameItemKeepsLedger(k, s, t);
      SendKeepsFlights(s, t);
      SendKeepsWitnesses(s, t);
      SendKeepsRemovals(k, digest, s, t);
    }
  }

  lemma SameItemKeepsLedger(k: Checks, s: System, t: System)
    requires LedgerFiled(k, s) && Accounted(k, s)
    requires t.item == s.item && t.persisted == s.persisted && t.removed == s.removed
    ensures LedgerFiled(k, t) && Accounted(k, t)
  {
    hide Reading, Sound, IdentityOf, KeyOf;
  }

  ghost predicate Sends(s: System, t: System) {
    && s.phase.Owning? && KeyOf(s.phase.command) in s.persisted
    && s.persisted[KeyOf(s.phase.command)] == s.phase.command
    && t.flights == s.flights + [Flight(RequestOf(s.phase.command), None)]
    && t == s.(phase := t.phase, flights := t.flights)
  }

  lemma SendKeepsFlights(s: System, t: System)
    requires FlightsCarryRecords(s) && FlightsHonest(s) && Sends(s, t)
    ensures FlightsCarryRecords(t) && FlightsHonest(t)
  {
    forall i | 0 <= i < |t.flights| ensures CarriesRecord(t.persisted, t.flights[i].request) && Honest(t.outcomes, t.flights[i]) {
      if i < |s.flights| {
        assert CarriesRecord(s.persisted, s.flights[i].request) && Honest(s.outcomes, s.flights[i]);
      }
    }
  }

  lemma SendKeepsWitnesses(s: System, t: System)
    requires Witnessed(s) && AppliedOnce(s) && Sends(s, t)
    ensures Witnessed(t) && AppliedOnce(t)
  {
    hide RequestOf;
    forall key | key in t.outcomes && t.outcomes[key].Replied?
      ensures exists i :: 0 <= i < |t.flights| && Suggests(t.flights[i], key)
    {
      var i :| 0 <= i < |s.flights| && Suggests(s.flights[i], key);
      assert Suggests(t.flights[i], key);
    }
    forall key | key in t.outcomes && t.outcomes[key].Replied? ensures IsApplied(t, key) {
      assert IsApplied(s, key);
    }
  }

  lemma SendKeepsRemovals(k: Checks, digest: Text -> Text, s: System, t: System)
    requires Accounted(k, s) && RemovalsHold(digest, s) && Sends(s, t)
    requires OnRecord(k, s, s.phase.command)
    ensures RemovalsHold(digest, t)
  {
    hide Reading, AnswersRecord, Confirms, IdentityOf;
    assert KeyOf(s.phase.command) !in s.removed;
    forall key | key in t.removed && key in t.persisted ensures WhyHolds(digest, t, t.persisted[key], t.removed[key]) {
      assert WhyHolds(digest, s, s.persisted[key], s.removed[key]);
    }
  }

  // -------------------------------------------------------------- processing

  // What processing one request changes.
  ghost predicate Answered(s: System, t: System, i: nat, outcome: Option<Reply>, answer: Reply) {
    && i < |s.flights| && s.flights[i].reply.None? && MayAnswer(s.outcomes, s.flights[i].request.key, outcome, answer)
    && t == Processing(s, i, outcome, answer)
  }

  lemma NeverAppliesKept(s: System, t: System, i: nat, outcome: Option<Reply>, answer: Reply, key: Text)
    requires Answered(s, t, i, outcome, answer) && NeverApplies(s, key)
    ensures NeverApplies(t, key)
  {
  }

  lemma ProcessKeepsFlights(s: System, t: System, i: nat, outcome: Option<Reply>, answer: Reply)
    requires FlightsCarryRecords(s) && FlightsHonest(s) && Answered(s, t, i, outcome, answer)
    ensures FlightsCarryRecords(t) && FlightsHonest(t)
  {
    hide RequestOf;
    forall j | 0 <= j < |t.flights| ensures CarriesRecord(t.persisted, t.flights[j].request) && Honest(t.outcomes, t.flights[j]) {
      assert CarriesRecord(s.persisted, s.flights[j].request) && Honest(s.outcomes, s.flights[j]);
    }
  }

  lemma ProcessKeepsWitnesses(s: System, t: System, i: nat, outcome: Option<Reply>, answer: Reply)
    requires Witnessed(s) && Answered(s, t, i, outcome, answer)
    ensures Witnessed(t)
  {
    forall key | key in t.outcomes && t.outcomes[key].Replied?
      ensures exists j :: 0 <= j < |t.flights| && Suggests(t.flights[j], key)
    {
      if key in s.outcomes {
        var j :| 0 <= j < |s.flights| && Suggests(s.flights[j], key);
        assert Suggests(t.flights[j], key);
      } else {
        assert Suggests(t.flights[i], key);
      }
    }
  }

  lemma ProcessKeepsApplied(s: System, t: System, i: nat, outcome: Option<Reply>, answer: Reply)
    requires FlightsCarryRecords(s) && AppliedOnce(s) && Answered(s, t, i, outcome, answer)
    ensures AppliedOnce(t)
  {
    hide RequestOf, IsUncertain;
    assert CarriesRecord(s.persisted, s.flights[i].request);
    forall key | key in t.outcomes && t.outcomes[key].Replied? ensures IsApplied(t, key) {
      if key in s.outcomes {
        assert IsApplied(s, key);
        var j :| 0 <= j < |s.applied| && s.applied[j].key == key;
        assert t.applied[j].key == key;
      } else {
        assert t.applied[|s.applied|].key == key;
      }
    }
  }

  lemma ProcessKeepsStage(digest: Text -> Text, s: System, t: System, i: nat, outcome: Option<Reply>, answer: Reply, command: Json, stage: Stage)
    requires StageHolds(digest, s, command, stage) && Answered(s, t, i, outcome, answer)
    ensures StageHolds(digest, t, command, stage)
  {
    hide AnswersRecord, Confirms, IdentityOf, KeyOf, IsUncertain, Transient;
    if stage.Rejected? { NeverAppliesKept(s, t, i, outcome, answer, KeyOf(command)); }
  }

  lemma ProcessKeepsRemovals(digest: Text -> Text, s: System, t: System, i: nat, outcome: Option<Reply>, answer: Reply)
    requires RemovalsHold(digest, s) && Answered(s, t, i, outcome, answer)
    ensures RemovalsHold(digest, t)
  {
    hide AnswersRecord, Confirms, IdentityOf, KeyOf, IsUncertain, Transient, MayAnswer;
    forall key | key in t.removed && key in t.persisted ensures WhyHolds(digest, t, t.persisted[key], t.removed[key]) {
      assert WhyHolds(digest, s, s.persisted[key], s.removed[key]);
      if s.removed[key].AfterRefusal? { NeverAppliesKept(s, t, i, outcome, answer, KeyOf(s.persisted[key])); }
    }
  }

  lemma ProcessKeeps(k: Checks, digest: Text -> Text, s: System, i: nat, outcome: Option<Reply>, answer: Reply)
    requires Invariant(k, digest, s)
    ensures Invariant(k, digest, Processing(s, i, outcome, answer))
  {
    var t := Processing(s, i, outcome, answer);
    if i < |s.flights| && s.flights[i].reply.None? && MayAnswer(s.outcomes, s.flights[i].request.key, outcome, answer) {
      hide Reading, Sound, StageHolds, FlightsCarryRecords, FlightsHonest, Witnessed, AppliedOnce, RemovalsHold, MayAnswer,
        IdentityOf, KeyOf;
      hide LedgerFiled, Accounted;
      SameItemKeepsLedger(k, s, t);
      ProcessKeepsFlights(s, t, i, outcome, answer);
      ProcessKeepsWitnesses(s, t, i, outcome, answer);
      ProcessKeepsApplied(s, t, i, outcome, answer);
      ProcessKeepsRemovals(digest, s, t, i, outcome, answer);
      if s.phase.Owning? { ProcessKeepsStage(digest, s, t, i, outcome, answer, s.phase.command, s.phase.stage); }
    }
  }

  // ---------------------------------------------------------------- removing

  lemma RemoveKeeps(k: Checks, digest: Text -> Text, s: System, why: Why)
    requires Supported(k) && Invariant(k, digest, s) && s.phase.Owning?
    requires WhyHolds(digest, s, s.phase.command, why)
    ensures Invariant(k, digest, Removing(k, s, why))
    ensures var t := Removing(k, s, why);
      t.phase == Idle(s.phase.own) && t.removed == s.removed[KeyOf(s.phase.command) := why] && t.persisted == s.persisted
      && forall other :: other != s.phase.own ==> Reading(k, t.item, other) == Reading(k, s.item, other)
  {
    var t := Removing(k, s, why);
    OwnerOf(k, s);
    ClearWhatWasRead(k, s.item, s.phase.own, s.phase.command);
    RemoveKeepsLedger(k, s, t, why);
    RemoveKeepsRest(digest, s, t, why);
    hide Supported, Sound, Reading, LedgerFiled, Accounted, FlightsCarryRecords, FlightsHonest, Witnessed, AppliedOnce,
      RemovalsHold, Clearing, KeyOf;
  }

  ghost predicate Removes(k: Checks, s: System, t: System, why: Why) {
    && s.phase.Owning? && Reading(k, s.item, s.phase.own) == Found(s.phase.command)
    && IdentityOf(s.phase.command) == s.phase.own
    && KeyOf(s.phase.command) in s.persisted && s.persisted[KeyOf(s.phase.command)] == s.phase.command
    && Sound(k, t.item) && Reading(k, t.item, s.phase.own) == NoCommand
    && (forall other :: other != s.phase.own ==> Reading(k, t.item, other) == Reading(k, s.item, other))
    && t == s.(item := t.item, phase := Idle(s.phase.own), removed := s.removed[KeyOf(s.phase.command) := why])
  }

  lemma RemoveKeepsLedger(k: Checks, s: System, t: System, why: Why)
    requires LedgerFiled(k, s) && Accounted(k, s) && Removes(k, s, t, why)
    ensures LedgerFiled(k, t) && Accounted(k, t)
  {
    hide Sound, Reading, IdentityOf, KeyOf;
    forall id ensures Filed(t, id, Reading(k, t.item, id)) {
      assert Filed(s, id, Reading(k, s.item, id));
    }
    forall key | key in t.persisted
      ensures KeyOf(t.persisted[key]) == key && (OnRecord(k, t, t.persisted[key]) <==> key !in t.removed)
    {
      assert OnRecord(k, s, s.persisted[key]) <==> key !in s.removed;
    }
  }

  lemma RemoveKeepsRest(digest: Text -> Text, s: System, t: System, why: Why)
    requires FlightsCarryRecords(s) && FlightsHonest(s) && Witnessed(s) && AppliedOnce(s) && RemovalsHold(digest, s)
    requires s.phase.Owning? && WhyHolds(digest, s, s.phase.command, why)
    requires KeyOf(s.phase.command) in s.persisted && s.persisted[KeyOf(s.phase.command)] == s.phase.command
    requires t == s.(item := t.item, phase := Idle(s.phase.own), removed := s.removed[KeyOf(s.phase.command) := why])
    ensures FlightsCarryRecords(t) && FlightsHonest(t) && Witnessed(t) && AppliedOnce(t) && RemovalsHold(digest, t)
  {
    hide AnswersRecord, Confirms, RequestOf, IdentityOf, KeyOf, Transient, IsUncertain;
    forall key | key in t.removed && key in t.persisted ensures WhyHolds(digest, t, t.persisted[key], t.removed[key]) {
      if key != KeyOf(s.phase.command) { assert WhyHolds(digest, s, s.persisted[key], s.removed[key]); }
    }
  }

  // -------------------------------------------------------------- every step

  lemma NextKeeps(k: Checks, digest: Text -> Text, s: System, step: Step)
    requires Supported(k) && Invariant(k, digest, s)
    ensures Invariant(k, digest, Next(k, digest, s, step))
  {
    var t := Next(k, digest, s, step);
    match step {
      case Persist(command) => PersistKeeps(k, digest, s, command);
      case Send => SendKeeps(k, digest, s);
      case Process(i, outcome, answer) => ProcessKeeps(k, digest, s, i, outcome, answer);
      case Clear => ClearKeeps(k, digest, s);
      case Discard => ClearKeeps(k, digest, s);
      case Deliver(shown) => PageKeeps(k, digest, s, step);
      case Confirm(current, shown) => PageKeeps(k, digest, s, step);
      case Crash => PageKeeps(k, digest, s, step);
      case Open(own) => PageKeeps(k, digest, s, step);
      case SetAside => PageKeeps(k, digest, s, step);
      case Lose(f) => PageKeeps(k, digest, s, step);
    }
  }

  predicate PageStep(step: Step) {
    step.Deliver? || step.Confirm? || step.Crash? || step.Open? || step.SetAside? || step.Lose?
  }

  lemma PageKeeps(k: Checks, digest: Text -> Text, s: System, step: Step)
    requires Invariant(k, digest, s) && PageStep(step)
    ensures Invariant(k, digest, Next(k, digest, s, step))
  {
    PagePhaseHolds(k, digest, s, step);
    hide Invariant, Next, PhaseHolds;
    PhaseOnly(k, digest, s, Next(k, digest, s, step).phase);
  }

  lemma PagePhaseHolds(k: Checks, digest: Text -> Text, s: System, step: Step)
    requires Invariant(k, digest, s) && PageStep(step)
    ensures var t := Next(k, digest, s, step); t == s.(phase := t.phase) && PhaseHolds(k, digest, t)
  {
    hide Reading, LedgerFiled, Accounted, FlightsCarryRecords, FlightsHonest, Witnessed, AppliedOnce, RemovalsHold,
      Delivering, ConfirmingHead, IsUncertain, StageHolds;
    match step {
      case Deliver(shown) => DeliverHolds(k, digest, s, shown); DeliverOnlyMoves(digest, s, shown);
      case Confirm(current, shown) => ConfirmHolds(k, digest, s, current, shown); ConfirmOnlyMoves(s, current, shown);
      case _ => MovesHold(k, digest, s, step);
    }
  }

  lemma MovesHold(k: Checks, digest: Text -> Text, s: System, step: Step)
    requires PhaseHolds(k, digest, s) && (step.Crash? || step.Open? || step.SetAside? || step.Lose?)
    ensures var t := Next(k, digest, s, step); t == s.(phase := t.phase) && PhaseHolds(k, digest, t)
  {
    hide Reading, IsUncertain, AnswersRecord, Confirms, NeverApplies, KeyOf, IdentityOf;
  }

  lemma DeliverOnlyMoves(digest: Text -> Text, s: System, shown: bool)
    ensures var t := Delivering(digest, s, shown); t == s.(phase := t.phase)
  {
    hide SubmittedStage, ReplayedStage;
  }

  lemma ConfirmOnlyMoves(s: System, current: Reply, shown: bool)
    ensures var t := ConfirmingHead(s, current, shown); t == s.(phase := t.phase)
  {
    hide InContext, Confirms;
  }

  lemma ClearKeeps(k: Checks, digest: Text -> Text, s: System)
    requires Supported(k) && Invariant(k, digest, s)
    ensures Invariant(k, digest, Next(k, digest, s, Clear)) && Invariant(k, digest, Next(k, digest, s, Discard))
  {
    hide Reading, LedgerFiled, Accounted, FlightsCarryRecords, FlightsHonest, Witnessed, AppliedOnce, RemovalsHold, Removing,
      ConfirmedOutcome, NeverApplies, Supported;
    if s.phase.Owning? {
      match s.phase.stage {
        case Confirmed(p, head) => RemoveKeeps(k, digest, s, AfterConfirmation(p, head));
        case Rejected(f) => RemoveKeeps(k, digest, s, AfterRefusal(f));
        case Held(allowed) => RemoveKeeps(k, digest, s, AfterDiscard);
        case _ =>
      }
    }
  }

  lemma {:induction false} RunKeeps(k: Checks, digest: Text -> Text, s: System, steps: seq<Step>)
    requires Supported(k) && Invariant(k, digest, s)
    ensures Invariant(k, digest, After(k, digest, s, steps))
    decreases |steps|
  {
    hide Invariant, Next, Supported;
    if steps != [] {
      NextKeeps(k, digest, s, steps[0]);
      RunKeeps(k, digest, Next(k, digest, s, steps[0]), steps[1..]);
    }
  }

  // ------------------------------------------------------------ main results

  lemma StartHolds(k: Checks, digest: Text -> Text)
    requires Supported(k)
    ensures Invariant(k, digest, Start())
  {
    assert Written([]) == None && AllVerified(k, []) && OwnersDistinct([]);
    assert Sound(k, None);
  }

  lemma Reachable(k: Checks, digest: Text -> Text, steps: seq<Step>)
    requires Supported(k)
    ensures Invariant(k, digest, After(k, digest, Start(), steps))
  {
    StartHolds(k, digest);
    RunKeeps(k, digest, Start(), steps);
  }

  // In every run, each key is carried out at most once, and every request ever
  // sent is the one its saved record asks for: same key, same payload, on first
  // sending and on every replay.
  lemma EachKeyAppliedOnce(k: Checks, digest: Text -> Text, steps: seq<Step>)
    requires Supported(k)
    ensures var s := After(k, digest, Start(), steps);
      && (forall i, j :: 0 <= i < j < |s.applied| ==> s.applied[i].key != s.applied[j].key)
      && (forall i :: 0 <= i < |s.applied| ==> CarriesRecord(s.persisted, s.applied[i]))
      && (forall i :: 0 <= i < |s.flights| ==> CarriesRecord(s.persisted, s.flights[i].request))
      && (forall i, j :: 0 <= i < |s.flights| && 0 <= j < |s.flights| && s.flights[i].request.key == s.flights[j].request.key ==>
            s.flights[i].request == s.flights[j].request)
  {
    Reachable(k, digest, steps);
    var s := After(k, digest, Start(), steps);
    hide After, Accounted, LedgerFiled, PhaseHolds, RemovalsHold, Witnessed, FlightsHonest, RequestOf;
    assert forall i :: 0 <= i < |s.flights| ==> CarriesRecord(s.persisted, s.flights[i].request);
  }

  // A request leaves only while the ledger holds its record.
  lemma SentOnlyWhileOnRecord(k: Checks, digest: Text -> Text, s: System, step: Step)
    requires Invariant(k, digest, s) && |Next(k, digest, s, step).flights| > |s.flights|
    ensures step.Send? && s.phase.Owning? && OnRecord(k, s, s.phase.command)
    ensures Next(k, digest, s, step).flights == s.flights + [Flight(RequestOf(s.phase.command), None)]
  {
    if !step.Send? {
      OnlySendsAddFlights(k, digest, s, step);
    } else if s.phase.Owning? {
      OwnerOf(k, s);
    }
  }

  lemma OnlySendsAddFlights(k: Checks, digest: Text -> Text, s: System, step: Step)
    requires !step.Send?
    ensures |Next(k, digest, s, step).flights| == |s.flights|
  {
    hide Reading, Saving, Clearing, RequestOf, MayAnswer, SubmittedStage, ReplayedStage, IdentityOf, InContext, Confirms,
      IsUncertain, KeyOf;
  }

  // A record leaves the ledger in one of three ways: its write was carried out
  // with the answer the record asks for and a later head confirms it; it was
  // definitely refused, not for a version conflict, and never carried out; or
  // it was discarded by hand while that was allowed.  No other record moves.
  lemma RecordsLeaveOnlyWhenSettled(k: Checks, digest: Text -> Text, s: System, step: Step, id: Identity, command: Json)
    requires Supported(k) && Invariant(k, digest, s)
    requires Reading(k, s.item, id) == Found(command)
    requires Reading(k, Next(k, digest, s, step).item, id) != Found(command)
    ensures var t := Next(k, digest, s, step);
      && s.phase.Owning? && s.phase.own == id && s.phase.command == command
      && Reading(k, t.item, id) == NoCommand
      && (forall other :: other != id ==> Reading(k, t.item, other) == Reading(k, s.item, other))
      && KeyOf(command) in t.removed && WhyHolds(digest, t, command, t.removed[KeyOf(command)])
      && (t.removed[KeyOf(command)].AfterDiscard? ==> step.Discard? && s.phase.stage == Held(true))
  {
    var t := Next(k, digest, s, step);
    if step.Persist? {
      SavedKeepsOthers(k, digest, s, step.command, id, command);
    } else if s.phase.Owning? && (step.Clear? || step.Discard?) {
      LeavesWhenSettled(k, digest, s, step, id, command);
    } else {
      OnlyLedgerStepsWrite(k, digest, s, step);
    }
  }

  lemma OnlyLedgerStepsWrite(k: Checks, digest: Text -> Text, s: System, step: Step)
    requires !step.Persist? && !(s.phase.Owning? && (step.Clear? || step.Discard?))
    ensures Next(k, digest, s, step).item == s.item
  {
    hide Reading, RequestOf, MayAnswer, SubmittedStage, ReplayedStage, InContext, Confirms, IsUncertain, Clearing;
  }

  lemma SavedKeepsOthers(k: Checks, digest: Text -> Text, s: System, saved: Json, id: Identity, command: Json)
    requires Supported(k) && Invariant(k, digest, s) && Reading(k, s.item, id) == Found(command)
    ensures Reading(k, Persisting(k, s, saved).item, id) == Found(command)
  {
    if Persisting(k, s, saved) != s {
      hide Supported, Sound, Reading, Saving;
      SavePreservesAndReadsBack(k, s.item, saved);
    }
  }

  lemma LeavesWhenSettled(k: Checks, digest: Text -> Text, s: System, step: Step, id: Identity, command: Json)
    requires Supported(k) && Invariant(k, digest, s)
    requires Reading(k, s.item, id) == Found(command) && s.phase.Owning? && (step.Clear? || step.Discard?)
    requires Reading(k, Next(k, digest, s, step).item, id) != Found(command)
    ensures var t := Next(k, digest, s, step);
      && s.phase.own == id && s.phase.command == command
      && Reading(k, t.item, id) == NoCommand
      && (forall other :: other != id ==> Reading(k, t.item, other) == Reading(k, s.item, other))
      && KeyOf(command) in t.removed && WhyHolds(digest, t, command, t.removed[KeyOf(command)])
      && (t.removed[KeyOf(command)].AfterDiscard? ==> step.Discard? && s.phase.stage == Held(true))
  {
    hide Reading, FlightsCarryRecords, FlightsHonest, Witnessed, AppliedOnce, Removing, ConfirmedOutcome, NeverApplies,
      Supported, LedgerFiled, Accounted, RemovalsHold, KeyOf, Definite;
    var t := Next(k, digest, s, step);
    assert t != s;
    ClearKeeps(k, digest, s);
    OwnerOf(k, s);
    match s.phase.stage {
      case Confirmed(p, head) => RemoveKeeps(k, digest, s, AfterConfirmation(p, head));
      case Rejected(f) => RemoveKeeps(k, digest, s, AfterRefusal(f));
      case Held(allowed) => RemoveKeeps(k, digest, s, AfterDiscard);
      case _ =>
    }
    RemovedWhyHolds(k, digest, t, command);
  }

  lemma RemovedWhyHolds(k: Checks, digest: Text -> Text, t: System, command: Json)
    requires Invariant(k, digest, t)
    requires KeyOf(command) in t.removed && KeyOf(command) in t.persisted && t.persisted[KeyOf(command)] == command
    ensures WhyHolds(digest, t, command, t.removed[KeyOf(command)])
  {
    hide KeyOf, LedgerFiled, Accounted, PhaseHolds, Witnessed, FlightsHonest, AppliedOnce, ConfirmedOutcome, NeverApplies;
  }

  lemma OnlyClearsRemove(k: Checks, digest: Text -> Text, s: System, step: Step)
    requires !step.Clear? && !step.Discard?
    ensures Next(k, digest, s, step).removed == s.removed
  {
    hide Reading, Saving, RequestOf, MayAnswer, SubmittedStage, ReplayedStage, InContext, Confirms, IsUncertain, KeyOf,
      IdentityOf;
  }

  lemma ClearsRemoveOwned(k: Checks, digest: Text -> Text, s: System, step: Step, key: Text)
    requires step.Clear? || step.Discard?
    requires key in s.removed && (s.phase.Owning? ==> KeyOf(s.phase.command) != key)
    ensures key in Next(k, digest, s, step).removed && Next(k, digest, s, step).removed[key] == s.removed[key]
  {
    hide Clearing, KeyOf;
  }

  lemma NextKeepsRemoved(k: Checks, digest: Text -> Text, s: System, step: Step, key: Text)
    requires Invariant(k, digest, s) && key in s.removed
    ensures key in Next(k, digest, s, step).removed && Next(k, digest, s, step).removed[key] == s.removed[key]
  {
    hide Invariant, Next, KeyOf;
    if s.phase.Owning? { OwnedNotRemoved(k, digest, s); }
    if step.Clear? || step.Discard? {
      ClearsRemoveOwned(k, digest, s, step, key);
    } else {
      OnlyClearsRemove(k, digest, s, step);
    }
  }

  lemma OwnedNotRemoved(k: Checks, digest: Text -> Text, s: System)
    requires Invariant(k, digest, s) && s.phase.Owning?
    ensures KeyOf(s.phase.command) !in s.removed
  {
    OwnerOf(k, s);
    hide Reading, KeyOf, LedgerFiled, FlightsCarryRecords, FlightsHonest, Witnessed, AppliedOnce, RemovalsHold, StageHolds;
    assert OnRecord(k, s, s.phase.command);
  }

  lemma {:induction false} RemovedForever(k: Checks, digest: Text -> Text, s: System, steps: seq<Step>, key: Text)
    requires Supported(k) && Invariant(k, digest, s) && key in s.removed
    ensures var t := After(k, digest, s, steps);
      Invariant(k, digest, t) && key in t.removed && t.removed[key] == s.removed[key]
    decreases |steps|
  {
    hide Invariant, Next, Supported;
    if steps != [] {
      NextKeeps(k, digest, s, steps[0]);
      NextKeepsRemoved(k, digest, s, steps[0], key);
      RemovedForever(k, digest, Next(k, digest, s, steps[0]), steps[1..], key);
    }
  }

  // Once a record is removed for a refusal, its write is not carried out at
  // any later time, whatever requests are still on their way.
  lemma RefusedNeverApplied(k: Checks, digest: Text -> Text, s: System, steps: seq<Step>, key: Text)
    requires Supported(k) && Invariant(k, digest, s)
    requires key in s.removed && s.removed[key].AfterRefusal?
    ensures !IsApplied(After(k, digest, s, steps), key)
  {
    hide After;
    RemovedForever(k, digest, s, steps, key);
    RefusedNotApplied(k, digest, After(k, digest, s, steps), key);
  }

  lemma RefusedNotApplied(k: Checks, digest: Text -> Text, s: System, key: Text)
    requires Invariant(k, digest, s) && key in s.removed && s.removed[key].AfterRefusal?
    ensures !IsApplied(s, key)
  {
    hide Reading, LedgerFiled, PhaseHolds, Witnessed, FlightsHonest, FlightsCarryRecords, OnRecord, Definite, RequestOf;
    assert key in s.persisted && KeyOf(s.persisted[key]) == key;
    assert WhyHolds(digest, s, s.persisted[key], s.removed[key]);
  }

  // Every write the server has carried out is accounted for: its record is
  // still in the ledger, or was removed after its own answer was confirmed, or
  // was discarded by hand.
  lemma EveryEffectAccountedFor(k: Checks, digest: Text -> Text, steps: seq<Step>, i: nat)
    requires Supported(k) && i < |After(k, digest, Start(), steps).applied|
    ensures var s := After(k, digest, Start(), steps);
      var key := s.applied[i].key;
      && key in s.persisted && s.applied[i] == RequestOf(s.persisted[key])
      && (if key !in s.removed then OnRecord(k, s, s.persisted[key])
          else s.removed[key].AfterDiscard?
               || (s.removed[key].AfterConfirmation?
                   && ConfirmedOutcome(digest, s, s.persisted[key], s.removed[key].answer, s.removed[key].head)))
  {
    Reachable(k, digest, steps);
    var s := After(k, digest, Start(), steps);
    var key := s.applied[i].key;
    assert CarriesRecord(s.persisted, s.applied[i]);
    if key in s.removed {
      RemovedWhyHolds(k, digest, s, s.persisted[key]);
      if s.removed[key].AfterRefusal? { RefusedNotApplied(k, digest, s, key); }
    }
    hide After, RequestOf, ConfirmedOutcome, LedgerFiled, PhaseHolds, Witnessed, FlightsHonest, FlightsCarryRecords, Reading,
      NeverApplies, AppliedOnce, RemovalsHold, IsApplied;
  }

  // A discard becomes possible only when a version conflict, or an answer that
  // is not the record's, has come back.
  lemma DiscardOnlyAfterConflict(k: Checks, digest: Text -> Text, s: System, step: Step)
    requires Invariant(k, digest, s)
    requires Next(k, digest, s, step).phase.Owning? && Next(k, digest, s, step).phase.stage == Held(true)
    requires !(s.phase.Owning? && s.phase.stage == Held(true))
    ensures step.Deliver? && s.phase.Owning? && s.phase.stage.Awaiting?
    ensures var reply := s.flights[s.phase.stage.flight].reply;
      && reply.Some?
      && (if reply.value.Raised? then reply.value.failure.Refused? && reply.value.failure.status == 409
          else s.phase.stage.replayed && !Answers(digest, s.phase.own, s.phase.command, reply.value.profile))
  {
    hide Reading, Saving, Clearing, RequestOf, MayAnswer, IdentityOf, InContext, Confirms, IsUncertain, KeyOf,
      Answers, SubmissionAnswered, LedgerFiled, Accounted, FlightsCarryRecords, FlightsHonest, Witnessed, AppliedOnce, RemovalsHold;
    if step.Deliver? {
      assert Delivering(digest, s, step.shown) != s;
      ConflictStages(digest, s.phase.own, s.phase.command, s.flights[s.phase.stage.flight].reply.value, step.shown);
      hide SubmittedStage, ReplayedStage;
    }
  }

  lemma ConflictStages(digest: Text -> Text, own: Identity, command: Json, reply: Reply, shown: bool)
    ensures SubmittedStage(own, command, reply, shown) == Held(true) ==>
      reply.Raised? && reply.failure.Refused? && reply.failure.status == 409
    ensures ReplayedStage(digest, own, command, reply) == Held(true) ==>
      if reply.Raised? then reply.failure.Refused? && reply.failure.status == 409
      else !Answers(digest, own, command, reply.profile)
  {
    hide Answers, SubmissionAnswered;
  }

  // An uncertain answer to a replay allows discarding the record exactly when it
  // is a conflict marked retryable: the replay is tested for a conflict before
  // it is tested for certainty.  The same answer to a first sending does not.
  lemma UncertainReplayDiscardsIff(digest: Text -> Text, own: Identity, command: Json, f: Failure, shown: bool)
    requires IsUncertain(f)
    ensures ReplayedStage(digest, own, command, Raised(f)) == Held(true) <==> f.Refused? && f.status == 409
    ensures SubmittedStage(own, command, Raised(f), shown) == Held(false)
    ensures ReplayedStage(digest, own, command, Raised(Refused(409, true))) == Held(true)
  {
  }

  // ------------------------------------------- a discard that loses an effect

  const RETRYABLE_CONFLICT := Raised(Refused(409, true))

  // The page saves a record and sends it; the server carries the write out, and
  // the page is reloaded before the answer is read.  The replay is answered with
  // a retryable conflict.
  function ReplayedInVain(own: Identity, command: Json, p: Profile): seq<Step> {
    [Open(own), Persist(command), Send, Process(0, Some(Replied(p)), Replied(p)), Crash]
    + [Open(own), Send, Process(1, None, RETRYABLE_CONFLICT), Deliver(true)]
  }

  // From the start the page reaches a record it may discard on that uncertain
  // answer.  Discarding it forgets a write that the server has carried out.
  lemma RetryableConflictForgetsEffect(k: Checks, digest: Text -> Text, own: Identity, command: Json, p: Profile)
    requires Supported(k) && WellFormed(command) && Verified(k, command) && own == IdentityOf(command)
    ensures IsUncertain(RETRYABLE_CONFLICT.failure)
    ensures var s := After(k, digest, Start(), ReplayedInVain(own, command, p));
      var t := Next(k, digest, s, Discard);
      && s.phase == Owning(own, command, Held(true)) && OnRecord(k, s, command) && s.applied == [RequestOf(command)]
      && Reading(k, t.item, own) == NoCommand && t.removed == map[KeyOf(command) := AfterDiscard] && t.applied == s.applied
  {
    hide Reading, Clearing, Supported, Verified, WellFormed, KeyOf, IdentityOf, Sound;
    var saved := FirstFive(k, digest, own, command, p);
    AfterTwo(k, digest, Start(), [Open(own), Persist(command), Send, Process(0, Some(Replied(p)), Replied(p)), Crash],
             [Open(own), Send, Process(1, None, RETRYABLE_CONFLICT), Deliver(true)]);
    LastFour(k, digest, saved, own, command, p);
    ClearWhatWasRead(k, saved.item, own, command);
  }

  // The page is closed with the record in the ledger and its write carried out.
  ghost predicate CarriedOut(k: Checks, s: System, own: Identity, command: Json, p: Profile) {
    && s.phase.Closed? && Sound(k, s.item) && Reading(k, s.item, own) == Found(command)
    && s.flights == [Flight(RequestOf(command), Some(Replied(p)))] && s.outcomes == map[RequestOf(command).key := Replied(p)]
    && s.applied == [RequestOf(command)] && s.removed == map[]
  }

  lemma FirstFive(k: Checks, digest: Text -> Text, own: Identity, command: Json, p: Profile) returns (s: System)
    requires Supported(k) && WellFormed(command) && Verified(k, command) && own == IdentityOf(command)
    ensures s == After(k, digest, Start(), [Open(own), Persist(command), Send, Process(0, Some(Replied(p)), Replied(p)), Crash])
    ensures CarriedOut(k, s, own, command, p)
  {
    EmptyIsSound(k, own);
    SavePreservesAndReadsBack(k, None, command);
    hide Reading, Saving, Supported, Verified, WellFormed, KeyOf, IdentityOf, Sound, RequestOf;
    var a, b, c, d, e := Open(own), Persist(command), Send, Process(0, Some(Replied(p)), Replied(p)), Crash;
    var s1 := Next(k, digest, Start(), a);
    var s2 := Next(k, digest, s1, b);
    var s3 := Next(k, digest, s2, c);
    var s4 := Next(k, digest, s3, d);
    s := Next(k, digest, s4, e);
    AfterFive(k, digest, Start(), a, b, c, d, e);
  }

  lemma EmptyIsSound(k: Checks, own: Identity)
    ensures Sound(k, None) && Reading(k, None, own) == NoCommand
  {
    assert None == Written([]) && AllVerified(k, []) && OwnersDistinct([]);
  }

  lemma LastFour(k: Checks, digest: Text -> Text, s: System, own: Identity, command: Json, p: Profile)
    requires CarriedOut(k, s, own, command, p)
    ensures var t := After(k, digest, s, [Open(own), Send, Process(1, None, RETRYABLE_CONFLICT), Deliver(true)]);
      && t.phase == Owning(own, command, Held(true)) && t.item == s.item && t.applied == s.applied && t.removed == s.removed
  {
    hide Reading, KeyOf, IdentityOf, Sound, RequestOf;
    var a, b, c, d := Open(own), Send, Process(1, None, RETRYABLE_CONFLICT), Deliver(true);
    var s1 := Next(k, digest, s, a);
    var s2 := Next(k, digest, s1, b);
    var s3 := Next(k, digest, s2, c);
    AfterFour(k, digest, s, a, b, c, d);
  }

  lemma AfterCons(k: Checks, digest: Text -> Text, s: System, step: Step, steps: seq<Step>)
    ensures After(k, digest, s, [step] + steps) == After(k, digest, Next(k, digest, s, step), steps)
  {
    assert ([step] + steps)[1..] == steps;
  }

  lemma {:induction false} AfterTwo(k: Checks, digest: Text -> Text, s: System, first: seq<Step>, second: seq<Step>)
    ensures After(k, digest, s, first + second) == After(k, digest, After(k, digest, s, first), second)
    decreases |first|
  {
    hide Next;
    if first == [] {
      assert first + second == second;
    } else {
      assert (first + second)[1..] == first[1..] + second;
      AfterTwo(k, digest, Next(k, digest, s, first[0]), first[1..], second);
    }
  }

  lemma AfterFour(k: Checks, digest: Text -> Text, s: System, a: Step, b: Step, c: Step, d: Step)
    ensures After(k, digest, s, [a, b, c, d])
         == Next(k, digest, Next(k, digest, Next(k, digest, Next(k, digest, s, a), b), c), d)
  {
    hide Next;
    AfterCons(k, digest, s, a, [b, c, d]);
    AfterCons(k, digest, Next(k, digest, s, a), b, [c, d]);
    AfterCons(k, digest, Next(k, digest, Next(k, digest, s, a), b), c, [d]);
    AfterCons(k, digest, Next(k, digest, Next(k, digest, Next(k, digest, s, a), b), c), d, []);
    assert [a] + [b, c, d] == [a, b, c, d] && [b] + [c, d] == [b, c, d] && [c] + [d] == [c, d] && [d] + [] == [d];
  }

  lemma AfterFive(k: Checks, digest: Text -> Text, s: System, a: Step, b: Step, c: Step, d: Step, e: Step)
    ensures After(k, digest, s, [a, b, c, d, e])
         == Next(k, digest, Next(k, digest, Next(k, digest, Next(k, digest, Next(k, digest, s, a), b), c), d), e)
  {
    hide Next;
    AfterCons(k, digest, s, a, [b, c, d, e]);
    AfterFour(k, digest, Next(k, digest, s, a), b, c, d, e);
    assert [a] + [b, c, d, e] == [a, b, c, d, e];
  }
}
