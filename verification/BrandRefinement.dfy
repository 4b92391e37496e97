// The page steps of the command protocol are what the workbench does: each call
// of the workbench is a run of protocol steps with the same effect on the ledger
// item, on what is pending and on what is sent.
module BrandRefinement {
  import opened Texts
  import opened Json
  import opened PendingCommand
  import opened PendingLedger
  import opened BrandController
  import opened BrandCoordinator
  import opened BrandRecovery
  import opened BrandWorkbench
  import opened BrandWorkbenchRuns
  import P = BrandProtocol

  // What the protocol sees of the page.
  function PhaseOf(own: Identity, authority: Authority): P.Phase {
    match authority
    case NoAuthority => P.Idle(own)
    case Pending(command, discardAllowed) => P.Owning(own, command, P.Held(discardAllowed))
    case UnverifiableAuthority => P.Closed
  }

  predicate Matches(own: Identity, page: Page, s: P.System) {
    s.item == page.item && s.phase == PhaseOf(own, page.authority)
  }

  // From one state to another only the server, and other requests, have moved;
  // if it arrived, the answer is there.
  predicate Answered(s: P.System, t: P.System, flight: nat, mutation: Reply, arrived: bool) {
    && t.phase == s.phase && t.item == s.item && flight < |t.flights|
    && (arrived ==> t.flights[flight].reply == Some(mutation))
  }

  // A request without an answer of the server: cancelled, broken off, answered
  // by the client itself, or answered with what the client cannot read.
  predicate WithoutAnswer(mutation: Reply) {
    mutation.Raised? && (mutation.failure.Refused? ==> mutation.failure.status >= 500)
  }

  // The rest of the protocol's run: the answer is taken in or missed, an
  // accepted one is confirmed, and the record is removed if it is to be.
  function Rest(answers: Answers3, arrived: bool, first: bool, second: bool): seq<P.Step>
    requires arrived || WithoutAnswer(answers.mutation)
  {
    [if arrived then P.Deliver(first) else P.Lose(answers.mutation.failure),
     P.Confirm(answers.confirmation, second), P.Clear]
  }

  lemma {:induction false} OneStep(k: Checks, digest: Text -> Text, s: P.System, steps: seq<P.Step>)
    requires steps != []
    ensures P.After(k, digest, s, steps) == P.After(k, digest, P.Next(k, digest, s, steps[0]), steps[1..])
  {
  }

  lemma {:induction false} ThreeSteps(k: Checks, digest: Text -> Text, s: P.System, a: P.Step, b: P.Step, c: P.Step)
    ensures P.After(k, digest, s, [a, b, c]) == P.Next(k, digest, P.Next(k, digest, P.Next(k, digest, s, a), b), c)
  {
    var s1 := P.Next(k, digest, s, a);
    var s2 := P.Next(k, digest, s1, b);
    OneStep(k, digest, s, [a, b, c]);
    OneStep(k, digest, s1, [b, c]);
    OneStep(k, digest, s2, [c]);
    assert [a, b, c][1..] == [b, c] && [b, c][1..] == [c] && [c][1..] == [];
    hide P.Next;
  }

  // ------------------------------------------------------------- how it ends

  datatype End = End(item: Option<Text>, authority: Authority)

  function Cleared(k: Checks, item: Option<Text>, command: Json): End {
    var (item', outcome) := Clearing(k, item, command);
    End(item', if outcome == ClearOutcome.Cleared then NoAuthority else Pending(command, false))
  }

  // What is left of a record whose request has been answered.
  function Ending(
    k: Checks, own: Identity, item: Option<Text>, command: Json, stage: P.Stage, confirmation: Reply, second: bool): End
  {
    match stage
    case Accepted(p) =>
      var profileKey := TextOf(command, PROFILE_KEY);
      if InContext(own, p, profileKey) && confirmation.Replied? && Confirms(own, p, confirmation.profile, profileKey) && second then
        Cleared(k, item, command)
      else End(item, Pending(command, false))
    case Rejected(_) => Cleared(k, item, command)
    case Held(discardAllowed) => End(item, Pending(command, discardAllowed))
    case _ => End(item, UnverifiableAuthority)
  }

  predicate Decided(stage: P.Stage) { stage.Accepted? || stage.Rejected? || stage.Held? }

  predicate EndsAs(own: Identity, s: P.System, end: End) {
    s.item == end.item && s.phase == PhaseOf(own, end.authority)
  }

  // The protocol confirms and removes as the page does.
  lemma ProtocolEnds(
    k: Checks, digest: Text -> Text, s: P.System, own: Identity, command: Json, stage: P.Stage, confirmation: Reply, second: bool)
    requires s.phase == P.Owning(own, command, stage) && Decided(stage)
    ensures EndsAs(own, P.Next(k, digest, P.Next(k, digest, s, P.Confirm(confirmation, second)), P.Clear),
                   Ending(k, own, s.item, command, stage, confirmation, second))
  {
    UnclearedUnchanged(k, s.item, command);
    hide Clearing, Confirms, InContext, TextOf;
  }

  lemma UnclearedUnchanged(k: Checks, item: Option<Text>, command: Json)
    ensures Clearing(k, item, command).1 != ClearOutcome.Cleared ==> Clearing(k, item, command).0 == item
  {
    hide Stored, PendingLedger.Retained, Written;
  }

  predicate PageEnds(page: Page, end: End) { page.item == end.item && page.authority == end.authority }

  // What cannot be reconciled is held.
  lemma UnreconciledHolds(
    k: Checks, page: Page, command: Json, token: MutationToken, baseline: Option<Profile>, f: Failure, authoritative: Reply)
    requires f.Unreconciled?
    ensures PageEnds(Rejecting(k, page, command, token, baseline, f, authoritative), End(page.item, Pending(command, false)))
  {
    hide InvalidatingValidation;
  }

  // ------------------------------------------------------------- submitting

  // The workbench takes in an answer as the protocol does.
  lemma AcceptingEnds(
    p: Platform, own: Identity, page: Page, s0: State, input: CommandInput, baseline: Option<Profile>, accepted: Profile,
    answers: Answers3) returns (first: bool, second: bool)
    requires s0.snapshot.identity == own && page.controller == BeginningMutation(s0, MutationCommandOf(input)).0
    ensures var k, command := ChecksOf(p), CreateCommand(p, input);
      var token := BeginningMutation(s0, MutationCommandOf(input)).1;
      PageEnds(Accepting(k, own, page, command, token, baseline, accepted, answers).0,
               Ending(k, own, page.item, command, P.SubmittedStage(own, command, Replied(accepted), first), answers.confirmation, second))
  {
    var k, command := ChecksOf(p), CreateCommand(p, input);
    var token := BeginningMutation(s0, MutationCommandOf(input)).1;
    var (s1, published) := PublishingMutation(page.controller, token, accepted);
    first := published;
    second := answers.confirmation.Replied? && PublishingRead(s1, answers.confirmation.profile).1;
    if published { PublishedAnswersRecord(p, own, s0, input, accepted); }
    KeyOfToken(p, s0, input);
    AcceptingIs(k, own, page, command, token, baseline, accepted, answers);
    HeldEnds(k, own, page.item, command, answers.confirmation, second);
    hide BeginningMutation, CreateCommand, ChecksOf, PublishingMutation, PublishingRead, SubmissionAnswered, Rejecting, Ending, Accepting,
      AfterConfirming;
    if published {
      ConfirmedEnds(k, own, page.(controller := s1), command, token, baseline, accepted, answers);
    } else {
      UnreconciledHolds(k, page.(controller := s1), command, token, baseline, Unreconciled(None), answers.preflight);
    }
  }

  lemma AcceptingIs(
    k: Checks, own: Identity, page: Page, command: Json, token: MutationToken, baseline: Option<Profile>, accepted: Profile,
    answers: Answers3)
    ensures var (s1, published) := PublishingMutation(page.controller, token, accepted);
      Accepting(k, own, page, command, token, baseline, accepted, answers).0 ==
        if !published then Rejecting(k, page.(controller := s1), command, token, baseline, Unreconciled(None), answers.preflight)
        else AfterConfirming(k, own, page.(controller := s1), command, token, baseline, accepted, answers)
  {
    hide PublishingMutation, Rejecting, Confirming, ClearingPending, RequestOf;
  }

  lemma HeldEnds(k: Checks, own: Identity, item: Option<Text>, command: Json, confirmation: Reply, second: bool)
    ensures Ending(k, own, item, command, P.Held(false), confirmation, second) == End(item, Pending(command, false))
  {
  }

  // What Accepting does with an answer it could publish.
  function AfterConfirming(
    k: Checks, own: Identity, page: Page, command: Json, token: MutationToken, baseline: Option<Profile>, accepted: Profile,
    answers: Answers3): Page
  {
    match Confirming(own, page.controller, accepted, token.profileKey, answers.confirmation)
    case (s, Raised(f), _) => Rejecting(k, page.(controller := s), command, token, baseline, f, answers.preflight)
    case (s, Replied(_), _) => ClearingPending(k, page.(controller := s), command)
  }

  lemma ConfirmedEnds(
    k: Checks, own: Identity, page: Page, command: Json, token: MutationToken, baseline: Option<Profile>, accepted: Profile,
    answers: Answers3)
    requires token.profileKey == TextOf(command, PROFILE_KEY)
    ensures var second := answers.confirmation.Replied? && PublishingRead(page.controller, answers.confirmation.profile).1;
      PageEnds(AfterConfirming(k, own, page, command, token, baseline, accepted, answers),
               Ending(k, own, page.item, command, P.Accepted(accepted), answers.confirmation, second))
  {
    hide Clearing, PublishingRead, Rejecting, Confirms, InContext, TextOf;
    var (s, confirmed, _) := Confirming(own, page.controller, accepted, token.profileKey, answers.confirmation);
    if confirmed.Raised? {
      UnreconciledHolds(k, page.(controller := s), command, token, baseline, confirmed.failure, answers.preflight);
    }
  }

  lemma KeyOfToken(p: Platform, s: State, input: CommandInput)
    ensures BeginningMutation(s, MutationCommandOf(input)).1.profileKey == TextOf(CreateCommand(p, input), PROFILE_KEY)
  {
    CreatedValues(p, input);
    hide CreateCommand, Get;
  }

  lemma JudgedEnds(
    k: Checks, own: Identity, page: Page, command: Json, verdict: Verdict, f: Failure, confirmation: Reply, second: bool)
    ensures PageEnds(Judged(k, page, command, verdict),
                     Ending(k, own, page.item, command, P.Judging(verdict, f), confirmation, second))
  {
    hide Clearing;
  }

  // A submission's failure ends as the protocol judges it.
  lemma RejectingEnds(
    k: Checks, own: Identity, page: Page, command: Json, token: MutationToken, baseline: Option<Profile>, f: Failure,
    authoritative: Reply, confirmation: Reply, second: bool) returns (first: bool)
    requires baseline.None? <==> HasAction(command, CREATE)
    ensures PageEnds(Rejecting(k, page, command, token, baseline, f, authoritative),
      Ending(k, own, page.item, command, P.SubmittedStage(own, command, Raised(f), first), confirmation, second))
  {
    var closed := FailingClosed(page, f);
    hide AfterConflict, Judged, InvalidatingValidation, HasAction, Ending, SubmitVerdict, PageEnds;
    if baseline.Some? && Classify(f) == DeterministicRejected(true) {
      var (after, reconciled) := AfterConflict(closed, token, baseline.value, authoritative);
      first := reconciled;
      AfterConflictKeeps(closed, token, baseline.value, authoritative);
      JudgedEnds(k, own, after, command, SubmitVerdict(false, f, reconciled), f, confirmation, second);
    } else {
      first := false;
      JudgedEnds(k, own, closed, command, SubmitVerdict(baseline.None?, f, false), f, confirmation, second);
    }
  }

  lemma AfterConflictKeeps(page: Page, token: MutationToken, baseline: Profile, authoritative: Reply)
    ensures AfterConflict(page, token, baseline, authoritative).0.item == page.item
  {
    hide Reconciling, InvalidatingValidation;
  }

  lemma SubmittedEnds(
    p: Platform, own: Identity, page: Page, input: CommandInput, baseline: Option<Profile>, answers: Answers3)
    returns (first: bool, second: bool)
    requires page.controller.snapshot.identity == own
    requires var command := CreateCommand(p, input);
      (baseline.None? <==> HasAction(command, CREATE)) && Saving(ChecksOf(p), page.item, command).1 == Saved
    ensures var k, command := ChecksOf(p), CreateCommand(p, input);
      PageEnds(Submitting(p, own, page, input, baseline, answers).0,
               Ending(k, own, Saving(k, page.item, command).0, command, P.SubmittedStage(own, command, answers.mutation, first),
                      answers.confirmation, second))
  {
    var k, command := ChecksOf(p), CreateCommand(p, input);
    var (s, token) := BeginningMutation(page.controller, MutationCommandOf(input));
    var (item, outcome) := Saving(k, page.item, command);
    var saved := page.(controller := s, item := item, authority := Pending(command, false));
    hide CreateCommand, ChecksOf, Saving, BeginningMutation, Accepting, Rejecting, Ending, P.SubmittedStage, HasAction, PageEnds;
    match answers.mutation {
      case Raised(f) =>
        second := false;
        first := RejectingEnds(k, own, saved, command, token, baseline, f, answers.preflight, answers.confirmation, second);
      case Replied(accepted) =>
        first, second := AcceptingEnds(p, own, saved, page.controller, input, baseline, accepted, answers);
    }
  }

  // From the flight of a request on, the protocol ends as its stage says.
  lemma RestEnds(
    k: Checks, digest: Text -> Text, own: Identity, command: Json, t: P.System, flight: nat, replayed: bool, stage: P.Stage,
    answers: Answers3, arrived: bool, first: bool, second: bool)
    requires t.phase == P.Owning(own, command, P.Awaiting(flight, replayed)) && flight < |t.flights|
    requires arrived || WithoutAnswer(answers.mutation)
    requires arrived ==> t.flights[flight].reply == Some(answers.mutation)
    requires stage == if replayed then P.ReplayedStage(digest, own, command, answers.mutation)
                      else P.SubmittedStage(own, command, answers.mutation, first)
    ensures EndsAs(own, P.After(k, digest, t, Rest(answers, arrived, first, second)),
                   Ending(k, own, t.item, command, stage, answers.confirmation, second))
  {
    var step := if arrived then P.Deliver(first) else P.Lose(answers.mutation.failure);
    ThreeSteps(k, digest, t, step, P.Confirm(answers.confirmation, second), P.Clear);
    StageReached(k, digest, own, command, t, flight, replayed, stage, answers, arrived, first);
    var u := P.Next(k, digest, t, step);
    hide P.Next, P.After, P.ReplayedStage, P.SubmittedStage, Ending;
    ProtocolEnds(k, digest, u, own, command, stage, answers.confirmation, second);
  }

  lemma StageReached(
    k: Checks, digest: Text -> Text, own: Identity, command: Json, t: P.System, flight: nat, replayed: bool, stage: P.Stage,
    answers: Answers3, arrived: bool, first: bool)
    requires t.phase == P.Owning(own, command, P.Awaiting(flight, replayed)) && flight < |t.flights|
    requires arrived || WithoutAnswer(answers.mutation)
    requires arrived ==> t.flights[flight].reply == Some(answers.mutation)
    requires stage == if replayed then P.ReplayedStage(digest, own, command, answers.mutation)
                      else P.SubmittedStage(own, command, answers.mutation, first)
    ensures var u := P.Next(k, digest, t, if arrived then P.Deliver(first) else P.Lose(answers.mutation.failure));
      u.phase == P.Owning(own, command, stage) && u.item == t.item && Decided(stage)
  {
    hide Answers, SubmissionAnswered, HasAction;
  }

  // Submitting a command is saving its record, sending its one request, and
  // the protocol's way with whatever answer comes, or none.
  lemma SubmissionRefines(
    p: Platform, own: Identity, page: Page, input: CommandInput, baseline: Option<Profile>, answers: Answers3, arrived: bool,
    s: P.System, t: P.System) returns (first: bool, second: bool)
    requires Matches(own, page, s) && page.authority.NoAuthority? && page.controller.snapshot.identity == own
    requires input.workspaceId == own.workspaceId && input.brand == own.brand
    requires var command := CreateCommand(p, input);
      WellFormed(command) && P.KeyOf(command) !in s.persisted && (baseline.None? <==> HasAction(command, CREATE))
    requires arrived || WithoutAnswer(answers.mutation)
    requires var k, command := ChecksOf(p), CreateCommand(p, input);
      Answered(P.Next(k, p.digest, P.Next(k, p.digest, s, P.Persist(command)), P.Send), t, |s.flights|, answers.mutation, arrived)
      || Saving(k, page.item, command).1 != Saved
    ensures var k, command := ChecksOf(p), CreateCommand(p, input);
      var sent := P.Next(k, p.digest, P.Next(k, p.digest, s, P.Persist(command)), P.Send);
      var (page', requests) := Submitting(p, own, page, input, baseline, answers);
      if Saving(k, page.item, command).1 == Saved then
        && Matches(own, page', P.After(k, p.digest, t, Rest(answers, arrived, first, second)))
        && sent.flights == s.flights + [P.Flight(RequestOf(command), None)]
        && requests != [] && requests[0] == Mutate(RequestOf(command)) && forall r <- requests[1..] :: r.Fetch?
      else Matches(own, page', sent) && sent.flights == s.flights && requests == []
  {
    first, second := false, false;
    var k, command := ChecksOf(p), CreateCommand(p, input);
    SentAfterSaving(p, own, input, s);
    hide CreateCommand, ChecksOf, P.Next, P.After, WellFormed, HasAction;
    if Saving(k, page.item, command).1 == Saved {
      SubmissionSends(p, own, page, input, baseline, answers);
      hide Saving, Submitting, Ending, P.SubmittedStage;
      first, second := SubmittedEnds(p, own, page, input, baseline, answers);
      RestEnds(k, p.digest, own, command, t, |s.flights|, false, P.SubmittedStage(own, command, answers.mutation, first), answers,
               arrived, first, second);
    } else {
      SaveRefusedChangesNothing(k, page.item, command);
    }
  }

  lemma SentAfterSaving(p: Platform, own: Identity, input: CommandInput, s: P.System)
    requires s.phase == P.Idle(own) && input.workspaceId == own.workspaceId && input.brand == own.brand
    requires var command := CreateCommand(p, input); WellFormed(command) && P.KeyOf(command) !in s.persisted
    ensures var k, command := ChecksOf(p), CreateCommand(p, input);
      var sent := P.Next(k, p.digest, P.Next(k, p.digest, s, P.Persist(command)), P.Send);
      if Saving(k, s.item, command).1 == Saved then
        && sent.item == Saving(k, s.item, command).0 && sent.flights == s.flights + [P.Flight(RequestOf(command), None)]
        && sent.phase == P.Owning(own, command, P.Awaiting(|s.flights|, false))
      else sent == s
  {
    CreatedValues(p, input);
    hide CreateCommand, ChecksOf, Saving, WellFormed, Get;
  }

  lemma SubmissionSends(
    p: Platform, own: Identity, page: Page, input: CommandInput, baseline: Option<Profile>, answers: Answers3)
    requires Saving(ChecksOf(p), page.item, CreateCommand(p, input)).1 == Saved
    ensures var requests := Submitting(p, own, page, input, baseline, answers).1;
      requests != [] && requests[0] == Mutate(RequestOf(CreateCommand(p, input))) && forall r <- requests[1..] :: r.Fetch?
  {
    hide CreateCommand, ChecksOf, Saving, BeginningMutation, Rejecting, PublishingMutation, PublishingRead, Confirms, InContext,
      ClearingPending, RequestOf;
  }

  // -------------------------------------------------------------- recovering

  // The workbench ends a recovery as the protocol does.
  lemma SettlingEnds(
    k: Checks, digest: Text -> Text, own: Identity, page: Page, shown: State, command: Json, profile: Option<Profile>,
    answers: Answers3, sent: seq<Sent>)
    ensures var second := answers.confirmation.Replied? && PublishingRead(shown, answers.confirmation.profile).1;
      PageEnds(Recovered(k, page, command, Settling(k, digest, own, shown, page.item, command, profile, answers.mutation,
                                                    answers.confirmation, sent)),
               Ending(k, own, page.item, command, P.ReplayedStage(digest, own, command, answers.mutation), answers.confirmation, second))
  {
    hide ConfirmingAndResolving, PublishingRead, Answers, HasAction, EditingDraft, InvalidatingValidation, Judged, Confirms, InContext,
      TextOf, Cleared;
    if answers.mutation.Raised? {
      var f := answers.mutation.failure;
      var after := page.(controller := shown);
      JudgedEnds(k, own, FailingClosed(after, f), command, RecoveryVerdict(f), f, answers.confirmation, false);
      LocalFailureHolds(k, FailingClosed(after, Unreconciled(Some(f))), command, Unreconciled(Some(f)));
    } else {
      ConfirmedRecovery(k, own, page, shown, command, answers.mutation.profile, answers.confirmation, sent);
    }
  }

  // What only the page could not reconcile is held.
  lemma LocalFailureHolds(k: Checks, page: Page, command: Json, f: Failure)
    requires f.Unreconciled? || f.Other?
    ensures PageEnds(Judged(k, page, command, RecoveryVerdict(f)), End(page.item, Pending(command, false)))
  {
    hide Clearing;
  }

  lemma ConfirmedRecovery(
    k: Checks, own: Identity, page: Page, shown: State, command: Json, accepted: Profile, confirmation: Reply, sent: seq<Sent>)
    ensures var second := confirmation.Replied? && PublishingRead(shown, confirmation.profile).1;
      PageEnds(Recovered(k, page, command, ConfirmingAndResolving(k, own, shown, page.item, command, accepted, confirmation, sent)),
               Ending(k, own, page.item, command, P.Accepted(accepted), confirmation, second))
  {
    UnclearedUnchanged(k, page.item, command);
    hide Clearing, PublishingRead, Confirms, InContext, TextOf, InvalidatingValidation;
  }

  // What RecoveringPending makes of a recovery.
  function Recovered(k: Checks, page: Page, command: Json, r: Recovery): Page {
    var after := page.(controller := r.controller, item := r.item);
    match r.result
    case Resolved(_) => after.(authority := NoAuthority)
    case Retained(_) => after.(authority := Pending(command, false))
    case Conflicted(_, _) => after.(authority := Pending(command, true))
    case Thrown(f) => Judged(k, FailingClosed(after, f), command, RecoveryVerdict(f))
  }

  predicate Replays(own: Identity, page: Page, command: Json, listed: seq<Profile>, answers: Answers3) {
    page.canAdminister && Prepared(own, page.controller, command, listed, answers.preflight)
  }

  lemma WithoutReplayHeld(
    k: Checks, digest: Text -> Text, own: Identity, page: Page, command: Json, listed: seq<Profile>, answers: Answers3)
    requires !Replays(own, page, command, listed, answers)
    ensures var r := Recovering(k, digest, own, page.controller, page.item, command, page.canAdminister, listed, answers);
      PageEnds(Recovered(k, page, command, r), End(page.item, Pending(command, false)))
  {
    hide Settling, TextOf, Value, PublishingRead, Fallback, InvalidatingValidation, Clearing;
    assert !IsText(Get(command, PROFILE_ID)) ==> TextOf(command, PROFILE_ID) == [] by { NoTextNoId(command); }
  }

  lemma NoTextNoId(command: Json)
    ensures !IsText(Get(command, PROFILE_ID)) ==> TextOf(command, PROFILE_ID) == []
  {
  }

  // Recovering a record is replaying its one request, when the page may, and
  // the protocol's way with the answer; otherwise it is set aside.
  lemma RecoveryRefines(
    p: Platform, own: Identity, page: Page, command: Json, listed: seq<Profile>, answers: Answers3, arrived: bool,
    s: P.System, t: P.System) returns (second: bool)
    requires s.item == page.item && s.phase == P.Owning(own, command, P.Recovered)
    requires arrived || WithoutAnswer(answers.mutation)
    requires Answered(P.Next(ChecksOf(p), p.digest, s, P.Send), t, |s.flights|, answers.mutation, arrived)
             || !Replays(own, page, command, listed, answers)
    ensures var k := ChecksOf(p);
      var page' := RecoveringPending(p, own, page, command, listed, answers).0;
      if Replays(own, page, command, listed, answers) then
        && Matches(own, page', P.After(k, p.digest, t, Rest(answers, arrived, true, second)))
        && P.Next(k, p.digest, s, P.Send).flights == s.flights + [P.Flight(RequestOf(command), None)]
      else Matches(own, page', P.Next(k, p.digest, s, P.SetAside))
  {
    second := false;
    var k := ChecksOf(p);
    hide ChecksOf, Recovering, Settling, Prepared, Shown, ShownProfile, Replay, Ending, P.ReplayedStage, P.After, Rest, Judged,
      PublishingRead;
    if Replays(own, page, command, listed, answers) {
      var shown := Shown(page.controller, command, listed, answers.preflight);
      var profile := ShownProfile(command, listed, answers.preflight);
      second := answers.confirmation.Replied? && PublishingRead(shown, answers.confirmation.profile).1;
      RecoverySettles(k, p.digest, own, page.controller, page.item, command, page.canAdminister, listed, answers);
      SettlingEnds(k, p.digest, own, page, shown, command, profile, answers, Replay(command));
      RestEnds(k, p.digest, own, command, t, |s.flights|, true, P.ReplayedStage(p.digest, own, command, answers.mutation), answers,
               arrived, true, second);
    } else {
      WithoutReplayHeld(k, p.digest, own, page, command, listed, answers);
    }
  }

  // Opening the page is the protocol's opening, with what it recovers.
  lemma OpeningRefines(
    p: Platform, own: Identity, page: Page, administrator: bool, listed: seq<Profile>, answers: Answers3, s: P.System)
    requires s.item == page.item && s.phase == P.Closed
    ensures var k := ChecksOf(p);
      var t := P.Next(k, p.digest, s, P.Open(own));
      match Reading(k, page.item, own)
      case Found(command) =>
        && t.item == page.item && t.phase == P.Owning(own, command, P.Recovered)
        && exists loading: Page :: loading.item == page.item && loading.canAdminister == administrator
             && Opening(p, own, page, administrator, Some(listed), answers) == RecoveringPending(p, own, loading, command, listed, answers)
      case _ => Matches(own, Opening(p, own, page, administrator, Some(listed), answers).0, t)
  {
    hide ChecksOf, Reading, RecoveringPending, PublishingRead, ChangingIdentity;
    var k := ChecksOf(p);
    match Reading(k, page.item, own) {
      case Found(command) =>
        var loading := page.(canAdminister := administrator, authority := Pending(command, false),
                             controller := ChangingIdentity(page.controller, own).0);
        assert Opening(p, own, page, administrator, Some(listed), answers) == RecoveringPending(p, own, loading, command, listed, answers);
      case _ =>
    }
  }

  // Discarding is the protocol's discard.
  lemma DiscardingRefines(p: Platform, own: Identity, page: Page, s: P.System)
    requires Matches(own, page, s)
    ensures Matches(own, Discarding(ChecksOf(p), page), P.Next(ChecksOf(p), p.digest, s, P.Discard))
  {
    if page.authority.Pending? { UnclearedUnchanged(ChecksOf(p), page.item, page.authority.command); }
    hide ChecksOf, Clearing;
  }
}
