// The write paths of apps/web/app/use-brand-profile-workbench.ts: submitting a
// command, recovering the persisted one when the page loads, and discarding it
// explicitly.
module BrandWorkbench {
  import opened Texts
  import opened Json
  import opened PendingCommand
  import opened PendingLedger
  import opened BrandController
  import opened BrandCoordinator

  // pendingAuthority: anything but NoAuthority freezes the page's writes.
  datatype Authority = NoAuthority | Pending(command: Json, discardAllowed: bool) | UnverifiableAuthority

  datatype Page = Page(authority: Authority, canAdminister: bool, controller: State, item: Option<Text>)

  // What a failure leaves of the record it is about.
  datatype Verdict = Remove | Hold(discardAllowed: bool)

  // A submitted command's failure; reconciled tells whether the authoritative
  // profile could be shown after a version conflict of an existing profile.
  function SubmitVerdict(create: bool, f: Failure, reconciled: bool): Verdict {
    match Classify(f)
    case DeterministicRejected(explicit) => if !explicit then Remove else Hold(create || reconciled)
    case _ => Hold(false)
  }

  function RecoveryVerdict(f: Failure): Verdict {
    match Classify(f)
    case DeterministicRejected(explicit) => if !explicit then Remove else Hold(true)
    case _ => Hold(false)
  }

  // ----------------------------------------------------------- specification

  function FailingClosed(page: Page, f: Failure): Page {
    if IsAuthorityLoss(f) then page.(canAdminister := false, controller := InvalidatingValidation(page.controller)) else page
  }

  function ClearingPending(k: Checks, page: Page, command: Json): Page {
    var (item', outcome) := Clearing(k, page.item, command);
    page.(item := item', authority := if outcome == Cleared then NoAuthority else Pending(command, false))
  }

  function Judged(k: Checks, page: Page, command: Json, verdict: Verdict): Page {
    match verdict
    case Remove => ClearingPending(k, page, command)
    case Hold(discardAllowed) => page.(authority := Pending(command, discardAllowed))
  }

  // reconcileExplicitDiscardConflict.
  function Reconciling(s: State, token: MutationToken, baseline: Profile, authoritative: Reply): (State, Option<Failure>) {
    match authoritative
    case Raised(f) => (s, Some(Unreconciled(Some(f))))
    case Replied(p) =>
      var (s', reconciled) :=
        if p.version > baseline.version then RecordingConflict(s, token, p)
        else if p.version == baseline.version then
          var (t, read) := BeginningProfileRead(s, p.id);
          PublishingProfile(t, read, p, false)
        else (s, false);
      (s', if reconciled then None else Some(Unreconciled(None)))
  }

  // The catch block of the three write paths; no baseline for a create.
  function Rejecting(
    k: Checks, page: Page, command: Json, token: MutationToken, baseline: Option<Profile>, f: Failure, authoritative: Reply): Page
  {
    var closed := FailingClosed(page, f);
    if baseline.Some? && Classify(f) == DeterministicRejected(true) then
      var (after, reconciled) := AfterConflict(closed, token, baseline.value, authoritative);
      Judged(k, after, command, SubmitVerdict(false, f, reconciled))
    else Judged(k, closed, command, SubmitVerdict(baseline.None?, f, false))
  }

  function AfterConflict(page: Page, token: MutationToken, baseline: Profile, authoritative: Reply): (Page, bool) {
    var (s, failure) := Reconciling(page.controller, token, baseline, authoritative);
    var after := page.(controller := s);
    (if failure.Some? then FailingClosed(after, failure.value) else after, failure.None?)
  }

  function MutationCommandOf(input: CommandInput): MutationCommand {
    MutationCommand(input.profileId, input.profileKey, input.expectedVersion, input.attemptedDraft)
  }

  // createProfile, updateDraft and publishProfile, after their guards.
  function Submitting(
    p: Platform, own: Identity, page: Page, input: CommandInput, baseline: Option<Profile>, answers: Answers3)
    : (Page, seq<Sent>)
  {
    var k, command := ChecksOf(p), CreateCommand(p, input);
    var (s, token) := BeginningMutation(page.controller, MutationCommandOf(input));
    var (item, outcome) := Saving(k, page.item, command);
    if outcome != Saved then (page.(controller := s, item := item), [])
    else
      var saved := page.(controller := s, item := item, authority := Pending(command, false));
      match answers.mutation
      case Raised(f) => (Rejecting(k, saved, command, token, baseline, f, answers.preflight), [Mutate(RequestOf(command))])
      case Replied(accepted) => Accepting(k, own, saved, command, token, baseline, accepted, answers)
  }

  // A submitted command's answer: publish it, confirm it, remove the record.
  function Accepting(
    k: Checks, own: Identity, page: Page, command: Json, token: MutationToken, baseline: Option<Profile>, accepted: Profile,
    answers: Answers3): (Page, seq<Sent>)
  {
    var sent := [Mutate(RequestOf(command))];
    var (s, published) := PublishingMutation(page.controller, token, accepted);
    var shown := page.(controller := s);
    if !published then (Rejecting(k, shown, command, token, baseline, Unreconciled(None), answers.preflight), sent)
    else
      match Confirming(own, s, accepted, token.profileKey, answers.confirmation)
      case (s', Raised(f), more) =>
        (Rejecting(k, shown.(controller := s'), command, token, baseline, f, answers.preflight), sent + more)
      case (s', Replied(_), more) => (ClearingPending(k, shown.(controller := s'), command), sent + more)
  }

  function RecoveringPending(
    p: Platform, own: Identity, page: Page, command: Json, listed: seq<Profile>, answers: Answers3): (Page, seq<Sent>)
  {
    var k := ChecksOf(p);
    var r := Recovering(k, p.digest, own, page.controller, page.item, command, page.canAdminister, listed, answers);
    var after := page.(controller := r.controller, item := r.item);
    var page' :=
      match r.result
      case Resolved(_) => after.(authority := NoAuthority)
      case Retained(_) => after.(authority := Pending(command, false))
      case Conflicted(_, _) => after.(authority := Pending(command, true))
      case Thrown(f) => Judged(k, FailingClosed(after, f), command, RecoveryVerdict(f));
    (page', r.sent)
  }

  // Loading the page of a workspace and brand; without a list of profiles
  // nothing is administered.
  function Opening(
    p: Platform, own: Identity, page: Page, administrator: bool, listed: Option<seq<Profile>>, answers: Answers3)
    : (Page, seq<Sent>)
  {
    var loading := page.(canAdminister := listed.Some? && administrator, authority := NoAuthority,
                         controller := ChangingIdentity(page.controller, own).0);
    if listed.None? then (loading, [])
    else
      match Reading(ChecksOf(p), page.item, own)
      case Blocked(_) => (Activating(loading.(authority := UnverifiableAuthority), listed.value), [])
      case NoCommand => (Activating(loading, listed.value), [])
      case Found(command) =>
        RecoveringPending(p, own, loading.(authority := Pending(command, false)), command, listed.value, answers)
  }

  // activateProfile of the first listed profile.
  function Activating(page: Page, listed: seq<Profile>): Page {
    if listed == [] then page else page.(controller := PublishingRead(page.controller, listed[0]).0)
  }

  function Discarding(k: Checks, page: Page): Page {
    if page.authority.Pending? && page.authority.discardAllowed then ClearingPending(k, page, page.authority.command)
    else page
  }

  // ------------------------------------------------------- submitted answers

  // What publishMutation demands of an answer, in terms of the record.
  predicate SubmissionAnswered(own: Identity, command: Json, p: Profile) {
    && InContext(own, p, TextOf(command, PROFILE_KEY))
    && p.version == NumberOf(command, EXPECTED_VERSION) + 1
    && DraftsEqual(p.draft, CloneDraft(Value(command, ATTEMPTED_DRAFT)))
    && (Get(command, PROFILE_ID) == Some(Null) || p.id == TextOf(command, PROFILE_ID))
  }

  // An answer the controller publishes for a submitted command answers its
  // record: profile, next version and draft.
  lemma PublishedAnswersRecord(p: Platform, own: Identity, s: State, input: CommandInput, accepted: Profile)
    requires s.snapshot.identity == own
    requires var (s', token) := BeginningMutation(s, MutationCommandOf(input)); PublishingMutation(s', token, accepted).1
    ensures SubmissionAnswered(own, CreateCommand(p, input), accepted)
  {
    hide CreateCommand, Get, CloneDraft, DraftsEqual;
    CreatedValues(p, input);
  }

  // ------------------------------------------------------------- the page

  class Workbench {
    const platform: Platform
    const own: Identity
    const ledger: Ledger
    const controller: Controller
    const coordinator: Coordinator
    var authority: Authority
    var canAdminister: bool

    ghost predicate Wired()
      reads this
    {
      && ledger.checks == ChecksOf(platform)
      && coordinator.ledger == ledger && coordinator.controller == controller
      && coordinator.own == own && coordinator.digest == platform.digest
    }

    function Now(): Page
      reads this, ledger, controller
    {
      Page(authority, canAdminister, controller.Now(), ledger.item)
    }

    constructor (platform: Platform, own: Identity, ledger: Ledger)
      requires ledger.checks == ChecksOf(platform)
      ensures Wired() && this.platform == platform && this.own == own && this.ledger == ledger
      ensures fresh(controller) && fresh(coordinator)
      ensures Now() == Page(NoAuthority, false, State(InitialSnapshot(own, 1), 0, 0, 0, 0, 0), ledger.item)
    {
      var controller0 := new Controller(own);
      this.platform, this.own, this.ledger := platform, own, ledger;
      this.controller := controller0;
      this.coordinator := new Coordinator(platform.digest, own, ledger, controller0);
      authority, canAdminister := NoAuthority, false;
    }

    method FailClosedOnAuthorityLoss(failure: Failure)
      requires Wired()
      modifies this, controller
      ensures Wired() && Now() == FailingClosed(old(Now()), failure)
    {
      if IsAuthorityLoss(failure) {
        canAdminister := false;
        controller.InvalidateValidation();
      }
    }

    method ClearPending(command: Json) returns (cleared: bool)
      requires Wired()
      modifies this, ledger
      ensures Wired() && Now() == ClearingPending(ledger.checks, old(Now()), command)
      ensures cleared <==> Clearing(ledger.checks, old(ledger.item), command).1 == Cleared
    {
      var outcome := ledger.Clear(command);
      if outcome == Cleared {
        authority := NoAuthority;
        return true;
      }
      authority := Pending(command, false);
      return false;
    }

    method ReconcileExplicitDiscardConflict(baseline: Profile, command: Json, token: MutationToken, authoritative: Reply)
      returns (failure: Option<Failure>)
      requires Wired()
      modifies this, controller
      ensures Wired() && (controller.Now(), failure) == Reconciling(old(controller.Now()), token, baseline, authoritative)
      ensures authority == Pending(command, failure.None?) && canAdminister == old(canAdminister)
    {
      authority := Pending(command, false);
      if authoritative.Raised? {
        return Some(Unreconciled(Some(authoritative.failure)));
      }
      var profile := authoritative.profile;
      var reconciled := false;
      if profile.version > baseline.version {
        reconciled := controller.RecordVersionConflict(token, profile);
      } else if profile.version == baseline.version {
        var read := controller.BeginProfileRead(profile.id);
        reconciled := controller.PublishProfile(read, profile, false);
      }
      if !reconciled {
        return Some(Unreconciled(None));
      }
      authority := Pending(command, true);
      return None;
    }

    method RejectConflict(command: Json, token: MutationToken, baseline: Profile, authoritative: Reply)
      requires Wired()
      modifies this, controller
      ensures Wired()
      ensures var (after, reconciled) := AfterConflict(old(Now()), token, baseline, authoritative);
        Now() == after.(authority := Pending(command, reconciled))
    {
      hide Reconciling, IsAuthorityLoss, InvalidatingValidation;
      var secondary := ReconcileExplicitDiscardConflict(baseline, command, token, authoritative);
      if secondary.Some? {
        FailClosedOnAuthorityLoss(secondary.value);
        authority := Pending(command, false);
      }
    }

    method Reject(command: Json, token: MutationToken, baseline: Option<Profile>, failure: Failure, authoritative: Reply)
      requires Wired()
      modifies this, ledger, controller
      ensures Wired()
      ensures Now() == Rejecting(ledger.checks, old(Now()), command, token, baseline, failure, authoritative)
    {
      hide ClearingPending, AfterConflict, FailingClosed, Classify;
      FailClosedOnAuthorityLoss(failure);
      if baseline.Some? && Classify(failure) == DeterministicRejected(true) {
        RejectConflict(command, token, baseline.value, authoritative);
        return;
      }
      Judge(command, SubmitVerdict(baseline.None?, failure, false));
    }

    method Judge(command: Json, verdict: Verdict)
      requires Wired()
      modifies this, ledger
      ensures Wired() && Now() == Judged(ledger.checks, old(Now()), command, verdict)
    {
      match verdict {
        case Remove => var _ := ClearPending(command);
        case Hold(discardAllowed) => authority := Pending(command, discardAllowed);
      }
    }

    method Submit(input: CommandInput, baseline: Option<Profile>, answers: Answers3) returns (sent: seq<Sent>)
      requires Wired()
      modifies this, ledger, controller
      ensures Wired()
      ensures if old(canAdminister) && old(authority) == NoAuthority
              then (Now(), sent) == Submitting(platform, own, old(Now()), input, baseline, answers)
              else Now() == old(Now()) && sent == []
    {
      if !canAdminister || authority != NoAuthority {
        return [];
      }
      hide Submitting;
      sent := PersistAndSend(input, baseline, answers);
    }

    method PersistAndSend(input: CommandInput, baseline: Option<Profile>, answers: Answers3) returns (sent: seq<Sent>)
      requires Wired() && authority == NoAuthority
      modifies this, ledger, controller
      ensures Wired()
      ensures (Now(), sent) == Submitting(platform, own, old(Now()), input, baseline, answers)
    {
      hide CloneDraft, DraftsEqual, Saving, Rejecting, Accepting, CreateCommand, RequestOf;
      var token := controller.BeginMutation(MutationCommandOf(input));
      var command := CreateCommand(platform, input);
      var outcome := ledger.Save(command);
      if outcome != Saved {
        return [];
      }
      authority := Pending(command, false);
      if answers.mutation.Raised? {
        Reject(command, token, baseline, answers.mutation.failure, answers.preflight);
        return [Mutate(RequestOf(command))];
      }
      sent := Accept(command, token, baseline, answers.mutation.profile, answers);
    }

    method Accept(command: Json, token: MutationToken, baseline: Option<Profile>, accepted: Profile, answers: Answers3)
      returns (sent: seq<Sent>)
      requires Wired()
      modifies this, ledger, controller
      ensures Wired()
      ensures (Now(), sent)
           == Accepting(ledger.checks, own, old(Now()), command, token, baseline, accepted, answers)
    {
      hide Clearing, PublishingMutation, Rejecting, Confirming, RequestOf;
      sent := [Mutate(RequestOf(command))];
      var published := controller.PublishMutation(token, accepted);
      if !published {
        Reject(command, token, baseline, Unreconciled(None), answers.preflight);
        return;
      }
      var outcome, more := coordinator.ConfirmAcceptedMutation(accepted, token.profileKey, answers.confirmation);
      sent := sent + more;
      if outcome.Raised? {
        Reject(command, token, baseline, outcome.failure, answers.preflight);
        return;
      }
      var _ := ClearPending(command);
    }

    method RecoverPending(command: Json, listed: seq<Profile>, answers: Answers3) returns (sent: seq<Sent>)
      requires Wired()
      modifies this, ledger, controller
      ensures Wired()
      ensures (Now(), sent) == RecoveringPending(platform, own, old(Now()), command, listed, answers)
    {
      hide Recovering, Judged, FailingClosed, Classify;
      var result;
      result, sent := coordinator.Recover(command, canAdminister, listed, answers);
      match result {
        case Resolved(_) => authority := NoAuthority;
        case Retained(_) => authority := Pending(command, false);
        case Conflicted(_, _) => authority := Pending(command, true);
        case Thrown(failure) =>
          FailClosedOnAuthorityLoss(failure);
          Judge(command, RecoveryVerdict(failure));
      }
    }

    method Open(administrator: bool, listed: Option<seq<Profile>>, answers: Answers3) returns (sent: seq<Sent>)
      requires Wired()
      modifies this, ledger, controller
      ensures Wired()
      ensures (Now(), sent) == Opening(platform, own, old(Now()), administrator, listed, answers)
    {
      hide RecoveringPending, PublishingProfile, Reading, BeginningProfileRead, ChangingIdentity;
      var _ := controller.ChangeIdentity(own);
      canAdminister, authority := false, NoAuthority;
      if listed.None? {
        return [];
      }
      canAdminister := administrator;
      var pending := ledger.Read(own);
      if pending.Found? {
        authority := Pending(pending.command, false);
        sent := RecoverPending(pending.command, listed.value, answers);
        return;
      }
      if pending.Blocked? {
        authority := UnverifiableAuthority;
      }
      if listed.value != [] {
        var token := controller.BeginProfileRead(listed.value[0].id);
        var _ := controller.PublishProfile(token, listed.value[0], true);
      }
      return [];
    }

    method DiscardPendingAuthority()
      requires Wired()
      modifies this, ledger
      ensures Wired() && Now() == Discarding(ledger.checks, old(Now()))
    {
      if !authority.Pending? || !authority.discardAllowed {
        return;
      }
      var _ := ClearPending(authority.command);
    }
  }
}
