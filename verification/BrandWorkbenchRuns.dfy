// What the page keeps between its write paths: it is frozen exactly while the
// ledger holds a record of its workspace and brand.
module BrandWorkbenchRuns {
  import opened Texts
  import opened Json
  import opened PendingCommand
  import opened PendingLedger
  import opened BrandController
  import opened BrandCoordinator
  import opened BrandRecovery
  import opened BrandWorkbench

  datatype Action =
    | Open(administrator: bool, listed: Option<seq<Profile>>, answers: Answers3)
    | Submit(input: CommandInput, baseline: Option<Profile>, answers: Answers3)
    | Discard

  function Act(p: Platform, own: Identity, page: Page, action: Action): (Page, seq<Sent>) {
    match action
    case Open(administrator, listed, answers) => Opening(p, own, page, administrator, listed, answers)
    case Submit(input, baseline, answers) =>
      if page.canAdminister && page.authority == NoAuthority then Submitting(p, own, page, input, baseline, answers)
      else (page, [])
    case Discard => (Discarding(ChecksOf(p), page), [])
  }

  function Run(p: Platform, own: Identity, page: Page, actions: seq<Action>): Page
    decreases |actions|
  {
    if actions == [] then page else Run(p, own, Act(p, own, page, actions[0]).0, actions[1..])
  }

  // A page that may write has no record; a frozen page shows the one record
  // its workspace and brand own.
  ghost predicate Mirrors(k: Checks, own: Identity, page: Page) {
    && Sound(k, page.item)
    && match page.authority
       case NoAuthority => page.canAdminister ==> Reading(k, page.item, own) == NoCommand
       case Pending(command, _) => Reading(k, page.item, own) == Found(command)
       case UnverifiableAuthority => false
  }

  // Inputs the page builds: its own workspace and brand, and plain JSON.
  ghost predicate Proper(p: Platform, own: Identity, action: Action) {
    action.Submit? ==>
      && action.input.workspaceId == own.workspaceId && action.input.brand == own.brand
      && WellFormed(CreateCommand(p, action.input))
  }

  lemma ClearingKeepsMirrors(k: Checks, own: Identity, page: Page, command: Json)
    requires Supported(k) && Sound(k, page.item) && Reading(k, page.item, own) == Found(command)
    ensures Mirrors(k, own, ClearingPending(k, page, command))
    ensures ClearingPending(k, page, command).authority == NoAuthority
  {
    ClearWhatWasRead(k, page.item, own, command);
  }

  lemma JudgedKeepsMirrors(k: Checks, own: Identity, page: Page, command: Json, verdict: Verdict)
    requires Supported(k) && Sound(k, page.item) && Reading(k, page.item, own) == Found(command)
    ensures Mirrors(k, own, Judged(k, page, command, verdict))
  {
    hide Sound, Reading, Supported, ClearingPending;
    if verdict.Remove? { ClearingKeepsMirrors(k, own, page, command); }
  }

  lemma RejectingKeepsMirrors(
    k: Checks, own: Identity, page: Page, command: Json, token: MutationToken, baseline: Option<Profile>, f: Failure, authoritative: Reply)
    requires Supported(k) && Sound(k, page.item) && Reading(k, page.item, own) == Found(command)
    ensures Mirrors(k, own, Rejecting(k, page, command, token, baseline, f, authoritative))
  {
    hide Sound, Reading, Supported, Judged, Mirrors, Reconciling;
    var closed := FailingClosed(page, f);
    if baseline.Some? && Classify(f) == DeterministicRejected(true) {
      var (after, reconciled) := AfterConflict(closed, token, baseline.value, authoritative);
      JudgedKeepsMirrors(k, own, after, command, SubmitVerdict(false, f, reconciled));
    } else {
      JudgedKeepsMirrors(k, own, closed, command, SubmitVerdict(baseline.None?, f, false));
    }
  }

  lemma AcceptingKeepsMirrors(
    k: Checks, own: Identity, page: Page, command: Json, token: MutationToken, baseline: Option<Profile>, accepted: Profile,
    answers: Answers3)
    requires Supported(k) && Sound(k, page.item) && Reading(k, page.item, own) == Found(command)
    ensures Mirrors(k, own, Accepting(k, own, page, command, token, baseline, accepted, answers).0)
  {
    hide Sound, Reading, Supported, Mirrors, PublishingMutation, Confirming, Rejecting, ClearingPending;
    var (s, published) := PublishingMutation(page.controller, token, accepted);
    var shown := page.(controller := s);
    RejectingKeepsMirrors(k, own, shown, command, token, baseline, Unreconciled(None), answers.preflight);
    var (s', outcome, _) := Confirming(own, s, accepted, token.profileKey, answers.confirmation);
    if outcome.Raised? {
      RejectingKeepsMirrors(k, own, shown.(controller := s'), command, token, baseline, outcome.failure, answers.preflight);
    }
    ClearingKeepsMirrors(k, own, shown.(controller := s'), command);
  }

  lemma CreatedIdentity(p: Platform, input: CommandInput)
    ensures IdentityOf(CreateCommand(p, input)) == Identity(input.workspaceId, input.brand)
  {
    CreatedValues(p, input);
    hide CreateCommand, Get;
  }

  lemma SubmittingKeepsMirrors(
    p: Platform, own: Identity, page: Page, input: CommandInput, baseline: Option<Profile>, answers: Answers3)
    requires ParsesJson(p.parse) && Mirrors(ChecksOf(p), own, page)
    requires page.canAdminister && page.authority == NoAuthority
    requires Proper(p, own, Submit(input, baseline, answers))
    ensures Mirrors(ChecksOf(p), own, Submitting(p, own, page, input, baseline, answers).0)
  {
    hide Sound, Reading, Supported, Saving, ChecksOf, CreateCommand, Rejecting, Accepting, BeginningMutation;
    var k, command := ChecksOf(p), CreateCommand(p, input);
    PlatformSupportsLedger(p);
    CreatedIdentity(p, input);
    SavePreservesAndReadsBack(k, page.item, command);
    var (s, token) := BeginningMutation(page.controller, MutationCommandOf(input));
    var (item, outcome) := Saving(k, page.item, command);
    if outcome == Saved {
      var saved := page.(controller := s, item := item, authority := Pending(command, false));
      match answers.mutation {
        case Raised(f) => RejectingKeepsMirrors(k, own, saved, command, token, baseline, f, answers.preflight);
        case Replied(accepted) => AcceptingKeepsMirrors(k, own, saved, command, token, baseline, accepted, answers);
      }
    } else {
      SaveRefusedChangesNothing(k, page.item, command);
    }
  }

  lemma SaveRefusedChangesNothing(k: Checks, item: Option<Text>, command: Json)
    requires Saving(k, item, command).1 != Saved
    ensures Saving(k, item, command).0 == item
  {
    hide Stored, Owned, Written;
  }

  lemma RecoveringKeepsMirrors(
    p: Platform, own: Identity, page: Page, command: Json, listed: seq<Profile>, answers: Answers3)
    requires ParsesJson(p.parse)
    requires Sound(ChecksOf(p), page.item) && Reading(ChecksOf(p), page.item, own) == Found(command)
    ensures Mirrors(ChecksOf(p), own, RecoveringPending(p, own, page, command, listed, answers).0)
  {
    hide Sound, Reading, Supported, ChecksOf, Recovering, Judged, Clearing, Classify;
    PlatformSupportsLedger(p);
    ResolvedRemovesExactly(p, own, page.controller, page.item, command, page.canAdminister, listed, answers);
    var k := ChecksOf(p);
    var r := Recovering(k, p.digest, own, page.controller, page.item, command, page.canAdminister, listed, answers);
    if r.result.Thrown? {
      var after := page.(controller := r.controller, item := r.item);
      JudgedKeepsMirrors(k, own, FailingClosed(after, r.result.failure), command, RecoveryVerdict(r.result.failure));
    }
  }

  lemma ActKeepsMirrors(p: Platform, own: Identity, page: Page, action: Action)
    requires ParsesJson(p.parse) && Proper(p, own, action)
    requires (action.Open? && Sound(ChecksOf(p), page.item)) || Mirrors(ChecksOf(p), own, page)
    ensures Mirrors(ChecksOf(p), own, Act(p, own, page, action).0)
  {
    PlatformSupportsLedger(p);
    match action {
      case Submit(input, baseline, answers) =>
        hide Submitting, Reading, Sound;
        if page.canAdminister && page.authority == NoAuthority {
          SubmittingKeepsMirrors(p, own, page, input, baseline, answers);
        }
      case Discard =>
        hide Sound, Reading, Supported, ChecksOf, ClearingPending;
        if page.authority.Pending? { ClearingKeepsMirrors(ChecksOf(p), own, page, page.authority.command); }
      case Open(administrator, listed, answers) => OpeningKeepsMirrors(p, own, page, administrator, listed, answers);
    }
  }

  lemma OpeningKeepsMirrors(
    p: Platform, own: Identity, page: Page, administrator: bool, listed: Option<seq<Profile>>, answers: Answers3)
    requires ParsesJson(p.parse) && Sound(ChecksOf(p), page.item)
    ensures Mirrors(ChecksOf(p), own, Opening(p, own, page, administrator, listed, answers).0)
  {
    hide RecoveringPending, Reading, Sound, ChecksOf, PublishingRead, ChangingIdentity;
    SoundIsNotBlocked(p, page.item, own);
    var loading := page.(canAdminister := listed.Some? && administrator, authority := NoAuthority,
                        controller := ChangingIdentity(page.controller, own).0);
    var reading := Reading(ChecksOf(p), page.item, own);
    if listed.Some? && reading.Found? {
      RecoveringKeepsMirrors(p, own, loading.(authority := Pending(reading.command, false)), reading.command, listed.value, answers);
    }
  }

  lemma SoundIsNotBlocked(p: Platform, item: Option<Text>, identity: Identity)
    requires ParsesJson(p.parse) && Sound(ChecksOf(p), item)
    ensures !Reading(ChecksOf(p), item, identity).Blocked?
  {
    var k := ChecksOf(p);
    PlatformSupportsLedger(p);
    var commands :| item == Written(commands) && AllVerified(k, commands) && OwnersDistinct(commands);
    hide ChecksOf, Written, Supported, AllVerified, OwnersDistinct;
    ReadingWritten(k, commands, identity);
    OwnedAtMostOne(commands, identity);
  }

  // From a sound ledger, after loading the page and any submissions, reloads
  // and discards with any answers: the page is frozen exactly while the ledger
  // holds its record.
  lemma {:induction false} EveryRunMirrors(p: Platform, own: Identity, page: Page, actions: seq<Action>)
    requires ParsesJson(p.parse)
    requires forall i :: 0 <= i < |actions| ==> Proper(p, own, actions[i])
    requires (actions != [] && actions[0].Open? && Sound(ChecksOf(p), page.item)) || Mirrors(ChecksOf(p), own, page)
    ensures Mirrors(ChecksOf(p), own, Run(p, own, page, actions))
    decreases |actions|
  {
    hide Act, Mirrors, Sound, ChecksOf, Proper;
    if actions != [] {
      ActKeepsMirrors(p, own, page, actions[0]);
      EveryRunMirrors(p, own, Act(p, own, page, actions[0]).0, actions[1..]);
    }
  }
}
