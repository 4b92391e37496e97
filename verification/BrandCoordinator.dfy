// BrandProfileCommandCoordinator of
// apps/web/lib/brand-profile-command-coordinator.ts: replaying a persisted
// command under its own idempotency key until its outcome is known.
//
// What the server answers is a parameter; the requests sent are a result.
module BrandCoordinator {
  import opened Texts
  import opened Json
  import opened CanonicalJson
  import opened PendingCommand
  import opened PendingLedger
  import opened BrandController

  // ---------------------------------------------------------------- failures

  // Cancelled and Refused are the API client's errors (Refused also stands
  // for the 502, 503 and 504 the client makes up when there is no answer),
  // Unreconciled the coordinator's own, with what caused it; Other is any
  // other exception.
  datatype Failure =
    | Cancelled
    | Refused(status: int, retryable: bool)
    | Unreconciled(cause: Option<Failure>)
    | Other

  datatype Reply = Replied(profile: Profile) | Raised(failure: Failure)

  datatype Classification =
    | Uncertain
    | DeterministicRejected(requiresExplicitDiscard: bool)
    | LocalReconciliationFailure

  predicate IsUncertain(f: Failure) {
    f.Cancelled? || (f.Refused? && (f.retryable || f.status == 408 || f.status == 429 || f.status >= 500))
  }

  function Classify(f: Failure): Classification {
    if f.Unreconciled? then LocalReconciliationFailure
    else if IsUncertain(f) then Uncertain
    else if f.Refused? then DeterministicRejected(f.status == 409)
    else LocalReconciliationFailure
  }

  predicate IsReplayConflict(f: Failure) { f.Refused? && f.status == 409 }

  predicate IsAuthorityOrIdentityFailure(f: Failure) { f.Refused? && f.status in {401, 403, 404} }

  predicate IsAuthorityLoss(f: Failure) {
    (f.Refused? && f.status in {401, 403}) || (f.Unreconciled? && f.cause.Some? && IsAuthorityLoss(f.cause.value))
  }

  // ---------------------------------------------------------------- requests

  // One keyed write: POST of a new profile (no target), PUT of a draft, or
  // publication of a profile.
  datatype Request = Request(key: Text, action: Json, target: Json, payload: Json)

  datatype Sent = Fetch(profileId: Text) | Mutate(request: Request)

  function RequestOf(command: Json): Request {
    Request(TextOf(command, IDEMPOTENCY_KEY), Value(command, ACTION), Value(command, PROFILE_ID), Value(command, PAYLOAD))
  }

  predicate HasAction(command: Json, action: Text) {
    Get(command, ACTION) == Some(Str(action))
  }

  function NumberOf(v: Json, key: Text): int {
    var n := Value(v, key); if n.Num? then n.n else 0
  }

  // ------------------------------------------------------- accepted answers

  function VersionedDraft(version: int, draft: Json): Json {
    Obj([Entry(EXPECTED_VERSION, Num(version)), Entry(DRAFT, draft)])
  }

  function CreatePayload(p: Profile): Json {
    Obj([Entry(BRAND, Str(p.brand)), Entry(PROFILE_KEY, Str(p.profileKey)), Entry(DRAFT, p.draft)])
  }

  predicate PayloadMatches(digest: Text -> Text, command: Json, payload: Json) {
    Get(command, PAYLOAD_SHA256) == Some(Str(Fingerprint(digest, payload)))
  }

  predicate DraftsMatch(digest: Text -> Text, version: int, first: Json, second: Json) {
    Fingerprint(digest, VersionedDraft(version, first)) == Fingerprint(digest, VersionedDraft(version, second))
  }

  predicate InContext(own: Identity, p: Profile, profileKey: Text) {
    p.workspaceId == own.workspaceId && p.brand == own.brand && p.profileKey == profileKey
  }

  // The answer the command asked for: the next version, of its own profile,
  // with the attempted draft.
  predicate Answers(digest: Text -> Text, own: Identity, command: Json, p: Profile) {
    var version := NumberOf(command, EXPECTED_VERSION);
    if HasAction(command, CREATE) then
      p.version == 1 && PayloadMatches(digest, command, CreatePayload(p))
    else
      && p.version == version + 1
      && InContext(own, p, TextOf(command, PROFILE_KEY))
      && if HasAction(command, UPDATE_DRAFT) then
           PayloadMatches(digest, command, VersionedDraft(version, p.draft))
         else
           && p.currentVersionNumber == NumberOf(command, EXPECTED_PUBLICATION_VERSION) + 1
           && DraftsMatch(digest, version, p.draft, Value(command, ATTEMPTED_DRAFT))
  }

  // The current head confirms an accepted answer.
  predicate Confirms(own: Identity, accepted: Profile, current: Profile, profileKey: Text) {
    current.id == accepted.id && InContext(own, current, profileKey) && accepted.version <= current.version
  }

  // ----------------------------------------------------------- specification

  datatype Result =
    | Resolved(head: Profile)
    | Retained(shown: Option<Profile>)
    | Conflicted(shown: Option<Profile>, creationConflict: bool)  // may be discarded explicitly
    | Thrown(failure: Failure)

  datatype Recovery = Recovery(result: Result, controller: State, item: Option<Text>, sent: seq<Sent>)

  datatype Answers3 = Answers3(preflight: Reply, mutation: Reply, confirmation: Reply)

  function PublishingRead(s: State, p: Profile): (State, bool) {
    var (s', token) := BeginningProfileRead(s, p.id);
    PublishingProfile(s', token, p, true)
  }

  function Confirming(own: Identity, s: State, accepted: Profile, profileKey: Text, confirmation: Reply)
    : (State, Reply, seq<Sent>)
  {
    if !InContext(own, accepted, profileKey) then (s, Raised(Unreconciled(None)), [])
    else
      var sent := [Fetch(accepted.id)];
      match confirmation
      case Raised(f) => (s, Raised(Unreconciled(Some(f))), sent)
      case Replied(current) =>
        if !Confirms(own, accepted, current, profileKey) then (s, Raised(Unreconciled(None)), sent)
        else
          var (s', published) := PublishingRead(s, current);
          (s', if published then Replied(current) else Raised(Unreconciled(None)), sent)
  }

  function Resolving(k: Checks, item: Option<Text>, command: Json, current: Profile): (Option<Text>, Result) {
    match Clearing(k, item, command)
    case (item', Cleared) => (item', Resolved(current))
    case (item', NotFound) => (item', Thrown(Unreconciled(None)))
    case (item', ClearBlocked(_)) => (item', Thrown(Other))
  }

  function ConfirmingAndResolving(
    k: Checks, own: Identity, s: State, item: Option<Text>, command: Json, accepted: Profile, confirmation: Reply,
    sent: seq<Sent>): Recovery
  {
    match Confirming(own, s, accepted, TextOf(command, PROFILE_KEY), confirmation)
    case (s', Raised(f), more) => Recovery(Thrown(f), s', item, sent + more)
    case (s', Replied(current), more) =>
      var (item', result) := Resolving(k, item, command, current);
      Recovery(result, s', item', sent + more)
  }

  // What a replayed mutation's answer leads to; shown is the profile on screen.
  function Settling(
    k: Checks, digest: Text -> Text, own: Identity, s: State, item: Option<Text>, command: Json,
    shown: Option<Profile>, mutation: Reply, confirmation: Reply, sent: seq<Sent>): Recovery
  {
    match mutation
    case Raised(f) =>
      if IsAuthorityOrIdentityFailure(f) then Recovery(Thrown(Unreconciled(Some(f))), s, item, sent)
      else if !IsReplayConflict(f) then Recovery(Thrown(f), s, item, sent)
      else if HasAction(command, CREATE) then Recovery(Conflicted(shown, true), s, item, sent)
      else Recovery(Conflicted(shown, false), EditingDraft(s, Value(command, ATTEMPTED_DRAFT)), item, sent)
    case Replied(p) =>
      if !Answers(digest, own, command, p) then Recovery(Conflicted(shown, false), s, item, sent)
      else ConfirmingAndResolving(k, own, s, item, command, p, confirmation, sent)
  }

  function FirstWithKey(listed: seq<Profile>, profileKey: Text): Option<Profile> {
    if listed == [] then None
    else if listed[0].profileKey == profileKey then Some(listed[0])
    else FirstWithKey(listed[1..], profileKey)
  }

  function Fallback(listed: seq<Profile>, profileKey: Text): Option<Profile> {
    if FirstWithKey(listed, profileKey).Some? then FirstWithKey(listed, profileKey)
    else if listed != [] then Some(listed[0])
    else None
  }

  function RecoveringCreate(
    k: Checks, digest: Text -> Text, own: Identity, s: State, item: Option<Text>, command: Json,
    administrator: bool, listed: seq<Profile>, answers: Answers3): Recovery
  {
    var shown := Fallback(listed, TextOf(command, PROFILE_KEY));
    var (s', published) := if shown.Some? then PublishingRead(s, shown.value) else (s, true);
    if !published then Recovery(Thrown(Unreconciled(None)), s', item, [])
    else if !administrator then Recovery(Retained(shown), s', item, [])
    else
      var request := Request(TextOf(command, IDEMPOTENCY_KEY), Str(CREATE), Null, Value(command, PAYLOAD));
      Settling(k, digest, own, s', item, command, shown, answers.mutation, answers.confirmation, [Mutate(request)])
  }

  function RecoveringExisting(
    k: Checks, digest: Text -> Text, own: Identity, s: State, item: Option<Text>, command: Json,
    administrator: bool, answers: Answers3): Recovery
  {
    if !IsText(Get(command, PROFILE_ID)) || TextOf(command, PROFILE_ID) == [] then Recovery(Thrown(Other), s, item, [])
    else
      var profileId := TextOf(command, PROFILE_ID);
      match answers.preflight
      case Raised(f) => Recovery(Thrown(Unreconciled(Some(f))), s, item, [Fetch(profileId)])
      case Replied(p) =>
        if p.id != profileId || !InContext(own, p, TextOf(command, PROFILE_KEY)) then
          Recovery(Thrown(Unreconciled(None)), s, item, [Fetch(profileId)])
        else
          var (s', published) := PublishingRead(s, p);
          if !published then Recovery(Thrown(Unreconciled(None)), s', item, [Fetch(profileId)])
          else if !administrator then Recovery(Retained(Some(p)), s', item, [Fetch(profileId)])
          else
            var action := if HasAction(command, UPDATE_DRAFT) then UPDATE_DRAFT else PUBLISH;
            var request := Request(TextOf(command, IDEMPOTENCY_KEY), Str(action), Str(p.id), Value(command, PAYLOAD));
            Settling(k, digest, own, s', item, command, Some(p), answers.mutation, answers.confirmation,
                     [Fetch(profileId)] + [Mutate(request)])
  }

  function Recovering(
    k: Checks, digest: Text -> Text, own: Identity, s: State, item: Option<Text>, command: Json,
    administrator: bool, listed: seq<Profile>, answers: Answers3): Recovery
  {
    if HasAction(command, CREATE) then
      RecoveringCreate(k, digest, own, s, item, command, administrator, listed, answers)
    else
      RecoveringExisting(k, digest, own, s, item, command, administrator, answers)
  }

  // --------------------------------------------------------- the coordinator

  class Coordinator {
    const digest: Text -> Text
    const own: Identity
    const ledger: Ledger
    const controller: Controller

    constructor (digest: Text -> Text, own: Identity, ledger: Ledger, controller: Controller)
      ensures this.digest == digest && this.own == own && this.ledger == ledger && this.controller == controller
    {
      this.digest, this.own, this.ledger, this.controller := digest, own, ledger, controller;
    }

    method PublishRead(profile: Profile) returns (published: bool)
      modifies controller
      ensures (controller.Now(), published) == PublishingRead(old(controller.Now()), profile)
    {
      var token := controller.BeginProfileRead(profile.id);
      published := controller.PublishProfile(token, profile, true);
    }

    method ConfirmAcceptedMutation(accepted: Profile, profileKey: Text, confirmation: Reply)
      returns (outcome: Reply, sent: seq<Sent>)
      modifies controller
      ensures (controller.Now(), outcome, sent)
           == Confirming(own, old(controller.Now()), accepted, profileKey, confirmation)
    {
      if accepted.workspaceId != own.workspaceId || accepted.brand != own.brand || accepted.profileKey != profileKey {
        return Raised(Unreconciled(None)), [];
      }
      sent := [Fetch(accepted.id)];
      if confirmation.Raised? {
        return Raised(Unreconciled(Some(confirmation.failure))), sent;
      }
      var current := confirmation.profile;
      if current.id != accepted.id || current.workspaceId != own.workspaceId || current.brand != own.brand
        || current.profileKey != profileKey || current.version < accepted.version
      {
        return Raised(Unreconciled(None)), sent;
      }
      var published := PublishRead(current);
      if !published {
        return Raised(Unreconciled(None)), sent;
      }
      return Replied(current), sent;
    }

    method Resolve(command: Json, current: Profile) returns (result: Result)
      modifies ledger
      ensures (ledger.item, result) == Resolving(ledger.checks, old(ledger.item), command, current)
    {
      var outcome := ledger.Clear(command);
      match outcome {
        case Cleared => return Resolved(current);
        case NotFound => return Thrown(Unreconciled(None));
        case ClearBlocked(_) => return Thrown(Other);
      }
    }

    method ConfirmAndResolve(command: Json, accepted: Profile, confirmation: Reply, sentBefore: seq<Sent>)
      returns (result: Result, sent: seq<Sent>)
      modifies ledger, controller
      ensures Recovery(result, controller.Now(), ledger.item, sent)
           == ConfirmingAndResolving(ledger.checks, own, old(controller.Now()), old(ledger.item), command, accepted,
                                     confirmation, sentBefore)
    {
      var outcome, more := ConfirmAcceptedMutation(accepted, TextOf(command, PROFILE_KEY), confirmation);
      sent := sentBefore + more;
      if outcome.Raised? {
        return Thrown(outcome.failure), sent;
      }
      result := Resolve(command, outcome.profile);
    }

    method RecoverCreate(command: Json, administrator: bool, listed: seq<Profile>, answers: Answers3)
      returns (result: Result, sent: seq<Sent>)
      requires HasAction(command, CREATE)
      modifies ledger, controller
      ensures Recovery(result, controller.Now(), ledger.item, sent)
           == RecoveringCreate(ledger.checks, digest, own, old(controller.Now()), old(ledger.item), command, administrator,
                               listed, answers)
    {
      hide ConfirmingAndResolving, PublishingRead, Fingerprint, TextOf, Value;
      var existing := FirstWithKey(listed, TextOf(command, PROFILE_KEY));
      var fallback := if existing.Some? then existing else if listed != [] then Some(listed[0]) else None;
      if fallback.Some? {
        var published := PublishRead(fallback.value);
        if !published { return Thrown(Unreconciled(None)), []; }
      }
      if !administrator { return Retained(fallback), []; }
      sent := [Mutate(Request(TextOf(command, IDEMPOTENCY_KEY), Str(CREATE), Null, Value(command, PAYLOAD)))];
      if answers.mutation.Raised? {
        var failure := answers.mutation.failure;
        if IsAuthorityOrIdentityFailure(failure) { return Thrown(Unreconciled(Some(failure))), sent; }
        if !IsReplayConflict(failure) { return Thrown(failure), sent; }
        return Conflicted(fallback, true), sent;
      }
      var created := answers.mutation.profile;
      if created.version != 1 || !PayloadMatches(digest, command, CreatePayload(created)) {
        return Conflicted(fallback, false), sent;
      }
      result, sent := ConfirmAndResolve(command, created, answers.confirmation, sent);
    }

    method RecoverExisting(command: Json, administrator: bool, answers: Answers3) returns (result: Result, sent: seq<Sent>)
      requires !HasAction(command, CREATE)
      modifies ledger, controller
      ensures Recovery(result, controller.Now(), ledger.item, sent)
           == RecoveringExisting(ledger.checks, digest, own, old(controller.Now()), old(ledger.item), command,
                                 administrator, answers)
    {
      hide Settling, PublishingRead, TextOf, Value;
      var profileId := TextOf(command, PROFILE_ID);
      if !IsText(Get(command, PROFILE_ID)) || profileId == [] { return Thrown(Other), []; }
      sent := [Fetch(profileId)];
      if answers.preflight.Raised? { return Thrown(Unreconciled(Some(answers.preflight.failure))), sent; }
      var authoritative := answers.preflight.profile;
      if authoritative.id != profileId || authoritative.workspaceId != own.workspaceId
        || authoritative.brand != own.brand || authoritative.profileKey != TextOf(command, PROFILE_KEY)
      {
        return Thrown(Unreconciled(None)), sent;
      }
      var published := PublishRead(authoritative);
      if !published { return Thrown(Unreconciled(None)), sent; }
      if !administrator { return Retained(Some(authoritative)), sent; }
      if HasAction(command, UPDATE_DRAFT) {
        result, sent := RecoverUpdate(command, authoritative, answers, sent);
      } else {
        result, sent := RecoverPublish(command, authoritative, answers, sent);
      }
    }

    method RecoverUpdate(command: Json, authoritative: Profile, answers: Answers3, sentBefore: seq<Sent>)
      returns (result: Result, sent: seq<Sent>)
      requires HasAction(command, UPDATE_DRAFT)
      modifies ledger, controller
      ensures var request :=
          Request(TextOf(command, IDEMPOTENCY_KEY), Str(UPDATE_DRAFT), Str(authoritative.id), Value(command, PAYLOAD));
        Recovery(result, controller.Now(), ledger.item, sent)
          == Settling(ledger.checks, digest, own, old(controller.Now()), old(ledger.item), command, Some(authoritative),
                      answers.mutation, answers.confirmation, sentBefore + [Mutate(request)])
    {
      hide ConfirmingAndResolving, EditingDraft, Fingerprint, TextOf, Value;
      sent := sentBefore + [Mutate(Request(TextOf(command, IDEMPOTENCY_KEY), Str(UPDATE_DRAFT), Str(authoritative.id),
                                           Value(command, PAYLOAD)))];
      assert UPDATE_DRAFT[0] != CREATE[0];
      if answers.mutation.Raised? {
        var failure := answers.mutation.failure;
        if IsAuthorityOrIdentityFailure(failure) { return Thrown(Unreconciled(Some(failure))), sent; }
        if !IsReplayConflict(failure) { return Thrown(failure), sent; }
        controller.EditDraft(Value(command, ATTEMPTED_DRAFT));
        return Conflicted(Some(authoritative), false), sent;
      }
      var updated := answers.mutation.profile;
      if updated.version != NumberOf(command, EXPECTED_VERSION) + 1 || updated.workspaceId != own.workspaceId
        || updated.brand != own.brand || updated.profileKey != TextOf(command, PROFILE_KEY)
        || !PayloadMatches(digest, command, VersionedDraft(NumberOf(command, EXPECTED_VERSION), updated.draft))
      {
        return Conflicted(Some(authoritative), false), sent;
      }
      result, sent := ConfirmAndResolve(command, updated, answers.confirmation, sent);
    }

    method RecoverPublish(command: Json, authoritative: Profile, answers: Answers3, sentBefore: seq<Sent>)
      returns (result: Result, sent: seq<Sent>)
      requires !HasAction(command, CREATE) && !HasAction(command, UPDATE_DRAFT)
      modifies ledger, controller
      ensures var request :=
          Request(TextOf(command, IDEMPOTENCY_KEY), Str(PUBLISH), Str(authoritative.id), Value(command, PAYLOAD));
        Recovery(result, controller.Now(), ledger.item, sent)
          == Settling(ledger.checks, digest, own, old(controller.Now()), old(ledger.item), command, Some(authoritative),
                      answers.mutation, answers.confirmation, sentBefore + [Mutate(request)])
    {
      hide ConfirmingAndResolving, EditingDraft, Fingerprint, TextOf, Value;
      sent := sentBefore + [Mutate(Request(TextOf(command, IDEMPOTENCY_KEY), Str(PUBLISH), Str(authoritative.id),
                                           Value(command, PAYLOAD)))];
      if answers.mutation.Raised? {
        var failure := answers.mutation.failure;
        if IsAuthorityOrIdentityFailure(failure) { return Thrown(Unreconciled(Some(failure))), sent; }
        if !IsReplayConflict(failure) { return Thrown(failure), sent; }
        controller.EditDraft(Value(command, ATTEMPTED_DRAFT));
        return Conflicted(Some(authoritative), false), sent;
      }
      var published := answers.mutation.profile;
      if published.version != NumberOf(command, EXPECTED_VERSION) + 1 || published.workspaceId != own.workspaceId
        || published.brand != own.brand || published.profileKey != TextOf(command, PROFILE_KEY)
        || published.currentVersionNumber != NumberOf(command, EXPECTED_PUBLICATION_VERSION) + 1
        || !DraftsMatch(digest, NumberOf(command, EXPECTED_VERSION), published.draft, Value(command, ATTEMPTED_DRAFT))
      {
        return Conflicted(Some(authoritative), false), sent;
      }
      result, sent := ConfirmAndResolve(command, published, answers.confirmation, sent);
    }

    method Recover(command: Json, administrator: bool, listed: seq<Profile>, answers: Answers3)
      returns (result: Result, sent: seq<Sent>)
      modifies ledger, controller
      ensures Recovery(result, controller.Now(), ledger.item, sent)
           == Recovering(ledger.checks, digest, own, old(controller.Now()), old(ledger.item), command, administrator,
                         listed, answers)
    {
      if HasAction(command, CREATE) {
        result, sent := RecoverCreate(command, administrator, listed, answers);
      } else {
        result, sent := RecoverExisting(command, administrator, answers);
      }
    }
  }
}
