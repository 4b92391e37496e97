// What recovering a persisted command guarantees, for any command, any answers
// of the server and any state of the page.
module BrandRecovery {
  import opened Texts
  import opened Json
  import opened CanonicalJson
  import opened PendingCommand
  import opened PendingLedger
  import opened BrandController
  import opened BrandCoordinator

  // The page shows, or can show, the profile the command is about.
  predicate Prepared(own: Identity, s: State, command: Json, listed: seq<Profile>, preflight: Reply) {
    if HasAction(command, CREATE) then
      var shown := Fallback(listed, TextOf(command, PROFILE_KEY));
      shown.Some? ==> PublishingRead(s, shown.value).1
    else
      && TextOf(command, PROFILE_ID) != []
      && preflight.Replied? && preflight.profile.id == TextOf(command, PROFILE_ID)
      && InContext(own, preflight.profile, TextOf(command, PROFILE_KEY))
      && PublishingRead(s, preflight.profile).1
  }

  function Shown(s: State, command: Json, listed: seq<Profile>, preflight: Reply): State {
    if HasAction(command, CREATE) then
      var shown := Fallback(listed, TextOf(command, PROFILE_KEY));
      if shown.Some? then PublishingRead(s, shown.value).0 else s
    else if preflight.Replied? then PublishingRead(s, preflight.profile).0
    else s
  }

  // The command's own request was answered as asked, and a later read of the
  // profile confirms it and can be shown.
  predicate AcceptedAndConfirmed(
    digest: Text -> Text, own: Identity, shown: State, command: Json, mutation: Reply, confirmation: Reply)
  {
    && mutation.Replied? && Answers(digest, own, command, mutation.profile)
    && InContext(own, mutation.profile, TextOf(command, PROFILE_KEY))
    && confirmation.Replied?
    && Confirms(own, mutation.profile, confirmation.profile, TextOf(command, PROFILE_KEY))
    && PublishingRead(shown, confirmation.profile).1
  }

  function ShownProfile(command: Json, listed: seq<Profile>, preflight: Reply): Option<Profile> {
    if HasAction(command, CREATE) then Fallback(listed, TextOf(command, PROFILE_KEY))
    else if preflight.Replied? then Some(preflight.profile)
    else None
  }

  // What is sent up to and including the replayed write.
  function Replay(command: Json): seq<Sent> {
    if HasAction(command, CREATE) then
      [Mutate(Request(TextOf(command, IDEMPOTENCY_KEY), Str(CREATE), Null, Value(command, PAYLOAD)))]
    else
      var action := if HasAction(command, UPDATE_DRAFT) then UPDATE_DRAFT else PUBLISH;
      var profileId := TextOf(command, PROFILE_ID);
      [Fetch(profileId)] + [Mutate(Request(TextOf(command, IDEMPOTENCY_KEY), Str(action), Str(profileId), Value(command, PAYLOAD)))]
  }

  lemma RecoverySettles(
    k: Checks, digest: Text -> Text, own: Identity, s: State, item: Option<Text>, command: Json,
    administrator: bool, listed: seq<Profile>, answers: Answers3)
    ensures var r := Recovering(k, digest, own, s, item, command, administrator, listed, answers);
      if administrator && Prepared(own, s, command, listed, answers.preflight) then
        r == Settling(k, digest, own, Shown(s, command, listed, answers.preflight), item, command,
                      ShownProfile(command, listed, answers.preflight), answers.mutation, answers.confirmation, Replay(command))
      else
        (r.result.Retained? || r.result.Thrown?) && r.item == item && forall m :: m in r.sent ==> m.Fetch?
  {
    assert !IsText(Get(command, PROFILE_ID)) ==> TextOf(command, PROFILE_ID) == [];
    hide Settling, TextOf, Value, PublishingRead, Fallback;
  }

  // A recovery ends resolved exactly when an administrator's replay was
  // accepted and confirmed and the ledger still held the record; the confirmed
  // head is then the published profile.
  lemma ResolvedIff(
    k: Checks, digest: Text -> Text, own: Identity, s: State, item: Option<Text>, command: Json,
    administrator: bool, listed: seq<Profile>, answers: Answers3)
    ensures var r := Recovering(k, digest, own, s, item, command, administrator, listed, answers);
      var shown := Shown(s, command, listed, answers.preflight);
      && (r.result.Resolved? <==>
            && administrator && Prepared(own, s, command, listed, answers.preflight)
            && AcceptedAndConfirmed(digest, own, shown, command, answers.mutation, answers.confirmation)
            && Clearing(k, item, command).1 == Cleared)
      && (r.result.Resolved? ==>
            r.result.head == answers.confirmation.profile && r.controller.snapshot.profile == Some(r.result.head))
  {
    var shown := Shown(s, command, listed, answers.preflight);
    var profile := ShownProfile(command, listed, answers.preflight);
    RecoverySettles(k, digest, own, s, item, command, administrator, listed, answers);
    SettlingResolvedIff(k, digest, own, shown, item, command, answers, profile, Replay(command));
    hide Recovering, Settling, Clearing, Prepared, Shown, ShownProfile, Replay, AcceptedAndConfirmed;
  }

  lemma SettlingResolvedIff(
    k: Checks, digest: Text -> Text, own: Identity, s: State, item: Option<Text>, command: Json, answers: Answers3,
    profile: Option<Profile>, sent: seq<Sent>)
    ensures var r := Settling(k, digest, own, s, item, command, profile, answers.mutation, answers.confirmation, sent);
      && (r.result.Resolved? <==>
            && AcceptedAndConfirmed(digest, own, s, command, answers.mutation, answers.confirmation)
            && Clearing(k, item, command).1 == Cleared)
      && (r.result.Resolved? ==>
            r.result.head == answers.confirmation.profile && r.controller.snapshot.profile == Some(r.result.head))
  {
    ReadShows(s, answers.confirmation);
    hide PublishingRead, Answers, Clearing, TextOf, EditingDraft;
  }

  lemma ReadShows(s: State, confirmation: Reply)
    ensures confirmation.Replied? && PublishingRead(s, confirmation.profile).1 ==>
      PublishingRead(s, confirmation.profile).0.snapshot.profile == Some(confirmation.profile)
  {
    hide CloneDraft, DraftsEqual;
  }

  // The ledger changes only when a recovery resolves, and then by removing
  // the record.
  lemma RecordRemovedIffResolved(
    k: Checks, digest: Text -> Text, own: Identity, s: State, item: Option<Text>, command: Json,
    administrator: bool, listed: seq<Profile>, answers: Answers3)
    ensures var r := Recovering(k, digest, own, s, item, command, administrator, listed, answers);
      && (!r.result.Resolved? ==> r.item == item)
      && (r.result.Resolved? ==> Clearing(k, item, command) == (r.item, Cleared))
  {
    var shown := Shown(s, command, listed, answers.preflight);
    var profile := ShownProfile(command, listed, answers.preflight);
    RecoverySettles(k, digest, own, s, item, command, administrator, listed, answers);
    SettlingRemoves(k, digest, own, shown, item, command, answers, profile, Replay(command));
    hide Recovering, Settling, Clearing, Prepared, Shown, ShownProfile, Replay;
  }

  lemma SettlingRemoves(
    k: Checks, digest: Text -> Text, own: Identity, s: State, item: Option<Text>, command: Json, answers: Answers3,
    profile: Option<Profile>, sent: seq<Sent>)
    ensures var r := Settling(k, digest, own, s, item, command, profile, answers.mutation, answers.confirmation, sent);
      && (!r.result.Resolved? ==> r.item == item)
      && (r.result.Resolved? ==> Clearing(k, item, command) == (r.item, Cleared))
  {
    hide PublishingRead, Answers, TextOf, EditingDraft, Stored;
  }

  // On a sound ledger a resolved recovery leaves the owner without a record
  // and every other owner's record in place.
  lemma ResolvedRemovesExactly(
    p: Platform, own: Identity, s: State, item: Option<Text>, command: Json,
    administrator: bool, listed: seq<Profile>, answers: Answers3)
    requires ParsesJson(p.parse)
    requires Sound(ChecksOf(p), item) && Reading(ChecksOf(p), item, own) == Found(command)
    ensures var r := Recovering(ChecksOf(p), p.digest, own, s, item, command, administrator, listed, answers);
      && Sound(ChecksOf(p), r.item)
      && Reading(ChecksOf(p), r.item, own) == (if r.result.Resolved? then NoCommand else Found(command))
      && (forall other :: other != own ==> Reading(ChecksOf(p), r.item, other) == Reading(ChecksOf(p), item, other))
  {
    PlatformSupportsLedger(p);
    RecordRemovedIffResolved(ChecksOf(p), p.digest, own, s, item, command, administrator, listed, answers);
    hide Recovering, Sound, Reading, Clearing, Supported, ChecksOf;
    ClearWhatWasRead(ChecksOf(p), item, own, command);
  }

  // Every keyed write a recovery sends is the persisted command's own, with
  // its key and payload; it sends one exactly when an administrator is shown
  // the profile the command is about, and none otherwise.
  lemma OnlyTheCommandIsSent(
    p: Platform, own: Identity, s: State, item: Option<Text>, command: Json,
    administrator: bool, listed: seq<Profile>, answers: Answers3)
    requires IsPendingCommand(p, command)
    ensures var r := Recovering(ChecksOf(p), p.digest, own, s, item, command, administrator, listed, answers);
      && (forall m :: m in r.sent && m.Mutate? ==> m == Mutate(RequestOf(command)))
      && ((exists m :: m in r.sent && m.Mutate?) <==> administrator && Prepared(own, s, command, listed, answers.preflight))
  {
    var shown := Shown(s, command, listed, answers.preflight);
    var profile := ShownProfile(command, listed, answers.preflight);
    ReplaysTheCommand(p, command);
    RecoverySettles(ChecksOf(p), p.digest, own, s, item, command, administrator, listed, answers);
    SettlingSends(ChecksOf(p), p.digest, own, shown, item, command, profile, answers.mutation, answers.confirmation, Replay(command));
    hide IsPendingCommand, Recovering, Settling, Prepared, Shown, ShownProfile, Replay;
  }

  lemma ReplaysTheCommand(p: Platform, command: Json)
    requires IsPendingCommand(p, command)
    ensures Mutate(RequestOf(command)) in Replay(command)
    ensures forall m :: m in Replay(command) && m.Mutate? ==> m == Mutate(RequestOf(command))
  {
    RequestOfVerified(p, command);
    hide IsPendingCommand, TextOf, Value;
    assert Replay(command)[|Replay(command)| - 1] == Mutate(RequestOf(command));
  }

  lemma RequestOfVerified(p: Platform, command: Json)
    requires IsPendingCommand(p, command)
    ensures var request := Request(TextOf(command, IDEMPOTENCY_KEY), Value(command, ACTION),
                                   if HasAction(command, CREATE) then Null else Str(TextOf(command, PROFILE_ID)),
                                   Value(command, PAYLOAD));
      request == RequestOf(command)
    ensures HasAction(command, CREATE) || HasAction(command, UPDATE_DRAFT) || HasAction(command, PUBLISH)
    ensures !HasAction(command, CREATE) ==> IsText(Get(command, PROFILE_ID)) && TextOf(command, PROFILE_ID) != []
  {
    hide IsDraft, CarriesAttemptedDraft;
  }

  lemma SettlingSends(
    k: Checks, digest: Text -> Text, own: Identity, s: State, item: Option<Text>, command: Json,
    shown: Option<Profile>, mutation: Reply, confirmation: Reply, sent: seq<Sent>)
    ensures var r := Settling(k, digest, own, s, item, command, shown, mutation, confirmation, sent);
      forall m: Sent :: m.Mutate? ==> (m in r.sent <==> m in sent)
  {
    hide Answers, PublishingRead, Resolving, EditingDraft;
  }

  // --------------------------------------------------- whose answer it is

  // The digest inputs whose collision would let a foreign answer pass.
  ghost predicate SeparatesAnswer(digest: Text -> Text, command: Json, p: Profile) {
    var version := NumberOf(command, EXPECTED_VERSION);
    var payload := Canonicalize(Value(command, PAYLOAD));
    && Separates(digest, payload, Canonicalize(CreatePayload(p)))
    && Separates(digest, payload, Canonicalize(VersionedDraft(version, p.draft)))
    && Separates(digest, Canonicalize(VersionedDraft(version, p.draft)),
                 Canonicalize(VersionedDraft(version, Value(command, ATTEMPTED_DRAFT))))
  }

  lemma DraftOfSame(payload: Json, fields: seq<Entry<Json>>, i: nat)
    requires Unambiguous(payload) && Unambiguous(Obj(fields)) && Same(payload, Obj(fields))
    requires i < |fields| && fields[i].key == DRAFT
    ensures Same(Value(payload, DRAFT), fields[i].value)
  {
    if payload.Obj? {
      assert MatchedBy(payload.fields, fields[i]);
      var j :| 0 <= j < |payload.fields| && payload.fields[j].key == DRAFT && Same(payload.fields[j].value, fields[i].value);
      FindAt(payload.fields, j);
    }
  }

  lemma AnswerPayloadsUnambiguous(p: Profile, version: int)
    requires Unambiguous(p.draft)
    ensures Unambiguous(CreatePayload(p)) && Unambiguous(VersionedDraft(version, p.draft))
  {
    assert BRAND[0] != PROFILE_KEY[0] && BRAND[0] != DRAFT[0] && PROFILE_KEY[0] != DRAFT[0];
    assert EXPECTED_VERSION[0] != DRAFT[0];
  }

  lemma ValueUnambiguous(v: Json, key: Text)
    requires Unambiguous(v)
    ensures Unambiguous(Value(v, key))
  {
    if v.Obj? { FindUnambiguous(v.fields, key); }
  }

  // An accepted answer holds the attempted draft, whatever the action, unless
  // the digest collides.
  lemma AcceptedAnswerHoldsAttempt(p: Platform, own: Identity, command: Json, answer: Profile)
    requires Unambiguous(command) && Unambiguous(answer.draft)
    requires IsPendingCommand(p, command) && PayloadFingerprintHolds(p, command)
    requires SeparatesAnswer(p.digest, command, answer)
    requires Answers(p.digest, own, command, answer)
    ensures Same(answer.draft, Value(command, ATTEMPTED_DRAFT))
  {
    var version := NumberOf(command, EXPECTED_VERSION);
    var payload, attempted := Value(command, PAYLOAD), Value(command, ATTEMPTED_DRAFT);
    ActionsOf(p, command);
    AnswerPayloadsUnambiguous(answer, version);
    ValueUnambiguous(command, PAYLOAD);
    ValueUnambiguous(command, ATTEMPTED_DRAFT);
    ValueUnambiguous(payload, DRAFT);
    hide IsPendingCommand, Value, NumberOf, Canonicalize, Same, Unambiguous, Fingerprint, Get, InContext;
    if HasAction(command, CREATE) {
      FingerprintDecidesSame(p.digest, payload, CreatePayload(answer));
      DraftOfSame(payload, CreatePayload(answer).fields, 2);
      SameThrough(Value(payload, DRAFT), answer.draft, attempted);
    } else if HasAction(command, UPDATE_DRAFT) {
      FingerprintDecidesSame(p.digest, payload, VersionedDraft(version, answer.draft));
      DraftOfSame(payload, VersionedDraft(version, answer.draft).fields, 1);
      SameThrough(Value(payload, DRAFT), answer.draft, attempted);
    } else {
      VersionedDecidesSame(p.digest, version, answer.draft, attempted);
    }
  }

  lemma ActionsOf(p: Platform, command: Json)
    requires IsPendingCommand(p, command)
    ensures HasAction(command, CREATE) || HasAction(command, UPDATE_DRAFT) ==>
      Canonicalize(Value(Value(command, PAYLOAD), DRAFT)) == Canonicalize(Value(command, ATTEMPTED_DRAFT))
  {
    hide IsDraft, Canonicalize;
    assert UPDATE_DRAFT[0] != CREATE[0] && UPDATE_DRAFT[0] != PUBLISH[0];
  }

  lemma SameThrough(middle: Json, a: Json, b: Json)
    requires Unambiguous(middle) && Unambiguous(a) && Unambiguous(b)
    requires Same(middle, a) && Canonicalize(middle) == Canonicalize(b)
    ensures Same(a, b)
  {
    CanonicalizeDecidesSame(middle, a);
    CanonicalizeDecidesSame(a, b);
  }

  lemma VersionedDecidesSame(digest: Text -> Text, version: int, a: Json, b: Json)
    requires Unambiguous(a) && Unambiguous(b) && DraftsMatch(digest, version, a, b)
    requires Separates(digest, Canonicalize(VersionedDraft(version, a)), Canonicalize(VersionedDraft(version, b)))
    ensures Same(a, b)
  {
    assert EXPECTED_VERSION[0] != DRAFT[0];
    var fs, gs := VersionedDraft(version, a).fields, VersionedDraft(version, b).fields;
    assert Unambiguous(Obj(fs)) && Unambiguous(Obj(gs));
    FingerprintDecidesSame(digest, Obj(fs), Obj(gs));
    MatchedAt(fs, gs, 1);
  }

  // A replay that conflicts removes nothing and keeps the attempt as a local
  // draft, and only a version conflict or a foreign answer is a conflict.
  lemma ConflictKeepsAttempt(
    k: Checks, digest: Text -> Text, own: Identity, s: State, item: Option<Text>, command: Json,
    administrator: bool, listed: seq<Profile>, answers: Answers3)
    ensures var r := Recovering(k, digest, own, s, item, command, administrator, listed, answers);
      r.result.Conflicted? ==>
        && r.item == item && administrator
        && (match answers.mutation
            case Raised(f) =>
              && f.Refused? && f.status == 409
              && (if HasAction(command, CREATE) then r.result.creationConflict
                  else r.controller.snapshot.dirty
                       && r.controller.snapshot.draft == Some(CloneDraft(Value(command, ATTEMPTED_DRAFT))))
            case Replied(p) => !Answers(digest, own, command, p))
  {
    RecoverySettles(k, digest, own, s, item, command, administrator, listed, answers);
    hide Recovering, Prepared, Shown, ShownProfile, Replay, Answers, PublishingRead, Clearing, CloneDraft, Value;
  }
}
