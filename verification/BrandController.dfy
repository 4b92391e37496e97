// BrandProfileWorkbenchController of
// apps/web/lib/brand-profile-workbench-controller.ts.
//
// A state is a snapshot and five generation counters.  Every method of the
// class is specified by a function on states; BrandControllerRuns proves what
// all runs of these functions keep.
module BrandController {
  import opened Texts
  import opened Json
  import opened PendingCommand

  const HISTORY_PAGE_SIZE: nat := 2
  const VALIDATION_FRESHNESS_MS := 60_000

  datatype Profile = Profile(
    id: Text,
    workspaceId: Text,
    brand: Text,
    profileKey: Text,
    version: int,
    currentVersionNumber: int,
    draft: Json)

  datatype Validation = Validation(profileId: Text, profileVersion: int, valid: bool)

  datatype VersionRecord = VersionRecord(workspaceId: Text, profileId: Text, versionNumber: int, draft: Json)

  datatype VersionPage = VersionPage(items: seq<VersionRecord>, nextCursor: Option<Text>)

  datatype Conflict = Conflict(attemptedDraft: Json, authoritative: Profile)

  datatype HistoryMode = Initial | More

  datatype HistoryStatus = Unloaded | Loading | Ready | Failed

  datatype Snapshot = Snapshot(
    identity: Identity,
    identityGeneration: nat,
    profile: Option<Profile>,
    draft: Option<Json>,
    dirty: bool,
    validation: Option<Validation>,
    validationExpiresAt: Option<int>,
    conflict: Option<Conflict>,
    versions: seq<VersionRecord>,
    versionsNextCursor: Option<Text>,
    historyLoading: Option<HistoryMode>,
    historyStatus: HistoryStatus,
    selectedVersion: Option<VersionRecord>,
    focusNonce: nat)

  datatype State = State(
    snapshot: Snapshot,
    profileReads: nat,
    mutations: nat,
    validations: nat,
    historyReads: nat,
    versionReads: nat)

  // The two generations every token carries.
  datatype Stamp = Stamp(identityGeneration: nat, readGeneration: nat)

  datatype ProfileToken = ProfileToken(stamp: Stamp, profileId: Text)

  datatype MutationCommand = MutationCommand(
    profileId: Option<Text>,
    profileKey: Text,
    expectedVersion: int,
    draft: Json)

  datatype MutationToken = MutationToken(
    stamp: Stamp,
    profileId: Option<Text>,
    profileKey: Text,
    baseline: Option<(Text, int)>,
    expectedVersion: int,
    attemptedDraft: Json)

  datatype ValidationToken = ValidationToken(stamp: Stamp, profileId: Text, profileVersion: int)

  datatype HistoryToken = HistoryToken(stamp: Stamp, profileId: Text, mode: HistoryMode)

  datatype VersionToken = VersionToken(stamp: Stamp, profileId: Text, versionNumber: int, focusIntent: bool)

  // ------------------------------------------------------------------ drafts

  function DraftKeys(): seq<Text> {
    [Ascii("rules"), Ascii("approved_colors"), Ascii("required_marks"), Ascii("prohibited_elements"),
     Ascii("tone_constraints"), Ascii("copy_constraints"), Ascii("purpose"), Ascii("provider"),
     Ascii("requires_derivative"), Ascii("selected_assets")]
  }

  function Pick(d: Json, keys: seq<Text>): seq<Entry<Json>> {
    if keys == [] then [] else [Entry(keys[0], Value(d, keys[0]))] + Pick(d, keys[1..])
  }

  // cloneDraft: the ten draft fields, in one fixed order.
  function CloneDraft(d: Json): Json {
    Obj(Pick(d, DraftKeys()))
  }

  predicate DraftsEqual(left: Json, right: Json) {
    Stringify(left) == Stringify(right)
  }

  // ----------------------------------------------------------- specification

  function InitialSnapshot(identity: Identity, identityGeneration: nat): Snapshot {
    Snapshot(identity, identityGeneration, None, None, false, None, None, None, [], None, None, Unloaded, None, 0)
  }

  predicate MatchesIdentity(p: Profile, identity: Identity, profileId: Option<Text>) {
    && p.workspaceId == identity.workspaceId && p.brand == identity.brand
    && (profileId.None? || p.id == profileId.value)
  }

  function WithoutHistory(s: Snapshot): Snapshot {
    s.(versions := [], versionsNextCursor := None, historyLoading := None, historyStatus := Unloaded,
       selectedVersion := None, focusNonce := 0)
  }

  function WithoutValidation(s: Snapshot): Snapshot {
    s.(validation := None, validationExpiresAt := None)
  }

  predicate SameProfile(current: Option<Profile>, p: Profile) {
    current.Some? && current.value.id == p.id
  }

  predicate Live(s: State, stamp: Stamp, generation: nat) {
    stamp.identityGeneration == s.snapshot.identityGeneration && stamp.readGeneration == generation
  }

  function ChangingIdentity(s: State, identity: Identity): (State, bool) {
    if identity == s.snapshot.identity then (s, false)
    else
      (State(InitialSnapshot(identity, s.snapshot.identityGeneration + 1), s.profileReads + 1, s.mutations + 1,
             s.validations + 1, s.historyReads + 1, s.versionReads + 1), true)
  }

  function BeginningProfileRead(s: State, profileId: Text): (State, ProfileToken) {
    (s.(profileReads := s.profileReads + 1),
     ProfileToken(Stamp(s.snapshot.identityGeneration, s.profileReads + 1), profileId))
  }

  predicate AcceptsProfile(s: State, token: ProfileToken, p: Profile, resetDraft: bool) {
    var current := s.snapshot.profile;
    && Live(s, token.stamp, s.profileReads)
    && MatchesIdentity(p, s.snapshot.identity, Some(token.profileId))
    && (resetDraft || SameProfile(current, p))
    && (SameProfile(current, p) ==> current.value.version <= p.version)
    && (SameProfile(current, p) && current.value.version == p.version ==> DraftsEqual(current.value.draft, p.draft))
  }

  function PublishingProfile(s: State, token: ProfileToken, p: Profile, resetDraft: bool): (State, bool) {
    if !AcceptsProfile(s, token, p, resetDraft) then (s, false)
    else
      var before := s.snapshot;
      var same := SameProfile(before.profile, p);
      var preserve := !resetDraft && same && (before.dirty || before.conflict.Some?);
      var unmoved := same && before.profile.value.version == p.version;
      var advanced := preserve && before.profile.value.version < p.version && before.draft.Some?;
      var a := before.(profile := Some(p));
      var b :=
        if !preserve then a.(draft := Some(CloneDraft(p.draft)), dirty := false, conflict := None)
        else if advanced then a.(conflict := Some(Conflict(CloneDraft(before.draft.value), p)))
        else a;
      var c := if unmoved then b else WithoutValidation(b);
      (s.(snapshot := if same then c else WithoutHistory(c)), true)
  }

  function EditingDraft(s: State, draft: Json): State {
    s.(snapshot := WithoutValidation(s.snapshot.(draft := Some(CloneDraft(draft)), dirty := true)))
  }

  function Baseline(current: Option<Profile>): Option<(Text, int)> {
    if current.Some? then Some((current.value.id, current.value.version)) else None
  }

  function BeginningMutation(s: State, command: MutationCommand): (State, MutationToken) {
    (s.(mutations := s.mutations + 1, validations := s.validations + 1, snapshot := WithoutValidation(s.snapshot)),
     MutationToken(Stamp(s.snapshot.identityGeneration, s.mutations + 1), command.profileId, command.profileKey,
                   Baseline(s.snapshot.profile), command.expectedVersion, CloneDraft(command.draft)))
  }

  predicate AcceptsMutation(s: State, token: MutationToken, p: Profile) {
    var current := s.snapshot.profile;
    && Live(s, token.stamp, s.mutations)
    && MatchesIdentity(p, s.snapshot.identity, token.profileId)
    && p.profileKey == token.profileKey
    && p.version == token.expectedVersion + 1
    && DraftsEqual(p.draft, token.attemptedDraft)
    && (if token.profileId.None? then
          Baseline(current) == token.baseline && token.expectedVersion == 0
        else
          && current.Some? && current.value.id == token.profileId.value
          && current.value.version == token.expectedVersion && current.value.profileKey == token.profileKey)
  }

  function PublishingMutation(s: State, token: MutationToken, p: Profile): (State, bool) {
    if !AcceptsMutation(s, token, p) then (s, false)
    else
      var a := WithoutValidation(
        s.snapshot.(profile := Some(p), draft := Some(CloneDraft(p.draft)), dirty := false, conflict := None));
      var b := if SameProfile(s.snapshot.profile, p) then a else WithoutHistory(a);
      (s.(snapshot := b, profileReads := s.profileReads + 1), true)
  }

  predicate AcceptsConflict(s: State, token: MutationToken, authoritative: Profile) {
    && Live(s, token.stamp, s.mutations)
    && token.profileId.Some?
    && MatchesIdentity(authoritative, s.snapshot.identity, token.profileId)
    && authoritative.profileKey == token.profileKey
    && s.snapshot.profile.Some? && s.snapshot.profile.value.profileKey == token.profileKey
    && authoritative.version > token.expectedVersion
  }

  function RecordingConflict(s: State, token: MutationToken, authoritative: Profile): (State, bool) {
    if !AcceptsConflict(s, token, authoritative) then (s, false)
    else
      var a := s.snapshot.(profile := Some(authoritative), draft := Some(CloneDraft(authoritative.draft)), dirty := false,
                           conflict := Some(Conflict(CloneDraft(token.attemptedDraft), authoritative)));
      (s.(snapshot := WithoutValidation(a), profileReads := s.profileReads + 1, validations := s.validations + 1), true)
  }

  function RestoringConflictDraft(s: State): (State, bool) {
    if s.snapshot.conflict.None? then (s, false)
    else
      var a := s.snapshot.(draft := Some(CloneDraft(s.snapshot.conflict.value.attemptedDraft)), dirty := true, conflict := None);
      (s.(snapshot := WithoutValidation(a)), true)
  }

  function DiscardingLocalChanges(s: State): (State, bool) {
    if s.snapshot.profile.None? then (s, false)
    else
      var a := s.snapshot.(draft := Some(CloneDraft(s.snapshot.profile.value.draft)), dirty := false, conflict := None);
      (s.(snapshot := WithoutValidation(a)), true)
  }

  function DiscardingConflictDraft(s: State): (State, bool) {
    if s.snapshot.conflict.None? || s.snapshot.profile.None? then (s, false) else DiscardingLocalChanges(s)
  }

  function BeginningValidation(s: State, profileId: Text, profileVersion: int): (State, ValidationToken) {
    (s.(validations := s.validations + 1, snapshot := WithoutValidation(s.snapshot)),
     ValidationToken(Stamp(s.snapshot.identityGeneration, s.validations + 1), profileId, profileVersion))
  }

  // receivedAt is None for a clock reading that is not finite.
  predicate AcceptsValidation(s: State, token: ValidationToken, validation: Validation, receivedAt: Option<int>) {
    && Live(s, token.stamp, s.validations)
    && s.snapshot.profile.Some? && s.snapshot.profile.value.id == token.profileId
    && s.snapshot.profile.value.version == token.profileVersion
    && validation.profileId == token.profileId && validation.profileVersion == token.profileVersion
    && receivedAt.Some?
  }

  function PublishingValidation(s: State, token: ValidationToken, validation: Validation, receivedAt: Option<int>)
    : (State, bool)
  {
    if !AcceptsValidation(s, token, validation, receivedAt) then (s, false)
    else
      (s.(snapshot := s.snapshot.(validation := Some(validation),
                                  validationExpiresAt := Some(receivedAt.value + VALIDATION_FRESHNESS_MS))), true)
  }

  function InvalidatingValidation(s: State): State {
    s.(validations := s.validations + 1, snapshot := WithoutValidation(s.snapshot))
  }

  function ExpiringValidation(s: State, now: int): (State, bool) {
    if s.snapshot.validation.None? || s.snapshot.validationExpiresAt.None? || now < s.snapshot.validationExpiresAt.value
    then (s, false)
    else (InvalidatingValidation(s), true)
  }

  function BeginningHistoryRead(s: State, mode: HistoryMode, profileId: Text): (State, HistoryToken) {
    (s.(historyReads := s.historyReads + 1,
        snapshot := s.snapshot.(historyLoading := Some(mode), historyStatus := Loading)),
     HistoryToken(Stamp(s.snapshot.identityGeneration, s.historyReads + 1), profileId, mode))
  }

  predicate LiveHistory(s: State, token: HistoryToken) {
    && Live(s, token.stamp, s.historyReads)
    && s.snapshot.profile.Some? && s.snapshot.profile.value.id == token.profileId
  }

  function FailedHistory(s: State): State {
    s.(snapshot := s.snapshot.(historyLoading := None, historyStatus := Failed))
  }

  function Numbers(versions: seq<VersionRecord>): set<int> {
    set v <- versions :: v.versionNumber
  }

  predicate Descending(versions: seq<VersionRecord>) {
    forall i :: 0 < i < |versions| ==> versions[i - 1].versionNumber > versions[i].versionNumber
  }

  predicate PageAccepted(s: State, token: HistoryToken, existing: seq<VersionRecord>, items: seq<VersionRecord>) {
    && |items| <= HISTORY_PAGE_SIZE
    && (forall v <- items :: v.workspaceId == s.snapshot.identity.workspaceId && v.profileId == token.profileId)
    && Descending(items)
    && (existing != [] ==>
          forall v <- items ::
            v.versionNumber in Numbers(existing) || v.versionNumber < existing[|existing| - 1].versionNumber)
  }

  // The items whose number was not seen before, each taken once.
  function Unseen(seen: set<int>, items: seq<VersionRecord>): seq<VersionRecord>
    decreases |items|
  {
    if items == [] then []
    else if items[0].versionNumber in seen then Unseen(seen, items[1..])
    else [items[0]] + Unseen(seen + {items[0].versionNumber}, items[1..])
  }

  function PublishingHistory(s: State, token: HistoryToken, page: VersionPage): (State, bool) {
    if !LiveHistory(s, token) then (s, false)
    else
      var existing := if token.mode == More then s.snapshot.versions else [];
      if !PageAccepted(s, token, existing, page.items) then (FailedHistory(s), false)
      else
        (s.(snapshot := s.snapshot.(versions := existing + Unseen(Numbers(existing), page.items),
                                    versionsNextCursor := page.nextCursor, historyLoading := None,
                                    historyStatus := Ready)), true)
  }

  function FailingHistory(s: State, token: HistoryToken): (State, bool) {
    if !LiveHistory(s, token) then (s, false) else (FailedHistory(s), true)
  }

  function BeginningVersionRead(s: State, profileId: Text, versionNumber: int, focusIntent: bool): (State, VersionToken) {
    (s.(versionReads := s.versionReads + 1),
     VersionToken(Stamp(s.snapshot.identityGeneration, s.versionReads + 1), profileId, versionNumber, focusIntent))
  }

  predicate AcceptsVersion(s: State, token: VersionToken, version: VersionRecord) {
    && Live(s, token.stamp, s.versionReads)
    && s.snapshot.profile.Some? && s.snapshot.profile.value.id == token.profileId
    && version.workspaceId == s.snapshot.identity.workspaceId && version.profileId == token.profileId
    && version.versionNumber == token.versionNumber
  }

  function PublishingVersion(s: State, token: VersionToken, version: VersionRecord): (State, bool) {
    if !AcceptsVersion(s, token, version) then (s, false)
    else
      (s.(snapshot := s.snapshot.(selectedVersion := Some(version),
                                  focusNonce := s.snapshot.focusNonce + if token.focusIntent then 1 else 0)), true)
  }

  // ------------------------------------------------------------- the class

  class Controller {
    var snapshot: Snapshot
    var profileReadGeneration: nat
    var mutationGeneration: nat
    var validationGeneration: nat
    var historyReadGeneration: nat
    var versionReadGeneration: nat

    function Now(): State
      reads this
    {
      State(snapshot, profileReadGeneration, mutationGeneration, validationGeneration, historyReadGeneration,
            versionReadGeneration)
    }

    constructor (identity: Identity)
      ensures Now() == State(InitialSnapshot(identity, 1), 0, 0, 0, 0, 0)
    {
      snapshot := InitialSnapshot(identity, 1);
      profileReadGeneration, mutationGeneration, validationGeneration := 0, 0, 0;
      historyReadGeneration, versionReadGeneration := 0, 0;
    }

    method ChangeIdentity(identity: Identity) returns (changed: bool)
      modifies this
      ensures (Now(), changed) == ChangingIdentity(old(Now()), identity)
    {
      if identity.workspaceId == snapshot.identity.workspaceId && identity.brand == snapshot.identity.brand {
        return false;
      }
      profileReadGeneration := profileReadGeneration + 1;
      mutationGeneration := mutationGeneration + 1;
      validationGeneration := validationGeneration + 1;
      historyReadGeneration := historyReadGeneration + 1;
      versionReadGeneration := versionReadGeneration + 1;
      snapshot := InitialSnapshot(identity, snapshot.identityGeneration + 1);
      return true;
    }

    method BeginProfileRead(profileId: Text) returns (token: ProfileToken)
      modifies this
      ensures (Now(), token) == BeginningProfileRead(old(Now()), profileId)
    {
      profileReadGeneration := profileReadGeneration + 1;
      return ProfileToken(Stamp(snapshot.identityGeneration, profileReadGeneration), profileId);
    }

    method PublishProfile(token: ProfileToken, profile: Profile, resetDraft: bool) returns (published: bool)
      modifies this
      ensures (Now(), published) == PublishingProfile(old(Now()), token, profile, resetDraft)
    {
      var current := snapshot.profile;
      if !Live(Now(), token.stamp, profileReadGeneration)
        || !MatchesIdentity(profile, snapshot.identity, Some(token.profileId))
        || (!resetDraft && !SameProfile(current, profile))
        || (SameProfile(current, profile) && profile.version < current.value.version)
      {
        return false;
      }
      if SameProfile(current, profile) && current.value.version == profile.version
        && !DraftsEqual(current.value.draft, profile.draft)
      {
        return false;
      }
      var profileChanged := !SameProfile(current, profile);
      var preserveLocalDraft := !resetDraft && !profileChanged && (snapshot.dirty || snapshot.conflict.Some?);
      var serverAdvanced := preserveLocalDraft && profile.version > current.value.version && snapshot.draft.Some?;
      var keepValidation := !profileChanged && current.value.version == profile.version;
      var localDraft := snapshot.draft;
      snapshot := snapshot.(profile := Some(profile));
      if !preserveLocalDraft {
        snapshot := snapshot.(draft := Some(CloneDraft(profile.draft)), dirty := false, conflict := None);
      } else if serverAdvanced {
        snapshot := snapshot.(conflict := Some(Conflict(CloneDraft(localDraft.value), profile)));
      }
      if !keepValidation {
        snapshot := snapshot.(validation := None, validationExpiresAt := None);
      }
      if profileChanged {
        snapshot := WithoutHistory(snapshot);
      }
      return true;
    }

    method EditDraft(draft: Json)
      modifies this
      ensures Now() == EditingDraft(old(Now()), draft)
    {
      snapshot := snapshot.(draft := Some(CloneDraft(draft)), dirty := true, validation := None, validationExpiresAt := None);
    }

    method BeginMutation(command: MutationCommand) returns (token: MutationToken)
      modifies this
      ensures (Now(), token) == BeginningMutation(old(Now()), command)
    {
      mutationGeneration := mutationGeneration + 1;
      validationGeneration := validationGeneration + 1;
      snapshot := snapshot.(validation := None, validationExpiresAt := None);
      return MutationToken(Stamp(snapshot.identityGeneration, mutationGeneration), command.profileId, command.profileKey,
                           Baseline(snapshot.profile), command.expectedVersion, CloneDraft(command.draft));
    }

    method PublishMutation(token: MutationToken, profile: Profile) returns (published: bool)
      modifies this
      ensures (Now(), published) == PublishingMutation(old(Now()), token, profile)
    {
      if !AcceptsMutation(Now(), token, profile) {
        return false;
      }
      var profileChanged := !SameProfile(snapshot.profile, profile);
      profileReadGeneration := profileReadGeneration + 1;
      snapshot := snapshot.(profile := Some(profile), draft := Some(CloneDraft(profile.draft)), dirty := false,
                            validation := None, validationExpiresAt := None, conflict := None);
      if profileChanged {
        snapshot := WithoutHistory(snapshot);
      }
      return true;
    }

    method RecordVersionConflict(token: MutationToken, authoritative: Profile) returns (recorded: bool)
      modifies this
      ensures (Now(), recorded) == RecordingConflict(old(Now()), token, authoritative)
    {
      if !AcceptsConflict(Now(), token, authoritative) {
        return false;
      }
      profileReadGeneration := profileReadGeneration + 1;
      validationGeneration := validationGeneration + 1;
      snapshot := snapshot.(profile := Some(authoritative), draft := Some(CloneDraft(authoritative.draft)), dirty := false,
                            validation := None, validationExpiresAt := None,
                            conflict := Some(Conflict(CloneDraft(token.attemptedDraft), authoritative)));
      return true;
    }

    method RestoreConflictDraft() returns (restored: bool)
      modifies this
      ensures (Now(), restored) == RestoringConflictDraft(old(Now()))
    {
      if snapshot.conflict.None? {
        return false;
      }
      snapshot := snapshot.(draft := Some(CloneDraft(snapshot.conflict.value.attemptedDraft)), dirty := true,
                            validation := None, validationExpiresAt := None, conflict := None);
      return true;
    }

    method DiscardConflictDraft() returns (discarded: bool)
      modifies this
      ensures (Now(), discarded) == DiscardingConflictDraft(old(Now()))
    {
      if snapshot.conflict.None? || snapshot.profile.None? {
        return false;
      }
      discarded := DiscardLocalChanges();
    }

    method DiscardLocalChanges() returns (discarded: bool)
      modifies this
      ensures (Now(), discarded) == DiscardingLocalChanges(old(Now()))
    {
      if snapshot.profile.None? {
        return false;
      }
      snapshot := snapshot.(draft := Some(CloneDraft(snapshot.profile.value.draft)), dirty := false, validation := None,
                            validationExpiresAt := None, conflict := None);
      return true;
    }

    method BeginValidation(profileId: Text, profileVersion: int) returns (token: ValidationToken)
      modifies this
      ensures (Now(), token) == BeginningValidation(old(Now()), profileId, profileVersion)
    {
      validationGeneration := validationGeneration + 1;
      snapshot := snapshot.(validation := None, validationExpiresAt := None);
      return ValidationToken(Stamp(snapshot.identityGeneration, validationGeneration), profileId, profileVersion);
    }

    method PublishValidation(token: ValidationToken, validation: Validation, receivedAt: Option<int>)
      returns (published: bool)
      modifies this
      ensures (Now(), published) == PublishingValidation(old(Now()), token, validation, receivedAt)
    {
      if !AcceptsValidation(Now(), token, validation, receivedAt) {
        return false;
      }
      snapshot := snapshot.(validation := Some(validation),
                            validationExpiresAt := Some(receivedAt.value + VALIDATION_FRESHNESS_MS));
      return true;
    }

    method InvalidateValidation()
      modifies this
      ensures Now() == InvalidatingValidation(old(Now()))
    {
      validationGeneration := validationGeneration + 1;
      if snapshot.validation.Some? || snapshot.validationExpiresAt.Some? {
        snapshot := snapshot.(validation := None, validationExpiresAt := None);
      }
    }

    method ExpireValidation(now: int) returns (expired: bool)
      modifies this
      ensures (Now(), expired) == ExpiringValidation(old(Now()), now)
    {
      if snapshot.validation.None? || snapshot.validationExpiresAt.None? || now < snapshot.validationExpiresAt.value {
        return false;
      }
      InvalidateValidation();
      return true;
    }

    method BeginHistoryRead(mode: HistoryMode, profileId: Text) returns (token: HistoryToken)
      modifies this
      ensures (Now(), token) == BeginningHistoryRead(old(Now()), mode, profileId)
    {
      historyReadGeneration := historyReadGeneration + 1;
      snapshot := snapshot.(historyLoading := Some(mode), historyStatus := Loading);
      return HistoryToken(Stamp(snapshot.identityGeneration, historyReadGeneration), profileId, mode);
    }

    method PublishHistory(token: HistoryToken, page: VersionPage) returns (published: bool)
      modifies this
      ensures (Now(), published) == PublishingHistory(old(Now()), token, page)
    {
      if !LiveHistory(Now(), token) {
        return false;
      }
      var existing := if token.mode == More then snapshot.versions else [];
      if !PageAccepted(Now(), token, existing, page.items) {
        snapshot := snapshot.(historyLoading := None, historyStatus := Failed);
        return false;
      }
      var versions := existing;
      var versionNumbers := Numbers(existing);
      var i := 0;
      while i < |page.items|
        invariant 0 <= i <= |page.items|
        invariant versions + Unseen(versionNumbers, page.items[i..])
               == existing + Unseen(Numbers(existing), page.items)
      {
        var version := page.items[i];
        ghost var rest := page.items[i..];
        assert rest[0] == version && rest[1..] == page.items[i + 1..];
        if version.versionNumber !in versionNumbers {
          ghost var tail := Unseen(versionNumbers + {version.versionNumber}, rest[1..]);
          assert versions + ([version] + tail) == (versions + [version]) + tail;
          versionNumbers := versionNumbers + {version.versionNumber};
          versions := versions + [version];
        }
        i := i + 1;
      }
      assert versions == versions + Unseen(versionNumbers, page.items[i..]);
      snapshot := snapshot.(versions := versions, versionsNextCursor := page.nextCursor, historyLoading := None,
                            historyStatus := Ready);
      return true;
    }

    method FailHistory(token: HistoryToken) returns (failed: bool)
      modifies this
      ensures (Now(), failed) == FailingHistory(old(Now()), token)
    {
      if !LiveHistory(Now(), token) {
        return false;
      }
      snapshot := snapshot.(historyLoading := None, historyStatus := Failed);
      return true;
    }

    method BeginVersionRead(profileId: Text, versionNumber: int, focusIntent: bool) returns (token: VersionToken)
      modifies this
      ensures (Now(), token) == BeginningVersionRead(old(Now()), profileId, versionNumber, focusIntent)
    {
      versionReadGeneration := versionReadGeneration + 1;
      return VersionToken(Stamp(snapshot.identityGeneration, versionReadGeneration), profileId, versionNumber, focusIntent);
    }

    method PublishVersion(token: VersionToken, version: VersionRecord) returns (published: bool)
      modifies this
      ensures (Now(), published) == PublishingVersion(old(Now()), token, version)
    {
      if !AcceptsVersion(Now(), token, version) {
        return false;
      }
      snapshot := snapshot.(selectedVersion := Some(version),
                            focusNonce := if token.focusIntent then snapshot.focusNonce + 1 else snapshot.focusNonce);
      return true;
    }
  }
}
