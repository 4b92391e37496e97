// What every run of the Brand Profile controller keeps, whatever order its
// methods are called in and whatever the server answers.
module BrandControllerRuns {
  import opened Texts
  import opened Json
  import opened PendingCommand
  import opened BrandController

  datatype Call =
    | ChangeIdentity(identity: Identity)
    | BeginProfileRead(profileId: Text)
    | PublishProfile(profileToken: ProfileToken, profile: Profile, resetDraft: bool)
    | EditDraft(draft: Json)
    | BeginMutation(command: MutationCommand)
    | PublishMutation(mutationToken: MutationToken, profile: Profile)
    | RecordVersionConflict(mutationToken: MutationToken, profile: Profile)
    | RestoreConflictDraft
    | DiscardConflictDraft
    | DiscardLocalChanges
    | BeginValidation(profileId: Text, profileVersion: int)
    | PublishValidation(validationToken: ValidationToken, validation: Validation, receivedAt: Option<int>)
    | InvalidateValidation
    | ExpireValidation(now: int)
    | BeginHistoryRead(mode: HistoryMode, profileId: Text)
    | PublishHistory(historyToken: HistoryToken, page: VersionPage)
    | FailHistory(historyToken: HistoryToken)
    | BeginVersionRead(profileId: Text, versionNumber: int, focusIntent: bool)
    | PublishVersion(versionToken: VersionToken, version: VersionRecord)

  function Step(s: State, call: Call): State {
    match call
    case ChangeIdentity(identity) => ChangingIdentity(s, identity).0
    case BeginProfileRead(profileId) => BeginningProfileRead(s, profileId).0
    case PublishProfile(token, profile, resetDraft) => PublishingProfile(s, token, profile, resetDraft).0
    case EditDraft(draft) => EditingDraft(s, draft)
    case BeginMutation(command) => BeginningMutation(s, command).0
    case PublishMutation(token, profile) => PublishingMutation(s, token, profile).0
    case RecordVersionConflict(token, profile) => RecordingConflict(s, token, profile).0
    case RestoreConflictDraft => RestoringConflictDraft(s).0
    case DiscardConflictDraft => DiscardingConflictDraft(s).0
    case DiscardLocalChanges => DiscardingLocalChanges(s).0
    case BeginValidation(profileId, profileVersion) => BeginningValidation(s, profileId, profileVersion).0
    case PublishValidation(token, validation, at) => PublishingValidation(s, token, validation, at).0
    case InvalidateValidation => InvalidatingValidation(s)
    case ExpireValidation(now) => ExpiringValidation(s, now).0
    case BeginHistoryRead(mode, profileId) => BeginningHistoryRead(s, mode, profileId).0
    case PublishHistory(token, page) => PublishingHistory(s, token, page).0
    case FailHistory(token) => FailingHistory(s, token).0
    case BeginVersionRead(profileId, n, focus) => BeginningVersionRead(s, profileId, n, focus).0
    case PublishVersion(token, version) => PublishingVersion(s, token, version).0
  }

  function Run(s: State, calls: seq<Call>): State
    decreases |calls|
  {
    if calls == [] then s else Run(Step(s, calls[0]), calls[1..])
  }

  function Start(identity: Identity): State {
    State(InitialSnapshot(identity, 1), 0, 0, 0, 0, 0)
  }

  // ---------------------------------------------------- snapshot invariant

  // The published profile belongs to the identity; a validation is about the
  // published version and expires; an open conflict is about the published
  // version; a clean draft with no conflict is the profile's own.
  ghost predicate Coherent(s: State) {
    var n := s.snapshot;
    && (n.profile.Some? ==> MatchesIdentity(n.profile.value, n.identity, None) && n.draft.Some?)
    && (n.draft.Some? ==> CloneDraft(n.draft.value) == n.draft.value)
    && (n.validation.Some? <==> n.validationExpiresAt.Some?)
    && (n.validation.Some? ==>
          && n.profile.Some?
          && n.validation.value.profileId == n.profile.value.id
          && n.validation.value.profileVersion == n.profile.value.version)
    && (n.conflict.Some? ==>
          && n.profile.Some?
          && n.conflict.value.authoritative.id == n.profile.value.id
          && n.conflict.value.authoritative.version == n.profile.value.version)
    && (n.conflict.None? && !n.dirty ==>
          n.draft == if n.profile.Some? then Some(CloneDraft(n.profile.value.draft)) else None)
  }

  lemma {:induction false} PickedValue(d: Json, keys: seq<Text>, i: nat)
    requires i < |keys|
    ensures |Pick(d, keys)| == |keys| && Pick(d, keys)[i] == Entry(keys[i], Value(d, keys[i]))
  {
    if i > 0 {
      PickedValue(d, keys[1..], i - 1);
    } else if |keys| > 1 {
      PickedValue(d, keys[1..], 0);
    }
  }

  lemma DraftKeysDistinct()
    ensures forall i, j :: 0 <= i < j < |DraftKeys()| ==> DraftKeys()[i] != DraftKeys()[j]
  {
    var k := DraftKeys();
    assert |k[0]| == 5 && |k[1]| == 15 && |k[2]| == 14 && |k[3]| == 19 && |k[4]| == 16;
    assert |k[5]| == 16 && |k[6]| == 7 && |k[7]| == 8 && |k[8]| == 19 && |k[9]| == 15;
    assert k[1][1] != k[9][1];
    assert k[3][0] != k[8][0];
    assert k[4][0] != k[5][0];
  }

  lemma {:induction false} PickFromPicked(d: Json, keys: seq<Text>, all: seq<Entry<Json>>)
    requires forall i :: 0 <= i < |keys| ==> Find(all, keys[i]) == Some(Value(d, keys[i]))
    ensures Pick(Obj(all), keys) == Pick(d, keys)
  {
    if keys != [] {
      assert Find(all, keys[0]) == Some(Value(d, keys[0]));
      PickFromPicked(d, keys[1..], all);
    }
  }

  lemma CloneFromFields(d: Json, keys: seq<Text>, fields: seq<Entry<Json>>)
    requires |fields| == |keys| && forall i :: 0 <= i < |keys| ==> fields[i] == Entry(keys[i], Value(d, keys[i]))
    requires forall i, j :: 0 <= i < j < |keys| ==> keys[i] != keys[j]
    ensures Pick(Obj(fields), keys) == Pick(d, keys)
  {
    assert DistinctKeys(fields);
    forall i | 0 <= i < |keys| ensures Find(fields, keys[i]) == Some(Value(d, keys[i])) {
      FindAt(fields, i);
    }
    PickFromPicked(d, keys, fields);
  }

  // Cloning a clone changes nothing.
  lemma CloneIdempotent(d: Json)
    ensures CloneDraft(CloneDraft(d)) == CloneDraft(d)
  {
    var keys, fields := DraftKeys(), Pick(d, DraftKeys());
    DraftKeysDistinct();
    hide DraftKeys;
    forall i | 0 <= i < |keys| ensures |fields| == |keys| && fields[i] == Entry(keys[i], Value(d, keys[i])) {
      PickedValue(d, keys, i);
    }
    CloneFromFields(d, keys, fields);
  }

  lemma ProfilePublishKeepsCoherent(s: State, token: ProfileToken, p: Profile, resetDraft: bool)
    requires Coherent(s)
    ensures Coherent(PublishingProfile(s, token, p, resetDraft).0)
  {
    hide CloneDraft, DraftsEqual;
    forall d ensures CloneDraft(CloneDraft(d)) == CloneDraft(d) { CloneIdempotent(d); }
  }

  lemma ConflictKeepsCoherent(s: State, token: MutationToken, p: Profile)
    requires Coherent(s)
    ensures Coherent(RecordingConflict(s, token, p).0)
  {
    hide CloneDraft, DraftsEqual;
    forall d ensures CloneDraft(CloneDraft(d)) == CloneDraft(d) { CloneIdempotent(d); }
  }

  lemma StepKeepsCoherent(s: State, call: Call)
    requires Coherent(s)
    ensures Coherent(Step(s, call))
  {
    hide CloneDraft, DraftsEqual, PublishingHistory, PublishingProfile, RecordingConflict;
    forall d ensures CloneDraft(CloneDraft(d)) == CloneDraft(d) { CloneIdempotent(d); }
    match call {
      case PublishHistory(token, page) => HistoryPublishKeepsRest(s, token, page);
      case PublishProfile(token, p, reset) => ProfilePublishKeepsCoherent(s, token, p, reset);
      case RecordVersionConflict(token, p) => ConflictKeepsCoherent(s, token, p);
      case _ =>
    }
  }

  lemma {:induction false} RunKeepsCoherent(s: State, calls: seq<Call>)
    requires Coherent(s)
    ensures Coherent(Run(s, calls))
    decreases |calls|
  {
    if calls != [] {
      StepKeepsCoherent(s, calls[0]);
      RunKeepsCoherent(Step(s, calls[0]), calls[1..]);
    }
  }

  // Every reachable snapshot is coherent, with any tokens and any answers.
  lemma ReachableIsCoherent(identity: Identity, calls: seq<Call>)
    ensures Coherent(Run(Start(identity), calls))
  {
    RunKeepsCoherent(Start(identity), calls);
  }

  // ------------------------------------------------------ publication history

  // The listed versions belong to the published profile, newest first, each
  // number once; so does the selected one.
  ghost predicate HistoryBelongs(s: State) {
    var n := s.snapshot;
    && Descending(n.versions)
    && (n.versions != [] || n.selectedVersion.Some? ==> n.profile.Some?)
    && (forall v :: v in n.versions ==> v.workspaceId == n.identity.workspaceId && v.profileId == n.profile.value.id)
    && (n.selectedVersion.Some? ==>
          && n.selectedVersion.value.workspaceId == n.identity.workspaceId
          && n.selectedVersion.value.profileId == n.profile.value.id)
  }

  // A profile key names one profile of its workspace and brand: the unique
  // constraint of the profile table.
  ghost predicate Keyed(idOf: (Identity, Text) -> Text, p: Profile) {
    p.id == idOf(Identity(p.workspaceId, p.brand), p.profileKey)
  }

  ghost predicate CallKeyed(idOf: (Identity, Text) -> Text, call: Call) {
    call.PublishProfile? || call.PublishMutation? || call.RecordVersionConflict? ==> Keyed(idOf, call.profile)
  }

  ghost predicate StateKeyed(idOf: (Identity, Text) -> Text, s: State) {
    s.snapshot.profile.Some? ==>
      Keyed(idOf, s.snapshot.profile.value) && MatchesIdentity(s.snapshot.profile.value, s.snapshot.identity, None)
  }

  lemma {:induction false} DescendingPairs(versions: seq<VersionRecord>, i: nat, j: nat)
    requires Descending(versions) && i < j < |versions|
    ensures versions[i].versionNumber > versions[j].versionNumber
  {
    if i + 1 < j { DescendingPairs(versions, i, j - 1); }
  }

  lemma {:induction false} UnseenMembers(seen: set<int>, items: seq<VersionRecord>)
    ensures forall v :: v in Unseen(seen, items) ==> v in items && v.versionNumber !in seen
    decreases |items|
  {
    if items != [] {
      UnseenMembers(if items[0].versionNumber in seen then seen else seen + {items[0].versionNumber}, items[1..]);
    }
  }

  // What is appended from a descending page is descending, unseen and from
  // the page.
  lemma {:induction false} UnseenShape(seen: set<int>, items: seq<VersionRecord>)
    requires Descending(items)
    ensures Descending(Unseen(seen, items))
    ensures forall v :: v in Unseen(seen, items) ==> v in items && v.versionNumber !in seen
    decreases |items|
  {
    UnseenMembers(seen, items);
    if items != [] {
      var rest := items[1..];
      forall i | 0 < i < |rest| ensures rest[i - 1].versionNumber > rest[i].versionNumber {
        assert rest[i - 1] == items[i] && rest[i] == items[i + 1];
      }
      var next := if items[0].versionNumber in seen then seen else seen + {items[0].versionNumber};
      UnseenShape(next, rest);
      UnseenFollows(items, Unseen(next, rest));
    }
  }

  lemma UnseenFollows(items: seq<VersionRecord>, tail: seq<VersionRecord>)
    requires items != [] && Descending(items) && Descending(tail)
    requires forall v :: v in tail ==> v in items[1..]
    ensures Descending([items[0]] + tail)
  {
    if tail != [] {
      assert tail[0] in items[1..];
      var j :| 0 <= j < |items[1..]| && items[1..][j] == tail[0];
      DescendingPairs(items, 0, j + 1);
    }
    AppendKeepsDescending([items[0]], tail);
  }

  lemma AppendKeepsDescending(existing: seq<VersionRecord>, added: seq<VersionRecord>)
    requires Descending(existing) && Descending(added)
    requires existing != [] && added != [] ==> added[0].versionNumber < existing[|existing| - 1].versionNumber
    ensures Descending(existing + added)
  {
    var all := existing + added;
    forall i | 0 < i < |all| ensures all[i - 1].versionNumber > all[i].versionNumber {
      if i > |existing| {
        assert all[i - 1] == added[i - 1 - |existing|] && all[i] == added[i - |existing|];
      }
    }
  }

  // What publishing a page of history leaves alone.
  lemma HistoryPublishKeepsRest(s: State, token: HistoryToken, page: VersionPage)
    ensures var t := PublishingHistory(s, token, page).0;
      t == s.(snapshot := s.snapshot.(versions := t.snapshot.versions, versionsNextCursor := t.snapshot.versionsNextCursor,
                                      historyLoading := t.snapshot.historyLoading, historyStatus := t.snapshot.historyStatus))
  {
    hide PageAccepted, Unseen, Numbers;
  }

  lemma ListedDescending(s: State, mode: HistoryMode)
    requires HistoryBelongs(s)
    ensures Descending(if mode == More then s.snapshot.versions else [])
  {
  }

  lemma HistoryPublishKeepsBelonging(s: State, token: HistoryToken, page: VersionPage)
    requires HistoryBelongs(s)
    ensures HistoryBelongs(PublishingHistory(s, token, page).0)
  {
    hide Descending, Unseen;
    var existing := if token.mode == More then s.snapshot.versions else [];
    if LiveHistory(s, token) && PageAccepted(s, token, existing, page.items) {
      var added := Unseen(Numbers(existing), page.items);
      UnseenShape(Numbers(existing), page.items);
      ListedDescending(s, token.mode);
      if existing != [] && added != [] {
        assert added[0] in added;
      }
      AppendKeepsDescending(existing, added);
      assert forall v :: v in existing + added ==> v in existing || v in added;
    }
  }

  lemma StepKeepsKeyed(idOf: (Identity, Text) -> Text, s: State, call: Call)
    requires StateKeyed(idOf, s) && CallKeyed(idOf, call)
    ensures StateKeyed(idOf, Step(s, call))
  {
    hide CloneDraft, DraftsEqual, PublishingHistory;
    if call.PublishHistory? { HistoryPublishKeepsRest(s, call.historyToken, call.page); }
  }

  lemma StepKeepsHistory(idOf: (Identity, Text) -> Text, s: State, call: Call)
    requires HistoryBelongs(s) && StateKeyed(idOf, s) && CallKeyed(idOf, call)
    ensures HistoryBelongs(Step(s, call))
  {
    hide CloneDraft, DraftsEqual, PublishingHistory;
    if call.PublishHistory? {
      HistoryPublishKeepsRest(s, call.historyToken, call.page);
      HistoryPublishKeepsBelonging(s, call.historyToken, call.page);
    }
  }

  lemma {:induction false} RunKeepsHistory(idOf: (Identity, Text) -> Text, s: State, calls: seq<Call>)
    requires HistoryBelongs(s) && StateKeyed(idOf, s)
    requires forall i :: 0 <= i < |calls| ==> CallKeyed(idOf, calls[i])
    ensures HistoryBelongs(Run(s, calls))
    decreases |calls|
  {
    if calls != [] {
      StepKeepsHistory(idOf, s, calls[0]);
      StepKeepsKeyed(idOf, s, calls[0]);
      RunKeepsHistory(idOf, Step(s, calls[0]), calls[1..]);
    }
  }

  // When profile keys determine ids, the history shown is always the
  // published profile's own.
  lemma ReachableHistoryBelongs(idOf: (Identity, Text) -> Text, identity: Identity, calls: seq<Call>)
    requires forall i :: 0 <= i < |calls| ==> CallKeyed(idOf, calls[i])
    ensures HistoryBelongs(Run(Start(identity), calls))
  {
    RunKeepsHistory(idOf, Start(identity), calls);
  }

  // Without that hypothesis recordVersionConflict alone decides: it compares
  // profile keys, so the history survives exactly when the id is unchanged or
  // there is no history to mislead.
  lemma ConflictKeepsHistoryIff(s: State, token: MutationToken, p: Profile)
    requires HistoryBelongs(s) && AcceptsConflict(s, token, p)
    ensures HistoryBelongs(RecordingConflict(s, token, p).0)
       <==> p.id == s.snapshot.profile.value.id || (s.snapshot.versions == [] && s.snapshot.selectedVersion.None?)
  {
    hide CloneDraft;
    var n := s.snapshot;
    if n.versions != [] && p.id != n.profile.value.id {
      assert n.versions[0] in n.versions;
    }
  }

  // A run that misleads: the history of one profile is shown when the conflict
  // of a mutation of another profile with the same key is recorded.
  lemma ConflictCanMisleadHistory(identity: Identity, id: Text, other: Text, key: Text, d: Json)
    requires id != other
    ensures var at := (i: Text, version: int) => Profile(i, identity.workspaceId, identity.brand, key, version, 0, d);
      var shown := [VersionRecord(identity.workspaceId, id, 1, d)];
      var calls := [
        BeginProfileRead(id), PublishProfile(ProfileToken(Stamp(1, 1), id), at(id, 1), true), BeginHistoryRead(Initial, id),
        PublishHistory(HistoryToken(Stamp(1, 1), id, Initial), VersionPage(shown, None)),
        BeginMutation(MutationCommand(Some(other), key, 1, d))];
      var s := Run(Start(identity), calls);
      var token := MutationToken(Stamp(1, 1), Some(other), key, Some((id, 1)), 1, CloneDraft(d));
      && s.snapshot.versions == shown && HistoryBelongs(s) && AcceptsConflict(s, token, at(other, 2))
      && !HistoryBelongs(RecordingConflict(s, token, at(other, 2)).0)
  {
    hide Step, CloneDraft, DraftsEqual;
    var at := (i: Text, version: int) => Profile(i, identity.workspaceId, identity.brand, key, version, 0, d);
    var v := VersionRecord(identity.workspaceId, id, 1, d);
    var a, b, c := BeginProfileRead(id), PublishProfile(ProfileToken(Stamp(1, 1), id), at(id, 1), true), BeginHistoryRead(Initial, id);
    var e := PublishHistory(HistoryToken(Stamp(1, 1), id, Initial), VersionPage([v], None));
    var f := BeginMutation(MutationCommand(Some(other), key, 1, d));
    RunFive(Start(identity), a, b, c, e, f);
    ProfileIsShown(identity, at(id, 1));
    var s2 := Step(Step(Start(identity), a), b);
    HistoryIsShown(s2, v, MutationCommand(Some(other), key, 1, d));
    assert [v][0] in [v];
  }

  lemma ProfileIsShown(identity: Identity, p: Profile)
    requires p.workspaceId == identity.workspaceId && p.brand == identity.brand
    ensures var s := Step(Step(Start(identity), BeginProfileRead(p.id)), PublishProfile(ProfileToken(Stamp(1, 1), p.id), p, true));
      && s.snapshot == InitialSnapshot(identity, 1).(profile := Some(p), draft := Some(CloneDraft(p.draft)))
      && s.historyReads == 0 && s.mutations == 0
  {
    hide CloneDraft, DraftsEqual;
  }

  lemma HistoryIsShown(s: State, v: VersionRecord, command: MutationCommand)
    requires s.snapshot.profile.Some? && s.snapshot.profile.value.id == v.profileId && v.workspaceId == s.snapshot.identity.workspaceId
    requires s.historyReads == 0 && s.snapshot.identityGeneration == 1
    ensures var t := Step(Step(s, BeginHistoryRead(Initial, v.profileId)),
                          PublishHistory(HistoryToken(Stamp(1, 1), v.profileId, Initial), VersionPage([v], None)));
      && t == s.(historyReads := 1, snapshot := t.snapshot)
      && t.snapshot == s.snapshot.(versions := [v], versionsNextCursor := None, historyLoading := None, historyStatus := Ready)
    ensures forall t :: Step(t, BeginMutation(command)) == BeginningMutation(t, command).0
  {
    assert Unseen(Numbers([]), [v]) == [v] by { assert [v][1..] == []; }
  }

  // ------------------------------------------------------------ server versions

  // The version published for one profile of one identity never goes back in
  // a step, except through a recorded conflict whose authority is older, or
  // through a create answered with the profile that is already published.
  lemma VersionsGoBackOnlyInConflicts(s: State, call: Call)
    requires s.snapshot.profile.Some?
    requires Step(s, call).snapshot.identityGeneration == s.snapshot.identityGeneration
    requires Step(s, call).snapshot.profile.Some?
    requires SameProfile(s.snapshot.profile, Step(s, call).snapshot.profile.value)
    ensures Step(s, call).snapshot.profile.value.version < s.snapshot.profile.value.version
       <==> && ((call.RecordVersionConflict? && AcceptsConflict(s, call.mutationToken, call.profile))
                || (call.PublishMutation? && AcceptsMutation(s, call.mutationToken, call.profile)
                    && call.mutationToken.profileId.None?))
            && call.profile.version < s.snapshot.profile.value.version
  {
    hide CloneDraft, DraftsEqual, PublishingHistory;
    if call.PublishHistory? { HistoryPublishKeepsRest(s, call.historyToken, call.page); }
  }

  // That exception is reachable: the server moves from 1 to 3 while a mutation
  // based on 1 is in flight, and its conflict is answered with version 2.
  lemma ConflictCanGoBack(identity: Identity, id: Text, key: Text, d: Json)
    ensures var at := (version: int) => Profile(id, identity.workspaceId, identity.brand, key, version, 0, d);
      var calls := [
        BeginProfileRead(id), PublishProfile(ProfileToken(Stamp(1, 1), id), at(1), true),
        BeginMutation(MutationCommand(Some(id), key, 1, d)),
        BeginProfileRead(id), PublishProfile(ProfileToken(Stamp(1, 2), id), at(3), true)];
      var s := Run(Start(identity), calls);
      var token := MutationToken(Stamp(1, 1), Some(id), key, Some((id, 1)), 1, CloneDraft(d));
      && s.snapshot.profile == Some(at(3))
      && RecordingConflict(s, token, at(2)).1
      && RecordingConflict(s, token, at(2)).0.snapshot.profile == Some(at(2))
  {
    hide CloneDraft, DraftsEqual, Unseen;
    var at := (version: int) => Profile(id, identity.workspaceId, identity.brand, key, version, 0, d);
    var s0 := Start(identity);
    var s1 := BeginningProfileRead(s0, id).0;
    var s2 := PublishingProfile(s1, ProfileToken(Stamp(1, 1), id), at(1), true).0;
    var s3 := BeginningMutation(s2, MutationCommand(Some(id), key, 1, d)).0;
    var s4 := BeginningProfileRead(s3, id).0;
    var s5 := PublishingProfile(s4, ProfileToken(Stamp(1, 2), id), at(3), true).0;
    var c0, c1 := BeginProfileRead(id), PublishProfile(ProfileToken(Stamp(1, 1), id), at(1), true);
    var c2 := BeginMutation(MutationCommand(Some(id), key, 1, d));
    var c4 := PublishProfile(ProfileToken(Stamp(1, 2), id), at(3), true);
    assert Step(s0, c0) == s1 && Step(s1, c1) == s2 && Step(s2, c2) == s3 && Step(s3, c0) == s4 && Step(s4, c4) == s5;
    RunFive(s0, c0, c1, c2, c0, c4);
  }

  // The second exception is reachable too: with version 3 published, a create is
  // begun, and answered with that very profile at version 1.
  lemma CreateCanGoBack(identity: Identity, id: Text, key: Text, d: Json)
    ensures var at := (version: int) => Profile(id, identity.workspaceId, identity.brand, key, version, 0, CloneDraft(d));
      var calls := [
        BeginProfileRead(id), PublishProfile(ProfileToken(Stamp(1, 1), id), at(3), true),
        BeginMutation(MutationCommand(None, key, 0, d))];
      var s := Run(Start(identity), calls);
      var token := MutationToken(Stamp(1, 1), None, key, Some((id, 3)), 0, CloneDraft(d));
      && token == BeginningMutation(Run(Start(identity), calls[..2]), MutationCommand(None, key, 0, d)).1
      && s.snapshot.profile == Some(at(3))
      && PublishingMutation(s, token, at(1)).1 && PublishingMutation(s, token, at(1)).0.snapshot.profile == Some(at(1))
  {
    hide CloneDraft, Unseen;
    var at := (version: int) => Profile(id, identity.workspaceId, identity.brand, key, version, 0, CloneDraft(d));
    var a, b := BeginProfileRead(id), PublishProfile(ProfileToken(Stamp(1, 1), id), at(3), true);
    var c := BeginMutation(MutationCommand(None, key, 0, d));
    var s := Start(identity);
    RunCons(s, a, [b, c]);
    RunCons(Step(s, a), b, [c]);
    RunCons(Step(Step(s, a), b), c, []);
    RunCons(s, a, [b]);
    RunCons(Step(s, a), b, []);
    assert [a] + [b, c] == [a, b, c] && [b] + [c] == [b, c] && [c] + [] == [c] && [a] + [b] == [a, b] && [b] + [] == [b];
    assert [a, b, c][..2] == [a, b];
  }

  lemma RunFive(s: State, a: Call, b: Call, c: Call, d: Call, e: Call)
    ensures Run(s, [a, b, c, d, e]) == Step(Step(Step(Step(Step(s, a), b), c), d), e)
  {
    hide Step;
    RunCons(s, a, [b, c, d, e]);
    RunCons(Step(s, a), b, [c, d, e]);
    RunCons(Step(Step(s, a), b), c, [d, e]);
    RunCons(Step(Step(Step(s, a), b), c), d, [e]);
    RunCons(Step(Step(Step(Step(s, a), b), c), d), e, []);
    assert [a] + [b, c, d, e] == [a, b, c, d, e] && [b] + [c, d, e] == [b, c, d, e];
    assert [c] + [d, e] == [c, d, e] && [d] + [e] == [d, e] && [e] + [] == [e];
  }

  lemma RunCons(s: State, call: Call, calls: seq<Call>)
    ensures Run(s, [call] + calls) == Run(Step(s, call), calls)
  {
    assert ([call] + calls)[1..] == calls;
  }

  // ------------------------------------------------------------- local drafts

  // A read that does not reset keeps a dirty draft, and when the server has
  // moved on opens a conflict between that draft and the new profile.
  lemma DirtyDraftSurvivesRead(s: State, token: ProfileToken, p: Profile)
    requires Coherent(s) && s.snapshot.dirty && PublishingProfile(s, token, p, false).1
    ensures var n := PublishingProfile(s, token, p, false).0.snapshot;
      && n.dirty && n.draft == s.snapshot.draft && n.profile == Some(p)
      && n.conflict == if p.version > s.snapshot.profile.value.version
                       then Some(Conflict(s.snapshot.draft.value, p)) else s.snapshot.conflict
  {
    hide CloneDraft, DraftsEqual;
  }

  // While a conflict is open and the draft is clean, a further server advance
  // keeps the attempted draft exactly when it already is the local draft.
  lemma OpenConflictKeepsAttemptIff(s: State, token: ProfileToken, p: Profile)
    requires Coherent(s) && s.snapshot.conflict.Some? && !s.snapshot.dirty
    requires PublishingProfile(s, token, p, false).1
    ensures var n := PublishingProfile(s, token, p, false).0.snapshot;
      && n.conflict.Some?
      && (n.conflict.value.attemptedDraft == s.snapshot.conflict.value.attemptedDraft <==>
            p.version == s.snapshot.profile.value.version
            || s.snapshot.conflict.value.attemptedDraft == s.snapshot.draft.value)
  {
    hide CloneDraft, DraftsEqual;
  }

  // An attempt is lost in this run: a mutation of version 1 meets a conflict with
  // version 2, and a read then finds version 3.  The draft kept as the attempt
  // is the server's second, not the attempted one.
  lemma OpenConflictCanLoseAttempt(identity: Identity, id: Text, key: Text, attempted: Json, drafts: int -> Json)
    requires CloneDraft(attempted) != CloneDraft(drafts(2))
    ensures var at := (version: int) => Profile(id, identity.workspaceId, identity.brand, key, version, 0, drafts(version));
      var token := MutationToken(Stamp(1, 1), Some(id), key, Some((id, 1)), 1, CloneDraft(attempted));
      var calls := [
        BeginProfileRead(id), PublishProfile(ProfileToken(Stamp(1, 1), id), at(1), true),
        BeginMutation(MutationCommand(Some(id), key, 1, attempted)), RecordVersionConflict(token, at(2)), BeginProfileRead(id)];
      var s := Run(Start(identity), calls);
      var (t, published) := PublishingProfile(s, ProfileToken(Stamp(1, 3), id), at(3), false);
      && !s.snapshot.dirty && s.snapshot.conflict == Some(Conflict(CloneDraft(attempted), at(2)))
      && published && t.snapshot.conflict == Some(Conflict(CloneDraft(drafts(2)), at(3)))
      && t.snapshot.conflict.value.attemptedDraft != s.snapshot.conflict.value.attemptedDraft
  {
    CloneIdempotent(attempted);
    CloneIdempotent(drafts(2));
    hide CloneDraft, DraftsEqual, Unseen;
    var at := (version: int) => Profile(id, identity.workspaceId, identity.brand, key, version, 0, drafts(version));
    var token := MutationToken(Stamp(1, 1), Some(id), key, Some((id, 1)), 1, CloneDraft(attempted));
    var s0 := Start(identity);
    var c0, c1 := BeginProfileRead(id), PublishProfile(ProfileToken(Stamp(1, 1), id), at(1), true);
    var c2, c3 := BeginMutation(MutationCommand(Some(id), key, 1, attempted)), RecordVersionConflict(token, at(2));
    var s1 := BeginningProfileRead(s0, id).0;
    var s2 := PublishingProfile(s1, ProfileToken(Stamp(1, 1), id), at(1), true).0;
    var s3 := BeginningMutation(s2, MutationCommand(Some(id), key, 1, attempted)).0;
    var s4 := RecordingConflict(s3, token, at(2)).0;
    var s5 := BeginningProfileRead(s4, id).0;
    assert Step(s0, c0) == s1 && Step(s1, c1) == s2 && Step(s2, c2) == s3 && Step(s3, c3) == s4 && Step(s4, c0) == s5;
    RunFive(s0, c0, c1, c2, c3, c0);
  }

  // --------------------------------------------------------------- tokens

  datatype Kind = ProfileReads | Mutations | Validations | HistoryReads | VersionReads

  function Generation(s: State, kind: Kind): nat {
    match kind
    case ProfileReads => s.profileReads
    case Mutations => s.mutations
    case Validations => s.validations
    case HistoryReads => s.historyReads
    case VersionReads => s.versionReads
  }

  // Every token issued so far is at most as new as the state.
  ghost predicate IssuedBy(s: State, kind: Kind, stamp: Stamp) {
    stamp.identityGeneration <= s.snapshot.identityGeneration && stamp.readGeneration <= Generation(s, kind)
  }

  ghost predicate Outdated(s: State, kind: Kind, stamp: Stamp) {
    stamp.identityGeneration < s.snapshot.identityGeneration || stamp.readGeneration < Generation(s, kind)
  }

  // The token a call presents, if any.
  function Presents(call: Call): Option<(Kind, Stamp)> {
    match call
    case PublishProfile(token, _, _) => Some((ProfileReads, token.stamp))
    case PublishMutation(token, _) => Some((Mutations, token.stamp))
    case RecordVersionConflict(token, _) => Some((Mutations, token.stamp))
    case PublishValidation(token, _, _) => Some((Validations, token.stamp))
    case PublishHistory(token, _) => Some((HistoryReads, token.stamp))
    case FailHistory(token) => Some((HistoryReads, token.stamp))
    case PublishVersion(token, _) => Some((VersionReads, token.stamp))
    case _ => None
  }

  // Which calls make every token of a kind issued before them unusable.
  predicate Outdates(s: State, call: Call, kind: Kind) {
    match call
    case ChangeIdentity(identity) => identity != s.snapshot.identity
    case BeginProfileRead(_) => kind == ProfileReads
    case BeginMutation(_) => kind == Mutations || kind == Validations
    case PublishMutation(token, p) => kind == ProfileReads && AcceptsMutation(s, token, p)
    case RecordVersionConflict(token, p) =>
      (kind == ProfileReads || kind == Validations) && AcceptsConflict(s, token, p)
    case BeginValidation(_, _) => kind == Validations
    case InvalidateValidation => kind == Validations
    case ExpireValidation(now) => kind == Validations && ExpiringValidation(s, now).1
    case BeginHistoryRead(_, _) => kind == HistoryReads
    case BeginVersionRead(_, _, _) => kind == VersionReads
    case _ => false
  }

  lemma GenerationsAdvance(s: State, call: Call, kind: Kind)
    ensures var t := Step(s, call);
      && s.snapshot.identityGeneration <= t.snapshot.identityGeneration
      && Generation(s, kind) <= Generation(t, kind)
      && (Outdates(s, call, kind) ==>
            s.snapshot.identityGeneration < t.snapshot.identityGeneration || Generation(s, kind) < Generation(t, kind))
  {
    hide CloneDraft, DraftsEqual, Unseen;
  }

  lemma {:induction false} OutdatedForever(s: State, calls: seq<Call>, kind: Kind, stamp: Stamp)
    requires Outdated(s, kind, stamp)
    ensures Outdated(Run(s, calls), kind, stamp)
    decreases |calls|
  {
    hide Step;
    if calls != [] {
      GenerationsAdvance(s, calls[0], kind);
      OutdatedForever(Step(s, calls[0]), calls[1..], kind, stamp);
    }
  }

  lemma {:induction false} IssuedForever(s: State, calls: seq<Call>, kind: Kind, stamp: Stamp)
    requires IssuedBy(s, kind, stamp)
    ensures IssuedBy(Run(s, calls), kind, stamp)
    decreases |calls|
  {
    hide Step;
    if calls != [] {
      GenerationsAdvance(s, calls[0], kind);
      IssuedForever(Step(s, calls[0]), calls[1..], kind, stamp);
    }
  }

  // A call that presents an outdated token changes nothing.
  lemma OutdatedIsRefused(s: State, call: Call, kind: Kind, stamp: Stamp)
    requires Presents(call) == Some((kind, stamp)) && Outdated(s, kind, stamp)
    ensures Step(s, call) == s
  {
    hide CloneDraft, DraftsEqual, Unseen;
  }

  // Take any token that exists in state s.  Once a later call outdates its
  // kind - a change of identity, even if the identity changes back, a newer
  // token of that kind, an accepted mutation or recorded conflict for profile
  // reads - no call that presents it changes the state, at any later time.
  lemma TokenNeverAcceptedAgain(
    s: State, kind: Kind, stamp: Stamp, before: seq<Call>, outdating: Call, after: seq<Call>, call: Call)
    requires IssuedBy(s, kind, stamp)
    requires Outdates(Run(s, before), outdating, kind)
    requires Presents(call) == Some((kind, stamp))
    ensures var t := Run(Step(Run(s, before), outdating), after); Step(t, call) == t
  {
    IssuedForever(s, before, kind, stamp);
    GenerationsAdvance(Run(s, before), outdating, kind);
    hide Step, Outdates;
    OutdatedForever(Step(Run(s, before), outdating), after, kind, stamp);
    OutdatedIsRefused(Run(Step(Run(s, before), outdating), after), call, kind, stamp);
  }

  // The tokens the begin methods return are issued, and live until outdated.
  lemma BegunTokensAreIssued(s: State, id: Text, command: MutationCommand, version: int, mode: HistoryMode, focus: bool)
    ensures var (t, token) := BeginningProfileRead(s, id); IssuedBy(t, ProfileReads, token.stamp) && !Outdated(t, ProfileReads, token.stamp)
    ensures var (t, token) := BeginningMutation(s, command); IssuedBy(t, Mutations, token.stamp) && !Outdated(t, Mutations, token.stamp)
    ensures var (t, token) := BeginningValidation(s, id, version); IssuedBy(t, Validations, token.stamp) && !Outdated(t, Validations, token.stamp)
    ensures var (t, token) := BeginningHistoryRead(s, mode, id); IssuedBy(t, HistoryReads, token.stamp) && !Outdated(t, HistoryReads, token.stamp)
    ensures var (t, token) := BeginningVersionRead(s, id, version, focus); IssuedBy(t, VersionReads, token.stamp) && !Outdated(t, VersionReads, token.stamp)
  {
  }
}
