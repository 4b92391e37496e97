// What the upload workflow keeps: which states survive storage, and what every
// run of events preserves.
module UploadRuns {
  import opened Texts
  import opened Json
  import opened PendingCommand
  import opened UploadWorkflow

  // --------------------------------------------------------- reading fields

  lemma FindAppended(fields: seq<Entry<Json>>, key: Text, v: Option<Json>, q: Text)
    ensures Find(fields + OptionalField(key, v), q)
         == if Find(fields, q).Some? then Find(fields, q) else if q == key then v else None
  {
    FindInFront(fields, OptionalField(key, v), q);
    if v.Some? { assert [Entry(key, v.value)][1..] == []; }
  }

  lemma KeysDiffer()
    ensures SCHEMA != CREATE_KEY && SCHEMA != CREATE_REQUEST && SCHEMA != STAGE && SCHEMA != SESSION_ID && SCHEMA != FINALIZE_ATTEMPT
    ensures SCHEMA != ABORT_KEY && SCHEMA != ASSET_ID && CREATE_KEY != CREATE_REQUEST && CREATE_KEY != STAGE
    ensures CREATE_KEY != SESSION_ID && CREATE_KEY != FINALIZE_ATTEMPT && CREATE_KEY != ABORT_KEY && CREATE_KEY != ASSET_ID
    ensures CREATE_REQUEST != STAGE && CREATE_REQUEST != SESSION_ID && CREATE_REQUEST != FINALIZE_ATTEMPT
    ensures CREATE_REQUEST != ABORT_KEY && CREATE_REQUEST != ASSET_ID && STAGE != SESSION_ID && STAGE != FINALIZE_ATTEMPT
    ensures STAGE != ABORT_KEY && STAGE != ASSET_ID && SESSION_ID != FINALIZE_ATTEMPT && SESSION_ID != ABORT_KEY
    ensures SESSION_ID != ASSET_ID && FINALIZE_ATTEMPT != ABORT_KEY && FINALIZE_ATTEMPT != ASSET_ID && ABORT_KEY != ASSET_ID
    ensures KEY != REQUEST
  {
    assert |SCHEMA| == 13 && |CREATE_KEY| == 20 && |CREATE_REQUEST| == 13 && |STAGE| == 5 && |SESSION_ID| == 9;
    assert |FINALIZE_ATTEMPT| == 15 && |ABORT_KEY| == 19 && |ASSET_ID| == 7 && |KEY| == 14 && |REQUEST| == 7;
    assert SCHEMA[0] == 115 && CREATE_REQUEST[0] == 99;
  }

  lemma StagesDiffer(stage: Stage)
    ensures StageOf(Some(Str(StageText(stage)))) == Some(stage) && StageText(stage) != CREATING
  {
    assert |Ascii("OPEN")| == 4 && |Ascii("UPLOADING")| == 9 && |Ascii("UPLOADED")| == 8;
    assert |Ascii("FINALIZING")| == 10 && |Ascii("FINALIZED")| == 9 && |CREATING| == 8;
    assert Ascii("UPLOADING")[0] == 85 && Ascii("UPLOADED")[0] == 85 && Ascii("FINALIZED")[0] == 70 && CREATING[0] == 67;
  }

  lemma CreatingFields(c: Creation)
    ensures var v := Encoded(Creating(c));
      && IsRecord(v) && Get(v, SCHEMA) == Some(Num(1)) && Get(v, CREATE_KEY) == Some(Str(c.key))
      && Get(v, CREATE_REQUEST) == Some(c.request) && Get(v, STAGE) == Some(Str(CREATING))
  {
    KeysDiffer();
    hide Ascii;
    var f := Encoded(Creating(c)).fields;
    FindAt(f, 0);
    FindAt(f, 1);
    FindAt(f, 2);
    FindAt(f, 3);
  }

  function BaseFields(u: Upload): seq<Entry<Json>>
    requires u.Session?
  {
    [Entry(SCHEMA, Num(1)), Entry(SESSION_ID, Str(u.sessionId)), Entry(FINALIZE_ATTEMPT, AttemptJson(u.finalizeKey, u.expectedVersion)),
     Entry(STAGE, Str(StageText(u.stage)))]
  }

  function CreatedKey(u: Upload): Option<Json>
    requires u.Session?
  {
    if u.created.Some? then Some(Str(u.created.value.key)) else None
  }

  function CreatedRequest(u: Upload): Option<Json>
    requires u.Session?
  {
    if u.created.Some? then Some(u.created.value.request) else None
  }

  lemma BaseReads(u: Upload)
    requires u.Session?
    ensures var f := BaseFields(u);
      && Find(f, SCHEMA) == Some(Num(1)) && Find(f, SESSION_ID) == Some(Str(u.sessionId))
      && Find(f, FINALIZE_ATTEMPT) == Some(AttemptJson(u.finalizeKey, u.expectedVersion))
      && Find(f, STAGE) == Some(Str(StageText(u.stage)))
      && Find(f, ABORT_KEY) == None && Find(f, ASSET_ID) == None && Find(f, CREATE_KEY) == None && Find(f, CREATE_REQUEST) == None
  {
    KeysDiffer();
    hide Ascii, AttemptJson, StageText;
    var f := BaseFields(u);
    FindAt(f, 0);
    FindAt(f, 1);
    FindAt(f, 2);
    FindAt(f, 3);
    FindNone(f, ABORT_KEY);
    FindNone(f, ASSET_ID);
    FindNone(f, CREATE_KEY);
    FindNone(f, CREATE_REQUEST);
  }

  lemma SessionField(u: Upload, q: Text)
    requires u.Session?
    ensures Get(Encoded(u), q) ==
      if Find(BaseFields(u), q).Some? then Find(BaseFields(u), q)
      else if q == ABORT_KEY && u.abortKey.Some? then TextJson(u.abortKey)
      else if q == ASSET_ID && u.assetId.Some? then TextJson(u.assetId)
      else if q == CREATE_KEY && u.created.Some? then CreatedKey(u)
      else if q == CREATE_REQUEST then CreatedRequest(u)
      else None
  {
    KeysDiffer();
    hide Find, Ascii, OptionalField;
    var f := BaseFields(u);
    var g := f + OptionalField(ABORT_KEY, TextJson(u.abortKey));
    var h := g + OptionalField(ASSET_ID, TextJson(u.assetId));
    var i := h + OptionalField(CREATE_KEY, CreatedKey(u));
    FindAppended(f, ABORT_KEY, TextJson(u.abortKey), q);
    FindAppended(g, ASSET_ID, TextJson(u.assetId), q);
    FindAppended(h, CREATE_KEY, CreatedKey(u), q);
    FindAppended(i, CREATE_REQUEST, CreatedRequest(u), q);
    assert Encoded(u) == Obj(i + OptionalField(CREATE_REQUEST, CreatedRequest(u)));
  }

  lemma SessionFields(u: Upload)
    requires u.Session?
    ensures var v := Encoded(u);
      && Get(v, SCHEMA) == Some(Num(1)) && Get(v, SESSION_ID) == Some(Str(u.sessionId))
      && Get(v, FINALIZE_ATTEMPT) == Some(AttemptJson(u.finalizeKey, u.expectedVersion))
      && Get(v, STAGE) == Some(Str(StageText(u.stage)))
      && Get(v, ABORT_KEY) == TextJson(u.abortKey) && Get(v, ASSET_ID) == TextJson(u.assetId)
      && Get(v, CREATE_KEY) == CreatedKey(u) && Get(v, CREATE_REQUEST) == CreatedRequest(u)
  {
    BaseReads(u);
    KeysDiffer();
    hide Find, Ascii, Encoded, BaseFields, StageText, AttemptJson, Get;
    SessionField(u, SCHEMA);
    SessionField(u, SESSION_ID);
    SessionField(u, FINALIZE_ATTEMPT);
    SessionField(u, STAGE);
    SessionField(u, ABORT_KEY);
    SessionField(u, ASSET_ID);
    SessionField(u, CREATE_KEY);
    SessionField(u, CREATE_REQUEST);
  }

  function FieldKeys(u: Upload): seq<Text>
    requires u.Session?
  {
    [SCHEMA, SESSION_ID, FINALIZE_ATTEMPT, STAGE]
    + (if u.abortKey.Some? then [ABORT_KEY] else []) + (if u.assetId.Some? then [ASSET_ID] else [])
    + (if u.created.Some? then [CREATE_KEY, CREATE_REQUEST] else [])
  }

  lemma FieldKeysDistinct(u: Upload)
    requires u.Session?
    ensures forall i, j :: 0 <= i < j < |FieldKeys(u)| ==> FieldKeys(u)[i] != FieldKeys(u)[j]
  {
    KeysDiffer();
    hide Ascii;
  }

  lemma SessionKeys(u: Upload)
    requires u.Session?
    ensures var f := Encoded(u).fields; |f| == |FieldKeys(u)| && forall i :: 0 <= i < |f| ==> f[i].key == FieldKeys(u)[i]
  {
    hide Ascii, AttemptJson, StageText;
  }

  lemma SessionIsRecord(u: Upload)
    requires u.Session?
    ensures IsRecord(Encoded(u))
  {
    FieldKeysDistinct(u);
    SessionKeys(u);
    assert Encoded(u).Obj?;
    hide Encoded, FieldKeys;
  }

  // ------------------------------------------------------------ round trips

  predicate IsIdText(t: Text) { 1 <= |t| <= 256 }

  predicate StorableCreation(c: Creation) { IsIdText(c.key) && IsCreateRequest(c.request) }

  // The states that survive storage.
  predicate Storable(u: Upload) {
    match u
    case Creating(creation) => StorableCreation(creation)
    case Session(sessionId, key, version, _, abortKey, creation, assetId) =>
      && IsIdText(sessionId) && IsIdText(key) && 1 <= version <= MAXIMUM_SAFE_INTEGER
      && (abortKey.Some? ==> IsIdText(abortKey.value)) && (assetId.Some? ==> IsIdText(assetId.value))
      && (creation.Some? ==> StorableCreation(creation.value))
  }

  lemma AttemptReads(key: Text, version: int)
    ensures IsFinalizeAttempt(AttemptJson(key, version)) <==> IsIdText(key) && 1 <= version <= MAXIMUM_SAFE_INTEGER
    ensures Value(AttemptJson(key, version), KEY) == Str(key)
    ensures Get(AttemptJson(key, version), REQUEST) == Some(Obj([Entry(VERSION, Num(version))]))
    ensures Value(Value(AttemptJson(key, version), REQUEST), VERSION) == Num(version)
  {
    KeysDiffer();
    hide Ascii;
    var v := AttemptJson(key, version);
    FindAt(v.fields, 0);
    FindAt(v.fields, 1);
    FindAt([Entry(VERSION, Num(version))], 0);
  }

  lemma DecodedIff(u: Upload)
    ensures Decoded(Encoded(u)) == if Storable(u) then Some(u) else None
  {
    match u {
      case Creating(creation) =>
        CreatingFields(creation);
        hide Ascii, IsCreateRequest, Encoded, Get;
      case Session(_, key, version, stage, _, _, _) =>
        SessionFields(u);
        SessionIsRecord(u);
        AttemptReads(key, version);
        StagesDiffer(stage);
        hide Ascii, IsCreateRequest, Encoded, AttemptJson, StageText, StageOf, IsFinalizeAttempt, Get;
        SessionDecodes(u, Encoded(u));
    }
  }

  lemma SessionDecodes(u: Upload, v: Json)
    requires u.Session? && IsRecord(v)
    requires Get(v, SCHEMA) == Some(Num(1)) && Get(v, SESSION_ID) == Some(Str(u.sessionId))
    requires Get(v, FINALIZE_ATTEMPT) == Some(AttemptJson(u.finalizeKey, u.expectedVersion))
    requires Get(v, STAGE) == Some(Str(StageText(u.stage)))
    requires Get(v, ABORT_KEY) == TextJson(u.abortKey) && Get(v, ASSET_ID) == TextJson(u.assetId)
    requires Get(v, CREATE_KEY) == CreatedKey(u) && Get(v, CREATE_REQUEST) == CreatedRequest(u)
    ensures Decoded(v) == if Storable(u) then Some(u) else None
  {
    AttemptReads(u.finalizeKey, u.expectedVersion);
    StagesDiffer(u.stage);
    hide Ascii, IsCreateRequest, AttemptJson, StageText, StageOf, IsFinalizeAttempt, Get;
  }

  // ------------------------------------------------------------ well-formed

  lemma LettersNoIndex(key: Text)
    requires key != [] && key[0] >= 97
    ensures !IndexKey(key)
  {
    assert key[0] in key;
  }

  lemma RequestKeysAreNames()
    ensures |REQUEST_KEYS| == 11 && forall key <- REQUEST_KEYS :: key != [] && key[0] >= 97
  {
  }

  // Every field of an acceptable request is a text, null or a safe integer.
  lemma RequestFieldPlain(v: Json, f: Entry<Json>)
    requires IsCreateRequest(v) && f in v.fields
    ensures WellFormed(f.value) && !IndexKey(f.key)
  {
    hide Ascii, IsSha256, Find, IndexKey, WellFormed;
    var i :| 0 <= i < |v.fields| && v.fields[i] == f;
    FindAt(v.fields, i);
    assert f.key in REQUEST_KEYS;
    RequestKeysAreNames();
    LettersNoIndex(f.key);
    FieldOfRequest(v, f);
  }

  lemma FieldOfRequest(v: Json, f: Entry<Json>)
    requires IsCreateRequest(v) && f.key in REQUEST_KEYS && Get(v, f.key) == Some(f.value)
    ensures WellFormed(f.value)
  {
    hide Ascii, IsSha256, Get, IsRecord, OnlyKeys;
    var j :| 0 <= j < |REQUEST_KEYS| && REQUEST_KEYS[j] == f.key;
    assert Get(v, REQUEST_KEYS[j]) == Some(f.value);
  }

  lemma RequestWellFormed(v: Json)
    requires IsCreateRequest(v)
    ensures WellFormed(v)
  {
    forall i | 0 <= i < |v.fields| ensures WellFormed(v.fields[i].value) && !IndexKey(v.fields[i].key) {
      RequestFieldPlain(v, v.fields[i]);
    }
    assert DistinctKeys(v.fields);
    hide IndexKey, IsCreateRequest, WellFormed;
    NamesWellFormed(v.fields);
  }

  ghost predicate Plain(u: Upload) {
    match u
    case Creating(creation) => WellFormed(creation.request)
    case Session(_, _, version, _, _, creation, _) => WellFormed(Num(version)) && (creation.Some? ==> WellFormed(creation.value.request))
  }

  lemma EncodedWellFormed(u: Upload)
    requires Plain(u)
    ensures WellFormed(Encoded(u))
  {
    KeysDiffer();
    KeysAreNames();
    hide Ascii, IndexKey, StageText;
    if u.Session? {
      SessionIsRecord(u);
      AttemptWellFormed(u.finalizeKey, u.expectedVersion);
      var f := Encoded(u).fields;
      forall i | 0 <= i < |f| ensures WellFormed(f[i].value) && !IndexKey(f[i].key) {}
      assert DistinctKeys(f);
      NamesWellFormed(f);
    } else {
      var f := Encoded(u).fields;
      assert DistinctKeys(f) && forall i :: 0 <= i < 4 ==> WellFormed(f[i].value) && !IndexKey(f[i].key);
    }
  }

  lemma KeysAreNames()
    ensures !IndexKey(SCHEMA) && !IndexKey(CREATE_KEY) && !IndexKey(CREATE_REQUEST) && !IndexKey(STAGE) && !IndexKey(SESSION_ID)
    ensures !IndexKey(FINALIZE_ATTEMPT) && !IndexKey(ABORT_KEY) && !IndexKey(ASSET_ID) && !IndexKey(KEY) && !IndexKey(REQUEST)
    ensures !IndexKey(VERSION)
  {
    hide IndexKey;
    LettersNoIndex(SCHEMA);
    LettersNoIndex(CREATE_KEY);
    LettersNoIndex(CREATE_REQUEST);
    LettersNoIndex(STAGE);
    LettersNoIndex(SESSION_ID);
    LettersNoIndex(FINALIZE_ATTEMPT);
    LettersNoIndex(ABORT_KEY);
    LettersNoIndex(ASSET_ID);
    LettersNoIndex(KEY);
    LettersNoIndex(REQUEST);
    LettersNoIndex(VERSION);
  }

  lemma AttemptWellFormed(key: Text, version: int)
    requires WellFormed(Num(version))
    ensures WellFormed(AttemptJson(key, version))
  {
    KeysDiffer();
    KeysAreNames();
    hide Ascii, IndexKey;
    var inner := Obj([Entry(VERSION, Num(version))]);
    assert WellFormed(inner);
    var f := AttemptJson(key, version).fields;
    assert DistinctKeys(f) && WellFormed(f[0].value) && WellFormed(f[1].value);
  }

  // What is stored reads back exactly when the state is storable; otherwise it
  // reads as nothing.
  lemma RoundTripIff(parse: Text -> Option<Json>, u: Upload)
    requires ParsesJson(parse) && Plain(u)
    ensures Decode(parse, Encode(u)) == if Storable(u) then Some(u) else None
  {
    EncodedWellFormed(u);
    DecodedIff(u);
    assert RoundTrips(parse, Encoded(u));
    assert Encode(u)[0] == OPEN_BRACE;
    hide Decoded, Encoded, Stringify, WellFormed;
  }

  // Whatever text is stored, decoding it, encoding the result and decoding
  // again changes nothing.
  lemma DecodedIsStable(parse: Text -> Option<Json>, raw: Text)
    requires ParsesJson(parse) && Decode(parse, raw).Some?
    ensures var u := Decode(parse, raw).value; Storable(u) && Decode(parse, Encode(u)) == Some(u)
  {
    var u := Decode(parse, raw).value;
    DecodedIsStorable(parse(raw).value, u);
    StorableIsPlain(u);
    hide Decode, Encode, Storable, Plain;
    RoundTripIff(parse, u);
  }

  lemma DecodedIsStorable(v: Json, u: Upload)
    requires Decoded(v) == Some(u)
    ensures Storable(u)
  {
    hide Ascii, IsCreateRequest, StageOf, Get, OnlyKeys, IsRecord;
  }

  lemma StorableIsPlain(u: Upload)
    requires Storable(u)
    ensures Plain(u)
  {
    hide IsCreateRequest;
    match u {
      case Creating(creation) => RequestWellFormed(creation.request);
      case Session(_, _, _, _, _, creation, _) => if creation.Some? { RequestWellFormed(creation.value.request); }
    }
  }

  // An upload of any kind but an image is lost with the page: its creation does
  // not decode.
  lemma OtherKindsAreLost(parse: Text -> Option<Json>, c: Creation)
    requires ParsesJson(parse) && WellFormed(c.request)
    requires Get(c.request, ASSET_KIND).Some? && Get(c.request, ASSET_KIND) != Some(Str(IMAGE))
    ensures Decode(parse, Encode(Creating(c))) == None
  {
    RoundTripIff(parse, Creating(c));
    hide Decode, Encode, Get, OnlyKeys, IsRecord, Ascii;
  }

  const LORA_REQUEST := Obj([
    Entry(Ascii("retention_class"), Str(Ascii("TASK"))), Entry(ASSET_KIND, Str(Ascii("LORA"))),
    Entry(Ascii("filename"), Str(Ascii("a.bin"))), Entry(Ascii("declared_mime"), Str(Ascii("application/octet-stream"))),
    Entry(Ascii("byte_length"), Num(1)), Entry(Ascii("sha256"), Str(Zeros(64))),
    Entry(Ascii("category"), Str(Ascii("c"))), Entry(Ascii("role"), Str(Ascii("r")))])

  // For one, the creation of a LoRA asset.
  lemma LoraIsLost(parse: Text -> Option<Json>)
    requires ParsesJson(parse)
    ensures var u := Reduce(None, CreateStarted(Ascii("create-1"), LORA_REQUEST));
      u.Some? && Decode(parse, Encode(u.value)) == None
  {
    LoraWellFormed();
    hide Decode, Encode;
    OtherKindsAreLost(parse, Creation(Ascii("create-1"), LORA_REQUEST));
  }

  lemma LoraWellFormed()
    ensures WellFormed(LORA_REQUEST)
    ensures Get(LORA_REQUEST, ASSET_KIND) == Some(Str(Ascii("LORA"))) && Ascii("LORA") != IMAGE
  {
    var f := LORA_REQUEST.fields;
    assert |Ascii("LORA")| == 4 && |IMAGE| == 5;
    LoraKeys();
    hide Ascii, IndexKey, Zeros;
    FindAt(f, 1);
    LoraValues();
    hide WellFormed;
    NamesWellFormed(f);
  }

  lemma LoraValues()
    ensures forall i :: 0 <= i < |LORA_REQUEST.fields| ==> WellFormed(LORA_REQUEST.fields[i].value)
  {
    hide Ascii, Zeros;
  }

  lemma LoraKeys()
    ensures DistinctKeys(LORA_REQUEST.fields) && forall i :: 0 <= i < 8 ==> !IndexKey(LORA_REQUEST.fields[i].key)
  {
    var f := LORA_REQUEST.fields;
    assert |f[0].key| == 15 && |f[1].key| == 10 && |f[2].key| == 8 && |f[3].key| == 13;
    assert |f[4].key| == 11 && |f[5].key| == 6 && |f[6].key| == 8 && |f[7].key| == 4;
    assert f[2].key[0] == 102 && f[6].key[0] == 99;
    assert forall i :: 0 <= i < 8 ==> f[i].key[0] >= 97;
    forall i | 0 <= i < 8 ensures !IndexKey(f[i].key) { LettersNoIndex(f[i].key); }
    hide Ascii, IndexKey;
  }

  // -------------------------------------------------------------------- runs

  ghost predicate Sound(u: Option<Upload>) {
    u.Some? && u.value.Session? ==> (u.value.stage == Finalized <==> u.value.assetId.Some?) && u.value.created.Some?
  }

  // Over any run from the empty workflow a session has an asset exactly when it
  // is finalized, and it keeps its creation.
  lemma {:induction false} FinalizedIffAsset(events: seq<Event>)
    ensures Sound(After(None, events))
  {
    if events != [] { FinalizedIffAsset(events[..|events| - 1]); }
  }

  // Finalized is never left, whatever events follow.
  lemma {:induction false} FinalizedIsAbsorbing(u: Upload, events: seq<Event>)
    requires u.Session? && u.stage == Finalized
    ensures var t := After(Some(u), events); t.Some? && t.value.Session? && t.value.stage == Finalized
  {
    if events != [] { FinalizedIsAbsorbing(u, events[..|events| - 1]); }
  }

  function CreationIn(u: Option<Upload>): Option<Creation> {
    if u.None? then None else if u.value.Creating? then Some(u.value.creation) else u.value.created
  }

  // Once made, a creation keeps its key and request.
  lemma {:induction false} CreationIsKept(u: Option<Upload>, events: seq<Event>)
    requires CreationIn(u).Some?
    ensures CreationIn(After(u, events)) == CreationIn(u)
  {
    if events != [] { CreationIsKept(u, events[..|events| - 1]); }
  }

  predicate Issues(event: Event, key: Text, version: int) {
    || (event.SessionOpened? && event.finalizeKey == Some(key) && event.expectedVersion == version)
    || (event.FinalizeReconciled? && event.key == key && event.expectedVersion == version)
  }

  // The keys issued by different events are different.
  ghost predicate FreshKeys(events: seq<Event>) {
    forall i, j, key, m, n :: 0 <= i < j < |events| && Issues(events[i], key, m) ==> !Issues(events[j], key, n)
  }

  lemma {:induction false} KeyWasIssued(events: seq<Event>) returns (k: nat)
    requires var u := After(None, events); u.Some? && u.value.Session?
    ensures var u := After(None, events).value; k < |events| && Issues(events[k], u.finalizeKey, u.expectedVersion)
  {
    var before := After(None, events[..|events| - 1]);
    var last := events[|events| - 1];
    if Issues(last, After(None, events).value.finalizeKey, After(None, events).value.expectedVersion) {
      k := |events| - 1;
    } else {
      k := KeyWasIssued(events[..|events| - 1]);
    }
  }

  // With fresh keys, a finalize key stays tied to one expected version through
  // the whole run.
  lemma FinalizeKeyNamesVersion(events: seq<Event>, m: nat, n: nat)
    requires FreshKeys(events) && m <= |events| && n <= |events|
    requires var u, w := After(None, events[..m]), After(None, events[..n]);
      u.Some? && u.value.Session? && w.Some? && w.value.Session? && u.value.finalizeKey == w.value.finalizeKey
    ensures After(None, events[..m]).value.expectedVersion == After(None, events[..n]).value.expectedVersion
  {
    var i := KeyWasIssued(events[..m]);
    var j := KeyWasIssued(events[..n]);
    hide After;
    assert events[..m][i] == events[i] && events[..n][j] == events[j];
  }

  // Identifiers, versions and requests as the decoder demands them.
  predicate InRange(event: Event) {
    match event
    case CreateStarted(key, request) => IsIdText(key) && IsCreateRequest(request)
    case SessionOpened(sessionId, version, finalizeKey) =>
      IsIdText(sessionId) && 1 <= version <= MAXIMUM_SAFE_INTEGER && (finalizeKey.Some? ==> IsIdText(finalizeKey.value))
    case AbortKeyAssigned(key) => IsIdText(key)
    case FinalizeReconciled(key, version, _) => IsIdText(key) && 1 <= version <= MAXIMUM_SAFE_INTEGER
    case AssetFinalized(sessionId, assetId) => IsIdText(sessionId) && IsIdText(assetId)
    case _ => true
  }

  // A run of such events only reaches states that survive storage.
  lemma {:induction false} ReachableIsStorable(events: seq<Event>)
    requires forall event <- events :: InRange(event)
    ensures After(None, events).Some? ==> Storable(After(None, events).value)
  {
    if events != [] {
      var front := events[..|events| - 1];
      assert events[|events| - 1] in events;
      forall event <- front ensures InRange(event) { assert event in events; }
      ReachableIsStorable(front);
      hide IsCreateRequest;
    }
  }

  lemma ReachableRoundTrips(parse: Text -> Option<Json>, events: seq<Event>)
    requires ParsesJson(parse) && forall event <- events :: InRange(event)
    requires After(None, events).Some?
    ensures Decode(parse, Encode(After(None, events).value)) == After(None, events)
  {
    ReachableIsStorable(events);
    hide After, Decode, Encode, InRange, Storable, Plain;
    StorableIsPlain(After(None, events).value);
    RoundTripIff(parse, After(None, events).value);
  }
}
