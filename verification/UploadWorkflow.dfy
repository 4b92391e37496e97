// The upload workflow of apps/web/lib/upload-workflow.ts: a reducer over
// events, and its encoding in browser storage.
module UploadWorkflow {
  import opened Texts
  import opened Json
  import opened PendingCommand

  const SCHEMA := Ascii("schemaVersion")
  const CREATE_KEY := Ascii("createIdempotencyKey")
  const CREATE_REQUEST := Ascii("createRequest")
  const STAGE := Ascii("stage")
  const SESSION_ID := Ascii("sessionId")
  const FINALIZE_ATTEMPT := Ascii("finalizeAttempt")
  const KEY := Ascii("idempotencyKey")
  const REQUEST := Ascii("request")
  const VERSION := Ascii("expected_version")
  const ABORT_KEY := Ascii("abortIdempotencyKey")
  const ASSET_ID := Ascii("assetId")
  const LEGACY_KEY := Ascii("finalizeIdempotencyKey")
  const LEGACY_VERSION := Ascii("finalizeExpectedVersion")
  const CREATING := Ascii("CREATING")

  datatype Stage = Open | Uploading | Uploaded | Finalizing | Finalized

  function StageText(stage: Stage): Text {
    match stage
    case Open => Ascii("OPEN")
    case Uploading => Ascii("UPLOADING")
    case Uploaded => Ascii("UPLOADED")
    case Finalizing => Ascii("FINALIZING")
    case Finalized => Ascii("FINALIZED")
  }

  // A creation request is kept as the JSON value it is sent as.
  datatype Creation = Creation(key: Text, request: Json)

  datatype Upload =
    | Creating(creation: Creation)
    | Session(
        sessionId: Text, finalizeKey: Text, expectedVersion: int, stage: Stage, abortKey: Option<Text>,
        created: Option<Creation>, assetId: Option<Text>)

  datatype Event =
    | CreateStarted(key: Text, request: Json)
    | SessionOpened(sessionId: Text, expectedVersion: int, finalizeKey: Option<Text>)
    | StageChanged(uploaded: bool)  // to UPLOADED, or to UPLOADING
    | AbortKeyAssigned(key: Text)
    | FinalizeStarted
    | FinalizeReconciled(key: Text, expectedVersion: int, reopen: bool)  // to OPEN, or to FINALIZING
    | AssetFinalized(sessionId: Text, assetId: Text)

  // ------------------------------------------------------------- the reducer

  // reduceUploadWorkflow; None where it throws.
  function Reduce(current: Option<Upload>, event: Event): Option<Upload> {
    match (current, event)
    case (None, CreateStarted(key, request)) => Some(Creating(Creation(key, request)))
    case (Some(Creating(creation)), SessionOpened(sessionId, version, finalizeKey)) =>
      if finalizeKey.None? || finalizeKey.value == [] then None
      else Some(Session(sessionId, finalizeKey.value, version, Open, None, Some(creation), None))
    case (Some(Session(_, _, _, stage, _, _, _)), _) => Advance(current.value, event)
    case _ => None
  }

  function Advance(u: Upload, event: Event): Option<Upload>
    requires u.Session?
  {
    match event
    case CreateStarted(_, _) => None
    case SessionOpened(sessionId, _, _) => Some(u.(sessionId := sessionId))
    case StageChanged(uploaded) =>
      if !uploaded && u.stage == Open then Some(u.(stage := Uploading))
      else if uploaded && u.stage == Uploading then Some(u.(stage := Uploaded))
      else None
    case AbortKeyAssigned(key) => Some(u.(abortKey := Some(key)))
    case FinalizeStarted =>
      if u.stage in {Uploading, Uploaded, Finalizing} then Some(u.(stage := Finalizing)) else None
    case FinalizeReconciled(key, version, reopen) =>
      if u.stage != Finalizing then None
      else Some(u.(finalizeKey := key, expectedVersion := version, stage := if reopen then Open else Finalizing))
    case AssetFinalized(sessionId, assetId) =>
      Some(u.(sessionId := sessionId, stage := Finalized, assetId := Some(assetId)))
  }

  // An event that throws leaves the workflow as it was.
  function After(u: Option<Upload>, events: seq<Event>): Option<Upload> {
    if events == [] then u
    else
      var before := After(u, events[..|events| - 1]);
      var next := Reduce(before, events[|events| - 1]);
      if next.Some? then next else before
  }

  // ------------------------------------------------------------ the encoding

  predicate IsRecord(v: Json) { v.Obj? && forall i, j :: 0 <= i < j < |v.fields| ==> v.fields[i].key != v.fields[j].key }

  predicate OnlyKeys(v: Json, keys: seq<Text>)
    requires v.Obj?
  {
    forall f <- v.fields :: f.key in keys
  }

  predicate IsId(v: Option<Json>) { IsText(v) && 1 <= |v.value.s| <= 256 }

  predicate IsVersion(v: Option<Json>) { v.Some? && v.value.Num? && 1 <= v.value.n <= MAXIMUM_SAFE_INTEGER }

  predicate IsOptionalText(v: Option<Json>) { v.None? || v.value.Null? || v.value.Str? }

  const ASSET_KIND := Ascii("asset_kind")
  const IMAGE := Ascii("IMAGE")

  const REQUEST_KEYS := [Ascii("retention_class"), ASSET_KIND, Ascii("filename"), Ascii("declared_mime"),
                         Ascii("byte_length"), Ascii("sha256"), Ascii("workflow_id"), Ascii("product_id"),
                         Ascii("sku_id"), Ascii("category"), Ascii("role")]

  predicate IsCreateRequest(v: Json) {
    && IsRecord(v) && OnlyKeys(v, REQUEST_KEYS)
    && Get(v, Ascii("retention_class")) in {Some(Str(Ascii("TASK"))), Some(Str(Ascii("FOUNDATION")))}
    && (Get(v, ASSET_KIND).None? || Get(v, ASSET_KIND) == Some(Str(IMAGE)))
    && IsText(Get(v, Ascii("filename"))) && IsText(Get(v, Ascii("declared_mime")))
    && IsVersion(Get(v, Ascii("byte_length")))
    && IsText(Get(v, Ascii("sha256"))) && IsSha256(Value(v, Ascii("sha256")).s)
    && IsOptionalText(Get(v, Ascii("workflow_id"))) && IsOptionalText(Get(v, Ascii("product_id")))
    && IsOptionalText(Get(v, Ascii("sku_id")))
    && IsText(Get(v, Ascii("category"))) && IsText(Get(v, Ascii("role")))
  }

  predicate IsFinalizeAttempt(v: Json) {
    && IsRecord(v) && OnlyKeys(v, [KEY, REQUEST]) && IsId(Get(v, KEY))
    && Get(v, REQUEST).Some? && IsRecord(Value(v, REQUEST)) && OnlyKeys(Value(v, REQUEST), [VERSION])
    && IsVersion(Get(Value(v, REQUEST), VERSION))
  }

  function OptionalField(key: Text, v: Option<Json>): seq<Entry<Json>> {
    if v.Some? then [Entry(key, v.value)] else []
  }

  function AttemptJson(key: Text, version: int): Json {
    Obj([Entry(KEY, Str(key)), Entry(REQUEST, Obj([Entry(VERSION, Num(version))]))])
  }

  function TextJson(t: Option<Text>): Option<Json> { if t.Some? then Some(Str(t.value)) else None }

  // encodePersistedUpload, before JSON.stringify.
  function Encoded(u: Upload): Json {
    match u
    case Creating(creation) =>
      Obj([Entry(SCHEMA, Num(1)), Entry(CREATE_KEY, Str(creation.key)), Entry(CREATE_REQUEST, creation.request),
           Entry(STAGE, Str(CREATING))])
    case Session(sessionId, key, version, stage, abortKey, creation, assetId) =>
      Obj([Entry(SCHEMA, Num(1)), Entry(SESSION_ID, Str(sessionId)), Entry(FINALIZE_ATTEMPT, AttemptJson(key, version)),
           Entry(STAGE, Str(StageText(stage)))]
          + OptionalField(ABORT_KEY, TextJson(abortKey)) + OptionalField(ASSET_ID, TextJson(assetId))
          + OptionalField(CREATE_KEY, if creation.Some? then Some(Str(creation.value.key)) else None)
          + OptionalField(CREATE_REQUEST, if creation.Some? then Some(creation.value.request) else None))
  }

  function StageOf(v: Option<Json>): Option<Stage> {
    if v == Some(Str(StageText(Open))) then Some(Open)
    else if v == Some(Str(StageText(Uploading))) then Some(Uploading)
    else if v == Some(Str(StageText(Uploaded))) then Some(Uploaded)
    else if v == Some(Str(StageText(Finalizing))) then Some(Finalizing)
    else if v == Some(Str(StageText(Finalized))) then Some(Finalized)
    else None
  }

  function DecodeCreate(v: Json): Option<Upload> {
    if (Get(v, SCHEMA).Some? && Get(v, SCHEMA) != Some(Num(1))) || !IsId(Get(v, CREATE_KEY))
       || Get(v, CREATE_REQUEST).None? || !IsCreateRequest(Value(v, CREATE_REQUEST))
    then None
    else Some(Creating(Creation(Value(v, CREATE_KEY).s, Value(v, CREATE_REQUEST))))
  }

  // The attempt as stored now, or as it was stored before there was a schema.
  function Attempt(v: Json): Option<(Text, int)> {
    if Get(v, SCHEMA) == Some(Num(1)) then
      var attempt := Value(v, FINALIZE_ATTEMPT);
      if IsFinalizeAttempt(attempt) then Some((Value(attempt, KEY).s, Value(Value(attempt, REQUEST), VERSION).n)) else None
    else if IsId(Get(v, LEGACY_KEY)) && IsVersion(Get(v, LEGACY_VERSION)) then
      Some((Value(v, LEGACY_KEY).s, Value(v, LEGACY_VERSION).n))
    else None
  }

  // optionalSessionFacts, for the creation.
  function CreationOf(v: Json): Option<Option<Creation>> {
    if Get(v, CREATE_KEY).None? && Get(v, CREATE_REQUEST).None? then Some(None)
    else if IsId(Get(v, CREATE_KEY)) && Get(v, CREATE_REQUEST).Some? && IsCreateRequest(Value(v, CREATE_REQUEST)) then
      Some(Some(Creation(Value(v, CREATE_KEY).s, Value(v, CREATE_REQUEST))))
    else None
  }

  function OptionalId(v: Option<Json>): Option<Option<Text>> {
    if v.None? then Some(None) else if IsId(v) then Some(Some(v.value.s)) else None
  }

  function DecodeSession(v: Json): Option<Upload> {
    match (Attempt(v), StageOf(Get(v, STAGE)), OptionalId(Get(v, ABORT_KEY)), OptionalId(Get(v, ASSET_ID)), CreationOf(v))
    case (Some((key, version)), Some(stage), Some(abortKey), Some(assetId), Some(creation)) =>
      if !IsId(Get(v, SESSION_ID)) then None
      else Some(Session(Value(v, SESSION_ID).s, key, version, stage, abortKey, creation, assetId))
    case _ => None
  }

  function Decoded(v: Json): Option<Upload> {
    if !IsRecord(v) then None
    else if Get(v, STAGE) == Some(Str(CREATING)) then DecodeCreate(v)
    else DecodeSession(v)
  }

  // decodePersistedUpload.
  function Decode(parse: Text -> Option<Json>, raw: Text): Option<Upload> {
    if raw == [] || parse(raw).None? then None else Decoded(parse(raw).value)
  }

  function Encode(u: Upload): Text { Stringify(Encoded(u)) }
}
