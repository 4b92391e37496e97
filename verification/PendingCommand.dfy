// The persisted pending-command record of
// apps/web/lib/brand-profile-pending-command.ts and the checks a stored
// value has to pass before it is believed.
module PendingCommand {
  import opened Texts
  import opened Json
  import opened JsonEncoding
  import opened CanonicalJson

  const SCHEMA_VERSION := Ascii("schema_version")
  const ACTION := Ascii("action")
  const WORKSPACE_ID := Ascii("workspace_id")
  const BRAND := Ascii("brand")
  const PROFILE_ID := Ascii("profile_id")
  const PROFILE_KEY := Ascii("profile_key")
  const EXPECTED_VERSION := Ascii("expected_version")
  const EXPECTED_PUBLICATION_VERSION := Ascii("expected_publication_version")
  const IDEMPOTENCY_KEY := Ascii("idempotency_key")
  const PAYLOAD := Ascii("payload")
  const PAYLOAD_SHA256 := Ascii("payload_sha256")
  const ATTEMPTED_DRAFT := Ascii("attempted_draft")
  const CREATED_AT := Ascii("created_at")
  const COMMAND_SHA256 := Ascii("command_sha256")

  const DRAFT := Ascii("draft")
  const CREATE := Ascii("CREATE")
  const UPDATE_DRAFT := Ascii("UPDATE_DRAFT")
  const PUBLISH := Ascii("PUBLISH")

  // What the browser supplies: SHA-256 in hexadecimal, the test that a text is
  // the ISO form of a date, and JSON.parse.
  datatype Platform = Platform(
    digest: Text -> Text,
    isoTimestamp: Text -> bool,
    parse: Text -> Option<Json>)

  // JSON.parse inverts JSON.stringify.
  ghost predicate ParsesJson(parse: Text -> Option<Json>) {
    forall v {:trigger RoundTrips(parse, v)} :: WellFormed(v) ==> RoundTrips(parse, v)
  }

  ghost predicate RoundTrips(parse: Text -> Option<Json>, v: Json) {
    parse(Stringify(v)) == Some(v)
  }

  // The least parser of that kind: it accepts what JSON.stringify can write.
  ghost function ReferenceParse(t: Text): Option<Json> {
    if exists v :: WellFormed(v) && Stringify(v) == t then
      var v :| WellFormed(v) && Stringify(v) == t;
      Some(v)
    else None
  }

  lemma ReferenceParsesJson()
    ensures ParsesJson(t => ReferenceParse(t))
  {
    var parse: Text -> Option<Json> := t => ReferenceParse(t);
    forall v | WellFormed(v) ensures RoundTrips(parse, v) {
      var w := ReferenceParse(Stringify(v)).value;
      WellFormedIsUnambiguous(v);
      WellFormedIsUnambiguous(w);
      StringifyInjective(v, w);
    }
  }

  // ----------------------------------------------------------- field access

  function Find(fields: seq<Entry<Json>>, key: Text): Option<Json> {
    if fields == [] then None
    else if fields[0].key == key then Some(fields[0].value)
    else Find(fields[1..], key)
  }

  // value[key] of a plain object; None where JavaScript has undefined.
  function Get(v: Json, key: Text): Option<Json> {
    if v.Obj? then Find(v.fields, key) else None
  }

  function Value(v: Json, key: Text): Json {
    match Get(v, key)
    case Some(w) => w
    case None => Null
  }

  // ------------------------------------------------------------- text tests

  predicate Alphanumeric(c: CodeUnit) {
    48 <= c <= 57 || 65 <= c <= 90 || 97 <= c <= 122
  }

  predicate IsToken(t: Text) {
    && 1 <= |t| <= 128 && Alphanumeric(t[0])
    && forall i :: 1 <= i < |t| ==> Alphanumeric(t[i]) || t[i] in {45, 46, 58, 95}
  }

  predicate LowerHex(c: CodeUnit) { 48 <= c <= 57 || 97 <= c <= 102 }

  predicate IsUuid(t: Text) {
    && |t| == 36
    && (forall i :: 0 <= i < 36 ==> if i in {8, 13, 18, 23} then t[i] == 45 else LowerHex(t[i]))
    && 49 <= t[14] <= 56
    && t[19] in {56, 57, 97, 98}
  }

  predicate IsSha256(t: Text) {
    |t| == 64 && forall i :: 0 <= i < 64 ==> LowerHex(t[i])
  }

  predicate IsIdempotencyKey(t: Text) {
    8 <= |t| <= 256 && forall i :: 0 <= i < |t| ==> 0x21 <= t[i] <= 0x7E
  }

  predicate Whitespace(c: CodeUnit) {
    || 9 <= c <= 13 || c in {32, 160, 0x1680, 0x2028, 0x2029, 0x202F, 0x205F, 0x3000, 0xFEFF}
    || 0x2000 <= c <= 0x200A
  }

  predicate IsBrand(t: Text) {
    && 1 <= |t| <= 128
    && !Whitespace(t[0]) && !Whitespace(t[|t| - 1])
    && forall i :: 0 <= i < |t| ==> 0x20 <= t[i] && t[i] != 0x7F
  }

  predicate IsSafeNonNegative(v: Option<Json>) {
    v.Some? && v.value.Num? && 0 <= v.value.n <= MAXIMUM_SAFE_INTEGER
  }

  predicate IsText(v: Option<Json>) { v.Some? && v.value.Str? }

  predicate IsTextList(v: Option<Json>) {
    v.Some? && v.value.Arr? && forall item <- v.value.items :: item.Str?
  }

  predicate IsRecordList(v: Option<Json>, textFields: seq<Text>) {
    && v.Some? && v.value.Arr?
    && forall item <- v.value.items :: item.Obj? && forall f <- textFields :: IsText(Get(item, f))
  }

  // ------------------------------------------------------- draft and payload

  predicate IsDraft(v: Option<Json>) {
    && v.Some? && v.value.Obj?
    && var d := v.value;
    && IsRecordList(Get(d, Ascii("rules")), [Ascii("code"), Ascii("scope"), Ascii("instruction")])
    && IsRecordList(Get(d, Ascii("approved_colors")), [Ascii("name"), Ascii("value")])
    && IsTextList(Get(d, Ascii("required_marks")))
    && IsTextList(Get(d, Ascii("prohibited_elements")))
    && IsTextList(Get(d, Ascii("tone_constraints")))
    && IsTextList(Get(d, Ascii("copy_constraints")))
    && IsText(Get(d, Ascii("purpose")))
    && IsText(Get(d, Ascii("provider")))
    && (var derivative := Get(d, Ascii("requires_derivative")); derivative.Some? && derivative.value.Bool?)
    && IsRecordList(Get(d, Ascii("selected_assets")), [Ascii("asset_version_id"), Ascii("role")])
  }

  predicate CarriesAttemptedDraft(payload: Json, command: Json) {
    && IsDraft(Get(payload, DRAFT))
    && Canonicalize(Value(payload, DRAFT)) == Canonicalize(Value(command, ATTEMPTED_DRAFT))
  }

  predicate PayloadMatchesCommand(v: Json) {
    var payload := Value(v, PAYLOAD);
    && payload.Obj? && IsDraft(Get(v, ATTEMPTED_DRAFT))
    && if Get(v, ACTION) == Some(Str(CREATE)) then
         && Get(v, PROFILE_ID) == Some(Null)
         && Get(v, EXPECTED_VERSION) == Some(Num(0))
         && Get(payload, BRAND) == Get(v, BRAND)
         && Get(payload, PROFILE_KEY) == Get(v, PROFILE_KEY)
         && CarriesAttemptedDraft(payload, v)
       else
         && Get(v, PROFILE_ID) != Some(Null)
         && Get(payload, EXPECTED_VERSION) == Get(v, EXPECTED_VERSION)
         && Get(v, EXPECTED_VERSION) != Some(Num(0))
         && if Get(v, ACTION) == Some(Str(UPDATE_DRAFT)) then
              CarriesAttemptedDraft(payload, v)
            else
              && Get(v, ACTION) == Some(Str(PUBLISH))
              && forall f <- payload.fields :: f.key == EXPECTED_VERSION
  }

  function CommandFields(): set<Text> {
    {SCHEMA_VERSION, ACTION, WORKSPACE_ID, BRAND, PROFILE_ID, PROFILE_KEY, EXPECTED_VERSION,
     EXPECTED_PUBLICATION_VERSION, IDEMPOTENCY_KEY, PAYLOAD, PAYLOAD_SHA256, ATTEMPTED_DRAFT,
     CREATED_AT, COMMAND_SHA256}
  }

  predicate TextField(v: Json, key: Text, test: Text -> bool) {
    IsText(Get(v, key)) && test(Value(v, key).s)
  }

  // isPendingCommand: the shape test applied to every stored value.
  predicate IsPendingCommand(p: Platform, v: Json) {
    && v.Obj?
    && (forall f <- v.fields :: f.key in CommandFields()) && |v.fields| == 14
    && Get(v, SCHEMA_VERSION) == Some(Num(1))
    && Get(v, ACTION) in {Some(Str(CREATE)), Some(Str(UPDATE_DRAFT)), Some(Str(PUBLISH))}
    && TextField(v, WORKSPACE_ID, IsToken)
    && TextField(v, BRAND, IsBrand)
    && (Get(v, PROFILE_ID) == Some(Null) || TextField(v, PROFILE_ID, IsUuid))
    && TextField(v, PROFILE_KEY, IsToken)
    && IsSafeNonNegative(Get(v, EXPECTED_VERSION))
    && IsSafeNonNegative(Get(v, EXPECTED_PUBLICATION_VERSION))
    && TextField(v, IDEMPOTENCY_KEY, IsIdempotencyKey)
    && Value(v, PAYLOAD).Obj?
    && TextField(v, PAYLOAD_SHA256, IsSha256)
    && IsDraft(Get(v, ATTEMPTED_DRAFT))
    && TextField(v, CREATED_AT, p.isoTimestamp)
    && TextField(v, COMMAND_SHA256, IsSha256)
    && PayloadMatchesCommand(v)
  }

  // ----------------------------------------------------------- fingerprints

  // commandFingerprintSource: every field but command_sha256.
  function FingerprintSource(v: Json): Json {
    Obj([
      Entry(SCHEMA_VERSION, Value(v, SCHEMA_VERSION)),
      Entry(ACTION, Value(v, ACTION)),
      Entry(WORKSPACE_ID, Value(v, WORKSPACE_ID)),
      Entry(BRAND, Value(v, BRAND)),
      Entry(PROFILE_ID, Value(v, PROFILE_ID)),
      Entry(PROFILE_KEY, Value(v, PROFILE_KEY)),
      Entry(EXPECTED_VERSION, Value(v, EXPECTED_VERSION)),
      Entry(EXPECTED_PUBLICATION_VERSION, Value(v, EXPECTED_PUBLICATION_VERSION)),
      Entry(IDEMPOTENCY_KEY, Value(v, IDEMPOTENCY_KEY)),
      Entry(PAYLOAD, Value(v, PAYLOAD)),
      Entry(PAYLOAD_SHA256, Value(v, PAYLOAD_SHA256)),
      Entry(ATTEMPTED_DRAFT, Value(v, ATTEMPTED_DRAFT)),
      Entry(CREATED_AT, Value(v, CREATED_AT))])
  }

  predicate PayloadFingerprintHolds(p: Platform, v: Json) {
    Get(v, PAYLOAD_SHA256) == Some(Str(Fingerprint(p.digest, Value(v, PAYLOAD))))
  }

  predicate CommandFingerprintHolds(p: Platform, v: Json) {
    Get(v, COMMAND_SHA256) == Some(Str(Fingerprint(p.digest, FingerprintSource(v))))
  }

  // How text is parsed, the three tests a stored record has to pass, and the
  // comparison that recognises a record.
  datatype Checks = Checks(
    parse: Text -> Option<Json>,
    isPendingCommand: Json -> bool,
    payloadFingerprintHolds: Json -> bool,
    commandFingerprintHolds: Json -> bool,
    sameCommand: (Json, Json) -> bool)

  function ChecksOf(p: Platform): Checks {
    Checks(p.parse, v => IsPendingCommand(p, v), v => PayloadFingerprintHolds(p, v), v => CommandFingerprintHolds(p, v),
           (a, b) => SameCommand(a, b))
  }

  predicate Verified(k: Checks, v: Json) {
    k.isPendingCommand(v) && k.payloadFingerprintHolds(v) && k.commandFingerprintHolds(v)
  }

  predicate SameOwner(a: Json, b: Json) {
    Get(a, WORKSPACE_ID) == Get(b, WORKSPACE_ID) && Get(a, BRAND) == Get(b, BRAND)
  }

  // What the ledger relies on: a parser that inverts JSON.stringify, a shape
  // test that finds the owner's two fields, and a comparison of records that
  // compares owners and equates a record with itself.
  ghost predicate Supported(k: Checks) {
    && ParsesJson(k.parse)
    && (forall v :: k.isPendingCommand(v) ==> IsText(Get(v, WORKSPACE_ID)) && IsText(Get(v, BRAND)))
    && (forall v :: k.sameCommand(v, v))
    && (forall a, b :: k.sameCommand(a, b) ==> SameOwner(a, b))
  }

  lemma PlatformSupportsLedger(p: Platform)
    requires ParsesJson(p.parse)
    ensures Supported(ChecksOf(p))
  {
    forall a, b | SameCommand(a, b) ensures SameOwner(a, b) { SameCommandSameOwner(a, b); }
  }

  // Some browser supplies all of it.
  lemma SupportExists()
    ensures exists p: Platform :: ParsesJson(p.parse) && Supported(ChecksOf(p))
  {
    ReferenceParsesJson();
    var p := Platform(t => t, t => true, t => ReferenceParse(t));
    assert p.parse == (t => ReferenceParse(t)) by {
      hide ReferenceParse;
    }
    PlatformSupportsLedger(p);
  }

  lemma SameCommandSameOwner(a: Json, b: Json)
    requires SameCommand(a, b)
    ensures SameOwner(a, b)
  {
    var keys := [SCHEMA_VERSION, ACTION, WORKSPACE_ID, BRAND, PROFILE_ID, PROFILE_KEY, EXPECTED_VERSION,
                 EXPECTED_PUBLICATION_VERSION, IDEMPOTENCY_KEY, PAYLOAD_SHA256, CREATED_AT, COMMAND_SHA256];
    assert keys[2] == WORKSPACE_ID && keys[3] == BRAND;
  }

  datatype Identity = Identity(workspaceId: Text, brand: Text)

  predicate OwnedBy(v: Json, identity: Identity) {
    Get(v, WORKSPACE_ID) == Some(Str(identity.workspaceId)) && Get(v, BRAND) == Some(Str(identity.brand))
  }

  function TextOf(v: Json, key: Text): Text {
    if IsText(Get(v, key)) then Value(v, key).s else []
  }

  function IdentityOf(v: Json): Identity {
    Identity(TextOf(v, WORKSPACE_ID), TextOf(v, BRAND))
  }

  // sameCommand: all fields but the payload and the attempted draft, which
  // the two fingerprints stand for.
  predicate SameCommand(candidate: Json, command: Json) {
    forall key <- [SCHEMA_VERSION, ACTION, WORKSPACE_ID, BRAND, PROFILE_ID, PROFILE_KEY, EXPECTED_VERSION,
                   EXPECTED_PUBLICATION_VERSION, IDEMPOTENCY_KEY, PAYLOAD_SHA256, CREATED_AT, COMMAND_SHA256]
      :: Get(candidate, key) == Get(command, key)
  }

  lemma SourceKeysDistinct(v: Json)
    ensures DistinctKeys(FingerprintSource(v).fields)
  {
    assert SCHEMA_VERSION[0] != PAYLOAD_SHA256[0];
    assert PROFILE_ID[0] != CREATED_AT[0];
    assert IDEMPOTENCY_KEY[0] != ATTEMPTED_DRAFT[0];
  }

  lemma {:induction false} FindUnambiguous(fields: seq<Entry<Json>>, key: Text)
    requires forall i :: 0 <= i < |fields| ==> Unambiguous(fields[i].value)
    ensures Find(fields, key).Some? ==> Unambiguous(Find(fields, key).value)
  {
    if fields != [] && fields[0].key != key { FindUnambiguous(fields[1..], key); }
  }

  lemma SourceUnambiguous(v: Json)
    requires Unambiguous(v)
    ensures Unambiguous(FingerprintSource(v))
  {
    SourceKeysDistinct(v);
    forall key ensures Unambiguous(Value(v, key)) {
      if v.Obj? { FindUnambiguous(v.fields, key); }
    }
  }

  lemma SameCommandSameSeal(a: Json, b: Json)
    requires SameCommand(a, b)
    ensures Get(a, COMMAND_SHA256) == Get(b, COMMAND_SHA256)
  {
    var keys := [SCHEMA_VERSION, ACTION, WORKSPACE_ID, BRAND, PROFILE_ID, PROFILE_KEY, EXPECTED_VERSION,
                 EXPECTED_PUBLICATION_VERSION, IDEMPOTENCY_KEY, PAYLOAD_SHA256, CREATED_AT, COMMAND_SHA256];
    assert keys[11] == COMMAND_SHA256;
  }

  // Two sealed records that sameCommand equates carry the same payload and
  // the same attempted draft, up to field order, unless the digest collides on
  // their two canonical texts.
  lemma SameCommandSameContent(p: Platform, a: Json, b: Json)
    requires Unambiguous(a) && Unambiguous(b)
    requires CommandFingerprintHolds(p, a) && CommandFingerprintHolds(p, b)
    requires Separates(p.digest, Canonicalize(FingerprintSource(a)), Canonicalize(FingerprintSource(b)))
    requires SameCommand(a, b)
    ensures Same(Value(a, PAYLOAD), Value(b, PAYLOAD))
    ensures Same(Value(a, ATTEMPTED_DRAFT), Value(b, ATTEMPTED_DRAFT))
  {
    SameCommandSameSeal(a, b);
    SealsDecideSame(p, a, b);
    SameSourcesSameContent(FingerprintSource(a), FingerprintSource(b), a, b);
  }

  lemma SameSourcesSameContent(s: Json, t: Json, a: Json, b: Json)
    requires s == FingerprintSource(a) && t == FingerprintSource(b) && Same(s, t)
    ensures Same(Value(a, PAYLOAD), Value(b, PAYLOAD))
    ensures Same(Value(a, ATTEMPTED_DRAFT), Value(b, ATTEMPTED_DRAFT))
  {
    SourceKeysDistinct(b);
    MatchedAt(s.fields, t.fields, 9);
    MatchedAt(s.fields, t.fields, 11);
  }

  lemma SealsDecideSame(p: Platform, a: Json, b: Json)
    requires Unambiguous(a) && Unambiguous(b)
    requires CommandFingerprintHolds(p, a) && CommandFingerprintHolds(p, b)
    requires Separates(p.digest, Canonicalize(FingerprintSource(a)), Canonicalize(FingerprintSource(b)))
    requires Get(a, COMMAND_SHA256) == Get(b, COMMAND_SHA256)
    ensures Same(FingerprintSource(a), FingerprintSource(b))
  {
    SourceUnambiguous(a);
    SourceUnambiguous(b);
    FingerprintDecidesSame(p.digest, FingerprintSource(a), FingerprintSource(b));
  }

  lemma MatchedAt(fs: seq<Entry<Json>>, gs: seq<Entry<Json>>, i: nat)
    requires Same(Obj(fs), Obj(gs)) && DistinctKeys(gs)
    requires i < |fs| && i < |gs| && fs[i].key == gs[i].key
    ensures Same(fs[i].value, gs[i].value)
  {
    assert MatchedIn(fs[i], gs);
    var j :| 0 <= j < |gs| && gs[j].key == fs[i].key && Same(fs[i].value, gs[j].value);
    assert i == j;
  }

  // ---------------------------------------------------------------- creation

  datatype CommandInput = CommandInput(
    action: Text,
    workspaceId: Text,
    brand: Text,
    profileId: Option<Text>,
    profileKey: Text,
    expectedVersion: int,
    expectedPublicationVersion: int,
    idempotencyKey: Text,
    payload: Json,
    attemptedDraft: Json,
    createdAt: Text)

  function Unsealed(p: Platform, input: CommandInput): Json {
    Obj([
      Entry(SCHEMA_VERSION, Num(1)),
      Entry(ACTION, Str(input.action)),
      Entry(WORKSPACE_ID, Str(input.workspaceId)),
      Entry(BRAND, Str(input.brand)),
      Entry(PROFILE_ID, if input.profileId.Some? then Str(input.profileId.value) else Null),
      Entry(PROFILE_KEY, Str(input.profileKey)),
      Entry(EXPECTED_VERSION, Num(input.expectedVersion)),
      Entry(EXPECTED_PUBLICATION_VERSION, Num(input.expectedPublicationVersion)),
      Entry(IDEMPOTENCY_KEY, Str(input.idempotencyKey)),
      Entry(PAYLOAD, input.payload),
      Entry(PAYLOAD_SHA256, Str(Fingerprint(p.digest, input.payload))),
      Entry(ATTEMPTED_DRAFT, input.attemptedDraft),
      Entry(CREATED_AT, Str(input.createdAt))])
  }

  // createPendingBrandProfileCommand.
  function CreateCommand(p: Platform, input: CommandInput): Json {
    var command := Unsealed(p, input);
    Obj(command.fields + [Entry(COMMAND_SHA256, Str(Fingerprint(p.digest, FingerprintSource(command))))])
  }

  lemma {:induction false} FindAt(fields: seq<Entry<Json>>, i: nat)
    requires i < |fields| && DistinctKeys(fields)
    ensures Find(fields, fields[i].key) == Some(fields[i].value)
  {
    if i > 0 {
      assert fields[0].key != fields[i].key;
      FindAt(fields[1..], i - 1);
    }
  }

  lemma {:induction false} FindInFront(fields: seq<Entry<Json>>, more: seq<Entry<Json>>, key: Text)
    ensures Find(fields + more, key) == if Find(fields, key).Some? then Find(fields, key) else Find(more, key)
  {
    if fields == [] {
      assert fields + more == more;
    } else {
      assert (fields + more)[1..] == fields[1..] + more;
      FindInFront(fields[1..], more, key);
    }
  }

  lemma {:induction false} FindNone(fields: seq<Entry<Json>>, key: Text)
    requires forall i :: 0 <= i < |fields| ==> fields[i].key != key
    ensures Find(fields, key) == None
  {
    if fields != [] { FindNone(fields[1..], key); }
  }

  lemma UnsealedFields(p: Platform, input: CommandInput)
    ensures var f := Unsealed(p, input).fields;
      DistinctKeys(f) && forall i :: 0 <= i < |f| ==> Get(Unsealed(p, input), f[i].key) == Some(f[i].value)
  {
    var f := Unsealed(p, input).fields;
    UnsealedKeys(p, input);
    forall i | 0 <= i < |f| ensures Find(f, f[i].key) == Some(f[i].value) { FindAt(f, i); }
  }

  lemma UnsealedKeys(p: Platform, input: CommandInput)
    ensures DistinctKeys(Unsealed(p, input).fields)
  {
    var f, g := Unsealed(p, input).fields, FingerprintSource(Null).fields;
    SourceKeysDistinct(Null);
    assert forall i :: 0 <= i < 13 ==> f[i].key == g[i].key;
  }

  lemma SealIsNew(p: Platform, input: CommandInput)
    ensures Find(Unsealed(p, input).fields, COMMAND_SHA256) == None
  {
    var f := Unsealed(p, input).fields;
    assert COMMAND_SHA256[0] != SCHEMA_VERSION[0] && COMMAND_SHA256[0] != PAYLOAD_SHA256[0];
    FindNone(f, COMMAND_SHA256);
  }

  lemma CreatedFields(p: Platform, input: CommandInput)
    ensures var c := CreateCommand(p, input);
      && (forall f :: f in Unsealed(p, input).fields ==> Get(c, f.key) == Some(f.value))
      && Get(c, COMMAND_SHA256) == Some(Str(Fingerprint(p.digest, FingerprintSource(Unsealed(p, input)))))
  {
    var u := Unsealed(p, input);
    var more := [Entry(COMMAND_SHA256, Str(Fingerprint(p.digest, FingerprintSource(u))))];
    UnsealedFields(p, input);
    SealIsNew(p, input);
    forall key ensures Find(u.fields + more, key) == if Find(u.fields, key).Some? then Find(u.fields, key) else Find(more, key) {
      FindInFront(u.fields, more, key);
    }
  }

  // A created record carries its own two seals, so it verifies exactly when
  // its shape is acceptable.
  lemma CreatedCommandIsSealed(p: Platform, input: CommandInput)
    ensures var c := CreateCommand(p, input);
      && PayloadFingerprintHolds(p, c) && CommandFingerprintHolds(p, c)
      && (Verified(ChecksOf(p), c) <==> IsPendingCommand(p, c))
  {
    hide FingerprintSource, Fingerprint, IsPendingCommand, CreateCommand;
    var c := CreateCommand(p, input);
    CreatedFields(p, input);
    CreatedPayload(p, input);
    CreatedSource(p, input);
  }

  lemma CreatedPayload(p: Platform, input: CommandInput)
    ensures var c := CreateCommand(p, input);
      Value(c, PAYLOAD) == input.payload && Get(c, PAYLOAD_SHA256) == Some(Str(Fingerprint(p.digest, input.payload)))
  {
    var f := Unsealed(p, input).fields;
    CreatedFields(p, input);
    assert f[9] in f && f[10] in f;
  }

  lemma CreatedSource(p: Platform, input: CommandInput)
    ensures FingerprintSource(CreateCommand(p, input)) == FingerprintSource(Unsealed(p, input))
  {
    var f := Unsealed(p, input).fields;
    CreatedFields(p, input);
    UnsealedFields(p, input);
    forall i | 0 <= i < 13 ensures Value(CreateCommand(p, input), f[i].key) == Value(Unsealed(p, input), f[i].key) {
      assert f[i] in f;
    }
    var c, u := CreateCommand(p, input), Unsealed(p, input);
    hide Value;
    assert Value(c, f[0].key) == Value(u, f[0].key) && Value(c, f[1].key) == Value(u, f[1].key);
    assert Value(c, f[2].key) == Value(u, f[2].key) && Value(c, f[3].key) == Value(u, f[3].key);
    assert Value(c, f[4].key) == Value(u, f[4].key) && Value(c, f[5].key) == Value(u, f[5].key);
    assert Value(c, f[6].key) == Value(u, f[6].key) && Value(c, f[7].key) == Value(u, f[7].key);
    assert Value(c, f[8].key) == Value(u, f[8].key) && Value(c, f[9].key) == Value(u, f[9].key);
    assert Value(c, f[10].key) == Value(u, f[10].key) && Value(c, f[11].key) == Value(u, f[11].key);
    assert Value(c, f[12].key) == Value(u, f[12].key);
  }

  // The fields of a created record, by name.
  lemma CreatedValues(p: Platform, input: CommandInput)
    ensures var c := CreateCommand(p, input);
      && Get(c, WORKSPACE_ID) == Some(Str(input.workspaceId)) && Get(c, BRAND) == Some(Str(input.brand))
      && Get(c, PROFILE_ID) == Some(if input.profileId.Some? then Str(input.profileId.value) else Null)
      && Get(c, PROFILE_KEY) == Some(Str(input.profileKey))
      && Get(c, EXPECTED_VERSION) == Some(Num(input.expectedVersion))
      && Get(c, IDEMPOTENCY_KEY) == Some(Str(input.idempotencyKey))
      && Get(c, PAYLOAD) == Some(input.payload) && Get(c, ATTEMPTED_DRAFT) == Some(input.attemptedDraft)
  {
    hide Get, CreateCommand, Fingerprint, Ascii;
    CreatedAt(p, input, 2);
    CreatedAt(p, input, 3);
    CreatedAt(p, input, 4);
    CreatedAt(p, input, 5);
    CreatedAt(p, input, 6);
    CreatedAt(p, input, 8);
    CreatedAt(p, input, 9);
    CreatedAt(p, input, 11);
  }

  lemma CreatedAt(p: Platform, input: CommandInput, i: nat)
    requires i < 13
    ensures var f := Unsealed(p, input).fields; Get(CreateCommand(p, input), f[i].key) == Some(f[i].value)
  {
    hide Get, CreateCommand, Fingerprint, Ascii;
    CreatedFields(p, input);
    var f := Unsealed(p, input).fields;
    assert f[i] in f;
  }
}
