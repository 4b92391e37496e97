// What the stored Product Brief records keep over time.
module BriefPersistenceRuns {
  import opened Texts
  import opened Json
  import opened PendingCommand
  import opened KeyCodec
  import opened BriefRecord
  import opened BriefRoundTrip
  import opened BriefPersistence

  // ------------------------------------------------------------ round trip

  // A value is written exactly when it is a record in force at that time.  It
  // then reads back, as its canonical form, at every time before its deadline,
  // and from the deadline on it reads as absent and is deleted.
  lemma WrittenReadsBack(env: BriefEnvironment, items: Items, value: Record, now: int, later: int)
    requires Canonicalizes(env) && ParsesJson(env.parse)
    ensures var identity := BriefIdentity(value.workspaceId, value.productId);
      var (items', written) := Writing(env, items, value, now);
      written ==>
        var canonical := ParseRecord(env, identity, RecordJson(value), now).value;
        var deadline := env.parseDate(canonical.retentionDeadline).value;
        var (items'', read) := Reading(env, items', identity, later);
        && KeyOf(identity).Some? && now < deadline
        && read == (if later < deadline then Some(canonical) else None)
        && (KeyOf(identity).value in items'' <==> later < deadline)
        && (later < deadline ==> items''[KeyOf(identity).value] == Stringify(RecordJson(canonical)))
  {
    var identity := BriefIdentity(value.workspaceId, value.productId);
    var (items', written) := Writing(env, items, value, now);
    if written {
      var key := KeyOf(identity).value;
      var canonical := ParseRecord(env, identity, RecordJson(value), now).value;
      CanonicalReadsBack(env, identity, RecordJson(value), now, canonical, later);
      ParsedWellFormed(env, identity, RecordJson(value), now, canonical);
      assert RoundTrips(env.parse, RecordJson(canonical));
      KeyNotLegacy(identity);
      hide RecordJson, ParseRecord, Stringify, KeyOf, LegacyKey;
    }
  }

  lemma KeyNotLegacy(identity: BriefIdentity)
    requires KeyOf(identity).Some?
    ensures PREFIX <= KeyOf(identity).value && !(LEGACY_PREFIX <= KeyOf(identity).value)
    ensures KeyOf(identity).value != LegacyKey(identity.productId)
    ensures KeyOf(identity).value != MARKER_KEY && KeyOf(identity).value != LEGACY_MARKER_KEY
  {
    var key := KeyOf(identity).value;
    PrefixesDiffer();
    assert key[..|PREFIX|] == PREFIX;
    assert key[30] == PREFIX[30] && key[29] == PREFIX[29];
    assert LegacyKey(identity.productId)[30] == LEGACY_PREFIX[30];
    hide KeyOf, Ascii;
  }

  lemma PrefixesDiffer()
    ensures |PREFIX| == 32 && |LEGACY_PREFIX| == 32 && PREFIX[30] != LEGACY_PREFIX[30]
    ensures |MARKER_KEY| == 38 && |LEGACY_MARKER_KEY| == 38 && MARKER_KEY[29] != PREFIX[29] && LEGACY_MARKER_KEY[29] != PREFIX[29]
    ensures MARKER_KEY[29] != LEGACY_PREFIX[29] && LEGACY_MARKER_KEY[29] != LEGACY_PREFIX[29] && MARKER_KEY[37] != LEGACY_MARKER_KEY[37]
  {
  }

  // A write touches no other item.
  lemma OthersUntouched(env: BriefEnvironment, items: Items, value: Record, now: int, other: Text)
    requires KeyOf(BriefIdentity(value.workspaceId, value.productId)) != Some(other)
    ensures var items' := Writing(env, items, value, now).0; (other in items' <==> other in items) && (other in items ==> items'[other] == items[other])
  {
    hide KeyOf, RecordJson, ParseRecord, Stringify;
  }

  // ------------------------------------------------------------------- sweep

  // A sweep keeps exactly the records that still parse for the identity their
  // key names, touches nothing outside the namespace, and a later sweep finds
  // nothing more until time passes.
  lemma SweepKeepsExactly(env: BriefEnvironment, items: Items, now: int, key: Text)
    ensures var swept := Sweeping(env, items, now);
      && (key in swept ==> key in items && swept[key] == items[key])
      && (key in items && !InNamespace(key) ==> key in swept)
      && (key in items && InNamespace(key) ==>
            (key in swept <==> exists identity :: KeyOf(identity) == Some(key) && Parsed(env, identity, items[key], now).Some?))
      && Sweeping(env, swept, now) == swept
  {
    var swept := Sweeping(env, items, now);
    var named := IdentityFrom(key);
    if named.Some? { KeysNameIdentities(key, named.value); }
    hide InNamespace, Parsed, IdentityFrom, KeyOf;
    forall identity | KeyOf(identity) == Some(key) ensures IdentityFrom(key) == Some(identity) {
      KeysNameIdentities(key, identity);
    }
    assert key in items && InNamespace(key) ==> (key in swept <==> Survives(env, key, items[key], now));
    if named.Some? && key in items && Parsed(env, named.value, items[key], now).Some? {
      assert KeyOf(named.value) == Some(key);
    }
  }

  // A sweep does not change what a read finds.
  lemma SweepIsInvisible(env: BriefEnvironment, items: Items, identity: BriefIdentity, now: int)
    ensures Reading(env, Sweeping(env, items, now), identity, now).1 == Reading(env, items, identity, now).1
  {
    if KeyOf(identity).Some? {
      var key := KeyOf(identity).value;
      KeyNotLegacy(identity);
      KeysNameIdentities(key, identity);
      hide KeyOf, Parsed, IdentityFrom, LegacyKey;
      assert InNamespace(key);
    }
  }

  // ------------------------------------------------------------ one owner

  datatype Operation =
    | Activate(identity: BriefIdentity)
    | Write(value: Record, now: int)
    | Read(identity: BriefIdentity, now: int)
    | Clear(identity: BriefIdentity)
    | Sweep(now: int)

  // The items, and the identity the page has active.
  datatype Session = Session(items: Items, active: Option<BriefIdentity>)

  // The page writes records of its active identity only.
  function Step(env: BriefEnvironment, s: Session, op: Operation): Session {
    match op
    case Activate(identity) =>
      var (items, active) := Activating(env, s.items, identity);
      Session(items, if active then Some(identity) else None)
    case Write(value, now) =>
      if s.active == Some(BriefIdentity(value.workspaceId, value.productId)) then
        s.(items := Writing(env, s.items, value, now).0)
      else s
    case Read(identity, now) => s.(items := Reading(env, s.items, identity, now).0)
    case Clear(identity) => s.(items := ClearingRecord(s.items, identity))
    case Sweep(now) => s.(items := Sweeping(env, s.items, now))
  }

  function Run(env: BriefEnvironment, s: Session, ops: seq<Operation>): Session
    decreases |ops|
  {
    if ops == [] then s else Run(env, Step(env, s, ops[0]), ops[1..])
  }

  // Whatever is stored in the namespace belongs to the identity the marker
  // names, and the active identity is that one.
  ghost predicate MarkerOwns(env: BriefEnvironment, s: Session) {
    && (s.active.Some? ==> MARKER_KEY in s.items && MarkedIdentity(env, s.items[MARKER_KEY]) == s.active)
    && forall key :: key in s.items && InNamespace(key) ==>
         && MARKER_KEY in s.items && MarkedIdentity(env, s.items[MARKER_KEY]).Some?
         && KeyOf(MarkedIdentity(env, s.items[MARKER_KEY]).value) == Some(key)
  }

  lemma MarkerReadsBack(env: BriefEnvironment, identity: BriefIdentity)
    requires ParsesJson(env.parse) && Bounded(identity)
    ensures MarkedIdentity(env, Stringify(IdentityJson(identity))) == Some(identity)
  {
    var names, values := [WorkspaceId, ProductId], [Str(identity.workspaceId), Str(identity.productId)];
    ObjectReads(names, values);
    ObjectWellFormed(names, values);
    assert RoundTrips(env.parse, IdentityJson(identity));
    hide Object, Field, Stringify, WellFormed;
    assert Field(Object(names, values), names[0]) == Some(values[0]) && Field(Object(names, values), names[1]) == Some(values[1]);
  }

  lemma MarkersOutside()
    ensures !InNamespace(MARKER_KEY) && !InNamespace(LEGACY_MARKER_KEY)
  {
    PrefixesDiffer();
    hide Ascii;
  }

  lemma ActivateKeepsOwner(env: BriefEnvironment, s: Session, identity: BriefIdentity)
    requires ParsesJson(env.parse) && MarkerOwns(env, s)
    ensures MarkerOwns(env, Step(env, s, Activate(identity)))
  {
    MarkersOutside();
    PrefixesDiffer();
    if Bounded(identity) { MarkerReadsBack(env, identity); }
    hide InNamespace, Bounded, KeyOf, MarkedIdentity, IdentityJson, Stringify, Ascii;
  }

  lemma WriteKeepsOwner(env: BriefEnvironment, s: Session, value: Record, now: int)
    requires MarkerOwns(env, s)
    ensures MarkerOwns(env, Step(env, s, Write(value, now)))
  {
    MarkersOutside();
    var identity := BriefIdentity(value.workspaceId, value.productId);
    if KeyOf(identity).Some? { KeyNotLegacy(identity); }
    hide InNamespace, KeyOf, MarkedIdentity, ParseRecord, RecordJson, Stringify;
  }

  lemma RemovalsKeepOwner(env: BriefEnvironment, s: Session, op: Operation)
    requires MarkerOwns(env, s) && (op.Read? || op.Clear? || op.Sweep?)
    ensures MarkerOwns(env, Step(env, s, op))
  {
    MarkersOutside();
    forall identity | KeyOf(identity).Some? ensures KeyOf(identity).value != MARKER_KEY { KeyNotLegacy(identity); }
    forall id ensures LegacyKey(id) != MARKER_KEY { LegacyIsNamespace(id); }
    hide InNamespace, KeyOf, MarkedIdentity, LegacyKey, Survives, Parsed;
  }

  lemma LegacyIsNamespace(id: Text)
    ensures InNamespace(LegacyKey(id))
  {
  }

  lemma {:induction false} RunKeepsOwner(env: BriefEnvironment, s: Session, ops: seq<Operation>)
    requires ParsesJson(env.parse) && MarkerOwns(env, s)
    ensures MarkerOwns(env, Run(env, s, ops))
    decreases |ops|
  {
    hide Step, MarkerOwns;
    if ops != [] {
      if ops[0].Activate? {
        ActivateKeepsOwner(env, s, ops[0].identity);
      } else {
        if ops[0].Write? { WriteKeepsOwner(env, s, ops[0].value, ops[0].now); } else { RemovalsKeepOwner(env, s, ops[0]); }
      }
      RunKeepsOwner(env, Step(env, s, ops[0]), ops[1..]);
    }
  }

  // From empty storage, over any run: every stored record is filed under the
  // marker's identity, so no other identity's record is ever left behind.
  lemma StoredBelongsToMarker(env: BriefEnvironment, ops: seq<Operation>, key: Text, other: BriefIdentity)
    requires ParsesJson(env.parse)
    requires var s := Run(env, Session(map[], None), ops); key in s.items && InNamespace(key) && s.active.Some?
    ensures var s := Run(env, Session(map[], None), ops);
      KeyOf(s.active.value) == Some(key) && (other != s.active.value ==> KeyOf(other) != Some(key))
  {
    assert MarkerOwns(env, Session(map[], None));
    RunKeepsOwner(env, Session(map[], None), ops);
    var s := Run(env, Session(map[], None), ops);
    if KeyOf(other) == Some(key) { KeysDistinguish(s.active.value, other); }
  }
}
