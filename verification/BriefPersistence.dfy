// Reading, writing, sweeping and clearing stored Product Brief records, and the
// marker of the active identity: apps/web/lib/product-brief-persistence.ts over
// a browser storage that does not fail.
module BriefPersistence {
  import opened Texts
  import opened Json
  import opened PendingCommand
  import opened KeyCodec
  import opened BriefRecord

  const LEGACY_PREFIX := Ascii("commercevision.product-brief.v1:")
  const MARKER_KEY := Ascii("commercevision.product-brief.active.v2")
  const LEGACY_MARKER_KEY := Ascii("commercevision.product-brief.active.v1")

  type Items = map<Text, Text>

  // -------------------------------------------------------------- the storage

  // Browser storage: text items under text keys, enumerated in some order.
  class BrowserStorage {
    var order: seq<Text>
    var items: Items

    ghost predicate Valid()
      reads this
    {
      && (forall i, j :: 0 <= i < j < |order| ==> order[i] != order[j])
      && (forall key :: key in order <==> key in items)
    }

    constructor ()
      ensures Valid() && items == map[]
    {
      order, items := [], map[];
    }

    method GetItem(key: Text) returns (value: Option<Text>)
      ensures value == if key in items then Some(items[key]) else None
    {
      return if key in items then Some(items[key]) else None;
    }

    method SetItem(key: Text, value: Text)
      requires Valid()
      modifies this
      ensures Valid() && items == old(items)[key := value]
    {
      if key !in items { order := order + [key]; }
      items := items[key := value];
    }

    method RemoveItem(key: Text)
      requires Valid()
      modifies this
      ensures Valid() && items == old(items) - {key}
    {
      if key in items {
        var i :| 0 <= i < |order| && order[i] == key;
        order := order[..i] + order[i + 1..];
        items := items - {key};
      } else {
        assert items - {key} == items;
      }
    }
  }

  // ----------------------------------------------------------- specification

  predicate InNamespace(key: Text) { PREFIX <= key || LEGACY_PREFIX <= key }

  function LegacyKey(productId: Text): Text { LEGACY_PREFIX + productId }

  // What the item under a key is worth at a time.
  function Parsed(env: BriefEnvironment, identity: BriefIdentity, raw: Text, now: int): Option<Record> {
    match env.parse(raw)
    case None => None
    case Some(v) => ParseRecord(env, identity, v, now)
  }

  // An identity without a key makes the source throw before it touches
  // anything: nothing changes and nothing is read.
  function Reading(env: BriefEnvironment, items: Items, identity: BriefIdentity, now: int): (Items, Option<Record>) {
    match KeyOf(identity)
    case None => (items, None)
    case Some(key) =>
      var rest := items - {LegacyKey(identity.productId)};
      if key !in rest then (rest, None)
      else
        match Parsed(env, identity, rest[key], now)
        case None => (rest - {key}, None)
        case Some(r) => (rest, Some(r))
  }

  function Writing(env: BriefEnvironment, items: Items, value: Record, now: int): (Items, bool) {
    var identity := BriefIdentity(value.workspaceId, value.productId);
    match KeyOf(identity)
    case None => (items, false)
    case Some(key) =>
      match ParseRecord(env, identity, RecordJson(value), now)
      case None => (items - {key}, false)
      case Some(canonical) => (items[key := Stringify(RecordJson(canonical))], true)
  }

  function ClearingRecord(items: Items, identity: BriefIdentity): Items {
    match KeyOf(identity)
    case None => items
    case Some(key) => items - {key} - {LegacyKey(identity.productId)}
  }

  // Whether a sweep leaves the item under a key of the namespace.
  predicate Survives(env: BriefEnvironment, key: Text, raw: Text, now: int) {
    var identity := IdentityFrom(key);
    identity.Some? && Parsed(env, identity.value, raw, now).Some?
  }

  function Sweeping(env: BriefEnvironment, items: Items, now: int): Items {
    map key <- items | !InNamespace(key) || Survives(env, key, items[key], now) :: items[key]
  }

  function ClearingNamespace(items: Items): Items {
    map key <- items | !InNamespace(key) :: items[key]
  }

  function IdentityJson(identity: BriefIdentity): Json {
    Object([WorkspaceId, ProductId], [Str(identity.workspaceId), Str(identity.productId)])
  }

  // The identity a marker names, if it can be trusted.
  function MarkedIdentity(env: BriefEnvironment, raw: Text): Option<BriefIdentity> {
    var v := env.parse(raw);
    if v.None? || !ExactFields(v.value, [WorkspaceId, ProductId]) then None
    else
      match (BoundedText(Field(v.value, WorkspaceId), 1, 128), BoundedText(Field(v.value, ProductId), 1, 36))
      case (Some(workspaceId), Some(productId)) => Some(BriefIdentity(workspaceId, productId))
      case _ => None
  }

  function Activating(env: BriefEnvironment, items: Items, identity: BriefIdentity): (Items, bool) {
    if !Bounded(identity) then (ClearingNamespace(items) - {MARKER_KEY} - {LEGACY_MARKER_KEY}, false)
    else
      var rest := items - {LEGACY_MARKER_KEY};
      var previous := if MARKER_KEY in rest then MarkedIdentity(env, rest[MARKER_KEY]) else None;
      var kept := if previous == Some(identity) then rest else ClearingNamespace(rest);
      (kept[MARKER_KEY := Stringify(IdentityJson(identity))], true)
  }

  // ---------------------------------------------------------------- the store

  class BriefStore {
    const env: BriefEnvironment
    const storage: BrowserStorage

    constructor (env: BriefEnvironment, storage: BrowserStorage)
      ensures this.env == env && this.storage == storage
    {
      this.env, this.storage := env, storage;
    }

    // parsePersistedProductBrief(identity, JSON.parse(raw), now), where a
    // syntax error counts as no record.
    method Parse(identity: BriefIdentity, raw: Text, now: int) returns (r: Option<Record>)
      ensures r == Parsed(env, identity, raw, now)
    {
      var v := env.parse(raw);
      return if v.None? then None else ParseRecord(env, identity, v.value, now);
    }

    method Read(identity: BriefIdentity, now: int) returns (r: Option<Record>)
      requires storage.Valid()
      modifies storage
      ensures storage.Valid() && (storage.items, r) == Reading(env, old(storage.items), identity, now)
    {
      var key := KeyOf(identity);
      if key.None? { return None; }
      storage.RemoveItem(LegacyKey(identity.productId));
      var raw := storage.GetItem(key.value);
      if raw.None? { return None; }
      r := Parse(identity, raw.value, now);
      if r.None? { storage.RemoveItem(key.value); }
    }

    method Write(value: Record, now: int) returns (written: bool)
      requires storage.Valid()
      modifies storage
      ensures storage.Valid() && (storage.items, written) == Writing(env, old(storage.items), value, now)
    {
      var identity := BriefIdentity(value.workspaceId, value.productId);
      var key := KeyOf(identity);
      if key.None? { return false; }
      var canonical := ParseRecord(env, identity, RecordJson(value), now);
      if canonical.None? {
        storage.RemoveItem(key.value);
        return false;
      }
      storage.SetItem(key.value, Stringify(RecordJson(canonical.value)));
      return true;
    }

    method ClearRecord(identity: BriefIdentity)
      requires storage.Valid()
      modifies storage
      ensures storage.Valid() && storage.items == ClearingRecord(old(storage.items), identity)
    {
      var key := KeyOf(identity);
      if key.None? { return; }
      storage.RemoveItem(key.value);
      storage.RemoveItem(LegacyKey(identity.productId));
    }

    // The namespace's keys, collected before anything is removed.
    method Keys() returns (keys: seq<Text>)
      requires storage.Valid()
      ensures forall key :: key in keys <==> key in storage.items && InNamespace(key)
      ensures forall i, j :: 0 <= i < j < |keys| ==> keys[i] != keys[j]
    {
      keys := [];
      var index := 0;
      while index < |storage.order|
        invariant 0 <= index <= |storage.order|
        invariant forall key :: key in keys <==> key in storage.order[..index] && InNamespace(key)
        invariant forall i, j :: 0 <= i < j < |keys| ==> keys[i] != keys[j]
      {
        var key := storage.order[index];
        if InNamespace(key) { keys := keys + [key]; }
        index := index + 1;
      }
      assert storage.order[..index] == storage.order;
    }

    method ClearNamespace() returns (removed: nat)
      requires storage.Valid()
      modifies storage
      ensures storage.Valid() && storage.items == ClearingNamespace(old(storage.items))
      ensures removed == |old(storage.items)| - |storage.items|
    {
      hide InNamespace, Chosen, ClearingNamespace;
      var keys := Keys();
      ChosenNone();
      removed := 0;
      var i := 0;
      while i < |keys|
        invariant 0 <= i <= |keys| && storage.Valid()
        invariant forall j :: i <= j < |keys| ==> keys[j] in storage.items
        invariant storage.items == old(storage.items) - Chosen(keys[..i])
        invariant removed == |old(storage.items)| - |storage.items|
      {
        RemovedOneMore(old(storage.items), Chosen(keys[..i]), keys[i]);
        ChosenMore(keys, i);
        storage.RemoveItem(keys[i]);
        removed := removed + 1;
        i := i + 1;
      }
      assert keys[..i] == keys;
      ChosenCleared(old(storage.items), keys);
    }

    method IsCandidate(key: Text, raw: Text, now: int) returns (survives: bool)
      ensures survives == Survives(env, key, raw, now)
    {
      var identity := IdentityFrom(key);
      if identity.None? { return false; }
      var candidate := Parse(identity.value, raw, now);
      return candidate.Some?;
    }

    method SweepKey(key: Text, now: int) returns (removed: bool)
      requires storage.Valid() && key in storage.items
      modifies storage
      ensures storage.Valid() && removed == !Survives(env, key, old(storage.items[key]), now)
      ensures storage.items == if removed then old(storage.items) - {key} else old(storage.items)
    {
      hide Survives;
      var raw := storage.GetItem(key);
      var survives := IsCandidate(key, raw.value, now);
      if !survives { storage.RemoveItem(key); }
      return !survives;
    }

    method Sweep(now: int) returns (removed: nat)
      requires storage.Valid()
      modifies storage
      ensures storage.Valid() && storage.items == Sweeping(env, old(storage.items), now)
      ensures removed == |old(storage.items)| - |storage.items|
    {
      hide InNamespace, Expired, Sweeping, Survives;
      var keys := Keys();
      ExpiredNone(env, storage.items, now);
      removed := 0;
      var i := 0;
      while i < |keys|
        invariant 0 <= i <= |keys| && storage.Valid()
        invariant forall j :: i <= j < |keys| ==> keys[j] in storage.items && storage.items[keys[j]] == old(storage.items)[keys[j]]
        invariant storage.items == old(storage.items) - Expired(env, old(storage.items), keys[..i], now)
        invariant removed == |old(storage.items)| - |storage.items|
      {
        ghost var gone := Expired(env, old(storage.items), keys[..i], now);
        ExpiredMore(env, old(storage.items), keys, i, now);
        RemovedOneMore(old(storage.items), gone, keys[i]);
        var expired := SweepKey(keys[i], now);
        if expired { removed := removed + 1; }
        i := i + 1;
      }
      assert keys[..i] == keys;
      ExpiredSwept(env, old(storage.items), keys, now);
    }

    method Activate(identity: BriefIdentity) returns (active: bool)
      requires storage.Valid()
      modifies storage
      ensures storage.Valid() && (storage.items, active) == Activating(env, old(storage.items), identity)
    {
      hide ClearingNamespace, MarkedIdentity, IdentityJson, Stringify, Bounded;
      if !Bounded(identity) {
        var _ := ClearNamespace();
        storage.RemoveItem(MARKER_KEY);
        storage.RemoveItem(LEGACY_MARKER_KEY);
        return false;
      }
      storage.RemoveItem(LEGACY_MARKER_KEY);
      var raw := storage.GetItem(MARKER_KEY);
      var previous := if raw.Some? then MarkedIdentity(env, raw.value) else None;
      var identityChanged := previous.Some? && previous.value != identity;
      if previous.None? || identityChanged {
        var _ := ClearNamespace();
      }
      storage.SetItem(MARKER_KEY, Stringify(IdentityJson(identity)));
      return true;
    }
  }

  // ------------------------------------------------------- the loops' progress

  function Chosen(keys: seq<Text>): set<Text> { set key <- keys }

  ghost function Expired(env: BriefEnvironment, items: Items, keys: seq<Text>, now: int): set<Text> {
    set key <- keys | key in items && !Survives(env, key, items[key], now)
  }

  lemma ChosenNone()
    ensures forall items: Items :: items - Chosen([]) == items
  {
  }

  lemma ExpiredNone(env: BriefEnvironment, items: Items, now: int)
    ensures items - Expired(env, items, [], now) == items
  {
  }

  lemma ChosenCleared(items: Items, keys: seq<Text>)
    requires forall key :: key in keys <==> key in items && InNamespace(key)
    ensures items - Chosen(keys) == ClearingNamespace(items)
  {
    hide InNamespace;
  }

  lemma ExpiredSwept(env: BriefEnvironment, items: Items, keys: seq<Text>, now: int)
    requires forall key :: key in keys <==> key in items && InNamespace(key)
    ensures items - Expired(env, items, keys, now) == Sweeping(env, items, now)
  {
    hide InNamespace, Survives;
  }

  lemma ChosenMore(keys: seq<Text>, i: nat)
    requires i < |keys|
    ensures Chosen(keys[..i + 1]) == Chosen(keys[..i]) + {keys[i]}
  {
    assert keys[..i + 1] == keys[..i] + [keys[i]];
  }

  lemma ExpiredMore(env: BriefEnvironment, items: Items, keys: seq<Text>, i: nat, now: int)
    requires i < |keys| && keys[i] in items
    ensures Expired(env, items, keys[..i + 1], now)
         == if Survives(env, keys[i], items[keys[i]], now) then Expired(env, items, keys[..i], now)
            else Expired(env, items, keys[..i], now) + {keys[i]}
  {
    hide Survives;
    assert keys[..i + 1] == keys[..i] + [keys[i]];
  }

  lemma RemovedOneMore(items: Items, gone: set<Text>, key: Text)
    requires key in items - gone
    ensures items - gone - {key} == items - (gone + {key})
    ensures |items - gone - {key}| == |items - gone| - 1
  {
    var rest := items - gone;
    assert (rest - {key}).Keys == rest.Keys - {key};
    assert |rest.Keys| == |rest| && |(rest - {key}).Keys| == |rest - {key}|;
  }
}
