// One revised field of a product brief: the canonical form revisionFieldFor of
// apps/web/lib/product-brief-workbench-state.ts gives it, and that this form is
// its own.
module BriefFields {
  import opened Texts
  import opened Json
  import opened PendingCommand

  // ---------------------------------------------------------------- literals

  // The entries of an object literal, in order; a member spread in only where
  // it is defined is absent where it is not.
  function Members(keys: seq<Text>, values: seq<Option<Json>>): seq<Entry<Json>>
    requires |keys| == |values|
  {
    if keys == [] then []
    else if values[0].None? then Members(keys[1..], values[1..])
    else [Entry(keys[0], values[0].value)] + Members(keys[1..], values[1..])
  }

  function Literal(keys: seq<Text>, values: seq<Option<Json>>): Json
    requires |keys| == |values|
  {
    Obj(Members(keys, values))
  }

  // The members of an object under some keys, in the order of the keys.
  function Pick(v: Json, keys: seq<Text>): Json { Literal(keys, Picked(v, keys)) }

  function Picked(v: Json, keys: seq<Text>): seq<Option<Json>> {
    seq(|keys|, i requires 0 <= i < |keys| => Get(v, keys[i]))
  }

  // ------------------------------------------------------------------- tests

  // hasExactKeys.
  predicate HasExactKeys(v: Json, required: seq<Text>, optional: seq<Text>) {
    v.Obj? && (forall k <- required :: Get(v, k).Some?) && forall f <- v.fields :: f.key in required || f.key in optional
  }

  // How many bytes TextEncoder writes; a lone surrogate is written as U+FFFD.
  function ByteLength(t: Text): nat {
    if t == [] then 0
    else (if Step(t) == 2 then 4 else if t[0] < 0x80 then 1 else if t[0] < 0x800 then 2 else 3) + ByteLength(t[Step(t)..])
  }

  predicate IsShortText(v: Option<Json>, allowEmpty: bool) {
    IsText(v) && (allowEmpty || v.value.s != []) && ByteLength(v.value.s) <= 2048
  }

  predicate IsOptionalText(v: Option<Json>) { v.None? || v.value.Null? || IsShortText(v, true) }

  predicate IsBoundedString(v: Option<Json>, minimum: nat, maximum: nat) { IsText(v) && minimum <= |v.value.s| <= maximum }

  predicate IsUniqueTextList(v: Option<Json>) {
    && v.Some? && v.value.Arr? && |v.value.items| <= 32
    && (forall item <- v.value.items :: IsShortText(Some(item), false))
    && forall i, j :: 0 <= i < j < |v.value.items| ==> v.value.items[i] != v.value.items[j]
  }

  // Neither undefined, nor null, nor the empty text.
  predicate Truthy(v: Option<Json>) { IsText(v) && v.value.s != [] }

  function PowerOfTen(n: int): real
    decreases if n < 0 then -n else n
  {
    if n == 0 then 1.0 else if n > 0 then 10.0 * PowerOfTen(n - 1) else PowerOfTen(n + 1) / 10.0
  }

  function SignedDecimal(t: Text): int {
    if t != [] && t[0] == MINUS then -ParseDecimal(t[1..])
    else if t != [] && t[0] == 43 then ParseDecimal(t[1..])
    else ParseDecimal(t)
  }

  // The number a text written by JavaScript stands for.
  function DecimalValue(t: Text): real
    decreases |t|
  {
    if t != [] && t[0] == MINUS then -DecimalValue(t[1..])
    else
      var e := IndexOf(t, 101);
      var mantissa := if e < 0 then t else t[..e];
      var exponent := if e < 0 then 0 else SignedDecimal(t[e + 1..]);
      var p := IndexOf(mantissa, 46);
      if p < 0 then ParseDecimal(mantissa) as real * PowerOfTen(exponent)
      else ParseDecimal(mantissa[..p] + mantissa[p + 1..]) as real * PowerOfTen(exponent - (|mantissa| - p - 1))
  }

  predicate IsNumber(v: Json) { v.Num? || v.Real? }

  function NumberValue(v: Json): real
    requires IsNumber(v)
  {
    if v.Num? then v.n as real else DecimalValue(v.text)
  }

  predicate IsFraction(v: Json) { IsNumber(v) && 0.0 <= NumberValue(v) <= 1.0 }

  predicate Digit(c: CodeUnit) { 48 <= c <= 57 }

  // 0, 0.d..., 1 and 1.0...
  predicate FractionText(t: Text) {
    && t != [] && t[0] in {48, 49}
    && (|t| == 1 || (|t| >= 3 && t[1] == 46 && forall c <- t[2..] :: if t[0] == 48 then Digit(c) else c == 48))
  }

  predicate IsConfidence(v: Json) {
    if IsNumber(v) then IsFraction(v) else IsBoundedString(Some(v), 1, 64) && FractionText(v.s)
  }

  // ------------------------------------------------------------ field values

  datatype FieldKind = ProductIdentity | Category | TextValue | TextList | StatementList | FlagList | DimensionList

  const STATEMENT_PATHS := [
    Ascii("automotive.certification_marks"), Ascii("automotive.compatibility_evidence"), Ascii("automotive.installation_evidence"),
    Ascii("beauty.ingredient_claim_evidence"), Ascii("beauty.shade_evidence"), Ascii("common.sensitive_claims"),
    Ascii("common.source_conflicts")]
  const FLAG_PATHS := [
    Ascii("automotive.safety_critical_claim_flags"), Ascii("beauty.medical_like_claim_flags"), Ascii("beauty.skin_hair_claim_flags")]
  const TEXT_LIST_PATHS := [Ascii("common.colors"), Ascii("common.prohibited_assumptions"), Ascii("common.visual_features")]
  const TEXT_PATHS := [
    Ascii("automotive.finish"), Ascii("automotive.material"), Ascii("automotive.part_type"), Ascii("automotive.placement"),
    Ascii("beauty.cosmetic_form"), Ascii("beauty.finish"), Ascii("beauty.package_type"), Ascii("beauty.packaging_compliance_notes"),
    Ascii("beauty.texture"), Ascii("common.brand"), Ascii("common.material"), Ascii("common.package_or_part_form"),
    Ascii("common.product_type"), Ascii("common.usage_context"), Ascii("common.visible_text_summary")]

  // PRODUCT_BRIEF_FIELD_VALUE_KIND_BY_PATH.
  function KindOf(path: Text): Option<FieldKind> {
    if path == Ascii("common.identity") then Some(ProductIdentity)
    else if path == Ascii("common.category") then Some(Category)
    else if path == Ascii("automotive.dimensions_evidence") then Some(DimensionList)
    else if path in TEXT_PATHS then Some(TextValue)
    else if path in TEXT_LIST_PATHS then Some(TextList)
    else if path in STATEMENT_PATHS then Some(StatementList)
    else if path in FLAG_PATHS then Some(FlagList)
    else None
  }

  function KindName(kind: FieldKind): Text {
    match kind
    case ProductIdentity => Ascii("IDENTITY")
    case Category => Ascii("CATEGORY")
    case TextValue => Ascii("TEXT")
    case TextList => Ascii("TEXT_LIST")
    case StatementList => Ascii("STATEMENT_LIST")
    case FlagList => Ascii("FLAG_LIST")
    case DimensionList => Ascii("DIMENSION_LIST")
  }

  const KIND := Ascii("kind")
  const IDENTITY_KEYS := [KIND, Ascii("display_name"), Ascii("model_number"), Ascii("variant")]
  const CATEGORY_KEYS := [KIND, Ascii("code"), Ascii("label")]
  const TEXT_KEYS := [KIND, Ascii("text")]
  const DIMENSION_KEYS := [Ascii("name"), Ascii("value"), Ascii("unit"), Ascii("raw_text")]
  const DIMENSIONS_KEYS := [KIND, Ascii("dimensions")]

  // The member that holds a list.
  function ListKeys(kind: FieldKind): seq<Text> {
    [KIND, if kind == TextList then Ascii("items") else if kind == StatementList then Ascii("statements") else Ascii("flags")]
  }

  predicate IsIdentity(v: Json) {
    var name, model, variant := Get(v, IDENTITY_KEYS[1]), Get(v, IDENTITY_KEYS[2]), Get(v, IDENTITY_KEYS[3]);
    && HasExactKeys(v, IDENTITY_KEYS[..2], IDENTITY_KEYS[2..])
    && IsShortText(name, true) && IsOptionalText(model) && IsOptionalText(variant)
    && (Truthy(name) || Truthy(model) || Truthy(variant))
  }

  predicate IsCategory(v: Json) {
    HasExactKeys(v, CATEGORY_KEYS, []) && IsShortText(Get(v, CATEGORY_KEYS[1]), false) && IsShortText(Get(v, CATEGORY_KEYS[2]), false)
  }

  predicate IsDimension(v: Json) {
    && HasExactKeys(v, DIMENSION_KEYS[..2], DIMENSION_KEYS[2..])
    && IsShortText(Get(v, DIMENSION_KEYS[0]), false) && IsShortText(Get(v, DIMENSION_KEYS[1]), false)
    && IsOptionalText(Get(v, DIMENSION_KEYS[2])) && IsOptionalText(Get(v, DIMENSION_KEYS[3]))
  }

  function Dimensions(items: seq<Json>): seq<Json> { seq(|items|, i requires 0 <= i < |items| => Pick(items[i], DIMENSION_KEYS)) }

  function DimensionNames(items: seq<Json>): seq<Option<Json>> {
    seq(|items|, i requires 0 <= i < |items| => Get(items[i], DIMENSION_KEYS[0]))
  }

  predicate AllDifferent<T(==)>(s: seq<T>) { forall i, j :: 0 <= i < j < |s| ==> s[i] != s[j] }

  function DimensionsOf(v: Json): Option<Json> {
    var list := Get(v, DIMENSIONS_KEYS[1]);
    if !HasExactKeys(v, DIMENSIONS_KEYS, []) || list.None? || !list.value.Arr? || |list.value.items| > 16
       || (exists item <- list.value.items :: !IsDimension(item)) || !AllDifferent(DimensionNames(list.value.items))
    then None
    else Some(Literal(DIMENSIONS_KEYS, [Get(v, KIND), Some(Arr(Dimensions(list.value.items)))]))
  }

  // The loop over the dimensions.
  method ReadDimensions(v: Json) returns (r: Option<Json>)
    requires Get(v, KIND) == Some(Str(KindName(DimensionList)))
    ensures r == DimensionsOf(v)
  {
    hide HasExactKeys, IsDimension, Pick, KindName, AllDifferent, Literal;
    if !HasExactKeys(v, DIMENSIONS_KEYS, []) { return None; }
    if Get(v, DIMENSIONS_KEYS[1]).None? || !Value(v, DIMENSIONS_KEYS[1]).Arr? { return None; }
    var list := Value(v, DIMENSIONS_KEYS[1]);
    if |list.items| > 16 { return None; }
    var names, dimensions := [], [];
    var i := 0;
    while i < |list.items|
      invariant 0 <= i <= |list.items|
      invariant forall item <- list.items[..i] :: IsDimension(item)
      invariant names == DimensionNames(list.items)[..i] && dimensions == Dimensions(list.items)[..i]
    {
      if !IsDimension(list.items[i]) {
        assert list.items[i] in list.items;
        return None;
      }
      names := names + [Get(list.items[i], DIMENSION_KEYS[0])];
      dimensions := dimensions + [Pick(list.items[i], DIMENSION_KEYS)];
      i := i + 1;
    }
    assert list.items[..i] == list.items && names == DimensionNames(list.items) && dimensions == Dimensions(list.items);
    r := if AllDifferent(names) then Some(Literal(DIMENSIONS_KEYS, [Get(v, KIND), Some(Arr(dimensions))])) else None;
  }

  // productBriefFieldValueForPath.
  function FieldValue(path: Text, v: Json): Option<Json> {
    var kind := KindOf(path);
    if kind.None? || Get(v, KIND) != Some(Str(KindName(kind.value))) then None
    else
      match kind.value
      case ProductIdentity => if IsIdentity(v) then Some(Pick(v, IDENTITY_KEYS)) else None
      case Category => if IsCategory(v) then Some(Pick(v, CATEGORY_KEYS)) else None
      case TextValue =>
        if HasExactKeys(v, TEXT_KEYS, []) && IsShortText(Get(v, TEXT_KEYS[1]), true) then Some(Pick(v, TEXT_KEYS)) else None
      case DimensionList => DimensionsOf(v)
      case _ =>
        var keys := ListKeys(kind.value);
        if HasExactKeys(v, keys, []) && IsUniqueTextList(Get(v, keys[1])) then Some(Pick(v, keys)) else None
  }

  // ---------------------------------------------------------------- evidence

  const EVIDENCE_KEYS := [Ascii("source_asset_version_id"), KIND, Ascii("reference"), Ascii("region"), Ascii("excerpt_sha256")]

  // EVIDENCE_REFERENCE_PREFIX.
  function ReferencePrefix(kind: Text): Option<Text> {
    if kind == Ascii("IMAGE_REGION") then Some(Ascii("asset-region://"))
    else if kind == Ascii("VISIBLE_TEXT") then Some(Ascii("asset-text://"))
    else if kind == Ascii("PRODUCT_DATA") then Some(Ascii("product-data://"))
    else if kind == Ascii("HUMAN_NOTE") then Some(Ascii("human-note://"))
    else None
  }

  predicate IsReference(kind: Text, t: Text) {
    var prefix := ReferencePrefix(kind);
    prefix.Some? && prefix.value <= t && IsSha256(t[|prefix.value|..])
  }

  predicate IsRegion(v: Json) {
    && v.Arr? && |v.items| == 4 && (forall i :: 0 <= i < 4 ==> IsFraction(v.items[i]))
    && NumberValue(v.items[0]) < NumberValue(v.items[2]) && NumberValue(v.items[1]) < NumberValue(v.items[3])
  }

  predicate IsEvidence(v: Json) {
    var kind, reference, region, excerpt :=
      Get(v, EVIDENCE_KEYS[1]), Get(v, EVIDENCE_KEYS[2]), Get(v, EVIDENCE_KEYS[3]), Get(v, EVIDENCE_KEYS[4]);
    && HasExactKeys(v, EVIDENCE_KEYS[..3], EVIDENCE_KEYS[3..])
    && IsBoundedString(Get(v, EVIDENCE_KEYS[0]), 1, 36)
    && IsText(kind) && IsBoundedString(reference, 1, 512) && IsReference(kind.value.s, reference.value.s)
    && (region.None? || region.value.Null? || IsRegion(region.value))
    && (excerpt.None? || excerpt.value.Null? || (excerpt.value.Str? && IsSha256(excerpt.value.s)))
  }

  // ------------------------------------------------------------------ fields

  const PATH := Ascii("path")
  const FIELD_KEYS := [PATH, Ascii("value"), Ascii("confidence"), Ascii("conflict"), Ascii("review_required"),
                       Ascii("sensitive"), Ascii("evidence")]
  const REQUIRED_KEYS := [PATH, Ascii("value"), Ascii("sensitive"), Ascii("evidence")]
  const OPTIONAL_KEYS := [Ascii("confidence"), Ascii("conflict"), Ascii("review_required")]

  predicate IsConflict(v: Json) { v in {Str(Ascii("NONE")), Str(Ascii("CONFLICTING")), Str(Ascii("RESOLVED"))} }

  predicate IsField(v: Json) {
    var confidence, conflict, review := Get(v, FIELD_KEYS[2]), Get(v, FIELD_KEYS[3]), Get(v, FIELD_KEYS[4]);
    var sensitive, evidence := Get(v, FIELD_KEYS[5]), Get(v, FIELD_KEYS[6]);
    && HasExactKeys(v, REQUIRED_KEYS, OPTIONAL_KEYS)
    && IsBoundedString(Get(v, PATH), 1, 160)
    && sensitive.Some? && sensitive.value.Bool?
    && evidence.Some? && evidence.value.Arr? && 1 <= |evidence.value.items| <= 32
    && (confidence.None? || IsConfidence(confidence.value))
    && (conflict.None? || IsConflict(conflict.value))
    && (review.None? || review.value.Bool?)
    && forall item <- evidence.value.items :: IsEvidence(item)
  }

  function Evidence(items: seq<Json>): seq<Json> { seq(|items|, i requires 0 <= i < |items| => Pick(items[i], EVIDENCE_KEYS)) }

  // The values of a canonical field, in the order of FIELD_KEYS.
  function FieldValues(v: Json, value: Json, items: seq<Json>): seq<Option<Json>> {
    [Get(v, PATH), Some(value), Get(v, FIELD_KEYS[2]), Get(v, FIELD_KEYS[3]), Get(v, FIELD_KEYS[4]), Get(v, FIELD_KEYS[5]),
     Some(Arr(Evidence(items)))]
  }

  // revisionFieldFor.
  function RevisionFieldFor(v: Json): Option<Json> {
    if !IsField(v) || Get(v, FIELD_KEYS[1]).None? then None
    else
      match FieldValue(Value(v, PATH).s, Value(v, FIELD_KEYS[1]))
      case None => None
      case Some(value) =>
        Some(Literal(FIELD_KEYS, FieldValues(v, value, Value(v, FIELD_KEYS[6]).items)))
  }

  // ------------------------------------------------------- literals read back

  // Different keys that start with a letter: none is an array index.
  predicate GoodKeys(keys: seq<Text>) {
    AllDifferent(keys) && forall i :: 0 <= i < |keys| ==> keys[i] != [] && keys[i][0] >= 97
  }

  lemma LetterNoIndex(key: Text)
    requires key != [] && key[0] >= 97
    ensures !IndexKey(key)
  {
    assert key[0] in key;
  }

  lemma FirstFound(keys: seq<Text>, values: seq<Option<Json>>, key: Text)
    requires |keys| == |values| && keys != []
    ensures Find(Members(keys, values), key)
         == if values[0].Some? && keys[0] == key then values[0] else Find(Members(keys[1..], values[1..]), key)
  {
    var rest := Members(keys[1..], values[1..]);
    if values[0].Some? { assert Members(keys, values)[1..] == rest; }
  }

  lemma {:induction false} MembersLack(keys: seq<Text>, values: seq<Option<Json>>, key: Text)
    requires |keys| == |values| && key !in keys
    ensures Find(Members(keys, values), key) == None
  {
    if keys != [] {
      MembersLack(keys[1..], values[1..], key);
      FirstFound(keys, values, key);
      assert keys[0] in keys && forall k <- keys[1..] :: k in keys;
    }
  }

  lemma {:induction false} MembersFind(keys: seq<Text>, values: seq<Option<Json>>, i: nat)
    requires |keys| == |values| && i < |keys| && AllDifferent(keys)
    ensures Find(Members(keys, values), keys[i]) == values[i]
  {
    FirstFound(keys, values, keys[i]);
    if i > 0 {
      MembersFind(keys[1..], values[1..], i - 1);
    } else {
      MembersLack(keys[1..], values[1..], keys[0]);
    }
  }

  lemma {:induction false} MembersKeyed(keys: seq<Text>, values: seq<Option<Json>>)
    requires |keys| == |values| && AllDifferent(keys)
    ensures DistinctKeys(Members(keys, values)) && forall f <- Members(keys, values) :: f.key in keys
  {
    if keys != [] {
      MembersKeyed(keys[1..], values[1..]);
      forall f <- Members(keys[1..], values[1..]) ensures f.key in keys && f.key != keys[0] {
        assert f.key in keys[1..];
      }
    }
  }

  lemma {:induction false} MembersWellFormed(keys: seq<Text>, values: seq<Option<Json>>)
    requires |keys| == |values| && GoodKeys(keys)
    requires forall i :: 0 <= i < |values| && values[i].Some? ==> WellFormed(values[i].value)
    ensures forall f <- Members(keys, values) :: !IndexKey(f.key) && WellFormed(f.value)
  {
    if keys != [] {
      hide WellFormed, IndexKey;
      MembersWellFormed(keys[1..], values[1..]);
      LetterNoIndex(keys[0]);
    }
  }

  lemma LiteralReads(keys: seq<Text>, values: seq<Option<Json>>)
    requires |keys| == |values| && AllDifferent(keys)
    ensures var o := Literal(keys, values);
      && (forall i :: 0 <= i < |keys| ==> Get(o, keys[i]) == values[i])
      && forall f <- o.fields :: f.key in keys
  {
    forall i | 0 <= i < |keys| ensures Get(Literal(keys, values), keys[i]) == values[i] { MembersFind(keys, values, i); }
    MembersKeyed(keys, values);
  }

  lemma LiteralWellFormed(keys: seq<Text>, values: seq<Option<Json>>)
    requires |keys| == |values| && GoodKeys(keys)
    requires forall i :: 0 <= i < |values| && values[i].Some? ==> WellFormed(values[i].value)
    ensures WellFormed(Literal(keys, values))
  {
    MembersKeyed(keys, values);
    MembersWellFormed(keys, values);
    hide IndexKey, Members, WellFormed;
    NamesWellFormed(Members(keys, values));
  }

  lemma {:induction false} FoundWellFormed(fields: seq<Entry<Json>>, key: Text)
    requires forall i :: 0 <= i < |fields| ==> WellFormed(fields[i].value)
    ensures Find(fields, key).Some? ==> WellFormed(Find(fields, key).value)
  {
    if fields != [] && fields[0].key != key { FoundWellFormed(fields[1..], key); }
  }

  lemma GotWellFormed(v: Json, key: Text)
    requires WellFormed(v)
    ensures Get(v, key).Some? ==> WellFormed(Get(v, key).value)
  {
    if v.Obj? { FoundWellFormed(v.fields, key); }
  }

  // Picking members keeps every one of them.
  lemma PickReads(v: Json, keys: seq<Text>)
    requires AllDifferent(keys)
    ensures forall i :: 0 <= i < |keys| ==> Get(Pick(v, keys), keys[i]) == Get(v, keys[i])
    ensures forall f <- Pick(v, keys).fields :: f.key in keys
    ensures Pick(Pick(v, keys), keys) == Pick(v, keys)
  {
    LiteralReads(keys, Picked(v, keys));
    assert Picked(Pick(v, keys), keys) == Picked(v, keys);
  }

  lemma PickWellFormed(v: Json, keys: seq<Text>)
    requires WellFormed(v) && GoodKeys(keys)
    ensures WellFormed(Pick(v, keys))
  {
    forall i | 0 <= i < |keys| && Get(v, keys[i]).Some? ensures WellFormed(Get(v, keys[i]).value) { GotWellFormed(v, keys[i]); }
    hide WellFormed, IndexKey;
    LiteralWellFormed(keys, Picked(v, keys));
  }

  // ------------------------------------------------------- the keys in use

  lemma ValueKeysGood(kind: FieldKind)
    ensures GoodKeys(IDENTITY_KEYS) && GoodKeys(CATEGORY_KEYS) && GoodKeys(TEXT_KEYS)
    ensures GoodKeys(DIMENSION_KEYS) && GoodKeys(DIMENSIONS_KEYS) && GoodKeys(ListKeys(kind))
  {
    assert IDENTITY_KEYS[1][0] == 100 && IDENTITY_KEYS[2][0] == 109;
    assert CATEGORY_KEYS[0][0] == 107 && CATEGORY_KEYS[1][0] == 99;
    assert TEXT_KEYS[1][0] == 116;
    assert DIMENSION_KEYS[0][0] == 110 && DIMENSION_KEYS[2][0] == 117;
  }

  lemma FieldKeysGood()
    ensures GoodKeys(EVIDENCE_KEYS) && GoodKeys(FIELD_KEYS)
  {
    assert FIELD_KEYS[3][0] == 99 && FIELD_KEYS[6][0] == 101;
  }

  // ---------------------------------------------------- the canonical form

  lemma PickExact(v: Json, keys: seq<Text>, required: seq<Text>, optional: seq<Text>)
    requires GoodKeys(keys) && HasExactKeys(v, required, optional)
    requires (forall k <- required :: k in keys) && forall k <- keys :: k in required || k in optional
    ensures HasExactKeys(Pick(v, keys), required, optional)
  {
    PickReads(v, keys);
    hide Pick;
    forall k <- required ensures Get(Pick(v, keys), k).Some? {
      var i :| 0 <= i < |keys| && keys[i] == k;
    }
  }

  lemma IdentityBack(v: Json)
    requires IsIdentity(v)
    ensures IsIdentity(Pick(v, IDENTITY_KEYS))
  {
    ValueKeysGood(ProductIdentity);
    var keys := IDENTITY_KEYS;
    PickReads(v, keys);
    assert keys == keys[..2] + keys[2..] && keys[0] in keys && keys[1] in keys;
    hide GoodKeys, Pick, IsShortText, IsOptionalText, Truthy, Get;
    PickExact(v, keys, keys[..2], keys[2..]);
    hide HasExactKeys;
  }

  lemma CategoryBack(v: Json)
    requires IsCategory(v)
    ensures IsCategory(Pick(v, CATEGORY_KEYS))
  {
    ValueKeysGood(Category);
    PickReads(v, CATEGORY_KEYS);
    hide GoodKeys, Pick, IsShortText, Get;
    PickExact(v, CATEGORY_KEYS, CATEGORY_KEYS, []);
    hide HasExactKeys;
  }

  lemma DimensionBack(v: Json)
    requires IsDimension(v)
    ensures IsDimension(Pick(v, DIMENSION_KEYS)) && Get(Pick(v, DIMENSION_KEYS), DIMENSION_KEYS[0]) == Get(v, DIMENSION_KEYS[0])
    ensures Pick(Pick(v, DIMENSION_KEYS), DIMENSION_KEYS) == Pick(v, DIMENSION_KEYS)
    ensures WellFormed(v) ==> WellFormed(Pick(v, DIMENSION_KEYS))
  {
    ValueKeysGood(DimensionList);
    var keys := DIMENSION_KEYS;
    PickReads(v, keys);
    if WellFormed(v) { PickWellFormed(v, keys); }
    assert keys == keys[..2] + keys[2..] && keys[0] in keys && keys[1] in keys;
    hide GoodKeys, Pick, IsShortText, IsOptionalText, Get, WellFormed;
    PickExact(v, keys, keys[..2], keys[2..]);
    hide HasExactKeys;
  }

  lemma DimensionItemsBack(items: seq<Json>)
    requires forall item <- items :: IsDimension(item)
    ensures forall item <- Dimensions(items) :: IsDimension(item)
    ensures Dimensions(Dimensions(items)) == Dimensions(items) && DimensionNames(Dimensions(items)) == DimensionNames(items)
    ensures WellFormed(Arr(items)) ==> WellFormed(Arr(Dimensions(items)))
  {
    hide Pick, IsDimension, Get, WellFormed;
    forall i | 0 <= i < |items|
      ensures IsDimension(Dimensions(items)[i]) && Get(Dimensions(items)[i], DIMENSION_KEYS[0]) == Get(items[i], DIMENSION_KEYS[0])
      ensures Pick(Dimensions(items)[i], DIMENSION_KEYS) == Dimensions(items)[i]
      ensures WellFormed(items[i]) ==> WellFormed(Dimensions(items)[i])
    {
      assert items[i] in items;
      DimensionBack(items[i]);
    }
    ItemsWellFormed(items, Dimensions(items));
  }

  lemma ItemsWellFormed(items: seq<Json>, others: seq<Json>)
    requires |others| == |items| && forall i :: 0 <= i < |items| && WellFormed(items[i]) ==> WellFormed(others[i])
    ensures WellFormed(Arr(items)) ==> WellFormed(Arr(others))
  {
  }

  lemma DimensionsBack(v: Json, w: Json)
    requires DimensionsOf(v) == Some(w)
    ensures DimensionsOf(w) == Some(w) && Get(w, KIND) == Get(v, KIND)
    ensures WellFormed(v) ==> WellFormed(w)
  {
    ValueKeysGood(DimensionList);
    var keys, items := DIMENSIONS_KEYS, Value(v, DIMENSIONS_KEYS[1]).items;
    var values := [Get(v, KIND), Some(Arr(Dimensions(items)))];
    hide IsDimension, IndexKey, Pick;
    LiteralReads(keys, values);
    DimensionItemsBack(items);
    assert Get(v, keys[0]).Some? by { assert keys[0] in keys; }
    hide Get, WellFormed, GoodKeys, AllDifferent, DimensionNames, Dimensions;
    assert Get(w, keys[0]) == values[0] && Get(w, keys[1]) == values[1];
    ExactPair(w, keys);
    if WellFormed(v) {
      GotWellFormed(v, keys[0]);
      GotWellFormed(v, keys[1]);
      LiteralWellFormed(keys, values);
    }
    hide HasExactKeys, Literal;
  }

  lemma ExactPair(w: Json, keys: seq<Text>)
    requires |keys| == 2 && w.Obj? && Get(w, keys[0]).Some? && Get(w, keys[1]).Some? && forall f <- w.fields :: f.key in keys
    ensures HasExactKeys(w, keys, [])
  {
  }

  // An object of two members, the second of which passes some test.
  lemma PairBack(v: Json, keys: seq<Text>)
    requires |keys| == 2 && GoodKeys(keys) && HasExactKeys(v, keys, [])
    ensures var w := Pick(v, keys);
      HasExactKeys(w, keys, []) && Get(w, keys[0]) == Get(v, keys[0]) && Get(w, keys[1]) == Get(v, keys[1]) && Pick(w, keys) == w
  {
    PickReads(v, keys);
    hide GoodKeys, Pick, Get;
    PickExact(v, keys, keys, []);
  }

  // What is picked has the kind of what it is picked from.
  lemma KindKept(v: Json, keys: seq<Text>)
    requires GoodKeys(keys) && keys != [] && keys[0] == KIND
    ensures Get(Pick(v, keys), KIND) == Get(v, KIND) && Pick(Pick(v, keys), keys) == Pick(v, keys)
    ensures WellFormed(v) ==> WellFormed(Pick(v, keys))
  {
    PickReads(v, keys);
    if WellFormed(v) { PickWellFormed(v, keys); }
    hide GoodKeys, Pick, Get, WellFormed;
  }

  lemma FieldValueBack(path: Text, v: Json, w: Json)
    requires FieldValue(path, v) == Some(w)
    ensures FieldValue(path, w) == Some(w)
    ensures WellFormed(v) ==> WellFormed(w)
  {
    hide KindOf, KindName, GoodKeys, Pick, Get, WellFormed, IsIdentity, IsCategory, DimensionsOf, HasExactKeys, IsShortText,
      IsUniqueTextList;
    var kind := KindOf(path).value;
    ValueKeysGood(kind);
    match kind {
      case ProductIdentity => IdentityBack(v); KindKept(v, IDENTITY_KEYS);
      case Category => CategoryBack(v); KindKept(v, CATEGORY_KEYS);
      case TextValue => PairBack(v, TEXT_KEYS); KindKept(v, TEXT_KEYS);
      case DimensionList => DimensionsBack(v, w);
      case _ => PairBack(v, ListKeys(kind)); KindKept(v, ListKeys(kind));
    }
  }

  lemma EvidenceBack(v: Json)
    requires IsEvidence(v)
    ensures IsEvidence(Pick(v, EVIDENCE_KEYS)) && Pick(Pick(v, EVIDENCE_KEYS), EVIDENCE_KEYS) == Pick(v, EVIDENCE_KEYS)
    ensures WellFormed(v) ==> WellFormed(Pick(v, EVIDENCE_KEYS))
  {
    FieldKeysGood();
    var keys := EVIDENCE_KEYS;
    PickReads(v, keys);
    if WellFormed(v) { PickWellFormed(v, keys); }
    assert keys == keys[..3] + keys[3..] && keys[0] in keys && keys[1] in keys && keys[2] in keys;
    hide GoodKeys, Pick, IsBoundedString, IsReference, IsRegion, IsSha256, Get, WellFormed;
    PickExact(v, keys, keys[..3], keys[3..]);
    hide HasExactKeys;
  }

  lemma EvidenceItemsBack(items: seq<Json>)
    requires forall item <- items :: IsEvidence(item)
    ensures forall item <- Evidence(items) :: IsEvidence(item)
    ensures Evidence(Evidence(items)) == Evidence(items)
    ensures WellFormed(Arr(items)) ==> WellFormed(Arr(Evidence(items)))
  {
    hide Pick, IsEvidence, WellFormed;
    forall i | 0 <= i < |items|
      ensures IsEvidence(Evidence(items)[i]) && Pick(Evidence(items)[i], EVIDENCE_KEYS) == Evidence(items)[i]
      ensures WellFormed(items[i]) ==> WellFormed(Evidence(items)[i])
    {
      assert items[i] in items;
      EvidenceBack(items[i]);
    }
    ItemsWellFormed(items, Evidence(items));
  }

  lemma FieldReads(v: Json, value: Json, items: seq<Json>)
    ensures var w := Literal(FIELD_KEYS, FieldValues(v, value, items));
      && Get(w, PATH) == Get(v, PATH) && Get(w, FIELD_KEYS[1]) == Some(value)
      && Get(w, FIELD_KEYS[2]) == Get(v, FIELD_KEYS[2]) && Get(w, FIELD_KEYS[3]) == Get(v, FIELD_KEYS[3])
      && Get(w, FIELD_KEYS[4]) == Get(v, FIELD_KEYS[4]) && Get(w, FIELD_KEYS[5]) == Get(v, FIELD_KEYS[5])
      && Get(w, FIELD_KEYS[6]) == Some(Arr(Evidence(items)))
      && (Get(w, PATH).Some? && Get(w, FIELD_KEYS[5]).Some? ==> HasExactKeys(w, REQUIRED_KEYS, OPTIONAL_KEYS))
  {
    FieldKeysGood();
    var values := FieldValues(v, value, items);
    LiteralReads(FIELD_KEYS, values);
    var w := Literal(FIELD_KEYS, values);
    hide GoodKeys, AllDifferent, Literal, Get, Evidence;
    assert Get(w, FIELD_KEYS[0]) == values[0] && Get(w, FIELD_KEYS[1]) == values[1] && Get(w, FIELD_KEYS[2]) == values[2];
    assert Get(w, FIELD_KEYS[3]) == values[3] && Get(w, FIELD_KEYS[4]) == values[4] && Get(w, FIELD_KEYS[5]) == values[5];
    assert Get(w, FIELD_KEYS[6]) == values[6];
  }

  lemma FieldWellFormed(v: Json, value: Json, items: seq<Json>)
    requires WellFormed(v) && WellFormed(value) && WellFormed(Arr(Evidence(items)))
    ensures WellFormed(Literal(FIELD_KEYS, FieldValues(v, value, items)))
  {
    FieldKeysGood();
    hide GoodKeys, Get, WellFormed, Literal, Evidence;
    forall k: Text ensures Get(v, k).Some? ==> WellFormed(Get(v, k).value) { GotWellFormed(v, k); }
    LiteralWellFormed(FIELD_KEYS, FieldValues(v, value, items));
  }

  lemma FieldBack(v: Json, w: Json, items: seq<Json>)
    requires IsField(v) && Get(v, FIELD_KEYS[6]) == Some(Arr(items)) && HasExactKeys(w, REQUIRED_KEYS, OPTIONAL_KEYS)
    requires Get(w, PATH) == Get(v, PATH) && Get(w, FIELD_KEYS[2]) == Get(v, FIELD_KEYS[2])
    requires Get(w, FIELD_KEYS[3]) == Get(v, FIELD_KEYS[3]) && Get(w, FIELD_KEYS[4]) == Get(v, FIELD_KEYS[4])
    requires Get(w, FIELD_KEYS[5]) == Get(v, FIELD_KEYS[5]) && Get(w, FIELD_KEYS[6]) == Some(Arr(Evidence(items)))
    ensures IsField(w)
  {
    hide Get, IsEvidence, IsConfidence, IsConflict, HasExactKeys, IsBoundedString, Pick;
    EvidenceItemsBack(items);
  }

  // The canonical form of a field is its own canonical form, and a value that
  // JSON.parse can yield.
  lemma CanonicalFieldIsCanonical(v: Json, w: Json)
    requires RevisionFieldFor(v) == Some(w)
    ensures RevisionFieldFor(w) == Some(w)
    ensures WellFormed(v) ==> WellFormed(w)
  {
    hide Literal, Get, FieldValue, Evidence, IsEvidence, IsConfidence, IsConflict, HasExactKeys, WellFormed;
    var value := FieldValue(Value(v, PATH).s, Value(v, FIELD_KEYS[1])).value;
    var items := Value(v, FIELD_KEYS[6]).items;
    FieldReads(v, value, items);
    FieldValueBack(Value(v, PATH).s, Value(v, FIELD_KEYS[1]), value);
    EvidenceItemsBack(items);
    FieldBack(v, w, items);
    hide IsField;
    assert FieldValues(w, value, Evidence(items)) == FieldValues(v, value, items);
    if WellFormed(v) {
      GotWellFormed(v, FIELD_KEYS[1]);
      GotWellFormed(v, FIELD_KEYS[6]);
      FieldWellFormed(v, value, items);
    }
  }

  // -------------------------------------------- the same value in another order

  lemma {:induction false} SameAsItself(v: Json)
    ensures Same(v, v)
  {
    match v {
      case Arr(items) => forall i | 0 <= i < |items| ensures Same(items[i], items[i]) { SameAsItself(items[i]); }
      case Obj(fields) =>
        forall i | 0 <= i < |fields| ensures MatchedIn(fields[i], fields) && MatchedBy(fields, fields[i]) {
          SameAsItself(fields[i].value);
        }
      case _ =>
    }
  }

  lemma {:induction false} FoundAt(fields: seq<Entry<Json>>, key: Text) returns (i: nat)
    requires Find(fields, key).Some?
    ensures i < |fields| && fields[i] == Entry(key, Find(fields, key).value)
  {
    if fields[0].key == key {
      i := 0;
    } else {
      var k := FoundAt(fields[1..], key);
      i := k + 1;
    }
  }

  lemma FoundKey(fields: seq<Entry<Json>>, keys: seq<Text>, key: Text)
    requires forall f <- fields :: f.key in keys
    ensures Find(fields, key).Some? ==> key in keys
  {
    if Find(fields, key).Some? { var _ := FoundAt(fields, key); }
  }

  // The members of one object under a key are the same as those of another.
  ghost predicate SameUnder(v: Json, w: Json, key: Text) {
    Get(v, key).Some? && Get(w, key).Some? && Same(Get(v, key).value, Get(w, key).value)
  }

  lemma SameByMembers(v: Json, w: Json)
    requires v.Obj? && w.Obj? && DistinctKeys(v.fields) && DistinctKeys(w.fields)
    requires forall key :: Get(v, key).Some? || Get(w, key).Some? ==> SameUnder(v, w, key)
    ensures Same(v, w)
  {
    hide Find, Same;
    forall i | 0 <= i < |v.fields| ensures MatchedIn(v.fields[i], w.fields) {
      FindAt(v.fields, i);
      assert SameUnder(v, w, v.fields[i].key);
      var j := FoundAt(w.fields, v.fields[i].key);
    }
    forall j | 0 <= j < |w.fields| ensures MatchedBy(v.fields, w.fields[j]) {
      FindAt(w.fields, j);
      assert SameUnder(v, w, w.fields[j].key);
      var i := FoundAt(v.fields, w.fields[j].key);
    }
    ObjectsSame(v, w);
  }

  lemma ObjectsSame(v: Json, w: Json)
    requires v.Obj? && w.Obj?
    requires forall i :: 0 <= i < |v.fields| ==> MatchedIn(v.fields[i], w.fields)
    requires forall j :: 0 <= j < |w.fields| ==> MatchedBy(v.fields, w.fields[j])
    ensures Same(v, w)
  {
  }

  // A literal with the same members as an object that has no others.
  lemma LiteralSame(v: Json, keys: seq<Text>, values: seq<Option<Json>>)
    requires |keys| == |values| && GoodKeys(keys) && v.Obj? && DistinctKeys(v.fields) && forall f <- v.fields :: f.key in keys
    requires forall i :: 0 <= i < |keys| ==>
      (Get(v, keys[i]).Some? <==> values[i].Some?) && (values[i].Some? ==> Same(Get(v, keys[i]).value, values[i].value))
    ensures Same(v, Literal(keys, values))
  {
    LiteralReads(keys, values);
    MembersKeyed(keys, values);
    var w := Literal(keys, values);
    hide Same, Find, GoodKeys;
    forall key | Get(v, key).Some? || Get(w, key).Some? ensures SameUnder(v, w, key) {
      FoundKey(v.fields, keys, key);
      FoundKey(w.fields, keys, key);
      var i :| 0 <= i < |keys| && keys[i] == key;
    }
    SameByMembers(v, w);
  }

  // An object that has exactly some keys is the same as what is picked by them.
  lemma PickSame(v: Json, keys: seq<Text>, required: seq<Text>, optional: seq<Text>)
    requires WellFormed(v) && GoodKeys(keys) && HasExactKeys(v, required, optional)
    requires forall k :: k in required || k in optional ==> k in keys
    ensures Same(v, Pick(v, keys))
  {
    hide Same, Find, GoodKeys;
    forall x: Json ensures Same(x, x) { SameAsItself(x); }
    LiteralSame(v, keys, Picked(v, keys));
  }

  lemma SameItems(items: seq<Json>, others: seq<Json>)
    requires |items| == |others| && forall i :: 0 <= i < |items| ==> Same(items[i], others[i])
    ensures Same(Arr(items), Arr(others))
  {
  }

  lemma DimensionsSame(v: Json, w: Json)
    requires DimensionsOf(v) == Some(w) && WellFormed(v)
    ensures Same(v, w)
  {
    ValueKeysGood(DimensionList);
    var keys, items := DIMENSIONS_KEYS, Value(v, DIMENSIONS_KEYS[1]).items;
    var values := [Get(v, KIND), Some(Arr(Dimensions(items)))];
    hide IsDimension, IndexKey, Pick, Same, Find;
    GotWellFormed(v, keys[1]);
    forall i | 0 <= i < |items| ensures Same(items[i], Dimensions(items)[i]) {
      assert items[i] in items;
      DimensionSame(items[i]);
    }
    SameItems(items, Dimensions(items));
    assert Get(v, keys[0]).Some? by { assert keys[0] in keys; }
    SameAsItself(Get(v, keys[0]).value);
    LiteralSame(v, keys, values);
  }

  lemma DimensionSame(v: Json)
    requires IsDimension(v) && WellFormed(v)
    ensures Same(v, Pick(v, DIMENSION_KEYS))
  {
    ValueKeysGood(DimensionList);
    hide GoodKeys, Pick, IsShortText, IsOptionalText, Get, WellFormed, Same;
    assert DIMENSION_KEYS == DIMENSION_KEYS[..2] + DIMENSION_KEYS[2..];
    PickSame(v, DIMENSION_KEYS, DIMENSION_KEYS[..2], DIMENSION_KEYS[2..]);
  }

  lemma FieldValueSame(path: Text, v: Json, w: Json)
    requires FieldValue(path, v) == Some(w) && WellFormed(v)
    ensures Same(v, w)
  {
    hide KindOf, KindName, GoodKeys, Pick, Get, WellFormed, DimensionsOf, IsShortText, IsOptionalText, IsUniqueTextList, Same, Truthy;
    var kind := KindOf(path).value;
    ValueKeysGood(kind);
    match kind {
      case ProductIdentity =>
        assert IDENTITY_KEYS == IDENTITY_KEYS[..2] + IDENTITY_KEYS[2..];
        PickSame(v, IDENTITY_KEYS, IDENTITY_KEYS[..2], IDENTITY_KEYS[2..]);
      case Category => PickSame(v, CATEGORY_KEYS, CATEGORY_KEYS, []);
      case TextValue => PickSame(v, TEXT_KEYS, TEXT_KEYS, []);
      case DimensionList => DimensionsSame(v, w);
      case _ => PickSame(v, ListKeys(kind), ListKeys(kind), []);
    }
  }

  lemma EvidenceSame(v: Json)
    requires IsEvidence(v) && WellFormed(v)
    ensures Same(v, Pick(v, EVIDENCE_KEYS))
  {
    FieldKeysGood();
    hide GoodKeys, Pick, IsBoundedString, IsReference, IsRegion, IsSha256, Get, WellFormed, Same;
    assert EVIDENCE_KEYS == EVIDENCE_KEYS[..3] + EVIDENCE_KEYS[3..];
    PickSame(v, EVIDENCE_KEYS, EVIDENCE_KEYS[..3], EVIDENCE_KEYS[3..]);
  }

  // The canonical form of a field is the field, its objects in a fixed order:
  // nothing is dropped, added or changed.
  lemma CanonicalFieldIsSame(v: Json, w: Json)
    requires RevisionFieldFor(v) == Some(w) && WellFormed(v)
    ensures Same(v, w)
  {
    hide Literal, Find, FieldValue, IsEvidence, IsConfidence, IsConflict, Same, IndexKey, Pick;
    var value := FieldValue(Value(v, PATH).s, Value(v, FIELD_KEYS[1])).value;
    var items := Value(v, FIELD_KEYS[6]).items;
    FieldKeysGood();
    GotWellFormed(v, FIELD_KEYS[1]);
    GotWellFormed(v, FIELD_KEYS[6]);
    FieldValueSame(Value(v, PATH).s, Value(v, FIELD_KEYS[1]), value);
    forall i | 0 <= i < |items| ensures Same(items[i], Evidence(items)[i]) {
      assert items[i] in items;
      EvidenceSame(items[i]);
    }
    SameItems(items, Evidence(items));
    forall x: Json ensures Same(x, x) { SameAsItself(x); }
    FieldKeysKnown(v);
    LiteralSame(v, FIELD_KEYS, FieldValues(v, value, items));
  }

  lemma FieldKeysKnown(v: Json)
    requires HasExactKeys(v, REQUIRED_KEYS, OPTIONAL_KEYS)
    ensures forall f <- v.fields :: f.key in FIELD_KEYS
  {
  }
}
