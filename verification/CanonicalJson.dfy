// canonicalize decides equality up to the order of object fields, so equal
// SHA-256 fingerprints mean equal payloads up to that order.
module CanonicalJson {
  import opened Texts
  import opened Json
  import JsonEncoding

  // The value with the fields of every object sorted by key.
  function Normalize(v: Json): Json
    decreases v, 1
  {
    match v
    case Arr(items) => Arr(NormalizeItems(items))
    case Obj(fields) => Obj(SortByKey(NormalizeFields(fields)))
    case _ => v
  }

  function NormalizeItems(items: seq<Json>): seq<Json>
    decreases items, 0
  {
    if items == [] then [] else [Normalize(items[0])] + NormalizeItems(items[1..])
  }

  function NormalizeFields(fields: seq<Entry<Json>>): seq<Entry<Json>>
    decreases fields, 0
  {
    if fields == [] then []
    else [Entry(fields[0].key, Normalize(fields[0].value))] + NormalizeFields(fields[1..])
  }

  lemma {:induction false} NormalizeItemsAt(items: seq<Json>)
    ensures |NormalizeItems(items)| == |items|
    ensures forall i :: 0 <= i < |items| ==> NormalizeItems(items)[i] == Normalize(items[i])
  {
    if items != [] { NormalizeItemsAt(items[1..]); }
  }

  lemma {:induction false} NormalizeFieldsAt(fields: seq<Entry<Json>>)
    ensures |NormalizeFields(fields)| == |fields|
    ensures forall i :: 0 <= i < |fields| ==>
      NormalizeFields(fields)[i] == Entry(fields[i].key, Normalize(fields[i].value))
  {
    if fields != [] { NormalizeFieldsAt(fields[1..]); }
  }

  // ---------------------------------------------------------------- sorting

  ghost predicate Sorted(fields: seq<Entry<Json>>) {
    forall i, j :: 0 <= i < j < |fields| ==> Less(fields[i].key, fields[j].key)
  }

  lemma {:induction false} InsertSorts(entry: Entry<Json>, sorted: seq<Entry<Json>>)
    requires Sorted(sorted)
    requires forall i :: 0 <= i < |sorted| ==> sorted[i].key != entry.key
    ensures Sorted(Insert(entry, sorted))
    ensures forall e :: e in Insert(entry, sorted) <==> e == entry || e in sorted
  {
    if sorted == [] || Less(entry.key, sorted[0].key) {
      forall j | 0 <= j < |sorted| ensures Less(entry.key, sorted[j].key) {
        if j > 0 { LessTransitive(entry.key, sorted[0].key, sorted[j].key); }
      }
    } else {
      LessTotal(entry.key, sorted[0].key);
      InsertSorts(entry, sorted[1..]);
      var tail := Insert(entry, sorted[1..]);
      forall j | 0 <= j < |tail| ensures Less(sorted[0].key, tail[j].key) {
        assert tail[j] in tail;
        assert tail[j] == entry || tail[j] in sorted[1..];
      }
    }
  }

  lemma {:induction false} SortSorts(fields: seq<Entry<Json>>)
    requires DistinctKeys(fields)
    ensures Sorted(SortByKey(fields))
    ensures forall e :: e in SortByKey(fields) <==> e in fields
  {
    if fields != [] {
      SortSorts(fields[1..]);
      var rest := SortByKey(fields[1..]);
      forall i | 0 <= i < |rest| ensures rest[i].key != fields[0].key {
        assert rest[i] in rest;
        assert rest[i] in fields[1..];
      }
      InsertSorts(fields[0], rest);
    }
  }

  // A strictly sorted field list is determined by its members.
  lemma {:induction false} SortedUnique(fs: seq<Entry<Json>>, gs: seq<Entry<Json>>)
    requires Sorted(fs) && Sorted(gs)
    requires forall e :: e in fs <==> e in gs
    ensures fs == gs
  {
    if fs != [] { assert fs[0] in gs; }
    if gs != [] { assert gs[0] in fs; }
    if fs != [] {
      var i :| 0 <= i < |gs| && gs[i] == fs[0];
      var j :| 0 <= j < |fs| && fs[j] == gs[0];
      LessTotal(fs[0].key, gs[0].key);
      assert i == 0;
      forall e ensures e in fs[1..] <==> e in gs[1..] {
        SortedTail(fs, e);
        SortedTail(gs, e);
      }
      SortedUnique(fs[1..], gs[1..]);
      assert fs == [fs[0]] + fs[1..] && gs == [gs[0]] + gs[1..];
    }
  }

  lemma SortedTail(fs: seq<Entry<Json>>, e: Entry<Json>)
    requires Sorted(fs) && fs != []
    ensures e in fs[1..] <==> e in fs && e != fs[0]
  {
    if e in fs[1..] {
      var i :| 0 <= i < |fs[1..]| && fs[1..][i] == e;
      LessTotal(fs[0].key, e.key);
      assert fs[i + 1] == e;
    }
    assert fs == [fs[0]] + fs[1..];
  }

  // ------------------------------------------ canonicalize through Normalize

  lemma {:induction false} InsertCommutes(entry: Entry<Json>, sorted: seq<Entry<Json>>)
    ensures StringifyFields(Insert(entry, sorted))
         == Insert(Entry(entry.key, Stringify(entry.value)), StringifyFields(sorted))
  {
    if sorted == [] || Less(entry.key, sorted[0].key) {
      assert ([entry] + sorted)[1..] == sorted;
    } else {
      InsertCommutes(entry, sorted[1..]);
      assert ([sorted[0]] + Insert(entry, sorted[1..]))[1..] == Insert(entry, sorted[1..]);
    }
  }

  lemma {:induction false} SortCommutes(fields: seq<Entry<Json>>)
    ensures StringifyFields(SortByKey(fields)) == SortByKey(StringifyFields(fields))
  {
    if fields != [] {
      SortCommutes(fields[1..]);
      InsertCommutes(fields[0], SortByKey(fields[1..]));
      assert StringifyFields(fields)[1..] == StringifyFields(fields[1..]);
    }
  }

  lemma {:induction false} CanonicalizeNormalized(v: Json)
    ensures Canonicalize(v) == Stringify(Normalize(v))
    decreases v, 1
  {
    match v {
      case Arr(items) => CanonicalizeItemsNormalized(items);
      case Obj(fields) =>
        CanonicalizeFieldsNormalized(fields);
        SortCommutes(NormalizeFields(fields));
      case _ =>
    }
  }

  lemma {:induction false} CanonicalizeItemsNormalized(items: seq<Json>)
    ensures CanonicalizeItems(items) == StringifyItems(NormalizeItems(items))
    decreases items, 0
  {
    if items != [] {
      CanonicalizeNormalized(items[0]);
      CanonicalizeItemsNormalized(items[1..]);
      assert NormalizeItems(items)[1..] == NormalizeItems(items[1..]);
    }
  }

  lemma {:induction false} CanonicalizeFieldsNormalized(fields: seq<Entry<Json>>)
    ensures CanonicalizeFields(fields) == StringifyFields(NormalizeFields(fields))
    decreases fields, 0
  {
    if fields != [] {
      CanonicalizeNormalized(fields[0].value);
      CanonicalizeFieldsNormalized(fields[1..]);
      assert NormalizeFields(fields)[1..] == NormalizeFields(fields[1..]);
    }
  }

  // -------------------------------------------------------------- main result

  lemma {:induction false} SameIffNormalized(a: Json, b: Json)
    requires Unambiguous(a) && Unambiguous(b)
    ensures Same(a, b) <==> Normalize(a) == Normalize(b)
    decreases a, 1
  {
    if a.Arr? && b.Arr? {
      SameItemsIffNormalized(a, b);
    } else if a.Obj? && b.Obj? {
      SameObjectsIffNormalized(a, b);
    }
  }

  lemma {:induction false} SameItemsIffNormalized(a: Json, b: Json)
    requires a.Arr? && b.Arr? && Unambiguous(a) && Unambiguous(b)
    ensures Same(a, b) <==> Normalize(a) == Normalize(b)
    decreases a, 0
  {
    var xs, ys := a.items, b.items;
    NormalizeItemsAt(xs);
    NormalizeItemsAt(ys);
    if |xs| == |ys| {
      forall i | 0 <= i < |xs| ensures Same(xs[i], ys[i]) <==> NormalizeItems(xs)[i] == NormalizeItems(ys)[i] {
        SameIffNormalized(xs[i], ys[i]);
      }
    }
  }

  lemma {:induction false} SameObjectsIffNormalized(a: Json, b: Json)
    requires a.Obj? && b.Obj? && Unambiguous(a) && Unambiguous(b)
    ensures Same(a, b) <==> Normalize(a) == Normalize(b)
    decreases a, 0
  {
    forall i, j | 0 <= i < |a.fields| && 0 <= j < |b.fields|
      ensures Same(a.fields[i].value, b.fields[j].value)
         <==> Normalize(a.fields[i].value) == Normalize(b.fields[j].value)
    {
      SameIffNormalized(a.fields[i].value, b.fields[j].value);
    }
    SameFieldsIffNormalized(a.fields, b.fields);
  }

  lemma MatchedInIff(f: Entry<Json>, gs: seq<Entry<Json>>)
    requires forall j :: 0 <= j < |gs| ==> (Same(f.value, gs[j].value) <==> Normalize(f.value) == Normalize(gs[j].value))
    ensures MatchedIn(f, gs) <==> Entry(f.key, Normalize(f.value)) in NormalizeFields(gs)
  {
    NormalizeFieldsAt(gs);
    var e, q := Entry(f.key, Normalize(f.value)), NormalizeFields(gs);
    if e in q {
      var j :| 0 <= j < |q| && q[j] == e;
      assert gs[j].key == f.key && Same(f.value, gs[j].value);
    }
    if MatchedIn(f, gs) {
      var j :| 0 <= j < |gs| && gs[j].key == f.key && Same(f.value, gs[j].value);
      assert q[j] == e;
    }
  }

  lemma MatchedByIff(fs: seq<Entry<Json>>, g: Entry<Json>)
    requires forall i :: 0 <= i < |fs| ==> (Same(fs[i].value, g.value) <==> Normalize(fs[i].value) == Normalize(g.value))
    ensures MatchedBy(fs, g) <==> Entry(g.key, Normalize(g.value)) in NormalizeFields(fs)
  {
    NormalizeFieldsAt(fs);
    var e, p := Entry(g.key, Normalize(g.value)), NormalizeFields(fs);
    if e in p {
      var i :| 0 <= i < |p| && p[i] == e;
      assert fs[i].key == g.key && Same(fs[i].value, g.value);
    }
    if MatchedBy(fs, g) {
      var i :| 0 <= i < |fs| && fs[i].key == g.key && Same(fs[i].value, g.value);
      assert p[i] == e;
    }
  }

  ghost predicate ValuesAgree(fs: seq<Entry<Json>>, gs: seq<Entry<Json>>) {
    forall i, j :: 0 <= i < |fs| && 0 <= j < |gs| ==>
      (Same(fs[i].value, gs[j].value) <==> Normalize(fs[i].value) == Normalize(gs[j].value))
  }

  lemma AllMatchedIn(fs: seq<Entry<Json>>, gs: seq<Entry<Json>>)
    requires ValuesAgree(fs, gs)
    ensures |NormalizeFields(fs)| == |fs|
    ensures forall i :: 0 <= i < |fs| ==> (MatchedIn(fs[i], gs) <==> NormalizeFields(fs)[i] in NormalizeFields(gs))
  {
    NormalizeFieldsAt(fs);
    forall i | 0 <= i < |fs| ensures MatchedIn(fs[i], gs) <==> NormalizeFields(fs)[i] in NormalizeFields(gs) {
      MatchedInIff(fs[i], gs);
    }
  }

  lemma AllMatchedBy(fs: seq<Entry<Json>>, gs: seq<Entry<Json>>)
    requires ValuesAgree(fs, gs)
    ensures |NormalizeFields(gs)| == |gs|
    ensures forall j :: 0 <= j < |gs| ==> (MatchedBy(fs, gs[j]) <==> NormalizeFields(gs)[j] in NormalizeFields(fs))
  {
    NormalizeFieldsAt(gs);
    forall j | 0 <= j < |gs| ensures MatchedBy(fs, gs[j]) <==> NormalizeFields(gs)[j] in NormalizeFields(fs) {
      MatchedByIff(fs, gs[j]);
    }
  }

  lemma NormalizedKeysDistinct(fields: seq<Entry<Json>>)
    requires DistinctKeys(fields)
    ensures DistinctKeys(NormalizeFields(fields))
  {
    NormalizeFieldsAt(fields);
  }

  lemma SameFieldsIffNormalized(fs: seq<Entry<Json>>, gs: seq<Entry<Json>>)
    requires DistinctKeys(fs) && DistinctKeys(gs) && ValuesAgree(fs, gs)
    ensures (forall i :: 0 <= i < |fs| ==> MatchedIn(fs[i], gs)) && (forall j :: 0 <= j < |gs| ==> MatchedBy(fs, gs[j]))
       <==> SortByKey(NormalizeFields(fs)) == SortByKey(NormalizeFields(gs))
  {
    NormalizedKeysDistinct(fs);
    NormalizedKeysDistinct(gs);
    AllMatchedIn(fs, gs);
    AllMatchedBy(fs, gs);
    SortedIffSameMembers(NormalizeFields(fs), NormalizeFields(gs));
  }

  lemma SortedIffSameMembers(p: seq<Entry<Json>>, q: seq<Entry<Json>>)
    requires DistinctKeys(p) && DistinctKeys(q)
    ensures SortByKey(p) == SortByKey(q)
       <==> (forall i :: 0 <= i < |p| ==> p[i] in q) && (forall j :: 0 <= j < |q| ==> q[j] in p)
  {
    SortSorts(p);
    SortSorts(q);
    if (forall i :: 0 <= i < |p| ==> p[i] in q) && (forall j :: 0 <= j < |q| ==> q[j] in p) {
      SortedUnique(SortByKey(p), SortByKey(q));
    }
    if SortByKey(p) == SortByKey(q) {
      assert forall i :: 0 <= i < |p| ==> p[i] in SortByKey(q);
      assert forall j :: 0 <= j < |q| ==> q[j] in SortByKey(p);
    }
  }

  lemma {:induction false} NormalizedUnambiguous(v: Json)
    requires Unambiguous(v)
    ensures Unambiguous(Normalize(v))
    decreases v
  {
    match v {
      case Arr(items) =>
        NormalizeItemsAt(items);
        forall i | 0 <= i < |items| ensures Unambiguous(NormalizeItems(items)[i]) { NormalizedUnambiguous(items[i]); }
      case Obj(fields) =>
        NormalizeFieldsAt(fields);
        NormalizedKeysDistinct(fields);
        var p := NormalizeFields(fields);
        forall i | 0 <= i < |p| ensures Unambiguous(p[i].value) { NormalizedUnambiguous(fields[i].value); }
        SortedUnambiguous(p);
      case _ =>
    }
  }

  lemma SortedUnambiguous(p: seq<Entry<Json>>)
    requires DistinctKeys(p) && forall i :: 0 <= i < |p| ==> Unambiguous(p[i].value)
    ensures Unambiguous(Obj(SortByKey(p)))
  {
    SortSorts(p);
    var q := SortByKey(p);
    forall i, j | 0 <= i < j < |q| ensures q[i].key != q[j].key { LessTotal(q[i].key, q[j].key); }
    forall i | 0 <= i < |q| ensures Unambiguous(q[i].value) { assert q[i] in q; }
  }

  // Two values have one canonical text exactly when they are the same value
  // up to the order of object fields.
  lemma CanonicalizeDecidesSame(a: Json, b: Json)
    requires Unambiguous(a) && Unambiguous(b)
    ensures Canonicalize(a) == Canonicalize(b) <==> Same(a, b)
  {
    CanonicalizeNormalized(a);
    CanonicalizeNormalized(b);
    SameIffNormalized(a, b);
    NormalizedUnambiguous(a);
    NormalizedUnambiguous(b);
    if Canonicalize(a) == Canonicalize(b) {
      JsonEncoding.StringifyInjective(Normalize(a), Normalize(b));
    }
  }

  // A digest separates two texts unless it maps both to one value.
  ghost predicate Separates(digest: Text -> Text, x: Text, y: Text) {
    digest(x) == digest(y) ==> x == y
  }

  function Fingerprint(digest: Text -> Text, v: Json): Text {
    digest(Canonicalize(v))
  }

  // Equal fingerprints mean the same value up to field order, unless the
  // digest collides on exactly these two canonical texts.
  lemma FingerprintDecidesSame(digest: Text -> Text, a: Json, b: Json)
    requires Unambiguous(a) && Unambiguous(b)
    requires Separates(digest, Canonicalize(a), Canonicalize(b))
    ensures Fingerprint(digest, a) == Fingerprint(digest, b) <==> Same(a, b)
  {
    CanonicalizeDecidesSame(a, b);
  }
}
