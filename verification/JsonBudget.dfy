// The bounded JSON decoder of apps/web/lib/creative-plan-api-decoders.ts: one
// mutable budget is shared by every level of the recursion.
module JsonBudget {
  import opened Texts
  import opened Json

  const MAXIMUM_DEPTH := 16
  const MAXIMUM_ITEMS := 256
  const MAXIMUM_STRING := 8192
  const MAXIMUM_KEY := 128
  const INITIAL_BUDGET := 4096

  // Array.from(value).length: surrogate pairs count once.
  function Points(t: Text): nat {
    if t == [] then 0 else 1 + Points(t[Step(t)..])
  }

  predicate Control(c: CodeUnit) { c < 0x20 || c == 0x7F }

  // text, without a pattern.
  predicate IsTextWithin(t: Text, minimum: nat, maximum: nat) {
    minimum <= Points(t) <= maximum && forall c <- t :: !Control(c)
  }

  // ------------------------------------------------------------- the measure

  function Nodes(v: Json): nat
    decreases v, 1
  {
    match v
    case Arr(items) => 1 + ItemNodes(items)
    case Obj(fields) => 1 + FieldNodes(fields)
    case _ => 1
  }

  function ItemNodes(items: seq<Json>): nat
    decreases items, 0
  {
    if items == [] then 0 else ItemNodes(items[..|items| - 1]) + Nodes(items[|items| - 1])
  }

  function FieldNodes(fields: seq<Entry<Json>>): nat
    decreases fields, 0
  {
    if fields == [] then 0 else FieldNodes(fields[..|fields| - 1]) + Nodes(fields[|fields| - 1].value)
  }

  // Every node lies no deeper than this, and keeps its own limits.
  ghost predicate Within(v: Json, depth: int)
    decreases v
  {
    depth <= MAXIMUM_DEPTH &&
    match v
    case Str(s) => IsTextWithin(s, 0, MAXIMUM_STRING)
    case Arr(items) => |items| <= MAXIMUM_ITEMS && forall i :: 0 <= i < |items| ==> Within(items[i], depth + 1)
    case Obj(fields) =>
      |fields| <= MAXIMUM_ITEMS
      && forall i :: 0 <= i < |fields| ==> IsTextWithin(fields[i].key, 1, MAXIMUM_KEY) && Within(fields[i].value, depth + 1)
    case _ => true
  }

  lemma {:induction false} ItemsBefore(items: seq<Json>, i: nat)
    requires i < |items|
    ensures ItemNodes(items[..i + 1]) == ItemNodes(items[..i]) + Nodes(items[i])
    ensures ItemNodes(items[..i + 1]) <= ItemNodes(items)
    decreases |items|
  {
    assert items[..i + 1][..i] == items[..i];
    if i + 1 < |items| {
      var front := items[..|items| - 1];
      ItemsBefore(front, i);
      assert front[..i + 1] == items[..i + 1];
    } else {
      assert items[..i + 1] == items;
    }
  }

  lemma {:induction false} FieldsBefore(fields: seq<Entry<Json>>, i: nat)
    requires i < |fields|
    ensures FieldNodes(fields[..i + 1]) == FieldNodes(fields[..i]) + Nodes(fields[i].value)
    ensures FieldNodes(fields[..i + 1]) <= FieldNodes(fields)
    decreases |fields|
  {
    assert fields[..i + 1][..i] == fields[..i];
    if i + 1 < |fields| {
      var front := fields[..|fields| - 1];
      FieldsBefore(front, i);
      assert front[..i + 1] == fields[..i + 1];
    } else {
      assert fields[..i + 1] == fields;
    }
  }

  // ------------------------------------------------------------ the decoder

  class Budget {
    var remaining: int

    constructor (remaining: int)
      ensures this.remaining == remaining
    {
      this.remaining := remaining;
    }

    // jsonValue; None where it throws.  A value is accepted, and returned as it
    // is, exactly when it has no more nodes than are left and every node keeps
    // its depth and limits; the budget is then lowered by its nodes.
    method JsonValue(value: Json, depth: nat) returns (decoded: Option<Json>)
      modifies this
      ensures decoded == if Nodes(value) <= old(remaining) && Within(value, depth) then Some(value) else None
      ensures decoded.Some? ==> remaining == old(remaining) - Nodes(value)
      decreases value, 1
    {
      remaining := remaining - 1;
      if remaining < 0 || depth > MAXIMUM_DEPTH { return None; }
      match value {
        case Str(s) =>
          if !IsTextWithin(s, 0, MAXIMUM_STRING) { return None; }
          return Some(value);
        case Arr(items) =>
          if |items| > MAXIMUM_ITEMS { return None; }
          var copies := Items(items, depth + 1);
          return if copies.Some? then Some(Arr(copies.value)) else None;
        case Obj(fields) =>
          if |fields| > MAXIMUM_ITEMS { return None; }
          var copies := Fields(fields, depth + 1);
          return if copies.Some? then Some(Obj(copies.value)) else None;
        case _ => return Some(value);
      }
    }

    method Items(items: seq<Json>, depth: nat) returns (copies: Option<seq<Json>>)
      requires remaining >= 0
      modifies this
      ensures copies ==
        if ItemNodes(items) <= old(remaining) && forall i :: 0 <= i < |items| ==> Within(items[i], depth) then Some(items) else None
      ensures copies.Some? ==> remaining == old(remaining) - ItemNodes(items)
      decreases items, 0
    {
      var decoded, i := [], 0;
      while i < |items|
        invariant 0 <= i <= |items| && decoded == items[..i]
        invariant remaining == old(remaining) - ItemNodes(items[..i]) && remaining >= 0
        invariant forall j :: 0 <= j < i ==> Within(items[j], depth)
      {
        ItemsBefore(items, i);
        var item := JsonValue(items[i], depth);
        if item.None? { return None; }
        decoded, i := decoded + [item.value], i + 1;
      }
      assert items[..i] == items;
      return Some(decoded);
    }

    method Fields(fields: seq<Entry<Json>>, depth: nat) returns (copies: Option<seq<Entry<Json>>>)
      requires remaining >= 0
      modifies this
      ensures copies == if FieldNodes(fields) <= old(remaining) && FieldsWithin(fields, depth) then Some(fields) else None
      ensures copies.Some? ==> remaining == old(remaining) - FieldNodes(fields)
      decreases fields, 0
    {
      var decoded, i := [], 0;
      while i < |fields|
        invariant 0 <= i <= |fields| && decoded == fields[..i]
        invariant remaining == old(remaining) - FieldNodes(fields[..i]) && remaining >= 0
        invariant FieldsWithin(fields[..i], depth)
      {
        FieldsBefore(fields, i);
        if !IsTextWithin(fields[i].key, 1, MAXIMUM_KEY) { return None; }
        var item := JsonValue(fields[i].value, depth);
        if item.None? { return None; }
        decoded, i := decoded + [Entry(fields[i].key, item.value)], i + 1;
      }
      assert fields[..i] == fields;
      return Some(decoded);
    }
  }

  ghost predicate FieldsWithin(fields: seq<Entry<Json>>, depth: int) {
    forall i :: 0 <= i < |fields| ==> IsTextWithin(fields[i].key, 1, MAXIMUM_KEY) && Within(fields[i].value, depth)
  }

  // jsonObject: at most 4096 nodes, at most sixteen levels below the top.
  method JsonObject(value: Json) returns (decoded: Option<Json>)
    ensures decoded == if Nodes(value) <= INITIAL_BUDGET && Within(value, 0) then Some(value) else None
  {
    var budget := new Budget(INITIAL_BUDGET);
    decoded := budget.JsonValue(value, 0);
  }
}
