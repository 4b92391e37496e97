// Unique decodability: a serialized JSON value determines the value, whatever
// text follows it, so stringify and canonicalize lose nothing.
module JsonEncoding {
  import opened Texts
  import opened Json

  // ---------------------------------------------------------------- strings

  lemma StepUnique(a: Text, b: Text, x: Text, y: Text)
    requires |a| > 0 && |b| > 0
    requires StepText(a) + x == StepText(b) + y
    ensures a[..Step(a)] == b[..Step(b)] && x == y
  {
    var p, q := StepText(a), StepText(b);
    assert (p + x)[0] == p[0] && (q + y)[0] == q[0];
    if |p| > 1 { assert (p + x)[1] == p[1]; }
    if |q| > 1 { assert (q + y)[1] == q[1]; }
    if |p| == 6 && |q| == 6 {
      forall i | 0 <= i < 6 ensures p[i] == q[i] { assert (p + x)[i] == (q + y)[i]; }
      HexUnique(a[0], b[0]);
    }
    assert |p| == |q|;
    assert x == (p + x)[|p|..] == (q + y)[|q|..] == y;
  }

  lemma HexUnique(a: CodeUnit, b: CodeUnit)
    requires UnicodeEscape(a) == UnicodeEscape(b)
    ensures a == b
  {
    HexDigitUnique(a / 4096, b / 4096);
    HexDigitUnique(a / 256 % 16, b / 256 % 16);
    HexDigitUnique(a / 16 % 16, b / 16 % 16);
    HexDigitUnique(a % 16, b % 16);
    var p, q := UnicodeEscape(a), UnicodeEscape(b);
    assert p[2] == q[2] && p[3] == q[3] && p[4] == q[4] && p[5] == q[5];
    HexValue(a);
    HexValue(b);
  }

  lemma HexValue(c: CodeUnit)
    ensures c == c / 4096 * 4096 + c / 256 % 16 * 256 + c / 16 % 16 * 16 + c % 16
  {
    assert c / 4096 == c / 256 / 16 && c / 256 == c / 16 / 16;
  }

  lemma HexDigitUnique(m: int, n: int)
    requires 0 <= m < 16 && 0 <= n < 16
    ensures HexDigit(m) == HexDigit(n) ==> m == n
  {
  }

  lemma EscapeSplit(a: Text, x: Text)
    requires a != []
    ensures Escape(a) + [QUOTE] + x == StepText(a) + (Escape(a[Step(a)..]) + [QUOTE] + x)
    ensures (Escape(a) + [QUOTE] + x)[0] != QUOTE
  {
    StepTextHead(a);
    QuotedSplit(StepText(a), Escape(a[Step(a)..]), x);
  }

  lemma StepTextHead(a: Text)
    requires a != []
    ensures |StepText(a)| > 0 && StepText(a)[0] != QUOTE
  {
  }

  lemma QuotedSplit(p: Text, q: Text, x: Text)
    ensures p + q + [QUOTE] + x == p + (q + [QUOTE] + x)
  {
  }

  lemma {:induction false} EscapeUnique(a: Text, b: Text, x: Text, y: Text)
    requires Escape(a) + [QUOTE] + x == Escape(b) + [QUOTE] + y
    ensures a == b && x == y
    decreases |a|
  {
    var s, t := Escape(a) + [QUOTE] + x, Escape(b) + [QUOTE] + y;
    if a != [] { EscapeSplit(a, x); }
    if b != [] { EscapeSplit(b, y); }
    if a == [] {
      assert x == s[1..] && y == t[1..];
    } else {
      var u, v := Escape(a[Step(a)..]) + [QUOTE] + x, Escape(b[Step(b)..]) + [QUOTE] + y;
      StepUnique(a, b, u, v);
      EscapeUnique(a[Step(a)..], b[Step(b)..], x, y);
      assert a == a[..Step(a)] + a[Step(a)..] && b == b[..Step(b)] + b[Step(b)..];
    }
  }

  lemma QuoteUnique(a: Text, b: Text, x: Text, y: Text)
    requires Quote(a) + x == Quote(b) + y
    ensures a == b && x == y
  {
    var s, t := Quote(a) + x, Quote(b) + y;
    assert s[1..] == Escape(a) + [QUOTE] + x && t[1..] == Escape(b) + [QUOTE] + y;
    EscapeUnique(a, b, x, y);
  }

  // ---------------------------------------------------------------- numbers

  predicate IsDigit(c: CodeUnit) { 48 <= c <= 57 }

  lemma {:induction false} DigitsUnique(m: nat, n: nat)
    requires Digits(m) == Digits(n)
    ensures m == n
  {
    DigitsAreDigits(m);
    DigitsAreDigits(n);
    if m >= 10 { DigitsAreDigits(m / 10); }
    if n >= 10 { DigitsAreDigits(n / 10); }
    if m >= 10 && n >= 10 {
      var p, q := Digits(m), Digits(n);
      assert Digits(m / 10) == p[..|p| - 1] && Digits(n / 10) == q[..|q| - 1];
      assert p[|p| - 1] == 48 + m % 10 && q[|q| - 1] == 48 + n % 10;
      DigitsUnique(m / 10, n / 10);
    }
  }

  // What may follow a value: the end of the text or a closing delimiter.
  predicate Follows(x: Text) {
    x == [] || x[0] == COMMA || x[0] == CLOSE_BRACKET || x[0] == CLOSE_BRACE
  }

  // A number ends no later than the value it belongs to.
  lemma NumberAtMost(p: Text, x: Text, q: Text, y: Text)
    requires p + x == q + y && Follows(x) && NumberSyntax(q)
    ensures |q| <= |p|
  {
    assert forall i :: 0 <= i < |q| ==> (p + x)[i] == q[i] && q[i] in q;
    assert forall i :: 0 <= i < |q| ==> NumberCharacter((p + x)[i]);
    assert |x| > 0 ==> (p + x)[|p|] == x[0];
    assert |p + x| == |p| + |x| == |q| + |y|;
  }

  lemma NumberTextUnique(p: Text, x: Text, q: Text, y: Text)
    requires p + x == q + y && Follows(x) && Follows(y) && NumberSyntax(p) && NumberSyntax(q)
    ensures p == q && x == y
  {
    NumberAtMost(p, x, q, y);
    NumberAtMost(q, y, p, x);
    assert p == (p + x)[..|p|] == q && x == (p + x)[|p|..] == y;
  }

  lemma DecimalSyntax(n: int)
    ensures NumberSyntax(Decimal(n))
  {
    DigitsAreDigits(if n < 0 then -n else n);
  }

  lemma DecimalInjective(m: int, n: int)
    requires Decimal(m) == Decimal(n)
    ensures m == n
  {
    DigitsAreDigits(if m < 0 then -m else m);
    DigitsAreDigits(if n < 0 then -n else n);
    var p, q := Decimal(m), Decimal(n);
    if m < 0 {
      assert p[1..] == Digits(-m) && q[0] == MINUS && q[1..] == Digits(-n);
      DigitsUnique(-m, -n);
    } else {
      assert p[0] != MINUS;
      DigitsUnique(m, n);
    }
  }

  predicate IsNumber(v: Json) { v.Num? || v.Real? }

  lemma NumbersUnique(a: Json, b: Json, x: Text, y: Text)
    requires IsNumber(a) && IsNumber(b) && Unambiguous(a) && Unambiguous(b) && Follows(x) && Follows(y)
    requires Stringify(a) + x == Stringify(b) + y
    ensures a == b && x == y
  {
    if a.Num? { DecimalSyntax(a.n); }
    if b.Num? { DecimalSyntax(b.n); }
    NumberTextUnique(Stringify(a), x, Stringify(b), y);
    if a.Num? && b.Num? { DecimalInjective(a.n, b.n); }
  }

  // ----------------------------------------------------------------- values

  // The first code unit of a value tells its kind.
  predicate Heads(c: CodeUnit, v: Json) {
    match v
    case Null => c == 110
    case Bool(b) => c == if b then 116 else 102
    case Num(_) => IsDigit(c) || c == MINUS
    case Real(_) => IsDigit(c) || c == MINUS
    case Str(_) => c == QUOTE
    case Arr(_) => c == OPEN_BRACKET
    case Obj(_) => c == OPEN_BRACE
  }

  lemma StringifyHead(v: Json)
    requires Unambiguous(v)
    ensures |Stringify(v)| > 0 && Heads(Stringify(v)[0], v)
  {
    if v.Num? { DigitsAreDigits(if v.n < 0 then -v.n else v.n); }
  }

  lemma SameHeadSameKind(a: Json, b: Json, x: Text, y: Text)
    requires Unambiguous(a) && Unambiguous(b)
    requires Stringify(a) + x == Stringify(b) + y
    ensures a.Null? == b.Null? && a.Bool? == b.Bool? && IsNumber(a) == IsNumber(b)
    ensures a.Str? == b.Str? && a.Arr? == b.Arr? && a.Obj? == b.Obj?
    ensures a.Bool? ==> a.b == b.b
  {
    StringifyHead(a);
    StringifyHead(b);
    var p, q := Stringify(a), Stringify(b);
    assert (p + x)[0] == p[0] && (q + y)[0] == q[0];
    hide Stringify, Unambiguous;
  }

  // What follows the first code unit of an array or object.
  lemma ContainerTail(open: CodeUnit, body: Text, close: CodeUnit, x: Text)
    ensures ([open] + body + [close] + x)[1..] == body + [close] + x
  {
  }

  lemma {:induction false} StringifyUnique(a: Json, b: Json, x: Text, y: Text)
    requires Unambiguous(a) && Unambiguous(b) && Follows(x) && Follows(y)
    requires Stringify(a) + x == Stringify(b) + y
    ensures a == b && x == y
    decreases a, 1
  {
    SameHeadSameKind(a, b, x, y);
    if IsNumber(a) {
      NumbersUnique(a, b, x, y);
    } else if a.Str? {
      QuoteUnique(a.s, b.s, x, y);
    } else if a.Arr? {
      ContainerTail(OPEN_BRACKET, Join(StringifyItems(a.items)), CLOSE_BRACKET, x);
      ContainerTail(OPEN_BRACKET, Join(StringifyItems(b.items)), CLOSE_BRACKET, y);
      ItemsUnique(a.items, b.items, x, y);
    } else if a.Obj? {
      ContainerTail(OPEN_BRACE, Join(MemberTexts(StringifyFields(a.fields))), CLOSE_BRACE, x);
      ContainerTail(OPEN_BRACE, Join(MemberTexts(StringifyFields(b.fields))), CLOSE_BRACE, y);
      FieldsUnique(a.fields, b.fields, x, y);
    } else {
      var p := Stringify(a);
      assert a == b && x == (p + x)[|p|..] == (p + y)[|p|..] == y;
    }
  }

  function ItemsText(items: seq<Json>): Text { Join(StringifyItems(items)) + [CLOSE_BRACKET] }

  function MoreItemsText(items: seq<Json>): Text { JoinMore(StringifyItems(items)) + [CLOSE_BRACKET] }

  lemma ItemsTextSplit(items: seq<Json>, x: Text)
    requires items != [] && Unambiguous(items[0])
    ensures ItemsText(items) + x == Stringify(items[0]) + (MoreItemsText(items[1..]) + x)
    ensures (ItemsText(items) + x)[0] != CLOSE_BRACKET
    ensures (MoreItemsText(items) + x)[0] == COMMA
    ensures (MoreItemsText(items) + x)[1..] == Stringify(items[0]) + (MoreItemsText(items[1..]) + x)
    ensures Follows(MoreItemsText(items[1..]) + x)
  {
    StringifyHead(items[0]);
    var head, more := Stringify(items[0]), JoinMore(StringifyItems(items[1..]));
    assert StringifyItems(items) == [head] + StringifyItems(items[1..]);
    assert head + more + [CLOSE_BRACKET] + x == head + (more + [CLOSE_BRACKET] + x);
    assert [COMMA] + head + more + [CLOSE_BRACKET] + x == [COMMA] + (head + (more + [CLOSE_BRACKET] + x));
  }

  ghost predicate AllUnambiguous(items: seq<Json>) {
    forall i :: 0 <= i < |items| ==> Unambiguous(items[i])
  }

  lemma {:induction false} ItemsUnique(xs: seq<Json>, ys: seq<Json>, x: Text, y: Text)
    requires AllUnambiguous(xs) && AllUnambiguous(ys)
    requires ItemsText(xs) + x == ItemsText(ys) + y
    ensures xs == ys && x == y
    decreases xs, 0
  {
    if xs != [] { ItemsTextSplit(xs, x); }
    if ys != [] { ItemsTextSplit(ys, y); }
    if xs == [] {
      assert x == (ItemsText(xs) + x)[1..] && y == (ItemsText(ys) + y)[1..];
    } else {
      StringifyUnique(xs[0], ys[0], MoreItemsText(xs[1..]) + x, MoreItemsText(ys[1..]) + y);
      MoreItemsUnique(xs[1..], ys[1..], x, y);
      assert xs == [xs[0]] + xs[1..] && ys == [ys[0]] + ys[1..];
    }
  }

  lemma {:induction false} MoreItemsUnique(xs: seq<Json>, ys: seq<Json>, x: Text, y: Text)
    requires AllUnambiguous(xs) && AllUnambiguous(ys)
    requires MoreItemsText(xs) + x == MoreItemsText(ys) + y
    ensures xs == ys && x == y
    decreases xs, 0
  {
    if xs != [] { ItemsTextSplit(xs, x); }
    if ys != [] { ItemsTextSplit(ys, y); }
    if xs == [] {
      assert x == (MoreItemsText(xs) + x)[1..] && y == (MoreItemsText(ys) + y)[1..];
    } else {
      StringifyUnique(xs[0], ys[0], MoreItemsText(xs[1..]) + x, MoreItemsText(ys[1..]) + y);
      MoreItemsUnique(xs[1..], ys[1..], x, y);
      assert xs == [xs[0]] + xs[1..] && ys == [ys[0]] + ys[1..];
    }
  }

  function FieldsText(fields: seq<Entry<Json>>): Text {
    Join(MemberTexts(StringifyFields(fields))) + [CLOSE_BRACE]
  }

  function MoreFieldsText(fields: seq<Entry<Json>>): Text {
    JoinMore(MemberTexts(StringifyFields(fields))) + [CLOSE_BRACE]
  }

  function FieldTail(fields: seq<Entry<Json>>, x: Text): Text
    requires fields != []
  {
    [COLON] + (Stringify(fields[0].value) + (MoreFieldsText(fields[1..]) + x))
  }

  lemma FieldsTextSplit(fields: seq<Entry<Json>>, x: Text)
    requires fields != []
    ensures FieldsText(fields) + x == Quote(fields[0].key) + FieldTail(fields, x)
    ensures (FieldsText(fields) + x)[0] == QUOTE
    ensures (MoreFieldsText(fields) + x)[0] == COMMA
    ensures (MoreFieldsText(fields) + x)[1..] == Quote(fields[0].key) + FieldTail(fields, x)
    ensures Follows(MoreFieldsText(fields[1..]) + x)
  {
    var key, value := Quote(fields[0].key), Stringify(fields[0].value);
    var more := JoinMore(MemberTexts(StringifyFields(fields[1..])));
    var members := MemberTexts(StringifyFields(fields));
    assert StringifyFields(fields)[1..] == StringifyFields(fields[1..]);
    assert members[0] == key + [COLON] + value && members[1..] == MemberTexts(StringifyFields(fields[1..]));
    assert FieldsText(fields) == members[0] + more + [CLOSE_BRACE];
    assert MoreFieldsText(fields) == [COMMA] + members[0] + more + [CLOSE_BRACE];
    Regroup(key, [COLON], value, more, [CLOSE_BRACE], x);
  }

  lemma Regroup(a: Text, b: Text, c: Text, d: Text, e: Text, x: Text)
    requires |a| > 0
    ensures a + b + c + d + e + x == a + (b + (c + (d + e + x)))
    ensures (a + b + c + d + e + x)[0] == a[0]
    ensures ([COMMA] + (a + b + c) + d + e + x)[1..] == a + (b + (c + (d + e + x)))
    ensures ([COMMA] + (a + b + c) + d + e + x)[0] == COMMA
  {
  }

  ghost predicate FieldsUnambiguous(fields: seq<Entry<Json>>) {
    forall i :: 0 <= i < |fields| ==> Unambiguous(fields[i].value)
  }

  lemma {:induction false} FieldsUnique(fs: seq<Entry<Json>>, gs: seq<Entry<Json>>, x: Text, y: Text)
    requires FieldsUnambiguous(fs) && FieldsUnambiguous(gs)
    requires FieldsText(fs) + x == FieldsText(gs) + y
    ensures fs == gs && x == y
    decreases fs, 1
  {
    if fs != [] { FieldsTextSplit(fs, x); }
    if gs != [] { FieldsTextSplit(gs, y); }
    if fs == [] {
      assert x == (FieldsText(fs) + x)[1..] && y == (FieldsText(gs) + y)[1..];
    } else {
      FirstFieldUnique(fs, gs, x, y);
    }
  }

  lemma {:induction false} MoreFieldsUnique(fs: seq<Entry<Json>>, gs: seq<Entry<Json>>, x: Text, y: Text)
    requires FieldsUnambiguous(fs) && FieldsUnambiguous(gs)
    requires MoreFieldsText(fs) + x == MoreFieldsText(gs) + y
    ensures fs == gs && x == y
    decreases fs, 1
  {
    if fs != [] { FieldsTextSplit(fs, x); }
    if gs != [] { FieldsTextSplit(gs, y); }
    if fs == [] {
      assert x == (MoreFieldsText(fs) + x)[1..] && y == (MoreFieldsText(gs) + y)[1..];
    } else {
      FirstFieldUnique(fs, gs, x, y);
    }
  }

  lemma {:induction false} FirstFieldUnique(fs: seq<Entry<Json>>, gs: seq<Entry<Json>>, x: Text, y: Text)
    requires fs != [] && gs != [] && FieldsUnambiguous(fs) && FieldsUnambiguous(gs)
    requires Quote(fs[0].key) + FieldTail(fs, x) == Quote(gs[0].key) + FieldTail(gs, y)
    requires Follows(MoreFieldsText(fs[1..]) + x) && Follows(MoreFieldsText(gs[1..]) + y)
    ensures fs == gs && x == y
    decreases fs, 0
  {
    QuoteUnique(fs[0].key, gs[0].key, FieldTail(fs, x), FieldTail(gs, y));
    var u, v := MoreFieldsText(fs[1..]) + x, MoreFieldsText(gs[1..]) + y;
    assert FieldTail(fs, x)[1..] == Stringify(fs[0].value) + u;
    assert FieldTail(gs, y)[1..] == Stringify(gs[0].value) + v;
    StringifyUnique(fs[0].value, gs[0].value, u, v);
    MoreFieldsUnique(fs[1..], gs[1..], x, y);
    assert fs == [fs[0]] + fs[1..] && gs == [gs[0]] + gs[1..];
  }

  // JSON.stringify is injective.
  lemma StringifyInjective(a: Json, b: Json)
    requires Unambiguous(a) && Unambiguous(b) && Stringify(a) == Stringify(b)
    ensures a == b
  {
    assert Stringify(a) + [] == Stringify(a) && Stringify(b) + [] == Stringify(b);
    StringifyUnique(a, b, [], []);
  }
}
