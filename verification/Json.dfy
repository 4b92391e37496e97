// JSON values, JSON.stringify, and the key-sorting canonicalize of
// apps/web/lib/brand-profile-pending-command.ts.
module Json {
  import opened Texts

  datatype Entry<+T> = Entry(key: Text, value: T)

  // Object fields are kept in enumeration order.  Num is a number that
  // JavaScript writes as a plain integer, Real any other finite number, held as
  // JavaScript writes it.
  datatype Json =
    | Null
    | Bool(b: bool)
    | Num(n: int)
    | Real(text: Text)
    | Str(s: Text)
    | Arr(items: seq<Json>)
    | Obj(fields: seq<Entry<Json>>)

  const QUOTE: CodeUnit := 34
  const COMMA: CodeUnit := 44
  const MINUS: CodeUnit := 45
  const COLON: CodeUnit := 58
  const OPEN_BRACKET: CodeUnit := 91
  const BACKSLASH: CodeUnit := 92
  const CLOSE_BRACKET: CodeUnit := 93
  const OPEN_BRACE: CodeUnit := 123
  const CLOSE_BRACE: CodeUnit := 125

  ghost predicate DistinctKeys<T>(fields: seq<Entry<T>>) {
    forall i, j :: 0 <= i < j < |fields| ==> fields[i].key != fields[j].key
  }

  // ---------------------------------------------------------------- strings

  predicate HighSurrogate(c: CodeUnit) { 0xD800 <= c < 0xDC00 }
  predicate LowSurrogate(c: CodeUnit) { 0xDC00 <= c < 0xE000 }

  // How many code units of a non-empty text one escape step consumes.
  function Step(s: Text): nat
    requires |s| > 0
  {
    if HighSurrogate(s[0]) && |s| > 1 && LowSurrogate(s[1]) then 2 else 1
  }

  function HexDigit(n: int): CodeUnit
    requires 0 <= n < 16
  {
    if n < 10 then 48 + n else 87 + n
  }

  function UnicodeEscape(c: CodeUnit): Text {
    [BACKSLASH, 117, HexDigit(c / 4096), HexDigit(c / 256 % 16), HexDigit(c / 16 % 16), HexDigit(c % 16)]
  }

  // The output of one escape step: a surrogate pair is copied, a lone
  // surrogate and the control characters are escaped.
  function StepText(s: Text): Text
    requires |s| > 0
  {
    if Step(s) == 2 then s[..2]
    else if s[0] == QUOTE || s[0] == BACKSLASH then [BACKSLASH, s[0]]
    else if s[0] == 8 then [BACKSLASH, 98]
    else if s[0] == 9 then [BACKSLASH, 116]
    else if s[0] == 10 then [BACKSLASH, 110]
    else if s[0] == 12 then [BACKSLASH, 102]
    else if s[0] == 13 then [BACKSLASH, 114]
    else if s[0] < 32 || HighSurrogate(s[0]) || LowSurrogate(s[0]) then UnicodeEscape(s[0])
    else [s[0]]
  }

  function Escape(s: Text): Text {
    if s == [] then [] else StepText(s) + Escape(s[Step(s)..])
  }

  function Quote(s: Text): Text {
    [QUOTE] + Escape(s) + [QUOTE]
  }

  // ---------------------------------------------------------------- numbers

  function Digits(n: nat): Text {
    if n < 10 then [48 + n] else Digits(n / 10) + [48 + n % 10]
  }

  function Decimal(n: int): Text {
    if n < 0 then [MINUS] + Digits(-n) else Digits(n)
  }

  // A finite double: significand times two to the exponent, normalized.
  datatype Double = Double(significand: int, exponent: int)

  const TWO_52 := 4503599627370496
  const MAXIMUM_SAFE_INTEGER := 9007199254740991

  ghost predicate IsDouble(x: Double) {
    || (TWO_52 <= x.significand < 2 * TWO_52 && -1074 <= x.exponent <= 971)
    || (0 <= x.significand < TWO_52 && x.exponent == -1074)
  }

  ghost function Scale(base: int, exponent: int): real
    requires base > 0
    decreases if exponent < 0 then -exponent else exponent
  {
    if exponent == 0 then 1.0
    else if exponent > 0 then base as real * Scale(base, exponent - 1)
    else Scale(base, exponent + 1) / (base as real)
  }

  ghost function Magnitude(x: Double): real { x.significand as real * Scale(2, x.exponent) }

  function Distance(a: real, b: real): real { if a < b then b - a else a - b }

  // The double nearest to a number, the even one of two; from halfway beyond the
  // largest double on a number is infinite.
  ghost predicate RoundsTo(r: real, x: Double) {
    IsDouble(x) && r < (4 * TWO_52 - 1) as real * Scale(2, 970) &&
    forall y :: IsDouble(y) && y != x ==>
      || Distance(r, Magnitude(x)) < Distance(r, Magnitude(y))
      || (Distance(r, Magnitude(x)) == Distance(r, Magnitude(y)) && x.significand % 2 == 0)
  }

  // s with k digits, standing for s times ten to the n - k.
  datatype Decimals = Decimals(s: nat, k: nat, n: int)

  ghost predicate Shows(d: Decimals, x: Double) {
    d.k >= 1 && |Digits(d.s)| == d.k && d.s > 0 && RoundsTo(d.s as real * Scale(10, d.n - d.k), x)
  }

  // Number::toString (section 6.1.6.1.20 of ECMA-262): as few digits as name
  // the double, of those the nearest.
  ghost predicate Shortest(d: Decimals, x: Double) {
    Shows(d, x) &&
    forall e :: Shows(e, x) ==>
      && d.k <= e.k
      && (e.k == d.k && e.n == d.n ==>
            Distance(d.s as real * Scale(10, d.n - d.k), Magnitude(x)) <= Distance(e.s as real * Scale(10, d.n - d.k), Magnitude(x)))
  }

  function Zeros(n: nat): Text { seq(n, i => 48) }

  function ExponentText(n: int): Text {
    [101, if n > 0 then 43 else MINUS] + Digits(if n > 0 then n - 1 else 1 - n)
  }

  function ShownText(d: Decimals): Text
    requires d.k >= 1 && |Digits(d.s)| == d.k
  {
    var digits := Digits(d.s);
    if d.k <= d.n <= 21 then digits + Zeros(d.n - d.k)
    else if 0 < d.n <= 21 then digits[..d.n] + [46] + digits[d.n..]
    else if -6 < d.n <= 0 then [48, 46] + Zeros(-d.n) + digits
    else if d.k == 1 then digits + ExponentText(d.n)
    else digits[..1] + [46] + digits[1..] + ExponentText(d.n)
  }

  // The texts JavaScript writes for finite numbers other than zero.
  ghost predicate Printed(t: Text) {
    exists x, d :: Shortest(d, x) && (t == ShownText(d) || t == [MINUS] + ShownText(d))
  }

  predicate NumberCharacter(c: CodeUnit) { 48 <= c <= 57 || c in {43, MINUS, 46, 101} }

  predicate NumberSyntax(t: Text) {
    t != [] && (48 <= t[0] <= 57 || t[0] == MINUS) && forall c <- t :: NumberCharacter(c)
  }

  ghost predicate PlainInteger(t: Text) { exists n: int :: Decimal(n) == t }

  lemma {:induction false} DigitsAreDigits(n: nat)
    ensures |Digits(n)| > 0 && forall i :: 0 <= i < |Digits(n)| ==> 48 <= Digits(n)[i] <= 57
  {
    if n >= 10 { DigitsAreDigits(n / 10); }
  }

  lemma PrintedSyntax(t: Text)
    requires Printed(t)
    ensures NumberSyntax(t)
  {
    var x, d :| Shortest(d, x) && (t == ShownText(d) || t == [MINUS] + ShownText(d));
    ShownCharacters(d);
  }

  lemma ExponentCharacters(n: int)
    ensures forall i :: 0 <= i < |ExponentText(n)| ==> NumberCharacter(ExponentText(n)[i])
  {
    DigitsAreDigits(if n > 0 then n - 1 else 1 - n);
    hide Digits;
  }

  lemma ShownCharacters(d: Decimals)
    requires d.k >= 1 && |Digits(d.s)| == d.k
    ensures NumberSyntax(ShownText(d)) && 48 <= ShownText(d)[0] <= 57
  {
    DigitsAreDigits(d.s);
    ExponentCharacters(d.n);
    hide Digits, ExponentText;
    var digits, t := Digits(d.s), ShownText(d);
    forall i | 0 <= i < |t| ensures NumberCharacter(t[i]) {}
  }

  // --------------------------------------------------------- well-formed values

  // An array index as an object key.
  predicate IndexKey(key: Text) {
    && 1 <= |key| <= 10 && (forall c <- key :: 48 <= c <= 57) && (key[0] == 48 ==> |key| == 1)
    && ParseDecimal(key) < 4294967295
  }

  // Object keys enumerate with array indices first, in ascending order.
  predicate EnumerationOrder<T>(fields: seq<Entry<T>>) {
    forall i, j :: 0 <= i < j < |fields| && IndexKey(fields[j].key) ==>
      IndexKey(fields[i].key) && ParseDecimal(fields[i].key) < ParseDecimal(fields[j].key)
  }

  // A value JSON.parse can yield.
  ghost predicate WellFormed(v: Json) {
    match v
    case Num(n) => -MAXIMUM_SAFE_INTEGER <= n <= MAXIMUM_SAFE_INTEGER || Printed(Decimal(n))
    case Real(t) => Printed(t) && !PlainInteger(t)
    case Arr(items) => forall i :: 0 <= i < |items| ==> WellFormed(items[i])
    case Obj(fields) =>
      && DistinctKeys(fields) && EnumerationOrder(fields)
      && forall i :: 0 <= i < |fields| ==> WellFormed(fields[i].value)
    case _ => true
  }

  // Fields named like no index may come in any order.
  lemma NamesWellFormed(fields: seq<Entry<Json>>)
    requires DistinctKeys(fields) && forall i :: 0 <= i < |fields| ==> !IndexKey(fields[i].key) && WellFormed(fields[i].value)
    ensures WellFormed(Obj(fields))
  {
  }

  // A value whose serialization can be read in one way only: no key twice, at
  // any depth, and numbers written as numbers.
  ghost predicate Unambiguous(v: Json) {
    match v
    case Real(t) => NumberSyntax(t) && !PlainInteger(t)
    case Arr(items) => forall i :: 0 <= i < |items| ==> Unambiguous(items[i])
    case Obj(fields) => DistinctKeys(fields) && forall i :: 0 <= i < |fields| ==> Unambiguous(fields[i].value)
    case _ => true
  }

  lemma {:induction false} WellFormedIsUnambiguous(v: Json)
    requires WellFormed(v)
    ensures Unambiguous(v)
  {
    match v {
      case Real(t) => PrintedSyntax(t);
      case Arr(items) => forall i | 0 <= i < |items| ensures Unambiguous(items[i]) { WellFormedIsUnambiguous(items[i]); }
      case Obj(fields) =>
        forall i | 0 <= i < |fields| ensures Unambiguous(fields[i].value) { WellFormedIsUnambiguous(fields[i].value); }
      case _ =>
    }
  }

  // ----------------------------------------------------------- serialization

  function Join(parts: seq<Text>): Text {
    if parts == [] then [] else parts[0] + JoinMore(parts[1..])
  }

  function JoinMore(parts: seq<Text>): Text {
    if parts == [] then [] else [COMMA] + parts[0] + JoinMore(parts[1..])
  }

  function MemberText(member: Entry<Text>): Text {
    Quote(member.key) + [COLON] + member.value
  }

  function MemberTexts(members: seq<Entry<Text>>): seq<Text> {
    if members == [] then [] else [MemberText(members[0])] + MemberTexts(members[1..])
  }

  // JSON.stringify: fields in enumeration order.
  function Stringify(v: Json): Text
    decreases v, 1
  {
    match v
    case Null => [110, 117, 108, 108]
    case Bool(b) => if b then [116, 114, 117, 101] else [102, 97, 108, 115, 101]
    case Num(n) => Decimal(n)
    case Real(t) => t
    case Str(s) => Quote(s)
    case Arr(items) => [OPEN_BRACKET] + Join(StringifyItems(items)) + [CLOSE_BRACKET]
    case Obj(fields) => [OPEN_BRACE] + Join(MemberTexts(StringifyFields(fields))) + [CLOSE_BRACE]
  }

  function StringifyItems(items: seq<Json>): (texts: seq<Text>)
    decreases items, 0
  {
    if items == [] then [] else [Stringify(items[0])] + StringifyItems(items[1..])
  }

  function StringifyFields(fields: seq<Entry<Json>>): (members: seq<Entry<Text>>)
    decreases fields, 0
  {
    if fields == [] then []
    else [Entry(fields[0].key, Stringify(fields[0].value))] + StringifyFields(fields[1..])
  }

  function Insert<T>(entry: Entry<T>, sorted: seq<Entry<T>>): seq<Entry<T>> {
    if sorted == [] || Less(entry.key, sorted[0].key) then [entry] + sorted
    else [sorted[0]] + Insert(entry, sorted[1..])
  }

  // Object.keys(value).sort(), carrying each field's value along.
  function SortByKey<T>(fields: seq<Entry<T>>): seq<Entry<T>> {
    if fields == [] then [] else Insert(fields[0], SortByKey(fields[1..]))
  }

  // canonicalize: like JSON.stringify, but with the fields of every object
  // sorted by key.
  function Canonicalize(v: Json): Text
    decreases v, 1
  {
    match v
    case Null => Stringify(v)
    case Bool(_) => Stringify(v)
    case Num(_) => Stringify(v)
    case Real(_) => Stringify(v)
    case Str(_) => Stringify(v)
    case Arr(items) => [OPEN_BRACKET] + Join(CanonicalizeItems(items)) + [CLOSE_BRACKET]
    case Obj(fields) =>
      [OPEN_BRACE] + Join(MemberTexts(SortByKey(CanonicalizeFields(fields)))) + [CLOSE_BRACE]
  }

  function CanonicalizeItems(items: seq<Json>): seq<Text>
    decreases items, 0
  {
    if items == [] then [] else [Canonicalize(items[0])] + CanonicalizeItems(items[1..])
  }

  function CanonicalizeFields(fields: seq<Entry<Json>>): seq<Entry<Text>>
    decreases fields, 0
  {
    if fields == [] then []
    else [Entry(fields[0].key, Canonicalize(fields[0].value))] + CanonicalizeFields(fields[1..])
  }

  // The same JSON value up to the order of object fields, at every depth.
  ghost predicate Same(a: Json, b: Json)
    decreases a
  {
    match (a, b)
    case (Arr(xs), Arr(ys)) => |xs| == |ys| && forall i :: 0 <= i < |xs| ==> Same(xs[i], ys[i])
    case (Obj(fs), Obj(gs)) =>
      && (forall i :: 0 <= i < |fs| ==> MatchedIn(fs[i], gs))
      && (forall j :: 0 <= j < |gs| ==> MatchedBy(fs, gs[j]))
    case _ => a == b
  }

  ghost predicate MatchedIn(f: Entry<Json>, gs: seq<Entry<Json>>)
    decreases f
  {
    exists j :: 0 <= j < |gs| && gs[j].key == f.key && Same(f.value, gs[j].value)
  }

  ghost predicate MatchedBy(fs: seq<Entry<Json>>, g: Entry<Json>)
    decreases fs
  {
    exists i :: 0 <= i < |fs| && fs[i].key == g.key && Same(fs[i].value, g.value)
  }
}
