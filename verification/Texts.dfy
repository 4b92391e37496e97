// JavaScript strings and the few text operations the modelled code uses.
module Texts {

  // One UTF-16 code unit.  A JavaScript string is a sequence of these, so
  // lengths, slices and comparisons below count code units as the source does.
  type CodeUnit = c: int | 0 <= c < 0x10000

  type Text = seq<CodeUnit>

  datatype Option<+T> = None | Some(value: T)

  // A literal written in ASCII.
  function Ascii(s: string): (t: Text)
    ensures |t| == |s|
  {
    seq(|s|, i requires 0 <= i < |s| => if s[i] < '\U{80}' then s[i] as int else 0xFFFD)
  }

  // The default order of Array.prototype.sort: by code units.
  predicate Less(a: Text, b: Text) {
    |b| > 0 && (|a| == 0 || a[0] < b[0] || (a[0] == b[0] && Less(a[1..], b[1..])))
  }

  lemma {:induction false} LessTransitive(a: Text, b: Text, c: Text)
    requires Less(a, b) && Less(b, c)
    ensures Less(a, c)
  {
    if |a| > 0 && a[0] == b[0] && b[0] == c[0] {
      LessTransitive(a[1..], b[1..], c[1..]);
    }
  }

  lemma {:induction false} LessTotal(a: Text, b: Text)
    ensures Less(a, b) || a == b || Less(b, a)
    ensures !(Less(a, b) && Less(b, a))
    ensures Less(a, b) || Less(b, a) ==> a != b
  {
    if |a| > 0 && |b| > 0 && a[0] == b[0] {
      LessTotal(a[1..], b[1..]);
      assert a == [a[0]] + a[1..] && b == [b[0]] + b[1..];
    }
  }

  // String.prototype.indexOf of one code unit.
  function IndexOf(t: Text, c: CodeUnit): (i: int)
    ensures -1 <= i < |t|
    ensures i >= 0 ==> t[i] == c && c !in t[..i]
    ensures i < 0 ==> c !in t
  {
    if t == [] then -1
    else if t[0] == c then 0
    else
      var i := IndexOf(t[1..], c);
      assert i >= 0 ==> t[..i + 1] == [t[0]] + t[1..][..i];
      if i < 0 then -1 else i + 1
  }

  lemma {:induction false} FirstAt(t: Text, c: CodeUnit, i: nat)
    requires i < |t| && t[i] == c && c !in t[..i]
    ensures IndexOf(t, c) == i
  {
    if i > 0 {
      assert t[..i][0] == t[0];
      assert t[1..][..i - 1] == t[..i][1..];
      FirstAt(t[1..], c, i - 1);
    }
  }

  lemma IndexOfInFront(a: Text, b: Text, c: CodeUnit)
    requires IndexOf(a, c) >= 0
    ensures IndexOf(a + b, c) == IndexOf(a, c)
  {
    var i := IndexOf(a, c);
    assert (a + b)[..i] == a[..i];
    FirstAt(a + b, c, i);
  }

  // The number a text of decimal digits stands for.
  function ParseDecimal(t: Text): int {
    if t == [] then 0 else ParseDecimal(t[..|t| - 1]) * 10 + (t[|t| - 1] as int - 48)
  }
}
