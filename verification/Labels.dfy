// Label allocation and line lists of
// apps/web/lib/brand-profile-editor-state.ts.
module Labels {
  import opened Texts
  import opened Json
  import opened JsonEncoding
  import opened PendingCommand

  // ------------------------------------------------------------- allocation

  // A label with its number.
  function Label(prefix: Text, suffix: nat): Text { prefix + Decimal(suffix) }

  lemma LabelsDiffer(prefix: Text, m: nat, n: nat)
    requires Label(prefix, m) == Label(prefix, n)
    ensures m == n
  {
    assert Decimal(m) == Label(prefix, m)[|prefix|..] && Decimal(n) == Label(prefix, n)[|prefix|..];
    DecimalInjective(m, n);
  }

  ghost function LabelSet(prefix: Text, first: nat, n: nat): set<Text> {
    set i: nat | first <= i < first + n :: Label(prefix, i)
  }

  lemma {:induction false} LabelsCount(prefix: Text, first: nat, n: nat)
    ensures |LabelSet(prefix, first, n)| == n
  {
    if n == 0 {
      assert LabelSet(prefix, first, 0) == {};
    } else {
      LabelsCount(prefix, first, n - 1);
      var last := Label(prefix, first + n - 1);
      if last in LabelSet(prefix, first, n - 1) {
        var i: nat :| first <= i < first + n - 1 && Label(prefix, i) == last;
        LabelsDiffer(prefix, i, first + n - 1);
      }
      assert LabelSet(prefix, first, n) == LabelSet(prefix, first, n - 1) + {last};
    }
  }

  lemma SubsetNoLarger(a: set<Text>, b: set<Text>)
    requires a <= b
    ensures |a| <= |b|
  {
    assert b == a + (b - a);
  }

  // By the pigeonhole principle one of |used| + 1 labels is unused.
  lemma SomeUnused(prefix: Text, first: nat, used: set<Text>)
    ensures exists i: nat :: first <= i <= first + |used| && Label(prefix, i) !in used
  {
    if forall i: nat :: first <= i <= first + |used| ==> Label(prefix, i) in used {
      LabelsCount(prefix, first, |used| + 1);
      SubsetNoLarger(LabelSet(prefix, first, |used| + 1), used);
    }
  }

  // firstUnusedLabel and the loop of nextUniqueProfileKey: the least unused
  // number from first on.  The throw after the loop is never reached.
  method FirstUnused(used: set<Text>, prefix: Text, first: nat) returns (candidate: Text)
    ensures candidate !in used
    ensures exists k: nat :: first <= k <= first + |used| && candidate == Label(prefix, k)
              && forall i: nat :: first <= i < k ==> Label(prefix, i) in used
  {
    SomeUnused(prefix, first, used);
    var suffix := first;
    while suffix <= first + |used|
      invariant first <= suffix <= first + |used| + 1
      invariant forall i: nat :: first <= i < suffix ==> Label(prefix, i) in used
    {
      candidate := Label(prefix, suffix);
      if candidate !in used { return; }
      suffix := suffix + 1;
    }
    assert false;
  }

  method NextUniqueRuleCode(codes: seq<Text>) returns (code: Text)
    ensures code !in codes
    ensures exists k: nat :: 1 <= k && code == Label(Ascii("rule-"), k) && forall i: nat :: 1 <= i < k ==> Label(Ascii("rule-"), i) in codes
  {
    hide Ascii, Label;
    code := FirstUnused((set c <- codes), Ascii("rule-"), 1);
  }

  method NextUniqueColorName(names: seq<Text>) returns (name: Text)
    ensures name !in names
    ensures exists k: nat :: 1 <= k && name == Label(Ascii("Color "), k) && forall i: nat :: 1 <= i < k ==> Label(Ascii("Color "), i) in names
  {
    hide Ascii, Label;
    name := FirstUnused((set c <- names), Ascii("Color "), 1);
  }

  method NextUniqueProfileKey(keys: seq<Text>) returns (key: Text)
    ensures key !in keys
    ensures if Ascii("primary") !in keys then key == Ascii("primary")
            else exists k: nat :: 2 <= k && key == Label(Ascii("profile-"), k)
                   && forall i: nat :: 2 <= i < k ==> Label(Ascii("profile-"), i) in keys
  {
    hide Ascii, Label;
    var used := set c <- keys;
    if Ascii("primary") !in used { return Ascii("primary"); }
    key := FirstUnused(used, Ascii("profile-"), 2);
  }

  // -------------------------------------------------------------- line lists

  const LINE_FEED: CodeUnit := 10
  const CARRIAGE_RETURN: CodeUnit := 13

  function WithoutReturn(line: Text): Text {
    if line != [] && line[|line| - 1] == CARRIAGE_RETURN then line[..|line| - 1] else line
  }

  // split(/\r?\n/).
  function SplitLines(t: Text): seq<Text>
    decreases |t|
  {
    var i := IndexOf(t, LINE_FEED);
    if i < 0 then [t] else [WithoutReturn(t[..i])] + SplitLines(t[i + 1..])
  }

  function TrimStart(t: Text): Text {
    if t != [] && Whitespace(t[0]) then TrimStart(t[1..]) else t
  }

  function TrimEnd(t: Text): Text {
    if t != [] && Whitespace(t[|t| - 1]) then TrimEnd(t[..|t| - 1]) else t
  }

  function Trim(t: Text): Text { TrimEnd(TrimStart(t)) }

  // Lines in order, trimmed, without empty ones and repetitions.
  function Normalized(lines: seq<Text>, seen: set<Text>): seq<Text>
    decreases |lines|
  {
    if lines == [] then []
    else
      var line := Trim(lines[0]);
      if line == [] || line in seen then Normalized(lines[1..], seen)
      else [line] + Normalized(lines[1..], seen + {line})
  }

  function NormalizedLines(t: Text): seq<Text> { Normalized(SplitLines(t), {}) }

  method NormalizeLineList(t: Text) returns (lines: seq<Text>)
    ensures lines == NormalizedLines(t)
  {
    var raw := SplitLines(t);
    var seen: set<Text> := {};
    lines := [];
    var i := 0;
    while i < |raw|
      invariant 0 <= i <= |raw|
      invariant lines + Normalized(raw[i..], seen) == NormalizedLines(t)
    {
      var line := Trim(raw[i]);
      if line != [] && line !in seen {
        seen := seen + {line};
        lines := lines + [line];
      }
      i := i + 1;
    }
  }

  predicate Trimmed(t: Text) { t != [] && !Whitespace(t[0]) && !Whitespace(t[|t| - 1]) }

  predicate Clean(t: Text) { Trimmed(t) && LINE_FEED !in t }

  function JoinLines(lines: seq<Text>): Text {
    if lines == [] then []
    else if |lines| == 1 then lines[0]
    else lines[0] + [LINE_FEED] + JoinLines(lines[1..])
  }

  lemma {:induction false} TrimStartIs(t: Text)
    ensures var s := TrimStart(t); s == [] || !Whitespace(s[0])
    ensures forall c :: c in TrimStart(t) ==> c in t
  {
    if t != [] && Whitespace(t[0]) { TrimStartIs(t[1..]); }
  }

  lemma {:induction false} TrimEndIs(t: Text)
    ensures var s := TrimEnd(t); s <= t && (s == [] || !Whitespace(s[|s| - 1]))
    ensures t != [] && !Whitespace(t[0]) ==> TrimEnd(t) != []
  {
    if t != [] && Whitespace(t[|t| - 1]) { TrimEndIs(t[..|t| - 1]); }
  }

  lemma TrimIs(t: Text)
    ensures Trim(t) == [] || Trimmed(Trim(t))
    ensures forall c :: c in Trim(t) ==> c in t
    ensures Trimmed(t) ==> Trim(t) == t
  {
    TrimStartIs(t);
    TrimEndIs(TrimStart(t));
  }

  lemma {:induction false} SplitHasNoFeed(t: Text)
    ensures SplitLines(t) != [] && forall line :: line in SplitLines(t) ==> LINE_FEED !in line
    decreases |t|
  {
    var i := IndexOf(t, LINE_FEED);
    if i >= 0 { SplitHasNoFeed(t[i + 1..]); }
  }

  ghost predicate AllDistinct(lines: seq<Text>) { forall i, j :: 0 <= i < j < |lines| ==> lines[i] != lines[j] }

  lemma {:induction false} NormalizedIs(lines: seq<Text>, seen: set<Text>)
    requires forall line :: line in lines ==> LINE_FEED !in line
    ensures var n := Normalized(lines, seen);
      AllDistinct(n) && forall line :: line in n ==> Clean(line) && line !in seen
    decreases |lines|
  {
    if lines != [] {
      var line := Trim(lines[0]);
      TrimIs(lines[0]);
      assert lines[0] in lines;
      forall l | l in lines[1..] ensures LINE_FEED !in l { assert l in lines; }
      NormalizedIs(lines[1..], if line == [] || line in seen then seen else seen + {line});
    }
  }

  // Clean, distinct lines are left as they are.
  lemma {:induction false} NormalizedKeeps(lines: seq<Text>, seen: set<Text>)
    requires AllDistinct(lines) && forall line :: line in lines ==> Clean(line) && line !in seen
    ensures Normalized(lines, seen) == lines
    decreases |lines|
  {
    if lines != [] {
      assert lines[0] in lines;
      TrimIs(lines[0]);
      forall line | line in lines[1..] ensures Clean(line) && line !in seen + {lines[0]} {
        var i :| 0 <= i < |lines[1..]| && lines[1..][i] == line;
        assert lines[i + 1] == line && lines[i + 1] in lines;
      }
      NormalizedKeeps(lines[1..], seen + {lines[0]});
    }
  }

  lemma CleanKeepsReturn(line: Text)
    requires Clean(line)
    ensures WithoutReturn(line) == line
  {
  }

  lemma SplitHead(line: Text, rest: Text)
    requires Clean(line)
    ensures SplitLines(line + [LINE_FEED] + rest) == [line] + SplitLines(rest)
  {
    CleanKeepsReturn(line);
    var t := line + [LINE_FEED] + rest;
    assert t[..|line|] == line && t[|line| + 1..] == rest && t[|line|] == LINE_FEED;
    FirstAt(t, LINE_FEED, |line|);
    hide Trimmed, WithoutReturn;
  }

  // Splitting what was joined gives the lines back.
  lemma {:induction false} SplitJoined(lines: seq<Text>)
    requires lines != [] && forall line :: line in lines ==> Clean(line)
    ensures SplitLines(JoinLines(lines)) == lines
    decreases |lines|
  {
    assert lines[0] in lines;
    if |lines| == 1 {
      assert LINE_FEED !in lines[0] && IndexOf(lines[0], LINE_FEED) < 0;
    } else {
      hide Clean, SplitLines;
      SplitHead(lines[0], JoinLines(lines[1..]));
      forall line | line in lines[1..] ensures Clean(line) { assert line in lines; }
      SplitJoined(lines[1..]);
      assert lines == [lines[0]] + lines[1..];
    }
  }

  // The lines are non-empty, trimmed and distinct, and normalizing them again,
  // joined by line feeds, changes nothing.
  lemma NormalizingIsIdempotent(t: Text)
    ensures var lines := NormalizedLines(t);
      && AllDistinct(lines) && (forall line :: line in lines ==> Clean(line))
      && NormalizedLines(JoinLines(lines)) == lines
  {
    SplitHasNoFeed(t);
    NormalizedIs(SplitLines(t), {});
    var lines := NormalizedLines(t);
    if lines == [] {
      assert SplitLines([]) == [[]];
    } else {
      SplitJoined(lines);
      NormalizedKeeps(lines, {});
    }
  }

  // Nothing is lost but repetitions: the lines are exactly the non-empty
  // trimmed ones of the text.
  lemma {:induction false} NormalizedHolds(lines: seq<Text>, seen: set<Text>, line: Text)
    ensures line in Normalized(lines, seen) <==> line != [] && line !in seen && exists l :: l in lines && Trim(l) == line
    decreases |lines|
  {
    if lines != [] {
      var first := Trim(lines[0]);
      NormalizedHolds(lines[1..], if first == [] || first in seen then seen else seen + {first}, line);
      assert forall l :: l in lines <==> l == lines[0] || l in lines[1..];
    }
  }
}
