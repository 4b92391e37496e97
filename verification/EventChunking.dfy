// The event parser does not depend on how the text is cut into chunks.
module EventChunking {
  import opened Texts
  import opened EventStream

  function Flatten(chunks: seq<Text>): Text {
    if chunks == [] then [] else chunks[0] + Flatten(chunks[1..])
  }

  // The chunks before the first one that overflows the pending text.
  function Fitting(pending: Text, chunks: seq<Text>): seq<Text>
    decreases |chunks|
  {
    if chunks == [] || |pending + chunks[0]| > MAXIMUM_PENDING_STREAM_CHARACTERS then []
    else [chunks[0]] + Fitting(Tail(pending + chunks[0]), chunks[1..])
  }

  // Reading a text in two parts gives the lines of the first part, then those
  // of its tail followed by the second.
  lemma {:induction false} LinesConcat(a: Text, b: Text)
    ensures Lines(a + b) == Lines(a) + Lines(Tail(a) + b)
    ensures Tail(a + b) == Tail(Tail(a) + b)
    decreases |a|
  {
    var n := IndexOf(a, LINE_FEED);
    if n >= 0 {
      IndexOfInFront(a, b, LINE_FEED);
      assert (a + b)[..n] == a[..n];
      assert (a + b)[n + 1..] == a[n + 1..] + b;
      LinesConcat(a[n + 1..], b);
    }
  }

  lemma {:induction false} AcceptingConcat(env: Environment, r: Reader, xs: seq<Text>, ys: seq<Text>)
    ensures AcceptingAll(env, r, xs + ys) == AcceptingAll(env, AcceptingAll(env, r, xs), ys)
    decreases |xs|
  {
    hide Accepting;
    if xs == [] {
      assert xs + ys == ys;
    } else if r.error.None? {
      assert (xs + ys)[1..] == xs[1..] + ys;
      AcceptingConcat(env, Accepting(env, r, xs[0]), xs[1..], ys);
    }
  }

  lemma {:induction false} TailHasNoLine(t: Text)
    ensures LINE_FEED !in Tail(t) && Lines(Tail(t)) == [] && Tail(Tail(t)) == Tail(t)
    decreases |t|
  {
    var n := IndexOf(t, LINE_FEED);
    if n >= 0 { TailHasNoLine(t[n + 1..]); }
  }

  // What reading in chunks computes: the lines of the text up to the first
  // overflowing chunk, one after the other; the overflow is reported unless a
  // line failed before it.
  lemma {:induction false} ConsumingFoldsLines(env: Environment, r: Reader, pending: Text, chunks: seq<Text>)
    requires Lines(pending) == []
    ensures var fitting := Fitting(pending, chunks);
      var folded := AcceptingAll(env, r, Lines(pending + Flatten(fitting)));
      Consuming(env, r, pending, chunks)
        == if folded.error.Some? || |fitting| == |chunks| then folded else folded.(error := Some(FrameTooLong))
    decreases |chunks|
  {
    hide Accepting;
    var fitting := Fitting(pending, chunks);
    if fitting == [] {
      assert pending + Flatten(fitting) == pending;
    } else {
      var text, rest := pending + chunks[0], fitting[1..];
      assert pending + Flatten(fitting) == text + Flatten(rest);
      LinesConcat(text, Flatten(rest));
      TailHasNoLine(text);
      var r' := AcceptingAll(env, r, Lines(text));
      AcceptingConcat(env, r, Lines(text), Lines(Tail(text) + Flatten(rest)));
      ConsumingFoldsLines(env, r', Tail(text), chunks[1..]);
    }
  }

  // Two ways of cutting the same text into chunks that never overflow give the
  // same calls, cursor, retry delay and error: those of its lines read one by
  // one, with an unterminated last line discarded.
  lemma ChunkingDoesNotMatter(env: Environment, r: Reader, xs: seq<Text>, ys: seq<Text>)
    requires Flatten(xs) == Flatten(ys)
    requires Fitting([], xs) == xs && Fitting([], ys) == ys
    ensures Consuming(env, r, [], xs) == Consuming(env, r, [], ys) == AcceptingAll(env, r, Lines(Flatten(xs)))
  {
    assert Lines([]) == [];
    ConsumingFoldsLines(env, r, [], xs);
    ConsumingFoldsLines(env, r, [], ys);
    assert [] + Flatten(xs) == Flatten(xs);
  }

  // The complete lines of a text, with their line ends.
  function RawLines(t: Text): seq<Text>
    decreases |t|
  {
    var newline := IndexOf(t, LINE_FEED);
    if newline < 0 then [] else [t[..newline + 1]] + RawLines(t[newline + 1..])
  }

  predicate IsLineOf(line: Text, raw: Text) {
    && raw != [] && raw[|raw| - 1] == LINE_FEED && LINE_FEED !in raw[..|raw| - 1]
    && line == WithoutTrailingReturn(raw[..|raw| - 1])
  }

  lemma Unfold(t: Text)
    ensures var n := IndexOf(t, LINE_FEED);
      if n < 0 then RawLines(t) == [] && Lines(t) == [] && Tail(t) == t
      else
        && t == t[..n + 1] + t[n + 1..]
        && RawLines(t) == [t[..n + 1]] + RawLines(t[n + 1..])
        && Lines(t) == [WithoutTrailingReturn(t[..n])] + Lines(t[n + 1..])
        && Tail(t) == Tail(t[n + 1..])
  {
  }

  // Lines loses nothing but line ends and the tail.
  lemma {:induction false} LinesPartitionText(t: Text)
    ensures t == Flatten(RawLines(t)) + Tail(t)
    ensures |Lines(t)| == |RawLines(t)|
    ensures forall i :: 0 <= i < |RawLines(t)| ==> IsLineOf(Lines(t)[i], RawLines(t)[i])
    decreases |t|
  {
    hide RawLines, Lines, Tail, WithoutTrailingReturn, IsLineOf;
    Unfold(t);
    var n := IndexOf(t, LINE_FEED);
    if n < 0 {
      assert [] + t == t;
    } else {
      var head, rest := t[..n + 1], t[n + 1..];
      LinesPartitionText(rest);
      FirstLine(t, n);
      hide IndexOf;
      FlattenCons(head, RawLines(rest), Tail(rest));
    }
  }

  lemma FlattenCons(head: Text, raws: seq<Text>, tail: Text)
    ensures Flatten([head] + raws) + tail == head + (Flatten(raws) + tail)
  {
    assert ([head] + raws)[1..] == raws;
  }

  lemma FirstLine(t: Text, n: nat)
    requires n < |t| && IndexOf(t, LINE_FEED) == n
    ensures IsLineOf(WithoutTrailingReturn(t[..n]), t[..n + 1])
  {
    assert t[..n + 1][..n] == t[..n];
  }

  // Some way of cutting a text into chunks avoids the overflow exactly when
  // every line with its line feed, and the tail, is within the bound.
  lemma ReadableIffLinesFit(t: Text)
    ensures (exists chunks :: Flatten(chunks) == t && Fitting([], chunks) == chunks)
       <==> (forall raw :: raw in RawLines(t) ==> |raw| <= MAXIMUM_PENDING_STREAM_CHARACTERS)
            && |Tail(t)| <= MAXIMUM_PENDING_STREAM_CHARACTERS
  {
    if (forall raw :: raw in RawLines(t) ==> |raw| <= MAXIMUM_PENDING_STREAM_CHARACTERS)
       && |Tail(t)| <= MAXIMUM_PENDING_STREAM_CHARACTERS
    {
      LineChunksFit(t);
      assert Flatten(LineChunks(t)) == t && Fitting([], LineChunks(t)) == LineChunks(t);
    }
    if chunks :| Flatten(chunks) == t && Fitting([], chunks) == chunks {
      assert Lines([]) == [];
      FittingBoundsLines([], chunks);
      assert [] + Flatten(chunks) == t;
    }
  }

  function LineChunks(t: Text): seq<Text> { RawLines(t) + [Tail(t)] }

  lemma {:induction false} FlattenConcat(xs: seq<Text>, ys: seq<Text>)
    ensures Flatten(xs + ys) == Flatten(xs) + Flatten(ys)
  {
    if xs == [] {
      assert xs + ys == ys;
    } else {
      assert (xs + ys)[1..] == xs[1..] + ys;
      FlattenConcat(xs[1..], ys);
    }
  }

  lemma {:induction false} LineChunksFit(t: Text)
    requires forall raw :: raw in RawLines(t) ==> |raw| <= MAXIMUM_PENDING_STREAM_CHARACTERS
    requires |Tail(t)| <= MAXIMUM_PENDING_STREAM_CHARACTERS
    ensures Flatten(LineChunks(t)) == t && Fitting([], LineChunks(t)) == LineChunks(t)
    decreases |t|
  {
    hide RawLines, Lines, Tail, WithoutTrailingReturn, Flatten, Fitting;
    Unfold(t);
    var n := IndexOf(t, LINE_FEED);
    if n < 0 {
      assert LineChunks(t) == [t];
      OneChunk(t);
    } else {
      var line, rest := t[..n + 1], t[n + 1..];
      LineEndsWithEmptyTail(t, n);
      hide IndexOf;
      assert line in RawLines(t) && forall raw :: raw in RawLines(rest) ==> raw in RawLines(t);
      LineChunksFit(rest);
      assert LineChunks(t) == [line] + LineChunks(rest);
      FirstChunk(line, LineChunks(rest));
    }
  }

  lemma OneChunk(t: Text)
    requires |t| <= MAXIMUM_PENDING_STREAM_CHARACTERS
    ensures Flatten([t]) == t && Fitting([], [t]) == [t]
  {
    assert [t][1..] == [] && [] + t == t;
  }

  lemma FirstChunk(line: Text, chunks: seq<Text>)
    requires |line| <= MAXIMUM_PENDING_STREAM_CHARACTERS && Tail(line) == [] && Fitting([], chunks) == chunks
    ensures Flatten([line] + chunks) == line + Flatten(chunks) && Fitting([], [line] + chunks) == [line] + chunks
  {
    assert ([line] + chunks)[1..] == chunks && [] + line == line;
  }

  lemma LineEndsWithEmptyTail(t: Text, n: nat)
    requires n < |t| && IndexOf(t, LINE_FEED) == n
    ensures Tail(t[..n + 1]) == []
  {
    var line := t[..n + 1];
    assert line[..n] == t[..n];
    FirstAt(line, LINE_FEED, n);
    assert line[n + 1..] == [];
  }

  lemma {:induction false} FittingBoundsLines(pending: Text, chunks: seq<Text>)
    requires Lines(pending) == [] && |pending| <= MAXIMUM_PENDING_STREAM_CHARACTERS
    requires Fitting(pending, chunks) == chunks
    ensures var t := pending + Flatten(chunks);
      && (forall raw :: raw in RawLines(t) ==> |raw| <= MAXIMUM_PENDING_STREAM_CHARACTERS)
      && |Tail(t)| <= MAXIMUM_PENDING_STREAM_CHARACTERS
    decreases |chunks|
  {
    if chunks == [] {
      assert pending + Flatten(chunks) == pending;
    } else {
      var text, rest := pending + chunks[0], chunks[1..];
      assert pending + Flatten(chunks) == text + Flatten(rest);
      TailHasNoLine(text);
      LinesPartitionText(text);
      assert Fitting(Tail(text), rest) == Fitting(pending, chunks)[1..];
      FittingBoundsLines(Tail(text), rest);
      RawLinesConcat(text, Flatten(rest));
      LinesConcat(text, Flatten(rest));
      RawLinesShort(text);
    }
  }

  lemma {:induction false} RawLinesConcat(a: Text, b: Text)
    ensures RawLines(a + b) == RawLines(a) + RawLines(Tail(a) + b)
    decreases |a|
  {
    hide RawLines, Lines, Tail, WithoutTrailingReturn;
    Unfold(a);
    var n := IndexOf(a, LINE_FEED);
    if n >= 0 {
      Unfold(a + b);
      IndexOfInFront(a, b, LINE_FEED);
      hide IndexOf;
      assert (a + b)[..n + 1] == a[..n + 1];
      assert (a + b)[n + 1..] == a[n + 1..] + b;
      RawLinesConcat(a[n + 1..], b);
    }
  }

  lemma {:induction false} RawLinesShort(t: Text)
    ensures forall raw :: raw in RawLines(t) ==> |raw| <= |t|
    ensures |Tail(t)| <= |t|
    decreases |t|
  {
    var n := IndexOf(t, LINE_FEED);
    if n >= 0 { RawLinesShort(t[n + 1..]); }
  }
}
