// Across any number of connections no event is skipped and no cursor is
// committed twice or before its event was handled.
module EventReconnectRuns {
  import opened Texts
  import opened Json
  import opened EventStream
  import opened EventChunking
  import opened EventReconnect

  // ------------------------------------------------------------ framed lines

  lemma {:induction false} DigitsPlain(n: nat)
    ensures Digits(n) != [] && forall c <- Digits(n) :: 48 <= c <= 57
  {
    if n >= 10 { DigitsPlain(n / 10); }
  }

  lemma {:induction false} DigitsParse(n: nat)
    ensures ParseDecimal(Digits(n)) == n
  {
    var d := Digits(n);
    assert d[..|d| - 1] == if n < 10 then [] else Digits(n / 10);
    if n >= 10 { DigitsParse(n / 10); }
  }

  lemma PlainConcat(a: Text, b: Text)
    requires Plain(a) && Plain(b)
    ensures Plain(a + b)
  {
    if b == [] { assert a + b == a; }
  }

  lemma NamesPlain()
    ensures Plain(Ascii("retry: ")) && Plain(Ascii("id: ")) && Plain(Ascii("data: "))
    ensures Plain(Ascii("event: workflow.event")) && Plain(Ascii(": heartbeat")) && Plain([])
  {
    forall c <- Ascii("retry: ") + Ascii("id: ") + Ascii("data: ") ensures c != LINE_FEED {}
    forall c <- Ascii("event: workflow.event") + Ascii(": heartbeat") ensures c != LINE_FEED {}
    assert Ascii("retry: ")[6] == SPACE && Ascii("id: ")[3] == SPACE && Ascii("data: ")[5] == SPACE;
    assert Ascii("event: workflow.event")[20] == 116 && Ascii(": heartbeat")[10] == 116;
  }

  lemma PiecePlain(piece: Piece)
    requires piece.Delivery? ==> Deliverable(piece.entry)
    ensures forall line :: line in PieceLines(piece) ==> Plain(line)
  {
    NamesPlain();
    hide Ascii;
    match piece {
      case RetryHint(retry) => DigitsPlain(retry); PlainConcat(Ascii("retry: "), Decimal(retry));
      case Heartbeat =>
      case Delivery(retry, entry) =>
        DigitsPlain(retry);
        CursorPlain(entry.cursor);
        PlainConcat(Ascii("retry: "), Decimal(retry));
        PlainConcat(Ascii("id: "), entry.cursor);
        PlainConcat(Ascii("data: "), entry.data);
    }
  }

  lemma CursorPlain(cursor: Text)
    requires ValidCursor(cursor)
    ensures Plain(cursor)
  {
    assert cursor[|cursor| - 1] in cursor;
  }

  lemma {:induction false} SessionPlain(pieces: seq<Piece>)
    requires AllDeliverable(Entries(pieces))
    ensures forall line :: line in SessionLines(pieces) ==> Plain(line)
  {
    if pieces != [] {
      if pieces[0].Delivery? { assert pieces[0].entry in Entries(pieces); }
      PiecePlain(pieces[0]);
      forall entry <- Entries(pieces[1..]) ensures Deliverable(entry) { assert entry in Entries(pieces); }
      SessionPlain(pieces[1..]);
    }
  }

  lemma {:induction false} LinesOfTerminated(lines: seq<Text>)
    requires forall line :: line in lines ==> Plain(line)
    ensures Lines(Terminated(lines)) == lines && Tail(Terminated(lines)) == []
  {
    if lines != [] {
      var t := Terminated(lines);
      assert lines[0] in lines && Plain(lines[0]);
      assert t[..|lines[0]|] == lines[0] && t[|lines[0]|] == LINE_FEED;
      FirstAt(t, LINE_FEED, |lines[0]|);
      assert t[|lines[0]| + 1..] == Terminated(lines[1..]);
      LinesOfTerminated(lines[1..]);
    }
  }

  // What arrives of a session is some of its lines, in order.
  lemma ReceivedLines(pieces: seq<Piece>, m: nat)
    requires AllDeliverable(Entries(pieces)) && m <= |SessionText(pieces)|
    ensures Lines(SessionText(pieces)[..m]) <= SessionLines(pieces)
  {
    hide Lines, Tail, Terminated, SessionLines, Plain, Deliverable;
    var t := SessionText(pieces);
    SessionPlain(pieces);
    LinesOfTerminated(SessionLines(pieces));
    LinesConcat(t[..m], t[m..]);
    assert t[..m] + t[m..] == t;
  }

  // -------------------------------------------------------------- one piece

  predicate IdleReader(r: Reader) { r.eventName == [] && r.eventId == None && r.dataLines == [] && r.error == None }

  lemma FieldOfLine(name: Text, value: Text)
    requires COLON !in name
    ensures FieldOf(name + [COLON, SPACE] + value) == (name, value)
  {
    var line := name + [COLON, SPACE] + value;
    assert line[..|name|] == name && line[|name|] == COLON;
    FirstAt(line, COLON, |name|);
    assert line[|name| + 1..] == [SPACE] + value;
  }

  lemma FieldPrefixes()
    ensures Ascii("retry: ") == Ascii("retry") + [COLON, SPACE] && COLON !in Ascii("retry")
    ensures Ascii("id: ") == Ascii("id") + [COLON, SPACE] && COLON !in Ascii("id")
    ensures Ascii("data: ") == Ascii("data") + [COLON, SPACE] && COLON !in Ascii("data")
    ensures Ascii("event: workflow.event") == Ascii("event") + [COLON, SPACE] + Ascii("workflow.event") && COLON !in Ascii("event")
  {
  }

  lemma AcceptField(env: Environment, r: Reader, prefix: Text, name: Text, value: Text)
    requires prefix == name + [COLON, SPACE] && COLON !in name && name != []
    ensures Accepting(env, r, prefix + value) ==
      if name == Ascii("event") then r.(eventName := value)
      else if name == Ascii("id") then
        if ValidCursor(value) then r.(eventId := Some(value)) else r.(error := Some(InvalidCursor))
      else if name == Ascii("data") then
        if TotalLength(r.dataLines) + |value| > MAXIMUM_EVENT_DATA_CHARACTERS then r.(error := Some(DataTooLong))
        else r.(dataLines := r.dataLines + [value])
      else if name == Ascii("retry") then r.(retryMilliseconds := RetryFrom(r.retryMilliseconds, value))
      else r
  {
    hide ValidCursor, RetryFrom, Ascii, TotalLength, FieldOf;
    FieldOfLine(name, value);
    assert (prefix + value)[0] == name[0];
  }

  // One framed event, read whole: its handler is called, and its cursor is
  // committed exactly when the handler succeeds.
  function Delivered(env: Environment, r: Reader, retry: nat, entry: LogEntry): Reader {
    var ready := r.(retryMilliseconds := RetryFrom(r.retryMilliseconds, Decimal(retry)), eventName := [],
                    eventId := None, dataLines := []);
    match env.decode(entry.data)
    case None => ready.(error := Some(ContractFailed))
    case Some(event) =>
      var called := ready.(calls := r.calls + [OnEvent(event)], attempts := r.attempts + 1);
      match env.handle(r.attempts, event)
      case Contradicted => called.(error := Some(ContractFailed))
      case Threw => called.(error := Some(HandlerFailed))
      case Handled => called.(cursor := Some(entry.cursor), calls := called.calls + [OnCursor(entry.cursor)])
  }

  lemma FiveLines(env: Environment, r: Reader, a: Text, b: Text, c: Text, d: Text, e: Text)
    ensures AcceptingAll(env, r, [a, b, c, d, e]) ==
      AcceptingAll(env, AcceptingAll(env, AcceptingAll(env, AcceptingAll(env, AcceptingAll(env, r, [a]), [b]), [c]), [d]), [e])
  {
    hide Accepting, AcceptingAll;
    AcceptingConcat(env, r, [a], [b, c, d, e]);
    AcceptingConcat(env, AcceptingAll(env, r, [a]), [b], [c, d, e]);
    AcceptingConcat(env, AcceptingAll(env, AcceptingAll(env, r, [a]), [b]), [c], [d, e]);
    AcceptingConcat(env, AcceptingAll(env, AcceptingAll(env, AcceptingAll(env, r, [a]), [b]), [c]), [d], [e]);
    assert [a] + [b, c, d, e] == [a, b, c, d, e] && [b] + [c, d, e] == [b, c, d, e];
    assert [c] + [d, e] == [c, d, e] && [d] + [e] == [d, e];
  }

  lemma OneLine(env: Environment, r: Reader, line: Text)
    ensures AcceptingAll(env, r, [line]) == if r.error.Some? then r else Accepting(env, r, line)
  {
    assert [line][1..] == [];
  }

  lemma DeliveryRead(env: Environment, r: Reader, retry: nat, entry: LogEntry)
    requires IdleReader(r) && Deliverable(entry)
    ensures AcceptingAll(env, r, PieceLines(Delivery(retry, entry))) == Delivered(env, r, retry, entry)
  {
    var lines := PieceLines(Delivery(retry, entry));
    FieldPrefixes();
    FieldNamesDiffer();
    AcceptField(env, r, Ascii("retry: "), Ascii("retry"), Decimal(retry));
    hide ValidCursor, RetryFrom, Ascii, Plain, Accepting, AcceptingAll, Decimal;
    FiveLines(env, r, lines[0], lines[1], lines[2], lines[3], lines[4]);
    var r1 := r.(retryMilliseconds := RetryFrom(r.retryMilliseconds, Decimal(retry)));
    OneLine(env, r, lines[0]);
    AcceptField(env, r1, Ascii("id: "), Ascii("id"), entry.cursor);
    OneLine(env, r1, lines[1]);
    var r2 := r1.(eventId := Some(entry.cursor));
    AcceptField(env, r2, Ascii("event") + [COLON, SPACE], Ascii("event"), Ascii("workflow.event"));
    OneLine(env, r2, lines[2]);
    var r3 := r2.(eventName := Ascii("workflow.event"));
    AcceptField(env, r3, Ascii("data: "), Ascii("data"), entry.data);
    OneLine(env, r3, lines[3]);
    assert [] + [entry.data] == [entry.data];
    var r4 := r3.(dataLines := [entry.data]);
    OneLine(env, r4, []);
    BlockDispatched(env, r4, entry);
  }

  lemma BlockDispatched(env: Environment, r: Reader, entry: LogEntry)
    requires r.eventName == Ascii("workflow.event") && r.eventId == Some(entry.cursor) && r.dataLines == [entry.data]
    requires ValidCursor(entry.cursor)
    ensures Accepting(env, r, []) ==
      var cleared := r.(eventName := [], eventId := None, dataLines := []);
      match env.decode(entry.data)
      case None => cleared.(error := Some(ContractFailed))
      case Some(event) =>
        var called := cleared.(calls := r.calls + [OnEvent(event)], attempts := r.attempts + 1);
        match env.handle(r.attempts, event)
        case Contradicted => called.(error := Some(ContractFailed))
        case Threw => called.(error := Some(HandlerFailed))
        case Handled => called.(cursor := Some(entry.cursor), calls := called.calls + [OnCursor(entry.cursor)])
  {
    hide ValidCursor, Ascii;
    assert JoinLines([entry.data]) == entry.data;
  }

  lemma NoticeRead(env: Environment, r: Reader, piece: Piece)
    requires IdleReader(r) && !piece.Delivery?
    ensures var t := AcceptingAll(env, r, PieceLines(piece));
      t == r.(retryMilliseconds := t.retryMilliseconds)
      && (piece.RetryHint? ==> t.retryMilliseconds == RetryFrom(r.retryMilliseconds, Decimal(piece.retry)))
  {
    var lines := PieceLines(piece);
    FieldPrefixes();
    FieldNamesDiffer();
    AcceptingConcat(env, r, [lines[0]], [lines[1]]);
    assert [lines[0]] + [lines[1]] == lines;
    OneLine(env, r, lines[0]);
    if piece.RetryHint? {
      AcceptField(env, r, Ascii("retry: "), Ascii("retry"), Decimal(piece.retry));
    } else {
      assert lines[0][0] == COLON;
    }
    hide RetryFrom, Ascii, Decimal;
    OneLine(env, AcceptingAll(env, r, [lines[0]]), []);
  }

  // Lines before the blank one commit nothing.
  lemma {:induction false} NoBlankNoEffect(env: Environment, r: Reader, lines: seq<Text>)
    requires forall line :: line in lines ==> line != []
    ensures var t := AcceptingAll(env, r, lines); t.calls == r.calls && t.cursor == r.cursor && t.attempts == r.attempts
    decreases |lines|
  {
    if lines != [] && r.error.None? {
      assert lines[0] in lines;
      LineWithoutEffect(env, r, lines[0]);
      hide Accepting;
      forall line | line in lines[1..] ensures line != [] { assert line in lines; }
      NoBlankNoEffect(env, Accepting(env, r, lines[0]), lines[1..]);
    }
  }

  lemma LineWithoutEffect(env: Environment, r: Reader, line: Text)
    requires line != []
    ensures var t := Accepting(env, r, line); t.calls == r.calls && t.cursor == r.cursor && t.attempts == r.attempts
  {
    hide FieldOf, ValidCursor, RetryFrom, Ascii, TotalLength;
  }

  // ------------------------------------------------------------- a session

  ghost predicate CaughtUp(env: Environment, log: seq<LogEntry>, start: nat, r: Reader) {
    Caught(env, log, start, r.cursor, r.calls, r.attempts)
  }

  lemma AttemptIsFaithful(env: Environment, log: seq<LogEntry>, start: nat, calls: seq<Call>, event: Json)
    requires Faithful(env, log, start, calls) && start + Committed(calls) < |log| && env.decode(log[start + Committed(calls)].data) == Some(event)
    ensures var once := calls + [OnEvent(event)];
      Faithful(env, log, start, once) && Committed(once) == Committed(calls) && Attempted(once) == Attempted(calls) + 1
  {
    var once := calls + [OnEvent(event)];
    assert once[..|once| - 1] == calls;
  }

  lemma CommitIsFaithful(env: Environment, log: seq<LogEntry>, start: nat, calls: seq<Call>)
    requires Faithful(env, log, start, calls) && start + Committed(calls) < |log|
    requires calls != [] && calls[|calls| - 1].OnEvent?
    requires env.handle(Attempted(calls) - 1, calls[|calls| - 1].event) == Handled
    ensures var n := start + Committed(calls);
      var more := calls + [OnCursor(log[n].cursor)];
      Faithful(env, log, start, more) && start + Committed(more) == n + 1 && Attempted(more) == Attempted(calls)
  {
    var more := calls + [OnCursor(log[start + Committed(calls)].cursor)];
    assert more[..|more| - 1] == calls;
  }

  lemma DeliveredKeepsCaughtUp(env: Environment, log: seq<LogEntry>, start: nat, r: Reader, retry: nat, entry: LogEntry)
    requires CaughtUp(env, log, start, r) && start + Committed(r.calls) < |log| && log[start + Committed(r.calls)] == entry
    ensures var t := Delivered(env, r, retry, entry);
      CaughtUp(env, log, start, t) && (t.error.None? && r.error.None? ==> Committed(t.calls) == Committed(r.calls) + 1)
  {
    hide RetryFrom, Faithful, Committed, Attempted;
    if env.decode(entry.data).Some? {
      var event := env.decode(entry.data).value;
      AttemptIsFaithful(env, log, start, r.calls, event);
      if env.handle(r.attempts, event) == Handled { CommitIsFaithful(env, log, start, r.calls + [OnEvent(event)]); }
    }
  }

  lemma EntriesFollow(log: seq<LogEntry>, pieces: seq<Piece>, n: nat)
    requires n <= |log| && pieces != [] && Entries(pieces) <= log[n..]
    ensures if pieces[0].Delivery? then n < |log| && log[n] == pieces[0].entry && Entries(pieces[1..]) <= log[n + 1..]
            else Entries(pieces[1..]) <= log[n..]
  {
    if pieces[0].Delivery? {
      assert Entries(pieces)[0] == pieces[0].entry && Entries(pieces)[0] == log[n..][0];
      assert Entries(pieces[1..]) == Entries(pieces)[1..] && log[n + 1..] == log[n..][1..];
    }
  }

  lemma PieceRead(env: Environment, log: seq<LogEntry>, start: nat, r: Reader, piece: Piece)
    requires IdleReader(r) && CaughtUp(env, log, start, r) && AllDeliverable(log)
    requires piece.Delivery? ==> start + Committed(r.calls) < |log| && log[start + Committed(r.calls)] == piece.entry
    ensures var t := AcceptingAll(env, r, PieceLines(piece));
      && CaughtUp(env, log, start, t) && (t.error.None? ==> IdleReader(t))
      && (t.error.None? ==> Committed(t.calls) == Committed(r.calls) + if piece.Delivery? then 1 else 0)
  {
    hide Caught, PieceLines, RetryFrom, AcceptingAll;
    if piece.Delivery? {
      assert piece.entry in log;
      hide Deliverable;
      DeliveryRead(env, r, piece.retry, piece.entry);
      DeliveredKeepsCaughtUp(env, log, start, r, piece.retry, piece.entry);
    } else {
      NoticeRead(env, r, piece);
    }
  }

  lemma PartOfPiece(env: Environment, r: Reader, piece: Piece, lines: seq<Text>)
    requires lines < PieceLines(piece)
    ensures var t := AcceptingAll(env, r, lines); t.calls == r.calls && t.cursor == r.cursor && t.attempts == r.attempts
  {
    var all := PieceLines(piece);
    forall line | line in lines ensures line != [] {
      var i :| 0 <= i < |lines| && lines[i] == line;
      assert lines[i] == all[i] && i < |all| - 1;
    }
    NoBlankNoEffect(env, r, lines);
  }

  lemma SplitSession(pieces: seq<Piece>, lines: seq<Text>)
    requires pieces != [] && lines <= SessionLines(pieces)
    ensures var first := PieceLines(pieces[0]);
      if |lines| < |first| then lines < first
      else lines == first + lines[|first|..] && lines[|first|..] <= SessionLines(pieces[1..])
  {
    hide PieceLines;
  }

  lemma PartKeepsCaughtUp(env: Environment, log: seq<LogEntry>, start: nat, r: Reader, piece: Piece, lines: seq<Text>)
    requires CaughtUp(env, log, start, r) && lines < PieceLines(piece)
    ensures CaughtUp(env, log, start, AcceptingAll(env, r, lines))
  {
    hide PieceLines, AcceptingAll, Caught;
    PartOfPiece(env, r, piece, lines);
  }

  // Whatever part of a session arrives, reading it keeps the reader caught up.
  lemma {:induction false} SessionRead(env: Environment, log: seq<LogEntry>, start: nat, r: Reader, pieces: seq<Piece>, lines: seq<Text>)
    requires IdleReader(r) && CaughtUp(env, log, start, r) && AllDeliverable(log)
    requires Entries(pieces) <= log[start + Committed(r.calls)..]
    requires lines <= SessionLines(pieces)
    ensures CaughtUp(env, log, start, AcceptingAll(env, r, lines))
    decreases |pieces|
  {
    if lines == [] {
      assert AcceptingAll(env, r, lines) == r;
    } else {
      hide AcceptingAll, CaughtUp, PieceLines, AllDeliverable, IdleReader;
      SplitSession(pieces, lines);
      var first := PieceLines(pieces[0]);
      if |lines| < |first| {
        PartKeepsCaughtUp(env, log, start, r, pieces[0], lines);
      } else {
        var rest := lines[|first|..];
        EntriesFollow(log, pieces, start + Committed(r.calls));
        PieceRead(env, log, start, r, pieces[0]);
        AcceptingConcat(env, r, first, rest);
        var t := AcceptingAll(env, r, first);
        if t.error.None? {
          SessionRead(env, log, start, t, pieces[1..], rest);
        } else {
          StoppedStays(env, t, rest);
        }
      }
    }
  }

  lemma StoppedStays(env: Environment, r: Reader, lines: seq<Text>)
    requires r.error.Some?
    ensures AcceptingAll(env, r, lines) == r
  {
  }

  // ------------------------------------------------------------ connections

  lemma {:induction false} FittingIsPrefix(pending: Text, chunks: seq<Text>)
    ensures Fitting(pending, chunks) <= chunks
    ensures Flatten(Fitting(pending, chunks)) <= Flatten(chunks)
    decreases |chunks|
  {
    if chunks != [] && |pending + chunks[0]| <= MAXIMUM_PENDING_STREAM_CHARACTERS {
      FittingIsPrefix(Tail(pending + chunks[0]), chunks[1..]);
      assert Fitting(pending, chunks)[1..] == Fitting(Tail(pending + chunks[0]), chunks[1..]);
    }
  }

  lemma CursorNamesPosition(log: seq<LogEntry>, m: nat, n: nat)
    requires DistinctCursors(log) && m <= |log| && n <= |log| && CursorAt(log, m) == CursorAt(log, n)
    ensures m == n
  {
  }

  lemma SubLogDeliverable(log: seq<LogEntry>, n: nat, part: seq<LogEntry>)
    requires AllDeliverable(log) && n <= |log| && part <= log[n..]
    ensures AllDeliverable(part)
  {
    forall entry <- part ensures Deliverable(entry) {
      var i :| 0 <= i < |part| && part[i] == entry;
      assert log[n + i] in log && log[n..][i] == entry;
    }
  }

  lemma ConnectionKeepsCaughtUp(env: Environment, log: seq<LogEntry>, start: nat, link: Link, connection: Connection)
    requires AllDeliverable(log) && DistinctCursors(log)
    requires Caught(env, log, start, link.cursor, link.calls, link.attempts)
    requires Serves(log, link.cursor, connection)
    ensures var t := Connecting(env, link, connection).0; Caught(env, log, start, t.cursor, t.calls, t.attempts)
  {
    hide Consuming, ValidCursor, DistinctCursors;
    if connection.Answered? && 200 <= connection.status < 300 && connection.eventStream {
      var n: nat, pieces, m: nat :|
        && n <= |log| && link.cursor == CursorAt(log, n) && Entries(pieces) <= log[n..]
        && m <= |SessionText(pieces)| && Flatten(connection.chunks) == SessionText(pieces)[..m];
      CursorNamesPosition(log, n, start + Committed(link.calls));
      SubLogDeliverable(log, n, Entries(pieces));
      StreamKeepsCaughtUp(env, log, start, Opened(link), pieces, m, connection.chunks);
    }
  }

  lemma StreamKeepsCaughtUp(env: Environment, log: seq<LogEntry>, start: nat, r: Reader, pieces: seq<Piece>, m: nat, chunks: seq<Text>)
    requires AllDeliverable(log) && AllDeliverable(Entries(pieces)) && IdleReader(r) && CaughtUp(env, log, start, r)
    requires Entries(pieces) <= log[start + Committed(r.calls)..]
    requires m <= |SessionText(pieces)| && Flatten(chunks) == SessionText(pieces)[..m]
    ensures CaughtUp(env, log, start, Consuming(env, r, [], chunks))
  {
    var fitting := Fitting([], chunks);
    FittingIsPrefix([], chunks);
    hide Accepting, AcceptingAll, Fitting, Flatten, Lines, Tail, SessionText, SessionLines, Deliverable;
    var k := |Flatten(fitting)|;
    assert Flatten(fitting) == SessionText(pieces)[..k];
    ReceivedLines(pieces, k);
    SessionRead(env, log, start, r, pieces, Lines(Flatten(fitting)));
    NothingPending();
    ConsumingFoldsLines(env, r, [], chunks);
    assert [] + Flatten(fitting) == Flatten(fitting);
  }

  lemma NothingPending()
    ensures Lines([]) == []
  {
  }

  // From any cursor that names a position of the log, over any number of
  // connections, refused, broken or complete, with handlers failing as they
  // like: the committed cursors are those of the events that follow the
  // position, in order and without a gap; onEvent is only ever called with the first event not
  // committed yet; and a cursor is committed right after its handler succeeded.
  lemma {:induction false} NoEventSkipped(env: Environment, log: seq<LogEntry>, start: nat, link: Link, connections: seq<Connection>)
    requires AllDeliverable(log) && DistinctCursors(log)
    requires Caught(env, log, start, link.cursor, link.calls, link.attempts)
    requires ServesAll(env, log, link, connections)
    ensures var t := Reconnecting(env, link, connections).0;
      && Caught(env, log, start, t.cursor, t.calls, t.attempts)
      && CommittedCursors(t.calls) == Cursors(log[start..start + Committed(t.calls)])
    decreases |connections|
  {
    hide Connecting, Caught, AllDeliverable, DistinctCursors, Serves;
    if connections == [] {
      assert Caught(env, log, start, link.cursor, link.calls, link.attempts);
      CaughtCommitsPrefix(env, log, start, link);
    } else {
      ConnectionKeepsCaughtUp(env, log, start, link, connections[0]);
      var (link', error) := Connecting(env, link, connections[0]);
      CaughtCommitsPrefix(env, log, start, link');
      NoEventSkipped(env, log, start, link', connections[1..]);
    }
  }

  lemma CaughtCommitsPrefix(env: Environment, log: seq<LogEntry>, start: nat, link: Link)
    requires Caught(env, log, start, link.cursor, link.calls, link.attempts)
    ensures start + Committed(link.calls) <= |log|
    ensures CommittedCursors(link.calls) == Cursors(log[start..start + Committed(link.calls)])
  {
    FaithfulCommitsPrefix(env, log, start, link.calls);
  }

  lemma {:induction false} FaithfulCommitsPrefix(env: Environment, log: seq<LogEntry>, start: nat, calls: seq<Call>)
    requires start <= |log| && Faithful(env, log, start, calls)
    ensures start + Committed(calls) <= |log| && CommittedCursors(calls) == Cursors(log[start..start + Committed(calls)])
  {
    if calls != [] {
      var before := calls[..|calls| - 1];
      FaithfulCommitsPrefix(env, log, start, before);
      var n := start + Committed(before);
      var prefix := log[start..n + 1];
      assert prefix == log[start..n] + [log[n]] && prefix[..|prefix| - 1] == log[start..n];
    }
  }

  // A visit is caught up from the position its cursor names: the beginning on a
  // first visit, the restored cursor's after that.
  lemma VisitCaughtUp(env: Environment, log: seq<LogEntry>, start: nat, link: Link)
    requires start <= |log| && link.cursor == CursorAt(log, start) && link.calls == [] && link.attempts == 0
    ensures Caught(env, log, start, link.cursor, link.calls, link.attempts)
  {
  }

  // A cursor committed once is never committed again.
  lemma NoCursorTwice(env: Environment, log: seq<LogEntry>, start: nat, calls: seq<Call>, i: nat, j: nat)
    requires DistinctCursors(log) && start <= |log| && Faithful(env, log, start, calls)
    requires i < j < |CommittedCursors(calls)|
    ensures CommittedCursors(calls)[i] != CommittedCursors(calls)[j]
  {
    FaithfulCommitsPrefix(env, log, start, calls);
    var committed := log[start..start + Committed(calls)];
    CursorsLength(committed);
    CursorsAt(committed, i);
    CursorsAt(committed, j);
  }

  lemma {:induction false} CursorsLength(log: seq<LogEntry>)
    ensures |Cursors(log)| == |log|
  {
    if log != [] { CursorsLength(log[..|log| - 1]); }
  }

  lemma {:induction false} CursorsAt(log: seq<LogEntry>, i: nat)
    requires i < |log|
    ensures |Cursors(log)| == |log| && Cursors(log)[i] == log[i].cursor
  {
    if |log| > 1 { CursorsAt(log[..|log| - 1], if i < |log| - 1 then i else 0); }
  }

  // ------------------------------------------------------------- completeness

  ghost predicate Succeeds(env: Environment, log: seq<LogEntry>) {
    && (forall entry <- log :: env.decode(entry.data).Some?)
    && (forall n: nat, event :: env.handle(n, event) == Handled)
  }

  // A session read to its end with succeeding handlers commits every event in
  // it, and the next connection asks for what follows them.
  lemma {:induction false} CompleteSessionCommitsAll(env: Environment, log: seq<LogEntry>, start: nat, r: Reader, pieces: seq<Piece>)
    requires IdleReader(r) && CaughtUp(env, log, start, r) && AllDeliverable(log) && Succeeds(env, log)
    requires Entries(pieces) <= log[start + Committed(r.calls)..]
    ensures var t := AcceptingAll(env, r, SessionLines(pieces));
      && IdleReader(t) && CaughtUp(env, log, start, t)
      && Committed(t.calls) == Committed(r.calls) + |Entries(pieces)|
    decreases |pieces|
  {
    if pieces != [] {
      var first := PieceLines(pieces[0]);
      EntriesFollow(log, pieces, start + Committed(r.calls));
      PieceSucceeds(env, log, r, pieces[0]);
      PieceRead(env, log, start, r, pieces[0]);
      AcceptingConcat(env, r, first, SessionLines(pieces[1..]));
      hide Accepting, AcceptingAll, CaughtUp, PieceLines, AllDeliverable, Succeeds;
      CompleteSessionCommitsAll(env, log, start, AcceptingAll(env, r, first), pieces[1..]);
    }
  }

  lemma PieceSucceeds(env: Environment, log: seq<LogEntry>, r: Reader, piece: Piece)
    requires IdleReader(r) && AllDeliverable(log) && Succeeds(env, log)
    requires piece.Delivery? ==> piece.entry in log
    ensures AcceptingAll(env, r, PieceLines(piece)).error.None?
  {
    if piece.Delivery? {
      DeliveryRead(env, r, piece.retry, piece.entry);
    } else {
      NoticeRead(env, r, piece);
    }
  }
}
