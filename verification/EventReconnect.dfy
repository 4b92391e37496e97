// Reading a workflow's events over many connections: the loop of
// apps/web/lib/use-creative-plan-workbench.ts around the event parser, against
// the framing of services/api/src/commercevision_api/workflow_sse.py.
module EventReconnect {
  import opened Texts
  import opened Json
  import opened EventStream
  import opened EventChunking

  // ------------------------------------------------------------- the server

  // One persisted event: its resume cursor and its JSON text.
  datatype LogEntry = LogEntry(cursor: Text, data: Text)

  datatype Piece = RetryHint(retry: nat) | Heartbeat | Delivery(retry: nat, entry: LogEntry)

  predicate Plain(line: Text) {
    LINE_FEED !in line && (line != [] ==> line[|line| - 1] != CARRIAGE_RETURN)
  }

  // Framing accepts it, and it is within the browser's limits.
  predicate Deliverable(entry: LogEntry) {
    ValidCursor(entry.cursor) && Plain(entry.data) && |entry.data| <= MAXIMUM_EVENT_DATA_CHARACTERS
  }

  function PieceLines(piece: Piece): seq<Text> {
    match piece
    case RetryHint(retry) => [Ascii("retry: ") + Decimal(retry), []]
    case Heartbeat => [Ascii(": heartbeat"), []]
    case Delivery(retry, entry) =>
      [Ascii("retry: ") + Decimal(retry), Ascii("id: ") + entry.cursor, Ascii("event: workflow.event"),
       Ascii("data: ") + entry.data, []]
  }

  function SessionLines(pieces: seq<Piece>): seq<Text> {
    if pieces == [] then [] else PieceLines(pieces[0]) + SessionLines(pieces[1..])
  }

  function Terminated(lines: seq<Text>): Text {
    if lines == [] then [] else lines[0] + [LINE_FEED] + Terminated(lines[1..])
  }

  // Everything the server writes in one session.
  function SessionText(pieces: seq<Piece>): Text {
    Terminated(SessionLines(pieces))
  }

  function Entries(pieces: seq<Piece>): seq<LogEntry> {
    if pieces == [] then []
    else (if pieces[0].Delivery? then [pieces[0].entry] else []) + Entries(pieces[1..])
  }

  predicate AllDeliverable(log: seq<LogEntry>) {
    forall entry <- log :: Deliverable(entry)
  }

  ghost predicate DistinctCursors(log: seq<LogEntry>) {
    forall i, j :: 0 <= i < j < |log| ==> log[i].cursor != log[j].cursor
  }

  // The cursor that stands for having read the first n events.
  function CursorAt(log: seq<LogEntry>, n: nat): Option<Text>
    requires n <= |log|
  {
    if n == 0 then None else Some(log[n - 1].cursor)
  }

  // ------------------------------------------------------------- the client

  datatype Connection =
    | Unreachable
    | Answered(status: int, eventStream: bool, chunks: seq<Text>, broken: bool)

  datatype Link = Link(cursor: Option<Text>, calls: seq<Call>, attempts: nat, retryMilliseconds: int)

  datatype Stop = Running | PolicyDenied | RetentionExpired | Degraded

  function Opened(link: Link): Reader {
    Reader([], None, [], link.cursor, 1_000, link.calls, link.attempts, None)
  }

  // consumeWorkflowEventStream for a well-formed workspace and workflow.
  function Connecting(env: Environment, link: Link, connection: Connection): (Link, Option<Error>) {
    if link.cursor.Some? && !ValidCursor(link.cursor.value) then (link, Some(InvalidCursor))
    else
      match connection
      case Unreachable => (link, Some(ReadFailed))
      case Answered(status, eventStream, chunks, broken) =>
        if !(200 <= status < 300) then (link, Some(HttpFailed(status)))
        else if !eventStream then (link, Some(NotAStream))
        else
          var r := Consuming(env, Opened(link), [], chunks);
          var link' := link.(cursor := r.cursor, calls := r.calls, attempts := r.attempts);
          if r.error.Some? then (link', r.error)
          else if broken then (link', Some(ReadFailed))
          else (link'.(retryMilliseconds := r.retryMilliseconds), None)
  }

  function StopFor(error: Error): Stop {
    if error.HttpFailed? && error.status in {401, 403} then PolicyDenied
    else if error.HttpFailed? && error.status in {404, 410} then RetentionExpired
    else if IsProtocolError(error) then Degraded
    else Running
  }

  function Reconnecting(env: Environment, link: Link, connections: seq<Connection>): (Link, Stop)
    decreases |connections|
  {
    if connections == [] then (link, Running)
    else
      var (link', error) := Connecting(env, link, connections[0]);
      if error.Some? && StopFor(error.value) != Running then (link', StopFor(error.value))
      else Reconnecting(env, link', connections[1..])
  }

  class EventLink {
    const env: Environment
    var cursor: Option<Text>
    var calls: seq<Call>
    var attempts: nat
    var retryMilliseconds: int
    var stop: Stop

    function Now(): Link
      reads this
    {
      Link(cursor, calls, attempts, retryMilliseconds)
    }

    constructor (env: Environment, cursor: Option<Text>)
      ensures this.env == env && Now() == Link(cursor, [], 0, 1_000) && stop == Running
    {
      this.env, this.cursor, calls, attempts := env, cursor, [], 0;
      retryMilliseconds, stop := 1_000, Running;
    }

    method Connect(connection: Connection) returns (error: Option<Error>)
      modifies this`cursor, this`calls, this`attempts, this`retryMilliseconds
      ensures (Now(), error) == Connecting(env, old(Now()), connection)
    {
      if cursor.Some? && !ValidCursor(cursor.value) { return Some(InvalidCursor); }
      if connection.Unreachable? { return Some(ReadFailed); }
      if connection.status < 200 || connection.status >= 300 { return Some(HttpFailed(connection.status)); }
      if !connection.eventStream { return Some(NotAStream); }
      var reader := new StreamReader(env, cursor, calls, attempts);
      error := reader.Consume(connection.chunks);
      cursor, calls, attempts := reader.cursor, reader.calls, reader.attempts;
      if error.Some? { return; }
      if connection.broken { return Some(ReadFailed); }
      retryMilliseconds := reader.retryMilliseconds;
      return None;
    }

    // Waiting between two connections is left out.
    method Run(connections: seq<Connection>)
      requires stop == Running
      modifies this
      ensures (Now(), stop) == Reconnecting(env, old(Now()), connections)
    {
      var i := 0;
      while i < |connections|
        invariant 0 <= i <= |connections| && stop == Running
        invariant Reconnecting(env, old(Now()), connections) == Reconnecting(env, Now(), connections[i..])
      {
        var error := Connect(connections[i]);
        if error.Some? {
          if error.value.HttpFailed? {
            if error.value.status == 401 || error.value.status == 403 {
              stop := PolicyDenied;
              return;
            }
            if error.value.status == 404 || error.value.status == 410 {
              stop := RetentionExpired;
              return;
            }
          }
          if IsProtocolError(error.value) {
            stop := Degraded;
            return;
          }
        }
        i := i + 1;
      }
    }
  }

  // --------------------------------------------------- what the server sends

  // A connection that answers with a stream carries, up to wherever it breaks
  // off, a session that starts right after the cursor asked for.
  ghost predicate Serves(log: seq<LogEntry>, cursor: Option<Text>, connection: Connection) {
    connection.Answered? && 200 <= connection.status < 300 && connection.eventStream ==>
      exists n: nat, pieces, m: nat ::
        && n <= |log| && cursor == CursorAt(log, n)
        && Entries(pieces) <= log[n..]
        && m <= |SessionText(pieces)| && Flatten(connection.chunks) == SessionText(pieces)[..m]
  }

  ghost predicate ServesAll(env: Environment, log: seq<LogEntry>, link: Link, connections: seq<Connection>)
    decreases |connections|
  {
    connections == [] ||
    (Serves(log, link.cursor, connections[0])
     && ServesAll(env, log, Connecting(env, link, connections[0]).0, connections[1..]))
  }

  // ------------------------------------------------------- what is promised

  function Committed(calls: seq<Call>): nat {
    if calls == [] then 0 else Committed(calls[..|calls| - 1]) + if calls[|calls| - 1].OnCursor? then 1 else 0
  }

  function Attempted(calls: seq<Call>): nat {
    if calls == [] then 0 else Attempted(calls[..|calls| - 1]) + if calls[|calls| - 1].OnEvent? then 1 else 0
  }

  function CommittedCursors(calls: seq<Call>): seq<Text> {
    if calls == [] then []
    else
      var last := calls[|calls| - 1];
      CommittedCursors(calls[..|calls| - 1]) + if last.OnCursor? then [last.cursor] else []
  }

  function Cursors(log: seq<LogEntry>): seq<Text> {
    if log == [] then [] else Cursors(log[..|log| - 1]) + [log[|log| - 1].cursor]
  }

  // Reading on from position start, every onEvent call is about the first event
  // not committed before it, and every onCursor call commits that event right
  // after its handler succeeded.
  ghost predicate Faithful(env: Environment, log: seq<LogEntry>, start: nat, calls: seq<Call>) {
    calls == [] ||
    var before, last := calls[..|calls| - 1], calls[|calls| - 1];
    var n := start + Committed(before);
    && Faithful(env, log, start, before)
    && n < |log|
    && match last
       case OnEvent(event) => env.decode(log[n].data) == Some(event)
       case OnCursor(cursor) =>
         && cursor == log[n].cursor
         && before != [] && before[|before| - 1].OnEvent?
         && env.handle(Attempted(before) - 1, before[|before| - 1].event) == Handled
  }

  ghost predicate Caught(
    env: Environment, log: seq<LogEntry>, start: nat, cursor: Option<Text>, calls: seq<Call>, attempts: nat)
  {
    && Faithful(env, log, start, calls) && attempts == Attempted(calls)
    && start + Committed(calls) <= |log| && cursor == CursorAt(log, start + Committed(calls))
  }
}
