// The incremental event parser of apps/web/lib/workflow-event-stream.ts.
//
// Unlike section 9.2.6 of the WHATWG HTML Living Standard, a lone carriage
// return does not end a line and the event id is forgotten after every block.
module EventStream {
  import opened Texts
  import opened Json
  import opened PendingCommand

  const MAXIMUM_CURSOR_CHARACTERS := 256
  const MAXIMUM_EVENT_DATA_CHARACTERS := 262144
  const MAXIMUM_PENDING_STREAM_CHARACTERS := MAXIMUM_EVENT_DATA_CHARACTERS + 1024

  const LINE_FEED: CodeUnit := 10
  const CARRIAGE_RETURN: CodeUnit := 13
  const SPACE: CodeUnit := 32

  datatype Error =
    | InvalidCursor
    | MissingCursor
    | ContractFailed
    | DataTooLong
    | FrameTooLong
    | NotAStream
    | HandlerFailed
    | ReadFailed
    | HttpFailed(status: int)

  predicate IsProtocolError(e: Error) {
    e in {InvalidCursor, MissingCursor, ContractFailed, DataTooLong, FrameTooLong, NotAStream}
  }

  // How onEvent ends: normally, with an error that counts as a broken public
  // contract, or with any other error.
  datatype Handling = Handled | Contradicted | Threw

  // decode is JSON.parse followed by the response decoder; handle tells how
  // the n-th call of onEvent ends.
  datatype Environment = Environment(decode: Text -> Option<Json>, handle: (nat, Json) -> Handling)

  datatype Call = OnEvent(event: Json) | OnCursor(cursor: Text)

  datatype Reader = Reader(
    eventName: Text,
    eventId: Option<Text>,
    dataLines: seq<Text>,
    cursor: Option<Text>,
    retryMilliseconds: int,
    calls: seq<Call>,     // every onEvent and onCursor call so far
    attempts: nat,        // how many of them are onEvent calls
    error: Option<Error>)

  // ------------------------------------------------------------------- text

  predicate ControlCharacter(c: CodeUnit) { c < 0x20 || c == 0x7F }

  predicate ValidCursor(t: Text) {
    1 <= |t| <= MAXIMUM_CURSOR_CHARACTERS && forall c <- t :: !ControlCharacter(c)
  }

  function WithoutTrailingReturn(line: Text): Text {
    if line != [] && line[|line| - 1] == CARRIAGE_RETURN then line[..|line| - 1] else line
  }

  function JoinLines(lines: seq<Text>): Text {
    if |lines| == 0 then []
    else if |lines| == 1 then lines[0]
    else lines[0] + [LINE_FEED] + JoinLines(lines[1..])
  }

  function TotalLength(lines: seq<Text>): nat {
    if lines == [] then 0 else |lines[0]| + TotalLength(lines[1..])
  }

  predicate AllDigits(t: Text) { t != [] && forall c <- t :: 48 <= c <= 57 }

  // ----------------------------------------------------------- specification

  function Dispatching(env: Environment, r: Reader): Reader {
    if r.dataLines == [] then r.(eventName := [], eventId := None)
    else
      var cleared := r.(eventName := [], eventId := None, dataLines := []);
      if r.eventName != Ascii("workflow.event") then cleared
      else if r.eventId.None? then cleared.(error := Some(MissingCursor))
      else if !ValidCursor(r.eventId.value) then cleared.(error := Some(InvalidCursor))
      else
        match env.decode(JoinLines(r.dataLines))
        case None => cleared.(error := Some(ContractFailed))
        case Some(event) =>
          var called := cleared.(calls := r.calls + [OnEvent(event)], attempts := r.attempts + 1);
          match env.handle(r.attempts, event)
          case Contradicted => called.(error := Some(ContractFailed))
          case Threw => called.(error := Some(HandlerFailed))
          case Handled =>
            called.(cursor := r.eventId, calls := called.calls + [OnCursor(r.eventId.value)])
  }

  function RetryFrom(current: int, value: Text): int {
    if AllDigits(value) && 100 <= ParseDecimal(value) <= 30_000 then ParseDecimal(value) else current
  }

  function FieldOf(line: Text): (Text, Text) {
    var separator := IndexOf(line, COLON);
    var field := if separator < 0 then line else line[..separator];
    var value := if separator < 0 then [] else line[separator + 1..];
    (field, if value != [] && value[0] == SPACE then value[1..] else value)
  }

  function Accepting(env: Environment, r: Reader, line: Text): Reader {
    if line == [] then Dispatching(env, r)
    else if line[0] == COLON then r
    else
      var (field, value) := FieldOf(line);
      if field == Ascii("event") then r.(eventName := value)
      else if field == Ascii("id") then
        if ValidCursor(value) then r.(eventId := Some(value)) else r.(error := Some(InvalidCursor))
      else if field == Ascii("data") then
        if TotalLength(r.dataLines) + |value| > MAXIMUM_EVENT_DATA_CHARACTERS then r.(error := Some(DataTooLong))
        else r.(dataLines := r.dataLines + [value])
      else if field == Ascii("retry") then r.(retryMilliseconds := RetryFrom(r.retryMilliseconds, value))
      else r
  }

  // The complete lines of a text, and what follows the last of them.
  function Lines(t: Text): seq<Text>
    decreases |t|
  {
    var newline := IndexOf(t, LINE_FEED);
    if newline < 0 then [] else [WithoutTrailingReturn(t[..newline])] + Lines(t[newline + 1..])
  }

  function Tail(t: Text): Text
    decreases |t|
  {
    var newline := IndexOf(t, LINE_FEED);
    if newline < 0 then t else Tail(t[newline + 1..])
  }

  function AcceptingAll(env: Environment, r: Reader, lines: seq<Text>): Reader
    decreases |lines|
  {
    if lines == [] || r.error.Some? then r else AcceptingAll(env, Accepting(env, r, lines[0]), lines[1..])
  }

  // The loop over chunks, with the text left over from earlier chunks.
  function Consuming(env: Environment, r: Reader, pending: Text, chunks: seq<Text>): Reader
    decreases |chunks|
  {
    if chunks == [] || r.error.Some? then r
    else
      var text := pending + chunks[0];
      if |text| > MAXIMUM_PENDING_STREAM_CHARACTERS then r.(error := Some(FrameTooLong))
      else Consuming(env, AcceptingAll(env, r, Lines(text)), Tail(text), chunks[1..])
  }

  // -------------------------------------------------------------- the reader

  class StreamReader {
    const env: Environment
    var eventName: Text
    var eventId: Option<Text>
    var dataLines: seq<Text>
    var cursor: Option<Text>
    var retryMilliseconds: int
    var calls: seq<Call>
    var attempts: nat

    function Now(error: Option<Error>): Reader
      reads this
    {
      Reader(eventName, eventId, dataLines, cursor, retryMilliseconds, calls, attempts, error)
    }

    constructor (env: Environment, cursor: Option<Text>, calls: seq<Call>, attempts: nat)
      ensures this.env == env && Now(None) == Reader([], None, [], cursor, 1_000, calls, attempts, None)
    {
      this.env, this.cursor, this.calls, this.attempts := env, cursor, calls, attempts;
      eventName, eventId, dataLines, retryMilliseconds := [], None, [], 1_000;
    }

    method Dispatch() returns (error: Option<Error>)
      modifies this
      ensures Now(error) == Dispatching(env, old(Now(None)))
    {
      if |dataLines| == 0 {
        eventName, eventId := [], None;
        return None;
      }
      var data, id := JoinLines(dataLines), eventId;
      var name := if eventName == [] then Ascii("message") else eventName;
      eventName, eventId, dataLines := [], None, [];
      if name != Ascii("workflow.event") {
        return None;
      }
      if id.Some? && !ValidCursor(id.value) {
        return Some(InvalidCursor);
      }
      if id.None? {
        return Some(MissingCursor);
      }
      var decoded := env.decode(data);
      if decoded.None? {
        return Some(ContractFailed);
      }
      var handling := env.handle(attempts, decoded.value);
      calls, attempts := calls + [OnEvent(decoded.value)], attempts + 1;
      match handling {
        case Contradicted => return Some(ContractFailed);
        case Threw => return Some(HandlerFailed);
        case Handled =>
          cursor := id;
          calls := calls + [OnCursor(id.value)];
          return None;
      }
    }

    method AcceptLine(line: Text) returns (error: Option<Error>)
      modifies this
      ensures Now(error) == Accepting(env, old(Now(None)), line)
    {
      if line == [] {
        error := Dispatch();
        return;
      }
      if line[0] == COLON {
        return None;
      }
      FieldNamesDiffer();
      hide Dispatching, Ascii, ParseDecimal, TotalLength, ValidCursor;
      var separator := IndexOf(line, COLON);
      var field := if separator < 0 then line else line[..separator];
      var value := if separator < 0 then [] else line[separator + 1..];
      if value != [] && value[0] == SPACE {
        value := value[1..];
      }
      if field == Ascii("event") {
        eventName := value;
      }
      if field == Ascii("id") {
        if !ValidCursor(value) {
          return Some(InvalidCursor);
        }
        eventId := Some(value);
      }
      if field == Ascii("data") {
        var size := TotalLength(dataLines);
        if size + |value| > MAXIMUM_EVENT_DATA_CHARACTERS {
          return Some(DataTooLong);
        }
        dataLines := dataLines + [value];
      }
      if field == Ascii("retry") && AllDigits(value) {
        var candidate := ParseDecimal(value);
        if candidate <= MAXIMUM_SAFE_INTEGER && candidate >= 100 && candidate <= 30_000 {
          retryMilliseconds := candidate;
        }
      }
      return None;
    }

    // The chunks read before the stream ends or the signal aborts.
    method Consume(chunks: seq<Text>) returns (error: Option<Error>)
      modifies this
      ensures Now(error) == Consuming(env, old(Now(None)), [], chunks)
    {
      var pending: Text := [];
      var i := 0;
      while i < |chunks|
        invariant 0 <= i <= |chunks|
        invariant Consuming(env, old(Now(None)), [], chunks) == Consuming(env, Now(None), pending, chunks[i..])
      {
        pending := pending + chunks[i];
        if |pending| > MAXIMUM_PENDING_STREAM_CHARACTERS {
          return Some(FrameTooLong);
        }
        ghost var text, before := pending, Now(None);
        var newline := IndexOf(pending, LINE_FEED);
        while newline >= 0
          invariant newline == IndexOf(pending, LINE_FEED)
          invariant AcceptingAll(env, before, Lines(text)) == AcceptingAll(env, Now(None), Lines(pending))
          invariant Tail(text) == Tail(pending)
          decreases |pending|
        {
          var line := pending[..newline];
          ghost var lines := Lines(pending);
          pending := pending[newline + 1..];
          if line != [] && line[|line| - 1] == CARRIAGE_RETURN {
            line := line[..|line| - 1];
          }
          assert lines[0] == line && lines[1..] == Lines(pending);
          error := AcceptLine(line);
          if error.Some? {
            assert Now(error) == AcceptingAll(env, before, Lines(text));
            return;
          }
          newline := IndexOf(pending, LINE_FEED);
        }
        i := i + 1;
      }
      return None;
    }
  }

  lemma FieldNamesDiffer()
    ensures Ascii("event") != Ascii("id") && Ascii("event") != Ascii("data") && Ascii("event") != Ascii("retry")
    ensures Ascii("id") != Ascii("data") && Ascii("id") != Ascii("retry") && Ascii("data") != Ascii("retry")
    ensures Ascii("message") != Ascii("workflow.event") && Ascii("workflow.event") != []
  {
    assert Ascii("event")[0] != Ascii("retry")[0];
    assert |Ascii("message")| == 7 && |Ascii("workflow.event")| == 14;
  }
}
