/** Diagnosis events as server-sent events: the frames that event_stream yields
    (python/app/infrastructure/sse_manager.py), and a client that interprets them as
    sections 9.2.5 and 9.2.6 of the WHATWG HTML Living Standard prescribe. */
module SseFrames {
  import opened Collections
  import opened TaskMessages

  datatype EventType =
    | INVESTIGATION_STARTED | TOOL_CALLING | TOOL_COMPLETED | EVIDENCE_RECEIVED | HYPOTHESIS_FORMED
    | HYPOTHESIS_VERIFIED | DIAGNOSIS_COMPLETE | DIAGNOSIS_INCONCLUSIVE | TASK_CANCELLED | ERROR | PROGRESS

  function Name(t: EventType): string
  {
    match t
    case INVESTIGATION_STARTED => "investigation_started"
    case TOOL_CALLING => "tool_calling"
    case TOOL_COMPLETED => "tool_completed"
    case EVIDENCE_RECEIVED => "evidence_received"
    case HYPOTHESIS_FORMED => "hypothesis_formed"
    case HYPOTHESIS_VERIFIED => "hypothesis_verified"
    case DIAGNOSIS_COMPLETE => "diagnosis_complete"
    case DIAGNOSIS_INCONCLUSIVE => "diagnosis_inconclusive"
    case TASK_CANCELLED => "task_cancelled"
    case ERROR => "error"
    case PROGRESS => "progress"
  }

  datatype DiagnosisEvent = DiagnosisEvent(eventType: EventType, taskId: string, data: Json, timestamp: string)

  /** json.dumps */
  type Dumps = Json -> string

  function Payload(e: DiagnosisEvent): Json
  {
    JObject(map["eventType" := JString(Name(e.eventType)), "taskId" := JString(e.taskId), "data" := e.data,
                "timestamp" := JString(e.timestamp)])
  }

  predicate OneLine(s: string)
  {
    '\n' !in s && '\r' !in s
  }

  /** JSON text escapes line ends. */
  ghost predicate WritesOneLine(dumps: Dumps)
  {
    forall j: Json :: OneLine(dumps(j))
  }

  function ToSse(dumps: Dumps, e: DiagnosisEvent): string
  {
    "event: " + Name(e.eventType) + "\ndata: " + dumps(Payload(e)) + "\n\n"
  }

  /** What a stream yields: an event, or a comment when none came for a while. */
  datatype Chunk = Frame(event: DiagnosisEvent) | KeepAlive

  function ChunkText(dumps: Dumps, c: Chunk): string
  {
    match c
    case Frame(e) => ToSse(dumps, e)
    case KeepAlive => ": keepalive\n\n"
  }

  function StreamText(dumps: Dumps, chunks: seq<Chunk>): string
  {
    if chunks == [] then "" else ChunkText(dumps, chunks[0]) + StreamText(dumps, chunks[1..])
  }

  // ---------- The client ----------

  /** The complete lines of a text, the first one continuing line. Lines end with CRLF,
      LF or CR; an unfinished line is discarded. */
  function Lines(text: string, line: string): seq<string>
    decreases |text|
  {
    if text == "" then []
    else if text[0] == '\n' then [line] + Lines(text[1..], "")
    else if text[0] == '\r' then [line] + Lines(if |text| > 1 && text[1] == '\n' then text[2..] else text[1..], "")
    else Lines(text[1..], line + [text[0]])
  }

  datatype Message = Message(eventType: string, data: string, lastEventId: string)

  datatype Client = Client(eventType: string, data: string, idBuffer: string, retry: string, lastEventId: string,
                           messages: seq<Message>)

  const FRESH := Client("", "", "", "", "", [])

  predicate AllDigits(s: string)
  {
    forall i | 0 <= i < |s| :: '0' <= s[i] <= '9'
  }

  function Field(c: Client, name: string, value: string): Client
  {
    match name
    case "event" => c.(eventType := value)
    case "data" => c.(data := c.data + value + "\n")
    case "id" => if '\0' in value then c else c.(idBuffer := value)
    case "retry" => if AllDigits(value) then c.(retry := value) else c
    case _ => c
  }

  function Dispatch(c: Client): Client
  {
    var d := c.(lastEventId := c.idBuffer, eventType := "", data := "");
    if c.data == "" then d
    else
      var data := if c.data[|c.data| - 1] == '\n' then c.data[..|c.data| - 1] else c.data;
      d.(messages := c.messages + [Message(if c.eventType == "" then "message" else c.eventType, data, c.idBuffer)])
  }

  /** The index of the first colon, or the length when there is none. */
  function Colon(line: string): (i: nat)
    ensures i <= |line| && (i < |line| ==> line[i] == ':') && forall j :: 0 <= j < i ==> line[j] != ':'
  {
    if line == "" || line[0] == ':' then 0 else Colon(line[1..]) + 1
  }

  function WithoutSpace(value: string): string
  {
    if value != "" && value[0] == ' ' then value[1..] else value
  }

  function Feed(c: Client, line: string): Client
  {
    var i := Colon(line);
    if line == "" then Dispatch(c)
    else if i == 0 then c
    else if i < |line| then Field(c, line[..i], WithoutSpace(line[i + 1..]))
    else Field(c, line, "")
  }

  function FeedAll(c: Client, lines: seq<string>): Client
    decreases |lines|
  {
    if lines == [] then c else FeedAll(Feed(c, lines[0]), lines[1..])
  }

  /** One leading byte order mark is skipped. */
  function Decoded(text: string): string
  {
    if text != "" && text[0] == '\U{FEFF}' then text[1..] else text
  }

  function Interpret(text: string): seq<Message>
  {
    FeedAll(FRESH, Lines(Decoded(text), "")).messages
  }

  // ---------- Frames decode back ----------

  lemma {:induction false} LineEnds(a: string, rest: string, line: string)
    requires OneLine(a)
    ensures Lines(a + "\n" + rest, line) == [line + a] + Lines(rest, "")
    decreases |a|
  {
    var text := a + "\n" + rest;
    if a == "" {
      assert text[1..] == rest;
      assert line + a == line;
    } else {
      assert text[1..] == a[1..] + "\n" + rest;
      LineEnds(a[1..], rest, line + [a[0]]);
      assert line + [a[0]] + a[1..] == line + a;
    }
  }

  lemma {:induction false} FeedAllConcat(c: Client, a: seq<string>, b: seq<string>)
    ensures FeedAll(c, a + b) == FeedAll(FeedAll(c, a), b)
    decreases |a|
  {
    if a == [] {
      assert a + b == b;
    } else {
      assert (a + b)[1..] == a[1..] + b;
      FeedAllConcat(Feed(c, a[0]), a[1..], b);
    }
  }

  lemma {:induction false} ColonAt(name: string, value: string)
    requires ':' !in name
    ensures Colon(name + ":" + value) == |name|
  {
    if name != "" {
      assert (name + ":" + value)[1..] == name[1..] + ":" + value;
      ColonAt(name[1..], value);
    }
  }

  lemma FieldLine(c: Client, name: string, value: string)
    requires name != "" && ':' !in name
    ensures Feed(c, name + ": " + value) == Field(c, name, value)
  {
    var line := name + ": " + value;
    assert line == name + ":" + (" " + value);
    ColonAt(name, " " + value);
    assert line[..|name|] == name && line[|name| + 1..] == " " + value;
    assert (" " + value)[1..] == value;
  }

  lemma NameIsLine(t: EventType)
    ensures Name(t) != "" && OneLine(Name(t))
  {
    match t
    case INVESTIGATION_STARTED => assert OneLine("investigation_started");
    case TOOL_CALLING => assert OneLine("tool_calling");
    case TOOL_COMPLETED => assert OneLine("tool_completed");
    case EVIDENCE_RECEIVED => assert OneLine("evidence_received");
    case HYPOTHESIS_FORMED => assert OneLine("hypothesis_formed");
    case HYPOTHESIS_VERIFIED => assert OneLine("hypothesis_verified");
    case DIAGNOSIS_COMPLETE => assert OneLine("diagnosis_complete");
    case DIAGNOSIS_INCONCLUSIVE => assert OneLine("diagnosis_inconclusive");
    case TASK_CANCELLED => assert OneLine("task_cancelled");
    case ERROR => assert OneLine("error");
    case PROGRESS => assert OneLine("progress");
  }

  /** The lines of a frame. */
  function FrameLines(dumps: Dumps, e: DiagnosisEvent): seq<string>
  {
    ["event: " + Name(e.eventType), "data: " + dumps(Payload(e)), ""]
  }

  lemma {:induction false} FrameSplits(dumps: Dumps, e: DiagnosisEvent, rest: string)
    requires WritesOneLine(dumps)
    ensures Lines(ToSse(dumps, e) + rest, "") == FrameLines(dumps, e) + Lines(rest, "")
  {
    var first, second := "event: " + Name(e.eventType), "data: " + dumps(Payload(e));
    NameIsLine(e.eventType);
    assert OneLine(dumps(Payload(e)));
    assert ToSse(dumps, e) + rest == first + "\n" + (second + "\n" + ("" + "\n" + rest));
    LineEnds(first, second + "\n" + ("" + "\n" + rest), "");
    LineEnds(second, "" + "\n" + rest, "");
    LineEnds("", rest, "");
    assert "" + first == first && "" + second == second;
  }

  predicate Clean(c: Client)
  {
    c.eventType == "" && c.data == "" && c.idBuffer == "" && c.lastEventId == ""
  }

  function Received(dumps: Dumps, e: DiagnosisEvent): Message
  {
    Message(Name(e.eventType), dumps(Payload(e)), "")
  }

  lemma {:induction false} FeedThree(c: Client, a: string, b: string)
    ensures FeedAll(c, [a, b, ""]) == Dispatch(Feed(Feed(c, a), b))
  {
    assert [a, b, ""][1..] == [b, ""] && [b, ""][1..] == [""];
    var d := Feed(Feed(c, a), b);
    assert FeedAll(d, [""]) == FeedAll(Feed(d, ""), []);
  }

  lemma DispatchOne(c: Client, data: string)
    requires c.data == data + "\n" && c.eventType != ""
    ensures Dispatch(c) == Client("", "", c.idBuffer, c.retry, c.idBuffer,
                                  c.messages + [Message(c.eventType, data, c.idBuffer)])
  {
    assert c.data[..|c.data| - 1] == data;
  }

  lemma EventLine(c: Client, name: string)
    ensures Feed(c, "event: " + name) == c.(eventType := name)
  {
    FieldLine(c, "event", name);
    assert "event" + ": " + name == "event: " + name;
  }

  lemma DataLine(c: Client, data: string)
    requires c.data == ""
    ensures Feed(c, "data: " + data) == c.(data := data + "\n")
  {
    FieldLine(c, "data", data);
    assert "data" + ": " + data == "data: " + data;
    assert "" + data == data;
  }

  lemma {:induction false} LinesReceived(c: Client, name: string, data: string)
    requires Clean(c) && name != ""
    ensures FeedAll(c, ["event: " + name, "data: " + data, ""]) ==
            c.(messages := c.messages + [Message(name, data, "")])
  {
    FeedThree(c, "event: " + name, "data: " + data);
    EventLine(c, name);
    DataLine(c.(eventType := name), data);
    DispatchOne(c.(eventType := name, data := data + "\n"), data);
  }

  lemma {:induction false} FrameReceived(c: Client, dumps: Dumps, e: DiagnosisEvent)
    requires Clean(c)
    ensures FeedAll(c, FrameLines(dumps, e)) == c.(messages := c.messages + [Received(dumps, e)])
  {
    NameIsLine(e.eventType);
    LinesReceived(c, Name(e.eventType), dumps(Payload(e)));
  }

  lemma {:induction false} KeepAliveSplits(rest: string)
    ensures Lines(": keepalive\n\n" + rest, "") == [": keepalive", ""] + Lines(rest, "")
  {
    var text := ": keepalive\n\n" + rest;
    assert text == ": keepalive" + "\n" + ("" + "\n" + rest);
    LineEnds(": keepalive", "" + "\n" + rest, "");
    LineEnds("", rest, "");
    assert "" + ": keepalive" == ": keepalive" && "" + "" == "";
  }

  lemma {:induction false} KeepAliveIgnored(c: Client)
    requires Clean(c)
    ensures FeedAll(c, [": keepalive", ""]) == c
  {
    var lines := [": keepalive", ""];
    assert Feed(c, lines[0]) == c;
    assert lines[1..] == [""];
    assert FeedAll(c, [""]) == Dispatch(c) == c;
  }

  /** The events among the chunks, in order. */
  function Sent(chunks: seq<Chunk>): seq<DiagnosisEvent>
  {
    if chunks == [] then []
    else (if chunks[0].Frame? then [chunks[0].event] else []) + Sent(chunks[1..])
  }

  function AllReceived(dumps: Dumps, events: seq<DiagnosisEvent>): seq<Message>
  {
    seq(|events|, i requires 0 <= i < |events| => Received(dumps, events[i]))
  }

  lemma {:induction false} FrameChunk(c: Client, dumps: Dumps, e: DiagnosisEvent, rest: string)
    requires WritesOneLine(dumps) && Clean(c)
    ensures FeedAll(c, Lines(ToSse(dumps, e) + rest, "")) ==
            FeedAll(c.(messages := c.messages + [Received(dumps, e)]), Lines(rest, ""))
  {
    FrameSplits(dumps, e, rest);
    FeedAllConcat(c, FrameLines(dumps, e), Lines(rest, ""));
    FrameReceived(c, dumps, e);
  }

  lemma {:induction false} KeepAliveChunk(c: Client, rest: string)
    requires Clean(c)
    ensures FeedAll(c, Lines(": keepalive\n\n" + rest, "")) == FeedAll(c, Lines(rest, ""))
  {
    KeepAliveSplits(rest);
    FeedAllConcat(c, [": keepalive", ""], Lines(rest, ""));
    KeepAliveIgnored(c);
  }

  lemma ReceivedStep(dumps: Dumps, before: seq<Message>, e: DiagnosisEvent, events: seq<DiagnosisEvent>)
    ensures before + AllReceived(dumps, [e] + events) == (before + [Received(dumps, e)]) + AllReceived(dumps, events)
  {}

  lemma {:induction false} ChunksReceived(c: Client, dumps: Dumps, chunks: seq<Chunk>)
    requires WritesOneLine(dumps) && Clean(c)
    ensures FeedAll(c, Lines(StreamText(dumps, chunks), "")) ==
            c.(messages := c.messages + AllReceived(dumps, Sent(chunks)))
    decreases |chunks|
  {
    if chunks == [] {
      assert c.messages + AllReceived(dumps, []) == c.messages;
    } else {
      var rest := StreamText(dumps, chunks[1..]);
      match chunks[0] {
        case Frame(e) =>
          FrameChunk(c, dumps, e, rest);
          ReceivedStep(dumps, c.messages, e, Sent(chunks[1..]));
          ChunksReceived(c.(messages := c.messages + [Received(dumps, e)]), dumps, chunks[1..]);
        case KeepAlive =>
          KeepAliveChunk(c, rest);
          ChunksReceived(c, dumps, chunks[1..]);
          assert Sent(chunks) == Sent(chunks[1..]);
      }
    }
  }

  /** Whatever mix of frames and keepalives is yielded, a conforming client dispatches
      exactly the events sent: their types and their payloads, in order. */
  lemma {:induction false} StreamDecodes(dumps: Dumps, chunks: seq<Chunk>)
    requires WritesOneLine(dumps)
    ensures Interpret(StreamText(dumps, chunks)) == AllReceived(dumps, Sent(chunks))
  {
    var text := StreamText(dumps, chunks);
    ChunksReceived(FRESH, dumps, chunks);
    if chunks != [] {
      assert text[0] == ChunkText(dumps, chunks[0])[0];
    }
    assert Decoded(text) == text;
  }

  /** A message tells the whole event it came from. */
  lemma MessageTellsEvent(dumps: Dumps, loads: string -> Json, a: DiagnosisEvent, b: DiagnosisEvent)
    requires forall j: Json :: loads(dumps(j)) == j
    requires Received(dumps, a) == Received(dumps, b)
    ensures a == b
  {
    assert loads(dumps(Payload(a))) == Payload(a) && loads(dumps(Payload(b))) == Payload(b);
    assert Payload(a).fields["taskId"] == Payload(b).fields["taskId"];
    assert Payload(a).fields["data"] == Payload(b).fields["data"];
    assert Payload(a).fields["timestamp"] == Payload(b).fields["timestamp"];
    NameTells(a.eventType, b.eventType);
  }

  lemma NameTells(a: EventType, b: EventType)
    requires Name(a) == Name(b)
    ensures a == b
  {
    assert |Name(a)| == |Name(b)|;
    assert Name(a)[0] == Name(b)[0] && Name(a)[|Name(a)| - 1] == Name(b)[|Name(b)| - 1];
  }

  lemma {:induction false} LinesGrow(a: string, b: string, line: string)
    ensures Lines(a, line) <= Lines(a + b, line)
    decreases |a|
  {
    if a != "" {
      assert (a + b)[1..] == a[1..] + b;
      if a[0] == '\n' {
        LinesGrow(a[1..], b, "");
      } else if a[0] != '\r' {
        LinesGrow(a[1..], b, line + [a[0]]);
      } else if |a| > 1 {
        assert (a + b)[2..] == a[2..] + b;
        LinesGrow(if a[1] == '\n' then a[2..] else a[1..], b, "");
      } else {
        assert Lines(a, line) == [line];
      }
    }
  }

  lemma {:induction false} MessagesGrow(c: Client, lines: seq<string>)
    ensures c.messages <= FeedAll(c, lines).messages
    decreases |lines|
  {
    if lines != [] {
      assert c.messages <= Feed(c, lines[0]).messages;
      MessagesGrow(Feed(c, lines[0]), lines[1..]);
    }
  }

  /** A connection that breaks anywhere, inside a frame too, delivers a prefix of the
      messages: never a part of an event. */
  lemma CutStream(text: string, rest: string)
    requires text != ""
    ensures Interpret(text) <= Interpret(text + rest)
  {
    var a := Decoded(text);
    assert Decoded(text + rest) == a + rest;
    LinesGrow(a, rest, "");
    var few, many := Lines(a, ""), Lines(a + rest, "");
    assert many == few + many[|few|..];
    FeedAllConcat(FRESH, few, many[|few|..]);
    MessagesGrow(FeedAll(FRESH, few), many[|few|..]);
  }

  /** So a client of this stream that reads any beginning of it has received a beginning of
      the events sent. */
  lemma {:induction false} CutFrames(dumps: Dumps, chunks: seq<Chunk>, read: string)
    requires WritesOneLine(dumps) && read <= StreamText(dumps, chunks)
    ensures Interpret(read) <= AllReceived(dumps, Sent(chunks))
  {
    var text := StreamText(dumps, chunks);
    StreamDecodes(dumps, chunks);
    if read != "" {
      assert text == read + text[|read|..];
      CutStream(read, text[|read|..]);
    }
  }
}
