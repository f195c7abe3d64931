/** The Lambda handler: picks one of the five sample graphs from the event,
    streams its output through the serialiser and writes one framed line per
    chunk, then the END_OF_CONTENT sentinel, to an output file. Also the
    companion invoke_graph, which picks the graph by name. */
module LambdaHandler {
  import opened Values
  import opened Serializer
  import opened GraphSamples

  /** The graph types the handler's idx indexes into, in order. */
  const GraphTypeValues: seq<string> := ["values", "updates", "messages", "events", "debug"]

  /** Python's event.get(key, default). */
  function Get(event: map<string, Value>, key: string, default: Value): Value {
    if key in event then event[key] else default
  }

  /** The list index a Python value denotes: an int, or a bool as 0 or 1;
      anything else makes indexing raise TypeError. */
  function AsIndex(v: Value): (r: Result<int>)
    ensures r.Ok? <==> v.Int? || v.Bool?
    ensures v.Int? ==> r == Ok(v.n)
    ensures v.Bool? ==> r == Ok(if v.b then 1 else 0)
    ensures r.Err? ==> r.error == IndexTypeError
  {
    match v
    case Int(n) => Ok(n)
    case Bool(b) => Ok(if b then 1 else 0)
    case _ => Err(IndexTypeError)
  }

  /** graph_type_values[idx], with Python's negative indices. */
  function GraphTypeAt(idx: int): (r: Result<string>)
    ensures r.Ok? <==> -|GraphTypeValues| <= idx < |GraphTypeValues|
    ensures r.Ok? ==> r.value in GraphTypeValues
    ensures 0 <= idx < |GraphTypeValues| ==> r == Ok(GraphTypeValues[idx])
    ensures -|GraphTypeValues| <= idx < 0 ==> r == Ok(GraphTypeValues[idx + |GraphTypeValues|])
    ensures r.Err? ==> r.error == IndexError
  {
    match PyIndex(GraphTypeValues, idx)
    case Some(t) => Ok(t)
    case None => Err(IndexError)
  }

  /** The graph_type name that selects a class. */
  function GraphTypeName(c: GraphClass): string {
    match c
    case ValuesModeGraph => "values"
    case UpdatesModeGraph => "updates"
    case MessagesModeGraph => "messages"
    case EventsModeGraph => "events"
    case DebugModeGraph => "debug"
  }

  /** The if/elif chain that binds graph_class: one branch per known name;
      any other value (a different string, or no string at all, since `==`
      is then false in every branch) leaves graph_class unbound, and its use
      raises UnboundLocalError. */
  function SelectGraphClass(t: Value): (r: Result<GraphClass>)
    ensures r.Ok? <==> t.Str? && t.s in GraphTypeValues
    ensures r.Ok? ==> t == Str(GraphTypeName(r.value))
    ensures r.Err? ==> r.error == UnboundGraphClass
  {
    match t
    case Str(s) =>
      if s == "values" then Ok(ValuesModeGraph)
      else if s == "updates" then Ok(UpdatesModeGraph)
      else if s == "messages" then Ok(MessagesModeGraph)
      else if s == "events" then Ok(EventsModeGraph)
      else if s == "debug" then Ok(DebugModeGraph)
      else Err(UnboundGraphClass)
    case _ => Err(UnboundGraphClass)
  }

  /** Every class but EventsModeGraph streams in the mode it is named for;
      EventsModeGraph declares no stream_mode at all. */
  lemma StreamModeMatchesName(c: GraphClass)
    ensures StreamMode(c).None? <==> c == EventsModeGraph
    ensures c != EventsModeGraph ==> StreamMode(c) == Some(GraphTypeName(c))
  {
  }

  /** The handler's choice of graph: idx (default 0) indexes graph_type_values,
      and the name found there selects the class. */
  function HandlerGraph(event: map<string, Value>): (r: Result<GraphClass>)
    ensures "idx" !in event ==> r == Ok(ValuesModeGraph)
    ensures r.Ok? <==> AsIndex(Get(event, "idx", Int(0))).Ok? &&
                       -|GraphTypeValues| <= AsIndex(Get(event, "idx", Int(0))).value < |GraphTypeValues|
    ensures r.Ok? ==> GraphTypeAt(AsIndex(Get(event, "idx", Int(0))).value) == Ok(GraphTypeName(r.value))
    ensures r.Err? ==> r.error == IndexError || r.error == IndexTypeError
    ensures r.Err? ==> (r.error == IndexTypeError <==> AsIndex(Get(event, "idx", Int(0))).Err?)
  {
    match AsIndex(Get(event, "idx", Int(0)))
    case Err(e) => Err(e)
    case Ok(idx) =>
      match GraphTypeAt(idx)
      case Err(e) => Err(e)
      case Ok(t) => SelectGraphClass(Str(t))
  }

  /** invoke_graph: graph_type (default "values") selects the class, and the
      result is the lazily forwarded stream, whose failures only show when it
      is iterated. */
  function InvokeGraph(event: map<string, Value>, library: ChunkStream): (r: Result<ChunkStream>)
    ensures r.Ok? <==> var t := Get(event, "graph_type", Str("values")); t.Str? && t.s in GraphTypeValues
    ensures "graph_type" !in event ==>
              r == Ok(StreamGraph(ValuesModeGraph, library, Get(event, "sleep_time", Int(1))))
    ensures r.Err? ==> r.error == UnboundGraphClass
    ensures r.Ok? ==> r.value.chunks <= library.chunks
    ensures r.Ok? ==> r == Ok(StreamGraph(SelectGraphClass(Get(event, "graph_type", Str("values"))).value,
                                          library, Get(event, "sleep_time", Int(1))))
  {
    match SelectGraphClass(Get(event, "graph_type", Str("values")))
    case Err(e) => Err(e)
    case Ok(c) => Ok(StreamGraph(c, library, Get(event, "sleep_time", Int(1))))
  }

  /** One line of the output file: json.dumps({"output": output}) + "\n", or
      the sentinel END_OF_CONTENT + "\n". */
  datatype Line = Framed(output: Value) | EndOfContent

  /** The framed lines of the serialised chunks, in stream order. */
  function FramedLines(chunks: seq<Value>): seq<Line> {
    seq(|chunks|, i requires 0 <= i < |chunks| => Framed(Serialize(chunks[i])))
  }

  /** A prefix of the chunks frames to a prefix of the lines. */
  lemma FramedLinesPrefix(a: seq<Value>, b: seq<Value>)
    requires a <= b
    ensures FramedLines(a) <= FramedLines(b)
  {
  }

  /** Where json.dumps first refuses a serialised chunk: the index of the
      first chunk whose serialisation is not JSON-safe, or the length. */
  function FirstUnsafe(chunks: seq<Value>): (k: nat)
    ensures k <= |chunks|
    ensures forall j :: 0 <= j < k ==> JsonSafe(Serialize(chunks[j]))
    ensures k < |chunks| ==> !JsonSafe(Serialize(chunks[k]))
  {
    if chunks == [] then 0
    else if !JsonSafe(Serialize(chunks[0])) then 0
    else 1 + FirstUnsafe(chunks[1..])
  }

  /** What a handler run leaves behind: whether it got as far as opening the
      file, the lines the file then holds, and whether it returned or raised. */
  datatype Outcome = Outcome(fileOpened: bool, lines: seq<Line>, result: Result<()>)

  /** The complete file a run writes when nothing fails. */
  function CompleteFile(chunks: seq<Value>): seq<Line> {
    FramedLines(chunks) + [EndOfContent]
  }

  /** The outcome of handler(event, ...) when the compiled graph's stream
      yields `library`. */
  function HandlerOutcome(event: map<string, Value>, library: ChunkStream): (run: Outcome)
    ensures !run.fileOpened <==> HandlerGraph(event).Err?
    ensures !run.fileOpened ==> run.lines == [] && run.result == Err(HandlerGraph(event).error)
    ensures run.lines <= CompleteFile(library.chunks)
    ensures run.result.Ok? <==> run.lines == CompleteFile(library.chunks)
    ensures run.result.Ok? <==>
              && HandlerGraph(event).Ok?
              && StreamMode(HandlerGraph(event).value).Some?
              && library.failure.None?
              && (SleepAccepted(Get(event, "sleep_time", Int(1))) || library.chunks == [])
              && forall i :: 0 <= i < |library.chunks| ==> Convertible(library.chunks[i])
    ensures run.result.Ok? ==>
              && |run.lines| == |library.chunks| + 1
              && run.lines[|library.chunks|] == EndOfContent
              && forall i :: 0 <= i < |library.chunks| ==> run.lines[i] == Framed(Serialize(library.chunks[i]))
    ensures EndOfContent in run.lines <==> run.result.Ok?
    ensures forall i :: 0 <= i < |run.lines| && run.lines[i].Framed? ==> JsonSafe(run.lines[i].output)
    ensures HandlerGraph(event).Ok? ==>
              var k := FirstUnsafe(library.chunks);
              if StreamMode(HandlerGraph(event).value).None? then
                run.lines == [] && run.result == Err(MissingStreamMode)
              else if !SleepAccepted(Get(event, "sleep_time", Int(1))) && library.chunks != [] then
                run.lines == [] && run.result == Err(SleepRejected)
              else if k < |library.chunks| then
                run.lines == FramedLines(library.chunks[..k]) && run.result == Err(NotSerializable)
              else if library.failure.Some? then
                run.lines == FramedLines(library.chunks) && run.result == Err(library.failure.value)
              else
                run.lines == CompleteFile(library.chunks) && run.result == Ok(())
  {
    match HandlerGraph(event)
    case Err(e) => Outcome(false, [], Err(e))
    case Ok(c) =>
      var s := StreamGraph(c, library, Get(event, "sleep_time", Int(1)));
      var k := FirstUnsafe(s.chunks);
      FramedLinesPrefix(s.chunks, library.chunks);
      FramedLinesPrefix(s.chunks[..k], library.chunks);
      ConvertibleChunks(s.chunks);
      if k < |s.chunks| then Outcome(true, FramedLines(s.chunks[..k]), Err(NotSerializable))
      else if s.failure.Some? then Outcome(true, FramedLines(s.chunks), Err(s.failure.value))
      else Outcome(true, CompleteFile(s.chunks), Ok(()))
  }

  /** Every chunk serialises to something json.dumps accepts exactly when
      every chunk is convertible. */
  lemma ConvertibleChunks(chunks: seq<Value>)
    ensures FirstUnsafe(chunks) == |chunks| <==>
            forall i :: 0 <= i < |chunks| ==> Convertible(chunks[i])
  {
    forall i | 0 <= i < |chunks| ensures JsonSafe(Serialize(chunks[i])) <==> Convertible(chunks[i]) {
      SerializeJsonSafeIff(chunks[i]);
    }
  }

  /** A sleep time too long for time.sleep fails the run at the first
      chunk, before any line is written. */
  lemma OverlongSleepFails()
    ensures var run := HandlerOutcome(map["idx" := Int(0), "sleep_time" := Int(10000000000)],
                                      ChunkStream([Str("a")], None));
            run.fileOpened && run.lines == [] && run.result == Err(SleepRejected)
  {
  }

  /** The file the handler writes to. */
  class OutputFile {
    var lines: seq<Line>

    constructor (existing: seq<Line>)
      ensures lines == existing
    {
      lines := existing;
    }

    /** open(file_path, "w") truncates the file. */
    method Open()
      modifies this
      ensures lines == []
    {
      lines := [];
    }

    /** file.write(line) followed by file.flush(). */
    method Write(line: Line)
      modifies this
      ensures lines == old(lines) + [line]
    {
      lines := lines + [line];
    }
  }

  /** handler(event, context, file_path) with `library` standing for what the
      compiled graph's stream yields. A run that fails before the file is
      opened leaves it as it was. */
  method Handler(event: map<string, Value>, library: ChunkStream, file: OutputFile) returns (result: Result<()>)
    modifies file
    ensures result == HandlerOutcome(event, library).result
    ensures file.lines == if HandlerOutcome(event, library).fileOpened
                          then HandlerOutcome(event, library).lines
                          else old(file.lines)
  {
    var graphClass := HandlerGraph(event);
    if graphClass.Err? {
      return Err(graphClass.error);
    }
    var sleepTime := Get(event, "sleep_time", Int(1));
    file.Open();
    var stream := StreamGraph(graphClass.value, library, sleepTime);
    var i := 0;
    while i < |stream.chunks|
      invariant 0 <= i <= |stream.chunks|
      invariant i <= FirstUnsafe(stream.chunks)
      invariant file.lines == FramedLines(stream.chunks[..i])
    {
      var serialized := Serialize(stream.chunks[i]);
      if !JsonSafe(serialized) {
        return Err(NotSerializable);
      }
      file.Write(Framed(serialized));
      i := i + 1;
    }
    assert stream.chunks[..i] == stream.chunks;
    if stream.failure.Some? {
      return Err(stream.failure.value);
    }
    file.Write(EndOfContent);
    return Ok(());
  }

  /** The text of one line, given the text json.dumps produces for a value. */
  function LineText(line: Line, dumps: Value -> string): (t: string)
    ensures |t| > 0 && t[|t| - 1] == '\n'
  {
    match line
    case Framed(v) => dumps(Dict(map["output" := v])) + "\n"
    case EndOfContent => "END_OF_CONTENT\n"
  }

  /** The text of the whole file. */
  function FileText(lines: seq<Line>, dumps: Value -> string): string {
    if lines == [] then ""
    else FileText(lines[..|lines| - 1], dumps) + LineText(lines[|lines| - 1], dumps)
  }

  /** The number of newline characters in `s`. */
  function Newlines(s: string): nat {
    if s == [] then 0 else Newlines(s[..|s| - 1]) + (if s[|s| - 1] == '\n' then 1 else 0)
  }

  /** Counting newlines distributes over concatenation. */
  lemma {:induction false} NewlinesAppend(a: string, b: string)
    ensures Newlines(a + b) == Newlines(a) + Newlines(b)
  {
    if b != [] {
      assert (a + b)[..|a + b| - 1] == a + b[..|b| - 1];
      NewlinesAppend(a, b[..|b| - 1]);
    } else {
      assert a + b == a;
    }
  }

  /** json.dumps writes no raw newline, so the file holds exactly one newline
      per line written: a reader splitting it at newlines sees every line. */
  lemma {:induction false} FileTextLineCount(lines: seq<Line>, dumps: Value -> string)
    requires forall v :: '\n' !in dumps(v)
    ensures Newlines(FileText(lines, dumps)) == |lines|
  {
    if lines != [] {
      var prefix, last := lines[..|lines| - 1], lines[|lines| - 1];
      FileTextLineCount(prefix, dumps);
      var t := LineText(last, dumps);
      NewlinesAppend(FileText(prefix, dumps), t);
      var body := t[..|t| - 1];
      assert '\n' !in body by {
        match last
        case Framed(v) =>
          assert body == dumps(Dict(map["output" := v]));
        case EndOfContent =>
          assert body == "END_OF_CONTENT";
      }
      NewlinesNone(body);
      assert body + ['\n'] == t;
    }
  }

  /** A string without a newline character counts none. */
  lemma {:induction false} NewlinesNone(s: string)
    requires '\n' !in s
    ensures Newlines(s) == 0
  {
    if s != [] {
      NewlinesNone(s[..|s| - 1]);
    }
  }

  /** A run that completes over n chunks leaves a file of exactly n + 1
      newline-terminated lines, the last of them END_OF_CONTENT. */
  lemma CompletedRunText(event: map<string, Value>, library: ChunkStream, dumps: Value -> string)
    requires forall v :: '\n' !in dumps(v)
    requires HandlerOutcome(event, library).result.Ok?
    ensures Newlines(FileText(HandlerOutcome(event, library).lines, dumps)) == |library.chunks| + 1
    ensures var lines := HandlerOutcome(event, library).lines;
            FileText(lines, dumps) == FileText(FramedLines(library.chunks), dumps) + "END_OF_CONTENT\n"
  {
    var lines := HandlerOutcome(event, library).lines;
    FileTextLineCount(lines, dumps);
    assert lines[..|lines| - 1] == FramedLines(library.chunks);
  }
}
