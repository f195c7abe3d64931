/** The five sample graph classes, the stream_mode each one declares, and the
    streaming adapter they share. What the graphs compute is the graph
    library's business: the items its stream yields are an input here. */
module GraphSamples {
  import opened Values

  datatype GraphClass =
    | ValuesModeGraph
    | UpdatesModeGraph
    | MessagesModeGraph
    | EventsModeGraph
    | DebugModeGraph

  /** The class attribute stream_mode. EventsModeGraph declares none, so the
      lookup through the base class fails. */
  function StreamMode(c: GraphClass): Option<string> {
    match c
    case ValuesModeGraph => Some("values")
    case UpdatesModeGraph => Some("updates")
    case MessagesModeGraph => Some("messages")
    case EventsModeGraph => None
    case DebugModeGraph => Some("debug")
  }

  /** What a stream yields: some items, then either a normal end (`failure`
      is None) or the exception that ended it. */
  datatype ChunkStream = ChunkStream(chunks: seq<Value>, failure: Option<Error>)

  /** The largest timeout CPython's time.sleep can hold: it converts the
      seconds to a signed 64-bit count of nanoseconds. */
  const MaxSleepNanoseconds: int := 0x7FFF_FFFF_FFFF_FFFF

  /** Whether time.sleep accepts the value: a non-negative number whose
      nanosecond count fits in 64 bits, where a Python bool counts as the
      number 0 or 1. A negative number raises ValueError, a larger one
      OverflowError, anything that is not a number TypeError. */
  predicate SleepAccepted(t: Value) {
    match t
    case Int(n) => 0 <= n && n * 1_000_000_000 <= MaxSleepNanoseconds
    case Float(x) => 0.0 <= x && x * 1_000_000_000.0 <= MaxSleepNanoseconds as real
    case Bool(_) => true
    case _ => false
  }

  /** The bound in whole seconds: 9223372036 seconds sleep, one more overflows. */
  lemma SleepBound()
    ensures SleepAccepted(Int(9223372036))
    ensures !SleepAccepted(Int(9223372037))
    ensures !SleepAccepted(Int(-1))
  {
  }

  /** stream_graph: reads the class's stream_mode when the generator starts,
      then forwards every item the library yields, unchanged and in order,
      after sleeping `sleepTime`. `library` is what the compiled graph's
      stream yields for that mode. */
  function StreamGraph(c: GraphClass, library: ChunkStream, sleepTime: Value): (s: ChunkStream)
    ensures s.chunks <= library.chunks
    ensures s.failure.None? ==> s == library
    ensures StreamMode(c).Some? && SleepAccepted(sleepTime) ==> s == library
    ensures StreamMode(c).Some? && library.chunks == [] ==> s == library
    ensures StreamMode(c).None? ==> s.chunks == [] && s.failure == Some(MissingStreamMode)
    ensures StreamMode(c).Some? && !SleepAccepted(sleepTime) && library.chunks != [] ==>
              s.chunks == [] && s.failure == Some(SleepRejected)
  {
    if StreamMode(c).None? then ChunkStream([], Some(MissingStreamMode))
    else if !SleepAccepted(sleepTime) && |library.chunks| > 0 then ChunkStream([], Some(SleepRejected))
    else library
  }
}
