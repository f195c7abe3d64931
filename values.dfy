/** The values a chunk of streamed graph output is made of, the exceptions the
    handler can raise, and the Python semantics of list indexing the handler
    relies on. */
module Values {

  datatype Option<+T> = None | Some(value: T)

  datatype Result<+T> = Ok(value: T) | Err(error: Error)

  /** The exceptions that end a handler run or a graph invocation. */
  datatype Error =
    | IndexError            // graph_type_values[idx] with idx out of range
    | IndexTypeError        // graph_type_values[idx] with an idx that is not an integer
    | UnboundGraphClass     // UnboundLocalError: no branch bound graph_class
    | MissingStreamMode     // AttributeError: the graph class has no stream_mode
    | SleepRejected         // time.sleep refuses the sleep_time: ValueError, OverflowError or TypeError
    | NotSerializable       // json.dumps raises TypeError on the chunk
    | GraphFailure(reason: string)  // an exception raised inside the graph run

  /** A Python value as it occurs in a streamed chunk. Python's dict keeps its
      keys in insertion order; the model keeps only the key-value association. */
  datatype Value =
    | Human(content: string)        // a langchain HumanMessage
    | Dict(entries: map<string, Value>)
    | List(items: seq<Value>)
    | Tuple(elements: seq<Value>)   // a Python tuple: not a list to isinstance
    | Str(s: string)
    | Int(n: int)
    | Float(x: real)
    | Bool(b: bool)
    | Null
    | Opaque(className: string)     // any other object (an AIMessage, a datetime, ...)

  /** Python's `s[i]`: a negative index counts from the end, anything outside
      `-|s| <= i < |s|` raises IndexError. */
  function PyIndex<T>(s: seq<T>, i: int): (r: Option<T>)
    ensures r.Some? <==> -|s| <= i < |s|
    ensures 0 <= i < |s| ==> r == Some(s[i])
    ensures -|s| <= i < 0 ==> r == Some(s[|s| + i])
  {
    if 0 <= i < |s| then Some(s[i])
    else if -|s| <= i < 0 then Some(s[|s| + i])
    else None
  }

  /** An independent characterisation of Python indexing: `s[i]` is `x` exactly
      when `x` sits at some position `j` that `i` names either from the front
      (`i == j`) or from the back (`i == j - |s|`). */
  lemma PyIndexNamesPosition<T>(s: seq<T>, i: int, x: T)
    ensures PyIndex(s, i) == Some(x) <==>
            exists j :: 0 <= j < |s| && s[j] == x && (i == j || i == j - |s|)
  {
    if PyIndex(s, i) == Some(x) {
      var j := if i >= 0 then i else |s| + i;
      assert 0 <= j < |s| && s[j] == x && (i == j || i == j - |s|);
    }
  }

  /** What json.dumps accepts: strings, numbers, booleans, None, and dicts,
      lists and tuples (written as JSON arrays) built from them. A HumanMessage
      or any other object makes it raise TypeError. */
  predicate JsonSafe(v: Value) {
    match v
    case Human(_) => false
    case Opaque(_) => false
    case Dict(m) => forall k :: k in m ==> JsonSafe(m[k])
    case List(xs) => forall i :: 0 <= i < |xs| ==> JsonSafe(xs[i])
    case Tuple(xs) => forall i :: 0 <= i < |xs| ==> JsonSafe(xs[i])
    case _ => true
  }

  /** No HumanMessage is reachable through dicts and lists, the two containers
      the serialiser descends into (a tuple is not looked inside). */
  predicate HumanFree(v: Value) {
    match v
    case Human(_) => false
    case Dict(m) => forall k :: k in m ==> HumanFree(m[k])
    case List(xs) => forall i :: 0 <= i < |xs| ==> HumanFree(xs[i])
    case _ => true
  }

  /** A value the serialiser turns into something json.dumps accepts: a
      HumanMessage anywhere the serialiser reaches is fine, but what sits in a
      tuple, or is any other object, must already be JSON-safe. */
  predicate Convertible(v: Value) {
    match v
    case Human(_) => true
    case Opaque(_) => false
    case Dict(m) => forall k :: k in m ==> Convertible(m[k])
    case List(xs) => forall i :: 0 <= i < |xs| ==> Convertible(xs[i])
    case Tuple(xs) => forall i :: 0 <= i < |xs| ==> JsonSafe(xs[i])
    case _ => true
  }

  /** Everything json.dumps accepts holds no HumanMessage. */
  lemma {:induction false} JsonSafeIsHumanFree(v: Value)
    requires JsonSafe(v)
    ensures HumanFree(v)
  {
    match v
    case Dict(m) =>
      forall k | k in m ensures HumanFree(m[k]) { JsonSafeIsHumanFree(m[k]); }
    case List(xs) =>
      forall i | 0 <= i < |xs| ensures HumanFree(xs[i]) { JsonSafeIsHumanFree(xs[i]); }
    case _ =>
  }
}
