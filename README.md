# Lambda file-based streaming: a Dafny model

This project models the core of a small AWS Lambda demo. The demo runs one of
five sample graphs of a graph-execution library and streams what that graph
yields into a file. The file holds one line per chunk, then an
`END_OF_CONTENT` sentinel line.

The model has four modules:

- `Values` (`values.dfy`): the Python values a chunk is made of, as the
  datatype `Value`. It covers HumanMessage, dict, list, tuple, str, int,
  float, bool, None and any other object. The module also defines the
  exceptions a run can raise, Python's list indexing (`PyIndex`), and three
  predicates: `JsonSafe` (json.dumps accepts the value), `HumanFree` (the
  serialiser finds no HumanMessage in it) and `Convertible` (the serialiser
  turns it into something JSON-safe).
- `Serializer` (`serializer.dfy`): `serialize_message` as the recursive
  function `Serialize`, with lemmas about its shape, its fixed points,
  idempotence and JSON-safety.
- `GraphSamples` (`graph_samples.dfy`): the five graph classes and the
  `stream_mode` each declares. It also models the `stream_graph` adapter
  (`StreamGraph`), which forwards the library's items unchanged.
- `LambdaHandler` (`lambda_handler.dfy`): the graph choices of `handler`
  (by `idx`) and of `invoke_graph` (by `graph_type`).
  - The output file is the class `OutputFile`, whose `lines` field the
    handler truncates and appends to.
  - The method `Handler` has the per-chunk writing loop. It is proved
    against the specification function `HandlerOutcome`.
  - Lemmas about the file's text complete the module.

The items the compiled graph streams are an input, `ChunkStream`. It holds
the chunks yielded plus, optionally, the exception that ended the stream.
How the library runs the graph is not visible and is not modelled.

Behaviour of the code that the model keeps:

- `graph_type_values[idx]` uses Python indexing. An `idx` from -5 to -1
  selects from the end of the list. A `bool` idx counts as 0 or 1. A
  non-integer idx raises TypeError. Any other idx raises IndexError before the
  file is opened, so the file is left as it was.
- `EventsModeGraph` declares no `stream_mode`. With idx 3 the handler opens
  (and so truncates) the file. The first iteration then raises
  AttributeError, which leaves the file empty with no sentinel. Both
  selection chains bind `EventsModeGraph`. The gaps are
  the missing `stream_mode`, and an unknown `graph_type` in `invoke_graph`,
  which leaves `graph_class` unbound. The model follows the code:
  `SelectGraphClass` returns `UnboundGraphClass` for an unknown name.
- A Python tuple is not a `list` to `isinstance`. So `serialize_message`
  returns a tuple unchanged, even with a HumanMessage inside it
  (`TupleKeepsHuman`). json.dumps then raises TypeError, and the handler stops
  before writing that chunk's line.
- `time.sleep` rejects a sleep time that is not a non-negative number, and
  one whose count of nanoseconds does not fit in a signed 64-bit integer
  (more than 9223372036 whole seconds). It first runs once the first item has been yielded. So a bad `sleep_time` fails
  a stream that yields at least one item, and leaves an empty stream alone.

## Model

| member | source | states |
|---|---|---|
| `Values.PyIndex` | lambda_handler.py:34 | list indexing succeeds exactly for `-len <= i < len`; a non-negative index picks that position, a negative one counts from the end |
| `Values.PyIndexNamesPosition` | lambda_handler.py:34 | `s[i]` is `x` exactly when `x` is at some position `j` with `i == j` or `i == j - len(s)` |
| `Values.JsonSafeIsHumanFree` | lambda_handler.py:56 | whatever json.dumps accepts holds no HumanMessage |
| `Serializer.Serialize` | lambda_handler.py:13-26 | the output is a dict exactly for a dict or HumanMessage input, a list exactly for a list input; every other value is returned unchanged; the output has no HumanMessage reachable through dicts and lists (a tuple is not looked inside) |
| `Serializer.SerializeHuman` | lambda_handler.py:15-17 | a HumanMessage with content `c` becomes exactly the two-field record `{"type": "HumanMessage", "content": c}` |
| `Serializer.SerializeDictKeywise` | lambda_handler.py:18-20 | a dict keeps its key set, and each value becomes the serialisation of the value under that key |
| `Serializer.SerializeListElementwise` | lambda_handler.py:21-23 | a list keeps its length and order, and element `i` becomes the serialisation of element `i` |
| `Serializer.TupleKeepsHuman` | lambda_handler.py:21-26 | any tuple with a HumanMessage element passes through unchanged and is then not JSON-serialisable |
| `Serializer.SerializeFixedIff` | lambda_handler.py:13-26 | a value is left unchanged exactly when the serialiser finds no HumanMessage in it |
| `Serializer.SerializeIdempotent` | lambda_handler.py:13-26 | serialising twice gives the same as serialising once |
| `Serializer.SerializeKeepsJsonSafe` | lambda_handler.py:13-26 | a plain structure that json.dumps already accepts is returned unchanged |
| `Serializer.SerializeJsonSafeIff` | lambda_handler.py:13-26 | the output is JSON-serialisable exactly when the input is convertible (no other objects anywhere, nothing unserialisable inside a tuple) |
| `GraphSamples.StreamGraph` | graph_samples.py:11-19 | the forwarded items are a prefix of the library's items, in order; with a declared stream_mode and an accepted sleep time everything is forwarded unchanged; a missing stream_mode fails before any item; a rejected sleep time fails before the first item, and an empty stream is passed on unchanged whatever the sleep time |
| `GraphSamples.SleepBound` | graph_samples.py:18 | `time.sleep` accepts 9223372036 seconds and rejects 9223372037 (OverflowError) and -1 (ValueError) |
| `LambdaHandler.AsIndex` | lambda_handler.py:31-34 | an int or a bool is usable as an index (an int as itself, `False` as 0, `True` as 1); anything else raises TypeError |
| `LambdaHandler.GraphTypeAt` | lambda_handler.py:30-34 | `["values","updates","messages","events","debug"][idx]` succeeds exactly for `-5 <= idx < 5`, picks the mode at `idx` (from the end when negative), and otherwise raises IndexError |
| `LambdaHandler.SelectGraphClass` | lambda_handler.py:124-133 | a class is bound exactly when the graph type is one of the five names, and the class bound is the one that name selects; anything else leaves graph_class unbound |
| `LambdaHandler.StreamModeMatchesName` | graph_samples.py:21-110 | every sample class except EventsModeGraph streams in the mode it is named for; EventsModeGraph declares none |
| `LambdaHandler.HandlerGraph` | lambda_handler.py:30-45 | a missing idx selects ValuesModeGraph; selection succeeds exactly for an integer idx in -5..4 and yields the class named at that index; a failure is TypeError exactly for a non-integer idx and IndexError otherwise; it never reaches the unbound case |
| `LambdaHandler.InvokeGraph` | lambda_handler.py:122-140 | a missing graph_type means "values"; an unknown graph type is an UnboundGraphClass error; on success the result is the stream of the class that name selects (so "events" fails with MissingStreamMode when iterated), a prefix of the library's items |
| `LambdaHandler.FirstUnsafe` | lambda_handler.py:54-57 | the position of the first chunk whose serialisation json.dumps refuses: every earlier one is accepted, and the one there (if any) is not |
| `LambdaHandler.HandlerOutcome` | lambda_handler.py:28-61 | the file is opened exactly when graph selection succeeds; the lines written are always a prefix of the complete file (one framed serialised chunk per item, in stream order, then the sentinel); the run returns normally exactly when it wrote the complete file, and exactly when the graph has a stream mode, the stream ends normally, the sleep time is accepted (or nothing is yielded) and every chunk is convertible; the sentinel appears exactly on success; every framed line is JSON-serialisable; on each failure path the lines left and the exception are fixed: a missing stream_mode leaves no lines and raises AttributeError, a rejected sleep time over a non-empty stream leaves no lines, a chunk json.dumps refuses leaves the framed lines of the chunks before it, and a failing stream leaves the framed lines of every chunk it yielded and re-raises its exception |
| `LambdaHandler.OverlongSleepFails` | graph_samples.py:18 | with idx 0, a sleep time of 10^10 seconds and one yielded chunk, the file is opened and left empty and the run raises (OverflowError from time.sleep) |
| `LambdaHandler.Handler` | lambda_handler.py:28-61 | the returned result and the final file are those of `HandlerOutcome`; a run that fails before opening leaves the file unchanged |
| `LambdaHandler.OutputFile.Open` | lambda_handler.py:53 | opening for writing empties the file |
| `LambdaHandler.OutputFile.Write` | lambda_handler.py:57-58 | a write appends exactly one line |
| `LambdaHandler.LineText` | lambda_handler.py:56-60 | every line written ends in a newline |
| `LambdaHandler.FileTextLineCount` | lambda_handler.py:53-61 | if json.dumps writes no raw newline, the file text has exactly one newline per line written |
| `LambdaHandler.CompletedRunText` | lambda_handler.py:53-61 | a completed run over `n` chunks leaves exactly `n + 1` newline-terminated lines, the text of the framed chunks followed by `END_OF_CONTENT\n` |

## Left out

- Graph construction and execution (`StateGraph`, `add_node`, `add_edge`, `compile`, `app.stream`, and the module-level `create_graph` at lambda_handler.py:78-111) belong to the graph library, whose semantics are not visible here. The streamed items are an input (`ChunkStream`).
- The text json.dumps produces is a foreign library call. A line is `Line.Framed(v)`, meaning `{"output": v}`. Only whether json.dumps raises is modelled (`JsonSafe`). The text lemmas take the encoder as a parameter, with the hypothesis that it writes no raw newline.
- The length of the `time.sleep` and `asyncio.sleep` delays, and the wall clock in `current_time_node`, are timing with no stateable contract. Only whether `time.sleep` accepts its argument is kept.
- Real file I/O and `flush` are not modelled. The file is the `lines` field of `OutputFile`, and `Write` covers a write together with its flush.
- `local_test.py` is a network client (a boto3 streaming invocation with console printing) and is left out.
- `invoke_lambda` (lambda_handler.py:113-120) calls `handler` without `file_path` and iterates its `None` result. It can only raise, so it is left out. The `__main__` call (lambda_handler.py:143) omits `file_path` too and is left out.
- The `Logger` setup and `print_with_sleep` are console output.
- Python dicts keep insertion order, and json.dumps writes keys in that order. The model's `Dict` is a `map`, so key order is not captured.
- A HumanMessage's content may be a list of content blocks in the library. The model takes it to be a string.
- `create_graph()` and `compile()` (lambda_handler.py:46-47) are library calls assumed not to raise: the model has no failure between graph selection and opening the file, so "the file is opened exactly when graph selection succeeds" rests on that assumption.
- Dict keys are strings only (`Dict(entries: map<string, Value>)`). Python dicts may have other keys; json.dumps converts int, float, bool and None keys to strings and raises TypeError on any other key. Neither behaviour is modelled.
- SleepAccepted: for a float sleep time the overflow bound is compared exactly (`x * 10^9 <= 2^63 - 1`); CPython's floating-point rounding right at that bound is not modelled.
- Python numbers are unbounded ints and floats. A float is a `real`, so NaN and infinities are not represented.
- A HumanMessage subclass, and dict or list subclasses, are not distinguished from their base classes.
