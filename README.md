# py_trace_event in Dafny

A model of the recording core of py_trace_event, a Python library that
records named spans of work as trace events and writes them to a JSON trace
file. The model covers four parts:

- **The event log** (`trace_event/log.py`). The module-wide state is the
  `Log.TraceLog` class: the enabled flag, the open log file, the owner flag,
  the buffer of event dicts and the pid read at load time. It has four
  operations: enable, record, flush and disable. The file is a
  `Log.LogFile` object that holds the text written to it and whether it is
  closed. The caller keeps the file after disabling, as in Python.
  `json.dumps` is the injected function `dumps`.
- **The query object** (`trace_event/trace_events.py`). `TraceQuery` models
  the constructor's checks, Python-style indexing, the pid/tid scans with
  their caches, and the four filters. Each filter is one `Select` over a
  `Key`.
- **The span decorators.** `Spans` describes one call of a decorated
  function as a `Span`. A span holds its name, its captured arguments, its
  clock readings, the body's own steps and how the body ends. `RunSpan` plays
  a span against the log. `Decorators` models `trace` and `tracedmethod`
  from `trace_event/decorators.py`: End is emitted only after a normal
  return. `ImplDecorators` models `traced` from
  `trace_event_impl/decorators.py`: it captures arguments, names the span by
  class or module, and emits End in a `finally` block.

The model follows the code as written, including these cases:

- Every successful enable writes the header `{"events": [`. The owner flag
  only records whether the file was empty.
- Every disable of an enabled log writes the footer `]}`, whether or not
  this process owns the file.
- Two flushes write their blocks with no comma between them
  (`Log.FlushesDropSeparator`). When events are recorded both before and
  after an explicit flush, the file is therefore not one well-formed JSON
  list.
- Calling `trace_flush` on a log that has no open file dereferences `None`.
  The model returns `NoLogFile` for this. Only the fallback `trace_flush`
  of `trace_event.py` (lines 97-98), used when the implementation is
  missing, does nothing.
- With no file given, enable opens `argv[0] + ".json"` for writing. This
  truncates the file, so this process always becomes the owner.
- `arg_spec_tuple` raises on a function with no defaults, because it
  computes `len(None)`. It also raises on a name that is not a parameter.
  Both errors surface when decorating.
- `get_arg_value` never takes the value at position 0 from the positional
  arguments.
- `tracedmethod` fixes its name on the first enabled call and keeps it. A
  first call with no positional argument raises `IndexError` before
  recording anything.

Inputs from the environment are parameters: the calling thread's ident,
clock readings, `sys.argv[0]`, the reader and parser of a trace file, and
the pid read at load time.

## Model

| member | source | states |
|---|---|---|
| `Log.TraceLog.constructor` | trace_event/log.py:14-23 | At import the log is disabled, has no file, is not the owner, has an empty buffer, and has the pid fixed. |
| `Log.TraceLog.Enable` | trace_event/log.py:35-61 | Enabling while enabled fails with AlreadyEnabled and changes nothing. Otherwise the log becomes enabled. With no file it opens a fresh, truncated `argv0 + ".json"`. The caller is owner iff the file was empty. The header is appended whether or not the caller is owner. |
| `Log.TraceLog.AddTraceEvent` | trace_event/log.py:97-106 | Disabled: the buffer is unchanged. Enabled: exactly one event is appended at the end, with the given ph/category/ts/name/args, the load-time pid and the caller's tid. |
| `Log.TraceLog.FlushBuffer` | trace_event/log.py:82-95 | The file gains exactly the comma-joined dumps of the buffer, with no leading separator, plus the footer when closing. The buffer is emptied. Closing closes the file and forgets it. The enabled flag is untouched. |
| `Log.TraceLog.Flush` | trace_event/log.py:63-68 | It fails with NoLogFile exactly when the log is disabled. Otherwise it appends the joined buffer, empties the buffer and stays enabled with the same file. |
| `Log.TraceLog.Disable` | trace_event/log.py:70-80 | When disabled it changes nothing. Otherwise it disables, appends the joined buffer and the footer whatever the owner flag is, closes the file and drops it. |
| `Log.RecordSession` | trace_event/trace_test.py:20-34 | Enable on a file, record n events on one thread, then disable. The file gains header + join(",", dumps of e1..en in order) + footer and ends closed. The caller is owner iff the file was empty. |
| `Log.FlushesDropSeparator` | trace_event/log.py:82-87 | One flush of two non-empty batches writes a comma between them. Two separate flushes write the same text without that comma, so the two results differ. |
| `Events.JoinSplit` | trace_event/log.py:86 | Joining a concatenation of two non-empty lists puts exactly one separator between the two joined halves. |
| `TraceQuery.ConstructorEvents` | trace_event/trace_events.py:8-34 | Two error cases hold in both directions. A truthy file name with truthy events fails with BothSources. A falsy file name with `events == None` fails with NoSource. With a file and falsy events, an unparsable file fails with CorruptTrace and a document without `"events"` fails with NoEventsEntry. Otherwise the loaded value, or with no file the `events` argument, succeeds iff it has `__iter__` (list, tuple, dict, set, generator), giving the events it yields, and fails with NotIterable otherwise. |
| `TraceQuery.CheckIterable` | trace_event/trace_events.py:32-33 | An argument passes iff it has `__iter__`, giving exactly the events it yields. Otherwise it fails with NotIterable. |
| `TraceQuery.TraceEvents.constructor` | trace_event/trace_events.py:34-36 | The object stores the events and leaves both caches unset. |
| `TraceQuery.TraceEvents.Length` | trace_event/trace_events.py:38-39 | The length is the number of events. |
| `TraceQuery.TraceEvents.GetItem` | trace_event/trace_events.py:41-42 | It succeeds iff -len <= i < len. A negative index counts from the end. Out of range gives IndexOutOfRange. |
| `TraceQuery.TraceEvents.SetItem` | trace_event/trace_events.py:44-45 | Only the indexed position changes, with negative indices allowed. Out of range changes nothing. The caches are not invalidated. |
| `TraceQuery.CollectIds` | trace_event/trace_events.py:53-56 | The returned list has no duplicates, and x is in it iff some event has that id. |
| `TraceQuery.TraceEvents.FindProcessIds` | trace_event/trace_events.py:50-57 | A non-empty cached list is returned as is. Otherwise the events are rescanned: the distinct pids, each exactly once, are cached and returned. An empty result is stored but counts as not cached. |
| `TraceQuery.TraceEvents.FindThreadIds` | trace_event/trace_events.py:59-66 | Same as FindProcessIds, for tids. |
| `TraceQuery.Select` | trace_event/trace_events.py:68-78 | The result is a subsequence of the events in their original order. Each event appears exactly as often as in the input if it matches the key, otherwise not at all. |
| `TraceQuery.SelectIdempotent` | trace_event/trace_events.py:68-78 | Applying a filter twice gives the same result as applying it once. |
| `TraceQuery.SelectCommutes` | trace_event/trace_events.py:68-78 | Two filters commute, e.g. by thread then phase equals by phase then thread. |
| `TraceQuery.TraceEvents.FindEventsOnProcess` | trace_event/trace_events.py:68-69 | Returns a fresh query object over the events with that pid, with both caches unset. |
| `TraceQuery.TraceEvents.FindEventsOnThread` | trace_event/trace_events.py:71-72 | Returns a fresh query object over the events with that tid, with both caches unset. |
| `TraceQuery.TraceEvents.FindByPhase` | trace_event/trace_events.py:74-75 | Returns a fresh query object over the events with that phase, with both caches unset. |
| `TraceQuery.TraceEvents.FindByName` | trace_event/trace_events.py:77-78 | Returns a fresh query object over the events with that name, with both caches unset. |
| `Spans.RunSpan` | trace_event/decorators.py:26-33 | The call's outcome passes through unchanged. A disabled log records nothing. An enabled log gains exactly the span's records (Begin, the body's records, End as the style allows), stamped with pid and tid. The session state is unchanged. |
| `Spans.RunBody` | trace_event/decorators.py:30 | The body's steps run in order, and the log gains exactly their records when enabled. |
| `Spans.ClosedSpanBalanced` | trace_event/single_thread_test.py:32-54 | When every nested call ends with End, each End closes the innermost open Begin of the same name, and the span leaves the open spans as they were. |
| `Spans.RaisingSpanLeavesBeginOpen` | trace_event/decorators.py:29-32 | A call that raises under `trace`/`tracedmethod` leaves its own Begin unmatched, and nothing else. |
| `Spans.FinallySpanCloses` | trace_event_impl/decorators.py:68-73 | Spans made only of `traced` calls close whatever their bodies return or raise. |
| `Spans.NestedCallOrder` | trace_event/single_thread_test.py:32-54 | An outer call whose body calls one inner call records B outer, B inner, E inner, E outer. |
| `Decorators.Trace` | trace_event/decorators.py:13-20 | Decoration fails iff the function is a generator function. Otherwise it wraps that function. |
| `Decorators.TraceSpanEvents` | trace_event/decorators.py:28-33 | Begin carries `func.__name__`. A normal return ends with End under the same name. A raise adds nothing after the body's records. |
| `Decorators.CallTrace` | trace_event/decorators.py:24-34 | The result or exception passes through. The log gains the `trace` span's records when enabled, and nothing when disabled. |
| `Decorators.MethodTracer.constructor` | trace_event/decorators.py:44-45 | A new wrapper has an empty name cache. |
| `Decorators.MethodTracer.Decorate` | trace_event/decorators.py:36-45 | Decoration fails iff the method is a generator function. Otherwise it returns a fresh wrapper with an empty cache. |
| `Decorators.MethodTracer.Call` | trace_event/decorators.py:47-58 | Disabled: a plain call, with the cache untouched. Enabled: the first call caches `Class.method` from `args[0]`, and a set cache is kept. With no positional argument and no cache, it raises IndexError and records nothing. Otherwise the log gains the span's records under the cached name. |
| `Decorators.CallTwice` | trace_event/decorators.py:51-54 | After two enabled calls, the name is the one the first call fixed, whatever class the second call's `self` has. |
| `ImplDecorators.IndexOf` | trace_event_impl/decorators.py:32 | Returns the first position of the name in the parameter list. |
| `ImplDecorators.ArgSpecTuple` | trace_event_impl/decorators.py:31-38 | It succeeds iff the name is a parameter and the function declares defaults. Otherwise it fails with NotAParameter or NoDefaults. On success the index is the first position, and the default is the one aligned with the last parameters, or None before them. |
| `ImplDecorators.ArgsToLog` | trace_event_impl/decorators.py:40 | It succeeds iff every name succeeds, with one spec per name in order. Otherwise it fails with the error of the first failing name. |
| `ImplDecorators.GetWrapper` | trace_event_impl/decorators.py:22-42 | A generator function is rejected. Otherwise it succeeds iff every captured name resolves. The wrapper is a method iff the first parameter is `self`. Its captured specs are exactly `ArgsToLog` of the names, so they carry each name's index and default. With no names it captures nothing. |
| `ImplDecorators.Traced` | trace_event_impl/decorators.py:76-82 | It wraps at once iff given a single callable, and then holds `get_wrapper` of that callable with no captured names. Otherwise it returns a decorator that captures exactly the given arguments. |
| `ImplDecorators.TracedBare` | trace_event_impl/decorators.py:76-79 | `traced(f)` on a non-generator wraps f and captures no arguments. |
| `ImplDecorators.TracedWithNames` | trace_event_impl/decorators.py:80-82 | `traced("a", "b")` returns a decorator. Applied to a function that has a, b and defaults, it captures a then b. |
| `ImplDecorators.GetArgValue` | trace_event_impl/decorators.py:49-55 | A keyword argument wins. Next comes `args[index]`, only for 0 < index < len(args). Otherwise the default is used, so position 0 never comes from the positional arguments. |
| `ImplDecorators.ArgValues` | trace_event_impl/decorators.py:63-65 | The keys are exactly the captured names. |
| `ImplDecorators.ArgValuesLastWins` | trace_event_impl/decorators.py:63-65 | Each captured name maps to the repr of its value from its last entry. |
| `ImplDecorators.SpanName` | trace_event_impl/decorators.py:57-60 | A method is named `Class.func` from `args[0]`. A method with no positional argument raises, giving None. A plain function is named `module.func`. |
| `ImplDecorators.TracedSpanEvents` | trace_event_impl/decorators.py:62-73 | Begin and End both carry the span name and the same argument dict, captured before the body ran. End is present whatever the outcome. |
| `ImplDecorators.CallTraced` | trace_event_impl/decorators.py:43-73 | Disabled: a plain call with no events. Enabled, for a method with no positional argument: IndexError and no events. Otherwise the outcome passes through and the log gains the `traced` span's records. |

## Left out

- Locking: the `threading.Lock` of `_locked` and `fcntl.lockf` exist for mutual exclusion across threads and processes. Every operation is one atomic step here.
- Fork and process lifecycle: the exit hook `atexit.register(trace_disable)` and `multiprocessing` children are not modelled. The pid is a constant fixed at construction.
- File I/O failures (open, write or close raising) are not modelled. Enable requires an open file.
- JSON: `json.dumps` is the injected function `dumps`. Reading and parsing a trace file is the parameter `load` of `TraceQuery.ConstructorEvents`, which reports a parse failure, a document without `"events"`, or the value found there. JSON parsing is not modelled.
- TraceQuery.ConstructorEvents: errors while opening or reading the trace file (IOError) are not modelled. The ValueError caught at `trace_events.py:27` is `Unparsable`. The KeyError for a missing `"events"` entry and the TypeError for a document that is not an object are both `MissingEvents`.
- TraceQuery.TraceEvents.constructor: an iterable `events` argument is held as the sequence of events it yields. Python keeps the object itself, so `len` and indexing on a set or generator, which raise in Python, are not modelled.
- Clocks and identity: `time.time()` readings, the thread ident and `sys.argv[0]` are parameters. Timestamps are opaque reals, so the timing checks of the tests are not modelled.
- A wrapped function's body is given as its steps and its outcome. The body does not enable, disable or flush the log itself.
- Function metadata (`inspect.getargspec`, `isgeneratorfunction`, `__name__`, `__module__`, `functools.wraps`) is an input record.
- TraceQuery.TraceEvents.constructor: the events are a value, not the caller's list. Python shares the list, so `__setitem__` there also changes the caller's list; the model does not capture that aliasing.
- TraceQuery.CollectIds: the ids are listed in order of first occurrence. Python's `list(set)` order is unspecified.
- `TraceEvents.__repr__` is formatting only. Slice indexing in `__getitem__` is not modelled.
- The `trace` context manager in `trace_event_impl/decorators.py` is not modelled: it uses an undefined `category`, so it always fails. The unreachable `trace_generator` line in `tracedmethod` is also not modelled.
- The import shim `trace_event.py` is not part of this model. It only forwards to the implementation or does nothing.
