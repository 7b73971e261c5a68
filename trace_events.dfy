/**
 * The query object of `trace_event/trace_events.py`: a list of event dicts
 * with the pid and tid lists it has computed, and filters that each return a
 * new query object over the matching events.
 */
module TraceQuery {
  import opened Wrappers
  import opened Events

  datatype QueryError =
    | BothSources      // both a trace file and a non-empty event list
    | NoSource         // neither a trace file nor an event list
    | CorruptTrace     // the trace file did not parse (ValueError)
    | NoEventsEntry    // the parsed trace has no `"events"` entry (KeyError or TypeError)
    | NotIterable      // `events` has no `__iter__`
    | IndexOutOfRange  // list indexing outside the list

  /**
   * The `events` argument of the constructor, or the value found under
   * `"events"` in a trace file: absent (`None`), an object with `__iter__`
   * (a list, tuple, dict, set or generator) given by the events it yields,
   * or an object without `__iter__`. Each object carries its own Python truth
   * value: a list, tuple, dict or set is true when non-empty, a generator is
   * always true.
   */
  datatype EventsArg =
    | NoEvents
    | Iterable(items: seq<Event>, truthy: bool)
    | NotIterableObject(truthy: bool)

  /** Python truth value of the `events` argument. */
  predicate EventsTruthy(a: EventsArg)
  {
    match a
    case NoEvents => false
    case Iterable(_, truthy) => truthy
    case NotIterableObject(truthy) => truthy
  }

  /** Python truth value of the `trace_filename` argument. */
  predicate FileTruthy(f: Option<string>)
  {
    f.Some? && f.value != ""
  }

  /** Reading a trace file and taking `json.loads(t)["events"]`. */
  datatype Loaded =
    | Unparsable             // `json.loads` raises ValueError
    | MissingEvents          // the document has no `"events"` entry, or is not an object
    | Parsed(value: EventsArg)

  /** The final `hasattr(events, '__iter__')` check: the events an iterable yields, or NotIterable. */
  function CheckIterable(a: EventsArg): (r: Result<seq<Event>, QueryError>)
    ensures r.Success? <==> a.Iterable?
    ensures r.Success? ==> r.value == a.items
    ensures r.Failure? ==> r.error == NotIterable
  {
    if a.Iterable? then Success(a.items) else Failure(NotIterable)
  }

  /**
   * The checks and the loading of `TraceEvents.__init__`: the events the new
   * object will hold, or the error it raises. `load` reads a trace file and
   * takes its `"events"` entry.
   */
  function ConstructorEvents(events: EventsArg, traceFilename: Option<string>,
                             load: string -> Loaded): (r: Result<seq<Event>, QueryError>)
    ensures r == Failure(BothSources) <==> FileTruthy(traceFilename) && EventsTruthy(events)
    ensures r == Failure(NoSource) <==> !FileTruthy(traceFilename) && events.NoEvents?
    ensures FileTruthy(traceFilename) && !EventsTruthy(events) ==>
              match load(traceFilename.value)
              case Unparsable => r == Failure(CorruptTrace)
              case MissingEvents => r == Failure(NoEventsEntry)
              case Parsed(v) =>
                && (r.Success? <==> v.Iterable?)
                && (v.Iterable? ==> r.value == v.items)
                && (!v.Iterable? ==> r == Failure(NotIterable))
    ensures !FileTruthy(traceFilename) && !events.NoEvents? ==>
              && (r.Success? <==> events.Iterable?)
              && (events.Iterable? ==> r.value == events.items)
              && (!events.Iterable? ==> r == Failure(NotIterable))
  {
    if FileTruthy(traceFilename) && EventsTruthy(events) then Failure(BothSources)
    else if !FileTruthy(traceFilename) && events.NoEvents? then Failure(NoSource)
    else if FileTruthy(traceFilename) then
      match load(traceFilename.value)
      case Unparsable => Failure(CorruptTrace)
      case MissingEvents => Failure(NoEventsEntry)
      case Parsed(v) => CheckIterable(v)
    else CheckIterable(events)
  }

  /** What a filter compares: `e["pid"]`, `e["tid"]`, `e["ph"]` or `e["name"]`. */
  datatype Key = ProcessIs(pid: int) | ThreadIs(tid: int) | PhaseIs(ph: string) | NameIs(name: string)

  predicate Matches(e: Event, k: Key)
  {
    match k
    case ProcessIs(p) => e.pid == p
    case ThreadIs(t) => e.tid == t
    case PhaseIs(ph) => e.ph == ph
    case NameIs(n) => e.name == n
  }

  /** `r` is `s` with some elements deleted, the rest in their original order. */
  ghost predicate Subsequence<T>(r: seq<T>, s: seq<T>)
    decreases |s|
  {
    if s == [] then r == []
    else (r != [] && r[0] == s[0] && Subsequence(r[1..], s[1..])) || Subsequence(r, s[1..])
  }

  /** `[e for e in events if <key of e> == <value>]` */
  function Select(s: seq<Event>, k: Key): (r: seq<Event>)
    ensures Subsequence(r, s)
    ensures forall e :: e in r ==> Matches(e, k)
    ensures forall e :: multiset(r)[e] == if Matches(e, k) then multiset(s)[e] else 0
  {
    if s == [] then []
    else
      assert s == [s[0]] + s[1..];
      if Matches(s[0], k) then [s[0]] + Select(s[1..], k)
      else Select(s[1..], k)
  }

  lemma SelectCons(x: Event, s: seq<Event>, k: Key)
    ensures Select([x] + s, k) == if Matches(x, k) then [x] + Select(s, k) else Select(s, k)
  {
    assert ([x] + s)[0] == x && ([x] + s)[1..] == s;
  }

  /** Filtering twice by the same key filters once. */
  lemma {:induction false} SelectIdempotent(s: seq<Event>, k: Key)
    ensures Select(Select(s, k), k) == Select(s, k)
    decreases |s|
  {
    if s != [] {
      SelectIdempotent(s[1..], k);
      if Matches(s[0], k) {
        SelectCons(s[0], Select(s[1..], k), k);
      }
    }
  }

  /** Filters commute: the order of two filters does not change the result. */
  lemma {:induction false} SelectCommutes(s: seq<Event>, a: Key, b: Key)
    ensures Select(Select(s, a), b) == Select(Select(s, b), a)
    decreases |s|
  {
    if s != [] {
      SelectCommutes(s[1..], a, b);
      var t := s[1..];
      if Matches(s[0], a) {
        SelectCons(s[0], Select(t, a), b);
      }
      if Matches(s[0], b) {
        SelectCons(s[0], Select(t, b), a);
      }
    }
  }

  /** Which id `findProcessIds` or `findThreadIds` collects. */
  datatype IdField = Pid | Tid

  function IdOf(e: Event, field: IdField): int
  {
    match field
    case Pid => e.pid
    case Tid => e.tid
  }

  predicate NoDuplicates(s: seq<int>)
  {
    forall i, j :: 0 <= i < j < |s| ==> s[i] != s[j]
  }

  /** Python truth value of a cached id list: set and non-empty. */
  predicate CacheHit(c: Option<seq<int>>)
  {
    c.Some? && c.value != []
  }

  /**
   * The scan of `findProcessIds`/`findThreadIds`: add each event's id to a
   * set and list the set. The list here is in order of first occurrence;
   * Python's `list(set)` order is unspecified.
   */
  method CollectIds(events: seq<Event>, field: IdField) returns (ids: seq<int>)
    ensures NoDuplicates(ids)
    ensures forall x :: x in ids <==> exists e :: e in events && IdOf(e, field) == x
  {
    var seen: set<int> := {};
    ids := [];
    for i := 0 to |events|
      invariant forall x :: x in seen <==> x in ids
      invariant forall x :: x in ids <==> exists e :: e in events[..i] && IdOf(e, field) == x
      invariant NoDuplicates(ids)
    {
      assert events[..i + 1] == events[..i] + [events[i]];
      var id := IdOf(events[i], field);
      if id !in seen {
        seen := seen + {id};
        ids := ids + [id];
      }
    }
    assert events[..|events|] == events;
  }

  class TraceEvents {
    var events: seq<Event>
    var pids: Option<seq<int>>
    var tids: Option<seq<int>>

    /** The assignments ending `__init__`, once `ConstructorEvents` has succeeded. */
    constructor (events: seq<Event>)
      ensures this.events == events && pids == None && tids == None
    {
      this.events := events;
      pids := None;
      tids := None;
    }

    /** `__len__` */
    function Length(): (n: nat)
      reads this
      ensures n == |events|
    {
      |events|
    }

    /** `__getitem__(i)`: Python list indexing, negative indices counting from the end. */
    function GetItem(i: int): (r: Result<Event, QueryError>)
      reads this
      ensures r.Success? <==> -|events| <= i < |events|
      ensures r.Failure? ==> r.error == IndexOutOfRange
      ensures 0 <= i < |events| ==> r == Success(events[i])
      ensures -|events| <= i < 0 ==> r == Success(events[|events| + i])
    {
      if 0 <= i < |events| then Success(events[i])
      else if -|events| <= i < 0 then Success(events[|events| + i])
      else Failure(IndexOutOfRange)
    }

    /** `__setitem__(i, v)`: replaces one position; the id caches are left as they are. */
    method SetItem(i: int, v: Event) returns (r: Outcome<QueryError>)
      modifies this`events
      ensures r.Pass? <==> -|old(events)| <= i < |old(events)|
      ensures r.Fail? ==> r.error == IndexOutOfRange && events == old(events)
      ensures r.Pass? ==> events == old(events)[(if i < 0 then |old(events)| + i else i) := v]
      ensures pids == old(pids) && tids == old(tids)
    {
      if 0 <= i < |events| {
        events := events[i := v];
        r := Pass;
      } else if -|events| <= i < 0 {
        events := events[|events| + i := v];
        r := Pass;
      } else {
        r := Fail(IndexOutOfRange);
      }
    }

    /** `findProcessIds()`: a non-empty cached list is returned as is; otherwise rescan and cache. */
    method FindProcessIds() returns (ids: seq<int>)
      modifies this`pids
      ensures CacheHit(old(pids)) ==> ids == old(pids).value && pids == old(pids)
      ensures !CacheHit(old(pids)) ==>
                && pids == Some(ids)
                && NoDuplicates(ids)
                && forall p :: p in ids <==> exists e :: e in events && e.pid == p
    {
      if CacheHit(pids) {
        return pids.value;
      }
      ids := CollectIds(events, Pid);
      pids := Some(ids);
    }

    /** `findThreadIds()`: as `findProcessIds`, over `tid`. */
    method FindThreadIds() returns (ids: seq<int>)
      modifies this`tids
      ensures CacheHit(old(tids)) ==> ids == old(tids).value && tids == old(tids)
      ensures !CacheHit(old(tids)) ==>
                && tids == Some(ids)
                && NoDuplicates(ids)
                && forall t :: t in ids <==> exists e :: e in events && e.tid == t
    {
      if CacheHit(tids) {
        return tids.value;
      }
      ids := CollectIds(events, Tid);
      tids := Some(ids);
    }

    /** `findEventsOnProcess(pid)` */
    method FindEventsOnProcess(pid: int) returns (r: TraceEvents)
      ensures fresh(r) && r.events == Select(events, ProcessIs(pid)) && r.pids == None && r.tids == None
    {
      r := new TraceEvents(Select(events, ProcessIs(pid)));
    }

    /** `findEventsOnThread(tid)` */
    method FindEventsOnThread(tid: int) returns (r: TraceEvents)
      ensures fresh(r) && r.events == Select(events, ThreadIs(tid)) && r.pids == None && r.tids == None
    {
      r := new TraceEvents(Select(events, ThreadIs(tid)));
    }

    /** `findByPhase(ph)` */
    method FindByPhase(ph: string) returns (r: TraceEvents)
      ensures fresh(r) && r.events == Select(events, PhaseIs(ph)) && r.pids == None && r.tids == None
    {
      r := new TraceEvents(Select(events, PhaseIs(ph)));
    }

    /** `findByName(n)` */
    method FindByName(n: string) returns (r: TraceEvents)
      ensures fresh(r) && r.events == Select(events, NameIs(n)) && r.pids == None && r.tids == None
    {
      r := new TraceEvents(Select(events, NameIs(n)));
    }
  }
}
