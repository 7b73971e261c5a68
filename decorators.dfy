/**
 * The first decorator revision, `trace_event/decorators.py`: `trace` names
 * its span after the function, `tracedmethod` after the class of the first
 * call's `self` and the method, and remembers that name. Neither emits End
 * when the wrapped call raises.
 */
module Decorators {
  import opened Wrappers
  import opened Events
  import opened Log
  import opened Spans
  import opened PyFunctions

  /** The wrapper `trace` returns. */
  datatype TraceWrapper = TraceWrapper(func: FuncInfo)

  /** `trace(func)`: rejects generator functions when decorating. */
  function Trace(f: FuncInfo): (r: Result<TraceWrapper, DecorateError>)
    ensures r.Failure? <==> f.isGenerator
    ensures r.Failure? ==> r.error == GeneratorRejected
    ensures r.Success? ==> r.value.func == f
  {
    if f.isGenerator then Failure(GeneratorRejected) else Success(TraceWrapper(f))
  }

  /** The span one call of a `trace` wrapper makes: named after `func.__name__`, empty-list args. */
  function TraceSpan(w: TraceWrapper, start: real, body: seq<Step>, outcome: CallOutcome, end: real): Span
  {
    Span(EndOnReturn, w.func.name, EmptyList, start, body, outcome, end)
  }

  /**
   * A `trace` span opens with Begin under the function's name; a normal
   * return closes it with End under the same name, a raise adds nothing
   * after the body's own records.
   */
  lemma TraceSpanEvents(w: TraceWrapper, start: real, body: seq<Step>, outcome: CallOutcome, end: real)
    ensures var s := TraceSpan(w, start, body, outcome, end);
            var recs := SpanRecords(s);
            && recs[0] == Record("B", start, Category, w.func.name, EmptyList)
            && (outcome.Returned? ==> recs[|recs| - 1] == Record("E", end, Category, w.func.name, EmptyList))
            && (outcome.Raised? ==> |recs| == 1 + |BodyRecords(s, 0)|)
  {
  }

  /**
   * `traced_function(*args, **kwargs)` of `trace`, called on thread `tid`;
   * `start`/`end` are the clock readings and `body`/`outcome` what `func`
   * does and how it ends.
   */
  method CallTrace(log: TraceLog, w: TraceWrapper, tid: int, start: real,
                   body: seq<Step>, outcome: CallOutcome, end: real) returns (o: CallOutcome)
    requires log.Valid()
    modifies log
    ensures log.Valid()
    ensures log.enabled == old(log.enabled) && log.logFile == old(log.logFile)
    ensures log.logFileOwner == old(log.logFileOwner)
    ensures o == outcome
    ensures log.curEvents == old(log.curEvents)
              + (if log.enabled then StampAll(SpanRecords(TraceSpan(w, start, body, outcome, end)), log.pid, tid) else [])
  {
    o := RunSpan(log, tid, TraceSpan(w, start, body, outcome, end));
  }

  /** The wrapper `tracedmethod` returns, with its one-cell name cache `fname`. */
  class MethodTracer {
    const func: FuncInfo
    var fname: Option<string>

    constructor (f: FuncInfo)
      ensures func == f && fname == None
    {
      func := f;
      fname := None;
    }

    /** `tracedmethod(classmethod)`: rejects generator functions when decorating. */
    static method Decorate(f: FuncInfo) returns (r: Result<MethodTracer, DecorateError>)
      ensures r.Failure? <==> f.isGenerator
      ensures r.Failure? ==> r.error == GeneratorRejected
      ensures r.Success? ==> fresh(r.value) && r.value.func == f && r.value.fname == None
    {
      if f.isGenerator {
        return Failure(GeneratorRejected);
      }
      var m := new MethodTracer(f);
      r := Success(m);
    }

    /**
     * `traced_method(*args, **kwargs)` on thread `tid`. When enabled, the
     * first call fixes the name from `args[0]`'s class; a call with no
     * positional arguments before that raises IndexError and records nothing.
     */
    method Call(log: TraceLog, args: seq<Value>, tid: int, start: real,
                body: seq<Step>, outcome: CallOutcome, end: real) returns (o: CallOutcome)
      requires log.Valid()
      modifies this, log
      ensures log.Valid()
      ensures log.enabled == old(log.enabled) && log.logFile == old(log.logFile)
      ensures log.logFileOwner == old(log.logFileOwner)
      ensures old(fname).Some? ==> fname == old(fname)
      ensures !log.enabled ==> o == outcome && fname == old(fname) && log.curEvents == old(log.curEvents)
      ensures log.enabled && old(fname).None? && args == [] ==>
                o == Raised(IndexErrorValue) && fname == None && log.curEvents == old(log.curEvents)
      ensures log.enabled && (old(fname).Some? || args != []) ==>
                && fname == Some(if old(fname).Some? then old(fname).value else QualifiedName(ClassName(args[0]), func.name))
                && o == outcome
                && log.curEvents == old(log.curEvents)
                     + StampAll(SpanRecords(Span(EndOnReturn, fname.value, EmptyList, start, body, outcome, end)), log.pid, tid)
    {
      if !log.enabled {
        o := RunSpan(log, tid, Span(EndOnReturn, func.name, EmptyList, start, body, outcome, end));
        return;
      }
      if fname.None? {
        if args == [] {
          return Raised(IndexErrorValue);
        }
        fname := Some(QualifiedName(ClassName(args[0]), func.name));
      }
      o := RunSpan(log, tid, Span(EndOnReturn, fname.value, EmptyList, start, body, outcome, end));
    }
  }

  /** Once a call has fixed the name, later calls keep it whatever their `self`. */
  method CallTwice(log: TraceLog, m: MethodTracer, first: seq<Value>, second: seq<Value>, tid: int,
                   start: real, body: seq<Step>, outcome: CallOutcome, end: real)
    requires log.Valid() && log.enabled && first != []
    modifies log, m
    ensures m.fname == Some(if old(m.fname).Some? then old(m.fname).value else QualifiedName(ClassName(first[0]), m.func.name))
  {
    var _ := m.Call(log, first, tid, start, body, outcome, end);
    var _ := m.Call(log, second, tid, start, body, outcome, end);
  }
}
