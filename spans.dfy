/**
 * What a traced call does to the log. A call of a decorated function is a
 * span: its name and captured arguments, the clock readings taken before and
 * after the body, the body's own steps (events it records directly and calls
 * of other decorated functions), and how the body ends. Both decorator
 * revisions emit a Begin event, run the body, and emit an End event; they
 * differ only in whether the End event is also emitted when the body raises.
 */
module Spans {
  import opened Wrappers
  import opened Events
  import opened Log

  /** The category every decorator records. */
  const Category: string := "python"

  /** A Python call either returns a value or raises an exception object. */
  datatype CallOutcome = Returned(value: Value) | Raised(error: Value)

  /** The `IndexError` raised by `args[0]` on a call with no positional arguments. */
  const IndexErrorValue: Value := Obj("IndexError", "IndexError('tuple index out of range',)")

  datatype Style =
    | EndOnReturn    // `trace`, `tracedmethod`: End only after a normal return
    | EndInFinally   // `traced`: End in a `finally` block

  datatype Step = Direct(rec: Record) | Nested(span: Span)

  datatype Span = Span(style: Style, name: string, args: Args, start: real,
                       body: seq<Step>, outcome: CallOutcome, end: real)

  function Begin(s: Span): Record
  {
    Record("B", s.start, Category, s.name, s.args)
  }

  function End(s: Span): Record
  {
    Record("E", s.end, Category, s.name, s.args)
  }

  predicate EmitsEnd(s: Span)
  {
    s.style == EndInFinally || s.outcome.Returned?
  }

  /** The records an enabled log receives for one traced call, in order. */
  function SpanRecords(s: Span): seq<Record>
    decreases s, |s.body| + 1
  {
    [Begin(s)] + BodyRecords(s, 0) + (if EmitsEnd(s) then [End(s)] else [])
  }

  /** The records of the body steps of `s` from position `i` on. */
  function BodyRecords(s: Span, i: nat): seq<Record>
    requires i <= |s.body|
    decreases s, |s.body| - i
  {
    if i == |s.body| then []
    else
      (match s.body[i]
       case Direct(r) => [r]
       case Nested(t) => SpanRecords(t))
      + BodyRecords(s, i + 1)
  }

  /**
   * Replays begin/end records against a stack of open span names: a Begin
   * pushes its name, an End must close the innermost open span (None if it
   * does not), any other phase is ignored.
   */
  function Replay(open: seq<string>, recs: seq<Record>): Option<seq<string>>
    decreases |recs|
  {
    if recs == [] then Some(open)
    else if recs[0].ph == "B" then Replay(open + [recs[0].name], recs[1..])
    else if recs[0].ph == "E" then
      if open != [] && open[|open| - 1] == recs[0].name then Replay(open[..|open| - 1], recs[1..])
      else None
    else Replay(open, recs[1..])
  }

  /** Replaying a concatenation replays the first part and continues from where it left the stack. */
  lemma {:induction false} ReplayAppend(open: seq<string>, a: seq<Record>, b: seq<Record>)
    ensures Replay(open, a + b) == match Replay(open, a)
                                   case None => None
                                   case Some(o) => Replay(o, b)
    decreases |a|
  {
    if a != [] {
      assert (a + b)[0] == a[0] && (a + b)[1..] == a[1..] + b;
      if a[0].ph == "B" {
        ReplayAppend(open + [a[0].name], a[1..], b);
      } else if a[0].ph == "E" {
        if open != [] && open[|open| - 1] == a[0].name {
          ReplayAppend(open[..|open| - 1], a[1..], b);
        }
      } else {
        ReplayAppend(open, a[1..], b);
      }
    } else {
      assert a + b == b;
    }
  }

  /** Every call in the span emits its End and the body records no Begin or End of its own. */
  predicate Closes(s: Span)
    decreases s, |s.body| + 1
  {
    EmitsEnd(s) && BodyCloses(s, 0)
  }

  predicate BodyCloses(s: Span, i: nat)
    requires i <= |s.body|
    decreases s, |s.body| - i
  {
    i == |s.body| ||
    ((match s.body[i]
      case Direct(r) => r.ph != "B" && r.ph != "E"
      case Nested(t) => Closes(t))
     && BodyCloses(s, i + 1))
  }

  /** A closing span brackets its body: replaying it leaves the open spans as they were. */
  lemma {:induction false} ClosedSpanBalanced(open: seq<string>, s: Span)
    requires Closes(s)
    ensures Replay(open, SpanRecords(s)) == Some(open)
    decreases s, |s.body| + 1
  {
    var inner := open + [s.name];
    BodyBalanced(inner, s, 0);
    ReplayAppend(open, [Begin(s)], BodyRecords(s, 0) + [End(s)]);
    ReplayAppend(inner, BodyRecords(s, 0), [End(s)]);
    assert inner[..|inner| - 1] == open;
    assert SpanRecords(s) == [Begin(s)] + (BodyRecords(s, 0) + [End(s)]);
  }

  lemma {:induction false} BodyBalanced(open: seq<string>, s: Span, i: nat)
    requires i <= |s.body| && BodyCloses(s, i)
    ensures Replay(open, BodyRecords(s, i)) == Some(open)
    decreases s, |s.body| - i
  {
    if i < |s.body| {
      match s.body[i] {
        case Direct(r) =>
          ReplayAppend(open, [r], BodyRecords(s, i + 1));
        case Nested(t) =>
          ClosedSpanBalanced(open, t);
          ReplayAppend(open, SpanRecords(t), BodyRecords(s, i + 1));
      }
      BodyBalanced(open, s, i + 1);
    }
  }

  /** A call that raises without a `finally` leaves its own Begin open and nothing else. */
  lemma RaisingSpanLeavesBeginOpen(open: seq<string>, s: Span)
    requires s.style == EndOnReturn && s.outcome.Raised? && BodyCloses(s, 0)
    ensures Replay(open, SpanRecords(s)) == Some(open + [s.name])
  {
    BodyBalanced(open + [s.name], s, 0);
    ReplayAppend(open, [Begin(s)], BodyRecords(s, 0));
    assert SpanRecords(s) == [Begin(s)] + BodyRecords(s, 0);
  }

  /** Every call in the span ends in a `finally`, and the body records no Begin or End of its own. */
  predicate AllFinally(s: Span)
    decreases s, |s.body| + 1
  {
    s.style == EndInFinally && BodyAllFinally(s, 0)
  }

  predicate BodyAllFinally(s: Span, i: nat)
    requires i <= |s.body|
    decreases s, |s.body| - i
  {
    i == |s.body| ||
    ((match s.body[i]
      case Direct(r) => r.ph != "B" && r.ph != "E"
      case Nested(t) => AllFinally(t))
     && BodyAllFinally(s, i + 1))
  }

  /** With End in `finally`, spans close whatever their bodies return or raise. */
  lemma {:induction false} FinallySpanCloses(s: Span)
    requires AllFinally(s)
    ensures Closes(s)
    decreases s, |s.body| + 1
  {
    FinallyBodyCloses(s, 0);
  }

  lemma {:induction false} FinallyBodyCloses(s: Span, i: nat)
    requires i <= |s.body| && BodyAllFinally(s, i)
    ensures BodyCloses(s, i)
    decreases s, |s.body| - i
  {
    if i < |s.body| {
      match s.body[i] {
        case Direct(r) =>
        case Nested(t) => FinallySpanCloses(t);
      }
      FinallyBodyCloses(s, i + 1);
    }
  }

  /** An outer call whose body only calls an inner one: B outer, B inner, E inner, E outer. */
  lemma NestedCallOrder(outer: Span, inner: Span)
    requires outer.body == [Nested(inner)] && inner.body == []
    requires EmitsEnd(outer) && EmitsEnd(inner)
    ensures SpanRecords(outer) == [Begin(outer), Begin(inner), End(inner), End(outer)]
  {
    assert BodyRecords(inner, 0) == [];
    assert SpanRecords(inner) == [Begin(inner), End(inner)];
    assert BodyRecords(outer, 1) == [];
    assert BodyRecords(outer, 0) == SpanRecords(inner);
  }

  /**
   * Runs one traced call against the log on thread `tid`: when the log is
   * disabled the body runs with nothing recorded; otherwise Begin, the body,
   * and End as the style allows. The call's outcome passes through unchanged.
   */
  method RunSpan(log: TraceLog, tid: int, s: Span) returns (o: CallOutcome)
    requires log.Valid()
    modifies log
    ensures log.Valid()
    ensures log.enabled == old(log.enabled) && log.logFile == old(log.logFile)
    ensures log.logFileOwner == old(log.logFileOwner)
    ensures log.curEvents == old(log.curEvents) + (if log.enabled then StampAll(SpanRecords(s), log.pid, tid) else [])
    ensures o == s.outcome
    decreases s, |s.body| + 1
  {
    ghost var before := log.curEvents;
    if !log.enabled {
      RunBody(log, tid, s, 0);
      return s.outcome;
    }
    log.AddTraceEvent("B", s.start, Category, s.name, s.args, tid);
    StampAllOne(Begin(s), log.pid, tid);
    ghost var begun := log.curEvents;
    assert begun == before + StampAll([Begin(s)], log.pid, tid);
    RunBody(log, tid, s, 0);
    ghost var ran := log.curEvents;
    ghost var body := BodyRecords(s, 0);
    assert ran == begun + StampAll(body, log.pid, tid);
    var end := match s.style
               case EndOnReturn => s.outcome.Returned?
               case EndInFinally => true;
    if end {
      log.AddTraceEvent("E", s.end, Category, s.name, s.args, tid);
    }
    o := s.outcome;
    ghost var last := if EmitsEnd(s) then [End(s)] else [];
    StampAllOne(End(s), log.pid, tid);
    assert log.curEvents == ran + StampAll(last, log.pid, tid);
    StampAllAppend([Begin(s)], body, log.pid, tid);
    StampAllAppend([Begin(s)] + body, last, log.pid, tid);
  }

  /** Runs the body steps of `s` from position `i` on, in order, on thread `tid`. */
  method RunBody(log: TraceLog, tid: int, s: Span, i: nat)
    requires i <= |s.body|
    requires log.Valid()
    modifies log
    ensures log.Valid()
    ensures log.enabled == old(log.enabled) && log.logFile == old(log.logFile)
    ensures log.logFileOwner == old(log.logFileOwner)
    ensures log.curEvents == old(log.curEvents) + (if log.enabled then StampAll(BodyRecords(s, i), log.pid, tid) else [])
    decreases s, |s.body| - i
  {
    if i == |s.body| {
      return;
    }
    ghost var before := log.curEvents;
    var first: seq<Record>;
    match s.body[i] {
      case Direct(r) =>
        log.AddTraceEvent(r.ph, r.ts, r.category, r.name, r.args, tid);
        first := [r];
      case Nested(t) =>
        var _ := RunSpan(log, tid, t);
        first := SpanRecords(t);
    }
    assert BodyRecords(s, i) == first + BodyRecords(s, i + 1);
    ghost var mid := log.curEvents;
    RunBody(log, tid, s, i + 1);
    if log.enabled {
      StampAllAppend(first, BodyRecords(s, i + 1), log.pid, tid);
      assert log.curEvents == before + StampAll(first, log.pid, tid) + StampAll(BodyRecords(s, i + 1), log.pid, tid);
    }
  }
}
