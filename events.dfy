/**
 * The values the tracing library passes around: Python values as far as the
 * library looks at them, the argument payload of an event, an event before
 * and after the log stamps it with the process and thread identity, and the
 * `",".join` used to write a buffer of serialised events.
 */
module Events {

  /** A Python value, seen only through its class name and its `repr`. */
  datatype Value = NoneValue | Obj(cls: string, repr: string)

  /** `v.__class__.__name__` */
  function ClassName(v: Value): string
  {
    match v
    case NoneValue => "NoneType"
    case Obj(cls, _) => cls
  }

  /** `repr(v)` */
  function Repr(v: Value): string
  {
    match v
    case NoneValue => "None"
    case Obj(_, r) => r
  }

  /**
   * The `args` payload of an event: `add_trace_event`'s default is the empty
   * list `[]`; the argument-capturing decorator passes a dict of reprs.
   */
  datatype Args = EmptyList | Dict(values: map<string, string>)

  /** The arguments of one `add_trace_event` call, before the log adds pid and tid. */
  datatype Record = Record(ph: string, ts: real, category: string, name: string, args: Args)

  /** One buffered event dict: the keys `ph`, `category`, `pid`, `tid`, `ts`, `name`, `args`. */
  datatype Event = Event(ph: string, category: string, pid: int, tid: int, ts: real, name: string, args: Args)

  function Stamp(r: Record, pid: int, tid: int): Event
  {
    Event(r.ph, r.category, pid, tid, r.ts, r.name, r.args)
  }

  function StampAll(rs: seq<Record>, pid: int, tid: int): (es: seq<Event>)
    ensures |es| == |rs|
  {
    seq(|rs|, i requires 0 <= i < |rs| => Stamp(rs[i], pid, tid))
  }

  lemma StampAllAppend(a: seq<Record>, b: seq<Record>, pid: int, tid: int)
    ensures StampAll(a + b, pid, tid) == StampAll(a, pid, tid) + StampAll(b, pid, tid)
  {
    assert forall i :: 0 <= i < |a + b| ==> StampAll(a + b, pid, tid)[i] == (StampAll(a, pid, tid) + StampAll(b, pid, tid))[i];
  }

  lemma StampAllOne(r: Record, pid: int, tid: int)
    ensures StampAll([r], pid, tid) == [Stamp(r, pid, tid)]
  {
  }

  /** `[dumps(e) for e in events]` */
  function DumpAll(dumps: Event -> string, events: seq<Event>): (texts: seq<string>)
    ensures |texts| == |events|
  {
    seq(|events|, i requires 0 <= i < |events| => dumps(events[i]))
  }

  lemma DumpAllAppend(dumps: Event -> string, a: seq<Event>, b: seq<Event>)
    ensures DumpAll(dumps, a + b) == DumpAll(dumps, a) + DumpAll(dumps, b)
  {
    assert forall i :: 0 <= i < |a + b| ==> DumpAll(dumps, a + b)[i] == (DumpAll(dumps, a) + DumpAll(dumps, b))[i];
  }

  /** `sep.join(parts)` */
  function Join(sep: string, parts: seq<string>): string
    decreases |parts|
  {
    if |parts| == 0 then ""
    else if |parts| == 1 then parts[0]
    else parts[0] + sep + Join(sep, parts[1..])
  }

  /** Joining a concatenation puts exactly one separator between the two joined halves. */
  lemma {:induction false} JoinSplit(sep: string, a: seq<string>, b: seq<string>)
    requires a != [] && b != []
    ensures Join(sep, a + b) == Join(sep, a) + sep + Join(sep, b)
    decreases |a|
  {
    assert (a + b)[0] == a[0];
    if |a| == 1 {
      assert (a + b)[1..] == b;
    } else {
      assert (a + b)[1..] == a[1..] + b;
      JoinSplit(sep, a[1..], b);
    }
  }
}
