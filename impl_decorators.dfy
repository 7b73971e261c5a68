/**
 * The second decorator revision, `trace_event_impl/decorators.py`: `traced`
 * either wraps a function directly or, given parameter names, returns a
 * decorator that also records the reprs of those arguments. The span is
 * named `Class.func` for methods (first parameter `self`) and `module.func`
 * otherwise, and End is emitted in a `finally` block.
 */
module ImplDecorators {
  import opened Wrappers
  import opened Events
  import opened Log
  import opened Spans
  import opened PyFunctions

  /** One positional argument of `traced(*args)`: a function, or anything else (a parameter name). */
  datatype DecoratorArg = CallableArg(func: FuncInfo) | NameArg(name: string)

  /** An entry of `args_to_log`: `(name, arg_index, default)`. */
  datatype ArgSpec = ArgSpec(name: string, index: nat, default: Value)

  /** What decoration time has fixed for the wrapper `traced_function`. */
  datatype TracedFunction = TracedFunction(func: FuncInfo, isMethod: bool, argsToLog: seq<ArgSpec>)

  /** `list.index`: the first position of `x`. */
  function IndexOf(xs: seq<string>, x: string): (i: nat)
    requires x in xs
    ensures i < |xs| && xs[i] == x && x !in xs[..i]
  {
    if xs[0] == x then 0 else 1 + IndexOf(xs[1..], x)
  }

  /**
   * `arg_spec_tuple(name)`: the parameter's first position and its default.
   * Defaults belong to the last parameters in order; a parameter before
   * them gets None. A name that is not a parameter raises ValueError, and a
   * function with no defaults at all raises TypeError (`len(None)`).
   */
  function ArgSpecTuple(f: FuncInfo, arg: DecoratorArg): (r: Result<ArgSpec, DecorateError>)
    ensures r.Success? <==> arg.NameArg? && arg.name in f.params && f.defaults.Some?
    ensures (arg.CallableArg? || arg.name !in f.params) ==> r == Failure(NotAParameter)
    ensures arg.NameArg? && arg.name in f.params && f.defaults.None? ==> r == Failure(NoDefaults)
    ensures r.Success? ==>
              var a := r.value;
              var ds := f.defaults.value;
              var firstDefaulted := |f.params| - |ds|;
              && a.name == arg.name
              && a.index < |f.params| && f.params[a.index] == a.name && a.name !in f.params[..a.index]
              && (a.index >= firstDefaulted ==> a.default == ds[a.index - firstDefaulted])
              && (a.index < firstDefaulted ==> a.default == NoneValue)
  {
    match arg
    case CallableArg(_) => Failure(NotAParameter)
    case NameArg(name) =>
      if name !in f.params then Failure(NotAParameter)
      else
        var argIndex := IndexOf(f.params, name);
        match f.defaults
        case None => Failure(NoDefaults)
        case Some(ds) =>
          var defaultIndex := argIndex + |ds| - |f.params|;
          Success(ArgSpec(name, argIndex, if defaultIndex >= 0 then ds[defaultIndex] else NoneValue))
  }

  /** `map(arg_spec_tuple, arg_names)`: eager, so the first failing name raises at decoration time. */
  function ArgsToLog(f: FuncInfo, names: seq<DecoratorArg>): (r: Result<seq<ArgSpec>, DecorateError>)
    ensures r.Success? <==> forall i :: 0 <= i < |names| ==> ArgSpecTuple(f, names[i]).Success?
    ensures r.Success? ==>
              && |r.value| == |names|
              && forall i :: 0 <= i < |names| ==> r.value[i] == ArgSpecTuple(f, names[i]).value
    ensures r.Failure? ==>
              exists i :: 0 <= i < |names|
                && ArgSpecTuple(f, names[i]) == Failure(r.error)
                && forall j :: 0 <= j < i ==> ArgSpecTuple(f, names[j]).Success?
  {
    if names == [] then Success([])
    else
      match ArgSpecTuple(f, names[0])
      case Failure(e) => Failure(e)
      case Success(a) =>
        match ArgsToLog(f, names[1..])
        case Failure(e) =>
          assert forall i :: 1 <= i < |names| ==> names[1..][i - 1] == names[i];
          Failure(e)
        case Success(rest) =>
          assert forall i :: 1 <= i < |names| ==> names[1..][i - 1] == names[i];
          Success([a] + rest)
  }

  /** `arg_spec.args and arg_spec.args[0] == "self"` */
  predicate IsMethod(f: FuncInfo)
  {
    f.params != [] && f.params[0] == "self"
  }

  /** `get_wrapper(func)` for the captured names `argNames`. */
  function GetWrapper(argNames: seq<DecoratorArg>, f: FuncInfo): (r: Result<TracedFunction, DecorateError>)
    ensures f.isGenerator ==> r == Failure(GeneratorRejected)
    ensures !f.isGenerator ==> (r.Success? <==> ArgsToLog(f, argNames).Success?)
    ensures r.Success? ==>
              && r.value.func == f
              && r.value.isMethod == IsMethod(f)
              && |r.value.argsToLog| == |argNames|
              && forall i :: 0 <= i < |argNames| ==> r.value.argsToLog[i].name == argNames[i].name
    ensures r.Success? ==> r.value.argsToLog == ArgsToLog(f, argNames).value
    ensures argNames == [] && !f.isGenerator ==> r == Success(TracedFunction(f, IsMethod(f), []))
  {
    if f.isGenerator then Failure(GeneratorRejected)
    else
      match ArgsToLog(f, argNames)
      case Failure(e) => Failure(e)
      case Success(specs) => Success(TracedFunction(f, IsMethod(f), specs))
  }

  /** What `traced(*args)` returns: the wrapper itself, or `get_wrapper` still waiting for a function. */
  datatype TracedResult = Wrapped(wrapper: Result<TracedFunction, DecorateError>) | Decorator(argNames: seq<DecoratorArg>)

  /** `traced(*args)`: a single callable is wrapped at once, capturing nothing. */
  function Traced(args: seq<DecoratorArg>): (r: TracedResult)
    ensures r.Wrapped? <==> |args| == 1 && args[0].CallableArg?
    ensures r.Wrapped? ==> r.wrapper == GetWrapper([], args[0].func)
    ensures r.Decorator? ==> r.argNames == args
  {
    if |args| == 1 && args[0].CallableArg? then Wrapped(GetWrapper([], args[0].func))
    else Decorator(args)
  }

  /** `@traced` on a non-generator function wraps it with no captured arguments. */
  lemma TracedBare(f: FuncInfo)
    requires !f.isGenerator
    ensures Traced([CallableArg(f)]) == Wrapped(Success(TracedFunction(f, IsMethod(f), [])))
  {
  }

  /** `@traced("a", "b")` captures `a` and `b`, in that order, when both are parameters and defaults exist. */
  lemma TracedWithNames(a: string, b: string, f: FuncInfo)
    requires !f.isGenerator && a in f.params && b in f.params && f.defaults.Some?
    ensures var d := Traced([NameArg(a), NameArg(b)]);
            && d == Decorator([NameArg(a), NameArg(b)])
            && var w := GetWrapper(d.argNames, f);
            && w.Success?
            && |w.value.argsToLog| == 2
            && w.value.argsToLog[0].name == a && w.value.argsToLog[1].name == b
  {
    var names := [NameArg(a), NameArg(b)];
    assert ArgSpecTuple(f, names[0]).Success? && ArgSpecTuple(f, names[1]).Success?;
    assert forall i :: 0 <= i < |names| ==> ArgSpecTuple(f, names[i]).Success?;
  }

  /**
   * `get_arg_value(name, index, default)`: a keyword argument first, then
   * `args[index]` only for a non-zero index inside `args`, else the default.
   * Position 0 is never read from the positional arguments.
   */
  function GetArgValue(a: ArgSpec, args: seq<Value>, kwargs: map<string, Value>): (v: Value)
    ensures a.name in kwargs ==> v == kwargs[a.name]
    ensures a.name !in kwargs && 0 < a.index < |args| ==> v == args[a.index]
    ensures a.name !in kwargs && (a.index == 0 || a.index >= |args|) ==> v == a.default
  {
    if a.name in kwargs then kwargs[a.name]
    else if a.index != 0 && a.index < |args| then args[a.index]
    else a.default
  }

  /**
   * The `arg_values` dict comprehension: one key per captured name, mapped
   * to the repr of its value at call time.
   */
  function ArgValues(specs: seq<ArgSpec>, args: seq<Value>, kwargs: map<string, Value>): (m: map<string, string>)
    ensures m.Keys == set a | a in specs :: a.name
    decreases |specs|
  {
    if specs == [] then map[]
    else
      var last := specs[|specs| - 1];
      var init := specs[..|specs| - 1];
      assert specs == init + [last];
      assert (set a | a in specs :: a.name) == (set a | a in init :: a.name) + {last.name};
      ArgValues(init, args, kwargs)[last.name := Repr(GetArgValue(last, args, kwargs))]
  }

  /** For a name captured more than once, the value comes from its last entry, as in a dict comprehension. */
  lemma {:induction false} ArgValuesLastWins(specs: seq<ArgSpec>, args: seq<Value>, kwargs: map<string, Value>, i: nat)
    requires i < |specs|
    requires forall j :: i < j < |specs| ==> specs[j].name != specs[i].name
    ensures specs[i].name in ArgValues(specs, args, kwargs)
    ensures ArgValues(specs, args, kwargs)[specs[i].name] == Repr(GetArgValue(specs[i], args, kwargs))
    decreases |specs|
  {
    var init := specs[..|specs| - 1];
    if i < |specs| - 1 {
      assert specs[i] == init[i];
      ArgValuesLastWins(init, args, kwargs, i);
    }
  }

  /** The span name, or None when a method is called with no positional argument (`args[0]` raises). */
  function SpanName(w: TracedFunction, args: seq<Value>): (r: Option<string>)
    ensures r.None? <==> w.isMethod && args == []
    ensures r.Some? && w.isMethod ==> r.value == QualifiedName(ClassName(args[0]), w.func.name)
    ensures !w.isMethod ==> r == Some(QualifiedName(w.func.moduleName, w.func.name))
  {
    if w.isMethod then
      if args == [] then None else Some(QualifiedName(ClassName(args[0]), w.func.name))
    else Some(QualifiedName(w.func.moduleName, w.func.name))
  }

  /** The span of one enabled call: End in `finally`, one `arg_values` dict for Begin and End. */
  function TracedSpan(w: TracedFunction, args: seq<Value>, kwargs: map<string, Value>, start: real,
                      body: seq<Step>, outcome: CallOutcome, end: real): Span
    requires SpanName(w, args).Some?
  {
    Span(EndInFinally, SpanName(w, args).value, Dict(ArgValues(w.argsToLog, args, kwargs)), start, body, outcome, end)
  }

  /**
   * A `traced` span opens with Begin and always closes with End, both under
   * the span name and both carrying the arguments captured before the body ran.
   */
  lemma TracedSpanEvents(w: TracedFunction, args: seq<Value>, kwargs: map<string, Value>, start: real,
                         body: seq<Step>, outcome: CallOutcome, end: real)
    requires SpanName(w, args).Some?
    ensures var name := SpanName(w, args).value;
            var captured := Dict(ArgValues(w.argsToLog, args, kwargs));
            var recs := SpanRecords(TracedSpan(w, args, kwargs, start, body, outcome, end));
            && |recs| >= 2
            && recs[0] == Record("B", start, Category, name, captured)
            && recs[|recs| - 1] == Record("E", end, Category, name, captured)
  {
  }

  /**
   * `traced_function(*args, **kwargs)` on thread `tid`: disabled, a plain
   * call; enabled, the name and the captured arguments are computed first,
   * then Begin, the body, and End whether the body returns or raises.
   */
  method CallTraced(log: TraceLog, w: TracedFunction, args: seq<Value>, kwargs: map<string, Value>,
                    tid: int, start: real, body: seq<Step>, outcome: CallOutcome, end: real)
    returns (o: CallOutcome)
    requires log.Valid()
    modifies log
    ensures log.Valid()
    ensures log.enabled == old(log.enabled) && log.logFile == old(log.logFile)
    ensures log.logFileOwner == old(log.logFileOwner)
    ensures !log.enabled ==> o == outcome && log.curEvents == old(log.curEvents)
    ensures log.enabled && SpanName(w, args).None? ==>
              o == Raised(IndexErrorValue) && log.curEvents == old(log.curEvents)
    ensures log.enabled && SpanName(w, args).Some? ==>
              && o == outcome
              && log.curEvents == old(log.curEvents)
                   + StampAll(SpanRecords(TracedSpan(w, args, kwargs, start, body, outcome, end)), log.pid, tid)
  {
    if !log.enabled {
      var plain := Span(EndInFinally, w.func.name, EmptyList, start, body, outcome, end);
      o := RunSpan(log, tid, plain);
      return;
    }
    var name := SpanName(w, args);
    if name.None? {
      return Raised(IndexErrorValue);
    }
    o := RunSpan(log, tid, TracedSpan(w, args, kwargs, start, body, outcome, end));
  }
}
