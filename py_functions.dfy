/**
 * What both decorator revisions read off a Python function object, the
 * errors they raise while decorating, and how they join a qualifier and a
 * function name into a span name.
 */
module PyFunctions {
  import opened Wrappers
  import opened Events

  /** What the decorators read off a Python function object. */
  datatype FuncInfo = FuncInfo(
    name: string,                    // `__name__`
    moduleName: string,              // `__module__`
    params: seq<string>,             // argspec `args`
    defaults: Option<seq<Value>>,    // argspec `defaults`: None when no parameter has one
    isGenerator: bool)               // `inspect.isgeneratorfunction`

  datatype DecorateError =
    | GeneratorRejected  // "Can not trace generators."
    | NotAParameter      // `args.index(name)` raises ValueError
    | NoDefaults         // `len(None)` raises TypeError

  /** `"%s.%s" % (cls, name)` */
  function QualifiedName(cls: string, name: string): string
  {
    cls + "." + name
  }
}
