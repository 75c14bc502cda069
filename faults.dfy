/** The exceptions the agent's own code can raise on a project of unexpected
    shape, and the Result type that carries them. */
module Faults {
  import opened PyJson

  /** A Python exception, by the operation that raised it. */
  datatype Fault =
    | NoAttribute(typeName: string, attribute: string)  // AttributeError on `x.get` or `x.append`
    | NotIterable(typeName: string)                      // TypeError from `for x in v`
    | NotContainer(typeName: string)                     // TypeError from `k in v`
    | Unhashable(typeName: string)                       // TypeError from a dict lookup with a list or dict
    | NoLen(typeName: string)                            // TypeError from `len(v)`
    | JoinItem(index: nat, typeName: string)             // TypeError from `", ".join(v)`
    | ListIndexedByStr                                   // TypeError from `lst["k"]` or `lst["k"] = v`
    | StrIndexedByStr                                    // TypeError from `s["k"]`
    | StrItemAssignment                                  // TypeError from `s["k"] = v`
    | ListPlusStr                                        // TypeError from `lst[:1000] + "..."`
    | DictSliced                                         // KeyError from `d[:1000]`
    | AgentRaised(message: string)                       // whatever the language-model agent raised

  /** `str(e)` for the exception, in CPython 3.12's wording. */
  function Message(f: Fault): string {
    match f
    case NoAttribute(t, a) => "'" + t + "' object has no attribute '" + a + "'"
    case NotIterable(t) => "'" + t + "' object is not iterable"
    case NotContainer(t) => "argument of type '" + t + "' is not iterable"
    case Unhashable(t) => "unhashable type: '" + t + "'"
    case NoLen(t) => "object of type '" + t + "' has no len()"
    case JoinItem(i, t) => "sequence item " + NatToString(i) + ": expected str instance, " + t + " found"
    case ListIndexedByStr => "list indices must be integers or slices, not str"
    case StrIndexedByStr => "string indices must be integers, not 'str'"
    case StrItemAssignment => "'str' object does not support item assignment"
    case ListPlusStr => "can only concatenate list (not \"str\") to list"
    case DictSliced => "slice(None, 1000, None)"
    case AgentRaised(m) => m
  }

  /** A value, or the exception raised while computing it. */
  datatype Result<+T> = Success(value: T) | Failure(fault: Fault) {
    predicate IsFailure() {
      Failure?
    }

    function PropagateFailure<U>(): Result<U>
      requires Failure?
    {
      Failure(fault)
    }

    function Extract(): T
      requires Success?
    {
      value
    }
  }
}
