// Shared wrappers: optional values, the exceptions raised by the modelled
// code, and a failure-compatible result type for operations that can raise.
module Base {

  datatype Option<T> = None | Some(value: T)
  {
    function GetOr(default: T): T
    {
      if Some? then value else default
    }
  }

  // The Python exception classes raised (or propagated) by the modelled code.
  // `GraphError` is networkx.NetworkXError; `RuntimeError` keeps its message
  // because the flow graph builder's message is part of its contract.
  datatype Error =
    | TypeError
    | ValueError
    | KeyError
    | IndexError
    | AttributeError
    | LookupError
    | NotImplementedError
    | AssertionError
    | GraphError
    | RuntimeError(message: string)

  datatype Result<T> = Ok(value: T) | Err(error: Error)
  {
    predicate IsFailure()
    {
      Err?
    }

    function PropagateFailure<U>(): Result<U>
      requires Err?
    {
      Err(error)
    }

    function Extract(): T
      requires Ok?
    {
      value
    }
  }

  // A subset is no larger than its superset.
  lemma {:induction false} SubsetCard<T>(a: set<T>, b: set<T>)
    requires a <= b
    ensures |a| <= |b|
    decreases |a|
  {
    if a != {} {
      var x :| x in a;
      SubsetCard(a - {x}, b - {x});
    }
  }
}
