/** Failure-carrying results shared by the whole model.

    The modelled program is Python: its operations fail by raising an
    exception. `Exception` names the exception classes the modelled code
    raises, and `Result` is the value-or-exception outcome of an operation. */
module Outcomes {

  /** The Python exception classes raised by the modelled code. */
  datatype Exception =
    | ValueError          // float()/int() of bad text, unpacking the wrong number of values, math domain errors
    | IndexError          // indexing or popping past the end of a list or tuple
    | KeyError            // a missing dictionary key, or an explicit `raise KeyError`
    | AttributeError      // reading an attribute that was never assigned
    | ZeroDivisionError   // dividing by zero
    | NotImplementedError // an operation that always raises
    | NameError           // reading a local variable that was never bound
    | TypeError           // float() or a regular expression given None instead of text
    | AssertionError      // a failed `assert` statement

  datatype Option<+T> = None | Some(value: T)

  datatype Result<+T> = Ok(value: T) | Err(error: Exception) {
    predicate IsFailure() { Err? }

    function PropagateFailure<U>(): Result<U>
      requires Err?
    {
      Err(error)
    }

    function Extract(): T
      requires Ok?
    {
      value
    }
  }

  /** Python's `s[k:-1]`: drop the first `k` elements and the last one,
      giving the empty sequence when nothing is left. */
  function Inner<T>(s: seq<T>, k: nat): (r: seq<T>)
    ensures |s| > k ==> |r| == |s| - k - 1
    ensures |s| <= k ==> r == []
  {
    if |s| > k then s[k..|s| - 1] else []
  }
}
