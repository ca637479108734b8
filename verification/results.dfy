/** Failure-compatible wrappers shared by every module of the model.

    The original program reports every problem by raising an exception; the
    model returns `Err(e)` instead, where `e` names the exception class that
    would have been raised. A few entries name plain Python errors that the
    original raises by accident (an undefined name, an index past the end of a
    list, a call with too few arguments): the model keeps them so that the
    behaviour stays faithful.
 */
module Results {

  datatype Option<+T> = None | Some(value: T)

  /** The exception classes of exceptionsLibrary.py, plus the Python errors
      the original code can raise by accident. */
  datatype Error =
    | TabError(reason: string)            // TabException
    | TabFileError(reason: string)        // TabFileException
    | MeasureError(length: real)          // MeasureException
    | ConfigError(reason: string, line: int) // TabConfigurationException
    | StaffError(reason: string)          // StaffException
    | StaffOutOfBounds(reason: string)    // StaffOutOfBoundsException
    | IndexError(reason: string)          // Python IndexError
    | NameError(name: string)             // Python NameError
    | ArityError(callee: string)          // Python TypeError: missing arguments

  datatype Result<+T> = Ok(value: T) | Err(error: Error) {

    predicate IsFailure() {
      Err?
    }

    function PropagateFailure<U>(): Result<U>
      requires Err?
    {
      Err(error)
    }

    function Extract(): T
      requires Ok?
    {
      value
    }
  }

  /** `Ok(())` when `condition` holds, otherwise the given error. */
  function Need(condition: bool, e: Error): (r: Result<()>)
    ensures r.Ok? <==> condition
    ensures r.Err? ==> r.error == e
  {
    if condition then Ok(()) else Err(e)
  }
}
