/** Values that may be missing, and operations that may bring the process down. */
module Results {

  datatype Option<+T> = None | Some(value: T)

  /** Why the process cannot go on: `abort()`, or a use of memory that C leaves undefined. */
  datatype Crash = MissingHandler | BadState | UnregisterFailed | WildAccess

  datatype Result<+T> = Ok(value: T) | Crashed(why: Crash) {

    predicate IsFailure() {
      Crashed?
    }

    function PropagateFailure<U>(): Result<U>
      requires Crashed?
    {
      Crashed(why)
    }

    function Extract(): T
      requires Ok?
    {
      value
    }
  }
}
