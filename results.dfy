/** Failure-carrying values shared by every module: Go's `(value, error)` pairs
    become `Result`, and a bare `error` return becomes `Option<string>`. */
module Results {

  datatype Option<+T> = None | Some(value: T)

  /** A value, or the text of the Go error that replaced it. `:-` on a Result is Go's
      `if err != nil { return ..., err }`. */
  datatype Result<+T> = Ok(value: T) | Err(error: string) {

    predicate IsFailure()
    {
      Err?
    }

    function PropagateFailure<U>(): Result<U>
      requires Err?
    {
      Err(error)
    }

    function Extract(): T
      requires Ok?
    {
      value
    }
  }
}
