/** The two wrapper types every other module uses for a missing value and for a refused operation. */
module Results {

  datatype Option<+T> = None | Some(value: T)

  /** A computed value, or the reason the source raises or dies with. */
  datatype Result<+T> = Ok(value: T) | Err(reason: string) {

    predicate IsFailure() {
      Err?
    }

    function PropagateFailure<U>(): Result<U>
      requires Err?
    {
      Err(reason)
    }

    function Extract(): T
      requires Ok?
    {
      value
    }
  }
}
