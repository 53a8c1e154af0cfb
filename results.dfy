/** Option and a panic-carrying Result, the two ways the classifier can end. */
module Results {

  datatype Option<T> = None | Some(value: T)

  /** Ok carries the classified records; Panicked stands for a Rust panic,
      which aborts the scrape instead of returning. */
  datatype Result<T> = Ok(value: T) | Panicked(message: string) {
    predicate IsFailure() {
      Panicked?
    }

    function PropagateFailure<U>(): Result<U>
      requires Panicked?
    {
      Panicked(message)
    }

    function Extract(): T
      requires Ok?
    {
      value
    }
  }

  /** The message Rust prints when `Option::unwrap` meets `None`. */
  const UNWRAP_ON_NONE := "called `Option::unwrap()` on a `None` value"
}
