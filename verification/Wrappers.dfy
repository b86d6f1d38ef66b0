/** Result types shared by every module. */
module Wrappers {
  datatype Option<+T> = None | Some(value: T)

  datatype Result<+T, +E> = Ok(value: T) | Err(error: E) {
    predicate IsFailure() { Err? }

    function PropagateFailure<U>(): Result<U, E>
      requires Err?
    {
      Err(error)
    }

    function Extract(): T
      requires Ok?
    {
      value
    }
  }

  /** The result of a check that yields no value. */
  datatype Check<+E> = Pass | Fail(error: E) {
    predicate IsFailure() { Fail? }

    function PropagateFailure<U>(): Result<U, E>
      requires Fail?
    {
      Err(error)
    }
  }

  /** What a Rust call that may hit an `expect` or an `unwrap` does: it accepts with a value,
      it rejects with an error, or it panics. */
  datatype Verdict<+T, +E> = Accept(value: T) | Reject(error: E) | Panic {
    predicate IsFailure() { !Accept? }

    function PropagateFailure<U>(): Verdict<U, E>
      requires !Accept?
    {
      if Reject? then Reject(error) else Panic
    }

    function Extract(): T
      requires Accept?
    {
      value
    }
  }

  predicate NoDuplicates<T(==)>(s: seq<T>) {
    forall i, j | 0 <= i < j < |s| :: s[i] != s[j]
  }
}
