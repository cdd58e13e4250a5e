/** Option and Result values used for the pipeline's absent values and raised errors, and a sequence fact every stage uses. */
module Wrappers {

  datatype Option<+T> = None | Some(value: T)

  /** A stage either produces a value or stops with an error (a raised exception in the source). */
  datatype Result<+T, +E> = Ok(value: T) | Err(error: E)
  {
    predicate IsFailure() { Err? }

    function PropagateFailure<U>(): Result<U, E>
      requires Err?
    {
      Err(error)
    }

    function Extract(): T
      requires Ok?
    {
      value
    }
  }

  /** Concatenation regrouped: appending in two steps is appending the joined pieces. */
  lemma AppendAssoc<T>(a: seq<T>, b: seq<T>, c: seq<T>)
    ensures a + b + c == a + (b + c)
  {
  }
}
