/** Optional values and results with an error payload, the two shapes every
    Go `(T, error)` and `*T` return takes in this model. */
module Wrappers {
  datatype Option<T> = None | Some(value: T)
  {
    predicate IsSome() { this.Some? }

    function GetOr(default: T): T
    {
      if this.Some? then value else default
    }
  }

  /** A Go `(T, error)` pair: exactly one of the two is meaningful. */
  datatype Result<T, E> = Ok(value: T) | Failure(error: E)
  {
    predicate IsFailure() { this.Failure? }

    function PropagateFailure<U>(): Result<U, E>
      requires IsFailure()
    {
      Failure(error)
    }

    function Extract(): T
      requires !IsFailure()
    {
      value
    }
  }

  function Min(a: int, b: int): int { if a <= b then a else b }
  function Max(a: int, b: int): int { if a >= b then a else b }
}
