/** Failure-compatible result types used by every instruction of the registry.

- `Result<T, E>` is what an instruction returns: the new world, or the error
  that aborted the whole transaction.
- `Check<E>` is one guard: a `require!` in a handler or a
  `constraint = … @ E` on an account. It carries no value, so it is used as
  `:- Require(cond, E); rest`.
 */
module Results {

  datatype Result<+T, +E> = Ok(value: T) | Err(error: E) {

    predicate IsFailure() {
      Err?
    }

    function PropagateFailure<U>(): Result<U, E>
      requires Err?
    {
      Err(error)
    }

    function Extract(): T
      requires Ok?
    {
      value
    }
  }

  datatype Check<+E> = Pass | Fail(error: E) {

    predicate IsFailure() {
      Fail?
    }

    function PropagateFailure<U>(): Result<U, E>
      requires Fail?
    {
      Err(error)
    }
  }

  /** A guard that aborts with `e` unless `cond` holds. */
  function Require<E>(cond: bool, e: E): (c: Check<E>)
    ensures c.Pass? <==> cond
    ensures c.Fail? ==> c.error == e
  {
    if cond then Pass else Fail(e)
  }
}
