/** The akka `Promise` each adapter operation returns the future of. A promise is
    completed at most once; completing it again raises IllegalStateException. */
module Promises {
  import opened JavaLang

  datatype Completion<+T> = Succeeded(value: T) | Failed(error: Exception)

  /** `Futures.promise()`: a cell that is empty until its first completion. */
  datatype Promise<T> = Promise(cell: Option<Completion<T>>) {
    /** `complete`: fills an empty cell; on a full one it raises IllegalStateException. */
    function Complete(c: Completion<T>): Result<Promise<T>, Exception> {
      if cell.Some? then Err(IllegalState) else Ok(Promise(Some(c)))
    }

    /** `promise.success(v)`. */
    function Success(v: T): Result<Promise<T>, Exception> {
      Complete(Succeeded(v))
    }

    /** `promise.failure(e)`. */
    function Failure(e: Exception): Result<Promise<T>, Exception> {
      Complete(Failed(e))
    }
  }

  function Fresh<T>(): Promise<T> {
    Promise(None)
  }

  /** How an adapter operation ends: it returns the promise's future, which holds a
      completion or is never completed, or it throws. */
  datatype Outcome<T> = Returned(future: Option<Completion<T>>) | Threw(exception: Exception)

  /** The operation returns the future of the promise it built, or throws what the
      last completion raised. */
  function Settle<T>(r: Result<Promise<T>, Exception>): Outcome<T> {
    match r
    case Ok(p) => Returned(p.cell)
    case Err(e) => Threw(e)
  }

  /** Completing twice fails whatever the two values are, and the first one stays. */
  lemma CompletesOnce<T>(p: Promise<T>, first: Completion<T>, second: Completion<T>)
    requires p.cell.None?
    ensures p.Complete(first).Ok? && p.Complete(first).value.cell == Some(first)
    ensures p.Complete(first).value.Complete(second) == Err(IllegalState)
    ensures Settle(p.Complete(first).value.Complete(second)) == Threw(IllegalState)
  {
  }
}
