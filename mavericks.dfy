/** The asynchronous-value type of the Mavericks state container. */
module Mavericks {
  import opened Wrappers

  /**
   * `Async<T>`. `Loading` and `Fail` carry no retained value: the modelled
   * code calls `execute` without `retainValue`.
   */
  datatype Async<+T, +E> = Uninitialized | Loading | Success(value: T) | Fail(error: E)

  /** `async()`: the value of a `Success`, null otherwise. */
  function Invoke<T, E>(a: Async<T, E>): (r: Option<T>)
    ensures r.Some? <==> a.Success?
    ensures r.Some? ==> r.value == a.value
  {
    match a
    case Success(v) => Some(v)
    case _ => None
  }

  /** The value `execute` stores once the suspend block returned or threw. */
  function Completed<T, E>(r: Result<T, E>): (a: Async<T, E>)
    ensures a.Success? <==> r.Ok?
    ensures a.Success? ==> a.value == r.value
    ensures a.Fail? ==> a.error == r.error
  {
    match r
    case Ok(v) => Success(v)
    case Err(e) => Fail(e)
  }
}
