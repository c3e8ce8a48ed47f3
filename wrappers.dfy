/** Optional values and the outcome of a step that may raise. */
module Wrappers {

  /** A value that may be absent: a markup element that is not there, or an
      attribute that is declared but never assigned. */
  datatype Option<+T> = None | Some(value: T)

  /** The outcome of a step of the scraper that may raise. `Raised` stands for
      any exception the scraper lets escape (a missing element, an index out
      of range, a failed number conversion, an unbound local name): each of
      them aborts the whole page, so the model does not tell them apart. */
  datatype Result<+T> = Ok(value: T) | Raised {

    predicate IsFailure() {
      Raised?
    }

    function PropagateFailure<U>(): Result<U>
      requires Raised?
    {
      Raised
    }

    function Extract(): T
      requires Ok?
    {
      value
    }
  }

  /** An element that must be there: looking into a missing one raises. */
  function Need<T>(o: Option<T>): (r: Result<T>)
    ensures r.Ok? <==> o.Some?
    ensures r.Ok? ==> r.value == o.value
  {
    match o
    case None => Raised
    case Some(v) => Ok(v)
  }
}
