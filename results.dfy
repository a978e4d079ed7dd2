/** Rust's `Result<T, E>` and the three combinators the address parser chains:
    `map`, `map_err` and `or_else`. */
module Results {

  datatype Result<+T, +E> = Ok(value: T) | Err(error: E) {

    /** `Result::map`: transforms a success value, passes an error through. */
    function Map<U>(f: T -> U): (r: Result<U, E>)
      ensures r.Ok? <==> Ok?
      ensures Ok? ==> r.value == f(value)
      ensures Err? ==> r.error == error
    {
      match this
      case Ok(v) => Ok(f(v))
      case Err(e) => Err(e)
    }

    /** `Result::map_err`: transforms an error, passes a success value through. */
    function MapErr<F>(f: E -> F): (r: Result<T, F>)
      ensures r.Ok? <==> Ok?
      ensures Ok? ==> r.value == value
      ensures Err? ==> r.error == f(error)
    {
      match this
      case Ok(v) => Ok(v)
      case Err(e) => Err(f(e))
    }

    /** `Result::or_else`: on an error, the result of the fallback applied to it. */
    function OrElse<F>(fallback: E -> Result<T, F>): (r: Result<T, F>)
      ensures Ok? ==> r == Ok(value)
      ensures Err? ==> r == fallback(error)
    {
      match this
      case Ok(v) => Ok(v)
      case Err(e) => fallback(e)
    }
  }
}
