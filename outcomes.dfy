/** Optional values and call outcomes, in the shape of Rust's `Option` and of a
    call that either completes or is rejected. */
module Outcomes {

  /** Rust's `Option<T>`, with the three combinators the ledger uses. */
  datatype Option<T> = None | Some(value: T) {

    /** `Option::filter`: keeps the value only when it satisfies `p`. */
    function Filter(p: T -> bool): (r: Option<T>) {
      match this
      case Some(v) => if p(v) then this else None
      case None => None
    }

    /** `Option::map`: applies `f` to the value, if there is one. */
    function Map<U>(f: T -> U): (r: Option<U>) {
      match this
      case Some(v) => Some(f(v))
      case None => None
    }

    /** `Option::unwrap_or`: the value, or `default` when there is none. */
    function UnwrapOr(default: T): (r: T) {
      match this
      case Some(v) => v
      case None => default
    }
  }

  /** A pure computation that yields a new value or an error. */
  datatype Result<T, E> = Ok(value: T) | Err(error: E)

  /** A state-changing call that completes or is rejected with an error. */
  datatype Outcome<E> = Pass | Fail(error: E)
}
