/** The optional value that Swift writes as `T?`. */
module Wrappers {

  datatype Option<+T> = None | Some(value: T) {

    /** Applies `f` to a present value, keeping absence absent (Swift's `Optional.map`). */
    function Map<U>(f: T -> U): (r: Option<U>)
      ensures r.Some? <==> Some?
      ensures Some? ==> r.value == f(value)
    {
      match this
      case None => None
      case Some(v) => Some(f(v))
    }
  }
}
