/** Stock optional-value datatype used throughout the model. */
module Wrappers {

  datatype Option<+T> = None | Some(value: T)

  /** The value as a list of at most one element. */
  function AsSeq<T>(o: Option<T>): seq<T> {
    if o.Some? then [o.value] else []
  }

}
