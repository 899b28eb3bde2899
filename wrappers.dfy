/** Optional values and results shared by the other modules. */
module Wrappers {

  /** A value that may be missing (a JSON key that is absent). */
  datatype Option<+T> = None | Some(value: T)

  /** The outcome of an evaluation that may raise. */
  datatype Result<+R, +E> = Ok(value: R) | Err(error: E)

  /** `d.get(key, [])` on a list-valued key: the list, or the empty list when the key is missing. */
  function OrEmpty<T>(o: Option<seq<T>>): (r: seq<T>)
    ensures o.Some? ==> r == o.value
    ensures o.None? ==> r == []
  {
    match o
    case Some(s) => s
    case None => []
  }
}
