/** Optional values. */
module Wrappers {
  datatype Option<T> = None | Some(value: T)

  /** The entries of an optional value as a sequence of zero or one. */
  function ToSeq<T>(o: Option<T>): (r: seq<T>)
    ensures |r| <= 1
    ensures o.Some? ==> r == [o.value]
    ensures o.None? ==> r == []
  {
    if o.Some? then [o.value] else []
  }
}
