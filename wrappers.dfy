/** Optional values and results, used for the source's `None` values and for
    a run that stops on an uncaught exception. */
module Wrappers {

  datatype Option<+T> = None | Some(value: T) {

    /** The value as a sequence of length at most one (what an `append` guarded by it adds). */
    function ToSeq(): (s: seq<T>)
      ensures |s| <= 1
      ensures Some? ==> s == [value]
      ensures None? ==> s == []
    {
      if Some? then [value] else []
    }
  }

  datatype Result<+T, +E> = Success(value: T) | Failure(error: E)
}
