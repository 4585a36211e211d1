/** Rust's `Option`, as used by the query results and look candidates of the game. */
module Wrappers {

  datatype Option<+T> = None | Some(value: T) {

    /** `Option::or`: keeps `this` when it is `Some`, otherwise takes `other`. */
    function Or(other: Option<T>): (r: Option<T>)
      ensures Some? ==> r == this
      ensures None? ==> r == other
    {
      if Some? then this else other
    }

    /** The zero-or-one element sequence that `Option::iter` yields. */
    function ToSeq(): (s: seq<T>)
      ensures |s| == (if Some? then 1 else 0)
      ensures Some? ==> s[0] == value
    {
      if Some? then [value] else []
    }
  }
}
