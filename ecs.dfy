/** The pieces of the entity-component world that every system uses. */
module Ecs {

  /** An entity id of the world. */
  type Entity = nat

  /**
   * The match a system takes from `query.iter().next()`: the first element of the
   * query, or nothing when the query is empty.
   */
  function First<T>(s: seq<T>): (r: seq<T>)
    ensures |r| == (if |s| == 0 then 0 else 1)
    ensures |s| > 0 ==> r[0] == s[0]
  {
    if |s| == 0 then [] else s[..1]
  }

  /** A query never yields the same entity twice. */
  predicate Distinct<T(==)>(s: seq<T>) {
    forall i, j :: 0 <= i < j < |s| ==> s[i] != s[j]
  }
}
