/** What several modules share. */
module Wrappers {
  datatype Option<+T> = None | Some(value: T)

  /** How often x stands in s. */
  function Count<T(==)>(s: seq<T>, x: T): nat {
    if s == [] then 0 else Count(s[..|s| - 1], x) + if s[|s| - 1] == x then 1 else 0
  }
}
