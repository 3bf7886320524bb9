/** Definitions that several modules share. */
module Basics {
  datatype Option<+T> = None | Some(value: T)

  ghost predicate Distinct(list: seq<nat>) {
    forall i, j :: 0 <= i < j < |list| ==> list[i] != list[j]
  }

  function Min(a: int, b: int): int {
    if a < b then a else b
  }

  function One(b: bool): nat {
    if b then 1 else 0
  }
}
