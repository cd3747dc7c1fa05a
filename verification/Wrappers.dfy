// Small notions shared by the modules of this project.
module Wrappers {

  // A pointer that may be NULL, seen as a value.
  datatype Option<+T> = None | Some(value: T)

  // To count with.
  function One(b: bool): nat {
    if b then 1 else 0
  }

  ghost predicate NoDuplicates<T>(s: seq<T>) {
    forall i, j | 0 <= i < j < |s| :: s[i] != s[j]
  }
}
