/** The optional value used for attributes that JavaScript leaves `undefined`. */
module Wrappers {

  datatype Option<+T> = None | Some(value: T)

  /** No element of `s` occurs twice. */
  predicate NoDuplicates<T(==)>(s: seq<T>) {
    forall i, j :: 0 <= i < j < |s| ==> s[i] != s[j]
  }
}
