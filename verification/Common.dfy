// What several components share.
module Common {

  type Agent = string

  datatype Option<T> = None | Some(value: T)

  predicate NoDup<T(==)>(s: seq<T>) {
    forall i, j | 0 <= i < j < |s| :: s[i] != s[j]
  }
}
