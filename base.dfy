/** Small datatypes shared by every module of the model. */
module Base {

  /** A value that may be absent (Python `None`, JavaScript `undefined`/`null`). */
  datatype Option<T> = None | Some(value: T)

  /** How a Python call ends: it returns a value, or an exception escapes from it. */
  datatype Outcome<T> = Returned(value: T) | Raised

  /** No element occurs twice. */
  predicate NoDup<T(==)>(s: seq<T>)
  {
    forall i, j :: 0 <= i < j < |s| ==> s[i] != s[j]
  }

  /** Appends `x` unless it is already present: the list-as-set insertion both back ends use. */
  function AddOnce<T(==)>(s: seq<T>, x: T): (r: seq<T>)
    ensures |r| == if x in s then |s| else |s| + 1
    ensures x in r && r[..|s|] == s
  {
    if x in s then s else s + [x]
  }

  /** Adding an element once keeps a duplicate-free list duplicate-free. */
  lemma AddOnceNoDup<T>(s: seq<T>, x: T)
    requires NoDup(s)
    ensures NoDup(AddOnce(s, x))
  {
  }
}
