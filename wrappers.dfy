/** The optional value used where the source uses a pointer that may be null. */
module Wrappers {
  datatype Option<+T> = None | Some(value: T)

  /** The multiset holding the value of `o`, if any. */
  function AsMultiset<T>(o: Option<T>): (m: multiset<T>)
    ensures |m| <= 1
    ensures o.None? <==> m == multiset{}
    ensures o.Some? ==> o.value in m
  {
    match o
    case None => multiset{}
    case Some(v) => multiset{v}
  }
}
