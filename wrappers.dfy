/** Absent values: JavaScript yields `undefined` when an array is indexed past its end. */
module Wrappers {

  datatype Option<+T> = None | Some(value: T)

  /** `s[0]` in JavaScript: the first element, or `undefined` for an empty array. */
  function First<T>(s: seq<T>): (r: Option<T>)
    ensures r.Some? <==> s != []
    ensures r.Some? ==> r.value == s[0]
  {
    if s == [] then None else Some(s[0])
  }
}
