/** Failure-carrying results, used where the Python code raises an exception. */
module Wrappers {

  datatype Option<+T> = None | Some(value: T)

  datatype Result<+T, +E> = Success(value: T) | Failure(error: E)

  datatype Outcome<+E> = Pass | Fail(error: E)

  /** The position at which an in-order pass over `s` first meets an element
      that `ok` rejects (the element a Python loop would raise on), or `|s|`
      when every element is accepted. */
  function FirstFailing<T>(s: seq<T>, ok: T -> bool): (i: nat)
    ensures i <= |s|
    ensures forall k :: 0 <= k < i ==> ok(s[k])
    ensures i < |s| ==> !ok(s[i])
  {
    if s == [] || !ok(s[0]) then 0 else 1 + FirstFailing(s[1..], ok)
  }
}
