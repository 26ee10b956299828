/** Failure-carrying values used in place of JavaScript's `undefined` and exceptions. */
module Wrappers {

  /** A value that may be absent (`undefined` in the source). */
  datatype Option<+T> = None | Some(value: T) {
    function GetOr(default: T): T {
      match this
      case Some(v) => v
      case None => default
    }
  }

  /** The value an async function returns, or the error it throws. */
  datatype Result<+T, +E> = Ok(value: T) | Err(error: E)

  /** What an async function returning `Promise<void>` does: completes or throws. */
  datatype Outcome<+E> = Pass | Fail(error: E)

  /** The suffix of `s` after its first `n` elements, empty when `n` exceeds `|s|`. */
  function Drop<T>(s: seq<T>, n: nat): (r: seq<T>)
    ensures |r| == if n <= |s| then |s| - n else 0
    ensures forall i :: 0 <= i < |r| ==> r[i] == s[n + i]
  {
    if n >= |s| then [] else s[n..]
  }
}
