/** Optional values, results, and JavaScript truthiness of the scalar values the core tests. */
module Wrappers {

  /** `undefined` (None) or a value. */
  datatype Option<+T> = None | Some(value: T)

  /** A value, or the error a callee throws instead of returning. */
  datatype Result<+T, +E> = Ok(value: T) | Err(error: E)

  /** `if (s)` on a value that is `undefined` or a string: only the non-empty string is truthy. */
  predicate Truthy(s: Option<string>) {
    s.Some? && s.value != ""
  }

  /** `if (n)` on a value that is `undefined` or a number: `undefined` and `0` are falsy. */
  predicate TruthyNum(n: Option<int>) {
    n.Some? && n.value != 0
  }

  /** `s || fallback` for a value that is `undefined` or a string. */
  function Or(s: Option<string>, fallback: string): (r: string)
    ensures Truthy(s) ==> r == s.value
    ensures !Truthy(s) ==> r == fallback
    ensures r == "" ==> fallback == ""
  {
    if Truthy(s) then s.value else fallback
  }
}
