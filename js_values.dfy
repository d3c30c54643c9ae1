/**
 * The few JavaScript value notions the client's logic depends on:
 * null/undefined as an optional value, a settled promise as a result,
 * the truthiness test `if (s)` on a string that may be null, and the
 * `length` of a string, which JavaScript counts in UTF-16 code units.
 */
module JsValues {

  /** A value that may be null or undefined. */
  datatype Option<+T> = None | Some(value: T)

  /** A settled promise: resolved with a value, or rejected with an error. */
  datatype Result<+T, +E> = Ok(value: T) | Err(error: E)

  /** `!!s` for a string that may be null: false for null and for "". */
  predicate Truthy(s: Option<string>)
    ensures Truthy(s) <==> s != None && |s.value| > 0
  {
    s.Some? && s.value != ""
  }

  /** Does the character lie outside the Basic Multilingual Plane? */
  predicate IsAstral(c: char)
  {
    c as int >= 0x1_0000
  }

  /**
   * `s.length` in JavaScript: a character outside the Basic Multilingual
   * Plane is stored as a surrogate pair and counts twice.
   */
  function JsLength(s: string): (n: nat)
    ensures |s| <= n <= 2 * |s|
    ensures n == 0 <==> s == []
  {
    if s == [] then 0 else (if IsAstral(s[0]) then 2 else 1) + JsLength(s[1..])
  }

  /** Without astral characters, JavaScript's length is the number of characters. */
  lemma {:induction false} JsLengthOfBmp(s: string)
    requires forall i :: 0 <= i < |s| ==> !IsAstral(s[i])
    ensures JsLength(s) == |s|
  {
    if s != [] {
      assert forall i :: 0 <= i < |s[1..]| ==> s[1..][i] == s[i + 1];
      JsLengthOfBmp(s[1..]);
    }
  }
}
