/**
 * Models of the JavaScript built-ins the component relies on:
 * `String.prototype.toLowerCase` (as an ASCII case fold),
 * `String.prototype.startsWith` and reading an array element that may be
 * out of range.
 */
module JsBuiltins {
  import opened Wrappers

  predicate IsAsciiUpper(c: char) { 'A' <= c <= 'Z' }

  predicate IsAsciiLower(c: char) { 'a' <= c <= 'z' }

  /** Lower-cases one character: ASCII capitals move to the same letter in lower case, everything else is kept. */
  function ToLowerChar(c: char): (r: char)
    ensures !IsAsciiUpper(r)
    ensures !IsAsciiUpper(c) ==> r == c
    ensures IsAsciiUpper(c) ==> IsAsciiLower(r) && r as int - 'a' as int == c as int - 'A' as int
  {
    if IsAsciiUpper(c) then (c as int - 'A' as int + 'a' as int) as char else c
  }

  /** `s.toLowerCase()`: folds every character on its own and keeps the length. */
  function ToLower(s: string): (r: string)
    ensures |r| == |s|
    ensures forall i :: 0 <= i < |s| ==> r[i] == ToLowerChar(s[i])
  {
    if s == [] then [] else [ToLowerChar(s[0])] + ToLower(s[1..])
  }

  /** `s.startsWith(prefix)`: the first |prefix| characters of s are exactly prefix. */
  predicate StartsWith(s: string, prefix: string)
    ensures StartsWith(s, prefix) <==> |prefix| <= |s| && forall i :: 0 <= i < |prefix| ==> s[i] == prefix[i]
  {
    prefix <= s
  }

  /** `data[i]`: the element at index i, or `undefined` (None) when i is out of range. */
  // The ensures below spell out what JavaScript indexing means; they are its definition, not a derived property.
  function ElementAt<T>(data: seq<T>, i: int): (r: Option<T>)
    ensures r.Some? <==> 0 <= i < |data|
    ensures r.Some? ==> r.value == data[i]
  {
    if 0 <= i < |data| then Some(data[i]) else None
  }

  /** Lower-casing twice is lower-casing once. */
  lemma ToLowerIdempotent(s: string)
    ensures ToLower(ToLower(s)) == ToLower(s)
  {
  }

  /** A prefix of a string lower-cases to a prefix of its lower-cased form. */
  lemma ToLowerKeepsPrefix(p: string, s: string)
    requires StartsWith(s, p)
    ensures StartsWith(ToLower(s), ToLower(p))
  {
  }
}
