/** The few JavaScript semantics the handler relies on: properties that may be
    undefined, truthiness of `||`, and `String.prototype.indexOf` / `substring`. */
module Js {

  /** A property of a JavaScript object: either undefined or holding a value. */
  datatype Option<+T> = None | Some(value: T)

  /** JavaScript truthiness of a string-valued property: undefined and "" are falsy. */
  predicate Truthy(v: Option<string>) {
    v.Some? && v.value != ""
  }

  /** `v || d`: the property itself when it is truthy, otherwise the default `d`. */
  function Or(v: Option<string>, d: string): (r: Option<string>)
    ensures r.Some?
    ensures Truthy(v) ==> r == v
    ensures !Truthy(v) ==> r.value == d
    ensures d != "" ==> Truthy(r)
  {
    if Truthy(v) then v else Some(d)
  }

  /** `s.indexOf(c)` for a one-character search string: the position of the
      first occurrence of `c`, or -1 when `s` does not contain it. */
  function IndexOf(s: string, c: char): (r: int)
    ensures -1 <= r < |s|
    ensures r == -1 <==> c !in s
    ensures 0 <= r ==> s[r] == c && forall j :: 0 <= j < r ==> s[j] != c
  {
    if s == [] then -1
    else if s[0] == c then 0
    else
      var k := IndexOf(s[1..], c);
      if k == -1 then -1 else k + 1
  }

  /** The clamping `substring` applies to each of its arguments. */
  function Clamp(i: int, len: nat): (r: nat)
    ensures r <= len
    ensures 0 <= i <= len ==> r == i
    ensures i < 0 ==> r == 0
    ensures len < i ==> r == len
  {
    if i < 0 then 0 else if len < i then len else i
  }

  /** `s.substring(start, end)`: both indices are clamped to `[0, |s|]`, and
      taken in increasing order when `start` exceeds `end`. */
  function Substring(s: string, start: int, end: int): (r: string)
    ensures |r| <= |s|
    ensures 0 <= start <= end <= |s| ==> r == s[start..end]
    ensures start <= 0 && end <= 0 ==> r == ""
    ensures start <= 0 && |s| <= end ==> r == s
  {
    var a, b := Clamp(start, |s|), Clamp(end, |s|);
    if a <= b then s[a..b] else s[b..a]
  }

  /** `substring` does not depend on the order of its two indices. */
  lemma SubstringSymmetric(s: string, start: int, end: int)
    ensures Substring(s, start, end) == Substring(s, end, start)
  {
  }

  /** A negative index behaves as 0, which is what makes `substring(0, -1)` empty. */
  lemma SubstringNegativeIsZero(s: string, start: int, end: int)
    requires start < 0
    ensures Substring(s, start, end) == Substring(s, 0, end)
  {
  }
}
