/** The few pieces of JavaScript value semantics that the pages rely on. */
module Js {

  /** An optional value; `None` stands for JavaScript's `undefined` (or a missing field). */
  datatype Option<+T> = None | Some(value: T)

  /** Truthiness of an optional boolean field: only a present `true` is truthy. */
  predicate Truthy(b: Option<bool>) {
    b == Some(true)
  }

  /** Truthiness of an optional string: present and not the empty string. */
  predicate Present(s: Option<string>) {
    s.Some? && s.value != ""
  }

  /** `s.startsWith(prefix)`. */
  predicate StartsWith(s: string, prefix: string) {
    |prefix| <= |s| && s[..|prefix|] == prefix
  }

  /** Clamps a `substring` index into `[0, len]`. */
  function Clamp(i: int, len: nat): (r: nat)
    ensures r <= len
    ensures 0 <= i <= len ==> r == i
    ensures i < 0 ==> r == 0
    ensures len < i ==> r == len
  {
    if i < 0 then 0 else if len < i then len else i
  }

  /** `s.substring(start, end)`: both indices are clamped into the string, and swapped
      when the first is larger, so the call never fails. */
  function Substring(s: string, start: int, end: int): (r: string)
    ensures |r| <= |s|
    ensures 0 <= start <= end <= |s| ==> r == s[start..end]
    ensures 0 <= end <= start <= |s| ==> r == s[end..start]
    ensures start <= 0 && end <= 0 ==> r == ""
    ensures |s| <= start && |s| <= end ==> r == ""
    ensures start <= 0 <= end <= |s| ==> r == s[..end]
    ensures end <= 0 <= start <= |s| ==> r == s[..start]
    ensures 0 <= start <= |s| <= end ==> r == s[start..]
    ensures 0 <= end <= |s| <= start ==> r == s[end..]
    ensures start <= 0 && |s| <= end ==> r == s
    ensures end <= 0 && |s| <= start ==> r == s
  {
    var a, b := Clamp(start, |s|), Clamp(end, |s|);
    if a <= b then s[a..b] else s[b..a]
  }

  /** How a template literal prints an optional string: a missing value prints as "undefined". */
  function Interpolate(s: Option<string>): (r: string)
    ensures s.Some? ==> r == s.value
    ensures s.None? ==> r == "undefined"
  {
    if s.Some? then s.value else "undefined"
  }
}
