/** The few JavaScript primitives the weather code leans on, over exact numbers. */
module Js {
  import opened Wrappers

  /** `n` is the integer nearest to `x`, halves going toward +infinity. */
  predicate NearestInteger(n: int, x: real)
  {
    n as real - 0.5 <= x < n as real + 0.5
  }

  /** `Math.round`. */
  function Round(x: real): (n: int)
    ensures NearestInteger(n, x)
  {
    (x + 0.5).Floor
  }

  /** Rounding never reverses the order of two numbers. */
  lemma RoundMonotone(x: real, y: real)
    requires x <= y
    ensures Round(x) <= Round(y)
  {
  }

  /** Rounding a number in [lo, hi], both integers, stays in [lo, hi]. */
  lemma RoundWithin(x: real, lo: int, hi: int)
    requires lo as real <= x <= hi as real
    ensures lo <= Round(x) <= hi
  {
  }

  /** JavaScript truthiness of an optional number: present and not zero. */
  predicate Truthy(o: Option<real>): (b: bool)
    ensures b ==> o.Some?                          // undefined is falsy
    ensures o == Some(0.0) ==> !b                  // 0 is falsy
    ensures o.Some? && o.value != 0.0 ==> b        // every other number is truthy
  {
    o.Some? && o.value != 0.0
  }

  /** `o || fallback` where `o` is an optional number. */
  function Or(o: Option<real>, fallback: real): (r: real)
    ensures o.None? ==> r == fallback
    ensures o == Some(0.0) ==> r == fallback
    ensures o.Some? && o.value != 0.0 ==> r == o.value
  {
    if Truthy(o) then o.value else fallback
  }

  /** `Math.max(...xs)` for a non-empty list. */
  function Max(xs: seq<real>): (m: real)
    requires |xs| > 0
    ensures m in xs
    ensures forall x :: x in xs ==> x <= m
  {
    if |xs| == 1 then xs[0]
    else
      var rest := Max(xs[1..]);
      assert xs == [xs[0]] + xs[1..];
      if xs[0] > rest then xs[0] else rest
  }

  /** `Math.min(...xs)` for a non-empty list. */
  function Min(xs: seq<real>): (m: real)
    requires |xs| > 0
    ensures m in xs
    ensures forall x :: x in xs ==> m <= x
  {
    if |xs| == 1 then xs[0]
    else
      var rest := Min(xs[1..]);
      assert xs == [xs[0]] + xs[1..];
      if xs[0] < rest then xs[0] else rest
  }

  /** `s.length`: the number of UTF-16 code units, so a character outside the
      Basic Multilingual Plane counts twice. */
  function Utf16Length(s: string): (n: nat)
    ensures |s| <= n <= 2 * |s|
    ensures (forall i :: 0 <= i < |s| ==> s[i] as int <= 0xFFFF) ==> n == |s|
  {
    if s == [] then 0
    else (if s[0] as int > 0xFFFF then 2 else 1) + Utf16Length(s[1..])
  }
}
