/** Models of the JavaScript built-ins the Solar Timeline Engine relies on:
    decimal rendering of integers (`String(n)`, template interpolation),
    two-digit zero padding (`padStart(2, '0')`), `Math.round`, the clamp
    `Math.max(0, Math.min(1, x))`, the first-match searches `indexOf` and
    `findIndex`, and the sign-of-dividend remainder `%`. */
module Builtins {

  datatype Option<T> = None | Some(value: T)

  predicate IsDigit(c: char) { '0' <= c <= '9' }

  predicate AllDigits(s: string) { forall i :: 0 <= i < |s| ==> IsDigit(s[i]) }

  function DigitChar(d: nat): char
    requires d < 10
  {
    ('0' as int + d) as char
  }

  function DigitValue(c: char): int { c as int - '0' as int }

  /** `String(n)` for a non-negative integer: its decimal digits. */
  function NatToString(n: nat): (s: string)
    ensures |s| >= 1 && AllDigits(s)
    ensures |s| == 1 <==> n < 10
    decreases n
  {
    if n < 10 then [DigitChar(n)] else NatToString(n / 10) + [DigitChar(n % 10)]
  }

  /** `String(i)` for any integer: a minus sign before the digits of a negative value. */
  function IntToString(i: int): string
  {
    if i < 0 then "-" + NatToString(-i) else NatToString(i)
  }

  /** The value of a string of decimal digits; the inverse of NatToString. */
  function ParseDigits(s: string): nat
    requires AllDigits(s)
  {
    if s == [] then 0 else ParseDigits(s[..|s| - 1]) * 10 + DigitValue(s[|s| - 1])
  }

  lemma {:induction false} ParseNatToString(n: nat)
    ensures ParseDigits(NatToString(n)) == n
    decreases n
  {
    if n >= 10 {
      var s := NatToString(n);
      ParseNatToString(n / 10);
      assert s[..|s| - 1] == NatToString(n / 10);
    }
  }

  lemma NatToStringInjective(a: nat, b: nat)
    ensures NatToString(a) == NatToString(b) ==> a == b
  {
    ParseNatToString(a);
    ParseNatToString(b);
  }

  /** `String(n).padStart(2, '0')` for a non-negative integer. */
  function Pad2(n: nat): (s: string)
    ensures AllDigits(s)
    ensures n < 100 ==> |s| == 2
  {
    if n < 10 then ['0'] + NatToString(n) else NatToString(n)
  }

  lemma Pad2RoundTrip(n: nat)
    ensures ParseDigits(Pad2(n)) == n
  {
    var s := Pad2(n);
    if n < 10 {
      assert s[..|s| - 1] == ['0'];
      assert ['0'][..0] == [];
    } else {
      ParseNatToString(n);
    }
  }

  lemma Pad2Injective(a: nat, b: nat)
    ensures Pad2(a) == Pad2(b) ==> a == b
  {
    Pad2RoundTrip(a);
    Pad2RoundTrip(b);
  }

  lemma DigitsExclude(s: string, c: char)
    requires AllDigits(s) && !IsDigit(c)
    ensures c !in s
  {
  }

  /** A string made of a part free of the separator `c`, then `c`, then a rest,
      splits back into that same part and rest. */
  lemma SplitAtFirst(a: string, b: string, a': string, b': string, c: char)
    requires c !in a && c !in a'
    requires a + [c] + b == a' + [c] + b'
    ensures a == a' && b == b'
  {
    var s := a + [c] + b;
    assert s[|a|] == c && s[|a'|] == c;
    assert |a| == |a'|;
    assert a == s[..|a|] == a';
    assert b == s[|a| + 1..] == b';
  }

  /** `Math.round`: the nearest integer, with halves rounded towards +infinity. */
  function Round(x: real): (r: int)
    ensures r as real - 0.5 <= x < r as real + 0.5
  {
    (x + 0.5).Floor
  }

  /** `Math.max(0, Math.min(1, x))`. */
  function Clamp01(x: real): (r: real)
    ensures 0.0 <= r <= 1.0
    ensures 0.0 <= x <= 1.0 ==> r == x
    ensures x < 0.0 ==> r == 0.0
    ensures x > 1.0 ==> r == 1.0
  {
    if x > 1.0 then 1.0 else if x < 0.0 then 0.0 else x
  }

  /** `xs.findIndex(p)`, with `None` for JavaScript's -1: the first index whose
      element satisfies `p`. `xs.indexOf(x)` is the case `p == (y => y == x)`. */
  function FindIndex<T>(xs: seq<T>, p: T -> bool): (r: Option<nat>)
    ensures r.None? <==> forall i :: 0 <= i < |xs| ==> !p(xs[i])
    ensures r.Some? ==> r.value < |xs| && p(xs[r.value])
    ensures r.Some? ==> forall j :: 0 <= j < r.value ==> !p(xs[j])
    decreases |xs|
  {
    if |xs| == 0 then None
    else if p(xs[0]) then Some(0)
    else match FindIndex(xs[1..], p)
      case None => None
      case Some(k) => Some(k + 1)
  }

  /** JavaScript's `a % b` for `b > 0`: the remainder takes the sign of `a`. */
  function JsRem(a: int, b: int): (r: int)
    requires b > 0
    ensures -b < r < b
    ensures a >= 0 ==> r >= 0
    ensures a < 0 ==> r <= 0
  {
    if a >= 0 then a % b else -((-a) % b)
  }

  /** The JavaScript remainder differs from the dividend by a whole multiple of
      the divisor: `a == b * q + r` for the quotient `q` truncated towards zero. */
  lemma JsRemCongruent(a: int, b: int)
    requires b > 0
    ensures var q := if a >= 0 then a / b else -((-a) / b);
            a == b * q + JsRem(a, b)
  {
    if a < 0 {
      assert -a == b * ((-a) / b) + (-a) % b;
    }
  }

  lemma MulNonNegative(a: real, b: real)
    requires a >= 0.0 && b >= 0.0
    ensures a * b >= 0.0
  {
  }

  lemma MulSign(a: real, b: real)
    requires b > 0.0
    ensures a < 0.0 <==> a * b < 0.0
    ensures a > 0.0 <==> a * b > 0.0
  {
  }

  /** Equal strings with the same first and last characters agree in between. */
  lemma Unwrap(a: string, b: string, x: char, y: char)
    requires [x] + a + [y] == [x] + b + [y]
    ensures a == b
  {
    var s := [x] + a + [y];
    assert a == s[1..|s| - 1];
    assert b == s[1..|s| - 1];
  }
}
