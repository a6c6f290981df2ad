/** The few PHP runtime behaviours the module's arithmetic and string
    handling depend on, stated exactly on unbounded integers.

    Money kept by Magento is a decimal with four fractional digits
    (the `decimal(20,4)` columns of the sales tables); the model holds such a
    value as an integer count of ten-thousandths, called `Dec4` below.
    Stripe amounts are already integers in the currency's minor unit. */
module Php {

  function Abs(x: int): nat {
    if x < 0 then -x else x
  }

  function Max(a: int, b: int): int {
    if a < b then b else a
  }

  function Min(a: int, b: int): int {
    if a < b then a else b
  }

  /** One Magento decimal unit, in Dec4 ten-thousandths. */
  const Scale: int := 10000

  function Pow10(k: nat): (r: int)
    ensures r >= 1
  {
    if k == 0 then 1 else 10 * Pow10(k - 1)
  }

  // The non-negative quotient rounded to nearest, ties upwards.
  function RoundPos(n: nat, d: int): (r: nat)
    requires d > 0
  {
    (2 * n + d) / (2 * d)
  }

  lemma {:induction false} RoundPosBound(n: nat, d: int)
    requires d > 0
    ensures 2 * Abs(n - RoundPos(n, d) * d) <= d
    ensures 2 * Abs(n - RoundPos(n, d) * d) == d ==> RoundPos(n, d) * d >= n
  {
    var q := RoundPos(n, d);
    var rem := (2 * n + d) - q * (2 * d);
    assert 0 <= rem < 2 * d;
    assert 2 * (n - q * d) == rem - d;
  }

  /** r is n/d rounded to the nearest integer, a tie going away from zero. */
  ghost predicate NearestAwayFromZero(n: int, d: int, r: int) {
    var m := r * d;
    2 * Abs(n - m) <= Abs(d) && (2 * Abs(n - m) == Abs(d) ==> Abs(m) >= Abs(n))
  }

  /** PHP's `round($n / $d)`: the integer nearest to n/d, a tie going away
      from zero (PHP_ROUND_HALF_UP). The model computes on the exact rational,
      not on the IEEE double PHP divides into. */
  function RoundDiv(n: int, d: int): (r: int)
    requires d != 0
    ensures NearestAwayFromZero(n, d, r)
  {
    var r := if d < 0 then SignedRoundPos(-n, -d) else SignedRoundPos(n, d);
    RoundDivNearest(n, d);
    r
  }

  function SignedRoundPos(n: int, d: int): int
    requires d > 0
  {
    if n >= 0 then RoundPos(n, d) else var q: int := RoundPos(-n, d); -q
  }

  lemma RoundDivNearest(n: int, d: int)
    requires d != 0
    ensures NearestAwayFromZero(n, d, if d < 0 then SignedRoundPos(-n, -d) else SignedRoundPos(n, d))
  {
    if d < 0 {
      SignedNearest(-n, -d);
      var r := SignedRoundPos(-n, -d);
      var m := r * d;
      assert r * -d == -m;
    } else {
      SignedNearest(n, d);
    }
  }

  lemma SignedNearest(n: int, d: int)
    requires d > 0
    ensures NearestAwayFromZero(n, d, SignedRoundPos(n, d))
  {
    if n >= 0 {
      RoundPosBound(n, d);
    } else {
      var q: int := RoundPos(-n, d);
      RoundPosBound(-n, d);
      var m := q * d;
      assert (-q) * d == -m;
    }
  }

  /** PHP's `round($x, $p)` on a Dec4 amount, for a precision of 0..4
      fractional digits; the result is again a Dec4 amount. */
  function RoundDec4(x: int, p: nat): (r: int)
    requires p <= 4
    ensures r % Pow10(4 - p) == 0
    ensures 2 * Abs(x - r) <= Pow10(4 - p)
    ensures NearestAwayFromZero(x, Pow10(4 - p), r / Pow10(4 - p))
  {
    var unit := Pow10(4 - p);
    var q := RoundDiv(x, unit);
    MultipleDivMod(q, unit);
    q * unit
  }

  /** A multiple of `u` divides back exactly. */
  lemma {:induction false} MultipleDivMod(q: int, u: int)
    requires u > 0
    ensures (q * u) / u == q && (q * u) % u == 0
  {
    var m := q * u;
    var d, r := m / u, m % u;
    assert m == d * u + r && 0 <= r < u;
    assert (q - d) * u == r by { assert q * u - d * u == (q - d) * u; }
    if q - d >= 1 {
      MulAtLeast(q - d, u);
    }
  }

  lemma MulAtLeast(a: int, u: int)
    requires a >= 1 && u > 0
    ensures a * u >= u
  {
    var b := a - 1;
    assert a * u == b * u + u;
  }

  /** Rounding an exact quotient changes nothing: the nearest integer to
      (q * d) / d is q. */
  lemma {:induction false} NearestOfMultiple(q: int, d: int, r: int)
    requires d != 0 && NearestAwayFromZero(q * d, d, r)
    ensures r == q
  {
    assert q * d - r * d == (q - r) * d;
    if q - r != 0 {
      MulAbsAtLeast(q - r, d);
    }
  }

  lemma {:induction false} MulAbsAtLeast(k: int, d: int)
    requires k != 0
    ensures Abs(k * d) >= Abs(d)
  {
    if d != 0 {
      var x, y := Abs(k), Abs(d);
      AbsProduct(k, d);
      MulAtLeast(x, y);
    }
  }

  lemma AbsProduct(a: int, b: int)
    ensures Abs(a * b) == Abs(a) * Abs(b)
  {
    if a < 0 && b < 0 {
      assert a * b == (-a) * (-b);
    } else if a < 0 {
      assert a * b == -((-a) * b);
    } else if b < 0 {
      assert a * b == -(a * (-b));
    }
  }

  /** PHP's `(int)` cast of a Dec4 amount: the fraction is dropped, so the
      result is truncated toward zero. */
  function IntCast(x: int): (r: int)
    ensures r * x >= 0
    ensures Abs(r) * Scale <= Abs(x) < (Abs(r) + 1) * Scale
  {
    if x >= 0 then x / Scale else -((-x) / Scale)
  }

  /** PHP's `empty()` on a string value: true for "" and for "0". */
  predicate Empty(s: string) {
    s == "" || s == "0"
  }

  predicate StartsWith(s: string, prefix: string) {
    |prefix| <= |s| && s[..|prefix|] == prefix
  }

  /** PHP's `explode($sep, $s)` for a one-character separator. */
  function Split(s: string, sep: char): (parts: seq<string>)
    ensures |parts| >= 1
    ensures forall i :: 0 <= i < |parts| ==> sep !in parts[i]
  {
    if |s| == 0 then [""]
    else
      var rest := Split(s[1..], sep);
      if s[0] == sep then [""] + rest
      else [[s[0]] + rest[0]] + rest[1..]
  }

  /** PHP's `implode($sep, $parts)`. */
  function Join(parts: seq<string>, sep: char): string
    requires |parts| >= 1
  {
    if |parts| == 1 then parts[0]
    else parts[0] + [sep] + Join(parts[1..], sep)
  }

  function Count(s: string, c: char): nat {
    if |s| == 0 then 0 else (if s[0] == c then 1 else 0) + Count(s[1..], c)
  }

  /** `explode` loses nothing: gluing the parts back gives the input. */
  lemma {:induction false} JoinSplit(s: string, sep: char)
    ensures Join(Split(s, sep), sep) == s
  {
    if |s| == 0 {
    } else {
      var rest := Split(s[1..], sep);
      JoinSplit(s[1..], sep);
      if s[0] == sep {
        assert Split(s, sep)[1..] == rest;
        assert s == [s[0]] + s[1..];
      } else {
        var parts := Split(s, sep);
        assert parts[0] == [s[0]] + rest[0];
        assert parts[1..] == rest[1..];
        if |rest| == 1 {
          assert Join(rest, sep) == rest[0];
        } else {
          assert Join(rest, sep) == rest[0] + [sep] + Join(rest[1..], sep);
        }
        assert s == [s[0]] + s[1..];
      }
    }
  }

  /** `explode` yields one more part than there are separators. */
  lemma {:induction false} SplitLength(s: string, sep: char)
    ensures |Split(s, sep)| == Count(s, sep) + 1
  {
    if |s| > 0 {
      SplitLength(s[1..], sep);
    }
  }

  function DigitChar(d: int): char
    requires 0 <= d < 10
  {
    "0123456789"[d]
  }

  /** PHP's conversion of a non-negative integer to its decimal string. */
  function NatToString(n: nat): (s: string)
    ensures |s| >= 1
    ensures forall i :: 0 <= i < |s| ==> '0' <= s[i] <= '9'
  {
    if n < 10 then [DigitChar(n)] else NatToString(n / 10) + [DigitChar(n % 10)]
  }

  /** PHP's conversion of an integer to its decimal string. */
  function IntToString(n: int): string {
    if n < 0 then "-" + NatToString(-n) else NatToString(n)
  }
}
