/**
 * The few pieces of Kotlin/JVM semantics the game engine relies on, written out:
 * truncating integer division and remainder, `toInt()` and `ceil` on floating-point
 * values (here exact reals), `coerceIn`/`coerceAtLeast`, decimal rendering of integers
 * in string templates, `isBlank`/`trim`/`contains`/`joinToString` on strings and
 * `String.hashCode` with its 32-bit wrap-around.
 */
module Kotlin {

  function Abs(x: int): (r: int)
    ensures r >= 0 && (r == x || r == -x)
  {
    if x < 0 then -x else x
  }

  function Min(a: int, b: int): (m: int)
    ensures m <= a && m <= b && (m == a || m == b)
  {
    if a <= b then a else b
  }

  /** JVM `/` on Int and Long: the quotient is truncated toward zero. */
  function Quot(a: int, b: int): (q: int)
    requires b != 0
    ensures Abs(q) == Abs(a) / Abs(b)
    ensures q < 0 ==> (a < 0) != (b < 0)
  {
    var m: int := Abs(a) / Abs(b);
    assert m >= 0;
    if (a < 0) == (b < 0) then m else -m
  }

  /** JVM `%` on Int and Long: the remainder takes the sign of the dividend. */
  function Rem(a: int, b: int): (r: int)
    requires b != 0
    ensures a == b * Quot(a, b) + r
    ensures a >= 0 ==> 0 <= r < Abs(b)
    ensures a < 0 ==> -Abs(b) < r <= 0
  {
    var m: int := Abs(a) % Abs(b);
    DivRemAbs(a, b);
    if a >= 0 then m else -m
  }

  lemma DivRemAbs(a: int, b: int)
    requires b != 0
    ensures a == b * Quot(a, b) + (if a >= 0 then Abs(a) % Abs(b) else -(Abs(a) % Abs(b)))
  {
    var bb := Abs(b);
    var q := Abs(a) / bb;
    var m := Abs(a) % bb;
    var p := bb * q;
    assert Abs(a) == p + m;
    var qq := Quot(a, b);
    assert qq == q || qq == -q;
    if b > 0 {
      assert b == bb;
      if a >= 0 { assert qq == q; } else { assert qq == -q; assert b * qq == -p; }
    } else {
      assert b == -bb;
      if a >= 0 { assert qq == -q; assert b * qq == p; } else { assert qq == q; assert b * qq == -p; }
    }
  }

  /**
   * The idiom `var x = a % n; if (x < 0) x += n` computes the mathematical
   * (Euclidean) residue of `a` modulo a positive `n`.
   */
  function Wrap(a: int, n: int): (r: int)
    requires n > 0
    ensures r == a % n
    ensures 0 <= r < n
  {
    var x := Rem(a, n);
    if x < 0 then
      assert a == n * (Quot(a, n) - 1) + (x + n);
      ModUnique(a, n, Quot(a, n) - 1, x + n);
      x + n
    else
      ModUnique(a, n, Quot(a, n), x);
      x
  }

  /** The residue modulo `n` is the only value in [0, n) that differs from `a` by a multiple of `n`. */
  lemma ModUnique(a: int, n: int, q: int, r: int)
    requires n > 0 && 0 <= r < n && a == n * q + r
    ensures a % n == r
  {
    var q0, r0 := a / n, a % n;
    assert a == n * q0 + r0;
    var d := q - q0;
    assert n * d == r0 - r by {
      assert n * q - n * q0 == n * d;
    }
    if d > 0 {
      assert n * d >= n by { MulAtLeast(n, d); }
      assert false;
    } else if d < 0 {
      assert n * (-d) >= n by { MulAtLeast(n, -d); }
      assert false;
    }
  }

  lemma MulAtLeast(n: int, k: int)
    requires n > 0 && k >= 1
    ensures n * k >= n
  {
    assert n * k == n * (k - 1) + n;
    assert n * (k - 1) >= 0;
  }

  /** `Float.toInt()`: truncation toward zero (saturation at the Int range is not modelled). */
  function Trunc(x: real): (r: int)
    ensures x >= 0.0 ==> 0 <= r && r as real <= x < r as real + 1.0
    ensures x < 0.0 ==> r <= 0 && r as real - 1.0 < x <= r as real
  {
    if x >= 0.0 then x.Floor else -((-x).Floor)
  }

  /** `kotlin.math.ceil`: the least integer not below `x`. */
  function Ceil(x: real): (r: int)
    ensures r as real - 1.0 < x <= r as real
  {
    -((-x).Floor)
  }

  function MaxReal(a: real, b: real): (m: real)
    ensures m >= a && m >= b && (m == a || m == b)
  {
    if a >= b then a else b
  }

  /** `coerceAtLeast(lo)` on Float. */
  function CoerceAtLeast(x: real, lo: real): (r: real)
    ensures r == MaxReal(x, lo)
  {
    if x < lo then lo else x
  }

  /** `coerceAtLeast(lo)` on Int. */
  function CoerceAtLeastInt(x: int, lo: int): (r: int)
    ensures r >= lo && r >= x && (r == x || r == lo)
  {
    if x < lo then lo else x
  }

  /** `coerceIn(lo, hi)` on Float; Kotlin throws when `lo > hi`. */
  function CoerceIn(x: real, lo: real, hi: real): (r: real)
    requires lo <= hi
    ensures lo <= r <= hi
    ensures lo <= x <= hi ==> r == x
    ensures x < lo ==> r == lo
    ensures x > hi ==> r == hi
  {
    if x < lo then lo else if x > hi then hi else x
  }

  function DigitChar(d: int): (c: char)
    requires 0 <= d < 10
    ensures '0' <= c <= '9'
    ensures c as int - '0' as int == d
  {
    ('0' as int + d) as char
  }

  predicate IsDigits(s: string) {
    forall i :: 0 <= i < |s| ==> '0' <= s[i] <= '9'
  }

  /** Decimal rendering of a natural number, without leading zeros. */
  function NatToString(n: nat): (s: string)
    ensures |s| > 0 && IsDigits(s)
    ensures n < 10 <==> |s| == 1
  {
    if n < 10 then [DigitChar(n)] else NatToString(n / 10) + [DigitChar(n % 10)]
  }

  /** Different naturals render differently. */
  lemma {:induction false} NatToStringInjective(a: nat, b: nat)
    requires NatToString(a) == NatToString(b)
    ensures a == b
    decreases a
  {
    if a >= 10 && b >= 10 {
      var sa, sb := NatToString(a), NatToString(b);
      assert sa[..|sa| - 1] == NatToString(a / 10);
      assert sb[..|sb| - 1] == NatToString(b / 10);
      NatToStringInjective(a / 10, b / 10);
      assert DigitChar(a % 10) == sa[|sa| - 1] == sb[|sb| - 1] == DigitChar(b % 10);
    } else if a < 10 && b < 10 {
      assert DigitChar(a) == NatToString(a)[0] == NatToString(b)[0] == DigitChar(b);
    }
  }

  /** How an Int or Long is rendered inside a Kotlin string template. */
  function IntToString(n: int): (s: string)
    ensures |s| > 0
    ensures n >= 0 ==> IsDigits(s)
    ensures n < 0 ==> s[0] == '-' && IsDigits(s[1..])
  {
    if n < 0 then "-" + NatToString(-n) else NatToString(n)
  }

  /** Different integers render differently, so ids built from distinct numbers are distinct. */
  lemma IntToStringInjective(a: int, b: int)
    requires IntToString(a) == IntToString(b)
    ensures a == b
  {
    var s := IntToString(a);
    assert a < 0 <==> s[0] == '-';
    assert b < 0 <==> s[0] == '-';
    if a < 0 {
      assert s[1..] == NatToString(-a) == NatToString(-b);
      NatToStringInjective(-a, -b);
    } else {
      NatToStringInjective(a, b);
    }
  }

  /** A common prefix can be dropped from both sides of an equation. */
  lemma PrefixCancel(p: string, x: string, y: string)
    requires p + x == p + y
    ensures x == y
  {
    assert x == (p + x)[|p|..];
    assert y == (p + y)[|p|..];
  }

  /** `Char.isWhitespace()`: Java's `isWhitespace` or `isSpaceChar`. */
  predicate IsWhitespace(c: char) {
    c == ' ' || c == '\t' || c == '\n' || c == '\r' || c == '\U{B}' || c == '\U{C}'
    || ('\U{1C}' <= c <= '\U{1F}') || c == '\U{A0}' || c == '\U{1680}'
    || ('\U{2000}' <= c <= '\U{200A}') || c == '\U{2028}' || c == '\U{2029}'
    || c == '\U{202F}' || c == '\U{205F}' || c == '\U{3000}'
  }

  /** `CharSequence.isBlank()`: empty or whitespace only. */
  predicate IsBlank(s: string) {
    forall i :: 0 <= i < |s| ==> IsWhitespace(s[i])
  }

  function TrimStart(s: string): (r: string)
    ensures |r| <= |s| && r == s[|s| - |r|..]
    ensures r == [] || !IsWhitespace(r[0])
    ensures IsBlank(s[..|s| - |r|])
  {
    if s == [] || !IsWhitespace(s[0]) then s
    else
      var rest := TrimStart(s[1..]);
      assert s[1..][..|s| - 1 - |rest|] == s[1..|s| - |rest|];
      rest
  }

  function TrimEnd(s: string): (r: string)
    ensures |r| <= |s| && r == s[..|r|]
    ensures r == [] || !IsWhitespace(r[|r| - 1])
    ensures IsBlank(s[|r|..])
  {
    if s == [] || !IsWhitespace(s[|s| - 1]) then s
    else
      var rest := TrimEnd(s[..|s| - 1]);
      assert s[..|s| - 1][|rest|..] == s[|rest|..|s| - 1];
      rest
  }

  /** `String.trim()`: drops leading and trailing whitespace. */
  function Trim(s: string): (r: string)
    ensures r == [] <==> IsBlank(s)
    ensures r != [] ==> !IsWhitespace(r[0]) && !IsWhitespace(r[|r| - 1])
  {
    var t := TrimStart(s);
    var r := TrimEnd(t);
    assert r == [] ==> IsBlank(s) by {
      if r == [] {
        assert t == [];
        assert s[..|s| - |t|] == s;
      }
    }
    assert r != [] ==> !IsBlank(s) by {
      if r != [] {
        assert t != [] && r[0] == t[0];
        assert s[|s| - |t|] == t[0];
      }
    }
    r
  }

  predicate StartsWith(s: string, prefix: string) {
    |prefix| <= |s| && s[..|prefix|] == prefix
  }

  /** `CharSequence.contains(other)`: `other` occurs as a contiguous substring. */
  predicate Contains(s: string, other: string)
    decreases |s|
  {
    StartsWith(s, other) || (s != [] && Contains(s[1..], other))
  }

  /** `joinToString(separator)` over a list of strings. */
  function JoinToString(parts: seq<string>, separator: string): string {
    if parts == [] then ""
    else if |parts| == 1 then parts[0]
    else parts[0] + separator + JoinToString(parts[1..], separator)
  }

  const TwoTo31: int := 0x8000_0000
  const TwoTo32: int := 0x1_0000_0000

  /** Two's-complement wrap-around into the 32-bit Int range. */
  function WrapInt32(x: int): (r: int)
    ensures -TwoTo31 <= r < TwoTo31
    ensures (r - x) % TwoTo32 == 0
  {
    (x + TwoTo31) % TwoTo32 - TwoTo31
  }

  /**
   * `String.hashCode()`: `h = 31 * h + c` over the characters with 32-bit overflow.
   * Characters are taken by their code point (equal to the UTF-16 unit inside the BMP).
   */
  function HashCode(s: string): (h: int)
    ensures -TwoTo31 <= h < TwoTo31
  {
    if s == [] then 0 else WrapInt32(31 * HashCode(s[..|s| - 1]) + s[|s| - 1] as int)
  }
}
