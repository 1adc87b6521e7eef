/**
 * Decimal digit strings: `strconv.Itoa` on non-negative numbers, the
 * number a digit string denotes, and a fixed-width zero-padded rendering
 * used as the reference for the name tokens.
 */
module Decimal {

  function Pow10(k: nat): (r: nat)
    ensures r >= 1
  {
    if k == 0 then 1 else 10 * Pow10(k - 1)
  }

  predicate IsDigit(c: char) {
    '0' <= c <= '9'
  }

  predicate IsDigits(s: string) {
    forall i :: 0 <= i < |s| ==> IsDigit(s[i])
  }

  function DigitValue(c: char): (d: nat)
    requires IsDigit(c)
    ensures d < 10
  {
    c as int - '0' as int
  }

  function DigitChar(d: nat): (c: char)
    requires d < 10
    ensures IsDigit(c) && DigitValue(c) == d
  {
    ('0' as int + d) as char
  }

  /** The number a digit string denotes, most significant digit first. */
  function ValueOf(s: string): nat
    requires IsDigits(s)
  {
    if s == [] then 0 else 10 * ValueOf(s[..|s| - 1]) + DigitValue(s[|s| - 1])
  }

  /** `strconv.Itoa` on a non-negative number: the shortest decimal rendering. */
  function Itoa(n: nat): (s: string)
    ensures IsDigits(s) && |s| >= 1
    decreases n
  {
    if n < 10 then [DigitChar(n)] else Itoa(n / 10) + [DigitChar(n % 10)]
  }

  /** The last `w` decimal digits of `n`, zero-padded on the left. */
  function Padded(n: nat, w: nat): (s: string)
    ensures IsDigits(s) && |s| == w
  {
    if w == 0 then [] else Padded(n / 10, w - 1) + [DigitChar(n % 10)]
  }

  /** `Itoa` is read back by `ValueOf`. */
  lemma {:induction false} ItoaValue(n: nat)
    ensures ValueOf(Itoa(n)) == n
    decreases n
  {
    var s := Itoa(n);
    if n >= 10 {
      ItoaValue(n / 10);
      assert s[..|s| - 1] == Itoa(n / 10);
    }
  }

  lemma ModOfDigits(n: nat, p: nat)
    requires p >= 1
    ensures 10 * ((n / 10) % p) + n % 10 == n % (10 * p)
  {
    var q, r := n / 10, n % 10;
    var a, b := q / p, q % p;
    assert n == (10 * p) * a + (10 * b + r);
    assert 0 <= 10 * b + r < 10 * p;
    DivModUnique(n, 10 * p, a, 10 * b + r);
  }

  lemma DivModUnique(n: int, d: int, q: int, r: int)
    requires d > 0 && n == d * q + r && 0 <= r < d
    ensures n % d == r && n / d == q
  {
    var x := q - n / d;
    assert d * x == n % d - r;
    if x >= 1 {
      MulGrows(d, x);
    } else if x <= -1 {
      MulGrows(d, -x);
    }
  }

  lemma MulGrows(d: int, x: int)
    requires d > 0 && x >= 1
    ensures d * x >= d
  {
  }

  /** The padded rendering denotes `n` modulo 10 to the power of the width. */
  lemma {:induction false} PaddedValue(n: nat, w: nat)
    ensures ValueOf(Padded(n, w)) == n % Pow10(w)
  {
    if w > 0 {
      var s := Padded(n, w);
      assert s[..|s| - 1] == Padded(n / 10, w - 1);
      PaddedValue(n / 10, w - 1);
      ModOfDigits(n, Pow10(w - 1));
    }
  }

  /** Two digit strings of one length that denote the same number are equal. */
  lemma {:induction false} ValueOfInjective(s: string, t: string)
    requires IsDigits(s) && IsDigits(t) && |s| == |t|
    requires ValueOf(s) == ValueOf(t)
    ensures s == t
  {
    if s != [] {
      var n := |s| - 1;
      var v, w := ValueOf(s[..n]), ValueOf(t[..n]);
      DivModUnique(ValueOf(s), 10, v, DigitValue(s[n]));
      DivModUnique(ValueOf(t), 10, w, DigitValue(t[n]));
      ValueOfInjective(s[..n], t[..n]);
      assert s[n] == t[n];
      assert s == s[..n] + [s[n]] && t == t[..n] + [t[n]];
    }
  }

  lemma Regroup(d: int, p: int, a: int, b: int)
    ensures 10 * (d * p + a) + b == d * (10 * p) + (10 * a + b)
  {
  }

  /** The leading digit of a digit string weighs 10 to the power of the rest's length. */
  lemma {:induction false} ValueOfHead(s: string)
    requires IsDigits(s) && |s| >= 1
    ensures ValueOf(s) == DigitValue(s[0]) * Pow10(|s| - 1) + ValueOf(s[1..])
  {
    var n := |s|;
    if n > 1 {
      var init, tail := s[..n - 1], s[1..];
      ValueOfHead(init);
      assert init[1..] == tail[..n - 2];
      var d, p := DigitValue(s[0]), Pow10(n - 2);
      var a, b := ValueOf(init[1..]), DigitValue(s[n - 1]);
      assert ValueOf(init) == d * p + a;
      assert ValueOf(s) == 10 * ValueOf(init) + b;
      assert ValueOf(tail) == 10 * a + b;
      assert Pow10(n - 1) == 10 * p;
      Regroup(d, p, a, b);
    }
  }

  /** A number in [10^k, 2 * 10^k) is rendered by `Itoa` as k + 1 digits, led by '1'. */
  lemma {:induction false} ItoaLeadingOne(n: nat, k: nat)
    requires Pow10(k) <= n < 2 * Pow10(k)
    ensures |Itoa(n)| == k + 1 && Itoa(n)[0] == '1'
  {
    if k > 0 {
      ItoaLeadingOne(n / 10, k - 1);
    }
  }

  lemma Pow10Nine()
    ensures Pow10(9) == 1000000000
  {
    assert Pow10(3) == 1000;
    assert Pow10(6) == 1000 * Pow10(3) by { assert Pow10(6) == 10 * Pow10(5); }
  }
}
