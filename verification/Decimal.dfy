/** Decimal rendering of unsigned integers: std::to_string, std::stoull and the "%016llu" conversion. */
module Decimal {
  predicate IsDigit(c: char) { '0' <= c <= '9' }

  predicate AllDigits(s: string) { forall i :: 0 <= i < |s| ==> IsDigit(s[i]) }

  function DigitOf(d: nat): (c: char)
    requires d < 10
    ensures IsDigit(c) && c as int - '0' as int == d
  {
    (d + '0' as int) as char
  }

  // std::to_string on an unsigned value.
  function ToDecimal(n: nat): (s: string)
    ensures AllDigits(s) && |s| >= 1
  {
    if n < 10 then [DigitOf(n)] else ToDecimal(n / 10) + [DigitOf(n % 10)]
  }

  // std::stoull on a string of digits (leading zeros allowed).
  function FromDecimal(s: string): nat
    requires AllDigits(s)
  {
    if s == [] then 0
    else 10 * FromDecimal(s[..|s| - 1]) + (s[|s| - 1] as int - '0' as int)
  }

  function Zeros(n: nat): (s: string)
    ensures |s| == n && AllDigits(s)
  {
    seq(n, i => '0')
  }

  // "%016llu": at least 16 digits, padded on the left with zeros.
  function Pad16(n: nat): (s: string)
    ensures AllDigits(s) && |s| >= 16
  {
    var d := ToDecimal(n);
    if |d| >= 16 then d else Zeros(16 - |d|) + d
  }

  function Pow10(k: nat): (p: nat)
    ensures p >= 1
  {
    if k == 0 then 1 else 10 * Pow10(k - 1)
  }

  // Dictionary order on strings, the order of LevelDB's default comparator on these ASCII keys.
  predicate LexLess(a: string, b: string) {
    if b == "" then false
    else if a == "" then true
    else a[0] < b[0] || (a[0] == b[0] && LexLess(a[1..], b[1..]))
  }

  lemma {:induction false} DecimalRoundTrip(n: nat)
    ensures FromDecimal(ToDecimal(n)) == n
  {
    if n >= 10 {
      DecimalRoundTrip(n / 10);
      assert ToDecimal(n)[..|ToDecimal(n)| - 1] == ToDecimal(n / 10);
    }
  }

  lemma {:induction false} LeadingZeros(k: nat, d: string)
    requires AllDigits(d)
    ensures AllDigits(Zeros(k) + d) && FromDecimal(Zeros(k) + d) == FromDecimal(d)
    decreases |d|, k
  {
    var s := Zeros(k) + d;
    if d == "" {
      if k > 0 {
        LeadingZeros(k - 1, d);
        assert s[..|s| - 1] == Zeros(k - 1) + d;
      }
    } else {
      LeadingZeros(k, d[..|d| - 1]);
      assert s[..|s| - 1] == Zeros(k) + d[..|d| - 1];
    }
  }

  lemma PadRoundTrip(n: nat)
    ensures FromDecimal(Pad16(n)) == n
  {
    DecimalRoundTrip(n);
    var d := ToDecimal(n);
    if |d| < 16 {
      LeadingZeros(16 - |d|, d);
    }
  }

  // A number has at most k digits exactly when it is below 10^k.
  lemma {:induction false} DecimalLength(n: nat, k: nat)
    requires k >= 1
    ensures |ToDecimal(n)| <= k <==> n < Pow10(k)
  {
    if n >= 10 {
      if k == 1 {
        assert Pow10(1) == 10 * Pow10(0) == 10;
      } else {
        DecimalLength(n / 10, k - 1);
      }
    } else {
      assert Pow10(k) == 10 * Pow10(k - 1);
    }
  }

  // Appending one character to two strings of equal length: the order is decided by the
  // longer prefix first.
  lemma {:induction false} LexSnoc(a: string, b: string, x: char, y: char)
    requires |a| == |b|
    ensures LexLess(a + [x], b + [y]) <==> LexLess(a, b) || (a == b && x < y)
  {
    if a == "" {
      assert a + [x] == [x] && b + [y] == [y];
    } else {
      assert (a + [x])[1..] == a[1..] + [x] && (b + [y])[1..] == b[1..] + [y];
      LexSnoc(a[1..], b[1..], x, y);
      assert a == b <==> a[0] == b[0] && a[1..] == b[1..] by {
        assert a == [a[0]] + a[1..] && b == [b[0]] + b[1..];
      }
    }
  }

  // On digit strings of one length, dictionary order is numeric order and the value determines
  // the string.
  lemma {:induction false} LexIsNumeric(a: string, b: string)
    requires |a| == |b| && AllDigits(a) && AllDigits(b)
    ensures LexLess(a, b) <==> FromDecimal(a) < FromDecimal(b)
    ensures a == b <==> FromDecimal(a) == FromDecimal(b)
  {
    if a != "" {
      var i := |a| - 1;
      LexIsNumeric(a[..i], b[..i]);
      assert a == a[..i] + [a[i]] && b == b[..i] + [b[i]];
      LexSnoc(a[..i], b[..i], a[i], b[i]);
    }
  }

  // 10^k starts with a one, and its predecessor with a nine.
  lemma {:induction false} FirstDigits(k: nat)
    ensures ToDecimal(Pow10(k))[0] == '1'
    ensures k >= 1 ==> ToDecimal(Pow10(k) - 1)[0] == '9'
  {
    if k > 0 {
      FirstDigits(k - 1);
      var n := Pow10(k);
      assert n / 10 == Pow10(k - 1);
      assert ToDecimal(n)[0] == ToDecimal(n / 10)[0];
      if k > 1 {
        assert Pow10(k - 1) == 10 * Pow10(k - 2);
        assert (n - 1) / 10 == Pow10(k - 1) - 1;
        assert ToDecimal(n - 1)[0] == ToDecimal((n - 1) / 10)[0];
      } else {
        assert Pow10(0) == 1;
      }
    }
  }

  lemma {:induction false} Pow10Sum(a: nat, b: nat)
    ensures Pow10(a + b) == Pow10(a) * Pow10(b)
  {
    if a > 0 {
      Pow10Sum(a - 1, b);
    }
  }
}
