/** Decimal text for integers, as produced by Python's `str(int)` and
    `f"{n:02d}"`, and the digit parser that reads it back. */
module Decimal {
  import opened Wrappers

  predicate IsDigit(c: char)
  {
    '0' <= c <= '9'
  }

  predicate AllDigits(s: string)
  {
    forall i :: 0 <= i < |s| ==> IsDigit(s[i])
  }

  function DigitChar(d: nat): (c: char)
    requires d < 10
    ensures IsDigit(c) && c as int - '0' as int == d
  {
    ('0' as int + d) as char
  }

  function DigitValue(c: char): (d: nat)
    requires IsDigit(c)
    ensures d < 10 && DigitChar(d) == c
  {
    c as int - '0' as int
  }

  function Pow10(k: nat): (p: nat)
    ensures p >= 1
  {
    if k == 0 then 1 else 10 * Pow10(k - 1)
  }

  lemma {:induction false} Pow10Monotonic(i: nat, j: nat)
    requires i <= j
    ensures Pow10(i) <= Pow10(j)
  {
    if i < j {
      Pow10Monotonic(i, j - 1);
    }
  }

  /** `str(n)` for a natural number: no sign, no leading zeros, so its
      length is the number of decimal digits of `n`. */
  function NatToString(n: nat): (s: string)
    ensures 1 <= |s| && AllDigits(s)
    ensures n < Pow10(|s|) && (|s| > 1 ==> Pow10(|s| - 1) <= n)
    ensures s[0] == '0' ==> n == 0
  {
    if n < 10 then [DigitChar(n)] else NatToString(n / 10) + [DigitChar(n % 10)]
  }

  /** A number in `[10^(k-1), 10^k)` has exactly `k` digits. */
  lemma NatToStringLength(n: nat, k: nat)
    requires 1 <= k && (k > 1 ==> Pow10(k - 1) <= n) && n < Pow10(k)
    ensures |NatToString(n)| == k
  {
    var s := NatToString(n);
    if |s| > k {
      Pow10Monotonic(k, |s| - 1);
    } else if |s| < k {
      Pow10Monotonic(|s|, k - 1);
    }
  }

  /** `str(i)` for any integer. */
  function IntToString(i: int): (s: string)
    ensures 1 <= |s|
    ensures i < 0 <==> s[0] == '-'
  {
    if i < 0 then "-" + NatToString(-i) else NatToString(i)
  }

  /** `f"{n:02d}"`: at least two digits, zero-padded on the left. */
  function Pad2(n: nat): (s: string)
    ensures AllDigits(s) && 2 <= |s|
    ensures n < 100 ==> |s| == 2
  {
    assert Pow10(1) == 10 && Pow10(2) == 100;
    if n < 10 then NatToStringLength(n, 1); "0" + NatToString(n)
    else if n < 100 then NatToStringLength(n, 2); NatToString(n)
    else NatToStringLengthAtLeast(n, 2); NatToString(n)
  }

  /** `f"{n:04d}"`. */
  function Pad4(n: nat): (s: string)
    ensures AllDigits(s) && 4 <= |s|
    ensures n < 10000 ==> |s| == 4
  {
    assert Pow10(1) == 10 && Pow10(2) == 100 && Pow10(3) == 1000 && Pow10(4) == 10000;
    if n < 10 then NatToStringLength(n, 1); "000" + NatToString(n)
    else if n < 100 then NatToStringLength(n, 2); "00" + NatToString(n)
    else if n < 1000 then NatToStringLength(n, 3); "0" + NatToString(n)
    else if n < 10000 then NatToStringLength(n, 4); NatToString(n)
    else NatToStringLengthAtLeast(n, 4); NatToString(n)
  }

  /** A number of at least `10^(k-1)` has at least `k` digits. */
  lemma NatToStringLengthAtLeast(n: nat, k: nat)
    requires 1 <= k && Pow10(k - 1) <= n
    ensures |NatToString(n)| >= k
  {
    var s := NatToString(n);
    if |s| < k {
      Pow10Monotonic(|s|, k - 1);
    }
  }

  /** The value of a string of decimal digits, most significant first. */
  function DigitsValue(s: string): nat
    requires AllDigits(s)
  {
    if |s| == 0 then 0 else DigitsValue(s[..|s| - 1]) * 10 + DigitValue(s[|s| - 1])
  }

  /** `int(s)` restricted to unsigned digit strings: None when `s` is empty
      or holds anything but digits. */
  function ParseNat(s: string): (r: Option<nat>)
    ensures r.Some? <==> 1 <= |s| && AllDigits(s)
  {
    if 1 <= |s| && AllDigits(s) then Some(DigitsValue(s)) else None
  }

  lemma {:induction false} DigitsValueOfNat(n: nat)
    ensures DigitsValue(NatToString(n)) == n
  {
    if n >= 10 {
      var s := NatToString(n);
      assert s[..|s| - 1] == NatToString(n / 10);
      DigitsValueOfNat(n / 10);
    }
  }

  lemma {:induction false} DigitsValueLeadingZero(s: string)
    requires AllDigits(s)
    ensures DigitsValue("0" + s) == DigitsValue(s)
  {
    if |s| > 0 {
      var t := "0" + s;
      assert t[..|t| - 1] == "0" + s[..|s| - 1];
      DigitsValueLeadingZero(s[..|s| - 1]);
    } else {
      assert ("0" + s)[..0] == "";
    }
  }

  /** Reading back what `str(n)` wrote gives `n`. */
  lemma ParseNatToString(n: nat)
    ensures ParseNat(NatToString(n)) == Some(n)
  {
    DigitsValueOfNat(n);
  }

  /** Reading back what `f"{n:02d}"` wrote gives `n`. */
  lemma ParsePad2(n: nat)
    ensures ParseNat(Pad2(n)) == Some(n)
  {
    DigitsValueOfNat(n);
    if n < 10 {
      DigitsValueLeadingZero(NatToString(n));
    }
  }

  /** Reading back what `f"{n:04d}"` wrote gives `n`. */
  lemma ParsePad4(n: nat)
    ensures ParseNat(Pad4(n)) == Some(n)
  {
    DigitsValueOfNat(n);
    var s := NatToString(n);
    if n < 1000 {
      DigitsValueLeadingZero(s);
      assert "00" + s == "0" + ("0" + s);
      if n < 100 {
        DigitsValueLeadingZero("0" + s);
        assert "000" + s == "0" + ("0" + ("0" + s));
        if n < 10 {
          DigitsValueLeadingZero("0" + ("0" + s));
        }
      }
    }
  }
}
