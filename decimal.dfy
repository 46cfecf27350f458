/**
 * Decimal text as the source handles it: the characters of card numbers and
 * PINs, `int(x)` of one character, `str(n)` of a non-negative int, and
 * `str.zfill`, together with the number a digit string denotes.
 */
module Decimal {
  import opened Wrappers

  predicate IsDigit(c: char) { '0' <= c <= '9' }

  predicate AllDigits(s: string) { forall i :: 0 <= i < |s| ==> IsDigit(s[i]) }

  lemma {:induction false} AllDigitsConcat(a: string, b: string)
    requires AllDigits(a) && AllDigits(b)
    ensures AllDigits(a + b)
  {
  }

  /** `int(c)` for a decimal digit character. */
  function DigitValue(c: char): (d: nat)
    requires IsDigit(c)
    ensures d <= 9
  {
    c as int - '0' as int
  }

  /** The character `str` writes for a digit. */
  function DigitChar(d: nat): (c: char)
    requires d <= 9
    ensures IsDigit(c) && DigitValue(c) == d
  {
    ('0' as int + d) as char
  }

  /**
   * `[int(x) for x in s]`: one digit per character, or None where `int`
   * raises ValueError because some character is not a decimal digit.
   */
  function Digits(s: string): (r: Option<seq<nat>>)
    ensures r.Some? <==> AllDigits(s)
    ensures r.Some? ==> |r.value| == |s|
    ensures r.Some? ==> forall i :: 0 <= i < |s| ==> r.value[i] <= 9 && DigitChar(r.value[i]) == s[i]
  {
    if AllDigits(s) then Some(seq(|s|, i requires 0 <= i < |s| => DigitValue(s[i]))) else None
  }

  /** The number a digit string denotes, most significant digit first. */
  function Value(s: string): nat
    requires AllDigits(s)
  {
    if s == [] then 0 else Value(s[..|s| - 1]) * 10 + DigitValue(s[|s| - 1])
  }

  function Pow10(k: nat): (p: nat)
    ensures p >= 1
  {
    if k == 0 then 1 else 10 * Pow10(k - 1)
  }

  /** `str(n)` for a non-negative int: its decimal digits, with no leading zero. */
  function Str(n: nat): (s: string)
    ensures 1 <= |s| && AllDigits(s)
    ensures s[0] == '0' <==> n == 0
  {
    if n < 10 then [DigitChar(n)] else Str(n / 10) + [DigitChar(n % 10)]
  }

  /** `str` and `int` are inverse: the text `str(n)` denotes `n`. */
  lemma {:induction false} StrValue(n: nat)
    ensures Value(Str(n)) == n
  {
    if n >= 10 {
      StrValue(n / 10);
      var s := Str(n);
      assert s[..|s| - 1] == Str(n / 10);
    }
  }

  /** `str(n)` fits in `k` characters exactly when `n < 10^k`. */
  lemma {:induction false} StrLength(n: nat, k: nat)
    requires k >= 1
    ensures |Str(n)| <= k <==> n < Pow10(k)
  {
    if n < 10 {
      assert Pow10(k) >= 10;
    } else if k == 1 {
      assert Pow10(1) == 10;
    } else {
      StrLength(n / 10, k - 1);
      assert Pow10(k) == 10 * Pow10(k - 1);
    }
  }

  /** The widths the source zero-fills to: 10^4 and 10^9. */
  lemma Pow10Values()
    ensures Pow10(4) == 10_000 && Pow10(9) == 1_000_000_000
  {
  }

  function Zeros(k: nat): (z: string)
    ensures |z| == k && forall i :: 0 <= i < k ==> z[i] == '0'
  {
    seq(k, _ => '0')
  }

  /**
   * `s.zfill(width)` for an unsigned string: '0' characters are put in front
   * until it is `width` long; a string already that long is unchanged.
   */
  function ZFill(s: string, width: nat): (r: string)
    requires AllDigits(s)
    ensures |r| == if |s| < width then width else |s|
    ensures r[|r| - |s|..] == s
    ensures forall i :: 0 <= i < |r| - |s| ==> r[i] == '0'
    ensures AllDigits(r)
  {
    if |s| < width then Zeros(width - |s|) + s else s
  }

  lemma {:induction false} ZerosValue(k: nat)
    ensures Value(Zeros(k)) == 0
  {
    if k > 0 {
      assert Zeros(k)[..k - 1] == Zeros(k - 1);
      ZerosValue(k - 1);
    }
  }

  lemma {:induction false} LeadingZerosValue(k: nat, s: string)
    requires AllDigits(s)
    ensures Value(Zeros(k) + s) == Value(s)
  {
    if s == [] {
      assert Zeros(k) + s == Zeros(k);
      ZerosValue(k);
    } else {
      var t := Zeros(k) + s;
      assert t[..|t| - 1] == Zeros(k) + s[..|s| - 1];
      LeadingZerosValue(k, s[..|s| - 1]);
    }
  }

  /**
   * `str(n).zfill(width)` is exactly `width` long when `n < 10^width`, and one
   * character longer when `n` is `10^width` itself.
   */
  lemma {:induction false} ZFillStrLength(n: nat, width: nat)
    requires width >= 1 && n <= Pow10(width)
    ensures |ZFill(Str(n), width)| == if n < Pow10(width) then width else width + 1
  {
    var s := Str(n);
    StrLength(n, width);
    StrLength(n, width + 1);
    assert Pow10(width + 1) == 10 * Pow10(width);
    assert |s| <= width + 1;
    var z := ZFill(s, width);
    if n < Pow10(width) {
      assert |s| <= width;
      assert |z| == width;
    } else {
      assert |s| == width + 1;
      assert |z| == |s|;
    }
  }

  /** Zero-filling does not change the number a digit string denotes. */
  lemma {:induction false} ZFillValue(s: string, width: nat)
    requires AllDigits(s)
    ensures Value(ZFill(s, width)) == Value(s)
  {
    if |s| < width {
      assert ZFill(s, width) == Zeros(width - |s|) + s;
      LeadingZerosValue(width - |s|, s);
    } else {
      assert ZFill(s, width) == s;
    }
  }

  /**
   * `str(n).zfill(width)` for `n` up to `10^width`: a digit string that
   * denotes `n`, exactly `width` long below `10^width` and one longer at it.
   */
  function ZFillStr(n: nat, width: nat): (s: string)
    requires width >= 1 && n <= Pow10(width)
    ensures AllDigits(s) && Value(s) == n
    ensures |s| == if n < Pow10(width) then width else width + 1
  {
    StrValue(n);
    ZFillValue(Str(n), width);
    ZFillStrLength(n, width);
    ZFill(Str(n), width)
  }

}
