/**
 * The check-digit engine of the card numbers (the Luhn formula of ISO/IEC
 * 7812-1, Annex B), as `Account.create_checksum_luhn_algorithm` computes it
 * from the left, the standard's own right-to-left reading of it, and the
 * card-number test of the transfer screen.
 */
module Luhn {
  import opened Wrappers
  import opened Decimal

  predicate AreDigits(ds: seq<nat>) { forall i :: 0 <= i < |ds| ==> ds[i] <= 9 }

  /** `list_15_double_odds`: the digits at odd positions counted from one are doubled. */
  function DoubleOdds(ds: seq<nat>): seq<nat>
  {
    seq(|ds|, i requires 0 <= i < |ds| => if (i + 1) % 2 != 0 then ds[i] * 2 else ds[i])
  }

  /** `list_15_minus_9`: nine is taken off every value above nine. */
  function MinusNine(xs: seq<nat>): seq<nat>
  {
    seq(|xs|, i requires 0 <= i < |xs| => if xs[i] > 9 then xs[i] - 9 else xs[i])
  }

  /** Python's `sum`. */
  function Sum(xs: seq<nat>): nat
  {
    if xs == [] then 0 else Sum(xs[..|xs| - 1]) + xs[|xs| - 1]
  }

  /**
   * What the standard adds for a digit: the sum of the digits of its product
   * with its weight, the weight being 2 when `doubled` and 1 otherwise.
   */
  function ProductDigitSum(d: nat, doubled: bool): nat
    requires d <= 9
  {
    var p := if doubled then 2 * d else d;
    p / 10 + p % 10
  }

  /**
   * The terms the checksum adds up: each digit doubled at even 0-based
   * indexes and reduced by nine when above nine. They are digits, and each is
   * the digit sum of the digit times weight 2 at even 0-based indexes and 1
   * at odd ones; these are the standard's weights only when the length is odd.
   */
  function LuhnTerms(ds: seq<nat>): (r: seq<nat>)
    ensures |r| == |ds|
    ensures AreDigits(ds) ==> AreDigits(r)
    ensures AreDigits(ds) ==> forall i :: 0 <= i < |ds| ==> r[i] == ProductDigitSum(ds[i], i % 2 == 0)
  {
    MinusNine(DoubleOdds(ds))
  }

  function LuhnSum(ds: seq<nat>): nat
  {
    Sum(LuhnTerms(ds))
  }

  /**
   * The check digit: `10 - sum % 10`, or 0 when the sum is already a
   * multiple of ten. It is a digit, and it completes the sum to a multiple of ten.
   */
  function CheckDigit(ds: seq<nat>): (c: nat)
    ensures c <= 9
    ensures (LuhnSum(ds) + c) % 10 == 0
  {
    var modulo := LuhnSum(ds) % 10;
    CompletesToTen(LuhnSum(ds));
    if modulo != 0 then 10 - modulo else modulo
  }

  /** Adding `10 - n % 10`, or nothing when `n % 10` is 0, reaches a multiple of ten. */
  lemma {:induction false} CompletesToTen(n: nat)
    ensures var m := n % 10; (n + if m != 0 then 10 - m else m) % 10 == 0
  {
    var q, m := n / 10, n % 10;
    assert n == 10 * q + m;
    if m != 0 {
      assert n + (10 - m) == 10 * (q + 1);
    }
  }

  /** No other digit completes the sum. */
  lemma {:induction false} CheckDigitIsUnique(ds: seq<nat>, d: nat)
    requires d <= 9 && (LuhnSum(ds) + d) % 10 == 0
    ensures d == CheckDigit(ds)
  {
  }

  /**
   * `create_checksum_luhn_algorithm(number)`: the check digit as a
   * one-character string, or None where `int(x)` raises ValueError.
   */
  function Checksum(number: string): (r: Option<char>)
    ensures r.Some? <==> AllDigits(number)
    ensures r.Some? ==> IsDigit(r.value)
    ensures r.Some? ==> (LuhnSum(Digits(number).value) + DigitValue(r.value)) % 10 == 0
  {
    match Digits(number)
    case None => None
    case Some(ds) => Some(DigitChar(CheckDigit(ds)))
  }

  /**
   * The standard's total read from the right: the rightmost digit has weight
   * 2 when `doubleLast`, and the weights alternate leftwards.
   */
  function RightTotal(ds: seq<nat>, doubleLast: bool): nat
    requires AreDigits(ds)
  {
    if ds == [] then 0
    else ProductDigitSum(ds[|ds| - 1], doubleLast) + RightTotal(ds[..|ds| - 1], !doubleLast)
  }

  /** A whole number, check digit included with weight 1, passes when its total is a multiple of ten. */
  predicate IsoValid(ds: seq<nat>)
    requires AreDigits(ds)
  {
    RightTotal(ds, false) % 10 == 0
  }

  /** The standard's check digit for a payload: its rightmost digit has weight 2. */
  function IsoCheckDigit(payload: seq<nat>): nat
    requires AreDigits(payload)
  {
    (10 - RightTotal(payload, true) % 10) % 10
  }

  /**
   * Doubling from the left at even indexes is the standard's doubling from
   * the right exactly when the length is odd: for an odd length the
   * rightmost digit is doubled, for an even one it is not.
   */
  lemma {:induction false} LuhnSumFromRight(ds: seq<nat>)
    requires AreDigits(ds)
    ensures LuhnSum(ds) == RightTotal(ds, |ds| % 2 == 1)
  {
    if ds != [] {
      var p, last := ds[..|ds| - 1], ds[|ds| - 1];
      var odd := |ds| % 2 == 1;
      assert (|p| % 2 == 1) == !odd && ((|ds| - 1) % 2 == 0) == odd;
      LuhnSumFromRight(p);
      LuhnSumLast(ds);
      assert RightTotal(ds, odd) == ProductDigitSum(last, odd) + RightTotal(p, !odd);
    }
  }

  /** Appending a digit at index i adds its term to the sum. */
  lemma {:induction false} LuhnSumLast(ds: seq<nat>)
    requires AreDigits(ds) && ds != []
    ensures LuhnSum(ds) == LuhnSum(ds[..|ds| - 1]) + ProductDigitSum(ds[|ds| - 1], (|ds| - 1) % 2 == 0)
  {
    var terms := LuhnTerms(ds);
    assert terms[..|terms| - 1] == LuhnTerms(ds[..|ds| - 1]);
  }

  /** Over an odd number of digits (the fifteen of a card) the source's check digit is the standard's. */
  lemma {:induction false} CheckDigitIsIso(payload: seq<nat>)
    requires AreDigits(payload) && |payload| % 2 == 1
    ensures CheckDigit(payload) == IsoCheckDigit(payload)
  {
    LuhnSumFromRight(payload);
    Complement(LuhnSum(payload) % 10);
  }

  /** `(10 - m) % 10` is the source's conditional `10 - m if m != 0 else m`. */
  lemma {:induction false} Complement(m: int)
    requires 0 <= m < 10
    ensures (10 - m) % 10 == if m != 0 then 10 - m else m
  {
    if m == 0 {
      assert (10 - m) % 10 == 0;
    }
  }

  /**
   * A number of even length (sixteen for a card) passes the standard's check
   * exactly when its last digit is the source's check digit of the others.
   */
  lemma {:induction false} IsoValidIffCheckDigit(ds: seq<nat>)
    requires AreDigits(ds) && |ds| > 0 && |ds| % 2 == 0
    ensures IsoValid(ds) <==> CheckDigit(ds[..|ds| - 1]) == ds[|ds| - 1]
  {
    var payload, last := ds[..|ds| - 1], ds[|ds| - 1];
    assert |payload| % 2 == 1;
    LuhnSumFromRight(payload);
    assert ProductDigitSum(last, false) == last;
    assert RightTotal(ds, false) == last + LuhnSum(payload);
    if IsoValid(ds) {
      CheckDigitIsUnique(payload, last);
    }
  }

  /** How the transfer screen judges a card number. */
  datatype NumberCheck =
    | Unparsable  // `int(x)` raised ValueError inside the checksum
    | Rejected    // "Probably you made a mistake in the card number."
    | Accepted

  /**
   * The transfer screen's test: the checksum of the first fifteen characters
   * is computed first, then the length must be 16 and the last character
   * must equal that checksum.
   */
  function CheckCardNumber(card: string): (r: NumberCheck)
    ensures r == Unparsable <==> !AllDigits(if |card| < 15 then card else card[..15])
    ensures r == Accepted ==> |card| == 16 && AllDigits(card)
  {
    var first15 := if |card| < 15 then card else card[..15];
    match Checksum(first15)
    case None => Unparsable
    case Some(check) =>
      if |card| != 16 || check != card[|card| - 1] then Rejected else Accepted
  }

  /** A number of more than sixteen characters whose first fifteen are digits is turned down. */
  lemma {:induction false} LongNumberIsRejected(card: string)
    requires |card| > 16 && AllDigits(card[..15])
    ensures CheckCardNumber(card) == Rejected
  {
  }

  /**
   * The screen accepts exactly the 16-digit numbers that pass the standard's
   * check, and stops with ValueError exactly when one of the first fifteen
   * characters is not a digit.
   */
  lemma {:induction false} CheckCardNumberIsIso(card: string)
    ensures CheckCardNumber(card) == Accepted <==>
      |card| == 16 && AllDigits(card) && IsoValid(Digits(card).value)
    ensures CheckCardNumber(card) == Unparsable <==>
      !AllDigits(if |card| < 15 then card else card[..15])
  {
    if |card| == 16 && AllDigits(card) {
      var ds := Digits(card).value;
      assert Digits(card[..15]).value == ds[..15];
      IsoValidIffCheckDigit(ds);
    }
  }

}
