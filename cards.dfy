/**
 * Card anatomy: an `Account` is the issuer identification number, a
 * zero-filled account segment and the Luhn check digit, with a zero-filled
 * PIN and a zero balance. The two random draws are parameters.
 */
module Cards {
  import opened Wrappers
  import opened Decimal
  import opened Luhn

  /** Issuer Identification Number shared by every card. */
  const IIN: string := "400000"

  /** Upper bounds of `random.randint(0, 10 ** 9)` and `random.randint(0, 10 ** 4)`, both inclusive. */
  const SegmentDrawMax: nat := 1_000_000_000
  const PinDrawMax: nat := 10_000

  /** The fields `Account.__init__` sets; none of them changes afterwards. */
  datatype Account = Account(
    issuerIdNumber: string,
    accountNumber: string,
    checksum: string,
    cardNumber: string,
    pin: string,
    balance: int)

  lemma IINIsDigits()
    ensures |IIN| == 6 && AllDigits(IIN)
  {
  }

  /**
   * `Account()` given the two values its `random.randint` calls drew. The
   * card number is the IIN, the zero-filled segment and the checksum of those
   * fifteen or sixteen digits; segment and PIN denote the draws; the segment
   * has nine characters and the PIN four except at the top draws.
   */
  function NewAccount(segmentDraw: nat, pinDraw: nat): (a: Account)
    requires segmentDraw <= SegmentDrawMax && pinDraw <= PinDrawMax
    ensures a.cardNumber == a.issuerIdNumber + a.accountNumber + a.checksum
    ensures a.issuerIdNumber == IIN && a.balance == 0
    ensures AllDigits(a.cardNumber) && AllDigits(a.accountNumber) && AllDigits(a.pin)
    ensures |a.checksum| == 1 && Checksum(a.issuerIdNumber + a.accountNumber) == Some(a.checksum[0])
    ensures Value(a.accountNumber) == segmentDraw && Value(a.pin) == pinDraw
    ensures |a.accountNumber| == if segmentDraw < SegmentDrawMax then 9 else 10
    ensures |a.pin| == if pinDraw < PinDrawMax then 4 else 5
  {
    IINIsDigits();
    Pow10Values();
    var account := ZFillStr(segmentDraw, 9);
    AllDigitsConcat(IIN, account);
    var checksum := [Checksum(IIN + account).value];
    AllDigitsConcat(IIN + account, checksum);
    Account(IIN, account, checksum, IIN + account + checksum, ZFillStr(pinDraw, 4), 0)
  }

  /**
   * Every draw below 10^9 gives a sixteen-digit card number that starts with
   * the IIN, carries the draw in characters 6..15, and passes both the
   * transfer screen's test and the standard's check.
   */
  lemma {:induction false} IssuedCardIsValid(segmentDraw: nat, pinDraw: nat)
    requires segmentDraw < SegmentDrawMax && pinDraw <= PinDrawMax
    ensures var card := NewAccount(segmentDraw, pinDraw).cardNumber;
      && |card| == 16
      && card[..6] == IIN
      && Value(card[6..15]) == segmentDraw
      && CheckCardNumber(card) == Accepted
      && IsoValid(Digits(card).value)
  {
    var a := NewAccount(segmentDraw, pinDraw);
    var card := a.cardNumber;
    IINIsDigits();
    assert card[..6] == IIN;
    assert card[6..15] == a.accountNumber;
    assert card[..15] == IIN + a.accountNumber;
    assert card[15] == a.checksum[0];
    CheckCardNumberIsIso(card);
  }

  /**
   * The top draw, 10^9 itself, gives a seventeen-character card number,
   * which the transfer screen always turns down.
   */
  lemma {:induction false} TopDrawCardIsRejected(segmentDraw: nat, pinDraw: nat)
    requires segmentDraw == SegmentDrawMax && pinDraw <= PinDrawMax
    ensures |NewAccount(segmentDraw, pinDraw).cardNumber| == 17
    ensures CheckCardNumber(NewAccount(segmentDraw, pinDraw).cardNumber) == Rejected
  {
    var card := NewAccount(segmentDraw, pinDraw).cardNumber;
    IINIsDigits();
    assert AllDigits(card[..15]);
    LongNumberIsRejected(card);
  }

  /** Every draw below 10^4 gives a four-digit PIN that denotes the draw. */
  lemma {:induction false} IssuedPinIsFourDigits(segmentDraw: nat, pinDraw: nat)
    requires segmentDraw <= SegmentDrawMax && pinDraw < PinDrawMax
    ensures var pin := NewAccount(segmentDraw, pinDraw).pin;
      |pin| == 4 && AllDigits(pin) && Value(pin) == pinDraw
  {
  }

  /** The top draw, 10^4 itself, gives a five-character PIN. */
  lemma {:induction false} TopDrawPinHasFiveDigits(segmentDraw: nat, pinDraw: nat)
    requires segmentDraw <= SegmentDrawMax && pinDraw == PinDrawMax
    ensures |NewAccount(segmentDraw, pinDraw).pin| == 5
  {
  }

  /** Different account-segment draws never give the same card number. */
  lemma {:induction false} DistinctDrawsDistinctCards(s1: nat, p1: nat, s2: nat, p2: nat)
    requires s1 <= SegmentDrawMax && p1 <= PinDrawMax
    requires s2 <= SegmentDrawMax && p2 <= PinDrawMax
    requires s1 != s2
    ensures NewAccount(s1, p1).cardNumber != NewAccount(s2, p2).cardNumber
  {
    var a1, a2 := NewAccount(s1, p1), NewAccount(s2, p2);
    var n1, n2 := |a1.accountNumber|, |a2.accountNumber|;
    IINIsDigits();
    assert a1.accountNumber == a1.cardNumber[6..6 + n1];
    assert a2.accountNumber == a2.cardNumber[6..6 + n2];
    if n1 == n2 {
      assert a1.cardNumber[6..6 + n1] != a2.cardNumber[6..6 + n2];
    } else {
      assert |a1.cardNumber| != |a2.cardNumber|;
    }
  }

}
