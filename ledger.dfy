/**
 * The `BankingSystem` of the source with the SQL taken away: the `card`
 * table is a map from card number to row (the UNIQUE number column makes it
 * a map), the AUTOINCREMENT counter is a field, and the session is the two
 * fields `logged_in` and `current_card_data`. Each menu action is one method.
 */
module Ledger {
  import opened Wrappers
  import opened Decimal
  import opened Luhn
  import opened Cards

  /** A row of the `card` table apart from its `number` key. */
  datatype Row = Row(id: nat, pin: string, balance: int)

  /** The tuple `(id, number, pin, balance)` that `SELECT *` returns for one card. */
  datatype CardData = CardData(id: nat, number: string, pin: string, balance: int)

  type Table = map<string, Row>

  /** The money held in the table: the sum of every row's balance. */
  ghost function Total(table: Table): int
    decreases |table|
  {
    if table == map[] then 0
    else
      var number :| number in table;
      table[number].balance + Total(table - {number})
  }

  /** Any row may be taken out first when summing. */
  lemma {:induction false} TotalRemove(table: Table, number: string)
    requires number in table
    ensures Total(table) == table[number].balance + Total(table - {number})
    decreases |table|
  {
    var first :| first in table && Total(table) == table[first].balance + Total(table - {first});
    if first != number {
      TotalRemove(table - {first}, number);
      TotalRemove(table - {number}, first);
      assert (table - {first}) - {number} == (table - {number}) - {first};
    }
  }

  /** Replacing one row changes the total by the difference of the two balances. */
  lemma {:induction false} TotalUpdate(table: Table, number: string, row: Row)
    requires number in table
    ensures Total(table[number := row]) == Total(table) - table[number].balance + row.balance
  {
    TotalRemove(table, number);
    TotalRemove(table[number := row], number);
    assert table[number := row] - {number} == table - {number};
  }

  /** `UPDATE card SET balance = balance + amount WHERE number = number`. */
  function Credit(table: Table, number: string, amount: int): (t: Table)
    ensures t.Keys == table.Keys
    ensures forall n :: n in table && n != number ==> t[n] == table[n]
    ensures forall n :: n in table ==> t[n].id == table[n].id && t[n].pin == table[n].pin
    ensures number in table ==> t[number].balance == table[number].balance + amount
  {
    if number in table then table[number := table[number].(balance := table[number].balance + amount)]
    else table
  }

  /** `UPDATE card SET balance = balance - amount WHERE number = number`. */
  function Debit(table: Table, number: string, amount: int): (t: Table)
    ensures t.Keys == table.Keys
    ensures forall n :: n in table && n != number ==> t[n] == table[n]
    ensures forall n :: n in table ==> t[n].id == table[n].id && t[n].pin == table[n].pin
    ensures number in table ==> t[number].balance == table[number].balance - amount
  {
    if number in table then table[number := table[number].(balance := table[number].balance - amount)]
    else table
  }

  /** A credit adds its amount to the money in the table when the card exists, and nothing otherwise. */
  lemma {:induction false} CreditTotal(table: Table, number: string, amount: int)
    ensures Total(Credit(table, number, amount)) == Total(table) + if number in table then amount else 0
  {
    if number in table {
      var row := table[number].(balance := table[number].balance + amount);
      assert Credit(table, number, amount) == table[number := row];
      TotalUpdate(table, number, row);
    } else {
      assert Credit(table, number, amount) == table;
    }
  }

  /** A debit takes its amount out of the money in the table when the card exists, and nothing otherwise. */
  lemma {:induction false} DebitTotal(table: Table, number: string, amount: int)
    ensures Total(Debit(table, number, amount)) == Total(table) - if number in table then amount else 0
  {
    if number in table {
      var row := table[number].(balance := table[number].balance - amount);
      assert Debit(table, number, amount) == table[number := row];
      TotalUpdate(table, number, row);
    } else {
      assert Debit(table, number, amount) == table;
    }
  }

  /** `transfer_amount`: the debit of the sender, then the credit of the destination. */
  function Move(table: Table, from: string, to: string, amount: int): (t: Table)
    ensures t.Keys == table.Keys
    ensures forall n :: n in table && n != from && n != to ==> t[n] == table[n]
    ensures forall n :: n in table ==> t[n].id == table[n].id && t[n].pin == table[n].pin
  {
    Credit(Debit(table, from, amount), to, amount)
  }

  /**
   * A transfer between two cards on file conserves the money in the table;
   * the sender loses `amount`, the destination gains it, every other row is
   * untouched, and a transfer to oneself changes nothing.
   */
  lemma {:induction false} MoveConserves(table: Table, from: string, to: string, amount: int)
    requires from in table && to in table
    ensures var t := Move(table, from, to, amount);
      && Total(t) == Total(table)
      && t.Keys == table.Keys
      && (from != to ==> t[from].balance == table[from].balance - amount)
      && (from != to ==> t[to].balance == table[to].balance + amount)
      && (forall n :: n in table && n != from && n != to ==> t[n] == table[n])
      && (from == to ==> t == table)
  {
    var debited := Debit(table, from, amount);
    var t := Credit(debited, to, amount);
    DebitTotal(table, from, amount);
    CreditTotal(debited, to, amount);
    if from == to {
      assert t[from] == table[from];
      assert t == table;
    }
  }

  /** Deleting a row takes its balance out of the money in the table. */
  lemma {:induction false} CloseTotal(table: Table, number: string)
    requires number in table
    ensures Total(table - {number}) == Total(table) - table[number].balance
  {
    TotalRemove(table, number);
  }

  /** What the transfer screen ends with. */
  datatype TransferOutcome =
    | BadDigit        // `int(x)` raised ValueError in the checksum: the program stops
    | BadNumber       // "Probably you made a mistake in the card number. Please try again!"
    | NoSuchCard      // "Such a card does not exist."
    | NoSenderRow     // the sender's row is gone, and indexing the missing row raises TypeError
    | NotEnoughMoney  // "Not enough money!"
    | Success         // "Success!"

  /**
   * The transfer screen's decision chain: the card-number test, then the
   * destination's existence, then the sender's funds; the first failure
   * decides the outcome.
   */
  function TransferDecision(destination: string, amount: int, sender: string, table: Table): (o: TransferOutcome)
    ensures CheckCardNumber(destination) == Unparsable ==> o == BadDigit
    ensures CheckCardNumber(destination) == Rejected ==> o == BadNumber
    ensures CheckCardNumber(destination) == Accepted && destination !in table ==> o == NoSuchCard
    ensures CheckCardNumber(destination) == Accepted && destination in table && sender !in table ==> o == NoSenderRow
    ensures (CheckCardNumber(destination) == Accepted && destination in table && sender in table &&
             table[sender].balance < amount) ==> o == NotEnoughMoney
    ensures o == Success ==> destination in table && sender in table && amount <= table[sender].balance
  {
    match CheckCardNumber(destination)
    case Unparsable => BadDigit
    case Rejected => BadNumber
    case Accepted =>
      if destination !in table then NoSuchCard
      else if sender !in table then NoSenderRow
      else if table[sender].balance < amount then NotEnoughMoney
      else Success
  }

  /**
   * A transfer goes through exactly when the destination is a sixteen-digit
   * number that passes the standard's check, both cards are on file and the
   * sender holds at least the amount.
   */
  lemma {:induction false} TransferSucceedsIff(destination: string, amount: int, sender: string, table: Table)
    ensures TransferDecision(destination, amount, sender, table) == Success <==>
      && |destination| == 16 && AllDigits(destination) && IsoValid(Digits(destination).value)
      && destination in table && sender in table
      && amount <= table[sender].balance
  {
    CheckCardNumberIsIso(destination);
  }

  /**
   * With a non-negative amount and no negative balance before, a completed
   * transfer leaves no negative balance.
   */
  lemma {:induction false} TransferKeepsBalancesNonNegative(destination: string, amount: int, sender: string, table: Table)
    requires amount >= 0
    requires forall n :: n in table ==> table[n].balance >= 0
    requires TransferDecision(destination, amount, sender, table) == Success
    ensures var t := Move(table, sender, destination, amount);
      forall n :: n in t ==> t[n].balance >= 0
  {
  }

  /**
   * The amount's sign is never checked: a negative amount passes the funds
   * test and pulls money out of the destination, below zero if need be.
   */
  lemma {:induction false} NegativeAmountDrainsDestination(destination: string, amount: int, sender: string, table: Table)
    requires CheckCardNumber(destination) == Accepted
    requires destination in table && sender in table && sender != destination
    requires amount < 0 <= table[sender].balance
    ensures TransferDecision(destination, amount, sender, table) == Success
    ensures Move(table, sender, destination, amount)[destination].balance == table[destination].balance + amount
  {
  }

  /** The logic of `BankingSystem` over an abstract `card` table. */
  class BankingSystem {
    /** The `card` table, keyed by its UNIQUE `number` column. */
    var cards: Table
    /** The next value AUTOINCREMENT gives to `id`. */
    var nextId: nat
    var loggedIn: bool
    /** `current_card_data`: the row fetched at login, or the empty tuple. */
    var currentCardData: Option<CardData>

    /**
     * Ids are positive, below the counter and never shared by two rows, and
     * a card's data is held exactly while someone is logged in.
     */
    ghost predicate Valid()
      reads this
    {
      && 1 <= nextId
      && (forall n :: n in cards ==> 1 <= cards[n].id < nextId)
      && (forall n, m :: n in cards && m in cards && cards[n].id == cards[m].id ==> n == m)
      && (loggedIn <==> currentCardData.Some?)
    }

    /** A fresh session over an empty table. */
    constructor ()
      ensures Valid()
      ensures cards == map[] && nextId == 1
      ensures !loggedIn && currentCardData == None
    {
      cards := map[];
      nextId := 1;
      loggedIn := false;
      currentCardData := None;
    }

    /** `insert_into_table`: a card number already on file violates UNIQUE and nothing is written. */
    method InsertIntoTable(number: string, pin: string, balance: int) returns (inserted: bool)
      requires Valid()
      modifies this`cards, this`nextId
      ensures Valid()
      ensures inserted <==> number !in old(cards)
      ensures inserted ==> cards == old(cards)[number := Row(old(nextId), pin, balance)] && nextId == old(nextId) + 1
      ensures !inserted ==> cards == old(cards) && nextId == old(nextId)
    {
      inserted := number !in cards;
      if inserted {
        cards := cards[number := Row(nextId, pin, balance)];
        nextId := nextId + 1;
      }
    }

    /** Menu option "Create an account": a new `Account` from the two draws, then its insertion. */
    method CreateAccount(segmentDraw: nat, pinDraw: nat) returns (account: Account, inserted: bool)
      requires Valid()
      requires segmentDraw <= SegmentDrawMax && pinDraw <= PinDrawMax
      modifies this`cards, this`nextId
      ensures Valid()
      ensures account == NewAccount(segmentDraw, pinDraw)
      ensures inserted <==> account.cardNumber !in old(cards)
      ensures inserted ==> cards == old(cards)[account.cardNumber := Row(old(nextId), account.pin, 0)]
      ensures !inserted ==> cards == old(cards)
      ensures inserted ==> nextId == old(nextId) + 1
      ensures !inserted ==> nextId == old(nextId)
    {
      account := NewAccount(segmentDraw, pinDraw);
      inserted := InsertIntoTable(account.cardNumber, account.pin, account.balance);
    }

    /** `select_cards_numbers_from_table`: every card number on file, each once. */
    method SelectCardsNumbers() returns (numbers: seq<string>)
      ensures forall n :: n in numbers <==> n in cards
      ensures forall i, j :: 0 <= i < j < |numbers| ==> numbers[i] != numbers[j]
    {
      numbers := [];
      var rows := cards.Keys;
      while rows != {}
        invariant rows <= cards.Keys
        invariant forall n :: n in numbers <==> n in cards && n !in rows
        invariant forall i, j :: 0 <= i < j < |numbers| ==> numbers[i] != numbers[j]
        decreases |rows|
      {
        var n :| n in rows;
        numbers := numbers + [n];
        rows := rows - {n};
      }
    }

    /** `select_card_data_from_table`: the row of a card as `(id, number, pin, balance)`, or None. */
    function SelectCardData(number: string): (data: Option<CardData>)
      reads this
      ensures data.Some? <==> number in cards
      ensures data.Some? ==>
        data.value.number == number && Row(data.value.id, data.value.pin, data.value.balance) == cards[number]
    {
      if number in cards then
        Some(CardData(cards[number].id, number, cards[number].pin, cards[number].balance))
      else None
    }

    /**
     * `log_in`: the session opens only for a card on file whose stored PIN is
     * the one entered; a wrong PIN leaves no card data behind.
     */
    method LogIn(number: string, pin: string) returns (success: bool)
      requires Valid() && !loggedIn
      modifies this`loggedIn, this`currentCardData
      ensures Valid()
      ensures success <==> number in cards && cards[number].pin == pin
      ensures loggedIn == success
      ensures currentCardData == if success then SelectCardData(number) else None
    {
      var numbers := SelectCardsNumbers();
      success := false;
      if number in numbers {
        currentCardData := SelectCardData(number);
        if pin == currentCardData.value.pin {
          loggedIn := true;
          success := true;
        } else {
          currentCardData := None;
        }
      }
    }

    /** Menu option "Log out": both session fields are reset. */
    method LogOut()
      requires Valid()
      modifies this`loggedIn, this`currentCardData
      ensures Valid()
      ensures !loggedIn && currentCardData == None
    {
      currentCardData := None;
      loggedIn := false;
    }

    /** `add_income`: only the balance of the given card changes, by `income`. */
    method AddIncome(number: string, income: int)
      requires Valid()
      modifies this`cards
      ensures Valid()
      ensures cards == Credit(old(cards), number, income)
    {
      cards := Credit(cards, number, income);
    }

    /** `transfer_amount`: the debit UPDATE, then the credit UPDATE. */
    method TransferAmount(amount: int, from: string, to: string)
      requires Valid()
      modifies this`cards
      ensures Valid()
      ensures cards == Move(old(cards), from, to, amount)
    {
      cards := Debit(cards, from, amount);
      cards := Credit(cards, to, amount);
    }

    /** `close_account`: the row is deleted; the session is left as it was. */
    method CloseAccount(number: string)
      requires Valid()
      modifies this`cards
      ensures Valid()
      ensures cards == old(cards) - {number}
      ensures number !in cards
    {
      cards := cards - {number};
    }

    /**
     * Menu option "Do transfer" for the logged-in card: the decision chain,
     * and the two UPDATEs only when every test passes.
     */
    method Transfer(destination: string, amount: int) returns (outcome: TransferOutcome)
      requires Valid() && loggedIn
      modifies this`cards
      ensures Valid()
      ensures outcome == TransferDecision(destination, amount, currentCardData.value.number, old(cards))
      ensures outcome == Success ==> cards == Move(old(cards), currentCardData.value.number, destination, amount)
      ensures outcome != Success ==> cards == old(cards)
    {
      var userCard := currentCardData.value.number;
      var numbers := SelectCardsNumbers();
      var first15 := if |destination| < 15 then destination else destination[..15];
      var checkNumber := Checksum(first15);
      if checkNumber.None? {
        outcome := BadDigit;
      } else if |destination| != 16 || checkNumber.value != destination[|destination| - 1] {
        outcome := BadNumber;
      } else if destination !in numbers {
        outcome := NoSuchCard;
      } else {
        var userData := SelectCardData(userCard);
        if userData.None? {
          outcome := NoSenderRow;
        } else if userData.value.balance < amount {
          outcome := NotEnoughMoney;
        } else {
          TransferAmount(amount, userCard, destination);
          outcome := Success;
        }
      }
    }
  }

}
