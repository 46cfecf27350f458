# Simple Banking System: card numbers, ledger and transfers

A model of the core of a small banking program (`banking-system.py`). The program issues
card numbers of the form IIN `400000` + nine-digit account segment + Luhn check digit,
gives each a four-digit PIN (ten and five characters at the top draws; see Findings), and keeps the cards in a SQLite table `card(id, number, pin,
balance)`. A user logs in with card number and PIN. They can then deposit income, transfer
money to another card, close the account, or log out.

The model has five modules:

- `Wrappers` (`wrappers.dfy`): the `Option` type. `None` is the ValueError of `int(x)` in
  `Digits` and `Checksum`, the `None` of `fetchone()` in `SelectCardData`, and the empty
  `current_card_data`.
- `Decimal` (`decimal.dfy`): the text the source builds and parses. This covers `int(x)` of
  one character, `str(n)`, `str.zfill`, and the number a digit string denotes.
- `Luhn` (`luhn.dfy`): `create_checksum_luhn_algorithm` and the transfer screen's
  card-number test. For an odd number of digits (the fifteen of a card) the checksum is
  proved equal to the right-to-left formulation of the Luhn formula in ISO/IEC 7812-1,
  Annex B, and the card-number test accepts exactly the sixteen-digit numbers valid under
  it. For an even number of digits the two check digits can differ.
- `Cards` (`cards.dfy`): `Account` as a value. Its `__init__` sets fields that never change
  afterwards. The two random draws are parameters that keep the source's inclusive ranges.
- `Ledger` (`ledger.dfy`): `BankingSystem` as a class. The `card` table is a
  `map<string, Row>`, because the `number` column is UNIQUE. The AUTOINCREMENT counter and
  the session fields `logged_in` and `current_card_data` are fields. The two UPDATE forms
  are pure functions on the table (`Credit`, `Debit`), and `Move` is the pair of UPDATEs in
  `transfer_amount`. The INSERT and the DELETE are map updates inside the methods
  `InsertIntoTable` and `CloseAccount`, and `SELECT number` is the loop of the method
  `SelectCardsNumbers`. The transfer decision chain is the
  pure function `TransferDecision`. The ghost function `Total` sums all balances, for
  conservation.

Where the source raises and stops the program, the model returns a distinct outcome and
leaves the table unchanged. This covers three cases:

- `int(x)` on a non-digit among the first fifteen characters of a transfer destination
  raises ValueError. This is `BadDigit`.
- A transfer by a logged-in user whose own row was deleted by "Close account" raises
  TypeError on the missing row. This is `NoSenderRow`.
- `insert_into_table` with a number already on file violates the UNIQUE `number` column
  and raises `sqlite3.IntegrityError`, which nothing catches. `InsertIntoTable` then
  reports `inserted == false` and changes neither the table nor the id counter.

The model follows the code in these places, where a reader might expect otherwise:

- Closing an account does not log the session out (`CloseAccount` changes only the table).
- The transfer amount's sign is never checked (`NegativeAmountDrainsDestination`).
- There is no "not yourself" test. A self-transfer passes the chain and changes nothing
  (`MoveConserves`).
- An UPDATE of a card that is not on file changes nothing and reports nothing (`Credit`,
  `Debit`).
- The account-segment draw includes 10^9 (see Findings).

## Model

| member | source | states |
|---|---|---|
| `Decimal.Digits` | banking-system.py:47 | one digit per character, each the inverse of the character written for it; None (ValueError) exactly when some character is not a decimal digit |
| `Decimal.Str` | banking-system.py:26 | `str(n)` is a non-empty digit string whose first character is '0' only for n = 0 |
| `Decimal.StrValue` | banking-system.py:26 | the text `str(n)` denotes n (`str` and digit reading are inverse) |
| `Decimal.StrLength` | banking-system.py:26 | `str(n)` fits in k characters exactly when n < 10^k |
| `Decimal.ZFill` | banking-system.py:26 | on an unsigned digit string, `zfill` keeps the string as its suffix, pads only with '0' up to the width, keeps digit strings digit strings |
| `Decimal.ZFillValue` | banking-system.py:34 | zero-filling does not change the number a digit string denotes |
| `Decimal.ZFillStrLength` | banking-system.py:26 | `str(n).zfill(w)` has w characters when n < 10^w, and w + 1 when n = 10^w |
| `Decimal.ZFillStr` | banking-system.py:26 | `str(n).zfill(w)` for n up to 10^w is a digit string denoting n, w characters below 10^w and w + 1 at 10^w |
| `Luhn.LuhnTerms` | banking-system.py:50-53 | after doubling at even 0-based indexes and taking 9 off values above 9, every term is a digit and equals the digit sum of the digit times weight 2 at even 0-based indexes and 1 at odd ones (the ISO weights when the length is odd) |
| `Luhn.CheckDigit` | banking-system.py:56-57 | the check digit is in 0..9 and makes the weighted sum a multiple of ten |
| `Luhn.CheckDigitIsUnique` | banking-system.py:56-57 | no other digit completes the weighted sum to a multiple of ten |
| `Luhn.Checksum` | banking-system.py:39-59 | the result is a single digit character completing the weighted sum, and is None exactly when the input has a non-digit |
| `Luhn.LuhnSumFromRight` | banking-system.py:47-56 | the left-to-right sum equals the standard's right-to-left total, where the rightmost digit is doubled exactly for odd lengths |
| `Luhn.CheckDigitIsIso` | banking-system.py:47-59 | over an odd number of digits (fifteen for a card) the source's check digit is the ISO/IEC 7812-1 check digit |
| `Luhn.IsoValidIffCheckDigit` | banking-system.py:309-314 | a number of even length passes the ISO check exactly when its last digit is the check digit of the rest |
| `Luhn.LongNumberIsRejected` | banking-system.py:309-315 | a number longer than sixteen characters whose first fifteen are digits is rejected as a mistake |
| `Luhn.CheckCardNumber` | banking-system.py:309-315 | ValueError (`Unparsable`) exactly when one of the first fifteen characters is not a digit; a number is accepted only when it has sixteen characters, all digits |
| `Luhn.CheckCardNumberIsIso` | banking-system.py:309-315 | the transfer screen accepts exactly the 16-digit numbers passing the ISO check, and raises ValueError exactly when one of the first fifteen characters is not a digit |
| `Cards.NewAccount` | banking-system.py:19-37 | card number = IIN + segment + check digit of the IIN and segment, all digits; segment and PIN denote the draws; the segment has 9 characters (10 at the draw 10^9) and the PIN 4 (5 at 10^4); balance 0 |
| `Cards.IssuedCardIsValid` | banking-system.py:24-31 | a draw below 10^9 gives a 16-digit number starting with the IIN, carrying the draw in characters 6..15, accepted by the transfer test and valid under ISO |
| `Cards.TopDrawCardIsRejected` | banking-system.py:26-31 | the draw 10^9 gives a 17-character card number that the transfer test always rejects |
| `Cards.IssuedPinIsFourDigits` | banking-system.py:34 | a draw below 10^4 gives a four-digit PIN denoting the draw |
| `Cards.TopDrawPinHasFiveDigits` | banking-system.py:34 | the draw 10^4 gives a five-character PIN |
| `Cards.DistinctDrawsDistinctCards` | banking-system.py:24-31 | different segment draws never produce the same card number, so only equal draws can collide on the UNIQUE column |
| `Ledger.Credit` | banking-system.py:194-196 | the same cards stay on file; only the named card's balance rises by the amount; its id and PIN and every other row are untouched |
| `Ledger.Debit` | banking-system.py:204-208 | the same cards stay on file; only the named card's balance falls by the amount; its id and PIN and every other row are untouched |
| `Ledger.CreditTotal` | banking-system.py:192-197 | a deposit raises the money in the table by its amount when the card exists and leaves it unchanged otherwise |
| `Ledger.DebitTotal` | banking-system.py:204-209 | a debit lowers the money in the table by its amount when the card exists and leaves it unchanged otherwise |
| `Ledger.Move` | banking-system.py:202-213 | the two UPDATEs of a transfer keep the set of cards on file, every id and PIN, and every row other than the two cards involved |
| `Ledger.MoveConserves` | banking-system.py:202-213 | a transfer between cards on file conserves total money; sender −amount, destination +amount, other rows untouched; a self-transfer changes nothing |
| `Ledger.CloseTotal` | banking-system.py:220-225 | deleting a row takes exactly its balance out of the table |
| `Ledger.TransferDecision` | banking-system.py:304-331 | the card-number test is decided first, then the destination's existence, then the sender's own row (TypeError when it is gone), then the sender's funds; success only with both cards on file and enough money |
| `Ledger.TransferSucceedsIff` | banking-system.py:309-331 | a transfer succeeds exactly for an ISO-valid 16-digit destination on file, a sender on file and a balance at least the amount |
| `Ledger.TransferKeepsBalancesNonNegative` | banking-system.py:325-331 | with a non-negative amount and no negative balance before, a completed transfer leaves none negative |
| `Ledger.NegativeAmountDrainsDestination` | banking-system.py:321-331 | for any table, any negative amount from a card on file with a non-negative balance to another accepted card on file passes the funds test, and the destination's balance falls by the amount's size |
| `Ledger.BankingSystem.constructor` | banking-system.py:65-77 | a session starts logged out with no card data, over an empty table |
| `Ledger.BankingSystem.InsertIntoTable` | banking-system.py:118-127 | a number already on file is refused (UNIQUE) and nothing changes; otherwise the row is added with the next id |
| `Ledger.BankingSystem.CreateAccount` | banking-system.py:263-269 | the new account is the one built from the draws (as at banking-system.py:107-115), inserted under the next id (the counter then rises by one) unless its number is already on file, in which case table and counter are unchanged |
| `Ledger.BankingSystem.SelectCardsNumbers` | banking-system.py:130-146 | the list holds every card number on file and nothing else, each once |
| `Ledger.BankingSystem.SelectCardData` | banking-system.py:149-161 | a row is found exactly for a card on file, and it is that card's stored id, PIN and balance |
| `Ledger.BankingSystem.LogIn` | banking-system.py:164-189 | the session opens exactly for a card on file whose stored PIN equals the one entered, holding that card's row; on failure no card data is held |
| `Ledger.BankingSystem.LogOut` | banking-system.py:340-344 | both session fields are reset |
| `Ledger.BankingSystem.AddIncome` | banking-system.py:192-199 | the table becomes the credit of the given card; session and every other row unchanged |
| `Ledger.BankingSystem.TransferAmount` | banking-system.py:202-217 | the table becomes the debit of the sender followed by the credit of the destination |
| `Ledger.BankingSystem.CloseAccount` | banking-system.py:220-226 | the card's row is gone and the rest of the table is unchanged; the session is not touched |
| `Ledger.BankingSystem.Transfer` | banking-system.py:304-332 | the outcome is the decision chain on the table as it was; the table changes (by `Move`) only on success, and every rejection leaves every balance unchanged |

## Left out

- SQLite plumbing is not modelled: connections, cursors, `CREATE TABLE`, `commit` and
  `with conn` transactions. Each method is one atomic step on the table. In particular
  `TransferAmount` is one step, while the source commits the debit (banking-system.py:208-209)
  before it runs the credit (banking-system.py:211-212): a failure between the two would
  leave money debited and not credited, which `MoveConserves` does not capture.
- The constructor starts from an empty table, as for a new database file. A `card.s3db`
  left by an earlier run is not loaded.
- All console I/O and the menu text are not modelled. Neither is `exit()`, nor the
  recursive `menus()` re-entry that drives control flow. Each menu action is one method
  call.
- Menu option "Balance" (banking-system.py:293-297) prints the `balance` field of
  `SelectCardData`, and has no method of its own. After "Close account" the session stays
  logged in, so the lookup returns None and indexing it raises TypeError
  (banking-system.py:294); this is the same crash that `Transfer` reports as `NoSenderRow`.
- `random.randint` is not modelled. The values it draws are parameters.
- `int(input(...))` for the income and the transfer amount is not modelled. Amounts are
  integers as given, with any sign, as the code allows.
- Python's `int` also accepts non-ASCII decimal digits. The model treats only '0'..'9' as
  digits.
- Balances are unbounded integers. SQLite's 64-bit INTEGER limit is not modelled.
- `SelectCardsNumbers` returns the numbers in an unspecified order, as the query (which has
  no ORDER BY) does not fix one either. The source uses the list only for membership tests.
- The reset at the end of `menus` (banking-system.py:352-356) is not modelled separately.
  It runs only after "Create an account", while logged out, when the card data is already
  empty.
- The commented-out table dump (banking-system.py:246-254) is not modelled.

## Findings

| source | as written | input that shows it | evidently intended | confidence | as-written member | corrected member |
|---|---|---|---|---|---|---|
| banking-system.py:26 | `random.randint(0, 10 ** 9)` includes 10^9, so the account segment can have 10 characters and the card number 17 | segment draw 1000000000 | a draw in 0..999999999, so every card number has 16 digits and can receive transfers | high; not executed | `Cards.TopDrawCardIsRejected` | `Cards.IssuedCardIsValid` |
| banking-system.py:34 | `random.randint(0, 10 ** 4)` includes 10^4, so the PIN can be "10000" | PIN draw 10000 | a draw in 0..9999, so every PIN has 4 digits | high; not executed | `Cards.TopDrawPinHasFiveDigits` | `Cards.IssuedPinIsFourDigits` |
