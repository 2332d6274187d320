# Wallet ledger: a Dafny model of `handler.py`

The handlers keep a wallet per user in a DynamoDB user table (`id`, `name`,
optional `amount`). They record every movement in a payment-history table
and post one message per affected user on a notification queue:

- `user_create` writes the user's item with `put_item`;
- `wallet_charge` adds `chargeAmount` with an unconditional `ADD`;
- `wallet_use` subtracts `useAmount` under the condition `amount >= useAmount`;
- `wallet_transfer` debits the sender (same condition) and credits the
  receiver in one two-item transaction;
- `get_user_summary` folds the user's history into a charge total, a use
  total and visit counts per location name;
- `get_payment_history` returns the user's history rows with the location
  id replaced by its name.

The model has five modules:

- `Records` (records.dfy): the values the handlers exchange.
- `Sums` (sums.dfy): an order-independent sum over a map.
- `Store` (store.dfy): the user table and the three DynamoDB writes, as
  pure functions from one table to the next. `ADD` on an absent attribute
  starts from 0 and creates a missing item without a name. A `>=` condition
  on an absent attribute fails. `put_item` replaces the whole item.
  Around them are lemmas about the money in the table and about
  non-negative balances.
- `Reports` (reports.dfy): the location lookup, the history query, the
  summary loop and the reshaping loop. The summary loop is a method proved
  against recursive specification functions; the reshaping loop is proved
  row by row against the one-row function `Present`.
- `Wallet` (wallet.dfy): the class `Ledger`. Its fields are the user table,
  the history and the queue. Each writing handler is one method that makes
  a single atomic store write, then appends its rows and messages; the two
  reading handlers change nothing. The
  module also holds the handlers' reading of client errors, as written
  (`HandleClientError`, which `Ledger.Use` uses) and corrected for the
  transfer (`TransferRejection`, which `Ledger.Transfer` uses; see
  "## Findings"), and a few client scenarios.

Three behaviours of the handlers that a reader might not expect, which
the model keeps:
- no amount is checked for sign, so a negative charge or transfer goes
  through (`Store.NegativeTransferOverdraws`);
- unresolved location ids are counted under `"unknown"` rather than left
  out of the per-location counts;
- the two transfer messages carry `totalAmount` 0, not the new balances.

Assumed store behaviour, which is not visible in the handler:
- the error codes DynamoDB raises: `ConditionalCheckFailedException` from
  a conditional `update_item`; `TransactionCanceledException`, with one
  reason per item, from a transaction whose condition fails;
  `ValidationException` from a transaction that names one item twice;
- that a transaction checks for a repeated item before it evaluates
  conditions;
- that the primary key of every history row the handlers write with
  `put_item` (handler.py:45-52, 103-110, 196-211) is one that no earlier
  row has, so each write adds a row and replaces none. The handler shows
  only that `userId` is the partition key (handler.py:255-261). If the key
  were, say, (`userId`, `transactionId`) and a client retried a charge
  with the same `transactionId`, the money would be added twice but only
  one row would remain, and the summary's `totalChargeAmount` would fall
  behind `currentAmount`. The history contracts of `Wallet.Ledger.Charge`,
  `Wallet.Ledger.Use` and `Wallet.Ledger.Transfer`, and
  `Wallet.ChargeThenSummary`, rest on this assumption.

## Model

| member | source | states |
|---|---|---|
| `Store.Put` | handler.py:31 | the user's item becomes exactly `{name}` with no `amount`; every other item is unchanged |
| `Store.Add` | handler.py:39-43 | `ADD` sets the stored amount to the old amount (absent = 0) plus `delta`; it creates a missing item without a name and leaves every other item unchanged |
| `Store.ConditionalDebit` | handler.py:79-85 | commits iff the stored amount exists and is at least the amount; the new amount is the old one minus it, so never negative; otherwise it raises `ConditionalCheckFailedException` and writes nothing |
| `Store.TransactTransfer` | handler.py:137-177 | commits iff the two users differ and the sender's stored amount covers the amount. The sender then loses and the receiver gains exactly the amount, and nobody else changes. Otherwise it raises a validation error (self-transfer) or a cancelled transaction, and writes nothing |
| `Store.AddTotal` | handler.py:39-43 | an `ADD` changes the money in the whole table by exactly `delta` |
| `Store.PutTotal` | handler.py:31 | re-registering a user removes that user's balance from the table |
| `Store.DebitTotal` | handler.py:79-85 | a committed debit removes exactly the used amount from the table |
| `Store.TransferConserves` | handler.py:137-177 | a committed transfer conserves the money in the table and the combined balance of sender and receiver |
| `Store.NoLostUpdates` | handler.py:39-43 | `n` successive `ADD 1` steps on one item raise its balance and the table's total by exactly `n` |
| `Store.DebitKeepsNonNegative` | handler.py:79-85 | a committed debit keeps every balance non-negative |
| `Store.ChargeKeepsNonNegative` | handler.py:39-43 | after a charge, balances stay non-negative iff the charged user's new balance is non-negative |
| `Store.TransferKeepsNonNegative` | handler.py:137-177 | a committed transfer of a non-negative amount keeps every balance non-negative |
| `Store.NegativeTransferOverdraws` | handler.py:145-176 | a transfer of -10 between two empty wallets commits and leaves the receiver at -10 |
| `Reports.LocationName` | handler.py:323-325 | the directory's name when the id is known, `"unknown"` otherwise |
| `Reports.Query` | handler.py:255-261 | the query holds exactly the history rows whose user is the queried one |
| `Reports.QueryAppend` | handler.py:45-52 | writing a row extends its own user's query by that row and no other user's |
| `Reports.Names` | handler.py:269 | one resolved location name per row, in order |
| `Reports.Bump` | handler.py:270-273 | the visited name's count goes up by one, starting from 0; every other count is kept |
| `Reports.Summarize` | handler.py:263-273 | the loop's three accumulators end as the charge total, the use total and the per-location tally of the rows |
| `Reports.TotalChargeAppend` | handler.py:267 | the charge total of a concatenation is the sum of the two totals |
| `Reports.TotalUseAppend` | handler.py:268 | the use total of a concatenation is the sum of the two totals |
| `Reports.TallyCountsNames` | handler.py:266-273 | the tally's keys are exactly the resolved names, each counted as often as it occurs |
| `Reports.TallySum` | handler.py:266-273 | the per-location counts add up to the number of rows |
| `Reports.UnresolvedCountedAsUnknown` | handler.py:269-273 | rows with an unknown location id are counted under `"unknown"`; the count is exactly theirs when no directory entry is itself named `"unknown"` |
| `Reports.NamesAppend` | handler.py:269 | the resolved names of a concatenation are the names of its parts |
| `Reports.RemoveRow` | handler.py:266-269 | taking one row out removes exactly its amounts from the totals and its name from the names |
| `Reports.TotalsIgnoreOrder` | handler.py:263-269 | any reordering of the rows gives the same charge total, use total and multiset of names |
| `Reports.TallyIgnoresOrder` | handler.py:266-273 | any reordering of the rows gives the same `timesPerLocation` |
| `Reports.Present` | handler.py:306-311 | a reshaped row is the input row with its location id swapped for its resolved name: putting the id back restores the row |
| `Reports.ReshapeHistory` | handler.py:304-312 | one record per input row, in order, each the input row with the name in place of the id |
| `Wallet.SummaryOf` | handler.py:253-285 | the summary exists iff the user's item has a name and an amount; `currentAmount` is the stored amount |
| `Wallet.ChargeThenSummary` | handler.py:39-52 | after a charge, the summary's balance and charge total are each up by the charged amount, the use total is unchanged, and the location has one more visit |
| `Wallet.HandleClientError` | handler.py:86-101 | as written: "not enough money" exactly for `ConditionalCheckFailedException`, otherwise the error's own code |
| `Wallet.UseRejectionIsShortfall` | handler.py:79-95 | a use is refused, with "not enough money", exactly when the balance does not cover it |
| `Wallet.TransferShortfallMisreported` | handler.py:179-194 | as written, an uncovered transfer is answered with `TransactionCanceledException`, not "not enough money" |
| `Wallet.TransferRejection` | handler.py:179-194 | corrected: "not enough money" exactly for an error that reports a failed condition, otherwise the error's own code |
| `Wallet.TransferRejectionIsShortfall` | handler.py:137-194 | with the corrected reading, a transfer is refused with "not enough money" exactly when the sender cannot cover it; the only other refusal is a self-transfer |
| `Wallet.Ledger.constructor` | handler.py:13-23 | an empty user table, history and queue over the given location directory |
| `Wallet.Ledger.CreateUser` | handler.py:27-32 | the table is the old one after `put_item`, the money changes by the user's lost balance, and history and queue are untouched |
| `Wallet.Ledger.Charge` | handler.py:35-71 | the balance rises by exactly the charge and is returned as committed. Exactly one history row carries the charge. Exactly one message carries the committed balance. The table's total rises by the charge |
| `Wallet.Ledger.Use` | handler.py:74-129 | accepted iff the stored amount covers the use. Then the balance drops by exactly the use and stays non-negative, one row and one message with the new balance are added. Otherwise "not enough money" and nothing changes |
| `Wallet.Ledger.Transfer` | handler.py:132-246 | accepted iff the users differ and the sender covers the amount, all or nothing. The sender loses and the receiver gains the amount, and the total is conserved. Two rows share one transaction id. Two messages with `totalAmount` 0 name each other. Any refusal changes nothing. A refusal is answered with the corrected reading `TransferRejection`: "not enough money" when the sender cannot cover the amount, where the handler as written answers `TransactionCanceledException` |
| `Wallet.Ledger.GetUserSummary` | handler.py:249-286 | the result is the summary of the user's item and history rows |
| `Wallet.Ledger.GetPaymentHistory` | handler.py:289-314 | one record per history row of the user, in query order, each the row with its location name in place of its id |

## Findings

| source | as written | input that shows it | evidently intended | confidence | as-written member | corrected member |
|---|---|---|---|---|---|---|
| handler.py:183-188 | the transfer's `except` branch treats only `ConditionalCheckFailedException` as "not enough money" | sender balance 150, transfer 200 to another user: `transact_write_items` raises `TransactionCanceledException` with reasons `[ConditionalCheckFailed, None]`, so the handler answers with the error message `TransactionCanceledException` | "There was not enough money." for a transfer the sender cannot cover | medium, not executed; it rests on the error code DynamoDB gives a cancelled transaction | `Wallet.TransferShortfallMisreported` | `Wallet.TransferRejectionIsShortfall` (with `Wallet.TransferRejection`, which `Wallet.Ledger.Transfer` uses) |

## Left out

- DynamoDB, SQS and HTTP calls (handler.py:13-17, 23): the tables are fields of `Ledger`, and the queue is a sequence of message bodies. The location directory is a constructor argument.
- `send_notification` (handler.py:317-320): HTTP delivery of queued messages is pure I/O.
- JSON parsing and serialisation, status codes and response strings: outcomes are the `Outcome` datatype.
- Logging, and the `timestamp` attribute of history rows (`datetime.now()`).
- The order of query results. `get_payment_history` queries the `timestampIndex` newest first. `Reports.Query` returns rows in the order they were written. The summary does not depend on that order (`Reports.TotalsIgnoreOrder`, `Reports.TallyIgnoresOrder`). The payment-history list does.
- `Decimal` to `int` conversions and `str(location_id)`: amounts are integers, and location ids and names are strings.
- Concurrency and DynamoDB isolation: each store write is one atomic step of a method.
- Client errors other than a failed condition and a self-transfer (throttling, missing table, …): no store function raises them. The `update_item` of `wallet_charge` has no `except`, so such errors would escape it.
- Validation of amounts: the source checks none, and the model accepts any integer as the source does.
- Wallet.Ledger.Transfer: answers a refused transfer with the corrected reading `TransferRejection`, not the handler's own `HandleClientError` (handler.py:183-194). On a shortfall it gives "not enough money" where the source gives `TransactionCanceledException`; the as-written answer is stated by `Wallet.TransferShortfallMisreported`.
- Paging of query results: both handlers fold over `Items` of one `query` call (handler.py:266, 305) and never follow `LastEvaluatedKey`, so past one page (1 MB) of history the summary totals, `timesPerLocation` and the payment-history list are cut short. `Reports.Query` returns all of the user's rows, as if every query fit in one page.
- Store.TransferKeepsNonNegative: stated only for a non-negative amount, because the source lets a negative one overdraw the receiver (`Store.NegativeTransferOverdraws`).
