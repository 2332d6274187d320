/** The user table and the three DynamoDB writes the handlers issue against
    it, each an atomic step from one table state to the next:
    `put_item` (registration), `update_item` with `ADD` and an optional
    `>=` condition (charge, use), and a two-item `transact_write_items`
    (transfer). */
module Store {
  import opened Records
  import opened Sums

  type Table = map<UserId, UserItem>

  /** What an atomic write does: it commits a new table, or raises a client
      error and leaves the table as it was. */
  datatype StoreResult = Committed(table: Table) | Raised(error: ClientError)

  /** The stored `amount` attribute of `id`, absent for a missing item. */
  function Amount(t: Table, id: UserId): Option<int> {
    if id in t then t[id].amount else None
  }

  /** The balance `ADD` starts from: an absent attribute counts as 0. */
  function ItemBalance(item: UserItem): int {
    item.amount.GetOr(0)
  }

  function Balance(t: Table, id: UserId): int {
    if id in t then ItemBalance(t[id]) else 0
  }

  /** The condition `amount >= bound`: it fails on an absent attribute. */
  predicate Covers(t: Table, id: UserId, bound: int) {
    Amount(t, id).Some? && Amount(t, id).value >= bound
  }

  /** Every stored amount is non-negative. */
  ghost predicate NonNegative(t: Table) {
    forall id :: id in t ==> ItemBalance(t[id]) >= 0
  }

  /** All the money in the table. */
  ghost function Total(t: Table): int {
    SumBy(t, ItemBalance)
  }

  /** `put_item(Item={'id': id, 'name': name})`: the whole item is replaced,
      so an existing `amount` is dropped. */
  function Put(t: Table, id: UserId, name: string): (t': Table)
    ensures t'.Keys == t.Keys + {id}
    ensures id in t' && t'[id].name == Some(name) && Amount(t', id) == None
    ensures forall k :: k in t && k != id ==> t'[k] == t[k]
  {
    t[id := UserItem(Some(name), None)]
  }

  /** `update_item(UpdateExpression='ADD amount :delta')`: creates the item
      (without a name) when the key is missing, treats a missing `amount`
      as 0, and touches no other item. */
  function Add(t: Table, id: UserId, delta: int): (t': Table)
    ensures t'.Keys == t.Keys + {id}
    ensures Amount(t', id) == Some(Balance(t, id) + delta)
    ensures t'[id].name == (if id in t then t[id].name else None)
    ensures forall k :: k in t && k != id ==> t'[k] == t[k]
  {
    var name := if id in t then t[id].name else None;
    t[id := UserItem(name, Some(Balance(t, id) + delta))]
  }

  /** The guarded debit of `wallet_use`: `ADD amount -amount` under
      `ConditionExpression amount >= amount`. A failed condition raises
      `ConditionalCheckFailedException` and writes nothing. */
  function ConditionalDebit(t: Table, id: UserId, amount: int): (r: StoreResult)
    ensures r.Committed? <==> Covers(t, id, amount)
    ensures r.Committed? ==> r.table == Add(t, id, -amount)
    ensures r.Committed? ==> Amount(r.table, id) == Some(Amount(t, id).value - amount)
    ensures r.Committed? ==> Balance(r.table, id) >= 0
    ensures r.Raised? ==> r.error == ClientError(ConditionalCheckFailedException, [])
  {
    if Covers(t, id, amount) then Committed(Add(t, id, -amount))
    else Raised(ClientError(ConditionalCheckFailedException, []))
  }

  /** The two-item transaction of `wallet_transfer`: debit `from` under
      `amount >= x`, credit `to`, both or neither. DynamoDB refuses a
      transaction that names one item twice (`ValidationException`) before
      evaluating conditions, and reports a failed condition by cancelling
      the whole transaction with one reason per item. */
  function TransactTransfer(t: Table, from: UserId, to: UserId, amount: int): (r: StoreResult)
    ensures r.Committed? <==> from != to && Covers(t, from, amount)
    ensures r.Committed? ==> r.table == Add(Add(t, from, -amount), to, amount)
    ensures r.Committed? ==> Balance(r.table, from) == Balance(t, from) - amount >= 0
    ensures r.Committed? ==> Balance(r.table, to) == Balance(t, to) + amount
    ensures r.Committed? ==> forall k :: k in t && k != from && k != to ==> r.table[k] == t[k]
    ensures from == to ==> r == Raised(ClientError(ValidationException, []))
    ensures from != to && !Covers(t, from, amount) ==>
              r == Raised(ClientError(TransactionCanceledException, [ConditionalCheckFailed, NoReason]))
  {
    if from == to then Raised(ClientError(ValidationException, []))
    else if Covers(t, from, amount) then Committed(Add(Add(t, from, -amount), to, amount))
    else Raised(ClientError(TransactionCanceledException, [ConditionalCheckFailed, NoReason]))
  }

  // ---------------------------------------------------------------------
  // Money in the table

  /** `ADD` changes the money in the table by exactly `delta`. */
  lemma AddTotal(t: Table, id: UserId, delta: int)
    ensures Total(Add(t, id, delta)) == Total(t) + delta
  {
    var name := if id in t then t[id].name else None;
    SumByUpdate(t, ItemBalance, id, UserItem(name, Some(Balance(t, id) + delta)));
  }

  /** Re-registering a user wipes that user's balance out of the table. */
  lemma PutTotal(t: Table, id: UserId, name: string)
    ensures Total(Put(t, id, name)) == Total(t) - Balance(t, id)
  {
    SumByUpdate(t, ItemBalance, id, UserItem(Some(name), None));
  }

  /** A guarded debit removes exactly `amount` from the table when it
      commits. */
  lemma DebitTotal(t: Table, id: UserId, amount: int)
    requires ConditionalDebit(t, id, amount).Committed?
    ensures Total(ConditionalDebit(t, id, amount).table) == Total(t) - amount
  {
    AddTotal(t, id, -amount);
  }

  /** A committed transfer conserves all the money in the table, and the
      combined balance of the two parties. */
  lemma TransferConserves(t: Table, from: UserId, to: UserId, amount: int)
    requires TransactTransfer(t, from, to, amount).Committed?
    ensures Total(TransactTransfer(t, from, to, amount).table) == Total(t)
    ensures var t' := TransactTransfer(t, from, to, amount).table;
            Balance(t', from) + Balance(t', to) == Balance(t, from) + Balance(t, to)
  {
    AddTotal(t, from, -amount);
    AddTotal(Add(t, from, -amount), to, amount);
  }

  /** `n` successive `ADD 1` steps on one item raise it by `n`: each step
      starts from the committed value of the previous one. */
  function AddOneTimes(t: Table, id: UserId, n: nat): Table {
    if n == 0 then t else Add(AddOneTimes(t, id, n - 1), id, 1)
  }

  lemma {:induction false} NoLostUpdates(t: Table, id: UserId, n: nat)
    ensures n > 0 ==> Amount(AddOneTimes(t, id, n), id) == Some(Balance(t, id) + n)
    ensures Balance(AddOneTimes(t, id, n), id) == Balance(t, id) + n
    ensures Total(AddOneTimes(t, id, n)) == Total(t) + n
  {
    if n > 0 {
      NoLostUpdates(t, id, n - 1);
      AddTotal(AddOneTimes(t, id, n - 1), id, 1);
    }
  }

  // ---------------------------------------------------------------------
  // Non-negative balances

  /** A guarded debit never drives any balance below zero. */
  lemma DebitKeepsNonNegative(t: Table, id: UserId, amount: int)
    requires NonNegative(t)
    requires ConditionalDebit(t, id, amount).Committed?
    ensures NonNegative(ConditionalDebit(t, id, amount).table)
  {
    var t' := ConditionalDebit(t, id, amount).table;
    forall k | k in t' ensures ItemBalance(t'[k]) >= 0 {
      if k != id {
        assert t'[k] == t[k];
      }
    }
  }

  /** A charge keeps balances non-negative when the charged amount is
      non-negative, and a negative charge amount (which the handler does
      not reject) can make a balance negative. */
  lemma ChargeKeepsNonNegative(t: Table, id: UserId, delta: int)
    requires NonNegative(t)
    ensures NonNegative(Add(t, id, delta)) <==> Balance(t, id) + delta >= 0
  {
    var t' := Add(t, id, delta);
    assert ItemBalance(t'[id]) == Balance(t, id) + delta;
    if Balance(t, id) + delta >= 0 {
      forall k | k in t' ensures ItemBalance(t'[k]) >= 0 {
        if k != id {
          assert t'[k] == t[k];
        }
      }
    }
  }

  /** A committed transfer of a non-negative amount keeps balances
      non-negative. The sender is protected by the condition in any case. */
  lemma TransferKeepsNonNegative(t: Table, from: UserId, to: UserId, amount: int)
    requires NonNegative(t)
    requires amount >= 0
    requires TransactTransfer(t, from, to, amount).Committed?
    ensures NonNegative(TransactTransfer(t, from, to, amount).table)
  {
    var t' := TransactTransfer(t, from, to, amount).table;
    forall k | k in t' ensures ItemBalance(t'[k]) >= 0 {
      if k == from {
        assert ItemBalance(t'[k]) == Balance(t', from);
      } else if k == to {
        assert ItemBalance(t'[k]) == Balance(t', to);
        assert to in t ==> ItemBalance(t[to]) >= 0;
      } else {
        assert t'[k] == t[k];
      }
    }
  }

  /** The transaction does not reject a negative amount: it passes the
      sender's condition and overdraws the receiver. */
  lemma NegativeTransferOverdraws()
    ensures var t := map["a" := UserItem(Some("A"), Some(0)), "b" := UserItem(Some("B"), Some(0))];
            && NonNegative(t)
            && TransactTransfer(t, "a", "b", -10).Committed?
            && Balance(TransactTransfer(t, "a", "b", -10).table, "b") == -10
  {
    var t := map["a" := UserItem(Some("A"), Some(0)), "b" := UserItem(Some("B"), Some(0))];
    assert Covers(t, "a", -10);
  }
}
