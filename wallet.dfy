/** The wallet handlers over one store: the user table, the payment-history
    table and the notification queue, each writing handler one atomic store
    write followed by its history rows and queue messages. */
module Wallet {
  import opened Records
  import opened Store
  import opened Reports

  /** The body `get_user_summary` answers with. */
  datatype Summary = Summary(
    userName: string,
    currentAmount: int,
    totalChargeAmount: int,
    totalUseAmount: int,
    timesPerLocation: map<string, nat>)

  /** The `KeyError`s `get_user_summary` runs into: no item for the user,
      an item created by `ADD` without a name, or a user never charged. */
  datatype SummaryError = UserNotFound | NameMissing | AmountMissing

  /** The history row of a charge (and of the receiving side of a transfer). */
  function ChargeRow(u: UserId, tx: TransactionId, amount: int, loc: LocationId): HistoryRow {
    HistoryRow(u, tx, Some(amount), None, loc)
  }

  /** The history row of a use (and of the sending side of a transfer). */
  function UseRow(u: UserId, tx: TransactionId, amount: int, loc: LocationId): HistoryRow {
    HistoryRow(u, tx, None, Some(amount), loc)
  }

  /** The summary of user `u` over a table and a history. */
  function SummaryOf(t: Table, history: seq<HistoryRow>, u: UserId, locations: Directory)
    : (r: Result<Summary, SummaryError>)
    ensures r.Ok? <==> u in t && t[u].name.Some? && t[u].amount.Some?
    ensures r == Err(UserNotFound) <==> u !in t
    ensures r == Err(AmountMissing) <==> u in t && t[u].name.Some? && t[u].amount.None?
    ensures r.Ok? ==> Some(r.value.currentAmount) == Amount(t, u)
  {
    if u !in t then Err(UserNotFound)
    else if t[u].name.None? then Err(NameMissing)
    else if t[u].amount.None? then Err(AmountMissing)
    else
      var rows := Query(history, u);
      Ok(Summary(t[u].name.value, t[u].amount.value,
                 TotalCharge(rows), TotalUse(rows), Tally(rows, locations)))
  }

  /** Charging `amount` and then asking for the summary reports the balance
      and the charge total raised by `amount`, the use total unchanged, and
      one more visit to the charge's location. */
  lemma ChargeThenSummary(t: Table, history: seq<HistoryRow>, u: UserId, tx: TransactionId,
                          amount: int, loc: LocationId, locations: Directory)
    requires SummaryOf(t, history, u, locations).Ok?
    ensures var before := SummaryOf(t, history, u, locations).value;
            var after := SummaryOf(Add(t, u, amount), history + [ChargeRow(u, tx, amount, loc)], u, locations);
            && after.Ok?
            && after.value.userName == before.userName
            && after.value.currentAmount == before.currentAmount + amount
            && after.value.totalChargeAmount == before.totalChargeAmount + amount
            && after.value.totalUseAmount == before.totalUseAmount
            && after.value.timesPerLocation == Bump(before.timesPerLocation, LocationName(locations, loc))
  {
    var row := ChargeRow(u, tx, amount, loc);
    var rows := Query(history, u);
    QueryAppend(history, row, u);
    assert Query(history + [row], u) == rows + [row];
    assert (rows + [row])[..|rows|] == rows;
  }

  /** The handler's reading of a client error (the `except` branches of
      `wallet_use` and `wallet_transfer`): only the code
      `ConditionalCheckFailedException` means "not enough money". */
  function HandleClientError(e: ClientError): (o: Outcome)
    ensures o == NotEnoughMoney <==> e.code == ConditionalCheckFailedException
    ensures o != NotEnoughMoney ==> o == StoreError(e.code)
  {
    if e.code == ConditionalCheckFailedException then NotEnoughMoney else StoreError(e.code)
  }

  /** For `update_item` that reading is right: the guarded debit is refused
      with "not enough money" exactly when the balance does not cover it. */
  lemma UseRejectionIsShortfall(t: Table, id: UserId, amount: int)
    ensures var r := ConditionalDebit(t, id, amount);
            r.Raised? <==> !Covers(t, id, amount)
    ensures var r := ConditionalDebit(t, id, amount);
            r.Raised? ==> HandleClientError(r.error) == NotEnoughMoney
  {
  }

  /** As written, a transfer the sender cannot cover is reported with the
      transaction's own error code, never as "not enough money". */
  lemma TransferShortfallMisreported(t: Table, from: UserId, to: UserId, amount: int)
    requires from != to && !Covers(t, from, amount)
    ensures TransactTransfer(t, from, to, amount).Raised?
    ensures HandleClientError(TransactTransfer(t, from, to, amount).error)
            == StoreError(TransactionCanceledException)
  {
  }

  /** A client error that says some item's condition failed: directly from
      `update_item`, or as a cancellation reason of a transaction. */
  predicate ConditionFailed(e: ClientError) {
    || e.code == ConditionalCheckFailedException
    || (e.code == TransactionCanceledException && ConditionalCheckFailed in e.reasons)
  }

  /** The corrected reading for the transfer: a cancelled transaction
      whose reasons include a failed condition is "not enough money". */
  function TransferRejection(e: ClientError): (o: Outcome)
    ensures o == NotEnoughMoney <==> ConditionFailed(e)
    ensures o != NotEnoughMoney ==> o == StoreError(e.code)
  {
    if ConditionFailed(e) then NotEnoughMoney else StoreError(e.code)
  }

  /** With the corrected reading, a transfer is refused with "not enough
      money" exactly when the sender's balance does not cover it, and the
      only other refusal is the self-transfer. */
  lemma TransferRejectionIsShortfall(t: Table, from: UserId, to: UserId, amount: int)
    ensures var r := TransactTransfer(t, from, to, amount);
            r.Raised? && TransferRejection(r.error) == NotEnoughMoney
            <==> from != to && !Covers(t, from, amount)
    ensures var r := TransactTransfer(t, from, to, amount);
            r.Raised? && TransferRejection(r.error) != NotEnoughMoney
            <==> from == to
  {
    var r := TransactTransfer(t, from, to, amount);
    if from != to && !Covers(t, from, amount) {
      assert r.error.reasons[0] == ConditionalCheckFailed;
    }
  }

  /** The store behind the handlers. `locations` is the directory the
      module fetches once when it is loaded. */
  class Ledger {
    var users: Table
    var history: seq<HistoryRow>
    var queue: seq<Notification>
    const locations: Directory

    constructor (locations: Directory)
      ensures users == map[] && history == [] && queue == []
      ensures this.locations == locations
    {
      users, history, queue := map[], [], [];
      this.locations := locations;
    }

    /** `user_create`: `put_item` replaces the whole item, so re-creating a
        user drops their balance. No history row, no message. */
    method CreateUser(id: UserId, name: string)
      modifies this
      ensures users == Put(old(users), id, name)
      ensures Total(users) == old(Total(users)) - old(Balance(users, id))
      ensures old(NonNegative(users)) ==> NonNegative(users)
      ensures history == old(history) && queue == old(queue)
    {
      PutTotal(users, id, name);
      ghost var before := users;
      users := Put(users, id, name);
      if NonNegative(before) {
        forall k | k in users ensures ItemBalance(users[k]) >= 0 {
          if k != id {
            assert users[k] == before[k];
          }
        }
      }
    }

    /** `wallet_charge`: an unconditional `ADD`, one history row and one
        message carrying the balance the store committed. */
    method Charge(userId: UserId, transactionId: TransactionId, chargeAmount: int, locationId: LocationId)
      returns (total: int)
      modifies this
      ensures users == Add(old(users), userId, chargeAmount)
      ensures Amount(users, userId) == Some(total)
      ensures total == old(Balance(users, userId)) + chargeAmount
      ensures Total(users) == old(Total(users)) + chargeAmount
      ensures old(NonNegative(users)) && chargeAmount >= 0 ==> NonNegative(users)
      ensures history == old(history) + [ChargeRow(userId, transactionId, chargeAmount, locationId)]
      ensures queue == old(queue) + [Notification(transactionId, userId, Some(chargeAmount), None, total, None, None)]
    {
      AddTotal(users, userId, chargeAmount);
      if NonNegative(users) && chargeAmount >= 0 {
        ChargeKeepsNonNegative(users, userId, chargeAmount);
      }
      users := Add(users, userId, chargeAmount);
      total := Amount(users, userId).value;
      history := history + [ChargeRow(userId, transactionId, chargeAmount, locationId)];
      queue := queue + [Notification(transactionId, userId, Some(chargeAmount), None, total, None, None)];
    }

    /** `wallet_use`: the guarded debit. When the balance covers the amount
        it commits, then one history row and one message follow; otherwise
        "not enough money" and nothing changes. */
    method Use(userId: UserId, transactionId: TransactionId, useAmount: int, locationId: LocationId)
      returns (outcome: Outcome)
      modifies this
      ensures outcome == Accepted <==> old(Covers(users, userId, useAmount))
      ensures outcome != Accepted ==>
                outcome == NotEnoughMoney && users == old(users) && history == old(history) && queue == old(queue)
      ensures outcome == Accepted ==>
                && users == Add(old(users), userId, -useAmount)
                && Amount(users, userId) == Some(old(Amount(users, userId)).value - useAmount)
                && Balance(users, userId) >= 0
                && Total(users) == old(Total(users)) - useAmount
                && history == old(history) + [UseRow(userId, transactionId, useAmount, locationId)]
                && queue == old(queue) + [Notification(transactionId, userId, None, Some(useAmount),
                                                       Balance(users, userId), None, None)]
      ensures old(NonNegative(users)) ==> NonNegative(users)
    {
      var r := ConditionalDebit(users, userId, useAmount);
      if r.Raised? {
        outcome := HandleClientError(r.error);
        return;
      }
      DebitTotal(users, userId, useAmount);
      if NonNegative(users) {
        DebitKeepsNonNegative(users, userId, useAmount);
      }
      users := r.table;
      var total := Amount(users, userId).value;
      history := history + [UseRow(userId, transactionId, useAmount, locationId)];
      queue := queue + [Notification(transactionId, userId, None, Some(useAmount), total, None, None)];
      outcome := Accepted;
    }

    /** `wallet_transfer`: the two-item transaction, all or nothing. On
        success two history rows under one transaction id and two messages
        naming each other, each with `totalAmount` 0. */
    method Transfer(fromUserId: UserId, toUserId: UserId, transactionId: TransactionId,
                    transferAmount: int, locationId: LocationId)
      returns (outcome: Outcome)
      modifies this
      ensures outcome == Accepted <==> fromUserId != toUserId && old(Covers(users, fromUserId, transferAmount))
      ensures outcome == NotEnoughMoney <==> fromUserId != toUserId && !old(Covers(users, fromUserId, transferAmount))
      ensures fromUserId == toUserId ==> outcome == StoreError(ValidationException)
      ensures outcome != Accepted ==> users == old(users) && history == old(history) && queue == old(queue)
      ensures outcome == Accepted ==>
                && users == Add(Add(old(users), fromUserId, -transferAmount), toUserId, transferAmount)
                && Balance(users, fromUserId) == old(Balance(users, fromUserId)) - transferAmount >= 0
                && Balance(users, toUserId) == old(Balance(users, toUserId)) + transferAmount
                && Total(users) == old(Total(users))
                && history == old(history) + [UseRow(fromUserId, transactionId, transferAmount, locationId),
                                              ChargeRow(toUserId, transactionId, transferAmount, locationId)]
                && queue == old(queue) + [Notification(transactionId, fromUserId, None, Some(transferAmount),
                                                       0, Some(toUserId), None),
                                          Notification(transactionId, toUserId, Some(transferAmount), None,
                                                       0, None, Some(fromUserId))]
      ensures old(NonNegative(users)) && transferAmount >= 0 ==> NonNegative(users)
    {
      var r := TransactTransfer(users, fromUserId, toUserId, transferAmount);
      if r.Raised? {
        TransferRejectionIsShortfall(users, fromUserId, toUserId, transferAmount);
        outcome := TransferRejection(r.error);
        return;
      }
      TransferConserves(users, fromUserId, toUserId, transferAmount);
      if NonNegative(users) && transferAmount >= 0 {
        TransferKeepsNonNegative(users, fromUserId, toUserId, transferAmount);
      }
      users := r.table;
      history := history + [UseRow(fromUserId, transactionId, transferAmount, locationId),
                            ChargeRow(toUserId, transactionId, transferAmount, locationId)];
      queue := queue + [Notification(transactionId, fromUserId, None, Some(transferAmount), 0, Some(toUserId), None),
                        Notification(transactionId, toUserId, Some(transferAmount), None, 0, None, Some(fromUserId))];
      outcome := Accepted;
    }

    /** `get_user_summary`: the user's item, and the fold over the user's
        history rows. */
    method GetUserSummary(userId: UserId) returns (r: Result<Summary, SummaryError>)
      ensures r == SummaryOf(users, history, userId, locations)
    {
      var items := Query(history, userId);
      var sumCharge, sumUse, times := Summarize(items, locations);
      if userId !in users {
        return Err(UserNotFound);
      }
      var item := users[userId];
      if item.name.None? {
        return Err(NameMissing);
      }
      if item.amount.None? {
        return Err(AmountMissing);
      }
      r := Ok(Summary(item.name.value, item.amount.value, sumCharge, sumUse, times));
    }

    /** `get_payment_history`: the user's rows, each with its location name
        in place of its location id. */
    method GetPaymentHistory(userId: UserId) returns (out: seq<PaymentRecord>)
      ensures var rows := Query(history, userId);
              && |out| == |rows|
              && forall i :: 0 <= i < |rows| ==>
                   && out[i].userId == userId
                   && Reattach(out[i], rows[i].locationId) == rows[i]
                   && out[i].locationName == LocationName(locations, rows[i].locationId)
    {
      var rows := Query(history, userId);
      out := ReshapeHistory(rows, locations);
      forall i | 0 <= i < |rows| ensures out[i].userId == userId {
        assert rows[i] in rows;
        assert Reattach(out[i], rows[i].locationId).userId == rows[i].userId;
      }
    }
  }

  /** Clients of the ledger: the scenarios the handlers are meant to
      satisfy, checked against the methods' contracts alone. */
  method DebitScenario() {
    var ledger := new Ledger(map["loc1" := "Shibuya"]);
    ledger.CreateUser("alice", "Alice");
    var total := ledger.Charge("alice", "t1", 500, "loc1");
    assert total == 500;
    // Debit the whole balance, then one more unit on an empty wallet.
    var outcome := ledger.Use("alice", "t2", 500, "loc1");
    assert outcome == Accepted && Balance(ledger.users, "alice") == 0;
    outcome := ledger.Use("alice", "t3", 1, "loc1");
    assert outcome == NotEnoughMoney && Balance(ledger.users, "alice") == 0;
    // Using money from a user nobody charged fails the condition.
    outcome := ledger.Use("carol", "t4", 0, "loc1");
    assert outcome == NotEnoughMoney;
  }

  method PaymentHistoryScenario() {
    var ledger := new Ledger(map["loc1" := "Shibuya"]);
    ledger.CreateUser("alice", "Alice");
    // One charge, then the history shows it with the location's name.
    var total := ledger.Charge("alice", "t1", 50, "loc1");
    assert ledger.history == [ChargeRow("alice", "t1", 50, "loc1")];
    assert Query(ledger.history, "alice") == [ChargeRow("alice", "t1", 50, "loc1")];
    var records := ledger.GetPaymentHistory("alice");
    assert |records| == 1;
    assert Reattach(records[0], "loc1") == ChargeRow("alice", "t1", 50, "loc1");
    assert records[0].chargeAmount == Some(50) && records[0].useAmount == None;
    assert records[0].locationName == "Shibuya";
  }

  method TransferScenario() {
    var ledger := new Ledger(map[]);
    ledger.CreateUser("alice", "Alice");
    ledger.CreateUser("bob", "Bob");
    var total := ledger.Charge("bob", "t1", 150, "loc1");
    // A transfer the sender cannot cover changes neither side.
    var outcome := ledger.Transfer("bob", "alice", "t2", 200, "loc1");
    assert outcome == NotEnoughMoney;
    assert Balance(ledger.users, "bob") == 150 && Balance(ledger.users, "alice") == 0;
    // One it can cover moves the money.
    outcome := ledger.Transfer("bob", "alice", "t3", 100, "loc1");
    assert outcome == Accepted;
    assert Balance(ledger.users, "bob") == 50 && Balance(ledger.users, "alice") == 100;
    // A transfer to oneself is refused by the store.
    outcome := ledger.Transfer("bob", "bob", "t4", 1, "loc1");
    assert outcome == StoreError(ValidationException);
  }
}
