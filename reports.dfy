/** The read side: resolving location names, querying a user's payment
    history, the summary fold of `get_user_summary` and the row reshaping
    of `get_payment_history`. */
module Reports {
  import opened Records
  import opened Sums

  /** The location directory, fetched once when the handler module loads:
      location id to location name. */
  type Directory = map<string, string>

  const Unknown: string := "unknown"

  /** `_get_location_name`: the directory's entry, or "unknown". */
  function LocationName(locations: Directory, id: LocationId): (name: string)
    ensures id in locations ==> name == locations[id]
    ensures id !in locations ==> name == Unknown
    ensures name in locations.Values || name == Unknown
  {
    if id in locations then locations[id] else Unknown
  }

  /** The rows of the history table whose partition key is `u`, in the
      order they were written. */
  function Query(rows: seq<HistoryRow>, u: UserId): (r: seq<HistoryRow>)
    ensures forall row :: row in r <==> row in rows && row.userId == u
    ensures |r| <= |rows|
  {
    if rows == [] then []
    else
      var last := rows[|rows| - 1];
      Query(rows[..|rows| - 1], u) + (if last.userId == u then [last] else [])
  }

  /** Appending a row to the table extends the query of its own user by
      that row and leaves every other user's query as it was. */
  lemma QueryAppend(rows: seq<HistoryRow>, row: HistoryRow, u: UserId)
    ensures Query(rows + [row], u) == Query(rows, u) + (if row.userId == u then [row] else [])
  {
    assert (rows + [row])[..|rows|] == rows;
  }

  // ---------------------------------------------------------------------
  // get_user_summary

  /** `item.get('chargeAmount', 0)` */
  function ChargeOf(row: HistoryRow): int {
    row.chargeAmount.GetOr(0)
  }

  /** `item.get('useAmount', 0)` */
  function UseOf(row: HistoryRow): int {
    row.useAmount.GetOr(0)
  }

  /** The sum of the charge amounts of `rows`. */
  function TotalCharge(rows: seq<HistoryRow>): int {
    if rows == [] then 0 else TotalCharge(rows[..|rows| - 1]) + ChargeOf(rows[|rows| - 1])
  }

  /** The sum of the use amounts of `rows`. */
  function TotalUse(rows: seq<HistoryRow>): int {
    if rows == [] then 0 else TotalUse(rows[..|rows| - 1]) + UseOf(rows[|rows| - 1])
  }

  /** The resolved location name of every row, in order. */
  function Names(rows: seq<HistoryRow>, locations: Directory): (names: seq<string>)
    ensures |names| == |rows|
    ensures forall i :: 0 <= i < |rows| ==> names[i] == LocationName(locations, rows[i].locationId)
  {
    if rows == [] then []
    else Names(rows[..|rows| - 1], locations) + [LocationName(locations, rows[|rows| - 1].locationId)]
  }

  /** One more visit to `name`: a first visit starts the count at 1. */
  function Bump(times: map<string, nat>, name: string): (times': map<string, nat>)
    ensures times'.Keys == times.Keys + {name}
    ensures times'[name] == (if name in times then times[name] else 0) + 1
    ensures forall k :: k in times && k != name ==> times'[k] == times[k]
  {
    if name !in times then times[name := 1] else times[name := times[name] + 1]
  }

  /** The `timesPerLocation` map of `rows`. */
  function Tally(rows: seq<HistoryRow>, locations: Directory): map<string, nat> {
    if rows == [] then map[]
    else Bump(Tally(rows[..|rows| - 1], locations), LocationName(locations, rows[|rows| - 1].locationId))
  }

  /** The loop of `get_user_summary` over the queried rows, with its three
      accumulators. */
  method Summarize(rows: seq<HistoryRow>, locations: Directory)
    returns (sumCharge: int, sumUse: int, times: map<string, nat>)
    ensures sumCharge == TotalCharge(rows)
    ensures sumUse == TotalUse(rows)
    ensures times == Tally(rows, locations)
  {
    sumCharge, sumUse, times := 0, 0, map[];
    var i := 0;
    while i < |rows|
      invariant 0 <= i <= |rows|
      invariant sumCharge == TotalCharge(rows[..i])
      invariant sumUse == TotalUse(rows[..i])
      invariant times == Tally(rows[..i], locations)
    {
      var item := rows[i];
      assert rows[..i + 1][..i] == rows[..i];
      sumCharge := sumCharge + ChargeOf(item);
      sumUse := sumUse + UseOf(item);
      var name := LocationName(locations, item.locationId);
      if name !in times {
        times := times[name := 1];
      } else {
        times := times[name := times[name] + 1];
      }
      i := i + 1;
    }
    assert rows[..i] == rows;
  }

  /** The charge total of a concatenation is the sum of the totals. */
  lemma {:induction false} TotalChargeAppend(a: seq<HistoryRow>, b: seq<HistoryRow>)
    ensures TotalCharge(a + b) == TotalCharge(a) + TotalCharge(b)
    decreases |b|
  {
    if b != [] {
      var b' := b[..|b| - 1];
      assert (a + b)[..|a + b| - 1] == a + b';
      TotalChargeAppend(a, b');
    } else {
      assert a + b == a;
    }
  }

  /** The use total of a concatenation is the sum of the totals. */
  lemma {:induction false} TotalUseAppend(a: seq<HistoryRow>, b: seq<HistoryRow>)
    ensures TotalUse(a + b) == TotalUse(a) + TotalUse(b)
    decreases |b|
  {
    if b != [] {
      var b' := b[..|b| - 1];
      assert (a + b)[..|a + b| - 1] == a + b';
      TotalUseAppend(a, b');
    } else {
      assert a + b == a;
    }
  }

  /** `timesPerLocation` counts every resolved name exactly as often as it
      occurs among the rows, and holds no other key. */
  lemma {:induction false} TallyCountsNames(rows: seq<HistoryRow>, locations: Directory)
    ensures forall k :: k in Tally(rows, locations) <==> k in multiset(Names(rows, locations))
    ensures forall k :: k in Tally(rows, locations) ==>
              Tally(rows, locations)[k] == multiset(Names(rows, locations))[k]
  {
    if rows != [] {
      var init := rows[..|rows| - 1];
      var name := LocationName(locations, rows[|rows| - 1].locationId);
      TallyCountsNames(init, locations);
      assert Names(rows, locations) == Names(init, locations) + [name];
      assert multiset(Names(rows, locations)) == multiset(Names(init, locations)) + multiset{name};
    }
  }

  /** A count as an `int`, the summand `SumBy` takes. */
  function NatValue(n: nat): int {
    n
  }

  /** The counts of `timesPerLocation` add up to the number of rows: every
      row is counted under exactly one name. */
  lemma {:induction false} TallySum(rows: seq<HistoryRow>, locations: Directory)
    ensures SumBy(Tally(rows, locations), NatValue) == |rows|
  {
    if rows != [] {
      var init := rows[..|rows| - 1];
      var name := LocationName(locations, rows[|rows| - 1].locationId);
      var before := Tally(init, locations);
      TallySum(init, locations);
      SumByUpdate(before, NatValue, name, (if name in before then before[name] else 0) + 1);
      if name in before {
        assert Bump(before, name) == before[name := before[name] + 1];
      } else {
        assert Bump(before, name) == before[name := 1];
      }
    }
  }

  /** The number of rows whose location id the directory does not know. */
  function Unresolved(rows: seq<HistoryRow>, locations: Directory): nat {
    if rows == [] then 0
    else Unresolved(rows[..|rows| - 1], locations) + (if rows[|rows| - 1].locationId in locations then 0 else 1)
  }

  /** Unresolved location ids are counted under "unknown"; when no
      directory entry is itself called "unknown", that count is exactly the
      number of unresolved rows. */
  lemma {:induction false} UnresolvedCountedAsUnknown(rows: seq<HistoryRow>, locations: Directory)
    ensures Unresolved(rows, locations) > 0 ==> Unknown in Tally(rows, locations)
    ensures Unknown in Tally(rows, locations) ==> Tally(rows, locations)[Unknown] >= Unresolved(rows, locations)
    ensures Unknown !in locations.Values ==>
              (if Unknown in Tally(rows, locations) then Tally(rows, locations)[Unknown] else 0)
              == Unresolved(rows, locations)
  {
    if rows != [] {
      var init := rows[..|rows| - 1];
      var id := rows[|rows| - 1].locationId;
      UnresolvedCountedAsUnknown(init, locations);
      if Unknown !in locations.Values && id in locations {
        assert locations[id] in locations.Values;
      }
    }
  }

  /** The resolved names of a concatenation are those of its parts. */
  lemma NamesAppend(a: seq<HistoryRow>, b: seq<HistoryRow>, locations: Directory)
    ensures Names(a + b, locations) == Names(a, locations) + Names(b, locations)
  {
    var l, r := Names(a + b, locations), Names(a, locations) + Names(b, locations);
    assert |l| == |r|;
    forall i | 0 <= i < |l| ensures l[i] == r[i] {
      if i >= |a| {
        assert (a + b)[i] == b[i - |a|];
      }
    }
  }

  /** Taking row `j` out of `b` takes its amounts out of the totals and its
      name out of the resolved names. */
  lemma RemoveRow(b: seq<HistoryRow>, j: nat, locations: Directory)
    requires j < |b|
    ensures var b' := b[..j] + b[j + 1..];
            && TotalCharge(b) == TotalCharge(b') + ChargeOf(b[j])
            && TotalUse(b) == TotalUse(b') + UseOf(b[j])
            && multiset(Names(b, locations)) == multiset(Names(b', locations)) + multiset{LocationName(locations, b[j].locationId)}
  {
    var x, left, right := b[j], b[..j], b[j + 1..];
    assert b == left + ([x] + right);
    assert [x][..0] == [];
    TotalChargeAppend(left, [x] + right);
    TotalChargeAppend([x], right);
    TotalChargeAppend(left, right);
    TotalUseAppend(left, [x] + right);
    TotalUseAppend([x], right);
    TotalUseAppend(left, right);
    NamesAppend(left, [x] + right, locations);
    NamesAppend([x], right, locations);
    NamesAppend(left, right, locations);
  }

  /** Two reorderings of each other stay so once their last row and a
      matching row are taken out. */
  lemma PermutationRemove<T>(a: seq<T>, b: seq<T>, j: nat)
    requires multiset(a) == multiset(b) && a != []
    requires j < |b| && b[j] == a[|a| - 1]
    ensures multiset(a[..|a| - 1]) == multiset(b[..j] + b[j + 1..])
  {
    var n := |a| - 1;
    assert a == a[..n] + [a[n]];
    assert b == b[..j] + [b[j]] + b[j + 1..];
    assert multiset(a[..n]) == multiset(a) - multiset{a[n]};
    assert multiset(b[..j] + b[j + 1..]) == multiset(b) - multiset{b[j]};
  }

  /** The summary totals and the multiset of resolved names do not depend
      on the order the query returns the rows in. */
  lemma {:induction false} TotalsIgnoreOrder(a: seq<HistoryRow>, b: seq<HistoryRow>, locations: Directory)
    requires multiset(a) == multiset(b)
    ensures TotalCharge(a) == TotalCharge(b)
    ensures TotalUse(a) == TotalUse(b)
    ensures multiset(Names(a, locations)) == multiset(Names(b, locations))
    decreases |a|
  {
    if a == [] {
      assert |b| == |multiset(b)| == 0;
    } else {
      var n := |a| - 1;
      assert a[n] in multiset(b);
      var j :| 0 <= j < |b| && b[j] == a[n];
      PermutationRemove(a, b, j);
      TotalsIgnoreOrder(a[..n], b[..j] + b[j + 1..], locations);
      RemoveRow(b, j, locations);
      assert Names(a, locations) == Names(a[..n], locations) + [LocationName(locations, a[n].locationId)];
    }
  }

  /** Two count maps that both count exactly the elements of one multiset
      are the same map. */
  lemma SameCounts(ta: map<string, nat>, tb: map<string, nat>, names: multiset<string>)
    requires forall k :: k in ta <==> k in names
    requires forall k :: k in ta ==> ta[k] == names[k]
    requires forall k :: k in tb <==> k in names
    requires forall k :: k in tb ==> tb[k] == names[k]
    ensures ta == tb
  {
    assert ta.Keys == tb.Keys;
  }

  /** Nor does the per-location tally: any reordering of the rows gives the
      same `timesPerLocation`. */
  lemma TallyIgnoresOrder(a: seq<HistoryRow>, b: seq<HistoryRow>, locations: Directory)
    requires multiset(a) == multiset(b)
    ensures Tally(a, locations) == Tally(b, locations)
  {
    TotalsIgnoreOrder(a, b, locations);
    TallyCountsNames(a, locations);
    TallyCountsNames(b, locations);
    SameCounts(Tally(a, locations), Tally(b, locations), multiset(Names(a, locations)));
  }

  // ---------------------------------------------------------------------
  // get_payment_history

  /** A history row as `get_payment_history` returns it: `locationId`
      replaced by `locationName`, every other attribute kept. */
  datatype PaymentRecord = PaymentRecord(
    userId: UserId,
    transactionId: TransactionId,
    chargeAmount: Option<int>,
    useAmount: Option<int>,
    locationName: string)

  /** Puts a location id back in place of the name. */
  function Reattach(rec: PaymentRecord, id: LocationId): HistoryRow {
    HistoryRow(rec.userId, rec.transactionId, rec.chargeAmount, rec.useAmount, id)
  }

  /** The reshaping of one row: reattaching the dropped id restores the
      row, and the name is the directory's. */
  function Present(row: HistoryRow, locations: Directory): (rec: PaymentRecord)
    ensures Reattach(rec, row.locationId) == row
    ensures rec.locationName == LocationName(locations, row.locationId)
  {
    PaymentRecord(row.userId, row.transactionId, row.chargeAmount, row.useAmount,
                  LocationName(locations, row.locationId))
  }

  /** The loop of `get_payment_history`: one record per row, in order. */
  method ReshapeHistory(rows: seq<HistoryRow>, locations: Directory) returns (out: seq<PaymentRecord>)
    ensures |out| == |rows|
    ensures forall i :: 0 <= i < |rows| ==>
              Reattach(out[i], rows[i].locationId) == rows[i]
              && out[i].locationName == LocationName(locations, rows[i].locationId)
  {
    out := [];
    var i := 0;
    while i < |rows|
      invariant 0 <= i <= |rows|
      invariant |out| == i
      invariant forall j :: 0 <= j < i ==> out[j] == Present(rows[j], locations)
    {
      out := out + [Present(rows[i], locations)];
      i := i + 1;
    }
  }
}
