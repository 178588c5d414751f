/** Price slots of the disposition executor: their orders, the amounts still open and the choice of the
    orders to cancel. */
module OrderSlots {
  import opened Domain
  import opened Sums

  type OrderId = nat
  type GroupId = nat

  datatype Order = Order(id: OrderId, side: OrderSide, price: real, amount: real, filled: real, finished: bool)

  datatype OrderRecord = OrderRecord(order: Order, isCancellationRequested: bool, group: GroupId)

  /** A price slot with its composite order. */
  datatype Slot = Slot(side: OrderSide, price: real, orders: map<OrderId, OrderRecord>)

  /** Records are kept under the id of their order. */
  predicate KeysMatch(orders: map<OrderId, OrderRecord>) {
    forall id :: id in orders ==> orders[id].order.id == id
  }

  function Open(record: OrderRecord): real {
    if record.order.finished then 0.0 else record.order.amount - record.order.filled
  }

  ghost function RemainingAmount(slot: Slot): real {
    Total(slot.orders, Open)
  }

  ghost function TotalRemainingAmount(slots: seq<Slot>): real {
    if slots == [] then 0.0 else TotalRemainingAmount(slots[..|slots| - 1]) + RemainingAmount(slots[|slots| - 1])
  }

  /** Changing one slot changes the total by what changes in that slot. */
  lemma {:induction false} TotalOfUpdate(slots: seq<Slot>, level: nat, slot: Slot)
    requires level < |slots|
    ensures TotalRemainingAmount(slots[level := slot]) ==
            TotalRemainingAmount(slots) - RemainingAmount(slots[level]) + RemainingAmount(slot)
  {
    var n := |slots| - 1;
    var updated := slots[level := slot];
    if level == n {
      assert updated[..n] == slots[..n];
    } else {
      assert updated[..n] == slots[..n][level := slot];
      TotalOfUpdate(slots[..n], level, slot);
    }
  }

  // ---- choosing the orders to cancel ----

  function OpenSum(records: seq<OrderRecord>): real {
    if records == [] then 0.0 else OpenSum(records[..|records| - 1]) + Open(records[|records| - 1])
  }

  predicate Ascending(records: seq<OrderRecord>) {
    forall i, j :: 0 <= i < j < |records| ==> records[i].order.amount <= records[j].order.amount
  }

  lemma OpenSumLast(records: seq<OrderRecord>, record: OrderRecord)
    ensures OpenSum(records + [record]) == OpenSum(records) + Open(record)
  {
    assert (records + [record])[..|records|] == records;
  }

  lemma {:induction false} OpenSumSplit(a: seq<OrderRecord>, b: seq<OrderRecord>)
    ensures OpenSum(a + b) == OpenSum(a) + OpenSum(b)
    decreases |b|
  {
    if b == [] {
      assert a + b == a;
    } else {
      var n := |b| - 1;
      assert (a + b)[..|a + b| - 1] == a + b[..n];
      OpenSumSplit(a, b[..n]);
    }
  }

  /** The sum does not depend on the order of the records. */
  lemma {:induction false} OpenSumPermuted(a: seq<OrderRecord>, b: seq<OrderRecord>)
    requires multiset(a) == multiset(b)
    ensures OpenSum(a) == OpenSum(b)
    decreases |a|
  {
    if a == [] {
      assert |multiset(b)| == 0;
    } else {
      var x, rest := a[|a| - 1], a[..|a| - 1];
      assert a == rest + [x];
      assert x in multiset(b);
      var k :| 0 <= k < |b| && b[k] == x;
      var others := b[..k] + b[k + 1..];
      assert b == b[..k] + [x] + b[k + 1..];
      assert multiset(a) == multiset(rest) + multiset{x};
      assert multiset(b) == multiset(others) + multiset{x};
      assert multiset(rest) == multiset(a) - multiset{x} && multiset(others) == multiset(b) - multiset{x};
      OpenSumPermuted(rest, others);
      OpenSumSplit(b[..k], b[k + 1..]);
      OpenSumSplit(b[..k] + [x], b[k + 1..]);
      OpenSumLast(b[..k], x);
    }
  }

  /** Inserts before the first record that is larger. */
  method Insert(sorted: seq<OrderRecord>, record: OrderRecord) returns (r: seq<OrderRecord>)
    requires Ascending(sorted)
    ensures Ascending(r) && multiset(r) == multiset(sorted) + multiset{record}
  {
    var k := |sorted|;
    while k > 0 && sorted[k - 1].order.amount > record.order.amount
      invariant 0 <= k <= |sorted|
      invariant forall j :: k <= j < |sorted| ==> record.order.amount < sorted[j].order.amount
    {
      k := k - 1;
    }
    r := sorted[..k] + [record] + sorted[k..];
    InsertPermutes(sorted, k, record);
    assert Ascending(r) by {
      InsertAscends(sorted, k, record, r);
    }
  }

  lemma InsertPermutes(sorted: seq<OrderRecord>, k: nat, record: OrderRecord)
    requires k <= |sorted|
    ensures multiset(sorted[..k] + [record] + sorted[k..]) == multiset(sorted) + multiset{record}
  {
    assert sorted == sorted[..k] + sorted[k..];
  }

  lemma InsertAscends(sorted: seq<OrderRecord>, k: nat, record: OrderRecord, r: seq<OrderRecord>)
    requires Ascending(sorted) && k <= |sorted| && r == sorted[..k] + [record] + sorted[k..]
    requires k > 0 ==> sorted[k - 1].order.amount <= record.order.amount
    requires forall j :: k <= j < |sorted| ==> record.order.amount < sorted[j].order.amount
    ensures Ascending(r)
  {
    forall i, j | 0 <= i < j < |r| ensures r[i].order.amount <= r[j].order.amount {
      assert i < k ==> r[i] == sorted[i] && sorted[i].order.amount <= record.order.amount;
      assert i > k ==> r[i] == sorted[i - 1];
      assert j < k ==> r[j] == sorted[j];
      assert j > k ==> r[j] == sorted[j - 1];
    }
  }

  method SortByAmount(records: seq<OrderRecord>) returns (sorted: seq<OrderRecord>)
    ensures Ascending(sorted) && multiset(sorted) == multiset(records)
  {
    sorted := [];
    for i := 0 to |records|
      invariant Ascending(sorted) && multiset(sorted) == multiset(records[..i])
    {
      sorted := Insert(sorted, records[i]);
      assert records[..i + 1] == records[..i] + [records[i]];
    }
    assert records[..|records|] == records;
  }

  /** The shortest ascending prefix that makes up for the surplus; one record if there is no surplus. */
  ghost predicate Picks(picked: seq<OrderRecord>, sorted: seq<OrderRecord>, delta: real) {
    && picked <= sorted
    && (sorted != [] ==> picked != [])
    && (forall k :: 0 < k < |picked| ==> OpenSum(picked[..k]) < delta)
    && (|picked| < |sorted| ==> OpenSum(picked) >= delta)
  }

  ghost predicate SortedForm(sorted: seq<OrderRecord>, records: seq<OrderRecord>) {
    Ascending(sorted) && multiset(sorted) == multiset(records)
  }

  /** A pick from the records in ascending order of amount. */
  ghost predicate PicksFrom(picked: seq<OrderRecord>, records: seq<OrderRecord>, delta: real) {
    exists sorted :: SortedForm(sorted, records) && Picks(picked, sorted, delta)
  }

  method GetCancellingOrders(records: seq<OrderRecord>, desired: real, remaining: real)
      returns (picked: seq<OrderRecord>)
    ensures PicksFrom(picked, records, remaining - desired)
  {
    var delta := remaining - desired;
    var ascending := SortByAmount(records);
    assert SortedForm(ascending, records);
    picked := [];
    var sum, i := 0.0, 0;
    while i < |ascending|
      invariant 0 <= i <= |ascending| && picked == ascending[..i] && sum == OpenSum(picked)
      invariant forall k :: 0 < k <= i ==> OpenSum(ascending[..k]) < delta
    {
      OpenSumLast(picked, ascending[i]);
      assert ascending[..i + 1] == picked + [ascending[i]];
      picked := picked + [ascending[i]];
      sum := sum + Open(ascending[i]);
      i := i + 1;
      assert forall k :: 0 < k < i ==> picked[..k] == ascending[..k];
      if sum >= delta {
        assert Picks(picked, ascending, delta);
        return;
      }
    }
    assert forall k :: 0 < k < i ==> picked[..k] == ascending[..k];
    assert Picks(picked, ascending, delta);
  }

  /** What stays open when the picked records are canceled. */
  function LeftOpen(records: seq<OrderRecord>, picked: seq<OrderRecord>): real {
    OpenSum(records) - OpenSum(picked)
  }

  /** Enough is canceled: whatever is left open is at most what is desired. */
  lemma EnoughIsCanceled(records: seq<OrderRecord>, sorted: seq<OrderRecord>, picked: seq<OrderRecord>, desired: real)
    requires multiset(sorted) == multiset(records) && desired >= 0.0
    requires Picks(picked, sorted, OpenSum(records) - desired)
    ensures LeftOpen(records, picked) <= desired
  {
    OpenSumPermuted(sorted, records);
    if |picked| == |sorted| {
      assert picked == sorted;
    }
  }

  /** Without its last record the pick would leave more open than desired. */
  ghost predicate LastIsNeeded(records: seq<OrderRecord>, picked: seq<OrderRecord>, desired: real) {
    picked != [] ==> LeftOpen(records, picked[..|picked| - 1]) > desired
  }

  predicate NoneOverfilled(records: seq<OrderRecord>) {
    forall record :: record in records ==> Open(record) >= 0.0
  }

  /** The choice is minimal exactly when there is a surplus to cancel (or nothing to choose from): without
      one the smallest order is canceled all the same. */
  lemma MinimalIffSurplus(records: seq<OrderRecord>, sorted: seq<OrderRecord>, picked: seq<OrderRecord>, desired: real)
    requires multiset(sorted) == multiset(records) && Picks(picked, sorted, OpenSum(records) - desired)
    requires NoneOverfilled(records)
    ensures LastIsNeeded(records, picked, desired) <==> records == [] || OpenSum(records) > desired
  {
    assert |sorted| == |multiset(sorted)| == |multiset(records)| == |records|;
    if picked != [] {
      var n := |picked| - 1;
      if n == 0 {
        assert picked[..n] == [];
      } else {
        assert OpenSum(picked[..n]) < OpenSum(records) - desired;
        assert OpenSum(records) > desired by {
          FirstIsOpen(records, sorted, picked, OpenSum(records) - desired);
        }
      }
    }
  }

  /** More than one record is only taken for a surplus. */
  lemma FirstIsOpen(records: seq<OrderRecord>, sorted: seq<OrderRecord>, picked: seq<OrderRecord>, delta: real)
    requires multiset(sorted) == multiset(records) && Picks(picked, sorted, delta) && NoneOverfilled(records)
             && |picked| > 1
    ensures delta > 0.0
  {
    assert picked[0] == sorted[0];
    assert picked[0] in multiset(sorted);
    assert picked[0] in records;
    assert picked[..1] == [] + [picked[0]];
    OpenSumLast([], picked[0]);
    assert OpenSum(picked[..1]) == Open(picked[0]);
  }

  const ALLOWED_AMOUNT_DEVIATION_RATE: real := 0.001

  /** What the executor asks before it cancels anything. */
  predicate TooMuch(remaining: real, desired: real) {
    remaining >= desired && remaining > desired * (1.0 + ALLOWED_AMOUNT_DEVIATION_RATE)
  }

  /** Anything beyond what is desired is too much when nothing is desired, and otherwise what is more than a
      thousandth of it. */
  lemma TooMuchIff(remaining: real, desired: real)
    ensures desired >= 0.0 ==> (TooMuch(remaining, desired) <==> 1000.0 * (remaining - desired) > desired)
    ensures desired < 0.0 ==> (TooMuch(remaining, desired) <==> remaining >= desired)
  {
  }

  function LoneOrder(): seq<OrderRecord> {
    [OrderRecord(Order(0, Buy, 1.0, 1.0, 0.0, false), false, 0)]
  }

  /** One order of 1 is open where 5 are desired: every pick cancels it, although nothing is too much. */
  lemma NeedlessPick(picked: seq<OrderRecord>)
    requires PicksFrom(picked, LoneOrder(), OpenSum(LoneOrder()) - 5.0)
    ensures OpenSum(LoneOrder()) == 1.0 && picked == LoneOrder() && !LastIsNeeded(LoneOrder(), picked, 5.0)
  {
    var records := LoneOrder();
    OpenSumLast([], records[0]);
    assert [] + [records[0]] == records;
    var sorted :| SortedForm(sorted, records) && Picks(picked, sorted, OpenSum(records) - 5.0);
    assert |sorted| == |multiset(sorted)| == |multiset(records)| == 1;
    assert sorted[0] in multiset(sorted);
    MinimalIffSurplus(records, sorted, picked, 5.0);
  }
}
