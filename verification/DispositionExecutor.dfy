/** The disposition executor in its own form: price slots and the timeout manager changed in place. */
module DispositionExecutors {
  import opened Domain
  import opened Sums
  import opened Symbols
  import opened OrderSlots
  import opened ExecutorProtocol
  import opened ExecutorAccounting

  class RequestsTimeoutManager {
    var groups: seq<Group>
    var nextGroup: GroupId
    ghost var log: seq<GroupEvent>
    ghost var misses: nat

    ghost function View(): Timeouts
      reads this
    {
      Timeouts(groups, nextGroup, log, misses)
    }

    constructor ()
      ensures View() == Timeouts([], 0, [], 0)
    {
      groups, nextGroup, log, misses := [], 0, [], 0;
    }

    method TryReserveGroup(available: bool, mine: bool) returns (id: Option<GroupId>)
      modifies this
      ensures id == if available then Some(old(nextGroup)) else None
      ensures View() == if available then ReserveGroup(old(View()), mine) else old(View())
    {
      if !available {
        return None;
      }
      id := Some(nextGroup);
      groups := groups + [Group(nextGroup, mine)];
      log := log + [Reserved(nextGroup)];
      nextGroup := nextGroup + 1;
    }

    method Remove(id: GroupId) returns (found: bool)
      modifies this
      ensures View() == RemoveGroup(old(View()), id) && found == HasGroup(old(groups), id)
    {
      var i := 0;
      while i < |groups| && groups[i].id != id
        invariant i <= |groups| && forall j :: 0 <= j < i ==> groups[j].id != id
      {
        i := i + 1;
      }
      found := i < |groups|;
      if found {
        assert groups[i] in groups;
        WithoutAt(groups, id, i);
        groups := groups[..i] + groups[i + 1..];
        log := log + [Released(id)];
      } else {
        misses := misses + 1;
      }
    }
  }

  lemma {:induction false} WithoutAt(groups: seq<Group>, id: GroupId, i: nat)
    requires i < |groups| && groups[i].id == id && forall j :: 0 <= j < i ==> groups[j].id != id
    ensures Without(groups, id) == groups[..i] + groups[i + 1..]
    decreases |groups|
  {
    if i > 0 {
      WithoutAt(groups[1..], id, i - 1);
      assert groups[..i] == [groups[0]] + groups[1..][..i - 1];
      assert groups[1..][i..] == groups[i + 1..];
    }
  }

  class DispositionExecutor {
    var buy: seq<Slot>
    var sell: seq<Slot>
    const timeouts: RequestsTimeoutManager
    var nextOrder: OrderId
    var stopped: bool

    ghost function View(): State
      reads this, timeouts
    {
      State(buy, sell, timeouts.View(), nextOrder, stopped)
    }

    function SlotsOf(side: OrderSide): (slots: seq<Slot>)
      reads this
      ensures slots == if side.Buy? then buy else sell
    {
      if side.Buy? then buy else sell
    }

    constructor ()
      ensures Initial(View()) && fresh(timeouts) && |buy| == |sell| == 1
    {
      buy, sell := [Slot(Buy, 0.0, map[])], [Slot(Sell, 0.0, map[])];
      timeouts := new RequestsTimeoutManager();
      nextOrder, stopped := 0, false;
    }

    method SetSlot(side: OrderSide, level: nat, slot: Slot)
      requires level < |SlotsOf(side)|
      modifies this`buy, this`sell
      ensures View() == WithSlot(old(View()), side, level, slot)
    {
      if side.Buy? {
        buy := buy[level := slot];
      } else {
        sell := sell[level := slot];
      }
    }

    method FindPriceSlot(side: OrderSide, order: OrderId) returns (level: Option<nat>)
      ensures level == FindSlot(Slots(View(), side), order)
    {
      var slots := SlotsOf(side);
      var i := 0;
      while i < |slots| && order !in slots[i].orders
        invariant i <= |slots| && forall j :: 0 <= j < i ==> order !in slots[j].orders
      {
        i := i + 1;
      }
      FindSlotAt(slots, order, i);
      level := if i < |slots| then Some(i) else None;
    }

    // ---- amounts ----

    method CalcTotalRemainingAmount(side: OrderSide) returns (total: real)
      ensures total == TotalRemainingAmount(Slots(View(), side))
    {
      var slots := SlotsOf(side);
      total := 0.0;
      for i := 0 to |slots|
        invariant total == TotalRemainingAmount(slots[..i])
      {
        var remaining := SumOpen(slots[i].orders);
        total := total + remaining;
        assert slots[..i + 1][..i] == slots[..i];
      }
      assert slots[..|slots|] == slots;
    }

    method CalculateNewOrderAmount(side: OrderSide, desired: real, maxAmount: real) returns (amount: real)
      ensures amount == NewOrderAmount(View(), side, desired, maxAmount)
    {
      var total := CalcTotalRemainingAmount(side);
      amount := Max(0.0, Min(desired, maxAmount - total));
    }

    // ---- orders ----

    /** `answers` is what the crossing check, the limits, the timeout manager, the balances and the
        cancellation token say; the result tells whether the executor goes on. */
    method TryCreateOrder(side: OrderSide, level: nat, desired: real, maxAmount: real, price: real, answers: Answers)
        returns (ok: bool)
      requires level < |SlotsOf(side)| && !stopped
      modifies this, timeouts
      ensures View() == Step(old(View()), TryCreate(side, level, desired, maxAmount, price, answers))
      ensures ok == !stopped
    {
      if answers.crosses {
        return true;
      }
      var amount := CalculateNewOrderAmount(side, desired, maxAmount);
      if !answers.enough {
        return true;
      }
      var group := timeouts.TryReserveGroup(answers.hasGroup, true);
      if group.None? {
        return true;
      }
      if !answers.hasBalance {
        var _ := timeouts.Remove(group.value);
        return true;
      }
      if !answers.hasRequest {
        var _ := timeouts.Remove(group.value);
        return true;
      }
      var slot := SlotsOf(side)[level];
      var record := OrderRecord(Order(nextOrder, side, price, amount, 0.0, false), false, group.value);
      SetSlot(side, level, slot.(side := side, price := price, orders := slot.orders[nextOrder := record]));
      nextOrder := nextOrder + 1;
      stopped := answers.cancelled;
      return !stopped;
    }

    method FinishOrder(side: OrderSide, level: nat, order: OrderId)
      requires FindSlot(Slots(View(), side), order) == Some(level)
      modifies this`buy, this`sell, timeouts
      ensures View() == Finish(old(View()), side, order)
    {
      var slot := SlotsOf(side)[level];
      var _ := timeouts.Remove(slot.orders[order].group);
      SetSlot(side, level, slot.(orders := slot.orders - {order}));
    }

    method HandleCreateFailed(side: OrderSide, order: OrderId)
      requires !stopped
      modifies this, timeouts
      ensures View() == Step(old(View()), CreateFailed(side, order))
    {
      var level := FindPriceSlot(side, order);
      if level.Some? {
        FinishOrder(side, level.value, order);
      }
    }

    method HandleCancelSucceeded(side: OrderSide, order: OrderId)
      requires !stopped
      modifies this, timeouts
      ensures View() == Step(old(View()), CancelSucceeded(side, order))
    {
      var level := FindPriceSlot(side, order);
      if level.Some? {
        FinishOrder(side, level.value, order);
      }
    }

    /** `handled` tells whether the strategy accepts the fill. */
    method HandleCompleted(side: OrderSide, order: OrderId, handled: bool) returns (ok: bool)
      requires !stopped
      modifies this, timeouts
      ensures View() == Step(old(View()), Completed(side, order, handled)) && ok == !stopped
    {
      var level := FindPriceSlot(side, order);
      if level.Some? {
        if !handled {
          stopped := true;
          return false;
        }
        FinishOrder(side, level.value, order);
      }
      return true;
    }

    method RequestCancellation(side: OrderSide, level: nat, order: OrderId)
      requires !stopped && level < |SlotsOf(side)| && order in SlotsOf(side)[level].orders
      modifies this`buy, this`sell
      ensures View() == Step(old(View()), CancelOrder(side, level, order))
    {
      var slot := SlotsOf(side)[level];
      if slot.orders[order].isCancellationRequested {
        assert slot.orders == slot.orders[order := slot.orders[order].(isCancellationRequested := true)];
        assert SlotsOf(side) == SlotsOf(side)[level := slot];
        return;
      }
      SetSlot(side, level, slot.(orders := slot.orders[order := slot.orders[order].(isCancellationRequested := true)]));
    }

    /** Cancels the orders of a slot that are too much, the smallest first: what stays open is at most what
        is desired, and no fewer of them would do exactly when there was too much. It is a run of single
        cancellations, so it keeps what runs keep. */
    method CancelSurplus(side: OrderSide, level: nat, desired: real)
      returns (picked: seq<OrderRecord>, ghost records: seq<OrderRecord>)
      requires !stopped && level < |SlotsOf(side)| && KeysMatch(SlotsOf(side)[level].orders)
      modifies this`buy, this`sell
      ensures ListsValues(records, old(SlotsOf(side)[level].orders))
      ensures PicksFrom(picked, records, RemainingAmount(old(SlotsOf(side)[level])) - desired)
      ensures desired >= 0.0 ==> LeftOpen(records, picked) <= desired
      ensures NoneOverfilled(records) ==>
                (LastIsNeeded(records, picked, desired) <==>
                 records == [] || RemainingAmount(old(SlotsOf(side)[level])) > desired)
      ensures var slot := old(SlotsOf(side)[level]);
              View() == WithSlot(old(View()), side, level, slot.(orders := Marked(slot.orders, picked)))
      ensures View() == Run(old(View()), CancelOps(side, level, picked))
      ensures Inv(old(View())) ==> Inv(View())
    {
      var slot := SlotsOf(side)[level];
      var list := Values(slot.orders);
      records := list;
      var remaining := SumOpen(slot.orders);
      picked := GetCancellingOrders(list, desired, remaining);
      ghost var sorted :| SortedForm(sorted, records) && Picks(picked, sorted, remaining - desired);
      if desired >= 0.0 {
        EnoughIsCanceled(records, sorted, picked, desired);
      }
      if NoneOverfilled(records) {
        MinimalIffSurplus(records, sorted, picked, desired);
      }
      StartCancelling(side, level, picked, list, sorted);
      if Inv(old(View())) {
        RunKeepsInv(old(View()), CancelOps(side, level, picked));
      }
    }

    /** The test before canceling: more is open than desired and allowed. With it no order is ever canceled
        needlessly. */
    method CancelIfTooMuch(side: OrderSide, level: nat, desired: real)
      returns (picked: seq<OrderRecord>, ghost records: seq<OrderRecord>)
      requires !stopped && level < |SlotsOf(side)| && KeysMatch(SlotsOf(side)[level].orders)
      modifies this`buy, this`sell
      ensures ListsValues(records, old(SlotsOf(side)[level].orders))
      ensures TooMuch(RemainingAmount(old(SlotsOf(side)[level])), desired) || picked == []
      ensures desired >= 0.0 && NoneOverfilled(records) ==> LastIsNeeded(records, picked, desired)
      ensures desired >= 0.0 && TooMuch(RemainingAmount(old(SlotsOf(side)[level])), desired) ==>
                picked != [] && LeftOpen(records, picked) <= desired
      ensures View() == Run(old(View()), CancelOps(side, level, picked))
      ensures Inv(old(View())) ==> Inv(View())
    {
      var slot := SlotsOf(side)[level];
      var remaining := SumOpen(slot.orders);
      if TooMuch(remaining, desired) {
        picked, records := CancelSurplus(side, level, desired);
        assert desired >= 0.0 ==> remaining > desired && LeftOpen(records, []) > desired;
      } else {
        var list := Values(slot.orders);
        picked, records := [], list;
        assert CancelOps(side, level, picked) == [];
      }
    }

    method StartCancelling(side: OrderSide, level: nat, picked: seq<OrderRecord>, ghost records: seq<OrderRecord>,
                           ghost sorted: seq<OrderRecord>)
      requires !stopped && level < |SlotsOf(side)| && KeysMatch(SlotsOf(side)[level].orders)
      requires ListsValues(records, SlotsOf(side)[level].orders) && multiset(sorted) == multiset(records)
               && picked <= sorted
      modifies this`buy, this`sell
      ensures var slot := old(SlotsOf(side)[level]);
              View() == WithSlot(old(View()), side, level, slot.(orders := Marked(slot.orders, picked)))
      ensures View() == Run(old(View()), CancelOps(side, level, picked))
    {
      ghost var was := View();
      forall record | record in picked ensures record in SlotsOf(side)[level].orders.Values {
        PickedIsListed(picked, sorted, records, record);
      }
      for i := 0 to |picked|
        invariant timeouts.View() == was.timeouts
        invariant View() == Run(was, CancelOps(side, level, picked[..i]))
      {
        CancelRunMarks(was, side, level, picked[..i]);
        MarkedStep(Slots(was, side)[level].orders, picked[..i], picked[i]);
        CancelOpsStep(was, side, level, picked, i);
        RequestCancellation(side, level, picked[i].order.id);
      }
      assert picked[..|picked|] == picked;
      CancelRunMarks(was, side, level, picked);
    }
  }

  lemma {:induction false} FindSlotAt(slots: seq<Slot>, order: OrderId, i: nat)
    requires i <= |slots| && (forall j :: 0 <= j < i ==> order !in slots[j].orders)
             && (i < |slots| ==> order in slots[i].orders)
    ensures FindSlot(slots, order) == if i < |slots| then Some(i) else None
    decreases |slots|
  {
    if i > 0 {
      FindSlotAt(slots[1..], order, i - 1);
    }
  }

  // ---- the records of a slot as a list ----

  ghost predicate ListsValues(records: seq<OrderRecord>, orders: map<OrderId, OrderRecord>) {
    && OpenSum(records) == Total(orders, Open)
    && forall record :: record in records <==> record in orders.Values
  }

  method SumOpen(orders: map<OrderId, OrderRecord>) returns (sum: real)
    ensures sum == Total(orders, Open)
  {
    sum := 0.0;
    var todo := orders;
    while todo != map[]
      invariant sum + Total(todo, Open) == Total(orders, Open)
      decreases |todo|
    {
      var id :| id in todo;
      TotalSplit(todo, Open, id);
      if !todo[id].order.finished {
        sum := sum + (todo[id].order.amount - todo[id].order.filled);
      }
      todo := todo - {id};
    }
  }

  /** The records in whatever order the map is visited. */
  method Values(orders: map<OrderId, OrderRecord>) returns (records: seq<OrderRecord>)
    ensures ListsValues(records, orders)
  {
    records := [];
    var todo := orders;
    while todo != map[]
      invariant OpenSum(records) + Total(todo, Open) == Total(orders, Open)
      invariant forall record :: record in records || record in todo.Values <==> record in orders.Values
      decreases |todo|
    {
      var id :| id in todo;
      TotalSplit(todo, Open, id);
      OpenSumLast(records, todo[id]);
      ValuesSplit(todo, id);
      records := records + [todo[id]];
      todo := todo - {id};
    }
  }

  lemma ValuesSplit(m: map<OrderId, OrderRecord>, id: OrderId)
    requires id in m
    ensures m.Values == {m[id]} + (m - {id}).Values
  {
    forall record | record in m.Values ensures record in {m[id]} + (m - {id}).Values {
      var k :| k in m && m[k] == record;
      assert k != id ==> k in m - {id} && (m - {id})[k] == record;
    }
    forall record | record in {m[id]} + (m - {id}).Values ensures record in m.Values {
      if record != m[id] {
        var k :| k in m - {id} && (m - {id})[k] == record;
        assert k in m && m[k] == record;
      }
    }
  }

  /** The orders once cancellation is requested for the picked ones. */
  function Marked(orders: map<OrderId, OrderRecord>, picked: seq<OrderRecord>): map<OrderId, OrderRecord> {
    map id | id in orders :: if orders[id] in picked then orders[id].(isCancellationRequested := true) else orders[id]
  }

  lemma MarkedStep(orders: map<OrderId, OrderRecord>, picked: seq<OrderRecord>, record: OrderRecord)
    requires KeysMatch(orders) && record in orders.Values
    ensures record.order.id in orders && orders[record.order.id] == record
    ensures Marked(orders, picked + [record]) == Marked(orders, picked)[record.order.id :=
            record.(isCancellationRequested := true)]
  {
    var id :| id in orders && orders[id] == record;
  }

  lemma PickedIsListed(picked: seq<OrderRecord>, sorted: seq<OrderRecord>, records: seq<OrderRecord>,
                       record: OrderRecord)
    requires multiset(sorted) == multiset(records) && picked <= sorted && record in picked
    ensures record in records
  {
    var i :| 0 <= i < |picked| && picked[i] == record;
    assert sorted[i] == record && sorted[i] in multiset(sorted);
  }

  /** One cancellation marks one more record. */
  lemma CancelMarksOne(s: State, side: OrderSide, level: nat, slot: Slot, picked: seq<OrderRecord>, record: OrderRecord)
    requires !s.stopped && level < |Slots(s, side)| && KeysMatch(slot.orders) && record in slot.orders.Values
    ensures Step(WithSlot(s, side, level, slot.(orders := Marked(slot.orders, picked))),
            CancelOrder(side, level, record.order.id)) ==
            WithSlot(s, side, level, slot.(orders := Marked(slot.orders, picked + [record])))
  {
    MarkedStep(slot.orders, picked, record);
  }

  /** Canceling the picked orders one by one marks exactly them. */
  lemma {:induction false} CancelRunMarks(s: State, side: OrderSide, level: nat, picked: seq<OrderRecord>)
    requires !s.stopped && level < |Slots(s, side)| && KeysMatch(Slots(s, side)[level].orders)
    requires forall record :: record in picked ==> record in Slots(s, side)[level].orders.Values
    ensures var slot := Slots(s, side)[level];
            Run(s, CancelOps(side, level, picked)) == WithSlot(s, side, level,
                slot.(orders := Marked(slot.orders, picked)))
    decreases |picked|
  {
    var slot := Slots(s, side)[level];
    if picked == [] {
      assert Marked(slot.orders, []) == slot.orders;
      assert Slots(s, side)[level := slot] == Slots(s, side);
    } else {
      var n := |picked| - 1;
      assert picked == picked[..n] + [picked[n]];
      CancelRunMarks(s, side, level, picked[..n]);
      CancelOpsStep(s, side, level, picked, n);
      assert picked[..n + 1] == picked;
      CancelMarksOne(s, side, level, slot, picked[..n], picked[n]);
    }
  }

  /** The single cancellations of a pick. */
  function CancelOps(side: OrderSide, level: nat, picked: seq<OrderRecord>): (ops: seq<Op>)
    ensures |ops| == |picked|
  {
    seq(|picked|, i requires 0 <= i < |picked| => CancelOrder(side, level, picked[i].order.id))
  }

  lemma CancelOpsStep(s: State, side: OrderSide, level: nat, picked: seq<OrderRecord>, i: nat)
    requires i < |picked|
    ensures Run(s, CancelOps(side, level, picked[..i + 1])) ==
            Step(Run(s, CancelOps(side, level, picked[..i])), CancelOrder(side, level, picked[i].order.id))
  {
    assert CancelOps(side, level, picked[..i + 1])[..i] == CancelOps(side, level, picked[..i]);
  }
}
