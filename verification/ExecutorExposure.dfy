/** What the executor leaves open on a side of the market never exceeds the largest amount it is given. */
module ExecutorExposure {
  import opened Domain
  import opened Sums
  import opened Symbols
  import opened OrderSlots
  import opened ExecutorProtocol
  import opened ExecutorAccounting

  ghost function Exposure(s: State, side: OrderSide): real {
    TotalRemainingAmount(Slots(s, side))
  }

  /** No order is filled beyond its amount. */
  ghost predicate NoneOverfilledAt(s: State) {
    forall p :: At(s, p) ==> Open(RecordAt(s, p.side, p.level, p.order)) >= 0.0
  }

  lemma SlotExposure(s: State, side: OrderSide, level: nat, slot: Slot, other: OrderSide)
    requires level < |Slots(s, side)|
    ensures Exposure(WithSlot(s, side, level, slot), other) ==
            Exposure(s, other) + if other == side then RemainingAmount(slot) - RemainingAmount(Slots(s, side)[level])
                else 0.0
  {
    TotalOfUpdate(Slots(s, side), level, slot);
  }

  /** Replacing or adding one record moves the exposure by what the record has open. */
  lemma RecordExposure(s: State, side: OrderSide, level: nat, slot: Slot, order: OrderId, record: OrderRecord,
                       other: OrderSide)
    requires level < |Slots(s, side)| && slot.orders == Slots(s, side)[level].orders[order := record]
    ensures Exposure(WithSlot(s, side, level, slot), other) ==
            Exposure(s, other)
            + if other != side then 0.0
              else Open(record) - if IsAt(s, side, level, order) then Open(RecordAt(s, side, level, order)) else 0.0
  {
    SlotExposure(s, side, level, slot, other);
    TotalPut(Slots(s, side)[level].orders, Open, order, record);
  }

  lemma DropExposure(s: State, side: OrderSide, level: nat, order: OrderId, other: OrderSide)
    requires IsAt(s, side, level, order)
    ensures Exposure(WithoutRecord(s, side, level, order), other) ==
            Exposure(s, other) - if other == side then Open(RecordAt(s, side, level, order)) else 0.0
  {
    var slot := Slots(s, side)[level];
    SlotExposure(s, side, level, slot.(orders := slot.orders - {order}), other);
    TotalDrop(slot.orders, Open, order);
  }

  /** The new order fits below the quota: only an exposure that is already beyond it stays beyond it. */
  lemma NewOrderFits(s: State, side: OrderSide, desired: real, maxAmount: real)
    ensures NewOrderAmount(s, side, desired, maxAmount) >= 0.0
    ensures Exposure(s, side) + NewOrderAmount(s, side, desired, maxAmount) <= Max(Exposure(s, side), maxAmount)
    ensures desired <= maxAmount - Exposure(s, side) && desired >= 0.0 ==>
            NewOrderAmount(s, side, desired, maxAmount) == desired
    ensures desired >= maxAmount - Exposure(s, side) >= 0.0 ==>
            Exposure(s, side) + NewOrderAmount(s, side, desired, maxAmount) == maxAmount
    ensures desired <= 0.0 || maxAmount <= Exposure(s, side) ==>
            NewOrderAmount(s, side, desired, maxAmount) == 0.0
  {
  }

  ghost predicate RecordsNotOverfilled(orders: map<OrderId, OrderRecord>) {
    forall order :: order in orders ==> Open(orders[order]) >= 0.0
  }

  lemma SlotNotOverfilled(s: State, side: OrderSide, level: nat, slot: Slot)
    requires level < |Slots(s, side)| && NoneOverfilledAt(s) && RecordsNotOverfilled(slot.orders)
    ensures NoneOverfilledAt(WithSlot(s, side, level, slot))
  {
    var s' := WithSlot(s, side, level, slot);
    forall p | At(s', p) ensures Open(RecordAt(s', p.side, p.level, p.order)) >= 0.0 {
      if p.side != side || p.level != level {
        assert At(s, p) && RecordAt(s', p.side, p.level, p.order) == RecordAt(s, p.side, p.level, p.order);
      }
    }
  }

  lemma OldNotOverfilled(s: State, side: OrderSide, level: nat)
    requires level < |Slots(s, side)| && NoneOverfilledAt(s)
    ensures RecordsNotOverfilled(Slots(s, side)[level].orders)
  {
    forall order | order in Slots(s, side)[level].orders ensures Open(Slots(s, side)[level].orders[order]) >= 0.0 {
      assert At(s, Place(side, level, order));
    }
  }

  /** A reported change moves the exposure of its side by what the order has open less: nothing is open once it
      is finished, and what is not filled until then. */
  lemma ChangeExposure(s: State, op: Op, other: OrderSide)
    requires op.OrderChanges? && IsAt(s, op.side, op.level, op.order)
    ensures var order := RecordAt(s, op.side, op.level, op.order).order;
            var was := if order.finished then 0.0 else order.amount - order.filled;
            var open := if op.finished then 0.0 else order.amount - op.filled;
            Exposure(Step(s, op), other) == Exposure(s, other) + if other == op.side then open - was else 0.0
  {
    var slot, record := Slots(s, op.side)[op.level], RecordAt(s, op.side, op.level, op.order);
    var changed := record.(order := record.order.(filled := op.filled, finished := op.finished));
    RecordExposure(s, op.side, op.level, slot.(orders := slot.orders[op.order := changed]), op.order, changed, other);
  }

  ghost predicate ExposureOk(s: State, side: OrderSide, most: real) {
    Exposure(s, side) <= most && NoneOverfilledAt(s)
  }

  /** Orders are created with at most `most` on this side; the exchange only ever fills and finishes them. */
  ghost predicate Sane(s: State, op: Op, side: OrderSide, most: real) {
    && (op.TryCreate? && op.side == side ==> op.maxAmount <= most)
    && (op.OrderChanges? && IsAt(s, op.side, op.level, op.order) ==>
          var was := RecordAt(s, op.side, op.level, op.order).order;
          was.filled <= op.filled <= was.amount && (was.finished ==> op.finished))
  }

  lemma AddOrderExposure(s: State, side: OrderSide, level: nat, price: real, order: Order, other: OrderSide)
    requires Inv(s) && level < |Slots(s, side)| && !order.finished && order.filled == 0.0
    ensures Exposure(AddOrder(s, side, level, price, order), other) == Exposure(s, other) + if other == side
            then order.amount else 0.0
    ensures NoneOverfilledAt(s) && order.amount >= 0.0 ==> NoneOverfilledAt(AddOrder(s, side, level, price, order))
  {
    var slot, record := Slots(s, side)[level], OrderRecord(order, false, s.timeouts.nextGroup);
    var slot' := slot.(side := side, price := price, orders := slot.orders[s.nextOrder := record]);
    assert !At(s, Place(side, level, s.nextOrder));
    RecordExposure(s, side, level, slot', s.nextOrder, record, other);
    var s1, s' := WithSlot(s, side, level, slot'), AddOrder(s, side, level, price, order);
    if NoneOverfilledAt(s) && order.amount >= 0.0 {
      OldNotOverfilled(s, side, level);
      SlotNotOverfilled(s, side, level, slot');
      SameRecords(s1, s');
    }
  }

  lemma SameRecords(s: State, s': State)
    requires s'.buy == s.buy && s'.sell == s.sell && NoneOverfilledAt(s)
    ensures NoneOverfilledAt(s')
  {
    assert forall p :: At(s', p) ==> At(s, p);
  }

  lemma ReplaceExposure(s: State, side: OrderSide, level: nat, order: OrderId, record: OrderRecord, other: OrderSide,
                        most: real)
    requires IsAt(s, side, level, order) && 0.0 <= Open(record) <= Open(RecordAt(s, side, level, order))
             && ExposureOk(s, other, most)
    ensures ExposureOk(WithRecord(s, side, level, order, record), other, most)
  {
    var slot := Slots(s, side)[level];
    var slot' := slot.(orders := slot.orders[order := record]);
    RecordExposure(s, side, level, slot', order, record, other);
    OldNotOverfilled(s, side, level);
    SlotNotOverfilled(s, side, level, slot');
  }

  lemma FinishExposure(s: State, side: OrderSide, order: OrderId, other: OrderSide, most: real)
    requires ExposureOk(s, other, most)
    ensures ExposureOk(Finish(s, side, order), other, most)
  {
    var found := FindSlot(Slots(s, side), order);
    if found.Some? {
      var level, s' := found.value, Finish(s, side, order);
      var slot, s1 := Slots(s, side)[level], WithoutRecord(s, side, level, order);
      assert At(s, Place(side, level, order));
      DropExposure(s, side, level, order, other);
      OldNotOverfilled(s, side, level);
      SlotNotOverfilled(s, side, level, slot.(orders := slot.orders - {order}));
      SameRecords(s1, s');
    }
  }

  lemma CreateExposure(s: State, op: Op, side: OrderSide, most: real)
    requires Inv(s) && ExposureOk(s, side, most) && op.TryCreate? && op.level < |Slots(s, op.side)|
             && Sane(s, op, side, most)
    ensures ExposureOk(DoTryCreate(s, op), side, most)
  {
    var s', a := DoTryCreate(s, op), op.answers;
    if !a.crosses && a.enough && a.hasGroup && a.hasBalance && a.hasRequest {
      var order := Order(s.nextOrder, op.side, op.price, NewOrderAmount(s, op.side, op.desired, op.maxAmount), 0.0,
          false);
      NewOrderFits(s, op.side, op.desired, op.maxAmount);
      AddOrderExposure(s, op.side, op.level, op.price, order, side);
      SameRecords(AddOrder(s, op.side, op.level, op.price, order), s');
    } else {
      SameRecords(s, s');
    }
  }

  lemma StepKeepsExposure(s: State, op: Op, side: OrderSide, most: real)
    requires Inv(s) && ExposureOk(s, side, most) && Sane(s, op, side, most)
    ensures ExposureOk(Step(s, op), side, most)
  {
    if op.OrderChanges? {
      if IsAt(s, op.side, op.level, op.order) {
        var record := RecordAt(s, op.side, op.level, op.order);
        assert At(s, Place(op.side, op.level, op.order));
        ReplaceExposure(s, op.side, op.level, op.order,
                        record.(order := record.order.(filled := op.filled, finished := op.finished)), side, most);
      }
    } else if op.OtherReserves? || op.OtherRemoves? {
      SameRecords(s, Step(s, op));
    } else if !s.stopped {
      match op
      case TryCreate(_, level, _, _, _, _) =>
        if level < |Slots(s, op.side)| {
          CreateExposure(s, op, side, most);
        }
      case CreateFailed(from, order) => FinishExposure(s, from, order, side, most);
      case CancelSucceeded(from, order) => FinishExposure(s, from, order, side, most);
      case Completed(from, order, handled) =>
        FinishExposure(s, from, order, side, most);
        SameRecords(s, s.(stopped := true));
      case CancelOrder(from, level, order) =>
        if IsAt(s, from, level, order) {
          var record := RecordAt(s, from, level, order);
          assert At(s, Place(from, level, order));
          ReplaceExposure(s, from, level, order, record.(isCancellationRequested := true), side, most);
        }
    }
  }

  ghost predicate SaneRun(s: State, ops: seq<Op>, side: OrderSide, most: real) {
    ops == [] ||
    (SaneRun(s, ops[..|ops| - 1], side, most) && Sane(Run(s, ops[..|ops| - 1]), ops[|ops| - 1], side, most))
  }

  lemma {:induction false} NothingOpen(slots: seq<Slot>)
    requires forall i :: 0 <= i < |slots| ==> slots[i].orders == map[]
    ensures TotalRemainingAmount(slots) == 0.0
  {
    if slots != [] {
      NothingOpen(slots[..|slots| - 1]);
    }
  }

  /** In every run the amount left open on a side stays within the largest amount its orders were created
      with, however fills, cancellations and failures interleave. */
  lemma {:induction false} RunKeepsExposure(s: State, ops: seq<Op>, side: OrderSide, most: real)
    requires Initial(s) && most >= 0.0 && SaneRun(s, ops, side, most)
    ensures ExposureOk(Run(s, ops), side, most)
    decreases |ops|
  {
    if ops == [] {
      NothingOpen(Slots(s, side));
      assert forall p :: !At(s, p);
    } else {
      RunKeepsExposure(s, ops[..|ops| - 1], side, most);
      InitialInv(s);
      RunKeepsInv(s, ops[..|ops| - 1]);
      StepKeepsExposure(Run(s, ops[..|ops| - 1]), ops[|ops| - 1], side, most);
    }
  }
}
