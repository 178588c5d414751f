/** The orders of the executor one by one: what each step does to the record at a place, and when an order is
    recorded at all. */
module ExecutorOrders {
  import opened Domain
  import opened OrderSlots
  import opened ExecutorProtocol
  import opened ExecutorAccounting

  ghost function Record(s: State, p: Place): Option<OrderRecord> {
    if At(s, p) then Some(RecordAt(s, p.side, p.level, p.order)) else None
  }

  lemma SlotRecord(s: State, side: OrderSide, level: nat, slot: Slot, p: Place)
    requires level < |Slots(s, side)|
    ensures Record(WithSlot(s, side, level, slot), p) ==
            if p.side != side || p.level != level then Record(s, p)
            else if p.order in slot.orders then Some(slot.orders[p.order]) else None
  {
    AtWithSlot(s, side, level, slot, p);
  }

  // ---- what each event does ----

  /** An event after which its order is done: its creation failed, it was canceled, or its fill was handled. */
  predicate Ends(op: Op, p: Place) {
    match op
    case CreateFailed(side, order) => side == p.side && order == p.order
    case CancelSucceeded(side, order) => side == p.side && order == p.order
    case Completed(side, order, handled) => handled && side == p.side && order == p.order
    case _ => false
  }

  lemma FoundIsThere(s: State, p: Place)
    requires Inv(s) && At(s, p)
    ensures FindSlot(Slots(s, p.side), p.order) == Some(p.level)
  {
    var found := FindSlot(Slots(s, p.side), p.order);
    assert At(s, Place(p.side, found.value, p.order));
  }

  lemma FinishRecord(s: State, p: Place, q: Place)
    requires Inv(s) && At(s, p)
    ensures Record(Finish(s, p.side, p.order), q) == if q == p then None else Record(s, q)
    ensures Finish(s, p.side, p.order).timeouts == RemoveGroup(s.timeouts, GroupAt(s, p))
  {
    FoundIsThere(s, p);
    var slot := Slots(s, p.side)[p.level];
    SlotRecord(s, p.side, p.level, slot.(orders := slot.orders - {p.order}), q);
  }

  lemma ReleasedOnce(t: Timeouts, g: GroupId)
    requires HistoryOk(t) && g in Held(t)
    ensures Count(RemoveGroup(t, g).log, Released(g)) == 1 && g !in Held(RemoveGroup(t, g))
  {
    HeldIsKnown(t, g);
    RemoveHistory(t, g);
    assert UsedOnce(t, g) && HasGroup(t.groups, g);
    CountLast(t.log, Released(g), Released(g));
  }

  /** Such an event removes the record of its order and releases its group, once and for all; nothing else is
      touched. */
  lemma EndedIsForgotten(s: State, op: Op, p: Place)
    requires Inv(s) && !s.stopped && At(s, p) && Ends(op, p)
    ensures var s', g := Step(s, op), GroupAt(s, p);
            && (forall q :: At(s', q) ==> q.order != p.order)
            && g in Held(s.timeouts) && Held(s'.timeouts) == Held(s.timeouts) - {g}
            && Count(s'.timeouts.log, Released(g)) == 1
            && (forall q :: q != p ==> Record(s', q) == Record(s, q))
            && !s'.stopped && s'.nextOrder == s.nextOrder
  {
    var s', g := Step(s, op), GroupAt(s, p);
    FoundIsThere(s, p);
    forall q ensures Record(s', q) == if q == p then None else Record(s, q) {
      FinishRecord(s, p, q);
    }
    FinishRecord(s, p, p);
    ReleasedOnce(s.timeouts, g);
    HeldIsKnown(s.timeouts, g);
    RemoveHistory(s.timeouts, g);
    forall q | At(s', q) ensures q.order != p.order {
      assert Record(s', q).Some? && q != p && At(s, q);
    }
  }

  /** For an order that is not recorded such an event does nothing. */
  lemma UnknownIsIgnored(s: State, op: Op, p: Place)
    requires !s.stopped && Ends(op, p) && forall level :: !At(s, Place(p.side, level, p.order))
    ensures Step(s, op) == s
  {
    var found := FindSlot(Slots(s, p.side), p.order);
    if found.Some? {
      assert At(s, Place(p.side, found.value, p.order));
      assert false;
    }
  }

  /** A fill the strategy cannot handle stops the executor and changes nothing else; from then on no event does
      anything. */
  lemma UnhandledStops(s: State, p: Place)
    requires At(s, p) && !s.stopped
    ensures Step(s, Completed(p.side, p.order, false)) == s.(stopped := true)
  {
  }

  lemma StoppedIgnores(s: State, op: Op)
    requires s.stopped && !op.OtherReserves? && !op.OtherRemoves? && !op.OrderChanges?
    ensures Step(s, op) == s
  {
  }

  /** All the world agrees to an order. */
  predicate Agreed(a: Answers) {
    !a.crosses && a.enough && a.hasGroup && a.hasBalance && a.hasRequest
  }

  ghost predicate Creates(s: State, op: Op) {
    op.TryCreate? && !s.stopped && op.level < |Slots(s, op.side)| && Agreed(op.answers)
  }

  /** A new order is recorded in its slot, unfilled and open, with a group that was just reserved for it; the
      slot takes over its side and price. */
  lemma CreatedIsRecorded(s: State, op: Op)
    requires Inv(s) && Creates(s, op)
    ensures var s', p, g := Step(s, op), Place(op.side, op.level, s.nextOrder), s.timeouts.nextGroup;
            && !At(s, p) && g !in Held(s.timeouts) && Held(s'.timeouts) == Held(s.timeouts) + {g}
            && Record(s', p).Some?
            && (var record := Record(s', p).value;
                && record.group == g && !record.isCancellationRequested
                && record.order.id == p.order && record.order.side == op.side && record.order.price == op.price
                && record.order.filled == 0.0 && !record.order.finished
                && record.order.amount == NewOrderAmount(s, op.side, op.desired, op.maxAmount))
            && (forall q :: q != p ==> Record(s', q) == Record(s, q))
            && Slots(s', op.side)[op.level].price == op.price && Slots(s', op.side)[op.level].side == op.side
            && s'.nextOrder == s.nextOrder + 1 && s'.stopped == op.answers.cancelled
  {
    var s', slot := Step(s, op), Slots(s, op.side)[op.level];
    var p := Place(op.side, op.level, s.nextOrder);
    var slot' := Slots(s', op.side)[op.level];
    assert !At(s, p) by {
      assert At(s, p) ==> p.order < s.nextOrder;
    }
    NextIsNew(s.timeouts);
    ReserveHistory(s.timeouts, true);
    forall q ensures Record(s', q) == if q == p then Some(slot'.orders[p.order]) else Record(s, q) {
      SlotRecord(s, op.side, op.level, slot', q);
      assert Record(s', q) == Record(WithSlot(s, op.side, op.level, slot'), q);
    }
  }

  /** Without agreement nothing is recorded and no group stays reserved. */
  lemma NotCreated(s: State, op: Op)
    requires Inv(s) && op.TryCreate? && !Creates(s, op)
    ensures Step(s, op) == s.(timeouts := Step(s, op).timeouts)
    ensures Held(Step(s, op).timeouts) == Held(s.timeouts)
  {
    if !s.stopped && op.level < |Slots(s, op.side)| {
      FailedCreateReleases(s, op);
    }
  }

  /** A request to cancel is noted on the record, and what the exchange reports is too. */
  lemma NotedOnRecord(s: State, op: Op, p: Place, q: Place)
    requires At(s, p) && (op.CancelOrder? || op.OrderChanges?)
    requires Place(op.side, op.level, op.order) == p && (op.CancelOrder? ==> !s.stopped)
    ensures var s', was := Step(s, op), Record(s, p).value;
            && s'.timeouts == s.timeouts && s'.nextOrder == s.nextOrder && s'.stopped == s.stopped
            && (q != p ==> Record(s', q) == Record(s, q))
            && (op.CancelOrder? ==> Record(s', p) == Some(was.(isCancellationRequested := true)))
            && (op.OrderChanges? ==>
                  Record(s', p) == Some(was.(order := was.order.(filled := op.filled, finished := op.finished))))
  {
    var s', slot := Step(s, op), Slots(s, p.side)[p.level];
    var slot' := slot.(orders := slot.orders[p.order := Slots(s', p.side)[p.level].orders[p.order]]);
    SlotRecord(s, p.side, p.level, slot', q);
    SlotRecord(s, p.side, p.level, slot', p);
  }

  lemma NotThere(s: State, op: Op)
    requires (op.CancelOrder? || op.OrderChanges?) && !At(s, Place(op.side, op.level, op.order))
    ensures Step(s, op) == s
  {
  }

  // ---- runs ----

  /** Whether the calls stopped the executor: the strategy could not handle the fill of a recorded order, or
      the executor was canceled while creating one. */
  ghost predicate Halted(s: State, ops: seq<Op>)
    decreases |ops|, 1
  {
    ops != [] &&
    var earlier, op := ops[..|ops| - 1], ops[|ops| - 1];
    || Halted(s, earlier)
    || (Makes(s, ops) && op.answers.cancelled)
    || (op.Completed? && !op.handled && exists level :: Lives(s, earlier, Place(op.side, level, op.order)))
  }

  /** Whether the last call makes an order. */
  ghost predicate Makes(s: State, ops: seq<Op>)
    requires ops != []
    decreases |ops|, 0
  {
    var op := ops[|ops| - 1];
    op.TryCreate? && !Halted(s, ops[..|ops| - 1]) && op.level < |Slots(s, op.side)| && Agreed(op.answers)
  }

  /** The orders made so far. */
  ghost function Made(s: State, ops: seq<Op>): nat
    decreases |ops|, 1
  {
    if ops == [] then 0 else Made(s, ops[..|ops| - 1]) + if Makes(s, ops) then 1 else 0
  }

  /** An order lives from its creation to the first event that ends it, unless the executor was stopped
      before that. */
  ghost predicate Lives(s: State, ops: seq<Op>, p: Place)
    decreases |ops|, 1
  {
    ops != [] &&
    var earlier, op := ops[..|ops| - 1], ops[|ops| - 1];
    if Makes(s, ops) && p == Place(op.side, op.level, s.nextOrder + Made(s, earlier)) then true
    else Lives(s, earlier, p) && (Ends(op, p) ==> Halted(s, earlier))
  }

  lemma StepKeepsSlots(s: State, op: Op, side: OrderSide)
    ensures |Slots(Step(s, op), side)| == |Slots(s, side)|
  {
  }

  ghost predicate AsCalled(s: State, ops: seq<Op>, side: OrderSide) {
    && (Run(s, ops).stopped <==> Halted(s, ops)) && Run(s, ops).nextOrder == s.nextOrder + Made(s, ops)
    && |Slots(Run(s, ops), side)| == |Slots(s, side)|
  }

  /** Removing a group that is not there is counted and changes nothing else. */
  lemma RemovalMisses(t: Timeouts, g: GroupId)
    requires g !in AllIds(t)
    ensures RemoveGroup(t, g) == t.(misses := t.misses + 1)
  {
  }

  /** Others reserve and release groups of their own, and no one else's. */
  lemma OthersTurn(s: State, op: Op, g: GroupId)
    requires Inv(s) && (op.OtherReserves? || op.OtherRemoves?)
    ensures Held(Step(s, op).timeouts) == Held(s.timeouts)
    ensures op.OtherReserves? ==> AllIds(Step(s, op).timeouts) == AllIds(s.timeouts) + {s.timeouts.nextGroup}
    ensures op.OtherRemoves? ==>
              AllIds(Step(s, op).timeouts) ==
              AllIds(s.timeouts) - if op.group in Held(s.timeouts) then {} else {op.group}
  {
    var t := s.timeouts;
    if op.OtherReserves? {
      ReserveHistory(t, false);
      var t' := Step(s, op).timeouts;
      assert forall h :: h in t'.groups <==> h in t.groups || h == Group(t.nextGroup, false);
    } else if Group(op.group, false) in t.groups {
      RemoveHistory(t, op.group);
      NotMine(t.groups, op.group);
      assert HasGroup(t.groups, op.group);
      WithoutIs(t.groups, op.group);
    } else if op.group in AllIds(t) {
      var h :| h in t.groups && h.id == op.group;
      assert h.mine && op.group in Held(t);
    }
  }

  lemma OthersChangeNothing(s: State, op: Op)
    requires op.OtherReserves? || op.OtherRemoves?
    ensures Step(s, op) == s.(timeouts := Step(s, op).timeouts)
  {
  }

  /** What a step does to places, to the next id and to the executor itself. */
  lemma StepPlaces(s: State, op: Op, p: Place)
    requires Inv(s)
    ensures var s' := Step(s, op);
            && (At(s', p) <==>
                  (Creates(s, op) && p == Place(op.side, op.level, s.nextOrder))
                  || (At(s, p) && (Ends(op, p) ==> s.stopped)))
            && s'.nextOrder == s.nextOrder + (if Creates(s, op) then 1 else 0)
  {
    var s' := Step(s, op);
    if op.CreateFailed? || op.CancelSucceeded? || op.Completed? {
      FinishPlaces(s, op, p);
    } else if op.TryCreate? {
      if Creates(s, op) {
        CreatedIsRecorded(s, op);
        assert p != Place(op.side, op.level, s.nextOrder) ==> Record(s', p) == Record(s, p);
      } else {
        NotCreated(s, op);
      }
    } else if op.CancelOrder? || op.OrderChanges? {
      var q := Place(op.side, op.level, op.order);
      if At(s, q) && (op.CancelOrder? ==> !s.stopped) {
        NotedOnRecord(s, op, q, p);
      } else if !s.stopped || op.OrderChanges? {
        NotThere(s, op);
      }
    } else {
      OthersChangeNothing(s, op);
    }
  }

  lemma FinishPlaces(s: State, op: Op, p: Place)
    requires Inv(s) && (op.CreateFailed? || op.CancelSucceeded? || op.Completed?)
    ensures At(Step(s, op), p) <==> At(s, p) && (Ends(op, p) ==> s.stopped)
    ensures Step(s, op).nextOrder == s.nextOrder
  {
    var s' := Step(s, op);
    var found := FindSlot(Slots(s, op.side), op.order);
    if !s.stopped && (op.Completed? ==> op.handled) {
      if found.Some? {
        var q := Place(op.side, found.value, op.order);
        assert At(s, q) && Ends(op, q);
        EndedIsForgotten(s, op, q);
        assert p != q ==> Record(s', p) == Record(s, p);
        assert At(s', p) ==> p.order != q.order;
        assert At(s, p) && Ends(op, p) ==> p == q;
      } else {
        assert !(At(s, p) && Ends(op, p));
      }
    }
  }

  lemma StepStops(s: State, op: Op)
    requires Inv(s)
    ensures Step(s, op).stopped <==>
            || s.stopped || (Creates(s, op) && op.answers.cancelled)
            || (op.Completed? && !op.handled && exists level :: At(s, Place(op.side, level, op.order)))
  {
    if Creates(s, op) {
      CreatedIsRecorded(s, op);
    } else if op.TryCreate? {
      NotCreated(s, op);
    } else if op.Completed? {
      var found := FindSlot(Slots(s, op.side), op.order);
      if found.Some? {
        assert At(s, Place(op.side, found.value, op.order));
      }
    }
  }

  lemma {:induction false} RunIsAsCalled(s: State, ops: seq<Op>, side: OrderSide)
    requires Initial(s)
    ensures AsCalled(s, ops, side) && forall p :: At(Run(s, ops), p) <==> Lives(s, ops, p)
    decreases |ops|
  {
    if ops == [] {
      assert forall p :: !At(s, p);
    } else {
      var earlier, op := ops[..|ops| - 1], ops[|ops| - 1];
      var t := Run(s, earlier);
      RunIsAsCalled(s, earlier, side);
      RunIsAsCalled(s, earlier, if op.TryCreate? then op.side else side);
      InitialInv(s);
      RunKeepsInv(s, earlier);
      assert Makes(s, ops) <==> Creates(t, op);
      StepStops(t, op);
      StepKeepsSlots(t, op, side);
      forall p ensures At(Run(s, ops), p) <==> Lives(s, ops, p) {
        StepPlaces(t, op, p);
      }
      StepPlaces(t, op, Place(side, 0, 0));
    }
  }

  /** In every run an order is recorded if and only if it was made and no event ended it since, and its group is
      held exactly as long. */
  lemma RecordedIffLives(s: State, ops: seq<Op>, p: Place)
    requires Initial(s)
    ensures At(Run(s, ops), p) <==> Lives(s, ops, p)
    ensures Lives(s, ops, p) ==> GroupAt(Run(s, ops), p) in Held(Run(s, ops).timeouts)
    ensures Run(s, ops).stopped <==> Halted(s, ops)
  {
    RunIsAsCalled(s, ops, p.side);
    InitialInv(s);
    RunKeepsInv(s, ops);
  }
}
