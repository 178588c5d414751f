/** In every run the request groups held are exactly those of the recorded orders. */
module ExecutorAccounting {
  import opened Domain
  import opened OrderSlots
  import opened ExecutorProtocol

  // ---- the timeout manager ----

  lemma {:induction false} WithoutIs(groups: seq<Group>, id: GroupId)
    requires Unique(groups)
    ensures Unique(Without(groups, id))
    ensures forall g :: g in Without(groups, id) <==> g in groups && g.id != id
    decreases |groups|
  {
    if groups != [] {
      var head, tail := groups[0], groups[1..];
      assert groups == [head] + tail;
      assert forall g :: g in tail ==> g.id != head.id by {
        forall g | g in tail ensures g.id != head.id {
          var j :| 0 <= j < |tail| && tail[j] == g;
          assert groups[j + 1] == g;
        }
      }
      assert Unique(tail) by {
        forall i, j | 0 <= i < j < |tail| ensures tail[i].id != tail[j].id {
          assert tail[i] == groups[i + 1] && tail[j] == groups[j + 1];
        }
      }
      WithoutIs(tail, id);
      if head.id != id {
        var rest := Without(tail, id);
        forall i, j | 0 <= i < j < |[head] + rest| ensures ([head] + rest)[i].id != ([head] + rest)[j].id {
          assert rest[j - 1] in rest;
        }
      }
    }
  }

  lemma CountLast(log: seq<GroupEvent>, e: GroupEvent, f: GroupEvent)
    ensures Count(log + [e], f) == Count(log, f) + if e == f then 1 else 0
  {
    assert (log + [e])[..|log|] == log;
  }

  lemma NextIsNew(t: Timeouts)
    requires HistoryOk(t)
    ensures t.nextGroup !in AllIds(t)
  {
    assert UsedOnce(t, t.nextGroup);
  }

  lemma ReserveHistory(t: Timeouts, mine: bool)
    requires HistoryOk(t)
    ensures HistoryOk(ReserveGroup(t, mine))
    ensures Held(ReserveGroup(t, mine)) == Held(t) + if mine then {t.nextGroup} else {}
  {
    var t', added := ReserveGroup(t, mine), Group(t.nextGroup, mine);
    NextIsNew(t);
    assert t'.groups == t.groups + [added];
    assert forall g :: g in t'.groups <==> g in t.groups || g == added;
    assert AllIds(t') == AllIds(t) + {t.nextGroup};
    forall i, j | 0 <= i < j < |t'.groups| ensures t'.groups[i].id != t'.groups[j].id {
      assert t'.groups[i] == t.groups[i] && t.groups[i] in t.groups;
      assert t.groups[i].id in AllIds(t);
    }
    forall g: GroupId ensures UsedOnce(t', g) {
      assert UsedOnce(t, g);
      CountLast(t.log, Reserved(t.nextGroup), Reserved(g));
      CountLast(t.log, Reserved(t.nextGroup), Released(g));
    }
  }

  lemma RemoveHistory(t: Timeouts, id: GroupId)
    requires HistoryOk(t) && id in AllIds(t)
    ensures HistoryOk(RemoveGroup(t, id)) && RemoveGroup(t, id).misses == t.misses
    ensures Held(RemoveGroup(t, id)) == Held(t) - {id}
  {
    var t' := RemoveGroup(t, id);
    assert HasGroup(t.groups, id);
    WithoutIs(t.groups, id);
    assert AllIds(t') == AllIds(t) - {id};
    forall g: GroupId ensures UsedOnce(t', g) {
      assert UsedOnce(t, g);
      CountLast(t.log, Released(id), Reserved(g));
      CountLast(t.log, Released(id), Released(g));
    }
  }

  lemma HeldIsKnown(t: Timeouts, id: GroupId)
    requires id in Held(t)
    ensures id in AllIds(t)
  {
  }

  // ---- the slots ----

  lemma AtWithSlot(s: State, side: OrderSide, level: nat, slot: Slot, p: Place)
    requires level < |Slots(s, side)|
    ensures At(WithSlot(s, side, level, slot), p) <==>
            if p.side == side && p.level == level then p.order in slot.orders else At(s, p)
    ensures At(WithSlot(s, side, level, slot), p) ==>
              GroupAt(WithSlot(s, side, level, slot), p) ==
              if p.side == side && p.level == level then slot.orders[p.order].group else GroupAt(s, p)
  {
  }

  /** The same places with the same groups. */
  ghost predicate SamePlaces(s: State, s': State) {
    && (forall p :: At(s, p) <==> At(s', p))
    && (forall p :: At(s, p) && At(s', p) ==> GroupAt(s, p) == GroupAt(s', p))
  }

  lemma SamePlacesKeepInv(s: State, s': State)
    requires Inv(s) && SamePlaces(s, s') && s'.nextOrder == s.nextOrder
    requires HistoryOk(s'.timeouts) && Held(s'.timeouts) == Held(s.timeouts)
    ensures Inv(s')
  {
    forall g | g in Held(s'.timeouts) ensures HasRecord(s', g) {
      assert HasRecord(s, g);
      var p :| At(s, p) && GroupAt(s, p) == g;
      assert At(s', p);
    }
  }

  lemma WithRecordKeepsPlaces(s: State, side: OrderSide, level: nat, order: OrderId, record: OrderRecord)
    requires IsAt(s, side, level, order) && record.group == RecordAt(s, side, level, order).group
    ensures SamePlaces(s, WithRecord(s, side, level, order, record))
  {
    var slot := Slots(s, side)[level];
    forall p ensures At(s, p) <==> At(WithRecord(s, side, level, order, record), p) {
      AtWithSlot(s, side, level, slot.(orders := slot.orders[order := record]), p);
    }
    forall p | At(s, p) && At(WithRecord(s, side, level, order, record), p)
      ensures GroupAt(s, p) == GroupAt(WithRecord(s, side, level, order, record), p) {
      AtWithSlot(s, side, level, slot.(orders := slot.orders[order := record]), p);
    }
  }

  // ---- adding and finishing an order ----

  /** `s'` has one place more, with a group that was not held. */
  ghost predicate OneMore(s: State, s': State, added: Place, g: GroupId) {
    && At(s', added) && GroupAt(s', added) == g && !At(s, added) && s.nextOrder <= added.order < s'.nextOrder
    && (forall p :: p != added ==> (At(s, p) <==> At(s', p)))
    && (forall p :: p != added && At(s, p) && At(s', p) ==> GroupAt(s, p) == GroupAt(s', p))
  }

  lemma OneMoreKeepsInv(s: State, s': State, added: Place, g: GroupId)
    requires Inv(s) && OneMore(s, s', added, g) && g !in Held(s.timeouts)
    requires HistoryOk(s'.timeouts) && Held(s'.timeouts) == Held(s.timeouts) + {g}
    ensures Inv(s')
  {
    forall h | h in Held(s'.timeouts) ensures HasRecord(s', h) {
      if h != g {
        assert HasRecord(s, h);
        var p :| At(s, p) && GroupAt(s, p) == h;
        assert At(s', p);
      }
    }
    forall p | At(s', p) ensures GroupAt(s', p) in Held(s'.timeouts) && p.order < s'.nextOrder {
      assert p != added ==> At(s, p);
    }
    forall p, q | At(s', p) && At(s', q) && (GroupAt(s', p) == GroupAt(s', q) || p.order == q.order) ensures p == q {
      assert p != added ==> At(s, p);
      assert q != added ==> At(s, q);
    }
  }

  lemma AddOrderIsOneMore(s: State, side: OrderSide, level: nat, price: real, order: Order)
    requires Inv(s) && level < |Slots(s, side)|
    ensures OneMore(s, AddOrder(s, side, level, price, order), Place(side, level, s.nextOrder), s.timeouts.nextGroup)
  {
    var slot, added := Slots(s, side)[level], Place(side, level, s.nextOrder);
    var record := OrderRecord(order, false, s.timeouts.nextGroup);
    var slot' := slot.(side := side, price := price, orders := slot.orders[s.nextOrder := record]);
    var s' := AddOrder(s, side, level, price, order);
    assert !At(s, added);
    forall p ensures At(s', p) <==> (if p.side == side && p.level == level then p.order in slot'.orders else At(s, p)) {
      AtWithSlot(s, side, level, slot', p);
    }
    forall p | p != added && At(s, p) && At(s', p) ensures GroupAt(s, p) == GroupAt(s', p) {
      AtWithSlot(s, side, level, slot', p);
    }
  }

  lemma AddOrderKeepsInv(s: State, side: OrderSide, level: nat, price: real, order: Order)
    requires Inv(s) && level < |Slots(s, side)|
    ensures Inv(AddOrder(s, side, level, price, order))
  {
    var s' := AddOrder(s, side, level, price, order);
    AddOrderIsOneMore(s, side, level, price, order);
    ReserveHistory(s.timeouts, true);
    assert s.timeouts.nextGroup !in Held(s.timeouts) by {
      NextIsNew(s.timeouts);
    }
    OneMoreKeepsInv(s, s', Place(side, level, s.nextOrder), s.timeouts.nextGroup);
  }

  ghost predicate OneLess(s: State, s': State, gone: Place, g: GroupId) {
    && At(s, gone) && GroupAt(s, gone) == g && !At(s', gone) && s'.nextOrder == s.nextOrder
    && (forall p :: p != gone ==> (At(s, p) <==> At(s', p)))
    && (forall p :: At(s, p) && At(s', p) ==> GroupAt(s, p) == GroupAt(s', p))
  }

  lemma OneLessKeepsInv(s: State, s': State, gone: Place, g: GroupId)
    requires Inv(s) && OneLess(s, s', gone, g)
    requires HistoryOk(s'.timeouts) && Held(s'.timeouts) == Held(s.timeouts) - {g}
    ensures Inv(s')
  {
    forall h | h in Held(s'.timeouts) ensures HasRecord(s', h) {
      assert HasRecord(s, h);
      var p :| At(s, p) && GroupAt(s, p) == h;
      assert At(s', p);
    }
    forall p | At(s', p) ensures GroupAt(s', p) in Held(s'.timeouts) {
      assert At(s, p) && p != gone;
    }
  }

  lemma FinishIsOneLess(s: State, side: OrderSide, level: nat, order: OrderId, t: Timeouts)
    requires IsAt(s, side, level, order)
    ensures OneLess(s, WithoutRecord(s, side, level, order).(timeouts := t), Place(side, level, order),
                    RecordAt(s, side, level, order).group)
  {
    var slot := Slots(s, side)[level];
    var s1 := WithoutRecord(s, side, level, order);
    var s' := s1.(timeouts := t);
    assert forall p :: At(s', p) <==> At(s1, p);
    forall p ensures At(s1, p) <==> (if p.side == side && p.level == level then p.order in slot.orders - {order}
        else At(s, p)) {
      AtWithSlot(s, side, level, slot.(orders := slot.orders - {order}), p);
    }
    forall p | At(s, p) && At(s', p) ensures GroupAt(s, p) == GroupAt(s', p) {
      AtWithSlot(s, side, level, slot.(orders := slot.orders - {order}), p);
    }
  }

  /** Finishing an order releases its group, and only a group that is held. */
  lemma FinishKeepsInv(s: State, side: OrderSide, order: OrderId)
    requires Inv(s)
    ensures Inv(Finish(s, side, order)) && Finish(s, side, order).timeouts.misses == s.timeouts.misses
    ensures FindSlot(Slots(s, side), order).Some? ==>
              var g := RecordAt(s, side, FindSlot(Slots(s, side), order).value, order).group;
              g in Held(s.timeouts) && Finish(s, side, order).timeouts == RemoveGroup(s.timeouts, g)
  {
    var found := FindSlot(Slots(s, side), order);
    if found.Some? {
      var level := found.value;
      var g := RecordAt(s, side, level, order).group;
      assert At(s, Place(side, level, order));
      HeldIsKnown(s.timeouts, g);
      RemoveHistory(s.timeouts, g);
      FinishIsOneLess(s, side, level, order, RemoveGroup(s.timeouts, g));
      OneLessKeepsInv(s, Finish(s, side, order), Place(side, level, order), g);
    }
  }

  // ---- steps and runs ----

  /** A group that was reserved for an order that is not made is given back at once. */
  lemma GiveBackKeepsInv(s: State)
    requires Inv(s)
    ensures var t := RemoveGroup(ReserveGroup(s.timeouts, true), s.timeouts.nextGroup);
            Inv(s.(timeouts := t)) && t.misses == s.timeouts.misses && Held(t) == Held(s.timeouts)
  {
    var g, t1 := s.timeouts.nextGroup, ReserveGroup(s.timeouts, true);
    var t := RemoveGroup(t1, g);
    NextIsNew(s.timeouts);
    ReserveHistory(s.timeouts, true);
    assert g in Held(t1);
    HeldIsKnown(t1, g);
    RemoveHistory(t1, g);
    assert g !in Held(s.timeouts);
    assert Held(t) == Held(s.timeouts);
    SamePlacesKeepInv(s, s.(timeouts := t));
  }

  lemma OthersKeepInv(s: State, op: Op)
    requires Inv(s) && (op.OtherReserves? || op.OtherRemoves?)
    ensures Inv(Step(s, op)) && Step(s, op).timeouts.misses == s.timeouts.misses
  {
    var s' := Step(s, op);
    if op.OtherReserves? {
      ReserveHistory(s.timeouts, false);
      SamePlacesKeepInv(s, s');
    } else if Group(op.group, false) in s.timeouts.groups {
      assert op.group in AllIds(s.timeouts);
      RemoveHistory(s.timeouts, op.group);
      assert op.group !in Held(s.timeouts) by {
        NotMine(s.timeouts.groups, op.group);
      }
      SamePlacesKeepInv(s, s');
    }
  }

  lemma NotMine(groups: seq<Group>, id: GroupId)
    requires Unique(groups) && Group(id, false) in groups
    ensures Group(id, true) !in groups
  {
  }

  lemma CreateKeepsInv(s: State, op: Op)
    requires Inv(s) && op.TryCreate? && op.level < |Slots(s, op.side)|
    ensures Inv(DoTryCreate(s, op)) && DoTryCreate(s, op).timeouts.misses == s.timeouts.misses
  {
    var a := op.answers;
    if !a.crosses && a.enough && a.hasGroup {
      if !a.hasBalance || !a.hasRequest {
        GiveBackKeepsInv(s);
      } else {
        var order := Order(s.nextOrder, op.side, op.price, NewOrderAmount(s, op.side, op.desired, op.maxAmount), 0.0,
            false);
        var s1 := AddOrder(s, op.side, op.level, op.price, order);
        AddOrderKeepsInv(s, op.side, op.level, op.price, order);
        SamePlacesKeepInv(s1, s1.(stopped := a.cancelled));
      }
    }
  }

  lemma StopKeepsInv(s: State)
    requires Inv(s)
    ensures Inv(s.(stopped := true))
  {
    SamePlacesKeepInv(s, s.(stopped := true));
  }

  /** A record may change as long as its group stays. */
  lemma RecordKeepsInv(s: State, side: OrderSide, level: nat, order: OrderId, record: OrderRecord)
    requires Inv(s) && IsAt(s, side, level, order) && record.group == RecordAt(s, side, level, order).group
    ensures Inv(WithRecord(s, side, level, order, record))
  {
    WithRecordKeepsPlaces(s, side, level, order, record);
    SamePlacesKeepInv(s, WithRecord(s, side, level, order, record));
  }

  lemma ExecutorStepKeepsInv(s: State, op: Op)
    requires Inv(s)
    ensures Inv(ExecutorStep(s, op)) && ExecutorStep(s, op).timeouts.misses == s.timeouts.misses
  {
    match op
    case TryCreate(side, level, desired, maxAmount, price, a) =>
      if level < |Slots(s, side)| {
        CreateKeepsInv(s, op);
      }
    case CreateFailed(side, order) => FinishKeepsInv(s, side, order);
    case CancelSucceeded(side, order) => FinishKeepsInv(s, side, order);
    case Completed(side, order, handled) =>
      FinishKeepsInv(s, side, order);
      StopKeepsInv(s);
    case CancelOrder(side, level, order) =>
      if IsAt(s, side, level, order) {
        RecordKeepsInv(s, side, level, order, RecordAt(s, side, level, order).(isCancellationRequested := true));
      }
    case OrderChanges(_, _, _, _, _) =>
    case OtherReserves =>
    case OtherRemoves(_) =>
  }

  /** Whatever happens next, the groups held stay exactly those of the records, and the executor never
      asks for a group to be removed that is not there. */
  lemma StepKeepsInv(s: State, op: Op)
    requires Inv(s)
    ensures Inv(Step(s, op)) && Step(s, op).timeouts.misses == s.timeouts.misses
  {
    match op
    case OtherReserves => OthersKeepInv(s, op);
    case OtherRemoves(_) => OthersKeepInv(s, op);
    case OrderChanges(side, level, order, filled, finished) =>
      if IsAt(s, side, level, order) {
        var record := RecordAt(s, side, level, order);
        RecordKeepsInv(s, side, level, order, record.(order := record.order.(filled := filled, finished := finished)));
      }
    case _ => ExecutorStepKeepsInv(s, op);
  }

  lemma InitialInv(s: State)
    requires Initial(s)
    ensures Inv(s)
  {
    assert forall p :: !At(s, p);
  }

  lemma {:induction false} RunKeepsInv(s: State, ops: seq<Op>)
    requires Inv(s)
    ensures Inv(Run(s, ops)) && Run(s, ops).timeouts.misses == s.timeouts.misses
    decreases |ops|
  {
    if ops != [] {
      RunKeepsInv(s, ops[..|ops| - 1]);
      StepKeepsInv(Run(s, ops[..|ops| - 1]), ops[|ops| - 1]);
    }
  }

  /** In every run: a group is held if and only if an order record has it, at most one record has it, and
      every group ever reserved is still kept or was released exactly once. */
  lemma GroupsAreAccounted(s: State, ops: seq<Op>, g: GroupId)
    requires Initial(s)
    ensures var end := Run(s, ops);
            && (g in Held(end.timeouts) <==> HasRecord(end, g))
            && (forall p, q :: At(end, p) && At(end, q) && GroupAt(end, p) == g == GroupAt(end, q) ==> p == q)
            && Count(end.timeouts.log, Reserved(g)) <= 1
            && Count(end.timeouts.log, Released(g)) + (if g in AllIds(end.timeouts) then 1 else 0) ==
               Count(end.timeouts.log, Reserved(g))
            && end.timeouts.misses == 0
  {
    InitialInv(s);
    RunKeepsInv(s, ops);
    assert UsedOnce(Run(s, ops).timeouts, g);
  }

  /** Every exit of the creation that leaves no order behind leaves the held groups as they were. */
  lemma FailedCreateReleases(s: State, op: Op)
    requires Inv(s) && !s.stopped && op.TryCreate?
    requires var a := op.answers; a.crosses || !a.enough || !a.hasGroup || !a.hasBalance || !a.hasRequest
    ensures Held(Step(s, op).timeouts) == Held(s.timeouts) && Step(s, op).buy == s.buy && Step(s, op).sell == s.sell
  {
    GiveBackKeepsInv(s);
  }

  lemma FinishForgets(s: State, side: OrderSide, order: OrderId)
    requires Inv(s)
    ensures FindSlot(Slots(Finish(s, side, order), side), order).None?
  {
    var s' := Finish(s, side, order);
    var before, after := FindSlot(Slots(s, side), order), FindSlot(Slots(s', side), order);
    if before.Some? && after.Some? {
      assert At(s, Place(side, before.value, order));
      assert after.value != before.value;
      assert At(s, Place(side, after.value, order));
      assert false;
    }
  }

  /** A finish event for an order that is already finished or was never made changes nothing, so a group
      is released once however often and however late such events come. */
  lemma LateFinishDoesNothing(s: State, side: OrderSide, order: OrderId)
    requires Inv(s)
    ensures Finish(Finish(s, side, order), side, order) == Finish(s, side, order)
  {
    FinishForgets(s, side, order);
  }

  // ---- the keys of the records ----

  predicate SlotKeysMatch(slots: seq<Slot>) {
    forall i :: 0 <= i < |slots| ==> KeysMatch(slots[i].orders)
  }

  predicate AllKeysMatch(s: State) {
    SlotKeysMatch(s.buy) && SlotKeysMatch(s.sell)
  }

  lemma SlotKeepsKeys(s: State, side: OrderSide, level: nat, slot: Slot)
    requires AllKeysMatch(s) && level < |Slots(s, side)| && KeysMatch(slot.orders)
    ensures AllKeysMatch(WithSlot(s, side, level, slot))
  {
  }

  lemma FinishKeepsKeys(s: State, side: OrderSide, order: OrderId)
    requires AllKeysMatch(s)
    ensures AllKeysMatch(Finish(s, side, order))
  {
    var found := FindSlot(Slots(s, side), order);
    if found.Some? {
      var slot := Slots(s, side)[found.value];
      SlotKeepsKeys(s, side, found.value, slot.(orders := slot.orders - {order}));
    }
  }

  lemma CreateKeepsKeys(s: State, op: Op)
    requires AllKeysMatch(s) && op.TryCreate? && op.level < |Slots(s, op.side)|
    ensures AllKeysMatch(DoTryCreate(s, op))
  {
    var slot := Slots(s, op.side)[op.level];
    var order := Order(s.nextOrder, op.side, op.price, NewOrderAmount(s, op.side, op.desired, op.maxAmount), 0.0,
        false);
    var record := OrderRecord(order, false, s.timeouts.nextGroup);
    SlotKeepsKeys(s, op.side, op.level, slot.(side := op.side, price := op.price, orders :=
        slot.orders[s.nextOrder := record]));
  }

  lemma StepKeepsKeys(s: State, op: Op)
    requires AllKeysMatch(s)
    ensures AllKeysMatch(Step(s, op))
  {
    if (op.OrderChanges? || op.CancelOrder?) && IsAt(s, op.side, op.level, op.order) {
      var slot, record := Slots(s, op.side)[op.level], RecordAt(s, op.side, op.level, op.order);
      var added := if op.CancelOrder? then record.(isCancellationRequested := true)
                  else record.(order := record.order.(filled := op.filled, finished := op.finished));
      SlotKeepsKeys(s, op.side, op.level, slot.(orders := slot.orders[op.order := added]));
    } else if op.TryCreate? && op.level < |Slots(s, op.side)| {
      CreateKeepsKeys(s, op);
    } else if op.CreateFailed? || op.CancelSucceeded? || op.Completed? {
      FinishKeepsKeys(s, op.side, op.order);
    }
  }

  /** Records stay under the id of their order in every run. */
  lemma {:induction false} RunKeepsKeys(s: State, ops: seq<Op>)
    requires Initial(s)
    ensures AllKeysMatch(Run(s, ops))
    decreases |ops|
  {
    if ops != [] {
      RunKeepsKeys(s, ops[..|ops| - 1]);
      StepKeepsKeys(Run(s, ops[..|ops| - 1]), ops[|ops| - 1]);
    }
  }
}
