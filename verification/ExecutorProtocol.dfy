/** The disposition executor as a state machine: request groups taken from the timeout manager, orders in
    price slots, and the events that finish them. */
module ExecutorProtocol {
  import opened Domain
  import opened Symbols
  import opened OrderSlots

  /** A group the timeout manager keeps; `mine` tells the executor's groups from those of others. */
  datatype Group = Group(id: GroupId, mine: bool)

  datatype GroupEvent = Reserved(group: GroupId) | Released(group: GroupId)

  /** `log` is the history of the timeout manager, `misses` counts removals of groups it does not have. */
  datatype Timeouts = Timeouts(groups: seq<Group>, nextGroup: GroupId, log: seq<GroupEvent>, misses: nat)

  datatype State = State(buy: seq<Slot>, sell: seq<Slot>, timeouts: Timeouts, nextOrder: OrderId, stopped: bool)

  /** What the world answers while an order is created. */
  datatype Answers = Answers(crosses: bool, enough: bool, hasGroup: bool, hasBalance: bool, hasRequest: bool,
                             cancelled: bool)

  datatype Op =
    | TryCreate(side: OrderSide, level: nat, desired: real, maxAmount: real, price: real, answers: Answers)
    | CreateFailed(side: OrderSide, order: OrderId)
    | Completed(side: OrderSide, order: OrderId, handled: bool)
    | CancelSucceeded(side: OrderSide, order: OrderId)
    | CancelOrder(side: OrderSide, level: nat, order: OrderId)
    // the world around the executor
    | OrderChanges(side: OrderSide, level: nat, order: OrderId, filled: real, finished: bool)
    | OtherReserves
    | OtherRemoves(group: GroupId)

  // ---- the timeout manager ----

  predicate HasGroup(groups: seq<Group>, id: GroupId) {
    exists g :: g in groups && g.id == id
  }

  /** The list without the first group of this id. */
  function Without(groups: seq<Group>, id: GroupId): seq<Group> {
    if groups == [] then [] else if groups[0].id == id then groups[1..] else [groups[0]] + Without(groups[1..], id)
  }

  function ReserveGroup(t: Timeouts, mine: bool): Timeouts {
    t.(groups := t.groups + [Group(t.nextGroup, mine)], nextGroup := t.nextGroup + 1,
        log := t.log + [Reserved(t.nextGroup)])
  }

  function RemoveGroup(t: Timeouts, id: GroupId): Timeouts {
    if HasGroup(t.groups, id) then t.(groups := Without(t.groups, id), log := t.log + [Released(id)])
    else t.(misses := t.misses + 1)
  }

  // ---- the slots ----

  function Slots(s: State, side: OrderSide): seq<Slot> {
    if side.Buy? then s.buy else s.sell
  }

  function WithSlot(s: State, side: OrderSide, level: nat, slot: Slot): State
    requires level < |Slots(s, side)|
  {
    if side.Buy? then s.(buy := s.buy[level := slot]) else s.(sell := s.sell[level := slot])
  }

  predicate IsAt(s: State, side: OrderSide, level: nat, order: OrderId) {
    level < |Slots(s, side)| && order in Slots(s, side)[level].orders
  }

  function RecordAt(s: State, side: OrderSide, level: nat, order: OrderId): OrderRecord
    requires IsAt(s, side, level, order)
  {
    Slots(s, side)[level].orders[order]
  }

  function WithRecord(s: State, side: OrderSide, level: nat, order: OrderId, record: OrderRecord): State
    requires level < |Slots(s, side)|
  {
    var slot := Slots(s, side)[level];
    WithSlot(s, side, level, slot.(orders := slot.orders[order := record]))
  }

  function WithoutRecord(s: State, side: OrderSide, level: nat, order: OrderId): State
    requires level < |Slots(s, side)|
  {
    var slot := Slots(s, side)[level];
    WithSlot(s, side, level, slot.(orders := slot.orders - {order}))
  }

  /** The first slot that holds the order. */
  function FindSlot(slots: seq<Slot>, order: OrderId): (level: Option<nat>)
    ensures level.Some? ==> level.value < |slots| && order in slots[level.value].orders
    ensures level.None? ==> forall i :: 0 <= i < |slots| ==> order !in slots[i].orders
  {
    if slots == [] then None
    else if order in slots[0].orders then Some(0)
    else
      match FindSlot(slots[1..], order)
      case None => assert forall i :: 1 <= i < |slots| ==> slots[i] == slots[1..][i - 1]; None
      case Some(level) => Some(level + 1)
  }

  // ---- steps ----

  ghost function NewOrderAmount(s: State, side: OrderSide, desired: real, maxAmount: real): real {
    Max(0.0, Min(desired, maxAmount - TotalRemainingAmount(Slots(s, side))))
  }

  ghost function DoTryCreate(s: State, op: Op): State
    requires op.TryCreate? && op.level < |Slots(s, op.side)|
  {
    var a, group := op.answers, s.timeouts.nextGroup;
    if a.crosses || !a.enough || !a.hasGroup then s
    else if !a.hasBalance || !a.hasRequest then
      s.(timeouts := RemoveGroup(ReserveGroup(s.timeouts, true), group))
    else
      var order := Order(s.nextOrder, op.side, op.price, NewOrderAmount(s, op.side, op.desired, op.maxAmount), 0.0,
          false);
      AddOrder(s, op.side, op.level, op.price, order).(stopped := a.cancelled)
  }

  /** Puts a new order with a newly reserved group into a slot. */
  function AddOrder(s: State, side: OrderSide, level: nat, price: real, order: Order): State
    requires level < |Slots(s, side)|
  {
    var slot := Slots(s, side)[level];
    var record := OrderRecord(order, false, s.timeouts.nextGroup);
    WithSlot(s, side, level, slot.(side := side, price := price, orders := slot.orders[s.nextOrder := record]))
      .(timeouts := ReserveGroup(s.timeouts, true), nextOrder := s.nextOrder + 1)
  }

  /** Releases the group of an order and forgets the order; nothing happens for an unknown order. */
  function Finish(s: State, side: OrderSide, order: OrderId): State {
    match FindSlot(Slots(s, side), order)
    case None => s
    case Some(level) =>
      WithoutRecord(s, side, level, order)
        .(timeouts := RemoveGroup(s.timeouts, RecordAt(s, side, level, order).group))
  }

  ghost function Step(s: State, op: Op): State {
    match op
    case OtherReserves => s.(timeouts := ReserveGroup(s.timeouts, false))
    case OtherRemoves(group) =>
      if Group(group, false) in s.timeouts.groups then s.(timeouts := RemoveGroup(s.timeouts, group)) else s
    case OrderChanges(side, level, order, filled, finished) =>
      if !IsAt(s, side, level, order) then s
      else
        var record := RecordAt(s, side, level, order);
        WithRecord(s, side, level, order, record.(order := record.order.(filled := filled, finished := finished)))
    case _ => if s.stopped then s else ExecutorStep(s, op)
  }

  /** The executor handles one event at a time; an error ends it. */
  ghost function ExecutorStep(s: State, op: Op): State {
    match op
    case TryCreate(side, level, _, _, _, _) => if level < |Slots(s, side)| then DoTryCreate(s, op) else s
    case CreateFailed(side, order) => Finish(s, side, order)
    case CancelSucceeded(side, order) => Finish(s, side, order)
    case Completed(side, order, handled) =>
      if FindSlot(Slots(s, side), order).None? then s
      else if !handled then s.(stopped := true)
      else Finish(s, side, order)
    case CancelOrder(side, level, order) =>
      if !IsAt(s, side, level, order) then s
      else WithRecord(s, side, level, order, RecordAt(s, side, level, order).(isCancellationRequested := true))
    case _ => s
  }

  ghost function Run(s: State, ops: seq<Op>): State {
    if ops == [] then s else Step(Run(s, ops[..|ops| - 1]), ops[|ops| - 1])
  }

  predicate Initial(s: State) {
    && (forall i :: 0 <= i < |s.buy| ==> s.buy[i].orders == map[])
    && (forall i :: 0 <= i < |s.sell| ==> s.sell[i].orders == map[])
    && s.timeouts == Timeouts([], 0, [], 0) && !s.stopped
  }

  // ---- request groups ----

  datatype Place = Place(side: OrderSide, level: nat, order: OrderId)

  predicate At(s: State, p: Place) {
    IsAt(s, p.side, p.level, p.order)
  }

  function GroupAt(s: State, p: Place): GroupId
    requires At(s, p)
  {
    RecordAt(s, p.side, p.level, p.order).group
  }

  ghost function Held(t: Timeouts): set<GroupId> {
    set g | g in t.groups && g.mine :: g.id
  }

  ghost function AllIds(t: Timeouts): set<GroupId> {
    set g | g in t.groups :: g.id
  }

  ghost function Count(log: seq<GroupEvent>, e: GroupEvent): nat {
    if log == [] then 0 else Count(log[..|log| - 1], e) + if log[|log| - 1] == e then 1 else 0
  }

  /** Ids are used once: every group ever reserved is either still kept or was released exactly once. */
  ghost predicate HistoryOk(t: Timeouts) {
    (forall g: GroupId :: UsedOnce(t, g)) && Unique(t.groups)
  }

  ghost predicate UsedOnce(t: Timeouts, g: GroupId) {
    && Count(t.log, Reserved(g)) <= 1
    && (g >= t.nextGroup ==> Count(t.log, Reserved(g)) == 0)
    && Count(t.log, Released(g)) + (if g in AllIds(t) then 1 else 0) == Count(t.log, Reserved(g))
  }

  predicate Unique(groups: seq<Group>) {
    forall i, j :: 0 <= i < j < |groups| ==> groups[i].id != groups[j].id
  }

  /** Every order is recorded once, with a group of its own that is held. */
  ghost predicate RecordsHold(s: State) {
    && (forall p :: At(s, p) ==> GroupAt(s, p) in Held(s.timeouts) && p.order < s.nextOrder)
    && (forall p, q :: At(s, p) && At(s, q) && (GroupAt(s, p) == GroupAt(s, q) || p.order == q.order) ==> p == q)
  }

  ghost predicate HasRecord(s: State, g: GroupId) {
    exists p :: At(s, p) && GroupAt(s, p) == g
  }

  /** Every held group is in an order record. */
  ghost predicate HeldRecorded(s: State) {
    forall g :: g in Held(s.timeouts) ==> HasRecord(s, g)
  }

  /** The groups the executor holds are exactly those of its order records, one each. */
  ghost predicate Inv(s: State) {
    HistoryOk(s.timeouts) && RecordsHold(s) && HeldRecorded(s)
  }
}
