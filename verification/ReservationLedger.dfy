/** The balance reservation manager as functions on its state: what each operation makes of the stored
    reservations, of the index of reserved amounts and of the virtual balance differences. */
module ReservationLedger {
  import opened Domain
  import opened Sums
  import opened Symbols

  type ReservationId = nat

  datatype MarketAccountId = MarketAccountId(account: ExchangeAccountId, pair: CurrencyPair)

  datatype ApprovedPart = ApprovedPart(amount: real, isCanceled: bool, unreserved: real)

  datatype Reservation = Reservation(
    descriptor: ConfigurationDescriptor,
    account: ExchangeAccountId,
    symbol: Symbol,
    side: OrderSide,
    price: real,
    amount: real,
    takenFree: real,
    cost: real,
    code: CurrencyCode,
    unreserved: real,
    notApproved: real,
    parts: map<ClientOrderId, ApprovedPart>)

  datatype ReserveParameters = ReserveParameters(
    descriptor: ConfigurationDescriptor,
    account: ExchangeAccountId,
    symbol: Symbol,
    side: OrderSide,
    price: real,
    amount: real)

  /** `reserved` is the index of reserved amounts, `diffs` the virtual balance differences; both are
      ServiceValueTrees, seen here as the flat tables they stand for. */
  datatype Ledger = Ledger(
    reservations: map<ReservationId, Reservation>,
    nextId: ReservationId,
    reserved: map<BalanceRequest, real>,
    diffs: map<BalanceRequest, real>,
    limits: map<BalanceRequest, real>,
    positions: map<MarketAccountId, real>,
    balances: map<ExchangeAccountId, map<CurrencyCode, real>>,
    leverages: map<MarketAccountId, real>,
    symbols: map<MarketAccountId, Symbol>,
    exchanges: set<ExchangeAccountId>,
    isClone: bool)

  /** What the operations on reservations never change. */
  predicate SameMarkets(a: Ledger, b: Ledger) {
    && a.limits == b.limits && a.positions == b.positions && a.balances == b.balances && a.leverages == b.leverages
    && a.symbols == b.symbols && a.exchanges == b.exchanges && a.isClone == b.isClone
  }

  /** `Err` keeps the state because a failing operation may already have changed it. */
  datatype Outcome = Ok(ledger: Ledger) | Err(ledger: Ledger) | Panic {
    predicate Returns() {
      !Panic?
    }
  }

  // ---- requests ----

  function RequestOf(r: Reservation): BalanceRequest {
    BalanceRequest(r.descriptor, r.account, r.symbol.Pair(), r.code)
  }

  /** The entry of the virtual balance differences a reservation is paid from. */
  function BalanceKey(r: Reservation): BalanceRequest
    requires r.symbol.Ok()
  {
    if r.symbol.isDerivative then RequestOf(r).(code := r.symbol.balanceCode.value) else RequestOf(r)
  }

  predicate ReservationOk(r: Reservation) {
    r.symbol.Ok() && r.price > 0.0 && r.code == r.symbol.TradeCodeBefore(r.side)
  }

  /** A reservation whose amount is used up has either nothing left or more than the margin. */
  predicate EmptyOk(r: Reservation) {
    r.amount == 0.0 ==> r.unreserved == 0.0 || r.unreserved > r.symbol.tick * 0.01
  }

  predicate StoredOk(id: ReservationId, nextId: ReservationId, r: Reservation) {
    id < nextId && ReservationOk(r) && EmptyOk(r)
  }

  predicate LedgerOk(l: Ledger) {
    forall id :: id in l.reservations ==> StoredOk(id, l.nextId, l.reservations[id])
  }

  // ---- what an operation does to one reservation ----

  /** The reservation afterwards (`None` when it is removed), the change of the reserved amount and the
      cost charged for it, both in the amount currency. */
  datatype Change = Change(after: Option<Reservation>, moved: real, paid: real)

  /** No operation changes what a reservation is for. */
  predicate SameTerms(a: Reservation, b: Reservation) {
    && a.descriptor == b.descriptor && a.account == b.account && a.symbol == b.symbol && a.side == b.side
    && a.price == b.price && a.takenFree == b.takenFree && a.code == b.code
  }

  predicate KeepsTerms(r: Reservation, change: Change) {
    change.after.Some? ==> SameTerms(r, change.after.value)
  }

  function Proportion(cost: real, total: real, amount: real): real
    requires total != 0.0
  {
    cost * amount / total
  }

  function ProportionalCost(r: Reservation, amount: real): Option<real> {
    if r.amount == 0.0 then (if amount == 0.0 then Some(0.0) else None)
    else Some(Proportion(r.cost, r.amount, amount))
  }

  /** The reservation afterwards and whether the call may go on. */
  function UnreserveNotApprovedPart(r: Reservation, order: Option<ClientOrderId>, amount: real): (Reservation, bool) {
    var lowered := r.(notApproved := r.notApproved - amount);
    if order.None? then (lowered, !(lowered.notApproved < 0.0 && r.unreserved > amount))
    else if order.value !in r.parts then (lowered, true)
    else
      var part := r.parts[order.value];
      if part.unreserved - amount < 0.0 then (r, false)
      else (r.(parts := r.parts[order.value := part.(unreserved := part.unreserved - amount)]), true)
  }

  /** `Failed` stops before any amount has moved; `Abandoned` removes the reservation and then fails to
      compensate it. */
  datatype Unreserving = Failed(kept: Reservation) | Abandoned(change: Change) | Changed(change: Change)

  predicate UsedUp(r: Reservation) {
    r.unreserved < 0.0 || WithinMargin(r.symbol, r.unreserved)
  }

  /** Removes a reservation that is used up, compensating what was over- or under-unreserved. */
  function Settle(r: Reservation, moved: real, paid: real): Unreserving {
    if !UsedUp(r) then Changed(Change(Some(r), moved, paid))
    else if r.unreserved == 0.0 then Changed(Change(None, moved, paid))
    else
      match ProportionalCost(r, -r.unreserved)
      case None => Abandoned(Change(None, moved, paid))
      case Some(cost) => Changed(Change(None, moved - r.unreserved, paid + cost))
  }

  function UnreserveRounded(r: Reservation, amount: real, order: Option<ClientOrderId>): (u: Unreserving)
    ensures if u.Failed? then SameAmounts(r, u.kept) else KeepsTerms(r, u.change)
    ensures EmptyOk(r) && u.Changed? && u.change.after.Some? ==> EmptyOk(u.change.after.value)
  {
    var (lowered, goOn) := UnreserveNotApprovedPart(r, order, amount);
    if !goOn then Failed(lowered)
    else
      match ProportionalCost(r, -amount)
      case None => Failed(lowered)
      case Some(cost) => Settle(lowered.(unreserved := r.unreserved - amount), -amount, cost)
  }

  /** What a transfer does to the approved parts of one side; `None` is a panic. */
  function MoveParts(r: Reservation, order: Option<ClientOrderId>, diff: real, isSrc: bool): Option<Reservation> {
    if order.None? then Some(r.(notApproved := r.notApproved + diff))
    else if order.value in r.parts then
      var part := r.parts[order.value];
      var left := part.unreserved + diff;
      if WithinMargin(r.symbol, left) then Some(r.(parts := r.parts - {order.value}))
      else if left < 0.0 then None
      else Some(r.(parts := r.parts[order.value := part.(unreserved := left, amount := part.amount + diff)]))
    else if isSrc then None
    else Some(r.(parts := r.parts[order.value := ApprovedPart(diff, false, diff)]))
  }

  /** One side of a transfer. The source pays back its share of the cost, the target takes over what the
      source paid back; a side left within the margin is removed. `None` is a panic. */
  function TransferSide(r: Reservation, diff: real, order: Option<ClientOrderId>, isSrc: bool,
                        targetCost: real): (c: Option<Change>)
    ensures c.Some? ==> KeepsTerms(r, c.value) && c.value.moved == diff
    ensures c.Some? ==> (c.value.after.None? <==> WithinMargin(r.symbol, r.unreserved + diff))
    ensures c.Some? && c.value.after.Some? ==> c.value.after.value.unreserved == r.unreserved + diff >= 0.0
  {
    var left := r.unreserved + diff;
    if left < 0.0 && !WithinMargin(r.symbol, left) then None
    else
      var moved, cost := MoveParts(r, order, diff, isSrc), if isSrc then ProportionalCost(r, diff)
          else Some(targetCost);
      if moved.None? || cost.None? then None
      else if WithinMargin(r.symbol, left) then Some(Change(None, diff, cost.value))
      else
        var after := moved.value.(unreserved := left, cost := r.cost + cost.value, amount := r.amount + diff);
        Some(Change(Some(after), diff, cost.value))
  }

  predicate SameAmounts(a: Reservation, b: Reservation) {
    SameTerms(a, b) && a.amount == b.amount && a.cost == b.cost && a.unreserved == b.unreserved
  }

  /** The reservation afterwards and whether the approval is accepted. */
  function ApproveOn(r: Reservation, order: ClientOrderId, amount: real): (a: (Reservation, bool))
    ensures SameAmounts(r, a.0)
  {
    var lowered := r.(notApproved := r.notApproved - amount);
    if lowered.notApproved < 0.0 && !WithinMargin(r.symbol, lowered.notApproved) then (lowered, false)
    else (lowered.(parts := r.parts[order := ApprovedPart(amount, false, amount)]), true)
  }

  function CancelOn(r: Reservation, order: ClientOrderId): (c: Reservation)
    requires order in r.parts
    ensures SameAmounts(r, c)
  {
    var part := r.parts[order];
    r.(notApproved := r.notApproved + part.unreserved, parts := r.parts[order := part.(isCanceled := true)])
  }

  // ---- what an operation does to the ledger ----

  function AddTo(table: map<BalanceRequest, real>, key: BalanceRequest, value: real): map<BalanceRequest, real> {
    table[key := ValueOr0(table, key) + value]
  }

  /** `add_balance_by_symbol`: the difference is given in the amount currency. */
  function AddBalance(diffs: map<BalanceRequest, real>, r: Reservation, diff: real): map<BalanceRequest, real>
    requires ReservationOk(r)
  {
    AddTo(diffs, BalanceKey(r), ConvertFromAmount(r.symbol, BalanceKey(r).code, diff, r.price))
  }

  function Put(l: Ledger, id: ReservationId, r: Reservation): Ledger {
    l.(reservations := l.reservations[id := r])
  }

  /** Stores or removes the reservation, moves the index and charges the cost; `r` tells which entries. */
  function ApplyChange(l: Ledger, id: ReservationId, r: Reservation, change: Change): (l': Ledger)
    requires ReservationOk(r)
    ensures SameMarkets(l, l') && l'.nextId == l.nextId
  {
    l.(reservations := if change.after.Some? then l.reservations[id := change.after.value] else l.reservations - {id},
       reserved := AddTo(l.reserved, RequestOf(r), change.moved),
       diffs := AddBalance(l.diffs, r, -change.paid))
  }

  lemma ApplyKeepsOk(l: Ledger, id: ReservationId, r: Reservation, change: Change)
    requires LedgerOk(l) && ReservationOk(r) && KeepsTerms(r, change) && id < l.nextId
    requires change.after.Some? ==> EmptyOk(change.after.value)
    ensures LedgerOk(ApplyChange(l, id, r, change))
  {
    var l' := ApplyChange(l, id, r, change);
    forall i | i in l'.reservations ensures StoredOk(i, l'.nextId, l'.reservations[i]) {
      assert i != id ==> StoredOk(i, l.nextId, l.reservations[i]);
    }
  }

  lemma PutKeepsOk(l: Ledger, id: ReservationId, r: Reservation)
    requires LedgerOk(l) && id in l.reservations && SameAmounts(l.reservations[id], r)
    ensures LedgerOk(Put(l, id, r))
  {
    assert StoredOk(id, l.nextId, l.reservations[id]);
    StoredStaysOk(id, l.nextId, l.reservations[id], r);
  }

  lemma StoredStaysOk(id: ReservationId, nextId: ReservationId, a: Reservation, b: Reservation)
    requires StoredOk(id, nextId, a) && SameAmounts(a, b)
    ensures StoredOk(id, nextId, b)
  {
  }

  /** Whether the call gets past its early returns. */
  predicate UnreserveActs(l: Ledger, r: Reservation, amount: real)
    requires r.symbol.tick > 0.0
  {
    && !(RoundAmount(r.symbol, amount) == 0.0 && r.amount != 0.0)
    && r.account in l.exchanges
  }

  /** A call that acts queries the balance for its log before and after; that panics for a market that is
      not known. It panics nowhere else. */
  predicate UnreservePanics(l: Ledger, id: ReservationId, amount: real)
    requires LedgerOk(l)
  {
    id in l.reservations && StoredOk(id, l.nextId, l.reservations[id]) &&
    UnreserveActs(l, l.reservations[id], amount) && !QueryOk(l, FromReservation(l.reservations[id]))
  }

  function Unreserve(l: Ledger, id: ReservationId, amount: real, order: Option<ClientOrderId>): (o: Outcome)
    requires LedgerOk(l)
    ensures o.Returns() ==> LedgerOk(o.ledger) && SameMarkets(l, o.ledger)
    ensures o.Panic? <==> UnreservePanics(l, id, amount)
  {
    if id !in l.reservations then (if l.isClone || amount == 0.0 then Ok(l) else Err(l))
    else
      var r := l.reservations[id];
      assert StoredOk(id, l.nextId, r);
      if !UnreserveActs(l, r, amount) then Ok(l)
      else if !QueryOk(l, FromReservation(r)) then Panic
      else
        match UnreserveRounded(r, RoundAmount(r.symbol, amount), order)
        case Failed(kept) =>
          PutKeepsOk(l, id, kept);
          Err(Put(l, id, kept))
        case Abandoned(change) =>
          ApplyKeepsOk(l, id, r, change);
          Err(ApplyChange(l, id, r, change))
        case Changed(change) =>
          ApplyKeepsOk(l, id, r, change);
          Ok(ApplyChange(l, id, r, change))
  }

  function Approve(l: Ledger, id: ReservationId, order: ClientOrderId, amount: real): Outcome {
    if id !in l.reservations || order in l.reservations[id].parts then Ok(l)
    else
      var (r, accepted) := ApproveOn(l.reservations[id], order, amount);
      if accepted then Ok(Put(l, id, r)) else Err(Put(l, id, r))
  }

  function CancelApproved(l: Ledger, id: ReservationId, order: ClientOrderId): Outcome {
    if id !in l.reservations || order !in l.reservations[id].parts then Ok(l)
    else if l.reservations[id].parts[order].isCanceled then Panic
    else Ok(Put(l, id, CancelOn(l.reservations[id], order)))
  }

  /** The change at the source and then the one at the target; `None` is a panic. */
  function TransferChanges(reservations: map<ReservationId, Reservation>, src: ReservationId, dst: ReservationId,
                           amount: real,
                           order: Option<ClientOrderId>): (c: Option<(Change, Change)>)
    ensures c.Some? ==> src in reservations && KeepsTerms(reservations[src], c.value.0)
    ensures c.Some? && src != dst ==> dst in reservations && KeepsTerms(reservations[dst], c.value.1)
    ensures c.Some? && src == dst ==> c.value.0.after.Some? && KeepsTerms(c.value.0.after.value, c.value.1)
  {
    if src !in reservations then None
    else
      match TransferSide(reservations[src], -amount, order, true, 0.0)
      case None => None
      case Some(atSrc) =>
        var target := if src == dst then atSrc.after else if dst in reservations then Some(reservations[dst]) else None;
        if target.None? then None
        else
          match TransferSide(target.value, amount, order, false, -atSrc.paid)
          case None => None
          case Some(atDst) => Some((atSrc, atDst))
  }

  function TransferAmount(l: Ledger, src: ReservationId, dst: ReservationId, amount: real,
                          order: Option<ClientOrderId>): (o: Outcome)
    requires LedgerOk(l)
    ensures o.Returns() ==> SameMarkets(l, o.ledger)
  {
    match TransferChanges(l.reservations, src, dst, amount, order)
    case None => Panic
    case Some((atSrc, atDst)) =>
      var l1 := ApplyChange(l, src, l.reservations[src], atSrc);
      Ok(ApplyChange(l1, dst, l1.reservations[dst], atDst))
  }

  // ---- positions and limits ----

  function Position(l: Ledger, market: MarketAccountId): real {
    if market in l.positions then l.positions[market] else 0.0
  }

  /** The position seen from the side of an order. */
  function SignedPosition(l: Ledger, market: MarketAccountId, side: OrderSide): real
    requires market in l.symbols
  {
    var symbol := l.symbols[market];
    var isBase := symbol.TradeCodeBefore(side) == symbol.base;
    if symbol.isDerivative == isBase then -Position(l, market) else Position(l, market)
  }

  /** The open derivative position an order of this side would close. */
  function ClosablePosition(l: Ledger, account: ExchangeAccountId, symbol: Symbol, side: OrderSide): real {
    if !symbol.isDerivative then 0.0
    else
      var position := Position(l, MarketAccountId(account, symbol.Pair()));
      Max(0.0, if side.Buy? then -position else position)
  }

  function TakenBySide(side: OrderSide): Reservation -> real {
    (r: Reservation) => if r.side == side then r.takenFree else 0.0
  }

  /** The sum runs over all reservations of the side, whatever their symbol. */
  ghost function FreePosition(l: Ledger, account: ExchangeAccountId, symbol: Symbol, side: OrderSide): real {
    Max(0.0, ClosablePosition(l, account, symbol, side) - Total(l.reservations, TakenBySide(side)))
  }

  function ParametersRequest(p: ReserveParameters): BalanceRequest {
    BalanceRequest(p.descriptor, p.account, p.symbol.Pair(), p.symbol.TradeCodeBefore(p.side))
  }

  function MarketOf(p: ReserveParameters): MarketAccountId {
    MarketAccountId(p.account, p.symbol.Pair())
  }

  function CanReserveWithLimit(l: Ledger, p: ReserveParameters): bool
    requires ParametersRequest(p) in l.limits ==> MarketOf(p) in l.symbols
  {
    var request := ParametersRequest(p);
    if request !in l.limits then true
    else
      var position := SignedPosition(l, MarketOf(p), p.side);
      var potential := position + (ValueOr0(l.reserved, request) + p.amount);
      Abs(potential) <= l.limits[request] || Abs(potential) < Abs(position)
  }

  // ---- available balance ----

  function RawBalance(l: Ledger, account: ExchangeAccountId, code: CurrencyCode): Option<real> {
    if account in l.balances && code in l.balances[account] then Some(l.balances[account][code]) else None
  }

  function ExchangeBalance(l: Ledger, p: ReserveParameters): Option<real>
    requires p.symbol.Ok() && p.price > 0.0
  {
    var code := p.symbol.TradeCodeBefore(p.side);
    if !p.symbol.isDerivative || p.symbol.balanceCode == Some(code) then RawBalance(l, p.account, code)
    else
      match RawBalance(l, p.account, p.symbol.balanceCode.value)
      case None => None
      case Some(balance) => Some(ConvertFromBalance(p.symbol, code, balance, p.price))
  }

  function VirtualBalance(l: Ledger, p: ReserveParameters): Option<real>
    requires p.symbol.Ok() && p.price > 0.0
  {
    var request := ParametersRequest(p);
    match ExchangeBalance(l, p)
    case None => None
    case Some(balance) =>
      Some(balance +
           if !p.symbol.isDerivative then ValueOr0(l.diffs, request)
           else ConvertFromBalance(p.symbol, request.code,
                                   ValueOr0(l.diffs, request.(code := p.symbol.balanceCode.value)), p.price))
  }

  predicate LeverageKnown(l: Ledger, p: ReserveParameters) {
    MarketOf(p) in l.leverages && l.leverages[MarketOf(p)] > 0.0
  }

  /** A symbol is looked up by its pair. */
  predicate SymbolKnown(l: Ledger, p: ReserveParameters) {
    MarketOf(p) in l.symbols && l.symbols[MarketOf(p)].Pair() == p.symbol.Pair()
  }

  /** What a balance query looks up once the exchange has reported a balance; it panics on anything missing. */
  predicate QueryOk(l: Ledger, p: ReserveParameters)
    requires p.symbol.Ok() && p.price > 0.0
  {
    ExchangeBalance(l, p).Some? ==>
      p.account in l.exchanges && LeverageKnown(l, p) && (ParametersRequest(p) in l.limits ==> SymbolKnown(l, p))
  }

  /** What reserving looks up: besides the balance query, the exchange, the leverage of a derivative and the
      symbol behind a limit. */
  predicate ParametersOk(l: Ledger, p: ReserveParameters) {
    && p.symbol.Ok() && p.price > 0.0
    && p.account in l.exchanges
    && (p.symbol.isDerivative ==> LeverageKnown(l, p))
    && (ParametersRequest(p) in l.limits ==> SymbolKnown(l, p))
    && QueryOk(l, p)
  }

  function FromReservation(r: Reservation): ReserveParameters {
    ReserveParameters(r.descriptor, r.account, r.symbol, r.side, r.price, 0.0)
  }

  /** What it takes, as balance, to trade an amount at a leverage. */
  function AsBalance(traded: real, leverage: real, factor: real): real
    requires leverage > 0.0
  {
    traded / leverage * factor
  }

  function Capped(symbol: Symbol, code: CurrencyCode, price: real, leverage: real, factor: real, balance: real,
                  room: real): real
    requires price > 0.0 && symbol.Converts(code) && leverage > 0.0 && factor > 0.0
  {
    var inAmount := ConvertIntoAmount(symbol, code, balance * leverage / factor, price);
    var limited := ConvertFromAmount(symbol, code, Min(inAmount, room), price);
    Max(0.0, AsBalance(limited, leverage, factor))
  }

  /** Caps a balance by the room left below the amount limit. */
  function WithLimit(l: Ledger, p: ReserveParameters, balance: real): real
    requires p.symbol.Ok() && p.price > 0.0 && LeverageKnown(l, p)
    requires ParametersRequest(p) in l.limits && SymbolKnown(l, p)
  {
    var request, leverage, factor := ParametersRequest(p), l.leverages[MarketOf(p)], p.symbol.amountMultiplier;
    var room := l.limits[request] - (ValueOr0(l.reserved, request) + SignedPosition(l, MarketOf(p), p.side));
    Capped(p.symbol, request.code, p.price, leverage, factor, balance, room)
  }

  /** `try_get_available_balance`; `free` is the unpledged position where that is to be included. */
  function BalanceGiven(l: Ledger, p: ReserveParameters, free: Option<real>): Option<real>
    requires p.symbol.Ok() && p.price > 0.0 && QueryOk(l, p)
  {
    match VirtualBalance(l, p)
    case None => None
    case Some(virtual) =>
      var code, leverage := ParametersRequest(p).code, l.leverages[MarketOf(p)];
      var whole :=
        if p.symbol.isDerivative && free.Some?
        then virtual + AsBalance(ConvertFromAmount(p.symbol, code, free.value, p.price), leverage,
            p.symbol.amountMultiplier)
        else virtual;
      var touchable := if p.symbol.isDerivative then whole - whole * 0.05 else whole;
      Some(if ParametersRequest(p) in l.limits then WithLimit(l, p, touchable) else touchable)
  }

  /** `get_available_balance` without the free position, as reservation uses it. */
  function AvailableBalance(l: Ledger, p: ReserveParameters): real
    requires ParametersOk(l, p)
  {
    var balance := BalanceGiven(l, p, None);
    if balance.Some? then balance.value else 0.0
  }

  /** The available balance with the free position, as transfers and price updates use it. */
  ghost function BalanceWithFree(l: Ledger, p: ReserveParameters): Option<real>
    requires p.symbol.Ok() && p.price > 0.0 && QueryOk(l, p)
  {
    BalanceGiven(l, p, Some(FreePosition(l, p.account, p.symbol, p.side)))
  }

  // ---- reserve ----

  /** The cost in the amount currency and the amount covered by the open position, of which `free` is
      not pledged yet. */
  function CostGiven(l: Ledger, p: ReserveParameters, free: real): (real, real)
    requires ParametersOk(l, p)
  {
    if !p.symbol.isDerivative then (p.amount, 0.0)
    else
      var toPayFor := Max(0.0, p.amount - free);
      (toPayFor * p.symbol.amountMultiplier / l.leverages[MarketOf(p)], p.amount - toPayFor)
  }

  ghost function ReservationCost(l: Ledger, p: ReserveParameters): (real, real)
    requires ParametersOk(l, p)
  {
    CostGiven(l, p, FreePosition(l, p.account, p.symbol, p.side))
  }

  function CanPay(l: Ledger, p: ReserveParameters, costInAmount: real): bool
    requires ParametersOk(l, p)
  {
    var cost := ConvertFromAmount(p.symbol, p.symbol.TradeCodeBefore(p.side), costInAmount, p.price);
    CanReserveWithLimit(l, p) && RoundAmount(p.symbol, AvailableBalance(l, p) - cost) >= 0.0
  }

  /** A reservation as `BalanceReservation::new` makes it. */
  predicate NewFor(r: Reservation, p: ReserveParameters) {
    && r.descriptor == p.descriptor && r.account == p.account && r.symbol == p.symbol && r.side == p.side
    && r.price == p.price && r.amount == p.amount && r.code == p.symbol.TradeCodeBefore(p.side)
    && r.unreserved == 0.0 && r.notApproved == p.amount && r.parts == map[]
  }

  function NewReservation(p: ReserveParameters, cost: real, taken: real): Reservation {
    Reservation(p.descriptor, p.account, p.symbol, p.side, p.price, p.amount, taken, cost,
                p.symbol.TradeCodeBefore(p.side), 0.0, p.amount, map[])
  }

  /** The checks of `can_reserve_core`: the reservation to be made, or `None` when it is refused. */
  ghost function Attempt(l: Ledger, p: ReserveParameters): (a: Option<Reservation>)
    requires ParametersOk(l, p)
    ensures a.Some? ==> NewFor(a.value, p) && ReservationOk(a.value)
  {
    var (cost, taken) := ReservationCost(l, p);
    if CanPay(l, p, cost) then Some(NewReservation(p, cost, taken)) else None
  }

  function ReserveChange(r: Reservation): Change {
    var cost := ProportionalCost(r, r.amount);
    Change(Some(r.(unreserved := r.amount)), r.amount, if cost.Some? then cost.value else 0.0)
  }

  lemma BumpKeepsOk(l: Ledger)
    requires LedgerOk(l)
    ensures LedgerOk(l.(nextId := l.nextId + 1)) && l.nextId !in l.reservations
  {
    forall id | id in l.reservations ensures StoredOk(id, l.nextId + 1, l.reservations[id]) && id != l.nextId {
      assert StoredOk(id, l.nextId, l.reservations[id]);
    }
  }

  /** Records an accepted reservation under the id `l.nextId` and charges its cost. */
  function Store(l: Ledger, attempt: Option<Reservation>): (l': Ledger)
    requires LedgerOk(l) && (attempt.Some? ==> ReservationOk(attempt.value))
    ensures LedgerOk(l') && SameMarkets(l, l') && l'.nextId == l.nextId + if attempt.Some? then 1 else 0
  {
    if attempt.None? then l
    else
      var r, l1 := attempt.value, l.(nextId := l.nextId + 1);
      BumpKeepsOk(l);
      ApplyKeepsOk(l1, l.nextId, r, ReserveChange(r));
      ApplyChange(l1, l.nextId, r, ReserveChange(r))
  }

  ghost function TryReserve(l: Ledger, p: ReserveParameters): Ledger
    requires LedgerOk(l) && ParametersOk(l, p)
  {
    Store(l, Attempt(l, p))
  }
}
