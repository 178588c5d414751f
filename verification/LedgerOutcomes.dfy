/** When each operation of the reservation manager acts, refuses or fails, in terms of amounts, rates and
    positions, and what it then changes. */
module LedgerOutcomes {
  import opened Domain
  import opened Sums
  import opened Symbols
  import opened ReservationLedger
  import opened LedgerIndex
  import opened LedgerBalance
  import opened LedgerParts
  import opened LedgerLimits
  import opened LedgerFunds
  import opened LedgerPrices
  import opened LedgerRuns

  // ---- balances ----

  /** The entry of the balances a request is paid from. */
  function FundsKey(p: ReserveParameters): BalanceRequest
    requires p.symbol.Ok()
  {
    if p.symbol.isDerivative then ParametersRequest(p).(code := p.symbol.balanceCode.value) else ParametersRequest(p)
  }

  /** Units of the request currency per unit of the balance currency. */
  function FundsRate(p: ReserveParameters): real
    requires p.price > 0.0
  {
    var code := p.symbol.TradeCodeBefore(p.side);
    if !p.symbol.isDerivative || p.symbol.balanceCode == Some(code) then 1.0
    else if code == p.symbol.base then 1.0 / p.price else p.price
  }

  /** A balance in the request currency. */
  function FundsIn(p: ReserveParameters, balance: real): real
    requires p.price > 0.0
  {
    balance * FundsRate(p)
  }

  predicate IsReported(l: Ledger, account: ExchangeAccountId, code: CurrencyCode) {
    account in l.balances && code in l.balances[account]
  }

  lemma SpotVirtual(l: Ledger, p: ReserveParameters)
    requires p.symbol.Ok() && p.price > 0.0 && !p.symbol.isDerivative
    ensures var code := ParametersRequest(p).code;
            VirtualBalance(l, p) ==
            if !IsReported(l, p.account, code) then None
            else Some(FundsIn(p, l.balances[p.account][code] + ValueOr0(l.diffs, ParametersRequest(p))))
  {
    var code := ParametersRequest(p).code;
    assert FundsRate(p) == 1.0;
    if IsReported(l, p.account, code) {
      var whole := l.balances[p.account][code] + ValueOr0(l.diffs, ParametersRequest(p));
      assert FundsIn(p, whole) == whole;
    }
  }

  lemma DerivativeFunds(l: Ledger, p: ReserveParameters, raw: real, booked: real)
    requires p.symbol.Ok() && p.price > 0.0 && p.symbol.isDerivative
    requires RawBalance(l, p.account, p.symbol.balanceCode.value) == Some(raw)
    requires ValueOr0(l.diffs, FundsKey(p)) == booked
    ensures var code := ParametersRequest(p).code;
            VirtualBalance(l, p) == Some(ConvertFromBalance(p.symbol, code, raw, p.price)
                                         + ConvertFromBalance(p.symbol, code, booked, p.price))
  {
  }

  lemma DerivativeVirtualIs(l: Ledger, p: ReserveParameters)
    requires p.symbol.Ok() && p.price > 0.0 && p.symbol.isDerivative
    ensures var code := p.symbol.balanceCode.value;
            VirtualBalance(l, p) ==
            if !IsReported(l, p.account, code) then None
            else Some(FundsIn(p, l.balances[p.account][code] + ValueOr0(l.diffs, FundsKey(p))))
  {
    var code, booked := p.symbol.balanceCode.value, ValueOr0(l.diffs, FundsKey(p));
    if IsReported(l, p.account, code) {
      var raw := l.balances[p.account][code];
      assert VirtualBalance(l, p) == Some(FundsIn(p, raw + booked)) by {
        DerivativeFunds(l, p, raw, booked);
        FundsConvert(p, raw, booked);
      }
    }
  }

  /** The virtual balance is what the exchange reported for the currency and what was booked since, converted. */
  lemma VirtualBalanceIs(l: Ledger, p: ReserveParameters)
    requires p.symbol.Ok() && p.price > 0.0
    ensures var key := FundsKey(p);
            VirtualBalance(l, p) ==
            if !IsReported(l, p.account, key.code) then None
            else Some(FundsIn(p, l.balances[p.account][key.code] + ValueOr0(l.diffs, key)))
  {
    if p.symbol.isDerivative {
      DerivativeVirtualIs(l, p);
    } else {
      SpotVirtual(l, p);
    }
  }

  lemma FundsConvert(p: ReserveParameters, a: real, b: real)
    requires p.symbol.Ok() && p.price > 0.0 && p.symbol.isDerivative
    ensures var code := p.symbol.TradeCodeBefore(p.side);
            ConvertFromBalance(p.symbol, code, a, p.price) + ConvertFromBalance(p.symbol, code, b, p.price) ==
            FundsIn(p, a + b)
  {
  }

  /** What trading `amount` takes of the balance at the leverage of the market. */
  function Margin(l: Ledger, p: ReserveParameters, amount: real): real
    requires p.price > 0.0 && LeverageKnown(l, p)
  {
    amount * Rate(p.symbol, p.symbol.TradeCodeBefore(p.side), p.price) / l.leverages[MarketOf(p)]
      * p.symbol.amountMultiplier
  }

  /** Room below the amount limit, as seen from the request. */
  function Room(l: Ledger, q: BalanceRequest): real
    requires q in l.limits
  {
    l.limits[q] - (ValueOr0(l.reserved, q) + RequestPosition(l, q))
  }

  lemma PositionSeen(l: Ledger, p: ReserveParameters)
    requires SymbolKnown(l, p)
    ensures SignedPosition(l, MarketOf(p), p.side) == RequestPosition(l, ParametersRequest(p))
  {
  }

  lemma MarginIs(l: Ledger, p: ReserveParameters, amount: real)
    requires p.symbol.Ok() && p.price > 0.0 && LeverageKnown(l, p)
    ensures AsBalance(ConvertFromAmount(p.symbol, p.symbol.TradeCodeBefore(p.side), amount, p.price),
                      l.leverages[MarketOf(p)], p.symbol.amountMultiplier) == Margin(l, p, amount)
  {
    ConversionIsLinear(p.symbol, p.symbol.TradeCodeBefore(p.side), amount, p.price);
  }

  lemma LimitedIs(l: Ledger, p: ReserveParameters, balance: real)
    requires p.symbol.Ok() && p.price > 0.0 && LeverageKnown(l, p) && ParametersRequest(p) in l.limits
             && SymbolKnown(l, p)
    ensures WithLimit(l, p, balance) == Max(0.0, Min(balance, Margin(l, p, Room(l, ParametersRequest(p)))))
  {
    var request := ParametersRequest(p);
    var room := Room(l, request);
    PositionSeen(l, p);
    CapIs(p.symbol, request.code, p.price, l.leverages[MarketOf(p)], p.symbol.amountMultiplier, balance, room);
    MarginIs(l, p, room);
  }

  /** The virtual balance and the margin of the free position; of a derivative one twentieth is not to be touched,
      and a limit lets through at most the margin of the room below it. */
  ghost function Spendable(l: Ledger, p: ReserveParameters, virtual: real, free: real): real
    requires p.symbol.Ok() && p.price > 0.0 && LeverageKnown(l, p)
  {
    var whole := if p.symbol.isDerivative then 0.95 * (virtual + Margin(l, p, free)) else virtual;
    if ParametersRequest(p) !in l.limits then whole
    else Max(0.0, Min(whole, Margin(l, p, Room(l, ParametersRequest(p)))))
  }

  lemma BalanceGivenIs(l: Ledger, p: ReserveParameters, free: Option<real>)
    requires p.symbol.Ok() && p.price > 0.0 && QueryOk(l, p)
    ensures VirtualBalance(l, p).None? ==> BalanceGiven(l, p, free) == None
    ensures VirtualBalance(l, p).Some? ==>
              LeverageKnown(l, p) && BalanceGiven(l, p, free) ==
              Some(Spendable(l, p, VirtualBalance(l, p).value, if free.Some? then free.value else 0.0))
  {
    if VirtualBalance(l, p).Some? {
      var virtual, given := VirtualBalance(l, p).value, if free.Some? then free.value else 0.0;
      MarginIs(l, p, given);
      assert Margin(l, p, 0.0) == 0.0;
      var whole := if p.symbol.isDerivative then virtual + Margin(l, p, given) else virtual;
      var touchable := if p.symbol.isDerivative then whole - whole * 0.05 else whole;
      assert p.symbol.isDerivative ==> touchable == 0.95 * whole;
      if ParametersRequest(p) in l.limits {
        LimitedIs(l, p, touchable);
      }
    }
  }

  /** The balance a request is checked against. */
  lemma AvailableBalanceIs(l: Ledger, p: ReserveParameters)
    requires ParametersOk(l, p)
    ensures VirtualBalance(l, p).None? ==> AvailableBalance(l, p) == 0.0
    ensures VirtualBalance(l, p).Some? ==>
              LeverageKnown(l, p) && AvailableBalance(l, p) == Spendable(l, p, VirtualBalance(l, p).value, 0.0)
  {
    BalanceGivenIs(l, p, None);
  }

  /** The balance a transfer or price update is checked against. */
  lemma BalanceWithFreeIs(l: Ledger, p: ReserveParameters)
    requires p.symbol.Ok() && p.price > 0.0 && QueryOk(l, p)
    ensures VirtualBalance(l, p).None? ==> BalanceWithFree(l, p) == None
    ensures VirtualBalance(l, p).Some? ==>
              LeverageKnown(l, p) && BalanceWithFree(l, p) ==
              Some(Spendable(l, p, VirtualBalance(l, p).value, FreePosition(l, p.account, p.symbol, p.side)))
  {
    BalanceGivenIs(l, p, Some(FreePosition(l, p.account, p.symbol, p.side)));
  }

  // ---- reserve ----

  /** No limit is set, the position with everything reserved stays within it, or it comes nearer to zero. */
  predicate LimitAllows(l: Ledger, q: BalanceRequest, amount: real) {
    q in l.limits ==>
      var position := RequestPosition(l, q);
      var afterwards := position + ValueOr0(l.reserved, q) + amount;
      Abs(afterwards) <= l.limits[q] || Abs(afterwards) < Abs(position)
  }

  lemma LimitIff(l: Ledger, p: ReserveParameters)
    requires ParametersOk(l, p)
    ensures CanReserveWithLimit(l, p) <==> LimitAllows(l, ParametersRequest(p), p.amount)
  {
    if ParametersRequest(p) in l.limits {
      PositionSeen(l, p);
    }
  }

  /** The balance covers a cost at the price of a market, up to half a precision unit. */
  predicate Covers(symbol: Symbol, code: CurrencyCode, price: real, available: real, cost: real)
    requires price > 0.0
  {
    cost * Rate(symbol, code, price) <= available + Unit(symbol) / 2.0
  }

  lemma PayableIff(symbol: Symbol, code: CurrencyCode, price: real, available: real, cost: real)
    requires symbol.tick > 0.0 && price > 0.0 && symbol.Converts(code)
    ensures RoundAmount(symbol, available - ConvertFromAmount(symbol, code, cost, price)) >= 0.0 <==>
            Covers(symbol, code, price, available, cost)
  {
    ConversionIsLinear(symbol, code, cost, price);
    RoundsNotNegativeIff(available - ConvertFromAmount(symbol, code, cost, price), Unit(symbol));
  }

  lemma AttemptIff(l: Ledger, p: ReserveParameters, cost: real)
    requires ParametersOk(l, p) && cost == ReservationCost(l, p).0
    ensures Attempt(l, p).Some? <==>
            && CanReserveWithLimit(l, p)
            && RoundAmount(p.symbol, AvailableBalance(l, p) - ConvertFromAmount(p.symbol,
                   p.symbol.TradeCodeBefore(p.side), cost, p.price)) >= 0.0
  {
  }

  /** A request is granted exactly when its cost is covered and the limit allows its amount. */
  lemma GrantedIff(l: Ledger, p: ReserveParameters)
    requires ParametersOk(l, p)
    ensures Attempt(l, p).Some? <==>
            && Covers(p.symbol, p.symbol.TradeCodeBefore(p.side), p.price, AvailableBalance(l, p),
                      ReservationCost(l, p).0)
            && LimitAllows(l, ParametersRequest(p), p.amount)
  {
    var code, cost, available := p.symbol.TradeCodeBefore(p.side), ReservationCost(l, p).0, AvailableBalance(l, p);
    assert Attempt(l, p).Some? <==>
           && CanReserveWithLimit(l, p)
           && RoundAmount(p.symbol, available - ConvertFromAmount(p.symbol, code, cost, p.price)) >= 0.0 by {
      AttemptIff(l, p, cost);
    }
    assert CanReserveWithLimit(l, p) <==> LimitAllows(l, ParametersRequest(p), p.amount) by {
      LimitIff(l, p);
    }
    PayableIff(p.symbol, code, p.price, available, cost);
  }

  /** Outside derivatives a request costs its amount and takes nothing of a position. */
  lemma SpotCostIs(l: Ledger, p: ReserveParameters)
    requires ParametersOk(l, p) && !p.symbol.isDerivative
    ensures ReservationCost(l, p) == (p.amount, 0.0)
  {
  }

  /** A granted request is stored under a new id as asked for, whole and untouched. */
  ghost predicate StoredAsAsked(l: Ledger, p: ReserveParameters, l': Ledger)
    requires ParametersOk(l, p)
  {
    && l.nextId !in l.reservations && l.nextId in l'.reservations && l'.nextId == l.nextId + 1
    && l'.reservations == l.reservations[l.nextId := l'.reservations[l.nextId]]
    && var r := l'.reservations[l.nextId];
    && r.descriptor == p.descriptor && r.account == p.account && r.symbol == p.symbol && r.side == p.side
    && r.price == p.price && r.code == p.symbol.TradeCodeBefore(p.side)
    && r.amount == r.unreserved == r.notApproved == p.amount && r.parts == map[]
    && r.cost == ReservationCost(l, p).0 && r.takenFree == ReservationCost(l, p).1
  }

  lemma StoreIsAsAsked(l: Ledger, p: ReserveParameters)
    requires LedgerOk(l) && ParametersOk(l, p) && Attempt(l, p).Some?
    ensures StoredAsAsked(l, p, TryReserve(l, p))
  {
    BumpKeepsOk(l);
  }

  /** A change charges what it pays, at the price of its reservation, to one balance. */
  lemma ApplyPays(l: Ledger, id: ReservationId, r: Reservation, c: Change, q: BalanceRequest)
    requires ReservationOk(r)
    ensures ValueOr0(ApplyChange(l, id, r, c).diffs, q) ==
            ValueOr0(l.diffs, q) - Own(q == BalanceKey(r), c.paid, PriceRate(r))
  {
    ConversionIsLinear(r.symbol, BalanceKey(r).code, -c.paid, r.price);
  }

  /** A granted request is stored as asked for, at the cost of what the open position does not cover; the index
      and the balances change by its amount and its cost, and a refused one changes nothing. */
  lemma ReserveOutcome(l: Ledger, p: ReserveParameters, q: BalanceRequest)
    requires LedgerOk(l) && ParametersOk(l, p)
    ensures Attempt(l, p).None? ==> TryReserve(l, p) == l
    ensures Attempt(l, p).Some? ==>
              var l', cost := TryReserve(l, p), ReservationCost(l, p).0;
              && StoredAsAsked(l, p, l')
              && ValueOr0(l'.reserved, q) ==
                 ValueOr0(l.reserved, q) + (if q == ParametersRequest(p) then p.amount else 0.0)
              && (p.amount != 0.0 ==>
                    ValueOr0(l'.diffs, q) ==
                    ValueOr0(l.diffs, q) - Own(q == FundsKey(p), cost, Rate(p.symbol, q.code, p.price)))
  {
    if Attempt(l, p).Some? {
      StoreIsAsAsked(l, p);
      AttemptCosts(l, p);
      ChargedFor(l, Attempt(l, p).value, p, q);
    }
  }

  lemma ChargedFor(l: Ledger, r: Reservation, p: ReserveParameters, q: BalanceRequest)
    requires LedgerOk(l) && p.symbol.Ok() && NewFor(r, p) && ReservationOk(r)
    ensures var l' := Store(l, Some(r));
            && ValueOr0(l'.reserved, q) ==
               ValueOr0(l.reserved, q) + (if q == ParametersRequest(p) then p.amount else 0.0)
            && (p.amount != 0.0 ==>
                  ValueOr0(l'.diffs, q) ==
                  ValueOr0(l.diffs, q) - Own(q == FundsKey(p), r.cost, Rate(p.symbol, q.code, p.price)))
  {
    StoreMoves(l, r, q);
    if p.amount != 0.0 {
      WholeProportion(r.cost, r.amount);
      ApplyPays(l.(nextId := l.nextId + 1), l.nextId, r, ReserveChange(r), q);
    }
  }

  // ---- unreserve ----

  /** The call comes as far as unreserving the rounded amount `x`. */
  predicate Unreserves(l: Ledger, id: ReservationId, amount: real, x: real) {
    && id in l.reservations && ReservationOk(l.reservations[id]) && x == RoundAmount(l.reservations[id].symbol, amount)
    && (x != 0.0 || l.reservations[id].amount == 0.0) && l.reservations[id].account in l.exchanges
    && QueryOk(l, FromReservation(l.reservations[id]))
  }

  predicate HasPart(r: Reservation, order: Option<ClientOrderId>) {
    order.Some? && order.value in r.parts
  }

  /** Without an order, more than is not approved is asked for although that is not all; or the part of the
      order has less; or nothing was ever reserved. */
  predicate CannotUnreserve(r: Reservation, x: real, order: Option<ClientOrderId>) {
    || (order.None? && r.notApproved < x < r.unreserved)
    || (HasPart(r, order) && r.parts[order.value].unreserved < x)
    || (r.amount == 0.0 && x != 0.0)
  }

  /** What the call takes off before it can fail: from the part of the order, or from what is not approved. */
  function Lowered(r: Reservation, x: real, order: Option<ClientOrderId>): Reservation {
    if !HasPart(r, order) then r.(notApproved := r.notApproved - x)
    else if r.parts[order.value].unreserved < x then r
    else r.(parts := r.parts[order.value := r.parts[order.value].(unreserved := r.parts[order.value].unreserved - x)])
  }

  /** What happens to the reservation. */
  lemma RoundedOutcome(r: Reservation, x: real, order: Option<ClientOrderId>)
    requires ReservationOk(r) && EmptyOk(r)
    ensures var u := UnreserveRounded(r, x, order);
            if CannotUnreserve(r, x, order) then u == Failed(Lowered(r, x, order))
            else
              && u.Changed?
              && u.change.after ==
                 if r.unreserved - x < 0.0 || WithinMargin(r.symbol, r.unreserved - x) then None
                 else Some(Lowered(r, x, order).(unreserved := r.unreserved - x))
  {
    UnreserveMovesExactly(r, x, order);
  }

  lemma UnreserveIs(l: Ledger, id: ReservationId, amount: real, x: real, order: Option<ClientOrderId>)
    requires LedgerOk(l) && Unreserves(l, id, amount, x)
    ensures StoredOk(id, l.nextId, l.reservations[id])
    ensures var r, u := l.reservations[id], UnreserveRounded(l.reservations[id], x, order);
            Unreserve(l, id, amount, order) ==
            match u
            case Failed(kept) => Err(l.(reservations := l.reservations[id := kept]))
            case Abandoned(c) => Err(ApplyChange(l, id, r, c))
            case Changed(c) => Ok(ApplyChange(l, id, r, c))
  {
    assert StoredOk(id, l.nextId, l.reservations[id]);
  }

  /** A call that gets past its early returns fails exactly in these cases, and then neither the index nor any
      balance changes. Otherwise what is reserved falls by exactly `x`, or the reservation is gone, exactly when
      less than nothing or no more than the margin would be left. */
  lemma UnreserveOutcome(l: Ledger, id: ReservationId, amount: real, x: real, order: Option<ClientOrderId>)
    requires LedgerOk(l) && Unreserves(l, id, amount, x)
    ensures var r, o := l.reservations[id], Unreserve(l, id, amount, order);
            && o.Returns() && (o.Err? <==> CannotUnreserve(r, x, order))
            && (o.Err? ==> o.ledger == l.(reservations := l.reservations[id := Lowered(r, x, order)]))
            && (o.Ok? ==>
                  o.ledger.reservations ==
                  if r.unreserved - x < 0.0 || WithinMargin(r.symbol, r.unreserved - x) then l.reservations - {id}
                  else l.reservations[id := Lowered(r, x, order).(unreserved := r.unreserved - x)])
  {
    UnreserveIs(l, id, amount, x, order);
    RoundedOutcome(l.reservations[id], x, order);
  }

  /** A successful call gives back what it takes off, or all that is left: to the index the amount, and to the
      balances its share of the cost at the price of the reservation. */
  lemma UnreserveGivesBack(l: Ledger, id: ReservationId, amount: real, x: real, order: Option<ClientOrderId>,
                           q: BalanceRequest)
    requires LedgerOk(l) && Unreserves(l, id, amount, x) && Unreserve(l, id, amount, order).Ok?
    ensures var r, l' := l.reservations[id], Unreserve(l, id, amount, order).ledger;
            var given := if id in l'.reservations then x else r.unreserved;
            GivesBack(l, l', r, given, q)
  {
    var r := l.reservations[id];
    var c := UnreservedChange(l, id, amount, x, order);
    GivingBack(l, id, r, c, if c.after.Some? then x else r.unreserved, q);
  }

  /** The index falls by what is given, and the balance gets its share of the cost at the price. */
  predicate GivesBack(l: Ledger, l': Ledger, r: Reservation, given: real, q: BalanceRequest)
    requires ReservationOk(r)
  {
    && ValueOr0(l'.reserved, q) == ValueOr0(l.reserved, q) - (if q == RequestOf(r) then given else 0.0)
    && ValueOr0(l'.diffs, q) ==
       ValueOr0(l.diffs, q) + Own(q == BalanceKey(r), CostOf(r, given), PriceRate(r))
  }

  lemma UnreservedChange(l: Ledger, id: ReservationId, amount: real, x: real, order: Option<ClientOrderId>)
    returns (c: Change)
    requires LedgerOk(l) && Unreserves(l, id, amount, x) && Unreserve(l, id, amount, order).Ok?
    ensures var r := l.reservations[id];
            var given := if c.after.Some? then x else r.unreserved;
            && Unreserve(l, id, amount, order).ledger == ApplyChange(l, id, r, c)
            && -c.moved == given && -c.paid == CostOf(r, given)
  {
    UnreserveIs(l, id, amount, x, order);
    RoundedOutcome(l.reservations[id], x, order);
    GivenBack(l.reservations[id], x, order);
    c := UnreserveRounded(l.reservations[id], x, order).change;
  }

  lemma GivingBack(l: Ledger, id: ReservationId, r: Reservation, c: Change, given: real, q: BalanceRequest)
    requires ReservationOk(r) && -c.moved == given && -c.paid == CostOf(r, given)
    ensures var l' := ApplyChange(l, id, r, c);
            (id in l'.reservations <==> c.after.Some?) && GivesBack(l, l', r, given, q)
  {
    ApplyMoves(l, id, r, c, q);
    ApplyPays(l, id, r, c, q);
    OwnNegated(q == BalanceKey(r), CostOf(r, given), PriceRate(r));
  }

  lemma OwnNegated(own: bool, x: real, rate: real)
    ensures Own(own, -x, rate) == -Own(own, x, rate)
  {
  }

  lemma GivenBack(r: Reservation, x: real, order: Option<ClientOrderId>)
    requires UnreserveRounded(r, x, order).Changed? && EmptyOk(r) && ReservationOk(r)
    ensures var c := UnreserveRounded(r, x, order).change;
            var given := if c.after.Some? then x else r.unreserved;
            -c.moved == given && -c.paid == CostOf(r, given)
  {
    var c := UnreserveRounded(r, x, order).change;
    UnreserveMovesExactly(r, x, order);
    UnreservePaysExactly(r, x, order);
    if c.after.Some? {
      OwedFalls(r, c.after.value, x);
    }
  }

  /** Otherwise the call does nothing, but for an unknown reservation it fails unless nothing is asked for or the
      manager is a clone. */
  lemma UnreserveIdle(l: Ledger, id: ReservationId, amount: real, order: Option<ClientOrderId>)
    requires LedgerOk(l)
    ensures id !in l.reservations ==>
              Unreserve(l, id, amount, order) == if l.isClone || amount == 0.0 then Ok(l) else Err(l)
    ensures id in l.reservations && ReservationOk(l.reservations[id]) ==>
              var r := l.reservations[id];
              (RoundAmount(r.symbol, amount) == 0.0 && r.amount != 0.0) || r.account !in l.exchanges ==>
                Unreserve(l, id, amount, order) == Ok(l)
  {
  }

  // ---- approve and cancel ----

  /** An approval is accepted exactly when what is not approved yet suffices up to the margin; it then makes a
      part of the whole amount, and in either case what is not approved has fallen. */
  lemma ApproveOutcome(l: Ledger, id: ReservationId, order: ClientOrderId, amount: real)
    requires LedgerOk(l)
    ensures var o := Approve(l, id, order, amount);
            if id !in l.reservations || order in l.reservations[id].parts then o == Ok(l)
            else
              var r := l.reservations[id];
              && (o.Ok? <==> r.notApproved - amount >= 0.0 || WithinMargin(r.symbol, r.notApproved - amount))
              && o.Returns()
              && o.ledger == l.(reservations := l.reservations[id := r.(notApproved := r.notApproved - amount,
                     parts := if o.Ok? then r.parts[order := ApprovedPart(amount, false, amount)] else r.parts)])
  {
  }

  /** Canceling a part returns what it still has to what is not approved; doing so twice panics. */
  lemma CancelOutcome(l: Ledger, id: ReservationId, order: ClientOrderId)
    ensures var o := CancelApproved(l, id, order);
            if id !in l.reservations || order !in l.reservations[id].parts then o == Ok(l)
            else
              var r, part := l.reservations[id], l.reservations[id].parts[order];
              && (o.Panic? <==> part.isCanceled)
              && (!part.isCanceled ==>
                    o == Ok(l.(reservations := l.reservations[id := r.(notApproved := r.notApproved + part.unreserved,
                            parts := r.parts[order := ApprovedPart(part.amount, true, part.unreserved)])])))
  {
  }

  // ---- transfers ----

  /** What moving an amount takes at the price of the target beyond what it gives back at that of the source. */
  function ExtraCost(r: Reservation, t: Reservation, amount: real): real
    requires r.price > 0.0 && t.price > 0.0
  {
    amount * Rate(t.symbol, t.code, t.price) - amount * Rate(r.symbol, r.code, r.price)
  }

  lemma ExtraCostIs(r: Reservation, t: Reservation, amount: real)
    requires ReservationOk(r) && ReservationOk(t)
    ensures ConvertFromAmount(t.symbol, t.code, amount, t.price) - ConvertFromAmount(r.symbol, r.code, amount, r.price)
            == ExtraCost(r, t, amount)
  {
    ConversionIsLinear(r.symbol, r.code, amount, r.price);
    ConversionIsLinear(t.symbol, t.code, amount, t.price);
  }

  /** A transfer moves its amount exactly when that does not round to nothing and, for a derivative between
      different prices, the balance covers the extra cost. */
  lemma TransferActsIff(l: Ledger, src: ReservationId, dst: ReservationId, amount: real)
    requires BothStored(l, src, dst)
    requires var r, t := l.reservations[src], l.reservations[dst];
             r.price != t.price && r.symbol.isDerivative && Rounded(l, src, amount) != 0.0 ==>
               QueryOk(l, FromReservation(t)) && BalanceWithFree(l, FromReservation(t)).Some?
    ensures var r, t, moved := l.reservations[src], l.reservations[dst], Rounded(l, src, amount);
            TransferActs(l, src, dst, amount) <==>
            && moved != 0.0
            && (|| r.price == t.price || !r.symbol.isDerivative
                || BalanceWithFree(l, FromReservation(t)).value >= ExtraCost(r, t, moved))
  {
    var r, t, moved := l.reservations[src], l.reservations[dst], Rounded(l, src, amount);
    ExtraCostIs(r, t, moved);
  }

  /** A transfer that costs nothing extra is not refused while the balance is not negative. */
  lemma CheaperIsNotRefused(l: Ledger, src: ReservationId, dst: ReservationId, amount: real)
    requires BothStored(l, src, dst) && Rounded(l, src, amount) != 0.0
    requires var r, t := l.reservations[src], l.reservations[dst];
             && ExtraCost(r, t, Rounded(l, src, amount)) <= 0.0
             && (r.price != t.price && r.symbol.isDerivative ==>
                   && QueryOk(l, FromReservation(t)) && BalanceWithFree(l, FromReservation(t)).Some?
                   && BalanceWithFree(l, FromReservation(t)).value >= 0.0)
    ensures TransferActs(l, src, dst, amount)
  {
    TransferActsIff(l, src, dst, amount);
  }

  /** The call returns unchanged when it does not act, and panics exactly when the reservations do not match, the
      balance cannot be looked up or the amount cannot be moved. */
  lemma TransferOutcome(l: Ledger, src: ReservationId, dst: ReservationId, amount: real, order: Option<ClientOrderId>)
    requires LedgerOk(l)
    ensures var o := TryTransfer(l, src, dst, amount, order);
            if !BothStored(l, src, dst) then o == Panic
            else
              var r, t, moved := l.reservations[src], l.reservations[dst], Rounded(l, src, amount);
              if moved == 0.0 then o == Ok(l)
              else if r.price != t.price && r.symbol.isDerivative
                      && (!QueryOk(l, FromReservation(t)) || BalanceWithFree(l, FromReservation(t)).None?)
                   then o == Panic
              else if !TransferActs(l, src, dst, amount) then o == Ok(l)
              else o == TransferAmount(l, src, dst, moved, order)
  {
  }

  /** The part of the order can follow the amount: it keeps no less than minus the margin, and only the target may
      lack it. */
  predicate PartFollows(r: Reservation, order: Option<ClientOrderId>, diff: real, isSrc: bool) {
    || order.None?
    || (order.value in r.parts && r.parts[order.value].unreserved + diff >= -(r.symbol.tick * 0.01))
    || (order.value !in r.parts && !isSrc)
  }

  /** One side can be moved exactly when enough is left on it, its part can follow, and a source that gives
      something has an amount. */
  lemma SideMovesIff(r: Reservation, diff: real, order: Option<ClientOrderId>, isSrc: bool, cost: real)
    requires r.symbol.tick > 0.0
    ensures TransferSide(r, diff, order, isSrc, cost).Some? <==> SideMovable(r, diff, order, isSrc)
  {
  }

  predicate SideMovable(r: Reservation, diff: real, order: Option<ClientOrderId>, isSrc: bool) {
    && r.unreserved + diff >= -(r.symbol.tick * 0.01) && PartFollows(r, order, diff, isSrc)
    && (isSrc && diff != 0.0 ==> r.amount != 0.0)
  }

  /** What a source that gives to itself takes back into. */
  function GivenAway(r: Reservation, amount: real, order: Option<ClientOrderId>): Reservation {
    var left := r.(unreserved := r.unreserved - amount);
    if order.None? || order.value !in r.parts then left
    else
      var part := r.parts[order.value];
      if WithinMargin(r.symbol, part.unreserved - amount) then left.(parts := r.parts - {order.value})
      else left.(parts := r.parts[order.value := part.(unreserved := part.unreserved - amount)])
  }

  /** Both sides can be moved: they are there, enough is left on each, and the parts of the order can follow. A
      reservation that gives to itself must not be used up by that. */
  predicate BothMovable(m: map<ReservationId, Reservation>, src: ReservationId, dst: ReservationId, amount: real,
                        order: Option<ClientOrderId>)
  {
    && src in m && dst in m && SideMovable(m[src], -amount, order, true)
    && if src != dst then SideMovable(m[dst], amount, order, false)
       else
         && !WithinMargin(m[src].symbol, m[src].unreserved - amount)
         && SideMovable(GivenAway(m[src], amount, order), amount, order, false)
  }

  lemma OtherMovesIff(m: map<ReservationId, Reservation>, src: ReservationId, dst: ReservationId, amount: real,
                      order: Option<ClientOrderId>)
    requires src in m && dst in m && src != dst && m[src].symbol.tick > 0.0 && m[dst].symbol.tick > 0.0
    ensures TransferChanges(m, src, dst, amount, order).Some? <==> BothMovable(m, src, dst, amount, order)
  {
    SideMovesIff(m[src], -amount, order, true, 0.0);
    var c := TransferSide(m[src], -amount, order, true, 0.0);
    if c.Some? {
      SideMovesIff(m[dst], amount, order, false, -c.value.paid);
    }
  }

  lemma SelfMovesIff(m: map<ReservationId, Reservation>, src: ReservationId, amount: real,
                     order: Option<ClientOrderId>)
    requires src in m && m[src].symbol.tick > 0.0
    ensures TransferChanges(m, src, src, amount, order).Some? <==> BothMovable(m, src, src, amount, order)
  {
    SideMovesIff(m[src], -amount, order, true, 0.0);
    var c := TransferSide(m[src], -amount, order, true, 0.0);
    if c.Some? && c.value.after.Some? {
      SideMovesIff(c.value.after.value, amount, order, false, -c.value.paid);
      GivenAwayIs(m[src], amount, order, c.value);
    }
  }

  lemma ChangesIff(m: map<ReservationId, Reservation>, src: ReservationId, dst: ReservationId, amount: real,
                   order: Option<ClientOrderId>)
    requires forall id :: id in m ==> m[id].symbol.tick > 0.0
    ensures TransferChanges(m, src, dst, amount, order).Some? <==> BothMovable(m, src, dst, amount, order)
  {
    if src in m && dst in m {
      if src == dst {
        SelfMovesIff(m, src, amount, order);
      } else {
        OtherMovesIff(m, src, dst, amount, order);
      }
    }
  }

  /** An amount is moved exactly when both sides can be, and the call panics otherwise. */
  lemma TransferMovesIff(l: Ledger, src: ReservationId, dst: ReservationId, amount: real, order: Option<ClientOrderId>)
    requires LedgerOk(l)
    ensures var o := TransferAmount(l, src, dst, amount, order);
            if BothMovable(l.reservations, src, dst, amount, order) then o.Ok? else o.Panic?
  {
    forall id | id in l.reservations ensures l.reservations[id].symbol.tick > 0.0 {
      assert StoredOk(id, l.nextId, l.reservations[id]);
    }
    ChangesIff(l.reservations, src, dst, amount, order);
  }

  lemma GivenAwayIs(r: Reservation, amount: real, order: Option<ClientOrderId>, c: Change)
    requires r.symbol.tick > 0.0 && TransferSide(r, -amount, order, true, 0.0) == Some(c) && c.after.Some?
    ensures SideMovable(c.after.value, amount, order, false) <==>
            SideMovable(GivenAway(r, amount, order), amount, order, false)
  {
  }

  /** What a side that stays looks like afterwards. */
  lemma SideAfter(r: Reservation, diff: real, order: Option<ClientOrderId>, isSrc: bool, cost: real)
    requires TransferSide(r, diff, order, isSrc, cost).Some? && r.symbol.tick > 0.0
    requires TransferSide(r, diff, order, isSrc, cost).value.after.Some?
    ensures var c := TransferSide(r, diff, order, isSrc, cost).value;
            var t := c.after.value;
            && t.amount == r.amount + diff && t.unreserved == r.unreserved + diff && t.cost == r.cost + c.paid
            && t.notApproved == r.notApproved + (if order.None? then diff else 0.0)
            && (forall other :: Some(other) != order ==>
                  (other in t.parts <==> other in r.parts) && (other in r.parts ==> t.parts[other] == r.parts[other]))
            && (order.Some? ==>
                  var had := if order.value in r.parts then r.parts[order.value] else ApprovedPart(0.0, false, 0.0);
                  if order.value in r.parts && WithinMargin(r.symbol, had.unreserved + diff)
                  then order.value !in t.parts
                  else order.value in t.parts && t.parts[order.value] ==
                       ApprovedPart(had.amount + diff, had.isCanceled, had.unreserved + diff))
  {
  }

  /** Between two reservations a transfer puts each side where its part of the move leads, and the source gets
      back the cost of the amount at its own rate and price, which the target pays at its price. */
  lemma TransferPays(l: Ledger, src: ReservationId, dst: ReservationId, amount: real, order: Option<ClientOrderId>,
                     q: BalanceRequest)
    requires LedgerOk(l) && TransferAmount(l, src, dst, amount, order).Ok? && src != dst
    requires src in l.reservations && dst in l.reservations
             && ReservationOk(l.reservations[src]) && ReservationOk(l.reservations[dst])
    ensures var r, t, l' := l.reservations[src], l.reservations[dst], TransferAmount(l, src, dst, amount, order).ledger;
            && (src in l'.reservations <==> !WithinMargin(r.symbol, r.unreserved - amount))
            && (dst in l'.reservations <==> !WithinMargin(t.symbol, t.unreserved + amount))
            && l'.reservations - {src, dst} == l.reservations - {src, dst}
            && ValueOr0(l'.diffs, q) ==
               ValueOr0(l.diffs, q) + Own(q == BalanceKey(r), CostOf(r, amount), PriceRate(r))
                 - Own(q == BalanceKey(t), CostOf(r, amount), PriceRate(t))
  {
    var c, d, t := TransferShape(l, src, dst, amount, order);
    var r := l.reservations[src];
    var cost := CostOf(r, amount);
    assert c.paid == -cost && d.paid == cost by {
      SourcePaysExactly(r, amount, order);
      TargetOwes(t, amount, order, -c.paid);
    }
    OwnNegated(q == BalanceKey(r), cost, PriceRate(r));
    TwoPayments(l, src, dst, r, t, c, d, q);
  }

  lemma TwoPayments(l: Ledger, a: ReservationId, b: ReservationId, r: Reservation, t: Reservation, c: Change, d: Change,
                    q: BalanceRequest)
    requires ReservationOk(r) && ReservationOk(t) && a != b
    ensures var l' := ApplyChange(ApplyChange(l, a, r, c), b, t, d);
            && (a in l'.reservations <==> c.after.Some?) && (b in l'.reservations <==> d.after.Some?)
            && l'.reservations - {a, b} == l.reservations - {a, b}
            && ValueOr0(l'.diffs, q) ==
               ValueOr0(l.diffs, q) - Own(q == BalanceKey(r), c.paid, PriceRate(r))
                 - Own(q == BalanceKey(t), d.paid, PriceRate(t))
  {
    ApplyPays(l, a, r, c, q);
    ApplyPays(ApplyChange(l, a, r, c), b, t, d, q);
  }

  // ---- price updates ----

  function WholePart(): ApprovedPart -> real {
    (part: ApprovedPart) => part.unreserved
  }

  /** The rest is the amount less what all parts have beyond those that are not canceled. */
  lemma RestAmountIs(r: Reservation)
    ensures RestAmount(r) == r.amount - (Total(r.parts, WholePart()) - Total(r.parts, LiveAmount()))
  {
    TotalAdds(r.parts, WholePart(), LiveAmount(), CanceledAmount());
  }

  /** What the rest of a reservation costs at the new price beyond what was not approved at the old one. */
  ghost function ExtraPrice(r: Reservation, price: real): real
    requires price > 0.0 && r.price > 0.0
  {
    RestAmount(r) * Rate(r.symbol, r.code, price) - r.notApproved * Rate(r.symbol, r.code, r.price)
  }

  lemma ExtraPriceIs(r: Reservation, price: real)
    requires ReservationOk(r) && price > 0.0
    ensures DiffInCode(r, RestAmount(r), price) == ExtraPrice(r, price)
  {
    ConversionIsLinear(r.symbol, r.code, RestAmount(r), price);
    ConversionIsLinear(r.symbol, r.code, r.notApproved, r.price);
  }

  lemma IntoAmountIs(symbol: Symbol, code: CurrencyCode, x: real, price: real)
    requires price > 0.0 && symbol.Converts(code)
    ensures ConvertIntoAmount(symbol, code, x, price) * Rate(symbol, code, price) == x
    ensures ConvertIntoAmount(symbol, code, x, price) == 0.0 <==> x == 0.0
  {
    ConvertBack(symbol, code, x, price);
    ConversionIsLinear(symbol, code, ConvertIntoAmount(symbol, code, x, price), price);
    RateIsPositive(symbol, code, price);
    ProductZero(ConvertIntoAmount(symbol, code, x, price), Rate(symbol, code, price));
  }

  /** The amount moved by a price update is what the extra cost buys at the new price. */
  lemma PriceDiffBuys(r: Reservation, price: real)
    requires ReservationOk(r) && price > 0.0
    ensures PriceDiff(r, price) * Rate(r.symbol, r.code, price) == ExtraPrice(r, price)
    ensures PriceDiff(r, price) == 0.0 <==> ExtraPrice(r, price) == 0.0
  {
    ExtraPriceIs(r, price);
    IntoAmountIs(r.symbol, r.code, DiffInCode(r, RestAmount(r), price), price);
  }

  lemma PriceAffordableIs(l: Ledger, r: Reservation, price: real)
    requires ReservationOk(r) && price > 0.0
    ensures var p := FromReservation(r).(price := price);
            PriceAffordable(l, r, price) ==
            if !QueryOk(l, p) || BalanceWithFree(l, p).None? then None
            else Some(BalanceWithFree(l, p).value >= ExtraPrice(r, price))
  {
    ExtraPriceIs(r, price);
  }

  /** A price update acts exactly when the balance at the new price covers the extra cost; it is refused without
      change otherwise, and it panics exactly when the balance cannot be looked up or a reservation of nothing
      would have to pay. */
  lemma PriceOutcome(l: Ledger, id: ReservationId, price: real)
    requires LedgerOk(l) && price > 0.0 && id in l.reservations && ReservationOk(l.reservations[id])
    ensures var r, o := l.reservations[id], UpdatePrice(l, id, price);
            var p := FromReservation(r).(price := price);
            if !QueryOk(l, p) || BalanceWithFree(l, p).None? then o == Panic
            else if BalanceWithFree(l, p).value < ExtraPrice(r, price) then o == Ok(l) && !Repriced(l, id, price)
            else if r.amount == 0.0 && ExtraPrice(r, price) != 0.0 then o == Panic && !Repriced(l, id, price)
            else
              && Repriced(l, id, price) && o.Ok? && id in o.ledger.reservations
              && o.ledger.reservations == l.reservations[id := r.(price := price, notApproved := RestAmount(r))]
  {
    var r := l.reservations[id];
    PriceAffordableIs(l, r, price);
    PriceDiffBuys(r, price);
    if Repriced(l, id, price) {
      RepricedIs(l, id, price);
    }
  }

  lemma RepricingPays(l: Ledger, id: ReservationId, r: Reservation, c: Change, paid: real, q: BalanceRequest)
    requires ReservationOk(r) && c.paid == paid
    ensures var l' := ApplyChange(l, id, r, c);
            && ValueOr0(l'.reserved, q) == ValueOr0(l.reserved, q) + (if q == RequestOf(r) then c.moved else 0.0)
            && ValueOr0(l'.diffs, q) ==
               ValueOr0(l.diffs, q) - Own(q == BalanceKey(r), paid, Rate(r.symbol, q.code, r.price))
  {
    ApplyMoves(l, id, r, c, q);
    ApplyPays(l, id, r, c, q);
  }

  /** The index grows by what the extra cost buys at the new price, and the balance pays its share of the cost. */
  lemma PriceMoves(l: Ledger, id: ReservationId, price: real, q: BalanceRequest)
    requires Repriced(l, id, price)
    ensures var r, l' := l.reservations[id], UpdatePrice(l, id, price).ledger;
            && ValueOr0(l'.reserved, q) ==
               ValueOr0(l.reserved, q) + (if q == RequestOf(r) then PriceDiff(r, price) else 0.0)
            && ValueOr0(l'.diffs, q) ==
               ValueOr0(l.diffs, q)
                 - Own(q == BalanceKey(r), CostOf(r, PriceDiff(r, price)), Rate(r.symbol, q.code, price))
  {
    var r := l.reservations[id];
    var diff := PriceDiff(r, price);
    var c := PriceChange(r, RestAmount(r), diff, ProportionalCost(r, diff).value, price);
    assert UpdatePrice(l, id, price) == Ok(ApplyChange(l, id, r.(price := price), c)) by {
      RepricedIs(l, id, price);
    }
    assert c.paid == CostOf(r, diff) by {
      ProportionIsRate(r, diff);
    }
    RepricingPays(l, id, r.(price := price), c, CostOf(r, diff), q);
  }
}
