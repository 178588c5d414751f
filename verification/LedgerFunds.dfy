/** A reservation is only granted for what the virtual balance covers. */
module LedgerFunds {
  import opened Domain
  import opened Symbols
  import opened ReservationLedger
  import opened LedgerBalance
  import opened LedgerLimits

  lemma ConvertMonotone(symbol: Symbol, code: CurrencyCode, x: real, y: real, price: real)
    requires price > 0.0 && symbol.Converts(code) && x <= y
    ensures ConvertFromAmount(symbol, code, x, price) <= ConvertFromAmount(symbol, code, y, price)
  {
    var rate := Rate(symbol, code, price);
    ConversionIsLinear(symbol, code, x, price);
    ConversionIsLinear(symbol, code, y, price);
    assert rate > 0.0;
    Scaled(x, y, rate);
  }

  lemma ConvertBack(symbol: Symbol, code: CurrencyCode, x: real, price: real)
    requires price > 0.0 && symbol.Converts(code)
    ensures ConvertFromAmount(symbol, code, ConvertIntoAmount(symbol, code, x, price), price) == x
  {
  }

  lemma PositiveOrder(a: real, b: real, factor: real)
    requires factor > 0.0 && a * factor <= b * factor
    ensures a <= b
  {
  }

  lemma AsBalanceMonotone(x: real, y: real, leverage: real, factor: real)
    requires leverage > 0.0 && factor > 0.0 && x <= y
    ensures AsBalance(x, leverage, factor) <= AsBalance(y, leverage, factor)
  {
    Cancels(x, leverage);
    Cancels(y, leverage);
    PositiveOrder(x / leverage, y / leverage, leverage);
    Scaled(x / leverage, y / leverage, factor);
  }

  lemma AsBalanceOfMin(x: real, y: real, leverage: real, factor: real)
    requires leverage > 0.0 && factor > 0.0
    ensures AsBalance(Min(x, y), leverage, factor) == Min(AsBalance(x, leverage, factor),
            AsBalance(y, leverage, factor))
  {
    if x <= y {
      AsBalanceMonotone(x, y, leverage, factor);
    } else {
      AsBalanceMonotone(y, x, leverage, factor);
    }
  }

  lemma ConvertOfMin(symbol: Symbol, code: CurrencyCode, x: real, y: real, price: real)
    requires price > 0.0 && symbol.Converts(code)
    ensures ConvertFromAmount(symbol, code, Min(x, y), price) ==
            Min(ConvertFromAmount(symbol, code, x, price), ConvertFromAmount(symbol, code, y, price))
  {
    if x <= y {
      ConvertMonotone(symbol, code, x, y, price);
    } else {
      ConvertMonotone(symbol, code, y, x, price);
    }
  }

  lemma LeverageCancels(balance: real, leverage: real, factor: real)
    requires leverage > 0.0 && factor > 0.0
    ensures AsBalance(balance * leverage / factor, leverage, factor) == balance
  {
    var scaled := balance * leverage / factor;
    assert scaled * factor == balance * leverage;
    assert scaled / leverage * leverage == scaled;
    assert scaled / leverage * factor * leverage == balance * leverage;
  }

  /** The cap is the smaller of the balance and the room, both as balance, and never negative. */
  lemma CapIs(symbol: Symbol, code: CurrencyCode, price: real, leverage: real, factor: real, balance: real, room: real)
    requires price > 0.0 && symbol.Converts(code) && leverage > 0.0 && factor > 0.0
    ensures Capped(symbol, code, price, leverage, factor, balance, room) ==
            Max(0.0, Min(balance, AsBalance(ConvertFromAmount(symbol, code, room, price), leverage, factor)))
  {
    var scaled := balance * leverage / factor;
    var inAmount := ConvertIntoAmount(symbol, code, scaled, price);
    CapOf(symbol, code, price, leverage, factor, balance, room, inAmount, scaled);
  }

  lemma CapOf(symbol: Symbol, code: CurrencyCode, price: real, leverage: real, factor: real, balance: real, room: real,
              inAmount: real, scaled: real)
    requires price > 0.0 && symbol.Converts(code) && leverage > 0.0 && factor > 0.0
    requires scaled == balance * leverage / factor && inAmount == ConvertIntoAmount(symbol, code, scaled, price)
    ensures AsBalance(ConvertFromAmount(symbol, code, Min(inAmount, room), price), leverage, factor) ==
            Min(balance, AsBalance(ConvertFromAmount(symbol, code, room, price), leverage, factor))
  {
    ConvertBack(symbol, code, scaled, price);
    LeverageCancels(balance, leverage, factor);
    ConvertOfMin(symbol, code, inAmount, room, price);
    AsBalanceOfMin(scaled, ConvertFromAmount(symbol, code, room, price), leverage, factor);
  }

  /** A limit only ever lowers what is available. */
  lemma LimitOnlyLowers(l: Ledger, p: ReserveParameters, balance: real)
    requires p.symbol.Ok() && p.price > 0.0 && LeverageKnown(l, p) && ParametersRequest(p) in l.limits
             && SymbolKnown(l, p)
    ensures 0.0 <= WithLimit(l, p, balance) <= Max(0.0, balance)
  {
    var request := ParametersRequest(p);
    var room := l.limits[request] - (ValueOr0(l.reserved, request) + SignedPosition(l, MarketOf(p), p.side));
    CapIs(p.symbol, request.code, p.price, l.leverages[MarketOf(p)], p.symbol.amountMultiplier, balance, room);
  }

  lemma RoundsNotNegative(x: real, unit: real)
    requires unit > 0.0 && RoundToNearest(x, unit) >= 0.0
    ensures x >= -(unit / 2.0)
  {
    RoundingError(x, unit);
  }

  /** What a granted reservation costs is covered by the virtual balance, up to half a precision unit. */
  lemma CostIsCovered(l: Ledger, p: ReserveParameters, cost: real)
    requires ParametersOk(l, p) && CanPay(l, p, cost)
    ensures var code := p.symbol.TradeCodeBefore(p.side);
            var available := Max(0.0, if VirtualBalance(l, p).Some? then VirtualBalance(l, p).value else 0.0);
            ConvertFromAmount(p.symbol, code, cost, p.price) <= available + Unit(p.symbol) / 2.0
  {
    var balance := AvailableBalance(l, p);
    var inCode := ConvertFromAmount(p.symbol, p.symbol.TradeCodeBefore(p.side), cost, p.price);
    RoundsNotNegative(balance - inCode, Unit(p.symbol));
    AvailableAtMost(l, p);
  }

  lemma AvailableAtMost(l: Ledger, p: ReserveParameters)
    requires ParametersOk(l, p)
    ensures AvailableBalance(l, p) <= Max(0.0, if VirtualBalance(l, p).Some? then VirtualBalance(l, p).value else 0.0)
  {
    if VirtualBalance(l, p).Some? && ParametersRequest(p) in l.limits {
      var virtual := VirtualBalance(l, p).value;
      LimitOnlyLowers(l, p, if p.symbol.isDerivative then virtual - virtual * 0.05 else virtual);
    }
  }

  lemma SpotStoreCharges(l: Ledger, p: ReserveParameters)
    requires LedgerOk(l) && ParametersOk(l, p) && !p.symbol.isDerivative && Attempt(l, p).Some?
    ensures ValueOr0(TryReserve(l, p).diffs, ParametersRequest(p)) ==
            ValueOr0(l.diffs, ParametersRequest(p)) + ConvertFromAmount(p.symbol, ParametersRequest(p).code, -p.amount,
                p.price)
  {
    var r := Attempt(l, p).value;
    assert r.cost == p.amount && BalanceKey(r) == ParametersRequest(p);
    assert ReserveChange(r).paid == p.amount by {
      if r.amount != 0.0 {
        WholeProportion(r.cost, r.amount);
      }
    }
  }

  lemma VirtualFollowsDiff(l: Ledger, l': Ledger, p: ReserveParameters, virtual: real)
    requires ParametersOk(l, p) && !p.symbol.isDerivative && SameMarkets(l, l') && VirtualBalance(l, p) == Some(virtual)
    ensures VirtualBalance(l', p) ==
            Some(virtual + ValueOr0(l'.diffs, ParametersRequest(p)) - ValueOr0(l.diffs, ParametersRequest(p)))
  {
  }

  lemma ConvertNegated(symbol: Symbol, code: CurrencyCode, x: real, price: real)
    requires price > 0.0 && symbol.Converts(code)
    ensures ConvertFromAmount(symbol, code, -x, price) == -ConvertFromAmount(symbol, code, x, price)
  {
    ConversionIsLinear(symbol, code, x, price);
    ConversionIsLinear(symbol, code, -x, price);
  }

  /** Outside derivatives a reservation lowers the virtual balance by exactly its cost and never overdraws
      it by more than half a precision unit. */
  lemma SpotNeverOverdraws(l: Ledger, p: ReserveParameters, virtual: real)
    requires LedgerOk(l) && ParametersOk(l, p) && !p.symbol.isDerivative && Attempt(l, p).Some?
    requires VirtualBalance(l, p) == Some(virtual)
    ensures var cost := ConvertFromAmount(p.symbol, ParametersRequest(p).code, p.amount, p.price);
            && VirtualBalance(TryReserve(l, p), p) == Some(virtual - cost)
            && Max(0.0, virtual) - cost >= -(Unit(p.symbol) / 2.0)
  {
    var l' := TryReserve(l, p);
    assert ValueOr0(l'.diffs, ParametersRequest(p)) - ValueOr0(l.diffs, ParametersRequest(p)) ==
           ConvertFromAmount(p.symbol, ParametersRequest(p).code, -p.amount, p.price) by {
      SpotStoreCharges(l, p);
    }
    VirtualFollowsDiff(l, l', p, virtual);
    ConvertNegated(p.symbol, ParametersRequest(p).code, p.amount, p.price);
    CostIsCovered(l, p, p.amount);
  }

  // ---- derivatives ----

  /** An amount in another currency, booked in the balance currency on the way. */
  function Booked(symbol: Symbol, to: CurrencyCode, x: real, price: real): real
    requires symbol.Ok() && symbol.isDerivative && price > 0.0 && (to == symbol.base || to == symbol.quote)
  {
    ConvertFromBalance(symbol, to, ConvertFromAmount(symbol, symbol.balanceCode.value, x, price), price)
  }

  /** When the way through the balance currency changes nothing: one of the three currencies involved is
      another of them, or prices do not matter. */
  predicate BookedExactly(symbol: Symbol, to: CurrencyCode, price: real) {
    || symbol.amountCode == symbol.base || symbol.amountCode == symbol.quote
    || symbol.balanceCode == Some(symbol.amountCode) || symbol.balanceCode == Some(to) || price == 1.0
  }

  lemma BookedIff(symbol: Symbol, to: CurrencyCode, x: real, price: real)
    requires symbol.Ok() && symbol.isDerivative && price > 0.0 && (to == symbol.base || to == symbol.quote)
    ensures Booked(symbol, to, x, price) == ConvertFromAmount(symbol, to, x, price) <==>
            BookedExactly(symbol, to, price) || x == 0.0
  {
    if !BookedExactly(symbol, to, price) {
      var there, back := x * price, x / price;
      assert there / price == x && back * price == x;
      PriceMatters(x, price);
    }
  }

  lemma QuotientStays(x: real, y: real, price: real)
    requires price > 0.0 && price != 1.0 && y * price == x
    ensures x == y <==> x == 0.0
  {
    assert y * (price - 1.0) == y * price - y;
    ProductZero(y, price - 1.0);
    ProductZero(y, price);
  }

  lemma PriceMatters(x: real, price: real)
    requires price > 0.0 && price != 1.0
    ensures x == x * price <==> x == 0.0
    ensures x == x / price <==> x == 0.0
  {
    QuotientStays(x * price, x, price);
    QuotientStays(x, x / price, price);
  }

  lemma FromBalanceAdds(symbol: Symbol, to: CurrencyCode, x: real, y: real, price: real)
    requires price > 0.0 && (to == symbol.base || to == symbol.quote)
    ensures ConvertFromBalance(symbol, to, x + y, price) ==
            ConvertFromBalance(symbol, to, x, price) + ConvertFromBalance(symbol, to, y, price)
  {
  }

  lemma NewPays(r: Reservation)
    requires r.amount == 0.0 ==> r.cost == 0.0
    ensures ReserveChange(r).paid == r.cost
  {
    if r.amount != 0.0 {
      WholeProportion(r.cost, r.amount);
    }
  }

  lemma DerivativeStoreCharges(l: Ledger, p: ReserveParameters, cost: real)
    requires LedgerOk(l) && ParametersOk(l, p) && p.symbol.isDerivative && Attempt(l, p).Some?
             && Attempt(l, p).value.cost == cost
    requires p.amount == 0.0 ==> cost == 0.0
    ensures var key := ParametersRequest(p).(code := p.symbol.balanceCode.value);
            ValueOr0(TryReserve(l, p).diffs, key) == ValueOr0(l.diffs, key) + ConvertFromAmount(p.symbol, key.code,
                -cost, p.price)
  {
    NewPays(Attempt(l, p).value);
  }

  lemma DerivativeVirtual(l: Ledger, l': Ledger, p: ReserveParameters, virtual: real, change: real)
    requires ParametersOk(l, p) && p.symbol.isDerivative && SameMarkets(l, l') && VirtualBalance(l, p) == Some(virtual)
    requires var key := ParametersRequest(p).(code := p.symbol.balanceCode.value);
             ValueOr0(l'.diffs, key) == ValueOr0(l.diffs, key) + change
    ensures VirtualBalance(l', p) == Some(virtual
            + ConvertFromBalance(p.symbol, ParametersRequest(p).code, change, p.price))
  {
    var key := ParametersRequest(p).(code := p.symbol.balanceCode.value);
    FromBalanceAdds(p.symbol, ParametersRequest(p).code, ValueOr0(l.diffs, key), change, p.price);
  }

  lemma AttemptCosts(l: Ledger, p: ReserveParameters)
    requires ParametersOk(l, p) && Attempt(l, p).Some?
    ensures Attempt(l, p).value.cost == ReservationCost(l, p).0 && CanPay(l, p, ReservationCost(l, p).0)
  {
  }

  lemma NothingIsFree(l: Ledger, p: ReserveParameters)
    requires ParametersOk(l, p) && p.symbol.isDerivative && p.amount == 0.0
    ensures ReservationCost(l, p).0 == 0.0
  {
    assert Max(0.0, p.amount - FreePosition(l, p.account, p.symbol, p.side)) == 0.0;
  }

  lemma BookedNegated(symbol: Symbol, to: CurrencyCode, x: real, price: real)
    requires symbol.Ok() && symbol.isDerivative && price > 0.0 && (to == symbol.base || to == symbol.quote)
    ensures Booked(symbol, to, -x, price) == -Booked(symbol, to, x, price)
  {
    ConvertNegated(symbol, symbol.balanceCode.value, x, price);
    FromBalanceAdds(symbol, to, ConvertFromAmount(symbol, symbol.balanceCode.value, x, price),
                    ConvertFromAmount(symbol, symbol.balanceCode.value, -x, price), price);
  }

  /** A derivative reservation never costs more than the virtual balance and half a precision unit, and it
      lowers the virtual balance by its cost as booked in the balance currency; that is its cost exactly when
      booking changes nothing. */
  lemma DerivativeNeverOverdraws(l: Ledger, p: ReserveParameters, virtual: real)
    requires LedgerOk(l) && ParametersOk(l, p) && p.symbol.isDerivative && Attempt(l, p).Some?
    requires VirtualBalance(l, p) == Some(virtual)
    ensures var code, inAmount := ParametersRequest(p).code, ReservationCost(l, p).0;
            var cost, booked := ConvertFromAmount(p.symbol, code, inAmount, p.price),
                Booked(p.symbol, code, inAmount, p.price);
            && VirtualBalance(TryReserve(l, p), p) == Some(virtual - booked)
            && (booked == cost <==> BookedExactly(p.symbol, code, p.price) || inAmount == 0.0)
            && Max(0.0, virtual) - cost >= -(Unit(p.symbol) / 2.0)
  {
    var l', cost, code := TryReserve(l, p), ReservationCost(l, p).0, ParametersRequest(p).code;
    AttemptCosts(l, p);
    CostIsCovered(l, p, cost);
    if p.amount == 0.0 {
      NothingIsFree(l, p);
    }
    var change := ConvertFromAmount(p.symbol, p.symbol.balanceCode.value, -cost, p.price);
    assert VirtualBalance(l', p) == Some(virtual + ConvertFromBalance(p.symbol, code, change, p.price)) by {
      DerivativeStoreCharges(l, p, cost);
      DerivativeVirtual(l, l', p, virtual, change);
    }
    BookedNegated(p.symbol, code, cost, p.price);
    BookedIff(p.symbol, code, cost, p.price);
  }
}
