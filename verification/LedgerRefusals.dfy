/** Inputs that are granted and inputs that are refused, side by side. */
module LedgerRefusals {
  import opened Domain
  import opened Sums
  import opened Symbols
  import opened ReservationLedger
  import opened LedgerLimits
  import opened LedgerPrices
  import opened LedgerRuns
  import opened LedgerOutcomes
  import opened LedgerWitnesses

  // ---- a request under a limit ----

  function DollarRequest(): BalanceRequest {
    BalanceRequest(Config(), "a", Spot().Pair(), "usd")
  }

  /** A limit of five on buying, and a position. */
  function Limited(position: real): Ledger {
    Funded(map[MarketFor("btc") := position])
      .(limits := map[DollarRequest() := 5.0], symbols := map[MarketFor("btc") := Spot()])
  }

  lemma LimitedParameters(l: Ledger, p: ReserveParameters, position: real)
    requires l == Limited(position) && p == ToBuy(1.0, p.amount)
    ensures ParametersOk(l, p) && ParametersRequest(p) == DollarRequest() && LeverageKnown(l, p)
    ensures l.leverages[MarketOf(p)] == 1.0 && VirtualBalance(l, p) == Some(1000.0)
  {
    CodesDiffer();
    assert MarketOf(p) == MarketFor("btc");
  }

  lemma LimitedPosition(l: Ledger, position: real)
    requires l == Limited(position)
    ensures RequestPosition(l, DollarRequest()) == -position && Room(l, DollarRequest()) == 5.0 + position
  {
    CodesDiffer();
    assert MarketOfRequest(DollarRequest()) == MarketFor("btc");
  }

  lemma PlainMargin(l: Ledger, p: ReserveParameters, amount: real)
    requires p.symbol == Spot() && p.price == 1.0 && LeverageKnown(l, p) && l.leverages[MarketOf(p)] == 1.0
    ensures Margin(l, p, amount) == amount && Rate(p.symbol, p.symbol.TradeCodeBefore(p.side), p.price) == 1.0
  {
  }

  lemma LimitedBalance(l: Ledger, p: ReserveParameters, position: real)
    requires l == Limited(position) && p == ToBuy(1.0, p.amount) && ParametersOk(l, p)
    ensures AvailableBalance(l, p) == Max(0.0, Min(1000.0, 5.0 + position))
  {
    LimitedParameters(l, p, position);
    LimitedPosition(l, position);
    PlainMargin(l, p, 5.0 + position);
    AvailableBalanceIs(l, p);
  }

  /** In such a ledger a request that the balance covers is granted exactly when it keeps within five or comes
      nearer to zero. */
  lemma LimitDecides(l: Ledger, p: ReserveParameters, position: real)
    requires l == Limited(position) && p == ToBuy(1.0, p.amount) && p.amount <= Min(1000.0, 5.0 + position)
    ensures ParametersOk(l, p)
    ensures Attempt(l, p).Some? <==> Abs(p.amount - position) <= 5.0 || Abs(p.amount - position) < Abs(position)
  {
    LimitedParameters(l, p, position);
    assert LimitAllows(l, ParametersRequest(p), p.amount) <==>
           Abs(p.amount - position) <= 5.0 || Abs(p.amount - position) < Abs(position) by {
      LimitedPosition(l, position);
    }
    assert Covers(p.symbol, p.symbol.TradeCodeBefore(p.side), p.price, AvailableBalance(l, p),
        ReservationCost(l, p).0) by {
      LimitedBalance(l, p, position);
      SpotCostIs(l, p);
      PlainMargin(l, p, 0.0);
    }
    GrantedIff(l, p);
  }

  lemma LimitGrants(l: Ledger, p: ReserveParameters, position: real)
    requires l == Limited(position) && p == ToBuy(1.0, p.amount)
    requires (position == 0.0 || position == 10.0) && p.amount == 3.0
    ensures ParametersOk(l, p) && Attempt(l, p).Some?
  {
    LimitDecides(l, p, position);
  }

  /** Three are granted within a limit of five, and also on the way back from ten to seven. */
  lemma GrantedUnderLimit()
    ensures ParametersOk(Limited(0.0), ToBuy(1.0, 3.0)) && Attempt(Limited(0.0), ToBuy(1.0, 3.0)).Some?
    ensures ParametersOk(Limited(10.0), ToBuy(1.0, 3.0)) && Attempt(Limited(10.0), ToBuy(1.0, 3.0)).Some?
  {
    LimitGrants(Limited(0.0), ToBuy(1.0, 3.0), 0.0);
    LimitGrants(Limited(10.0), ToBuy(1.0, 3.0), 10.0);
  }

  /** From ten through zero to fifteen on the other side is neither within five nor nearer to zero. */
  lemma RefusedByLimit(l: Ledger, p: ReserveParameters)
    requires l == Limited(10.0) && p == ToBuy(1.0, 25.0)
    ensures ParametersOk(l, p) && Attempt(l, p).None?
  {
    LimitedParameters(l, p, 10.0);
    assert !LimitAllows(l, ParametersRequest(p), p.amount) by {
      LimitedPosition(l, 10.0);
    }
    GrantedIff(l, p);
  }

  // ---- a transfer between two prices ----

  function ToBuyFuture(price: real, amount: real): ReserveParameters {
    ReserveParameters(Config(), "a", Future("btc"), Buy, price, amount)
  }

  /** What is known of a ledger with futures bought in the account. */
  ghost predicate InFutures(l: Ledger, virtual: real) {
    && Right(l) && SameMarkets(Start(), l) && TakesNoNegative(l)
    && ValueOr0(l.diffs, FuturesKey()) == virtual - 1000.0
  }

  function FuturesKey(): BalanceRequest {
    BalanceRequest(Config(), "a", CurrencyPair("btc", "usd"), "usd")
  }

  lemma FuturesRate(price: real)
    requires price > 0.0
    ensures Rate(Future("btc"), "usd", price) == price
  {
    CodesDiffer();
  }

  lemma FutureParameters(l: Ledger, p: ReserveParameters, virtual: real)
    requires InFutures(l, virtual) && p == ToBuyFuture(p.price, p.amount) && p.price > 0.0
    ensures ParametersOk(l, p) && QueryOk(l, p) && LeverageKnown(l, p) && ParametersRequest(p) !in l.limits
    ensures l.leverages[MarketOf(p)] == 1.0 && VirtualBalance(l, p) == Some(virtual)
    ensures FundsKey(p) == FuturesKey() == ParametersRequest(p)
  {
    CodesDiffer();
    assert MarketOf(p) == MarketFor("btc");
  }

  lemma NothingFree(l: Ledger, virtual: real)
    requires InFutures(l, virtual)
    ensures FreePosition(l, "a", Future("btc"), Buy) == 0.0
  {
    TotalNonNegative(l.reservations, TakenBySide(Buy));
    assert Position(l, MarketFor("btc")) == 0.0;
  }

  lemma NoMargin(l: Ledger, p: ReserveParameters)
    requires p.price > 0.0 && LeverageKnown(l, p)
    ensures Margin(l, p, 0.0) == 0.0
  {
  }

  lemma FutureBalances(l: Ledger, p: ReserveParameters, virtual: real)
    requires InFutures(l, virtual) && p == ToBuyFuture(p.price, p.amount) && p.price > 0.0
    ensures ParametersOk(l, p) && QueryOk(l, p)
    ensures AvailableBalance(l, p) == 0.95 * virtual && BalanceWithFree(l, p) == Some(0.95 * virtual)
  {
    FutureParameters(l, p, virtual);
    NothingFree(l, virtual);
    NoMargin(l, p);
    AvailableBalanceIs(l, p);
    BalanceWithFreeIs(l, p);
  }

  lemma FutureCost(l: Ledger, p: ReserveParameters, virtual: real)
    requires InFutures(l, virtual) && p == ToBuyFuture(p.price, p.amount) && p.price > 0.0 && p.amount >= 0.0
    ensures ParametersOk(l, p) && ReservationCost(l, p) == (p.amount, 0.0)
  {
    FutureParameters(l, p, virtual);
    NothingFree(l, virtual);
  }

  lemma FutureCovered(available: real, cost: real, price: real)
    requires price > 0.0 && cost * price <= available
    ensures Covers(Future("btc"), "usd", price, available, cost)
  {
    FuturesRate(price);
  }

  lemma FutureGranted(l: Ledger, p: ReserveParameters, virtual: real)
    requires InFutures(l, virtual) && p == ToBuyFuture(p.price, p.amount) && p.price > 0.0 && p.amount > 0.0
    requires p.amount * p.price <= 0.95 * virtual
    ensures ParametersOk(l, p) && Attempt(l, p).Some? && ReservationCost(l, p) == (p.amount, 0.0)
  {
    FutureParameters(l, p, virtual);
    FutureCost(l, p, virtual);
    FutureBalances(l, p, virtual);
    FutureCovered(AvailableBalance(l, p), p.amount, p.price);
    GrantedIff(l, p);
  }

  /** What is stored for a future bought at a price. */
  function Bought(p: ReserveParameters): Reservation {
    NewReservation(p, p.amount, 0.0).(unreserved := p.amount)
  }

  lemma RightAfter(l: Ledger, p: ReserveParameters)
    requires Right(l) && ParametersOk(l, p)
    ensures Do(l, ReserveOp(p)) == Ok(TryReserve(l, p)) && Right(TryReserve(l, p))
  {
    RunNone(l);
    RunMore(l, [], ReserveOp(p));
    assert [] + [ReserveOp(p)] == [ReserveOp(p)];
    RunIsRight(l, [ReserveOp(p)]);
  }

  lemma StoredBought(l: Ledger, p: ReserveParameters)
    requires LedgerOk(l) && ParametersOk(l, p) && Attempt(l, p).Some? && ReservationCost(l, p) == (p.amount, 0.0)
    ensures TryReserve(l, p).reservations == l.reservations[l.nextId := Bought(p)]
    ensures TryReserve(l, p).nextId == l.nextId + 1
  {
    StoreIsAsAsked(l, p);
    assert TryReserve(l, p).reservations[l.nextId] == Bought(p);
  }

  lemma PaidFor(l: Ledger, p: ReserveParameters, cost: real, rate: real)
    requires LedgerOk(l) && ParametersOk(l, p) && Attempt(l, p).Some? && p.amount != 0.0
    requires ReservationCost(l, p).0 == cost && Rate(p.symbol, FundsKey(p).code, p.price) == rate
    ensures ValueOr0(TryReserve(l, p).diffs, FundsKey(p)) == ValueOr0(l.diffs, FundsKey(p)) - cost * rate
  {
    ReserveOutcome(l, p, FundsKey(p));
  }

  lemma FuturePaid(l: Ledger, p: ReserveParameters, virtual: real)
    requires InFutures(l, virtual) && p == ToBuyFuture(p.price, p.amount) && p.price > 0.0 && p.amount > 0.0
    requires ParametersOk(l, p) && Attempt(l, p).Some? && ReservationCost(l, p) == (p.amount, 0.0)
    ensures ValueOr0(TryReserve(l, p).diffs, FuturesKey()) == virtual - 1000.0 - p.amount * p.price
  {
    FutureParameters(l, p, virtual);
    FuturesRate(p.price);
    PaidFor(l, p, p.amount, p.price);
  }

  lemma StillNoNegative(l: Ledger, l': Ledger, p: ReserveParameters)
    requires TakesNoNegative(l) && l'.reservations == l.reservations[l.nextId := Bought(p)]
    ensures TakesNoNegative(l')
  {
  }

  lemma FutureStored(l: Ledger, p: ReserveParameters, virtual: real)
    requires InFutures(l, virtual) && p == ToBuyFuture(p.price, p.amount) && p.price > 0.0 && p.amount > 0.0
    requires p.amount * p.price <= 0.95 * virtual
    ensures ParametersOk(l, p) && Do(l, ReserveOp(p)) == Ok(TryReserve(l, p))
    ensures TryReserve(l, p).reservations == l.reservations[l.nextId := Bought(p)]
    ensures TryReserve(l, p).nextId == l.nextId + 1 && InFutures(TryReserve(l, p), virtual - p.amount * p.price)
  {
    FutureGranted(l, p, virtual);
    var l' := TryReserve(l, p);
    RightAfter(l, p);
    StoredBought(l, p);
    FuturePaid(l, p, virtual);
    StillNoNegative(l, l', p);
  }

  lemma StartInFutures()
    ensures InFutures(Start(), 1000.0)
  {
    StartIsRight(map[]);
  }

  function FutureOps(): seq<Op> {
    [ReserveOp(ToBuyFuture(100.0, 3.0))] + [ReserveOp(ToBuyFuture(200.0, 3.0))]
  }

  /** Three bought at a hundred and three at two hundred, after which a hundred dollars are left. */
  lemma TwoPrices() returns (l: Ledger)
    ensures Run(Start(), FutureOps()) == Ok(l) && InFutures(l, 100.0)
    ensures l.reservations == map[0 := Bought(ToBuyFuture(100.0, 3.0)), 1 := Bought(ToBuyFuture(200.0, 3.0))]
  {
    var p, q := ToBuyFuture(100.0, 3.0), ToBuyFuture(200.0, 3.0);
    StartInFutures();
    FutureStored(Start(), p, 1000.0);
    var l1 := TryReserve(Start(), p);
    RunNone(Start());
    RunMore(Start(), [], ReserveOp(p));
    assert [] + [ReserveOp(p)] == [ReserveOp(p)];
    FutureStored(l1, q, 700.0);
    RunMore(Start(), [ReserveOp(p)], ReserveOp(q));
    l := TryReserve(l1, q);
  }

  /** Two reservations of futures, the first at `low` and the second at `high`. */
  ghost predicate AtPrices(l: Ledger, src: ReservationId, dst: ReservationId, from: real, to: real) {
    && src in l.reservations && dst in l.reservations && src != dst && from > 0.0 && to > 0.0
    && l.reservations[src] == Bought(ToBuyFuture(from, 3.0)) && l.reservations[dst] == Bought(ToBuyFuture(to, 3.0))
  }

  lemma FutureExtra(r: Reservation, t: Reservation, from: real, to: real)
    requires from > 0.0 && to > 0.0
    requires r == Bought(ToBuyFuture(from, 3.0)) && t == Bought(ToBuyFuture(to, 3.0))
    ensures ReservationOk(r) && ReservationOk(t) && ExtraCost(r, t, 1.0) == to - from
  {
    FuturesRate(from);
    FuturesRate(to);
  }

  lemma FutureQuery(l: Ledger, t: Reservation, price: real, virtual: real)
    requires InFutures(l, virtual) && price > 0.0 && t == Bought(ToBuyFuture(price, 3.0))
    ensures ReservationOk(t) && QueryOk(l, FromReservation(t))
            && BalanceWithFree(l, FromReservation(t)) == Some(0.95 * virtual)
  {
    assert FromReservation(t) == ToBuyFuture(price, 0.0);
    FutureBalances(l, ToBuyFuture(price, 0.0), virtual);
  }

  lemma OneIsRound(symbol: Symbol)
    requires symbol == Future("btc")
    ensures RoundAmount(symbol, 1.0) == 1.0
  {
    RoundingKeepsGrid(100, 0.01);
    assert 100 as real * 0.01 == 1.0;
  }

  lemma BothBought(l: Ledger, src: ReservationId, dst: ReservationId, from: real, to: real)
    requires AtPrices(l, src, dst, from, to)
    ensures BothStored(l, src, dst) && Rounded(l, src, 1.0) == 1.0
  {
    OneIsRound(l.reservations[src].symbol);
  }

  /** With these funds one unit is moved exactly when ninety-five dollars cover the difference of the prices. */
  lemma MoveIff(l: Ledger, src: ReservationId, dst: ReservationId, from: real, to: real)
    requires InFutures(l, 100.0) && AtPrices(l, src, dst, from, to)
    ensures BothStored(l, src, dst) && (TransferActs(l, src, dst, 1.0) <==> 95.0 >= to - from)
  {
    BothBought(l, src, dst, from, to);
    FutureExtra(l.reservations[src], l.reservations[dst], from, to);
    FutureQuery(l, l.reservations[dst], to, 100.0);
    TransferActsIff(l, src, dst, 1.0);
  }

  lemma OneIsMoved(l: Ledger, src: ReservationId, dst: ReservationId)
    requires LedgerOk(l) && BothStored(l, src, dst) && src != dst && Rounded(l, src, 1.0) == 1.0
    requires TransferActs(l, src, dst, 1.0)
    requires var r, t := l.reservations[src], l.reservations[dst];
             r.symbol.tick == 1.0 == t.symbol.tick && r.amount != 0.0 && r.unreserved == 3.0 == t.unreserved
    ensures var o := Do(l, TransferOp(src, dst, 1.0, None));
            && o.Ok? && src in o.ledger.reservations && dst in o.ledger.reservations
            && o.ledger.reservations[src].unreserved == 2.0 && o.ledger.reservations[dst].unreserved == 4.0
  {
    var r, t := l.reservations[src], l.reservations[dst];
    SideMovesIff(r, -1.0, None, true, 0.0);
    var c := TransferSide(r, -1.0, None, true, 0.0).value;
    SideMovesIff(t, 1.0, None, false, -c.paid);
    TransferOutcome(l, src, dst, 1.0, None);
  }

  lemma BoughtThree(r: Reservation, price: real)
    requires r == Bought(ToBuyFuture(price, 3.0))
    ensures r.symbol.tick == 1.0 && r.amount == 3.0 == r.unreserved
  {
  }

  lemma MovedBack(l: Ledger, src: ReservationId, dst: ReservationId, from: real, to: real)
    requires InFutures(l, 100.0) && AtPrices(l, src, dst, from, to) && 95.0 >= to - from
    ensures var o := Do(l, TransferOp(src, dst, 1.0, None));
            && o.Ok? && src in o.ledger.reservations && dst in o.ledger.reservations
            && o.ledger.reservations[src].unreserved == 2.0 && o.ledger.reservations[dst].unreserved == 4.0
  {
    MoveIff(l, src, dst, from, to);
    BothBought(l, src, dst, from, to);
    BoughtThree(l.reservations[src], from);
    BoughtThree(l.reservations[dst], to);
    OneIsMoved(l, src, dst);
  }

  lemma NotMoved(l: Ledger, src: ReservationId, dst: ReservationId, from: real, to: real)
    requires InFutures(l, 100.0) && AtPrices(l, src, dst, from, to) && 95.0 < to - from
    ensures Do(l, TransferOp(src, dst, 1.0, None)) == Ok(l)
  {
    MoveIff(l, src, dst, from, to);
    BothBought(l, src, dst, from, to);
    FutureQuery(l, l.reservations[dst], to, 100.0);
    TransferOutcome(l, src, dst, 1.0, None);
  }

  /** From a hundred to two hundred a unit is not moved, because ninety-five dollars do not cover that; the other
      way it is. */
  lemma DearerRefusedCheaperGranted() returns (l: Ledger)
    ensures Run(Start(), FutureOps()) == Ok(l) && Right(l)
    ensures Do(l, TransferOp(0, 1, 1.0, None)) == Ok(l)
    ensures var o := Do(l, TransferOp(1, 0, 1.0, None));
            && o.Ok? && 0 in o.ledger.reservations && 1 in o.ledger.reservations
            && o.ledger.reservations[1].unreserved == 2.0 && o.ledger.reservations[0].unreserved == 4.0
  {
    l := TwoPrices();
    NotMoved(l, 0, 1, 100.0, 200.0);
    MovedBack(l, 1, 0, 200.0, 100.0);
  }

  // ---- a price update that is not covered ----

  lemma DearIs(r: Reservation)
    requires r == StoredFor(ToBuy(300.0, 3.0))
    ensures ReservationOk(r) && r.symbol == Spot() && r.code == "usd" && r.price == 300.0
    ensures r.notApproved == 3.0 && RestAmount(r) == 3.0
  {
    NothingCanceled(r);
  }

  lemma DearExtra(r: Reservation)
    requires ReservationOk(r) && r.symbol == Spot() && r.code == "usd" && r.price == 300.0
    requires r.notApproved == 3.0 && RestAmount(r) == 3.0
    ensures ExtraPrice(r, 400.0) == 300.0
  {
    CodesDiffer();
    assert Rate(r.symbol, r.code, 400.0) == 400.0 && Rate(r.symbol, r.code, 300.0) == 300.0;
  }

  lemma DearBalance(l: Ledger, p: ReserveParameters)
    requires SameMarkets(Start(), l) && VirtualBalance(l, ToBuy(300.0, 3.0)) == Some(100.0) && p == ToBuy(400.0, 0.0)
    ensures QueryOk(l, p) && BalanceWithFree(l, p) == Some(100.0)
  {
    SpotParametersOk(l, p);
    assert VirtualBalance(l, p) == Some(100.0);
    BalanceWithFreeIs(l, p);
  }

  lemma DearAgain(r: Reservation)
    requires r == StoredFor(ToBuy(300.0, 3.0))
    ensures FromReservation(r).(price := 400.0) == ToBuy(400.0, 0.0)
  {
  }

  /** The balance does not cover what a price update costs. */
  ghost predicate Uncovered(l: Ledger, id: ReservationId, p: ReserveParameters) {
    && LedgerOk(l) && p.price > 0.0 && id in l.reservations && ReservationOk(l.reservations[id])
    && p == FromReservation(l.reservations[id]).(price := p.price)
    && QueryOk(l, p) && BalanceWithFree(l, p).Some?
    && BalanceWithFree(l, p).value < ExtraPrice(l.reservations[id], p.price)
  }

  lemma UncoveredIsRefused(l: Ledger, id: ReservationId, p: ReserveParameters)
    requires Uncovered(l, id, p)
    ensures UpdatePrice(l, id, p.price) == Ok(l)
  {
    PriceOutcome(l, id, p.price);
  }

  lemma DearFacts(r: Reservation, p: ReserveParameters)
    requires r == StoredFor(ToBuy(300.0, 3.0)) && p == ToBuy(400.0, 0.0)
    ensures ReservationOk(r) && p.price > 0.0 && ExtraPrice(r, p.price) == 300.0
    ensures p == FromReservation(r).(price := p.price)
  {
    DearIs(r);
    DearExtra(r);
    DearAgain(r);
  }

  lemma DearIsUncovered(l: Ledger, r: Reservation, p: ReserveParameters)
    requires Right(l) && SameMarkets(Start(), l) && VirtualBalance(l, ToBuy(300.0, 3.0)) == Some(100.0)
    requires l.reservations == map[0 := r] && r == StoredFor(ToBuy(300.0, 3.0)) && p == ToBuy(400.0, 0.0)
    ensures Uncovered(l, 0, p)
  {
    DearFacts(r, p);
    DearBalance(l, p);
    UncoveredWhen(l, 0, r, p, 100.0, 300.0);
  }

  lemma UncoveredWhen(l: Ledger, id: ReservationId, r: Reservation, p: ReserveParameters, balance: real, extra: real)
    requires LedgerOk(l) && id in l.reservations && l.reservations[id] == r && ReservationOk(r) && p.price > 0.0
    requires p == FromReservation(r).(price := p.price) && QueryOk(l, p) && BalanceWithFree(l, p) == Some(balance)
    requires ExtraPrice(r, p.price) == extra && balance < extra
    ensures Uncovered(l, id, p)
  {
  }

  lemma DearCost()
    ensures ConvertFromAmount(Spot(), Spot().TradeCodeBefore(Buy), 3.0, 300.0) == 900.0
  {
    CodesDiffer();
  }

  /** Three coins are bought for nine hundred dollars; raising the price by a hundred would cost three hundred
      more than the hundred that are left cover, so nothing changes. */
  lemma PriceUpdateRefused() returns (l: Ledger)
    ensures Run(Start(), [ReserveOp(ToBuy(300.0, 3.0))]) == Ok(l) && Right(l) && 0 in l.reservations
    ensures Do(l, PriceOp(0, 400.0)) == Ok(l)
  {
    DearCost();
    OneStored(ToBuy(300.0, 3.0), 900.0);
    l := TryReserve(Start(), ToBuy(300.0, 3.0));
    DearIsUncovered(l, StoredFor(ToBuy(300.0, 3.0)), ToBuy(400.0, 0.0));
    UncoveredIsRefused(l, 0, ToBuy(400.0, 0.0));
  }
}
