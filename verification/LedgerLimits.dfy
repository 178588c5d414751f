/** What reservations can never exceed: the amount limits and the open position. */
module LedgerLimits {
  import opened Domain
  import opened Sums
  import opened Symbols
  import opened ReservationLedger
  import opened LedgerIndex
  import opened LedgerBalance

  // ---- nothing negative is reserved ----

  predicate NoNegative(l: Ledger) {
    forall id :: id in l.reservations ==> l.reservations[id].unreserved >= 0.0
  }

  predicate AfterNotNegative(change: Change) {
    change.after.Some? ==> change.after.value.unreserved >= 0.0
  }

  lemma ApplyNoNegative(l: Ledger, id: ReservationId, r: Reservation, change: Change)
    requires ReservationOk(r) && NoNegative(l) && AfterNotNegative(change)
    ensures NoNegative(ApplyChange(l, id, r, change))
  {
  }

  lemma PutNoNegative(l: Ledger, id: ReservationId, r: Reservation)
    requires NoNegative(l) && r.unreserved >= 0.0
    ensures NoNegative(Put(l, id, r))
  {
  }

  lemma ApplyMoves(l: Ledger, id: ReservationId, r: Reservation, change: Change, request: BalanceRequest)
    requires ReservationOk(r)
    ensures ValueOr0(ApplyChange(l, id, r, change).reserved, request) ==
            ValueOr0(l.reserved, request) + if request == RequestOf(r) then change.moved else 0.0
  {
  }

  lemma RoundingKeepsSign(value: real, unit: real)
    requires unit > 0.0 && value >= 0.0
    ensures RoundToNearest(value, unit) >= 0.0
  {
    var floor := (value / unit).Floor;
    assert floor >= 0;
    Scaled(0.0, floor as real, unit);
    RoundDownBounds(-value, unit);
  }

  lemma UnreserveTakesAway(r: Reservation, amount: real, order: Option<ClientOrderId>)
    requires ReservationOk(r) && EmptyOk(r) && r.unreserved >= 0.0 && amount >= 0.0
             && UnreserveRounded(r, amount, order).Changed?
    ensures var c := UnreserveRounded(r, amount, order).change; c.moved <= 0.0 && AfterNotNegative(c)
  {
    UnreserveMovesExactly(r, amount, order);
  }

  /** Unreserving non-negative amounts never raises what is reserved and leaves nothing negative. */
  lemma UnreserveLowers(l: Ledger, id: ReservationId, amount: real, order: Option<ClientOrderId>,
                        request: BalanceRequest)
    requires LedgerOk(l) && NoNegative(l) && amount >= 0.0 && Unreserve(l, id, amount, order).Returns()
    ensures var l' := Unreserve(l, id, amount, order).ledger;
            NoNegative(l') && ValueOr0(l'.reserved, request) <= ValueOr0(l.reserved, request)
  {
    if id in l.reservations {
      var r := l.reservations[id];
      assert StoredOk(id, l.nextId, r);
      if UnreserveActs(l, r, amount) {
        var rounded := RoundAmount(r.symbol, amount);
        assert rounded >= 0.0 by {
          RoundingKeepsSign(amount, Unit(r.symbol));
        }
        var u := UnreserveRounded(r, rounded, order);
        assert !u.Abandoned? && (u.Failed? ==> u.kept.unreserved >= 0.0) by {
          UnreserveMovesExactly(r, rounded, order);
        }
        match u
        case Failed(kept) =>
          PutNoNegative(l, id, kept);
        case Changed(change) =>
          assert change.moved <= 0.0 && AfterNotNegative(change) by {
            UnreserveTakesAway(r, rounded, order);
          }
          ApplyNoNegative(l, id, r, change);
          ApplyMoves(l, id, r, change, request);
      }
    }
  }

  lemma ApproveNoNegative(l: Ledger, id: ReservationId, order: ClientOrderId, amount: real)
    requires NoNegative(l)
    ensures NoNegative(Approve(l, id, order, amount).ledger)
            && Approve(l, id, order, amount).ledger.reserved == l.reserved
  {
    if id in l.reservations && order !in l.reservations[id].parts {
      PutNoNegative(l, id, ApproveOn(l.reservations[id], order, amount).0);
    }
  }

  lemma CancelNoNegative(l: Ledger, id: ReservationId, order: ClientOrderId)
    requires NoNegative(l) && CancelApproved(l, id, order).Returns()
    ensures NoNegative(CancelApproved(l, id, order).ledger)
            && CancelApproved(l, id, order).ledger.reserved == l.reserved
  {
    if id in l.reservations && order in l.reservations[id].parts {
      PutNoNegative(l, id, CancelOn(l.reservations[id], order));
    }
  }

  /** A transfer within one request moves no reserved amount, whatever residues it drops. */
  lemma TransferKeepsReserved(l: Ledger, src: ReservationId, dst: ReservationId, amount: real,
                              order: Option<ClientOrderId>,
                              request: BalanceRequest)
    requires LedgerOk(l) && NoNegative(l) && Transferable(l, src, dst) && TransferAmount(l, src, dst, amount, order).Ok?
    ensures var l' := TransferAmount(l, src, dst, amount, order).ledger;
            NoNegative(l') && ValueOr0(l'.reserved, request) == ValueOr0(l.reserved, request)
  {
    var c, d, t := TransferShape(l, src, dst, amount, order);
    var r := l.reservations[src];
    var l1 := ApplyChange(l, src, r, c);
    assert RequestOf(t) == RequestOf(r) && c.moved + d.moved == 0.0 && AfterNotNegative(c) && AfterNotNegative(d);
    ApplyNoNegative(l, src, r, c);
    ApplyNoNegative(l1, dst, t, d);
    ApplyMoves(l, src, r, c, request);
    ApplyMoves(l1, dst, t, d, request);
  }

  // ---- the amount limit ----

  function MarketOfRequest(q: BalanceRequest): MarketAccountId {
    MarketAccountId(q.account, q.pair)
  }

  /** The position seen from a request: its currency tells the side. */
  function RequestPosition(l: Ledger, q: BalanceRequest): real {
    if MarketOfRequest(q) !in l.symbols then 0.0
    else
      var symbol := l.symbols[MarketOfRequest(q)];
      if symbol.isDerivative == (q.code == symbol.base) then -Position(l, MarketOfRequest(q))
          else Position(l, MarketOfRequest(q))
  }

  /** Position and reserved amount together stay below the limit, or below the position if that is
      already beyond it. */
  predicate WithinLimit(l: Ledger, q: BalanceRequest) {
    q in l.limits ==>
      ValueOr0(l.reserved, q) + RequestPosition(l, q) <= Max(l.limits[q], Abs(RequestPosition(l, q)))
  }

  lemma LimitGuards(l: Ledger, p: ReserveParameters)
    requires ParametersOk(l, p) && CanReserveWithLimit(l, p) && ParametersRequest(p) in l.limits
    ensures var q := ParametersRequest(p);
            ValueOr0(l.reserved, q) + p.amount + RequestPosition(l, q) <= Max(l.limits[q], Abs(RequestPosition(l, q)))
  {
  }

  lemma StoreMoves(l: Ledger, attempt: Reservation, request: BalanceRequest)
    requires LedgerOk(l) && ReservationOk(attempt)
    ensures ValueOr0(Store(l, Some(attempt)).reserved, request) ==
            ValueOr0(l.reserved, request) + if request == RequestOf(attempt) then attempt.amount else 0.0
  {
    ApplyMoves(l.(nextId := l.nextId + 1), l.nextId, attempt, ReserveChange(attempt), request);
  }

  lemma StoreNoNegative(l: Ledger, attempt: Reservation)
    requires LedgerOk(l) && ReservationOk(attempt) && NoNegative(l) && attempt.amount >= 0.0
    ensures NoNegative(Store(l, Some(attempt)))
  {
    ApplyNoNegative(l.(nextId := l.nextId + 1), l.nextId, attempt, ReserveChange(attempt));
  }

  lemma SameLimit(l: Ledger, l': Ledger, q: BalanceRequest)
    requires SameMarkets(l, l') && WithinLimit(l, q) && ValueOr0(l'.reserved, q) <= ValueOr0(l.reserved, q)
    ensures WithinLimit(l', q)
  {
  }

  lemma AttemptIsGuarded(l: Ledger, p: ReserveParameters)
    requires ParametersOk(l, p) && Attempt(l, p).Some?
    ensures CanReserveWithLimit(l, p) && RequestOf(Attempt(l, p).value) == ParametersRequest(p)
            && Attempt(l, p).value.amount == p.amount
  {
  }

  lemma StoreWithinLimit(l: Ledger, l': Ledger, p: ReserveParameters, q: BalanceRequest)
    requires ParametersOk(l, p) && CanReserveWithLimit(l, p) && SameMarkets(l, l') && WithinLimit(l, q)
    requires ValueOr0(l'.reserved, q) == ValueOr0(l.reserved, q) + (if q == ParametersRequest(p) then p.amount else 0.0)
    ensures WithinLimit(l', q)
  {
    if q == ParametersRequest(p) && q in l.limits {
      LimitGuards(l, p);
    }
  }

  /** A reservation is only made within the limit. */
  lemma ReserveWithinLimit(l: Ledger, p: ReserveParameters, q: BalanceRequest)
    requires LedgerOk(l) && ParametersOk(l, p) && WithinLimit(l, q)
    ensures WithinLimit(TryReserve(l, p), q)
    ensures NoNegative(l) && p.amount >= 0.0 ==> NoNegative(TryReserve(l, p))
  {
    var attempt := Attempt(l, p);
    if attempt.Some? {
      var l' := Store(l, attempt);
      AttemptIsGuarded(l, p);
      assert ValueOr0(l'.reserved, q) == ValueOr0(l.reserved, q) + (if q == ParametersRequest(p) then p.amount
          else 0.0) by {
        StoreMoves(l, attempt.value, q);
      }
      if NoNegative(l) && p.amount >= 0.0 {
        StoreNoNegative(l, attempt.value);
      }
      StoreWithinLimit(l, l', p, q);
    }
  }

  // ---- the open position ----

  function TakenIn(market: MarketAccountId, side: OrderSide): Reservation -> real {
    (r: Reservation) => if r.side == side && MarketAccountId(r.account, r.symbol.Pair()) == market then r.takenFree
        else 0.0
  }

  function TakenElsewhere(market: MarketAccountId, side: OrderSide): Reservation -> real {
    (r: Reservation) => if r.side == side && MarketAccountId(r.account, r.symbol.Pair()) != market then r.takenFree
        else 0.0
  }

  ghost function Pledged(l: Ledger, market: MarketAccountId, side: OrderSide): real {
    Total(l.reservations, TakenIn(market, side))
  }

  predicate TakesNoNegative(l: Ledger) {
    forall id :: id in l.reservations ==> l.reservations[id].takenFree >= 0.0
  }

  /** The open position that stands against a side. */
  function OpenAgainst(l: Ledger, market: MarketAccountId, side: OrderSide): real {
    Max(0.0, if side.Buy? then -Position(l, market) else Position(l, market))
  }

  /** The open position is never pledged twice. */
  ghost predicate PledgesCovered(l: Ledger, market: MarketAccountId, side: OrderSide) {
    Pledged(l, market, side) <= OpenAgainst(l, market, side)
  }

  lemma SplitByMarket(m: map<ReservationId, Reservation>, market: MarketAccountId, side: OrderSide)
    ensures Total(m, TakenBySide(side)) == Total(m, TakenIn(market, side)) + Total(m, TakenElsewhere(market, side))
  {
    TotalAdds(m, TakenBySide(side), TakenIn(market, side), TakenElsewhere(market, side));
  }

  lemma PledgesNotNegative(l: Ledger, market: MarketAccountId, side: OrderSide)
    requires TakesNoNegative(l)
    ensures Pledged(l, market, side) >= 0.0 && Total(l.reservations, TakenElsewhere(market, side)) >= 0.0
  {
    TotalNonNegative(l.reservations, TakenIn(market, side));
    TotalNonNegative(l.reservations, TakenElsewhere(market, side));
  }

  /** What a market has free is its open position less what is pledged, exactly when nothing is pledged
      on that side in any other market or nothing would be free anyway. */
  lemma FreePositionIff(l: Ledger, market: MarketAccountId, symbol: Symbol, side: OrderSide)
    requires TakesNoNegative(l) && symbol.Pair() == market.pair
    ensures var closable := ClosablePosition(l, market.account, symbol, side);
            FreePosition(l, market.account, symbol, side) == Max(0.0, closable - Pledged(l, market, side))
            <==> Total(l.reservations, TakenElsewhere(market, side)) == 0.0 || closable <= Pledged(l, market, side)
  {
    SplitByMarket(l.reservations, market, side);
    PledgesNotNegative(l, market, side);
  }

  lemma CostTakes(l: Ledger, p: ReserveParameters)
    requires ParametersOk(l, p) && p.amount >= 0.0
    ensures var taken := ReservationCost(l, p).1;
            && 0.0 <= taken <= p.amount
            && (!p.symbol.isDerivative ==> taken == 0.0)
            && (p.symbol.isDerivative ==> taken <= FreePosition(l, p.account, p.symbol, p.side))
  {
  }

  lemma Cancels(x: real, leverage: real)
    requires leverage > 0.0
    ensures x / leverage * leverage == x
  {
  }

  /** What is not covered by the open position is paid for at the leverage of the market, and the position
      is used as far as it goes. */
  lemma CostIsForTheRest(l: Ledger, p: ReserveParameters)
    requires ParametersOk(l, p) && p.symbol.isDerivative
    ensures var (cost, taken) := ReservationCost(l, p);
            && taken == Min(p.amount, FreePosition(l, p.account, p.symbol, p.side))
            && cost * l.leverages[MarketOf(p)] == (p.amount - taken) * p.symbol.amountMultiplier
  {
    var toPayFor := Max(0.0, p.amount - FreePosition(l, p.account, p.symbol, p.side));
    Cancels(toPayFor * p.symbol.amountMultiplier, l.leverages[MarketOf(p)]);
  }

  /** An order of a side closes exactly the part of the position that stands against that side. */
  lemma ClosableIsOpposite(l: Ledger, side: OrderSide, market: MarketAccountId)
    requires market in l.symbols && l.symbols[market].Pair() == market.pair
    requires l.symbols[market].isDerivative && l.symbols[market].base != l.symbols[market].quote
    ensures ClosablePosition(l, market.account, l.symbols[market], side) == OpenAgainst(l, market, side)
    ensures OpenAgainst(l, market, side) == Max(0.0, -SignedPosition(l, market, side))
    ensures SignedPosition(l, market, Buy) == -SignedPosition(l, market, Sell)
  {
  }

  /** Without a derivative there is no position to close, and an open position is what was reported. */
  lemma PositionIs(l: Ledger, market: MarketAccountId, symbol: Symbol, side: OrderSide)
    ensures !symbol.isDerivative ==> ClosablePosition(l, market.account, symbol, side) == 0.0
    ensures market in l.positions ==> Position(l, market) == l.positions[market]
    ensures market !in l.positions ==> OpenAgainst(l, market, side) == 0.0
  {
  }

  /** What a new reservation takes is still free in its own market. */
  lemma TakenIsFree(l: Ledger, p: ReserveParameters)
    requires ParametersOk(l, p) && p.amount >= 0.0 && TakesNoNegative(l) && PledgesCovered(l, MarketOf(p), p.side)
    ensures Pledged(l, MarketOf(p), p.side) + ReservationCost(l, p).1 <= OpenAgainst(l, MarketOf(p), p.side)
  {
    assert Total(l.reservations, TakenBySide(p.side)) >= Pledged(l, MarketOf(p), p.side) by {
      SplitByMarket(l.reservations, MarketOf(p), p.side);
      PledgesNotNegative(l, MarketOf(p), p.side);
    }
    var taken := ReservationCost(l, p).1;
    assert taken <= Max(0.0, ClosablePosition(l, p.account, p.symbol, p.side) - Total(l.reservations,
        TakenBySide(p.side)))
      || taken == 0.0 by {
      CostTakes(l, p);
    }
  }

  lemma StorePledges(l: Ledger, r: Reservation, market: MarketAccountId, side: OrderSide)
    requires LedgerOk(l) && ReservationOk(r)
    ensures Pledged(Store(l, Some(r)), market, side) == Pledged(l, market, side) + TakenIn(market, side)(r)
    ensures TakesNoNegative(l) && r.takenFree >= 0.0 ==> TakesNoNegative(Store(l, Some(r)))
  {
    BumpKeepsOk(l);
    TotalPut(l.reservations, TakenIn(market, side), l.nextId, r.(unreserved := r.amount));
  }

  lemma AttemptTakes(l: Ledger, p: ReserveParameters, market: MarketAccountId, side: OrderSide)
    requires ParametersOk(l, p) && Attempt(l, p).Some?
    ensures Attempt(l, p).value.takenFree == ReservationCost(l, p).1
    ensures TakenIn(market, side)(Attempt(l, p).value) ==
            if side == p.side && market == MarketOf(p) then ReservationCost(l, p).1 else 0.0
  {
  }

  lemma ReserveKeepsCover(l: Ledger, p: ReserveParameters, market: MarketAccountId, side: OrderSide)
    requires LedgerOk(l) && ParametersOk(l, p) && p.amount >= 0.0 && TakesNoNegative(l)
             && PledgesCovered(l, market, side)
    ensures PledgesCovered(TryReserve(l, p), market, side) && TakesNoNegative(TryReserve(l, p))
  {
    var attempt := Attempt(l, p);
    if attempt.Some? {
      var l', taken := Store(l, attempt), ReservationCost(l, p).1;
      assert Pledged(l', market, side) == Pledged(l, market, side) + (if side == p.side && market == MarketOf(p)
          then taken else 0.0)
        && TakesNoNegative(l') by {
        AttemptTakes(l, p, market, side);
        CostTakes(l, p);
        StorePledges(l, attempt.value, market, side);
      }
      CoverStays(l, l', p, market, side);
    }
  }

  lemma CoverStays(l: Ledger, l': Ledger, p: ReserveParameters, market: MarketAccountId, side: OrderSide)
    requires ParametersOk(l, p) && p.amount >= 0.0 && TakesNoNegative(l) && PledgesCovered(l, market, side)
             && SameMarkets(l, l')
    requires Pledged(l', market, side) ==
             Pledged(l, market, side) + if side == p.side && market == MarketOf(p) then ReservationCost(l, p).1 else 0.0
    ensures PledgesCovered(l', market, side)
  {
    assert OpenAgainst(l', market, side) == OpenAgainst(l, market, side);
    if side == p.side && market == MarketOf(p) {
      TakenIsFree(l, p);
    }
  }

  /** A change keeps or removes what its reservation has taken. */
  lemma ApplyKeepsCover(l: Ledger, id: ReservationId, r: Reservation, change: Change, market: MarketAccountId,
                        side: OrderSide)
    requires ReservationOk(r) && KeepsTerms(r, change) && id in l.reservations && SameTerms(r, l.reservations[id])
    requires TakesNoNegative(l) && PledgesCovered(l, market, side)
    ensures PledgesCovered(ApplyChange(l, id, r, change), market, side)
            && TakesNoNegative(ApplyChange(l, id, r, change))
  {
    ApplyTotal(l, id, r, change, TakenIn(market, side));
  }

  lemma PutKeepsCover(l: Ledger, id: ReservationId, r: Reservation, market: MarketAccountId, side: OrderSide)
    requires id in l.reservations && SameTerms(l.reservations[id], r) && TakesNoNegative(l)
             && PledgesCovered(l, market, side)
    ensures PledgesCovered(Put(l, id, r), market, side) && TakesNoNegative(Put(l, id, r))
  {
    TotalPut(l.reservations, TakenIn(market, side), id, r);
  }

  lemma UnreserveKeepsCover(l: Ledger, id: ReservationId, amount: real, order: Option<ClientOrderId>,
                            market: MarketAccountId, side: OrderSide)
    requires LedgerOk(l) && TakesNoNegative(l) && PledgesCovered(l, market, side)
             && Unreserve(l, id, amount, order).Returns()
    ensures var l' := Unreserve(l, id, amount, order).ledger; PledgesCovered(l', market, side) && TakesNoNegative(l')
  {
    if id in l.reservations {
      var r := l.reservations[id];
      assert StoredOk(id, l.nextId, r);
      if UnreserveActs(l, r, amount) {
        match UnreserveRounded(r, RoundAmount(r.symbol, amount), order)
        case Failed(kept) => PutKeepsCover(l, id, kept, market, side);
        case Abandoned(change) => ApplyKeepsCover(l, id, r, change, market, side);
        case Changed(change) => ApplyKeepsCover(l, id, r, change, market, side);
      }
    }
  }

  lemma ApproveKeepsCover(l: Ledger, id: ReservationId, order: ClientOrderId, amount: real, market: MarketAccountId,
                          side: OrderSide)
    requires TakesNoNegative(l) && PledgesCovered(l, market, side)
    ensures var l' := Approve(l, id, order, amount).ledger; PledgesCovered(l', market, side) && TakesNoNegative(l')
  {
    if id in l.reservations && order !in l.reservations[id].parts {
      PutKeepsCover(l, id, ApproveOn(l.reservations[id], order, amount).0, market, side);
    }
  }

  lemma CancelKeepsCover(l: Ledger, id: ReservationId, order: ClientOrderId, market: MarketAccountId, side: OrderSide)
    requires TakesNoNegative(l) && PledgesCovered(l, market, side) && CancelApproved(l, id, order).Returns()
    ensures var l' := CancelApproved(l, id, order).ledger; PledgesCovered(l', market, side) && TakesNoNegative(l')
  {
    if id in l.reservations && order in l.reservations[id].parts {
      PutKeepsCover(l, id, CancelOn(l.reservations[id], order), market, side);
    }
  }

  lemma TransferKeepsCover(l: Ledger, src: ReservationId, dst: ReservationId, amount: real,
                           order: Option<ClientOrderId>,
                           market: MarketAccountId, side: OrderSide)
    requires LedgerOk(l) && TransferAmount(l, src, dst, amount, order).Ok?
    requires TakesNoNegative(l) && PledgesCovered(l, market, side)
    ensures var l' := TransferAmount(l, src, dst, amount, order).ledger;
            PledgesCovered(l', market, side) && TakesNoNegative(l')
  {
    var c, d, t := TransferShape(l, src, dst, amount, order);
    var r := l.reservations[src];
    var l1 := ApplyChange(l, src, r, c);
    ApplyKeepsCover(l, src, r, c, market, side);
    ApplyKeepsCover(l1, dst, t, d, market, side);
  }
}
