/** Concrete runs, from a ledger without reservations, after which the laws of reservations fail as far as
    they can. */
module LedgerWitnesses {
  import opened Domain
  import opened Sums
  import opened Symbols
  import opened ReservationLedger
  import opened LedgerIndex
  import opened LedgerBalance
  import opened LedgerTransfers
  import opened LedgerRollback
  import opened LedgerParts
  import opened LedgerLimits
  import opened LedgerPrices
  import opened LedgerRuns
  import opened LedgerFunds

  /** A spot market with a tick of one: the margin is 0.01. */
  function Spot(): Symbol {
    Symbol(false, "btc", "usd", "btc", None, 1.0, 1.0)
  }

  function Future(base: CurrencyCode): Symbol {
    Symbol(true, base, "usd", base, Some("usd"), 1.0, 1.0)
  }

  function Config(): ConfigurationDescriptor {
    ConfigurationDescriptor("service", "key")
  }

  function MarketFor(base: CurrencyCode): MarketAccountId {
    MarketAccountId("a", CurrencyPair(base, "usd"))
  }

  /** Nothing reserved, one coin and a thousand dollars in the account. */
  function Funded(positions: map<MarketAccountId, real>): Ledger {
    Ledger(map[], 0, map[], map[], map[], positions, map["a" := map["btc" := 1.0, "usd" := 1000.0]],
        map[MarketFor("btc") := 1.0, MarketFor("eth") := 1.0], map[], {"a"}, false)
  }

  function Start(): Ledger {
    Funded(map[])
  }

  function ToSell(amount: real): ReserveParameters {
    ReserveParameters(Config(), "a", Spot(), Sell, 1.0, amount)
  }

  function ToBuy(price: real, amount: real): ReserveParameters {
    ReserveParameters(Config(), "a", Spot(), Buy, price, amount)
  }

  /** What is stored for a request in the spot market. */
  function StoredFor(p: ReserveParameters): Reservation {
    NewReservation(p, p.amount, 0.0).(unreserved := p.amount)
  }

  lemma Hundredths(k: int)
    ensures RoundAmount(Spot(), k as real * 0.01) == k as real * 0.01
  {
    RoundingKeepsGrid(k, 0.01);
  }

  lemma CodesDiffer()
    ensures "usd" != "btc" && "eth" != "btc"
  {
    assert "usd"[0] != "btc"[0] && "eth"[0] != "btc"[0];
  }

  // ---- runs from the start are right ----

  /** Index and balances are exactly what the stored reservations account for. */
  ghost predicate Right(l: Ledger) {
    && LedgerOk(l)
    && (forall q :: Drift(l, q) == 0.0)
    && (forall key :: Surplus(l, key) == 0.0)
  }

  predicate NoMove(op: Op) {
    !op.TransferOp? && !op.PriceOp?
  }

  lemma {:induction false} AlwaysWithoutMoves(l: Ledger, ops: seq<Op>)
    requires LedgerOk(l) && Run(l, ops).Returns() && forall op :: op in ops ==> NoMove(op)
    ensures Always(l, ops, IndexGood) && Always(l, ops, MoneyGood)
    decreases |ops|
  {
    if ops != [] {
      var n := |ops| - 1;
      assert ops[n] in ops;
      AlwaysWithoutMoves(l, ops[..n]);
    }
  }

  lemma StartIsRight(positions: map<MarketAccountId, real>)
    ensures Right(Funded(positions))
  {
  }

  /** Every run of calls other than transfers and price updates leaves a right ledger. */
  lemma RunIsRight(l: Ledger, ops: seq<Op>)
    requires Right(l) && Run(l, ops).Returns() && forall op :: op in ops ==> NoMove(op)
    ensures Right(Run(l, ops).ledger)
  {
    var l' := Run(l, ops).ledger;
    AlwaysWithoutMoves(l, ops);
    forall q ensures Drift(l', q) == 0.0 {
      RunKeepsIndex(l, ops, q);
    }
    forall key ensures Surplus(l', key) == 0.0 {
      RunConservesMoney(l, ops, key);
    }
  }

  lemma RunNone(l: Ledger)
    requires LedgerOk(l)
    ensures Run(l, []) == Ok(l)
  {
  }

  lemma RunMore(l: Ledger, ops: seq<Op>, op: Op)
    requires LedgerOk(l) && Run(l, ops).Returns() && Do(Run(l, ops).ledger, op).Returns()
    ensures Run(l, ops + [op]) == Do(Run(l, ops).ledger, op)
  {
    assert (ops + [op])[..|ops|] == ops;
  }

  // ---- reserving in the spot market ----

  ghost predicate InSpot(l: Ledger, p: ReserveParameters, balance: real) {
    && LedgerOk(l) && SameMarkets(Start(), l) && p.symbol == Spot() && p.account == "a" && p.price > 0.0
    && VirtualBalance(l, p) == Some(balance)
  }

  lemma SpotParametersOk(l: Ledger, p: ReserveParameters)
    requires SameMarkets(Start(), l) && p.symbol == Spot() && p.account == "a" && p.price > 0.0
    ensures ParametersOk(l, p)
  {
    assert MarketOf(p) == MarketFor("btc");
  }

  lemma SpotBalanceIs(l: Ledger, p: ReserveParameters, balance: real)
    requires InSpot(l, p, balance)
    ensures ParametersOk(l, p) && AvailableBalance(l, p) == balance && ReservationCost(l, p) == (p.amount, 0.0)
  {
    SpotParametersOk(l, p);
  }

  lemma GrantedWhenCovered(l: Ledger, p: ReserveParameters, cost: real, taken: real, balance: real)
    requires ParametersOk(l, p) && ParametersRequest(p) !in l.limits && ReservationCost(l, p) == (cost, taken)
    requires AvailableBalance(l, p) == balance
    requires balance >= ConvertFromAmount(p.symbol, p.symbol.TradeCodeBefore(p.side), cost, p.price)
    ensures Attempt(l, p) == Some(NewReservation(p, cost, taken))
  {
    RoundingKeepsSign(balance - ConvertFromAmount(p.symbol, p.symbol.TradeCodeBefore(p.side), cost, p.price),
        Unit(p.symbol));
  }

  /** A request that the balance covers is granted and stored. */
  lemma SpotStored(l: Ledger, p: ReserveParameters, balance: real, cost: real)
    requires InSpot(l, p, balance) && cost == ConvertFromAmount(Spot(), p.symbol.TradeCodeBefore(p.side), p.amount,
                 p.price)
    requires balance >= cost
    ensures ParametersOk(l, p) && Attempt(l, p).Some? && Do(l, ReserveOp(p)) == Ok(TryReserve(l, p))
    ensures var l' := TryReserve(l, p);
            && l'.reservations == l.reservations[l.nextId := StoredFor(p)] && l'.nextId == l.nextId + 1
            && LedgerOk(l') && SameMarkets(Start(), l') && VirtualBalance(l', p) == Some(balance - cost)
  {
    SpotBalanceIs(l, p, balance);
    GrantedWhenCovered(l, p, p.amount, 0.0, balance);
    SpotNeverOverdraws(l, p, balance);
  }

  lemma StartBalances(p: ReserveParameters)
    requires p.symbol == Spot() && p.account == "a" && p.price > 0.0
    ensures InSpot(Start(), p, if p.side.Sell? then 1.0 else 1000.0)
  {
    CodesDiffer();
  }

  /** The run of one request. */
  lemma OneStored(p: ReserveParameters, cost: real)
    requires p.symbol == Spot() && p.account == "a" && p.price > 0.0
    requires cost == ConvertFromAmount(Spot(), p.symbol.TradeCodeBefore(p.side), p.amount, p.price)
    requires cost <= if p.side.Sell? then 1.0 else 1000.0
    ensures Run(Start(), [ReserveOp(p)]) == Ok(TryReserve(Start(), p))
    ensures var l := TryReserve(Start(), p);
            && Right(l) && SameMarkets(Start(), l) && l.reservations == map[0 := StoredFor(p)] && l.nextId == 1
            && VirtualBalance(l, p) == Some((if p.side.Sell? then 1.0 else 1000.0) - cost)
  {
    StartBalances(p);
    SpotStored(Start(), p, if p.side.Sell? then 1.0 else 1000.0, cost);
    RunNone(Start());
    RunMore(Start(), [], ReserveOp(p));
    assert [] + [ReserveOp(p)] == [ReserveOp(p)];
    StartIsRight(map[]);
    RunIsRight(Start(), [ReserveOp(p)]);
  }

  lemma SellCost(amount: real)
    ensures ConvertFromAmount(Spot(), Spot().TradeCodeBefore(Sell), amount, 1.0) == amount
  {
  }

  lemma SellBalance(l: Ledger, amount: real, other: real)
    ensures VirtualBalance(l, ToSell(amount)) == VirtualBalance(l, ToSell(other))
  {
  }

  // ---- a transfer that forgets a residue ----

  function ResidueOps(): seq<Op> {
    [ReserveOp(ToSell(0.11))] + [ReserveOp(ToSell(0.1))]
  }

  /** After two requests to sell 0.11 and 0.1. */
  lemma ResidueLedger() returns (l: Ledger)
    ensures Run(Start(), ResidueOps()) == Ok(l) && Right(l)
    ensures l.reservations == map[0 := StoredFor(ToSell(0.11)), 1 := StoredFor(ToSell(0.1))]
  {
    var first := [ReserveOp(ToSell(0.11))];
    SellCost(0.11);
    OneStored(ToSell(0.11), 0.11);
    var l1 := Run(Start(), first).ledger;
    SellBalance(l1, 0.11, 0.1);
    SellCost(0.1);
    SpotStored(l1, ToSell(0.1), 0.89, 0.1);
    RunMore(Start(), first, ReserveOp(ToSell(0.1)));
    l := TryReserve(l1, ToSell(0.1));
    StartIsRight(map[]);
    RunIsRight(Start(), ResidueOps());
  }

  /** A transfer, at one price, of what is there and not approved. */
  lemma PlainTransferActs(l: Ledger, src: ReservationId, dst: ReservationId, amount: real)
    requires LedgerOk(l) && BothStored(l, src, dst) && src != dst && amount > 0.0 && Rounded(l, src, amount) == amount
    requires var r, t := l.reservations[src], l.reservations[dst];
             r.price == t.price && r.unreserved >= amount && r.amount != 0.0 && t.unreserved >= 0.0
    ensures Moves(l, TransferOp(src, dst, amount, None)) && Do(l, TransferOp(src, dst, amount, None)).Ok?
  {
    var r, t := l.reservations[src], l.reservations[dst];
    assert TransferSide(r, -amount, None, true, 0.0).Some?;
    assert TransferSide(t, amount, None, false, -TransferSide(r, -amount, None, true, 0.0).value.paid).Some?;
  }

  /** Two untouched reservations of one price, of which the first keeps 0.01, within the margin, when `amount` is
      moved to the second. */
  ghost predicate LeavesHundredth(r: Reservation, t: Reservation, amount: real) {
    && SameSource(r, t) && ReservationOk(r) && ReservationOk(t) && BalanceKey(r) == RequestOf(r)
    && r.price == t.price && RequestOf(r) == RequestOf(t) && PriceRate(r) == 1.0
    && amount > 0.0 && RoundAmount(r.symbol, amount) == amount
    && r.unreserved == amount + 0.01 && WithinMargin(r.symbol, 0.01) && r.amount != 0.0 && CostRate(r) == 1.0
    && t.unreserved == t.amount && t.amount > 0.0 && !WithinMargin(t.symbol, t.unreserved + amount)
  }

  lemma SoldIs(amount: real)
    requires amount > 0.0
    ensures var r := StoredFor(ToSell(amount)); ReservationOk(r) && CostRate(r) == 1.0 && PriceRate(r) == 1.0
  {
    assert amount / amount == 1.0;
  }

  lemma ElevenAndTen()
    ensures LeavesHundredth(StoredFor(ToSell(0.11)), StoredFor(ToSell(0.1)), 0.1)
  {
    Hundredths(10);
    assert 10 as real * 0.01 == 0.1;
    SoldIs(0.11);
    SoldIs(0.1);
  }

  lemma HundredthShifts(l: Ledger, src: ReservationId, dst: ReservationId, amount: real)
    requires LedgerOk(l) && src in l.reservations && dst in l.reservations && src != dst
    requires LeavesHundredth(l.reservations[src], l.reservations[dst], amount)
    ensures Do(l, TransferOp(src, dst, amount, None)).Ok? && FairTransfer(l.reservations, src, dst, amount)
    ensures var op, q := TransferOp(src, dst, amount, None), RequestOf(l.reservations[src]);
            DriftShift(l, op, q) == 0.01 && SurplusShift(l, op, q) == -0.01
  {
    PlainTransferActs(l, src, dst, amount);
    var r, t := l.reservations[src], l.reservations[dst];
    CleanTarget(t, amount, CostOf(r, amount));
    assert TargetShortOf(l.reservations, src, dst, amount) == 0.0;
    assert SourceShort(r, amount) == -0.01;
  }

  /** Index and balances are right, all amounts are on the precision grid, both reservations are untouched, so
      the transfer is fair; yet the 0.01 left at the source is within the margin, and afterwards the index and
      the balances are off by it. */
  lemma ResidueBreaksIndexAndMoney() returns (l: Ledger)
    ensures Run(Start(), ResidueOps()) == Ok(l) && Right(l)
    ensures 0 in l.reservations && 1 in l.reservations && FairTransfer(l.reservations, 0, 1, 0.1)
    ensures Do(l, TransferOp(0, 1, 0.1, None)).Ok?
    ensures var l' := Do(l, TransferOp(0, 1, 0.1, None)).ledger;
            var q := RequestOf(l.reservations[0]);
            Drift(l', q) == 0.01 && Surplus(l', q) == -0.01
  {
    l := ResidueLedger();
    ElevenAndTen();
    HundredthOff(l, 0, 1, 0.1);
  }

  lemma HundredthOff(l: Ledger, src: ReservationId, dst: ReservationId, amount: real)
    requires Right(l) && src in l.reservations && dst in l.reservations && src != dst
    requires LeavesHundredth(l.reservations[src], l.reservations[dst], amount)
    ensures Do(l, TransferOp(src, dst, amount, None)).Ok? && FairTransfer(l.reservations, src, dst, amount)
    ensures var l' := Do(l, TransferOp(src, dst, amount, None)).ledger;
            var q := RequestOf(l.reservations[src]);
            Drift(l', q) == 0.01 && Surplus(l', q) == -0.01
  {
    var op, q := TransferOp(src, dst, amount, None), RequestOf(l.reservations[src]);
    HundredthShifts(l, src, dst, amount);
    DoShiftsDrift(l, op, q);
    DoShiftsSurplus(l, op, q);
  }

  // ---- an unreserve from a canceled part ----

  function CanceledOps(): seq<Op> {
    [ReserveOp(ToSell(1.0))] + [ApproveOp(0, "order", 0.5)] + [CancelOp(0, "order")]
  }

  function WithCanceled(): Reservation {
    StoredFor(ToSell(1.0)).(parts := map["order" := ApprovedPart(0.5, true, 0.5)])
  }

  lemma ApprovedAndCanceled(l: Ledger, r: Reservation)
    requires LedgerOk(l) && l.reservations == map[0 := r] && r == StoredFor(ToSell(1.0))
    ensures var l1 := Do(l, ApproveOp(0, "order", 0.5)).ledger;
            && Do(l, ApproveOp(0, "order", 0.5)) == Ok(l1) && LedgerOk(l1)
            && Do(l1, CancelOp(0, "order")).Ok?
            && Do(l1, CancelOp(0, "order")).ledger == l.(reservations := map[0 := WithCanceled()])
  {
    ApproveKeepsOk(l, 0, "order", 0.5);
    var l1 := Do(l, ApproveOp(0, "order", 0.5)).ledger;
    assert l1.reservations[0].parts == map["order" := ApprovedPart(0.5, false, 0.5)];
    var l2 := Do(l1, CancelOp(0, "order")).ledger;
    assert l2.reservations[0].parts == WithCanceled().parts;
    assert l2.reservations == map[0 := WithCanceled()];
  }

  /** After an approval that was canceled. */
  lemma CanceledLedger() returns (l: Ledger)
    ensures Run(Start(), CanceledOps()) == Ok(l) && Right(l)
    ensures SameMarkets(Start(), l) && l.reservations == map[0 := WithCanceled()]
  {
    var first := [ReserveOp(ToSell(1.0))];
    SellCost(1.0);
    OneStored(ToSell(1.0), 1.0);
    ApprovedAndCanceled(Run(Start(), first).ledger, StoredFor(ToSell(1.0)));
    RunMore(Start(), first, ApproveOp(0, "order", 0.5));
    RunMore(Start(), first + [ApproveOp(0, "order", 0.5)], CancelOp(0, "order"));
    l := Run(Start(), CanceledOps()).ledger;
    StartIsRight(map[]);
    RunIsRight(Start(), CanceledOps());
  }

  lemma CanceledGap()
    ensures Gap(WithCanceled()) == 0.0
  {
    var none: map<ClientOrderId, ApprovedPart> := map[];
    TotalPut(none, LiveAmount(), "order", ApprovedPart(0.5, true, 0.5));
  }

  /** The parts are balanced, and unreserving for the canceled order succeeds and breaks that. */
  lemma CanceledUnreserve(l: Ledger)
    requires LedgerOk(l) && SameMarkets(Start(), l) && l.reservations == map[0 := WithCanceled()]
    ensures Balanced(l)
    ensures var o := Do(l, UnreserveOp(0, 0.2, Some("order"))); o.Ok? && !Balanced(o.ledger)
  {
    Hundredths(20);
    assert 20 as real * 0.01 == 0.2;
    CanceledGap();
    assert Balanced(l);
    SpotParametersOk(l, FromReservation(WithCanceled()));
    UnreserveBalancedIff(l, 0, 0.2, Some("order"));
  }

  lemma CanceledPartBreaksBalance() returns (l: Ledger)
    ensures Run(Start(), CanceledOps()) == Ok(l) && Right(l) && Balanced(l)
    ensures var o := Do(l, UnreserveOp(0, 0.2, Some("order"))); o.Ok? && !Balanced(o.ledger)
  {
    l := CanceledLedger();
    CanceledUnreserve(l);
  }

  // ---- an approval that is refused ----

  lemma RefusedApproval(l: Ledger)
    requires LedgerOk(l) && l.reservations == map[0 := StoredFor(ToSell(1.0))]
    ensures Balanced(l)
    ensures var o := Do(l, ApproveOp(0, "order", 2.0)); o.Err? && !Balanced(o.ledger)
  {
    NoPartsGap(l.reservations[0]);
    ApproveBalancedIff(l, 0, "order", 2.0);
  }

  /** A refused approval has already lowered what is not approved. */
  lemma RefusedApprovalBreaksBalance() returns (l: Ledger)
    ensures Run(Start(), [ReserveOp(ToSell(1.0))]) == Ok(l) && Right(l) && Balanced(l)
    ensures var o := Do(l, ApproveOp(0, "order", 2.0)); o.Err? && !Balanced(o.ledger)
  {
    SellCost(1.0);
    OneStored(ToSell(1.0), 1.0);
    l := TryReserve(Start(), ToSell(1.0));
    RefusedApproval(l);
  }

  // ---- a price update ----

  /** An untouched spot reservation that a new price makes dearer by half a unit, which the balance covers. */
  ghost predicate HalfDearer(l: Ledger, id: ReservationId, price: real) {
    && id in l.reservations && Repriced(l, id, price) && Untouched(l.reservations[id])
    && PriceDiff(l.reservations[id], price) == 0.5 && BalanceKey(l.reservations[id]).code == l.reservations[id].code
  }

  lemma BoughtIs(r: Reservation)
    requires r == StoredFor(ToBuy(100.0, 1.0))
    ensures ReservationOk(r) && Untouched(r) && r.amount == 1.0 && r.code == "usd"
    ensures r.symbol == Spot() && r.notApproved == 1.0 && r.price == 100.0
  {
  }

  lemma BoughtKey(r: Reservation)
    requires ReservationOk(r) && r.symbol == Spot()
    ensures BalanceKey(r).code == r.code
  {
  }

  lemma BoughtAgain(r: Reservation)
    requires r == StoredFor(ToBuy(100.0, 1.0))
    ensures FromReservation(r).(price := 200.0) == ToBuy(200.0, 0.0)
  {
  }

  lemma NothingCanceled(r: Reservation)
    requires r.parts == map[]
    ensures RestAmount(r) == r.amount
  {
  }

  lemma DollarConversions()
    ensures ConvertFromAmount(Spot(), "usd", 1.0, 100.0) == 100.0
    ensures ConvertFromAmount(Spot(), "usd", 1.0, 200.0) == 200.0
    ensures ConvertIntoAmount(Spot(), "usd", 100.0, 200.0) == 0.5
  {
    CodesDiffer();
  }

  lemma BoughtDiffers(r: Reservation)
    requires ReservationOk(r) && r.symbol == Spot() && r.code == "usd" && r.notApproved == 1.0 && r.price == 100.0
    requires RestAmount(r) == 1.0
    ensures DiffInCode(r, 1.0, 200.0) == 100.0 && PriceDiff(r, 200.0) == 0.5
  {
    DollarConversions();
  }

  lemma BoughtBalance(l: Ledger, p: ReserveParameters)
    requires SameMarkets(Start(), l) && VirtualBalance(l, ToBuy(100.0, 1.0)) == Some(900.0)
    requires p == ToBuy(200.0, 0.0)
    ensures QueryOk(l, p) && BalanceWithFree(l, p) == Some(900.0)
  {
    SpotParametersOk(l, p);
    assert VirtualBalance(l, p) == Some(900.0);
  }

  lemma AffordableWith(l: Ledger, id: ReservationId, p: ReserveParameters, balance: real, rest: real)
    requires LedgerOk(l) && p.price > 0.0 && id in l.reservations && ReservationOk(l.reservations[id])
    requires l.reservations[id].amount != 0.0 && RestAmount(l.reservations[id]) == rest
    requires p == FromReservation(l.reservations[id]).(price := p.price)
    requires QueryOk(l, p) && BalanceWithFree(l, p) == Some(balance)
    requires balance >= DiffInCode(l.reservations[id], rest, p.price)
    ensures Repriced(l, id, p.price)
  {
  }

  ghost predicate BoughtOne(l: Ledger) {
    && LedgerOk(l) && SameMarkets(Start(), l) && VirtualBalance(l, ToBuy(100.0, 1.0)) == Some(900.0)
    && l.reservations == map[0 := StoredFor(ToBuy(100.0, 1.0))]
  }

  /** What the new price needs: the query goes through and the balance covers the difference. */
  lemma BoughtCovers(l: Ledger, r: Reservation, p: ReserveParameters)
    requires BoughtOne(l) && r == l.reservations[0] && p == ToBuy(200.0, 0.0)
    ensures ReservationOk(r) && Untouched(r) && r.amount == 1.0 && RestAmount(r) == 1.0
    ensures p == FromReservation(r).(price := 200.0) && QueryOk(l, p) && BalanceWithFree(l, p) == Some(900.0)
    ensures DiffInCode(r, 1.0, 200.0) == 100.0 && PriceDiff(r, 200.0) == 0.5 && BalanceKey(r).code == r.code
  {
    BoughtIs(r);
    NothingCanceled(r);
    BoughtKey(r);
    BoughtAgain(r);
    BoughtDiffers(r);
    BoughtBalance(l, p);
  }

  lemma BoughtIsHalfDearer(l: Ledger, p: ReserveParameters, price: real)
    requires BoughtOne(l) && p == ToBuy(200.0, 0.0) && price == 200.0
    ensures HalfDearer(l, 0, price)
  {
    BoughtCovers(l, l.reservations[0], p);
    DearerWhenCovered(l, 0, p, 900.0);
  }

  lemma DearerWhenCovered(l: Ledger, id: ReservationId, p: ReserveParameters, balance: real)
    requires LedgerOk(l) && id in l.reservations && p.price > 0.0
    requires var r := l.reservations[id];
             && ReservationOk(r) && Untouched(r) && r.amount == 1.0 && RestAmount(r) == 1.0
             && p == FromReservation(r).(price := p.price) && BalanceKey(r).code == r.code
             && balance >= DiffInCode(r, 1.0, p.price) && PriceDiff(r, p.price) == 0.5
    requires QueryOk(l, p) && BalanceWithFree(l, p) == Some(balance)
    ensures HalfDearer(l, id, p.price)
  {
    AffordableWith(l, id, p, balance, 1.0);
  }

  lemma HalfOff(l: Ledger, id: ReservationId, price: real)
    requires Right(l) && HalfDearer(l, id, price)
    ensures var o := Do(l, PriceOp(id, price));
            && o.Ok? && Drift(o.ledger, RequestOf(l.reservations[id])) == 0.5
            && forall key :: Surplus(o.ledger, key) == 0.0
  {
    PriceUpdateDrift(l, id, price, RequestOf(l.reservations[id]));
    UntouchedPriceUpdateConservesIff(l, id, price);
  }

  lemma BuyCost()
    ensures ConvertFromAmount(Spot(), Spot().TradeCodeBefore(Buy), 1.0, 100.0) == 100.0
  {
    CodesDiffer();
  }

  /** One coin is bought for a hundred dollars, and the price raised to two hundred: the balances stay right and
      the index is off by half a coin. */
  lemma PriceUpdateBreaksIndex() returns (l: Ledger)
    ensures Run(Start(), [ReserveOp(ToBuy(100.0, 1.0))]) == Ok(l) && Right(l) && 0 in l.reservations
    ensures var o := Do(l, PriceOp(0, 200.0));
            && o.Ok? && Drift(o.ledger, RequestOf(l.reservations[0])) == 0.5
            && forall key :: Surplus(o.ledger, key) == 0.0
  {
    BuyCost();
    OneStored(ToBuy(100.0, 1.0), 100.0);
    l := TryReserve(Start(), ToBuy(100.0, 1.0));
    BoughtIsHalfDearer(l, ToBuy(200.0, 0.0), 200.0);
    HalfOff(l, 0, 200.0);
  }

  // ---- a position taken by another market ----

  /** A short position of one in each of two futures. */
  function Positions(): map<MarketAccountId, real> {
    map[MarketFor("btc") := -1.0, MarketFor("eth") := -1.0]
  }

  function ToClose(): ReserveParameters {
    ReserveParameters(Config(), "a", Future("eth"), Buy, 1.0, 1.0)
  }

  lemma CloseParameters(l: Ledger, p: ReserveParameters)
    requires l == Funded(Positions()) && p == ToClose()
    ensures ParametersOk(l, p) && ParametersRequest(p) !in l.limits && VirtualBalance(l, p) == Some(1000.0)
    ensures AvailableBalance(l, p) == 950.0
  {
    CodesDiffer();
    assert MarketOf(p) == MarketFor("eth");
  }

  lemma CloseIsFree(l: Ledger, p: ReserveParameters)
    requires l == Funded(Positions()) && p == ToClose() && ParametersOk(l, p)
    ensures ReservationCost(l, p) == (0.0, 1.0)
  {
    CodesDiffer();
    assert MarketOf(p) == MarketFor("eth");
    assert FreePosition(l, "a", Future("eth"), Buy) == 1.0;
  }

  lemma NothingToConvert(symbol: Symbol, code: CurrencyCode, price: real)
    requires price > 0.0 && symbol.Converts(code)
    ensures ConvertFromAmount(symbol, code, 0.0, price) == 0.0
  {
  }

  /** The open position covers the request, so it costs nothing. */
  ghost predicate FreeToClose(l: Ledger, p: ReserveParameters) {
    && Right(l) && l.nextId == 0 && l.reservations == map[] && ParametersOk(l, p) && p.amount == 1.0
    && ParametersRequest(p) !in l.limits && ReservationCost(l, p) == (0.0, 1.0) && AvailableBalance(l, p) >= 0.0
    && l.positions == Positions() && p.side == Buy && MarketOf(p) == MarketFor("eth")
  }

  lemma StartFreeToClose(l: Ledger, p: ReserveParameters)
    requires l == Funded(Positions()) && p == ToClose()
    ensures FreeToClose(l, p)
  {
    StartIsRight(Positions());
    CloseParameters(l, p);
    CloseIsFree(l, p);
  }

  /** A request that costs nothing is stored. */
  lemma FreeIsStored(l: Ledger, p: ReserveParameters)
    requires FreeToClose(l, p)
    ensures Run(l, [ReserveOp(p)]) == Ok(TryReserve(l, p)) && SameMarkets(l, TryReserve(l, p))
    ensures Right(TryReserve(l, p))
    ensures TryReserve(l, p).reservations == map[0 := NewReservation(p, 0.0, 1.0).(unreserved := 1.0)]
  {
    NothingToConvert(p.symbol, p.symbol.TradeCodeBefore(p.side), p.price);
    GrantedWhenCovered(l, p, 0.0, 1.0, AvailableBalance(l, p));
    RunNone(l);
    RunMore(l, [], ReserveOp(p));
    assert [] + [ReserveOp(p)] == [ReserveOp(p)];
    RunIsRight(l, [ReserveOp(p)]);
  }

  lemma TakenByOne(l: Ledger, r: Reservation, market: MarketAccountId, other: MarketAccountId)
    requires l.reservations == map[0 := r] && r.side == Buy && market != other
    requires MarketAccountId(r.account, r.symbol.Pair()) == market
    ensures Pledged(l, market, Buy) == r.takenFree && Pledged(l, other, Buy) == 0.0
    ensures Total(l.reservations, TakenBySide(Buy)) == r.takenFree
  {
    var none: map<ReservationId, Reservation> := map[];
    assert l.reservations == none[0 := r];
    TotalPut(none, TakenIn(market, Buy), 0, r);
    TotalPut(none, TakenIn(other, Buy), 0, r);
    TotalPut(none, TakenBySide(Buy), 0, r);
  }

  /** One position is pledged as a whole; of the other nothing is pledged, and still none of it is free. */
  ghost predicate TakenByOther(l: Ledger) {
    && TakesNoNegative(l)
    && Pledged(l, MarketFor("eth"), Buy) == 1.0 == ClosablePosition(l, "a", Future("eth"), Buy)
    && Pledged(l, MarketFor("btc"), Buy) == 0.0 && ClosablePosition(l, "a", Future("btc"), Buy) == 1.0
    && FreePosition(l, "a", Future("btc"), Buy) == 0.0
  }

  lemma PositionTaken(l: Ledger, r: Reservation)
    requires l.positions == Positions() && l.reservations == map[0 := r] && r.side == Buy && r.takenFree == 1.0
    requires MarketAccountId(r.account, r.symbol.Pair()) == MarketFor("eth")
    ensures TakenByOther(l)
  {
    CodesDiffer();
    TakenByOne(l, r, MarketFor("eth"), MarketFor("btc"));
  }

  lemma ClosedLedger(start: Ledger, p: ReserveParameters)
    requires FreeToClose(start, p)
    ensures Run(start, [ReserveOp(p)]).Ok?
    ensures var l := Run(start, [ReserveOp(p)]).ledger; Right(l) && TakenByOther(l)
  {
    FreeIsStored(start, p);
    PositionTaken(TryReserve(start, p), NewReservation(p, 0.0, 1.0).(unreserved := 1.0));
  }

  /** A run of one request, to close the eth position, after which the btc position is not free either. */
  lemma OtherMarketTakesPosition(start: Ledger, p: ReserveParameters)
    requires start == Funded(Positions()) && p == ToClose()
    ensures LedgerOk(start) && Run(start, [ReserveOp(p)]).Ok?
    ensures var l := Run(start, [ReserveOp(p)]).ledger; Right(l) && TakenByOther(l)
  {
    StartFreeToClose(start, p);
    ClosedLedger(start, p);
  }

  // ---- dust in a rollback ----

  lemma RestIsRefused(l: Ledger)
    requires InSpot(l, ToSell(100.0), 0.999)
    ensures ParametersOk(l, ToSell(100.0)) && Attempt(l, ToSell(100.0)).None?
  {
    SpotBalanceIs(l, ToSell(100.0), 0.999);
    RoundingError(-99.001, 0.01);
  }

  /** One request is granted and the next one refused. */
  lemma OneOfTwo(l: Ledger, small: ReserveParameters, large: ReserveParameters)
    requires LedgerOk(l) && ParametersOk(l, small) && ParametersOk(l, large)
             && ParametersOk(TryReserve(l, small), large)
    requires Attempt(l, small).Some? && Attempt(TryReserve(l, small), large).None?
    ensures AllOk(l, [small, large]) && Reserved(l, [small, large]).1 == [Success(l.nextId, small)]
  {
    ReservedStep(l, [], small);
    assert [] + [small] == [small];
    ReservedStep(l, [small], large);
    assert [small] + [large] == [small, large];
  }

  /** Whenever a dust amount is granted and the next amount refused, the rollback succeeds and leaves the
      dust reserved. */
  lemma GrantedDustSurvives(l: Ledger, small: ReserveParameters, large: ReserveParameters)
    requires LedgerOk(l) && ParametersOk(l, small) && ParametersOk(l, large)
             && ParametersOk(TryReserve(l, small), large)
    requires Attempt(l, small).Some? && Attempt(TryReserve(l, small), large).None? && IsDust(small)
    ensures AllOk(l, [small, large])
    ensures var many := TryReserveMultiple(l, [small, large]);
            many.done.None? && many.outcome.Ok? && !Restored(l, many.outcome.ledger)
  {
    OneOfTwo(l, small, large);
    TryReserveMultipleAllOrNothing(l, [small, large]);
    assert DustAmong(Reserved(l, [small, large]).1);
  }

  /** A tenth of the precision unit and a hundred coins, with one coin in the account. */
  lemma DustSurvivesRollback()
    ensures var l, ps := Start(), [ToSell(0.001), ToSell(100.0)];
            && LedgerOk(l) && AllOk(l, ps)
            && TryReserveMultiple(l, ps).done.None? && TryReserveMultiple(l, ps).outcome.Ok?
            && !Restored(l, TryReserveMultiple(l, ps).outcome.ledger)
  {
    var l, small, large := Start(), ToSell(0.001), ToSell(100.0);
    StartBalances(small);
    SellCost(0.001);
    SpotStored(l, small, 1.0, 0.001);
    var l1 := TryReserve(l, small);
    SellBalance(l1, 0.001, 100.0);
    RestIsRefused(l1);
    SpotParametersOk(l, large);
    DustExists(small);
    GrantedDustSurvives(l, small, large);
  }
}
