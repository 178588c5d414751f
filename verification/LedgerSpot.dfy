/** Outside derivatives a reservation costs its amount, in every run; so no transfer between spot
    reservations can be unfair. */
module LedgerSpot {
  import opened Domain
  import opened Symbols
  import opened ReservationLedger
  import opened LedgerIndex
  import opened LedgerBalance
  import opened LedgerTransfers
  import opened LedgerLimits
  import opened LedgerPrices
  import opened LedgerRuns

  /** A spot reservation costs its amount, and no more than the amount is reserved. */
  predicate Plain(r: Reservation) {
    (!r.symbol.isDerivative ==> r.cost == r.amount) && r.unreserved <= r.amount
  }

  predicate AllPlain(l: Ledger) {
    forall id :: id in l.reservations ==> Plain(l.reservations[id])
  }

  predicate AfterPlain(change: Change) {
    change.after.Some? ==> Plain(change.after.value)
  }

  lemma ApplyPlain(l: Ledger, id: ReservationId, r: Reservation, change: Change)
    requires AllPlain(l) && ReservationOk(r) && AfterPlain(change)
    ensures AllPlain(ApplyChange(l, id, r, change))
  {
  }

  lemma PutPlain(l: Ledger, id: ReservationId, r: Reservation)
    requires AllPlain(l) && id in l.reservations && SameAmounts(l.reservations[id], r)
    ensures AllPlain(Put(l, id, r))
  {
    assert Plain(l.reservations[id]);
  }

  // ---- what transfers do ----

  lemma SpotRate(r: Reservation)
    requires Plain(r) && !r.symbol.isDerivative && r.amount != 0.0
    ensures CostRate(r) == 1.0
  {
    var q := r.cost / r.amount;
    assert q * r.amount == r.cost;
    Distribute(q, 0.0, 1.0, r.amount);
    ProductZero(q - 1.0, r.amount);
  }

  lemma SpotCost(r: Reservation, amount: real)
    requires Plain(r) && !r.symbol.isDerivative && (r.amount == 0.0 ==> amount == 0.0)
    ensures CostOf(r, amount) == amount
  {
    if r.amount != 0.0 {
      SpotRate(r);
    }
  }

  lemma SideAmounts(r: Reservation, diff: real, order: Option<ClientOrderId>, isSrc: bool, cost: real)
    requires TransferSide(r, diff, order, isSrc, cost).Some?
             && TransferSide(r, diff, order, isSrc, cost).value.after.Some?
    ensures var c := TransferSide(r, diff, order, isSrc, cost).value;
            c.after.value.cost == r.cost + c.paid && c.after.value.amount == r.amount + diff
  {
  }

  /** A source without an amount can only give nothing. */
  lemma EmptySource(r: Reservation, amount: real, order: Option<ClientOrderId>)
    requires TransferSide(r, -amount, order, true, 0.0).Some?
    ensures r.amount == 0.0 ==> amount == 0.0
  {
  }

  lemma SourceStaysPlain(r: Reservation, amount: real, order: Option<ClientOrderId>)
    requires Plain(r) && TransferSide(r, -amount, order, true, 0.0).Some?
    ensures var c := TransferSide(r, -amount, order, true, 0.0).value;
            AfterPlain(c) && (!r.symbol.isDerivative ==> -c.paid == amount)
  {
    var c := TransferSide(r, -amount, order, true, 0.0).value;
    EmptySource(r, amount, order);
    SourcePaysExactly(r, amount, order);
    if !r.symbol.isDerivative {
      SpotCost(r, amount);
    }
    if c.after.Some? {
      SideAmounts(r, -amount, order, true, 0.0);
    }
  }

  lemma TargetStaysPlain(t: Reservation, amount: real, order: Option<ClientOrderId>, c: real)
    requires Plain(t) && TransferSide(t, amount, order, false, c).Some? && (!t.symbol.isDerivative ==> c == amount)
    ensures AfterPlain(TransferSide(t, amount, order, false, c).value)
  {
    if TransferSide(t, amount, order, false, c).value.after.Some? {
      SideAmounts(t, amount, order, false, c);
    }
  }

  lemma TransferStaysPlain(l: Ledger, src: ReservationId, dst: ReservationId, amount: real,
                           order: Option<ClientOrderId>)
    requires LedgerOk(l) && AllPlain(l) && TransferAmount(l, src, dst, amount, order).Ok?
    requires src in l.reservations && dst in l.reservations && l.reservations[src].symbol == l.reservations[dst].symbol
    ensures AllPlain(TransferAmount(l, src, dst, amount, order).ledger)
  {
    var c, d, t := TransferShape(l, src, dst, amount, order);
    var r := l.reservations[src];
    assert Plain(r) && Plain(l.reservations[dst]);
    SourceStaysPlain(r, amount, order);
    assert Plain(t) && t.symbol == r.symbol;
    TargetStaysPlain(t, amount, order, -c.paid);
    ApplyPlain(l, src, r, c);
    ApplyPlain(ApplyChange(l, src, r, c), dst, t, d);
  }

  // ---- what the other calls do ----

  lemma ReserveStaysPlain(l: Ledger, p: ReserveParameters)
    requires LedgerOk(l) && AllPlain(l) && ParametersOk(l, p)
    ensures AllPlain(TryReserve(l, p))
  {
    var attempt := Attempt(l, p);
    if attempt.Some? {
      AttemptIsPlain(l, p);
      StorePlain(l, attempt.value);
    }
  }

  lemma AttemptIsPlain(l: Ledger, p: ReserveParameters)
    requires ParametersOk(l, p) && Attempt(l, p).Some?
    ensures Plain(Attempt(l, p).value.(unreserved := Attempt(l, p).value.amount))
  {
  }

  lemma StorePlain(l: Ledger, r: Reservation)
    requires LedgerOk(l) && AllPlain(l) && ReservationOk(r) && Plain(r.(unreserved := r.amount))
    ensures AllPlain(Store(l, Some(r)))
  {
    ApplyPlain(l.(nextId := l.nextId + 1), l.nextId, r, ReserveChange(r));
  }

  lemma UnreservedStaysPlain(r: Reservation, amount: real, order: Option<ClientOrderId>)
    requires Plain(r) && amount >= 0.0 && UnreserveRounded(r, amount, order).Changed?
    ensures AfterPlain(UnreserveRounded(r, amount, order).change)
  {
  }

  lemma UnreserveStaysPlain(l: Ledger, id: ReservationId, amount: real, order: Option<ClientOrderId>)
    requires LedgerOk(l) && AllPlain(l) && amount >= 0.0 && Unreserve(l, id, amount, order).Returns()
    ensures AllPlain(Unreserve(l, id, amount, order).ledger)
  {
    if id in l.reservations {
      var r := l.reservations[id];
      assert StoredOk(id, l.nextId, r) && Plain(r);
      if UnreserveActs(l, r, amount) {
        var rounded := RoundAmount(r.symbol, amount);
        assert rounded >= 0.0 by {
          RoundingKeepsSign(amount, Unit(r.symbol));
        }
        var u := UnreserveRounded(r, rounded, order);
        assert !u.Abandoned? by {
          UnreserveMovesExactly(r, rounded, order);
        }
        match u
        case Failed(kept) =>
          PutPlain(l, id, kept);
        case Changed(change) =>
          UnreservedStaysPlain(r, rounded, order);
          ApplyPlain(l, id, r, change);
      }
    }
  }

  lemma ApproveStaysPlain(l: Ledger, id: ReservationId, order: ClientOrderId, amount: real)
    requires AllPlain(l)
    ensures AllPlain(Approve(l, id, order, amount).ledger)
  {
    if id in l.reservations && order !in l.reservations[id].parts {
      PutPlain(l, id, ApproveOn(l.reservations[id], order, amount).0);
    }
  }

  lemma CancelStaysPlain(l: Ledger, id: ReservationId, order: ClientOrderId)
    requires AllPlain(l) && CancelApproved(l, id, order).Returns()
    ensures AllPlain(CancelApproved(l, id, order).ledger)
  {
    if id in l.reservations && order in l.reservations[id].parts {
      PutPlain(l, id, CancelOn(l.reservations[id], order));
    }
  }

  lemma PriceStaysPlain(l: Ledger, id: ReservationId, price: real)
    requires AllPlain(l) && Repriced(l, id, price)
    ensures UpdatePrice(l, id, price).Ok? && AllPlain(UpdatePrice(l, id, price).ledger)
  {
    var r := l.reservations[id];
    var diff := PriceDiff(r, price);
    RepricedIs(l, id, price);
    assert Plain(r);
    ApplyPlain(l, id, r.(price := price), PriceChange(r, RestAmount(r), diff, ProportionalCost(r, diff).value, price));
  }

  /** Nothing negative is unreserved. */
  ghost predicate UnreservesGood(l: Ledger, op: Op) {
    op.UnreserveOp? ==> op.amount >= 0.0
  }

  lemma DoStaysPlain(l: Ledger, op: Op)
    requires LedgerOk(l) && AllPlain(l) && Do(l, op).Returns() && UnreservesGood(l, op)
    ensures AllPlain(Do(l, op).ledger)
  {
    if Moves(l, op) {
      MoveIs(l, op);
      TransferStaysPlain(l, op.src, op.dst, Rounded(l, op.src, op.amount), op.order);
    } else if Reprices(l, op) {
      PriceStaysPlain(l, op.id, op.price);
    } else {
      match op
      case ReserveOp(p) => ReserveStaysPlain(l, p);
      case UnreserveOp(id, amount, order) => UnreserveStaysPlain(l, id, amount, order);
      case ApproveOp(id, client, amount) => ApproveStaysPlain(l, id, client, amount);
      case CancelOp(id, client) => CancelStaysPlain(l, id, client);
      case TransferOp(_, _, _, _) => NoMoveIs(l, op);
      case PriceOp(_, _) => NoMoveIs(l, op);
    }
  }

  /** In every run every stored spot reservation costs its amount and reserves no more than it. */
  lemma {:induction false} RunStaysPlain(l: Ledger, ops: seq<Op>)
    requires LedgerOk(l) && AllPlain(l) && Run(l, ops).Returns() && Always(l, ops, UnreservesGood)
    ensures AllPlain(Run(l, ops).ledger)
    decreases |ops|
  {
    if ops != [] {
      var before, op := LastStep(l, ops, UnreservesGood);
      RunStaysPlain(l, ops[..|ops| - 1]);
      DoStaysPlain(before, op);
    }
  }

  // ---- spot transfers lose their residues and nothing else ----

  /** The source forgets exactly its residue. */
  lemma SpotSourceShort(r: Reservation, amount: real, order: Option<ClientOrderId>)
    requires Plain(r) && !r.symbol.isDerivative && r.symbol.tick > 0.0
             && TransferSide(r, -amount, order, true, 0.0).Some?
    requires amount != 0.0
    ensures SourceShort(r, amount) == -Residue(r, -amount)
  {
    EmptySource(r, amount, order);
    SpotRate(r);
    assert r.unreserved - amount == r.unreserved + -amount;
  }

  lemma Ratio(x: real)
    requires x > 0.0
    ensures x / x == 1.0
  {
  }

  /** The target forgets exactly its residue. */
  lemma SpotTargetShort(t: Reservation, amount: real, order: Option<ClientOrderId>)
    requires Plain(t) && EmptyOk(t) && !t.symbol.isDerivative && t.symbol.tick > 0.0
    requires TransferSide(t, amount, order, false, amount).Some?
    ensures TargetShort(t, amount, amount) == -Residue(t, amount)
  {
    assert t.amount == 0.0 ==> t.unreserved == 0.0;
    assert Owed(t) == t.unreserved by {
      if t.amount != 0.0 {
        SpotRate(t);
      }
    }
    if !WithinMargin(t.symbol, t.unreserved + amount) {
      assert t.amount + amount > 0.0 && t.cost + amount == t.amount + amount;
      Ratio(t.amount + amount);
      assert NewRate(t, amount, amount) == (t.amount + amount) / (t.amount + amount);
    }
  }

  /** What a spot transfer leaves uncharged is minus its residues. */
  lemma SpotShorts(l: Ledger, src: ReservationId, dst: ReservationId, amount: real, order: Option<ClientOrderId>)
    requires LedgerOk(l) && AllPlain(l) && TransferAmount(l, src, dst, amount, order).Ok? && amount != 0.0
    requires src in l.reservations && dst in l.reservations && l.reservations[src].symbol == l.reservations[dst].symbol
    requires !l.reservations[src].symbol.isDerivative
    ensures SourceShort(l.reservations[src], amount) == -Residue(l.reservations[src], -amount)
    ensures TargetShortOf(l.reservations, src, dst, amount) ==
            -TargetResidue(l, src, dst, amount)
  {
    var c, d, t := TransferShape(l, src, dst, amount, order);
    var r := l.reservations[src];
    assert Plain(r) && Plain(l.reservations[dst]);
    SourceStaysPlain(r, amount, order);
    SpotSourceShort(r, amount, order);
    TargetIs(l.reservations, src, dst, amount, order, c, t);
    assert Plain(t) && EmptyOk(t) && t.symbol == r.symbol;
    SpotTargetShort(t, amount, order);
    if src == dst {
      BackAgain(r, amount, order, c, t);
    }
    assert CostOf(r, amount) == amount by {
      EmptySource(r, amount, order);
      SpotCost(r, amount);
    }
    ShortDependsOn(t, Target(l.reservations, src, dst, amount), amount, amount);
  }

  /** The residues of a transfer cancel at the two prices, or are zero where two balances are concerned. */
  predicate ResiduesOffset(l: Ledger, src: ReservationId, dst: ReservationId, amount: real)
    requires src in l.reservations && dst in l.reservations
    requires ReservationOk(l.reservations[src]) && ReservationOk(l.reservations[dst])
  {
    var r, t := l.reservations[src], l.reservations[dst];
    Offset(BalanceKey(r) == BalanceKey(t), -Residue(r, -amount), PriceRate(r), -TargetResidue(l, src, dst, amount),
        PriceRate(t))
  }

  /** Spot transfers conserve money exactly when their residues, at the two prices, cancel. */
  lemma SpotConservesIff(l: Ledger, src: ReservationId, dst: ReservationId, amount: real, order: Option<ClientOrderId>)
    requires LedgerOk(l) && AllPlain(l) && TransferAmount(l, src, dst, amount, order).Ok? && amount != 0.0
    requires src in l.reservations && dst in l.reservations
    requires ReservationOk(l.reservations[src]) && ReservationOk(l.reservations[dst])
    requires l.reservations[src].symbol == l.reservations[dst].symbol && !l.reservations[src].symbol.isDerivative
    ensures (forall key :: Surplus(TransferAmount(l, src, dst, amount, order).ledger, key) == Surplus(l, key)) <==>
            ResiduesOffset(l, src, dst, amount)
  {
    assert Conserving(l.reservations, src, dst, amount) <==> ResiduesOffset(l, src, dst, amount) by {
      SpotShorts(l, src, dst, amount, order);
    }
    TransferConservesIff(l, src, dst, amount, order);
  }

  /** Transfers are between spot reservations and leave zero or more than the margin on each side; price
      updates charge what is gained. Nothing is asked about cost rates. */
  ghost predicate SpotGood(l: Ledger, op: Op) {
    && UnreservesGood(l, op)
    && (Moves(l, op) ==>
          var moved := Rounded(l, op.src, op.amount);
          !l.reservations[op.src].symbol.isDerivative && LeavesNoResidue(l, op.src, op.dst, moved))
    && (Reprices(l, op) ==>
          var r := l.reservations[op.id];
          CostRate(r) == 0.0 || ChargesGain(r, PriceDiff(r, op.price), op.price))
  }

  lemma SpotGoodIsMoneyGood(l: Ledger, op: Op)
    requires LedgerOk(l) && AllPlain(l) && Do(l, op).Returns() && SpotGood(l, op)
    ensures MoneyGood(l, op)
  {
    if Moves(l, op) {
      MoveIs(l, op);
      SpotShorts(l, op.src, op.dst, Rounded(l, op.src, op.amount), op.order);
      NoResidueIsExact(l, op.src, op.dst, Rounded(l, op.src, op.amount));
    }
  }

  lemma {:induction false} AlwaysWeaker(l: Ledger, ops: seq<Op>)
    requires LedgerOk(l) && Run(l, ops).Returns() && Always(l, ops, SpotGood)
    ensures Always(l, ops, UnreservesGood)
    decreases |ops|
  {
    if ops != [] {
      var before, op := LastStep(l, ops, SpotGood);
      AlwaysWeaker(l, ops[..|ops| - 1]);
    }
  }

  /** Money is conserved in every spot run whose transfers leave no residue, whatever prices and rates the
      reservations have. */
  lemma {:induction false} SpotRunConservesMoney(l: Ledger, ops: seq<Op>, key: BalanceRequest)
    requires LedgerOk(l) && AllPlain(l) && Run(l, ops).Returns() && Always(l, ops, SpotGood)
    ensures Surplus(Run(l, ops).ledger, key) == Surplus(l, key)
    ensures l.reservations == map[] && Run(l, ops).ledger.reservations == map[] ==>
              ValueOr0(Run(l, ops).ledger.diffs, key) == ValueOr0(l.diffs, key)
    decreases |ops|
  {
    if ops != [] {
      var before, op := LastStep(l, ops, SpotGood);
      SpotRunConservesMoney(l, ops[..|ops| - 1], key);
      AlwaysWeaker(l, ops[..|ops| - 1]);
      RunStaysPlain(l, ops[..|ops| - 1]);
      SpotGoodIsMoneyGood(before, op);
      DoKeepsSurplus(before, op, key);
    }
  }
}
