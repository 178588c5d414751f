/** Whole runs of the reservation manager: what any sequence of calls keeps. */
module LedgerRuns {
  import opened Domain
  import opened Symbols
  import opened ReservationLedger
  import opened LedgerIndex
  import opened LedgerBalance
  import opened LedgerTransfers
  import opened LedgerRollback
  import opened LedgerParts
  import opened LedgerLimits
  import opened LedgerPrices

  datatype Op =
    | ReserveOp(parameters: ReserveParameters)
    | UnreserveOp(id: ReservationId, amount: real, order: Option<ClientOrderId>)
    | ApproveOp(id: ReservationId, client: ClientOrderId, amount: real)
    | CancelOp(id: ReservationId, client: ClientOrderId)
    | TransferOp(src: ReservationId, dst: ReservationId, amount: real, order: Option<ClientOrderId>)
    | PriceOp(id: ReservationId, price: real)

  // ---- transfers with their checks ----

  predicate SameSource(r: Reservation, t: Reservation) {
    r.descriptor == t.descriptor && r.account == t.account && r.symbol == t.symbol && r.side == t.side
  }

  predicate BothStored(l: Ledger, src: ReservationId, dst: ReservationId) {
    && src in l.reservations && dst in l.reservations
    && SameSource(l.reservations[src], l.reservations[dst])
    && ReservationOk(l.reservations[src]) && ReservationOk(l.reservations[dst])
  }

  function Rounded(l: Ledger, src: ReservationId, amount: real): real
    requires src in l.reservations && l.reservations[src].symbol.tick > 0.0
  {
    RoundAmount(l.reservations[src].symbol, amount)
  }

  /** Between different prices a derivative is moved only if the balance, free position included, covers the
      difference; `None` is the panic of the balance query. */
  ghost function TransferAffordable(l: Ledger, r: Reservation, t: Reservation, amount: real): Option<bool>
    requires ReservationOk(r) && ReservationOk(t)
  {
    if r.price == t.price || !r.symbol.isDerivative then Some(true)
    else if !QueryOk(l, FromReservation(t)) || BalanceWithFree(l, FromReservation(t)).None? then None
    else
      var added, taken := ConvertFromAmount(r.symbol, r.code, amount, r.price),
          ConvertFromAmount(t.symbol, t.code, amount, t.price);
      Some(!(BalanceWithFree(l, FromReservation(t)).value + (added - taken) < 0.0))
  }

  /** Whether a transfer call comes as far as moving the amount. */
  ghost predicate TransferActs(l: Ledger, src: ReservationId, dst: ReservationId, amount: real)
    requires BothStored(l, src, dst)
  {
    var moved := Rounded(l, src, amount);
    moved != 0.0 && TransferAffordable(l, l.reservations[src], l.reservations[dst], moved) == Some(true)
  }

  /** The reservations must agree in everything but price and amounts; otherwise the call panics. */
  ghost function TryTransfer(l: Ledger, src: ReservationId, dst: ReservationId, amount: real,
                             order: Option<ClientOrderId>): Outcome
    requires LedgerOk(l)
  {
    if !BothStored(l, src, dst) then Panic
    else
      var moved := Rounded(l, src, amount);
      if moved == 0.0 then Ok(l)
      else
        match TransferAffordable(l, l.reservations[src], l.reservations[dst], moved)
        case None => Panic
        case Some(false) => Ok(l)
        case Some(true) => TransferAmount(l, src, dst, moved, order)
  }

  /** A reservation is only asked for in a known market and a price is positive; otherwise the call panics. */
  ghost function Do(l: Ledger, op: Op): Outcome
    requires LedgerOk(l)
  {
    match op
    case ReserveOp(p) => if ParametersOk(l, p) then Ok(TryReserve(l, p)) else Panic
    case UnreserveOp(id, amount, order) => Unreserve(l, id, amount, order)
    case ApproveOp(id, client, amount) => Approve(l, id, client, amount)
    case CancelOp(id, client) => CancelApproved(l, id, client)
    case TransferOp(src, dst, amount, order) => TryTransfer(l, src, dst, amount, order)
    case PriceOp(id, price) => if price > 0.0 then UpdatePrice(l, id, price) else Panic
  }

  ghost predicate OkAfter(l: Ledger, o: Outcome) {
    o.Returns() ==> LedgerOk(o.ledger) && SameMarkets(l, o.ledger)
  }

  lemma TransferKeepsOk(l: Ledger, src: ReservationId, dst: ReservationId, amount: real, order: Option<ClientOrderId>)
    requires LedgerOk(l) && TransferAmount(l, src, dst, amount, order).Ok?
    ensures LedgerOk(TransferAmount(l, src, dst, amount, order).ledger)
  {
    var (c, d) := TransferChanges(l.reservations, src, dst, amount, order).value;
    var l1 := ApplyChange(l, src, l.reservations[src], c);
    assert StoredOk(src, l.nextId, l.reservations[src]);
    assert (c.after.Some? ==> EmptyOk(c.after.value)) && (d.after.Some? ==> EmptyOk(d.after.value)) by {
      ChangesEmptyOk(l.reservations, src, dst, amount, order);
    }
    ApplyKeepsOk(l, src, l.reservations[src], c);
    assert StoredOk(dst, l1.nextId, l1.reservations[dst]);
    ApplyKeepsOk(l1, dst, l1.reservations[dst], d);
  }

  lemma ChangesEmptyOk(m: map<ReservationId, Reservation>, src: ReservationId, dst: ReservationId, amount: real,
                       order: Option<ClientOrderId>)
    requires TransferChanges(m, src, dst, amount, order).Some?
    ensures var (c, d) := TransferChanges(m, src, dst, amount, order).value;
            (c.after.Some? ==> EmptyOk(c.after.value)) && (d.after.Some? ==> EmptyOk(d.after.value))
  {
  }

  lemma ApproveKeepsOk(l: Ledger, id: ReservationId, order: ClientOrderId, amount: real)
    requires LedgerOk(l)
    ensures OkAfter(l, Approve(l, id, order, amount))
  {
    if id in l.reservations && order !in l.reservations[id].parts {
      PutKeepsOk(l, id, ApproveOn(l.reservations[id], order, amount).0);
    }
  }

  lemma CancelKeepsOk(l: Ledger, id: ReservationId, order: ClientOrderId)
    requires LedgerOk(l)
    ensures OkAfter(l, CancelApproved(l, id, order))
  {
    if id in l.reservations && order in l.reservations[id].parts && CancelApproved(l, id, order).Returns() {
      PutKeepsOk(l, id, CancelOn(l.reservations[id], order));
    }
  }

  lemma TryTransferKeepsOk(l: Ledger, src: ReservationId, dst: ReservationId, amount: real,
                           order: Option<ClientOrderId>)
    requires LedgerOk(l)
    ensures OkAfter(l, TryTransfer(l, src, dst, amount, order))
  {
    if BothStored(l, src, dst) && TransferActs(l, src, dst, amount) {
      var moved := Rounded(l, src, amount);
      if TransferAmount(l, src, dst, moved, order).Ok? {
        TransferKeepsOk(l, src, dst, moved, order);
      }
    }
  }

  lemma PriceKeepsOk(l: Ledger, id: ReservationId, price: real)
    requires LedgerOk(l) && price > 0.0
    ensures OkAfter(l, UpdatePrice(l, id, price))
  {
    if UpdatePrice(l, id, price).Ok? {
      UpdatePriceKeepsOk(l, id, price);
    }
  }

  lemma DoKeepsOk(l: Ledger, op: Op)
    requires LedgerOk(l)
    ensures OkAfter(l, Do(l, op))
  {
    match op
    case ReserveOp(p) =>
    case UnreserveOp(id, amount, order) =>
    case ApproveOp(id, client, amount) => ApproveKeepsOk(l, id, client, amount);
    case CancelOp(id, client) => CancelKeepsOk(l, id, client);
    case TransferOp(src, dst, amount, order) => TryTransferKeepsOk(l, src, dst, amount, order);
    case PriceOp(id, price) =>
      if price > 0.0 {
        PriceKeepsOk(l, id, price);
      }
  }

  // ---- runs ----

  /** A failed call leaves its state behind and the run goes on; a panic ends it. */
  ghost function Run(l: Ledger, ops: seq<Op>): (o: Outcome)
    requires LedgerOk(l)
    ensures o.Returns() ==> LedgerOk(o.ledger) && SameMarkets(l, o.ledger)
  {
    if ops == [] then Ok(l)
    else
      var o := Run(l, ops[..|ops| - 1]);
      if o.Panic? then Panic
      else
        var next := Do(o.ledger, ops[|ops| - 1]);
        if next.Panic? then Panic else
          DoKeepsOk(o.ledger, ops[|ops| - 1]);
          next
  }

  /** Every call of the run is made in a state in which it is good. */
  ghost predicate Always(l: Ledger, ops: seq<Op>, good: (Ledger, Op) -> bool)
    requires LedgerOk(l) && Run(l, ops).Returns()
  {
    ops == [] ||
    (Always(l, ops[..|ops| - 1], good) && good(Run(l, ops[..|ops| - 1]).ledger, ops[|ops| - 1]))
  }

  lemma LastStep(l: Ledger, ops: seq<Op>, good: (Ledger, Op) -> bool) returns (before: Ledger, op: Op)
    requires LedgerOk(l) && ops != [] && Run(l, ops).Returns() && Always(l, ops, good)
    ensures Run(l, ops[..|ops| - 1]).Returns() && Always(l, ops[..|ops| - 1], good)
    ensures before == Run(l, ops[..|ops| - 1]).ledger && LedgerOk(before) && SameMarkets(l, before)
    ensures op == ops[|ops| - 1] && good(before, op)
    ensures Do(before, op).Returns() && Run(l, ops) == Do(before, op)
  {
    before, op := Run(l, ops[..|ops| - 1]).ledger, ops[|ops| - 1];
  }

  /** The operation is a transfer that moves its amount. */
  ghost predicate Moves(l: Ledger, op: Op) {
    op.TransferOp? && BothStored(l, op.src, op.dst) && TransferActs(l, op.src, op.dst, op.amount)
  }

  /** The operation is a price update that takes place. */
  ghost predicate Reprices(l: Ledger, op: Op) {
    op.PriceOp? && Repriced(l, op.id, op.price)
  }

  lemma MoveIs(l: Ledger, op: Op)
    requires LedgerOk(l) && Do(l, op).Returns() && Moves(l, op)
    ensures Do(l, op) == TransferAmount(l, op.src, op.dst, Rounded(l, op.src, op.amount), op.order) && Do(l, op).Ok?
    ensures Transferable(l, op.src, op.dst)
  {
  }

  lemma NoMoveIs(l: Ledger, op: Op)
    requires LedgerOk(l) && Do(l, op).Returns() && (op.TransferOp? || op.PriceOp?) && !Moves(l, op) && !Reprices(l, op)
    ensures Do(l, op) == Ok(l)
  {
    if op.PriceOp? {
      NotRepriced(l, op.id, op.price);
    }
  }

  // ---- the index ----

  /** By how much one call shifts the index against the recomputation. */
  ghost function DriftShift(l: Ledger, op: Op, q: BalanceRequest): real {
    if Moves(l, op) && q == RequestOf(l.reservations[op.src])
        then Dropped(l, op.src, op.dst, Rounded(l, op.src, op.amount))
    else if Reprices(l, op) && q == RequestOf(l.reservations[op.id]) then PriceDiff(l.reservations[op.id], op.price)
    else 0.0
  }

  lemma DoShiftsDrift(l: Ledger, op: Op, q: BalanceRequest)
    requires LedgerOk(l) && Do(l, op).Returns()
    ensures Drift(Do(l, op).ledger, q) == Drift(l, q) + DriftShift(l, op, q)
  {
    if Moves(l, op) {
      MoveIs(l, op);
      TransferDrift(l, op.src, op.dst, Rounded(l, op.src, op.amount), op.order, q);
    } else if Reprices(l, op) {
      PriceUpdateDrift(l, op.id, op.price, q);
    } else {
      match op
      case ReserveOp(p) => StoreKeepsDrift(l, Attempt(l, p), q);
      case UnreserveOp(id, amount, order) => UnreserveKeepsDrift(l, id, amount, order, q);
      case ApproveOp(id, client, amount) => ApproveKeepsDrift(l, id, client, amount, q);
      case CancelOp(id, client) => CancelKeepsDrift(l, id, client, q);
      case TransferOp(_, _, _, _) => NoMoveIs(l, op);
      case PriceOp(_, _) => NoMoveIs(l, op);
    }
  }

  ghost function DriftAlong(l: Ledger, ops: seq<Op>, q: BalanceRequest): real
    requires LedgerOk(l) && Run(l, ops).Returns()
  {
    if ops == [] then 0.0
    else
      var n := |ops| - 1;
      DriftAlong(l, ops[..n], q) + DriftShift(Run(l, ops[..n]).ledger, ops[n], q)
  }

  /** After any run the index is off by exactly what its transfers dropped and its price updates moved. */
  lemma {:induction false} RunShiftsIndex(l: Ledger, ops: seq<Op>, q: BalanceRequest)
    requires LedgerOk(l) && Run(l, ops).Returns()
    ensures Drift(Run(l, ops).ledger, q) == Drift(l, q) + DriftAlong(l, ops, q)
    decreases |ops|
  {
    if ops != [] {
      var n := |ops| - 1;
      RunShiftsIndex(l, ops[..n], q);
      DoShiftsDrift(Run(l, ops[..n]).ledger, ops[n], q);
    }
  }

  /** A transfer that acts leaves residues that cancel, zero ones in particular; a price update moves nothing. */
  ghost predicate IndexGood(l: Ledger, op: Op) {
    && (Moves(l, op) ==> ExactTransfer(l, op.src, op.dst, Rounded(l, op.src, op.amount)))
    && (Reprices(l, op) ==> PriceDiff(l.reservations[op.id], op.price) == 0.0)
  }

  /** The index equals the recomputation after any run, if it did before: reserves, unreserves of any
      amount, approvals, cancellations, failed calls, exact transfers, also to itself, all keep it. */
  lemma {:induction false} RunKeepsIndex(l: Ledger, ops: seq<Op>, q: BalanceRequest)
    requires LedgerOk(l) && Run(l, ops).Returns() && Always(l, ops, IndexGood)
    ensures Drift(Run(l, ops).ledger, q) == Drift(l, q)
    ensures ValueOr0(l.reserved, q) == Recomputed(l, q) ==>
              ValueOr0(Run(l, ops).ledger.reserved, q) == Recomputed(Run(l, ops).ledger, q)
    decreases |ops|
  {
    if ops != [] {
      var before, op := LastStep(l, ops, IndexGood);
      RunKeepsIndex(l, ops[..|ops| - 1], q);
      DoShiftsDrift(before, op, q);
    }
  }

  /** Transfers leave zero or more than the margin on both sides; price updates move nothing. */
  ghost predicate ResidueFree(l: Ledger, op: Op) {
    && (Moves(l, op) ==> LeavesNoResidue(l, op.src, op.dst, Rounded(l, op.src, op.amount)))
    && (Reprices(l, op) ==> PriceDiff(l.reservations[op.id], op.price) == 0.0)
  }

  lemma {:induction false} ResidueFreeIsGood(l: Ledger, ops: seq<Op>)
    requires LedgerOk(l) && Run(l, ops).Returns() && Always(l, ops, ResidueFree)
    ensures Always(l, ops, IndexGood)
    decreases |ops|
  {
    if ops != [] {
      var before, op := LastStep(l, ops, ResidueFree);
      ResidueFreeIsGood(l, ops[..|ops| - 1]);
      if Moves(before, op) {
        NoResidueIsExact(before, op.src, op.dst, Rounded(before, op.src, op.amount));
      }
    }
  }

  ghost predicate IndexRight(l: Ledger) {
    forall q :: ValueOr0(l.reserved, q) == Recomputed(l, q)
  }

  /** In every run whose transfers leave zero or more than the margin on both sides, the index is at every
      request what recomputing it from the stored reservations gives. */
  lemma ResidueFreeRunsKeepIndex(l: Ledger, ops: seq<Op>)
    requires LedgerOk(l) && IndexRight(l) && Run(l, ops).Returns() && Always(l, ops, ResidueFree)
    ensures IndexRight(Run(l, ops).ledger)
  {
    ResidueFreeIsGood(l, ops);
    forall q ensures ValueOr0(Run(l, ops).ledger.reserved, q) == Recomputed(Run(l, ops).ledger, q) {
      RunKeepsIndex(l, ops, q);
    }
  }

  // ---- the money ----

  /** By how much one call shifts the balances against what the reservations owe. */
  ghost function SurplusShift(l: Ledger, op: Op, key: BalanceRequest): real {
    if Moves(l, op) then
      var r, t, moved := l.reservations[op.src], l.reservations[op.dst], Rounded(l, op.src, op.amount);
      Own(BalanceKey(r) == key, SourceShort(r, moved), PriceRate(r)) +
      Own(BalanceKey(t) == key, TargetShortOf(l.reservations, op.src, op.dst, moved), PriceRate(t))
    else if Reprices(l, op) && BalanceKey(l.reservations[op.id]) == key then
      Shortfall(l.reservations[op.id], PriceDiff(l.reservations[op.id], op.price), op.price)
    else 0.0
  }

  lemma DoShiftsSurplus(l: Ledger, op: Op, key: BalanceRequest)
    requires LedgerOk(l) && Do(l, op).Returns()
    ensures Surplus(Do(l, op).ledger, key) == Surplus(l, key) + SurplusShift(l, op, key)
  {
    if Moves(l, op) {
      MoveIs(l, op);
      TransferSurplus(l, op.src, op.dst, Rounded(l, op.src, op.amount), op.order, key);
    } else if Reprices(l, op) {
      PriceUpdateSurplus(l, op.id, op.price, key);
    } else {
      match op
      case ReserveOp(p) => StoreKeepsSurplus(l, Attempt(l, p), key);
      case UnreserveOp(id, amount, order) => UnreserveKeepsSurplus(l, id, amount, order, key);
      case ApproveOp(id, client, amount) => ApproveKeepsSurplus(l, id, client, amount, key);
      case CancelOp(id, client) => CancelKeepsSurplus(l, id, client, key);
      case TransferOp(_, _, _, _) => NoMoveIs(l, op);
      case PriceOp(_, _) => NoMoveIs(l, op);
    }
  }

  ghost function SurplusAlong(l: Ledger, ops: seq<Op>, key: BalanceRequest): real
    requires LedgerOk(l) && Run(l, ops).Returns()
  {
    if ops == [] then 0.0
    else
      var n := |ops| - 1;
      SurplusAlong(l, ops[..n], key) + SurplusShift(Run(l, ops[..n]).ledger, ops[n], key)
  }

  /** After any run the balances differ from what the reservations owe by exactly what its transfers and
      price updates left uncharged. */
  lemma {:induction false} RunShiftsMoney(l: Ledger, ops: seq<Op>, key: BalanceRequest)
    requires LedgerOk(l) && Run(l, ops).Returns()
    ensures Surplus(Run(l, ops).ledger, key) == Surplus(l, key) + SurplusAlong(l, ops, key)
    decreases |ops|
  {
    if ops != [] {
      var n := |ops| - 1;
      RunShiftsMoney(l, ops[..n], key);
      DoShiftsSurplus(Run(l, ops[..n]).ledger, ops[n], key);
    }
  }

  /** A transfer that acts leaves nothing uncharged, or what cancels; a price update charges what is gained. */
  ghost predicate MoneyGood(l: Ledger, op: Op) {
    && (Moves(l, op) ==> Conserving(l.reservations, op.src, op.dst, Rounded(l, op.src, op.amount)))
    && (Reprices(l, op) ==>
          var r := l.reservations[op.id];
          CostRate(r) == 0.0 || ChargesGain(r, PriceDiff(r, op.price), op.price))
  }

  lemma DoKeepsSurplus(l: Ledger, op: Op, key: BalanceRequest)
    requires LedgerOk(l) && Do(l, op).Returns() && MoneyGood(l, op)
    ensures Surplus(Do(l, op).ledger, key) == Surplus(l, key)
  {
    if Moves(l, op) {
      MoveIs(l, op);
      TransferConservesIff(l, op.src, op.dst, Rounded(l, op.src, op.amount), op.order);
    } else if Reprices(l, op) {
      PriceUpdateConservesIff(l, op.id, op.price);
    } else {
      DoShiftsSurplus(l, op, key);
    }
  }

  /** Money is conserved: whatever a run takes from the virtual balances is owed by the reservations it
      leaves. When none are left the balances are back where they were. */
  lemma {:induction false} RunConservesMoney(l: Ledger, ops: seq<Op>, key: BalanceRequest)
    requires LedgerOk(l) && Run(l, ops).Returns() && Always(l, ops, MoneyGood)
    ensures Surplus(Run(l, ops).ledger, key) == Surplus(l, key)
    ensures l.reservations == map[] && Run(l, ops).ledger.reservations == map[] ==>
              ValueOr0(Run(l, ops).ledger.diffs, key) == ValueOr0(l.diffs, key)
    decreases |ops|
  {
    if ops != [] {
      var before, op := LastStep(l, ops, MoneyGood);
      RunConservesMoney(l, ops[..|ops| - 1], key);
      DoKeepsSurplus(before, op, key);
    }
  }

  // ---- the approved parts ----

  /** Unreserves succeed and leave canceled parts alone, approvals may be given, transfers and price updates
      leave the parts exact. */
  ghost predicate PartsGood(l: Ledger, op: Op) {
    && (op.UnreserveOp? && LedgerOk(l) ==>
          && Unreserve(l, op.id, op.amount, op.order).Ok?
          && !TakesFromCanceled(l, op.id, op.amount, op.order))
    && (op.ApproveOp? ==> MayApprove(l, op.id, op.client, op.amount))
    && (Moves(l, op) ==> TransferPartsExact(l.reservations, op.src, op.dst, Rounded(l, op.src, op.amount), op.order))
    && (Reprices(l, op) ==> RestAmount(l.reservations[op.id]) == l.reservations[op.id].notApproved)
  }

  lemma PriceKeepsBalanced(l: Ledger, id: ReservationId, price: real)
    requires Balanced(l) && Repriced(l, id, price)
    ensures UpdatePrice(l, id, price).Ok?
    ensures Balanced(UpdatePrice(l, id, price).ledger) <==>
            RestAmount(l.reservations[id]) == l.reservations[id].notApproved
  {
    var r := l.reservations[id];
    var diff := PriceDiff(r, price);
    BalancedAt(l, id);
    RepricedIs(l, id, price);
    ApplyBalanced(l, id, r.(price := price), PriceChange(r, RestAmount(r), diff, ProportionalCost(r, diff).value,
        price));
  }

  lemma DoKeepsBalanced(l: Ledger, op: Op)
    requires LedgerOk(l) && Balanced(l) && Do(l, op).Returns() && PartsGood(l, op)
    ensures Balanced(Do(l, op).ledger)
  {
    if Moves(l, op) {
      MoveIs(l, op);
      TransferBalancedIff(l, op.src, op.dst, Rounded(l, op.src, op.amount), op.order);
    } else if Reprices(l, op) {
      PriceKeepsBalanced(l, op.id, op.price);
    } else {
      match op
      case ReserveOp(p) => StoreKeepsBalanced(l, Attempt(l, p), p);
      case UnreserveOp(id, amount, order) => UnreserveBalancedIff(l, id, amount, order);
      case ApproveOp(id, client, amount) => ApproveBalancedIff(l, id, client, amount);
      case CancelOp(id, client) => CancelKeepsBalanced(l, id, client);
      case TransferOp(_, _, _, _) => NoMoveIs(l, op);
      case PriceOp(_, _) => NoMoveIs(l, op);
    }
  }

  /** In every live reservation, what is not approved and the parts that are not canceled make up what is
      reserved, after any run of successful calls that leave canceled parts alone. */
  lemma {:induction false} RunKeepsParts(l: Ledger, ops: seq<Op>)
    requires LedgerOk(l) && Balanced(l) && Run(l, ops).Returns() && Always(l, ops, PartsGood)
    ensures Balanced(Run(l, ops).ledger)
    decreases |ops|
  {
    if ops != [] {
      var before, op := LastStep(l, ops, PartsGood);
      RunKeepsParts(l, ops[..|ops| - 1]);
      DoKeepsBalanced(before, op);
    }
  }

  // ---- limits and pledges ----

  /** Amounts are not negative, and a price update raises no reserved amount. */
  ghost predicate AmountsGood(l: Ledger, op: Op) {
    && (op.ReserveOp? ==> op.parameters.amount >= 0.0)
    && (op.UnreserveOp? ==> op.amount >= 0.0)
    && (Reprices(l, op) ==> PriceDiff(l.reservations[op.id], op.price) <= 0.0)
  }

  /** With limits and positions fixed, nothing drives position and reserved amount of a request above the
      limit or, where the position is already beyond it, above the position. */
  ghost predicate LimitsKept(l: Ledger, q: BalanceRequest) {
    NoNegative(l) && WithinLimit(l, q)
  }

  lemma PriceLowers(l: Ledger, id: ReservationId, price: real, q: BalanceRequest)
    requires NoNegative(l) && Repriced(l, id, price) && PriceDiff(l.reservations[id], price) <= 0.0
    ensures UpdatePrice(l, id, price).Ok?
    ensures var l' := UpdatePrice(l, id, price).ledger;
            NoNegative(l') && ValueOr0(l'.reserved, q) <= ValueOr0(l.reserved, q)
  {
    var r := l.reservations[id];
    var diff := PriceDiff(r, price);
    var change := PriceChange(r, RestAmount(r), diff, ProportionalCost(r, diff).value, price);
    RepricedIs(l, id, price);
    ApplyNoNegative(l, id, r.(price := price), change);
    ApplyMoves(l, id, r.(price := price), change, q);
  }

  lemma DoLowers(l: Ledger, op: Op, q: BalanceRequest)
    requires LedgerOk(l) && NoNegative(l) && Do(l, op).Returns() && AmountsGood(l, op) && !op.ReserveOp?
    ensures NoNegative(Do(l, op).ledger) && ValueOr0(Do(l, op).ledger.reserved, q) <= ValueOr0(l.reserved, q)
  {
    if Moves(l, op) {
      MoveIs(l, op);
      TransferKeepsReserved(l, op.src, op.dst, Rounded(l, op.src, op.amount), op.order, q);
    } else if Reprices(l, op) {
      PriceLowers(l, op.id, op.price, q);
    } else {
      match op
      case UnreserveOp(id, amount, order) => UnreserveLowers(l, id, amount, order, q);
      case ApproveOp(id, client, amount) => ApproveNoNegative(l, id, client, amount);
      case CancelOp(id, client) => CancelNoNegative(l, id, client);
      case TransferOp(_, _, _, _) => NoMoveIs(l, op);
      case PriceOp(_, _) => NoMoveIs(l, op);
    }
  }

  lemma DoKeepsLimits(l: Ledger, op: Op, q: BalanceRequest)
    requires LedgerOk(l) && LimitsKept(l, q) && Do(l, op).Returns() && AmountsGood(l, op)
    ensures LimitsKept(Do(l, op).ledger, q)
  {
    if op.ReserveOp? {
      ReserveWithinLimit(l, op.parameters, q);
    } else {
      DoKeepsOk(l, op);
      DoLowers(l, op, q);
      SameLimit(l, Do(l, op).ledger, q);
    }
  }

  lemma {:induction false} RunKeepsLimits(l: Ledger, ops: seq<Op>, q: BalanceRequest)
    requires LedgerOk(l) && LimitsKept(l, q) && Run(l, ops).Returns() && Always(l, ops, AmountsGood)
    ensures LimitsKept(Run(l, ops).ledger, q)
    decreases |ops|
  {
    if ops != [] {
      var before, op := LastStep(l, ops, AmountsGood);
      RunKeepsLimits(l, ops[..|ops| - 1], q);
      DoKeepsLimits(before, op, q);
    }
  }

  /** The open position is never pledged twice. */
  ghost predicate CoverKept(l: Ledger, market: MarketAccountId, side: OrderSide) {
    TakesNoNegative(l) && PledgesCovered(l, market, side)
  }

  /** Reserved amounts are not negative. */
  ghost predicate ReservesGood(l: Ledger, op: Op) {
    op.ReserveOp? ==> op.parameters.amount >= 0.0
  }

  lemma PriceKeepsCover(l: Ledger, id: ReservationId, price: real, market: MarketAccountId, side: OrderSide)
    requires CoverKept(l, market, side) && Repriced(l, id, price)
    ensures UpdatePrice(l, id, price).Ok? && CoverKept(UpdatePrice(l, id, price).ledger, market, side)
  {
    var r := l.reservations[id];
    var diff := PriceDiff(r, price);
    RepricedIs(l, id, price);
    ApplyTotal(l, id, r.(price := price), PriceChange(r, RestAmount(r), diff, ProportionalCost(r, diff).value, price),
               TakenIn(market, side));
  }

  lemma DoKeepsCover(l: Ledger, op: Op, market: MarketAccountId, side: OrderSide)
    requires LedgerOk(l) && CoverKept(l, market, side) && Do(l, op).Returns() && ReservesGood(l, op)
    ensures CoverKept(Do(l, op).ledger, market, side)
  {
    if Moves(l, op) {
      MoveIs(l, op);
      TransferKeepsCover(l, op.src, op.dst, Rounded(l, op.src, op.amount), op.order, market, side);
    } else if Reprices(l, op) {
      PriceKeepsCover(l, op.id, op.price, market, side);
    } else {
      match op
      case ReserveOp(p) => ReserveKeepsCover(l, p, market, side);
      case UnreserveOp(id, amount, order) => UnreserveKeepsCover(l, id, amount, order, market, side);
      case ApproveOp(id, client, amount) => ApproveKeepsCover(l, id, client, amount, market, side);
      case CancelOp(id, client) => CancelKeepsCover(l, id, client, market, side);
      case TransferOp(_, _, _, _) => NoMoveIs(l, op);
      case PriceOp(_, _) => NoMoveIs(l, op);
    }
  }

  lemma {:induction false} RunKeepsCover(l: Ledger, ops: seq<Op>, market: MarketAccountId, side: OrderSide)
    requires LedgerOk(l) && CoverKept(l, market, side) && Run(l, ops).Returns() && Always(l, ops, ReservesGood)
    ensures CoverKept(Run(l, ops).ledger, market, side)
    decreases |ops|
  {
    if ops != [] {
      var before, op := LastStep(l, ops, ReservesGood);
      RunKeepsCover(l, ops[..|ops| - 1], market, side);
      DoKeepsCover(before, op, market, side);
    }
  }

  // ---- reserving several amounts is a run ----

  function ReserveOps(ps: seq<ReserveParameters>): (ops: seq<Op>)
    ensures |ops| == |ps|
  {
    seq(|ps|, i requires 0 <= i < |ps| => ReserveOp(ps[i]))
  }

  function UnreserveOps(done: seq<Success>): (ops: seq<Op>)
    ensures |ops| == |done|
  {
    seq(|done|, i requires 0 <= i < |done| => UnreserveOp(done[i].id, done[i].parameters.amount, None))
  }

  lemma RunStep(l: Ledger, ops: seq<Op>, op: Op)
    requires LedgerOk(l) && Run(l, ops).Returns()
    ensures Run(l, ops + [op]) == Do(Run(l, ops).ledger, op)
  {
    assert (ops + [op])[..|ops|] == ops;
  }

  lemma {:induction false} TrailIsRun(l: Ledger, ps: seq<ReserveParameters>, trail: seq<(Ledger, seq<Success>)>)
    requires LedgerOk(l) && IsTrail(trail, l, ps)
    ensures Run(l, ReserveOps(ps)) == Ok(trail[|ps|].0)
    decreases |ps|
  {
    if ps != [] {
      var n := |ps| - 1;
      var earlier, before := ps[..n], trail[..n + 1];
      assert IsTrail(before, l, earlier) by {
        forall i | 0 <= i < n ensures TrailStep(before[i], before[i + 1], earlier[i]) {
          assert TrailStep(trail[i], trail[i + 1], ps[i]);
        }
      }
      TrailIsRun(l, earlier, before);
      assert TrailStep(trail[n], trail[n + 1], ps[n]);
      assert ReserveOps(ps) == ReserveOps(earlier) + [ReserveOp(ps[n])];
      RunStep(l, ReserveOps(earlier), ReserveOp(ps[n]));
    }
  }

  lemma ReservesAreRun(l: Ledger, ps: seq<ReserveParameters>)
    requires LedgerOk(l) && AllOk(l, ps)
    ensures Run(l, ReserveOps(ps)) == Ok(Reserved(l, ps).0)
  {
    var trail := ReservedTrail(l, ps);
    TrailIsRun(l, ps, trail);
  }

  lemma {:induction false} RunsCompose(l: Ledger, first: seq<Op>, second: seq<Op>)
    requires LedgerOk(l) && Run(l, first).Returns()
    ensures second != [] ==> Run(l, first + second) == Run(Run(l, first).ledger, second)
    decreases |second|
  {
    if second != [] {
      var n := |second| - 1;
      assert (first + second)[..|first + second| - 1] == first + second[..n];
      if n == 0 {
        assert first + second[..n] == first;
      } else {
        RunsCompose(l, first, second[..n]);
      }
    }
  }

  lemma {:induction false} UnreservesAreRun(l: Ledger, done: seq<Success>)
    requires LedgerOk(l) && UnreserveAll(l, done).Ok?
    ensures Run(l, UnreserveOps(done)) == UnreserveAll(l, done)
    decreases |done|
  {
    if done != [] {
      var s, rest := done[0], done[1..];
      var op := UnreserveOp(s.id, s.parameters.amount, None);
      var o := Unreserve(l, s.id, s.parameters.amount, None);
      assert UnreserveOps(done) == [op] + UnreserveOps(rest);
      UnreservesAreRun(o.ledger, rest);
      assert Run(l, [op]) == o by {
        RunStep(l, [], op);
        assert [] + [op] == [op];
      }
      if rest != [] {
        RunsCompose(l, [op], UnreserveOps(rest));
      }
    }
  }

  /** The calls reserving several amounts makes. */
  ghost function MultipleOps(l: Ledger, ps: seq<ReserveParameters>): seq<Op>
    requires LedgerOk(l) && AllOk(l, ps)
  {
    var done := Reserved(l, ps).1;
    if |done| == |ps| then ReserveOps(ps) else ReserveOps(ps) + UnreserveOps(done)
  }

  /** Reserving several amounts is a run of single reserves and unreserves, so it keeps all that runs
      keep. */
  lemma MultipleIsRun(l: Ledger, ps: seq<ReserveParameters>)
    requires LedgerOk(l) && AllOk(l, ps)
    ensures TryReserveMultiple(l, ps).outcome == Run(l, MultipleOps(l, ps))
  {
    var attempts := Attempts(l, ps);
    var (l1, done) := StoreAll(l, ps, attempts);
    ReservesAreRun(l, ps);
    if |done| != |ps| {
      assert UnreserveAll(l1, done).Ok? by {
        StoreAllAdds(l, ps, attempts);
        UnreserveAllRemoves(l1, done);
      }
      UnreservesAreRun(l1, done);
      if done == [] {
        assert ReserveOps(ps) + UnreserveOps(done) == ReserveOps(ps);
      } else {
        RunsCompose(l, ReserveOps(ps), UnreserveOps(done));
      }
    }
  }
}
