/** The balance reservation manager in its own form: fields changed in place, proved against the
    functions on the ledger. */
module BalanceReservations {
  import opened Domain
  import opened Sums
  import opened Symbols
  import opened ServiceValueTrees
  import opened ReservationLedger
  import opened LedgerIndex
  import opened LedgerRollback
  import opened LedgerRuns
  import opened LedgerPrices
  import opened VirtualBalances

  lemma AddTwice(table: Table, key: BalanceRequest, x: real, y: real)
    ensures AddTo(AddTo(table, key, x), key, y) == AddTo(table, key, x + y)
  {
  }

  lemma ChargeTwice(diffs: Table, r: Reservation, x: real, y: real)
    requires ReservationOk(r)
    ensures AddBalance(AddBalance(diffs, r, x), r, y) == AddBalance(diffs, r, x + y)
  {
    var code := BalanceKey(r).code;
    ConversionAdds(r.symbol, code, x, y, r.price);
    AddTwice(diffs, BalanceKey(r), ConvertFromAmount(r.symbol, code, x, r.price),
        ConvertFromAmount(r.symbol, code, y, r.price));
  }

  lemma ConversionAdds(symbol: Symbol, code: CurrencyCode, x: real, y: real, price: real)
    requires price > 0.0 && symbol.Converts(code)
    ensures ConvertFromAmount(symbol, code, x, price) + ConvertFromAmount(symbol, code, y, price) ==
            ConvertFromAmount(symbol, code, x + y, price)
  {
    var rate := Rate(symbol, code, price);
    ConversionIsLinear(symbol, code, x, price);
    ConversionIsLinear(symbol, code, y, price);
    ConversionIsLinear(symbol, code, x + y, price);
    assert (x + y) * rate == x * rate + y * rate;
  }

  lemma SameProportion(a: Reservation, b: Reservation, amount: real)
    requires a.cost == b.cost && a.amount == b.amount
    ensures ProportionalCost(a, amount) == ProportionalCost(b, amount)
  {
  }

  lemma LoweredSame(r: Reservation, order: Option<ClientOrderId>, amount: real)
    ensures var lowered := UnreserveNotApprovedPart(r, order, amount).0;
            SameAmounts(r, lowered) && ProportionalCost(lowered, -amount) == ProportionalCost(r, -amount)
  {
    SameProportion(r, UnreserveNotApprovedPart(r, order, amount).0, -amount);
  }

  lemma UnreserveCases(l: Ledger, id: ReservationId, amount: real, order: Option<ClientOrderId>)
    requires LedgerOk(l) && id in l.reservations && ReservationOk(l.reservations[id])
             && UnreserveActs(l, l.reservations[id], amount)
    requires ReservationLedger.Unreserve(l, id, amount, order).Returns()
    ensures var r := l.reservations[id];
            var o, u := ReservationLedger.Unreserve(l, id, amount, order),
                UnreserveRounded(r, RoundAmount(r.symbol, amount), order);
            o.ledger == AfterUnreserve(l, id, r, u) && o.Ok? == u.Changed?
  {
  }

  /** The ledger once the reservation is removed and what was left of it is compensated. */
  ghost function Compensated(l: Ledger, id: ReservationId, left: Reservation): Ledger
    requires ReservationOk(left)
  {
    var cost := ProportionalCost(left, -left.unreserved);
    if left.unreserved == 0.0 || cost.None? then l.(reservations := l.reservations - {id})
    else l.(reservations := l.reservations - {id}, reserved := AddTo(l.reserved, RequestOf(left), -left.unreserved),
            diffs := AddBalance(l.diffs, left, -cost.value))
  }

  /** Moving an amount and then compensating is the one change that Settle describes. */
  lemma SettleIsApply(l: Ledger, id: ReservationId, r: Reservation, left: Reservation, moved: real, paid: real)
    requires ReservationOk(r) && SameTerms(r, left) && UsedUp(left)
    ensures var u := Settle(left, moved, paid);
            && !u.Failed? && u.Changed? == (left.unreserved == 0.0 || ProportionalCost(left, -left.unreserved).Some?)
            && ApplyChange(l, id, r, u.change) == Compensated(Taken(l, id, r, left, moved, paid), id, left)
  {
    var cost := ProportionalCost(left, -left.unreserved);
    if left.unreserved != 0.0 && cost.Some? {
      CompensationIsApply(l, id, r, left, moved, paid, cost.value);
    } else {
      RemovalIsApply(l, id, r, left, moved, paid);
    }
  }

  lemma RemovalIsApply(l: Ledger, id: ReservationId, r: Reservation, left: Reservation, moved: real, paid: real)
    requires ReservationOk(r)
    ensures var l1 := Taken(l, id, r, left, moved, paid);
            ApplyChange(l, id, r, Change(None, moved, paid)) == l1.(reservations := l1.reservations - {id})
  {
    assert l.reservations[id := left] - {id} == l.reservations - {id};
  }

  lemma CompensationIsApply(l: Ledger, id: ReservationId, r: Reservation, left: Reservation, moved: real, paid: real,
                            cost: real)
    requires ReservationOk(r) && SameTerms(r, left)
    ensures var l1 := Taken(l, id, r, left, moved, paid);
            ApplyChange(l, id, r, Change(None, moved - left.unreserved, paid + cost)) ==
            l1.(reservations := l1.reservations - {id}, reserved := AddTo(l1.reserved, RequestOf(left),
                -left.unreserved),
                diffs := AddBalance(l1.diffs, left, -cost))
  {
    assert l.reservations[id := left] - {id} == l.reservations - {id};
    TwoChargesAreOne(l, r, left, moved, paid, cost);
  }

  lemma TwoChargesAreOne(l: Ledger, r: Reservation, left: Reservation, moved: real, paid: real, cost: real)
    requires ReservationOk(r) && SameTerms(r, left)
    ensures AddTo(AddTo(l.reserved, RequestOf(r), moved), RequestOf(left), -left.unreserved) ==
            AddTo(l.reserved, RequestOf(r), moved - left.unreserved)
    ensures AddBalance(AddBalance(l.diffs, r, -paid), left, -cost) == AddBalance(l.diffs, r, -(paid + cost))
  {
    AddTwice(l.reserved, RequestOf(r), moved, -left.unreserved);
    ChargeTwice(l.diffs, r, -paid, -cost);
    SameCharge(AddBalance(l.diffs, r, -paid), r, left, -cost);
    assert -paid + -cost == -(paid + cost);
  }

  lemma SameCharge(diffs: Table, r: Reservation, t: Reservation, diff: real)
    requires ReservationOk(r) && SameTerms(r, t)
    ensures AddBalance(diffs, r, diff) == AddBalance(diffs, t, diff)
  {
  }

  class BalanceReservationManager {
    var reservations: map<ReservationId, Reservation>
    var nextId: ReservationId
    var reservedTree: ServiceValueTree
    /** The table the tree of reserved amounts stands for. */
    ghost var reserved: Table
    const holder: VirtualBalanceHolder
    var limits: Table
    var positions: map<MarketAccountId, real>
    const leverages: map<MarketAccountId, real>
    const symbols: map<MarketAccountId, Symbol>
    const exchanges: set<ExchangeAccountId>
    const isClone: bool

    ghost function View(): Ledger
      reads this, holder
    {
      Ledger(reservations, nextId, reserved, holder.diffs, limits, positions, holder.balances, leverages, symbols,
          exchanges, isClone)
    }

    /** The trees stand for the tables and are not the same tree. */
    ghost predicate Linked()
      reads this, reservedTree, holder, holder.balanceDiff
    {
      reservedTree != holder.balanceDiff && Shows(reservedTree.tree, reserved) && holder.Valid()
    }

    ghost predicate Valid()
      reads this, reservedTree, holder, holder.balanceDiff
    {
      Linked() && LedgerOk(View())
    }

    constructor (symbols: map<MarketAccountId, Symbol>, leverages: map<MarketAccountId, real>,
        exchanges: set<ExchangeAccountId>, isClone: bool)
      ensures Valid() && View().reservations == map[] && View().reserved == map[] && View().diffs == map[]
      ensures fresh(reservedTree) && fresh(holder) && fresh(holder.balanceDiff)
    {
      reservations, nextId, limits, positions := map[], 0, map[], map[];
      reservedTree := new ServiceValueTree();
      reserved := map[];
      holder := new VirtualBalanceHolder(exchanges);
      this.symbols, this.leverages, this.exchanges, this.isClone := symbols, leverages, exchanges, isClone;
    }

    // ---- reserved amounts ----

    method Charge(r: Reservation, cost: real)
      requires Linked() && ReservationOk(r)
      modifies holder`diffs, holder.balanceDiff
      ensures Linked() && holder.diffs == AddBalance(old(holder.diffs), r, -cost)
    {
      holder.AddBalanceBySymbol(RequestOf(r), r.symbol, -cost, r.price);
    }

    /** Charges the proportional cost if asked to, then moves the reserved amount. */
    method AddReservedAmountByReservation(request: BalanceRequest, r: Reservation, diff: real, updateBalance: bool)
      returns (r': Reservation, ok: bool)
      requires Linked() && ReservationOk(r) && request == RequestOf(r)
      modifies this`reserved, reservedTree, holder`diffs, holder.balanceDiff
      ensures Linked()
      ensures ok <==> !updateBalance || ProportionalCost(r, diff).Some?
      ensures !ok ==> r' == r && View() == old(View())
      ensures ok ==> r' == r.(unreserved := r.unreserved + diff) && reserved == AddTo(old(reserved), RequestOf(r), diff)
      ensures ok ==> holder.diffs == if updateBalance then AddBalance(old(holder.diffs), r,
              -ProportionalCost(r, diff).value) else old(holder.diffs)
    {
      if updateBalance {
        var cost := ProportionalCost(r, diff);
        if cost.None? {
          return r, false;
        }
        Charge(r, cost.value);
      }
      r' := r.(unreserved := r.unreserved + diff);
      var target := BalanceRequest(request.descriptor, request.account, request.pair, r.code);
      ghost var before := reservedTree.tree;
      reservedTree.AddByRequest(target, diff);
      ShowsAdd(before, reservedTree.tree, reserved, target, diff);
      reserved := AddTo(reserved, target, diff);
      ok := true;
    }

    method AddReservedAmount(id: ReservationId, diff: real, updateBalance: bool) returns (ok: bool)
      requires Linked() && id in reservations && ReservationOk(reservations[id])
      modifies this`reservations, this`reserved, reservedTree, holder`diffs, holder.balanceDiff
      ensures Linked()
      ensures var r := old(reservations[id]);
              && (ok <==> !updateBalance || ProportionalCost(r, diff).Some?)
              && (!ok ==> View() == old(View()))
              && (ok ==>
                    && reservations == old(reservations)[id := r.(unreserved := r.unreserved + diff)]
                    && reserved == AddTo(old(reserved), RequestOf(r), diff)
                    && holder.diffs == if updateBalance then AddBalance(old(holder.diffs), r,
                       -ProportionalCost(r, diff).value) else old(holder.diffs))
    {
      var r := reservations[id];
      var r', added := AddReservedAmountByReservation(RequestOf(r), r, diff, updateBalance);
      reservations := reservations[id := r'];
      ok := added;
      assert !ok ==> reservations == old(reservations);
    }

    // ---- unreserve ----

    method UnreserveNotApproved(id: ReservationId, order: Option<ClientOrderId>, amount: real) returns (ok: bool)
      requires id in reservations
      modifies this`reservations
      ensures var (r, goOn) := UnreserveNotApprovedPart(old(reservations[id]), order, amount);
              reservations == old(reservations)[id := r] && ok == goOn
    {
      var r := reservations[id];
      if order.None? {
        reservations := reservations[id := r.(notApproved := r.notApproved - amount)];
        return !(r.notApproved - amount < 0.0 && r.unreserved > amount);
      }
      if order.value !in r.parts {
        reservations := reservations[id := r.(notApproved := r.notApproved - amount)];
        return true;
      }
      var part := r.parts[order.value];
      if part.unreserved - amount < 0.0 {
        assert reservations == reservations[id := r];
        return false;
      }
      reservations := reservations[id := r.(parts :=
          r.parts[order.value := part.(unreserved := part.unreserved - amount)])];
      return true;
    }

    /** Removes a reservation that is used up and compensates what was over- or under-unreserved. */
    method RemoveUsedUp(id: ReservationId) returns (ok: bool)
      requires Linked() && id in reservations && ReservationOk(reservations[id]) && UsedUp(reservations[id])
      modifies this`reservations, this`reserved, reservedTree, holder`diffs, holder.balanceDiff
      ensures Linked() && View() == Compensated(old(View()), id, old(reservations[id]))
      ensures var r := old(reservations[id]); ok <==> r.unreserved == 0.0 || ProportionalCost(r, -r.unreserved).Some?
    {
      var r := reservations[id];
      reservations := reservations - {id};
      ok := true;
      if r.unreserved != 0.0 {
        var _, added := AddReservedAmountByReservation(RequestOf(r), r, -r.unreserved, true);
        ok := added;
      }
    }

    /** The balance queries before and after are for the log only; all they can do is panic. */
    method Unreserve(id: ReservationId, amount: real, order: Option<ClientOrderId>) returns (ok: bool)
      requires Valid() && ReservationLedger.Unreserve(View(), id, amount, order).Returns()
      modifies this`reservations, this`reserved, reservedTree, holder`diffs, holder.balanceDiff
      ensures Valid()
      ensures View() == ReservationLedger.Unreserve(old(View()), id, amount, order).ledger
      ensures ok == ReservationLedger.Unreserve(old(View()), id, amount, order).Ok?
    {
      if id !in reservations {
        return isClone || amount == 0.0;
      }
      var r := reservations[id];
      assert StoredOk(id, nextId, r);
      var rounded := RoundAmount(r.symbol, amount);
      if rounded == 0.0 && r.amount != 0.0 {
        return true;
      }
      if r.account !in exchanges {
        return true;
      }
      UnreserveCases(View(), id, amount, order);
      ok := UnreserveActing(id, rounded, order);
    }

    /** Takes the rounded amount away from the reservation. */
    method TakeAway(id: ReservationId, amount: real, order: Option<ClientOrderId>) returns (ok: bool)
      requires Linked() && id in reservations && ReservationOk(reservations[id])
      modifies this`reservations, this`reserved, reservedTree, holder`diffs, holder.balanceDiff
      ensures Linked()
      ensures var r := old(reservations[id]);
              var (lowered, goOn) := UnreserveNotApprovedPart(r, order, amount);
              var cost := ProportionalCost(r, -amount);
              && (ok <==> goOn && cost.Some?)
              && (!ok ==> View() == Put(old(View()), id, lowered))
              && (ok ==> View() == Taken(old(View()), id, r, lowered.(unreserved := r.unreserved - amount), -amount,
                 cost.value))
    {
      ghost var r, was := reservations[id], View();
      LoweredSame(r, order, amount);
      ok := UnreserveNotApproved(id, order, amount);
      if ok {
        ghost var lowered := reservations[id];
        ok := AddReservedAmount(id, -amount, true);
        if ok {
          SameCharge(was.diffs, r, lowered, -ProportionalCost(r, -amount).value);
        }
      }
    }

    /** The part of `unreserve` that changes something; `amount` is already rounded. */
    method UnreserveActing(id: ReservationId, amount: real, order: Option<ClientOrderId>) returns (ok: bool)
      requires Linked() && id in reservations && ReservationOk(reservations[id])
      modifies this`reservations, this`reserved, reservedTree, holder`diffs, holder.balanceDiff
      ensures Linked()
      ensures View() == AfterUnreserve(old(View()), id, old(reservations[id]),
              UnreserveRounded(old(reservations[id]), amount, order))
      ensures ok == UnreserveRounded(old(reservations[id]), amount, order).Changed?
    {
      ghost var r, was := reservations[id], View();
      ok := TakeAway(id, amount, order);
      if ok {
        TakenIsUnreserve(was, id, r, amount, order, reservations[id]);
        if UsedUp(reservations[id]) {
          ok := RemoveUsedUp(id);
        }
      }
    }

    // ---- reserve ----

    /** The state as a value, for the queries that only compute. */
    method Snapshot() returns (l: Ledger)
      requires Linked()
      ensures l == View()
    {
      var index := GetAsBalances(reservedTree.tree);
      ShowsFlat(reservedTree.tree, reserved);
      var diffs := holder.AllDiffs();
      l := Ledger(reservations, nextId, index, diffs, limits, positions, holder.balances, leverages, symbols,
          exchanges, isClone);
    }

    /** Sums what reservations of one side have taken of open positions, in any order. */
    method TakenAmount(side: OrderSide) returns (taken: real)
      ensures taken == Total(reservations, TakenBySide(side))
    {
      taken := 0.0;
      var todo := reservations;
      while todo != map[]
        invariant taken + Total(todo, TakenBySide(side)) == Total(reservations, TakenBySide(side))
        decreases |todo|
      {
        var id :| id in todo;
        TotalSplit(todo, TakenBySide(side), id);
        if todo[id].side == side {
          taken := taken + todo[id].takenFree;
        }
        todo := todo - {id};
      }
    }

    /** The checks before a reservation is made. */
    method CanReserveCore(p: ReserveParameters) returns (attempt: Option<Reservation>)
      requires Linked() && ParametersOk(View(), p)
      ensures attempt == Attempt(View(), p)
    {
      var now := Snapshot();
      var taken := TakenAmount(p.side);
      var free := Max(0.0, ClosablePosition(now, p.account, p.symbol, p.side) - taken);
      var (cost, covered) := CostGiven(now, p, free);
      if CanPay(now, p, cost) {
        attempt := Some(NewReservation(p, cost, covered));
      } else {
        attempt := None;
      }
    }

    method TryReserve(p: ReserveParameters) returns (id: Option<ReservationId>)
      requires Valid() && ParametersOk(View(), p)
      modifies this`reservations, this`nextId, this`reserved, reservedTree, holder`diffs, holder.balanceDiff
      ensures Valid() && View() == ReservationLedger.TryReserve(old(View()), p)
      ensures id == if Attempt(old(View()), p).Some? then Some(old(nextId)) else None
    {
      ghost var was := View();
      var attempt := CanReserveCore(p);
      if attempt.None? {
        return None;
      }
      Record(attempt.value);
      id := Some(nextId - 1);
    }

    /** Stores an accepted reservation and reserves its amount. */
    method Record(r: Reservation)
      requires Valid() && ReservationOk(r) && r.unreserved == 0.0
      modifies this`reservations, this`nextId, this`reserved, reservedTree, holder`diffs, holder.balanceDiff
      ensures Valid() && View() == Store(old(View()), Some(r))
    {
      RecordIsStore(View(), r);
      Add(r);
    }

    method Add(r: Reservation)
      requires Linked() && ReservationOk(r) && ProportionalCost(r, r.amount).Some?
      modifies this`reservations, this`nextId, this`reserved, reservedTree, holder`diffs, holder.balanceDiff
      ensures Linked() && View() == WithNew(old(View()), r)
    {
      var id := nextId;
      nextId := nextId + 1;
      reservations := reservations[id := r];
      var added := AddReservedAmount(id, r.amount, true);
    }

    /** All reservations or none; the loops of `try_reserve_multiple`. */
    method TryReserveMultiple(ps: seq<ReserveParameters>) returns (ids: Option<seq<ReservationId>>)
      requires Valid() && AllOk(View(), ps)
      modifies this`reservations, this`nextId, this`reserved, reservedTree, holder`diffs, holder.balanceDiff
      ensures Valid() && LedgerRollback.TryReserveMultiple(old(View()), ps).outcome == Ok(View())
      ensures var done := LedgerRollback.TryReserveMultiple(old(View()), ps).done;
              ids == if done.Some? then Some(Ids(done.value)) else None
    {
      var done := ReserveAll(ps);
      if |done| != |ps| {
        assert UnreserveAll(View(), done).Ok? by {
          RollbackSucceeds(old(View()), ps);
        }
        TakeBack(done);
        return None;
      }
      return Some(Ids(done));
    }

    method ReserveAll(ps: seq<ReserveParameters>) returns (done: seq<Success>)
      requires Valid() && AllOk(View(), ps)
      modifies this`reservations, this`nextId, this`reserved, reservedTree, holder`diffs, holder.balanceDiff
      ensures Valid() && Reserved(old(View()), ps) == (View(), done)
    {
      ghost var trail := ReservedTrail(View(), ps);
      done := [];
      var i := 0;
      while i < |ps|
        invariant Valid() && i <= |ps| && trail[i] == (View(), done)
      {
        assert TrailStep(trail[i], trail[i + 1], ps[i]);
        var id := TryReserve(ps[i]);
        done := if id.Some? then done + [Success(id.value, ps[i])] else done;
        i := i + 1;
      }
    }

    method TakeBack(done: seq<Success>)
      requires Valid() && UnreserveAll(View(), done).Ok?
      modifies this`reservations, this`reserved, reservedTree, holder`diffs, holder.balanceDiff
      ensures Valid() && UnreserveAll(old(View()), done) == Ok(View())
    {
      ghost var was := View();
      var i := 0;
      while i < |done|
        invariant Valid() && i <= |done|
        invariant UnreserveAll(View(), done[i..]) == UnreserveAll(was, done)
      {
        assert done[i..][0] == done[i] && done[i..][1..] == done[i + 1..];
        var ok := Unreserve(done[i].id, done[i].parameters.amount, None);
        i := i + 1;
      }
      assert done[i..] == [];
    }

    // ---- approved parts ----

    method ApproveReservation(id: ReservationId, order: ClientOrderId, amount: real) returns (ok: bool)
      requires Valid()
      modifies this`reservations
      ensures Valid() && View() == Approve(old(View()), id, order, amount).ledger
      ensures ok == Approve(old(View()), id, order, amount).Ok?
    {
      ghost var was := View();
      ApproveKeepsOk(was, id, order, amount);
      if id !in reservations || order in reservations[id].parts {
        return true;
      }
      var r := reservations[id];
      r := r.(notApproved := r.notApproved - amount);
      ok := !(r.notApproved < 0.0 && !WithinMargin(r.symbol, r.notApproved));
      if ok {
        r := r.(parts := r.parts[order := ApprovedPart(amount, false, amount)]);
      }
      reservations := reservations[id := r];
    }

    /** Canceling a part twice panics. */
    method CancelApprovedReservation(id: ReservationId, order: ClientOrderId)
      requires Valid() && CancelApproved(View(), id, order).Returns()
      modifies this`reservations
      ensures Valid() && CancelApproved(old(View()), id, order) == Ok(View())
    {
      ghost var was := View();
      if id in reservations && order in reservations[id].parts {
        var r := reservations[id];
        var part := r.parts[order];
        r := r.(notApproved := r.notApproved + part.unreserved);
        r := r.(parts := r.parts[order := part.(isCanceled := true)]);
        assert r == CancelOn(reservations[id], order);
        reservations := reservations[id := r];
      }
      assert CancelApproved(was, id, order) == Ok(View());
      CancelKeepsOk(was, id, order);
    }

    // ---- transfer ----

    /** What one side of a transfer does to the approved parts; the cases left out panic. */
    method MoveApproved(id: ReservationId, order: Option<ClientOrderId>, diff: real, isSrc: bool)
      requires id in reservations && MoveParts(reservations[id], order, diff, isSrc).Some?
      modifies this`reservations
      ensures reservations == old(reservations)[id := MoveParts(old(reservations[id]), order, diff, isSrc).value]
    {
      var r := reservations[id];
      if order.Some? {
        if order.value in r.parts {
          var part := r.parts[order.value];
          var left := part.unreserved + diff;
          if WithinMargin(r.symbol, left) {
            r := r.(parts := r.parts - {order.value});
          } else {
            r := r.(parts := r.parts[order.value := part.(unreserved := left, amount := part.amount + diff)]);
          }
        } else {
          r := r.(parts := r.parts[order.value := ApprovedPart(diff, false, diff)]);
        }
      } else {
        r := r.(notApproved := r.notApproved + diff);
      }
      reservations := reservations[id := r];
    }

    /** Moves and charges one side of a transfer. */
    method ChargeSide(id: ReservationId, diff: real, order: Option<ClientOrderId>, isSrc: bool, targetCost: real)
        returns (costDiff: real)
      requires Linked() && id in reservations && ReservationOk(reservations[id])
      requires MoveParts(reservations[id], order, diff, isSrc).Some?
               && (isSrc ==> ProportionalCost(reservations[id], diff).Some?)
      modifies this`reservations, this`reserved, reservedTree, holder`diffs, holder.balanceDiff
      ensures Linked()
      ensures var r := old(reservations[id]);
              var moved := MoveParts(r, order, diff, isSrc).value;
              && costDiff == (if isSrc then ProportionalCost(r, diff).value else targetCost)
              && View() == Taken(old(View()), id, r, moved.(unreserved := r.unreserved + diff), diff, costDiff)
    {
      var r := reservations[id];
      MoveApproved(id, order, diff, isSrc);
      SameProportion(r, reservations[id], diff);
      var _ := AddReservedAmount(id, diff, false);
      costDiff := if isSrc then ProportionalCost(r, diff).value else targetCost;
      Charge(r, costDiff);
    }

    /** One side of a transfer; the cost moved with it is returned. */
    method UpdateUnreservedAmountForTransfer(id: ReservationId, newUnreserved: real, order: Option<ClientOrderId>,
                                             isSrc: bool, targetCost: real)
      returns (costDiff: real)
      requires Linked() && id in reservations && ReservationOk(reservations[id])
      requires TransferSide(reservations[id], newUnreserved - reservations[id].unreserved, order, isSrc,
               targetCost).Some?
      modifies this`reservations, this`reserved, reservedTree, holder`diffs, holder.balanceDiff
      ensures Linked()
      ensures var r := old(reservations[id]);
              var change := TransferSide(r, newUnreserved - r.unreserved, order, isSrc, targetCost).value;
              View() == ApplyChange(old(View()), id, r, change) && costDiff == change.paid
    {
      var r := reservations[id];
      var diff := newUnreserved - r.unreserved;
      SideIsApply(View(), id, r, diff, order, isSrc, targetCost);
      costDiff := ChargeSide(id, diff, order, isSrc, targetCost);
      var after := reservations[id];
      after := after.(cost := after.cost + costDiff, amount := after.amount + diff);
      reservations := reservations[id := after];
      if WithinMargin(r.symbol, newUnreserved) {
        reservations := reservations - {id};
      }
    }

    method TransferAmount(src: ReservationId, dst: ReservationId, amount: real, order: Option<ClientOrderId>)
      requires Valid() && ReservationLedger.TransferAmount(View(), src, dst, amount, order).Ok?
      modifies this`reservations, this`reserved, reservedTree, holder`diffs, holder.balanceDiff
      ensures Valid() && ReservationLedger.TransferAmount(old(View()), src, dst, amount, order) == Ok(View())
    {
      ghost var c, d, t := TransferShape(View(), src, dst, amount, order);
      TransferKeepsOk(View(), src, dst, amount, order);
      WorkOffTransfer(src, dst, amount, order, c, d);
    }

    /** The available balance with the free position. */
    method BalanceNow(p: ReserveParameters) returns (balance: Option<real>)
      requires Linked() && p.symbol.Ok() && p.price > 0.0 && QueryOk(View(), p)
      ensures balance == BalanceWithFree(View(), p)
    {
      var now := Snapshot();
      var taken := TakenAmount(p.side);
      balance := BalanceGiven(now, p, Some(Max(0.0, ClosablePosition(now, p.account, p.symbol, p.side) - taken)));
    }

    /** Checks the balance between different prices of a derivative, then moves the amount. */
    method TryTransferReservation(src: ReservationId, dst: ReservationId, amount: real, order: Option<ClientOrderId>)
      returns (moved: bool)
      requires Valid() && TryTransfer(View(), src, dst, amount, order).Returns()
      modifies this`reservations, this`reserved, reservedTree, holder`diffs, holder.balanceDiff
      ensures Valid() && TryTransfer(old(View()), src, dst, amount, order) == Ok(View())
      ensures moved == TransferActs(old(View()), src, dst, amount)
    {
      var r, t := reservations[src], reservations[dst];
      var toMove := RoundAmount(r.symbol, amount);
      if toMove == 0.0 {
        return false;
      }
      if r.price != t.price && r.symbol.isDerivative {
        var added := ConvertFromAmount(r.symbol, r.code, toMove, r.price);
        var taken := ConvertFromAmount(t.symbol, t.code, toMove, t.price);
        var balance := BalanceNow(FromReservation(t));
        if balance.value + (added - taken) < 0.0 {
          return false;
        }
      }
      TransferAmount(src, dst, toMove, order);
      return true;
    }

    method WorkOffTransfer(src: ReservationId, dst: ReservationId, amount: real, order: Option<ClientOrderId>,
                           ghost c: Change, ghost d: Change)
      requires Linked() && src in reservations && ReservationOk(reservations[src])
      requires TransferSide(reservations[src], -amount, order, true, 0.0) == Some(c)
      requires var l1 := ApplyChange(View(), src, reservations[src], c);
               && dst in l1.reservations && ReservationOk(l1.reservations[dst])
               && TransferSide(l1.reservations[dst], amount, order, false, -c.paid) == Some(d)
      modifies this`reservations, this`reserved, reservedTree, holder`diffs, holder.balanceDiff
      ensures Linked()
      ensures var l1 := ApplyChange(old(View()), src, old(reservations[src]), c);
              View() == ApplyChange(l1, dst, l1.reservations[dst], d)
    {
      var cost := UpdateUnreservedAmountForTransfer(src, reservations[src].unreserved - amount, order, true, 0.0);
      var _ := UpdateUnreservedAmountForTransfer(dst, reservations[dst].unreserved + amount, order, false, -cost);
    }

    // ---- price ----

    /** Sums what the canceled parts of a reservation have left, in any order. */
    method CanceledSum(parts: map<ClientOrderId, ApprovedPart>) returns (sum: real)
      ensures sum == Total(parts, CanceledAmount())
    {
      sum := 0.0;
      var todo := parts;
      while todo != map[]
        invariant sum + Total(todo, CanceledAmount()) == Total(parts, CanceledAmount())
        decreases |todo|
      {
        var order :| order in todo;
        TotalSplit(todo, CanceledAmount(), order);
        if todo[order].isCanceled {
          sum := sum + todo[order].unreserved;
        }
        todo := todo - {order};
      }
    }

    /** Checks the balance at the new price, then moves the difference. */
    method TryUpdateReservationPrice(id: ReservationId, newPrice: real) returns (updated: bool)
      requires Valid() && newPrice > 0.0 && UpdatePrice(View(), id, newPrice).Ok?
      modifies this`reservations, this`reserved, reservedTree, holder`diffs, holder.balanceDiff
      ensures Valid() && UpdatePrice(old(View()), id, newPrice) == Ok(View())
      ensures updated == Repriced(old(View()), id, newPrice)
    {
      if id !in reservations {
        return false;
      }
      UpdatePriceKeepsOk(View(), id, newPrice);
      var r := reservations[id];
      assert StoredOk(id, nextId, r);
      var canceled := CanceledSum(r.parts);
      var rest := r.amount - canceled;
      var balance := BalanceNow(FromReservation(r).(price := newPrice));
      if balance.value - DiffInCode(r, rest, newPrice) < 0.0 {
        return false;
      }
      RepricedIs(View(), id, newPrice);
      Reprice(id, rest, DiffGiven(r, rest, newPrice), newPrice);
      return true;
    }

    method Reprice(id: ReservationId, rest: real, diff: real, newPrice: real)
      requires Linked() && id in reservations && ReservationOk(reservations[id]) && newPrice > 0.0
      requires ProportionalCost(reservations[id], diff).Some?
      modifies this`reservations, this`reserved, reservedTree, holder`diffs, holder.balanceDiff
      ensures Linked()
      ensures var r := old(reservations[id]);
              View() == ApplyChange(old(View()), id, r.(price := newPrice),
                                    PriceChange(r, rest, diff, ProportionalCost(r, diff).value, newPrice))
    {
      var r := reservations[id];
      var priced := r.(price := newPrice, unreserved := r.unreserved - diff);
      SameProportion(r, priced, diff);
      ghost var cost := ProportionalCost(r, diff).value;
      SameCharge(holder.diffs, r.(price := newPrice), priced, -cost);
      reservations := reservations[id := priced];
      var _ := AddReservedAmount(id, diff, true);
      reservations := reservations[id := reservations[id].(notApproved := rest)];
    }

    // ---- recomputing the index ----

    /** Rebuilds the index from the stored reservations, visited in any order. */
    method SyncReservationAmounts()
      requires Valid()
      modifies this`reservedTree, this`reserved
      ensures Valid() && fresh(reservedTree) && View() == old(View()).(reserved := reserved)
      ensures forall q :: ValueOr0(reserved, q) == Recomputed(old(View()), q)
    {
      StoredAreOk(View());
      var grouped := GroupByRequest(reservations);
      reservedTree := BuildTree(grouped);
      reserved := grouped;
    }
  }

  ghost predicate AllReservationsOk(all: map<ReservationId, Reservation>) {
    forall id :: id in all ==> ReservationOk(all[id])
  }

  lemma StoredAreOk(l: Ledger)
    requires LedgerOk(l)
    ensures AllReservationsOk(l.reservations)
  {
    forall id | id in l.reservations ensures ReservationOk(l.reservations[id]) {
      assert StoredOk(id, l.nextId, l.reservations[id]);
    }
  }

  /** Sums the unreserved amounts request by request, visiting the reservations in any order. */
  method GroupByRequest(all: map<ReservationId, Reservation>) returns (grouped: Table)
    requires AllReservationsOk(all)
    ensures forall q :: ValueOr0(grouped, q) == Total(all, Share(q))
  {
    grouped := map[];
    var todo := all;
    while todo != map[]
      invariant AllReservationsOk(todo) && GroupedAre(grouped, todo, all)
      decreases |todo|
    {
      var id :| id in todo;
      var r := todo[id];
      var request := BalanceRequest(r.descriptor, r.account, r.symbol.Pair(), r.symbol.TradeCodeBefore(r.side));
      GroupStep(grouped, todo, id, all);
      ghost var next := AddTo(grouped, RequestOf(r), r.unreserved);
      if request in grouped {
        grouped := grouped[request := grouped[request] + r.unreserved];
      } else {
        grouped := grouped[request := r.unreserved];
      }
      assert grouped == next;
      todo := todo - {id};
    }
  }

  method BuildTree(table: Table) returns (svt: ServiceValueTree)
    ensures fresh(svt) && Shows(svt.tree, table)
  {
    svt := new ServiceValueTree();
    var todo := table.Keys;
    while todo != {}
      invariant fresh(svt) && todo <= table.Keys
      invariant forall r :: GetByBalanceRequest(svt.tree, r) == if r in todo then None else ItemAt(table, r)
      decreases todo
    {
      var q :| q in todo;
      svt.SetByBalanceRequest(q, table[q]);
      todo := todo - {q};
    }
  }

  /** What is grouped so far and what is still to come make up the recomputation. */
  ghost predicate GroupedAre(grouped: Table, todo: map<ReservationId, Reservation>,
                             all: map<ReservationId, Reservation>) {
    forall q :: ValueOr0(grouped, q) + Total(todo, Share(q)) == Total(all, Share(q))
  }

  lemma GroupStep(grouped: Table, todo: map<ReservationId, Reservation>, id: ReservationId,
                  all: map<ReservationId, Reservation>)
    requires id in todo && GroupedAre(grouped, todo, all)
    ensures GroupedAre(AddTo(grouped, RequestOf(todo[id]), todo[id].unreserved), todo - {id}, all)
  {
    var added := AddTo(grouped, RequestOf(todo[id]), todo[id].unreserved);
    forall q ensures ValueOr0(added, q) + Total(todo - {id}, Share(q)) == Total(all, Share(q)) {
      TotalSplit(todo, Share(q), id);
    }
  }

  /** Moving, charging and then storing or removing is the one change of that side. */
  lemma SideIsApply(l: Ledger, id: ReservationId, r: Reservation, diff: real, order: Option<ClientOrderId>,
                    isSrc: bool, targetCost: real)
    requires ReservationOk(r) && TransferSide(r, diff, order, isSrc, targetCost).Some?
    ensures MoveParts(r, order, diff, isSrc).Some? && (isSrc ==> ProportionalCost(r, diff).Some?)
    ensures var change := TransferSide(r, diff, order, isSrc, targetCost).value;
            var moved := MoveParts(r, order, diff, isSrc).value.(unreserved := r.unreserved + diff);
            var l1 := Taken(l, id, r, moved, diff, change.paid);
            var kept := l1.reservations[id := moved.(cost := moved.cost + change.paid, amount := moved.amount + diff)];
            && change.paid == (if isSrc then ProportionalCost(r, diff).value else targetCost)
            && ApplyChange(l, id, r, change) ==
               l1.(reservations := if WithinMargin(r.symbol, r.unreserved + diff) then kept - {id} else kept)
  {
    var cost := if isSrc then ProportionalCost(r, diff).value else targetCost;
    var moved := MoveParts(r, order, diff, isSrc).value.(unreserved := r.unreserved + diff);
    SideIs(r, diff, order, isSrc, targetCost);
    KeptIsApply(l, id, r, moved, moved.(cost := moved.cost + cost, amount := moved.amount + diff), diff, cost,
        WithinMargin(r.symbol, r.unreserved + diff));
  }

  lemma SideIs(r: Reservation, diff: real, order: Option<ClientOrderId>, isSrc: bool, targetCost: real)
    requires TransferSide(r, diff, order, isSrc, targetCost).Some?
    ensures MoveParts(r, order, diff, isSrc).Some? && (isSrc ==> ProportionalCost(r, diff).Some?)
    ensures var cost := if isSrc then ProportionalCost(r, diff).value else targetCost;
            var moved := MoveParts(r, order, diff, isSrc).value.(unreserved := r.unreserved + diff);
            var kept := moved.(cost := moved.cost + cost, amount := moved.amount + diff);
            TransferSide(r, diff, order, isSrc, targetCost).value ==
            Change(if WithinMargin(r.symbol, r.unreserved + diff) then None else Some(kept), diff, cost)
  {
  }

  lemma KeptIsApply(l: Ledger, id: ReservationId, r: Reservation, moved: Reservation, kept: Reservation, diff: real,
                    cost: real, gone: bool)
    requires ReservationOk(r)
    ensures var l1 := Taken(l, id, r, moved, diff, cost);
            ApplyChange(l, id, r, Change(if gone then None else Some(kept), diff, cost)) ==
            l1.(reservations := if gone then l1.reservations[id := kept] - {id} else l1.reservations[id := kept])
  {
    assert l.reservations[id := moved][id := kept] == l.reservations[id := kept];
    assert l.reservations[id := kept] - {id} == l.reservations - {id};
  }

  lemma SettledIs(l: Ledger, id: ReservationId, r: Reservation, left: Reservation, moved: real, paid: real)
    requires ReservationOk(r) && SameTerms(r, left)
    ensures var u := Settle(left, moved, paid);
            var l1 := Taken(l, id, r, left, moved, paid);
            && AfterUnreserve(l, id, r, u) == (if UsedUp(left) then Compensated(l1, id, left) else l1)
            && u.Changed? == (!UsedUp(left) || left.unreserved == 0.0 || ProportionalCost(left, -left.unreserved).Some?)
  {
    if UsedUp(left) {
      SettleIsApply(l, id, r, left, moved, paid);
    }
  }

  lemma TakenIsUnreserve(l: Ledger, id: ReservationId, r: Reservation, amount: real, order: Option<ClientOrderId>,
                         left: Reservation)
    requires ReservationOk(r) && UnreserveNotApprovedPart(r, order, amount).1 && ProportionalCost(r, -amount).Some?
    requires left == UnreserveNotApprovedPart(r, order, amount).0.(unreserved := r.unreserved - amount)
    ensures var u := UnreserveRounded(r, amount, order);
            var l1 := Taken(l, id, r, left, -amount, ProportionalCost(r, -amount).value);
            && ReservationOk(left)
            && AfterUnreserve(l, id, r, u) == (if UsedUp(left) then Compensated(l1, id, left) else l1)
            && u.Changed? == (!UsedUp(left) || left.unreserved == 0.0 || ProportionalCost(left, -left.unreserved).Some?)
  {
    var cost := ProportionalCost(r, -amount).value;
    assert UnreserveRounded(r, amount, order) == Settle(left, -amount, cost);
    SettledIs(l, id, r, left, -amount, cost);
  }

  function Ids(done: seq<Success>): (ids: seq<ReservationId>)
    ensures |ids| == |done| && forall i :: 0 <= i < |done| ==> ids[i] == done[i].id
  {
    seq(|done|, i requires 0 <= i < |done| => done[i].id)
  }

  ghost function WithNew(l: Ledger, r: Reservation): Ledger
    requires ReservationOk(r) && ProportionalCost(r, r.amount).Some?
  {
    l.(nextId := l.nextId + 1, reservations := l.reservations[l.nextId := r.(unreserved := r.unreserved + r.amount)],
       reserved := AddTo(l.reserved, RequestOf(r), r.amount),
       diffs := AddBalance(l.diffs, r, -ProportionalCost(r, r.amount).value))
  }

  lemma RecordIsStore(l: Ledger, r: Reservation)
    requires LedgerOk(l) && ReservationOk(r) && r.unreserved == 0.0
    ensures ProportionalCost(r, r.amount).Some? && Store(l, Some(r)) == WithNew(l, r)
  {
  }

  lemma RollbackSucceeds(l: Ledger, ps: seq<ReserveParameters>)
    requires LedgerOk(l) && AllOk(l, ps)
    ensures var (l1, done) := Reserved(l, ps); UnreserveAll(l1, done).Ok?
  {
    var attempts := Attempts(l, ps);
    var (l1, done) := StoreAll(l, ps, attempts);
    StoreAllAdds(l, ps, attempts);
    UnreserveAllRemoves(l1, done);
  }

  ghost function AfterUnreserve(l: Ledger, id: ReservationId, r: Reservation, u: Unreserving): Ledger
    requires ReservationOk(r)
  {
    if u.Failed? then Put(l, id, u.kept) else ApplyChange(l, id, r, u.change)
  }

  /** The ledger once an amount has been moved and charged. */
  ghost function Taken(l: Ledger, id: ReservationId, r: Reservation, left: Reservation, moved: real, paid: real): Ledger
    requires ReservationOk(r)
  {
    l.(reservations := l.reservations[id := left], reserved := AddTo(l.reserved, RequestOf(r), moved),
       diffs := AddBalance(l.diffs, r, -paid))
  }
}
