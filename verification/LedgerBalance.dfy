/** Conservation of money: the virtual balance differences against the cost still owed by the stored
    reservations. */
module LedgerBalance {
  import opened Domain
  import opened Sums
  import opened Symbols
  import opened ReservationLedger
  import opened LedgerIndex

  /** Cost per reserved unit. */
  function CostRate(r: Reservation): real {
    if r.amount == 0.0 then 0.0 else r.cost / r.amount
  }

  /** The part of the cost, in the amount currency, that is still charged for what is reserved. */
  function Owed(r: Reservation): real {
    CostRate(r) * r.unreserved
  }

  function PriceRate(r: Reservation): real
    requires ReservationOk(r)
  {
    Rate(r.symbol, BalanceKey(r).code, r.price)
  }

  function Charge(key: BalanceRequest): Reservation -> real {
    (r: Reservation) => if ReservationOk(r) && BalanceKey(r) == key then Owed(r) * PriceRate(r) else 0.0
  }

  /** The balance difference beyond what the stored reservations account for. */
  ghost function Surplus(l: Ledger, key: BalanceRequest): real {
    ValueOr0(l.diffs, key) + Total(l.reservations, Charge(key))
  }

  function OwedBy(r: Option<Reservation>): real {
    if r.Some? then Owed(r.value) else 0.0
  }

  function ShareOf(r: Option<Reservation>, share: Reservation -> real): real {
    if r.Some? then share(r.value) else 0.0
  }

  function Stored(l: Ledger, id: ReservationId): Option<Reservation> {
    if id in l.reservations then Some(l.reservations[id]) else None
  }

  lemma ApplyTotal(l: Ledger, id: ReservationId, r: Reservation, change: Change, share: Reservation -> real)
    requires ReservationOk(r)
    ensures Total(ApplyChange(l, id, r, change).reservations, share) ==
            Total(l.reservations, share) + ShareOf(change.after, share) - ShareOf(Stored(l, id), share)
  {
    if change.after.Some? {
      TotalPut(l.reservations, share, id, change.after.value);
    } else {
      TotalDrop(l.reservations, share, id);
    }
  }

  lemma TermsGiveCharge(r: Reservation, s: Option<Reservation>, key: BalanceRequest)
    requires ReservationOk(r) && (s.Some? ==> SameTerms(r, s.value))
    ensures ShareOf(s, Charge(key)) == Own(BalanceKey(r) == key, OwedBy(s), PriceRate(r))
  {
  }

  lemma AddBalanceAt(diffs: map<BalanceRequest, real>, r: Reservation, diff: real, key: BalanceRequest)
    requires ReservationOk(r)
    ensures ValueOr0(AddBalance(diffs, r, diff), key) ==
            ValueOr0(diffs, key) + Own(BalanceKey(r) == key, diff, PriceRate(r))
  {
    ConversionIsLinear(r.symbol, BalanceKey(r).code, diff, r.price);
  }

  lemma Distribute(a: real, b: real, c: real, rate: real)
    ensures (a + b - c) * rate == a * rate + b * rate - c * rate
  {
  }

  function Own(own: bool, x: real, rate: real): real {
    if own then x * rate else 0.0
  }

  lemma Combine(own: bool, a: real, b: real, c: real, rate: real)
    ensures Own(own, a, rate) + Own(own, b, rate) - Own(own, c, rate) == Own(own, a + b - c, rate)
    ensures a + b == c ==> Own(own, a + b - c, rate) == 0.0
  {
    Distribute(a, b, c, rate);
  }

  lemma ApplyRaw(l: Ledger, id: ReservationId, r: Reservation, change: Change, key: BalanceRequest)
    requires ReservationOk(r)
    ensures Surplus(ApplyChange(l, id, r, change), key) ==
            Surplus(l, key) + (ValueOr0(AddBalance(l.diffs, r, -change.paid), key) - ValueOr0(l.diffs, key))
            + ShareOf(change.after, Charge(key)) - ShareOf(Stored(l, id), Charge(key))
  {
    ApplyTotal(l, id, r, change, Charge(key));
  }

  /** A change shifts the surplus by what it charges too little; one that charges exactly what is owed
      more keeps it. */
  lemma ApplySurplus(l: Ledger, id: ReservationId, r: Reservation, change: Change, key: BalanceRequest)
    requires ReservationOk(r) && KeepsTerms(r, change)
    requires id in l.reservations ==> SameTerms(r, l.reservations[id])
    ensures Surplus(ApplyChange(l, id, r, change), key) ==
            Surplus(l, key)
            + Own(BalanceKey(r) == key, -change.paid + OwedBy(change.after) - OwedBy(Stored(l, id)), PriceRate(r))
    ensures change.paid == OwedBy(change.after) - OwedBy(Stored(l, id)) ==>
              Surplus(ApplyChange(l, id, r, change), key) == Surplus(l, key)
  {
    ApplyRaw(l, id, r, change, key);
    AddBalanceAt(l.diffs, r, -change.paid, key);
    TermsGiveCharge(r, change.after, key);
    TermsGiveCharge(r, Stored(l, id), key);
    Combine(BalanceKey(r) == key, -change.paid, OwedBy(change.after), OwedBy(Stored(l, id)), PriceRate(r));
  }

  lemma ChargeSame(a: Reservation, b: Reservation, key: BalanceRequest)
    requires SameAmounts(a, b)
    ensures Charge(key)(a) == Charge(key)(b)
  {
  }

  lemma PutTotal(l: Ledger, id: ReservationId, r: Reservation, share: Reservation -> real)
    requires id in l.reservations && share(l.reservations[id]) == share(r)
    ensures Total(Put(l, id, r).reservations, share) == Total(l.reservations, share)
  {
    TotalPut(l.reservations, share, id, r);
  }

  lemma PutSurplus(l: Ledger, id: ReservationId, r: Reservation, key: BalanceRequest)
    requires id in l.reservations && SameAmounts(l.reservations[id], r)
    ensures Surplus(Put(l, id, r), key) == Surplus(l, key)
  {
    ChargeSame(l.reservations[id], r, key);
    PutTotal(l, id, r, Charge(key));
  }

  // ---- reservation by reservation ----

  lemma WholeProportion(cost: real, total: real)
    requires total != 0.0
    ensures Proportion(cost, total, total) == cost
  {
  }

  lemma ProportionIsRate(r: Reservation, amount: real)
    requires ProportionalCost(r, amount).Some?
    ensures ProportionalCost(r, amount).value == CostRate(r) * amount
  {
  }

  /** What Settle charges on top of `paid` is minus what is still owed, if it removes the reservation. */
  lemma SettlePays(r: Reservation, moved: real, paid: real)
    requires Settle(r, moved, paid).Changed?
    ensures var c := Settle(r, moved, paid).change; c.paid == paid + OwedBy(c.after) - Owed(r)
  {
    if UsedUp(r) && r.unreserved != 0.0 {
      ProportionIsRate(r, -r.unreserved);
    }
  }

  /** Unreserving pays back exactly what is no longer owed, even when it over-unreserves. */
  lemma UnreservePaysExactly(r: Reservation, amount: real, order: Option<ClientOrderId>)
    requires UnreserveRounded(r, amount, order).Changed?
    ensures var c := UnreserveRounded(r, amount, order).change; c.paid == OwedBy(c.after) - Owed(r)
  {
    var (lowered, goOn) := UnreserveNotApprovedPart(r, order, amount);
    var after, cost := lowered.(unreserved := r.unreserved - amount), ProportionalCost(r, -amount).value;
    ProportionIsRate(r, -amount);
    SettlePays(after, -amount, cost);
    OwedFalls(r, after, amount);
  }

  lemma OwedFalls(r: Reservation, after: Reservation, amount: real)
    requires after.cost == r.cost && after.amount == r.amount && after.unreserved == r.unreserved - amount
    ensures Owed(after) == Owed(r) + CostRate(r) * -amount
  {
    Distribute(r.unreserved, -amount, 0.0, CostRate(r));
  }

  lemma ReservePaysExactly(r: Reservation)
    ensures ReserveChange(r).paid == OwedBy(ReserveChange(r).after)
  {
    ProportionIsRate(r, r.amount);
  }

  // ---- operation by operation ----

  lemma StoreKeepsSurplus(l: Ledger, attempt: Option<Reservation>, key: BalanceRequest)
    requires LedgerOk(l) && (attempt.Some? ==> ReservationOk(attempt.value))
    ensures Surplus(Store(l, attempt), key) == Surplus(l, key)
  {
    if attempt.Some? {
      var r, l1 := attempt.value, l.(nextId := l.nextId + 1);
      BumpKeepsOk(l);
      ReservePaysExactly(r);
      ApplySurplus(l1, l.nextId, r, ReserveChange(r), key);
    }
  }

  /** Whether it succeeds or fails, unreserving neither makes nor loses money. */
  lemma UnreserveKeepsSurplus(l: Ledger, id: ReservationId, amount: real, order: Option<ClientOrderId>,
                              key: BalanceRequest)
    requires LedgerOk(l) && Unreserve(l, id, amount, order).Returns()
    ensures Surplus(Unreserve(l, id, amount, order).ledger, key) == Surplus(l, key)
  {
    if id in l.reservations {
      var r := l.reservations[id];
      assert StoredOk(id, l.nextId, r);
      if UnreserveActs(l, r, amount) {
        var rounded := RoundAmount(r.symbol, amount);
        UnreserveMovesExactly(r, rounded, order);
        match UnreserveRounded(r, rounded, order)
        case Failed(kept) =>
          PutSurplus(l, id, kept, key);
        case Changed(change) =>
          UnreservePaysExactly(r, rounded, order);
          ApplySurplus(l, id, r, change, key);
      }
    }
  }

  lemma ApproveKeepsSurplus(l: Ledger, id: ReservationId, order: ClientOrderId, amount: real, key: BalanceRequest)
    ensures Surplus(Approve(l, id, order, amount).ledger, key) == Surplus(l, key)
  {
    if id in l.reservations && order !in l.reservations[id].parts {
      PutSurplus(l, id, ApproveOn(l.reservations[id], order, amount).0, key);
    }
  }

  lemma CancelKeepsSurplus(l: Ledger, id: ReservationId, order: ClientOrderId, key: BalanceRequest)
    requires CancelApproved(l, id, order).Returns()
    ensures Surplus(CancelApproved(l, id, order).ledger, key) == Surplus(l, key)
  {
    if id in l.reservations && order in l.reservations[id].parts {
      PutSurplus(l, id, CancelOn(l.reservations[id], order), key);
    }
  }

  // ---- a reservation's whole life ----

  /** What is left of a reservation after a series of unreserve calls, and all that they charged. */
  datatype Life = Life(now: Option<Reservation>, paid: real)

  function LiveOn(life: Life, amount: real, order: Option<ClientOrderId>): Life
    requires life.now.Some? ==> life.now.value.symbol.tick > 0.0
  {
    if life.now.None? then life
    else
      var r := life.now.value;
      var rounded := RoundAmount(r.symbol, amount);
      if rounded == 0.0 && r.amount != 0.0 then life
      else
        match UnreserveRounded(r, rounded, order)
        case Failed(kept) => Life(Some(kept), life.paid)
        case Abandoned(change) => Life(None, life.paid + change.paid)
        case Changed(change) => Life(change.after, life.paid + change.paid)
  }

  function LiveThrough(r: Reservation, calls: seq<(real, Option<ClientOrderId>)>): (life: Life)
    requires r.symbol.tick > 0.0
    ensures life.now.Some? ==> SameTerms(r, life.now.value)
  {
    if calls == [] then Life(Some(r), 0.0)
    else LiveOn(LiveThrough(r, calls[..|calls| - 1]), calls[|calls| - 1].0, calls[|calls| - 1].1)
  }

  ghost predicate LifeOk(life: Life) {
    life.now.Some? ==> ReservationOk(life.now.value) && EmptyOk(life.now.value)
  }

  lemma StepBalances(life: Life, amount: real, order: Option<ClientOrderId>)
    requires LifeOk(life)
    ensures LifeOk(LiveOn(life, amount, order))
    ensures LiveOn(life, amount, order).paid - OwedBy(LiveOn(life, amount, order).now) == life.paid - OwedBy(life.now)
  {
    if life.now.Some? {
      var r := life.now.value;
      var rounded := RoundAmount(r.symbol, amount);
      UnreserveMovesExactly(r, rounded, order);
      match UnreserveRounded(r, rounded, order)
      case Failed(kept) => OwedSame(r, kept);
      case Changed(change) => UnreservePaysExactly(r, rounded, order);
    }
  }

  lemma OwedSame(a: Reservation, b: Reservation)
    requires SameAmounts(a, b)
    ensures Owed(a) == Owed(b)
  {
  }

  lemma {:induction false} LifeBalances(r: Reservation, calls: seq<(real, Option<ClientOrderId>)>)
    requires ReservationOk(r) && EmptyOk(r)
    ensures LifeOk(LiveThrough(r, calls))
    ensures LiveThrough(r, calls).paid == OwedBy(LiveThrough(r, calls).now) - Owed(r)
  {
    if calls != [] {
      LifeBalances(r, calls[..|calls| - 1]);
      StepBalances(LiveThrough(r, calls[..|calls| - 1]), calls[|calls| - 1].0, calls[|calls| - 1].1);
    }
  }

  /** Any series of unreserve calls that ends in the removal refunds exactly the cost charged when the
      reservation was made, even when the last call asks for more than is left. */
  lemma WholeLifeRefundsCost(r: Reservation, calls: seq<(real, Option<ClientOrderId>)>)
    requires ReservationOk(r) && LiveThrough(ReserveChange(r).after.value, calls).now.None?
    ensures LiveThrough(ReserveChange(r).after.value, calls).paid == -ReserveChange(r).paid
    ensures r.amount != 0.0 ==> ReserveChange(r).paid == r.cost
  {
    LifeBalances(ReserveChange(r).after.value, calls);
    ReservePaysExactly(r);
    if r.amount != 0.0 {
      WholeProportion(r.cost, r.amount);
    }
  }

  // ---- transfers ----

  /** What a change makes a reservation owe without being charged. */
  function Uncharged(r: Reservation, change: Change): real {
    -change.paid + OwedBy(change.after) - Owed(r)
  }

  /** What the source of a transfer gets back too much: nothing while it stays with a cost rate, but what is
      left on it is forgotten when it is removed or its whole amount is moved. */
  function SourceShort(r: Reservation, amount: real): real {
    var left := r.unreserved - amount;
    if WithinMargin(r.symbol, left) || r.amount == amount then -(CostRate(r) * left) else 0.0
  }

  /** The cost of an amount at the rate of a reservation: what a transfer hands over. */
  function CostOf(r: Reservation, amount: real): real {
    CostRate(r) * amount
  }

  /** The source is paid back its cost rate times the amount. */
  lemma SourcePaysExactly(r: Reservation, amount: real, order: Option<ClientOrderId>)
    requires TransferSide(r, -amount, order, true, 0.0).Some?
    ensures var c := TransferSide(r, -amount, order, true, 0.0).value;
            -c.paid == CostOf(r, amount) && Uncharged(r, c) == SourceShort(r, amount)
  {
    var c := TransferSide(r, -amount, order, true, 0.0).value;
    assert -c.paid == CostOf(r, amount) by {
      ProportionIsRate(r, -amount);
      Negate(CostRate(r), amount);
    }
    if c.after.Some? {
      SourceKeepsRate(r, amount, order);
    }
    ShortAlgebra(CostRate(r), r.unreserved, amount);
  }

  /** A source that stays keeps its rate, unless its whole amount is moved. */
  lemma SourceKeepsRate(r: Reservation, amount: real, order: Option<ClientOrderId>)
    requires TransferSide(r, -amount, order, true, 0.0).Some?
             && TransferSide(r, -amount, order, true, 0.0).value.after.Some?
    ensures var after := TransferSide(r, -amount, order, true, 0.0).value.after.value;
            CostRate(after) == (if r.amount == amount then 0.0 else CostRate(r))
                && after.unreserved == r.unreserved - amount
  {
    ProportionIsRate(r, -amount);
    if r.amount != amount && r.amount != 0.0 {
      SameRate(r.cost, r.amount, amount);
    }
  }

  lemma Negate(a: real, b: real)
    ensures a * -b == -(a * b)
  {
  }

  lemma ShortAlgebra(rate: real, u: real, amount: real)
    ensures rate * amount - rate * u == -(rate * (u - amount))
    ensures rate * amount + rate * (u - amount) - rate * u == 0.0
  {
    Distribute(u, -amount, 0.0, rate);
    Negate(rate, amount);
  }

  /** Taking a part of the amount away with its share of the cost leaves the rate as it was. */
  lemma SameRate(cost: real, total: real, part: real)
    requires total != 0.0 && total != part
    ensures (cost + cost / total * -part) / (total - part) == cost / total
  {
    var rate := cost / total;
    assert cost == rate * total;
    Distribute(total, -part, 0.0, rate);
  }

  /** The target's cost per unit once it has taken over the cost `c` with `amount`. */
  function NewRate(t: Reservation, amount: real, c: real): real
    requires t.amount + amount != 0.0
  {
    (t.cost + c) / (t.amount + amount)
  }

  /** Mixing two rates also reprices what the target has already unreserved: the rate change times that
      amount is owed without being charged. */
  function TargetGain(t: Reservation, amount: real, c: real): real
    requires t.amount + amount != 0.0
  {
    (NewRate(t, amount, c) - CostRate(t)) * (t.unreserved - t.amount)
  }

  lemma GainAlgebra(p: real, q: real, total: real, u: real, m: real, c: real)
    requires p * total + c == q * (total + m)
    ensures q * (u + m) - p * u - c == (q - p) * (u - total)
  {
    assert q * (total + m) == q * total + q * m;
    assert q * (u + m) == q * u + q * m;
    assert (q - p) * (u - total) == q * u - q * total - p * u + p * total;
  }

  predicate TargetGrows(t: Reservation, amount: real) {
    t.amount != 0.0 && t.amount + amount != 0.0 && !WithinMargin(t.symbol, t.unreserved + amount)
  }

  /** What the target of a transfer owes without being charged once it has taken over the cost `c`. */
  function TargetShort(t: Reservation, amount: real, c: real): real {
    (if WithinMargin(t.symbol, t.unreserved + amount) || t.amount + amount == 0.0 then 0.0
     else NewRate(t, amount, c) * (t.unreserved + amount))
    - c - Owed(t)
  }

  /** The target is charged the cost it takes over. While it stays with an amount, what it owes beyond that
      is the repricing of what it had unreserved before. */
  lemma TargetOwes(t: Reservation, amount: real, order: Option<ClientOrderId>, c: real)
    requires TransferSide(t, amount, order, false, c).Some?
    ensures var d := TransferSide(t, amount, order, false, c).value;
            d.paid == c && Uncharged(t, d) == TargetShort(t, amount, c)
    ensures TargetGrows(t, amount) ==> TargetShort(t, amount, c) == TargetGain(t, amount, c)
  {
    var d := TransferSide(t, amount, order, false, c).value;
    if d.after.Some? && t.amount + amount != 0.0 {
      assert CostRate(d.after.value) == NewRate(t, amount, c);
    }
    if TargetGrows(t, amount) {
      GrowingTarget(t, amount, c);
    }
  }

  lemma GrowingTarget(t: Reservation, amount: real, c: real)
    requires TargetGrows(t, amount)
    ensures TargetShort(t, amount, c) == TargetGain(t, amount, c)
  {
    var p, q := CostRate(t), NewRate(t, amount, c);
    assert p * t.amount == t.cost && q * (t.amount + amount) == t.cost + c;
    GainAlgebra(p, q, t.amount, t.unreserved, amount, c);
  }

  /** The repricing vanishes exactly when the target is untouched or takes over cost at its own rate. */
  lemma GainZeroIff(t: Reservation, amount: real, c: real)
    requires t.amount != 0.0 && t.amount + amount != 0.0
    ensures TargetGain(t, amount, c) == 0.0 <==> t.unreserved == t.amount || c == CostOf(t, amount)
  {
    var p, q := CostRate(t), NewRate(t, amount, c);
    ProductZero(q - p, t.unreserved - t.amount);
    assert p * t.amount + c == q * (t.amount + amount);
    RatesMeet(p, q, t.amount, amount, c);
  }

  lemma ProductZero(a: real, b: real)
    ensures a * b == 0.0 <==> a == 0.0 || b == 0.0
  {
  }

  lemma RatesMeet(p: real, q: real, total: real, m: real, c: real)
    requires total + m != 0.0 && p * total + c == q * (total + m)
    ensures q == p <==> c == p * m
  {
    Distribute(total, m, 0.0, p);
    ProductZero(q - p, total + m);
    Distribute(q, 0.0, p, total + m);
  }
}
