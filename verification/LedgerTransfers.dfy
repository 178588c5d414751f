/** What a transfer does to the balances. */
module LedgerTransfers {
  import opened Domain
  import opened Symbols
  import opened ReservationLedger
  import opened LedgerIndex
  import opened LedgerBalance

  type Reservations = map<ReservationId, Reservation>

  /** The target as the second half of a transfer finds it: for a transfer to itself, what the first half
      leaves of the source. */
  function Target(m: Reservations, src: ReservationId, dst: ReservationId, amount: real): Reservation
    requires src in m && dst in m
  {
    var r := m[src];
    if src != dst then m[dst]
    else r.(unreserved := r.unreserved - amount, amount := r.amount - amount, cost := r.cost - CostOf(r, amount))
  }

  function TargetShortOf(m: Reservations, src: ReservationId, dst: ReservationId, amount: real): real
    requires src in m && dst in m
  {
    TargetShort(Target(m, src, dst, amount), amount, CostOf(m[src], amount))
  }

  /** Both sides leave nothing uncharged, or what they leave cancels in one balance. */
  ghost predicate Conserving(m: Reservations, src: ReservationId, dst: ReservationId, amount: real)
    requires src in m && dst in m && ReservationOk(m[src]) && ReservationOk(m[dst])
  {
    Offset(BalanceKey(m[src]) == BalanceKey(m[dst]), SourceShort(m[src], amount), PriceRate(m[src]),
           TargetShortOf(m, src, dst, amount), PriceRate(m[dst]))
  }

  /** Two amounts at their rates: in one balance they cancel, in two each is zero. */
  predicate Offset(oneBalance: bool, x: real, p: real, y: real, q: real) {
    if oneBalance then x * p + y * q == 0.0 else x * p == 0.0 && y * q == 0.0
  }

  // ---- both halves ----

  lemma ShortDependsOn(t: Reservation, t': Reservation, amount: real, c: real)
    requires SameFunds(t, t')
    ensures TargetShort(t, amount, c) == TargetShort(t', amount, c)
  {
    assert CostRate(t) == CostRate(t') && Owed(t) == Owed(t');
    if t.amount + amount != 0.0 {
      assert NewRate(t, amount, c) == NewRate(t', amount, c);
    }
  }

  /** What is left of a source that stays. */
  lemma SourceLeaves(r: Reservation, amount: real, order: Option<ClientOrderId>)
    requires TransferSide(r, -amount, order, true, 0.0).Some?
             && TransferSide(r, -amount, order, true, 0.0).value.after.Some?
    ensures var t := TransferSide(r, -amount, order, true, 0.0).value.after.value;
            && SameTerms(r, t) && t.unreserved == r.unreserved - amount && t.amount == r.amount - amount
            && t.cost == r.cost - CostOf(r, amount)
  {
    ProportionIsRate(r, -amount);
    Negate(CostRate(r), amount);
  }

  /** The source is paid back, and the target is charged, the source's cost rate times the amount; each side
      leaves uncharged what its short says. */
  lemma CostIsHandedOver(m: Reservations, src: ReservationId, dst: ReservationId, amount: real,
                         order: Option<ClientOrderId>,
                         c: Change, d: Change, t: Reservation)
    requires src in m && dst in m && TransferSide(m[src], -amount, order, true, 0.0) == Some(c)
    requires if src == dst then c.after == Some(t) else t == m[dst]
    requires TransferSide(t, amount, order, false, -c.paid) == Some(d)
    ensures -c.paid == d.paid == CostOf(m[src], amount)
    ensures Uncharged(m[src], c) == SourceShort(m[src], amount)
    ensures Uncharged(t, d) == TargetShortOf(m, src, dst, amount)
    ensures KeepsTerms(m[src], c) && KeepsTerms(t, d) && SameTerms(t, m[dst])
  {
    TargetIs(m, src, dst, amount, order, c, t);
    SidesShort(m[src], c, t, d, Target(m, src, dst, amount), amount, order);
  }

  predicate SameFunds(a: Reservation, b: Reservation) {
    a.symbol == b.symbol && a.unreserved == b.unreserved && a.amount == b.amount && a.cost == b.cost
  }

  lemma TargetIs(m: Reservations, src: ReservationId, dst: ReservationId, amount: real, order: Option<ClientOrderId>,
                 c: Change, t: Reservation)
    requires src in m && dst in m && TransferSide(m[src], -amount, order, true, 0.0) == Some(c)
    requires if src == dst then c.after == Some(t) else t == m[dst]
    ensures SameFunds(t, Target(m, src, dst, amount)) && SameTerms(t, m[dst])
  {
    if src == dst {
      SourceLeaves(m[src], amount, order);
    }
  }

  lemma SidesShort(r: Reservation, c: Change, t: Reservation, d: Change, target: Reservation, amount: real,
                   order: Option<ClientOrderId>)
    requires TransferSide(r, -amount, order, true, 0.0) == Some(c)
             && TransferSide(t, amount, order, false, -c.paid) == Some(d)
    requires SameFunds(t, target)
    ensures -c.paid == d.paid == CostOf(r, amount)
    ensures Uncharged(r, c) == SourceShort(r, amount)
    ensures Uncharged(t, d) == TargetShort(target, amount, CostOf(r, amount))
    ensures KeepsTerms(r, c) && KeepsTerms(t, d)
  {
    SourcePaysExactly(r, amount, order);
    TargetOwes(t, amount, order, -c.paid);
    ShortDependsOn(t, target, amount, -c.paid);
  }

  lemma TwoCharges(l: Ledger, a: ReservationId, b: ReservationId, c: Change, d: Change, t: Reservation,
                   key: BalanceRequest)
    requires a in l.reservations && ReservationOk(l.reservations[a]) && ReservationOk(t)
    requires KeepsTerms(l.reservations[a], c) && KeepsTerms(t, d)
    requires Stored(ApplyChange(l, a, l.reservations[a], c), b) == Some(t)
    ensures var r := l.reservations[a];
            Surplus(ApplyChange(ApplyChange(l, a, r, c), b, t, d), key) ==
            Surplus(l, key) + Own(BalanceKey(r) == key, Uncharged(r, c), PriceRate(r))
            + Own(BalanceKey(t) == key, Uncharged(t, d), PriceRate(t))
  {
    var r := l.reservations[a];
    var l1 := ApplyChange(l, a, r, c);
    ApplySurplus(l, a, r, c, key);
    ApplySurplus(l1, b, t, d, key);
  }

  /** Every transfer shifts the surplus by what its two sides leave uncharged, at their prices. */
  lemma TransferSurplus(l: Ledger, src: ReservationId, dst: ReservationId, amount: real, order: Option<ClientOrderId>,
                        key: BalanceRequest)
    requires LedgerOk(l) && TransferAmount(l, src, dst, amount, order).Ok?
    ensures src in l.reservations && dst in l.reservations
    ensures ReservationOk(l.reservations[src]) && ReservationOk(l.reservations[dst])
    ensures var r, t := l.reservations[src], l.reservations[dst];
            Surplus(TransferAmount(l, src, dst, amount, order).ledger, key) ==
            Surplus(l, key) + Own(BalanceKey(r) == key, SourceShort(r, amount), PriceRate(r))
            + Own(BalanceKey(t) == key, TargetShortOf(l.reservations, src, dst, amount), PriceRate(t))
  {
    var c, d, t := TransferShape(l, src, dst, amount, order);
    CostIsHandedOver(l.reservations, src, dst, amount, order, c, d, t);
    TwoCharges(l, src, dst, c, d, t, key);
    SameRates(t, l.reservations[dst]);
  }

  lemma SameRates(a: Reservation, b: Reservation)
    requires ReservationOk(a) && SameTerms(a, b)
    ensures ReservationOk(b) && PriceRate(a) == PriceRate(b) && BalanceKey(a) == BalanceKey(b)
  {
  }

  // ---- when money is conserved ----

  lemma TwoShiftsIff(l: Ledger, l': Ledger, a: BalanceRequest, b: BalanceRequest, x: real, p: real, y: real, q: real)
    requires forall key :: Surplus(l', key) == Surplus(l, key) + Own(a == key, x, p) + Own(b == key, y, q)
    ensures (forall key :: Surplus(l', key) == Surplus(l, key)) <==>
            Offset(a == b, x, p, y, q)
  {
    assert Surplus(l', a) == Surplus(l, a) + Own(true, x, p) + Own(b == a, y, q);
    assert Surplus(l', b) == Surplus(l, b) + Own(a == b, x, p) + Own(true, y, q);
  }

  /** Money is conserved by a transfer exactly when what it leaves uncharged cancels. */
  lemma TransferConservesIff(l: Ledger, src: ReservationId, dst: ReservationId, amount: real,
                             order: Option<ClientOrderId>)
    requires LedgerOk(l) && TransferAmount(l, src, dst, amount, order).Ok?
    ensures src in l.reservations && dst in l.reservations
    ensures ReservationOk(l.reservations[src]) && ReservationOk(l.reservations[dst])
    ensures (forall key :: Surplus(TransferAmount(l, src, dst, amount, order).ledger, key) == Surplus(l, key))
            <==> Conserving(l.reservations, src, dst, amount)
  {
    var c, d, t := TransferShape(l, src, dst, amount, order);
    var r, was, l' := l.reservations[src], l.reservations[dst], TransferAmount(l, src, dst, amount, order).ledger;
    var x, y := SourceShort(r, amount), TargetShortOf(l.reservations, src, dst, amount);
    forall key ensures Surplus(l', key) ==
                       Surplus(l, key) + Own(BalanceKey(r) == key, x, PriceRate(r))
                           + Own(BalanceKey(was) == key, y, PriceRate(was)) {
      TransferSurplus(l, src, dst, amount, order, key);
    }
    TwoShiftsIff(l, l', BalanceKey(r), BalanceKey(was), x, PriceRate(r), y, PriceRate(was));
  }

  // ---- transfers between two reservations that leave no residue ----

  /** The source ends at zero or stays with a rate of its own, and the target stays. */
  ghost predicate CleanTransfer(m: Reservations, src: ReservationId, dst: ReservationId, amount: real) {
    && src in m && dst in m && src != dst
    && m[src].amount != 0.0
    && (m[src].unreserved == amount || (!WithinMargin(m[src].symbol, m[src].unreserved - amount)
       && m[src].amount != amount))
    && TargetGrows(m[dst], amount)
  }

  /** The cost taken over matches the target's own rate, or nothing of the target was unreserved yet. */
  ghost predicate FairTransfer(m: Reservations, src: ReservationId, dst: ReservationId, amount: real)
    requires src in m && dst in m
  {
    m[dst].unreserved == m[dst].amount || CostOf(m[src], amount) == CostOf(m[dst], amount)
  }

  lemma CleanShorts(m: Reservations, src: ReservationId, dst: ReservationId, amount: real)
    requires CleanTransfer(m, src, dst, amount)
    ensures SourceShort(m[src], amount) == 0.0
    ensures TargetShortOf(m, src, dst, amount) == 0.0 <==> FairTransfer(m, src, dst, amount)
  {
    CleanSource(m[src], amount);
    CleanTarget(m[dst], amount, CostOf(m[src], amount));
  }

  lemma CleanSource(r: Reservation, amount: real)
    requires r.unreserved == amount || (!WithinMargin(r.symbol, r.unreserved - amount) && r.amount != amount)
    ensures SourceShort(r, amount) == 0.0
  {
    assert CostRate(r) * 0.0 == 0.0;
  }

  lemma CleanTarget(t: Reservation, amount: real, c: real)
    requires TargetGrows(t, amount)
    ensures TargetShort(t, amount, c) == 0.0 <==> t.unreserved == t.amount || c == CostOf(t, amount)
  {
    GrowingTarget(t, amount, c);
    GainZeroIff(t, amount, c);
  }

  lemma RatePositive(r: Reservation)
    requires ReservationOk(r)
    ensures PriceRate(r) > 0.0
  {
  }

  /** Without a residue, what is left is the repricing of the target: such a transfer conserves money exactly
      when it is fair. */
  lemma CleanConservesIffFair(m: Reservations, src: ReservationId, dst: ReservationId, amount: real)
    requires CleanTransfer(m, src, dst, amount) && ReservationOk(m[src]) && ReservationOk(m[dst])
    ensures Conserving(m, src, dst, amount) <==> FairTransfer(m, src, dst, amount)
  {
    var x, y := SourceShort(m[src], amount), TargetShortOf(m, src, dst, amount);
    assert x == 0.0 && (y == 0.0 <==> FairTransfer(m, src, dst, amount)) by {
      CleanShorts(m, src, dst, amount);
    }
    RatePositive(m[dst]);
    WeightedZero(x, PriceRate(m[src]), y, PriceRate(m[dst]));
  }

  lemma WeightedZero(x: real, p: real, y: real, q: real)
    requires x == 0.0 && q > 0.0
    ensures x * p == 0.0 && (y * q == 0.0 <==> y == 0.0)
  {
    ProductZero(y, q);
  }

  /** At equal prices what the source gets back the target pays: no balance changes at all. */
  lemma EqualPriceTransferKeepsBalances(l: Ledger, src: ReservationId, dst: ReservationId, amount: real,
                                        order: Option<ClientOrderId>, key: BalanceRequest)
    requires LedgerOk(l) && TransferAmount(l, src, dst, amount, order).Ok?
    requires src in l.reservations && dst in l.reservations
    requires var r, t := l.reservations[src], l.reservations[dst];
             RequestOf(r) == RequestOf(t) && r.symbol == t.symbol && r.price == t.price
    ensures ValueOr0(TransferAmount(l, src, dst, amount, order).ledger.diffs, key) == ValueOr0(l.diffs, key)
  {
    var c, d, t := TransferShape(l, src, dst, amount, order);
    assert -c.paid + -d.paid == 0.0 && SameTerms(t, l.reservations[dst]) by {
      CostIsHandedOver(l.reservations, src, dst, amount, order, c, d, t);
    }
    OppositeCharges(l.diffs, l.reservations[src], t, -c.paid, -d.paid, key);
  }

  lemma OppositeCharges(diffs: map<BalanceRequest, real>, r: Reservation, t: Reservation, x: real, y: real,
                        key: BalanceRequest)
    requires ReservationOk(r) && ReservationOk(t) && RequestOf(r) == RequestOf(t) && x + y == 0.0
    requires r.symbol == t.symbol && r.price == t.price
    ensures ValueOr0(AddBalance(AddBalance(diffs, r, x), t, y), key) == ValueOr0(diffs, key)
  {
    var own, rate := BalanceKey(r) == key, PriceRate(r);
    assert PriceRate(t) == rate && BalanceKey(t) == BalanceKey(r);
    AddBalanceAt(diffs, r, x, key);
    AddBalanceAt(AddBalance(diffs, r, x), t, y, key);
    Combine(own, x, y, 0.0, rate);
    assert Own(own, 0.0, rate) == 0.0;
  }
}
