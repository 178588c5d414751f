/** Giving a reservation another price: what that does to the index and to the balances. */
module LedgerPrices {
  import opened Domain
  import opened Sums
  import opened Symbols
  import opened ReservationLedger
  import opened LedgerIndex
  import opened LedgerBalance

  function CanceledAmount(): ApprovedPart -> real {
    (part: ApprovedPart) => if part.isCanceled then part.unreserved else 0.0
  }

  /** The code takes the canceled parts off the whole amount. */
  ghost function RestAmount(r: Reservation): real {
    r.amount - Total(r.parts, CanceledAmount())
  }

  /** The rest at the new price less what was not approved at the old one, in the reservation currency. */
  function DiffInCode(r: Reservation, rest: real, newPrice: real): real
    requires ReservationOk(r) && newPrice > 0.0
  {
    ConvertFromAmount(r.symbol, r.code, rest, newPrice) - ConvertFromAmount(r.symbol, r.code, r.notApproved, r.price)
  }

  function DiffGiven(r: Reservation, rest: real, newPrice: real): real
    requires ReservationOk(r) && newPrice > 0.0
  {
    ConvertIntoAmount(r.symbol, r.code, DiffInCode(r, rest, newPrice), newPrice)
  }

  /** The amount added to the index and charged at the new price. */
  ghost function PriceDiff(r: Reservation, newPrice: real): real
    requires ReservationOk(r) && newPrice > 0.0
  {
    DiffGiven(r, RestAmount(r), newPrice)
  }

  function PriceChange(r: Reservation, rest: real, diff: real, cost: real, newPrice: real): Change {
    Change(Some(r.(price := newPrice, notApproved := rest)), diff, cost)
  }

  /** Whether the balance at the new price, free position included, covers the difference; `None` is the panic
      of the balance query. */
  ghost function PriceAffordable(l: Ledger, r: Reservation, newPrice: real): Option<bool>
    requires ReservationOk(r) && newPrice > 0.0
  {
    var p := FromReservation(r).(price := newPrice);
    if !QueryOk(l, p) || BalanceWithFree(l, p).None? then None
    else Some(BalanceWithFree(l, p).value - DiffInCode(r, RestAmount(r), newPrice) >= 0.0)
  }

  ghost function UpdatePrice(l: Ledger, id: ReservationId, newPrice: real): Outcome
    requires LedgerOk(l) && newPrice > 0.0
  {
    if id !in l.reservations then Ok(l)
    else
      assert StoredOk(id, l.nextId, l.reservations[id]);
      var r := l.reservations[id];
      match PriceAffordable(l, r, newPrice)
      case None => Panic
      case Some(false) => Ok(l)
      case Some(true) =>
        var diff := PriceDiff(r, newPrice);
        match ProportionalCost(r, diff)
        case None => Panic
        case Some(cost) => Ok(ApplyChange(l, id, r.(price := newPrice),
            PriceChange(r, RestAmount(r), diff, cost, newPrice)))
  }

  /** The call comes as far as changing the price. */
  ghost predicate Repriced(l: Ledger, id: ReservationId, newPrice: real) {
    && LedgerOk(l) && newPrice > 0.0 && id in l.reservations && ReservationOk(l.reservations[id])
    && PriceAffordable(l, l.reservations[id], newPrice) == Some(true)
    && ProportionalCost(l.reservations[id], PriceDiff(l.reservations[id], newPrice)).Some?
  }

  lemma RepricedIs(l: Ledger, id: ReservationId, newPrice: real)
    requires Repriced(l, id, newPrice)
    ensures var r := l.reservations[id];
            var diff := PriceDiff(r, newPrice);
            UpdatePrice(l, id, newPrice) ==
            Ok(ApplyChange(l, id, r.(price := newPrice),
                           PriceChange(r, RestAmount(r), diff, ProportionalCost(r, diff).value, newPrice)))
  {
  }

  /** Otherwise it panics or changes nothing. */
  lemma NotRepriced(l: Ledger, id: ReservationId, newPrice: real)
    requires LedgerOk(l) && newPrice > 0.0 && !Repriced(l, id, newPrice)
    ensures UpdatePrice(l, id, newPrice).Panic? || UpdatePrice(l, id, newPrice) == Ok(l)
  {
    if id in l.reservations {
      assert StoredOk(id, l.nextId, l.reservations[id]);
    }
  }

  lemma UpdatePriceKeepsOk(l: Ledger, id: ReservationId, newPrice: real)
    requires LedgerOk(l) && newPrice > 0.0 && UpdatePrice(l, id, newPrice).Ok?
    ensures LedgerOk(UpdatePrice(l, id, newPrice).ledger)
  {
    if Repriced(l, id, newPrice) {
      var r := l.reservations[id];
      assert StoredOk(id, l.nextId, r);
      var diff := PriceDiff(r, newPrice);
      RepricedIs(l, id, newPrice);
      ApplyKeepsOk(l, id, r.(price := newPrice), PriceChange(r, RestAmount(r), diff, ProportionalCost(r, diff).value,
          newPrice));
    } else {
      NotRepriced(l, id, newPrice);
    }
  }

  // ---- the index ----

  /** The index is shifted by the difference although the reservation keeps what is reserved. */
  lemma PriceUpdateDrift(l: Ledger, id: ReservationId, newPrice: real, q: BalanceRequest)
    requires Repriced(l, id, newPrice)
    ensures UpdatePrice(l, id, newPrice).Ok?
    ensures Drift(UpdatePrice(l, id, newPrice).ledger, q) ==
            Drift(l, q) + if q == RequestOf(l.reservations[id]) then PriceDiff(l.reservations[id], newPrice) else 0.0
  {
    var r := l.reservations[id];
    RepricedIs(l, id, newPrice);
    TotalPut(l.reservations, Share(q), id, r.(price := newPrice, notApproved := RestAmount(r)));
  }

  /** A price update keeps the index right exactly when it finds nothing to move. */
  lemma PriceUpdateKeepsIndexIff(l: Ledger, id: ReservationId, newPrice: real)
    requires Repriced(l, id, newPrice)
    ensures UpdatePrice(l, id, newPrice).Ok?
    ensures (forall q :: Drift(UpdatePrice(l, id, newPrice).ledger, q) == Drift(l, q)) <==>
            PriceDiff(l.reservations[id], newPrice) == 0.0
  {
    PriceUpdateDrift(l, id, newPrice, RequestOf(l.reservations[id]));
    var l' := UpdatePrice(l, id, newPrice).ledger;
    if PriceDiff(l.reservations[id], newPrice) == 0.0 {
      forall q ensures Drift(l', q) == Drift(l, q) {
        PriceUpdateDrift(l, id, newPrice, q);
      }
    }
  }

  lemma IntoIsInverse(symbol: Symbol, code: CurrencyCode, x: real, price: real)
    requires price > 0.0 && symbol.Converts(code)
    ensures ConvertIntoAmount(symbol, code, x, price) * Rate(symbol, code, price) == x
  {
  }

  lemma DiffAtRates(r: Reservation, rest: real, newPrice: real)
    requires ReservationOk(r) && newPrice > 0.0
    ensures DiffGiven(r, rest, newPrice) * Rate(r.symbol, r.code, newPrice) ==
            rest * Rate(r.symbol, r.code, newPrice) - r.notApproved * Rate(r.symbol, r.code, r.price)
  {
    ConversionIsLinear(r.symbol, r.code, rest, newPrice);
    ConversionIsLinear(r.symbol, r.code, r.notApproved, r.price);
    IntoIsInverse(r.symbol, r.code, DiffInCode(r, rest, newPrice), newPrice);
  }

  predicate Untouched(r: Reservation) {
    r.unreserved == r.amount && r.notApproved == r.amount && r.parts == map[]
  }

  lemma RateIsPositive(symbol: Symbol, code: CurrencyCode, price: real)
    requires price > 0.0
    ensures Rate(symbol, code, price) > 0.0
  {
  }

  lemma RatesAgreeIff(symbol: Symbol, code: CurrencyCode, p: real, q: real)
    requires p > 0.0 && q > 0.0
    ensures Rate(symbol, code, p) == Rate(symbol, code, q) <==> code == symbol.amountCode || p == q
  {
    if code != symbol.amountCode && code == symbol.base {
      assert (1.0 / p) * p == 1.0 && (1.0 / q) * q == 1.0;
    }
  }

  /** What is moved for an untouched reservation: the amount by which its worth changes. */
  lemma UntouchedDiff(r: Reservation, newPrice: real)
    requires ReservationOk(r) && newPrice > 0.0 && Untouched(r)
    ensures PriceDiff(r, newPrice) * Rate(r.symbol, r.code, newPrice) ==
            (Rate(r.symbol, r.code, newPrice) - Rate(r.symbol, r.code, r.price)) * r.amount
  {
    assert RestAmount(r) == r.amount;
    DiffAtRates(r, r.amount, newPrice);
    Distribute(Rate(r.symbol, r.code, newPrice), 0.0, Rate(r.symbol, r.code, r.price), r.amount);
  }

  /** For an untouched reservation nothing is moved exactly when the reservation currency is the amount
      currency, the price stays, or nothing is reserved. Every other new price shifts the index. */
  lemma UntouchedPriceDiffIff(r: Reservation, newPrice: real)
    requires ReservationOk(r) && newPrice > 0.0 && Untouched(r)
    ensures PriceDiff(r, newPrice) == 0.0 <==> r.amount == 0.0 || r.code == r.symbol.amountCode || newPrice == r.price
  {
    var newRate, oldRate, diff := Rate(r.symbol, r.code, newPrice), Rate(r.symbol, r.code, r.price),
        PriceDiff(r, newPrice);
    UntouchedDiff(r, newPrice);
    RateIsPositive(r.symbol, r.code, newPrice);
    RatesAgreeIff(r.symbol, r.code, newPrice, r.price);
    ProductZero(newRate - oldRate, r.amount);
    ProductZero(diff, newRate);
  }

  // ---- the money ----

  /** The rate at which the balance behind a reservation is charged. */
  function BalanceRate(r: Reservation, price: real): real
    requires ReservationOk(r) && price > 0.0
  {
    Rate(r.symbol, BalanceKey(r).code, price)
  }

  /** What the update charges too little, in the balance currency: the reserved amount is worth more by
      `u * (newRate - oldRate)` and `diff` is charged at the new rate. */
  function ShortOf(c: real, u: real, diff: real, newRate: real, oldRate: real): real {
    c * (u * (newRate - oldRate) - diff * newRate)
  }

  function Shortfall(r: Reservation, diff: real, newPrice: real): real
    requires ReservationOk(r) && newPrice > 0.0
  {
    ShortOf(CostRate(r), r.unreserved, diff, BalanceRate(r, newPrice), BalanceRate(r, r.price))
  }

  lemma PricedCharge(r: Reservation, rest: real, newPrice: real, key: BalanceRequest)
    requires ReservationOk(r) && newPrice > 0.0
    ensures Charge(key)(r.(price := newPrice, notApproved := rest)) ==
            Own(BalanceKey(r) == key, Owed(r), BalanceRate(r, newPrice))
    ensures Charge(key)(r) == Own(BalanceKey(r) == key, Owed(r), BalanceRate(r, r.price))
  {
  }

  lemma PricedApply(l: Ledger, id: ReservationId, r: Reservation, rest: real, diff: real, cost: real, newPrice: real,
                    key: BalanceRequest)
    requires id in l.reservations && l.reservations[id] == r && ReservationOk(r) && newPrice > 0.0
    ensures var own, newRate, oldRate := BalanceKey(r) == key, BalanceRate(r, newPrice), BalanceRate(r, r.price);
            Surplus(ApplyChange(l, id, r.(price := newPrice), PriceChange(r, rest, diff, cost, newPrice)), key) ==
            Surplus(l, key) + Own(own, -cost, newRate) + Own(own, Owed(r), newRate) - Own(own, Owed(r), oldRate)
  {
    var priced := r.(price := newPrice);
    ApplyRaw(l, id, priced, PriceChange(r, rest, diff, cost, newPrice), key);
    AddBalanceAt(l.diffs, priced, -cost, key);
    PricedCharge(r, rest, newPrice, key);
  }

  /** What is charged and what is owed more differ by the shortfall. */
  lemma ChargedShort(own: bool, c: real, u: real, d: real, newRate: real, oldRate: real, cost: real, owed: real)
    requires cost == c * d && owed == c * u
    ensures Own(own, -cost, newRate) + Own(own, owed, newRate) - Own(own, owed, oldRate) ==
            if own then ShortOf(c, u, d, newRate, oldRate) else 0.0
  {
    assert (c * d) * newRate == c * (d * newRate);
    assert (c * u) * newRate == c * (u * newRate);
    assert (c * u) * oldRate == c * (u * oldRate);
    assert u * (newRate - oldRate) == u * newRate - u * oldRate;
  }

  lemma PriceFacts(r: Reservation, diff: real, cost: real)
    requires ProportionalCost(r, diff) == Some(cost)
    ensures cost == CostRate(r) * diff && Owed(r) == CostRate(r) * r.unreserved
  {
    ProportionIsRate(r, diff);
  }

  lemma PricedSurplus(l: Ledger, id: ReservationId, r: Reservation, rest: real, diff: real, cost: real, newPrice: real,
                      key: BalanceRequest)
    requires id in l.reservations && l.reservations[id] == r && ReservationOk(r) && newPrice > 0.0
    requires ProportionalCost(r, diff) == Some(cost)
    ensures Surplus(ApplyChange(l, id, r.(price := newPrice), PriceChange(r, rest, diff, cost, newPrice)), key) ==
            Surplus(l, key) + if BalanceKey(r) == key then Shortfall(r, diff, newPrice) else 0.0
  {
    PriceFacts(r, diff, cost);
    ChargedShort(BalanceKey(r) == key, CostRate(r), r.unreserved, diff, BalanceRate(r, newPrice),
        BalanceRate(r, r.price),
                 cost, Owed(r));
    PricedApply(l, id, r, rest, diff, cost, newPrice, key);
  }

  /** A price update shifts the surplus of its balance by the shortfall. */
  lemma PriceUpdateSurplus(l: Ledger, id: ReservationId, newPrice: real, key: BalanceRequest)
    requires Repriced(l, id, newPrice)
    ensures UpdatePrice(l, id, newPrice).Ok?
    ensures var r := l.reservations[id];
            Surplus(UpdatePrice(l, id, newPrice).ledger, key) ==
            Surplus(l, key) + if BalanceKey(r) == key then Shortfall(r, PriceDiff(r, newPrice), newPrice) else 0.0
  {
    var r := l.reservations[id];
    var diff := PriceDiff(r, newPrice);
    RepricedIs(l, id, newPrice);
    PricedSurplus(l, id, r, RestAmount(r), diff, ProportionalCost(r, diff).value, newPrice, key);
  }

  /** What is charged at the new rate is what the reserved amount gains in worth. */
  predicate ChargesGain(r: Reservation, diff: real, newPrice: real)
    requires ReservationOk(r) && newPrice > 0.0
  {
    IsGain(diff, r.unreserved, BalanceRate(r, newPrice), BalanceRate(r, r.price))
  }

  /** `diff` at the new rate is what `amount` gains. */
  predicate IsGain(diff: real, amount: real, newRate: real, oldRate: real) {
    diff * newRate == amount * (newRate - oldRate)
  }

  lemma ShortfallZeroIff(r: Reservation, diff: real, newPrice: real)
    requires ReservationOk(r) && newPrice > 0.0
    ensures Shortfall(r, diff, newPrice) == 0.0 <==> CostRate(r) == 0.0 || ChargesGain(r, diff, newPrice)
  {
    ProductZero(CostRate(r),
        r.unreserved * (BalanceRate(r, newPrice) - BalanceRate(r, r.price)) - diff * BalanceRate(r, newPrice));
  }

  lemma ShiftedIff(l: Ledger, l': Ledger, request: BalanceRequest, shift: real)
    requires forall key :: Surplus(l', key) == Surplus(l, key) + if request == key then shift else 0.0
    ensures (forall key :: Surplus(l', key) == Surplus(l, key)) <==> shift == 0.0
  {
    assert Surplus(l', request) == Surplus(l, request) + shift;
  }

  /** A price update conserves money exactly when nothing is owed per unit or the charge is that gain. */
  lemma PriceUpdateConservesIff(l: Ledger, id: ReservationId, newPrice: real)
    requires Repriced(l, id, newPrice)
    ensures UpdatePrice(l, id, newPrice).Ok?
    ensures var r := l.reservations[id];
            (forall key :: Surplus(UpdatePrice(l, id, newPrice).ledger, key) == Surplus(l, key)) <==>
            CostRate(r) == 0.0 || ChargesGain(r, PriceDiff(r, newPrice), newPrice)
  {
    var r := l.reservations[id];
    var diff := PriceDiff(r, newPrice);
    PriceUpdateSurplus(l, id, newPrice, BalanceKey(r));
    var l', short := UpdatePrice(l, id, newPrice).ledger, Shortfall(r, diff, newPrice);
    forall key ensures Surplus(l', key) == Surplus(l, key) + if BalanceKey(r) == key then short else 0.0 {
      PriceUpdateSurplus(l, id, newPrice, key);
    }
    ShiftedIff(l, l', BalanceKey(r), short);
    ShortfallZeroIff(r, diff, newPrice);
  }

  // ---- an untouched reservation ----

  lemma InverseRates(p: real, q: real)
    requires p > 0.0 && q > 0.0
    ensures 1.0 / p == 1.0 / q <==> p == q
    ensures 1.0 / p * q == p * (1.0 / q) <==> p == q
  {
    var a, b := 1.0 / p, 1.0 / q;
    assert a * p == 1.0 && b * q == 1.0;
    if a * q == p * b {
      assert (a * q) * (p * q) == (p * b) * (p * q);
      assert (a * q) * (p * q) == (a * p) * (q * q);
      assert (p * b) * (p * q) == (b * q) * (p * p);
      SquaresMeet(p, q);
    }
  }

  lemma SquaresMeet(p: real, q: real)
    requires p > 0.0 && q > 0.0 && p * p == q * q
    ensures p == q
  {
    assert (p - q) * (p + q) == 0.0;
  }

  /** Two currencies of a symbol move together only if they are one, or the price stays. */
  lemma RatesMoveTogether(symbol: Symbol, a: CurrencyCode, b: CurrencyCode, p: real, q: real)
    requires p > 0.0 && q > 0.0 && symbol.Converts(a) && symbol.Converts(b)
    ensures GainAlike(symbol, a, b, p, q) <==> a == b || p == q
  {
    InverseRates(p, q);
    InverseRates(q, p);
  }

  lemma GainAtOneRate(diff: real, amount: real, s: real, s0: real, b: real, b0: real)
    requires s > 0.0 && diff * s == (s - s0) * amount
    ensures IsGain(diff, amount, b, b0) <==> amount == 0.0 || Proportional(s0, s, b0, b)
  {
    assert (diff * b) * s == ((s - s0) * amount) * b;
    assert (amount * (b - b0)) * s - (diff * b) * s == amount * (s0 * b - s * b0);
    ProductZero(amount, s0 * b - s * b0);
    ProductZero(amount * (b - b0) - diff * b, s);
  }

  /** An untouched reservation is charged exactly for its new price if and only if it is paid for in its
      own currency, the price stays, or nothing is owed: always outside derivatives. */
  lemma UntouchedPriceUpdateConservesIff(l: Ledger, id: ReservationId, newPrice: real)
    requires Repriced(l, id, newPrice) && Untouched(l.reservations[id])
    ensures UpdatePrice(l, id, newPrice).Ok?
    ensures var r := l.reservations[id];
            (forall key :: Surplus(UpdatePrice(l, id, newPrice).ledger, key) == Surplus(l, key)) <==>
            CostRate(r) == 0.0 || BalanceKey(r).code == r.code || newPrice == r.price
  {
    var r := l.reservations[id];
    PriceUpdateConservesIff(l, id, newPrice);
    UntouchedGain(r, newPrice);
  }

  /** Both currencies gain in the same proportion from price `p` to price `q`. */
  predicate GainAlike(symbol: Symbol, a: CurrencyCode, b: CurrencyCode, p: real, q: real)
    requires p > 0.0 && q > 0.0
  {
    Proportional(Rate(symbol, a, p), Rate(symbol, a, q), Rate(symbol, b, p), Rate(symbol, b, q))
  }

  predicate Proportional(a0: real, a: real, b0: real, b: real) {
    a0 * b == a * b0
  }

  lemma UntouchedGain(r: Reservation, newPrice: real)
    requires ReservationOk(r) && newPrice > 0.0 && Untouched(r)
    ensures CostRate(r) == 0.0 || ChargesGain(r, PriceDiff(r, newPrice), newPrice) <==>
            CostRate(r) == 0.0 || BalanceKey(r).code == r.code || newPrice == r.price
  {
    assert r.amount == 0.0 ==> CostRate(r) == 0.0;
    assert ChargesGain(r, PriceDiff(r, newPrice), newPrice) <==>
           r.amount == 0.0 || GainAlike(r.symbol, r.code, BalanceKey(r).code, r.price, newPrice) by {
      UntouchedGainAlike(r, newPrice);
    }
    assert GainAlike(r.symbol, r.code, BalanceKey(r).code, r.price, newPrice) <==>
           BalanceKey(r).code == r.code || newPrice == r.price by {
      RatesMoveTogether(r.symbol, r.code, BalanceKey(r).code, r.price, newPrice);
    }
  }

  lemma UntouchedGainAlike(r: Reservation, newPrice: real)
    requires ReservationOk(r) && newPrice > 0.0 && Untouched(r)
    ensures ChargesGain(r, PriceDiff(r, newPrice), newPrice) <==>
            r.amount == 0.0 || GainAlike(r.symbol, r.code, BalanceKey(r).code, r.price, newPrice)
  {
    UntouchedDiff(r, newPrice);
    RateIsPositive(r.symbol, r.code, newPrice);
    GainAtOneRate(PriceDiff(r, newPrice), r.amount, Rate(r.symbol, r.code, newPrice), Rate(r.symbol, r.code, r.price),
                  BalanceRate(r, newPrice), BalanceRate(r, r.price));
  }
}
