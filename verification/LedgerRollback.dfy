/** Reserving several amounts at once: all of them or none. */
module LedgerRollback {
  import opened Domain
  import opened Symbols
  import opened ReservationLedger
  import opened LedgerIndex
  import opened LedgerBalance

  datatype Success = Success(id: ReservationId, parameters: ReserveParameters)

  predicate AllOk(l: Ledger, ps: seq<ReserveParameters>) {
    forall i :: 0 <= i < |ps| ==> ParametersOk(l, ps[i])
  }

  /** What the checks may have let through for each of the requests. */
  ghost predicate AttemptsFor(attempts: seq<Option<Reservation>>, ps: seq<ReserveParameters>) {
    && |attempts| == |ps|
    && forall i :: 0 <= i < |ps| ==> AttemptFor(attempts[i], ps[i])
  }

  ghost predicate AttemptFor(attempt: Option<Reservation>, p: ReserveParameters) {
    attempt.Some? ==> NewFor(attempt.value, p) && ReservationOk(attempt.value)
  }

  /** Stores the accepted reservations in order and collects them. */
  ghost function StoreAll(l: Ledger, ps: seq<ReserveParameters>,
                          attempts: seq<Option<Reservation>>): (r: (Ledger, seq<Success>))
    requires LedgerOk(l) && AttemptsFor(attempts, ps)
    ensures LedgerOk(r.0) && SameMarkets(l, r.0) && l.nextId <= r.0.nextId && |r.1| <= |ps|
  {
    var n := |ps| - 1;
    if ps == [] then (l, [])
    else
      var (l1, done) := StoreAll(l, ps[..n], attempts[..n]);
      assert AttemptFor(attempts[n], ps[n]);
      (Store(l1, attempts[n]), if attempts[n].Some? then done + [Success(l1.nextId, ps[n])] else done)
  }

  /** Each request is checked against the ledger left by the ones before it. */
  ghost function Attempts(l: Ledger, ps: seq<ReserveParameters>): (attempts: seq<Option<Reservation>>)
    requires LedgerOk(l) && AllOk(l, ps)
    ensures AttemptsFor(attempts, ps)
  {
    if ps == [] then []
    else
      var earlier := Attempts(l, ps[..|ps| - 1]);
      earlier + [Attempt(StoreAll(l, ps[..|ps| - 1], earlier).0, ps[|ps| - 1])]
  }

  /** All requests tried in order: the ledger and the successes. */
  ghost function Reserved(l: Ledger, ps: seq<ReserveParameters>): (r: (Ledger, seq<Success>))
    requires LedgerOk(l) && AllOk(l, ps)
    ensures LedgerOk(r.0) && SameMarkets(l, r.0)
  {
    StoreAll(l, ps, Attempts(l, ps))
  }

  ghost function NextReserved(l: Ledger, done: seq<Success>, p: ReserveParameters): (Ledger, seq<Success>)
    requires LedgerOk(l) && ParametersOk(l, p)
  {
    (TryReserve(l, p), if Attempt(l, p).Some? then done + [Success(l.nextId, p)] else done)
  }

  /** Takes the successful reservations back in order; `unreserve_expected` panics on an error. */
  ghost function UnreserveAll(l: Ledger, done: seq<Success>): Outcome
    requires LedgerOk(l)
    decreases |done|
  {
    if done == [] then Ok(l)
    else
      var o := Unreserve(l, done[0].id, done[0].parameters.amount, None);
      if !o.Ok? then Panic else UnreserveAll(o.ledger, done[1..])
  }

  datatype ManyReserved = ManyReserved(outcome: Outcome, done: Option<seq<Success>>)

  ghost function ReserveMany(l: Ledger, ps: seq<ReserveParameters>, attempts: seq<Option<Reservation>>): ManyReserved
    requires LedgerOk(l) && AttemptsFor(attempts, ps)
  {
    var (l1, done) := StoreAll(l, ps, attempts);
    if |done| == |ps| then ManyReserved(Ok(l1), Some(done)) else ManyReserved(UnreserveAll(l1, done), None)
  }

  ghost function TryReserveMultiple(l: Ledger, ps: seq<ReserveParameters>): ManyReserved
    requires LedgerOk(l) && AllOk(l, ps)
  {
    ReserveMany(l, ps, Attempts(l, ps))
  }

  // ---- a reservation as it was made ----

  predicate Fresh(r: Reservation, p: ReserveParameters) {
    && FromReservation(r) == p.(amount := 0.0)
    && r.amount == p.amount && r.unreserved == p.amount && r.notApproved == p.amount && r.parts == map[]
  }

  /** An amount so small that unreserving it rounds to nothing. */
  predicate Dust(p: ReserveParameters)
    requires p.symbol.tick > 0.0
  {
    p.amount != 0.0 && RoundAmount(p.symbol, p.amount) == 0.0
  }

  lemma RoundsClose(symbol: Symbol, amount: real)
    requires symbol.tick > 0.0
    ensures WithinMargin(symbol, amount - RoundAmount(symbol, amount))
    ensures amount == 0.0 ==> RoundAmount(symbol, amount) == 0.0
  {
    RoundingError(amount, Unit(symbol));
    RoundingKeepsGrid(0, Unit(symbol));
    assert 0.0 * Unit(symbol) == 0.0;
  }

  /** Unreserving the whole amount of an untouched reservation removes it, precision-aligned or not. */
  lemma FreshIsRemoved(r: Reservation, p: ReserveParameters)
    requires ReservationOk(r) && Fresh(r, p) && !Dust(p)
    ensures UnreserveRounded(r, RoundAmount(r.symbol, p.amount), None).Changed?
    ensures UnreserveRounded(r, RoundAmount(r.symbol, p.amount), None).change.after == None
  {
    RoundsClose(r.symbol, p.amount);
  }

  lemma UnreserveChanges(l: Ledger, id: ReservationId, amount: real)
    requires LedgerOk(l) && id in l.reservations && ReservationOk(l.reservations[id])
    requires UnreserveActs(l, l.reservations[id], amount) && QueryOk(l, FromReservation(l.reservations[id]))
    requires UnreserveRounded(l.reservations[id], RoundAmount(l.reservations[id].symbol, amount), None).Changed?
    requires UnreserveRounded(l.reservations[id], RoundAmount(l.reservations[id].symbol, amount), None).change.after ==
             None
    ensures Unreserve(l, id, amount, None).Ok? && Unreserve(l, id, amount, None).ledger.reservations ==
            l.reservations - {id}
  {
  }

  predicate IsDust(p: ReserveParameters) {
    p.symbol.tick > 0.0 && Dust(p)
  }

  lemma UnreserveFresh(l: Ledger, s: Success)
    requires LedgerOk(l) && Made(l, s)
    ensures Unreserve(l, s.id, s.parameters.amount, None).Ok?
    ensures Unreserve(l, s.id, s.parameters.amount, None).ledger.reservations ==
            if IsDust(s.parameters) then l.reservations else l.reservations - {s.id}
  {
    var r := l.reservations[s.id];
    assert StoredOk(s.id, l.nextId, r);
    assert QueryOk(l, FromReservation(r)) == QueryOk(l, s.parameters);
    if !Dust(s.parameters) {
      FreshIsRemoved(r, s.parameters);
      UnreserveChanges(l, s.id, s.parameters.amount);
    }
  }

  // ---- the successful reservations ----

  /** The balance query of an unreserve does not panic. */
  predicate Queryable(l: Ledger, p: ReserveParameters) {
    p.account in l.exchanges && p.symbol.Ok() && p.price > 0.0 && QueryOk(l, p)
  }

  ghost predicate Made(l: Ledger, s: Success) {
    s.id in l.reservations && Fresh(l.reservations[s.id], s.parameters) && Queryable(l, s.parameters)
  }

  ghost predicate Distinct(done: seq<Success>) {
    forall i, j :: 0 <= i < j < |done| ==> done[i].id != done[j].id
  }

  ghost function IdSet(done: seq<Success>): set<ReservationId> {
    set i | 0 <= i < |done| :: done[i].id
  }

  ghost predicate AllMade(l: Ledger, done: seq<Success>) {
    Distinct(done) && forall i :: 0 <= i < |done| ==> Made(l, done[i])
  }

  ghost predicate InRange(done: seq<Success>, lo: nat, hi: nat) {
    forall i :: 0 <= i < |done| ==> lo <= done[i].id < hi
  }

  lemma StoreAdds(l: Ledger, r: Reservation, p: ReserveParameters)
    requires LedgerOk(l) && NewFor(r, p) && ReservationOk(r) && Queryable(l, p)
    ensures Made(Store(l, Some(r)), Success(l.nextId, p))
    ensures l.nextId !in l.reservations && Store(l, Some(r)).reservations - {l.nextId} == l.reservations
  {
    BumpKeepsOk(l);
  }

  ghost predicate InOrder(ps: seq<ReserveParameters>, done: seq<Success>) {
    |done| <= |ps| && (|done| == |ps| ==> forall i :: 0 <= i < |ps| ==> done[i].parameters == ps[i])
  }

  /** Every success is stored as it was made under a fresh id, and nothing else is touched. */
  ghost predicate MadeFrom(l: Ledger, l1: Ledger, ps: seq<ReserveParameters>, done: seq<Success>) {
    && AllMade(l1, done) && InRange(done, l.nextId, l1.nextId)
    && l1.reservations - IdSet(done) == l.reservations
    && InOrder(ps, done)
  }

  lemma {:induction false} StoreAllAdds(l: Ledger, ps: seq<ReserveParameters>, attempts: seq<Option<Reservation>>)
    requires LedgerOk(l) && AttemptsFor(attempts, ps) && AllQueryable(l, ps)
    ensures var (l1, done) := StoreAll(l, ps, attempts); MadeFrom(l, l1, ps, done)
  {
    if ps == [] {
      assert l.reservations - IdSet([]) == l.reservations;
    } else {
      var n := |ps| - 1;
      var earlier, tries, p, attempt := ps[..n], attempts[..n], ps[n], attempts[n];
      assert earlier + [p] == ps && tries + [attempt] == attempts;
      assert AttemptsFor(tries, earlier) && AttemptFor(attempt, p) && AllQueryable(l, earlier) && Queryable(l, p);
      StoreAllAdds(l, earlier, tries);
      StoreLast(l, earlier, tries, p, attempt);
    }
  }

  lemma StoreAllStep(l: Ledger, ps: seq<ReserveParameters>, attempts: seq<Option<Reservation>>, p: ReserveParameters,
                     attempt: Option<Reservation>)
    requires LedgerOk(l) && AttemptsFor(attempts, ps) && AttemptFor(attempt, p)
    ensures AttemptsFor(attempts + [attempt], ps + [p])
    ensures var (l1, done) := StoreAll(l, ps, attempts);
            StoreAll(l, ps + [p], attempts + [attempt]) ==
            (Store(l1, attempt), if attempt.Some? then done + [Success(l1.nextId, p)] else done)
  {
    assert (ps + [p])[..|ps|] == ps && (attempts + [attempt])[..|ps|] == attempts;
  }

  lemma AttemptsLast(l: Ledger, ps: seq<ReserveParameters>, p: ReserveParameters)
    requires LedgerOk(l) && AllOk(l, ps) && ParametersOk(l, p)
    ensures AllOk(l, ps + [p]) && ParametersOk(Reserved(l, ps).0, p)
    ensures Attempts(l, ps + [p]) == Attempts(l, ps) + [Attempt(Reserved(l, ps).0, p)]
  {
    assert (ps + [p])[..|ps|] == ps;
  }

  /** Each request is tried on the ledger the earlier ones leave. */
  lemma ReservedStep(l: Ledger, ps: seq<ReserveParameters>, p: ReserveParameters)
    requires LedgerOk(l) && AllOk(l, ps) && ParametersOk(l, p)
    ensures AllOk(l, ps + [p]) && ParametersOk(Reserved(l, ps).0, p)
    ensures Reserved(l, ps + [p]) == NextReserved(Reserved(l, ps).0, Reserved(l, ps).1, p)
  {
    AttemptsLast(l, ps, p);
    StoreAllStep(l, ps, Attempts(l, ps), p, Attempt(Reserved(l, ps).0, p));
  }

  ghost predicate TrailStep(before: (Ledger, seq<Success>), after: (Ledger, seq<Success>), p: ReserveParameters) {
    LedgerOk(before.0) && ParametersOk(before.0, p) && after == NextReserved(before.0, before.1, p)
  }

  ghost predicate IsTrail(trail: seq<(Ledger, seq<Success>)>, l: Ledger, ps: seq<ReserveParameters>) {
    && |trail| == |ps| + 1 && trail[0] == (l, [])
    && forall i :: 0 <= i < |ps| ==> TrailStep(trail[i], trail[i + 1], ps[i])
  }

  /** All the states in between. */
  lemma {:induction false} ReservedTrail(l: Ledger, ps: seq<ReserveParameters>)
      returns (trail: seq<(Ledger, seq<Success>)>)
    requires LedgerOk(l) && AllOk(l, ps)
    ensures IsTrail(trail, l, ps) && trail[|ps|] == Reserved(l, ps)
    decreases |ps|
  {
    if ps == [] {
      trail := [(l, [])];
    } else {
      var n := |ps| - 1;
      var earlier, p := ps[..n], ps[n];
      assert ps == earlier + [p] && AllOk(l, earlier) && ParametersOk(l, p);
      var before := ReservedTrail(l, earlier);
      ReservedStep(l, earlier, p);
      trail := before + [Reserved(l, ps)];
      ExtendTrail(before, l, earlier, p, Reserved(l, ps));
    }
  }

  lemma ExtendTrail(trail: seq<(Ledger, seq<Success>)>, l: Ledger, ps: seq<ReserveParameters>, p: ReserveParameters,
                    next: (Ledger, seq<Success>))
    requires IsTrail(trail, l, ps) && TrailStep(trail[|ps|], next, p)
    ensures IsTrail(trail + [next], l, ps + [p])
  {
    forall i | 0 <= i < |ps| + 1 ensures TrailStep((trail + [next])[i], (trail + [next])[i + 1], (ps + [p])[i]) {
      assert i < |ps| ==> TrailStep(trail[i], trail[i + 1], ps[i]);
    }
  }

  lemma StoreLast(l: Ledger, ps: seq<ReserveParameters>, attempts: seq<Option<Reservation>>, p: ReserveParameters,
                  attempt: Option<Reservation>)
    requires LedgerOk(l) && AttemptsFor(attempts, ps) && AttemptFor(attempt, p) && Queryable(l, p)
    requires MadeFrom(l, StoreAll(l, ps, attempts).0, ps, StoreAll(l, ps, attempts).1)
    ensures AttemptsFor(attempts + [attempt], ps + [p])
    ensures var (l2, done) := StoreAll(l, ps + [p], attempts + [attempt]); MadeFrom(l, l2, ps + [p], done)
  {
    var (l1, done) := StoreAll(l, ps, attempts);
    StoreAllStep(l, ps, attempts, p, attempt);
    StoreOne(l, l1, ps, done, attempt, p);
  }

  lemma StoreOne(l: Ledger, l1: Ledger, ps: seq<ReserveParameters>, done: seq<Success>, attempt: Option<Reservation>,
                 p: ReserveParameters)
    requires LedgerOk(l1) && MadeFrom(l, l1, ps, done) && l.nextId <= l1.nextId
    requires AttemptFor(attempt, p) && Queryable(l1, p)
    ensures MadeFrom(l, Store(l1, attempt), ps + [p], if attempt.Some? then done + [Success(l1.nextId, p)] else done)
  {
    if attempt.Some? {
      StoreAdds(l1, attempt.value, p);
      AppendMade(l, l1, Store(l1, attempt), ps, done, Success(l1.nextId, p));
    }
  }

  lemma AppendMade(l: Ledger, l1: Ledger, l2: Ledger, ps: seq<ReserveParameters>, done: seq<Success>, s: Success)
    requires MadeFrom(l, l1, ps, done) && SameMarkets(l1, l2) && Made(l2, s) && s.id !in l1.reservations
    requires l2.reservations - {s.id} == l1.reservations && l.nextId <= l1.nextId <= s.id < l2.nextId
    ensures MadeFrom(l, l2, ps + [s.parameters], done + [s])
  {
    forall i | 0 <= i < |done| ensures Made(l2, done[i]) && done[i].id != s.id {
      assert Made(l1, done[i]);
      assert l2.reservations[done[i].id] == (l2.reservations - {s.id})[done[i].id];
    }
    assert IdSet(done + [s]) == IdSet(done) + {s.id} by {
      assert forall i :: 0 <= i < |done| ==> (done + [s])[i] == done[i];
      assert (done + [s])[|done|] == s;
    }
    assert l2.reservations - IdSet(done + [s]) == l2.reservations - {s.id} - IdSet(done);
  }

  /** The reservations that taking everything back removes. */
  ghost function Removable(done: seq<Success>): set<ReservationId> {
    set i | 0 <= i < |done| && !IsDust(done[i].parameters) :: done[i].id
  }

  ghost predicate DustAmong(done: seq<Success>) {
    exists i :: 0 <= i < |done| && IsDust(done[i].parameters)
  }

  lemma HeadRemovable(done: seq<Success>)
    requires done != []
    ensures Removable(done) == (if IsDust(done[0].parameters) then {} else {done[0].id}) + Removable(done[1..])
  {
    var rest := done[1..];
    assert forall i :: 0 < i < |done| ==> done[i] == rest[i - 1];
    assert forall i :: 0 <= i < |rest| ==> rest[i] == done[i + 1];
  }

  lemma TailMade(l: Ledger, l1: Ledger, done: seq<Success>)
    requires done != [] && AllMade(l, done) && SameMarkets(l, l1)
    requires l1.reservations == l.reservations || l1.reservations == l.reservations - {done[0].id}
    ensures AllMade(l1, done[1..]) && done[0].id !in IdSet(done[1..]) && IdSet(done) == {done[0].id} + IdSet(done[1..])
  {
    var rest := done[1..];
    forall i | 0 <= i < |rest| ensures Made(l1, rest[i]) && rest[i].id != done[0].id {
      assert rest[i] == done[i + 1] && Made(l, done[i + 1]);
    }
    forall i, j | 0 <= i < j < |rest| ensures rest[i].id != rest[j].id {
      assert rest[i] == done[i + 1] && rest[j] == done[j + 1];
    }
    assert forall i :: 0 < i < |done| ==> done[i] == rest[i - 1];
  }

  /** Taking back untouched reservations never fails; exactly the dust among them survives. */
  lemma {:induction false} UnreserveAllRemoves(l: Ledger, done: seq<Success>)
    requires LedgerOk(l) && AllMade(l, done)
    ensures UnreserveAll(l, done).Ok?
    ensures UnreserveAll(l, done).ledger.reservations == l.reservations - Removable(done)
    decreases |done|
  {
    if done == [] {
      assert l.reservations - Removable([]) == l.reservations;
    } else {
      var s, rest := done[0], done[1..];
      var o := Unreserve(l, s.id, s.parameters.amount, None);
      assert o.Ok? && o.ledger.reservations == l.reservations - if IsDust(s.parameters) then {} else {s.id} by {
        UnreserveFresh(l, s);
        assert l.reservations - {} == l.reservations;
      }
      assert AllMade(o.ledger, rest) by {
        assert l.reservations - {} == l.reservations;
        TailMade(l, o.ledger, done);
      }
      UnreserveAllRemoves(o.ledger, rest);
      assert l.reservations - Removable(done) == o.ledger.reservations - Removable(rest) by {
        HeadRemovable(done);
      }
    }
  }

  /** Without dust among them the reservations are those from before; any dust stays behind. */
  lemma RemovedIffNoDust(before: map<ReservationId, Reservation>, after: map<ReservationId, Reservation>,
                         done: seq<Success>)
    requires Distinct(done) && IdSet(done) <= after.Keys && before == after - IdSet(done)
    ensures after - Removable(done) == before <==> !DustAmong(done)
  {
    if DustAmong(done) {
      var i :| 0 <= i < |done| && IsDust(done[i].parameters);
      assert done[i].id in IdSet(done) && done[i].id !in Removable(done);
      assert done[i].id in after - Removable(done);
    } else {
      assert IdSet(done) == Removable(done);
    }
  }

  // ---- index and balances ----

  lemma {:induction false} StoreAllKeeps(l: Ledger, ps: seq<ReserveParameters>, attempts: seq<Option<Reservation>>,
                                         key: BalanceRequest)
    requires LedgerOk(l) && AttemptsFor(attempts, ps)
    ensures Drift(StoreAll(l, ps, attempts).0, key) == Drift(l, key)
    ensures Surplus(StoreAll(l, ps, attempts).0, key) == Surplus(l, key)
    decreases |ps|
  {
    if ps != [] {
      var n := |ps| - 1;
      StoreAllKeeps(l, ps[..n], attempts[..n], key);
      var l1 := StoreAll(l, ps[..n], attempts[..n]).0;
      assert AttemptFor(attempts[n], ps[n]);
      StoreKeepsDrift(l1, attempts[n], key);
      StoreKeepsSurplus(l1, attempts[n], key);
    }
  }

  lemma {:induction false} UnreserveAllKeeps(l: Ledger, done: seq<Success>, key: BalanceRequest)
    requires LedgerOk(l) && UnreserveAll(l, done).Ok?
    ensures Drift(UnreserveAll(l, done).ledger, key) == Drift(l, key)
    ensures Surplus(UnreserveAll(l, done).ledger, key) == Surplus(l, key)
    decreases |done|
  {
    if done != [] {
      var o := Unreserve(l, done[0].id, done[0].parameters.amount, None);
      UnreserveKeepsDrift(l, done[0].id, done[0].parameters.amount, None, key);
      UnreserveKeepsSurplus(l, done[0].id, done[0].parameters.amount, None, key);
      UnreserveAllKeeps(o.ledger, done[1..], key);
    }
  }

  /** The index and the balance differences follow from the reservations, the drift and the surplus. */
  lemma SameTables(a: Ledger, b: Ledger, key: BalanceRequest)
    requires a.reservations == b.reservations && Drift(a, key) == Drift(b, key) && Surplus(a, key) == Surplus(b, key)
    ensures ValueOr0(a.reserved, key) == ValueOr0(b.reserved, key) && ValueOr0(a.diffs, key) == ValueOr0(b.diffs, key)
  {
  }

  // ---- all or nothing ----

  /** Stored reservations, reserved amounts and balance differences are as before, an absent amount
      counting as zero. */
  ghost predicate Restored(l: Ledger, l': Ledger) {
    && l'.reservations == l.reservations
    && (forall key :: ValueOr0(l'.reserved, key) == ValueOr0(l.reserved, key))
    && (forall key :: ValueOr0(l'.diffs, key) == ValueOr0(l.diffs, key))
  }

  ghost predicate Granted(l: Ledger, l': Ledger, ps: seq<ReserveParameters>, done: seq<Success>) {
    && |done| == |ps| && Distinct(done)
    && (forall i :: 0 <= i < |ps| ==> done[i].parameters == ps[i])
    && (forall i :: 0 <= i < |done| ==> done[i].id !in l.reservations && Made(l', done[i]))
    && l'.reservations - IdSet(done) == l.reservations
  }

  ghost predicate AllQueryable(l: Ledger, ps: seq<ReserveParameters>) {
    forall i :: 0 <= i < |ps| ==> Queryable(l, ps[i])
  }

  /** Whatever the checks let through: all requests are granted, or the successful ones are taken back
      without failing and everything is as before exactly when no dust was among them. */
  lemma ReserveManyAllOrNothing(l: Ledger, ps: seq<ReserveParameters>, attempts: seq<Option<Reservation>>)
    requires LedgerOk(l) && AttemptsFor(attempts, ps) && AllQueryable(l, ps)
    ensures var many, (_, done) := ReserveMany(l, ps, attempts), StoreAll(l, ps, attempts);
            && many.outcome.Ok?
            && (many.done.Some? ==> Granted(l, many.outcome.ledger, ps, many.done.value))
            && (many.done.None? ==> (Restored(l, many.outcome.ledger) <==> !DustAmong(done)))
  {
    var (l1, done) := StoreAll(l, ps, attempts);
    StoreAllAdds(l, ps, attempts);
    if |done| == |ps| {
      assert Granted(l, l1, ps, done) by {
        AllGranted(l, l1, ps, done);
      }
    } else {
      assert UnreserveAll(l1, done).Ok? && UnreserveAll(l1, done).ledger.reservations ==
          l1.reservations - Removable(done) by {
        UnreserveAllRemoves(l1, done);
      }
      RolledBack(l, ps, attempts, UnreserveAll(l1, done).ledger);
    }
  }

  lemma AllGranted(l: Ledger, l1: Ledger, ps: seq<ReserveParameters>, done: seq<Success>)
    requires MadeFrom(l, l1, ps, done) && |done| == |ps|
    ensures Granted(l, l1, ps, done)
  {
    forall i | 0 <= i < |done| ensures done[i].id !in l.reservations {
      assert done[i].id in IdSet(done);
    }
  }

  lemma RolledBack(l: Ledger, ps: seq<ReserveParameters>, attempts: seq<Option<Reservation>>, l': Ledger)
    requires LedgerOk(l) && AttemptsFor(attempts, ps)
    requires var (l1, done) := StoreAll(l, ps, attempts);
             && MadeFrom(l, l1, ps, done) && UnreserveAll(l1, done) == Ok(l')
             && l'.reservations == l1.reservations - Removable(done)
    ensures Restored(l, l') <==> !DustAmong(StoreAll(l, ps, attempts).1)
  {
    var (l1, done) := StoreAll(l, ps, attempts);
    assert (l'.reservations == l.reservations) <==> !DustAmong(done) by {
      assert IdSet(done) <= l1.reservations.Keys;
      RemovedIffNoDust(l.reservations, l1.reservations, done);
    }
    if l'.reservations == l.reservations {
      forall key ensures ValueOr0(l'.reserved, key) == ValueOr0(l.reserved, key)
          && ValueOr0(l'.diffs, key) == ValueOr0(l.diffs, key) {
        assert Drift(l', key) == Drift(l, key) && Surplus(l', key) == Surplus(l, key) by {
          StoreAllKeeps(l, ps, attempts, key);
          UnreserveAllKeeps(l1, done, key);
        }
        SameTables(l', l, key);
      }
    }
  }

  // ---- the dust ----

  function GridPoint(k: int, unit: real): real {
    k as real * unit
  }

  ghost predicate Aligned(p: ReserveParameters) {
    exists k :: p.amount == GridPoint(k, Unit(p.symbol))
  }

  /** An amount on the precision grid is never dust. */
  lemma AlignedIsNoDust(p: ReserveParameters)
    requires p.symbol.tick > 0.0 && Aligned(p)
    ensures !IsDust(p)
  {
    var k :| p.amount == GridPoint(k, Unit(p.symbol));
    GridStays(p.amount, k, Unit(p.symbol));
  }

  lemma GridStays(value: real, k: int, unit: real)
    requires unit > 0.0 && value == GridPoint(k, unit)
    ensures RoundToNearest(value, unit) == value
  {
    RoundingKeepsGrid(k, unit);
  }

  /** Dust exists for every market: a tenth of the precision unit rounds to nothing. */
  lemma DustExists(p: ReserveParameters)
    requires p.symbol.tick > 0.0 && p.amount == Unit(p.symbol) * 0.1
    ensures IsDust(p)
  {
    var unit := Unit(p.symbol);
    assert p.amount / unit == 0.1 && (-p.amount) / unit == -0.1;
    assert (0.1).Floor == 0 && (-0.1).Floor == -1;
    assert RoundDown(p.amount, unit) == 0.0 && RoundUp(p.amount, unit) == unit;
  }

  /** The reservations that go through are among the requests. */
  lemma {:induction false} SuccessesAreRequests(l: Ledger, ps: seq<ReserveParameters>,
                                                attempts: seq<Option<Reservation>>, i: nat)
    requires LedgerOk(l) && AttemptsFor(attempts, ps) && i < |StoreAll(l, ps, attempts).1|
    ensures StoreAll(l, ps, attempts).1[i].parameters in ps
    decreases |ps|
  {
    var n := |ps| - 1;
    var done := StoreAll(l, ps[..n], attempts[..n]).1;
    if i < |done| {
      SuccessesAreRequests(l, ps[..n], attempts[..n], i);
    }
  }

  /** All or nothing: for any list of amounts on the precision grid, every request gets a fresh
      reservation or nothing has changed. For other amounts a refusal restores everything exactly when no
      dust was granted on the way. */
  lemma TryReserveMultipleAllOrNothing(l: Ledger, ps: seq<ReserveParameters>)
    requires LedgerOk(l) && AllOk(l, ps)
    ensures var many, (_, done) := TryReserveMultiple(l, ps), Reserved(l, ps);
            && many.outcome.Ok?
            && (many.done.Some? ==> Granted(l, many.outcome.ledger, ps, many.done.value))
            && (many.done.None? ==> (Restored(l, many.outcome.ledger) <==> !DustAmong(done)))
            && (many.done.None? && (forall p :: p in ps ==> Aligned(p)) ==> Restored(l, many.outcome.ledger))
  {
    var attempts := Attempts(l, ps);
    var done := StoreAll(l, ps, attempts).1;
    ReserveManyAllOrNothing(l, ps, attempts);
    if (forall p :: p in ps ==> Aligned(p)) && DustAmong(done) {
      var i :| 0 <= i < |done| && IsDust(done[i].parameters);
      SuccessesAreRequests(l, ps, attempts, i);
      AlignedIsNoDust(done[i].parameters);
      assert false;
    }
  }
}
