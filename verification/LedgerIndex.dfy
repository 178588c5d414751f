/** The incrementally kept index of reserved amounts against the recomputation from the stored
    reservations. */
module LedgerIndex {
  import opened Domain
  import opened Sums
  import opened Symbols
  import opened ReservationLedger

  function Share(request: BalanceRequest): Reservation -> real {
    (r: Reservation) => if RequestOf(r) == request then r.unreserved else 0.0
  }

  /** What `sync_reservation_amounts` would store for a request. */
  ghost function Recomputed(l: Ledger, request: BalanceRequest): real {
    Total(l.reservations, Share(request))
  }

  /** How far the index is off at a request. */
  ghost function Drift(l: Ledger, request: BalanceRequest): real {
    ValueOr0(l.reserved, request) - Recomputed(l, request)
  }

  function Left(change: Change): real {
    if change.after.Some? then change.after.value.unreserved else 0.0
  }

  function Held(l: Ledger, id: ReservationId): real {
    if id in l.reservations then l.reservations[id].unreserved else 0.0
  }

  /** A change shifts the drift of its own request by what it moves too much. */
  lemma ApplyDrift(l: Ledger, id: ReservationId, r: Reservation, change: Change, request: BalanceRequest)
    requires ReservationOk(r) && KeepsTerms(r, change)
    requires id in l.reservations ==> SameTerms(r, l.reservations[id])
    ensures Drift(ApplyChange(l, id, r, change), request) ==
            Drift(l, request) + if request == RequestOf(r) then change.moved + Held(l, id) - Left(change) else 0.0
  {
    if change.after.Some? {
      TotalPut(l.reservations, Share(request), id, change.after.value);
    } else {
      TotalDrop(l.reservations, Share(request), id);
    }
  }

  lemma PutDrift(l: Ledger, id: ReservationId, r: Reservation, request: BalanceRequest)
    requires id in l.reservations && SameAmounts(l.reservations[id], r)
    ensures Drift(Put(l, id, r), request) == Drift(l, request)
  {
    TotalPut(l.reservations, Share(request), id, r);
  }

  // ---- reservation by reservation ----

  /** Unreserving moves exactly what leaves the reservation, over-unreserving included, and a removal is
      never left without compensation. */
  lemma UnreserveMovesExactly(r: Reservation, amount: real, order: Option<ClientOrderId>)
    requires ReservationOk(r) && EmptyOk(r)
    ensures var u := UnreserveRounded(r, amount, order);
            match u
            case Failed(kept) => SameAmounts(r, kept)
            case Abandoned(_) => false
            case Changed(c) => c.moved == Left(c) - r.unreserved && (c.after.Some? ==> EmptyOk(c.after.value))
  {
  }

  /** What is dropped without compensation when a transfer leaves less than the margin. */
  function Residue(r: Reservation, diff: real): real {
    if WithinMargin(r.symbol, r.unreserved + diff) then r.unreserved + diff else 0.0
  }

  // ---- operation by operation ----

  /** A new reservation is indexed with the amount it stores, whatever the checks let through. */
  lemma StoreKeepsDrift(l: Ledger, attempt: Option<Reservation>, request: BalanceRequest)
    requires LedgerOk(l) && (attempt.Some? ==> ReservationOk(attempt.value))
    ensures Drift(Store(l, attempt), request) == Drift(l, request)
  {
    if attempt.Some? {
      var r, l1 := attempt.value, l.(nextId := l.nextId + 1);
      BumpKeepsOk(l);
      ApplyDrift(l1, l.nextId, r, ReserveChange(r), request);
    }
  }

  /** Unreserving keeps the index right whether it succeeds, over-unreserves or fails half-way. */
  lemma UnreserveKeepsDrift(l: Ledger, id: ReservationId, amount: real, order: Option<ClientOrderId>,
                            request: BalanceRequest)
    requires LedgerOk(l) && Unreserve(l, id, amount, order).Returns()
    ensures Drift(Unreserve(l, id, amount, order).ledger, request) == Drift(l, request)
  {
    if id in l.reservations {
      var r := l.reservations[id];
      assert StoredOk(id, l.nextId, r);
      if UnreserveActs(l, r, amount) {
        var rounded := RoundAmount(r.symbol, amount);
        UnreserveMovesExactly(r, rounded, order);
        match UnreserveRounded(r, rounded, order)
        case Failed(kept) =>
          PutDrift(l, id, kept, request);
        case Changed(change) =>
          ApplyDrift(l, id, r, change, request);
      }
    }
  }

  lemma ApproveKeepsDrift(l: Ledger, id: ReservationId, order: ClientOrderId, amount: real, request: BalanceRequest)
    requires LedgerOk(l)
    ensures var o := Approve(l, id, order, amount);
            o.Returns() && LedgerOk(o.ledger) && Drift(o.ledger, request) == Drift(l, request)
  {
    if id in l.reservations && order !in l.reservations[id].parts {
      var r := ApproveOn(l.reservations[id], order, amount).0;
      PutDrift(l, id, r, request);
      PutKeepsOk(l, id, r);
    }
  }

  lemma CancelKeepsDrift(l: Ledger, id: ReservationId, order: ClientOrderId, request: BalanceRequest)
    requires LedgerOk(l) && CancelApproved(l, id, order).Returns()
    ensures var o := CancelApproved(l, id, order);
            LedgerOk(o.ledger) && Drift(o.ledger, request) == Drift(l, request)
  {
    if id in l.reservations && order in l.reservations[id].parts {
      var r := CancelOn(l.reservations[id], order);
      PutDrift(l, id, r, request);
      PutKeepsOk(l, id, r);
    }
  }

  ghost predicate Transferable(l: Ledger, src: ReservationId, dst: ReservationId) {
    && src in l.reservations && dst in l.reservations
    && RequestOf(l.reservations[src]) == RequestOf(l.reservations[dst])
  }

  /** The two changes of a transfer in turn. The second works on the reservation `t` that the first one
      leaves at the target, which is another one than before only when source and target are the same. */
  lemma TransferShape(l: Ledger, src: ReservationId, dst: ReservationId, amount: real, order: Option<ClientOrderId>)
    returns (c: Change, d: Change, t: Reservation)
    requires LedgerOk(l) && TransferAmount(l, src, dst, amount, order).Ok?
    ensures src in l.reservations && dst in l.reservations
    ensures StoredOk(src, l.nextId, l.reservations[src]) && StoredOk(dst, l.nextId, l.reservations[dst])
            && ReservationOk(t)
    ensures TransferSide(l.reservations[src], -amount, order, true, 0.0) == Some(c)
    ensures if src == dst then c.after == Some(t) else t == l.reservations[dst]
    ensures TransferSide(t, amount, order, false, -c.paid) == Some(d)
    ensures var l1 := ApplyChange(l, src, l.reservations[src], c);
            && dst in l1.reservations && l1.reservations[dst] == t
            && TransferAmount(l, src, dst, amount, order).ledger == ApplyChange(l1, dst, t, d)
  {
    var changes := TransferChanges(l.reservations, src, dst, amount, order).value;
    c, d := changes.0, changes.1;
    t := if src == dst then c.after.value else l.reservations[dst];
    assert StoredOk(src, l.nextId, l.reservations[src]) && StoredOk(dst, l.nextId, l.reservations[dst]);
  }

  /** One side moves its difference, up to the residue it drops. */
  lemma SideMoves(r: Reservation, diff: real, order: Option<ClientOrderId>, isSrc: bool, cost: real)
    requires TransferSide(r, diff, order, isSrc, cost).Some?
    ensures var c := TransferSide(r, diff, order, isSrc, cost).value;
            && c.moved + r.unreserved - Left(c) == Residue(r, diff)
            && KeepsTerms(r, c) && (c.after.Some? ==> EmptyOk(c.after.value))
  {
  }

  /** What a transfer drops at the target, which is the source again after it gave when both are the same. */
  function TargetResidue(l: Ledger, src: ReservationId, dst: ReservationId, amount: real): real
    requires src in l.reservations && dst in l.reservations
  {
    if src == dst then Residue(l.reservations[src], 0.0) else Residue(l.reservations[dst], amount)
  }

  function Dropped(l: Ledger, src: ReservationId, dst: ReservationId, amount: real): real
    requires src in l.reservations && dst in l.reservations
  {
    Residue(l.reservations[src], -amount) + TargetResidue(l, src, dst, amount)
  }

  /** Between two reservations of one market and side, or from one to itself, a transfer shifts the index by
      exactly the residues it drops. */
  lemma TransferDrift(l: Ledger, src: ReservationId, dst: ReservationId, amount: real, order: Option<ClientOrderId>,
                      request: BalanceRequest)
    requires LedgerOk(l) && Transferable(l, src, dst) && TransferAmount(l, src, dst, amount, order).Ok?
    ensures LedgerOk(TransferAmount(l, src, dst, amount, order).ledger)
    ensures Drift(TransferAmount(l, src, dst, amount, order).ledger, request) ==
            Drift(l, request) + if request == RequestOf(l.reservations[src]) then Dropped(l, src, dst, amount) else 0.0
  {
    var c, d, t := TransferShape(l, src, dst, amount, order);
    if src == dst {
      BackAgain(l.reservations[src], amount, order, c, t);
    }
    DriftOfChanges(l, src, dst, c, d, t, amount, order, request);
  }

  /** What comes back to a source that gave to itself is what it had. */
  lemma BackAgain(r: Reservation, amount: real, order: Option<ClientOrderId>, c: Change, t: Reservation)
    requires TransferSide(r, -amount, order, true, 0.0) == Some(c) && c.after == Some(t)
    ensures RequestOf(t) == RequestOf(r) && Residue(t, amount) == Residue(r, 0.0)
  {
  }

  lemma DriftOfChanges(l: Ledger, a: ReservationId, b: ReservationId, c: Change, d: Change, t: Reservation,
                       amount: real,
                       order: Option<ClientOrderId>, request: BalanceRequest)
    requires LedgerOk(l) && a in l.reservations && StoredOk(a, l.nextId, l.reservations[a]) && b < l.nextId
    requires TransferSide(l.reservations[a], -amount, order, true, 0.0) == Some(c)
    requires b in ApplyChange(l, a, l.reservations[a], c).reservations
    requires ApplyChange(l, a, l.reservations[a], c).reservations[b] == t
    requires ReservationOk(t) && RequestOf(t) == RequestOf(l.reservations[a])
    requires TransferSide(t, amount, order, false, -c.paid) == Some(d)
    ensures var r := l.reservations[a];
            var l' := ApplyChange(ApplyChange(l, a, r, c), b, t, d);
            && LedgerOk(l')
            && Drift(l', request) ==
               Drift(l, request) + if request == RequestOf(r) then Residue(r, -amount) + Residue(t, amount) else 0.0
  {
    SideMoves(l.reservations[a], -amount, order, true, 0.0);
    SideMoves(t, amount, order, false, -c.paid);
    TwoChanges(l, a, b, c, d, t, request);
  }

  /** Two changes in a row, the second to what the first one leaves. */
  lemma TwoChanges(l: Ledger, a: ReservationId, b: ReservationId, c: Change, d: Change, t: Reservation,
                   request: BalanceRequest)
    requires LedgerOk(l) && a in l.reservations && StoredOk(a, l.nextId, l.reservations[a]) && b < l.nextId
    requires KeepsTerms(l.reservations[a], c) && (c.after.Some? ==> EmptyOk(c.after.value))
    requires b in ApplyChange(l, a, l.reservations[a], c).reservations
    requires ApplyChange(l, a, l.reservations[a], c).reservations[b] == t
    requires ReservationOk(t) && KeepsTerms(t, d) && (d.after.Some? ==> EmptyOk(d.after.value))
    ensures var r := l.reservations[a];
            var l' := ApplyChange(ApplyChange(l, a, r, c), b, t, d);
            && LedgerOk(l')
            && Drift(l', request) == Drift(l, request)
                 + (if request == RequestOf(r) then c.moved + r.unreserved - Left(c) else 0.0)
                 + (if request == RequestOf(t) then d.moved + t.unreserved - Left(d) else 0.0)
  {
    var r := l.reservations[a];
    var l1 := ApplyChange(l, a, r, c);
    ApplyDrift(l, a, r, c, request);
    ApplyKeepsOk(l, a, r, c);
    ApplyDrift(l1, b, t, d, request);
    ApplyKeepsOk(l1, b, t, d);
  }

  /** A caller can tell beforehand: the residues cancel. */
  predicate ExactTransfer(l: Ledger, src: ReservationId, dst: ReservationId, amount: real)
    requires src in l.reservations && dst in l.reservations
  {
    Dropped(l, src, dst, amount) == 0.0
  }

  predicate ZeroOrBeyondMargin(symbol: Symbol, amount: real) {
    amount == 0.0 || !WithinMargin(symbol, amount)
  }

  /** What a caller can look at before a transfer: it leaves zero or more than the margin on both sides. */
  predicate LeavesNoResidue(l: Ledger, src: ReservationId, dst: ReservationId, amount: real)
    requires src in l.reservations && dst in l.reservations
  {
    var r, t := l.reservations[src], l.reservations[dst];
    && ZeroOrBeyondMargin(r.symbol, r.unreserved - amount)
    && ZeroOrBeyondMargin(t.symbol, if src == dst then t.unreserved else t.unreserved + amount)
  }

  lemma NoResidueIsExact(l: Ledger, src: ReservationId, dst: ReservationId, amount: real)
    requires src in l.reservations && dst in l.reservations
    ensures LeavesNoResidue(l, src, dst, amount) <==>
            Residue(l.reservations[src], -amount) == 0.0 && TargetResidue(l, src, dst, amount) == 0.0
    ensures LeavesNoResidue(l, src, dst, amount) ==> ExactTransfer(l, src, dst, amount)
  {
  }

  /** A transfer keeps the index right exactly when the residues cancel. */
  lemma TransferKeepsDriftIff(l: Ledger, src: ReservationId, dst: ReservationId, amount: real,
                              order: Option<ClientOrderId>)
    requires LedgerOk(l) && Transferable(l, src, dst) && TransferAmount(l, src, dst, amount, order).Ok?
    ensures (forall q :: Drift(TransferAmount(l, src, dst, amount, order).ledger, q) == Drift(l, q))
            <==> ExactTransfer(l, src, dst, amount)
  {
    var l' := TransferAmount(l, src, dst, amount, order).ledger;
    TransferDrift(l, src, dst, amount, order, RequestOf(l.reservations[src]));
    if ExactTransfer(l, src, dst, amount) {
      forall q ensures Drift(l', q) == Drift(l, q) {
        TransferDrift(l, src, dst, amount, order, q);
      }
    }
  }
}
