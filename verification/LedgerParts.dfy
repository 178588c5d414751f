/** What is approved and what is not: the two together are what is still reserved. */
module LedgerParts {
  import opened Domain
  import opened Sums
  import opened Symbols
  import opened ReservationLedger
  import opened LedgerIndex

  function LiveAmount(): ApprovedPart -> real {
    (part: ApprovedPart) => if part.isCanceled then 0.0 else part.unreserved
  }

  /** By how much the not approved amount and the parts that are not canceled exceed what is reserved. */
  ghost function Gap(r: Reservation): real {
    r.notApproved + Total(r.parts, LiveAmount()) - r.unreserved
  }

  ghost predicate Balanced(l: Ledger) {
    forall id :: id in l.reservations ==> Gap(l.reservations[id]) == 0.0
  }

  predicate NamesCanceled(r: Reservation, order: Option<ClientOrderId>) {
    order.Some? && order.value in r.parts && r.parts[order.value].isCanceled
  }

  // ---- reservation by reservation ----

  lemma NoPartsGap(r: Reservation)
    requires r.parts == map[]
    ensures Gap(r) == r.notApproved - r.unreserved
  {
  }

  lemma LowerGap(r: Reservation, order: Option<ClientOrderId>, amount: real)
    ensures var (lowered, goOn) := UnreserveNotApprovedPart(r, order, amount);
            && (goOn ==> Gap(lowered) == Gap(r) - if NamesCanceled(r, order) then 0.0 else amount)
            && (!goOn ==> Gap(lowered) == Gap(r) - if order.Some? then 0.0 else amount)
  {
    if order.Some? && order.value in r.parts {
      var part := r.parts[order.value];
      TotalPut(r.parts, LiveAmount(), order.value, part.(unreserved := part.unreserved - amount));
    }
  }

  /** A reservation that survives an unreserve keeps its gap unless a canceled part was named. */
  lemma UnreserveGap(r: Reservation, amount: real, order: Option<ClientOrderId>)
    requires UnreserveRounded(r, amount, order).Changed? && UnreserveRounded(r, amount, order).change.after.Some?
    ensures Gap(UnreserveRounded(r, amount, order).change.after.value) ==
            Gap(r) + if NamesCanceled(r, order) then amount else 0.0
  {
    LowerGap(r, order, amount);
  }

  lemma ApproveGap(r: Reservation, order: ClientOrderId, amount: real)
    requires order !in r.parts
    ensures Gap(ApproveOn(r, order, amount).0) == Gap(r) - if ApproveOn(r, order, amount).1 then 0.0 else amount
  {
    TotalPut(r.parts, LiveAmount(), order, ApprovedPart(amount, false, amount));
  }

  lemma CancelGap(r: Reservation, order: ClientOrderId)
    requires order in r.parts && !r.parts[order].isCanceled
    ensures Gap(CancelOn(r, order)) == Gap(r)
  {
    TotalPut(r.parts, LiveAmount(), order, r.parts[order].(isCanceled := true));
  }

  /** What a transfer drops with a part that is left within the margin, or moves without a live part. */
  function PartResidue(r: Reservation, diff: real, order: Option<ClientOrderId>): real {
    if order.None? || order.value !in r.parts then 0.0
    else if r.parts[order.value].isCanceled then diff
    else
      var left := r.parts[order.value].unreserved + diff;
      if WithinMargin(r.symbol, left) then left else 0.0
  }

  lemma MoveGap(r: Reservation, diff: real, order: Option<ClientOrderId>, isSrc: bool)
    requires MoveParts(r, order, diff, isSrc).Some?
    ensures Gap(MoveParts(r, order, diff, isSrc).value) == Gap(r) + diff - PartResidue(r, diff, order)
    ensures MoveParts(r, order, diff, isSrc).value.unreserved == r.unreserved
  {
    if order.Some? {
      var id := order.value;
      if id in r.parts {
        var part := r.parts[id];
        TotalPut(r.parts, LiveAmount(), id, part.(unreserved := part.unreserved + diff, amount := part.amount + diff));
        TotalDrop(r.parts, LiveAmount(), id);
      } else {
        TotalPut(r.parts, LiveAmount(), id, ApprovedPart(diff, false, diff));
      }
    }
  }

  lemma TransferGap(r: Reservation, diff: real, order: Option<ClientOrderId>, isSrc: bool, cost: real)
    requires TransferSide(r, diff, order, isSrc, cost).Some?
             && TransferSide(r, diff, order, isSrc, cost).value.after.Some?
    ensures Gap(TransferSide(r, diff, order, isSrc, cost).value.after.value) == Gap(r) - PartResidue(r, diff, order)
  {
    MoveGap(r, diff, order, isSrc);
  }

  // ---- ledger by ledger ----

  lemma BalancedAt(l: Ledger, id: ReservationId)
    requires Balanced(l) && id in l.reservations
    ensures Gap(l.reservations[id]) == 0.0
  {
  }

  /** Only the changed reservation has to be looked at. */
  lemma PutBalanced(l: Ledger, id: ReservationId, r: Reservation)
    requires Balanced(l)
    ensures Balanced(Put(l, id, r)) <==> Gap(r) == 0.0
  {
    assert id in Put(l, id, r).reservations && Put(l, id, r).reservations[id] == r;
  }

  ghost predicate AfterBalanced(change: Change) {
    change.after.Some? ==> Gap(change.after.value) == 0.0
  }

  lemma ApplyBalanced(l: Ledger, id: ReservationId, r: Reservation, change: Change)
    requires Balanced(l) && ReservationOk(r)
    ensures Balanced(ApplyChange(l, id, r, change)) <==> AfterBalanced(change)
  {
    var l' := ApplyChange(l, id, r, change);
    if change.after.Some? {
      assert id in l'.reservations && l'.reservations[id] == change.after.value;
    }
  }

  lemma StoreKeepsBalanced(l: Ledger, attempt: Option<Reservation>, p: ReserveParameters)
    requires LedgerOk(l) && Balanced(l) && (attempt.Some? ==> NewFor(attempt.value, p) && ReservationOk(attempt.value))
    ensures Balanced(Store(l, attempt))
  {
    if attempt.Some? {
      var r, l1 := attempt.value, l.(nextId := l.nextId + 1);
      NoPartsGap(ReserveChange(r).after.value);
      ApplyBalanced(l1, l.nextId, r, ReserveChange(r));
    }
  }

  /** The caller can tell before the call: something is taken from a canceled part of a reservation that
      stays. */
  predicate TakesFromCanceled(l: Ledger, id: ReservationId, amount: real, order: Option<ClientOrderId>)
    requires LedgerOk(l)
  {
    id in l.reservations && StoredOk(id, l.nextId, l.reservations[id]) &&
    var r := l.reservations[id];
    && NamesCanceled(r, order) && UnreserveActs(l, r, amount)
    && RoundAmount(r.symbol, amount) != 0.0 && !UsedUp(r.(unreserved := r.unreserved - RoundAmount(r.symbol, amount)))
  }

  /** A successful unreserve keeps the parts balanced exactly when it does not take from a canceled part. */
  lemma UnreserveBalancedIff(l: Ledger, id: ReservationId, amount: real, order: Option<ClientOrderId>)
    requires LedgerOk(l) && Balanced(l) && Unreserve(l, id, amount, order).Ok?
    ensures Balanced(Unreserve(l, id, amount, order).ledger) <==> !TakesFromCanceled(l, id, amount, order)
  {
    if id in l.reservations {
      var r := l.reservations[id];
      assert StoredOk(id, l.nextId, r) && Gap(r) == 0.0;
      if UnreserveActs(l, r, amount) {
        var rounded := RoundAmount(r.symbol, amount);
        var u := UnreserveRounded(r, rounded, order);
        ApplyBalanced(l, id, r, u.change);
        SurvivesIff(r, rounded, order);
        if u.change.after.Some? {
          UnreserveGap(r, rounded, order);
        }
      }
    }
  }

  lemma SurvivesIff(r: Reservation, amount: real, order: Option<ClientOrderId>)
    requires UnreserveRounded(r, amount, order).Changed?
    ensures UnreserveRounded(r, amount, order).change.after.Some? <==> !UsedUp(r.(unreserved := r.unreserved - amount))
  {
  }

  /** What a caller can test before an approval: there is nothing to do, nothing is asked for, or what is not
      approved yet suffices up to the margin. */
  predicate MayApprove(l: Ledger, id: ReservationId, order: ClientOrderId, amount: real) {
    || id !in l.reservations || order in l.reservations[id].parts || amount == 0.0
    || l.reservations[id].notApproved - amount >= 0.0
    || WithinMargin(l.reservations[id].symbol, l.reservations[id].notApproved - amount)
  }

  /** An approval keeps the parts balanced exactly when it may be given; it fails otherwise. */
  lemma ApproveBalancedIff(l: Ledger, id: ReservationId, order: ClientOrderId, amount: real)
    requires LedgerOk(l) && Balanced(l)
    ensures Balanced(Approve(l, id, order, amount).ledger) <==> MayApprove(l, id, order, amount)
    ensures !MayApprove(l, id, order, amount) ==> Approve(l, id, order, amount).Err?
  {
    if id in l.reservations && order !in l.reservations[id].parts {
      ApproveGap(l.reservations[id], order, amount);
      PutBalanced(l, id, ApproveOn(l.reservations[id], order, amount).0);
    }
  }

  lemma CancelKeepsBalanced(l: Ledger, id: ReservationId, order: ClientOrderId)
    requires LedgerOk(l) && Balanced(l) && CancelApproved(l, id, order).Returns()
    ensures Balanced(CancelApproved(l, id, order).ledger)
  {
    if id in l.reservations && order in l.reservations[id].parts {
      CancelGap(l.reservations[id], order);
      PutBalanced(l, id, CancelOn(l.reservations[id], order));
    }
  }

  /** No side that stays drops a part within the margin or names a canceled one. */
  predicate PartsExact(r: Reservation, diff: real, order: Option<ClientOrderId>) {
    WithinMargin(r.symbol, r.unreserved + diff) || PartResidue(r, diff, order) == 0.0
  }

  lemma SideBalancedIff(r: Reservation, diff: real, order: Option<ClientOrderId>, isSrc: bool, cost: real)
    requires TransferSide(r, diff, order, isSrc, cost).Some? && Gap(r) == 0.0
    ensures AfterBalanced(TransferSide(r, diff, order, isSrc, cost).value) <==> PartsExact(r, diff, order)
  {
    if TransferSide(r, diff, order, isSrc, cost).value.after.Some? {
      TransferGap(r, diff, order, isSrc, cost);
    }
  }

  lemma TwoBalancedIff(l: Ledger, a: ReservationId, b: ReservationId, r: Reservation, t: Reservation, c: Change,
                       d: Change)
    requires Balanced(l) && a != b && ReservationOk(r) && ReservationOk(t)
    ensures Balanced(ApplyChange(ApplyChange(l, a, r, c), b, t, d)) <==> AfterBalanced(c) && AfterBalanced(d)
  {
    var l1 := ApplyChange(l, a, r, c);
    var l2 := ApplyChange(l1, b, t, d);
    ApplyBalanced(l, a, r, c);
    if AfterBalanced(c) {
      ApplyBalanced(l1, b, t, d);
    } else {
      assert a in l2.reservations && l2.reservations[a] == c.after.value;
    }
  }

  /** What a transfer to itself does to the parts, the second half on what the first one leaves. */
  function SelfPartResidue(r: Reservation, amount: real, order: Option<ClientOrderId>): real {
    var moved := MoveParts(r, order, -amount, true);
    PartResidue(r, -amount, order) + if moved.Some? then PartResidue(moved.value, amount, order) else 0.0
  }

  lemma SelfBalancedIff(r: Reservation, c: Change, t: Reservation, d: Change, amount: real,
                        order: Option<ClientOrderId>)
    requires Gap(r) == 0.0 && TransferSide(r, -amount, order, true, 0.0) == Some(c) && c.after == Some(t)
    requires TransferSide(t, amount, order, false, -c.paid) == Some(d)
    ensures AfterBalanced(d) <==> WithinMargin(r.symbol, r.unreserved) || SelfPartResidue(r, amount, order) == 0.0
  {
    TransferGap(r, -amount, order, true, 0.0);
    assert PartResidue(t, amount, order) == PartResidue(MoveParts(r, order, -amount, true).value, amount, order);
    if d.after.Some? {
      TransferGap(t, amount, order, false, -c.paid);
    }
  }

  lemma ChangesBalancedIff(m: map<ReservationId, Reservation>, src: ReservationId, dst: ReservationId, amount: real,
                           order: Option<ClientOrderId>, c: Change, d: Change, t: Reservation)
    requires src in m && dst in m && Gap(m[src]) == 0.0 && Gap(m[dst]) == 0.0
    requires TransferSide(m[src], -amount, order, true, 0.0) == Some(c)
    requires if src == dst then c.after == Some(t) else t == m[dst]
    requires TransferSide(t, amount, order, false, -c.paid) == Some(d)
    ensures (src != dst ==> AfterBalanced(c)) && AfterBalanced(d) <==> TransferPartsExact(m, src, dst, amount, order)
  {
    if src == dst {
      SelfBalancedIff(m[src], c, t, d, amount, order);
    } else {
      SideBalancedIff(m[src], -amount, order, true, 0.0);
      SideBalancedIff(t, amount, order, false, -c.paid);
    }
  }

  lemma BothBalancedIff(l: Ledger, a: ReservationId, b: ReservationId, r: Reservation, t: Reservation, c: Change,
                        d: Change)
    requires Balanced(l) && ReservationOk(r) && ReservationOk(t)
    ensures Balanced(ApplyChange(ApplyChange(l, a, r, c), b, t, d)) <==>
            (a != b ==> AfterBalanced(c)) && AfterBalanced(d)
  {
    if a == b {
      SameTwice(l, a, r, t, c, d);
      ApplyBalanced(l, a, t, d);
    } else {
      TwoBalancedIff(l, a, b, r, t, c, d);
    }
  }

  lemma SameTwice(l: Ledger, id: ReservationId, r: Reservation, t: Reservation, c: Change, d: Change)
    requires ReservationOk(r) && ReservationOk(t)
    ensures ApplyChange(ApplyChange(l, id, r, c), id, t, d).reservations == ApplyChange(l, id, t, d).reservations
  {
  }

  /** Both sides keep their parts balanced, or one that gives to itself does. */
  predicate TransferPartsExact(m: map<ReservationId, Reservation>, src: ReservationId, dst: ReservationId, amount: real,
                               order: Option<ClientOrderId>)
    requires src in m && dst in m
  {
    if src == dst then WithinMargin(m[src].symbol, m[src].unreserved) || SelfPartResidue(m[src], amount, order) == 0.0
    else PartsExact(m[src], -amount, order) && PartsExact(m[dst], amount, order)
  }

  /** A transfer keeps the parts balanced exactly when its residues allow it. */
  lemma TransferBalancedIff(l: Ledger, src: ReservationId, dst: ReservationId, amount: real,
                            order: Option<ClientOrderId>)
    requires LedgerOk(l) && Balanced(l) && TransferAmount(l, src, dst, amount, order).Ok?
    ensures src in l.reservations && dst in l.reservations
    ensures Balanced(TransferAmount(l, src, dst, amount, order).ledger) <==>
            TransferPartsExact(l.reservations, src, dst, amount, order)
  {
    var c, d, t := TransferShape(l, src, dst, amount, order);
    BalancedAt(l, src);
    BalancedAt(l, dst);
    ChangesBalancedIff(l.reservations, src, dst, amount, order, c, d, t);
    BothBalancedIff(l, src, dst, l.reservations[src], t, c, d);
  }
}
