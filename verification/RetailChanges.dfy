/**
  What the events of a retail order do: a delivery of its payment that runs to its end, a cancellation and
  an expiry, read off the order's movements and the stock rows.
*/
module RetailChanges {
  import opened Fifo
  import opened InventoryLedger
  import opened LedgerInvariants
  import opened LedgerSteps
  import opened LedgerRuns
  import opened ReservationProofs
  import opened ReservationMovements
  import opened RetailOrder
  import opened RetailCancellation

  /** Cancelling an order that is not completed always succeeds, and gives back what it actively holds. */
  lemma CancellingEffect(o: Order, w: Retail)
    requires Sound(w.books)
    ensures var n := After(o, w, Cancelling);
            if w.status == COMPLETED then n == w
            else n.status == ORDER_CANCELLED && n.runs == w.runs && ReleasesAll(w.books, n.books, Claim.OfOrder(o.id), Released)
  {
    if w.status != COMPLETED {
      var d := ReleaseWhole(w.books, Claim.OfOrder(o.id), Released);
    }
  }

  /** An expiry gives back the old active reservations and touches neither the order's status nor its deliveries. */
  lemma ExpiringEffect(o: Order, w: Retail, cutoff: nat)
    requires Sound(w.books)
    ensures var n := After(o, w, Expiring(cutoff));
            n.status == w.status && n.runs == w.runs && ReleasesAll(w.books, n.books, OlderThan(cutoff), Expired)
  {
    var d := ReleaseWhole(w.books, OlderThan(cutoff), Expired);
  }

  /** A movement of the order as a completed delivery leaves it: committed as a sale, at the cost of its own quantity. */
  predicate SoldReserved(m: Movement, order: nat)
  {
    && m.ref == Reservation(order, Committed) && m.kind == SALE && m.quantity > 0.0
    && Sum(m.allocations) == m.quantity && m.cost.Some? && m.cost.value.totalCost == Value(m.allocations, TagCost())
  }

  predicate AllSoldReserved(log: seq<Movement>, order: nat)
  {
    forall i :: 0 <= i < |log| && RetailOrder.OfOrder(log[i], order) ==> SoldReserved(log[i], order)
  }

  lemma CommittedAreSold(d: Books, e: Books, order: nat)
    requires CommitsLog(d, e, order, SALE, |d.log|)
    requires forall i :: 0 <= i < |d.log| && RetailOrder.OfOrder(d.log[i], order) ==> HeldBy(d.log[i], order)
    ensures AllSoldReserved(e.log, order)
  {
    forall i | 0 <= i < |e.log| && RetailOrder.OfOrder(e.log[i], order) ensures SoldReserved(e.log[i], order) {
      if HeldBy(d.log[i], order) { assert CommittedAs(d.log[i], e.log[i], SALE); }
    }
  }

  lemma ReservedAreHeld(b: Books, d: Books, o: Order, rows: seq<Loc>)
    requires Untouched(b, o.id) && ReservedInOrder(b, d, o.id, o.reqs, rows)
    ensures forall i :: 0 <= i < |d.log| && RetailOrder.OfOrder(d.log[i], o.id) ==> HeldBy(d.log[i], o.id)
  {
    forall i | 0 <= i < |b.log| ensures !RetailOrder.OfOrder(d.log[i], o.id) { assert d.log[..|b.log|][i] == b.log[i]; }
    forall i | |b.log| <= i < |d.log| ensures HeldBy(d.log[i], o.id) { assert HoldsOne(d.log[i], o.id, o.reqs); }
  }

  lemma SameStockInOrder(b: Books, d: Books, e: Books, r: Requirement, rows: seq<Loc>)
    requires InRowOrder(b, d, r, rows) && e.stock == d.stock
    ensures InRowOrder(b, e, r, rows)
  {
    forall l: Loc ensures OnHand(e, l) == OnHand(d, l) {}
    SameOrder(b, d, e, r, rows);
  }

  predicate Unpaid(status: OrderStatus) { status in {ORDER_PENDING, IN_PROGRESS, READY} }

  /** Every requirement came off its rows in their order. */
  predicate TakenInOrder(b: Books, e: Books, o: Order, rows: seq<Loc>) { forall i :: 0 <= i < |o.reqs| ==> InRowOrder(b, e, o.reqs[i], rows) }

  /**
    A delivery of the payment that runs to its end takes each requirement of an untouched order from the
    eligible rows in their order, and leaves all its movements committed as sales at the cost of the oldest
    units, and the order completed.
  */
  lemma DeliveryEffect(o: Order, b: Books, status: OrderStatus, rows: seq<Loc>)
    requires OrderOk(o) && Distinct(rows) && Healthy(b) && Untouched(b, o.id) && Unpaid(status)
    requires AllEnough(b, o.reqs, rows) && forall r :: r in rows ==> r.item in b.configured
    ensures var z := Completing(o, b, status, rows);
            z.status == COMPLETED && z.place == Finished && AllSoldReserved(z.books.log, o.id) && TakenInOrder(b, z.books, o, rows)
  {
    UntouchedHoldsNothing(b, o.id);
    var d := ReservedBooks(o, b, rows);
    ReserveInOrder(b, o.id, o.reqs, rows);
    ReservedAreHeld(b, d, o, rows);
    CommitUpToSucceeds(d, o.id, SALE, |d.log|);
    CommitEffect(d, o.id, SALE);
    var e := Commit(d, o.id, SALE).value;
    CommittedAreSold(d, e, o.id);
    forall i | 0 <= i < |o.reqs| ensures InRowOrder(b, e, o.reqs[i], rows) { SameStockInOrder(b, d, e, o.reqs[i], rows); }
    CommittedNow(o, d, e);
    assert Next(o, b, status, AtReserve, rows) == Outcomes(d, status, AtCommit);
    assert Next(o, d, status, AtCommit, rows) == Outcomes(e, status, AtMark);
    FulfilledAsIs(o, e, status, rows);
  }

  lemma UntouchedHoldsNothing(b: Books, order: nat)
    requires Untouched(b, order)
    ensures HoldsNothing(b, order) && OnlyReserved(b, order)
    ensures forall i :: 0 <= i < |b.log| ==> !HeldBy(b.log[i], order)
  {
    forall i | 0 <= i < |b.log| ensures !(b.log[i].ref.Reservation? && b.log[i].ref.order == order) { assert !RetailOrder.OfOrder(b.log[i], order); }
  }

  lemma FulfilledAsIs(o: Order, b: Books, status: OrderStatus, rows: seq<Loc>)
    requires OrderOk(o) && IsCommitted(b, o) && Unpaid(status)
    ensures var marked := Next(o, b, status, AtMark, rows);
            Next(o, marked.books, marked.status, marked.place, rows) == Outcomes(b, COMPLETED, Finished)
  {
    FulfilChangesNoStock(o, b);
  }
}
