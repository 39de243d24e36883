/**
  A retail order that may also be cancelled, and whose reservation may expire, while deliveries of its
  payment event go on.
*/
module RetailCancellation {
  import opened Fifo
  import opened InventoryLedger
  import opened LedgerInvariants
  import opened LedgerSteps
  import opened LedgerRuns
  import opened ReservationProofs
  import opened RetailOrder
  import opened OrderFrames
  import opened KitchenOrder

  datatype Event = Delivery(action: RetailOrder.Action) | Cancelling | Expiring(cutoff: nat)

  /** Cancelling sets the status and gives the reservation back in one transaction, unless the order completed. */
  function Cancelled(o: Order, w: Retail): Retail
  {
    if w.status == COMPLETED then w
    else
      match Release(w.books, Claim.OfOrder(o.id), Released)
      case Ok(b) => w.(books := b, status := ORDER_CANCELLED)
      case Rejected(_) => w
  }

  function After(o: Order, w: Retail, e: Event): Retail
  {
    match e
    case Delivery(a) => RetailOrder.Act(o, w, a)
    case Cancelling => Cancelled(o, w)
    case Expiring(cutoff) => w.(books := Settle(w.books, Release(w.books, OlderThan(cutoff), Expired)))
  }

  function AfterAll(o: Order, w: Retail, events: seq<Event>): Retail
  {
    if events == [] then w else After(o, AfterAll(o, w, events[..|events| - 1]), events[|events| - 1])
  }

  /** A delivery that finds this status marks the order as paid. */
  predicate Markable(status: OrderStatus) { status in {ORDER_PENDING, IN_PROGRESS, READY} }

  /**
    An expiry that claims the order's reservation does not split it, and comes when no delivery of the
    still unpaid order is between reserving and committing.
  */
  predicate Timely(o: Order, w: Retail, e: Event)
  {
    e.Expiring? && ClaimsOf(w.books, OlderThan(e.cutoff), o.id) ==>
      !Splits(w.books, o.id, OlderThan(e.cutoff)) && (Markable(w.status) ==> forall r :: r in w.runs ==> w.runs[r] != AtCommit)
  }

  predicate AllTimely(o: Order, w: Retail, events: seq<Event>)
  {
    events == [] ||
    (AllTimely(o, w, events[..|events| - 1]) && Timely(o, AfterAll(o, w, events[..|events| - 1]), events[|events| - 1]))
  }

  /** What a delivery relies on: only the unpaid order is marked, and only the paid one is fulfilled. */
  predicate Relies(b: Books, o: Order, status: OrderStatus, p: Place)
  {
    (Markable(status) ==> PlaceOk(b, o, p)) && (status == PAID && p == AtFulfil ==> IsCommitted(b, o))
  }

  ghost predicate Inv(o: Order, w: Retail)
  {
    Whole(w.books, o) && forall r :: r in w.runs ==> Relies(w.books, o, w.status, w.runs[r])
  }

  // ------------------------------------------------------------------ every event keeps it

  lemma ReservingKeeps(o: Order, w: Retail, r: nat, rows: seq<Loc>)
    requires OrderOk(o) && Inv(o, w) && r in w.runs && w.runs[r] == AtReserve
    ensures Inv(o, RetailOrder.Act(o, w, Advance(r, rows)))
  {
    var n := RetailOrder.Act(o, w, Advance(r, rows));
    if Reserve(w.books, o.id, o.reqs, rows).Ok? {
      PayWhole(w.books, o, rows);
      if HoldsNothing(w.books, o.id) && o.reqs != [] {
        ReservedHolds(o, w.books, rows);
        forall k | k in n.runs ensures Relies(n.books, o, n.status, n.runs[k]) {
          if k != r { assert Relies(w.books, o, w.status, w.runs[k]); NotYetCommitted(o, w.books); }
        }
      }
    }
  }

  lemma NotYetCommitted(o: Order, b: Books)
    requires o.reqs != [] && HoldsNothing(b, o.id)
    ensures !IsCommitted(b, o) && !IsReserved(b, o)
  {
    if IsCommitted(b, o) { CommittedIsHeld(b, o.id); }
  }

  lemma ReservedHolds(o: Order, b: Books, rows: seq<Loc>)
    requires OrderOk(o) && o.reqs != [] && Whole(b, o) && HoldsNothing(b, o.id) && Reserve(b, o.id, o.reqs, rows).Ok?
    ensures !HoldsNothing(Reserve(b, o.id, o.reqs, rows).value, o.id)
  {
    var d := Reserve(b, o.id, o.reqs, rows).value;
    ReserveIsComplete(b, o.id, o.reqs, o.needs, rows);
    if HoldsNothing(d, o.id) {
      NothingHeld(d.log, o.id, o.reqs[0].item);
      RequirementExact(o.reqs, 0);
      assert false;
    }
  }

  lemma CommittingKeeps(o: Order, w: Retail, r: nat, rows: seq<Loc>)
    requires Inv(o, w) && r in w.runs && w.runs[r] == AtCommit
    ensures Inv(o, RetailOrder.Act(o, w, Advance(r, rows)))
  {
    var n := RetailOrder.Act(o, w, Advance(r, rows));
    if Commit(w.books, o.id, SALE).Ok? {
      CommitWhole(w.books, o, SALE);
      CommitWrites(w.books, o.id, SALE, |w.books.log|);
      CommittedNow(o, w.books, n.books);
      forall k | k in n.runs ensures Relies(n.books, o, n.status, n.runs[k]) {
        assert Relies(w.books, o, w.status, w.runs[k]);
        if IsCommitted(w.books, o) && o.reqs != [] { CommittedIsHeld(w.books, o.id); }
      }
    }
  }

  lemma FulfillingKeeps(o: Order, w: Retail, r: nat, rows: seq<Loc>)
    requires OrderOk(o) && Inv(o, w) && r in w.runs && w.runs[r] == AtFulfil
    ensures Inv(o, RetailOrder.Act(o, w, Advance(r, rows)))
  {
    if w.status == PAID {
      assert Relies(w.books, o, w.status, w.runs[r]);
      FulfilChangesNoStock(o, w.books);
    }
  }

  lemma DeliveryKeeps(o: Order, w: Retail, a: RetailOrder.Action)
    requires OrderOk(o) && Inv(o, w)
    ensures Inv(o, RetailOrder.Act(o, w, a))
  {
    match a
    case Advance(r, rows) =>
      if r in w.runs {
        if w.runs[r] == AtReserve { ReservingKeeps(o, w, r, rows); }
        else if w.runs[r] == AtCommit { CommittingKeeps(o, w, r, rows); }
        else if w.runs[r] == AtFulfil { FulfillingKeeps(o, w, r, rows); }
      }
    case Elsewhere(n) => if Leaves(w.books, n, o.id) { ElsewhereKeeps(o, w, n); }
    case _ =>
  }

  lemma ElsewhereKeeps(o: Order, w: Retail, n: Books)
    requires Inv(o, w) && Leaves(w.books, n, o.id)
    ensures Inv(o, w.(books := n))
  {
    WholeElsewhere(w.books, n, o);
    LeavesHolds(w.books, n, o.id);
    forall r | r in w.runs ensures Relies(n, o, w.status, w.runs[r]) { assert Relies(w.books, o, w.status, w.runs[r]); }
  }

  lemma ExpiringKeeps(o: Order, w: Retail, e: Event)
    requires Inv(o, w) && e.Expiring? && Timely(o, w, e)
    ensures Inv(o, After(o, w, e))
  {
    var claim := OlderThan(e.cutoff);
    if Release(w.books, claim, Expired).Ok? {
      if !ClaimsOf(w.books, claim, o.id) {
        NothingClaimed(w.books, o, claim, Expired);
        ElsewhereKeeps(o, w, Release(w.books, claim, Expired).value);
      } else {
        ReleaseWhole(w.books, o, claim, Expired);
        forall r | r in w.runs ensures Relies(After(o, w, e).books, o, w.status, w.runs[r]) {
          assert Relies(w.books, o, w.status, w.runs[r]);
          assert !IsCommitted(w.books, o) by {
            var i :| 0 <= i < |w.books.log| && Claims(claim, w.books.log[i]) && w.books.log[i].ref.order == o.id;
            assert HeldBy(w.books.log[i], o.id);
          }
        }
      }
    }
  }

  lemma CancellingKeeps(o: Order, w: Retail)
    requires Inv(o, w)
    ensures Inv(o, Cancelled(o, w))
  {
    if w.status != COMPLETED && Release(w.books, Claim.OfOrder(o.id), Released).Ok? {
      ReleaseWhole(w.books, o, Claim.OfOrder(o.id), Released);
    }
  }

  lemma AfterKeeps(o: Order, w: Retail, e: Event)
    requires OrderOk(o) && Inv(o, w) && Timely(o, w, e)
    ensures Inv(o, After(o, w, e))
  {
    match e
    case Delivery(a) => DeliveryKeeps(o, w, a);
    case Cancelling => CancellingKeeps(o, w);
    case Expiring(_) => ExpiringKeeps(o, w, e);
  }

  lemma {:induction false} AfterAllKeeps(o: Order, w: Retail, events: seq<Event>)
    requires OrderOk(o) && Inv(o, w) && AllTimely(o, w, events)
    ensures Inv(o, AfterAll(o, w, events))
  {
    if events != [] {
      AfterAllKeeps(o, w, events[..|events| - 1]);
      AfterKeeps(o, AfterAll(o, w, events[..|events| - 1]), events[|events| - 1]);
    }
  }

  /** The order has taken nothing, or exactly what it needs of every item. */
  ghost predicate AllOrNothing(b: Books, o: Order)
  {
    (forall item: nat :: Deducted(b, o.id, item) == 0.0) || TookAll(b, o)
  }

  lemma WholeTakesAllOrNothing(b: Books, o: Order)
    requires Whole(b, o)
    ensures AllOrNothing(b, o)
  {
    if HoldsNothing(b, o.id) { forall item: nat ensures Deducted(b, o.id, item) == 0.0 { NothingTaken(b, o.id, item); } }
  }

  /**
    Deliveries, cancellations and expiries in any order: the order takes from stock nothing or exactly
    what it needs of each item, and exactly that while it holds a committed reservation, as long as every
    expiry is timely.
  */
  lemma DeductedOnceOrNever(o: Order, w: Retail, events: seq<Event>, item: nat)
    requires OrderOk(o) && Untouched(w.books, o.id) && w.runs == map[] && AllTimely(o, w, events)
    ensures var b := AfterAll(o, w, events).books;
            && (Deducted(b, o.id, item) == 0.0 || Deducted(b, o.id, item) == SumBy(o.needs, NeededOf(item)))
            && (HoldsReservation(b.log, o.id, {Committed}) ==> Deducted(b, o.id, item) == SumBy(o.needs, NeededOf(item)))
            && OnlyReservations(b, o.id) && AllOrNothing(b, o)
  {
    UntouchedIsWhole(o, w.books);
    AfterAllKeeps(o, w, events);
    var b := AfterAll(o, w, events).books;
    WholeTakesAllOrNothing(b, o);
    if HoldsNothing(b, o.id) { NothingTaken(b, o.id, item); }
    if HoldsReservation(b.log, o.id, {Committed}) { CommittedIsHeld(b, o.id); }
  }

  lemma UntouchedIsWhole(o: Order, b: Books)
    requires Untouched(b, o.id)
    ensures Whole(b, o)
  {
    forall i | 0 <= i < |b.log| ensures b.log[i].ref != OrderSale(o.id) && !(b.log[i].ref.Reservation? && b.log[i].ref.order == o.id) {
      assert !RetailOrder.OfOrder(b.log[i], o.id);
    }
  }

  // ------------------------------------------------------------------ what a late payment does

  lemma {:induction false} StaysCancelled(o: Order, w: Retail, events: seq<Event>)
    requires w.status == ORDER_CANCELLED
    ensures AfterAll(o, w, events).status == ORDER_CANCELLED
  {
    if events != [] { StaysCancelled(o, w, events[..|events| - 1]); }
  }

  lemma {:induction false} CommittedForGood(o: Order, w: Retail, events: seq<Event>)
    requires HoldsReservation(w.books.log, o.id, {Committed})
    ensures HoldsReservation(AfterAll(o, w, events).books.log, o.id, {Committed})
  {
    if events != [] {
      CommittedForGood(o, w, events[..|events| - 1]);
      EventKeepsCommitted(o, AfterAll(o, w, events[..|events| - 1]), events[|events| - 1]);
    }
  }

  lemma EventKeepsCommitted(o: Order, w: Retail, e: Event)
    requires HoldsReservation(w.books.log, o.id, {Committed})
    ensures HoldsReservation(After(o, w, e).books.log, o.id, {Committed})
  {
    match e
    case Delivery(a) =>
      CommittedStays(w.books, OpCommit(o.id, SALE), o.id);
      CommittedIsHeld(w.books, o.id);
      if a.Elsewhere? && Leaves(w.books, a.books, o.id) { LeavesHolds(w.books, a.books, o.id); }
    case Cancelling => CommittedStays(w.books, OpRelease(Claim.OfOrder(o.id), Released), o.id);
    case Expiring(c) => CommittedStays(w.books, OpRelease(OlderThan(c), Expired), o.id);
  }

  function LatePayment(r: nat, rows: seq<Loc>): seq<Event>
  {
    [Delivery(Deliver(r))] + [Delivery(Advance(r, rows))] + [Delivery(Advance(r, rows))]
  }

  lemma AfterOne(o: Order, w: Retail, events: seq<Event>, e: Event)
    ensures AfterAll(o, w, events + [e]) == After(o, AfterAll(o, w, events), e)
  {
    assert (events + [e])[..|events|] == events;
  }

  /**
    Neither reserving nor committing looks at the status: a payment event that comes after the
    cancellation, with stock enough, deducts all the cancelled order needs, and nothing gives it back.
  */
  lemma LatePaymentDeducts(o: Order, w: Retail, r: nat, rows: seq<Loc>, more: seq<Event>)
    requires OrderOk(o) && o.reqs != [] && Distinct(rows) && Healthy(w.books) && Inv(o, w) && HoldsNothing(w.books, o.id)
    requires w.status == ORDER_CANCELLED && r !in w.runs && AllEnough(w.books, o.reqs, rows)
    requires forall r :: r in rows ==> r.item in w.books.configured
    ensures var z := AfterAll(o, w, LatePayment(r, rows));
            && z.status == ORDER_CANCELLED && UsedUp(z.books, o)
            && AfterAll(o, z, more).status == ORDER_CANCELLED && HoldsReservation(AfterAll(o, z, more).books.log, o.id, {Committed})
  {
    ReserveIsComplete(w.books, o.id, o.reqs, o.needs, rows);
    var d := Reserve(w.books, o.id, o.reqs, rows).value;
    ApplyHealthy(w.books, OpReserve(o.id, o.reqs, rows));
    PayWhole(w.books, o, rows);
    ReservedHolds(o, w.books, rows);
    NoneHeldItems(o, w.books, rows);
    CommitUpToSucceeds(d, o.id, SALE, |d.log|);
    CommitWhole(d, o, SALE);
    var e := Commit(d, o.id, SALE).value;
    LatePaymentRuns(o, w, r, rows, d, e);
    var z := AfterAll(o, w, LatePayment(r, rows));
    StaysCancelled(o, z, more);
    CommittedForGood(o, z, more);
  }

  /** Without enough stock it changes nothing. */
  lemma LatePaymentRefused(o: Order, w: Retail, r: nat, rows: seq<Loc>)
    requires OrderOk(o) && HoldsNothing(w.books, o.id) && r !in w.runs && !AllEnough(w.books, o.reqs, rows)
    ensures AfterAll(o, w, LatePayment(r, rows)) == w.(runs := w.runs[r := Aborted])
  {
    ReserveIsComplete(w.books, o.id, o.reqs, o.needs, rows);
    var a0 := [Delivery(Deliver(r))];
    var a1 := a0 + [Delivery(Advance(r, rows))];
    AfterOne(o, w, [], Delivery(Deliver(r)));
    assert [] + a0 == a0;
    assert AfterAll(o, w, a0) == w.(runs := w.runs[r := AtReserve]);
    AfterOne(o, w, a0, Delivery(Advance(r, rows)));
    assert AfterAll(o, w, a1) == w.(runs := w.runs[r := Aborted]);
    AfterOne(o, w, a1, Delivery(Advance(r, rows)));
  }

  lemma NoneHeldItems(o: Order, b: Books, rows: seq<Loc>)
    requires HoldsNothing(b, o.id) && ReserveAll(b, o.id, o.reqs, rows).Ok? && forall r :: r in rows ==> r.item in b.configured
    ensures var d := ReserveAll(b, o.id, o.reqs, rows).value;
            forall i :: 0 <= i < |d.log| && HeldBy(d.log[i], o.id) ==> d.log[i].loc.item in d.configured
  {
    forall i | 0 <= i < |b.log| ensures !HeldBy(b.log[i], o.id) {}
    ReserveAllItems(b, o.id, o.reqs, rows);
  }

  lemma LatePaymentRuns(o: Order, w: Retail, r: nat, rows: seq<Loc>, d: Books, e: Books)
    requires r !in w.runs && Reserve(w.books, o.id, o.reqs, rows) == Ok(d) && Commit(d, o.id, SALE) == Ok(e)
    ensures AfterAll(o, w, LatePayment(r, rows)) == Retail(e, w.status, w.runs[r := AtMark])
  {
    var a0 := [Delivery(Deliver(r))];
    var a1 := a0 + [Delivery(Advance(r, rows))];
    AfterOne(o, w, [], Delivery(Deliver(r)));
    assert [] + a0 == a0;
    assert AfterAll(o, w, a0) == Retail(w.books, w.status, w.runs[r := AtReserve]);
    AfterOne(o, w, a0, Delivery(Advance(r, rows)));
    assert AfterAll(o, w, a1) == Retail(d, w.status, w.runs[r := AtCommit]);
    AfterOne(o, w, a1, Delivery(Advance(r, rows)));
  }

  // ------------------------------------------------------------------ an untimely expiry

  /** Books with units of the item at hand. */
  ghost predicate Has(b: Books, q: real)
  {
    Healthy(b) && 0 in b.configured && Loc(0, 0) in b.stock && b.stock[Loc(0, 0)] == q
  }

  predicate HeldHere(b: Books) { forall i :: 0 <= i < |b.log| && HeldBy(b.log[i], 1) ==> b.log[i].loc.item == 0 }

  lemma Reserves(b: Books, q: real) returns (d: Books)
    requires Has(b, q) && q >= 1.0 && HoldsNothing(b, 1)
    ensures Reserve(b, 1, OneUnitOrder().reqs, [Loc(0, 0)]) == Ok(d) && Has(d, q - 1.0) && HeldHere(d)
    ensures |d.log| == |b.log| + 1 && d.log[..|b.log|] == b.log && d.log[|b.log|].ref == Reservation(1, Active)
    ensures d.log[|b.log|].loc == Loc(0, 0) && d.log[|b.log|].quantity == 1.0
    ensures Deducted(d, 1, 0) == Deducted(b, 1, 0) + 1.0
  {
    var r, rows, reqs := Requirement(0, 1.0), [Loc(0, 0)], OneUnitOrder().reqs;
    assert rows[..0] == [] && reqs[..0] == [];
    assert ReserveRows(b, 1, r, []) == Reserving(b, 1.0);
    assert ReserveRows(b, 1, r, rows) == Reserving(ReserveAt(b, 1, Loc(0, 0), 1.0), 0.0);
    d := ReserveAt(b, 1, Loc(0, 0), 1.0);
    assert ReserveAll(b, 1, reqs[..0], rows) == Ok(b) && reqs[|reqs| - 1] == r;
    assert ReserveAll(b, 1, reqs, rows) == Ok(d);
    assert Apply(b, OpReserve(1, reqs, rows)) == d;
    ApplyHealthy(b, OpReserve(1, reqs, rows));
    SumBySnoc(b.log, d.log[|b.log|], TakenOf(1, 0));
    forall i | 0 <= i < |b.log| ensures !HeldBy(b.log[i], 1) {}
  }

  lemma GivesBack(b: Books, q: real, claim: Claim, status: ReservationStatus) returns (d: Books)
    requires claim in {OlderThan(2), Claim.OfOrder(1)} && status in {Released, Expired}
    requires Has(b, q) && |b.log| == 2 && !RetailOrder.OfOrder(b.log[0], 1) && !IsActive(b.log[0])
    requires b.log[1].ref == Reservation(1, Active) && b.log[1].loc == Loc(0, 0) && b.log[1].quantity == 1.0
    ensures Release(b, claim, status) == Ok(d) && Has(d, q + 1.0) && HoldsNothing(d, 1) && OnlyReservations(d, 1)
  {
    assert MovementOk(b.log[1], 1);
    ReleaseIsReturn(b, 1, status);
    d := ReleaseOne(b, 1, status).value;
    assert ReleaseUpTo(b, claim, status, 0) == Ok(b);
    assert ReleaseUpTo(b, claim, status, 1) == Ok(b);
    assert ReleaseUpTo(b, claim, status, 2) == Ok(d);
    assert Apply(b, OpRelease(claim, status)) == d;
    ApplyHealthy(b, OpRelease(claim, status));
  }

  lemma Sells(b: Books, q: real) returns (d: Books)
    requires Has(b, q) && q >= 1.0 && HoldsNothing(b, 1) && OnlyReservations(b, 1)
    ensures Sell(b, 1, SALE, OneUnitOrder().lines) == Ok(d) && Has(d, q - 1.0) && HoldsNothing(d, 1) && Deducted(d, 1, 0) == 1.0
  {
    var lines := OneUnitOrder().lines;
    DebitSucceeds(b, Loc(0, 0), 1.0, 1.0, SALE, OrderSale(1));
    assert lines[..0] == [];
    assert SellLines(b, 1, SALE, lines) == SellLine(b, 1, SALE, lines[0]);
    NoCommitted(b, 1);
    d := SellLine(b, 1, SALE, lines[0]).value;
    assert Apply(b, OpSell(1, SALE, lines)) == d;
    ApplyHealthy(b, OpSell(1, SALE, lines));
    NothingTaken(b, 1, 0);
    assert d.log == b.log + [d.log[|b.log|]];
    SumBySnoc(b.log, d.log[|b.log|], TakenOf(1, 0));
  }

  lemma NoCommitted(b: Books, order: nat)
    requires HoldsNothing(b, order)
    ensures !HoldsReservation(b.log, order, {Committed})
  {
    if HoldsReservation(b.log, order, {Committed}) { CommittedIsHeld(b, order); }
  }

  lemma Commits(b: Books, q: real) returns (d: Books)
    requires Has(b, q) && HeldHere(b)
    ensures Commit(b, 1, SALE) == Ok(d) && Deducted(d, 1, 0) == Deducted(b, 1, 0)
  {
    CommitUpToSucceeds(b, 1, SALE, |b.log|);
    d := Commit(b, 1, SALE).value;
    CommitWrites(b, 1, SALE, |b.log|);
    SumByFinite(b.log, d.log, TakenOf(1, 0));
  }

  lemma {:induction false} NothingToCommit(b: Books, order: nat, n: nat)
    requires n <= |b.log| && HoldsNothing(b, order)
    ensures CommitUpTo(b, order, SALE, n) == Ok(b)
  {
    if n != 0 { NothingToCommit(b, order, n - 1); }
  }

  function LapsingStart(): seq<Event>
  {
    [Delivery(Deliver(1))] + [Delivery(Advance(1, [Loc(0, 0)]))] + [Expiring(2)]
  }

  function LapsingEnd(): seq<Event>
  {
    [Delivery(Advance(1, []))] + [Delivery(Advance(1, []))] + [Delivery(Advance(1, []))]
  }

  /** A delivery whose reservation expires before it commits. */
  function LapsedDelivery(): seq<Event> { LapsingStart() + LapsingEnd() }

  lemma LapsingStartRuns(o: Order, b: Books, c: Books, d: Books)
    requires Reserve(b, o.id, o.reqs, [Loc(0, 0)]) == Ok(c) && Release(c, OlderThan(2), Expired) == Ok(d)
    ensures AfterAll(o, Retail(b, ORDER_PENDING, map[]), LapsingStart()) == Alone(d, ORDER_PENDING, AtCommit)
  {
    var w := Retail(b, ORDER_PENDING, map[]);
    var a0 := [Delivery(Deliver(1))];
    var a1 := a0 + [Delivery(Advance(1, [Loc(0, 0)]))];
    AfterOne(o, w, [], Delivery(Deliver(1)));
    assert [] + a0 == a0;
    assert AfterAll(o, w, a0) == Retail(b, ORDER_PENDING, map[1 := AtReserve]);
    AfterOne(o, w, a0, Delivery(Advance(1, [Loc(0, 0)])));
    assert AfterAll(o, w, a1) == Retail(c, ORDER_PENDING, map[1 := AtCommit]);
    AfterOne(o, w, a1, Expiring(2));
  }

  function Alone(b: Books, status: OrderStatus, p: Place): Retail { Retail(b, status, map[1 := p]) }

  lemma StepAlone(o: Order, b: Books, status: OrderStatus, p: Place, n: Outcomes)
    requires Next(o, b, status, p, []) == n
    ensures After(o, Alone(b, status, p), Delivery(Advance(1, []))) == Alone(n.books, n.status, n.place)
  {
    assert map[1 := p][1 := n.place] == map[1 := n.place];
  }

  lemma LapsingEndRuns(o: Order, d: Books, e: Books)
    requires HoldsNothing(d, o.id) && Sell(d, o.id, SALE, o.lines) == Ok(e)
    ensures AfterAll(o, Alone(d, ORDER_PENDING, AtCommit), LapsingEnd()) == Alone(e, COMPLETED, Finished)
  {
    var w, step := Alone(d, ORDER_PENDING, AtCommit), Delivery(Advance(1, []));
    NothingToCommit(d, o.id, |d.log|);
    AfterOne(o, w, [], step);
    AfterOne(o, w, [step], step);
    AfterOne(o, w, [step] + [step], step);
    assert [] + [step] == [step];
    StepAlone(o, d, ORDER_PENDING, AtCommit, Outcomes(d, ORDER_PENDING, AtMark));
    StepAlone(o, d, ORDER_PENDING, AtMark, Outcomes(d, PAID, AtFulfil));
    StepAlone(o, d, PAID, AtFulfil, Outcomes(e, COMPLETED, Finished));
  }

  function Purchased(): Books { Apply(Empty({0}), OpStockIn(Loc(0, 0), 2.0, Some(5.0))) }

  lemma PurchasedHas()
    ensures Has(Purchased(), 2.0) && HoldsNothing(Purchased(), 1) && |Purchased().log| == 1
    ensures Purchased().log[0].ref == NoReference && Deducted(Purchased(), 1, 0) == 0.0
  {
    assert Healthy(Purchased()) by {
      EmptyHealthy({0});
      ApplyHealthy(Empty({0}), OpStockIn(Loc(0, 0), 2.0, Some(5.0)));
    }
    PurchasedRow();
    assert Deducted(Purchased(), 1, 0) == 0.0 by { SumByZero(Purchased().log, TakenOf(1, 0)); }
  }

  lemma PurchasedRow()
    ensures var b := Purchased();
            && b.configured == {0} && b.stock == map[Loc(0, 0) := 2.0]
            && |b.log| == 1 && b.log[0].ref == NoReference
  {
  }

  /**
    It happens: an expiry between reserving and committing lets the delivery sell the unit directly, and
    the same event delivered once more reserves and commits another: two units for an order of one.
  */
  lemma UntimelyExpiryDeductsTwice()
    ensures var z := AfterAll(OneUnitOrder(), Retail(Purchased(), ORDER_PENDING, map[]), LapsedDelivery() + LatePayment(2, [Loc(0, 0)]));
            z.status == COMPLETED && Deducted(z.books, 1, 0) == 2.0 && SumBy(OneUnitOrder().needs, NeededOf(0)) == 1.0
  {
    OneUnit();
    PurchasedHas();
    DeductsTwice(Purchased());
  }

  lemma DeductsTwice(b: Books)
    requires Has(b, 2.0) && HoldsNothing(b, 1) && |b.log| == 1 && b.log[0].ref == NoReference
    ensures var z := AfterAll(OneUnitOrder(), Retail(b, ORDER_PENDING, map[]), LapsedDelivery() + LatePayment(2, [Loc(0, 0)]));
            z.status == COMPLETED && Deducted(z.books, 1, 0) == 2.0
  {
    var o, w := OneUnitOrder(), Retail(b, ORDER_PENDING, map[]);
    var c := Reserves(b, 2.0);
    assert c.log[0] == c.log[..1][0];
    var d := GivesBack(c, 1.0, OlderThan(2), Expired);
    var e := Sells(d, 2.0);
    var f := Reserves(e, 1.0);
    var g := Commits(f, 0.0);
    LapsingStartRuns(o, b, c, d);
    LapsingEndRuns(o, d, e);
    AfterConcat(o, w, LapsingStart(), LapsingEnd());
    LatePaymentRuns(o, Alone(e, COMPLETED, Finished), 2, [Loc(0, 0)], f, g);
    AfterConcat(o, w, LapsedDelivery(), LatePayment(2, [Loc(0, 0)]));
  }

  /** A delivery that has reserved when the order is cancelled. */
  function CancelledDelivery(): seq<Event>
  {
    [Delivery(Deliver(1))] + [Delivery(Advance(1, [Loc(0, 0)]))] + [Cancelling]
  }

  lemma CancelledDeliveryRuns(o: Order, b: Books, c: Books, d: Books)
    requires Reserve(b, o.id, o.reqs, [Loc(0, 0)]) == Ok(c) && Release(c, Claim.OfOrder(o.id), Released) == Ok(d)
    ensures AfterAll(o, Retail(b, ORDER_PENDING, map[]), CancelledDelivery()) == Alone(d, ORDER_CANCELLED, AtCommit)
  {
    var w := Retail(b, ORDER_PENDING, map[]);
    var a0 := [Delivery(Deliver(1))];
    var a1 := a0 + [Delivery(Advance(1, [Loc(0, 0)]))];
    AfterOne(o, w, [], Delivery(Deliver(1)));
    assert [] + a0 == a0;
    assert AfterAll(o, w, a0) == Retail(b, ORDER_PENDING, map[1 := AtReserve]);
    AfterOne(o, w, a0, Delivery(Advance(1, [Loc(0, 0)])));
    assert AfterAll(o, w, a1) == Retail(c, ORDER_PENDING, map[1 := AtCommit]);
    AfterOne(o, w, a1, Cancelling);
  }

  lemma GivenBackDeducts(b: Books, c: Books, d: Books)
    requires Has(b, 2.0) && Has(d, 2.0) && HoldsNothing(d, 1) && OnlyReservations(d, 1)
    requires Reserve(b, 1, OneUnitOrder().reqs, [Loc(0, 0)]) == Ok(c) && Release(c, Claim.OfOrder(1), Released) == Ok(d)
    ensures var z := AfterAll(OneUnitOrder(), Retail(b, ORDER_PENDING, map[]), CancelledDelivery() + LatePayment(2, [Loc(0, 0)]));
            z.status == ORDER_CANCELLED && UsedUp(z.books, OneUnitOrder())
  {
    var o := OneUnitOrder();
    OneUnit();
    CancelledDeliveryRuns(o, b, c, d);
    LatePaymentDeducts(o, Alone(d, ORDER_CANCELLED, AtCommit), 2, [Loc(0, 0)], []);
    AfterConcat(o, Retail(b, ORDER_PENDING, map[]), CancelledDelivery(), LatePayment(2, [Loc(0, 0)]));
  }

  /**
    It happens: reserved by one delivery, cancelled and given back, an order is paid by the next delivery,
    and the cancelled order has used up what it needed.
  */
  lemma CancelledOrderUsesStock()
    ensures var z := AfterAll(OneUnitOrder(), Retail(Purchased(), ORDER_PENDING, map[]), CancelledDelivery() + LatePayment(2, [Loc(0, 0)]));
            z.status == ORDER_CANCELLED && UsedUp(z.books, OneUnitOrder())
  {
    PurchasedHas();
    var b := Purchased();
    var c := Reserves(b, 2.0);
    assert c.log[0] == c.log[..1][0];
    var d := GivesBack(c, 1.0, Claim.OfOrder(1), Released);
    GivenBackDeducts(b, c, d);
  }

  lemma {:induction false} AfterConcat(o: Order, w: Retail, events: seq<Event>, more: seq<Event>)
    ensures AfterAll(o, w, events + more) == AfterAll(o, AfterAll(o, w, events), more)
  {
    if more == [] {
      assert events + more == events;
    } else {
      assert (events + more)[..|events + more| - 1] == events + more[..|more| - 1];
      AfterConcat(o, w, events, more[..|more| - 1]);
    }
  }
}
