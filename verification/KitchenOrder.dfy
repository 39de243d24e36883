/**
  The kitchen path of a cafe order: its status moves by compare-and-set, starting to cook commits the
  order's reservation in the same transaction, and cancelling releases it.
*/
module KitchenOrder {
  import opened Fifo
  import opened InventoryLedger
  import opened LedgerInvariants
  import opened LedgerSteps
  import opened LedgerRuns
  import opened ReservationProofs
  import opened RetailOrder
  import opened OrderFrames
  import opened InventoryStore

  datatype KitchenStatus = NEW | QUEUED | COOKING | DISHED | SERVED | DROPPED | RECALLED

  /** mapKitchenStatusToOrderStatus */
  function OrderStatusOf(k: KitchenStatus): OrderStatus
  {
    match k
    case NEW => ORDER_PENDING
    case QUEUED => ORDER_PENDING
    case COOKING => IN_PROGRESS
    case DISHED => READY
    case SERVED => COMPLETED
    case DROPPED => ORDER_CANCELLED
    case RECALLED => ORDER_PENDING
  }

  datatype Ticket = Ticket(books: Books, status: OrderStatus, inKitchen: bool)

  /** updateStatus: nothing happens unless the order is in the kitchen in the expected status. */
  function UpdateStatus(t: Ticket, order: nat, to: KitchenStatus, expected: KitchenStatus): Outcome<Ticket>
  {
    if !t.inKitchen || t.status != OrderStatusOf(expected) then Ok(t)
    else
      var moved := match to
        case DROPPED => Release(t.books, Claim.OfOrder(order), Released)
        case COOKING => Commit(t.books, order, CONSUMPTION)
        case _ => Ok(t.books);
      match moved
      case Ok(b) => Ok(t.(books := b, status := OrderStatusOf(to)))
      case Rejected(e) => Rejected(e)
  }

  datatype Action =
    | Change(to: KitchenStatus, expected: KitchenStatus)
    | Pay(rows: seq<Loc>)
    | Enter
    | GiveBack(status: ReservationStatus)
    | Expire(cutoff: nat)
    | Elsewhere(books: Books)

  function AfterUpdate(t: Ticket, order: nat, to: KitchenStatus, expected: KitchenStatus): Ticket
  {
    match UpdateStatus(t, order, to, expected) case Ok(n) => n case Rejected(_) => t
  }

  /**
    Besides status updates: the payment event reserves and may come again, the order is released to the
    kitchen, its reservation is cancelled or expires, and other transactions go on.
  */
  function Act(t: Ticket, o: Order, a: Action): Ticket
  {
    match a
    case Change(to, expected) => AfterUpdate(t, o.id, to, expected)
    case Pay(rows) => t.(books := Settle(t.books, Reserve(t.books, o.id, o.reqs, rows)))
    case Enter => if t.status == ORDER_CANCELLED then t else t.(inKitchen := true)
    case GiveBack(s) => if s in {Released, Cancelled} then t.(books := Settle(t.books, Release(t.books, Claim.OfOrder(o.id), s))) else t
    case Expire(cutoff) => t.(books := Settle(t.books, Release(t.books, OlderThan(cutoff), Expired)))
    case Elsewhere(books) => if Leaves(t.books, books, o.id) then t.(books := books) else t
  }

  function ActAll(t: Ticket, o: Order, actions: seq<Action>): Ticket
  {
    if actions == [] then t else Act(ActAll(t, o, actions[..|actions| - 1]), o, actions[|actions| - 1])
  }

  // ------------------------------------------------------------------ what the order holds

  predicate NoneIn(b: Books, order: nat, s: ReservationStatus) { !HoldsReservation(b.log, order, {s}) }

  /** A kitchen order is never sold beside its reservation. */
  predicate OnlyReservations(b: Books, order: nat) { forall i :: 0 <= i < |b.log| ==> b.log[i].ref != OrderSale(order) }

  /** The order holds nothing, or exactly what it needs: all of it active or all of it used up. */
  ghost predicate Whole(b: Books, o: Order)
  {
    && OnlyReservations(b, o.id)
    && (HoldsNothing(b, o.id) || ((NoneIn(b, o.id, Active) || NoneIn(b, o.id, Committed)) && TookAll(b, o)))
  }

  ghost predicate UsedUp(b: Books, o: Order)
  {
    OnlyReservations(b, o.id) && NoneIn(b, o.id, Active) && !NoneIn(b, o.id, Committed) && TookAll(b, o)
  }

  /** The claim closes some of what the order holds and not the rest. */
  predicate Splits(b: Books, order: nat, claim: Claim)
  {
    ClaimsOf(b, claim, order) && exists i :: 0 <= i < |b.log| && HeldBy(b.log[i], order) && !Claims(claim, b.log[i])
  }

  lemma NothingTaken(b: Books, order: nat, item: nat)
    requires OnlyReservations(b, order) && HoldsNothing(b, order)
    ensures Deducted(b, order, item) == 0.0
  {
    SumByZero(b.log, TakenOf(order, item));
  }

  lemma DeductedIsHeld(b: Books, order: nat, item: nat)
    requires OnlyReservations(b, order) && NoneIn(b, order, Committed)
    ensures Deducted(b, order, item) == SumBy(b.log, HeldOf(order, item))
  {
    forall i | 0 <= i < |b.log| ensures TakenOf(order, item)(b.log[i]) == HeldOf(order, item)(b.log[i]) {
      assert b.log[i].ref != OrderSale(order) && !(b.log[i].ref == Reservation(order, Committed));
    }
    SameSums(b.log, TakenOf(order, item), HeldOf(order, item));
  }

  lemma WholeElsewhere(b: Books, n: Books, o: Order)
    requires Leaves(b, n, o.id)
    ensures Whole(b, o) ==> Whole(n, o)
    ensures UsedUp(b, o) ==> UsedUp(n, o)
  {
    forall item: nat ensures Deducted(n, o.id, item) == Deducted(b, o.id, item) { LeavesSums(b, n, o.id, item); }
    LeavesHolds(b, n, o.id);
    forall s | HoldsReservation(n.log, o.id, s) ensures HoldsReservation(b.log, o.id, s) {
      var i :| 0 <= i < |n.log| && n.log[i].ref.Reservation? && n.log[i].ref.order == o.id && n.log[i].ref.status in s;
      assert RetailOrder.OfOrder(n.log[i], o.id);
    }
    if TookAll(b, o) { assert TookAll(n, o); }
  }

  lemma PayWhole(b: Books, o: Order, rows: seq<Loc>)
    requires Merges(o.reqs, o.needs) && Whole(b, o) && Reserve(b, o.id, o.reqs, rows).Ok?
    ensures Whole(Reserve(b, o.id, o.reqs, rows).value, o)
  {
    if HoldsNothing(b, o.id) {
      var d := Reserve(b, o.id, o.reqs, rows).value;
      ReserveAllAppends(b, o.id, o.reqs, rows);
      forall i | 0 <= i < |b.log| ensures d.log[i] == b.log[i] { assert d.log[..|b.log|][i] == b.log[i]; }
      ReserveIsComplete(b, o.id, o.reqs, o.needs, rows);
      forall item: nat ensures Deducted(d, o.id, item) == SumBy(o.needs, NeededOf(item)) { DeductedIsHeld(d, o.id, item); }
    }
  }

  lemma CommitWhole(b: Books, o: Order, kind: MovementType)
    requires Whole(b, o) && Commit(b, o.id, kind).Ok?
    ensures Whole(Commit(b, o.id, kind).value, o)
    ensures UsedUp(b, o) || !HoldsNothing(b, o.id) ==> UsedUp(Commit(b, o.id, kind).value, o)
  {
    CommitWrites(b, o.id, kind, |b.log|);
    var d := Commit(b, o.id, kind).value;
    forall item: nat ensures Deducted(d, o.id, item) == Deducted(b, o.id, item) {
      SumByFinite(b.log, d.log, TakenOf(o.id, item));
    }
    if TookAll(b, o) { assert TookAll(d, o); }
    if !HoldsNothing(b, o.id) {
      var i :| 0 <= i < |b.log| && b.log[i].ref.Reservation? && b.log[i].ref.order == o.id && b.log[i].ref.status in {Active, Committed};
      assert d.log[i].ref == Reservation(o.id, Committed);
    }
  }

  lemma NothingClaimed(b: Books, o: Order, claim: Claim, s: ReservationStatus)
    requires Release(b, claim, s).Ok? && s in {Released, Cancelled, Expired} && !ClaimsOf(b, claim, o.id)
    ensures Leaves(b, Release(b, claim, s).value, o.id)
  {
    OthersLeave(b, OpRelease(claim, s), o.id);
  }

  lemma UsedUpStays(b: Books, o: Order, claim: Claim, s: ReservationStatus)
    requires Release(b, claim, s).Ok? && s in {Released, Cancelled, Expired} && UsedUp(b, o)
    ensures UsedUp(Release(b, claim, s).value, o)
  {
    assert !ClaimsOf(b, claim, o.id);
    NothingClaimed(b, o, claim, s);
    WholeElsewhere(b, Release(b, claim, s).value, o);
  }

  /** A release that claims all of what the order holds leaves it nothing. */
  lemma ReleaseWhole(b: Books, o: Order, claim: Claim, s: ReservationStatus)
    requires Release(b, claim, s).Ok? && s in {Released, Cancelled, Expired} && Whole(b, o) && !Splits(b, o.id, claim)
    ensures Whole(Release(b, claim, s).value, o)
  {
    var d := Release(b, claim, s).value;
    if !ClaimsOf(b, claim, o.id) {
      NothingClaimed(b, o, claim, s);
      WholeElsewhere(b, d, o);
    } else {
      var k :| 0 <= k < |b.log| && Claims(claim, b.log[k]) && b.log[k].ref.order == o.id;
      assert NoneIn(b, o.id, Committed) by { assert !HoldsNothing(b, o.id) && !NoneIn(b, o.id, Active); }
      AllClaimed(b, o, claim, s);
    }
  }

  lemma AllClaimed(b: Books, o: Order, claim: Claim, s: ReservationStatus)
    requires Release(b, claim, s).Ok? && s in {Released, Cancelled, Expired} && OnlyReservations(b, o.id) && NoneIn(b, o.id, Committed)
    requires forall i :: 0 <= i < |b.log| && HeldBy(b.log[i], o.id) ==> Claims(claim, b.log[i])
    ensures var d := Release(b, claim, s).value; OnlyReservations(d, o.id) && HoldsNothing(d, o.id)
  {
    var d := Release(b, claim, s).value;
    ReleaseWrites(b, claim, s, |b.log|);
    ReleaseIsRelease(b, claim, s, |b.log|);
    forall i | 0 <= i < |d.log| && d.log[i].ref.Reservation? && d.log[i].ref.order == o.id ensures d.log[i].ref.status !in {Active, Committed} {
      assert i < |b.log|;
      if b.log[i].ref == Reservation(o.id, Active) { assert HeldBy(b.log[i], o.id); }
      else { assert !(b.log[i].ref == Reservation(o.id, Committed)); }
    }
  }

  lemma {:induction false} SumByDrops<T>(s: seq<T>, t: seq<T>, f: T -> real, i: nat)
    requires |s| == |t| && i < |s| && f(t[i]) < f(s[i]) && forall k :: 0 <= k < |s| ==> f(t[k]) <= f(s[k])
    ensures SumBy(t, f) < SumBy(s, f)
  {
    var n := |s| - 1;
    if i < n { SumByDrops(s[..n], t[..n], f, i); } else { SumByAtMost(s[..n], t[..n], f); }
  }

  lemma {:induction false} SumByAtMost<T>(s: seq<T>, t: seq<T>, f: T -> real)
    requires |s| == |t| && forall k :: 0 <= k < |s| ==> f(t[k]) <= f(s[k])
    ensures SumBy(t, f) <= SumBy(s, f)
  {
    if s != [] { SumByAtMost(s[..|s| - 1], t[..|s| - 1], f); }
  }

  lemma ReleaseDeducts(b: Books, order: nat, claim: Claim, s: ReservationStatus, k: nat)
    requires Release(b, claim, s).Ok? && s in {Released, Cancelled, Expired} && LogOk(b.log)
    requires k < |b.log| && Claims(claim, b.log[k]) && b.log[k].ref.order == order
    ensures Deducted(Release(b, claim, s).value, order, b.log[k].loc.item) < Deducted(b, order, b.log[k].loc.item)
  {
    var d := Release(b, claim, s).value;
    ReleaseWrites(b, claim, s, |b.log|);
    ReleaseIsRelease(b, claim, s, |b.log|);
    var f := TakenOf(order, b.log[k].loc.item);
    var head, tail := d.log[..|b.log|], d.log[|b.log|..];
    forall j | 0 <= j < |b.log| ensures f(head[j]) <= f(b.log[j]) { assert MovementOk(b.log[j], j); }
    assert MovementOk(b.log[k], k);
    SumByDrops(b.log, head, f, k);
    SumByZero(tail, f);
    SumByConcat(head, tail, f);
    assert d.log == head + tail;
  }

  /** One that splits leaves the order part of what it needs. */
  lemma SplitIsPartial(b: Books, o: Order, claim: Claim, s: ReservationStatus)
    requires Release(b, claim, s).Ok? && s in {Released, Cancelled, Expired} && Whole(b, o) && LogOk(b.log) && Splits(b, o.id, claim)
    ensures !Whole(Release(b, claim, s).value, o)
  {
    var d := Release(b, claim, s).value;
    var k :| 0 <= k < |b.log| && Claims(claim, b.log[k]) && b.log[k].ref.order == o.id;
    var i :| 0 <= i < |b.log| && HeldBy(b.log[i], o.id) && !Claims(claim, b.log[i]);
    assert !HoldsNothing(d, o.id) by {
      ReleaseWrites(b, claim, s, |b.log|);
      assert d.log[i].ref == Reservation(o.id, Active);
    }
    assert !TookAll(d, o) by {
      assert HeldBy(b.log[k], o.id) && !HoldsNothing(b, o.id) && TookAll(b, o);
      ReleaseDeducts(b, o.id, claim, s, k);
    }
  }

  /**
    An expiry keeps the order's reservation whole if and only if it does not split it; what was used up
    is never split.
  */
  lemma ExpiryIsWholeIff(b: Books, o: Order, cutoff: nat)
    requires Release(b, OlderThan(cutoff), Expired).Ok? && Whole(b, o) && LogOk(b.log)
    ensures Whole(Release(b, OlderThan(cutoff), Expired).value, o) <==> !Splits(b, o.id, OlderThan(cutoff))
    ensures NoneIn(b, o.id, Active) ==> !Splits(b, o.id, OlderThan(cutoff))
  {
    if Splits(b, o.id, OlderThan(cutoff)) { SplitIsPartial(b, o, OlderThan(cutoff), Expired); }
    else { ReleaseWhole(b, o, OlderThan(cutoff), Expired); }
  }

  // ------------------------------------------------------------------ whole runs

  predicate SplitIn(t: Ticket, o: Order, actions: seq<Action>)
  {
    actions != [] &&
    var front, last := actions[..|actions| - 1], actions[|actions| - 1];
    SplitIn(t, o, front) || (last.Expire? && Splits(ActAll(t, o, front).books, o.id, OlderThan(last.cutoff)))
  }

  lemma ActWhole(t: Ticket, o: Order, a: Action)
    requires Merges(o.reqs, o.needs) && Whole(t.books, o)
    requires a.Expire? ==> !Splits(t.books, o.id, OlderThan(a.cutoff))
    ensures Whole(Act(t, o, a).books, o)
  {
    match a
    case Change(to, expected) => ChangeWhole(t, o, to, expected);
    case Pay(rows) => if Reserve(t.books, o.id, o.reqs, rows).Ok? { PayWhole(t.books, o, rows); }
    case GiveBack(s) =>
      if s in {Released, Cancelled} && Release(t.books, Claim.OfOrder(o.id), s).Ok? { ReleaseWhole(t.books, o, Claim.OfOrder(o.id), s); }
    case Expire(c) => if Release(t.books, OlderThan(c), Expired).Ok? { ReleaseWhole(t.books, o, OlderThan(c), Expired); }
    case Elsewhere(n) => if Leaves(t.books, n, o.id) { WholeElsewhere(t.books, n, o); }
    case Enter =>
  }

  lemma ChangeWhole(t: Ticket, o: Order, to: KitchenStatus, expected: KitchenStatus)
    requires Whole(t.books, o)
    ensures Whole(AfterUpdate(t, o.id, to, expected).books, o)
  {
    if UpdateStatus(t, o.id, to, expected).Ok? && AfterUpdate(t, o.id, to, expected) != t {
      if to == DROPPED { ReleaseWhole(t.books, o, Claim.OfOrder(o.id), Released); }
      if to == COOKING { CommitWhole(t.books, o, CONSUMPTION); }
    }
  }

  /**
    Whatever happens, in whatever order and from however many screens: the order's reservation is used
    whole, given back whole, or held whole, as long as no expiry splits it.
  */
  lemma {:induction false} KitchenTakesAllOrNothing(t: Ticket, o: Order, actions: seq<Action>)
    requires Merges(o.reqs, o.needs) && Whole(t.books, o) && !SplitIn(t, o, actions)
    ensures var b := ActAll(t, o, actions).books;
            Whole(b, o) && (TookAll(b, o) || (HoldsNothing(b, o.id) && forall item: nat :: Deducted(b, o.id, item) == 0.0))
  {
    if actions != [] {
      KitchenTakesAllOrNothing(t, o, actions[..|actions| - 1]);
      ActWhole(ActAll(t, o, actions[..|actions| - 1]), o, actions[|actions| - 1]);
    }
    var b := ActAll(t, o, actions).books;
    if HoldsNothing(b, o.id) { forall item: nat ensures Deducted(b, o.id, item) == 0.0 { NothingTaken(b, o.id, item); } }
  }

  lemma ActUsedUp(t: Ticket, o: Order, a: Action)
    requires UsedUp(t.books, o)
    ensures UsedUp(Act(t, o, a).books, o)
  {
    CommittedIsHeld(t.books, o.id);
    match a
    case Change(to, expected) =>
      if UpdateStatus(t, o.id, to, expected).Ok? && AfterUpdate(t, o.id, to, expected) != t {
        if to == DROPPED { UsedUpStays(t.books, o, Claim.OfOrder(o.id), Released); }
        if to == COOKING { CommitWhole(t.books, o, CONSUMPTION); }
      }
    case Pay(rows) =>
    case GiveBack(s) =>
      if s in {Released, Cancelled} && Release(t.books, Claim.OfOrder(o.id), s).Ok? { UsedUpStays(t.books, o, Claim.OfOrder(o.id), s); }
    case Expire(c) => if Release(t.books, OlderThan(c), Expired).Ok? { UsedUpStays(t.books, o, OlderThan(c), Expired); }
    case Elsewhere(n) => if Leaves(t.books, n, o.id) { WholeElsewhere(t.books, n, o); }
    case Enter =>
  }

  /**
    What was committed when cooking began is never given back and never taken again: not by a
    cancellation, an expiry or a payment event delivered once more.
  */
  lemma {:induction false} CookedStaysUsed(t: Ticket, o: Order, actions: seq<Action>)
    requires UsedUp(t.books, o)
    ensures UsedUp(ActAll(t, o, actions).books, o)
  {
    if actions != [] {
      CookedStaysUsed(t, o, actions[..|actions| - 1]);
      ActUsedUp(ActAll(t, o, actions[..|actions| - 1]), o, actions[|actions| - 1]);
    }
  }

  /** Reserving does not look at the status: a payment event that comes after a cancellation takes the stock again. */
  lemma PaidAfterCancellation(t: Ticket, o: Order, rows: seq<Loc>)
    requires Merges(o.reqs, o.needs) && o.reqs != [] && Whole(t.books, o) && HoldsNothing(t.books, o.id) && t.status == ORDER_CANCELLED
    ensures var n := Act(t, o, Pay(rows));
            n.status == ORDER_CANCELLED && (if AllEnough(t.books, o.reqs, rows) then !HoldsNothing(n.books, o.id) && TookAll(n.books, o) else n == t)
  {
    ReserveIsComplete(t.books, o.id, o.reqs, o.needs, rows);
    if AllEnough(t.books, o.reqs, rows) {
      PayWhole(t.books, o, rows);
      var n := Act(t, o, Pay(rows));
      if HoldsNothing(n.books, o.id) {
        NothingTaken(n.books, o.id, o.reqs[0].item);
        NothingHeld(n.books.log, o.id, o.reqs[0].item);
        RequirementExact(o.reqs, 0);
        assert false;
      }
    }
  }

  // ------------------------------------------------------------------ both happen

  function PairOrder(): Order { Order(1, [Need(Some(0), 2.0)], [Requirement(0, 2.0)], []) }

  /** A unit of the item in each of two warehouses, and a request for both. */
  function TwoUnits(): Books
  {
    var stock := map[Loc(0, 0) := 1.0, Loc(0, 1) := 1.0];
    Books(stock, {}, stock, [], [], [])
  }

  function Held(id: nat, warehouse: nat, status: ReservationStatus): Movement
  {
    Movement(id, Loc(0, warehouse), STOCK_OUT, 1.0, Some(1.0), Some(0.0), Reservation(1, status), None, [])
  }

  function BothHeld(): Books
  {
    Books(TwoUnits().opening, {}, map[Loc(0, 0) := 0.0, Loc(0, 1) := 0.0], [], [Held(0, 0, Active), Held(1, 1, Active)], [])
  }

  lemma PairIsReserved()
    ensures Reserve(TwoUnits(), 1, PairOrder().reqs, [Loc(0, 0), Loc(0, 1)]) == Ok(BothHeld())
  {
    var b, r, rows := TwoUnits(), Requirement(0, 2.0), [Loc(0, 0), Loc(0, 1)];
    assert rows[..1] == [Loc(0, 0)] && rows[..1][..0] == [];
    assert ReserveRows(b, 1, r, []) == Reserving(b, 2.0);
    var one := ReserveRows(b, 1, r, rows[..1]);
    assert one == Reserving(ReserveAt(b, 1, Loc(0, 0), 1.0), 1.0);
    assert ReserveRows(b, 1, r, rows) == Reserving(ReserveAt(one.books, 1, Loc(0, 1), 1.0), 0.0);
    assert PairOrder().reqs[..0] == [];
    assert ReserveAt(one.books, 1, Loc(0, 1), 1.0) == BothHeld();
  }

  lemma TwoTaken(m: Movement, n: Movement, more: seq<Movement>, q: real)
    requires forall i :: 0 <= i < |more| ==> TakenOf(1, 0)(more[i]) == 0.0
    requires TakenOf(1, 0)(m) + TakenOf(1, 0)(n) == q
    ensures SumBy([m, n] + more, TakenOf(1, 0)) == q
  {
    SumByConcat([m, n], more, TakenOf(1, 0));
    SumByZero(more, TakenOf(1, 0));
    SumBySnoc([], m, TakenOf(1, 0));
    SumBySnoc([m], n, TakenOf(1, 0));
    assert [] + [m] == [m] && [m] + [n] == [m, n];
  }

  lemma HalfExpires() returns (r: Movement)
    ensures var o := Release(BothHeld(), OlderThan(1), Expired);
            o.Ok? && o.value.log == [Held(0, 0, Expired), Held(1, 1, Active)] + [r] && r.ref.ReservationRelease?
  {
    var b := BothHeld();
    ReleaseIsReturn(b, 0, Expired);
    var d := ReleaseOne(b, 0, Expired).value;
    assert ReleaseUpTo(b, OlderThan(1), Expired, 0) == Ok(b);
    assert ReleaseUpTo(b, OlderThan(1), Expired, 1) == Ok(d);
    assert d.log[1] == Held(1, 1, Active);
    assert ReleaseUpTo(b, OlderThan(1), Expired, 2) == Ok(d);
    r := d.log[2];
  }

  /** An expiry between the two movements of a reservation leaves the order one of the two units it needs. */
  lemma ExpirySplits(t: Ticket)
    requires t.books == TwoUnits()
    ensures var z := Act(Act(t, PairOrder(), Pay([Loc(0, 0), Loc(0, 1)])), PairOrder(), Expire(1));
            !HoldsNothing(z.books, 1) && Deducted(z.books, 1, 0) == 1.0
  {
    PairIsReserved();
    var r := HalfExpires();
    var d := Release(BothHeld(), OlderThan(1), Expired).value;
    TwoTaken(Held(0, 0, Expired), Held(1, 1, Active), [r], 1.0);
    assert d.log[1] == Held(1, 1, Active);
  }

  /** Paid, cancelled in the kitchen and paid again: the cancelled order holds everything it needed. */
  lemma CancelledHoldsStock(t: Ticket)
    requires t.books == TwoUnits() && t.status == ORDER_PENDING && t.inKitchen
    ensures var rows := [Loc(0, 0), Loc(0, 1)];
            var z := Act(Act(Act(t, PairOrder(), Pay(rows)), PairOrder(), Change(DROPPED, QUEUED)), PairOrder(), Pay(rows));
            z.status == ORDER_CANCELLED && !HoldsNothing(z.books, 1) && TookAll(z.books, PairOrder())
  {
    var o, rows := PairOrder(), [Loc(0, 0), Loc(0, 1)];
    PairMerges();
    PairIsReserved();
    var held := Act(t, o, Pay(rows));
    assert held.books == BothHeld();
    assert Whole(t.books, o);
    PayWhole(t.books, o, rows);
    PairIsReleased();
    var dropped := Act(held, o, Change(DROPPED, QUEUED));
    ReleaseWhole(held.books, o, Claim.OfOrder(1), Released);
    PairIsThere(dropped.books);
    PaidAfterCancellation(dropped, o, rows);
  }

  lemma PairMerges()
    ensures Merges(PairOrder().reqs, PairOrder().needs)
  {
    var o := PairOrder();
    forall item: nat ensures SumBy(o.reqs, RequiredOf(item)) == SumBy(o.needs, NeededOf(item)) {
      SumBySnoc([], o.reqs[0], RequiredOf(item));
      SumBySnoc([], o.needs[0], NeededOf(item));
      assert [] + [o.reqs[0]] == o.reqs && [] + [o.needs[0]] == o.needs;
    }
  }

  lemma PairIsReleased()
    ensures var o := Release(BothHeld(), Claim.OfOrder(1), Released);
            o.Ok? && HoldsNothing(o.value, 1) && OnHand(o.value, Loc(0, 0)) == 1.0 && OnHand(o.value, Loc(0, 1)) == 1.0
  {
    var b, claim := BothHeld(), Claim.OfOrder(1);
    ReleaseIsReturn(b, 0, Released);
    var c := ReleaseOne(b, 0, Released).value;
    assert ReleaseUpTo(b, claim, Released, 0) == Ok(b);
    assert ReleaseUpTo(b, claim, Released, 1) == Ok(c);
    assert c.log[1] == Held(1, 1, Active);
    ReleaseIsReturn(c, 1, Released);
    var d := ReleaseOne(c, 1, Released).value;
    assert ReleaseUpTo(b, claim, Released, 2) == Ok(d);
    assert d.log == [Held(0, 0, Released), Held(1, 1, Released), d.log[2], d.log[3]];
  }

  lemma PairIsThere(b: Books)
    requires OnHand(b, Loc(0, 0)) == 1.0 && OnHand(b, Loc(0, 1)) == 1.0
    ensures AllEnough(b, PairOrder().reqs, [Loc(0, 0), Loc(0, 1)])
  {
    var rows := [Loc(0, 0), Loc(0, 1)];
    assert rows[..1] == [Loc(0, 0)] && rows[..1][..0] == [];
    assert SumBy(rows, Available(b, 0)) == 2.0;
  }

  // ------------------------------------------------------------------ the repository

  class KitchenRepository {
    const store: Store
    var status: OrderStatus
    var inKitchen: bool

    constructor (store: Store, status: OrderStatus, inKitchen: bool)
      ensures this.store == store && this.status == status && this.inKitchen == inKitchen
    {
      this.store, this.status, this.inKitchen := store, status, inKitchen;
    }

    /** Sets the status first; if the reservation cannot be committed the whole transaction is undone. */
    method SetStatus(order: nat, to: KitchenStatus, expected: KitchenStatus) returns (ok: bool)
      requires store.Valid()
      modifies this`status, store
      ensures store.Valid()
      ensures var t := Ticket(old(store.State()), old(status), inKitchen);
              Ticket(store.State(), status, inKitchen) == AfterUpdate(t, order, to, expected)
      ensures ok ==> old(status) == OrderStatusOf(expected) && status == OrderStatusOf(to)
    {
      if !inKitchen || status != OrderStatusOf(expected) { return false; }
      var before := status;
      status := OrderStatusOf(to);
      ok := true;
      if to == DROPPED {
        var s := store.Transact(OpRelease(Claim.OfOrder(order), Released));
        ok := s == Done;
      } else if to == COOKING {
        var s := store.Transact(OpCommit(order, CONSUMPTION));
        ok := s == Done;
      }
      if !ok { status := before; }
    }
  }
}
