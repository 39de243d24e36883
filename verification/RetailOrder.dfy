/**
  Payment success of a retail order: reserve, commit, mark paid, fulfil, each in a transaction of its
  own.  Deliveries of the event may overlap, crash between transactions and be repeated; meanwhile other
  orders and stock changes go on.
*/
module RetailOrder {
  import opened Fifo
  import opened InventoryLedger
  import opened LedgerInvariants
  import opened LedgerSteps
  import opened LedgerRuns
  import opened ReservationProofs
  import opened InventoryStore

  datatype OrderStatus = ORDER_PENDING | IN_PROGRESS | READY | PAID | COMPLETED | ORDER_CANCELLED

  /** What does not change: the order's needs, its merged requirements and its lines. */
  datatype Order = Order(id: nat, needs: seq<Need>, reqs: seq<Requirement>, lines: seq<SaleLine>)

  function SoldOf(item: nat): SaleLine -> real { (l: SaleLine) => if l.loc.item == item then l.quantity else 0.0 }

  /** What is reserved for an order and what is sold directly come from the same order items, of positive quantity. */
  ghost predicate OrderOk(o: Order)
  {
    && Merges(o.reqs, o.needs)
    && (forall i :: 0 <= i < |o.lines| ==> o.lines[i].quantity > 0.0)
    && (forall item: nat :: SumBy(o.lines, SoldOf(item)) == SumBy(o.needs, NeededOf(item)))
  }

  lemma SellsSomething(lines: seq<SaleLine>, i: nat)
    requires i < |lines| && forall k :: 0 <= k < |lines| ==> lines[k].quantity > 0.0
    ensures SumBy(lines, SoldOf(lines[i].loc.item)) > 0.0
  {
    SumByNonNegative(lines, SoldOf(lines[i].loc.item));
    assert SoldOf(lines[i].loc.item)(lines[i]) > 0.0;
  }

  /** Without a requirement there is no line to issue. */
  lemma NothingToSell(o: Order)
    requires OrderOk(o) && o.reqs == []
    ensures o.lines == []
  {
    if o.lines != [] { SellsSomething(o.lines, 0); }
  }

  datatype Place = AtReserve | AtCommit | AtMark | AtFulfil | Finished | Aborted

  datatype Retail = Retail(books: Books, status: OrderStatus, runs: map<nat, Place>)

  datatype Outcomes = Outcomes(books: Books, status: OrderStatus, place: Place)

  /** The next transaction of a delivery; `rows` are the eligible stock rows as it finds them. */
  function Next(o: Order, b: Books, status: OrderStatus, p: Place, rows: seq<Loc>): Outcomes
  {
    match p
    case AtReserve =>
      (match Reserve(b, o.id, o.reqs, rows)
       case Ok(d) => Outcomes(d, status, AtCommit)
       case Rejected(_) => Outcomes(b, status, Aborted))
    case AtCommit =>
      (match Commit(b, o.id, SALE)
       case Ok(d) => Outcomes(d, status, AtMark)
       case Rejected(_) => Outcomes(b, status, Aborted))
    case AtMark =>
      if status == COMPLETED then Outcomes(b, status, AtFulfil)
      else if status in {ORDER_PENDING, IN_PROGRESS, READY} then Outcomes(b, PAID, AtFulfil)
      else Outcomes(b, status, Aborted)
    case AtFulfil =>
      if status == COMPLETED then Outcomes(b, status, Finished)
      else if status != PAID then Outcomes(b, status, Aborted)
      else
        (match Sell(b, o.id, SALE, o.lines)
         case Ok(d) => Outcomes(d, COMPLETED, Finished)
         case Rejected(_) => Outcomes(b, status, Aborted))
    case _ => Outcomes(b, status, p)
  }

  datatype Action = Deliver(run: nat) | Advance(run: nat, rows: seq<Loc>) | Crash(run: nat) | Elsewhere(books: Books)

  predicate OfOrder(m: Movement, order: nat)
  {
    (m.ref.Reservation? || m.ref.ReservationRelease? || m.ref.OrderSale?) && m.ref.order == order
  }

  /** Other transactions write and change no movement of this order. */
  predicate Leaves(b: Books, n: Books, order: nat)
  {
    && |b.log| <= |n.log|
    && (forall i :: 0 <= i < |b.log| ==> if OfOrder(b.log[i], order) then n.log[i] == b.log[i] else !OfOrder(n.log[i], order))
    && (forall i :: |b.log| <= i < |n.log| ==> !OfOrder(n.log[i], order))
  }

  function Act(o: Order, w: Retail, a: Action): Retail
  {
    match a
    case Deliver(r) => if r in w.runs then w else w.(runs := w.runs[r := AtReserve])
    case Advance(r, rows) =>
      if r !in w.runs then w
      else
        var n := Next(o, w.books, w.status, w.runs[r], rows);
        Retail(n.books, n.status, w.runs[r := n.place])
    case Crash(r) => w.(runs := w.runs - {r})
    case Elsewhere(books) => if Leaves(w.books, books, o.id) then w.(books := books) else w
  }

  function ActAll(o: Order, w: Retail, actions: seq<Action>): Retail
  {
    if actions == [] then w else Act(o, ActAll(o, w, actions[..|actions| - 1]), actions[|actions| - 1])
  }

  // ------------------------------------------------------------------ what was deducted

  /** Stock the order took of an item: reserved, committed or sold directly. */
  function TakenOf(order: nat, item: nat): Movement -> real
  {
    (m: Movement) =>
      if m.loc.item == item && OfOrder(m, order) then
        (if m.ref.OrderSale? then m.quantity
         else if m.ref.Reservation? && m.ref.status in {Active, Committed} then m.quantity else 0.0)
      else 0.0
  }

  function Deducted(b: Books, order: nat, item: nat): real { SumBy(b.log, TakenOf(order, item)) }

  predicate Untouched(b: Books, order: nat) { forall i :: 0 <= i < |b.log| ==> !OfOrder(b.log[i], order) }

  /** Every movement of the order is an active or committed reservation. */
  predicate OnlyReserved(b: Books, order: nat)
  {
    forall i :: 0 <= i < |b.log| && OfOrder(b.log[i], order) ==> b.log[i].ref.Reservation? && b.log[i].ref.status in {Active, Committed}
  }

  ghost predicate TookAll(b: Books, o: Order)
  {
    forall item: nat :: Deducted(b, o.id, item) == SumBy(o.needs, NeededOf(item))
  }

  predicate IsReserved(b: Books, o: Order) { o.reqs != [] ==> !HoldsNothing(b, o.id) }

  predicate IsCommitted(b: Books, o: Order)
  {
    && (forall i :: 0 <= i < |b.log| ==> !HeldBy(b.log[i], o.id))
    && (o.reqs != [] ==> HoldsReservation(b.log, o.id, {Committed}))
  }

  predicate PlaceOk(b: Books, o: Order, p: Place)
  {
    match p
    case AtReserve => true
    case AtCommit => IsReserved(b, o)
    case AtMark => IsCommitted(b, o)
    case AtFulfil => IsCommitted(b, o)
    case Finished => IsCommitted(b, o)
    case Aborted => true
  }

  ghost predicate Once(o: Order, b: Books)
  {
    OnlyReserved(b, o.id) && (Untouched(b, o.id) || TookAll(b, o))
  }

  ghost predicate Good(o: Order, w: Retail)
  {
    Once(o, w.books) && forall r :: r in w.runs ==> PlaceOk(w.books, o, w.runs[r])
  }

  // ------------------------------------------------------------------ every step keeps it

  lemma LeavesSums(b: Books, n: Books, order: nat, item: nat)
    requires Leaves(b, n, order)
    ensures Deducted(n, order, item) == Deducted(b, order, item)
  {
    var head, tail := n.log[..|b.log|], n.log[|b.log|..];
    assert n.log == head + tail;
    SumByConcat(head, tail, TakenOf(order, item));
    SumByZero(tail, TakenOf(order, item));
    SumByFinite(b.log, head, TakenOf(order, item));
  }

  lemma LeavesHolds(b: Books, n: Books, order: nat)
    requires Leaves(b, n, order)
    ensures forall s :: HoldsReservation(b.log, order, s) ==> HoldsReservation(n.log, order, s)
    ensures (forall i :: 0 <= i < |b.log| ==> !HeldBy(b.log[i], order)) ==> (forall i :: 0 <= i < |n.log| ==> !HeldBy(n.log[i], order))
  {
    forall s | HoldsReservation(b.log, order, s) ensures HoldsReservation(n.log, order, s) {
      var i :| 0 <= i < |b.log| && b.log[i].ref.Reservation? && b.log[i].ref.order == order && b.log[i].ref.status in s;
      assert OfOrder(b.log[i], order) && n.log[i] == b.log[i];
    }
    forall i | 0 <= i < |n.log| && (forall k :: 0 <= k < |b.log| ==> !HeldBy(b.log[k], order)) ensures !HeldBy(n.log[i], order) {
      if i < |b.log| { assert !HeldBy(b.log[i], order); }
    }
  }

  lemma ElsewhereGood(o: Order, w: Retail, n: Books)
    requires Good(o, w) && Leaves(w.books, n, o.id)
    ensures Good(o, w.(books := n))
  {
    LeavesHolds(w.books, n, o.id);
    forall item: nat ensures Deducted(n, o.id, item) == Deducted(w.books, o.id, item) { LeavesSums(w.books, n, o.id, item); }
    forall i | 0 <= i < |n.log| && OfOrder(n.log[i], o.id) ensures i < |w.books.log| && n.log[i] == w.books.log[i] {}
    if TookAll(w.books, o) { assert TookAll(n, o); }
    forall r | r in w.runs ensures PlaceOk(n, o, w.runs[r]) { assert PlaceOk(w.books, o, w.runs[r]); }
  }

  /** Reserving appends active reservations of the order and nothing else. */
  predicate Appends(b: Books, d: Books, order: nat)
  {
    && |b.log| <= |d.log| && d.log[..|b.log|] == b.log
    && forall i :: |b.log| <= i < |d.log| ==> d.log[i].ref == Reservation(order, Active)
  }

  lemma AppendsThen(b: Books, c: Books, d: Books, order: nat)
    requires Appends(b, c, order) && Appends(c, d, order)
    ensures Appends(b, d, order)
  {
    assert d.log[..|b.log|] == d.log[..|c.log|][..|b.log|];
    forall i | |b.log| <= i < |d.log| ensures d.log[i].ref == Reservation(order, Active) {
      if i < |c.log| { assert d.log[..|c.log|][i] == c.log[i]; }
    }
  }

  lemma {:induction false} ReserveRowsAppends(b: Books, order: nat, r: Requirement, rows: seq<Loc>)
    ensures Appends(b, ReserveRows(b, order, r, rows).books, order)
  {
    if rows != [] {
      var s, z := ReserveRows(b, order, r, rows[..|rows| - 1]), ReserveRows(b, order, r, rows);
      ReserveRowsAppends(b, order, r, rows[..|rows| - 1]);
      if z != s { AppendsThen(b, s.books, z.books, order); }
    }
  }

  lemma {:induction false} ReserveAllAppends(b: Books, order: nat, reqs: seq<Requirement>, rows: seq<Loc>)
    requires ReserveAll(b, order, reqs, rows).Ok?
    ensures Appends(b, ReserveAll(b, order, reqs, rows).value, order)
  {
    if reqs != [] {
      var n := |reqs| - 1;
      var c := ReserveAll(b, order, reqs[..n], rows).value;
      ReserveAllAppends(b, order, reqs[..n], rows);
      ReserveRowsAppends(c, order, reqs[n], rows);
      AppendsThen(b, c, ReserveAll(b, order, reqs, rows).value, order);
    }
  }

  lemma UntouchedOrHolds(b: Books, order: nat)
    requires OnlyReserved(b, order) && HoldsNothing(b, order)
    ensures Untouched(b, order)
  {
    forall i | 0 <= i < |b.log| ensures !OfOrder(b.log[i], order) {}
  }

  /** Reserving an untouched order deducts exactly what it needs. */
  lemma ReserveTakesAll(o: Order, b: Books, rows: seq<Loc>)
    requires OrderOk(o) && Untouched(b, o.id) && ReserveAll(b, o.id, o.reqs, rows).Ok?
    ensures var d := ReserveAll(b, o.id, o.reqs, rows).value;
            OnlyReserved(d, o.id) && TookAll(d, o) && IsReserved(d, o)
  {
    var d := ReserveAll(b, o.id, o.reqs, rows).value;
    ReserveAllAppends(b, o.id, o.reqs, rows);
    ReserveAllMeans(b, o.id, o.reqs, rows);
    forall i | 0 <= i < |b.log| ensures d.log[i] == b.log[i] { assert d.log[..|b.log|][i] == b.log[i]; }
    forall item: nat ensures Deducted(d, o.id, item) == SumBy(o.needs, NeededOf(item)) &&
                             SumBy(d.log, HeldOf(o.id, item)) == SumBy(o.reqs, RequiredOf(item)) {
      SameSums(d.log, TakenOf(o.id, item), HeldOf(o.id, item));
      SumByZero(b.log, HeldOf(o.id, item));
    }
    if o.reqs != [] && HoldsNothing(d, o.id) {
      NothingHeld(d.log, o.id, o.reqs[0].item);
      RequirementExact(o.reqs, 0);
      assert false;
    }
  }

  lemma ReserveGood(o: Order, w: Retail, r: nat, rows: seq<Loc>)
    requires OrderOk(o) && Good(o, w) && r in w.runs && w.runs[r] == AtReserve
    ensures Good(o, Act(o, w, Advance(r, rows)))
  {
    var n := Act(o, w, Advance(r, rows));
    if HoldsNothing(w.books, o.id) && n.runs[r] == AtCommit {
      UntouchedOrHolds(w.books, o.id);
      ReserveTakesAll(o, w.books, rows);
      if o.reqs != [] {
        forall k | k in n.runs && k != r ensures PlaceOk(n.books, o, n.runs[k]) {
          assert PlaceOk(w.books, o, w.runs[k]);
        }
      }
    }
  }

  /** Committing turns the order's active reservations into committed ones, in place. */
  lemma {:induction false} CommitWrites(b: Books, order: nat, kind: MovementType, n: nat)
    requires n <= |b.log| && CommitUpTo(b, order, kind, n).Ok?
    ensures var d := CommitUpTo(b, order, kind, n).value;
            && |d.log| == |b.log|
            && forall i :: 0 <= i < |b.log| ==>
                 if i < n && HeldBy(b.log[i], order) then
                   d.log[i].ref == Reservation(order, Committed) && d.log[i].loc == b.log[i].loc && d.log[i].quantity == b.log[i].quantity
                 else d.log[i] == b.log[i]
  {
    if n != 0 {
      CommitWrites(b, order, kind, n - 1);
      var c := CommitUpTo(b, order, kind, n - 1).value;
      if HeldBy(c.log[n - 1], order) { CommitOneWrites(c, n - 1, kind); }
    }
  }

  lemma CommitOneWrites(b: Books, i: nat, kind: MovementType)
    requires i < |b.log| && IsActive(b.log[i]) && CommitOne(b, i, kind).Ok?
    ensures var log := CommitOne(b, i, kind).value.log;
            && |log| == |b.log| && log == b.log[i := log[i]]
            && log[i].ref == Reservation(b.log[i].ref.order, Committed) && log[i].loc == b.log[i].loc && log[i].quantity == b.log[i].quantity
  {
  }

  lemma CommitGood(o: Order, w: Retail, r: nat, rows: seq<Loc>)
    requires Good(o, w) && r in w.runs && w.runs[r] == AtCommit
    ensures Good(o, Act(o, w, Advance(r, rows)))
  {
    var n := Act(o, w, Advance(r, rows));
    if n.runs[r] == AtMark {
      CommitWrites(w.books, o.id, SALE, |w.books.log|);
      forall item: nat ensures Deducted(n.books, o.id, item) == Deducted(w.books, o.id, item) {
        SumByFinite(w.books.log, n.books.log, TakenOf(o.id, item));
      }
      CommittedNow(o, w.books, n.books);
      if TookAll(w.books, o) { assert TookAll(n.books, o); }
      forall k | k in n.runs && k != r ensures PlaceOk(n.books, o, n.runs[k]) {
        assert PlaceOk(w.books, o, w.runs[k]);
      }
    }
  }

  lemma CommittedNow(o: Order, b: Books, n: Books)
    requires Commit(b, o.id, SALE) == Ok(n)
    ensures IsReserved(b, o) ==> IsCommitted(n, o) && IsReserved(n, o)
  {
    CommitWrites(b, o.id, SALE, |b.log|);
    if o.reqs != [] && IsReserved(b, o) {
      var i :| 0 <= i < |b.log| && b.log[i].ref.Reservation? && b.log[i].ref.order == o.id && b.log[i].ref.status in {Active, Committed};
      assert n.log[i].ref == Reservation(o.id, Committed);
    }
  }

  /** Fulfilment finds the committed reservation, or nothing to issue. */
  lemma FulfilChangesNoStock(o: Order, b: Books)
    requires OrderOk(o) && IsCommitted(b, o)
    ensures Sell(b, o.id, SALE, o.lines) == Ok(b)
  {
    if o.reqs == [] { NothingToSell(o); }
  }

  lemma ActGood(o: Order, w: Retail, a: Action)
    requires OrderOk(o) && Good(o, w)
    ensures Good(o, Act(o, w, a))
  {
    match a
    case Advance(r, rows) =>
      if r in w.runs {
        if w.runs[r] == AtReserve { ReserveGood(o, w, r, rows); }
        else if w.runs[r] == AtCommit { CommitGood(o, w, r, rows); }
        else if w.runs[r] == AtFulfil { FulfilChangesNoStock(o, w.books); }
      }
    case Elsewhere(n) => if Leaves(w.books, n, o.id) { ElsewhereGood(o, w, n); }
    case _ =>
  }

  lemma {:induction false} ActAllGood(o: Order, w: Retail, actions: seq<Action>)
    requires OrderOk(o) && Good(o, w)
    ensures Good(o, ActAll(o, w, actions))
  {
    if actions != [] {
      ActAllGood(o, w, actions[..|actions| - 1]);
      ActGood(o, ActAll(o, w, actions[..|actions| - 1]), actions[|actions| - 1]);
    }
  }

  lemma NothingDeducted(b: Books, o: Order, item: nat)
    requires Untouched(b, o.id)
    ensures Deducted(b, o.id, item) == 0.0 && SumBy(o.needs, NeededOf(item)) >= 0.0
  {
    SumByZero(b.log, TakenOf(o.id, item));
    forall i | 0 <= i < |o.needs| ensures NeededOf(item)(o.needs[i]) >= 0.0 {}
    SumByNonNegative(o.needs, NeededOf(item));
  }

  /**
    However often the payment event is delivered, whichever deliveries overlap and wherever they crash:
    the order takes from stock nothing or exactly what it needs of each item, never more; it has taken
    exactly that once some delivery has reserved and committed; and nothing is sold beside the reservation.
  */
  lemma StockIsDeductedOnce(o: Order, w: Retail, actions: seq<Action>, item: nat)
    requires OrderOk(o) && Untouched(w.books, o.id) && w.runs == map[]
    ensures var z := ActAll(o, w, actions);
            && (Deducted(z.books, o.id, item) == 0.0 || Deducted(z.books, o.id, item) == SumBy(o.needs, NeededOf(item)))
            && Deducted(z.books, o.id, item) <= SumBy(o.needs, NeededOf(item))
            && (o.reqs != [] && (exists r :: r in z.runs && z.runs[r] in {AtMark, AtFulfil, Finished}) ==>
                  Deducted(z.books, o.id, item) == SumBy(o.needs, NeededOf(item)))
            && OnlyReserved(z.books, o.id)
  {
    ActAllGood(o, w, actions);
    var z := ActAll(o, w, actions);
    NothingDeducted(w.books, o, item);
    if Untouched(z.books, o.id) {
      NothingDeducted(z.books, o, item);
      forall r | r in z.runs && o.reqs != [] ensures z.runs[r] !in {AtMark, AtFulfil, Finished} {
        assert PlaceOk(z.books, o, z.runs[r]);
      }
    }
  }

  // ------------------------------------------------------------------ an order left at PAID

  function Completing(o: Order, b: Books, status: OrderStatus, rows: seq<Loc>): Outcomes
  {
    var reserved := Next(o, b, status, AtReserve, rows);
    var committed := Next(o, reserved.books, reserved.status, reserved.place, rows);
    var marked := Next(o, committed.books, committed.status, committed.place, rows);
    Next(o, marked.books, marked.status, marked.place, rows)
  }

  /**
    A delivery that runs to its end, with stock enough or already reserved, completes the order exactly
    when it does not find it already paid (or cancelled): marking a paid order as paid is refused.
  */
  lemma DeliveryCompletesIff(o: Order, b: Books, status: OrderStatus, rows: seq<Loc>)
    requires OrderOk(o) && Distinct(rows) && Healthy(b) && OnlyReserved(b, o.id)
    requires HoldsNothing(b, o.id) ==> AllEnough(b, o.reqs, rows)
    requires forall r :: r in rows ==> r.item in b.configured
    requires forall i :: 0 <= i < |b.log| && HeldBy(b.log[i], o.id) ==> b.log[i].loc.item in b.configured
    ensures Completing(o, b, status, rows).status == COMPLETED <==> status !in {PAID, ORDER_CANCELLED}
  {
    var d := ReservedBooks(o, b, rows);
    CommitUpToSucceeds(d, o.id, SALE, |d.log|);
    var e := Commit(d, o.id, SALE).value;
    CommittedNow(o, d, e);
    assert Next(o, b, status, AtReserve, rows) == Outcomes(d, status, AtCommit);
    assert Next(o, d, status, AtCommit, rows) == Outcomes(e, status, AtMark);
    MarkAndFulfil(o, e, status, rows);
  }

  lemma MarkAndFulfil(o: Order, b: Books, status: OrderStatus, rows: seq<Loc>)
    requires OrderOk(o) && IsCommitted(b, o)
    ensures var marked := Next(o, b, status, AtMark, rows);
            Next(o, marked.books, marked.status, marked.place, rows).status == COMPLETED <==> status !in {PAID, ORDER_CANCELLED}
  {
    FulfilChangesNoStock(o, b);
  }

  lemma ReservedBooks(o: Order, b: Books, rows: seq<Loc>) returns (d: Books)
    requires OrderOk(o) && Distinct(rows) && Healthy(b) && OnlyReserved(b, o.id)
    requires HoldsNothing(b, o.id) ==> AllEnough(b, o.reqs, rows)
    requires forall r :: r in rows ==> r.item in b.configured
    requires forall i :: 0 <= i < |b.log| && HeldBy(b.log[i], o.id) ==> b.log[i].loc.item in b.configured
    ensures Reserve(b, o.id, o.reqs, rows) == Ok(d) && Sound(d) && IsReserved(d, o)
    ensures forall i :: 0 <= i < |d.log| && HeldBy(d.log[i], o.id) ==> d.log[i].loc.item in d.configured
  {
    if HoldsNothing(b, o.id) {
      ReserveAllMeans(b, o.id, o.reqs, rows);
      UntouchedOrHolds(b, o.id);
      ReserveTakesAll(o, b, rows);
      ReserveAllItems(b, o.id, o.reqs, rows);
      ApplyHealthy(b, OpReserve(o.id, o.reqs, rows));
      d := ReserveAll(b, o.id, o.reqs, rows).value;
    } else {
      d := b;
    }
  }

  lemma {:induction false} ReserveRowsItems(b: Books, order: nat, r: Requirement, rows: seq<Loc>)
    requires forall k :: k in rows ==> k.item in b.configured
    requires forall i :: 0 <= i < |b.log| && HeldBy(b.log[i], order) ==> b.log[i].loc.item in b.configured
    ensures var d := ReserveRows(b, order, r, rows).books;
            d.configured == b.configured && forall i :: 0 <= i < |d.log| && HeldBy(d.log[i], order) ==> d.log[i].loc.item in d.configured
  {
    if rows != [] {
      ReserveRowsItems(b, order, r, rows[..|rows| - 1]);
    }
  }

  lemma {:induction false} ReserveAllItems(b: Books, order: nat, reqs: seq<Requirement>, rows: seq<Loc>)
    requires ReserveAll(b, order, reqs, rows).Ok? && forall k :: k in rows ==> k.item in b.configured
    requires forall i :: 0 <= i < |b.log| && HeldBy(b.log[i], order) ==> b.log[i].loc.item in b.configured
    ensures var d := ReserveAll(b, order, reqs, rows).value;
            d.configured == b.configured && forall i :: 0 <= i < |d.log| && HeldBy(d.log[i], order) ==> d.log[i].loc.item in d.configured
  {
    if reqs != [] {
      ReserveAllItems(b, order, reqs[..|reqs| - 1], rows);
      ReserveRowsItems(ReserveAll(b, order, reqs[..|reqs| - 1], rows).value, order, reqs[|reqs| - 1], rows);
    }
  }

  predicate Stuck(w: Retail)
  {
    w.status == PAID && forall r :: r in w.runs ==> w.runs[r] != AtFulfil
  }

  /**
    A delivery that crashes after marking the order paid and before fulfilling it leaves the order at
    PAID for good: every later delivery is refused at the marking.
  */
  lemma {:induction false} PaidIsStuck(o: Order, w: Retail, actions: seq<Action>)
    requires Stuck(w)
    ensures Stuck(ActAll(o, w, actions))
  {
    if actions != [] {
      PaidIsStuck(o, w, actions[..|actions| - 1]);
    }
  }

  lemma ActOne(o: Order, w: Retail, actions: seq<Action>, a: Action)
    ensures ActAll(o, w, actions + [a]) == Act(o, ActAll(o, w, actions), a)
  {
    assert (actions + [a])[..|actions|] == actions;
  }

  lemma FulfilCompletes(o: Order, w: Retail, r: nat, rows: seq<Loc>)
    requires OrderOk(o) && Good(o, w) && w.status == PAID && r in w.runs && w.runs[r] == AtFulfil
    ensures Act(o, w, Advance(r, rows)).status == COMPLETED
  {
    assert PlaceOk(w.books, o, w.runs[r]);
    FulfilChangesNoStock(o, w.books);
  }

  ghost predicate CanComplete(o: Order, w: Retail) { exists actions :: ActAll(o, w, actions).status == COMPLETED }

  /** From PAID the order can complete if and only if some delivery is still about to fulfil it. */
  lemma PaidCompletesIff(o: Order, w: Retail)
    requires OrderOk(o) && Good(o, w) && w.status == PAID
    ensures CanComplete(o, w) <==> !Stuck(w)
  {
    if Stuck(w) {
      forall actions ensures ActAll(o, w, actions).status != COMPLETED { PaidIsStuck(o, w, actions); }
    } else {
      var r :| r in w.runs && w.runs[r] == AtFulfil;
      FulfilCompletes(o, w, r, []);
      ActOne(o, w, [], Advance(r, []));
    }
  }

  /** One delivery that reserves, commits and marks the order. */
  function MarkingDelivery(r: nat, rows: seq<Loc>): seq<Action> { [Deliver(r)] + [Advance(r, rows)] + [Advance(r, rows)] + [Advance(r, rows)] }

  function CrashedDelivery(r: nat, rows: seq<Loc>): seq<Action> { MarkingDelivery(r, rows) + [Crash(r)] }

  lemma MarkingDeliveryRuns(o: Order, w: Retail, r: nat, rows: seq<Loc>, d: Books, e: Books)
    requires w.runs == map[] && w.status in {ORDER_PENDING, IN_PROGRESS, READY}
    requires Reserve(w.books, o.id, o.reqs, rows) == Ok(d) && Commit(d, o.id, SALE) == Ok(e)
    ensures ActAll(o, w, MarkingDelivery(r, rows)) == Retail(e, PAID, map[r := AtFulfil])
  {
    var a0 := [Deliver(r)];
    var a1 := a0 + [Advance(r, rows)];
    var a2 := a1 + [Advance(r, rows)];
    ActOne(o, w, [], Deliver(r));
    assert [] + a0 == a0;
    assert ActAll(o, w, a0) == Retail(w.books, w.status, map[r := AtReserve]);
    ActOne(o, w, a0, Advance(r, rows));
    assert ActAll(o, w, a1) == Retail(d, w.status, map[r := AtCommit]);
    ActOne(o, w, a1, Advance(r, rows));
    assert ActAll(o, w, a2) == Retail(e, w.status, map[r := AtMark]);
    ActOne(o, w, a2, Advance(r, rows));
  }

  /** It happens to every open order: with stock enough, one delivery can leave it at PAID for good. */
  lemma CrashLeavesPaid(o: Order, w: Retail, r: nat, rows: seq<Loc>)
    requires OrderOk(o) && Distinct(rows) && Healthy(w.books) && OnlyReserved(w.books, o.id) && w.runs == map[]
    requires w.status in {ORDER_PENDING, IN_PROGRESS, READY}
    requires HoldsNothing(w.books, o.id) ==> AllEnough(w.books, o.reqs, rows)
    requires forall r :: r in rows ==> r.item in w.books.configured
    requires forall i :: 0 <= i < |w.books.log| && HeldBy(w.books.log[i], o.id) ==> w.books.log[i].loc.item in w.books.configured
    ensures Stuck(ActAll(o, w, CrashedDelivery(r, rows)))
    ensures forall actions :: ActAll(o, ActAll(o, w, CrashedDelivery(r, rows)), actions).status == PAID
    ensures Untouched(w.books, o.id) && o.reqs != [] ==> TookAll(ActAll(o, w, CrashedDelivery(r, rows)).books, o)
  {
    var d := ReservedBooks(o, w.books, rows);
    CommitUpToSucceeds(d, o.id, SALE, |d.log|);
    var e := Commit(d, o.id, SALE).value;
    MarkingDeliveryRuns(o, w, r, rows, d, e);
    ActOne(o, w, MarkingDelivery(r, rows), Crash(r));
    assert map[r := AtFulfil] - {r} == map[];
    assert ActAll(o, w, CrashedDelivery(r, rows)) == Retail(e, PAID, map[]);
    forall actions ensures ActAll(o, ActAll(o, w, CrashedDelivery(r, rows)), actions).status == PAID {
      PaidIsStuck(o, ActAll(o, w, CrashedDelivery(r, rows)), actions);
    }
    if Untouched(w.books, o.id) && o.reqs != [] {
      forall item: nat ensures Deducted(e, o.id, item) == SumBy(o.needs, NeededOf(item)) {
        StockIsDeductedOnce(o, w, MarkingDelivery(r, rows), item);
      }
    }
  }

  function OneUnitOrder(): Order
  {
    Order(1, [Need(Some(0), 1.0)], [Requirement(0, 1.0)], [SaleLine(Loc(0, 0), 1.0)])
  }

  lemma OneUnit()
    ensures OrderOk(OneUnitOrder()) && SumBy(OneUnitOrder().needs, NeededOf(0)) == 1.0
    ensures forall b: Books :: OnHand(b, Loc(0, 0)) >= 1.0 ==> AllEnough(b, OneUnitOrder().reqs, [Loc(0, 0)])
  {
    var o := OneUnitOrder();
    forall item: nat ensures SumBy(o.reqs, RequiredOf(item)) == SumBy(o.needs, NeededOf(item)) == if item == 0 then 1.0 else 0.0 {
      SumBySnoc([], o.reqs[0], RequiredOf(item));
      SumBySnoc([], o.needs[0], NeededOf(item));
      assert [] + [o.reqs[0]] == o.reqs && [] + [o.needs[0]] == o.needs;
    }
    forall item: nat ensures SumBy(o.lines, SoldOf(item)) == if item == 0 then 1.0 else 0.0 {
      SumBySnoc([], o.lines[0], SoldOf(item));
      assert [] + [o.lines[0]] == o.lines;
    }
    forall b: Books | OnHand(b, Loc(0, 0)) >= 1.0 ensures AllEnough(b, o.reqs, [Loc(0, 0)]) {
      SumBySnoc([], Loc(0, 0), Available(b, 0));
      assert [] + [Loc(0, 0)] == [Loc(0, 0)];
    }
  }

  /** For instance an order of one unit out of two, from the books of a first purchase. */
  lemma FreshOrderGetsStuck()
    ensures var b := Apply(Empty({0}), OpStockIn(Loc(0, 0), 2.0, Some(5.0)));
            var z := ActAll(OneUnitOrder(), Retail(b, ORDER_PENDING, map[]), CrashedDelivery(7, [Loc(0, 0)]));
            z.status == PAID && Stuck(z) && Deducted(z.books, 1, 0) == 1.0
  {
    var o, b := OneUnitOrder(), Apply(Empty({0}), OpStockIn(Loc(0, 0), 2.0, Some(5.0)));
    EmptyHealthy({0});
    ApplyHealthy(Empty({0}), OpStockIn(Loc(0, 0), 2.0, Some(5.0)));
    OneUnit();
    assert OnHand(b, Loc(0, 0)) == 2.0;
    var w := Retail(b, ORDER_PENDING, map[]);
    CrashLeavesPaid(o, w, 7, [Loc(0, 0)]);
  }

  // ------------------------------------------------------------------ one delivery as the service runs it

  class OrderOrchestrator {
    const store: Store
    var status: OrderStatus

    constructor (store: Store, status: OrderStatus)
      ensures this.store == store && this.status == status
    {
      this.store, this.status := store, status;
    }

    /** Runs one transaction of the store and rolls back if it fails. */
    method InTransaction(op: Op) returns (ok: bool)
      requires store.Valid() && WellPosed(op)
      modifies store
      ensures store.Valid() && store.State() == Apply(old(store.State()), op) && ok == Attempt(old(store.State()), op).Ok?
    {
      var s := store.Transact(op);
      ok := s == Done;
    }

    method MarkPaid() returns (ok: bool)
      modifies this`status
      ensures ok == (old(status) in {ORDER_PENDING, IN_PROGRESS, READY}) && status == if ok then PAID else old(status)
    {
      ok := status in {ORDER_PENDING, IN_PROGRESS, READY};
      if ok { status := PAID; }
    }

    method ProcessOrder(o: Order) returns (place: Place)
      requires store.Valid()
      modifies this`status, store
      ensures store.Valid()
      ensures Next(o, old(store.State()), old(status), AtFulfil, []) == Outcomes(store.State(), status, place)
    {
      if status == COMPLETED { return Finished; }
      if status != PAID { return Aborted; }
      var ok := InTransaction(OpSell(o.id, SALE, o.lines));
      if !ok { return Aborted; }
      status := COMPLETED;
      place := Finished;
    }

    method ReserveStock(o: Order, rows: seq<Loc>) returns (place: Place)
      requires store.Valid() && Distinct(rows)
      modifies store
      ensures store.Valid()
      ensures Next(o, old(store.State()), status, AtReserve, rows) == Outcomes(store.State(), status, place)
    {
      var ok := InTransaction(OpReserve(o.id, o.reqs, rows));
      place := if ok then AtCommit else Aborted;
    }

    method CommitReservation(o: Order) returns (place: Place)
      requires store.Valid()
      modifies store
      ensures store.Valid()
      ensures Next(o, old(store.State()), status, AtCommit, []) == Outcomes(store.State(), status, place)
    {
      var ok := InTransaction(OpCommit(o.id, SALE));
      place := if ok then AtMark else Aborted;
    }

    method MarkUnlessCompleted(o: Order) returns (place: Place)
      modifies this`status
      ensures Next(o, store.State(), old(status), AtMark, []) == Outcomes(store.State(), status, place)
    {
      if status == COMPLETED { return AtFulfil; }
      var ok := MarkPaid();
      place := if ok then AtFulfil else Aborted;
    }

    /** handlePaymentSuccess of a retail order; a failed step leaves the ones before it done. */
    method HandlePaymentSuccess(o: Order, rows: seq<Loc>) returns (place: Place)
      requires store.Valid() && Distinct(rows)
      modifies this`status, store
      ensures store.Valid()
      ensures Completing(o, old(store.State()), old(status), rows) == Outcomes(store.State(), status, place)
    {
      place := ReserveStock(o, rows);
      if place == Aborted { return; }
      place := CommitReservation(o);
      if place == Aborted { return; }
      place := MarkUnlessCompleted(o);
      if place == Aborted { return; }
      place := ProcessOrder(o);
    }
  }
}
