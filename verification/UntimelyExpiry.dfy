/**
  When an expiry may come: it is untimely if and only if the order can afterwards end up with something
  else deducted than nothing or what it needs.
*/
module UntimelyExpiry {
  import opened Fifo
  import opened InventoryLedger
  import opened LedgerInvariants
  import opened LedgerSteps
  import opened LedgerRuns
  import opened ReservationProofs
  import opened RetailOrder
  import opened OrderFrames
  import opened KitchenOrder
  import opened RetailCancellation

  // ------------------------------------------------------------------ what an expiry does to the invariant

  /** Active reservations can always be released. */
  lemma {:induction false} ReleaseSucceeds(b: Books, claim: Claim, status: ReservationStatus, n: nat)
    requires Sound(b) && n <= |b.log| && status in {Released, Cancelled, Expired}
    ensures ReleaseUpTo(b, claim, status, n).Ok? && Sound(ReleaseUpTo(b, claim, status, n).value)
  {
    if n != 0 {
      ReleaseSucceeds(b, claim, status, n - 1);
      var d := ReleaseUpTo(b, claim, status, n - 1).value;
      if Claims(claim, d.log[n - 1]) { ReleaseOneSound(d, n - 1, status); }
    }
  }

  function AfterExpiry(b: Books, cutoff: nat): Books { Apply(b, OpRelease(OlderThan(cutoff), Expired)) }

  lemma ExpirySucceeds(b: Books, cutoff: nat)
    requires Healthy(b)
    ensures Release(b, OlderThan(cutoff), Expired) == Ok(AfterExpiry(b, cutoff))
    ensures Healthy(AfterExpiry(b, cutoff)) && AfterExpiry(b, cutoff).configured == b.configured
  {
    ReleaseSucceeds(b, OlderThan(cutoff), Expired, |b.log|);
    ApplyHealthy(b, OpRelease(OlderThan(cutoff), Expired));
  }

  /** Only an order that needs something holds a reservation. */
  lemma HoldersNeed(b: Books, o: Order, claim: Claim)
    requires Whole(b, o) && LogOk(b.log) && Merges(o.reqs, o.needs) && ClaimsOf(b, claim, o.id)
    ensures o.reqs != []
  {
    var k :| 0 <= k < |b.log| && Claims(claim, b.log[k]) && b.log[k].ref.order == o.id;
    assert HeldBy(b.log[k], o.id) && !HoldsNothing(b, o.id);
    HeldIsDeducted(b, o.id, k);
    assert Deducted(b, o.id, b.log[k].loc.item) == SumBy(o.reqs, RequiredOf(b.log[k].loc.item));
  }

  lemma HeldIsDeducted(b: Books, order: nat, k: nat)
    requires LogOk(b.log) && OnlyReservations(b, order) && k < |b.log| && HeldBy(b.log[k], order)
    ensures Deducted(b, order, b.log[k].loc.item) > 0.0
  {
    var f := TakenOf(order, b.log[k].loc.item);
    forall i | 0 <= i < |b.log| ensures f(b.log[i]) >= 0.0 { assert MovementOk(b.log[i], i) && b.log[i].ref != OrderSale(order); }
    assert MovementOk(b.log[k], k);
    SumByNonNegative(b.log, f);
  }

  /** The expiry claims all the order holds while a delivery is about to commit it. */
  predicate Interrupts(o: Order, w: Retail, cutoff: nat)
  {
    && ClaimsOf(w.books, OlderThan(cutoff), o.id) && !Splits(w.books, o.id, OlderThan(cutoff))
    && Markable(w.status) && exists r :: r in w.runs && w.runs[r] == AtCommit
  }

  lemma InterruptedHoldsNothing(o: Order, w: Retail, cutoff: nat)
    requires Inv(o, w) && Healthy(w.books) && Interrupts(o, w, cutoff)
    ensures HoldsNothing(AfterExpiry(w.books, cutoff), o.id) && OnlyReservations(AfterExpiry(w.books, cutoff), o.id)
  {
    ExpirySucceeds(w.books, cutoff);
    var k :| 0 <= k < |w.books.log| && Claims(OlderThan(cutoff), w.books.log[k]) && w.books.log[k].ref.order == o.id;
    assert !HoldsNothing(w.books, o.id) && !NoneIn(w.books, o.id, Active);
    AllClaimed(w.books, o, OlderThan(cutoff), Expired);
  }

  /** An expiry keeps the invariant if and only if it is timely. */
  lemma ExpiryIsTimelyIff(o: Order, w: Retail, cutoff: nat)
    requires OrderOk(o) && Inv(o, w) && Healthy(w.books)
    ensures Inv(o, After(o, w, Expiring(cutoff))) <==> Timely(o, w, Expiring(cutoff))
  {
    if Timely(o, w, Expiring(cutoff)) {
      ExpiringKeeps(o, w, Expiring(cutoff));
    } else {
      ExpirySucceeds(w.books, cutoff);
      if Splits(w.books, o.id, OlderThan(cutoff)) {
        SplitIsPartial(w.books, o, OlderThan(cutoff), Expired);
      } else {
        HoldersNeed(w.books, o, OlderThan(cutoff));
        InterruptedHoldsNothing(o, w, cutoff);
        var r :| r in w.runs && w.runs[r] == AtCommit;
        assert !Relies(AfterExpiry(w.books, cutoff), o, w.status, w.runs[r]);
      }
    }
  }

  // ------------------------------------------------------------------ a split shows at once

  /** What is not claimed stays held. */
  lemma UnclaimedStays(b: Books, order: nat, cutoff: nat, i: nat)
    requires Healthy(b) && OnlyReservations(b, order) && i < |b.log| && HeldBy(b.log[i], order) && !Claims(OlderThan(cutoff), b.log[i])
    ensures var d := AfterExpiry(b, cutoff); OnlyReservations(d, order) && i < |d.log| && HeldBy(d.log[i], order)
  {
    ExpirySucceeds(b, cutoff);
    ReleaseWrites(b, OlderThan(cutoff), Expired, |b.log|);
    ReleaseIsRelease(b, OlderThan(cutoff), Expired, |b.log|);
    var d := AfterExpiry(b, cutoff);
    forall j | 0 <= j < |d.log| ensures d.log[j].ref != OrderSale(order) {
      if j < |b.log| { assert b.log[j].ref != OrderSale(order); }
    }
  }

  lemma ClaimedIsMissing(b: Books, o: Order, cutoff: nat, k: nat)
    requires Healthy(b) && Whole(b, o) && k < |b.log| && Claims(OlderThan(cutoff), b.log[k]) && b.log[k].ref.order == o.id
    ensures !TookAll(AfterExpiry(b, cutoff), o)
  {
    ExpirySucceeds(b, cutoff);
    assert HeldBy(b.log[k], o.id) && !HoldsNothing(b, o.id) && TookAll(b, o);
    ReleaseDeducts(b, o.id, OlderThan(cutoff), Expired, k);
    assert Deducted(b, o.id, b.log[k].loc.item) == SumBy(o.needs, NeededOf(b.log[k].loc.item));
  }

  lemma SplitShows(b: Books, o: Order, cutoff: nat)
    requires Healthy(b) && Whole(b, o) && Splits(b, o.id, OlderThan(cutoff))
    ensures !AllOrNothing(AfterExpiry(b, cutoff), o)
  {
    var k :| 0 <= k < |b.log| && Claims(OlderThan(cutoff), b.log[k]) && b.log[k].ref.order == o.id;
    var i :| 0 <= i < |b.log| && HeldBy(b.log[i], o.id) && !Claims(OlderThan(cutoff), b.log[i]);
    ClaimedIsMissing(b, o, cutoff, k);
    UnclaimedStays(b, o.id, cutoff, i);
    ExpirySucceeds(b, cutoff);
    HeldIsDeducted(AfterExpiry(b, cutoff), o.id, i);
  }

  // ------------------------------------------------------------------ stock is bought

  function DemandAt(loc: Loc): SaleLine -> real { (l: SaleLine) => if l.loc == loc then l.quantity else 0.0 }

  /** Each of these quantities is bought, and one unit more. */
  function Supplied(b: Books, lines: seq<SaleLine>): Books
  {
    if lines == [] then b
    else Apply(Supplied(b, lines[..|lines| - 1]), Buying(lines[|lines| - 1]))
  }

  predicate Sellable(configured: set<nat>, lines: seq<SaleLine>)
  {
    forall i :: 0 <= i < |lines| ==> lines[i].quantity > 0.0 && lines[i].loc.item in configured
  }

  function Buying(l: SaleLine): Op { OpStockIn(l.loc, l.quantity + 1.0, Some(1.0)) }

  lemma BoughtStock(b: Books, l: SaleLine)
    requires l.quantity > 0.0 && l.loc.item in b.configured
    ensures Apply(b, Buying(l)).configured == b.configured
    ensures Apply(b, Buying(l)).stock == b.stock[l.loc := OnHand(b, l.loc) + (l.quantity + 1.0)]
  {
  }

  lemma BoughtLeaves(b: Books, l: SaleLine, order: nat)
    ensures Leaves(b, Apply(b, Buying(l)), order)
  {
    OthersLeave(b, Buying(l), order);
  }

  lemma DemandNext(lines: seq<SaleLine>, loc: Loc)
    requires lines != []
    ensures SumBy(lines, DemandAt(loc)) ==
            SumBy(lines[..|lines| - 1], DemandAt(loc)) + if lines[|lines| - 1].loc == loc then lines[|lines| - 1].quantity else 0.0
  {
  }

  lemma {:induction false} SupplyIsHealthy(b: Books, lines: seq<SaleLine>)
    requires Healthy(b)
    ensures Healthy(Supplied(b, lines)) && Supplied(b, lines).configured == b.configured
  {
    if lines != [] {
      SupplyIsHealthy(b, lines[..|lines| - 1]);
      ApplyHealthy(Supplied(b, lines[..|lines| - 1]), Buying(lines[|lines| - 1]));
    }
  }

  lemma {:induction false} SupplyLeaves(b: Books, lines: seq<SaleLine>, order: nat)
    ensures Leaves(b, Supplied(b, lines), order)
  {
    if lines != [] {
      var c := Supplied(b, lines[..|lines| - 1]);
      SupplyLeaves(b, lines[..|lines| - 1], order);
      BoughtLeaves(c, lines[|lines| - 1], order);
      LeavesThen(b, c, Supplied(b, lines), order);
    }
  }

  lemma {:induction false} SupplyBrings(b: Books, lines: seq<SaleLine>, loc: Loc)
    requires Sellable(b.configured, lines) && OnHand(b, loc) >= 0.0
    ensures Supplied(b, lines).configured == b.configured && OnHand(Supplied(b, lines), loc) >= SumBy(lines, DemandAt(loc))
  {
    if lines != [] {
      SupplyBrings(b, lines[..|lines| - 1], loc);
      BoughtStock(Supplied(b, lines[..|lines| - 1]), lines[|lines| - 1]);
      DemandNext(lines, loc);
    }
  }

  // ------------------------------------------------------------------ and sold directly

  /** What selling one line changes. */
  predicate SoldLine(b: Books, d: Books, order: nat, l: SaleLine)
  {
    && d.configured == b.configured && d.stock == b.stock[l.loc := OnHand(b, l.loc) - l.quantity]
    && |d.log| == |b.log| + 1 && d.log[..|b.log|] == b.log
    && d.log[|b.log|].ref == OrderSale(order) && d.log[|b.log|].loc == l.loc && d.log[|b.log|].quantity == l.quantity
  }

  lemma SellLineTakes(b: Books, order: nat, l: SaleLine)
    requires Healthy(b) && l.loc.item in b.configured && 0.0 < l.quantity <= OnHand(b, l.loc)
    ensures SellLine(b, order, SALE, l).Ok? && SoldLine(b, SellLine(b, order, SALE, l).value, order, l)
  {
    DebitSucceeds(b, l.loc, l.quantity, l.quantity, SALE, OrderSale(order));
  }

  /** What the books are after selling some lines, for an order that holds nothing. */
  ghost predicate Sold(b: Books, d: Books, order: nat, lines: seq<SaleLine>)
  {
    && Healthy(d) && d.configured == b.configured && HoldsNothing(d, order)
    && (forall loc :: OnHand(d, loc) == OnHand(b, loc) - SumBy(lines, DemandAt(loc)))
    && (forall item: nat :: Deducted(d, order, item) == Deducted(b, order, item) + SumBy(lines, SoldOf(item)))
  }

  lemma SoldDeducts(c: Books, d: Books, order: nat, l: SaleLine)
    requires SoldLine(c, d, order, l)
    ensures forall item: nat :: Deducted(d, order, item) == Deducted(c, order, item) + SoldOf(item)(l)
  {
    var m := d.log[|c.log|];
    assert d.log == c.log + [m];
    forall item: nat ensures Deducted(d, order, item) == Deducted(c, order, item) + SoldOf(item)(l) { SumBySnoc(c.log, m, TakenOf(order, item)); }
  }

  lemma SoldMore(b: Books, c: Books, d: Books, order: nat, lines: seq<SaleLine>, l: SaleLine)
    requires Sold(b, c, order, lines) && Healthy(d) && SoldLine(c, d, order, l)
    ensures Sold(b, d, order, lines + [l])
  {
    forall loc ensures OnHand(d, loc) == OnHand(b, loc) - SumBy(lines + [l], DemandAt(loc)) { SumBySnoc(lines, l, DemandAt(loc)); }
    SoldDeducts(c, d, order, l);
    forall item: nat ensures Deducted(d, order, item) == Deducted(b, order, item) + SumBy(lines + [l], SoldOf(item)) {
      SumBySnoc(lines, l, SoldOf(item));
    }
    forall i | 0 <= i < |d.log| && d.log[i].ref.Reservation? && d.log[i].ref.order == order ensures d.log[i].ref.status !in {Active, Committed} {
      assert d.log[i] == c.log[i];
    }
  }

  lemma {:induction false} SellingAll(b: Books, order: nat, lines: seq<SaleLine>)
    requires Healthy(b) && HoldsNothing(b, order) && Sellable(b.configured, lines)
    requires forall loc :: OnHand(b, loc) >= SumBy(lines, DemandAt(loc))
    ensures SellLines(b, order, SALE, lines).Ok? && Sold(b, SellLines(b, order, SALE, lines).value, order, lines)
  {
    if lines != [] {
      var n := |lines| - 1;
      forall loc ensures OnHand(b, loc) >= SumBy(lines[..n], DemandAt(loc)) { DemandNext(lines, loc); }
      SellingAll(b, order, lines[..n]);
      StillThere(b, SellLines(b, order, SALE, lines[..n]).value, order, lines);
      SellingLast(b, SellLines(b, order, SALE, lines[..n]).value, order, lines);
    }
  }

  lemma SellingLast(b: Books, c: Books, order: nat, lines: seq<SaleLine>)
    requires lines != [] && Sold(b, c, order, lines[..|lines| - 1]) && Sellable(b.configured, lines)
    requires OnHand(c, lines[|lines| - 1].loc) >= lines[|lines| - 1].quantity
    ensures var s := SellLine(c, order, SALE, lines[|lines| - 1]); s.Ok? && Sold(b, s.value, order, lines)
  {
    var front, l := lines[..|lines| - 1], lines[|lines| - 1];
    SellLineTakes(c, order, l);
    SoldHealthy(c, order, l);
    SoldMore(b, c, SellLine(c, order, SALE, l).value, order, front, l);
    assert lines == front + [l];
  }

  lemma StillThere(b: Books, c: Books, order: nat, lines: seq<SaleLine>)
    requires lines != [] && forall loc :: OnHand(b, loc) >= SumBy(lines, DemandAt(loc))
    requires forall loc :: OnHand(c, loc) == OnHand(b, loc) - SumBy(lines[..|lines| - 1], DemandAt(loc))
    ensures OnHand(c, lines[|lines| - 1].loc) >= lines[|lines| - 1].quantity
  {
    DemandNext(lines, lines[|lines| - 1].loc);
  }

  lemma SoldHealthy(b: Books, order: nat, l: SaleLine)
    requires Healthy(b) && HoldsNothing(b, order) && SellLine(b, order, SALE, l).Ok?
    ensures Healthy(SellLine(b, order, SALE, l).value)
  {
    NoCommitted(b, order);
    assert [l][..0] == [];
    assert SellLines(b, order, SALE, []) == Ok(b);
    assert SellLines(b, order, SALE, [l]) == SellLine(b, order, SALE, l);
    ApplyHealthy(b, OpSell(order, SALE, [l]));
  }

  // ------------------------------------------------------------------ and reserved once more

  /** A place for each requirement. */
  function PlaceOf(r: Requirement): SaleLine { SaleLine(Loc(r.item, 0), r.quantity) }

  function Places(reqs: seq<Requirement>): (s: seq<SaleLine>)
    ensures |s| == |reqs| && forall i :: 0 <= i < |reqs| ==> s[i] == PlaceOf(reqs[i])
  {
    seq(|reqs|, i requires 0 <= i < |reqs| => PlaceOf(reqs[i]))
  }

  function RowsFor(reqs: seq<Requirement>): (s: seq<Loc>)
    ensures |s| == |reqs| && forall i :: 0 <= i < |reqs| ==> s[i] == Loc(reqs[i].item, 0)
  {
    seq(|reqs|, i requires 0 <= i < |reqs| => Loc(reqs[i].item, 0))
  }

  lemma PlacesSuffice(b: Books, reqs: seq<Requirement>)
    requires DistinctRequirements(reqs) && forall i :: 0 <= i < |reqs| ==> OnHand(b, Loc(reqs[i].item, 0)) >= reqs[i].quantity
    requires forall loc :: OnHand(b, loc) >= 0.0
    ensures AllEnough(b, reqs, RowsFor(reqs))
  {
    var rows := RowsFor(reqs);
    forall i | 0 <= i < |reqs| ensures Enough(b, reqs[i], rows) {
      SumByNonNegative(rows, Available(b, reqs[i].item));
      assert Available(b, reqs[i].item)(rows[i]) == OnHand(b, rows[i]);
    }
  }

  /** Reserving on top of what was sold deducts the needs once more. */
  lemma ReservedOnTop(b: Books, o: Order, rows: seq<Loc>)
    requires Merges(o.reqs, o.needs) && HoldsNothing(b, o.id) && AllEnough(b, o.reqs, rows)
    ensures var r := Reserve(b, o.id, o.reqs, rows);
            r.Ok? && forall item: nat :: Deducted(r.value, o.id, item) == Deducted(b, o.id, item) + SumBy(o.needs, NeededOf(item))
  {
    ReserveIsComplete(b, o.id, o.reqs, o.needs, rows);
    var d := Reserve(b, o.id, o.reqs, rows).value;
    ReserveAllAppends(b, o.id, o.reqs, rows);
    var tail := d.log[|b.log|..];
    assert d.log == b.log + tail;
    forall item: nat ensures Deducted(d, o.id, item) == Deducted(b, o.id, item) + SumBy(o.needs, NeededOf(item)) {
      SumByConcat(b.log, tail, TakenOf(o.id, item));
      SumByConcat(b.log, tail, HeldOf(o.id, item));
      NothingHeld(b.log, o.id, item);
      SameSums(tail, TakenOf(o.id, item), HeldOf(o.id, item));
    }
  }

  // ------------------------------------------------------------------ an interrupted delivery

  /** The delivery goes on, sells, and the event is delivered once more and reserves. */
  function GoOn(r: nat, supplied: Books, rows: seq<Loc>): seq<Event>
  {
    [Delivery(RetailOrder.Elsewhere(supplied))] + [Delivery(Advance(r, []))] + [Delivery(Advance(r, []))] + [Delivery(Advance(r, []))] +
    [Delivery(RetailOrder.Crash(r))] + [Delivery(Deliver(r))] + [Delivery(Advance(r, rows))]
  }

  lemma GoOnRuns(o: Order, w: Retail, r: nat, c: Books, d: Books, rows: seq<Loc>, e: Books)
    requires r in w.runs && w.runs[r] == AtCommit && Markable(w.status) && Leaves(w.books, c, o.id) && HoldsNothing(c, o.id)
    requires Sell(c, o.id, SALE, o.lines) == Ok(d) && Reserve(d, o.id, o.reqs, rows) == Ok(e)
    ensures AfterAll(o, w, GoOn(r, c, rows)) == Retail(e, COMPLETED, w.runs[r := AtCommit])
  {
    var step := Delivery(Advance(r, []));
    var a0 := [Delivery(RetailOrder.Elsewhere(c))];
    var a1, a2, a3 := a0 + [step], a0 + [step] + [step], a0 + [step] + [step] + [step];
    var a4 := a3 + [Delivery(RetailOrder.Crash(r))];
    var a5 := a4 + [Delivery(Deliver(r))];
    AfterOne(o, w, [], Delivery(RetailOrder.Elsewhere(c)));
    assert [] + a0 == a0;
    NothingToCommit(c, o.id, |c.log|);
    StepOf(o, w.(books := c), r, [], Outcomes(c, w.status, AtMark));
    AfterOne(o, w, a0, step);
    StepOf(o, Retail(c, w.status, w.runs[r := AtMark]), r, [], Outcomes(c, PAID, AtFulfil));
    AfterOne(o, w, a1, step);
    StepOf(o, Retail(c, PAID, w.runs[r := AtMark][r := AtFulfil]), r, [], Outcomes(d, COMPLETED, Finished));
    AfterOne(o, w, a2, step);
    assert w.runs[r := AtMark][r := AtFulfil][r := Finished] == w.runs[r := Finished];
    AfterOne(o, w, a3, Delivery(RetailOrder.Crash(r)));
    AfterOne(o, w, a4, Delivery(Deliver(r)));
    assert (w.runs[r := Finished] - {r})[r := AtReserve] == w.runs[r := AtReserve];
    assert AfterAll(o, w, a5) == Retail(d, COMPLETED, w.runs[r := AtReserve]);
    StepOf(o, Retail(d, COMPLETED, w.runs[r := AtReserve]), r, rows, Outcomes(e, COMPLETED, AtCommit));
    AfterOne(o, w, a5, Delivery(Advance(r, rows)));
    assert w.runs[r := AtReserve][r := AtCommit] == w.runs[r := AtCommit];
  }

  lemma StepOf(o: Order, w: Retail, r: nat, rows: seq<Loc>, n: Outcomes)
    requires r in w.runs && RetailOrder.Next(o, w.books, w.status, w.runs[r], rows) == n
    ensures After(o, w, Delivery(Advance(r, rows))) == Retail(n.books, n.status, w.runs[r := n.place])
  {
  }

  predicate NoExpiry(events: seq<Event>) { forall i :: 0 <= i < |events| ==> !events[i].Expiring? }

  lemma {:induction false} NoExpiryIsTimely(o: Order, w: Retail, events: seq<Event>)
    requires NoExpiry(events)
    ensures AllTimely(o, w, events)
  {
    if events != [] { NoExpiryIsTimely(o, w, events[..|events| - 1]); }
  }

  /** Other transactions leave healthy books and configured items configured; eligible stock rows are listed once. */
  ghost predicate Fair(o: Order, e: Event)
  {
    e.Delivery? ==>
      && (e.action.Elsewhere? ==> Healthy(e.action.books) && Sellable(e.action.books.configured, o.lines))
      && (e.action.Advance? ==> Distinct(e.action.rows))
  }

  ghost predicate AllFair(o: Order, events: seq<Event>) { forall i :: 0 <= i < |events| ==> Fair(o, events[i]) }

  lemma GoOnIsFair(o: Order, r: nat, supplied: Books, rows: seq<Loc>)
    requires Healthy(supplied) && Sellable(supplied.configured, o.lines) && Distinct(rows)
    ensures NoExpiry(GoOn(r, supplied, rows)) && AllFair(o, GoOn(r, supplied, rows))
  {
  }

  lemma RequirementsSellable(o: Order, configured: set<nat>)
    requires OrderOk(o) && Sellable(configured, o.lines)
    ensures Sellable(configured, Places(o.reqs))
  {
    forall i | 0 <= i < |o.reqs| ensures o.reqs[i].item in configured {
      RequirementExact(o.reqs, i);
      if o.reqs[i].item !in configured { SumByZero(o.lines, SoldOf(o.reqs[i].item)); }
    }
  }

  /** Interrupted, the order can take twice what it needs. */
  lemma InterruptedTakesTwice(o: Order, w: Retail, cutoff: nat) returns (more: seq<Event>)
    requires OrderOk(o) && Inv(o, w) && Healthy(w.books) && Sellable(w.books.configured, o.lines) && Interrupts(o, w, cutoff)
    ensures NoExpiry(more) && AllFair(o, more)
    ensures forall item: nat ::
              Deducted(AfterAll(o, After(o, w, Expiring(cutoff)), more).books, o.id, item) == 2.0 * SumBy(o.needs, NeededOf(item))
  {
    ExpirySucceeds(w.books, cutoff);
    InterruptedHoldsNothing(o, w, cutoff);
    var z := After(o, w, Expiring(cutoff));
    var r :| r in w.runs && w.runs[r] == AtCommit;
    var c, d, e := SoldAndReserved(o, z.books);
    more := GoOn(r, c, RowsFor(o.reqs));
    GoOnIsFair(o, r, c, RowsFor(o.reqs));
    GoOnRuns(o, z, r, c, d, RowsFor(o.reqs), e);
  }

  lemma SoldAndReserved(o: Order, b: Books) returns (c: Books, d: Books, e: Books)
    requires OrderOk(o) && Healthy(b) && Sellable(b.configured, o.lines) && HoldsNothing(b, o.id) && OnlyReservations(b, o.id)
    ensures Healthy(c) && Sellable(c.configured, o.lines) && Leaves(b, c, o.id) && HoldsNothing(c, o.id)
    ensures Sell(c, o.id, SALE, o.lines) == Ok(d) && Reserve(d, o.id, o.reqs, RowsFor(o.reqs)) == Ok(e)
    ensures forall item: nat :: Deducted(e, o.id, item) == 2.0 * SumBy(o.needs, NeededOf(item))
  {
    c := BothSupplied(o, b);
    d := SoldFrom(o, c);
    ReservedOnTop(d, o, RowsFor(o.reqs));
    e := Reserve(d, o.id, o.reqs, RowsFor(o.reqs)).value;
  }

  /** Enough for the lines, and for the requirements besides. */
  ghost predicate Plenty(b: Books, o: Order)
  {
    forall loc :: OnHand(b, loc) >= SumBy(o.lines, DemandAt(loc)) + SumBy(Places(o.reqs), DemandAt(loc))
  }

  lemma BothSupplied(o: Order, b: Books) returns (c: Books)
    requires OrderOk(o) && Healthy(b) && Sellable(b.configured, o.lines) && HoldsNothing(b, o.id) && OnlyReservations(b, o.id)
    ensures Healthy(c) && Sellable(c.configured, o.lines) && Leaves(b, c, o.id) && HoldsNothing(c, o.id) && Plenty(c, o)
    ensures forall item: nat :: Deducted(c, o.id, item) == 0.0
  {
    var all := o.lines + Places(o.reqs);
    RequirementsSellable(o, b.configured);
    SupplyIsHealthy(b, all);
    SupplyLeaves(b, all, o.id);
    c := Supplied(b, all);
    HoldsNothingElsewhere(b, c, o.id);
    forall loc ensures OnHand(c, loc) >= SumBy(o.lines, DemandAt(loc)) + SumBy(Places(o.reqs), DemandAt(loc)) {
      SupplyBrings(b, all, loc);
      SumByConcat(o.lines, Places(o.reqs), DemandAt(loc));
    }
    forall item: nat ensures Deducted(c, o.id, item) == 0.0 { LeavesSums(b, c, o.id, item); NothingTaken(b, o.id, item); }
  }

  lemma SoldFrom(o: Order, c: Books) returns (d: Books)
    requires OrderOk(o) && Healthy(c) && Sellable(c.configured, o.lines) && HoldsNothing(c, o.id) && Plenty(c, o)
    ensures Sell(c, o.id, SALE, o.lines) == Ok(d) && HoldsNothing(d, o.id) && AllEnough(d, o.reqs, RowsFor(o.reqs))
    ensures forall item: nat :: Deducted(d, o.id, item) == Deducted(c, o.id, item) + SumBy(o.needs, NeededOf(item))
  {
    forall loc ensures OnHand(c, loc) >= SumBy(o.lines, DemandAt(loc)) { SumByNonNegative(Places(o.reqs), DemandAt(loc)); }
    SellingAll(c, o.id, o.lines);
    NoCommitted(c, o.id);
    d := SellLines(c, o.id, SALE, o.lines).value;
    PlacesLeft(c, d, o);
    PlacesSuffice(d, o.reqs);
  }

  lemma PlacesLeft(c: Books, d: Books, o: Order)
    requires OrderOk(o) && Plenty(c, o) && Sold(c, d, o.id, o.lines)
    ensures forall i :: 0 <= i < |o.reqs| ==> OnHand(d, Loc(o.reqs[i].item, 0)) >= o.reqs[i].quantity
    ensures forall loc :: OnHand(d, loc) >= 0.0
  {
    forall i | 0 <= i < |o.reqs| ensures OnHand(d, Loc(o.reqs[i].item, 0)) >= o.reqs[i].quantity {
      SumByNonNegative(Places(o.reqs), DemandAt(Loc(o.reqs[i].item, 0)));
      assert DemandAt(Loc(o.reqs[i].item, 0))(Places(o.reqs)[i]) == o.reqs[i].quantity;
    }
    forall loc ensures OnHand(d, loc) >= 0.0 { SumByNonNegative(Places(o.reqs), DemandAt(loc)); }
  }

  lemma HoldsNothingElsewhere(b: Books, c: Books, order: nat)
    requires Leaves(b, c, order) && HoldsNothing(b, order)
    ensures HoldsNothing(c, order)
  {
    forall i | 0 <= i < |c.log| && c.log[i].ref.Reservation? && c.log[i].ref.order == order ensures c.log[i].ref.status !in {Active, Committed} {
      assert RetailOrder.OfOrder(c.log[i], order);
    }
  }

  // ------------------------------------------------------------------ the exact condition

  /** Some continuation, without another untimely expiry, deducts something else than nothing or the needs. */
  ghost predicate CanGoWrong(o: Order, w: Retail)
  {
    exists more :: AllTimely(o, w, more) && AllFair(o, more) && !AllOrNothing(AfterAll(o, w, more).books, o)
  }

  lemma TwiceIsWrong(b: Books, o: Order)
    requires Merges(o.reqs, o.needs) && o.reqs != []
    requires forall item: nat :: Deducted(b, o.id, item) == 2.0 * SumBy(o.needs, NeededOf(item))
    ensures !AllOrNothing(b, o)
  {
    RequirementExact(o.reqs, 0);
    assert SumBy(o.needs, NeededOf(o.reqs[0].item)) == o.reqs[0].quantity > 0.0;
    assert Deducted(b, o.id, o.reqs[0].item) == 2.0 * o.reqs[0].quantity;
  }

  /**
    In any state that timely expiries lead to, the next expiry is untimely if and only if it lets the
    order go wrong: at once, with part of what it needs, or later, with twice that.
  */
  lemma UntimelyIffGoesWrong(o: Order, w: Retail, cutoff: nat)
    requires OrderOk(o) && Inv(o, w) && Healthy(w.books) && Sellable(w.books.configured, o.lines)
    ensures !Timely(o, w, Expiring(cutoff)) <==> CanGoWrong(o, After(o, w, Expiring(cutoff)))
  {
    var z := After(o, w, Expiring(cutoff));
    ExpirySucceeds(w.books, cutoff);
    if Timely(o, w, Expiring(cutoff)) {
      ExpiringKeeps(o, w, Expiring(cutoff));
      NeverWrong(o, z);
    } else if Splits(w.books, o.id, OlderThan(cutoff)) {
      SplitShows(w.books, o, cutoff);
      assert AllTimely(o, z, []) && AllFair(o, []) && AfterAll(o, z, []) == z;
    } else {
      HoldersNeed(w.books, o, OlderThan(cutoff));
      var more := InterruptedTakesTwice(o, w, cutoff);
      NoExpiryIsTimely(o, z, more);
      TwiceIsWrong(AfterAll(o, z, more).books, o);
    }
  }

  lemma NeverWrong(o: Order, w: Retail)
    requires OrderOk(o) && Inv(o, w)
    ensures !CanGoWrong(o, w)
  {
    forall more | AllTimely(o, w, more) ensures AllOrNothing(AfterAll(o, w, more).books, o) {
      AfterAllKeeps(o, w, more);
      WholeTakesAllOrNothing(AfterAll(o, w, more).books, o);
    }
  }

  // ------------------------------------------------------------------ over whole runs

  lemma AfterHealthy(o: Order, w: Retail, e: Event)
    requires Healthy(w.books) && Sellable(w.books.configured, o.lines) && Fair(o, e)
    ensures Healthy(After(o, w, e).books) && Sellable(After(o, w, e).books.configured, o.lines)
  {
    match e
    case Delivery(a) => if a.Advance? && a.run in w.runs { AdvanceHealthy(o, w, a.run, a.rows); }
    case Cancelling => ApplyHealthy(w.books, OpRelease(Claim.OfOrder(o.id), Released));
    case Expiring(cutoff) => ApplyHealthy(w.books, OpRelease(OlderThan(cutoff), Expired));
  }

  lemma AdvanceHealthy(o: Order, w: Retail, r: nat, rows: seq<Loc>)
    requires Healthy(w.books) && Distinct(rows) && r in w.runs
    ensures var b := RetailOrder.Act(o, w, Advance(r, rows)).books; Healthy(b) && b.configured == w.books.configured
  {
    if w.runs[r] == AtReserve { ApplyHealthy(w.books, OpReserve(o.id, o.reqs, rows)); }
    if w.runs[r] == AtCommit { ApplyHealthy(w.books, OpCommit(o.id, SALE)); }
    if w.runs[r] == AtFulfil { ApplyHealthy(w.books, OpSell(o.id, SALE, o.lines)); }
  }

  lemma {:induction false} AfterAllHealthy(o: Order, w: Retail, events: seq<Event>)
    requires Healthy(w.books) && Sellable(w.books.configured, o.lines) && AllFair(o, events)
    ensures Healthy(AfterAll(o, w, events).books) && Sellable(AfterAll(o, w, events).books.configured, o.lines)
  {
    if events != [] {
      AfterAllHealthy(o, w, events[..|events| - 1]);
      AfterHealthy(o, AfterAll(o, w, events[..|events| - 1]), events[|events| - 1]);
    }
  }

  lemma {:induction false} TimelyPrefix(o: Order, w: Retail, events: seq<Event>, n: nat)
    requires n <= |events| && AllTimely(o, w, events)
    ensures AllTimely(o, w, events[..n])
  {
    if n == |events| {
      assert events[..n] == events;
    } else {
      TimelyPrefix(o, w, events[..|events| - 1], n);
      assert events[..|events| - 1][..n] == events[..n];
    }
  }

  /** The first untimely expiry of a run. */
  lemma {:induction false} FirstUntimely(o: Order, w: Retail, events: seq<Event>) returns (n: nat)
    requires !AllTimely(o, w, events)
    ensures n < |events| && AllTimely(o, w, events[..n]) && !Timely(o, AfterAll(o, w, events[..n]), events[n])
  {
    var front := events[..|events| - 1];
    if AllTimely(o, w, front) {
      n := |events| - 1;
    } else {
      n := FirstUntimely(o, w, front);
      assert front[..n] == events[..n];
    }
  }

  /** The order can go wrong after none of the events. */
  ghost predicate NeverGoesWrong(o: Order, w: Retail, events: seq<Event>)
  {
    forall n: nat :: n <= |events| ==> !CanGoWrong(o, AfterAll(o, w, events[..n]))
  }

  lemma TimelyNeverGoesWrong(o: Order, w: Retail, events: seq<Event>)
    requires OrderOk(o) && Inv(o, w) && AllTimely(o, w, events)
    ensures NeverGoesWrong(o, w, events)
  {
    forall n: nat | n <= |events| ensures !CanGoWrong(o, AfterAll(o, w, events[..n])) {
      TimelyPrefix(o, w, events, n);
      AfterAllKeeps(o, w, events[..n]);
      NeverWrong(o, AfterAll(o, w, events[..n]));
    }
  }

  lemma WrongNext(o: Order, w: Retail, e: Event)
    requires OrderOk(o) && Inv(o, w) && Healthy(w.books) && Sellable(w.books.configured, o.lines) && !Timely(o, w, e)
    ensures CanGoWrong(o, After(o, w, e))
  {
    UntimelyIffGoesWrong(o, w, e.cutoff);
  }

  lemma WrongAfter(o: Order, w: Retail, events: seq<Event>, k: nat)
    requires OrderOk(o) && k < |events| && Inv(o, AfterAll(o, w, events[..k])) && !Timely(o, AfterAll(o, w, events[..k]), events[k])
    requires Healthy(AfterAll(o, w, events[..k]).books) && Sellable(AfterAll(o, w, events[..k]).books.configured, o.lines)
    ensures CanGoWrong(o, AfterAll(o, w, events[..k + 1]))
  {
    WrongNext(o, AfterAll(o, w, events[..k]), events[k]);
    assert events[..k + 1] == events[..k] + [events[k]];
    AfterOne(o, w, events[..k], events[k]);
  }

  lemma UntimelyGoesWrong(o: Order, w: Retail, events: seq<Event>) returns (n: nat)
    requires OrderOk(o) && Inv(o, w) && !AllTimely(o, w, events)
    requires Healthy(w.books) && Sellable(w.books.configured, o.lines) && AllFair(o, events)
    ensures n <= |events| && CanGoWrong(o, AfterAll(o, w, events[..n]))
  {
    var k := FirstUntimely(o, w, events);
    AfterAllKeeps(o, w, events[..k]);
    AfterAllHealthy(o, w, events[..k]);
    WrongAfter(o, w, events, k);
    n := k + 1;
  }

  /**
    A run of deliveries, cancellations and expiries of a fresh order keeps it from ever taking something
    else than nothing or what it needs if and only if every expiry in it is timely.
  */
  lemma NeverWrongIffTimely(o: Order, w: Retail, events: seq<Event>)
    requires OrderOk(o) && Untouched(w.books, o.id) && w.runs == map[]
    requires Healthy(w.books) && Sellable(w.books.configured, o.lines) && AllFair(o, events)
    ensures NeverGoesWrong(o, w, events) <==> AllTimely(o, w, events)
  {
    UntouchedIsWhole(o, w.books);
    if AllTimely(o, w, events) {
      TimelyNeverGoesWrong(o, w, events);
    } else {
      var n := UntimelyGoesWrong(o, w, events);
    }
  }
}
