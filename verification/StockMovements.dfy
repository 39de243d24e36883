/**
  What each stock transaction does, read off the books themselves: the stock on hand, the queue of open
  cost layers at every location, and the movements that were written.
*/
module StockMovements {
  import opened Fifo
  import opened InventoryLedger
  import opened LedgerInvariants
  import opened LedgerSteps
  import opened LedgerRuns

  // ------------------------------------------------------------------ one movement

  /** Stock moves by the given amount at one location and nowhere else. */
  ghost predicate StockMovesBy(b: Books, d: Books, loc: Loc, change: real)
  {
    forall l: Loc :: OnHand(d, l) == OnHand(b, l) + if l == loc then change else 0.0
  }

  predicate SameSetting(b: Books, d: Books)
  {
    d.opening == b.opening && d.configured == b.configured && d.transfers == b.transfers
  }

  /** The cost of some allocations, and per unit of q. */
  function CostOf(used: seq<Alloc>, q: real): Cost
    requires q > 0.0
  {
    Cost(Value(used, TagCost()) / q, Value(used, TagCost()))
  }

  function Queue(b: Books, loc: Loc): seq<Alloc> { View(b.layers, loc) }

  /** q units leave a location: the oldest ones, at their cost, with one movement that says so. */
  ghost predicate Leaves(b: Books, d: Books, loc: Loc, q: real, signed: real, kind: MovementType, ref: Reference)
  {
    && q > 0.0 && SameSetting(b, d) && StockMovesBy(b, d, loc, -q)
    && d.log == b.log + [Movement(|b.log|, loc, kind, signed, Some(OnHand(b, loc)), Some(OnHand(b, loc) - q), ref,
                                  Some(CostOf(Take(Queue(b, loc), q), q)), Take(Queue(b, loc), q))]
    && SameRows(b.layers, d.layers)
    && forall l: Loc :: Queue(d, l) == if l == loc then Drop(Queue(b, loc), q) else Queue(b, l)
  }

  /** q units come in at a unit cost: one lot at the back of the queue, with one movement that says so. */
  ghost predicate Arrives(b: Books, d: Books, loc: Loc, q: real, unitCost: real, kind: MovementType)
  {
    && SameSetting(b, d) && StockMovesBy(b, d, loc, q)
    && d.log == b.log + [Movement(|b.log|, loc, kind, q, Some(OnHand(b, loc)), Some(OnHand(b, loc) + q), NoReference,
                                  Some(Cost(unitCost, q * unitCost)), [])]
    && d.layers == b.layers + [LayerRow(|b.layers|, loc, Some(|b.log|), q, q, unitCost)]
    && forall l: Loc ::
         Queue(d, l) == Queue(b, l) + if l == loc then [Lot(q, CostTag(|b.layers|, Some(|b.log|), unitCost))] else []
  }

  lemma DebitLeaves(b: Books, loc: Loc, q: real, signed: real, kind: MovementType, ref: Reference)
    requires NonNegative(b.layers) && Debit(b, loc, q, OnHand(b, loc), signed, kind, ref).Ok?
    ensures Leaves(b, Debit(b, loc, q, OnHand(b, loc), signed, kind, ref).value, loc, q, signed, kind, ref)
  {
    ConsumeQueues(b.layers, loc, q);
    DebitTables(b, loc, q, signed, kind, ref);
    QueuesAfter(b, Debit(b, loc, q, OnHand(b, loc), signed, kind, ref).value, loc, q);
  }

  lemma DebitTables(b: Books, loc: Loc, q: real, signed: real, kind: MovementType, ref: Reference)
    requires Debit(b, loc, q, OnHand(b, loc), signed, kind, ref).Ok?
    ensures var c, d := Consume(b.layers, loc, q), Debit(b, loc, q, OnHand(b, loc), signed, kind, ref).value;
            && q > 0.0 && SameSetting(b, d) && StockMovesBy(b, d, loc, -q) && d.layers == c.rows
            && d.log == b.log + [Movement(|b.log|, loc, kind, signed, Some(OnHand(b, loc)), Some(OnHand(b, loc) - q), ref,
                                          Some(CostOf(c.allocations, q)), c.allocations)]
  {
  }

  lemma QueuesAfter(b: Books, d: Books, loc: Loc, q: real)
    requires d.layers == Consume(b.layers, loc, q).rows
    requires forall l: Loc :: View(Consume(b.layers, loc, q).rows, l) == if l == loc then Drop(View(b.layers, loc), q) else View(b.layers, l)
    ensures forall l: Loc :: Queue(d, l) == if l == loc then Drop(Queue(b, loc), q) else Queue(b, l)
  {
  }

  lemma ConsumeQueues(layers: seq<LayerRow>, loc: Loc, q: real)
    requires NonNegative(layers) && q > 0.0
    ensures var c := Consume(layers, loc, q);
            && SameRows(layers, c.rows) && c.allocations == Take(View(layers, loc), q)
            && forall l: Loc :: View(c.rows, l) == if l == loc then Drop(View(layers, loc), q) else View(layers, l)
  {
    ConsumeMeaning(layers, loc, q);
    forall l: Loc | l != loc ensures View(Consume(layers, loc, q).rows, l) == View(layers, l) { ConsumeElsewhere(layers, loc, q, l); }
  }

  lemma ReceiptArrives(b: Books, loc: Loc, q: real, unitCost: real, kind: MovementType)
    requires q > 0.0
    ensures Arrives(b, ReceiveStock(b, loc, q, unitCost, kind), loc, q, unitCost, kind)
  {
    var d := ReceiveStock(b, loc, q, unitCost, kind);
    var row := LayerRow(|b.layers|, loc, Some(|b.log|), q, q, unitCost);
    assert NewRows(|b.layers|, loc, |b.log|, [Lot(q, unitCost)]) == [row];
    forall l: Loc ensures Queue(d, l) == Queue(b, l) + if l == loc then [Lot(q, CostTag(|b.layers|, Some(|b.log|), unitCost))] else [] {
      ViewSnoc(b.layers, row, l);
    }
  }

  /** Stock in: at least one unit of a configured item, with its unit cost. */
  lemma StockInEffect(b: Books, loc: Loc, q: real, unitCost: Option<real>)
    ensures StockIn(b, loc, q, unitCost).Ok? <==> q >= 1.0 && loc.item in b.configured && unitCost.Some?
    ensures StockIn(b, loc, q, unitCost).Ok? ==> Arrives(b, StockIn(b, loc, q, unitCost).value, loc, q, unitCost.value, STOCK_IN)
  {
    if StockIn(b, loc, q, unitCost).Ok? { ReceiptArrives(b, loc, q, unitCost.value, STOCK_IN); }
  }

  /** Waste: at least one unit, and no more than there is. */
  lemma WasteEffect(b: Books, loc: Loc, q: real)
    requires Sound(b)
    ensures WasteStock(b, loc, q).Ok? <==> q >= 1.0 && loc.item in b.configured && InStock(b, loc, q)
    ensures WasteStock(b, loc, q).Ok? ==> Leaves(b, WasteStock(b, loc, q).value, loc, q, q, WASTE, NoReference)
  {
    if q >= 1.0 && loc.item in b.configured && InStock(b, loc, q) {
      DebitSucceeds(b, loc, q, q, WASTE, NoReference);
      DebitLeaves(b, loc, q, q, WASTE, NoReference);
    }
  }

  /** An adjustment by nothing is noted and moves nothing. */
  predicate OnlyNoted(b: Books, d: Books, loc: Loc)
  {
    d == b.(log := b.log + [Movement(|b.log|, loc, ADJUSTMENT, 0.0, Some(OnHand(b, loc)), Some(OnHand(b, loc)), NoReference, None, [])])
  }

  predicate Adjustable(b: Books, loc: Loc, q: real, unitCost: Option<real>)
  {
    && loc.item in b.configured && loc in b.stock && b.stock[loc] + q >= 0.0
    && (q > 0.0 ==> unitCost.Some?)
  }

  /** Adjustment: an existing row that does not fall below zero, upwards at a given unit cost. */
  lemma AdjustEffect(b: Books, loc: Loc, q: real, unitCost: Option<real>)
    requires Sound(b)
    ensures Adjust(b, loc, q, unitCost).Ok? <==> Adjustable(b, loc, q, unitCost)
    ensures Adjust(b, loc, q, unitCost).Ok? ==>
              var d := Adjust(b, loc, q, unitCost).value;
              && (q > 0.0 ==> Arrives(b, d, loc, q, unitCost.value, ADJUSTMENT))
              && (q < 0.0 ==> Leaves(b, d, loc, -q, q, ADJUSTMENT, NoReference))
              && (q == 0.0 ==> OnlyNoted(b, d, loc))
  {
    if Adjustable(b, loc, q, unitCost) {
      if q > 0.0 {
        ReceiptArrives(b, loc, q, unitCost.value, ADJUSTMENT);
      } else if q < 0.0 {
        DebitSucceeds(b, loc, -q, q, ADJUSTMENT, NoReference);
        DebitLeaves(b, loc, -q, q, ADJUSTMENT, NoReference);
      }
    }
  }

  /** One line of an order. */
  lemma SaleLineEffect(b: Books, order: nat, kind: MovementType, loc: Loc, q: real)
    requires Sound(b)
    ensures SellLine(b, order, kind, SaleLine(loc, q)).Ok? <==> q > 0.0 && loc.item in b.configured && InStock(b, loc, q)
    ensures SellLine(b, order, kind, SaleLine(loc, q)).Ok? ==>
              Leaves(b, SellLine(b, order, kind, SaleLine(loc, q)).value, loc, q, q, kind, OrderSale(order))
  {
    if q > 0.0 && loc.item in b.configured && InStock(b, loc, q) {
      DebitSucceeds(b, loc, q, q, kind, OrderSale(order));
      DebitLeaves(b, loc, q, q, kind, OrderSale(order));
    }
  }

  /** One line of a shipment, when the stock read before the loop is still what is there. */
  lemma ShipLineEffect(b: Books, seen: map<Loc, real>, t: nat, loc: Loc, q: real)
    requires Sound(b) && q > 0.0 && loc in seen && seen[loc] == OnHand(b, loc)
    ensures ShipLine(b, seen, t, loc, q).Ok? <==> loc.item in b.configured && q <= OnHand(b, loc)
    ensures ShipLine(b, seen, t, loc, q).Ok? ==> Leaves(b, ShipLine(b, seen, t, loc, q).value, loc, q, q, TRANSFER, TransferShipment(t))
  {
    if loc.item in b.configured && q <= OnHand(b, loc) {
      DebitSucceeds(b, loc, q, q, TRANSFER, TransferShipment(t));
      DebitLeaves(b, loc, q, q, TRANSFER, TransferShipment(t));
    }
  }

  /** Why a waste, an adjustment or an order line is refused; layers never run short of stock. */
  lemma RefusalReasons(b: Books, loc: Loc, q: real, unitCost: Option<real>, order: nat, kind: MovementType)
    requires Sound(b)
    ensures WasteStock(b, loc, q).Rejected? ==>
              WasteStock(b, loc, q).error ==
              if q < 1.0 then InvalidQuantity else if loc.item !in b.configured then NotConfigured
              else if loc !in b.stock then StockNotFound else InsufficientStock
    ensures Adjust(b, loc, q, unitCost).Rejected? ==>
              Adjust(b, loc, q, unitCost).error ==
              if loc.item !in b.configured then NotConfigured else if loc !in b.stock then StockNotFound
              else if OnHand(b, loc) + q < 0.0 then InsufficientStock else UnitCostRequired
    ensures SellLine(b, order, kind, SaleLine(loc, q)).Rejected? ==>
              SellLine(b, order, kind, SaleLine(loc, q)).error ==
              if loc.item !in b.configured then NotConfigured else if loc !in b.stock then StockNotFound
              else if q > OnHand(b, loc) then InsufficientStock else InvalidQuantity
  {
    WasteEffect(b, loc, q);
    AdjustEffect(b, loc, q, unitCost);
    SaleLineEffect(b, order, kind, loc, q);
  }

  // ------------------------------------------------------------------ several issues in a row

  /** The books after some quantity has left each location, oldest units first. */
  ghost predicate Less(b: Books, d: Books, gone: Loc -> real)
  {
    && SameSetting(b, d) && SameRows(b.layers, d.layers)
    && forall l: Loc :: gone(l) >= 0.0 && OnHand(d, l) == OnHand(b, l) - gone(l) && Queue(d, l) == Drop(Queue(b, l), gone(l))
  }

  lemma LessMore(b: Books, c: Books, d: Books, gone: Loc -> real, loc: Loc, q: real, after: Loc -> real)
    requires Less(b, c, gone) && q > 0.0 && SameSetting(c, d) && StockMovesBy(c, d, loc, -q) && SameRows(c.layers, d.layers)
    requires forall l: Loc :: Queue(d, l) == if l == loc then Drop(Queue(c, loc), q) else Queue(c, l)
    requires forall l: Loc :: after(l) == gone(l) + if l == loc then q else 0.0
    ensures Less(b, d, after)
  {
    SameRowsOn(b.layers, c.layers, d.layers);
    forall l: Loc
      ensures after(l) >= 0.0 && OnHand(d, l) == OnHand(b, l) - after(l) && Queue(d, l) == Drop(Queue(b, l), after(l))
    {
      assert gone(l) >= 0.0 && OnHand(c, l) == OnHand(b, l) - gone(l);
      GoneMore(Queue(b, l), Queue(c, l), Queue(d, l), gone(l), if l == loc then q else 0.0, after(l));
    }
  }

  /** Some units left a queue, then maybe more. */
  lemma GoneMore(v: seq<Alloc>, mid: seq<Alloc>, rest: seq<Alloc>, a: real, q: real, all: real)
    requires Positive(v) && a >= 0.0 && q >= 0.0 && all == a + q
    requires mid == Drop(v, a) && rest == if q > 0.0 then Drop(mid, q) else mid
    ensures rest == Drop(v, all)
  {
    if q > 0.0 { DropDrop(v, a, q); }
  }

  lemma SameRowsOn(xs: seq<LayerRow>, ys: seq<LayerRow>, zs: seq<LayerRow>)
    requires SameRows(xs, ys) && SameRows(ys, zs)
    ensures SameRows(xs, zs)
  {
  }

  function LineAt(loc: Loc): SaleLine -> real
  {
    (l: SaleLine) => if l.loc == loc then l.quantity else 0.0
  }

  /** What the lines of an order ask of each location. */
  function Asked(lines: seq<SaleLine>): Loc -> real { (loc: Loc) => SumBy(lines, LineAt(loc)) }

  lemma AskedMore(lines: seq<SaleLine>)
    requires lines != []
    ensures forall l: Loc :: Asked(lines)(l) ==
              Asked(lines[..|lines| - 1])(l) + if l == lines[|lines| - 1].loc then lines[|lines| - 1].quantity else 0.0
  {
  }

  predicate LineOk(b: Books, lines: seq<SaleLine>, i: nat)
    requires i < |lines|
  {
    var l := lines[i];
    l.quantity > 0.0 && l.loc.item in b.configured && Asked(lines)(l.loc) <= OnHand(b, l.loc)
  }

  predicate LinesOk(b: Books, lines: seq<SaleLine>) { forall i :: 0 <= i < |lines| ==> LineOk(b, lines, i) }

  /** The sale movement of one line. */
  predicate Sold(m: Movement, order: nat, kind: MovementType, l: SaleLine)
  {
    && m.loc == l.loc && m.kind == kind && m.quantity == l.quantity && m.ref == OrderSale(order)
    && m.before.Some? && m.after == Some(m.before.value - l.quantity)
    && l.quantity > 0.0 && Sum(m.allocations) == l.quantity && m.cost == Some(CostOf(m.allocations, l.quantity))
  }

  ghost predicate SoldAll(b: Books, d: Books, order: nat, kind: MovementType, lines: seq<SaleLine>)
  {
    && Less(b, d, Asked(lines))
    && |d.log| == |b.log| + |lines| && d.log[..|b.log|] == b.log
    && forall i :: 0 <= i < |lines| ==> Sold(d.log[|b.log| + i], order, kind, lines[i])
  }

  lemma LeavesSold(b: Books, d: Books, order: nat, kind: MovementType, l: SaleLine)
    requires Sound(b) && l.quantity <= OnHand(b, l.loc) && l.loc.item in b.configured
    requires Leaves(b, d, l.loc, l.quantity, l.quantity, kind, OrderSale(order))
    ensures Sold(d.log[|b.log|], order, kind, l)
  {
    ViewSum(b.layers, l.loc);
    SumByNonNegative(b.log, ActiveAt(l.loc));
    SplitQuantity(Queue(b, l.loc), l.quantity);
  }

  lemma SoldMore(b: Books, c: Books, d: Books, order: nat, kind: MovementType, lines: seq<SaleLine>)
    requires lines != [] && SoldAll(b, c, order, kind, lines[..|lines| - 1])
    requires var l := lines[|lines| - 1];
             Leaves(c, d, l.loc, l.quantity, l.quantity, kind, OrderSale(order)) && Sold(d.log[|c.log|], order, kind, l)
    ensures SoldAll(b, d, order, kind, lines)
  {
    var n := |lines| - 1;
    AskedMore(lines);
    LessMore(b, c, d, Asked(lines[..n]), lines[n].loc, lines[n].quantity, Asked(lines));
    assert d.log[..|b.log|] == c.log[..|b.log|];
    forall i | 0 <= i < |lines| ensures Sold(d.log[|b.log| + i], order, kind, lines[i]) {
      if i < n { assert d.log[|b.log| + i] == c.log[|b.log| + i] && lines[..n][i] == lines[i]; }
    }
  }

  lemma LinesOkMore(b: Books, lines: seq<SaleLine>)
    requires lines != []
    ensures LinesOk(b, lines) <==> LinesOk(b, lines[..|lines| - 1]) && LineOk(b, lines, |lines| - 1)
  {
    var n := |lines| - 1;
    var front, last := lines[..n], lines[n];
    AskedMore(lines);
    if LinesOk(b, lines) {
      assert LineOk(b, lines, n);
      forall i | 0 <= i < n ensures LineOk(b, front, i) { assert LineOk(b, lines, i) && front[i] == lines[i]; }
    }
    if LinesOk(b, front) && LineOk(b, lines, n) {
      forall i | 0 <= i < |lines| ensures LineOk(b, lines, i) {
        if i < n { assert LineOk(b, front, i) && front[i] == lines[i]; }
      }
    }
  }

  lemma SellHealthy(b: Books, order: nat, kind: MovementType, lines: seq<SaleLine>)
    requires Healthy(b) && SellLines(b, order, kind, lines).Ok?
    ensures Healthy(SellLines(b, order, kind, lines).value)
  {
    var steps := SellSteps(b, order, kind, lines);
    PathHealthy(b, steps);
  }

  /**
    The direct issue of an order: possible exactly when every line is of a configured item and positive
    and each location holds what all lines together ask of it.  It takes exactly that, oldest units
    first, and writes one movement for each line.
  */
  lemma {:induction false} SaleEffect(b: Books, order: nat, kind: MovementType, lines: seq<SaleLine>)
    requires Healthy(b)
    ensures SellLines(b, order, kind, lines).Ok? <==> LinesOk(b, lines)
    ensures SellLines(b, order, kind, lines).Ok? ==> SoldAll(b, SellLines(b, order, kind, lines).value, order, kind, lines)
  {
    if lines == [] {
      NothingSold(b, order, kind);
    } else {
      var n := |lines| - 1;
      SaleEffect(b, order, kind, lines[..n]);
      LinesOkMore(b, lines);
      if SellLines(b, order, kind, lines[..n]).Ok? {
        SellHealthy(b, order, kind, lines[..n]);
        OneMoreSold(b, SellLines(b, order, kind, lines[..n]).value, order, kind, lines);
      }
    }
  }

  predicate WasCommitted(log: seq<Movement>, order: nat) { exists i :: 0 <= i < |log| && log[i].ref == Reservation(order, Committed) }

  /** Fulfilling an order: nothing once a reservation of it was committed, and otherwise its direct issue, even beside active ones. */
  lemma FulfilmentEffect(b: Books, order: nat, kind: MovementType, lines: seq<SaleLine>)
    requires Healthy(b)
    ensures WasCommitted(b.log, order) ==> Sell(b, order, kind, lines) == Ok(b)
    ensures !WasCommitted(b.log, order) ==>
              && (Sell(b, order, kind, lines).Ok? <==> LinesOk(b, lines))
              && (Sell(b, order, kind, lines).Ok? ==> SoldAll(b, Sell(b, order, kind, lines).value, order, kind, lines))
  {
    if WasCommitted(b.log, order) {
      var i :| 0 <= i < |b.log| && b.log[i].ref == Reservation(order, Committed);
      assert HoldsReservation(b.log, order, {Committed});
    } else {
      assert !HoldsReservation(b.log, order, {Committed});
      SaleEffect(b, order, kind, lines);
    }
  }

  lemma NothingSold(b: Books, order: nat, kind: MovementType)
    ensures SoldAll(b, b, order, kind, [])
  {
    forall l: Loc ensures Queue(b, l) == Drop(Queue(b, l), Asked([])(l)) { DropNothing(Queue(b, l), 0.0); }
    assert b.log[..|b.log|] == b.log;
  }

  lemma OneMoreSold(b: Books, c: Books, order: nat, kind: MovementType, lines: seq<SaleLine>)
    requires lines != [] && Healthy(b) && Healthy(c) && SoldAll(b, c, order, kind, lines[..|lines| - 1])
    ensures SellLine(c, order, kind, lines[|lines| - 1]).Ok? <==> LineOk(b, lines, |lines| - 1)
    ensures SellLine(c, order, kind, lines[|lines| - 1]).Ok? ==>
              SoldAll(b, SellLine(c, order, kind, lines[|lines| - 1]).value, order, kind, lines)
  {
    var l := lines[|lines| - 1];
    AskedMore(lines);
    SaleLineEffect(c, order, kind, l.loc, l.quantity);
    assert OnHand(c, l.loc) == OnHand(b, l.loc) - Asked(lines[..|lines| - 1])(l.loc);
    if SellLine(c, order, kind, l).Ok? {
      var d := SellLine(c, order, kind, l).value;
      LeavesSold(c, d, order, kind, l);
      SoldMore(b, c, d, order, kind, lines);
    }
  }

  // ------------------------------------------------------------------ shipping a transfer

  /** What the first n lines of a transfer take from each location. */
  function Packed(tr: Transfer, n: nat): Loc -> real
    requires n <= |tr.items|
  {
    (loc: Loc) => SumBy(tr.items[..n], ItemAt(tr.source, loc))
  }

  function ItemAt(source: nat, loc: Loc): TransferItem -> real
  {
    (it: TransferItem) => if Loc(it.item, source) == loc then it.quantity else 0.0
  }

  predicate Loadable(b: Books, tr: Transfer, j: nat)
    requires j < |tr.items|
  {
    tr.items[j].item in b.configured && tr.items[j].quantity <= OnHand(b, Loc(tr.items[j].item, tr.source))
  }

  predicate LoadableUpTo(b: Books, tr: Transfer, n: nat)
    requires n <= |tr.items|
  {
    forall j :: 0 <= j < n ==> Loadable(b, tr, j)
  }

  /** The shipment movement of line j. */
  predicate Shipment(m: Movement, t: nat, tr: Transfer, j: nat)
  {
    j < |tr.items| &&
    var q := tr.items[j].quantity;
    && m.loc == Loc(tr.items[j].item, tr.source) && m.kind == TRANSFER && m.quantity == q && m.ref == TransferShipment(t)
    && m.before.Some? && m.after == Some(m.before.value - q)
    && q > 0.0 && Sum(m.allocations) == q && m.cost == Some(CostOf(m.allocations, q))
  }

  predicate LoadsLog(log: seq<Movement>, log2: seq<Movement>, t: nat, tr: Transfer, n: nat)
  {
    && |log2| == |log| + n && log2[..|log|] == log
    && forall k :: |log| <= k < |log2| ==> Shipment(log2[k], t, tr, k - |log|)
  }

  ghost predicate LoadedAll(b: Books, d: Books, t: nat, tr: Transfer, n: nat)
    requires n <= |tr.items|
  {
    Less(b, d, Packed(tr, n)) && LoadsLog(b.log, d.log, t, tr, n)
  }

  lemma PackedMore(tr: Transfer, n: nat)
    requires n < |tr.items|
    ensures forall l: Loc :: Packed(tr, n + 1)(l) ==
              Packed(tr, n)(l) + if l == Loc(tr.items[n].item, tr.source) then tr.items[n].quantity else 0.0
  {
    assert tr.items[..n + 1][..n] == tr.items[..n];
  }

  lemma NotYetPacked(tr: Transfer, n: nat)
    requires n < |tr.items| && DistinctItems(tr.items)
    ensures Packed(tr, n)(Loc(tr.items[n].item, tr.source)) == 0.0
  {
    SumByZero(tr.items[..n], ItemAt(tr.source, Loc(tr.items[n].item, tr.source)));
  }

  lemma LeavesShipment(b: Books, d: Books, t: nat, tr: Transfer, j: nat)
    requires Sound(b) && j < |tr.items| && Loadable(b, tr, j)
    requires Leaves(b, d, Loc(tr.items[j].item, tr.source), tr.items[j].quantity, tr.items[j].quantity, TRANSFER, TransferShipment(t))
    ensures Shipment(d.log[|b.log|], t, tr, j)
  {
    var loc := Loc(tr.items[j].item, tr.source);
    ViewSum(b.layers, loc);
    SumByNonNegative(b.log, ActiveAt(loc));
    SplitQuantity(Queue(b, loc), tr.items[j].quantity);
  }

  /** Loading n lines succeeds exactly when they can be loaded, and then has loaded them. */
  ghost predicate Loads(b: Books, t: nat, tr: Transfer, n: nat, o: Outcome<Books>)
  {
    n <= |tr.items| && (o.Ok? <==> LoadableUpTo(b, tr, n)) && (o.Ok? ==> LoadedAll(b, o.value, t, tr, n))
  }

  lemma LoadsMore(log: seq<Movement>, mid: seq<Movement>, m: Movement, t: nat, tr: Transfer, n: nat)
    requires LoadsLog(log, mid, t, tr, n) && Shipment(m, t, tr, n)
    ensures LoadsLog(log, mid + [m], t, tr, n + 1)
  {
    assert (mid + [m])[..|log|] == mid[..|log|];
  }

  lemma LoadedMore(b: Books, c: Books, d: Books, t: nat, tr: Transfer, n: nat)
    requires n < |tr.items| && LoadedAll(b, c, t, tr, n)
    requires var it := tr.items[n];
             Leaves(c, d, Loc(it.item, tr.source), it.quantity, it.quantity, TRANSFER, TransferShipment(t)) &&
             Shipment(d.log[|c.log|], t, tr, n)
    ensures LoadedAll(b, d, t, tr, n + 1)
  {
    PackedMore(tr, n);
    LessMore(b, c, d, Packed(tr, n), Loc(tr.items[n].item, tr.source), tr.items[n].quantity, Packed(tr, n + 1));
    LoadsMore(b.log, c.log, d.log[|c.log|], t, tr, n);
  }

  lemma OneMoreLoaded(b: Books, c: Books, t: nat, tr: Transfer, n: nat)
    requires n < |tr.items| && TransferOk(tr) && Sound(c) && LoadedAll(b, c, t, tr, n)
    requires LoadableUpTo(b, tr, n)
    ensures Loads(b, t, tr, n + 1, ShipLine(c, b.stock, t, Loc(tr.items[n].item, tr.source), tr.items[n].quantity))
  {
    var it := tr.items[n];
    var loc := Loc(it.item, tr.source);
    assert ItemOk(it);
    NotYetPacked(tr, n);
    assert OnHand(c, loc) == OnHand(b, loc) - Packed(tr, n)(loc);
    assert LoadableUpTo(b, tr, n + 1) <==> Loadable(b, tr, n);
    if loc in b.stock {
      ShipLineEffect(c, b.stock, t, loc, it.quantity);
      if Loadable(b, tr, n) {
        var d := ShipLine(c, b.stock, t, loc, it.quantity).value;
        LeavesShipment(c, d, t, tr, n);
        LoadedMore(b, c, d, t, tr, n);
      }
    }
  }

  lemma ShipUpToHealthy(b: Books, t: nat, n: nat)
    requires Healthy(b) && t < |b.transfers| && n <= |b.transfers[t].items| && ShipUpTo(b, t, n).Ok?
    ensures Healthy(ShipUpTo(b, t, n).value)
  {
    assert TransferOk(b.transfers[t]);
    var steps := ShipSteps(b, t, n);
    PathHealthy(b, steps);
  }

  lemma ShipOneMore(b: Books, t: nat, n: nat) returns (c: Books)
    requires t < |b.transfers| && 0 < n <= |b.transfers[t].items| && ShipUpTo(b, t, n - 1).Ok?
    ensures ShipUpTo(b, t, n - 1) == Ok(c)
    ensures var tr := b.transfers[t];
            ShipUpTo(b, t, n) == ShipLine(c, b.stock, t, Loc(tr.items[n - 1].item, tr.source), tr.items[n - 1].quantity)
  {
    c := ShipUpTo(b, t, n - 1).value;
  }

  lemma ShipStopped(b: Books, t: nat, n: nat)
    requires t < |b.transfers| && 0 < n <= |b.transfers[t].items|
    requires ShipUpTo(b, t, n - 1).Rejected? && !LoadableUpTo(b, b.transfers[t], n - 1)
    ensures Loads(b, t, b.transfers[t], n, ShipUpTo(b, t, n))
  {
  }

  lemma {:induction false} LoadingEffect(b: Books, t: nat, n: nat)
    requires Healthy(b) && t < |b.transfers| && n <= |b.transfers[t].items| && TransferOk(b.transfers[t])
    ensures Loads(b, t, b.transfers[t], n, ShipUpTo(b, t, n))
  {
    if n == 0 {
      NothingLoaded(b, t, b.transfers[t]);
    } else {
      LoadingEffect(b, t, n - 1);
      if ShipUpTo(b, t, n - 1).Ok? {
        ShipUpToHealthy(b, t, n - 1);
        var c := ShipOneMore(b, t, n);
        OneMoreLoaded(b, c, t, b.transfers[t], n - 1);
      } else {
        ShipStopped(b, t, n);
      }
    }
  }

  lemma NothingLoaded(b: Books, t: nat, tr: Transfer)
    ensures LoadedAll(b, b, t, tr, 0)
  {
    forall l: Loc ensures Queue(b, l) == Drop(Queue(b, l), Packed(tr, 0)(l)) { DropNothing(Queue(b, l), 0.0); }
    assert b.log[..|b.log|] == b.log;
  }

  /** The transfers with one of them in another state. */
  function WithStatus(ts: seq<Transfer>, t: nat, status: TransferStatus): seq<Transfer>
    requires t < |ts|
  {
    ts[t := ts[t].(status := status)]
  }

  /** A cancelled transfer is refused, and one that was shipped before is left as it is. */
  lemma ShipAgain(b: Books, t: nat)
    requires t < |b.transfers| && b.transfers[t].status != PENDING
    ensures Ship(b, t) == if b.transfers[t].status == CANCELLED then Rejected(WrongStatus) else Ok(b)
  {
  }

  /**
    Shipping a pending transfer: possible exactly when every item is configured and its source warehouse
    holds what is to be sent.  It takes exactly that, writes one movement for each line and puts the
    transfer on the road.
  */
  lemma ShipEffect(b: Books, t: nat)
    requires Healthy(b) && t < |b.transfers| && b.transfers[t].status == PENDING
    ensures Ship(b, t).Ok? <==> LoadableUpTo(b, b.transfers[t], |b.transfers[t].items|)
    ensures Ship(b, t).Ok? ==>
              var tr, d := b.transfers[t], Ship(b, t).value;
              && d.transfers == WithStatus(b.transfers, t, IN_TRANSIT)
              && LoadedAll(b, d.(transfers := b.transfers), t, tr, |tr.items|)
  {
    var n := |b.transfers[t].items|;
    assert TransferOk(b.transfers[t]);
    LoadingEffect(b, t, n);
    if ShipUpTo(b, t, n).Ok? {
      var c := ShipUpTo(b, t, n).value;
      var d := Ship(b, t).value;
      assert d.(transfers := b.transfers) == c;
    }
  }
}
