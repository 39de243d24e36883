/**
  The inventory tables as mutable state, and the transactions as the services run them: rows are
  read, written and searched step by step.  Each method is proved to leave the tables exactly as
  the books of `InventoryLedger` say, so every result about runs of those books is about this class.
*/
module InventoryStore {
  import opened Fifo
  import opened InventoryLedger
  import opened LedgerInvariants
  import opened LedgerSteps
  import opened LedgerRuns

  /** How a step inside a transaction ends. A failure aborts the whole transaction. */
  datatype Status = Done | Failed(error: Error) {
    predicate IsFailure() { Failed? }
    function PropagateFailure(): Status { this }
  }

  /** The tables and the status are what a transaction on the books gives. */
  predicate Follows(s: Status, after: Books, o: Outcome<Books>)
  {
    match o
    case Ok(d) => s == Done && after == d
    case Rejected(e) => s == Failed(e)
  }

  lemma ValueSnoc<T>(ls: seq<Lot<T>>, i: nat, cost: T -> real)
    requires i < |ls|
    ensures Value(ls[..i + 1], cost) == Value(ls[..i], cost) + ls[i].qty * cost(ls[i].tag)
  {
    assert ls[..i + 1] == ls[..i] + [ls[i]];
    ValueConcat(ls[..i], [ls[i]], cost);
    assert [ls[i]][1..] == [];
  }

  method TotalCost<T>(parts: seq<Lot<T>>, cost: T -> real) returns (total: real)
    ensures total == Value(parts, cost)
  {
    total := 0.0;
    for i := 0 to |parts|
      invariant total == Value(parts[..i], cost)
    {
      ValueSnoc(parts, i, cost);
      total := total + parts[i].qty * cost(parts[i].tag);
    }
    assert parts[..|parts|] == parts;
  }

  /** The copying loop of a transfer receipt. */
  method CopyAllocations(allocations: seq<Alloc>, alreadyReceived: real, quantity: real)
    returns (parts: seq<Lot<real>>, left: real)
    ensures parts == Slice(allocations, alreadyReceived, quantity).parts
    ensures left == Slice(allocations, alreadyReceived, quantity).left
  {
    var skip := alreadyReceived;
    parts, left := [], quantity;
    var i := 0;
    while i < |allocations| && left > 0.0
      invariant i <= |allocations|
      invariant Slice(allocations[..i], alreadyReceived, quantity) == Slicing(parts, skip, left)
    {
      var a := allocations[i];
      assert allocations[..i + 1][..i] == allocations[..i];
      if skip >= a.qty {
        skip := skip - a.qty;
      } else {
        var copied := Min(a.qty - skip, left);
        parts := parts + [Lot(copied, a.tag.unitCost)];
        left := left - copied;
        skip := 0.0;
      }
      i := i + 1;
    }
    SliceDone(allocations, alreadyReceived, quantity, i);
  }

  /** Once the quantity is copied, the allocations that follow are not looked at. */
  lemma {:induction false} SliceDone(allocations: seq<Alloc>, skip: real, q: real, i: nat)
    requires i <= |allocations| && (i < |allocations| ==> Slice(allocations[..i], skip, q).left <= 0.0)
    ensures Slice(allocations, skip, q) == Slice(allocations[..i], skip, q)
  {
    if i == |allocations| {
      assert allocations[..i] == allocations;
    } else if i < |allocations| {
      var n := |allocations| - 1;
      assert allocations[..n][..i] == allocations[..i];
      SliceDone(allocations[..n], skip, q, i);
    }
  }

  /** Once the quantity is consumed, the layers that follow are not looked at. */
  lemma {:induction false} ConsumeDone(layers: seq<LayerRow>, loc: Loc, q: real, i: nat)
    requires i <= |layers| && (i < |layers| ==> Consume(layers[..i], loc, q).left <= 0.0)
    ensures Consume(layers, loc, q).allocations == Consume(layers[..i], loc, q).allocations
    ensures Consume(layers, loc, q).left == Consume(layers[..i], loc, q).left
    ensures Consume(layers, loc, q).rows == Consume(layers[..i], loc, q).rows + layers[i..]
  {
    if i == |layers| {
      assert layers[..i] == layers;
    } else {
      var n := |layers| - 1;
      assert layers[..n][..i] == layers[..i];
      ConsumeDone(layers[..n], loc, q, i);
      assert layers[i..] == layers[..n][i..] + [layers[n]];
    }
  }

  lemma {:induction false} SellFails(b: Books, order: nat, kind: MovementType, lines: seq<SaleLine>, k: nat)
    requires k <= |lines|
    ensures SellLines(b, order, kind, lines[..k]).Rejected? ==>
              SellLines(b, order, kind, lines) == SellLines(b, order, kind, lines[..k])
    decreases |lines| - k
  {
    if k < |lines| {
      assert lines[..k + 1][..k] == lines[..k];
      SellFails(b, order, kind, lines, k + 1);
    } else {
      assert lines[..k] == lines;
    }
  }

  /** One more line of an order. */
  lemma SellNext(b: Books, d: Books, order: nat, kind: MovementType, lines: seq<SaleLine>, k: nat)
    requires k < |lines| && SellLines(b, order, kind, lines[..k]) == Ok(d)
    ensures SellLines(b, order, kind, lines[..k + 1]) == SellLine(d, order, kind, lines[k])
    ensures SellLine(d, order, kind, lines[k]).Rejected? ==> SellLines(b, order, kind, lines) == SellLine(d, order, kind, lines[k])
  {
    assert lines[..k + 1][..k] == lines[..k];
    SellFails(b, order, kind, lines, k + 1);
  }

  lemma {:induction false} ReserveFails(b: Books, order: nat, reqs: seq<Requirement>, rows: seq<Loc>, k: nat)
    requires k <= |reqs|
    ensures ReserveAll(b, order, reqs[..k], rows).Rejected? ==>
              ReserveAll(b, order, reqs, rows) == ReserveAll(b, order, reqs[..k], rows)
    decreases |reqs| - k
  {
    if k < |reqs| {
      assert reqs[..k + 1][..k] == reqs[..k];
      ReserveFails(b, order, reqs, rows, k + 1);
    } else {
      assert reqs[..k] == reqs;
    }
  }

  lemma {:induction false} CommitFails(b: Books, order: nat, kind: MovementType, k: nat)
    requires k <= |b.log|
    ensures CommitUpTo(b, order, kind, k).Rejected? ==> Commit(b, order, kind) == CommitUpTo(b, order, kind, k)
    decreases |b.log| - k
  {
    if k < |b.log| {
      CommitFails(b, order, kind, k + 1);
    }
  }

  /** Once the requirement is met, the stock rows that follow are not looked at. */
  lemma {:induction false} ReserveDone(b: Books, order: nat, r: Requirement, rows: seq<Loc>, k: nat)
    requires k <= |rows| && (k < |rows| ==> ReserveRows(b, order, r, rows[..k]).left <= 0.0)
    ensures ReserveRows(b, order, r, rows) == ReserveRows(b, order, r, rows[..k])
  {
    if k == |rows| {
      assert rows[..k] == rows;
    } else {
      var n := |rows| - 1;
      assert rows[..n][..k] == rows[..k];
      ReserveDone(b, order, r, rows[..n], k);
    }
  }

  function Taken(m: Movement, kind: MovementType): Movement
  {
    if m.ref.Reservation? then m.(ref := Reservation(m.ref.order, Committed), kind := kind) else m
  }

  /** The real log while reservations are being costed: those not reached yet are already taken over. */
  predicate Taking(log: seq<Movement>, books: seq<Movement>, was: seq<Movement>, held: seq<bool>, kind: MovementType, k: nat)
  {
    && |log| == |books| == |was| == |held|
    && forall j :: 0 <= j < |log| ==> log[j] == if k <= j && held[j] then Taken(was[j], kind) else books[j]
  }

  lemma TakingNext(log: seq<Movement>, books: seq<Movement>, was: seq<Movement>, held: seq<bool>, kind: MovementType, k: nat,
                   log2: seq<Movement>, books2: seq<Movement>)
    requires Taking(log, books, was, held, kind, k) && k < |log|
    requires |log2| == |log| && log2 == log[k := log2[k]] && books2 == books[k := log2[k]]
    ensures Taking(log2, books2, was, held, kind, k + 1)
  {
  }

  function Freed(m: Movement, status: ReservationStatus): Movement
  {
    if m.ref.Reservation? then m.(ref := Reservation(m.ref.order, status)) else m
  }

  /** The real log while reservations are being put back: those not reached yet are already claimed. */
  predicate Freeing(log: seq<Movement>, books: seq<Movement>, was: seq<Movement>, claimed: seq<bool>, status: ReservationStatus, k: nat)
  {
    && |log| == |books| >= |was| == |claimed|
    && forall j :: 0 <= j < |log| ==> log[j] == if k <= j < |was| && claimed[j] then Freed(was[j], status) else books[j]
  }

  /** What putting back an already claimed reservation does to the books. */
  function ReturnOne(b: Books, k: nat): Outcome<Books>
    requires k < |b.log| && b.log[k].ref.Reservation?
  {
    ReleaseOne(b, k, b.log[k].ref.status)
  }

  lemma {:induction false} ReleaseFails(b: Books, claim: Claim, status: ReservationStatus, k: nat)
    requires k <= |b.log|
    ensures ReleaseUpTo(b, claim, status, k).Rejected? ==> Release(b, claim, status) == ReleaseUpTo(b, claim, status, k)
    decreases |b.log| - k
  {
    if k < |b.log| {
      ReleaseFails(b, claim, status, k + 1);
    }
  }

  lemma {:induction false} ReleaseUpToFrame(b: Books, claim: Claim, status: ReservationStatus, n: nat)
    requires n <= |b.log| && ReleaseUpTo(b, claim, status, n).Ok?
    ensures var d := ReleaseUpTo(b, claim, status, n).value;
            forall i :: n <= i < |b.log| ==> d.log[i] == b.log[i]
  {
    if n != 0 {
      ReleaseUpToFrame(b, claim, status, n - 1);
    }
  }

  /** Putting back an already claimed row is releasing it on the books. */
  lemma ReturnAgrees(b: Books, d: Books, was: seq<Movement>, claimed: seq<bool>, status: ReservationStatus, k: nat)
    requires k < |was| && b == d.(log := b.log) && Freeing(b.log, d.log, was, claimed, status, k)
    requires claimed[k] && was[k].ref.Reservation? && d.log[k] == was[k]
    ensures match ReleaseOne(d, k, status)
            case Rejected(e) => ReturnOne(b, k) == Rejected(e)
            case Ok(d2) =>
              && ReturnOne(b, k).Ok?
              && ReturnOne(b, k).value == d2.(log := ReturnOne(b, k).value.log)
              && Freeing(ReturnOne(b, k).value.log, d2.log, was, claimed, status, k + 1)
  {
    assert b.log[k] == Freed(was[k], status);
  }

  lemma {:induction false} ShipFails(b: Books, t: nat, k: nat)
    requires t < |b.transfers| && k <= |b.transfers[t].items|
    ensures ShipUpTo(b, t, k).Rejected? ==> ShipUpTo(b, t, |b.transfers[t].items|) == ShipUpTo(b, t, k)
    decreases |b.transfers[t].items| - k
  {
    if k < |b.transfers[t].items| {
      ShipFails(b, t, k + 1);
    }
  }

  lemma {:induction false} PlanFails(items: seq<TransferItem>, lines: seq<ReceiptLine>, k: nat)
    requires k <= |lines|
    ensures PlanError(items, lines[..k]).Some? ==> PlanError(items, lines) == PlanError(items, lines[..k])
    decreases |lines| - k
  {
    if k < |lines| {
      assert lines[..k + 1][..k] == lines[..k];
      PlanFails(items, lines, k + 1);
    } else {
      assert lines[..k] == lines;
    }
  }

  lemma {:induction false} ReceiveFails(b: Books, t: nat, receipt: nat, lines: seq<ReceiptLine>, k: nat)
    requires k <= |lines| && t < |b.transfers|
    ensures ReceiveLines(b, t, receipt, lines[..k]).Rejected? ==>
              ReceiveLines(b, t, receipt, lines) == ReceiveLines(b, t, receipt, lines[..k])
    decreases |lines| - k
  {
    if k < |lines| {
      assert lines[..k + 1][..k] == lines[..k];
      ReceiveFails(b, t, receipt, lines, k + 1);
    } else {
      assert lines[..k] == lines;
    }
  }

  /** One more line of a receipt; those behind it still find their items as they were. */
  lemma ReceiveNext(b: Books, d: Books, t: nat, receipt: nat, lines: seq<ReceiptLine>, k: nat)
    requires k < |lines| && t < |b.transfers| == |d.transfers| && ReceiveLines(b, t, receipt, lines[..k]) == Ok(d)
    requires DistinctLines(lines) && Untouched(b.transfers[t], d.transfers[t], lines, k)
    ensures var o := InventoryLedger.ReceiveLine(d, t, receipt, lines[k]);
            && ReceiveLines(b, t, receipt, lines[..k + 1]) == o
            && (o.Rejected? ==> ReceiveLines(b, t, receipt, lines) == o)
            && (o.Ok? ==> |o.value.transfers| == |b.transfers| && Untouched(b.transfers[t], o.value.transfers[t], lines, k + 1))
  {
    assert lines[..k + 1][..k] == lines[..k];
    ReceiveFails(b, t, receipt, lines, k + 1);
  }

  /** The lines of a receipt that are still to be written find their items as they were planned. */
  predicate Untouched(was: Transfer, now: Transfer, lines: seq<ReceiptLine>, k: nat)
  {
    && |now.items| == |was.items|
    && forall j :: k <= j < |lines| && lines[j].index < |was.items| ==> now.items[lines[j].index] == was.items[lines[j].index]
  }

  /** Plans a receipt: the received quantity each line will leave on its item. */
  method PlanReceipt(items: seq<TransferItem>, lines: seq<ReceiptLine>) returns (s: Status, planned: seq<real>)
    ensures match PlanError(items, lines) case None => s == Done case Some(e) => s == Failed(e)
    ensures s == Done ==>
              && |planned| == |lines|
              && forall j :: 0 <= j < |lines| ==> lines[j].index < |items| && Planned(items[lines[j].index], lines[j].quantity) == Ok(planned[j])
  {
    planned := [];
    for k := 0 to |lines|
      invariant |planned| == k && PlanError(items, lines[..k]) == None
      invariant forall j :: 0 <= j < k ==> lines[j].index < |items| && Planned(items[lines[j].index], lines[j].quantity) == Ok(planned[j])
    {
      assert lines[..k + 1][..k] == lines[..k];
      PlanFails(items, lines, k + 1);
      if lines[k].index >= |items| { return Failed(TransferNotFound), []; }
      var p := Planned(items[lines[k].index], lines[k].quantity);
      if p.Rejected? { return Failed(OverReceipt), []; }
      planned := planned + [p.value];
    }
    assert lines[..|lines|] == lines;
    s := Done;
  }

  class Store {
    const opening: map<Loc, real>
    var configured: set<nat>
    var stock: map<Loc, real>
    var layers: seq<LayerRow>
    var log: seq<Movement>
    var transfers: seq<Transfer>

    function State(): Books
      reads this
    {
      Books(opening, configured, stock, layers, log, transfers)
    }

    ghost predicate Valid()
      reads this
    {
      Healthy(State())
    }

    constructor (items: set<nat>)
      ensures State() == Empty(items) && Valid()
    {
      opening := map[];
      configured, stock, layers, log, transfers := items, map[], [], [], [];
      new;
      EmptyHealthy(items);
    }

    // ---------------------------------------------------------------- costing

    method ConsumeFifoLayers(loc: Loc, quantity: real) returns (s: Status, allocations: seq<Alloc>)
      modifies this`layers
      ensures layers == Consume(old(layers), loc, quantity).rows
      ensures allocations == Consume(old(layers), loc, quantity).allocations
      ensures s == if Consume(old(layers), loc, quantity).left > 0.0 then Failed(LayersDoNotCover) else Done
    {
      var remaining := quantity;
      allocations := [];
      var i := 0;
      ghost var was := layers;
      while i < |layers| && remaining > 0.0
        invariant i <= |layers| == |was|
        invariant Consume(was[..i], loc, quantity) == Consumption(layers[..i], allocations, remaining)
        invariant forall k :: i <= k < |was| ==> layers[k] == was[k]
      {
        var l := layers[i];
        ghost var front := layers[..i];
        assert l == was[i] && was[..i + 1][..i] == was[..i];
        if Open(l, loc) {
          var consumed := Min(l.remaining, remaining);
          layers := layers[i := l.(remaining := l.remaining - consumed)];
          allocations := allocations + [Lot(consumed, TagOf(l))];
          remaining := remaining - consumed;
        }
        assert layers[..i + 1] == front + [layers[i]];
        i := i + 1;
      }
      ConsumeDone(was, loc, quantity, i);
      assert layers == layers[..i] + was[i..];
      s := if remaining > 0.0 then Failed(LayersDoNotCover) else Done;
    }

    /** Costs the outgoing movement i from the FIFO layers of its location. */
    method Issue(i: nat, loc: Loc, quantity: real) returns (s: Status)
      requires i < |log|
      modifies this`layers, this`log
      ensures
        var c := Consume(old(layers), loc, quantity);
        if quantity <= 0.0 then s == Failed(InvalidQuantity)
        else if loc.item !in configured then s == Failed(NotConfigured)
        else if c.left > 0.0 then s == Failed(LayersDoNotCover)
        else
          && s == Done && layers == c.rows
          && log == old(log)[i := old(log)[i].(cost := Some(IssueCost(c.allocations, quantity)), allocations := c.allocations)]
    {
      if quantity <= 0.0 { return Failed(InvalidQuantity); }
      if loc.item !in configured { return Failed(NotConfigured); }
      var allocations;
      s, allocations := ConsumeFifoLayers(loc, quantity);
      if s.IsFailure() { return; }
      var totalCost := TotalCost(allocations, TagCost());
      log := log[i := log[i].(cost := Some(Cost(totalCost / quantity, totalCost)))];
      log := log[i := log[i].(allocations := allocations)];
    }

    /** Costs the incoming movement i at a given unit cost, with a layer of its own. */
    method ReceiveAt(i: nat, loc: Loc, quantity: real, unitCost: Option<real>) returns (s: Status)
      requires i < |log|
      modifies this`layers, this`log
      ensures s == if loc.item !in configured then Failed(NotConfigured) else if unitCost.None? then Failed(UnitCostRequired) else Done
      ensures s == Done ==>
                && layers == old(layers) + NewRows(|old(layers)|, loc, i, [Lot(quantity, unitCost.value)])
                && log == old(log)[i := old(log)[i].(cost := Some(Cost(unitCost.value, quantity * unitCost.value)))]
    {
      if loc.item !in configured { return Failed(NotConfigured); }
      if unitCost.None? { return Failed(UnitCostRequired); }
      layers := layers + [LayerRow(|layers|, loc, Some(i), quantity, quantity, unitCost.value)];
      log := log[i := log[i].(cost := Some(Cost(unitCost.value, quantity * unitCost.value)))];
      s := Done;
    }

    /** Costs the receipt movement i with the stretch of its shipment that has not come in yet. */
    method ReceiveTransferCost(i: nat, shipment: nat, loc: Loc, quantity: real, alreadyReceived: real) returns (s: Status)
      requires i < |log| && shipment < |log|
      modifies this`layers, this`log
      ensures
        var c := Slice(old(log)[shipment].allocations, alreadyReceived, quantity);
        if loc.item !in configured then s == Failed(NotConfigured)
        else if old(log)[shipment].cost.None? then s == Failed(ShipmentMissing)
        else if quantity <= 0.0 then s == Failed(InvalidQuantity)
        else if c.left > 0.0 then s == Failed(TransferCostDoesNotCover)
        else
          var total := Value(c.parts, Identity());
          && s == Done && layers == old(layers) + NewRows(|old(layers)|, loc, i, c.parts)
          && log == old(log)[i := old(log)[i].(cost := Some(Cost(total / quantity, total)))]
    {
      if loc.item !in configured { return Failed(NotConfigured); }
      if log[shipment].cost.None? { return Failed(ShipmentMissing); }
      if quantity <= 0.0 { return Failed(InvalidQuantity); }
      var parts, left := CopyAllocations(log[shipment].allocations, alreadyReceived, quantity);
      if left > 0.0 { return Failed(TransferCostDoesNotCover); }
      ghost var was := layers;
      for k := 0 to |parts|
        invariant layers == was + NewRows(|was|, loc, i, parts)[..k] && log == old(log)
      {
        layers := layers + [LayerRow(|layers|, loc, Some(i), parts[k].qty, parts[k].qty, parts[k].tag)];
      }
      var total := TotalCost(parts, Identity());
      log := log[i := log[i].(cost := Some(Cost(total / quantity, total)))];
      s := Done;
    }

    /** Puts the allocations of movement `from` back on their layers and copies them to movement `to`. */
    method Restore(from: nat, to: nat, quantity: real) returns (s: Status)
      requires from < |log| && to < |log| && from != to && log[from].allocations != []
      modifies this`layers, this`log
      ensures
        var a := old(log)[from].allocations;
        if old(log)[from].loc.item !in configured then s == Failed(NotConfigured)
        else if quantity <= 0.0 then s == Failed(InvalidQuantity)
        else if exists x :: x in a && x.tag.layer >= |old(layers)| then s == Failed(LayerMissing)
        else
          && s == Done && layers == RestoreRows(old(layers), a)
          && log == old(log)[to := old(log)[to].(cost := Some(IssueCost(a, quantity)), allocations := a)]
    {
      var a := log[from].allocations;
      if log[from].loc.item !in configured { return Failed(NotConfigured); }
      if quantity <= 0.0 { return Failed(InvalidQuantity); }
      ghost var was := layers;
      for k := 0 to |a|
        invariant layers == RestoreRows(was, a[..k]) && log == old(log)
        invariant forall j :: 0 <= j < k ==> a[j].tag.layer < |was|
      {
        assert a[..k + 1][..k] == a[..k];
        var j := a[k].tag.layer;
        if j >= |layers| {
          assert a[k] in a;
          return Failed(LayerMissing);
        }
        layers := layers[j := layers[j].(remaining := layers[j].remaining + a[k].qty)];
      }
      assert a[..|a|] == a;
      var total := TotalCost(a, TagCost());
      log := log[to := log[to].(allocations := a)];
      log := log[to := log[to].(cost := Some(Cost(total / quantity, total)))];
      s := Done;
    }

    // ---------------------------------------------------------------- manual stock changes

    method AddStock(loc: Loc, quantity: real) returns (before: real)
      modifies this`stock
      ensures before == OnHand(old(State()), loc) && stock == old(stock)[loc := before + quantity]
    {
      if loc in stock {
        before := stock[loc];
        stock := stock[loc := stock[loc] + quantity];
      } else {
        before := 0.0;
        stock := stock[loc := quantity];
      }
    }

    method StockIn(loc: Loc, quantity: real, unitCost: Option<real>) returns (s: Status)
      modifies this
      ensures Follows(s, State(), InventoryLedger.StockIn(old(State()), loc, quantity, unitCost))
    {
      if quantity < 1.0 { return Failed(InvalidQuantity); }
      if loc.item !in configured { return Failed(NotConfigured); }
      var before := AddStock(loc, quantity);
      var i := |log|;
      log := log + [Movement(i, loc, STOCK_IN, quantity, Some(before), Some(before + quantity), NoReference, None, [])];
      s := ReceiveAt(i, loc, quantity, unitCost);
    }

    method Adjust(loc: Loc, quantity: real, unitCost: Option<real>) returns (s: Status)
      modifies this
      ensures Follows(s, State(), InventoryLedger.Adjust(old(State()), loc, quantity, unitCost))
    {
      if loc.item !in configured { return Failed(NotConfigured); }
      if loc !in stock { return Failed(StockNotFound); }
      var before := stock[loc];
      var after := before + quantity;
      if after < 0.0 { return Failed(InsufficientStock); }
      ghost var was := stock;
      stock := stock[loc := after];
      var i := |log|;
      log := log + [Movement(i, loc, ADJUSTMENT, quantity, Some(before), Some(after), NoReference, None, [])];
      if quantity > 0.0 {
        s := ReceiveAt(i, loc, quantity, unitCost);
      } else if quantity < 0.0 {
        s := Issue(i, loc, -quantity);
      } else {
        assert stock == was;
        s := Done;
      }
    }

    /** The steps every stock issue shares: check, decrement, record, cost. */
    method IssueStock(loc: Loc, quantity: real, seen: real, kind: MovementType, ref: Reference) returns (s: Status)
      modifies this
      ensures Follows(s, State(), Debit(old(State()), loc, quantity, seen, quantity, kind, ref))
    {
      var before := if loc in stock then stock[loc] else 0.0;
      stock := stock[loc := before - quantity];
      var i := |log|;
      log := log + [Movement(i, loc, kind, quantity, Some(seen), Some(seen - quantity), ref, None, [])];
      s := Issue(i, loc, quantity);
    }

    method Waste(loc: Loc, quantity: real) returns (s: Status)
      modifies this
      ensures Follows(s, State(), WasteStock(old(State()), loc, quantity))
    {
      if quantity < 1.0 { return Failed(InvalidQuantity); }
      if loc.item !in configured { return Failed(NotConfigured); }
      if loc !in stock { return Failed(StockNotFound); }
      if stock[loc] < quantity { return Failed(InsufficientStock); }
      s := IssueStock(loc, quantity, stock[loc], WASTE, NoReference);
    }

    /** fulfillRetail and fulfillCafe: direct issue of an order's lines. */
    method FulfillOrder(order: nat, kind: MovementType, lines: seq<SaleLine>) returns (s: Status)
      modifies this
      ensures Follows(s, State(), Sell(old(State()), order, kind, lines))
    {
      if HoldsReservation(log, order, {Committed}) { return Done; }
      ghost var was := State();
      for k := 0 to |lines|
        invariant SellLines(was, order, kind, lines[..k]) == Ok(State())
      {
        SellNext(was, State(), order, kind, lines, k);
        s := IssueLine(order, kind, lines[k]);
        if s.IsFailure() { return; }
      }
      assert lines[..|lines|] == lines;
      s := Done;
    }

    method IssueLine(order: nat, kind: MovementType, l: SaleLine) returns (s: Status)
      modifies this
      ensures Follows(s, State(), SellLine(old(State()), order, kind, l))
    {
      if l.loc.item !in configured { return Failed(NotConfigured); }
      if l.loc !in stock { return Failed(StockNotFound); }
      if stock[l.loc] < l.quantity { return Failed(InsufficientStock); }
      s := IssueStock(l.loc, l.quantity, stock[l.loc], kind, OrderSale(order));
    }

    // ---------------------------------------------------------------- reservations

    method ReserveRequirement(order: nat, r: Requirement, rows: seq<Loc>) returns (s: Status)
      requires Distinct(rows)
      modifies this
      ensures var after := ReserveRows(old(State()), order, r, rows);
              if after.left > 0.0 then s == Failed(InsufficientStock) else s == Done && State() == after.books
    {
      ghost var was := State();
      var remaining := r.quantity;
      var stocks := stock;
      var k := 0;
      while k < |rows| && remaining > 0.0
        invariant k <= |rows|
        invariant ReserveRows(was, order, r, rows[..k]) == Reserving(State(), remaining)
      {
        var loc := rows[k];
        assert rows[..k + 1][..k] == rows[..k];
        ReserveRowsOnHand(was, order, r, rows[..k], loc);
        var seen := if loc in stocks then stocks[loc] else 0.0;
        if loc.item == r.item && seen > 0.0 {
          var q := Min(seen, remaining);
          stock := stock[loc := stock[loc] - q];
          log := log + [Movement(|log|, loc, STOCK_OUT, q, Some(seen), Some(seen - q), Reservation(order, Active), None, [])];
          remaining := remaining - q;
        }
        k := k + 1;
      }
      ReserveDone(was, order, r, rows, k);
      s := if remaining > 0.0 then Failed(InsufficientStock) else Done;
    }

    method ReserveStock(order: nat, requirements: seq<Requirement>, rows: seq<Loc>) returns (s: Status)
      requires Distinct(rows)
      modifies this
      ensures Follows(s, State(), Reserve(old(State()), order, requirements, rows))
    {
      if HoldsReservation(log, order, {Active, Committed}) { return Done; }
      ghost var was := State();
      for k := 0 to |requirements|
        invariant ReserveAll(was, order, requirements[..k], rows) == Ok(State())
      {
        assert requirements[..k + 1][..k] == requirements[..k];
        ReserveFails(was, order, requirements, rows, k + 1);
        s := ReserveRequirement(order, requirements[k], rows);
        if s.IsFailure() { return; }
      }
      assert requirements[..|requirements|] == requirements;
      s := Done;
    }

    /** Takes over every active reservation of the order, before any of them is costed. */
    method TakeOver(order: nat, kind: MovementType) returns (held: seq<bool>)
      modifies this`log
      ensures |held| == |log| == |old(log)|
      ensures forall j :: 0 <= j < |log| ==> held[j] == HeldBy(old(log)[j], order)
      ensures Taking(log, old(log), old(log), held, kind, 0)
    {
      held := [];
      ghost var was := log;
      for k := 0 to |log|
        invariant |log| == |was| && |held| == k
        invariant forall j :: 0 <= j < k ==> held[j] == HeldBy(was[j], order) && log[j] == if held[j] then Taken(was[j], kind) else was[j]
        invariant forall j :: k <= j < |was| ==> log[j] == was[j]
      {
        held := held + [HeldBy(log[k], order)];
        if held[k] {
          log := log[k := log[k].(ref := Reservation(order, Committed), kind := kind)];
        }
      }
    }

    /** Costs a reservation that was taken over, unless it already has a cost. */
    method CostTaken(k: nat, ghost d: Books, kind: MovementType) returns (s: Status)
      requires k < |log| == |d.log| && State() == d.(log := log) && IsActive(d.log[k]) && log[k] == Taken(d.log[k], kind)
      modifies this`layers, this`log
      ensures match CommitOne(d, k, kind)
              case Rejected(e) => s == Failed(e)
              case Ok(n) => s == Done && |log| == |n.log| && State() == n.(log := log) && log == old(log)[k := n.log[k]]
    {
      s := Done;
      if log[k].allocations == [] {
        s := Issue(k, log[k].loc, log[k].quantity);
      }
    }

    method CostNext(k: nat, ghost d: Books, ghost was: seq<Movement>, ghost held: seq<bool>, kind: MovementType) returns (s: Status)
      requires k < |log| == |d.log| == |was| == |held| && State() == d.(log := log) && IsActive(d.log[k]) && d.log[k] == was[k]
      requires Taking(log, d.log, was, held, kind, k) && held[k]
      modifies this`layers, this`log
      ensures match CommitOne(d, k, kind)
              case Rejected(e) => s == Failed(e)
              case Ok(n) => s == Done && State() == n.(log := log) && Taking(log, n.log, was, held, kind, k + 1)
    {
      ghost var before := log;
      s := CostTaken(k, d, kind);
      if s == Done {
        TakingNext(before, d.log, was, held, kind, k, log, CommitOne(d, k, kind).value.log);
      }
    }

    method CommitReservation(order: nat, kind: MovementType) returns (s: Status)
      modifies this
      ensures Follows(s, State(), Commit(old(State()), order, kind))
    {
      ghost var was, done := State(), State();
      var held := TakeOver(order, kind);
      for k := 0 to |held|
        invariant |log| == |held| == |was.log| == |done.log| && State() == done.(log := log)
        invariant CommitUpTo(was, order, kind, k) == Ok(done)
        invariant Taking(log, done.log, was.log, held, kind, k)
      {
        CommitFails(was, order, kind, k + 1);
        CommitUpToFrame(was, order, kind, k);
        if held[k] {
          s := CostNext(k, done, was.log, held, kind);
          if s.IsFailure() { return; }
          done := CommitOne(done, k, kind).value;
        }
      }
      s := Done;
    }

    /** Claims reservations before any of them is put back. */
    method ClaimReservations(claim: Claim, status: ReservationStatus) returns (claimed: seq<bool>)
      modifies this`log
      ensures |claimed| == |log| == |old(log)|
      ensures forall j :: 0 <= j < |log| ==> claimed[j] == Claims(claim, old(log)[j])
      ensures Freeing(log, old(log), old(log), claimed, status, 0)
    {
      claimed := [];
      ghost var was := log;
      for k := 0 to |log|
        invariant |log| == |was| && |claimed| == k
        invariant forall j :: 0 <= j < k ==> claimed[j] == Claims(claim, was[j]) && log[j] == if claimed[j] then Freed(was[j], status) else was[j]
        invariant forall j :: k <= j < |was| ==> log[j] == was[j]
      {
        claimed := claimed + [Claims(claim, log[k])];
        if claimed[k] {
          log := log[k := log[k].(ref := Reservation(log[k].ref.order, status))];
        }
      }
    }

    /** Puts one claimed reservation back on stock and, if it had been costed, on its layers. */
    method PutBackReservation(k: nat) returns (s: Status)
      requires k < |log| && log[k].ref.Reservation?
      modifies this
      ensures Follows(s, State(), ReturnOne(old(State()), k))
    {
      var m, to := log[k], |log|;
      if m.allocations != [] && m.loc.item !in configured { return Failed(NotConfigured); }
      var before := AddStock(m.loc, m.quantity);
      log := log + [Movement(to, m.loc, RETURN, m.quantity, Some(before), Some(before + m.quantity),
                             ReservationRelease(m.ref.order), None, [])];
      s := Done;
      if m.allocations != [] {
        s := Restore(k, to, m.quantity);
      }
    }

    method PutBackNext(k: nat, ghost d: Books, ghost was: seq<Movement>, ghost claimed: seq<bool>, status: ReservationStatus) returns (s: Status)
      requires k < |was| == |claimed| <= |log| == |d.log| && State() == d.(log := log) && claimed[k]
      requires Freeing(log, d.log, was, claimed, status, k) && was[k].ref.Reservation? && d.log[k] == was[k]
      modifies this
      ensures match ReleaseOne(d, k, status)
              case Rejected(e) => s == Failed(e)
              case Ok(n) => s == Done && |log| == |n.log| && State() == n.(log := log) && Freeing(log, n.log, was, claimed, status, k + 1)
    {
      ReturnAgrees(State(), d, was, claimed, status, k);
      s := PutBackReservation(k);
    }

    /** releaseReservation, cancelReservation and expireReservations. */
    method ReleaseReservations(claim: Claim, status: ReservationStatus) returns (s: Status)
      modifies this
      ensures Follows(s, State(), Release(old(State()), claim, status))
    {
      ghost var was, done := State(), State();
      var claimed := ClaimReservations(claim, status);
      for k := 0 to |claimed|
        invariant |claimed| == |was.log| <= |log| == |done.log| && State() == done.(log := log)
        invariant ReleaseUpTo(was, claim, status, k) == Ok(done)
        invariant Freeing(log, done.log, was.log, claimed, status, k)
      {
        ReleaseFails(was, claim, status, k + 1);
        ReleaseUpToFrame(was, claim, status, k);
        if claimed[k] {
          s := PutBackNext(k, done, was.log, claimed, status);
          if s.IsFailure() { return; }
          done := ReleaseOne(done, k, status).value;
        }
      }
      s := Done;
    }

    // ---------------------------------------------------------------- warehouse transfers

    method CreateTransfer(source: nat, destination: nat, items: seq<TransferItem>) returns (s: Status)
      modifies this
      ensures Follows(s, State(), InventoryLedger.CreateTransfer(old(State()), source, destination, items))
    {
      if source == destination || |items| < 1 || |items| > 100 { return Failed(InvalidQuantity); }
      for k := 0 to |items|
        invariant forall j :: 0 <= j < k ==> items[j].quantity >= 0.1 && items[j].received == 0.0
        invariant State() == old(State())
      {
        if items[k].quantity < 0.1 || items[k].received != 0.0 { return Failed(InvalidQuantity); }
      }
      var itemIds: set<nat> := {};
      for k := 0 to |items|
        invariant itemIds == set j | 0 <= j < k :: items[j].item
        invariant forall i, j :: 0 <= i < j < k ==> items[i].item != items[j].item
        invariant State() == old(State())
      {
        if items[k].item in itemIds {
          var j :| 0 <= j < k && items[j].item == items[k].item;
          return Failed(RepeatedItem);
        }
        itemIds := itemIds + {items[k].item};
      }
      transfers := transfers + [Transfer(source, destination, items, PENDING, [])];
      s := Done;
    }

    method CancelTransfer(t: nat) returns (s: Status)
      modifies this
      ensures Follows(s, State(), InventoryLedger.CancelTransfer(old(State()), t))
    {
      if t >= |transfers| { return Failed(TransferNotFound); }
      if transfers[t].status == CANCELLED { return Done; }
      if transfers[t].status != PENDING { return Failed(WrongStatus); }
      transfers := transfers[t := transfers[t].(status := CANCELLED)];
      s := Done;
    }

    method ShipLine(stocks: map<Loc, real>, t: nat, loc: Loc, quantity: real) returns (s: Status)
      modifies this
      ensures Follows(s, State(), InventoryLedger.ShipLine(old(State()), stocks, t, loc, quantity))
    {
      if loc.item !in configured { return Failed(NotConfigured); }
      if loc !in stocks || stocks[loc] < quantity { return Failed(InsufficientStock); }
      if (if loc in stock then stock[loc] else 0.0) < quantity { return Failed(InsufficientStock); }
      s := IssueStock(loc, quantity, stocks[loc], TRANSFER, TransferShipment(t));
    }

    /** The ship loop; the source stock rows are read once, before it. */
    method ShipLines(t: nat) returns (s: Status)
      requires t < |transfers|
      modifies this
      ensures Follows(s, State(), ShipUpTo(old(State()), t, |old(transfers)[t].items|))
    {
      ghost var was := State();
      var tr, stocks := transfers[t], stock;
      for k := 0 to |tr.items|
        invariant ShipUpTo(was, t, k) == Ok(State())
      {
        ShipFails(was, t, k + 1);
        s := ShipLine(stocks, t, Loc(tr.items[k].item, tr.source), tr.items[k].quantity);
        if s.IsFailure() { return; }
      }
      s := Done;
    }

    /** Ships a pending transfer. */
    method ShipTransfer(t: nat) returns (s: Status)
      modifies this
      ensures Follows(s, State(), Ship(old(State()), t))
    {
      if t >= |transfers| { return Failed(TransferNotFound); }
      var tr := transfers[t];
      if tr.status in {IN_TRANSIT, PARTIALLY_RECEIVED, RECEIVED} { return Done; }
      if tr.status != PENDING { return Failed(WrongStatus); }
      ghost var was := State();
      s := ShipLines(t);
      if s.IsFailure() { return; }
      ShipFrame(was, t, |tr.items|);
      transfers := transfers[t := transfers[t].(status := IN_TRANSIT)];
      s := Done;
    }

    /** Writes one planned line of a receipt. */
    method ReceiveLine(t: nat, receipt: nat, line: ReceiptLine, next: real) returns (s: Status)
      requires t < |transfers| && line.index < |transfers[t].items|
      requires Planned(transfers[t].items[line.index], line.quantity) == Ok(next)
      modifies this
      ensures Follows(s, State(), InventoryLedger.ReceiveLine(old(State()), t, receipt, line))
    {
      var tr := transfers[t];
      var item := tr.items[line.index];
      var delta := next - item.received;
      if item.item !in configured { return Failed(NotConfigured); }
      transfers := transfers[t := tr.(items := tr.items[line.index := item.(received := next)])];
      var loc := Loc(item.item, tr.destination);
      var before := AddStock(loc, delta);
      var to := |log|;
      var from := FindShipment(log, t, Loc(item.item, tr.source));
      log := log + [Movement(to, loc, TRANSFER, delta, Some(before), Some(before + delta), TransferReceipt(t, receipt), None, [])];
      if from >= to { return Failed(ShipmentMissing); }
      s := ReceiveTransferCost(to, from, loc, delta, item.received);
    }

    method ReceiveTransfer(t: nat, key: nat, lines: seq<ReceiptLine>) returns (s: Status)
      modifies this
      ensures Follows(s, State(), InventoryLedger.ReceiveTransfer(old(State()), t, key, lines))
    {
      if |lines| < 1 || |lines| > 100 { return Failed(InvalidQuantity); }
      if exists i :: 0 <= i < |lines| && lines[i].quantity <= 0.0 { return Failed(InvalidQuantity); }
      if !DistinctLines(lines) { return Failed(RepeatedItem); }
      if t >= |transfers| { return Failed(TransferNotFound); }
      var tr := transfers[t];
      var r := FindReceipt(tr.receipts, key);
      if r < |tr.receipts| {
        return if tr.receipts[r].request == lines then Done else Failed(IdempotencyConflict);
      }
      if tr.status != IN_TRANSIT && tr.status != PARTIALLY_RECEIVED { return Failed(WrongStatus); }

      var planned: seq<real>;
      s, planned := PlanReceipt(tr.items, lines);
      if s.IsFailure() { return; }
      s := ReceivePlanned(t, r, lines, planned);
      if s.IsFailure() { return; }
      var after := transfers[t];
      transfers := transfers[t := after.(receipts := after.receipts + [Receipt(key, lines)], status := StatusAfter(after.items))];
      s := Done;
    }

    method ReceivePlanned(t: nat, r: nat, lines: seq<ReceiptLine>, planned: seq<real>) returns (s: Status)
      requires t < |transfers| && |planned| == |lines| && DistinctLines(lines)
      requires forall j :: 0 <= j < |lines| ==>
                 lines[j].index < |transfers[t].items| && Planned(transfers[t].items[lines[j].index], lines[j].quantity) == Ok(planned[j])
      modifies this
      ensures Follows(s, State(), ReceiveLines(old(State()), t, r, lines))
    {
      ghost var was := State();
      for k := 0 to |lines|
        invariant ReceiveLines(was, t, r, lines[..k]) == Ok(State()) && |transfers| == |was.transfers|
        invariant Untouched(was.transfers[t], transfers[t], lines, k)
      {
        ReceiveNext(was, State(), t, r, lines, k);
        s := ReceiveLine(t, r, lines[k], planned[k]);
        if s.IsFailure() { return; }
      }
      assert lines[..|lines|] == lines;
      s := Done;
    }

    // ---------------------------------------------------------------- the database transaction

    method Dispatch(op: Op) returns (s: Status)
      requires WellPosed(op)
      modifies this
      ensures Follows(s, State(), Attempt(old(State()), op))
    {
      match op
      case OpStockIn(loc, q, c) => s := StockIn(loc, q, c);
      case OpAdjust(loc, q, c) => s := Adjust(loc, q, c);
      case OpWaste(loc, q) => s := Waste(loc, q);
      case OpSell(o, k, ls) => s := FulfillOrder(o, k, ls);
      case OpReserve(o, rs, rows) => s := ReserveStock(o, rs, rows);
      case OpCommit(o, k) => s := CommitReservation(o, k);
      case OpRelease(c, st) =>
        if st in {Released, Cancelled, Expired} { s := ReleaseReservations(c, st); } else { s := Failed(WrongStatus); }
      case OpCreate(from, to, items) => s := CreateTransfer(from, to, items);
      case OpShip(t) => s := ShipTransfer(t);
      case OpReceive(t, k, ls) => s := ReceiveTransfer(t, k, ls);
      case OpCancelTransfer(t) => s := CancelTransfer(t);
    }

    /** A transaction either happens or leaves no trace, and keeps the books healthy. */
    method Transact(op: Op) returns (s: Status)
      requires Valid() && WellPosed(op)
      modifies this
      ensures Valid() && State() == Apply(old(State()), op)
      ensures Follows(s, State(), Attempt(old(State()), op))
    {
      var was := State();
      ApplyHealthy(was, op);
      s := Dispatch(op);
      if s.IsFailure() {
        configured, stock, layers, log, transfers := was.configured, was.stock, was.layers, was.log, was.transfers;
      }
    }
  }
}
