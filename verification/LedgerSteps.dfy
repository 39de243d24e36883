/**
  Every transaction is a sequence of small steps on the books.  An invariant kept by each step is
  kept by every transaction and every run; the lemmas here do that decomposition once.
*/
module LedgerSteps {
  import opened Fifo
  import opened InventoryLedger
  import opened LedgerInvariants

  predicate ItemOk(i: TransferItem) { i.quantity >= 0.1 && 0.0 <= i.received <= i.quantity }

  predicate TransferOk(t: Transfer)
  {
    && t.source != t.destination && DistinctItems(t.items)
    && (forall i :: 0 <= i < |t.items| ==> ItemOk(t.items[i]))
  }

  predicate TransfersOk(b: Books)
  {
    forall t :: 0 <= t < |b.transfers| ==> TransferOk(b.transfers[t])
  }

  predicate AllocationsPositive(log: seq<Movement>)
  {
    forall i :: 0 <= i < |log| ==> Positive(log[i].allocations)
  }

  datatype Step =
    | Crediting(loc: Loc, q: real, parts: seq<Lot<real>>, cost: Cost, kind: MovementType, ref: Reference)
    | Debiting(loc: Loc, q: real, recorded: real, kind: MovementType, ref: Reference)
    | Noting(loc: Loc)
    | Holding(order: nat, loc: Loc, q: real)
    | Committing(i: nat, kind: MovementType)
    | Releasing(i: nat, status: ReservationStatus)
    | Transferring(transfers: seq<Transfer>)

  function Note(b: Books, loc: Loc): Books
  {
    var have := OnHand(b, loc);
    b.(log := b.log + [Movement(|b.log|, loc, ADJUSTMENT, 0.0, Some(have), Some(have), NoReference, None, [])])
  }

  function Settle(b: Books, o: Outcome<Books>): Books
  {
    match o case Ok(d) => d case Rejected(_) => b
  }

  function Do(b: Books, s: Step): Books
  {
    match s
    case Crediting(loc, q, parts, cost, kind, ref) => Credit(b, loc, q, parts, cost, kind, ref)
    case Debiting(loc, q, recorded, kind, ref) => Settle(b, Debit(b, loc, q, OnHand(b, loc), recorded, kind, ref))
    case Noting(loc) => Note(b, loc)
    case Holding(order, loc, q) => ReserveAt(b, order, loc, q)
    case Committing(i, kind) => if i < |b.log| && IsActive(b.log[i]) then Settle(b, CommitOne(b, i, kind)) else b
    case Releasing(i, status) => if i < |b.log| && IsActive(b.log[i]) then Settle(b, ReleaseOne(b, i, status)) else b
    case Transferring(ts) => b.(transfers := ts)
  }

  predicate CanDo(b: Books, s: Step)
  {
    match s
    case Crediting(loc, q, parts, cost, kind, ref) =>
      q > 0.0 && loc.item in b.configured && Positive(parts) && Sum(parts) == q && cost.totalCost == Value(parts, Identity()) &&
      (ref == NoReference || ref.TransferReceipt?) && (ref == NoReference ==> parts == [Lot(q, cost.unitCost)])
    case Debiting(loc, q, recorded, kind, ref) =>
      0.0 < q <= OnHand(b, loc) && (ref == NoReference || ref.OrderSale? || ref.TransferShipment?) &&
      Debit(b, loc, q, OnHand(b, loc), recorded, kind, ref).Ok?
    case Noting(loc) => true
    case Holding(order, loc, q) => 0.0 < q <= OnHand(b, loc)
    case Committing(i, kind) => i < |b.log| && IsActive(b.log[i]) && CommitOne(b, i, kind).Ok?
    case Releasing(i, status) =>
      i < |b.log| && IsActive(b.log[i]) && status in {Released, Cancelled, Expired} && ReleaseOne(b, i, status).Ok?
    case Transferring(ts) => forall t :: 0 <= t < |ts| ==> TransferOk(ts[t])
  }

  function Play(b: Books, steps: seq<Step>): Books
  {
    if steps == [] then b else Do(Play(b, steps[..|steps| - 1]), steps[|steps| - 1])
  }

  predicate Legal(b: Books, steps: seq<Step>)
  {
    steps == [] ||
    (Legal(b, steps[..|steps| - 1]) && CanDo(Play(b, steps[..|steps| - 1]), steps[|steps| - 1]))
  }

  predicate AboutTransfers(r: Reference) { r.TransferShipment? || r.TransferReceipt? }

  /** Steps that neither change the transfers nor write a movement about one. */
  predicate Internal(s: Step)
  {
    match s
    case Crediting(_, _, _, _, _, ref) => !AboutTransfers(ref)
    case Debiting(_, _, _, _, ref) => !AboutTransfers(ref)
    case Transferring(_) => false
    case _ => true
  }

  predicate AllInternal(steps: seq<Step>) { forall i :: 0 <= i < |steps| ==> Internal(steps[i]) }

  predicate ForTransfers(op: Op) { op.OpCreate? || op.OpShip? || op.OpReceive? || op.OpCancelTransfer? }

  lemma Then(b: Books, steps: seq<Step>, s: Step)
    requires Legal(b, steps) && CanDo(Play(b, steps), s)
    ensures Legal(b, steps + [s]) && Play(b, steps + [s]) == Do(Play(b, steps), s)
  {
    assert (steps + [s])[..|steps|] == steps;
  }

  // ------------------------------------------------------------------ slices of a shipment

  /** The copying loop, one allocation further. */
  function SliceStep(s: Slicing, a: Alloc): Slicing
  {
    if s.left <= 0.0 then s
    else if s.skip >= a.qty then s.(skip := s.skip - a.qty)
    else
      var copied := Min(a.qty - s.skip, s.left);
      Slicing(s.parts + [Lot(copied, a.tag.unitCost)], 0.0, s.left - copied)
  }

  /** What the copying loop holds after reading some allocations: the stretch [skip, skip + q) of them. */
  function SliceOf(ls: seq<Alloc>, skip: real, q: real): Slicing
  {
    Slicing(Retag(Take(Drop(ls, skip), q), TagCost()),
            if skip < Sum(ls) then 0.0 else skip - Sum(ls),
            q - Min(q, Sum(Drop(ls, skip))))
  }

  lemma RetagSnoc(t: seq<Alloc>, c: real, a: Alloc)
    ensures Retag(t + [Lot(c, a.tag)], TagCost()) == Retag(t, TagCost()) + [Lot(c, a.tag.unitCost)]
  {
  }

  lemma SliceOfSnoc(front: seq<Alloc>, a: Alloc, skip: real, q: real)
    requires Positive(front) && a.qty > 0.0 && skip >= 0.0 && q > 0.0
    ensures SliceOf(front + [a], skip, q) == SliceStep(SliceOf(front, skip, q), a)
  {
    if skip < Sum(front) {
      SliceOfSnocBehind(front, a, skip, q);
    } else {
      SliceOfSnocInside(front, a, skip, q);
    }
  }

  lemma SliceOfSnocBehind(front: seq<Alloc>, a: Alloc, skip: real, q: real)
    requires Positive(front) && a.qty > 0.0 && 0.0 <= skip < Sum(front) && q > 0.0
    ensures SliceOf(front + [a], skip, q) == SliceStep(SliceOf(front, skip, q), a)
  {
    SumLast(front, a);
    SliceOne(front, a, skip, q);
    var t, left := Take(Drop(front, skip), q), q - (Sum(front) - skip);
    if left > 0.0 {
      RetagSnoc(t, Min(a.qty, left), a);
    } else {
      assert t + [] == t;
    }
  }

  lemma SliceOfSnocInside(front: seq<Alloc>, a: Alloc, skip: real, q: real)
    requires Positive(front) && a.qty > 0.0 && skip >= Sum(front) && skip >= 0.0 && q > 0.0
    ensures SliceOf(front + [a], skip, q) == SliceStep(SliceOf(front, skip, q), a)
  {
    SumLast(front, a);
    SliceOne(front, a, skip, q);
    if skip - Sum(front) < a.qty {
      RetagSnoc([], Min(a.qty - (skip - Sum(front)), q), a);
      assert [] + [Lot(Min(a.qty - (skip - Sum(front)), q), a.tag)] == [Lot(Min(a.qty - (skip - Sum(front)), q), a.tag)];
    }
  }

  lemma SumLast(front: seq<Alloc>, a: Alloc)
    ensures Sum(front + [a]) == Sum(front) + a.qty
  {
    SumConcat(front, [a]);
    OneLot(a);
  }

  lemma {:induction false} SliceMeaning(allocations: seq<Alloc>, skip: real, q: real)
    requires Positive(allocations) && skip >= 0.0 && q > 0.0
    ensures Slice(allocations, skip, q) == SliceOf(allocations, skip, q)
  {
    if allocations == [] {
      assert Slice(allocations, skip, q) == Slicing([], skip, q);
    } else {
      var n := |allocations| - 1;
      SliceMeaning(allocations[..n], skip, q);
      SliceOfSnoc(allocations[..n], allocations[n], skip, q);
      assert allocations == allocations[..n] + [allocations[n]];
    }
  }

  lemma SliceOne(front: seq<Alloc>, a: Alloc, skip: real, q: real)
    requires Positive(front) && a.qty > 0.0 && skip >= 0.0 && q > 0.0
    ensures var gone := Sum(front);
            && (skip < gone ==>
                 Drop(front + [a], skip) == Drop(front, skip) + [a] &&
                 Sum(Drop(front, skip)) == gone - skip &&
                 Sum(Drop(front + [a], skip)) == gone - skip + a.qty &&
                 Take(Drop(front + [a], skip), q) ==
                   Take(Drop(front, skip), q) + (if q - (gone - skip) <= 0.0 then [] else [Lot(Min(a.qty, q - (gone - skip)), a.tag)]))
            && (skip >= gone ==>
                 Drop(front, skip) == [] &&
                 Drop(front + [a], skip) == (if skip - gone >= a.qty then [] else [Lot(a.qty - (skip - gone), a.tag)]) &&
                 Sum(Drop(front + [a], skip)) == (if skip - gone >= a.qty then 0.0 else a.qty - (skip - gone)) &&
                 Take(Drop(front + [a], skip), q) ==
                   (if skip - gone >= a.qty then [] else [Lot(Min(a.qty - (skip - gone), q), a.tag)]))
  {
    SumPositive(front);
    DropConcat(front, [a], skip);
    assert [a][1..] == [];
    if skip < Sum(front) {
      SplitQuantity(front, skip);
      SumConcat(Drop(front, skip), [a]);
      assert Sum([a]) == a.qty;
      TakeConcat(Drop(front, skip), [a], q);
    } else {
      TakeAll(front, skip);
      var d := Drop(front + [a], skip);
      if skip - Sum(front) < a.qty {
        assert d == [Lot(a.qty - (skip - Sum(front)), a.tag)];
        assert d[1..] == [];
      }
    }
  }

  lemma {:induction false} RetagMeasures(ls: seq<Lot<CostTag>>)
    ensures Sum(Retag(ls, TagCost())) == Sum(ls)
    ensures Value(Retag(ls, TagCost()), Identity()) == Value(ls, TagCost())
  {
    if ls != [] {
      assert Retag(ls, TagCost())[1..] == Retag(ls[1..], TagCost());
      RetagMeasures(ls[1..]);
    }
  }

  /** The copied layers are exactly the stretch [skip, skip + q) of what was shipped. */
  lemma SliceExact(allocations: seq<Alloc>, skip: real, q: real)
    requires Positive(allocations) && skip >= 0.0 && q > 0.0 && Slice(allocations, skip, q).left <= 0.0
    ensures Positive(Slice(allocations, skip, q).parts) && Sum(Slice(allocations, skip, q).parts) == q
    ensures Value(Slice(allocations, skip, q).parts, Identity()) == Value(Take(Drop(allocations, skip), q), TagCost())
  {
    SliceMeaning(allocations, skip, q);
    SplitQuantity(allocations, skip);
    SplitQuantity(Drop(allocations, skip), q);
    RetagMeasures(Take(Drop(allocations, skip), q));
  }

  // ------------------------------------------------------------------ decomposing the transactions

  lemma OneCredit(b: Books, loc: Loc, q: real, unitCost: real, kind: MovementType) returns (steps: seq<Step>)
    requires q > 0.0 && loc.item in b.configured
    ensures Legal(b, steps)
    ensures AllInternal(steps)
    ensures Play(b, steps) == ReceiveStock(b, loc, q, unitCost, kind)
  {
    var parts := [Lot(q, unitCost)];
    assert parts[1..] == [];
    var s := Crediting(loc, q, parts, Cost(unitCost, q * unitCost), kind, NoReference);
    Then(b, [], s);
    steps := [] + [s];
  }

  lemma OneDebit(b: Books, loc: Loc, q: real, recorded: real, kind: MovementType, ref: Reference) returns (steps: seq<Step>)
    requires q <= OnHand(b, loc) && (ref == NoReference || ref.OrderSale? || ref.TransferShipment?)
    requires Debit(b, loc, q, OnHand(b, loc), recorded, kind, ref).Ok?
    ensures Legal(b, steps)
    ensures !AboutTransfers(ref) ==> AllInternal(steps)
    ensures Play(b, steps) == Debit(b, loc, q, OnHand(b, loc), recorded, kind, ref).value
  {
    var s := Debiting(loc, q, recorded, kind, ref);
    Then(b, [], s);
    steps := [] + [s];
  }

  lemma {:induction false} SellSteps(b: Books, order: nat, kind: MovementType, lines: seq<SaleLine>) returns (steps: seq<Step>)
    requires SellLines(b, order, kind, lines).Ok?
    ensures Legal(b, steps) && Play(b, steps) == SellLines(b, order, kind, lines).value
    ensures AllInternal(steps)
  {
    if lines == [] {
      steps := [];
    } else {
      var n := |lines| - 1;
      steps := SellSteps(b, order, kind, lines[..n]);
      var s := Debiting(lines[n].loc, lines[n].quantity, lines[n].quantity, kind, OrderSale(order));
      Then(b, steps, s);
      steps := steps + [s];
    }
  }

  lemma {:induction false} ReserveRowsOnHand(b: Books, order: nat, r: Requirement, rows: seq<Loc>, loc: Loc)
    requires loc !in rows
    ensures OnHand(ReserveRows(b, order, r, rows).books, loc) == OnHand(b, loc)
  {
    if rows != [] {
      ReserveRowsOnHand(b, order, r, rows[..|rows| - 1], loc);
    }
  }

  predicate Distinct<T(==)>(s: seq<T>)
  {
    forall i, j :: 0 <= i < j < |s| ==> s[i] != s[j]
  }

  lemma {:induction false} ReserveRowsSteps(b: Books, order: nat, r: Requirement, rows: seq<Loc>, b0: Books, steps0: seq<Step>)
    returns (steps: seq<Step>)
    requires Distinct(rows) && Legal(b0, steps0) && Play(b0, steps0) == b
    ensures Legal(b0, steps) && Play(b0, steps) == ReserveRows(b, order, r, rows).books
    ensures AllInternal(steps0) ==> AllInternal(steps)
  {
    if rows == [] {
      steps := steps0;
    } else {
      var n := |rows| - 1;
      steps := ReserveRowsSteps(b, order, r, rows[..n], b0, steps0);
      var s := ReserveRows(b, order, r, rows[..n]);
      ReserveRowsOnHand(b, order, r, rows[..n], rows[n]);
      if Eligible(b, r.item, rows[n]) && s.left > 0.0 {
        var step := Holding(order, rows[n], Min(OnHand(b, rows[n]), s.left));
        Then(b0, steps, step);
        steps := steps + [step];
      }
    }
  }

  lemma {:induction false} ReserveAllSteps(b: Books, order: nat, reqs: seq<Requirement>, rows: seq<Loc>) returns (steps: seq<Step>)
    requires Distinct(rows) && ReserveAll(b, order, reqs, rows).Ok?
    ensures Legal(b, steps) && Play(b, steps) == ReserveAll(b, order, reqs, rows).value
    ensures AllInternal(steps)
  {
    if reqs == [] {
      steps := [];
    } else {
      var n := |reqs| - 1;
      steps := ReserveAllSteps(b, order, reqs[..n], rows);
      steps := ReserveRowsSteps(ReserveAll(b, order, reqs[..n], rows).value, order, reqs[n], rows, b, steps);
    }
  }

  lemma CommitStep(b: Books, order: nat, kind: MovementType, n: nat, b0: Books, steps0: seq<Step>) returns (steps: seq<Step>)
    requires n < |b.log| && HeldBy(b.log[n], order) && CommitOne(b, n, kind).Ok?
    requires Legal(b0, steps0) && Play(b0, steps0) == b
    ensures Legal(b0, steps) && Play(b0, steps) == CommitOne(b, n, kind).value
    ensures AllInternal(steps0) ==> AllInternal(steps)
  {
    Then(b0, steps0, Committing(n, kind));
    steps := steps0 + [Committing(n, kind)];
  }

  lemma {:induction false} CommitSteps(b: Books, order: nat, kind: MovementType, n: nat) returns (steps: seq<Step>)
    requires n <= |b.log| && CommitUpTo(b, order, kind, n).Ok?
    ensures Legal(b, steps) && Play(b, steps) == CommitUpTo(b, order, kind, n).value
    ensures AllInternal(steps)
  {
    if n == 0 {
      steps := [];
    } else {
      steps := CommitSteps(b, order, kind, n - 1);
      var d := CommitUpTo(b, order, kind, n - 1).value;
      if HeldBy(d.log[n - 1], order) {
        steps := CommitStep(d, order, kind, n - 1, b, steps);
      }
    }
  }

  lemma ReleaseStep(b: Books, n: nat, status: ReservationStatus, b0: Books, steps0: seq<Step>) returns (steps: seq<Step>)
    requires n < |b.log| && IsActive(b.log[n]) && status in {Released, Cancelled, Expired} && ReleaseOne(b, n, status).Ok?
    requires Legal(b0, steps0) && Play(b0, steps0) == b
    ensures Legal(b0, steps) && Play(b0, steps) == ReleaseOne(b, n, status).value
    ensures AllInternal(steps0) ==> AllInternal(steps)
  {
    Then(b0, steps0, Releasing(n, status));
    steps := steps0 + [Releasing(n, status)];
  }

  lemma {:induction false} ReleaseSteps(b: Books, claim: Claim, status: ReservationStatus, n: nat) returns (steps: seq<Step>)
    requires n <= |b.log| && status in {Released, Cancelled, Expired} && ReleaseUpTo(b, claim, status, n).Ok?
    ensures Legal(b, steps) && Play(b, steps) == ReleaseUpTo(b, claim, status, n).value
    ensures AllInternal(steps)
  {
    if n == 0 {
      steps := [];
    } else {
      steps := ReleaseSteps(b, claim, status, n - 1);
      var d := ReleaseUpTo(b, claim, status, n - 1).value;
      if Claims(claim, d.log[n - 1]) {
        steps := ReleaseStep(d, n - 1, status, b, steps);
      }
    }
  }

  lemma {:induction false} ShipFrame(b: Books, t: nat, n: nat)
    requires t < |b.transfers| && n <= |b.transfers[t].items| && ShipUpTo(b, t, n).Ok?
    ensures var d := ShipUpTo(b, t, n).value;
            && d.transfers == b.transfers && d.configured == b.configured
            && forall loc: Loc :: (forall j :: 0 <= j < n ==> Loc(b.transfers[t].items[j].item, b.transfers[t].source) != loc) ==>
                 OnHand(d, loc) == OnHand(b, loc)
  {
    if n != 0 {
      ShipFrame(b, t, n - 1);
    }
  }

  lemma {:induction false} ShipSteps(b: Books, t: nat, n: nat) returns (steps: seq<Step>)
    requires t < |b.transfers| && n <= |b.transfers[t].items| && ShipUpTo(b, t, n).Ok?
    requires DistinctItems(b.transfers[t].items)
    ensures Legal(b, steps) && Play(b, steps) == ShipUpTo(b, t, n).value
  {
    if n == 0 {
      steps := [];
    } else {
      steps := ShipSteps(b, t, n - 1);
      ShipFrame(b, t, n - 1);
      var line := b.transfers[t].items[n - 1];
      var loc := Loc(line.item, b.transfers[t].source);
      assert OnHand(ShipUpTo(b, t, n - 1).value, loc) == OnHand(b, loc);
      var s := Debiting(loc, line.quantity, line.quantity, TRANSFER, TransferShipment(t));
      Then(b, steps, s);
      steps := steps + [s];
    }
  }

  /** The stock movement of a receipt line, as a step. */
  function ReceiptCredit(b: Books, t: nat, receipt: nat, line: ReceiptLine): Step
    requires t < |b.transfers| && ReceiveLine(b, t, receipt, line).Ok?
  {
    var tr := b.transfers[t];
    var it := tr.items[line.index];
    var delta := Planned(it, line.quantity).value - it.received;
    var parts := Slice(b.log[FindShipment(b.log, t, Loc(it.item, tr.source))].allocations, it.received, delta).parts;
    var total := Value(parts, Identity());
    Crediting(Loc(it.item, tr.destination), delta, parts, Cost(total / delta, total), TRANSFER, TransferReceipt(t, receipt))
  }

  lemma ReceiptCredits(b: Books, t: nat, receipt: nat, line: ReceiptLine)
    requires t < |b.transfers| && TransfersOk(b) && AllocationsPositive(b.log)
    requires line.quantity > 0.0 && ReceiveLine(b, t, receipt, line).Ok?
    ensures CanDo(b, ReceiptCredit(b, t, receipt, line))
  {
    var tr := b.transfers[t];
    assert TransferOk(tr);
    var it := tr.items[line.index];
    assert ItemOk(it);
    var i := FindShipment(b.log, t, Loc(it.item, tr.source));
    assert Positive(b.log[i].allocations);
    SliceExact(b.log[i].allocations, it.received, Planned(it, line.quantity).value - it.received);
  }

  lemma ReceiptLands(b: Books, t: nat, receipt: nat, line: ReceiptLine)
    requires t < |b.transfers| && TransfersOk(b) && AllocationsPositive(b.log)
    requires line.quantity > 0.0 && ReceiveLine(b, t, receipt, line).Ok?
    ensures var d := ReceiveLine(b, t, receipt, line).value;
            && d == Do(b, ReceiptCredit(b, t, receipt, line)).(transfers := d.transfers)
            && TransfersOk(d) && AllocationsPositive(d.log)
  {
    var tr := b.transfers[t];
    assert TransferOk(tr);
    var it := tr.items[line.index];
    assert ItemOk(it);
    var d := ReceiveLine(b, t, receipt, line).value;
    assert ItemOk(it.(received := Planned(it, line.quantity).value));
    assert TransferOk(d.transfers[t]);
    forall u | 0 <= u < |d.transfers| && u != t ensures TransferOk(d.transfers[u]) { assert TransferOk(b.transfers[u]); }
  }

  lemma ReceiveLineSteps(b: Books, t: nat, receipt: nat, line: ReceiptLine, b0: Books, steps0: seq<Step>) returns (steps: seq<Step>)
    requires t < |b.transfers| && TransfersOk(b) && AllocationsPositive(b.log)
    requires line.quantity > 0.0 && ReceiveLine(b, t, receipt, line).Ok?
    requires Legal(b0, steps0) && Play(b0, steps0) == b
    ensures Legal(b0, steps) && Play(b0, steps) == ReceiveLine(b, t, receipt, line).value
    ensures TransfersOk(Play(b0, steps)) && AllocationsPositive(Play(b0, steps).log)
  {
    var d, credit := ReceiveLine(b, t, receipt, line).value, ReceiptCredit(b, t, receipt, line);
    ReceiptCredits(b, t, receipt, line);
    ReceiptLands(b, t, receipt, line);
    Then(b0, steps0, credit);
    steps := ThenTransferring(b0, steps0 + [credit], d.transfers);
  }

  lemma ThenTransferring(b: Books, steps0: seq<Step>, ts: seq<Transfer>) returns (steps: seq<Step>)
    requires Legal(b, steps0) && forall t :: 0 <= t < |ts| ==> TransferOk(ts[t])
    ensures Legal(b, steps) && Play(b, steps) == Play(b, steps0).(transfers := ts)
  {
    Then(b, steps0, Transferring(ts));
    steps := steps0 + [Transferring(ts)];
  }

  lemma {:induction false} ReceiveSteps(b: Books, t: nat, receipt: nat, lines: seq<ReceiptLine>) returns (steps: seq<Step>)
    requires t < |b.transfers| && TransfersOk(b) && AllocationsPositive(b.log)
    requires forall i :: 0 <= i < |lines| ==> lines[i].quantity > 0.0
    requires ReceiveLines(b, t, receipt, lines).Ok?
    ensures Legal(b, steps) && Play(b, steps) == ReceiveLines(b, t, receipt, lines).value
    ensures TransfersOk(Play(b, steps)) && AllocationsPositive(Play(b, steps).log)
  {
    if lines == [] {
      steps := [];
    } else {
      var n := |lines| - 1;
      steps := ReceiveSteps(b, t, receipt, lines[..n]);
      steps := ReceiveLineSteps(ReceiveLines(b, t, receipt, lines[..n]).value, t, receipt, lines[n], b, steps);
    }
  }

  /** The caller of a reservation lists each stock row once. */
  predicate WellPosed(op: Op) { op.OpReserve? ==> Distinct(op.rows) }

  /** Replacing one transfer by one with the same ends and acceptable items. */
  lemma ReplaceTransfer(b: Books, steps0: seq<Step>, t: nat, tr: Transfer) returns (steps: seq<Step>)
    requires Legal(b, steps0) && TransfersOk(Play(b, steps0)) && t < |Play(b, steps0).transfers| && TransferOk(tr)
    ensures Legal(b, steps) && Play(b, steps) == Play(b, steps0).(transfers := Play(b, steps0).transfers[t := tr])
  {
    steps := ThenTransferring(b, steps0, Play(b, steps0).transfers[t := tr]);
  }

  lemma DecomposeCreate(b: Books, source: nat, destination: nat, items: seq<TransferItem>) returns (steps: seq<Step>)
    requires TransfersOk(b) && CreateTransfer(b, source, destination, items).Ok?
    ensures Legal(b, steps) && Play(b, steps) == CreateTransfer(b, source, destination, items).value
  {
    var tr := Transfer(source, destination, items, PENDING, []);
    assert TransferOk(tr);
    steps := ThenTransferring(b, [], b.transfers + [tr]);
  }

  lemma DecomposeShip(b: Books, t: nat) returns (steps: seq<Step>)
    requires TransfersOk(b) && Ship(b, t).Ok?
    ensures Legal(b, steps) && Play(b, steps) == Ship(b, t).value
  {
    steps := [];
    var tr := b.transfers[t];
    assert TransferOk(tr);
    if tr.status == PENDING {
      steps := ShipSteps(b, t, |tr.items|);
      ShipFrame(b, t, |tr.items|);
      steps := ReplaceTransfer(b, steps, t, tr.(status := IN_TRANSIT));
    }
  }

  lemma DecomposeReceive(b: Books, t: nat, key: nat, lines: seq<ReceiptLine>) returns (steps: seq<Step>)
    requires TransfersOk(b) && AllocationsPositive(b.log) && ReceiveTransfer(b, t, key, lines).Ok?
    ensures Legal(b, steps) && Play(b, steps) == ReceiveTransfer(b, t, key, lines).value
  {
    steps := [];
    var r := FindReceipt(b.transfers[t].receipts, key);
    if r == |b.transfers[t].receipts| {
      steps := ReceiveSteps(b, t, r, lines);
      var after := ReceiveLines(b, t, r, lines).value.transfers[t];
      assert TransferOk(after);
      steps := ReplaceTransfer(b, steps, t, after.(receipts := after.receipts + [Receipt(key, lines)], status := StatusAfter(after.items)));
    }
  }

  lemma DecomposeCancel(b: Books, t: nat) returns (steps: seq<Step>)
    requires TransfersOk(b) && CancelTransfer(b, t).Ok?
    ensures Legal(b, steps) && Play(b, steps) == CancelTransfer(b, t).value
  {
    steps := [];
    assert TransferOk(b.transfers[t]);
    if b.transfers[t].status == PENDING {
      steps := ReplaceTransfer(b, [], t, b.transfers[t].(status := CANCELLED));
    }
  }

  lemma DecomposeTransfer(b: Books, op: Op) returns (steps: seq<Step>)
    requires TransfersOk(b) && AllocationsPositive(b.log) && ForTransfers(op) && Attempt(b, op).Ok?
    ensures Legal(b, steps) && Play(b, steps) == Attempt(b, op).value
  {
    match op
    case OpCreate(s, d, items) => steps := DecomposeCreate(b, s, d, items);
    case OpCancelTransfer(t) => steps := DecomposeCancel(b, t);
    case OpShip(t) => steps := DecomposeShip(b, t);
    case OpReceive(t, k, ls) => steps := DecomposeReceive(b, t, k, ls);
  }

  lemma DecomposeOther(b: Books, op: Op) returns (steps: seq<Step>)
    requires WellPosed(op) && !ForTransfers(op) && Attempt(b, op).Ok?
    ensures Legal(b, steps) && Play(b, steps) == Attempt(b, op).value && AllInternal(steps)
  {
    steps := [];
    match op
    case OpStockIn(loc, q, c) => steps := OneCredit(b, loc, q, c.value, STOCK_IN);
    case OpAdjust(loc, q, c) =>
      if q > 0.0 { steps := OneCredit(b, loc, q, c.value, ADJUSTMENT); }
      else if q < 0.0 { steps := OneDebit(b, loc, -q, q, ADJUSTMENT, NoReference); }
      else { Then(b, [], Noting(loc)); steps := [] + [Noting(loc)]; }
    case OpWaste(loc, q) => steps := OneDebit(b, loc, q, q, WASTE, NoReference);
    case OpSell(o, k, ls) => if !HoldsReservation(b.log, o, {Committed}) { steps := SellSteps(b, o, k, ls); }
    case OpReserve(o, rs, rows) =>
      if !HoldsReservation(b.log, o, {Active, Committed}) { steps := ReserveAllSteps(b, o, rs, rows); }
    case OpCommit(o, k) => steps := CommitSteps(b, o, k, |b.log|);
    case OpRelease(c, s) => steps := ReleaseSteps(b, c, s, |b.log|);
  }

  /** Any transaction is a legal sequence of steps. */
  lemma Decompose(b: Books, op: Op) returns (steps: seq<Step>)
    requires TransfersOk(b) && AllocationsPositive(b.log) && WellPosed(op)
    ensures Legal(b, steps) && Play(b, steps) == Apply(b, op)
    ensures !ForTransfers(op) ==> AllInternal(steps)
  {
    if Attempt(b, op).Rejected? {
      steps := [];
    } else if ForTransfers(op) {
      steps := DecomposeTransfer(b, op);
    } else {
      steps := DecomposeOther(b, op);
    }
  }
}
