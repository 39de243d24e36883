/**
  The main replay theorem with the cost records the database really holds: stock-in, adjustments,
  waste, sales, reservations, commits, releases, cancellations, expiries and transfers, in any order.
*/
module ReplayAll {
  import opened Fifo
  import opened InventoryLedger
  import opened LedgerInvariants
  import opened LedgerSteps
  import opened LedgerRuns
  import opened HistoricalFifo
  import opened HistoricalCosts
  import opened TransferProofs
  import opened ReplayCore
  import opened ReplayTheorem

  // ------------------------------------------------------------------ how each incoming movement is explained

  predicate BoughtRow(b: Books, i: nat)
    requires i < |b.log|
  {
    var m := b.log[i];
    && m.ref == NoReference && m.allocations == [] && m.cost.Some?
    && RowsOf(b.layers, i) == [Lot(Delta(m), HistTag(Some(i), Some(m.cost.value.unitCost)))]
  }

  /** A receipt's rows are the stretch of the shipment that follows what had come in before it. */
  predicate ReceivedRow(b: Books, i: nat)
    requires i < |b.log|
  {
    var m := b.log[i];
    && m.ref.TransferReceipt? && m.ref.transfer < |b.transfers| && m.quantity == Delta(m)
    && m.loc.warehouse == b.transfers[m.ref.transfer].destination
    && var from := Loc(m.loc.item, b.transfers[m.ref.transfer].source);
       var s := FindShipment(b.log, m.ref.transfer, from);
       var skip := SumBy(b.log[..i], ReceivedQuantity(m.ref.transfer, m.loc.item));
    && s < |b.log|
    && (forall k :: 0 <= k < |b.log| && IsShipment(b.log[k], m.ref.transfer, from) ==> k == s)
    && Positive(b.log[s].allocations) && Sum(b.log[s].allocations) == -Delta(b.log[s])
    && 0.0 <= skip && skip + m.quantity <= Sum(b.log[s].allocations)
    && RowsOf(b.layers, i) == HistParts(Retag(Take(Drop(b.log[s].allocations, skip), m.quantity), TagCost()), i)
  }

  predicate ComesWithCost(m: Movement) { Delta(m) > 0.0 && !m.ref.ReservationRelease? }

  predicate Explained(b: Books)
  {
    forall i :: 0 <= i < |b.log| && ComesWithCost(b.log[i]) ==> BoughtRow(b, i) || ReceivedRow(b, i)
  }

  /** Releases carry no cost, and neither does any reservation but a committed one. */
  predicate BareMovement(m: Movement)
  {
    && (m.ref.ReservationRelease? ==> m.allocations == [] && m.cost == None)
    && (m.ref.Reservation? && m.ref.status != Committed ==> m.allocations == [])
  }

  predicate Bare(log: seq<Movement>) { forall i :: 0 <= i < |log| ==> BareMovement(log[i]) }

  // ------------------------------------------------------------------ explanations match the records

  lemma BoughtMatches(b: Books, i: nat)
    requires i < |b.log| && Delta(b.log[i]) > 0.0 && BoughtRow(b, i) && b.log[i].id == i
    ensures var c := Cover(CostParts(b.log[i], Records(b)), Delta(b.log[i]), i);
            c.layers == RowsOf(b.layers, i) && c.covered == Delta(b.log[i])
  {
    var m := b.log[i];
    assert PartsOf(b, i) == None;
    var parts := [CostPart(Delta(m), m.cost.value.unitCost, None)];
    assert CostParts(m, Records(b)) == parts;
    assert parts[..0] == [];
    assert PartsTotal(parts) == Delta(m);
    CoverExact(parts, Delta(m), i);
  }

  lemma {:induction false} LastIsFirst(log: seq<Movement>, t: nat, loc: Loc, s: nat)
    requires s < |log| && IsShipment(log[s], t, loc)
    requires forall k :: 0 <= k < |log| && IsShipment(log[k], t, loc) ==> k == s
    ensures LastShipment(log, t, loc) == s
  {
    var n := |log| - 1;
    if s < n {
      LastIsFirst(log[..n], t, loc, s);
    }
  }

  /** The copying loop reads only quantities and unit costs. */
  lemma {:induction false} SliceSameCosts(xs: seq<Alloc>, ys: seq<Alloc>, skip: real, q: real)
    requires |xs| == |ys| && forall i :: 0 <= i < |xs| ==> xs[i].qty == ys[i].qty && xs[i].tag.unitCost == ys[i].tag.unitCost
    ensures Slice(xs, skip, q) == Slice(ys, skip, q)
  {
    if xs != [] {
      SliceSameCosts(xs[..|xs| - 1], ys[..|ys| - 1], skip, q);
    }
  }

  lemma ShipmentParts(m: Movement)
    requires Positive(m.allocations) && Sum(m.allocations) == -Delta(m) && m.allocations != []
    ensures OwnParts(m).parts == AllocationParts(m.allocations)
  {
    SumPositive(m.allocations);
    AllocationPartsTotal(m.allocations);
    NormExact(AllocationParts(m.allocations), Abs(Delta(m)));
  }

  lemma ReceivedMatches(b: Books, i: nat)
    requires i < |b.log| && Delta(b.log[i]) > 0.0 && ReceivedRow(b, i) && b.log[i].id == i
    ensures var c := Cover(CostParts(b.log[i], Records(b)), Delta(b.log[i]), i);
            c.layers == RowsOf(b.layers, i) && c.covered == Delta(b.log[i])
  {
    var m := b.log[i];
    var t := m.ref.transfer;
    var from := Loc(m.loc.item, b.transfers[t].source);
    var s := FindShipment(b.log, t, from);
    var skip := SumBy(b.log[..i], ReceivedQuantity(t, m.loc.item));
    var shipped := b.log[s].allocations;
    LastIsFirst(b.log, t, from, s);
    assert shipped != [];
    ShipmentParts(b.log[s]);
    SliceSameCosts(AsLots(AllocationParts(shipped)), shipped, skip, m.quantity);
    SplitQuantity(shipped, skip);
    SliceMeaning(shipped, skip, m.quantity);
    SliceExact(shipped, skip, m.quantity);
    var slice := Slice(shipped, skip, m.quantity).parts;
    AsPartsTotal(slice);
    NormExact(AsParts(slice), m.quantity);
    assert ReceiptParts(b, i) == Some(AsParts(slice));
    assert CostParts(m, Records(b)) == AsParts(slice);
    CoverExact(AsParts(slice), m.quantity, i);
    assert PartLayers(AsParts(slice), i) == HistParts(slice, i);
  }

  lemma ReleaseMatches(b: Books, i: nat)
    requires i < |b.log| && Bare(b.log) && b.log[i].ref.ReservationRelease? && b.log[i].id == i
    ensures CostParts(b.log[i], Records(b)) == []
  {
    var m := b.log[i];
    assert BareMovement(m);
    var s := ReservationSource(b.log, m.ref.order, m.loc);
    if s.Found? {
      SourceReserved(b.log, m.ref.order, m.loc);
      assert BareMovement(b.log[s.i]);
    }
    assert PartsOf(b, i) == None;
  }

  lemma {:induction false} SourceReserved(log: seq<Movement>, order: nat, loc: Loc)
    ensures var s := ReservationSource(log, order, loc); s.Found? ==> WasReserved(log[s.i], order, loc)
  {
    if log != [] {
      SourceReserved(log[..|log| - 1], order, loc);
    }
  }

  lemma ExplainedMatches(b: Books, loc: Loc)
    requires LogOk(b.log) && Explained(b) && Bare(b.log)
    ensures RecordsMatch(b.log, b.layers, loc, Records(b))
  {
    forall i | 0 <= i < |b.log| && b.log[i].loc == loc && Delta(b.log[i]) > 0.0
      ensures Matches(b.log[i], b.layers, Records(b))
    {
      assert MovementOk(b.log[i], i);
      if b.log[i].ref.ReservationRelease? { ReleaseMatches(b, i); }
      else if BoughtRow(b, i) { BoughtMatches(b, i); } else { ReceivedMatches(b, i); }
    }
  }

  // ------------------------------------------------------------------ explanations are kept

  /** Movements about transfer t stay, and no further shipment of it is written. */
  predicate NoNewShipment(log: seq<Movement>, log2: seq<Movement>, t: nat)
  {
    && |log| <= |log2|
    && (forall k :: 0 <= k < |log| ==> if Concerns(log[k], t) then log2[k] == log[k] else !Concerns(log2[k], t))
    && (forall k :: |log| <= k < |log2| ==> log2[k].ref != TransferShipment(t))
  }

  lemma SameSum(log: seq<Movement>, log2: seq<Movement>, t: nat, item: nat, i: nat)
    requires NoNewShipment(log, log2, t) && i <= |log|
    ensures SumBy(log2[..i], ReceivedQuantity(t, item)) == SumBy(log[..i], ReceivedQuantity(t, item))
  {
    SumByFinite(log[..i], log2[..i], ReceivedQuantity(t, item));
  }

  /** No shipment of the receipt's transfer was written since, so its explanation stands. */
  lemma ReceivedKept(b: Books, d: Books, i: nat)
    requires i < |b.log| && ReceivedRow(b, i) && NoNewShipment(b.log, d.log, b.log[i].ref.transfer)
    requires var t := b.log[i].ref.transfer;
             t < |d.transfers| && d.transfers[t].source == b.transfers[t].source && d.transfers[t].destination == b.transfers[t].destination
    requires RowsOf(d.layers, i) == RowsOf(b.layers, i)
    ensures ReceivedRow(d, i) && d.log[i] == b.log[i]
  {
    var m := b.log[i];
    var t := m.ref.transfer;
    var from := Loc(m.loc.item, b.transfers[t].source);
    var s := FindShipment(b.log, t, from);
    assert Concerns(m, t) && Concerns(b.log[s], t);
    forall k | 0 <= k < |d.log| && IsShipment(d.log[k], t, from) ensures k == s {
      assert Concerns(d.log[k], t);
    }
    FindShipmentUnique(d.log, t, from, s);
    SameSum(b.log, d.log, t, m.loc.item, i);
  }

  /** What a step does to the rows and to earlier movements. */
  predicate Extends(b: Books, d: Books)
  {
    && |b.log| <= |d.log|
    && (forall i :: 0 <= i < |b.log| ==> Delta(d.log[i]) == Delta(b.log[i]) && (!b.log[i].ref.Reservation? ==> d.log[i] == b.log[i]))
    && (forall i :: 0 <= i < |b.log| ==> RowsOf(d.layers, i) == RowsOf(b.layers, i))
  }

  lemma StepExtends(b: Books, s: Step)
    requires Sound(b) && CanDo(b, s)
    ensures Extends(b, Do(b, s))
  {
    var d := Do(b, s);
    forall i | 0 <= i < |b.log| ensures RowsOf(d.layers, i) == RowsOf(b.layers, i) {
      match s
      case Crediting(loc, q, parts, cost, kind, ref) => CreditRows(b, loc, parts);
      case Debiting(loc, q, recorded, kind, ref) =>
        ConsumeRows(b.layers, loc, q);
        RowsOfSame(b.layers, d.layers, i);
      case Committing(k, kind) =>
        ConsumeRows(b.layers, b.log[k].loc, b.log[k].quantity);
        RowsOfSame(b.layers, d.layers, i);
      case _ =>
    }
    assert forall i :: 0 <= i < |b.log| ==> MovementOk(b.log[i], i);
  }

  lemma CreditBrings(b: Books, loc: Loc, q: real, cost: Cost, kind: MovementType)
    requires Sound(b) && q > 0.0
    ensures var d := Credit(b, loc, q, [Lot(q, cost.unitCost)], cost, kind, NoReference);
            |d.log| == |b.log| + 1 && BoughtRow(d, |b.log|)
  {
    var parts := [Lot(q, cost.unitCost)];
    CreditRows(b, loc, parts);
    assert HistParts(parts, |b.log|) == [Lot(q, HistTag(Some(|b.log|), Some(cost.unitCost)))];
  }

  /** An internal step either brings nothing in or brings in one costed layer. */
  lemma StepBrings(b: Books, s: Step)
    requires Sound(b) && CanDo(b, s) && Internal(s)
    ensures var d := Do(b, s);
            |b.log| <= |d.log| <= |b.log| + 1 &&
            (|d.log| > |b.log| && ComesWithCost(d.log[|b.log|]) ==> BoughtRow(d, |b.log|))
  {
    match s
    case Crediting(loc, q, parts, cost, kind, ref) => CreditBrings(b, loc, q, cost, kind);
    case Debiting(loc, q, recorded, kind, ref) => assert Delta(Do(b, s).log[|b.log|]) == -q;
    case Noting(loc) => assert Delta(Do(b, s).log[|b.log|]) == 0.0;
    case Holding(order, loc, q) => assert Delta(Do(b, s).log[|b.log|]) == -q;
    case Committing(i, kind) => assert |Do(b, s).log| == |b.log|;
    case Releasing(i, status) => assert Do(b, s).log[|b.log|].ref.ReservationRelease?;
    case Transferring(_) =>
  }

  lemma ExtendsExplained(b: Books, d: Books)
    requires Explained(b) && Extends(b, d)
    requires forall i :: |b.log| <= i < |d.log| && ComesWithCost(d.log[i]) ==> BoughtRow(d, i) || ReceivedRow(d, i)
    requires forall i :: 0 <= i < |b.log| && ComesWithCost(b.log[i]) && ReceivedRow(b, i) ==> ReceivedRow(d, i)
    ensures Explained(d)
  {
    forall i | 0 <= i < |d.log| && ComesWithCost(d.log[i]) ensures BoughtRow(d, i) || ReceivedRow(d, i) {
      if i < |b.log| && BoughtRow(b, i) {
        assert d.log[i] == b.log[i];
      }
    }
  }

  predicate SameEnds(b: Books, d: Books)
  {
    && |d.transfers| >= |b.transfers|
    && forall t :: 0 <= t < |b.transfers| ==>
         d.transfers[t].source == b.transfers[t].source && d.transfers[t].destination == b.transfers[t].destination
  }

  /** No earlier receipt's transfer was shipped again: all explanations stand, new ones are given. */
  lemma KeepAll(b: Books, d: Books)
    requires Explained(b) && Extends(b, d) && SameEnds(b, d)
    requires forall i :: 0 <= i < |b.log| && b.log[i].ref.TransferReceipt? ==> NoNewShipment(b.log, d.log, b.log[i].ref.transfer)
    requires forall i :: |b.log| <= i < |d.log| && ComesWithCost(d.log[i]) ==> BoughtRow(d, i) || ReceivedRow(d, i)
    ensures Explained(d)
  {
    forall i | 0 <= i < |b.log| && ComesWithCost(b.log[i]) && ReceivedRow(b, i) ensures ReceivedRow(d, i) {
      ReceivedKept(b, d, i);
    }
    ExtendsExplained(b, d);
  }

  lemma StepExplained(b: Books, s: Step)
    requires Sound(b) && Explained(b) && CanDo(b, s) && Internal(s)
    ensures Explained(Do(b, s))
  {
    StepExtends(b, s);
    StepBrings(b, s);
    InternalStep(b, s);
    QuietKeeps(b, Do(b, s));
  }

  lemma QuietKeeps(b: Books, d: Books)
    requires Explained(b) && Extends(b, d) && d.transfers == b.transfers && |d.log| <= |b.log| + 1
    requires forall t: nat :: Quiet(b.log, d.log, t)
    requires |d.log| > |b.log| && ComesWithCost(d.log[|b.log|]) ==> BoughtRow(d, |b.log|)
    ensures Explained(d)
  {
    forall t: nat ensures NoNewShipment(b.log, d.log, t) {
      assert Quiet(b.log, d.log, t);
    }
    KeepAll(b, d);
  }

  lemma {:induction false} PathExplained(b: Books, steps: seq<Step>)
    requires Healthy(b) && Explained(b) && Legal(b, steps) && AllInternal(steps)
    ensures Explained(Play(b, steps))
  {
    if steps != [] {
      var n := |steps| - 1;
      PathExplained(b, steps[..n]);
      PathHealthy(b, steps[..n]);
      StepExplained(Play(b, steps[..n]), steps[n]);
    }
  }

  lemma {:induction false} PathExtends(b: Books, steps: seq<Step>)
    requires Healthy(b) && Legal(b, steps)
    ensures Extends(b, Play(b, steps))
  {
    if steps != [] {
      var n := |steps| - 1;
      PathExtends(b, steps[..n]);
      PathHealthy(b, steps[..n]);
      StepExtends(Play(b, steps[..n]), steps[n]);
      ExtendsThen(b, Play(b, steps[..n]), Play(b, steps));
    }
  }

  lemma ExtendsThen(b: Books, c: Books, d: Books)
    requires Extends(b, c) && Extends(c, d)
    ensures Extends(b, d)
  {
  }

  lemma ShipExplained(b: Books, t: nat)
    requires Healthy(b) && TransfersLinked(b) && Explained(b)
    requires Ship(b, t).Ok? && b.transfers[t].status == PENDING
    ensures Explained(Ship(b, t).value)
  {
    var tr, n := b.transfers[t], |b.transfers[t].items|;
    assert TransferOk(tr) && TransferLinked(b.log, t, tr);
    var steps := ShipSteps(b, t, n);
    PathExtends(b, steps);
    ShipWrites(b, t, n);
    ShipFrame(b, t, n);
    var d := Ship(b, t).value;
    forall k | 0 <= k < |b.log| ensures d.log[k] == b.log[k] {
      assert d.log[..|b.log|][k] == b.log[k];
    }
    forall k | |b.log| <= k < |d.log| ensures Delta(d.log[k]) < 0.0 && d.log[k].ref == TransferShipment(t) {
      assert Ships(d.log[k], t, tr, k - |b.log|);
      assert ItemOk(tr.items[k - |b.log|]);
    }
    forall i | 0 <= i < |b.log| && b.log[i].ref.TransferReceipt? ensures NoNewShipment(b.log, d.log, b.log[i].ref.transfer) {
      assert Concerns(b.log[i], b.log[i].ref.transfer);
    }
    KeepAll(b, d);
  }

  /** The movement a receipt line writes, and the rows it brings, as one credit. */
  lemma ReceiptWrites(b: Books, t: nat, receipt: nat, line: ReceiptLine)
    requires t < |b.transfers| && line.quantity > 0.0 && ReceiveLine(b, t, receipt, line).Ok?
    ensures var tr := b.transfers[t];
            var it := tr.items[line.index];
            var delta := Accepted(it, line.quantity);
            var d := ReceiveLine(b, t, receipt, line).value;
            && |d.log| == |b.log| + 1 && d.log == b.log + [d.log[|b.log|]] && delta > 0.0
            && Slice(Shipped(b, t, it), it.received, delta).left <= 0.0
            && d.log[|b.log|].ref == TransferReceipt(t, receipt) && d.log[|b.log|].loc == Loc(it.item, tr.destination)
            && d.log[|b.log|].quantity == delta && Delta(d.log[|b.log|]) == delta
            && d.layers == b.layers + NewRows(|b.layers|, Loc(it.item, tr.destination), |b.log|, Slice(Shipped(b, t, it), it.received, delta).parts)
  {
  }

  lemma SliceRows(b: Books, loc: Loc, shipped: seq<Alloc>, received: real, delta: real)
    requires Sound(b) && Positive(shipped) && received >= 0.0 && delta > 0.0 && Slice(shipped, received, delta).left <= 0.0
    ensures received + delta <= Sum(shipped)
    ensures RowsOf(b.layers + NewRows(|b.layers|, loc, |b.log|, Slice(shipped, received, delta).parts), |b.log|) ==
            HistParts(Retag(Take(Drop(shipped, received), delta), TagCost()), |b.log|)
  {
    var parts := Slice(shipped, received, delta).parts;
    assert Positive(parts) by { SliceExact(shipped, received, delta); }
    assert parts == Retag(Take(Drop(shipped, received), delta), TagCost()) && received + delta <= Sum(shipped) by {
      SliceMeaning(shipped, received, delta);
      SplitQuantity(shipped, received);
    }
    CreditRows(b, loc, parts);
  }

  /** A new receipt neither moves nor doubles the shipment it belongs to. */
  lemma ShipmentStays(log: seq<Movement>, m: Movement, t: nat, source: nat, it: TransferItem)
    requires Linked(log, t, source, it) && m.ref.TransferReceipt?
    ensures FindShipment(log + [m], t, Loc(it.item, source)) == FindShipment(log, t, Loc(it.item, source))
    ensures forall k :: 0 <= k < |log| + 1 && IsShipment((log + [m])[k], t, Loc(it.item, source)) ==> k == FindShipment(log, t, Loc(it.item, source))
  {
    FindShipmentUnique(log + [m], t, Loc(it.item, source), FindShipment(log, t, Loc(it.item, source)));
  }

  lemma ReceiptExplained(b: Books, t: nat, receipt: nat, line: ReceiptLine)
    requires Healthy(b) && TransfersLinked(b) && t < |b.transfers| && !Unshipped(b.transfers[t])
    requires line.quantity > 0.0 && ReceiveLine(b, t, receipt, line).Ok?
    ensures ReceivedRow(ReceiveLine(b, t, receipt, line).value, |b.log|)
  {
    var tr := b.transfers[t];
    assert TransferLinked(b.log, t, tr) && TransferOk(tr);
    var it := tr.items[line.index];
    assert ItemOk(it) && Linked(b.log, t, tr.source, it);
    var d := ReceiveLine(b, t, receipt, line).value;
    ReceiptWrites(b, t, receipt, line);
    SliceRows(b, Loc(it.item, tr.destination), Shipped(b, t, it), it.received, Accepted(it, line.quantity));
    ShipmentStays(b.log, d.log[|b.log|], t, tr.source, it);
    ReceiptIsExplained(b, d, t, tr.source, it, Accepted(it, line.quantity));
  }

  lemma ReceiptIsExplained(b: Books, d: Books, t: nat, source: nat, it: TransferItem, delta: real)
    requires |d.log| == |b.log| + 1 && d.log == b.log + [d.log[|b.log|]] && t < |d.transfers| && t < |b.transfers|
    requires Linked(b.log, t, source, it) && b.transfers[t].source == source && d.transfers[t].source == source
    requires d.log[|b.log|].ref.TransferReceipt? && d.log[|b.log|].ref.transfer == t
    requires d.log[|b.log|].loc == Loc(it.item, d.transfers[t].destination)
    requires d.log[|b.log|].quantity == delta && Delta(d.log[|b.log|]) == delta
    requires 0.0 <= it.received && it.received + delta <= Sum(Shipped(b, t, it))
    requires RowsOf(d.layers, |b.log|) == HistParts(Retag(Take(Drop(Shipped(b, t, it), it.received), delta), TagCost()), |b.log|)
    requires FindShipment(d.log, t, Loc(it.item, source)) == FindShipment(b.log, t, Loc(it.item, source))
    requires forall k :: 0 <= k < |d.log| && IsShipment(d.log[k], t, Loc(it.item, source)) ==> k == FindShipment(b.log, t, Loc(it.item, source))
    ensures ReceivedRow(d, |b.log|)
  {
    assert d.log[..|b.log|] == b.log;
  }

  lemma ReceiveLineExtends(b: Books, t: nat, receipt: nat, line: ReceiptLine)
    requires Healthy(b) && t < |b.transfers| && line.quantity > 0.0 && ReceiveLine(b, t, receipt, line).Ok?
    ensures var d := ReceiveLine(b, t, receipt, line).value;
            && Extends(b, d) && SameEnds(b, d) && |d.log| == |b.log| + 1 && d.log[..|b.log|] == b.log
            && d.log[|b.log|].ref == TransferReceipt(t, receipt)
  {
    var steps := ReceiveLineSteps(b, t, receipt, line, b, []);
    PathExtends(b, steps);
  }

  lemma ReceiveLineExplained(b: Books, t: nat, receipt: nat, line: ReceiptLine)
    requires Healthy(b) && TransfersLinked(b) && Explained(b) && t < |b.transfers| && !Unshipped(b.transfers[t])
    requires line.quantity > 0.0 && ReceiveLine(b, t, receipt, line).Ok?
    ensures Explained(ReceiveLine(b, t, receipt, line).value)
  {
    var d := ReceiveLine(b, t, receipt, line).value;
    ReceiveLineExtends(b, t, receipt, line);
    ReceiptExplained(b, t, receipt, line);
    AppendedReceipt(b, d);
  }

  lemma AppendedReceipt(b: Books, d: Books)
    requires Explained(b) && Extends(b, d) && SameEnds(b, d)
    requires |d.log| == |b.log| + 1 && d.log[..|b.log|] == b.log && d.log[|b.log|].ref.TransferReceipt? && ReceivedRow(d, |b.log|)
    ensures Explained(d)
  {
    forall k | 0 <= k < |b.log| ensures d.log[k] == b.log[k] {
      assert d.log[..|b.log|][k] == b.log[k];
    }
    KeepAll(b, d);
  }

  lemma {:induction false} ReceiveLinesExplained(b: Books, t: nat, receipt: nat, lines: seq<ReceiptLine>)
    requires Healthy(b) && TransfersLinked(b) && Explained(b) && t < |b.transfers| && !Unshipped(b.transfers[t])
    requires forall i :: 0 <= i < |lines| ==> lines[i].quantity > 0.0
    requires ReceiveLines(b, t, receipt, lines).Ok?
    ensures Explained(ReceiveLines(b, t, receipt, lines).value)
  {
    if lines != [] {
      var n := |lines| - 1;
      ReceiveLinesExplained(b, t, receipt, lines[..n]);
      ReceiveLinesLinks(b, t, receipt, lines[..n]);
      ReceiveLineExplained(ReceiveLines(b, t, receipt, lines[..n]).value, t, receipt, lines[n]);
    }
  }

  /** Changing transfers without changing their ends keeps every explanation. */
  lemma EndsExplained(b: Books, d: Books)
    requires Explained(b) && d.log == b.log && d.layers == b.layers && SameEnds(b, d)
    ensures Explained(d)
  {
    KeepAll(b, d);
  }

  lemma ApplyExplained(b: Books, op: Op)
    requires Healthy(b) && TransfersLinked(b) && Explained(b) && WellPosed(op)
    ensures Explained(Apply(b, op))
  {
    if !ForTransfers(op) {
      var steps := Decompose(b, op);
      PathExplained(b, steps);
    } else if Attempt(b, op).Ok? {
      match op
      case OpShip(t) => if b.transfers[t].status == PENDING { ShipExplained(b, t); }
      case OpReceive(t, k, ls) =>
        var r := FindReceipt(b.transfers[t].receipts, k);
        if r == |b.transfers[t].receipts| {
          ReceiveLinesExplained(b, t, r, ls);
          EndsExplained(ReceiveLines(b, t, r, ls).value, Apply(b, op));
        }
      case OpCreate(_, _, _) => EndsExplained(b, Apply(b, op));
      case OpCancelTransfer(_) => EndsExplained(b, Apply(b, op));
    }
  }

  lemma {:induction false} RunExplained(b: Books, ops: seq<Op>)
    requires Healthy(b) && TransfersLinked(b) && Explained(b) && AllWellPosed(ops)
    ensures Explained(Run(b, ops))
  {
    if ops != [] {
      var n := |ops| - 1;
      RunExplained(b, ops[..n]);
      RunHealthy(b, ops[..n]);
      RunLinks(b, ops[..n]);
      ApplyExplained(Run(b, ops[..n]), ops[n]);
    }
  }

  // ------------------------------------------------------------------ releases stay without a cost

  lemma StepBare(b: Books, s: Step)
    requires LogOk(b.log) && Bare(b.log) && CanDo(b, s)
    ensures Bare(Do(b, s).log)
  {
    assert forall i :: 0 <= i < |b.log| ==> BareMovement(b.log[i]) && MovementOk(b.log[i], i);
  }

  lemma {:induction false} PathBare(b: Books, steps: seq<Step>)
    requires Healthy(b) && Bare(b.log) && Legal(b, steps)
    ensures Bare(Play(b, steps).log)
  {
    if steps != [] {
      var n := |steps| - 1;
      PathBare(b, steps[..n]);
      PathHealthy(b, steps[..n]);
      StepBare(Play(b, steps[..n]), steps[n]);
    }
  }

  lemma {:induction false} RunBare(b: Books, ops: seq<Op>)
    requires Healthy(b) && Bare(b.log) && AllWellPosed(ops)
    ensures Bare(Run(b, ops).log)
  {
    if ops != [] {
      var n := |ops| - 1;
      RunBare(b, ops[..n]);
      RunHealthy(b, ops[..n]);
      var steps := Decompose(Run(b, ops[..n]), ops[n]);
      PathBare(Run(b, ops[..n]), steps);
    }
  }

  // ------------------------------------------------------------------ the theorem

  /**
    Replay against live FIFO, after any run, at any location of a configured item with no outstanding
    reservation: rebuilding the layers from the log always reconciles, and it yields exactly the live
    open layers (in order, with their sources, remaining quantities and unit costs, and no opening
    cost) if and only if all the stock that was on hand at the location's latest release of a
    reservation has been issued since.
  */
  lemma ReplayEqualsLive(configured: set<nat>, ops: seq<Op>, loc: Loc)
    requires AllWellPosed(ops) && loc.item in configured && NoneActive(Run(Empty(configured), ops).log, loc)
    ensures var b := Run(Empty(configured), ops);
            var f := Reconstruct(HistoryOf(b.log, loc), OnHand(b, loc), Records(b));
            && f.reconciled
            && (Rebuilds(f, b.layers, loc) <==> Owed(b.log, loc) == 0.0)
            && (f.openingCost > 0.0 <==> Owed(b.log, loc) > 0.0)
  {
    var e := Empty(configured);
    EmptyHealthy(configured);
    EmptyReplayable(configured);
    RunHealthy(e, ops);
    RunReplayable(e, ops);
    RunExplained(e, ops);
    RunBare(e, ops);
    ExplainedMatches(Run(e, ops), loc);
    ReplayIsLive(Run(e, ops), loc, Records(Run(e, ops)));
  }

  predicate NothingReleased(log: seq<Movement>, loc: Loc)
  {
    forall i :: 0 <= i < |log| && log[i].loc == loc ==> !log[i].ref.ReservationRelease?
  }

  lemma {:induction false} NothingOwed(log: seq<Movement>, loc: Loc)
    requires NothingReleased(log, loc)
    ensures Owed(log, loc) == 0.0
  {
    if log != [] {
      NothingOwed(log[..|log| - 1], loc);
    }
  }

  /** In particular, where no reservation was ever released the replay is the live state. */
  lemma ReplayWithoutRelease(configured: set<nat>, ops: seq<Op>, loc: Loc)
    requires AllWellPosed(ops) && loc.item in configured
    requires var log := Run(Empty(configured), ops).log; NoneActive(log, loc) && NothingReleased(log, loc)
    ensures var b := Run(Empty(configured), ops);
            Rebuilds(Reconstruct(HistoryOf(b.log, loc), OnHand(b, loc), Records(b)), b.layers, loc)
  {
    NothingOwed(Run(Empty(configured), ops).log, loc);
    ReplayEqualsLive(configured, ops, loc);
  }
}
