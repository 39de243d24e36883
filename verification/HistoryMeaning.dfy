/**
  What the historical pass takes a movement for: the direction its kind stands for, the cost parts it
  brings in, and the reservation a release gives back.
*/
module HistoryMeaning {
  import opened Fifo
  import opened InventoryLedger
  import opened LedgerInvariants
  import opened LedgerSteps
  import opened LedgerRuns
  import opened HistoricalFifo
  import opened HistoricalCosts
  import opened TransferProofs
  import opened StockMovements
  import opened ReservationProofs
  import opened ReservationMovements
  import opened TransferLifecycle

  // ------------------------------------------------------------------ the kind tells the direction

  /** The movement as an old row: without the quantity it started from, only its kind tells the direction. */
  function Unmeasured(m: Movement): Movement { m.(before := None) }

  /** What the kind says about the quantity is what the movement did to the stock. */
  predicate KindTells(m: Movement) { m.before.Some? && m.after.Some? && Delta(Unmeasured(m)) == m.after.value - m.before.value }

  predicate KindsTell(log: seq<Movement>) { forall i :: 0 <= i < |log| ==> KindTells(log[i]) }

  /** Orders are sold or consumed. */
  predicate Kinded(op: Op)
  {
    match op
    case OpSell(_, kind, _) => kind in {SALE, CONSUMPTION}
    case OpCommit(_, kind) => kind in {SALE, CONSUMPTION}
    case _ => true
  }

  predicate AllKinded(ops: seq<Op>) { forall i :: 0 <= i < |ops| ==> Kinded(ops[i]) }

  lemma KindsAppended(log: seq<Movement>, log2: seq<Movement>)
    requires KindsTell(log) && |log| <= |log2| && log2[..|log|] == log
    requires forall k :: |log| <= k < |log2| ==> KindTells(log2[k])
    ensures KindsTell(log2)
  {
    forall i | 0 <= i < |log2| ensures KindTells(log2[i]) {
      if i < |log| { assert log2[..|log|][i] == log[i]; }
    }
  }

  lemma OneMoreKind(log: seq<Movement>, m: Movement)
    requires KindsTell(log) && KindTells(m)
    ensures KindsTell(log + [m])
  {
  }

  lemma ManualKinds(b: Books, op: Op)
    requires Sound(b) && KindsTell(b.log) && (op.OpStockIn? || op.OpAdjust? || op.OpWaste?)
    ensures KindsTell(Apply(b, op).log)
  {
    if Attempt(b, op).Ok? {
      var d := Apply(b, op);
      match op
      case OpStockIn(loc, q, c) =>
        StockInEffect(b, loc, q, c);
        ArrivalKinds(b, d, loc, q, c.value, STOCK_IN);
      case OpWaste(loc, q) =>
        WasteEffect(b, loc, q);
        LeavingKinds(b, d, loc, q, q, WASTE, NoReference);
      case OpAdjust(loc, q, c) => AdjustKinds(b, loc, q, c);
    }
  }

  lemma ArrivalKinds(b: Books, d: Books, loc: Loc, q: real, unitCost: real, kind: MovementType)
    requires KindsTell(b.log) && Arrives(b, d, loc, q, unitCost, kind) && q > 0.0 && kind in {STOCK_IN, ADJUSTMENT}
    ensures KindsTell(d.log)
  {
    OneMoreKind(b.log, d.log[|b.log|]);
  }

  lemma LeavingKinds(b: Books, d: Books, loc: Loc, q: real, signed: real, kind: MovementType, ref: Reference)
    requires KindsTell(b.log) && Leaves(b, d, loc, q, signed, kind, ref)
    requires (kind == WASTE && signed == q) || (kind == ADJUSTMENT && signed == -q)
    ensures KindsTell(d.log)
  {
    OneMoreKind(b.log, d.log[|b.log|]);
  }

  lemma AdjustKinds(b: Books, loc: Loc, q: real, unitCost: Option<real>)
    requires Sound(b) && KindsTell(b.log) && Adjust(b, loc, q, unitCost).Ok?
    ensures KindsTell(Adjust(b, loc, q, unitCost).value.log)
  {
    AdjustEffect(b, loc, q, unitCost);
    var d := Adjust(b, loc, q, unitCost).value;
    if q > 0.0 { ArrivalKinds(b, d, loc, q, unitCost.value, ADJUSTMENT); }
    else if q < 0.0 { LeavingKinds(b, d, loc, -q, q, ADJUSTMENT, NoReference); }
    else { OneMoreKind(b.log, d.log[|b.log|]); }
  }

  lemma SaleKinds(b: Books, order: nat, kind: MovementType, lines: seq<SaleLine>)
    requires Healthy(b) && KindsTell(b.log) && kind in {SALE, CONSUMPTION} && SellLines(b, order, kind, lines).Ok?
    ensures KindsTell(SellLines(b, order, kind, lines).value.log)
  {
    SaleEffect(b, order, kind, lines);
    SoldKinds(b, SellLines(b, order, kind, lines).value, order, kind, lines);
  }

  lemma SoldKinds(b: Books, d: Books, order: nat, kind: MovementType, lines: seq<SaleLine>)
    requires KindsTell(b.log) && kind in {SALE, CONSUMPTION} && SoldAll(b, d, order, kind, lines)
    ensures KindsTell(d.log)
  {
    forall k | |b.log| <= k < |d.log| ensures KindTells(d.log[k]) {
      assert Sold(d.log[|b.log| + (k - |b.log|)], order, kind, lines[k - |b.log|]);
    }
    KindsAppended(b.log, d.log);
  }

  lemma {:induction false} ReserveAllWrites(b: Books, order: nat, reqs: seq<Requirement>, rows: seq<Loc>)
    requires ReserveAll(b, order, reqs, rows).Ok?
    ensures var d := ReserveAll(b, order, reqs, rows).value;
            KindsTell(b.log) ==> KindsTell(d.log)
  {
    if reqs != [] {
      var n := |reqs| - 1;
      var c := ReserveAll(b, order, reqs[..n], rows).value;
      ReserveAllWrites(b, order, reqs[..n], rows);
      ReserveRowsWrite(c, order, reqs[n], rows);
      var d := ReserveRows(c, order, reqs[n], rows).books;
      if KindsTell(b.log) {
        forall k | |c.log| <= k < |d.log| ensures KindTells(d.log[k]) { assert Holds(d.log[k], order, reqs[n]); }
        KindsAppended(c.log, d.log);
      }
    }
  }

  lemma CommitKinds(b: Books, order: nat, kind: MovementType)
    requires Sound(b) && KindsTell(b.log) && kind in {SALE, CONSUMPTION} && Commit(b, order, kind).Ok?
    ensures KindsTell(Commit(b, order, kind).value.log)
  {
    CommitEffect(b, order, kind);
    var d := Commit(b, order, kind).value;
    forall i | 0 <= i < |d.log| ensures KindTells(d.log[i]) {
      assert KindTells(b.log[i]) && MovementOk(b.log[i], i);
    }
  }

  lemma {:induction false} ClaimedPositive(claim: Claim, log: seq<Movement>)
    requires LogOk(log)
    ensures forall k :: 0 <= k < |Claimed(claim, log)| ==> Claimed(claim, log)[k].quantity > 0.0
  {
    if log != [] {
      var n := |log| - 1;
      assert MovementOk(log[n], n);
      assert LogOk(log[..n]) by { forall i | 0 <= i < n ensures MovementOk(log[..n][i], i) { assert MovementOk(log[i], i); } }
      ClaimedPositive(claim, log[..n]);
    }
  }

  lemma ReleaseKinds(b: Books, claim: Claim, status: ReservationStatus)
    requires Sound(b) && KindsTell(b.log) && status in {Released, Cancelled, Expired}
    ensures KindsTell(Apply(b, OpRelease(claim, status)).log)
  {
    ReleaseEffect(b, claim, status);
    ClaimedPositive(claim, b.log);
    ReleasedKinds(b.log, Apply(b, OpRelease(claim, status)).log, claim, status);
  }

  lemma ReleasedKinds(log: seq<Movement>, log2: seq<Movement>, claim: Claim, status: ReservationStatus)
    requires KindsTell(log) && ReleasesLog(log, log2, claim, status, |log|)
    requires forall k :: 0 <= k < |Claimed(claim, log)| ==> Claimed(claim, log)[k].quantity > 0.0
    ensures KindsTell(log2)
  {
    assert log[..|log|] == log;
    forall i | 0 <= i < |log2| ensures KindTells(log2[i]) {
      if i < |log| {
        assert KindTells(log[i]);
      } else {
        assert log2[i] == log2[|log|..][i - |log|];
        assert GivesBack(Claimed(claim, log)[i - |log|], log2[|log|..][i - |log|]);
      }
    }
  }

  lemma ShipKinds(b: Books, t: nat)
    requires Healthy(b) && KindsTell(b.log) && Ship(b, t).Ok?
    ensures KindsTell(Ship(b, t).value.log)
  {
    if b.transfers[t].status == PENDING {
      ShipEffect(b, t);
      LoadedKinds(b.log, Ship(b, t).value.log, t, b.transfers[t], |b.transfers[t].items|);
    }
  }

  lemma LoadedKinds(log: seq<Movement>, log2: seq<Movement>, t: nat, tr: Transfer, n: nat)
    requires KindsTell(log) && LoadsLog(log, log2, t, tr, n)
    ensures KindsTell(log2)
  {
    forall k | |log| <= k < |log2| ensures KindTells(log2[k]) { assert Shipment(log2[k], t, tr, k - |log|); }
    KindsAppended(log, log2);
  }

  lemma ReceiveKinds(b: Books, t: nat, key: nat, lines: seq<ReceiptLine>)
    requires Healthy(b) && KindsTell(b.log) && ReceiveTransfer(b, t, key, lines).Ok?
    ensures KindsTell(ReceiveTransfer(b, t, key, lines).value.log)
  {
    var tr, d := b.transfers[t], ReceiveTransfer(b, t, key, lines).value;
    if FindReceipt(tr.receipts, key) == |tr.receipts| {
      ReceiptEffect(b, t, key, lines);
      BroughtKinds(b.log, d.log, t, |tr.receipts|, tr, d.transfers[t].items, lines);
    }
  }

  lemma BroughtKinds(log: seq<Movement>, log2: seq<Movement>, t: nat, receipt: nat, tr: Transfer, now: seq<TransferItem>, lines: seq<ReceiptLine>)
    requires KindsTell(log) && ItemsAfter(tr.items, now, lines) && LogAfter(log, log2, t, receipt, tr, now, lines)
    ensures KindsTell(log2)
  {
    forall k | |log| <= k < |log2| ensures KindTells(log2[k]) {
      var i := k - |log|;
      assert LineBrings(log2[k], t, receipt, tr, now, lines, i);
      var j := lines[i].index;
      assert ItemAfter(tr.items[j], now[j], lines, j) && NamedBy(lines, j, i);
    }
    KindsAppended(log, log2);
  }

  lemma ApplyKinds(b: Books, op: Op)
    requires Healthy(b) && KindsTell(b.log) && Kinded(op)
    ensures KindsTell(Apply(b, op).log)
  {
    if Attempt(b, op).Ok? {
      match op
      case OpSell(o, k, ls) => if !HoldsReservation(b.log, o, {Committed}) { SaleKinds(b, o, k, ls); }
      case OpReserve(o, rs, rows) => if !HoldsReservation(b.log, o, {Active, Committed}) { ReserveAllWrites(b, o, rs, rows); }
      case OpCommit(o, k) => CommitKinds(b, o, k);
      case OpRelease(c, s) => ReleaseKinds(b, c, s);
      case OpCreate(_, _, _) =>
      case OpShip(t) => ShipKinds(b, t);
      case OpReceive(t, k, ls) => ReceiveKinds(b, t, k, ls);
      case OpCancelTransfer(t) =>
      case _ => ManualKinds(b, op);
    }
  }

  /**
    After any run in which orders are sold or consumed, the kind of every movement tells its direction: what
    the historical pass would assume of a movement without measured quantities is what that movement did.
  */
  lemma {:induction false} RunKinds(b: Books, ops: seq<Op>)
    requires Healthy(b) && AllWellPosed(ops) && AllKinded(ops) && KindsTell(b.log)
    ensures KindsTell(Run(b, ops).log)
  {
    if ops != [] {
      var n := |ops| - 1;
      RunKinds(b, ops[..n]);
      RunHealthy(b, ops[..n]);
      ApplyKinds(Run(b, ops[..n]), ops[n]);
    }
  }

  // ------------------------------------------------------------------ cost parts

  function PartLots(parts: seq<CostPart>): (ls: seq<Lot<CostPart>>)
    ensures |ls| == |parts|
    ensures forall i :: 0 <= i < |parts| ==> ls[i] == Lot(parts[i].quantity, parts[i])
  {
    seq(|parts|, i requires 0 <= i < |parts| => Lot(parts[i].quantity, parts[i]))
  }

  function Resized(ls: seq<Lot<CostPart>>): (parts: seq<CostPart>)
    ensures |parts| == |ls|
    ensures forall i :: 0 <= i < |ls| ==> parts[i] == ls[i].tag.(quantity := ls[i].qty)
  {
    seq(|ls|, i requires 0 <= i < |ls| => ls[i].tag.(quantity := ls[i].qty))
  }

  function FromPart(source: nat): CostPart -> HistTag { (p: CostPart) => HistTag(Some(source), Some(p.unitCost)) }

  lemma {:induction false} PartLotsSum(parts: seq<CostPart>)
    ensures Sum(PartLots(parts)) == PartsTotal(parts)
  {
    if parts != [] {
      var n := |parts| - 1;
      PartLotsSum(parts[..n]);
      PartLotsSnoc(parts);
      SumConcat(PartLots(parts[..n]), [PartLots(parts)[n]]);
      assert [PartLots(parts)[n]][1..] == [];
    }
  }

  lemma PartLotsSnoc(parts: seq<CostPart>)
    requires parts != []
    ensures PartLots(parts) == PartLots(parts[..|parts| - 1]) + [PartLots(parts)[|parts| - 1]]
  {
  }

  lemma TakeOne<T>(l: Lot<T>, q: real)
    requires l.qty > 0.0
    ensures Take([l], q) == if q <= 0.0 then [] else [Lot(Min(l.qty, q), l.tag)]
  {
    assert [l][1..] == [];
  }

  lemma TakeSnoc(parts: seq<CostPart>, q: real)
    requires parts != [] && PositiveParts(parts)
    ensures var n := |parts| - 1;
            var left := q - PartsTotal(parts[..n]);
            Take(PartLots(parts), q) ==
            Take(PartLots(parts[..n]), q) + if left <= 0.0 then [] else [Lot(Min(parts[n].quantity, left), parts[n])]
  {
    var n := |parts| - 1;
    PartLotsSnoc(parts);
    PartLotsSum(parts[..n]);
    TakeConcat(PartLots(parts[..n]), [PartLots(parts)[n]], q);
    TakeOne(PartLots(parts)[n], q - PartsTotal(parts[..n]));
  }

  /** Cutting cost parts to a quantity takes them from the front. */
  lemma {:induction false} NormTakes(parts: seq<CostPart>, quantity: real)
    requires PositiveParts(parts) && quantity >= 0.0
    ensures Norm(parts, quantity).parts == Resized(Take(PartLots(parts), quantity))
    ensures Norm(parts, quantity).left == quantity - Min(quantity, PartsTotal(parts)) && PartsTotal(parts) >= 0.0
  {
    if parts != [] {
      var n := |parts| - 1;
      NormTakes(parts[..n], quantity);
      TakeSnoc(parts, quantity);
      assert Norm(parts, quantity).parts == Resized(Take(PartLots(parts), quantity));
    }
  }

  /** The costed layers of an incoming movement are its cost parts, from the front, as far as its quantity goes. */
  lemma {:induction false} CoverTakes(parts: seq<CostPart>, delta: real, source: nat)
    requires PositiveParts(parts) && delta > 0.0
    ensures var c := Cover(parts, delta, source);
            && c.layers == Retag(Take(PartLots(parts), delta), FromPart(source))
            && c.covered == Min(delta, PartsTotal(parts)) && (c.stopped ==> c.covered == delta)
  {
    if parts != [] {
      var n := |parts| - 1;
      CoverTakes(parts[..n], delta, source);
      TakeSnoc(parts, delta);
      assert Cover(parts, delta, source).layers == Retag(Take(PartLots(parts), delta), FromPart(source));
    }
  }

  /**
    What an incoming movement that is not a release adds to the rebuilt layers: one layer of its own for each
    cost part, and one without a cost for what the parts do not cover.
  */
  lemma IncomingMeans(layers: seq<HistLayer>, m: Movement, delta: real, records: CostRecords)
    requires !m.ref.ReservationRelease? && delta > 0.0 && PositiveParts(CostParts(m, records))
    ensures var parts := CostParts(m, records);
            Incoming(layers, m, delta, records) ==
            layers + Retag(Take(PartLots(parts), delta), FromPart(m.id)) +
            if PartsTotal(parts) < delta then [Lot(delta - PartsTotal(parts), HistTag(Some(m.id), None))] else []
  {
    CoverTakes(CostParts(m, records), delta, m.id);
  }

  /** A purchase receipt without a cost of its own costs what was paid, if it came to the warehouse it was paid for. */
  lemma PurchaseIsPriced(layers: seq<HistLayer>, m: Movement, records: CostRecords)
    requires m.ref.PurchaseOrderReceipt? && m.id !in records.parts && m.cost == None && Delta(m) > 0.0
    ensures var r, q := m.ref.receipt, Delta(m);
            var paid := r in records.purchases && records.purchases[r].warehouse == m.loc.warehouse;
            Incoming(layers, m, q, records) ==
            layers + [Lot(q, HistTag(Some(m.id), if paid then Some(records.purchases[r].unitCost) else None))]
  {
    var parts, q := CostParts(m, records), Delta(m);
    if parts != [] {
      assert parts[..0] == [];
      assert Cover(parts, q, m.id) == Covering([] + [Lot(q, HistTag(Some(m.id), Some(parts[0].unitCost)))], q, false);
    }
  }

  predicate WasShipped(log: seq<Movement>, t: nat, loc: Loc) { exists k :: 0 <= k < |log| && IsShipment(log[k], t, loc) }

  lemma {:induction false} ShipmentFound(log: seq<Movement>, t: nat, loc: Loc)
    ensures LastShipment(log, t, loc) < |log| <==> WasShipped(log, t, loc)
  {
    if log != [] {
      var n := |log| - 1;
      ShipmentFound(log[..n], t, loc);
      if WasShipped(log, t, loc) && !IsShipment(log[n], t, loc) {
        var k :| 0 <= k < |log| && IsShipment(log[k], t, loc);
        assert log[..n][k] == log[k];
      }
    }
  }

  /** A transfer receipt has derived cost parts exactly when it is at the transfer's destination and its item was shipped from the source. */
  lemma ReceiptIsDerivedIff(b: Books, i: nat)
    requires i < |b.log| && b.log[i].ref.TransferReceipt?
    ensures var m, t := b.log[i], b.log[i].ref.transfer;
            ReceiptParts(b, i).Some? <==>
            t < |b.transfers| && m.loc.warehouse == b.transfers[t].destination && WasShipped(b.log, t, Loc(m.loc.item, b.transfers[t].source))
  {
    var m, t := b.log[i], b.log[i].ref.transfer;
    if t < |b.transfers| { ShipmentFound(b.log, t, Loc(m.loc.item, b.transfers[t].source)); }
  }

  // ------------------------------------------------------------------ what a release gives back

  function QuantityOf(tag: HistTag): HistLayer -> real { (l: HistLayer) => if l.tag == tag then l.qty else 0.0 }

  function PartQuantityOf(tag: HistTag): CostPart -> real
  {
    (p: CostPart) => if tag == HistTag(p.source, Some(p.unitCost)) then p.quantity else 0.0
  }

  predicate Known(layers: seq<HistLayer>, p: CostPart) { p.source.Some? && exists i :: 0 <= i < |layers| && layers[i].tag == HistTag(p.source, Some(p.unitCost)) }

  predicate SameTags(xs: seq<HistLayer>, ys: seq<HistLayer>) { |xs| == |ys| && forall i :: 0 <= i < |xs| ==> ys[i].tag == xs[i].tag }

  lemma {:induction false} FindKnown(layers: seq<HistLayer>, source: nat, unitCost: real)
    requires exists i :: 0 <= i < |layers| && layers[i].tag == HistTag(Some(source), Some(unitCost))
    ensures FindLayer(layers, source, unitCost) < |layers|
  {
    if layers[0].tag != HistTag(Some(source), Some(unitCost)) {
      var i :| 0 <= i < |layers| && layers[i].tag == HistTag(Some(source), Some(unitCost));
      assert layers[1..][i - 1] == layers[i];
      FindKnown(layers[1..], source, unitCost);
    }
  }

  /** The parts whose layer is there. */
  function KnownParts(layers: seq<HistLayer>, parts: seq<CostPart>): seq<CostPart>
  {
    if parts == [] then []
    else
      var p := parts[|parts| - 1];
      KnownParts(layers, parts[..|parts| - 1]) + if Known(layers, p) then [p] else []
  }

  lemma {:induction false} KnownPositive(layers: seq<HistLayer>, parts: seq<CostPart>)
    requires PositiveParts(parts)
    ensures PositiveParts(KnownParts(layers, parts)) && PartsTotal(KnownParts(layers, parts)) >= 0.0
  {
    if parts != [] {
      var front, p := KnownParts(layers, parts[..|parts| - 1]), parts[|parts| - 1];
      KnownPositive(layers, parts[..|parts| - 1]);
      assert (front + [p])[..|front|] == front && front + [] == front;
    }
  }

  /** Parts of a release, cut to its quantity, are back on layers of their movement and unit cost. */
  ghost predicate IsBack(layers: seq<HistLayer>, c: Covering, kept: seq<CostPart>, delta: real)
  {
    && c.covered == Min(delta, PartsTotal(kept)) && (c.stopped ==> c.covered == delta) && SameTags(layers, c.layers)
    && forall tag ::
         SumBy(c.layers, QuantityOf(tag)) == SumBy(layers, QuantityOf(tag)) + SumBy(Resized(Take(PartLots(kept), delta)), PartQuantityOf(tag))
  }

  /**
    The cost parts of a release whose layers are there go back on them, from the front as far as the release
    goes: each layer's movement and unit cost has as much more as the parts say, and no layer is added.
  */
  lemma {:induction false} PutBackMeans(layers: seq<HistLayer>, parts: seq<CostPart>, delta: real)
    requires PositiveParts(parts) && delta > 0.0
    ensures IsBack(layers, PutBack(layers, parts, delta), KnownParts(layers, parts), delta)
  {
    if parts != [] {
      var n := |parts| - 1;
      PutBackMeans(layers, parts[..n], delta);
      KnownPositive(layers, parts);
      KnownPositive(layers, parts[..n]);
      PutBackNext(layers, PutBack(layers, parts[..n], delta), PutBack(layers, parts, delta), KnownParts(layers, parts[..n]), parts[n], delta);
    }
  }

  /** One more part. */
  lemma PutBackNext(layers: seq<HistLayer>, c: Covering, d: Covering, kept: seq<CostPart>, p: CostPart, delta: real)
    requires PositiveParts(kept) && PartsTotal(kept) >= 0.0 && p.quantity > 0.0 && delta > 0.0 && IsBack(layers, c, kept, delta)
    requires d == if c.stopped || p.source.None? then c else PutOne(c, p, delta)
    ensures IsBack(layers, d, kept + if Known(layers, p) then [p] else [], delta)
  {
    if !Known(layers, p) {
      assert kept + [] == kept;
      if !c.stopped && p.source.Some? { StaysUnknown(layers, c.layers, p); }
    } else {
      OneMorePart(kept, p, delta);
      if !c.stopped { FoundAgain(layers, c.layers, p); }
      if !c.stopped && c.covered < delta { PutOneBack(layers, c, kept, p, delta); }
    }
  }

  /** The part goes on its first layer, as far as the release goes. */
  function PutOne(c: Covering, p: CostPart, delta: real): Covering
    requires p.source.Some?
  {
    var i := FindLayer(c.layers, p.source.value, p.unitCost);
    if i >= |c.layers| then c
    else
      var q := Min(p.quantity, delta - c.covered);
      if q <= 0.0 then c.(stopped := true)
      else Covering(c.layers[i := Lot(c.layers[i].qty + q, c.layers[i].tag)], c.covered + q, false)
  }

  lemma StaysUnknown(layers: seq<HistLayer>, more: seq<HistLayer>, p: CostPart)
    requires SameTags(layers, more) && p.source.Some? && !Known(layers, p)
    ensures FindLayer(more, p.source.value, p.unitCost) >= |more|
  {
    forall k | 0 <= k < |more| ensures more[k].tag != HistTag(p.source, Some(p.unitCost)) { assert more[k].tag == layers[k].tag; }
  }

  lemma FoundAgain(layers: seq<HistLayer>, more: seq<HistLayer>, p: CostPart)
    requires SameTags(layers, more) && Known(layers, p)
    ensures FindLayer(more, p.source.value, p.unitCost) < |more|
  {
    var k :| 0 <= k < |layers| && layers[k].tag == HistTag(p.source, Some(p.unitCost));
    assert more[k].tag == layers[k].tag;
    FindKnown(more, p.source.value, p.unitCost);
  }

  /** What one more part adds to those that fit into a quantity. */
  lemma OneMorePart(kept: seq<CostPart>, p: CostPart, delta: real)
    requires PositiveParts(kept) && p.quantity > 0.0
    ensures PartsTotal(kept + [p]) == PartsTotal(kept) + p.quantity
    ensures var left := delta - PartsTotal(kept);
            forall tag :: SumBy(Resized(Take(PartLots(kept + [p]), delta)), PartQuantityOf(tag)) ==
                          SumBy(Resized(Take(PartLots(kept), delta)), PartQuantityOf(tag)) +
                          if left <= 0.0 then 0.0 else PartQuantityOf(tag)(p.(quantity := Min(p.quantity, left)))
  {
    var all, left := kept + [p], delta - PartsTotal(kept);
    assert all[..|kept|] == kept;
    TakeSnoc(all, delta);
    var before, last := Resized(Take(PartLots(kept), delta)), p.(quantity := Min(p.quantity, left));
    if left > 0.0 {
      assert Resized(Take(PartLots(all), delta)) == before + [last];
      forall tag ensures SumBy(before + [last], PartQuantityOf(tag)) == SumBy(before, PartQuantityOf(tag)) + PartQuantityOf(tag)(last) {
        SumBySnoc(before, last, PartQuantityOf(tag));
      }
    } else {
      assert Take(PartLots(kept), delta) + [] == Take(PartLots(kept), delta);
    }
  }

  lemma PutOneBack(layers: seq<HistLayer>, c: Covering, kept: seq<CostPart>, p: CostPart, delta: real)
    requires PositiveParts(kept) && p.quantity > 0.0 && IsBack(layers, c, kept, delta) && c.covered < delta && !c.stopped
    requires p.source.Some? && FindLayer(c.layers, p.source.value, p.unitCost) < |c.layers|
    ensures IsBack(layers, PutOne(c, p, delta), kept + [p], delta)
  {
    OneMorePart(kept, p, delta);
    var d := PutOne(c, p, delta);
    var i := FindLayer(c.layers, p.source.value, p.unitCost);
    var l := d.layers[i];
    assert d.layers == c.layers[i := l];
    forall tag
      ensures SumBy(d.layers, QuantityOf(tag)) == SumBy(layers, QuantityOf(tag)) + SumBy(Resized(Take(PartLots(kept + [p]), delta)), PartQuantityOf(tag))
    {
      SumByUpdate(c.layers, i, l, QuantityOf(tag));
    }
  }

  predicate OnlyReserved(log: seq<Movement>, order: nat, loc: Loc, j: nat)
  {
    j < |log| && WasReserved(log[j], order, loc) && forall k :: 0 <= k < |log| && WasReserved(log[k], order, loc) ==> k == j
  }

  predicate NeverReserved(log: seq<Movement>, order: nat, loc: Loc)
  {
    forall k :: 0 <= k < |log| ==> !WasReserved(log[k], order, loc)
  }

  /** The reservation a release is for is found exactly when there is only one it can be. */
  lemma {:induction false} SourceIsUnique(log: seq<Movement>, order: nat, loc: Loc)
    ensures ReservationSource(log, order, loc) == NotFound <==> NeverReserved(log, order, loc)
    ensures forall j: nat :: ReservationSource(log, order, loc) == Found(j) <==> OnlyReserved(log, order, loc, j)
  {
    if log != [] {
      var n := |log| - 1;
      SourceIsUnique(log[..n], order, loc);
      SourceSnoc(log[..n], log[n], order, loc);
      assert log == log[..n] + [log[n]];
    }
  }

  lemma SourceSnoc(log: seq<Movement>, m: Movement, order: nat, loc: Loc)
    ensures NeverReserved(log + [m], order, loc) <==> NeverReserved(log, order, loc) && !WasReserved(m, order, loc)
    ensures forall j: nat :: OnlyReserved(log + [m], order, loc, j) <==>
              if WasReserved(m, order, loc) then j == |log| && NeverReserved(log, order, loc) else OnlyReserved(log, order, loc, j)
  {
    var g := log + [m];
    assert g[|log|] == m && forall k :: 0 <= k < |log| ==> g[k] == log[k];
  }

  lemma {:induction false} TakeTake<T>(ls: seq<Lot<T>>, a: real, b: real)
    requires Positive(ls)
    ensures Take(Take(ls, a), b) == Take(ls, Min(a, b))
  {
    if a > 0.0 && b > 0.0 && ls != [] {
      var q := ls[0].qty;
      if q <= a {
        var t := Take(ls[1..], a - q);
        var all := [ls[0]] + t;
        assert all[0] == ls[0] && all[1..] == t;
        TakeTake(ls[1..], a - q, b - q);
        assert Take(ls, a) == all;
        assert Take(all, b) == if q <= b then [ls[0]] + Take(t, b - q) else [Lot(b, ls[0].tag)];
        assert Min(a - q, b - q) == Min(a, b) - q;
      } else {
        TakeOne(Lot(a, ls[0].tag), b);
      }
    }
  }

  lemma {:induction false} TakePositive<T>(ls: seq<Lot<T>>, q: real)
    requires Positive(ls)
    ensures Positive(Take(ls, q))
  {
    if q > 0.0 && ls != [] && ls[0].qty <= q { TakePositive(ls[1..], q - ls[0].qty); }
  }

  /** Cutting parts twice is cutting them once, to the smaller quantity. */
  lemma NormTwice(parts: seq<CostPart>, a: real, b: real)
    requires PositiveParts(parts) && a >= 0.0 && b >= 0.0
    ensures Norm(Norm(parts, a).parts, b).parts == Norm(parts, Min(a, b)).parts
  {
    NormTakes(parts, a);
    NormTakes(parts, Min(a, b));
    TakePositive(PartLots(parts), a);
    NormTakes(Resized(Take(PartLots(parts), a)), b);
    TakeTake(PartLots(parts), a, b);
    ResizedTake(Take(PartLots(parts), a), b);
  }

  /** Cutting lots of parts and resizing the parts may be done in either order. */
  lemma {:induction false} ResizedTake(ls: seq<Lot<CostPart>>, q: real)
    ensures Resized(Take(PartLots(Resized(ls)), q)) == Resized(Take(ls, q))
  {
    if q > 0.0 && ls != [] {
      var all := PartLots(Resized(ls));
      assert all[1..] == PartLots(Resized(ls[1..]));
      if ls[0].qty <= q { ResizedTake(ls[1..], q - ls[0].qty); }
    }
  }

  /**
    A release without costs of its own takes those of the one reservation it can be for, from the front, as far
    as what was reserved and what it gives back go.
  */
  lemma ReleaseInherits(b: Books, i: nat, j: nat)
    requires i < |b.log| && b.log[i].ref.ReservationRelease? && b.log[i].allocations == []
    requires OnlyReserved(b.log, b.log[i].ref.order, b.log[i].loc, j) && Positive(b.log[j].allocations)
    ensures PartsOf(b, i) ==
            if b.log[j].allocations == [] then None
            else Some(Resized(Take(PartLots(AllocationParts(b.log[j].allocations)), Min(Abs(Delta(b.log[j])), Abs(Delta(b.log[i]))))))
  {
    SourceIsUnique(b.log, b.log[i].ref.order, b.log[i].loc);
    var parts := AllocationParts(b.log[j].allocations);
    NormTwice(parts, Abs(Delta(b.log[j])), Abs(Delta(b.log[i])));
    NormTakes(parts, Min(Abs(Delta(b.log[j])), Abs(Delta(b.log[i]))));
  }

  lemma ReleaseWithoutSource(b: Books, i: nat)
    requires i < |b.log| && b.log[i].ref.ReservationRelease? && b.log[i].allocations == []
    requires forall j: nat :: !OnlyReserved(b.log, b.log[i].ref.order, b.log[i].loc, j)
    ensures PartsOf(b, i) == None
  {
    SourceIsUnique(b.log, b.log[i].ref.order, b.log[i].loc);
  }
}
