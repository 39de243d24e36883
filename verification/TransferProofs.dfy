/**
  Warehouse transfers: the receipts of a shipment cut its cost into consecutive stretches, no
  accepted receipt ever runs out of cost, and once everything has arrived the receipts have carried
  over exactly the cost of the shipment.
*/
module TransferProofs {
  import opened Fifo
  import opened InventoryLedger
  import opened LedgerInvariants
  import opened LedgerSteps
  import opened LedgerRuns
  import opened HistoricalFifo
  import opened HistoricalCosts

  predicate Concerns(m: Movement, t: nat)
  {
    m.ref == TransferShipment(t) || (m.ref.TransferReceipt? && m.ref.transfer == t)
  }

  predicate Relevant(m: Movement, t: nat, item: nat) { Concerns(m, t) && m.loc.item == item }

  function ReceivedCost(t: nat, item: nat): Movement -> real
  {
    (m: Movement) => if IsReceipt(m, t, item) then Total(m) else 0.0
  }

  /** The costs of a shipped line, and how much of them the receipts have carried over so far. */
  predicate Linked(log: seq<Movement>, t: nat, source: nat, it: TransferItem)
  {
    var loc := Loc(it.item, source);
    var i := FindShipment(log, t, loc);
    && i < |log|
    && (forall k :: 0 <= k < |log| && IsShipment(log[k], t, loc) ==> k == i)
    && Positive(log[i].allocations) && Sum(log[i].allocations) == it.quantity && Delta(log[i]) == -it.quantity
    && log[i].cost.Some? && log[i].cost.value.totalCost == Value(log[i].allocations, TagCost())
    && SumBy(log, ReceivedQuantity(t, it.item)) == it.received
    && SumBy(log, ReceivedCost(t, it.item)) == Value(Take(log[i].allocations, it.received), TagCost())
  }

  predicate Unshipped(tr: Transfer) { tr.status == PENDING || tr.status == CANCELLED }

  predicate TransferLinked(log: seq<Movement>, t: nat, tr: Transfer)
  {
    if Unshipped(tr) then
      && (forall k :: 0 <= k < |log| ==> !Concerns(log[k], t))
      && (forall j :: 0 <= j < |tr.items| ==> tr.items[j].received == 0.0)
    else
      forall j :: 0 <= j < |tr.items| ==> Linked(log, t, tr.source, tr.items[j])
  }

  ghost predicate TransfersLinked(b: Books)
  {
    && (forall t :: 0 <= t < |b.transfers| ==> TransferLinked(b.log, t, b.transfers[t]))
    && (forall k, t: nat :: 0 <= k < |b.log| && Concerns(b.log[k], t) ==> t < |b.transfers|)
  }

  // ------------------------------------------------------------------ one receipt

  /** The line's shipment allocations. */
  function Shipped(b: Books, t: nat, it: TransferItem): seq<Alloc>
    requires t < |b.transfers|
  {
    var i := FindShipment(b.log, t, Loc(it.item, b.transfers[t].source));
    if i < |b.log| then b.log[i].allocations else []
  }

  function Accepted(it: TransferItem, q: real): real { Min(it.received + q, it.quantity) - it.received }

  /** A receipt within the shipped quantity is accepted: the shipment's cost never runs out. */
  lemma ReceiptAccepted(b: Books, t: nat, receipt: nat, line: ReceiptLine)
    requires t < |b.transfers| && line.index < |b.transfers[t].items| && line.quantity > 0.0
    requires var it := b.transfers[t].items[line.index];
             ItemOk(it) && it.item in b.configured && Linked(b.log, t, b.transfers[t].source, it)
    ensures var it := b.transfers[t].items[line.index];
            ReceiveLine(b, t, receipt, line).Ok? <==>
            it.received < it.quantity && it.received + line.quantity <= it.quantity + 0.000000001
  {
    var it := b.transfers[t].items[line.index];
    var delta := Accepted(it, line.quantity);
    if delta > 0.0 {
      SplitQuantity(Shipped(b, t, it), it.received);
      SliceMeaning(Shipped(b, t, it), it.received, delta);
    }
  }

  /** The layers a receipt creates are the units [received, received + delta) of the shipment. */
  lemma ReceiptIsASlice(b: Books, t: nat, receipt: nat, line: ReceiptLine)
    requires t < |b.transfers| && line.index < |b.transfers[t].items| && line.quantity > 0.0
    requires var it := b.transfers[t].items[line.index];
             ItemOk(it) && Linked(b.log, t, b.transfers[t].source, it)
    requires ReceiveLine(b, t, receipt, line).Ok?
    ensures var tr := b.transfers[t];
            var it := tr.items[line.index];
            var layers := ReceiveLine(b, t, receipt, line).value.layers;
            && |layers| >= |b.layers| && layers[..|b.layers|] == b.layers
            && (forall i :: |b.layers| <= i < |layers| ==>
                  layers[i].received == layers[i].remaining && layers[i].loc == Loc(it.item, tr.destination))
            && Costs(layers[|b.layers|..]) == Retag(Take(Drop(Shipped(b, t, it), it.received), Accepted(it, line.quantity)), TagCost())
  {
    var tr := b.transfers[t];
    var it := tr.items[line.index];
    var delta := Accepted(it, line.quantity);
    SliceMeaning(Shipped(b, t, it), it.received, delta);
    var parts := Slice(Shipped(b, t, it), it.received, delta).parts;
    var added := NewRows(|b.layers|, Loc(it.item, tr.destination), |b.log|, parts);
    var layers := ReceiveLine(b, t, receipt, line).value.layers;
    assert layers == b.layers + added;
    assert layers[|b.layers|..] == added;
    CostsOfNewRows(|b.layers|, Loc(it.item, tr.destination), |b.log|, parts);
  }

  /** Unit by unit: the x-th unit of a receipt costs what the (received + x)-th unit of the shipment cost. */
  lemma SliceUnits(shipped: seq<Alloc>, received: real, delta: real, x: real)
    requires Positive(shipped) && received >= 0.0 && 0.0 <= x < delta
    ensures TagAt(Retag(Take(Drop(shipped, received), delta), TagCost()), x) == UnitCostAt(shipped, received + x)
  {
    SplitQuantity(shipped, received);
    TagAtRetag(Take(Drop(shipped, received), delta), x);
    TagAtTake(Drop(shipped, received), delta, x);
    TagAtDrop(shipped, received, x);
  }

  function Costs(rows: seq<LayerRow>): (c: seq<Lot<real>>)
    ensures |c| == |rows|
  {
    seq(|rows|, i requires 0 <= i < |rows| => Lot(rows[i].remaining, rows[i].unitCost))
  }

  function UnitCostAt(allocations: seq<Alloc>, x: real): Option<real>
  {
    match TagAt(allocations, x) case None => None case Some(t) => Some(t.unitCost)
  }

  lemma CostsOfNewRows(base: nat, loc: Loc, source: nat, parts: seq<Lot<real>>)
    ensures Costs(NewRows(base, loc, source, parts)) == parts
  {
  }

  lemma {:induction false} TagAtRetag(ls: seq<Alloc>, x: real)
    ensures TagAt(Retag(ls, TagCost()), x) == UnitCostAt(ls, x)
  {
    if ls != [] {
      assert Retag(ls, TagCost())[1..] == Retag(ls[1..], TagCost());
      TagAtRetag(ls[1..], x - ls[0].qty);
    }
  }

  // ------------------------------------------------------------------ the link is kept

  /** Nothing about the line was written between the two logs. */
  predicate Frame(log: seq<Movement>, log2: seq<Movement>, t: nat, item: nat)
  {
    && |log| <= |log2|
    && (forall k :: 0 <= k < |log| ==>
          if Relevant(log[k], t, item) then log2[k] == log[k] else !Relevant(log2[k], t, item))
    && (forall k :: |log| <= k < |log2| ==> !Relevant(log2[k], t, item))
  }

  lemma {:induction false} FindShipmentUnique(log: seq<Movement>, t: nat, loc: Loc, i: nat)
    requires i < |log| && IsShipment(log[i], t, loc)
    requires forall k :: 0 <= k < |log| && IsShipment(log[k], t, loc) ==> k == i
    ensures FindShipment(log, t, loc) == i
  {
    var n := |log| - 1;
    if i < n {
      FindShipmentUnique(log[..n], t, loc, i);
    } else {
      forall k | 0 <= k < n ensures !IsShipment(log[..n][k], t, loc) {
        assert log[..n][k] == log[k];
      }
    }
  }

  lemma FrameSums(log: seq<Movement>, log2: seq<Movement>, t: nat, item: nat)
    requires Frame(log, log2, t, item)
    ensures SumBy(log2, ReceivedQuantity(t, item)) == SumBy(log, ReceivedQuantity(t, item))
    ensures SumBy(log2, ReceivedCost(t, item)) == SumBy(log, ReceivedCost(t, item))
  {
    var head, tail := log2[..|log|], log2[|log|..];
    assert log2 == head + tail;
    SumByConcat(head, tail, ReceivedQuantity(t, item));
    SumByConcat(head, tail, ReceivedCost(t, item));
    SumByZero(tail, ReceivedQuantity(t, item));
    SumByZero(tail, ReceivedCost(t, item));
    SumByFinite(log, head, ReceivedQuantity(t, item));
    SumByFinite(log, head, ReceivedCost(t, item));
  }

  lemma FrameLinked(log: seq<Movement>, log2: seq<Movement>, t: nat, source: nat, it: TransferItem)
    requires Frame(log, log2, t, it.item) && Linked(log, t, source, it)
    ensures Linked(log2, t, source, it)
  {
    var loc := Loc(it.item, source);
    var i := FindShipment(log, t, loc);
    forall k | 0 <= k < |log2| && IsShipment(log2[k], t, loc) ensures k == i {
      assert Relevant(log2[k], t, it.item);
      if k < |log| { assert IsShipment(log[k], t, loc); }
    }
    assert Relevant(log[i], t, it.item);
    FindShipmentUnique(log2, t, loc, i);
    FrameSums(log, log2, t, it.item);
  }

  /** No movement about transfer t was written or changed. */
  predicate Quiet(log: seq<Movement>, log2: seq<Movement>, t: nat)
  {
    && |log| <= |log2|
    && (forall k :: 0 <= k < |log| ==> if Concerns(log[k], t) then log2[k] == log[k] else !Concerns(log2[k], t))
    && (forall k :: |log| <= k < |log2| ==> !Concerns(log2[k], t))
  }

  lemma QuietLinked(log: seq<Movement>, log2: seq<Movement>, t: nat, tr: Transfer)
    requires Quiet(log, log2, t) && TransferLinked(log, t, tr)
    ensures TransferLinked(log2, t, tr)
  {
    if !Unshipped(tr) {
      forall j | 0 <= j < |tr.items| ensures Linked(log2, t, tr.source, tr.items[j]) {
        FrameLinked(log, log2, t, tr.source, tr.items[j]);
      }
    }
  }

  lemma InternalStep(b: Books, s: Step)
    requires CanDo(b, s) && Internal(s)
    ensures Do(b, s).transfers == b.transfers
    ensures forall t: nat :: Quiet(b.log, Do(b, s).log, t)
  {
  }

  lemma {:induction false} InternalPath(b: Books, steps: seq<Step>)
    requires Legal(b, steps) && AllInternal(steps)
    ensures Play(b, steps).transfers == b.transfers
    ensures forall t: nat :: Quiet(b.log, Play(b, steps).log, t)
  {
    if steps != [] {
      var n := |steps| - 1;
      InternalPath(b, steps[..n]);
      InternalStep(Play(b, steps[..n]), steps[n]);
      forall t: nat ensures Quiet(b.log, Play(b, steps).log, t) {
        QuietThen(b.log, Play(b, steps[..n]).log, Play(b, steps).log, t);
      }
    }
  }

  lemma QuietThen(log: seq<Movement>, log2: seq<Movement>, log3: seq<Movement>, t: nat)
    requires Quiet(log, log2, t) && Quiet(log2, log3, t)
    ensures Quiet(log, log3, t)
  {
  }

  /** A shipment movement of the right line, fully costed. */
  predicate Ships(m: Movement, t: nat, tr: Transfer, j: nat)
  {
    && j < |tr.items| && IsShipment(m, t, Loc(tr.items[j].item, tr.source))
    && Positive(m.allocations) && Sum(m.allocations) == tr.items[j].quantity && Delta(m) == -tr.items[j].quantity
    && m.cost.Some? && m.cost.value.totalCost == Value(m.allocations, TagCost())
  }

  lemma DebitWrites(b: Books, loc: Loc, q: real, seen: real, recorded: real, kind: MovementType, ref: Reference)
    requires NonNegative(b.layers) && Debit(b, loc, q, seen, recorded, kind, ref).Ok?
    ensures var log := Debit(b, loc, q, seen, recorded, kind, ref).value.log;
            && |log| == |b.log| + 1 && log[..|b.log|] == b.log
            && log[|b.log|].ref == ref && log[|b.log|].loc == loc && Delta(log[|b.log|]) == -q
            && Positive(log[|b.log|].allocations) && Sum(log[|b.log|].allocations) == q
            && log[|b.log|].cost.Some? && log[|b.log|].cost.value.totalCost == Value(log[|b.log|].allocations, TagCost())
  {
    ConsumeMeaning(b.layers, loc, q);
    SplitQuantity(View(b.layers, loc), q);
  }

  lemma ShipHealthy(b: Books, t: nat, n: nat)
    requires Healthy(b) && t < |b.transfers| && n <= |b.transfers[t].items| && ShipUpTo(b, t, n).Ok?
    ensures Healthy(ShipUpTo(b, t, n).value) && NonNegative(ShipUpTo(b, t, n).value.layers)
  {
    assert TransferOk(b.transfers[t]);
    var steps := ShipSteps(b, t, n);
    PathHealthy(b, steps);
  }

  /** What the ship loop has written after n lines. */
  lemma {:induction false} ShipWrites(b: Books, t: nat, n: nat)
    requires Healthy(b) && t < |b.transfers| && n <= |b.transfers[t].items| && ShipUpTo(b, t, n).Ok?
    ensures var d := ShipUpTo(b, t, n).value;
            && |d.log| == |b.log| + n && d.log[..|b.log|] == b.log
            && forall k :: |b.log| <= k < |d.log| ==> Ships(d.log[k], t, b.transfers[t], k - |b.log|)
  {
    if n == 0 {
      assert b.log[..|b.log|] == b.log;
    } else {
      ShipWrites(b, t, n - 1);
      ShipHealthy(b, t, n - 1);
      ShipWritesOne(b, t, n);
    }
  }

  lemma LastShipped(b: Books, t: nat, n: nat) returns (d: Books)
    requires t < |b.transfers| && 0 < n <= |b.transfers[t].items| && ShipUpTo(b, t, n).Ok?
    ensures var line := b.transfers[t].items[n - 1];
            var loc := Loc(line.item, b.transfers[t].source);
            && ShipUpTo(b, t, n - 1).Ok? && loc in b.stock && Ok(d) == ShipUpTo(b, t, n)
            && Ok(d) == Debit(ShipUpTo(b, t, n - 1).value, loc, line.quantity, b.stock[loc], line.quantity, TRANSFER, TransferShipment(t))
  {
    d := ShipUpTo(b, t, n).value;
  }

  lemma ShipWritesOne(b: Books, t: nat, n: nat)
    requires t < |b.transfers| && 0 < n <= |b.transfers[t].items| && ShipUpTo(b, t, n).Ok?
    requires ShipUpTo(b, t, n - 1).Ok? && NonNegative(ShipUpTo(b, t, n - 1).value.layers)
    requires var c := ShipUpTo(b, t, n - 1).value;
             && |c.log| == |b.log| + n - 1 && c.log[..|b.log|] == b.log
             && forall k :: |b.log| <= k < |c.log| ==> Ships(c.log[k], t, b.transfers[t], k - |b.log|)
    ensures var d := ShipUpTo(b, t, n).value;
            && |d.log| == |b.log| + n && d.log[..|b.log|] == b.log
            && forall k :: |b.log| <= k < |d.log| ==> Ships(d.log[k], t, b.transfers[t], k - |b.log|)
  {
    var c := ShipUpTo(b, t, n - 1).value;
    var line := b.transfers[t].items[n - 1];
    var loc := Loc(line.item, b.transfers[t].source);
    var d := LastShipped(b, t, n);
    DebitWrites(c, loc, line.quantity, b.stock[loc], line.quantity, TRANSFER, TransferShipment(t));
    ShipWritesMore(b.log, c.log, d.log, t, b.transfers[t], n - 1);
  }

  lemma ShipWritesMore(log: seq<Movement>, mid: seq<Movement>, log2: seq<Movement>, t: nat, tr: Transfer, n: nat)
    requires n < |tr.items| && |mid| == |log| + n && mid[..|log|] == log
    requires forall k :: |log| <= k < |mid| ==> Ships(mid[k], t, tr, k - |log|)
    requires |log2| == |mid| + 1 && log2[..|mid|] == mid && Ships(log2[|mid|], t, tr, n)
    ensures log2[..|log|] == log && forall k :: |log| <= k < |log2| ==> Ships(log2[k], t, tr, k - |log|)
  {
    assert log2[..|log|] == mid[..|log|];
    forall k | |log| <= k < |log2| ensures Ships(log2[k], t, tr, k - |log|) {
      if k < |mid| { assert log2[..|mid|][k] == mid[k]; }
    }
  }

  lemma ShipLinks(b: Books, t: nat)
    requires Healthy(b) && TransfersLinked(b) && Ship(b, t).Ok? && b.transfers[t].status == PENDING
    ensures TransfersLinked(Ship(b, t).value)
  {
    var tr := b.transfers[t];
    ShipWrites(b, t, |tr.items|);
    ShipFrame(b, t, |tr.items|);
    assert TransferLinked(b.log, t, tr) && TransferOk(tr);
    ShipLinksAll(b, Ship(b, t).value, t);
  }

  lemma ShipQuiet(log: seq<Movement>, log2: seq<Movement>, t: nat, tr: Transfer, u: nat)
    requires |log2| == |log| + |tr.items| && log2[..|log|] == log && u != t
    requires forall k :: |log| <= k < |log2| ==> Ships(log2[k], t, tr, k - |log|)
    ensures Quiet(log, log2, u)
  {
    forall k | 0 <= k < |log| ensures log2[k] == log[k] { assert log2[..|log|][k] == log[k]; }
    forall k | |log| <= k < |log2| ensures !Concerns(log2[k], u) { assert Ships(log2[k], t, tr, k - |log|); }
  }

  lemma ShipLinksAll(b: Books, d: Books, t: nat)
    requires TransfersLinked(b) && t < |b.transfers| && TransferOk(b.transfers[t]) && b.transfers[t].status == PENDING
    requires d.transfers == b.transfers[t := b.transfers[t].(status := IN_TRANSIT)]
    requires |d.log| == |b.log| + |b.transfers[t].items| && d.log[..|b.log|] == b.log
    requires forall k :: |b.log| <= k < |d.log| ==> Ships(d.log[k], t, b.transfers[t], k - |b.log|)
    ensures TransfersLinked(d)
  {
    var tr := b.transfers[t];
    assert TransferLinked(b.log, t, tr);
    forall u | 0 <= u < |d.transfers| ensures TransferLinked(d.log, u, d.transfers[u]) {
      if u != t {
        ShipQuiet(b.log, d.log, t, tr, u);
        QuietLinked(b.log, d.log, u, b.transfers[u]);
      } else {
        forall j | 0 <= j < |tr.items| ensures Linked(d.log, t, tr.source, tr.items[j]) {
          LinkAfterShip(b.log, d.log, t, tr, j);
        }
      }
    }
    forall k, u: nat | 0 <= k < |d.log| && Concerns(d.log[k], u) ensures u < |d.transfers| {
      if k < |b.log| {
        assert d.log[..|b.log|][k] == b.log[k];
      } else {
        assert Ships(d.log[k], t, tr, k - |b.log|);
      }
    }
  }

  lemma LinkAfterShip(log: seq<Movement>, log2: seq<Movement>, t: nat, tr: Transfer, j: nat)
    requires TransferOk(tr) && j < |tr.items| && tr.items[j].received == 0.0
    requires forall k :: 0 <= k < |log| ==> !Concerns(log[k], t)
    requires |log2| == |log| + |tr.items| && log2[..|log|] == log
    requires forall k :: |log| <= k < |log2| ==> Ships(log2[k], t, tr, k - |log|)
    ensures Linked(log2, t, tr.source, tr.items[j])
  {
    var it := tr.items[j];
    var loc := Loc(it.item, tr.source);
    var i := |log| + j;
    forall k | 0 <= k < |log2|
      ensures !IsReceipt(log2[k], t, it.item) && (IsShipment(log2[k], t, loc) ==> k == i)
    {
      if k < |log| {
        assert log2[..|log|][k] == log2[k];
        assert !Concerns(log[k], t);
      } else {
        assert Ships(log2[k], t, tr, k - |log|);
      }
    }
    assert Ships(log2[i], t, tr, i - |log|);
    FindShipmentUnique(log2, t, loc, i);
    SumByZero(log2, ReceivedQuantity(t, it.item));
    SumByZero(log2, ReceivedCost(t, it.item));
  }

  lemma ReceiveLineHealthy(b: Books, t: nat, receipt: nat, line: ReceiptLine)
    requires Healthy(b) && t < |b.transfers| && line.quantity > 0.0 && ReceiveLine(b, t, receipt, line).Ok?
    ensures Healthy(ReceiveLine(b, t, receipt, line).value)
  {
    var steps := ReceiveLineSteps(b, t, receipt, line, b, []);
    PathHealthy(b, steps);
  }

  lemma ReceiveLineLinks(b: Books, t: nat, receipt: nat, line: ReceiptLine)
    requires TransfersOk(b) && TransfersLinked(b) && t < |b.transfers| && !Unshipped(b.transfers[t])
    requires line.quantity > 0.0 && ReceiveLine(b, t, receipt, line).Ok?
    ensures var d := ReceiveLine(b, t, receipt, line).value;
            TransfersLinked(d) && |d.transfers| == |b.transfers| && d.transfers[t].status == b.transfers[t].status
  {
    var d := ReceiveLine(b, t, receipt, line).value;
    var tr := b.transfers[t];
    assert TransferLinked(b.log, t, tr) && TransferOk(tr);
    var it := tr.items[line.index];
    assert ItemOk(it) && Linked(b.log, t, tr.source, it);
    var next := Planned(it, line.quantity).value;
    var m := d.log[|b.log|];
    assert d.log == b.log + [m];
    LinkAfterReceipt(b.log, m, t, tr.source, it, next);
    ReceiptLinksAll(b, d, t, line.index, next);
  }

  lemma ReceiptLinksAll(b: Books, d: Books, t: nat, index: nat, next: real)
    requires TransfersLinked(b) && t < |b.transfers| && TransferOk(b.transfers[t]) && !Unshipped(b.transfers[t])
    requires index < |b.transfers[t].items|
    requires var tr := b.transfers[t]; var it := tr.items[index];
             && d.transfers == b.transfers[t := tr.(items := tr.items[index := it.(received := next)])]
             && |d.log| == |b.log| + 1 && d.log == b.log + [d.log[|b.log|]] && IsReceipt(d.log[|b.log|], t, it.item)
             && Linked(d.log, t, tr.source, it.(received := next))
    ensures TransfersLinked(d)
  {
    var tr := b.transfers[t];
    assert TransferLinked(b.log, t, tr);
    forall j | 0 <= j < |tr.items| ensures Linked(d.log, t, tr.source, d.transfers[t].items[j]) {
      if j != index {
        assert Linked(b.log, t, tr.source, tr.items[j]);
        assert tr.items[j].item != tr.items[index].item;
        FrameLinked(b.log, d.log, t, tr.source, tr.items[j]);
      }
    }
    forall u | 0 <= u < |d.transfers| ensures TransferLinked(d.log, u, d.transfers[u]) {
      if u != t {
        assert TransferLinked(b.log, u, b.transfers[u]);
        QuietLinked(b.log, d.log, u, b.transfers[u]);
      }
    }
  }

  lemma CarriedCost(shipped: seq<Alloc>, received: real, next: real)
    requires Positive(shipped) && 0.0 <= received < next && Slice(shipped, received, next - received).left <= 0.0
    ensures Value(Take(shipped, received), TagCost()) + Value(Slice(shipped, received, next - received).parts, Identity()) ==
            Value(Take(shipped, next), TagCost())
  {
    SliceExact(shipped, received, next - received);
    TakeTakeValue(shipped, received, next - received, TagCost());
    assert received + (next - received) == next;
  }

  lemma LinkAfterReceipt(log: seq<Movement>, m: Movement, t: nat, source: nat, it: TransferItem, next: real)
    requires ItemOk(it) && it.received < next <= it.quantity && Linked(log, t, source, it)
    requires IsReceipt(m, t, it.item) && m.quantity == next - it.received
    requires var shipped := log[FindShipment(log, t, Loc(it.item, source))].allocations;
             m.cost.Some? &&
             m.cost.value.totalCost == Value(Slice(shipped, it.received, next - it.received).parts, Identity()) &&
             Slice(shipped, it.received, next - it.received).left <= 0.0
    ensures Linked(log + [m], t, source, it.(received := next))
  {
    var loc := Loc(it.item, source);
    var i := FindShipment(log, t, loc);
    var g := log + [m];
    assert FindShipment(g, t, loc) == i by {
      forall k | 0 <= k < |g| && IsShipment(g[k], t, loc) ensures k == i {}
      FindShipmentUnique(g, t, loc, i);
    }
    SumBySnoc(log, m, ReceivedQuantity(t, it.item));
    SumBySnoc(log, m, ReceivedCost(t, it.item));
    CarriedCost(log[i].allocations, it.received, next);
  }

  lemma {:induction false} ReceiveLinesLinks(b: Books, t: nat, receipt: nat, lines: seq<ReceiptLine>)
    requires Healthy(b) && TransfersLinked(b) && t < |b.transfers| && !Unshipped(b.transfers[t])
    requires forall i :: 0 <= i < |lines| ==> lines[i].quantity > 0.0
    requires ReceiveLines(b, t, receipt, lines).Ok?
    ensures var d := ReceiveLines(b, t, receipt, lines).value;
            Healthy(d) && TransfersLinked(d) && |d.transfers| == |b.transfers| && d.transfers[t].status == b.transfers[t].status
  {
    if lines != [] {
      ReceiveLinesLinks(b, t, receipt, lines[..|lines| - 1]);
      var c := ReceiveLines(b, t, receipt, lines[..|lines| - 1]).value;
      ReceiveLineHealthy(c, t, receipt, lines[|lines| - 1]);
      ReceiveLineLinks(c, t, receipt, lines[|lines| - 1]);
    }
  }

  lemma ReceiveLinks(b: Books, t: nat, key: nat, lines: seq<ReceiptLine>)
    requires Healthy(b) && TransfersLinked(b) && ReceiveTransfer(b, t, key, lines).Ok?
    ensures TransfersLinked(ReceiveTransfer(b, t, key, lines).value)
  {
    var r := FindReceipt(b.transfers[t].receipts, key);
    if r == |b.transfers[t].receipts| {
      ReceiveLinesLinks(b, t, r, lines);
      var c := ReceiveLines(b, t, r, lines).value;
      assert TransferLinked(c.log, t, c.transfers[t]);
      SameItemsLinked(c, ReceiveTransfer(b, t, key, lines).value, t);
    }
  }

  /** Changing only the receipts list or moving between shipped statuses keeps the link. */
  lemma SameItemsLinked(c: Books, d: Books, t: nat)
    requires TransfersLinked(c) && t < |c.transfers| && |d.transfers| == |c.transfers| && d.log == c.log
    requires forall u :: 0 <= u < |c.transfers| && u != t ==> d.transfers[u] == c.transfers[u]
    requires d.transfers[t].items == c.transfers[t].items && d.transfers[t].source == c.transfers[t].source
    requires Unshipped(d.transfers[t]) <==> Unshipped(c.transfers[t])
    ensures TransfersLinked(d)
  {
    assert TransferLinked(c.log, t, c.transfers[t]);
    forall u | 0 <= u < |d.transfers| ensures TransferLinked(d.log, u, d.transfers[u]) {
      assert TransferLinked(c.log, u, c.transfers[u]);
    }
  }

  lemma InternalLinks(b: Books, op: Op)
    requires Healthy(b) && TransfersLinked(b) && WellPosed(op) && !ForTransfers(op)
    ensures TransfersLinked(Apply(b, op))
  {
    var d := Apply(b, op);
    var steps := Decompose(b, op);
    InternalPath(b, steps);
    forall t | 0 <= t < |d.transfers| ensures TransferLinked(d.log, t, d.transfers[t]) {
      QuietLinked(b.log, d.log, t, b.transfers[t]);
    }
    forall k, t: nat | 0 <= k < |d.log| && Concerns(d.log[k], t) ensures t < |d.transfers| {
      assert Quiet(b.log, d.log, t);
    }
  }

  lemma CreateLinks(b: Books, source: nat, destination: nat, items: seq<TransferItem>)
    requires TransfersLinked(b) && CreateTransfer(b, source, destination, items).Ok?
    ensures TransfersLinked(CreateTransfer(b, source, destination, items).value)
  {
    var d := CreateTransfer(b, source, destination, items).value;
    forall t | 0 <= t < |d.transfers| ensures TransferLinked(d.log, t, d.transfers[t]) {
      if t < |b.transfers| {
        assert TransferLinked(b.log, t, b.transfers[t]);
      } else {
        forall k | 0 <= k < |b.log| ensures !Concerns(b.log[k], t) {}
      }
    }
  }

  lemma ApplyLinks(b: Books, op: Op)
    requires Healthy(b) && TransfersLinked(b) && WellPosed(op)
    ensures TransfersLinked(Apply(b, op))
  {
    if !ForTransfers(op) {
      InternalLinks(b, op);
    } else if Attempt(b, op).Ok? {
      match op
      case OpShip(t) => if b.transfers[t].status == PENDING { ShipLinks(b, t); }
      case OpReceive(t, k, ls) => ReceiveLinks(b, t, k, ls);
      case OpCreate(s, d, items) => CreateLinks(b, s, d, items);
      case OpCancelTransfer(t) =>
        if b.transfers[t].status == PENDING { SameItemsLinked(b, Apply(b, op), t); }
    }
  }

  lemma {:induction false} RunLinks(b: Books, ops: seq<Op>)
    requires Healthy(b) && TransfersLinked(b) && AllWellPosed(ops)
    ensures TransfersLinked(Run(b, ops))
  {
    if ops != [] {
      RunLinks(b, ops[..|ops| - 1]);
      RunHealthy(b, ops[..|ops| - 1]);
      ApplyLinks(Run(b, ops[..|ops| - 1]), ops[|ops| - 1]);
    }
  }

  /**
    After any run, what a shipment has not yet delivered is exactly the tail of its allocations; and
    once a line is fully received, its receipts have cost exactly what its shipment cost.
  */
  lemma ReceiptsCarryShipmentCost(b: Books, ops: seq<Op>, t: nat, j: nat)
    requires Healthy(b) && TransfersLinked(b) && AllWellPosed(ops)
    requires t < |Run(b, ops).transfers| && j < |Run(b, ops).transfers[t].items|
    requires !Unshipped(Run(b, ops).transfers[t])
    ensures var d := Run(b, ops);
            var tr := d.transfers[t];
            var it := tr.items[j];
            var i := FindShipment(d.log, t, Loc(it.item, tr.source));
            && i < |d.log|
            && Total(d.log[i]) - SumBy(d.log, ReceivedCost(t, it.item)) == Value(Drop(d.log[i].allocations, it.received), TagCost())
            && (it.received == it.quantity ==> SumBy(d.log, ReceivedCost(t, it.item)) == Total(d.log[i]))
  {
    RunLinks(b, ops);
    RunHealthy(b, ops);
    var d := Run(b, ops);
    var tr := d.transfers[t];
    var it := tr.items[j];
    assert TransferLinked(d.log, t, tr) && Linked(d.log, t, tr.source, it);
    assert TransferOk(tr) && ItemOk(it);
    var i := FindShipment(d.log, t, Loc(it.item, tr.source));
    SplitValue(d.log[i].allocations, it.received, TagCost());
    if it.received == it.quantity {
      TakeAll(d.log[i].allocations, it.received);
    }
  }

  // ------------------------------------------------------------------ when a whole receipt is accepted

  /** Whatever carries a cost is of a configured item. */
  predicate CostedConfigured(b: Books) { forall k :: 0 <= k < |b.log| && b.log[k].cost.Some? ==> b.log[k].loc.item in b.configured }

  lemma StepCosted(b: Books, s: Step)
    requires Sound(b) && CanDo(b, s) && CostedConfigured(b)
    ensures CostedConfigured(Do(b, s))
  {
    match s
    case Committing(i, kind) => assert MovementOk(b.log[i], i);
    case Releasing(i, status) =>
      assert MovementOk(b.log[i], i);
      ReleaseIsReturn(b, i, status);
    case _ =>
  }

  lemma {:induction false} PathCosted(b: Books, steps: seq<Step>)
    requires Healthy(b) && Legal(b, steps) && CostedConfigured(b)
    ensures CostedConfigured(Play(b, steps))
  {
    if steps != [] {
      PathCosted(b, steps[..|steps| - 1]);
      PathHealthy(b, steps[..|steps| - 1]);
      StepCosted(Play(b, steps[..|steps| - 1]), steps[|steps| - 1]);
    }
  }

  lemma {:induction false} RunCosted(b: Books, ops: seq<Op>)
    requires Healthy(b) && CostedConfigured(b) && AllWellPosed(ops)
    ensures CostedConfigured(Run(b, ops))
  {
    if ops != [] {
      var c := Run(b, ops[..|ops| - 1]);
      RunCosted(b, ops[..|ops| - 1]);
      RunHealthy(b, ops[..|ops| - 1]);
      var steps := Decompose(c, ops[|ops| - 1]);
      PathCosted(c, steps);
    }
  }

  predicate LineFits(items: seq<TransferItem>, line: ReceiptLine)
  {
    && line.index < |items|
    && items[line.index].received < items[line.index].quantity
    && items[line.index].received + line.quantity <= items[line.index].quantity + 0.000000001
  }

  predicate LinesFit(items: seq<TransferItem>, lines: seq<ReceiptLine>)
  {
    forall i :: 0 <= i < |lines| ==> LineFits(items, lines[i])
  }

  predicate AllPositive(lines: seq<ReceiptLine>) { forall i :: 0 <= i < |lines| ==> lines[i].quantity > 0.0 }

  lemma LineAccepted(b: Books, t: nat, receipt: nat, line: ReceiptLine)
    requires Healthy(b) && TransfersLinked(b) && CostedConfigured(b) && t < |b.transfers| && !Unshipped(b.transfers[t]) && line.quantity > 0.0
    ensures ReceiveLine(b, t, receipt, line).Ok? <==> LineFits(b.transfers[t].items, line)
  {
    var tr := b.transfers[t];
    if line.index < |tr.items| {
      var it := tr.items[line.index];
      assert TransferLinked(b.log, t, tr) && Linked(b.log, t, tr.source, it) && TransferOk(tr) && ItemOk(it);
      assert it.item in b.configured by { assert b.log[FindShipment(b.log, t, Loc(it.item, tr.source))].cost.Some?; }
      ReceiptAccepted(b, t, receipt, line);
    }
  }

  predicate Names(lines: seq<ReceiptLine>, j: nat) { exists i :: 0 <= i < |lines| && lines[i].index == j }

  /** What a receipt in progress keeps for its next line. */
  ghost predicate Receiving(b: Books, c: Books, t: nat, lines: seq<ReceiptLine>)
  {
    && Healthy(c) && TransfersLinked(c) && CostedConfigured(c)
    && t < |b.transfers| == |c.transfers| && !Unshipped(c.transfers[t]) && |c.transfers[t].items| == |b.transfers[t].items|
    && forall j: nat :: j < |b.transfers[t].items| && !Names(lines, j) ==> c.transfers[t].items[j] == b.transfers[t].items[j]
  }

  lemma ReceivingMore(b: Books, c: Books, t: nat, receipt: nat, lines: seq<ReceiptLine>)
    requires lines != [] && Receiving(b, c, t, lines[..|lines| - 1]) && lines[|lines| - 1].quantity > 0.0
    requires ReceiveLine(c, t, receipt, lines[|lines| - 1]).Ok?
    ensures Receiving(b, ReceiveLine(c, t, receipt, lines[|lines| - 1]).value, t, lines)
  {
    var line := lines[|lines| - 1];
    var d := ReceiveLine(c, t, receipt, line).value;
    ReceiveLineHealthy(c, t, receipt, line);
    ReceiveLineLinks(c, t, receipt, line);
    forall j: nat | j < |b.transfers[t].items| && !Names(lines, j) ensures d.transfers[t].items[j] == b.transfers[t].items[j] {
      assert line.index != j && !Names(lines[..|lines| - 1], j);
    }
  }

  lemma {:induction false} LinesAccepted(b: Books, t: nat, receipt: nat, lines: seq<ReceiptLine>)
    requires Healthy(b) && TransfersLinked(b) && CostedConfigured(b) && t < |b.transfers| && !Unshipped(b.transfers[t])
    requires AllPositive(lines) && DistinctLines(lines)
    ensures ReceiveLines(b, t, receipt, lines).Ok? <==> LinesFit(b.transfers[t].items, lines)
    ensures ReceiveLines(b, t, receipt, lines).Ok? ==> Receiving(b, ReceiveLines(b, t, receipt, lines).value, t, lines)
  {
    if lines != [] {
      var n := |lines| - 1;
      LinesAccepted(b, t, receipt, lines[..n]);
      LinesFitSnoc(b.transfers[t].items, lines);
      if ReceiveLines(b, t, receipt, lines[..n]).Ok? {
        LastAccepted(b, ReceiveLines(b, t, receipt, lines[..n]).value, t, receipt, lines);
      }
    }
  }

  lemma LinesFitSnoc(items: seq<TransferItem>, lines: seq<ReceiptLine>)
    requires lines != []
    ensures LinesFit(items, lines) <==> LinesFit(items, lines[..|lines| - 1]) && LineFits(items, lines[|lines| - 1])
  {
  }

  lemma LastAccepted(b: Books, c: Books, t: nat, receipt: nat, lines: seq<ReceiptLine>)
    requires lines != [] && Receiving(b, c, t, lines[..|lines| - 1]) && AllPositive(lines) && DistinctLines(lines)
    ensures ReceiveLine(c, t, receipt, lines[|lines| - 1]).Ok? <==> LineFits(b.transfers[t].items, lines[|lines| - 1])
    ensures ReceiveLine(c, t, receipt, lines[|lines| - 1]).Ok? ==>
              Receiving(b, ReceiveLine(c, t, receipt, lines[|lines| - 1]).value, t, lines)
  {
    var line := lines[|lines| - 1];
    LineAccepted(c, t, receipt, line);
    assert !Names(lines[..|lines| - 1], line.index);
    if ReceiveLine(c, t, receipt, line).Ok? { ReceivingMore(b, c, t, receipt, lines); }
  }

  lemma {:induction false} PlanFits(items: seq<TransferItem>, lines: seq<ReceiptLine>)
    requires LinesFit(items, lines)
    ensures PlanError(items, lines) == None
  {
    if lines != [] { PlanFits(items, lines[..|lines| - 1]); }
  }

  /** The request as its schema demands it: 1 to 100 lines of positive quantity, no item twice. */
  predicate WellFormed(lines: seq<ReceiptLine>) { 1 <= |lines| <= 100 && AllPositive(lines) && DistinctLines(lines) }

  /**
    After any run, a new receipt of a shipment on the road is accepted if and only if every line still
    has something outstanding and stays within it: no receipt is refused for want of cost.
  */
  lemma ReceiveAcceptedIff(b: Books, ops: seq<Op>, t: nat, key: nat, lines: seq<ReceiptLine>)
    requires Healthy(b) && TransfersLinked(b) && CostedConfigured(b) && AllWellPosed(ops)
    requires t < |Run(b, ops).transfers| && Run(b, ops).transfers[t].status in {IN_TRANSIT, PARTIALLY_RECEIVED}
    requires forall k :: 0 <= k < |Run(b, ops).transfers[t].receipts| ==> Run(b, ops).transfers[t].receipts[k].key != key
    ensures ReceiveTransfer(Run(b, ops), t, key, lines).Ok? <==> WellFormed(lines) && LinesFit(Run(b, ops).transfers[t].items, lines)
  {
    RunHealthy(b, ops);
    RunLinks(b, ops);
    RunCosted(b, ops);
    NewReceiptIff(Run(b, ops), t, key, lines);
  }

  lemma NewReceiptIff(d: Books, t: nat, key: nat, lines: seq<ReceiptLine>)
    requires Healthy(d) && TransfersLinked(d) && CostedConfigured(d)
    requires t < |d.transfers| && d.transfers[t].status in {IN_TRANSIT, PARTIALLY_RECEIVED}
    requires forall k :: 0 <= k < |d.transfers[t].receipts| ==> d.transfers[t].receipts[k].key != key
    ensures ReceiveTransfer(d, t, key, lines).Ok? <==> WellFormed(lines) && LinesFit(d.transfers[t].items, lines)
  {
    var r := |d.transfers[t].receipts|;
    assert FindReceipt(d.transfers[t].receipts, key) == r;
    if WellFormed(lines) {
      LinesAccepted(d, t, r, lines);
      if LinesFit(d.transfers[t].items, lines) { PlanFits(d.transfers[t].items, lines); }
    }
  }

  /** Redelivering a receipt under its idempotency key changes nothing, and another request under that key is refused. */
  lemma ReceiptReplay(b: Books, t: nat, key: nat, lines: seq<ReceiptLine>, again: seq<ReceiptLine>)
    requires ReceiveTransfer(b, t, key, lines).Ok?
    requires 1 <= |again| <= 100 && DistinctLines(again) && forall i :: 0 <= i < |again| ==> again[i].quantity > 0.0
    ensures var d := ReceiveTransfer(b, t, key, lines).value;
            ReceiveTransfer(d, t, key, again) == if again == lines then Ok(d) else Rejected(IdempotencyConflict)
  {
    var tr := b.transfers[t];
    var r := FindReceipt(tr.receipts, key);
    if r == |tr.receipts| {
      ReceiveLinesReceipts(b, t, r, lines);
      var d := ReceiveTransfer(b, t, key, lines).value;
      var rs := d.transfers[t].receipts;
      assert rs == tr.receipts + [Receipt(key, lines)];
      assert rs[..|rs| - 1] == tr.receipts;
      assert FindReceipt(rs, key) == |rs| - 1;
    }
  }

  lemma {:induction false} ReceiveLinesReceipts(b: Books, t: nat, receipt: nat, lines: seq<ReceiptLine>)
    requires t < |b.transfers| && ReceiveLines(b, t, receipt, lines).Ok?
    ensures ReceiveLines(b, t, receipt, lines).value.transfers[t].receipts == b.transfers[t].receipts
  {
    if lines != [] {
      ReceiveLinesReceipts(b, t, receipt, lines[..|lines| - 1]);
    }
  }
}
