/**
  The inventory books: stock rows, FIFO cost layers, the movement log and warehouse transfers,
  and every transaction that changes them.

  A transaction is a function from books to an `Outcome`: a rejected transaction leaves the books
  as they were (the database rolls back).  Row and movement ids are positions in their tables,
  so table order is creation order, which is the order the FIFO query sorts by.
*/
module InventoryLedger {
  import opened Fifo

  datatype Loc = Loc(item: nat, warehouse: nat)

  datatype LayerRow = LayerRow(
    id: nat, loc: Loc, source: Option<nat>, received: real, remaining: real, unitCost: real)

  /** What a cost allocation knows about the layer it came from. */
  datatype CostTag = CostTag(layer: nat, source: Option<nat>, unitCost: real)

  type Alloc = Lot<CostTag>

  datatype MovementType =
    STOCK_IN | SALE | WASTE | ADJUSTMENT | RETURN | STOCK_OUT | PURCHASE | CONSUMPTION | PRODUCTION | TRANSFER

  datatype ReservationStatus = Active | Committed | Released | Cancelled | Expired

  datatype Reference =
    | NoReference
    | OrderSale(order: nat)
    | Reservation(order: nat, status: ReservationStatus)
    | ReservationRelease(order: nat)
    | TransferShipment(transfer: nat)
    | TransferReceipt(transfer: nat, receipt: nat)
    | PurchaseOrderReceipt(receipt: nat)

  datatype Cost = Cost(unitCost: real, totalCost: real)

  datatype Movement = Movement(
    id: nat, loc: Loc, kind: MovementType, quantity: real,
    before: Option<real>, after: Option<real>,
    ref: Reference, cost: Option<Cost>, allocations: seq<Alloc>)

  datatype TransferStatus = PENDING | IN_TRANSIT | PARTIALLY_RECEIVED | RECEIVED | CANCELLED

  datatype TransferItem = TransferItem(item: nat, quantity: real, received: real)

  datatype ReceiptLine = ReceiptLine(index: nat, quantity: real)

  datatype Receipt = Receipt(key: nat, request: seq<ReceiptLine>)

  datatype Transfer = Transfer(
    source: nat, destination: nat, items: seq<TransferItem>, status: TransferStatus, receipts: seq<Receipt>)

  datatype Books = Books(
    opening: map<Loc, real>,
    configured: set<nat>,
    stock: map<Loc, real>,
    layers: seq<LayerRow>,
    log: seq<Movement>,
    transfers: seq<Transfer>)

  datatype Error =
    | InvalidQuantity | NotConfigured | UnitCostRequired | StockNotFound | InsufficientStock
    | LayersDoNotCover | LayerMissing | TransferNotFound | WrongStatus
    | RepeatedItem | OverReceipt | IdempotencyConflict | ShipmentMissing | TransferCostDoesNotCover

  datatype Outcome<+T> = Ok(value: T) | Rejected(error: Error)

  // ------------------------------------------------------------------ reading the tables

  function OnHand(b: Books, loc: Loc): real
  {
    if loc in b.stock then b.stock[loc] else 0.0
  }

  function TagOf(l: LayerRow): CostTag { CostTag(l.id, l.source, l.unitCost) }

  predicate Open(l: LayerRow, loc: Loc) { l.loc == loc && l.remaining > 0.0 }

  /** The FIFO query: the open layers of a location, oldest first. */
  function View(layers: seq<LayerRow>, loc: Loc): (v: seq<Alloc>)
    ensures Positive(v)
  {
    if layers == [] then []
    else
      var l := layers[|layers| - 1];
      View(layers[..|layers| - 1], loc) + (if Open(l, loc) then [Lot(l.remaining, TagOf(l))] else [])
  }

  function RemainingAt(loc: Loc): LayerRow -> real
  {
    (l: LayerRow) => if l.loc == loc then l.remaining else 0.0
  }

  function Worth(): LayerRow -> real { (l: LayerRow) => l.remaining * l.unitCost }

  function TagCost(): CostTag -> real { (t: CostTag) => t.unitCost }

  predicate IsActive(m: Movement) { m.ref.Reservation? && m.ref.status == Active }

  function ActiveAt(loc: Loc): Movement -> real
  {
    (m: Movement) => if m.loc == loc && IsActive(m) then m.quantity else 0.0
  }

  /** What the log says is on hand: the last after-quantity, or what was there before the first movement. */
  function Balance(opening: map<Loc, real>, log: seq<Movement>, loc: Loc): real
  {
    if log == [] then (if loc in opening then opening[loc] else 0.0)
    else
      var m := log[|log| - 1];
      if m.loc == loc && m.after.Some? then m.after.value else Balance(opening, log[..|log| - 1], loc)
  }

  // ------------------------------------------------------------------ costing primitives

  datatype Consumption = Consumption(rows: seq<LayerRow>, allocations: seq<Alloc>, left: real)

  /** consumeFifoLayers after reading a prefix of the table. */
  function Consume(layers: seq<LayerRow>, loc: Loc, q: real): (c: Consumption)
    ensures |c.rows| == |layers|
  {
    if layers == [] then Consumption([], [], q)
    else
      var c := Consume(layers[..|layers| - 1], loc, q);
      var l := layers[|layers| - 1];
      if Open(l, loc) && c.left > 0.0 then
        var used := Min(l.remaining, c.left);
        Consumption(
          c.rows + [l.(remaining := l.remaining - used)],
          c.allocations + [Lot(used, TagOf(l))],
          c.left - used)
      else c.(rows := c.rows + [l])
  }

  function NewRows(base: nat, loc: Loc, source: nat, parts: seq<Lot<real>>): (r: seq<LayerRow>)
    ensures |r| == |parts|
    ensures forall i :: 0 <= i < |parts| ==>
              r[i] == LayerRow(base + i, loc, Some(source), parts[i].qty, parts[i].qty, parts[i].tag)
  {
    seq(|parts|, i requires 0 <= i < |parts| =>
      LayerRow(base + i, loc, Some(source), parts[i].qty, parts[i].qty, parts[i].tag))
  }

  /** Stock comes in and brings new layers with it. */
  function Credit(b: Books, loc: Loc, q: real, parts: seq<Lot<real>>, cost: Cost, kind: MovementType, ref: Reference): Books
  {
    var id, before := |b.log|, OnHand(b, loc);
    b.(stock := b.stock[loc := before + q],
       layers := b.layers + NewRows(|b.layers|, loc, id, parts),
       log := b.log + [Movement(id, loc, kind, q, Some(before), Some(before + q), ref, Some(cost), [])])
  }

  /** `receive`: one new layer at the given unit cost. */
  function ReceiveStock(b: Books, loc: Loc, q: real, unitCost: real, kind: MovementType): Books
  {
    Credit(b, loc, q, [Lot(q, unitCost)], Cost(unitCost, q * unitCost), kind, NoReference)
  }

  /** The cost fields and allocations `issue` writes on a movement. */
  function IssueCost(allocations: seq<Alloc>, q: real): Cost
    requires q > 0.0
  {
    Cost(Value(allocations, TagCost()) / q, Value(allocations, TagCost()))
  }

  /**
    Stock goes out and takes its cost from the oldest layers.  `seen` is the quantity the caller
    read, `recorded` the signed quantity it writes on the movement.
  */
  function Debit(b: Books, loc: Loc, q: real, seen: real, recorded: real, kind: MovementType, ref: Reference): Outcome<Books>
  {
    if q <= 0.0 then Rejected(InvalidQuantity)
    else if loc.item !in b.configured then Rejected(NotConfigured)
    else
      var c := Consume(b.layers, loc, q);
      if c.left > 0.0 then Rejected(LayersDoNotCover)
      else
        Ok(b.(stock := b.stock[loc := OnHand(b, loc) - q],
              layers := c.rows,
              log := b.log + [Movement(|b.log|, loc, kind, recorded, Some(seen), Some(seen - q), ref,
                                       Some(IssueCost(c.allocations, q)), c.allocations)]))
  }

  // ------------------------------------------------------------------ manual stock changes

  function StockIn(b: Books, loc: Loc, q: real, unitCost: Option<real>): Outcome<Books>
  {
    if q < 1.0 then Rejected(InvalidQuantity)
    else if loc.item !in b.configured then Rejected(NotConfigured)
    else if unitCost.None? then Rejected(UnitCostRequired)
    else Ok(ReceiveStock(b, loc, q, unitCost.value, STOCK_IN))
  }

  function Adjust(b: Books, loc: Loc, q: real, unitCost: Option<real>): Outcome<Books>
  {
    if loc.item !in b.configured then Rejected(NotConfigured)
    else if loc !in b.stock then Rejected(StockNotFound)
    else if b.stock[loc] + q < 0.0 then Rejected(InsufficientStock)
    else if q > 0.0 then
      if unitCost.None? then Rejected(UnitCostRequired)
      else Ok(ReceiveStock(b, loc, q, unitCost.value, ADJUSTMENT))
    else if q < 0.0 then Debit(b, loc, -q, b.stock[loc], q, ADJUSTMENT, NoReference)
    else
      Ok(b.(log := b.log + [Movement(|b.log|, loc, ADJUSTMENT, q, Some(b.stock[loc]), Some(b.stock[loc]), NoReference, None, [])]))
  }

  function WasteStock(b: Books, loc: Loc, q: real): Outcome<Books>
  {
    if q < 1.0 then Rejected(InvalidQuantity)
    else if loc.item !in b.configured then Rejected(NotConfigured)
    else if loc !in b.stock then Rejected(StockNotFound)
    else if b.stock[loc] < q then Rejected(InsufficientStock)
    else Debit(b, loc, q, b.stock[loc], q, WASTE, NoReference)
  }

  datatype SaleLine = SaleLine(loc: Loc, quantity: real)

  /** The direct issue of an order's lines when the order holds no committed reservation. */
  function SellLines(b: Books, order: nat, kind: MovementType, lines: seq<SaleLine>): Outcome<Books>
  {
    if lines == [] then Ok(b)
    else
      match SellLines(b, order, kind, lines[..|lines| - 1])
      case Rejected(e) => Rejected(e)
      case Ok(d) => SellLine(d, order, kind, lines[|lines| - 1])
  }

  function SellLine(d: Books, order: nat, kind: MovementType, l: SaleLine): Outcome<Books>
  {
    if l.loc.item !in d.configured then Rejected(NotConfigured)
    else if l.loc !in d.stock then Rejected(StockNotFound)
    else if d.stock[l.loc] < l.quantity then Rejected(InsufficientStock)
    else Debit(d, l.loc, l.quantity, d.stock[l.loc], l.quantity, kind, OrderSale(order))
  }

  predicate HoldsReservation(log: seq<Movement>, order: nat, statuses: set<ReservationStatus>)
  {
    exists i :: 0 <= i < |log| && log[i].ref.Reservation? && log[i].ref.order == order && log[i].ref.status in statuses
  }

  /** fulfillRetail and fulfillCafe on the books: nothing to do once a reservation was committed. */
  function Sell(b: Books, order: nat, kind: MovementType, lines: seq<SaleLine>): Outcome<Books>
  {
    if HoldsReservation(b.log, order, {Committed}) then Ok(b) else SellLines(b, order, kind, lines)
  }

  // ------------------------------------------------------------------ reservations

  datatype Requirement = Requirement(item: nat, quantity: real)

  datatype Reserving = Reserving(books: Books, left: real)

  function ReserveAt(b: Books, order: nat, loc: Loc, q: real): Books
  {
    var have := OnHand(b, loc);
    b.(stock := b.stock[loc := have - q],
       log := b.log + [Movement(|b.log|, loc, STOCK_OUT, q, Some(have), Some(have - q), Reservation(order, Active), None, [])])
  }

  predicate Eligible(b: Books, item: nat, loc: Loc)
  {
    loc.item == item && OnHand(b, loc) > 0.0
  }

  /** reserveRequirement after visiting a prefix of the stock rows. */
  function ReserveRows(b: Books, order: nat, r: Requirement, rows: seq<Loc>): Reserving
  {
    if rows == [] then Reserving(b, r.quantity)
    else
      var s := ReserveRows(b, order, r, rows[..|rows| - 1]);
      var loc := rows[|rows| - 1];
      if Eligible(b, r.item, loc) && s.left > 0.0 then
        var q := Min(OnHand(b, loc), s.left);
        Reserving(ReserveAt(s.books, order, loc, q), s.left - q)
      else s
  }

  function ReserveAll(b: Books, order: nat, reqs: seq<Requirement>, rows: seq<Loc>): Outcome<Books>
  {
    if reqs == [] then Ok(b)
    else
      match ReserveAll(b, order, reqs[..|reqs| - 1], rows)
      case Rejected(e) => Rejected(e)
      case Ok(d) =>
        var s := ReserveRows(d, order, reqs[|reqs| - 1], rows);
        if s.left > 0.0 then Rejected(InsufficientStock) else Ok(s.books)
  }

  /** reserveStock: rows are the stock rows of eligible warehouses, in creation order. */
  function Reserve(b: Books, order: nat, reqs: seq<Requirement>, rows: seq<Loc>): Outcome<Books>
  {
    if HoldsReservation(b.log, order, {Active, Committed}) then Ok(b) else ReserveAll(b, order, reqs, rows)
  }

  function CommitOne(b: Books, i: nat, kind: MovementType): Outcome<Books>
    requires i < |b.log| && b.log[i].ref.Reservation?
  {
    var m := b.log[i].(ref := Reservation(b.log[i].ref.order, Committed), kind := kind);
    if m.allocations != [] then Ok(b.(log := b.log[i := m]))
    else if m.quantity <= 0.0 then Rejected(InvalidQuantity)
    else if m.loc.item !in b.configured then Rejected(NotConfigured)
    else
      var c := Consume(b.layers, m.loc, m.quantity);
      if c.left > 0.0 then Rejected(LayersDoNotCover)
      else Ok(b.(layers := c.rows,
                 log := b.log[i := m.(cost := Some(IssueCost(c.allocations, m.quantity)), allocations := c.allocations)]))
  }

  predicate HeldBy(m: Movement, order: nat) { IsActive(m) && m.ref.order == order }

  /** commitReservation after handling the first n movements of the log. */
  function CommitUpTo(b: Books, order: nat, kind: MovementType, n: nat): (o: Outcome<Books>)
    requires n <= |b.log|
    ensures o.Ok? ==> |o.value.log| == |b.log|
  {
    if n == 0 then Ok(b)
    else
      match CommitUpTo(b, order, kind, n - 1)
      case Rejected(e) => Rejected(e)
      case Ok(d) => if HeldBy(d.log[n - 1], order) then CommitOne(d, n - 1, kind) else Ok(d)
  }

  function Commit(b: Books, order: nat, kind: MovementType): Outcome<Books>
  {
    CommitUpTo(b, order, kind, |b.log|)
  }

  /** Which active reservations a release, a cancellation or an expiry claims. */
  datatype Claim = OfOrder(order: nat) | OlderThan(cutoff: nat)

  predicate Claims(c: Claim, m: Movement)
  {
    IsActive(m) && (match c case OfOrder(o) => m.ref.order == o case OlderThan(t) => m.id < t)
  }

  /** `restore`: put each allocation back on its layer. */
  function RestoreRows(layers: seq<LayerRow>, allocations: seq<Alloc>): (r: seq<LayerRow>)
    ensures |r| == |layers|
  {
    if allocations == [] then layers
    else
      var r := RestoreRows(layers, allocations[..|allocations| - 1]);
      var a := allocations[|allocations| - 1];
      if a.tag.layer < |r| then r[a.tag.layer := r[a.tag.layer].(remaining := r[a.tag.layer].remaining + a.qty)] else r
  }

  function ReleaseOne(b: Books, i: nat, status: ReservationStatus): Outcome<Books>
    requires i < |b.log| && b.log[i].ref.Reservation?
  {
    var m, id := b.log[i], |b.log|;
    var before := OnHand(b, m.loc);
    if m.allocations != [] && m.loc.item !in b.configured then Rejected(NotConfigured)
    else if m.allocations != [] && m.quantity <= 0.0 then Rejected(InvalidQuantity)
    else if exists a :: a in m.allocations && a.tag.layer >= |b.layers| then Rejected(LayerMissing)
    else
      var cost := if m.allocations == [] then None else Some(IssueCost(m.allocations, m.quantity));
      Ok(b.(stock := b.stock[m.loc := before + m.quantity],
            layers := RestoreRows(b.layers, m.allocations),
            log := b.log[i := m.(ref := Reservation(m.ref.order, status))] +
                   [Movement(id, m.loc, RETURN, m.quantity, Some(before), Some(before + m.quantity),
                             ReservationRelease(m.ref.order), cost, m.allocations)]))
  }

  /** releaseReservation, cancelReservation and expireReservations over the first n movements. */
  function ReleaseUpTo(b: Books, claim: Claim, status: ReservationStatus, n: nat): (o: Outcome<Books>)
    requires n <= |b.log|
    ensures o.Ok? ==> |o.value.log| >= |b.log|
  {
    if n == 0 then Ok(b)
    else
      match ReleaseUpTo(b, claim, status, n - 1)
      case Rejected(e) => Rejected(e)
      case Ok(d) => if Claims(claim, d.log[n - 1]) then ReleaseOne(d, n - 1, status) else Ok(d)
  }

  function Release(b: Books, claim: Claim, status: ReservationStatus): Outcome<Books>
  {
    ReleaseUpTo(b, claim, status, |b.log|)
  }

  // ------------------------------------------------------------------ warehouse transfers

  predicate DistinctItems(items: seq<TransferItem>)
  {
    forall i, j :: 0 <= i < j < |items| ==> items[i].item != items[j].item
  }

  function CreateTransfer(b: Books, source: nat, destination: nat, items: seq<TransferItem>): Outcome<Books>
  {
    if source == destination then Rejected(InvalidQuantity)
    else if |items| < 1 || |items| > 100 then Rejected(InvalidQuantity)
    else if exists i :: 0 <= i < |items| && (items[i].quantity < 0.1 || items[i].received != 0.0) then Rejected(InvalidQuantity)
    else if !DistinctItems(items) then Rejected(RepeatedItem)
    else Ok(b.(transfers := b.transfers + [Transfer(source, destination, items, PENDING, [])]))
  }

  /** One shipped line; `seen` holds the stock rows as read before the loop. */
  function ShipLine(d: Books, seen: map<Loc, real>, t: nat, loc: Loc, quantity: real): Outcome<Books>
  {
    if loc.item !in d.configured then Rejected(NotConfigured)
    else if loc !in seen || seen[loc] < quantity then Rejected(InsufficientStock)
    else if OnHand(d, loc) < quantity then Rejected(InsufficientStock)
    else Debit(d, loc, quantity, seen[loc], quantity, TRANSFER, TransferShipment(t))
  }

  /** The ship loop after n items. */
  function ShipUpTo(b: Books, t: nat, n: nat): Outcome<Books>
    requires t < |b.transfers| && n <= |b.transfers[t].items|
  {
    if n == 0 then Ok(b)
    else
      match ShipUpTo(b, t, n - 1)
      case Rejected(e) => Rejected(e)
      case Ok(d) =>
        var line := b.transfers[t].items[n - 1];
        ShipLine(d, b.stock, t, Loc(line.item, b.transfers[t].source), line.quantity)
  }

  function Ship(b: Books, t: nat): Outcome<Books>
  {
    if t >= |b.transfers| then Rejected(TransferNotFound)
    else
      match b.transfers[t].status
      case CANCELLED => Rejected(WrongStatus)
      case PENDING =>
        (match ShipUpTo(b, t, |b.transfers[t].items|)
         case Rejected(e) => Rejected(e)
         case Ok(d) =>
           if t < |d.transfers| then Ok(d.(transfers := d.transfers[t := d.transfers[t].(status := IN_TRANSIT)]))
           else Rejected(TransferNotFound))
      case _ => Ok(b)
  }

  function CancelTransfer(b: Books, t: nat): Outcome<Books>
  {
    if t >= |b.transfers| then Rejected(TransferNotFound)
    else
      match b.transfers[t].status
      case CANCELLED => Ok(b)
      case PENDING => Ok(b.(transfers := b.transfers[t := b.transfers[t].(status := CANCELLED)]))
      case _ => Rejected(WrongStatus)
  }

  datatype Slicing = Slicing(parts: seq<Lot<real>>, skip: real, left: real)

  /** The copying loop of receiveTransfer after a prefix of the shipment's allocations. */
  function Slice(allocations: seq<Alloc>, skip: real, q: real): Slicing
  {
    if allocations == [] then Slicing([], skip, q)
    else
      var s := Slice(allocations[..|allocations| - 1], skip, q);
      var a := allocations[|allocations| - 1];
      if s.left <= 0.0 then s
      else if s.skip >= a.qty then s.(skip := s.skip - a.qty)
      else
        var copied := Min(a.qty - s.skip, s.left);
        Slicing(s.parts + [Lot(copied, a.tag.unitCost)], 0.0, s.left - copied)
  }

  function Identity(): real -> real { (c: real) => c }

  predicate IsShipment(m: Movement, t: nat, loc: Loc)
  {
    m.ref == TransferShipment(t) && m.loc == loc
  }

  /** The shipment movement a receipt takes its cost from. */
  function FindShipment(log: seq<Movement>, t: nat, loc: Loc): (i: nat)
    ensures i <= |log|
    ensures i < |log| ==> IsShipment(log[i], t, loc)
  {
    if log == [] then 0
    else
      var n := |log| - 1;
      var i := FindShipment(log[..n], t, loc);
      if i < n then i else if IsShipment(log[n], t, loc) then n else |log|
  }

  /** How much of a receipt line is accepted: capped at what was shipped, refused beyond the tolerance. */
  function Planned(line: TransferItem, q: real): Outcome<real>
  {
    var next := line.received + q;
    if next - line.quantity > 0.000000001 then Rejected(OverReceipt) else Ok(Min(next, line.quantity))
  }

  function ReceiveLine(b: Books, t: nat, receipt: nat, line: ReceiptLine): Outcome<Books>
    requires t < |b.transfers|
  {
    var tr := b.transfers[t];
    if line.index >= |tr.items| then Rejected(TransferNotFound)
    else
      var it := tr.items[line.index];
      match Planned(it, line.quantity)
      case Rejected(e) => Rejected(e)
      case Ok(next) =>
        var delta := next - it.received;
        var loc := Loc(it.item, tr.destination);
        var i := FindShipment(b.log, t, Loc(it.item, tr.source));
        if it.item !in b.configured then Rejected(NotConfigured)
        else if i >= |b.log| || b.log[i].cost.None? then Rejected(ShipmentMissing)
        else if delta <= 0.0 then Rejected(InvalidQuantity)
        else
          var s := Slice(b.log[i].allocations, it.received, delta);
          if s.left > 0.0 then Rejected(TransferCostDoesNotCover)
          else
            var total := Value(s.parts, Identity());
            var d := Credit(b, loc, delta, s.parts, Cost(total / delta, total), TRANSFER, TransferReceipt(t, receipt));
            Ok(d.(transfers := d.transfers[t := tr.(items := tr.items[line.index := it.(received := next)])]))
  }

  function ReceiveLines(b: Books, t: nat, receipt: nat, lines: seq<ReceiptLine>): (o: Outcome<Books>)
    requires t < |b.transfers|
    ensures o.Ok? ==> |o.value.transfers| == |b.transfers|
  {
    if lines == [] then Ok(b)
    else
      match ReceiveLines(b, t, receipt, lines[..|lines| - 1])
      case Rejected(e) => Rejected(e)
      case Ok(d) => ReceiveLine(d, t, receipt, lines[|lines| - 1])
  }

  /** The receipt is planned line by line before anything is written. */
  function PlanError(items: seq<TransferItem>, lines: seq<ReceiptLine>): Option<Error>
  {
    if lines == [] then None
    else
      var e := PlanError(items, lines[..|lines| - 1]);
      var l := lines[|lines| - 1];
      if e.Some? then e
      else if l.index >= |items| then Some(TransferNotFound)
      else if Planned(items[l.index], l.quantity).Rejected? then Some(OverReceipt)
      else None
  }

  predicate DistinctLines(lines: seq<ReceiptLine>)
  {
    forall i, j :: 0 <= i < j < |lines| ==> lines[i].index != lines[j].index
  }

  function FindReceipt(receipts: seq<Receipt>, key: nat): (i: nat)
    ensures i <= |receipts|
    ensures i < |receipts| ==> receipts[i].key == key
    ensures i == |receipts| ==> forall k :: 0 <= k < |receipts| ==> receipts[k].key != key
  {
    if receipts == [] then 0
    else
      var n := |receipts| - 1;
      var i := FindReceipt(receipts[..n], key);
      if i < n then i else if receipts[n].key == key then n else |receipts|
  }

  function StatusAfter(items: seq<TransferItem>): TransferStatus
  {
    if forall i :: 0 <= i < |items| ==> items[i].received >= items[i].quantity - 0.000000001 then RECEIVED
    else PARTIALLY_RECEIVED
  }

  function ReceiveTransfer(b: Books, t: nat, key: nat, lines: seq<ReceiptLine>): Outcome<Books>
  {
    if |lines| < 1 || |lines| > 100 then Rejected(InvalidQuantity)
    else if exists i :: 0 <= i < |lines| && lines[i].quantity <= 0.0 then Rejected(InvalidQuantity)
    else if !DistinctLines(lines) then Rejected(RepeatedItem)
    else if t >= |b.transfers| then Rejected(TransferNotFound)
    else
      var tr := b.transfers[t];
      var r := FindReceipt(tr.receipts, key);
      if r < |tr.receipts| then
        if tr.receipts[r].request == lines then Ok(b) else Rejected(IdempotencyConflict)
      else if tr.status != IN_TRANSIT && tr.status != PARTIALLY_RECEIVED then Rejected(WrongStatus)
      else if PlanError(tr.items, lines).Some? then Rejected(PlanError(tr.items, lines).value)
      else
        match ReceiveLines(b, t, r, lines)
        case Rejected(e) => Rejected(e)
        case Ok(d) =>
          var after := d.transfers[t];
          Ok(d.(transfers := d.transfers[t :=
                after.(receipts := after.receipts + [Receipt(key, lines)], status := StatusAfter(after.items))]))
  }

  // ------------------------------------------------------------------ runs

  datatype Op =
    | OpStockIn(loc: Loc, q: real, unitCost: Option<real>)
    | OpAdjust(loc: Loc, q: real, unitCost: Option<real>)
    | OpWaste(loc: Loc, q: real)
    | OpSell(order: nat, kind: MovementType, lines: seq<SaleLine>)
    | OpReserve(order: nat, reqs: seq<Requirement>, rows: seq<Loc>)
    | OpCommit(order: nat, kind: MovementType)
    | OpRelease(claim: Claim, status: ReservationStatus)
    | OpCreate(source: nat, destination: nat, items: seq<TransferItem>)
    | OpShip(t: nat)
    | OpReceive(t: nat, key: nat, request: seq<ReceiptLine>)
    | OpCancelTransfer(t: nat)

  function Attempt(b: Books, op: Op): Outcome<Books>
  {
    match op
    case OpStockIn(loc, q, c) => StockIn(b, loc, q, c)
    case OpAdjust(loc, q, c) => Adjust(b, loc, q, c)
    case OpWaste(loc, q) => WasteStock(b, loc, q)
    case OpSell(o, k, ls) => Sell(b, o, k, ls)
    case OpReserve(o, rs, rows) => Reserve(b, o, rs, rows)
    case OpCommit(o, k) => Commit(b, o, k)
    case OpRelease(c, s) => if s in {Released, Cancelled, Expired} then Release(b, c, s) else Rejected(WrongStatus)
    case OpCreate(s, d, items) => CreateTransfer(b, s, d, items)
    case OpShip(t) => Ship(b, t)
    case OpReceive(t, k, ls) => ReceiveTransfer(b, t, k, ls)
    case OpCancelTransfer(t) => CancelTransfer(b, t)
  }

  function Apply(b: Books, op: Op): Books
  {
    match Attempt(b, op)
    case Ok(d) => d
    case Rejected(_) => b
  }

  function Run(b: Books, ops: seq<Op>): Books
  {
    if ops == [] then b else Apply(Run(b, ops[..|ops| - 1]), ops[|ops| - 1])
  }

  function Empty(configured: set<nat>): Books { Books(map[], configured, map[], [], [], []) }
}
