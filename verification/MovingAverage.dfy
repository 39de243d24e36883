/**
  Moving averages: how stock-in, adjustments, waste and sales keep one average per warehouse or one per
  item, and how a replay rebuilds both from the movement log.
*/
module MovingAverage {
  import opened Fifo
  import opened InventoryLedger
  import opened HistoricalFifo

  datatype Scope = PerItem | PerWarehouse

  datatype StockRow = StockRow(warehouse: nat, quantity: real, average: Option<real>)

  /** The rows of one item. */
  datatype Averages = Averages(scope: Scope, item: nat, itemAverage: Option<real>, rows: seq<StockRow>, log: seq<Movement>)

  function Quantity(): StockRow -> real { (r: StockRow) => r.quantity }

  function Total(rows: seq<StockRow>): real { SumBy(rows, Quantity()) }

  function FindRow(rows: seq<StockRow>, w: nat): (i: nat)
    ensures i <= |rows|
    ensures i < |rows| ==> rows[i].warehouse == w
    ensures i == |rows| ==> forall k :: 0 <= k < |rows| ==> rows[k].warehouse != w
  {
    if rows == [] then 0
    else
      var n := |rows| - 1;
      var i := FindRow(rows[..n], w);
      if i < n then i else if rows[n].warehouse == w then n else |rows|
  }

  function OrZero(a: Option<real>): real { if a.Some? then a.value else 0.0 }

  /** The weighted mean of what was there and what comes in. */
  function Mix(before: real, average: Option<real>, q: real, unitCost: real): real
    requires before + q != 0.0
  {
    (before * OrZero(average) + q * unitCost) / (before + q)
  }

  function AddTo(rows: seq<StockRow>, w: nat, q: real): seq<StockRow>
  {
    var i := FindRow(rows, w);
    if i < |rows| then rows[i := rows[i].(quantity := rows[i].quantity + q)] else rows + [StockRow(w, q, None)]
  }

  function Written(b: Averages, w: nat, kind: MovementType, recorded: real, delta: real, unitCost: real): Movement
  {
    Movement(|b.log|, Loc(b.item, w), kind, recorded, Some(CurrentAt(b.rows, w)), Some(CurrentAt(b.rows, w) + delta), NoReference,
             Some(Cost(unitCost, Abs(delta) * unitCost)), [])
  }

  /** updateMovingAverage: the rows already hold the new quantity. */
  function Averaged(b: Averages, w: nat, q: real, unitCost: real): Outcome<Averages>
  {
    if b.scope == PerItem then
      var total := Total(b.rows);
      if total - q > 0.0 && b.itemAverage.None? then Rejected(UnitCostRequired)
      else if total == 0.0 then Rejected(InvalidQuantity)
      else Ok(b.(itemAverage := Some(Mix(total - q, b.itemAverage, q, unitCost))))
    else
      var i := FindRow(b.rows, w);
      if i >= |b.rows| then Rejected(StockNotFound)
      else
        var r := b.rows[i];
        if r.quantity - q > 0.0 && r.average.None? then Rejected(UnitCostRequired)
        else if r.quantity == 0.0 then Rejected(InvalidQuantity)
        else Ok(b.(rows := b.rows[i := r.(average := Some(Mix(r.quantity - q, r.average, q, unitCost)))]))
  }

  function ComeIn(b: Averages, w: nat, q: real, unitCost: real, kind: MovementType): Outcome<Averages>
  {
    Averaged(b.(rows := AddTo(b.rows, w, q), log := b.log + [Written(b, w, kind, q, q, unitCost)]), w, q, unitCost)
  }

  /** averageCost */
  function AverageCost(b: Averages, w: nat): Option<real>
  {
    if b.scope == PerItem then b.itemAverage
    else if FindRow(b.rows, w) < |b.rows| then b.rows[FindRow(b.rows, w)].average
    else None
  }

  function GoOut(b: Averages, w: nat, q: real, recorded: real, kind: MovementType): Outcome<Averages>
  {
    if q <= 0.0 then Rejected(InvalidQuantity)
    else
      match AverageCost(b, w)
      case None => Rejected(UnitCostRequired)
      case Some(a) => Ok(b.(rows := AddTo(b.rows, w, -q), log := b.log + [Written(b, w, kind, recorded, -q, a)]))
  }

  datatype Change =
    | AddStock(w: nat, q: real, unitCost: Option<real>)
    | AdjustStock(w: nat, q: real, unitCost: Option<real>)
    | DiscardStock(w: nat, q: real)
    | SellStock(w: nat, q: real)

  function TryChange(b: Averages, c: Change): Outcome<Averages>
  {
    match c
    case AddStock(w, q, cost) =>
      if q < 1.0 then Rejected(InvalidQuantity)
      else if cost.None? then Rejected(UnitCostRequired)
      else ComeIn(b, w, q, cost.value, STOCK_IN)
    case AdjustStock(w, q, cost) =>
      if FindRow(b.rows, w) >= |b.rows| then Rejected(StockNotFound)
      else if CurrentAt(b.rows, w) + q < 0.0 then Rejected(InsufficientStock)
      else if q > 0.0 then
        if cost.None? then Rejected(UnitCostRequired) else ComeIn(b, w, q, cost.value, ADJUSTMENT)
      else if q < 0.0 then GoOut(b, w, -q, q, ADJUSTMENT)
      else Ok(b.(log := b.log + [Written(b, w, ADJUSTMENT, 0.0, 0.0, 0.0).(cost := None)]))
    case DiscardStock(w, q) =>
      if q < 1.0 then Rejected(InvalidQuantity)
      else if FindRow(b.rows, w) >= |b.rows| then Rejected(StockNotFound)
      else if CurrentAt(b.rows, w) < q then Rejected(InsufficientStock)
      else GoOut(b, w, q, q, WASTE)
    case SellStock(w, q) =>
      if FindRow(b.rows, w) >= |b.rows| then Rejected(StockNotFound)
      else if CurrentAt(b.rows, w) < q then Rejected(InsufficientStock)
      else GoOut(b, w, q, q, SALE)
  }

  function Applied(b: Averages, c: Change): Averages
  {
    match TryChange(b, c) case Ok(d) => d case Rejected(_) => b
  }

  function RunChanges(b: Averages, cs: seq<Change>): Averages
  {
    if cs == [] then b else Applied(RunChanges(b, cs[..|cs| - 1]), cs[|cs| - 1])
  }

  function NewItem(scope: Scope, item: nat): Averages { Averages(scope, item, None, [], []) }

  // ------------------------------------------------------------------ the replay

  datatype Running = Running(quantity: real, average: Option<real>)

  /** bad holds the warehouses whose history does not reconcile. */
  datatype Replayed = Replayed(at: map<nat, Running>, item: Running, itemOk: bool, bad: set<nat>)

  function Learn(r: Running, delta: real, unitCost: Option<real>): Running
    requires delta > 0.0
  {
    if unitCost.None? then r.(average := None)
    else if r.quantity == 0.0 then r.(average := unitCost)
    else if r.average.Some? && r.quantity + delta != 0.0 then r.(average := Some(Mix(r.quantity, r.average, delta, unitCost.value)))
    else r
  }

  function Settle(r: Running, quantity: real): Running
  {
    Running(quantity, if quantity == 0.0 then None else r.average)
  }

  function UnitCostOf(m: Movement, known: map<nat, real>, purchases: map<nat, PurchaseCost>): Option<real>
  {
    if m.id in known then Some(known[m.id])
    else if m.cost.Some? then Some(m.cost.value.unitCost)
    else if m.ref.PurchaseOrderReceipt? && m.ref.receipt in purchases && purchases[m.ref.receipt].warehouse == m.loc.warehouse then
      Some(purchases[m.ref.receipt].unitCost)
    else None
  }

  datatype Sources = Sources(known: map<nat, real>, purchases: map<nat, PurchaseCost>)

  predicate Gap(r: Running, m: Movement)
  {
    || (m.before.Some? && Abs(r.quantity - m.before.value) > EPS)
    || (m.after.Some? && Abs(r.quantity + Delta(m) - m.after.value) > EPS)
  }

  function VisitAverages(r: Replayed, m: Movement, s: Sources): Replayed
  {
    var key := m.loc.warehouse;
    if key !in r.at || Gap(r.at[key], m) then r.(itemOk := false, bad := r.bad + {key})
    else
      var delta, cost := Delta(m), UnitCostOf(m, s.known, s.purchases);
      var here := if delta > 0.0 then Learn(r.at[key], delta, cost) else r.at[key];
      var item := if delta > 0.0 then Learn(r.item, delta, cost) else r.item;
      if here.quantity + delta < 0.0 || item.quantity + delta < 0.0 then
        Replayed(r.at[key := here], item, false, r.bad + {key})
      else
        r.(at := r.at[key := Settle(here, here.quantity + delta)], item := Settle(item, item.quantity + delta))
  }

  function Fold(r: Replayed, log: seq<Movement>, s: Sources): Replayed
  {
    if log == [] then r else VisitAverages(Fold(r, log[..|log| - 1], s), log[|log| - 1], s)
  }

  /** The warehouses of the stock rows, then those only the log knows. */
  function Locations(rows: seq<StockRow>, log: seq<Movement>): seq<nat>
  {
    if log != [] then
      var l := Locations(rows, log[..|log| - 1]);
      if log[|log| - 1].loc.warehouse in l then l else l + [log[|log| - 1].loc.warehouse]
    else if rows != [] then
      var l := Locations(rows[..|rows| - 1], []);
      if rows[|rows| - 1].warehouse in l then l else l + [rows[|rows| - 1].warehouse]
    else []
  }

  /** The before-quantity of a warehouse's first movement, if it has one. */
  function FirstBefore(log: seq<Movement>, w: nat): Option<Option<real>>
  {
    if log == [] then None
    else
      var f := FirstBefore(log[..|log| - 1], w);
      if f.Some? then f else if log[|log| - 1].loc.warehouse == w then Some(log[|log| - 1].before) else None
  }

  function Begin(rows: seq<StockRow>, log: seq<Movement>, keys: seq<nat>): Replayed
  {
    if keys == [] then Replayed(map[], Running(0.0, None), true, {})
    else
      var r := Begin(rows, log, keys[..|keys| - 1]);
      var key := keys[|keys| - 1];
      var i := FindRow(rows, key);
      var current := if i < |rows| then rows[i].quantity else 0.0;
      match FirstBefore(log, key)
      case Some(None) => r.(at := r.at[key := Running(current, None)], itemOk := false)
      case Some(Some(q)) => r.(at := r.at[key := Running(q, None)], item := Running(r.item.quantity + q, None))
      case None => r.(at := r.at[key := Running(current, None)], item := Running(r.item.quantity + current, None))
  }

  function Rebuilt(rows: seq<StockRow>, log: seq<Movement>, s: Sources): Replayed
  {
    Fold(Begin(rows, log, Locations(rows, log)), log, s)
  }

  datatype AverageBalance = AverageBalance(warehouse: nat, current: real, average: Option<real>, reconciled: bool, openingCost: real)

  predicate LedgerMatches(r: Replayed, w: nat, current: real)
  {
    w in r.at && Abs(r.at[w].quantity - current) <= EPS
  }

  function BalanceOf(r: Replayed, w: nat, current: real): AverageBalance
  {
    var gap := (current > 0.0 && w in r.bad) || !LedgerMatches(r, w, current);
    var unknown := current > 0.0 && (w in r.at ==> r.at[w].average.None?);
    if gap || unknown then AverageBalance(w, current, None, false, if current > 0.0 then current else 0.0)
    else AverageBalance(w, current, if w in r.at then r.at[w].average else None, true, 0.0)
  }

  function CurrentAt(rows: seq<StockRow>, w: nat): real
  {
    var i := FindRow(rows, w);
    if i < |rows| then rows[i].quantity else 0.0
  }

  predicate ItemReplays(r: Replayed, rows: seq<StockRow>, keys: seq<nat>)
  {
    && r.itemOk && (forall i :: 0 <= i < |keys| ==> LedgerMatches(r, keys[i], CurrentAt(rows, keys[i])))
    && Abs(r.item.quantity - Total(rows)) <= EPS && (Total(rows) <= 0.0 || r.item.average.Some?)
  }
}
