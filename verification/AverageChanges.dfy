/**
  What each change of moving-average stock does, read off the rows, the averages and the log: the requested
  quantity moves at one warehouse, and the average moves only when stock comes in.
*/
module AverageChanges {
  import opened Fifo
  import opened InventoryLedger
  import opened HistoricalFifo
  import opened MovingAverage
  import opened MovingAverageProofs

  /** The change is carried out: it asks for what the code demands, and no more leaves than there is. */
  predicate Allowed(b: Averages, c: Change)
  {
    match c
    case AddStock(w, q, cost) => q >= 1.0 && cost.Some?
    case AdjustStock(w, q, cost) => HasRow(b.rows, w) && CurrentAt(b.rows, w) + q >= 0.0 && (q > 0.0 ==> cost.Some?)
    case DiscardStock(w, q) => HasRow(b.rows, w) && 1.0 <= q <= CurrentAt(b.rows, w)
    case SellStock(w, q) => HasRow(b.rows, w) && 0.0 < q <= CurrentAt(b.rows, w)
  }

  /** Stock moves at one warehouse, and one movement says by how much and at what cost. */
  ghost predicate MovesStock(b: Averages, d: Averages, w: nat, change: real, recorded: real, kind: MovementType, unitCost: real)
  {
    && d.scope == b.scope && d.item == b.item
    && (forall v: nat :: CurrentAt(d.rows, v) == CurrentAt(b.rows, v) + if v == w then change else 0.0)
    && d.log == b.log + [Movement(|b.log|, Loc(b.item, w), kind, recorded, Some(CurrentAt(b.rows, w)), Some(CurrentAt(b.rows, w) + change),
                                  NoReference, Some(Cost(unitCost, Abs(change) * unitCost)), [])]
  }

  /** The stock an average at a warehouse speaks for. */
  function Behind(b: Averages, w: nat): real { if b.scope == PerItem then Total(b.rows) else CurrentAt(b.rows, w) }

  /** q units at a unit cost come in: the average is the weighted mean, and no other warehouse's moves. */
  ghost predicate MixesIn(b: Averages, d: Averages, w: nat, q: real, unitCost: real)
  {
    && AverageCost(d, w).Some?
    && (Behind(b, w) + q) * AverageCost(d, w).value == Behind(b, w) * OrZero(AverageCost(b, w)) + q * unitCost
    && (b.scope == PerWarehouse ==> forall v: nat :: v != w ==> AverageCost(d, v) == AverageCost(b, v))
  }

  ghost predicate KeepsAverages(b: Averages, d: Averages) { forall v: nat :: AverageCost(d, v) == AverageCost(b, v) }

  lemma ComesInWhen(b: Averages, w: nat, q: real, unitCost: real, kind: MovementType)
    requires LiveOk(b) && q > 0.0
    ensures ComeIn(b, w, q, unitCost, kind).Ok?
  {
    var m := Written(b, w, kind, q, q, unitCost);
    var c := b.(rows := AddTo(b.rows, w, q), log := b.log + [m]);
    if b.scope == PerItem {
      ItemTakes(b, w, q);
      AverageKnown(c, w, q, unitCost);
    } else {
      RowTakes(b, w, q);
      AverageKnown(c, w, q, unitCost);
    }
  }

  /** When the average can be formed. */
  lemma AverageKnown(c: Averages, w: nat, q: real, unitCost: real)
    requires c.scope == PerItem ==> Total(c.rows) > 0.0 && (Total(c.rows) - q > 0.0 ==> c.itemAverage.Some?)
    requires c.scope == PerWarehouse ==>
               var i := FindRow(c.rows, w);
               i < |c.rows| && c.rows[i].quantity > 0.0 && (c.rows[i].quantity - q > 0.0 ==> c.rows[i].average.Some?)
    ensures Averaged(c, w, q, unitCost).Ok?
  {
  }

  lemma ItemTakes(b: Averages, w: nat, q: real)
    requires LiveOk(b) && b.scope == PerItem && q > 0.0
    ensures Total(AddTo(b.rows, w, q)) == Total(b.rows) + q > 0.0 && (Total(b.rows) > 0.0 ==> b.itemAverage.Some?)
  {
    TotalNonNegative(b.rows);
    AddToRow(b.rows, w, q);
  }

  /** A row with stock has its average. */
  lemma RowTakes(b: Averages, w: nat, q: real)
    requires LiveOk(b) && b.scope == PerWarehouse && q > 0.0
    ensures var i, rows := FindRow(b.rows, w), AddTo(b.rows, w, q);
            i < |rows| && FindRow(rows, w) == i && rows[i].quantity > 0.0 && (rows[i].quantity - q > 0.0 ==> rows[i].average.Some?)
  {
    AddToRow(b.rows, w, q);
    var i := FindRow(b.rows, w);
    if i < |b.rows| { assert b.rows[i].quantity >= 0.0 && (b.rows[i].quantity > 0.0 ==> b.rows[i].average.Some?); }
  }

  /** The movement a change writes. */
  lemma WrittenMoves(b: Averages, d: Averages, w: nat, change: real, recorded: real, kind: MovementType, unitCost: real)
    requires LiveOk(b) && CurrentAt(b.rows, w) + change >= 0.0
    requires Moved(b, d, w, change, Written(b, w, kind, recorded, change, unitCost))
    ensures MovesStock(b, d, w, change, recorded, kind, unitCost)
  {
    MovedStock(b, d, w, change, Written(b, w, kind, recorded, change, unitCost));
  }

  lemma InWrites(b: Averages, w: nat, q: real, unitCost: real, kind: MovementType)
    requires ComeIn(b, w, q, unitCost, kind).Ok?
    ensures ComeIn(b, w, q, unitCost, kind).value.log == b.log + [Written(b, w, kind, q, q, unitCost)]
  {
    AveragedKeepsLog(b.(rows := AddTo(b.rows, w, q), log := b.log + [Written(b, w, kind, q, q, unitCost)]), w, q, unitCost);
  }

  lemma AveragedKeepsLog(c: Averages, w: nat, q: real, unitCost: real)
    ensures Averaged(c, w, q, unitCost).Ok? ==> Averaged(c, w, q, unitCost).value.log == c.log
  {
  }

  lemma ComesIn(b: Averages, w: nat, q: real, unitCost: real, kind: MovementType)
    requires LiveOk(b) && q > 0.0 && ComeIn(b, w, q, unitCost, kind).Ok?
    ensures MovesStock(b, ComeIn(b, w, q, unitCost, kind).value, w, q, q, kind, unitCost)
  {
    ComeInAverages(b, w, q, unitCost, kind);
    InWrites(b, w, q, unitCost, kind);
    WrittenMoves(b, ComeIn(b, w, q, unitCost, kind).value, w, q, q, kind, unitCost);
  }

  lemma AverageOf(b: Averages, v: nat)
    ensures AverageCost(b, v) == if b.scope == PerItem then b.itemAverage else LiveAverage(b, v)
  {
  }

  lemma MixedIn(b: Averages, d: Averages, w: nat, q: real, unitCost: real)
    requires q > 0.0 && Total(b.rows) >= 0.0 && CurrentAt(b.rows, w) >= 0.0 && d.scope == b.scope
    requires b.scope == PerItem ==> d.itemAverage == Some(Mix(Total(b.rows), b.itemAverage, q, unitCost))
    requires b.scope == PerWarehouse ==> LiveAverage(d, w) == Some(Mix(CurrentAt(b.rows, w), LiveAverage(b, w), q, unitCost))
    requires b.scope == PerWarehouse ==> forall v :: v != w ==> LiveAverage(d, v) == LiveAverage(b, v)
    ensures MixesIn(b, d, w, q, unitCost)
  {
    AverageOf(b, w);
    AverageOf(d, w);
    MixValue(Behind(b, w), AverageCost(b, w), q, unitCost);
    if b.scope == PerWarehouse {
      forall v: nat | v != w ensures AverageCost(d, v) == AverageCost(b, v) {
        AverageOf(b, v);
        AverageOf(d, v);
        assert LiveAverage(d, v) == LiveAverage(b, v);
      }
    }
  }

  lemma ComesInMixed(b: Averages, w: nat, q: real, unitCost: real, kind: MovementType)
    requires LiveOk(b) && q > 0.0 && ComeIn(b, w, q, unitCost, kind).Ok?
    ensures MixesIn(b, ComeIn(b, w, q, unitCost, kind).value, w, q, unitCost)
  {
    ComeInAverages(b, w, q, unitCost, kind);
    MixedIn(b, ComeIn(b, w, q, unitCost, kind).value, w, q, unitCost);
  }

  lemma GoesOutWhen(b: Averages, w: nat, q: real, recorded: real, kind: MovementType)
    requires LiveOk(b) && 0.0 < q <= CurrentAt(b.rows, w)
    ensures GoOut(b, w, q, recorded, kind).Ok?
  {
    TotalNonNegative(b.rows);
  }

  lemma OutWrites(b: Averages, w: nat, q: real, recorded: real, kind: MovementType)
    requires GoOut(b, w, q, recorded, kind).Ok?
    ensures GoOut(b, w, q, recorded, kind).value.log == b.log + [Written(b, w, kind, recorded, -q, OrZero(AverageCost(b, w)))]
  {
  }

  lemma GoesOut(b: Averages, w: nat, q: real, recorded: real, kind: MovementType)
    requires LiveOk(b) && 0.0 < q <= CurrentAt(b.rows, w) && GoOut(b, w, q, recorded, kind).Ok?
    ensures MovesStock(b, GoOut(b, w, q, recorded, kind).value, w, -q, recorded, kind, OrZero(AverageCost(b, w)))
    ensures KeepsAverages(b, GoOut(b, w, q, recorded, kind).value)
  {
    var d := GoOut(b, w, q, recorded, kind).value;
    GoOutMoves(b, w, q, recorded, kind);
    OutWrites(b, w, q, recorded, kind);
    WrittenMoves(b, d, w, -q, recorded, kind, OrZero(AverageCost(b, w)));
    forall v: nat ensures AverageCost(d, v) == AverageCost(b, v) {
      AverageOf(b, v);
      AverageOf(d, v);
      assert LiveAverage(d, v) == LiveAverage(b, v);
    }
  }

  /** What an allowed change does. */
  ghost predicate Effect(b: Averages, d: Averages, c: Change)
  {
    match c
    case AddStock(w, q, cost) => cost.Some? && MovesStock(b, d, w, q, q, STOCK_IN, cost.value) && MixesIn(b, d, w, q, cost.value)
    case AdjustStock(w, q, cost) =>
      if q > 0.0 then cost.Some? && MovesStock(b, d, w, q, q, ADJUSTMENT, cost.value) && MixesIn(b, d, w, q, cost.value)
      else if q < 0.0 then MovesStock(b, d, w, q, q, ADJUSTMENT, OrZero(AverageCost(b, w))) && KeepsAverages(b, d)
      else d.rows == b.rows && d.itemAverage == b.itemAverage && |d.log| == |b.log| + 1 && d.log[..|b.log|] == b.log
    case DiscardStock(w, q) => MovesStock(b, d, w, -q, q, WASTE, OrZero(AverageCost(b, w))) && KeepsAverages(b, d)
    case SellStock(w, q) => MovesStock(b, d, w, -q, q, SALE, OrZero(AverageCost(b, w))) && KeepsAverages(b, d)
  }

  lemma AllowedEffect(b: Averages, c: Change)
    requires LiveOk(b)
    ensures TryChange(b, c).Ok? <==> Allowed(b, c)
    ensures Allowed(b, c) ==> Effect(b, Applied(b, c), c)
  {
    if Allowed(b, c) {
      match c
      case AddStock(w, q, cost) => InEffect(b, w, q, cost.value, STOCK_IN);
      case DiscardStock(w, q) => OutEffect(b, w, q, q, WASTE);
      case SellStock(w, q) => OutEffect(b, w, q, q, SALE);
      case AdjustStock(w, q, cost) => AdjustEffect(b, w, q, cost);
    }
  }

  lemma AdjustEffect(b: Averages, w: nat, q: real, cost: Option<real>)
    requires LiveOk(b) && Allowed(b, AdjustStock(w, q, cost))
    ensures TryChange(b, AdjustStock(w, q, cost)).Ok? && Effect(b, Applied(b, AdjustStock(w, q, cost)), AdjustStock(w, q, cost))
  {
    if q > 0.0 { InEffect(b, w, q, cost.value, ADJUSTMENT); }
    else if q < 0.0 { OutEffect(b, w, -q, q, ADJUSTMENT); }
  }

  lemma InEffect(b: Averages, w: nat, q: real, unitCost: real, kind: MovementType)
    requires LiveOk(b) && q > 0.0
    ensures ComeIn(b, w, q, unitCost, kind).Ok?
    ensures var d := ComeIn(b, w, q, unitCost, kind).value;
            MovesStock(b, d, w, q, q, kind, unitCost) && MixesIn(b, d, w, q, unitCost)
  {
    ComesInWhen(b, w, q, unitCost, kind);
    ComesIn(b, w, q, unitCost, kind);
    ComesInMixed(b, w, q, unitCost, kind);
  }

  lemma OutEffect(b: Averages, w: nat, q: real, recorded: real, kind: MovementType)
    requires LiveOk(b) && 0.0 < q <= CurrentAt(b.rows, w)
    ensures GoOut(b, w, q, recorded, kind).Ok?
    ensures var d := GoOut(b, w, q, recorded, kind).value;
            MovesStock(b, d, w, -q, recorded, kind, OrZero(AverageCost(b, w))) && KeepsAverages(b, d)
  {
    GoesOutWhen(b, w, q, recorded, kind);
    GoesOut(b, w, q, recorded, kind);
  }

  /**
    After any run, a change is carried out exactly when it is allowed.  It moves the requested quantity at its
    warehouse and nowhere else, records it at the given cost or at the average, and moves an average only
    when stock comes in, to the weighted mean.
  */
  lemma ChangeEffect(scope: Scope, item: nat, cs: seq<Change>, c: Change)
    ensures var b := RunChanges(NewItem(scope, item), cs);
            && (TryChange(b, c).Ok? <==> Allowed(b, c))
            && (Allowed(b, c) ==> Effect(b, Applied(b, c), c))
  {
    RunLive(scope, item, cs);
    AllowedEffect(RunChanges(NewItem(scope, item), cs), c);
  }

  // ------------------------------------------------------------------ purchases in a replay

  /** What was paid for a purchase receipt, if it came to the warehouse it was paid for. */
  function Paid(m: Movement, s: Sources): Option<real>
  {
    if m.ref.PurchaseOrderReceipt? && m.ref.receipt in s.purchases && s.purchases[m.ref.receipt].warehouse == m.loc.warehouse then
      Some(s.purchases[m.ref.receipt].unitCost)
    else None
  }

  /** The running average once q more units came in: the weighted mean with what was paid, or unknown. */
  predicate RunsOn(was: Running, now: Running, q: real, paid: Option<real>)
  {
    && now.quantity == was.quantity + q
    && if paid.None? then now.average == None
       else now.average.Some? && now.quantity * now.average.value == was.quantity * OrZero(was.average) + q * paid.value
  }

  lemma LearnsPaid(r: Running, q: real, paid: Option<real>)
    requires q > 0.0 && r.quantity >= 0.0 && (r.quantity > 0.0 ==> r.average.Some?)
    ensures RunsOn(r, MovingAverage.Settle(Learn(r, q, paid), r.quantity + q), q, paid)
  {
    if paid.Some? { MixValue(r.quantity, r.average, q, paid.value); }
  }

  /**
    In a replay, an incoming movement without a cost of its own is priced by its purchase: the averages of
    its warehouse and of the item become the weighted means, or unknown without one.
  */
  lemma PurchaseIsMixedIn(r: Replayed, m: Movement, s: Sources)
    requires m.loc.warehouse in r.at && !Gap(r.at[m.loc.warehouse], m) && Delta(m) > 0.0 && m.id !in s.known && m.cost == None
    requires var here := r.at[m.loc.warehouse]; here.quantity >= 0.0 && (here.quantity > 0.0 ==> here.average.Some?)
    requires r.item.quantity >= 0.0 && (r.item.quantity > 0.0 ==> r.item.average.Some?)
    ensures var n := VisitAverages(r, m, s);
            && n.at.Keys == r.at.Keys && n.bad == r.bad && n.itemOk == r.itemOk
            && RunsOn(r.at[m.loc.warehouse], n.at[m.loc.warehouse], Delta(m), Paid(m, s))
            && RunsOn(r.item, n.item, Delta(m), Paid(m, s))
            && forall w :: w in r.at && w != m.loc.warehouse ==> n.at[w] == r.at[w]
  {
    LearnsPaid(r.at[m.loc.warehouse], Delta(m), Paid(m, s));
    LearnsPaid(r.item, Delta(m), Paid(m, s));
  }

  lemma {:induction false} BadStaysBad(r: Replayed, log: seq<Movement>, s: Sources)
    ensures r.bad <= Fold(r, log, s).bad && (!r.itemOk ==> !Fold(r, log, s).itemOk)
  {
    if log != [] { BadStaysBad(r, log[..|log| - 1], s); }
  }

  /**
    A movement that does not start where its warehouse stood, or that takes more than there was, is never made
    up for: whatever follows, the warehouse's stock is reported with no average and an opening cost to be
    given for all of it, and the item does not replay.
  */
  lemma GapIsReported(r: Replayed, m: Movement, log: seq<Movement>, s: Sources, current: real)
    requires current > 0.0 && m.loc.warehouse in r.at
    requires Gap(r.at[m.loc.warehouse], m) || r.at[m.loc.warehouse].quantity + Delta(m) < 0.0
    ensures var z := Fold(VisitAverages(r, m, s), log, s);
            !z.itemOk && BalanceOf(z, m.loc.warehouse, current) == AverageBalance(m.loc.warehouse, current, None, false, current)
  {
    BadStaysBad(VisitAverages(r, m, s), log, s);
  }

  lemma {:induction false} LoggedIsListed(rows: seq<StockRow>, log: seq<Movement>, w: nat)
    requires FirstBefore(log, w).Some?
    ensures w in Locations(rows, log)
  {
    if FirstBefore(log[..|log| - 1], w).Some? { LoggedIsListed(rows, log[..|log| - 1], w); }
  }

  lemma {:induction false} BeginsUnknown(rows: seq<StockRow>, log: seq<Movement>, keys: seq<nat>, w: nat)
    requires w in keys && FirstBefore(log, w) == Some(None)
    ensures !Begin(rows, log, keys).itemOk
  {
    if keys[|keys| - 1] != w { BeginsUnknown(rows, log, keys[..|keys| - 1], w); }
  }

  /** When a warehouse's first movement does not say what was there before, the item does not replay. */
  lemma UnknownStartIsReported(rows: seq<StockRow>, log: seq<Movement>, s: Sources, w: nat)
    requires FirstBefore(log, w) == Some(None)
    ensures !Rebuilt(rows, log, s).itemOk
  {
    LoggedIsListed(rows, log, w);
    BeginsUnknown(rows, log, Locations(rows, log), w);
    BadStaysBad(Begin(rows, log, Locations(rows, log)), log, s);
  }
}
