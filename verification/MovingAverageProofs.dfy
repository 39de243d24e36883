/**
  The replayed averages are the live ones: after any run of stock-in, adjustments, waste and sales, in
  any number of warehouses, the replay reports reconciled and finds the stored average wherever there is
  stock.  And the averages lose no value.
*/
module MovingAverageProofs {
  import opened Fifo
  import opened InventoryLedger
  import opened HistoricalFifo
  import opened MovingAverage

  // ------------------------------------------------------------------ rows

  predicate RowsOk(rows: seq<StockRow>)
  {
    && (forall i :: 0 <= i < |rows| ==> rows[i].quantity >= 0.0)
    && (forall i, j :: 0 <= i < j < |rows| ==> rows[i].warehouse != rows[j].warehouse)
  }

  predicate HasRow(rows: seq<StockRow>, w: nat) { FindRow(rows, w) < |rows| }

  lemma FindRowUnique(rows: seq<StockRow>, i: nat)
    requires RowsOk(rows) && i < |rows|
    ensures FindRow(rows, rows[i].warehouse) == i
  {
    var j := FindRow(rows, rows[i].warehouse);
    assert j < |rows|;
  }

  lemma TotalNonNegative(rows: seq<StockRow>)
    requires RowsOk(rows)
    ensures Total(rows) >= 0.0 && forall w :: CurrentAt(rows, w) <= Total(rows)
  {
    forall i | 0 <= i < |rows| ensures Quantity()(rows[i]) >= 0.0 {}
    SumByNonNegative(rows, Quantity());
    forall w ensures CurrentAt(rows, w) <= Total(rows) {
      var i := FindRow(rows, w);
      if i < |rows| { assert Quantity()(rows[i]) == rows[i].quantity; }
    }
  }

  lemma AddToRow(rows: seq<StockRow>, w: nat, q: real)
    requires RowsOk(rows) && CurrentAt(rows, w) + q >= 0.0
    ensures var n := AddTo(rows, w, q);
            && RowsOk(n) && Total(n) == Total(rows) + q && |rows| <= |n|
            && HasRow(n, w) && FindRow(n, w) == FindRow(rows, w) && n[FindRow(n, w)].quantity == CurrentAt(rows, w) + q
            && (forall i :: 0 <= i < |rows| ==> n[i] == rows[i].(quantity := n[i].quantity) && (rows[i].warehouse != w ==> n[i] == rows[i]))
            && (|n| > |rows| ==> |n| == |rows| + 1 && n[|rows|] == StockRow(w, q, None) && !HasRow(rows, w))
  {
    var i, n := FindRow(rows, w), AddTo(rows, w, q);
    if i < |rows| {
      SumByUpdate(rows, i, n[i], Quantity());
      assert RowsOk(n);
      FindRowUnique(n, i);
    } else {
      SumBySnoc(rows, n[|rows|], Quantity());
      assert RowsOk(n);
      FindRowUnique(n, |rows|);
    }
  }

  /** Same warehouses and quantities, only averages differ. */
  predicate SameStock(xs: seq<StockRow>, ys: seq<StockRow>)
  {
    |xs| == |ys| && forall i :: 0 <= i < |xs| ==> ys[i] == xs[i].(average := ys[i].average)
  }

  lemma {:induction false} SameStockTotals(xs: seq<StockRow>, ys: seq<StockRow>)
    requires SameStock(xs, ys)
    ensures Total(ys) == Total(xs) && forall w :: FindRow(ys, w) == FindRow(xs, w)
  {
    if xs != [] {
      SameStockTotals(xs[..|xs| - 1], ys[..|ys| - 1]);
    }
  }

  lemma CurrentAfter(rows: seq<StockRow>, w: nat, q: real)
    requires RowsOk(rows) && CurrentAt(rows, w) + q >= 0.0
    ensures forall v :: CurrentAt(AddTo(rows, w, q), v) == CurrentAt(rows, v) + if v == w then q else 0.0
    ensures forall v :: HasRow(AddTo(rows, w, q), v) <==> HasRow(rows, v) || v == w
  {
    AddToRow(rows, w, q);
    var n := AddTo(rows, w, q);
    forall v | v != w
      ensures CurrentAt(n, v) == CurrentAt(rows, v) && (HasRow(n, v) <==> HasRow(rows, v))
    {
      var i, j := FindRow(rows, v), FindRow(n, v);
      if i < |rows| { FindRowUnique(n, i); }
    }
  }

  // ------------------------------------------------------------------ live states

  /** Wherever there is stock there is an average, and every row came from a first movement at zero. */
  ghost predicate LiveOk(b: Averages)
  {
    && RowsOk(b.rows)
    && (b.scope == PerItem && Total(b.rows) > 0.0 ==> b.itemAverage.Some?)
    && (b.scope == PerWarehouse ==> forall i :: 0 <= i < |b.rows| && b.rows[i].quantity > 0.0 ==> b.rows[i].average.Some?)
    && (forall w: nat :: FirstBefore(b.log, w) == if HasRow(b.rows, w) then Some(Some(0.0)) else None)
    && (forall k :: 0 <= k < |b.log| ==> b.log[k].id == k)
  }

  /** The replay's state is the live one; it forgets an average that no stock carries. */
  predicate Mirrors(r: Running, quantity: real) { r.quantity == quantity && (r.average.Some? <==> quantity > 0.0) }

  predicate Agrees(r: Running, quantity: real, average: Option<real>) { quantity > 0.0 ==> r.average == average }

  function LiveAverage(b: Averages, w: nat): Option<real>
  {
    var i := FindRow(b.rows, w);
    if i < |b.rows| then b.rows[i].average else None
  }

  ghost predicate ReplayOk(b: Averages, r: Replayed)
  {
    && r.itemOk && r.bad == {}
    && Mirrors(r.item, Total(b.rows)) && (b.scope == PerItem ==> Agrees(r.item, Total(b.rows), b.itemAverage))
    && (forall w :: w in r.at ==> Mirrors(r.at[w], CurrentAt(b.rows, w)))
    && (b.scope == PerWarehouse ==> forall w :: w in r.at ==> Agrees(r.at[w], CurrentAt(b.rows, w), LiveAverage(b, w)))
  }

  predicate ZeroStart(r: Replayed)
  {
    r.itemOk && r.bad == {} && r.item == Running(0.0, None) && forall w :: w in r.at ==> r.at[w] == Running(0.0, None)
  }

  // ------------------------------------------------------------------ one change

  lemma MixFresh(average: Option<real>, q: real, unitCost: real)
    requires q > 0.0
    ensures Mix(0.0, average, q, unitCost) == unitCost
  {
    assert 0.0 * OrZero(average) + q * unitCost == q * unitCost;
  }

  /** What a replay learns from an incoming movement is what the live code computes. */
  lemma Learns(r: Running, quantity: real, average: Option<real>, q: real, unitCost: real)
    requires Mirrors(r, quantity) && quantity >= 0.0 && q > 0.0
    ensures var n := Settle(Learn(r, q, Some(unitCost)), quantity + q);
            && Mirrors(n, quantity + q)
            && (Agrees(r, quantity, average) ==> n.average == Some(Mix(quantity, average, q, unitCost)))
  {
    if quantity == 0.0 { MixFresh(average, q, unitCost); }
  }

  lemma FirstSnoc(log: seq<Movement>, m: Movement, w: nat)
    ensures FirstBefore(log + [m], w) ==
            if FirstBefore(log, w).Some? then FirstBefore(log, w) else if m.loc.warehouse == w then Some(m.before) else None
  {
    assert (log + [m])[..|log|] == log;
  }

  /** What a change did to the rows and the log, apart from averages. */
  predicate Moved(b: Averages, d: Averages, w: nat, delta: real, m: Movement)
  {
    && d.scope == b.scope && d.item == b.item && SameStock(AddTo(b.rows, w, delta), d.rows) && d.log == b.log + [m]
    && m.id == |b.log| && m.loc.warehouse == w
    && m.before == Some(CurrentAt(b.rows, w)) && m.after == Some(CurrentAt(b.rows, w) + delta)
  }

  lemma MovedStock(b: Averages, d: Averages, w: nat, delta: real, m: Movement)
    requires LiveOk(b) && Moved(b, d, w, delta, m) && CurrentAt(b.rows, w) + delta >= 0.0
    ensures RowsOk(d.rows) && Total(d.rows) == Total(b.rows) + delta
    ensures forall v :: CurrentAt(d.rows, v) == CurrentAt(b.rows, v) + if v == w then delta else 0.0
    ensures forall v :: HasRow(d.rows, v) <==> HasRow(b.rows, v) || v == w
    ensures forall v: nat :: FirstBefore(d.log, v) == if HasRow(d.rows, v) then Some(Some(0.0)) else None
    ensures forall k :: 0 <= k < |d.log| ==> d.log[k].id == k
    ensures Total(d.rows) >= CurrentAt(b.rows, w) + delta
  {
    AddToRow(b.rows, w, delta);
    CurrentAfter(b.rows, w, delta);
    SameStockTotals(AddTo(b.rows, w, delta), d.rows);
    forall v: nat ensures FirstBefore(d.log, v) == if HasRow(d.rows, v) then Some(Some(0.0)) else None {
      FirstSnoc(b.log, m, v);
      assert FirstBefore(b.log, v) == if HasRow(b.rows, v) then Some(Some(0.0)) else None;
    }
    TotalNonNegative(d.rows);
  }

  predicate Reads(s: Sources, m: Movement, unitCost: real) { UnitCostOf(m, s.known, s.purchases) == Some(unitCost) }

  lemma ComeInAverages(b: Averages, w: nat, q: real, unitCost: real, kind: MovementType)
    requires LiveOk(b) && q > 0.0 && ComeIn(b, w, q, unitCost, kind).Ok?
    ensures var d := ComeIn(b, w, q, unitCost, kind).value;
            && Moved(b, d, w, q, d.log[|b.log|]) && Total(b.rows) >= 0.0 && CurrentAt(b.rows, w) >= 0.0
            && (b.scope == PerItem ==> d.itemAverage == Some(Mix(Total(b.rows), b.itemAverage, q, unitCost)))
            && (b.scope == PerWarehouse ==>
                  && LiveAverage(d, w) == Some(Mix(CurrentAt(b.rows, w), LiveAverage(b, w), q, unitCost))
                  && (forall v :: v != w ==> LiveAverage(d, v) == LiveAverage(b, v))
                  && forall k :: 0 <= k < |d.rows| && k != FindRow(b.rows, w) ==> d.rows[k] == AddTo(b.rows, w, q)[k])
  {
    AddToRow(b.rows, w, q);
    TotalNonNegative(b.rows);
    var d := ComeIn(b, w, q, unitCost, kind).value;
    SameStockTotals(AddTo(b.rows, w, q), d.rows);
    forall v | b.scope == PerWarehouse && v != w ensures LiveAverage(d, v) == LiveAverage(b, v) {
      CurrentAfter(b.rows, w, q);
      var i := FindRow(b.rows, v);
      if i < |b.rows| { FindRowUnique(AddTo(b.rows, w, q), i); }
    }
  }

  lemma ComeInLive(b: Averages, w: nat, q: real, unitCost: real, kind: MovementType)
    requires LiveOk(b) && q > 0.0 && ComeIn(b, w, q, unitCost, kind).Ok?
    ensures LiveOk(ComeIn(b, w, q, unitCost, kind).value)
  {
    var d := ComeIn(b, w, q, unitCost, kind).value;
    ComeInAverages(b, w, q, unitCost, kind);
    MovedStock(b, d, w, q, d.log[|b.log|]);
    forall i | b.scope == PerWarehouse && 0 <= i < |d.rows| && d.rows[i].quantity > 0.0 ensures d.rows[i].average.Some? {
      FindRowUnique(d.rows, i);
      var v := d.rows[i].warehouse;
      if v != w {
        assert LiveAverage(d, v) == LiveAverage(b, v);
        assert CurrentAt(d.rows, v) == CurrentAt(b.rows, v);
      }
    }
  }

  /** The replay state after one more movement that fits. */
  lemma VisitFits(r: Replayed, m: Movement, s: Sources, w: nat, q: real, total: real, delta: real)
    requires w in r.at && r.at[w].quantity == q && r.item.quantity == total && m.loc.warehouse == w
    requires m.before == Some(q) && m.after == Some(q + delta) && q + delta >= 0.0 && total + delta >= 0.0
    ensures var here := if delta > 0.0 then Learn(r.at[w], delta, UnitCostOf(m, s.known, s.purchases)) else r.at[w];
            var item := if delta > 0.0 then Learn(r.item, delta, UnitCostOf(m, s.known, s.purchases)) else r.item;
            VisitAverages(r, m, s) == r.(at := r.at[w := Settle(here, q + delta)], item := Settle(item, total + delta))
  {
    assert Delta(m) == delta;
    assert Abs(q - q) == 0.0 && Abs(q + delta - (q + delta)) == 0.0;
  }

  /** Only the replay's view of one warehouse and of the item changed. */
  lemma ReplayMoves(b: Averages, d: Averages, r: Replayed, w: nat, here: Running, item: Running)
    requires ReplayOk(b, r) && w in r.at && d.scope == b.scope
    requires Mirrors(item, Total(d.rows)) && (b.scope == PerItem ==> Agrees(item, Total(d.rows), d.itemAverage))
    requires Mirrors(here, CurrentAt(d.rows, w)) && (b.scope == PerWarehouse ==> Agrees(here, CurrentAt(d.rows, w), LiveAverage(d, w)))
    requires forall v :: v != w ==> CurrentAt(d.rows, v) == CurrentAt(b.rows, v)
    requires b.scope == PerWarehouse ==> forall v :: v != w ==> LiveAverage(d, v) == LiveAverage(b, v)
    ensures ReplayOk(d, r.(at := r.at[w := here], item := item))
  {
  }

  lemma ComeInReplays(b: Averages, w: nat, q: real, unitCost: real, kind: MovementType, r: Replayed, s: Sources)
    requires LiveOk(b) && ReplayOk(b, r) && w in r.at && q > 0.0 && ComeIn(b, w, q, unitCost, kind).Ok?
    requires |b.log| !in s.known
    ensures ReplayOk(ComeIn(b, w, q, unitCost, kind).value, VisitAverages(r, ComeIn(b, w, q, unitCost, kind).value.log[|b.log|], s))
  {
    var d := ComeIn(b, w, q, unitCost, kind).value;
    var m := d.log[|b.log|];
    ComeInAverages(b, w, q, unitCost, kind);
    MovedStock(b, d, w, q, m);
    ComeInVisits(b, d, w, q, unitCost, m, r, s);
  }

  lemma ComeInVisits(b: Averages, d: Averages, w: nat, q: real, unitCost: real, m: Movement, r: Replayed, s: Sources)
    requires ReplayOk(b, r) && w in r.at && q > 0.0 && d.scope == b.scope
    requires m.loc.warehouse == w && UnitCostOf(m, s.known, s.purchases) == Some(unitCost)
    requires m.before == Some(CurrentAt(b.rows, w)) && m.after == Some(CurrentAt(b.rows, w) + q)
    requires Total(b.rows) >= 0.0 && CurrentAt(b.rows, w) >= 0.0
    requires Total(d.rows) == Total(b.rows) + q && (forall v :: CurrentAt(d.rows, v) == CurrentAt(b.rows, v) + if v == w then q else 0.0)
    requires b.scope == PerItem ==> d.itemAverage == Some(Mix(Total(b.rows), b.itemAverage, q, unitCost))
    requires b.scope == PerWarehouse ==>
               LiveAverage(d, w) == Some(Mix(CurrentAt(b.rows, w), LiveAverage(b, w), q, unitCost)) &&
               forall v :: v != w ==> LiveAverage(d, v) == LiveAverage(b, v)
    ensures ReplayOk(d, VisitAverages(r, m, s))
  {
    VisitFits(r, m, s, w, CurrentAt(b.rows, w), Total(b.rows), q);
    Learns(r.item, Total(b.rows), b.itemAverage, q, unitCost);
    Learns(r.at[w], CurrentAt(b.rows, w), LiveAverage(b, w), q, unitCost);
    ReplayMoves(b, d, r, w, Settle(Learn(r.at[w], q, Some(unitCost)), CurrentAt(b.rows, w) + q),
                Settle(Learn(r.item, q, Some(unitCost)), Total(b.rows) + q));
  }

  lemma GoOutMoves(b: Averages, w: nat, q: real, recorded: real, kind: MovementType)
    requires LiveOk(b) && 0.0 < q <= CurrentAt(b.rows, w) && GoOut(b, w, q, recorded, kind).Ok?
    ensures var d := GoOut(b, w, q, recorded, kind).value;
            && Moved(b, d, w, -q, d.log[|b.log|]) && d.itemAverage == b.itemAverage
            && forall v :: LiveAverage(d, v) == LiveAverage(b, v)
  {
    AddToRow(b.rows, w, -q);
    var d := GoOut(b, w, q, recorded, kind).value;
    CurrentAfter(b.rows, w, -q);
    forall v ensures LiveAverage(d, v) == LiveAverage(b, v) {
      var i := FindRow(b.rows, v);
      if i < |b.rows| { FindRowUnique(d.rows, i); }
    }
  }

  lemma GoOutLive(b: Averages, w: nat, q: real, recorded: real, kind: MovementType)
    requires LiveOk(b) && 0.0 < q <= CurrentAt(b.rows, w) && GoOut(b, w, q, recorded, kind).Ok?
    ensures LiveOk(GoOut(b, w, q, recorded, kind).value)
  {
    var d := GoOut(b, w, q, recorded, kind).value;
    GoOutMoves(b, w, q, recorded, kind);
    MovedStock(b, d, w, -q, d.log[|b.log|]);
    forall i | b.scope == PerWarehouse && 0 <= i < |d.rows| && d.rows[i].quantity > 0.0 ensures d.rows[i].average.Some? {
      FindRowUnique(d.rows, i);
      assert LiveAverage(d, d.rows[i].warehouse) == LiveAverage(b, d.rows[i].warehouse);
      assert CurrentAt(d.rows, d.rows[i].warehouse) <= CurrentAt(b.rows, d.rows[i].warehouse);
    }
  }

  lemma GoOutReplays(b: Averages, w: nat, q: real, recorded: real, kind: MovementType, r: Replayed, s: Sources)
    requires LiveOk(b) && ReplayOk(b, r) && w in r.at && 0.0 < q <= CurrentAt(b.rows, w) && GoOut(b, w, q, recorded, kind).Ok?
    ensures ReplayOk(GoOut(b, w, q, recorded, kind).value, VisitAverages(r, GoOut(b, w, q, recorded, kind).value.log[|b.log|], s))
  {
    var d := GoOut(b, w, q, recorded, kind).value;
    var m := d.log[|b.log|];
    GoOutMoves(b, w, q, recorded, kind);
    MovedStock(b, d, w, -q, m);
    TotalNonNegative(b.rows);
    VisitFits(r, m, s, w, CurrentAt(b.rows, w), Total(b.rows), -q);
    var n := VisitAverages(r, m, s);
    forall v | v in n.at ensures Mirrors(n.at[v], CurrentAt(d.rows, v)) && (b.scope == PerWarehouse ==> Agrees(n.at[v], CurrentAt(d.rows, v), LiveAverage(d, v))) {
      assert v != w ==> n.at[v] == r.at[v];
      assert LiveAverage(d, v) == LiveAverage(b, v);
    }
  }

  lemma NoteBoth(b: Averages, d: Averages, m: Movement, r: Replayed, s: Sources)
    requires LiveOk(b) && d == b.(log := b.log + [m]) && HasRow(b.rows, m.loc.warehouse) && m.id == |b.log|
    requires m.before == Some(CurrentAt(b.rows, m.loc.warehouse)) == m.after
    ensures LiveOk(d)
    ensures ReplayOk(b, r) && m.loc.warehouse in r.at ==> ReplayOk(d, VisitAverages(r, m, s))
  {
    var w := m.loc.warehouse;
    forall v: nat ensures FirstBefore(d.log, v) == if HasRow(d.rows, v) then Some(Some(0.0)) else None {
      FirstSnoc(b.log, m, v);
      assert FirstBefore(b.log, v) == if HasRow(b.rows, v) then Some(Some(0.0)) else None;
    }
    TotalNonNegative(b.rows);
    assert CurrentAt(b.rows, w) >= 0.0;
    if ReplayOk(b, r) && w in r.at {
      VisitFits(r, m, s, w, CurrentAt(b.rows, w), Total(b.rows), 0.0);
      var n := VisitAverages(r, m, s);
      forall v | v in n.at ensures Mirrors(n.at[v], CurrentAt(d.rows, v)) && (b.scope == PerWarehouse ==> Agrees(n.at[v], CurrentAt(d.rows, v), LiveAverage(d, v))) {}
    }
  }

  /** Historical cost parts are known for outgoing movements only. */
  predicate KnownOk(s: Sources, m: Movement) { m.id in s.known ==> Delta(m) <= 0.0 }

  function Where(c: Change): nat { c.w }

  /** One recorded change, live and replayed side by side. */
  ghost predicate SideBySide(b: Averages, d: Averages, w: nat, r: Replayed, s: Sources)
  {
    && LiveOk(d) && d.scope == b.scope && |d.log| == |b.log| + 1 && d.log == b.log + [d.log[|b.log|]]
    && HasRow(d.rows, w) && (forall v :: HasRow(b.rows, v) ==> HasRow(d.rows, v))
    && (ReplayOk(b, r) && w in r.at && KnownOk(s, d.log[|b.log|]) ==> ReplayOk(d, VisitAverages(r, d.log[|b.log|], s)))
  }

  lemma ComeInBoth(b: Averages, w: nat, q: real, unitCost: real, kind: MovementType, r: Replayed, s: Sources)
    requires LiveOk(b) && q > 0.0 && ComeIn(b, w, q, unitCost, kind).Ok?
    ensures SideBySide(b, ComeIn(b, w, q, unitCost, kind).value, w, r, s)
  {
    var d := ComeIn(b, w, q, unitCost, kind).value;
    ComeInLive(b, w, q, unitCost, kind);
    assert HasRow(d.rows, w) && (forall v :: HasRow(b.rows, v) ==> HasRow(d.rows, v)) by {
      ComeInAverages(b, w, q, unitCost, kind);
      MovedStock(b, d, w, q, d.log[|b.log|]);
    }
    if ReplayOk(b, r) && w in r.at && KnownOk(s, d.log[|b.log|]) { ComeInReplays(b, w, q, unitCost, kind, r, s); }
  }

  lemma GoOutBoth(b: Averages, w: nat, q: real, recorded: real, kind: MovementType, r: Replayed, s: Sources)
    requires LiveOk(b) && 0.0 < q <= CurrentAt(b.rows, w) && GoOut(b, w, q, recorded, kind).Ok?
    ensures SideBySide(b, GoOut(b, w, q, recorded, kind).value, w, r, s)
  {
    var d := GoOut(b, w, q, recorded, kind).value;
    GoOutLive(b, w, q, recorded, kind);
    assert HasRow(d.rows, w) && (forall v :: HasRow(b.rows, v) ==> HasRow(d.rows, v)) by {
      GoOutMoves(b, w, q, recorded, kind);
      MovedStock(b, d, w, -q, d.log[|b.log|]);
    }
    if ReplayOk(b, r) && w in r.at { GoOutReplays(b, w, q, recorded, kind, r, s); }
  }

  lemma ChangeBoth(b: Averages, c: Change, r: Replayed, s: Sources)
    requires LiveOk(b)
    ensures TryChange(b, c).Ok? ==> SideBySide(b, Applied(b, c), Where(c), r, s)
  {
    if TryChange(b, c).Ok? {
      match c
      case AddStock(w, q, cost) => ComeInBoth(b, w, q, cost.value, STOCK_IN, r, s);
      case DiscardStock(w, q) => GoOutBoth(b, w, q, q, WASTE, r, s);
      case SellStock(w, q) => GoOutBoth(b, w, q, q, SALE, r, s);
      case AdjustStock(w, q, cost) =>
        if q > 0.0 { ComeInBoth(b, w, q, cost.value, ADJUSTMENT, r, s); }
        else if q < 0.0 { GoOutBoth(b, w, -q, q, ADJUSTMENT, r, s); }
        else { NoteBoth(b, Applied(b, c), Applied(b, c).log[|b.log|], r, s); }
    }
  }

  // ------------------------------------------------------------------ whole runs

  predicate AllKnownOk(s: Sources, log: seq<Movement>) { forall k :: 0 <= k < |log| ==> KnownOk(s, log[k]) }

  lemma FoldSnoc(r: Replayed, log: seq<Movement>, m: Movement, s: Sources)
    ensures Fold(r, log + [m], s) == VisitAverages(Fold(r, log, s), m, s)
  {
    assert (log + [m])[..|log|] == log;
  }

  lemma {:induction false} FoldKeys(r: Replayed, log: seq<Movement>, s: Sources)
    ensures Fold(r, log, s).at.Keys == r.at.Keys
  {
    if log != [] {
      FoldKeys(r, log[..|log| - 1], s);
    }
  }

  ghost predicate Covers(b: Averages, r: Replayed, s: Sources)
  {
    AllKnownOk(s, b.log) && forall w :: HasRow(b.rows, w) ==> w in r.at
  }

  lemma CoversBefore(b: Averages, d: Averages, w: nat, r: Replayed, any: Replayed, s: Sources)
    requires Covers(d, r, s) && SideBySide(b, d, w, any, s)
    ensures Covers(b, r, s) && w in r.at && KnownOk(s, d.log[|b.log|])
  {
    forall k | 0 <= k < |b.log| ensures KnownOk(s, b.log[k]) { assert d.log[k] == b.log[k]; }
  }

  lemma {:induction false} RunBoth(scope: Scope, item: nat, cs: seq<Change>, r: Replayed, s: Sources)
    requires ZeroStart(r) && Covers(RunChanges(NewItem(scope, item), cs), r, s)
    ensures var b := RunChanges(NewItem(scope, item), cs); ReplayOk(b, Fold(r, b.log, s))
  {
    if cs != [] {
      var n := |cs| - 1;
      var b, d := RunChanges(NewItem(scope, item), cs[..n]), RunChanges(NewItem(scope, item), cs);
      var before := Fold(r, b.log, s);
      RunLive(scope, item, cs[..n]);
      ChangeBoth(b, cs[n], before, s);
      if TryChange(b, cs[n]).Ok? {
        CoversBefore(b, d, Where(cs[n]), r, before, s);
        FoldKeys(r, b.log, s);
        FoldSnoc(r, b.log, d.log[|b.log|], s);
      }
      RunBoth(scope, item, cs[..n], r, s);
    }
  }

  lemma {:induction false} RunLive(scope: Scope, item: nat, cs: seq<Change>)
    ensures LiveOk(RunChanges(NewItem(scope, item), cs)) && RunChanges(NewItem(scope, item), cs).scope == scope
  {
    if cs != [] {
      var n := |cs| - 1;
      RunLive(scope, item, cs[..n]);
      ChangeBoth(RunChanges(NewItem(scope, item), cs[..n]), cs[n], Replayed(map[], Running(0.0, None), true, {}), Sources(map[], map[]));
    }
  }

  lemma {:induction false} LocationsCover(rows: seq<StockRow>, log: seq<Movement>)
    ensures forall i :: 0 <= i < |rows| ==> rows[i].warehouse in Locations(rows, log)
    decreases |log|, |rows|
  {
    if log != [] {
      LocationsCover(rows, log[..|log| - 1]);
    } else if rows != [] {
      LocationsCover(rows[..|rows| - 1], []);
    }
  }

  lemma {:induction false} BeginsAtZero(b: Averages, keys: seq<nat>)
    requires LiveOk(b)
    ensures ZeroStart(Begin(b.rows, b.log, keys)) && forall w :: w in keys <==> w in Begin(b.rows, b.log, keys).at
  {
    if keys != [] {
      BeginsAtZero(b, keys[..|keys| - 1]);
      var key := keys[|keys| - 1];
      assert FirstBefore(b.log, key) == if HasRow(b.rows, key) then Some(Some(0.0)) else None;
    }
  }

  lemma BalanceFound(b: Averages, r: Replayed, i: nat)
    requires RowsOk(b.rows) && ReplayOk(b, r) && i < |b.rows| && b.rows[i].warehouse in r.at
    ensures var q := b.rows[i].quantity;
            var found := BalanceOf(r, b.rows[i].warehouse, q);
            && found.reconciled && found.openingCost == 0.0
            && (b.scope == PerWarehouse && q > 0.0 ==> found.average == b.rows[i].average)
  {
    FindRowUnique(b.rows, i);
    assert Mirrors(r.at[b.rows[i].warehouse], CurrentAt(b.rows, b.rows[i].warehouse));
  }

  lemma ItemFound(b: Averages, r: Replayed, keys: seq<nat>)
    requires ReplayOk(b, r) && forall k :: 0 <= k < |keys| ==> keys[k] in r.at
    ensures ItemReplays(r, b.rows, keys)
    ensures b.scope == PerItem && Total(b.rows) > 0.0 ==> r.item.average == b.itemAverage
  {
    forall k | 0 <= k < |keys| ensures LedgerMatches(r, keys[k], CurrentAt(b.rows, keys[k])) {
      assert Mirrors(r.at[keys[k]], CurrentAt(b.rows, keys[k]));
    }
  }

  /**
    Replay equals live: after any run, the replay reports every warehouse and the item as reconciled,
    and its average (per warehouse or per item, as configured) is the stored one wherever there is stock.
  */
  lemma ReplayedAverages(scope: Scope, item: nat, cs: seq<Change>, s: Sources)
    requires AllKnownOk(s, RunChanges(NewItem(scope, item), cs).log)
    ensures var b := RunChanges(NewItem(scope, item), cs);
            var r := Rebuilt(b.rows, b.log, s);
            && ItemReplays(r, b.rows, Locations(b.rows, b.log))
            && (scope == PerItem && Total(b.rows) > 0.0 ==> r.item.average == b.itemAverage)
            && forall i :: 0 <= i < |b.rows| ==>
                 var q := b.rows[i].quantity;
                 var found := BalanceOf(r, b.rows[i].warehouse, q);
                 && found.reconciled && found.openingCost == 0.0
                 && (scope == PerWarehouse && q > 0.0 ==> found.average == b.rows[i].average)
  {
    RunLive(scope, item, cs);
    var b := RunChanges(NewItem(scope, item), cs);
    var keys := Locations(b.rows, b.log);
    var start := Begin(b.rows, b.log, keys);
    LocationsCover(b.rows, b.log);
    BeginsAtZero(b, keys);
    RunBoth(scope, item, cs, start, s);
    FoldKeys(start, b.log, s);
    var r := Rebuilt(b.rows, b.log, s);
    ItemFound(b, r, keys);
    forall i | 0 <= i < |b.rows|
      ensures var q := b.rows[i].quantity;
              var found := BalanceOf(r, b.rows[i].warehouse, q);
              && found.reconciled && found.openingCost == 0.0
              && (scope == PerWarehouse && q > 0.0 ==> found.average == b.rows[i].average)
    {
      BalanceFound(b, r, i);
    }
  }

  // ------------------------------------------------------------------ value

  function RowValue(): StockRow -> real { (r: StockRow) => r.quantity * OrZero(r.average) }

  /** What the stock is worth under the configured scope. */
  function Worth(b: Averages): real
  {
    if b.scope == PerItem then Total(b.rows) * OrZero(b.itemAverage) else SumBy(b.rows, RowValue())
  }

  lemma RowsWorth(rows: seq<StockRow>, more: seq<StockRow>, i: nat, value: real)
    requires i <= |rows| && i < |more| && (i < |rows| ==> more == rows[i := more[i]]) && (i == |rows| ==> more == rows + [more[i]])
    requires RowValue()(more[i]) == (if i < |rows| then RowValue()(rows[i]) else 0.0) + value
    ensures SumBy(more, RowValue()) == SumBy(rows, RowValue()) + value
  {
    if i < |rows| {
      SumByUpdate(rows, i, more[i], RowValue());
    } else {
      SumBySnoc(rows, more[i], RowValue());
    }
  }

  /** Stock that comes in adds exactly its cost. */
  lemma ComeInWorth(b: Averages, w: nat, q: real, unitCost: real, kind: MovementType)
    requires LiveOk(b) && q > 0.0 && ComeIn(b, w, q, unitCost, kind).Ok?
    ensures Worth(ComeIn(b, w, q, unitCost, kind).value) == Worth(b) + q * unitCost
  {
    var d := ComeIn(b, w, q, unitCost, kind).value;
    ComeInAverages(b, w, q, unitCost, kind);
    assert Total(d.rows) == Total(b.rows) + q && CurrentAt(d.rows, w) == CurrentAt(b.rows, w) + q && HasRow(d.rows, w) by {
      MovedStock(b, d, w, q, d.log[|b.log|]);
    }
    if b.scope == PerItem {
      MixValue(Total(b.rows), b.itemAverage, q, unitCost);
    } else {
      assert FindRow(d.rows, w) == FindRow(b.rows, w) by {
        AddToRow(b.rows, w, q);
        SameStockTotals(AddTo(b.rows, w, q), d.rows);
      }
      RowWorthIn(b, d, w, q, unitCost);
    }
  }

  lemma RowWorthIn(b: Averages, d: Averages, w: nat, q: real, unitCost: real)
    requires CurrentAt(b.rows, w) >= 0.0 && q > 0.0 && CurrentAt(d.rows, w) == CurrentAt(b.rows, w) + q
    requires HasRow(d.rows, w) && FindRow(d.rows, w) == FindRow(b.rows, w) && |d.rows| == |AddTo(b.rows, w, q)|
    requires forall k :: 0 <= k < |d.rows| && k != FindRow(b.rows, w) ==> d.rows[k] == AddTo(b.rows, w, q)[k]
    requires LiveAverage(d, w) == Some(Mix(CurrentAt(b.rows, w), LiveAverage(b, w), q, unitCost))
    ensures SumBy(d.rows, RowValue()) == SumBy(b.rows, RowValue()) + q * unitCost
  {
    MixValue(CurrentAt(b.rows, w), LiveAverage(b, w), q, unitCost);
    WasWorth(b.rows, w, LiveAverage(b, w));
    RowComesIn(b.rows, d.rows, w, q, q * unitCost);
  }

  lemma RowComesIn(rows: seq<StockRow>, more: seq<StockRow>, w: nat, q: real, value: real)
    requires |more| == |AddTo(rows, w, q)|
    requires forall k :: 0 <= k < |more| && k != FindRow(rows, w) ==> more[k] == AddTo(rows, w, q)[k]
    requires var i := FindRow(rows, w);
             i < |more| && RowValue()(more[i]) == (if i < |rows| then RowValue()(rows[i]) else 0.0) + value
    ensures SumBy(more, RowValue()) == SumBy(rows, RowValue()) + value
  {
    var i := FindRow(rows, w);
    if i < |rows| {
      assert more == rows[i := more[i]];
    } else {
      assert more == rows + [more[i]];
    }
    RowsWorth(rows, more, i, value);
  }

  lemma WasWorth(rows: seq<StockRow>, w: nat, average: Option<real>)
    requires FindRow(rows, w) < |rows| ==> average == rows[FindRow(rows, w)].average
    ensures CurrentAt(rows, w) * OrZero(average) == if FindRow(rows, w) < |rows| then RowValue()(rows[FindRow(rows, w)]) else 0.0
  {
  }

  lemma MixValue(before: real, average: Option<real>, q: real, unitCost: real)
    requires before + q != 0.0
    ensures (before + q) * Mix(before, average, q, unitCost) == before * OrZero(average) + q * unitCost
  {
  }

  /** Stock that goes out takes exactly the cost written on its movement. */
  lemma GoOutWorth(b: Averages, w: nat, q: real, recorded: real, kind: MovementType)
    requires LiveOk(b) && 0.0 < q <= CurrentAt(b.rows, w) && GoOut(b, w, q, recorded, kind).Ok?
    ensures var d := GoOut(b, w, q, recorded, kind).value;
            d.log[|b.log|].cost.Some? && Worth(d) == Worth(b) - d.log[|b.log|].cost.value.totalCost
  {
    var d := GoOut(b, w, q, recorded, kind).value;
    AddToRow(b.rows, w, -q);
    var i := FindRow(b.rows, w);
    var a := OrZero(AverageCost(b, w));
    if b.scope == PerItem {
      Spread(Total(b.rows), q, a);
    } else {
      assert d.rows == b.rows[i := d.rows[i]];
      SumByUpdate(b.rows, i, d.rows[i], RowValue());
      Spread(b.rows[i].quantity, q, a);
    }
  }

  lemma Spread(quantity: real, q: real, a: real)
    ensures (quantity + -q) * a == quantity * a - q * a
  {
  }

  /** What a movement brought in, or took out. */
  function Flow(): Movement -> real
  {
    (m: Movement) => if m.cost.None? then 0.0 else if Delta(m) > 0.0 then m.cost.value.totalCost else -m.cost.value.totalCost
  }

  lemma WrittenFlow(b: Averages, w: nat, kind: MovementType, recorded: real, delta: real, unitCost: real)
    requires delta > 0.0
    ensures Flow()(Written(b, w, kind, recorded, delta, unitCost)) == delta * unitCost
  {
  }

  lemma FlowSnoc(b: Averages, d: Averages, m: Movement)
    requires d.log == b.log + [m] && Worth(b) == SumBy(b.log, Flow()) && Worth(d) == Worth(b) + Flow()(m)
    ensures Worth(d) == SumBy(d.log, Flow())
  {
    SumBySnoc(b.log, m, Flow());
  }

  lemma ComeInFlow(b: Averages, w: nat, q: real, unitCost: real, kind: MovementType)
    requires LiveOk(b) && q > 0.0 && ComeIn(b, w, q, unitCost, kind).Ok? && Worth(b) == SumBy(b.log, Flow())
    ensures var d := ComeIn(b, w, q, unitCost, kind).value; Worth(d) == SumBy(d.log, Flow())
  {
    var d := ComeIn(b, w, q, unitCost, kind).value;
    var m := d.log[|b.log|];
    ComeInWorth(b, w, q, unitCost, kind);
    assert Flow()(m) == q * unitCost by { WrittenFlow(b, w, kind, q, q, unitCost); }
    assert d.log == b.log + [m];
    FlowSnoc(b, d, m);
  }

  lemma GoOutFlow(b: Averages, w: nat, q: real, recorded: real, kind: MovementType)
    requires LiveOk(b) && 0.0 < q <= CurrentAt(b.rows, w) && GoOut(b, w, q, recorded, kind).Ok? && Worth(b) == SumBy(b.log, Flow())
    ensures var d := GoOut(b, w, q, recorded, kind).value; Worth(d) == SumBy(d.log, Flow())
  {
    var d := GoOut(b, w, q, recorded, kind).value;
    GoOutWorth(b, w, q, recorded, kind);
    FlowSnoc(b, d, d.log[|b.log|]);
  }

  lemma ChangeWorth(b: Averages, c: Change)
    requires LiveOk(b) && Worth(b) == SumBy(b.log, Flow())
    ensures Worth(Applied(b, c)) == SumBy(Applied(b, c).log, Flow())
  {
    if TryChange(b, c).Ok? {
      match c
      case AddStock(w, q, cost) => ComeInFlow(b, w, q, cost.value, STOCK_IN);
      case DiscardStock(w, q) => GoOutFlow(b, w, q, q, WASTE);
      case SellStock(w, q) => GoOutFlow(b, w, q, q, SALE);
      case AdjustStock(w, q, cost) =>
        if q > 0.0 { ComeInFlow(b, w, q, cost.value, ADJUSTMENT); }
        else if q < 0.0 { GoOutFlow(b, w, -q, q, ADJUSTMENT); }
        else { FlowSnoc(b, Applied(b, c), Applied(b, c).log[|b.log|]); }
    }
  }

  /** Value conservation: the stock is worth everything that came in less everything that was issued. */
  lemma {:induction false} AveragesLoseNoValue(scope: Scope, item: nat, cs: seq<Change>)
    ensures var b := RunChanges(NewItem(scope, item), cs);
            Worth(b) == SumBy(b.log, Flow())
  {
    if cs != [] {
      AveragesLoseNoValue(scope, item, cs[..|cs| - 1]);
      RunLive(scope, item, cs[..|cs| - 1]);
      ChangeWorth(RunChanges(NewItem(scope, item), cs[..|cs| - 1]), cs[|cs| - 1]);
    }
  }

  // ------------------------------------------------------------------ restoring an issue

  function Refilled(total: real, q: real, average: real, value: real): real
    requires total != 0.0
  {
    ((total - q) * average + value) / total
  }

  /** restoreMovingAverage: the rows already hold the restored quantity. */
  function Restored(b: Averages, w: nat, q: real, value: real): Outcome<Averages>
  {
    if b.scope == PerItem then
      var total := Total(b.rows);
      if total == 0.0 then Rejected(InvalidQuantity)
      else Ok(b.(itemAverage := Some(Refilled(total, q, OrZero(b.itemAverage), value))))
    else
      var i := FindRow(b.rows, w);
      if i >= |b.rows| || b.rows[i].quantity <= 0.0 then Rejected(StockNotFound)
      else
        var r := b.rows[i];
        Ok(b.(rows := b.rows[i := r.(average := Some(Refilled(r.quantity, q, OrZero(r.average), value)))]))
  }

  function GiveBack(b: Averages, w: nat, q: real, value: real): Outcome<Averages>
  {
    Restored(b.(rows := AddTo(b.rows, w, q)), w, q, value)
  }

  lemma Unspread(quantity: real, q: real, a: real)
    requires quantity != 0.0
    ensures Refilled(quantity, q, a, q * a) == a
  {
    assert (quantity - q) * a + q * a == quantity * a;
  }

  /** Giving an issue back at the cost it took restores rows and averages exactly. */
  lemma RestoreUndoesIssueAverage(b: Averages, w: nat, q: real, recorded: real, kind: MovementType)
    requires LiveOk(b) && 0.0 < q <= CurrentAt(b.rows, w) && GoOut(b, w, q, recorded, kind).Ok?
    ensures var d := GoOut(b, w, q, recorded, kind).value;
            d.log[|b.log|].cost.Some? &&
            GiveBack(d, w, q, d.log[|b.log|].cost.value.totalCost) == Ok(b.(log := d.log))
  {
    var d := GoOut(b, w, q, recorded, kind).value;
    var i, a := FindRow(b.rows, w), AverageCost(b, w).value;
    AddToRow(b.rows, w, -q);
    AddToRow(d.rows, w, q);
    TotalNonNegative(b.rows);
    var rows := AddTo(d.rows, w, q);
    assert rows == b.rows by {
      assert FindRow(d.rows, w) == i && rows[i] == b.rows[i];
    }
    assert d.log[|b.log|].cost.value.totalCost == q * a;
    RestoredSame(d.(rows := b.rows), w, q, a);
  }

  lemma RestoredSame(b: Averages, w: nat, q: real, a: real)
    requires RowsOk(b.rows) && 0.0 < q <= CurrentAt(b.rows, w) && AverageCost(b, w) == Some(a)
    ensures Restored(b, w, q, q * a) == Ok(b)
  {
    var i := FindRow(b.rows, w);
    TotalNonNegative(b.rows);
    if b.scope == PerItem {
      var total := Total(b.rows);
      assert total > 0.0 && OrZero(b.itemAverage) == a;
      Unspread(total, q, a);
    } else {
      Unspread(b.rows[i].quantity, q, a);
      assert b.rows[i := b.rows[i].(average := Some(a))] == b.rows;
    }
  }
}
