/**
  The moving-average rows as mutable state, and the replay as one pass over the log that keeps a running
  average per warehouse and one for the item.
*/
module AverageStore {
  import opened Fifo
  import opened InventoryLedger
  import opened HistoricalFifo
  import opened MovingAverage
  import opened MovingAverageProofs

  method TotalQuantity(rows: seq<StockRow>) returns (total: real)
    ensures total == Total(rows)
  {
    total := 0.0;
    for i := 0 to |rows|
      invariant total == Total(rows[..i])
    {
      assert rows[..i + 1] == rows[..i] + [rows[i]];
      SumBySnoc(rows[..i], rows[i], Quantity());
      total := total + rows[i].quantity;
    }
    assert rows[..|rows|] == rows;
  }

  class Store {
    const scope: Scope
    const item: nat
    var itemAverage: Option<real>
    var rows: seq<StockRow>
    var log: seq<Movement>

    function State(): Averages
      reads this
    {
      Averages(scope, item, itemAverage, rows, log)
    }

    ghost predicate Valid()
      reads this
    {
      LiveOk(State())
    }

    constructor (scope: Scope, item: nat)
      ensures State() == NewItem(scope, item) && Valid()
    {
      this.scope, this.item := scope, item;
      itemAverage, rows, log := None, [], [];
    }

    method ChangeQuantity(w: nat, q: real) returns (before: real)
      modifies this`rows
      ensures before == CurrentAt(old(rows), w) && rows == AddTo(old(rows), w, q)
    {
      var i := FindRow(rows, w);
      before := 0.0;
      if i < |rows| {
        before := rows[i].quantity;
        rows := rows[i := rows[i].(quantity := rows[i].quantity + q)];
      } else {
        rows := rows + [StockRow(w, q, None)];
      }
    }

    method UpdateMovingAverage(w: nat, q: real, unitCost: real) returns (ok: bool)
      modifies this`itemAverage, this`rows
      ensures ok == Averaged(old(State()), w, q, unitCost).Ok?
      ensures ok ==> State() == Averaged(old(State()), w, q, unitCost).value
    {
      if scope == PerItem {
        var total := TotalQuantity(rows);
        if (total - q > 0.0 && itemAverage.None?) || total == 0.0 { return false; }
        itemAverage := Some(Mix(total - q, itemAverage, q, unitCost));
        return true;
      }
      var i := FindRow(rows, w);
      if i >= |rows| { return false; }
      if (rows[i].quantity - q > 0.0 && rows[i].average.None?) || rows[i].quantity == 0.0 { return false; }
      rows := rows[i := rows[i].(average := Some(Mix(rows[i].quantity - q, rows[i].average, q, unitCost)))];
      ok := true;
    }

    method Receive(w: nat, q: real, unitCost: real, kind: MovementType) returns (ok: bool)
      modifies this`itemAverage, this`rows, this`log
      ensures ok == ComeIn(old(State()), w, q, unitCost, kind).Ok?
      ensures ok ==> State() == ComeIn(old(State()), w, q, unitCost, kind).value
    {
      var movement := Written(State(), w, kind, q, q, unitCost);
      var before := ChangeQuantity(w, q);
      log := log + [movement];
      ok := UpdateMovingAverage(w, q, unitCost);
    }

    method Issue(w: nat, q: real, recorded: real, kind: MovementType) returns (ok: bool)
      modifies this`rows, this`log
      ensures ok == GoOut(old(State()), w, q, recorded, kind).Ok?
      ensures ok ==> State() == GoOut(old(State()), w, q, recorded, kind).value
    {
      if q <= 0.0 { return false; }
      var average := AverageCost(State(), w);
      if average.None? { return false; }
      var movement := Written(State(), w, kind, recorded, -q, average.value);
      var before := ChangeQuantity(w, -q);
      log := log + [movement];
      ok := true;
    }

    method Perform(c: Change) returns (ok: bool)
      modifies this`itemAverage, this`rows, this`log
      ensures ok == TryChange(old(State()), c).Ok?
      ensures ok ==> State() == TryChange(old(State()), c).value
    {
      var i := FindRow(rows, c.w);
      if !c.AddStock? && i >= |rows| { return false; }
      match c {
        case AddStock(w, q, cost) =>
          if q < 1.0 || cost.None? { return false; }
          ok := Receive(w, q, cost.value, STOCK_IN);
        case AdjustStock(w, q, cost) =>
          if rows[i].quantity + q < 0.0 { return false; }
          if q > 0.0 {
            if cost.None? { return false; }
            ok := Receive(w, q, cost.value, ADJUSTMENT);
          } else if q < 0.0 {
            ok := Issue(w, -q, q, ADJUSTMENT);
          } else {
            log := log + [Movement(|log|, Loc(item, w), ADJUSTMENT, 0.0, Some(rows[i].quantity), Some(rows[i].quantity + 0.0), NoReference, None, [])];
            ok := true;
          }
        case DiscardStock(w, q) =>
          if q < 1.0 || rows[i].quantity < q { return false; }
          ok := Issue(w, q, q, WASTE);
        case SellStock(w, q) =>
          if rows[i].quantity < q { return false; }
          ok := Issue(w, q, q, SALE);
      }
    }

    /** A change either happens or leaves no trace. */
    method Transact(c: Change) returns (ok: bool)
      requires Valid()
      modifies this`itemAverage, this`rows, this`log
      ensures Valid() && State() == Applied(old(State()), c) && ok == TryChange(old(State()), c).Ok?
    {
      var was := State();
      ChangeBoth(was, c, Replayed(map[], Running(0.0, None), true, {}), Sources(map[], map[]));
      ok := Perform(c);
      if !ok {
        itemAverage, rows, log := was.itemAverage, was.rows, was.log;
      }
    }

    /** The loop of reconstructHistoricalMovingAverage over the movements. */
    method ReplayMovements(start: Replayed, s: Sources) returns (r: Replayed)
      ensures r == Fold(start, log, s)
    {
      r := start;
      for i := 0 to |log|
        invariant r == Fold(start, log[..i], s)
      {
        assert log[..i + 1][..i] == log[..i];
        r := ReplayMovement(r, log[i], s);
      }
      assert log[..|log|] == log;
    }
  }

  method ReplayMovement(r: Replayed, m: Movement, s: Sources) returns (next: Replayed)
    ensures next == VisitAverages(r, m, s)
  {
    var key := m.loc.warehouse;
    if key !in r.at || Gap(r.at[key], m) { return r.(itemOk := false, bad := r.bad + {key}); }
    var here, all := r.at[key], r.item;
    var delta := Delta(m);
    if delta > 0.0 {
      var cost := UnitCostOf(m, s.known, s.purchases);
      here, all := Learn(here, delta, cost), Learn(all, delta, cost);
    }
    if here.quantity + delta < 0.0 || all.quantity + delta < 0.0 {
      return Replayed(r.at[key := here], all, false, r.bad + {key});
    }
    here := here.(quantity := here.quantity + delta);
    all := all.(quantity := all.quantity + delta);
    if here.quantity == 0.0 { here := here.(average := None); }
    if all.quantity == 0.0 { all := all.(average := None); }
    next := r.(at := r.at[key := here], item := all);
  }
}
