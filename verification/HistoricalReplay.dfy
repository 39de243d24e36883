/**
  reconstructHistoricalFifo as the service runs it: one pass over the movements of a warehouse that
  pushes, tops up and eats away layers, and stops at the first contradiction.  Each loop is proved to
  compute the replay specified in `HistoricalFifo`.
*/
module HistoricalReplay {
  import opened Fifo
  import opened InventoryLedger
  import opened HistoricalFifo

  lemma {:induction false} UseDone(layers: seq<HistLayer>, q: real, i: nat)
    requires i <= |layers| && (i < |layers| ==> Use(layers[..i], q).left <= 0.0)
    ensures Use(layers, q) == Using(Use(layers[..i], q).layers + layers[i..], Use(layers[..i], q).left)
  {
    if i == |layers| {
      assert layers[..i] == layers;
      assert Use(layers, q).layers + [] == Use(layers, q).layers;
    } else {
      var n := |layers| - 1;
      assert layers[..n][..i] == layers[..i];
      UseDone(layers[..n], q, i);
      assert layers[i..] == layers[..n][i..] + [layers[n]];
    }
  }

  method ConsumeLayers(layers: seq<HistLayer>, q: real) returns (rest: seq<HistLayer>, left: real)
    ensures Use(layers, q) == Using(rest, left)
  {
    rest, left := layers, q;
    var i := 0;
    while i < |rest| && left > 0.0
      invariant i <= |rest| == |layers| && rest[i..] == layers[i..]
      invariant Use(layers[..i], q) == Using(rest[..i], left)
    {
      assert layers[..i + 1][..i] == layers[..i] && rest[i] == layers[i];
      var consumed := Min(rest[i].qty, left);
      rest := rest[i := Lot(rest[i].qty - consumed, rest[i].tag)];
      left := left - consumed;
      i := i + 1;
    }
    UseDone(layers, q, i);
    assert rest == rest[..i] + rest[i..];
  }

  lemma {:induction false} CoverStops(parts: seq<CostPart>, delta: real, source: nat, i: nat)
    requires i <= |parts| && Cover(parts[..i], delta, source).stopped
    ensures Cover(parts, delta, source) == Cover(parts[..i], delta, source)
    decreases |parts| - i
  {
    if i == |parts| {
      assert parts[..i] == parts;
    } else {
      assert parts[..i + 1][..i] == parts[..i];
      CoverStops(parts, delta, source, i + 1);
    }
  }

  lemma {:induction false} PutBackStops(layers: seq<HistLayer>, parts: seq<CostPart>, delta: real, i: nat)
    requires i <= |parts| && PutBack(layers, parts[..i], delta).stopped
    ensures PutBack(layers, parts, delta) == PutBack(layers, parts[..i], delta)
    decreases |parts| - i
  {
    if i == |parts| {
      assert parts[..i] == parts;
    } else {
      assert parts[..i + 1][..i] == parts[..i];
      PutBackStops(layers, parts, delta, i + 1);
    }
  }

  method BringIn(layers: seq<HistLayer>, parts: seq<CostPart>, delta: real, source: nat)
    returns (more: seq<HistLayer>, covered: real)
    ensures more == layers + Cover(parts, delta, source).layers && covered == Cover(parts, delta, source).covered
  {
    more, covered := layers, 0.0;
    var i := 0;
    while i < |parts|
      invariant i <= |parts|
      invariant !Cover(parts[..i], delta, source).stopped
      invariant more == layers + Cover(parts[..i], delta, source).layers && covered == Cover(parts[..i], delta, source).covered
    {
      assert parts[..i + 1][..i] == parts[..i];
      var quantity := Min(parts[i].quantity, delta - covered);
      if quantity <= 0.0 {
        CoverStops(parts, delta, source, i + 1);
        return;
      }
      more := more + [Lot(quantity, HistTag(Some(source), Some(parts[i].unitCost)))];
      covered := covered + quantity;
      i := i + 1;
    }
    assert parts[..i] == parts;
  }

  method PutBackParts(layers: seq<HistLayer>, parts: seq<CostPart>, delta: real)
    returns (more: seq<HistLayer>, restored: real)
    ensures more == PutBack(layers, parts, delta).layers && restored == PutBack(layers, parts, delta).covered
  {
    more, restored := layers, 0.0;
    var i := 0;
    while i < |parts|
      invariant i <= |parts| && PutBack(layers, parts[..i], delta) == Covering(more, restored, false)
    {
      assert parts[..i + 1][..i] == parts[..i];
      if parts[i].source.Some? {
        var j := FindLayer(more, parts[i].source.value, parts[i].unitCost);
        if j < |more| {
          var quantity := Min(parts[i].quantity, delta - restored);
          if quantity <= 0.0 {
            PutBackStops(layers, parts, delta, i + 1);
            return;
          }
          more := more[j := Lot(more[j].qty + quantity, more[j].tag)];
          restored := restored + quantity;
        }
      }
      i := i + 1;
    }
    assert parts[..i] == parts;
  }

  method Arrive(layers: seq<HistLayer>, m: Movement, delta: real, records: CostRecords) returns (more: seq<HistLayer>)
    ensures more == Incoming(layers, m, delta, records)
  {
    var parts := CostParts(m, records);
    var covered;
    if m.ref.ReservationRelease? {
      more, covered := PutBackParts(layers, parts, delta);
    } else {
      more, covered := BringIn(layers, parts, delta, m.id);
    }
    if delta - covered > 0.0 {
      more := more + [Lot(delta - covered, HistTag(Some(m.id), None))];
    } else {
      assert more + [] == more;
    }
  }

  /** A history that no longer reconciles is not read any further. */
  lemma {:induction false} WalkStops(movements: seq<Movement>, i: nat, records: CostRecords)
    requires i <= |movements| && !Walk(movements, i, records).reconciled
    ensures !Walk(movements, |movements|, records).reconciled
    decreases |movements| - i
  {
    if i < |movements| {
      WalkStops(movements, i + 1, records);
    }
  }

  method ReplayMovement(r: Replay, m: Movement, records: CostRecords) returns (next: Replay)
    requires r.reconciled
    ensures next == Visit(r, m, records)
  {
    var delta := Delta(m);
    if m.before.Some? && Abs(r.ledger - m.before.value) > EPS { return r.(reconciled := false); }
    if m.after.Some? && Abs(r.ledger + delta - m.after.value) > EPS { return r.(reconciled := false); }
    var layers := r.layers;
    if delta > 0.0 {
      layers := Arrive(layers, m, delta, records);
    } else if delta < 0.0 {
      var toConsume;
      layers, toConsume := ConsumeLayers(layers, -delta);
      if toConsume > 0.0 { return Replay(layers, r.ledger, false); }
    }
    next := Replay(layers, if m.after.Some? then m.after.value else r.ledger + delta, true);
  }

  method WalkMovements(movements: seq<Movement>, records: CostRecords) returns (r: Replay)
    requires movements != []
    ensures r.reconciled == Walk(movements, |movements|, records).reconciled
    ensures r.reconciled ==> r == Walk(movements, |movements|, records)
  {
    r := Replay([], 0.0, true);
    if movements[0].before.None? {
      r := r.(reconciled := false);
    } else {
      r := r.(ledger := movements[0].before.value);
      if r.ledger > 0.0 {
        r := r.(layers := [Lot(r.ledger, HistTag(None, None))]);
      }
    }
    var i := 0;
    while i < |movements| && r.reconciled
      invariant i <= |movements| && r == Walk(movements, i, records)
    {
      r := ReplayMovement(r, movements[i], records);
      i := i + 1;
    }
    if !r.reconciled {
      WalkStops(movements, i, records);
    }
  }

  method KeepOpen(layers: seq<HistLayer>) returns (open: seq<HistLayer>)
    ensures open == OpenOnly(layers)
  {
    open := [];
    for i := 0 to |layers|
      invariant open == OpenOnly(layers[..i])
    {
      assert layers[..i + 1][..i] == layers[..i];
      if layers[i].qty > 0.0 {
        open := open + [layers[i]];
      }
    }
    assert layers[..|layers|] == layers;
  }

  lemma UncostedSnoc(layers: seq<HistLayer>, i: nat)
    requires i < |layers|
    ensures Value(layers[..i + 1], Uncosted()) == Value(layers[..i], Uncosted()) + if layers[i].tag.unitCost.None? then layers[i].qty else 0.0
  {
    assert layers[..i + 1] == layers[..i] + [layers[i]];
    ValueConcat(layers[..i], [layers[i]], Uncosted());
    assert [layers[i]][1..] == [];
  }

  /** The rebuilt balance of a warehouse: exactly what `Reconstruct` specifies. */
  method ReconstructHistoricalFifo(movements: seq<Movement>, current: real, records: CostRecords) returns (f: FifoBalance)
    ensures f == Reconstruct(movements, current, records)
  {
    var layers: seq<HistLayer> := [];
    var reconciled := true;
    if movements != [] {
      var r := WalkMovements(movements, records);
      reconciled := r.reconciled && Abs(r.ledger - current) <= EPS && r.ledger >= 0.0;
      layers := r.layers;
    } else if current > 0.0 {
      layers := [Lot(current, HistTag(None, None))];
    }
    if reconciled {
      ghost var all := layers;
      layers := KeepOpen(layers);
      if movements == [] && current > 0.0 {
        assert all[..0] == [] && OpenOnly(all) == all;
      }
    } else {
      layers := if current > 0.0 then [Lot(current, HistTag(None, None))] else [];
    }
    var opening := 0.0;
    for i := 0 to |layers|
      invariant opening == Value(layers[..i], Uncosted())
    {
      UncostedSnoc(layers, i);
      if layers[i].tag.unitCost.None? {
        opening := opening + layers[i].qty;
      }
    }
    assert layers[..|layers|] == layers;
    f := FifoBalance(layers, opening, reconciled);
  }
}
