/**
  reconstructHistoricalFifo for one warehouse: rebuilding FIFO layers from a movement log that may
  be incomplete, inconsistent or only partly costed, and the proof that it always accounts for the
  whole current quantity.
*/
module HistoricalFifo {
  import opened Fifo
  import opened InventoryLedger

  datatype HistTag = HistTag(source: Option<nat>, unitCost: Option<real>)

  type HistLayer = Lot<HistTag>

  datatype CostPart = CostPart(quantity: real, unitCost: real, source: Option<nat>)

  datatype PurchaseCost = PurchaseCost(warehouse: nat, unitCost: real)

  /** What the database says about the cost of each movement. */
  datatype CostRecords = CostRecords(parts: map<nat, seq<CostPart>>, purchases: map<nat, PurchaseCost>)

  const EPS: real := 0.000001

  function Abs(x: real): real { if x < 0.0 then -x else x }

  /** movementQuantityDelta. Every movement type is listed, so its `null` default is never reached. */
  function Delta(m: Movement): real
  {
    if m.before.Some? && m.after.Some? then m.after.value - m.before.value
    else
      match m.kind
      case ADJUSTMENT => m.quantity
      case STOCK_IN | PURCHASE | PRODUCTION | RETURN => Abs(m.quantity)
      case SALE | WASTE | STOCK_OUT | CONSUMPTION => -Abs(m.quantity)
      case TRANSFER => if m.ref.TransferReceipt? then Abs(m.quantity) else -Abs(m.quantity)
  }

  datatype Replay = Replay(layers: seq<HistLayer>, ledger: real, reconciled: bool)

  function Start(movements: seq<Movement>): Replay
  {
    if movements == [] then Replay([], 0.0, true)
    else if movements[0].before.None? then Replay([], 0.0, false)
    else
      var q := movements[0].before.value;
      Replay(if q > 0.0 then [Lot(q, HistTag(None, None))] else [], q, true)
  }

  function CostParts(m: Movement, records: CostRecords): seq<CostPart>
  {
    if m.id in records.parts then records.parts[m.id]
    else if !m.ref.TransferReceipt? && !m.ref.ReservationRelease? && m.cost.Some? then
      [CostPart(Delta(m), m.cost.value.unitCost, None)]
    else if m.ref.PurchaseOrderReceipt? && m.ref.receipt in records.purchases &&
            records.purchases[m.ref.receipt].warehouse == m.loc.warehouse then
      [CostPart(Delta(m), records.purchases[m.ref.receipt].unitCost, None)]
    else []
  }

  datatype Covering = Covering(layers: seq<HistLayer>, covered: real, stopped: bool)

  /** The costed part of an incoming movement: one layer for each cost part until the delta is covered. */
  function Cover(parts: seq<CostPart>, delta: real, source: nat): Covering
  {
    if parts == [] then Covering([], 0.0, false)
    else
      var c := Cover(parts[..|parts| - 1], delta, source);
      var p := parts[|parts| - 1];
      var q := Min(p.quantity, delta - c.covered);
      if c.stopped then c
      else if q <= 0.0 then c.(stopped := true)
      else Covering(c.layers + [Lot(q, HistTag(Some(source), Some(p.unitCost)))], c.covered + q, false)
  }

  /** The first layer a restored cost part came from. */
  function FindLayer(layers: seq<HistLayer>, source: nat, unitCost: real): (i: nat)
    ensures i <= |layers|
    ensures i < |layers| ==> layers[i].tag == HistTag(Some(source), Some(unitCost))
  {
    if layers == [] then 0
    else if layers[0].tag == HistTag(Some(source), Some(unitCost)) then 0
    else 1 + FindLayer(layers[1..], source, unitCost)
  }

  /** A reservation release puts its cost parts back on their layers, as far as they are known. */
  function PutBack(layers: seq<HistLayer>, parts: seq<CostPart>, delta: real): Covering
  {
    if parts == [] then Covering(layers, 0.0, false)
    else
      var c := PutBack(layers, parts[..|parts| - 1], delta);
      var p := parts[|parts| - 1];
      if c.stopped || p.source.None? then c
      else
        var i := FindLayer(c.layers, p.source.value, p.unitCost);
        if i >= |c.layers| then c
        else
          var q := Min(p.quantity, delta - c.covered);
          if q <= 0.0 then c.(stopped := true)
          else Covering(c.layers[i := Lot(c.layers[i].qty + q, c.layers[i].tag)], c.covered + q, false)
  }

  datatype Using = Using(layers: seq<HistLayer>, left: real)

  /** The consuming loop over rebuilt layers; exhausted layers stay in the list. */
  function Use(layers: seq<HistLayer>, q: real): (u: Using)
    ensures |u.layers| == |layers|
  {
    if layers == [] then Using([], q)
    else
      var u := Use(layers[..|layers| - 1], q);
      var l := layers[|layers| - 1];
      if u.left <= 0.0 then Using(u.layers + [l], u.left)
      else
        var used := Min(l.qty, u.left);
        Using(u.layers + [Lot(l.qty - used, l.tag)], u.left - used)
  }

  function Rest(delta: real, covered: real, source: nat): seq<HistLayer>
  {
    if delta - covered > 0.0 then [Lot(delta - covered, HistTag(Some(source), None))] else []
  }

  function Incoming(layers: seq<HistLayer>, m: Movement, delta: real, records: CostRecords): seq<HistLayer>
  {
    var parts := CostParts(m, records);
    if m.ref.ReservationRelease? then
      var c := PutBack(layers, parts, delta);
      c.layers + Rest(delta, c.covered, m.id)
    else
      var c := Cover(parts, delta, m.id);
      layers + c.layers + Rest(delta, c.covered, m.id)
  }

  function Visit(r: Replay, m: Movement, records: CostRecords): Replay
  {
    var delta := Delta(m);
    var next := if m.after.Some? then m.after.value else r.ledger + delta;
    if !r.reconciled then r
    else if m.before.Some? && Abs(r.ledger - m.before.value) > EPS then r.(reconciled := false)
    else if m.after.Some? && Abs(r.ledger + delta - m.after.value) > EPS then r.(reconciled := false)
    else if delta > 0.0 then Replay(Incoming(r.layers, m, delta, records), next, true)
    else if delta < 0.0 then
      var u := Use(r.layers, -delta);
      if u.left > 0.0 then r.(layers := u.layers, reconciled := false)
      else Replay(u.layers, next, true)
    else r.(ledger := next)
  }

  function Walk(movements: seq<Movement>, n: nat, records: CostRecords): Replay
    requires n <= |movements|
  {
    if n == 0 then Start(movements) else Visit(Walk(movements, n - 1, records), movements[n - 1], records)
  }

  function OpenOnly(layers: seq<HistLayer>): (r: seq<HistLayer>)
    ensures Positive(r)
  {
    if layers == [] then []
    else OpenOnly(layers[..|layers| - 1]) + (if layers[|layers| - 1].qty > 0.0 then [layers[|layers| - 1]] else [])
  }

  datatype FifoBalance = FifoBalance(layers: seq<HistLayer>, openingCost: real, reconciled: bool)

  function Uncosted(): HistTag -> real { (t: HistTag) => if t.unitCost.None? then 1.0 else 0.0 }

  function Costed(): HistTag -> real { (t: HistTag) => if t.unitCost.Some? then 1.0 else 0.0 }

  function OneLayer(current: real): seq<HistLayer>
  {
    if current > 0.0 then [Lot(current, HistTag(None, None))] else []
  }

  /** The balance reconstructed for a warehouse from its movements and its current quantity. */
  function Reconstruct(movements: seq<Movement>, current: real, records: CostRecords): FifoBalance
  {
    var r := Walk(movements, |movements|, records);
    var reconciled := movements == [] || (r.reconciled && Abs(r.ledger - current) <= EPS && r.ledger >= 0.0);
    var layers :=
      if movements == [] || !reconciled then OneLayer(current)
      else OpenOnly(r.layers);
    FifoBalance(layers, Value(layers, Uncosted()), reconciled)
  }

  // ------------------------------------------------------------------ nothing is lost or invented

  predicate NonNegativeLots(ls: seq<HistLayer>) { forall i :: 0 <= i < |ls| ==> ls[i].qty >= 0.0 }

  lemma SumSnoc(ls: seq<HistLayer>, x: HistLayer)
    ensures Sum(ls + [x]) == Sum(ls) + x.qty
  {
    SumConcat(ls, [x]);
    assert [x][1..] == [];
    assert Sum([x]) == x.qty;
  }

  lemma SumNothing(ls: seq<HistLayer>)
    ensures Sum(ls + []) == Sum(ls)
  {
    assert ls + [] == ls;
  }

  lemma {:induction false} CoverTotal(parts: seq<CostPart>, delta: real, source: nat)
    requires delta > 0.0
    ensures var c := Cover(parts, delta, source);
            Positive(c.layers) && Sum(c.layers) == c.covered && 0.0 <= c.covered <= delta
  {
    if parts != [] {
      CoverTotal(parts[..|parts| - 1], delta, source);
      var c := Cover(parts[..|parts| - 1], delta, source);
      var p := parts[|parts| - 1];
      SumSnoc(c.layers, Lot(Min(p.quantity, delta - c.covered), HistTag(Some(source), Some(p.unitCost))));
    }
  }

  lemma {:induction false} SumUpdate(ls: seq<HistLayer>, i: nat, q: real)
    requires i < |ls|
    ensures Sum(ls[i := Lot(ls[i].qty + q, ls[i].tag)]) == Sum(ls) + q
  {
    var g := ls[i := Lot(ls[i].qty + q, ls[i].tag)];
    if i == 0 {
      assert g[1..] == ls[1..];
    } else {
      assert g[1..] == ls[1..][i - 1 := Lot(ls[i].qty + q, ls[i].tag)];
      SumUpdate(ls[1..], i - 1, q);
    }
  }

  lemma {:induction false} PutBackTotal(layers: seq<HistLayer>, parts: seq<CostPart>, delta: real)
    requires NonNegativeLots(layers) && delta > 0.0
    ensures var c := PutBack(layers, parts, delta);
            NonNegativeLots(c.layers) && Sum(c.layers) == Sum(layers) + c.covered && 0.0 <= c.covered <= delta
  {
    if parts != [] {
      PutBackTotal(layers, parts[..|parts| - 1], delta);
      var c := PutBack(layers, parts[..|parts| - 1], delta);
      var p := parts[|parts| - 1];
      if !c.stopped && p.source.Some? {
        var i := FindLayer(c.layers, p.source.value, p.unitCost);
        if i < |c.layers| {
          SumUpdate(c.layers, i, Min(p.quantity, delta - c.covered));
        }
      }
    }
  }

  lemma RestTotal(base: seq<HistLayer>, delta: real, covered: real, source: nat)
    requires NonNegativeLots(base) && covered <= delta
    ensures NonNegativeLots(base + Rest(delta, covered, source))
    ensures Sum(base + Rest(delta, covered, source)) == Sum(base) + delta - covered
  {
    if delta - covered > 0.0 {
      SumSnoc(base, Lot(delta - covered, HistTag(Some(source), None)));
    } else {
      SumNothing(base);
    }
  }

  /** An incoming movement adds exactly its delta, costed or not. */
  lemma IncomingTotal(layers: seq<HistLayer>, m: Movement, delta: real, records: CostRecords)
    requires NonNegativeLots(layers) && delta > 0.0
    ensures NonNegativeLots(Incoming(layers, m, delta, records))
    ensures Sum(Incoming(layers, m, delta, records)) == Sum(layers) + delta
  {
    var parts := CostParts(m, records);
    if m.ref.ReservationRelease? {
      PutBackTotal(layers, parts, delta);
      var c := PutBack(layers, parts, delta);
      RestTotal(c.layers, delta, c.covered, m.id);
    } else {
      CoverTotal(parts, delta, m.id);
      var c := Cover(parts, delta, m.id);
      SumConcat(layers, c.layers);
      RestTotal(layers + c.layers, delta, c.covered, m.id);
    }
  }

  lemma {:induction false} UseTotal(layers: seq<HistLayer>, q: real)
    requires NonNegativeLots(layers) && q >= 0.0
    ensures var u := Use(layers, q);
            NonNegativeLots(u.layers) && Sum(u.layers) == Sum(layers) - (q - u.left) && 0.0 <= u.left <= q
  {
    if layers != [] {
      var n := |layers| - 1;
      UseTotal(layers[..n], q);
      var u := Use(layers, q);
      assert layers == layers[..n] + [layers[n]];
      SumSnoc(layers[..n], layers[n]);
      assert u.layers == u.layers[..n] + [u.layers[n]];
      SumSnoc(u.layers[..n], u.layers[n]);
      assert u.layers[..n] == Use(layers[..n], q).layers;
    }
  }

  /** A first before-quantity below zero is stock the rebuilt layers can never account for. */
  function Deficit(movements: seq<Movement>): real
  {
    if movements == [] || movements[0].before.None? || movements[0].before.value >= 0.0 then 0.0
    else -movements[0].before.value
  }

  predicate Tracks(r: Replay, n: nat, deficit: real)
  {
    NonNegativeLots(r.layers) &&
    (r.reconciled ==> Abs(Sum(r.layers) - r.ledger - deficit) <= (n as real) * EPS)
  }

  lemma Widen(n: nat)
    requires n > 0
    ensures ((n - 1) as real) * EPS + EPS == (n as real) * EPS
  {
  }

  lemma VisitTracks(r: Replay, m: Movement, records: CostRecords, n: nat, deficit: real)
    requires n > 0 && Tracks(r, n - 1, deficit)
    ensures Tracks(Visit(r, m, records), n, deficit)
  {
    var delta := Delta(m);
    Widen(n);
    assert EPS > 0.0;
    if delta > 0.0 {
      IncomingTotal(r.layers, m, delta, records);
    } else if delta < 0.0 {
      UseTotal(r.layers, -delta);
    }
  }

  lemma {:induction false} WalkTracks(movements: seq<Movement>, n: nat, records: CostRecords)
    requires n <= |movements|
    ensures Tracks(Walk(movements, n, records), n, Deficit(movements))
  {
    if n == 0 {
      var s := Start(movements);
      assert s.layers != [] ==> s.layers[1..] == [];
    } else {
      WalkTracks(movements, n - 1, records);
      VisitTracks(Walk(movements, n - 1, records), movements[n - 1], records, n, Deficit(movements));
    }
  }

  lemma {:induction false} OpenOnlySum(layers: seq<HistLayer>)
    requires NonNegativeLots(layers)
    ensures Sum(OpenOnly(layers)) == Sum(layers)
  {
    if layers != [] {
      var n := |layers| - 1;
      OpenOnlySum(layers[..n]);
      assert layers == layers[..n] + [layers[n]];
      SumSnoc(layers[..n], layers[n]);
      SumSnoc(OpenOnly(layers[..n]), layers[n]);
      SumNothing(OpenOnly(layers[..n]));
    }
  }

  lemma {:induction false} CostedPlusUncosted(layers: seq<HistLayer>)
    ensures Value(layers, Costed()) + Value(layers, Uncosted()) == Sum(layers)
  {
    if layers != [] {
      CostedPlusUncosted(layers[1..]);
    }
  }

  lemma OneLayerTotal(current: real)
    requires current >= 0.0
    ensures Positive(OneLayer(current)) && Sum(OneLayer(current)) == current
  {
    assert OneLayer(current) != [] ==> OneLayer(current)[1..] == [];
  }

  /**
    When the history reconciles, the rebuilt quantity drifts from the current one by at most the
    tolerance per movement, plus the deficit of a log that starts below zero.
  */
  lemma ReconciledDrift(movements: seq<Movement>, current: real, records: CostRecords)
    requires movements != [] && Reconstruct(movements, current, records).reconciled
    ensures Abs(Sum(Reconstruct(movements, current, records).layers) - current - Deficit(movements)) <=
            ((|movements| + 1) as real) * EPS
  {
    var r := Walk(movements, |movements|, records);
    WalkTracks(movements, |movements|, records);
    OpenOnlySum(r.layers);
    Widen(|movements| + 1);
  }

  /**
    Reconstruction is total, whatever the log: the layers are positive, they split into costed and
    opening-cost quantity, and unless the history reconciled they sum exactly to the current quantity.
  */
  lemma ReconstructionIsTotal(movements: seq<Movement>, current: real, records: CostRecords)
    requires current >= 0.0
    ensures var f := Reconstruct(movements, current, records);
            && Positive(f.layers)
            && Value(f.layers, Costed()) + f.openingCost == Sum(f.layers)
            && (!f.reconciled || movements == [] ==> Sum(f.layers) == current)
  {
    CostedPlusUncosted(Reconstruct(movements, current, records).layers);
    OneLayerTotal(current);
  }

  /** Each before-quantity is the after-quantity before it, none goes below zero, and the last is the current one. */
  predicate ExactLog(movements: seq<Movement>, current: real)
  {
    && movements != []
    && (forall i :: 0 <= i < |movements| ==> movements[i].before.Some? && movements[i].after.Some? && movements[i].after.value >= 0.0)
    && (forall i, j :: 0 <= i && j == i + 1 < |movements| ==> movements[j].before == movements[i].after)
    && movements[|movements| - 1].after == Some(current)
  }

  /** The replay is at a quantity, and its layers hold that and the deficit. */
  predicate IsAt(r: Replay, ledger: real, deficit: real)
  {
    r.reconciled && r.ledger == ledger && NonNegativeLots(r.layers) && Sum(r.layers) == ledger + deficit
  }

  lemma VisitExact(r: Replay, m: Movement, records: CostRecords, deficit: real)
    requires m.before.Some? && m.after.Some? && m.after.value >= 0.0 && deficit >= 0.0 && IsAt(r, m.before.value, deficit)
    ensures IsAt(Visit(r, m, records), m.after.value, deficit)
  {
    var delta := Delta(m);
    assert Abs(r.ledger - m.before.value) == 0.0 && Abs(r.ledger + delta - m.after.value) == 0.0;
    if delta > 0.0 {
      IncomingTotal(r.layers, m, delta, records);
    } else if delta < 0.0 {
      UseTotal(r.layers, -delta);
      UseAll(r.layers, -delta);
    }
  }

  /** What is there is used before anything is missing. */
  lemma {:induction false} UseAll(layers: seq<HistLayer>, q: real)
    requires NonNegativeLots(layers) && q >= 0.0
    ensures Sum(layers) >= q ==> Use(layers, q).left <= 0.0
    ensures Sum(layers) < q ==> Use(layers, q).left == q - Sum(layers)
  {
    if layers != [] {
      var n := |layers| - 1;
      UseAll(layers[..n], q);
      UseTotal(layers[..n], q);
      assert layers == layers[..n] + [layers[n]];
      SumSnoc(layers[..n], layers[n]);
    }
  }

  lemma {:induction false} WalkExact(movements: seq<Movement>, current: real, n: nat, records: CostRecords)
    requires ExactLog(movements, current) && n <= |movements|
    ensures IsAt(Walk(movements, n, records), if n == 0 then movements[0].before.value else movements[n - 1].after.value, Deficit(movements))
  {
    if n == 0 {
      var s := Start(movements);
      assert s.layers != [] ==> s.layers[1..] == [];
    } else {
      WalkExact(movements, current, n - 1, records);
      assert n > 1 ==> movements[n - 1].before == movements[n - 2].after;
      VisitExact(Walk(movements, n - 1, records), movements[n - 1], records, Deficit(movements));
    }
  }

  /**
    An exact log reconciles, and its layers hold the current quantity and the deficit it started with: so
    they are the stock if and only if it does not start below zero.
  */
  lemma ExactLogIff(movements: seq<Movement>, current: real, records: CostRecords)
    requires ExactLog(movements, current)
    ensures var f := Reconstruct(movements, current, records);
            && f.reconciled && Sum(f.layers) == current + Deficit(movements)
            && (Sum(f.layers) == current <==> movements[0].before.value >= 0.0)
  {
    WalkExact(movements, current, |movements|, records);
    var r := Walk(movements, |movements|, records);
    assert Abs(r.ledger - current) == 0.0;
    OpenOnlySum(r.layers);
  }

  /**
    A log that starts below zero can reconcile and still leave more layers than stock: a first movement
    that fills a deficit d leaves a layer of d although nothing is on hand.
  */
  lemma NegativeOpeningOvercounts(m: Movement, records: CostRecords, d: real)
    requires d > 0.0 && m.before == Some(-d) && m.after == Some(0.0)
    ensures var f := Reconstruct([m], 0.0, records); f.reconciled && Sum(f.layers) == d
  {
    var r0, r1 := Start([m]), Walk([m], 1, records);
    assert Walk([m], 0, records) == r0 && r0 == Replay([], -d, true);
    assert r1 == Visit(r0, m, records);
    FillsDeficit(r0, m, records, d);
    OpenOnlySum(r1.layers);
  }

  lemma FillsDeficit(r: Replay, m: Movement, records: CostRecords, d: real)
    requires d > 0.0 && m.before == Some(-d) && m.after == Some(0.0) && r == Replay([], -d, true)
    ensures var n := Visit(r, m, records); n.reconciled && n.ledger == 0.0 && NonNegativeLots(n.layers) && Sum(n.layers) == d
  {
    assert Delta(m) == d && Abs(-d - -d) == 0.0 && Abs(-d + d - 0.0) == 0.0;
    IncomingTotal([], m, d, records);
  }
}
