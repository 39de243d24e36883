/**
  configureValuation for FIFO: an item with stock, reservations and a history, but no cost layers yet, is
  given the layers its history rebuilds.  Whether or not that history reconciles, the layers cover stock
  and outstanding reservations exactly, so every later result about configured items applies to it.
*/
module ConfigureValuation {
  import opened Fifo
  import opened InventoryLedger
  import opened LedgerInvariants
  import opened LedgerSteps
  import opened LedgerRuns
  import opened HistoricalFifo
  import opened ReplayCore
  import opened ReplayTheorem

  // ------------------------------------------------------------------ a rebuilt balance adds up

  function Deltas(): Movement -> real { (m: Movement) => Delta(m) }

  predicate StartsAt(movements: seq<Movement>, q: real) { movements != [] ==> movements[0].before == Some(q) }

  predicate AddsUp(r: Replay, q: real) { r.reconciled ==> NonNegativeLots(r.layers) && Sum(r.layers) == q }

  /** While a history reconciles, its layers hold its first quantity and everything that was added or taken since. */
  lemma {:induction false} WalkSum(movements: seq<Movement>, n: nat, records: CostRecords, q: real)
    requires n <= |movements| && StartsAt(movements, q) && q >= 0.0 && movements != []
    ensures AddsUp(Walk(movements, n, records), q + SumBy(movements[..n], Deltas()))
  {
    if n == 0 {
      StartSum(movements, q);
    } else {
      WalkSum(movements, n - 1, records, q);
      DeltasNext(movements, n);
      VisitSum(Walk(movements, n - 1, records), movements[n - 1], records, q + SumBy(movements[..n - 1], Deltas()));
    }
  }

  lemma DeltasNext(movements: seq<Movement>, n: nat)
    requires 0 < n <= |movements|
    ensures SumBy(movements[..n], Deltas()) == SumBy(movements[..n - 1], Deltas()) + Delta(movements[n - 1])
  {
    assert movements[..n] == movements[..n - 1] + [movements[n - 1]];
    SumBySnoc(movements[..n - 1], movements[n - 1], Deltas());
  }

  lemma StartSum(movements: seq<Movement>, q: real)
    requires movements != [] && StartsAt(movements, q) && q >= 0.0
    ensures AddsUp(HistoricalFifo.Start(movements), q)
  {
    var layers := HistoricalFifo.Start(movements).layers;
    assert layers != [] ==> layers[1..] == [];
  }

  lemma VisitSum(r: Replay, m: Movement, records: CostRecords, q: real)
    requires AddsUp(r, q)
    ensures AddsUp(Visit(r, m, records), q + Delta(m))
  {
    var delta := Delta(m);
    if r.reconciled && delta > 0.0 {
      IncomingTotal(r.layers, m, delta, records);
    } else if r.reconciled && delta < 0.0 {
      UseTotal(r.layers, -delta);
    }
  }

  function OpeningAt(opening: map<Loc, real>, loc: Loc): real { if loc in opening then opening[loc] else 0.0 }

  /** What is still reserved from before the first other movement at the location. */
  function Leading(log: seq<Movement>, loc: Loc): real
  {
    if log == [] then 0.0
    else
      var front := log[..|log| - 1];
      if HistoryOf(front, loc) != [] then Leading(front, loc) else Leading(front, loc) + ActiveAt(loc)(log[|log| - 1])
  }

  /** The history leaves out what is reserved, so its movements add up to the change of stock and reservations. */
  lemma {:induction false} HistorySum(opening: map<Loc, real>, log: seq<Movement>, loc: Loc)
    requires LogOk(log) && Chained(opening, log)
    ensures SumBy(HistoryOf(log, loc), Deltas()) == Balance(opening, log, loc) + SumBy(log, ActiveAt(loc)) - OpeningAt(opening, loc)
  {
    if log != [] {
      var n := |log| - 1;
      var m := log[n];
      assert MovementOk(m, n) && ChainedAt(opening, log, n);
      ChainedPrefix(opening, log, n);
      HistorySum(opening, log[..n], loc);
      if m.loc == loc && !IsActive(m) {
        SumBySnoc(HistoryOf(log[..n], loc), m, Deltas());
      } else {
        assert HistoryOf(log[..n], loc) + [] == HistoryOf(log[..n], loc);
      }
    }
  }

  /** The history starts from what was there before the first movement, less what was reserved of it. */
  lemma {:induction false} FirstBefore(opening: map<Loc, real>, log: seq<Movement>, loc: Loc)
    requires LogOk(log) && Chained(opening, log) && OpeningAt(opening, loc) >= 0.0
    ensures Leading(log, loc) >= 0.0 && Balance(opening, log, loc) >= 0.0
    ensures HistoryOf(log, loc) == [] ==> Balance(opening, log, loc) == OpeningAt(opening, loc) - Leading(log, loc)
    ensures StartsAt(HistoryOf(log, loc), OpeningAt(opening, loc) - Leading(log, loc))
    ensures HistoryOf(log, loc) != [] ==> OpeningAt(opening, loc) - Leading(log, loc) >= 0.0
  {
    if log != [] {
      var n := |log| - 1;
      ChainedPrefix(opening, log, n);
      FirstBefore(opening, log[..n], loc);
      assert MovementOk(log[n], n) && ChainedAt(opening, log, n);
    }
  }

  /** Stock together with what reservations still hold: what a configured item's layers must cover. */
  function ToCover(b: Books, loc: Loc): real { OnHand(b, loc) + SumBy(b.log, ActiveAt(loc)) }

  function RebuiltAt(b: Books, loc: Loc, records: CostRecords): FifoBalance
  {
    Reconstruct(HistoryOf(b.log, loc), ToCover(b, loc), records)
  }

  ghost predicate LogAgrees(b: Books)
  {
    LogOk(b.log) && Chained(b.opening, b.log) && StockAgrees(b)
  }

  predicate HistoryReconciles(b: Books, loc: Loc, records: CostRecords)
  {
    HistoryOf(b.log, loc) != [] && RebuiltAt(b, loc, records).reconciled
  }

  // ------------------------------------------------------------------ when a history reconciles

  /** What is still reserved from before the latest other movement at the location. */
  function Behind(log: seq<Movement>, loc: Loc): real
  {
    if log == [] then 0.0
    else
      var front, m := log[..|log| - 1], log[|log| - 1];
      if m.loc == loc && !IsActive(m) then SumBy(front, ActiveAt(loc)) else Behind(front, loc)
  }

  lemma {:induction false} BehindBounds(log: seq<Movement>, loc: Loc)
    requires LogOk(log)
    ensures 0.0 <= Behind(log, loc) <= SumBy(log, ActiveAt(loc)) && 0.0 <= Leading(log, loc) <= SumBy(log, ActiveAt(loc))
    ensures HistoryOf(log, loc) != [] ==> Leading(log, loc) <= Behind(log, loc)
  {
    if log != [] {
      var n := |log| - 1;
      assert MovementOk(log[n], n);
      assert LogOk(log[..n]) by { forall i | 0 <= i < n ensures MovementOk(log[..n][i], i) { assert MovementOk(log[i], i); } }
      BehindBounds(log[..n], loc);
    }
  }

  /** The latest movement of a history left the stock and reservations of now, less what was reserved behind it. */
  lemma {:induction false} LastAfter(opening: map<Loc, real>, log: seq<Movement>, loc: Loc)
    requires LogOk(log) && Chained(opening, log) && HistoryOf(log, loc) != []
    ensures var h := HistoryOf(log, loc);
            h[|h| - 1].after == Some(Balance(opening, log, loc) + SumBy(log, ActiveAt(loc)) - Behind(log, loc)) && h[|h| - 1].after.value >= 0.0
  {
    var n := |log| - 1;
    assert MovementOk(log[n], n) && ChainedAt(opening, log, n);
    ChainedPrefix(opening, log, n);
    if !(log[n].loc == loc && !IsActive(log[n])) { LastAfter(opening, log[..n], loc); }
  }

  lemma {:induction false} WalkPrefix(h: seq<Movement>, m: Movement, n: nat, records: CostRecords)
    requires n <= |h| && h != []
    ensures Walk(h + [m], n, records) == Walk(h, n, records)
  {
    if n != 0 { WalkPrefix(h, m, n - 1, records); }
  }

  /** A reconciled walk stands at the quantity its latest movement left. */
  lemma WalkLedger(h: seq<Movement>, records: CostRecords)
    requires h != [] && h[|h| - 1].after.Some? && Walk(h, |h|, records).reconciled
    ensures Walk(h, |h|, records).ledger == h[|h| - 1].after.value
  {
  }

  predicate Accepted(h: seq<Movement>, records: CostRecords) { Walk(h, |h|, records).reconciled }

  /** The walk stands close to a quantity and holds at least that. */
  predicate Stands(r: Replay, q: real) { r.reconciled && NonNegativeLots(r.layers) && Abs(r.ledger - q) <= EPS && Sum(r.layers) >= q }

  /** The next movement is accepted when the walk stands close to where it starts, and holds what it takes. */
  lemma VisitAccepts(r: Replay, m: Movement, records: CostRecords)
    requires m.before.Some? && m.after.Some? && m.after.value >= 0.0 && Stands(r, m.before.value)
    ensures Visit(r, m, records).reconciled
  {
    assert r.ledger + Delta(m) - m.after.value == r.ledger - m.before.value;
    if Delta(m) < 0.0 { UseAll(r.layers, -Delta(m)); }
  }

  /** Where the walk stands before one more movement of the location. */
  lemma BeforeNext(opening: map<Loc, real>, log: seq<Movement>, loc: Loc, records: CostRecords)
    requires LogOk(log) && Chained(opening, log) && OpeningAt(opening, loc) >= 0.0
    requires HistoryOf(log, loc) != [] && SumBy(log, ActiveAt(loc)) <= EPS && Accepted(HistoryOf(log, loc), records)
    ensures Stands(Walk(HistoryOf(log, loc), |HistoryOf(log, loc)|, records), Balance(opening, log, loc))
  {
    LastAfter(opening, log, loc);
    WalkLedger(HistoryOf(log, loc), records);
    BehindBounds(log, loc);
    WalkHolds(opening, log, loc, records);
  }

  lemma WalkHolds(opening: map<Loc, real>, log: seq<Movement>, loc: Loc, records: CostRecords)
    requires LogOk(log) && Chained(opening, log) && OpeningAt(opening, loc) >= 0.0
    requires HistoryOf(log, loc) != [] && Walk(HistoryOf(log, loc), |HistoryOf(log, loc)|, records).reconciled
    ensures var layers := Walk(HistoryOf(log, loc), |HistoryOf(log, loc)|, records).layers;
            NonNegativeLots(layers) && Sum(layers) == Balance(opening, log, loc) + SumBy(log, ActiveAt(loc)) - Leading(log, loc)
  {
    var h := HistoryOf(log, loc);
    FirstBefore(opening, log, loc);
    HistorySum(opening, log, loc);
    WalkSum(h, |h|, records, OpeningAt(opening, loc) - Leading(log, loc));
    assert h[..|h|] == h;
  }

  lemma FirstAccepted(m: Movement, records: CostRecords)
    requires m.before.Some? && m.before.value >= 0.0 && m.after.Some? && m.after.value >= 0.0
    ensures Accepted([m], records)
  {
    var r := Walk([m], 0, records);
    assert r.layers != [] ==> r.layers[1..] == [];
    assert Walk([m], 1, records) == Visit(r, m, records);
    VisitAccepts(r, m, records);
  }

  lemma {:induction false} WalkReconciles(opening: map<Loc, real>, log: seq<Movement>, loc: Loc, records: CostRecords)
    requires LogOk(log) && Chained(opening, log) && OpeningAt(opening, loc) >= 0.0 && HistoryOf(log, loc) != [] && Behind(log, loc) <= EPS
    ensures Accepted(HistoryOf(log, loc), records)
  {
    var n := |log| - 1;
    ChainedPrefix(opening, log, n);
    assert MovementOk(log[n], n) && ChainedAt(opening, log, n);
    if !(log[n].loc == loc && !IsActive(log[n])) {
      assert HistoryOf(log, loc) == HistoryOf(log[..n], loc);
      WalkReconciles(opening, log[..n], loc, records);
    } else {
      assert HistoryOf(log, loc) == HistoryOf(log[..n], loc) + [log[n]];
      if HistoryOf(log[..n], loc) != [] {
        BehindBounds(log[..n], loc);
        WalkReconciles(opening, log[..n], loc, records);
      }
      LastAccepted(opening, log[..n], log[n], loc, records);
    }
  }

  lemma LastAccepted(opening: map<Loc, real>, front: seq<Movement>, m: Movement, loc: Loc, records: CostRecords)
    requires LogOk(front) && Chained(opening, front) && OpeningAt(opening, loc) >= 0.0 && SumBy(front, ActiveAt(loc)) <= EPS
    requires m.before == Some(Balance(opening, front, loc)) && m.after.Some? && m.after.value >= 0.0
    requires HistoryOf(front, loc) != [] ==> Accepted(HistoryOf(front, loc), records)
    ensures Accepted(HistoryOf(front, loc) + [m], records)
  {
    if HistoryOf(front, loc) == [] {
      FirstBefore(opening, front, loc);
      FirstAccepted(m, records);
      assert [] + [m] == [m];
    } else {
      BeforeNext(opening, front, loc, records);
      NextAccepted(HistoryOf(front, loc), m, records);
    }
  }

  lemma NextAccepted(h: seq<Movement>, m: Movement, records: CostRecords)
    requires h != [] && m.before.Some? && m.after.Some? && m.after.value >= 0.0 && Stands(Walk(h, |h|, records), m.before.value)
    ensures Accepted(h + [m], records)
  {
    WalkStep(h, m, records);
    VisitAccepts(Walk(h, |h|, records), m, records);
  }

  lemma WalkStep(h: seq<Movement>, m: Movement, records: CostRecords)
    requires h != []
    ensures Walk(h + [m], |h + [m]|, records) == Visit(Walk(h, |h|, records), m, records)
  {
    WalkPrefix(h, m, |h|, records);
    var all := h + [m];
    assert all[|h|] == m && |all| - 1 == |h|;
  }

  /**
    A history reconciles if and only if no more than the tolerance is still reserved from before its
    latest movement, whatever its costs.
  */
  lemma ReconcilesIff(b: Books, loc: Loc, records: CostRecords)
    requires LogAgrees(b) && OpeningAt(b.opening, loc) >= 0.0
    ensures HistoryReconciles(b, loc, records) <==> HistoryOf(b.log, loc) != [] && Behind(b.log, loc) <= EPS
  {
    var h := HistoryOf(b.log, loc);
    if h != [] {
      assert OnHand(b, loc) == Balance(b.opening, b.log, loc);
      LastAfter(b.opening, b.log, loc);
      BehindBounds(b.log, loc);
      if Behind(b.log, loc) <= EPS { WalkReconciles(b.opening, b.log, loc, records); }
      if Walk(h, |h|, records).reconciled { WalkLedger(h, records); }
    }
  }

  /** A history that reconciles does not start behind a reservation that is still held. */
  predicate Anchored(b: Books, loc: Loc)
  {
    HistoryOf(b.log, loc) != [] && Behind(b.log, loc) <= EPS ==> Leading(b.log, loc) == 0.0
  }

  /** Reconciled or not, and in spite of the tolerances: what the rebuilt layers hold. */
  lemma RebuiltTotal(b: Books, loc: Loc, records: CostRecords)
    requires LogAgrees(b) && OpeningAt(b.opening, loc) >= 0.0
    ensures Sum(RebuiltAt(b, loc, records).layers) == ToCover(b, loc) - if HistoryReconciles(b, loc, records) then Leading(b.log, loc) else 0.0
  {
    if HistoryReconciles(b, loc, records) {
      var movements := HistoryOf(b.log, loc);
      assert SumBy(movements, Deltas()) == ToCover(b, loc) - OpeningAt(b.opening, loc) by {
        assert OnHand(b, loc) == Balance(b.opening, b.log, loc);
        HistorySum(b.opening, b.log, loc);
      }
      FirstBefore(b.opening, b.log, loc);
      ReconciledSum(movements, ToCover(b, loc), records, OpeningAt(b.opening, loc) - Leading(b.log, loc));
    } else {
      RebuiltPositive(b, loc, records);
    }
  }

  lemma ReconciledSum(movements: seq<Movement>, current: real, records: CostRecords, q: real)
    requires movements != [] && StartsAt(movements, q) && q >= 0.0 && Reconstruct(movements, current, records).reconciled
    ensures Sum(Reconstruct(movements, current, records).layers) == q + SumBy(movements, Deltas())
  {
    WalkSum(movements, |movements|, records, q);
    assert movements[..|movements|] == movements;
    OpenOnlySum(Walk(movements, |movements|, records).layers);
  }

  lemma RebuiltPositive(b: Books, loc: Loc, records: CostRecords)
    requires LogAgrees(b)
    ensures Positive(RebuiltAt(b, loc, records).layers) && ToCover(b, loc) >= 0.0
    ensures !HistoryReconciles(b, loc, records) ==> Sum(RebuiltAt(b, loc, records).layers) == ToCover(b, loc)
  {
    assert OnHand(b, loc) >= 0.0;
    ActiveNonNegative(b, loc);
    ReconstructionIsTotal(HistoryOf(b.log, loc), ToCover(b, loc), records);
  }

  /**
    The rebuilt layers hold exactly what is to be covered, whatever the history and from whatever stock it
    starts, if and only if the history is anchored; and they never fall short by more than the tolerance.
  */
  lemma RebuiltCovers(b: Books, loc: Loc, records: CostRecords)
    requires LogAgrees(b) && OpeningAt(b.opening, loc) >= 0.0
    ensures Positive(RebuiltAt(b, loc, records).layers)
    ensures Sum(RebuiltAt(b, loc, records).layers) == ToCover(b, loc) <==> Anchored(b, loc)
    ensures ToCover(b, loc) - EPS <= Sum(RebuiltAt(b, loc, records).layers) <= ToCover(b, loc)
    ensures OpeningAt(b.opening, loc) == 0.0 ==> Anchored(b, loc)
  {
    ReconcilesIff(b, loc, records);
    BehindBounds(b.log, loc);
    RebuiltPositive(b, loc, records);
    RebuiltTotal(b, loc, records);
    FirstBefore(b.opening, b.log, loc);
  }

  lemma LogSnoc(log: seq<Movement>, m: Movement, loc: Loc)
    ensures HistoryOf(log + [m], loc) == HistoryOf(log, loc) + if m.loc == loc && !IsActive(m) then [m] else []
    ensures Leading(log + [m], loc) == if HistoryOf(log, loc) != [] then Leading(log, loc) else Leading(log, loc) + ActiveAt(loc)(m)
    ensures SumBy(log + [m], ActiveAt(loc)) == SumBy(log, ActiveAt(loc)) + ActiveAt(loc)(m)
  {
    SumBySnoc(log, m, ActiveAt(loc));
    assert (log + [m])[..|log|] == log;
  }

  function TinyHeld(): Movement { Movement(0, Loc(0, 0), STOCK_OUT, EPS, Some(1.0), Some(1.0 - EPS), Reservation(1, Active), None, []) }

  function Counted(): Movement { Movement(1, Loc(0, 0), ADJUSTMENT, 0.0, Some(1.0 - EPS), Some(1.0 - EPS), NoReference, None, []) }

  /** One unit in stock, a reservation of the size of the tolerance, and a count that changes nothing. */
  function TinyBooks(): Books
  {
    Books(map[Loc(0, 0) := 1.0], {}, map[Loc(0, 0) := 1.0 - EPS], [], [TinyHeld()] + [Counted()], [])
  }

  lemma BalanceSnoc(opening: map<Loc, real>, log: seq<Movement>, m: Movement, loc: Loc)
    requires m.after.Some?
    ensures Balance(opening, log + [m], loc) == if m.loc == loc then m.after.value else Balance(opening, log, loc)
  {
    assert (log + [m])[..|log|] == log;
  }

  lemma TinyAgrees()
    ensures LogAgrees(TinyBooks())
  {
    var b := TinyBooks();
    forall loc ensures OnHand(b, loc) >= 0.0 && OnHand(b, loc) == Balance(b.opening, b.log, loc) {
      BalanceSnoc(b.opening, [TinyHeld()], Counted(), loc);
      BalanceSnoc(b.opening, [], TinyHeld(), loc);
      assert [] + [TinyHeld()] == [TinyHeld()];
    }
    assert ChainedAt(b.opening, b.log, 0) by { assert b.log[..0] == []; }
    assert ChainedAt(b.opening, b.log, 1) by {
      assert b.log[..1] == [] + [TinyHeld()];
      BalanceSnoc(b.opening, [], TinyHeld(), Loc(0, 0));
    }
    assert MovementOk(b.log[0], 0) && MovementOk(b.log[1], 1);
  }

  lemma TinyWalk(records: CostRecords)
    ensures Reconstruct([Counted()], 1.0, records).reconciled
  {
    var r := Walk([Counted()], 0, records);
    assert Walk([Counted()], 1, records) == Visit(r, Counted(), records);
    assert r.reconciled && r.ledger == 1.0 - EPS && Delta(Counted()) == 0.0;
  }

  /** It does happen: the rebuilt layers leave the reservation out. */
  lemma TinyReservationIsMissed(records: CostRecords)
    ensures var b, loc := TinyBooks(), Loc(0, 0);
            LogAgrees(b) && !Anchored(b, loc) && ToCover(b, loc) == 1.0 && Sum(RebuiltAt(b, loc, records).layers) == 1.0 - EPS
  {
    var b, loc := TinyBooks(), Loc(0, 0);
    TinyAgrees();
    assert [] + [TinyHeld()] == [TinyHeld()];
    LogSnoc([], TinyHeld(), loc);
    LogSnoc([TinyHeld()], Counted(), loc);
    TinyWalk(records);
    assert HistoryOf(b.log, loc) == [Counted()] && ToCover(b, loc) == 1.0 && Leading(b.log, loc) == EPS;
    RebuiltTotal(b, loc, records);
  }

  // ------------------------------------------------------------------ the transaction

  /** Reservations of orders that completed without a commit are closed, without a cost. */
  function Reconciled(m: Movement, item: nat, completed: set<nat>, kind: MovementType): Movement
  {
    if IsActive(m) && m.loc.item == item && m.ref.order in completed then m.(ref := Reservation(m.ref.order, Committed), kind := kind)
    else m
  }

  function ReconcileLog(log: seq<Movement>, item: nat, completed: set<nat>, kind: MovementType): (r: seq<Movement>)
    ensures |r| == |log|
  {
    seq(|log|, i requires 0 <= i < |log| => Reconciled(log[i], item, completed, kind))
  }

  function Closing(b: Books, item: nat, completed: set<nat>, kind: MovementType): Books
  {
    b.(log := ReconcileLog(b.log, item, completed, kind))
  }

  /** The layer rows of a warehouse; an uncosted layer takes the opening cost. */
  function LayerRows(base: nat, loc: Loc, layers: seq<HistLayer>, opening: real): (r: seq<LayerRow>)
    ensures |r| == |layers|
  {
    seq(|layers|, i requires 0 <= i < |layers| =>
      LayerRow(base + i, loc, layers[i].tag.source, layers[i].qty, layers[i].qty,
               if layers[i].tag.unitCost.Some? then layers[i].tag.unitCost.value else opening))
  }

  predicate NeedsOpening(f: FifoBalance) { f.openingCost > 0.0 }

  function OpeningOf(costs: map<nat, real>, w: nat): real { if w in costs then costs[w] else 0.0 }

  function AddLayers(b: Books, item: nat, warehouses: seq<nat>, costs: map<nat, real>, records: CostRecords): seq<LayerRow>
  {
    if warehouses == [] then b.layers
    else
      var rows := AddLayers(b, item, warehouses[..|warehouses| - 1], costs, records);
      var w := warehouses[|warehouses| - 1];
      rows + LayerRows(|rows|, Loc(item, w), RebuiltAt(b, Loc(item, w), records).layers, OpeningOf(costs, w))
  }

  predicate Missing(costs: map<nat, real>, w: nat, f: FifoBalance) { w !in costs && NeedsOpening(f) }

  predicate Needless(w: nat, warehouses: seq<nat>, f: FifoBalance) { w !in warehouses || !NeedsOpening(f) }

  /** What is wrong with the opening costs: one is missing, or one is not needed. */
  function CostError(c: Books, item: nat, warehouses: seq<nat>, costs: map<nat, real>, records: CostRecords): Option<Error>
  {
    if exists i :: 0 <= i < |warehouses| && Missing(costs, warehouses[i], RebuiltAt(c, Loc(item, warehouses[i]), records)) then
      Some(UnitCostRequired)
    else if exists w :: w in costs && Needless(w, warehouses, RebuiltAt(c, Loc(item, w), records)) then Some(StockNotFound)
    else None
  }

  /** Warehouses are those of the item's stock rows and history, each once. */
  function Configure(b: Books, item: nat, completed: set<nat>, kind: MovementType, warehouses: seq<nat>, costs: map<nat, real>, records: CostRecords)
    : Outcome<Books>
  {
    var c := Closing(b, item, completed, kind);
    if item in b.configured then Rejected(WrongStatus)
    else
      match CostError(c, item, warehouses, costs, records)
      case Some(e) => Rejected(e)
      case None => Ok(c.(configured := b.configured + {item}, layers := AddLayers(c, item, warehouses, costs, records)))
  }

  // ------------------------------------------------------------------ coverage is established

  lemma {:induction false} SameBalance(opening: map<Loc, real>, log: seq<Movement>, log2: seq<Movement>, loc: Loc)
    requires |log| == |log2| && forall i :: 0 <= i < |log| ==> log2[i].loc == log[i].loc && log2[i].after == log[i].after
    ensures Balance(opening, log2, loc) == Balance(opening, log, loc)
  {
    if log != [] {
      SameBalance(opening, log[..|log| - 1], log2[..|log| - 1], loc);
    }
  }

  lemma ReconcileKeepsLog(opening: map<Loc, real>, log: seq<Movement>, item: nat, completed: set<nat>, kind: MovementType)
    requires LogOk(log) && Chained(opening, log)
    ensures var r := ReconcileLog(log, item, completed, kind);
            && LogOk(r) && Chained(opening, r) && (forall loc :: Balance(opening, r, loc) == Balance(opening, log, loc))
            && forall loc: Loc :: loc.item != item ==> SumBy(r, ActiveAt(loc)) == SumBy(log, ActiveAt(loc))
  {
    var r := ReconcileLog(log, item, completed, kind);
    forall i | 0 <= i < |log| ensures MovementOk(r[i], i) && ChainedAt(opening, r, i) {
      assert MovementOk(log[i], i) && ChainedAt(opening, log, i);
      SameBalance(opening, log[..i], r[..i], log[i].loc);
    }
    forall loc ensures Balance(opening, r, loc) == Balance(opening, log, loc) { SameBalance(opening, log, r, loc); }
    forall loc: Loc | loc.item != item ensures SumBy(r, ActiveAt(loc)) == SumBy(log, ActiveAt(loc)) {
      SumByFinite(log, r, ActiveAt(loc));
    }
  }

  lemma {:induction false} LayerRowsCover(base: nat, loc: Loc, layers: seq<HistLayer>, opening: real, l: Loc)
    ensures SumBy(LayerRows(base, loc, layers, opening), RemainingAt(l)) == if l == loc then Sum(layers) else 0.0
  {
    if layers != [] {
      var n := |layers| - 1;
      LayerRowsCover(base, loc, layers[..n], opening, l);
      assert LayerRows(base, loc, layers, opening)[..n] == LayerRows(base, loc, layers[..n], opening);
      assert layers == layers[..n] + [layers[n]];
      SumConcat(layers[..n], [layers[n]]);
      assert [layers[n]][1..] == [];
    }
  }

  predicate Lists(warehouses: seq<nat>, w: nat) { w in warehouses }

  lemma {:induction false} AddedCover(b: Books, item: nat, warehouses: seq<nat>, costs: map<nat, real>, records: CostRecords, l: Loc)
    requires Distinct(warehouses)
    ensures SumBy(AddLayers(b, item, warehouses, costs, records), RemainingAt(l)) ==
            SumBy(b.layers, RemainingAt(l)) +
            if l.item == item && Lists(warehouses, l.warehouse) then Sum(RebuiltAt(b, l, records).layers) else 0.0
  {
    if warehouses != [] {
      var n := |warehouses| - 1;
      var w := warehouses[n];
      AddedCover(b, item, warehouses[..n], costs, records, l);
      var rows := AddLayers(b, item, warehouses[..n], costs, records);
      var f := RebuiltAt(b, Loc(item, w), records);
      SumByConcat(rows, LayerRows(|rows|, Loc(item, w), f.layers, OpeningOf(costs, w)), RemainingAt(l));
      LayerRowsCover(|rows|, Loc(item, w), f.layers, OpeningOf(costs, w), l);
      assert Lists(warehouses, l.warehouse) <==> Lists(warehouses[..n], l.warehouse) || l.warehouse == w;
      assert !Lists(warehouses[..n], w);
    }
  }

  // ------------------------------------------------------------------ rebuilt layers name real movements

  predicate SourcesBelow(layers: seq<HistLayer>, n: nat)
  {
    forall i :: 0 <= i < |layers| && layers[i].tag.source.Some? ==> layers[i].tag.source.value < n
  }

  lemma {:induction false} CoverSources(parts: seq<CostPart>, delta: real, source: nat, n: nat)
    requires source < n
    ensures SourcesBelow(Cover(parts, delta, source).layers, n)
  {
    if parts != [] {
      CoverSources(parts[..|parts| - 1], delta, source, n);
    }
  }

  lemma {:induction false} PutBackSources(layers: seq<HistLayer>, parts: seq<CostPart>, delta: real, n: nat)
    requires SourcesBelow(layers, n)
    ensures SourcesBelow(PutBack(layers, parts, delta).layers, n)
  {
    if parts != [] {
      PutBackSources(layers, parts[..|parts| - 1], delta, n);
    }
  }

  lemma {:induction false} UseSources(layers: seq<HistLayer>, q: real, n: nat)
    requires SourcesBelow(layers, n)
    ensures SourcesBelow(Use(layers, q).layers, n)
  {
    if layers != [] {
      UseSources(layers[..|layers| - 1], q, n);
    }
  }

  lemma VisitSources(r: Replay, m: Movement, records: CostRecords, n: nat)
    requires SourcesBelow(r.layers, n) && m.id < n
    ensures SourcesBelow(Visit(r, m, records).layers, n)
  {
    var delta, parts := Delta(m), CostParts(m, records);
    CoverSources(parts, delta, m.id, n);
    PutBackSources(r.layers, parts, delta, n);
    UseSources(r.layers, -delta, n);
  }

  lemma {:induction false} WalkSources(movements: seq<Movement>, k: nat, records: CostRecords, n: nat)
    requires k <= |movements| && forall i :: 0 <= i < |movements| ==> movements[i].id < n
    ensures SourcesBelow(Walk(movements, k, records).layers, n)
  {
    if k != 0 {
      WalkSources(movements, k - 1, records, n);
      VisitSources(Walk(movements, k - 1, records), movements[k - 1], records, n);
    }
  }

  lemma {:induction false} OpenSources(layers: seq<HistLayer>, n: nat)
    requires SourcesBelow(layers, n)
    ensures SourcesBelow(OpenOnly(layers), n)
  {
    if layers != [] {
      OpenSources(layers[..|layers| - 1], n);
    }
  }

  lemma {:induction false} HistoryIds(log: seq<Movement>, loc: Loc, n: nat)
    requires LogOk(log) && |log| <= n
    ensures forall i :: 0 <= i < |HistoryOf(log, loc)| ==> HistoryOf(log, loc)[i].id < n
  {
    if log != [] {
      assert MovementOk(log[|log| - 1], |log| - 1);
      HistoryIds(log[..|log| - 1], loc, n);
    }
  }

  lemma RebuiltSources(b: Books, loc: Loc, records: CostRecords)
    requires LogOk(b.log)
    ensures SourcesBelow(RebuiltAt(b, loc, records).layers, |b.log|)
  {
    var movements := HistoryOf(b.log, loc);
    HistoryIds(b.log, loc, |b.log|);
    WalkSources(movements, |movements|, records, |b.log|);
    OpenSources(Walk(movements, |movements|, records).layers, |b.log|);
  }

  lemma {:induction false} AddedRows(b: Books, item: nat, warehouses: seq<nat>, costs: map<nat, real>, records: CostRecords)
    requires LogAgrees(b) && RowsOk(b.layers, |b.log|)
    ensures RowsOk(AddLayers(b, item, warehouses, costs, records), |b.log|)
  {
    if warehouses != [] {
      var n := |warehouses| - 1;
      AddedRows(b, item, warehouses[..n], costs, records);
      RebuiltPositive(b, Loc(item, warehouses[n]), records);
      RebuiltSources(b, Loc(item, warehouses[n]), records);
    }
  }

  // ------------------------------------------------------------------ the main result

  /** The warehouses asked about are all those where the item has stock or reservations, each once. */
  ghost predicate Complete(b: Books, item: nat, warehouses: seq<nat>)
  {
    Distinct(warehouses) && forall loc: Loc :: loc.item == item && !Lists(warehouses, loc.warehouse) ==> ToCover(b, loc) == 0.0
  }

  lemma ReconciledBooks(b: Books, item: nat, completed: set<nat>, kind: MovementType)
    requires LogAgrees(b)
    ensures var c := b.(log := ReconcileLog(b.log, item, completed, kind));
            && LogAgrees(c) && forall loc: Loc :: loc.item != item ==> ToCover(c, loc) == ToCover(b, loc)
  {
    ReconcileKeepsLog(b.opening, b.log, item, completed, kind);
    var c := b.(log := ReconcileLog(b.log, item, completed, kind));
    forall loc ensures OnHand(c, loc) >= 0.0 && OnHand(c, loc) == Balance(c.opening, c.log, loc) {
      assert OnHand(b, loc) >= 0.0 && OnHand(b, loc) == Balance(b.opening, b.log, loc);
    }
  }

  ghost predicate AllAnchored(b: Books, item: nat, warehouses: seq<nat>)
  {
    forall w: nat :: Lists(warehouses, w) ==> Anchored(b, Loc(item, w))
  }

  predicate OpensAboveZero(opening: map<Loc, real>, item: nat) { forall loc :: loc in opening && loc.item == item ==> opening[loc] >= 0.0 }

  predicate NoLayersOf(b: Books, item: nat) { forall i :: 0 <= i < |b.layers| ==> b.layers[i].loc.item != item }

  /**
    Configuring an item that has stock, reservations and a history, but no layers, keeps the coverage of
    every other item, and establishes it for this one if and only if its histories are anchored.  Those
    that start from nothing always are.
  */
  lemma ConfigureSound(b: Books, item: nat, completed: set<nat>, kind: MovementType, warehouses: seq<nat>, costs: map<nat, real>, records: CostRecords)
    requires Sound(b) && NoLayersOf(b, item) && OpensAboveZero(b.opening, item)
    requires Complete(Closing(b, item, completed, kind), item, warehouses)
    requires Configure(b, item, completed, kind, warehouses, costs, records).Ok?
    ensures var d := Configure(b, item, completed, kind, warehouses, costs, records).value;
            && item in d.configured && d.stock == b.stock
            && (Sound(d) <==> AllAnchored(Closing(b, item, completed, kind), item, warehouses))
    ensures (forall loc: Loc :: loc.item == item ==> OpeningAt(b.opening, loc) == 0.0) ==>
              AllAnchored(Closing(b, item, completed, kind), item, warehouses)
  {
    var c := Closing(b, item, completed, kind);
    var d := Configure(b, item, completed, kind, warehouses, costs, records).value;
    ReconciledBooks(b, item, completed, kind);
    AddedRows(c, item, warehouses, costs, records);
    ConfigureCovers(b, c, d, item, warehouses, costs, records);
    forall loc ensures OnHand(d, loc) >= 0.0 && OnHand(d, loc) == Balance(d.opening, d.log, loc) {
      assert OnHand(c, loc) >= 0.0 && OnHand(c, loc) == Balance(c.opening, c.log, loc);
    }
    if forall loc: Loc :: loc.item == item ==> OpeningAt(b.opening, loc) == 0.0 {
      forall w: nat | Lists(warehouses, w) ensures Anchored(c, Loc(item, w)) { RebuiltCovers(c, Loc(item, w), records); }
    }
  }

  predicate CoveredAt(b: Books, l: Loc) { SumBy(b.layers, RemainingAt(l)) == OnHand(b, l) + SumBy(b.log, ActiveAt(l)) }

  lemma ConfigureCoversAt(b: Books, c: Books, d: Books, item: nat, warehouses: seq<nat>, costs: map<nat, real>, records: CostRecords, l: Loc)
    requires Covered(b) && LogAgrees(c) && c.layers == b.layers && c.stock == b.stock && c.configured == b.configured
    requires Complete(c, item, warehouses) && NoLayersOf(b, item) && OpensAboveZero(c.opening, item)
    requires l.item != item ==> ToCover(c, l) == ToCover(b, l)
    requires d == c.(configured := b.configured + {item}, layers := AddLayers(c, item, warehouses, costs, records))
    requires l.item in d.configured
    ensures CoveredAt(d, l) <==> (l.item == item && Lists(warehouses, l.warehouse) ==> Anchored(c, l))
  {
    AddedCover(c, item, warehouses, costs, records, l);
    assert OnHand(d, l) + SumBy(d.log, ActiveAt(l)) == ToCover(c, l);
    if l.item == item {
      SumByZero(b.layers, RemainingAt(l));
      if Lists(warehouses, l.warehouse) { RebuiltCovers(c, l, records); }
    } else {
      assert SumBy(b.layers, RemainingAt(l)) == ToCover(b, l);
    }
  }

  lemma ConfigureCovers(b: Books, c: Books, d: Books, item: nat, warehouses: seq<nat>, costs: map<nat, real>, records: CostRecords)
    requires Covered(b) && LogAgrees(c) && c.layers == b.layers && c.stock == b.stock && c.configured == b.configured
    requires Complete(c, item, warehouses) && NoLayersOf(b, item) && OpensAboveZero(c.opening, item)
    requires forall loc: Loc :: loc.item != item ==> ToCover(c, loc) == ToCover(b, loc)
    requires d == c.(configured := b.configured + {item}, layers := AddLayers(c, item, warehouses, costs, records))
    ensures Covered(d) <==> AllAnchored(c, item, warehouses)
  {
    forall l: Loc | l.item in d.configured
      ensures CoveredAt(d, l) <==> (l.item == item && Lists(warehouses, l.warehouse) ==> Anchored(c, l))
    {
      ConfigureCoversAt(b, c, d, item, warehouses, costs, records, l);
    }
    if Covered(d) {
      forall w: nat | Lists(warehouses, w) ensures Anchored(c, Loc(item, w)) { assert CoveredAt(d, Loc(item, w)); }
    } else {
      var l: Loc :| l.item in d.configured && !CoveredAt(d, l);
      assert l == Loc(item, l.warehouse) && !Anchored(c, l);
    }
  }
}
