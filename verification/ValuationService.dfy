/**
  configureValuation as the repository runs it for FIFO: stale reservations are closed, every warehouse's
  layers are rebuilt, the opening costs are checked, and the layers are written.
*/
module ValuationService {
  import opened Fifo
  import opened InventoryLedger
  import opened LedgerInvariants
  import opened LedgerSteps
  import opened HistoricalFifo
  import opened HistoricalReplay
  import opened ReplayTheorem
  import opened ConfigureValuation
  import opened InventoryStore

  /** Closes the reservations of completed orders in place. */
  method CloseStale(store: Store, item: nat, completed: set<nat>, kind: MovementType)
    modifies store`log
    ensures store.log == ReconcileLog(old(store.log), item, completed, kind)
  {
    ghost var was := store.log;
    for i := 0 to |store.log|
      invariant |store.log| == |was|
      invariant forall k :: 0 <= k < |was| ==> store.log[k] == if k < i then Reconciled(was[k], item, completed, kind) else was[k]
    {
      var m := store.log[i];
      if IsActive(m) && m.loc.item == item && m.ref.order in completed {
        store.log := store.log[i := m.(ref := Reservation(m.ref.order, Committed), kind := kind)];
      }
    }
  }

  /** The rebuilt balance of each warehouse. */
  method Rebuild(store: Store, item: nat, warehouses: seq<nat>, records: CostRecords) returns (found: seq<FifoBalance>)
    ensures |found| == |warehouses|
    ensures forall i :: 0 <= i < |warehouses| ==> found[i] == RebuiltAt(store.State(), Loc(item, warehouses[i]), records)
  {
    found := [];
    for i := 0 to |warehouses|
      invariant |found| == i
      invariant forall k :: 0 <= k < i ==> found[k] == RebuiltAt(store.State(), Loc(item, warehouses[k]), records)
    {
      var loc := Loc(item, warehouses[i]);
      var f := ReconstructHistoricalFifo(HistoryOf(store.log, loc), ToCover(store.State(), loc), records);
      found := found + [f];
    }
  }

  method WriteLayers(store: Store, loc: Loc, layers: seq<HistLayer>, opening: real)
    modifies store`layers
    ensures store.layers == old(store.layers) + LayerRows(|old(store.layers)|, loc, layers, opening)
  {
    ghost var was := store.layers;
    for k := 0 to |layers|
      invariant store.layers == was + LayerRows(|was|, loc, layers, opening)[..k]
    {
      var unitCost := if layers[k].tag.unitCost.Some? then layers[k].tag.unitCost.value else opening;
      store.layers := store.layers + [LayerRow(|store.layers|, loc, layers[k].tag.source, layers[k].qty, layers[k].qty, unitCost)];
    }
  }

  method MissingOpening(warehouses: seq<nat>, costs: map<nat, real>, found: seq<FifoBalance>) returns (missing: bool)
    requires |found| == |warehouses|
    ensures missing == exists i :: 0 <= i < |warehouses| && Missing(costs, warehouses[i], found[i])
  {
    for i := 0 to |warehouses|
      invariant forall k :: 0 <= k < i ==> !Missing(costs, warehouses[k], found[k])
    {
      if Missing(costs, warehouses[i], found[i]) { return true; }
    }
    missing := false;
  }

  /** Whether a cost is given for this warehouse although none is needed there. */
  method IsNeedless(warehouses: seq<nat>, found: seq<FifoBalance>, w: nat) returns (needless: bool)
    requires |found| == |warehouses|
    ensures w !in warehouses ==> needless
    ensures forall f :: (forall i :: 0 <= i < |warehouses| && warehouses[i] == w ==> found[i] == f) ==> needless == Needless(w, warehouses, f)
  {
    var i := 0;
    while i < |warehouses| && warehouses[i] != w
      invariant i <= |warehouses| && forall k :: 0 <= k < i ==> warehouses[k] != w
    {
      i := i + 1;
    }
    needless := i == |warehouses| || !NeedsOpening(found[i]);
  }

  method AnyNeedless(store: Store, item: nat, warehouses: seq<nat>, costs: map<nat, real>, ghost records: CostRecords, found: seq<FifoBalance>)
    returns (needless: bool)
    requires |found| == |warehouses|
    requires forall i :: 0 <= i < |warehouses| ==> found[i] == RebuiltAt(store.State(), Loc(item, warehouses[i]), records)
    ensures needless == exists w :: w in costs && Needless(w, warehouses, RebuiltAt(store.State(), Loc(item, w), records))
  {
    var left := costs.Keys;
    while left != {}
      invariant left <= costs.Keys
      invariant forall w :: w in costs.Keys - left ==> !Needless(w, warehouses, RebuiltAt(store.State(), Loc(item, w), records))
      decreases |left|
    {
      var w :| w in left;
      var bad := IsNeedless(warehouses, found, w);
      assert bad == Needless(w, warehouses, RebuiltAt(store.State(), Loc(item, w), records));
      if bad { return true; }
      left := left - {w};
    }
    needless := false;
  }

  method CheckCosts(store: Store, item: nat, warehouses: seq<nat>, costs: map<nat, real>, ghost records: CostRecords, found: seq<FifoBalance>)
    returns (e: Option<Error>)
    requires |found| == |warehouses|
    requires forall i :: 0 <= i < |warehouses| ==> found[i] == RebuiltAt(store.State(), Loc(item, warehouses[i]), records)
    ensures e == CostError(store.State(), item, warehouses, costs, records)
  {
    var missing := MissingOpening(warehouses, costs, found);
    if missing { return Some(UnitCostRequired); }
    var needless := AnyNeedless(store, item, warehouses, costs, records, found);
    e := if needless then Some(StockNotFound) else None;
  }

  method WriteAll(store: Store, item: nat, warehouses: seq<nat>, costs: map<nat, real>, ghost records: CostRecords, found: seq<FifoBalance>)
    requires |found| == |warehouses|
    requires forall i :: 0 <= i < |warehouses| ==> found[i] == RebuiltAt(store.State(), Loc(item, warehouses[i]), records)
    modifies store`layers
    ensures store.layers == AddLayers(old(store.State()), item, warehouses, costs, records)
  {
    ghost var c := store.State();
    for i := 0 to |warehouses|
      invariant store.layers == AddLayers(c, item, warehouses[..i], costs, records)
    {
      assert warehouses[..i + 1][..i] == warehouses[..i];
      WriteLayers(store, Loc(item, warehouses[i]), found[i].layers, OpeningOf(costs, warehouses[i]));
    }
    assert warehouses[..|warehouses|] == warehouses;
  }

  method CloseRebuildWrite(store: Store, item: nat, completed: set<nat>, kind: MovementType, warehouses: seq<nat>, costs: map<nat, real>,
                       records: CostRecords) returns (s: Status)
    modifies store
    ensures Follows(s, store.State(), Configure(old(store.State()), item, completed, kind, warehouses, costs, records))
  {
    if item in store.configured { return Failed(WrongStatus); }
    CloseStale(store, item, completed, kind);
    var found := Rebuild(store, item, warehouses, records);
    var e := CheckCosts(store, item, warehouses, costs, records, found);
    if e.Some? { return Failed(e.value); }
    WriteAll(store, item, warehouses, costs, records, found);
    store.configured := store.configured + {item};
    s := Done;
  }

  /** The whole of it in one transaction: when a check fails, the closed reservations are active again. */
  method ConfigureFifo(store: Store, item: nat, completed: set<nat>, kind: MovementType, warehouses: seq<nat>, costs: map<nat, real>,
                       records: CostRecords) returns (s: Status)
    modifies store
    ensures Follows(s, store.State(), Configure(old(store.State()), item, completed, kind, warehouses, costs, records))
    ensures store.State() == Settle(old(store.State()), Configure(old(store.State()), item, completed, kind, warehouses, costs, records))
  {
    var configured, stock, layers, log, transfers := store.configured, store.stock, store.layers, store.log, store.transfers;
    s := CloseRebuildWrite(store, item, completed, kind, warehouses, costs, records);
    if s.Failed? {
      store.configured, store.stock, store.layers, store.log, store.transfers := configured, stock, layers, log, transfers;
    }
  }
}
