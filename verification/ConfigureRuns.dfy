/**
  Runs in which items are configured for FIFO between other transactions, what the layers that configuring
  writes are worth, and what a replay finds of them.
*/
module ConfigureRuns {
  import opened Fifo
  import opened InventoryLedger
  import opened LedgerInvariants
  import opened LedgerSteps
  import opened LedgerRuns
  import opened HistoricalFifo
  import opened ReplayCore
  import opened ReplayTheorem
  import opened ConfigureValuation

  // ------------------------------------------------------------------ what the rebuilt layers are worth

  /** A layer's own cost, or the opening cost where it has none. */
  function CostOr(opening: real): HistTag -> real { (t: HistTag) => if t.unitCost.Some? then t.unitCost.value else opening }

  function KnownCost(): HistTag -> real { CostOr(0.0) }

  lemma {:induction false} LayerRowsWorth(base: nat, loc: Loc, layers: seq<HistLayer>, opening: real)
    ensures SumBy(LayerRows(base, loc, layers, opening), Worth()) == Value(layers, CostOr(opening))
  {
    if layers != [] {
      var n := |layers| - 1;
      LayerRowsWorth(base, loc, layers[..n], opening);
      assert LayerRows(base, loc, layers, opening)[..n] == LayerRows(base, loc, layers[..n], opening);
      assert layers == layers[..n] + [layers[n]];
      ValueConcat(layers[..n], [layers[n]], CostOr(opening));
      assert [layers[n]][1..] == [];
    }
  }

  /** Known costs, and the opening cost for each unit that has none. */
  lemma {:induction false} WorthSplits(layers: seq<HistLayer>, opening: real)
    ensures Value(layers, CostOr(opening)) == Value(layers, KnownCost()) + Value(layers, Uncosted()) * opening
  {
    if layers != [] {
      WorthSplits(layers[1..], opening);
      Distributes(layers[0].qty * Uncosted()(layers[0].tag), Value(layers[1..], Uncosted()), opening);
    }
  }

  lemma Distributes(x: real, y: real, z: real)
    ensures (x + y) * z == x * z + y * z
  {
  }

  /** What configuring writes is worth. */
  function RebuiltWorth(b: Books, item: nat, warehouses: seq<nat>, costs: map<nat, real>, records: CostRecords): real
  {
    if warehouses == [] then 0.0
    else
      var w := warehouses[|warehouses| - 1];
      RebuiltWorth(b, item, warehouses[..|warehouses| - 1], costs, records) +
      Value(RebuiltAt(b, Loc(item, w), records).layers, CostOr(OpeningOf(costs, w)))
  }

  lemma {:induction false} AddedWorth(b: Books, item: nat, warehouses: seq<nat>, costs: map<nat, real>, records: CostRecords)
    ensures SumBy(AddLayers(b, item, warehouses, costs, records), Worth()) == SumBy(b.layers, Worth()) + RebuiltWorth(b, item, warehouses, costs, records)
  {
    if warehouses != [] {
      var n := |warehouses| - 1;
      var loc := Loc(item, warehouses[n]);
      AddedWorth(b, item, warehouses[..n], costs, records);
      var rows := AddLayers(b, item, warehouses[..n], costs, records);
      var layers := RebuiltAt(b, loc, records).layers;
      SumByConcat(rows, LayerRows(|rows|, loc, layers, OpeningOf(costs, warehouses[n])), Worth());
      LayerRowsWorth(|rows|, loc, layers, OpeningOf(costs, warehouses[n]));
    }
  }

  /** Closing stale reservations moves no cost. */
  lemma ClosingKeepsFlows(b: Books, item: nat, completed: set<nat>, kind: MovementType)
    requires LogOk(b.log)
    ensures Opening(Closing(b, item, completed, kind)) == Opening(b)
  {
    var log := ReconcileLog(b.log, item, completed, kind);
    forall i | 0 <= i < |log| ensures Issued()(log[i]) == Issued()(b.log[i]) && Bought()(log[i]) == Bought()(b.log[i]) {
      assert MovementOk(b.log[i], i);
    }
    SumByFinite(b.log, log, Issued());
    SumByFinite(b.log, log, Bought());
    SumByFinite(b.log, log, ShippedOut());
    SumByFinite(b.log, log, ReceivedIn());
  }

  /** Configuring brings in the worth of the rebuilt layers and no more. */
  lemma ConfigureWorth(b: Books, item: nat, completed: set<nat>, kind: MovementType, warehouses: seq<nat>, costs: map<nat, real>, records: CostRecords)
    requires LogOk(b.log) && Configure(b, item, completed, kind, warehouses, costs, records).Ok?
    ensures Opening(Configure(b, item, completed, kind, warehouses, costs, records).value) ==
            Opening(b) + RebuiltWorth(Closing(b, item, completed, kind), item, warehouses, costs, records)
  {
    ClosingKeepsFlows(b, item, completed, kind);
    AddedWorth(Closing(b, item, completed, kind), item, warehouses, costs, records);
  }

  /** No layer is left without a cost: where the history knows none, an opening cost was asked for. */
  lemma EveryLayerIsPriced(b: Books, item: nat, completed: set<nat>, kind: MovementType, warehouses: seq<nat>, costs: map<nat, real>,
                           records: CostRecords, w: nat, i: nat)
    requires LogAgrees(b) && Lists(warehouses, w) && Configure(b, item, completed, kind, warehouses, costs, records).Ok?
    requires i < |RebuiltAt(Closing(b, item, completed, kind), Loc(item, w), records).layers|
    ensures RebuiltAt(Closing(b, item, completed, kind), Loc(item, w), records).layers[i].tag.unitCost.None? ==> w in costs
  {
    var c := Closing(b, item, completed, kind);
    ReconciledBooks(b, item, completed, kind);
    RebuiltPositive(c, Loc(item, w), records);
    var f := RebuiltAt(c, Loc(item, w), records);
    UncostedIff(f.layers);
    var k :| 0 <= k < |warehouses| && warehouses[k] == w;
    assert !Missing(costs, warehouses[k], RebuiltAt(c, Loc(item, warehouses[k]), records));
  }

  // ------------------------------------------------------------------ the replay right after configuring

  function PricedTag(opening: real): HistTag -> HistTag
  {
    (t: HistTag) => HistTag(t.source, Some(if t.unitCost.Some? then t.unitCost.value else opening))
  }

  /** The same layers, with the opening cost where they have none. */
  function Priced(layers: seq<HistLayer>, opening: real): seq<HistLayer> { Retag(layers, PricedTag(opening)) }

  lemma {:induction false} LayerRowsView(base: nat, loc: Loc, layers: seq<HistLayer>, opening: real, l: Loc)
    requires Positive(layers)
    ensures HistView(LayerRows(base, loc, layers, opening), l) == if l == loc then Priced(layers, opening) else []
  {
    if layers != [] {
      var n := |layers| - 1;
      var rows := LayerRows(base, loc, layers, opening);
      LayerRowsView(base, loc, layers[..n], opening, l);
      assert rows[..n] == LayerRows(base, loc, layers[..n], opening);
    }
  }

  lemma HistViewConcat(xs: seq<LayerRow>, ys: seq<LayerRow>, l: Loc)
    ensures HistView(xs + ys, l) == HistView(xs, l) + HistView(ys, l)
  {
    ViewConcat(xs, ys, l);
  }

  lemma {:induction false} AddedView(b: Books, item: nat, warehouses: seq<nat>, costs: map<nat, real>, records: CostRecords, w: nat)
    requires LogAgrees(b) && Distinct(warehouses)
    ensures HistView(AddLayers(b, item, warehouses, costs, records), Loc(item, w)) ==
            HistView(b.layers, Loc(item, w)) +
            if Lists(warehouses, w) then Priced(RebuiltAt(b, Loc(item, w), records).layers, OpeningOf(costs, w)) else []
  {
    if warehouses != [] {
      var n := |warehouses| - 1;
      var v := warehouses[n];
      AddedView(b, item, warehouses[..n], costs, records, w);
      var rows, f := AddLayers(b, item, warehouses[..n], costs, records), RebuiltAt(b, Loc(item, v), records);
      RebuiltPositive(b, Loc(item, v), records);
      HistViewConcat(rows, LayerRows(|rows|, Loc(item, v), f.layers, OpeningOf(costs, v)), Loc(item, w));
      LayerRowsView(|rows|, Loc(item, v), f.layers, OpeningOf(costs, v), Loc(item, w));
      assert Lists(warehouses, w) <==> Lists(warehouses[..n], w) || w == v;
      assert !Lists(warehouses[..n], v);
    }
  }

  lemma {:induction false} NoView(layers: seq<LayerRow>, loc: Loc)
    requires forall i :: 0 <= i < |layers| ==> layers[i].loc != loc
    ensures HistView(layers, loc) == []
  {
    if layers != [] { NoView(layers[..|layers| - 1], loc); }
  }

  lemma PricedSame(layers: seq<HistLayer>, opening: real)
    requires Positive(layers)
    ensures layers == Priced(layers, opening) <==> Value(layers, Uncosted()) == 0.0
  {
    if Value(layers, Uncosted()) == 0.0 {
      forall i | 0 <= i < |layers| ensures layers[i] == Priced(layers, opening)[i] { UncostedIff(layers); }
    } else {
      if layers == Priced(layers, opening) { AllCosted(layers); }
    }
  }

  lemma {:induction false} AllCosted(layers: seq<HistLayer>)
    requires forall i :: 0 <= i < |layers| ==> layers[i].tag.unitCost.Some?
    ensures Value(layers, Uncosted()) == 0.0
  {
    if layers != [] { AllCosted(layers[1..]); }
  }

  /**
    Right after an item was configured, replaying its history finds its live layers unit for unit, without
    the opening costs: so it finds exactly the live layers if and only if no opening cost was needed.
  */
  lemma ReplayAfterConfiguring(b: Books, item: nat, completed: set<nat>, kind: MovementType, warehouses: seq<nat>, costs: map<nat, real>,
                               records: CostRecords, w: nat)
    requires LogAgrees(b) && NoLayersOf(b, item) && Distinct(warehouses) && Lists(warehouses, w)
    requires Configure(b, item, completed, kind, warehouses, costs, records).Ok?
    ensures var d := Configure(b, item, completed, kind, warehouses, costs, records).value;
            var f := RebuiltAt(d, Loc(item, w), records);
            && HistView(d.layers, Loc(item, w)) == Priced(f.layers, OpeningOf(costs, w))
            && (f.layers == HistView(d.layers, Loc(item, w)) <==> f.openingCost == 0.0)
  {
    var c := Closing(b, item, completed, kind);
    var d := Configure(b, item, completed, kind, warehouses, costs, records).value;
    ReconciledBooks(b, item, completed, kind);
    AddedView(c, item, warehouses, costs, records, w);
    NoView(b.layers, Loc(item, w));
    assert RebuiltAt(d, Loc(item, w), records) == RebuiltAt(c, Loc(item, w), records);
    RebuiltPositive(c, Loc(item, w), records);
    PricedSame(RebuiltAt(c, Loc(item, w), records).layers, OpeningOf(costs, w));
  }

  /** Unit for unit, the live layers of a configured warehouse are the rebuilt ones, and cost what was given for it where those have no cost. */
  lemma OpeningCostsAreWritten(b: Books, item: nat, completed: set<nat>, kind: MovementType, warehouses: seq<nat>, costs: map<nat, real>,
                               records: CostRecords, w: nat, i: nat)
    requires LogAgrees(b) && NoLayersOf(b, item) && Distinct(warehouses) && Lists(warehouses, w)
    requires Configure(b, item, completed, kind, warehouses, costs, records).Ok?
    requires i < |RebuiltAt(Closing(b, item, completed, kind), Loc(item, w), records).layers|
    ensures var live := HistView(Configure(b, item, completed, kind, warehouses, costs, records).value.layers, Loc(item, w));
            var found := RebuiltAt(Closing(b, item, completed, kind), Loc(item, w), records).layers[i];
            && i < |live| && live[i].qty == found.qty && live[i].tag.source == found.tag.source
            && (found.tag.unitCost.Some? ==> live[i].tag.unitCost == found.tag.unitCost)
            && (found.tag.unitCost.None? ==> w in costs && live[i].tag.unitCost == Some(costs[w]))
  {
    ReconciledBooks(b, item, completed, kind);
    AddedView(Closing(b, item, completed, kind), item, warehouses, costs, records, w);
    NoView(b.layers, Loc(item, w));
    EveryLayerIsPriced(b, item, completed, kind, warehouses, costs, records, w, i);
  }

  // ------------------------------------------------------------------ mixed runs

  datatype Change =
    | Transaction(op: Op)
    | Configuring(item: nat, completed: set<nat>, kind: MovementType, warehouses: seq<nat>, costs: map<nat, real>, records: CostRecords)

  function Changed(b: Books, e: Change): Books
  {
    match e
    case Transaction(op) => Apply(b, op)
    case Configuring(item, completed, kind, warehouses, costs, records) =>
      Settle(b, Configure(b, item, completed, kind, warehouses, costs, records))
  }

  function ChangedAll(b: Books, changes: seq<Change>): Books
  {
    if changes == [] then b else Changed(ChangedAll(b, changes[..|changes| - 1]), changes[|changes| - 1])
  }

  /** The service asks about all the item's warehouses, and their histories are anchored. */
  ghost predicate Fits(b: Books, e: Change)
  {
    match e
    case Transaction(op) => WellPosed(op)
    case Configuring(item, completed, kind, warehouses, costs, records) =>
      var c := Closing(b, item, completed, kind);
      Complete(c, item, warehouses) && OpensAboveZero(b.opening, item) && AllAnchored(c, item, warehouses)
  }

  ghost predicate AllFit(b: Books, changes: seq<Change>)
  {
    changes == [] ||
    (AllFit(b, changes[..|changes| - 1]) && Fits(ChangedAll(b, changes[..|changes| - 1]), changes[|changes| - 1]))
  }

  predicate LayersConfigured(b: Books) { forall i :: 0 <= i < |b.layers| ==> b.layers[i].loc.item in b.configured }

  lemma StepLayers(b: Books, s: Step)
    requires Sound(b) && CanDo(b, s) && LayersConfigured(b)
    ensures LayersConfigured(Do(b, s)) && Do(b, s).configured == b.configured
  {
    match s
    case Debiting(loc, q, _, _, _) => ConsumeRows(b.layers, loc, q);
    case Committing(i, _) => ConsumeRows(b.layers, b.log[i].loc, b.log[i].quantity);
    case Releasing(i, status) => ReleaseOneSound(b, i, status);
    case _ =>
  }

  lemma {:induction false} PathLayers(b: Books, steps: seq<Step>)
    requires Healthy(b) && Legal(b, steps) && LayersConfigured(b)
    ensures LayersConfigured(Play(b, steps))
  {
    if steps != [] {
      PathLayers(b, steps[..|steps| - 1]);
      PathHealthy(b, steps[..|steps| - 1]);
      StepLayers(Play(b, steps[..|steps| - 1]), steps[|steps| - 1]);
    }
  }

  lemma {:induction false} AddedLayers(b: Books, item: nat, warehouses: seq<nat>, costs: map<nat, real>, records: CostRecords)
    requires LayersConfigured(b)
    ensures forall l :: l in AddLayers(b, item, warehouses, costs, records) ==> l.loc.item in b.configured + {item}
  {
    if warehouses != [] {
      AddedLayers(b, item, warehouses[..|warehouses| - 1], costs, records);
    }
  }

  lemma ConfiguringKeeps(b: Books, e: Change)
    requires Healthy(b) && LayersConfigured(b) && e.Configuring? && Fits(b, e)
    ensures Healthy(Changed(b, e)) && LayersConfigured(Changed(b, e))
  {
    if Configure(b, e.item, e.completed, e.kind, e.warehouses, e.costs, e.records).Ok? {
      var d := Changed(b, e);
      assert NoLayersOf(b, e.item);
      ConfigureSound(b, e.item, e.completed, e.kind, e.warehouses, e.costs, e.records);
      AddedLayers(Closing(b, e.item, e.completed, e.kind), e.item, e.warehouses, e.costs, e.records);
      forall i | 0 <= i < |d.log| ensures Positive(d.log[i].allocations) { assert Positive(b.log[i].allocations); }
      forall i | 0 <= i < |d.layers| ensures d.layers[i].loc.item in d.configured { assert d.layers[i] in d.layers; }
    }
  }

  lemma ChangeKeeps(b: Books, e: Change)
    requires Healthy(b) && LayersConfigured(b) && Fits(b, e)
    ensures Healthy(Changed(b, e)) && LayersConfigured(Changed(b, e))
  {
    match e
    case Transaction(op) =>
      ApplyHealthy(b, op);
      var steps := Decompose(b, op);
      PathLayers(b, steps);
    case Configuring(_, _, _, _, _, _) => ConfiguringKeeps(b, e);
  }

  /**
    Coverage over every run in which items become FIFO items at any time, with whatever stock,
    reservations and history they have by then: the layers cover every configured item, so every way its
    stock can leave succeeds exactly when there is enough on hand.
  */
  lemma {:induction false} MixedRunsCovered(b: Books, changes: seq<Change>)
    requires Healthy(b) && LayersConfigured(b) && AllFit(b, changes)
    ensures Healthy(ChangedAll(b, changes)) && LayersConfigured(ChangedAll(b, changes))
    ensures forall loc: Loc, q: real :: loc.item in ChangedAll(b, changes).configured && q > 0.0 ==> Issuable(ChangedAll(b, changes), loc, q)
  {
    if changes != [] {
      var c := ChangedAll(b, changes[..|changes| - 1]);
      MixedRunsCovered(b, changes[..|changes| - 1]);
      ChangeKeeps(c, changes[|changes| - 1]);
    }
    var d := ChangedAll(b, changes);
    forall loc: Loc, q: real | loc.item in d.configured && q > 0.0 ensures Issuable(d, loc, q) { CoveredIsIssuable(d, loc, q); }
  }

  lemma {:induction false} StaysConfigured(b: Books, changes: seq<Change>, item: nat)
    requires Healthy(b) && LayersConfigured(b) && AllFit(b, changes) && item in b.configured
    ensures item in ChangedAll(b, changes).configured
  {
    if changes != [] {
      var c := ChangedAll(b, changes[..|changes| - 1]);
      StaysConfigured(b, changes[..|changes| - 1], item);
      MixedRunsCovered(b, changes[..|changes| - 1]);
      if changes[|changes| - 1].Transaction? { ApplyHealthy(c, changes[|changes| - 1].op); }
    }
  }

  /** Once configured, an item can be issued down to its last unit, through any run that follows. */
  lemma ConfiguredIsIssuable(b: Books, e: Change, more: seq<Change>, w: nat, q: real)
    requires Healthy(b) && LayersConfigured(b) && e.Configuring? && Fits(b, e) && q > 0.0
    requires Configure(b, e.item, e.completed, e.kind, e.warehouses, e.costs, e.records).Ok? && AllFit(Changed(b, e), more)
    ensures Issuable(ChangedAll(Changed(b, e), more), Loc(e.item, w), q)
  {
    ChangeKeeps(b, e);
    StaysConfigured(Changed(b, e), more, e.item);
    MixedRunsCovered(Changed(b, e), more);
  }

  /** What configuring brings in over a run. */
  function BroughtIn(b: Books, changes: seq<Change>): real
  {
    if changes == [] then 0.0
    else
      var front, e := changes[..|changes| - 1], changes[|changes| - 1];
      var c := ChangedAll(b, front);
      BroughtIn(b, front) +
      if e.Configuring? && Configure(c, e.item, e.completed, e.kind, e.warehouses, e.costs, e.records).Ok? then
        RebuiltWorth(Closing(c, e.item, e.completed, e.kind), e.item, e.warehouses, e.costs, e.records)
      else 0.0
  }

  /** Value is conserved in them too: only the rebuilt worth is added. */
  lemma {:induction false} MixedRunsConserveValue(b: Books, changes: seq<Change>)
    requires Healthy(b) && LayersConfigured(b) && AllFit(b, changes)
    ensures Opening(ChangedAll(b, changes)) == Opening(b) + BroughtIn(b, changes)
  {
    if changes != [] {
      var front, e := changes[..|changes| - 1], changes[|changes| - 1];
      var c := ChangedAll(b, front);
      MixedRunsConserveValue(b, front);
      MixedRunsCovered(b, front);
      if e.Transaction? {
        var steps := Decompose(c, e.op);
        PathOpening(c, steps);
      } else if Configure(c, e.item, e.completed, e.kind, e.warehouses, e.costs, e.records).Ok? {
        ConfigureWorth(c, e.item, e.completed, e.kind, e.warehouses, e.costs, e.records);
      }
    }
  }

  // ------------------------------------------------------------------ when configuring is accepted

  /** Some unit of the rebuilt balance has no known cost. */
  predicate HasUncosted(layers: seq<HistLayer>) { exists i :: 0 <= i < |layers| && layers[i].tag.unitCost.None? }

  lemma {:induction false} UncostedIff(layers: seq<HistLayer>)
    requires Positive(layers)
    ensures Value(layers, Uncosted()) >= 0.0 && (Value(layers, Uncosted()) > 0.0 <==> HasUncosted(layers))
  {
    if layers != [] {
      UncostedIff(layers[1..]);
      if HasUncosted(layers[1..]) {
        var i :| 0 <= i < |layers[1..]| && layers[1..][i].tag.unitCost.None?;
        assert layers[i + 1] == layers[1..][i];
      }
      if HasUncosted(layers) && layers[0].tag.unitCost.Some? {
        var i :| 0 <= i < |layers| && layers[i].tag.unitCost.None?;
        assert layers[1..][i - 1] == layers[i];
      }
    }
  }

  /** The item's stock in a warehouse, rebuilt, has units without a known cost. */
  predicate Uncertain(c: Books, item: nat, w: nat, records: CostRecords) { HasUncosted(RebuiltAt(c, Loc(item, w), records).layers) }

  /** An opening cost is given for exactly the warehouses that need one. */
  predicate CostsFit(c: Books, item: nat, warehouses: seq<nat>, costs: map<nat, real>, records: CostRecords)
  {
    && (forall i :: 0 <= i < |warehouses| && Uncertain(c, item, warehouses[i], records) ==> warehouses[i] in costs)
    && (forall w :: w in costs ==> w in warehouses && Uncertain(c, item, w, records))
  }

  /** What closing stale reservations does to a movement of the log. */
  predicate ClosedAs(was: Movement, now: Movement, item: nat, completed: set<nat>, kind: MovementType)
  {
    if IsActive(was) && was.loc.item == item && was.ref.order in completed then
      now == was.(kind := kind, ref := now.ref) && now.ref == Reservation(was.ref.order, Committed)
    else now == was
  }

  /**
    Configuring is accepted exactly when the item is not configured yet and an opening cost is given for each
    warehouse whose rebuilt layers have an uncosted unit, and for no other.  It closes the active
    reservations of completed orders of this item, without moving stock, and touches no other movement.
  */
  lemma ConfigureAcceptedIff(b: Books, item: nat, completed: set<nat>, kind: MovementType, warehouses: seq<nat>, costs: map<nat, real>,
                             records: CostRecords)
    requires LogAgrees(b)
    ensures var o := Configure(b, item, completed, kind, warehouses, costs, records);
            && (o.Ok? <==> item !in b.configured && CostsFit(Closing(b, item, completed, kind), item, warehouses, costs, records))
            && (o.Ok? ==>
                  && o.value.stock == b.stock && o.value.configured == b.configured + {item} && |o.value.log| == |b.log|
                  && forall i :: 0 <= i < |b.log| ==> ClosedAs(b.log[i], o.value.log[i], item, completed, kind))
  {
    var c := Closing(b, item, completed, kind);
    ReconciledBooks(b, item, completed, kind);
    forall w: nat ensures NeedsOpening(RebuiltAt(c, Loc(item, w), records)) <==> Uncertain(c, item, w, records) {
      RebuiltPositive(c, Loc(item, w), records);
      UncostedIff(RebuiltAt(c, Loc(item, w), records).layers);
    }
    CostErrorIff(c, item, warehouses, costs, records);
  }

  lemma CostErrorIff(c: Books, item: nat, warehouses: seq<nat>, costs: map<nat, real>, records: CostRecords)
    requires forall w: nat :: NeedsOpening(RebuiltAt(c, Loc(item, w), records)) <==> Uncertain(c, item, w, records)
    ensures CostError(c, item, warehouses, costs, records) == None <==> CostsFit(c, item, warehouses, costs, records)
  {
    forall i | 0 <= i < |warehouses|
      ensures Missing(costs, warehouses[i], RebuiltAt(c, Loc(item, warehouses[i]), records)) <==>
              warehouses[i] !in costs && Uncertain(c, item, warehouses[i], records)
    {
    }
    forall w | w in costs
      ensures Needless(w, warehouses, RebuiltAt(c, Loc(item, w), records)) <==> !(w in warehouses && Uncertain(c, item, w, records))
    {
    }
  }
}
