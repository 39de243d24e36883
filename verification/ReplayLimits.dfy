/**
  Where the replay stops being the live state, and why a transfer may name an item only once.
*/
module ReplayLimits {
  import opened Fifo
  import opened InventoryLedger
  import opened LedgerInvariants
  import opened LedgerSteps
  import opened LedgerRuns
  import opened HistoricalFifo
  import opened HistoricalCosts
  import opened ReplayCore
  import opened ReplayTheorem
  import opened ReplayAll
  import opened TransferProofs

  // ------------------------------------------------------------------ a release the replay cannot follow

  function StockReserveRelease(): seq<Op>
  {
    var loc := Loc(0, 0);
    [OpStockIn(loc, 2.0, Some(5.0)), OpReserve(7, [Requirement(0, 1.0)], [loc]), OpRelease(OfOrder(7), Released)]
  }

  lemma RunNext(b: Books, ops: seq<Op>, n: nat)
    requires n < |ops|
    ensures Run(b, ops[..n + 1]) == Apply(Run(b, ops[..n]), ops[n])
  {
    assert ops[..n + 1][..n] == ops[..n];
  }

  lemma ReserveOne(b: Books, order: nat, loc: Loc, q: real)
    requires 0.0 < q <= OnHand(b, loc) && !HoldsReservation(b.log, order, {Active, Committed})
    ensures Reserve(b, order, [Requirement(loc.item, q)], [loc]) == Ok(ReserveAt(b, order, loc, q))
  {
    var r := Requirement(loc.item, q);
    assert [r][..0] == [] && [loc][..0] == [];
    assert ReserveRows(b, order, r, []) == Reserving(b, q);
    assert ReserveRows(b, order, r, [loc]) == Reserving(ReserveAt(b, order, loc, q), 0.0);
    assert ReserveAll(b, order, [], [loc]) == Ok(b);
  }

  /** Releasing the last movement of a log, when it is the only active one. */
  lemma ReleaseLast(b: Books, order: nat)
    requires b.log != [] && HeldBy(b.log[|b.log| - 1], order)
    requires forall i :: 0 <= i < |b.log| - 1 ==> !IsActive(b.log[i])
    ensures Release(b, OfOrder(order), Released) == ReleaseOne(b, |b.log| - 1, Released)
  {
    ReleaseNothing(b, order, |b.log| - 1);
  }

  lemma {:induction false} ReleaseNothing(b: Books, order: nat, n: nat)
    requires n <= |b.log| && forall i :: 0 <= i < n ==> !IsActive(b.log[i])
    ensures ReleaseUpTo(b, OfOrder(order), Released, n) == Ok(b)
  {
    if n != 0 {
      ReleaseNothing(b, order, n - 1);
    }
  }

  function StockedTwo(): Books { ReceiveStock(Empty({0}), Loc(0, 0), 2.0, 5.0, STOCK_IN) }

  function ReservedOne(): Books { ReserveAt(StockedTwo(), 7, Loc(0, 0), 1.0) }

  lemma RunsToReserved()
    ensures Run(Empty({0}), StockReserveRelease()[..2]) == ReservedOne()
  {
    var ops, e := StockReserveRelease(), Empty({0});
    RunNext(e, ops, 0);
    RunNext(e, ops, 1);
    assert ops[..0] == [];
    ReserveOne(StockedTwo(), 7, Loc(0, 0), 1.0);
  }

  lemma RunsToReleased() returns (d: Books)
    ensures d == Run(Empty({0}), StockReserveRelease())
    ensures NoneActive(d.log, Loc(0, 0)) && Owed(d.log, Loc(0, 0)) == 2.0 && OnHand(d, Loc(0, 0)) == 2.0
  {
    var ops, e := StockReserveRelease(), Empty({0});
    RunsToReserved();
    RunNext(e, ops, 2);
    assert ops[..3] == ops;
    d := Run(e, ops);
    ReleaseLast(ReservedOne(), 7);
    ReleasedState(ReservedOne(), d);
  }

  /** Two units come in at 5, one is reserved and released: the replay does not find the two units. */
  lemma ReleaseDiverges()
    ensures var b := Run(Empty({0}), StockReserveRelease());
            && Owed(b.log, Loc(0, 0)) == 2.0 && OnHand(b, Loc(0, 0)) == 2.0
            && !Rebuilds(Reconstruct(HistoryOf(b.log, Loc(0, 0)), 2.0, Records(b)), b.layers, Loc(0, 0))
  {
    var d := RunsToReleased();
    ReplayEqualsLive({0}, StockReserveRelease(), Loc(0, 0));
  }

  lemma ReleasedState(b: Books, d: Books)
    requires |b.log| == 2 && IsActive(b.log[1]) && !IsActive(b.log[0]) && b.log[1].loc == Loc(0, 0)
    requires b.log[1].allocations == [] && b.log[1].quantity == 1.0 && OnHand(b, Loc(0, 0)) == 1.0
    requires Ok(d) == ReleaseOne(b, 1, Released)
    ensures NoneActive(d.log, Loc(0, 0)) && Owed(d.log, Loc(0, 0)) == 2.0 && OnHand(d, Loc(0, 0)) == 2.0
  {
    assert |d.log| == 3 && d.log[2].ref.ReservationRelease? && d.log[2].after == Some(2.0) && d.log[2].loc == Loc(0, 0);
  }

  // ------------------------------------------------------------------ repeated items in a shipment

  /** A shipment line records the stock read before the loop. */
  predicate ShipRecord(b: Books, t: nat, j: nat, m: Movement)
    requires t < |b.transfers| && j < |b.transfers[t].items|
  {
    var line := b.transfers[t].items[j];
    var loc := Loc(line.item, b.transfers[t].source);
    && m.loc == loc && line.quantity > 0.0
    && m.before == Some(OnHand(b, loc)) && m.after == Some(OnHand(b, loc) - line.quantity)
  }

  predicate AllShipRecords(b: Books, t: nat, log: seq<Movement>)
    requires t < |b.transfers| && |b.log| <= |log| <= |b.log| + |b.transfers[t].items|
  {
    forall k :: |b.log| <= k < |log| ==> ShipRecord(b, t, k - |b.log|, log[k])
  }

  lemma {:induction false} ShipRecords(b: Books, t: nat, n: nat)
    requires t < |b.transfers| && n <= |b.transfers[t].items| && ShipUpTo(b, t, n).Ok?
    ensures |ShipUpTo(b, t, n).value.log| == |b.log| + n && AllShipRecords(b, t, ShipUpTo(b, t, n).value.log)
  {
    if n != 0 {
      ShipRecords(b, t, n - 1);
      ShipRecordsOne(b, t, n);
    }
  }

  /** What the n-th line wrote. */
  lemma ShipRecordLast(b: Books, t: nat, n: nat)
    requires t < |b.transfers| && 0 < n <= |b.transfers[t].items| && ShipUpTo(b, t, n).Ok?
    ensures ShipUpTo(b, t, n - 1).Ok?
    ensures var c, d := ShipUpTo(b, t, n - 1).value, ShipUpTo(b, t, n).value;
            |d.log| == |c.log| + 1 && d.log == c.log + [d.log[|c.log|]] && ShipRecord(b, t, n - 1, d.log[|c.log|])
  {
    var d := LastShipped(b, t, n);
  }

  lemma ShipRecordsOne(b: Books, t: nat, n: nat)
    requires t < |b.transfers| && 0 < n <= |b.transfers[t].items| && ShipUpTo(b, t, n).Ok?
    requires |ShipUpTo(b, t, n - 1).value.log| == |b.log| + n - 1 && AllShipRecords(b, t, ShipUpTo(b, t, n - 1).value.log)
    ensures |ShipUpTo(b, t, n).value.log| == |b.log| + n && AllShipRecords(b, t, ShipUpTo(b, t, n).value.log)
  {
    var c, d := ShipUpTo(b, t, n - 1).value, ShipUpTo(b, t, n).value;
    ShipRecordLast(b, t, n);
    RecordsSnoc(b, t, c.log, d.log[|c.log|]);
  }

  lemma RecordsSnoc(b: Books, t: nat, log: seq<Movement>, m: Movement)
    requires t < |b.transfers| && |b.log| <= |log| < |b.log| + |b.transfers[t].items| && AllShipRecords(b, t, log)
    requires ShipRecord(b, t, |log| - |b.log|, m)
    ensures AllShipRecords(b, t, log + [m])
  {
  }

  lemma {:induction false} BalanceBetween(opening: map<Loc, real>, log: seq<Movement>, i: nat, n: nat, loc: Loc, seen: real)
    requires i < n <= |log|
    requires log[i].loc == loc && log[i].after.Some? && log[i].after.value < seen
    requires forall k :: i <= k < n && log[k].loc == loc ==> log[k].after.Some? && log[k].after.value < seen
    ensures Balance(opening, log[..n], loc) < seen
  {
    assert log[..n][..n - 1] == log[..n - 1];
    if n - 1 > i && log[n - 1].loc != loc {
      BalanceBetween(opening, log, i, n - 1, loc, seen);
    }
  }

  lemma RepeatBreaksChain(b: Books, t: nat, i: nat, j: nat)
    requires t < |b.transfers| && i < j < |b.transfers[t].items|
    requires b.transfers[t].items[i].item == b.transfers[t].items[j].item
    requires ShipUpTo(b, t, |b.transfers[t].items|).Ok?
    ensures var d := ShipUpTo(b, t, |b.transfers[t].items|).value; !Chained(d.opening, d.log)
  {
    var d := ShipUpTo(b, t, |b.transfers[t].items|).value;
    ShipRecords(b, t, |b.transfers[t].items|);
    var loc := Loc(b.transfers[t].items[i].item, b.transfers[t].source);
    var first, n := |b.log| + i, |b.log| + j;
    assert ShipRecord(b, t, first - |b.log|, d.log[first]) && ShipRecord(b, t, n - |b.log|, d.log[n]);
    forall k | first <= k < n && d.log[k].loc == loc ensures d.log[k].after.Some? && d.log[k].after.value < OnHand(b, loc) {
      assert ShipRecord(b, t, k - |b.log|, d.log[k]);
    }
    BalanceBetween(d.opening, d.log, first, n, loc, OnHand(b, loc));
    assert d.log[n].before == Some(OnHand(b, loc));
    assert !ChainedAt(d.opening, d.log, n);
  }

  /**
    The ship loop reads every stock row once, before it starts.  The log it writes chains if and only
    if no item is listed twice, which is what creating a transfer checks.
  */
  lemma ShipChainsIffDistinct(b: Books, t: nat)
    requires Sound(b) && t < |b.transfers| && ShipUpTo(b, t, |b.transfers[t].items|).Ok?
    ensures var d := ShipUpTo(b, t, |b.transfers[t].items|).value; Chained(d.opening, d.log) <==> DistinctItems(b.transfers[t].items)
  {
    var items := b.transfers[t].items;
    if DistinctItems(items) {
      var steps := ShipSteps(b, t, |items|);
      PathSound(b, steps);
    } else {
      var i, j :| 0 <= i < j < |items| && items[i].item == items[j].item;
      RepeatBreaksChain(b, t, i, j);
    }
  }

  lemma {:induction false} PathSound(b: Books, steps: seq<Step>)
    requires Sound(b) && Legal(b, steps)
    ensures Sound(Play(b, steps))
  {
    if steps != [] {
      PathSound(b, steps[..|steps| - 1]);
      StepSound(Play(b, steps[..|steps| - 1]), steps[|steps| - 1]);
    }
  }

  // ------------------------------------------------------------------ restoring an issue

  predicate DistinctRows(layers: seq<LayerRow>) { forall i :: 0 <= i < |layers| ==> layers[i].id == i }

  lemma {:induction false} RestoreAppend(layers: seq<LayerRow>, l: LayerRow, allocations: seq<Alloc>)
    requires forall i :: 0 <= i < |allocations| ==> allocations[i].tag.layer < |layers|
    ensures RestoreRows(layers + [l], allocations) == RestoreRows(layers, allocations) + [l]
  {
    if allocations != [] {
      RestoreAppend(layers, l, allocations[..|allocations| - 1]);
    }
  }

  lemma {:induction false} ConsumeIds(layers: seq<LayerRow>, loc: Loc, q: real)
    requires DistinctRows(layers)
    ensures forall i :: 0 <= i < |Consume(layers, loc, q).allocations| ==> Consume(layers, loc, q).allocations[i].tag.layer < |layers|
    ensures DistinctRows(Consume(layers, loc, q).rows)
  {
    if layers != [] {
      ConsumeIds(layers[..|layers| - 1], loc, q);
    }
  }

  lemma RestorePrefix(layers: seq<LayerRow>, rows: seq<LayerRow>, l: LayerRow, allocations: seq<Alloc>)
    requires forall i :: 0 <= i < |allocations| ==> allocations[i].tag.layer < |rows|
    requires RestoreRows(rows, allocations) == layers
    ensures RestoreRows(rows + [l], allocations) == layers + [l]
  {
    RestoreAppend(rows, l, allocations);
  }

  /** Restoring the allocations of an issue gives back the layers as they were before it. */
  lemma {:induction false} RestoreUndoesIssue(layers: seq<LayerRow>, loc: Loc, q: real)
    requires DistinctRows(layers)
    ensures RestoreRows(Consume(layers, loc, q).rows, Consume(layers, loc, q).allocations) == layers
  {
    if layers != [] {
      var front, last := layers[..|layers| - 1], layers[|layers| - 1];
      var c := Consume(front, loc, q);
      assert Consume(layers, loc, q) == ConsumeNext(c, last, loc);
      assert RestoreRows(c.rows, c.allocations) == front by { RestoreUndoesIssue(front, loc, q); }
      assert forall i :: 0 <= i < |c.allocations| ==> c.allocations[i].tag.layer < |front| by { ConsumeIds(front, loc, q); }
      RestoreOneMore(c, front, last, loc);
      assert layers == front + [last];
    }
  }

  /** What consuming makes of one more layer. */
  function ConsumeNext(c: Consumption, l: LayerRow, loc: Loc): Consumption
  {
    if Open(l, loc) && c.left > 0.0 then
      var used := Min(l.remaining, c.left);
      Consumption(c.rows + [l.(remaining := l.remaining - used)], c.allocations + [Lot(used, TagOf(l))], c.left - used)
    else c.(rows := c.rows + [l])
  }

  lemma RestoreOneMore(c: Consumption, layers: seq<LayerRow>, l: LayerRow, loc: Loc)
    requires |c.rows| == |layers| == l.id && RestoreRows(c.rows, c.allocations) == layers
    requires forall i :: 0 <= i < |c.allocations| ==> c.allocations[i].tag.layer < |c.rows|
    ensures RestoreRows(ConsumeNext(c, l, loc).rows, ConsumeNext(c, l, loc).allocations) == layers + [l]
  {
    if Open(l, loc) && c.left > 0.0 {
      var used := Min(l.remaining, c.left);
      RestorePrefix(layers, c.rows, l.(remaining := l.remaining - used), c.allocations);
      RestoreFrom(layers, c.rows, l, c.allocations, used);
    } else {
      RestorePrefix(layers, c.rows, l, c.allocations);
    }
  }

  lemma RestoreFrom(layers: seq<LayerRow>, rows: seq<LayerRow>, l: LayerRow, allocations: seq<Alloc>, used: real)
    requires |rows| == |layers| == l.id
    requires RestoreRows(rows + [l.(remaining := l.remaining - used)], allocations) == layers + [l.(remaining := l.remaining - used)]
    ensures RestoreRows(rows + [l.(remaining := l.remaining - used)], allocations + [Lot(used, TagOf(l))]) == layers + [l]
  {
    var all := allocations + [Lot(used, TagOf(l))];
    assert all[..|all| - 1] == allocations;
  }

  lemma ConsumeQueue(layers: seq<LayerRow>, loc: Loc, q: real)
    requires NonNegative(layers) && q >= 0.0
    ensures NonNegative(Consume(layers, loc, q).rows) && View(Consume(layers, loc, q).rows, loc) == Drop(View(layers, loc), q)
    ensures Consume(layers, loc, q).allocations == Take(View(layers, loc), q)
  {
    ConsumeMeaning(layers, loc, q);
  }

  /** One layer under two issues, a still wanting x and q wanting y of it, and under one that wants both. */
  lemma LayerTwice(l: LayerRow, x: real, y: real)
    requires l.remaining >= 0.0 && x >= 0.0 && y >= 0.0
    ensures var u := Min(l.remaining, x);
            Min(l.remaining, x + y) == u + Min(l.remaining - u, y)
  {
  }

  /** Issuing a and then q leaves every row as issuing a + q does. */
  lemma {:induction false} ConsumeTwice(layers: seq<LayerRow>, loc: Loc, a: real, q: real)
    requires NonNegative(layers) && a >= 0.0 && q >= 0.0
    ensures var first := Consume(layers, loc, a);
            var second, once := Consume(first.rows, loc, q), Consume(layers, loc, a + q);
            && second.rows == once.rows && first.left >= 0.0 && second.left >= 0.0
            && once.left == first.left + second.left && (first.left > 0.0 ==> second.left == q)
  {
    if layers != [] {
      var front, l := layers[..|layers| - 1], layers[|layers| - 1];
      ConsumeTwice(front, loc, a, q);
      var first, rows := Consume(front, loc, a), Consume(layers, loc, a).rows;
      assert rows[..|front|] == first.rows;
      LayerTwice(l, first.left, Consume(first.rows, loc, q).left);
    }
  }

  function IssueTotal(layers: seq<LayerRow>, loc: Loc, q: real): real { Value(Consume(layers, loc, q).allocations, TagCost()) }

  /** Issuing a and then q leaves the same layers as issuing a + q, at the same total cost. */
  lemma IssuesCompose(layers: seq<LayerRow>, loc: Loc, a: real, q: real)
    requires NonNegative(layers) && a >= 0.0 && q >= 0.0
    ensures var rows := Consume(layers, loc, a).rows;
            && Consume(rows, loc, q).rows == Consume(layers, loc, a + q).rows
            && IssueTotal(layers, loc, a) + IssueTotal(rows, loc, q) == IssueTotal(layers, loc, a + q)
  {
    var rows := Consume(layers, loc, a).rows;
    ConsumeTwice(layers, loc, a, q);
    IssueTotalIs(layers, rows, loc, a);
    IssueTotalIs(rows, Consume(rows, loc, q).rows, loc, q);
    IssueTotalIs(layers, Consume(layers, loc, a + q).rows, loc, a + q);
  }

  lemma IssueTotalIs(layers: seq<LayerRow>, rows: seq<LayerRow>, loc: Loc, q: real)
    requires rows == Consume(layers, loc, q).rows
    ensures IssueTotal(layers, loc, q) == SumBy(layers, Worth()) - SumBy(rows, Worth())
  {
    ConsumeWorth(layers, loc, q);
  }

  /**
    The queue an issue leaves is forced: any way of using q units in which a layer is touched only when
    all earlier ones are exhausted leaves exactly those layers.
  */
  lemma IssueIsForced(layers: seq<LayerRow>, loc: Loc, q: real, used: seq<real>)
    requires NonNegative(layers) && FifoUse(View(layers, loc), used, q)
    ensures View(Consume(layers, loc, q).rows, loc) == Remaining(View(layers, loc), used)
  {
    FifoUnderflow(View(layers, loc), used, q);
    ConsumeQueue(layers, loc, q);
    FifoUnique(View(layers, loc), used, q);
  }
}
