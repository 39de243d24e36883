/**
  Replaying the movement log of a location with no outstanding reservation always reconciles, and
  rebuilds exactly the live FIFO layers if and only if nothing that was on hand at the latest
  release of a reservation is still there.
*/
module ReplayTheorem {
  import opened Fifo
  import opened InventoryLedger
  import opened LedgerInvariants
  import opened LedgerSteps
  import opened LedgerRuns
  import opened HistoricalFifo
  import opened ReplayCore

  /** The movements a replay of one location reads: active reservations are left out. */
  function HistoryOf(log: seq<Movement>, loc: Loc): seq<Movement>
  {
    if log == [] then []
    else
      var m := log[|log| - 1];
      HistoryOf(log[..|log| - 1], loc) + (if m.loc == loc && !IsActive(m) then [m] else [])
  }

  // ------------------------------------------------------------------ loops of the replay

  lemma OpenOnlySnoc(layers: seq<HistLayer>, l: HistLayer)
    ensures OpenOnly(layers + [l]) == OpenOnly(layers) + if l.qty > 0.0 then [l] else []
  {
    assert (layers + [l])[..|layers|] == layers;
  }

  lemma {:induction false} OpenOnlyConcat(xs: seq<HistLayer>, ys: seq<HistLayer>)
    requires Positive(ys)
    ensures OpenOnly(xs + ys) == OpenOnly(xs) + ys
  {
    if ys == [] {
      assert xs + ys == xs;
    } else {
      var front, last := ys[..|ys| - 1], ys[|ys| - 1];
      assert ys == front + [last];
      calc {
        OpenOnly(xs + ys);
      ==  { AppendAssociates(xs, front, last); }
        OpenOnly((xs + front) + [last]);
      ==  { OpenOnlySnoc(xs + front, last); }
        OpenOnly(xs + front) + [last];
      ==  { OpenOnlyConcat(xs, front); }
        (OpenOnly(xs) + front) + [last];
      ==  { AppendAssociates(OpenOnly(xs), front, last); }
        OpenOnly(xs) + ys;
      }
    }
  }

  lemma AppendAssociates(xs: seq<HistLayer>, ys: seq<HistLayer>, y: HistLayer)
    ensures xs + (ys + [y]) == (xs + ys) + [y]
  {
  }

  lemma UseLot(v: seq<HistLayer>, x: HistLayer, q: real)
    requires Positive(v) && x.qty > 0.0 && q >= 0.0
    ensures var left := q - Min(q, Sum(v));
            if left > 0.0 then
              && Drop(v + [x], q) == (if x.qty <= left then [] else [Lot(x.qty - left, x.tag)])
              && Drop(v, q) == []
              && q - Min(q, Sum(v + [x])) == left - Min(x.qty, left)
            else Drop(v + [x], q) == Drop(v, q) + [x] && Min(q, Sum(v + [x])) == q
  {
    SumPositive(v);
    DropConcat(v, [x], q);
    SumSnoc(v, x);
    assert [x][1..] == [];
    if q >= Sum(v) {
      TakeAll(v, q);
    }
  }

  /** What is open after one more layer has been visited. */
  lemma UseOne(v: seq<HistLayer>, open: seq<HistLayer>, l: HistLayer, q: real, left: real)
    requires Positive(v) && l.qty >= 0.0 && q >= 0.0 && left == q - Min(q, Sum(v)) && open == Drop(v, q)
    ensures var after := if left <= 0.0 then l else Lot(l.qty - Min(l.qty, left), l.tag);
            var more := v + if l.qty > 0.0 then [l] else [];
            && open + (if after.qty > 0.0 then [after] else []) == Drop(more, q)
            && (if left <= 0.0 then left else left - Min(l.qty, left)) == q - Min(q, Sum(more))
  {
    if l.qty > 0.0 {
      UseLot(v, l, q);
    } else {
      assert v + [] == v && open + [] == open;
    }
  }

  /** Consuming from a list that still shows exhausted layers is consuming from the open ones. */
  lemma {:induction false} UseMeaning(layers: seq<HistLayer>, q: real)
    requires NonNegativeLots(layers) && q >= 0.0
    ensures var u := Use(layers, q);
            && OpenOnly(u.layers) == Drop(OpenOnly(layers), q)
            && u.left == q - Min(q, Sum(OpenOnly(layers)))
  {
    if layers != [] {
      var n := |layers| - 1;
      UseMeaning(layers[..n], q);
      var u0, u := Use(layers[..n], q), Use(layers, q);
      assert u.layers == u0.layers + [u.layers[n]];
      OpenOnlySnoc(u0.layers, u.layers[n]);
      UseOne(OpenOnly(layers[..n]), OpenOnly(u0.layers), layers[n], q, u0.left);
    }
  }

  // ------------------------------------------------------------------ one movement

  /** The cost records explain the layers of every incoming movement, and none is found for a release. */
  predicate RecordsMatch(log: seq<Movement>, layers: seq<LayerRow>, loc: Loc, records: CostRecords)
  {
    forall i :: 0 <= i < |log| && log[i].loc == loc && Delta(log[i]) > 0.0 ==>
      Matches(log[i], layers, records)
  }

  predicate Matches(m: Movement, layers: seq<LayerRow>, records: CostRecords)
  {
    if m.ref.ReservationRelease? then CostParts(m, records) == []
    else
      var c := Cover(CostParts(m, records), Delta(m), m.id);
      c.layers == RowsOf(layers, m.id) && c.covered == Delta(m)
  }

  /** The replay so far: reconciled, at the right quantity, with exactly the replayed queue open. */
  predicate At(r: Replay, quantity: real, queue: seq<HistLayer>)
  {
    r.reconciled && r.ledger == quantity && NonNegativeLots(r.layers) && OpenOnly(r.layers) == queue
  }

  lemma IncomingIsBrought(rebuilt: seq<HistLayer>, m: Movement, layers: seq<LayerRow>, records: CostRecords)
    requires Delta(m) > 0.0 && Matches(m, layers, records)
    ensures Incoming(rebuilt, m, Delta(m), records) == rebuilt + Brought(layers, m)
  {
    var delta := Delta(m);
    if m.ref.ReservationRelease? {
      assert PutBack(rebuilt, [], delta) == Covering(rebuilt, 0.0, false);
      assert delta - 0.0 == delta;
    } else {
      assert Rest(delta, delta, m.id) == [];
      assert rebuilt + RowsOf(layers, m.id) + [] == rebuilt + RowsOf(layers, m.id);
    }
  }

  predicate Fits(r: Replay, m: Movement, queue: seq<HistLayer>)
  {
    && m.before.Some? && m.after.Some? && m.after.value >= 0.0
    && At(r, m.before.value, queue) && Positive(queue) && Sum(queue) == m.before.value
  }

  lemma VisitIncoming(r: Replay, m: Movement, queue: seq<HistLayer>, layers: seq<LayerRow>, records: CostRecords)
    requires Fits(r, m, queue) && Delta(m) > 0.0 && Matches(m, layers, records) && Positive(Brought(layers, m))
    ensures At(Visit(r, m, records), m.after.value, queue + Brought(layers, m))
  {
    assert Abs(r.ledger - m.before.value) == 0.0 && Abs(r.ledger + Delta(m) - m.after.value) == 0.0;
    IncomingIsBrought(r.layers, m, layers, records);
    OpenOnlyConcat(r.layers, Brought(layers, m));
  }

  lemma VisitOutgoing(r: Replay, m: Movement, queue: seq<HistLayer>, records: CostRecords)
    requires Fits(r, m, queue) && Delta(m) <= 0.0
    ensures At(Visit(r, m, records), m.after.value, Drop(queue, -Delta(m)))
  {
    assert Abs(r.ledger - m.before.value) == 0.0 && Abs(r.ledger + Delta(m) - m.after.value) == 0.0;
    if Delta(m) < 0.0 {
      UsedAt(r.layers, queue, -Delta(m));
    } else {
      DropNothing(queue, 0.0);
    }
  }

  lemma UsedAt(layers: seq<HistLayer>, queue: seq<HistLayer>, q: real)
    requires NonNegativeLots(layers) && OpenOnly(layers) == queue && 0.0 <= q <= Sum(queue)
    ensures var u := Use(layers, q); u.left <= 0.0 && NonNegativeLots(u.layers) && OpenOnly(u.layers) == Drop(queue, q)
  {
    UseMeaning(layers, q);
    UseTotal(layers, q);
  }

  lemma {:induction false} HistoryPrefix(log: seq<Movement>, loc: Loc, n: nat)
    requires n <= |log|
    ensures |HistoryOf(log[..n], loc)| <= |HistoryOf(log, loc)|
    ensures HistoryOf(log[..n], loc) == HistoryOf(log, loc)[..|HistoryOf(log[..n], loc)|]
    decreases |log| - n
  {
    if n < |log| {
      HistoryPrefix(log, loc, n + 1);
      assert log[..n + 1][..n] == log[..n];
    } else {
      assert log[..n] == log;
    }
  }

  lemma {:induction false} HistoryFirst(log: seq<Movement>, loc: Loc)
    requires LogOk(log) && Chained(map[], log) && HistoryOf(log, loc) != []
    requires NoneActive(log, loc)
    ensures HistoryOf(log, loc)[0].before == Some(0.0)
  {
    var n := |log| - 1;
    var prev := HistoryOf(log[..n], loc);
    ChainedPrefix(map[], log, n);
    assert ChainedAt(map[], log, n);
    if prev == [] {
      NoHistory(log[..n], loc);
    } else {
      HistoryFirst(log[..n], loc);
    }
  }

  lemma {:induction false} NoHistory(log: seq<Movement>, loc: Loc)
    requires HistoryOf(log, loc) == []
    requires NoneActive(log, loc)
    ensures Balance(map[], log, loc) == 0.0
  {
    if log != [] {
      NoHistory(log[..|log| - 1], loc);
    }
  }

  lemma WalkStart(movements: seq<Movement>, records: CostRecords)
    requires movements == [] || movements[0].before == Some(0.0)
    ensures At(Walk(movements, 0, records), 0.0, [])
  {
  }

  lemma OneMore(log: seq<Movement>, layers: seq<LayerRow>, loc: Loc, n: nat)
    requires LogOk(log) && Chained(map[], log) && n < |log| && log[n].loc == loc
    ensures MovementOk(log[n], n) && log[n].before == Some(Balance(map[], log[..n], loc))
    ensures Balance(map[], log[..n + 1], loc) == log[n].after.value
    ensures Core(log[..n + 1], layers, loc) ==
            if Delta(log[n]) > 0.0 then Core(log[..n], layers, loc) + Brought(layers, log[n])
            else Drop(Core(log[..n], layers, loc), -Delta(log[n]))
  {
    assert log[..n + 1] == log[..n] + [log[n]];
    assert MovementOk(log[n], n) && ChainedAt(map[], log, n);
    CoreSnoc(log[..n], log[n], layers, loc);
  }

  lemma QueueFits(log: seq<Movement>, layers: seq<LayerRow>, loc: Loc, n: nat, r: Replay)
    requires LogOk(log) && Chained(map[], log) && RowsGood(log, layers) && n < |log| && log[n].loc == loc
    requires At(r, Balance(map[], log[..n], loc), Core(log[..n], layers, loc))
    ensures Fits(r, log[n], Core(log[..n], layers, loc))
  {
    assert MovementOk(log[n], n) && ChainedAt(map[], log, n);
    PrefixOk(log, layers, n);
    CoreTotal(log[..n], layers, loc);
  }

  lemma WalkOne(log: seq<Movement>, layers: seq<LayerRow>, loc: Loc, records: CostRecords, n: nat, r: Replay)
    requires LogOk(log) && Chained(map[], log) && RowsGood(log, layers) && n < |log|
    requires RecordsMatch(log, layers, loc, records) && log[n].loc == loc
    requires At(r, Balance(map[], log[..n], loc), Core(log[..n], layers, loc))
    ensures At(Visit(r, log[n], records), Balance(map[], log[..n + 1], loc), Core(log[..n + 1], layers, loc))
  {
    QueueFits(log, layers, loc, n, r);
    OneMore(log, layers, loc, n);
    WalkFits(log[n], layers, records, r, Core(log[..n], layers, loc), Core(log[..n + 1], layers, loc), Balance(map[], log[..n + 1], loc));
  }

  lemma WalkFits(m: Movement, layers: seq<LayerRow>, records: CostRecords, r: Replay, queue: seq<HistLayer>, after: seq<HistLayer>, balance: real)
    requires Fits(r, m, queue) && m.after == Some(balance)
    requires Delta(m) > 0.0 ==> Matches(m, layers, records) && Positive(Brought(layers, m))
    requires after == if Delta(m) > 0.0 then queue + Brought(layers, m) else Drop(queue, -Delta(m))
    ensures At(Visit(r, m, records), balance, after)
  {
    VisitBoth(r, m, queue, layers, records);
  }

  lemma VisitBoth(r: Replay, m: Movement, queue: seq<HistLayer>, layers: seq<LayerRow>, records: CostRecords)
    requires Fits(r, m, queue) && (Delta(m) > 0.0 ==> Matches(m, layers, records) && Positive(Brought(layers, m)))
    ensures At(Visit(r, m, records), m.after.value, if Delta(m) > 0.0 then queue + Brought(layers, m) else Drop(queue, -Delta(m)))
  {
    if Delta(m) > 0.0 {
      VisitIncoming(r, m, queue, layers, records);
    } else {
      VisitOutgoing(r, m, queue, records);
    }
  }

  /** Where the replay stands after the movements of the first n entries of the log. */
  ghost predicate StandsAt(log: seq<Movement>, layers: seq<LayerRow>, loc: Loc, records: CostRecords, n: nat)
    requires n <= |log|
  {
    && |HistoryOf(log[..n], loc)| <= |HistoryOf(log, loc)|
    && At(Walk(HistoryOf(log, loc), |HistoryOf(log[..n], loc)|, records), Balance(map[], log[..n], loc), Core(log[..n], layers, loc))
  }

  lemma StandsAtStart(log: seq<Movement>, layers: seq<LayerRow>, loc: Loc, records: CostRecords)
    requires LogOk(log) && Chained(map[], log) && NoneActive(log, loc)
    ensures StandsAt(log, layers, loc, records, 0)
  {
    if HistoryOf(log, loc) != [] { HistoryFirst(log, loc); }
    WalkStart(HistoryOf(log, loc), records);
  }

  /** An entry of the log is the next movement of its own location, and of no other. */
  lemma NextOfHistory(log: seq<Movement>, loc: Loc, n: nat)
    requires n < |log| && NoneActive(log, loc)
    ensures var all, k := HistoryOf(log, loc), |HistoryOf(log[..n], loc)|;
            if log[n].loc == loc then k < |all| && all[k] == log[n] && |HistoryOf(log[..n + 1], loc)| == k + 1
            else |HistoryOf(log[..n + 1], loc)| == k && Balance(map[], log[..n + 1], loc) == Balance(map[], log[..n], loc)
  {
    HistoryPrefix(log, loc, n + 1);
    assert log[..n + 1][..n] == log[..n];
    if log[n].loc == loc {
      var k := |HistoryOf(log[..n], loc)|;
      assert HistoryOf(log[..n + 1], loc) == HistoryOf(log[..n], loc) + [log[n]];
      assert HistoryOf(log, loc)[k] == HistoryOf(log[..n + 1], loc)[k];
    }
  }

  lemma StandsAtNext(log: seq<Movement>, layers: seq<LayerRow>, loc: Loc, records: CostRecords, n: nat)
    requires LogOk(log) && Chained(map[], log) && RowsGood(log, layers) && n < |log|
    requires RecordsMatch(log, layers, loc, records) && NoneActive(log, loc)
    requires StandsAt(log, layers, loc, records, n)
    ensures StandsAt(log, layers, loc, records, n + 1)
  {
    NextOfHistory(log, loc, n);
    if log[n].loc == loc {
      WalkOne(log, layers, loc, records, n, Walk(HistoryOf(log, loc), |HistoryOf(log[..n], loc)|, records));
    } else {
      HistoryPrefix(log, loc, n + 1);
      assert log[..n + 1][..n] == log[..n];
    }
  }

  /** After the movements of any prefix of the log, the replay stands at the replayed queue of that prefix. */
  lemma {:induction false} WalkIsCore(log: seq<Movement>, layers: seq<LayerRow>, loc: Loc, records: CostRecords, n: nat)
    requires LogOk(log) && Chained(map[], log) && RowsGood(log, layers) && n <= |log|
    requires RecordsMatch(log, layers, loc, records) && NoneActive(log, loc)
    ensures StandsAt(log, layers, loc, records, n)
  {
    if n == 0 {
      StandsAtStart(log, layers, loc, records);
    } else {
      WalkIsCore(log, layers, loc, records, n - 1);
      StandsAtNext(log, layers, loc, records, n - 1);
    }
  }

  /** What the replay should find: the live layers, nothing uncosted. */
  predicate Rebuilds(f: FifoBalance, layers: seq<LayerRow>, loc: Loc)
  {
    f.reconciled && f.openingCost == 0.0 && f.layers == HistView(layers, loc)
  }

  lemma {:induction false} HistCosted(ls: seq<Alloc>)
    ensures Value(Retag(ls, Hist()), Uncosted()) == 0.0
  {
    if ls != [] {
      assert Retag(ls, Hist())[1..] == Retag(ls[1..], Hist());
      HistCosted(ls[1..]);
    }
  }

  predicate NoneActive(log: seq<Movement>, loc: Loc)
  {
    forall i :: 0 <= i < |log| && log[i].loc == loc ==> !IsActive(log[i])
  }

  lemma LiveQueue(b: Books, loc: Loc)
    requires QueueOk(b, loc) && NoneActive(b.log, loc)
    ensures Alike(HistView(b.layers, loc), Core(b.log, b.layers, loc), Owed(b.log, loc))
  {
    SumByZero(b.log, ActiveAt(loc));
    DropNothing(HistView(b.layers, loc), 0.0);
  }

  lemma Finish(movements: seq<Movement>, current: real, queue: seq<HistLayer>, records: CostRecords)
    requires At(Walk(movements, |movements|, records), current, queue) && current >= 0.0
    requires movements == [] ==> current == 0.0 && queue == []
    ensures Reconstruct(movements, current, records) == FifoBalance(queue, Value(queue, Uncosted()), true)
  {
    assert Abs(current - current) == 0.0;
  }

  lemma ReplayIsCore(b: Books, loc: Loc, records: CostRecords)
    requires Sound(b) && b.opening == map[] && RowsGood(b.log, b.layers) && NoneActive(b.log, loc) && RecordsMatch(b.log, b.layers, loc, records)
    ensures var queue := Core(b.log, b.layers, loc);
            Reconstruct(HistoryOf(b.log, loc), OnHand(b, loc), records) == FifoBalance(queue, Value(queue, Uncosted()), true)
  {
    var movements := HistoryOf(b.log, loc);
    WalkIsCore(b.log, b.layers, loc, records, |b.log|);
    assert b.log[..|b.log|] == b.log;
    assert OnHand(b, loc) >= 0.0 && OnHand(b, loc) == Balance(b.opening, b.log, loc);
    if movements == [] {
      NoHistory(b.log, loc);
      assert At(Walk([], 0, records), 0.0, Core(b.log, b.layers, loc));
    }
    Finish(movements, OnHand(b, loc), Core(b.log, b.layers, loc), records);
  }

  lemma ReplayIsLive(b: Books, loc: Loc, records: CostRecords)
    requires Sound(b) && Replayable(b) && loc.item in b.configured
    requires NoneActive(b.log, loc) && RecordsMatch(b.log, b.layers, loc, records)
    ensures var f := Reconstruct(HistoryOf(b.log, loc), OnHand(b, loc), records);
            && f.reconciled
            && (Rebuilds(f, b.layers, loc) <==> Owed(b.log, loc) == 0.0)
            && (Owed(b.log, loc) > 0.0 <==> f.openingCost > 0.0)
  {
    ReplayIsCore(b, loc, records);
    assert QueueOk(b, loc);
    LiveQueue(b, loc);
    HistCosted(View(b.layers, loc));
    HistViewPositive(b.layers, loc);
    CoreTotal(b.log, b.layers, loc);
    AlikeMeaning(HistView(b.layers, loc), Core(b.log, b.layers, loc), Owed(b.log, loc));
  }
}
