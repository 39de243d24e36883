/**
  How the live FIFO layers relate to a plain replay of every quantity change in the log.

  Releasing a reservation puts its units back at the front of the live queue, where they never left,
  but at the back of the replayed one, without a cost.  From then on the two queues differ in the
  units that were on hand at the release and have not been issued since, and in nothing else.
*/
module ReplayCore {
  import opened Fifo
  import opened InventoryLedger
  import opened LedgerInvariants
  import opened LedgerSteps
  import opened LedgerRuns
  import opened HistoricalFifo

  function Hist(): CostTag -> HistTag { (t: CostTag) => HistTag(t.source, Some(t.unitCost)) }

  function HistView(layers: seq<LayerRow>, loc: Loc): seq<HistLayer> { Retag(View(layers, loc), Hist()) }

  /** The layers a movement brought in, in their original quantity. */
  function RowsOf(layers: seq<LayerRow>, id: nat): seq<HistLayer>
  {
    if layers == [] then []
    else
      var l := layers[|layers| - 1];
      RowsOf(layers[..|layers| - 1], id) +
      (if l.source == Some(id) then [Lot(l.received, HistTag(Some(id), Some(l.unitCost)))] else [])
  }

  /** What a replay adds for an incoming movement: its own layers, or one uncosted layer for a release. */
  function Brought(layers: seq<LayerRow>, m: Movement): seq<HistLayer>
  {
    if !m.ref.ReservationRelease? then RowsOf(layers, m.id)
    else if Delta(m) > 0.0 then [Lot(Delta(m), HistTag(Some(m.id), None))]
    else []
  }

  /** Replaying quantity changes only: bring in, take from the front. */
  function Core(log: seq<Movement>, layers: seq<LayerRow>, loc: Loc): seq<HistLayer>
  {
    if log == [] then []
    else
      var m := log[|log| - 1];
      var prev := Core(log[..|log| - 1], layers, loc);
      if m.loc != loc then prev
      else if Delta(m) > 0.0 then prev + Brought(layers, m)
      else Drop(prev, -Delta(m))
  }

  function ActiveQuantity(b: Books, loc: Loc): real { SumBy(b.log, ActiveAt(loc)) }

  /** Stock that was on hand at the location's latest release and has not been issued since. */
  function Owed(log: seq<Movement>, loc: Loc): (r: real)
    ensures r >= 0.0
  {
    if log == [] then 0.0
    else
      var m := log[|log| - 1];
      var prev := Owed(log[..|log| - 1], loc);
      if m.loc != loc then prev
      else if m.ref.ReservationRelease? then (if m.after.Some? && m.after.value >= 0.0 then m.after.value else 0.0)
      else if Delta(m) > 0.0 then prev
      else Less(prev, -Delta(m))
  }

  function Less(owed: real, q: real): real { if owed <= q then 0.0 else owed - q }

  /** Every movement's rows add up to what it brought in. */
  predicate RowsGood(log: seq<Movement>, layers: seq<LayerRow>)
  {
    forall i :: 0 <= i < |log| ==>
      Positive(Brought(layers, log[i])) && Sum(Brought(layers, log[i])) == (if Delta(log[i]) > 0.0 then Delta(log[i]) else 0.0)
  }

  /** The queues agree behind their first `owed` units, and the last of those units is uncosted in the replay. */
  predicate Meets(live: seq<HistLayer>, replay: seq<HistLayer>, n: nat, k: nat, owed: real)
  {
    && n <= |live| && k <= |replay| && live[n..] == replay[k..]
    && Sum(live[..n]) == owed && Sum(replay[..k]) == owed
    && (k > 0 ==> replay[k - 1].tag.unitCost.None?)
  }

  ghost predicate Alike(live: seq<HistLayer>, replay: seq<HistLayer>, owed: real)
  {
    exists n: nat, k: nat :: Meets(live, replay, n, k, owed)
  }

  /** The live queue of a location, less what active reservations will take. */
  function FreeQueue(b: Books, loc: Loc): seq<HistLayer> { Drop(HistView(b.layers, loc), ActiveQuantity(b, loc)) }

  ghost predicate QueueOk(b: Books, loc: Loc)
  {
    Alike(FreeQueue(b, loc), Core(b.log, b.layers, loc), Owed(b.log, loc))
  }

  ghost predicate LiveIsCore(b: Books)
  {
    forall loc: Loc :: loc.item in b.configured ==> QueueOk(b, loc)
  }

  ghost predicate Replayable(b: Books)
  {
    b.opening == map[] && RowsGood(b.log, b.layers) && LiveIsCore(b)
  }

  lemma EmptyReplayable(configured: set<nat>)
    ensures Replayable(Empty(configured))
  {
    AlikeSame([]);
  }

  // ------------------------------------------------------------------ frames

  lemma {:induction false} RowsOfSame(xs: seq<LayerRow>, ys: seq<LayerRow>, id: nat)
    requires SameRows(xs, ys)
    ensures RowsOf(ys, id) == RowsOf(xs, id)
  {
    if xs != [] {
      RowsOfSame(xs[..|xs| - 1], ys[..|ys| - 1], id);
    }
  }

  lemma {:induction false} RowsOfConcat(xs: seq<LayerRow>, ys: seq<LayerRow>, id: nat)
    ensures RowsOf(xs + ys, id) == RowsOf(xs, id) + RowsOf(ys, id)
  {
    if ys == [] {
      assert xs + ys == xs;
    } else {
      var n := |ys| - 1;
      assert (xs + ys)[..|xs + ys| - 1] == xs + ys[..n];
      RowsOfConcat(xs, ys[..n], id);
    }
  }

  lemma {:induction false} RowsOfNone(layers: seq<LayerRow>, id: nat)
    requires forall i :: 0 <= i < |layers| ==> layers[i].source != Some(id)
    ensures RowsOf(layers, id) == []
  {
    if layers != [] {
      RowsOfNone(layers[..|layers| - 1], id);
    }
  }

  function HistParts(parts: seq<Lot<real>>, id: nat): seq<HistLayer>
  {
    Retag(parts, (c: real) => HistTag(Some(id), Some(c)))
  }

  lemma {:induction false} NewRowsHist(base: nat, loc: Loc, id: nat, parts: seq<Lot<real>>)
    requires Positive(parts)
    ensures RowsOf(NewRows(base, loc, id, parts), id) == HistParts(parts, id)
    ensures HistView(NewRows(base, loc, id, parts), loc) == HistParts(parts, id)
    ensures forall l :: l != loc ==> View(NewRows(base, loc, id, parts), l) == []
  {
    if parts != [] {
      var n := |parts| - 1;
      var rows := NewRows(base, loc, id, parts);
      NewRowsHist(base, loc, id, parts[..n]);
      assert rows[..n] == NewRows(base, loc, id, parts[..n]);
      assert HistParts(parts, id) == HistParts(parts[..n], id) + [Lot(parts[n].qty, HistTag(Some(id), Some(parts[n].tag)))];
      var x := Lot(parts[n].qty, TagOf(rows[n]));
      assert View(rows, loc) == View(rows[..n], loc) + [x];
      assert Retag(View(rows[..n], loc) + [x], Hist()) == HistView(rows[..n], loc) + [Lot(x.qty, Hist()(x.tag))];
    }
  }

  lemma {:induction false} CoreLayers(log: seq<Movement>, xs: seq<LayerRow>, ys: seq<LayerRow>, loc: Loc)
    requires forall i :: 0 <= i < |log| ==> RowsOf(ys, log[i].id) == RowsOf(xs, log[i].id)
    ensures Core(log, ys, loc) == Core(log, xs, loc)
  {
    if log != [] {
      CoreLayers(log[..|log| - 1], xs, ys, loc);
    }
  }

  lemma {:induction false} CoreUpdate(log: seq<Movement>, i: nat, m: Movement, layers: seq<LayerRow>, loc: Loc)
    requires i < |log| && m.id == log[i].id && m.loc == log[i].loc && Delta(m) == Delta(log[i])
    requires !m.ref.ReservationRelease? && !log[i].ref.ReservationRelease?
    ensures Core(log[i := m], layers, loc) == Core(log, layers, loc)
    ensures Owed(log[i := m], loc) == Owed(log, loc)
  {
    var n := |log| - 1;
    if i == n {
      assert log[i := m][..n] == log[..n];
    } else {
      assert log[i := m][..n] == log[..n][i := m];
      CoreUpdate(log[..n], i, m, layers, loc);
    }
  }

  lemma CoreSnoc(log: seq<Movement>, m: Movement, layers: seq<LayerRow>, loc: Loc)
    ensures Core(log + [m], layers, loc) ==
            if m.loc != loc then Core(log, layers, loc)
            else if Delta(m) > 0.0 then Core(log, layers, loc) + Brought(layers, m)
            else Drop(Core(log, layers, loc), -Delta(m))
    ensures !m.ref.ReservationRelease? ==>
              Owed(log + [m], loc) == if m.loc != loc || Delta(m) > 0.0 then Owed(log, loc) else Less(Owed(log, loc), -Delta(m))
  {
    assert (log + [m])[..|log|] == log;
  }

  // ------------------------------------------------------------------ algebra of the queue

  lemma HistViewPositive(layers: seq<LayerRow>, loc: Loc)
    ensures Positive(HistView(layers, loc)) && Sum(HistView(layers, loc)) == Sum(View(layers, loc))
  {
    RetagSum(View(layers, loc));
  }

  lemma {:induction false} RetagSum(ls: seq<Alloc>)
    ensures Sum(Retag(ls, Hist())) == Sum(ls)
  {
    if ls != [] {
      assert Retag(ls, Hist())[1..] == Retag(ls[1..], Hist());
      RetagSum(ls[1..]);
    }
  }

  /** Taking q first or taking the reserved quantity first leaves the same queue. */
  lemma DropSwap(v: seq<HistLayer>, a: real, q: real)
    requires Positive(v) && a >= 0.0 && q >= 0.0
    ensures Drop(Drop(v, q), a) == Drop(Drop(v, a), q)
  {
    DropDrop(v, q, a);
    DropDrop(v, a, q);
    assert a + q == q + a;
  }

  lemma ActiveNonNegative(b: Books, loc: Loc)
    requires LogOk(b.log)
    ensures ActiveQuantity(b, loc) >= 0.0
    ensures forall i :: 0 <= i < |b.log| && IsActive(b.log[i]) && b.log[i].loc == loc ==> b.log[i].quantity <= ActiveQuantity(b, loc)
  {
    forall k | 0 <= k < |b.log| ensures ActiveAt(loc)(b.log[k]) >= 0.0 {
      assert MovementOk(b.log[k], k);
    }
    SumByNonNegative(b.log, ActiveAt(loc));
    forall i | 0 <= i < |b.log| && IsActive(b.log[i]) && b.log[i].loc == loc ensures b.log[i].quantity <= ActiveQuantity(b, loc) {
      assert ActiveAt(loc)(b.log[i]) == b.log[i].quantity;
    }
  }

  /** After consuming, the live queue of the location is shorter by q and the others are unchanged. */
  lemma ConsumeHist(layers: seq<LayerRow>, loc: Loc, q: real, l: Loc)
    requires NonNegative(layers) && q >= 0.0
    ensures HistView(Consume(layers, loc, q).rows, l) ==
            if l == loc then Drop(HistView(layers, loc), q) else HistView(layers, l)
  {
    if l == loc {
      ConsumeMeaning(layers, loc, q);
      DropRetag(View(layers, loc), q, Hist());
    } else {
      ConsumeElsewhere(layers, loc, q, l);
    }
  }

  // ------------------------------------------------------------------ the replayed queue

  lemma PrefixOk(log: seq<Movement>, layers: seq<LayerRow>, n: nat)
    requires LogOk(log) && Chained(map[], log) && RowsGood(log, layers) && n <= |log|
    ensures LogOk(log[..n]) && Chained(map[], log[..n]) && RowsGood(log[..n], layers)
  {
    ChainedPrefix(map[], log, n);
  }

  /** The replayed queue holds what the log says is on hand, so it never runs dry. */
  lemma {:induction false} CoreTotal(log: seq<Movement>, layers: seq<LayerRow>, loc: Loc)
    requires LogOk(log) && Chained(map[], log) && RowsGood(log, layers)
    ensures Positive(Core(log, layers, loc)) && Sum(Core(log, layers, loc)) == Balance(map[], log, loc)
  {
    if log != [] {
      var n := |log| - 1;
      var m := log[n];
      PrefixOk(log, layers, n);
      CoreTotal(log[..n], layers, loc);
      if m.loc == loc {
        var prev := Core(log[..n], layers, loc);
        assert MovementOk(m, n) && ChainedAt(map[], log, n);
        if Delta(m) > 0.0 {
          SumConcat(prev, Brought(layers, m));
        } else {
          SplitQuantity(prev, -Delta(m));
        }
      }
    }
  }

  // ------------------------------------------------------------------ queues that meet again

  lemma AlikeAppend(live: seq<HistLayer>, replay: seq<HistLayer>, owed: real, more: seq<HistLayer>)
    requires Alike(live, replay, owed)
    ensures Alike(live + more, replay + more, owed)
  {
    var n: nat, k: nat :| Meets(live, replay, n, k, owed);
    SplitMore(live, more, n);
    SplitMore(replay, more, k);
    assert k > 0 ==> (replay + more)[k - 1] == replay[k - 1];
    assert Meets(live + more, replay + more, n, k, owed);
  }

  lemma SplitMore(queue: seq<HistLayer>, more: seq<HistLayer>, n: nat)
    requires n <= |queue|
    ensures (queue + more)[..n] == queue[..n] && (queue + more)[n..] == queue[n..] + more
  {
  }

  lemma {:induction false} DropLast(ls: seq<HistLayer>, q: real)
    ensures Drop(ls, q) != [] ==> ls != [] && Drop(ls, q)[|Drop(ls, q)| - 1].tag == ls[|ls| - 1].tag
  {
    if ls != [] && q > 0.0 && ls[0].qty <= q {
      DropLast(ls[1..], q - ls[0].qty);
    }
  }

  lemma AlikeJoin(l0: seq<HistLayer>, r0: seq<HistLayer>, rest: seq<HistLayer>, owed: real)
    requires Sum(l0) == owed == Sum(r0) && (r0 != [] ==> r0[|r0| - 1].tag.unitCost.None?)
    ensures Alike(l0 + rest, r0 + rest, owed)
  {
    assert (l0 + rest)[..|l0|] == l0 && (l0 + rest)[|l0|..] == rest;
    assert (r0 + rest)[..|r0|] == r0 && (r0 + rest)[|r0|..] == rest;
    assert Meets(l0 + rest, r0 + rest, |l0|, |r0|, owed);
  }

  /** Issuing more than a queue's front holds. */
  lemma DropFront(front: seq<HistLayer>, rest: seq<HistLayer>, q: real)
    requires Positive(front) && Positive(rest) && q >= Sum(front)
    ensures Drop(front + rest, q) == Drop(rest, q - Sum(front))
  {
    DropConcat(front, rest, q);
    if q == Sum(front) {
      TakeAll(front, q);
      DropNothing(rest, 0.0);
      assert [] + rest == rest;
    }
  }

  lemma JoinedDropShort(l0: seq<HistLayer>, r0: seq<HistLayer>, rest: seq<HistLayer>, owed: real, q: real)
    requires Sum(l0) == owed == Sum(r0) && (r0 != [] ==> r0[|r0| - 1].tag.unitCost.None?)
    requires Positive(l0) && Positive(r0) && Positive(rest) && 0.0 <= q < owed
    ensures Alike(Drop(l0 + rest, q), Drop(r0 + rest, q), owed - q)
  {
    assert Drop(l0 + rest, q) == Drop(l0, q) + rest && Sum(Drop(l0, q)) == owed - q by {
      DropConcat(l0, rest, q);
      SplitQuantity(l0, q);
    }
    assert Drop(r0 + rest, q) == Drop(r0, q) + rest && Sum(Drop(r0, q)) == owed - q by {
      DropConcat(r0, rest, q);
      SplitQuantity(r0, q);
    }
    DropLast(r0, q);
    AlikeJoin(Drop(l0, q), Drop(r0, q), rest, owed - q);
  }

  lemma JoinedDrop(l0: seq<HistLayer>, r0: seq<HistLayer>, rest: seq<HistLayer>, owed: real, q: real)
    requires Sum(l0) == owed == Sum(r0) && (r0 != [] ==> r0[|r0| - 1].tag.unitCost.None?)
    requires Positive(l0) && Positive(r0) && Positive(rest) && q >= 0.0
    ensures Alike(Drop(l0 + rest, q), Drop(r0 + rest, q), Less(owed, q))
  {
    if q < owed {
      JoinedDropShort(l0, r0, rest, owed, q);
    } else {
      DropFront(l0, rest, q);
      DropFront(r0, rest, q);
      AlikeSame(Drop(rest, q - owed));
    }
  }

  lemma AlikeParts(live: seq<HistLayer>, replay: seq<HistLayer>, owed: real)
    returns (l0: seq<HistLayer>, r0: seq<HistLayer>, rest: seq<HistLayer>)
    requires Alike(live, replay, owed)
    ensures live == l0 + rest && replay == r0 + rest
    ensures Sum(l0) == owed == Sum(r0) && (r0 != [] ==> r0[|r0| - 1].tag.unitCost.None?)
  {
    var n: nat, k: nat :| Meets(live, replay, n, k, owed);
    l0, r0, rest := live[..n], replay[..k], live[n..];
    Rejoin(live, n);
    Rejoin(replay, k);
    if k > 0 {
      assert r0[k - 1] == replay[k - 1];
    }
  }

  lemma Rejoin(queue: seq<HistLayer>, n: nat)
    requires n <= |queue|
    ensures queue == queue[..n] + queue[n..]
  {
  }

  lemma PositiveParts(front: seq<HistLayer>, rest: seq<HistLayer>)
    requires Positive(front + rest)
    ensures Positive(front) && Positive(rest)
  {
    forall i | 0 <= i < |front| ensures front[i].qty > 0.0 { assert (front + rest)[i] == front[i]; }
    forall i | 0 <= i < |rest| ensures rest[i].qty > 0.0 { assert (front + rest)[|front| + i] == rest[i]; }
  }

  /** The same issue on both queues: the units owed go first. */
  lemma AlikeDrop(live: seq<HistLayer>, replay: seq<HistLayer>, owed: real, q: real)
    requires Alike(live, replay, owed) && Positive(live) && Positive(replay) && q >= 0.0
    ensures Alike(Drop(live, q), Drop(replay, q), Less(owed, q))
  {
    var l0, r0, rest := AlikeParts(live, replay, owed);
    PositiveParts(l0, rest);
    PositiveParts(r0, rest);
    JoinedDrop(l0, r0, rest, owed, q);
  }

  lemma AlikeSame(queue: seq<HistLayer>)
    ensures Alike(queue, queue, 0.0)
  {
    assert queue[..0] == [];
    assert Meets(queue, queue, 0, 0, 0.0);
  }

  /** Nothing owed: the queues are the same.  Something owed: the replayed one holds uncosted units. */
  lemma AlikeMeaning(live: seq<HistLayer>, replay: seq<HistLayer>, owed: real)
    requires Alike(live, replay, owed) && Positive(live) && Positive(replay) && owed >= 0.0
    ensures owed == 0.0 ==> live == replay
    ensures owed > 0.0 ==> Value(replay, Uncosted()) > 0.0
  {
    var n: nat, k: nat :| Meets(live, replay, n, k, owed);
    SumPositive(live[..n]);
    SumPositive(replay[..k]);
    if owed == 0.0 {
      assert live[0..] == live && replay[0..] == replay;
    } else {
      UncostedLot(replay, k - 1);
    }
  }

  lemma {:induction false} UncostedLot(ls: seq<HistLayer>, i: nat)
    requires Positive(ls) && i < |ls| && ls[i].tag.unitCost.None?
    ensures Value(ls, Uncosted()) >= ls[i].qty
  {
    if i == 0 {
      UncostedNonNegative(ls[1..]);
    } else {
      UncostedLot(ls[1..], i - 1);
    }
  }

  lemma {:induction false} UncostedNonNegative(ls: seq<HistLayer>)
    requires Positive(ls)
    ensures Value(ls, Uncosted()) >= 0.0
  {
    if ls != [] {
      UncostedNonNegative(ls[1..]);
    }
  }

  // ------------------------------------------------------------------ steps

  lemma CreditView(b: Books, m: Movement, loc: Loc, parts: seq<Lot<real>>, l: Loc)
    requires Positive(parts)
    ensures HistView(b.layers + NewRows(|b.layers|, loc, m.id, parts), l) ==
            HistView(b.layers, l) + if l == loc then HistParts(parts, m.id) else []
  {
    var added := NewRows(|b.layers|, loc, m.id, parts);
    NewRowsHist(|b.layers|, loc, m.id, parts);
    ViewConcat(b.layers, added, l);
    assert HistView(b.layers + added, l) == HistView(b.layers, l) + HistView(added, l);
  }

  lemma CreditFree(b: Books, d: Books, m: Movement, loc: Loc, parts: seq<Lot<real>>, l: Loc)
    requires d.log == b.log + [m] && d.layers == b.layers + NewRows(|b.layers|, loc, m.id, parts)
    requires !IsActive(m) && Positive(parts) && ActiveQuantity(b, l) <= Sum(HistView(b.layers, l))
    ensures FreeQueue(d, l) == FreeQueue(b, l) + if l == loc then HistParts(parts, m.id) else []
  {
    CreditView(b, m, loc, parts, l);
    assert ActiveQuantity(d, l) == ActiveQuantity(b, l) by { SumBySnoc(b.log, m, ActiveAt(l)); }
    assert Positive(HistView(b.layers, l)) by { HistViewPositive(b.layers, l); }
    FreeMore(HistView(b.layers, l), ActiveQuantity(b, l), if l == loc then HistParts(parts, m.id) else []);
  }

  /** Lots added behind the reserved ones are free. */
  lemma FreeMore(queue: seq<HistLayer>, active: real, more: seq<HistLayer>)
    requires Positive(queue) && Positive(more) && active <= Sum(queue)
    ensures Drop(queue + more, active) == Drop(queue, active) + more
  {
    DropConcat(queue, more, active);
  }

  lemma CreditQueue(b: Books, d: Books, m: Movement, loc: Loc, parts: seq<Lot<real>>, l: Loc)
    requires d.log == b.log + [m] && d.layers == b.layers + NewRows(|b.layers|, loc, m.id, parts)
    requires m.loc == loc && !IsActive(m) && !m.ref.ReservationRelease? && Delta(m) > 0.0 && Positive(parts)
    requires RowsOf(d.layers, m.id) == HistParts(parts, m.id)
    requires Core(b.log, d.layers, l) == Core(b.log, b.layers, l)
    requires QueueOk(b, l) && ActiveQuantity(b, l) <= Sum(HistView(b.layers, l))
    ensures QueueOk(d, l)
  {
    CreditFree(b, d, m, loc, parts, l);
    CoreSnoc(b.log, m, d.layers, l);
    if l == loc {
      AlikeAppend(FreeQueue(b, l), Core(b.log, b.layers, l), Owed(b.log, l), HistParts(parts, m.id));
    } else {
      assert FreeQueue(b, l) + [] == FreeQueue(b, l);
    }
  }

  /** Coverage: the active reservations of a configured item fit in its queue. */
  lemma ActiveFits(b: Books, l: Loc)
    requires Sound(b) && l.item in b.configured
    ensures 0.0 <= ActiveQuantity(b, l) <= Sum(HistView(b.layers, l))
  {
    ActiveNonNegative(b, l);
    HistViewPositive(b.layers, l);
    ViewSum(b.layers, l);
    assert OnHand(b, l) >= 0.0;
  }

  lemma CreditRows(b: Books, loc: Loc, parts: seq<Lot<real>>)
    requires Sound(b) && Positive(parts)
    ensures var layers := b.layers + NewRows(|b.layers|, loc, |b.log|, parts);
            && RowsOf(layers, |b.log|) == HistParts(parts, |b.log|)
            && forall i :: 0 <= i < |b.log| ==> b.log[i].id == i && RowsOf(layers, i) == RowsOf(b.layers, i)
  {
    var added := NewRows(|b.layers|, loc, |b.log|, parts);
    NewRowsHist(|b.layers|, loc, |b.log|, parts);
    RowsOfConcat(b.layers, added, |b.log|);
    RowsOfNone(b.layers, |b.log|);
    assert [] + HistParts(parts, |b.log|) == HistParts(parts, |b.log|);
    forall i | 0 <= i < |b.log| ensures b.log[i].id == i && RowsOf(b.layers + added, i) == RowsOf(b.layers, i) {
      assert MovementOk(b.log[i], i);
      RowsOfConcat(b.layers, added, i);
      RowsOfNone(added, i);
      assert RowsOf(b.layers, i) + [] == RowsOf(b.layers, i);
    }
  }

  lemma {:induction false} HistPartsSum(parts: seq<Lot<real>>, id: nat)
    ensures Sum(HistParts(parts, id)) == Sum(parts)
  {
    if parts != [] {
      assert HistParts(parts, id)[1..] == HistParts(parts[1..], id);
      HistPartsSum(parts[1..], id);
    }
  }

  lemma CreditRowsGood(b: Books, d: Books, m: Movement, loc: Loc, parts: seq<Lot<real>>)
    requires Sound(b) && RowsGood(b.log, b.layers) && Positive(parts)
    requires d.log == b.log + [m] && d.layers == b.layers + NewRows(|b.layers|, loc, |b.log|, parts)
    requires Delta(m) == Sum(parts) > 0.0 && m.id == |b.log| && !m.ref.ReservationRelease?
    ensures RowsGood(d.log, d.layers)
  {
    CreditRows(b, loc, parts);
    HistPartsSum(parts, |b.log|);
    forall i | 0 <= i < |d.log|
      ensures Positive(Brought(d.layers, d.log[i])) && Sum(Brought(d.layers, d.log[i])) == (if Delta(d.log[i]) > 0.0 then Delta(d.log[i]) else 0.0)
    {
      if i < |b.log| { assert d.log[i] == b.log[i]; }
    }
  }

  lemma CreditReplayable(b: Books, loc: Loc, q: real, parts: seq<Lot<real>>, cost: Cost, kind: MovementType, ref: Reference)
    requires Sound(b) && Replayable(b) && CanDo(b, Crediting(loc, q, parts, cost, kind, ref))
    ensures Replayable(Credit(b, loc, q, parts, cost, kind, ref))
  {
    var d := Credit(b, loc, q, parts, cost, kind, ref);
    var m := d.log[|b.log|];
    CreditRowsGood(b, d, m, loc, parts);
    forall l: Loc | l.item in d.configured ensures QueueOk(d, l) {
      CreditQueueAt(b, d, m, loc, parts, l);
    }
  }

  lemma CreditQueueAt(b: Books, d: Books, m: Movement, loc: Loc, parts: seq<Lot<real>>, l: Loc)
    requires Sound(b) && QueueOk(b, l) && l.item in b.configured && m.id == |b.log|
    requires d.log == b.log + [m] && d.layers == b.layers + NewRows(|b.layers|, loc, m.id, parts)
    requires m.loc == loc && !IsActive(m) && !m.ref.ReservationRelease? && Delta(m) > 0.0 && Positive(parts)
    ensures QueueOk(d, l)
  {
    CreditRows(b, loc, parts);
    CoreLayers(b.log, b.layers, d.layers, l);
    ActiveFits(b, l);
    CreditQueue(b, d, m, loc, parts, l);
  }

  /** The rows behind a log do not change when quantities are only consumed. */
  lemma ConsumedRows(log: seq<Movement>, log2: seq<Movement>, layers: seq<LayerRow>, layers2: seq<LayerRow>)
    requires RowsGood(log, layers) && SameRows(layers, layers2) && |log| <= |log2|
    requires forall i :: 0 <= i < |log| ==>
               Delta(log2[i]) == Delta(log[i]) && log2[i].id == log[i].id && log[i].ref.ReservationRelease? == log2[i].ref.ReservationRelease?
    requires forall i :: |log| <= i < |log2| ==> log2[i].id == i && (log2[i].ref.ReservationRelease? || Delta(log2[i]) <= 0.0)
    requires forall i :: 0 <= i < |layers| ==> layers[i].source.Some? ==> layers[i].source.value < |log|
    ensures RowsGood(log2, layers2)
    ensures forall id: nat :: RowsOf(layers2, id) == RowsOf(layers, id)
  {
    forall id: nat ensures RowsOf(layers2, id) == RowsOf(layers, id) { RowsOfSame(layers, layers2, id); }
    forall i | 0 <= i < |log2|
      ensures Positive(Brought(layers2, log2[i])) && Sum(Brought(layers2, log2[i])) == (if Delta(log2[i]) > 0.0 then Delta(log2[i]) else 0.0)
    {
      if i >= |log| {
        RowsOfNone(layers, i);
        assert [Lot(Delta(log2[i]), HistTag(Some(log2[i].id), None))][1..] == [];
      } else {
        assert Brought(layers2, log2[i]) == Brought(layers, log[i]);
      }
    }
  }

  lemma DebitQueue(b: Books, d: Books, m: Movement, loc: Loc, q: real, l: Loc)
    requires d.log == b.log + [m] && d.layers == Consume(b.layers, loc, q).rows && NonNegative(b.layers)
    requires m.loc == loc && !IsActive(m) && !m.ref.ReservationRelease? && Delta(m) == -q && q > 0.0
    requires Positive(Core(b.log, b.layers, l))
    requires Core(b.log, d.layers, l) == Core(b.log, b.layers, l)
    requires QueueOk(b, l) && ActiveQuantity(b, l) >= 0.0
    ensures QueueOk(d, l)
  {
    ConsumeHist(b.layers, loc, q, l);
    SumBySnoc(b.log, m, ActiveAt(l));
    CoreSnoc(b.log, m, d.layers, l);
    HistViewPositive(b.layers, l);
    if l == loc {
      DropSwap(HistView(b.layers, l), ActiveQuantity(b, l), q);
      SplitQuantity(HistView(b.layers, l), ActiveQuantity(b, l));
      AlikeDrop(FreeQueue(b, l), Core(b.log, b.layers, l), Owed(b.log, l), q);
    }
  }

  /** An outgoing movement m that consumed q, seen only through what it did to the tables. */
  lemma OutgoingReplayable(b: Books, d: Books, m: Movement, loc: Loc, q: real)
    requires Sound(b) && Replayable(b) && d.opening == b.opening && d.configured == b.configured
    requires d.log == b.log + [m] && d.layers == Consume(b.layers, loc, q).rows
    requires m.id == |b.log| && m.loc == loc && !IsActive(m) && !m.ref.ReservationRelease? && Delta(m) == -q && q > 0.0
    ensures Replayable(d)
  {
    ConsumeRows(b.layers, loc, q);
    assert forall i :: 0 <= i < |b.log| ==> d.log[i] == b.log[i];
    ConsumedRows(b.log, d.log, b.layers, d.layers);
    forall l: Loc | l.item in d.configured ensures QueueOk(d, l) {
      CoreLayers(b.log, b.layers, d.layers, l);
      ActiveNonNegative(b, l);
      CoreTotal(b.log, b.layers, l);
      DebitQueue(b, d, m, loc, q, l);
    }
  }

  lemma DebitReplayable(b: Books, loc: Loc, q: real, recorded: real, kind: MovementType, ref: Reference)
    requires Sound(b) && Replayable(b) && CanDo(b, Debiting(loc, q, recorded, kind, ref))
    ensures Replayable(Do(b, Debiting(loc, q, recorded, kind, ref)))
  {
    var d := Do(b, Debiting(loc, q, recorded, kind, ref));
    OutgoingReplayable(b, d, d.log[|b.log|], loc, q);
  }

  lemma NoteQueue(b: Books, d: Books, m: Movement, l: Loc)
    requires d.log == b.log + [m] && d.layers == b.layers && !IsActive(m) && !m.ref.ReservationRelease? && Delta(m) == 0.0 && QueueOk(b, l)
    ensures QueueOk(d, l)
  {
    assert FreeQueue(d, l) == FreeQueue(b, l) by { SumBySnoc(b.log, m, ActiveAt(l)); }
    SumBySnoc(b.log, m, ActiveAt(l));
    CoreSnoc(b.log, m, d.layers, l);
  }

  lemma NoteReplayable(b: Books, loc: Loc)
    requires Sound(b) && Replayable(b)
    ensures Replayable(Note(b, loc))
  {
    var d := Note(b, loc);
    assert forall i :: 0 <= i < |b.log| ==> d.log[i] == b.log[i];
    ConsumedRows(b.log, d.log, b.layers, d.layers);
    forall l: Loc | l.item in d.configured ensures QueueOk(d, l) {
      NoteQueue(b, d, d.log[|b.log|], l);
    }
  }

  lemma ReserveQueue(b: Books, d: Books, m: Movement, loc: Loc, q: real, l: Loc)
    requires d.log == b.log + [m] && d.layers == b.layers
    requires m.loc == loc && IsActive(m) && m.quantity == q && Delta(m) == -q && q > 0.0
    requires QueueOk(b, l) && ActiveQuantity(b, l) >= 0.0 && Positive(Core(b.log, b.layers, l))
    ensures QueueOk(d, l)
  {
    SumBySnoc(b.log, m, ActiveAt(l));
    CoreSnoc(b.log, m, d.layers, l);
    HistViewPositive(b.layers, l);
    if l == loc {
      DropDrop(HistView(b.layers, l), ActiveQuantity(b, l), q);
      SplitQuantity(HistView(b.layers, l), ActiveQuantity(b, l));
      AlikeDrop(FreeQueue(b, l), Core(b.log, b.layers, l), Owed(b.log, l), q);
    }
  }

  lemma ReserveReplayable(b: Books, order: nat, loc: Loc, q: real)
    requires Sound(b) && Replayable(b) && CanDo(b, Holding(order, loc, q))
    ensures Replayable(ReserveAt(b, order, loc, q))
  {
    var d := ReserveAt(b, order, loc, q);
    assert forall i :: 0 <= i < |b.log| ==> d.log[i] == b.log[i];
    ConsumedRows(b.log, d.log, b.layers, d.layers);
    forall l: Loc | l.item in d.configured ensures QueueOk(d, l) {
      ActiveNonNegative(b, l);
      CoreTotal(b.log, b.layers, l);
      ReserveQueue(b, d, d.log[|b.log|], loc, q, l);
    }
  }

  /** Committing consumes live layers that the reservation had already claimed in the replay. */
  lemma CommitQueue(b: Books, d: Books, i: nat, m: Movement, q: real, l: Loc)
    requires i < |b.log| && d.log == b.log[i := m] && d.layers == Consume(b.layers, m.loc, q).rows && NonNegative(b.layers)
    requires m.id == b.log[i].id && m.loc == b.log[i].loc && Delta(m) == Delta(b.log[i]) && m.ref.Reservation? && !IsActive(m)
    requires IsActive(b.log[i]) && b.log[i].quantity == q > 0.0
    requires Core(b.log, d.layers, l) == Core(b.log, b.layers, l)
    requires QueueOk(b, l) && (l == m.loc ==> q <= ActiveQuantity(b, l))
    ensures QueueOk(d, l)
  {
    ConsumeHist(b.layers, m.loc, q, l);
    CoreUpdate(b.log, i, m, d.layers, l);
    var a := ActiveQuantity(b, l);
    assert ActiveQuantity(d, l) == if l == m.loc then a - q else a by {
      SumByUpdate(b.log, i, m, ActiveAt(l));
    }
    if l == m.loc {
      HistViewPositive(b.layers, l);
      DropRest(HistView(b.layers, l), a, q);
    }
  }

  lemma DropRest(v: seq<HistLayer>, a: real, q: real)
    requires Positive(v) && 0.0 <= q <= a
    ensures Drop(Drop(v, q), a - q) == Drop(v, a)
  {
    DropDrop(v, q, a - q);
    assert q + (a - q) == a;
  }

  lemma CommitQueueAt(b: Books, d: Books, i: nat, l: Loc)
    requires LogOk(b.log) && NonNegative(b.layers) && QueueOk(b, l) && i < |b.log| && IsActive(b.log[i]) && |d.log| == |b.log|
    requires d.log == b.log[i := d.log[i]] && d.layers == Consume(b.layers, b.log[i].loc, b.log[i].quantity).rows
    requires d.log[i].id == b.log[i].id && d.log[i].loc == b.log[i].loc && Delta(d.log[i]) == Delta(b.log[i])
    requires d.log[i].ref.Reservation? && !IsActive(d.log[i])
    requires forall id: nat :: RowsOf(d.layers, id) == RowsOf(b.layers, id)
    ensures QueueOk(d, l)
  {
    assert MovementOk(b.log[i], i);
    CoreLayers(b.log, b.layers, d.layers, l);
    ActiveNonNegative(b, l);
    CommitQueue(b, d, i, d.log[i], b.log[i].quantity, l);
  }

  lemma CommitRows(b: Books, d: Books, i: nat)
    requires LogOk(b.log) && RowsOk(b.layers, |b.log|) && RowsGood(b.log, b.layers) && i < |b.log| && IsActive(b.log[i]) && |d.log| == |b.log|
    requires d.log == b.log[i := d.log[i]] && d.layers == Consume(b.layers, b.log[i].loc, b.log[i].quantity).rows
    requires d.log[i].id == b.log[i].id && Delta(d.log[i]) == Delta(b.log[i]) && d.log[i].ref.Reservation?
    ensures RowsGood(d.log, d.layers) && forall id: nat :: RowsOf(d.layers, id) == RowsOf(b.layers, id)
  {
    ConsumeRows(b.layers, b.log[i].loc, b.log[i].quantity);
    ConsumedRows(b.log, d.log, b.layers, d.layers);
  }

  lemma CommitReplayable(b: Books, i: nat, kind: MovementType)
    requires Sound(b) && Replayable(b) && CanDo(b, Committing(i, kind))
    ensures Replayable(Do(b, Committing(i, kind)))
  {
    var d := Do(b, Committing(i, kind));
    assert MovementOk(b.log[i], i);
    assert d.log == b.log[i := d.log[i]];
    CommitRows(b, d, i);
    forall l: Loc | l.item in d.configured ensures QueueOk(d, l) {
      CommitQueueAt(b, d, i, l);
    }
  }

  /** At the location of a release everything on hand is owed; elsewhere nothing changes. */
  lemma ReleaseQueue(b: Books, d: Books, log: seq<Movement>, m: Movement, q: real, l: Loc)
    requires d.log == log + [m] && d.layers == b.layers
    requires m.ref.ReservationRelease? && Delta(m) == q > 0.0 && m.after == Some(OnHand(b, m.loc) + q)
    requires Core(log, b.layers, l) == Core(b.log, b.layers, l) && Owed(log, l) == Owed(b.log, l)
    requires Positive(Core(b.log, b.layers, l)) && Sum(Core(b.log, b.layers, l)) == OnHand(b, l)
    requires ActiveQuantity(d, l) == ActiveQuantity(b, l) - (if l == m.loc then q else 0.0) && ActiveQuantity(d, l) >= 0.0
    requires Sum(HistView(b.layers, l)) == OnHand(b, l) + ActiveQuantity(b, l)
    requires QueueOk(b, l)
    ensures QueueOk(d, l)
  {
    CoreSnoc(log, m, d.layers, l);
    assert d.log[..|log|] == log;
    if l == m.loc {
      var live, replay := FreeQueue(d, l), Core(d.log, d.layers, l);
      SplitQuantity(HistView(b.layers, l), ActiveQuantity(d, l));
      SumPositive(Core(b.log, b.layers, l));
      SumSnoc(Core(b.log, b.layers, l), Lot(q, HistTag(Some(m.id), None)));
      assert live[..|live|] == live && replay[..|replay|] == replay;
      assert Meets(live, replay, |live|, |replay|, Owed(d.log, l));
    }
  }

  function Let(m: Movement, status: ReservationStatus): Movement
    requires m.ref.Reservation?
  {
    m.(ref := Reservation(m.ref.order, status))
  }

  lemma ReleaseActive(b: Books, d: Books, i: nat, m: Movement, r: Movement, l: Loc)
    requires i < |b.log| && IsActive(b.log[i]) && m.loc == b.log[i].loc && !IsActive(m) && !IsActive(r)
    requires d.log == b.log[i := m] + [r]
    ensures ActiveQuantity(d, l) == ActiveQuantity(b, l) - (if l == m.loc then b.log[i].quantity else 0.0)
  {
    SumByUpdate(b.log, i, m, ActiveAt(l));
    SumBySnoc(b.log[i := m], r, ActiveAt(l));
  }

  predicate Returned(b: Books, d: Books, m: Movement, r: Movement)
  {
    && r.id == |b.log| && r.loc == m.loc && r.ref.ReservationRelease?
    && Delta(r) == m.quantity && m.quantity > 0.0 && r.after == Some(OnHand(b, m.loc) + m.quantity)
    && d.layers == b.layers && d.opening == b.opening && d.configured == b.configured
  }

  lemma ReleaseWrites(b: Books, i: nat, status: ReservationStatus)
    requires LogOk(b.log) && CanDo(b, Releasing(i, status))
    ensures var d := Do(b, Releasing(i, status));
            |d.log| == |b.log| + 1 && d.log == b.log[i := Let(b.log[i], status)] + [d.log[|b.log|]] &&
            Returned(b, d, b.log[i], d.log[|b.log|])
  {
    assert MovementOk(b.log[i], i);
    var d := Do(b, Releasing(i, status));
    assert d == ReleaseOne(b, i, status).value;
  }

  /** What is covered: the replayed queue holds the stock, the live one the stock and the reservations. */
  lemma QueueTotals(b: Books, l: Loc)
    requires Sound(b) && b.opening == map[] && RowsGood(b.log, b.layers) && l.item in b.configured
    ensures Positive(Core(b.log, b.layers, l)) && Sum(Core(b.log, b.layers, l)) == OnHand(b, l)
    ensures Sum(HistView(b.layers, l)) == OnHand(b, l) + ActiveQuantity(b, l)
  {
    CoreTotal(b.log, b.layers, l);
    HistViewPositive(b.layers, l);
    ViewSum(b.layers, l);
    assert OnHand(b, l) >= 0.0 && OnHand(b, l) == Balance(b.opening, b.log, l);
  }

  lemma ReturnQueue(b: Books, d: Books, i: nat, m: Movement, r: Movement, l: Loc)
    requires QueueOk(b, l) && i < |b.log| && IsActive(b.log[i])
    requires Positive(Core(b.log, b.layers, l)) && Sum(Core(b.log, b.layers, l)) == OnHand(b, l)
    requires Sum(HistView(b.layers, l)) == OnHand(b, l) + ActiveQuantity(b, l)
    requires m.ref.Reservation? && !IsActive(m) && m == b.log[i].(ref := m.ref)
    requires d.log == b.log[i := m] + [r] && Returned(b, d, b.log[i], r) && ActiveQuantity(d, l) >= 0.0
    ensures QueueOk(d, l)
  {
    var log, q := b.log[i := m], b.log[i].quantity;
    LetGo(b, d, i, m, r, l);
    ReleaseQueue(b, d, log, r, q, l);
  }

  lemma LetGo(b: Books, d: Books, i: nat, m: Movement, r: Movement, l: Loc)
    requires i < |b.log| && IsActive(b.log[i])
    requires m.ref.Reservation? && !IsActive(m) && m == b.log[i].(ref := m.ref)
    requires d.log == b.log[i := m] + [r] && Returned(b, d, b.log[i], r)
    ensures ActiveQuantity(d, l) == ActiveQuantity(b, l) - (if l == r.loc then b.log[i].quantity else 0.0)
    ensures Core(b.log[i := m], b.layers, l) == Core(b.log, b.layers, l) && Owed(b.log[i := m], l) == Owed(b.log, l)
    ensures r.after == Some(OnHand(b, r.loc) + b.log[i].quantity)
  {
    ReleaseActive(b, d, i, m, r, l);
    CoreUpdate(b.log, i, m, b.layers, l);
  }

  lemma ReturnReplayable(b: Books, d: Books, i: nat, m: Movement, r: Movement)
    requires Sound(b) && Replayable(b) && i < |b.log| && IsActive(b.log[i])
    requires m.ref.Reservation? && !IsActive(m) && m == b.log[i].(ref := m.ref)
    requires d.log == b.log[i := m] + [r] && Returned(b, d, b.log[i], r) && LogOk(d.log)
    ensures Replayable(d)
  {
    ReturnRows(b, d, i, m, r);
    forall l: Loc | l.item in d.configured ensures QueueOk(d, l) {
      QueueTotals(b, l);
      ActiveNonNegative(d, l);
      ReturnQueue(b, d, i, m, r, l);
    }
  }

  lemma ReturnRows(b: Books, d: Books, i: nat, m: Movement, r: Movement)
    requires LogOk(b.log) && RowsOk(b.layers, |b.log|) && RowsGood(b.log, b.layers) && i < |b.log| && IsActive(b.log[i])
    requires m.ref.Reservation? && m == b.log[i].(ref := m.ref)
    requires d.log == b.log[i := m] + [r] && d.layers == b.layers && r.id == |b.log| && r.ref.ReservationRelease?
    ensures RowsGood(d.log, d.layers)
  {
    forall k | 0 <= k < |b.log| ensures d.log[k].id == b.log[k].id && Delta(d.log[k]) == Delta(b.log[k]) {
      assert MovementOk(b.log[k], k);
    }
    ConsumedRows(b.log, d.log, b.layers, d.layers);
  }

  lemma ReleaseReplayable(b: Books, i: nat, status: ReservationStatus)
    requires Sound(b) && Replayable(b) && CanDo(b, Releasing(i, status))
    ensures Replayable(Do(b, Releasing(i, status)))
  {
    var d := Do(b, Releasing(i, status));
    ReleaseWrites(b, i, status);
    ReleaseOneSound(b, i, status);
    ReturnReplayable(b, d, i, Let(b.log[i], status), d.log[|b.log|]);
  }

  lemma StepReplayable(b: Books, s: Step)
    requires Sound(b) && Replayable(b) && CanDo(b, s)
    ensures Replayable(Do(b, s))
  {
    match s
    case Crediting(loc, q, parts, cost, kind, ref) => CreditReplayable(b, loc, q, parts, cost, kind, ref);
    case Debiting(loc, q, recorded, kind, ref) => DebitReplayable(b, loc, q, recorded, kind, ref);
    case Noting(loc) => NoteReplayable(b, loc);
    case Holding(order, loc, q) => ReserveReplayable(b, order, loc, q);
    case Committing(i, kind) => CommitReplayable(b, i, kind);
    case Releasing(i, status) => ReleaseReplayable(b, i, status);
    case Transferring(ts) =>
      forall l: Loc | l.item in b.configured ensures QueueOk(b.(transfers := ts), l) {
        assert QueueOk(b, l) && FreeQueue(b.(transfers := ts), l) == FreeQueue(b, l);
      }
  }

  lemma {:induction false} PathReplayable(b: Books, steps: seq<Step>)
    requires Healthy(b) && Replayable(b) && Legal(b, steps)
    ensures Replayable(Play(b, steps))
  {
    if steps != [] {
      PathReplayable(b, steps[..|steps| - 1]);
      PathHealthy(b, steps[..|steps| - 1]);
      StepReplayable(Play(b, steps[..|steps| - 1]), steps[|steps| - 1]);
    }
  }

  lemma {:induction false} RunReplayable(b: Books, ops: seq<Op>)
    requires Healthy(b) && Replayable(b) && AllWellPosed(ops)
    ensures Replayable(Run(b, ops))
  {
    if ops != [] {
      var n := |ops| - 1;
      RunReplayable(b, ops[..n]);
      RunHealthy(b, ops[..n]);
      var steps := Decompose(Run(b, ops[..n]), ops[n]);
      PathReplayable(Run(b, ops[..n]), steps);
    }
  }
}
