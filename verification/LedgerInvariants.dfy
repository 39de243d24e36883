/**
  What every inventory transaction keeps: the movement log chains up to the stock rows, stock is
  never negative, and the cost layers of a location cover its stock plus its uncosted reservations.
*/
module LedgerInvariants {
  import opened Fifo
  import opened InventoryLedger

  // ------------------------------------------------------------------ the FIFO loop

  predicate NonNegative(layers: seq<LayerRow>)
  {
    forall i :: 0 <= i < |layers| ==> layers[i].remaining >= 0.0
  }

  /** Same rows, only the remaining quantities may differ. */
  predicate SameRows(xs: seq<LayerRow>, ys: seq<LayerRow>)
  {
    |xs| == |ys| && forall i :: 0 <= i < |xs| ==> ys[i] == xs[i].(remaining := ys[i].remaining)
  }

  lemma ViewSnoc(layers: seq<LayerRow>, l: LayerRow, loc: Loc)
    ensures View(layers + [l], loc) == View(layers, loc) + if Open(l, loc) then [Lot(l.remaining, TagOf(l))] else []
  {
    assert (layers + [l])[..|layers|] == layers;
  }

  lemma {:induction false} ViewConcat(xs: seq<LayerRow>, ys: seq<LayerRow>, loc: Loc)
    ensures View(xs + ys, loc) == View(xs, loc) + View(ys, loc)
  {
    if ys == [] {
      assert xs + ys == xs;
    } else {
      var n := |ys| - 1;
      assert xs + ys == (xs + ys[..n]) + [ys[n]];
      ViewSnoc(xs + ys[..n], ys[n], loc);
      ViewConcat(xs, ys[..n], loc);
    }
  }

  lemma {:induction false} ConsumeRows(layers: seq<LayerRow>, loc: Loc, q: real)
    requires NonNegative(layers)
    ensures SameRows(layers, Consume(layers, loc, q).rows) && NonNegative(Consume(layers, loc, q).rows)
  {
    if layers != [] {
      var n := |layers| - 1;
      ConsumeRows(layers[..n], loc, q);
      assert Consume(layers, loc, q).rows[..n] == Consume(layers[..n], loc, q).rows;
    }
  }

  lemma OneLot(x: Alloc)
    ensures Sum([x]) == x.qty
  {
    assert [x][1..] == [];
  }

  /** One more lot at the back of a queue that does not hold enough. */
  lemma ConsumeIntoLot(v: seq<Alloc>, x: Alloc, q: real)
    requires Positive(v) && x.qty > 0.0 && q > Sum(v)
    ensures Take(v + [x], q) == Take(v, q) + [Lot(Min(x.qty, q - Sum(v)), x.tag)]
    ensures Drop(v + [x], q) == (if x.qty <= q - Sum(v) then [] else [Lot(x.qty - (q - Sum(v)), x.tag)])
    ensures Drop(v, q) == [] && Sum(v + [x]) == Sum(v) + x.qty
  {
    TakeConcat(v, [x], q);
    DropConcat(v, [x], q);
    SumConcat(v, [x]);
    OneLot(x);
    assert [x][1..] == [];
    TakeAll(v, q);
  }

  /** One more lot at the back of a queue that holds enough. */
  lemma ConsumeBeforeLot(v: seq<Alloc>, x: Alloc, q: real)
    requires Positive(v) && x.qty > 0.0 && 0.0 <= q <= Sum(v)
    ensures Take(v + [x], q) == Take(v, q) && Drop(v + [x], q) == Drop(v, q) + [x] && Sum(v + [x]) == Sum(v) + x.qty
  {
    TakeConcat(v, [x], q);
    DropConcat(v, [x], q);
    SumConcat(v, [x]);
    OneLot(x);
    assert Take([x], q - Sum(v)) == [] && Take(v, q) + [] == Take(v, q);
  }

  /**
    The consuming loop takes exactly the first q units of the open layers of its location, oldest
    first, and leaves exactly the rest there.
  */
  lemma {:induction false} ConsumeMeaning(layers: seq<LayerRow>, loc: Loc, q: real)
    requires NonNegative(layers) && q >= 0.0
    ensures var c := Consume(layers, loc, q);
            && c.allocations == Take(View(layers, loc), q)
            && c.left == q - Min(q, Sum(View(layers, loc)))
            && View(c.rows, loc) == Drop(View(layers, loc), q)
            && SameRows(layers, c.rows) && NonNegative(c.rows)
  {
    ConsumeRows(layers, loc, q);
    if layers != [] {
      var n := |layers| - 1;
      ConsumeMeaning(layers[..n], loc, q);
      ConsumeOneMore(layers, loc, q);
    }
  }

  /** One more layer of the table. */
  lemma ConsumeOneMore(layers: seq<LayerRow>, loc: Loc, q: real)
    requires layers != [] && q >= 0.0 && layers[|layers| - 1].remaining >= 0.0
    requires Consumed(Consume(layers[..|layers| - 1], loc, q), View(layers[..|layers| - 1], loc), loc, q)
    ensures Consumed(Consume(layers, loc, q), View(layers, loc), loc, q)
  {
    var n := |layers| - 1;
    var l, v, c := layers[n], View(layers[..n], loc), Consume(layers[..n], loc, q);
    if !Open(l, loc) {
      ConsumeClosed(c, v, l, loc, q);
      assert View(layers, loc) == v + [];
    } else if c.left > 0.0 {
      ConsumeOpen(c, v, l, loc, q);
    } else {
      ConsumeLater(c, v, l, loc, q);
    }
  }

  /** What consuming q from a queue has left and produced. */
  predicate Consumed(c: Consumption, v: seq<Alloc>, loc: Loc, q: real)
  {
    c.allocations == Take(v, q) && c.left == q - Min(q, Sum(v)) && View(c.rows, loc) == Drop(v, q)
  }

  lemma ConsumeClosed(c: Consumption, v: seq<Alloc>, l: LayerRow, loc: Loc, q: real)
    requires Consumed(c, v, loc, q) && !Open(l, loc)
    ensures Consumed(c.(rows := c.rows + [l]), v + [], loc, q)
  {
    ViewSnoc(c.rows, l, loc);
    assert v + [] == v && View(c.rows, loc) + [] == View(c.rows, loc);
  }

  lemma ConsumeOpen(c: Consumption, v: seq<Alloc>, l: LayerRow, loc: Loc, q: real)
    requires Consumed(c, v, loc, q) && Positive(v) && Open(l, loc) && c.left > 0.0
    ensures var used := Min(l.remaining, c.left);
            Consumed(Consumption(c.rows + [l.(remaining := l.remaining - used)], c.allocations + [Lot(used, TagOf(l))], c.left - used),
                     v + [Lot(l.remaining, TagOf(l))], loc, q)
  {
    var after := l.(remaining := l.remaining - Min(l.remaining, c.left));
    ViewSnoc(c.rows, after, loc);
    ConsumeIntoLot(v, Lot(l.remaining, TagOf(l)), q);
  }

  lemma ConsumeLater(c: Consumption, v: seq<Alloc>, l: LayerRow, loc: Loc, q: real)
    requires Consumed(c, v, loc, q) && Positive(v) && Open(l, loc) && c.left <= 0.0 && q >= 0.0
    ensures Consumed(c.(rows := c.rows + [l]), v + [Lot(l.remaining, TagOf(l))], loc, q)
  {
    ViewSnoc(c.rows, l, loc);
    ConsumeBeforeLot(v, Lot(l.remaining, TagOf(l)), q);
  }

  lemma {:induction false} ConsumeElsewhere(layers: seq<LayerRow>, loc: Loc, q: real, other: Loc)
    requires other != loc
    ensures View(Consume(layers, loc, q).rows, other) == View(layers, other)
  {
    if layers != [] {
      var n := |layers| - 1;
      ConsumeElsewhere(layers[..n], loc, q, other);
      var c := Consume(layers, loc, q);
      ViewSnoc(c.rows[..n], c.rows[n], other);
      assert c.rows == c.rows[..n] + [c.rows[n]];
      assert c.rows[..n] == Consume(layers[..n], loc, q).rows;
    }
  }

  lemma ValueOfOne(a: Alloc)
    ensures Value([a], TagCost()) == a.qty * a.tag.unitCost
  {
    assert [a][1..] == [];
  }

  lemma UsedWorth(l: LayerRow, used: real)
    ensures Worth()(l.(remaining := l.remaining - used)) + Value([Lot(used, TagOf(l))], TagCost()) == Worth()(l)
  {
    ValueOfOne(Lot(used, TagOf(l)));
    Distribute(l.remaining, used, l.unitCost);
  }

  lemma {:induction false} ConsumeWorth(layers: seq<LayerRow>, loc: Loc, q: real)
    ensures var c := Consume(layers, loc, q);
            SumBy(c.rows, Worth()) + Value(c.allocations, TagCost()) == SumBy(layers, Worth())
  {
    if layers != [] {
      var n := |layers| - 1;
      ConsumeWorth(layers[..n], loc, q);
      var c0, c := Consume(layers[..n], loc, q), Consume(layers, loc, q);
      var l := layers[n];
      assert c.rows == c0.rows + [c.rows[n]];
      SumBySnoc(c0.rows, c.rows[n], Worth());
      if Open(l, loc) && c0.left > 0.0 {
        var used := Min(l.remaining, c0.left);
        ValueConcat(c0.allocations, [Lot(used, TagOf(l))], TagCost());
        UsedWorth(l, used);
      }
    }
  }

  lemma {:induction false} ViewSum(layers: seq<LayerRow>, loc: Loc)
    requires NonNegative(layers)
    ensures Sum(View(layers, loc)) == SumBy(layers, RemainingAt(loc))
  {
    if layers != [] {
      var n := |layers| - 1;
      ViewSum(layers[..n], loc);
      var l := layers[n];
      if Open(l, loc) {
        var x := [Lot(l.remaining, TagOf(l))];
        SumConcat(View(layers[..n], loc), x);
        assert x[1..] == [];
      } else {
        assert View(layers[..n], loc) + [] == View(layers[..n], loc);
      }
    }
  }

  lemma ConsumeCover(layers: seq<LayerRow>, loc: Loc, q: real, l: Loc)
    requires NonNegative(layers) && q >= 0.0 && Consume(layers, loc, q).left <= 0.0
    ensures SumBy(Consume(layers, loc, q).rows, RemainingAt(l)) ==
            SumBy(layers, RemainingAt(l)) - if l == loc then q else 0.0
  {
    var rows := Consume(layers, loc, q).rows;
    ConsumeMeaning(layers, loc, q);
    ViewSum(layers, l);
    ViewSum(rows, l);
    if l == loc {
      SplitQuantity(View(layers, loc), q);
    } else {
      ConsumeElsewhere(layers, loc, q, l);
    }
  }

  lemma {:induction false} NewRowsCover(base: nat, loc: Loc, source: nat, parts: seq<Lot<real>>, l: Loc)
    ensures SumBy(NewRows(base, loc, source, parts), RemainingAt(l)) == if l == loc then Sum(parts) else 0.0
    ensures SumBy(NewRows(base, loc, source, parts), Worth()) == Value(parts, Identity())
  {
    if parts != [] {
      var n := |parts| - 1;
      NewRowsCover(base, loc, source, parts[..n], l);
      assert NewRows(base, loc, source, parts)[..n] == NewRows(base, loc, source, parts[..n]);
      assert parts == parts[..n] + [parts[n]];
      SumConcat(parts[..n], [parts[n]]);
      ValueConcat(parts[..n], [parts[n]], Identity());
      assert [parts[n]][1..] == [];
    }
  }

  // ------------------------------------------------------------------ the invariant

  predicate MovementOk(m: Movement, i: nat)
  {
    && m.id == i && m.before.Some? && m.after.Some? && m.after.value >= 0.0
    && (m.ref.Reservation? ==> m.quantity > 0.0 && m.after.value == m.before.value - m.quantity)
    && (IsActive(m) ==> m.allocations == [] && m.cost == None)
  }

  predicate LogOk(log: seq<Movement>)
  {
    forall i :: 0 <= i < |log| ==> MovementOk(log[i], i)
  }

  predicate ChainedAt(opening: map<Loc, real>, log: seq<Movement>, i: nat)
    requires i < |log|
  {
    log[i].before == Some(Balance(opening, log[..i], log[i].loc))
  }

  /** Every before-quantity is the previous after-quantity at that location. */
  predicate Chained(opening: map<Loc, real>, log: seq<Movement>)
  {
    forall i :: 0 <= i < |log| ==> ChainedAt(opening, log, i)
  }

  predicate RowsOk(layers: seq<LayerRow>, movements: nat)
  {
    forall i :: 0 <= i < |layers| ==>
      layers[i].id == i && layers[i].remaining >= 0.0 && (layers[i].source.Some? ==> layers[i].source.value < movements)
  }

  ghost predicate StockAgrees(b: Books)
  {
    forall loc :: OnHand(b, loc) >= 0.0 && OnHand(b, loc) == Balance(b.opening, b.log, loc)
  }

  ghost predicate Covered(b: Books)
  {
    forall loc: Loc :: loc.item in b.configured ==>
      SumBy(b.layers, RemainingAt(loc)) == OnHand(b, loc) + SumBy(b.log, ActiveAt(loc))
  }

  ghost predicate Sound(b: Books)
  {
    RowsOk(b.layers, |b.log|) && LogOk(b.log) && Chained(b.opening, b.log) && StockAgrees(b) && Covered(b)
  }

  // ------------------------------------------------------------------ the log

  lemma ChainedPrefix(opening: map<Loc, real>, log: seq<Movement>, n: nat)
    requires LogOk(log) && Chained(opening, log) && n <= |log|
    ensures LogOk(log[..n]) && Chained(opening, log[..n])
  {
    forall i | 0 <= i < n ensures ChainedAt(opening, log[..n], i) {
      assert ChainedAt(opening, log, i) && log[..n][..i] == log[..i];
    }
  }

  lemma AppendMovement(opening: map<Loc, real>, log: seq<Movement>, m: Movement)
    requires LogOk(log) && Chained(opening, log)
    requires MovementOk(m, |log|) && m.before == Some(Balance(opening, log, m.loc))
    ensures LogOk(log + [m]) && Chained(opening, log + [m])
    ensures forall l :: Balance(opening, log + [m], l) == if l == m.loc then m.after.value else Balance(opening, log, l)
    ensures forall l :: SumBy(log + [m], ActiveAt(l)) == SumBy(log, ActiveAt(l)) + ActiveAt(l)(m)
  {
    var g := log + [m];
    assert g[..|log|] == log;
    forall i | 0 <= i < |g| ensures ChainedAt(opening, g, i) {
      if i < |log| { assert g[..i] == log[..i] && ChainedAt(opening, log, i); }
    }
    forall l ensures SumBy(g, ActiveAt(l)) == SumBy(log, ActiveAt(l)) + ActiveAt(l)(m) {
      SumBySnoc(log, m, ActiveAt(l));
    }
  }

  lemma {:induction false} BalanceUpdate(opening: map<Loc, real>, log: seq<Movement>, i: nat, m: Movement, l: Loc)
    requires i < |log| && m.loc == log[i].loc && m.after == log[i].after
    ensures Balance(opening, log[i := m], l) == Balance(opening, log, l)
  {
    var n := |log| - 1;
    if i == n {
      assert log[i := m][..n] == log[..n];
    } else {
      assert log[i := m][..n] == log[..n][i := m];
      BalanceUpdate(opening, log[..n], i, m, l);
    }
  }

  lemma UpdateMovement(opening: map<Loc, real>, log: seq<Movement>, i: nat, m: Movement)
    requires LogOk(log) && Chained(opening, log) && i < |log| && MovementOk(m, i)
    requires m.loc == log[i].loc && m.before == log[i].before && m.after == log[i].after
    ensures LogOk(log[i := m]) && Chained(opening, log[i := m])
    ensures forall l :: Balance(opening, log[i := m], l) == Balance(opening, log, l)
    ensures forall l :: SumBy(log[i := m], ActiveAt(l)) ==
                        SumBy(log, ActiveAt(l)) - ActiveAt(l)(log[i]) + ActiveAt(l)(m)
  {
    var g := log[i := m];
    forall k | 0 <= k < |g| ensures ChainedAt(opening, g, k) {
      assert ChainedAt(opening, log, k);
      if i < k {
        assert g[..k] == log[..k][i := m];
        BalanceUpdate(opening, log[..k], i, m, g[k].loc);
      } else {
        assert g[..k] == log[..k];
      }
    }
    forall l ensures Balance(opening, g, l) == Balance(opening, log, l) { BalanceUpdate(opening, log, i, m, l); }
    forall l ensures SumBy(g, ActiveAt(l)) == SumBy(log, ActiveAt(l)) - ActiveAt(l)(log[i]) + ActiveAt(l)(m) {
      SumByUpdate(log, i, m, ActiveAt(l));
    }
  }

  /** The stock row and the log move together. */
  lemma StockMoves(b: Books, d: Books, loc: Loc, m: Movement)
    requires StockAgrees(b) && m.loc == loc && m.after.Some? && m.after.value >= 0.0
    requires d.stock == b.stock[loc := m.after.value]
    requires forall l :: Balance(d.opening, d.log, l) == if l == loc then m.after.value else Balance(b.opening, b.log, l)
    ensures StockAgrees(d)
  {
    forall l ensures OnHand(d, l) >= 0.0 && OnHand(d, l) == Balance(d.opening, d.log, l) {
      assert OnHand(b, l) >= 0.0 && OnHand(b, l) == Balance(b.opening, b.log, l);
    }
  }

  // ------------------------------------------------------------------ primitives keep it

  lemma CreditSound(b: Books, loc: Loc, q: real, parts: seq<Lot<real>>, cost: Cost, kind: MovementType, ref: Reference)
    requires Sound(b) && q > 0.0 && Positive(parts) && Sum(parts) == q && !ref.Reservation?
    ensures Sound(Credit(b, loc, q, parts, cost, kind, ref))
  {
    var d := Credit(b, loc, q, parts, cost, kind, ref);
    var m := d.log[|b.log|];
    AppendMovement(b.opening, b.log, m);
    var added := NewRows(|b.layers|, loc, |b.log|, parts);
    forall l: Loc | l.item in d.configured
      ensures SumBy(d.layers, RemainingAt(l)) == OnHand(d, l) + SumBy(d.log, ActiveAt(l))
    {
      assert OnHand(b, l) >= 0.0;
      SumByConcat(b.layers, added, RemainingAt(l));
      NewRowsCover(|b.layers|, loc, |b.log|, parts, l);
    }
    StockMoves(b, d, loc, m);
  }

  /** A location's layers hold enough for whatever is on hand, so no issue of stock fails for lack of layers. */
  lemma DebitSucceeds(b: Books, loc: Loc, q: real, recorded: real, kind: MovementType, ref: Reference)
    requires Sound(b) && loc.item in b.configured && 0.0 < q <= OnHand(b, loc)
    ensures Debit(b, loc, q, OnHand(b, loc), recorded, kind, ref).Ok?
  {
    ConsumeMeaning(b.layers, loc, q);
    ViewSum(b.layers, loc);
    SumByNonNegative(b.log, ActiveAt(loc));
  }

  /** Consuming what leaves the stock row keeps the coverage. */
  lemma ConsumedCovers(b: Books, d: Books, loc: Loc, q: real)
    requires Covered(b) && NonNegative(b.layers) && d.configured == b.configured && q >= 0.0
    requires Consume(b.layers, loc, q).left <= 0.0 && d.layers == Consume(b.layers, loc, q).rows
    requires forall l :: OnHand(d, l) + SumBy(d.log, ActiveAt(l)) ==
                         OnHand(b, l) + SumBy(b.log, ActiveAt(l)) - if l == loc then q else 0.0
    ensures Covered(d)
  {
    forall l: Loc | l.item in d.configured ensures SumBy(d.layers, RemainingAt(l)) == OnHand(d, l) + SumBy(d.log, ActiveAt(l)) {
      ConsumeCover(b.layers, loc, q, l);
      assert SumBy(b.layers, RemainingAt(l)) == OnHand(b, l) + SumBy(b.log, ActiveAt(l));
    }
  }

  lemma ConsumedRowsOk(layers: seq<LayerRow>, loc: Loc, q: real, movements: nat, more: nat)
    requires RowsOk(layers, movements) && movements <= more
    ensures RowsOk(Consume(layers, loc, q).rows, more)
  {
    ConsumeRows(layers, loc, q);
  }

  lemma DebitSound(b: Books, loc: Loc, q: real, recorded: real, kind: MovementType, ref: Reference)
    requires Sound(b) && q <= OnHand(b, loc) && !ref.Reservation?
    requires Debit(b, loc, q, OnHand(b, loc), recorded, kind, ref).Ok?
    ensures Sound(Debit(b, loc, q, OnHand(b, loc), recorded, kind, ref).value)
  {
    var d := Debit(b, loc, q, OnHand(b, loc), recorded, kind, ref).value;
    AppendMovement(b.opening, b.log, d.log[|b.log|]);
    ConsumedRowsOk(b.layers, loc, q, |b.log|, |d.log|);
    StockMoves(b, d, loc, d.log[|b.log|]);
    ConsumedCovers(b, d, loc, q);
  }

  lemma ReserveAtSound(b: Books, order: nat, loc: Loc, q: real)
    requires Sound(b) && 0.0 < q <= OnHand(b, loc)
    ensures Sound(ReserveAt(b, order, loc, q))
  {
    var d := ReserveAt(b, order, loc, q);
    AppendMovement(b.opening, b.log, d.log[|b.log|]);
    forall l: Loc | l.item in d.configured
      ensures SumBy(d.layers, RemainingAt(l)) == OnHand(d, l) + SumBy(d.log, ActiveAt(l))
    {
      assert OnHand(b, l) >= 0.0;
    }
    StockMoves(b, d, loc, d.log[|b.log|]);
  }

  /** Committing an active reservation of a configured item always finds its cost layers. */
  lemma CommitOneSucceeds(b: Books, i: nat, kind: MovementType)
    requires Sound(b) && i < |b.log| && IsActive(b.log[i]) && b.log[i].loc.item in b.configured
    ensures CommitOne(b, i, kind).Ok?
  {
    var m := b.log[i];
    assert MovementOk(m, i);
    ConsumeMeaning(b.layers, m.loc, m.quantity);
    ViewSum(b.layers, m.loc);
    assert OnHand(b, m.loc) >= 0.0;
    forall k | 0 <= k < |b.log| ensures ActiveAt(m.loc)(b.log[k]) >= 0.0 {
      assert MovementOk(b.log[k], k);
    }
    SumByNonNegative(b.log, ActiveAt(m.loc));
    assert ActiveAt(m.loc)(b.log[i]) == m.quantity;
  }

  lemma CommitOneSound(b: Books, i: nat, kind: MovementType)
    requires Sound(b) && i < |b.log| && IsActive(b.log[i]) && CommitOne(b, i, kind).Ok?
    ensures Sound(CommitOne(b, i, kind).value)
    ensures CommitOne(b, i, kind).value.stock == b.stock
  {
    var d := CommitOne(b, i, kind).value;
    var m := b.log[i];
    assert MovementOk(m, i);
    assert d.log == b.log[i := d.log[i]];
    UpdateMovement(b.opening, b.log, i, d.log[i]);
    ConsumedRowsOk(b.layers, m.loc, m.quantity, |b.log|, |d.log|);
    forall l ensures OnHand(d, l) >= 0.0 && OnHand(d, l) == Balance(d.opening, d.log, l) {
      assert OnHand(b, l) >= 0.0 && OnHand(b, l) == Balance(b.opening, b.log, l);
    }
    ConsumedCovers(b, d, m.loc, m.quantity);
  }

  /** An active reservation carries no cost, so releasing one only moves stock. */
  lemma ReleaseIsReturn(b: Books, i: nat, status: ReservationStatus)
    requires i < |b.log| && IsActive(b.log[i]) && MovementOk(b.log[i], i)
    ensures ReleaseOne(b, i, status).Ok?
    ensures var m, before := b.log[i], OnHand(b, b.log[i].loc);
            ReleaseOne(b, i, status).value ==
            b.(stock := b.stock[m.loc := before + m.quantity],
               log := b.log[i := m.(ref := Reservation(m.ref.order, status))] +
                      [Movement(|b.log|, m.loc, RETURN, m.quantity, Some(before), Some(before + m.quantity),
                                ReservationRelease(m.ref.order), None, [])])
  {
    assert RestoreRows(b.layers, []) == b.layers;
  }

  /** A reservation is closed and its quantity returned: what that does to the log. */
  lemma ReturnLog(opening: map<Loc, real>, log: seq<Movement>, i: nat, m: Movement, r: Movement)
    requires LogOk(log) && Chained(opening, log) && i < |log| && IsActive(log[i]) && MovementOk(m, i) && MovementOk(r, |log|)
    requires m.loc == log[i].loc == r.loc && m.before == log[i].before && m.after == log[i].after && !IsActive(m) && !IsActive(r)
    requires r.before == Some(Balance(opening, log, r.loc))
    ensures LogOk(log[i := m] + [r]) && Chained(opening, log[i := m] + [r])
    ensures forall l :: Balance(opening, log[i := m] + [r], l) == if l == r.loc then r.after.value else Balance(opening, log, l)
    ensures forall l :: SumBy(log[i := m] + [r], ActiveAt(l)) == SumBy(log, ActiveAt(l)) - if l == r.loc then log[i].quantity else 0.0
  {
    UpdateMovement(opening, log, i, m);
    AppendMovement(opening, log[i := m], r);
  }

  lemma ReturnedSound(b: Books, d: Books, i: nat, m: Movement, r: Movement)
    requires Sound(b) && i < |b.log| && IsActive(b.log[i]) && !IsActive(m) && m.ref.Reservation? && m == b.log[i].(ref := m.ref)
    requires d.log == b.log[i := m] + [r] && d.opening == b.opening && d.configured == b.configured && d.layers == b.layers
    requires d.stock == b.stock[m.loc := OnHand(b, m.loc) + m.quantity]
    requires r.id == |b.log| && r.loc == m.loc && r.ref.ReservationRelease?
    requires r.before == Some(OnHand(b, m.loc)) && r.after == Some(OnHand(b, m.loc) + m.quantity)
    ensures Sound(d)
  {
    assert MovementOk(b.log[i], i);
    assert OnHand(b, m.loc) == Balance(b.opening, b.log, m.loc) && OnHand(b, m.loc) >= 0.0;
    ReturnLog(b.opening, b.log, i, m, r);
    ReturnSound(b, d, m);
  }

  /** So it always succeeds and touches no layer. */
  lemma ReleaseOneSound(b: Books, i: nat, status: ReservationStatus)
    requires Sound(b) && i < |b.log| && IsActive(b.log[i]) && status != Active
    ensures ReleaseOne(b, i, status).Ok? && Sound(ReleaseOne(b, i, status).value)
    ensures ReleaseOne(b, i, status).value.layers == b.layers
  {
    var m := b.log[i];
    assert MovementOk(m, i);
    ReleaseIsReturn(b, i, status);
    var d := ReleaseOne(b, i, status).value;
    ReturnedSound(b, d, i, m.(ref := Reservation(m.ref.order, status)), d.log[|b.log|]);
  }

  lemma ReturnSound(b: Books, d: Books, m: Movement)
    requires Sound(b) && d.opening == b.opening && d.configured == b.configured && d.layers == b.layers && |d.log| > |b.log|
    requires m.quantity > 0.0 && d.stock == b.stock[m.loc := OnHand(b, m.loc) + m.quantity]
    requires LogOk(d.log) && Chained(d.opening, d.log)
    requires forall l :: Balance(d.opening, d.log, l) == if l == m.loc then OnHand(b, m.loc) + m.quantity else Balance(b.opening, b.log, l)
    requires forall l :: SumBy(d.log, ActiveAt(l)) == SumBy(b.log, ActiveAt(l)) - if l == m.loc then m.quantity else 0.0
    ensures Sound(d)
  {
    forall l: Loc | l.item in d.configured
      ensures SumBy(d.layers, RemainingAt(l)) == OnHand(d, l) + SumBy(d.log, ActiveAt(l))
    {
      assert OnHand(b, l) >= 0.0;
    }
    forall l ensures OnHand(d, l) >= 0.0 && OnHand(d, l) == Balance(d.opening, d.log, l) {
      assert OnHand(b, l) >= 0.0 && OnHand(b, l) == Balance(b.opening, b.log, l);
    }
  }
}
