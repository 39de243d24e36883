/**
  getValuation for FIFO items: a location is valued at its layers, but only if they hold exactly its stock
  and reservations.  After any run they do, and an issue lowers the value by exactly the cost it records.
*/
module Valuation {
  import opened Fifo
  import opened InventoryLedger
  import opened LedgerInvariants
  import opened LedgerSteps
  import opened LedgerRuns

  function WorthAt(loc: Loc): LayerRow -> real
  {
    (l: LayerRow) => if l.loc == loc then l.remaining * l.unitCost else 0.0
  }

  /** The reported value of a location; None stands for an opening cost that is still required. */
  function FifoValue(b: Books, loc: Loc): Option<real>
  {
    if SumBy(b.layers, RemainingAt(loc)) == OnHand(b, loc) + SumBy(b.log, ActiveAt(loc)) then Some(SumBy(b.layers, WorthAt(loc)))
    else None
  }

  lemma QueueWorthMore(v: seq<Alloc>, l: LayerRow, loc: Loc)
    requires l.remaining >= 0.0
    ensures Value(v + (if Open(l, loc) then [Lot(l.remaining, TagOf(l))] else []), TagCost()) == Value(v, TagCost()) + WorthAt(loc)(l)
  {
    if Open(l, loc) {
      ValueConcat(v, [Lot(l.remaining, TagOf(l))], TagCost());
      ValueOfOne(Lot(l.remaining, TagOf(l)));
    } else {
      assert v + [] == v && WorthAt(loc)(l) == 0.0;
    }
  }

  /** The worth of a location is the worth of its open layers. */
  lemma {:induction false} QueueWorth(layers: seq<LayerRow>, loc: Loc)
    requires NonNegative(layers)
    ensures SumBy(layers, WorthAt(loc)) == Value(View(layers, loc), TagCost())
  {
    if layers != [] {
      QueueWorth(layers[..|layers| - 1], loc);
      QueueWorthMore(View(layers[..|layers| - 1], loc), layers[|layers| - 1], loc);
    }
  }

  /** After any run, the value of a configured item is known at every location. */
  lemma ValuationIsKnown(b: Books, ops: seq<Op>, loc: Loc)
    requires Healthy(b) && AllWellPosed(ops) && loc.item in b.configured
    ensures var d := Run(b, ops); FifoValue(d, loc) == Some(Value(View(d.layers, loc), TagCost()))
  {
    RunHealthy(b, ops);
    QueueWorth(Run(b, ops).layers, loc);
  }

  lemma ConsumedWorth(layers: seq<LayerRow>, loc: Loc, q: real, l: Loc)
    requires NonNegative(layers) && q >= 0.0
    ensures SumBy(Consume(layers, loc, q).rows, WorthAt(l)) ==
            SumBy(layers, WorthAt(l)) - if l == loc then Value(Consume(layers, loc, q).allocations, TagCost()) else 0.0
  {
    ConsumeMeaning(layers, loc, q);
    QueueWorth(layers, l);
    QueueWorth(Consume(layers, loc, q).rows, l);
    if l == loc {
      SplitValue(View(layers, loc), q, TagCost());
    } else {
      ConsumeElsewhere(layers, loc, q, l);
    }
  }

  /** An issue lowers the value of its own location by the total cost it records, and no other value. */
  lemma IssueLowersValue(b: Books, loc: Loc, q: real, recorded: real, kind: MovementType, ref: Reference, l: Loc)
    requires Sound(b) && q <= OnHand(b, loc) && !ref.Reservation? && l.item in b.configured
    requires Debit(b, loc, q, OnHand(b, loc), recorded, kind, ref).Ok?
    ensures var d := Debit(b, loc, q, OnHand(b, loc), recorded, kind, ref).value;
            && FifoValue(b, l).Some? && FifoValue(d, l).Some? && d.log[|b.log|].cost.Some?
            && FifoValue(d, l).value == FifoValue(b, l).value - if l == loc then d.log[|b.log|].cost.value.totalCost else 0.0
  {
    DebitSound(b, loc, q, recorded, kind, ref);
    ConsumedWorth(b.layers, loc, q, l);
  }

  predicate CostsBetween(ls: seq<Alloc>, low: real, high: real)
  {
    forall i :: 0 <= i < |ls| ==> low <= ls[i].tag.unitCost <= high
  }

  lemma Scale(x: real, y: real, q: real)
    requires x <= y && q >= 0.0
    ensures x * q <= y * q
  {
    assert (y - x) * q >= 0.0;
  }

  lemma LotBetween(q: real, c: real, rest: real, worth: real, low: real, high: real)
    requires q > 0.0 && low <= c <= high && low * rest <= worth <= high * rest
    ensures low * (q + rest) <= q * c + worth <= high * (q + rest)
  {
    Scale(low, c, q);
    Scale(c, high, q);
    assert low * (q + rest) == low * q + low * rest && high * (q + rest) == high * q + high * rest;
  }

  lemma {:induction false} ValueBetween(ls: seq<Alloc>, low: real, high: real)
    requires Positive(ls) && CostsBetween(ls, low, high)
    ensures low * Sum(ls) <= Value(ls, TagCost()) <= high * Sum(ls)
  {
    if ls == [] {
      assert Sum(ls) == 0.0 && Value(ls, TagCost()) == 0.0;
    } else {
      ValueBetween(ls[1..], low, high);
      LotBetween(ls[0].qty, ls[0].tag.unitCost, Sum(ls[1..]), Value(ls[1..], TagCost()), low, high);
    }
  }

  lemma Unscale(x: real, y: real, q: real)
    requires q > 0.0 && x * q <= y * q
    ensures x <= y
  {
    assert (y - x) * q >= 0.0;
  }

  lemma AverageBetween(total: real, q: real, mean: real, low: real, high: real)
    requires q > 0.0 && low * q <= total <= high * q && mean == total / q
    ensures mean * q == total && low <= mean <= high
  {
    assert mean * q == total;
    Unscale(low, mean, q);
    Unscale(mean, high, q);
  }

  /** An issue takes exactly the first q units of its location and records their cost. */
  lemma IssueUses(b: Books, loc: Loc, q: real, seen: real, recorded: real, kind: MovementType, ref: Reference)
    requires NonNegative(b.layers) && Debit(b, loc, q, seen, recorded, kind, ref).Ok?
    ensures var m := Debit(b, loc, q, seen, recorded, kind, ref).value.log[|b.log|];
            && q > 0.0 && m.allocations == Take(View(b.layers, loc), q) && m.cost == Some(IssueCost(m.allocations, q))
            && Positive(m.allocations) && Sum(m.allocations) == q
  {
    ConsumeMeaning(b.layers, loc, q);
    SplitQuantity(View(b.layers, loc), q);
  }

  /**
    That cost is the weighted mean of the layers used: times the quantity it is the total, and it lies
    between the cheapest and the dearest of them.
  */
  lemma IssueCostIsMean(used: seq<Alloc>, q: real, low: real, high: real)
    requires Positive(used) && Sum(used) == q && q > 0.0 && CostsBetween(used, low, high)
    ensures IssueCost(used, q).totalCost == Value(used, TagCost())
    ensures IssueCost(used, q).unitCost * q == IssueCost(used, q).totalCost
    ensures low <= IssueCost(used, q).unitCost <= high
  {
    var total := Value(used, TagCost());
    assert low * q <= total <= high * q by { ValueBetween(used, low, high); }
    AverageBetween(total, q, total / q, low, high);
  }
}
