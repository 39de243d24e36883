/**
  Main results over whole runs of inventory transactions: cost layers cover stock, the log always
  reconciles with the stock rows, and no value is created or lost.
*/
module LedgerRuns {
  import opened Fifo
  import opened InventoryLedger
  import opened LedgerInvariants
  import opened LedgerSteps

  ghost predicate Healthy(b: Books)
  {
    Sound(b) && AllocationsPositive(b.log) && TransfersOk(b)
  }

  predicate AllWellPosed(ops: seq<Op>) { forall i :: 0 <= i < |ops| ==> WellPosed(ops[i]) }

  lemma EmptyHealthy(configured: set<nat>)
    ensures Healthy(Empty(configured))
  {
  }

  lemma NoteSound(b: Books, loc: Loc)
    requires Sound(b)
    ensures Sound(Note(b, loc))
  {
    assert OnHand(b, loc) == Balance(b.opening, b.log, loc);
    var d := Note(b, loc);
    AppendMovement(b.opening, b.log, d.log[|b.log|]);
    forall l ensures OnHand(d, l) >= 0.0 && OnHand(d, l) == Balance(d.opening, d.log, l) {
      assert OnHand(b, l) >= 0.0 && OnHand(b, l) == Balance(b.opening, b.log, l);
    }
  }

  lemma StepSound(b: Books, s: Step)
    requires Sound(b) && CanDo(b, s)
    ensures Sound(Do(b, s))
  {
    match s
    case Crediting(loc, q, parts, cost, kind, ref) => CreditSound(b, loc, q, parts, cost, kind, ref);
    case Debiting(loc, q, recorded, kind, ref) => DebitSound(b, loc, q, recorded, kind, ref);
    case Noting(loc) => NoteSound(b, loc);
    case Holding(order, loc, q) => ReserveAtSound(b, order, loc, q);
    case Committing(i, kind) => CommitOneSound(b, i, kind);
    case Releasing(i, status) => ReleaseOneSound(b, i, status);
    case Transferring(ts) =>
      forall l ensures OnHand(b.(transfers := ts), l) == OnHand(b, l) {}
  }

  lemma CostedPositive(b: Books, loc: Loc, q: real)
    requires RowsOk(b.layers, |b.log|) && q >= 0.0
    ensures Positive(Consume(b.layers, loc, q).allocations)
  {
    ConsumeMeaning(b.layers, loc, q);
    SplitQuantity(View(b.layers, loc), q);
  }

  lemma StepPositive(b: Books, s: Step)
    requires LogOk(b.log) && RowsOk(b.layers, |b.log|) && AllocationsPositive(b.log) && CanDo(b, s)
    ensures AllocationsPositive(Do(b, s).log)
  {
    match s
    case Debiting(loc, q, recorded, kind, ref) => CostedPositive(b, loc, q);
    case Committing(i, kind) =>
      assert MovementOk(b.log[i], i);
      CostedPositive(b, b.log[i].loc, b.log[i].quantity);
    case _ =>
  }

  lemma StepFrame(b: Books, s: Step)
    requires CanDo(b, s) && TransfersOk(b)
    ensures TransfersOk(Do(b, s)) && Do(b, s).configured == b.configured && Do(b, s).opening == b.opening
  {
  }

  lemma StepHealthy(b: Books, s: Step)
    requires Healthy(b) && CanDo(b, s)
    ensures Healthy(Do(b, s)) && Do(b, s).configured == b.configured && Do(b, s).opening == b.opening
  {
    StepSound(b, s);
    StepPositive(b, s);
    StepFrame(b, s);
  }

  lemma {:induction false} PathHealthy(b: Books, steps: seq<Step>)
    requires Healthy(b) && Legal(b, steps)
    ensures Healthy(Play(b, steps)) && Play(b, steps).configured == b.configured && Play(b, steps).opening == b.opening
  {
    if steps != [] {
      PathHealthy(b, steps[..|steps| - 1]);
      StepHealthy(Play(b, steps[..|steps| - 1]), steps[|steps| - 1]);
    }
  }

  lemma ApplyHealthy(b: Books, op: Op)
    requires Healthy(b) && WellPosed(op)
    ensures Healthy(Apply(b, op)) && Apply(b, op).configured == b.configured && Apply(b, op).opening == b.opening
  {
    var steps := Decompose(b, op);
    PathHealthy(b, steps);
  }

  /**
    Coverage and reconciliation over every run: whatever the transactions and whatever their order,
    the log chains up to non-negative stock and each configured item's layers hold exactly its stock
    plus its uncosted reservations.
  */
  lemma {:induction false} RunHealthy(b: Books, ops: seq<Op>)
    requires Healthy(b) && AllWellPosed(ops)
    ensures Healthy(Run(b, ops)) && Run(b, ops).configured == b.configured && Run(b, ops).opening == b.opening
  {
    if ops != [] {
      RunHealthy(b, ops[..|ops| - 1]);
      ApplyHealthy(Run(b, ops[..|ops| - 1]), ops[|ops| - 1]);
    }
  }

  predicate InStock(b: Books, loc: Loc, q: real) { loc in b.stock && q <= b.stock[loc] }

  predicate AdjustsDown(b: Books, loc: Loc, q: real, unitCost: Option<real>) { Adjust(b, loc, -q, unitCost).Ok? }

  /** Every way stock leaves: a waste, a negative adjustment, an order line and a transfer line. */
  ghost predicate Issuable(b: Books, loc: Loc, q: real)
  {
    && (WasteStock(b, loc, q).Ok? <==> q >= 1.0 && InStock(b, loc, q))
    && (forall c :: AdjustsDown(b, loc, q, c) <==> InStock(b, loc, q))
    && (forall order, kind :: SellLine(b, order, kind, SaleLine(loc, q)).Ok? <==> InStock(b, loc, q))
    && (forall t :: ShipLine(b, b.stock, t, loc, q).Ok? <==> InStock(b, loc, q))
  }

  lemma CoveredIsIssuable(b: Books, loc: Loc, q: real)
    requires Sound(b) && loc.item in b.configured && q > 0.0
    ensures Issuable(b, loc, q)
  {
    if InStock(b, loc, q) {
      DebitSucceeds(b, loc, q, q, WASTE, NoReference);
      DebitSucceeds(b, loc, q, -q, ADJUSTMENT, NoReference);
      forall order, kind ensures SellLine(b, order, kind, SaleLine(loc, q)).Ok? { DebitSucceeds(b, loc, q, q, kind, OrderSale(order)); }
      forall t ensures ShipLine(b, b.stock, t, loc, q).Ok? { DebitSucceeds(b, loc, q, q, TRANSFER, TransferShipment(t)); }
    }
  }

  /** After any run, taking stock that passes the stock check is never refused for lack of layers. */
  lemma StockIsAlwaysIssuable(b: Books, ops: seq<Op>, loc: Loc, q: real)
    requires Healthy(b) && AllWellPosed(ops) && q > 0.0 && loc.item in b.configured
    ensures Issuable(Run(b, ops), loc, q)
  {
    RunHealthy(b, ops);
    CoveredIsIssuable(Run(b, ops), loc, q);
  }

  /** Committing rewrites the order's active reservations and nothing else in the log. */
  lemma {:induction false} CommitUpToFrame(b: Books, order: nat, kind: MovementType, n: nat)
    requires n <= |b.log| && CommitUpTo(b, order, kind, n).Ok?
    ensures var d := CommitUpTo(b, order, kind, n).value;
            && d.configured == b.configured && d.stock == b.stock && |d.log| == |b.log|
            && (forall i :: n <= i < |b.log| ==> d.log[i] == b.log[i])
            && (forall i :: 0 <= i < n ==> !HeldBy(d.log[i], order))
            && (forall i :: 0 <= i < n && !HeldBy(b.log[i], order) ==> d.log[i] == b.log[i])
  {
    if n != 0 {
      CommitUpToFrame(b, order, kind, n - 1);
    }
  }

  lemma {:induction false} CommitUpToSucceeds(b: Books, order: nat, kind: MovementType, n: nat)
    requires Sound(b) && n <= |b.log|
    requires forall i :: 0 <= i < |b.log| && HeldBy(b.log[i], order) ==> b.log[i].loc.item in b.configured
    ensures CommitUpTo(b, order, kind, n).Ok? && Sound(CommitUpTo(b, order, kind, n).value)
  {
    if n != 0 {
      CommitUpToSucceeds(b, order, kind, n - 1);
      CommitUpToFrame(b, order, kind, n - 1);
      var d := CommitUpTo(b, order, kind, n - 1).value;
      if HeldBy(d.log[n - 1], order) {
        CommitOneSucceeds(d, n - 1, kind);
        CommitOneSound(d, n - 1, kind);
      }
    }
  }

  /** After any run a reservation of configured items can always be committed: its layers are still there. */
  lemma CommitAlwaysCosted(b: Books, ops: seq<Op>, order: nat, kind: MovementType)
    requires Healthy(b) && AllWellPosed(ops)
    requires forall i :: 0 <= i < |Run(b, ops).log| && HeldBy(Run(b, ops).log[i], order) ==> Run(b, ops).log[i].loc.item in b.configured
    ensures Commit(Run(b, ops), order, kind).Ok?
    ensures !HoldsReservation(Commit(Run(b, ops), order, kind).value.log, order, {Active})
  {
    RunHealthy(b, ops);
    CommitUpToSucceeds(Run(b, ops), order, kind, |Run(b, ops).log|);
    CommitUpToFrame(Run(b, ops), order, kind, |Run(b, ops).log|);
    var d := Commit(Run(b, ops), order, kind).value;
    forall i | 0 <= i < |d.log| && d.log[i].ref.Reservation? && d.log[i].ref.order == order
      ensures d.log[i].ref.status !in {Active}
    {
      assert !HeldBy(d.log[i], order);
    }
  }

  // ------------------------------------------------------------------ value

  function Total(m: Movement): real { if m.cost.Some? then m.cost.value.totalCost else 0.0 }

  predicate ComesIn(m: Movement) { m.before.Some? && m.after.Some? && m.after.value > m.before.value }

  /** Stock-in and positive adjustments. */
  function Bought(): Movement -> real
  {
    (m: Movement) => if m.ref == NoReference && ComesIn(m) then Total(m) else 0.0
  }

  /** Sales, waste, negative adjustments and committed reservations. */
  function Issued(): Movement -> real
  {
    (m: Movement) =>
      if (m.ref == NoReference && !ComesIn(m)) || m.ref.OrderSale? || m.ref.Reservation? then Total(m) else 0.0
  }

  function ShippedOut(): Movement -> real
  {
    (m: Movement) => if m.ref.TransferShipment? then Total(m) else 0.0
  }

  function ReceivedIn(): Movement -> real
  {
    (m: Movement) => if m.ref.TransferReceipt? then Total(m) else 0.0
  }

  function InTransit(b: Books): real { SumBy(b.log, ShippedOut()) - SumBy(b.log, ReceivedIn()) }

  /** Layers, plus everything issued, plus goods in transit, less everything bought. */
  function Opening(b: Books): real
  {
    SumBy(b.layers, Worth()) + SumBy(b.log, Issued()) + InTransit(b) - SumBy(b.log, Bought())
  }

  lemma AppendFlows(log: seq<Movement>, m: Movement)
    ensures SumBy(log + [m], Issued()) == SumBy(log, Issued()) + Issued()(m)
    ensures SumBy(log + [m], Bought()) == SumBy(log, Bought()) + Bought()(m)
    ensures SumBy(log + [m], ShippedOut()) == SumBy(log, ShippedOut()) + ShippedOut()(m)
    ensures SumBy(log + [m], ReceivedIn()) == SumBy(log, ReceivedIn()) + ReceivedIn()(m)
  {
    SumBySnoc(log, m, Issued());
    SumBySnoc(log, m, Bought());
    SumBySnoc(log, m, ShippedOut());
    SumBySnoc(log, m, ReceivedIn());
  }

  lemma UpdateFlows(log: seq<Movement>, i: nat, m: Movement)
    requires i < |log| && log[i].ref.Reservation? && m.ref.Reservation?
    ensures SumBy(log[i := m], Issued()) == SumBy(log, Issued()) - Total(log[i]) + Total(m)
    ensures SumBy(log[i := m], Bought()) == SumBy(log, Bought())
    ensures SumBy(log[i := m], ShippedOut()) == SumBy(log, ShippedOut())
    ensures SumBy(log[i := m], ReceivedIn()) == SumBy(log, ReceivedIn())
  {
    SumByUpdate(log, i, m, Issued());
    SumByUpdate(log, i, m, Bought());
    SumByUpdate(log, i, m, ShippedOut());
    SumByUpdate(log, i, m, ReceivedIn());
  }

  lemma CreditOpening(b: Books, loc: Loc, q: real, parts: seq<Lot<real>>, cost: Cost, kind: MovementType, ref: Reference)
    requires CanDo(b, Crediting(loc, q, parts, cost, kind, ref))
    ensures Opening(Credit(b, loc, q, parts, cost, kind, ref)) == Opening(b)
  {
    var d := Credit(b, loc, q, parts, cost, kind, ref);
    AppendFlows(b.log, d.log[|b.log|]);
    SumByConcat(b.layers, NewRows(|b.layers|, loc, |b.log|, parts), Worth());
    NewRowsCover(|b.layers|, loc, |b.log|, parts, loc);
  }

  lemma DebitOpening(b: Books, loc: Loc, q: real, recorded: real, kind: MovementType, ref: Reference)
    requires CanDo(b, Debiting(loc, q, recorded, kind, ref))
    ensures Opening(Do(b, Debiting(loc, q, recorded, kind, ref))) == Opening(b)
  {
    var d := Do(b, Debiting(loc, q, recorded, kind, ref));
    AppendFlows(b.log, d.log[|b.log|]);
    ConsumeWorth(b.layers, loc, q);
  }

  lemma CommitOpening(b: Books, i: nat, kind: MovementType)
    requires Sound(b) && CanDo(b, Committing(i, kind))
    ensures Opening(Do(b, Committing(i, kind))) == Opening(b)
  {
    var d := Do(b, Committing(i, kind));
    assert MovementOk(b.log[i], i);
    UpdateFlows(b.log, i, d.log[i]);
    ConsumeWorth(b.layers, b.log[i].loc, b.log[i].quantity);
    assert d.log == b.log[i := d.log[i]];
  }

  lemma ReleaseOpening(b: Books, i: nat, status: ReservationStatus)
    requires Sound(b) && CanDo(b, Releasing(i, status))
    ensures Opening(Do(b, Releasing(i, status))) == Opening(b)
  {
    var d := Do(b, Releasing(i, status));
    var m := b.log[i];
    assert MovementOk(m, i);
    var changed := m.(ref := Reservation(m.ref.order, status));
    UpdateFlows(b.log, i, changed);
    AppendFlows(b.log[i := changed], d.log[|b.log|]);
    assert d.log == b.log[i := changed] + [d.log[|b.log|]];
  }

  /** Writing a movement without a cost moves no value. */
  lemma CostlessOpening(b: Books, d: Books, m: Movement)
    requires d.log == b.log + [m] && d.layers == b.layers && m.cost == None
    ensures Opening(d) == Opening(b)
  {
    AppendFlows(b.log, m);
  }

  lemma StepOpening(b: Books, s: Step)
    requires Sound(b) && CanDo(b, s)
    ensures Opening(Do(b, s)) == Opening(b)
  {
    match s
    case Crediting(loc, q, parts, cost, kind, ref) => CreditOpening(b, loc, q, parts, cost, kind, ref);
    case Debiting(loc, q, recorded, kind, ref) => DebitOpening(b, loc, q, recorded, kind, ref);
    case Noting(loc) => CostlessOpening(b, Note(b, loc), Note(b, loc).log[|b.log|]);
    case Holding(order, loc, q) => CostlessOpening(b, ReserveAt(b, order, loc, q), ReserveAt(b, order, loc, q).log[|b.log|]);
    case Committing(i, kind) => CommitOpening(b, i, kind);
    case Releasing(i, status) => ReleaseOpening(b, i, status);
    case Transferring(ts) =>
  }

  lemma {:induction false} PathOpening(b: Books, steps: seq<Step>)
    requires Healthy(b) && Legal(b, steps)
    ensures Opening(Play(b, steps)) == Opening(b)
  {
    if steps != [] {
      PathOpening(b, steps[..|steps| - 1]);
      PathHealthy(b, steps[..|steps| - 1]);
      StepOpening(Play(b, steps[..|steps| - 1]), steps[|steps| - 1]);
    }
  }

  /**
    Value conservation over every run: opening value plus everything bought is what is left in the
    layers, plus everything issued, plus what is on the road.
  */
  lemma {:induction false} RunConservesValue(b: Books, ops: seq<Op>)
    requires Healthy(b) && AllWellPosed(ops)
    ensures Opening(Run(b, ops)) == Opening(b)
  {
    if ops != [] {
      var c := Run(b, ops[..|ops| - 1]);
      RunConservesValue(b, ops[..|ops| - 1]);
      RunHealthy(b, ops[..|ops| - 1]);
      var steps := Decompose(c, ops[|ops| - 1]);
      PathOpening(c, steps);
    }
  }
}
