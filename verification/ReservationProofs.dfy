/**
  Reservations: what an order needs, when reserving it succeeds and what it writes, and what any run of
  reserving, committing, releasing, cancelling and expiring leaves unchanged.
*/
module ReservationProofs {
  import opened Fifo
  import opened InventoryLedger
  import opened LedgerInvariants
  import opened LedgerSteps
  import opened LedgerRuns

  // ------------------------------------------------------------------ what an order needs

  datatype BusinessType = RETAIL | CAFE | OTHER

  datatype RecipeLine = RecipeLine(item: nat, quantity: real)

  datatype OrderLine = OrderLine(item: Option<nat>, recipe: Option<seq<RecipeLine>>, quantity: real)

  datatype Need = Need(item: Option<nat>, quantity: real)

  function RecipeNeeds(recipe: seq<RecipeLine>, quantity: real): (r: seq<Need>)
    ensures |r| == |recipe|
  {
    seq(|recipe|, i requires 0 <= i < |recipe| => Need(Some(recipe[i].item), recipe[i].quantity * quantity))
  }

  function LineNeeds(business: BusinessType, l: OrderLine): seq<Need>
  {
    match business
    case RETAIL => [Need(l.item, l.quantity)]
    case CAFE => if l.recipe.Some? then RecipeNeeds(l.recipe.value, l.quantity) else []
    case OTHER => []
  }

  /** Everything the order's lines ask for, before merging. */
  function Needs(business: BusinessType, lines: seq<OrderLine>): seq<Need>
  {
    if lines == [] then [] else Needs(business, lines[..|lines| - 1]) + LineNeeds(business, lines[|lines| - 1])
  }

  predicate Counts(n: Need) { n.item.Some? && n.quantity > 0.0 }

  function NeededOf(item: nat): Need -> real
  {
    (n: Need) => if Counts(n) && n.item.value == item then n.quantity else 0.0
  }

  function RequiredOf(item: nat): Requirement -> real { (r: Requirement) => if r.item == item then r.quantity else 0.0 }

  predicate DistinctRequirements(reqs: seq<Requirement>)
  {
    && (forall i :: 0 <= i < |reqs| ==> reqs[i].quantity > 0.0)
    && (forall i, j :: 0 <= i < j < |reqs| ==> reqs[i].item != reqs[j].item)
  }

  /** Requirements that merge some needs: one positive requirement per needed item, with their exact sum. */
  ghost predicate Merges(reqs: seq<Requirement>, needs: seq<Need>)
  {
    DistinctRequirements(reqs) && forall item: nat :: SumBy(reqs, RequiredOf(item)) == SumBy(needs, NeededOf(item))
  }

  lemma NeedsSnoc(needs: seq<Need>, n: Need)
    ensures forall item: nat :: SumBy(needs + [n], NeededOf(item)) == SumBy(needs, NeededOf(item)) + NeededOf(item)(n)
  {
    forall item: nat ensures SumBy(needs + [n], NeededOf(item)) == SumBy(needs, NeededOf(item)) + NeededOf(item)(n) {
      SumBySnoc(needs, n, NeededOf(item));
    }
  }

  /** More is needed of an item that has a requirement already. */
  lemma RaiseRequirement(reqs: seq<Requirement>, i: nat, q: real)
    requires DistinctRequirements(reqs) && i < |reqs| && q > 0.0
    ensures var merged := reqs[i := Requirement(reqs[i].item, reqs[i].quantity + q)];
            && DistinctRequirements(merged)
            && forall item: nat :: SumBy(merged, RequiredOf(item)) == SumBy(reqs, RequiredOf(item)) + if item == reqs[i].item then q else 0.0
  {
    var merged := reqs[i := Requirement(reqs[i].item, reqs[i].quantity + q)];
    forall item: nat ensures SumBy(merged, RequiredOf(item)) == SumBy(reqs, RequiredOf(item)) + if item == reqs[i].item then q else 0.0 {
      SumByUpdate(reqs, i, merged[i], RequiredOf(item));
    }
  }

  /** An item is needed for the first time. */
  lemma NewRequirement(reqs: seq<Requirement>, r: Requirement)
    requires DistinctRequirements(reqs) && r.quantity > 0.0 && forall k :: 0 <= k < |reqs| ==> reqs[k].item != r.item
    ensures DistinctRequirements(reqs + [r])
    ensures forall item: nat :: SumBy(reqs + [r], RequiredOf(item)) == SumBy(reqs, RequiredOf(item)) + if item == r.item then r.quantity else 0.0
  {
    forall item: nat ensures SumBy(reqs + [r], RequiredOf(item)) == SumBy(reqs, RequiredOf(item)) + if item == r.item then r.quantity else 0.0 {
      SumBySnoc(reqs, r, RequiredOf(item));
    }
  }

  method AddRequirement(reqs: seq<Requirement>, ghost needs: seq<Need>, n: Need) returns (merged: seq<Requirement>)
    requires Merges(reqs, needs)
    ensures Merges(merged, needs + [n])
  {
    NeedsSnoc(needs, n);
    if n.item.None? || n.quantity <= 0.0 { return reqs; }
    var i := 0;
    while i < |reqs| && reqs[i].item != n.item.value
      invariant i <= |reqs| && forall k :: 0 <= k < i ==> reqs[k].item != n.item.value
    {
      i := i + 1;
    }
    if i < |reqs| {
      RaiseRequirement(reqs, i, n.quantity);
      merged := reqs[i := Requirement(n.item.value, reqs[i].quantity + n.quantity)];
    } else {
      NewRequirement(reqs, Requirement(n.item.value, n.quantity));
      merged := reqs + [Requirement(n.item.value, n.quantity)];
    }
  }

  /** buildRequirements: one requirement per item, with everything the lines need of it. */
  method BuildRequirements(business: BusinessType, lines: seq<OrderLine>) returns (reqs: seq<Requirement>)
    ensures Merges(reqs, Needs(business, lines))
  {
    reqs := [];
    for i := 0 to |lines|
      invariant Merges(reqs, Needs(business, lines[..i]))
    {
      assert lines[..i + 1][..i] == lines[..i];
      ghost var before := Needs(business, lines[..i]);
      var needs := LineNeeds(business, lines[i]);
      assert before + needs[..0] == before;
      for k := 0 to |needs|
        invariant Merges(reqs, before + needs[..k])
      {
        reqs := AddRequirement(reqs, before + needs[..k], needs[k]);
        assert before + needs[..k] + [needs[k]] == before + needs[..k + 1];
      }
      assert before + needs[..|needs|] == Needs(business, lines[..i + 1]);
    }
    assert lines[..|lines|] == lines;
  }

  lemma {:induction false} RequirementExact(reqs: seq<Requirement>, i: nat)
    requires DistinctRequirements(reqs) && i < |reqs|
    ensures SumBy(reqs, RequiredOf(reqs[i].item)) == reqs[i].quantity
  {
    var n := |reqs| - 1;
    var item := reqs[i].item;
    if i < n {
      RequirementExact(reqs[..n], i);
    } else {
      SumByZero(reqs[..n], RequiredOf(item));
    }
  }

  // ------------------------------------------------------------------ when reserving succeeds

  /** What a location can give to a requirement of an item. */
  function Available(b: Books, item: nat): Loc -> real
  {
    (loc: Loc) => if Eligible(b, item, loc) then OnHand(b, loc) else 0.0
  }

  /** What an order actively holds of an item. */
  function HeldOf(order: nat, item: nat): Movement -> real
  {
    (m: Movement) => if HeldBy(m, order) && m.loc.item == item then m.quantity else 0.0
  }

  /** The requirement is met from the rows as far as they reach, and what is reserved is what is written. */
  lemma {:induction false} ReserveRowsMeans(b: Books, order: nat, r: Requirement, rows: seq<Loc>)
    requires r.quantity > 0.0
    ensures var s := ReserveRows(b, order, r, rows);
            && s.left == r.quantity - Min(r.quantity, SumBy(rows, Available(b, r.item)))
            && SumBy(rows, Available(b, r.item)) >= 0.0
            && (forall item: nat :: SumBy(s.books.log, HeldOf(order, item)) ==
                  SumBy(b.log, HeldOf(order, item)) + if item == r.item then r.quantity - s.left else 0.0)
            && (forall loc: Loc :: loc.item != r.item ==> OnHand(s.books, loc) == OnHand(b, loc))
  {
    if rows != [] {
      var n := |rows| - 1;
      ReserveRowsMeans(b, order, r, rows[..n]);
      var s, z := ReserveRows(b, order, r, rows[..n]), ReserveRows(b, order, r, rows);
      if z != s {
        forall item: nat ensures SumBy(z.books.log, HeldOf(order, item)) ==
                                 SumBy(s.books.log, HeldOf(order, item)) + if item == r.item then s.left - z.left else 0.0 {
          SumBySnoc(s.books.log, z.books.log[|s.books.log|], HeldOf(order, item));
        }
      }
    }
  }

  predicate Enough(b: Books, r: Requirement, rows: seq<Loc>) { SumBy(rows, Available(b, r.item)) >= r.quantity }

  predicate AllEnough(b: Books, reqs: seq<Requirement>, rows: seq<Loc>)
  {
    forall i :: 0 <= i < |reqs| ==> Enough(b, reqs[i], rows)
  }

  lemma SameAvailable(b: Books, d: Books, item: nat, rows: seq<Loc>)
    requires forall loc: Loc :: loc.item == item ==> OnHand(d, loc) == OnHand(b, loc)
    ensures SumBy(rows, Available(d, item)) == SumBy(rows, Available(b, item))
  {
    SameSums(rows, Available(d, item), Available(b, item));
  }

  lemma {:induction false} SameSums<T>(s: seq<T>, f: T -> real, g: T -> real)
    requires forall i :: 0 <= i < |s| ==> f(s[i]) == g(s[i])
    ensures SumBy(s, f) == SumBy(s, g)
  {
    if s != [] {
      SameSums(s[..|s| - 1], f, g);
    }
  }

  /** What is held of each item, and where stock moved, once some requirements were met. */
  ghost predicate Met(b: Books, d: Books, order: nat, reqs: seq<Requirement>)
  {
    && (forall item: nat :: SumBy(d.log, HeldOf(order, item)) == SumBy(b.log, HeldOf(order, item)) + SumBy(reqs, RequiredOf(item)))
    && (forall loc: Loc :: (forall i :: 0 <= i < |reqs| ==> reqs[i].item != loc.item) ==> OnHand(d, loc) == OnHand(b, loc))
  }

  lemma MetMore(b: Books, c: Books, d: Books, order: nat, reqs: seq<Requirement>, r: Requirement)
    requires Met(b, c, order, reqs)
    requires forall item: nat :: SumBy(d.log, HeldOf(order, item)) == SumBy(c.log, HeldOf(order, item)) + if item == r.item then r.quantity else 0.0
    requires forall loc: Loc :: loc.item != r.item ==> OnHand(d, loc) == OnHand(c, loc)
    ensures Met(b, d, order, reqs + [r])
  {
    var all := reqs + [r];
    forall item: nat ensures SumBy(d.log, HeldOf(order, item)) == SumBy(b.log, HeldOf(order, item)) + SumBy(all, RequiredOf(item)) {
      SumBySnoc(reqs, r, RequiredOf(item));
    }
    forall loc: Loc | forall i :: 0 <= i < |all| ==> all[i].item != loc.item ensures OnHand(d, loc) == OnHand(b, loc) {
      assert all[|reqs|].item != loc.item;
      assert forall i :: 0 <= i < |reqs| ==> all[i] == reqs[i];
    }
  }

  lemma NothingMet(b: Books, order: nat)
    ensures Met(b, b, order, [])
  {
  }

  /** One more requirement, of an item that none before it was of. */
  lemma ReserveNext(b: Books, c: Books, order: nat, reqs: seq<Requirement>, r: Requirement, rows: seq<Loc>)
    requires Met(b, c, order, reqs) && r.quantity > 0.0 && forall i :: 0 <= i < |reqs| ==> reqs[i].item != r.item
    ensures var s := ReserveRows(c, order, r, rows);
            (s.left <= 0.0 <==> Enough(b, r, rows)) && (s.left <= 0.0 ==> Met(b, s.books, order, reqs + [r]))
  {
    ReserveRowsMeans(c, order, r, rows);
    SameAvailable(b, c, r.item, rows);
    var s := ReserveRows(c, order, r, rows);
    if s.left <= 0.0 { MetMore(b, c, s.books, order, reqs, r); }
  }

  /**
    Reserving merged requirements succeeds exactly when, for each of them, the eligible rows hold enough;
    and then the order's new reservations of each item sum to its requirement, no more and no less.
  */
  lemma {:induction false} ReserveAllMeans(b: Books, order: nat, reqs: seq<Requirement>, rows: seq<Loc>)
    requires DistinctRequirements(reqs)
    ensures ReserveAll(b, order, reqs, rows).Ok? <==> AllEnough(b, reqs, rows)
    ensures ReserveAll(b, order, reqs, rows).Ok? ==> Met(b, ReserveAll(b, order, reqs, rows).value, order, reqs)
  {
    if reqs == [] {
      NothingMet(b, order);
    } else {
      var n := |reqs| - 1;
      ReserveAllMeans(b, order, reqs[..n], rows);
      EnoughForAll(b, reqs, rows);
      if ReserveAll(b, order, reqs[..n], rows).Ok? { ReserveLast(b, order, reqs, rows); }
    }
  }

  lemma EnoughForAll(b: Books, reqs: seq<Requirement>, rows: seq<Loc>)
    requires reqs != []
    ensures AllEnough(b, reqs, rows) <==> AllEnough(b, reqs[..|reqs| - 1], rows) && Enough(b, reqs[|reqs| - 1], rows)
  {
  }

  lemma ReserveLast(b: Books, order: nat, reqs: seq<Requirement>, rows: seq<Loc>)
    requires reqs != [] && DistinctRequirements(reqs) && ReserveAll(b, order, reqs[..|reqs| - 1], rows).Ok?
    requires Met(b, ReserveAll(b, order, reqs[..|reqs| - 1], rows).value, order, reqs[..|reqs| - 1])
    ensures ReserveAll(b, order, reqs, rows).Ok? <==> Enough(b, reqs[|reqs| - 1], rows)
    ensures ReserveAll(b, order, reqs, rows).Ok? ==> Met(b, ReserveAll(b, order, reqs, rows).value, order, reqs)
  {
    var n := |reqs| - 1;
    ReserveNext(b, ReserveAll(b, order, reqs[..n], rows).value, order, reqs[..n], reqs[n], rows);
    assert reqs == reqs[..n] + [reqs[n]];
  }

  predicate HoldsNothing(b: Books, order: nat) { !HoldsReservation(b.log, order, {Active, Committed}) }

  lemma {:induction false} NothingHeld(log: seq<Movement>, order: nat, item: nat)
    requires !HoldsReservation(log, order, {Active, Committed})
    ensures SumBy(log, HeldOf(order, item)) == 0.0
  {
    forall i | 0 <= i < |log| ensures HeldOf(order, item)(log[i]) == 0.0 {
      assert !HeldBy(log[i], order);
    }
    SumByZero(log, HeldOf(order, item));
  }

  /**
    Reserving an order is all or nothing: with enough eligible stock for each merged requirement the
    order then holds exactly what its lines need of every item; otherwise nothing changes.
  */
  lemma ReserveIsComplete(b: Books, order: nat, reqs: seq<Requirement>, needs: seq<Need>, rows: seq<Loc>)
    requires Merges(reqs, needs) && HoldsNothing(b, order)
    ensures AllEnough(b, reqs, rows) <==> Reserve(b, order, reqs, rows).Ok?
    ensures AllEnough(b, reqs, rows) ==>
              forall item: nat :: SumBy(Apply(b, OpReserve(order, reqs, rows)).log, HeldOf(order, item)) == SumBy(needs, NeededOf(item))
    ensures !AllEnough(b, reqs, rows) ==> Apply(b, OpReserve(order, reqs, rows)) == b
  {
    ReserveAllMeans(b, order, reqs, rows);
    forall item: nat ensures SumBy(b.log, HeldOf(order, item)) == 0.0 { NothingHeld(b.log, order, item); }
  }

  // ------------------------------------------------------------------ conservation

  /** Active and committed reservations at a location. */
  function TakenAt(loc: Loc): Movement -> real
  {
    (m: Movement) => if m.loc == loc && m.ref.Reservation? && m.ref.status in {Active, Committed} then m.quantity else 0.0
  }

  /** Stock on hand together with what reservations hold or have used. */
  function Kept(b: Books, loc: Loc): real { OnHand(b, loc) + SumBy(b.log, TakenAt(loc)) }

  lemma {:induction false} ReserveRowsKeeps(b: Books, order: nat, r: Requirement, rows: seq<Loc>, loc: Loc)
    requires Distinct(rows)
    ensures Kept(ReserveRows(b, order, r, rows).books, loc) == Kept(b, loc)
  {
    if rows != [] {
      var n := |rows| - 1;
      ReserveRowsKeeps(b, order, r, rows[..n], loc);
      ReserveRowsOnHand(b, order, r, rows[..n], rows[n]);
      var s, z := ReserveRows(b, order, r, rows[..n]), ReserveRows(b, order, r, rows);
      if z != s { SumBySnoc(s.books.log, z.books.log[|s.books.log|], TakenAt(loc)); }
    }
  }

  lemma {:induction false} ReserveAllKeeps(b: Books, order: nat, reqs: seq<Requirement>, rows: seq<Loc>, loc: Loc)
    requires Distinct(rows) && ReserveAll(b, order, reqs, rows).Ok?
    ensures Kept(ReserveAll(b, order, reqs, rows).value, loc) == Kept(b, loc)
  {
    if reqs != [] {
      var n := |reqs| - 1;
      ReserveAllKeeps(b, order, reqs[..n], rows, loc);
      ReserveRowsKeeps(ReserveAll(b, order, reqs[..n], rows).value, order, reqs[n], rows, loc);
    }
  }

  lemma CommitOneKeeps(b: Books, i: nat, kind: MovementType, loc: Loc)
    requires i < |b.log| && IsActive(b.log[i]) && CommitOne(b, i, kind).Ok?
    ensures Kept(CommitOne(b, i, kind).value, loc) == Kept(b, loc)
  {
    var d := CommitOne(b, i, kind).value;
    SumByUpdate(b.log, i, d.log[i], TakenAt(loc));
    assert d.log == b.log[i := d.log[i]];
  }

  lemma {:induction false} CommitKeeps(b: Books, order: nat, kind: MovementType, n: nat, loc: Loc)
    requires n <= |b.log| && CommitUpTo(b, order, kind, n).Ok?
    ensures Kept(CommitUpTo(b, order, kind, n).value, loc) == Kept(b, loc)
  {
    if n != 0 {
      CommitKeeps(b, order, kind, n - 1, loc);
      var d := CommitUpTo(b, order, kind, n - 1).value;
      if HeldBy(d.log[n - 1], order) { CommitOneKeeps(d, n - 1, kind, loc); }
    }
  }

  lemma ReleaseOneKeeps(b: Books, i: nat, status: ReservationStatus, loc: Loc)
    requires i < |b.log| && IsActive(b.log[i]) && status in {Released, Cancelled, Expired} && ReleaseOne(b, i, status).Ok?
    ensures Kept(ReleaseOne(b, i, status).value, loc) == Kept(b, loc)
  {
    var d := ReleaseOne(b, i, status).value;
    var changed := b.log[i].(ref := Reservation(b.log[i].ref.order, status));
    SumByUpdate(b.log, i, changed, TakenAt(loc));
    SumBySnoc(b.log[i := changed], d.log[|b.log|], TakenAt(loc));
    assert d.log == b.log[i := changed] + [d.log[|b.log|]];
  }

  lemma {:induction false} ReleaseKeeps(b: Books, claim: Claim, status: ReservationStatus, n: nat, loc: Loc)
    requires n <= |b.log| && status in {Released, Cancelled, Expired} && ReleaseUpTo(b, claim, status, n).Ok?
    ensures Kept(ReleaseUpTo(b, claim, status, n).value, loc) == Kept(b, loc)
  {
    if n != 0 {
      ReleaseKeeps(b, claim, status, n - 1, loc);
      var d := ReleaseUpTo(b, claim, status, n - 1).value;
      if Claims(claim, d.log[n - 1]) { ReleaseOneKeeps(d, n - 1, status, loc); }
    }
  }

  predicate ForReservations(op: Op) { op.OpReserve? || op.OpCommit? || op.OpRelease? }

  predicate AllForReservations(ops: seq<Op>) { forall i :: 0 <= i < |ops| ==> ForReservations(ops[i]) }

  lemma ApplyKeeps(b: Books, op: Op, loc: Loc)
    requires ForReservations(op) && WellPosed(op)
    ensures Kept(Apply(b, op), loc) == Kept(b, loc)
  {
    if Attempt(b, op).Ok? {
      match op
      case OpReserve(o, reqs, rows) =>
        if !HoldsReservation(b.log, o, {Active, Committed}) { ReserveAllKeeps(b, o, reqs, rows, loc); }
      case OpCommit(o, kind) => CommitKeeps(b, o, kind, |b.log|, loc);
      case OpRelease(c, s) => ReleaseKeeps(b, c, s, |b.log|, loc);
    }
  }

  /**
    Over any run of reserving, committing, releasing, cancelling and expiring, stock plus active plus
    committed quantity at each location is constant, and stock is never negative.
  */
  lemma {:induction false} ReservationsConserve(b: Books, ops: seq<Op>, loc: Loc)
    requires Healthy(b) && AllForReservations(ops) && AllWellPosed(ops)
    ensures Kept(Run(b, ops), loc) == Kept(b, loc) && OnHand(Run(b, ops), loc) >= 0.0
  {
    RunHealthy(b, ops);
    assert OnHand(Run(b, ops), loc) >= 0.0;
    if ops != [] {
      ReservationsConserve(b, ops[..|ops| - 1], loc);
      ApplyKeeps(Run(b, ops[..|ops| - 1]), ops[|ops| - 1], loc);
    }
  }

  // ------------------------------------------------------------------ restored at most once

  /** A reservation that was committed, released, cancelled or expired. */
  predicate Closed(m: Movement) { m.ref.Reservation? && m.ref.status != Active }

  /** Reservations given back, and the movements that gave them back. */
  function GivenBack(order: nat, loc: Loc): Movement -> real
  {
    (m: Movement) =>
      if m.loc == loc && m.ref.Reservation? && m.ref.order == order && m.ref.status in {Released, Cancelled, Expired} then m.quantity
      else if m.loc == loc && m.ref == ReservationRelease(order) then -m.quantity
      else 0.0
  }

  /** Closed reservations keep their state, and what was given back stays accounted for. */
  predicate Accounted(log: seq<Movement>, log2: seq<Movement>, order: nat, loc: Loc)
  {
    && SumBy(log2, GivenBack(order, loc)) == SumBy(log, GivenBack(order, loc))
    && |log| <= |log2| && forall i :: 0 <= i < |log| && Closed(log[i]) ==> log2[i].ref == log[i].ref
  }

  lemma AppendAccounted(log: seq<Movement>, m: Movement, order: nat, loc: Loc)
    requires !m.ref.ReservationRelease? && (m.ref.Reservation? ==> m.ref.status == Active)
    ensures Accounted(log, log + [m], order, loc)
  {
    SumBySnoc(log, m, GivenBack(order, loc));
  }

  lemma CommitAccounted(log: seq<Movement>, i: nat, m: Movement, order: nat, loc: Loc)
    requires i < |log| && IsActive(log[i]) && m.ref == Reservation(log[i].ref.order, Committed)
    ensures Accounted(log, log[i := m], order, loc)
  {
    SumByUpdate(log, i, m, GivenBack(order, loc));
  }

  lemma ReleaseAccounted(log: seq<Movement>, i: nat, m: Movement, r: Movement, order: nat, loc: Loc)
    requires i < |log| && IsActive(log[i]) && m.loc == log[i].loc == r.loc && m.quantity == r.quantity
    requires m.ref.Reservation? && m.ref.order == log[i].ref.order && m.ref.status in {Released, Cancelled, Expired}
    requires r.ref == ReservationRelease(m.ref.order)
    ensures Accounted(log, log[i := m] + [r], order, loc)
  {
    SumByUpdate(log, i, m, GivenBack(order, loc));
    SumBySnoc(log[i := m], r, GivenBack(order, loc));
  }

  lemma StepRestoresOnce(b: Books, s: Step, order: nat, loc: Loc)
    requires Sound(b) && CanDo(b, s)
    ensures Accounted(b.log, Do(b, s).log, order, loc)
  {
    var d := Do(b, s);
    match s
    case Committing(i, kind) => CommitAccounted(b.log, i, d.log[i], order, loc);
    case Releasing(i, status) =>
      ReleaseAccounted(b.log, i, b.log[i].(ref := Reservation(b.log[i].ref.order, status)), d.log[|b.log|], order, loc);
    case Transferring(_) =>
    case _ => AppendAccounted(b.log, d.log[|b.log|], order, loc);
  }

  lemma {:induction false} PathRestoresOnce(b: Books, steps: seq<Step>, order: nat, loc: Loc)
    requires Healthy(b) && Legal(b, steps)
    ensures Accounted(b.log, Play(b, steps).log, order, loc)
  {
    if steps != [] {
      var n := |steps| - 1;
      PathRestoresOnce(b, steps[..n], order, loc);
      PathHealthy(b, steps[..n]);
      StepRestoresOnce(Play(b, steps[..n]), steps[n], order, loc);
    }
  }

  /**
    Over any run of any transactions: what was returned to a location for an order is exactly what its
    released, cancelled and expired reservations there held, so each is restored once; and a reservation
    that was closed, by a commit for example, keeps its state for good.
  */
  lemma {:induction false} RestoredOnce(b: Books, ops: seq<Op>, order: nat, loc: Loc)
    requires Healthy(b) && AllWellPosed(ops)
    ensures SumBy(Run(b, ops).log, GivenBack(order, loc)) == SumBy(b.log, GivenBack(order, loc))
    ensures |b.log| <= |Run(b, ops).log| && forall i :: 0 <= i < |b.log| && Closed(b.log[i]) ==> Run(b, ops).log[i].ref == b.log[i].ref
  {
    if ops != [] {
      var n := |ops| - 1;
      RestoredOnce(b, ops[..n], order, loc);
      RunHealthy(b, ops[..n]);
      var steps := Decompose(Run(b, ops[..n]), ops[n]);
      PathRestoresOnce(Run(b, ops[..n]), steps, order, loc);
    }
  }
}
