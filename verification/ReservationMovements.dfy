/**
  What reserving, committing and releasing do, read off the books themselves: which rows a reservation is
  taken from, which units a commitment uses up, and what a release gives back.
*/
module ReservationMovements {
  import opened Fifo
  import opened InventoryLedger
  import opened LedgerInvariants
  import opened LedgerSteps
  import opened LedgerRuns
  import opened StockMovements
  import opened ReservationProofs

  // ------------------------------------------------------------------ committing

  function HeldAt(order: nat, loc: Loc): Movement -> real
  {
    (m: Movement) => if HeldBy(m, order) && m.loc == loc then m.quantity else 0.0
  }

  /** What the first n movements of the log hold for an order at each location. */
  function Held(log: seq<Movement>, n: nat, order: nat): Loc -> real
    requires n <= |log|
  {
    (loc: Loc) => SumBy(log[..n], HeldAt(order, loc))
  }

  /** A committed reservation: of the given kind, costed by units that make up its quantity. */
  predicate CommittedAs(was: Movement, now: Movement, kind: MovementType)
  {
    && was.ref.Reservation? && was.quantity > 0.0
    && now == was.(ref := Reservation(was.ref.order, Committed), kind := kind, cost := now.cost, allocations := now.allocations)
    && Positive(now.allocations) && Sum(now.allocations) == was.quantity && now.cost == Some(CostOf(now.allocations, was.quantity))
  }

  /** The queues once some quantity has been used at each location; the stock rows are untouched. */
  ghost predicate UsedUp(b: Books, d: Books, used: Loc -> real)
  {
    && SameSetting(b, d) && d.stock == b.stock && SameRows(b.layers, d.layers)
    && forall l: Loc :: used(l) >= 0.0 && Queue(d, l) == Drop(Queue(b, l), used(l))
  }

  predicate CommitsLog(b: Books, d: Books, order: nat, kind: MovementType, n: nat)
    requires n <= |b.log|
  {
    && |d.log| == |b.log|
    && forall i :: 0 <= i < |b.log| ==>
         if i < n && HeldBy(b.log[i], order) then CommittedAs(b.log[i], d.log[i], kind) else d.log[i] == b.log[i]
  }

  lemma CommitOneUses(c: Books, i: nat, kind: MovementType)
    requires Sound(c) && i < |c.log| && IsActive(c.log[i]) && CommitOne(c, i, kind).Ok?
    ensures var d := CommitOne(c, i, kind).value;
            && SameSetting(c, d) && d.stock == c.stock && SameRows(c.layers, d.layers)
            && d.log == c.log[i := d.log[i]] && CommittedAs(c.log[i], d.log[i], kind)
            && (forall l: Loc :: Queue(d, l) == if l == c.log[i].loc then Drop(Queue(c, l), c.log[i].quantity) else Queue(c, l))
  {
    var d, m := CommitOne(c, i, kind).value, c.log[i];
    assert MovementOk(m, i);
    ConsumeMeaning(c.layers, m.loc, m.quantity);
    ConsumeQueues(c.layers, m.loc, m.quantity);
    SplitQuantity(Queue(c, m.loc), m.quantity);
  }

  lemma UsedMore(b: Books, c: Books, d: Books, used: Loc -> real, loc: Loc, q: real, after: Loc -> real)
    requires UsedUp(b, c, used) && q > 0.0 && SameSetting(c, d) && d.stock == c.stock && SameRows(c.layers, d.layers)
    requires forall l: Loc :: Queue(d, l) == if l == loc then Drop(Queue(c, l), q) else Queue(c, l)
    requires forall l: Loc :: after(l) == used(l) + if l == loc then q else 0.0
    ensures UsedUp(b, d, after)
  {
    SameRowsOn(b.layers, c.layers, d.layers);
    forall l: Loc ensures after(l) >= 0.0 && Queue(d, l) == Drop(Queue(b, l), after(l)) {
      assert used(l) >= 0.0;
      GoneMore(Queue(b, l), Queue(c, l), Queue(d, l), used(l), if l == loc then q else 0.0, after(l));
    }
  }

  lemma HeldMore(log: seq<Movement>, n: nat, order: nat)
    requires n < |log|
    ensures forall l: Loc :: Held(log, n + 1, order)(l) ==
              Held(log, n, order)(l) + if HeldBy(log[n], order) && l == log[n].loc then log[n].quantity else 0.0
  {
    assert log[..n + 1][..n] == log[..n];
  }

  lemma HeldSame(b: Books, c: Books, used: Loc -> real, after: Loc -> real)
    requires UsedUp(b, c, used) && forall l: Loc :: after(l) == used(l)
    ensures UsedUp(b, c, after)
  {
  }

  lemma OneMoreCommitted(b: Books, c: Books, d: Books, order: nat, kind: MovementType, n: nat)
    requires n < |b.log| && UsedUp(b, c, Held(b.log, n, order)) && CommitsLog(b, c, order, kind, n) && Sound(c)
    requires HeldBy(c.log[n], order) && CommitOne(c, n, kind) == Ok(d)
    ensures UsedUp(b, d, Held(b.log, n + 1, order)) && CommitsLog(b, d, order, kind, n + 1)
  {
    HeldMore(b.log, n, order);
    CommitOneUses(c, n, kind);
    assert c.log[n] == b.log[n];
    UsedMore(b, c, d, Held(b.log, n, order), c.log[n].loc, c.log[n].quantity, Held(b.log, n + 1, order));
  }

  /** What a commitment in progress has done. */
  ghost predicate CommittedSoFar(b: Books, d: Books, order: nat, kind: MovementType, n: nat)
  {
    n <= |b.log| && UsedUp(b, d, Held(b.log, n, order)) && CommitsLog(b, d, order, kind, n) && Sound(d)
  }

  lemma CommitVisits(b: Books, c: Books, d: Books, order: nat, kind: MovementType, n: nat)
    requires 0 < n <= |b.log| && CommittedSoFar(b, c, order, kind, n - 1) && |c.log| == |b.log|
    requires if HeldBy(c.log[n - 1], order) then CommitOne(c, n - 1, kind) == Ok(d) else d == c
    ensures CommittedSoFar(b, d, order, kind, n)
  {
    assert c.log[n - 1] == b.log[n - 1];
    if HeldBy(c.log[n - 1], order) {
      CommitOneSound(c, n - 1, kind);
      OneMoreCommitted(b, c, d, order, kind, n - 1);
    } else {
      HeldMore(b.log, n - 1, order);
      HeldSame(b, c, Held(b.log, n - 1, order), Held(b.log, n, order));
    }
  }

  lemma NothingCommitted(b: Books, order: nat, kind: MovementType)
    requires Sound(b)
    ensures CommittedSoFar(b, b, order, kind, 0)
  {
    forall l: Loc ensures Queue(b, l) == Drop(Queue(b, l), Held(b.log, 0, order)(l)) { DropNothing(Queue(b, l), 0.0); }
  }

  lemma CommitOneMore(b: Books, order: nat, kind: MovementType, n: nat, d: Books) returns (c: Books)
    requires 0 < n <= |b.log| && CommitUpTo(b, order, kind, n) == Ok(d)
    ensures CommitUpTo(b, order, kind, n - 1) == Ok(c) && |c.log| == |b.log|
    ensures if HeldBy(c.log[n - 1], order) then CommitOne(c, n - 1, kind) == Ok(d) else d == c
  {
    c := CommitUpTo(b, order, kind, n - 1).value;
  }

  lemma {:induction false} CommitUpToEffect(b: Books, order: nat, kind: MovementType, n: nat, d: Books)
    requires Sound(b) && n <= |b.log| && CommitUpTo(b, order, kind, n) == Ok(d)
    ensures CommittedSoFar(b, d, order, kind, n)
  {
    if n == 0 {
      NothingCommitted(b, order, kind);
    } else {
      var c := CommitOneMore(b, order, kind, n, d);
      CommitUpToEffect(b, order, kind, n - 1, c);
      CommitVisits(b, c, d, order, kind, n);
    }
  }

  /**
    Committing an order's reservations moves no stock.  At every location it uses exactly the oldest units
    the order holds there, and it turns each active reservation of the order into one of the given kind,
    costed by units of its own quantity.  Nothing else in the log changes.
  */
  lemma CommitEffect(b: Books, order: nat, kind: MovementType)
    requires Sound(b) && Commit(b, order, kind).Ok?
    ensures var d := Commit(b, order, kind).value;
            UsedUp(b, d, Held(b.log, |b.log|, order)) && CommitsLog(b, d, order, kind, |b.log|)
  {
    CommitUpToEffect(b, order, kind, |b.log|, Commit(b, order, kind).value);
  }

  // ------------------------------------------------------------------ releasing

  function ClaimedAt(claim: Claim, loc: Loc): Movement -> real
  {
    (m: Movement) => if Claims(claim, m) && m.loc == loc then m.quantity else 0.0
  }

  /** The reservations a release claims, in the order of the log. */
  function Claimed(claim: Claim, log: seq<Movement>): seq<Movement>
  {
    if log == [] then []
    else
      var m := log[|log| - 1];
      Claimed(claim, log[..|log| - 1]) + if Claims(claim, m) then [m] else []
  }

  /** The movement that gives a reservation back. */
  predicate GivesBack(m: Movement, r: Movement)
  {
    && r.loc == m.loc && r.kind == RETURN && r.quantity == m.quantity && m.ref.Reservation?
    && r.ref == ReservationRelease(m.ref.order) && r.before.Some? && r.after == Some(r.before.value + m.quantity)
    && r.cost == None && r.allocations == []
  }

  predicate GivesAllBack(ms: seq<Movement>, rs: seq<Movement>)
  {
    |rs| == |ms| && forall k :: 0 <= k < |ms| ==> GivesBack(ms[k], rs[k])
  }

  predicate ReleasesLog(log: seq<Movement>, log2: seq<Movement>, claim: Claim, status: ReservationStatus, n: nat)
  {
    && n <= |log| <= |log2|
    && (forall i :: 0 <= i < |log| ==>
          log2[i] == if i < n && Claims(claim, log[i]) then log[i].(ref := Reservation(log[i].ref.order, status)) else log[i])
    && GivesAllBack(Claimed(claim, log[..n]), log2[|log|..])
  }

  /** The first n movements visited: what was claimed among them is on the stock rows again. */
  ghost predicate ReleasedSoFar(b: Books, d: Books, claim: Claim, status: ReservationStatus, n: nat)
  {
    && n <= |b.log| && SameSetting(b, d) && d.layers == b.layers && Sound(d)
    && ReleasesLog(b.log, d.log, claim, status, n)
    && forall l: Loc :: OnHand(d, l) == OnHand(b, l) + SumBy(b.log[..n], ClaimedAt(claim, l))
  }

  lemma ClaimedMore(claim: Claim, log: seq<Movement>, n: nat)
    requires 0 < n <= |log|
    ensures Claimed(claim, log[..n]) == Claimed(claim, log[..n - 1]) + if Claims(claim, log[n - 1]) then [log[n - 1]] else []
    ensures forall l: Loc :: SumBy(log[..n], ClaimedAt(claim, l)) ==
              SumBy(log[..n - 1], ClaimedAt(claim, l)) + ClaimedAt(claim, l)(log[n - 1])
  {
    assert log[..n][..n - 1] == log[..n - 1];
  }

  lemma ReleasesMore(log: seq<Movement>, mid: seq<Movement>, log2: seq<Movement>, r: Movement, claim: Claim, status: ReservationStatus, n: nat)
    requires 0 < n <= |log| && ReleasesLog(log, mid, claim, status, n - 1) && Claims(claim, log[n - 1]) && GivesBack(log[n - 1], r)
    requires log2 == mid[n - 1 := log[n - 1].(ref := Reservation(log[n - 1].ref.order, status))] + [r]
    ensures ReleasesLog(log, log2, claim, status, n)
  {
    ClaimedMore(claim, log, n);
    assert log2[|log|..] == mid[|log|..] + [r];
  }

  lemma ReleasesSame(log: seq<Movement>, mid: seq<Movement>, claim: Claim, status: ReservationStatus, n: nat)
    requires 0 < n <= |log| && ReleasesLog(log, mid, claim, status, n - 1) && !Claims(claim, log[n - 1])
    ensures ReleasesLog(log, mid, claim, status, n)
  {
    ClaimedMore(claim, log, n);
    assert Claimed(claim, log[..n]) == Claimed(claim, log[..n - 1]);
  }

  /** One reservation is given back. */
  ghost predicate ReleasesOne(c: Books, d: Books, i: nat, status: ReservationStatus)
  {
    && i < |c.log| && c.log[i].ref.Reservation? && SameSetting(c, d) && d.layers == c.layers && Sound(d)
    && |d.log| == |c.log| + 1 && GivesBack(c.log[i], d.log[|c.log|])
    && d.log == c.log[i := c.log[i].(ref := Reservation(c.log[i].ref.order, status))] + [d.log[|c.log|]]
    && forall l: Loc :: OnHand(d, l) == OnHand(c, l) + if l == c.log[i].loc then c.log[i].quantity else 0.0
  }

  lemma ReleaseOneWrites(c: Books, i: nat, status: ReservationStatus)
    requires Sound(c) && i < |c.log| && IsActive(c.log[i]) && status != Active
    ensures ReleaseOne(c, i, status).Ok? && ReleasesOne(c, ReleaseOne(c, i, status).value, i, status)
  {
    assert MovementOk(c.log[i], i);
    ReleaseIsReturn(c, i, status);
    ReleaseOneSound(c, i, status);
  }

  lemma ReleaseVisits(b: Books, c: Books, d: Books, claim: Claim, status: ReservationStatus, n: nat)
    requires 0 < n <= |b.log| && ReleasedSoFar(b, c, claim, status, n - 1)
    requires if Claims(claim, c.log[n - 1]) then ReleasesOne(c, d, n - 1, status) else d == c
    ensures ReleasedSoFar(b, d, claim, status, n)
  {
    var m := b.log[n - 1];
    assert c.log[n - 1] == m;
    ClaimedMore(claim, b.log, n);
    if Claims(claim, m) {
      ReleasesMore(b.log, c.log, d.log, d.log[|c.log|], claim, status, n);
    } else {
      ReleasesSame(b.log, c.log, claim, status, n);
    }
  }

  lemma NothingReleased(b: Books, claim: Claim, status: ReservationStatus)
    requires Sound(b)
    ensures ReleasedSoFar(b, b, claim, status, 0)
  {
  }

  lemma ReleaseOneMore(b: Books, claim: Claim, status: ReservationStatus, n: nat, c: Books)
    requires 0 < n <= |b.log| && ReleaseUpTo(b, claim, status, n - 1) == Ok(c)
    ensures |c.log| >= |b.log|
    ensures ReleaseUpTo(b, claim, status, n) == if Claims(claim, c.log[n - 1]) then ReleaseOne(c, n - 1, status) else Ok(c)
  {
  }

  lemma {:induction false} ReleaseUpToEffect(b: Books, claim: Claim, status: ReservationStatus, n: nat) returns (d: Books)
    requires Sound(b) && n <= |b.log| && status != Active
    ensures ReleaseUpTo(b, claim, status, n) == Ok(d)
    ensures ReleasedSoFar(b, d, claim, status, n)
  {
    if n == 0 {
      d := b;
      NothingReleased(b, claim, status);
    } else {
      var c := ReleaseUpToEffect(b, claim, status, n - 1);
      ReleaseOneMore(b, claim, status, n, c);
      d := ReleaseNext(b, c, claim, status, n);
    }
  }

  lemma ReleaseNext(b: Books, c: Books, claim: Claim, status: ReservationStatus, n: nat) returns (d: Books)
    requires 0 < n <= |b.log| && ReleasedSoFar(b, c, claim, status, n - 1) && status != Active && |c.log| >= |b.log|
    ensures if Claims(claim, c.log[n - 1]) then ReleaseOne(c, n - 1, status) == Ok(d) else d == c
    ensures ReleasedSoFar(b, d, claim, status, n)
  {
    d := c;
    if Claims(claim, c.log[n - 1]) {
      ReleaseOneWrites(c, n - 1, status);
      d := ReleaseOne(c, n - 1, status).value;
    }
    ReleaseVisits(b, c, d, claim, status, n);
  }

  /**
    Releasing, cancelling and expiring always succeed.  Every claimed reservation takes the given state, its
    quantity goes back on its stock row with one return movement, and no layer and no other movement changes.
  */
  lemma ReleaseEffect(b: Books, claim: Claim, status: ReservationStatus)
    requires Sound(b) && status in {Released, Cancelled, Expired}
    ensures Attempt(b, OpRelease(claim, status)).Ok?
    ensures ReleasesAll(b, Apply(b, OpRelease(claim, status)), claim, status)
  {
    var d := ReleaseWhole(b, claim, status);
    ReleaseApplied(b, claim, status, d);
  }

  lemma ReleaseWhole(b: Books, claim: Claim, status: ReservationStatus) returns (d: Books)
    requires Sound(b) && status != Active
    ensures Release(b, claim, status) == Ok(d)
    ensures ReleasesAll(b, d, claim, status)
  {
    d := ReleaseUpToEffect(b, claim, status, |b.log|);
    ReleasedToTheEnd(b, d, claim, status);
  }

  lemma ReleaseApplied(b: Books, claim: Claim, status: ReservationStatus, d: Books)
    requires Release(b, claim, status) == Ok(d) && status in {Released, Cancelled, Expired}
    ensures Attempt(b, OpRelease(claim, status)).Ok? && Apply(b, OpRelease(claim, status)) == d
  {
  }

  ghost predicate ReleasesAll(b: Books, d: Books, claim: Claim, status: ReservationStatus)
  {
    && d.layers == b.layers && ReleasesLog(b.log, d.log, claim, status, |b.log|)
    && forall l: Loc :: OnHand(d, l) == OnHand(b, l) + SumBy(b.log, ClaimedAt(claim, l))
  }

  lemma ReleasedToTheEnd(b: Books, d: Books, claim: Claim, status: ReservationStatus)
    requires ReleasedSoFar(b, d, claim, status, |b.log|)
    ensures ReleasesAll(b, d, claim, status)
  {
    assert b.log[..|b.log|] == b.log;
  }

  /** An expiry closes exactly the reservations still active among the first movements of the log, by age. */
  lemma ExpiryEffect(b: Books, cutoff: nat)
    requires Sound(b)
    ensures var d := Apply(b, OpRelease(OlderThan(cutoff), Expired));
            && |b.log| <= |d.log|
            && forall i :: 0 <= i < |b.log| ==>
                 d.log[i] == if i < cutoff && IsActive(b.log[i]) then b.log[i].(ref := Reservation(b.log[i].ref.order, Expired)) else b.log[i]
  {
    ReleaseEffect(b, OlderThan(cutoff), Expired);
    forall i | 0 <= i < |b.log| ensures b.log[i].id == i { assert MovementOk(b.log[i], i); }
  }

  /** Releasing an order closes exactly its active reservations, and none of another order. */
  lemma OrderReleaseEffect(b: Books, order: nat, status: ReservationStatus)
    requires Sound(b) && status in {Released, Cancelled, Expired}
    ensures var d := Apply(b, OpRelease(Claim.OfOrder(order), status));
            && |b.log| <= |d.log|
            && forall i :: 0 <= i < |b.log| ==>
                 d.log[i] == if b.log[i].ref == Reservation(order, Active) then b.log[i].(ref := Reservation(order, status)) else b.log[i]
  {
    ReleaseEffect(b, Claim.OfOrder(order), status);
  }

  // ------------------------------------------------------------------ reserving

  /** What left each location of an item between two states of the books. */
  function TakenFrom(b: Books, d: Books, item: nat): Loc -> real
  {
    (loc: Loc) => if loc.item == item then OnHand(b, loc) - OnHand(d, loc) else 0.0
  }

  /** A movement a reservation writes: nothing is costed yet. */
  predicate Holds(m: Movement, order: nat, r: Requirement)
  {
    && m.ref == Reservation(order, Active) && m.kind == STOCK_OUT && m.loc.item == r.item && m.cost == None && m.allocations == []
    && m.before.Some? && m.after == Some(m.before.value - m.quantity) && m.quantity > 0.0
  }

  /** What a row can give is all it has, if it is a row of the item. */
  lemma RowsGiveAll(b: Books, item: nat, loc: Loc)
    requires Sound(b)
    ensures Available(b, item)(loc) == if loc.item == item then OnHand(b, loc) else 0.0
  {
    assert OnHand(b, loc) >= 0.0;
  }

  /** The rows give what they have in their order, until the quantity is reached. */
  predicate InRowOrder(b: Books, d: Books, r: Requirement, rows: seq<Loc>)
  {
    forall k :: 0 <= k <= |rows| ==> TakenUpTo(b, d, r, rows, k)
  }

  predicate TakenUpTo(b: Books, d: Books, r: Requirement, rows: seq<Loc>, k: nat)
    requires k <= |rows|
  {
    SumBy(rows[..k], TakenFrom(b, d, r.item)) == Min(r.quantity, SumBy(rows[..k], Available(b, r.item)))
  }

  predicate OnlyHolds(log: seq<Movement>, log2: seq<Movement>, order: nat, r: Requirement)
  {
    |log| <= |log2| && log2[..|log|] == log && forall k :: |log| <= k < |log2| ==> Holds(log2[k], order, r)
  }

  lemma {:induction false} ReserveRowsLater(b: Books, order: nat, r: Requirement, rows: seq<Loc>, k: nat, loc: Loc)
    requires Distinct(rows) && k <= |rows| && loc in rows[..k]
    ensures OnHand(ReserveRows(b, order, r, rows).books, loc) == OnHand(ReserveRows(b, order, r, rows[..k]).books, loc)
  {
    var n := |rows| - 1;
    if k <= n {
      assert rows[..n][..k] == rows[..k];
      ReserveRowsLater(b, order, r, rows[..n], k, loc);
    } else {
      assert rows[..k] == rows;
    }
  }

  lemma {:induction false} ReserveRowsTakes(b: Books, order: nat, r: Requirement, rows: seq<Loc>)
    requires Distinct(rows)
    ensures var s := ReserveRows(b, order, r, rows);
            SumBy(rows, TakenFrom(b, s.books, r.item)) == r.quantity - s.left
  {
    if rows != [] {
      var n := |rows| - 1;
      ReserveRowsTakes(b, order, r, rows[..n]);
      ReserveRowsOnHand(b, order, r, rows[..n], rows[n]);
      var c, d := ReserveRows(b, order, r, rows[..n]).books, ReserveRows(b, order, r, rows).books;
      SameSums(rows[..n], TakenFrom(b, c, r.item), TakenFrom(b, d, r.item));
    }
  }

  lemma ReserveRowsInOrder(b: Books, order: nat, r: Requirement, rows: seq<Loc>)
    requires Distinct(rows) && r.quantity > 0.0
    ensures InRowOrder(b, ReserveRows(b, order, r, rows).books, r, rows)
  {
    var d := ReserveRows(b, order, r, rows).books;
    forall k | 0 <= k <= |rows| ensures TakenUpTo(b, d, r, rows, k) {
      var c := ReserveRows(b, order, r, rows[..k]).books;
      ReserveRowsTakes(b, order, r, rows[..k]);
      ReserveRowsMeans(b, order, r, rows[..k]);
      forall i | 0 <= i < k ensures TakenFrom(b, c, r.item)(rows[..k][i]) == TakenFrom(b, d, r.item)(rows[..k][i]) {
        ReserveRowsLater(b, order, r, rows, k, rows[..k][i]);
      }
      SameSums(rows[..k], TakenFrom(b, c, r.item), TakenFrom(b, d, r.item));
    }
  }

  lemma {:induction false} ReserveRowsWrite(b: Books, order: nat, r: Requirement, rows: seq<Loc>)
    ensures var d := ReserveRows(b, order, r, rows).books;
            && SameSetting(b, d) && d.layers == b.layers && OnlyHolds(b.log, d.log, order, r)
            && forall l: Loc :: l !in rows || l.item != r.item ==> OnHand(d, l) == OnHand(b, l)
  {
    if rows == [] {
      assert b.log[..|b.log|] == b.log;
    } else {
      ReserveRowsWrite(b, order, r, rows[..|rows| - 1]);
    }
  }

  /** A requirement in the place it has in the list. */
  predicate HoldsOne(m: Movement, order: nat, reqs: seq<Requirement>) { exists i :: 0 <= i < |reqs| && Holds(m, order, reqs[i]) }

  /** Every requirement was taken from its rows in their order, and nothing else was touched. */
  ghost predicate ReservedInOrder(b: Books, d: Books, order: nat, reqs: seq<Requirement>, rows: seq<Loc>)
  {
    && SameSetting(b, d) && d.layers == b.layers
    && |b.log| <= |d.log| && d.log[..|b.log|] == b.log
    && (forall k :: |b.log| <= k < |d.log| ==> HoldsOne(d.log[k], order, reqs))
    && (forall i :: 0 <= i < |reqs| ==> InRowOrder(b, d, reqs[i], rows))
    && (forall l: Loc :: l !in rows || (forall i :: 0 <= i < |reqs| ==> reqs[i].item != l.item) ==> OnHand(d, l) == OnHand(b, l))
  }

  lemma ReservedMore(b: Books, c: Books, order: nat, reqs: seq<Requirement>, rows: seq<Loc>)
    requires reqs != [] && DistinctRequirements(reqs) && Distinct(rows)
    requires ReservedInOrder(b, c, order, reqs[..|reqs| - 1], rows)
    ensures ReservedInOrder(b, ReserveRows(c, order, reqs[|reqs| - 1], rows).books, order, reqs, rows)
  {
    var n := |reqs| - 1;
    var r, front := reqs[n], reqs[..n];
    var d := ReserveRows(c, order, r, rows).books;
    ReserveRowsWrite(c, order, r, rows);
    assert d.log[..|b.log|] == c.log[..|b.log|];
    forall k | |b.log| <= k < |d.log| ensures HoldsOne(d.log[k], order, reqs) {
      if k < |c.log| {
        assert d.log[..|c.log|][k] == c.log[k] && HoldsOne(c.log[k], order, front);
        var i :| 0 <= i < n && Holds(c.log[k], order, front[i]);
        assert reqs[i] == front[i];
      } else {
        assert Holds(d.log[k], order, reqs[n]);
      }
    }
    forall i | 0 <= i < |reqs| ensures InRowOrder(b, d, reqs[i], rows) {
      if i < n {
        assert front[i] == reqs[i] && InRowOrder(b, c, front[i], rows);
        SameOrder(b, c, d, reqs[i], rows);
      } else {
        ReserveRowsInOrder(c, order, r, rows);
        LaterOrder(b, c, d, r, rows);
      }
    }
  }

  /** Rows of another item do not matter. */
  lemma SameOrder(b: Books, c: Books, d: Books, r: Requirement, rows: seq<Loc>)
    requires InRowOrder(b, c, r, rows) && forall l: Loc :: l.item == r.item ==> OnHand(d, l) == OnHand(c, l)
    ensures InRowOrder(b, d, r, rows)
  {
    forall k | 0 <= k <= |rows| ensures TakenUpTo(b, d, r, rows, k) {
      assert TakenUpTo(b, c, r, rows, k);
      SameSums(rows[..k], TakenFrom(b, c, r.item), TakenFrom(b, d, r.item));
    }
  }

  lemma LaterOrder(b: Books, c: Books, d: Books, r: Requirement, rows: seq<Loc>)
    requires InRowOrder(c, d, r, rows) && forall l: Loc :: l.item == r.item ==> OnHand(c, l) == OnHand(b, l)
    ensures InRowOrder(b, d, r, rows)
  {
    forall k | 0 <= k <= |rows| ensures TakenUpTo(b, d, r, rows, k) {
      assert TakenUpTo(c, d, r, rows, k);
      SameSums(rows[..k], TakenFrom(c, d, r.item), TakenFrom(b, d, r.item));
      SameSums(rows[..k], Available(c, r.item), Available(b, r.item));
    }
  }

  /**
    Reserving takes each requirement from the eligible rows in their order: however far one looks down the
    rows, what was taken from them is all they had, or the whole requirement.  Other rows and all cost
    layers stay as they are, and the movements written are uncosted active reservations of the order.
  */
  lemma {:induction false} ReserveInOrder(b: Books, order: nat, reqs: seq<Requirement>, rows: seq<Loc>)
    requires DistinctRequirements(reqs) && Distinct(rows) && ReserveAll(b, order, reqs, rows).Ok?
    ensures ReservedInOrder(b, ReserveAll(b, order, reqs, rows).value, order, reqs, rows)
  {
    if reqs == [] {
      assert b.log[..|b.log|] == b.log;
    } else {
      ReserveInOrder(b, order, reqs[..|reqs| - 1], rows);
      ReservedMore(b, ReserveAll(b, order, reqs[..|reqs| - 1], rows).value, order, reqs, rows);
    }
  }

  /** An order that has an active or a committed reservation. */
  predicate HasReserved(log: seq<Movement>, order: nat)
  {
    exists i :: 0 <= i < |log| && (log[i].ref == Reservation(order, Active) || log[i].ref == Reservation(order, Committed))
  }

  /**
    Reserving an order does nothing while it has an active or a committed reservation.  Otherwise it succeeds
    exactly with enough eligible stock for every requirement, and takes that from the rows in their order.
  */
  lemma ReserveEffect(b: Books, order: nat, reqs: seq<Requirement>, rows: seq<Loc>)
    requires DistinctRequirements(reqs) && Distinct(rows)
    ensures HasReserved(b.log, order) ==> Reserve(b, order, reqs, rows) == Ok(b)
    ensures !HasReserved(b.log, order) ==>
              && (Reserve(b, order, reqs, rows).Ok? <==> AllEnough(b, reqs, rows))
              && (Reserve(b, order, reqs, rows).Ok? ==> ReservedInOrder(b, Reserve(b, order, reqs, rows).value, order, reqs, rows))
  {
    if HasReserved(b.log, order) {
      var i :| 0 <= i < |b.log| && (b.log[i].ref == Reservation(order, Active) || b.log[i].ref == Reservation(order, Committed));
      assert HoldsReservation(b.log, order, {Active, Committed});
    } else {
      assert !HoldsReservation(b.log, order, {Active, Committed});
      ReserveAllMeans(b, order, reqs, rows);
      if AllEnough(b, reqs, rows) { ReserveInOrder(b, order, reqs, rows); }
    }
  }

  // ------------------------------------------------------------------ what an order's lines ask for

  /** What q units of a product take of an item by one line of its recipe. */
  function RecipeUses(item: nat, q: real): RecipeLine -> real
  {
    (r: RecipeLine) => if r.item == item && r.quantity > 0.0 then r.quantity * q else 0.0
  }

  /** What one line asks of an item: itself in retail, its recipe that many times over in a cafe. */
  function AskedOf(business: BusinessType, item: nat): OrderLine -> real
  {
    (l: OrderLine) =>
      if business == RETAIL then (if l.item == Some(item) then l.quantity else 0.0)
      else if business == CAFE && l.recipe.Some? then SumBy(l.recipe.value, RecipeUses(item, l.quantity))
      else 0.0
  }

  predicate PositiveLines(lines: seq<OrderLine>) { forall i :: 0 <= i < |lines| ==> lines[i].quantity > 0.0 }

  lemma ProductSign(x: real, q: real)
    requires q > 0.0
    ensures x * q > 0.0 <==> x > 0.0
  {
    if x <= 0.0 { assert (0.0 - x) * q >= 0.0; }
  }

  lemma RecipePrefix(recipe: seq<RecipeLine>, q: real, n: nat)
    requires n <= |recipe|
    ensures RecipeNeeds(recipe, q)[..n] == RecipeNeeds(recipe[..n], q)
  {
    forall i | 0 <= i < n ensures RecipeNeeds(recipe, q)[i] == RecipeNeeds(recipe[..n], q)[i] {
      assert recipe[..n][i] == recipe[i];
    }
  }

  lemma RecipeMore(recipe: seq<RecipeLine>, q: real, item: nat)
    requires recipe != []
    ensures var n := |recipe| - 1;
            SumBy(RecipeNeeds(recipe, q), NeededOf(item)) ==
            SumBy(RecipeNeeds(recipe[..n], q), NeededOf(item)) + NeededOf(item)(RecipeNeeds(recipe, q)[n])
  {
    var n, needs := |recipe| - 1, RecipeNeeds(recipe, q);
    RecipePrefix(recipe, q, n);
    assert needs == needs[..n] + [needs[n]];
    SumBySnoc(needs[..n], needs[n], NeededOf(item));
  }

  lemma {:induction false} RecipeAsks(recipe: seq<RecipeLine>, q: real, item: nat)
    requires q > 0.0
    ensures SumBy(RecipeNeeds(recipe, q), NeededOf(item)) == SumBy(recipe, RecipeUses(item, q))
  {
    if recipe != [] {
      var n := |recipe| - 1;
      RecipeAsks(recipe[..n], q, item);
      RecipeMore(recipe, q, item);
      ProductSign(recipe[n].quantity, q);
    }
  }

  lemma LineAsks(business: BusinessType, l: OrderLine, item: nat)
    requires l.quantity > 0.0
    ensures SumBy(LineNeeds(business, l), NeededOf(item)) == AskedOf(business, item)(l)
  {
    if business == RETAIL {
      assert LineNeeds(business, l) == [] + [Need(l.item, l.quantity)];
      SumBySnoc([], Need(l.item, l.quantity), NeededOf(item));
    } else if business == CAFE && l.recipe.Some? {
      RecipeAsks(l.recipe.value, l.quantity, item);
    }
  }

  /**
    What an order needs of an item: in retail the quantities of its lines for that item, in a cafe for every
    line its quantity times what its recipe uses, elsewhere nothing.
  */
  lemma {:induction false} NeedsAreLines(business: BusinessType, lines: seq<OrderLine>, item: nat)
    requires PositiveLines(lines)
    ensures SumBy(Needs(business, lines), NeededOf(item)) == SumBy(lines, AskedOf(business, item))
  {
    if lines != [] {
      var n := |lines| - 1;
      NeedsAreLines(business, lines[..n], item);
      SumByConcat(Needs(business, lines[..n]), LineNeeds(business, lines[n]), NeededOf(item));
      LineAsks(business, lines[n], item);
    }
  }
}
