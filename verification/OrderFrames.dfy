/**
  What a transaction can do to the movements of one order: those of other orders, stock changes and
  transfers leave them alone, and a held reservation goes only by a release that claims it.
*/
module OrderFrames {
  import opened Fifo
  import opened InventoryLedger
  import opened LedgerSteps
  import opened ReservationProofs
  import opened RetailOrder

  // ------------------------------------------------------------------ transactions of others

  lemma LeavesThen(b: Books, c: Books, d: Books, order: nat)
    requires Leaves(b, c, order) && Leaves(c, d, order)
    ensures Leaves(b, d, order)
  {
    forall i | 0 <= i < |b.log| ensures if RetailOrder.OfOrder(b.log[i], order) then d.log[i] == b.log[i] else !RetailOrder.OfOrder(d.log[i], order) {
      assert if RetailOrder.OfOrder(b.log[i], order) then c.log[i] == b.log[i] else !RetailOrder.OfOrder(c.log[i], order);
    }
  }

  lemma AppendLeaves(b: Books, d: Books, m: Movement, order: nat)
    requires d.log == b.log + [m] && !RetailOrder.OfOrder(m, order)
    ensures Leaves(b, d, order)
  {
  }

  lemma {:induction false} SellLinesWrites(b: Books, seller: nat, kind: MovementType, lines: seq<SaleLine>)
    requires SellLines(b, seller, kind, lines).Ok?
    ensures var d := SellLines(b, seller, kind, lines).value;
            && b.log <= d.log && forall i :: |b.log| <= i < |d.log| ==> d.log[i].ref == OrderSale(seller)
  {
    if lines != [] { SellLinesWrites(b, seller, kind, lines[..|lines| - 1]); }
  }

  lemma {:induction false} ShipLeaves(b: Books, t: nat, n: nat, order: nat)
    requires t < |b.transfers| && n <= |b.transfers[t].items| && ShipUpTo(b, t, n).Ok?
    ensures Leaves(b, ShipUpTo(b, t, n).value, order)
  {
    if n != 0 {
      ShipLeaves(b, t, n - 1, order);
      var c, d := ShipUpTo(b, t, n - 1).value, ShipUpTo(b, t, n).value;
      AppendLeaves(c, d, d.log[|c.log|], order);
      LeavesThen(b, c, d, order);
    }
  }

  lemma {:induction false} ReceiveLeaves(b: Books, t: nat, receipt: nat, lines: seq<ReceiptLine>, order: nat)
    requires t < |b.transfers| && ReceiveLines(b, t, receipt, lines).Ok?
    ensures Leaves(b, ReceiveLines(b, t, receipt, lines).value, order)
  {
    if lines != [] {
      var c, d := ReceiveLines(b, t, receipt, lines[..|lines| - 1]).value, ReceiveLines(b, t, receipt, lines).value;
      ReceiveLeaves(b, t, receipt, lines[..|lines| - 1], order);
      AppendLeaves(c, d, d.log[|c.log|], order);
      LeavesThen(b, c, d, order);
    }
  }

  lemma ReleaseOneWrites(b: Books, i: nat, status: ReservationStatus)
    requires i < |b.log| && b.log[i].ref.Reservation? && ReleaseOne(b, i, status).Ok?
    ensures var log, order := ReleaseOne(b, i, status).value.log, b.log[i].ref.order;
            |log| == |b.log| + 1 && log[..|b.log|] == b.log[i := b.log[i].(ref := Reservation(order, status))] &&
            log[|b.log|].ref == ReservationRelease(order)
  {
  }

  /** Releasing closes the claimed reservations in place. */
  lemma {:induction false} ReleaseWrites(b: Books, claim: Claim, status: ReservationStatus, n: nat)
    requires n <= |b.log| && ReleaseUpTo(b, claim, status, n).Ok?
    ensures var d := ReleaseUpTo(b, claim, status, n).value;
            && |b.log| <= |d.log|
            && forall i :: 0 <= i < |b.log| ==>
                 d.log[i] == if i < n && Claims(claim, b.log[i]) then b.log[i].(ref := Reservation(b.log[i].ref.order, status)) else b.log[i]
  {
    if n != 0 {
      ReleaseWrites(b, claim, status, n - 1);
      var c := ReleaseUpTo(b, claim, status, n - 1).value;
      assert c.log[n - 1] == b.log[n - 1];
      if Claims(claim, c.log[n - 1]) {
        ReleaseOneWrites(c, n - 1, status);
        var d := ReleaseOne(c, n - 1, status).value;
        forall i | 0 <= i < |b.log| ensures d.log[i] == d.log[..|c.log|][i] {}
      }
    }
  }

  lemma {:induction false} ReleaseIsRelease(b: Books, claim: Claim, status: ReservationStatus, n: nat)
    requires n <= |b.log| && ReleaseUpTo(b, claim, status, n).Ok?
    ensures var d := ReleaseUpTo(b, claim, status, n).value;
            forall i :: |b.log| <= i < |d.log| ==> d.log[i].ref.ReservationRelease?
  {
    if n != 0 {
      ReleaseIsRelease(b, claim, status, n - 1);
      var c := ReleaseUpTo(b, claim, status, n - 1).value;
      if Claims(claim, c.log[n - 1]) {
        ReleaseOneWrites(c, n - 1, status);
        var d := ReleaseOne(c, n - 1, status).value;
        forall i | |b.log| <= i < |c.log| ensures d.log[i].ref == c.log[i].ref { assert d.log[..|c.log|][i] == c.log[i]; }
      }
    }
  }

  predicate ClaimsOf(b: Books, claim: Claim, order: nat)
  {
    exists i :: 0 <= i < |b.log| && Claims(claim, b.log[i]) && b.log[i].ref.order == order
  }

  /** It appends a movement for each of them, and for no other order. */
  lemma {:induction false} ReleaseAppends(b: Books, claim: Claim, status: ReservationStatus, n: nat, order: nat)
    requires n <= |b.log| && ReleaseUpTo(b, claim, status, n).Ok? && !ClaimsOf(b, claim, order)
    ensures var d := ReleaseUpTo(b, claim, status, n).value;
            forall i :: |b.log| <= i < |d.log| ==> d.log[i].ref.ReservationRelease? && d.log[i].ref.order != order
  {
    if n != 0 {
      ReleaseAppends(b, claim, status, n - 1, order);
      ReleaseWrites(b, claim, status, n - 1);
      var c := ReleaseUpTo(b, claim, status, n - 1).value;
      if Claims(claim, c.log[n - 1]) {
        assert c.log[n - 1] == b.log[n - 1];
        ReleaseOneWrites(c, n - 1, status);
        var d := ReleaseOne(c, n - 1, status).value;
        forall i | |b.log| <= i < |c.log| ensures d.log[i].ref == c.log[i].ref { assert d.log[..|c.log|][i] == c.log[i]; }
      }
    }
  }

  /** The transaction closes a reservation the order holds. */
  predicate Releases(b: Books, op: Op, order: nat)
  {
    op.OpRelease? && ClaimsOf(b, op.claim, order)
  }

  predicate Concerns(b: Books, op: Op, order: nat)
  {
    ((op.OpReserve? || op.OpCommit? || op.OpSell?) && op.order == order) || Releases(b, op, order)
  }

  lemma StockChangeLeaves(b: Books, op: Op, order: nat)
    requires (op.OpStockIn? || op.OpAdjust? || op.OpWaste?) && Attempt(b, op).Ok?
    ensures Leaves(b, Apply(b, op), order)
  {
    AppendLeaves(b, Apply(b, op), Apply(b, op).log[|b.log|], order);
  }

  lemma SaleLeaves(b: Books, op: Op, order: nat)
    requires op.OpSell? && op.order != order && Attempt(b, op).Ok?
    ensures Leaves(b, Apply(b, op), order)
  {
    if Apply(b, op) != b { SellLinesWrites(b, op.order, op.kind, op.lines); }
  }

  lemma ReserveLeaves(b: Books, op: Op, order: nat)
    requires op.OpReserve? && op.order != order && Attempt(b, op).Ok?
    ensures Leaves(b, Apply(b, op), order)
  {
    if Apply(b, op) != b {
      ReserveAllAppends(b, op.order, op.reqs, op.rows);
      forall i | 0 <= i < |b.log| ensures Apply(b, op).log[i] == b.log[i] { assert Apply(b, op).log[..|b.log|][i] == b.log[i]; }
    }
  }

  lemma ReleaseLeaves(b: Books, op: Op, order: nat)
    requires op.OpRelease? && !Releases(b, op, order) && Attempt(b, op).Ok?
    ensures Leaves(b, Apply(b, op), order)
  {
    ReleaseWrites(b, op.claim, op.status, |b.log|);
    ReleaseAppends(b, op.claim, op.status, |b.log|, order);
  }

  lemma TransferLeaves(b: Books, op: Op, order: nat)
    requires ForTransfers(op) && Attempt(b, op).Ok?
    ensures Leaves(b, Apply(b, op), order)
  {
    match op
    case OpShip(t) => if b.transfers[t].status == PENDING { ShipLeaves(b, t, |b.transfers[t].items|, order); }
    case OpReceive(t, key, lines) =>
      var r := FindReceipt(b.transfers[t].receipts, key);
      if r == |b.transfers[t].receipts| { ReceiveLeaves(b, t, r, lines, order); }
    case _ =>
  }

  /**
    Every transaction but the order's own leaves the movements of the order as they were and writes none:
    stock changes, transfers, other orders' reservations, commits, sales and releases, and an expiry that
    claims none of its reservations.
  */
  lemma OthersLeave(b: Books, op: Op, order: nat)
    requires !Concerns(b, op, order)
    ensures Leaves(b, Apply(b, op), order)
  {
    if Attempt(b, op).Ok? {
      match op
      case OpSell(_, _, _) => SaleLeaves(b, op, order);
      case OpReserve(_, _, _) => ReserveLeaves(b, op, order);
      case OpCommit(other, kind) => CommitWrites(b, other, kind, |b.log|);
      case OpRelease(_, _) => ReleaseLeaves(b, op, order);
      case OpCreate(_, _, _) => TransferLeaves(b, op, order);
      case OpShip(_) => TransferLeaves(b, op, order);
      case OpReceive(_, _, _) => TransferLeaves(b, op, order);
      case OpCancelTransfer(_) => TransferLeaves(b, op, order);
      case _ => StockChangeLeaves(b, op, order);
    }
  }

  // ------------------------------------------------------------------ reserved once

  /** What the order holds stays held, but for a release that claims it. */
  lemma HeldStays(b: Books, op: Op, order: nat)
    requires !HoldsNothing(b, order) && !Releases(b, op, order)
    ensures !HoldsNothing(Apply(b, op), order)
  {
    var d := Apply(b, op);
    if !Concerns(b, op, order) {
      OthersLeave(b, op, order);
      LeavesHolds(b, d, order);
    } else if Attempt(b, op).Ok? {
      StillThere(b, op, order, {Active, Committed});
    }
  }

  /** The order's own transactions keep what it holds; a committed reservation stays for good. */
  lemma StillThere(b: Books, op: Op, order: nat, s: set<ReservationStatus>)
    requires HoldsReservation(b.log, order, s) && s in {{Committed}, {Active, Committed}} && Attempt(b, op).Ok?
    requires (op.OpReserve? || op.OpCommit? || op.OpSell? || (op.OpRelease? && s == {Committed}))
    requires !op.OpRelease? ==> op.order == order
    ensures HoldsReservation(Apply(b, op).log, order, s)
  {
    var d := Apply(b, op);
    var i :| 0 <= i < |b.log| && b.log[i].ref.Reservation? && b.log[i].ref.order == order && b.log[i].ref.status in s;
    if op.OpCommit? { CommitWrites(b, order, op.kind, |b.log|); }
    if op.OpSell? && d != b { SellLinesWrites(b, order, op.kind, op.lines); }
    if op.OpRelease? { ReleaseWrites(b, op.claim, op.status, |b.log|); }
    assert d.log[i].ref.Reservation? && d.log[i].ref.order == order && d.log[i].ref.status in s;
  }

  lemma CommittedStays(b: Books, op: Op, order: nat)
    requires HoldsReservation(b.log, order, {Committed})
    ensures HoldsReservation(Apply(b, op).log, order, {Committed})
  {
    if !Concerns(b, op, order) {
      OthersLeave(b, op, order);
      LeavesHolds(b, Apply(b, op), order);
    } else if Attempt(b, op).Ok? {
      StillThere(b, op, order, {Committed});
    }
  }

  predicate ReleasedIn(b: Books, ops: seq<Op>, order: nat)
  {
    ops != [] &&
    (ReleasedIn(b, ops[..|ops| - 1], order) || Releases(Run(b, ops[..|ops| - 1]), ops[|ops| - 1], order))
  }

  predicate IsReserve(op: Op, order: nat) { op.OpReserve? && op.order == order }

  function WithoutReserves(ops: seq<Op>, order: nat): seq<Op>
  {
    if ops == [] then []
    else WithoutReserves(ops[..|ops| - 1], order) + (if IsReserve(ops[|ops| - 1], order) then [] else [ops[|ops| - 1]])
  }

  lemma WithoutOne(b: Books, ops: seq<Op>, order: nat)
    requires ops != []
    ensures var front, last := ops[..|ops| - 1], ops[|ops| - 1];
            Run(b, WithoutReserves(ops, order)) ==
              if IsReserve(last, order) then Run(b, WithoutReserves(front, order)) else Apply(Run(b, WithoutReserves(front, order)), last)
  {
    var front, last := ops[..|ops| - 1], ops[|ops| - 1];
    var w := WithoutReserves(front, order);
    if IsReserve(last, order) { assert w + [] == w; } else { assert (w + [last])[..|w|] == w; }
  }

  predicate ReservedAlready(b: Books, ops: seq<Op>, order: nat)
  {
    HoldsReservation(b.log, order, {Committed}) || (!HoldsNothing(b, order) && !ReleasedIn(b, ops, order))
  }

  /**
    An order is reserved once.  While it holds a reservation that no release claims, and for good once the
    reservation was committed, the payment event may be delivered again any number of times between any
    other transactions: a run has the outcome it has without those reserves.
  */
  lemma {:induction false} ReservedOnce(b: Books, ops: seq<Op>, order: nat)
    requires ReservedAlready(b, ops, order)
    ensures Run(b, ops) == Run(b, WithoutReserves(ops, order))
    ensures !HoldsNothing(Run(b, ops), order)
    ensures HoldsReservation(b.log, order, {Committed}) ==> HoldsReservation(Run(b, ops).log, order, {Committed})
  {
    if ops == [] {
      if HoldsReservation(b.log, order, {Committed}) { CommittedIsHeld(b, order); }
    } else {
      var front, last := ops[..|ops| - 1], ops[|ops| - 1];
      ReservedOnce(b, front, order);
      WithoutOne(b, ops, order);
      var z := Run(b, front);
      if HoldsReservation(b.log, order, {Committed}) {
        CommittedStays(z, last, order);
        CommittedIsHeld(Apply(z, last), order);
      } else {
        HeldStays(z, last, order);
      }
    }
  }

  lemma CommittedIsHeld(b: Books, order: nat)
    requires HoldsReservation(b.log, order, {Committed})
    ensures !HoldsNothing(b, order)
  {
    var i :| 0 <= i < |b.log| && b.log[i].ref.Reservation? && b.log[i].ref.order == order && b.log[i].ref.status in {Committed};
    assert b.log[i].ref.status in {Active, Committed};
  }
}
