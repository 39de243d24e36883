/**
  The life of a warehouse transfer over a whole run: its status is what the movements about it say, a
  receipt writes exactly what came in, and a shipment that is not complete can always be received further.
*/
module TransferLifecycle {
  import opened Fifo
  import opened InventoryLedger
  import opened LedgerInvariants
  import opened LedgerSteps
  import opened LedgerRuns
  import opened HistoricalFifo
  import opened HistoricalCosts
  import opened TransferProofs
  import opened StockMovements

  // ------------------------------------------------------------------ what the status says

  /** Received up to the tolerance of the comparison. */
  predicate Complete(it: TransferItem) { it.received >= it.quantity - 0.000000001 }

  predicate NothingIn(items: seq<TransferItem>) { forall j :: 0 <= j < |items| ==> items[j].received == 0.0 }

  predicate AllIn(items: seq<TransferItem>) { forall j :: 0 <= j < |items| ==> Complete(items[j]) }

  /** The status of a transfer fits what its items have received. */
  predicate StatusFits(tr: Transfer)
  {
    && tr.items != []
    && (tr.status in {PENDING, CANCELLED, IN_TRANSIT} ==> NothingIn(tr.items))
    && (tr.status == PARTIALLY_RECEIVED ==> !NothingIn(tr.items) && !AllIn(tr.items))
    && (tr.status == RECEIVED ==> AllIn(tr.items))
  }

  predicate StatusesFit(ts: seq<Transfer>) { forall t :: 0 <= t < |ts| ==> StatusFits(ts[t]) }

  predicate HasShipment(log: seq<Movement>, t: nat) { exists k :: 0 <= k < |log| && log[k].ref == TransferShipment(t) }

  /** What the receipts in the log have brought in of an item. */
  function CameIn(log: seq<Movement>, t: nat, item: nat): real { SumBy(log, ReceivedQuantity(t, item)) }

  predicate NothingCameIn(log: seq<Movement>, t: nat, items: seq<TransferItem>)
  {
    forall j :: 0 <= j < |items| ==> CameIn(log, t, items[j].item) == 0.0
  }

  predicate AllCameIn(log: seq<Movement>, t: nat, items: seq<TransferItem>)
  {
    forall j :: 0 <= j < |items| ==> CameIn(log, t, items[j].item) >= items[j].quantity - 0.000000001
  }

  // ------------------------------------------------------------------ a receipt

  /** One line of a receipt: what it raises the item to, where that lands and what is written about it. */
  ghost predicate LineLands(b: Books, d: Books, t: nat, receipt: nat, line: ReceiptLine)
  {
    t < |b.transfers| && line.index < |b.transfers[t].items| &&
    var tr := b.transfers[t];
    var it := tr.items[line.index];
    var next := Min(it.received + line.quantity, it.quantity);
    var loc := Loc(it.item, tr.destination);
    && next > it.received
    && d.transfers == b.transfers[t := tr.(items := tr.items[line.index := it.(received := next)])]
    && (forall l: Loc :: OnHand(d, l) == OnHand(b, l) + if l == loc then next - it.received else 0.0)
    && |d.log| == |b.log| + 1 && d.log == b.log + [d.log[|b.log|]]
    && Brings(d.log[|b.log|], t, receipt, loc, next - it.received)
  }

  predicate Brings(m: Movement, t: nat, receipt: nat, loc: Loc, q: real)
  {
    && m.loc == loc && m.kind == TRANSFER && m.quantity == q && m.ref == TransferReceipt(t, receipt)
    && m.before.Some? && m.after == Some(m.before.value + q)
  }

  lemma OneLineLands(b: Books, t: nat, receipt: nat, line: ReceiptLine)
    requires t < |b.transfers| && ReceiveLine(b, t, receipt, line).Ok?
    ensures LineLands(b, ReceiveLine(b, t, receipt, line).value, t, receipt, line)
  {
  }

  /** Line i of a receipt names item j. */
  predicate NamedBy(lines: seq<ReceiptLine>, j: nat, i: nat) { i < |lines| && lines[i].index == j }

  /** Item j after a receipt: raised by the line that names it, up to its quantity, or left as it was. */
  predicate ItemAfter(was: TransferItem, now: TransferItem, lines: seq<ReceiptLine>, j: nat)
  {
    && now == was.(received := now.received)
    && (!Names(lines, j) ==> now == was)
    && (forall i :: 0 <= i < |lines| && NamedBy(lines, j, i) ==> now.received == Min(was.received + lines[i].quantity, was.quantity) && now.received > was.received)
  }

  predicate ItemsAfter(was: seq<TransferItem>, now: seq<TransferItem>, lines: seq<ReceiptLine>)
  {
    |now| == |was| && forall j :: 0 <= j < |was| ==> ItemAfter(was[j], now[j], lines, j)
  }

  /** Stock at the destination rises by what the items have risen by, and nowhere else. */
  ghost predicate StockAfter(b: Books, d: Books, destination: nat, was: seq<TransferItem>, now: seq<TransferItem>)
    requires |now| == |was|
  {
    && (forall j :: 0 <= j < |was| ==>
          OnHand(d, Loc(was[j].item, destination)) == OnHand(b, Loc(was[j].item, destination)) + now[j].received - was[j].received)
    && (forall l: Loc :: l.warehouse != destination || (forall j :: 0 <= j < |was| ==> was[j].item != l.item) ==> OnHand(d, l) == OnHand(b, l))
  }

  predicate LogAfter(log: seq<Movement>, log2: seq<Movement>, t: nat, receipt: nat, tr: Transfer, now: seq<TransferItem>, lines: seq<ReceiptLine>)
    requires |now| == |tr.items|
  {
    && |log2| == |log| + |lines| && log2[..|log|] == log
    && forall k :: |log| <= k < |log2| ==> LineBrings(log2[k], t, receipt, tr, now, lines, k - |log|)
  }

  predicate LineBrings(m: Movement, t: nat, receipt: nat, tr: Transfer, now: seq<TransferItem>, lines: seq<ReceiptLine>, i: nat)
    requires |now| == |tr.items|
  {
    i < |lines| &&
    var j := lines[i].index;
    j < |tr.items| && Brings(m, t, receipt, Loc(tr.items[j].item, tr.destination), now[j].received - tr.items[j].received)
  }

  /** What the lines of a receipt, taken together, have done. */
  ghost predicate LinesLand(b: Books, d: Books, t: nat, receipt: nat, lines: seq<ReceiptLine>)
  {
    t < |b.transfers| &&
    var tr := b.transfers[t];
    && |d.transfers| == |b.transfers| && d.transfers == b.transfers[t := tr.(items := d.transfers[t].items)]
    && ItemsAfter(tr.items, d.transfers[t].items, lines)
    && StockAfter(b, d, tr.destination, tr.items, d.transfers[t].items)
    && LogAfter(b.log, d.log, t, receipt, tr, d.transfers[t].items, lines)
  }

  lemma NoLinesLand(b: Books, t: nat, receipt: nat)
    requires t < |b.transfers|
    ensures LinesLand(b, b, t, receipt, [])
  {
    assert b.log[..|b.log|] == b.log;
    assert b.transfers == b.transfers[t := b.transfers[t].(items := b.transfers[t].items)];
  }

  lemma MoreItems(was: seq<TransferItem>, mid: seq<TransferItem>, lines: seq<ReceiptLine>)
    requires lines != [] && DistinctLines(lines) && ItemsAfter(was, mid, lines[..|lines| - 1]) && lines[|lines| - 1].index < |was|
    ensures var line := lines[|lines| - 1];
            var next := Min(mid[line.index].received + line.quantity, mid[line.index].quantity);
            && mid[line.index] == was[line.index]
            && (next > mid[line.index].received ==> ItemsAfter(was, mid[line.index := mid[line.index].(received := next)], lines))
  {
    var n := |lines| - 1;
    var line, front := lines[n], lines[..n];
    assert !Names(front, line.index) by {
      forall i | 0 <= i < n ensures front[i].index != line.index { assert lines[i].index != lines[n].index; }
    }
    assert ItemAfter(was[line.index], mid[line.index], front, line.index);
    var next := Min(mid[line.index].received + line.quantity, mid[line.index].quantity);
    if next > mid[line.index].received {
      var now := mid[line.index := mid[line.index].(received := next)];
      forall j | 0 <= j < |was| ensures ItemAfter(was[j], now[j], lines, j) { MoreItem(was, mid, now, lines, j); }
    }
  }

  lemma MoreItem(was: seq<TransferItem>, mid: seq<TransferItem>, now: seq<TransferItem>, lines: seq<ReceiptLine>, j: nat)
    requires lines != [] && DistinctLines(lines) && |was| == |mid| == |now| && j < |was|
    requires ItemAfter(was[j], mid[j], lines[..|lines| - 1], j)
    requires var line := lines[|lines| - 1];
             if j == line.index then
               mid[j] == was[j] && now[j] == was[j].(received := Min(was[j].received + line.quantity, was[j].quantity)) && now[j].received > was[j].received
             else now[j] == mid[j]
    ensures ItemAfter(was[j], now[j], lines, j)
  {
    var n := |lines| - 1;
    var front := lines[..n];
    if !Names(lines, j) { assert lines[n].index != j && !Names(front, j); }
    forall i | 0 <= i < |lines| && NamedBy(lines, j, i)
      ensures now[j].received == Min(was[j].received + lines[i].quantity, was[j].quantity) && now[j].received > was[j].received
    {
      if i < n { assert NamedBy(front, j, i) && lines[i].index != lines[n].index; }
    }
  }

  lemma MoreStock(b: Books, c: Books, d: Books, t: nat, was: seq<TransferItem>, mid: seq<TransferItem>, index: nat, next: real, destination: nat)
    requires |mid| == |was| && index < |was| && DistinctItems(was) && StockAfter(b, c, destination, was, mid)
    requires forall l: Loc :: OnHand(d, l) == OnHand(c, l) + if l == Loc(was[index].item, destination) then next - mid[index].received else 0.0
    ensures StockAfter(b, d, destination, was, mid[index := mid[index].(received := next)])
  {
    var now := mid[index := mid[index].(received := next)];
    forall j | 0 <= j < |was|
      ensures OnHand(d, Loc(was[j].item, destination)) == OnHand(b, Loc(was[j].item, destination)) + now[j].received - was[j].received
    {
      if j != index { assert was[j].item != was[index].item; }
    }
  }

  lemma MoreLog(log: seq<Movement>, mid: seq<Movement>, m: Movement, t: nat, receipt: nat, tr: Transfer,
                was: seq<TransferItem>, now: seq<TransferItem>, lines: seq<ReceiptLine>)
    requires lines != [] && DistinctLines(lines) && |was| == |now| == |tr.items|
    requires LogAfter(log, mid, t, receipt, tr, was, lines[..|lines| - 1])
    requires forall j :: 0 <= j < |was| && j != lines[|lines| - 1].index ==> now[j] == was[j]
    requires LineBrings(m, t, receipt, tr, now, lines, |lines| - 1)
    ensures LogAfter(log, mid + [m], t, receipt, tr, now, lines)
  {
    var n := |lines| - 1;
    var g := mid + [m];
    assert g[..|log|] == mid[..|log|];
    forall k | |log| <= k < |g| ensures LineBrings(g[k], t, receipt, tr, now, lines, k - |log|) {
      if k < |mid| {
        assert g[k] == mid[k] && LineBrings(mid[k], t, receipt, tr, was, lines[..n], k - |log|);
        assert lines[..n][k - |log|] == lines[k - |log|] && lines[k - |log|].index != lines[n].index;
      }
    }
  }

  lemma OneMoreLineLands(b: Books, c: Books, d: Books, t: nat, receipt: nat, lines: seq<ReceiptLine>)
    requires lines != [] && DistinctLines(lines) && LinesLand(b, c, t, receipt, lines[..|lines| - 1])
    requires DistinctItems(b.transfers[t].items) && LineLands(c, d, t, receipt, lines[|lines| - 1])
    ensures LinesLand(b, d, t, receipt, lines)
  {
    var line, tr, mid := lines[|lines| - 1], b.transfers[t], c.transfers[t].items;
    MoreItems(tr.items, mid, lines);
    var next := Min(mid[line.index].received + line.quantity, mid[line.index].quantity);
    var now := mid[line.index := mid[line.index].(received := next)];
    assert d.transfers[t].items == now;
    MoreStock(b, c, d, t, tr.items, mid, line.index, next, tr.destination);
    MoreLog(b.log, c.log, d.log[|c.log|], t, receipt, tr, mid, now, lines);
    assert d.transfers == b.transfers[t := tr.(items := now)];
  }

  lemma {:induction false} ReceiptLandsWhole(b: Books, t: nat, receipt: nat, lines: seq<ReceiptLine>, d: Books)
    requires t < |b.transfers| && DistinctLines(lines) && DistinctItems(b.transfers[t].items)
    requires ReceiveLines(b, t, receipt, lines) == Ok(d)
    ensures LinesLand(b, d, t, receipt, lines)
  {
    if lines == [] {
      NoLinesLand(b, t, receipt);
    } else {
      var n := |lines| - 1;
      var c := ReceiveLines(b, t, receipt, lines[..n]).value;
      ReceiptLandsWhole(b, t, receipt, lines[..n], c);
      OneLineLands(c, t, receipt, lines[n]);
      OneMoreLineLands(b, c, d, t, receipt, lines);
    }
  }

  predicate NewKey(tr: Transfer, key: nat) { forall k :: 0 <= k < |tr.receipts| ==> tr.receipts[k].key != key }

  /**
    An accepted receipt under a new key raises each named item by what came in, up to what was shipped; puts
    that on the destination's stock rows and nowhere else; writes one movement for each line that carries
    it; and keeps its key and request.
  */
  lemma ReceiptEffect(b: Books, t: nat, key: nat, lines: seq<ReceiptLine>)
    requires TransfersOk(b) && t < |b.transfers| && NewKey(b.transfers[t], key) && ReceiveTransfer(b, t, key, lines).Ok?
    ensures var tr, d := b.transfers[t], ReceiveTransfer(b, t, key, lines).value;
            && |d.transfers| == |b.transfers| && (forall u :: 0 <= u < |b.transfers| && u != t ==> d.transfers[u] == b.transfers[u])
            && d.transfers[t].receipts == tr.receipts + [Receipt(key, lines)]
            && d.transfers[t].source == tr.source && d.transfers[t].destination == tr.destination
            && ItemsAfter(tr.items, d.transfers[t].items, lines)
            && StockAfter(b, d, tr.destination, tr.items, d.transfers[t].items)
            && LogAfter(b.log, d.log, t, |tr.receipts|, tr, d.transfers[t].items, lines)
  {
    var r := FindReceipt(b.transfers[t].receipts, key);
    assert r == |b.transfers[t].receipts|;
    assert TransferOk(b.transfers[t]);
    var c := ReceiveLines(b, t, r, lines).value;
    ReceiptLandsWhole(b, t, r, lines, c);
    var d := ReceiveTransfer(b, t, key, lines).value;
    forall l: Loc ensures OnHand(d, l) == OnHand(c, l) {}
  }

  // ------------------------------------------------------------------ the status over a run

  lemma SomethingCame(was: seq<TransferItem>, now: seq<TransferItem>, lines: seq<ReceiptLine>)
    requires lines != [] && ItemsAfter(was, now, lines) && lines[0].index < |was|
    requires forall j :: 0 <= j < |was| ==> was[j].received >= 0.0
    ensures !NothingIn(now)
  {
    var j := lines[0].index;
    assert NamedBy(lines, j, 0) && ItemAfter(was[j], now[j], lines, j);
  }

  lemma NewReceiptStatus(b: Books, t: nat, key: nat, lines: seq<ReceiptLine>)
    requires t < |b.transfers| && NewKey(b.transfers[t], key) && ReceiveTransfer(b, t, key, lines).Ok?
    ensures var now := ReceiveTransfer(b, t, key, lines).value.transfers[t];
            lines != [] && now.status == if AllIn(now.items) then RECEIVED else PARTIALLY_RECEIVED
  {
    assert FindReceipt(b.transfers[t].receipts, key) == |b.transfers[t].receipts|;
  }

  lemma ReceivedFits(tr: Transfer, now: Transfer, lines: seq<ReceiptLine>)
    requires StatusFits(tr) && TransferOk(tr) && ItemsAfter(tr.items, now.items, lines)
    requires lines != [] && lines[0].index < |tr.items|
    requires now.status == if AllIn(now.items) then RECEIVED else PARTIALLY_RECEIVED
    ensures StatusFits(now)
  {
    forall j | 0 <= j < |tr.items| ensures tr.items[j].received >= 0.0 { assert ItemOk(tr.items[j]); }
    SomethingCame(tr.items, now.items, lines);
  }

  lemma ReceiveFits(b: Books, t: nat, key: nat, lines: seq<ReceiptLine>)
    requires TransfersOk(b) && StatusesFit(b.transfers) && ReceiveTransfer(b, t, key, lines).Ok?
    ensures StatusesFit(ReceiveTransfer(b, t, key, lines).value.transfers)
  {
    var tr, d := b.transfers[t], ReceiveTransfer(b, t, key, lines).value;
    if FindReceipt(tr.receipts, key) == |tr.receipts| {
      ReceiptEffect(b, t, key, lines);
      NewReceiptStatus(b, t, key, lines);
      assert StatusFits(tr) && TransferOk(tr);
      assert LineBrings(d.log[|b.log|], t, |tr.receipts|, tr, d.transfers[t].items, lines, 0);
      ReceivedFits(tr, d.transfers[t], lines);
    }
  }

  lemma ApplyFits(b: Books, op: Op)
    requires Healthy(b) && TransfersLinked(b) && WellPosed(op) && StatusesFit(b.transfers)
    ensures StatusesFit(Apply(b, op).transfers)
  {
    if !ForTransfers(op) {
      var steps := Decompose(b, op);
      InternalPath(b, steps);
    } else if Attempt(b, op).Ok? {
      match op
      case OpReceive(t, k, ls) => ReceiveFits(b, t, k, ls);
      case OpShip(t) => ShipFits(b, t);
      case OpCreate(s, d, items) => assert StatusFits(Transfer(s, d, items, PENDING, []));
      case OpCancelTransfer(t) => assert StatusFits(b.transfers[t]);
    }
  }

  lemma ShipFits(b: Books, t: nat)
    requires StatusesFit(b.transfers) && Ship(b, t).Ok?
    ensures StatusesFit(Ship(b, t).value.transfers)
  {
    assert StatusFits(b.transfers[t]);
    if b.transfers[t].status == PENDING {
      ShipFrame(b, t, |b.transfers[t].items|);
    }
  }

  lemma {:induction false} RunFits(b: Books, ops: seq<Op>)
    requires Healthy(b) && TransfersLinked(b) && StatusesFit(b.transfers) && AllWellPosed(ops)
    ensures StatusesFit(Run(b, ops).transfers)
  {
    if ops != [] {
      var n := |ops| - 1;
      RunFits(b, ops[..n]);
      RunHealthy(b, ops[..n]);
      RunLinks(b, ops[..n]);
      ApplyFits(Run(b, ops[..n]), ops[n]);
    }
  }

  lemma LinkedReceived(d: Books, t: nat, j: nat)
    requires TransfersLinked(d) && t < |d.transfers| && j < |d.transfers[t].items|
    ensures CameIn(d.log, t, d.transfers[t].items[j].item) == d.transfers[t].items[j].received
  {
    var tr := d.transfers[t];
    assert TransferLinked(d.log, t, tr);
    if Unshipped(tr) {
      SumByZero(d.log, ReceivedQuantity(t, tr.items[j].item));
    } else {
      assert Linked(d.log, t, tr.source, tr.items[j]);
    }
  }

  lemma ShippedIff(d: Books, t: nat)
    requires TransfersLinked(d) && t < |d.transfers| && d.transfers[t].items != []
    ensures HasShipment(d.log, t) <==> !Unshipped(d.transfers[t])
  {
    var tr := d.transfers[t];
    assert TransferLinked(d.log, t, tr);
    if Unshipped(tr) {
      forall k | 0 <= k < |d.log| ensures d.log[k].ref != TransferShipment(t) { assert !Concerns(d.log[k], t); }
    } else {
      assert Linked(d.log, t, tr.source, tr.items[0]);
    }
  }

  /** The status of every transfer is what the movements about it say. */
  predicate StatusIsLogged(d: Books, t: nat)
    requires t < |d.transfers|
  {
    var tr := d.transfers[t];
    && (tr.status in {PENDING, CANCELLED} <==> !HasShipment(d.log, t))
    && (tr.status == IN_TRANSIT <==> HasShipment(d.log, t) && NothingCameIn(d.log, t, tr.items))
    && (tr.status == RECEIVED <==> HasShipment(d.log, t) && AllCameIn(d.log, t, tr.items))
    && (tr.status == PARTIALLY_RECEIVED <==>
          HasShipment(d.log, t) && !NothingCameIn(d.log, t, tr.items) && !AllCameIn(d.log, t, tr.items))
  }

  lemma FittingIsLogged(d: Books, t: nat)
    requires TransfersOk(d) && TransfersLinked(d) && StatusesFit(d.transfers) && t < |d.transfers|
    ensures StatusIsLogged(d, t)
  {
    var tr := d.transfers[t];
    assert StatusFits(tr) && TransferOk(tr) && ItemOk(tr.items[0]);
    ShippedIff(d, t);
    forall j | 0 <= j < |tr.items| ensures CameIn(d.log, t, tr.items[j].item) == tr.items[j].received { LinkedReceived(d, t, j); }
    assert NothingCameIn(d.log, t, tr.items) <==> NothingIn(tr.items);
    assert AllCameIn(d.log, t, tr.items) <==> AllIn(tr.items) by {
      if AllIn(tr.items) { forall j | 0 <= j < |tr.items| ensures CameIn(d.log, t, tr.items[j].item) >= tr.items[j].quantity - 0.000000001 { assert Complete(tr.items[j]); } }
    }
    if NothingIn(tr.items) { assert !Complete(tr.items[0]); }
  }

  /**
    After any run a transfer has been shipped exactly when it is neither pending nor cancelled.  A shipped
    one is on the road while nothing came in, received exactly when every item came in up to the tolerance,
    and partially received in between.
  */
  lemma StatusIsWhatCameIn(b: Books, ops: seq<Op>, t: nat)
    requires Healthy(b) && TransfersLinked(b) && StatusesFit(b.transfers) && AllWellPosed(ops) && t < |Run(b, ops).transfers|
    ensures StatusIsLogged(Run(b, ops), t)
  {
    RunHealthy(b, ops);
    RunLinks(b, ops);
    RunFits(b, ops);
    FittingIsLogged(Run(b, ops), t);
  }

  /** Something of item j is still to come, beyond the tolerance. */
  predicate Outstanding(d: Books, t: nat, j: nat)
    requires t < |d.transfers|
  {
    j < |d.transfers[t].items| && CameIn(d.log, t, d.transfers[t].items[j].item) < d.transfers[t].items[j].quantity - 0.000000001
  }

  /**
    As long as some item of a shipped transfer is outstanding beyond the tolerance, any part of it can be
    received under a new key, whatever happened before.
  */
  lemma OutstandingIsReceivable(b: Books, ops: seq<Op>, t: nat, j: nat, key: nat, q: real)
    requires Healthy(b) && TransfersLinked(b) && CostedConfigured(b) && StatusesFit(b.transfers) && AllWellPosed(ops)
    requires t < |Run(b, ops).transfers| && HasShipment(Run(b, ops).log, t) && Outstanding(Run(b, ops), t, j)
    requires NewKey(Run(b, ops).transfers[t], key)
    requires var it := Run(b, ops).transfers[t].items[j];
             0.0 < q <= it.quantity - CameIn(Run(b, ops).log, t, it.item)
    ensures ReceiveTransfer(Run(b, ops), t, key, [ReceiptLine(j, q)]).Ok?
  {
    var d := Run(b, ops);
    RunHealthy(b, ops);
    RunLinks(b, ops);
    StatusIsWhatCameIn(b, ops, t);
    assert !AllCameIn(d.log, t, d.transfers[t].items);
    LinkedReceived(d, t, j);
    ReceiveAcceptedIff(b, ops, t, key, [ReceiptLine(j, q)]);
  }

  // ------------------------------------------------------------------ what is never undone

  /** The states a transfer can go to from a state. */
  predicate MayBecome(was: TransferStatus, now: TransferStatus)
  {
    || now == was
    || (was == PENDING && now != PENDING)
    || (was == IN_TRANSIT && now in {PARTIALLY_RECEIVED, RECEIVED})
    || (was == PARTIALLY_RECEIVED && now == RECEIVED)
  }

  /** The transfer between two states of the books: same ends, same lines, never back. */
  predicate GoesOn(was: Transfer, now: Transfer)
  {
    && MayBecome(was.status, now.status)
    && now.source == was.source && now.destination == was.destination
    && |now.items| == |was.items|
    && (forall j :: 0 <= j < |was.items| ==>
          now.items[j] == was.items[j].(received := now.items[j].received) && now.items[j].received >= was.items[j].received)
    && (was.status in {CANCELLED, RECEIVED} ==> now == was)
  }

  predicate AllGoOn(ts: seq<Transfer>, ts2: seq<Transfer>)
  {
    |ts| <= |ts2| && forall t :: 0 <= t < |ts| ==> GoesOn(ts[t], ts2[t])
  }

  lemma ReceiveGoesOn(b: Books, t: nat, key: nat, lines: seq<ReceiptLine>)
    requires TransfersOk(b) && ReceiveTransfer(b, t, key, lines).Ok?
    ensures AllGoOn(b.transfers, ReceiveTransfer(b, t, key, lines).value.transfers)
  {
    var tr, d := b.transfers[t], ReceiveTransfer(b, t, key, lines).value;
    if FindReceipt(tr.receipts, key) == |tr.receipts| {
      ReceiptEffect(b, t, key, lines);
      var now := d.transfers[t];
      forall j | 0 <= j < |tr.items|
        ensures now.items[j] == tr.items[j].(received := now.items[j].received) && now.items[j].received >= tr.items[j].received
      {
        assert ItemAfter(tr.items[j], now.items[j], lines, j);
        if Names(lines, j) { var i :| 0 <= i < |lines| && lines[i].index == j; assert NamedBy(lines, j, i); }
      }
    }
  }

  lemma ApplyGoesOn(b: Books, op: Op)
    requires Healthy(b) && WellPosed(op)
    ensures AllGoOn(b.transfers, Apply(b, op).transfers)
  {
    if !ForTransfers(op) {
      var steps := Decompose(b, op);
      InternalPath(b, steps);
    } else if Attempt(b, op).Ok? {
      match op
      case OpReceive(t, k, ls) => ReceiveGoesOn(b, t, k, ls);
      case OpShip(t) => if b.transfers[t].status == PENDING { ShipFrame(b, t, |b.transfers[t].items|); }
      case OpCreate(s, d, items) =>
      case OpCancelTransfer(t) =>
    }
  }

  lemma GoesOnAndOn(xs: seq<Transfer>, ys: seq<Transfer>, zs: seq<Transfer>)
    requires AllGoOn(xs, ys) && AllGoOn(ys, zs)
    ensures AllGoOn(xs, zs)
  {
    forall t | 0 <= t < |xs| ensures GoesOn(xs[t], zs[t]) { assert GoesOn(xs[t], ys[t]) && GoesOn(ys[t], zs[t]); }
  }

  /**
    Over any run transfers keep their ends and lines and only go forward: pending, on the road, partially
    received, received.  Nothing that came in is taken back, and a cancelled or received transfer stays
    exactly as it is.
  */
  lemma {:induction false} TransfersGoOn(b: Books, ops: seq<Op>)
    requires Healthy(b) && AllWellPosed(ops)
    ensures AllGoOn(b.transfers, Run(b, ops).transfers)
  {
    if ops != [] {
      var n := |ops| - 1;
      TransfersGoOn(b, ops[..n]);
      RunHealthy(b, ops[..n]);
      ApplyGoesOn(Run(b, ops[..n]), ops[n]);
      GoesOnAndOn(b.transfers, Run(b, ops[..n]).transfers, Run(b, ops).transfers);
    }
  }

  /** A cancelled transfer never gets a movement of any kind. */
  lemma CancelledNeverMoves(b: Books, ops: seq<Op>, t: nat)
    requires Healthy(b) && TransfersLinked(b) && AllWellPosed(ops) && t < |b.transfers| && b.transfers[t].status == CANCELLED
    ensures t < |Run(b, ops).transfers| && Run(b, ops).transfers[t] == b.transfers[t]
    ensures forall k :: 0 <= k < |Run(b, ops).log| ==> !Concerns(Run(b, ops).log[k], t)
  {
    TransfersGoOn(b, ops);
    RunLinks(b, ops);
    assert GoesOn(b.transfers[t], Run(b, ops).transfers[t]);
    assert TransferLinked(Run(b, ops).log, t, Run(b, ops).transfers[t]);
  }

  /** Cancelling: a pending transfer becomes cancelled, a cancelled one stays so, a shipped one is refused. */
  lemma CancelEffect(b: Books, t: nat)
    requires TransfersLinked(b) && StatusesFit(b.transfers) && t < |b.transfers|
    ensures CancelTransfer(b, t).Ok? <==> !HasShipment(b.log, t)
    ensures CancelTransfer(b, t).Ok? ==>
              CancelTransfer(b, t).value == b.(transfers := b.transfers[t := b.transfers[t].(status := CANCELLED)])
  {
    assert StatusFits(b.transfers[t]);
    ShippedIff(b, t);
    assert b.transfers[t].status == CANCELLED ==> b.transfers[t := b.transfers[t].(status := CANCELLED)] == b.transfers;
  }

  // ------------------------------------------------------------------ from one warehouse to the other

  /** A request that can be created: two different warehouses and 1 to 100 different items of at least 0.1. */
  predicate Creatable(source: nat, destination: nat, items: seq<TransferItem>)
  {
    && source != destination && 1 <= |items| <= 100 && DistinctItems(items)
    && forall j :: 0 <= j < |items| ==> items[j].quantity >= 0.1 && items[j].received == 0.0
  }

  /** Everything that was sent. */
  function FullLines(items: seq<TransferItem>): (lines: seq<ReceiptLine>)
    ensures |lines| == |items|
    ensures forall j :: 0 <= j < |items| ==> lines[j] == ReceiptLine(j, items[j].quantity)
  {
    seq(|items|, j requires 0 <= j < |items| => ReceiptLine(j, items[j].quantity))
  }

  function AllReceived(items: seq<TransferItem>): (now: seq<TransferItem>)
    ensures |now| == |items|
    ensures forall j :: 0 <= j < |items| ==> now[j] == items[j].(received := items[j].quantity)
  {
    seq(|items|, j requires 0 <= j < |items| => items[j].(received := items[j].quantity))
  }

  lemma CreateEffect(b: Books, source: nat, destination: nat, items: seq<TransferItem>)
    ensures CreateTransfer(b, source, destination, items).Ok? <==> Creatable(source, destination, items)
    ensures Creatable(source, destination, items) ==>
              CreateTransfer(b, source, destination, items).value ==
              b.(transfers := b.transfers + [Transfer(source, destination, items, PENDING, [])])
  {
  }

  /** All of this item has moved from one end to the other. */
  predicate Moved(b: Books, d: Books, source: nat, destination: nat, it: TransferItem)
  {
    && OnHand(d, Loc(it.item, source)) == OnHand(b, Loc(it.item, source)) - it.quantity
    && OnHand(d, Loc(it.item, destination)) == OnHand(b, Loc(it.item, destination)) + it.quantity
  }

  ghost predicate OthersStay(b: Books, d: Books, source: nat, destination: nat, items: seq<TransferItem>)
  {
    forall l: Loc :: l.warehouse !in {source, destination} || (forall j :: 0 <= j < |items| ==> items[j].item != l.item) ==>
      OnHand(d, l) == OnHand(b, l)
  }

  lemma PackedAt(tr: Transfer, j: nat)
    requires j < |tr.items| && DistinctItems(tr.items)
    ensures Packed(tr, |tr.items|)(Loc(tr.items[j].item, tr.source)) == tr.items[j].quantity
  {
    var front, tail := tr.items[..j], tr.items[j + 1..];
    var f := ItemAt(tr.source, Loc(tr.items[j].item, tr.source));
    assert tr.items[..|tr.items|] == front + [tr.items[j]] + tail;
    SumByConcat(front + [tr.items[j]], tail, f);
    SumBySnoc(front, tr.items[j], f);
    SumByZero(front, f);
    SumByZero(tail, f);
  }

  lemma PackedElsewhere(tr: Transfer, loc: Loc)
    requires loc.warehouse != tr.source || forall j :: 0 <= j < |tr.items| ==> tr.items[j].item != loc.item
    ensures Packed(tr, |tr.items|)(loc) == 0.0
  {
    SumByZero(tr.items[..|tr.items|], ItemAt(tr.source, loc));
  }

  lemma FullReceipt(was: seq<TransferItem>, now: seq<TransferItem>)
    requires ItemsAfter(was, now, FullLines(was)) && forall j :: 0 <= j < |was| ==> was[j].received == 0.0
    ensures now == AllReceived(was)
  {
    forall j | 0 <= j < |was| ensures now[j] == AllReceived(was)[j] {
      assert ItemAfter(was[j], now[j], FullLines(was), j) && NamedBy(FullLines(was), j, j);
    }
  }

  /** Everything that transfers rely on. */
  ghost predicate Consistent(b: Books) { Healthy(b) && TransfersLinked(b) && CostedConfigured(b) }

  lemma ApplyConsistent(b: Books, op: Op)
    requires Consistent(b) && WellPosed(op)
    ensures Consistent(Apply(b, op))
  {
    ApplyHealthy(b, op);
    ApplyLinks(b, op);
    var steps := Decompose(b, op);
    PathCosted(b, steps);
  }

  lemma CreateWhole(b: Books, source: nat, destination: nat, items: seq<TransferItem>) returns (c: Books)
    requires Consistent(b) && Creatable(source, destination, items)
    ensures c == Apply(b, OpCreate(source, destination, items)) && Consistent(c)
    ensures c == b.(transfers := b.transfers + [Transfer(source, destination, items, PENDING, [])])
  {
    CreateEffect(b, source, destination, items);
    c := CreateTransfer(b, source, destination, items).value;
    ApplyConsistent(b, OpCreate(source, destination, items));
  }

  lemma ShipWhole(c: Books, t: nat) returns (e: Books)
    requires Consistent(c) && t < |c.transfers| && c.transfers[t].status == PENDING
    requires LoadableUpTo(c, c.transfers[t], |c.transfers[t].items|)
    ensures e == Apply(c, OpShip(t)) && Consistent(e)
    ensures e.transfers == WithStatus(c.transfers, t, IN_TRANSIT)
    ensures LoadedAll(c, e.(transfers := c.transfers), t, c.transfers[t], |c.transfers[t].items|)
  {
    ShipEffect(c, t);
    e := Ship(c, t).value;
    ApplyConsistent(c, OpShip(t));
  }

  /** What a transfer has become once everything was received under one key. */
  function Finished(tr: Transfer, key: nat): Transfer
  {
    tr.(items := AllReceived(tr.items), status := RECEIVED, receipts := [Receipt(key, FullLines(tr.items))])
  }

  lemma ReceiveWhole(e: Books, t: nat, key: nat) returns (d: Books)
    requires Consistent(e) && t < |e.transfers| && e.transfers[t].status == IN_TRANSIT && e.transfers[t].receipts == []
    requires Creatable(e.transfers[t].source, e.transfers[t].destination, e.transfers[t].items)
    ensures d == Apply(e, OpReceive(t, key, FullLines(e.transfers[t].items)))
    ensures d.transfers == e.transfers[t := Finished(e.transfers[t], key)]
    ensures StockAfter(e, d, e.transfers[t].destination, e.transfers[t].items, AllReceived(e.transfers[t].items))
  {
    FullIsAccepted(e, t, key);
    d := FullReceiptEffect(e, t, key);
  }

  lemma FullReceiptEffect(e: Books, t: nat, key: nat) returns (d: Books)
    requires TransfersOk(e) && t < |e.transfers| && e.transfers[t].receipts == [] && NothingIn(e.transfers[t].items)
    requires ReceiveTransfer(e, t, key, FullLines(e.transfers[t].items)).Ok?
    ensures d == Apply(e, OpReceive(t, key, FullLines(e.transfers[t].items)))
    ensures d.transfers == e.transfers[t := Finished(e.transfers[t], key)]
    ensures StockAfter(e, d, e.transfers[t].destination, e.transfers[t].items, AllReceived(e.transfers[t].items))
  {
    var lines := FullLines(e.transfers[t].items);
    d := ReceiveTransfer(e, t, key, lines).value;
    ReceiptEffect(e, t, key, lines);
    NewReceiptStatus(e, t, key, lines);
    FullReceipt(e.transfers[t].items, d.transfers[t].items);
    FinishedNow(e.transfers, d.transfers, t, key);
  }

  lemma FullIsAccepted(e: Books, t: nat, key: nat)
    requires Consistent(e) && t < |e.transfers| && e.transfers[t].status == IN_TRANSIT && e.transfers[t].receipts == []
    requires Creatable(e.transfers[t].source, e.transfers[t].destination, e.transfers[t].items)
    ensures ReceiveTransfer(e, t, key, FullLines(e.transfers[t].items)).Ok? && TransfersOk(e) && NothingIn(e.transfers[t].items)
  {
    AllFit(e.transfers[t].items);
    NewReceiptIff(e, t, key, FullLines(e.transfers[t].items));
  }

  lemma FinishedNow(ts: seq<Transfer>, ts2: seq<Transfer>, t: nat, key: nat)
    requires t < |ts| && |ts2| == |ts| && (forall u :: 0 <= u < |ts| && u != t ==> ts2[u] == ts[u])
    requires ts[t].receipts == [] && ts2[t].receipts == ts[t].receipts + [Receipt(key, FullLines(ts[t].items))]
    requires ts2[t].source == ts[t].source && ts2[t].destination == ts[t].destination && ts2[t].items == AllReceived(ts[t].items)
    requires ts2[t].status == if AllIn(ts2[t].items) then RECEIVED else PARTIALLY_RECEIVED
    ensures ts2 == ts[t := Finished(ts[t], key)]
  {
    assert ts2[t] == Finished(ts[t], key);
  }

  lemma AllFit(items: seq<TransferItem>)
    requires 1 <= |items| <= 100 && forall j :: 0 <= j < |items| ==> items[j].quantity >= 0.1 && items[j].received == 0.0
    ensures WellFormed(FullLines(items)) && LinesFit(items, FullLines(items))
  {
  }

  lemma WholeStock(b: Books, e: Books, d: Books, t: nat, tr: Transfer, now: seq<TransferItem>)
    requires DistinctItems(tr.items) && tr.source != tr.destination && |now| == |tr.items|
    requires forall l: Loc :: OnHand(e, l) == OnHand(b, l) - Packed(tr, |tr.items|)(l)
    requires StockAfter(e, d, tr.destination, tr.items, now)
    requires forall j :: 0 <= j < |now| ==> now[j].received - tr.items[j].received == tr.items[j].quantity
    ensures forall j :: 0 <= j < |tr.items| ==> Moved(b, d, tr.source, tr.destination, tr.items[j])
    ensures OthersStay(b, d, tr.source, tr.destination, tr.items)
  {
    forall j | 0 <= j < |tr.items| ensures Moved(b, d, tr.source, tr.destination, tr.items[j]) {
      PackedAt(tr, j);
      PackedElsewhere(tr, Loc(tr.items[j].item, tr.destination));
    }
    forall l: Loc | l.warehouse !in {tr.source, tr.destination} || forall j :: 0 <= j < |tr.items| ==> tr.items[j].item != l.item
      ensures OnHand(d, l) == OnHand(b, l)
    {
      PackedElsewhere(tr, l);
    }
  }

  /**
    A transfer from beginning to end: created, shipped and received in full, it takes each quantity from the
    source and puts it down at the destination, moves nothing else, and ends as received.  All it needs is
    configured items and enough stock at the source.
  */
  lemma WholeTransfer(b: Books, source: nat, destination: nat, items: seq<TransferItem>, key: nat) returns (sent: Books, d: Books)
    requires Consistent(b) && Creatable(source, destination, items)
    requires forall j :: 0 <= j < |items| ==> items[j].item in b.configured && items[j].quantity <= OnHand(b, Loc(items[j].item, source))
    ensures sent == Apply(Apply(b, OpCreate(source, destination, items)), OpShip(|b.transfers|))
    ensures d == Apply(sent, OpReceive(|b.transfers|, key, FullLines(items)))
    ensures MovedInFull(b, d, source, destination, items, key)
  {
    var tr := Transfer(source, destination, items, PENDING, []);
    sent := SendWhole(b, tr);
    d := ReceiveWhole(sent, |b.transfers|, key);
    MovesInFull(b, sent, d, tr, key);
  }

  ghost predicate MovedInFull(b: Books, d: Books, source: nat, destination: nat, items: seq<TransferItem>, key: nat)
  {
    && d.transfers ==
       b.transfers + [Transfer(source, destination, AllReceived(items), RECEIVED, [Receipt(key, FullLines(items))])]
    && (forall j :: 0 <= j < |items| ==> Moved(b, d, source, destination, items[j]))
    && OthersStay(b, d, source, destination, items)
  }

  lemma MovesInFull(b: Books, e: Books, d: Books, tr: Transfer, key: nat)
    requires DistinctItems(tr.items) && tr.source != tr.destination && NothingIn(tr.items)
    requires e.transfers == b.transfers + [tr.(status := IN_TRANSIT)]
    requires forall l: Loc :: OnHand(e, l) == OnHand(b, l) - Packed(tr, |tr.items|)(l)
    requires d.transfers == e.transfers[|b.transfers| := Finished(tr, key)]
    requires StockAfter(e, d, tr.destination, tr.items, AllReceived(tr.items))
    ensures MovedInFull(b, d, tr.source, tr.destination, tr.items, key)
  {
    WholeStock(b, e, d, |b.transfers|, tr, AllReceived(tr.items));
    assert d.transfers == b.transfers + [Finished(tr, key)];
  }

  lemma SendWhole(b: Books, tr: Transfer) returns (e: Books)
    requires Consistent(b) && tr.status == PENDING && tr.receipts == [] && Creatable(tr.source, tr.destination, tr.items)
    requires forall j :: 0 <= j < |tr.items| ==> tr.items[j].item in b.configured && tr.items[j].quantity <= OnHand(b, Loc(tr.items[j].item, tr.source))
    ensures e == Apply(Apply(b, OpCreate(tr.source, tr.destination, tr.items)), OpShip(|b.transfers|)) && Consistent(e)
    ensures e.transfers == b.transfers + [tr.(status := IN_TRANSIT)]
    ensures forall l: Loc :: OnHand(e, l) == OnHand(b, l) - Packed(tr, |tr.items|)(l)
  {
    var c := CreateWhole(b, tr.source, tr.destination, tr.items);
    LoadableOnceCreated(b, c, tr);
    e := ShipWhole(c, |b.transfers|);
    LoadedStock(b, c, e, |b.transfers|, tr);
  }

  lemma LoadableOnceCreated(b: Books, c: Books, tr: Transfer)
    requires c == b.(transfers := c.transfers)
    requires forall j :: 0 <= j < |tr.items| ==> tr.items[j].item in b.configured && tr.items[j].quantity <= OnHand(b, Loc(tr.items[j].item, tr.source))
    ensures LoadableUpTo(c, tr, |tr.items|)
  {
    forall j | 0 <= j < |tr.items| ensures Loadable(c, tr, j) {
      assert OnHand(c, Loc(tr.items[j].item, tr.source)) == OnHand(b, Loc(tr.items[j].item, tr.source));
    }
  }

  lemma LoadedStock(b: Books, c: Books, e: Books, t: nat, tr: Transfer)
    requires c == b.(transfers := c.transfers) && LoadedAll(c, e.(transfers := c.transfers), t, tr, |tr.items|)
    ensures forall l: Loc :: OnHand(e, l) == OnHand(b, l) - Packed(tr, |tr.items|)(l)
  {
    forall l: Loc ensures OnHand(e, l) == OnHand(b, l) - Packed(tr, |tr.items|)(l) {
      assert OnHand(e.(transfers := c.transfers), l) == OnHand(c, l) - Packed(tr, |tr.items|)(l);
    }
  }
}
