/**
  Main results about the payment protocol, over every run: one charge per invoice, cancellation and
  charging exclude each other, settlement happens once and for all, and a redelivered webhook does
  nothing.
*/
module PaymentSafety {
  import opened Fifo
  import opened Billing
  import opened PaymentProtocol

  // ------------------------------------------------------------------ one charge

  /** The charges of an invoice that the provider did not definitely reject. */
  function LiveOf(charges: seq<Charge>, i: nat): set<nat>
  {
    set k | 0 <= k < |charges| && Live(charges, k, i)
  }

  function Owners(w: World, i: nat): set<nat>
  {
    set c | c in w.callers && w.callers[c].invoice == i && Owning(w.callers[c].place)
  }

  lemma AtMostOne<T>(s: set<T>)
    requires forall x, y :: x in s && y in s ==> x == y
    ensures |s| <= 1
  {
    if s != {} {
      var x :| x in s;
      assert s == {x};
    }
  }

  /**
    Whatever the callers, crashes, lost answers and other operations: at most one charge of an invoice
    was possibly accepted, at most one caller owns its claim, and every payment request id stored on
    the attempt or the invoice, or returned to a caller, is that charge's id.
  */
  lemma OneLiveCharge(actions: seq<Action>, i: nat)
    ensures var w := Trace(Start(), actions);
            && |LiveOf(w.charges, i)| <= 1 && |Owners(w, i)| <= 1
            && (i in w.db.attempts && w.db.attempts[i].paymentRequestId.Some? ==>
                  LiveOf(w.charges, i) == {w.db.attempts[i].paymentRequestId.value})
            && (i < |w.db.invoices| && w.db.invoices[i].paymentRequestId.Some? ==>
                  LiveOf(w.charges, i) == {w.db.invoices[i].paymentRequestId.value})
            && (forall c :: c in w.callers && w.callers[c].invoice == i && w.callers[c].place.Returned? ==>
                  LiveOf(w.charges, i) == {w.callers[c].place.request})
  {
    StartSafe();
    TraceSafe(Start(), actions);
    var w := Trace(Start(), actions);
    forall c, e | c in Owners(w, i) && e in Owners(w, i) ensures c == e {
      assert Rival(w.callers[c], w.callers[e]);
    }
    AtMostOne(Owners(w, i));
    AtMostOne(LiveOf(w.charges, i));
    assert AttemptOk(w.db, w.charges, i);
    if i < |w.db.invoices| { assert InvoiceOk(w.db.invoices[i], i, w.db.attempts); }
    forall k: nat | Live(w.charges, k, i) ensures LiveOf(w.charges, i) == {k} { OnlyLive(w.charges, k, i); }
    forall c | c in w.callers ensures CallerOk(w.db, w.charges, w.callers[c]) {}
  }

  lemma OnlyLive(charges: seq<Charge>, k: nat, i: nat)
    requires OneCharge(charges) && Live(charges, k, i)
    ensures LiveOf(charges, i) == {k}
  {
  }

  // ------------------------------------------------------------------ settled for good

  predicate Settled(w: World, i: nat, s: InvoiceStatus)
  {
    i < |w.db.invoices| && w.db.invoices[i].status == s && s != PENDING
  }

  lemma DeliverTouches(d: Db, h: Webhook, i: nat)
    requires i < |d.invoices| && d.invoices[i].status != PENDING
    ensures i < |Deliver(d, h).db.invoices| && Deliver(d, h).db.invoices[i] == d.invoices[i]
  {
  }

  lemma SettledStays(w: World, a: Action, i: nat, s: InvoiceStatus)
    requires Settled(w, i, s)
    ensures Settled(Next(w, a), i, s)
  {
    match a
    case Receive(h) => DeliverTouches(w.db, h, i);
    case _ =>
  }

  /** PAID, FAILED and CANCELLED are never left. */
  lemma {:induction false} SettledForGood(w: World, actions: seq<Action>, i: nat, s: InvoiceStatus)
    requires Settled(w, i, s)
    ensures Settled(Trace(w, actions), i, s)
  {
    if actions != [] {
      SettledForGood(w, actions[..|actions| - 1], i, s);
      SettledStays(Trace(w, actions[..|actions| - 1]), actions[|actions| - 1], i, s);
    }
  }

  /**
    Cancelled and charged exclude each other: once cancelled, an invoice has no claim in flight and no
    charge that may have been accepted, whatever happens afterwards.
  */
  lemma CancelledIsNeverCharged(w: World, actions: seq<Action>, i: nat)
    requires Safe(w) && Settled(w, i, CANCELLED)
    ensures var z := Trace(w, actions);
            Settled(z, i, CANCELLED) && LiveOf(z.charges, i) == {} && Owners(z, i) == {} && Idle(z.db, i)
  {
    SettledForGood(w, actions, i, CANCELLED);
    TraceSafe(w, actions);
    var z := Trace(w, actions);
    assert InvoiceOk(z.db.invoices[i], i, z.db.attempts) && AttemptOk(z.db, z.charges, i);
    forall c | c in z.callers && z.callers[c].invoice == i ensures !Owning(z.callers[c].place) {
      assert CallerOk(z.db, z.charges, z.callers[c]);
    }
  }

  /** Cancelling succeeds exactly while nothing was, or may have been, asked of the provider. */
  lemma CancelMeansNoCharge(w: World, i: nat)
    requires Safe(w) && Pending(w.db, i)
    ensures Cancel(w.db, i).Some? <==> Idle(w.db, i)
    ensures Cancel(w.db, i).Some? ==> LiveOf(w.charges, i) == {} && Owners(w, i) == {}
  {
    assert InvoiceOk(w.db.invoices[i], i, w.db.attempts) && AttemptOk(w.db, w.charges, i);
    if Idle(w.db, i) {
      forall c | c in w.callers && w.callers[c].invoice == i ensures !Owning(w.callers[c].place) {
        assert CallerOk(w.db, w.charges, w.callers[c]);
      }
    }
  }

  // ------------------------------------------------------------------ events

  function Count(d: Db, e: Event): nat { multiset(d.outbox)[e] }

  function StatusOf(d: Db, i: nat): InvoiceStatus { if i < |d.invoices| then d.invoices[i].status else PENDING }

  function OneIf(b: bool): nat { if b then 1 else 0 }

  ghost predicate EventsOk(d: Db)
  {
    forall i: nat ::
      && Count(d, InvoicePaid(i)) == OneIf(StatusOf(d, i) == PAID)
      && Count(d, InvoiceCancelled(i)) == OneIf(StatusOf(d, i) == CANCELLED)
  }

  predicate PublishesFailure(w: World, c: nat, i: nat)
  {
    c in w.callers && w.callers[c] == Caller(i, Publishing)
  }

  /** A failure is announced once at most: by its webhook, or by the one caller still to publish it. */
  ghost predicate FailuresOk(w: World)
  {
    && (forall i: nat :: Count(w.db, InvoiceFailed(i)) <= OneIf(StatusOf(w.db, i) == FAILED))
    && (forall c, i: nat :: PublishesFailure(w, c, i) ==> StatusOf(w.db, i) == FAILED && Count(w.db, InvoiceFailed(i)) == 0)
    && (forall c, e, i: nat :: PublishesFailure(w, c, i) && PublishesFailure(w, e, i) ==> c == e)
  }

  ghost predicate SameStatuses(d: Db, e: Db)
  {
    forall i: nat :: StatusOf(e, i) == StatusOf(d, i)
  }

  /** Nothing is announced and no status changes. */
  ghost predicate Silent(d: Db, e: Db) { e.outbox == d.outbox && SameStatuses(d, e) }

  function EventFor(i: nat, s: InvoiceStatus): Event
  {
    match s case PAID => InvoicePaid(i) case CANCELLED => InvoiceCancelled(i) case _ => InvoiceFailed(i)
  }

  /** A pending invoice is settled and the matching event is written with it. */
  ghost predicate Settles(d: Db, e: Db, i: nat, s: InvoiceStatus)
  {
    && i < |d.invoices| && Pending(d, i) && s != PENDING && e.outbox == d.outbox + [EventFor(i, s)]
    && forall j: nat :: StatusOf(e, j) == if j == i then s else StatusOf(d, j)
  }

  lemma SettlesEvents(d: Db, e: Db, i: nat, s: InvoiceStatus)
    requires EventsOk(d) && Settles(d, e, i, s)
    ensures EventsOk(e)
    ensures forall j: nat :: Count(e, InvoiceFailed(j)) == Count(d, InvoiceFailed(j)) + OneIf(s == FAILED && j == i)
  {
    assert multiset(e.outbox) == multiset(d.outbox) + multiset{EventFor(i, s)};
    forall j: nat
      ensures && Count(e, InvoicePaid(j)) == OneIf(StatusOf(e, j) == PAID)
              && Count(e, InvoiceCancelled(j)) == OneIf(StatusOf(e, j) == CANCELLED)
    {
      assert Count(d, InvoicePaid(j)) == OneIf(StatusOf(d, j) == PAID);
    }
  }

  ghost predicate Announced(w: World) { EventsOk(w.db) && FailuresOk(w) }

  /** Callers that were about to publish still are, or are gone; no new one appears. */
  predicate FewerPublishers(w: World, n: World)
  {
    forall c :: c in n.callers && n.callers[c].place == Publishing ==> c in w.callers && w.callers[c] == n.callers[c]
  }

  lemma SilentStep(w: World, n: World)
    requires Announced(w) && Silent(w.db, n.db) && FewerPublishers(w, n)
    ensures Announced(n)
  {
    forall c, i: nat | PublishesFailure(n, c, i) ensures PublishesFailure(w, c, i) {}
    forall e: Event ensures Count(n.db, e) == Count(w.db, e) {}
    forall i: nat ensures Count(n.db, InvoicePaid(i)) == OneIf(StatusOf(n.db, i) == PAID) &&
                          Count(n.db, InvoiceCancelled(i)) == OneIf(StatusOf(n.db, i) == CANCELLED) {
      assert StatusOf(n.db, i) == StatusOf(w.db, i) && Count(w.db, InvoicePaid(i)) == OneIf(StatusOf(w.db, i) == PAID);
    }
    forall i: nat ensures Count(n.db, InvoiceFailed(i)) <= OneIf(StatusOf(n.db, i) == FAILED) {
      assert StatusOf(n.db, i) == StatusOf(w.db, i) && Count(w.db, InvoiceFailed(i)) <= OneIf(StatusOf(w.db, i) == FAILED);
    }
    forall c, i: nat | PublishesFailure(n, c, i) ensures StatusOf(n.db, i) == FAILED && Count(n.db, InvoiceFailed(i)) == 0 {
      assert PublishesFailure(w, c, i) && StatusOf(n.db, i) == StatusOf(w.db, i);
    }
    forall c, e, i: nat | PublishesFailure(n, c, i) && PublishesFailure(n, e, i) ensures c == e {
      assert PublishesFailure(w, c, i) && PublishesFailure(w, e, i);
    }
  }

  lemma SettlingStep(w: World, n: World, i: nat, s: InvoiceStatus)
    requires Announced(w) && Settles(w.db, n.db, i, s) && n.callers == w.callers
    ensures Announced(n)
  {
    SettlesEvents(w.db, n.db, i, s);
    forall j: nat ensures Count(n.db, InvoiceFailed(j)) <= OneIf(StatusOf(n.db, j) == FAILED) {
      assert Count(w.db, InvoiceFailed(j)) <= OneIf(StatusOf(w.db, j) == FAILED);
    }
    forall c, j: nat | PublishesFailure(n, c, j) ensures StatusOf(n.db, j) == FAILED && Count(n.db, InvoiceFailed(j)) == 0 {
      assert PublishesFailure(w, c, j);
    }
    forall c, e, j: nat | PublishesFailure(n, c, j) && PublishesFailure(n, e, j) ensures c == e {
      assert PublishesFailure(w, c, j) && PublishesFailure(w, e, j);
    }
  }

  /** The invoice fails now, its event follows in a transaction of its own. */
  lemma FailingStep(w: World, c: nat)
    requires Announced(w) && c in w.callers && w.callers[c].place == Failing && Pending(w.db, w.callers[c].invoice)
    ensures Announced(Move(w, c))
  {
    var i, n := w.callers[c].invoice, Move(w, c);
    assert StatusOf(w.db, i) == PENDING && Count(w.db, InvoiceFailed(i)) <= OneIf(StatusOf(w.db, i) == FAILED);
    forall j: nat ensures StatusOf(n.db, j) == if j == i then FAILED else StatusOf(w.db, j) {}
    forall j: nat ensures Count(n.db, InvoicePaid(j)) == OneIf(StatusOf(n.db, j) == PAID) &&
                          Count(n.db, InvoiceCancelled(j)) == OneIf(StatusOf(n.db, j) == CANCELLED) {
      assert Count(w.db, InvoicePaid(j)) == OneIf(StatusOf(w.db, j) == PAID);
    }
    forall j: nat ensures Count(n.db, InvoiceFailed(j)) <= OneIf(StatusOf(n.db, j) == FAILED) {
      assert Count(w.db, InvoiceFailed(j)) <= OneIf(StatusOf(w.db, j) == FAILED);
    }
    forall e, j: nat | PublishesFailure(n, e, j) ensures (e == c && j == i) || (PublishesFailure(w, e, j) && j != i) {
      if e != c { assert PublishesFailure(w, e, j); }
    }
  }

  lemma PublishingStep(w: World, c: nat)
    requires Announced(w) && c in w.callers && w.callers[c].place == Publishing
    ensures Announced(Move(w, c))
  {
    var i, n := w.callers[c].invoice, Move(w, c);
    assert PublishesFailure(w, c, i);
    assert multiset(n.db.outbox) == multiset(w.db.outbox) + multiset{InvoiceFailed(i)};
    forall j: nat ensures Count(n.db, InvoicePaid(j)) == OneIf(StatusOf(n.db, j) == PAID) &&
                          Count(n.db, InvoiceCancelled(j)) == OneIf(StatusOf(n.db, j) == CANCELLED) {
      assert Count(w.db, InvoicePaid(j)) == OneIf(StatusOf(w.db, j) == PAID);
    }
    forall j: nat ensures Count(n.db, InvoiceFailed(j)) <= OneIf(StatusOf(n.db, j) == FAILED) {
      assert Count(w.db, InvoiceFailed(j)) <= OneIf(StatusOf(w.db, j) == FAILED);
    }
    forall e, j: nat | PublishesFailure(n, e, j) ensures PublishesFailure(w, e, j) && j != i {
      assert e != c && PublishesFailure(w, e, j);
    }
  }

  lemma DeliverAnnounces(d: Db, h: Webhook)
    ensures var r := Deliver(d, h);
            if r.answer == PROCESSED then
              Resolve(d, h).Some? && Settles(d, r.db, Resolve(d, h).value, if TransitionOf(h) == ToPaid then PAID else FAILED)
            else Silent(d, r.db)
  {
  }

  lemma CompleteSilent(d: Db, i: nat, k: nat)
    ensures Complete(d, i, k).Some? ==> Silent(d, Complete(d, i, k).value)
    ensures forall s, r :: Silent(d, Record(d, i, s, r))
    ensures Silent(d, Claim(d, i).db)
  {
  }

  lemma NextAnnounced(w: World, a: Action)
    requires Announced(w)
    ensures Announced(Next(w, a))
  {
    match a
    case Receive(h) =>
      DeliverAnnounces(w.db, h);
      if Deliver(w.db, h).answer == PROCESSED {
        SettlingStep(w, Next(w, a), Resolve(w.db, h).value, if TransitionOf(h) == ToPaid then PAID else FAILED);
      } else {
        SilentStep(w, Next(w, a));
      }
    case CancelInvoice(i) =>
      if Cancel(w.db, i).Some? { SettlingStep(w, Next(w, a), i, CANCELLED); } else { SilentStep(w, w); }
    case SettleInvoice(i) =>
      if Settle(w.db, i).Some? { SettlingStep(w, Next(w, a), i, PAID); } else { SilentStep(w, w); }
    case Advance(c) =>
      if c in w.callers { MoveAnnounced(w, c); }
    case Lapse(c, committed) => if c in w.callers { BreakAnnounced(w, c, committed); }
    case _ => QuietStep(w, a);
  }

  lemma BreakAnnounced(w: World, c: nat, committed: bool)
    requires Announced(w) && c in w.callers
    ensures Announced(Break(w, c, committed))
  {
    var i, p := w.callers[c].invoice, w.callers[c].place;
    if committed && p == Failing && Pending(w.db, i) { FailingLapse(w, c); }
    else if committed && p == Publishing { PublishingStep(w, c); }
    else { BreakSilent(w, c, committed); }
  }

  lemma BreakSilent(w: World, c: nat, committed: bool)
    requires Announced(w) && c in w.callers && (committed ==> w.callers[c].place !in {Failing, Publishing} || !Pending(w.db, w.callers[c].invoice))
    requires committed ==> w.callers[c].place != Publishing
    ensures Announced(Break(w, c, committed))
  {
    var i, p := w.callers[c].invoice, w.callers[c].place;
    CompleteSilent(w.db, i, if p.Completing? || p.Recovering? then p.request else 0);
    assert Silent(w.db, Break(w, c, committed).db);
    SilentStep(w, Break(w, c, committed));
  }

  /** The invoice failed, but its caller was told otherwise and never publishes the event. */
  lemma FailingLapse(w: World, c: nat)
    requires Announced(w) && c in w.callers && w.callers[c].place == Failing && Pending(w.db, w.callers[c].invoice)
    ensures Announced(Break(w, c, true))
  {
    var i, n := w.callers[c].invoice, Break(w, c, true);
    forall j: nat ensures StatusOf(n.db, j) == if j == i then FAILED else StatusOf(w.db, j) {}
    forall j: nat ensures Count(n.db, InvoicePaid(j)) == OneIf(StatusOf(n.db, j) == PAID) &&
                          Count(n.db, InvoiceCancelled(j)) == OneIf(StatusOf(n.db, j) == CANCELLED) {
      assert Count(w.db, InvoicePaid(j)) == OneIf(StatusOf(w.db, j) == PAID);
    }
    forall j: nat ensures Count(n.db, InvoiceFailed(j)) <= OneIf(StatusOf(n.db, j) == FAILED) {
      assert Count(w.db, InvoiceFailed(j)) <= OneIf(StatusOf(w.db, j) == FAILED);
    }
    forall e, j: nat | PublishesFailure(n, e, j) ensures PublishesFailure(w, e, j) && j != i {
      assert e != c && PublishesFailure(w, e, j);
    }
  }

  lemma QuietStep(w: World, a: Action)
    requires Announced(w) && (a.Create? || a.Spawn? || a.SpawnFailure? || a.Ask? || a.Crash?)
    ensures Announced(Next(w, a))
  {
    SilentStep(w, Next(w, a));
  }

  lemma MoveAnnounced(w: World, c: nat)
    requires Announced(w) && c in w.callers
    ensures Announced(Move(w, c))
  {
    var i, p := w.callers[c].invoice, w.callers[c].place;
    if p == Failing && Pending(w.db, i) { FailingStep(w, c); }
    else if p == Publishing { PublishingStep(w, c); }
    else {
      CompleteSilent(w.db, i, if p.Completing? || p.Recovering? then p.request else 0);
      SilentStep(w, Move(w, c));
    }
  }

  lemma {:induction false} TraceAnnounced(w: World, actions: seq<Action>)
    requires Announced(w)
    ensures Announced(Trace(w, actions))
  {
    if actions != [] {
      TraceAnnounced(w, actions[..|actions| - 1]);
      NextAnnounced(Trace(w, actions[..|actions| - 1]), actions[|actions| - 1]);
    }
  }

  /**
    Settlement is announced exactly once: an invoice has one paid event if it is PAID and none
    otherwise, one cancelled event if it is CANCELLED and none otherwise, and at most one failed event,
    only if it is FAILED.
  */
  lemma ExactlyOnce(actions: seq<Action>, i: nat)
    ensures var d := Trace(Start(), actions).db;
            && Count(d, InvoicePaid(i)) == OneIf(StatusOf(d, i) == PAID)
            && Count(d, InvoiceCancelled(i)) == OneIf(StatusOf(d, i) == CANCELLED)
            && Count(d, InvoiceFailed(i)) <= OneIf(StatusOf(d, i) == FAILED)
  {
    assert Announced(Start());
    TraceAnnounced(Start(), actions);
  }

  // ------------------------------------------------------------------ webhooks

  lemma {:induction false} ReceiptsStay(w: World, actions: seq<Action>, key: EventKey)
    requires key in w.db.receipts
    ensures key in Trace(w, actions).db.receipts
  {
    if actions != [] {
      ReceiptsStay(w, actions[..|actions| - 1], key);
      ReceiptStays(Trace(w, actions[..|actions| - 1]), actions[|actions| - 1], key);
    }
  }

  lemma ReceiptStays(w: World, a: Action, key: EventKey)
    requires key in w.db.receipts
    ensures key in Next(w, a).db.receipts
  {
  }

  /** Once an event was processed or ignored, delivering it again at any later time changes nothing. */
  lemma RedeliveryChangesNothing(w: World, h: Webhook, actions: seq<Action>, again: Webhook)
    requires Deliver(w.db, h).answer != Refused && KeyOf(again) == KeyOf(h)
    ensures var z := Trace(Next(w, Receive(h)), actions);
            Next(z, Receive(again)) == z && Deliver(z.db, again).answer == DUPLICATE
  {
    ReceiptsStay(Next(w, Receive(h)), actions, KeyOf(h));
  }

  /** The action delivers an event under this key, and it is processed or ignored. */
  predicate Handles(w: World, a: Action, key: EventKey)
  {
    a.Receive? && KeyOf(a.webhook) == key && Deliver(w.db, a.webhook).answer in {PROCESSED, IGNORED}
  }

  predicate HandledIn(actions: seq<Action>, key: EventKey)
  {
    actions != [] &&
    (HandledIn(actions[..|actions| - 1], key) || Handles(Trace(Start(), actions[..|actions| - 1]), actions[|actions| - 1], key))
  }

  lemma ReceiptWritten(w: World, a: Action, key: EventKey)
    ensures key in Next(w, a).db.receipts <==> key in w.db.receipts || Handles(w, a, key)
  {
  }

  /** The receipts are exactly the events handled so far. */
  lemma {:induction false} ReceiptsAreHandled(actions: seq<Action>, key: EventKey)
    ensures key in Trace(Start(), actions).db.receipts <==> HandledIn(actions, key)
  {
    if actions != [] {
      ReceiptsAreHandled(actions[..|actions| - 1], key);
      ReceiptWritten(Trace(Start(), actions[..|actions| - 1]), actions[|actions| - 1], key);
    }
  }

  /**
    An event is handled once: over any run, a delivery is a duplicate if and only if an earlier delivery of
    the same event was processed or ignored.  So the deliveries of one event are refused any number of
    times, then handled at most once, and are duplicates from then on.
  */
  lemma EventIsHandledOnce(actions: seq<Action>, h: Webhook)
    ensures Deliver(Trace(Start(), actions).db, h).answer == DUPLICATE <==> HandledIn(actions, KeyOf(h))
  {
    ReceiptsAreHandled(actions, KeyOf(h));
  }

  predicate NumbersDiffer(d: Db)
  {
    forall i, j :: 0 <= i < j < |d.invoices| ==> d.invoices[i].number != d.invoices[j].number
  }

  lemma {:induction false} NumbersStayDifferent(w: World, actions: seq<Action>)
    requires Safe(w) && NumbersDiffer(w.db)
    ensures NumbersDiffer(Trace(w, actions).db) && Safe(Trace(w, actions))
  {
    TraceSafe(w, actions);
    if actions != [] {
      var n := |actions| - 1;
      NumbersStayDifferent(w, actions[..n]);
      NumbersNext(Trace(w, actions[..n]), actions[n]);
    }
  }

  lemma NumbersNext(w: World, a: Action)
    requires Safe(w) && NumbersDiffer(w.db)
    ensures NumbersDiffer(Next(w, a).db)
  {
    match a
    case Create(_, _, _) =>
    case Advance(c) => if c in w.callers { MoveNumbers(w, c); }
    case Lapse(c, committed) => if c in w.callers { SameNumbers(w.db, Break(w, c, committed).db); }
    case Receive(h) => SameNumbers(w.db, Deliver(w.db, h).db);
    case _ => SameNumbers(w.db, Next(w, a).db);
  }

  lemma MoveNumbers(w: World, c: nat)
    requires NumbersDiffer(w.db) && c in w.callers
    ensures NumbersDiffer(Move(w, c).db)
  {
    SameNumbers(w.db, Move(w, c).db);
  }

  lemma SameNumbers(d: Db, e: Db)
    requires NumbersDiffer(d) && |e.invoices| == |d.invoices| && forall i :: 0 <= i < |d.invoices| ==> e.invoices[i].number == d.invoices[i].number
    ensures NumbersDiffer(e)
  {
  }

  /** A request id is stored on one invoice only. */
  lemma RequestIsOnOneInvoice(w: World, i: nat, j: nat)
    requires Safe(w) && i < |w.db.invoices| && j < |w.db.invoices|
    requires w.db.invoices[i].paymentRequestId.Some? && w.db.invoices[i].paymentRequestId == w.db.invoices[j].paymentRequestId
    ensures i == j
  {
    assert InvoiceOk(w.db.invoices[i], i, w.db.attempts) && InvoiceOk(w.db.invoices[j], j, w.db.attempts);
    assert AttemptOk(w.db, w.charges, i) && AttemptOk(w.db, w.charges, j);
  }

  predicate Correlated(v: Invoice, h: Webhook)
  {
    && v.paymentRequestId.Some? && h.paymentRequestId == v.paymentRequestId && h.referenceId == Some(v.number)
    && h.amount == Some(v.amount) && h.currency == Some(v.currency)
  }

  predicate PaymentIsNew(d: Db, h: Webhook)
  {
    forall j :: 0 <= j < |d.invoices| ==> d.invoices[j].paymentId != Some(h.paymentId)
  }

  /**
    A successful capture settles a pending invoice exactly when it carries the invoice's own request
    id, number, amount and currency, under a payment id no other invoice has.
  */
  lemma CaptureSettles(w: World, h: Webhook, i: nat)
    requires Safe(w) && NumbersDiffer(w.db) && Pending(w.db, i)
    requires h.eventType == Capture && h.status == Some(SUCCEEDED) && KeyOf(h) !in w.db.receipts
    ensures StatusOf(Deliver(w.db, h).db, i) == PAID <==> Correlated(w.db.invoices[i], h) && PaymentIsNew(w.db, h)
  {
    var v := w.db.invoices[i];
    assert InvoiceOk(v, i, w.db.attempts);
    if Correlated(v, h) && PaymentIsNew(w.db, h) {
      FoundByRequest(w, h, i);
      FoundByReference(w, h, i);
    } else if Deliver(w.db, h).answer == PROCESSED && Resolve(w.db, h) == Some(i) {
      DeliverWrites(w, h);
      PaymentUnknown(w.db, h, i);
    }
  }

  lemma PaymentUnknown(d: Db, h: Webhook, i: nat)
    requires Resolve(d, h) == Some(i) && i < |d.invoices| && d.invoices[i].paymentId == None
    ensures PaymentIsNew(d, h)
  {
  }

  lemma FoundByRequest(w: World, h: Webhook, i: nat)
    requires Safe(w) && i < |w.db.invoices| && Correlated(w.db.invoices[i], h) && PaymentIsNew(w.db, h)
    ensures ByRequest(w.db, h) == Some(i) && ByPayment(w.db, h) == None
  {
    var j := ByRequest(w.db, h);
    assert w.db.invoices[i].paymentRequestId == h.paymentRequestId;
    RequestIsOnOneInvoice(w, i, j.value);
  }

  lemma FoundByReference(w: World, h: Webhook, i: nat)
    requires Safe(w) && NumbersDiffer(w.db) && i < |w.db.invoices| && h.referenceId == Some(w.db.invoices[i].number)
    ensures Agree(ByReference(w.db, h), i) && Agree(ByNumber(w.db, h), i)
  {
    var j := ByReference(w.db, h);
    if j.Some? {
      assert InvoiceOk(w.db.invoices[j.value], j.value, w.db.attempts);
    }
  }

  // ------------------------------------------------------------------ blocked and recovered

  predicate Blocked(w: World, i: nat) { i in w.db.attempts && w.db.attempts[i] == Attempt(UNKNOWN, None) }

  /** A caller with a stake in the attempt would contradict the blocked state. */
  lemma NoStake(w: World, c: nat, i: nat)
    requires Safe(w) && Blocked(w, i) && c in w.callers && w.callers[c].invoice == i
    ensures !Owning(w.callers[c].place) && !w.callers[c].place.Recovering?
  {
    assert CallerOk(w.db, w.charges, w.callers[c]);
  }

  lemma BlockedMove(w: World, c: nat, i: nat)
    requires Safe(w) && Blocked(w, i) && c in w.callers
    ensures Blocked(Move(w, c), i) && Move(w, c).charges == w.charges
  {
    if w.callers[c].invoice == i { NoStake(w, c, i); }
  }

  lemma BlockedBreak(w: World, c: nat, committed: bool, i: nat)
    requires Safe(w) && Blocked(w, i) && c in w.callers
    ensures Blocked(Break(w, c, committed), i) && Break(w, c, committed).charges == w.charges
  {
    if w.callers[c].invoice == i { NoStake(w, c, i); }
  }

  lemma BlockedNext(w: World, a: Action, i: nat)
    requires Safe(w) && Blocked(w, i)
    ensures Blocked(Next(w, a), i)
    ensures |w.charges| <= |Next(w, a).charges|
    ensures forall k :: |w.charges| <= k < |Next(w, a).charges| ==> Next(w, a).charges[k].invoice != i
  {
    match a
    case Advance(c) => if c in w.callers { BlockedMove(w, c, i); }
    case Lapse(c, committed) => if c in w.callers { BlockedBreak(w, c, committed, i); }
    case Ask(c, reply) => if c in w.callers && w.callers[c].invoice == i { NoStake(w, c, i); }
    case _ =>
  }

  /**
    An attempt whose outcome is unknown and whose id was not retained blocks the invoice for good:
    no run asks the provider for another charge of it.
  */
  lemma {:induction false} UnknownBlocks(w: World, actions: seq<Action>, i: nat)
    requires Safe(w) && Blocked(w, i)
    ensures var z := Trace(w, actions);
            && Blocked(z, i) && |w.charges| <= |z.charges|
            && forall k :: |w.charges| <= k < |z.charges| ==> z.charges[k].invoice != i
  {
    if actions != [] {
      var n := |actions| - 1;
      UnknownBlocks(w, actions[..n], i);
      TraceSafe(w, actions[..n]);
      BlockedNext(Trace(w, actions[..n]), actions[n], i);
    }
  }

  /**
    A retained request id is never lost: the next caller, left undisturbed, links it to the invoice
    without asking the provider again.
  */
  lemma RetainedIsRecovered(w: World, c: nat, i: nat, k: nat)
    requires Safe(w) && Pending(w.db, i) && i in w.db.attempts && w.db.attempts[i] == Attempt(UNKNOWN, Some(k)) && c !in w.callers
    ensures var z := Next(Next(Next(Next(w, Spawn(c, i)), Advance(c)), Advance(c)), Advance(c));
            && i < |z.db.invoices| && i in z.db.attempts && c in z.callers
            && z.callers[c] == Caller(i, Returned(k)) && z.charges == w.charges
            && z.db.invoices[i].paymentRequestId == Some(k) && z.db.attempts[i] == Attempt(COMPLETED, Some(k))
  {
    assert InvoiceOk(w.db.invoices[i], i, w.db.attempts);
  }
}
