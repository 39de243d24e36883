/**
  What a webhook does, by its event type and status alone, after any run of the payment protocol: which
  invoice it is about, when it settles or fails that invoice, and when it is ignored or refused.
*/
module PaymentWebhooks {
  import opened Fifo
  import opened Billing
  import opened PaymentProtocol
  import opened PaymentSafety

  // ------------------------------------------------------------------ the three kinds of events

  predicate ReportsSuccess(h: Webhook) { h.eventType == Capture && h.status == Some(SUCCEEDED) }

  predicate ReportsFailure(h: Webhook)
  {
    h.eventType == Failure && (h.status == Some(PAYMENT_FAILED) || h.status == Some(EXPIRED) || h.status == Some(CANCELED))
  }

  predicate ReportsAuthorization(h: Webhook) { h.eventType == Authorization && h.status == Some(AUTHORIZED) }

  predicate Known(h: Webhook) { ReportsSuccess(h) || ReportsFailure(h) || ReportsAuthorization(h) }

  // ------------------------------------------------------------------ which invoice it is about

  predicate PaymentsDiffer(d: Db)
  {
    forall i, j :: 0 <= i < j < |d.invoices| && d.invoices[i].paymentId.Some? ==> d.invoices[i].paymentId != d.invoices[j].paymentId
  }

  /** The webhook carries the invoice's own request id, number, amount and currency, and no other invoice's payment id. */
  predicate About(d: Db, h: Webhook, i: nat)
  {
    && i < |d.invoices| && Correlated(d.invoices[i], h)
    && d.invoices[i].paymentId in {None, Some(h.paymentId)}
    && forall j :: 0 <= j < |d.invoices| && d.invoices[j].paymentId == Some(h.paymentId) ==> j == i
  }

  /** What holds of the tables at any time. */
  ghost predicate Sane(w: World) { Safe(w) && NumbersDiffer(w.db) && PaymentsDiffer(w.db) }

  lemma ReceivePayments(w: World, h: Webhook)
    requires Safe(w) && PaymentsDiffer(w.db)
    ensures PaymentsDiffer(Deliver(w.db, h).db)
  {
    if Deliver(w.db, h).answer == PROCESSED {
      var i := Resolve(w.db, h).value;
      assert InvoiceOk(w.db.invoices[i], i, w.db.attempts);
      PaymentUnknown(w.db, h, i);
    }
  }

  lemma SamePayments(d: Db, e: Db)
    requires PaymentsDiffer(d) && |e.invoices| == |d.invoices| && forall i :: 0 <= i < |d.invoices| ==> e.invoices[i].paymentId == d.invoices[i].paymentId
    ensures PaymentsDiffer(e)
  {
  }

  lemma MovePayments(w: World, c: nat)
    requires PaymentsDiffer(w.db) && c in w.callers
    ensures PaymentsDiffer(Move(w, c).db)
  {
    SamePayments(w.db, Move(w, c).db);
  }

  lemma BreakPayments(w: World, c: nat, committed: bool)
    requires PaymentsDiffer(w.db) && c in w.callers
    ensures PaymentsDiffer(Break(w, c, committed).db)
  {
    SamePayments(w.db, Break(w, c, committed).db);
  }

  lemma NextPayments(w: World, a: Action)
    requires Safe(w) && PaymentsDiffer(w.db)
    ensures PaymentsDiffer(Next(w, a).db)
  {
    match a
    case Create(_, _, _) =>
    case Receive(h) => ReceivePayments(w, h);
    case Advance(c) => if c in w.callers { MovePayments(w, c); }
    case Lapse(c, committed) => if c in w.callers { BreakPayments(w, c, committed); }
    case CancelInvoice(_) => SamePayments(w.db, Next(w, a).db);
    case SettleInvoice(_) => SamePayments(w.db, Next(w, a).db);
    case _ =>
  }

  lemma {:induction false} TraceSane(w: World, actions: seq<Action>)
    requires Sane(w)
    ensures Sane(Trace(w, actions))
  {
    NumbersStayDifferent(w, actions);
    if actions != [] {
      var n := |actions| - 1;
      TraceSane(w, actions[..n]);
      NextPayments(Trace(w, actions[..n]), actions[n]);
    }
  }

  lemma StartSane()
    ensures Sane(Start())
  {
    StartSafe();
  }

  lemma AboutIsResolved(w: World, h: Webhook, i: nat)
    requires Sane(w) && About(w.db, h, i)
    ensures Resolve(w.db, h) == Some(i)
  {
    assert w.db.invoices[i].paymentRequestId == h.paymentRequestId;
    RequestIsOnOneInvoice(w, i, ByRequest(w.db, h).value);
    FoundByReference(w, h, i);
  }

  lemma ResolvedIsAbout(w: World, h: Webhook, i: nat)
    requires Sane(w) && Resolve(w.db, h) == Some(i) && Consistent(w.db.invoices[i], h)
    ensures About(w.db, h, i)
  {
    assert InvoiceOk(w.db.invoices[i], i, w.db.attempts);
    var j := ByPayment(w.db, h);
    if j == None { assert forall k :: 0 <= k < |w.db.invoices| ==> w.db.invoices[k].paymentId != Some(h.paymentId); }
  }

  lemma AboutIsConsistent(w: World, h: Webhook, i: nat)
    requires Sane(w) && About(w.db, h, i) && h.status.Some?
    ensures Consistent(w.db.invoices[i], h)
  {
    assert InvoiceOk(w.db.invoices[i], i, w.db.attempts);
  }

  lemma AboutOne(d: Db, h: Webhook, i: nat, j: nat)
    requires NumbersDiffer(d) && About(d, h, i) && About(d, h, j)
    ensures i == j
  {
  }

  // ------------------------------------------------------------------ what it does

  /** The invoice takes the status and the payment id, and one event and the receipt are written with it. */
  function SettledBy(d: Db, h: Webhook, i: nat, s: InvoiceStatus): Db
    requires i < |d.invoices|
  {
    Db(d.invoices[i := d.invoices[i].(status := s, paymentId := Some(h.paymentId))], d.attempts,
       d.receipts[KeyOf(h) := PROCESSED], d.outbox + [EventFor(i, s)])
  }

  /** Only the receipt is written. */
  function OnlyReceipt(d: Db, h: Webhook): Db { d.(receipts := d.receipts[KeyOf(h) := IGNORED]) }

  /** A webhook about an invoice under a key that was not handled yet. */
  lemma WebhookAboutInvoice(w: World, h: Webhook, i: nat)
    requires Sane(w) && KeyOf(h) !in w.db.receipts && About(w.db, h, i)
    ensures Deliver(w.db, h) ==
            if !Known(h) then Delivery(w.db, Refused)
            else if ReportsAuthorization(h) || !Pending(w.db, i) then Delivery(OnlyReceipt(w.db, h), IGNORED)
            else Delivery(SettledBy(w.db, h, i, if ReportsSuccess(h) then PAID else FAILED), PROCESSED)
  {
    AboutIsResolved(w, h, i);
    assert InvoiceOk(w.db.invoices[i], i, w.db.attempts);
    if h.status.Some? { AboutIsConsistent(w, h, i); }
  }

  /** A webhook about no invoice. */
  lemma WebhookAboutNone(w: World, h: Webhook)
    requires Sane(w) && KeyOf(h) !in w.db.receipts && forall i :: 0 <= i < |w.db.invoices| ==> !About(w.db, h, i)
    ensures Deliver(w.db, h) == Delivery(w.db, Refused)
  {
    if Resolve(w.db, h).Some? {
      var i := Resolve(w.db, h).value;
      if Consistent(w.db.invoices[i], h) { ResolvedIsAbout(w, h, i); }
    }
  }

  /** The webhook is about some invoice that is still pending. */
  predicate AboutPending(d: Db, h: Webhook, i: nat) { About(d, h, i) && Pending(d, i) }

  lemma AboutPendingIff(w: World, h: Webhook, i: nat)
    requires Sane(w) && Pending(w.db, i)
    ensures About(w.db, h, i) <==> Correlated(w.db.invoices[i], h) && PaymentIsNew(w.db, h)
  {
    assert InvoiceOk(w.db.invoices[i], i, w.db.attempts);
  }

  /**
    After any run, the first delivery of a failed, expired or cancelled payment fails a pending invoice if
    and only if it carries the invoice's own identifiers and amount under a new payment id; and then it
    writes one failed event and changes no other invoice.
  */
  lemma FailureFails(actions: seq<Action>, h: Webhook, i: nat)
    requires var d := Trace(Start(), actions).db; Pending(d, i) && KeyOf(h) !in d.receipts && ReportsFailure(h)
    ensures var d := Trace(Start(), actions).db;
            var r := Deliver(d, h);
            && (StatusOf(r.db, i) == FAILED <==> Correlated(d.invoices[i], h) && PaymentIsNew(d, h))
            && (StatusOf(r.db, i) == FAILED ==> r == Delivery(SettledBy(d, h, i, FAILED), PROCESSED))
            && (StatusOf(r.db, i) != FAILED ==> StatusOf(r.db, i) == PENDING)
  {
    StartSane();
    TraceSane(Start(), actions);
    FailsExactly(Trace(Start(), actions), h, i, FAILED);
  }

  /** The same for a successful capture. */
  lemma CapturePays(actions: seq<Action>, h: Webhook, i: nat)
    requires var d := Trace(Start(), actions).db; Pending(d, i) && KeyOf(h) !in d.receipts && ReportsSuccess(h)
    ensures var d := Trace(Start(), actions).db;
            var r := Deliver(d, h);
            && (StatusOf(r.db, i) == PAID <==> Correlated(d.invoices[i], h) && PaymentIsNew(d, h))
            && (StatusOf(r.db, i) == PAID ==> r == Delivery(SettledBy(d, h, i, PAID), PROCESSED))
            && (StatusOf(r.db, i) != PAID ==> StatusOf(r.db, i) == PENDING)
  {
    StartSane();
    TraceSane(Start(), actions);
    FailsExactly(Trace(Start(), actions), h, i, PAID);
  }

  lemma FailsExactly(w: World, h: Webhook, i: nat, s: InvoiceStatus)
    requires Sane(w) && Pending(w.db, i) && KeyOf(h) !in w.db.receipts
    requires (s == FAILED && ReportsFailure(h)) || (s == PAID && ReportsSuccess(h))
    ensures var r := Deliver(w.db, h);
            && (StatusOf(r.db, i) == s <==> Correlated(w.db.invoices[i], h) && PaymentIsNew(w.db, h))
            && (StatusOf(r.db, i) == s ==> r == Delivery(SettledBy(w.db, h, i, s), PROCESSED))
            && (StatusOf(r.db, i) != s ==> StatusOf(r.db, i) == PENDING)
  {
    AboutPendingIff(w, h, i);
    if About(w.db, h, i) {
      WebhookAboutInvoice(w, h, i);
    } else if j: nat :| j < |w.db.invoices| && About(w.db, h, j) {
      WebhookAboutInvoice(w, h, j);
    } else {
      WebhookAboutNone(w, h);
    }
  }

  /**
    After any run, an authorization changes no invoice, attempt or event: it is ignored, with a receipt, when
    it is about an invoice, and refused without one when it is not.
  */
  lemma AuthorizationChangesNothing(actions: seq<Action>, h: Webhook)
    requires KeyOf(h) !in Trace(Start(), actions).db.receipts && ReportsAuthorization(h)
    ensures var d := Trace(Start(), actions).db;
            Deliver(d, h) == if exists i :: 0 <= i < |d.invoices| && About(d, h, i) then Delivery(OnlyReceipt(d, h), IGNORED) else Delivery(d, Refused)
  {
    StartSane();
    TraceSane(Start(), actions);
    var w := Trace(Start(), actions);
    if i: nat :| i < |w.db.invoices| && About(w.db, h, i) {
      WebhookAboutInvoice(w, h, i);
    } else {
      WebhookAboutNone(w, h);
    }
  }

  /** After any run, any other pair of event type and status is refused and leaves no receipt, unless it is a duplicate. */
  lemma OtherPairsAreRefused(actions: seq<Action>, h: Webhook)
    requires !Known(h)
    ensures var d := Trace(Start(), actions).db;
            Deliver(d, h) == Delivery(d, if KeyOf(h) in d.receipts then DUPLICATE else Refused)
  {
    StartSane();
    TraceSane(Start(), actions);
    var w := Trace(Start(), actions);
    if KeyOf(h) !in w.db.receipts {
      if i: nat :| i < |w.db.invoices| && About(w.db, h, i) {
        WebhookAboutInvoice(w, h, i);
      } else {
        WebhookAboutNone(w, h);
      }
    }
  }

  /** A webhook about an invoice that is no longer pending is ignored, with a receipt, whatever it reports. */
  lemma LateWebhookIsIgnored(actions: seq<Action>, h: Webhook, i: nat)
    requires var d := Trace(Start(), actions).db; About(d, h, i) && !Pending(d, i) && KeyOf(h) !in d.receipts && Known(h)
    ensures var d := Trace(Start(), actions).db; Deliver(d, h) == Delivery(OnlyReceipt(d, h), IGNORED)
  {
    StartSane();
    TraceSane(Start(), actions);
    WebhookAboutInvoice(Trace(Start(), actions), h, i);
  }

  /** Two webhooks are the same event: the captures they list may come in any order. */
  predicate SameEvent(h: Webhook, again: Webhook)
  {
    && again.paymentId == h.paymentId && again.eventType == h.eventType && again.status == h.status
    && multiset(again.captures) == multiset(h.captures)
  }

  /** Handling an event makes duplicates of the same event, and of nothing else. */
  lemma OnlyTheSameEventIsDuplicate(w: World, h: Webhook, again: Webhook)
    requires Deliver(w.db, h).answer in {PROCESSED, IGNORED}
    ensures Deliver(Next(w, Receive(h)).db, again).answer == DUPLICATE <==>
            Deliver(w.db, again).answer == DUPLICATE || SameEvent(h, again)
  {
    assert KeyOf(again) == KeyOf(h) <==> SameEvent(h, again);
  }
}
