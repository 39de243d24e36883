/**
  Invoices, payment-request attempts, webhook receipts and the outbox: the tables behind the payment
  provider protocol, and every transaction the billing repository runs on them.

  An invoice id is its position in the table.  A transaction that throws is `None`: nothing happened.
*/
module Billing {
  import opened Fifo

  datatype InvoiceStatus = PENDING | PAID | FAILED | CANCELLED

  datatype Invoice = Invoice(
    number: nat, amount: int, currency: nat, status: InvoiceStatus,
    referenceId: Option<nat>, paymentRequestId: Option<nat>, paymentId: Option<nat>)

  datatype AttemptState = IN_PROGRESS | REJECTED | UNKNOWN | COMPLETED

  datatype Attempt = Attempt(state: AttemptState, paymentRequestId: Option<nat>)

  datatype EventType = Capture | Failure | Authorization | OtherEvent

  datatype PaymentStatus = SUCCEEDED | PAYMENT_FAILED | EXPIRED | CANCELED | AUTHORIZED | OTHER_STATUS

  /** What the idempotency key of a webhook is computed from; captures are sorted, so order is lost. */
  datatype EventKey = EventKey(
    paymentId: nat, eventType: EventType, status: Option<PaymentStatus>, captures: multiset<nat>)

  datatype Webhook = Webhook(
    eventType: EventType, paymentRequestId: Option<nat>, referenceId: Option<nat>, paymentId: nat,
    amount: Option<int>, currency: Option<nat>, status: Option<PaymentStatus>, captures: seq<nat>)

  datatype Answer = PROCESSED | DUPLICATE | IGNORED | Refused

  datatype Event = InvoicePaid(invoice: nat) | InvoiceFailed(invoice: nat) | InvoiceCancelled(invoice: nat)

  datatype Db = Db(
    invoices: seq<Invoice>,
    attempts: map<nat, Attempt>,
    receipts: map<EventKey, Answer>,
    outbox: seq<Event>)

  predicate Pending(d: Db, i: nat) { i < |d.invoices| && d.invoices[i].status == PENDING }

  function WithStatus(d: Db, i: nat, s: InvoiceStatus): Db
    requires i < |d.invoices|
  {
    d.(invoices := d.invoices[i := d.invoices[i].(status := s)])
  }

  // ------------------------------------------------------------------ the provider protocol

  datatype Claiming = Claiming(db: Db, claimed: bool)

  /** claimXenditPaymentRequest */
  function Claim(d: Db, i: nat): Claiming
  {
    if !Pending(d, i) || d.invoices[i].paymentRequestId.Some? then Claiming(d, false)
    else if i !in d.attempts then Claiming(d.(attempts := d.attempts[i := Attempt(IN_PROGRESS, None)]), true)
    else if d.attempts[i].state == REJECTED then
      Claiming(d.(attempts := d.attempts[i := d.attempts[i].(state := IN_PROGRESS)]), true)
    else Claiming(d, false)
  }

  /** completeXenditPaymentRequest */
  function Complete(d: Db, i: nat, request: nat): Option<Db>
  {
    if !Pending(d, i) || d.invoices[i].paymentRequestId.Some? then None
    else if i !in d.attempts || d.attempts[i].state !in {IN_PROGRESS, UNKNOWN} then None
    else if d.attempts[i].paymentRequestId !in {None, Some(request)} then None
    else
      var v := d.invoices[i];
      Some(d.(invoices := d.invoices[i := v.(referenceId := Some(v.number), paymentRequestId := Some(request))],
              attempts := d.attempts[i := Attempt(COMPLETED, Some(request))]))
  }

  /** recordXenditPaymentRequestOutcome */
  function Record(d: Db, i: nat, s: AttemptState, request: Option<nat>): Db
  {
    if i in d.attempts && d.attempts[i].state == IN_PROGRESS then
      var a := d.attempts[i];
      d.(attempts := d.attempts[i := Attempt(s, if request.Some? then request else a.paymentRequestId)])
    else d
  }

  /** cancelPendingInvoice */
  function Cancel(d: Db, i: nat): Option<Db>
  {
    if !Pending(d, i) || d.invoices[i].paymentRequestId.Some? || d.invoices[i].paymentId.Some? then None
    else if i in d.attempts && d.attempts[i].state != REJECTED then None
    else Some(WithStatus(d, i, CANCELLED).(outbox := d.outbox + [InvoiceCancelled(i)]))
  }

  /** settlePaidInvoice */
  function Settle(d: Db, i: nat): Option<Db>
  {
    if !Pending(d, i) then None
    else Some(WithStatus(d, i, PAID).(outbox := d.outbox + [InvoicePaid(i)]))
  }

  /** updateInvoiceStatus from PENDING to FAILED; its event is published by a separate transaction. */
  function MarkFailed(d: Db, i: nat): Option<Db>
  {
    if !Pending(d, i) then None else Some(WithStatus(d, i, FAILED))
  }

  // ------------------------------------------------------------------ webhooks

  function KeyOf(w: Webhook): EventKey
  {
    EventKey(w.paymentId, w.eventType, w.status, multiset(w.captures))
  }

  /** The first invoice that satisfies a test. */
  function First(invoices: seq<Invoice>, test: Invoice -> bool): (i: Option<nat>)
    ensures i.Some? ==> i.value < |invoices| && test(invoices[i.value])
    ensures i.None? ==> forall j :: 0 <= j < |invoices| ==> !test(invoices[j])
  {
    if invoices == [] then None
    else
      var n := |invoices| - 1;
      var i := First(invoices[..n], test);
      if i.Some? then i else if test(invoices[n]) then Some(n) else None
  }

  function ByRequest(d: Db, w: Webhook): Option<nat>
  {
    if w.paymentRequestId.None? then None else First(d.invoices, (v: Invoice) => v.paymentRequestId == w.paymentRequestId)
  }

  function ByPayment(d: Db, w: Webhook): Option<nat>
  {
    First(d.invoices, (v: Invoice) => v.paymentId == Some(w.paymentId))
  }

  function ByReference(d: Db, w: Webhook): Option<nat>
  {
    if w.referenceId.None? then None else First(d.invoices, (v: Invoice) => v.referenceId == w.referenceId)
  }

  function ByNumber(d: Db, w: Webhook): Option<nat>
  {
    if w.referenceId.None? then None else First(d.invoices, (v: Invoice) => Some(v.number) == w.referenceId)
  }

  predicate Agree(a: Option<nat>, i: nat) { a.Some? ==> a.value == i }

  /** The invoice a webhook is about, when its identifiers are correlated and do not disagree. */
  function Resolve(d: Db, w: Webhook): Option<nat>
  {
    var i := if ByRequest(d, w).Some? then ByRequest(d, w) else ByPayment(d, w);
    if i.None? then None
    else if Agree(ByPayment(d, w), i.value) && Agree(ByReference(d, w), i.value) && Agree(ByNumber(d, w), i.value) then i
    else None
  }

  predicate Consistent(v: Invoice, w: Webhook)
  {
    && w.amount == Some(v.amount) && w.currency == Some(v.currency) && w.status.Some?
    && (v.paymentRequestId.Some? ==> w.paymentRequestId == v.paymentRequestId)
    && (v.paymentId.Some? ==> Some(w.paymentId) == v.paymentId)
    && (v.referenceId.Some? ==> w.referenceId == v.referenceId)
  }

  datatype Transition = ToPaid | ToFailed | NoTransition | Unsupported

  function TransitionOf(w: Webhook): Transition
  {
    if w.eventType == Capture && w.status == Some(SUCCEEDED) then ToPaid
    else if w.eventType == Failure && w.status in {Some(PAYMENT_FAILED), Some(EXPIRED), Some(CANCELED)} then ToFailed
    else if w.eventType == Authorization && w.status == Some(AUTHORIZED) then NoTransition
    else Unsupported
  }

  datatype Delivery = Delivery(db: Db, answer: Answer)

  /** processXenditWebhookEvent; a refused delivery is rolled back, receipt included. */
  function Deliver(d: Db, w: Webhook): Delivery
  {
    var key := KeyOf(w);
    if key in d.receipts then Delivery(d, DUPLICATE)
    else if Resolve(d, w).None? then Delivery(d, Refused)
    else
      var i := Resolve(d, w).value;
      var v := d.invoices[i];
      var t := TransitionOf(w);
      if !Consistent(v, w) || t == Unsupported then Delivery(d, Refused)
      else if t == NoTransition || v.status != PENDING then
        Delivery(d.(receipts := d.receipts[key := IGNORED]), IGNORED)
      else
        var settled := v.(status := if t == ToPaid then PAID else FAILED,
                          referenceId := w.referenceId, paymentRequestId := w.paymentRequestId, paymentId := Some(w.paymentId));
        Delivery(Db(d.invoices[i := settled], d.attempts, d.receipts[key := PROCESSED],
                    d.outbox + [if t == ToPaid then InvoicePaid(i) else InvoiceFailed(i)]), PROCESSED)
  }

  // ------------------------------------------------------------------ the tables as mutable state

  /** The billing repository: compare-and-set updates inside transactions. */
  class BillingRepository {
    var invoices: seq<Invoice>
    var attempts: map<nat, Attempt>
    var receipts: map<EventKey, Answer>
    var outbox: seq<Event>

    function State(): Db
      reads this
    {
      Db(invoices, attempts, receipts, outbox)
    }

    method ClaimPaymentRequest(i: nat) returns (claimed: bool)
      modifies this`attempts
      ensures Claim(old(State()), i) == Claiming(State(), claimed)
    {
      if i >= |invoices| || invoices[i].status != PENDING || invoices[i].paymentRequestId.Some? { return false; }
      if i !in attempts {
        attempts := attempts[i := Attempt(IN_PROGRESS, None)];
        return true;
      }
      if attempts[i].state == REJECTED {
        attempts := attempts[i := attempts[i].(state := IN_PROGRESS)];
        return true;
      }
      claimed := false;
    }

    /** The invoice is written first; if the attempt cannot be completed the write is rolled back. */
    method CompletePaymentRequest(i: nat, request: nat) returns (done: bool)
      modifies this`invoices, this`attempts
      ensures match Complete(old(State()), i, request)
              case None => !done && State() == old(State())
              case Some(d) => done && State() == d
    {
      var before := invoices;
      if i >= |invoices| || invoices[i].status != PENDING || invoices[i].paymentRequestId.Some? { return false; }
      invoices := invoices[i := invoices[i].(referenceId := Some(invoices[i].number), paymentRequestId := Some(request))];
      if i !in attempts || attempts[i].state !in {IN_PROGRESS, UNKNOWN} || attempts[i].paymentRequestId !in {None, Some(request)} {
        invoices := before;
        return false;
      }
      attempts := attempts[i := Attempt(COMPLETED, Some(request))];
      done := true;
    }

    method RecordOutcome(i: nat, s: AttemptState, request: Option<nat>)
      modifies this`attempts
      ensures State() == Record(old(State()), i, s, request)
    {
      if i in attempts && attempts[i].state == IN_PROGRESS {
        attempts := attempts[i := attempts[i].(state := s)];
        if request.Some? {
          attempts := attempts[i := attempts[i].(paymentRequestId := request)];
        }
      }
    }

    method CancelPendingInvoice(i: nat) returns (done: bool)
      modifies this`invoices, this`outbox
      ensures match Cancel(old(State()), i)
              case None => !done && State() == old(State())
              case Some(d) => done && State() == d
    {
      if i >= |invoices| || invoices[i].status != PENDING { return false; }
      if invoices[i].paymentRequestId.Some? || invoices[i].paymentId.Some? { return false; }
      if i in attempts && attempts[i].state != REJECTED { return false; }
      invoices := invoices[i := invoices[i].(status := CANCELLED)];
      outbox := outbox + [InvoiceCancelled(i)];
      done := true;
    }

    method SettlePaidInvoice(i: nat) returns (done: bool)
      modifies this`invoices, this`outbox
      ensures match Settle(old(State()), i)
              case None => !done && State() == old(State())
              case Some(d) => done && State() == d
    {
      if i >= |invoices| || invoices[i].status != PENDING { return false; }
      invoices := invoices[i := invoices[i].(status := PAID)];
      outbox := outbox + [InvoicePaid(i)];
      done := true;
    }

    /** The receipt goes in first, so that a concurrent delivery of the same event waits and then finds it. */
    method ProcessWebhookEvent(w: Webhook) returns (answer: Answer)
      modifies this
      ensures Deliver(old(State()), w) == Delivery(State(), answer)
    {
      var key, before := KeyOf(w), receipts;
      if key in receipts { return DUPLICATE; }
      var found := Resolve(State(), w);
      if found.None? { return Refused; }
      var i := found.value;
      var t := TransitionOf(w);
      receipts := receipts[key := IGNORED];
      if !Consistent(invoices[i], w) || t == Unsupported {
        receipts := before;
        return Refused;
      }
      if t == NoTransition || invoices[i].status != PENDING { return IGNORED; }
      invoices := invoices[i := invoices[i].(status := if t == ToPaid then PAID else FAILED)];
      invoices := invoices[i := invoices[i].(referenceId := w.referenceId, paymentRequestId := w.paymentRequestId, paymentId := Some(w.paymentId))];
      outbox := outbox + [if t == ToPaid then InvoicePaid(i) else InvoiceFailed(i)];
      receipts := receipts[key := PROCESSED];
      answer := PROCESSED;
    }
  }
}
