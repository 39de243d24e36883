/**
  Any number of concurrent callers of createXenditPaymentRequest, an unreliable provider, crashes
  between transactions, cancellations, manual settlement and webhooks, as one step relation.

  A caller's position says which transaction or provider call it runs next.  The charges list is what
  the provider knows: it is never read by the program.
*/
module PaymentProtocol {
  import opened Fifo
  import opened Billing

  datatype Place =
    | ReadInvoice | ReadAttempt | AtClaim | RereadInvoice | RereadAttempt
    | Charging
    | Completing(request: nat)
    | Recording(outcome: AttemptState, retained: Option<nat>)
    | Recovering(request: nat)
    | Returned(request: nat)
    | Raised
    | Failing | Publishing

  datatype Caller = Caller(invoice: nat, place: Place)

  datatype ChargeOutcome = Accepted | NotKnown | DefinitelyRejected

  /** A charge the provider was asked for; its position is the payment request id. */
  datatype Charge = Charge(invoice: nat, outcome: ChargeOutcome)

  datatype World = World(db: Db, callers: map<nat, Caller>, charges: seq<Charge>)

  /** How the provider answers a charge, and whether the answer carries the request id. */
  datatype Reply = AcceptedWithId | AcceptedWithoutId | Lost | Refusal

  datatype Action =
    | Create(number: nat, amount: int, currency: nat)
    | Spawn(caller: nat, invoice: nat)
    | SpawnFailure(caller: nat, invoice: nat)
    | Advance(caller: nat)
    | Ask(caller: nat, reply: Reply)
    | Lapse(caller: nat, committed: bool)
    | Crash(caller: nat)
    | CancelInvoice(invoice: nat)
    | SettleInvoice(invoice: nat)
    | Receive(webhook: Webhook)

  function At(w: World, c: nat, p: Place): World
    requires c in w.callers
  {
    w.(callers := w.callers[c := w.callers[c].(place := p)])
  }

  /** One transaction of a caller. */
  function Move(w: World, c: nat): World
    requires c in w.callers
  {
    var i := w.callers[c].invoice;
    match w.callers[c].place
    case ReadInvoice =>
      if !Pending(w.db, i) then At(w, c, Raised)
      else if w.db.invoices[i].paymentRequestId.Some? then At(w, c, Returned(w.db.invoices[i].paymentRequestId.value))
      else At(w, c, ReadAttempt)
    case ReadAttempt =>
      if i in w.db.attempts && w.db.attempts[i].paymentRequestId.Some? then
        At(w, c, Recovering(w.db.attempts[i].paymentRequestId.value))
      else if i in w.db.attempts && w.db.attempts[i].state != REJECTED then At(w, c, Raised)
      else At(w, c, AtClaim)
    case AtClaim =>
      var r := Claim(w.db, i);
      At(w.(db := r.db), c, if r.claimed then Charging else RereadInvoice)
    case RereadInvoice =>
      if i < |w.db.invoices| && w.db.invoices[i].paymentRequestId.Some? then
        At(w, c, Returned(w.db.invoices[i].paymentRequestId.value))
      else At(w, c, RereadAttempt)
    case RereadAttempt =>
      if i in w.db.attempts && w.db.attempts[i].paymentRequestId.Some? then
        At(w, c, Recovering(w.db.attempts[i].paymentRequestId.value))
      else At(w, c, Raised)
    case Completing(k) =>
      (match Complete(w.db, i, k)
       case Some(d) => At(w.(db := d), c, Returned(k))
       case None => At(w, c, Recording(UNKNOWN, Some(k))))
    case Recovering(k) =>
      (match Complete(w.db, i, k)
       case Some(d) => At(w.(db := d), c, Returned(k))
       case None => At(w, c, Raised))
    case Recording(s, k) => At(w.(db := Record(w.db, i, s, k)), c, Raised)
    case Failing =>
      (match MarkFailed(w.db, i)
       case Some(d) => At(w.(db := d), c, Publishing)
       case None => At(w, c, Raised))
    case Publishing => At(w.(db := Published(w.db, i)), c, Raised)
    case _ => w
  }

  function Published(d: Db, i: nat): Db { d.(outbox := d.outbox + [InvoiceFailed(i)]) }

  /** The provider is asked for a charge. */
  function AskProvider(w: World, c: nat, reply: Reply): World
    requires c in w.callers
  {
    var i, k := w.callers[c].invoice, |w.charges|;
    match reply
    case AcceptedWithId => At(w.(charges := w.charges + [Charge(i, Accepted)]), c, Completing(k))
    case AcceptedWithoutId => At(w.(charges := w.charges + [Charge(i, Accepted)]), c, Recording(UNKNOWN, None))
    case Lost => At(w.(charges := w.charges + [Charge(i, NotKnown)]), c, Recording(UNKNOWN, None))
    case Refusal => At(w.(charges := w.charges + [Charge(i, DefinitelyRejected)]), c, Recording(REJECTED, None))
  }

  /** A write reports an error to its caller, whether or not it was committed. */
  function Break(w: World, c: nat, committed: bool): World
    requires c in w.callers
  {
    var i := w.callers[c].invoice;
    match w.callers[c].place
    case Completing(k) =>
      var d := Complete(w.db, i, k);
      At(if committed && d.Some? then w.(db := d.value) else w, c, Recording(UNKNOWN, Some(k)))
    case Recovering(k) =>
      var d := Complete(w.db, i, k);
      At(if committed && d.Some? then w.(db := d.value) else w, c, Raised)
    case Recording(s, k) => At(if committed then w.(db := Record(w.db, i, s, k)) else w, c, Raised)
    case AtClaim => At(if committed then w.(db := Claim(w.db, i).db) else w, c, Raised)
    case Failing => At(if committed && Pending(w.db, i) then w.(db := MarkFailed(w.db, i).value) else w, c, Raised)
    case Publishing => At(if committed then w.(db := Published(w.db, i)) else w, c, Raised)
    case _ => At(w, c, Raised)
  }

  function Next(w: World, a: Action): World
  {
    match a
    case Create(number, amount, currency) =>
      if exists j :: 0 <= j < |w.db.invoices| && w.db.invoices[j].number == number then w
      else w.(db := w.db.(invoices := w.db.invoices + [Invoice(number, amount, currency, PENDING, None, None, None)]))
    case Spawn(c, i) => if c in w.callers then w else w.(callers := w.callers[c := Caller(i, ReadInvoice)])
    case SpawnFailure(c, i) => if c in w.callers then w else w.(callers := w.callers[c := Caller(i, Failing)])
    case Advance(c) => if c in w.callers then Move(w, c) else w
    case Ask(c, reply) => if c in w.callers && w.callers[c].place == Charging then AskProvider(w, c, reply) else w
    case Lapse(c, committed) => if c in w.callers then Break(w, c, committed) else w
    case Crash(c) => w.(callers := w.callers - {c})
    case CancelInvoice(i) => (match Cancel(w.db, i) case Some(d) => w.(db := d) case None => w)
    case SettleInvoice(i) => (match Settle(w.db, i) case Some(d) => w.(db := d) case None => w)
    case Receive(h) => w.(db := Deliver(w.db, h).db)
  }

  function Trace(w: World, actions: seq<Action>): World
  {
    if actions == [] then w else Next(Trace(w, actions[..|actions| - 1]), actions[|actions| - 1])
  }

  function Start(): World { World(Db([], map[], map[], []), map[], []) }

  // ------------------------------------------------------------------ the invariant

  predicate Live(charges: seq<Charge>, k: nat, i: nat)
  {
    k < |charges| && charges[k].invoice == i && charges[k].outcome != DefinitelyRejected
  }

  ghost predicate NoLive(charges: seq<Charge>, i: nat) { forall k: nat :: !Live(charges, k, i) }

  predicate Owning(p: Place) { p.Charging? || p.Completing? || p.Recording? }

  /** The attempt was never made or the provider refused it: a new claim may be made. */
  predicate Idle(d: Db, i: nat) { i !in d.attempts || d.attempts[i].state == REJECTED }

  /** A claim is held and no request id has been kept. */
  predicate Claimed(d: Db, i: nat) { i in d.attempts && d.attempts[i] == Attempt(IN_PROGRESS, None) }

  ghost predicate CallerOk(d: Db, charges: seq<Charge>, x: Caller)
  {
    match x.place
    case Charging => Claimed(d, x.invoice) && NoLive(charges, x.invoice)
    case Completing(k) => Claimed(d, x.invoice) && Live(charges, k, x.invoice)
    case Recording(s, k) =>
      if s == REJECTED then Claimed(d, x.invoice) && NoLive(charges, x.invoice) && k == None
      else
        && s == UNKNOWN && (k.Some? ==> Live(charges, k.value, x.invoice))
        && (Claimed(d, x.invoice) || (x.invoice in d.attempts && d.attempts[x.invoice].state == COMPLETED))
    case Recovering(k) => Live(charges, k, x.invoice) && x.invoice in d.attempts && d.attempts[x.invoice].paymentRequestId == Some(k)
    case Returned(k) => Live(charges, k, x.invoice)
    case _ => true
  }

  /** At most one charge per invoice can have been accepted. */
  ghost predicate OneCharge(charges: seq<Charge>)
  {
    forall i: nat, j: nat, k: nat :: Live(charges, j, i) && Live(charges, k, i) ==> j == k
  }

  predicate Rival(x: Caller, y: Caller) { Owning(x.place) && Owning(y.place) && x.invoice == y.invoice }

  ghost predicate OneOwner(callers: map<nat, Caller>)
  {
    forall c, e :: c in callers && e in callers && c != e ==> !Rival(callers[c], callers[e])
  }

  ghost predicate CallersOk(d: Db, callers: map<nat, Caller>, charges: seq<Charge>)
  {
    forall c :: c in callers ==> CallerOk(d, charges, callers[c])
  }

  ghost predicate AttemptOk(d: Db, charges: seq<Charge>, i: nat)
  {
    && (Idle(d, i) ==> NoLive(charges, i))
    && (i in d.attempts ==>
          var a := d.attempts[i];
          && (a.state in {IN_PROGRESS, REJECTED} ==> a.paymentRequestId == None)
          && (a.paymentRequestId.Some? ==> Live(charges, a.paymentRequestId.value, i)))
  }

  /** The provider ids on an invoice are those of its completed attempt. */
  predicate InvoiceOk(v: Invoice, i: nat, attempts: map<nat, Attempt>)
  {
    && (v.paymentRequestId.Some? ==> i in attempts && attempts[i] == Attempt(COMPLETED, v.paymentRequestId))
    && v.referenceId == (if v.paymentRequestId.Some? then Some(v.number) else None)
    && (v.status == PENDING || v.status == CANCELLED ==> v.paymentId == None)
    && (v.paymentId.Some? ==> v.paymentRequestId.Some?)
    && (v.status == CANCELLED ==> i !in attempts || attempts[i].state == REJECTED)
  }

  predicate InvoicesOk(d: Db)
  {
    forall i :: 0 <= i < |d.invoices| ==> InvoiceOk(d.invoices[i], i, d.attempts)
  }

  ghost predicate AttemptsOk(d: Db, charges: seq<Charge>) { forall i: nat :: AttemptOk(d, charges, i) }

  ghost predicate Safe(w: World)
  {
    && OneCharge(w.charges) && OneOwner(w.callers) && CallersOk(w.db, w.callers, w.charges)
    && InvoicesOk(w.db) && AttemptsOk(w.db, w.charges)
  }

  lemma StartSafe()
    ensures Safe(Start())
  {
  }

  // ------------------------------------------------------------------ every step keeps it

  /** Moving one caller, the tables and the charges as they are. */
  lemma MoveOnly(w: World, c: nat, p: Place)
    requires Safe(w) && c in w.callers
    requires CallerOk(w.db, w.charges, Caller(w.callers[c].invoice, p))
    requires Owning(p) ==> Owning(w.callers[c].place)
    ensures Safe(At(w, c, p))
  {
    forall e, f | e in At(w, c, p).callers && f in At(w, c, p).callers && e != f
      ensures !Rival(At(w, c, p).callers[e], At(w, c, p).callers[f])
    {
      assert !Rival(w.callers[e], w.callers[f]);
    }
  }

  /** The rows of one invoice change, and one caller moves. */
  lemma RowMoves(w: World, d: Db, c: nat, p: Place, a: Attempt)
    requires Safe(w) && c in w.callers
    requires d.attempts == w.db.attempts[w.callers[c].invoice := a] && |d.invoices| == |w.db.invoices|
    requires forall j :: 0 <= j < |d.invoices| && j != w.callers[c].invoice ==> d.invoices[j] == w.db.invoices[j]
    requires var i := w.callers[c].invoice;
             && AttemptOk(d, w.charges, i)
             && (i < |d.invoices| ==> InvoiceOk(d.invoices[i], i, d.attempts))
             && CallerOk(d, w.charges, Caller(i, p))
             && (forall e :: e in w.callers && e != c && w.callers[e].invoice == i ==>
                   CallerOk(d, w.charges, w.callers[e]) && (Owning(p) ==> !Owning(w.callers[e].place)))
    ensures Safe(At(w.(db := d), c, p))
  {
    var i := w.callers[c].invoice;
    var n := At(w.(db := d), c, p);
    forall e, f | e in n.callers && f in n.callers && e != f ensures !Rival(n.callers[e], n.callers[f]) {
      assert !Rival(w.callers[e], w.callers[f]);
    }
    forall j | 0 <= j < |d.invoices| ensures InvoiceOk(d.invoices[j], j, d.attempts) {
      assert InvoiceOk(w.db.invoices[j], j, w.db.attempts);
    }
    forall j: nat ensures AttemptOk(d, w.charges, j) { assert AttemptOk(w.db, w.charges, j); }
    forall e | e in n.callers ensures CallerOk(d, w.charges, n.callers[e]) {
      if e != c { assert CallerOk(w.db, w.charges, w.callers[e]); }
    }
  }

  lemma ClaimSafe(w: World, c: nat)
    requires Safe(w) && c in w.callers && w.callers[c].place == AtClaim
    ensures Safe(Move(w, c))
  {
    if Claim(w.db, w.callers[c].invoice).claimed { ClaimMoves(w, c, Charging); } else { MoveOnly(w, c, RereadInvoice); }
  }

  /** A claim that was committed without its caller knowing is held by nobody. */
  lemma ClaimLost(w: World, c: nat)
    requires Safe(w) && c in w.callers && w.callers[c].place == AtClaim
    ensures Safe(At(w.(db := Claim(w.db, w.callers[c].invoice).db), c, Raised))
  {
    if Claim(w.db, w.callers[c].invoice).claimed { ClaimMoves(w, c, Raised); } else { MoveOnly(w, c, Raised); }
  }

  lemma ClaimMoves(w: World, c: nat, p: Place)
    requires Safe(w) && c in w.callers && w.callers[c].place == AtClaim && p in {Charging, Raised}
    requires Claim(w.db, w.callers[c].invoice).claimed
    ensures Safe(At(w.(db := Claim(w.db, w.callers[c].invoice).db), c, p))
  {
    var i := w.callers[c].invoice;
    var r := Claim(w.db, i);
    assert AttemptOk(w.db, w.charges, i);
    var d := w.db.(attempts := w.db.attempts[i := Attempt(IN_PROGRESS, None)]);
    assert r.db == d && Idle(w.db, i);
    forall e | e in w.callers && e != c && w.callers[e].invoice == i
      ensures CallerOk(d, w.charges, w.callers[e]) && !Owning(w.callers[e].place)
    {
      assert CallerOk(w.db, w.charges, w.callers[e]);
    }
    assert InvoiceOk(w.db.invoices[i], i, w.db.attempts);
    RowMoves(w, d, c, p, Attempt(IN_PROGRESS, None));
  }

  lemma RecordSafe(w: World, c: nat)
    requires Safe(w) && c in w.callers && w.callers[c].place.Recording?
    ensures Safe(Move(w, c))
  {
    var i, s, k := w.callers[c].invoice, w.callers[c].place.outcome, w.callers[c].place.retained;
    assert CallerOk(w.db, w.charges, w.callers[c]) && AttemptOk(w.db, w.charges, i);
    if Claimed(w.db, i) {
      var d := Record(w.db, i, s, k);
      forall e | e in w.callers && e != c && w.callers[e].invoice == i ensures CallerOk(d, w.charges, w.callers[e]) {
        assert !Rival(w.callers[c], w.callers[e]) && CallerOk(w.db, w.charges, w.callers[e]);
      }
      if i < |w.db.invoices| { assert InvoiceOk(w.db.invoices[i], i, w.db.attempts); }
      RowMoves(w, d, c, Raised, Attempt(s, k));
    } else {
      MoveOnly(w, c, Raised);
    }
  }

  lemma CompleteSafe(w: World, c: nat, k: nat, p: Place)
    requires Safe(w) && c in w.callers && Complete(w.db, w.callers[c].invoice, k).Some?
    requires w.callers[c].place in {Completing(k), Recovering(k)}
    requires p in {Returned(k), Raised} || (p == Recording(UNKNOWN, Some(k)) && w.callers[c].place == Completing(k))
    ensures Safe(At(w.(db := Complete(w.db, w.callers[c].invoice, k).value), c, p))
  {
    var i := w.callers[c].invoice;
    var d := Complete(w.db, i, k).value;
    assert CallerOk(w.db, w.charges, w.callers[c]) && AttemptOk(w.db, w.charges, i);
    assert InvoiceOk(w.db.invoices[i], i, w.db.attempts);
    forall e | e in w.callers && e != c && w.callers[e].invoice == i
      ensures CallerOk(d, w.charges, w.callers[e]) && (Owning(p) ==> !Owning(w.callers[e].place))
    {
      assert !Rival(w.callers[c], w.callers[e]) && CallerOk(w.db, w.charges, w.callers[e]);
    }
    RowMoves(w, d, c, p, Attempt(COMPLETED, Some(k)));
  }

  /** Asking the provider: only the owner of the claim does, and nothing live exists yet. */
  lemma AskSafe(w: World, c: nat, reply: Reply)
    requires Safe(w) && c in w.callers && w.callers[c].place == Charging
    ensures Safe(AskProvider(w, c, reply))
  {
    var i, n := w.callers[c].invoice, AskProvider(w, c, reply);
    assert CallerOk(w.db, w.charges, w.callers[c]);
    forall j: nat, k: nat ensures Live(n.charges, k, j) <==> Live(w.charges, k, j) || (k == |w.charges| && j == i && reply != Refusal) {}
    forall e, f | e in n.callers && f in n.callers && e != f ensures !Rival(n.callers[e], n.callers[f]) {
      assert !Rival(w.callers[e], w.callers[f]);
    }
    forall e | e in n.callers ensures CallerOk(n.db, n.charges, n.callers[e]) {
      if e != c { assert CallerOk(w.db, w.charges, w.callers[e]) && !Rival(w.callers[c], w.callers[e]); }
    }
    forall j: nat ensures AttemptOk(n.db, n.charges, j) { assert AttemptOk(w.db, w.charges, j); }
  }

  /** Invoice rows change under their own rule while attempts and charges stay. */
  lemma InvoiceMoves(w: World, d: Db)
    requires Safe(w) && d.attempts == w.db.attempts && InvoicesOk(d)
    ensures Safe(w.(db := d))
  {
    forall c | c in w.callers ensures CallerOk(d, w.charges, w.callers[c]) { assert CallerOk(w.db, w.charges, w.callers[c]); }
    forall i: nat ensures AttemptOk(d, w.charges, i) { assert AttemptOk(w.db, w.charges, i); }
  }

  lemma InvoiceMove(w: World, d: Db, i: nat)
    requires Safe(w) && d.attempts == w.db.attempts && i < |w.db.invoices|
    requires |d.invoices| == |w.db.invoices| && d.invoices == w.db.invoices[i := d.invoices[i]] && InvoiceOk(d.invoices[i], i, d.attempts)
    ensures Safe(w.(db := d))
  {
    forall j | 0 <= j < |d.invoices| ensures InvoiceOk(d.invoices[j], j, d.attempts) {
      assert InvoiceOk(w.db.invoices[j], j, w.db.attempts);
    }
    InvoiceMoves(w, d);
  }

  lemma MoveSafe(w: World, c: nat)
    requires Safe(w) && c in w.callers
    ensures Safe(Move(w, c))
  {
    var i := w.callers[c].invoice;
    assert CallerOk(w.db, w.charges, w.callers[c]) && AttemptOk(w.db, w.charges, i);
    if i < |w.db.invoices| { assert InvoiceOk(w.db.invoices[i], i, w.db.attempts); }
    match w.callers[c].place
    case ReadInvoice => MoveRead(w, c);
    case ReadAttempt => MoveRead(w, c);
    case AtClaim => ClaimSafe(w, c);
    case RereadInvoice => MoveRead(w, c);
    case RereadAttempt => MoveRead(w, c);
    case Completing(k) =>
      if Complete(w.db, i, k).Some? { CompleteSafe(w, c, k, Returned(k)); } else { MoveOnly(w, c, Recording(UNKNOWN, Some(k))); }
    case Recovering(k) =>
      if Complete(w.db, i, k).Some? { CompleteSafe(w, c, k, Returned(k)); } else { MoveOnly(w, c, Raised); }
    case Recording(_, _) => RecordSafe(w, c);
    case Failing =>
      if Pending(w.db, i) {
        InvoiceMove(w, MarkFailed(w.db, i).value, i);
        MoveOnly(w.(db := MarkFailed(w.db, i).value), c, Publishing);
      } else {
        MoveOnly(w, c, Raised);
      }
    case Publishing =>
      InvoiceMoves(w, Published(w.db, i));
      MoveOnly(w.(db := Published(w.db, i)), c, Raised);
    case _ =>
  }

  /** What a caller reads is an id of the invoice's charge, or it asks for the claim. */
  lemma MoveRead(w: World, c: nat)
    requires Safe(w) && c in w.callers && w.callers[c].place in {ReadInvoice, ReadAttempt, RereadInvoice, RereadAttempt}
    ensures Safe(Move(w, c))
  {
    var i := w.callers[c].invoice;
    assert AttemptOk(w.db, w.charges, i);
    if i < |w.db.invoices| { assert InvoiceOk(w.db.invoices[i], i, w.db.attempts); }
    MoveOnly(w, c, Move(w, c).callers[c].place);
  }

  lemma BreakSafe(w: World, c: nat, committed: bool)
    requires Safe(w) && c in w.callers
    ensures Safe(Break(w, c, committed))
  {
    var i := w.callers[c].invoice;
    assert CallerOk(w.db, w.charges, w.callers[c]);
    match w.callers[c].place
    case Completing(k) =>
      if committed && Complete(w.db, i, k).Some? { CompleteSafe(w, c, k, Recording(UNKNOWN, Some(k))); }
      else { MoveOnly(w, c, Recording(UNKNOWN, Some(k))); }
    case Recovering(k) =>
      if committed && Complete(w.db, i, k).Some? { CompleteSafe(w, c, k, Raised); } else { MoveOnly(w, c, Raised); }
    case Recording(_, _) => if committed { RecordSafe(w, c); } else { MoveOnly(w, c, Raised); }
    case AtClaim => if committed { ClaimLost(w, c); } else { MoveOnly(w, c, Raised); }
    case Failing =>
      if committed && Pending(w.db, i) {
        assert InvoiceOk(w.db.invoices[i], i, w.db.attempts);
        InvoiceMove(w, MarkFailed(w.db, i).value, i);
        MoveOnly(w.(db := MarkFailed(w.db, i).value), c, Raised);
      } else {
        MoveOnly(w, c, Raised);
      }
    case Publishing =>
      if committed {
        InvoiceMoves(w, Published(w.db, i));
        MoveOnly(w.(db := Published(w.db, i)), c, Raised);
      } else {
        MoveOnly(w, c, Raised);
      }
    case _ => MoveOnly(w, c, Raised);
  }

  /** A webhook settles only an invoice whose request id is stored, and changes none of its ids. */
  lemma DeliverWrites(w: World, h: Webhook)
    requires InvoicesOk(w.db) && Deliver(w.db, h).answer == PROCESSED
    ensures var i := Resolve(w.db, h);
            && i.Some? && i.value < |w.db.invoices|
            && var v := w.db.invoices[i.value];
            && v.status == PENDING && v.paymentRequestId.Some?
            && v.paymentRequestId == h.paymentRequestId && v.referenceId == h.referenceId
            && Deliver(w.db, h).db.invoices ==
                 w.db.invoices[i.value := v.(status := if TransitionOf(h) == ToPaid then PAID else FAILED, paymentId := Some(h.paymentId))]
  {
    var i := Resolve(w.db, h).value;
    assert InvoiceOk(w.db.invoices[i], i, w.db.attempts);
  }

  lemma DeliverSafe(w: World, h: Webhook)
    requires Safe(w)
    ensures Safe(w.(db := Deliver(w.db, h).db))
  {
    var d := Deliver(w.db, h).db;
    if Deliver(w.db, h).answer == PROCESSED {
      DeliverWrites(w, h);
      var i := Resolve(w.db, h).value;
      assert InvoiceOk(w.db.invoices[i], i, w.db.attempts);
      InvoiceMove(w, d, i);
    } else {
      InvoiceMoves(w, d);
    }
  }

  lemma SpawnSafe(w: World, c: nat, x: Caller)
    requires Safe(w) && c !in w.callers && x.place in {ReadInvoice, Failing}
    ensures Safe(w.(callers := w.callers[c := x]))
  {
    var n := w.(callers := w.callers[c := x]);
    forall e, f | e in n.callers && f in n.callers && e != f ensures !Rival(n.callers[e], n.callers[f]) {
      if e != c && f != c { assert !Rival(w.callers[e], w.callers[f]); }
    }
  }

  lemma NextSafe(w: World, a: Action)
    requires Safe(w)
    ensures Safe(Next(w, a))
  {
    match a
    case Create(number, amount, currency) => InvoiceAdded(w, a);
    case Spawn(c, i) => if c !in w.callers { SpawnSafe(w, c, Caller(i, ReadInvoice)); }
    case SpawnFailure(c, i) => if c !in w.callers { SpawnSafe(w, c, Caller(i, Failing)); }
    case Advance(c) => if c in w.callers { MoveSafe(w, c); }
    case Ask(c, reply) => if c in w.callers && w.callers[c].place == Charging { AskSafe(w, c, reply); }
    case Lapse(c, committed) => if c in w.callers { BreakSafe(w, c, committed); }
    case Crash(c) =>
      forall e, f | e in w.callers && f in w.callers && e != f ensures !Rival(w.callers[e], w.callers[f]) {}
    case CancelInvoice(i) =>
      if Cancel(w.db, i).Some? {
        assert InvoiceOk(w.db.invoices[i], i, w.db.attempts);
        InvoiceMove(w, Cancel(w.db, i).value, i);
      }
    case SettleInvoice(i) =>
      if Settle(w.db, i).Some? {
        assert InvoiceOk(w.db.invoices[i], i, w.db.attempts);
        InvoiceMove(w, Settle(w.db, i).value, i);
      }
    case Receive(h) => DeliverSafe(w, h);
  }

  lemma InvoiceAdded(w: World, a: Action)
    requires Safe(w) && a.Create?
    ensures Safe(Next(w, a))
  {
    var d := Next(w, a).db;
    if d != w.db {
      var i := |w.db.invoices|;
      forall j | 0 <= j < |d.invoices| ensures InvoiceOk(d.invoices[j], j, d.attempts) {
        if j < i { assert InvoiceOk(w.db.invoices[j], j, w.db.attempts); }
      }
      InvoiceMoves(w, d);
    }
  }

  lemma {:induction false} TraceSafe(w: World, actions: seq<Action>)
    requires Safe(w)
    ensures Safe(Trace(w, actions))
  {
    if actions != [] {
      TraceSafe(w, actions[..|actions| - 1]);
      NextSafe(Trace(w, actions[..|actions| - 1]), actions[|actions| - 1]);
    }
  }
}
