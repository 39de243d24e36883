/**
  createXenditPaymentRequest as one caller runs it: reads, claims, asks the provider and stores the
  answer.  Left undisturbed, it does what its steps in the protocol do one after the other.
*/
module PaymentService {
  import opened Fifo
  import opened Billing
  import opened PaymentProtocol

  /** The steps of one caller from its first read to its answer; steps after the answer do nothing. */
  function Steps(c: nat, i: nat, reply: Reply): seq<Action>
  {
    [Spawn(c, i), Advance(c), Advance(c), Advance(c), Ask(c, reply), Advance(c), Advance(c), Advance(c)]
  }

  function Twice(w: World, a: Action, e: Action): World { Next(Next(w, a), e) }

  function Approach(w: World, c: nat, i: nat): World { Twice(Twice(w, Spawn(c, i), Advance(c)), Advance(c), Advance(c)) }

  function Finish(w: World, c: nat, reply: Reply): World { Twice(Twice(w, Ask(c, reply), Advance(c)), Advance(c), Advance(c)) }

  function Alone(w: World, c: nat, i: nat, reply: Reply): World { Finish(Approach(w, c, i), c, reply) }

  /** Where a caller ends: with the request id or with an exception. */
  function Outcome(answer: Option<nat>): Place { if answer.Some? then Returned(answer.value) else Raised }

  lemma TraceSnoc(w: World, actions: seq<Action>, n: nat)
    requires n < |actions|
    ensures Trace(w, actions[..n + 1]) == Next(Trace(w, actions[..n]), actions[n])
  {
    assert actions[..n + 1][..n] == actions[..n];
  }

  lemma AloneIsATrace(w: World, c: nat, i: nat, reply: Reply)
    ensures Alone(w, c, i, reply) == Trace(w, Steps(c, i, reply))
  {
    var s := Steps(c, i, reply);
    assert s[..0] == [] && s[..8] == s;
    TraceSnoc(w, s, 0);
    TraceSnoc(w, s, 1);
    TraceSnoc(w, s, 2);
    TraceSnoc(w, s, 3);
    TraceSnoc(w, s, 4);
    TraceSnoc(w, s, 5);
    TraceSnoc(w, s, 6);
    TraceSnoc(w, s, 7);
  }

  /** What the provider is known to have been asked for. */
  function Asked(i: nat, reply: Reply): Charge
  {
    Charge(i, match reply case Refusal => DefinitelyRejected case Lost => NotKnown case _ => Accepted)
  }

  function Single(d: Db, c: nat, i: nat, p: Place, charges: seq<Charge>): World { World(d, map[c := Caller(i, p)], charges) }

  lemma NoIdFinish(d: Db, charges: seq<Charge>, c: nat, i: nat, reply: Reply)
    requires reply != AcceptedWithId
    ensures Finish(Single(d, c, i, Charging, charges), c, reply) ==
            Single(Record(d, i, if reply == Refusal then REJECTED else UNKNOWN, None), c, i, Raised, charges + [Asked(i, reply)])
  {
    var s, more := if reply == Refusal then REJECTED else UNKNOWN, charges + [Asked(i, reply)];
    assert Next(Single(d, c, i, Charging, charges), Ask(c, reply)) == Single(d, c, i, Recording(s, None), more);
    assert Next(Single(d, c, i, Recording(s, None), more), Advance(c)) == Single(Record(d, i, s, None), c, i, Raised, more);
    Ended(Record(d, i, s, None), c, i, Raised, more);
  }

  lemma Ended(d: Db, c: nat, i: nat, p: Place, charges: seq<Charge>)
    requires p == Raised || p.Returned?
    ensures Next(Single(d, c, i, p, charges), Advance(c)) == Single(d, c, i, p, charges)
  {
  }

  lemma IdFinish(d: Db, charges: seq<Charge>, c: nat, i: nat)
    ensures var k, more := |charges|, charges + [Charge(i, Accepted)];
            Finish(Single(d, c, i, Charging, charges), c, AcceptedWithId) ==
            match Complete(d, i, k)
            case Some(e) => Single(e, c, i, Returned(k), more)
            case None => Single(Record(d, i, UNKNOWN, Some(k)), c, i, Raised, more)
  {
    var k, more := |charges|, charges + [Charge(i, Accepted)];
    assert Next(Single(d, c, i, Charging, charges), Ask(c, AcceptedWithId)) == Single(d, c, i, Completing(k), more);
    match Complete(d, i, k)
    case Some(e) =>
      assert Next(Single(d, c, i, Completing(k), more), Advance(c)) == Single(e, c, i, Returned(k), more);
      Ended(e, c, i, Returned(k), more);
    case None =>
      assert Next(Single(d, c, i, Completing(k), more), Advance(c)) == Single(d, c, i, Recording(UNKNOWN, Some(k)), more);
      assert Next(Single(d, c, i, Recording(UNKNOWN, Some(k)), more), Advance(c)) == Single(Record(d, i, UNKNOWN, Some(k)), c, i, Raised, more);
      Ended(Record(d, i, UNKNOWN, Some(k)), c, i, Raised, more);
  }

  lemma AttemptFinish(d: Db, charges: seq<Charge>, c: nat, i: nat)
    ensures Twice(Single(d, c, i, RereadAttempt, charges), Advance(c), Advance(c)) ==
            if i !in d.attempts || d.attempts[i].paymentRequestId.None? then Single(d, c, i, Raised, charges)
            else
              match Complete(d, i, d.attempts[i].paymentRequestId.value)
              case Some(e) => Single(e, c, i, Returned(d.attempts[i].paymentRequestId.value), charges)
              case None => Single(d, c, i, Raised, charges)
  {
    if i in d.attempts && d.attempts[i].paymentRequestId.Some? {
      var k := d.attempts[i].paymentRequestId.value;
      assert Next(Single(d, c, i, RereadAttempt, charges), Advance(c)) == Single(d, c, i, Recovering(k), charges);
    } else {
      assert Next(Single(d, c, i, RereadAttempt, charges), Advance(c)) == Single(d, c, i, Raised, charges);
    }
  }

  lemma RereadFinish(d: Db, charges: seq<Charge>, c: nat, i: nat, reply: Reply)
    ensures Finish(Single(d, c, i, RereadInvoice, charges), c, reply) ==
            if i < |d.invoices| && d.invoices[i].paymentRequestId.Some? then
              Single(d, c, i, Returned(d.invoices[i].paymentRequestId.value), charges)
            else Twice(Single(d, c, i, RereadAttempt, charges), Advance(c), Advance(c))
  {
    var w := Single(d, c, i, RereadInvoice, charges);
    assert Next(w, Ask(c, reply)) == w;
    if i < |d.invoices| && d.invoices[i].paymentRequestId.Some? {
      assert Next(w, Advance(c)) == Single(d, c, i, Returned(d.invoices[i].paymentRequestId.value), charges);
    } else {
      assert Next(w, Advance(c)) == Single(d, c, i, RereadAttempt, charges);
    }
  }

  // ------------------------------------------------------------------ one caller after another

  /** The world with one caller at a place. */
  function Placed(w: World, d: Db, c: nat, i: nat, p: Place, charges: seq<Charge>): World
  {
    World(d, w.callers[c := Caller(i, p)], charges)
  }

  /** Nothing has been, or may have been, asked of the provider for this pending invoice. */
  predicate Askable(d: Db, i: nat)
  {
    && Pending(d, i) && d.invoices[i].paymentRequestId.None? && Idle(d, i)
    && (i in d.attempts ==> d.attempts[i].paymentRequestId == None)
  }

  /** The tables once the right to ask is held. */
  function Held(d: Db, i: nat): Db { d.(attempts := d.attempts[i := Attempt(IN_PROGRESS, None)]) }

  lemma ReadsOn(w: World, d: Db, c: nat, i: nat, charges: seq<Charge>)
    requires Askable(d, i)
    ensures Next(Placed(w, d, c, i, ReadInvoice, charges), Advance(c)) == Placed(w, d, c, i, ReadAttempt, charges)
    ensures Next(Placed(w, d, c, i, ReadAttempt, charges), Advance(c)) == Placed(w, d, c, i, AtClaim, charges)
    ensures Next(Placed(w, d, c, i, AtClaim, charges), Advance(c)) == Placed(w, Held(d, i), c, i, Charging, charges)
  {
    assert Move(Placed(w, d, c, i, ReadInvoice, charges), c).callers == w.callers[c := Caller(i, ReadAttempt)];
    assert Move(Placed(w, d, c, i, ReadAttempt, charges), c).callers == w.callers[c := Caller(i, AtClaim)];
    assert Move(Placed(w, d, c, i, AtClaim, charges), c).callers == w.callers[c := Caller(i, Charging)];
  }

  /** An undisturbed caller of an idle invoice gets to ask the provider. */
  lemma IdleCallerAsks(w: World, c: nat, i: nat)
    requires Askable(w.db, i) && c !in w.callers
    ensures Approach(w, c, i) == Placed(w, Held(w.db, i), c, i, Charging, w.charges)
  {
    ReadsOn(w, w.db, c, i, w.charges);
    assert Next(w, Spawn(c, i)) == Placed(w, w.db, c, i, ReadInvoice, w.charges);
  }

  function Linked(d: Db, i: nat, k: nat): Db
    requires i < |d.invoices|
  {
    d.(invoices := d.invoices[i := d.invoices[i].(referenceId := Some(d.invoices[i].number), paymentRequestId := Some(k))],
       attempts := d.attempts[i := Attempt(COMPLETED, Some(k))])
  }

  /** A request id is linked exactly while the invoice is pending and unlinked, its attempt is open, and no other id was retained. */
  lemma LinksIff(d: Db, i: nat, k: nat)
    ensures Complete(d, i, k).Some? <==>
            && Pending(d, i) && d.invoices[i].paymentRequestId == None && i in d.attempts
            && (d.attempts[i].state == IN_PROGRESS || d.attempts[i].state == UNKNOWN)
            && (d.attempts[i].paymentRequestId.Some? ==> d.attempts[i].paymentRequestId.value == k)
    ensures Complete(d, i, k).Some? ==> Complete(d, i, k).value == Linked(d, i, k)
  {
  }

  lemma AcceptedFinish(w: World, d: Db, c: nat, i: nat)
    requires Askable(d, i)
    ensures Finish(Placed(w, Held(d, i), c, i, Charging, w.charges), c, AcceptedWithId) ==
            Placed(w, Linked(d, i, |w.charges|), c, i, Returned(|w.charges|), w.charges + [Charge(i, Accepted)])
  {
    var k, more := |w.charges|, w.charges + [Charge(i, Accepted)];
    var held, linked := Held(d, i), Linked(d, i, |w.charges|);
    assert Next(Placed(w, held, c, i, Charging, w.charges), Ask(c, AcceptedWithId)) == Placed(w, held, c, i, Completing(k), more);
    assert linked.attempts == held.attempts[i := Attempt(COMPLETED, Some(k))];
    assert Complete(held, i, k) == Some(linked);
    assert Next(Placed(w, held, c, i, Completing(k), more), Advance(c)) == Placed(w, linked, c, i, Returned(k), more);
    assert Next(Placed(w, linked, c, i, Returned(k), more), Advance(c)) == Placed(w, linked, c, i, Returned(k), more);
  }

  /** The attempt after an answer that gives no request id: refused for sure, or unknown. */
  function Failed(d: Db, i: nat, reply: Reply): Db
  {
    d.(attempts := d.attempts[i := Attempt(if reply == Refusal then REJECTED else UNKNOWN, None)])
  }

  lemma FailedFinish(w: World, d: Db, c: nat, i: nat, reply: Reply)
    requires Askable(d, i) && reply != AcceptedWithId
    ensures Finish(Placed(w, Held(d, i), c, i, Charging, w.charges), c, reply) ==
            Placed(w, Failed(d, i, reply), c, i, Raised, w.charges + [Asked(i, reply)])
  {
    var held, more := Held(d, i), w.charges + [Asked(i, reply)];
    var s := if reply == Refusal then REJECTED else UNKNOWN;
    assert Next(Placed(w, held, c, i, Charging, w.charges), Ask(c, reply)) == Placed(w, held, c, i, Recording(s, None), more);
    assert Record(held, i, s, None) == Failed(d, i, reply);
    assert Next(Placed(w, held, c, i, Recording(s, None), more), Advance(c)) == Placed(w, Failed(d, i, reply), c, i, Raised, more);
    assert Next(Placed(w, Failed(d, i, reply), c, i, Raised, more), Advance(c)) == Placed(w, Failed(d, i, reply), c, i, Raised, more);
  }

  /** An undisturbed caller of an idle invoice: what it gets, what the provider was asked and what is stored. */
  lemma AloneOnIdle(w: World, c: nat, i: nat, reply: Reply)
    requires Askable(w.db, i) && c !in w.callers
    ensures Alone(w, c, i, reply) ==
            if reply == AcceptedWithId then
              Placed(w, Linked(w.db, i, |w.charges|), c, i, Returned(|w.charges|), w.charges + [Charge(i, Accepted)])
            else Placed(w, Failed(w.db, i, reply), c, i, Raised, w.charges + [Asked(i, reply)])
  {
    IdleCallerAsks(w, c, i);
    if reply == AcceptedWithId { AcceptedFinish(w, w.db, c, i); } else { FailedFinish(w, w.db, c, i, reply); }
  }

  /** The steps of a caller that has its answer change nothing more. */
  lemma Over(w: World, c: nat, reply: Reply)
    requires c in w.callers && (w.callers[c].place == Raised || w.callers[c].place.Returned?)
    ensures Next(w, Advance(c)) == w && Next(w, Ask(c, reply)) == w && Finish(w, c, reply) == w
  {
  }

  /** A caller of an invoice that is linked already gets the stored id. */
  lemma AloneOnLinked(w: World, c: nat, i: nat, reply: Reply)
    requires Pending(w.db, i) && w.db.invoices[i].paymentRequestId.Some? && c !in w.callers
    ensures Alone(w, c, i, reply) == Placed(w, w.db, c, i, Returned(w.db.invoices[i].paymentRequestId.value), w.charges)
  {
    var z := Placed(w, w.db, c, i, Returned(w.db.invoices[i].paymentRequestId.value), w.charges);
    assert Next(w, Spawn(c, i)) == Placed(w, w.db, c, i, ReadInvoice, w.charges);
    assert Next(Placed(w, w.db, c, i, ReadInvoice, w.charges), Advance(c)) == z;
    Over(z, c, reply);
  }

  /** A caller of an invoice whose outcome is unknown, without a retained id, gets an exception. */
  lemma AloneOnUnknown(w: World, c: nat, i: nat, reply: Reply)
    requires Pending(w.db, i) && w.db.invoices[i].paymentRequestId.None? && c !in w.callers
    requires i in w.db.attempts && w.db.attempts[i] == Attempt(UNKNOWN, None)
    ensures Alone(w, c, i, reply) == Placed(w, w.db, c, i, Raised, w.charges)
  {
    var z := Placed(w, w.db, c, i, Raised, w.charges);
    assert Next(w, Spawn(c, i)) == Placed(w, w.db, c, i, ReadInvoice, w.charges);
    assert Next(Placed(w, w.db, c, i, ReadInvoice, w.charges), Advance(c)) == Placed(w, w.db, c, i, ReadAttempt, w.charges);
    assert Next(Placed(w, w.db, c, i, ReadAttempt, w.charges), Advance(c)) == z;
    Over(z, c, reply);
  }

  lemma IdleIsAskable(w: World, i: nat)
    requires Safe(w) && Pending(w.db, i) && Idle(w.db, i)
    ensures Askable(w.db, i)
  {
    assert InvoiceOk(w.db.invoices[i], i, w.db.attempts) && AttemptOk(w.db, w.charges, i);
  }

  /**
    Two callers one after the other on an idle invoice.  After an acceptance the second gets the first one's
    id and asks for nothing.  After a refusal the second asks again, and gets the new id if that is accepted.
    After an answer that was lost or came without an id the second gets an exception and asks for nothing.
  */
  lemma CallAfterCall(w: World, c: nat, e: nat, i: nat, first: Reply, second: Reply)
    requires Safe(w) && Pending(w.db, i) && Idle(w.db, i) && c !in w.callers && e !in w.callers && e != c
    ensures var k := |w.charges|;
            var y := Alone(w, c, i, first);
            var z := Alone(y, e, i, second);
            && e in z.callers && z.callers[e].invoice == i
            && (first == AcceptedWithId ==> z.charges == y.charges && z.callers[e].place == Returned(k))
            && (first == Refusal ==>
                  z.charges == y.charges + [Asked(i, second)] &&
                  z.callers[e].place == (if second == AcceptedWithId then Returned(k + 1) else Raised))
            && (first == Lost || first == AcceptedWithoutId ==> z.charges == y.charges && z.callers[e].place == Raised)
  {
    IdleIsAskable(w, i);
    AloneOnIdle(w, c, i, first);
    var y := Alone(w, c, i, first);
    if first == AcceptedWithId { AloneOnLinked(y, e, i, second); }
    else if first == Refusal { AloneOnIdle(y, e, i, second); }
    else { AloneOnUnknown(y, e, i, second); }
  }

  /** A caller that lost the claim gets the id that became known in the meantime, and asks for nothing. */
  lemma LoserGetsTheId(w: World, c: nat, i: nat, k: nat)
    requires c in w.callers && w.callers[c] == Caller(i, RereadInvoice) && Pending(w.db, i)
    requires w.db.invoices[i].paymentRequestId == Some(k) ||
             (w.db.invoices[i].paymentRequestId == None && i in w.db.attempts && w.db.attempts[i] == Attempt(UNKNOWN, Some(k)))
    ensures var z := Next(Next(Next(w, Advance(c)), Advance(c)), Advance(c));
            && c in z.callers && z.callers[c] == Caller(i, Returned(k)) && z.charges == w.charges
            && Pending(z.db, i) && z.db.invoices[i].paymentRequestId == Some(k)
  {
    if w.db.invoices[i].paymentRequestId == Some(k) {
      var y := Placed(w, w.db, c, i, Returned(k), w.charges);
      assert Next(w, Advance(c)) == y;
      Over(y, c, Lost);
    } else {
      assert Next(w, Advance(c)) == Placed(w, w.db, c, i, RereadAttempt, w.charges);
      assert Next(Placed(w, w.db, c, i, RereadAttempt, w.charges), Advance(c)) == Placed(w, w.db, c, i, Recovering(k), w.charges);
      assert Next(Placed(w, w.db, c, i, Recovering(k), w.charges), Advance(c)) == Placed(w, Linked(w.db, i, k), c, i, Returned(k), w.charges);
    }
  }

  /** Of two callers that are about to claim, only the first to do so may ask; the other reads again. */
  lemma OneOfTwoClaims(w: World, c: nat, e: nat, i: nat)
    requires Askable(w.db, i) && c in w.callers && e in w.callers && c != e
    requires w.callers[c] == Caller(i, AtClaim) && w.callers[e] == Caller(i, AtClaim)
    ensures var z := Next(Next(w, Advance(c)), Advance(e));
            && z.db == Held(w.db, i) && z.charges == w.charges
            && c in z.callers && e in z.callers && z.callers[c].place == Charging && z.callers[e].place == RereadInvoice
  {
    var y := Placed(w, Held(w.db, i), c, i, Charging, w.charges);
    assert Next(w, Advance(c)) == y;
    assert Next(y, Advance(e)) == Placed(y, y.db, e, i, RereadInvoice, y.charges);
  }

  class BillingService {
    const repository: BillingRepository
    var charges: seq<Charge>

    constructor (repository: BillingRepository)
      ensures this.repository == repository && charges == []
    {
      this.repository := repository;
      charges := [];
    }

    /** Reads the invoice and the attempt, and claims the right to ask the provider. */
    method ReadAndClaim(c: nat, i: nat) returns (place: Place)
      modifies repository
      ensures place in {Raised, Charging, RereadInvoice} || place.Returned?
      ensures Approach(World(old(repository.State()), map[], charges), c, i) == World(repository.State(), map[c := Caller(i, place)], charges)
    {
      if i >= |repository.invoices| || repository.invoices[i].status != PENDING { return Raised; }
      if repository.invoices[i].paymentRequestId.Some? { return Returned(repository.invoices[i].paymentRequestId.value); }
      if i in repository.attempts && repository.attempts[i].paymentRequestId.Some? {
        var answer := Recover(i, repository.attempts[i].paymentRequestId.value);
        return if answer.Some? then Returned(answer.value) else Raised;
      }
      if i in repository.attempts && repository.attempts[i].state != REJECTED { return Raised; }
      var claimed := repository.ClaimPaymentRequest(i);
      place := if claimed then Charging else RereadInvoice;
    }

    /** Asks the provider and keeps what it answered. */
    method AskAndKeep(c: nat, i: nat, reply: Reply) returns (answer: Option<nat>)
      modifies this, repository
      ensures Finish(World(old(repository.State()), map[c := Caller(i, Charging)], old(charges)), c, reply) ==
              World(repository.State(), map[c := Caller(i, Outcome(answer))], charges)
    {
      if reply != AcceptedWithId {
        KeepFailure(c, i, reply);
        return None;
      }
      IdFinish(repository.State(), charges, c, i);
      var request := |charges|;
      charges := charges + [Charge(i, Accepted)];
      var done := repository.CompletePaymentRequest(i, request);
      if !done {
        repository.RecordOutcome(i, UNKNOWN, Some(request));
        return None;
      }
      answer := Some(request);
    }

    /** An error, or an answer without an id: rejected for sure, or unknown. */
    method KeepFailure(c: nat, i: nat, reply: Reply)
      requires reply != AcceptedWithId
      modifies this, repository
      ensures Finish(World(old(repository.State()), map[c := Caller(i, Charging)], old(charges)), c, reply) ==
              World(repository.State(), map[c := Caller(i, Raised)], charges)
    {
      NoIdFinish(repository.State(), charges, c, i, reply);
      charges := charges + [Charge(i, if reply == Refusal then DefinitelyRejected else if reply == Lost then NotKnown else Accepted)];
      repository.RecordOutcome(i, if reply == Refusal then REJECTED else UNKNOWN, None);
    }

    /** Somebody else holds the claim: its request may have become known in the meantime. */
    method ReadAgain(c: nat, i: nat, reply: Reply) returns (answer: Option<nat>)
      modifies repository
      ensures Finish(World(old(repository.State()), map[c := Caller(i, RereadInvoice)], charges), c, reply) ==
              World(repository.State(), map[c := Caller(i, Outcome(answer))], charges)
    {
      RereadFinish(repository.State(), charges, c, i, reply);
      if i < |repository.invoices| && repository.invoices[i].paymentRequestId.Some? { return repository.invoices[i].paymentRequestId; }
      AttemptFinish(repository.State(), charges, c, i);
      if i in repository.attempts && repository.attempts[i].paymentRequestId.Some? {
        answer := Recover(i, repository.attempts[i].paymentRequestId.value);
        return;
      }
      answer := None;
    }

    /** What the caller gets: the request id, or an exception. */
    method CreatePaymentRequest(c: nat, i: nat, reply: Reply) returns (answer: Option<nat>)
      modifies this, repository
      ensures Alone(World(old(repository.State()), map[], old(charges)), c, i, reply) ==
              World(repository.State(), map[c := Caller(i, Outcome(answer))], charges)
    {
      var place := ReadAndClaim(c, i);
      match place {
        case Charging => answer := AskAndKeep(c, i, reply);
        case RereadInvoice => answer := ReadAgain(c, i, reply);
        case Returned(request) => answer := Some(request);
        case _ => answer := None;
      }
    }

    method Recover(i: nat, request: nat) returns (answer: Option<nat>)
      modifies repository
      ensures match Complete(old(repository.State()), i, request)
              case Some(d) => repository.State() == d && answer == Some(request)
              case None => repository.State() == old(repository.State()) && answer == None
    {
      var done := repository.CompletePaymentRequest(i, request);
      answer := if done then Some(request) else None;
    }
  }
}
