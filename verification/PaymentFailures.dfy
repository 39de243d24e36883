/**
  The failed event of an invoice, over whole runs.  A webhook writes it together with the status; the
  manual path marks the invoice first and publishes in a second transaction, and may stop in between.
*/
module PaymentFailures {
  import opened Fifo
  import opened Billing
  import opened PaymentProtocol
  import opened PaymentSafety
  import opened PaymentWebhooks

  /** The action writes the failed event: a webhook that fails the invoice, or a publication that commits. */
  predicate Announces(w: World, a: Action, i: nat)
  {
    match a
    case Receive(h) => ReportsFailure(h) && KeyOf(h) !in w.db.receipts && AboutPending(w.db, h, i)
    case Advance(c) => PublishesFailure(w, c, i)
    case Lapse(c, committed) => committed && PublishesFailure(w, c, i)
    case _ => false
  }

  /** The action takes away the one caller that would have published the event. */
  predicate Loses(w: World, a: Action, i: nat)
  {
    match a
    case Crash(c) => PublishesFailure(w, c, i)
    case Lapse(c, committed) =>
      if committed then c in w.callers && w.callers[c] == Caller(i, Failing) && Pending(w.db, i) else PublishesFailure(w, c, i)
    case _ => false
  }

  /** Somebody is still to publish. */
  predicate Awaited(w: World, i: nat) { exists c :: c in w.callers && PublishesFailure(w, c, i) }

  function AnnouncedIn(actions: seq<Action>, i: nat): bool
  {
    actions != [] &&
    (AnnouncedIn(actions[..|actions| - 1], i) || Announces(Trace(Start(), actions[..|actions| - 1]), actions[|actions| - 1], i))
  }

  function LostIn(actions: seq<Action>, i: nat): bool
  {
    actions != [] &&
    (LostIn(actions[..|actions| - 1], i) || Loses(Trace(Start(), actions[..|actions| - 1]), actions[|actions| - 1], i))
  }

  /** A failed invoice's event was written, or was lost, or is awaited, and only one of these. */
  predicate Account(w: World, announced: bool, lost: bool, i: nat)
  {
    && Count(w.db, InvoiceFailed(i)) == OneIf(announced)
    && (StatusOf(w.db, i) == FAILED <==> announced || lost || Awaited(w, i))
    && !(announced && lost) && !((announced || lost) && Awaited(w, i))
  }

  /** Neither the invoice's status, nor its event, nor its publishers change. */
  ghost predicate Undisturbed(w: World, n: World, i: nat)
  {
    && Count(n.db, InvoiceFailed(i)) == Count(w.db, InvoiceFailed(i))
    && (StatusOf(n.db, i) == FAILED <==> StatusOf(w.db, i) == FAILED)
    && forall c :: PublishesFailure(n, c, i) <==> PublishesFailure(w, c, i)
  }

  lemma NothingHappens(w: World, n: World, announced: bool, lost: bool, i: nat)
    requires Account(w, announced, lost, i) && Undisturbed(w, n, i)
    ensures Account(n, announced, lost, i)
  {
    if Awaited(w, i) {
      var c :| c in w.callers && PublishesFailure(w, c, i);
      assert c in n.callers && PublishesFailure(n, c, i);
    }
    if Awaited(n, i) {
      var c :| c in n.callers && PublishesFailure(n, c, i);
      assert c in w.callers && PublishesFailure(w, c, i);
    }
  }

  lemma OnePublisher(w: World, c: nat, i: nat)
    requires Announced(w) && PublishesFailure(w, c, i)
    ensures StatusOf(w.db, i) == FAILED && Count(w.db, InvoiceFailed(i)) == 0 && Awaited(w, i)
    ensures forall e: nat :: PublishesFailure(w, e, i) ==> e == c
  {
  }

  lemma Appended(d: Db, e: Db, x: Event, i: nat)
    requires e.outbox == d.outbox + [x]
    ensures Count(e, InvoiceFailed(i)) == Count(d, InvoiceFailed(i)) + OneIf(x == InvoiceFailed(i))
  {
    assert multiset(e.outbox) == multiset(d.outbox) + multiset{x};
  }

  lemma ReceiveAccount(w: World, h: Webhook, announced: bool, lost: bool, i: nat)
    requires Sane(w) && Announced(w) && Account(w, announced, lost, i)
    ensures var n := Next(w, Receive(h)); Account(n, announced || Announces(w, Receive(h), i), lost, i)
  {
    var n := Next(w, Receive(h));
    if KeyOf(h) in w.db.receipts {
      NothingHappens(w, n, announced, lost, i);
    } else if j: nat :| j < |w.db.invoices| && About(w.db, h, j) {
      WebhookAboutInvoice(w, h, j);
      AboutAccount(w, h, j, announced, lost, i);
    } else {
      WebhookAboutNone(w, h);
      NothingHappens(w, n, announced, lost, i);
    }
  }

  lemma AboutAccount(w: World, h: Webhook, j: nat, announced: bool, lost: bool, i: nat)
    requires Sane(w) && Announced(w) && Account(w, announced, lost, i) && About(w.db, h, j) && KeyOf(h) !in w.db.receipts
    requires Deliver(w.db, h) ==
             if !Known(h) then Delivery(w.db, Refused)
             else if ReportsAuthorization(h) || !Pending(w.db, j) then Delivery(OnlyReceipt(w.db, h), IGNORED)
             else Delivery(SettledBy(w.db, h, j, if ReportsSuccess(h) then PAID else FAILED), PROCESSED)
    ensures Account(Next(w, Receive(h)), announced || Announces(w, Receive(h), i), lost, i)
  {
    var n := Next(w, Receive(h));
    if j != i && About(w.db, h, i) { AboutOne(w.db, h, i, j); }
    if Known(h) && !ReportsAuthorization(h) && Pending(w.db, j) {
      Appended(w.db, n.db, EventFor(j, if ReportsSuccess(h) then PAID else FAILED), i);
    }
    if Announces(w, Receive(h), i) {
      assert StatusOf(w.db, i) == PENDING && !Awaited(w, i);
      forall c | c in n.callers ensures !PublishesFailure(n, c, i) { assert !PublishesFailure(w, c, i); }
    } else {
      NothingHappens(w, n, announced, lost, i);
    }
  }

  lemma SettleAccount(w: World, n: World, announced: bool, lost: bool, i: nat, j: nat, s: InvoiceStatus)
    requires Account(w, announced, lost, i) && Settles(w.db, n.db, j, s) && s in {PAID, CANCELLED} && n.callers == w.callers
    ensures Account(n, announced, lost, i)
  {
    Appended(w.db, n.db, EventFor(j, s), i);
    NothingHappens(w, n, announced, lost, i);
  }

  /** The manual path marks its invoice: now its caller is to publish, or nobody is. */
  lemma MarkAccount(w: World, n: World, c: nat, p: Place, announced: bool, lost: bool, i: nat)
    requires Announced(w) && Account(w, announced, lost, i) && c in w.callers && w.callers[c] == Caller(i, Failing) && Pending(w.db, i)
    requires n == At(w.(db := MarkFailed(w.db, i).value), c, p) && p in {Publishing, Raised}
    ensures Account(n, announced, lost || p == Raised, i)
  {
    assert StatusOf(w.db, i) == PENDING && StatusOf(n.db, i) == FAILED && !Awaited(w, i);
    if p == Publishing {
      assert PublishesFailure(n, c, i);
    } else {
      forall e | e in n.callers ensures !PublishesFailure(n, e, i) { assert !PublishesFailure(w, e, i); }
    }
  }

  /** The publisher is done, with the event or without it. */
  lemma PublishAccount(w: World, n: World, c: nat, published: bool, announced: bool, lost: bool, i: nat)
    requires Announced(w) && Account(w, announced, lost, i) && PublishesFailure(w, c, i)
    requires n.db == (if published then Published(w.db, i) else w.db)
    requires forall e: nat :: PublishesFailure(n, e, i) ==> e != c && PublishesFailure(w, e, i)
    ensures Account(n, announced || published, lost || !published, i)
  {
    OnePublisher(w, c, i);
    assert !Awaited(n, i);
    if published { Appended(w.db, n.db, InvoiceFailed(i), i); }
  }

  /** A step of one caller that has nothing to do with the failure of this invoice. */
  lemma OtherStep(w: World, d: Db, c: nat, p: Place, i: nat)
    requires c in w.callers && !PublishesFailure(w, c, i) && (p == Publishing ==> w.callers[c].invoice != i)
    requires StatusOf(d, i) == StatusOf(w.db, i) && Count(d, InvoiceFailed(i)) == Count(w.db, InvoiceFailed(i))
    ensures Undisturbed(w, At(w.(db := d), c, p), i)
  {
  }

  /** What a caller writes without touching the failure of this invoice. */
  lemma OtherWrite(w: World, d: Db, j: nat, i: nat)
    requires Silent(w.db, d) || (j != i && d == Published(w.db, j)) || (j != i && Pending(w.db, j) && d == MarkFailed(w.db, j).value)
    ensures StatusOf(d, i) == StatusOf(w.db, i) && Count(d, InvoiceFailed(i)) == Count(w.db, InvoiceFailed(i))
  {
    if j != i && d == Published(w.db, j) { Appended(w.db, d, InvoiceFailed(j), i); }
  }

  /** The write of a caller, if it commits one, is silent, a publication or a mark. */
  lemma MoveWrites(w: World, c: nat)
    requires c in w.callers
    ensures var j, d := w.callers[c].invoice, Move(w, c).db;
            match w.callers[c].place
            case Publishing => d == Published(w.db, j)
            case Failing => d == if Pending(w.db, j) then MarkFailed(w.db, j).value else w.db
            case _ => Silent(w.db, d)
    ensures c in Move(w, c).callers && Move(w, c) == At(w.(db := Move(w, c).db), c, Move(w, c).callers[c].place)
    ensures Move(w, c).callers[c].place == Publishing <==> w.callers[c].place == Failing && Pending(w.db, w.callers[c].invoice)
  {
    var p := w.callers[c].place;
    CompleteSilent(w.db, w.callers[c].invoice, if p.Completing? || p.Recovering? then p.request else 0);
  }

  lemma BreakWrites(w: World, c: nat, committed: bool)
    requires c in w.callers
    ensures var j, d := w.callers[c].invoice, Break(w, c, committed).db;
            match w.callers[c].place
            case Publishing => d == if committed then Published(w.db, j) else w.db
            case Failing => d == if committed && Pending(w.db, j) then MarkFailed(w.db, j).value else w.db
            case _ => Silent(w.db, d)
    ensures c in Break(w, c, committed).callers
    ensures Break(w, c, committed) == At(w.(db := Break(w, c, committed).db), c, Break(w, c, committed).callers[c].place)
    ensures Break(w, c, committed).callers[c].place != Publishing
  {
    var p := w.callers[c].place;
    CompleteSilent(w.db, w.callers[c].invoice, if p.Completing? || p.Recovering? then p.request else 0);
  }

  predicate Decides(w: World, c: nat, i: nat)
  {
    PublishesFailure(w, c, i) || (c in w.callers && w.callers[c] == Caller(i, Failing) && Pending(w.db, i))
  }

  lemma OtherMove(w: World, c: nat, announced: bool, lost: bool, i: nat)
    requires c in w.callers && Account(w, announced, lost, i) && !Decides(w, c, i)
    ensures Account(Move(w, c), announced, lost, i)
  {
    MoveWrites(w, c);
    var n := Move(w, c);
    OtherWrite(w, n.db, w.callers[c].invoice, i);
    OtherStep(w, n.db, c, n.callers[c].place, i);
    NothingHappens(w, n, announced, lost, i);
  }

  lemma OtherBreak(w: World, c: nat, committed: bool, announced: bool, lost: bool, i: nat)
    requires c in w.callers && Account(w, announced, lost, i) && !Decides(w, c, i)
    ensures Account(Break(w, c, committed), announced, lost, i)
  {
    BreakWrites(w, c, committed);
    var n := Break(w, c, committed);
    OtherWrite(w, n.db, w.callers[c].invoice, i);
    OtherStep(w, n.db, c, n.callers[c].place, i);
    NothingHappens(w, n, announced, lost, i);
  }

  lemma MoveAccount(w: World, c: nat, announced: bool, lost: bool, i: nat)
    requires Announced(w) && Account(w, announced, lost, i) && c in w.callers
    ensures Account(Move(w, c), announced || Announces(w, Advance(c), i), lost, i)
  {
    if !Decides(w, c, i) { OtherMove(w, c, announced, lost, i); }
    else if PublishesFailure(w, c, i) {
      OnePublisher(w, c, i);
      PublishAccount(w, Move(w, c), c, true, announced, lost, i);
    } else {
      MarkAccount(w, Move(w, c), c, Publishing, announced, lost, i);
    }
  }

  lemma BreakAccount(w: World, c: nat, committed: bool, announced: bool, lost: bool, i: nat)
    requires Announced(w) && Account(w, announced, lost, i) && c in w.callers
    ensures var a := Lapse(c, committed);
            Account(Break(w, c, committed), announced || Announces(w, a, i), lost || Loses(w, a, i), i)
  {
    if !Decides(w, c, i) { OtherBreak(w, c, committed, announced, lost, i); }
    else if PublishesFailure(w, c, i) {
      PublishAccount(w, Break(w, c, committed), c, committed, announced, lost, i);
    } else if committed {
      MarkAccount(w, Break(w, c, committed), c, Raised, announced, lost, i);
    } else {
      OtherStep(w, w.db, c, Raised, i);
      NothingHappens(w, Break(w, c, committed), announced, lost, i);
    }
  }

  lemma CrashAccount(w: World, c: nat, announced: bool, lost: bool, i: nat)
    requires Announced(w) && Account(w, announced, lost, i)
    ensures Account(Next(w, Crash(c)), announced, lost || Loses(w, Crash(c), i), i)
  {
    if PublishesFailure(w, c, i) {
      PublishAccount(w, Next(w, Crash(c)), c, false, announced, lost, i);
    } else {
      NothingHappens(w, Next(w, Crash(c)), announced, lost, i);
    }
  }

  lemma ByHandAccount(w: World, a: Action, announced: bool, lost: bool, i: nat)
    requires Account(w, announced, lost, i) && (a.CancelInvoice? || a.SettleInvoice?)
    ensures Account(Next(w, a), announced, lost, i)
  {
    var j, n := a.invoice, Next(w, a);
    if a.CancelInvoice? && Cancel(w.db, j).Some? { SettleAccount(w, n, announced, lost, i, j, CANCELLED); }
    else if a.SettleInvoice? && Settle(w.db, j).Some? { SettleAccount(w, n, announced, lost, i, j, PAID); }
  }

  lemma QuietAccount(w: World, a: Action, announced: bool, lost: bool, i: nat)
    requires Account(w, announced, lost, i) && (a.Create? || a.Spawn? || a.SpawnFailure? || a.Ask?)
    ensures Account(Next(w, a), announced, lost, i)
  {
    NothingHappens(w, Next(w, a), announced, lost, i);
  }

  lemma NextAccount(w: World, a: Action, announced: bool, lost: bool, i: nat)
    requires Sane(w) && Announced(w) && Account(w, announced, lost, i)
    ensures Account(Next(w, a), announced || Announces(w, a, i), lost || Loses(w, a, i), i)
  {
    match a
    case Receive(h) => ReceiveAccount(w, h, announced, lost, i);
    case CancelInvoice(_) => ByHandAccount(w, a, announced, lost, i);
    case SettleInvoice(_) => ByHandAccount(w, a, announced, lost, i);
    case Advance(c) => if c in w.callers { MoveAccount(w, c, announced, lost, i); }
    case Lapse(c, committed) => if c in w.callers { BreakAccount(w, c, committed, announced, lost, i); }
    case Crash(c) => CrashAccount(w, c, announced, lost, i);
    case _ => QuietAccount(w, a, announced, lost, i);
  }

  lemma {:induction false} TraceAccount(actions: seq<Action>, i: nat)
    ensures Account(Trace(Start(), actions), AnnouncedIn(actions, i), LostIn(actions, i), i)
  {
    if actions != [] {
      var front := actions[..|actions| - 1];
      TraceAccount(front, i);
      assert Announced(Start());
      TraceAnnounced(Start(), front);
      StartSane();
      TraceSane(Start(), front);
      NextAccount(Trace(Start(), front), actions[|actions| - 1], AnnouncedIn(front, i), LostIn(front, i), i);
    }
  }

  lemma AccountMeans(w: World, announced: bool, lost: bool, i: nat)
    requires Account(w, announced, lost, i)
    ensures StatusOf(w.db, i) == FAILED ==>
              && (Count(w.db, InvoiceFailed(i)) == 1 <==> announced)
              && (Count(w.db, InvoiceFailed(i)) == 0 <==> Awaited(w, i) || lost)
  {
  }

  /**
    A failed invoice has exactly one failed event if and only if a webhook failed it or the publication of
    its caller committed; it has none if and only if that caller is still to publish, or stopped before.
  */
  lemma FailedEventIff(actions: seq<Action>, i: nat)
    ensures var w := Trace(Start(), actions);
            StatusOf(w.db, i) == FAILED ==>
              && (Count(w.db, InvoiceFailed(i)) == 1 <==> AnnouncedIn(actions, i))
              && (Count(w.db, InvoiceFailed(i)) == 0 <==> Awaited(w, i) || LostIn(actions, i))
  {
    TraceAccount(actions, i);
    AccountMeans(Trace(Start(), actions), AnnouncedIn(actions, i), LostIn(actions, i), i);
  }

  lemma {:induction false} LostStays(actions: seq<Action>, more: seq<Action>, i: nat)
    requires LostIn(actions, i)
    ensures LostIn(actions + more, i)
  {
    if more == [] {
      assert actions + more == actions;
    } else {
      assert (actions + more)[..|actions + more| - 1] == actions + more[..|more| - 1];
      LostStays(actions, more[..|more| - 1], i);
    }
  }

  /** A lost event is never made up for: no later call, crash or webhook writes it. */
  lemma LostForGood(actions: seq<Action>, more: seq<Action>, i: nat)
    requires LostIn(actions, i)
    ensures var d := Trace(Start(), actions + more).db; StatusOf(d, i) == FAILED && Count(d, InvoiceFailed(i)) == 0
  {
    LostStays(actions, more, i);
    TraceAccount(actions + more, i);
  }

  function MarkThenCrash(): seq<Action> { [Create(1, 1, 1), SpawnFailure(7, 0), Advance(7), Crash(7)] }

  /** It does happen: the caller marks the invoice and crashes, and the event is missing. */
  lemma FailedEventIsLost()
    ensures LostIn(MarkThenCrash(), 0)
    ensures var d := Trace(Start(), MarkThenCrash()).db; StatusOf(d, 0) == FAILED && Count(d, InvoiceFailed(0)) == 0
  {
    var all := MarkThenCrash();
    var created := Db([Invoice(1, 1, 1, PENDING, None, None, None)], map[], map[], []);
    assert all[..3][..2] == all[..2] && all[..2][..1] == all[..1] && all[..1][..0] == [];
    assert Trace(Start(), all[..1]) == World(created, map[], []);
    assert Trace(Start(), all[..2]) == World(created, map[7 := Caller(0, Failing)], []);
    assert Trace(Start(), all[..3]) == World(WithStatus(created, 0, FAILED), map[7 := Caller(0, Publishing)], []);
    assert PublishesFailure(Trace(Start(), all[..3]), 7, 0);
    TraceAccount(all, 0);
  }
}
