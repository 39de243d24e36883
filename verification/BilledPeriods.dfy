/**
  Which invoices a run of billing creates: one for the first request of each billing period that is not
  broken and asks for money, with that request's amount, and a number that shows its year and month.
*/
module BilledPeriods {
  import opened Fifo
  import opened InvoiceNumbering

  // ------------------------------------------------------------------ reading a printed number

  /** What stands between the prefix and the last dash. */
  function Middle(number: string): string
    requires |BeforeLast(number, '-')| >= 4
  {
    BeforeLast(number, '-')[4..]
  }

  /** A printed number shows this year, this two-digit month and this sequence number of at least six digits. */
  predicate Shows(number: string, year: nat, month: nat, sequence: nat)
  {
    && |BeforeLast(number, '-')| >= 6 && |number| >= 4 && number[..4] == "INV-" && |AfterLast(number, '-')| >= 6
    && ValueOf(Middle(number)[..|Middle(number)| - 2]) == year
    && ValueOf(Middle(number)[|Middle(number)| - 2..]) == month
    && SequenceOf(number) == sequence
  }

  lemma Width(n: nat, width: nat)
    ensures |PadStart(Digits(n), width)| >= width
    ensures width == 2 && n < 100 ==> |PadStart(Digits(n), width)| == 2
  {
    if 10 <= n < 100 { assert |Digits(n / 10)| == 1; }
  }

  lemma FrontPart(year: string, month: string, k: nat)
    requires |month| == k
    ensures |year + month| - k >= 0 && (year + month)[..|year + month| - k] == year && (year + month)[|year + month| - k..] == month
  {
  }

  /** Year, month and sequence number can be read off a printed number. */
  lemma NumberShows(year: nat, month: nat, sequence: nat)
    requires month < 100
    ensures Shows(InvoiceNumber(year, month, sequence), year, month, sequence)
  {
    var y, m, s := Digits(year), PadStart(Digits(month), 2), PadStart(Digits(sequence), 6);
    PaddedMeans(sequence, 6);
    PaddedMeans(month, 2);
    DigitsMean(year);
    Width(year, 1);
    Width(month, 2);
    Width(sequence, 6);
    PartsRead(y, m, s);
  }

  lemma PartsRead(y: string, m: string, s: string)
    requires |y| >= 1 && |m| == 2 && AllDigits(s)
    ensures var number := "INV-" + y + m + "-" + s;
            && BeforeLast(number, '-') == "INV-" + y + m && AfterLast(number, '-') == s && number[..4] == "INV-"
            && |BeforeLast(number, '-')| >= 6 && Middle(number) == y + m
            && Middle(number)[..|Middle(number)| - 2] == y && Middle(number)[|Middle(number)| - 2..] == m
  {
    assert "INV-" + y + m + "-" + s == ("INV-" + y + m) + ['-'] + s;
    SplitLast("INV-" + y + m, '-', s);
    assert ("INV-" + y + m)[4..] == y + m;
    FrontPart(y, m, 2);
  }

  // ------------------------------------------------------------------ which requests are billed

  /** Asks for money and is not broken off. */
  predicate Succeeds(q: Request) { !q.breaks && q.amount > 0 }

  /** Somebody asked for this period before, and succeeded. */
  predicate AskedBefore(qs: seq<Request>, key: string)
  {
    exists k :: 0 <= k < |qs| && qs[k].key == Some(key) && Succeeds(qs[k])
  }

  /** The request is carried out: for a period, only the first that succeeds. */
  predicate CarriedOut(before: seq<Request>, q: Request)
  {
    !q.breaks && (q.key.Some? ==> q.amount > 0 && !AskedBefore(before, q.key.value))
  }

  /** The requests that are carried out, in their order. */
  function Kept(qs: seq<Request>): seq<Request>
  {
    if qs == [] then []
    else
      var n := |qs| - 1;
      Kept(qs[..n]) + if CarriedOut(qs[..n], qs[n]) then [qs[n]] else []
  }

  /** The invoice is the one its request asked for. */
  predicate Carries(v: Numbered, q: Request, sequence: nat)
  {
    v.key == q.key && v.amount == q.amount && Shows(v.number, q.year, q.month, sequence)
  }

  predicate CarriesAll(vs: seq<Numbered>, qs: seq<Request>, start: nat)
  {
    |vs| == |qs| && forall j :: 0 <= j < |vs| ==> Carries(vs[j], qs[j], start + j + 1)
  }

  predicate Months(qs: seq<Request>) { forall i :: 0 <= i < |qs| ==> qs[i].month < 100 }

  lemma AskedSnoc(qs: seq<Request>, q: Request, key: string)
    ensures AskedBefore(qs + [q], key) <==> AskedBefore(qs, key) || (q.key == Some(key) && Succeeds(q))
  {
    var all := qs + [q];
    if AskedBefore(qs, key) {
      var k :| 0 <= k < |qs| && qs[k].key == Some(key) && Succeeds(qs[k]);
      assert all[k] == qs[k];
    }
    if q.key == Some(key) && Succeeds(q) { assert all[|qs|] == q; }
  }

  lemma BilledAdded(r: Register, q: Request, key: string)
    ensures Billed(Bill(r, q), key) <==> Billed(r, key) || (q.key == Some(key) && Succeeds(q))
  {
    if Bill(r, q) != r { AddedBilled(r, Numbered(InvoiceNumber(q.year, q.month, r.counter + 1), q.key, q.amount), key); }
  }

  /** A period is billed exactly when some request for it has succeeded. */
  lemma {:induction false} BilledIffAsked(start: nat, qs: seq<Request>, key: string)
    ensures Billed(BillAll(Register(start, [], []), qs), key) <==> AskedBefore(qs, key)
  {
    if qs != [] {
      var n := |qs| - 1;
      BilledIffAsked(start, qs[..n], key);
      BilledAdded(BillAll(Register(start, [], []), qs[..n]), qs[n], key);
      AskedSnoc(qs[..n], qs[n], key);
      assert qs == qs[..n] + [qs[n]];
    }
  }

  /** Exactly the invoice that was asked for is added, under the next number, with its pair of events. */
  predicate AddsOne(r: Register, n: Register, q: Request)
  {
    && n.counter == r.counter + 1
    && |n.invoices| == |r.invoices| + 1 && n.invoices[..|r.invoices|] == r.invoices
    && Carries(n.invoices[|r.invoices|], q, n.counter)
    && n.events ==
       r.events + if q.key.Some? then [InvoiceCreated(n.invoices[|r.invoices|].number), PaymentRequired(q.key.value)] else []
  }

  /**
    One request: carried out exactly when it is not broken off and, if it is for a period, asks for money and
    the period is not billed yet.  Then it adds exactly its own invoice; otherwise it changes nothing.
  */
  lemma BillAddsIff(r: Register, q: Request)
    requires q.month < 100
    ensures if !q.breaks && (q.key.Some? ==> q.amount > 0 && !Billed(r, q.key.value)) then AddsOne(r, Bill(r, q), q) else Bill(r, q) == r
  {
    NumberShows(q.year, q.month, r.counter + 1);
    if Bill(r, q) != r { assert Bill(r, q).invoices[..|r.invoices|] == r.invoices; }
  }

  lemma CarriesSnoc(vs: seq<Numbered>, v: Numbered, qs: seq<Request>, q: Request, start: nat)
    requires CarriesAll(vs, qs, start) && Carries(v, q, start + |vs| + 1)
    ensures CarriesAll(vs + [v], qs + [q], start)
  {
  }

  /**
    Over any run, the invoices are exactly the requests that are carried out: for each period the first
    one that asks for money and is not broken off.  Invoice j carries the key and the amount of the j-th of
    them, and a number that shows its year, its month and the j-th counter value.
  */
  lemma {:induction false} InvoicesAreRequests(start: nat, qs: seq<Request>)
    requires Months(qs)
    ensures CarriesAll(BillAll(Register(start, [], []), qs).invoices, Kept(qs), start)
    ensures BillAll(Register(start, [], []), qs).counter == start + |Kept(qs)|
  {
    if qs != [] {
      var n := |qs| - 1;
      var r, q := BillAll(Register(start, [], []), qs[..n]), qs[n];
      InvoicesAreRequests(start, qs[..n]);
      if q.key.Some? { BilledIffAsked(start, qs[..n], q.key.value); }
      BillAddsIff(r, q);
      if CarriedOut(qs[..n], q) {
        var z := Bill(r, q);
        CarriesSnoc(r.invoices, z.invoices[|r.invoices|], Kept(qs[..n]), q, start);
        assert z.invoices == r.invoices + [z.invoices[|r.invoices|]];
      }
    }
  }

  lemma {:induction false} KeptAsksForMoney(qs: seq<Request>, j: nat)
    requires j < |Kept(qs)|
    ensures exists i :: 0 <= i < |qs| && qs[i] == Kept(qs)[j]
    ensures !Kept(qs)[j].breaks && (Kept(qs)[j].key.Some? ==> Kept(qs)[j].amount > 0)
  {
    var n := |qs| - 1;
    if j < |Kept(qs[..n])| { KeptAsksForMoney(qs[..n], j); }
  }

  /** So no invoice of a period is free, and each is the invoice of a request that was not broken off. */
  lemma InvoicesAreNotFree(start: nat, qs: seq<Request>, j: nat)
    requires Months(qs) && j < |BillAll(Register(start, [], []), qs).invoices|
    ensures var v := BillAll(Register(start, [], []), qs).invoices[j];
            && (v.key.Some? ==> v.amount > 0)
            && exists i :: 0 <= i < |qs| && !qs[i].breaks && Carries(v, qs[i], start + j + 1)
  {
    InvoicesAreRequests(start, qs);
    KeptAsksForMoney(qs, j);
  }
}
