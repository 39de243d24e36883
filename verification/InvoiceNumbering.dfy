/**
  Invoice numbers and billing periods: a counter advanced inside the transaction that creates the
  invoice, a printed form, and the key that allows one invoice per subscription and month.
*/
module InvoiceNumbering {
  import opened Fifo

  // ------------------------------------------------------------------ printed numbers

  function DigitChar(d: nat): char
    requires d < 10
  {
    (d + '0' as int) as char
  }

  function DigitValue(c: char): int { c as int - '0' as int }

  function Digits(n: nat): string
  {
    if n < 10 then [DigitChar(n)] else Digits(n / 10) + [DigitChar(n % 10)]
  }

  function Zeros(k: nat): string { seq(k, _ => '0') }

  /** padStart: fills up to a width and never cuts. */
  function PadStart(s: string, width: nat): string
  {
    if |s| >= width then s else Zeros(width - |s|) + s
  }

  function InvoiceNumber(year: nat, month: nat, sequence: nat): string
  {
    "INV-" + Digits(year) + PadStart(Digits(month), 2) + "-" + PadStart(Digits(sequence), 6)
  }

  function PeriodKey(subscription: string, year: nat, month: nat): string
  {
    subscription + ":" + (Digits(year) + "-" + PadStart(Digits(month), 2))
  }

  function ValueOf(s: string): int
  {
    if s == "" then 0 else 10 * ValueOf(s[..|s| - 1]) + DigitValue(s[|s| - 1])
  }

  function AfterLast(s: string, c: char): string
  {
    if s == "" || s[|s| - 1] == c then "" else AfterLast(s[..|s| - 1], c) + [s[|s| - 1]]
  }

  function BeforeLast(s: string, c: char): string
  {
    if s == "" then "" else if s[|s| - 1] == c then s[..|s| - 1] else BeforeLast(s[..|s| - 1], c)
  }

  predicate AllDigits(s: string) { forall i :: 0 <= i < |s| ==> '0' <= s[i] <= '9' }

  predicate Without(s: string, c: char) { forall i :: 0 <= i < |s| ==> s[i] != c }

  lemma {:induction false} DigitsMean(n: nat)
    ensures AllDigits(Digits(n)) && ValueOf(Digits(n)) == n
  {
    if n < 10 {
      assert Digits(n)[..0] == "";
    } else {
      DigitsMean(n / 10);
      assert Digits(n)[..|Digits(n)| - 1] == Digits(n / 10);
    }
  }

  lemma {:induction false} ZerosMean(k: nat, s: string)
    requires AllDigits(s)
    ensures AllDigits(Zeros(k) + s) && ValueOf(Zeros(k) + s) == ValueOf(s)
  {
    var all := Zeros(k) + s;
    if s != "" {
      assert all[..|all| - 1] == Zeros(k) + s[..|s| - 1];
      ZerosMean(k, s[..|s| - 1]);
    } else if k > 0 {
      assert all[..|all| - 1] == Zeros(k - 1) + s;
      ZerosMean(k - 1, s);
    }
  }

  lemma PaddedMeans(n: nat, width: nat)
    ensures AllDigits(PadStart(Digits(n), width)) && ValueOf(PadStart(Digits(n), width)) == n
  {
    DigitsMean(n);
    if |Digits(n)| < width { ZerosMean(width - |Digits(n)|, Digits(n)); }
  }

  lemma {:induction false} SplitLast(front: string, c: char, back: string)
    requires Without(back, c)
    ensures AfterLast(front + [c] + back, c) == back && BeforeLast(front + [c] + back, c) == front
  {
    var all := front + [c] + back;
    if back == "" {
      assert all[..|all| - 1] == front;
    } else {
      assert all[..|all| - 1] == front + [c] + back[..|back| - 1];
      SplitLast(front, c, back[..|back| - 1]);
    }
  }

  /** Reading the digits after the last dash gives the sequence number back, whatever its size. */
  lemma NumberRoundTrip(year: nat, month: nat, sequence: nat)
    ensures SequenceOf(InvoiceNumber(year, month, sequence)) == sequence
  {
    PaddedMeans(sequence, 6);
    SplitLast("INV-" + Digits(year) + PadStart(Digits(month), 2), '-', PadStart(Digits(sequence), 6));
  }

  lemma NumbersDiffer(y1: nat, m1: nat, n1: nat, y2: nat, m2: nat, n2: nat)
    ensures InvoiceNumber(y1, m1, n1) == InvoiceNumber(y2, m2, n2) ==> n1 == n2
  {
    NumberRoundTrip(y1, m1, n1);
    NumberRoundTrip(y2, m2, n2);
  }

  lemma KeyRoundTrip(subscription: string, year: nat, month: nat)
    ensures var k := PeriodKey(subscription, year, month);
            && BeforeLast(k, ':') == subscription
            && ValueOf(BeforeLast(AfterLast(k, ':'), '-')) == year
            && ValueOf(AfterLast(AfterLast(k, ':'), '-')) == month
  {
    PaddedMeans(month, 2);
    DigitsMean(year);
    var back := Digits(year) + "-" + PadStart(Digits(month), 2);
    SplitLast(subscription, ':', back);
    SplitLast(Digits(year), '-', PadStart(Digits(month), 2));
  }

  /** Two billing periods share a key only if they are the same period of the same subscription. */
  lemma PeriodKeyIsInjective(s1: string, y1: nat, m1: nat, s2: string, y2: nat, m2: nat)
    requires PeriodKey(s1, y1, m1) == PeriodKey(s2, y2, m2)
    ensures s1 == s2 && y1 == y2 && m1 == m2
  {
    KeyRoundTrip(s1, y1, m1);
    KeyRoundTrip(s2, y2, m2);
  }

  // ------------------------------------------------------------------ creating invoices

  datatype Numbered = Numbered(number: string, key: Option<string>, amount: int)

  datatype BillingEvent = InvoiceCreated(number: string) | PaymentRequired(key: string)

  datatype Register = Register(counter: nat, invoices: seq<Numbered>, events: seq<BillingEvent>)

  /** A request to bill, with what can go wrong: a stale first read, or a failure before the commit. */
  datatype Request = Request(
    year: nat, month: nat, key: Option<string>, amount: int, stale: bool, breaks: bool)

  /** The invoice of a billing-period key. */
  function Find(invoices: seq<Numbered>, key: string): (i: nat)
    ensures i <= |invoices|
    ensures i < |invoices| ==> invoices[i].key == Some(key)
    ensures i == |invoices| ==> forall j :: 0 <= j < |invoices| ==> invoices[j].key != Some(key)
  {
    if invoices == [] then 0
    else
      var n := |invoices| - 1;
      var i := Find(invoices[..n], key);
      if i < n then i else if invoices[n].key == Some(key) then n else |invoices|
  }

  predicate Billed(r: Register, key: string) { Find(r.invoices, key) < |r.invoices| }

  function Insert(r: Register, q: Request): Register
  {
    Added(r, Numbered(InvoiceNumber(q.year, q.month, r.counter + 1), q.key, q.amount))
  }

  /** A key already billed, free plans and broken transactions leave the register as it was. */
  function Bill(r: Register, q: Request): Register
  {
    if q.breaks then r
    else if q.key.Some? && (q.amount <= 0 || Billed(r, q.key.value)) then r
    else Insert(r, q)
  }

  function BillAll(r: Register, qs: seq<Request>): Register
  {
    if qs == [] then r else Bill(BillAll(r, qs[..|qs| - 1]), qs[|qs| - 1])
  }

  /** The j-th invoice since the start carries the j-th counter value since the start. */
  predicate GapFree(r: Register, start: nat)
  {
    && r.counter == start + |r.invoices|
    && forall j :: 0 <= j < |r.invoices| ==> SequenceOf(r.invoices[j].number) == start + j + 1
  }

  predicate OnePerPeriod(r: Register)
  {
    forall i, j :: 0 <= i < j < |r.invoices| && r.invoices[i].key.Some? ==> r.invoices[i].key != r.invoices[j].key
  }

  function One(b: bool): nat { if b then 1 else 0 }

  /** Each billed period was announced by exactly one pair of events. */
  ghost predicate OnePair(r: Register)
  {
    && (forall key: string :: multiset(r.events)[PaymentRequired(key)] == One(Billed(r, key)))
    && (forall j :: 0 <= j < |r.invoices| ==>
          multiset(r.events)[InvoiceCreated(r.invoices[j].number)] == One(r.invoices[j].key.Some?))
    && (forall number: string :: (forall j :: 0 <= j < |r.invoices| ==> r.invoices[j].number != number) ==>
          multiset(r.events)[InvoiceCreated(number)] == 0)
  }

  ghost predicate WellNumbered(r: Register, start: nat) { GapFree(r, start) && OnePerPeriod(r) && OnePair(r) }

  /** The register with one more invoice and its events. */
  function Added(r: Register, v: Numbered): Register
  {
    Register(r.counter + 1, r.invoices + [v],
             if v.key.Some? then r.events + [InvoiceCreated(v.number), PaymentRequired(v.key.value)] else r.events)
  }

  /** What an insertion adds to the events. */
  lemma AddedEvents(r: Register, v: Numbered)
    ensures forall key: string :: multiset(Added(r, v).events)[PaymentRequired(key)] ==
              multiset(r.events)[PaymentRequired(key)] + One(v.key == Some(key))
    ensures forall number: string :: multiset(Added(r, v).events)[InvoiceCreated(number)] ==
              multiset(r.events)[InvoiceCreated(number)] + One(v.key.Some? && number == v.number)
  {
    if v.key.Some? {
      assert multiset(Added(r, v).events) == multiset(r.events) + multiset{InvoiceCreated(v.number), PaymentRequired(v.key.value)};
    }
  }

  lemma AddedBilled(r: Register, v: Numbered, key: string)
    ensures Billed(Added(r, v), key) <==> Billed(r, key) || v.key == Some(key)
  {
    assert Added(r, v).invoices[..|r.invoices|] == r.invoices;
  }

  lemma AddedOnePair(r: Register, v: Numbered)
    requires OnePair(r) && (v.key.Some? ==> !Billed(r, v.key.value))
    requires forall j :: 0 <= j < |r.invoices| ==> r.invoices[j].number != v.number
    ensures OnePair(Added(r, v))
  {
    var n := Added(r, v);
    AddedEvents(r, v);
    forall key: string ensures multiset(n.events)[PaymentRequired(key)] == One(Billed(n, key)) {
      AddedBilled(r, v, key);
      assert multiset(r.events)[PaymentRequired(key)] == One(Billed(r, key));
    }
    forall j | 0 <= j < |n.invoices| ensures multiset(n.events)[InvoiceCreated(n.invoices[j].number)] == One(n.invoices[j].key.Some?) {
      if j < |r.invoices| { assert n.invoices[j] == r.invoices[j]; }
    }
    forall number: string | forall j :: 0 <= j < |n.invoices| ==> n.invoices[j].number != number
      ensures multiset(n.events)[InvoiceCreated(number)] == 0
    {
      assert n.invoices[|r.invoices|].number != number;
      forall j | 0 <= j < |r.invoices| ensures r.invoices[j].number != number { assert n.invoices[j] == r.invoices[j]; }
    }
  }

  function SequenceOf(number: string): int { ValueOf(AfterLast(number, '-')) }

  lemma AddedGapFree(r: Register, v: Numbered, start: nat)
    requires GapFree(r, start) && OnePerPeriod(r) && (v.key.Some? ==> !Billed(r, v.key.value)) && SequenceOf(v.number) == r.counter + 1
    ensures GapFree(Added(r, v), start) && OnePerPeriod(Added(r, v))
    ensures forall j :: 0 <= j < |r.invoices| ==> r.invoices[j].number != v.number
  {
    var n := Added(r, v);
    forall j | 0 <= j < |n.invoices| ensures SequenceOf(n.invoices[j].number) == start + j + 1 {
      if j < |r.invoices| { assert n.invoices[j] == r.invoices[j]; }
    }
    forall i, j | 0 <= i < j < |n.invoices| && n.invoices[i].key.Some? ensures n.invoices[i].key != n.invoices[j].key {
      assert n.invoices[i] == r.invoices[i];
    }
  }

  lemma InsertNumbered(r: Register, q: Request, start: nat)
    requires WellNumbered(r, start) && (q.key.Some? ==> !Billed(r, q.key.value))
    ensures WellNumbered(Insert(r, q), start)
  {
    var v := Numbered(InvoiceNumber(q.year, q.month, r.counter + 1), q.key, q.amount);
    NumberRoundTrip(q.year, q.month, r.counter + 1);
    AddedGapFree(r, v, start);
    AddedOnePair(r, v);
  }

  /**
    Over any run of requests, failures and duplicates: the numbers used are exactly the consecutive
    counter values since the start, in order; each billing period has at most one invoice, and exactly
    one pair of events if it has one.
  */
  lemma {:induction false} NumberingIsGapFree(start: nat, qs: seq<Request>)
    ensures WellNumbered(BillAll(Register(start, [], []), qs), start)
  {
    if qs != [] {
      NumberingIsGapFree(start, qs[..|qs| - 1]);
      var r, q := BillAll(Register(start, [], []), qs[..|qs| - 1]), qs[|qs| - 1];
      if Bill(r, q) != r { InsertNumbered(r, q, start); }
    }
  }

  /** All printed numbers differ. */
  lemma PrintedNumbersDiffer(start: nat, qs: seq<Request>, i: nat, j: nat)
    requires i < j < |BillAll(Register(start, [], []), qs).invoices|
    ensures BillAll(Register(start, [], []), qs).invoices[i].number != BillAll(Register(start, [], []), qs).invoices[j].number
  {
    NumberingIsGapFree(start, qs);
  }

  /** A period that was billed stays billed, and billing it again returns without a second invoice. */
  lemma BilledOnce(r: Register, q: Request, qs: seq<Request>, again: Request)
    requires q.key.Some? && !q.breaks && q.amount > 0 && again.key == q.key
    ensures var z := BillAll(Bill(r, q), qs); Billed(z, q.key.value) && Bill(z, again) == z
  {
    var n := Bill(r, q);
    if n != r { assert n.invoices[|r.invoices|].key == q.key; }
    StaysBilled(n, qs, q.key.value);
  }

  lemma {:induction false} StaysBilled(r: Register, qs: seq<Request>, key: string)
    requires Billed(r, key)
    ensures Billed(BillAll(r, qs), key)
  {
    if qs != [] {
      StaysBilled(r, qs[..|qs| - 1], key);
      var n, z := BillAll(r, qs[..|qs| - 1]), BillAll(r, qs);
      assert z.invoices[Find(n.invoices, key)].key == Some(key);
    }
  }

  // ------------------------------------------------------------------ the tables as mutable state

  class InvoiceTable {
    var counter: nat
    var invoices: seq<Numbered>
    var events: seq<BillingEvent>

    function State(): Register
      reads this
    {
      Register(counter, invoices, events)
    }

    /** Advances the counter and creates the invoice; false is the unique key violation. */
    method InsertInvoice(q: Request) returns (created: bool)
      modifies this`counter, this`invoices
      ensures counter == old(counter) + 1
      ensures created == !(q.key.Some? && Billed(old(State()), q.key.value))
      ensures invoices == if created then Insert(old(State()), q).invoices else old(invoices)
    {
      counter := counter + 1;
      var number := InvoiceNumber(q.year, q.month, counter);
      if q.key.Some? && Find(invoices, q.key.value) < |invoices| { return false; }
      invoices := invoices + [Numbered(number, q.key, q.amount)];
      created := true;
    }

    /**
      createInvoiceForPeriod: looks the key up, inserts, publishes, commits.  A stale first read runs
      into the unique key and rolls everything back, the counter included.
    */
    method BillPeriod(q: Request) returns (found: nat, created: bool)
      requires q.key.Some?
      modifies this
      ensures State() == Bill(old(State()), q)
      ensures created == (State() != old(State()))
      ensures !q.breaks && q.amount > 0 ==> found < |invoices| && invoices[found].key == q.key
    {
      found, created := 0, false;
      if q.amount <= 0 { return; }
      var before := State();
      if !q.stale && Find(invoices, q.key.value) < |invoices| {
        found := Find(invoices, q.key.value);
        return;
      }
      created := InsertInvoice(q);
      if created {
        found := |invoices| - 1;
        events := events + [InvoiceCreated(invoices[found].number)];
        events := events + [PaymentRequired(q.key.value)];
      }
      if !created || q.breaks {
        counter, invoices, events := before.counter, before.invoices, before.events;
        created := false;
        found := Find(invoices, q.key.value);
      }
    }
  }
}
