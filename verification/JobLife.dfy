/**
  The rows of a job's history, attempt by attempt: what each event writes after any earlier events, and
  what a whole life of failures and retries leaves behind.
*/
module JobLife {
  import opened Fifo
  import opened JobHistory
  import opened JobHistoryService

  // ------------------------------------------------------------------ one event after any others

  /** Only row a was written, and it is this one now. */
  predicate Writes(m: Memory, z: Memory, a: nat, x: Execution)
  {
    z.rows == m.rows[a := x]
  }

  /**
    A failure ends a life exactly when the attempt is the last one allowed: the row is failed, and snapshot
    and counter are gone.  Otherwise the row is being retried and snapshot and counter stay.  Without a
    current attempt a failure does nothing.
  */
  lemma FailureEndsLifeIff(events: seq<Event>, reason: string, now: nat)
    ensures var m := HandleAll(NewMemory(), events);
            var z := Handle(m, Failed(reason, now));
            if m.snapshot.None? then z == m
            else
              var s := m.snapshot.value;
              && (z.snapshot == None && z.counter == 0 <==> s.attempt >= s.maxAttempts)
              && (s.attempt < s.maxAttempts ==> z.snapshot == m.snapshot && z.counter == m.counter)
              && Writes(m, z, m.counter,
                        Execution(if s.attempt >= s.maxAttempts then FAILED else RETRYING, s.startedAt, Some(now), Some(reason)))
  {
    HandleAllShape(events);
  }

  /** A completion ends the life of the current attempt, with its finishing time; without one it does nothing. */
  lemma CompletionEndsLife(events: seq<Event>, now: nat)
    ensures var m := HandleAll(NewMemory(), events);
            var z := Handle(m, Completed(now));
            if m.snapshot.None? then z == m
            else
              && z.snapshot == None && z.counter == 0 && m.counter in m.rows
              && Writes(m, z, m.counter, Execution(COMPLETED, m.snapshot.value.startedAt, Some(now), m.rows[m.counter].error))
  {
    HandleAllShape(events);
  }

  /** How an attempt is marked when the next one starts: it ended when that one started, for the reason that one knows. */
  function Retried(startedAt: nat, next: JobInfo): Execution
  {
    Execution(RETRYING, startedAt, Some(next.startedAt),
              Some(if next.failedReason.Some? then next.failedReason.value else "Unknown retryable failure"))
  }

  /** The next attempt, started by its event. */
  predicate StartsNext(m: Memory, z: Memory, job: JobInfo)
  {
    var a := m.counter + 1;
    && z.counter == a && z.snapshot == Some(Snapshot(a, job.maxAttempts, job.startedAt))
    && a in z.rows && z.rows[a].status == ACTIVE && z.rows[a].startedAt == job.startedAt
    && (a !in m.rows ==> z.rows[a] == Execution(ACTIVE, job.startedAt, None, None))
  }

  /** The rows of the attempts before it. */
  predicate MarksPrevious(m: Memory, z: Memory, job: JobInfo)
  {
    && (m.snapshot.Some? ==> m.counter in z.rows && z.rows[m.counter] == Retried(m.snapshot.value.startedAt, job))
    && KeepsOtherRows(m, z)
  }

  predicate KeepsOtherRows(m: Memory, z: Memory)
  {
    && (forall b :: b in m.rows && b != m.counter + 1 && (m.snapshot.Some? ==> b != m.counter) ==> b in z.rows && z.rows[b] == m.rows[b])
    && z.rows.Keys == m.rows.Keys + {m.counter + 1}
  }

  lemma NextStarts(m: Memory, job: JobInfo)
    requires Shape(m)
    ensures StartsNext(m, Handle(m, Active(Some(job))), job)
  {
    RetryMarked(m, job);
  }

  lemma PreviousIsMarked(m: Memory, job: JobInfo)
    requires Shape(m)
    ensures MarksPrevious(m, Handle(m, Active(Some(job))), job)
  {
    OtherRowsStay(m, job);
  }

  lemma OtherRowsStay(m: Memory, job: JobInfo)
    requires Shape(m)
    ensures KeepsOtherRows(m, Handle(m, Active(Some(job))))
  {
    var z, a := Handle(m, Active(Some(job))), m.counter + 1;
    var x := Execution(ACTIVE, job.startedAt, None, None);
    if m.snapshot.Some? {
      var rows := Persist(m.rows, m.counter, Execution(RETRYING, m.snapshot.value.startedAt, Some(job.startedAt), Some(Reason(job))));
      assert z.rows == Persist(rows, a, x);
      assert rows.Keys == m.rows.Keys;
    } else {
      assert z.rows == Persist(m.rows, a, x);
    }
  }

  /** An attempt starts under the next number, and the one before it is marked as being retried. */
  lemma ActiveBegins(events: seq<Event>, job: JobInfo)
    ensures var m := HandleAll(NewMemory(), events);
            var z := Handle(m, Active(Some(job)));
            StartsNext(m, z, job) && MarksPrevious(m, z, job)
  {
    HandleAllShape(events);
    NextStarts(HandleAll(NewMemory(), events), job);
    PreviousIsMarked(HandleAll(NewMemory(), events), job);
  }

  // ------------------------------------------------------------------ a whole life

  /** An attempt that failed and was to be retried. */
  datatype Try = Try(job: JobInfo, reason: string, now: nat)

  function TryEvents(tries: seq<Try>): seq<Event>
  {
    if tries == [] then []
    else
      var t := tries[|tries| - 1];
      TryEvents(tries[..|tries| - 1]) + [Active(Some(t.job))] + [Failed(t.reason, t.now)]
  }

  /** Every failure was below its maximum. */
  predicate Retryable(tries: seq<Try>) { forall i :: 0 <= i < |tries| ==> i + 1 < tries[i].job.maxAttempts }

  /** Rows 1 to k of k tries once attempt k + 1 has started: each ended when its successor started. */
  function RetriedRows(tries: seq<Try>, next: JobInfo): (rows: map<nat, Execution>)
    ensures forall a: nat :: a in rows <==> 1 <= a <= |tries|
  {
    if tries == [] then map[]
    else
      var n := |tries| - 1;
      RetriedRows(tries[..n], tries[n].job)[n + 1 := Retried(tries[n].job.startedAt, next)]
  }

  /** Between two attempts: the last try carries its own time and reason. */
  function Waiting(tries: seq<Try>): Memory
  {
    if tries == [] then NewMemory()
    else
      var n := |tries| - 1;
      var t := tries[n];
      Memory(Some(Snapshot(n + 1, t.job.maxAttempts, t.job.startedAt)), n + 1,
             RetriedRows(tries[..n], t.job)[n + 1 := Execution(RETRYING, t.job.startedAt, Some(t.now), Some(t.reason))])
  }

  function Running(tries: seq<Try>, job: JobInfo): Memory
  {
    var a := |tries| + 1;
    Memory(Some(Snapshot(a, job.maxAttempts, job.startedAt)), a,
           RetriedRows(tries, job)[a := Execution(ACTIVE, job.startedAt, None, None)])
  }

  lemma WrittenTwice(rows: map<nat, Execution>, a: nat, x: Execution, y: Execution)
    ensures var once: map<nat, Execution> := rows[a := x]; once[a := y] == rows[a := y]
  {
  }

  lemma Starts(tries: seq<Try>, job: JobInfo)
    ensures Handle(Waiting(tries), Active(Some(job))) == Running(tries, job)
  {
    if tries != [] {
      var n := |tries| - 1;
      var rows := RetriedRows(tries[..n], tries[n].job);
      var x := Execution(RETRYING, tries[n].job.startedAt, Some(tries[n].now), Some(tries[n].reason));
      WrittenTwice(rows, n + 1, x, Retried(tries[n].job.startedAt, job));
    }
  }

  lemma Fails(tries: seq<Try>, job: JobInfo, reason: string, now: nat)
    requires |tries| + 1 < job.maxAttempts
    ensures Handle(Running(tries, job), Failed(reason, now)) == Waiting(tries + [Try(job, reason, now)])
  {
    var a, more := |tries| + 1, tries + [Try(job, reason, now)];
    assert more[..|more| - 1] == tries;
    WrittenTwice(RetriedRows(tries, job), a, Execution(ACTIVE, job.startedAt, None, None),
                 Execution(RETRYING, job.startedAt, Some(now), Some(reason)));
  }

  /** What a job looks like while it waits for its next attempt. */
  lemma {:induction false} TriesLeave(tries: seq<Try>)
    requires Retryable(tries)
    ensures HandleAll(NewMemory(), TryEvents(tries)) == Waiting(tries)
  {
    if tries != [] {
      var n := |tries| - 1;
      TriesLeave(tries[..n]);
      OneMoreTry(TryEvents(tries[..n]), tries[..n], tries[n]);
      assert tries == tries[..n] + [tries[n]];
    }
  }

  lemma OneMoreTry(events: seq<Event>, tries: seq<Try>, t: Try)
    requires HandleAll(NewMemory(), events) == Waiting(tries) && |tries| + 1 < t.job.maxAttempts
    ensures HandleAll(NewMemory(), events + [Active(Some(t.job))] + [Failed(t.reason, t.now)]) == Waiting(tries + [t])
  {
    Starts(tries, t.job);
    Fails(tries, t.job, t.reason, t.now);
    HandleSnoc(NewMemory(), events, Active(Some(t.job)));
    HandleSnoc(NewMemory(), events + [Active(Some(t.job))], Failed(t.reason, t.now));
  }

  lemma HandleSnoc(m: Memory, events: seq<Event>, e: Event)
    ensures HandleAll(m, events + [e]) == Handle(HandleAll(m, events), e)
  {
    assert (events + [e])[..|events|] == events;
  }

  /** The last attempt of a life ends it: it completes, or fails with no attempt left. */
  predicate Ends(attempt: nat, job: JobInfo, e: Event) { e.Completed? || (e.Failed? && attempt >= job.maxAttempts) }

  function EndRow(job: JobInfo, e: Event): Execution
    requires !e.Active?
  {
    match e
    case Completed(now) => Execution(COMPLETED, job.startedAt, Some(now), None)
    case Failed(reason, now) => Execution(FAILED, job.startedAt, Some(now), Some(reason))
  }

  function Life(tries: seq<Try>, job: JobInfo, e: Event): seq<Event> { TryEvents(tries) + [Active(Some(job))] + [e] }

  /**
    A whole life: k failures below their maximum, and an attempt that completes or fails for good.  It leaves
    rows 1 to k being retried, each ended when its successor started, row k + 1 completed or failed with
    the given time and reason, and no snapshot and no counter.
  */
  lemma LifeLeaves(tries: seq<Try>, job: JobInfo, e: Event)
    requires Retryable(tries) && Ends(|tries| + 1, job, e)
    ensures HandleAll(NewMemory(), Life(tries, job, e)) ==
            Memory(None, 0, RetriedRows(tries, job)[|tries| + 1 := EndRow(job, e)])
  {
    var events, a := TryEvents(tries), |tries| + 1;
    TriesLeave(tries);
    Starts(tries, job);
    HandleSnoc(NewMemory(), events, Active(Some(job)));
    HandleSnoc(NewMemory(), events + [Active(Some(job))], e);
    WrittenTwice(RetriedRows(tries, job), a, Execution(ACTIVE, job.startedAt, None, None), EndRow(job, e));
  }

  /** Row by row: attempt a of k was started by its own event and ended by the start of attempt a + 1. */
  lemma {:induction false} RetriedRow(tries: seq<Try>, next: JobInfo, a: nat)
    requires 1 <= a <= |tries|
    ensures RetriedRows(tries, next)[a] == Retried(tries[a - 1].job.startedAt, if a < |tries| then tries[a].job else next)
  {
    var n := |tries| - 1;
    if a <= n { RetriedRow(tries[..n], tries[n].job, a); }
  }

  /** The same in the service, whatever the other jobs do and however its turns are cut. */
  lemma LifeInTheService(turns: seq<Turn>, own: Job, tries: seq<Try>, job: JobInfo, e: Event)
    requires AllKnown(turns) && Known(own) && Retryable(tries) && Ends(|tries| + 1, job, e)
    requires Dispatched(Own(turns, own)) == Life(tries, job, e) && ChainOf(RunTurns(NoTables(), turns), own).pending == []
    ensures MemoryOf(RunTurns(NoTables(), turns), own) == Memory(None, 0, RetriedRows(tries, job)[|tries| + 1 := EndRow(job, e)])
  {
    HistoriesAreIndependent(turns, own);
    LifeLeaves(tries, job, e);
  }
}
