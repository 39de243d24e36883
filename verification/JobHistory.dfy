/**
  The worker's execution history: queue events of many jobs are handled concurrently, chained per job,
  and recorded as one row per attempt.

  One job on its own is a `Memory`; the service keeps the memories of all jobs in shared maps under a
  composed key.  Handlers are interrupted at every write, so a schedule interleaves half-handled events.
*/
module JobHistory {
  import opened Fifo
  import opened InvoiceNumbering

  datatype Status = ACTIVE | RETRYING | COMPLETED | FAILED

  datatype Snapshot = Snapshot(attempt: nat, maxAttempts: int, startedAt: nat)

  datatype Execution = Execution(status: Status, startedAt: nat, finishedAt: Option<nat>, error: Option<string>)

  datatype JobInfo = JobInfo(maxAttempts: int, startedAt: nat, failedReason: Option<string>)

  datatype Event = Active(job: Option<JobInfo>) | Completed(now: nat) | Failed(reason: string, now: nat)

  /** What is known about one job; counter 0 stands for no counter. */
  datatype Memory = Memory(snapshot: Option<Snapshot>, counter: nat, rows: map<nat, Execution>)

  function Merged(was: Execution, x: Execution): Execution
  {
    Execution(x.status, x.startedAt,
              if x.finishedAt.Some? then x.finishedAt else was.finishedAt,
              if x.error.Some? then x.error else was.error)
  }

  /** persistExecution: an upsert that leaves fields it is not given as they are. */
  function Persist(rows: map<nat, Execution>, attempt: nat, x: Execution): map<nat, Execution>
  {
    rows[attempt := if attempt in rows then Merged(rows[attempt], x) else x]
  }

  function Reason(job: JobInfo): string
  {
    if job.failedReason.Some? then job.failedReason.value else "Unknown retryable failure"
  }

  // ------------------------------------------------------------------ half-handled events

  datatype Progress = Idle | Activating(attempt: nat, job: JobInfo) | Finishing(drop: bool)

  datatype Chain = Chain(memory: Memory, pending: seq<Event>, progress: Progress)

  /** A handler up to its first completed write. */
  function Begin(m: Memory, e: Event): (r: (Memory, Progress))
  {
    match e
    case Active(None) => (m, Idle)
    case Active(Some(job)) =>
      var attempt := m.counter + 1;
      var rows :=
        if m.snapshot.Some? && m.snapshot.value.attempt < attempt then
          Persist(m.rows, m.snapshot.value.attempt,
                  Execution(RETRYING, m.snapshot.value.startedAt, Some(job.startedAt), Some(Reason(job))))
        else m.rows;
      (m.(counter := attempt, rows := rows), Activating(attempt, job))
    case Completed(now) =>
      if m.snapshot.None? then (m, Idle)
      else
        var s := m.snapshot.value;
        (m.(rows := Persist(m.rows, s.attempt, Execution(COMPLETED, s.startedAt, Some(now), None))), Finishing(true))
    case Failed(reason, now) =>
      if m.snapshot.None? then (m, Idle)
      else
        var s := m.snapshot.value;
        var status := if s.attempt < s.maxAttempts then RETRYING else FAILED;
        (m.(rows := Persist(m.rows, s.attempt, Execution(status, s.startedAt, Some(now), Some(reason)))),
         Finishing(status == FAILED))
  }

  /** The rest of a handler. */
  function End(m: Memory, p: Progress): Memory
  {
    match p
    case Idle => m
    case Activating(attempt, job) =>
      Memory(Some(Snapshot(attempt, job.maxAttempts, job.startedAt)), m.counter,
             Persist(m.rows, attempt, Execution(ACTIVE, job.startedAt, None, None)))
    case Finishing(drop) => if drop then Memory(None, 0, m.rows) else m
  }

  /** A whole handler. */
  function Handle(m: Memory, e: Event): Memory { End(Begin(m, e).0, Begin(m, e).1) }

  function HandleAll(m: Memory, events: seq<Event>): Memory
  {
    if events == [] then m else Handle(HandleAll(m, events[..|events| - 1]), events[|events| - 1])
  }

  function NewMemory(): Memory { Memory(None, 0, map[]) }

  // ------------------------------------------------------------------ the shape of a history

  /**
    Attempts are numbered 1 to n without a gap; the current attempt is the only one that may be active,
    those below it are being retried, and between lives nothing is left behind but rows.
  */
  predicate Shape(m: Memory)
  {
    && (forall a: nat :: a in m.rows ==> 1 <= a <= |m.rows|)
    && m.counter <= |m.rows|
    && (m.counter > 0 <==> m.snapshot.Some?) && (m.snapshot.Some? ==> m.snapshot.value.attempt == m.counter)
    && (forall a :: a in m.rows && a < m.counter ==> m.rows[a].status == RETRYING)
    && (m.counter > 0 ==> m.counter in m.rows && m.rows[m.counter].status in {ACTIVE, RETRYING})
    && (forall a :: a in m.rows && a > m.counter ==> m.rows[a].status != ACTIVE)
  }

  lemma {:induction false} UpTo(n: nat) returns (s: set<nat>)
    ensures |s| == n && forall a: nat :: a in s <==> 1 <= a <= n
  {
    if n == 0 {
      s := {};
    } else {
      var t := UpTo(n - 1);
      s := t + {n};
    }
  }

  lemma {:induction false} SubsetSize(s: set<nat>, t: set<nat>)
    requires s <= t
    ensures |s| <= |t| && (|s| == |t| ==> s == t)
  {
    if s == {} {
      assert |t| == 0 ==> t == {};
    } else {
      var x :| x in s;
      SubsetSize(s - {x}, t - {x});
    }
  }

  /** Bounded by its own size, the set of attempts has no gap. */
  lemma NoGap(rows: map<nat, Execution>)
    requires forall a: nat :: a in rows ==> 1 <= a <= |rows|
    ensures forall a: nat :: a in rows <==> 1 <= a <= |rows|
  {
    var all := UpTo(|rows|);
    assert |rows.Keys| == |rows|;
    SubsetSize(rows.Keys, all);
    forall a: nat ensures a in rows <==> 1 <= a <= |rows| { assert a in rows <==> a in all; }
  }

  lemma PersistSize(rows: map<nat, Execution>, a: nat, x: Execution)
    ensures var n := Persist(rows, a, x);
            && n.Keys == rows.Keys + {a} && |n| == |rows| + (if a in rows then 0 else 1)
  {
    var n := Persist(rows, a, x);
    assert n.Keys == rows.Keys + {a};
    assert |n.Keys| == |n| && |rows.Keys| == |rows|;
  }

  /** Before the new attempt is written, the current one is marked as being retried. */
  lemma RetryMarked(m: Memory, job: JobInfo)
    requires Shape(m)
    ensures var rows := Begin(m, Active(Some(job))).0.rows;
            && rows.Keys == m.rows.Keys && |rows| == |m.rows|
            && (forall a :: a in rows && a <= m.counter ==> rows[a].status == RETRYING)
            && (forall a :: a in rows && a > m.counter ==> rows[a] == m.rows[a])
  {
    if m.snapshot.Some? {
      PersistSize(m.rows, m.counter, Execution(RETRYING, m.snapshot.value.startedAt, Some(job.startedAt), Some(Reason(job))));
    }
  }

  lemma ActiveShape(m: Memory, job: JobInfo)
    requires Shape(m)
    ensures Shape(Handle(m, Active(Some(job))))
    ensures |Handle(m, Active(Some(job))).rows| == if m.counter + 1 in m.rows then |m.rows| else |m.rows| + 1
  {
    var rows, attempt := Begin(m, Active(Some(job))).0.rows, m.counter + 1;
    var x := Execution(ACTIVE, job.startedAt, None, None);
    NoGap(m.rows);
    RetryMarked(m, job);
    PersistSize(rows, attempt, x);
    var z := Handle(m, Active(Some(job)));
    assert z == Memory(Some(Snapshot(attempt, job.maxAttempts, job.startedAt)), attempt, Persist(rows, attempt, x));
    assert attempt in m.rows || attempt == |m.rows| + 1;
  }

  lemma HandleShape(m: Memory, e: Event)
    requires Shape(m)
    ensures Shape(Handle(m, e))
  {
    match e
    case Active(Some(job)) => ActiveShape(m, job);
    case Active(None) =>
    case Completed(now) =>
      if m.snapshot.Some? { PersistSize(m.rows, m.counter, Execution(COMPLETED, m.snapshot.value.startedAt, Some(now), None)); }
    case Failed(reason, now) =>
      if m.snapshot.Some? {
        var s := m.snapshot.value;
        PersistSize(m.rows, m.counter, Execution(if s.attempt < s.maxAttempts then RETRYING else FAILED, s.startedAt, Some(now), Some(reason)));
      }
  }

  lemma {:induction false} HandleAllShape(events: seq<Event>)
    ensures Shape(HandleAll(NewMemory(), events))
  {
    if events != [] {
      HandleAllShape(events[..|events| - 1]);
      HandleShape(HandleAll(NewMemory(), events[..|events| - 1]), events[|events| - 1]);
    }
  }

  function ActiveRows(m: Memory): set<nat> { set a | a in m.rows && m.rows[a].status == ACTIVE }

  /** For any stream of events: attempts are exactly 1 to n, and at most the current one is active. */
  lemma HistoryShape(events: seq<Event>)
    ensures var m := HandleAll(NewMemory(), events);
            && (forall a: nat :: a in m.rows <==> 1 <= a <= |m.rows|)
            && (forall a :: a in m.rows && a < m.counter ==> m.rows[a].status == RETRYING)
            && ActiveRows(m) <= {m.counter}
  {
    HandleAllShape(events);
    NoGap(HandleAll(NewMemory(), events).rows);
  }

  /** A completed job, or one that failed its last attempt, leaves no snapshot and no counter behind. */
  lemma TerminalLeavesNothing(events: seq<Event>, e: Event)
    ensures var m := HandleAll(NewMemory(), events);
            var z := Handle(m, e);
            e.Completed? || (e.Failed? && (m.snapshot.Some? ==> m.snapshot.value.attempt >= m.snapshot.value.maxAttempts)) ==>
              z.snapshot == None && z.counter == 0 && ActiveRows(z) == {}
  {
    HandleAllShape(events);
    HandleShape(HandleAll(NewMemory(), events), e);
  }

  // ------------------------------------------------------------------ one life

  /** An active event for a job that has rows but no counter: the job starts over. */
  predicate Restarts(m: Memory, e: Event) { e.Active? && e.job.Some? && m.counter == 0 && m.rows != map[] }

  predicate OneLife(events: seq<Event>)
  {
    events == [] ||
    (OneLife(events[..|events| - 1]) && !Restarts(HandleAll(NewMemory(), events[..|events| - 1]), events[|events| - 1]))
  }

  predicate Terminal(s: Status) { s == COMPLETED || s == FAILED }

  /** One life: every attempt below the last is being retried, and the last one is current or terminal. */
  predicate LifeShape(m: Memory)
  {
    && (m.counter == |m.rows| || m.counter == 0)
    && (forall a :: a in m.rows && a < |m.rows| ==> m.rows[a].status == RETRYING)
    && (m.counter == 0 && m.rows != map[] ==> |m.rows| in m.rows && Terminal(m.rows[|m.rows|].status))
  }

  lemma LifeNext(m: Memory, e: Event)
    requires Shape(m) && LifeShape(m) && !Restarts(m, e)
    ensures LifeShape(Handle(m, e))
  {
    NoGap(m.rows);
    match e
    case Active(Some(job)) =>
      ActiveShape(m, job);
      if m.rows == map[] { assert |m.rows| == 0; }
    case Active(None) =>
    case Completed(now) =>
      if m.snapshot.Some? { PersistSize(m.rows, m.counter, Execution(COMPLETED, m.snapshot.value.startedAt, Some(now), None)); }
    case Failed(reason, now) =>
      if m.snapshot.Some? {
        var s := m.snapshot.value;
        PersistSize(m.rows, m.counter, Execution(if s.attempt < s.maxAttempts then RETRYING else FAILED, s.startedAt, Some(now), Some(reason)));
      }
  }

  lemma {:induction false} OneLifeShape(events: seq<Event>)
    requires OneLife(events)
    ensures LifeShape(HandleAll(NewMemory(), events))
  {
    if events != [] {
      var n := |events| - 1;
      OneLifeShape(events[..n]);
      HandleAllShape(events[..n]);
      LifeNext(HandleAll(NewMemory(), events[..n]), events[n]);
    }
  }

  /** Some terminal row is not what it was. */
  predicate LosesTerminal(m: Memory, z: Memory)
  {
    exists a :: a in m.rows && Terminal(m.rows[a].status) && (a !in z.rows || z.rows[a] != m.rows[a])
  }

  /**
    A recorded outcome is overwritten exactly when an active event comes for a job whose next attempt
    number is already taken by it: the numbering started over after an earlier life.
  */
  lemma OutcomeLostIff(events: seq<Event>, e: Event)
    ensures var m := HandleAll(NewMemory(), events);
            LosesTerminal(m, Handle(m, e)) <==>
            e.Active? && e.job.Some? && m.counter + 1 in m.rows && Terminal(m.rows[m.counter + 1].status)
  {
    HandleAllShape(events);
    LostIff(HandleAll(NewMemory(), events), e);
  }

  lemma LostIff(m: Memory, e: Event)
    requires Shape(m)
    ensures LosesTerminal(m, Handle(m, e)) <==>
            e.Active? && e.job.Some? && m.counter + 1 in m.rows && Terminal(m.rows[m.counter + 1].status)
  {
    var z := Handle(m, e);
    if e.Active? && e.job.Some? {
      RetryMarked(m, e.job.value);
      if m.counter + 1 in m.rows && Terminal(m.rows[m.counter + 1].status) {
        assert z.rows[m.counter + 1] != m.rows[m.counter + 1];
      }
    } else {
      KeepsOthers(m, e);
    }
  }

  /** Only the current attempt, which is not terminal, is written by the other events. */
  lemma KeepsOthers(m: Memory, e: Event)
    requires Shape(m) && !(e.Active? && e.job.Some?)
    ensures forall a :: a in m.rows && a != m.counter ==> a in Handle(m, e).rows && Handle(m, e).rows[a] == m.rows[a]
  {
  }

  /** A terminal row has its finishing time. */
  predicate Ended(m: Memory) { forall a :: a in m.rows && Terminal(m.rows[a].status) ==> m.rows[a].finishedAt.Some? }

  lemma {:induction false} AllEnded(events: seq<Event>)
    ensures Ended(HandleAll(NewMemory(), events))
  {
    if events != [] {
      AllEnded(events[..|events| - 1]);
      EndedNext(HandleAll(NewMemory(), events[..|events| - 1]), events[|events| - 1]);
    }
  }

  lemma EndedNext(m: Memory, e: Event)
    requires Ended(m)
    ensures Ended(Handle(m, e))
  {
  }

  /**
    The row of a lost outcome is the new current attempt: it is active again, started anew, and keeps the
    finishing time and the error of the outcome it replaces.
  */
  lemma LostOutcomeKeepsItsEnd(events: seq<Event>, e: Event, a: nat)
    requires var m := HandleAll(NewMemory(), events);
             a in m.rows && Terminal(m.rows[a].status) && (a in Handle(m, e).rows ==> Handle(m, e).rows[a] != m.rows[a])
    ensures var m := HandleAll(NewMemory(), events);
            var z := Handle(m, e);
            && e.Active? && e.job.Some? && a == m.counter + 1 == z.counter && a in z.rows
            && z.rows[a] == Execution(ACTIVE, e.job.value.startedAt, m.rows[a].finishedAt, m.rows[a].error)
            && z.rows[a].finishedAt.Some?
  {
    HandleAllShape(events);
    AllEnded(events);
    var m := HandleAll(NewMemory(), events);
    if e.Active? && e.job.Some? { RetryMarked(m, e.job.value); } else { KeepsOthers(m, e); }
  }

  /** It happens to every job that completes and is run again: one row is left, active and finished. */
  lemma SecondRunLosesOutcome(first: JobInfo, now: nat, second: JobInfo)
    ensures var m := HandleAll(NewMemory(), [Active(Some(first)), Completed(now)]);
            var z := HandleAll(NewMemory(), [Active(Some(first)), Completed(now), Active(Some(second))]);
            && m.rows == map[1 := Execution(COMPLETED, first.startedAt, Some(now), None)]
            && z.rows == map[1 := Execution(ACTIVE, second.startedAt, Some(now), None)]
            && LosesTerminal(m, z)
  {
    var events := [Active(Some(first)), Completed(now), Active(Some(second))];
    assert events[..2] == [Active(Some(first)), Completed(now)] && events[..2][..1] == [Active(Some(first))] && events[..2][..1][..0] == [];
    var one := Memory(Some(Snapshot(1, first.maxAttempts, first.startedAt)), 1, map[1 := Execution(ACTIVE, first.startedAt, None, None)]);
    assert HandleAll(NewMemory(), events[..2][..1]) == one;
    assert HandleAll(NewMemory(), events[..2]) == Memory(None, 0, map[1 := Execution(COMPLETED, first.startedAt, Some(now), None)]);
  }

  // ------------------------------------------------------------------ chaining

  datatype ChainAction = Dispatch(event: Event) | Step

  /** The service's chain of one job: events wait in order, and one at a time is worked on. */
  function Act(c: Chain, a: ChainAction): Chain
  {
    match a
    case Dispatch(e) => c.(pending := c.pending + [e])
    case Step =>
      if c.pending == [] then c
      else if c.progress != Idle then Chain(End(c.memory, c.progress), c.pending[1..], Idle)
      else
        var r := Begin(c.memory, c.pending[0]);
        if r.1 == Idle then Chain(r.0, c.pending[1..], Idle) else Chain(r.0, c.pending, r.1)
  }

  function ActAll(c: Chain, actions: seq<ChainAction>): Chain
  {
    if actions == [] then c else Act(ActAll(c, actions[..|actions| - 1]), actions[|actions| - 1])
  }

  function Dispatched(actions: seq<ChainAction>): seq<Event>
  {
    if actions == [] then []
    else
      Dispatched(actions[..|actions| - 1]) +
      (if actions[|actions| - 1].Dispatch? then [actions[|actions| - 1].event] else [])
  }

  /** What the memory will be once everything dispatched so far has been handled. */
  function Target(c: Chain): Memory
  {
    if c.progress == Idle || c.pending == [] then HandleAll(c.memory, c.pending)
    else HandleAll(End(c.memory, c.progress), c.pending[1..])
  }

  lemma {:induction false} HandleFirst(m: Memory, events: seq<Event>)
    requires events != []
    ensures HandleAll(m, events) == HandleAll(Handle(m, events[0]), events[1..])
  {
    var n := |events| - 1;
    if n == 0 {
      assert events[..0] == [] && events[1..] == [];
    } else {
      HandleFirst(m, events[..n]);
      assert events[..n][1..] == events[1..][..n - 1];
    }
  }

  predicate ChainOk(c: Chain) { c.progress != Idle ==> c.pending != [] }

  lemma ActTarget(c: Chain, a: ChainAction)
    requires ChainOk(c)
    ensures ChainOk(Act(c, a))
    ensures Target(Act(c, a)) == if a.Dispatch? then Handle(Target(c), a.event) else Target(c)
  {
    match a
    case Dispatch(e) =>
      var more := c.pending + [e];
      if c.progress == Idle {
        assert more[..|more| - 1] == c.pending;
      } else {
        assert more[1..] == c.pending[1..] + [e];
        assert more[1..][..|more[1..]| - 1] == c.pending[1..];
      }
    case Step =>
      if c.pending != [] && c.progress == Idle { HandleFirst(c.memory, c.pending); }
  }

  /**
    However a job's handlers are cut at their writes and delayed, once its chain is empty its history is
    that of its events handled one after the other, in the order they were dispatched.
  */
  lemma {:induction false} ChainIsSequential(actions: seq<ChainAction>)
    ensures var c := ActAll(Chain(NewMemory(), [], Idle), actions);
            && ChainOk(c) && Target(c) == HandleAll(NewMemory(), Dispatched(actions))
            && (c.pending == [] ==> c.memory == HandleAll(NewMemory(), Dispatched(actions)))
  {
    if actions != [] {
      var n := |actions| - 1;
      ChainIsSequential(actions[..n]);
      ActTarget(ActAll(Chain(NewMemory(), [], Idle), actions[..n]), actions[n]);
      var d := Dispatched(actions);
      if actions[n].Dispatch? {
        assert d[..|d| - 1] == Dispatched(actions[..n]);
      } else {
        assert d == Dispatched(actions[..n]);
      }
    }
  }
}
