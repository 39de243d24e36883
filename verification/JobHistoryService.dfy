/**
  The history service itself: maps shared by all jobs under the key `queue:id`, rows shared under queue,
  id and attempt, and one chain of events per job.  Each turn works on the maps in place; whatever the
  interleaving, a job's history is the one its own events would have given alone.
*/
module JobHistoryService {
  import opened Fifo
  import opened InvoiceNumbering
  import opened JobHistory

  const QUEUE_NAMES: set<string> :=
    {"ORDER_QUEUE", "INVENTORY_QUEUE", "ANALYTICS_QUEUE", "NOTIFICATION_QUEUE", "EMAIL_QUEUE", "PDF_QUEUE"}

  datatype Job = Job(queue: string, id: string)

  predicate Known(job: Job) { job.queue in QUEUE_NAMES }

  function SnapshotKey(job: Job): string { job.queue + ":" + job.id }

  function BeforeFirst(s: string, c: char): string
  {
    if s == "" || s[0] == c then "" else [s[0]] + BeforeFirst(s[1..], c)
  }

  lemma {:induction false} SplitFirst(front: string, c: char, back: string)
    requires Without(front, c)
    ensures BeforeFirst(front + [c] + back, c) == front
  {
    var all := front + [c] + back;
    if front != "" {
      assert all[1..] == front[1..] + [c] + back;
      SplitFirst(front[1..], c, back);
    }
  }

  lemma NoColon(queue: string)
    requires queue in QUEUE_NAMES
    ensures Without(queue, ':')
  {
  }

  lemma SameRest(front: string, x: string, y: string)
    requires front + x == front + y
    ensures x == y
  {
    assert x == (front + x)[|front|..] && y == (front + y)[|front|..];
  }

  /** Queue names hold no colon, so no two jobs share a key, whatever their ids. */
  lemma KeysDiffer(a: Job, b: Job)
    requires Known(a) && Known(b) && SnapshotKey(a) == SnapshotKey(b)
    ensures a == b
  {
    NoColon(a.queue);
    NoColon(b.queue);
    SplitFirst(a.queue, ':', a.id);
    SplitFirst(b.queue, ':', b.id);
    SameRest(a.queue + [':'], a.id, b.id);
  }

  datatype RowKey = RowKey(job: Job, attempt: nat)

  datatype Task = Task(pending: seq<Event>, progress: Progress)

  datatype Tables = Tables(
    snapshots: map<string, Snapshot>, attempts: map<string, nat>, tasks: map<string, Task>, rows: map<RowKey, Execution>)

  function RowsOf(rows: map<RowKey, Execution>, job: Job): map<nat, Execution>
  {
    map k | k in rows && k.job == job :: k.attempt := rows[k]
  }

  function MemoryOf(t: Tables, job: Job): Memory
  {
    var key := SnapshotKey(job);
    Memory(if key in t.snapshots then Some(t.snapshots[key]) else None,
           if key in t.attempts then t.attempts[key] else 0,
           RowsOf(t.rows, job))
  }

  /** What the shared tables say about one job. */
  function ChainOf(t: Tables, job: Job): Chain
  {
    var key := SnapshotKey(job);
    var task := if key in t.tasks then t.tasks[key] else Task([], Idle);
    Chain(MemoryOf(t, job), task.pending, task.progress)
  }

  // ------------------------------------------------------------------ one turn on the shared tables

  function PersistOn(t: Tables, job: Job, attempt: nat, x: Execution): Tables
  {
    var key := RowKey(job, attempt);
    t.(rows := t.rows[key := if key in t.rows then Merged(t.rows[key], x) else x])
  }

  /** A handler up to its first write. */
  function BeginOn(t: Tables, job: Job, e: Event): (Tables, Progress)
  {
    var key := SnapshotKey(job);
    match e
    case Active(None) => (t, Idle)
    case Active(Some(info)) =>
      var attempt := (if key in t.attempts then t.attempts[key] else 0) + 1;
      var u := t.(attempts := t.attempts[key := attempt]);
      if key in t.snapshots && t.snapshots[key].attempt < attempt then
        var x := Execution(RETRYING, t.snapshots[key].startedAt, Some(info.startedAt), Some(Reason(info)));
        (PersistOn(u, job, t.snapshots[key].attempt, x), Activating(attempt, info))
      else (u, Activating(attempt, info))
    case Completed(now) =>
      if key !in t.snapshots then (t, Idle)
      else
        var s := t.snapshots[key];
        (PersistOn(t, job, s.attempt, Execution(COMPLETED, s.startedAt, Some(now), None)), Finishing(true))
    case Failed(reason, now) =>
      if key !in t.snapshots then (t, Idle)
      else
        var s := t.snapshots[key];
        var status := if s.attempt < s.maxAttempts then RETRYING else FAILED;
        (PersistOn(t, job, s.attempt, Execution(status, s.startedAt, Some(now), Some(reason))), Finishing(status == FAILED))
  }

  /** The rest of it: the new snapshot is stored, or what is no longer needed is dropped. */
  function EndOn(t: Tables, job: Job, p: Progress): Tables
  {
    var key := SnapshotKey(job);
    match p
    case Idle => t
    case Activating(attempt, info) =>
      PersistOn(t.(snapshots := t.snapshots[key := Snapshot(attempt, info.maxAttempts, info.startedAt)]), job, attempt,
                Execution(ACTIVE, info.startedAt, None, None))
    case Finishing(drop) =>
      if drop then t.(snapshots := t.snapshots - {key}, attempts := t.attempts - {key}) else t
  }

  function TaskOf(t: Tables, job: Job): Task
  {
    if SnapshotKey(job) in t.tasks then t.tasks[SnapshotKey(job)] else Task([], Idle)
  }

  function WithTask(t: Tables, job: Job, task: Task): Tables { t.(tasks := t.tasks[SnapshotKey(job) := task]) }

  /** An event is dispatched to a job, or the job's chain runs on to its next write. */
  function TurnOn(t: Tables, job: Job, a: ChainAction): Tables
  {
    var task := TaskOf(t, job);
    match a
    case Dispatch(e) => WithTask(t, job, task.(pending := task.pending + [e]))
    case Step =>
      if task.pending == [] then t
      else if task.progress != Idle then WithTask(EndOn(t, job, task.progress), job, Task(task.pending[1..], Idle))
      else
        var r := BeginOn(t, job, task.pending[0]);
        WithTask(r.0, job, if r.1 == Idle then Task(task.pending[1..], Idle) else task.(progress := r.1))
  }

  /** What another job knows of itself is in the tables as before. */
  ghost predicate SameForOthers(t: Tables, u: Tables, job: Job)
  {
    forall other :: Known(other) && other != job ==> ChainOf(u, other) == ChainOf(t, other)
  }

  lemma SameThen(t: Tables, u: Tables, v: Tables, job: Job)
    requires SameForOthers(t, u, job) && SameForOthers(u, v, job)
    ensures SameForOthers(t, v, job)
  {
  }

  lemma RowsUpdate(rows: map<RowKey, Execution>, job: Job, attempt: nat, x: Execution)
    ensures RowsOf(rows[RowKey(job, attempt) := x], job) == RowsOf(rows, job)[attempt := x]
    ensures forall other :: other != job ==> RowsOf(rows[RowKey(job, attempt) := x], other) == RowsOf(rows, other)
  {
    var n := rows[RowKey(job, attempt) := x];
    forall other | other != job ensures RowsOf(n, other) == RowsOf(rows, other) {}
  }

  /** No other known job reads the tables under this job's key. */
  lemma OtherKeys(job: Job)
    requires Known(job)
    ensures forall other :: Known(other) && other != job ==> SnapshotKey(other) != SnapshotKey(job)
  {
    forall other | Known(other) && other != job ensures SnapshotKey(other) != SnapshotKey(job) {
      if SnapshotKey(other) == SnapshotKey(job) { KeysDiffer(other, job); }
    }
  }

  lemma PersistRows(rows: map<RowKey, Execution>, job: Job, attempt: nat, x: Execution)
    ensures var n := rows[RowKey(job, attempt) := if RowKey(job, attempt) in rows then Merged(rows[RowKey(job, attempt)], x) else x];
            RowsOf(n, job) == Persist(RowsOf(rows, job), attempt, x) && forall other :: other != job ==> RowsOf(n, other) == RowsOf(rows, other)
  {
    var key := RowKey(job, attempt);
    assert attempt in RowsOf(rows, job) <==> key in rows;
    RowsUpdate(rows, job, attempt, if key in rows then Merged(rows[key], x) else x);
  }

  lemma PersistActs(t: Tables, job: Job, attempt: nat, x: Execution)
    ensures var u := PersistOn(t, job, attempt, x);
            MemoryOf(u, job) == MemoryOf(t, job).(rows := Persist(MemoryOf(t, job).rows, attempt, x)) && SameForOthers(t, u, job)
  {
    var u := PersistOn(t, job, attempt, x);
    PersistRows(t.rows, job, attempt, x);
    forall other | Known(other) && other != job ensures ChainOf(u, other) == ChainOf(t, other) {
      assert RowsOf(u.rows, other) == RowsOf(t.rows, other);
    }
  }

  lemma CountActs(t: Tables, job: Job, attempt: nat)
    requires Known(job)
    ensures var u := t.(attempts := t.attempts[SnapshotKey(job) := attempt]);
            MemoryOf(u, job) == MemoryOf(t, job).(counter := attempt) && SameForOthers(t, u, job)
  {
    OtherKeys(job);
  }

  lemma SnapshotActs(t: Tables, job: Job, s: Snapshot)
    requires Known(job)
    ensures var u := t.(snapshots := t.snapshots[SnapshotKey(job) := s]);
            MemoryOf(u, job) == MemoryOf(t, job).(snapshot := Some(s)) && SameForOthers(t, u, job)
  {
    OtherKeys(job);
  }

  lemma DropActs(t: Tables, job: Job)
    requires Known(job)
    ensures var u := t.(snapshots := t.snapshots - {SnapshotKey(job)}, attempts := t.attempts - {SnapshotKey(job)});
            MemoryOf(u, job) == MemoryOf(t, job).(snapshot := None, counter := 0) && SameForOthers(t, u, job)
  {
    OtherKeys(job);
  }

  lemma BeginActs(t: Tables, job: Job, e: Event)
    requires Known(job)
    ensures var r := BeginOn(t, job, e);
            (MemoryOf(r.0, job), r.1) == Begin(MemoryOf(t, job), e) && r.0.tasks == t.tasks && SameForOthers(t, r.0, job)
  {
    match e
    case Active(None) =>
    case Active(Some(info)) => BeginActiveActs(t, job, info);
    case Completed(now) =>
      var m := MemoryOf(t, job);
      if m.snapshot.Some? {
        PersistActs(t, job, m.snapshot.value.attempt, Execution(COMPLETED, m.snapshot.value.startedAt, Some(now), None));
      }
    case Failed(reason, now) =>
      var m := MemoryOf(t, job);
      if m.snapshot.Some? {
        var s := m.snapshot.value;
        PersistActs(t, job, s.attempt, Execution(if s.attempt < s.maxAttempts then RETRYING else FAILED, s.startedAt, Some(now), Some(reason)));
      }
  }

  lemma BeginActiveActs(t: Tables, job: Job, info: JobInfo)
    requires Known(job)
    ensures var r := BeginOn(t, job, Active(Some(info)));
            (MemoryOf(r.0, job), r.1) == Begin(MemoryOf(t, job), Active(Some(info))) && r.0.tasks == t.tasks && SameForOthers(t, r.0, job)
  {
    var m, r := MemoryOf(t, job), BeginOn(t, job, Active(Some(info)));
    var u := t.(attempts := t.attempts[SnapshotKey(job) := m.counter + 1]);
    CountActs(t, job, m.counter + 1);
    if m.snapshot.Some? && m.snapshot.value.attempt < m.counter + 1 {
      var x := Execution(RETRYING, m.snapshot.value.startedAt, Some(info.startedAt), Some(Reason(info)));
      PersistActs(u, job, m.snapshot.value.attempt, x);
      SameThen(t, u, PersistOn(u, job, m.snapshot.value.attempt, x), job);
      assert r.0 == PersistOn(u, job, m.snapshot.value.attempt, x);
    } else {
      assert r.0 == u;
    }
  }

  lemma EndActs(t: Tables, job: Job, p: Progress)
    requires Known(job)
    ensures var u := EndOn(t, job, p);
            MemoryOf(u, job) == End(MemoryOf(t, job), p) && u.tasks == t.tasks && SameForOthers(t, u, job)
  {
    match p
    case Idle =>
    case Activating(attempt, info) =>
      var s := Snapshot(attempt, info.maxAttempts, info.startedAt);
      SnapshotActs(t, job, s);
      PersistActs(t.(snapshots := t.snapshots[SnapshotKey(job) := s]), job, attempt, Execution(ACTIVE, info.startedAt, None, None));
    case Finishing(drop) => if drop { DropActs(t, job); }
  }

  lemma TaskActs(t: Tables, job: Job, task: Task)
    requires Known(job)
    ensures ChainOf(WithTask(t, job, task), job) == Chain(MemoryOf(t, job), task.pending, task.progress)
    ensures SameForOthers(t, WithTask(t, job, task), job)
  {
    OtherKeys(job);
  }

  /** A turn acts on its job's chain, and no other job can tell. */
  lemma TurnActs(t: Tables, job: Job, a: ChainAction)
    requires Known(job)
    ensures ChainOf(TurnOn(t, job, a), job) == Act(ChainOf(t, job), a)
    ensures SameForOthers(t, TurnOn(t, job, a), job)
  {
    var task := TaskOf(t, job);
    match a
    case Dispatch(e) => TaskActs(t, job, task.(pending := task.pending + [e]));
    case Step =>
      if task.pending != [] {
        if task.progress != Idle {
          EndActs(t, job, task.progress);
          TaskActs(EndOn(t, job, task.progress), job, Task(task.pending[1..], Idle));
        } else {
          BeginActs(t, job, task.pending[0]);
          var r := BeginOn(t, job, task.pending[0]);
          TaskActs(r.0, job, if r.1 == Idle then Task(task.pending[1..], Idle) else task.(progress := r.1));
        }
      }
  }

  // ------------------------------------------------------------------ schedules

  datatype Turn = Turn(job: Job, action: ChainAction)

  predicate AllKnown(turns: seq<Turn>) { forall i :: 0 <= i < |turns| ==> Known(turns[i].job) }

  /** The tables after a schedule of turns. */
  function RunTurns(t: Tables, turns: seq<Turn>): Tables
  {
    if turns == [] then t
    else TurnOn(RunTurns(t, turns[..|turns| - 1]), turns[|turns| - 1].job, turns[|turns| - 1].action)
  }

  function Own(turns: seq<Turn>, job: Job): seq<ChainAction>
  {
    if turns == [] then []
    else
      Own(turns[..|turns| - 1], job) + (if turns[|turns| - 1].job == job then [turns[|turns| - 1].action] else [])
  }

  lemma {:induction false} OthersDoNotMatter(t: Tables, turns: seq<Turn>, job: Job)
    requires AllKnown(turns) && Known(job)
    ensures ChainOf(RunTurns(t, turns), job) == ActAll(ChainOf(t, job), Own(turns, job))
  {
    if turns != [] {
      var n := |turns| - 1;
      OthersDoNotMatter(t, turns[..n], job);
      TurnActs(RunTurns(t, turns[..n]), turns[n].job, turns[n].action);
      var before := Own(turns[..n], job);
      if turns[n].job == job {
        assert (before + [turns[n].action])[..|before|] == before;
      } else {
        assert before + [] == before;
      }
    }
  }

  function NoTables(): Tables { Tables(map[], map[], map[], map[]) }

  /**
    Interleave the handlers of any number of jobs in any way on the shared tables: once a job's chain is
    empty, its rows, snapshot and counter are those of its own events handled in order, and its history
    has the promised shape.
  */
  lemma HistoriesAreIndependent(turns: seq<Turn>, job: Job)
    requires AllKnown(turns) && Known(job)
    ensures var t := RunTurns(NoTables(), turns);
            && ChainOf(t, job) == ActAll(Chain(NewMemory(), [], Idle), Own(turns, job))
            && (ChainOf(t, job).pending == [] ==>
                  MemoryOf(t, job) == HandleAll(NewMemory(), Dispatched(Own(turns, job))) && Shape(MemoryOf(t, job)))
  {
    OthersDoNotMatter(NoTables(), turns, job);
    assert RowsOf(NoTables().rows, job) == map[];
    assert ChainOf(NoTables(), job) == Chain(NewMemory(), [], Idle);
    ChainIsSequential(Own(turns, job));
    HandleAllShape(Dispatched(Own(turns, job)));
  }

  // ------------------------------------------------------------------ the service

  class HistoryService {
    var jobSnapshots: map<string, Snapshot>
    var attemptNumbers: map<string, nat>
    var eventTasks: map<string, Task>
    var executions: map<RowKey, Execution>

    function State(): Tables
      reads this
    {
      Tables(jobSnapshots, attemptNumbers, eventTasks, executions)
    }

    constructor ()
      ensures State() == NoTables()
    {
      jobSnapshots, attemptNumbers, eventTasks, executions := map[], map[], map[], map[];
    }

    method PersistExecution(job: Job, attempt: nat, x: Execution)
      modifies this`executions
      ensures State() == PersistOn(old(State()), job, attempt, x)
    {
      var key := RowKey(job, attempt);
      if key in executions {
        executions := executions[key := Merged(executions[key], x)];
      } else {
        executions := executions[key := x];
      }
    }

    /** Handlers of the same job wait for one another. */
    method DispatchEvent(job: Job, e: Event)
      modifies this`eventTasks
      ensures State() == TurnOn(old(State()), job, Dispatch(e))
    {
      var key := SnapshotKey(job);
      var task := if key in eventTasks then eventTasks[key] else Task([], Idle);
      eventTasks := eventTasks[key := task.(pending := task.pending + [e])];
    }

    method BeginHandler(job: Job, e: Event) returns (progress: Progress)
      modifies this`attemptNumbers, this`executions
      ensures (State(), progress) == BeginOn(old(State()), job, e)
    {
      var key := SnapshotKey(job);
      match e {
        case Active(None) => return Idle;
        case Active(Some(info)) =>
          var attempt := (if key in attemptNumbers then attemptNumbers[key] else 0) + 1;
          attemptNumbers := attemptNumbers[key := attempt];
          if key in jobSnapshots && jobSnapshots[key].attempt < attempt {
            var previous := jobSnapshots[key];
            PersistExecution(job, previous.attempt,
                             Execution(RETRYING, previous.startedAt, Some(info.startedAt), Some(Reason(info))));
          }
          return Activating(attempt, info);
        case Completed(now) =>
          if key !in jobSnapshots { return Idle; }
          var snapshot := jobSnapshots[key];
          PersistExecution(job, snapshot.attempt, Execution(COMPLETED, snapshot.startedAt, Some(now), None));
          return Finishing(true);
        case Failed(reason, now) =>
          if key !in jobSnapshots { return Idle; }
          var snapshot := jobSnapshots[key];
          var status := if snapshot.attempt < snapshot.maxAttempts then RETRYING else FAILED;
          PersistExecution(job, snapshot.attempt, Execution(status, snapshot.startedAt, Some(now), Some(reason)));
          return Finishing(status == FAILED);
      }
    }

    method EndHandler(job: Job, progress: Progress)
      modifies this`jobSnapshots, this`attemptNumbers, this`executions
      ensures State() == EndOn(old(State()), job, progress)
    {
      var key := SnapshotKey(job);
      match progress {
        case Idle =>
        case Activating(attempt, info) =>
          jobSnapshots := jobSnapshots[key := Snapshot(attempt, info.maxAttempts, info.startedAt)];
          PersistExecution(job, attempt, Execution(ACTIVE, info.startedAt, None, None));
        case Finishing(drop) =>
          if drop {
            jobSnapshots := jobSnapshots - {key};
            attemptNumbers := attemptNumbers - {key};
          }
      }
    }

    /** The job's chain runs on until the next write. */
    method TakeTurn(job: Job)
      modifies this
      ensures State() == TurnOn(old(State()), job, Step)
    {
      var key := SnapshotKey(job);
      if key !in eventTasks || eventTasks[key].pending == [] { return; }
      var task := eventTasks[key];
      if task.progress != Idle {
        EndHandler(job, task.progress);
        eventTasks := eventTasks[key := Task(task.pending[1..], Idle)];
      } else {
        var progress := BeginHandler(job, task.pending[0]);
        eventTasks := eventTasks[key := if progress == Idle then Task(task.pending[1..], Idle) else task.(progress := progress)];
      }
    }
  }

  /** The scheduler serves the turns one after the other, from a service that has just started. */
  method ServeAll(turns: seq<Turn>) returns (service: HistoryService)
    requires AllKnown(turns)
    ensures fresh(service) && service.State() == RunTurns(NoTables(), turns)
    ensures forall job :: Known(job) && ChainOf(service.State(), job).pending == [] ==>
              MemoryOf(service.State(), job) == HandleAll(NewMemory(), Dispatched(Own(turns, job)))
  {
    service := new HistoryService();
    for i := 0 to |turns|
      invariant service.State() == RunTurns(NoTables(), turns[..i])
    {
      assert turns[..i + 1][..i] == turns[..i];
      match turns[i].action {
        case Dispatch(e) => service.DispatchEvent(turns[i].job, e);
        case Step => service.TakeTurn(turns[i].job);
      }
    }
    assert turns[..|turns|] == turns;
    forall job | Known(job) && ChainOf(service.State(), job).pending == []
      ensures MemoryOf(service.State(), job) == HandleAll(NewMemory(), Dispatched(Own(turns, job)))
    {
      HistoriesAreIndependent(turns, job);
    }
  }
}
