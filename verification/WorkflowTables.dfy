/** The workflow tables and what one database session does to them, as functions on values.
    A database is shared by tenants; every operation names the tenant that calls it. */
module WorkflowTables {
  import opened Naming
  import opened Tables

  datatype Result<+T> = Ok(value: T) | NotFound | Conflict

  /** Status words of the engine's workflow documents. */
  datatype Phase = Planned | Queued | Running | Completed | Recovered

  /** Status column of the workflow and task tables. */
  datatype Status = PENDING | RUNNING | SUCCEEDED | TIMED_OUT | RECOVERING

  datatype Event =
    | WorkflowPlanned(checkpoint: string, timestamp: int)
    | StepCompleted(stepId: string, agent: string, timestamp: int, observation: string, key: string)
    | WorkflowCompleted(checkpoint: string, timestamp: int)

  datatype Step = Step(id: string, agent: string, action: string, status: Phase, observations: seq<Event>, key: string)

  /** The document kept in a checkpoint row. */
  datatype Workflow = Workflow(
    task: string,
    steps: seq<Step>,
    checkpoint: string,
    status: Phase,
    createdAt: int,
    updatedAt: int,
    events: seq<Event>)

  datatype WorkflowRow = WorkflowRow(tenant: string, task: string, status: Status, version: int, updatedAt: int)

  datatype TaskRow = TaskRow(
    tenant: string,
    workflowId: string,
    agent: string,
    action: string,
    status: Status,
    leaseOwner: Option<string>,
    leaseExpiresAt: Option<int>,
    attempts: int,
    maxAttempts: int,
    createdAt: int,
    updatedAt: int)

  datatype CheckpointRow = CheckpointRow(tenant: string, state: Workflow, version: int)

  datatype EventRow = EventRow(tenant: string, workflowId: string, sequence: int, status: Phase)

  /** The four tables; maps are keyed by primary key. */
  datatype Db = Db(
    workflows: map<string, WorkflowRow>,
    tasks: map<string, TaskRow>,
    checkpoints: map<string, CheckpointRow>,
    events: seq<EventRow>)

  const EMPTY := Db(map[], map[], map[], [])

  const MAX_ATTEMPTS := 3

  function StatusOf(p: Phase): Status {
    match p
    case Planned => PENDING
    case Queued => PENDING
    case Running => RUNNING
    case Completed => SUCCEEDED
    case Recovered => RECOVERING
  }

  function CheckpointId(n: nat): string { "checkpoint-" + Decimal(n) }

  function StepId(n: nat): string { "step-" + Decimal(n) }

  function TaskId(checkpoint: string, step: string): string { checkpoint + ":" + step }

  lemma {:induction false} CheckpointIdInjective(m: nat, n: nat)
    requires CheckpointId(m) == CheckpointId(n)
    ensures m == n
  {
    PrefixedInjective("checkpoint-", m, n);
  }

  lemma {:induction false} StepIdInjective(m: nat, n: nat)
    requires StepId(m) == StepId(n)
    ensures m == n
  {
    PrefixedInjective("step-", m, n);
  }

  lemma {:induction false} CheckpointIdColonFree(n: nat)
    ensures ColonFree(CheckpointId(n))
  {
    var p := "checkpoint-";
    forall i | 0 <= i < |p + Decimal(n)|
      ensures (p + Decimal(n))[i] != ':'
    {
      if i >= |p| {
        assert (p + Decimal(n))[i] == Decimal(n)[i - |p|];
        DecimalDigits(n, i - |p|);
      }
    }
  }

  // ---- upsert_workflow ----

  function NewTask(tenant: string, checkpoint: string, s: Step, now: int): TaskRow {
    TaskRow(tenant, checkpoint, s.agent, s.action, StatusOf(s.status), None, None, 0, MAX_ATTEMPTS, now, now)
  }

  /** One task row per step, in step order, each with its primary key. */
  function TaskRows(tenant: string, checkpoint: string, steps: seq<Step>, now: int): (rows: seq<(string, TaskRow)>)
    ensures |rows| == |steps|
  {
    seq(|steps|, i requires 0 <= i < |steps| =>
      (TaskId(checkpoint, steps[i].id), NewTask(tenant, checkpoint, steps[i], now)))
  }

  function LatestSequence(events: seq<EventRow>, tenant: string, workflowId: string): int {
    if events == [] then 0
    else
      var rest := LatestSequence(events[..|events| - 1], tenant, workflowId);
      var e := events[|events| - 1];
      if e.tenant == tenant && e.workflowId == workflowId && e.sequence > rest then e.sequence else rest
  }

  function OtherTasks(tasks: map<string, TaskRow>, tenant: string, workflowId: string): map<string, TaskRow> {
    map id | id in tasks && !(tasks[id].workflowId == workflowId && tasks[id].tenant == tenant) :: tasks[id]
  }

  /** The workflow row that upsert writes; an existing row is found by id alone. */
  function WorkflowRowAfter(workflows: map<string, WorkflowRow>, tenant: string, w: Workflow, now: int): WorkflowRow {
    if w.checkpoint in workflows then
      var row := workflows[w.checkpoint];
      row.(status := StatusOf(w.status), updatedAt := now, version := row.version + 1)
    else
      WorkflowRow(tenant, w.task, StatusOf(w.status), 1, now)
  }

  /** One upsert session: all four tables change together, or (Conflict) none does. */
  function Upsert(db: Db, tenant: string, w: Workflow, now: int): Result<Db> {
    var cp := w.checkpoint;
    var row := WorkflowRowAfter(db.workflows, tenant, w, now);
    match InsertAll(OtherTasks(db.tasks, tenant, cp), TaskRows(tenant, cp, w.steps, now))
    case None => Conflict
    case Some(tasks) =>
      Ok(Db(
        db.workflows[cp := row],
        tasks,
        db.checkpoints[cp := CheckpointRow(tenant, w, row.version)],
        db.events + [EventRow(tenant, cp, LatestSequence(db.events, tenant, cp) + 1, w.status)]))
  }

  // ---- get and list ----

  function Get(db: Db, tenant: string, checkpoint: string): Result<Workflow> {
    if checkpoint !in db.checkpoints || db.checkpoints[checkpoint].tenant != tenant then NotFound
    else Ok(db.checkpoints[checkpoint].state)
  }

  /** The tenant's checkpoints, by id. */
  function Listed(db: Db, tenant: string): map<string, Workflow> {
    map cp | cp in db.checkpoints && db.checkpoints[cp].tenant == tenant :: db.checkpoints[cp].state
  }

  // ---- leases ----

  predicate Leasable(db: Db, tenant: string, workflowId: string, id: string) {
    && id in db.tasks
    && db.tasks[id].tenant == tenant
    && db.tasks[id].workflowId == workflowId
    && db.tasks[id].status in {PENDING, TIMED_OUT}
  }

  /** `id` may come first when the leasable tasks are ordered by creation time; the order
      among equal creation times is the database's choice. */
  ghost predicate EarliestLeasable(db: Db, tenant: string, workflowId: string, id: string) {
    && Leasable(db, tenant, workflowId, id)
    && forall other :: Leasable(db, tenant, workflowId, other) ==> db.tasks[id].createdAt <= db.tasks[other].createdAt
  }

  function LeasedTask(t: TaskRow, worker: string, seconds: int, now: int): TaskRow {
    t.(status := RUNNING, leaseOwner := Some(worker), leaseExpiresAt := Some(now + seconds),
       attempts := t.attempts + 1, updatedAt := now)
  }

  function Lease(db: Db, id: string, worker: string, seconds: int, now: int): Db
    requires id in db.tasks
  {
    db.(tasks := db.tasks[id := LeasedTask(db.tasks[id], worker, seconds, now)])
  }

  predicate MarkAccepted(db: Db, tenant: string, id: string, worker: string) {
    && id in db.tasks
    && db.tasks[id].tenant == tenant
    && db.tasks[id].leaseOwner == Some(worker)
    && db.tasks[id].status != SUCCEEDED
  }

  function Mark(db: Db, tenant: string, id: string, worker: string, now: int): Db {
    if MarkAccepted(db, tenant, id, worker)
    then db.(tasks := db.tasks[id := db.tasks[id].(status := SUCCEEDED, updatedAt := now)])
    else db
  }

  predicate Expired(t: TaskRow, tenant: string, now: int) {
    t.tenant == tenant && t.status == RUNNING && t.leaseExpiresAt.Some? && t.leaseExpiresAt.value < now
  }

  function ExpiredIds(db: Db, tenant: string, now: int): set<string> {
    set id | id in db.tasks && Expired(db.tasks[id], tenant, now)
  }

  function Reclaimed(t: TaskRow): TaskRow {
    t.(status := if t.attempts >= t.maxAttempts then TIMED_OUT else PENDING, leaseOwner := None, leaseExpiresAt := None)
  }

  function RecoverExpired(db: Db, tenant: string, now: int): Db {
    db.(tasks := map id | id in db.tasks ::
          if Expired(db.tasks[id], tenant, now) then Reclaimed(db.tasks[id]) else db.tasks[id])
  }
}
