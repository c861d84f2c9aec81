/** Runs of the workflow platform: any number of engine processes and lease workers, of any
    tenants, over one database. A plan, execute or recover is two database sessions, a read and
    a later write; sessions of different processes interleave freely, and a process may die
    between its two sessions. Lease, mark and expiry recovery are one session each. */
module WorkflowRuns {
  import opened Tables
  import opened WorkflowTables
  import opened WorkflowDocuments
  import opened WorkflowInvariant

  datatype Kind = PlanWrite | ExecuteWrite | RecoverWrite

  /** A write that a process has computed and not yet persisted. `base` is the version that
      the workflow row had when the process read (0 if there was none), `seen` the number of
      executes written to the workflow by then. */
  datatype Pending = Pending(tenant: string, kind: Kind, document: Workflow, base: int, seen: nat)

  /** What committed sessions did, in order. */
  datatype Entry =
    | Upserted(workflowId: string, kind: Kind)
    | Granted(id: string, worker: string)
    | Marked(id: string, worker: string)
    | ReclaimedAll(ids: set<string>)

  datatype World = World(db: Db, inflight: map<nat, Pending>, log: seq<Entry>)

  const INITIAL := World(EMPTY, map[], [])

  datatype Op =
    | BeginPlan(pid: nat, tenant: string, task: string, agents: Option<seq<string>>, now: int)
    | BeginExecute(pid: nat, tenant: string, checkpoint: string, now: int)
    | BeginRecover(pid: nat, tenant: string, checkpoint: string, now: int)
    | Commit(pid: nat, now: int)
    | Die(pid: nat)
    | LeaseTask(tenant: string, workflowId: string, worker: string, seconds: int, now: int, pick: string)
    | MarkTask(tenant: string, id: string, worker: string, now: int)
    | RecoverLeases(tenant: string, now: int)

  function RowVersion(db: Db, cp: string): int {
    if cp in db.workflows then db.workflows[cp].version else 0
  }

  function Begin(w: World, pid: nat, tenant: string, kind: Kind, doc: Workflow): World {
    if pid in w.inflight then w
    else w.(inflight := w.inflight[pid := NewPending(w, tenant, kind, doc)])
  }

  function NewPending(w: World, tenant: string, kind: Kind, doc: Workflow): Pending {
    Pending(tenant, kind, doc, RowVersion(w.db, doc.checkpoint), Executes(w.log, doc.checkpoint))
  }

  function NextCheckpoint(db: Db, tenant: string): string {
    CheckpointId(|Listed(db, tenant)| + 1)
  }

  function CommitStep(w: World, pid: nat, now: int): World {
    if pid !in w.inflight then w
    else
      var p := w.inflight[pid];
      match Upsert(w.db, p.tenant, p.document, now)
      case Ok(db) => World(db, w.inflight - {pid}, w.log + [Upserted(p.document.checkpoint, p.kind)])
      case _ => w.(inflight := w.inflight - {pid})
  }

  ghost function Do(w: World, op: Op): World {
    match op
    case BeginPlan(pid, tenant, task, agents, now) =>
      Begin(w, pid, tenant, PlanWrite, PlanDocument(NextCheckpoint(w.db, tenant), task, Crew(agents), now))
    case BeginExecute(pid, tenant, cp, now) =>
      (match Get(w.db, tenant, cp)
       case Ok(doc) => if Executable(doc) then Begin(w, pid, tenant, ExecuteWrite, ExecuteDocument(doc, now)) else w
       case _ => w)
    case BeginRecover(pid, tenant, cp, now) =>
      (match Get(w.db, tenant, cp)
       case Ok(doc) => Begin(w, pid, tenant, RecoverWrite, RecoverDocument(doc, now))
       case _ => w)
    case Commit(pid, now) => CommitStep(w, pid, now)
    case Die(pid) => w.(inflight := w.inflight - {pid})
    case LeaseTask(tenant, wf, worker, seconds, now, pick) =>
      if EarliestLeasable(w.db, tenant, wf, pick)
      then w.(db := Lease(w.db, pick, worker, seconds, now), log := w.log + [Granted(pick, worker)])
      else w
    case MarkTask(tenant, id, worker, now) =>
      if MarkAccepted(w.db, tenant, id, worker)
      then w.(db := Mark(w.db, tenant, id, worker, now), log := w.log + [Marked(id, worker)])
      else w
    case RecoverLeases(tenant, now) =>
      w.(db := RecoverExpired(w.db, tenant, now), log := w.log + [ReclaimedAll(ExpiredIds(w.db, tenant, now))])
  }

  ghost function Run(w: World, ops: seq<Op>): World {
    if ops == [] then w else Do(Run(w, ops[..|ops| - 1]), ops[|ops| - 1])
  }

  lemma {:induction false} RunOne(w: World, op: Op)
    ensures Run(w, [op]) == Do(w, op)
  {
    assert [op][..0] == [];
    assert Run(w, []) == w;
  }

  // ---- counting over the history ----

  /** Leases granted, leases reclaimed and marks accepted for a task since its workflow was last
      upserted, and the worker of the latest lease not reclaimed since. */
  datatype Tally = Tally(grants: nat, reclaims: nat, marks: nat, holder: Option<string>)

  const NOTHING := Tally(0, 0, 0, None)

  function Counted(t: Tally, e: Entry, wf: string, id: string): Tally {
    match e
    case Upserted(x, _) => if x == wf then NOTHING else t
    case Granted(x, worker) => if x == id then t.(grants := t.grants + 1, holder := Some(worker)) else t
    case Marked(x, _) => if x == id then t.(marks := t.marks + 1) else t
    case ReclaimedAll(ids) => if id in ids then t.(reclaims := t.reclaims + 1, holder := None) else t
  }

  function TallyOf(log: seq<Entry>, wf: string, id: string): Tally {
    if log == [] then NOTHING else Counted(TallyOf(log[..|log| - 1], wf, id), log[|log| - 1], wf, id)
  }

  /** Upserts of a workflow in the history; `Executes` counts those by an execute. */
  function Upserts(log: seq<Entry>, wf: string): nat {
    if log == [] then 0
    else Upserts(log[..|log| - 1], wf) + if log[|log| - 1].Upserted? && log[|log| - 1].workflowId == wf then 1 else 0
  }

  function Executes(log: seq<Entry>, wf: string): nat {
    if log == [] then 0
    else Executes(log[..|log| - 1], wf) + if log[|log| - 1] == Upserted(wf, ExecuteWrite) then 1 else 0
  }

  // ---- invariant ----

  /** A task row is what the history of its leases says it is. Leases are conserved: each one
      granted was reclaimed, or ended in an accepted mark, or is still running. */
  ghost predicate Tells(t: TaskRow, h: Tally) {
    && t.attempts == h.grants
    && h.grants == h.reclaims + h.marks + (if t.status == RUNNING then 1 else 0)
    && h.marks <= 1
    && (h.marks == 1 ==> t.status == SUCCEEDED)
    && t.leaseOwner == h.holder
    && (h.holder.Some? <==> t.status == RUNNING || h.marks == 1)
    && (t.leaseExpiresAt.Some? <==> t.leaseOwner.Some?)
    && t.status in {PENDING, RUNNING, TIMED_OUT, SUCCEEDED}
    && t.maxAttempts == MAX_ATTEMPTS
    && (t.status == PENDING ==> t.attempts < t.maxAttempts)
    && (t.status == TIMED_OUT ==> t.attempts >= t.maxAttempts)
  }

  ghost predicate LeasesTold(db: Db, log: seq<Entry>) {
    forall id :: id in db.tasks ==> Tells(db.tasks[id], TallyOf(log, db.tasks[id].workflowId, id))
  }

  /** A workflow's version counts its upserts, and its completions never exceed its executes. */
  ghost predicate Counts(db: Db, log: seq<Entry>, cp: string) {
    && RowVersion(db, cp) == Upserts(log, cp)
    && (cp in db.checkpoints ==> CompletionCount(db.checkpoints[cp].state.events) <= Executes(log, cp))
  }

  ghost predicate PendingOk(db: Db, log: seq<Entry>, p: Pending) {
    && WellFormed(p.document)
    && Target(db, p.tenant, p.document.checkpoint)
    && (p.kind == ExecuteWrite ==> AllDone(p.document.steps) && p.document.status == Completed)
    && (p.kind == PlanWrite ==> AllQueued(p.document.steps))
    && CompletionCount(p.document.events) <=
       Executes(log, p.document.checkpoint) + (if p.kind == ExecuteWrite then 1 else 0)
    && p.base <= RowVersion(db, p.document.checkpoint)
    && (p.kind == PlanWrite && !OwnedByOther(db, p.tenant) ==> p.base == 0)
  }

  ghost predicate DbInv(db: Db, log: seq<Entry>) {
    && TablesAgree(db)
    && LeasesTold(db, log)
    && forall cp :: Counts(db, log, cp)
  }

  ghost predicate Pendings(db: Db, log: seq<Entry>, inflight: map<nat, Pending>) {
    forall pid :: pid in inflight ==> PendingOk(db, log, inflight[pid])
  }

  ghost predicate Inv(w: World) {
    DbInv(w.db, w.log) && Pendings(w.db, w.log, w.inflight)
  }

  lemma {:induction false} InitialInv()
    ensures Inv(INITIAL)
  {
    assert |INITIAL.db.checkpoints| == 0;
    assert Ids(0) == {};
  }

  // ---- begin ----

  lemma {:induction false} PendingsExtend(db: Db, log: seq<Entry>, inflight: map<nat, Pending>, pid: nat, p: Pending)
    requires Pendings(db, log, inflight) && PendingOk(db, log, p)
    ensures Pendings(db, log, inflight[pid := p])
  {
  }

  lemma {:induction false} BeginKeepsInv(w: World, pid: nat, tenant: string, kind: Kind, doc: Workflow)
    requires Inv(w)
    requires PendingOk(w.db, w.log, NewPending(w, tenant, kind, doc))
    ensures Inv(Begin(w, pid, tenant, kind, doc))
  {
    PendingsExtend(w.db, w.log, w.inflight, pid, NewPending(w, tenant, kind, doc));
  }

  /** A tenant's next checkpoint id names no workflow, unless the database is another tenant's. */
  lemma {:induction false} NextCheckpointFresh(db: Db, tenant: string)
    requires Numbered(db) && (forall cp :: cp in db.workflows ==> cp in db.checkpoints)
    ensures !OwnedByOther(db, tenant) ==>
            NextCheckpoint(db, tenant) !in db.checkpoints && RowVersion(db, NextCheckpoint(db, tenant)) == 0
  {
    if !OwnedByOther(db, tenant) {
      assert NextCheckpoint(db, tenant) == CheckpointId(|db.checkpoints| + 1) by {
        ListedKeys(db, tenant);
      }
      NextIdFresh(|db.checkpoints|);
    }
  }

  lemma {:induction false} BeginOpsKeepInv(w: World, op: Op)
    requires Inv(w) && (op.BeginPlan? || op.BeginExecute? || op.BeginRecover?)
    ensures Inv(Do(w, op))
  {
    match op {
      case BeginPlan(pid, tenant, task, agents, now) =>
        var cp := NextCheckpoint(w.db, tenant);
        PlanShape(cp, task, Crew(agents), now);
        NextCheckpointFresh(w.db, tenant);
        BeginKeepsInv(w, pid, tenant, PlanWrite, PlanDocument(cp, task, Crew(agents), now));
      case BeginExecute(pid, tenant, cp, now) =>
        if Get(w.db, tenant, cp).Ok? && Executable(Get(w.db, tenant, cp).value) {
          var doc := w.db.checkpoints[cp].state;
          assert Agrees(w.db, cp) && Counts(w.db, w.log, cp);
          ExecuteShape(doc, now);
          BeginKeepsInv(w, pid, tenant, ExecuteWrite, ExecuteDocument(doc, now));
        }
      case BeginRecover(pid, tenant, cp, now) =>
        if Get(w.db, tenant, cp).Ok? {
          var doc := w.db.checkpoints[cp].state;
          assert Agrees(w.db, cp) && Counts(w.db, w.log, cp);
          RecoverShape(doc, now);
          BeginKeepsInv(w, pid, tenant, RecoverWrite, RecoverDocument(doc, now));
        }
    }
  }

  // ---- commit ----

  lemma {:induction false} TallyAfter(log: seq<Entry>, e: Entry, wf: string, id: string)
    ensures TallyOf(log + [e], wf, id) == Counted(TallyOf(log, wf, id), e, wf, id)
    ensures Upserts(log + [e], wf) == Upserts(log, wf) + if e.Upserted? && e.workflowId == wf then 1 else 0
    ensures Executes(log + [e], wf) == Executes(log, wf) + if e == Upserted(wf, ExecuteWrite) then 1 else 0
  {
    assert (log + [e])[..|log + [e]| - 1] == log;
  }

  lemma {:induction false} NewTaskTold(db: Db, log: seq<Entry>, p: Pending, now: int, db': Db, id: string)
    requires WellFormed(p.document) && AfterUpsert(db, p.tenant, p.document, now, db')
    requires id in db'.tasks && id !in OtherTasks(db.tasks, p.tenant, p.document.checkpoint)
    ensures Tells(db'.tasks[id], TallyOf(log + [Upserted(p.document.checkpoint, p.kind)], db'.tasks[id].workflowId, id))
  {
    var cp := p.document.checkpoint;
    var rows := TaskRows(p.tenant, cp, p.document.steps, now);
    var i :| 0 <= i < |rows| && rows[i].0 == id;
    assert db'.tasks[id] == NewTask(p.tenant, cp, p.document.steps[i], now);
    TallyAfter(log, Upserted(cp, p.kind), cp, id);
    NewTaskTellsNothing(p.tenant, cp, p.document, i, now);
  }

  lemma {:induction false} NewTaskTellsNothing(tenant: string, cp: string, w: Workflow, i: nat, now: int)
    requires WellFormed(w) && i < |w.steps|
    ensures Tells(NewTask(tenant, cp, w.steps[i], now), NOTHING)
  {
    assert w.steps[i].status in {Queued, Completed};
  }

  lemma {:induction false} OtherTaskTold(db: Db, log: seq<Entry>, p: Pending, now: int, db': Db, id: string)
    requires AfterUpsert(db, p.tenant, p.document, now, db') && !OwnedByOther(db, p.tenant)
    requires id in OtherTasks(db.tasks, p.tenant, p.document.checkpoint) && Placed(db, id)
    requires Tells(db.tasks[id], TallyOf(log, db.tasks[id].workflowId, id))
    ensures id in db'.tasks
    ensures Tells(db'.tasks[id], TallyOf(log + [Upserted(p.document.checkpoint, p.kind)], db'.tasks[id].workflowId, id))
  {
    var cp := p.document.checkpoint;
    assert db'.tasks[id] == db.tasks[id];
    assert db.tasks[id].workflowId != cp;
    TallyAfter(log, Upserted(cp, p.kind), db.tasks[id].workflowId, id);
  }

  lemma {:induction false} CommitLeasesTold(db: Db, log: seq<Entry>, p: Pending, now: int, db': Db, id: string)
    requires LeasesTold(db, log)
    requires WellFormed(p.document)
    requires AfterUpsert(db, p.tenant, p.document, now, db')
    requires !OwnedByOther(db, p.tenant) && (id in db.tasks ==> Placed(db, id))
    requires id in db'.tasks
    ensures Tells(db'.tasks[id], TallyOf(log + [Upserted(p.document.checkpoint, p.kind)], db'.tasks[id].workflowId, id))
  {
    if id in OtherTasks(db.tasks, p.tenant, p.document.checkpoint) {
      OtherTaskTold(db, log, p, now, db', id);
    } else {
      NewTaskTold(db, log, p, now, db', id);
    }
  }

  lemma {:induction false} OtherTargetKept(db: Db, tenant: string, cp: string, c: CheckpointRow, db': Db, t: string,
        target: string)
    requires Numbered(db') && !OwnedByOther(db, tenant) && t != tenant
    requires db'.checkpoints == db.checkpoints[cp := c] && c.tenant == tenant
    requires Target(db, t, target)
    ensures Target(db', t, target)
  {
    assert Listed(db, t).Keys == {} by {
      assert forall x :: x in db.checkpoints ==> db.checkpoints[x].tenant == tenant;
    }
    assert |Listed(db, t)| == |Listed(db, t).Keys|;
    assert cp in db'.checkpoints && db'.checkpoints[cp].tenant != t;
    ListedKeys(db', t);
  }

  lemma {:induction false} OwnTargetKept(db: Db, tenant: string, cp: string, c: CheckpointRow, db': Db, target: string)
    requires Numbered(db) && Numbered(db') && !OwnedByOther(db, tenant) && !OwnedByOther(db', tenant)
    requires db'.checkpoints == db.checkpoints[cp := c]
    requires |db'.checkpoints| == |db.checkpoints| + if cp in db.checkpoints then 0 else 1
    requires cp in db.checkpoints || cp == CheckpointId(|db.checkpoints| + 1)
    requires Target(db, tenant, target)
    ensures Target(db', tenant, target)
  {
    TargetIsNext(db, tenant, target);
    ListedKeys(db', tenant);
  }

  /** A committed upsert never takes a target away from a pending write. */
  lemma {:induction false} TargetKept(db: Db, tenant: string, cp: string, c: CheckpointRow, db': Db, t: string,
        target: string)
    requires Numbered(db) && !OwnedByOther(db, tenant) && Target(db, tenant, cp)
    requires db'.checkpoints == db.checkpoints[cp := c] && c.tenant == tenant
    requires Target(db, t, target)
    ensures Target(db', t, target)
  {
    CheckpointsNumbered(db, tenant, cp, c, db');
    if t == tenant {
      OwnTargetKept(db, tenant, cp, c, db', target);
    } else {
      OtherTargetKept(db, tenant, cp, c, db', t, target);
    }
  }

  lemma {:induction false} CommitCounts(db: Db, log: seq<Entry>, p: Pending, now: int, db': Db, cp: string)
    requires Counts(db, log, cp) && PendingOk(db, log, p)
    requires Upsert(db, p.tenant, p.document, now) == Ok(db')
    ensures Counts(db', log + [Upserted(p.document.checkpoint, p.kind)], cp)
    ensures RowVersion(db', cp) == RowVersion(db, cp) + if cp == p.document.checkpoint then 1 else 0
  {
    TallyAfter(log, Upserted(p.document.checkpoint, p.kind), cp, "");
    UpsertChanges(db, p, now, db');
  }

  lemma {:induction false} OwnedByOtherKept(db: Db, tenant: string, cp: string, c: CheckpointRow, db': Db, t: string)
    requires !OwnedByOther(db, tenant)
    requires db'.checkpoints == db.checkpoints[cp := c] && c.tenant == tenant
    ensures OwnedByOther(db, t) ==> OwnedByOther(db', t)
  {
    if OwnedByOther(db, t) {
      var x :| x in db.checkpoints && db.checkpoints[x].tenant != t;
      assert x in db'.checkpoints && db'.checkpoints[x].tenant != t;
    }
  }

  lemma {:induction false} CommitPending(db: Db, log: seq<Entry>, p: Pending, now: int, db': Db, q: Pending)
    requires DbInv(db, log) && PendingOk(db, log, p) && PendingOk(db, log, q)
    requires AfterUpsert(db, p.tenant, p.document, now, db')
    requires !OwnedByOther(db, p.tenant)
    ensures PendingOk(db', log + [Upserted(p.document.checkpoint, p.kind)], q)
  {
    var cp, c := q.document.checkpoint, db'.checkpoints[p.document.checkpoint];
    TallyAfter(log, Upserted(p.document.checkpoint, p.kind), cp, "");
    assert RowVersion(db', cp) >= RowVersion(db, cp) by {
      CommitCounts(db, log, p, now, db', cp);
    }
    PendingKept(db, log, p, c, db', log + [Upserted(p.document.checkpoint, p.kind)], q);
  }

  lemma {:induction false} PendingKept(db: Db, log: seq<Entry>, p: Pending, c: CheckpointRow, db': Db,
        log': seq<Entry>, q: Pending)
    requires Numbered(db) && PendingOk(db, log, p) && PendingOk(db, log, q)
    requires !OwnedByOther(db, p.tenant)
    requires db'.checkpoints == db.checkpoints[p.document.checkpoint := c] && c.tenant == p.tenant
    requires RowVersion(db', q.document.checkpoint) >= RowVersion(db, q.document.checkpoint)
    requires Executes(log', q.document.checkpoint) >= Executes(log, q.document.checkpoint)
    ensures PendingOk(db', log', q)
  {
    assert Target(db', q.tenant, q.document.checkpoint) by {
      TargetKept(db, p.tenant, p.document.checkpoint, c, db', q.tenant, q.document.checkpoint);
    }
    OwnedByOtherKept(db, p.tenant, p.document.checkpoint, c, db', q.tenant);
  }

  lemma {:induction false} CommitDbInv(db: Db, log: seq<Entry>, p: Pending, now: int, db': Db)
    requires DbInv(db, log) && PendingOk(db, log, p)
    requires Upsert(db, p.tenant, p.document, now) == Ok(db')
    ensures AfterUpsert(db, p.tenant, p.document, now, db') && !OwnedByOther(db, p.tenant)
    ensures DbInv(db', log + [Upserted(p.document.checkpoint, p.kind)])
  {
    var log' := log + [Upserted(p.document.checkpoint, p.kind)];
    UpsertKeepsAgreement(db, p.tenant, p.document, now);
    forall id | id in db'.tasks
      ensures Tells(db'.tasks[id], TallyOf(log', db'.tasks[id].workflowId, id))
    {
      CommitLeasesTold(db, log, p, now, db', id);
    }
    forall cp
      ensures Counts(db', log', cp)
    {
      CommitCounts(db, log, p, now, db', cp);
    }
  }

  lemma {:induction false} CommitKeepsInv(w: World, pid: nat, now: int)
    requires Inv(w)
    ensures Inv(CommitStep(w, pid, now))
  {
    if pid in w.inflight {
      var p := w.inflight[pid];
      assert PendingOk(w.db, w.log, p);
      if Upsert(w.db, p.tenant, p.document, now).Ok? {
        var db' := Upsert(w.db, p.tenant, p.document, now).value;
        CommitDbInv(w.db, w.log, p, now, db');
        forall q | q in w.inflight - {pid}
          ensures PendingOk(db', w.log + [Upserted(p.document.checkpoint, p.kind)], w.inflight[q])
        {
          CommitPending(w.db, w.log, p, now, db', w.inflight[q]);
        }
      }
    }
  }

  /** What a commit does, in short: nothing but retire the pending write when another tenant
      owns the database; otherwise it replaces the checkpoint and rebuilds only its tasks. */
  ghost predicate CommitEffect(w: World, p: Pending, w': World) {
    var cp := p.document.checkpoint;
    if OwnedByOther(w.db, p.tenant) then w'.db == w.db && w'.log == w.log
    else
      && w'.log == w.log + [Upserted(cp, p.kind)]
      && w'.db.checkpoints == w.db.checkpoints[cp := CheckpointRow(p.tenant, p.document, RowVersion(w.db, cp) + 1)]
      && (forall x :: RowVersion(w'.db, x) == RowVersion(w.db, x) + if x == cp then 1 else 0)
      && (forall id :: id in w.db.tasks && w.db.tasks[id].workflowId != cp ==>
            id in w'.db.tasks && w'.db.tasks[id] == w.db.tasks[id])
  }

  lemma {:induction false} UpsertChanges(db: Db, p: Pending, now: int, db': Db)
    requires Upsert(db, p.tenant, p.document, now) == Ok(db')
    ensures var cp := p.document.checkpoint;
            && db'.checkpoints == db.checkpoints[cp := CheckpointRow(p.tenant, p.document, RowVersion(db, cp) + 1)]
            && (forall x :: RowVersion(db', x) == RowVersion(db, x) + if x == cp then 1 else 0)
  {
  }

  lemma {:induction false} UpsertKeepsOtherTasks(db: Db, p: Pending, now: int, db': Db, id: string)
    requires AfterUpsert(db, p.tenant, p.document, now, db')
    requires id in db.tasks && db.tasks[id].workflowId != p.document.checkpoint
    ensures id in db'.tasks && db'.tasks[id] == db.tasks[id]
  {
    assert id in OtherTasks(db.tasks, p.tenant, p.document.checkpoint);
  }

  lemma {:induction false} OutcomeIsEffect(w: World, pid: nat, now: int)
    requires pid in w.inflight
    requires var p := w.inflight[pid];
             var r := Upsert(w.db, p.tenant, p.document, now);
             && (r.Ok? <==> !OwnedByOther(w.db, p.tenant))
             && (r.Ok? ==> AfterUpsert(w.db, p.tenant, p.document, now, r.value))
    ensures CommitStep(w, pid, now).inflight == w.inflight - {pid}
    ensures CommitEffect(w, w.inflight[pid], CommitStep(w, pid, now))
  {
    var p := w.inflight[pid];
    if !OwnedByOther(w.db, p.tenant) {
      var db' := Upsert(w.db, p.tenant, p.document, now).value;
      UpsertChanges(w.db, p, now, db');
      forall id | id in w.db.tasks && w.db.tasks[id].workflowId != p.document.checkpoint
        ensures id in db'.tasks && db'.tasks[id] == w.db.tasks[id]
      {
        UpsertKeepsOtherTasks(w.db, p, now, db', id);
      }
    }
  }

  lemma {:induction false} CommitHasEffect(w: World, pid: nat, now: int)
    requires Inv(w) && pid in w.inflight
    ensures CommitStep(w, pid, now).inflight == w.inflight - {pid}
    ensures CommitEffect(w, w.inflight[pid], CommitStep(w, pid, now))
  {
    UpsertOutcome(w.db, w.log, w.inflight[pid], now);
    OutcomeIsEffect(w, pid, now);
  }

  lemma {:induction false} UpsertOutcome(db: Db, log: seq<Entry>, p: Pending, now: int)
    requires DbInv(db, log) && PendingOk(db, log, p)
    ensures Upsert(db, p.tenant, p.document, now).Ok? <==> !OwnedByOther(db, p.tenant)
    ensures !OwnedByOther(db, p.tenant) ==>
            AfterUpsert(db, p.tenant, p.document, now, Upsert(db, p.tenant, p.document, now).value)
  {
    UpsertKeepsAgreement(db, p.tenant, p.document, now);
  }

  // ---- lease sessions ----

  /** Counts and pending writes look at nothing that a lease session changes. */
  lemma {:induction false} LeaseSessionFrame(db: Db, db': Db, log: seq<Entry>, e: Entry)
    requires !e.Upserted?
    requires db'.workflows == db.workflows && db'.checkpoints == db.checkpoints
    ensures forall cp :: Counts(db, log, cp) ==> Counts(db', log + [e], cp)
    ensures forall p :: PendingOk(db, log, p) ==> PendingOk(db', log + [e], p)
  {
    forall cp | Counts(db, log, cp)
      ensures Counts(db', log + [e], cp)
    {
      TallyAfter(log, e, cp, "");
    }
    forall p | PendingOk(db, log, p)
      ensures PendingOk(db', log + [e], p)
    {
      TallyAfter(log, e, p.document.checkpoint, "");
      assert Listed(db', p.tenant) == Listed(db, p.tenant);
    }
  }

  lemma {:induction false} LeaseSessionKeepsInv(w: World, db': Db, e: Entry)
    requires Inv(w) && !e.Upserted?
    requires OnlyLeasesChanged(w.db, db')
    requires LeasesTold(db', w.log + [e])
    ensures Inv(World(db', w.inflight, w.log + [e]))
  {
    assert TablesAgree(db') by {
      LeaseChangeKeepsAgreement(w.db, db');
    }
    LeaseSessionFrame(w.db, db', w.log, e);
  }

  /** One task row and its history, through one lease session. */
  lemma {:induction false} LeaseOpTold(w: World, op: Op, id: string, h: Tally)
    requires op.LeaseTask? || op.MarkTask? || op.RecoverLeases?
    requires Do(w, op).log != w.log
    requires id in w.db.tasks && Tells(w.db.tasks[id], h)
    ensures id in Do(w, op).db.tasks && Do(w, op).db.tasks[id].workflowId == w.db.tasks[id].workflowId
    ensures Tells(Do(w, op).db.tasks[id], Counted(h, Do(w, op).log[|w.log|], w.db.tasks[id].workflowId, id))
  {
  }

  lemma {:induction false} LeaseOpsTold(w: World, op: Op)
    requires LeasesTold(w.db, w.log) && (op.LeaseTask? || op.MarkTask? || op.RecoverLeases?)
    ensures LeasesTold(Do(w, op).db, Do(w, op).log)
  {
    var w' := Do(w, op);
    if w'.log != w.log {
      var e := w'.log[|w.log|];
      assert w'.log == w.log + [e];
      forall id | id in w'.db.tasks
        ensures Tells(w'.db.tasks[id], TallyOf(w'.log, w'.db.tasks[id].workflowId, id))
      {
        var wf := w.db.tasks[id].workflowId;
        LeaseOpTold(w, op, id, TallyOf(w.log, wf, id));
        TallyAfter(w.log, e, wf, id);
      }
    }
  }

  /** A lease session leaves the world alone, or changes task rows and logs one entry. */
  lemma {:induction false} LeaseOpShape(w: World, op: Op) returns (e: Entry)
    requires op.LeaseTask? || op.MarkTask? || op.RecoverLeases?
    ensures !e.Upserted?
    ensures var w' := Do(w, op);
            w' == w || (w' == World(w'.db, w.inflight, w.log + [e]) && OnlyLeasesChanged(w.db, w'.db))
  {
    match op {
      case LeaseTask(tenant, wf, worker, seconds, now, pick) =>
        LeaseSessionsOnlyChangeLeases(w.db, tenant, wf, pick, worker, seconds, now);
        e := Granted(pick, worker);
      case MarkTask(tenant, id, worker, now) =>
        LeaseSessionsOnlyChangeLeases(w.db, tenant, "", id, worker, 0, now);
        e := Marked(id, worker);
      case RecoverLeases(tenant, now) =>
        LeaseSessionsOnlyChangeLeases(w.db, tenant, "", "", "", 0, now);
        e := ReclaimedAll(ExpiredIds(w.db, tenant, now));
    }
  }

  lemma {:induction false} LeaseOpsKeepInv(w: World, op: Op)
    requires Inv(w) && (op.LeaseTask? || op.MarkTask? || op.RecoverLeases?)
    ensures Inv(Do(w, op))
  {
    LeaseOpsTold(w, op);
    var e := LeaseOpShape(w, op);
    if Do(w, op) != w {
      LeaseSessionKeepsInv(w, Do(w, op).db, e);
    }
  }

  // ---- every run ----

  lemma {:induction false} StepKeepsInv(w: World, op: Op)
    requires Inv(w)
    ensures Inv(Do(w, op))
  {
    if op.Commit? {
      CommitKeepsInv(w, op.pid, op.now);
    } else if op.LeaseTask? || op.MarkTask? || op.RecoverLeases? {
      LeaseOpsKeepInv(w, op);
    } else if !op.Die? {
      BeginOpsKeepInv(w, op);
    }
  }

  /** In every state of every run the tables agree, every task row tells the story of its
      leases, and every pending write is well formed. */
  lemma {:induction false} RunKeepsInv(w: World, ops: seq<Op>)
    requires Inv(w)
    ensures Inv(Run(w, ops))
  {
    if ops == [] {
    } else {
      RunKeepsInv(w, ops[..|ops| - 1]);
      StepKeepsInv(Run(w, ops[..|ops| - 1]), ops[|ops| - 1]);
    }
  }
}
