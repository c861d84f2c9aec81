/** The workflow store and engine as objects: the tables are fields that sessions reassign. */
module WorkflowStore {
  import opened Tables
  import opened WorkflowTables
  import opened WorkflowDocuments
  import WorkflowRuns

  class Database {
    var workflows: map<string, WorkflowRow>
    var tasks: map<string, TaskRow>
    var checkpoints: map<string, CheckpointRow>
    var events: seq<EventRow>

    constructor ()
      ensures Value() == EMPTY
    {
      workflows, tasks, checkpoints, events := map[], map[], map[], [];
    }

    ghost function Value(): Db
      reads this
    {
      Db(workflows, tasks, checkpoints, events)
    }
  }

  /** One tenant's view of the database. */
  class WorkflowStateStore {
    const database: Database
    const tenant: string

    constructor (database: Database, tenant: string)
      ensures this.database == database && this.tenant == tenant
    {
      this.database, this.tenant := database, tenant;
    }

    /** One session: commits all four tables, or leaves them as they were. */
    method UpsertWorkflow(w: Workflow, now: int) returns (r: Result<()>)
      modifies database
      ensures r.Ok? <==> Upsert(old(database.Value()), tenant, w, now).Ok?
      ensures !r.Ok? ==> r == Conflict && database.Value() == old(database.Value())
      ensures r.Ok? ==> database.Value() == Upsert(old(database.Value()), tenant, w, now).value
    {
      var cp := w.checkpoint;
      var row := WorkflowRowAfter(database.workflows, tenant, w, now);
      var others := OtherTasks(database.tasks, tenant, cp);
      var tasks := others;
      ghost var rows := TaskRows(tenant, cp, w.steps, now);
      for i := 0 to |w.steps|
        invariant InsertAll(others, rows[..i]) == Some(tasks)
      {
        var id := TaskId(cp, w.steps[i].id);
        assert rows[..i + 1][..i] == rows[..i];
        if id in tasks {
          AbortedInsert(others, rows, i + 1);
          return Conflict;
        }
        tasks := tasks[id := NewTask(tenant, cp, w.steps[i], now)];
      }
      assert rows[..|w.steps|] == rows;
      var sequence := NextSequence(cp);
      database.workflows := database.workflows[cp := row];
      database.tasks := tasks;
      database.checkpoints := database.checkpoints[cp := CheckpointRow(tenant, w, row.version)];
      database.events := database.events + [EventRow(tenant, cp, sequence, w.status)];
      return Ok(());
    }

    method NextSequence(workflowId: string) returns (sequence: int)
      ensures sequence == LatestSequence(database.events, tenant, workflowId) + 1
    {
      var latest := 0;
      for i := 0 to |database.events|
        invariant latest == LatestSequence(database.events[..i], tenant, workflowId)
      {
        assert database.events[..i + 1][..i] == database.events[..i];
        var e := database.events[i];
        if e.tenant == tenant && e.workflowId == workflowId && e.sequence > latest {
          latest := e.sequence;
        }
      }
      assert database.events[..|database.events|] == database.events;
      sequence := latest + 1;
    }

    method GetWorkflow(checkpoint: string) returns (r: Result<Workflow>)
      ensures r == Get(database.Value(), tenant, checkpoint)
    {
      if checkpoint !in database.checkpoints || database.checkpoints[checkpoint].tenant != tenant {
        return NotFound;
      }
      r := Ok(database.checkpoints[checkpoint].state);
    }

    method ListWorkflows() returns (r: map<string, Workflow>)
      ensures r == Listed(database.Value(), tenant)
    {
      var checkpoints := database.checkpoints;
      r := map cp | cp in checkpoints && checkpoints[cp].tenant == tenant :: checkpoints[cp].state;
    }

    /** Leases a task that comes first by creation time, if any task can be leased. */
    method LeaseNextTask(workflowId: string, worker: string, seconds: int, now: int) returns (r: Option<string>)
      modifies database
      ensures r.None? ==> database.Value() == old(database.Value())
      ensures r.None? ==> forall id :: !Leasable(old(database.Value()), tenant, workflowId, id)
      ensures r.Some? ==> EarliestLeasable(old(database.Value()), tenant, workflowId, r.value)
      ensures r.Some? ==> database.Value() == Lease(old(database.Value()), r.value, worker, seconds, now)
    {
      ghost var db := database.Value();
      var best: Option<string> := None;
      var todo := database.tasks.Keys;
      while todo != {}
        invariant todo <= database.tasks.Keys
        invariant best.None? ==> forall id :: id !in todo ==> !Leasable(db, tenant, workflowId, id)
        invariant best.Some? ==> Leasable(db, tenant, workflowId, best.value)
        invariant best.Some? ==> forall id :: id !in todo && Leasable(db, tenant, workflowId, id) ==>
                                   db.tasks[best.value].createdAt <= db.tasks[id].createdAt
        decreases todo
      {
        var id :| id in todo;
        todo := todo - {id};
        var t := database.tasks[id];
        if t.tenant == tenant && t.workflowId == workflowId && t.status in {PENDING, TIMED_OUT} {
          if best.None? || t.createdAt < database.tasks[best.value].createdAt {
            best := Some(id);
          }
        }
      }
      if best.Some? {
        database.tasks := database.tasks[best.value := LeasedTask(database.tasks[best.value], worker, seconds, now)];
      }
      return best;
    }

    method MarkTaskSucceeded(id: string, worker: string, now: int) returns (ok: bool)
      modifies database
      ensures ok <==> MarkAccepted(old(database.Value()), tenant, id, worker)
      ensures database.Value() == Mark(old(database.Value()), tenant, id, worker, now)
    {
      if id !in database.tasks {
        return false;
      }
      var t := database.tasks[id];
      if t.tenant != tenant || t.leaseOwner != Some(worker) || t.status == SUCCEEDED {
        return false;
      }
      database.tasks := database.tasks[id := t.(status := SUCCEEDED, updatedAt := now)];
      return true;
    }

    /** Reclaims every expired lease of the tenant and returns how many there were. */
    method RecoverExpiredLeases(now: int) returns (recovered: nat)
      modifies database
      ensures database.Value() == RecoverExpired(old(database.Value()), tenant, now)
      ensures recovered == |ExpiredIds(old(database.Value()), tenant, now)|
    {
      ghost var db := database.Value();
      var expired := set id | id in database.tasks && Expired(database.tasks[id], tenant, now);
      ghost var all := expired;
      recovered := 0;
      while expired != {}
        invariant expired <= all
        invariant recovered + |expired| == |all|
        invariant database.Value() == db.(tasks := database.tasks)
        invariant database.tasks.Keys == db.tasks.Keys
        invariant forall id :: id in db.tasks ==>
                    database.tasks[id] == if id in all && id !in expired then Reclaimed(db.tasks[id]) else db.tasks[id]
        decreases expired
      {
        var id :| id in expired;
        expired := expired - {id};
        database.tasks := database.tasks[id := Reclaimed(database.tasks[id])];
        recovered := recovered + 1;
      }
    }
  }

  /** Once an insertion aborts, adding more rows does not help. */
  lemma {:induction false} AbortedInsert<K, V>(table: map<K, V>, rows: seq<(K, V)>, i: nat)
    requires i <= |rows| && InsertAll(table, rows[..i]).None?
    ensures InsertAll(table, rows).None?
    decreases |rows|
  {
    if i < |rows| {
      assert rows[..|rows| - 1][..i] == rows[..i];
      AbortedInsert(table, rows[..|rows| - 1], i);
    } else {
      assert rows[..i] == rows;
    }
  }

  class WorkflowEngine {
    const store: WorkflowStateStore

    constructor (store: WorkflowStateStore)
      ensures this.store == store
    {
      this.store := store;
    }

    method Plan(task: string, agents: Option<seq<string>>, now: int) returns (r: Result<Workflow>)
      modifies store.database
      ensures var db := old(store.database.Value());
              var doc := PlanDocument(CheckpointId(|Listed(db, store.tenant)| + 1), task, Crew(agents), now);
              Persisted(db, store.tenant, doc, now, r, store.database.Value())
    {
      var crew := Crew(agents);
      var listed := store.ListWorkflows();
      var checkpoint := CheckpointId(|listed| + 1);
      var steps := [];
      for i := 0 to |crew|
        invariant steps == PlanDocument(checkpoint, task, crew, now).steps[..i]
      {
        steps := steps + [PlannedStep(checkpoint, task, crew[i], i + 1)];
      }
      var w := Workflow(task, steps, checkpoint, Planned, now, now, [WorkflowPlanned(checkpoint, now)]);
      assert w == PlanDocument(checkpoint, task, crew, now);
      var u := store.UpsertWorkflow(w, now);
      r := if u.Ok? then Ok(w) else Conflict;
    }

    /** Runs every step that is not completed, once, and persists the result. */
    method Execute(checkpoint: string, now: int) returns (r: Result<Workflow>)
      modifies store.database
      ensures var db := old(store.database.Value());
              match Get(db, store.tenant, checkpoint)
              case Ok(doc) =>
                if Executable(doc)
                then Persisted(db, store.tenant, ExecuteDocument(doc, now), now, r, store.database.Value())
                else r == Ok(doc) && store.database.Value() == db
              case _ => r == NotFound && store.database.Value() == db
    {
      r := store.GetWorkflow(checkpoint);
      if !r.Ok? || !Executable(r.value) {
        return;
      }
      var w := r.value;
      var steps, events := w.steps, w.events;
      for i := 0 to |steps|
        invariant |steps| == |w.steps| && steps[i..] == w.steps[i..]
        invariant steps[..i] == RunSteps(w.task, w.steps[..i], now).0
        invariant events == w.events + RunSteps(w.task, w.steps[..i], now).1
      {
        var s := steps[i];
        assert s == w.steps[i] && w.steps[..i + 1][..i] == w.steps[..i];
        if s.status != Completed {
          var observation := Observation(w.task, s, now);
          steps := steps[i := s.(status := Completed, observations := s.observations + [observation])];
          events := events + [observation];
        }
        assert steps[i + 1..] == w.steps[i + 1..];
        assert steps[..i + 1] == steps[..i] + [steps[i]];
      }
      assert steps == steps[..|steps|] && w.steps[..|w.steps|] == w.steps;
      w := w.(steps := steps, status := Completed, updatedAt := now,
              events := events + [WorkflowCompleted(w.checkpoint, now)]);
      var u := store.UpsertWorkflow(w, now);
      r := if u.Ok? then Ok(w) else Conflict;
    }

    method Recover(checkpoint: string, now: int) returns (r: Result<Workflow>)
      modifies store.database
      ensures var db := old(store.database.Value());
              match Get(db, store.tenant, checkpoint)
              case Ok(doc) => Persisted(db, store.tenant, RecoverDocument(doc, now), now, r, store.database.Value())
              case _ => r == NotFound && store.database.Value() == db
    {
      r := store.GetWorkflow(checkpoint);
      if !r.Ok? {
        return;
      }
      var w := r.value.(status := Recovered, updatedAt := now);
      var u := store.UpsertWorkflow(w, now);
      r := if u.Ok? then Ok(w) else Conflict;
    }
  }

  /** The document was persisted and returned, or the session aborted and nothing changed. */
  ghost predicate Persisted(db: Db, tenant: string, doc: Workflow, now: int, r: Result<Workflow>, db': Db) {
    match Upsert(db, tenant, doc, now)
    case Ok(after) => r == Ok(doc) && db' == after
    case _ => r == Conflict && db' == db
  }

  /** An engine call is a read session followed at once by its write session: what the methods
      above leave in the database is what the corresponding two steps of a run leave there. */
  lemma {:induction false} CallsAreTwoSessions(w: WorkflowRuns.World, pid: nat, tenant: string, task: string,
        agents: Option<seq<string>>,
                            checkpoint: string, now: int, r: Result<Workflow>, db': Db)
    requires pid !in w.inflight
    ensures var doc := PlanDocument(CheckpointId(|Listed(w.db, tenant)| + 1), task, Crew(agents), now);
            Persisted(w.db, tenant, doc, now, r, db') ==>
              db' == WorkflowRuns.Do(WorkflowRuns.Do(w, WorkflowRuns.BeginPlan(pid, tenant, task, agents, now)),
                  WorkflowRuns.Commit(pid, now)).db
    ensures var got := Get(w.db, tenant, checkpoint);
            got.Ok? && Executable(got.value) && Persisted(w.db, tenant, ExecuteDocument(got.value, now), now, r,
                db') ==>
              db' == WorkflowRuns.Do(WorkflowRuns.Do(w, WorkflowRuns.BeginExecute(pid, tenant, checkpoint, now)),
                  WorkflowRuns.Commit(pid, now)).db
    ensures var got := Get(w.db, tenant, checkpoint);
            got.Ok? && Persisted(w.db, tenant, RecoverDocument(got.value, now), now, r, db') ==>
              db' == WorkflowRuns.Do(WorkflowRuns.Do(w, WorkflowRuns.BeginRecover(pid, tenant, checkpoint, now)),
                  WorkflowRuns.Commit(pid, now)).db
  {
  }
}
