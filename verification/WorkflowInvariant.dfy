/** What every upsert and lease session keeps true of the four workflow tables, for any number
    of tenants sharing one database. */
module WorkflowInvariant {
  import opened Naming
  import opened Tables
  import opened WorkflowTables
  import opened WorkflowDocuments

  /** Sequence numbers of one workflow's persisted events, in table order. */
  ghost function Sequences(events: seq<EventRow>, tenant: string, cp: string): seq<int> {
    if events == [] then []
    else
      var e := events[|events| - 1];
      Sequences(events[..|events| - 1], tenant, cp)
      + if e.tenant == tenant && e.workflowId == cp then [e.sequence] else []
  }

  ghost predicate CountsFromOne(s: seq<int>) {
    forall i :: 0 <= i < |s| ==> s[i] == i + 1
  }

  ghost predicate TaskFits(t: TaskRow, tenant: string, cp: string, s: Step) {
    && t.tenant == tenant && t.workflowId == cp
    && t.agent == s.agent && t.action == s.action
    && (s.status == Completed ==> t.status == SUCCEEDED)
  }

  ghost predicate HasTask(tasks: map<string, TaskRow>, tenant: string, cp: string, s: Step) {
    TaskId(cp, s.id) in tasks && TaskFits(tasks[TaskId(cp, s.id)], tenant, cp, s)
  }

  /** Workflow row, checkpoint row, event rows and task rows tell the same story. */
  ghost predicate Agrees(db: Db, cp: string)
    requires cp in db.checkpoints
  {
    var c := db.checkpoints[cp];
    && cp in db.workflows
    && db.workflows[cp].tenant == c.tenant
    && db.workflows[cp].version == c.version >= 1
    && db.workflows[cp].status == StatusOf(c.state.status)
    && WellFormed(c.state) && c.state.checkpoint == cp
    && |Sequences(db.events, c.tenant, cp)| == c.version
    && CountsFromOne(Sequences(db.events, c.tenant, cp))
    && forall i :: 0 <= i < |c.state.steps| ==> HasTask(db.tasks, c.tenant, cp, c.state.steps[i])
  }

  /** A task row belongs to a step of the checkpoint of its workflow. */
  ghost predicate Placed(db: Db, id: string)
    requires id in db.tasks
  {
    var cp := db.tasks[id].workflowId;
    && cp in db.checkpoints
    && db.tasks[id].tenant == db.checkpoints[cp].tenant
    && exists i :: 0 <= i < |db.checkpoints[cp].state.steps| && id == TaskId(cp, db.checkpoints[cp].state.steps[i].id)
  }

  ghost function Ids(n: nat): set<string> {
    set i | 1 <= i <= n :: CheckpointId(i)
  }

  ghost predicate OwnedByOther(db: Db, tenant: string) {
    exists cp :: cp in db.checkpoints && db.checkpoints[cp].tenant != tenant
  }

  /** Checkpoints are numbered without gaps, and all belong to one tenant. */
  ghost predicate Numbered(db: Db) {
    && db.checkpoints.Keys == Ids(|db.checkpoints|)
    && forall a, b :: a in db.checkpoints && b in db.checkpoints ==>
                        db.checkpoints[a].tenant == db.checkpoints[b].tenant
  }

  ghost predicate EventPlaced(db: Db, e: EventRow) {
    e.workflowId in db.checkpoints && db.checkpoints[e.workflowId].tenant == e.tenant
  }

  ghost predicate TablesAgree(db: Db) {
    && Numbered(db)
    && (forall cp :: cp in db.checkpoints ==> Agrees(db, cp))
    && (forall cp :: cp in db.workflows ==> cp in db.checkpoints)
    && (forall id :: id in db.tasks ==> Placed(db, id))
    && (forall i :: 0 <= i < |db.events| ==> EventPlaced(db, db.events[i]))
  }

  /** The ids a tenant's write may target: one of its checkpoints, or its next one. */
  ghost predicate Target(db: Db, tenant: string, cp: string) {
    cp in Listed(db, tenant) || cp == CheckpointId(|Listed(db, tenant)| + 1)
  }

  // ---- numbering ----

  lemma {:induction false} IdsSize(n: nat)
    ensures |Ids(n)| == n
  {
    if n == 0 {
      assert Ids(0) == {};
    } else {
      IdsSize(n - 1);
      NextIdFresh(n - 1);
      assert Ids(n) == Ids(n - 1) + {CheckpointId(n)};
    }
  }

  lemma {:induction false} NextIdFresh(n: nat)
    ensures CheckpointId(n + 1) !in Ids(n)
    ensures Ids(n + 1) == Ids(n) + {CheckpointId(n + 1)}
  {
    if CheckpointId(n + 1) in Ids(n) {
      var i :| 1 <= i <= n && CheckpointId(i) == CheckpointId(n + 1);
      CheckpointIdInjective(i, n + 1);
    }
  }

  lemma {:induction false} ListedKeys(db: Db, tenant: string)
    requires Numbered(db)
    ensures Listed(db, tenant).Keys == if OwnedByOther(db, tenant) then {} else db.checkpoints.Keys
    ensures |Listed(db, tenant)| == if OwnedByOther(db, tenant) then 0 else |db.checkpoints|
  {
    if OwnedByOther(db, tenant) {
      assert Listed(db, tenant).Keys == {};
    } else {
      assert Listed(db, tenant).Keys == db.checkpoints.Keys;
    }
    assert |Listed(db, tenant)| == |Listed(db, tenant).Keys|;
  }

  /** Every id of a checkpoint is colon-free, so task ids split back into workflow and step. */
  lemma {:induction false} KnownIdColonFree(db: Db, cp: string)
    requires Numbered(db) && cp in db.checkpoints
    ensures ColonFree(cp)
  {
    assert cp in Ids(|db.checkpoints|);
    var i :| 1 <= i <= |db.checkpoints| && CheckpointId(i) == cp;
    CheckpointIdColonFree(i);
  }

  lemma {:induction false} TargetColonFree(db: Db, tenant: string, cp: string)
    requires Numbered(db) && Target(db, tenant, cp)
    ensures ColonFree(cp)
  {
    if cp in Listed(db, tenant) {
      KnownIdColonFree(db, cp);
    } else {
      CheckpointIdColonFree(|Listed(db, tenant)| + 1);
    }
  }

  // ---- sequences ----

  lemma {:induction false} LatestIsCount(events: seq<EventRow>, tenant: string, cp: string)
    requires CountsFromOne(Sequences(events, tenant, cp))
    ensures LatestSequence(events, tenant, cp) == |Sequences(events, tenant, cp)|
  {
    if events == [] {
    } else {
      var front := events[..|events| - 1];
      var s, s' := Sequences(front, tenant, cp), Sequences(events, tenant, cp);
      assert forall i :: 0 <= i < |s| ==> s[i] == s'[i];
      LatestIsCount(front, tenant, cp);
      assert s' != [] ==> s'[|s'| - 1] == |s'|;
    }
  }

  lemma {:induction false} NoSequences(events: seq<EventRow>, tenant: string, cp: string)
    requires forall i :: 0 <= i < |events| ==> events[i].workflowId != cp
    ensures Sequences(events, tenant, cp) == []
  {
    if events == [] {
    } else {
      NoSequences(events[..|events| - 1], tenant, cp);
    }
  }

  // ---- one upsert session ----

  /** Upsert into a workflow that another tenant owns always aborts: its first task id is taken. */
  lemma {:induction false} UpsertForeign(db: Db, tenant: string, w: Workflow, now: int)
    requires TablesAgree(db) && WellFormed(w) && Target(db, tenant, w.checkpoint)
    requires OwnedByOther(db, tenant)
    ensures Upsert(db, tenant, w, now) == Conflict
  {
    ForeignTarget(db, tenant, w.checkpoint);
    FirstTask(db, w.checkpoint);
    TakenIdConflicts(db, tenant, w, now);
  }

  lemma {:induction false} FirstTask(db: Db, cp: string)
    requires cp in db.checkpoints && Agrees(db, cp)
    ensures var id := TaskId(cp, StepId(1));
            id in db.tasks && db.tasks[id].tenant == db.checkpoints[cp].tenant
  {
    assert HasTask(db.tasks, db.checkpoints[cp].tenant, cp, db.checkpoints[cp].state.steps[0]);
  }

  lemma {:induction false} TakenIdConflicts(db: Db, tenant: string, w: Workflow, now: int)
    requires w.steps != [] && w.steps[0].id == StepId(1)
    requires var id := TaskId(w.checkpoint, StepId(1));
             id in db.tasks && db.tasks[id].tenant != tenant
    ensures Upsert(db, tenant, w, now) == Conflict
  {
    var others, rows := OtherTasks(db.tasks, tenant, w.checkpoint), TaskRows(tenant, w.checkpoint, w.steps, now);
    assert rows[0].0 in others;
    InsertAllOutcome(others, rows);
  }

  /** The target of a tenant that owns nothing is checkpoint-1, which somebody else has. */
  lemma {:induction false} ForeignTarget(db: Db, tenant: string, cp: string)
    requires Numbered(db) && Target(db, tenant, cp) && OwnedByOther(db, tenant)
    ensures cp in db.checkpoints && db.checkpoints[cp].tenant != tenant
  {
    ListedKeys(db, tenant);
    var x :| x in db.checkpoints && db.checkpoints[x].tenant != tenant;
    assert |db.checkpoints| > 0;
    assert CheckpointId(1) in Ids(|db.checkpoints|);
  }

  /** A task row outside the tenant's workflow never has one of its task ids. */
  lemma {:induction false} OtherTaskIds(db: Db, tenant: string, cp: string, id: string, step: string)
    requires Numbered(db) && ColonFree(cp) && !OwnedByOther(db, tenant)
    requires id in OtherTasks(db.tasks, tenant, cp) && Placed(db, id)
    ensures id != TaskId(cp, step)
  {
    var cp' := db.tasks[id].workflowId;
    var i :| 0 <= i < |db.checkpoints[cp'].state.steps| && id == TaskId(cp', db.checkpoints[cp'].state.steps[i].id);
    KnownIdColonFree(db, cp');
    if id == TaskId(cp, step) {
      SplitAtFirstColon(cp', db.checkpoints[cp'].state.steps[i].id, cp, step);
    }
  }

  lemma {:induction false} TaskRowsDistinct(tenant: string, w: Workflow, now: int)
    requires WellFormed(w)
    ensures var rows := TaskRows(tenant, w.checkpoint, w.steps, now);
            forall i, j :: 0 <= i < j < |rows| ==> rows[i].0 != rows[j].0
  {
    var rows := TaskRows(tenant, w.checkpoint, w.steps, now);
    forall i, j | 0 <= i < j < |rows|
      ensures rows[i].0 != rows[j].0
    {
      DistinctTaskIds(w.checkpoint, i + 1, j + 1);
    }
  }

  /** The new task rows have distinct ids, none of them taken. */
  lemma {:induction false} TaskRowsFresh(db: Db, tenant: string, w: Workflow, now: int)
    requires Numbered(db) && (forall id :: id in db.tasks ==> Placed(db, id))
    requires WellFormed(w) && ColonFree(w.checkpoint) && !OwnedByOther(db, tenant)
    ensures FreshKeys(OtherTasks(db.tasks, tenant, w.checkpoint), TaskRows(tenant, w.checkpoint, w.steps, now))
  {
    var cp := w.checkpoint;
    var others, rows := OtherTasks(db.tasks, tenant, cp), TaskRows(tenant, cp, w.steps, now);
    TaskRowsDistinct(tenant, w, now);
    forall i | 0 <= i < |rows|
      ensures rows[i].0 !in others
    {
      if rows[i].0 in others {
        OtherTaskIds(db, tenant, cp, rows[i].0, w.steps[i].id);
      }
    }
  }

  lemma {:induction false} FreshRowsInsert(db: Db, tenant: string, w: Workflow, now: int)
    requires FreshKeys(OtherTasks(db.tasks, tenant, w.checkpoint), TaskRows(tenant, w.checkpoint, w.steps, now))
    ensures Upsert(db, tenant, w, now).Ok? && AfterUpsert(db, tenant, w, now, Upsert(db, tenant, w, now).value)
  {
    InsertAllOutcome(OtherTasks(db.tasks, tenant, w.checkpoint), TaskRows(tenant, w.checkpoint, w.steps, now));
  }

  lemma {:induction false} UpsertOwnSucceeds(db: Db, tenant: string, w: Workflow, now: int)
    requires Numbered(db) && (forall id :: id in db.tasks ==> Placed(db, id))
    requires WellFormed(w) && Target(db, tenant, w.checkpoint) && !OwnedByOther(db, tenant)
    ensures Upsert(db, tenant, w, now).Ok? && AfterUpsert(db, tenant, w, now, Upsert(db, tenant, w, now).value)
  {
    TargetColonFree(db, tenant, w.checkpoint);
    TaskRowsFresh(db, tenant, w, now);
    FreshRowsInsert(db, tenant, w, now);
  }

  lemma {:induction false} DistinctTaskIds(cp: string, m: nat, n: nat)
    requires m != n
    ensures TaskId(cp, StepId(m)) != TaskId(cp, StepId(n))
  {
    if TaskId(cp, StepId(m)) == TaskId(cp, StepId(n)) {
      assert TaskId(cp, StepId(m))[|cp| + 1..] == StepId(m);
      assert TaskId(cp, StepId(n))[|cp| + 1..] == StepId(n);
      StepIdInjective(m, n);
    }
  }

  /** Facts about the state after a successful upsert, free of string arithmetic. */
  ghost predicate AfterUpsert(db: Db, tenant: string, w: Workflow, now: int, db': Db) {
    var cp := w.checkpoint;
    && Upsert(db, tenant, w, now) == Ok(db')
    && Extends(OtherTasks(db.tasks, tenant, cp), TaskRows(tenant, cp, w.steps, now), db'.tasks)
  }

  lemma {:induction false} CheckpointsNumbered(db: Db, tenant: string, cp: string, c: CheckpointRow, db': Db)
    requires Numbered(db) && Target(db, tenant, cp) && !OwnedByOther(db, tenant)
    requires db'.checkpoints == db.checkpoints[cp := c] && c.tenant == tenant
    ensures Numbered(db') && !OwnedByOther(db', tenant)
    ensures |db'.checkpoints| == |db.checkpoints| + if cp in db.checkpoints then 0 else 1
    ensures cp in db.checkpoints || cp == CheckpointId(|db.checkpoints| + 1)
  {
    TargetIsNext(db, tenant, cp);
    var keys, keys' := db.checkpoints.Keys, db'.checkpoints.Keys;
    assert keys' == keys + {cp};
    assert |db.checkpoints| == |keys| && |db'.checkpoints| == |keys'|;
    NumberedKeys(keys, cp);
    OneOwnerKept(db, tenant, cp, c, db');
  }

  lemma {:induction false} OneOwnerKept(db: Db, tenant: string, cp: string, c: CheckpointRow, db': Db)
    requires !OwnedByOther(db, tenant)
    requires db'.checkpoints == db.checkpoints[cp := c] && c.tenant == tenant
    ensures !OwnedByOther(db', tenant)
    ensures forall x :: x in db'.checkpoints ==> db'.checkpoints[x].tenant == tenant
  {
  }

  lemma {:induction false} TargetIsNext(db: Db, tenant: string, cp: string)
    requires Numbered(db) && Target(db, tenant, cp) && !OwnedByOther(db, tenant)
    ensures cp in db.checkpoints || cp == CheckpointId(|db.checkpoints| + 1)
  {
    ListedKeys(db, tenant);
  }

  lemma {:induction false} NumberedKeys(keys: set<string>, cp: string)
    requires keys == Ids(|keys|)
    requires cp in keys || cp == CheckpointId(|keys| + 1)
    ensures |keys + {cp}| == |keys| + if cp in keys then 0 else 1
    ensures keys + {cp} == Ids(|keys + {cp}|)
  {
    if cp in keys {
      assert keys + {cp} == keys;
    } else {
      NextIdFresh(|keys|);
    }
  }

  lemma {:induction false} UpsertPlaced(db: Db, tenant: string, w: Workflow, now: int, db': Db, id: string)
    requires !OwnedByOther(db, tenant) && (id in db.tasks ==> Placed(db, id))
    requires AfterUpsert(db, tenant, w, now, db')
    requires id in db'.tasks
    ensures Placed(db', id)
  {
    var cp := w.checkpoint;
    var others, rows := OtherTasks(db.tasks, tenant, cp), TaskRows(tenant, cp, w.steps, now);
    if id in others {
      assert db'.tasks[id] == db.tasks[id] && db.tasks[id].workflowId != cp;
    } else {
      var i :| 0 <= i < |rows| && rows[i].0 == id;
      assert db'.tasks[id] == rows[i].1 && id == TaskId(cp, w.steps[i].id);
    }
  }

  lemma {:induction false} UpsertEventsPlaced(db: Db, tenant: string, w: Workflow, now: int, db': Db)
    requires forall i :: 0 <= i < |db.events| ==> EventPlaced(db, db.events[i])
    requires !OwnedByOther(db, tenant)
    requires Upsert(db, tenant, w, now) == Ok(db')
    ensures forall i :: 0 <= i < |db'.events| ==> EventPlaced(db', db'.events[i])
  {
    assert forall cp :: cp in db.checkpoints ==>
                          cp in db'.checkpoints && db'.checkpoints[cp].tenant == db.checkpoints[cp].tenant;
    forall i | 0 <= i < |db'.events|
      ensures EventPlaced(db', db'.events[i])
    {
      if i < |db.events| {
        assert db'.events[i] == db.events[i] && EventPlaced(db, db.events[i]);
      }
    }
  }

  lemma {:induction false} UpsertSequences(db: Db, tenant: string, w: Workflow, now: int, db': Db, t: string,
        cp: string)
    requires Upsert(db, tenant, w, now) == Ok(db')
    ensures Sequences(db'.events, t, cp) ==
            Sequences(db.events, t, cp)
            + if t == tenant && cp == w.checkpoint then [LatestSequence(db.events, tenant, cp) + 1] else []
  {
    assert db'.events[..|db'.events| - 1] == db.events;
  }

  /** A workflow has as many events as its version says, and none before it exists. */
  lemma {:induction false} EventsSoFar(db: Db, tenant: string, cp: string)
    requires TablesAgree(db) && !OwnedByOther(db, tenant)
    ensures var s := Sequences(db.events, tenant, cp);
            CountsFromOne(s) && |s| == if cp in db.checkpoints then db.checkpoints[cp].version else 0
  {
    if cp in db.checkpoints {
      assert Agrees(db, cp);
    } else {
      forall i | 0 <= i < |db.events|
        ensures db.events[i].workflowId != cp
      {
        assert EventPlaced(db, db.events[i]);
      }
      NoSequences(db.events, tenant, cp);
    }
  }

  lemma {:induction false} NextEventFollows(db: Db, tenant: string, w: Workflow, now: int, db': Db)
    requires CountsFromOne(Sequences(db.events, tenant, w.checkpoint))
    requires Upsert(db, tenant, w, now) == Ok(db')
    ensures CountsFromOne(Sequences(db'.events, tenant, w.checkpoint))
    ensures |Sequences(db'.events, tenant, w.checkpoint)| == |Sequences(db.events, tenant, w.checkpoint)| + 1
  {
    LatestIsCount(db.events, tenant, w.checkpoint);
    UpsertSequences(db, tenant, w, now, db', tenant, w.checkpoint);
  }

  lemma {:induction false} UpsertNumbersEvents(db: Db, tenant: string, w: Workflow, now: int, db': Db)
    requires TablesAgree(db) && !OwnedByOther(db, tenant)
    requires Upsert(db, tenant, w, now) == Ok(db')
    ensures var s := Sequences(db'.events, tenant, w.checkpoint);
            CountsFromOne(s) && |s| == if w.checkpoint in db.checkpoints
                then db.checkpoints[w.checkpoint].version + 1 else 1
  {
    EventsSoFar(db, tenant, w.checkpoint);
    NextEventFollows(db, tenant, w, now, db');
  }

  lemma {:induction false} UpsertHasTasks(db: Db, tenant: string, w: Workflow, now: int, db': Db, i: nat)
    requires AfterUpsert(db, tenant, w, now, db')
    requires i < |w.steps|
    ensures HasTask(db'.tasks, tenant, w.checkpoint, w.steps[i])
  {
    var rows := TaskRows(tenant, w.checkpoint, w.steps, now);
    assert rows[i].0 in db'.tasks && db'.tasks[rows[i].0] == rows[i].1;
  }

  lemma {:induction false} UpsertAgreesSelf(db: Db, tenant: string, w: Workflow, now: int, db': Db)
    requires TablesAgree(db) && WellFormed(w) && !OwnedByOther(db, tenant)
    requires AfterUpsert(db, tenant, w, now, db')
    ensures Agrees(db', w.checkpoint)
  {
    var cp := w.checkpoint;
    assert cp in db.checkpoints ==> Agrees(db, cp);
    UpsertNumbersEvents(db, tenant, w, now, db');
    forall i | 0 <= i < |w.steps|
      ensures HasTask(db'.tasks, tenant, cp, w.steps[i])
    {
      UpsertHasTasks(db, tenant, w, now, db', i);
    }
  }

  lemma {:induction false} UpsertKeepsTask(db: Db, tenant: string, w: Workflow, now: int, db': Db, t: string,
        cp: string, s: Step)
    requires AfterUpsert(db, tenant, w, now, db')
    requires HasTask(db.tasks, t, cp, s) && cp != w.checkpoint
    ensures HasTask(db'.tasks, t, cp, s)
  {
    assert TaskId(cp, s.id) in OtherTasks(db.tasks, tenant, w.checkpoint);
  }

  lemma {:induction false} UpsertAgreesOther(db: Db, tenant: string, w: Workflow, now: int, db': Db, cp: string)
    requires AfterUpsert(db, tenant, w, now, db')
    requires cp in db.checkpoints && cp != w.checkpoint && Agrees(db, cp)
    ensures cp in db'.checkpoints && Agrees(db', cp)
  {
    var c := db.checkpoints[cp];
    assert db'.checkpoints[cp] == c;
    UpsertSequences(db, tenant, w, now, db', c.tenant, cp);
    forall i | 0 <= i < |c.state.steps|
      ensures HasTask(db'.tasks, c.tenant, cp, c.state.steps[i])
    {
      UpsertKeepsTask(db, tenant, w, now, db', c.tenant, cp, c.state.steps[i]);
    }
  }

  lemma {:induction false} UpsertTasksPlaced(db: Db, tenant: string, w: Workflow, now: int, db': Db)
    requires !OwnedByOther(db, tenant) && (forall id :: id in db.tasks ==> Placed(db, id))
    requires AfterUpsert(db, tenant, w, now, db')
    ensures forall id :: id in db'.tasks ==> Placed(db', id)
  {
    forall id | id in db'.tasks
      ensures Placed(db', id)
    {
      UpsertPlaced(db, tenant, w, now, db', id);
    }
  }

  lemma {:induction false} UpsertAllAgree(db: Db, tenant: string, w: Workflow, now: int, db': Db)
    requires TablesAgree(db) && WellFormed(w) && !OwnedByOther(db, tenant)
    requires AfterUpsert(db, tenant, w, now, db')
    ensures forall cp :: cp in db'.checkpoints ==> Agrees(db', cp)
  {
    forall cp | cp in db'.checkpoints
      ensures Agrees(db', cp)
    {
      if cp == w.checkpoint {
        UpsertAgreesSelf(db, tenant, w, now, db');
      } else {
        UpsertAgreesOther(db, tenant, w, now, db', cp);
      }
    }
  }

  lemma {:induction false} UpsertKeepsTables(db: Db, tenant: string, w: Workflow, now: int, db': Db)
    requires TablesAgree(db) && WellFormed(w) && Target(db, tenant, w.checkpoint) && !OwnedByOther(db, tenant)
    requires AfterUpsert(db, tenant, w, now, db')
    ensures TablesAgree(db') && !OwnedByOther(db', tenant)
  {
    CheckpointsNumbered(db, tenant, w.checkpoint, db'.checkpoints[w.checkpoint], db');
    UpsertTasksPlaced(db, tenant, w, now, db');
    UpsertEventsPlaced(db, tenant, w, now, db');
    UpsertAllAgree(db, tenant, w, now, db');
  }

  /** Upsert keeps the tables in agreement, and succeeds exactly when no other tenant owns a
      workflow in the database. */
  lemma {:induction false} UpsertKeepsAgreement(db: Db, tenant: string, w: Workflow, now: int)
    requires TablesAgree(db) && WellFormed(w) && Target(db, tenant, w.checkpoint)
    ensures Upsert(db, tenant, w, now).Ok? <==> !OwnedByOther(db, tenant)
    ensures !OwnedByOther(db, tenant) ==>
            && AfterUpsert(db, tenant, w, now, Upsert(db, tenant, w, now).value)
            && TablesAgree(Upsert(db, tenant, w, now).value)
            && !OwnedByOther(Upsert(db, tenant, w, now).value, tenant)
  {
    if OwnedByOther(db, tenant) {
      UpsertForeign(db, tenant, w, now);
    } else {
      UpsertOwnSucceeds(db, tenant, w, now);
      UpsertKeepsTables(db, tenant, w, now, Upsert(db, tenant, w, now).value);
    }
  }

  // ---- lease sessions ----

  /** Task rows may change in any column but tenant, workflow, agent and action, and never
      leave SUCCEEDED: that is all the lease sessions do to the tables. */
  ghost predicate OnlyLeasesChanged(db: Db, db': Db) {
    && db'.workflows == db.workflows && db'.checkpoints == db.checkpoints && db'.events == db.events
    && db'.tasks.Keys == db.tasks.Keys
    && forall id :: id in db.tasks ==> LeaseChange(db.tasks[id], db'.tasks[id])
  }

  ghost predicate LeaseChange(t: TaskRow, t': TaskRow) {
    && t'.tenant == t.tenant && t'.workflowId == t.workflowId && t'.agent == t.agent && t'.action == t.action
    && (t.status == SUCCEEDED ==> t' == t)
  }

  lemma {:induction false} LeaseSessionsOnlyChangeLeases(db: Db, tenant: string, wf: string, id: string,
        worker: string, seconds: int, now: int)
    ensures Leasable(db, tenant, wf, id) ==> OnlyLeasesChanged(db, Lease(db, id, worker, seconds, now))
    ensures OnlyLeasesChanged(db, Mark(db, tenant, id, worker, now))
    ensures OnlyLeasesChanged(db, RecoverExpired(db, tenant, now))
  {
  }

  lemma {:induction false} LeaseChangeKeepsTask(db: Db, db': Db, tenant: string, cp: string, s: Step)
    requires OnlyLeasesChanged(db, db') && HasTask(db.tasks, tenant, cp, s)
    ensures HasTask(db'.tasks, tenant, cp, s)
  {
    assert LeaseChange(db.tasks[TaskId(cp, s.id)], db'.tasks[TaskId(cp, s.id)]);
  }

  lemma {:induction false} LeaseChangeKeepsWorkflow(db: Db, db': Db, cp: string)
    requires OnlyLeasesChanged(db, db') && cp in db.checkpoints && Agrees(db, cp)
    ensures Agrees(db', cp)
  {
    var c := db.checkpoints[cp];
    forall i | 0 <= i < |c.state.steps|
      ensures HasTask(db'.tasks, c.tenant, cp, c.state.steps[i])
    {
      LeaseChangeKeepsTask(db, db', c.tenant, cp, c.state.steps[i]);
    }
  }

  lemma {:induction false} LeaseChangeKeepsAgreement(db: Db, db': Db)
    requires TablesAgree(db) && OnlyLeasesChanged(db, db')
    ensures TablesAgree(db')
  {
    forall cp | cp in db'.checkpoints
      ensures Agrees(db', cp)
    {
      LeaseChangeKeepsWorkflow(db, db', cp);
    }
    forall id | id in db'.tasks
      ensures Placed(db', id)
    {
      assert Placed(db, id);
    }
    forall i | 0 <= i < |db'.events|
      ensures EventPlaced(db', db'.events[i])
    {
      assert EventPlaced(db, db.events[i]);
    }
  }
}
