/** What each engine call and each lease session does, told from its arguments: the documents,
    rows and events that a call leaves behind, and how long a lease lasts. */
module WorkflowLaws {
  import opened Tables
  import opened WorkflowTables
  import opened WorkflowDocuments
  import opened WorkflowInvariant
  import opened WorkflowRuns
  import opened WorkflowTheorems
  import opened WorkflowConservation

  // ---- what a write leaves in the workflow and event tables ----

  lemma {:induction false} NextSequenceIsVersion(w: World, tenant: string, cp: string)
    requires Reachable(w) && !OwnedByOther(w.db, tenant)
    ensures LatestSequence(w.db.events, tenant, cp) == RowVersion(w.db, cp)
  {
    ReachableInv(w);
    EventsSoFar(w.db, tenant, cp);
    LatestIsCount(w.db.events, tenant, cp);
    if cp in w.db.checkpoints {
      assert Agrees(w.db, cp);
    }
  }

  /** The row takes the document's status and the time, keeps its task if there was one, and is one
      version on; the event log gains one event with that version and the document's status. */
  ghost predicate Written(db: Db, p: Pending, now: int, db': Db) {
    var cp := p.document.checkpoint;
    var known, version := cp in db.workflows, RowVersion(db, cp) + 1;
    && cp in db'.workflows
    && db'.workflows[cp].status == StatusOf(p.document.status)
    && db'.workflows[cp].updatedAt == now && db'.workflows[cp].version == version
    && db'.workflows[cp].task == (if known then db.workflows[cp].task else p.document.task)
    && db'.events == db.events + [EventRow(p.tenant, cp, version, p.document.status)]
    && (forall other :: other in db.workflows && other != cp ==>
          other in db'.workflows && db'.workflows[other] == db.workflows[other])
  }

  lemma {:induction false} UpsertWrites(db: Db, p: Pending, now: int, db': Db)
    requires Upsert(db, p.tenant, p.document, now) == Ok(db')
    requires LatestSequence(db.events, p.tenant, p.document.checkpoint) == RowVersion(db, p.document.checkpoint)
    ensures Written(db, p, now, db')
  {
  }

  lemma {:induction false} CommitIsUpsert(w: World, pid: nat, now: int)
    requires Reachable(w) && pid in w.inflight && !OwnedByOther(w.db, w.inflight[pid].tenant)
    ensures Upsert(w.db, w.inflight[pid].tenant, w.inflight[pid].document, now) == Ok(CommitStep(w, pid, now).db)
  {
    ReachableInv(w);
    UpsertOutcome(w.db, w.log, w.inflight[pid], now);
  }

  /** What every write that persists leaves in the workflow and event tables. */
  lemma {:induction false} CommitWrites(w: World, pid: nat, now: int)
    requires Reachable(w) && pid in w.inflight && !OwnedByOther(w.db, w.inflight[pid].tenant)
    ensures Written(w.db, w.inflight[pid], now, CommitStep(w, pid, now).db)
  {
    NextSequenceIsVersion(w, w.inflight[pid].tenant, w.inflight[pid].document.checkpoint);
    CommitIsUpsert(w, pid, now);
    UpsertWrites(w.db, w.inflight[pid], now, CommitStep(w, pid, now).db);
  }

  lemma {:induction false} OwnWritten(w: World, pid: nat, p: Pending, b: World, now: int)
    requires Reachable(w) && Reachable(b) && b == w.(inflight := w.inflight[pid := p])
    requires p.document.checkpoint in w.db.checkpoints
    requires w.db.checkpoints[p.document.checkpoint].tenant == p.tenant
    ensures Written(w.db, p, now, CommitStep(b, pid, now).db)
  {
    ReachableNumbered(w);
    OwnerIsAlone(w.db, p.document.checkpoint);
    CommitWrites(b, pid, now);
  }

  /** The document has landed, and the row says so. */
  ghost predicate Landed(w: World, tenant: string, doc: Workflow, status: Status, w': World) {
    && Reachable(w') && w'.inflight == w.inflight && Get(w'.db, tenant, doc.checkpoint) == Ok(doc)
    && doc.checkpoint in w'.db.workflows && w'.db.workflows[doc.checkpoint].status == status
  }

  /** A write of the owner to one of its workflows, read and persisted at once. */
  lemma {:induction false} OwnWrite(w: World, pid: nat, p: Pending, b: World, now: int)
    requires Reachable(w) && Reachable(b) && pid !in w.inflight && b == w.(inflight := w.inflight[pid := p])
    requires p.document.checkpoint in w.db.checkpoints
    requires w.db.checkpoints[p.document.checkpoint].tenant == p.tenant
    ensures Landed(w, p.tenant, p.document, StatusOf(p.document.status), CommitStep(b, pid, now))
  {
    ReachableNumbered(w);
    LandsAfterBegin(w, pid, p, b, now);
    ReachableStep(b, Commit(pid, now));
    OwnWritten(w, pid, p, b, now);
  }

  // ---- plan ----

  predicate IsCrew(crew: seq<string>, agents: Option<seq<string>>) {
    if agents.Some? && |agents.value| > 0 then crew == agents.value
    else crew == ["architect", "implementer", "reviewer"]
  }

  /** The document of a plan: one queued step per agent, in order, whose action names agent and
      task, and one event. */
  ghost predicate PlanOf(doc: Workflow, cp: string, task: string, crew: seq<string>, now: int) {
    && doc.checkpoint == cp && doc.task == task && doc.status == Planned
    && doc.createdAt == now && doc.updatedAt == now
    && |doc.steps| == |crew|
    && (forall i :: 0 <= i < |crew| ==>
          && doc.steps[i].agent == crew[i] && doc.steps[i].action == crew[i] + " handles " + task
          && doc.steps[i].status == Queued && doc.steps[i].observations == [])
    && doc.events == [WorkflowPlanned(cp, now)]
  }

  lemma {:induction false} PlanTells(cp: string, task: string, agents: Option<seq<string>>, crew: seq<string>, now: int)
    requires IsCrew(crew, agents)
    ensures PlanOf(PlanDocument(cp, task, Crew(agents), now), cp, task, crew, now)
  {
  }

  /** A new checkpoint with the document, and every other as it was. */
  ghost predicate Adds(db: Db, cp: string, tenant: string, doc: Workflow, db': Db) {
    && cp !in db.checkpoints && db'.checkpoints.Keys == db.checkpoints.Keys + {cp}
    && (forall other :: other in db.checkpoints ==> db'.checkpoints[other] == db.checkpoints[other])
    && db'.checkpoints[cp].tenant == tenant && db'.checkpoints[cp].state == doc
  }

  lemma {:induction false} CommitAdds(w: World, pid: nat, now: int)
    requires Reachable(w) && pid in w.inflight && !OwnedByOther(w.db, w.inflight[pid].tenant)
    requires w.inflight[pid].document.checkpoint !in w.db.checkpoints
    ensures var p, db' := w.inflight[pid], CommitStep(w, pid, now).db;
            && Adds(w.db, p.document.checkpoint, p.tenant, p.document, db')
            && p.document.checkpoint in db'.workflows
            && db'.workflows[p.document.checkpoint].status == StatusOf(p.document.status)
            && db'.workflows[p.document.checkpoint].task == p.document.task
  {
    ReachableCommit(w, pid, now);
    CommitWrites(w, pid, now);
    NoRowYet(w, w.inflight[pid].document.checkpoint);
  }

  lemma {:induction false} BeginPlanIs(
      w: World, pid: nat, tenant: string, task: string, agents: Option<seq<string>>, now: int)
    requires Reachable(w) && pid !in w.inflight && !OwnedByOther(w.db, tenant)
    ensures var cp := CheckpointId(|w.db.checkpoints| + 1);
            var p := NewPending(w, tenant, PlanWrite, PlanDocument(cp, task, Crew(agents), now));
            && cp !in w.db.checkpoints
            && Do(w, BeginPlan(pid, tenant, task, agents, now)) == w.(inflight := w.inflight[pid := p])
  {
    ReachableNumbered(w);
    ListedKeys(w.db, tenant);
    NextCheckpointFresh(w.db, tenant);
  }

  /** A plan, read and written at once: a new checkpoint under the next number with the planned
      document, a new PENDING row, and every other checkpoint as it was. */
  lemma {:induction false} PlanLaw(
      w: World, pid: nat, tenant: string, task: string, agents: Option<seq<string>>, crew: seq<string>, now: int)
    requires Reachable(w) && pid !in w.inflight && !OwnedByOther(w.db, tenant) && IsCrew(crew, agents)
    ensures var db' := Do(Do(w, BeginPlan(pid, tenant, task, agents, now)), Commit(pid, now)).db;
            var cp := CheckpointId(|w.db.checkpoints| + 1);
            && cp in db'.checkpoints && PlanOf(db'.checkpoints[cp].state, cp, task, crew, now)
            && Adds(w.db, cp, tenant, db'.checkpoints[cp].state, db')
            && cp in db'.workflows && db'.workflows[cp].status == PENDING && db'.workflows[cp].task == task
  {
    var cp := CheckpointId(|w.db.checkpoints| + 1);
    BeginPlanIs(w, pid, tenant, task, agents, now);
    ReachableStep(w, BeginPlan(pid, tenant, task, agents, now));
    CommitAdds(Do(w, BeginPlan(pid, tenant, task, agents, now)), pid, now);
    PlanTells(cp, task, agents, crew, now);
  }

  lemma {:induction false} NoRowYet(w: World, cp: string)
    requires Reachable(w) && cp !in w.db.checkpoints
    ensures cp !in w.db.workflows
  {
    ReachableInv(w);
  }

  // ---- execute ----

  /** A step after an execute: untouched if it was completed, otherwise completed with one more
      observation, made now, that names step, agent, task and key. */
  ghost predicate Executed(s: Step, s': Step, task: string, now: int) {
    if s.status == Completed then s' == s
    else
      && s' == s.(status := Completed, observations := s'.observations)
      && |s'.observations| == |s.observations| + 1
      && s'.observations[..|s.observations|] == s.observations
      && s'.observations[|s.observations|] ==
         StepCompleted(s.id, s.agent, now, s.agent + " completed governed work on: " + task, s.key)
  }

  /** The new events of an execute: one for each step that it ran, in order. */
  function Ran(steps: seq<Step>): nat {
    if steps == [] then 0 else Ran(steps[..|steps| - 1]) + if steps[|steps| - 1].status == Completed then 0 else 1
  }

  lemma {:induction false} RunStepsDo(task: string, steps: seq<Step>, now: int)
    ensures var (done, log) := RunSteps(task, steps, now);
            && |done| == |steps| && |log| == Ran(steps)
            && forall i :: 0 <= i < |steps| ==> Executed(steps[i], done[i], task, now)
  {
    if steps == [] {
    } else {
      RunStepsDo(task, steps[..|steps| - 1], now);
    }
  }

  /** The event of a step that ran is the one that the step itself keeps. */
  ghost predicate Logged(steps: seq<Step>, done: seq<Step>, log: seq<Event>, i: nat)
    requires i < |steps| == |done|
  {
    steps[i].status != Completed ==>
      && Ran(steps[..i]) < |log| && |steps[i].observations| < |done[i].observations|
      && log[Ran(steps[..i])] == done[i].observations[|steps[i].observations|]
  }

  lemma {:induction false} RunStepsLog(task: string, steps: seq<Step>, now: int, i: nat)
    requires i < |steps|
    ensures |RunSteps(task, steps, now).0| == |steps|
    ensures Logged(steps, RunSteps(task, steps, now).0, RunSteps(task, steps, now).1, i)
    decreases |steps|
  {
    var front := steps[..|steps| - 1];
    RunStepsDo(task, steps, now);
    RunStepsDo(task, front, now);
    if i == |front| {
    } else {
      RunStepsLog(task, front, now, i);
      assert front[..i] == steps[..i] && front[i] == steps[i];
    }
  }

  /** A document after an execute. */
  ghost predicate ExecutionOf(doc: Workflow, doc': Workflow, now: int) {
    && doc' == doc.(steps := doc'.steps, status := Completed, updatedAt := now, events := doc'.events)
    && |doc'.steps| == |doc.steps|
    && (forall i :: 0 <= i < |doc.steps| ==> Executed(doc.steps[i], doc'.steps[i], doc.task, now))
    && |doc'.events| == |doc.events| + Ran(doc.steps) + 1
    && doc'.events[..|doc.events|] == doc.events
    && (forall i :: 0 <= i < |doc.steps| ==> Logged(doc.steps, doc'.steps, doc'.events[|doc.events|..], i))
    && doc'.events[|doc'.events| - 1] == WorkflowCompleted(doc.checkpoint, now)
  }

  lemma {:induction false} ExecuteTells(doc: Workflow, now: int)
    ensures ExecutionOf(doc, ExecuteDocument(doc, now), now)
  {
    var (done, log) := RunSteps(doc.task, doc.steps, now);
    var doc' := ExecuteDocument(doc, now);
    RunStepsDo(doc.task, doc.steps, now);
    assert doc'.events[|doc.events|..] == log + [WorkflowCompleted(doc.checkpoint, now)];
    forall i | 0 <= i < |doc.steps|
      ensures Logged(doc.steps, doc'.steps, doc'.events[|doc.events|..], i)
    {
      RunStepsLog(doc.task, doc.steps, now, i);
    }
  }

  lemma {:induction false} ExecuteBegins(w: World, pid: nat, tenant: string, cp: string, now: int) returns (p: Pending)
    requires Reachable(w) && pid !in w.inflight && Get(w.db, tenant, cp).Ok?
    requires Executable(Get(w.db, tenant, cp).value)
    ensures w.db.checkpoints[cp].state.checkpoint == cp
    ensures p.document == ExecuteDocument(w.db.checkpoints[cp].state, now) && p.tenant == tenant
    ensures p.document.checkpoint == cp && p.document.status == Completed
    ensures Reachable(Do(w, BeginExecute(pid, tenant, cp, now)))
    ensures Do(w, BeginExecute(pid, tenant, cp, now)) == w.(inflight := w.inflight[pid := p])
  {
    ReachableDocument(w, cp);
    p := NewPending(w, tenant, ExecuteWrite, ExecuteDocument(w.db.checkpoints[cp].state, now));
    BeginExecuteIs(w, pid, tenant, cp, now);
    ReachableStep(w, BeginExecute(pid, tenant, cp, now));
  }

  lemma {:induction false} ExecuteWrites(w: World, pid: nat, tenant: string, cp: string, now: int)
    requires Reachable(w) && pid !in w.inflight && Get(w.db, tenant, cp).Ok?
    requires Executable(Get(w.db, tenant, cp).value)
    ensures w.db.checkpoints[cp].state.checkpoint == cp
    ensures Landed(w, tenant, ExecuteDocument(w.db.checkpoints[cp].state, now), SUCCEEDED,
                   Do(Do(w, BeginExecute(pid, tenant, cp, now)), Commit(pid, now)))
  {
    var p := ExecuteBegins(w, pid, tenant, cp, now);
    OwnWrite(w, pid, p, Do(w, BeginExecute(pid, tenant, cp, now)), now);
  }

  /** An execute of a planned or recovered workflow, read and written at once: the document is
      executed and records one more completion, the row is SUCCEEDED, and so is every task. */
  lemma {:induction false} ExecuteLaw(w: World, pid: nat, tenant: string, cp: string, now: int)
    requires Reachable(w) && pid !in w.inflight && Get(w.db, tenant, cp).Ok?
    requires Get(w.db, tenant, cp).value.status in {Planned, Recovered}
    ensures var w' := Do(Do(w, BeginExecute(pid, tenant, cp, now)), Commit(pid, now));
            && Reachable(w') && w'.inflight == w.inflight && Get(w'.db, tenant, cp).Ok?
            && ExecutionOf(w.db.checkpoints[cp].state, w'.db.checkpoints[cp].state, now)
            && cp in w'.db.workflows && w'.db.workflows[cp].status == SUCCEEDED
            && Recorded(w'.db, cp) == Recorded(w.db, cp) + 1 && Finished(w'.db, cp)
  {
    var state := w.db.checkpoints[cp].state;
    var w' := Do(Do(w, BeginExecute(pid, tenant, cp, now)), Commit(pid, now));
    ReachableDocument(w, cp);
    ExecuteWrites(w, pid, tenant, cp, now);
    ExecuteTells(state, now);
    ExecuteShape(state, now);
    SettledIsFinished(w', cp);
  }

  // ---- recover ----

  lemma {:induction false} RecoverWrites(w: World, pid: nat, tenant: string, cp: string, now: int)
    requires Reachable(w) && pid !in w.inflight && Get(w.db, tenant, cp).Ok?
    ensures w.db.checkpoints[cp].state.checkpoint == cp
    ensures Landed(w, tenant, RecoverDocument(w.db.checkpoints[cp].state, now), RECOVERING,
                   Do(Do(w, BeginRecover(pid, tenant, cp, now)), Commit(pid, now)))
  {
    var doc := RecoverDocument(w.db.checkpoints[cp].state, now);
    ReachableDocument(w, cp);
    BeginRecoverIs(w, pid, tenant, cp, now);
    ReachableStep(w, BeginRecover(pid, tenant, cp, now));
    OwnWrite(w, pid, NewPending(w, tenant, RecoverWrite, doc), Do(w, BeginRecover(pid, tenant, cp, now)), now);
  }

  /** A recover, read and written at once, of a workflow in whatever state: its status is
      recovered and its row RECOVERING; its steps, events and everything else are as they were. */
  lemma {:induction false} RecoverLaw(w: World, pid: nat, tenant: string, cp: string, now: int)
    requires Reachable(w) && pid !in w.inflight && Get(w.db, tenant, cp).Ok?
    ensures var w' := Do(Do(w, BeginRecover(pid, tenant, cp, now)), Commit(pid, now));
            && Reachable(w') && w'.inflight == w.inflight && Get(w'.db, tenant, cp).Ok?
            && w'.db.checkpoints[cp].state.status == Recovered && w'.db.checkpoints[cp].state.updatedAt == now
            && w'.db.checkpoints[cp].state.(status := Planned, updatedAt := 0) ==
               w.db.checkpoints[cp].state.(status := Planned, updatedAt := 0)
            && cp in w'.db.workflows && w'.db.workflows[cp].status == RECOVERING
  {
    RecoverWrites(w, pid, tenant, cp, now);
  }

  /** A recovered workflow executes again, also one that was completed: the execute lands, and
      records one more completion. */
  lemma {:induction false} RecoverReopens(w: World, pid: nat, tenant: string, cp: string, now: int, later: int)
    requires Reachable(w) && pid !in w.inflight && Get(w.db, tenant, cp).Ok?
    ensures var w' := Do(Do(w, BeginRecover(pid, tenant, cp, now)), Commit(pid, now));
            var w'' := Do(Do(w', BeginExecute(pid, tenant, cp, later)), Commit(pid, later));
            && Get(w''.db, tenant, cp).Ok? && w''.db.checkpoints[cp].state.status == Completed
            && w''.db.checkpoints[cp].state.updatedAt == later
            && Recorded(w''.db, cp) == Recorded(w.db, cp) + 1
            && cp in w''.db.workflows && w''.db.workflows[cp].status == SUCCEEDED
  {
    var w' := Do(Do(w, BeginRecover(pid, tenant, cp, now)), Commit(pid, now));
    RecoverLaw(w, pid, tenant, cp, now);
    ExecuteLaw(w', pid, tenant, cp, later);
  }

  // ---- leases ----

  /** A granted lease: the task runs, its owner is the worker, it lasts for the seconds asked for,
      and it is one attempt more. */
  lemma {:induction false} LeaseGrants(
      w: World, tenant: string, wf: string, worker: string, seconds: int, now: int, id: string)
    requires EarliestLeasable(w.db, tenant, wf, id)
    ensures var w' := Do(w, LeaseTask(tenant, wf, worker, seconds, now, id));
            && id in w'.db.tasks
            && w'.db.tasks[id] == w.db.tasks[id].(status := RUNNING, leaseOwner := Some(worker), updatedAt := now,
                                    leaseExpiresAt := Some(now + seconds), attempts := w.db.tasks[id].attempts + 1)
  {
  }

  /** A granted lease lasts: until `now + seconds`, whatever other workers and processes do, and
      unless its workflow is rewritten, the task is the worker's. */
  lemma {:induction false} LeaseLasts(
      w: World, tenant: string, wf: string, worker: string, seconds: int, now: int, id: string, ops: seq<Op>)
    requires Reachable(w) && EarliestLeasable(w.db, tenant, wf, id)
    requires Undisturbed(Do(w, LeaseTask(tenant, wf, worker, seconds, now, id)), ops, wf, now + seconds)
    ensures var w' := Run(Do(w, LeaseTask(tenant, wf, worker, seconds, now, id)), ops);
            && Reachable(w') && id in w'.db.tasks && w'.db.tasks[id].tenant == tenant
            && w'.db.tasks[id].leaseOwner == Some(worker) && w'.db.tasks[id].leaseExpiresAt == Some(now + seconds)
            && w'.db.tasks[id].status in {RUNNING, SUCCEEDED}
  {
    LeaseGrants(w, tenant, wf, worker, seconds, now, id);
    ReachableStep(w, LeaseTask(tenant, wf, worker, seconds, now, id));
    LeaseIsHeld(Do(w, LeaseTask(tenant, wf, worker, seconds, now, id)), tenant, wf, worker, now + seconds, id, ops);
  }

  lemma {:induction false} LeaseIsHeld(
      w: World, tenant: string, wf: string, worker: string, until: int, id: string, ops: seq<Op>)
    requires Reachable(w) && id in w.db.tasks && Undisturbed(w, ops, wf, until)
    requires w.db.tasks[id].status == RUNNING && w.db.tasks[id].workflowId == wf && w.db.tasks[id].tenant == tenant
    requires w.db.tasks[id].leaseOwner == Some(worker) && w.db.tasks[id].leaseExpiresAt == Some(until)
    ensures var w' := Run(w, ops);
            && Reachable(w') && id in w'.db.tasks && w'.db.tasks[id].tenant == tenant
            && w'.db.tasks[id].leaseOwner == Some(worker) && w'.db.tasks[id].leaseExpiresAt == Some(until)
            && w'.db.tasks[id].status in {RUNNING, SUCCEEDED}
  {
    ReachableRun(w, ops);
    UnexpiredLeaseIsHeld(w, ops, id);
  }

  /** And it lasts no longer: an expiry recovery of the tenant at time t takes a task that is still
      running from the worker if and only if t is past `now + seconds`. It is then without owner,
      TIMED_OUT if that was the third attempt or a later one, otherwise PENDING. */
  lemma {:induction false} LeaseLastsExactly(
      w: World, tenant: string, wf: string, worker: string, seconds: int, now: int, id: string, ops: seq<Op>, t: int)
    requires Reachable(w) && EarliestLeasable(w.db, tenant, wf, id)
    requires Undisturbed(Do(w, LeaseTask(tenant, wf, worker, seconds, now, id)), ops, wf, now + seconds)
    requires var w' := Run(Do(w, LeaseTask(tenant, wf, worker, seconds, now, id)), ops);
             id in w'.db.tasks && w'.db.tasks[id].status == RUNNING
    ensures var w' := Run(Do(w, LeaseTask(tenant, wf, worker, seconds, now, id)), ops);
            var after := Do(w', RecoverLeases(tenant, t)).db.tasks;
            && id in after
            && (t <= now + seconds ==> after[id] == w'.db.tasks[id])
            && (t > now + seconds ==>
                  && after[id].leaseOwner.None? && after[id].leaseExpiresAt.None?
                  && after[id].attempts == w'.db.tasks[id].attempts
                  && after[id].status == if after[id].attempts >= 3 then TIMED_OUT else PENDING)
  {
    var w' := Run(Do(w, LeaseTask(tenant, wf, worker, seconds, now, id)), ops);
    LeaseLasts(w, tenant, wf, worker, seconds, now, id, ops);
    ThreeAttempts(w', id);
  }

  lemma {:induction false} ThreeAttempts(w: World, id: string)
    requires Reachable(w) && id in w.db.tasks
    ensures w.db.tasks[id].maxAttempts == 3
  {
    ReachableInv(w);
    assert Tells(w.db.tasks[id], TallyOf(w.log, w.db.tasks[id].workflowId, id));
  }

  /** A mark in any run: the row of a task of the tenant becomes SUCCEEDED, now, if the worker holds
      its latest lease and has not marked it; otherwise it stays as it is. Every other row, and
      everything else, stays as it is. */
  lemma {:induction false} MarkLaw(w: World, tenant: string, id: string, worker: string, now: int)
    requires Reachable(w) && id in w.db.tasks && w.db.tasks[id].tenant == tenant
    ensures var t, h := w.db.tasks[id], TallyOf(w.log, w.db.tasks[id].workflowId, id);
            var t' := if h.holder == Some(worker) && h.marks == 0 then t.(status := SUCCEEDED, updatedAt := now) else t;
            Do(w, MarkTask(tenant, id, worker, now)).db == w.db.(tasks := w.db.tasks[id := t'])
  {
    Fencing(w, tenant, id, worker);
    assert w.db.tasks[id := w.db.tasks[id]] == w.db.tasks;
  }

  /** A task waits: it is the tenant's, of the workflow, and neither running nor done. */
  predicate Waits(db: Db, tenant: string, wf: string, id: string) {
    && id in db.tasks && db.tasks[id].tenant == tenant && db.tasks[id].workflowId == wf
    && db.tasks[id].status != RUNNING && db.tasks[id].status != SUCCEEDED
  }

  lemma {:induction false} WaitingIsLeasable(w: World, tenant: string, wf: string, id: string)
    requires Reachable(w)
    ensures Waits(w.db, tenant, wf, id) <==> Leasable(w.db, tenant, wf, id)
  {
    if id in w.db.tasks {
      ReachableInv(w);
      assert Tells(w.db.tasks[id], TallyOf(w.log, w.db.tasks[id].workflowId, id));
    }
  }

  /** Among some waiting tasks there is one created first. */
  lemma {:induction false} EarliestOf(db: Db, ids: set<string>) returns (first: string)
    requires ids != {} && ids <= db.tasks.Keys
    ensures first in ids && forall id :: id in ids ==> db.tasks[first].createdAt <= db.tasks[id].createdAt
    decreases ids
  {
    var x :| x in ids;
    if ids == {x} {
      first := x;
    } else {
      var y := EarliestOf(db, ids - {x});
      first := if db.tasks[x].createdAt <= db.tasks[y].createdAt then x else y;
    }
  }

  /** A workflow has a task to lease if and only if one of its tasks waits, and then a waiting task
      that was created no later than any other is granted. */
  lemma {:induction false} SomethingToLeaseIff(w: World, tenant: string, wf: string)
    requires Reachable(w)
    ensures (exists pick :: EarliestLeasable(w.db, tenant, wf, pick)) <==> (exists id :: Waits(w.db, tenant, wf, id))
    ensures forall pick :: EarliestLeasable(w.db, tenant, wf, pick) ==>
              Waits(w.db, tenant, wf, pick) &&
              forall id :: Waits(w.db, tenant, wf, id) ==> w.db.tasks[pick].createdAt <= w.db.tasks[id].createdAt
  {
    forall id
      ensures Waits(w.db, tenant, wf, id) <==> Leasable(w.db, tenant, wf, id)
    {
      WaitingIsLeasable(w, tenant, wf, id);
    }
    if id :| Waits(w.db, tenant, wf, id) {
      var ids := set x | x in w.db.tasks && Waits(w.db, tenant, wf, x);
      assert id in ids;
      var first := EarliestOf(w.db, ids);
      assert EarliestLeasable(w.db, tenant, wf, first);
    }
  }
}
