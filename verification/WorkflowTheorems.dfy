/** What holds in every run of the workflow platform. */
module WorkflowTheorems {
  import opened Tables
  import opened WorkflowTables
  import opened WorkflowDocuments
  import opened WorkflowInvariant
  import opened WorkflowRuns

  ghost predicate Reachable(w: World) {
    exists ops: seq<Op> :: Run(INITIAL, ops) == w
  }

  lemma {:induction false} ReachableInv(w: World)
    requires Reachable(w)
    ensures Inv(w)
  {
    var ops :| Run(INITIAL, ops) == w;
    InitialInv();
    RunKeepsInv(INITIAL, ops);
  }

  lemma {:induction false} ReachableStep(w: World, op: Op)
    requires Reachable(w)
    ensures Reachable(Do(w, op))
  {
    var ops :| Run(INITIAL, ops) == w;
    assert (ops + [op])[..|ops + [op]| - 1] == ops;
    assert Run(INITIAL, ops + [op]) == Do(w, op);
  }

  lemma {:induction false} ReachableRun(w: World, ops: seq<Op>)
    requires Reachable(w)
    ensures Reachable(Run(w, ops))
  {
    if ops == [] {
    } else {
      ReachableRun(w, ops[..|ops| - 1]);
      ReachableStep(Run(w, ops[..|ops| - 1]), ops[|ops| - 1]);
    }
  }

  lemma {:induction false} ReachableCommit(w: World, pid: nat, now: int)
    requires Reachable(w) && pid in w.inflight
    ensures CommitStep(w, pid, now).inflight == w.inflight - {pid}
    ensures CommitEffect(w, w.inflight[pid], CommitStep(w, pid, now))
  {
    ReachableInv(w);
    CommitHasEffect(w, pid, now);
  }

  lemma {:induction false} ReachableNumbered(w: World)
    requires Reachable(w)
    ensures Numbered(w.db) && (forall cp :: cp in w.db.workflows ==> cp in w.db.checkpoints)
  {
    ReachableInv(w);
  }

  lemma {:induction false} ReachableDocument(w: World, cp: string)
    requires Reachable(w) && cp in w.db.checkpoints
    ensures var doc := w.db.checkpoints[cp].state;
            doc.checkpoint == cp && WellFormed(doc)
  {
    ReachableInv(w);
    assert Agrees(w.db, cp);
  }

  // ---- the four tables ----

  /** After any run: one version number in workflow row and checkpoint, equal to the number of
      persisted events and of committed upserts; event sequences 1, 2, ..., n; the row status is
      the mapped document status. */
  lemma {:induction false} CrossTableAgreement(w: World, cp: string)
    requires Reachable(w) && cp in w.db.checkpoints
    ensures cp in w.db.workflows
    ensures var c, row := w.db.checkpoints[cp], w.db.workflows[cp];
            && row.tenant == c.tenant
            && row.version == c.version == |Sequences(w.db.events, c.tenant, cp)| == Upserts(w.log, cp)
            && (forall i :: 0 <= i < c.version ==> Sequences(w.db.events, c.tenant, cp)[i] == i + 1)
            && row.status == StatusOf(c.state.status)
  {
    ReachableInv(w);
    assert Agrees(w.db, cp) && Counts(w.db, w.log, cp);
  }

  /** After any run, with lease sessions interleaved at will, the tasks of a workflow are exactly
      the steps of its checkpoint. */
  lemma {:induction false} TasksAreSteps(w: World, cp: string, id: string)
    requires Reachable(w) && cp in w.db.checkpoints
    ensures id in w.db.tasks && w.db.tasks[id].workflowId == cp <==>
            exists i :: 0 <= i < |w.db.checkpoints[cp].state.steps|
                && id == TaskId(cp, w.db.checkpoints[cp].state.steps[i].id)
  {
    ReachableInv(w);
    assert Agrees(w.db, cp);
    var c := w.db.checkpoints[cp];
    if id in w.db.tasks && w.db.tasks[id].workflowId == cp {
      assert Placed(w.db, id);
    }
    if i :| 0 <= i < |c.state.steps| && id == TaskId(cp, c.state.steps[i].id) {
      assert HasTask(w.db.tasks, c.tenant, cp, c.state.steps[i]);
    }
  }

  /** After any run the checkpoint ids are exactly checkpoint-1 .. checkpoint-n, and a single
      tenant owns them all. */
  lemma {:induction false} CheckpointsNumberedForOneTenant(w: World)
    requires Reachable(w)
    ensures forall cp :: cp in w.db.checkpoints <==> exists i :: 1 <= i <= |w.db.checkpoints| && cp == CheckpointId(i)
    ensures forall a, b :: a in w.db.checkpoints && b in w.db.checkpoints ==>
              w.db.checkpoints[a].tenant == w.db.checkpoints[b].tenant
  {
    ReachableInv(w);
    assert forall cp :: cp in w.db.checkpoints <==> cp in Ids(|w.db.checkpoints|);
  }

  /** A pending write of a tenant persists exactly when no other tenant owns a workflow in the
      shared database: ids carry no tenant, so the second tenant's task ids are taken. */
  lemma {:induction false} CommitSucceedsIff(w: World, pid: nat, now: int)
    requires Reachable(w) && pid in w.inflight
    ensures CommitStep(w, pid, now).log != w.log <==> !OwnedByOther(w.db, w.inflight[pid].tenant)
    ensures OwnedByOther(w.db, w.inflight[pid].tenant) ==> CommitStep(w, pid, now).db == w.db
  {
    ReachableInv(w);
    var p := w.inflight[pid];
    assert PendingOk(w.db, w.log, p);
    UpsertKeepsAgreement(w.db, p.tenant, p.document, now);
  }

  /** So once one tenant has a workflow, no other tenant's plan ever persists. */
  lemma {:induction false} SecondTenantCannotPlan(w: World, pid: nat, cp: string, tenant: string, task: string,
        agents: Option<seq<string>>, now: int)
    requires Reachable(w) && pid !in w.inflight
    requires cp in w.db.checkpoints && w.db.checkpoints[cp].tenant != tenant
    ensures Do(Do(w, BeginPlan(pid, tenant, task, agents, now)), Commit(pid, now)).db == w.db
  {
    var b := Do(w, BeginPlan(pid, tenant, task, agents, now));
    ReachableStep(w, BeginPlan(pid, tenant, task, agents, now));
    assert OwnedByOther(b.db, tenant);
    ReachableCommit(b, pid, now);
  }

  /** A committing plan overwrites an existing workflow exactly when the version of its target
      moved between its read and its write, that is, when another plan got in between. */
  lemma {:induction false} PlanOverwritesIff(w: World, pid: nat)
    requires Reachable(w) && pid in w.inflight
    requires w.inflight[pid].kind == PlanWrite && !OwnedByOther(w.db, w.inflight[pid].tenant)
    ensures var p := w.inflight[pid];
            p.document.checkpoint in w.db.checkpoints <==> RowVersion(w.db, p.document.checkpoint) != p.base
  {
    ReachableInv(w);
    var p := w.inflight[pid];
    assert PendingOk(w.db, w.log, p);
    if p.document.checkpoint in w.db.checkpoints {
      assert Agrees(w.db, p.document.checkpoint);
    }
  }

  lemma {:induction false} RacingPlans(
      tenant: string, first: string, second: string, agents: Option<seq<string>>, now: int)
    ensures var w1 := Do(INITIAL, BeginPlan(1, tenant, first, agents, now));
            var w2 := Do(w1, BeginPlan(2, tenant, second, agents, now));
            var w := Do(Do(w2, Commit(1, now)), Commit(2, now));
            && Upserts(w.log, CheckpointId(1)) == 2
            && w.db.checkpoints.Keys == {CheckpointId(1)}
            && w.db.checkpoints[CheckpointId(1)].state.task == second
  {
    var w1 := Do(INITIAL, BeginPlan(1, tenant, first, agents, now));
    assert Run(INITIAL, []) == INITIAL;
    ReachableStep(INITIAL, BeginPlan(1, tenant, first, agents, now));
    ReachableStep(w1, BeginPlan(2, tenant, second, agents, now));
    FirstPlan(INITIAL, 1, tenant, first, agents, now);
    FirstPlan(w1, 2, tenant, second, agents, now);
    CommitBoth(Do(w1, BeginPlan(2, tenant, second, agents, now)), CheckpointId(1), tenant, now);
  }

  /** Two plans that both read before either writes collide: both target checkpoint-1, and the
      second one's document replaces the first one's. */
  lemma {:induction false} RacingPlansCollide(
      tenant: string, first: string, second: string, agents: Option<seq<string>>, now: int)
    ensures var w := Run(INITIAL, [BeginPlan(1, tenant, first, agents, now), BeginPlan(2, tenant, second, agents, now),
                                   Commit(1, now), Commit(2, now)]);
            && Upserts(w.log, CheckpointId(1)) == 2
            && w.db.checkpoints.Keys == {CheckpointId(1)}
            && w.db.checkpoints[CheckpointId(1)].state.task == second
  {
    RunUnfold4(INITIAL, [BeginPlan(1, tenant, first, agents, now), BeginPlan(2, tenant, second, agents, now),
                         Commit(1, now), Commit(2, now)]);
    RacingPlans(tenant, first, second, agents, now);
  }

  lemma {:induction false} FirstPlan(w: World, pid: nat, tenant: string, task: string, agents: Option<seq<string>>,
        now: int)
    requires w.db == EMPTY && pid !in w.inflight
    ensures var p := NewPending(w, tenant, PlanWrite, PlanDocument(CheckpointId(1), task, Crew(agents), now));
            && Do(w, BeginPlan(pid, tenant, task, agents, now)) == w.(inflight := w.inflight[pid := p])
            && p.document.checkpoint == CheckpointId(1) && p.document.task == task
  {
    assert Listed(EMPTY, tenant) == map[];
    assert |Listed(EMPTY, tenant)| == 0;
  }

  lemma {:induction false} CommitBoth(w: World, cp: string, tenant: string, now: int)
    requires Reachable(w) && w.db == EMPTY && w.log == [] && w.inflight.Keys == {1, 2}
    requires forall pid :: pid in w.inflight ==>
               w.inflight[pid].document.checkpoint == cp && w.inflight[pid].tenant == tenant
                   && w.inflight[pid].kind == PlanWrite
    ensures var w' := Do(Do(w, Commit(1, now)), Commit(2, now));
            && Upserts(w'.log, cp) == 2
            && w'.db.checkpoints.Keys == {cp}
            && w'.db.checkpoints[cp].state == w.inflight[2].document
  {
    var w1 := Do(w, Commit(1, now));
    ReachableCommit(w, 1, now);
    ReachableStep(w, Commit(1, now));
    var w2 := Do(w1, Commit(2, now));
    ReachableCommit(w1, 2, now);
    TwoEffects(w, w1, w2, cp, tenant);
  }

  lemma {:induction false} TwoEffects(w: World, w1: World, w2: World, cp: string, tenant: string)
    requires w.db == EMPTY && w.log == [] && w.inflight.Keys == {1, 2}
    requires forall pid :: pid in w.inflight ==>
               w.inflight[pid].document.checkpoint == cp && w.inflight[pid].tenant == tenant
                   && w.inflight[pid].kind == PlanWrite
    requires CommitEffect(w, w.inflight[1], w1) && CommitEffect(w1, w.inflight[2], w2)
    ensures Upserts(w2.log, cp) == 2
    ensures w2.db.checkpoints.Keys == {cp}
    ensures w2.db.checkpoints[cp].state == w.inflight[2].document
  {
    assert w1.db.checkpoints.Keys == {cp} && w1.db.checkpoints[cp].tenant == tenant;
    var e := Upserted(cp, PlanWrite);
    assert w1.log == [] + [e] && w2.log == w1.log + [e];
    TallyAfter([], e, cp, "");
    TallyAfter(w1.log, e, cp, "");
  }

  lemma {:induction false} RunUnfold4(w: World, ops: seq<Op>)
    requires |ops| == 4
    ensures Run(w, ops) == Do(Do(Do(Do(w, ops[0]), ops[1]), ops[2]), ops[3])
  {
    assert ops[..3][..2] == ops[..2] && ops[..2][..1] == ops[..1] && ops[..1][..0] == [];
    assert Run(w, ops) == Do(Run(w, ops[..3]), ops[3]);
    assert Run(w, ops[..3]) == Do(Run(w, ops[..2]), ops[2]);
    assert Run(w, ops[..2]) == Do(Run(w, ops[..1]), ops[1]);
    assert Run(w, ops[..1]) == Do(Run(w, []), ops[0]);
  }

  // ---- leases ----

  /** Lease conservation: attempts is the number of leases granted since the last upsert, and
      each of those was reclaimed, or ended in the one accepted mark, or is running now. */
  lemma {:induction false} AttemptConservation(w: World, id: string)
    requires Reachable(w) && id in w.db.tasks
    ensures var t := w.db.tasks[id];
            var h := TallyOf(w.log, t.workflowId, id);
            && t.attempts == h.grants == h.reclaims + h.marks + (if t.status == RUNNING then 1 else 0)
            && h.marks <= 1
            && (t.status == PENDING ==> t.attempts < t.maxAttempts)
            && (t.status == TIMED_OUT ==> t.attempts >= t.maxAttempts)
  {
    ReachableInv(w);
    assert Tells(w.db.tasks[id], TallyOf(w.log, w.db.tasks[id].workflowId, id));
  }

  /** One attempt for the running or finishing lease beyond the reclaimed ones: true of a task
      exactly unless it is SUCCEEDED with no lease owner, as an execute writes it. */
  lemma {:induction false} AttemptsCountFinishIff(w: World, id: string)
    requires Reachable(w) && id in w.db.tasks
    ensures var t := w.db.tasks[id];
            t.attempts == TallyOf(w.log, t.workflowId, id).reclaims + (if t.status in {RUNNING, SUCCEEDED} then 1
                else 0) <==>
            !(t.status == SUCCEEDED && t.leaseOwner.None?)
  {
    ReachableInv(w);
    assert Tells(w.db.tasks[id], TallyOf(w.log, w.db.tasks[id].workflowId, id));
  }

  /** Fencing: a mark is accepted exactly for the worker of the latest lease that was neither
      reclaimed nor marked nor wiped by an upsert; the task is then RUNNING. */
  lemma {:induction false} Fencing(w: World, tenant: string, id: string, worker: string)
    requires Reachable(w) && id in w.db.tasks && w.db.tasks[id].tenant == tenant
    ensures var h := TallyOf(w.log, w.db.tasks[id].workflowId, id);
            MarkAccepted(w.db, tenant, id, worker) <==> h.holder == Some(worker) && h.marks == 0
    ensures MarkAccepted(w.db, tenant, id, worker) ==> w.db.tasks[id].status == RUNNING
  {
    ReachableInv(w);
    assert Tells(w.db.tasks[id], TallyOf(w.log, w.db.tasks[id].workflowId, id));
  }

  /** The step persists a write to the workflow. */
  ghost predicate Rewrites(w: World, op: Op, wf: string) {
    && op.Commit? && op.pid in w.inflight && w.inflight[op.pid].document.checkpoint == wf
    && !OwnedByOther(w.db, w.inflight[op.pid].tenant)
  }

  /** No op of the run reclaims at a time past `until`, or rewrites workflow `wf`. */
  ghost predicate Undisturbed(w: World, ops: seq<Op>, wf: string, until: int) {
    ops == [] ||
    var before, op := Run(w, ops[..|ops| - 1]), ops[|ops| - 1];
    && Undisturbed(w, ops[..|ops| - 1], wf, until)
    && (op.RecoverLeases? ==> op.now <= until)
    && !Rewrites(before, op, wf)
  }

  ghost predicate HeldOrDone(t: TaskRow, t': TaskRow) {
    && t'.leaseOwner == t.leaseOwner && t'.leaseExpiresAt == t.leaseExpiresAt && t'.attempts == t.attempts
    && t'.workflowId == t.workflowId && t'.tenant == t.tenant
    && t'.status in {RUNNING, SUCCEEDED}
  }

  /** An unexpired lease never changes hands: until it expires, whatever other workers and
      processes do, the task stays with its owner (running, or marked succeeded by it). */
  lemma {:induction false} UnexpiredLeaseIsHeld(w: World, ops: seq<Op>, id: string)
    requires Reachable(w) && id in w.db.tasks
    requires w.db.tasks[id].status == RUNNING
    requires w.db.tasks[id].leaseExpiresAt.Some?
    requires Undisturbed(w, ops, w.db.tasks[id].workflowId, w.db.tasks[id].leaseExpiresAt.value)
    ensures id in Run(w, ops).db.tasks && HeldOrDone(w.db.tasks[id], Run(w, ops).db.tasks[id])
  {
    if ops == [] {
    } else {
      var front, op := ops[..|ops| - 1], ops[|ops| - 1];
      UnexpiredLeaseIsHeld(w, front, id);
      var before := Run(w, front);
      ReachableRun(w, front);
      LeaseHeldStep(before, op, id, w.db.tasks[id]);
    }
  }

  lemma {:induction false} LeaseHeldStep(w: World, op: Op, id: string, t: TaskRow)
    requires Reachable(w) && id in w.db.tasks && HeldOrDone(t, w.db.tasks[id])
    requires t.leaseExpiresAt.Some?
    requires op.RecoverLeases? ==> op.now <= t.leaseExpiresAt.value
    requires !Rewrites(w, op, t.workflowId)
    ensures id in Do(w, op).db.tasks && HeldOrDone(t, Do(w, op).db.tasks[id])
  {
    if op.Commit? {
      if op.pid in w.inflight {
        ReachableCommit(w, op.pid, op.now);
        HeldThroughCommit(w, w.inflight[op.pid], CommitStep(w, op.pid, op.now), id, t);
      }
    } else {
      HeldThroughOthers(w, op, id, t);
    }
  }

  lemma {:induction false} HeldThroughOthers(w: World, op: Op, id: string, t: TaskRow)
    requires id in w.db.tasks && HeldOrDone(t, w.db.tasks[id]) && !op.Commit?
    requires t.leaseExpiresAt.Some?
    requires op.RecoverLeases? ==> op.now <= t.leaseExpiresAt.value
    ensures id in Do(w, op).db.tasks && HeldOrDone(t, Do(w, op).db.tasks[id])
  {
  }

  lemma {:induction false} HeldThroughCommit(w: World, p: Pending, w': World, id: string, t: TaskRow)
    requires id in w.db.tasks && HeldOrDone(t, w.db.tasks[id])
    requires CommitEffect(w, p, w') && (p.document.checkpoint == t.workflowId ==> OwnedByOther(w.db, p.tenant))
    ensures id in w'.db.tasks && HeldOrDone(t, w'.db.tasks[id])
  {
  }

  ghost predicate NeverRewritten(w: World, ops: seq<Op>, wf: string) {
    ops == [] ||
    (NeverRewritten(w, ops[..|ops| - 1], wf) && !Rewrites(Run(w, ops[..|ops| - 1]), ops[|ops| - 1], wf))
  }

  lemma {:induction false} SucceededStep(w: World, op: Op, id: string)
    requires Reachable(w) && id in w.db.tasks && w.db.tasks[id].status == SUCCEEDED
    requires !Rewrites(w, op, w.db.tasks[id].workflowId)
    ensures id in Do(w, op).db.tasks && Do(w, op).db.tasks[id] == w.db.tasks[id]
  {
    if op.Commit? {
      if op.pid in w.inflight {
        ReachableCommit(w, op.pid, op.now);
      }
    } else if op.LeaseTask? || op.MarkTask? || op.RecoverLeases? {
      var e := LeaseOpShape(w, op);
      assert Do(w, op) != w ==> LeaseChange(w.db.tasks[id], Do(w, op).db.tasks[id]);
    }
  }

  /** A success is final until the workflow is rewritten: through every run that persists no write
      to its workflow, and past the expiry of its lease, a SUCCEEDED task row stays as it is. */
  lemma {:induction false} SuccessStays(w: World, ops: seq<Op>, id: string)
    requires Reachable(w) && id in w.db.tasks && w.db.tasks[id].status == SUCCEEDED
    requires NeverRewritten(w, ops, w.db.tasks[id].workflowId)
    ensures id in Run(w, ops).db.tasks && Run(w, ops).db.tasks[id] == w.db.tasks[id]
  {
    if ops == [] {
    } else {
      SuccessStays(w, ops[..|ops| - 1], id);
      ReachableRun(w, ops[..|ops| - 1]);
      SucceededStep(Run(w, ops[..|ops| - 1]), ops[|ops| - 1], id);
    }
  }

  /** Expiry recovery leaves no expired lease: repeated at the same time it recovers nothing. */
  lemma {:induction false} RecoverExpiredIsComplete(db: Db, tenant: string, now: int)
    ensures ExpiredIds(RecoverExpired(db, tenant, now), tenant, now) == {}
    ensures RecoverExpired(RecoverExpired(db, tenant, now), tenant, now) == RecoverExpired(db, tenant, now)
  {
    var db' := RecoverExpired(db, tenant, now);
    assert forall id :: id in db'.tasks ==> !Expired(db'.tasks[id], tenant, now);
    assert RecoverExpired(db', tenant, now).tasks == db'.tasks;
  }

  // ---- completion ----

  /** Every step done, every task SUCCEEDED. */
  ghost predicate Finished(db: Db, cp: string) {
    && cp in db.checkpoints
    && AllDone(db.checkpoints[cp].state.steps)
    && forall id :: id in db.tasks && db.tasks[id].workflowId == cp ==> db.tasks[id].status == SUCCEEDED
  }

  /** The workflow is done, and its owner has no pending write that remembers it undone. */
  ghost predicate Settled(w: World, cp: string) {
    && cp in w.db.checkpoints
    && AllDone(w.db.checkpoints[cp].state.steps)
    && forall pid :: pid in w.inflight ==> Agreeable(w.inflight[pid], cp, w.db.checkpoints[cp].tenant)
  }

  ghost predicate Agreeable(p: Pending, cp: string, owner: string) {
    p.document.checkpoint == cp && p.tenant == owner ==> AllDone(p.document.steps)
  }

  lemma {:induction false} SettledIsFinished(w: World, cp: string)
    requires Reachable(w) && cp in w.db.checkpoints && AllDone(w.db.checkpoints[cp].state.steps)
    ensures Finished(w.db, cp)
  {
    ReachableInv(w);
    assert Agrees(w.db, cp);
    var c := w.db.checkpoints[cp];
    forall id | id in w.db.tasks && w.db.tasks[id].workflowId == cp
      ensures w.db.tasks[id].status == SUCCEEDED
    {
      assert Placed(w.db, id);
      var i :| 0 <= i < |c.state.steps| && id == TaskId(cp, c.state.steps[i].id);
      assert HasTask(w.db.tasks, c.tenant, cp, c.state.steps[i]);
    }
  }

  lemma {:induction false} SettledBegin(w: World, pid: nat, tenant: string, kind: Kind, doc: Workflow, cp: string)
    requires Settled(w, cp)
    requires doc.checkpoint == cp && tenant == w.db.checkpoints[cp].tenant ==> AllDone(doc.steps)
    ensures Settled(Begin(w, pid, tenant, kind, doc), cp)
  {
    var w' := Begin(w, pid, tenant, kind, doc);
    forall q | q in w'.inflight
      ensures Agreeable(w'.inflight[q], cp, w'.db.checkpoints[cp].tenant)
    {
      if q in w.inflight {
        assert Agreeable(w.inflight[q], cp, w.db.checkpoints[cp].tenant);
      }
    }
  }

  lemma {:induction false} SettledCommit(w: World, pid: nat, w': World, cp: string)
    requires Numbered(w.db) && Settled(w, cp) && pid in w.inflight
    requires w'.inflight == w.inflight - {pid} && CommitEffect(w, w.inflight[pid], w')
    ensures Settled(w', cp)
  {
    var p := w.inflight[pid];
    assert Agreeable(p, cp, w.db.checkpoints[cp].tenant);
    assert !OwnedByOther(w.db, p.tenant) ==> p.tenant == w.db.checkpoints[cp].tenant;
    forall q | q in w'.inflight
      ensures Agreeable(w'.inflight[q], cp, w'.db.checkpoints[cp].tenant)
    {
      assert w'.inflight[q] == w.inflight[q];
    }
  }

  lemma {:induction false} SettledBeginPlan(w: World, op: Op, cp: string)
    requires Reachable(w) && Settled(w, cp) && op.BeginPlan?
    ensures Settled(Do(w, op), cp)
  {
    var doc := PlanDocument(NextCheckpoint(w.db, op.tenant), op.task, Crew(op.agents), op.now);
    assert doc.checkpoint == cp ==> op.tenant != w.db.checkpoints[cp].tenant by {
      ReachableNumbered(w);
      NextCheckpointFresh(w.db, op.tenant);
    }
    SettledBegin(w, op.pid, op.tenant, PlanWrite, doc, cp);
  }

  lemma {:induction false} SettledBeginExecute(w: World, op: Op, cp: string)
    requires Reachable(w) && Settled(w, cp) && op.BeginExecute?
    ensures Settled(Do(w, op), cp)
  {
    if Get(w.db, op.tenant, op.checkpoint).Ok? && Executable(Get(w.db, op.tenant, op.checkpoint).value) {
      var state := w.db.checkpoints[op.checkpoint].state;
      ReachableDocument(w, op.checkpoint);
      ExecuteShape(state, op.now);
      SettledBegin(w, op.pid, op.tenant, ExecuteWrite, ExecuteDocument(state, op.now), cp);
    }
  }

  lemma {:induction false} SettledBeginRecover(w: World, op: Op, cp: string)
    requires Reachable(w) && Settled(w, cp) && op.BeginRecover?
    ensures Settled(Do(w, op), cp)
  {
    if Get(w.db, op.tenant, op.checkpoint).Ok? {
      var state := w.db.checkpoints[op.checkpoint].state;
      ReachableDocument(w, op.checkpoint);
      SettledBegin(w, op.pid, op.tenant, RecoverWrite, RecoverDocument(state, op.now), cp);
    }
  }

  lemma {:induction false} SettledStep(w: World, op: Op, cp: string)
    requires Reachable(w) && Settled(w, cp)
    ensures Settled(Do(w, op), cp)
  {
    if op.BeginPlan? {
      SettledBeginPlan(w, op, cp);
    } else if op.BeginExecute? {
      SettledBeginExecute(w, op, cp);
    } else if op.BeginRecover? {
      SettledBeginRecover(w, op, cp);
    } else if op.Commit? {
      if op.pid in w.inflight {
        ReachableCommit(w, op.pid, op.now);
        ReachableNumbered(w);
        SettledCommit(w, op.pid, CommitStep(w, op.pid, op.now), cp);
      }
    }
  }

  lemma {:induction false} SettledRun(w: World, ops: seq<Op>, cp: string)
    requires Reachable(w) && Settled(w, cp)
    ensures Reachable(Run(w, ops)) && Settled(Run(w, ops), cp)
  {
    ReachableRun(w, ops);
    if ops == [] {
    } else {
      ReachableRun(w, ops[..|ops| - 1]);
      SettledRun(w, ops[..|ops| - 1], cp);
      SettledStep(Run(w, ops[..|ops| - 1]), ops[|ops| - 1], cp);
    }
  }

  lemma {:induction false} OwnerIsAlone(db: Db, cp: string)
    requires Numbered(db) && cp in db.checkpoints
    ensures !OwnedByOther(db, db.checkpoints[cp].tenant)
  {
  }

  lemma {:induction false} StaleWriteLands(w: World, pid: nat, cp: string)
    requires pid in w.inflight
    requires w.inflight[pid].document.checkpoint == cp && !AllDone(w.inflight[pid].document.steps)
    requires !OwnedByOther(w.db, w.inflight[pid].tenant)
    requires CommitEffect(w, w.inflight[pid], CommitStep(w, pid, 0))
    ensures !Finished(Run(w, [Commit(pid, 0)]).db, cp)
  {
    RunOne(w, Commit(pid, 0));
  }

  /** A write that remembers the workflow undone undoes it when it commits. */
  lemma {:induction false} StaleWriteUndoes(w: World, pid: nat, cp: string)
    requires Reachable(w) && cp in w.db.checkpoints && pid in w.inflight
    requires !Agreeable(w.inflight[pid], cp, w.db.checkpoints[cp].tenant)
    ensures !Finished(Run(w, [Commit(pid, 0)]).db, cp)
  {
    ReachableCommit(w, pid, 0);
    ReachableNumbered(w);
    OwnerIsAlone(w.db, cp);
    StaleWriteLands(w, pid, cp);
  }

  /** The workflow is finished after every continuation, of any length and interleaving. */
  ghost predicate FinishedForGood(w: World, cp: string) {
    forall ops: seq<Op> :: Finished(Run(w, ops).db, cp)
  }

  /** Completion is permanent exactly when it is settled: every continuation leaves
      the workflow finished if and only if no pending write of its owner remembers it undone. */
  lemma {:induction false} CompletionIsPermanentIff(w: World, cp: string)
    requires Reachable(w)
    ensures Settled(w, cp) <==> FinishedForGood(w, cp)
  {
    if Settled(w, cp) {
      forall ops: seq<Op>
        ensures Finished(Run(w, ops).db, cp)
      {
        SettledRun(w, ops, cp);
        SettledIsFinished(Run(w, ops), cp);
      }
    } else if FinishedForGood(w, cp) {
      assert Finished(Run(w, []).db, cp);
      var pid :| pid in w.inflight && !Agreeable(w.inflight[pid], cp, w.db.checkpoints[cp].tenant);
      assert Finished(Run(w, [Commit(pid, 0)]).db, cp);
      StaleWriteUndoes(w, pid, cp);
    }
  }

  lemma {:induction false} BeginRecoverIs(w: World, pid: nat, tenant: string, cp: string, now: int)
    requires pid !in w.inflight && Get(w.db, tenant, cp).Ok? && w.db.checkpoints[cp].state.checkpoint == cp
    ensures Do(w, BeginRecover(pid, tenant, cp, now)) ==
            w.(inflight := w.inflight[pid := NewPending(w, tenant, RecoverWrite,
                RecoverDocument(w.db.checkpoints[cp].state, now))])
  {
  }

  /** An execute, read and written while a write of the same workflow is in flight, completes the
      workflow and leaves that write in flight. */
  lemma {:induction false} ExecuteOvertakes(w: World, e: nat, tenant: string, cp: string, now: int)
    requires Reachable(w) && e !in w.inflight
    requires Get(w.db, tenant, cp).Ok? && Executable(Get(w.db, tenant, cp).value)
    ensures var w' := Do(Do(w, BeginExecute(e, tenant, cp, now)), Commit(e, now));
            && Reachable(w') && w'.inflight == w.inflight && Finished(w'.db, cp)
            && w'.db.checkpoints[cp].tenant == tenant
  {
    var once := Do(Do(w, BeginExecute(e, tenant, cp, now)), Commit(e, now));
    ReachableStep(w, BeginExecute(e, tenant, cp, now));
    ReachableStep(Do(w, BeginExecute(e, tenant, cp, now)), Commit(e, now));
    ExecuteOnce(w, e, tenant, cp, now, once);
    ReachableDocument(once, cp);
    SettledIsFinished(once, cp);
  }

  /** Completion alone is not enough: a recover that read the workflow while its steps were
      queued, and writes after an execute has finished it, takes the completion back. */
  lemma {:induction false} LateRecoverUndoesCompletion(w: World, r: nat, e: nat, tenant: string, cp: string, now: int)
    requires Reachable(w) && r !in w.inflight && e !in w.inflight && r != e
    requires Get(w.db, tenant, cp).Ok? && AllQueued(Get(w.db, tenant, cp).value.steps)
        && Executable(Get(w.db, tenant, cp).value)
    ensures var w' := Do(Do(Do(w, BeginRecover(r, tenant, cp, now)), BeginExecute(e, tenant, cp, now)), Commit(e, now));
            Finished(w'.db, cp) && !Finished(Run(w', [Commit(r, 0)]).db, cp)
  {
    var w1 := Do(w, BeginRecover(r, tenant, cp, now));
    ReachableDocument(w, cp);
    ReachableStep(w, BeginRecover(r, tenant, cp, now));
    BeginRecoverIs(w, r, tenant, cp, now);
    assert w1.inflight[r].document.steps[0].status == Queued;
    ExecuteOvertakes(w1, e, tenant, cp, now);
    StaleWriteUndoes(Do(Do(w1, BeginExecute(e, tenant, cp, now)), Commit(e, now)), r, cp);
  }

  lemma {:induction false} RunSnoc(w: World, ops: seq<Op>, op: Op)
    ensures Run(w, ops + [op]) == Do(Run(w, ops), op)
  {
    assert (ops + [op])[..|ops + [op]| - 1] == ops;
  }

  /** The first plan of an empty database, written at once. */
  lemma {:induction false} FirstPlanLands(tenant: string, task: string, agents: Option<seq<string>>, now: int)
    ensures var w := Run(INITIAL, [BeginPlan(0, tenant, task, agents, now), Commit(0, now)]);
            && Reachable(w) && w.inflight == map[]
            && Get(w.db, tenant, CheckpointId(1)) == Ok(PlanDocument(CheckpointId(1), task, Crew(agents), now))
            && EarliestLeasable(w.db, tenant, CheckpointId(1), TaskId(CheckpointId(1), StepId(1)))
  {
    var plan := BeginPlan(0, tenant, task, agents, now);
    var b := Do(INITIAL, plan);
    assert Reachable(INITIAL) by {
      assert Run(INITIAL, []) == INITIAL;
    }
    RunOne(INITIAL, plan);
    RunSnoc(INITIAL, [plan], Commit(0, now));
    assert [plan] + [Commit(0, now)] == [plan, Commit(0, now)];
    ReachableStep(INITIAL, plan);
    ReachableStep(b, Commit(0, now));
    FirstPlan(INITIAL, 0, tenant, task, agents, now);
    ReachableCommit(b, 0, now);
    WriteLands(INITIAL, 0, b.inflight[0], CommitStep(b, 0, now));
    FirstTaskIsFirst(b, 0, now);
  }

  /** A plan and its execute: every task is SUCCEEDED, and none was ever attempted. */
  lemma {:induction false} ExecuteTakesNoAttempt(tenant: string, task: string, agents: Option<seq<string>>, now: int,
        id: string)
    ensures var cp := CheckpointId(1);
            var w := Run(INITIAL, [BeginPlan(0, tenant, task, agents, now), Commit(0, now)]);
            var w' := Do(Do(w, BeginExecute(2, tenant, cp, now)), Commit(2, now));
            id in w'.db.tasks && w'.db.tasks[id].workflowId == cp ==>
              w'.db.tasks[id].status == SUCCEEDED && w'.db.tasks[id].attempts == 0
  {
    var cp := CheckpointId(1);
    var w := Run(INITIAL, [BeginPlan(0, tenant, task, agents, now), Commit(0, now)]);
    FirstPlanLands(tenant, task, agents, now);
    PlanIsQueued(cp, task, Crew(agents), now);
    ExecuteOvertakes(w, 2, tenant, cp, now);
    ExecuteIsFresh(w, 2, tenant, cp, now, id);
  }

  lemma {:induction false} NothingAttempted(w: World, cp: string, id: string)
    requires Reachable(w) && TallyOf(w.log, cp, id) == NOTHING
    ensures id in w.db.tasks && w.db.tasks[id].workflowId == cp ==> w.db.tasks[id].attempts == 0
  {
    if id in w.db.tasks && w.db.tasks[id].workflowId == cp {
      AttemptConservation(w, id);
    }
  }

  /** A commit of the owner logs its upsert and puts its document there. */
  lemma {:induction false} OwnCommit(w: World, pid: nat, now: int)
    requires Reachable(w) && pid in w.inflight && w.inflight[pid].document.checkpoint in w.db.checkpoints
    requires w.db.checkpoints[w.inflight[pid].document.checkpoint].tenant == w.inflight[pid].tenant
    ensures var p, w' := w.inflight[pid], CommitStep(w, pid, now);
            && Reachable(w') && w'.inflight == w.inflight - {pid}
            && w'.log == w.log + [Upserted(p.document.checkpoint, p.kind)]
            && p.document.checkpoint in w'.db.checkpoints
            && w'.db.checkpoints[p.document.checkpoint].state == p.document
            && w'.db.checkpoints[p.document.checkpoint].tenant == p.tenant
  {
    ReachableCommit(w, pid, now);
    ReachableStep(w, Commit(pid, now));
    ReachableNumbered(w);
    OwnerIsAlone(w.db, w.inflight[pid].document.checkpoint);
  }

  /** Right after an execute has landed no task of its workflow has been attempted. */
  lemma {:induction false} ExecuteIsFresh(w: World, pid: nat, tenant: string, cp: string, now: int, id: string)
    requires Reachable(w) && pid !in w.inflight && Get(w.db, tenant, cp).Ok? && Executable(Get(w.db, tenant, cp).value)
    ensures var w' := Do(Do(w, BeginExecute(pid, tenant, cp, now)), Commit(pid, now));
            id in w'.db.tasks && w'.db.tasks[id].workflowId == cp ==> w'.db.tasks[id].attempts == 0
  {
    ExecuteIsLogged(w, pid, tenant, cp, now);
    TallyAfter(w.log, Upserted(cp, ExecuteWrite), cp, id);
    NothingAttempted(Do(Do(w, BeginExecute(pid, tenant, cp, now)), Commit(pid, now)), cp, id);
  }

  lemma {:induction false} ExecuteIsLogged(w: World, pid: nat, tenant: string, cp: string, now: int)
    requires Reachable(w) && pid !in w.inflight && Get(w.db, tenant, cp).Ok? && Executable(Get(w.db, tenant, cp).value)
    ensures var w' := Do(Do(w, BeginExecute(pid, tenant, cp, now)), Commit(pid, now));
            Reachable(w') && w'.log == w.log + [Upserted(cp, ExecuteWrite)]
  {
    var b := Do(w, BeginExecute(pid, tenant, cp, now));
    ReachableDocument(w, cp);
    BeginExecuteIs(w, pid, tenant, cp, now);
    ReachableStep(w, BeginExecute(pid, tenant, cp, now));
    OwnCommit(b, pid, now);
  }

  /** A write of the owner rebuilds the task of each of its steps. */
  lemma {:induction false} CommitRebuilds(w: World, pid: nat, now: int, i: nat)
    requires Reachable(w) && pid in w.inflight && !OwnedByOther(w.db, w.inflight[pid].tenant)
    requires i < |w.inflight[pid].document.steps|
    ensures var p := w.inflight[pid];
            var s := p.document.steps[i];
            var id, tasks := TaskId(p.document.checkpoint, s.id), CommitStep(w, pid, now).db.tasks;
            id in tasks && tasks[id] == NewTask(p.tenant, p.document.checkpoint, s, now)
  {
    var p := w.inflight[pid];
    ReachableInv(w);
    UpsertOutcome(w.db, w.log, p, now);
    var rows := TaskRows(p.tenant, p.document.checkpoint, p.document.steps, now);
    assert rows[i].0 == TaskId(p.document.checkpoint, p.document.steps[i].id);
  }

  lemma {:induction false} QueuedIsPending(w: World, pid: nat, now: int, i: nat)
    requires Reachable(w) && pid in w.inflight && !OwnedByOther(w.db, w.inflight[pid].tenant)
    requires AllQueued(w.inflight[pid].document.steps) && i < |w.inflight[pid].document.steps|
    ensures var id := TaskId(w.inflight[pid].document.checkpoint, w.inflight[pid].document.steps[i].id);
            var tasks := CommitStep(w, pid, now).db.tasks;
            && id in tasks && tasks[id].status == PENDING && tasks[id].leaseOwner.None? && tasks[id].attempts == 0
  {
    CommitRebuilds(w, pid, now, i);
  }

  /** A recover of a workflow whose document has its steps queued sets every task back to PENDING,
      a task that a worker has marked SUCCEEDED like any other. */
  lemma {:induction false} RecoverWipesMarks(w: World, pid: nat, tenant: string, cp: string, now: int, i: nat)
    requires Reachable(w) && pid !in w.inflight && Get(w.db, tenant, cp).Ok?
    requires AllQueued(w.db.checkpoints[cp].state.steps) && i < |w.db.checkpoints[cp].state.steps|
    ensures var id := TaskId(cp, w.db.checkpoints[cp].state.steps[i].id);
            var w' := Do(Do(w, BeginRecover(pid, tenant, cp, now)), Commit(pid, now));
            && id in w'.db.tasks && w'.db.tasks[id].status == PENDING
            && w'.db.tasks[id].leaseOwner.None? && w'.db.tasks[id].attempts == 0
  {
    ReachableDocument(w, cp);
    ReachableNumbered(w);
    OwnerIsAlone(w.db, cp);
    BeginRecoverIs(w, pid, tenant, cp, now);
    ReachableStep(w, BeginRecover(pid, tenant, cp, now));
    QueuedIsPending(Do(w, BeginRecover(pid, tenant, cp, now)), pid, now, i);
  }

  /** The tasks of a plan just written are PENDING and were all created just now. */
  lemma {:induction false} PlannedTask(w: World, pid: nat, now: int, id: string)
    requires Reachable(w) && pid in w.inflight && !OwnedByOther(w.db, w.inflight[pid].tenant)
    requires w.inflight[pid].kind == PlanWrite
    requires var db := CommitStep(w, pid, now).db;
             id in db.tasks && db.tasks[id].workflowId == w.inflight[pid].document.checkpoint
    ensures var t := CommitStep(w, pid, now).db.tasks[id];
            t.status == PENDING && t.createdAt == now && t.tenant == w.inflight[pid].tenant
  {
    var p, w' := w.inflight[pid], CommitStep(w, pid, now);
    PendingPlan(w, pid);
    ReachableCommit(w, pid, now);
    ReachableStep(w, Commit(pid, now));
    TasksAreSteps(w', p.document.checkpoint, id);
    var i :| 0 <= i < |p.document.steps| && id == TaskId(p.document.checkpoint, p.document.steps[i].id);
    CommitRebuilds(w, pid, now, i);
  }

  lemma {:induction false} PendingPlan(w: World, pid: nat)
    requires Reachable(w) && pid in w.inflight && w.inflight[pid].kind == PlanWrite
    ensures AllQueued(w.inflight[pid].document.steps) && w.inflight[pid].document.steps != []
    ensures w.inflight[pid].document.steps[0].id == StepId(1)
  {
    ReachablePendings(w);
    assert PendingOk(w.db, w.log, w.inflight[pid]);
  }

  /** So its first task may be leased first. */
  lemma {:induction false} FirstTaskIsFirst(w: World, pid: nat, now: int)
    requires Reachable(w) && pid in w.inflight && !OwnedByOther(w.db, w.inflight[pid].tenant)
    requires w.inflight[pid].kind == PlanWrite
    ensures var cp := w.inflight[pid].document.checkpoint;
            EarliestLeasable(CommitStep(w, pid, now).db, w.inflight[pid].tenant, cp, TaskId(cp, StepId(1)))
  {
    var p, db := w.inflight[pid], CommitStep(w, pid, now).db;
    PendingPlan(w, pid);
    CommitRebuilds(w, pid, now, 0);
    forall id | Leasable(db, p.tenant, p.document.checkpoint, id)
      ensures db.tasks[id].createdAt == now
    {
      PlannedTask(w, pid, now, id);
    }
  }

  /** A lease of a leasable task and the holder's mark make it SUCCEEDED. */
  lemma {:induction false} LeaseAndMark(w: World, tenant: string, wf: string, worker: string, now: int, id: string)
    requires EarliestLeasable(w.db, tenant, wf, id)
    ensures var w' := Do(Do(w, LeaseTask(tenant, wf, worker, 30, now, id)), MarkTask(tenant, id, worker, now));
            && id in w'.db.tasks && w'.db.tasks[id].status == SUCCEEDED
            && w'.db.checkpoints == w.db.checkpoints && w'.inflight == w.inflight
  {
  }

  /** A worker leases and marks the first task of a planned workflow, and a recover takes that
      back. */
  lemma {:induction false} RecoverAfterMark(w: World, pid: nat, tenant: string, cp: string, worker: string, now: int)
    requires Reachable(w) && pid !in w.inflight && Get(w.db, tenant, cp).Ok?
    requires AllQueued(w.db.checkpoints[cp].state.steps) && EarliestLeasable(w.db, tenant, cp, TaskId(cp, StepId(1)))
    ensures var id := TaskId(cp, StepId(1));
            var marked := Do(Do(w, LeaseTask(tenant, cp, worker, 30, now, id)), MarkTask(tenant, id, worker, now));
            var recovered := Do(Do(marked, BeginRecover(pid, tenant, cp, now)), Commit(pid, now));
            && id in marked.db.tasks && marked.db.tasks[id].status == SUCCEEDED
            && id in recovered.db.tasks && recovered.db.tasks[id].status == PENDING
  {
    var id := TaskId(cp, StepId(1));
    var leased := Do(w, LeaseTask(tenant, cp, worker, 30, now, id));
    LeaseAndMark(w, tenant, cp, worker, now, id);
    ReachableStep(w, LeaseTask(tenant, cp, worker, 30, now, id));
    ReachableStep(leased, MarkTask(tenant, id, worker, now));
    ReachableDocument(w, cp);
    RecoverWipesMarks(Do(leased, MarkTask(tenant, id, worker, now)), pid, tenant, cp, now, 0);
  }

  /** Such a run from the start. */
  lemma {:induction false} RecoverWipesMarkFromTheStart(
      tenant: string, task: string, agents: Option<seq<string>>, worker: string, now: int)
    ensures var cp := CheckpointId(1);
            var id := TaskId(cp, StepId(1));
            var w := Run(INITIAL, [BeginPlan(0, tenant, task, agents, now), Commit(0, now)]);
            var marked := Do(Do(w, LeaseTask(tenant, cp, worker, 30, now, id)), MarkTask(tenant, id, worker, now));
            var recovered := Do(Do(marked, BeginRecover(1, tenant, cp, now)), Commit(1, now));
            && id in marked.db.tasks && marked.db.tasks[id].status == SUCCEEDED
            && id in recovered.db.tasks && recovered.db.tasks[id].status == PENDING
  {
    var w := Run(INITIAL, [BeginPlan(0, tenant, task, agents, now), Commit(0, now)]);
    FirstPlanLands(tenant, task, agents, now);
    PlanIsQueued(CheckpointId(1), task, Crew(agents), now);
    RecoverAfterMark(w, 1, tenant, CheckpointId(1), worker, now);
  }

  lemma {:induction false} RunConcat(w: World, a: seq<Op>, b: seq<Op>)
    ensures Run(w, a + b) == Run(Run(w, a), b)
  {
    if b == [] {
      assert a + b == a;
    } else {
      assert (a + b)[..|a + b| - 1] == a + b[..|b| - 1];
      RunConcat(w, a, b[..|b| - 1]);
    }
  }

  lemma {:induction false} RunThree(w: World, a: Op, b: Op, c: Op)
    ensures Run(w, [a, b, c]) == Do(Do(Do(w, a), b), c)
  {
    RunOne(w, a);
    RunSnoc(w, [a], b);
    RunSnoc(w, [a] + [b], c);
    assert [a] + [b] + [c] == [a, b, c];
  }

  /** A recover and an execute that overlap. */
  function Overlap(tenant: string, cp: string, now: int): seq<Op> {
    [BeginRecover(1, tenant, cp, now), BeginExecute(2, tenant, cp, now), Commit(2, now)]
  }

  /** Such a run from the start: plan, then a recover and an execute that overlap. The execute
      finishes the workflow, and the recover's late write takes that back. */
  lemma {:induction false} LateRecoverFromTheStart(tenant: string, task: string, agents: Option<seq<string>>, now: int)
    ensures var cp := CheckpointId(1);
            var ops := [BeginPlan(0, tenant, task, agents, now), Commit(0, now)] + Overlap(tenant, cp, now);
            Finished(Run(INITIAL, ops).db, cp) && !Finished(Run(INITIAL, ops + [Commit(1, 0)]).db, cp)
  {
    var cp := CheckpointId(1);
    var two := [BeginPlan(0, tenant, task, agents, now), Commit(0, now)];
    RunConcat(INITIAL, two, Overlap(tenant, cp, now));
    RunConcat(INITIAL, two + Overlap(tenant, cp, now), [Commit(1, 0)]);
    FirstPlanLands(tenant, task, agents, now);
    OverlapUndoes(Run(INITIAL, two), tenant, task, Crew(agents), now);
  }

  lemma {:induction false} PlanIsQueued(cp: string, task: string, crew: seq<string>, now: int)
    ensures AllQueued(PlanDocument(cp, task, crew, now).steps) && Executable(PlanDocument(cp, task, crew, now))
  {
  }

  lemma {:induction false} OverlapUndoes(w: World, tenant: string, task: string, crew: seq<string>, now: int)
    requires Reachable(w) && w.inflight == map[]
    requires Get(w.db, tenant, CheckpointId(1)) == Ok(PlanDocument(CheckpointId(1), task, crew, now))
    ensures var w' := Run(w, Overlap(tenant, CheckpointId(1), now));
            Finished(w'.db, CheckpointId(1)) && !Finished(Run(w', [Commit(1, 0)]).db, CheckpointId(1))
  {
    var cp := CheckpointId(1);
    var w' := Do(Do(Do(w, BeginRecover(1, tenant, cp, now)), BeginExecute(2, tenant, cp, now)), Commit(2, now));
    assert Run(w, Overlap(tenant, cp, now)) == w' by {
      RunThree(w, BeginRecover(1, tenant, cp, now), BeginExecute(2, tenant, cp, now), Commit(2, now));
    }
    PlanIsQueued(cp, task, crew, now);
    LateRecoverUndoesCompletion(w, 1, 2, tenant, cp, now);
  }

  /** After any continuation of a settled workflow none of its tasks can be leased, and every
      mark, from whichever earlier lease, is refused. */
  lemma {:induction false} SettledTasksAreClosed(w: World, ops: seq<Op>, cp: string, tenant: string, id: string,
        worker: string)
    requires Reachable(w) && Settled(w, cp)
    ensures var db := Run(w, ops).db;
            && !Leasable(db, tenant, cp, id)
            && (id in db.tasks && db.tasks[id].workflowId == cp ==> !MarkAccepted(db, tenant, id, worker))
  {
    SettledRun(w, ops, cp);
    SettledIsFinished(Run(w, ops), cp);
  }

  // ---- exactly-once effects ----

  /** In every run each persisted document holds each step's effect at most once: one planning
      event, then nothing or one completion per step in order, then completions of the whole
      workflow, at most one per committed execute. */
  lemma {:induction false} EffectsHappenOnce(w: World, cp: string)
    requires Reachable(w) && cp in w.db.checkpoints
    ensures var doc := w.db.checkpoints[cp].state;
            && EffectsOnce(doc)
            && (AllQueued(doc.steps) || AllDone(doc.steps))
            && CompletionCount(doc.events) <= Executes(w.log, cp)
  {
    ReachableInv(w);
    assert Agrees(w.db, cp) && Counts(w.db, w.log, cp);
  }

  lemma {:induction false} ReachableCounts(w: World, cp: string)
    requires Reachable(w)
    ensures Counts(w.db, w.log, cp)
  {
    ReachableInv(w);
  }

  lemma {:induction false} ReachablePendings(w: World)
    requires Reachable(w)
    ensures Pendings(w.db, w.log, w.inflight)
  {
    ReachableInv(w);
  }

  // ---- executing again ----

  lemma {:induction false} ExecuteSkipsCompleted(w: World, pid: nat, tenant: string, cp: string, now: int)
    requires Get(w.db, tenant, cp).Ok? && Get(w.db, tenant, cp).value.status == Completed
    ensures Do(w, BeginExecute(pid, tenant, cp, now)) == w
    ensures pid !in w.inflight ==> Do(Do(w, BeginExecute(pid, tenant, cp, now)), Commit(pid, now)) == w
  {
  }

  /** A write that commits right after its read lands, and leaves nothing in flight. */
  lemma {:induction false} WriteLands(w: World, pid: nat, p: Pending, once: World)
    requires pid !in w.inflight && !OwnedByOther(w.db, p.tenant)
    requires CommitEffect(w.(inflight := w.inflight[pid := p]), p, once)
    requires once.inflight == w.inflight[pid := p] - {pid}
    ensures once.inflight == w.inflight
    ensures Get(once.db, p.tenant, p.document.checkpoint) == Ok(p.document)
  {
  }

  lemma {:induction false} LandsAfterBegin(w: World, pid: nat, p: Pending, b: World, now: int)
    requires Numbered(w.db) && pid !in w.inflight && p.document.checkpoint in w.db.checkpoints
    requires w.db.checkpoints[p.document.checkpoint].tenant == p.tenant
    requires b == w.(inflight := w.inflight[pid := p]) && Reachable(b)
    ensures CommitStep(b, pid, now).inflight == w.inflight
    ensures Get(CommitStep(b, pid, now).db, p.tenant, p.document.checkpoint) == Ok(p.document)
  {
    ReachableCommit(b, pid, now);
    OwnerIsAlone(w.db, p.document.checkpoint);
    WriteLands(w, pid, p, CommitStep(b, pid, now));
  }

  lemma {:induction false} BeginExecuteIs(w: World, pid: nat, tenant: string, cp: string, now: int)
    requires pid !in w.inflight
    requires Get(w.db, tenant, cp).Ok? && Executable(Get(w.db, tenant, cp).value)
    requires w.db.checkpoints[cp].state.checkpoint == cp
    ensures Do(w, BeginExecute(pid, tenant, cp, now)) ==
            w.(inflight := w.inflight[pid := NewPending(w, tenant, ExecuteWrite,
                ExecuteDocument(w.db.checkpoints[cp].state, now))])
    ensures ExecuteDocument(w.db.checkpoints[cp].state, now).checkpoint == cp
    ensures ExecuteDocument(w.db.checkpoints[cp].state, now).status == Completed
  {
  }

  lemma {:induction false} ExecuteLands(w: World, pid: nat, tenant: string, cp: string, now: int)
    requires Reachable(w) && pid !in w.inflight && Get(w.db, tenant, cp).Ok? && Executable(Get(w.db, tenant, cp).value)
    ensures var once := CommitStep(Do(w, BeginExecute(pid, tenant, cp, now)), pid, now);
            once.inflight == w.inflight && IsCompleted(once.db, tenant, cp)
  {
    var state := w.db.checkpoints[cp].state;
    var p := NewPending(w, tenant, ExecuteWrite, ExecuteDocument(state, now));
    ReachableDocument(w, cp);
    ReachableNumbered(w);
    BeginExecuteIs(w, pid, tenant, cp, now);
    ReachableStep(w, BeginExecute(pid, tenant, cp, now));
    LandsAfterBegin(w, pid, p, Do(w, BeginExecute(pid, tenant, cp, now)), now);
  }

  /** An undisturbed execute leaves its workflow completed and nothing in flight. */
  lemma {:induction false} ExecuteOnce(w: World, pid: nat, tenant: string, cp: string, now: int, once: World)
    requires Reachable(w) && pid !in w.inflight && Get(w.db, tenant, cp).Ok?
    requires once == Do(Do(w, BeginExecute(pid, tenant, cp, now)), Commit(pid, now))
    ensures once.inflight == w.inflight
    ensures IsCompleted(once.db, tenant, cp)
  {
    ReachableDocument(w, cp);
    if Executable(Get(w.db, tenant, cp).value) {
      ExecuteLands(w, pid, tenant, cp, now);
    } else {
      ExecuteSkipsCompleted(w, pid, tenant, cp, now);
    }
  }

  /** Every commit of the run to the tenant's workflow is an execute's. */
  ghost predicate OnlyExecuted(w: World, ops: seq<Op>, tenant: string, cp: string) {
    ops == [] ||
    var before, op := Run(w, ops[..|ops| - 1]), ops[|ops| - 1];
    && OnlyExecuted(w, ops[..|ops| - 1], tenant, cp)
    && (op.Commit? && op.pid in before.inflight ==> ExecuteOrElsewhere(before.inflight[op.pid], tenant, cp))
  }

  predicate ExecuteOrElsewhere(p: Pending, tenant: string, cp: string) {
    p.tenant == tenant && p.document.checkpoint == cp ==> p.kind == ExecuteWrite
  }

  ghost predicate IsCompleted(db: Db, tenant: string, cp: string) {
    Get(db, tenant, cp).Ok? && Get(db, tenant, cp).value.status == Completed
  }

  lemma {:induction false} CommitKeepsCompleted(w: World, pid: nat, w': World, tenant: string, cp: string)
    requires IsCompleted(w.db, tenant, cp) && Numbered(w.db) && pid in w.inflight
    requires w.inflight[pid].kind == ExecuteWrite ==> w.inflight[pid].document.status == Completed
    requires ExecuteOrElsewhere(w.inflight[pid], tenant, cp) && CommitEffect(w, w.inflight[pid], w')
    ensures IsCompleted(w'.db, tenant, cp)
  {
    var p := w.inflight[pid];
    if !OwnedByOther(w.db, p.tenant) {
      assert w.db.checkpoints[cp].tenant == p.tenant;
    }
  }

  lemma {:induction false} ReachableExecute(w: World, pid: nat)
    requires Reachable(w) && pid in w.inflight
    ensures w.inflight[pid].kind == ExecuteWrite ==> w.inflight[pid].document.status == Completed
  {
    ReachablePendings(w);
    assert PendingOk(w.db, w.log, w.inflight[pid]);
  }

  lemma {:induction false} StepKeepsCompleted(w: World, op: Op, tenant: string, cp: string)
    requires Reachable(w) && IsCompleted(w.db, tenant, cp)
    requires op.Commit? && op.pid in w.inflight ==> ExecuteOrElsewhere(w.inflight[op.pid], tenant, cp)
    ensures IsCompleted(Do(w, op).db, tenant, cp)
  {
    if op.Commit? {
      if op.pid in w.inflight {
        ReachableCommit(w, op.pid, op.now);
        ReachableNumbered(w);
        ReachableExecute(w, op.pid);
        CommitKeepsCompleted(w, op.pid, CommitStep(w, op.pid, op.now), tenant, cp);
      }
    } else if op.LeaseTask? || op.MarkTask? || op.RecoverLeases? {
      var e := LeaseOpShape(w, op);
    }
  }

  lemma {:induction false} CompletedStays(w: World, ops: seq<Op>, tenant: string, cp: string)
    requires Reachable(w) && IsCompleted(w.db, tenant, cp) && OnlyExecuted(w, ops, tenant, cp)
    ensures IsCompleted(Run(w, ops).db, tenant, cp)
  {
    if ops == [] {
    } else {
      CompletedStays(w, ops[..|ops| - 1], tenant, cp);
      ReachableRun(w, ops[..|ops| - 1]);
      StepKeepsCompleted(Run(w, ops[..|ops| - 1]), ops[|ops| - 1], tenant, cp);
    }
  }

  /** Execute is idempotent: once an execute has landed, and as long as nothing but executes has
      been written to the workflow since, whatever plans, leases, marks and other processes ran
      in between, a further execute by any process changes nothing at all. */
  lemma {:induction false} ExecuteIsIdempotent(w: World, pid: nat, tenant: string, cp: string, now: int, ops: seq<Op>,
        again: nat, later: int)
    requires Reachable(w) && pid !in w.inflight && Get(w.db, tenant, cp).Ok?
    requires OnlyExecuted(Do(Do(w, BeginExecute(pid, tenant, cp, now)), Commit(pid, now)), ops, tenant, cp)
    ensures var once := Do(Do(w, BeginExecute(pid, tenant, cp, now)), Commit(pid, now));
            var then_ := Run(once, ops);
            && IsCompleted(once.db, tenant, cp) && IsCompleted(then_.db, tenant, cp)
            && Do(then_, BeginExecute(again, tenant, cp, later)) == then_
            && (again !in then_.inflight ==>
                  Do(Do(then_, BeginExecute(again, tenant, cp, later)), Commit(again, later)) == then_)
  {
    var once := Do(Do(w, BeginExecute(pid, tenant, cp, now)), Commit(pid, now));
    ReachableStep(w, BeginExecute(pid, tenant, cp, now));
    ReachableStep(Do(w, BeginExecute(pid, tenant, cp, now)), Commit(pid, now));
    ExecuteOnce(w, pid, tenant, cp, now, once);
    CompletedStays(once, ops, tenant, cp);
    ExecuteSkipsCompleted(Run(once, ops), again, tenant, cp, later);
  }
}
