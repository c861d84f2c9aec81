/** What becomes of plans and executes when writes overtake each other: which are lost, and
    exactly when none is. */
module WorkflowConservation {
  import opened WorkflowTables
  import opened WorkflowDocuments
  import opened WorkflowInvariant
  import opened WorkflowRuns
  import opened WorkflowTheorems

  /** A pending write is fresh if its target still has the version it read. */
  predicate Fresh(db: Db, p: Pending) {
    RowVersion(db, p.document.checkpoint) == p.base
  }

  // ---- plans ----

  /** Committed plans in the history. */
  function Plans(log: seq<Entry>): nat {
    if log == [] then 0
    else Plans(log[..|log| - 1]) + if log[|log| - 1].Upserted? && log[|log| - 1].kind == PlanWrite then 1 else 0
  }

  lemma {:induction false} PlansAfter(log: seq<Entry>, e: Entry)
    ensures Plans(log + [e]) == Plans(log) + if e.Upserted? && e.kind == PlanWrite then 1 else 0
  {
    assert (log + [e])[..|log + [e]| - 1] == log;
  }

  /** The step persists a plan whose target's version has moved since its read. */
  ghost predicate LosesPlan(w: World, op: Op) {
    && op.Commit? && op.pid in w.inflight
    && w.inflight[op.pid].kind == PlanWrite && !OwnedByOther(w.db, w.inflight[op.pid].tenant)
    && !Fresh(w.db, w.inflight[op.pid])
  }

  ghost function LostPlans(w: World, ops: seq<Op>): nat {
    if ops == [] then 0
    else LostPlans(w, ops[..|ops| - 1]) + if LosesPlan(Run(w, ops[..|ops| - 1]), ops[|ops| - 1]) then 1 else 0
  }

  /** One checkpoint per committed plan that lost none, and every pending execute or recover has
      its checkpoint. */
  ghost predicate PlansCounted(w: World, lost: nat) {
    && |w.db.checkpoints| + lost == Plans(w.log)
    && forall pid :: pid in w.inflight && w.inflight[pid].kind != PlanWrite ==>
                       w.inflight[pid].document.checkpoint in w.db.checkpoints
  }

  lemma {:induction false} PlansCommit(w: World, pid: nat, w': World, lost: nat)
    requires PlansCounted(w, lost) && pid in w.inflight
    requires w'.inflight == w.inflight - {pid} && CommitEffect(w, w.inflight[pid], w')
    ensures var p := w.inflight[pid];
            var overwrites := p.kind == PlanWrite && !OwnedByOther(w.db, p.tenant)
                && p.document.checkpoint in w.db.checkpoints;
            PlansCounted(w', lost + if overwrites then 1 else 0)
  {
    var p := w.inflight[pid];
    if !OwnedByOther(w.db, p.tenant) {
      var cp := p.document.checkpoint;
      PlansAfter(w.log, Upserted(cp, p.kind));
      var keys, keys' := w.db.checkpoints.Keys, w'.db.checkpoints.Keys;
      assert keys' == keys + {cp};
      assert |w.db.checkpoints| == |keys| && |w'.db.checkpoints| == |keys'|;
      assert cp in keys ==> keys' == keys;
    }
  }

  lemma {:induction false} PlansCommitStep(w: World, op: Op, lost: nat)
    requires Reachable(w) && PlansCounted(w, lost) && op.Commit? && op.pid in w.inflight
    ensures PlansCounted(Do(w, op), lost + if LosesPlan(w, op) then 1 else 0)
  {
    ReachableCommit(w, op.pid, op.now);
    if w.inflight[op.pid].kind == PlanWrite && !OwnedByOther(w.db, w.inflight[op.pid].tenant) {
      PlanOverwritesIff(w, op.pid);
    }
    PlansCommit(w, op.pid, CommitStep(w, op.pid, op.now), lost);
  }

  lemma {:induction false} PlansBegin(w: World, pid: nat, tenant: string, kind: Kind, doc: Workflow, lost: nat)
    requires PlansCounted(w, lost) && (kind != PlanWrite ==> doc.checkpoint in w.db.checkpoints)
    ensures PlansCounted(Begin(w, pid, tenant, kind, doc), lost)
  {
  }

  lemma {:induction false} PlansBeginOps(w: World, op: Op, lost: nat)
    requires Reachable(w) && PlansCounted(w, lost) && (op.BeginPlan? || op.BeginExecute? || op.BeginRecover?)
    ensures PlansCounted(Do(w, op), lost)
  {
    if op.BeginPlan? {
      PlansBegin(w, op.pid, op.tenant, PlanWrite,
          PlanDocument(NextCheckpoint(w.db, op.tenant), op.task, Crew(op.agents), op.now), lost);
    } else if Get(w.db, op.tenant, op.checkpoint).Ok? {
      var doc := w.db.checkpoints[op.checkpoint].state;
      ReachableDocument(w, op.checkpoint);
      if op.BeginRecover? {
        PlansBegin(w, op.pid, op.tenant, RecoverWrite, RecoverDocument(doc, op.now), lost);
      } else if Executable(doc) {
        PlansBegin(w, op.pid, op.tenant, ExecuteWrite, ExecuteDocument(doc, op.now), lost);
      }
    }
  }

  lemma {:induction false} PlansStep(w: World, op: Op, lost: nat)
    requires Reachable(w) && PlansCounted(w, lost)
    ensures PlansCounted(Do(w, op), lost + if LosesPlan(w, op) then 1 else 0)
  {
    if op.Commit? {
      if op.pid in w.inflight {
        PlansCommitStep(w, op, lost);
      }
    } else if op.LeaseTask? || op.MarkTask? || op.RecoverLeases? {
      var e := LeaseOpShape(w, op);
      PlansAfter(w.log, e);
    } else if !op.Die? {
      PlansBeginOps(w, op, lost);
    }
  }

  lemma {:induction false} RunsCountPlans(ops: seq<Op>)
    ensures PlansCounted(Run(INITIAL, ops), LostPlans(INITIAL, ops))
  {
    if ops == [] {
    } else {
      RunsCountPlans(ops[..|ops| - 1]);
      assert Reachable(Run(INITIAL, ops[..|ops| - 1]));
      PlansStep(Run(INITIAL, ops[..|ops| - 1]), ops[|ops| - 1], LostPlans(INITIAL, ops[..|ops| - 1]));
    }
  }

  /** Plans are conserved: in every run each committed plan has its checkpoint, or overwrote one
      because its target's version had moved since its read. */
  lemma {:induction false} PlansAreConserved(ops: seq<Op>)
    ensures |Run(INITIAL, ops).db.checkpoints| + LostPlans(INITIAL, ops) == Plans(Run(INITIAL, ops).log)
  {
    RunsCountPlans(ops);
  }

  /** After n committed plans, whatever else ran, the checkpoint ids are exactly checkpoint-1 ..
      checkpoint-n if and only if no plan was written over a version that had moved. */
  lemma {:induction false} PlansAreNumberedIff(ops: seq<Op>)
    ensures var w := Run(INITIAL, ops);
            LostPlans(INITIAL, ops) == 0 <==> w.db.checkpoints.Keys == Ids(Plans(w.log))
  {
    var w := Run(INITIAL, ops);
    assert Reachable(w);
    ReachableNumbered(w);
    PlansAreConserved(ops);
    IdsSize(Plans(w.log));
    assert |w.db.checkpoints| == |w.db.checkpoints.Keys|;
  }

  // ---- executes ----

  /** Every document records exactly the executes written to its workflow. */
  ghost predicate ExactDocuments(w: World) {
    forall cp :: cp in w.db.checkpoints ==> CompletionCount(w.db.checkpoints[cp].state.events) == Executes(w.log, cp)
  }

  /** It has been so after every step of the run. */
  ghost predicate AlwaysExact(w: World, ops: seq<Op>) {
    ExactDocuments(Run(w, ops)) && (ops == [] || AlwaysExact(w, ops[..|ops| - 1]))
  }

  /** Completions that the workflow's document records now; none if there is none. */
  function Recorded(db: Db, cp: string): nat {
    if cp in db.checkpoints then CompletionCount(db.checkpoints[cp].state.events) else 0
  }

  /** The step persists a document that does not record the completions now recorded, and one more
      for an execute. */
  ghost predicate Forgets(w: World, op: Op) {
    && op.Commit? && op.pid in w.inflight && !OwnedByOther(w.db, w.inflight[op.pid].tenant)
    && var p := w.inflight[op.pid];
       CompletionCount(p.document.events) != Recorded(w.db, p.document.checkpoint) + if p.kind == ExecuteWrite
           then 1 else 0
  }

  /** The write's workflow has been executed since the write's read. */
  ghost predicate Overtaken(w: World, p: Pending) {
    p.seen != Executes(w.log, p.document.checkpoint)
  }

  ghost predicate NeverForgets(w: World, ops: seq<Op>) {
    ops == [] || (NeverForgets(w, ops[..|ops| - 1]) && !Forgets(Run(w, ops[..|ops| - 1]), ops[|ops| - 1]))
  }

  /** A pending write records the executes it saw, and its own. */
  ghost predicate Mindful(db: Db, p: Pending) {
    !OwnedByOther(db, p.tenant) ==>
      CompletionCount(p.document.events) == p.seen + if p.kind == ExecuteWrite then 1 else 0
  }

  ghost predicate AllMindful(w: World) {
    forall pid :: pid in w.inflight ==> Mindful(w.db, w.inflight[pid])
  }

  lemma {:induction false} ExecutesAreUpserts(log: seq<Entry>, cp: string)
    ensures Executes(log, cp) <= Upserts(log, cp)
  {
    if log == [] {
    } else {
      ExecutesAreUpserts(log[..|log| - 1], cp);
    }
  }

  lemma {:induction false} MindfulBegin(w: World, pid: nat, tenant: string, kind: Kind, doc: Workflow)
    requires AllMindful(w) && Mindful(w.db, NewPending(w, tenant, kind, doc))
    ensures AllMindful(Begin(w, pid, tenant, kind, doc))
  {
  }

  lemma {:induction false} MindfulPlan(w: World, op: Op)
    requires Reachable(w) && AllMindful(w) && op.BeginPlan?
    ensures AllMindful(Do(w, op))
  {
    var cp := NextCheckpoint(w.db, op.tenant);
    PlanShape(cp, op.task, Crew(op.agents), op.now);
    ReachableNumbered(w);
    NextCheckpointFresh(w.db, op.tenant);
    ReachableCounts(w, cp);
    ExecutesAreUpserts(w.log, cp);
    MindfulBegin(w, op.pid, op.tenant, PlanWrite, PlanDocument(cp, op.task, Crew(op.agents), op.now));
  }

  lemma {:induction false} MindfulRevisit(w: World, op: Op)
    requires Reachable(w) && AllMindful(w) && ExactDocuments(w) && (op.BeginExecute? || op.BeginRecover?)
    ensures AllMindful(Do(w, op))
  {
    if Get(w.db, op.tenant, op.checkpoint).Ok? {
      var doc := w.db.checkpoints[op.checkpoint].state;
      ReachableDocument(w, op.checkpoint);
      if op.BeginRecover? {
        MindfulBegin(w, op.pid, op.tenant, RecoverWrite, RecoverDocument(doc, op.now));
      } else if Executable(doc) {
        ExecuteShape(doc, op.now);
        MindfulBegin(w, op.pid, op.tenant, ExecuteWrite, ExecuteDocument(doc, op.now));
      }
    }
  }

  lemma {:induction false} MindfulCommit(w: World, pid: nat, w': World)
    requires AllMindful(w) && pid in w.inflight
    requires w'.inflight == w.inflight - {pid} && CommitEffect(w, w.inflight[pid], w')
    ensures AllMindful(w')
  {
    var p := w.inflight[pid];
    forall q | q in w'.inflight
      ensures Mindful(w'.db, w'.inflight[q])
    {
      assert Mindful(w.db, w.inflight[q]);
      if !OwnedByOther(w.db, p.tenant) {
        var cp := p.document.checkpoint;
        OwnedByOtherKept(w.db, p.tenant, cp, w'.db.checkpoints[cp], w'.db, w.inflight[q].tenant);
      }
    }
  }

  lemma {:induction false} MindfulStep(w: World, op: Op)
    requires Reachable(w) && AllMindful(w) && ExactDocuments(w)
    ensures AllMindful(Do(w, op))
  {
    if op.Commit? {
      if op.pid in w.inflight {
        ReachableCommit(w, op.pid, op.now);
        MindfulCommit(w, op.pid, CommitStep(w, op.pid, op.now));
      }
    } else if op.BeginPlan? {
      MindfulPlan(w, op);
    } else if op.BeginExecute? || op.BeginRecover? {
      MindfulRevisit(w, op);
    } else if !op.Die? {
      var e := LeaseOpShape(w, op);
    }
  }

  /** A workflow without a document has not been executed. */
  lemma {:induction false} RecordedIsExecuted(w: World, cp: string)
    requires Reachable(w) && ExactDocuments(w)
    ensures Recorded(w.db, cp) == Executes(w.log, cp)
  {
    ReachableCounts(w, cp);
    ReachableNumbered(w);
    ExecutesAreUpserts(w.log, cp);
  }

  /** A commit keeps the documents exact if and only if it forgets nothing. */
  lemma {:induction false} CommitIsExactIff(w: World, op: Op, w': World)
    requires ExactDocuments(w) && op.Commit? && op.pid in w.inflight
    requires var cp := w.inflight[op.pid].document.checkpoint;
             Recorded(w.db, cp) == Executes(w.log, cp)
    requires CommitEffect(w, w.inflight[op.pid], w')
    ensures ExactDocuments(w') <==> !Forgets(w, op)
  {
    var p := w.inflight[op.pid];
    if !OwnedByOther(w.db, p.tenant) {
      var e := Upserted(p.document.checkpoint, p.kind);
      forall cp
        ensures Executes(w'.log, cp) == Executes(w.log, cp) + if e == Upserted(cp, ExecuteWrite) then 1 else 0
      {
        TallyAfter(w.log, e, cp, "");
      }
      assert w'.db.checkpoints[p.document.checkpoint].state == p.document;
    }
  }

  lemma {:induction false} LeaseKeepsExact(w: World, db': Db, e: Entry)
    requires ExactDocuments(w) && !e.Upserted? && db'.checkpoints == w.db.checkpoints
    ensures ExactDocuments(World(db', w.inflight, w.log + [e]))
  {
    forall cp
      ensures Executes(w.log + [e], cp) == Executes(w.log, cp)
    {
      TallyAfter(w.log, e, cp, "");
    }
  }

  lemma {:induction false} StepIsExactIff(w: World, op: Op)
    requires Reachable(w) && ExactDocuments(w)
    ensures ExactDocuments(Do(w, op)) <==> !Forgets(w, op)
  {
    if op.Commit? {
      if op.pid in w.inflight {
        ReachableCommit(w, op.pid, op.now);
        RecordedIsExecuted(w, w.inflight[op.pid].document.checkpoint);
        CommitIsExactIff(w, op, CommitStep(w, op.pid, op.now));
      }
    } else if op.LeaseTask? || op.MarkTask? || op.RecoverLeases? {
      var e := LeaseOpShape(w, op);
      if Do(w, op) != w {
        LeaseKeepsExact(w, Do(w, op).db, e);
      }
    }
  }

  lemma {:induction false} ExactRunsAreMindful(ops: seq<Op>)
    requires AlwaysExact(INITIAL, ops)
    ensures AllMindful(Run(INITIAL, ops))
  {
    if ops == [] {
    } else {
      ExactRunsAreMindful(ops[..|ops| - 1]);
      assert Reachable(Run(INITIAL, ops[..|ops| - 1]));
      MindfulStep(Run(INITIAL, ops[..|ops| - 1]), ops[|ops| - 1]);
    }
  }

  /** Executes are recorded exactly as long as none is forgotten: after every step of a run every
      document records one completion per execute written to its workflow, if and only if every
      persisted write records the completions that it finds, and one more for an execute. */
  lemma {:induction false} ExecutesAreRecordedIff(ops: seq<Op>)
    ensures AlwaysExact(INITIAL, ops) <==> NeverForgets(INITIAL, ops)
  {
    if ops == [] {
    } else {
      var front, op := ops[..|ops| - 1], ops[|ops| - 1];
      ExecutesAreRecordedIff(front);
      if AlwaysExact(INITIAL, front) {
        assert Reachable(Run(INITIAL, front));
        StepIsExactIff(Run(INITIAL, front), op);
      }
    }
  }

  /** As long as documents are exact, a write forgets exactly when it has been overtaken: its
      workflow was executed between its read and its commit. */
  lemma {:induction false} ForgetsIffOvertaken(ops: seq<Op>, pid: nat, now: int)
    requires AlwaysExact(INITIAL, ops) && pid in Run(INITIAL, ops).inflight
    requires !OwnedByOther(Run(INITIAL, ops).db, Run(INITIAL, ops).inflight[pid].tenant)
    ensures var w := Run(INITIAL, ops);
            Forgets(w, Commit(pid, now)) <==> Overtaken(w, w.inflight[pid])
  {
    var w := Run(INITIAL, ops);
    assert Reachable(w);
    ExactRunsAreMindful(ops);
    RecordedIsExecuted(w, w.inflight[pid].document.checkpoint);
    assert Mindful(w.db, w.inflight[pid]);
  }

  /** Two writes of executes that both read the same document: both are logged, one is recorded. */
  lemma {:induction false} SecondWriteHidesFirst(w: World, a: nat, b: nat, cp: string, now: int)
    requires Reachable(w) && a in w.inflight && b in w.inflight && a != b && cp in w.db.checkpoints
    requires w.inflight[a] == w.inflight[b] && w.inflight[a].kind == ExecuteWrite
    requires w.inflight[a].document.checkpoint == cp && w.inflight[a].tenant == w.db.checkpoints[cp].tenant
    ensures var w' := CommitStep(CommitStep(w, a, now), b, now);
            && Executes(w'.log, cp) == Executes(w.log, cp) + 2
            && cp in w'.db.checkpoints && w'.db.checkpoints[cp].state == w.inflight[a].document
  {
    var w1 := CommitStep(w, a, now);
    OwnCommit(w, a, now);
    OwnCommit(w1, b, now);
    TallyAfter(w.log, Upserted(cp, ExecuteWrite), cp, "");
    TallyAfter(w1.log, Upserted(cp, ExecuteWrite), cp, "");
  }

  /** Overlapping executes: two processes execute a workflow, each reads before either writes.
      Two executes are written, and the document records one. */
  lemma {:induction false} OverlappingExecutesRecordOne(w: World, a: nat, b: nat, tenant: string, cp: string, now: int)
    requires Reachable(w) && a !in w.inflight && b !in w.inflight && a != b
    requires Get(w.db, tenant, cp).Ok? && Executable(Get(w.db, tenant, cp).value)
    ensures var w2 := Do(Do(w, BeginExecute(a, tenant, cp, now)), BeginExecute(b, tenant, cp, now));
            var w4 := CommitStep(CommitStep(w2, a, now), b, now);
            && Executes(w4.log, cp) == Executes(w.log, cp) + 2
            && cp in w4.db.checkpoints
            && Recorded(w4.db, cp) == Recorded(w.db, cp) + 1
  {
    var w1 := Do(w, BeginExecute(a, tenant, cp, now));
    ReachableDocument(w, cp);
    ReachableStep(w, BeginExecute(a, tenant, cp, now));
    ReachableStep(w1, BeginExecute(b, tenant, cp, now));
    BeginExecuteIs(w, a, tenant, cp, now);
    BeginExecuteIs(w1, b, tenant, cp, now);
    ExecuteShape(w.db.checkpoints[cp].state, now);
    SecondWriteHidesFirst(Do(w1, BeginExecute(b, tenant, cp, now)), a, b, cp, now);
  }
}
