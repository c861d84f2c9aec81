/** The workflow documents that plan, execute and recover produce, and their shape:
    what has happened to a workflow can be read off its document, effect by effect. */
module WorkflowDocuments {
  import opened Tables
  import opened WorkflowTables

  const DEFAULT_AGENTS := ["architect", "implementer", "reviewer"]

  /** A missing or empty agent list falls back to the default crew. */
  function Crew(agents: Option<seq<string>>): (crew: seq<string>)
    ensures crew != []
    ensures agents.Some? && agents.value != [] ==> crew == agents.value
  {
    if agents.Some? && agents.value != [] then agents.value else DEFAULT_AGENTS
  }

  function PlannedStep(checkpoint: string, task: string, agent: string, number: nat): Step {
    Step(StepId(number), agent, agent + " handles " + task, Queued, [], TaskId(checkpoint, StepId(number)))
  }

  function PlanDocument(checkpoint: string, task: string, crew: seq<string>, now: int): Workflow {
    Workflow(
      task,
      seq(|crew|, i requires 0 <= i < |crew| => PlannedStep(checkpoint, task, crew[i], i + 1)),
      checkpoint, Planned, now, now,
      [WorkflowPlanned(checkpoint, now)])
  }

  function Observation(task: string, s: Step, now: int): Event {
    StepCompleted(s.id, s.agent, now, s.agent + " completed governed work on: " + task, s.key)
  }

  function CompletedStep(task: string, s: Step, now: int): Step {
    s.(status := Completed, observations := s.observations + [Observation(task, s, now)])
  }

  /** The execute loop over the steps: completed steps are skipped, the others run once.
      Returns the steps and the observations made. */
  function RunSteps(task: string, steps: seq<Step>, now: int): (r: (seq<Step>, seq<Event>)) {
    if steps == [] then ([], [])
    else
      var s := steps[|steps| - 1];
      var (done, log) := RunSteps(task, steps[..|steps| - 1], now);
      if s.status == Completed then (done + [s], log)
      else (done + [CompletedStep(task, s, now)], log + [Observation(task, s, now)])
  }

  predicate Executable(w: Workflow) {
    w.status in {Planned, Recovered, Running}
  }

  function ExecuteDocument(w: Workflow, now: int): Workflow {
    var (steps, log) := RunSteps(w.task, w.steps, now);
    w.(steps := steps, status := Completed, updatedAt := now,
       events := w.events + log + [WorkflowCompleted(w.checkpoint, now)])
  }

  function RecoverDocument(w: Workflow, now: int): Workflow {
    w.(status := Recovered, updatedAt := now)
  }

  // ---- shape ----

  ghost predicate AllQueued(steps: seq<Step>) {
    forall i :: 0 <= i < |steps| ==> steps[i].status == Queued && steps[i].observations == []
  }

  /** Every step completed, with exactly one observation, and that one its own. */
  ghost predicate AllDone(steps: seq<Step>) {
    forall i :: 0 <= i < |steps| ==>
      && steps[i].status == Completed
      && |steps[i].observations| == 1
      && ObservationOf(steps[i].observations[0], steps[i])
  }

  ghost predicate ObservationOf(e: Event, s: Step) {
    e.StepCompleted? && e.stepId == s.id && e.agent == s.agent && e.key == s.key
  }

  function CompletionCount(events: seq<Event>): nat {
    if events == [] then 0
    else CompletionCount(events[..|events| - 1]) + if events[|events| - 1].WorkflowCompleted? then 1 else 0
  }

  /** The events are one `workflow.planned`, and after an execute one `step.completed` per
      step in step order followed by nothing but `workflow.completed` (at least one). */
  ghost predicate EffectsOnce(w: Workflow) {
    var n := |w.steps|;
    && w.events != []
    && w.events[0] == WorkflowPlanned(w.checkpoint, w.createdAt)
    && (AllQueued(w.steps) ==> |w.events| == 1)
    && (AllDone(w.steps) ==>
          && |w.events| > n + 1
          && (forall i :: 0 <= i < n ==> w.events[i + 1] == w.steps[i].observations[0])
          && (forall i :: n < i < |w.events| ==>
                w.events[i].WorkflowCompleted? && w.events[i].checkpoint == w.checkpoint))
  }

  /** Shape of every document that the engine persists. */
  ghost predicate WellFormed(w: Workflow) {
    && w.steps != []
    && (forall i :: 0 <= i < |w.steps| ==>
          w.steps[i].id == StepId(i + 1) && w.steps[i].key == TaskId(w.checkpoint, StepId(i + 1)))
    && (AllQueued(w.steps) || AllDone(w.steps))
    && w.status in {Planned, Recovered, Completed}
    && (w.status == Planned ==> AllQueued(w.steps))
    && (w.status == Completed ==> AllDone(w.steps))
    && EffectsOnce(w)
  }

  lemma {:induction false} CompletionCountAppend(a: seq<Event>, b: seq<Event>)
    ensures CompletionCount(a + b) == CompletionCount(a) + CompletionCount(b)
  {
    if b == [] {
      assert a + b == a;
    } else {
      assert (a + b)[..|a + b| - 1] == a + b[..|b| - 1];
      CompletionCountAppend(a, b[..|b| - 1]);
    }
  }

  lemma {:induction false} RunQueuedSteps(task: string, steps: seq<Step>, now: int)
    requires AllQueued(steps)
    ensures var (done, log) := RunSteps(task, steps, now);
            && |done| == |steps| == |log|
            && (forall i :: 0 <= i < |steps| ==> done[i] == CompletedStep(task, steps[i], now))
            && (forall i :: 0 <= i < |steps| ==> log[i] == Observation(task, steps[i], now))
            && CompletionCount(log) == 0
  {
    if steps == [] {
    } else {
      RunQueuedSteps(task, steps[..|steps| - 1], now);
      var (_, log) := RunSteps(task, steps, now);
      assert log[..|log| - 1] == RunSteps(task, steps[..|steps| - 1], now).1;
    }
  }

  lemma {:induction false} RunDoneSteps(task: string, steps: seq<Step>, now: int)
    requires AllDone(steps)
    ensures RunSteps(task, steps, now) == (steps, [])
  {
    if steps == [] {
    } else {
      RunDoneSteps(task, steps[..|steps| - 1], now);
      assert steps == steps[..|steps| - 1] + [steps[|steps| - 1]];
    }
  }

  lemma {:induction false} PlanShape(checkpoint: string, task: string, crew: seq<string>, now: int)
    requires crew != []
    ensures WellFormed(PlanDocument(checkpoint, task, crew, now))
    ensures CompletionCount(PlanDocument(checkpoint, task, crew, now).events) == 0
  {
    var w := PlanDocument(checkpoint, task, crew, now);
    assert w.steps[0].status == Queued;
    assert w.events[..0] == [];
  }

  lemma {:induction false} CountAfterExecute(events: seq<Event>, log: seq<Event>, cp: string, now: int)
    requires CompletionCount(log) == 0
    ensures CompletionCount(events + log + [WorkflowCompleted(cp, now)]) == CompletionCount(events) + 1
  {
    var last := [WorkflowCompleted(cp, now)];
    CompletionCountAppend(events + log, last);
    CompletionCountAppend(events, log);
    assert last[..0] == [];
  }

  /** Every step was run once, and the log has its observation. */
  ghost predicate RanOnce(w: Workflow, done: seq<Step>, log: seq<Event>, now: int) {
    && |done| == |log| == |w.steps|
    && (forall i :: 0 <= i < |done| ==> done[i] == CompletedStep(w.task, w.steps[i], now))
    && (forall i :: 0 <= i < |log| ==> log[i] == Observation(w.task, w.steps[i], now))
  }

  lemma {:induction false} ExecutedEffects(w: Workflow, done: seq<Step>, log: seq<Event>, r: Workflow, now: int)
    requires w.steps != [] && AllQueued(w.steps) && EffectsOnce(w) && RanOnce(w, done, log, now)
    requires r.steps == done && r.checkpoint == w.checkpoint && r.createdAt == w.createdAt
    requires r.events == w.events + log + [WorkflowCompleted(w.checkpoint, now)]
    ensures AllDone(r.steps) && EffectsOnce(r)
  {
    assert done[0].status == Completed;
  }

  lemma {:induction false} ExecuteQueued(w: Workflow, now: int)
    requires WellFormed(w) && AllQueued(w.steps)
    ensures var r := ExecuteDocument(w, now);
            && |r.steps| == |w.steps|
            && (forall i :: 0 <= i < |w.steps| ==> r.steps[i].id == w.steps[i].id && r.steps[i].key == w.steps[i].key)
            && AllDone(r.steps) && EffectsOnce(r)
            && CompletionCount(r.events) == CompletionCount(w.events) + 1
  {
    var (done, log) := RunSteps(w.task, w.steps, now);
    RunQueuedSteps(w.task, w.steps, now);
    ExecutedEffects(w, done, log, ExecuteDocument(w, now), now);
    CountAfterExecute(w.events, log, w.checkpoint, now);
  }

  lemma {:induction false} ExecuteDone(w: Workflow, now: int)
    requires WellFormed(w) && AllDone(w.steps)
    ensures var r := ExecuteDocument(w, now);
            && r.steps == w.steps && EffectsOnce(r)
            && CompletionCount(r.events) == CompletionCount(w.events) + 1
  {
    RunDoneSteps(w.task, w.steps, now);
    CountAfterExecute(w.events, [], w.checkpoint, now);
    assert w.steps[0].status == Completed;
  }

  /** An execute leaves every step completed with exactly one observation, whatever ran
      before it, and records exactly one more completion. */
  lemma {:induction false} ExecuteShape(w: Workflow, now: int)
    requires WellFormed(w) && Executable(w)
    ensures WellFormed(ExecuteDocument(w, now))
    ensures AllDone(ExecuteDocument(w, now).steps)
    ensures CompletionCount(ExecuteDocument(w, now).events) == CompletionCount(w.events) + 1
    ensures |ExecuteDocument(w, now).steps| == |w.steps|
    ensures AllDone(w.steps) ==> ExecuteDocument(w, now).steps == w.steps
  {
    if AllQueued(w.steps) {
      ExecuteQueued(w, now);
      assert w.steps[0].status == Queued;
    } else {
      ExecuteDone(w, now);
    }
  }

  lemma {:induction false} RecoverShape(w: Workflow, now: int)
    requires WellFormed(w)
    ensures WellFormed(RecoverDocument(w, now))
  {
  }
}
