/** Versioned domain entities: a transition is checked against the caller's expected version and
    the transition table, and every accepted one emits an event. */
module Domain {
  import opened Tables

  datatype WorkflowState = W_CREATED | W_PLANNED | W_RUNNING | W_WAITING | W_PAUSED | W_FAILED | W_RECOVERING
        | W_COMPLETED | W_CANCELLED

  datatype TaskState = T_PENDING | T_READY | T_RUNNING | T_WAITING_TOOL | T_WAITING_APPROVAL | T_RETRYING | T_FAILED
        | T_COMPLETED | T_CANCELLED

  function WorkflowTargets(s: WorkflowState): set<WorkflowState> {
    match s
    case W_CREATED => {W_PLANNED, W_CANCELLED}
    case W_PLANNED => {W_RUNNING, W_PAUSED, W_CANCELLED}
    case W_RUNNING => {W_WAITING, W_PAUSED, W_FAILED, W_COMPLETED, W_CANCELLED}
    case W_WAITING => {W_RUNNING, W_PAUSED, W_FAILED, W_CANCELLED}
    case W_PAUSED => {W_RUNNING, W_CANCELLED}
    case W_FAILED => {W_RECOVERING, W_CANCELLED}
    case W_RECOVERING => {W_RUNNING, W_FAILED, W_CANCELLED}
    case W_COMPLETED => {}
    case W_CANCELLED => {}
  }

  function TaskTargets(s: TaskState): set<TaskState> {
    match s
    case T_PENDING => {T_READY, T_CANCELLED}
    case T_READY => {T_RUNNING, T_WAITING_APPROVAL, T_CANCELLED}
    case T_RUNNING => {T_WAITING_TOOL, T_WAITING_APPROVAL, T_RETRYING, T_FAILED, T_COMPLETED, T_CANCELLED}
    case T_WAITING_TOOL => {T_RUNNING, T_RETRYING, T_FAILED, T_CANCELLED}
    case T_WAITING_APPROVAL => {T_RUNNING, T_FAILED, T_CANCELLED}
    case T_RETRYING => {T_RUNNING, T_FAILED, T_CANCELLED}
    case T_FAILED => {T_RETRYING, T_CANCELLED}
    case T_COMPLETED => {}
    case T_CANCELLED => {}
  }

  datatype Event<S> = Event(tenant: string, workflowId: string, taskId: Option<string>, actor: Option<string>,
                            fromState: S, toState: S, entityVersion: int)

  datatype Outcome<S> = Emitted(event: Event<S>) | ConcurrencyError | StateError

  class Workflow {
    const id: string
    const tenant: string
    var state: WorkflowState
    var version: int

    constructor (id: string, tenant: string)
      ensures this.id == id && this.tenant == tenant && state == W_CREATED && version == 1
    {
      this.id, this.tenant, state, version := id, tenant, W_CREATED, 1;
    }

    method TransitionTo(target: WorkflowState, expected: Option<int>, actor: Option<string>)
          returns (r: Outcome<WorkflowState>)
      modifies this
      ensures Entity(state, version) == Attempt(WorkflowTargets, Entity(old(state), old(version)),
          Request(target, expected)).0
      ensures r == match Attempt(WorkflowTargets, Entity(old(state), old(version)), Request(target, expected)).1
                   case Accepted(t) => Emitted(Event(tenant, id, None, actor, t.from, t.to, t.version))
                   case Stale => ConcurrencyError
                   case Illegal => StateError
    {
      if expected.Some? && expected.value != version {
        return ConcurrencyError;
      }
      if target !in WorkflowTargets(state) {
        return StateError;
      }
      var previous := state;
      state := target;
      version := version + 1;
      r := Emitted(Event(tenant, id, None, actor, previous, target, version));
    }
  }

  class Task {
    const id: string
    const tenant: string
    const workflowId: string
    var state: TaskState
    var version: int

    constructor (id: string, tenant: string, workflowId: string)
      ensures this.id == id && this.tenant == tenant && this.workflowId == workflowId && state == T_PENDING
          && version == 1
    {
      this.id, this.tenant, this.workflowId, state, version := id, tenant, workflowId, T_PENDING, 1;
    }

    method TransitionTo(target: TaskState, expected: Option<int>, actor: Option<string>) returns (r: Outcome<TaskState>)
      modifies this
      ensures Entity(state, version) == Attempt(TaskTargets, Entity(old(state), old(version)),
          Request(target, expected)).0
      ensures r == match Attempt(TaskTargets, Entity(old(state), old(version)), Request(target, expected)).1
                   case Accepted(t) => Emitted(Event(tenant, workflowId, Some(id), actor, t.from, t.to, t.version))
                   case Stale => ConcurrencyError
                   case Illegal => StateError
    {
      if expected.Some? && expected.value != version {
        return ConcurrencyError;
      }
      if target !in TaskTargets(state) {
        return StateError;
      }
      var previous := state;
      state := target;
      version := version + 1;
      r := Emitted(Event(tenant, workflowId, Some(id), actor, previous, target, version));
    }
  }

  // ---- runs of attempted transitions, over any transition table ----

  datatype Entity<S> = Entity(state: S, version: int)

  datatype Request<S> = Request(target: S, expected: Option<int>)

  /** What an event's payload says. */
  datatype Transition<S> = Transition(from: S, to: S, version: int)

  datatype Verdict<S> = Accepted(transition: Transition<S>) | Stale | Illegal

  function Attempt<S>(targets: S -> set<S>, e: Entity<S>, r: Request<S>): (Entity<S>, Verdict<S>) {
    if r.expected.Some? && r.expected.value != e.version then (e, Stale)
    else if r.target !in targets(e.state) then (e, Illegal)
    else (Entity(r.target, e.version + 1), Accepted(Transition(e.state, r.target, e.version + 1)))
  }

  /** The entity after a sequence of attempts, and the log of accepted events. */
  function Run<S>(targets: S -> set<S>, initial: S, rs: seq<Request<S>>): (Entity<S>, seq<Transition<S>>) {
    if rs == [] then (Entity(initial, 1), [])
    else
      var (e, log) := Run(targets, initial, rs[..|rs| - 1]);
      var (e', v) := Attempt(targets, e, rs[|rs| - 1]);
      (e', if v.Accepted? then log + [v.transition] else log)
  }

  /** Replaying a log from the initial state: each event must fit where the entity is. */
  function Replay<S(==)>(initial: S, log: seq<Transition<S>>): Option<Entity<S>> {
    if log == [] then Some(Entity(initial, 1))
    else
      var t := log[|log| - 1];
      match Replay(initial, log[..|log| - 1])
      case None => None
      case Some(e) => if t.from == e.state && t.version == e.version + 1 then Some(Entity(t.to, t.version)) else None
  }

  /** The event log replays to the entity; its versions are 2, 3, ... without gap; its events
      chain from the initial state along the transition table. */
  lemma {:induction false} LogReplays<S>(targets: S -> set<S>, initial: S, rs: seq<Request<S>>)
    ensures var (e, log) := Run(targets, initial, rs);
            && Replay(initial, log) == Some(e)
            && e.version == |log| + 1
            && (forall i :: 0 <= i < |log| ==> log[i].version == i + 2 && log[i].to in targets(log[i].from))
            && (forall i :: 0 < i < |log| ==> log[i].from == log[i - 1].to)
            && (log == [] ==> e.state == initial)
            && (log != [] ==> log[0].from == initial && log[|log| - 1].to == e.state)
  {
    if rs == [] {
    } else {
      LogReplays(targets, initial, rs[..|rs| - 1]);
      var (e, log) := Run(targets, initial, rs[..|rs| - 1]);
      var log' := Run(targets, initial, rs).1;
      if log' != log {
        assert log'[..|log'| - 1] == log;
      }
    }
  }

  /** A log is a path of the transition table. */
  ghost predicate Path<S>(targets: S -> set<S>, log: seq<Transition<S>>) {
    && (forall i :: 0 <= i < |log| ==> log[i].to in targets(log[i].from))
    && (forall i :: 0 < i < |log| ==> log[i].from == log[i - 1].to)
  }

  /** Where a path stays: if every way out of `inside` enters `gate`, a path that starts inside
      and ends elsewhere has passed the gate. */
  lemma {:induction false} MustPass<S>(targets: S -> set<S>, log: seq<Transition<S>>, inside: set<S>, gate: S, a: nat,
        b: nat)
    requires Path(targets, log) && a < b < |log|
    requires forall x, y :: x in inside && y in targets(x) ==> y in inside || y == gate
    requires log[a].to in inside && log[b].to !in inside
    ensures exists k :: a < k <= b && log[k].to == gate
    decreases b - a
  {
    if log[a + 1].to in inside {
      MustPass(targets, log, inside, gate, a + 1, b);
    } else {
      assert log[a + 1].from == log[a].to;
      assert log[a + 1].to == gate;
    }
  }

  /** A workflow that completes after failing has recovered in between. */
  lemma {:induction false} CompletionAfterFailureRecovers(rs: seq<Request<WorkflowState>>, a: nat, b: nat)
    requires var log := Run(WorkflowTargets, W_CREATED, rs).1;
             a < b < |log| && log[a].to == W_FAILED && log[b].to == W_COMPLETED
    ensures var log := Run(WorkflowTargets, W_CREATED, rs).1;
            exists k :: a < k < b && log[k].to == W_RECOVERING
  {
    var log := Run(WorkflowTargets, W_CREATED, rs).1;
    LogReplays(WorkflowTargets, W_CREATED, rs);
    MustPass(WorkflowTargets, log, {W_FAILED, W_CANCELLED}, W_RECOVERING, a, b);
  }

  /** A task that completes after failing has been retried in between. */
  lemma {:induction false} CompletionAfterFailureRetries(rs: seq<Request<TaskState>>, a: nat, b: nat)
    requires var log := Run(TaskTargets, T_PENDING, rs).1;
             a < b < |log| && log[a].to == T_FAILED && log[b].to == T_COMPLETED
    ensures var log := Run(TaskTargets, T_PENDING, rs).1;
            exists k :: a < k < b && log[k].to == T_RETRYING
  {
    var log := Run(TaskTargets, T_PENDING, rs).1;
    LogReplays(TaskTargets, T_PENDING, rs);
    MustPass(TaskTargets, log, {T_FAILED, T_CANCELLED}, T_RETRYING, a, b);
  }

  /** A terminal state is final: every later attempt is refused and the entity stays as it is. */
  lemma {:induction false} TerminalIsFinal<S>(targets: S -> set<S>, initial: S, rs: seq<Request<S>>, i: nat)
    requires i <= |rs| && targets(Run(targets, initial, rs[..i]).0.state) == {}
    ensures Run(targets, initial, rs) == Run(targets, initial, rs[..i])
    decreases |rs|
  {
    if i < |rs| {
      assert rs[..|rs| - 1][..i] == rs[..i];
      TerminalIsFinal(targets, initial, rs[..|rs| - 1], i);
    } else {
      assert rs[..i] == rs;
    }
  }

  lemma {:induction false} VersionGrows<S>(targets: S -> set<S>, initial: S, rs: seq<Request<S>>, i: nat)
    requires i <= |rs|
    ensures Run(targets, initial, rs[..i]).0.version <= Run(targets, initial, rs).0.version
    decreases |rs|
  {
    if i < |rs| {
      assert rs[..|rs| - 1][..i] == rs[..i];
      VersionGrows(targets, initial, rs[..|rs| - 1], i);
    } else {
      assert rs[..i] == rs;
    }
  }

  /** Of the attempts that expect one version at most one is accepted. */
  lemma {:induction false} OneTransitionPerVersion<S>(targets: S -> set<S>, initial: S, rs: seq<Request<S>>, i: nat,
        j: nat)
    requires i < j < |rs| && rs[i].expected.Some? && rs[i].expected == rs[j].expected
    requires Attempt(targets, Run(targets, initial, rs[..i]).0, rs[i]).1.Accepted?
    ensures !Attempt(targets, Run(targets, initial, rs[..j]).0, rs[j]).1.Accepted?
  {
    assert rs[..i + 1][..i] == rs[..i] && rs[..j][..i + 1] == rs[..i + 1];
    assert Run(targets, initial, rs[..i + 1]).0.version == rs[i].expected.value + 1;
    VersionGrows(targets, initial, rs[..j], i + 1);
  }

  // ---- which attempts are accepted ----

  /** In every run an attempt is stale if and only if it expects a version other than one more than
      the events so far, and accepted if and only if it is not stale and the table allows it. */
  lemma {:induction false} AcceptedIff<S>(targets: S -> set<S>, initial: S, rs: seq<Request<S>>, r: Request<S>)
    ensures var (e, log) := Run(targets, initial, rs);
            var v := Attempt(targets, e, r).1;
            && (v == Stale <==> r.expected.Some? && r.expected.value != |log| + 1)
            && (v.Accepted? <==> v != Stale && r.target in targets(e.state))
            && (!v.Accepted? ==> Attempt(targets, e, r).0 == e)
  {
    LogReplays(targets, initial, rs);
  }

  // ---- the two tables, from the other side ----

  /** Where each workflow state can be entered from. */
  lemma {:induction false} WorkflowSources(s: WorkflowState)
    ensures W_CREATED !in WorkflowTargets(s)
    ensures W_PLANNED in WorkflowTargets(s) <==> s == W_CREATED
    ensures W_RUNNING in WorkflowTargets(s) <==> s in {W_PLANNED, W_WAITING, W_PAUSED, W_RECOVERING}
    ensures W_WAITING in WorkflowTargets(s) <==> s == W_RUNNING
    ensures W_PAUSED in WorkflowTargets(s) <==> s in {W_PLANNED, W_RUNNING, W_WAITING}
    ensures W_FAILED in WorkflowTargets(s) <==> s in {W_RUNNING, W_WAITING, W_RECOVERING}
    ensures W_RECOVERING in WorkflowTargets(s) <==> s == W_FAILED
    ensures W_COMPLETED in WorkflowTargets(s) <==> s == W_RUNNING
    ensures W_CANCELLED in WorkflowTargets(s) <==> s !in {W_COMPLETED, W_CANCELLED}
    ensures WorkflowTargets(s) == {} <==> s in {W_COMPLETED, W_CANCELLED}
  {
    assert s != W_COMPLETED && s != W_CANCELLED ==> W_CANCELLED in WorkflowTargets(s);
  }

  /** Where each task state can be entered from. */
  lemma {:induction false} TaskSources(s: TaskState)
    ensures T_PENDING !in TaskTargets(s)
    ensures T_READY in TaskTargets(s) <==> s == T_PENDING
    ensures T_RUNNING in TaskTargets(s) <==> s in {T_READY, T_WAITING_TOOL, T_WAITING_APPROVAL, T_RETRYING}
    ensures T_WAITING_TOOL in TaskTargets(s) <==> s == T_RUNNING
    ensures T_WAITING_APPROVAL in TaskTargets(s) <==> s in {T_READY, T_RUNNING}
    ensures T_RETRYING in TaskTargets(s) <==> s in {T_RUNNING, T_WAITING_TOOL, T_FAILED}
    ensures T_FAILED in TaskTargets(s) <==> s in {T_RUNNING, T_WAITING_TOOL, T_WAITING_APPROVAL, T_RETRYING}
    ensures T_COMPLETED in TaskTargets(s) <==> s == T_RUNNING
    ensures T_CANCELLED in TaskTargets(s) <==> s !in {T_COMPLETED, T_CANCELLED}
    ensures TaskTargets(s) == {} <==> s in {T_COMPLETED, T_CANCELLED}
  {
    assert s != T_COMPLETED && s != T_CANCELLED ==> T_CANCELLED in TaskTargets(s);
  }

  // ---- completion stays possible ----

  function Last<S>(s: S, path: seq<S>): S {
    if path == [] then s else path[|path| - 1]
  }

  /** The path follows the table from s on. */
  ghost predicate Follows<S>(targets: S -> set<S>, s: S, path: seq<S>) {
    path == [] ||
    (Follows(targets, s, path[..|path| - 1]) && path[|path| - 1] in targets(Last(s, path[..|path| - 1])))
  }

  function Asks<S>(path: seq<S>): (rs: seq<Request<S>>)
    ensures |rs| == |path|
  {
    seq(|path|, i requires 0 <= i < |path| => Request(path[i], None))
  }

  /** A path of the table can be walked from any run that ends where it starts. */
  lemma {:induction false} PathIsWalked<S>(targets: S -> set<S>, initial: S, rs: seq<Request<S>>, path: seq<S>)
    requires Follows(targets, Run(targets, initial, rs).0.state, path)
    ensures Run(targets, initial, rs + Asks(path)).0.state == Last(Run(targets, initial, rs).0.state, path)
  {
    if path == [] {
      assert rs + Asks(path) == rs;
    } else {
      var front := path[..|path| - 1];
      PathIsWalked(targets, initial, rs, front);
      var all := rs + Asks(path);
      assert all[..|all| - 1] == rs + Asks(front);
      assert all[|all| - 1] == Request(path[|path| - 1], None);
    }
  }

  function WayToComplete(s: WorkflowState): seq<WorkflowState> {
    match s
    case W_CREATED => [W_PLANNED, W_RUNNING, W_COMPLETED]
    case W_RUNNING => [W_COMPLETED]
    case W_FAILED => [W_RECOVERING, W_RUNNING, W_COMPLETED]
    case W_COMPLETED => []
    case W_CANCELLED => []
    case _ => [W_RUNNING, W_COMPLETED]
  }

  function TaskWayToComplete(s: TaskState): seq<TaskState> {
    match s
    case T_PENDING => [T_READY, T_RUNNING, T_COMPLETED]
    case T_RUNNING => [T_COMPLETED]
    case T_FAILED => [T_RETRYING, T_RUNNING, T_COMPLETED]
    case T_COMPLETED => []
    case T_CANCELLED => []
    case _ => [T_RUNNING, T_COMPLETED]
  }

  lemma {:induction false} FollowsThree<S>(targets: S -> set<S>, s: S, path: seq<S>)
    requires 0 < |path| <= 3 && path[0] in targets(s)
    requires forall i :: 0 < i < |path| ==> path[i] in targets(path[i - 1])
    ensures Follows(targets, s, path)
  {
    assert path[..0] == [];
    assert Follows(targets, s, path[..0]);
    assert path[..1][..0] == [] && Follows(targets, s, path[..1]);
    if |path| >= 2 {
      assert path[..2][..1] == path[..1] && Follows(targets, s, path[..2]);
    }
    if |path| == 3 {
      assert path[..3][..2] == path[..2] && path[..3] == path;
    }
    assert path[..|path|] == path;
  }

  /** After every run a workflow that is not cancelled can still be completed. */
  lemma {:induction false} WorkflowCanComplete(rs: seq<Request<WorkflowState>>)
      returns (more: seq<Request<WorkflowState>>)
    requires Run(WorkflowTargets, W_CREATED, rs).0.state != W_CANCELLED
    ensures Run(WorkflowTargets, W_CREATED, rs + more).0.state == W_COMPLETED
  {
    var s := Run(WorkflowTargets, W_CREATED, rs).0.state;
    var path := WayToComplete(s);
    if s != W_COMPLETED {
      FollowsThree(WorkflowTargets, s, path);
    }
    PathIsWalked(WorkflowTargets, W_CREATED, rs, path);
    more := Asks(path);
  }

  /** After every run a task that is not cancelled can still be completed. */
  lemma {:induction false} TaskCanComplete(rs: seq<Request<TaskState>>) returns (more: seq<Request<TaskState>>)
    requires Run(TaskTargets, T_PENDING, rs).0.state != T_CANCELLED
    ensures Run(TaskTargets, T_PENDING, rs + more).0.state == T_COMPLETED
  {
    var s := Run(TaskTargets, T_PENDING, rs).0.state;
    var path := TaskWayToComplete(s);
    if s != T_COMPLETED {
      FollowsThree(TaskTargets, s, path);
    }
    PathIsWalked(TaskTargets, T_PENDING, rs, path);
    more := Asks(path);
  }
}
