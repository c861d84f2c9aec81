# Verified model of the AGI platform's stateful cores

A Dafny model of the five parts of the platform that keep state, and proofs of what they keep
over whole runs. `dafny verify dfyconfig.toml` checks everything.

| part | files |
|---|---|
| Durable workflow store and engine: four tables, task leases, checkpointed plan, execute, recover | `WorkflowTables`, `WorkflowDocuments`, `WorkflowInvariant`, `WorkflowRuns`, `WorkflowTheorems`, `WorkflowConservation`, `WorkflowLaws`, `WorkflowStore` |
| LLM gateway: retry and fallback loops, circuit breaker, budget, usage ledger | `Gateway`, `GatewayTheorems`, `GatewayRefinement`, `GatewayLaws`, `GatewayService` |
| Versioned memory store: optimistic updates, history, rollback, tenants, search | `Memory`, `MemoryTheorems`, `MemoryTenants`, `MemoryLaws`, `MemoryStore` |
| Rate limiters and distributed lock | `RedisModel`, `SlidingWindow`, `FixedWindow`, `FixedWindowBounds`, `DistributedLock` |
| Versioned domain state machines | `Domain` |
| Shared: decimal printing and colon-joined names, tables with primary keys, stable sorting | `Naming`, `Tables`, `Ordering` |

Each part has three layers. Functions on values say what one database session, one provider reply
or one Redis command does. Classes with the program's fields and loops are proved to do exactly
that (`WorkflowStore`, `GatewayService`, `MemoryStore`, and the classes in the last two parts).
Lemmas then prove what the program promises of every run of those steps. The modules named `Laws`
tell, from a call's own arguments and in any state that a run can reach, what the call answers and
leaves behind.

## How runs are modelled

- **Workflows.** Any number of engine processes and lease workers, of any tenants, share one
  database. Each database session is one atomic step that commits or rolls back. A plan, execute
  or recover is a read session and a later write session; sessions of different processes
  interleave freely, and a process may die between its two. Nothing is assumed about the times
  passed to the steps. `CallsAreTwoSessions` connects the engine's methods to these steps.
- **Gateway.** Provider replies are arbitrary: an answer with token usage, an HTTP status, a fault
  that the gateway catches, or an exception that it does not. Calls and sleeps take arbitrary
  non-negative time. Provider names are unique, every provider has a model, the breaker threshold
  is at least 1 and the backoff is not negative. Calls of `complete` do not overlap.
- **Memory.** Each operation is one session; sessions come from any tenants in any order. SHA-256
  and tokenising are function parameters.
- **Redis.** A timed map. A command may fail to arrive, or run and lose its reply. In
  `FixedWindowBounds` every scope has one rule, and what a replica's clock reads, to the second,
  is at most d later and less than e earlier than the server's time; d and e are parameters. In `DistributedLock` a run is legal if the server's time never runs backwards
  and every acquire brings a new owner token, as the default `uuid4` owner makes it;
  `ExclusionIsPermanentIff` starts from runs of any kind. A client's clock reaches its deadline
  some time.
- Clocks are read once per operation. Costs, scores and times are reals or integers, not floats.

## What the proofs show about the program

- **One tenant per workflow database.** Checkpoint and task ids do not name the tenant, so once a
  tenant has a workflow, every write of another tenant hits a taken task key and rolls back
  (`CommitSucceedsIff`, `SecondTenantCannotPlan`). Hence the four tables always agree.
- **Completion is permanent exactly when it is settled.** An execute that finishes a workflow is
  undone by a write that was computed from an earlier read (`LateRecoverUndoesCompletion`,
  `LateRecoverFromTheStart`). Every continuation keeps the workflow finished if and only if its
  owner has no such write in flight (`CompletionIsPermanentIff`).
- **Plans overwrite exactly when they race.** A plan that commits replaces an existing workflow if
  and only if the version of its target moved since its read (`PlanOverwritesIff`,
  `RacingPlansCollide`), so n plans give checkpoint-1 .. checkpoint-n if and only if none does
  (`PlansAreNumberedIff`).
- **Executes are forgotten exactly when they are overtaken.** Documents record one completion per
  execute, all along a run, if and only if every write that lands records the completions that
  it finds there, and one more for an execute (`ExecutesAreRecordedIff`); it fails to when its
  workflow was executed since its read (`ForgetsIffOvertaken`, `OverlappingExecutesRecordOne`).
  Overlapping executes run a step more than once; a document records its effect at most once in
  any case (`EffectsHappenOnce`).
- **Marks last until the workflow is rewritten**, and no longer: a SUCCEEDED row stays as it is
  through everything else (`SuccessStays`), and a recover of a workflow whose document has its
  steps queued sets it back to PENDING (`RecoverWipesMarks`, `RecoverWipesMarkFromTheStart`).
- **Attempts** count reclaimed leases, plus the accepted mark, plus the running lease. Counting one
  for every RUNNING or SUCCEEDED task is right exactly unless the task is SUCCEEDED with no lease
  owner, as an execute writes it (`AttemptsCountFinishIff`, `ExecuteTakesNoAttempt`).
- **Whose record a store returns.** What a tenant has in the tables is never changed by another
  tenant, whatever ids either uses (`TenantsDoNotInterfere`). What a store returns is another
  matter: the joined key can be split in several ways, and then a store finds somebody else's
  row, returns it and stores nothing. A request is safe from that, whatever ran before, if and
  only if tenant, namespace, type and content are all free of `:` (`OwnRecordIff`). If all
  tenants keep `:` out of their tenant, namespace and type names, contents do not matter
  (`StoreReturnsOwnRecord`), and each tenant's run is as if it were alone (`TenantRunsAlone`).
- **Failing closed.** Where a rule fails closed, the limits hold for checks of whatever fate; where
  it does not, an outage lets everything through (`LimitForAnyFateIff`).
- **Fixed windows and clocks.** Replicas place checks by their own clocks. At most `limit` checks
  pass per bucket if and only if readings are off by no more than the counters' five seconds of
  extra life and the second that is cut off: d + e <= 6 (`LimitPerBucketIff`). At most twice the
  limit pass in every interval of the server's time, wherever it starts, if and only if its
  length and d + e fit in the window and one second (`TwiceTheLimitIff`). With readings exact to
  the second that is every interval of one window length (`TwiceTheLimitAnywhere`); with clocks a
  few seconds off three times the limit get through (`ThreeInOneMinute`).
- **Locks and owner tokens.** After any run at all, with tokens reused at will, exclusion holds in
  every legal continuation if and only if each handle that holds is the one recorded at the
  server and no other handle has its token (`ExclusionIsPermanentIff`). So a client keeps a safe
  lock safe if and only if the token of a grant is new to the lock
  (`TokenMayBeUsedIff`; `ReusedOwnerBreaksExclusion` is such a run).

## Model

| member | source | states |
|---|---|---|
| `WorkflowTheorems.CrossTableAgreement` | agi_platform/orchestration.py:36-100 | In every reachable state of every interleaving: workflow row version = checkpoint version = number of persisted events = number of committed upserts; event sequences are 1..n without gap; the row status is the mapped document status |
| `WorkflowTheorems.TasksAreSteps` | agi_platform/orchestration.py:55-69 | A task id exists for a workflow if and only if it is the id of a step of its checkpoint, with lease sessions interleaved at will |
| `WorkflowTheorems.CheckpointsNumberedForOneTenant` | agi_platform/orchestration.py:205-207 | The checkpoint ids are exactly checkpoint-1..checkpoint-n, and one tenant owns them all |
| `WorkflowConservation.PlansAreConserved` | agi_platform/orchestration.py:205-248 | In every run the number of committed plans is the number of checkpoints plus the number of plans written over a version that had moved since their read |
| `WorkflowConservation.PlansAreNumberedIff` | agi_platform/orchestration.py:205-248 | After n committed plans the checkpoint ids are exactly checkpoint-1..checkpoint-n if and only if no plan was written over a version that had moved |
| `WorkflowTheorems.PlanOverwritesIff` | agi_platform/orchestration.py:205-248 | A committing plan replaces an existing workflow if and only if its target's version moved since its read |
| `WorkflowTheorems.RacingPlansCollide` | agi_platform/orchestration.py:205-248 | Two plans that read before either writes both land on checkpoint-1; the second replaces the first |
| `WorkflowTheorems.CommitSucceedsIff` | agi_platform/orchestration.py:36-69 | A pending write persists if and only if no other tenant owns a workflow; otherwise the database stays as it was |
| `WorkflowTheorems.SecondTenantCannotPlan` | agi_platform/orchestration.py:205-248 | Once one tenant has a workflow, another tenant's plan leaves the database unchanged |
| `WorkflowInvariant.UpsertKeepsAgreement` | agi_platform/orchestration.py:36-100 | One upsert keeps agreement and numbering of all four tables for every workflow, and aborts exactly when another tenant owns the database |
| `WorkflowRuns.RunKeepsInv` | agi_platform/orchestration.py:36-324 | Every run keeps the whole invariant: tables agree, each task row is what the history of its leases says, each pending write is well formed |
| `WorkflowTheorems.AttemptConservation` | agi_platform/orchestration.py:125-188 | Since the last upsert: attempts = leases granted = leases reclaimed + marks accepted + (1 if RUNNING); at most one mark; PENDING implies attempts below the maximum, TIMED_OUT at or above it |
| `WorkflowTheorems.AttemptsCountFinishIff` | agi_platform/orchestration.py:125-188 | Attempts are the reclaimed leases plus one for a RUNNING or SUCCEEDED task, if and only if the task is not SUCCEEDED without a lease owner |
| `WorkflowTheorems.ExecuteTakesNoAttempt` | agi_platform/orchestration.py:55-69 | A plan and its execute leave every task SUCCEEDED with no attempt |
| `WorkflowTheorems.Fencing` | agi_platform/orchestration.py:152-164 | A mark is accepted if and only if it comes from the worker of the latest lease, not reclaimed, marked or wiped since; the task is then RUNNING although the code does not check it |
| `WorkflowTheorems.UnexpiredLeaseIsHeld` | agi_platform/orchestration.py:125-188 | Until it expires, and unless its workflow is rewritten, a lease keeps owner, expiry and attempts through every interleaving |
| `WorkflowTheorems.SuccessStays` | agi_platform/orchestration.py:125-188 | Through every run that persists no write to its workflow, past its lease's expiry too, a SUCCEEDED task row stays exactly as it is |
| `WorkflowTheorems.RecoverWipesMarks` | agi_platform/orchestration.py:55-69 | A recover of a workflow whose document has its steps queued sets each task to PENDING with no owner and no attempt, marked or not |
| `WorkflowTheorems.RecoverWipesMarkFromTheStart` | agi_platform/orchestration.py:125-324 | Such a run from the empty database: plan, lease, mark, recover |
| `WorkflowTheorems.RecoverExpiredIsComplete` | agi_platform/orchestration.py:166-188 | After expiry recovery no lease is expired at that time, and repeating it changes nothing |
| `WorkflowTheorems.CompletionIsPermanentIff` | agi_platform/orchestration.py:250-273 | Every continuation leaves all steps done and all tasks SUCCEEDED if and only if the workflow is done and no pending write of its owner remembers it undone |
| `WorkflowTheorems.LateRecoverUndoesCompletion` | agi_platform/orchestration.py:320-324 | A recover that read queued steps and writes after an execute takes the completion back |
| `WorkflowTheorems.LateRecoverFromTheStart` | agi_platform/orchestration.py:205-324 | Such a run from the empty database: plan, then a recover and an execute that overlap |
| `WorkflowTheorems.SettledTasksAreClosed` | agi_platform/orchestration.py:125-164 | After any continuation of a settled workflow none of its tasks can be leased and every mark, from whichever earlier lease, is refused |
| `WorkflowTheorems.EffectsHappenOnce` | agi_platform/orchestration.py:250-283 | Every persisted document, in every run: one planning event, then nothing or one completion per step in order, then workflow completions, at most one per committed execute; each step has no observation or exactly its own one |
| `WorkflowConservation.ExecutesAreRecordedIff` | agi_platform/orchestration.py:250-273 | After every step of a run every document records exactly one completion per execute written to its workflow, if and only if every persisted write records the completions then recorded in its checkpoint, and one more for an execute |
| `WorkflowConservation.ForgetsIffOvertaken` | agi_platform/orchestration.py:250-273 | As long as documents are exact, a write fails to do so if and only if its workflow was executed between its read and its commit |
| `WorkflowConservation.OverlappingExecutesRecordOne` | agi_platform/orchestration.py:250-273 | Two executes that both read before either writes are both written, and the document records one |
| `WorkflowTheorems.ExecuteIsIdempotent` | agi_platform/orchestration.py:250-253 | An execute leaves the workflow completed; after every continuation in which only executes are written to it, with plans, leases, marks and other processes interleaved at will, a further execute by any process changes nothing at all |
| `WorkflowLaws.PlanLaw` | agi_platform/orchestration.py:205-248 | A plan adds exactly one checkpoint, under the next number, whose document has one queued step per agent in order (architect, implementer, reviewer by default), each action naming agent and task, and one event; its row is PENDING with that task; every other checkpoint is as it was |
| `WorkflowLaws.ExecuteLaw` | agi_platform/orchestration.py:250-283 | An execute of a planned or recovered workflow completes every step that was not, each with one observation that names step, agent, task and time, logs those in order and then the completion, sets the row SUCCEEDED and every task SUCCEEDED, and records one more completion |
| `WorkflowLaws.RecoverLaw` | agi_platform/orchestration.py:320-324 | A recover, in whatever state the workflow is, sets status recovered and row RECOVERING, and leaves steps, events and the rest as they were |
| `WorkflowLaws.RecoverReopens` | agi_platform/orchestration.py:250-324 | After a recover the next execute lands and records one more completion, also where the workflow was completed |
| `WorkflowLaws.CommitWrites` | agi_platform/orchestration.py:36-100 | Every persisted write gives the row the document's status, the time and one version more, keeps its task if there was one, and appends one event with that version and status |
| `WorkflowLaws.LeaseLasts` | agi_platform/orchestration.py:125-150 | A lease granted for some seconds: through every run that neither reclaims past now + seconds nor rewrites the workflow, the task stays the worker's |
| `WorkflowLaws.LeaseLastsExactly` | agi_platform/orchestration.py:125-188 | An expiry recovery of the tenant takes a task still running from the worker if and only if its time is past now + seconds; it is then without owner, TIMED_OUT after three attempts or more, otherwise PENDING |
| `WorkflowLaws.MarkLaw` | agi_platform/orchestration.py:152-164 | A mark sets exactly that row to SUCCEEDED, now, if the worker holds its latest lease unmarked, and otherwise changes nothing |
| `WorkflowLaws.SomethingToLeaseIff` | agi_platform/orchestration.py:125-150 | A workflow has a task to lease if and only if one of its tasks is neither running nor done, and one created first among those is granted |
| `WorkflowDocuments.ExecuteShape` | agi_platform/orchestration.py:250-283 | Execute leaves every step completed with exactly one observation, whatever ran before, and records exactly one more completion; completed steps are untouched |
| `WorkflowDocuments.PlanShape` | agi_platform/orchestration.py:205-248 | A planned document is well formed, all steps queued, no completion recorded |
| `WorkflowTables.CheckpointIdInjective` | agi_platform/orchestration.py:207 | Different numbers give different checkpoint ids |
| `WorkflowStore.WorkflowStateStore.UpsertWorkflow` | agi_platform/orchestration.py:36-100 | The session rewrites all four tables as specified, or reports a conflict and leaves them as they were |
| `WorkflowStore.WorkflowStateStore.NextSequence` | agi_platform/orchestration.py:70-80 | The loop finds one more than the largest sequence of this tenant's workflow |
| `WorkflowStore.WorkflowStateStore.GetWorkflow` | agi_platform/orchestration.py:102-107 | The tenant's own checkpoint document, or not found |
| `WorkflowStore.WorkflowStateStore.ListWorkflows` | agi_platform/orchestration.py:112-123 | Exactly the tenant's checkpoint documents, by id |
| `WorkflowStore.WorkflowStateStore.LeaseNextTask` | agi_platform/orchestration.py:125-150 | Leases a task that is leasable and earliest by creation time, changing that row only; returns nothing only if no task is leasable |
| `WorkflowStore.WorkflowStateStore.MarkTaskSucceeded` | agi_platform/orchestration.py:152-164 | Succeeds exactly for the recorded owner of an unfinished task of the tenant, and changes that row only |
| `WorkflowStore.WorkflowStateStore.RecoverExpiredLeases` | agi_platform/orchestration.py:166-188 | Reclaims exactly the expired leases and returns their number |
| `WorkflowStore.WorkflowEngine.Plan` | agi_platform/orchestration.py:205-248 | Persists and returns the planned document under the next checkpoint id, or changes nothing |
| `WorkflowStore.WorkflowEngine.Execute` | agi_platform/orchestration.py:250-273 | The loop over steps persists and returns the executed document; completed workflows are returned untouched, unknown ones refused |
| `WorkflowStore.WorkflowEngine.Recover` | agi_platform/orchestration.py:320-324 | Persists and returns the document marked recovered, or refuses an unknown one |
| `WorkflowStore.CallsAreTwoSessions` | agi_platform/orchestration.py:205-324 | Each engine call leaves the database as a read step followed by its commit step does |
| `GatewayTheorems.NoCallThroughAnOpenCircuit` | agi_platform/llm/core.py:150-272 | In every run, with any replies and timing, no call reaches a provider whose circuit is open; health equals what the failures since the last success say: closed below the threshold, else open until the latest failure plus cooldown, with the status of the latest failure or success |
| `GatewayTheorems.SpendIsLedgerWithinBudget` | agi_platform/llm/core.py:53-73 | In every run each tenant's spend is the sum of its usage records' costs and within a non-negative budget |
| `GatewayTheorems.CompletionCharges` | agi_platform/llm/core.py:150-227 | A served completion charges exactly its record, priced per thousand of its tokens, to its tenant within budget; one that fails in any way changes neither spend nor ledger |
| `GatewayLaws.SpendIsPricedInRuns` | agi_platform/llm/core.py:60-73 | In every run a tenant's spend, times a thousand, is the price times the input and output tokens of its usage records |
| `GatewayLaws.RefusalsIff` | agi_platform/llm/core.py:158-169 | Exactly when a completion is refused as over the token limit, over the budget (a thousand times the spend plus price times tokens and limit), not allowed, or without provider; nothing is then called, charged or changed |
| `GatewayLaws.CandidatesIff` | agi_platform/llm/core.py:243-263 | A provider may be asked if and only if it is registered and configured, its circuit is not open and it has the model; a model outside a non-empty allowlist is always refused |
| `GatewayLaws.RecordTells` | agi_platform/llm/core.py:184-206 | A served record names the deciding provider, the model asked for or that provider's first, request, tenant, the deciding reply's tokens and the number of earlier calls |
| `GatewayLaws.CompletionTakes` | agi_platform/llm/core.py:169-227 | In every reachable state: how long a completion sleeps, how much time passes and how many failures each candidate then has on record are exactly what the replies say (5xx and 429 pause and record nothing, other statuses record and do not pause, faults do both, success clears) |
| `GatewayTheorems.ActualCostFitsReservation` | agi_platform/llm/core.py:158-183 | If the first reservation passes and reported usage is within request tokens plus token limit, the second reservation passes |
| `GatewayRefinement.AnswersWithinEstimateServe` | agi_platform/llm/core.py:174-183 | Such an answer is accepted and stops its candidate's attempts at the latest; if it is the stopping one, it serves |
| `GatewayRefinement.CompletionFollowsTheRule` | agi_platform/llm/core.py:150-227 | In every reachable state the nested loops return what a rule on the replies alone says: the first candidate whose first stopping reply is accepted (or not caught) decides, and its record's errors count every earlier call |
| `GatewayRefinement.ProviderIsTriedUntilItStops` | agi_platform/llm/core.py:172-226 | The retry loop ends at the provider's first stopping reply: accepted, uncaught, a non-retryable status, or a fault that opens the circuit for longer than the sleep |
| `GatewayRefinement.StopAtIsFirst` | agi_platform/llm/core.py:172-226 | The stopping attempt is the first one that stops, and at most one past the last attempt |
| `GatewayRefinement.FirstEndingIsFirst` | agi_platform/llm/core.py:169-227 | The deciding candidate ends the completion and no earlier one does |
| `GatewayRefinement.CallsAreBounded` | agi_platform/llm/core.py:150-227 | A completion makes at most candidates × (max_retries + 1) calls; a served record's errors are the calls minus one |
| `GatewayRefinement.BackoffIsBounded` | agi_platform/llm/core.py:150-276 | A completion's total backoff is at most one full series per candidate |
| `GatewayRefinement.SleepLimitClosedForm` | agi_platform/llm/core.py:274-276 | That bound is candidates × backoff × (2^max_retries − 1), and nothing for a negative max_retries |
| `Gateway.RouteIsStablePriorityOrder` | agi_platform/llm/core.py:243-263 | Candidates are the stable ordering, by ascending priority, of exactly the configured, available providers that offer the requested model |
| `Gateway.RoutedAreKnown` | agi_platform/llm/core.py:243-263 | Every candidate is a registered provider, configured and not behind an open circuit |
| `GatewayService.LLMGateway.RecordFailure` | agi_platform/llm/core.py:265-272 | One more failure and status unhealthy; at the threshold the circuit opens until now plus cooldown; other providers unchanged |
| `GatewayService.LLMGateway.Sleep` | agi_platform/llm/core.py:274-276 | Sleeps backoff × 2^attempt before the last attempt and not after it |
| `GatewayService.LLMGateway.Accept` | agi_platform/llm/core.py:183-205 | Charges the record's cost to its tenant, restores the provider's health and appends the record to the ledger |
| `GatewayService.LLMGateway.Attempt` | agi_platform/llm/core.py:173-226 | One attempt with its exception handlers does what the specification of a reply says |
| `GatewayService.LLMGateway.Retry` | agi_platform/llm/core.py:172-226 | The retry loop computes the recursive specification for one provider |
| `GatewayService.LLMGateway.Fallback` | agi_platform/llm/core.py:169-227 | The loop over candidates computes the recursive specification |
| `GatewayService.LLMGateway.Complete` | agi_platform/llm/core.py:150-227 | Token limit, first reservation, routing and loops together compute the completion that the theorems are about |
| `Ordering.SortIsTheStableOrder` | agi_platform/llm/core.py:243-251 | The sort used here is the unique stable ordering, so it agrees with Python's |
| `MemoryTheorems.HistoryIsComplete` | agi_platform/memory/core.py:35-271 | In every run each memory's versions are exactly 1..row.version, all with the row's provenance, the last with the row's content, and one more than its audited revisions; no version lacks its row |
| `MemoryTheorems.HistoryIsAppendOnly` | agi_platform/memory/core.py:164-271 | Whatever follows, a memory's history so far stays a prefix of it |
| `MemoryTheorems.AtMostOneUpdatePerVersion` | agi_platform/memory/core.py:164-211 | Of all updates of a memory that expect one version at most one is accepted, in any run; refused ones change nothing |
| `MemoryTheorems.RollbackTarget` | agi_platform/memory/core.py:219-240 | Rollback finds exactly the numbered version, and none outside 1..row.version |
| `MemoryTheorems.RollbackRoundTrip` | agi_platform/memory/core.py:213-271 | Rolling back to v yields version v's content; rolling back to n again restores version n's content and provenance as version n + 2 |
| `MemoryTheorems.RollbackRestores` | agi_platform/memory/core.py:213-271 | At any later point of any run, whatever anyone did since, the owner's rollback to a version the memory had reached succeeds, returns that version's content and provenance, and appends it as the next version |
| `MemoryLaws.UpdateLaw` | agi_platform/memory/core.py:164-211 | In every run an update is accepted if and only if the tenant has the memory at the expected version; the returned row then has the given content as its next version, which the history gains, and every other row is as it was; otherwise nothing changes |
| `MemoryLaws.UpdateStays` | agi_platform/memory/core.py:182-194 | In every continuation the history has the update's content as version expected + 1 |
| `MemoryLaws.RollbackLaw` | agi_platform/memory/core.py:213-271 | In every run a rollback is accepted if and only if the tenant has the memory and it has reached the version; the row then has that version's content as its next version and every other row is as it was |
| `MemoryLaws.StoreLaw` | agi_platform/memory/core.py:42-118 | A store of unknown content adds one row made from the request (default namespace, source, provenance and confidence included), its first version and its evidence, and is rejected if and only if the confidence is outside [0, 1] |
| `MemoryLaws.AuditTrailIsComplete` | agi_platform/memory/core.py:103-268 | In every run the audit trail has one event per accepted operation, in order, with tenant, actor, action and memory, and none for a refused one |
| `MemoryLaws.EvidenceMatchesRows` | agi_platform/memory/core.py:93-101 | In every run each memory has exactly one piece of evidence, with its source and provenance |
| `MemoryLaws.ScoreCounts` | agi_platform/memory/core.py:142-144 | The score times the number of query terms is the number of those terms that occur |
| `MemoryLaws.ConsolidationIs` | agi_platform/memory/core.py:289-306 | Summaries are for exactly the types of the tenant's ACTIVE rows, each the first 500 characters of the joined contents |
| `MemoryLaws.JoinKeepsParts` | agi_platform/memory/core.py:302 | Joined contents hold every part, in order, with one space between neighbours |
| `MemoryLaws.ContentsAreOfType` | agi_platform/memory/core.py:291-298 | The contents joined for a type are those of its rows, in order |
| `MemoryTenants.TenantsDoNotInterfere` | agi_platform/memory/core.py:35-306 | Any sequence of operations by other tenants leaves a tenant's rows, versions, evidence, audit trail, search results and consolidation unchanged |
| `MemoryTenants.OwnRecordIff` | agi_platform/memory/core.py:45-118 | With an injective digest: after every run of anyone's operations a store returns a record of the caller's tenant, namespace and type first stored with this content, if and only if none of the four holds a colon |
| `MemoryTenants.StoreReturnsOwnRecord` | agi_platform/memory/core.py:45-118 | When every store so far had colon-free tenant, namespace and type, so does a store with any content |
| `MemoryTenants.TenantRunsAlone` | agi_platform/memory/core.py:35-306 | Then a tenant's share of all four tables is what its own operations alone would have made of an empty store, and each of its operations has the outcome it would have had there |
| `MemoryTenants.CollidingStoreReturnsForeignRecord` | agi_platform/memory/core.py:47-63 | A concrete collision: a store returns another tenant's record |
| `MemoryTenants.StoringAgainOnlyAudits` | agi_platform/memory/core.py:60-118 | Storing the same again at any later time, whatever ran in between, adds one audit event and nothing else, and returns the row first returned as it is by then: same id and provenance, other content only under a higher version |
| `Memory.JoinedKeyInjective` | agi_platform/memory/core.py:47-49 | With colon-free tenant, namespace and type the joined key determines all four parts |
| `Memory.JoinedKeyCollides` | agi_platform/memory/core.py:47-49 | Without that, two tenants share a key |
| `MemoryTheorems.SearchIsTopK` | agi_platform/memory/core.py:120-162 | Results are the first min(limit, hits) of the ranking (all but the last -limit for a negative limit), each one of the caller's ACTIVE rows with a score in (0, 1], and no hit left out outscores one returned |
| `MemoryTheorems.RankingIsStable` | agi_platform/memory/core.py:140-154 | The ranking is sorted by descending score and keeps table order among equal scores |
| `MemoryTheorems.RankingMembers` | agi_platform/memory/core.py:128-149 | A hit is ranked if and only if it is one of the tenant's ACTIVE rows with positive overlap, with its own score |
| `MemoryStore.DurableMemoryStore.Store` | agi_platform/memory/core.py:35-118 | New content gets a row, version 1, evidence and audit; known content only an audit event; a confidence outside [0, 1] is rejected without change |
| `MemoryStore.DurableMemoryStore.Update` | agi_platform/memory/core.py:164-211 | Compare-and-set on the version: appends version and audit, or refuses without change |
| `MemoryStore.DurableMemoryStore.Rollback` | agi_platform/memory/core.py:213-271 | Restores the target's content as a new version with its provenance, or refuses without change |
| `MemoryStore.DurableMemoryStore.Search` | agi_platform/memory/core.py:120-162 | The scoring loop, sort and cut compute the search that the theorems are about |
| `MemoryStore.DurableMemoryStore.Consolidate` | agi_platform/memory/core.py:273-306 | The grouping loop yields one summary per memory type over exactly the tenant's ACTIVE rows, and their count |
| `SlidingWindow.RateLimiter.Allow` | agi_platform/security.py:156-160 | Prunes, decides and records for one identity; other identities' windows are unchanged |
| `SlidingWindow.PruneIsRecent` | agi_platform/security.py:158 | On an ordered deque, popping from the left leaves exactly the grants less than 60 seconds old |
| `SlidingWindow.DequeIsExact` | agi_platform/security.py:156-160 | With a clock that never runs backwards a request is granted if and only if fewer than `limit` grants of the full history lie in the last 60 seconds |
| `SlidingWindow.NoIntervalExceedsLimit` | agi_platform/security.py:152-160 | No half-open 60-second interval, wherever placed, holds more than `limit` grants |
| `FixedWindow.RedisRateLimiter.CheckRules` | agi_platform/security.py:131-150 | Key loop, pipeline, slice and verdict loop compute the specified check for windows of either sign, a zero window and lost or failed commands included |
| `FixedWindow.VerdictUnanswered` | agi_platform/security.py:143-147 | A check that is not answered is refused as unavailable if and only if one of its rules fails closed, and passes otherwise; a zero window always raises |
| `FixedWindow.VerdictAnswered` | agi_platform/security.py:148-150 | An answered check passes if and only if no rule's counter exceeds its limit, and otherwise names the first rule whose counter does |
| `FixedWindow.FloorDivRemainder` | agi_platform/security.py:138 | The bucket number is the floor of the quotient, for a window of either sign |
| `FixedWindow.StrideOfPairs` | agi_platform/security.py:142 | The stride-2 slice pairs each rule with the reply to its own increment |
| `FixedWindow.KeyInjective` | agi_platform/security.py:139 | A counter's key determines scope and bucket, for any scope text and bucket number |
| `FixedWindowBounds.CountersAreExact` | agi_platform/security.py:131-142 | Where readings are off by no more than the slack and a second, the time to live never drops a counter inside its bucket: each counter equals the increments made to it, over all replicas |
| `FixedWindowBounds.PassMeansRoom` | agi_platform/security.py:148-150 | A check that passes found fewer than `limit` increments before it |
| `FixedWindowBounds.BucketBound` | agi_platform/security.py:131-150 | Then at most `limit` checks pass per scope and bucket: of any fate where the rule fails closed, otherwise answered ones |
| `FixedWindowBounds.LimitPerBucketIff` | agi_platform/security.py:131-150 | At most `limit` checks pass per scope and bucket in every run (of any fate where the rule fails closed, otherwise answered ones) if and only if `limit` is below 1 or d + e is at most 6 seconds |
| `FixedWindowBounds.LimitForAnyFateIff` | agi_platform/security.py:131-150 | At most `limit` checks of whatever fate pass per scope and bucket in every run if and only if the rule fails closed and the condition above holds |
| `FixedWindowBounds.BucketInInterval` | agi_platform/security.py:131-150 | In any interval no longer than a counter's life at most `limit` checks of one bucket pass, however far readings are off |
| `FixedWindowBounds.TwiceTheLimitIff` | agi_platform/security.py:131-150 | At most 2 × `limit` checks (of any fate where the rule fails closed, otherwise answered ones) pass in every interval of the server's time of a given length, wherever it starts and in every run, if and only if `limit` is below 1 or length + d + e is at most the window plus one second |
| `FixedWindowBounds.TwiceTheLimitAnywhere` | agi_platform/security.py:131-150 | With readings exact to the second, at most 2 × `limit` in every interval of one window length, from any real start |
| `FixedWindowBounds.ThreeInOneMinute` | agi_platform/security.py:131-150 | With clocks 2.5 seconds off, three checks pass a limit of one within one minute of the server's time |
| `DistributedLock.RedisDistributedLock.Acquire` | agi_platform/security.py:175-183 | The loop ends at the first attempt that is granted, fails, or finds the lock taken at or past the deadline, with the matching result (a time to live that is not positive fails) and server state, and pauses once for every attempt before it |
| `DistributedLock.RedisDistributedLock.Release` | agi_platform/security.py:184-188 | Deletes the key exactly if it is live and the handle's own; reports a failed command |
| `DistributedLock.RunKeepsInv` | agi_platform/security.py:166-188 | In every legal run a handle that holds is the one recorded at the server, every recorded entry has an unreleased handle, and no two handles of a lock share a token |
| `DistributedLock.ExclusionIsPermanentIff` | agi_platform/security.py:166-188 | After any run whatever, every legal continuation has at most one holder per lock if and only if each handle that holds is recorded at the server and shares its token with no other handle |
| `DistributedLock.TokenMayBeUsedIff` | agi_platform/security.py:175-183 | Where exclusion is permanent so far, an attempt to acquire keeps it so if and only if it is not granted or its token is new to the lock |
| `DistributedLock.MutualExclusion` | agi_platform/security.py:166-188 | At most one unreleased unexpired handle per lock, at any time |
| `DistributedLock.ReleaseIsOwn` | agi_platform/security.py:167-188 | A release takes effect if and only if its own handle still holds, so at most once, and never on another handle's lock |
| `DistributedLock.GrantedExactlyWhenFree` | agi_platform/security.py:175-183 | An attempt is granted if and only if its time to live is positive and no handle of that lock holds |
| `DistributedLock.ReusedOwnerBreaksExclusion` | agi_platform/security.py:175-188 | With a reused owner token two handles hold the lock at once |
| `Domain.Workflow.TransitionTo` | agi_platform/domain.py:202-226 | Version check, table check, new state, new version and event of a workflow; refusals change nothing |
| `Domain.Task.TransitionTo` | agi_platform/domain.py:235-260 | The same for a task |
| `Domain.LogReplays` | agi_platform/domain.py:202-226 | For every sequence of attempts the accepted events chain from the initial state along the table, carry versions 2, 3, ... without gap, and replay to the entity |
| `Domain.TerminalIsFinal` | agi_platform/domain.py:49-71 | A state without targets is absorbing: no later attempt changes entity or log |
| `Domain.OneTransitionPerVersion` | agi_platform/domain.py:211-217 | Of the attempts that expect one version at most one is accepted |
| `Domain.AcceptedIff` | agi_platform/domain.py:211-217 | In every run an attempt is stale if and only if it expects a version other than the events so far plus one, and accepted if and only if it is not stale and the table allows it; refused ones change nothing |
| `Domain.WorkflowSources` | agi_platform/domain.py:49-59 | From which states each workflow state can be entered; exactly COMPLETED and CANCELLED are terminal, and every other state can be cancelled |
| `Domain.TaskSources` | agi_platform/domain.py:61-71 | The same for tasks |
| `Domain.WorkflowCanComplete` | agi_platform/domain.py:49-59 | After every run a workflow that is not cancelled can still be completed |
| `Domain.TaskCanComplete` | agi_platform/domain.py:61-71 | The same for tasks |
| `Domain.CompletionAfterFailureRecovers` | agi_platform/domain.py:49-59 | A workflow that completes after failing has passed RECOVERING in between |
| `Domain.CompletionAfterFailureRetries` | agi_platform/domain.py:61-71 | A task that completes after failing has passed RETRYING in between |

## Left out

- Races inside one database session, row locking and isolation levels: sessions are atomic steps; overlapping calls of `complete` likewise.
- Status words that `_status` would upper-case because they are not in its table: the engine never writes one.
- The `runs` list of the engine and the `graph`, `conversation`, `crew`, `role` and contract fields of a workflow document: descriptive output that no operation reads.
- The tenants table, `ensure_tenant` and foreign keys: no modelled operation deletes a row they protect.
- Row and event ids from `new_id`, `created_at` of events, versions and audits, and clock ticks inside one session.
- `WorkflowStore.WorkflowStateStore.ListWorkflows`: does not model the order of the returned list, because the query has none and only its length is used.
- `DistributedLock.RedisDistributedLock.Acquire`: does not model a negative `retry_ms`, on which `time.sleep` raises.
- `run_once`, which only brackets a callback with acquire and release.
- `GatewayService.LLMGateway.Attempt`: does not model the fields of a usage record that nothing reads back: response text, tool calls, latency, timestamp, raw response.
- Provider adapters, JSON extraction of content and usage, `embeddings`, the response cache and `LLMCore`: provider-specific plumbing behind the arbitrary replies.
- Floating-point rounding of costs, scores and times.
- The `retention` column and `MemoryLayer`, `RecordsProxy`: pass-through data and wrappers.
- `MemoryStore.DurableMemoryStore.Search`: takes the query's terms as a set and the splitting of contents as a function; lower-casing and splitting are not modelled. The rows come in table order, which an update does not change; the query itself asks for no order.
- `MemoryStore.DurableMemoryStore.Consolidate`: takes the rows in the same order, for the same reason.
- Timestamps, correlation ids and request ids of domain events; entities that have no transitions.
- HTTP routing and wiring; policies and API keys, which are short decision lists; outbound requests and the sandbox, which are calls into the network and the operating system; knowledge graph, guardian, governance, evolution, telemetry, readiness and catalog modules, which are append-only lists and static tables.
