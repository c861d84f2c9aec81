/** The LLM gateway: priority fallback over providers, retries with exponential backoff, a timed
    circuit breaker per provider, and a per-tenant budget with a usage ledger. One completion is
    a function of the gateway's state and of what the providers reply. */
module Gateway {
  import opened Tables
  import opened Ordering

  datatype Provider = Provider(name: string, models: seq<string>, priority: int)

  datatype Routing = Routing(maxRetries: int, backoff: real, threshold: int, cooldown: real, allowlist: set<string>)

  datatype Costs = Costs(maxTokens: int, budget: real, price: real)

  /** Providers are in dictionary order. */
  datatype Config = Config(providers: seq<Provider>, routing: Routing, costs: Costs)

  datatype HealthStatus = Unknown | Healthy | Unhealthy

  datatype Health = Health(failures: int, openUntil: real, lastStatus: HealthStatus)

  /** How a chat call ends: an answer with its token usage, an HTTP error status, a transient or
      malformed failure, or an exception that the gateway does not catch. */
  datatype Outcome = Answer(inputTokens: int, outputTokens: int) | HttpStatus(code: int) | Fault | Uncaught

  /** `elapsed` is the time the call takes, `lag` what passes beyond the nominal sleep. */
  datatype Reply = Reply(outcome: Outcome, elapsed: real, lag: real)

  datatype Record = Record(provider: string, model: string, requestId: string, tenant: string,
                           inputTokens: int, outputTokens: int, cost: real, errors: nat)

  /** Instrumentation: what happened at the providers, in order. */
  datatype Note = Called(name: string, at: real) | Failed(name: string, at: real) | Restored(name: string)

  datatype State = State(
    health: map<string, Health>,
    spent: map<string, real>,
    usage: seq<Record>,
    clock: real,
    slept: real,
    notes: seq<Note>,
    calls: nat)

  /** One call of `complete`: the i-th candidate's reply to attempt k is `replies(i, k)`. */
  datatype Request = Request(
    tokens: nat,
    model: Option<string>,
    tenant: string,
    id: string,
    configured: set<string>,
    wait: real,
    replies: (nat, nat) -> Reply)

  datatype Result = Served(record: Record) | TokenLimit | OverBudget | NotAllowed | NoProvider | Unavailable | Raised

  ghost predicate ValidConfig(c: Config) {
    && Distinct((p: Provider) => p.name, c.providers)
    && (forall i :: 0 <= i < |c.providers| ==> c.providers[i].models != [])
    && c.routing.threshold >= 1 && c.routing.backoff >= 0.0
  }

  ghost predicate Timely(q: Request) {
    q.wait >= 0.0 && forall i: nat, k: nat :: q.replies(i, k).elapsed >= 0.0 && q.replies(i, k).lag >= 0.0
  }

  function Initial(c: Config): State {
    State(map p | p in c.providers :: p.name := Health(0, 0.0, Unknown), map[], [], 0.0, 0.0, [], 0)
  }

  // ---- cost policy ----

  function Estimate(c: Config, tokensIn: int, tokensOut: int): real {
    (tokensIn + tokensOut) as real / 1000.0 * c.costs.price
  }

  function SpentBy(s: State, tenant: string): real {
    if tenant in s.spent then s.spent[tenant] else 0.0
  }

  predicate Reservable(c: Config, s: State, tenant: string, cost: real) {
    SpentBy(s, tenant) + cost <= c.costs.budget
  }

  // ---- breaker ----

  predicate Available(s: State, name: string) {
    name in s.health && s.clock >= s.health[name].openUntil
  }

  function RecordFailure(c: Config, s: State, name: string): State
    requires name in s.health
  {
    var h := s.health[name];
    var failures := h.failures + 1;
    var openUntil := if failures >= c.routing.threshold then s.clock + c.routing.cooldown else h.openUntil;
    s.(health := s.health[name := Health(failures, openUntil, Unhealthy)], notes := s.notes + [Failed(name, s.clock)])
  }

  function Pow2(n: nat): (r: nat)
    ensures r >= 1
  {
    if n == 0 then 1 else 2 * Pow2(n - 1)
  }

  function Doubled(x: real, times: nat): real {
    if times == 0 then x else 2.0 * Doubled(x, times - 1)
  }

  lemma {:induction false} DoubledIsProduct(x: real, n: nat)
    ensures Doubled(x, n) == x * Pow2(n) as real
  {
    if n == 0 {
    } else {
      DoubledIsProduct(x, n - 1);
      assert Pow2(n) as real == 2.0 * Pow2(n - 1) as real;
    }
  }

  /** The backoff, doubled with every attempt; none after the last one. */
  function Backoff(c: Config, attempt: nat): real {
    if attempt < c.routing.maxRetries then Doubled(c.routing.backoff, attempt) else 0.0
  }

  function Sleep(c: Config, s: State, attempt: nat, lag: real): State {
    s.(clock := s.clock + Backoff(c, attempt) + lag, slept := s.slept + Backoff(c, attempt))
  }

  // ---- routing ----

  function Priority(p: Provider): real { p.priority as real }

  predicate Usable(s: State, q: Request, p: Provider) {
    p.name in q.configured && Available(s, p.name)
  }

  predicate Requested(q: Request) {
    q.model.Some? && q.model.value != ""
  }

  predicate Offers(q: Request, p: Provider) {
    Requested(q) ==> q.model.value in p.models
  }

  datatype Routed = Candidates(providers: seq<Provider>) | Refused | Nobody

  /** Usable providers, sorted by priority, then narrowed to the requested model. */
  function Route(c: Config, s: State, q: Request): Routed {
    var sorted := Sort(Priority, Filter((p: Provider) => Usable(s, q, p), c.providers));
    if Requested(q) && c.routing.allowlist != {} && q.model.value !in c.routing.allowlist then Refused
    else
      var offering := Filter((p: Provider) => Offers(q, p), sorted);
      if offering == [] then Nobody else Candidates(offering)
  }

  /** The candidates are the stable priority ordering of exactly the providers that are
      configured, not behind an open circuit, and offer the requested model. */
  lemma {:induction false} RouteIsStablePriorityOrder(c: Config, s: State, q: Request)
    requires Route(c, s, q).Candidates?
    ensures var ps := Route(c, s, q).providers;
            var eligible := Filter((p: Provider) => Offers(q, p),
                Filter((p: Provider) => Usable(s, q, p), c.providers));
            && SortedBy(Priority, ps) && StableRearrangement(Priority, eligible, ps)
            && (forall i, j :: 0 <= i < j < |ps| ==> ps[i].priority <= ps[j].priority)
  {
    var usable := Filter((p: Provider) => Usable(s, q, p), c.providers);
    var offers := (p: Provider) => Offers(q, p);
    FilterOfSort(Priority, offers, usable);
    SortStable(Priority, Filter(offers, usable));
    var ps := Route(c, s, q).providers;
    forall i, j | 0 <= i < j < |ps|
      ensures ps[i].priority <= ps[j].priority
    {
      assert Priority(ps[i]) <= Priority(ps[j]);
    }
  }

  lemma {:induction false} RoutedAreKnown(c: Config, s: State, q: Request)
    requires Route(c, s, q).Candidates?
    ensures forall j :: 0 <= j < |Route(c, s, q).providers| ==>
              Route(c, s, q).providers[j] in c.providers && Usable(s, q, Route(c, s, q).providers[j])
  {
    var ps := Route(c, s, q).providers;
    var usable := Filter((p: Provider) => Usable(s, q, p), c.providers);
    SortStable(Priority, usable);
    var sorted := Sort(Priority, usable);
    forall j | 0 <= j < |ps|
      ensures ps[j] in c.providers && Usable(s, q, ps[j])
    {
      FilterMembers((p: Provider) => Offers(q, p), sorted, j);
      assert ps[j] in multiset(sorted);
      assert ps[j] in usable;
      var i :| 0 <= i < |usable| && usable[i] == ps[j];
      FilterMembers((p: Provider) => Usable(s, q, p), c.providers, i);
    }
  }

  // ---- one call, one provider, all candidates ----

  /** What the gateway does after a call: return, try the provider again, move on, or raise. */
  datatype Verdict = Done(record: Record) | Again(errors: nat) | Next(errors: nat) | Propagate

  function Serve(s: State, r: Record): State {
    var spent := SpentBy(s, r.tenant) + r.cost;
    s.(spent := s.spent[r.tenant := spent], health := s.health[r.provider := Health(0, 0.0, Healthy)],
       usage := s.usage + [r], notes := s.notes + [Restored(r.provider)])
  }

  function RecordFor(c: Config, q: Request, p: Provider, tokensIn: int, tokensOut: int, errors: nat): Record
    requires p.models != []
  {
    Record(p.name, if Requested(q) then q.model.value else p.models[0], q.id, q.tenant, tokensIn, tokensOut,
           Estimate(c, tokensIn, tokensOut), errors)
  }

  function AfterFault(c: Config, s: State, p: Provider, attempt: nat, lag: real, errors: nat): (r: (State, Verdict))
    requires p.name in s.health
    ensures r.0.health.Keys == s.health.Keys
  {
    var slept := Sleep(c, RecordFailure(c, s, p.name), attempt, lag);
    (slept, if Available(slept, p.name) then Again(errors + 1) else Next(errors + 1))
  }

  function AfterCall(s: State, name: string, elapsed: real): State {
    s.(clock := s.clock + elapsed, notes := s.notes + [Called(name, s.clock)], calls := s.calls + 1)
  }

  function HandleReply(c: Config, s: State, q: Request, p: Provider, reply: Reply, attempt: nat,
        errors: nat): (r: (State, Verdict))
    requires p.name in s.health && p.models != []
    ensures r.0.health.Keys == s.health.Keys
  {
    match reply.outcome
    case Answer(tokensIn, tokensOut) =>
      var record := RecordFor(c, q, p, tokensIn, tokensOut, errors);
      if Reservable(c, s, q.tenant, record.cost) then (Serve(s, record), Done(record))
      else AfterFault(c, s, p, attempt, reply.lag, errors)
    case HttpStatus(code) =>
      if code < 500 && code != 429 then (RecordFailure(c, s, p.name), Next(errors + 1))
      else (Sleep(c, s, attempt, reply.lag), Again(errors + 1))
    case Fault => AfterFault(c, s, p, attempt, reply.lag, errors)
    case Uncaught => (s, Propagate)
  }

  function TryOnce(c: Config, s: State, q: Request, p: Provider, reply: Reply, attempt: nat,
        errors: nat): (r: (State, Verdict))
    requires p.name in s.health && p.models != []
    ensures r.0.health.Keys == s.health.Keys
  {
    HandleReply(c, AfterCall(s, p.name, reply.elapsed), q, p, reply, attempt, errors)
  }

  /** The retry loop for candidate number i, from a given attempt on. */
  function TryProvider(c: Config, s: State, q: Request, p: Provider, i: nat, attempt: nat,
        errors: nat): (r: (State, Verdict))
    requires p.name in s.health && p.models != []
    ensures r.0.health.Keys == s.health.Keys
    decreases c.routing.maxRetries + 1 - attempt
  {
    if attempt > c.routing.maxRetries then (s, Next(errors))
    else
      var (s', v) := TryOnce(c, s, q, p, q.replies(i, attempt), attempt, errors);
      if v.Again? then TryProvider(c, s', q, p, i, attempt + 1, v.errors) else (s', v)
  }

  /** The fallback loop over the candidates from number i on. */
  function TryAll(c: Config, s: State, q: Request, ps: seq<Provider>, i: nat, errors: nat): (State, Result)
    requires i <= |ps| && forall j :: i <= j < |ps| ==> ps[j].name in s.health && ps[j].models != []
    decreases |ps| - i
  {
    if i == |ps| then (s, Unavailable)
    else
      var (s', v) := TryProvider(c, s, q, ps[i], i, 0, errors);
      match v
      case Done(r) => (s', Served(r))
      case Propagate => (s', Raised)
      case Again(e) => TryAll(c, s', q, ps, i + 1, e)
      case Next(e) => TryAll(c, s', q, ps, i + 1, e)
  }

  ghost predicate Known(c: Config, s: State) {
    forall p :: p in c.providers ==> p.name in s.health && p.models != []
  }

  ghost predicate Callable(s: State, routed: Routed) {
    routed.Candidates? ==>
      forall j :: 0 <= j < |routed.providers| ==>
        routed.providers[j].name in s.health && routed.providers[j].models != []
  }

  function Dispatch(c: Config, s: State, q: Request, routed: Routed): (State, Result)
    requires Callable(s, routed)
  {
    match routed
    case Refused => (s, NotAllowed)
    case Nobody => (s, NoProvider)
    case Candidates(ps) => TryAll(c, s, q, ps, 0, 0)
  }

  lemma {:induction false} RouteCallable(c: Config, s: State, q: Request)
    requires Known(c, s)
    ensures Callable(s, Route(c, s, q))
  {
    if Route(c, s, q).Candidates? {
      RoutedAreKnown(c, s, q);
    }
  }

  /** The state when the request arrives, `wait` after the previous one was done. */
  function Arrived(s: State, q: Request): State {
    s.(clock := s.clock + q.wait)
  }

  function Complete(c: Config, s: State, q: Request): (State, Result)
    requires Known(c, s)
  {
    var s := Arrived(s, q);
    if q.tokens > c.costs.maxTokens then (s, TokenLimit)
    else if !Reservable(c, s, q.tenant, Estimate(c, q.tokens, c.costs.maxTokens)) then (s, OverBudget)
    else RouteCallable(c, s, q); Dispatch(c, s, q, Route(c, s, q))
  }
}
