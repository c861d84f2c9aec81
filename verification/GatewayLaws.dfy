/** What a completion costs, whom it may ask, when it is refused, and how long it takes: told from
    the request, the configuration and the replies. */
module GatewayLaws {
  import opened Ordering
  import opened Gateway
  import opened GatewayTheorems
  import opened GatewayRefinement

  // ---- what completions cost ----

  /** Tokens of a tenant's records, in and out. */
  function TokensOf(usage: seq<Record>, tenant: string): int {
    if usage == [] then 0
    else
      var r := usage[|usage| - 1];
      TokensOf(usage[..|usage| - 1], tenant) + if r.tenant == tenant then r.inputTokens + r.outputTokens else 0
  }

  /** The spend of a tenant is the price, per thousand, of the tokens of its records. */
  ghost predicate SpendIsPriced(c: Config, s: State, tenant: string) {
    1000.0 * SpentBy(s, tenant) == TokensOf(s.usage, tenant) as real * c.costs.price
  }

  lemma {:induction false} BillingKeepsPrice(c: Config, s: State, s': State, tenant: string, payer: string, r: Result)
    requires SpendIsPriced(c, s, tenant) && Billing(c, s, s', payer, r)
    ensures SpendIsPriced(c, s', tenant)
  {
    if r.Served? {
      assert s'.usage[..|s'.usage| - 1] == s.usage;
      var n, m := TokensOf(s.usage, tenant) as real, (r.record.inputTokens + r.record.outputTokens) as real;
      assert (n + m) * c.costs.price == n * c.costs.price + m * c.costs.price;
    }
  }

  lemma {:induction false} NothingIsPriced(c: Config, tenant: string)
    ensures SpendIsPriced(c, Initial(c), tenant)
  {
  }

  lemma {:induction false} CompletionKeepsPrice(c: Config, s: State, q: Request, tenant: string)
    requires Known(c, s) && SpendIsPriced(c, s, tenant)
    ensures SpendIsPriced(c, Complete(c, s, q).0, tenant)
  {
    CompletionCharges(c, s, q);
    BillingKeepsPrice(c, s, Complete(c, s, q).0, tenant, q.tenant, Complete(c, s, q).1);
  }

  /** In every run a tenant's spend, times a thousand, is the price times the tokens that its usage
      records report. */
  lemma {:induction false} SpendIsPricedInRuns(c: Config, qs: seq<Request>, tenant: string)
    requires ValidConfig(c)
    ensures SpendIsPriced(c, Run(c, qs), tenant)
  {
    if qs == [] {
      NothingIsPriced(c, tenant);
    } else {
      SpendIsPricedInRuns(c, qs[..|qs| - 1], tenant);
      CompletionKeepsPrice(c, Run(c, qs[..|qs| - 1]), qs[|qs| - 1], tenant);
    }
  }

  // ---- whom a completion may ask, and when it is refused ----

  /** The provider has a key or an endpoint, its circuit is not open, and it has the model. */
  predicate Eligible(s: State, q: Request, p: Provider) {
    && p.name in q.configured && p.name in s.health && s.clock >= s.health[p.name].openUntil
    && (q.model.None? || q.model.value == "" || q.model.value in p.models)
  }

  /** A model is asked for that a non-empty allowlist does not have. */
  predicate Forbidden(c: Config, q: Request) {
    q.model.Some? && q.model.value != "" && c.routing.allowlist != {} && q.model.value !in c.routing.allowlist
  }

  lemma {:induction false} FilterHas<T>(p: T -> bool, s: seq<T>, x: T)
    ensures x in Filter(p, s) <==> x in s && p(x)
  {
    FilterCount(p, s, x);
    assert x in Filter(p, s) <==> multiset(Filter(p, s))[x] > 0;
    assert x in s <==> multiset(s)[x] > 0;
  }

  /** The providers that a completion may fall back on are exactly the eligible ones. */
  lemma {:induction false} CandidatesIff(c: Config, s: State, q: Request, p: Provider)
    ensures Route(c, s, q) == Refused <==> Forbidden(c, q)
    ensures !Forbidden(c, q) ==>
              (p in c.providers && Eligible(s, q, p) <==> Route(c, s, q).Candidates? && p in Route(c, s, q).providers)
  {
    var usable := Filter((p: Provider) => Usable(s, q, p), c.providers);
    FilterHas((p: Provider) => Usable(s, q, p), c.providers, p);
    SortStable(Priority, usable);
    assert p in Sort(Priority, usable) <==> multiset(Sort(Priority, usable))[p] > 0;
    assert p in usable <==> multiset(usable)[p] > 0;
    FilterHas((p: Provider) => Offers(q, p), Sort(Priority, usable), p);
  }

  lemma {:induction false} LoopsEndOneOfThreeWays(c: Config, s: State, q: Request, ps: seq<Provider>, i: nat,
        errors: nat)
    requires i <= |ps| && forall j :: i <= j < |ps| ==> ps[j].name in s.health && ps[j].models != []
    ensures var r := TryAll(c, s, q, ps, i, errors).1;
            r.Served? || r == Unavailable || r == Raised
    decreases |ps| - i
  {
    if i == |ps| {
    } else {
      var (s', v) := TryProvider(c, s, q, ps[i], i, 0, errors);
      if v.Next? || v.Again? {
        LoopsEndOneOfThreeWays(c, s', q, ps, i + 1, v.errors);
      }
    }
  }

  /** The request is within the token limit, and its reservation within the budget. */
  predicate Admitted(c: Config, s: State, q: Request) {
    && q.tokens <= c.costs.maxTokens
    && 1000.0 * SpentBy(s, q.tenant) + (q.tokens + c.costs.maxTokens) as real * c.costs.price <= 1000.0 * c.costs.budget
  }

  lemma {:induction false} AdmittedIsReservable(c: Config, s: State, q: Request)
    ensures Admitted(c, s, q) <==>
            q.tokens <= c.costs.maxTokens && Reservable(c, s, q.tenant, Estimate(c, q.tokens, c.costs.maxTokens))
  {
    EstimateIsPerThousand(c, q.tokens, c.costs.maxTokens);
  }

  lemma {:induction false} DispatchRefusals(c: Config, s: State, q: Request)
    requires Callable(s, Route(c, s, q))
    ensures var (s', r) := Dispatch(c, s, q, Route(c, s, q));
            && r != TokenLimit && r != OverBudget
            && (r == NotAllowed <==> Forbidden(c, q))
            && (r == NoProvider <==> !Forbidden(c, q) && forall p :: p in c.providers ==> !Eligible(s, q, p))
            && (r == NotAllowed || r == NoProvider ==> s' == s)
  {
    forall p
      ensures Route(c, s, q) == Refused <==> Forbidden(c, q)
      ensures !Forbidden(c, q) ==>
                (p in c.providers && Eligible(s, q, p) <==> Route(c, s, q).Candidates? && p in Route(c, s, q).providers)
    {
      CandidatesIff(c, s, q, p);
    }
    if Route(c, s, q).Candidates? {
      LoopsEndOneOfThreeWays(c, s, q, Route(c, s, q).providers, 0, 0);
      assert Route(c, s, q).providers[0] in Route(c, s, q).providers;
    }
  }

  /** When a completion is refused before any provider is asked, and why: over the token limit; its
      reservation over the budget; a model that is not allowed; no eligible provider. Nothing is
      then called, charged or changed. */
  lemma {:induction false} RefusalsIff(c: Config, s: State, q: Request)
    requires Known(c, s)
    ensures var (s', r) := Complete(c, s, q);
            var arrived := s.(clock := s.clock + q.wait);
            && (r == TokenLimit <==> q.tokens > c.costs.maxTokens)
            && (r == OverBudget <==> q.tokens <= c.costs.maxTokens && !Admitted(c, s, q))
            && (r == NotAllowed <==> Admitted(c, s, q) && Forbidden(c, q))
            && (r == NoProvider <==>
                  Admitted(c, s, q) && !Forbidden(c, q) && forall p :: p in c.providers ==> !Eligible(arrived, q, p))
            && (r in {TokenLimit, OverBudget, NotAllowed, NoProvider} ==> s' == arrived)
  {
    var arrived := Arrived(s, q);
    AdmittedIsReservable(c, arrived, q);
    RouteCallable(c, arrived, q);
    DispatchRefusals(c, arrived, q);
  }

  // ---- the record of a served completion ----

  /** A served completion's record names the provider that decided, the model asked for or else the
      provider's first, the request and its tenant, and the tokens of the deciding reply. */
  lemma {:induction false} RecordTells(c: Config, s: State, q: Request, ps: seq<Provider>, e: nat, r: Result)
    requires e <= |ps| && AllKnown(s, ps) && Returns(c, s, q, ps, e, r) && r.Served?
    ensures e < |ps|
    ensures var reply := q.replies(e, Stop(c, s, q, ps, e));
            && reply.outcome.Answer?
            && r.record.provider == ps[e].name
            && r.record.model == (if q.model.None? || q.model.value == "" then ps[e].models[0] else q.model.value)
            && r.record.requestId == q.id && r.record.tenant == q.tenant
            && r.record.inputTokens == reply.outcome.inputTokens && r.record.outputTokens == reply.outcome.outputTokens
            && r.record.errors == Calls(c, s, q, ps, e) + Stop(c, s, q, ps, e)
  {
  }

  // ---- what trying a provider takes ----

  /** Seconds slept, time passed, and failures on record afterwards. */
  datatype Toll = Toll(slept: real, time: real, failures: int)

  /** What trying candidate i from attempt k on takes, told from its replies, where f failures are
      on record. Every reply that does not stop is followed by a pause, and so is one that trips
      the circuit; a refusal or a fault is a failure on record, an accepted answer clears it, and
      any other reply leaves it alone. */
  function TollOf(c: Config, spent: real, q: Request, i: nat, failures: int, k: nat, f: int): Toll
    decreases c.routing.maxRetries + 1 - k
  {
    if k > c.routing.maxRetries then Toll(0.0, 0.0, f)
    else
      var r := q.replies(i, k);
      var f' := if Fatal(r) || Faulty(c, spent, r) then f + 1 else f;
      if !Stops(c, spent, q, i, failures, k) then
        var rest := TollOf(c, spent, q, i, failures, k + 1, f');
        Toll(Backoff(c, k) + rest.slept, r.elapsed + Backoff(c, k) + r.lag + rest.time, rest.failures)
      else if Accepted(c, spent, r) then Toll(0.0, r.elapsed, 0)
      else if Trips(c, spent, q, i, failures, k) then Toll(Backoff(c, k), r.elapsed + Backoff(c, k) + r.lag, f')
      else Toll(0.0, r.elapsed, f')
  }

  ghost predicate Took(s: State, s': State, name: string, t: Toll)
    requires name in s'.health
  {
    s'.slept == s.slept + t.slept && s'.clock == s.clock + t.time && s'.health[name].failures == t.failures
  }

  lemma {:induction false} ReplyTakes(c: Config, s: State, q: Request, p: Provider, i: nat, failures: int, spent: real,
        k: nat, errors: nat)
    requires Trying(c, s, q, p, i, failures, spent, k)
    requires q.replies(i, k).lag >= 0.0 && Backoff(c, k) >= 0.0
    ensures var r, s' := q.replies(i, k), HandleReply(c, s, q, p, q.replies(i, k), k, errors).0;
            var pauses := !Stops(c, spent, q, i, failures, k) || Trips(c, spent, q, i, failures, k);
            var f, f' := s.health[p.name].failures, s'.health[p.name].failures;
            && s'.slept == s.slept + (if pauses then Backoff(c, k) else 0.0)
            && s'.clock == s.clock + (if pauses then Backoff(c, k) + r.lag else 0.0)
            && f' == if Accepted(c, spent, r) then 0 else if Fatal(r) || Faulty(c, spent, r) then f + 1 else f
  {
    FaultVerdict(c, s, p, k, q.replies(i, k).lag, errors);
  }

  lemma {:induction false} ProviderTakes(c: Config, s: State, q: Request, p: Provider, i: nat, failures: int,
        spent: real, k: nat, errors: nat)
    requires Trying(c, s, q, p, i, failures, spent, k) && Timely(q) && c.routing.backoff >= 0.0
    ensures Took(s, TryProvider(c, s, q, p, i, k, errors).0, p.name,
                 TollOf(c, spent, q, i, failures, k, s.health[p.name].failures))
    decreases c.routing.maxRetries + 1 - k
  {
    if k > c.routing.maxRetries {
    } else {
      var r := q.replies(i, k);
      BackoffNonNegative(c, k);
      TryingAfterCall(c, s, q, p, i, failures, spent, k, r.elapsed);
      ReplyVerdict(c, AfterCall(s, p.name, r.elapsed), q, p, i, failures, spent, k, errors);
      ReplyTakes(c, AfterCall(s, p.name, r.elapsed), q, p, i, failures, spent, k, errors);
      var (s', v) := TryOnce(c, s, q, p, r, k, errors);
      if !Stops(c, spent, q, i, failures, k) {
        ProviderTakes(c, s', q, p, i, failures, spent, k + 1, errors + 1);
      }
    }
  }

  // ---- what a whole completion takes ----

  function CandidateToll(c: Config, s: State, q: Request, ps: seq<Provider>, i: nat): Toll
    requires i < |ps| && ps[i].name in s.health
  {
    var failures := s.health[ps[i].name].failures;
    TollOf(c, SpentBy(s, q.tenant), q, i, failures, 0, failures)
  }

  /** Seconds slept over the candidates from i on, up to the one that ends the completion. */
  function TotalSlept(c: Config, s: State, q: Request, ps: seq<Provider>, i: nat): real
    requires i <= |ps| && AllKnown(s, ps)
    decreases |ps| - i
  {
    if i == |ps| then 0.0
    else CandidateToll(c, s, q, ps, i).slept + if Ends(c, s, q, ps, i) then 0.0 else TotalSlept(c, s, q, ps, i + 1)
  }

  function TotalTime(c: Config, s: State, q: Request, ps: seq<Provider>, i: nat): real
    requires i <= |ps| && AllKnown(s, ps)
    decreases |ps| - i
  {
    if i == |ps| then 0.0
    else CandidateToll(c, s, q, ps, i).time + if Ends(c, s, q, ps, i) then 0.0 else TotalTime(c, s, q, ps, i + 1)
  }

  /** The failures on record of candidate j afterwards: as before if the completion ended earlier. */
  function FailuresAfter(c: Config, s: State, q: Request, ps: seq<Provider>, i: nat, j: nat): int
    requires i <= j < |ps| && AllKnown(s, ps)
  {
    if j <= FirstEnding(c, s, q, ps, i) then CandidateToll(c, s, q, ps, j).failures else s.health[ps[j].name].failures
  }

  lemma {:induction false} CandidateTakes(c: Config, s: State, now: State, q: Request, ps: seq<Provider>, i: nat,
        errors: nat)
    requires i < |ps| && AllKnown(s, ps) && Untouched(s, now, q, ps, i)
    requires ValidConfig(c) && Lined(now, ps, i) && Timely(q)
    ensures Took(now, TryProvider(c, now, q, ps[i], i, 0, errors).0, ps[i].name, CandidateToll(c, s, q, ps, i))
  {
    var failures, spent := s.health[ps[i].name].failures, SpentBy(s, q.tenant);
    assert Trying(c, now, q, ps[i], i, failures, spent, 0);
    ProviderTakes(c, now, q, ps[i], i, failures, spent, 0, errors);
  }

  /** Trying the candidates from i on changes the health of nobody else. */
  lemma {:induction false} OthersKeepHealth(c: Config, now: State, q: Request, ps: seq<Provider>, i: nat, errors: nat,
        name: string)
    requires i <= |ps| && ValidConfig(c) && BreakerInv(c, now) && Lined(now, ps, i) && Timely(q)
    requires name in now.health && forall j :: i <= j < |ps| ==> ps[j].name != name
    ensures var s' := TryAll(c, now, q, ps, i, errors).0;
            name in s'.health && s'.health[name] == now.health[name]
    decreases |ps| - i
  {
    if i == |ps| {
    } else {
      TryProviderKeepsBreaker(c, now, q, ps[i], i, 0, errors);
      var (s', v) := TryProvider(c, now, q, ps[i], i, 0, errors);
      LinedKept(now, s', ps, i);
      if v.Next? || v.Again? {
        OthersKeepHealth(c, s', q, ps, i + 1, v.errors, name);
      }
    }
  }

  /** What the loops take from candidate i on. */
  ghost predicate LoopsTook(c: Config, s: State, now: State, q: Request, ps: seq<Provider>, i: nat, s': State)
    requires i <= |ps| && AllKnown(s, ps)
  {
    && s'.slept == now.slept + TotalSlept(c, s, q, ps, i) && s'.clock == now.clock + TotalTime(c, s, q, ps, i)
    && (forall j :: i <= j < |ps| ==>
          ps[j].name in s'.health && s'.health[ps[j].name].failures == FailuresAfter(c, s, q, ps, i, j))
  }

  lemma {:induction false} EndingIsLast(c: Config, s: State, now: State, q: Request, ps: seq<Provider>, i: nat)
    requires i < |ps| && AllKnown(s, ps) && Untouched(s, now, q, ps, i) && Ends(c, s, q, ps, i)
    requires ValidConfig(c) && Lined(now, ps, i) && Timely(q)
    ensures TryAll(c, now, q, ps, i, Calls(c, s, q, ps, i)).0 ==
            TryProvider(c, now, q, ps[i], i, 0, Calls(c, s, q, ps, i)).0
  {
    CandidateVerdict(c, s, now, q, ps, i);
  }

  lemma {:induction false} LastToll(c: Config, s: State, now: State, q: Request, ps: seq<Provider>, i: nat, s': State)
    requires i < |ps| && AllKnown(s, ps) && Ends(c, s, q, ps, i)
    requires ps[i].name in s'.health && Took(now, s', ps[i].name, CandidateToll(c, s, q, ps, i))
    requires forall j :: i < j < |ps| ==>
               ps[j].name in s'.health && s'.health[ps[j].name] == s.health[ps[j].name]
    ensures LoopsTook(c, s, now, q, ps, i, s')
  {
  }

  lemma {:induction false} EndingTakes(c: Config, s: State, now: State, q: Request, ps: seq<Provider>, i: nat)
    requires i < |ps| && AllKnown(s, ps) && Untouched(s, now, q, ps, i) && Ends(c, s, q, ps, i)
    requires ValidConfig(c) && BreakerInv(c, now) && Lined(now, ps, i) && Timely(q)
    ensures LoopsTook(c, s, now, q, ps, i, TryAll(c, now, q, ps, i, Calls(c, s, q, ps, i)).0)
  {
    var errors := Calls(c, s, q, ps, i);
    var s' := TryProvider(c, now, q, ps[i], i, 0, errors).0;
    CandidateTakes(c, s, now, q, ps, i, errors);
    TryProviderKeepsBreaker(c, now, q, ps[i], i, 0, errors);
    RestUntouched(s, now, s', q, ps, i);
    LastToll(c, s, now, q, ps, i, s');
    EndingIsLast(c, s, now, q, ps, i);
  }

  lemma {:induction false} RestUntouched(s: State, now: State, s': State, q: Request, ps: seq<Provider>, i: nat)
    requires i < |ps| && Untouched(s, now, q, ps, i) && Distinct((p: Provider) => p.name, ps)
    requires OnlyTouches(now, s', ps[i].name)
    ensures forall j :: i < j < |ps| ==>
              ps[j].name != ps[i].name && ps[j].name in s'.health && s'.health[ps[j].name] == s.health[ps[j].name]
  {
    var name := (p: Provider) => p.name;
    forall j | i < j < |ps|
      ensures ps[j].name != ps[i].name
    {
      assert name(ps[i]) != name(ps[j]);
    }
  }

  lemma {:induction false} PassedTakes(c: Config, s: State, now: State, q: Request, ps: seq<Provider>, i: nat,
        mid: State)
    requires i < |ps| && AllKnown(s, ps) && Untouched(s, now, q, ps, i) && !Ends(c, s, q, ps, i)
    requires ValidConfig(c) && BreakerInv(c, mid) && Lined(now, ps, i) && Lined(mid, ps, i + 1) && Timely(q)
    requires (mid, Next(Calls(c, s, q, ps, i + 1))) == TryProvider(c, now, q, ps[i], i, 0, Calls(c, s, q, ps, i))
    requires LoopsTook(c, s, mid, q, ps, i + 1, TryAll(c, mid, q, ps, i + 1, Calls(c, s, q, ps, i + 1)).0)
    ensures LoopsTook(c, s, now, q, ps, i, TryAll(c, now, q, ps, i, Calls(c, s, q, ps, i)).0)
  {
    var s' := TryAll(c, mid, q, ps, i + 1, Calls(c, s, q, ps, i + 1)).0;
    CandidateTakes(c, s, now, q, ps, i, Calls(c, s, q, ps, i));
    assert TryAll(c, now, q, ps, i, Calls(c, s, q, ps, i)).0 == s';
    var name := (p: Provider) => p.name;
    forall j | i < j < |ps|
      ensures ps[j].name != ps[i].name
    {
      assert name(ps[i]) != name(ps[j]);
    }
    OthersKeepHealth(c, mid, q, ps, i + 1, Calls(c, s, q, ps, i + 1), ps[i].name);
  }

  lemma {:induction false} LoopsTake(c: Config, s: State, now: State, q: Request, ps: seq<Provider>, i: nat)
    requires i <= |ps| && AllKnown(s, ps) && Untouched(s, now, q, ps, i)
    requires ValidConfig(c) && BreakerInv(c, now) && Lined(now, ps, i) && Timely(q)
    ensures LoopsTook(c, s, now, q, ps, i, TryAll(c, now, q, ps, i, Calls(c, s, q, ps, i)).0)
    decreases |ps| - i
  {
    if i == |ps| {
    } else if Ends(c, s, q, ps, i) {
      EndingTakes(c, s, now, q, ps, i);
    } else {
      var mid := TryProvider(c, now, q, ps[i], i, 0, Calls(c, s, q, ps, i)).0;
      PassedCandidate(c, s, now, q, ps, i);
      NextCandidateUntouched(c, s, now, q, ps, i, Calls(c, s, q, ps, i));
      LoopsTake(c, s, mid, q, ps, i + 1);
      PassedTakes(c, s, now, q, ps, i, mid);
    }
  }

  lemma {:induction false} AdmittedIsDispatched(c: Config, s: State, q: Request)
    requires Known(c, s) && Admitted(c, s, q)
    ensures Callable(Arrived(s, q), Route(c, Arrived(s, q), q))
    ensures Complete(c, s, q) == Dispatch(c, Arrived(s, q), q, Route(c, Arrived(s, q), q))
  {
    AdmittedIsReservable(c, s, q);
    RouteCallable(c, Arrived(s, q), q);
  }

  lemma {:induction false} AdmittedTakes(c: Config, s: State, q: Request)
    requires ValidConfig(c) && Timely(q) && Known(c, s) && BreakerInv(c, s) && Admitted(c, s, q)
    requires Route(c, Arrived(s, q), q).Candidates?
    ensures var arrived := Arrived(s, q);
            var ps := Route(c, arrived, q).providers;
            AllKnown(arrived, ps) && LoopsTook(c, arrived, arrived, q, ps, 0, Complete(c, s, q).0)
  {
    var arrived := Arrived(s, q);
    AdmittedIsDispatched(c, s, q);
    RouteLined(c, arrived, q);
    LoopsTake(c, arrived, arrived, q, Route(c, arrived, q).providers, 0);
  }

  /** What a completion takes, in any state that a run can reach: how long it sleeps, how much time
      passes, and how many failures each candidate then has on record are what its replies say,
      candidate by candidate, up to the one that ends it. */
  lemma {:induction false} CompletionTakes(c: Config, qs: seq<Request>, q: Request)
    requires ValidConfig(c) && Timely(q) && forall i :: 0 <= i < |qs| ==> Timely(qs[i])
    requires Admitted(c, Run(c, qs), q) && Route(c, Arrived(Run(c, qs), q), q).Candidates?
    ensures var s := Arrived(Run(c, qs), q);
            var ps := Route(c, s, q).providers;
            AllKnown(s, ps) && LoopsTook(c, s, s, q, ps, 0, Complete(c, Run(c, qs), q).0)
  {
    NoCallThroughAnOpenCircuit(c, qs);
    AdmittedTakes(c, Run(c, qs), q);
  }
}
