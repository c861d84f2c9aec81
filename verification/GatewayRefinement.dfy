/** The nested retry and fallback loops refine a simple rule: each candidate is tried until its
    first stopping reply, and the first candidate whose stopping reply is accepted serves. */
module GatewayRefinement {
  import opened Ordering
  import opened Gateway
  import opened GatewayTheorems

  // ---- the rule, stated on the replies alone ----

  predicate Accepted(c: Config, spent: real, r: Reply) {
    r.outcome.Answer? && spent + Estimate(c, r.outcome.inputTokens, r.outcome.outputTokens) <= c.costs.budget
  }

  /** A recorded failure that may be retried: a fault, or an answer the budget does not cover. */
  predicate Faulty(c: Config, spent: real, r: Reply) {
    r.outcome.Fault? || (r.outcome.Answer? && !Accepted(c, spent, r))
  }

  predicate Fatal(r: Reply) {
    r.outcome.HttpStatus? && r.outcome.code < 500 && r.outcome.code != 429
  }

  function Faults(c: Config, spent: real, q: Request, i: nat, k: nat): nat {
    if k == 0 then 0 else Faults(c, spent, q, i, k - 1) + if Faulty(c, spent, q.replies(i, k - 1)) then 1 else 0
  }

  /** The k-th fault opens the circuit for longer than the sleep that follows it. */
  predicate Trips(c: Config, spent: real, q: Request, i: nat, failures: int, k: nat) {
    && Faulty(c, spent, q.replies(i, k))
    && failures + Faults(c, spent, q, i, k + 1) >= c.routing.threshold
    && Backoff(c, k) + q.replies(i, k).lag < c.routing.cooldown
  }

  predicate Stops(c: Config, spent: real, q: Request, i: nat, failures: int, k: nat) {
    var r := q.replies(i, k);
    Accepted(c, spent, r) || r.outcome.Uncaught? || Fatal(r) || Trips(c, spent, q, i, failures, k)
  }

  /** The first stopping attempt from k on; past the last attempt if there is none. */
  function StopAt(c: Config, spent: real, q: Request, i: nat, failures: int, k: nat): nat
    decreases c.routing.maxRetries + 1 - k
  {
    if k > c.routing.maxRetries || Stops(c, spent, q, i, failures, k) then k
    else StopAt(c, spent, q, i, failures, k + 1)
  }

  lemma {:induction false} StopAtIsFirst(c: Config, spent: real, q: Request, i: nat, failures: int, k: nat)
    ensures var n := StopAt(c, spent, q, i, failures, k);
            && k <= n
            && (n <= c.routing.maxRetries ==> Stops(c, spent, q, i, failures, n))
            && (n > k ==> n <= c.routing.maxRetries + 1)
            && forall j :: k <= j < n ==> !Stops(c, spent, q, i, failures, j)
    decreases c.routing.maxRetries + 1 - k
  {
    if k <= c.routing.maxRetries && !Stops(c, spent, q, i, failures, k) {
      StopAtIsFirst(c, spent, q, i, failures, k + 1);
    }
  }

  // ---- one provider ----

  /** The retry loop is about to make attempt k on provider p, which had `failures` at the start. */
  ghost predicate Trying(c: Config, s: State, q: Request, p: Provider, i: nat, failures: int, spent: real, k: nat) {
    && p.models != [] && Available(s, p.name)
    && s.health[p.name].failures == failures + Faults(c, spent, q, i, k)
    && SpentBy(s, q.tenant) == spent
  }

  lemma {:induction false} FaultVerdict(c: Config, s: State, p: Provider, k: nat, lag: real, errors: nat)
    requires Available(s, p.name) && Backoff(c, k) >= 0.0 && lag >= 0.0
    ensures var (s', v) := AfterFault(c, s, p, k, lag, errors);
            && s'.health[p.name].failures == s.health[p.name].failures + 1
            && s'.spent == s.spent
            && (v == if s.health[p.name].failures + 1 >= c.routing.threshold && Backoff(c, k) + lag < c.routing.cooldown
                     then Next(errors + 1) else Again(errors + 1))
            && (v.Again? ==> Available(s', p.name))
  {
  }

  lemma {:induction false} ReplyVerdict(c: Config, s: State, q: Request, p: Provider, i: nat, failures: int,
        spent: real, k: nat, errors: nat)
    requires Trying(c, s, q, p, i, failures, spent, k)
    requires q.replies(i, k).lag >= 0.0 && Backoff(c, k) >= 0.0
    ensures var r := q.replies(i, k);
            var (s', v) := HandleReply(c, s, q, p, r, k, errors);
            if !Stops(c, spent, q, i, failures, k) then v == Again(errors + 1)
                && Trying(c, s', q, p, i, failures, spent, k + 1)
            else if Accepted(c, spent, r) then v == Done(RecordFor(c, q, p, r.outcome.inputTokens,
                r.outcome.outputTokens, errors))
            else if r.outcome.Uncaught? then v == Propagate
            else v == Next(errors + 1)
  {
    FaultVerdict(c, s, p, k, q.replies(i, k).lag, errors);
  }

  lemma {:induction false} TryingAfterCall(c: Config, s: State, q: Request, p: Provider, i: nat, failures: int,
        spent: real, k: nat, elapsed: real)
    requires Trying(c, s, q, p, i, failures, spent, k) && elapsed >= 0.0
    ensures Trying(c, AfterCall(s, p.name, elapsed), q, p, i, failures, spent, k)
  {
  }

  /** How trying candidate i ends: at its first stopping reply, with one error per earlier one. */
  ghost predicate EndsAs(c: Config, q: Request, p: Provider, i: nat, spent: real, n: nat, errors: nat, v: Verdict)
    requires p.models != []
  {
    var r := q.replies(i, n);
    if n > c.routing.maxRetries then v == Next(errors)
    else if Accepted(c, spent, r) then v == Done(RecordFor(c, q, p, r.outcome.inputTokens, r.outcome.outputTokens,
        errors))
    else if r.outcome.Uncaught? then v == Propagate
    else v == Next(errors + 1)
  }

  lemma {:induction false} ProviderIsTriedUntilItStops(c: Config, s: State, q: Request, p: Provider, i: nat,
        failures: int, spent: real, k: nat, errors: nat)
    requires Trying(c, s, q, p, i, failures, spent, k) && Timely(q) && c.routing.backoff >= 0.0
    ensures var n := StopAt(c, spent, q, i, failures, k);
            n >= k && EndsAs(c, q, p, i, spent, n, errors + n - k, TryProvider(c, s, q, p, i, k, errors).1)
    decreases c.routing.maxRetries + 1 - k
  {
    StopAtIsFirst(c, spent, q, i, failures, k);
    if k > c.routing.maxRetries {
    } else {
      var r := q.replies(i, k);
      BackoffNonNegative(c, k);
      TryingAfterCall(c, s, q, p, i, failures, spent, k, r.elapsed);
      ReplyVerdict(c, AfterCall(s, p.name, r.elapsed), q, p, i, failures, spent, k, errors);
      var (s', v) := TryOnce(c, s, q, p, r, k, errors);
      if !Stops(c, spent, q, i, failures, k) {
        ProviderIsTriedUntilItStops(c, s', q, p, i, failures, spent, k + 1, errors + 1);
      }
    }
  }

  // ---- all candidates ----

  /** Where candidate i stops, given the health and spend that the completion starts with. */
  function Stop(c: Config, s: State, q: Request, ps: seq<Provider>, i: nat): nat
    requires i < |ps| && ps[i].name in s.health
  {
    StopAt(c, SpentBy(s, q.tenant), q, i, s.health[ps[i].name].failures, 0)
  }

  predicate Ends(c: Config, s: State, q: Request, ps: seq<Provider>, i: nat)
    requires i < |ps| && ps[i].name in s.health
  {
    var n := Stop(c, s, q, ps, i);
    n <= c.routing.maxRetries && (Accepted(c, SpentBy(s, q.tenant), q.replies(i, n))
        || q.replies(i, n).outcome.Uncaught?)
  }

  predicate AllKnown(s: State, ps: seq<Provider>) {
    forall j :: 0 <= j < |ps| ==> ps[j].name in s.health && ps[j].models != []
  }

  /** Calls made to the first i candidates when none of them ends the completion. */
  function Calls(c: Config, s: State, q: Request, ps: seq<Provider>, i: nat): nat
    requires i <= |ps| && AllKnown(s, ps)
  {
    if i == 0 then 0
    else
      var n := Stop(c, s, q, ps, i - 1);
      Calls(c, s, q, ps, i - 1) + n + if n <= c.routing.maxRetries then 1 else 0
  }

  /** The first candidate that ends the completion, from i on; |ps| if none does. */
  function FirstEnding(c: Config, s: State, q: Request, ps: seq<Provider>, i: nat): (e: nat)
    requires i <= |ps| && AllKnown(s, ps)
    ensures i <= e <= |ps|
    decreases |ps| - i
  {
    if i == |ps| || Ends(c, s, q, ps, i) then i else FirstEnding(c, s, q, ps, i + 1)
  }

  lemma {:induction false} FirstEndingIsFirst(c: Config, s: State, q: Request, ps: seq<Provider>, i: nat)
    requires i <= |ps| && AllKnown(s, ps)
    ensures var e := FirstEnding(c, s, q, ps, i);
            (e < |ps| ==> Ends(c, s, q, ps, e)) && forall j :: i <= j < e ==> !Ends(c, s, q, ps, j)
    decreases |ps| - i
  {
    if i < |ps| && !Ends(c, s, q, ps, i) {
      FirstEndingIsFirst(c, s, q, ps, i + 1);
    }
  }

  /** What the rule says the completion returns. */
  ghost predicate Returns(c: Config, s: State, q: Request, ps: seq<Provider>, e: nat, r: Result)
    requires e <= |ps| && AllKnown(s, ps)
  {
    if e == |ps| then r == Unavailable
    else
      var n := Stop(c, s, q, ps, e);
      var reply := q.replies(e, n);
      if Accepted(c, SpentBy(s, q.tenant), reply)
      then r == Served(RecordFor(c, q, ps[e], reply.outcome.inputTokens, reply.outcome.outputTokens,
          Calls(c, s, q, ps, e) + n))
      else r == Raised
  }

  /** Candidates from i on still have the health, and the tenant the spend, of the start s. */
  ghost predicate Untouched(s: State, now: State, q: Request, ps: seq<Provider>, i: nat) {
    && SpentBy(now, q.tenant) == SpentBy(s, q.tenant)
    && forall j :: i <= j < |ps| ==>
         && ps[j].name in now.health && ps[j].name in s.health
         && now.health[ps[j].name] == s.health[ps[j].name]
  }

  lemma {:induction false} UntouchedKept(s: State, now: State, now': State, q: Request, ps: seq<Provider>, i: nat)
    requires i < |ps| && Untouched(s, now, q, ps, i) && Distinct((p: Provider) => p.name, ps)
    requires OnlyTouches(now, now', ps[i].name) && NotCharged(now, now')
    ensures Untouched(s, now', q, ps, i + 1)
  {
    var name := (p: Provider) => p.name;
    forall j | i + 1 <= j < |ps|
      ensures ps[j].name in now'.health && now'.health[ps[j].name] == s.health[ps[j].name]
    {
      assert name(ps[i]) != name(ps[j]);
    }
  }

  lemma {:induction false} NextCandidateUntouched(c: Config, s: State, now: State, q: Request, ps: seq<Provider>,
        i: nat, errors: nat)
    requires i < |ps| && Untouched(s, now, q, ps, i)
    requires ValidConfig(c) && BreakerInv(c, now) && Lined(now, ps, i) && Timely(q)
    requires TryProvider(c, now, q, ps[i], i, 0, errors).1.Next?
    ensures var now' := TryProvider(c, now, q, ps[i], i, 0, errors).0;
            Untouched(s, now', q, ps, i + 1) && BreakerInv(c, now') && Lined(now', ps, i + 1)
  {
    TryProviderKeepsBreaker(c, now, q, ps[i], i, 0, errors);
    TryProviderCharges(c, now, q, ps[i], i, 0, errors);
    var now' := TryProvider(c, now, q, ps[i], i, 0, errors).0;
    LinedKept(now, now', ps, i);
    UntouchedKept(s, now, now', q, ps, i);
  }

  lemma {:induction false} CandidateVerdict(c: Config, s: State, now: State, q: Request, ps: seq<Provider>, i: nat)
    requires i < |ps| && AllKnown(s, ps) && Untouched(s, now, q, ps, i)
    requires ValidConfig(c) && Lined(now, ps, i) && Timely(q)
    ensures EndsAs(c, q, ps[i], i, SpentBy(s, q.tenant), Stop(c, s, q, ps, i),
        Calls(c, s, q, ps, i) + Stop(c, s, q, ps, i),
                   TryProvider(c, now, q, ps[i], i, 0, Calls(c, s, q, ps, i)).1)
  {
    var failures, spent := s.health[ps[i].name].failures, SpentBy(s, q.tenant);
    assert Trying(c, now, q, ps[i], i, failures, spent, 0);
    ProviderIsTriedUntilItStops(c, now, q, ps[i], i, failures, spent, 0, Calls(c, s, q, ps, i));
  }

  lemma {:induction false} EndingCandidate(c: Config, s: State, now: State, q: Request, ps: seq<Provider>, i: nat)
    requires i < |ps| && AllKnown(s, ps) && Untouched(s, now, q, ps, i)
    requires ValidConfig(c) && Lined(now, ps, i) && Timely(q)
    requires Ends(c, s, q, ps, i)
    ensures Returns(c, s, q, ps, i, TryAll(c, now, q, ps, i, Calls(c, s, q, ps, i)).1)
  {
    CandidateVerdict(c, s, now, q, ps, i);
  }

  lemma {:induction false} PassedCandidate(c: Config, s: State, now: State, q: Request, ps: seq<Provider>, i: nat)
    requires i < |ps| && AllKnown(s, ps) && Untouched(s, now, q, ps, i)
    requires ValidConfig(c) && Lined(now, ps, i) && Timely(q)
    requires !Ends(c, s, q, ps, i)
    ensures TryProvider(c, now, q, ps[i], i, 0, Calls(c, s, q, ps, i)).1 == Next(Calls(c, s, q, ps, i + 1))
  {
    CandidateVerdict(c, s, now, q, ps, i);
  }

  lemma {:induction false} FallbackFollowsTheRule(c: Config, s: State, now: State, q: Request, ps: seq<Provider>,
        i: nat)
    requires i <= |ps| && AllKnown(s, ps) && Untouched(s, now, q, ps, i)
    requires ValidConfig(c) && BreakerInv(c, now) && Lined(now, ps, i) && Timely(q)
    ensures Returns(c, s, q, ps, FirstEnding(c, s, q, ps, i), TryAll(c, now, q, ps, i, Calls(c, s, q, ps, i)).1)
    decreases |ps| - i
  {
    if i == |ps| {
    } else {
      if Ends(c, s, q, ps, i) {
        EndingCandidate(c, s, now, q, ps, i);
      } else {
        var errors := Calls(c, s, q, ps, i);
        PassedCandidate(c, s, now, q, ps, i);
        NextCandidateUntouched(c, s, now, q, ps, i, errors);
        FallbackFollowsTheRule(c, s, TryProvider(c, now, q, ps[i], i, 0, errors).0, q, ps, i + 1);
      }
    }
  }

  /** The loops return what the rule says: the first candidate, in stable priority order, whose
      first stopping reply is accepted serves, and its record counts every earlier call. */
  lemma {:induction false} FirstAcceptedServes(c: Config, s: State, q: Request, ps: seq<Provider>)
    requires ValidConfig(c) && BreakerInv(c, s) && Lined(s, ps, 0) && Timely(q)
    ensures AllKnown(s, ps)
    ensures Returns(c, s, q, ps, FirstEnding(c, s, q, ps, 0), TryAll(c, s, q, ps, 0, 0).1)
  {
    FallbackFollowsTheRule(c, s, s, q, ps, 0);
  }

  /** The same for whole completions, in any state a run can reach. */
  lemma {:induction false} CompletionFollowsTheRule(c: Config, qs: seq<Request>, q: Request)
    requires ValidConfig(c) && Timely(q) && forall i :: 0 <= i < |qs| ==> Timely(qs[i])
    requires q.tokens <= c.costs.maxTokens
    requires Reservable(c, Run(c, qs), q.tenant, Estimate(c, q.tokens, c.costs.maxTokens))
    requires Route(c, Arrived(Run(c, qs), q), q).Candidates?
    ensures var s := Arrived(Run(c, qs), q);
            var ps := Route(c, s, q).providers;
            && AllKnown(s, ps)
            && Returns(c, s, q, ps, FirstEnding(c, s, q, ps, 0), Complete(c, Run(c, qs), q).1)
  {
    var s := Arrived(Run(c, qs), q);
    NoCallThroughAnOpenCircuit(c, qs);
    assert BreakerInv(c, s);
    RouteLined(c, s, q);
    RouteCallable(c, s, q);
    FirstAcceptedServes(c, s, q, Route(c, s, q).providers);
  }

  /** Within a completion that passed the up-front reservation, an answer whose reported usage
      is within the request's tokens plus the token limit is never turned into a failure: it
      ends its candidate's attempts, at the latest. */
  lemma {:induction false} AnswersWithinEstimateServe(c: Config, s: State, q: Request, ps: seq<Provider>, i: nat,
        k: nat)
    requires i < |ps| && ps[i].name in s.health && c.costs.price >= 0.0
    requires Reservable(c, s, q.tenant, Estimate(c, q.tokens, c.costs.maxTokens))
    requires var o := q.replies(i, k).outcome;
             o.Answer? && o.inputTokens + o.outputTokens <= q.tokens + c.costs.maxTokens
    ensures Accepted(c, SpentBy(s, q.tenant), q.replies(i, k))
    ensures k <= c.routing.maxRetries ==> Stop(c, s, q, ps, i) <= k
    ensures k <= c.routing.maxRetries && Stop(c, s, q, ps, i) == k ==> Ends(c, s, q, ps, i)
  {
    var o := q.replies(i, k).outcome;
    ActualCostFitsReservation(c, s, q, o.inputTokens, o.outputTokens);
    StopAtIsFirst(c, SpentBy(s, q.tenant), q, i, s.health[ps[i].name].failures, 0);
    assert Stops(c, SpentBy(s, q.tenant), q, i, s.health[ps[i].name].failures, k);
  }

  // ---- bounds ----

  /** One attempt makes one call and adds one error unless it ends the completion. */
  ghost predicate OneCall(before: State, after: State, errors: nat, v: Verdict) {
    && after.calls == before.calls + 1
    && (v.Done? ==> v.record.errors == errors)
    && (v.Again? || v.Next? ==> v.errors == errors + 1)
  }

  lemma {:induction false} TryOnceCounts(c: Config, s: State, q: Request, p: Provider, reply: Reply, k: nat,
        errors: nat)
    requires p.name in s.health && p.models != []
    ensures OneCall(s, TryOnce(c, s, q, p, reply, k, errors).0, errors, TryOnce(c, s, q, p, reply, k, errors).1)
  {
  }

  function Attempts(c: Config): nat {
    if c.routing.maxRetries < 0 then 0 else c.routing.maxRetries + 1
  }

  /** At most `room` calls were made while the error count went from `errors` to what the final
      verdict says, one call per error and one more for an answer. */
  ghost predicate Counted(before: State, after: State, errors: nat, v: Verdict, room: int) {
    && after.calls <= before.calls + room
    && (v.Done? ==> after.calls == before.calls + v.record.errors + 1 - errors)
    && (v.Next? ==> after.calls == before.calls + v.errors - errors)
    && !v.Again?
  }

  lemma {:induction false} TryProviderCounts(c: Config, s: State, q: Request, p: Provider, i: nat, k: nat, errors: nat)
    requires p.name in s.health && p.models != [] && k <= Attempts(c)
    ensures Counted(s, TryProvider(c, s, q, p, i, k, errors).0, errors, TryProvider(c, s, q, p, i, k, errors).1,
        Attempts(c) - k)
    decreases c.routing.maxRetries + 1 - k
  {
    if k > c.routing.maxRetries {
    } else {
      TryOnceCounts(c, s, q, p, q.replies(i, k), k, errors);
      var (s', v) := TryOnce(c, s, q, p, q.replies(i, k), k, errors);
      if v.Again? {
        TryProviderCounts(c, s', q, p, i, k + 1, errors + 1);
      }
    }
  }

  function CallLimit(c: Config, candidates: nat): nat {
    if candidates == 0 then 0 else Attempts(c) + CallLimit(c, candidates - 1)
  }

  lemma {:induction false} CallLimitIsProduct(c: Config, n: nat)
    ensures CallLimit(c, n) == n * Attempts(c)
  {
    if n == 0 {
    } else {
      CallLimitIsProduct(c, n - 1);
      assert n * Attempts(c) == Attempts(c) + (n - 1) * Attempts(c);
    }
  }

  lemma {:induction false} TryAllCounts(c: Config, s: State, q: Request, ps: seq<Provider>, i: nat, errors: nat)
    requires i <= |ps| && forall j :: i <= j < |ps| ==> ps[j].name in s.health && ps[j].models != []
    ensures var (s', r) := TryAll(c, s, q, ps, i, errors);
            && s'.calls <= s.calls + CallLimit(c, |ps| - i)
            && (r.Served? ==> s'.calls == s.calls + r.record.errors + 1 - errors)
    decreases |ps| - i
  {
    if i == |ps| {
    } else {
      TryProviderCounts(c, s, q, ps[i], i, 0, errors);
      var (s', v) := TryProvider(c, s, q, ps[i], i, 0, errors);
      if v.Next? {
        TryAllCounts(c, s', q, ps, i + 1, v.errors);
      }
    }
  }

  /** The candidates of a completion; none if it is refused before the loops. */
  function CandidateCount(c: Config, s: State, q: Request): nat {
    var routed := Route(c, Arrived(s, q), q);
    if routed.Candidates? then |routed.providers| else 0
  }

  lemma {:induction false} DispatchCounts(c: Config, s: State, q: Request, routed: Routed)
    requires Callable(s, routed)
    ensures var (s', r) := Dispatch(c, s, q, routed);
            && s'.calls <= s.calls + CallLimit(c, if routed.Candidates? then |routed.providers| else 0)
            && (r.Served? ==> r.record.errors == s'.calls - s.calls - 1)
  {
    if routed.Candidates? {
      TryAllCounts(c, s, q, routed.providers, 0, 0);
    }
  }

  /** A completion makes at most one round of attempts per candidate, and a served record's
      errors are the calls made minus one. */
  lemma {:induction false} CallsAreBounded(c: Config, s: State, q: Request)
    requires Known(c, s)
    ensures var (s', r) := Complete(c, s, q);
            && s'.calls - s.calls <= CandidateCount(c, s, q) * Attempts(c)
            && (r.Served? ==> r.record.errors == s'.calls - s.calls - 1)
  {
    var s1 := Arrived(s, q);
    RouteCallable(c, s1, q);
    DispatchCounts(c, s1, q, Route(c, s1, q));
    CallLimitIsProduct(c, CandidateCount(c, s, q));
  }

  /** Backoff still to come from attempt k on. */
  function SleepLeft(c: Config, k: nat): real
    decreases c.routing.maxRetries - k
  {
    if k < c.routing.maxRetries then Backoff(c, k) + SleepLeft(c, k + 1) else 0.0
  }

  lemma {:induction false} SleepLeftNonNegative(c: Config, k: nat)
    requires c.routing.backoff >= 0.0
    ensures Backoff(c, k) >= 0.0 && SleepLeft(c, k) >= 0.0
    decreases c.routing.maxRetries - k
  {
    BackoffNonNegative(c, k);
    if k >= c.routing.maxRetries {
    } else {
      SleepLeftNonNegative(c, k + 1);
    }
  }

  /** A geometric sum. */
  lemma {:induction false} SleepLeftClosedForm(c: Config, k: nat)
    requires k <= c.routing.maxRetries
    ensures SleepLeft(c, k) == Doubled(c.routing.backoff, c.routing.maxRetries) - Doubled(c.routing.backoff, k)
    decreases c.routing.maxRetries - k
  {
    if k == c.routing.maxRetries {
    } else {
      SleepLeftClosedForm(c, k + 1);
    }
  }

  lemma {:induction false} TryOnceSleeps(c: Config, s: State, q: Request, p: Provider, reply: Reply, k: nat,
        errors: nat)
    requires p.name in s.health && p.models != []
    ensures var slept := TryOnce(c, s, q, p, reply, k, errors).0.slept;
            slept == s.slept || slept == s.slept + Backoff(c, k)
  {
  }

  lemma {:induction false} TryProviderSleeps(c: Config, s: State, q: Request, p: Provider, i: nat, k: nat, errors: nat)
    requires p.name in s.health && p.models != [] && c.routing.backoff >= 0.0
    ensures TryProvider(c, s, q, p, i, k, errors).0.slept <= s.slept + SleepLeft(c, k)
    decreases c.routing.maxRetries + 1 - k
  {
    SleepLeftNonNegative(c, k);
    SleepLeftNonNegative(c, k + 1);
    if k > c.routing.maxRetries {
    } else {
      TryOnceSleeps(c, s, q, p, q.replies(i, k), k, errors);
      var (s', v) := TryOnce(c, s, q, p, q.replies(i, k), k, errors);
      if v.Again? {
        TryProviderSleeps(c, s', q, p, i, k + 1, v.errors);
      }
    }
  }

  function SleepLimit(c: Config, candidates: nat): real {
    if candidates == 0 then 0.0 else SleepLeft(c, 0) + SleepLimit(c, candidates - 1)
  }

  lemma {:induction false} SleepLimitNonNegative(c: Config, n: nat)
    requires c.routing.backoff >= 0.0
    ensures SleepLimit(c, n) >= 0.0
  {
    SleepLeftNonNegative(c, 0);
    if n == 0 {
    } else {
      SleepLimitNonNegative(c, n - 1);
    }
  }

  lemma {:induction false} SleepLimitIsProduct(c: Config, n: nat)
    ensures SleepLimit(c, n) == n as real * SleepLeft(c, 0)
  {
    if n == 0 {
    } else {
      SleepLimitIsProduct(c, n - 1);
      var rest, limit := (n - 1) as real, SleepLeft(c, 0);
      assert (rest + 1.0) * limit == rest * limit + limit;
    }
  }

  /** The fallback loop from candidate i on sleeps at most one full backoff series each. */
  ghost predicate SleepsWithin(c: Config, s: State, q: Request, ps: seq<Provider>, i: nat, errors: nat)
    requires i <= |ps| && forall j :: i <= j < |ps| ==> ps[j].name in s.health && ps[j].models != []
  {
    TryAll(c, s, q, ps, i, errors).0.slept <= s.slept + SleepLimit(c, |ps| - i)
  }

  lemma {:induction false} NextCandidateSleeps(c: Config, s: State, q: Request, ps: seq<Provider>, i: nat, errors: nat,
        s': State, v: Verdict)
    requires i < |ps| && forall j :: i <= j < |ps| ==> ps[j].name in s.health && ps[j].models != []
    requires (s', v) == TryProvider(c, s, q, ps[i], i, 0, errors) && (v.Next? || v.Again?)
    requires s'.slept <= s.slept + SleepLeft(c, 0)
    requires SleepsWithin(c, s', q, ps, i + 1, v.errors)
    ensures SleepsWithin(c, s, q, ps, i, errors)
  {
    assert TryAll(c, s, q, ps, i, errors) == TryAll(c, s', q, ps, i + 1, v.errors);
    SleepsAdd(c, s, s', TryAll(c, s', q, ps, i + 1, v.errors).0, |ps| - i - 1);
  }

  lemma {:induction false} LastCandidateSleeps(c: Config, s: State, q: Request, ps: seq<Provider>, i: nat, errors: nat)
    requires i < |ps| && forall j :: i <= j < |ps| ==> ps[j].name in s.health && ps[j].models != []
    requires var v := TryProvider(c, s, q, ps[i], i, 0, errors).1;
             v.Done? || v.Propagate?
    requires TryProvider(c, s, q, ps[i], i, 0, errors).0.slept <= s.slept + SleepLeft(c, 0) && c.routing.backoff >= 0.0
    ensures SleepsWithin(c, s, q, ps, i, errors)
  {
    var s' := TryProvider(c, s, q, ps[i], i, 0, errors).0;
    assert TryAll(c, s, q, ps, i, errors).0 == s';
    SleepLimitNonNegative(c, |ps| - i - 1);
    SleepsAdd(c, s, s', s', |ps| - i - 1);
  }

  lemma {:induction false} NoCandidateSleeps(c: Config, s: State, q: Request, ps: seq<Provider>, errors: nat)
    ensures SleepsWithin(c, s, q, ps, |ps|, errors)
  {
  }

  lemma {:induction false} TryAllSleeps(c: Config, s: State, q: Request, ps: seq<Provider>, i: nat, errors: nat)
    requires i <= |ps| && (forall j :: i <= j < |ps| ==> ps[j].name in s.health && ps[j].models != [])
        && c.routing.backoff >= 0.0
    ensures SleepsWithin(c, s, q, ps, i, errors)
    decreases |ps| - i
  {
    if i == |ps| {
      NoCandidateSleeps(c, s, q, ps, errors);
    } else {
      TryProviderSleeps(c, s, q, ps[i], i, 0, errors);
      var (s', v) := TryProvider(c, s, q, ps[i], i, 0, errors);
      if v.Next? || v.Again? {
        TryAllSleeps(c, s', q, ps, i + 1, v.errors);
        NextCandidateSleeps(c, s, q, ps, i, errors, s', v);
      } else {
        LastCandidateSleeps(c, s, q, ps, i, errors);
      }
    }
  }

  lemma {:induction false} SleepsAdd(c: Config, a: State, b: State, z: State, n: nat)
    requires b.slept <= a.slept + SleepLeft(c, 0) && z.slept <= b.slept + SleepLimit(c, n)
    ensures z.slept <= a.slept + SleepLimit(c, n + 1)
  {
  }

  /** The limit in closed form: candidates times backoff times (2 to the max_retries, minus 1). */
  lemma {:induction false} SleepLimitClosedForm(c: Config, n: nat)
    ensures SleepLimit(c, n) ==
            if c.routing.maxRetries < 0 then 0.0
            else n as real * (c.routing.backoff * (Pow2(c.routing.maxRetries) as real - 1.0))
  {
    SleepLimitIsProduct(c, n);
    if c.routing.maxRetries >= 0 {
      var b, m := c.routing.backoff, Pow2(c.routing.maxRetries) as real;
      SleepLeftClosedForm(c, 0);
      DoubledIsProduct(b, c.routing.maxRetries);
      assert b * m - b == b * (m - 1.0);
    }
  }

  lemma {:induction false} DispatchSleeps(c: Config, s: State, q: Request, routed: Routed)
    requires Callable(s, routed) && c.routing.backoff >= 0.0
    ensures var n := if routed.Candidates? then |routed.providers| else 0;
            Dispatch(c, s, q, routed).0.slept <= s.slept + SleepLimit(c, n)
  {
    if routed.Candidates? {
      TryAllSleeps(c, s, q, routed.providers, 0, 0);
    }
  }

  /** A completion sleeps at most one full backoff series per candidate. */
  lemma {:induction false} BackoffIsBounded(c: Config, s: State, q: Request)
    requires Known(c, s) && c.routing.backoff >= 0.0
    ensures Complete(c, s, q).0.slept <= s.slept + SleepLimit(c, CandidateCount(c, s, q))
  {
    var s1 := Arrived(s, q);
    RouteCallable(c, s1, q);
    DispatchSleeps(c, s1, q, Route(c, s1, q));
    SleepLimitNonNegative(c, CandidateCount(c, s, q));
  }
}
