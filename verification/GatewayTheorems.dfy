/** What holds in every run of completions, whatever the providers reply and however long
    calls and sleeps take. */
module GatewayTheorems {
  import opened Ordering
  import opened Gateway

  // ---- the breaker, read off the notes ----

  /** Failures recorded since the provider was last restored, when the latest one was, and what
      its latest note says of its health. */
  datatype Breaker = Breaker(failures: nat, last: real, status: HealthStatus)

  function Noted(b: Breaker, e: Note, name: string): Breaker {
    match e
    case Failed(n, at) => if n == name then Breaker(b.failures + 1, at, Unhealthy) else b
    case Restored(n) => if n == name then Breaker(0, 0.0, Healthy) else b
    case Called(_, _) => b
  }

  function BreakerOf(notes: seq<Note>, name: string): Breaker {
    if notes == [] then Breaker(0, 0.0, Unknown)
    else Noted(BreakerOf(notes[..|notes| - 1], name), notes[|notes| - 1], name)
  }

  /** When the circuit closes again: at once below the threshold, else a cooldown after the
      latest recorded failure. */
  function ClosesAt(c: Config, b: Breaker): real {
    if b.failures < c.routing.threshold then 0.0 else b.last + c.routing.cooldown
  }

  function HealthFor(c: Config, b: Breaker): Health {
    Health(b.failures, ClosesAt(c, b), b.status)
  }

  ghost predicate Tracks(c: Config, s: State) {
    forall n :: n in s.health ==> s.health[n] == HealthFor(c, BreakerOf(s.notes, n))
  }

  /** No noted call went to a provider whose circuit was open at that moment. */
  ghost predicate Guarded(c: Config, notes: seq<Note>) {
    forall k :: 0 <= k < |notes| && notes[k].Called? ==>
      ClosesAt(c, BreakerOf(notes[..k], notes[k].name)) <= notes[k].at
  }

  ghost predicate BreakerInv(c: Config, s: State) {
    Tracks(c, s) && Guarded(c, s.notes) && s.clock >= 0.0 && s.calls == CallCount(s.notes)
  }

  function CallCount(notes: seq<Note>): nat {
    if notes == [] then 0 else CallCount(notes[..|notes| - 1]) + if notes[|notes| - 1].Called? then 1 else 0
  }

  lemma {:induction false} NoteAppended(notes: seq<Note>, e: Note, name: string)
    ensures BreakerOf(notes + [e], name) == Noted(BreakerOf(notes, name), e, name)
    ensures CallCount(notes + [e]) == CallCount(notes) + if e.Called? then 1 else 0
  {
    assert (notes + [e])[..|notes + [e]| - 1] == notes;
  }

  lemma {:induction false} GuardedAfter(c: Config, notes: seq<Note>, e: Note)
    requires Guarded(c, notes) && (e.Called? ==> ClosesAt(c, BreakerOf(notes, e.name)) <= e.at)
    ensures Guarded(c, notes + [e])
  {
    var longer := notes + [e];
    forall k | 0 <= k < |longer| && longer[k].Called?
      ensures ClosesAt(c, BreakerOf(longer[..k], longer[k].name)) <= longer[k].at
    {
      if k < |notes| {
        assert longer[..k] == notes[..k];
      } else {
        assert longer[..k] == notes;
      }
    }
  }

  lemma {:induction false} CallKeepsBreaker(c: Config, s: State, name: string, elapsed: real)
    requires BreakerInv(c, s) && Available(s, name) && elapsed >= 0.0
    ensures BreakerInv(c, AfterCall(s, name, elapsed))
  {
    GuardedAfter(c, s.notes, Called(name, s.clock));
    NoteAppended(s.notes, Called(name, s.clock), name);
    forall n | n in s.health
      ensures BreakerOf(s.notes + [Called(name, s.clock)], n) == BreakerOf(s.notes, n)
    {
      NoteAppended(s.notes, Called(name, s.clock), n);
    }
  }

  lemma {:induction false} FailureKeepsBreaker(c: Config, s: State, name: string)
    requires BreakerInv(c, s) && name in s.health
    ensures BreakerInv(c, RecordFailure(c, s, name))
  {
    var s' := RecordFailure(c, s, name);
    GuardedAfter(c, s.notes, Failed(name, s.clock));
    NoteAppended(s.notes, Failed(name, s.clock), name);
    forall n | n in s'.health
      ensures s'.health[n] == HealthFor(c, BreakerOf(s'.notes, n))
    {
      NoteAppended(s.notes, Failed(name, s.clock), n);
    }
  }

  lemma {:induction false} ServeKeepsBreaker(c: Config, s: State, r: Record)
    requires BreakerInv(c, s) && c.routing.threshold >= 1
    ensures BreakerInv(c, Serve(s, r))
  {
    var s' := Serve(s, r);
    GuardedAfter(c, s.notes, Restored(r.provider));
    NoteAppended(s.notes, Restored(r.provider), r.provider);
    forall n | n in s'.health
      ensures s'.health[n] == HealthFor(c, BreakerOf(s'.notes, n))
    {
      NoteAppended(s.notes, Restored(r.provider), n);
    }
  }

  lemma {:induction false} BackoffNonNegative(c: Config, attempt: nat)
    requires c.routing.backoff >= 0.0
    ensures Backoff(c, attempt) >= 0.0
  {
    DoubledNonNegative(c.routing.backoff, attempt);
  }

  lemma {:induction false} DoubledNonNegative(x: real, n: nat)
    requires x >= 0.0
    ensures Doubled(x, n) >= 0.0
  {
    if n == 0 {
    } else {
      DoubledNonNegative(x, n - 1);
    }
  }

  /** Only the provider being tried changes health, and time only moves forward. */
  ghost predicate OnlyTouches(s: State, s': State, name: string) {
    && s'.clock >= s.clock
    && s'.health.Keys == s.health.Keys
    && forall n :: n in s.health && n != name ==> s'.health[n] == s.health[n]
  }

  lemma {:induction false} SleepKeepsBreaker(c: Config, s: State, attempt: nat, lag: real)
    requires BreakerInv(c, s) && c.routing.backoff >= 0.0 && lag >= 0.0
    ensures BreakerInv(c, Sleep(c, s, attempt, lag)) && Sleep(c, s, attempt, lag).clock >= s.clock
  {
    BackoffNonNegative(c, attempt);
  }

  /** What one attempt on a provider, and trying it again, keeps. */
  ghost predicate Kept(c: Config, s: State, s': State, v: Verdict, name: string) {
    BreakerInv(c, s') && OnlyTouches(s, s', name) && (v.Again? ==> Available(s', name))
  }

  lemma {:induction false} FaultKeepsBreaker(c: Config, s: State, p: Provider, attempt: nat, lag: real, errors: nat)
    requires BreakerInv(c, s) && p.name in s.health && c.routing.backoff >= 0.0 && lag >= 0.0
    ensures Kept(c, s, AfterFault(c, s, p, attempt, lag, errors).0, AfterFault(c, s, p, attempt, lag, errors).1, p.name)
  {
    FailureKeepsBreaker(c, s, p.name);
    SleepKeepsBreaker(c, RecordFailure(c, s, p.name), attempt, lag);
  }

  lemma {:induction false} StatusKeepsBreaker(c: Config, s: State, q: Request, p: Provider, reply: Reply, attempt: nat,
        errors: nat)
    requires BreakerInv(c, s) && Available(s, p.name) && p.models != [] && reply.outcome.HttpStatus?
    requires c.routing.backoff >= 0.0 && reply.lag >= 0.0
    ensures Kept(c, s, HandleReply(c, s, q, p, reply, attempt, errors).0,
        HandleReply(c, s, q, p, reply, attempt, errors).1, p.name)
  {
    FailureKeepsBreaker(c, s, p.name);
    SleepKeepsBreaker(c, s, attempt, reply.lag);
  }

  lemma {:induction false} ServedKeepsBreaker(c: Config, s: State, r: Record)
    requires BreakerInv(c, s) && c.routing.threshold >= 1 && r.provider in s.health
    ensures Kept(c, s, Serve(s, r), Done(r), r.provider)
  {
    ServeKeepsBreaker(c, s, r);
  }

  lemma {:induction false} ReplyKeepsBreaker(c: Config, s: State, q: Request, p: Provider, reply: Reply, attempt: nat,
        errors: nat)
    requires BreakerInv(c, s) && Available(s, p.name) && p.models != []
    requires c.routing.threshold >= 1 && c.routing.backoff >= 0.0 && reply.lag >= 0.0
    ensures Kept(c, s, HandleReply(c, s, q, p, reply, attempt, errors).0,
        HandleReply(c, s, q, p, reply, attempt, errors).1, p.name)
  {
    match reply.outcome {
      case Answer(tokensIn, tokensOut) =>
        ServedKeepsBreaker(c, s, RecordFor(c, q, p, tokensIn, tokensOut, errors));
        FaultKeepsBreaker(c, s, p, attempt, reply.lag, errors);
      case HttpStatus(_) => StatusKeepsBreaker(c, s, q, p, reply, attempt, errors);
      case Fault => FaultKeepsBreaker(c, s, p, attempt, reply.lag, errors);
      case Uncaught =>
    }
  }

  lemma {:induction false} TouchesThrough(s: State, s1: State, s2: State, name: string)
    requires OnlyTouches(s, s1, name) && OnlyTouches(s1, s2, name)
    ensures OnlyTouches(s, s2, name)
  {
  }

  lemma {:induction false} TryOnceKeepsBreaker(c: Config, s: State, q: Request, p: Provider, reply: Reply,
        attempt: nat, errors: nat)
    requires BreakerInv(c, s) && Available(s, p.name) && p.models != []
    requires c.routing.threshold >= 1 && c.routing.backoff >= 0.0
    requires reply.elapsed >= 0.0 && reply.lag >= 0.0
    ensures Kept(c, s, TryOnce(c, s, q, p, reply, attempt, errors).0, TryOnce(c, s, q, p, reply, attempt, errors).1,
        p.name)
  {
    var called := AfterCall(s, p.name, reply.elapsed);
    CallKeepsBreaker(c, s, p.name, reply.elapsed);
    ReplyKeepsBreaker(c, called, q, p, reply, attempt, errors);
    TouchesThrough(s, called, TryOnce(c, s, q, p, reply, attempt, errors).0, p.name);
  }

  lemma {:induction false} RetryKeepsBreaker(c: Config, s: State, q: Request, p: Provider, i: nat, attempt: nat,
        errors: nat, s': State, v: Verdict)
    requires p.name in s.health && p.models != [] && attempt <= c.routing.maxRetries
    requires (s', v) == TryOnce(c, s, q, p, q.replies(i, attempt), attempt, errors) && Kept(c, s, s', v, p.name)
    requires v.Again? ==> BreakerInv(c, TryProvider(c, s', q, p, i, attempt + 1, v.errors).0)
    requires v.Again? ==> OnlyTouches(s', TryProvider(c, s', q, p, i, attempt + 1, v.errors).0, p.name)
    ensures BreakerInv(c, TryProvider(c, s, q, p, i, attempt, errors).0)
    ensures OnlyTouches(s, TryProvider(c, s, q, p, i, attempt, errors).0, p.name)
  {
    if v.Again? {
      assert TryProvider(c, s, q, p, i, attempt, errors) == TryProvider(c, s', q, p, i, attempt + 1, v.errors);
      TouchesThrough(s, s', TryProvider(c, s', q, p, i, attempt + 1, v.errors).0, p.name);
    } else {
      assert TryProvider(c, s, q, p, i, attempt, errors) == (s', v);
    }
  }

  lemma {:induction false} TryProviderKeepsBreaker(c: Config, s: State, q: Request, p: Provider, i: nat, attempt: nat,
        errors: nat)
    requires BreakerInv(c, s) && Available(s, p.name) && p.models != []
    requires c.routing.threshold >= 1 && c.routing.backoff >= 0.0 && Timely(q)
    ensures BreakerInv(c, TryProvider(c, s, q, p, i, attempt, errors).0)
    ensures OnlyTouches(s, TryProvider(c, s, q, p, i, attempt, errors).0, p.name)
    decreases c.routing.maxRetries + 1 - attempt
  {
    if attempt > c.routing.maxRetries {
    } else {
      TryOnceKeepsBreaker(c, s, q, p, q.replies(i, attempt), attempt, errors);
      var (s', v) := TryOnce(c, s, q, p, q.replies(i, attempt), attempt, errors);
      if v.Again? {
        TryProviderKeepsBreaker(c, s', q, p, i, attempt + 1, v.errors);
      }
      RetryKeepsBreaker(c, s, q, p, i, attempt, errors, s', v);
    }
  }

  ghost predicate Lined(s: State, ps: seq<Provider>, i: nat) {
    && Distinct((p: Provider) => p.name, ps)
    && forall j :: i <= j < |ps| ==> Available(s, ps[j].name) && ps[j].models != []
  }

  lemma {:induction false} LinedKept(s: State, s': State, ps: seq<Provider>, i: nat)
    requires i < |ps| && Lined(s, ps, i) && OnlyTouches(s, s', ps[i].name)
    ensures Lined(s', ps, i + 1)
  {
    var name := (p: Provider) => p.name;
    forall j | i + 1 <= j < |ps|
      ensures Available(s', ps[j].name)
    {
      assert name(ps[i]) != name(ps[j]);
    }
  }

  lemma {:induction false} TryAllKeepsBreaker(c: Config, s: State, q: Request, ps: seq<Provider>, i: nat, errors: nat)
    requires i <= |ps| && BreakerInv(c, s) && Lined(s, ps, i)
    requires c.routing.threshold >= 1 && c.routing.backoff >= 0.0 && Timely(q)
    ensures var s' := TryAll(c, s, q, ps, i, errors).0;
            BreakerInv(c, s') && s'.health.Keys == s.health.Keys && s'.clock >= s.clock
    decreases |ps| - i
  {
    if i == |ps| {
    } else {
      TryProviderKeepsBreaker(c, s, q, ps[i], i, 0, errors);
      var (s', v) := TryProvider(c, s, q, ps[i], i, 0, errors);
      LinedKept(s, s', ps, i);
      if v.Next? || v.Again? {
        TryAllKeepsBreaker(c, s', q, ps, i + 1, v.errors);
      }
    }
  }

  lemma {:induction false} RouteLined(c: Config, s: State, q: Request)
    requires ValidConfig(c) && Route(c, s, q).Candidates?
    ensures Lined(s, Route(c, s, q).providers, 0)
  {
    RoutedAreKnown(c, s, q);
    var name := (p: Provider) => p.name;
    var usable := Filter((p: Provider) => Usable(s, q, p), c.providers);
    FilterDistinct(name, (p: Provider) => Usable(s, q, p), c.providers);
    SortDistinct(Priority, name, usable);
    FilterDistinct(name, (p: Provider) => Offers(q, p), Sort(Priority, usable));
  }

  lemma {:induction false} DispatchKeepsBreaker(c: Config, s: State, q: Request, routed: Routed)
    requires ValidConfig(c) && BreakerInv(c, s) && Timely(q)
    requires Callable(s, routed) && (routed.Candidates? ==> Lined(s, routed.providers, 0))
    ensures BreakerInv(c, Dispatch(c, s, q, routed).0)
  {
    if routed.Candidates? {
      TryAllKeepsBreaker(c, s, q, routed.providers, 0, 0);
    }
  }

  lemma {:induction false} CompleteKeepsBreaker(c: Config, s: State, q: Request)
    requires ValidConfig(c) && Known(c, s) && BreakerInv(c, s) && Timely(q)
    ensures BreakerInv(c, Complete(c, s, q).0)
  {
    var s1 := Arrived(s, q);
    RouteCallable(c, s1, q);
    if Route(c, s1, q).Candidates? {
      RouteLined(c, s1, q);
    }
    DispatchKeepsBreaker(c, s1, q, Route(c, s1, q));
  }

  // ---- runs ----

  ghost function Run(c: Config, qs: seq<Request>): (s: State)
    requires ValidConfig(c)
    ensures Known(c, s)
  {
    if qs == [] then KnownInitially(c); Initial(c)
    else
      var s := Run(c, qs[..|qs| - 1]);
      KnownAfter(c, s, qs[|qs| - 1]);
      Complete(c, s, qs[|qs| - 1]).0
  }

  lemma {:induction false} KnownInitially(c: Config)
    requires ValidConfig(c)
    ensures Known(c, Initial(c))
  {
    forall p | p in c.providers
      ensures p.name in Initial(c).health && p.models != []
    {
      var i :| 0 <= i < |c.providers| && c.providers[i] == p;
    }
  }

  lemma {:induction false} TryAllKeepsKeys(c: Config, s: State, q: Request, ps: seq<Provider>, i: nat, errors: nat)
    requires i <= |ps| && forall j :: i <= j < |ps| ==> ps[j].name in s.health && ps[j].models != []
    ensures TryAll(c, s, q, ps, i, errors).0.health.Keys == s.health.Keys
    decreases |ps| - i
  {
    if i == |ps| {
    } else {
      var (s', v) := TryProvider(c, s, q, ps[i], i, 0, errors);
      if v.Next? || v.Again? {
        TryAllKeepsKeys(c, s', q, ps, i + 1, v.errors);
      }
    }
  }

  lemma {:induction false} DispatchKeepsKeys(c: Config, s: State, q: Request, routed: Routed)
    requires Callable(s, routed)
    ensures Dispatch(c, s, q, routed).0.health.Keys == s.health.Keys
  {
    if routed.Candidates? {
      TryAllKeepsKeys(c, s, q, routed.providers, 0, 0);
    }
  }

  lemma {:induction false} KnownAfter(c: Config, s: State, q: Request)
    requires Known(c, s)
    ensures Known(c, Complete(c, s, q).0)
  {
    var s1 := Arrived(s, q);
    RouteCallable(c, s1, q);
    DispatchKeepsKeys(c, s1, q, Route(c, s1, q));
  }

  /** In every run, with any replies and any timing, no chat call reaches a provider whose
      circuit is open; and every provider's health is what the failures since its last success
      say: closed below the threshold, else open until the latest failure plus cooldown. */
  lemma {:induction false} NoCallThroughAnOpenCircuit(c: Config, qs: seq<Request>)
    requires ValidConfig(c) && forall i :: 0 <= i < |qs| ==> Timely(qs[i])
    ensures Guarded(c, Run(c, qs).notes) && Tracks(c, Run(c, qs)) && Run(c, qs).clock >= 0.0
    ensures Run(c, qs).calls == CallCount(Run(c, qs).notes)
  {
    if qs == [] {
    } else {
      NoCallThroughAnOpenCircuit(c, qs[..|qs| - 1]);
      CompleteKeepsBreaker(c, Run(c, qs[..|qs| - 1]), qs[|qs| - 1]);
    }
  }

  // ---- budget and ledger ----

  function Billed(usage: seq<Record>, tenant: string): real {
    if usage == [] then 0.0
    else Billed(usage[..|usage| - 1], tenant) + if usage[|usage| - 1].tenant == tenant
        then usage[|usage| - 1].cost else 0.0
  }

  /** The record's cost is the price, per thousand, of the tokens that it reports. */
  ghost predicate Priced(c: Config, r: Record) {
    1000.0 * r.cost == (r.inputTokens + r.outputTokens) as real * c.costs.price
  }

  lemma {:induction false} EstimateIsPerThousand(c: Config, tokensIn: int, tokensOut: int)
    ensures 1000.0 * Estimate(c, tokensIn, tokensOut) == (tokensIn + tokensOut) as real * c.costs.price
  {
    var t := (tokensIn + tokensOut) as real;
    assert 1000.0 * (t / 1000.0 * c.costs.price) == (1000.0 * (t / 1000.0)) * c.costs.price;
  }

  /** Spend and ledger move together, by a priced record of the caller that the budget covers. */
  ghost predicate Charged(c: Config, s: State, s': State, r: Record) {
    && s'.spent == s.spent[r.tenant := SpentBy(s, r.tenant) + r.cost]
    && s'.usage == s.usage + [r]
    && SpentBy(s, r.tenant) + r.cost <= c.costs.budget
    && Priced(c, r)
  }

  ghost predicate NotCharged(s: State, s': State) {
    s'.spent == s.spent && s'.usage == s.usage
  }

  ghost predicate VerdictBilling(c: Config, s: State, s': State, q: Request, p: Provider, v: Verdict) {
    if v.Done? then Charged(c, s, s', v.record) && v.record.tenant == q.tenant && v.record.provider == p.name
    else NotCharged(s, s')
  }

  lemma {:induction false} TryOnceCharges(c: Config, s: State, q: Request, p: Provider, reply: Reply, attempt: nat,
        errors: nat)
    requires p.name in s.health && p.models != []
    ensures VerdictBilling(c, s, TryOnce(c, s, q, p, reply, attempt, errors).0, q, p,
        TryOnce(c, s, q, p, reply, attempt, errors).1)
  {
    if reply.outcome.Answer? {
      EstimateIsPerThousand(c, reply.outcome.inputTokens, reply.outcome.outputTokens);
    }
  }

  lemma {:induction false} VerdictBillingThrough(c: Config, s: State, s1: State, s2: State, q: Request, p: Provider,
        v: Verdict)
    requires NotCharged(s, s1) && VerdictBilling(c, s1, s2, q, p, v)
    ensures VerdictBilling(c, s, s2, q, p, v)
  {
  }

  lemma {:induction false} TryProviderCharges(c: Config, s: State, q: Request, p: Provider, i: nat, attempt: nat,
        errors: nat)
    requires p.name in s.health && p.models != []
    ensures VerdictBilling(c, s, TryProvider(c, s, q, p, i, attempt, errors).0, q, p,
        TryProvider(c, s, q, p, i, attempt, errors).1)
    decreases c.routing.maxRetries + 1 - attempt
  {
    if attempt > c.routing.maxRetries {
    } else {
      TryOnceCharges(c, s, q, p, q.replies(i, attempt), attempt, errors);
      var (s', v) := TryOnce(c, s, q, p, q.replies(i, attempt), attempt, errors);
      if v.Again? {
        TryProviderCharges(c, s', q, p, i, attempt + 1, v.errors);
        var (z, last) := TryProvider(c, s', q, p, i, attempt + 1, v.errors);
        VerdictBillingThrough(c, s, s', z, q, p, last);
      }
    }
  }

  /** A served result is charged to its tenant, any other result is not charged at all. */
  ghost predicate Billing(c: Config, s: State, s': State, tenant: string, r: Result) {
    if r.Served? then Charged(c, s, s', r.record) && r.record.tenant == tenant else NotCharged(s, s')
  }

  lemma {:induction false} BillingThrough(c: Config, s: State, s1: State, s2: State, tenant: string, r: Result)
    requires NotCharged(s, s1) && Billing(c, s1, s2, tenant, r)
    ensures Billing(c, s, s2, tenant, r)
  {
  }

  lemma {:induction false} TryAllCharges(c: Config, s: State, q: Request, ps: seq<Provider>, i: nat, errors: nat)
    requires i <= |ps| && forall j :: i <= j < |ps| ==> ps[j].name in s.health && ps[j].models != []
    ensures Billing(c, s, TryAll(c, s, q, ps, i, errors).0, q.tenant, TryAll(c, s, q, ps, i, errors).1)
    decreases |ps| - i
  {
    if i == |ps| {
    } else {
      TryProviderCharges(c, s, q, ps[i], i, 0, errors);
      var (s', v) := TryProvider(c, s, q, ps[i], i, 0, errors);
      if v.Next? || v.Again? {
        TryAllCharges(c, s', q, ps, i + 1, v.errors);
        var (s'', r) := TryAll(c, s', q, ps, i + 1, v.errors);
        BillingThrough(c, s, s', s'', q.tenant, r);
      }
    }
  }

  lemma {:induction false} DispatchCharges(c: Config, s: State, q: Request, routed: Routed)
    requires Callable(s, routed)
    ensures Billing(c, s, Dispatch(c, s, q, routed).0, q.tenant, Dispatch(c, s, q, routed).1)
  {
    if routed.Candidates? {
      TryAllCharges(c, s, q, routed.providers, 0, 0);
    }
  }

  /** A completion that is served charges exactly its record to its tenant, within budget; one
      that fails, in any way, charges nothing. */
  lemma {:induction false} CompletionCharges(c: Config, s: State, q: Request)
    requires Known(c, s)
    ensures Billing(c, s, Complete(c, s, q).0, q.tenant, Complete(c, s, q).1)
  {
    var s1 := Arrived(s, q);
    RouteCallable(c, s1, q);
    DispatchCharges(c, s1, q, Route(c, s1, q));
  }

  ghost predicate Balanced(c: Config, s: State, tenant: string) {
    SpentBy(s, tenant) == Billed(s.usage, tenant) <= c.costs.budget
  }

  lemma {:induction false} BillingKeepsBalance(c: Config, s: State, s': State, tenant: string, payer: string, r: Result)
    requires Balanced(c, s, tenant) && Billing(c, s, s', payer, r)
    ensures Balanced(c, s', tenant)
  {
    if r.Served? {
      assert s'.usage[..|s'.usage| - 1] == s.usage;
    }
  }

  /** In every run each tenant's spend is the sum of its usage records and within the budget. */
  lemma {:induction false} SpendIsLedgerWithinBudget(c: Config, qs: seq<Request>, tenant: string)
    requires ValidConfig(c) && c.costs.budget >= 0.0
    ensures SpentBy(Run(c, qs), tenant) == Billed(Run(c, qs).usage, tenant) <= c.costs.budget
  {
    if qs == [] {
    } else {
      var s, q := Run(c, qs[..|qs| - 1]), qs[|qs| - 1];
      SpendIsLedgerWithinBudget(c, qs[..|qs| - 1], tenant);
      CompletionCharges(c, s, q);
      var (s', r) := Complete(c, s, q);
      BillingKeepsBalance(c, s, s', tenant, q.tenant, r);
    }
  }

  /** If the up-front reservation passes and the reported usage stays within the request's
      tokens plus the token limit, the reservation of the actual cost passes too. */
  lemma {:induction false} ActualCostFitsReservation(c: Config, s: State, q: Request, tokensIn: int, tokensOut: int)
    requires c.costs.price >= 0.0
    requires Reservable(c, s, q.tenant, Estimate(c, q.tokens, c.costs.maxTokens))
    requires tokensIn + tokensOut <= q.tokens + c.costs.maxTokens
    ensures Reservable(c, s, q.tenant, Estimate(c, tokensIn, tokensOut))
  {
    var a, b := (tokensIn + tokensOut) as real / 1000.0, (q.tokens + c.costs.maxTokens) as real / 1000.0;
    assert a <= b;
    assert a * c.costs.price <= b * c.costs.price;
  }
}
