/** The gateway as an object with the program's nested loops. `clock` stands for the monotonic
    clock; `slept`, `notes` and `calls` only observe. */
module GatewayService {
  import opened Ordering
  import opened Gateway
  import G = Gateway

  class LLMGateway {
    const config: Config
    var health: map<string, Health>
    var spent: map<string, real>
    var usage: seq<Record>
    var clock: real
    ghost var slept: real
    ghost var notes: seq<Note>
    ghost var calls: nat

    ghost function Value(): State
      reads this
    {
      State(health, spent, usage, clock, slept, notes, calls)
    }

    constructor (config: Config)
      ensures this.config == config && Value() == Initial(config)
    {
      this.config := config;
      health := map p | p in config.providers :: p.name := Health(0, 0.0, Unknown);
      spent, usage, clock, slept, notes, calls := map[], [], 0.0, 0.0, [], 0;
    }

    method RecordFailure(name: string)
      requires name in health
      modifies this`health, this`notes
      ensures Value() == G.RecordFailure(config, old(Value()), name)
    {
      var failures := health[name].failures + 1;
      var openUntil := health[name].openUntil;
      if failures >= config.routing.threshold {
        openUntil := clock + config.routing.cooldown;
      }
      health := health[name := Health(failures, openUntil, Unhealthy)];
      notes := notes + [Failed(name, clock)];
    }

    method Sleep(attempt: nat, lag: real)
      modifies this`clock, this`slept
      ensures Value() == G.Sleep(config, old(Value()), attempt, lag)
    {
      var pause := 0.0;
      if attempt < config.routing.maxRetries {
        pause := config.routing.backoff * Pow2(attempt) as real;
        DoubledIsProduct(config.routing.backoff, attempt);
      }
      clock := clock + pause + lag;
      slept := slept + pause;
    }

    /** Charges the tenant, restores the provider's health and appends to the ledger. */
    method Accept(r: Record)
      modifies this`spent, this`health, this`usage, this`notes
      ensures Value() == Serve(old(Value()), r)
    {
      spent := spent[r.tenant := (if r.tenant in spent then spent[r.tenant] else 0.0) + r.cost];
      health := health[r.provider := Health(0, 0.0, Healthy)];
      usage := usage + [r];
      notes := notes + [Restored(r.provider)];
    }

    /** One attempt, from the chat call to the end of its exception handler. */
    method Attempt(q: Request, p: Provider, reply: Reply, attempt: nat, errors: nat) returns (v: Verdict)
      requires p.name in health && p.models != []
      modifies this
      ensures (Value(), v) == TryOnce(config, old(Value()), q, p, reply, attempt, errors)
    {
      notes, calls := notes + [Called(p.name, clock)], calls + 1;
      clock := clock + reply.elapsed;
      var faulted := false;
      match reply.outcome {
        case Answer(tokensIn, tokensOut) =>
          var r := RecordFor(config, q, p, tokensIn, tokensOut, errors);
          var already := if q.tenant in spent then spent[q.tenant] else 0.0;
          if already + r.cost <= config.costs.budget {
            Accept(r);
            return Done(r);
          }
          faulted := true;
        case HttpStatus(code) =>
          if code < 500 && code != 429 {
            RecordFailure(p.name);
            return Next(errors + 1);
          }
          Sleep(attempt, reply.lag);
        case Fault =>
          faulted := true;
        case Uncaught =>
          return Propagate;
      }
      v := Again(errors + 1);
      if faulted {
        RecordFailure(p.name);
        Sleep(attempt, reply.lag);
        if clock < health[p.name].openUntil {
          v := Next(errors + 1);
        }
      }
    }

    method Complete(q: Request) returns (r: Result)
      requires Known(config, Value())
      modifies this
      ensures (Value(), r) == G.Complete(config, old(Value()), q)
    {
      clock := clock + q.wait;
      if q.tokens > config.costs.maxTokens {
        return TokenLimit;
      }
      var already := if q.tenant in spent then spent[q.tenant] else 0.0;
      if already + Estimate(config, q.tokens, config.costs.maxTokens) > config.costs.budget {
        return OverBudget;
      }
      ghost var start := Value();
      RouteCallable(config, start, q);
      var routed := Route(config, State(health, spent, usage, clock, 0.0, [], 0), q);
      RouteIgnoresInstruments(config, start, q);
      match routed {
        case Refused => return NotAllowed;
        case Nobody => return NoProvider;
        case Candidates(ps) => r := Fallback(q, ps);
      }
    }

    method Fallback(q: Request, ps: seq<Provider>) returns (r: Result)
      requires forall j :: 0 <= j < |ps| ==> ps[j].name in health && ps[j].models != []
      modifies this
      ensures (Value(), r) == TryAll(config, old(Value()), q, ps, 0, 0)
    {
      ghost var start := Value();
      var errors := 0;
      for i := 0 to |ps|
        invariant health.Keys == start.health.Keys
        invariant TryAll(config, start, q, ps, 0, 0) == TryAll(config, Value(), q, ps, i, errors)
      {
        var v := Retry(q, ps[i], i, errors);
        match v {
          case Done(record) => return Served(record);
          case Propagate => return Raised;
          case Again(e) => errors := e;
          case Next(e) => errors := e;
        }
      }
      r := Unavailable;
    }

    method Retry(q: Request, p: Provider, i: nat, initialErrors: nat) returns (v: Verdict)
      requires p.name in health && p.models != []
      modifies this
      ensures (Value(), v) == TryProvider(config, old(Value()), q, p, i, 0, initialErrors)
    {
      ghost var start := Value();
      var attempt, errors := 0, initialErrors;
      while attempt <= config.routing.maxRetries
        invariant health.Keys == start.health.Keys
        invariant TryProvider(config, start, q, p, i, 0, initialErrors) == TryProvider(config, Value(), q, p, i,
            attempt, errors)
        decreases config.routing.maxRetries + 1 - attempt
      {
        v := Attempt(q, p, q.replies(i, attempt), attempt, errors);
        if !v.Again? {
          return;
        }
        attempt, errors := attempt + 1, v.errors;
      }
      v := Next(errors);
    }
  }

  lemma {:induction false} RouteIgnoresInstruments(c: Config, s: State, q: Request)
    ensures Route(c, s.(slept := 0.0, notes := [], calls := 0), q) == Route(c, s, q)
  {
    var s0 := s.(slept := 0.0, notes := [], calls := 0);
    FilterCongruence((p: Provider) => Usable(s0, q, p), (p: Provider) => Usable(s, q, p), c.providers);
  }

  lemma {:induction false} FilterCongruence<T>(f: T -> bool, g: T -> bool, s: seq<T>)
    requires forall i :: 0 <= i < |s| ==> f(s[i]) == g(s[i])
    ensures Filter(f, s) == Filter(g, s)
  {
    if s == [] {
    } else {
      FilterCongruence(f, g, s[..|s| - 1]);
    }
  }
}
