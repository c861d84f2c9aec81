/** How many checks the Redis rate limiter lets through, over all replicas and in every run. A
    replica places a check by its own clock, read to whole seconds (`sec`); the server's clock
    (`at`) is the common one. Reading and server time differ by what the clocks differ and by
    what the request takes: `sec - d <= at < sec + e`. */
module FixedWindowBounds {
  import opened FixedWindow
  import opened RedisModel

  datatype Request = Request(rules: seq<Rule>, sec: nat, at: real, fate: Fate)

  /** Every scope has one rule. */
  ghost predicate OneRule(c: Request, ruleOf: string -> Rule) {
    forall i :: 0 <= i < |c.rules| ==> c.rules[i] == ruleOf(c.rules[i].scope)
  }

  predicate Close(c: Request, d: real, e: real) {
    c.sec as real - d <= c.at < c.sec as real + e
  }

  ghost predicate ValidRun(cs: seq<Request>, ruleOf: string -> Rule, d: real, e: real) {
    forall i :: 0 <= i < |cs| ==> OneRule(cs[i], ruleOf) && Close(cs[i], d, e)
  }

  /** The server's clock never runs backwards. */
  ghost predicate Forward(cs: seq<Request>) {
    forall i, j :: 0 <= i < j < |cs| ==> cs[i].at <= cs[j].at
  }

  function Run(cs: seq<Request>): Counters {
    if cs == [] then map[]
    else
      var c := cs[|cs| - 1];
      Check(Run(cs[..|cs| - 1]), c.rules, c.sec, c.at, c.fate).0
  }

  /** The last check of the run passed and names the scope. */
  predicate LastPasses(cs: seq<Request>, scope: string)
    requires cs != []
  {
    var c := cs[|cs| - 1];
    Hits(c.rules, scope) > 0 && Check(Run(cs[..|cs| - 1]), c.rules, c.sec, c.at, c.fate).1 == Pass
  }

  /** Checks that pass, name the scope, and satisfy p. */
  function Passed(cs: seq<Request>, scope: string, p: Request -> bool): nat {
    if cs == [] then 0
    else Passed(cs[..|cs| - 1], scope, p) + if LastPasses(cs, scope) && p(cs[|cs| - 1]) then 1 else 0
  }

  /** Checks of one bucket: of any fate, or only those that Redis answered. */
  function InBucket(window: int, b: int, anyFate: bool): Request -> bool
    requires window > 0
  {
    (c: Request) => c.sec / window == b && (anyFate || c.fate == Answered)
  }

  /** Checks of the half-open interval of the server's time from x on, of the given length: of
      any fate, or only those that Redis answered. */
  function Within(x: real, length: real, anyFate: bool): Request -> bool {
    (c: Request) => x <= c.at < x + length && (anyFate || c.fate == Answered)
  }

  function Cap(limit: int): nat { if limit < 0 then 0 else limit }

  /** Increments that a list of rules makes to a scope's counter. */
  function Hits(rules: seq<Rule>, scope: string): nat {
    if rules == [] then 0
    else Hits(rules[..|rules| - 1], scope) + if rules[|rules| - 1].scope == scope then 1 else 0
  }

  /** Increments of a scope's counter in one bucket, by checks that satisfy p. */
  function Touches(cs: seq<Request>, scope: string, window: int, b: int, p: Request -> bool): nat
    requires window > 0
  {
    if cs == [] then 0
    else
      var c := cs[|cs| - 1];
      Touches(cs[..|cs| - 1], scope, window, b, p)
      + if Reaches(c) && c.sec / window == b && p(c) then Hits(c.rules, scope) else 0
  }

  /** The check's commands run at the server. */
  predicate Reaches(c: Request) { c.fate != Unreachable && Divisible(c.rules) }

  // ---- one counter ----

  ghost predicate Counting(redis: Counters) {
    forall key :: key in redis ==> redis[key].count >= 0
  }

  /** The counter shows n increments (or, if not exact, at least n), and lives until `until`. */
  ghost predicate Shows(redis: Counters, key: string, n: nat, until: real, exact: bool) {
    if n == 0 then exact ==> key !in redis
    else
      && key in redis && redis[key].expiresAt >= until
      && (if exact then redis[key].count == n else redis[key].count >= n)
  }

  /** A bump at this time finds the counter live, and leaves it so. */
  predicate Timely(at: real, window: int, until: real) {
    at < until <= at + (window + SLACK) as real
  }

  lemma {:induction false} BumpShows(redis: Counters, key: string, at: real, window: int, n: nat, until: real,
        exact: bool)
    requires Counting(redis) && window > 0 && Timely(at, window, until) && Shows(redis, key, n, until, exact)
    ensures Shows(Bump(redis, key, at, window + SLACK), key, n + 1, until, exact)
    ensures Incremented(redis, key, at) >= n + 1
  {
  }

  lemma {:induction false} OtherKey(rule: Rule, sec: nat, scope: string, b: int)
    requires rule.window != 0 && !(rule.scope == scope && FloorDiv(sec, rule.window) == b)
    ensures KeyFor(rule, sec) != KeyOf(scope, b)
  {
    if KeyFor(rule, sec) == KeyOf(scope, b) {
      KeyInjective(rule.scope, FloorDiv(sec, rule.window), scope, b);
    }
  }

  /** Which of the check's rules count on the key: those of the scope, if this is its bucket. */
  ghost predicate Aims(c: Request, scope: string, key: string, here: bool)
    requires Divisible(c.rules)
  {
    forall i :: 0 <= i < |c.rules| ==> (KeyFor(c.rules[i], c.sec) == key <==> here && c.rules[i].scope == scope)
  }

  lemma {:induction false} AimsAtBucket(c: Request, ruleOf: string -> Rule, scope: string, b: int)
    requires OneRule(c, ruleOf) && Divisible(c.rules) && ruleOf(scope).window > 0
    ensures Aims(c, scope, KeyOf(scope, b), c.sec / ruleOf(scope).window == b)
  {
    forall i | 0 <= i < |c.rules| && !(c.rules[i].scope == scope && c.sec / ruleOf(scope).window == b)
      ensures KeyFor(c.rules[i], c.sec) != KeyOf(scope, b)
    {
      OtherKey(c.rules[i], c.sec, scope, b);
    }
  }

  /** One rule's two commands. */
  lemma {:induction false} RuleShows(redis: Counters, rule: Rule, c: Request, window: int, scope: string, key: string,
        here: bool, n: nat, until: real, exact: bool)
    requires rule.window != 0 && window > 0 && (rule.scope == scope ==> rule.window == window)
    requires KeyFor(rule, c.sec) == key <==> here && rule.scope == scope
    requires here ==> Timely(c.at, window, until)
    requires Counting(redis) && Shows(redis, key, n, until, exact)
    ensures var redis' := Bump(redis, KeyFor(rule, c.sec), c.at, rule.window + SLACK);
            Counting(redis') && Shows(redis', key, n + if here && rule.scope == scope then 1 else 0, until, exact)
  {
    if here && rule.scope == scope {
      BumpShows(redis, key, c.at, window, n, until, exact);
    }
  }

  lemma {:induction false} PipelineShows(redis: Counters, c: Request, window: int, k: nat, scope: string, key: string,
        here: bool, n: nat, until: real, exact: bool)
    requires Divisible(c.rules) && k <= |c.rules| && window > 0 && Aims(c, scope, key, here)
    requires forall i :: 0 <= i < |c.rules| && c.rules[i].scope == scope ==> c.rules[i].window == window
    requires here ==> Timely(c.at, window, until)
    requires Counting(redis) && Shows(redis, key, n, until, exact)
    ensures var redis' := Pipeline(redis, c.rules[..k], c.sec, c.at).0;
            var hits := if here then Hits(c.rules[..k], scope) else 0;
            Counting(redis') && Shows(redis', key, n + hits, until, exact)
  {
    if k == 0 {
    } else {
      PipelineShows(redis, c, window, k - 1, scope, key, here, n, until, exact);
      assert c.rules[..k][..k - 1] == c.rules[..k - 1];
      var before := Pipeline(redis, c.rules[..k - 1], c.sec, c.at).0;
      var hits := if here then Hits(c.rules[..k - 1], scope) else 0;
      RuleShows(before, c.rules[k - 1], c, window, scope, key, here, n + hits, until, exact);
    }
  }

  /** All commands of a check. */
  lemma {:induction false} CheckShows(redis: Counters, c: Request, ruleOf: string -> Rule, k: nat, scope: string,
        b: int, n: nat, until: real, exact: bool)
    requires OneRule(c, ruleOf) && Divisible(c.rules) && k <= |c.rules| && ruleOf(scope).window > 0
    requires c.sec / ruleOf(scope).window == b ==> Timely(c.at, ruleOf(scope).window, until)
    requires Counting(redis) && Shows(redis, KeyOf(scope, b), n, until, exact)
    ensures var redis' := Pipeline(redis, c.rules[..k], c.sec, c.at).0;
            var hits := if c.sec / ruleOf(scope).window == b then Hits(c.rules[..k], scope) else 0;
            Counting(redis') && Shows(redis', KeyOf(scope, b), n + hits, until, exact)
  {
    var w := ruleOf(scope).window;
    AimsAtBucket(c, ruleOf, scope, b);
    PipelineShows(redis, c, w, k, scope, KeyOf(scope, b), c.sec / w == b, n, until, exact);
  }

  lemma {:induction false} PipelineCounts(redis: Counters, rules: seq<Rule>, sec: nat, at: real)
    requires Counting(redis) && Divisible(rules)
    ensures Counting(Pipeline(redis, rules, sec, at).0)
  {
    if rules == [] {
    } else {
      PipelineCounts(redis, rules[..|rules| - 1], sec, at);
    }
  }

  lemma {:induction false} RunCounts(cs: seq<Request>)
    ensures Counting(Run(cs))
  {
    if cs == [] {
    } else {
      var c := cs[|cs| - 1];
      RunCounts(cs[..|cs| - 1]);
      if Divisible(c.rules) {
        PipelineCounts(Run(cs[..|cs| - 1]), c.rules, c.sec, c.at);
      }
    }
  }

  // ---- a check that passes ----

  lemma {:induction false} SomeHit(rules: seq<Rule>, scope: string) returns (i: nat)
    requires Hits(rules, scope) > 0
    ensures i < |rules| && rules[i].scope == scope
  {
    i := |rules| - 1;
    if rules[i].scope == scope {
    } else {
      i := SomeHit(rules[..|rules| - 1], scope);
    }
  }

  /** Where a rule fails closed, a check that names it and passes was answered. */
  lemma {:induction false} PassIsAnswered(redis: Counters, c: Request, ruleOf: string -> Rule, scope: string)
    requires OneRule(c, ruleOf) && ruleOf(scope).failClosed && Hits(c.rules, scope) > 0
    requires Check(redis, c.rules, c.sec, c.at, c.fate).1 == Pass
    ensures c.fate == Answered
  {
    var i := SomeHit(c.rules, scope);
    VerdictUnanswered(redis, c.rules, c.sec, c.at, c.fate);
    assert c.rules[i].failClosed;
  }

  /** A check that passes found the counter, before it, below the limit. */
  lemma {:induction false} PassMeansRoom(redis: Counters, c: Request, ruleOf: string -> Rule, scope: string, b: int,
                                         n: nat, until: real, exact: bool)
    requires OneRule(c, ruleOf) && ruleOf(scope).window > 0 && c.sec / ruleOf(scope).window == b
    requires Timely(c.at, ruleOf(scope).window, until)
    requires Counting(redis) && Shows(redis, KeyOf(scope, b), n, until, exact)
    requires c.fate == Answered && Hits(c.rules, scope) > 0
    requires Check(redis, c.rules, c.sec, c.at, c.fate).1 == Pass
    ensures n < ruleOf(scope).limit
  {
    var i := SomeHit(c.rules, scope);
    var before := Pipeline(redis, c.rules[..i], c.sec, c.at).0;
    CheckShows(redis, c, ruleOf, i, scope, b, n, until, exact);
    BumpShows(before, KeyOf(scope, b), c.at, ruleOf(scope).window, n + Hits(c.rules[..i], scope), until, exact);
    PipelineReply(redis, c.rules, c.sec, c.at, i);
    var replies := Pipeline(redis, c.rules, c.sec, c.at).1;
    StrideOfPairs(replies, |c.rules|);
    JudgePass(c.rules, Stride(replies), i);
  }

  // ---- per bucket ----

  /** First second after a bucket. */
  function EndOf(bucket: int, window: int): int { (bucket + 1) * window }

  lemma {:induction false} BucketBounds(sec: nat, window: int)
    requires window > 0
    ensures EndOf(sec / window, window) - window <= sec < EndOf(sec / window, window)
  {
    assert sec == window * (sec / window) + sec % window;
  }

  /** Until when every check of a bucket keeps the counter alive. */
  function LivesUntil(b: int, window: int, d: real): real {
    (EndOf(b, window) + SLACK) as real - d
  }

  lemma {:induction false} LifeCoversBucket(c: Request, window: int, d: real, e: real)
    requires window > 0 && Close(c, d, e) && d + e <= (SLACK + 1) as real
    ensures Timely(c.at, window, LivesUntil(c.sec / window, window, d))
  {
    BucketBounds(c.sec, window);
    LifeCovers(EndOf(c.sec / window, window), c, window, d, e);
  }

  lemma {:induction false} LifeCovers(end: int, c: Request, window: int, d: real, e: real)
    requires end - window <= c.sec < end && Close(c, d, e) && d + e <= (SLACK + 1) as real
    ensures Timely(c.at, window, (end + SLACK) as real - d)
  {
  }

  ghost function Every(): Request -> bool { (c: Request) => true }

  /** Where readings and server time stay within the slack of each other, the time to live never
      drops a counter inside its bucket: in every run a scope's counter equals the increments
      made to it, in every bucket. */
  lemma {:induction false} CountersAreExact(cs: seq<Request>, ruleOf: string -> Rule, d: real, e: real, scope: string,
        b: int)
    requires ValidRun(cs, ruleOf, d, e) && d + e <= (SLACK + 1) as real && ruleOf(scope).window > 0
    ensures var w := ruleOf(scope).window;
            Shows(Run(cs), KeyOf(scope, b), Touches(cs, scope, w, b, Every()), LivesUntil(b, w, d), true)
  {
    if cs == [] {
    } else {
      var front, c, w := cs[..|cs| - 1], cs[|cs| - 1], ruleOf(scope).window;
      CountersAreExact(front, ruleOf, d, e, scope, b);
      RunCounts(front);
      if Divisible(c.rules) {
        if c.sec / w == b {
          LifeCoversBucket(c, w, d, e);
        }
        CheckShows(Run(front), c, ruleOf, |c.rules|, scope, b, Touches(front, scope, w, b, Every()),
            LivesUntil(b, w, d), true);
        assert c.rules[..|c.rules|] == c.rules;
      }
    }
  }

  /** Then at most `limit` checks pass per scope and bucket, over all replicas. */
  lemma {:induction false} BucketBound(cs: seq<Request>, ruleOf: string -> Rule, d: real, e: real, scope: string,
        b: int)
    requires ValidRun(cs, ruleOf, d, e) && d + e <= (SLACK + 1) as real && ruleOf(scope).window > 0
    ensures var rule := ruleOf(scope);
            var passed := Passed(cs, scope, InBucket(rule.window, b, rule.failClosed));
            passed <= Touches(cs, scope, rule.window, b, Every()) && passed <= Cap(rule.limit)
  {
    if cs == [] {
    } else {
      var front, c, w := cs[..|cs| - 1], cs[|cs| - 1], ruleOf(scope).window;
      BucketBound(front, ruleOf, d, e, scope, b);
      if LastPasses(cs, scope) && InBucket(w, b, ruleOf(scope).failClosed)(c) {
        if ruleOf(scope).failClosed {
          PassIsAnswered(Run(front), c, ruleOf, scope);
        }
        CountersAreExact(front, ruleOf, d, e, scope, b);
        RunCounts(front);
        LifeCoversBucket(c, w, d, e);
        PassMeansRoom(Run(front), c, ruleOf, scope, b, Touches(front, scope, w, b, Every()), LivesUntil(b, w, d), true);
      }
    }
  }

  // ---- per interval of the server's time ----

  function Since(x: real): Request -> bool { (c: Request) => c.at >= x }

  function Both(p: Request -> bool, q: Request -> bool): Request -> bool {
    (c: Request) => p(c) && q(c)
  }

  lemma {:induction false} NothingSince(cs: seq<Request>, scope: string, window: int, b: int, x: real)
    requires window > 0 && forall i :: 0 <= i < |cs| ==> cs[i].at < x
    ensures Touches(cs, scope, window, b, Since(x)) == 0
  {
    if cs == [] {
    } else {
      NothingSince(cs[..|cs| - 1], scope, window, b, x);
    }
  }

  /** Short of the interval's end, the counter shows the increments since the interval's start. */
  ghost predicate Recent(cs: seq<Request>, scope: string, window: int, b: int, x: real, length: real, closed: bool)
    requires window > 0
  {
    var n := Touches(cs, scope, window, b, Since(x));
    && Passed(cs, scope, Both(InBucket(window, b, true), Within(x, length, closed))) <= n
    && Shows(Run(cs), KeyOf(scope, b), n, x + (window + SLACK) as real, false)
  }

  /** In the interval, a check that passes found room for it. */
  lemma {:induction false} RecentRoom(cs: seq<Request>, ruleOf: string -> Rule, scope: string, b: int, x: real,
        length: real)
    requires cs != [] && OneRule(cs[|cs| - 1], ruleOf) && ruleOf(scope).window > 0 && LastPasses(cs, scope)
    requires length <= (ruleOf(scope).window + SLACK) as real
    requires Recent(cs[..|cs| - 1], scope, ruleOf(scope).window, b, x, length, ruleOf(scope).failClosed)
    requires cs[|cs| - 1].sec / ruleOf(scope).window == b
    requires Within(x, length, ruleOf(scope).failClosed)(cs[|cs| - 1])
    ensures Touches(cs[..|cs| - 1], scope, ruleOf(scope).window, b, Since(x)) < ruleOf(scope).limit
  {
    var front, c, w := cs[..|cs| - 1], cs[|cs| - 1], ruleOf(scope).window;
    RunCounts(front);
    if ruleOf(scope).failClosed {
      PassIsAnswered(Run(front), c, ruleOf, scope);
    }
    var n := Touches(front, scope, w, b, Since(x));
    PassMeansRoom(Run(front), c, ruleOf, scope, b, n, x + (w + SLACK) as real, false);
  }

  /** In the interval, the counter keeps up with the increments. */
  lemma {:induction false} RecentCounter(cs: seq<Request>, ruleOf: string -> Rule, scope: string, b: int, x: real,
        length: real)
    requires cs != [] && OneRule(cs[|cs| - 1], ruleOf) && ruleOf(scope).window > 0
    requires length <= (ruleOf(scope).window + SLACK) as real && x <= cs[|cs| - 1].at < x + length
    requires var n := Touches(cs[..|cs| - 1], scope, ruleOf(scope).window, b, Since(x));
             Shows(Run(cs[..|cs| - 1]), KeyOf(scope, b), n, x + (ruleOf(scope).window + SLACK) as real, false)
    ensures var n := Touches(cs, scope, ruleOf(scope).window, b, Since(x));
            Shows(Run(cs), KeyOf(scope, b), n, x + (ruleOf(scope).window + SLACK) as real, false)
  {
    var front, c, w := cs[..|cs| - 1], cs[|cs| - 1], ruleOf(scope).window;
    RunCounts(front);
    if Divisible(c.rules) {
      var n := Touches(front, scope, w, b, Since(x));
      CheckShows(Run(front), c, ruleOf, |c.rules|, scope, b, n, x + (w + SLACK) as real, false);
      assert c.rules[..|c.rules|] == c.rules;
    }
  }

  lemma {:induction false} RecentStep(cs: seq<Request>, ruleOf: string -> Rule, scope: string, b: int, x: real,
        length: real)
    requires cs != [] && OneRule(cs[|cs| - 1], ruleOf) && Forward(cs) && ruleOf(scope).window > 0
    requires length <= (ruleOf(scope).window + SLACK) as real && cs[|cs| - 1].at < x + length
    requires Recent(cs[..|cs| - 1], scope, ruleOf(scope).window, b, x, length, ruleOf(scope).failClosed)
    ensures Recent(cs, scope, ruleOf(scope).window, b, x, length, ruleOf(scope).failClosed)
    ensures var p := Both(InBucket(ruleOf(scope).window, b, true), Within(x, length, ruleOf(scope).failClosed));
            LastPasses(cs, scope) && p(cs[|cs| - 1]) ==> Passed(cs[..|cs| - 1], scope, p) < ruleOf(scope).limit
  {
    var front, c, w := cs[..|cs| - 1], cs[|cs| - 1], ruleOf(scope).window;
    if c.at < x {
      NothingSince(cs, scope, w, b, x);
    } else {
      RecentCounter(cs, ruleOf, scope, b, x, length);
      if LastPasses(cs, scope) && c.sec / w == b && Within(x, length, ruleOf(scope).failClosed)(c) {
        RecentRoom(cs, ruleOf, scope, b, x, length);
        if ruleOf(scope).failClosed {
          PassIsAnswered(Run(front), c, ruleOf, scope);
        }
      }
    }
  }

  /** In any interval no longer than a counter's life, at most `limit` checks of one bucket pass,
      however far the readings are off. */
  lemma {:induction false} BucketInInterval(cs: seq<Request>, ruleOf: string -> Rule, scope: string, b: int, x: real,
        length: real)
    requires (forall i :: 0 <= i < |cs| ==> OneRule(cs[i], ruleOf)) && Forward(cs) && ruleOf(scope).window > 0
    requires length <= (ruleOf(scope).window + SLACK) as real
    ensures var p := Both(InBucket(ruleOf(scope).window, b, true), Within(x, length, ruleOf(scope).failClosed));
            Passed(cs, scope, p) <= Cap(ruleOf(scope).limit)
    ensures cs == [] || cs[|cs| - 1].at < x + length ==>
              Recent(cs, scope, ruleOf(scope).window, b, x, length, ruleOf(scope).failClosed)
  {
    if cs == [] {
    } else {
      BucketInInterval(cs[..|cs| - 1], ruleOf, scope, b, x, length);
      if cs[|cs| - 1].at < x + length {
        RecentStep(cs, ruleOf, scope, b, x, length);
      }
    }
  }

  lemma {:induction false} PassedCovered(cs: seq<Request>, scope: string, p: Request -> bool, q: Request -> bool,
        r: Request -> bool)
    requires forall i :: 0 <= i < |cs| && p(cs[i]) ==> q(cs[i]) || r(cs[i])
    ensures Passed(cs, scope, p) <= Passed(cs, scope, q) + Passed(cs, scope, r)
  {
    if cs == [] {
    } else {
      PassedCovered(cs[..|cs| - 1], scope, p, q, r);
    }
  }

  /** The readings of an interval of at most window + 1 - d - e lie in two buckets. */
  lemma {:induction false} TwoBuckets(c: Request, window: int, d: real, e: real, x: real, length: real, first: nat)
    requires window > 0 && Close(c, d, e) && x <= c.at < x + length && length + d + e <= (window + 1) as real
    requires first == if (x - e).Floor + 1 < 0 then 0 else (x - e).Floor + 1
    ensures c.sec / window == first / window || c.sec / window == first / window + 1
  {
    assert first <= c.sec <= first + window;
    BucketBounds(first, window);
    BucketBounds(c.sec, window);
    Between(c.sec / window, first / window, window, c.sec, first);
  }

  lemma {:induction false} EndMonotone(a: int, b: int, window: int)
    requires a <= b && window > 0
    ensures EndOf(a, window) <= EndOf(b, window)
    ensures EndOf(a, window) == EndOf(a - 1, window) + window
  {
    assert (b - a) * window >= 0;
  }

  lemma {:induction false} Between(q: int, b: int, window: int, sec: int, first: int)
    requires window > 0 && first <= sec <= first + window
    requires EndOf(q, window) - window <= sec < EndOf(q, window)
    requires EndOf(b, window) - window <= first < EndOf(b, window)
    ensures q == b || q == b + 1
  {
    EndMonotone(b, b, window);
    EndMonotone(b + 1, b + 1, window);
    EndMonotone(q, q, window);
    if q < b {
      EndMonotone(q, b - 1, window);
    } else if q > b + 1 {
      EndMonotone(b + 1, q - 1, window);
    }
  }

  lemma {:induction false} IntervalBound(cs: seq<Request>, ruleOf: string -> Rule, d: real, e: real, scope: string,
        x: real, length: real)
    requires ValidRun(cs, ruleOf, d, e) && Forward(cs) && ruleOf(scope).window > 0 && d + e > 0.0
    requires length + d + e <= (ruleOf(scope).window + 1) as real
    ensures Passed(cs, scope, Within(x, length, ruleOf(scope).failClosed)) <= 2 * Cap(ruleOf(scope).limit)
  {
    var w := ruleOf(scope).window;
    var first: nat := if (x - e).Floor + 1 < 0 then 0 else (x - e).Floor + 1;
    var b, in_ := first / w, Within(x, length, ruleOf(scope).failClosed);
    forall i | 0 <= i < |cs| && in_(cs[i])
      ensures Both(InBucket(w, b, true), in_)(cs[i]) || Both(InBucket(w, b + 1, true), in_)(cs[i])
    {
      TwoBuckets(cs[i], w, d, e, x, length, first);
    }
    PassedCovered(cs, scope, in_, Both(InBucket(w, b, true), in_), Both(InBucket(w, b + 1, true), in_));
    BucketInInterval(cs, ruleOf, scope, b, x, length);
    BucketInInterval(cs, ruleOf, scope, b + 1, x, length);
  }

  // ---- runs that get more through ----

  /** The run, and then the same check n times more. */
  function Then(cs: seq<Request>, c: Request, n: nat): seq<Request> {
    if n == 0 then cs else Then(cs, c, n - 1) + [c]
  }

  function Alone(rule: Rule, sec: nat, at: real): Request { Request([rule], sec, at, Answered) }

  lemma {:induction false} CheckOne(redis: Counters, rule: Rule, sec: nat, at: real)
    requires rule.window > 0
    ensures var key := KeyFor(rule, sec);
            var (redis', v) := Check(redis, [rule], sec, at, Answered);
            && redis' == redis[key := Counter(Incremented(redis, key, at), at + (rule.window + SLACK) as real)]
            && (v == Pass <==> Incremented(redis, key, at) <= rule.limit)
  {
    var rules := [rule];
    var key := KeyFor(rule, sec);
    assert rules[..0] == [];
    assert Pipeline(redis, [], sec, at) == (redis, []);
    var count := Count(Incremented(redis, key, at));
    var replies: seq<Reply> := [count, Expiry];
    assert [] + replies == replies;
    assert Pipeline(redis, rules, sec, at) == (Bump(redis, key, at, rule.window + SLACK), replies);
    assert replies[2..] == [];
    assert Stride(replies) == [count];
    assert rules[1..] == [] && [count][1..] == [];
    assert Judge([], []) == Pass;
  }

  lemma {:induction false} OneMorePasses(cs: seq<Request>, rule: Rule, sec: nat, at: real, p: Request -> bool)
    requires rule.window > 0 && p(Alone(rule, sec, at))
    requires Incremented(Run(cs), KeyFor(rule, sec), at) <= rule.limit
    ensures var all := cs + [Alone(rule, sec, at)];
            var count := Incremented(Run(cs), KeyFor(rule, sec), at);
            && Passed(all, rule.scope, p) == Passed(cs, rule.scope, p) + 1
            && Run(all) == Run(cs)[KeyFor(rule, sec) := Counter(count, at + (rule.window + SLACK) as real)]
  {
    var c := Alone(rule, sec, at);
    assert (cs + [c])[..|cs + [c]| - 1] == cs;
    CheckOne(Run(cs), rule, sec, at);
    assert [rule][..0] == [];
    assert Hits([rule], rule.scope) == 1;
  }

  predicate Idle(redis: Counters, key: string, at: real) {
    key in redis ==> redis[key].expiresAt <= at
  }

  /** What the run leaves at the server, and how many of its checks passed. */
  ghost predicate Leaves(cs: seq<Request>, scope: string, p: Request -> bool, redis: Counters, passed: nat) {
    Run(cs) == redis && Passed(cs, scope, p) == passed
  }

  function Counted(redis: Counters, rule: Rule, sec: nat, at: real, n: nat): Counters
    requires rule.window != 0
  {
    if n == 0 then redis else redis[KeyFor(rule, sec) := Counter(n, at + (rule.window + SLACK) as real)]
  }

  lemma {:induction false} CountedOnce(redis: Counters, rule: Rule, sec: nat, at: real, n: nat)
    requires rule.window > 0 && n > 0 && Idle(redis, KeyFor(rule, sec), at)
    ensures var before, key := Counted(redis, rule, sec, at, n - 1), KeyFor(rule, sec);
            && Incremented(before, key, at) == n
            && before[key := Counter(n, at + (rule.window + SLACK) as real)] == Counted(redis, rule, sec, at, n)
  {
  }

  lemma {:induction false} NextPasses(cs: seq<Request>, rule: Rule, sec: nat, at: real, n: nat, p: Request -> bool,
                                      redis: Counters, passed: nat)
    requires rule.window > 0 && 0 < n <= rule.limit && p(Alone(rule, sec, at)) && Idle(redis, KeyFor(rule, sec), at)
    requires Leaves(cs, rule.scope, p, Counted(redis, rule, sec, at, n - 1), passed + n - 1)
    ensures Leaves(cs + [Alone(rule, sec, at)], rule.scope, p, Counted(redis, rule, sec, at, n), passed + n)
  {
    CountedOnce(redis, rule, sec, at, n);
    OneMorePasses(cs, rule, sec, at, p);
  }

  /** A counter that is not live lets `limit` checks through at once. */
  lemma {:induction false} GroupPasses(cs: seq<Request>, rule: Rule, sec: nat, at: real, n: nat, p: Request -> bool,
                                       redis: Counters, passed: nat)
    requires rule.window > 0 && n <= rule.limit && p(Alone(rule, sec, at))
    requires Leaves(cs, rule.scope, p, redis, passed) && Idle(redis, KeyFor(rule, sec), at)
    ensures Leaves(Then(cs, Alone(rule, sec, at), n), rule.scope, p, Counted(redis, rule, sec, at, n), passed + n)
  {
    if n == 0 {
    } else {
      GroupPasses(cs, rule, sec, at, n - 1, p, redis, passed);
      NextPasses(Then(cs, Alone(rule, sec, at), n - 1), rule, sec, at, n, p, redis, passed);
    }
  }

  /** A run with such readings, and nothing in it later than `at`. */
  ghost predicate Extendable(cs: seq<Request>, rule: Rule, d: real, e: real, at: real) {
    ValidRun(cs, Same(rule), d, e) && Forward(cs) && forall i :: 0 <= i < |cs| ==> cs[i].at <= at
  }

  lemma {:induction false} GroupExtends(cs: seq<Request>, rule: Rule, sec: nat, at: real, n: nat, d: real, e: real,
        before: real)
    requires Extendable(cs, rule, d, e, before) && before <= at && Close(Alone(rule, sec, at), d, e)
    ensures Extendable(Then(cs, Alone(rule, sec, at), n), rule, d, e, at)
  {
    if n == 0 {
    } else {
      GroupExtends(cs, rule, sec, at, n - 1, d, e, before);
    }
  }

  /** The rule for every scope, where nothing else is asked. */
  function Same(rule: Rule): string -> Rule { (s: string) => rule.(scope := s) }

  // ---- exactly when the limits hold ----

  /** In every run with such readings at most `limit` checks of the scope pass per bucket: checks
      of any fate if the rule fails closed, otherwise those that Redis answered. */
  ghost predicate LimitPerBucket(rule: Rule, d: real, e: real)
    requires rule.window > 0
  {
    forall cs: seq<Request>, ruleOf: string -> Rule, b: int ::
      ValidRun(cs, ruleOf, d, e) && Forward(cs) && ruleOf(rule.scope) == rule ==>
        Passed(cs, rule.scope, InBucket(rule.window, b, rule.failClosed)) <= Cap(rule.limit)
  }

  /** In every run with such readings at most twice the limit pass in every interval of the
      server's time of the given length, wherever it starts; again of any fate if the rule fails
      closed. */
  ghost predicate TwiceInInterval(rule: Rule, d: real, e: real, length: real) {
    forall cs: seq<Request>, ruleOf: string -> Rule, x: real ::
      ValidRun(cs, ruleOf, d, e) && Forward(cs) && ruleOf(rule.scope) == rule ==>
        Passed(cs, rule.scope, Within(x, length, rule.failClosed)) <= 2 * Cap(rule.limit)
  }

  lemma {:induction false} LimitZero(cs: seq<Request>, ruleOf: string -> Rule, scope: string, p: Request -> bool)
    requires (forall i :: 0 <= i < |cs| ==> OneRule(cs[i], ruleOf)) && ruleOf(scope).window > 0
    requires ruleOf(scope).limit < 1
    requires forall i :: 0 <= i < |cs| && p(cs[i]) ==> ruleOf(scope).failClosed || cs[i].fate == Answered
    ensures Passed(cs, scope, p) == 0
  {
    if cs == [] {
    } else {
      var front, c, w := cs[..|cs| - 1], cs[|cs| - 1], ruleOf(scope).window;
      LimitZero(front, ruleOf, scope, p);
      if LastPasses(cs, scope) && p(c) {
        RunCounts(front);
        if ruleOf(scope).failClosed {
          PassIsAnswered(Run(front), c, ruleOf, scope);
        }
        PassMeansRoom(Run(front), c, ruleOf, scope, c.sec / w, 0, c.at + 1.0, false);
      }
    }
  }

  /** A counter that its first check starts too early is gone before its bucket ends: `limit`
      checks and one more pass. */
  lemma {:induction false} DroppedCounter(rule: Rule, d: real, e: real) returns (cs: seq<Request>)
    requires rule.window > 0 && rule.limit >= 1 && d + e > (SLACK + 1) as real
    ensures ValidRun(cs, Same(rule), d, e) && Forward(cs)
    ensures Passed(cs, rule.scope, InBucket(rule.window, 0, rule.failClosed)) == rule.limit + 1
  {
    var w := rule.window;
    SameBucket(w);
    cs := OneAfterTheLimit(rule, w - 1, -d, (w + SLACK) as real - d, d, e, InBucket(w, 0, rule.failClosed));
  }

  lemma {:induction false} OneAfterTheLimit(rule: Rule, sec: nat, early: real, late: real, d: real, e: real,
        p: Request -> bool) returns (cs: seq<Request>)
    requires rule.window > 0 && rule.limit >= 1 && early + (rule.window + SLACK) as real <= late
    requires p(Alone(rule, 0, early)) && p(Alone(rule, sec, late))
    requires Close(Alone(rule, 0, early), d, e) && Close(Alone(rule, sec, late), d, e)
    ensures ValidRun(cs, Same(rule), d, e) && Forward(cs)
    ensures Passed(cs, rule.scope, p) == rule.limit + 1
  {
    var group := Then([], Alone(rule, 0, early), rule.limit);
    GroupPasses([], rule, 0, early, rule.limit, p, map[], 0);
    GroupPasses(group, rule, sec, late, 1, p, Counted(map[], rule, 0, early, rule.limit), rule.limit);
    GroupExtends([], rule, 0, early, rule.limit, d, e, early);
    GroupExtends(group, rule, sec, late, 1, d, e, early);
    cs := Then(group, Alone(rule, sec, late), 1);
  }

  lemma {:induction false} SameBucket(window: int)
    requires window > 0
    ensures 0 / window == 0 && (window - 1) / window == 0
  {
  }

  /** At most `limit` checks pass per scope and bucket, in every run, if and only if readings and
      server time stay within the slack of each other, to the second. */
  lemma {:induction false} LimitPerBucketIff(rule: Rule, d: real, e: real)
    requires rule.window > 0
    ensures LimitPerBucket(rule, d, e) <==> rule.limit < 1 || d + e <= 6.0
  {
    if rule.limit < 1 || d + e <= 6.0 {
      forall cs: seq<Request>, ruleOf: string -> Rule, b: int
        | ValidRun(cs, ruleOf, d, e) && Forward(cs) && ruleOf(rule.scope) == rule
        ensures Passed(cs, rule.scope, InBucket(rule.window, b, rule.failClosed)) <= Cap(rule.limit)
      {
        if rule.limit < 1 {
          LimitZero(cs, ruleOf, rule.scope, InBucket(rule.window, b, rule.failClosed));
        } else {
          BucketBound(cs, ruleOf, d, e, rule.scope, b);
        }
      }
    } else {
      var cs := DroppedCounter(rule, d, e);
      assert Same(rule)(rule.scope) == rule;
      assert Passed(cs, rule.scope, InBucket(rule.window, 0, rule.failClosed)) > Cap(rule.limit);
    }
  }

  /** In every run with such readings at most `limit` checks pass per bucket, of whatever fate. */
  ghost predicate LimitForAnyFate(rule: Rule, d: real, e: real)
    requires rule.window > 0
  {
    forall cs: seq<Request>, ruleOf: string -> Rule, b: int ::
      ValidRun(cs, ruleOf, d, e) && Forward(cs) && ruleOf(rule.scope) == rule ==>
        Passed(cs, rule.scope, InBucket(rule.window, b, true)) <= Cap(rule.limit)
  }

  /** While Redis is down a rule that does not fail closed lets everything through. */
  lemma {:induction false} UnansweredPass(rule: Rule, d: real, e: real, n: nat) returns (cs: seq<Request>)
    requires rule.window > 0 && !rule.failClosed && d + e > 0.0
    ensures Extendable(cs, rule, d, e, -d)
    ensures Passed(cs, rule.scope, InBucket(rule.window, 0, true)) == n
  {
    if n == 0 {
      cs := [];
    } else {
      var fewer := UnansweredPass(rule, d, e, n - 1);
      cs := fewer + [Request([rule], 0, -d, Unreachable)];
      OneMoreUnanswered(fewer, rule, d, e);
    }
  }

  lemma {:induction false} OneMoreUnanswered(cs: seq<Request>, rule: Rule, d: real, e: real)
    requires rule.window > 0 && !rule.failClosed && d + e > 0.0 && Extendable(cs, rule, d, e, -d)
    ensures var all, p := cs + [Request([rule], 0, -d, Unreachable)], InBucket(rule.window, 0, true);
            Extendable(all, rule, d, e, -d) && Passed(all, rule.scope, p) == Passed(cs, rule.scope, p) + 1
  {
    var all := cs + [Request([rule], 0, -d, Unreachable)];
    assert all[..|all| - 1] == cs;
    SameBucket(rule.window);
    VerdictUnanswered(Run(cs), [rule], 0, -d, Unreachable);
    assert [rule][..0] == [];
    assert Hits([rule], rule.scope) == 1;
  }

  /** The limit holds for checks of whatever fate if and only if the rule fails closed, and holds
      for answered ones. */
  lemma {:induction false} LimitForAnyFateIff(rule: Rule, d: real, e: real)
    requires rule.window > 0 && d + e > 0.0
    ensures LimitForAnyFate(rule, d, e) <==> rule.failClosed && (rule.limit < 1 || d + e <= 6.0)
  {
    LimitPerBucketIff(rule, d, e);
    if rule.failClosed {
      assert LimitForAnyFate(rule, d, e) <==> LimitPerBucket(rule, d, e);
    } else {
      var cs := UnansweredPass(rule, d, e, Cap(rule.limit) + 1);
      assert Same(rule)(rule.scope) == rule;
      assert Passed(cs, rule.scope, InBucket(rule.window, 0, true)) > Cap(rule.limit);
    }
  }

  /** The last second of a bucket, read late, and the first second of the next but one, read
      early: the checks of three buckets in one interval. */
  lemma {:induction false} ThreeBuckets(rule: Rule, d: real, e: real, length: real) returns (cs: seq<Request>, x: real)
    requires rule.window > 0 && rule.limit >= 1 && d + e > 0.0 && length > 0.0
    requires length + d + e > (rule.window + 1) as real
    ensures ValidRun(cs, Same(rule), d, e) && Forward(cs)
    ensures Passed(cs, rule.scope, Within(x, length, rule.failClosed)) == 2 * rule.limit + 1
  {
    var y, z;
    x, y, z := ThreeTimes(rule.window, d, e, length);
    var redis := ThreeGroupsPass(rule, x, y, z, length);
    ThreeGroupsAreValid(rule, x, y, z, d, e);
    cs := ThreeGroups(rule, x, y, z);
  }

  /** Server times for the last second of the first bucket and the first of the two next. */
  lemma {:induction false} ThreeTimes(w: int, d: real, e: real, length: real) returns (x: real, y: real, z: real)
    requires w > 0 && d + e > 0.0 && length > 0.0 && length + d + e > (w + 1) as real
    ensures x <= y <= z < x + length
    ensures (w - 1) as real - d <= x < (w - 1) as real + e
    ensures w as real - d <= y < w as real + e
    ensures (2 * w) as real - d <= z < (2 * w) as real + e
  {
    var spare := length + d + e - (w + 1) as real;
    var early := if spare < d + e then spare / 2.0 else (d + e) / 2.0;
    x := (w - 1) as real + e - early;
    y := if x < w as real - d then w as real - d else x;
    z := if x < (2 * w) as real - d then (2 * w) as real - d else x;
  }

  function ThreeGroups(rule: Rule, x: real, y: real, z: real): seq<Request>
    requires rule.window > 0 && rule.limit >= 1
  {
    var one := Then([], Alone(rule, rule.window - 1, x), rule.limit);
    Then(Then(one, Alone(rule, rule.window, y), rule.limit), Alone(rule, 2 * rule.window, z), 1)
  }

  lemma {:induction false} IdleElsewhere(redis: Counters, rule: Rule, other: nat, then_: real, n: nat, sec: nat,
        at: real)
    requires rule.window > 0 && KeyFor(rule, other) != KeyFor(rule, sec) && Idle(redis, KeyFor(rule, sec), at)
    ensures Idle(Counted(redis, rule, other, then_, n), KeyFor(rule, sec), at)
  {
  }

  lemma {:induction false} ThreeGroupsPass(rule: Rule, x: real, y: real, z: real, length: real)
        returns (redis: Counters)
    requires rule.window > 0 && rule.limit >= 1 && x <= y <= z < x + length
    ensures Leaves(ThreeGroups(rule, x, y, z), rule.scope, Within(x, length, rule.failClosed), redis,
                   2 * rule.limit + 1)
  {
    var w, p, n := rule.window, Within(x, length, rule.failClosed), rule.limit;
    var one := Then([], Alone(rule, w - 1, x), n);
    var first := Counted(map[], rule, w - 1, x, n);
    var second := Counted(first, rule, w, y, n);
    redis := Counted(second, rule, 2 * w, z, 1);
    BucketsDiffer(rule);
    IdleElsewhere(map[], rule, w - 1, x, n, w, y);
    IdleElsewhere(map[], rule, w - 1, x, n, 2 * w, z);
    IdleElsewhere(first, rule, w, y, n, 2 * w, z);
    GroupPasses([], rule, w - 1, x, n, p, map[], 0);
    GroupPasses(one, rule, w, y, n, p, first, n);
    GroupPasses(Then(one, Alone(rule, w, y), n), rule, 2 * w, z, 1, p, second, 2 * n);
  }

  lemma {:induction false} ThreeGroupsAreValid(rule: Rule, x: real, y: real, z: real, d: real, e: real)
    requires rule.window > 0 && rule.limit >= 1 && x <= y <= z
    requires Close(Alone(rule, rule.window - 1, x), d, e)
    requires Close(Alone(rule, rule.window, y), d, e) && Close(Alone(rule, 2 * rule.window, z), d, e)
    ensures Extendable(ThreeGroups(rule, x, y, z), rule, d, e, z)
  {
    var w, n := rule.window, rule.limit;
    var one := Then([], Alone(rule, w - 1, x), n);
    GroupExtends([], rule, w - 1, x, n, d, e, x);
    GroupExtends(one, rule, w, y, n, d, e, x);
    GroupExtends(Then(one, Alone(rule, w, y), n), rule, 2 * w, z, 1, d, e, y);
  }

  lemma {:induction false} BucketsDiffer(rule: Rule)
    requires rule.window > 0
    ensures KeyFor(rule, rule.window - 1) != KeyFor(rule, rule.window)
    ensures KeyFor(rule, 2 * rule.window) !in {KeyFor(rule, rule.window - 1), KeyFor(rule, rule.window)}
  {
    var w := rule.window;
    assert (w - 1) / w == 0 && w / w == 1 && (2 * w) / w == 2;
    OtherKey(rule, w - 1, rule.scope, 1);
    OtherKey(rule, w - 1, rule.scope, 2);
    OtherKey(rule, w, rule.scope, 2);
  }

  /** Twice the limit in every interval of the server's time of a given length, wherever it
      starts and in every run, if and only if the length, and what readings can be off, fit in
      the window and one second. */
  lemma {:induction false} TwiceTheLimitIff(rule: Rule, d: real, e: real, length: real)
    requires rule.window > 0 && d + e > 0.0 && length > 0.0
    ensures TwiceInInterval(rule, d, e, length) <==> rule.limit < 1 || length + d + e <= (rule.window + 1) as real
  {
    if rule.limit < 1 || length + d + e <= (rule.window + 1) as real {
      forall cs: seq<Request>, ruleOf: string -> Rule, x: real
        | ValidRun(cs, ruleOf, d, e) && Forward(cs) && ruleOf(rule.scope) == rule
        ensures Passed(cs, rule.scope, Within(x, length, rule.failClosed)) <= 2 * Cap(rule.limit)
      {
        if rule.limit < 1 {
          LimitZero(cs, ruleOf, rule.scope, Within(x, length, rule.failClosed));
        } else {
          IntervalBound(cs, ruleOf, d, e, rule.scope, x, length);
        }
      }
    } else {
      var cs, x := ThreeBuckets(rule, d, e, length);
      assert Same(rule)(rule.scope) == rule;
      assert Passed(cs, rule.scope, Within(x, length, rule.failClosed)) > 2 * Cap(rule.limit);
    }
  }

  /** With readings exact to the second that is every interval of one window length. */
  lemma {:induction false} TwiceTheLimitAnywhere(cs: seq<Request>, ruleOf: string -> Rule, scope: string, x: real)
    requires ValidRun(cs, ruleOf, 0.0, 1.0) && Forward(cs) && ruleOf(scope).window > 0
    ensures var p := Within(x, ruleOf(scope).window as real, ruleOf(scope).failClosed);
            Passed(cs, scope, p) <= 2 * Cap(ruleOf(scope).limit)
  {
    IntervalBound(cs, ruleOf, 0.0, 1.0, scope, x, ruleOf(scope).window as real);
  }

  /** Readings a few seconds off get three checks through a limit of one, in one minute. */
  lemma {:induction false} ThreeInOneMinute(scope: string)
    ensures var rule := Rule(scope, 1, 60, true);
            var cs := [Alone(rule, 59, 62.4), Alone(rule, 63, 63.0), Alone(rule, 120, 117.6)];
            && ValidRun(cs, Same(rule), 2.5, 3.5) && Forward(cs)
            && Passed(cs, scope, Within(62.4, 60.0, true)) == 3
  {
    var rule, p := Rule(scope, 1, 60, true), Within(62.4, 60.0, true);
    var a, b, c := Alone(rule, 59, 62.4), Alone(rule, 63, 63.0), Alone(rule, 120, 117.6);
    OtherKey(rule, 59, scope, 1);
    OtherKey(rule, 59, scope, 2);
    OtherKey(rule, 63, scope, 2);
    var one := Counted(map[], rule, 59, 62.4, 1);
    var two := Counted(one, rule, 63, 63.0, 1);
    IdleElsewhere(map[], rule, 59, 62.4, 1, 63, 63.0);
    IdleElsewhere(map[], rule, 59, 62.4, 1, 120, 117.6);
    IdleElsewhere(one, rule, 63, 63.0, 1, 120, 117.6);
    NextPasses([], rule, 59, 62.4, 1, p, map[], 0);
    assert [] + [a] == [a];
    NextPasses([a], rule, 63, 63.0, 1, p, one, 1);
    assert [a] + [b] == [a, b];
    NextPasses([a, b], rule, 120, 117.6, 1, p, two, 2);
    assert [a, b] + [c] == [a, b, c];
  }
}
