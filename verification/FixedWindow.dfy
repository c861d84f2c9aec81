/** The Redis rate limiter: one shared counter per scope and time bucket, with a time to live.
    Replicas read their own clocks (`sec`); the server has its own (`at`). */
module FixedWindow {
  import opened Naming
  import opened RedisModel

  datatype Rule = Rule(scope: string, limit: int, window: int, failClosed: bool)

  datatype Counter = Counter(count: int, expiresAt: real)

  type Counters = map<string, Counter>

  datatype Reply = Count(value: int) | Expiry

  datatype Verdict = Pass | Limited(scope: string) | DependencyDown | ZeroDivision

  /** Seconds of life beyond the window that each counter gets. */
  const SLACK := 5

  /** Python's floor division, for a clock reading and a window of either sign. */
  function FloorDiv(a: nat, b: int): int
    requires b != 0
  {
    if b > 0 then a / b else -((a - b - 1) / -b)
  }

  lemma {:induction false} FloorDivRemainder(a: nat, b: int)
    requires b != 0
    ensures var r := a - b * FloorDiv(a, b);
            if b > 0 then 0 <= r < b else b < r <= 0
  {
    if b > 0 {
      assert a == b * (a / b) + a % b;
    } else {
      var n, m := a - b - 1, -b;
      assert n == m * (n / m) + n % m;
      assert b * -(n / m) == m * (n / m);
    }
  }

  /** The window divides; a zero window raises before any command is sent. */
  predicate Divisible(rules: seq<Rule>) {
    forall i :: 0 <= i < |rules| ==> rules[i].window != 0
  }

  function KeyOf(scope: string, bucket: int): string { "rl:" + scope + ":" + Numeral(bucket) }

  lemma {:induction false} KeyInjective(s: string, b: int, s': string, b': int)
    requires KeyOf(s, b) == KeyOf(s', b')
    ensures s == s' && b == b'
  {
    NumeralColonFree(b);
    NumeralColonFree(b');
    SplitAtLastColon("rl:" + s, Numeral(b), "rl:" + s', Numeral(b'));
    assert ("rl:" + s)[3..] == s && ("rl:" + s')[3..] == s';
    NumeralInjective(b, b');
  }

  function KeyFor(rule: Rule, sec: nat): string
    requires rule.window != 0
  {
    KeyOf(rule.scope, FloorDiv(sec, rule.window))
  }

  /** What INCR returns: an expired key counts as absent. */
  function Incremented(redis: Counters, key: string, at: real): int {
    1 + if key in redis && at < redis[key].expiresAt then redis[key].count else 0
  }

  /** INCR then EXPIRE; a time to live that is not positive deletes the key. */
  function Bump(redis: Counters, key: string, at: real, ttl: int): Counters {
    if ttl <= 0 then redis - {key}
    else redis[key := Counter(Incremented(redis, key, at), at + ttl as real)]
  }

  /** The pipeline: two commands, hence two replies, per rule. */
  function Pipeline(redis: Counters, rules: seq<Rule>, sec: nat, at: real): (r: (Counters, seq<Reply>))
    requires Divisible(rules)
    ensures |r.1| == 2 * |rules|
  {
    if rules == [] then (redis, [])
    else
      var rule := rules[|rules| - 1];
      var (before, replies) := Pipeline(redis, rules[..|rules| - 1], sec, at);
      var key := KeyFor(rule, sec);
      (Bump(before, key, at, rule.window + SLACK), replies + [Count(Incremented(before, key, at)), Expiry])
  }

  /** Every other element, from the first. */
  function Stride(replies: seq<Reply>): seq<Reply> {
    if |replies| < 2 then replies else [replies[0]] + Stride(replies[2..])
  }

  /** Rules are judged in order; the first whose counter exceeds its limit refuses. */
  function Judge(rules: seq<Rule>, counts: seq<Reply>): Verdict
    requires |counts| == |rules|
  {
    if rules == [] then Pass
    else if counts[0].Count? && counts[0].value > rules[0].limit then Limited(rules[0].scope)
    else Judge(rules[1..], counts[1..])
  }

  /** The slice pairs each rule with the reply to its own INCR. */
  lemma {:induction false} StrideOfPairs(replies: seq<Reply>, n: nat)
    requires |replies| == 2 * n
    ensures |Stride(replies)| == n
    ensures forall i :: 0 <= i < n ==> Stride(replies)[i] == replies[2 * i]
  {
    if n == 0 {
    } else {
      StrideOfPairs(replies[2..], n - 1);
      forall i | 0 <= i < n
        ensures Stride(replies)[i] == replies[2 * i]
      {
        if i > 0 {
          assert Stride(replies)[i] == Stride(replies[2..])[i - 1];
          assert replies[2..][2 * (i - 1)] == replies[2 * i];
        }
      }
    }
  }

  function Check(redis: Counters, rules: seq<Rule>, sec: nat, at: real, fate: Fate): (Counters, Verdict) {
    if !Divisible(rules) then (redis, ZeroDivision)
    else
      var (after, replies) := Pipeline(redis, rules, sec, at);
      match fate
      case Answered => StrideOfPairs(replies, |rules|); (after, Judge(rules, Stride(replies)))
      case Unreachable => (redis, Unanswered(rules))
      case ReplyLost => (after, Unanswered(rules))
  }

  function Unanswered(rules: seq<Rule>): Verdict {
    if exists i :: 0 <= i < |rules| && rules[i].failClosed then DependencyDown else Pass
  }

  // ---- what the verdict means ----

  lemma {:induction false} JudgePass(rules: seq<Rule>, counts: seq<Reply>, i: nat)
    requires |counts| == |rules| && Judge(rules, counts) == Pass && i < |rules|
    ensures counts[i].Count? ==> counts[i].value <= rules[i].limit
  {
    if i == 0 {
    } else {
      JudgePass(rules[1..], counts[1..], i - 1);
    }
  }

  lemma {:induction false} PipelineReply(redis: Counters, rules: seq<Rule>, sec: nat, at: real, i: nat)
    requires Divisible(rules) && i < |rules|
    ensures var before := Pipeline(redis, rules[..i], sec, at).0;
            Pipeline(redis, rules, sec, at).1[2 * i] == Count(Incremented(before, KeyFor(rules[i], sec), at))
    decreases |rules|
  {
    var front := rules[..|rules| - 1];
    if i == |rules| - 1 {
    } else {
      assert front[..i] == rules[..i];
      PipelineReply(redis, front, sec, at, i);
    }
  }

  /** The first rule whose counter exceeds its limit refuses; if there is none the check passes. */
  lemma {:induction false} JudgeIsFirst(rules: seq<Rule>, counts: seq<Reply>)
    requires |counts| == |rules| && forall i :: 0 <= i < |counts| ==> counts[i].Count?
    ensures Judge(rules, counts) == Pass <==> forall i :: 0 <= i < |rules| ==> counts[i].value <= rules[i].limit
    ensures Judge(rules, counts) != Pass ==>
              exists i :: 0 <= i < |rules| && Judge(rules, counts) == Limited(rules[i].scope)
                          && counts[i].value > rules[i].limit
                          && forall j :: 0 <= j < i ==> counts[j].value <= rules[j].limit
  {
    if rules == [] {
    } else if counts[0].value > rules[0].limit {
      assert Judge(rules, counts) == Limited(rules[0].scope);
    } else {
      var rest, left := rules[1..], counts[1..];
      JudgeIsFirst(rest, left);
      assert forall i :: 0 < i < |rules| ==> rules[i] == rest[i - 1] && counts[i] == left[i - 1];
      if Judge(rest, left) == Pass {
        assert forall i :: 0 <= i < |rules| ==> counts[i].value <= rules[i].limit;
      } else {
        var k :| 0 <= k < |rest| && Judge(rest, left) == Limited(rest[k].scope) && left[k].value > rest[k].limit
                 && forall j :: 0 <= j < k ==> left[j].value <= rest[j].limit;
        assert rules[k + 1] == rest[k] && counts[k + 1] == left[k];
      }
    }
  }

  /** What the counter of rule i reads right after its increment. */
  function CountFor(redis: Counters, rules: seq<Rule>, sec: nat, at: real, i: nat): int
    requires Divisible(rules) && i < |rules|
  {
    Incremented(Pipeline(redis, rules[..i], sec, at).0, KeyFor(rules[i], sec), at)
  }

  /** An answered check passes if and only if no rule's counter exceeds its limit, and otherwise
      names the first rule whose counter does. */
  lemma {:induction false} VerdictAnswered(redis: Counters, rules: seq<Rule>, sec: nat, at: real)
    requires Divisible(rules)
    ensures var v := Check(redis, rules, sec, at, Answered).1;
            && (v == Pass <==> forall i :: 0 <= i < |rules| ==> CountFor(redis, rules, sec, at, i) <= rules[i].limit)
            && (v != Pass ==>
                  exists i :: 0 <= i < |rules| && v == Limited(rules[i].scope)
                              && CountFor(redis, rules, sec, at, i) > rules[i].limit
                              && forall j :: 0 <= j < i ==> CountFor(redis, rules, sec, at, j) <= rules[j].limit)
  {
    var replies := Pipeline(redis, rules, sec, at).1;
    StrideOfPairs(replies, |rules|);
    forall i | 0 <= i < |rules|
      ensures Stride(replies)[i] == Count(CountFor(redis, rules, sec, at, i))
    {
      PipelineReply(redis, rules, sec, at, i);
    }
    JudgeIsFirst(rules, Stride(replies));
  }

  /** A check that is not answered is refused as unavailable if and only if one of its rules fails
      closed, and passes otherwise; a zero window raises, whatever becomes of the commands. */
  lemma {:induction false} VerdictUnanswered(redis: Counters, rules: seq<Rule>, sec: nat, at: real, fate: Fate)
    ensures var v := Check(redis, rules, sec, at, fate).1;
            && (v == ZeroDivision <==> exists i :: 0 <= i < |rules| && rules[i].window == 0)
            && (v != ZeroDivision && fate != Answered ==>
                  && (v == DependencyDown <==> exists i :: 0 <= i < |rules| && rules[i].failClosed)
                  && (v == Pass <==> forall i :: 0 <= i < |rules| ==> !rules[i].failClosed))
  {
    if Divisible(rules) && fate == Answered {
      VerdictAnswered(redis, rules, sec, at);
    }
  }

  class RedisRateLimiter {
    const server: RedisServer<Counter>
    const enabled: bool

    constructor (server: RedisServer<Counter>, enabled: bool)
      ensures this.server == server && this.enabled == enabled
    {
      this.server, this.enabled := server, enabled;
    }

    method CheckRules(rules: seq<Rule>, sec: nat, at: real, fate: Fate) returns (v: Verdict)
      modifies server
      ensures !enabled ==> v == Pass && server.entries == old(server.entries)
      ensures enabled ==> (server.entries, v) == Check(old(server.entries), rules, sec, at, fate)
    {
      if !enabled {
        return Pass;
      }
      var keys: seq<string> := [];
      for i := 0 to |rules|
        invariant |keys| == i && forall j :: 0 <= j < i ==> rules[j].window != 0 && keys[j] == KeyFor(rules[j], sec)
      {
        if rules[i].window == 0 {
          return ZeroDivision;
        }
        keys := keys + [KeyFor(rules[i], sec)];
      }
      if fate == Unreachable {
        return Unanswered(rules);
      }
      var replies := Execute(rules, keys, sec, at);
      if fate == ReplyLost {
        return Unanswered(rules);
      }
      StrideOfPairs(replies, |rules|);
      v := JudgeAll(rules, Stride(replies));
    }

    /** The server's side of the pipeline. */
    method Execute(rules: seq<Rule>, keys: seq<string>, sec: nat, at: real) returns (replies: seq<Reply>)
      requires Divisible(rules) && |keys| == |rules|
      requires forall j :: 0 <= j < |rules| ==> keys[j] == KeyFor(rules[j], sec)
      modifies server
      ensures (server.entries, replies) == Pipeline(old(server.entries), rules, sec, at)
    {
      replies := [];
      for i := 0 to |rules|
        invariant (server.entries, replies) == Pipeline(old(server.entries), rules[..i], sec, at)
      {
        assert rules[..i + 1][..i] == rules[..i];
        var count := Incremented(server.entries, keys[i], at);
        server.entries := Bump(server.entries, keys[i], at, rules[i].window + SLACK);
        replies := replies + [Count(count), Expiry];
      }
      assert rules[..|rules|] == rules;
    }

    method JudgeAll(rules: seq<Rule>, values: seq<Reply>) returns (v: Verdict)
      requires |values| == |rules|
      ensures v == Judge(rules, values)
    {
      for i := 0 to |rules|
        invariant Judge(rules, values) == Judge(rules[i..], values[i..])
      {
        if values[i].Count? && values[i].value > rules[i].limit {
          return Limited(rules[i].scope);
        }
      }
      v := Pass;
    }
  }
}
