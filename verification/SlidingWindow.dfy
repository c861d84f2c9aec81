/** The in-process rate limiter: a pruned deque of grant times per identity. */
module SlidingWindow {

  const WINDOW := 60.0

  /** Drops grants from the left while they are a full window old. */
  function Prune(window: seq<real>, now: real): seq<real> {
    if window != [] && now - window[0] >= WINDOW then Prune(window[1..], now) else window
  }

  function Decide(limit: int, window: seq<real>, now: real): (seq<real>, bool) {
    var recent := Prune(window, now);
    if |recent| >= limit then (recent, false) else (recent + [now], true)
  }

  class RateLimiter {
    const limitPerMinute: int
    var windows: map<string, seq<real>>

    constructor (limitPerMinute: int)
      ensures this.limitPerMinute == limitPerMinute && windows == map[]
    {
      this.limitPerMinute, windows := limitPerMinute, map[];
    }

    function WindowOf(identity: string): seq<real>
      reads this
    {
      if identity in windows then windows[identity] else []
    }

    method Allow(identity: string, now: real) returns (ok: bool)
      modifies this
      ensures (WindowOf(identity), ok) == Decide(limitPerMinute, old(WindowOf(identity)), now)
      ensures forall other :: other != identity ==> WindowOf(other) == old(WindowOf(other))
    {
      var window := WindowOf(identity);
      while window != [] && now - window[0] >= WINDOW
        invariant Prune(window, now) == Prune(old(WindowOf(identity)), now)
        decreases |window|
      {
        window := window[1..];
      }
      ok := |window| < limitPerMinute;
      if ok {
        window := window + [now];
      }
      windows := windows[identity := window];
    }
  }

  // ---- one identity's requests, against the full history ----

  ghost predicate NonDecreasing(s: seq<real>) {
    forall i, j :: 0 <= i < j < |s| ==> s[i] <= s[j]
  }

  /** The deque after a sequence of requests, and all grants ever made. */
  function Limiter(limit: int, times: seq<real>): (r: (seq<real>, seq<real>)) {
    if times == [] then ([], [])
    else
      var (window, grants) := Limiter(limit, times[..|times| - 1]);
      var now := times[|times| - 1];
      var (window', ok) := Decide(limit, window, now);
      (window', if ok then grants + [now] else grants)
  }

  /** The grants less than a window old. */
  function Recent(grants: seq<real>, now: real): seq<real> {
    if grants == [] then []
    else Recent(grants[..|grants| - 1], now) + if now - grants[|grants| - 1] < 60.0 then [grants[|grants| - 1]]
        else []
  }

  lemma {:induction false} RecentConcat(a: seq<real>, b: seq<real>, now: real)
    ensures Recent(a + b, now) == Recent(a, now) + Recent(b, now)
  {
    if b == [] {
      assert a + b == a;
    } else {
      assert (a + b)[..|a + b| - 1] == a + b[..|b| - 1];
      RecentConcat(a, b[..|b| - 1], now);
    }
  }

  lemma {:induction false} RecentOne(x: real, now: real)
    ensures Recent([x], now) == if now - x < WINDOW then [x] else []
  {
    assert [x][..0] == [];
  }

  lemma {:induction false} RecentAll(s: seq<real>, now: real)
    requires forall i :: 0 <= i < |s| ==> now - s[i] < WINDOW
    ensures Recent(s, now) == s
  {
    if s == [] {
    } else {
      RecentAll(s[..|s| - 1], now);
      assert s == s[..|s| - 1] + [s[|s| - 1]];
    }
  }

  /** On an ordered deque, popping from the left leaves exactly the recent grants. */
  lemma {:induction false} PruneIsRecent(s: seq<real>, now: real)
    requires NonDecreasing(s)
    ensures Prune(s, now) == Recent(s, now)
  {
    if s != [] && now - s[0] >= WINDOW {
      PruneIsRecent(s[1..], now);
      assert s == [s[0]] + s[1..];
      RecentConcat([s[0]], s[1..], now);
      RecentOne(s[0], now);
    } else {
      RecentAll(s, now);
    }
  }

  lemma {:induction false} RecentOfRecent(s: seq<real>, earlier: real, now: real)
    requires earlier <= now
    ensures Recent(Recent(s, earlier), now) == Recent(s, now)
  {
    if s == [] {
    } else {
      var front, x := s[..|s| - 1], s[|s| - 1];
      RecentOfRecent(front, earlier, now);
      var r := Recent(front, earlier);
      assert r + [] == r && Recent(front, now) + [] == Recent(front, now);
      if earlier - x < WINDOW {
        RecentConcat(Recent(front, earlier), [x], now);
        RecentOne(x, now);
      }
    }
  }

  lemma {:induction false} RecentBounds(s: seq<real>, now: real, top: real)
    requires NonDecreasing(s) && forall i :: 0 <= i < |s| ==> s[i] <= top
    ensures NonDecreasing(Recent(s, now)) && forall i :: 0 <= i < |Recent(s, now)| ==> Recent(s, now)[i] <= top
  {
    if s == [] {
    } else {
      RecentBounds(s[..|s| - 1], now, s[|s| - 1]);
    }
  }

  /** The deque is ordered, holds nothing later than the last request, and agrees with the full
      history about every later moment. */
  ghost predicate Faithful(window: seq<real>, grants: seq<real>, last: real) {
    && NonDecreasing(window)
    && (forall i :: 0 <= i < |window| ==> window[i] <= last)
    && forall t: real :: t >= last ==> Recent(window, t) == Recent(grants, t)
  }

  lemma {:induction false} FaithfulStep(limit: int, window: seq<real>, grants: seq<real>, last: real, now: real)
    requires Faithful(window, grants, last) && last <= now
    ensures var (window', ok) := Decide(limit, window, now);
            Faithful(window', if ok then grants + [now] else grants, now)
    ensures Decide(limit, window, now).1 <==> |Recent(grants, now)| < limit
  {
    PruneIsRecent(window, now);
    RecentBounds(window, now, last);
    var recent := Recent(window, now);
    var (window', ok) := Decide(limit, window, now);
    forall t: real | t >= now
      ensures Recent(window', t) == Recent(if ok then grants + [now] else grants, t)
    {
      RecentOfRecent(window, now, t);
      RecentConcat(recent, [now], t);
      RecentConcat(grants, [now], t);
    }
  }

  /** With a clock that never runs backwards, the pruned deque decides as the full history
      would: a request is granted exactly when fewer than `limit` grants lie in the last 60
      seconds. */
  lemma {:induction false} DequeIsExact(limit: int, times: seq<real>, now: real)
    requires NonDecreasing(times + [now])
    ensures var (window, grants) := Limiter(limit, times);
            && Faithful(window, grants, now)
            && (Decide(limit, window, now).1 <==> |Recent(grants, now)| < limit)
  {
    var (window, grants) := Limiter(limit, times);
    if times == [] {
    } else {
      var front, last := times[..|times| - 1], times[|times| - 1];
      assert times + [now] == front + [last, now];
      assert NonDecreasing(front + [last]) by {
        assert forall i :: 0 <= i <= |front| ==> (front + [last])[i] == (times + [now])[i];
      }
      assert last <= now by {
        assert (times + [now])[|front|] == last && (times + [now])[|times|] == now;
      }
      DequeIsExact(limit, front, last);
      var (w, g) := Limiter(limit, front);
      FaithfulStep(limit, w, g, last, last);
      assert Faithful(window, grants, last);
    }
    FaithfulStep(limit, window, grants, now, now);
  }

  // ---- the bound ----

  /** Grants in the half-open interval of one window length that starts at `from`. */
  function CountFrom(grants: seq<real>, from: real): nat {
    if grants == [] then 0
    else CountFrom(grants[..|grants| - 1], from) + if from <= grants[|grants| - 1] < from + 60.0 then 1 else 0
  }

  lemma {:induction false} IntervalIsRecent(grants: seq<real>, from: real, now: real)
    requires from <= now < from + WINDOW
    ensures CountFrom(grants, from) <= |Recent(grants, now)|
  {
    if grants == [] {
    } else {
      IntervalIsRecent(grants[..|grants| - 1], from, now);
    }
  }

  /** No half-open 60-second interval, wherever it starts, holds more than `limit` grants. */
  lemma {:induction false} NoIntervalExceedsLimit(limit: int, times: seq<real>, from: real)
    requires NonDecreasing(times)
    ensures CountFrom(Limiter(limit, times).1, from) <= if limit < 0 then 0 else limit
  {
    if times == [] {
    } else {
      var front, now := times[..|times| - 1], times[|times| - 1];
      assert times == front + [now];
      NoIntervalExceedsLimit(limit, front, from);
      DequeIsExact(limit, front, now);
      var grants, grants' := Limiter(limit, front).1, Limiter(limit, times).1;
      if grants' != grants {
        assert grants'[..|grants'| - 1] == grants;
        if from <= now < from + WINDOW {
          IntervalIsRecent(grants, from, now);
        }
      }
    }
  }
}
