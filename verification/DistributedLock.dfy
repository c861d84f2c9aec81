/** The Redis lock: SET NX with a time to live, and a release that checks the owner.
    Times are whole milliseconds of the server's clock. */
module DistributedLock {
  import opened RedisModel

  datatype Entry = Entry(owner: string, expiresAt: int)

  type Locks = map<string, Entry>

  function KeyOf(name: string): string { "lock:" + name }

  lemma {:induction false} KeyInjective(a: string, b: string)
    requires KeyOf(a) == KeyOf(b)
    ensures a == b
  {
    assert KeyOf(a)[5..] == a && KeyOf(b)[5..] == b;
  }

  predicate Live(redis: Locks, key: string, at: int) {
    key in redis && at < redis[key].expiresAt
  }

  /** SET key owner NX PX ttl; a time to live that is not positive is refused. */
  function SetIfAbsent(redis: Locks, name: string, owner: string, ttl: int, at: int): (Locks, bool) {
    if ttl <= 0 || Live(redis, KeyOf(name), at) then (redis, false)
    else (redis[KeyOf(name) := Entry(owner, at + ttl)], true)
  }

  /** The release script: delete only one's own key. */
  function DeleteIfOwner(redis: Locks, name: string, owner: string, at: int): (Locks, bool) {
    if Live(redis, KeyOf(name), at) && redis[KeyOf(name)].owner == owner then (redis - {KeyOf(name)}, true)
    else (redis, false)
  }

  // ---- the client ----

  /** Attempt k as its client meets it: the fate of its command, what the other clients have left
      at the server by then, the server's time, and the client's own clock afterwards. */
  datatype Moment = Moment(fate: Fate, redis: Locks, at: int, clock: int)

  datatype Acquired = Handle(name: string, owner: string, ttl: int) | Conflict | DependencyDown

  datatype Released = Answer(deleted: bool) | ReleaseFailed

  /** The attempt finds the lock taken, and there is time for another. */
  predicate TriesAgain(m: Moment, name: string, ttl: int, deadline: int) {
    m.fate == Answered && ttl > 0 && Live(m.redis, KeyOf(name), m.at) && m.clock < deadline
  }

  class RedisDistributedLock {
    const server: RedisServer<Entry>

    constructor (server: RedisServer<Entry>)
      ensures this.server == server
    {
      this.server := server;
    }

    /** Retries until granted, until Redis fails, or until an attempt that finds the lock taken
        ends at or past the deadline, pausing for `retry` after every other one. A command whose
        reply is lost has still run. All that is asked of the client's clock is that it reaches
        the deadline some time. */
    method Acquire(name: string, owner: string, ttl: int, start: int, timeout: int, retry: nat, moments: nat -> Moment)
      returns (r: Acquired, attempts: nat, slept: nat)
      requires exists n: nat :: moments(n).clock >= start + timeout
      modifies server
      ensures slept == attempts * retry
      ensures forall j: nat :: j < attempts ==> TriesAgain(moments(j), name, ttl, start + timeout)
      ensures !TriesAgain(moments(attempts), name, ttl, start + timeout)
      ensures var m := moments(attempts);
              var (after, free) := SetIfAbsent(m.redis, name, owner, ttl, m.at);
              && server.entries == (if m.fate == Unreachable then m.redis else after)
              && r == (if m.fate != Answered || ttl <= 0 then DependencyDown
                       else if free then Handle(name, owner, ttl)
                       else Conflict)
    {
      var deadline := start + timeout;
      ghost var last: nat :| moments(last).clock >= deadline;
      attempts, slept := 0, 0;
      while true
        invariant attempts <= last && slept == attempts * retry
        invariant forall j: nat :: j < attempts ==> TriesAgain(moments(j), name, ttl, deadline)
        decreases last - attempts
      {
        var m := moments(attempts);
        server.entries := m.redis;
        if m.fate == Unreachable {
          return DependencyDown, attempts, slept;
        }
        var (after, ok) := SetIfAbsent(m.redis, name, owner, ttl, m.at);
        server.entries := after;
        if m.fate == ReplyLost || ttl <= 0 {
          return DependencyDown, attempts, slept;
        }
        if ok {
          return Handle(name, owner, ttl), attempts, slept;
        }
        if m.clock >= deadline {
          return Conflict, attempts, slept;
        }
        attempts, slept := attempts + 1, slept + retry;
      }
    }

    method Release(name: string, owner: string, at: int, fate: Fate) returns (r: Released)
      modifies server
      ensures fate == Unreachable ==> server.entries == old(server.entries)
      ensures fate != Unreachable ==> server.entries == DeleteIfOwner(old(server.entries), name, owner, at).0
      ensures r == if fate == Answered then Answer(DeleteIfOwner(old(server.entries), name, owner, at).1)
          else ReleaseFailed
    {
      if fate == Unreachable {
        return ReleaseFailed;
      }
      var key := KeyOf(name);
      var ok := key in server.entries && at < server.entries[key].expiresAt && server.entries[key].owner == owner;
      if ok {
        server.entries := server.entries - {key};
      }
      r := if fate == ReplyLost then ReleaseFailed else Answer(ok);
    }
  }

  // ---- runs of any number of clients ----

  /** Commands that reach the server. One whose reply is lost acts like any other: a grant that
      its client never hears of, or a release that it cannot confirm. */
  datatype Op =
    | TryAcquire(name: string, owner: string, ttl: int, at: int)
    | Release(handle: nat, at: int)

  /** A granted handle, numbered in the order of granting. */
  datatype Grant = Grant(name: string, owner: string, at: int, ttl: int, released: bool)

  datatype World = World(redis: Locks, grants: seq<Grant>, clock: int)

  function Do(w: World, op: Op): World {
    match op
    case TryAcquire(name, owner, ttl, at) =>
      var (redis, ok) := SetIfAbsent(w.redis, name, owner, ttl, at);
      World(redis, if ok then w.grants + [Grant(name, owner, at, ttl, false)] else w.grants, at)
    case Release(h, at) =>
      if h >= |w.grants| then w.(clock := at)
      else
        var (redis, ok) := DeleteIfOwner(w.redis, w.grants[h].name, w.grants[h].owner, at);
        World(redis, if ok then w.grants[h := w.grants[h].(released := true)] else w.grants, at)
  }

  const START := World(map[], [], 0)

  ghost function Run(w: World, ops: seq<Op>): World {
    if ops == [] then w else Do(Run(w, ops[..|ops| - 1]), ops[|ops| - 1])
  }

  /** The lock was granted before with this owner token. */
  predicate Used(w: World, name: string, owner: string) {
    exists i :: 0 <= i < |w.grants| && w.grants[i].name == name && w.grants[i].owner == owner
  }

  /** Time never runs backwards, and no owner token is used twice for a lock. */
  ghost predicate Legal(w: World, ops: seq<Op>) {
    ops == [] ||
    var before, op := Run(w, ops[..|ops| - 1]), ops[|ops| - 1];
    && Legal(w, ops[..|ops| - 1])
    && op.at >= before.clock
    && (op.TryAcquire? ==> !Used(before, op.name, op.owner))
  }

  /** The holder of this handle may believe it has the lock at time t. */
  predicate Holds(g: Grant, t: int) {
    !g.released && t < g.at + g.ttl
  }

  /** Every handle that may still hold is the one recorded at the server. */
  ghost predicate Recorded(w: World) {
    forall i :: 0 <= i < |w.grants| && Holds(w.grants[i], w.clock) ==> AtServer(w.redis, w.grants[i])
  }

  predicate AtServer(redis: Locks, g: Grant) {
    KeyOf(g.name) in redis && redis[KeyOf(g.name)] == Entry(g.owner, g.at + g.ttl)
  }

  /** Every entry at the server is some unreleased handle's. */
  ghost predicate Backed(w: World) {
    forall key :: key in w.redis ==> exists i :: 0 <= i < |w.grants| && Backs(w.grants[i], key, w.redis[key])
  }

  /** The grant put this entry there and has not released it. */
  predicate Backs(g: Grant, key: string, e: Entry) {
    KeyOf(g.name) == key && e == Entry(g.owner, g.at + g.ttl) && !g.released
  }

  lemma {:induction false} StepKeepsBacked(w: World, op: Op)
    requires Backed(w)
    ensures Backed(Do(w, op))
  {
    var w' := Do(w, op);
    forall key | key in w'.redis
      ensures exists i :: 0 <= i < |w'.grants| && Backs(w'.grants[i], key, w'.redis[key])
    {
      if key in w.redis && w'.redis[key] == w.redis[key] {
        var i :| 0 <= i < |w.grants| && Backs(w.grants[i], key, w.redis[key]);
        assert Backs(w'.grants[i], key, w'.redis[key]);
      } else {
        assert Backs(w'.grants[|w.grants|], key, w'.redis[key]);
      }
    }
  }

  /** Whatever tokens are used, and whatever the clock does. */
  lemma {:induction false} RunsAreBacked(ops: seq<Op>)
    ensures Backed(Run(START, ops))
  {
    if ops == [] {
    } else {
      RunsAreBacked(ops[..|ops| - 1]);
      StepKeepsBacked(Run(START, ops[..|ops| - 1]), ops[|ops| - 1]);
    }
  }

  /** Any grant, with whatever token, is made only when no recorded handle holds. */
  lemma {:induction false} AcquireKeepsRecorded(w: World, op: Op)
    requires Recorded(w) && op.TryAcquire? && op.at >= w.clock
    ensures Recorded(Do(w, op))
  {
    var w' := Do(w, op);
    forall i | 0 <= i < |w'.grants| && Holds(w'.grants[i], op.at)
      ensures AtServer(w'.redis, w'.grants[i])
    {
      if i < |w.grants| {
        assert AtServer(w.redis, w.grants[i]);
        if KeyOf(w.grants[i].name) == KeyOf(op.name) {
          assert Live(w.redis, KeyOf(op.name), op.at);
        }
      }
    }
  }

  // ---- exclusion for good ----

  ghost predicate AtMostOneHolder(w: World) {
    forall i, j :: 0 <= i < |w.grants| && 0 <= j < |w.grants| && BothHold(w.grants[i], w.grants[j], w.clock) ==> i == j
  }

  predicate BothHold(g: Grant, h: Grant, t: int) {
    g.name == h.name && Holds(g, t) && Holds(h, t)
  }

  /** Every legal continuation, of any length, has at most one holder per lock. */
  ghost predicate ExclusiveForGood(w: World) {
    forall ops: seq<Op> :: Legal(w, ops) ==> AtMostOneHolder(Run(w, ops))
  }

  /** No handle shares lock and token with one that holds. */
  ghost predicate Twinless(w: World) {
    forall i, j :: 0 <= i < |w.grants| && 0 <= j < |w.grants| && i != j && Holds(w.grants[i], w.clock) ==>
                     !Twins(w.grants[i], w.grants[j])
  }

  predicate Twins(g: Grant, h: Grant) {
    g.name == h.name && g.owner == h.owner
  }

  lemma {:induction false} OneHolder(w: World)
    requires Recorded(w) && Twinless(w)
    ensures AtMostOneHolder(w)
  {
    forall i, j | 0 <= i < |w.grants| && 0 <= j < |w.grants| && BothHold(w.grants[i], w.grants[j], w.clock)
      ensures i == j
    {
      assert AtServer(w.redis, w.grants[i]) && AtServer(w.redis, w.grants[j]);
      assert Twins(w.grants[i], w.grants[j]);
    }
  }

  lemma {:induction false} ReleaseKeepsRecorded(w: World, op: Op)
    requires Recorded(w) && Twinless(w) && op.Release? && op.at >= w.clock
    ensures Recorded(Do(w, op)) && Twinless(Do(w, op))
  {
    var w' := Do(w, op);
    if op.handle < |w.grants| {
      var g := w.grants[op.handle];
      forall i | 0 <= i < |w'.grants| && Holds(w'.grants[i], op.at)
        ensures AtServer(w'.redis, w'.grants[i])
      {
        assert AtServer(w.redis, w.grants[i]);
        if KeyOf(w.grants[i].name) == KeyOf(g.name) {
          KeyInjective(w.grants[i].name, g.name);
          assert i != op.handle ==> !Twins(w.grants[i], g);
        }
      }
    }
  }

  lemma {:induction false} LegalKeepsExclusion(w: World, ops: seq<Op>)
    requires Recorded(w) && Twinless(w) && Legal(w, ops)
    ensures Recorded(Run(w, ops)) && Twinless(Run(w, ops))
  {
    if ops == [] {
    } else {
      var front, op := ops[..|ops| - 1], ops[|ops| - 1];
      LegalKeepsExclusion(w, front);
      if op.TryAcquire? {
        AcquireKeepsRecorded(Run(w, front), op);
        GrantTwinlessIff(Run(w, front), op);
      } else {
        ReleaseKeepsRecorded(Run(w, front), op);
      }
    }
  }

  /** There is always a token that nobody has used. */
  lemma {:induction false} FreshToken(grants: seq<Grant>) returns (token: string)
    ensures forall i :: 0 <= i < |grants| ==> |grants[i].owner| < |token|
  {
    token := "x";
    if grants == [] {
    } else {
      var shorter := FreshToken(grants[..|grants| - 1]);
      token := shorter + grants[|grants| - 1].owner + "x";
    }
  }

  /** A handle that holds while its lock is free at the server is doomed: the next client gets
      the lock as well. */
  lemma {:induction false} FreeLockBreaks(w: World, i: nat)
    requires i < |w.grants| && Holds(w.grants[i], w.clock) && !Live(w.redis, KeyOf(w.grants[i].name), w.clock)
    ensures !ExclusiveForGood(w)
  {
    var token := FreshToken(w.grants);
    var op := TryAcquire(w.grants[i].name, token, 1, w.clock);
    RunOne(w, op);
    var w' := Run(w, [op]);
    assert Legal(w, [op]) by {
      assert Legal(w, [op][..0]);
    }
    assert BothHold(w'.grants[i], w'.grants[|w.grants|], w'.clock);
    assert !AtMostOneHolder(w');
  }

  lemma {:induction false} RunOne(w: World, op: Op)
    ensures [op][..0] == [] && Run(w, []) == w && Run(w, [op]) == Do(w, op)
  {
    assert [op][..0] == [];
  }

  lemma {:induction false} RunOneMore(w: World, op: Op, ops: seq<Op>)
    ensures Run(w, [op] + ops) == Run(Do(w, op), ops)
    ensures Legal(w, [op] + ops) <==> Legal(w, [op]) && Legal(Do(w, op), ops)
  {
    RunOne(w, op);
    if ops == [] {
      assert [op] + ops == [op];
    } else {
      var all := [op] + ops;
      assert all[..|all| - 1] == [op] + ops[..|ops| - 1];
      RunOneMore(w, op, ops[..|ops| - 1]);
    }
  }

  lemma {:induction false} ExclusiveAfter(w: World, op: Op)
    requires ExclusiveForGood(w) && Legal(w, [op])
    ensures ExclusiveForGood(Do(w, op))
  {
    forall ops: seq<Op> | Legal(Do(w, op), ops)
      ensures AtMostOneHolder(Run(Do(w, op), ops))
    {
      RunOneMore(w, op, ops);
    }
  }

  lemma {:induction false} UnrecordedBreaks(w: World, i: nat)
    requires Backed(w) && i < |w.grants| && Holds(w.grants[i], w.clock) && !AtServer(w.redis, w.grants[i])
    ensures !ExclusiveForGood(w)
  {
    var key := KeyOf(w.grants[i].name);
    if Live(w.redis, key, w.clock) {
      var k :| 0 <= k < |w.grants| && Backs(w.grants[k], key, w.redis[key]);
      KeyInjective(w.grants[k].name, w.grants[i].name);
      assert Legal(w, []) && Run(w, []) == w;
      assert BothHold(w.grants[i], w.grants[k], w.clock);
      assert !AtMostOneHolder(w);
    } else {
      FreeLockBreaks(w, i);
    }
  }

  /** The twin of a holder breaks the lock by releasing it. */
  lemma {:induction false} TwinBreaks(w: World, i: nat, j: nat)
    requires Recorded(w) && i < |w.grants| && j < |w.grants| && i != j
    requires Holds(w.grants[i], w.clock) && Twins(w.grants[i], w.grants[j])
    ensures !ExclusiveForGood(w)
  {
    var op := Release(j, w.clock);
    assert AtServer(w.redis, w.grants[i]);
    RunOne(w, op);
    assert Legal(w, [op]) by {
      assert Legal(w, [op][..0]);
    }
    FreeLockBreaks(Do(w, op), i);
    if ExclusiveForGood(w) {
      ExclusiveAfter(w, op);
    }
  }

  /** Exclusion is permanent exactly when every holder is recorded and has no twin: after any run
      whatever, with tokens reused at will, every legal continuation has at most one holder per
      lock if and only if each handle that holds is the one at the server and no other handle
      has its token. */
  lemma {:induction false} ExclusionIsPermanentIff(ops: seq<Op>)
    ensures var w := Run(START, ops);
            ExclusiveForGood(w) <==> Recorded(w) && Twinless(w)
  {
    var w := Run(START, ops);
    RunsAreBacked(ops);
    if Recorded(w) && Twinless(w) {
      forall more: seq<Op> | Legal(w, more)
        ensures AtMostOneHolder(Run(w, more))
      {
        LegalKeepsExclusion(w, more);
        OneHolder(Run(w, more));
      }
    } else if !Recorded(w) {
      var i :| 0 <= i < |w.grants| && Holds(w.grants[i], w.clock) && !AtServer(w.redis, w.grants[i]);
      UnrecordedBreaks(w, i);
    } else {
      var i, j :| 0 <= i < |w.grants| && 0 <= j < |w.grants| && i != j && Holds(w.grants[i], w.clock)
          && Twins(w.grants[i], w.grants[j]);
      TwinBreaks(w, i, j);
    }
  }

  lemma {:induction false} GrantTwinlessIff(w: World, op: Op)
    requires Recorded(w) && Twinless(w) && op.TryAcquire? && op.at >= w.clock
    ensures Twinless(Do(w, op)) <==>
            !(SetIfAbsent(w.redis, op.name, op.owner, op.ttl, op.at).1 && Used(w, op.name, op.owner))
  {
    var w', n := Do(w, op), |w.grants|;
    if SetIfAbsent(w.redis, op.name, op.owner, op.ttl, op.at).1 && Used(w, op.name, op.owner) {
      var j :| 0 <= j < n && w.grants[j].name == op.name && w.grants[j].owner == op.owner;
      assert Twins(w'.grants[n], w'.grants[j]) && Holds(w'.grants[n], w'.clock);
    } else {
      forall i, j | 0 <= i < |w'.grants| && 0 <= j < |w'.grants| && i != j && Holds(w'.grants[i], w'.clock)
        ensures !Twins(w'.grants[i], w'.grants[j])
      {
        if i < n {
          assert AtServer(w.redis, w.grants[i]);
          assert j < n ==> !Twins(w.grants[i], w.grants[j]);
        }
      }
    }
  }

  /** Which token a client may use: where exclusion is permanent so far, it stays so after an
      attempt to acquire if and only if the attempt is not granted, or its token is new to the
      lock. */
  lemma {:induction false} TokenMayBeUsedIff(ops: seq<Op>, name: string, owner: string, ttl: int, at: int)
    requires ExclusiveForGood(Run(START, ops)) && at >= Run(START, ops).clock
    ensures var w := Run(START, ops);
            ExclusiveForGood(Do(w, TryAcquire(name, owner, ttl, at))) <==>
            (SetIfAbsent(w.redis, name, owner, ttl, at).1 ==> !Used(w, name, owner))
  {
    var w, op := Run(START, ops), TryAcquire(name, owner, ttl, at);
    assert (ops + [op])[..|ops + [op]| - 1] == ops;
    assert Run(START, ops + [op]) == Do(w, op);
    ExclusionIsPermanentIff(ops);
    ExclusionIsPermanentIff(ops + [op]);
    AcquireKeepsRecorded(w, op);
    GrantTwinlessIff(w, op);
  }

  // ---- legal runs ----

  /** Owners are distinct, and a released handle's entry is gone for good. */
  ghost predicate Orderly(w: World) {
    && (forall i, j :: 0 <= i < j < |w.grants| ==> !Twins(w.grants[i], w.grants[j]))
    && (forall i :: 0 <= i < |w.grants| && w.grants[i].released && KeyOf(w.grants[i].name) in w.redis ==>
          w.redis[KeyOf(w.grants[i].name)].owner != w.grants[i].owner)
  }

  lemma {:induction false} StepKeepsOrderly(w: World, op: Op)
    requires Orderly(w) && (op.TryAcquire? ==> !Used(w, op.name, op.owner))
    ensures Orderly(Do(w, op))
  {
    var name := if op.TryAcquire? then op.name else if op.handle < |w.grants| then w.grants[op.handle].name else "";
    forall i | 0 <= i < |w.grants| && KeyOf(w.grants[i].name) == KeyOf(name)
      ensures w.grants[i].name == name
    {
      KeyInjective(w.grants[i].name, name);
    }
  }

  /** In every legal run each handle that holds is the one at the server, every entry there has
      an unreleased handle, and no two handles of a lock have the same token. */
  lemma {:induction false} RunKeepsInv(ops: seq<Op>)
    requires Legal(START, ops)
    ensures Recorded(Run(START, ops)) && Backed(Run(START, ops)) && Orderly(Run(START, ops))
  {
    RunsAreBacked(ops);
    LegalKeepsExclusion(START, ops);
    if ops == [] {
    } else {
      RunKeepsInv(ops[..|ops| - 1]);
      StepKeepsOrderly(Run(START, ops[..|ops| - 1]), ops[|ops| - 1]);
    }
  }

  /** Mutual exclusion: at any moment at or after the last step of any legal run, at most one
      handle of a lock is unreleased and unexpired. */
  lemma {:induction false} MutualExclusion(ops: seq<Op>, t: int, i: nat, j: nat)
    requires Legal(START, ops) && t >= Run(START, ops).clock
    requires i < |Run(START, ops).grants| && j < |Run(START, ops).grants|
    requires Run(START, ops).grants[i].name == Run(START, ops).grants[j].name
    requires Holds(Run(START, ops).grants[i], t) && Holds(Run(START, ops).grants[j], t)
    ensures i == j
  {
    LegalKeepsExclusion(START, ops);
    OneHolder(Run(START, ops));
    assert BothHold(Run(START, ops).grants[i], Run(START, ops).grants[j], Run(START, ops).clock);
  }

  /** The entry at the server is the handle's exactly while the handle holds. */
  lemma {:induction false} LiveIsHeld(w: World, h: nat, at: int)
    requires Recorded(w) && Backed(w) && Orderly(w) && h < |w.grants| && at >= w.clock
    ensures var g := w.grants[h];
            Live(w.redis, KeyOf(g.name), at) && w.redis[KeyOf(g.name)].owner == g.owner <==> Holds(g, at)
  {
    var g := w.grants[h];
    if Live(w.redis, KeyOf(g.name), at) && w.redis[KeyOf(g.name)].owner == g.owner {
      var i :| 0 <= i < |w.grants| && Backs(w.grants[i], KeyOf(g.name), w.redis[KeyOf(g.name)]);
      KeyInjective(w.grants[i].name, g.name);
      assert Twins(w.grants[i], g) && Twins(g, w.grants[i]);
    }
    if Holds(g, at) {
      assert AtServer(w.redis, g);
    }
  }

  /** A release takes effect exactly while its own handle holds: never for a stale handle, never
      a second time, and never on another handle's lock. */
  lemma {:induction false} ReleaseIsOwn(ops: seq<Op>, h: nat, at: int)
    requires Legal(START, ops) && at >= Run(START, ops).clock && h < |Run(START, ops).grants|
    ensures var w := Run(START, ops);
            var g := w.grants[h];
            var (redis, ok) := DeleteIfOwner(w.redis, g.name, g.owner, at);
            && (ok <==> Holds(g, at))
            && forall i :: 0 <= i < |w.grants| && i != h && Holds(w.grants[i], at) ==> AtServer(redis, w.grants[i])
  {
    RunKeepsInv(ops);
    var w := Run(START, ops);
    var g := w.grants[h];
    LiveIsHeld(w, h, at);
    forall i | 0 <= i < |w.grants| && i != h && Holds(w.grants[i], at)
      ensures AtServer(DeleteIfOwner(w.redis, g.name, g.owner, at).0, w.grants[i])
    {
      assert AtServer(w.redis, w.grants[i]);
      if KeyOf(w.grants[i].name) == KeyOf(g.name) {
        KeyInjective(w.grants[i].name, g.name);
        assert !Twins(w.grants[if i < h then i else h], w.grants[if i < h then h else i]);
      }
    }
  }

  /** An attempt to acquire, with a time to live, is granted exactly when no handle of that lock
      holds. */
  lemma {:induction false} GrantedExactlyWhenFree(ops: seq<Op>, name: string, owner: string, ttl: int, at: int)
    requires Legal(START, ops) && at >= Run(START, ops).clock
    ensures var w := Run(START, ops);
            SetIfAbsent(w.redis, name, owner, ttl, at).1 <==>
            ttl > 0 && forall i :: 0 <= i < |w.grants| && w.grants[i].name == name ==> !Holds(w.grants[i], at)
  {
    RunKeepsInv(ops);
    var w := Run(START, ops);
    if Live(w.redis, KeyOf(name), at) {
      var i :| 0 <= i < |w.grants| && Backs(w.grants[i], KeyOf(name), w.redis[KeyOf(name)]);
      KeyInjective(w.grants[i].name, name);
      assert Holds(w.grants[i], at);
    }
  }

  /** Reusing an owner token in the open: the expired first handle releases the second one's
      lock, and a third client then holds it together with the second. */
  lemma {:induction false} ReusedOwnerBreaksExclusion(name: string, owner: string, other: string)
    ensures var ops := [TryAcquire(name, owner, 10, 0), TryAcquire(name, owner, 10, 20), Release(0, 21),
        TryAcquire(name, other, 10, 22)];
            var w := Run(START, ops);
            |w.grants| == 3 && Holds(w.grants[1], 22) && Holds(w.grants[2], 22)
  {
    var ops := [TryAcquire(name, owner, 10, 0), TryAcquire(name, owner, 10, 20), Release(0, 21),
        TryAcquire(name, other, 10, 22)];
    assert ops[..3][..2] == ops[..2] && ops[..2][..1] == ops[..1] && ops[..1][..0] == [];
    var w1 := Do(Run(START, []), ops[0]);
    assert Run(START, ops[..1]) == w1;
    var w2 := Do(w1, ops[1]);
    assert Run(START, ops[..2]) == w2 && |w2.grants| == 2;
    var w3 := Do(w2, ops[2]);
    assert Run(START, ops[..3]) == w3 && KeyOf(name) !in w3.redis;
    assert Run(START, ops) == Do(w3, ops[3]);
  }
}
