/** What holds of the memory store after every sequence of sessions by any tenants. */
module MemoryTheorems {
  import opened Tables
  import opened Ordering
  import opened Memory

  /** One session. */
  datatype Op =
    | StoreOp(ctx: Context, content: string, memoryType: string, metadata: Metadata, qdrant: bool, now: int)
    | UpdateOp(ctx: Context, id: string, content: string, expected: int, now: int)
    | RollbackOp(ctx: Context, id: string, version: int, now: int)

  /** `digest` stands for SHA-256. */
  function IdOf(digest: string -> string, op: Op): string
    requires op.StoreOp?
  {
    digest(JoinedKey(op.ctx.tenant, NamespaceOf(op.metadata), op.memoryType, op.content))
  }

  function Apply(digest: string -> string, st: Store, op: Op): (Store, Outcome) {
    match op
    case StoreOp(ctx, content, memoryType, md, qdrant, now) =>
      StoreMemory(st, IdOf(digest, op), ctx, content, memoryType, md, qdrant, now)
    case UpdateOp(ctx, id, content, expected, now) => UpdateMemory(st, ctx, id, content, expected, now)
    case RollbackOp(ctx, id, version, now) => RollbackMemory(st, ctx, id, version, now)
  }

  /** The store after a sequence of sessions that starts at `st`. */
  function Run(digest: string -> string, st: Store, ops: seq<Op>): Store {
    if ops == [] then st else Apply(digest, Run(digest, st, ops[..|ops| - 1]), ops[|ops| - 1]).0
  }

  // ---- version history ----

  predicate IsRevision(a: AuditRow, id: string) {
    a.target == id && !a.action.Written?
  }

  /** Updates and rollbacks of a memory in the audit trail. */
  function Revisions(audits: seq<AuditRow>, id: string): nat {
    if audits == [] then 0
    else Revisions(audits[..|audits| - 1], id) + if IsRevision(audits[|audits| - 1], id) then 1 else 0
  }

  /** The history of a row: versions 1, 2, ..., row.version, all with the row's provenance, the
      last with the row's content, one for each revision in the audit trail beyond the first. */
  ghost predicate Chronicled(row: MemoryRow, history: seq<VersionRow>, revisions: nat) {
    && row.version == |history| == revisions + 1
    && (forall k :: 0 <= k < |history| ==> history[k].version == k + 1 && history[k].provenance == row.provenance)
    && history[|history| - 1].content == row.content
  }

  ghost predicate RowInv(st: Store, i: nat)
    requires i < |st.rows|
  {
    var row := st.rows[i];
    && Find(st.rows, row.id) == i
    && Chronicled(row, VersionsOf(st.versions, row.tenant, row.id), Revisions(st.audits, row.id))
  }

  /** Every row has its chronicle, and no history or revision is without its row. */
  ghost predicate Inv(st: Store) {
    && (forall i :: 0 <= i < |st.rows| ==> RowInv(st, i))
    && (forall k :: 0 <= k < |st.versions| ==> Owns(st, st.versions[k].tenant, st.versions[k].memoryId))
    && (forall k :: 0 <= k < |st.audits| && !st.audits[k].action.Written? ==>
          Find(st.rows, st.audits[k].target) < |st.rows|)
  }

  // ---- small facts ----

  lemma {:induction false} FindFirst(rows: seq<MemoryRow>, id: string, i: nat)
    requires i < |rows| && rows[i].id == id
    ensures Find(rows, id) <= i
  {
    if i >= |rows| - 1 {
    } else {
      FindFirst(rows[..|rows| - 1], id, i);
    }
  }

  lemma {:induction false} FindUpdate(rows: seq<MemoryRow>, i: nat, row: MemoryRow, id: string)
    requires i < |rows| && row.id == rows[i].id
    ensures Find(rows[i := row], id) == Find(rows, id)
  {
    var n := |rows| - 1;
    if i == n {
      assert rows[i := row][..n] == rows[..n];
    } else {
      assert rows[i := row][..n] == rows[..n][i := row];
      FindUpdate(rows[..n], i, row, id);
    }
  }

  lemma {:induction false} FindAppend(rows: seq<MemoryRow>, row: MemoryRow, id: string)
    ensures Find(rows + [row], id) ==
            if Find(rows, id) < |rows| then Find(rows, id) else if row.id == id then |rows| else |rows| + 1
  {
    assert (rows + [row])[..|rows + [row]| - 1] == rows;
  }

  lemma {:induction false} RevisionsAppend(audits: seq<AuditRow>, a: AuditRow, id: string)
    ensures Revisions(audits + [a], id) == Revisions(audits, id) + if IsRevision(a, id) then 1 else 0
  {
    assert (audits + [a])[..|audits + [a]| - 1] == audits;
  }

  lemma {:induction false} VersionsAppend(versions: seq<VersionRow>, v: VersionRow, tenant: string, id: string)
    ensures VersionsOf(versions + [v], tenant, id) ==
            VersionsOf(versions, tenant, id) + if v.tenant == tenant && v.memoryId == id then [v] else []
  {
    var p := (x: VersionRow) => x.tenant == tenant && x.memoryId == id;
    FilterConcat(p, versions, [v]);
    FilterOne(p, v);
  }

  lemma {:induction false} NoVersions(versions: seq<VersionRow>, tenant: string, id: string)
    requires forall k :: 0 <= k < |versions| ==> versions[k].memoryId != id
    ensures VersionsOf(versions, tenant, id) == []
  {
    if versions == [] {
    } else {
      NoVersions(versions[..|versions| - 1], tenant, id);
      VersionsAppend(versions[..|versions| - 1], versions[|versions| - 1], tenant, id);
      assert versions == versions[..|versions| - 1] + [versions[|versions| - 1]];
    }
  }

  lemma {:induction false} NoRevisions(audits: seq<AuditRow>, id: string)
    requires forall k :: 0 <= k < |audits| ==> !IsRevision(audits[k], id)
    ensures Revisions(audits, id) == 0
  {
    if audits == [] {
    } else {
      NoRevisions(audits[..|audits| - 1], id);
    }
  }

  // ---- sessions keep the history ----

  /** One more version with the same provenance and one more revision keep a chronicle. */
  lemma {:induction false} ChronicleGrows(row: MemoryRow, row': MemoryRow, h: seq<VersionRow>, v: VersionRow,
        revisions: nat)
    requires Chronicled(row, h, revisions)
    requires row'.version == row.version + 1 && row'.provenance == row.provenance
    requires v.version == row'.version && v.content == row'.content && v.provenance == row.provenance
    ensures Chronicled(row', h + [v], revisions + 1)
  {
  }

  /** The common core of update and rollback. */
  lemma {:induction false} ReviseRow(st: Store, ctx: Context, i: nat, content: string, action: Action, now: int, j: nat)
    requires i < |st.rows| && j < |st.rows| && st.rows[i].tenant == ctx.tenant && !action.Written?
    requires RowInv(st, i) && RowInv(st, j)
    ensures RowInv(Revise(st, ctx, i, content, st.rows[i].provenance, action, now), j)
  {
    var st' := Revise(st, ctx, i, content, st.rows[i].provenance, action, now);
    var row, v := st.rows[j], st'.versions[|st.versions|];
    FindUpdate(st.rows, i, st'.rows[i], row.id);
    VersionsAppend(st.versions, v, row.tenant, row.id);
    RevisionsAppend(st.audits, st'.audits[|st.audits|], row.id);
    if j == i {
      ChronicleGrows(row, st'.rows[i], VersionsOf(st.versions, row.tenant, row.id), v, Revisions(st.audits, row.id));
    }
  }

  lemma {:induction false} ReviseKeepsInv(st: Store, ctx: Context, i: nat, content: string, action: Action, now: int)
    requires Inv(st) && i < |st.rows| && st.rows[i].tenant == ctx.tenant && !action.Written?
    ensures Inv(Revise(st, ctx, i, content, st.rows[i].provenance, action, now))
  {
    var st' := Revise(st, ctx, i, content, st.rows[i].provenance, action, now);
    assert RowInv(st, i);
    forall j | 0 <= j < |st'.rows|
      ensures RowInv(st', j)
    {
      assert RowInv(st, j);
      ReviseRow(st, ctx, i, content, action, now, j);
    }
    forall k | 0 <= k < |st'.versions|
      ensures Owns(st', st'.versions[k].tenant, st'.versions[k].memoryId)
    {
      FindUpdate(st.rows, i, st'.rows[i], st'.versions[k].memoryId);
      if k < |st.versions| {
        assert Owns(st, st.versions[k].tenant, st.versions[k].memoryId);
      }
    }
    forall k | 0 <= k < |st'.audits| && !st'.audits[k].action.Written?
      ensures Find(st'.rows, st'.audits[k].target) < |st'.rows|
    {
      FindUpdate(st.rows, i, st'.rows[i], st'.audits[k].target);
    }
  }

  lemma {:induction false} AuditOnlyKeepsInv(st: Store, a: AuditRow)
    requires Inv(st) && a.action.Written?
    ensures Inv(st.(audits := st.audits + [a]))
  {
    var st' := st.(audits := st.audits + [a]);
    forall j | 0 <= j < |st'.rows|
      ensures RowInv(st', j)
    {
      assert RowInv(st, j);
      RevisionsAppend(st.audits, a, st.rows[j].id);
    }
    assert forall k :: 0 <= k < |st'.versions| ==> Owns(st', st'.versions[k].tenant, st'.versions[k].memoryId) by {
      forall k | 0 <= k < |st.versions|
        ensures Owns(st', st'.versions[k].tenant, st'.versions[k].memoryId)
      {
        assert Owns(st, st.versions[k].tenant, st.versions[k].memoryId);
      }
    }
  }

  lemma {:induction false} InsertRowInv(st: Store, row: MemoryRow, v: VersionRow, st': Store, j: nat)
    requires Find(st.rows, row.id) == |st.rows| && row.version == 1 && j <= |st.rows|
    requires v == VersionRow(row.tenant, row.id, 1, row.content, row.provenance)
    requires st'.rows == st.rows + [row] && st'.versions == st.versions + [v] && st'.audits == st.audits
    requires j < |st.rows| ==> RowInv(st, j)
    requires j == |st.rows| ==> VersionsOf(st.versions, row.tenant, row.id) == [] && Revisions(st.audits, row.id) == 0
    ensures RowInv(st', j)
  {
    var r := st'.rows[j];
    FindAppend(st.rows, row, r.id);
    VersionsAppend(st.versions, v, r.tenant, r.id);
  }

  lemma {:induction false} InsertKeepsInv(st: Store, row: MemoryRow, evidence: seq<EvidenceRow>)
    requires Inv(st) && Find(st.rows, row.id) == |st.rows| && row.version == 1
    ensures Inv(Store(st.rows + [row], st.versions + [VersionRow(row.tenant, row.id, 1, row.content, row.provenance)],
        evidence, st.audits))
  {
    var v := VersionRow(row.tenant, row.id, 1, row.content, row.provenance);
    var st' := Store(st.rows + [row], st.versions + [v], evidence, st.audits);
    forall k | 0 <= k < |st.versions|
      ensures st.versions[k].memoryId != row.id
    {
      assert Owns(st, st.versions[k].tenant, st.versions[k].memoryId);
    }
    NoVersions(st.versions, row.tenant, row.id);
    NoRevisions(st.audits, row.id);
    forall j | 0 <= j < |st'.rows|
      ensures RowInv(st', j)
    {
      InsertRowInv(st, row, v, st', j);
    }
    forall k | 0 <= k < |st'.versions|
      ensures Owns(st', st'.versions[k].tenant, st'.versions[k].memoryId)
    {
      FindAppend(st.rows, row, st'.versions[k].memoryId);
      if k < |st.versions| {
        assert Owns(st, st.versions[k].tenant, st.versions[k].memoryId);
      }
    }
    forall k | 0 <= k < |st'.audits| && !st'.audits[k].action.Written?
      ensures Find(st'.rows, st'.audits[k].target) < |st'.rows|
    {
      FindAppend(st.rows, row, st'.audits[k].target);
    }
  }

  /** A version found for rollback is the memory's numbered version, with the row's provenance. */
  lemma {:induction false} FindVersionIs(versions: seq<VersionRow>, tenant: string, id: string, n: int)
    ensures var f := FindVersion(versions, tenant, id, n);
            var h := VersionsOf(versions, tenant, id);
            && (f.Some? ==> exists k :: 0 <= k < |h| && h[k] == f.value && h[k].version == n)
            && (f.None? ==> forall k :: 0 <= k < |h| ==> h[k].version != n)
  {
    if versions == [] {
    } else {
      var front, v := versions[..|versions| - 1], versions[|versions| - 1];
      FindVersionIs(front, tenant, id, n);
      assert versions == front + [v];
      VersionsAppend(front, v, tenant, id);
      var h, h' := VersionsOf(front, tenant, id), VersionsOf(versions, tenant, id);
      var f := FindVersion(versions, tenant, id, n);
      if v.tenant == tenant && v.memoryId == id && v.version == n {
        assert h'[|h'| - 1] == v;
      } else if f.Some? {
        var k :| 0 <= k < |h| && h[k] == f.value && h[k].version == n;
        assert h'[k] == f.value;
      }
    }
  }

  /** Which version rollback finds: exactly the one numbered n in the history, if n is in range. */
  lemma {:induction false} RollbackTarget(st: Store, i: nat, n: int)
    requires i < |st.rows| && RowInv(st, i)
    ensures var row := st.rows[i];
            var h := VersionsOf(st.versions, row.tenant, row.id);
            var f := FindVersion(st.versions, row.tenant, row.id, n);
            if 1 <= n <= row.version then f == Some(h[n - 1]) else f == None
  {
    var row := st.rows[i];
    FindVersionIs(st.versions, row.tenant, row.id, n);
    var h := VersionsOf(st.versions, row.tenant, row.id);
    if 1 <= n <= row.version {
      assert h[n - 1].version == n;
    }
  }

  lemma {:induction false} ApplyKeepsInv(digest: string -> string, st: Store, op: Op)
    requires Inv(st)
    ensures Inv(Apply(digest, st, op).0)
  {
    match op {
      case StoreOp(ctx, content, memoryType, md, qdrant, now) =>
        var id := IdOf(digest, op);
        var a := AuditRow(ctx.tenant, ctx.actor, Written(qdrant), id);
        var row := NewRow(id, ctx, content, memoryType, md, qdrant, now);
        AuditOnlyKeepsInv(st, a);
        if Find(st.rows, id) == |st.rows| {
          InsertKeepsInv(st.(audits := st.audits + [a]), row,
                         st.evidence + [EvidenceRow(ctx.tenant, id, row.source, row.provenance)]);
        }
      case UpdateOp(ctx, id, content, expected, now) =>
        if Owns(st, ctx.tenant, id) {
          ReviseKeepsInv(st, ctx, Find(st.rows, id), content, Updated(expected + 1), now);
        }
      case RollbackOp(ctx, id, version, now) =>
        if Owns(st, ctx.tenant, id) {
          var i := Find(st.rows, id);
          assert RowInv(st, i);
          RollbackTarget(st, i, version);
          var target := FindVersion(st.versions, ctx.tenant, id, version);
          if target.Some? {
            ReviseKeepsInv(st, ctx, i, target.value.content, RolledBack(version), now);
          }
        }
    }
  }

  /** In every run each memory's versions are exactly 1 .. row.version, carry the row's
      provenance, end in the row's content, and number one plus its audited revisions. */
  lemma {:induction false} HistoryIsComplete(digest: string -> string, ops: seq<Op>)
    ensures Inv(Run(digest, EMPTY, ops))
  {
    if ops == [] {
    } else {
      HistoryIsComplete(digest, ops[..|ops| - 1]);
      ApplyKeepsInv(digest, Run(digest, EMPTY, ops[..|ops| - 1]), ops[|ops| - 1]);
    }
  }

  // ---- nothing is rewritten ----

  lemma {:induction false} VersionsPrefix(a: seq<VersionRow>, b: seq<VersionRow>, tenant: string, id: string)
    requires a <= b
    ensures VersionsOf(a, tenant, id) <= VersionsOf(b, tenant, id)
  {
    assert b == a + b[|a|..];
    FilterConcat((v: VersionRow) => v.tenant == tenant && v.memoryId == id, a, b[|a|..]);
  }

  /** Old versions never change: whatever follows, the history so far stays a prefix. */
  lemma {:induction false} HistoryIsAppendOnly(digest: string -> string, ops: seq<Op>, i: nat, tenant: string,
        id: string)
    requires i <= |ops|
    ensures VersionsOf(Run(digest, EMPTY, ops[..i]).versions, tenant,
        id) <= VersionsOf(Run(digest, EMPTY, ops).versions, tenant, id)
    ensures Run(digest, EMPTY, ops[..i]).versions <= Run(digest, EMPTY, ops).versions
    decreases |ops|
  {
    if i < |ops| {
      var front := ops[..|ops| - 1];
      assert front[..i] == ops[..i];
      HistoryIsAppendOnly(digest, front, i, tenant, id);
      VersionsPrefix(Run(digest, EMPTY, ops[..i]).versions, Run(digest, EMPTY, ops).versions, tenant, id);
    } else {
      assert ops[..i] == ops;
    }
  }

  // ---- optimistic concurrency ----

  /** A memory's version, 0 before it exists. */
  function VersionOf(st: Store, id: string): int {
    var i := Find(st.rows, id);
    if i < |st.rows| then st.rows[i].version else 0
  }

  /** What a session does to the rows there are: it changes content, version and time only, and
      content only together with the version. */
  ghost predicate Descends(row: MemoryRow, row': MemoryRow) {
    && row' == row.(content := row'.content, version := row'.version, updatedAt := row'.updatedAt)
    && row'.version >= row.version
    && (row'.version == row.version ==> row' == row)
  }

  lemma {:induction false} RowsDescend(digest: string -> string, st: Store, op: Op, i: nat)
    requires i < |st.rows|
    ensures var st' := Apply(digest, st, op).0;
            && i < |st'.rows| && Descends(st.rows[i], st'.rows[i])
            && st.versions <= st'.versions
  {
  }

  lemma {:induction false} StepKeepsRow(digest: string -> string, st: Store, op: Op, id: string)
    requires Find(st.rows, id) < |st.rows|
    ensures var st' := Apply(digest, st, op).0;
            var i := Find(st.rows, id);
            i < |st'.rows| && Find(st'.rows, id) == i && Descends(st.rows[i], st'.rows[i])
  {
    var st' := Apply(digest, st, op).0;
    RowsDescend(digest, st, op, Find(st.rows, id));
    if op.StoreOp? {
      if |st'.rows| > |st.rows| {
        FindAppend(st.rows, st'.rows[|st.rows|], id);
      }
    } else if st'.rows != st.rows {
      var i := Find(st.rows, op.id);
      FindUpdate(st.rows, i, st'.rows[i], id);
    }
  }

  lemma {:induction false} VersionNeverDrops(digest: string -> string, st: Store, op: Op, id: string)
    ensures VersionOf(Apply(digest, st, op).0, id) >= VersionOf(st, id)
  {
    if Find(st.rows, id) < |st.rows| {
      StepKeepsRow(digest, st, op, id);
    } else {
      AbsentOrNew(digest, st, op, id);
    }
  }

  lemma {:induction false} AbsentOrNew(digest: string -> string, st: Store, op: Op, id: string)
    requires Find(st.rows, id) == |st.rows|
    ensures VersionOf(Apply(digest, st, op).0, id) in {0, 1}
  {
    var st' := Apply(digest, st, op).0;
    if op.StoreOp? {
      if |st'.rows| > |st.rows| {
        FindAppend(st.rows, st'.rows[|st.rows|], id);
      }
    } else if st'.rows != st.rows {
      var i := Find(st.rows, op.id);
      FindUpdate(st.rows, i, st'.rows[i], id);
    }
  }

  lemma {:induction false} VersionNeverDropsInRuns(digest: string -> string, ops: seq<Op>, i: nat, id: string)
    requires i <= |ops|
    ensures VersionOf(Run(digest, EMPTY, ops[..i]), id) <= VersionOf(Run(digest, EMPTY, ops), id)
    decreases |ops|
  {
    if i < |ops| {
      var front := ops[..|ops| - 1];
      assert front[..i] == ops[..i];
      VersionNeverDropsInRuns(digest, front, i, id);
      VersionNeverDrops(digest, Run(digest, EMPTY, front), ops[|ops| - 1], id);
    } else {
      assert ops[..i] == ops;
    }
  }

  lemma {:induction false} UpdateMovesVersion(st: Store, ctx: Context, id: string, content: string, expected: int,
        now: int)
    requires UpdateMemory(st, ctx, id, content, expected, now).1.Ok?
    ensures VersionOf(UpdateMemory(st, ctx, id, content, expected, now).0, id) == expected + 1
  {
    var i := Find(st.rows, id);
    FindUpdate(st.rows, i, UpdateMemory(st, ctx, id, content, expected, now).0.rows[i], id);
  }

  lemma {:induction false} StaleUpdate(st: Store, ctx: Context, id: string, content: string, expected: int, now: int)
    requires VersionOf(st, id) != expected
    ensures !UpdateMemory(st, ctx, id, content, expected, now).1.Ok?
        && UpdateMemory(st, ctx, id, content, expected, now).0 == st
  {
  }

  lemma {:induction false} VersionAfterUpdate(digest: string -> string, ops: seq<Op>, i: nat)
    requires i < |ops| && ops[i].UpdateOp? && Apply(digest, Run(digest, EMPTY, ops[..i]), ops[i]).1.Ok?
    ensures VersionOf(Run(digest, EMPTY, ops[..i + 1]), ops[i].id) == ops[i].expected + 1
  {
    assert ops[..i + 1][..i] == ops[..i];
    UpdateMovesVersion(Run(digest, EMPTY, ops[..i]), ops[i].ctx, ops[i].id, ops[i].content, ops[i].expected,
        ops[i].now);
  }

  /** Of the updates of one memory that expect one version, in any run and by anyone, at most
      one is accepted; the refused ones change nothing. */
  lemma {:induction false} AtMostOneUpdatePerVersion(digest: string -> string, ops: seq<Op>, i: nat, j: nat)
    requires i < j < |ops| && ops[i].UpdateOp? && ops[j].UpdateOp?
    requires ops[i].id == ops[j].id && ops[i].expected == ops[j].expected
    requires Apply(digest, Run(digest, EMPTY, ops[..i]), ops[i]).1.Ok?
    ensures !Apply(digest, Run(digest, EMPTY, ops[..j]), ops[j]).1.Ok?
    ensures Apply(digest, Run(digest, EMPTY, ops[..j]), ops[j]).0 == Run(digest, EMPTY, ops[..j])
  {
    VersionAfterUpdate(digest, ops, i);
    assert ops[..j][..i + 1] == ops[..i + 1];
    VersionNeverDropsInRuns(digest, ops[..j], i + 1, ops[i].id);
    StaleUpdate(Run(digest, EMPTY, ops[..j]), ops[j].ctx, ops[j].id, ops[j].content, ops[j].expected, ops[j].now);
  }

  // ---- rollback ----

  /** Rolling back to any version v yields version v's content, and rolling back again to the
      version n before that restores the original content and provenance, as version n + 2. */
  lemma {:induction false} RollbackRoundTrip(st: Store, ctx: Context, id: string, v: int, now: int, later: int)
    requires Inv(st) && Owns(st, ctx.tenant, id)
    requires 1 <= v <= VersionOf(st, id)
    ensures var n := VersionOf(st, id);
            var (st1, r1) := RollbackMemory(st, ctx, id, v, now);
            var (st2, r2) := RollbackMemory(st1, ctx, id, n, later);
            var h := VersionsOf(st.versions, ctx.tenant, id);
            && r1.Ok? && v <= |h| && r1.row.content == h[v - 1].content
            && r2.Ok? && r2.row.content == st.rows[Find(st.rows, id)].content
            && r2.row.provenance == st.rows[Find(st.rows, id)].provenance
            && r2.row.version == n + 2
  {
    var i, n := Find(st.rows, id), VersionOf(st, id);
    assert RowInv(st, i);
    RollbackTarget(st, i, v);
    var h := VersionsOf(st.versions, ctx.tenant, id);
    var (st1, r1) := RollbackMemory(st, ctx, id, v, now);
    ReviseKeepsInv(st, ctx, i, h[v - 1].content, RolledBack(v), now);
    FindUpdate(st.rows, i, st1.rows[i], id);
    assert RowInv(st1, i);
    RollbackTarget(st1, i, n);
    VersionsAppend(st.versions, st1.versions[|st.versions|], ctx.tenant, id);
  }

  /** A row once stored stays where it is, and changes content only with its version. */
  lemma {:induction false} RowKeptInRuns(digest: string -> string, ops: seq<Op>, i: nat, id: string)
    requires i <= |ops| && Find(Run(digest, EMPTY, ops[..i]).rows, id) < |Run(digest, EMPTY, ops[..i]).rows|
    ensures var st, st' := Run(digest, EMPTY, ops[..i]), Run(digest, EMPTY, ops);
            var k := Find(st.rows, id);
            k < |st'.rows| && Find(st'.rows, id) == k && Descends(st.rows[k], st'.rows[k])
    decreases |ops|
  {
    if i == |ops| {
      assert ops[..i] == ops;
    } else {
      var front := ops[..|ops| - 1];
      assert front[..i] == ops[..i];
      RowKeptInRuns(digest, front, i, id);
      StepKeepsRow(digest, Run(digest, EMPTY, front), ops[|ops| - 1], id);
    }
  }

  /** A rollback returns the numbered version's content and provenance and appends it. */
  lemma {:induction false} RollbackReturns(st: Store, k: nat, ctx: Context, n: int, now: int)
    requires k < |st.rows| && RowInv(st, k) && st.rows[k].tenant == ctx.tenant && 1 <= n <= st.rows[k].version
    ensures var id := st.rows[k].id;
            var h := VersionsOf(st.versions, ctx.tenant, id);
            var (st', r) := RollbackMemory(st, ctx, id, n, now);
            && n <= |h| && r.Ok?
            && r.row.content == h[n - 1].content && r.row.provenance == h[n - 1].provenance
            && r.row.version == st.rows[k].version + 1
            && VersionsOf(st'.versions, ctx.tenant, id) ==
               h + [VersionRow(ctx.tenant, id, r.row.version, h[n - 1].content, h[n - 1].provenance)]
  {
    var id := st.rows[k].id;
    RollbackTarget(st, k, n);
    var st' := RollbackMemory(st, ctx, id, n, now).0;
    VersionsAppend(st.versions, st'.versions[|st.versions|], ctx.tenant, id);
  }

  /** Any version can be restored at any time: whatever runs after a memory has reached version n,
      by anyone, the owner's rollback to n succeeds, returns the content and provenance that
      version n had, and appends it as the next version. */
  lemma {:induction false} RollbackRestores(digest: string -> string, ops: seq<Op>, i: nat, ctx: Context, id: string,
        n: int, now: int)
    requires i <= |ops| && Owns(Run(digest, EMPTY, ops[..i]), ctx.tenant, id)
    requires 1 <= n <= VersionOf(Run(digest, EMPTY, ops[..i]), id)
    ensures var then_ := VersionsOf(Run(digest, EMPTY, ops[..i]).versions, ctx.tenant, id);
            var (st, r) := RollbackMemory(Run(digest, EMPTY, ops), ctx, id, n, now);
            && r.Ok? && n <= |then_|
            && r.row.content == then_[n - 1].content && r.row.provenance == then_[n - 1].provenance
            && r.row.version == VersionOf(Run(digest, EMPTY, ops), id) + 1
            && VersionsOf(st.versions, ctx.tenant, id) ==
               VersionsOf(Run(digest, EMPTY, ops).versions, ctx.tenant, id)
               + [VersionRow(ctx.tenant, id, r.row.version, then_[n - 1].content, then_[n - 1].provenance)]
  {
    var early, late := Run(digest, EMPTY, ops[..i]), Run(digest, EMPTY, ops);
    var k := Find(early.rows, id);
    HistoryIsComplete(digest, ops[..i]);
    HistoryIsComplete(digest, ops);
    RowKeptInRuns(digest, ops, i, id);
    HistoryIsAppendOnly(digest, ops, i, ctx.tenant, id);
    assert RowInv(early, k) && RowInv(late, k);
    RollbackReturns(late, k, ctx, n, now);
  }

  // ---- search ----

  lemma {:induction false} ShareOfOne(part: real, whole: real)
    requires 0.0 <= part <= whole && whole >= 1.0
    ensures 0.0 <= part / whole <= 1.0
  {
  }

  lemma {:induction false} ScoreRange(terms: set<string>, tokens: set<string>)
    ensures 0.0 <= Score(terms, tokens) <= 1.0
  {
    var both := terms * tokens;
    assert both + (terms - both) == terms && both !! (terms - both);
    assert |both| <= |terms|;
    ShareOfOne(|both| as real, (if |terms| > 1 then |terms| else 1) as real);
  }

  /** Hits are exactly the given rows with positive score, in their order. */
  lemma {:induction false} HitsAreExact(rows: seq<MemoryRow>, terms: set<string>, tokenize: string -> set<string>)
    ensures forall h :: h in Hits(rows, terms, tokenize) <==>
                        h.row in rows && h.score == Score(terms, tokenize(h.row.content)) && h.score > 0.0
  {
    if rows == [] {
    } else {
      HitsAreExact(rows[..|rows| - 1], terms, tokenize);
      assert rows == rows[..|rows| - 1] + [rows[|rows| - 1]];
    }
  }

  lemma {:induction false} VisibleRows(rows: seq<MemoryRow>, tenant: string)
    ensures forall r :: r in Visible(rows, tenant) <==> r in rows && r.tenant == tenant && r.status == ACTIVE
  {
    var p := (r: MemoryRow) => r.tenant == tenant && r.status == ACTIVE;
    forall r
      ensures r in Visible(rows, tenant) <==> r in rows && p(r)
    {
      FilterCount(p, rows, r);
      assert r in Visible(rows, tenant) <==> multiset(Visible(rows, tenant))[r] > 0;
      assert r in rows <==> multiset(rows)[r] > 0;
    }
  }

  /** The ranking is the stable ordering, by descending score, of the hits in table order. */
  lemma {:induction false} RankingIsStable(st: Store, tenant: string, terms: set<string>,
        tokenize: string -> set<string>)
    ensures SortedBy(Descending, Ranking(st, tenant, terms, tokenize))
    ensures StableRearrangement(Descending, Hits(Visible(st.rows, tenant), terms, tokenize),
        Ranking(st, tenant, terms, tokenize))
  {
    SortStable(Descending, Hits(Visible(st.rows, tenant), terms, tokenize));
  }

  lemma {:induction false} RankingMembers(st: Store, tenant: string, terms: set<string>,
        tokenize: string -> set<string>, h: Hit)
    ensures h in Ranking(st, tenant, terms, tokenize) <==>
            h.row in st.rows && h.row.tenant == tenant && h.row.status == ACTIVE &&
            h.score == Score(terms, tokenize(h.row.content)) && h.score > 0.0
  {
    var all, hits := Ranking(st, tenant, terms, tokenize), Hits(Visible(st.rows, tenant), terms, tokenize);
    assert h in all <==> h in hits by {
      RankingIsStable(st, tenant, terms, tokenize);
      assert h in all <==> h in multiset(all);
      assert h in hits <==> h in multiset(hits);
    }
    HitsAreExact(Visible(st.rows, tenant), terms, tokenize);
    VisibleRows(st.rows, tenant);
  }

  /** Search is a stable top-k. Its results are the prefix of the ranking that `limit` asks for;
      each is one of the caller's active rows, with a score in (0, 1]; and no hit left out
      outscores one returned. */
  lemma {:induction false} SearchIsTopK(st: Store, tenant: string, terms: set<string>, tokenize: string -> set<string>,
        limit: int)
    ensures var ranking, results := Ranking(st, tenant, terms, tokenize), Search(st, tenant, terms, tokenize, limit);
            && results <= ranking
            && (limit >= 0 ==> |results| == if limit < |ranking| then limit else |ranking|)
            && (limit < 0 ==> |results| == if |ranking| + limit > 0 then |ranking| + limit else 0)
            && (forall i :: 0 <= i < |results| ==>
                  && results[i].row in st.rows && results[i].row.tenant == tenant && results[i].row.status == ACTIVE
                  && 0.0 < results[i].score <= 1.0)
            && (forall i, j :: 0 <= i < |results| <= j < |ranking| ==> ranking[j].score <= results[i].score)
  {
    var ranking, results := Ranking(st, tenant, terms, tokenize), Search(st, tenant, terms, tokenize, limit);
    forall i | 0 <= i < |results|
      ensures results[i].row in st.rows && results[i].row.tenant == tenant && results[i].row.status == ACTIVE
      ensures 0.0 < results[i].score <= 1.0
    {
      assert results[i] == ranking[i];
      RankingMembers(st, tenant, terms, tokenize, ranking[i]);
      ScoreRange(terms, tokenize(ranking[i].row.content));
    }
    RankingIsStable(st, tenant, terms, tokenize);
    forall i, j | 0 <= i < |results| <= j < |ranking|
      ensures ranking[j].score <= results[i].score
    {
      assert results[i] == ranking[i];
      assert Descending(ranking[i]) <= Descending(ranking[j]);
    }
  }
}
