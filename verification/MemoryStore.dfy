/** The memory store as an object: tables are fields that sessions reassign. */
module MemoryStore {
  import opened Ordering
  import opened Memory

  class DurableMemoryStore {
    const digest: string -> string
    const tokenize: string -> set<string>
    const qdrantAvailable: bool
    var rows: seq<MemoryRow>
    var versions: seq<VersionRow>
    var evidence: seq<EvidenceRow>
    var audits: seq<AuditRow>

    ghost function Value(): Memory.Store
      reads this
    {
      Memory.Store(rows, versions, evidence, audits)
    }

    constructor (digest: string -> string, tokenize: string -> set<string>, qdrantAvailable: bool)
      ensures this.digest == digest && this.tokenize == tokenize && this.qdrantAvailable == qdrantAvailable
      ensures Value() == EMPTY
    {
      this.digest, this.tokenize, this.qdrantAvailable := digest, tokenize, qdrantAvailable;
      rows, versions, evidence, audits := [], [], [], [];
    }

    /** `session.get`: the row with this primary key. */
    method Lookup(id: string) returns (i: nat)
      ensures i == Find(rows, id)
    {
      i := 0;
      while i < |rows|
        invariant i <= |rows| && Find(rows[..i], id) == i
      {
        assert rows[..i + 1][..i] == rows[..i];
        if rows[i].id == id {
          FindStays(rows, id, i + 1);
          return;
        }
        i := i + 1;
      }
      assert rows[..i] == rows;
    }

    method Store(ctx: Context, content: string, memoryType: string, md: Metadata, now: int) returns (r: Outcome)
      modifies this
      ensures (Value(), r) ==
              StoreMemory(old(Value()), digest(JoinedKey(ctx.tenant, NamespaceOf(md), memoryType, content)),
                          ctx, content, memoryType, md, qdrantAvailable, now)
    {
      var id := digest(JoinedKey(ctx.tenant, NamespaceOf(md), memoryType, content));
      var i := Lookup(id);
      if i == |rows| {
        var row := NewRow(id, ctx, content, memoryType, md, qdrantAvailable, now);
        if row.confidence < 0.0 || row.confidence > 1.0 {
          return Rejected;
        }
        rows := rows + [row];
        versions := versions + [VersionRow(ctx.tenant, id, 1, content, row.provenance)];
        evidence := evidence + [EvidenceRow(ctx.tenant, id, row.source, row.provenance)];
      }
      audits := audits + [AuditRow(ctx.tenant, ctx.actor, Written(qdrantAvailable), id)];
      r := Ok(rows[i]);
    }

    method Update(ctx: Context, id: string, content: string, expected: int, now: int) returns (r: Outcome)
      modifies this
      ensures (Value(), r) == UpdateMemory(old(Value()), ctx, id, content, expected, now)
    {
      var i := Lookup(id);
      if i == |rows| || rows[i].tenant != ctx.tenant {
        return NotFound;
      }
      if rows[i].version != expected {
        return Stale;
      }
      rows := rows[i := rows[i].(content := content, version := rows[i].version + 1, updatedAt := now)];
      versions := versions + [VersionRow(ctx.tenant, id, rows[i].version, content, rows[i].provenance)];
      audits := audits + [AuditRow(ctx.tenant, ctx.actor, Updated(rows[i].version), id)];
      r := Ok(rows[i]);
    }

    method Rollback(ctx: Context, id: string, version: int, now: int) returns (r: Outcome)
      modifies this
      ensures (Value(), r) == RollbackMemory(old(Value()), ctx, id, version, now)
    {
      var i := Lookup(id);
      var target := FindVersion(versions, ctx.tenant, id, version);
      if i == |rows| || rows[i].tenant != ctx.tenant || target.None? {
        return NotFound;
      }
      rows := rows[i := rows[i].(content := target.value.content, version := rows[i].version + 1, updatedAt := now)];
      versions := versions + [VersionRow(ctx.tenant, id, rows[i].version, rows[i].content, target.value.provenance)];
      audits := audits + [AuditRow(ctx.tenant, ctx.actor, RolledBack(version), id)];
      r := Ok(rows[i]);
    }

    /** Scores the tenant's active rows one by one, then sorts and cuts. */
    method Search(ctx: Context, terms: set<string>, limit: int) returns (results: seq<Hit>)
      ensures results == Memory.Search(Value(), ctx.tenant, terms, tokenize, limit)
    {
      var visible := Visible(rows, ctx.tenant);
      var ranked := [];
      for i := 0 to |visible|
        invariant ranked == Hits(visible[..i], terms, tokenize)
      {
        assert visible[..i + 1][..i] == visible[..i];
        var score := Score(terms, tokenize(visible[i].content));
        if score > 0.0 {
          ranked := ranked + [Hit(score, visible[i])];
        }
      }
      assert visible[..|visible|] == visible;
      results := Prefix(Sort(Descending, ranked), limit);
    }

    /** Groups the tenant's active contents by type in one pass, then summarises each group. */
    method Consolidate(ctx: Context) returns (summaries: map<string, string>, count: nat)
      ensures summaries == Memory.Consolidate(Value(), ctx.tenant)
      ensures count == |Visible(rows, ctx.tenant)|
    {
      var visible := Visible(rows, ctx.tenant);
      var byType: map<string, seq<string>> := map[];
      for i := 0 to |visible|
        invariant Grouped(byType, visible[..i])
      {
        var key := visible[i].memoryType;
        GroupedAfter(byType, visible, i);
        byType := byType[key := (if key in byType then byType[key] else []) + [visible[i].content]];
      }
      assert visible[..|visible|] == visible;
      summaries := map k | k in byType :: Summary(byType[k]);
      count := |visible|;
    }
  }

  lemma {:induction false} FindStays(rows: seq<MemoryRow>, id: string, n: nat)
    requires n <= |rows| && Find(rows[..n], id) < n
    ensures Find(rows, id) == Find(rows[..n], id)
    decreases |rows|
  {
    if n < |rows| {
      assert rows[..|rows| - 1][..n] == rows[..n];
      FindStays(rows[..|rows| - 1], id, n);
    } else {
      assert rows[..n] == rows;
    }
  }

  /** The groups hold the contents of the rows by type, in order. */
  ghost predicate Grouped(byType: map<string, seq<string>>, rows: seq<MemoryRow>) {
    byType.Keys == Types(rows) && forall k :: k in byType ==> byType[k] == ContentsOf(rows, k)
  }

  lemma {:induction false} GroupedAfter(byType: map<string, seq<string>>, rows: seq<MemoryRow>, i: nat)
    requires i < |rows| && Grouped(byType, rows[..i])
    ensures var key := rows[i].memoryType;
            Grouped(byType[key := (if key in byType then byType[key] else []) + [rows[i].content]], rows[..i + 1])
  {
    var key := rows[i].memoryType;
    var after := byType[key := (if key in byType then byType[key] else []) + [rows[i].content]];
    GroupStep(rows, i, key);
    forall k | k in after
      ensures after[k] == ContentsOf(rows[..i + 1], k)
    {
      GroupStep(rows, i, k);
    }
  }

  lemma {:induction false} GroupStep(rows: seq<MemoryRow>, i: nat, k: string)
    requires i < |rows|
    ensures ContentsOf(rows[..i + 1], k) == ContentsOf(rows[..i], k) + if rows[i].memoryType == k
        then [rows[i].content] else []
    ensures Types(rows[..i + 1]) == Types(rows[..i]) + {rows[i].memoryType}
    ensures k !in Types(rows[..i]) ==> ContentsOf(rows[..i], k) == []
  {
    assert rows[..i + 1][..i] == rows[..i];
    assert rows[..i + 1] == rows[..i] + [rows[i]];
    NoContents(rows[..i], k);
  }

  lemma {:induction false} NoContents(rows: seq<MemoryRow>, k: string)
    ensures k !in Types(rows) ==> ContentsOf(rows, k) == []
  {
    if rows == [] {
    } else {
      NoContents(rows[..|rows| - 1], k);
    }
  }
}
