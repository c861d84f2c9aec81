/** The durable memory store: rows with an append-only version history, optimistic updates,
    rollback, an audit trail, and content-derived ids. Each operation is one session. */
module Memory {
  import opened Naming
  import opened Tables
  import opened Ordering

  datatype MemoryStatus = ACTIVE | ARCHIVED | DELETED

  /** Provenance is given with the request, or derived from its source. */
  datatype Provenance = Given(document: string) | FromSource(source: string)

  datatype Metadata = Metadata(
    namespace: Option<string>,
    provenance: Option<string>,
    source: Option<string>,
    confidence: Option<real>,
    other: string)

  datatype MemoryRow = MemoryRow(
    id: string,
    tenant: string,
    namespace: string,
    memoryType: string,
    content: string,
    embeddingId: Option<string>,
    provenance: Provenance,
    source: string,
    confidence: real,
    status: MemoryStatus,
    metadata: Metadata,
    version: int,
    createdAt: int,
    updatedAt: int)

  datatype VersionRow = VersionRow(tenant: string, memoryId: string, version: int, content: string,
        provenance: Provenance)

  datatype EvidenceRow = EvidenceRow(tenant: string, memoryId: string, source: string, evidence: Provenance)

  datatype Action = Written(qdrant: bool) | Updated(version: int) | RolledBack(toVersion: int)

  datatype AuditRow = AuditRow(tenant: string, actor: string, action: Action, target: string)

  datatype Store = Store(rows: seq<MemoryRow>, versions: seq<VersionRow>, evidence: seq<EvidenceRow>,
        audits: seq<AuditRow>)

  const EMPTY := Store([], [], [], [])

  datatype Context = Context(tenant: string, actor: string)

  datatype Outcome = Ok(row: MemoryRow) | NotFound | Stale | Rejected

  // ---- ids ----

  function JoinedKey(tenant: string, namespace: string, memoryType: string, content: string): string {
    tenant + ":" + (namespace + ":" + (memoryType + ":" + content))
  }

  /** With colon-free tenant, namespace and type the joined key determines all four parts. */
  lemma {:induction false} JoinedKeyInjective(t: string, n: string, m: string, c: string, t': string, n': string,
        m': string, c': string)
    requires ColonFree(t) && ColonFree(n) && ColonFree(m) && ColonFree(t') && ColonFree(n') && ColonFree(m')
    requires JoinedKey(t, n, m, c) == JoinedKey(t', n', m', c')
    ensures t == t' && n == n' && m == m' && c == c'
  {
    SplitAtFirstColon(t, n + ":" + (m + ":" + c), t', n' + ":" + (m' + ":" + c'));
    SplitAtFirstColon(n, m + ":" + c, n', m' + ":" + c');
    SplitAtFirstColon(m, c, m', c');
  }

  /** Without that, different tenants can share a key. */
  lemma {:induction false} JoinedKeyCollides(n: string, m: string, c: string)
    ensures JoinedKey("a:b", n, m, c) == JoinedKey("a", "b", n, m + ":" + c)
  {
    assert "a:b" == "a" + ":" + "b";
    assert JoinedKey("a:b", n, m, c) == "a" + ":" + ("b" + ":" + (n + ":" + (m + ":" + c)));
  }

  // ---- lookups ----

  /** Position of the row with a given primary key; |rows| if there is none. */
  function Find(rows: seq<MemoryRow>, id: string): (i: nat)
    ensures i <= |rows| && (i < |rows| ==> rows[i].id == id)
  {
    if rows == [] then 0
    else
      var i := Find(rows[..|rows| - 1], id);
      if i < |rows| - 1 then i
      else if rows[|rows| - 1].id == id then |rows| - 1
      else |rows|
  }

  predicate Owns(st: Store, tenant: string, id: string) {
    Find(st.rows, id) < |st.rows| && st.rows[Find(st.rows, id)].tenant == tenant
  }

  function VersionsOf(versions: seq<VersionRow>, tenant: string, id: string): seq<VersionRow> {
    Filter((v: VersionRow) => v.tenant == tenant && v.memoryId == id, versions)
  }

  function FindVersion(versions: seq<VersionRow>, tenant: string, id: string, version: int): Option<VersionRow> {
    if versions == [] then None
    else
      var v := versions[|versions| - 1];
      if v.tenant == tenant && v.memoryId == id && v.version == version then Some(v)
      else FindVersion(versions[..|versions| - 1], tenant, id, version)
  }

  // ---- sessions ----

  function NamespaceOf(md: Metadata): string { if md.namespace.Some? then md.namespace.value else "default" }

  function SourceOf(md: Metadata): string { if md.source.Some? then md.source.value else "api" }

  function ProvenanceOf(md: Metadata): Provenance {
    if md.provenance.Some? then Given(md.provenance.value) else FromSource(SourceOf(md))
  }

  function ConfidenceOf(md: Metadata): real { if md.confidence.Some? then md.confidence.value else 1.0 }

  function NewRow(id: string, ctx: Context, content: string, memoryType: string, md: Metadata, qdrant: bool,
        now: int): MemoryRow {
    MemoryRow(id, ctx.tenant, NamespaceOf(md), memoryType, content,
              if qdrant then Some("qdrant:" + id) else None,
              ProvenanceOf(md), SourceOf(md), ConfidenceOf(md), ACTIVE, md, 1, now, now)
  }

  /** Storing known content only leaves an audit event; the confidence column is checked. */
  function StoreMemory(st: Store, id: string, ctx: Context, content: string, memoryType: string, md: Metadata,
        qdrant: bool, now: int)
    : (Store, Outcome)
  {
    var audited := st.(audits := st.audits + [AuditRow(ctx.tenant, ctx.actor, Written(qdrant), id)]);
    var i := Find(st.rows, id);
    if i < |st.rows| then (audited, Ok(st.rows[i]))
    else if ConfidenceOf(md) < 0.0 || ConfidenceOf(md) > 1.0 then (st, Rejected)
    else
      var row := NewRow(id, ctx, content, memoryType, md, qdrant, now);
      (audited.(rows := st.rows + [row],
                versions := st.versions + [VersionRow(ctx.tenant, id, 1, content, row.provenance)],
                evidence := st.evidence + [EvidenceRow(ctx.tenant, id, row.source, row.provenance)]),
       Ok(row))
  }

  /** Row i gets new content as its next version, with the given provenance in the history. */
  function Revise(st: Store, ctx: Context, i: nat, content: string, provenance: Provenance, action: Action,
        now: int): Store
    requires i < |st.rows|
  {
    var row := st.rows[i].(content := content, version := st.rows[i].version + 1, updatedAt := now);
    st.(rows := st.rows[i := row],
        versions := st.versions + [VersionRow(ctx.tenant, row.id, row.version, content, provenance)],
        audits := st.audits + [AuditRow(ctx.tenant, ctx.actor, action, row.id)])
  }

  function UpdateMemory(st: Store, ctx: Context, id: string, content: string, expected: int, now: int)
    : (Store, Outcome)
  {
    var i := Find(st.rows, id);
    if !Owns(st, ctx.tenant, id) then (st, NotFound)
    else if st.rows[i].version != expected then (st, Stale)
    else
      var st' := Revise(st, ctx, i, content, st.rows[i].provenance, Updated(expected + 1), now);
      (st', Ok(st'.rows[i]))
  }

  function RollbackMemory(st: Store, ctx: Context, id: string, version: int, now: int): (Store, Outcome) {
    var i := Find(st.rows, id);
    var target := FindVersion(st.versions, ctx.tenant, id, version);
    if !Owns(st, ctx.tenant, id) || target.None? then (st, NotFound)
    else
      var st' := Revise(st, ctx, i, target.value.content, target.value.provenance, RolledBack(version), now);
      (st', Ok(st'.rows[i]))
  }

  // ---- search ----

  function Visible(rows: seq<MemoryRow>, tenant: string): seq<MemoryRow> {
    Filter((r: MemoryRow) => r.tenant == tenant && r.status == ACTIVE, rows)
  }

  datatype Hit = Hit(score: real, row: MemoryRow)

  /** Share of the query terms that occur in the content. */
  function Score(terms: set<string>, tokens: set<string>): real {
    |terms * tokens| as real / (if |terms| > 1 then |terms| else 1) as real
  }

  /** The rows with positive overlap, in table order. */
  function Hits(rows: seq<MemoryRow>, terms: set<string>, tokenize: string -> set<string>): seq<Hit> {
    if rows == [] then []
    else
      var row := rows[|rows| - 1];
      var score := Score(terms, tokenize(row.content));
      Hits(rows[..|rows| - 1], terms, tokenize) + if score > 0.0 then [Hit(score, row)] else []
  }

  function Descending(h: Hit): real { -h.score }

  /** Python's `s[:limit]`. */
  function Prefix<T>(s: seq<T>, limit: int): seq<T> {
    if limit >= |s| then s
    else if limit >= 0 then s[..limit]
    else if |s| + limit >= 0 then s[..|s| + limit]
    else []
  }

  /** All hits of a query, best first. */
  function Ranking(st: Store, tenant: string, terms: set<string>, tokenize: string -> set<string>): seq<Hit> {
    Sort(Descending, Hits(Visible(st.rows, tenant), terms, tokenize))
  }

  function Search(st: Store, tenant: string, terms: set<string>, tokenize: string -> set<string>,
        limit: int): seq<Hit> {
    Prefix(Ranking(st, tenant, terms, tokenize), limit)
  }

  // ---- consolidation ----

  function ContentsOf(rows: seq<MemoryRow>, memoryType: string): seq<string> {
    if rows == [] then []
    else
      ContentsOf(rows[..|rows| - 1], memoryType)
      + if rows[|rows| - 1].memoryType == memoryType then [rows[|rows| - 1].content] else []
  }

  function Join(parts: seq<string>): string {
    if parts == [] then ""
    else if |parts| == 1 then parts[0]
    else Join(parts[..|parts| - 1]) + " " + parts[|parts| - 1]
  }

  function Summary(parts: seq<string>): string { Prefix(Join(parts), 500) }

  function Types(rows: seq<MemoryRow>): set<string> { set r | r in rows :: r.memoryType }

  /** One summary per memory type among the tenant's visible rows. */
  function Consolidate(st: Store, tenant: string): map<string, string> {
    var rows := Visible(st.rows, tenant);
    map k | k in Types(rows) :: Summary(ContentsOf(rows, k))
  }
}
