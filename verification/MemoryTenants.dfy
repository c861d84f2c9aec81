/** What the tenants of a shared memory store can do to each other, in every run. */
module MemoryTenants {
  import opened Naming
  import opened Tables
  import opened Ordering
  import opened Memory
  import opened MemoryTheorems

  // ---- a tenant's share of the store ----

  function RowsFor(rows: seq<MemoryRow>, tenant: string): seq<MemoryRow> {
    Filter((r: MemoryRow) => r.tenant == tenant, rows)
  }

  function VersionsFor(versions: seq<VersionRow>, tenant: string): seq<VersionRow> {
    Filter((v: VersionRow) => v.tenant == tenant, versions)
  }

  function EvidenceFor(evidence: seq<EvidenceRow>, tenant: string): seq<EvidenceRow> {
    Filter((e: EvidenceRow) => e.tenant == tenant, evidence)
  }

  function AuditsFor(audits: seq<AuditRow>, tenant: string): seq<AuditRow> {
    Filter((a: AuditRow) => a.tenant == tenant, audits)
  }

  /** All that the four tables hold of one tenant. */
  function Share(st: Store, tenant: string): Store {
    Store(RowsFor(st.rows, tenant), VersionsFor(st.versions, tenant), EvidenceFor(st.evidence, tenant),
        AuditsFor(st.audits, tenant))
  }

  lemma {:induction false} VersionsForSnoc(versions: seq<VersionRow>, v: VersionRow, tenant: string)
    ensures VersionsFor(versions + [v], tenant) == VersionsFor(versions, tenant) + if v.tenant == tenant then [v]
        else []
  {
    FilterSnoc((v: VersionRow) => v.tenant == tenant, versions, v);
  }

  lemma {:induction false} AuditsForSnoc(audits: seq<AuditRow>, a: AuditRow, tenant: string)
    ensures AuditsFor(audits + [a], tenant) == AuditsFor(audits, tenant) + if a.tenant == tenant then [a] else []
  {
    FilterSnoc((a: AuditRow) => a.tenant == tenant, audits, a);
  }

  lemma {:induction false} InsertedShare(st: Store, row: MemoryRow, v: VersionRow, e: EvidenceRow, tenant: string)
    requires row.tenant == v.tenant == e.tenant
    ensures var added := Store(st.rows + [row], st.versions + [v], st.evidence + [e], st.audits);
            var share := Share(st, tenant);
            Share(added, tenant) ==
            if row.tenant == tenant then Store(share.rows + [row], share.versions + [v], share.evidence + [e],
                share.audits) else share
  {
    FilterSnoc((r: MemoryRow) => r.tenant == tenant, st.rows, row);
    VersionsForSnoc(st.versions, v, tenant);
    FilterSnoc((e: EvidenceRow) => e.tenant == tenant, st.evidence, e);
  }

  /** What a tenant sees in a search or a consolidation depends on its share alone. */
  lemma {:induction false} VisibleInShare(st: Store, tenant: string)
    ensures Visible(Share(st, tenant).rows, tenant) == Visible(st.rows, tenant)
  {
    FilterTwice((r: MemoryRow) => r.tenant == tenant && r.status == ACTIVE, (r: MemoryRow) => r.tenant == tenant,
        st.rows);
  }

  lemma {:induction false} ViewInShare(a: Store, b: Store, tenant: string, terms: set<string>,
        tokenize: string -> set<string>, limit: int)
    requires Share(a, tenant) == Share(b, tenant)
    ensures Search(a, tenant, terms, tokenize, limit) == Search(b, tenant, terms, tokenize, limit)
    ensures Consolidate(a, tenant) == Consolidate(b, tenant)
  {
    VisibleInShare(a, tenant);
    VisibleInShare(b, tenant);
  }

  // ---- other tenants' sessions leave it alone ----

  lemma {:induction false} ReviseInvisible(st: Store, ctx: Context, i: nat, content: string, provenance: Provenance,
        action: Action, now: int, tenant: string)
    requires i < |st.rows| && st.rows[i].tenant == ctx.tenant != tenant
    ensures Share(Revise(st, ctx, i, content, provenance, action, now), tenant) == Share(st, tenant)
  {
    var st' := Revise(st, ctx, i, content, provenance, action, now);
    FilterUpdate((r: MemoryRow) => r.tenant == tenant, st.rows, i, st'.rows[i]);
    VersionsForSnoc(st.versions, st'.versions[|st.versions|], tenant);
    AuditsForSnoc(st.audits, st'.audits[|st.audits|], tenant);
  }

  lemma {:induction false} StoreInvisible(digest: string -> string, st: Store, op: Op, tenant: string)
    requires op.StoreOp? && op.ctx.tenant != tenant
    ensures Share(Apply(digest, st, op).0, tenant) == Share(st, tenant)
  {
    var st' := Apply(digest, st, op).0;
    if st' != st {
      AuditsForSnoc(st.audits, st'.audits[|st.audits|], tenant);
      if |st'.rows| > |st.rows| {
        InsertedShare(st, st'.rows[|st.rows|], st'.versions[|st.versions|], st'.evidence[|st.evidence|], tenant);
      }
    }
  }

  lemma {:induction false} StepInvisible(digest: string -> string, st: Store, op: Op, tenant: string)
    requires op.ctx.tenant != tenant
    ensures Share(Apply(digest, st, op).0, tenant) == Share(st, tenant)
  {
    match op {
      case StoreOp(_, _, _, _, _, _) => StoreInvisible(digest, st, op, tenant);
      case UpdateOp(ctx, id, content, expected, now) =>
        if Owns(st, ctx.tenant, id) {
          var i := Find(st.rows, id);
          ReviseInvisible(st, ctx, i, content, st.rows[i].provenance, Updated(expected + 1), now, tenant);
        }
      case RollbackOp(ctx, id, version, now) =>
        var target := FindVersion(st.versions, ctx.tenant, id, version);
        if Owns(st, ctx.tenant, id) && target.Some? {
          ReviseInvisible(st, ctx, Find(st.rows, id), target.value.content, target.value.provenance,
              RolledBack(version), now, tenant);
        }
    }
  }

  lemma {:induction false} RunInvisible(digest: string -> string, st: Store, ops: seq<Op>, tenant: string)
    requires forall i :: 0 <= i < |ops| ==> ops[i].ctx.tenant != tenant
    ensures Share(Run(digest, st, ops), tenant) == Share(st, tenant)
  {
    if ops == [] {
    } else {
      RunInvisible(digest, st, ops[..|ops| - 1], tenant);
      StepInvisible(digest, Run(digest, st, ops[..|ops| - 1]), ops[|ops| - 1], tenant);
    }
  }

  /** Whatever other tenants do, in any number of sessions and with any ids, a tenant's rows,
      versions, evidence, audit trail, search results and consolidation stay exactly as they
      were. */
  lemma {:induction false} TenantsDoNotInterfere(digest: string -> string, st: Store, ops: seq<Op>, tenant: string,
                                                 terms: set<string>, tokenize: string -> set<string>, limit: int)
    requires forall i :: 0 <= i < |ops| ==> ops[i].ctx.tenant != tenant
    ensures var st' := Run(digest, st, ops);
            && Share(st', tenant) == Share(st, tenant)
            && Search(st', tenant, terms, tokenize, limit) == Search(st, tenant, terms, tokenize, limit)
            && Consolidate(st', tenant) == Consolidate(st, tenant)
  {
    RunInvisible(digest, st, ops, tenant);
    ViewInShare(Run(digest, st, ops), st, tenant, terms, tokenize, limit);
  }

  // ---- whose record a store returns ----

  ghost predicate InjectiveDigest(digest: string -> string) {
    forall a, b :: digest(a) == digest(b) ==> a == b
  }

  /** A row's id is the digest of its own key, over the content it was first stored with. */
  ghost predicate Signed(digest: string -> string, st: Store, i: nat)
    requires i < |st.rows|
  {
    var row := st.rows[i];
    var h := VersionsOf(st.versions, row.tenant, row.id);
    h != [] && row.id == digest(JoinedKey(row.tenant, row.namespace, row.memoryType, h[0].content))
  }

  lemma {:induction false} SignedKept(digest: string -> string, st: Store, op: Op, i: nat)
    requires i < |st.rows| && Signed(digest, st, i)
    ensures var st' := Apply(digest, st, op).0;
            i < |st'.rows| && Signed(digest, st', i)
  {
    RowsDescend(digest, st, op, i);
    VersionsPrefix(st.versions, Apply(digest, st, op).0.versions, st.rows[i].tenant, st.rows[i].id);
  }

  lemma {:induction false} NewRowSigned(digest: string -> string, st: Store, op: Op)
    requires Inv(st) && |Apply(digest, st, op).0.rows| > |st.rows|
    ensures Signed(digest, Apply(digest, st, op).0, |st.rows|)
  {
    var st' := Apply(digest, st, op).0;
    var id := st'.rows[|st.rows|].id;
    forall k | 0 <= k < |st.versions|
      ensures st.versions[k].memoryId != id
    {
      assert Owns(st, st.versions[k].tenant, st.versions[k].memoryId);
    }
    NoVersions(st.versions, op.ctx.tenant, id);
    VersionsAppend(st.versions, st'.versions[|st.versions|], op.ctx.tenant, id);
  }

  lemma {:induction false} StepSigned(digest: string -> string, st: Store, op: Op)
    requires Inv(st) && forall i :: 0 <= i < |st.rows| ==> Signed(digest, st, i)
    ensures var st' := Apply(digest, st, op).0;
            forall i :: 0 <= i < |st'.rows| ==> Signed(digest, st', i)
  {
    var st' := Apply(digest, st, op).0;
    forall i | 0 <= i < |st'.rows|
      ensures Signed(digest, st', i)
    {
      if i < |st.rows| {
        SignedKept(digest, st, op, i);
      } else {
        NewRowSigned(digest, st, op);
      }
    }
  }

  lemma {:induction false} AllSigned(digest: string -> string, ops: seq<Op>)
    ensures forall i :: 0 <= i < |Run(digest, EMPTY, ops).rows| ==> Signed(digest, Run(digest, EMPTY, ops), i)
  {
    if ops == [] {
    } else {
      AllSigned(digest, ops[..|ops| - 1]);
      HistoryIsComplete(digest, ops[..|ops| - 1]);
      StepSigned(digest, Run(digest, EMPTY, ops[..|ops| - 1]), ops[|ops| - 1]);
    }
  }

  /** An accepted store returns the row that the table now has under the content's id. */
  lemma {:induction false} StoredRow(digest: string -> string, st: Store, op: Op)
    requires op.StoreOp? && Apply(digest, st, op).1.Ok?
    ensures var (st', r) := Apply(digest, st, op);
            var i := Find(st'.rows, IdOf(digest, op));
            i < |st'.rows| && st'.rows[i] == r.row
  {
    var id := IdOf(digest, op);
    FindAppend(st.rows, NewRow(id, op.ctx, op.content, op.memoryType, op.metadata, op.qdrant, op.now), id);
  }

  /** The row is the caller's: of its tenant, namespace and type, first stored with its content. */
  ghost predicate OwnRow(st: Store, row: MemoryRow, op: Op)
    requires op.StoreOp?
  {
    var h := VersionsOf(st.versions, row.tenant, row.id);
    && row.tenant == op.ctx.tenant && row.namespace == NamespaceOf(op.metadata) && row.memoryType == op.memoryType
    && h != [] && h[0].content == op.content
  }

  ghost predicate ReturnsOwn(digest: string -> string, st: Store, op: Op)
    requires op.StoreOp?
  {
    var (st', r) := Apply(digest, st, op);
    r.Ok? ==> OwnRow(st', r.row, op)
  }

  /** Whatever ran before, by anyone, the store returns the caller's own record. */
  ghost predicate AlwaysReturnsOwn(digest: string -> string, op: Op)
    requires op.StoreOp?
  {
    forall ops: seq<Op> :: ReturnsOwn(digest, Run(digest, EMPTY, ops), op)
  }

  predicate PlainRequest(op: Op) {
    op.StoreOp? ==> ColonFree(op.ctx.tenant) && ColonFree(NamespaceOf(op.metadata)) && ColonFree(op.memoryType)
  }

  predicate ColonFreeRequest(op: Op)
    requires op.StoreOp?
  {
    PlainRequest(op) && ColonFree(op.content)
  }

  lemma {:induction false} KeyColons(t: string, n: string, m: string, c: string)
    ensures Colons(JoinedKey(t, n, m, c)) == Colons(t) + Colons(n) + Colons(m) + Colons(c) + 3
  {
    ColonsJoined(t, n + ":" + (m + ":" + c));
    ColonsJoined(n, m + ":" + c);
    ColonsJoined(m, c);
  }

  /** A key with no colons beyond the three that join it splits in one way only. */
  lemma {:induction false} ColonFreeKeyIsUnique(t: string, n: string, m: string, c: string, t': string, n': string,
        m': string, c': string)
    requires ColonFree(t) && ColonFree(n) && ColonFree(m) && ColonFree(c)
    requires JoinedKey(t, n, m, c) == JoinedKey(t', n', m', c')
    ensures t == t' && n == n' && m == m' && c == c'
  {
    KeyColons(t, n, m, c);
    KeyColons(t', n', m', c');
    NoColons(t); NoColons(n); NoColons(m); NoColons(c);
    NoColons(t'); NoColons(n'); NoColons(m');
    JoinedKeyInjective(t, n, m, c, t', n', m', c');
  }

  lemma {:induction false} ColonFreeIsOwn(digest: string -> string, ops: seq<Op>, op: Op)
    requires InjectiveDigest(digest) && op.StoreOp? && ColonFreeRequest(op)
    ensures ReturnsOwn(digest, Run(digest, EMPTY, ops), op)
  {
    var st := Run(digest, EMPTY, ops);
    var (st', r) := Apply(digest, st, op);
    if r.Ok? {
      AllSigned(digest, ops);
      HistoryIsComplete(digest, ops);
      StepSigned(digest, st, op);
      StoredRow(digest, st, op);
      SignedIsOwn(digest, st', op, Find(st'.rows, IdOf(digest, op)));
    }
  }

  lemma {:induction false} SignedIsOwn(digest: string -> string, st: Store, op: Op, i: nat)
    requires InjectiveDigest(digest) && op.StoreOp? && ColonFreeRequest(op)
    requires i < |st.rows| && Signed(digest, st, i) && st.rows[i].id == IdOf(digest, op)
    ensures OwnRow(st, st.rows[i], op)
  {
    var row := st.rows[i];
    ColonFreeKeyIsUnique(op.ctx.tenant, NamespaceOf(op.metadata), op.memoryType, op.content,
                         row.tenant, row.namespace, row.memoryType,
                             VersionsOf(st.versions, row.tenant, row.id)[0].content);
  }

  function Elsewhere(tenant: string, namespace: string, memoryType: string, content: string): Op {
    StoreOp(Context(tenant, ""), content, memoryType, Metadata(Some(namespace), None, None, None, ""), true, 0)
  }

  /** A request with a colon in any of its four parts shares its key with a request for another
      tenant, namespace or type: the key splits at that colon, too. */
  lemma {:induction false} CollidingRequest(op: Op) returns (t: string, n: string, m: string, c: string)
    requires op.StoreOp? && !ColonFreeRequest(op)
    ensures JoinedKey(t, n, m, c) == JoinedKey(op.ctx.tenant, NamespaceOf(op.metadata), op.memoryType, op.content)
    ensures t != op.ctx.tenant || n != NamespaceOf(op.metadata) || m != op.memoryType
  {
    t, n, m, c := op.ctx.tenant, NamespaceOf(op.metadata), op.memoryType, op.content;
    if !ColonFree(t) {
      var a, b := SplitSomewhere(t);
      assert JoinedKey(a, b + ":" + n, m, c) == JoinedKey(t, n, m, c);
      t, n := a, b + ":" + n;
    } else if !ColonFree(n) {
      var a, b := SplitSomewhere(n);
      assert n + ":" + (m + ":" + c) == a + ":" + ((b + ":" + m) + ":" + c);
      n, m := a, b + ":" + m;
    } else if !ColonFree(m) {
      var a, b := SplitSomewhere(m);
      assert m + ":" + c == a + ":" + (b + ":" + c);
      m, c := a, b + ":" + c;
    } else {
      var a, b := SplitSomewhere(c);
      assert m + ":" + c == (m + ":" + a) + ":" + b;
      m, c := m + ":" + a, b;
    }
  }

  lemma {:induction false} SplitSomewhere(s: string) returns (a: string, b: string)
    requires !ColonFree(s)
    ensures s == a + ":" + b
  {
    var i :| 0 <= i < |s| && s[i] == ':';
    a, b := s[..i], s[i + 1..];
  }

  lemma {:induction false} CollisionReturnsForeign(digest: string -> string, op: Op)
    requires op.StoreOp? && !ColonFreeRequest(op)
    ensures exists f: Op :: !ReturnsOwn(digest, Run(digest, EMPTY, [f]), op)
  {
    var t, n, m, c := CollidingRequest(op);
    var f := Elsewhere(t, n, m, c);
    assert [f][..0] == [];
    assert Run(digest, EMPTY, []) == EMPTY;
    var st := Apply(digest, EMPTY, f).0;
    assert Run(digest, EMPTY, [f]) == st;
    StoredRow(digest, EMPTY, f);
    assert !ReturnsOwn(digest, st, op);
  }

  /** Exactly when a caller can rely on getting its own record: whatever ran before, a store
      returns a record of the caller's tenant, namespace and type that was first stored with
      this content if and only if none of the four holds a colon. */
  lemma {:induction false} OwnRecordIff(digest: string -> string, op: Op)
    requires InjectiveDigest(digest) && op.StoreOp?
    ensures AlwaysReturnsOwn(digest, op) <==> ColonFreeRequest(op)
  {
    if ColonFreeRequest(op) {
      forall ops: seq<Op>
        ensures ReturnsOwn(digest, Run(digest, EMPTY, ops), op)
      {
        ColonFreeIsOwn(digest, ops, op);
      }
    } else {
      CollisionReturnsForeign(digest, op);
      var f :| !ReturnsOwn(digest, Run(digest, EMPTY, [f]), op);
    }
  }

  // ---- tenants that all keep colons out of their names ----

  ghost predicate PlainRows(st: Store) {
    forall i :: 0 <= i < |st.rows| ==>
      ColonFree(st.rows[i].tenant) && ColonFree(st.rows[i].namespace) && ColonFree(st.rows[i].memoryType)
  }

  lemma {:induction false} PlainStep(digest: string -> string, st: Store, op: Op)
    requires PlainRows(st) && PlainRequest(op)
    ensures PlainRows(Apply(digest, st, op).0)
  {
    var st' := Apply(digest, st, op).0;
    forall i | 0 <= i < |st.rows|
      ensures i < |st'.rows| && Descends(st.rows[i], st'.rows[i])
    {
      RowsDescend(digest, st, op, i);
    }
  }

  lemma {:induction false} PlainRun(digest: string -> string, ops: seq<Op>)
    requires forall i :: 0 <= i < |ops| ==> PlainRequest(ops[i])
    ensures PlainRows(Run(digest, EMPTY, ops))
  {
    if ops == [] {
    } else {
      PlainRun(digest, ops[..|ops| - 1]);
      PlainStep(digest, Run(digest, EMPTY, ops[..|ops| - 1]), ops[|ops| - 1]);
    }
  }

  lemma {:induction false} PlainIsOwn(digest: string -> string, st: Store, op: Op, i: nat)
    requires InjectiveDigest(digest) && op.StoreOp? && PlainRequest(op) && PlainRows(st)
    requires i < |st.rows| && Signed(digest, st, i) && st.rows[i].id == IdOf(digest, op)
    ensures OwnRow(st, st.rows[i], op)
  {
    var row := st.rows[i];
    JoinedKeyInjective(op.ctx.tenant, NamespaceOf(op.metadata), op.memoryType, op.content,
                       row.tenant, row.namespace, row.memoryType,
                           VersionsOf(st.versions, row.tenant, row.id)[0].content);
  }

  /** When every store so far had a colon-free tenant, namespace and type, a store with such a
      request returns the caller's own record, whatever the contents. */
  lemma {:induction false} StoreReturnsOwnRecord(digest: string -> string, ops: seq<Op>, op: Op)
    requires InjectiveDigest(digest) && op.StoreOp? && PlainRequest(op)
    requires forall i :: 0 <= i < |ops| ==> PlainRequest(ops[i])
    ensures ReturnsOwn(digest, Run(digest, EMPTY, ops), op)
  {
    var st := Run(digest, EMPTY, ops);
    var (st', r) := Apply(digest, st, op);
    if r.Ok? {
      AllSigned(digest, ops);
      HistoryIsComplete(digest, ops);
      StepSigned(digest, st, op);
      PlainRun(digest, ops);
      PlainStep(digest, st, op);
      StoredRow(digest, st, op);
      PlainIsOwn(digest, st', op, Find(st'.rows, IdOf(digest, op)));
    }
  }

  // ---- a tenant's operations, alone and among others ----

  ghost predicate UniqueIds(rows: seq<MemoryRow>) {
    Distinct((r: MemoryRow) => r.id, rows)
  }

  lemma {:induction false} IdsAreUnique(st: Store)
    requires Inv(st)
    ensures UniqueIds(st.rows)
  {
    var id := (r: MemoryRow) => r.id;
    forall i, j | 0 <= i < j < |st.rows|
      ensures id(st.rows[i]) != id(st.rows[j])
    {
      assert RowInv(st, i) && RowInv(st, j);
    }
  }

  lemma {:induction false} FindUnique(rows: seq<MemoryRow>, k: nat)
    requires UniqueIds(rows) && k < |rows|
    ensures Find(rows, rows[k].id) == k
  {
    var id := (r: MemoryRow) => r.id;
    FindFirst(rows, rows[k].id, k);
    var i := Find(rows, rows[k].id);
    assert id(rows[i]) == id(rows[k]);
  }

  /** Among a tenant's rows an id is found exactly if the tenant owns it in the whole table, and
      then it is the same row. */
  lemma {:induction false} FindInShare(rows: seq<MemoryRow>, tenant: string, id: string)
    requires UniqueIds(rows)
    ensures var own := RowsFor(rows, tenant);
            var i, k := Find(rows, id), Find(own, id);
            && (k < |own| <==> i < |rows| && rows[i].tenant == tenant)
            && (k < |own| ==> own[k] == rows[i] && own[k].tenant == tenant)
  {
    var p := (r: MemoryRow) => r.tenant == tenant;
    var own := RowsFor(rows, tenant);
    var i, k := Find(rows, id), Find(own, id);
    FilterDistinct((r: MemoryRow) => r.id, p, rows);
    if k < |own| {
      FilterMembers(p, rows, k);
      var j :| 0 <= j < |rows| && rows[j] == own[k];
      FindUnique(rows, j);
    } else if i < |rows| && rows[i].tenant == tenant {
      var x := FilterReplace(p, rows, i, rows[i]);
      FindUnique(own, x);
    }
  }

  lemma {:induction false} ReplaceInShare(rows: seq<MemoryRow>, tenant: string, i: nat, row: MemoryRow)
    requires UniqueIds(rows) && i < |rows| && rows[i].tenant == row.tenant == tenant
    ensures var own := RowsFor(rows, tenant);
            var k := Find(own, rows[i].id);
            k < |own| && RowsFor(rows[i := row], tenant) == own[k := row]
  {
    var p := (r: MemoryRow) => r.tenant == tenant;
    FilterDistinct((r: MemoryRow) => r.id, p, rows);
    var k := FilterReplace(p, rows, i, row);
    FindUnique(RowsFor(rows, tenant), k);
  }

  lemma {:induction false} FindVersionInShare(versions: seq<VersionRow>, tenant: string, id: string, n: int)
    ensures FindVersion(VersionsFor(versions, tenant), tenant, id, n) == FindVersion(versions, tenant, id, n)
  {
    if versions == [] {
    } else {
      var front, v := versions[..|versions| - 1], versions[|versions| - 1];
      FindVersionInShare(front, tenant, id, n);
      var own := VersionsFor(front, tenant);
      assert versions == front + [v];
      VersionsForSnoc(front, v, tenant);
      assert (own + [v])[..|own + [v]| - 1] == own && own + [] == own;
    }
  }

  /** Revising a row and taking the owner's share commute. */
  lemma {:induction false} ReviseInShare(st: Store, ctx: Context, i: nat, content: string, provenance: Provenance,
        action: Action, now: int)
    requires UniqueIds(st.rows) && i < |st.rows| && st.rows[i].tenant == ctx.tenant
    ensures var share := Share(st, ctx.tenant);
            var k := Find(share.rows, st.rows[i].id);
            && k < |share.rows| && share.rows[k] == st.rows[i]
            && Revise(share, ctx, k, content, provenance, action, now) ==
               Share(Revise(st, ctx, i, content, provenance, action, now), ctx.tenant)
  {
    var st' := Revise(st, ctx, i, content, provenance, action, now);
    FindUnique(st.rows, i);
    FindInShare(st.rows, ctx.tenant, st.rows[i].id);
    ReplaceInShare(st.rows, ctx.tenant, i, st'.rows[i]);
    VersionsForSnoc(st.versions, st'.versions[|st.versions|], ctx.tenant);
    AuditsForSnoc(st.audits, st'.audits[|st.audits|], ctx.tenant);
  }

  /** The session has the same outcome on the tenant's share, and the same effect on it. */
  ghost predicate SameInShare(digest: string -> string, st: Store, op: Op) {
    var (st', r) := Apply(digest, st, op);
    Apply(digest, Share(st, op.ctx.tenant), op) == (Share(st', op.ctx.tenant), r)
  }

  /** Two stores agree about an id: the tenant owns it in both or in neither, as the same row. */
  ghost predicate AgreeOn(st: Store, share: Store, tenant: string, id: string) {
    && (Owns(st, tenant, id) <==> Owns(share, tenant, id))
    && (Owns(st, tenant, id) ==> share.rows[Find(share.rows, id)] == st.rows[Find(st.rows, id)])
  }

  lemma {:induction false} ShareAgrees(st: Store, tenant: string, id: string)
    requires UniqueIds(st.rows)
    ensures AgreeOn(st, Share(st, tenant), tenant, id)
  {
    FindInShare(st.rows, tenant, id);
  }

  /** Stores that agree about an id decide alike about revising it. */
  lemma {:induction false} UpdateAgrees(st: Store, share: Store, ctx: Context, id: string, content: string,
        expected: int, now: int)
    requires AgreeOn(st, share, ctx.tenant, id)
    ensures UpdateMemory(share, ctx, id, content, expected, now).1 == UpdateMemory(st, ctx, id, content, expected,
        now).1
  {
  }

  lemma {:induction false} UpdateSameInShare(digest: string -> string, st: Store, op: Op)
    requires UniqueIds(st.rows) && op.UpdateOp?
    ensures SameInShare(digest, st, op)
  {
    var share := Share(st, op.ctx.tenant);
    ShareAgrees(st, op.ctx.tenant, op.id);
    UpdateAgrees(st, share, op.ctx, op.id, op.content, op.expected, op.now);
    if UpdateMemory(st, op.ctx, op.id, op.content, op.expected, op.now).1.Ok? {
      var i := Find(st.rows, op.id);
      ReviseInShare(st, op.ctx, i, op.content, st.rows[i].provenance, Updated(op.expected + 1), op.now);
    }
  }

  lemma {:induction false} RollbackAgrees(st: Store, share: Store, ctx: Context, id: string, version: int, now: int)
    requires AgreeOn(st, share, ctx.tenant, id)
    requires FindVersion(share.versions, ctx.tenant, id, version) == FindVersion(st.versions, ctx.tenant, id, version)
    ensures RollbackMemory(share, ctx, id, version, now).1 == RollbackMemory(st, ctx, id, version, now).1
  {
  }

  lemma {:induction false} RollbackSameInShare(digest: string -> string, st: Store, op: Op)
    requires UniqueIds(st.rows) && op.RollbackOp?
    ensures SameInShare(digest, st, op)
  {
    var share := Share(st, op.ctx.tenant);
    ShareAgrees(st, op.ctx.tenant, op.id);
    FindVersionInShare(st.versions, op.ctx.tenant, op.id, op.version);
    RollbackAgrees(st, share, op.ctx, op.id, op.version, op.now);
    if RollbackMemory(st, op.ctx, op.id, op.version, op.now).1.Ok? {
      var target := FindVersion(st.versions, op.ctx.tenant, op.id, op.version).value;
      ReviseInShare(st, op.ctx, Find(st.rows, op.id), target.content, target.provenance, RolledBack(op.version),
          op.now);
    }
  }

  lemma {:induction false} StoreSameInShare(digest: string -> string, st: Store, op: Op)
    requires UniqueIds(st.rows) && op.StoreOp?
    requires var i := Find(st.rows, IdOf(digest, op));
             i < |st.rows| ==> st.rows[i].tenant == op.ctx.tenant
    ensures SameInShare(digest, st, op)
  {
    var t, id := op.ctx.tenant, IdOf(digest, op);
    FindInShare(st.rows, t, id);
    AuditsForSnoc(st.audits, AuditRow(t, op.ctx.actor, Written(op.qdrant), id), t);
    var row := NewRow(id, op.ctx, op.content, op.memoryType, op.metadata, op.qdrant, op.now);
    InsertedShare(st, row, VersionRow(t, id, 1, op.content, row.provenance),
        EvidenceRow(t, id, row.source, row.provenance), t);
  }

  lemma {:induction false} OwnStep(digest: string -> string, ops: seq<Op>, op: Op)
    requires InjectiveDigest(digest) && PlainRequest(op)
    requires forall i :: 0 <= i < |ops| ==> PlainRequest(ops[i])
    ensures SameInShare(digest, Run(digest, EMPTY, ops), op)
  {
    var st := Run(digest, EMPTY, ops);
    HistoryIsComplete(digest, ops);
    IdsAreUnique(st);
    if op.StoreOp? {
      var i := Find(st.rows, IdOf(digest, op));
      if i < |st.rows| {
        AllSigned(digest, ops);
        PlainRun(digest, ops);
        PlainIsOwn(digest, st, op, i);
      }
      StoreSameInShare(digest, st, op);
    } else if op.UpdateOp? {
      UpdateSameInShare(digest, st, op);
    } else {
      RollbackSameInShare(digest, st, op);
    }
  }

  function OwnOps(ops: seq<Op>, tenant: string): seq<Op> {
    Filter((op: Op) => op.ctx.tenant == tenant, ops)
  }

  lemma {:induction false} ShareIsOwnRun(digest: string -> string, ops: seq<Op>, tenant: string)
    requires InjectiveDigest(digest) && forall i :: 0 <= i < |ops| ==> PlainRequest(ops[i])
    ensures Share(Run(digest, EMPTY, ops), tenant) == Run(digest, EMPTY, OwnOps(ops, tenant))
  {
    if ops == [] {
    } else {
      var front, op := ops[..|ops| - 1], ops[|ops| - 1];
      var own := OwnOps(front, tenant);
      ShareIsOwnRun(digest, front, tenant);
      if op.ctx.tenant == tenant {
        OwnStep(digest, front, op);
        assert (own + [op])[..|own + [op]| - 1] == own;
        assert OwnOps(ops, tenant) == own + [op];
      } else {
        StepInvisible(digest, Run(digest, EMPTY, front), op, tenant);
        assert OwnOps(ops, tenant) == own + [] == own;
      }
    }
  }

  /** A tenant's run alone: with colon-free tenants, namespaces and types, a tenant's share of the
      store is what its own operations alone would have made of an empty store, and each of its
      operations has the outcome that it would have had there. */
  lemma {:induction false} TenantRunsAlone(digest: string -> string, ops: seq<Op>, tenant: string)
    requires InjectiveDigest(digest) && forall i :: 0 <= i < |ops| ==> PlainRequest(ops[i])
    ensures Share(Run(digest, EMPTY, ops), tenant) == Run(digest, EMPTY, OwnOps(ops, tenant))
    ensures forall i :: 0 <= i < |ops| && ops[i].ctx.tenant == tenant ==>
              Apply(digest, Run(digest, EMPTY, ops[..i]), ops[i]).1 ==
              Apply(digest, Run(digest, EMPTY, OwnOps(ops[..i], tenant)), ops[i]).1
  {
    ShareIsOwnRun(digest, ops, tenant);
    forall i | 0 <= i < |ops| && ops[i].ctx.tenant == tenant
      ensures Apply(digest, Run(digest, EMPTY, ops[..i]), ops[i]).1 ==
              Apply(digest, Run(digest, EMPTY, OwnOps(ops[..i], tenant)), ops[i]).1
    {
      OwnStep(digest, ops[..i], ops[i]);
      ShareIsOwnRun(digest, ops[..i], tenant);
    }
  }

  // ---- storing again ----

  lemma {:induction false} RunKeepsRow(digest: string -> string, st: Store, ops: seq<Op>, id: string)
    requires Find(st.rows, id) < |st.rows|
    ensures var st' := Run(digest, st, ops);
            var i := Find(st.rows, id);
            i < |st'.rows| && Find(st'.rows, id) == i && Descends(st.rows[i], st'.rows[i])
  {
    if ops == [] {
    } else {
      RunKeepsRow(digest, st, ops[..|ops| - 1], id);
      StepKeepsRow(digest, Run(digest, st, ops[..|ops| - 1]), ops[|ops| - 1], id);
    }
  }

  /** Storing the same again, at any later time and whatever ran in between, adds nothing but an
      audit event and returns the row as it is by then: the row first returned, with the same id
      and provenance and another content only under a higher version. */
  lemma {:induction false} StoringAgainOnlyAudits(digest: string -> string, st: Store, op: Op, between: seq<Op>)
    requires op.StoreOp? && Apply(digest, st, op).1.Ok?
    ensures var (first, r) := Apply(digest, st, op);
            var later := Run(digest, first, between);
            var (again, r') := Apply(digest, later, op);
            && r'.Ok? && r'.row in later.rows && Descends(r.row, r'.row)
            && again == later.(audits := later.audits + [AuditRow(op.ctx.tenant, op.ctx.actor, Written(op.qdrant),
                r.row.id)])
  {
    StoredRow(digest, st, op);
    RunKeepsRow(digest, Apply(digest, st, op).0, between, IdOf(digest, op));
  }

  /** A collision in the open: tenant "a" gets the record of tenant "a:b". */
  lemma {:induction false} CollidingStoreReturnsForeignRecord(digest: string -> string, content: string, md: Metadata,
        now: int)
    requires md.namespace == Some("n") && md.confidence.None?
    ensures var first := StoreOp(Context("a:b", "x"), content, "m", md, true, now);
            var second := StoreOp(Context("a", "y"), "m:" + content, "n", md.(namespace := Some("b")), true, now);
            var r := Apply(digest, Apply(digest, EMPTY, first).0, second).1;
            r.Ok? && r.row.tenant == "a:b" && r.row.content == content
  {
    var first := StoreOp(Context("a:b", "x"), content, "m", md, true, now);
    JoinedKeyCollides("n", "m", content);
    assert "m" + ":" + content == "m:" + content;
    StoredRow(digest, EMPTY, first);
  }
}
