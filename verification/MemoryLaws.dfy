/** What each call of the memory store does, told from its arguments: the row that a store or an
    update leaves behind, the audit trail, the evidence, scores and summaries. */
module MemoryLaws {
  import opened Tables
  import opened Ordering
  import opened Memory
  import opened MemoryTheorems

  // ---- update ----

  /** The tenant has a memory with this id. */
  ghost predicate Has(st: Store, tenant: string, id: string) {
    exists i :: 0 <= i < |st.rows| && st.rows[i].id == id && st.rows[i].tenant == tenant
  }

  lemma {:induction false} OwnsIffHas(st: Store, tenant: string, id: string)
    requires Inv(st)
    ensures Owns(st, tenant, id) <==> Has(st, tenant, id)
  {
    if i :| 0 <= i < |st.rows| && st.rows[i].id == id && st.rows[i].tenant == tenant {
      assert RowInv(st, i);
    }
  }

  /** Row i is revised to this content at this time, and nothing else in the rows changes. */
  ghost predicate RowRevised(st: Store, st': Store, i: nat, content: string, now: int)
    requires i < |st.rows|
  {
    && |st'.rows| == |st.rows|
    && st'.rows[i] == st.rows[i].(content := content, version := st.rows[i].version + 1, updatedAt := now)
    && forall j :: 0 <= j < |st.rows| && j != i ==> st'.rows[j] == st.rows[j]
  }

  /** What an update does to a store. */
  ghost predicate Updates(st: Store, op: Op, st': Store, r: Outcome)
    requires op.UpdateOp?
  {
    var i := Find(st.rows, op.id);
    && (r.Ok? <==> Has(st, op.ctx.tenant, op.id) && VersionOf(st, op.id) == op.expected)
    && (r == NotFound <==> !Has(st, op.ctx.tenant, op.id))
    && (!r.Ok? ==> st' == st && r in {NotFound, Stale})
    && (r.Ok? ==>
          && i < |st.rows| && RowRevised(st, st', i, op.content, op.now) && r.row == st'.rows[i]
          && r.row.content == op.content && r.row.version == op.expected + 1 && r.row.id == op.id
          && st'.versions == st.versions
             + [VersionRow(op.ctx.tenant, op.id, op.expected + 1, op.content, st.rows[i].provenance)])
  }

  /** An update in any run: it is accepted if and only if the caller's tenant has the memory at the
      expected version. Then the returned row has the given content as its next version, which is
      also appended to the history; every other row is as it was. Otherwise nothing changes: not
      found if the tenant has no such memory, stale if it has another version. */
  lemma {:induction false} UpdateLaw(digest: string -> string, ops: seq<Op>, op: Op)
    requires op.UpdateOp?
    ensures var st := Run(digest, EMPTY, ops);
            Updates(st, op, Apply(digest, st, op).0, Apply(digest, st, op).1)
  {
    HistoryIsComplete(digest, ops);
    OwnsIffHas(Run(digest, EMPTY, ops), op.ctx.tenant, op.id);
  }

  /** What an accepted update wrote stays: in every continuation, entry `expected` of the memory's
      history (the first is entry 0) has the update's content, as version `expected + 1`. */
  lemma {:induction false} UpdateStays(digest: string -> string, ops: seq<Op>, i: nat)
    requires i < |ops| && ops[i].UpdateOp? && Apply(digest, Run(digest, EMPTY, ops[..i]), ops[i]).1.Ok?
    ensures var h := VersionsOf(Run(digest, EMPTY, ops).versions, ops[i].ctx.tenant, ops[i].id);
            && 1 <= ops[i].expected < |h|
            && h[ops[i].expected].content == ops[i].content && h[ops[i].expected].version == ops[i].expected + 1
  {
    var op, front := ops[i], ops[..i];
    var st, after := Run(digest, EMPTY, front), Run(digest, EMPTY, ops[..i + 1]);
    assert ops[..i + 1][..i] == front;
    UpdateLaw(digest, front, op);
    HistoryIsComplete(digest, front);
    assert RowInv(st, Find(st.rows, op.id));
    VersionsAppend(st.versions, after.versions[|st.versions|], op.ctx.tenant, op.id);
    HistoryIsAppendOnly(digest, ops, i + 1, op.ctx.tenant, op.id);
  }

  // ---- rollback ----

  /** What a rollback does to a store. */
  ghost predicate RollsBack(st: Store, op: Op, st': Store, r: Outcome)
    requires op.RollbackOp?
  {
    var i, h := Find(st.rows, op.id), VersionsOf(st.versions, op.ctx.tenant, op.id);
    && (r.Ok? <==> Has(st, op.ctx.tenant, op.id) && 1 <= op.version <= VersionOf(st, op.id))
    && (!r.Ok? ==> st' == st && r == NotFound)
    && (r.Ok? ==>
          && i < |st.rows| && 1 <= op.version <= |h| && RowRevised(st, st', i, h[op.version - 1].content, op.now)
          && r.row == st'.rows[i] && r.row.id == op.id)
  }

  lemma {:induction false} RollbackStep(st: Store, op: Op)
    requires Inv(st) && op.RollbackOp?
    ensures RollsBack(st, op, RollbackMemory(st, op.ctx, op.id, op.version, op.now).0,
                      RollbackMemory(st, op.ctx, op.id, op.version, op.now).1)
  {
    OwnsIffHas(st, op.ctx.tenant, op.id);
    if Owns(st, op.ctx.tenant, op.id) {
      assert RowInv(st, Find(st.rows, op.id));
      RollbackTarget(st, Find(st.rows, op.id), op.version);
    }
  }

  /** A rollback in any run: it is accepted if and only if the caller's tenant has the memory and the
      version is one that it has reached; then the returned row has that version's content as its
      next version, and every other row is as it was. Otherwise nothing changes. */
  lemma {:induction false} RollbackLaw(digest: string -> string, ops: seq<Op>, op: Op)
    requires op.RollbackOp?
    ensures var st := Run(digest, EMPTY, ops);
            RollsBack(st, op, Apply(digest, st, op).0, Apply(digest, st, op).1)
  {
    HistoryIsComplete(digest, ops);
    RollbackStep(Run(digest, EMPTY, ops), op);
  }

  // ---- store ----

  /** The row of a new memory, from the request. */
  ghost predicate StoredAs(row: MemoryRow, id: string, op: Op)
    requires op.StoreOp?
  {
    && row.id == id && row.tenant == op.ctx.tenant && row.memoryType == op.memoryType && row.content == op.content
    && row.namespace == (if op.metadata.namespace.Some? then op.metadata.namespace.value else "default")
    && row.source == (if op.metadata.source.Some? then op.metadata.source.value else "api")
    && row.provenance == (if op.metadata.provenance.Some? then Given(op.metadata.provenance.value)
                          else FromSource(row.source))
    && row.confidence == (if op.metadata.confidence.Some? then op.metadata.confidence.value else 1.0)
    && 0.0 <= row.confidence <= 1.0
    && row.embeddingId == (if op.qdrant then Some("qdrant:" + id) else None)
    && row.status == ACTIVE && row.version == 1 && row.createdAt == op.now && row.updatedAt == op.now
    && row.metadata == op.metadata
  }

  /** A store of unknown content adds one row, made from the request, with its first version and
      its evidence; it is rejected if and only if the confidence asked for is outside [0, 1]. */
  lemma {:induction false} StoreLaw(digest: string -> string, st: Store, op: Op)
    requires op.StoreOp? && forall i :: 0 <= i < |st.rows| ==> st.rows[i].id != IdOf(digest, op)
    ensures var (st', r) := Apply(digest, st, op);
            var id := IdOf(digest, op);
            && (r == Rejected <==> op.metadata.confidence.Some? && !(0.0 <= op.metadata.confidence.value <= 1.0))
            && (r == Rejected ==> st' == st)
            && (r != Rejected ==>
                  && r.Ok? && StoredAs(r.row, id, op) && st'.rows == st.rows + [r.row]
                  && st'.versions == st.versions + [VersionRow(op.ctx.tenant, id, 1, op.content, r.row.provenance)]
                  && st'.evidence == st.evidence + [EvidenceRow(op.ctx.tenant, id, r.row.source, r.row.provenance)])
  {
    assert Find(st.rows, IdOf(digest, op)) == |st.rows|;
  }

  // ---- the audit trail ----

  /** What an accepted operation leaves in the audit trail. */
  function AuditFor(digest: string -> string, op: Op): AuditRow {
    match op
    case StoreOp(ctx, content, memoryType, md, qdrant, now) =>
      AuditRow(ctx.tenant, ctx.actor, Written(qdrant), IdOf(digest, op))
    case UpdateOp(ctx, id, content, expected, now) => AuditRow(ctx.tenant, ctx.actor, Updated(expected + 1), id)
    case RollbackOp(ctx, id, version, now) => AuditRow(ctx.tenant, ctx.actor, RolledBack(version), id)
  }

  function Trail(digest: string -> string, ops: seq<Op>): seq<AuditRow> {
    if ops == [] then []
    else
      var front, op := ops[..|ops| - 1], ops[|ops| - 1];
      Trail(digest, front) + if Apply(digest, Run(digest, EMPTY, front), op).1.Ok? then [AuditFor(digest, op)] else []
  }

  /** In every run the audit trail has one event for each accepted operation, in order, with its
      tenant, actor, action and memory, and none for a refused one. */
  lemma {:induction false} AuditTrailIsComplete(digest: string -> string, ops: seq<Op>)
    ensures Run(digest, EMPTY, ops).audits == Trail(digest, ops)
  {
    if ops == [] {
    } else {
      AuditTrailIsComplete(digest, ops[..|ops| - 1]);
      StepAudits(digest, Run(digest, EMPTY, ops[..|ops| - 1]), ops[|ops| - 1]);
    }
  }

  lemma {:induction false} StepAudits(digest: string -> string, st: Store, op: Op)
    ensures var (st', r) := Apply(digest, st, op);
            st'.audits == st.audits + if r.Ok? then [AuditFor(digest, op)] else []
  {
  }

  // ---- evidence ----

  ghost predicate Evidenced(row: MemoryRow, e: EvidenceRow) {
    e.tenant == row.tenant && e.memoryId == row.id && e.source == row.source && e.evidence == row.provenance
  }

  ghost predicate AllEvidenced(st: Store) {
    |st.evidence| == |st.rows| && forall i :: 0 <= i < |st.rows| ==> Evidenced(st.rows[i], st.evidence[i])
  }

  lemma {:induction false} StepEvidences(digest: string -> string, st: Store, op: Op)
    requires AllEvidenced(st)
    ensures AllEvidenced(Apply(digest, st, op).0)
  {
    var st' := Apply(digest, st, op).0;
    forall i | 0 <= i < |st.rows|
      ensures i < |st'.rows| && Descends(st.rows[i], st'.rows[i])
    {
      RowsDescend(digest, st, op, i);
    }
  }

  /** In every run each memory has exactly one piece of evidence, with its source and provenance. */
  lemma {:induction false} EvidenceMatchesRows(digest: string -> string, ops: seq<Op>)
    ensures AllEvidenced(Run(digest, EMPTY, ops))
  {
    if ops == [] {
    } else {
      EvidenceMatchesRows(digest, ops[..|ops| - 1]);
      StepEvidences(digest, Run(digest, EMPTY, ops[..|ops| - 1]), ops[|ops| - 1]);
    }
  }

  // ---- scores ----

  /** The score, times the number of query terms, is the number of those terms that occur. */
  lemma {:induction false} ScoreCounts(terms: set<string>, tokens: set<string>)
    ensures Score(terms, tokens) * |terms| as real == |set t | t in terms && t in tokens| as real
  {
    assert terms * tokens == set t | t in terms && t in tokens;
    if terms == {} {
      assert terms * tokens == {};
    } else {
      TimesAndBack(|terms * tokens| as real, |terms| as real);
    }
  }

  lemma {:induction false} TimesAndBack(part: real, whole: real)
    requires whole >= 1.0
    ensures part / whole * whole == part
  {
  }

  // ---- consolidation ----

  /** Where part k starts in the joined text. */
  function Offset(parts: seq<string>, k: nat): nat
    requires k <= |parts|
  {
    if k == 0 then 0 else Offset(parts, k - 1) + |parts[k - 1]| + 1
  }

  lemma {:induction false} OffsetPrefix(parts: seq<string>, k: nat, n: nat)
    requires k <= n <= |parts|
    ensures Offset(parts[..n], k) == Offset(parts, k)
  {
    if k == 0 {
    } else {
      OffsetPrefix(parts, k - 1, n);
    }
  }

  /** Joining keeps every part, in order, with one space between neighbours. */
  lemma {:induction false} JoinKeepsParts(parts: seq<string>, k: nat)
    requires k < |parts|
    ensures |Join(parts)| == Offset(parts, |parts|) - 1
    ensures Offset(parts, k) + |parts[k]| <= |Join(parts)|
    ensures Join(parts)[Offset(parts, k)..Offset(parts, k) + |parts[k]|] == parts[k]
    ensures k > 0 ==> 0 < Offset(parts, k) <= |Join(parts)| && Join(parts)[Offset(parts, k) - 1] == ' '
    decreases |parts|
  {
    var n := |parts| - 1;
    if n == 0 {
    } else {
      var front := parts[..n];
      var j := if k < n then k else n - 1;
      JoinKeepsParts(front, j);
      OffsetPrefix(parts, n, n);
      OffsetPrefix(parts, k, n);
      OffsetPrefix(parts, j, n);
      assert Join(parts) == Join(front) + " " + parts[n];
    }
  }

  /** The contents of a type are those of its rows, in table order. */
  lemma {:induction false} ContentsAreOfType(rows: seq<MemoryRow>, k: string)
    ensures var own := Filter((r: MemoryRow) => r.memoryType == k, rows);
            |ContentsOf(rows, k)| == |own| && forall i :: 0 <= i < |own| ==> ContentsOf(rows, k)[i] == own[i].content
  {
    if rows == [] {
    } else {
      ContentsAreOfType(rows[..|rows| - 1], k);
    }
  }

  /** A consolidation has a summary for exactly the types of the tenant's ACTIVE rows; it is the
      first 500 characters of their joined contents, all of them if there are no more. */
  lemma {:induction false} ConsolidationIs(st: Store, tenant: string, k: string)
    ensures k in Consolidate(st, tenant) <==>
            exists r :: r in st.rows && r.tenant == tenant && r.status == ACTIVE && r.memoryType == k
    ensures k in Consolidate(st, tenant) ==>
            var text, summary := Join(ContentsOf(Visible(st.rows, tenant), k)), Consolidate(st, tenant)[k];
            summary <= text && |summary| == if |text| < 500 then |text| else 500
  {
    VisibleRows(st.rows, tenant);
  }
}
