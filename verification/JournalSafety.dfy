/** What every operation on the bank journal keeps, and what therefore holds after any run. */
module JournalSafety {
  import opened JournalModel
  import opened Wrappers

  // ---------- the invariant, table by table ----------

  ghost predicate SourceOk(t: Tables, s: Id)
    requires s in t.sources
  {
    s < t.nextSource && t.sources[s].txnId in t.txns && t.sources[s].statementId in t.statements
  }

  ghost predicate ConflictOk(t: Tables, c: Id)
    requires c in t.conflicts
  {
    && c < t.nextConflict && t.conflicts[c].canonicalId in t.txns
    && t.conflicts[c].statementId < t.nextStatement
    && (t.conflicts[c].open ==> t.conflicts[c].statementId in t.statements)
  }

  /** The statement a movement came from still evidences it. */
  ghost predicate IsEvidenced(t: Tables, id: Id, sid: Id) {
    exists s :: s in t.sources && t.sources[s].txnId == id && t.sources[s].statementId == sid
  }

  ghost predicate TxnOk(t: Tables, id: Id)
    requires id in t.txns
  {
    && id < t.nextTxn
    && (t.txns[id].statementId.Some? ==> IsEvidenced(t, id, t.txns[id].statementId.value))
    && (IdentityOf(t.txns[id]).Some? ==>
          IdentityOf(t.txns[id]).value in t.identityIndex && t.identityIndex[IdentityOf(t.txns[id]).value] == id)
  }

  ghost predicate IndexOk(t: Tables, k: Identity)
    requires k in t.identityIndex
  {
    t.identityIndex[k] in t.txns && IdentityOf(t.txns[t.identityIndex[k]]) == Some(k)
  }

  ghost predicate StatementOk(t: Tables, s: Id)
    requires s in t.statements
  {
    && s < t.nextStatement
    && (t.statements[s].contentKey.Some? ==>
          t.statements[s].contentKey.value in t.contentIndex && t.contentIndex[t.statements[s].contentKey.value] == s)
  }

  ghost predicate ContentOk(t: Tables, k: ContentKey)
    requires k in t.contentIndex
  {
    t.contentIndex[k] in t.statements && t.statements[t.contentIndex[k]].contentKey == Some(k)
  }

  ghost predicate RepairOk(t: Tables, r: Id)
    requires r in t.repairs
  {
    && r < t.nextRepair && t.repairs[r].survivorId in t.txns
    && t.repairs[r].duplicateId in t.aliases
    && t.aliases[t.repairs[r].duplicateId] == Alias(t.repairs[r].survivorId, r)
  }

  ghost predicate AliasOk(t: Tables, a: Id)
    requires a in t.aliases
  {
    && a < t.nextTxn && a !in t.txns && t.aliases[a].canonicalId in t.txns
    && t.aliases[a].repairId in t.repairs
    && t.repairs[t.aliases[a].repairId] == Repair(t.aliases[a].canonicalId, a)
  }

  ghost predicate FinancialOk(t: Tables) {
    && (forall m :: m in t.matches ==> t.matches[m].txnId in t.txns)
    && (forall u :: u in t.settlementUsage ==> u in t.txns)
    && (forall a :: a in t.advances ==> t.advances[a] in t.txns)
  }

  ghost predicate EvidenceOk(t: Tables) {
    && (forall s :: s in t.sources ==> SourceOk(t, s))
    && (forall c :: c in t.conflicts ==> ConflictOk(t, c))
  }

  ghost predicate TxnsOk(t: Tables) {
    && (forall id :: id in t.txns ==> TxnOk(t, id))
    && (forall k :: k in t.identityIndex ==> IndexOk(t, k))
  }

  ghost predicate StatementsOk(t: Tables) {
    && (forall s :: s in t.statements ==> StatementOk(t, s))
    && (forall k :: k in t.contentIndex ==> ContentOk(t, k))
  }

  ghost predicate RepairsOk(t: Tables) {
    && (forall r :: r in t.repairs ==> RepairOk(t, r))
    && (forall a :: a in t.aliases ==> AliasOk(t, a))
  }

  /** Every reference of every table points at a live row, the unique keys are unique, removed
      ids stay removed, and a survivor is live. */
  ghost predicate Valid(t: Tables) {
    EvidenceOk(t) && TxnsOk(t) && StatementsOk(t) && RepairsOk(t) && FinancialOk(t)
  }

  // ---------- what an operation may do to the canonical rows ----------

  /** Canonical rows are only added, or removed when nothing financial refers to them; a row
      that stays keeps its money facts, its account and its identity; ids are not reused. */
  ghost predicate Preserves(t: Tables, t': Tables) {
    && t.nextTxn <= t'.nextTxn
    && (forall id :: id in t.txns && id !in t'.txns ==> !HasFinancialReferences(t, id))
    && (forall id :: id in t.txns && id in t'.txns ==> SameMovement(t.txns[id], t'.txns[id]))
    && (forall id :: id in t'.txns && id !in t.txns ==> t.nextTxn <= id)
  }

  ghost predicate SameMovement(x: Txn, y: Txn) {
    && x.facts == y.facts && x.accountId == y.accountId
    && x.provider == y.provider && x.accountRef == y.accountRef && x.externalId == y.externalId
  }

  /** An import only adds canonical rows. */
  ghost predicate Grows(t: Tables, t': Tables) {
    && t.nextTxn <= t'.nextTxn
    && (forall id :: id in t.txns ==> id in t'.txns && t'.txns[id] == t.txns[id])
    && (forall id :: id in t'.txns && id !in t.txns ==> t.nextTxn <= id)
    && t'.matches == t.matches && t'.settlementUsage == t.settlementUsage && t'.advances == t.advances
    && t'.repairs == t.repairs && t'.aliases == t.aliases
  }

  lemma GrowsTransitive(a: Tables, b: Tables, c: Tables)
    requires Grows(a, b) && Grows(b, c)
    ensures Grows(a, c)
  {}

  // ---------- import ----------

  lemma StatementAdded(t: Tables, i: StatementInput)
    requires Valid(t) && !IsReplay(t, i)
    ensures Valid(AddStatement(t, i)) && Grows(t, AddStatement(t, i))
    ensures t.nextStatement in AddStatement(t, i).statements
  {
    var t' := AddStatement(t, i);
    forall s | s in t'.sources ensures SourceOk(t', s) { assert SourceOk(t, s); }
    forall c | c in t'.conflicts ensures ConflictOk(t', c) { assert ConflictOk(t, c); }
    SameTxns(t, t');
    StatementAddedStatements(t, i);
    forall r | r in t'.repairs ensures RepairOk(t', r) { assert RepairOk(t, r); }
    forall a | a in t'.aliases ensures AliasOk(t', a) { assert AliasOk(t, a); }
  }

  lemma StatementAddedStatements(t: Tables, i: StatementInput)
    requires StatementsOk(t) && !IsReplay(t, i)
    ensures StatementsOk(AddStatement(t, i))
  {
    var t' := AddStatement(t, i);
    forall s | s in t'.statements ensures StatementOk(t', s) {
      if s != t.nextStatement { assert StatementOk(t, s); }
    }
    forall k | k in t'.contentIndex ensures ContentOk(t', k) {
      if k in t.contentIndex { assert ContentOk(t, k); assert StatementOk(t, t.contentIndex[k]); }
    }
  }

  lemma EvidencedAfterSource(t: Tables, s: Source, id: Id, sid: Id)
    requires EvidenceOk(t) && IsEvidenced(t, id, sid)
    ensures IsEvidenced(AddSource(t, s), id, sid)
  {
    var x :| x in t.sources && t.sources[x].txnId == id && t.sources[x].statementId == sid;
    assert SourceOk(t, x);
    assert x in AddSource(t, s).sources && AddSource(t, s).sources[x] == t.sources[x];
  }

  lemma SourceAdded(t: Tables, s: Source)
    requires Valid(t) && s.txnId in t.txns && s.statementId in t.statements
    ensures Valid(AddSource(t, s)) && Grows(t, AddSource(t, s))
  {
    var t' := AddSource(t, s);
    forall x | x in t'.sources ensures SourceOk(t', x) {
      if x != t.nextSource { assert SourceOk(t, x); }
    }
    forall c | c in t'.conflicts ensures ConflictOk(t', c) { assert ConflictOk(t, c); }
    forall id | id in t'.txns ensures TxnOk(t', id) {
      assert TxnOk(t, id);
      if t.txns[id].statementId.Some? { EvidencedAfterSource(t, s, id, t.txns[id].statementId.value); }
    }
    forall k | k in t'.identityIndex ensures IndexOk(t', k) { assert IndexOk(t, k); }
    CopiedTables(t, t');
  }

  /** Tables an operation does not touch keep their invariants. */
  lemma CopiedTables(t: Tables, t': Tables)
    requires StatementsOk(t) && RepairsOk(t) && FinancialOk(t)
    requires t'.statements == t.statements && t'.contentIndex == t.contentIndex && t'.nextStatement == t.nextStatement
    requires t'.repairs == t.repairs && t'.aliases == t.aliases && t'.nextRepair == t.nextRepair
    requires t'.matches == t.matches && t'.settlementUsage == t.settlementUsage && t'.advances == t.advances
    requires t.txns.Keys <= t'.txns.Keys && t.nextTxn <= t'.nextTxn
    requires forall a :: a in t.aliases ==> a !in t'.txns
    ensures StatementsOk(t') && RepairsOk(t') && FinancialOk(t')
  {
    forall s | s in t'.statements ensures StatementOk(t', s) { assert StatementOk(t, s); }
    forall k | k in t'.contentIndex ensures ContentOk(t', k) { assert ContentOk(t, k); }
    forall r | r in t'.repairs ensures RepairOk(t', r) { assert RepairOk(t, r); }
    forall a | a in t'.aliases ensures AliasOk(t', a) { assert AliasOk(t, a); }
  }

  lemma ConflictAdded(t: Tables, c: Conflict)
    requires Valid(t) && c.canonicalId in t.txns && c.statementId in t.statements
    ensures Valid(AddConflict(t, c)) && Grows(t, AddConflict(t, c))
  {
    var t' := AddConflict(t, c);
    assert StatementOk(t, c.statementId);
    forall x | x in t'.sources ensures SourceOk(t', x) { assert SourceOk(t, x); }
    forall x | x in t'.conflicts ensures ConflictOk(t', x) {
      if x != t.nextConflict { assert ConflictOk(t, x); }
    }
    SameTxns(t, t');
    forall a | a in t.aliases ensures a !in t'.txns { assert AliasOk(t, a); }
    CopiedTables(t, t');
  }

  lemma SameTxns(t: Tables, t': Tables)
    requires TxnsOk(t)
    requires t'.txns == t.txns && t'.identityIndex == t.identityIndex && t'.nextTxn == t.nextTxn && t'.sources == t.sources
    ensures TxnsOk(t')
  {
    forall id | id in t'.txns ensures TxnOk(t', id) {
      assert TxnOk(t, id);
      if t.txns[id].statementId.Some? { assert IsEvidenced(t, id, t.txns[id].statementId.value); }
    }
    forall k | k in t'.identityIndex ensures IndexOk(t', k) { assert IndexOk(t, k); }
  }

  /** A new canonical row arrives together with its source. */
  function AddTxnWithSource(t: Tables, x: Txn, s: Source): Tables {
    AddSource(AddTxn(t, x), s)
  }

  lemma TxnAdded(t: Tables, x: Txn, s: Source)
    requires Valid(t) && s.txnId == t.nextTxn && s.statementId in t.statements && x.statementId == Some(s.statementId)
    requires IdentityOf(x).Some? ==> IdentityOf(x).value !in t.identityIndex
    ensures Valid(AddTxnWithSource(t, x, s)) && Grows(t, AddTxnWithSource(t, x, s))
  {
    var t' := AddTxnWithSource(t, x, s);
    IdsAreSmall(t);
    forall id | id in t.txns ensures id in t'.txns && t'.txns[id] == t.txns[id] {}
    TxnAddedEvidence(t, x, s);
    TxnAddedTxns(t, x, s);
    forall a | a in t.aliases ensures a !in t'.txns { assert AliasOk(t, a); }
    CopiedTables(t, t');
  }

  lemma TxnAddedEvidence(t: Tables, x: Txn, s: Source)
    requires EvidenceOk(t) && s.txnId == t.nextTxn && s.statementId in t.statements
    ensures EvidenceOk(AddTxnWithSource(t, x, s))
  {
    var t' := AddTxnWithSource(t, x, s);
    assert t.txns.Keys <= t'.txns.Keys;
    forall y | y in t'.sources ensures SourceOk(t', y) {
      if y != t.nextSource { assert SourceOk(t, y); }
    }
    forall c | c in t'.conflicts ensures ConflictOk(t', c) { assert ConflictOk(t, c); }
  }

  lemma TxnAddedTxns(t: Tables, x: Txn, s: Source)
    requires EvidenceOk(t) && TxnsOk(t) && t.nextTxn !in t.txns
    requires s.txnId == t.nextTxn && x.statementId == Some(s.statementId)
    requires IdentityOf(x).Some? ==> IdentityOf(x).value !in t.identityIndex
    ensures TxnsOk(AddTxnWithSource(t, x, s))
  {
    var t' := AddTxnWithSource(t, x, s);
    forall id | id in t'.txns ensures TxnOk(t', id) {
      if id == t.nextTxn { NewTxnOk(t, x, s); } else { KeptTxnOk(t, x, s, id); }
    }
    forall k | k in t'.identityIndex ensures IndexOk(t', k) {
      if k in t.identityIndex { assert IndexOk(t, k); }
    }
  }

  lemma KeptTxnOk(t: Tables, x: Txn, s: Source, id: Id)
    requires EvidenceOk(t) && TxnsOk(t) && t.nextTxn !in t.txns && id in t.txns
    requires IdentityOf(x).Some? ==> IdentityOf(x).value !in t.identityIndex
    ensures TxnOk(AddTxnWithSource(t, x, s), id)
  {
    var t' := AddTxnWithSource(t, x, s);
    assert TxnOk(t, id);
    if t.txns[id].statementId.Some? {
      EvidencedAfterSource(t, s, id, t.txns[id].statementId.value);
      EvidenceIsInSources(AddSource(t, s), t', id, t.txns[id].statementId.value);
    }
    OldTxnOk(t, t', id);
  }

  lemma NewTxnOk(t: Tables, x: Txn, s: Source)
    requires s.txnId == t.nextTxn && x.statementId == Some(s.statementId)
    ensures TxnOk(AddTxnWithSource(t, x, s), t.nextTxn)
  {
    var t' := AddTxnWithSource(t, x, s);
    assert t'.sources[t.nextSource] == s;
    assert IsEvidenced(t', t.nextTxn, s.statementId);
  }

  /** A row that an operation leaves as it is stays in order if its evidence and its key do. */
  lemma OldTxnOk(t: Tables, t': Tables, id: Id)
    requires id in t.txns && TxnOk(t, id) && id in t'.txns && t'.txns[id] == t.txns[id] && t.nextTxn <= t'.nextTxn
    requires t.txns[id].statementId.Some? && IsEvidenced(t, id, t.txns[id].statementId.value) ==>
               IsEvidenced(t', id, t.txns[id].statementId.value)
    requires IdentityOf(t.txns[id]).Some? ==> SameEntry(t, t', IdentityOf(t.txns[id]).value)
    ensures TxnOk(t', id)
  {}

  ghost predicate SameEntry(t: Tables, t': Tables, k: Identity) {
    k in t.identityIndex ==> k in t'.identityIndex && t'.identityIndex[k] == t.identityIndex[k]
  }

  lemma EvidenceIsInSources(t: Tables, t': Tables, id: Id, sid: Id)
    requires t'.sources == t.sources && IsEvidenced(t, id, sid)
    ensures IsEvidenced(t', id, sid)
  {
    var x :| x in t.sources && t.sources[x].txnId == id && t.sources[x].statementId == sid;
    assert x in t'.sources;
  }

  lemma IdsAreSmall(t: Tables)
    requires TxnsOk(t)
    ensures forall id :: id in t.txns ==> id < t.nextTxn
  {
    forall id | id in t.txns ensures id < t.nextTxn { assert TxnOk(t, id); }
  }

  // ---------- one row, all rows, one statement ----------

  ghost predicate KeptAndGrown(t: Tables, t': Tables) {
    Valid(t') && Grows(t, t') && t'.statements == t.statements
  }

  lemma ConflictRecorded(t: Tables, c: Context, n: nat, row: Incoming, s: Summary, id: Id, kind: ConflictKind)
    requires Valid(t) && c.statementId in t.statements && id in t.txns
    ensures KeptAndGrown(t, RecordConflict(t, c, n, row, s, id, kind).tables)
  {
    ConflictAdded(t, Conflict(c.accountId, row.externalId, id, c.statementId, n, kind, row.facts, true));
  }

  lemma KnownRecorded(t: Tables, c: Context, n: nat, row: Incoming, s: Summary, id: Id)
    requires Valid(t) && c.statementId in t.statements && id in t.txns
    ensures KeptAndGrown(t, RecordKnown(t, c, n, row, s, id).tables)
  {
    SourceAdded(t, Source(id, c.statementId, Some(n), row.externalId, Some(row.facts)));
  }

  lemma NewImported(first: First, t: Tables, c: Context, n: nat, row: Incoming, s: Summary)
    requires Valid(t) && c.statementId in t.statements && Existing(t, c, row).None?
    ensures KeptAndGrown(t, ImportNew(first, t, c, n, row, s).tables)
  {
    var source := Source(t.nextTxn, c.statementId, Some(n), row.externalId, Some(row.facts));
    TxnAdded(t, NewTxn(c, row), source);
    var t2 := AddTxnWithSource(t, NewTxn(c, row), source);
    var twins := Twins(t2, c, row.facts);
    if row.externalId.None? && twins != {} {
      assert first(twins) in twins;
      ConflictAdded(t2, Conflict(c.accountId, None, first(twins), c.statementId, n, AmbiguousOverlap, row.facts, true));
    }
  }

  lemma RowImported(first: First, t: Tables, c: Context, n: nat, row: Incoming, s: Summary)
    requires Valid(t) && c.statementId in t.statements
    ensures KeptAndGrown(t, ImportRow(first, t, c, n, row, s).tables)
  {
    var existing := Existing(t, c, row);
    if existing.Some? {
      assert IndexOk(t, FullIdentity(c.provider, c.accountRef, row.externalId).value);
      var kind := MaterialFactConflict(t.txns[existing.value].facts, row.facts);
      if kind.Some? {
        ConflictRecorded(t, c, n, row, s, existing.value, kind.value);
      } else {
        KnownRecorded(t, c, n, row, s, existing.value);
      }
    } else {
      NewImported(first, t, c, n, row, s);
    }
  }

  lemma {:induction false} RowsImported(first: First, t: Tables, c: Context, rows: seq<Incoming>)
    requires Valid(t) && c.statementId in t.statements
    ensures KeptAndGrown(t, ImportRows(first, t, c, rows).tables)
  {
    if rows != [] {
      RowsImported(first, t, c, rows[..|rows| - 1]);
      var before := ImportRows(first, t, c, rows[..|rows| - 1]);
      RowImported(first, before.tables, c, |rows|, rows[|rows| - 1], before.summary);
      GrowsTransitive(t, before.tables, ImportRows(first, t, c, rows).tables);
    }
  }

  lemma ImportKeeps(first: First, t: Tables, i: StatementInput)
    requires Valid(t) && !IsReplay(t, i)
    ensures Valid(Import(first, t, i).tables) && Grows(t, Import(first, t, i).tables)
  {
    StatementAdded(t, i);
    RowsImported(first, AddStatement(t, i), ContextOf(t, i), i.rows);
    GrowsTransitive(t, AddStatement(t, i), Import(first, t, i).tables);
  }

  // ---------- detach ----------

  lemma RetainedStays(t: Tables, sid: Id, id: Id)
    requires id in t.txns && IsRetained(WithoutEvidence(t, sid), id)
    ensures id in Detach(t, sid).txns
  {}

  lemma DetachedEvidence(t: Tables, sid: Id)
    requires Valid(t)
    ensures EvidenceOk(Detach(t, sid))
  {
    var t1, t' := WithoutEvidence(t, sid), Detach(t, sid);
    forall s | s in t'.sources ensures SourceOk(t', s) {
      assert SourceOk(t, s);
      assert HasSource(t1, t.sources[s].txnId) by { assert s in t1.sources; }
      RetainedStays(t, sid, t.sources[s].txnId);
    }
    forall c | c in t'.conflicts ensures ConflictOk(t', c) {
      assert ConflictOk(t, c);
      assert HasConflict(t1, t.conflicts[c].canonicalId) by { assert c in t1.conflicts; }
      RetainedStays(t, sid, t.conflicts[c].canonicalId);
    }
  }

  /** A row keeps its origin unless the origin is what was detached. */
  lemma DetachedTxn(t: Tables, sid: Id, id: Id)
    requires id in t.txns && TxnOk(t, id) && id in Detach(t, sid).txns
    ensures Detach(t, sid).txns[id] == if t.txns[id].statementId == Some(sid) then t.txns[id].(statementId := None) else t.txns[id]
  {
    if t.txns[id].statementId == Some(sid) {
      var x :| x in t.sources && t.sources[x].txnId == id && t.sources[x].statementId == sid;
      assert id in TxnsOf(t, sid);
    }
  }

  lemma EvidenceAfterDetach(t: Tables, sid: Id, id: Id, v: Id)
    requires IsEvidenced(t, id, v) && v != sid
    ensures IsEvidenced(Detach(t, sid), id, v)
  {
    var x :| x in t.sources && t.sources[x].txnId == id && t.sources[x].statementId == v;
    assert x in Detach(t, sid).sources;
  }

  lemma DetachedTxns(t: Tables, sid: Id)
    requires Valid(t)
    ensures TxnsOk(Detach(t, sid))
  {
    var t' := Detach(t, sid);
    forall id | id in t'.txns ensures TxnOk(t', id) {
      assert TxnOk(t, id);
      DetachedTxn(t, sid, id);
      var origin := t.txns[id].statementId;
      if origin.Some? && origin.value != sid { EvidenceAfterDetach(t, sid, id, origin.value); }
    }
    forall k | k in t'.identityIndex ensures IndexOk(t', k) {
      assert IndexOk(t, k) && TxnOk(t, t.identityIndex[k]);
      DetachedTxn(t, sid, t.identityIndex[k]);
    }
  }

  lemma DetachedStatements(t: Tables, sid: Id)
    requires Valid(t)
    ensures StatementsOk(Detach(t, sid))
  {
    var t' := Detach(t, sid);
    forall s | s in t'.statements ensures StatementOk(t', s) { assert StatementOk(t, s); }
    forall k | k in t'.contentIndex ensures ContentOk(t', k) { assert ContentOk(t, k); }
  }

  lemma DetachedRepairs(t: Tables, sid: Id)
    requires Valid(t)
    ensures RepairsOk(Detach(t, sid)) && FinancialOk(Detach(t, sid))
  {
    var t1, t' := WithoutEvidence(t, sid), Detach(t, sid);
    forall r | r in t.repairs ensures t.repairs[r].survivorId in t'.txns {
      assert RepairOk(t, r) && IsSurvivor(t1, t.repairs[r].survivorId);
      RetainedStays(t, sid, t.repairs[r].survivorId);
    }
    forall r | r in t'.repairs ensures RepairOk(t', r) { assert RepairOk(t, r); }
    forall a | a in t'.aliases ensures AliasOk(t', a) { assert AliasOk(t, a); }
    forall m | m in t.matches ensures t.matches[m].txnId in t'.txns {
      assert IsMatched(t1, t.matches[m].txnId);
      RetainedStays(t, sid, t.matches[m].txnId);
    }
    forall a | a in t.advances ensures t.advances[a] in t'.txns {
      assert IsAdvance(t1, t.advances[a]);
      RetainedStays(t, sid, t.advances[a]);
    }
  }

  lemma DetachKeeps(t: Tables, sid: Id)
    requires Valid(t)
    ensures Valid(Detach(t, sid)) && Preserves(t, Detach(t, sid))
    ensures forall id :: id in Detach(t, sid).txns ==> Detach(t, sid).txns[id].statementId != Some(sid)
  {
    DetachedEvidence(t, sid);
    DetachedTxns(t, sid);
    DetachedStatements(t, sid);
    DetachedRepairs(t, sid);
    forall id | id in Detach(t, sid).txns
      ensures Detach(t, sid).txns[id].statementId != Some(sid)
      ensures SameMovement(t.txns[id], Detach(t, sid).txns[id])
    {
      assert TxnOk(t, id);
      DetachedTxn(t, sid, id);
    }
    forall id | id in t.txns && id !in Detach(t, sid).txns ensures !HasFinancialReferences(t, id) {
      FinancialIsUntouched(t, WithoutEvidence(t, sid), id);
    }
  }

  lemma FinancialIsUntouched(t: Tables, t': Tables, id: Id)
    requires t'.txns == t.txns && t'.matches == t.matches && t'.settlementUsage == t.settlementUsage && t'.advances == t.advances
    ensures HasFinancialReferences(t', id) == HasFinancialReferences(t, id)
  {}

  // ---------- repair ----------

  /** What must hold for a merge to be carried out. */
  ghost predicate MayMerge(t: Tables, s: Id, d: Id) {
    && s != d && s in t.txns && d in t.txns
    && !HasFinancialReferences(t, d) && !IsSurvivor(t, d)
  }

  lemma MergedEvidence(t: Tables, s: Id, d: Id)
    requires Valid(t) && MayMerge(t, s, d)
    ensures EvidenceOk(Merge(t, s, d))
  {
    MergedSources(t, s, d);
    MergedConflicts(t, s, d);
  }

  lemma MergedSources(t: Tables, s: Id, d: Id)
    requires EvidenceOk(t) && MayMerge(t, s, d)
    ensures forall x :: x in Merge(t, s, d).sources ==> SourceOk(Merge(t, s, d), x)
  {
    var t' := Merge(t, s, d);
    forall x | x in t'.sources ensures SourceOk(t', x) { assert SourceOk(t, x); }
  }

  lemma MergedConflicts(t: Tables, s: Id, d: Id)
    requires EvidenceOk(t) && MayMerge(t, s, d)
    ensures forall c :: c in Merge(t, s, d).conflicts ==> ConflictOk(Merge(t, s, d), c)
  {
    var t' := Merge(t, s, d);
    forall c | c in t'.conflicts ensures ConflictOk(t', c) { assert ConflictOk(t, c); }
  }

  lemma MergedTxns(t: Tables, s: Id, d: Id)
    requires Valid(t) && MayMerge(t, s, d)
    ensures TxnsOk(Merge(t, s, d))
  {
    var t' := Merge(t, s, d);
    forall id | id in t'.txns ensures TxnOk(t', id) {
      assert TxnOk(t, id);
      var origin := t.txns[id].statementId;
      if origin.Some? {
        var x :| x in t.sources && t.sources[x].txnId == id && t.sources[x].statementId == origin.value;
        assert x in t'.sources && t'.sources[x] == t.sources[x];
        assert IsEvidenced(t', id, origin.value);
      }
      OldTxnOk(t, t', id);
    }
    forall k | k in t'.identityIndex ensures IndexOk(t', k) { assert IndexOk(t, k); }
  }

  lemma RepairIdsAreSmall(t: Tables)
    requires RepairsOk(t)
    ensures forall r :: r in t.repairs ==> r < t.nextRepair
    ensures forall a :: a in t.aliases ==> a !in t.txns
  {
    forall r | r in t.repairs ensures r < t.nextRepair { assert RepairOk(t, r); }
    forall a | a in t.aliases ensures a !in t.txns { assert AliasOk(t, a); }
  }

  lemma MergedRepairs(t: Tables, s: Id, d: Id)
    requires Valid(t) && MayMerge(t, s, d)
    ensures RepairsOk(Merge(t, s, d))
  {
    var t' := Merge(t, s, d);
    RepairIdsAreSmall(t);
    forall r | r in t'.repairs ensures RepairOk(t', r) {
      if r != t.nextRepair { assert RepairOk(t, r); }
    }
    MergedAliases(t, s, d);
  }

  lemma MergedAliases(t: Tables, s: Id, d: Id)
    requires Valid(t) && MayMerge(t, s, d)
    ensures forall a :: a in Merge(t, s, d).aliases ==> AliasOk(Merge(t, s, d), a)
  {
    assert TxnOk(t, d);
    RepairIdsAreSmall(t);
    forall a | a in Merge(t, s, d).aliases ensures AliasOk(Merge(t, s, d), a) {
      if a != d {
        assert AliasOk(t, a);
        assert IsSurvivor(t, t.aliases[a].canonicalId);
      }
    }
  }

  lemma MergedFinancial(t: Tables, s: Id, d: Id)
    requires Valid(t) && MayMerge(t, s, d)
    ensures FinancialOk(Merge(t, s, d))
  {
    var t' := Merge(t, s, d);
    forall m | m in t'.matches ensures t'.matches[m].txnId in t'.txns {
      assert t.matches[m].txnId in t.txns && IsMatched(t, t.matches[m].txnId);
    }
    forall a | a in t'.advances ensures t'.advances[a] in t'.txns {
      assert t.advances[a] in t.txns && IsAdvance(t, t.advances[a]);
    }
  }

  lemma MergeKeeps(t: Tables, s: Id, d: Id)
    requires Valid(t) && MayMerge(t, s, d)
    ensures Valid(Merge(t, s, d)) && Preserves(t, Merge(t, s, d))
  {
    MergedEvidence(t, s, d);
    MergedTxns(t, s, d);
    MergedRepairs(t, s, d);
    MergedFinancial(t, s, d);
    var t' := Merge(t, s, d);
    forall x | x in t'.statements ensures StatementOk(t', x) { assert StatementOk(t, x); }
    forall k | k in t'.contentIndex ensures ContentOk(t', k) { assert ContentOk(t, k); }
  }

  lemma RepairKeeps(t: Tables, a: RepairArgs)
    requires Valid(t)
    ensures Valid(ApplyRepair(t, a)) && Preserves(t, ApplyRepair(t, a))
  {
    var r := RepairDecision(t, a);
    if r.Repaired? && !r.alreadyApplied { MergeKeeps(t, a.survivorId, a.duplicateId); }
  }

  // ---------- runs ----------

  /** What the reconciliation flows do to the rows that refer to a movement. */
  datatype FinancialOperation =
    | RecordMatch(matchId: Id, match_: Match)
    | ActivateMatch(matchId: Id)
    | RemoveMatch(matchId: Id)
    | ClaimSettlement(txnId: Id, expenseId: Id)
    | ReleaseSettlement(txnId: Id)
    | FundAdvance(advanceId: Id, txnId: Id)

  datatype Operation =
    | DoImport(input: StatementInput)
    | DoDetach(statementId: Id)
    | DoRepair(args: RepairArgs)
    | ResolveConflict(conflictId: Id)
    | Dispose(txnId: Id, status: Status)
    | Reconcile(operation: FinancialOperation)

  function CloseConflict(t: Tables, c: Id): Tables {
    if c in t.conflicts then t.(conflicts := t.conflicts[c := t.conflicts[c].(open := false)]) else t
  }

  function SetStatus(t: Tables, id: Id, status: Status): Tables {
    if id in t.txns then t.(txns := t.txns[id := t.txns[id].(status := status)]) else t
  }

  function ReconcileMatches(t: Tables, op: FinancialOperation): map<Id, Match> {
    match op
    case RecordMatch(m, x) => if x.txnId in t.txns && m !in t.matches then t.matches[m := x] else t.matches
    case ActivateMatch(m) => if m in t.matches then t.matches[m := t.matches[m].(active := true)] else t.matches
    case RemoveMatch(m) => t.matches - {m}
    case _ => t.matches
  }

  function ReconcileUsage(t: Tables, op: FinancialOperation): map<Id, Id> {
    match op
    case ClaimSettlement(id, e) => if id in t.txns && id !in t.settlementUsage then t.settlementUsage[id := e] else t.settlementUsage
    case ReleaseSettlement(id) => t.settlementUsage - {id}
    case _ => t.settlementUsage
  }

  function ReconcileAdvances(t: Tables, op: FinancialOperation): map<Id, Id> {
    match op
    case FundAdvance(a, id) => if id in t.txns && a !in t.advances then t.advances[a := id] else t.advances
    case _ => t.advances
  }

  function DoReconcile(t: Tables, op: FinancialOperation): Tables {
    t.(matches := ReconcileMatches(t, op), settlementUsage := ReconcileUsage(t, op), advances := ReconcileAdvances(t, op))
  }

  /** An operation whose target does not exist is refused and changes nothing. */
  function Perform(first: First, t: Tables, op: Operation): Tables {
    match op
    case DoImport(i) => if IsReplay(t, i) then t else Import(first, t, i).tables
    case DoDetach(s) => if s in t.statements then Detach(t, s) else t
    case DoRepair(a) => ApplyRepair(t, a)
    case ResolveConflict(c) => CloseConflict(t, c)
    case Dispose(id, status) => SetStatus(t, id, status)
    case Reconcile(f) => DoReconcile(t, f)
  }

  function PerformAll(first: First, t: Tables, ops: seq<Operation>): Tables {
    if ops == [] then t else Perform(first, PerformAll(first, t, ops[..|ops| - 1]), ops[|ops| - 1])
  }

  lemma StatusChangedTxns(t: Tables, id: Id, status: Status)
    requires TxnsOk(t) && id in t.txns
    ensures TxnsOk(SetStatus(t, id, status))
  {
    var t' := SetStatus(t, id, status);
    assert t'.txns == t.txns[id := t.txns[id].(status := status)];
    forall x | x in t'.txns ensures TxnOk(t', x) {
      assert TxnOk(t, x);
      if t.txns[x].statementId.Some? { EvidenceIsInSources(t, t', x, t.txns[x].statementId.value); }
    }
    forall k | k in t'.identityIndex ensures IndexOk(t', k) { assert IndexOk(t, k); }
  }

  /** Rows that keep their keys keep what points at them. */
  lemma SameEvidence(t: Tables, t': Tables)
    requires EvidenceOk(t)
    requires t'.sources == t.sources && t'.conflicts == t.conflicts && t'.statements == t.statements
    requires t'.nextSource == t.nextSource && t'.nextConflict == t.nextConflict && t'.nextStatement == t.nextStatement
    requires t.txns.Keys <= t'.txns.Keys
    ensures EvidenceOk(t')
  {
    forall s | s in t'.sources ensures SourceOk(t', s) { assert SourceOk(t, s); }
    forall c | c in t'.conflicts ensures ConflictOk(t', c) { assert ConflictOk(t, c); }
  }

  lemma StatusChangedKnown(t: Tables, id: Id, status: Status)
    requires Valid(t) && id in t.txns
    ensures Valid(SetStatus(t, id, status)) && Preserves(t, SetStatus(t, id, status))
  {
    var t' := SetStatus(t, id, status);
    SameEvidence(t, t');
    StatusChangedTxns(t, id, status);
    RepairIdsAreSmall(t);
    assert t'.txns.Keys == t.txns.Keys;
    CopiedTables(t, t');
  }

  lemma StatusChanged(t: Tables, id: Id, status: Status)
    requires Valid(t)
    ensures Valid(SetStatus(t, id, status)) && Preserves(t, SetStatus(t, id, status))
  {
    if id in t.txns { StatusChangedKnown(t, id, status); }
  }

  lemma ConflictClosedEvidence(t: Tables, c: Id)
    requires EvidenceOk(t) && c in t.conflicts
    ensures EvidenceOk(CloseConflict(t, c))
  {
    var t' := CloseConflict(t, c);
    forall s | s in t'.sources ensures SourceOk(t', s) { assert SourceOk(t, s); }
    forall x | x in t'.conflicts ensures ConflictOk(t', x) { assert ConflictOk(t, x); }
  }

  lemma ConflictClosedKnown(t: Tables, c: Id)
    requires Valid(t) && c in t.conflicts
    ensures Valid(CloseConflict(t, c)) && Preserves(t, CloseConflict(t, c))
  {
    var t' := CloseConflict(t, c);
    ConflictClosedEvidence(t, c);
    SameTxns(t, t');
    RepairIdsAreSmall(t);
    CopiedTables(t, t');
  }

  lemma ConflictClosed(t: Tables, c: Id)
    requires Valid(t)
    ensures Valid(CloseConflict(t, c)) && Preserves(t, CloseConflict(t, c))
  {
    if c in t.conflicts { ConflictClosedKnown(t, c); }
  }

  lemma ReconciledFinancial(t: Tables, op: FinancialOperation)
    requires FinancialOk(t)
    ensures FinancialOk(DoReconcile(t, op))
  {}

  lemma Reconciled(t: Tables, op: FinancialOperation)
    requires Valid(t)
    ensures Valid(DoReconcile(t, op)) && Preserves(t, DoReconcile(t, op))
  {
    var t' := DoReconcile(t, op);
    ReconciledFinancial(t, op);
    forall s | s in t'.sources ensures SourceOk(t', s) { assert SourceOk(t, s); }
    forall c | c in t'.conflicts ensures ConflictOk(t', c) { assert ConflictOk(t, c); }
    SameTxns(t, t');
    forall s | s in t'.statements ensures StatementOk(t', s) { assert StatementOk(t, s); }
    forall k | k in t'.contentIndex ensures ContentOk(t', k) { assert ContentOk(t, k); }
    forall r | r in t'.repairs ensures RepairOk(t', r) { assert RepairOk(t, r); }
    forall a | a in t'.aliases ensures AliasOk(t', a) { assert AliasOk(t, a); }
  }

  lemma GrowthPreserves(t: Tables, t': Tables)
    requires Grows(t, t')
    ensures Preserves(t, t')
  {}

  lemma ImportIsSafe(first: First, t: Tables, i: StatementInput)
    requires Valid(t)
    ensures Valid(Perform(first, t, DoImport(i))) && Preserves(t, Perform(first, t, DoImport(i)))
  {
    if IsReplay(t, i) {
      assert Perform(first, t, DoImport(i)) == t;
    } else {
      assert Perform(first, t, DoImport(i)) == Import(first, t, i).tables;
      ImportKeeps(first, t, i);
      GrowthPreserves(t, Import(first, t, i).tables);
    }
  }

  lemma PerformDetach(first: First, t: Tables, s: Id)
    ensures Perform(first, t, DoDetach(s)) == if s in t.statements then Detach(t, s) else t
  {}

  lemma PerformRepair(first: First, t: Tables, a: RepairArgs)
    ensures Perform(first, t, DoRepair(a)) == ApplyRepair(t, a)
  {}

  lemma DetachIsSafe(first: First, t: Tables, s: Id)
    requires Valid(t)
    ensures Valid(Perform(first, t, DoDetach(s))) && Preserves(t, Perform(first, t, DoDetach(s)))
  {
    PerformDetach(first, t, s);
    if s in t.statements { DetachKeeps(t, s); }
  }

  lemma RepairIsSafe(first: First, t: Tables, a: RepairArgs)
    requires Valid(t)
    ensures Valid(Perform(first, t, DoRepair(a))) && Preserves(t, Perform(first, t, DoRepair(a)))
  {
    PerformRepair(first, t, a);
    RepairKeeps(t, a);
  }

  lemma ReviewIsSafe(first: First, t: Tables, op: Operation)
    requires Valid(t) && (op.ResolveConflict? || op.Dispose? || op.Reconcile?)
    ensures Valid(Perform(first, t, op)) && Preserves(t, Perform(first, t, op))
  {
    match op
    case ResolveConflict(c) => ConflictClosed(t, c);
    case Dispose(id, status) => StatusChanged(t, id, status);
    case Reconcile(f) => Reconciled(t, f);
  }

  /** Journal safety, one step: the tables stay consistent; no row with financial references is
      removed; the facts of a row never change. */
  lemma StepIsSafe(first: First, t: Tables, op: Operation)
    requires Valid(t)
    ensures Valid(Perform(first, t, op)) && Preserves(t, Perform(first, t, op))
  {
    match op
    case DoImport(i) => ImportIsSafe(first, t, i);
    case DoDetach(s) => DetachIsSafe(first, t, s);
    case DoRepair(a) => RepairIsSafe(first, t, a);
    case _ => ReviewIsSafe(first, t, op);
  }

  /** What a run may do to the canonical rows: a row that is still there has the facts, the
      account and the identity it was first given, and an id that was removed stays removed. */
  ghost predicate RunPreserves(t: Tables, t': Tables) {
    && t.nextTxn <= t'.nextTxn
    && (forall id :: id in t.txns && id in t'.txns ==> SameMovement(t.txns[id], t'.txns[id]))
    && (forall id :: id in t'.txns && id !in t.txns ==> t.nextTxn <= id)
  }

  lemma RunPreservesMore(t: Tables, mid: Tables, t': Tables)
    requires TxnsOk(t) && RunPreserves(t, mid) && Preserves(mid, t')
    ensures RunPreserves(t, t')
  {
    IdsAreSmall(t);
  }

  /** Journal safety over all runs. */
  lemma {:induction false} RunIsSafe(first: First, t: Tables, ops: seq<Operation>)
    requires Valid(t)
    ensures Valid(PerformAll(first, t, ops)) && RunPreserves(t, PerformAll(first, t, ops))
    decreases |ops|
  {
    if ops != [] {
      var mid := PerformAll(first, t, ops[..|ops| - 1]);
      RunIsSafe(first, t, ops[..|ops| - 1]);
      StepIsSafe(first, mid, ops[|ops| - 1]);
      RunPreservesMore(t, mid, PerformAll(first, t, ops));
    }
  }

  /** An id that a repair removed resolves to a live row after any further run. */
  lemma RemovedIdsResolve(first: First, t: Tables, ops: seq<Operation>, id: Id)
    requires Valid(t) && id in PerformAll(first, t, ops).aliases
    ensures id !in PerformAll(first, t, ops).txns
    ensures Resolve(PerformAll(first, t, ops), id) in PerformAll(first, t, ops).txns
  {
    RunIsSafe(first, t, ops);
    assert AliasOk(PerformAll(first, t, ops), id);
  }

  lemma NextState(first: First, t: Tables, ops: seq<Operation>, k: nat)
    requires k < |ops|
    ensures PerformAll(first, t, ops[..k + 1]) == Perform(first, PerformAll(first, t, ops[..k]), ops[k])
  {
    assert ops[..k + 1][..k] == ops[..k];
  }

  /** A disposition, a match, a settlement claim or an advance refers to the row. */
  ghost predicate IsBooked(t: Tables, id: Id) {
    || (id in t.txns && t.txns[id].status != Open)
    || (exists m :: m in t.matches && t.matches[m].txnId == id)
    || id in t.settlementUsage
    || id in t.advances.Values
  }

  lemma BookedIff(t: Tables, id: Id)
    ensures HasFinancialReferences(t, id) <==> IsBooked(t, id)
  {}

  lemma PreservesFinancialRow(t: Tables, t': Tables, id: Id)
    requires Preserves(t, t') && id in t.txns && IsBooked(t, id)
    ensures id in t'.txns
  {
    BookedIff(t, id);
  }

  /** At no point of any run does a row with financial references disappear. */
  lemma FinancialRowsSurvive(first: First, t: Tables, ops: seq<Operation>, k: nat, id: Id)
    requires Valid(t) && k < |ops|
    requires id in PerformAll(first, t, ops[..k]).txns && IsBooked(PerformAll(first, t, ops[..k]), id)
    ensures id in PerformAll(first, t, ops[..k + 1]).txns
  {
    RunIsSafe(first, t, ops[..k]);
    NextState(first, t, ops, k);
    StepIsSafe(first, PerformAll(first, t, ops[..k]), ops[k]);
    PreservesFinancialRow(PerformAll(first, t, ops[..k]), PerformAll(first, t, ops[..k + 1]), id);
  }
}
