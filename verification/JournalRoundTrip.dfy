/** Importing a statement and then deleting it (`bank-statement.service.ts`): exactly when the
    journal is left as it was found. */
module JournalRoundTrip {
  import opened JournalModel
  import opened JournalSafety
  import opened Wrappers

  // ---------- the condition, checkable before the import ----------

  function KeyOf(c: Context, row: Incoming): Option<Identity> {
    FullIdentity(c.provider, c.accountRef, row.externalId)
  }

  /** No earlier row of the statement has this row's identity. */
  predicate IsFirstOfItsIdentity(c: Context, rows: seq<Incoming>, k: nat)
    requires k < |rows|
  {
    KeyOf(c, rows[k]).None? || forall j :: 0 <= j < k ==> KeyOf(c, rows[j]) != KeyOf(c, rows[k])
  }

  predicate ArrivesOpen(row: Incoming) {
    row.status.None? || row.status.value == Open
  }

  /** A row that meets a known movement and agrees with it needs that movement to be kept by
      something else than the new source; a row that makes a movement must leave it open. */
  predicate IsUndoable(t: Tables, c: Context, rows: seq<Incoming>, k: nat)
    requires k < |rows|
  {
    var e := Existing(t, c, rows[k]);
    if e.Some? && e.value in t.txns then
      MaterialFactConflict(t.txns[e.value].facts, rows[k].facts).None? ==> IsRetained(t, e.value)
    else
      IsFirstOfItsIdentity(c, rows, k) ==> ArrivesOpen(rows[k])
  }

  predicate AllUndoable(t: Tables, c: Context, rows: seq<Incoming>) {
    forall k :: 0 <= k < |rows| ==> IsUndoable(t, c, rows, k)
  }

  // ---------- what an import adds ----------

  ghost predicate AddsSources(t: Tables, t': Tables, sid: Id) {
    && (forall x :: x in t.sources ==> x in t'.sources && t'.sources[x] == t.sources[x])
    && (forall x :: x in t'.sources && x !in t.sources ==> t'.sources[x].statementId == sid)
  }

  ghost predicate AddsConflicts(t: Tables, t': Tables, sid: Id) {
    && (forall c :: c in t.conflicts ==> c in t'.conflicts && t'.conflicts[c] == t.conflicts[c])
    && (forall c :: c in t'.conflicts && c !in t.conflicts ==> t'.conflicts[c].statementId == sid && t'.conflicts[c].open)
  }

  ghost predicate AddsRows(t: Tables, t': Tables, sid: Id) {
    forall id :: id in t'.txns && id !in t.txns ==> t'.txns[id].statementId == Some(sid)
  }

  /** The rows of `t'` that `t` does not have are those of the statement `sid`. */
  ghost predicate Adds(t: Tables, t': Tables, sid: Id) {
    && KeptAndGrown(t, t') && t'.contentIndex == t.contentIndex
    && AddsRows(t, t', sid) && AddsSources(t, t', sid) && AddsConflicts(t, t', sid)
  }

  predicate IsNamed(c: Context, rows: seq<Incoming>, k: Identity) {
    exists j :: 0 <= j < |rows| && KeyOf(c, rows[j]) == Some(k)
  }

  /** The index has grown by the identities of the rows. */
  ghost predicate IndexedBy(t: Tables, t': Tables, c: Context, rows: seq<Incoming>) {
    && (forall k :: k in t.identityIndex ==> k in t'.identityIndex && t'.identityIndex[k] == t.identityIndex[k])
    && (forall k :: k in t'.identityIndex ==> k in t.identityIndex || IsNamed(c, rows, k))
    && (forall j :: 0 <= j < |rows| && KeyOf(c, rows[j]).Some? ==> KeyOf(c, rows[j]).value in t'.identityIndex)
  }

  /** Everything that was added goes again with the statement. */
  ghost predicate AddsOnlyOpen(t: Tables, t': Tables) {
    forall id :: id in t'.txns && id !in t.txns ==> t'.txns[id].status == Open
  }

  ghost predicate AddsOnlyToRetained(t: Tables, t': Tables) {
    forall x :: x in t'.sources && x !in t.sources && t'.sources[x].txnId in t.txns ==> IsRetained(t, t'.sources[x].txnId)
  }

  ghost predicate GoesAgain(t: Tables, t': Tables) {
    AddsOnlyOpen(t, t') && AddsOnlyToRetained(t, t')
  }

  // ---------- one row ----------

  lemma EvidenceIdsAreSmall(t: Tables)
    requires EvidenceOk(t)
    ensures forall x :: x in t.sources ==> x < t.nextSource
    ensures forall c :: c in t.conflicts ==> c < t.nextConflict && t.conflicts[c].statementId < t.nextStatement
  {
    forall x | x in t.sources ensures x < t.nextSource { assert SourceOk(t, x); }
    forall c | c in t.conflicts ensures c < t.nextConflict && t.conflicts[c].statementId < t.nextStatement { assert ConflictOk(t, c); }
  }

  lemma IdsAreFresh(t: Tables)
    requires Valid(t)
    ensures t.nextTxn !in t.txns && t.nextSource !in t.sources && t.nextConflict !in t.conflicts
    ensures forall id :: id in t.txns ==> id < t.nextTxn
  {
    IdsAreSmall(t);
    EvidenceIdsAreSmall(t);
  }

  lemma IndexPointsAtRows(t: Tables)
    requires TxnsOk(t)
    ensures forall k :: k in t.identityIndex ==> t.identityIndex[k] in t.txns
  {
    forall k | k in t.identityIndex ensures t.identityIndex[k] in t.txns { assert IndexOk(t, k); }
  }

  lemma ReviewStep(t: Tables, m: Tables, c: Conflict)
    requires Adds(t, m, c.statementId) && c.statementId in m.statements && c.canonicalId in m.txns && c.open
    ensures Adds(t, AddConflict(m, c), c.statementId)
    ensures GoesAgain(t, AddConflict(m, c)) <==> GoesAgain(t, m)
  {
    IdsAreFresh(m);
    ConflictAdded(m, c);
    GrowsTransitive(t, m, AddConflict(m, c));
    ReviewAdds(t, m, c);
    ReviewGoesAgain(t, m, c);
  }

  lemma ReviewAdds(t: Tables, m: Tables, c: Conflict)
    requires AddsRows(t, m, c.statementId) && AddsSources(t, m, c.statementId) && AddsConflicts(t, m, c.statementId)
    requires m.nextConflict !in m.conflicts && c.open
    ensures var m' := AddConflict(m, c);
            AddsRows(t, m', c.statementId) && AddsSources(t, m', c.statementId) && AddsConflicts(t, m', c.statementId)
  {}

  /** A review adds no row and no source. */
  lemma ReviewGoesAgain(t: Tables, m: Tables, c: Conflict)
    ensures GoesAgain(t, AddConflict(m, c)) <==> GoesAgain(t, m)
  {
    assert AddConflict(m, c).txns == m.txns && AddConflict(m, c).sources == m.sources;
  }

  lemma ConflictStep(t: Tables, m: Tables, c: Context, n: nat, row: Incoming, s: Summary, id: Id, kind: ConflictKind)
    requires Adds(t, m, c.statementId) && c.statementId in m.statements && id in m.txns
    ensures Adds(t, RecordConflict(m, c, n, row, s, id, kind).tables, c.statementId)
    ensures GoesAgain(t, RecordConflict(m, c, n, row, s, id, kind).tables) <==> GoesAgain(t, m)
  {
    ReviewStep(t, m, Conflict(c.accountId, row.externalId, id, c.statementId, n, kind, row.facts, true));
  }

  lemma SourceStep(t: Tables, m: Tables, s: Source)
    requires m.nextSource !in m.sources && AddsSources(t, m, s.statementId)
    ensures AddsSources(t, AddSource(m, s), s.statementId)
    ensures AddsOnlyToRetained(t, AddSource(m, s)) <==>
              (AddsOnlyToRetained(t, m) && (s.txnId in t.txns ==> IsRetained(t, s.txnId)))
  {
    var m' := AddSource(m, s);
    assert m'.sources[m.nextSource] == s && m.nextSource !in t.sources;
    if AddsOnlyToRetained(t, m') {
      forall x | x in m.sources && x !in t.sources && m.sources[x].txnId in t.txns ensures IsRetained(t, m.sources[x].txnId) {
        assert m'.sources[x] == m.sources[x];
      }
    }
  }

  lemma KnownStep(t: Tables, m: Tables, c: Context, n: nat, row: Incoming, s: Summary, id: Id)
    requires Adds(t, m, c.statementId) && c.statementId in m.statements && id in m.txns
    ensures Adds(t, RecordKnown(m, c, n, row, s, id).tables, c.statementId)
    ensures GoesAgain(t, RecordKnown(m, c, n, row, s, id).tables) <==>
              (GoesAgain(t, m) && (id in t.txns ==> IsRetained(t, id)))
  {
    IdsAreFresh(m);
    KnownRecorded(m, c, n, row, s, id);
    GrowsTransitive(t, m, RecordKnown(m, c, n, row, s, id).tables);
    SourceStep(t, m, Source(id, c.statementId, Some(n), row.externalId, Some(row.facts)));
  }

  /** A new row without its possible ambiguity. */
  function NewRow(m: Tables, c: Context, n: nat, row: Incoming): Tables {
    AddTxnWithSource(m, NewTxn(c, row), Source(m.nextTxn, c.statementId, Some(n), row.externalId, Some(row.facts)))
  }

  lemma NewRowStep(t: Tables, m: Tables, c: Context, n: nat, row: Incoming)
    requires Valid(t) && Adds(t, m, c.statementId) && c.statementId in m.statements && Existing(m, c, row).None?
    ensures Adds(t, NewRow(m, c, n, row), c.statementId)
    ensures GoesAgain(t, NewRow(m, c, n, row)) <==> (GoesAgain(t, m) && ArrivesOpen(row))
  {
    IdsAreFresh(m);
    IdsAreFresh(t);
    var s := Source(m.nextTxn, c.statementId, Some(n), row.externalId, Some(row.facts));
    NewRowKept(t, m, c, n, row);
    SourceStep(t, m, s);
    assert NewRow(m, c, n, row).sources == AddSource(m, s).sources;
    NewRowIsOpen(t, m, c, n, row);
  }

  lemma NewRowKept(t: Tables, m: Tables, c: Context, n: nat, row: Incoming)
    requires KeptAndGrown(t, m) && AddsRows(t, m, c.statementId)
    requires c.statementId in m.statements && Existing(m, c, row).None?
    ensures KeptAndGrown(t, NewRow(m, c, n, row)) && AddsRows(t, NewRow(m, c, n, row), c.statementId)
  {
    TxnAdded(m, NewTxn(c, row), Source(m.nextTxn, c.statementId, Some(n), row.externalId, Some(row.facts)));
    GrowsTransitive(t, m, NewRow(m, c, n, row));
    NewRowOf(t, m, c, n, row);
  }

  lemma NewRowOf(t: Tables, m: Tables, c: Context, n: nat, row: Incoming)
    requires AddsRows(t, m, c.statementId)
    ensures AddsRows(t, NewRow(m, c, n, row), c.statementId)
  {}

  lemma NewRowIsOpen(t: Tables, m: Tables, c: Context, n: nat, row: Incoming)
    requires m.nextTxn !in m.txns && m.nextTxn !in t.txns
    ensures AddsOnlyOpen(t, NewRow(m, c, n, row)) <==> (AddsOnlyOpen(t, m) && ArrivesOpen(row))
  {
    var m' := NewRow(m, c, n, row);
    assert m'.txns[m.nextTxn] == NewTxn(c, row);
    forall id | id in m.txns ensures m'.txns[id] == m.txns[id] {}
  }

  lemma NewRowThenReview(first: First, m: Tables, c: Context, n: nat, row: Incoming, s: Summary)
    ensures var t2 := NewRow(m, c, n, row); var twins := Twins(t2, c, row.facts);
            ImportNew(first, m, c, n, row, s).tables
            == if row.externalId.None? && twins != {}
               then AddConflict(t2, Conflict(c.accountId, None, first(twins), c.statementId, n, AmbiguousOverlap, row.facts, true))
               else t2
  {}

  lemma NewStep(first: First, t: Tables, m: Tables, c: Context, n: nat, row: Incoming, s: Summary)
    requires Valid(t) && Adds(t, m, c.statementId) && c.statementId in m.statements && Existing(m, c, row).None?
    ensures Adds(t, ImportNew(first, m, c, n, row, s).tables, c.statementId)
    ensures GoesAgain(t, ImportNew(first, m, c, n, row, s).tables) <==> (GoesAgain(t, m) && ArrivesOpen(row))
  {
    var t2 := NewRow(m, c, n, row);
    NewRowStep(t, m, c, n, row);
    NewRowThenReview(first, m, c, n, row, s);
    var twins := Twins(t2, c, row.facts);
    if row.externalId.None? && twins != {} {
      assert first(twins) in twins;
      ReviewStep(t, t2, Conflict(c.accountId, None, first(twins), c.statementId, n, AmbiguousOverlap, row.facts, true));
    }
  }

  // ---------- the index ----------

  lemma ExistingIsOldOrRepeated(t: Tables, m: Tables, c: Context, rows: seq<Incoming>)
    requires rows != [] && Valid(t) && Valid(m) && Grows(t, m) && IndexedBy(t, m, c, rows[..|rows| - 1])
    ensures var n := |rows| - 1; var e := Existing(m, c, rows[n]);
            && (e.Some? ==> e.value in m.txns)
            && (e.None? ==> Existing(t, c, rows[n]).None? && IsFirstOfItsIdentity(c, rows, n))
            && (e.Some? && e.value in t.txns ==> Existing(t, c, rows[n]) == e)
            && (e.Some? && e.value !in t.txns ==> Existing(t, c, rows[n]).None? && !IsFirstOfItsIdentity(c, rows, n))
  {
    var n := |rows| - 1;
    var k := KeyOf(c, rows[n]);
    if k.Some? && k.value in m.identityIndex {
      assert IndexOk(m, k.value);
      var id := m.identityIndex[k.value];
      if id in t.txns {
        assert TxnOk(t, id);
      } else {
        IndexPointsAtRows(t);
        assert IsNamed(c, rows[..n], k.value);
        var j :| 0 <= j < n && KeyOf(c, rows[..n][j]) == k;
        assert KeyOf(c, rows[j]) == k;
      }
    } else {
      forall j | 0 <= j < n && k.Some? ensures KeyOf(c, rows[j]) != k {
        assert rows[..n][j] == rows[j];
      }
    }
  }

  lemma IndexGrows(t: Tables, m: Tables, m': Tables, c: Context, rows: seq<Incoming>)
    requires rows != [] && IndexedBy(t, m, c, rows[..|rows| - 1])
    requires var k := KeyOf(c, rows[|rows| - 1]);
             || (m'.identityIndex == m.identityIndex && (k.Some? ==> k.value in m.identityIndex))
             || (k.Some? && k.value !in m.identityIndex && m'.identityIndex == m.identityIndex[k.value := m.nextTxn])
    ensures IndexedBy(t, m', c, rows)
  {
    var n := |rows| - 1;
    forall k | k in m'.identityIndex && k !in t.identityIndex ensures IsNamed(c, rows, k) {
      if k in m.identityIndex {
        var j :| 0 <= j < n && KeyOf(c, rows[..n][j]) == Some(k);
        assert KeyOf(c, rows[j]) == Some(k);
      } else {
        assert KeyOf(c, rows[n]) == Some(k);
      }
    }
    forall j | 0 <= j < |rows| && KeyOf(c, rows[j]).Some? ensures KeyOf(c, rows[j]).value in m'.identityIndex {
      if j < n { assert rows[..n][j] == rows[j]; }
    }
  }

  lemma RowIndexed(first: First, m: Tables, c: Context, n: nat, row: Incoming, s: Summary)
    requires var e := Existing(m, c, row); e.Some? ==> e.value in m.txns
    ensures var m' := ImportRow(first, m, c, n, row, s).tables; var k := KeyOf(c, row);
            || (m'.identityIndex == m.identityIndex && (k.Some? ==> k.value in m.identityIndex))
            || (k.Some? && k.value !in m.identityIndex && m'.identityIndex == m.identityIndex[k.value := m.nextTxn])
  {
    if Existing(m, c, row).None? {
      assert ImportRow(first, m, c, n, row, s) == ImportNew(first, m, c, n, row, s);
      NewRowIndexed(first, m, c, n, row, s);
    } else {
      KnownRowIndexed(m, c, n, row, s, Existing(m, c, row).value);
    }
  }

  lemma NewRowIndexed(first: First, m: Tables, c: Context, n: nat, row: Incoming, s: Summary)
    ensures ImportNew(first, m, c, n, row, s).tables.identityIndex == AddTxn(m, NewTxn(c, row)).identityIndex
    ensures ImportNew(first, m, c, n, row, s).tables.txns == AddTxn(m, NewTxn(c, row)).txns
  {}

  lemma SeenRowIndexed(m: Tables, c: Context, n: nat, row: Incoming, s: Summary, id: Id, kind: Option<ConflictKind>)
    ensures RecordSeen(m, c, n, row, s, id, kind).tables.identityIndex == m.identityIndex
    ensures RecordSeen(m, c, n, row, s, id, kind).tables.txns == m.txns
  {}

  lemma KnownRowIndexed(m: Tables, c: Context, n: nat, row: Incoming, s: Summary, id: Id)
    requires id in m.txns
    ensures ImportKnown(m, c, n, row, s, id).tables.identityIndex == m.identityIndex
    ensures ImportKnown(m, c, n, row, s, id).tables.txns == m.txns
  {
    SeenRowIndexed(m, c, n, row, s, id, MaterialFactConflict(m.txns[id].facts, row.facts));
  }

  // ---------- all rows ----------

  ghost predicate Shaped(t: Tables, m: Tables, c: Context, rows: seq<Incoming>) {
    && Adds(t, m, c.statementId) && IndexedBy(t, m, c, rows)
    && (GoesAgain(t, m) <==> AllUndoable(t, c, rows))
  }

  lemma OneMoreUndoable(t: Tables, c: Context, rows: seq<Incoming>)
    requires rows != []
    ensures AllUndoable(t, c, rows) <==> (AllUndoable(t, c, rows[..|rows| - 1]) && IsUndoable(t, c, rows, |rows| - 1))
  {
    var n := |rows| - 1;
    forall k: nat | k < n ensures IsUndoable(t, c, rows[..n], k) <==> IsUndoable(t, c, rows, k) {
      assert rows[..n][k] == rows[k];
      assert forall j :: 0 <= j < k ==> rows[..n][j] == rows[j];
    }
  }

  lemma RowShaped(first: First, t: Tables, m: Tables, c: Context, rows: seq<Incoming>, s: Summary)
    requires rows != [] && Valid(t) && c.statementId in t.statements
    requires Adds(t, m, c.statementId) && IndexedBy(t, m, c, rows[..|rows| - 1])
    ensures var m' := ImportRow(first, m, c, |rows|, rows[|rows| - 1], s).tables;
            && Adds(t, m', c.statementId)
            && (GoesAgain(t, m') <==> (GoesAgain(t, m) && IsUndoable(t, c, rows, |rows| - 1)))
  {
    var n, row := |rows|, rows[|rows| - 1];
    ExistingIsOldOrRepeated(t, m, c, rows);
    var e := Existing(m, c, row);
    if e.None? {
      NewStep(first, t, m, c, n, row, s);
    } else {
      var kind := MaterialFactConflict(m.txns[e.value].facts, row.facts);
      if kind.Some? { ConflictStep(t, m, c, n, row, s, e.value, kind.value); }
      else { KnownStep(t, m, c, n, row, s, e.value); }
    }
  }

  lemma {:induction false} RowsShaped(first: First, t: Tables, c: Context, rows: seq<Incoming>)
    requires Valid(t) && c.statementId in t.statements
    ensures Shaped(t, ImportRows(first, t, c, rows).tables, c, rows)
  {
    if rows != [] {
      var n := |rows| - 1;
      RowsShaped(first, t, c, rows[..n]);
      var before := ImportRows(first, t, c, rows[..n]);
      OneMoreShaped(first, t, before.tables, c, rows, before.summary);
    }
  }

  lemma OneMoreShaped(first: First, t: Tables, m: Tables, c: Context, rows: seq<Incoming>, s: Summary)
    requires rows != [] && Valid(t) && c.statementId in t.statements && Shaped(t, m, c, rows[..|rows| - 1])
    ensures Shaped(t, ImportRow(first, m, c, |rows|, rows[|rows| - 1], s).tables, c, rows)
  {
    RowShaped(first, t, m, c, rows, s);
    OneMoreIndexed(first, t, m, c, rows, s);
    OneMoreUndoable(t, c, rows);
  }

  lemma OneMoreIndexed(first: First, t: Tables, m: Tables, c: Context, rows: seq<Incoming>, s: Summary)
    requires rows != [] && Valid(t) && Valid(m) && Grows(t, m) && IndexedBy(t, m, c, rows[..|rows| - 1])
    ensures IndexedBy(t, ImportRow(first, m, c, |rows|, rows[|rows| - 1], s).tables, c, rows)
  {
    var n := |rows| - 1;
    ExistingIsOldOrRepeated(t, m, c, rows);
    RowIndexed(first, m, c, |rows|, rows[n], s);
    IndexGrows(t, m, ImportRow(first, m, c, |rows|, rows[n], s).tables, c, rows);
  }

  // ---------- the round trip ----------

  /** The same canonical rows, provenance, reviews and statements; only the counters of the ids
      have moved on. */
  predicate SameJournal(t: Tables, t': Tables) {
    && t'.txns == t.txns && t'.identityIndex == t.identityIndex
    && t'.sources == t.sources && t'.conflicts == t.conflicts
    && t'.statements == t.statements && t'.contentIndex == t.contentIndex
    && t'.repairs == t.repairs && t'.aliases == t.aliases
    && t'.matches == t.matches && t'.settlementUsage == t.settlementUsage && t'.advances == t.advances
  }

  /** Against the tables before the import: its statement is the only thing that is new to them. */
  lemma AddsToWhatWas(first: First, t: Tables, i: StatementInput)
    requires Valid(t) && !IsReplay(t, i)
    ensures var t' := Import(first, t, i).tables; var sid := t.nextStatement;
            && Valid(t') && Grows(t, t')
            && AddsRows(t, t', sid) && AddsSources(t, t', sid) && AddsConflicts(t, t', sid)
            && IndexedBy(t, t', ContextOf(t, i), i.rows)
            && t'.statements == AddStatement(t, i).statements && t'.contentIndex == AddStatement(t, i).contentIndex
            && (GoesAgain(t, t') <==> AllUndoable(t, ContextOf(t, i), i.rows))
  {
    var t1, c := AddStatement(t, i), ContextOf(t, i);
    StatementAdded(t, i);
    RowsShaped(first, t1, c, i.rows);
    var t' := Import(first, t, i).tables;
    GrowsTransitive(t, t1, t');
    SameUndoable(t, t1, c, i.rows);
    SameGoesAgain(t, t1, t');
  }

  lemma SameRetained(t: Tables, t1: Tables, id: Id)
    requires t1.txns == t.txns && t1.sources == t.sources && t1.conflicts == t.conflicts && t1.repairs == t.repairs
    requires t1.matches == t.matches && t1.settlementUsage == t.settlementUsage && t1.advances == t.advances
    ensures IsRetained(t1, id) <==> IsRetained(t, id)
  {}

  lemma SameUndoable(t: Tables, t1: Tables, c: Context, rows: seq<Incoming>)
    requires t1.txns == t.txns && t1.sources == t.sources && t1.conflicts == t.conflicts && t1.repairs == t.repairs
    requires t1.matches == t.matches && t1.settlementUsage == t.settlementUsage && t1.advances == t.advances
    requires t1.identityIndex == t.identityIndex
    ensures AllUndoable(t1, c, rows) <==> AllUndoable(t, c, rows)
  {
    forall id: Id ensures IsRetained(t1, id) <==> IsRetained(t, id) { SameRetained(t, t1, id); }
    forall k: nat | k < |rows| ensures IsUndoable(t1, c, rows, k) <==> IsUndoable(t, c, rows, k) {}
  }

  lemma SameGoesAgain(t: Tables, t1: Tables, t': Tables)
    requires t1.txns == t.txns && t1.sources == t.sources && t1.conflicts == t.conflicts && t1.repairs == t.repairs
    requires t1.matches == t.matches && t1.settlementUsage == t.settlementUsage && t1.advances == t.advances
    ensures GoesAgain(t1, t') <==> GoesAgain(t, t')
  {
    forall id: Id ensures IsRetained(t1, id) <==> IsRetained(t, id) { SameRetained(t, t1, id); }
  }

  lemma FinancialRefersToKnown(t: Tables, t': Tables, id: Id)
    requires Valid(t) && Grows(t, t') && id !in t.txns && id in t'.txns && t'.txns[id].status == Open
    ensures !HasFinancialReferences(t', id)
  {}

  /** A new row lives on the new statement alone. */
  lemma NewRowIsUnretained(t: Tables, t': Tables, sid: Id, id: Id)
    requires Valid(t) && Grows(t, t') && AddsSources(t, t', sid) && AddsConflicts(t, t', sid)
    requires id in t'.txns && id !in t.txns && t'.txns[id].status == Open
    ensures !IsRetained(WithoutEvidence(t', sid), id)
  {
    var w := WithoutEvidence(t', sid);
    FinancialRefersToKnown(t, t', id);
    FinancialIsUntouched(t', w, id);
    forall x | x in w.sources ensures w.sources[x].txnId != id { assert x in t.sources; assert SourceOk(t, x); }
    forall c | c in w.conflicts ensures w.conflicts[c].canonicalId != id { assert c in t.conflicts; assert ConflictOk(t, c); }
    forall r | r in w.repairs ensures w.repairs[r].survivorId != id { assert RepairOk(t, r); }
  }

  /** Evidence of other statements is the evidence there was. */
  lemma EvidenceRestored(t: Tables, t': Tables, sid: Id)
    requires Valid(t) && AddsSources(t, t', sid) && AddsConflicts(t, t', sid) && sid == t.nextStatement
    ensures WithoutEvidence(t', sid).sources == t.sources && WithoutEvidence(t', sid).conflicts == t.conflicts
  {
    EvidenceIdsAreSmall(t);
    SourcesAreOfOldStatements(t);
  }

  lemma OldRowIsRetainedAlike(t: Tables, t': Tables, sid: Id, id: Id)
    requires Valid(t) && Grows(t, t') && AddsSources(t, t', sid) && AddsConflicts(t, t', sid) && sid == t.nextStatement
    requires id in t.txns
    ensures IsRetained(WithoutEvidence(t', sid), id) <==> IsRetained(t, id)
  {
    EvidenceRestored(t, t', sid);
    var w := WithoutEvidence(t', sid);
    assert HasFinancialReferences(w, id) <==> HasFinancialReferences(t, id);
  }

  lemma NewRowIsDetached(t: Tables, t': Tables, sid: Id, id: Id)
    requires Valid(t') && AddsRows(t, t', sid) && id in t'.txns && id !in t.txns
    ensures id in TxnsOf(t', sid)
  {
    assert TxnOk(t', id);
    var x :| x in t'.sources && t'.sources[x].txnId == id && t'.sources[x].statementId == sid;
  }

  lemma OldRowIsNotOfTheStatement(t: Tables, id: Id)
    requires Valid(t) && id in t.txns
    ensures t.txns[id].statementId != Some(t.nextStatement)
  {
    assert TxnOk(t, id);
    if t.txns[id].statementId.Some? {
      var x :| x in t.sources && t.sources[x].txnId == id && t.sources[x].statementId == t.txns[id].statementId.value;
      assert SourceOk(t, x);
      assert StatementOk(t, t.sources[x].statementId);
    }
  }

  lemma SourcesAreOfOldStatements(t: Tables)
    requires Valid(t)
    ensures forall x :: x in t.sources ==> t.sources[x].statementId < t.nextStatement
  {
    forall x | x in t.sources ensures t.sources[x].statementId < t.nextStatement {
      assert SourceOk(t, x);
      assert StatementOk(t, t.sources[x].statementId);
    }
  }

  lemma KnownRowIsRetained(t: Tables, t': Tables, sid: Id, id: Id)
    requires Valid(t) && sid == t.nextStatement && AddsSources(t, t', sid) && AddsOnlyToRetained(t, t')
    requires id in t.txns && id in TxnsOf(t', sid)
    ensures IsRetained(t, id)
  {
    var x :| x in t'.sources && t'.sources[x].statementId == sid && t'.sources[x].txnId == id;
    SourcesAreOfOldStatements(t);
    assert x !in t.sources;
  }

  /** The state an import reaches, seen from the state it started in. */
  ghost predicate Imports(t: Tables, t': Tables) {
    var sid := t.nextStatement;
    Valid(t) && Valid(t') && Grows(t, t') && AddsRows(t, t', sid) && AddsSources(t, t', sid) && AddsConflicts(t, t', sid)
  }

  /** Which rows go: the new ones, and no others. */
  lemma GoneRows(t: Tables, t': Tables, id: Id)
    requires Imports(t, t') && GoesAgain(t, t') && id in t'.txns
    ensures var w := WithoutEvidence(t', t.nextStatement);
            (id in TxnsOf(t', t.nextStatement) && !IsRetained(w, id)) <==> id !in t.txns
  {
    var sid := t.nextStatement;
    if id in t.txns {
      OldRowIsRetainedAlike(t, t', sid, id);
      if id in TxnsOf(t', sid) { KnownRowIsRetained(t, t', sid, id); }
    } else {
      NewRowIsDetached(t, t', sid, id);
      NewRowIsUnretained(t, t', sid, id);
    }
  }

  lemma RowsRestored(t: Tables, t': Tables)
    requires Imports(t, t') && GoesAgain(t, t')
    ensures Detach(t', t.nextStatement).txns == t.txns
  {
    var d := Detach(t', t.nextStatement);
    forall id | id in t'.txns ensures id in d.txns <==> id in t.txns { GoneRows(t, t', id); }
    forall id | id in t.txns ensures d.txns[id] == t.txns[id] { OldRowIsNotOfTheStatement(t, id); }
  }

  lemma IndexRestored(t: Tables, t': Tables, c: Context, rows: seq<Incoming>)
    requires Imports(t, t') && GoesAgain(t, t') && IndexedBy(t, t', c, rows)
    ensures Detach(t', t.nextStatement).identityIndex == t.identityIndex
  {
    var d := Detach(t', t.nextStatement);
    forall k | k in t'.identityIndex ensures k in d.identityIndex <==> k in t.identityIndex {
      EntryIsOld(t, t', c, rows, k);
      GoneRows(t, t', t'.identityIndex[k]);
    }
  }

  /** An entry of the index was there before exactly when its row was. */
  lemma EntryIsOld(t: Tables, t': Tables, c: Context, rows: seq<Incoming>, k: Identity)
    requires Imports(t, t') && IndexedBy(t, t', c, rows) && k in t'.identityIndex
    ensures t'.identityIndex[k] in t'.txns
    ensures k in t.identityIndex <==> t'.identityIndex[k] in t.txns
  {
    assert IndexOk(t', k);
    IndexPointsAtRows(t);
    if t'.identityIndex[k] in t.txns { assert TxnOk(t, t'.identityIndex[k]); }
  }

  lemma StatementsRestored(t: Tables, t': Tables, i: StatementInput)
    requires Valid(t) && !IsReplay(t, i)
    requires t'.statements == AddStatement(t, i).statements && t'.contentIndex == AddStatement(t, i).contentIndex
    ensures Detach(t', t.nextStatement).statements == t.statements
    ensures Detach(t', t.nextStatement).contentIndex == t.contentIndex
  {
    forall s | s in t.statements ensures s < t.nextStatement { assert StatementOk(t, s); }
    forall k | k in t.contentIndex ensures t.contentIndex[k] < t.nextStatement { assert ContentOk(t, k); }
  }

  /** What keeps a row that an import made or touched, when the condition fails. */
  lemma NotRestored(t: Tables, t': Tables)
    requires Imports(t, t') && !GoesAgain(t, t')
    ensures Detach(t', t.nextStatement).txns != t.txns
  {
    var sid := t.nextStatement;
    var w, d := WithoutEvidence(t', sid), Detach(t', sid);
    if !AddsOnlyOpen(t, t') {
      var id :| id in t'.txns && id !in t.txns && t'.txns[id].status != Open;
      assert IsRetained(w, id);
      assert id in d.txns;
    } else {
      var x :| x in t'.sources && x !in t.sources && t'.sources[x].txnId in t.txns && !IsRetained(t, t'.sources[x].txnId);
      var id := t'.sources[x].txnId;
      OldRowIsRetainedAlike(t, t', sid, id);
      assert id in TxnsOf(t', sid);
      assert id !in d.txns;
    }
  }

  /** The round trip. Importing a statement and deleting it again leaves the journal as it was
      if and only if, row by row: a row that makes a movement leaves it open, and a movement that
      a row was recognised as is kept by something else than that row. Any mix of new, known,
      conflicting and ambiguous rows is covered. */
  lemma ImportThenDelete(first: First, t: Tables, i: StatementInput)
    requires Valid(t) && !IsReplay(t, i)
    ensures SameJournal(t, Detach(Import(first, t, i).tables, t.nextStatement))
       <==> AllUndoable(t, ContextOf(t, i), i.rows)
  {
    var t', sid := Import(first, t, i).tables, t.nextStatement;
    AddsToWhatWas(first, t, i);
    EvidenceRestored(t, t', sid);
    StatementsRestored(t, t', i);
    if GoesAgain(t, t') {
      RowsRestored(t, t');
      IndexRestored(t, t', ContextOf(t, i), i.rows);
    } else {
      NotRestored(t, t');
    }
  }

  lemma OpenRowsAreUndoable(t: Tables, c: Context, rows: seq<Incoming>)
    requires forall id :: id in t.txns ==> HasSource(t, id)
    requires forall row :: row in rows ==> ArrivesOpen(row)
    ensures AllUndoable(t, c, rows)
  {
    forall k | 0 <= k < |rows| ensures IsUndoable(t, c, rows, k) {
      assert ArrivesOpen(rows[k]);
    }
  }

  /** In particular: when every canonical row has a source and the rows of the statement arrive
      open, whatever else they are. */
  lemma ImportThenDeleteOpenRows(first: First, t: Tables, i: StatementInput)
    requires Valid(t) && !IsReplay(t, i)
    requires forall id :: id in t.txns ==> HasSource(t, id)
    requires forall row :: row in i.rows ==> ArrivesOpen(row)
    ensures SameJournal(t, Detach(Import(first, t, i).tables, t.nextStatement))
  {
    OpenRowsAreUndoable(t, ContextOf(t, i), i.rows);
    ImportThenDelete(first, t, i);
  }
}
