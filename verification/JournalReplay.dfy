/** What an import reports, and what importing the same content again reports
    (`bank-statement.service.ts`). */
module JournalReplay {
  import opened JournalModel
  import opened JournalSafety
  import opened JournalRoundTrip
  import opened Seqs
  import opened Wrappers

  /** Rows that were refused because they contradict the movement of their own identity. */
  function IdentityConflictsOf(t: Tables, sid: Id): set<Id> {
    set c | c in t.conflicts && t.conflicts[c].statementId == sid && t.conflicts[c].kind != AmbiguousOverlap
  }

  function RowsOfStatement(t: Tables, sid: Id): set<Id> {
    set id | id in t.txns && t.txns[id].statementId == Some(sid)
  }

  // ---------- the books of one import ----------

  /** The summary agrees with the tables. */
  ghost predicate Tallies(r: Imported, sid: Id, rows: nat) {
    var t, s := r.tables, r.summary;
    && |s.newIds| + |s.knownIds| == |SourcesOf(t, sid)|
    && |s.newIds| + |s.knownIds| + |IdentityConflictsOf(t, sid)| == rows
    && |s.conflictIds| == |OpenConflictsOf(t, sid)|
    && (forall c :: c in s.conflictIds <==> c in OpenConflictsOf(t, sid))
    && |s.newIds| == |RowsOfStatement(t, sid)|
    && (forall id :: id in s.newIds <==> id in RowsOfStatement(t, sid))
  }

  lemma SourceTallied(t: Tables, s: Source)
    requires t.nextSource !in t.sources
    ensures |SourcesOf(AddSource(t, s), s.statementId)| == |SourcesOf(t, s.statementId)| + 1
  {
    assert SourcesOf(AddSource(t, s), s.statementId) == SourcesOf(t, s.statementId) + {t.nextSource};
  }

  lemma ConflictTallied(t: Tables, c: Conflict)
    requires t.nextConflict !in t.conflicts && c.open
    ensures OpenConflictsOf(AddConflict(t, c), c.statementId) == OpenConflictsOf(t, c.statementId) + {t.nextConflict}
    ensures |OpenConflictsOf(AddConflict(t, c), c.statementId)| == |OpenConflictsOf(t, c.statementId)| + 1
    ensures |IdentityConflictsOf(AddConflict(t, c), c.statementId)|
         == |IdentityConflictsOf(t, c.statementId)| + if c.kind != AmbiguousOverlap then 1 else 0
  {
    IdentityConflictTallied(t, c);
  }

  lemma IdentityConflictTallied(t: Tables, c: Conflict)
    requires t.nextConflict !in t.conflicts
    ensures |IdentityConflictsOf(AddConflict(t, c), c.statementId)|
         == |IdentityConflictsOf(t, c.statementId)| + if c.kind != AmbiguousOverlap then 1 else 0
  {
    var t' := AddConflict(t, c);
    if c.kind != AmbiguousOverlap {
      assert IdentityConflictsOf(t', c.statementId) == IdentityConflictsOf(t, c.statementId) + {t.nextConflict};
    } else {
      assert IdentityConflictsOf(t', c.statementId) == IdentityConflictsOf(t, c.statementId);
    }
  }

  lemma RowTallied(t: Tables, x: Txn, sid: Id)
    requires t.nextTxn !in t.txns && x.statementId == Some(sid)
    ensures RowsOfStatement(AddTxn(t, x), sid) == RowsOfStatement(t, sid) + {t.nextTxn}
    ensures |RowsOfStatement(AddTxn(t, x), sid)| == |RowsOfStatement(t, sid)| + 1
  {}

  lemma ConflictRowTallied(m: Imported, c: Context, n: nat, row: Incoming, id: Id, kind: ConflictKind)
    requires n > 0 && Valid(m.tables) && Tallies(m, c.statementId, n - 1) && kind != AmbiguousOverlap
    ensures Tallies(RecordConflict(m.tables, c, n, row, m.summary, id, kind), c.statementId, n)
  {
    IdsAreFresh(m.tables);
    var x := Conflict(c.accountId, row.externalId, id, c.statementId, n, kind, row.facts, true);
    ConflictTallied(m.tables, x);
    var m' := AddConflict(m.tables, x);
    assert SourcesOf(m', c.statementId) == SourcesOf(m.tables, c.statementId);
    assert RowsOfStatement(m', c.statementId) == RowsOfStatement(m.tables, c.statementId);
  }

  lemma KnownRowTallied(m: Imported, c: Context, n: nat, row: Incoming, id: Id)
    requires n > 0 && Valid(m.tables) && Tallies(m, c.statementId, n - 1)
    ensures Tallies(RecordKnown(m.tables, c, n, row, m.summary, id), c.statementId, n)
  {
    IdsAreFresh(m.tables);
    var x := Source(id, c.statementId, Some(n), row.externalId, Some(row.facts));
    SourceTallied(m.tables, x);
    var m' := AddSource(m.tables, x);
    assert IdentityConflictsOf(m', c.statementId) == IdentityConflictsOf(m.tables, c.statementId);
    assert OpenConflictsOf(m', c.statementId) == OpenConflictsOf(m.tables, c.statementId);
    assert RowsOfStatement(m', c.statementId) == RowsOfStatement(m.tables, c.statementId);
  }

  /** The new row before its possible ambiguity is looked at. */
  function WithNewRow(m: Imported, c: Context, n: nat, row: Incoming): Imported {
    Imported(NewRow(m.tables, c, n, row), m.summary.(newIds := m.summary.newIds + [m.tables.nextTxn]))
  }

  lemma NewRowTallied(m: Imported, c: Context, n: nat, row: Incoming)
    requires n > 0 && Valid(m.tables) && Tallies(m, c.statementId, n - 1)
    ensures Tallies(WithNewRow(m, c, n, row), c.statementId, n)
  {
    var t, sid := m.tables, c.statementId;
    IdsAreFresh(t);
    var t1 := AddTxn(t, NewTxn(c, row));
    RowTallied(t, NewTxn(c, row), sid);
    assert SourcesOf(t1, sid) == SourcesOf(t, sid);
    SourceTallied(t1, Source(t.nextTxn, sid, Some(n), row.externalId, Some(row.facts)));
    var t2 := NewRow(t, c, n, row);
    assert RowsOfStatement(t2, sid) == RowsOfStatement(t1, sid);
    assert IdentityConflictsOf(t2, sid) == IdentityConflictsOf(t, sid);
    assert OpenConflictsOf(t2, sid) == OpenConflictsOf(t, sid);
  }

  lemma AmbiguityTallied(m: Imported, x: Conflict, sid: Id, n: nat)
    requires m.tables.nextConflict !in m.tables.conflicts && Tallies(m, sid, n)
    requires x.statementId == sid && x.kind == AmbiguousOverlap && x.open
    ensures Tallies(Imported(AddConflict(m.tables, x), m.summary.(conflictIds := m.summary.conflictIds + [m.tables.nextConflict])), sid, n)
  {
    ConflictTallied(m.tables, x);
    var m' := AddConflict(m.tables, x);
    assert SourcesOf(m', sid) == SourcesOf(m.tables, sid);
    assert RowsOfStatement(m', sid) == RowsOfStatement(m.tables, sid);
  }

  lemma NewTallied(first: First, m: Imported, c: Context, n: nat, row: Incoming)
    requires n > 0 && Valid(m.tables) && Tallies(m, c.statementId, n - 1)
    ensures Tallies(ImportNew(first, m.tables, c, n, row, m.summary), c.statementId, n)
  {
    NewRowTallied(m, c, n, row);
    IdsAreFresh(m.tables);
    var t2 := NewRow(m.tables, c, n, row);
    var twins := Twins(t2, c, row.facts);
    if row.externalId.None? && twins != {} {
      AmbiguityTallied(WithNewRow(m, c, n, row),
        Conflict(c.accountId, None, first(twins), c.statementId, n, AmbiguousOverlap, row.facts, true), c.statementId, n);
    }
  }

  lemma EachRowTallied(first: First, m: Imported, c: Context, n: nat, row: Incoming)
    requires n > 0 && Valid(m.tables) && Tallies(m, c.statementId, n - 1)
    ensures Tallies(ImportRow(first, m.tables, c, n, row, m.summary), c.statementId, n)
  {
    var e := Existing(m.tables, c, row);
    if e.Some? && e.value in m.tables.txns {
      var kind := MaterialFactConflict(m.tables.txns[e.value].facts, row.facts);
      if kind.Some? { ConflictRowTallied(m, c, n, row, e.value, kind.value); }
      else { KnownRowTallied(m, c, n, row, e.value); }
    } else {
      NewTallied(first, m, c, n, row);
    }
  }

  lemma {:induction false} RowsTallied(first: First, t: Tables, c: Context, rows: seq<Incoming>)
    requires Valid(t) && c.statementId in t.statements
    requires Tallies(Imported(t, Summary([], [], [])), c.statementId, 0)
    ensures Tallies(ImportRows(first, t, c, rows), c.statementId, |rows|)
  {
    if rows != [] {
      RowsTallied(first, t, c, rows[..|rows| - 1]);
      RowsImported(first, t, c, rows[..|rows| - 1]);
      EachRowTallied(first, ImportRows(first, t, c, rows[..|rows| - 1]), c, |rows|, rows[|rows| - 1]);
    }
  }

  lemma NothingYet(t: Tables, i: StatementInput)
    requires Valid(t)
    ensures Tallies(Imported(AddStatement(t, i), Summary([], [], [])), t.nextStatement, 0)
  {
    var t1, sid := AddStatement(t, i), t.nextStatement;
    EvidenceIdsAreSmall(t);
    SourcesAreOfOldStatements(t);
    assert SourcesOf(t1, sid) == {};
    assert IdentityConflictsOf(t1, sid) == {};
    assert OpenConflictsOf(t1, sid) == {};
    forall id | id in t.txns ensures t.txns[id].statementId != Some(sid) { OldRowIsNotOfTheStatement(t, id); }
    assert RowsOfStatement(t1, sid) == {};
  }

  /** The summary of a first import accounts for every row: a row is new, known, or contradicts
      its own identity; each of the first two left one source; the reported conflicts are the
      open conflicts, and the new ids are the rows that say they came from this statement. */
  lemma ImportAccountsForEveryRow(first: First, t: Tables, i: StatementInput)
    requires Valid(t) && !IsReplay(t, i)
    ensures Tallies(Import(first, t, i), t.nextStatement, |i.rows|)
  {
    StatementAdded(t, i);
    NothingYet(t, i);
    RowsTallied(first, AddStatement(t, i), ContextOf(t, i), i.rows);
  }

  // ---------- replay ----------

  datatype Report = Report(newCount: nat, knownCount: nat, conflicts: set<Id>)

  /** What a replay of the statement reports. */
  function ReplayReport(t: Tables, sid: Id): Report {
    Report(0, |SourcesOf(t, sid)|, OpenConflictsOf(t, sid))
  }

  lemma ReplayIsRecognised(first: First, t: Tables, i: StatementInput)
    requires Valid(t) && !IsReplay(t, i) && ContentKeyOf(i).Some?
    ensures ContentKeyOf(i).value in Import(first, t, i).tables.contentIndex
    ensures Import(first, t, i).tables.contentIndex[ContentKeyOf(i).value] == t.nextStatement
  {
    AddsToWhatWas(first, t, i);
  }

  lemma ReplayReportsTheFirstImport(r: Imported, sid: Id, rows: nat)
    requires Tallies(r, sid, rows)
    ensures ReplayReport(r.tables, sid)
         == Report(0, |r.summary.newIds| + |r.summary.knownIds|, set c | c in r.summary.conflictIds)
  {
    assert OpenConflictsOf(r.tables, sid) == set c | c in r.summary.conflictIds;
  }

  /** Importing equal content again is recognised as the same statement, changes no table, and
      reports as known what the first import found new or known, with the same conflicts. */
  lemma ReplayIsTruthful(first: First, t: Tables, i: StatementInput, again: StatementInput)
    requires Valid(t) && !IsReplay(t, i)
    requires ContentKeyOf(i).Some? && ContentKeyOf(again) == ContentKeyOf(i)
    ensures var r := Import(first, t, i);
            && IsReplay(r.tables, again)
            && r.tables.contentIndex[ContentKeyOf(again).value] == t.nextStatement
            && Perform(first, r.tables, DoImport(again)) == r.tables
            && ReplayReport(r.tables, t.nextStatement)
               == Report(0, |r.summary.newIds| + |r.summary.knownIds|, set c | c in r.summary.conflictIds)
  {
    var r := Import(first, t, i);
    ReplayIsRecognised(first, t, i);
    assert IsReplay(r.tables, again);
    ImportAccountsForEveryRow(first, t, i);
    ReplayReportsTheFirstImport(r, t.nextStatement, |i.rows|);
  }

  // ---------- when content is equal ----------

  lemma {:induction false} ProjectionsWithout(rows: seq<Incoming>, k: nat)
    requires k < |rows|
    ensures Projections(rows) == Projections(rows[..k] + rows[k + 1..]) + multiset{Projection(rows[k])}
  {
    var rest := rows[..k] + rows[k + 1..];
    if k == 0 {
      assert rest == rows[1..];
    } else {
      ProjectionsWithout(rows[1..], k - 1);
      assert rest[1..] == rows[1..][..k - 1] + rows[1..][k..];
      assert rest[0] == rows[0];
    }
  }

  lemma WithoutOne(rows: seq<Incoming>, k: nat)
    requires k < |rows|
    ensures multiset(Without(rows, k)) == multiset(rows) - multiset{rows[k]}
    ensures Projections(rows) == Projections(Without(rows, k)) + multiset{Projection(rows[k])}
  {
    OneLess(rows, k);
    ProjectionsWithout(rows, k);
  }

  /** The order of the rows does not take part. */
  lemma {:induction false} OrderDoesNotMatter(rows: seq<Incoming>, others: seq<Incoming>)
    requires multiset(rows) == multiset(others)
    ensures Projections(rows) == Projections(others)
    decreases |rows|
  {
    if rows == [] {
      assert |multiset(others)| == 0;
    } else {
      assert rows[0] in multiset(others);
      var k :| 0 <= k < |others| && others[k] == rows[0];
      WithoutOne(rows, 0);
      WithoutOne(others, k);
      OrderDoesNotMatter(Without(rows, 0), Without(others, k));
    }
  }

  lemma {:induction false} ProjectionsCount(rows: seq<Incoming>)
    ensures |Projections(rows)| == |rows|
  {
    if rows != [] { ProjectionsCount(rows[1..]); }
  }

  /** A structured statement with its rows in another order replays; one more copy of any row
      makes it another statement. */
  lemma StructuredReplay(i: StatementInput, rows: seq<Incoming>)
    requires i.fingerprint.None? && !i.hasRawArchive
    ensures multiset(rows) == multiset(i.rows) ==> ContentKeyOf(i.(rows := rows)) == ContentKeyOf(i)
    ensures |rows| != |i.rows| ==> ContentKeyOf(i.(rows := rows)) != ContentKeyOf(i)
  {
    if multiset(rows) == multiset(i.rows) { OrderDoesNotMatter(rows, i.rows); }
    ProjectionsCount(rows);
    ProjectionsCount(i.rows);
  }

  /** What claims a replay, and what is taken for the same source. */
  lemma ReplayEvidence(i: StatementInput, j: StatementInput)
    ensures ContentKeyOf(i).None? <==> i.fingerprint.None? && i.hasRawArchive
    ensures i.fingerprint.Some? ==>
              (ContentKeyOf(i) == ContentKeyOf(j) <==> i.accountId == j.accountId && i.fingerprint == j.fingerprint)
    ensures ContentKeyOf(i).Some? && ContentKeyOf(i) == ContentKeyOf(j) && i.fingerprint.None? ==>
              && j.fingerprint.None? && !j.hasRawArchive && i.accountId == j.accountId
              && i.provider == j.provider && i.accountRef == j.accountRef
              && |i.rows| == |j.rows|
  {
    ProjectionsCount(i.rows);
    ProjectionsCount(j.rows);
  }

  /** A structured statement with one row changed replays exactly when the change is in nothing
      that is hashed. */
  lemma ChangedRowIsAnotherSource(i: StatementInput, k: nat, row: Incoming)
    requires i.fingerprint.None? && !i.hasRawArchive && k < |i.rows|
    ensures ContentKeyOf(i.(rows := i.rows[k := row])) == ContentKeyOf(i)
            <==> row.externalId == i.rows[k].externalId && row.facts == i.rows[k].facts && row.status == i.rows[k].status
  {
    var rows := i.rows[k := row];
    ProjectionsWithout(i.rows, k);
    ProjectionsWithout(rows, k);
    assert rows[..k] + rows[k + 1..] == i.rows[..k] + i.rows[k + 1..];
    var rest, p, q := Projections(i.rows[..k] + i.rows[k + 1..]), Projection(i.rows[k]), Projection(row);
    if p != q { assert (rest + multiset{p})[p] == rest[p] + 1 && (rest + multiset{q})[p] == rest[p]; }
  }
}
