/** What the provenance rows and the conflicts say about the canonical rows they point at
    (`bank-statement.service.ts`, `bank-duplicate-repair.service.ts`). */
module JournalEvidence {
  import opened JournalModel
  import opened JournalSafety
  import opened Wrappers

  predicate SameMoney(a: Facts, b: Facts) {
    a.amount == b.amount && a.currency == b.currency
  }

  /** A bank may print one movement under its transaction date and under its booking date. */
  predicate SharesDate(a: Facts, b: Facts) {
    || a.transactionDate == b.transactionDate
    || a.bookingDate == Some(b.transactionDate)
    || b.bookingDate == Some(a.transactionDate)
    || (a.bookingDate.Some? && a.bookingDate == b.bookingDate)
  }

  predicate SameSettlement(a: Facts, b: Facts) {
    && a.sourceAmount == b.sourceAmount && a.sourceCurrency == b.sourceCurrency
    && a.fxRate == b.fxRate && a.conversionFee == b.conversionFee
    && a.counterpartyIban == b.counterpartyIban
    && SharesDate(a, b)
  }

  /** A provenance row with facts states the money of its canonical row and, when nothing was
      merged, the other material facts. */
  ghost predicate SourceFits(txns: map<Id, Txn>, x: Source, exact: bool) {
    x.txnId in txns && (x.facts.Some? ==>
      SameMoney(txns[x.txnId].facts, x.facts.value) && (exact ==> SameSettlement(txns[x.txnId].facts, x.facts.value)))
  }

  /** The kind of a conflict names the first material fact that differs; an overlap is a row
      that looks like the canonical one and that the bank did not identify. */
  ghost predicate Explains(kind: ConflictKind, canonical: Facts, incoming: Facts, exact: bool) {
    match kind
    case AmountMismatch => canonical.amount != incoming.amount
    case CurrencyMismatch => canonical.amount == incoming.amount && canonical.currency != incoming.currency
    case FactMismatch => SameMoney(canonical, incoming) && (exact ==> !SameSettlement(canonical, incoming))
    case AmbiguousOverlap => SameMoney(canonical, incoming) && (exact ==> canonical.transactionDate == incoming.transactionDate)
  }

  ghost predicate ConflictFits(txns: map<Id, Txn>, c: Conflict, exact: bool) {
    && c.canonicalId in txns
    && Explains(c.kind, txns[c.canonicalId].facts, c.incoming, exact)
    && (c.kind.AmbiguousOverlap? ==> c.externalId.None? && txns[c.canonicalId].accountId == c.accountId)
  }

  ghost predicate Agrees(t: Tables, exact: bool) {
    && (forall s :: s in t.sources ==> SourceFits(t.txns, t.sources[s], exact))
    && (forall c :: c in t.conflicts ==> ConflictFits(t.txns, t.conflicts[c], exact))
  }

  // ---------- import ----------

  lemma SourceKeepsAgreement(t: Tables, x: Source, exact: bool)
    requires Agrees(t, exact) && SourceFits(t.txns, x, exact)
    ensures Agrees(AddSource(t, x), exact)
  {}

  lemma ConflictKeepsAgreement(t: Tables, c: Conflict, exact: bool)
    requires Agrees(t, exact) && ConflictFits(t.txns, c, exact)
    ensures Agrees(AddConflict(t, c), exact)
  {}

  lemma TxnKeepsAgreement(t: Tables, x: Txn, exact: bool)
    requires Agrees(t, exact) && t.nextTxn !in t.txns
    ensures Agrees(AddTxn(t, x), exact)
  {
    var t' := AddTxn(t, x);
    forall s | s in t'.sources ensures SourceFits(t'.txns, t'.sources[s], exact) {
      assert SourceFits(t.txns, t.sources[s], exact);
    }
    forall c | c in t'.conflicts ensures ConflictFits(t'.txns, t'.conflicts[c], exact) {
      assert ConflictFits(t.txns, t.conflicts[c], exact);
    }
  }

  /** When two statements of one identity conflict, and over what. */
  lemma ConflictIff(canonical: Facts, incoming: Facts)
    ensures MaterialFactConflict(canonical, incoming).None? <==> SameMoney(canonical, incoming) && SameSettlement(canonical, incoming)
    ensures MaterialFactConflict(canonical, incoming).Some? ==>
              Explains(MaterialFactConflict(canonical, incoming).value, canonical, incoming, true)
              && !MaterialFactConflict(canonical, incoming).value.AmbiguousOverlap?
  {
    DatesMeet(canonical, incoming);
  }

  lemma DatesMeet(a: Facts, b: Facts)
    ensures Dates(a) * Dates(b) != {} <==> SharesDate(a, b)
  {
    if SharesDate(a, b) {
      var d := if a.transactionDate in Dates(b) then a.transactionDate else a.bookingDate.value;
      assert d in Dates(a) * Dates(b);
    }
  }

  lemma KnownRowAgrees(t: Tables, c: Context, n: nat, row: Incoming, s: Summary, id: Id, exact: bool)
    requires Agrees(t, exact) && id in t.txns
    ensures Agrees(ImportKnown(t, c, n, row, s, id).tables, exact)
  {
    ConflictIff(t.txns[id].facts, row.facts);
    var kind := MaterialFactConflict(t.txns[id].facts, row.facts);
    if kind.Some? {
      ConflictKeepsAgreement(t, Conflict(c.accountId, row.externalId, id, c.statementId, n, kind.value, row.facts, true), exact);
    } else {
      SourceKeepsAgreement(t, Source(id, c.statementId, Some(n), row.externalId, Some(row.facts)), exact);
    }
  }

  lemma NewRowAgrees(first: First, t: Tables, c: Context, n: nat, row: Incoming, s: Summary, exact: bool)
    requires Agrees(t, exact) && t.nextTxn !in t.txns
    ensures Agrees(ImportNew(first, t, c, n, row, s).tables, exact)
  {
    TxnKeepsAgreement(t, NewTxn(c, row), exact);
    var t1 := AddTxn(t, NewTxn(c, row));
    var source := Source(t.nextTxn, c.statementId, Some(n), row.externalId, Some(row.facts));
    SourceKeepsAgreement(t1, source, exact);
    var t2 := AddSource(t1, source);
    var twins := Twins(t2, c, row.facts);
    if row.externalId.None? && twins != {} {
      assert first(twins) in twins;
      ConflictKeepsAgreement(t2, Conflict(c.accountId, None, first(twins), c.statementId, n, AmbiguousOverlap, row.facts, true), exact);
    }
  }

  predicate Overlaps(x: Txn, c: Context, f: Facts) {
    && x.accountId == c.accountId && x.statementId.Some? && x.statementId != Some(c.statementId)
    && x.facts.transactionDate == f.transactionDate && SameMoney(x.facts, f)
  }

  ghost predicate HasOverlap(t: Tables, c: Context, f: Facts) {
    exists id :: id in t.txns && Overlaps(t.txns[id], c, f)
  }

  lemma TwinsOverlap(t: Tables, c: Context, row: Incoming)
    requires t.nextTxn !in t.txns
    ensures forall id :: id in Twins(AddTxn(t, NewTxn(c, row)), c, row.facts) <==> id in t.txns && Overlaps(t.txns[id], c, row.facts)
  {}

  /** One more conflict, about a row that overlaps. */
  ghost predicate Reviews(t: Tables, t': Tables, c: Context, f: Facts) {
    && t'.nextConflict == t.nextConflict + 1
    && t'.conflicts.Keys == t.conflicts.Keys + {t.nextConflict}
    && (forall x :: x in t.conflicts && x != t.nextConflict ==> t'.conflicts[x] == t.conflicts[x])
    && t'.conflicts[t.nextConflict].canonicalId in t.txns
    && Overlaps(t.txns[t'.conflicts[t.nextConflict].canonicalId], c, f)
  }

  lemma ConflictReviews(t: Tables, t2: Tables, x: Conflict, c: Context, f: Facts)
    requires t2.conflicts == t.conflicts && t2.nextConflict == t.nextConflict
    requires x.canonicalId in t.txns && Overlaps(t.txns[x.canonicalId], c, f)
    ensures Reviews(t, AddConflict(t2, x), c, f)
  {
    assert AddConflict(t2, x).conflicts == t.conflicts[t.nextConflict := x];
  }

  /** A new row without an identity is put up for review exactly when another statement holds a
      row of the account with its date and money; the conflict points at such a row. */
  lemma OverlapIff(first: First, t: Tables, c: Context, n: nat, row: Incoming, s: Summary)
    requires t.nextTxn !in t.txns
    ensures row.externalId.None? && HasOverlap(t, c, row.facts) ==>
              Reviews(t, ImportNew(first, t, c, n, row, s).tables, c, row.facts)
    ensures row.externalId.Some? || !HasOverlap(t, c, row.facts) ==>
              ImportNew(first, t, c, n, row, s).tables.conflicts == t.conflicts
  {
    var t1 := AddTxn(t, NewTxn(c, row));
    var t2 := AddSource(t1, Source(t.nextTxn, c.statementId, Some(n), row.externalId, Some(row.facts)));
    TwinsOverlap(t, c, row);
    var twins := Twins(t1, c, row.facts);
    assert Twins(t2, c, row.facts) == twins;
    assert twins != {} <==> HasOverlap(t, c, row.facts) by {
      if HasOverlap(t, c, row.facts) {
        var id :| id in t.txns && Overlaps(t.txns[id], c, row.facts);
        assert id in twins;
      }
    }
    if row.externalId.None? && twins != {} {
      assert first(twins) in twins;
      var x := Conflict(c.accountId, None, first(twins), c.statementId, n, AmbiguousOverlap, row.facts, true);
      assert ImportNew(first, t, c, n, row, s).tables == AddConflict(t2, x);
      ConflictReviews(t, t2, x, c, row.facts);
    } else {
      assert ImportNew(first, t, c, n, row, s).tables == t2;
    }
  }

  lemma RowAgrees(first: First, t: Tables, c: Context, n: nat, row: Incoming, s: Summary, exact: bool)
    requires Valid(t) && Agrees(t, exact)
    ensures Agrees(ImportRow(first, t, c, n, row, s).tables, exact)
  {
    IdsAreSmall(t);
    var existing := Existing(t, c, row);
    if existing.Some? && existing.value in t.txns {
      KnownRowAgrees(t, c, n, row, s, existing.value, exact);
    } else {
      NewRowAgrees(first, t, c, n, row, s, exact);
    }
  }

  lemma {:induction false} RowsAgree(first: First, t: Tables, c: Context, rows: seq<Incoming>, exact: bool)
    requires Valid(t) && c.statementId in t.statements && Agrees(t, exact)
    ensures Agrees(ImportRows(first, t, c, rows).tables, exact)
  {
    if rows != [] {
      RowsImported(first, t, c, rows[..|rows| - 1]);
      RowsAgree(first, t, c, rows[..|rows| - 1], exact);
      var before := ImportRows(first, t, c, rows[..|rows| - 1]);
      RowAgrees(first, before.tables, c, |rows|, rows[|rows| - 1], before.summary, exact);
    }
  }

  lemma ImportAgrees(first: First, t: Tables, i: StatementInput, exact: bool)
    requires Valid(t) && !IsReplay(t, i) && Agrees(t, exact)
    ensures Agrees(Import(first, t, i).tables, exact)
  {
    StatementAdded(t, i);
    RowsAgree(first, AddStatement(t, i), ContextOf(t, i), i.rows, exact);
  }

  // ---------- the other operations ----------

  ghost predicate SameConflict(a: Conflict, b: Conflict) {
    a == b.(open := a.open)
  }

  /** Evidence is only taken away, and reviewed. */
  ghost predicate Thins(t: Tables, t': Tables) {
    && (forall s :: s in t'.sources ==> s in t.sources && t'.sources[s] == t.sources[s])
    && (forall c :: c in t'.conflicts ==> c in t.conflicts && SameConflict(t'.conflicts[c], t.conflicts[c]))
  }

  ghost predicate MovementsStay(t: Tables, t': Tables) {
    forall id :: id in t.txns && id in t'.txns ==> SameMovement(t.txns[id], t'.txns[id])
  }

  lemma LessEvidenceAgrees(t: Tables, t': Tables, exact: bool)
    requires Agrees(t, exact) && EvidenceOk(t') && Thins(t, t') && MovementsStay(t, t')
    ensures Agrees(t', exact)
  {
    forall s | s in t'.sources ensures SourceFits(t'.txns, t'.sources[s], exact) {
      assert SourceOk(t', s) && SourceFits(t.txns, t.sources[s], exact);
    }
    forall c | c in t'.conflicts ensures ConflictFits(t'.txns, t'.conflicts[c], exact) {
      assert ConflictOk(t', c) && ConflictFits(t.txns, t.conflicts[c], exact);
    }
  }

  lemma DetachThins(t: Tables, sid: Id)
    ensures Thins(t, Detach(t, sid)) && MovementsStay(t, Detach(t, sid))
  {}

  lemma ReviewThins(first: First, t: Tables, op: Operation)
    requires op.ResolveConflict? || op.Dispose? || op.Reconcile?
    ensures Thins(t, Perform(first, t, op)) && MovementsStay(t, Perform(first, t, op))
  {
    match op
    case ResolveConflict(c) => ClosingThins(t, c);
    case Dispose(id, status) => DisposingThins(t, id, status);
    case Reconcile(f) =>
  }

  lemma ClosingThins(t: Tables, c: Id)
    ensures Thins(t, CloseConflict(t, c)) && MovementsStay(t, CloseConflict(t, c))
  {
    var t' := CloseConflict(t, c);
    assert t'.sources == t.sources && t'.txns == t.txns;
    forall x | x in t'.conflicts ensures x in t.conflicts && SameConflict(t'.conflicts[x], t.conflicts[x]) {
      if c in t.conflicts { assert t'.conflicts == t.conflicts[c := t.conflicts[c].(open := false)]; }
    }
  }

  lemma DisposingThins(t: Tables, id: Id, status: Status)
    ensures Thins(t, SetStatus(t, id, status)) && MovementsStay(t, SetStatus(t, id, status))
  {
    var t' := SetStatus(t, id, status);
    assert t'.sources == t.sources && t'.conflicts == t.conflicts;
    forall x | x in t.txns && x in t'.txns ensures SameMovement(t.txns[x], t'.txns[x]) {
      if id in t.txns { assert t'.txns == t.txns[id := t.txns[id].(status := status)]; }
    }
  }

  lemma ValidEvidence(t: Tables)
    requires Valid(t)
    ensures EvidenceOk(t)
  {}

  /** Rows of one account with the same money may be merged: what the moved evidence says of the
      money stays true of the survivor. */
  lemma MergeAgrees(t: Tables, s: Id, d: Id)
    requires Agrees(t, false) && s != d && s in t.txns && d in t.txns
    requires SameMoney(t.txns[s].facts, t.txns[d].facts) && t.txns[s].accountId == t.txns[d].accountId
    ensures Agrees(Merge(t, s, d), false)
  {
    var t' := Merge(t, s, d);
    forall x | x in t'.sources ensures SourceFits(t'.txns, t'.sources[x], false) {
      assert SourceFits(t.txns, t.sources[x], false);
    }
    forall c | c in t'.conflicts ensures ConflictFits(t'.txns, t'.conflicts[c], false) {
      assert ConflictFits(t.txns, t.conflicts[c], false);
    }
  }

  lemma DetachAgrees(t: Tables, sid: Id, exact: bool)
    requires Valid(t) && Agrees(t, exact)
    ensures Agrees(Detach(t, sid), exact)
  {
    DetachedEvidence(t, sid);
    DetachThins(t, sid);
    LessEvidenceAgrees(t, Detach(t, sid), exact);
  }

  lemma ReviewAgrees(first: First, t: Tables, op: Operation, exact: bool)
    requires Valid(t) && Agrees(t, exact) && (op.ResolveConflict? || op.Dispose? || op.Reconcile?)
    ensures Agrees(Perform(first, t, op), exact)
  {
    var t' := Perform(first, t, op);
    assert EvidenceOk(t') by { ReviewIsSafe(first, t, op); ValidEvidence(t'); }
    ReviewThins(first, t, op);
    LessEvidenceAgrees(t, t', exact);
  }

  lemma StepAgrees(first: First, t: Tables, op: Operation, exact: bool)
    requires Valid(t) && Agrees(t, exact) && (exact ==> !op.DoRepair?)
    ensures Agrees(Perform(first, t, op), exact)
  {
    match op
    case DoImport(i) => if !IsReplay(t, i) { ImportAgrees(first, t, i, exact); }
    case DoDetach(s) => if s in t.statements { DetachAgrees(t, s, exact); }
    case DoRepair(a) =>
      var r := RepairDecision(t, a);
      if r.Repaired? && !r.alreadyApplied { MergeAgrees(t, a.survivorId, a.duplicateId); }
    case _ => ReviewAgrees(first, t, op, exact);
  }

  ghost predicate MergesNothing(ops: seq<Operation>) {
    forall op :: op in ops ==> !op.DoRepair?
  }

  lemma StillMergesNothing(ops: seq<Operation>)
    requires MergesNothing(ops) && ops != []
    ensures MergesNothing(ops[..|ops| - 1]) && !ops[|ops| - 1].DoRepair?
  {}

  ghost predicate Sound(t: Tables, exact: bool) { Valid(t) && Agrees(t, exact) }

  lemma StepIsSound(first: First, t: Tables, op: Operation, exact: bool)
    requires Sound(t, exact) && (exact ==> !op.DoRepair?)
    ensures Sound(Perform(first, t, op), exact)
  {
    StepIsSafe(first, t, op);
    StepAgrees(first, t, op, exact);
  }

  lemma {:induction false} RunIsSound(first: First, t: Tables, ops: seq<Operation>, exact: bool)
    requires Sound(t, exact) && (exact ==> MergesNothing(ops))
    ensures Sound(PerformAll(first, t, ops), exact)
    decreases |ops|
  {
    if ops != [] {
      if exact { StillMergesNothing(ops); }
      RunIsSound(first, t, ops[..|ops| - 1], exact);
      StepIsSound(first, PerformAll(first, t, ops[..|ops| - 1]), ops[|ops| - 1], exact);
    }
  }

  /** After any run, every provenance row states the money of the row it is attached to, and
      every conflict the difference it is named after; while nothing is merged, so do the other
      material facts. */
  lemma EvidenceAgrees(first: First, t: Tables, ops: seq<Operation>, exact: bool)
    requires Valid(t) && Agrees(t, exact) && (exact ==> MergesNothing(ops))
    ensures Agrees(PerformAll(first, t, ops), exact)
  {
    RunIsSound(first, t, ops, exact);
  }

  // ---------- which rows a detach removes, and which a repair merges ----------

  /** The statement is all that holds the row. */
  ghost predicate IsLeftBare(t: Tables, sid: Id, id: Id) {
    && (exists s :: s in t.sources && t.sources[s].txnId == id && t.sources[s].statementId == sid)
    && (forall s :: s in t.sources && t.sources[s].txnId == id ==> t.sources[s].statementId == sid)
    && (forall c :: c in t.conflicts && t.conflicts[c].canonicalId == id ==> t.conflicts[c].statementId == sid && t.conflicts[c].open)
    && (forall r :: r in t.repairs ==> t.repairs[r].survivorId != id)
    && !IsBooked(t, id)
  }

  lemma BareIff(t: Tables, sid: Id, id: Id)
    requires id in t.txns
    ensures id in TxnsOf(t, sid) && !IsRetained(WithoutEvidence(t, sid), id) <==> IsLeftBare(t, sid, id)
  {
    var t1 := WithoutEvidence(t, sid);
    BookedIff(t, id);
    FinancialIsUntouched(t, t1, id);
    assert IsSurvivor(t1, id) <==> exists r :: r in t.repairs && t.repairs[r].survivorId == id;
    SourceLeftIff(t, sid, id);
    ConflictLeftIff(t, sid, id);
  }

  lemma SourceLeftIff(t: Tables, sid: Id, id: Id)
    ensures HasSource(WithoutEvidence(t, sid), id) <==> exists s :: s in t.sources && t.sources[s].txnId == id && t.sources[s].statementId != sid
  {
    var t1 := WithoutEvidence(t, sid);
    if s :| s in t.sources && t.sources[s].txnId == id && t.sources[s].statementId != sid { assert s in t1.sources; }
  }

  lemma ConflictLeftIff(t: Tables, sid: Id, id: Id)
    ensures HasConflict(WithoutEvidence(t, sid), id)
            <==> exists c :: c in t.conflicts && t.conflicts[c].canonicalId == id && !(t.conflicts[c].statementId == sid && t.conflicts[c].open)
  {
    var t1 := WithoutEvidence(t, sid);
    if c :| c in t.conflicts && t.conflicts[c].canonicalId == id && !(t.conflicts[c].statementId == sid && t.conflicts[c].open) {
      assert c in t1.conflicts;
    }
  }

  /** A detach removes exactly the rows it leaves bare. */
  lemma DetachedIff(t: Tables, sid: Id, id: Id)
    requires id in t.txns
    ensures id !in Detach(t, sid).txns <==> IsLeftBare(t, sid, id)
  {
    BareIff(t, sid, id);
  }

  ghost predicate Shows(t: Tables, seen: Seen, id: Id) {
    && id in t.txns && seen.status == t.txns[id].status
    && seen.activeMatches == |set m | m in t.matches && t.matches[m].txnId == id && t.matches[m].active|
    && seen.draftMatches == |set m | m in t.matches && t.matches[m].txnId == id && !t.matches[m].active|
    && (seen.settlementExpense.Some? <==> id in t.settlementUsage)
    && (seen.settlementExpense.Some? ==> seen.settlementExpense.value == t.settlementUsage[id])
    && (seen.advanceFunded <==> id in t.advances.Values)
  }

  /** Rows with the same money, of which the bank identified at most one, and a duplicate that
      nothing financial and no earlier repair refers to. */
  ghost predicate AreMergeable(t: Tables, s: Id, d: Id) {
    && s != d && s in t.txns && d in t.txns
    && SameMoney(t.txns[s].facts, t.txns[d].facts) && t.txns[s].accountId == t.txns[d].accountId
    && (s !in t.identityIndex.Values || d !in t.identityIndex.Values)
    && !IsBooked(t, d)
    && (forall r :: r in t.repairs ==> t.repairs[r].survivorId != d)
  }

  lemma IdentitiesMeet(t: Tables, s: Id, d: Id)
    requires TxnsOk(t) && s != d && s in t.txns && d in t.txns
    ensures IdentityCompatible(t.txns[s], t.txns[d]) <==> s !in t.identityIndex.Values || d !in t.identityIndex.Values
  {
    IdentifiedIff(t, s);
    IdentifiedIff(t, d);
    assert TxnOk(t, s) && TxnOk(t, d);
  }

  lemma IdentifiedIff(t: Tables, id: Id)
    requires TxnsOk(t) && id in t.txns
    ensures IdentityOf(t.txns[id]).Some? <==> id in t.identityIndex.Values
  {
    assert TxnOk(t, id);
    forall k | k in t.identityIndex ensures IdentityOf(t.txns[t.identityIndex[k]]) == Some(k) { assert IndexOk(t, k); }
  }

  lemma ShownIff(t: Tables, seen: Seen, id: Id)
    requires id in t.txns
    ensures SeenOf(t, id) == seen <==> Shows(t, seen, id)
  {}

  /** When a repair is carried out. */
  lemma MergedIff(t: Tables, a: RepairArgs)
    requires Valid(t)
    ensures RepairDecision(t, a).Repaired? && !RepairDecision(t, a).alreadyApplied
            <==> AreMergeable(t, a.survivorId, a.duplicateId) && Shows(t, a.survivor, a.survivorId) && Shows(t, a.duplicate, a.duplicateId)
  {
    var s, d := a.survivorId, a.duplicateId;
    RepairIdsAreSmall(t);
    if s != d && s in t.txns && d in t.txns {
      IdentitiesMeet(t, s, d);
      ShownIff(t, a.survivor, s);
      ShownIff(t, a.duplicate, d);
      BookedIff(t, d);
    }
  }

  /** What carrying it out changes: the duplicate is gone and found through its alias, and its
      evidence is the survivor's. */
  ghost predicate IsMerged(t: Tables, t': Tables, s: Id, d: Id, r: Id) {
    && t'.txns == t.txns - {d}
    && t'.aliases == t.aliases[d := Alias(s, r)] && t'.repairs == t.repairs[r := Repair(s, d)]
    && t'.sources.Keys == t.sources.Keys && t'.conflicts.Keys == t.conflicts.Keys
    && (forall x :: x in t.sources ==> t'.sources[x] == if t.sources[x].txnId == d then t.sources[x].(txnId := s) else t.sources[x])
    && (forall c :: c in t.conflicts ==>
          t'.conflicts[c] == if t.conflicts[c].canonicalId == d then t.conflicts[c].(canonicalId := s) else t.conflicts[c])
  }

  lemma MergeMerges(t: Tables, s: Id, d: Id)
    ensures IsMerged(t, Merge(t, s, d), s, d, t.nextRepair)
  {}

  /** The answer of a repair and its tables: merged, or reported again, or left alone. */
  ghost predicate IsRepairAnswer(t: Tables, t': Tables, a: RepairArgs, r: RepairResult) {
    && (r.Repaired? && !r.alreadyApplied
        <==> && AreMergeable(t, a.survivorId, a.duplicateId)
             && Shows(t, a.survivor, a.survivorId) && Shows(t, a.duplicate, a.duplicateId))
    && (r.Repaired? && r.alreadyApplied
        <==> && a.survivorId != a.duplicateId && a.survivorId in t.txns
             && a.duplicateId in t.aliases && t.aliases[a.duplicateId].canonicalId == a.survivorId)
    && (r.Repaired? && !r.alreadyApplied ==> IsMerged(t, t', a.survivorId, a.duplicateId, r.repairId))
    && (r.Refused? || r.alreadyApplied ==> t' == t)
  }

  lemma RepairAnswers(t: Tables, a: RepairArgs)
    requires Valid(t)
    ensures IsRepairAnswer(t, ApplyRepair(t, a), a, RepairDecision(t, a))
  {
    MergedIff(t, a);
    AppliedIff(t, a);
    MergeMerges(t, a.survivorId, a.duplicateId);
  }

  lemma AppliedIff(t: Tables, a: RepairArgs)
    ensures RepairDecision(t, a).Repaired? && RepairDecision(t, a).alreadyApplied
            <==> && a.survivorId != a.duplicateId && a.survivorId in t.txns
                 && a.duplicateId in t.aliases && t.aliases[a.duplicateId].canonicalId == a.survivorId
  {}

  /** What a detach leaves of the rows, the evidence and the reviews. */
  ghost predicate IsDetached(t: Tables, t': Tables, sid: Id) {
    && (forall id :: id in t.txns ==> (id !in t'.txns <==> IsLeftBare(t, sid, id)))
    && t'.txns.Keys <= t.txns.Keys
    && t'.sources.Keys == (set s | s in t.sources && t.sources[s].statementId != sid)
    && t'.conflicts.Keys == (set c | c in t.conflicts && !(t.conflicts[c].statementId == sid && t.conflicts[c].open))
    && t'.statements == t.statements - {sid}
  }

  lemma DetachDetaches(t: Tables, sid: Id)
    ensures IsDetached(t, Detach(t, sid), sid)
  {
    forall id | id in t.txns ensures id !in Detach(t, sid).txns <==> IsLeftBare(t, sid, id) { DetachedIff(t, sid, id); }
  }
}
