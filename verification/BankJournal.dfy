/** The journal as its services change it, table by table and row by row
    (`bank-statement.service.ts`, `bank-transaction.repository.ts`,
    `bank-duplicate-repair.service.ts`); each method is proved to do what the journal model
    says. */
module BankJournal {
  import opened JournalModel
  import opened JournalSafety
  import opened JournalRoundTrip
  import opened JournalReplay
  import opened JournalRepair
  import opened JournalEvidence
  import opened Wrappers

  datatype Account = Account(id: Id, isAsset: bool, code: string)

  datatype CreateError = AccountNotFound | NotABankAccount

  datatype Created =
    | Rejected(why: CreateError)
    | FirstImport(statementId: Id, summary: Summary)
    | Replayed(statementId: Id, report: Report)

  predicate IsBankAccount(a: Account) { a.isAsset && "BANK_" <= a.code }

  datatype Deleted = StatementNotFound | StatementDeleted(retained: set<Id>)

  // ---------- deleting the movements one by one ----------

  lemma SettleNone(w: Tables, sid: Id)
    ensures SettleAll(w, sid, {}, {}) == w
  {}

  /** Settling one movement leaves the others as they are. */
  lemma SettleLeavesOthers(w: Tables, sid: Id, done: set<Id>, kept: set<Id>, id: Id)
    requires id in w.txns && id !in done
    ensures id in SettleAll(w, sid, done, kept).txns && SettleAll(w, sid, done, kept).txns[id] == w.txns[id]
  {}

  lemma SettleOneMoreRow(w: Tables, sid: Id, done: set<Id>, kept: set<Id>, id: Id, keep: bool)
    requires id in w.txns && id !in done && kept <= done && id in SettleAll(w, sid, done, kept).txns
    ensures SettleTxn(SettleAll(w, sid, done, kept), sid, id, keep).txns
         == SettleAll(w, sid, done + {id}, if keep then kept + {id} else kept).txns
  {}

  lemma SettleOneMoreKey(w: Tables, sid: Id, done: set<Id>, kept: set<Id>, id: Id, keep: bool)
    requires id in w.txns && id !in done && kept <= done && id in SettleAll(w, sid, done, kept).txns
    ensures SettleTxn(SettleAll(w, sid, done, kept), sid, id, keep).identityIndex
         == SettleAll(w, sid, done + {id}, if keep then kept + {id} else kept).identityIndex
  {}

  lemma SettleOneMore(w: Tables, sid: Id, done: set<Id>, kept: set<Id>, id: Id, keep: bool)
    requires id in w.txns && id !in done && kept <= done && id in SettleAll(w, sid, done, kept).txns
    ensures SettleTxn(SettleAll(w, sid, done, kept), sid, id, keep)
         == SettleAll(w, sid, done + {id}, if keep then kept + {id} else kept)
  {
    SettleOneMoreRow(w, sid, done, kept, id, keep);
    SettleOneMoreKey(w, sid, done, kept, id, keep);
  }

  /** Whether a movement is kept does not depend on what became of the others. */
  lemma RetentionIsIndependent(w: Tables, sid: Id, done: set<Id>, kept: set<Id>, id: Id)
    requires id in w.txns && id !in done
    ensures IsRetained(SettleAll(w, sid, done, kept), id) <==> IsRetained(w, id)
  {
    var d := SettleAll(w, sid, done, kept);
    SettleLeavesOthers(w, sid, done, kept, id);
    assert HasFinancialReferences(d, id) <==> HasFinancialReferences(w, id);
  }

  class Journal {
    var statements: map<Id, Statement>
    var contentIndex: map<ContentKey, Id>
    var txns: map<Id, Txn>
    var identityIndex: map<Identity, Id>
    var sources: map<Id, Source>
    var conflicts: map<Id, Conflict>
    var repairs: map<Id, Repair>
    var aliases: map<Id, Alias>
    var matches: map<Id, Match>
    var settlementUsage: map<Id, Id>
    var advances: map<Id, Id>
    var nextStatement: Id
    var nextTxn: Id
    var nextSource: Id
    var nextConflict: Id
    var nextRepair: Id

    function Contents(): Tables
      reads this
    {
      Tables(statements, contentIndex, txns, identityIndex, sources, conflicts, repairs, aliases,
             matches, settlementUsage, advances, nextStatement, nextTxn, nextSource, nextConflict, nextRepair)
    }

    constructor ()
      ensures Valid(Contents()) && Agrees(Contents(), true)
      ensures Contents() == Tables(map[], map[], map[], map[], map[], map[], map[], map[], map[], map[], map[], 1, 1, 1, 1, 1)
    {
      statements, contentIndex, txns, identityIndex := map[], map[], map[], map[];
      sources, conflicts, repairs, aliases := map[], map[], map[], map[];
      matches, settlementUsage, advances := map[], map[], map[];
      nextStatement, nextTxn, nextSource, nextConflict, nextRepair := 1, 1, 1, 1, 1;
    }

    // ---------- the repository ----------

    /** A removed duplicate's id finds its survivor. */
    method FindById(id: Id) returns (r: Option<Txn>)
      ensures r == if Resolve(Contents(), id) in txns then Some(txns[Resolve(Contents(), id)]) else None
      ensures Valid(Contents()) && (id in aliases || id in txns) ==> r.Some?
    {
      var resolved := id;
      if id in aliases { resolved := aliases[id].canonicalId; }
      if resolved in txns { r := Some(txns[resolved]); } else { r := None; }
      assert Valid(Contents()) && id in aliases ==> AliasOk(Contents(), id);
    }

    method InsertStatement(i: StatementInput) returns (id: Id)
      modifies `statements, `contentIndex, `nextStatement
      ensures Contents() == AddStatement(old(Contents()), i) && id == old(nextStatement)
    {
      id := nextStatement;
      var key := ContentKeyOf(i);
      statements := statements[id := Statement(i.accountId, i.provider, i.accountRef, key)];
      if key.Some? { contentIndex := contentIndex[key.value := id]; }
      nextStatement := nextStatement + 1;
    }

    method InsertCanonical(x: Txn) returns (id: Id)
      modifies `txns, `identityIndex, `nextTxn
      ensures Contents() == AddTxn(old(Contents()), x) && id == old(nextTxn)
    {
      id := nextTxn;
      txns := txns[id := x];
      var k := IdentityOf(x);
      if k.Some? { identityIndex := identityIndex[k.value := id]; }
      nextTxn := nextTxn + 1;
    }

    method InsertSource(s: Source)
      modifies `sources, `nextSource
      ensures Contents() == AddSource(old(Contents()), s)
    {
      sources := sources[nextSource := s];
      nextSource := nextSource + 1;
    }

    method InsertConflict(c: Conflict) returns (id: Id)
      modifies `conflicts, `nextConflict
      ensures Contents() == AddConflict(old(Contents()), c) && id == old(nextConflict)
    {
      id := nextConflict;
      conflicts := conflicts[id := c];
      nextConflict := nextConflict + 1;
    }

    // ---------- import ----------

    method KnownRow(c: Context, n: nat, row: Incoming, s: Summary, id: Id) returns (s': Summary)
      requires id in txns
      modifies `sources, `nextSource, `conflicts, `nextConflict
      ensures Imported(Contents(), s') == ImportKnown(old(Contents()), c, n, row, s, id)
      ensures SameMoney(txns[id].facts, row.facts) && SameSettlement(txns[id].facts, row.facts) ==>
                && conflicts == old(conflicts)
                && sources == old(sources)[old(nextSource) := Source(id, c.statementId, Some(n), row.externalId, Some(row.facts))]
                && s' == s.(knownIds := s.knownIds + [id])
      ensures !(SameMoney(txns[id].facts, row.facts) && SameSettlement(txns[id].facts, row.facts)) ==>
                && sources == old(sources) && s' == s.(conflictIds := s.conflictIds + [old(nextConflict)])
                && old(nextConflict) in conflicts
                && var kind := conflicts[old(nextConflict)].kind;
                   && Explains(kind, txns[id].facts, row.facts, true) && kind != AmbiguousOverlap
                   && conflicts == old(conflicts)[old(nextConflict) :=
                        Conflict(c.accountId, row.externalId, id, c.statementId, n, kind, row.facts, true)]
    {
      ConflictIff(txns[id].facts, row.facts);
      var kind := MaterialFactConflict(txns[id].facts, row.facts);
      if kind.Some? {
        var cid := InsertConflict(Conflict(c.accountId, row.externalId, id, c.statementId, n, kind.value, row.facts, true));
        s' := s.(conflictIds := s.conflictIds + [cid]);
      } else {
        InsertSource(Source(id, c.statementId, Some(n), row.externalId, Some(row.facts)));
        s' := s.(knownIds := s.knownIds + [id]);
      }
    }

    method NewRow(first: First, c: Context, n: nat, row: Incoming, s: Summary) returns (s': Summary)
      modifies `txns, `identityIndex, `nextTxn, `sources, `nextSource, `conflicts, `nextConflict
      ensures Imported(Contents(), s') == ImportNew(first, old(Contents()), c, n, row, s)
    {
      var id := InsertCanonical(NewTxn(c, row));
      InsertSource(Source(id, c.statementId, Some(n), row.externalId, Some(row.facts)));
      s' := s.(newIds := s.newIds + [id]);
      if row.externalId.None? {
        var twins := Twins(Contents(), c, row.facts);
        if twins != {} {
          var cid := InsertConflict(Conflict(c.accountId, None, first(twins), c.statementId, n, AmbiguousOverlap, row.facts, true));
          s' := s'.(conflictIds := s'.conflictIds + [cid]);
        }
      }
    }

    method OneRow(first: First, c: Context, n: nat, row: Incoming, s: Summary) returns (s': Summary)
      modifies `txns, `identityIndex, `nextTxn, `sources, `nextSource, `conflicts, `nextConflict
      ensures Imported(Contents(), s') == ImportRow(first, old(Contents()), c, n, row, s)
    {
      var existing := Existing(Contents(), c, row);
      if existing.Some? && existing.value in txns {
        s' := KnownRow(c, n, row, s, existing.value);
      } else {
        s' := NewRow(first, c, n, row, s);
      }
    }

    method AllRows(first: First, c: Context, rows: seq<Incoming>) returns (s: Summary)
      modifies `txns, `identityIndex, `nextTxn, `sources, `nextSource, `conflicts, `nextConflict
      ensures Imported(Contents(), s) == ImportRows(first, old(Contents()), c, rows)
    {
      s := Summary([], [], []);
      for n := 0 to |rows|
        invariant Imported(Contents(), s) == ImportRows(first, old(Contents()), c, rows[..n])
      {
        assert rows[..n + 1][..n] == rows[..n];
        s := OneRow(first, c, n + 1, rows[n], s);
      }
      assert rows[..|rows|] == rows;
    }

    /** A statement is refused, recognised, or imported; only the last changes the journal. */
    method CreateStatement(first: First, account: Option<Account>, i: StatementInput) returns (r: Created)
      requires Valid(Contents())
      requires account.Some? ==> i.accountId == account.value.id
      modifies this
      ensures Valid(Contents()) && Grows(old(Contents()), Contents())
      ensures r == Rejected(AccountNotFound) <==> account.None?
      ensures r == Rejected(NotABankAccount) <==> account.Some? && !IsBankAccount(account.value)
      ensures r.Rejected? || r.Replayed? ==> Contents() == old(Contents())
      ensures forall exact :: Agrees(old(Contents()), exact) ==> Agrees(Contents(), exact)
      ensures r.Replayed? ==>
                IsReplay(Contents(), i) && r.statementId == contentIndex[ContentKeyOf(i).value]
                && r.report == ReplayReport(Contents(), r.statementId)
      ensures r.FirstImport? ==>
                !IsReplay(old(Contents()), i) && r.statementId == old(nextStatement)
                && Imported(Contents(), r.summary) == Import(first, old(Contents()), i)
                && Tallies(Imported(Contents(), r.summary), r.statementId, |i.rows|)
    {
      if account.None? { return Rejected(AccountNotFound); }
      if !IsBankAccount(account.value) { return Rejected(NotABankAccount); }
      var key := ContentKeyOf(i);
      if key.Some? && key.value in contentIndex {
        var sid := contentIndex[key.value];
        return Replayed(sid, ReplayReport(Contents(), sid));
      }
      ImportKeeps(first, Contents(), i);
      ImportAccountsForEveryRow(first, Contents(), i);
      forall exact | Agrees(Contents(), exact) ensures Agrees(Import(first, Contents(), i).tables, exact) {
        ImportAgrees(first, Contents(), i, exact);
      }
      var id := InsertStatement(i);
      var s := AllRows(first, Context(id, i.accountId, i.provider, i.accountRef), i.rows);
      r := FirstImport(id, s);
    }

    // ---------- detach ----------

    method RemoveMovement(id: Id)
      modifies `txns, `identityIndex
      ensures Contents() == RemoveTxn(old(Contents()), id)
    {
      txns := txns - {id};
      identityIndex := map k | k in identityIndex && identityIndex[k] != id :: identityIndex[k];
    }

    /** One movement of a statement being deleted. */
    method SettleMovement(sid: Id, id: Id, kept: bool)
      requires id in txns
      modifies `txns, `identityIndex
      ensures Contents() == SettleTxn(old(Contents()), sid, id, kept)
    {
      if !kept {
        RemoveMovement(id);
      } else if txns[id].statementId == Some(sid) {
        txns := txns[id := txns[id].(statementId := None)];
      }
    }

    /** The movements of a deleted statement, one by one, in whatever order. */
    method DetachMovements(sid: Id, ids: set<Id>) returns (retained: set<Id>)
      requires ids <= txns.Keys
      modifies `txns, `identityIndex
      ensures Contents() == DetachAll(old(Contents()), sid, ids)
      ensures retained == Retained(old(Contents()), ids)
    {
      var rest := ids;
      retained := {};
      ghost var w := Contents();
      SettleNone(w, sid);
      while rest != {}
        invariant rest <= ids && ids <= w.txns.Keys
        invariant retained == Retained(w, ids - rest)
        invariant Contents() == SettleAll(w, sid, ids - rest, retained)
        decreases |rest|
      {
        var id :| id in rest;
        RetentionIsIndependent(w, sid, ids - rest, retained, id);
        SettleLeavesOthers(w, sid, ids - rest, retained, id);
        var kept := IsRetained(Contents(), id);
        SettleOneMore(w, sid, ids - rest, retained, id, kept);
        SettleMovement(sid, id, kept);
        RetainedOneMore(w, ids - rest, id);
        if kept { retained := retained + {id}; }
        assert ids - (rest - {id}) == (ids - rest) + {id};
        rest := rest - {id};
      }
      assert ids - rest == ids;
    }

    method DeleteEvidence(sid: Id)
      modifies `sources, `conflicts
      ensures Contents() == WithoutEvidence(old(Contents()), sid)
    {
      sources := map s | s in sources && sources[s].statementId != sid :: sources[s];
      conflicts := map c | c in conflicts && !(conflicts[c].statementId == sid && conflicts[c].open) :: conflicts[c];
    }

    method DeleteStatementRow(sid: Id)
      modifies `statements, `contentIndex
      ensures Contents() == RemoveStatement(old(Contents()), sid)
    {
      statements := statements - {sid};
      contentIndex := map k | k in contentIndex && contentIndex[k] != sid :: contentIndex[k];
    }

    /** Deletes a statement: the movements it alone evidenced, and that nothing protects, go. */
    method DeleteStatement(sid: Id) returns (r: Deleted)
      requires Valid(Contents())
      modifies this
      ensures Valid(Contents()) && Preserves(old(Contents()), Contents())
      ensures r.StatementNotFound? <==> sid !in old(statements)
      ensures r.StatementNotFound? ==> Contents() == old(Contents())
      ensures r.StatementDeleted? ==>
                Contents() == Detach(old(Contents()), sid)
                && r.retained == TxnsOf(old(Contents()), sid) * txns.Keys
      ensures r.StatementDeleted? ==> IsDetached(old(Contents()), Contents(), sid)
    {
      if sid !in statements { return StatementNotFound; }
      ghost var t := Contents();
      DetachedIdsAreLive(t, sid);
      RetainedAreLive(t, sid);
      var ids := TxnsOf(Contents(), sid);
      DeleteEvidence(sid);
      var retained := DetachMovements(sid, ids);
      DeleteStatementRow(sid);
      assert Contents() == Detach(t, sid);
      DetachKeeps(t, sid);
      DetachDetaches(t, sid);
      r := StatementDeleted(retained);
    }

    // ---------- review and repair ----------

    /** Resolving again is a no-op; resolving an unknown conflict is refused. */
    method ResolveConflict(id: Id) returns (found: bool)
      requires Valid(Contents())
      modifies `conflicts
      ensures Valid(Contents()) && Contents() == CloseConflict(old(Contents()), id)
      ensures found <==> id in conflicts
      ensures conflicts.Keys == old(conflicts).Keys
      ensures forall c :: c in conflicts ==> conflicts[c] == if c == id then old(conflicts)[c].(open := false) else old(conflicts)[c]
    {
      ghost var t := Contents();
      found := id in conflicts;
      if found && conflicts[id].open {
        conflicts := conflicts[id := conflicts[id].(open := false)];
      } else if found {
        assert conflicts == conflicts[id := conflicts[id].(open := false)];
      }
      assert Contents() == CloseConflict(t, id);
      ConflictClosed(t, id);
    }

    method InsertRepair(s: Id, d: Id)
      modifies `repairs, `nextRepair, `aliases
      ensures Contents() == RecordRepair(old(Contents()), s, d)
    {
      repairs := repairs[nextRepair := Repair(s, d)];
      aliases := aliases[d := Alias(s, nextRepair)];
      nextRepair := nextRepair + 1;
    }

    method RepointEvidence(s: Id, d: Id)
      modifies `sources, `conflicts
      ensures Contents() == Repoint(old(Contents()), s, d)
    {
      sources := map x | x in sources :: if sources[x].txnId == d then sources[x].(txnId := s) else sources[x];
      conflicts := map c | c in conflicts :: if conflicts[c].canonicalId == d then conflicts[c].(canonicalId := s) else conflicts[c];
    }

    /** Merges a duplicate into a survivor, or says why not. */
    method MergeDuplicate(a: RepairArgs) returns (r: RepairResult)
      requires Valid(Contents())
      modifies this
      ensures Valid(Contents()) && Preserves(old(Contents()), Contents())
      ensures r == RepairDecision(old(Contents()), a)
      ensures Contents() == ApplyRepair(old(Contents()), a)
      ensures IsRepairAnswer(old(Contents()), Contents(), a, r)
    {
      ghost var t := Contents();
      r := RepairDecision(Contents(), a);
      if r.Repaired? && !r.alreadyApplied {
        InsertRepair(a.survivorId, a.duplicateId);
        RepointEvidence(a.survivorId, a.duplicateId);
        RemoveMovement(a.duplicateId);
      }
      assert Contents() == ApplyRepair(t, a);
      RepairKeeps(t, a);
      RepairAnswers(t, a);
    }
  }

  lemma RetainedOneMore(w: Tables, ids: set<Id>, id: Id)
    ensures Retained(w, ids + {id}) == if IsRetained(w, id) then Retained(w, ids) + {id} else Retained(w, ids)
  {}

  lemma DetachedIdsAreLive(t: Tables, sid: Id)
    requires Valid(t)
    ensures TxnsOf(t, sid) <= t.txns.Keys
  {
    forall s | s in t.sources ensures t.sources[s].txnId in t.txns { assert SourceOk(t, s); }
  }

  lemma RetainedAreLive(t: Tables, sid: Id)
    requires Valid(t)
    ensures Retained(WithoutEvidence(t, sid), TxnsOf(t, sid)) == TxnsOf(t, sid) * Detach(t, sid).txns.Keys
  {
    DetachedIdsAreLive(t, sid);
  }
}
