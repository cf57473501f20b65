/** What a duplicate repair moves, and what it leaves for ever after
    (`bank-duplicate-repair.service.ts`). */
module JournalRepair {
  import opened JournalModel
  import opened JournalSafety

  function SourcesOfTxn(t: Tables, id: Id): set<Id> {
    set x | x in t.sources && t.sources[x].txnId == id
  }

  function ConflictsOfTxn(t: Tables, id: Id): set<Id> {
    set c | c in t.conflicts && t.conflicts[c].canonicalId == id
  }

  /** A merge moves every source and every conflict of the duplicate to the survivor: none is
      lost, none is invented, and nothing else about them changes. */
  lemma MergeMovesTheEvidence(t: Tables, s: Id, d: Id)
    requires s != d
    ensures Merge(t, s, d).sources.Keys == t.sources.Keys && Merge(t, s, d).conflicts.Keys == t.conflicts.Keys
    ensures SourcesOfTxn(Merge(t, s, d), s) == SourcesOfTxn(t, s) + SourcesOfTxn(t, d)
    ensures SourcesOfTxn(Merge(t, s, d), d) == {}
    ensures ConflictsOfTxn(Merge(t, s, d), s) == ConflictsOfTxn(t, s) + ConflictsOfTxn(t, d)
    ensures ConflictsOfTxn(Merge(t, s, d), d) == {}
    ensures forall x :: x in t.sources ==> Merge(t, s, d).sources[x].(txnId := 0) == t.sources[x].(txnId := 0)
    ensures forall c :: c in t.conflicts ==> Merge(t, s, d).conflicts[c].(canonicalId := 0) == t.conflicts[c].(canonicalId := 0)
  {}

  lemma MergeConservesSources(t: Tables, s: Id, d: Id)
    requires s != d
    ensures |Merge(t, s, d).sources| == |t.sources| && |Merge(t, s, d).conflicts| == |t.conflicts|
    ensures |SourcesOfTxn(Merge(t, s, d), s)| == |SourcesOfTxn(t, s)| + |SourcesOfTxn(t, d)|
  {
    MergeMovesTheEvidence(t, s, d);
    var t' := Merge(t, s, d);
    assert |t'.sources.Keys| == |t'.sources| && |t.sources.Keys| == |t.sources|;
    assert |t'.conflicts.Keys| == |t'.conflicts| && |t.conflicts.Keys| == |t.conflicts|;
    assert SourcesOfTxn(t, s) !! SourcesOfTxn(t, d);
  }

  /** A repair that is carried out conserves the provenance rows: as many as before in all, and
      the survivor has its own plus exactly the number the repair reports. */
  lemma RepairConservesSources(t: Tables, a: RepairArgs)
    requires RepairDecision(t, a).Repaired? && !RepairDecision(t, a).alreadyApplied
    ensures |ApplyRepair(t, a).sources| == |t.sources|
    ensures |ApplyRepair(t, a).conflicts| == |t.conflicts|
    ensures |SourcesOfTxn(ApplyRepair(t, a), a.survivorId)|
         == |SourcesOfTxn(t, a.survivorId)| + RepairDecision(t, a).repointedSources
  {
    var s, d := a.survivorId, a.duplicateId;
    assert ApplyRepair(t, a) == Merge(t, s, d);
    RepairReportsItsSources(t, a);
    MergeConservesSources(t, s, d);
  }

  lemma RepairReportsItsSources(t: Tables, a: RepairArgs)
    requires RepairDecision(t, a).Repaired? && !RepairDecision(t, a).alreadyApplied
    ensures a.survivorId != a.duplicateId
    ensures RepairDecision(t, a).repointedSources == |SourcesOfTxn(t, a.duplicateId)|
  {
    assert SourcesOfTxn(t, a.duplicateId) == set x | x in t.sources && t.sources[x].txnId == a.duplicateId;
  }

  // ---------- repairs are never undone ----------

  /** A recorded repair stays recorded. */
  ghost predicate KeepsRepairs(t: Tables, t': Tables) {
    && (forall a :: a in t.aliases ==> a in t'.aliases && t'.aliases[a] == t.aliases[a])
    && (forall r :: r in t.repairs ==> r in t'.repairs && t'.repairs[r] == t.repairs[r])
  }

  lemma SameRepairsAreKept(t: Tables, t': Tables)
    requires t'.repairs == t.repairs && t'.aliases == t.aliases
    ensures KeepsRepairs(t, t')
  {}

  lemma MergeKeepsRepairs(t: Tables, s: Id, d: Id)
    requires RepairsOk(t) && d in t.txns
    ensures KeepsRepairs(t, Merge(t, s, d))
  {
    RepairIdsAreSmall(t);
  }

  lemma RepairKeepsRepairs(t: Tables, a: RepairArgs)
    requires Valid(t)
    ensures KeepsRepairs(t, ApplyRepair(t, a))
  {
    var r := RepairDecision(t, a);
    if r.Repaired? && !r.alreadyApplied { MergeKeepsRepairs(t, a.survivorId, a.duplicateId); }
  }

  lemma ImportKeepsRepairs(first: First, t: Tables, i: StatementInput)
    requires Valid(t)
    ensures KeepsRepairs(t, Perform(first, t, DoImport(i)))
  {
    if !IsReplay(t, i) { ImportKeeps(first, t, i); }
    SameRepairsAreKept(t, Perform(first, t, DoImport(i)));
  }

  lemma DetachKeepsRepairs(first: First, t: Tables, sid: Id)
    ensures KeepsRepairs(t, Perform(first, t, DoDetach(sid)))
  {
    PerformDetach(first, t, sid);
    SameRepairsAreKept(t, Detach(t, sid));
  }

  lemma ReviewKeepsRepairs(first: First, t: Tables, op: Operation)
    requires op.ResolveConflict? || op.Dispose? || op.Reconcile?
    ensures KeepsRepairs(t, Perform(first, t, op))
  {}

  lemma RepairStepKeepsRepairs(first: First, t: Tables, a: RepairArgs)
    requires Valid(t)
    ensures KeepsRepairs(t, Perform(first, t, DoRepair(a)))
  {
    PerformRepair(first, t, a);
    RepairKeepsRepairs(t, a);
  }

  lemma StepKeepsRepairs(first: First, t: Tables, op: Operation)
    requires Valid(t)
    ensures KeepsRepairs(t, Perform(first, t, op))
  {
    match op
    case DoImport(i) => ImportKeepsRepairs(first, t, i);
    case DoRepair(a) => RepairStepKeepsRepairs(first, t, a);
    case DoDetach(s) => DetachKeepsRepairs(first, t, s);
    case _ => ReviewKeepsRepairs(first, t, op);
  }

  lemma {:induction false} RunKeepsRepairs(first: First, t: Tables, ops: seq<Operation>)
    requires Valid(t)
    ensures Valid(PerformAll(first, t, ops)) && KeepsRepairs(t, PerformAll(first, t, ops))
    decreases |ops|
  {
    RunIsSafe(first, t, ops);
    if ops != [] {
      var mid := PerformAll(first, t, ops[..|ops| - 1]);
      RunKeepsRepairs(first, t, ops[..|ops| - 1]);
      StepKeepsRepairs(first, mid, ops[|ops| - 1]);
    }
  }

  lemma AppliedIsAliased(t: Tables, a: RepairArgs)
    requires RepairDecision(t, a).Repaired?
    ensures a.survivorId != a.duplicateId
    ensures a.duplicateId in ApplyRepair(t, a).aliases
    ensures ApplyRepair(t, a).aliases[a.duplicateId] == Alias(a.survivorId, RepairDecision(t, a).repairId)
  {}

  /** A repair that succeeded once succeeds again after any run, whatever its preview says by
      then: it changes nothing and reports the repair that was recorded. */
  lemma RepeatedRepairChangesNothing(first: First, t: Tables, a: RepairArgs, ops: seq<Operation>, again: RepairArgs)
    requires Valid(t) && RepairDecision(t, a).Repaired?
    requires again.survivorId == a.survivorId && again.duplicateId == a.duplicateId
    ensures var t' := PerformAll(first, ApplyRepair(t, a), ops);
            && RepairDecision(t', again) == Repaired(RepairDecision(t, a).repairId, 0, 0, true)
            && ApplyRepair(t', again) == t'
  {
    RepairKeeps(t, a);
    AppliedIsAliased(t, a);
    RunKeepsRepairs(first, ApplyRepair(t, a), ops);
    assert AliasOk(PerformAll(first, ApplyRepair(t, a), ops), a.duplicateId);
  }

  lemma SurvivorIsRefused(t: Tables, a: RepairArgs)
    requires a.duplicateId !in t.aliases && IsSurvivor(t, a.duplicateId)
    ensures RepairDecision(t, a).Refused?
  {}

  /** A row that was ever a survivor is never merged away: the database holds the audit row of
      the earlier repair against it, in every later state. */
  lemma SurvivorsAreNeverMerged(first: First, t: Tables, ops: seq<Operation>, r: Id, a: RepairArgs)
    requires Valid(t) && r in t.repairs && a.duplicateId == t.repairs[r].survivorId
    ensures RepairDecision(PerformAll(first, t, ops), a).Refused?
    ensures ApplyRepair(PerformAll(first, t, ops), a) == PerformAll(first, t, ops)
  {
    RunKeepsRepairs(first, t, ops);
    var t' := PerformAll(first, t, ops);
    assert RepairOk(t', r) && IsSurvivor(t', a.duplicateId);
    RepairIdsAreSmall(t');
    SurvivorIsRefused(t', a);
  }
}
