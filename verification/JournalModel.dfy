/** The canonical bank journal: its tables, and what one import, one detach and one duplicate
    repair do to them (`bank-statement.service.ts`, `bank-transaction.repository.ts`,
    `bank-duplicate-repair.service.ts`, with the keys and foreign keys of migration 087).

    A transaction of the database is one step. A unique index is a map from its key. */
module JournalModel {
  import opened Wrappers

  type Id = nat

  // ---------- rows ----------

  /** The facts a bank prints about one movement. */
  datatype Facts = Facts(
    transactionDate: string, bookingDate: Option<string>,
    amount: int, currency: string,
    sourceAmount: Option<int>, sourceCurrency: Option<string>,
    fxRate: Option<real>, conversionFee: Option<int>,
    counterpartyIban: Option<string>,
    wording: string)

  datatype Status = Open | Prepayment | Personal | BankFee | Dividend

  /** One row of an incoming statement. */
  datatype Incoming = Incoming(externalId: Option<string>, facts: Facts, status: Option<Status>, fxRateDecimals: Option<nat>)

  /** The bank's own identity of a movement; all three parts are known. */
  datatype Identity = Identity(provider: string, accountRef: string, externalId: string)

  datatype Txn = Txn(
    statementId: Option<Id>, accountId: Id,
    provider: Option<string>, accountRef: Option<string>, externalId: Option<string>,
    facts: Facts, status: Status)

  datatype Source = Source(txnId: Id, statementId: Id, rowNumber: Option<nat>, externalId: Option<string>, facts: Option<Facts>)

  datatype ConflictKind = AmountMismatch | CurrencyMismatch | FactMismatch | AmbiguousOverlap

  datatype Conflict = Conflict(
    accountId: Id, externalId: Option<string>, canonicalId: Id,
    statementId: Id, rowNumber: nat, kind: ConflictKind, incoming: Facts, open: bool)

  /** What the replay hash is computed from; SHA-256 and JSON keep it apart from any other. */
  datatype ContentKey =
    | RawSource(accountId: Id, fingerprint: string)
    | Structured(accountId: Id, provider: Option<string>, accountRef: Option<string>,
                 rows: multiset<(Option<string>, Facts, Option<Status>)>)

  datatype Statement = Statement(accountId: Id, provider: Option<string>, accountRef: Option<string>, contentKey: Option<ContentKey>)

  datatype Repair = Repair(survivorId: Id, duplicateId: Id)

  datatype Alias = Alias(canonicalId: Id, repairId: Id)

  /** A reconciliation match is a draft or active. */
  datatype Match = Match(txnId: Id, active: bool)

  datatype Tables = Tables(
    statements: map<Id, Statement>,
    contentIndex: map<ContentKey, Id>,
    txns: map<Id, Txn>,
    identityIndex: map<Identity, Id>,
    sources: map<Id, Source>,
    conflicts: map<Id, Conflict>,
    repairs: map<Id, Repair>,
    aliases: map<Id, Alias>,
    matches: map<Id, Match>,
    settlementUsage: map<Id, Id>,
    advances: map<Id, Id>,
    nextStatement: Id, nextTxn: Id, nextSource: Id, nextConflict: Id, nextRepair: Id)

  function FullIdentity(provider: Option<string>, accountRef: Option<string>, externalId: Option<string>): Option<Identity> {
    if provider.Some? && accountRef.Some? && externalId.Some?
    then Some(Identity(provider.value, accountRef.value, externalId.value))
    else None
  }

  function IdentityOf(x: Txn): Option<Identity> {
    FullIdentity(x.provider, x.accountRef, x.externalId)
  }

  // ---------- import ----------

  /** The statement an import writes: its id, and what its rows inherit from it. */
  datatype Context = Context(statementId: Id, accountId: Id, provider: Option<string>, accountRef: Option<string>)

  datatype Summary = Summary(newIds: seq<Id>, knownIds: seq<Id>, conflictIds: seq<Id>)

  /** A query that takes the first row it meets takes some row. */
  type First = s: set<Id> -> Id | forall ids: set<Id> :: ids != {} ==> s(ids) in ids
    ghost witness ids => if ids == {} then 0 else var id :| id in ids; id

  function Dates(f: Facts): set<string> {
    {f.transactionDate} + if f.bookingDate.Some? then {f.bookingDate.value} else {}
  }

  function MaterialFactConflict(canonical: Facts, incoming: Facts): Option<ConflictKind> {
    if canonical.amount != incoming.amount then Some(AmountMismatch)
    else if canonical.currency != incoming.currency then Some(CurrencyMismatch)
    else if || canonical.sourceAmount != incoming.sourceAmount
            || canonical.sourceCurrency != incoming.sourceCurrency
            || canonical.fxRate != incoming.fxRate
            || canonical.conversionFee != incoming.conversionFee
            || canonical.counterpartyIban != incoming.counterpartyIban then Some(FactMismatch)
    else if Dates(canonical) * Dates(incoming) == {} then Some(FactMismatch)
    else None
  }

  function AddSource(t: Tables, s: Source): Tables {
    t.(sources := t.sources[t.nextSource := s], nextSource := t.nextSource + 1)
  }

  function AddConflict(t: Tables, c: Conflict): Tables {
    t.(conflicts := t.conflicts[t.nextConflict := c], nextConflict := t.nextConflict + 1)
  }

  function AddTxn(t: Tables, x: Txn): Tables {
    t.(txns := t.txns[t.nextTxn := x],
       identityIndex := if IdentityOf(x).Some? then t.identityIndex[IdentityOf(x).value := t.nextTxn] else t.identityIndex,
       nextTxn := t.nextTxn + 1)
  }

  /** Canonical rows of other statements with the same account, date, amount and currency. A
      detached row has no statement, and SQL's `!=` is never true of NULL. */
  function Twins(t: Tables, c: Context, f: Facts): set<Id> {
    set id | id in t.txns
      && t.txns[id].accountId == c.accountId
      && t.txns[id].facts.transactionDate == f.transactionDate
      && t.txns[id].facts.amount == f.amount
      && t.txns[id].facts.currency == f.currency
      && t.txns[id].statementId.Some? && t.txns[id].statementId.value != c.statementId
  }

  /** The row already known under the identity of an incoming row. */
  function Existing(t: Tables, c: Context, row: Incoming): Option<Id> {
    var k := FullIdentity(c.provider, c.accountRef, row.externalId);
    if k.Some? && k.value in t.identityIndex then Some(t.identityIndex[k.value]) else None
  }

  function NewTxn(c: Context, row: Incoming): Txn {
    Txn(Some(c.statementId), c.accountId, c.provider, c.accountRef, row.externalId, row.facts,
        if row.status.Some? then row.status.value else Open)
  }

  datatype Imported = Imported(tables: Tables, summary: Summary)

  function RecordConflict(t: Tables, c: Context, n: nat, row: Incoming, s: Summary, id: Id, kind: ConflictKind): Imported {
    Imported(AddConflict(t, Conflict(c.accountId, row.externalId, id, c.statementId, n, kind, row.facts, true)),
             s.(conflictIds := s.conflictIds + [t.nextConflict]))
  }

  function RecordKnown(t: Tables, c: Context, n: nat, row: Incoming, s: Summary, id: Id): Imported {
    Imported(AddSource(t, Source(id, c.statementId, Some(n), row.externalId, Some(row.facts))),
             s.(knownIds := s.knownIds + [id]))
  }

  function RecordSeen(t: Tables, c: Context, n: nat, row: Incoming, s: Summary, id: Id, kind: Option<ConflictKind>): Imported {
    if kind.Some? then RecordConflict(t, c, n, row, s, id, kind.value) else RecordKnown(t, c, n, row, s, id)
  }

  function ImportKnown(t: Tables, c: Context, n: nat, row: Incoming, s: Summary, id: Id): Imported
    requires id in t.txns
  {
    RecordSeen(t, c, n, row, s, id, MaterialFactConflict(t.txns[id].facts, row.facts))
  }

  function ImportNew(first: First, t: Tables, c: Context, n: nat, row: Incoming, s: Summary): Imported {
    var t1 := AddTxn(t, NewTxn(c, row));
    var t2 := AddSource(t1, Source(t.nextTxn, c.statementId, Some(n), row.externalId, Some(row.facts)));
    var s2 := s.(newIds := s.newIds + [t.nextTxn]);
    var twins := Twins(t2, c, row.facts);
    if row.externalId.None? && twins != {} then
      Imported(AddConflict(t2, Conflict(c.accountId, None, first(twins), c.statementId, n, AmbiguousOverlap, row.facts, true)),
               s2.(conflictIds := s2.conflictIds + [t2.nextConflict]))
    else
      Imported(t2, s2)
  }

  function ImportRow(first: First, t: Tables, c: Context, n: nat, row: Incoming, s: Summary): Imported {
    var existing := Existing(t, c, row);
    if existing.Some? && existing.value in t.txns then ImportKnown(t, c, n, row, s, existing.value)
    else ImportNew(first, t, c, n, row, s)
  }

  /** Rows are numbered from one. */
  function ImportRows(first: First, t: Tables, c: Context, rows: seq<Incoming>): Imported {
    if rows == [] then Imported(t, Summary([], [], []))
    else
      var before := ImportRows(first, t, c, rows[..|rows| - 1]);
      ImportRow(first, before.tables, c, |rows|, rows[|rows| - 1], before.summary)
  }

  datatype StatementInput = StatementInput(
    accountId: Id, provider: Option<string>, accountRef: Option<string>,
    fingerprint: Option<string>, hasRawArchive: bool, rows: seq<Incoming>)

  function Projection(row: Incoming): (Option<string>, Facts, Option<Status>) {
    (row.externalId, row.facts, row.status)
  }

  function Projections(rows: seq<Incoming>): multiset<(Option<string>, Facts, Option<Status>)> {
    if rows == [] then multiset{} else multiset{Projection(rows[0])} + Projections(rows[1..])
  }

  /** Replay is claimed on a fingerprint, or on the rows when there is no raw archive. */
  function ContentKeyOf(i: StatementInput): Option<ContentKey> {
    if i.fingerprint.Some? then Some(RawSource(i.accountId, i.fingerprint.value))
    else if !i.hasRawArchive then Some(Structured(i.accountId, i.provider, i.accountRef, Projections(i.rows)))
    else None
  }

  predicate IsReplay(t: Tables, i: StatementInput) {
    ContentKeyOf(i).Some? && ContentKeyOf(i).value in t.contentIndex
  }

  function ContextOf(t: Tables, i: StatementInput): Context {
    Context(t.nextStatement, i.accountId, i.provider, i.accountRef)
  }

  function AddStatement(t: Tables, i: StatementInput): Tables {
    var key := ContentKeyOf(i);
    t.(statements := t.statements[t.nextStatement := Statement(i.accountId, i.provider, i.accountRef, key)],
       contentIndex := if key.Some? then t.contentIndex[key.value := t.nextStatement] else t.contentIndex,
       nextStatement := t.nextStatement + 1)
  }

  function Import(first: First, t: Tables, i: StatementInput): Imported
    requires !IsReplay(t, i)
  {
    ImportRows(first, AddStatement(t, i), ContextOf(t, i), i.rows)
  }

  /** The sources and the open conflicts of a statement, which a replay reports. */
  function SourcesOf(t: Tables, sid: Id): set<Id> {
    set s | s in t.sources && t.sources[s].statementId == sid
  }

  function OpenConflictsOf(t: Tables, sid: Id): set<Id> {
    set c | c in t.conflicts && t.conflicts[c].statementId == sid && t.conflicts[c].open
  }

  // ---------- detach ----------

  predicate IsMatched(t: Tables, id: Id) {
    exists m :: m in t.matches && t.matches[m].txnId == id
  }

  predicate IsAdvance(t: Tables, id: Id) {
    exists a :: a in t.advances && t.advances[a] == id
  }

  /** A disposition, a match, a settlement claim or an advance: financial history. */
  predicate HasFinancialReferences(t: Tables, id: Id) {
    || (id in t.txns && t.txns[id].status != Open)
    || IsMatched(t, id)
    || id in t.settlementUsage
    || IsAdvance(t, id)
  }

  predicate HasSource(t: Tables, id: Id) {
    exists s :: s in t.sources && t.sources[s].txnId == id
  }

  predicate HasConflict(t: Tables, id: Id) {
    exists c :: c in t.conflicts && t.conflicts[c].canonicalId == id
  }

  predicate IsSurvivor(t: Tables, id: Id) {
    exists r :: r in t.repairs && t.repairs[r].survivorId == id
  }

  /** What keeps a row when the last of its sources is detached. */
  predicate IsRetained(t: Tables, id: Id) {
    HasSource(t, id) || HasFinancialReferences(t, id) || HasConflict(t, id) || IsSurvivor(t, id)
  }

  function TxnsOf(t: Tables, sid: Id): set<Id> {
    set s | s in t.sources && t.sources[s].statementId == sid :: t.sources[s].txnId
  }

  /** The sources and the unresolved reviews of the statement are gone. */
  function WithoutEvidence(t: Tables, sid: Id): Tables {
    t.(sources := map s | s in t.sources && t.sources[s].statementId != sid :: t.sources[s],
       conflicts := map c | c in t.conflicts && !(t.conflicts[c].statementId == sid && t.conflicts[c].open) :: t.conflicts[c])
  }

  function RemoveTxn(t: Tables, id: Id): Tables {
    t.(txns := t.txns - {id},
       identityIndex := map k | k in t.identityIndex && t.identityIndex[k] != id :: t.identityIndex[k])
  }

  /** One movement of the detached statement: removed, or kept with its origin cleared. */
  function SettleTxn(t: Tables, sid: Id, id: Id, kept: bool): Tables
    requires id in t.txns
  {
    if !kept then RemoveTxn(t, id)
    else if t.txns[id].statementId == Some(sid) then t.(txns := t.txns[id := t.txns[id].(statementId := None)])
    else t
  }

  function RemoveStatement(t: Tables, sid: Id): Tables {
    t.(statements := t.statements - {sid},
       contentIndex := map k | k in t.contentIndex && t.contentIndex[k] != sid :: t.contentIndex[k])
  }

  /** The detached movements all at once. */
  function SettleAll(t: Tables, sid: Id, ids: set<Id>, kept: set<Id>): Tables {
    t.(txns := map id | id in t.txns && (id !in ids || id in kept) ::
                 if id in ids && t.txns[id].statementId == Some(sid) then t.txns[id].(statementId := None) else t.txns[id],
       identityIndex := map k | k in t.identityIndex && (t.identityIndex[k] !in ids || t.identityIndex[k] in kept) :: t.identityIndex[k])
  }

  function Retained(t: Tables, ids: set<Id>): set<Id> {
    set id | id in ids && IsRetained(t, id)
  }

  function DetachAll(t: Tables, sid: Id, ids: set<Id>): Tables {
    SettleAll(t, sid, ids, Retained(t, ids))
  }

  function Detach(t: Tables, sid: Id): Tables {
    RemoveStatement(DetachAll(WithoutEvidence(t, sid), sid, TxnsOf(t, sid)), sid)
  }

  // ---------- duplicate repair ----------

  /** What a preview showed of one row. */
  datatype Seen = Seen(status: Status, activeMatches: nat, draftMatches: nat, settlementExpense: Option<Id>, advanceFunded: bool)

  function SeenOf(t: Tables, id: Id): Seen
    requires id in t.txns
  {
    Seen(t.txns[id].status,
         |set m | m in t.matches && t.matches[m].txnId == id && t.matches[m].active|,
         |set m | m in t.matches && t.matches[m].txnId == id && !t.matches[m].active|,
         if id in t.settlementUsage then Some(t.settlementUsage[id]) else None,
         IsAdvance(t, id))
  }

  datatype RepairArgs = RepairArgs(survivorId: Id, duplicateId: Id, survivor: Seen, duplicate: Seen)

  datatype Refusal =
    | SameId | SurvivorNotFound | DuplicateNotFound | MergedElsewhere | ConflictingMoney
    | DistinctIdentities | StalePreview | DuplicateIsFinancial | StillReferenced

  datatype RepairResult =
    | Refused(why: Refusal)
    | Repaired(repairId: Id, repointedSources: nat, openAmountImpact: nat, alreadyApplied: bool)

  predicate IdentityCompatible(a: Txn, b: Txn) {
    IdentityOf(a).None? || IdentityOf(b).None? || IdentityOf(a) == IdentityOf(b)
  }

  function Abs(x: int): nat { if x < 0 then -x else x }

  /** The decision of a repair: who refuses it, or what it reports. A row that an earlier repair
      made a survivor is still referenced by that repair, and the database refuses to delete it. */
  function RepairDecision(t: Tables, a: RepairArgs): RepairResult {
    var s, d := a.survivorId, a.duplicateId;
    if s == d then Refused(SameId)
    else if s !in t.txns then Refused(SurvivorNotFound)
    else if d in t.aliases then
      if t.aliases[d].canonicalId != s then Refused(MergedElsewhere)
      else Repaired(t.aliases[d].repairId, 0, 0, true)
    else if d !in t.txns then Refused(DuplicateNotFound)
    else if || t.txns[s].facts.amount != t.txns[d].facts.amount
            || t.txns[s].facts.currency != t.txns[d].facts.currency
            || t.txns[s].accountId != t.txns[d].accountId then Refused(ConflictingMoney)
    else if !IdentityCompatible(t.txns[s], t.txns[d]) then Refused(DistinctIdentities)
    else if SeenOf(t, s) != a.survivor || SeenOf(t, d) != a.duplicate then Refused(StalePreview)
    else if HasFinancialReferences(t, d) then Refused(DuplicateIsFinancial)
    else if IsSurvivor(t, d) then Refused(StillReferenced)
    else Repaired(t.nextRepair, |set x | x in t.sources && t.sources[x].txnId == d|,
                  if t.txns[d].status == Open then Abs(t.txns[d].facts.amount) else 0, false)
  }

  function RecordRepair(t: Tables, s: Id, d: Id): Tables {
    t.(repairs := t.repairs[t.nextRepair := Repair(s, d)],
       nextRepair := t.nextRepair + 1,
       aliases := t.aliases[d := Alias(s, t.nextRepair)])
  }

  function Repoint(t: Tables, s: Id, d: Id): Tables {
    t.(sources := map x | x in t.sources :: if t.sources[x].txnId == d then t.sources[x].(txnId := s) else t.sources[x],
       conflicts := map c | c in t.conflicts :: if t.conflicts[c].canonicalId == d then t.conflicts[c].(canonicalId := s) else t.conflicts[c])
  }

  /** The writes of a repair that is carried out. */
  function Merge(t: Tables, s: Id, d: Id): Tables {
    RemoveTxn(Repoint(RecordRepair(t, s, d), s, d), d)
  }

  function ApplyRepair(t: Tables, a: RepairArgs): Tables {
    var r := RepairDecision(t, a);
    if r.Repaired? && !r.alreadyApplied then Merge(t, a.survivorId, a.duplicateId) else t
  }

  /** A removed id resolves to its survivor. */
  function Resolve(t: Tables, id: Id): Id {
    if id in t.aliases then t.aliases[id].canonicalId else id
  }
}
