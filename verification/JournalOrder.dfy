/** Statements that overlap can be imported in any order (`bank-statement.service.ts`). */
module JournalOrder {
  import opened JournalModel
  import opened JournalSafety
  import opened JournalRoundTrip
  import opened Seqs
  import opened Wrappers

  // ---------- what the order must not change ----------

  /** The facts the journal holds under each full identity. */
  ghost function FactsByIdentity(t: Tables): map<Identity, Facts>
    requires TxnsOk(t)
  {
    IndexPointsAtRows(t);
    map k | k in t.identityIndex :: t.txns[t.identityIndex[k]].facts
  }

  /** A row without its origin. */
  function Bare(x: Txn): Txn { x.(statementId := None) }

  /** The rows with no full identity that say the same. */
  function Anonymous(t: Tables, v: Txn): set<Id> {
    set id | id in t.txns && IdentityOf(t.txns[id]).None? && Bare(t.txns[id]) == v
  }

  /** No two canonical rows share a full identity. */
  lemma IdentitiesAreUnique(t: Tables, a: Id, b: Id)
    requires Valid(t) && a in t.txns && b in t.txns
    requires IdentityOf(t.txns[a]).Some? && IdentityOf(t.txns[a]) == IdentityOf(t.txns[b])
    ensures a == b
  {
    assert TxnOk(t, a) && TxnOk(t, b);
  }

  // ---------- one statement ----------

  function BareRow(c: Context, row: Incoming): Txn { Bare(NewTxn(c, row)) }

  /** The rows of a statement that bring no full identity. */
  function AnonymousRows(c: Context, rows: seq<Incoming>): multiset<Txn> {
    if rows == [] then multiset{}
    else
      AnonymousRows(c, rows[..|rows| - 1])
      + if KeyOf(c, rows[|rows| - 1]).None? then multiset{BareRow(c, rows[|rows| - 1])} else multiset{}
  }

  predicate AgreesOn(c: Context, row: Incoming, agreed: map<Identity, Facts>) {
    KeyOf(c, row).Some? ==> KeyOf(c, row).value in agreed && agreed[KeyOf(c, row).value] == row.facts
  }

  predicate RowsAgree(c: Context, rows: seq<Incoming>, agreed: map<Identity, Facts>) {
    forall row :: row in rows ==> AgreesOn(c, row, agreed)
  }

  /** Every identity the journal knows has the agreed facts. */
  ghost predicate HoldsAgreed(t: Tables, agreed: map<Identity, Facts>) {
    forall k :: k in t.identityIndex ==> FactsAgree(t, k, agreed)
  }

  ghost predicate FactsAgree(t: Tables, k: Identity, agreed: map<Identity, Facts>)
    requires k in t.identityIndex
  {
    t.identityIndex[k] in t.txns && k in agreed && t.txns[t.identityIndex[k]].facts == agreed[k]
  }

  lemma SameTxnsCount(m: Tables, m': Tables, v: Txn)
    requires m'.txns == m.txns
    ensures |Anonymous(m', v)| == |Anonymous(m, v)|
  {
    assert Anonymous(m', v) == Anonymous(m, v);
  }

  lemma NewTxnCount(m: Tables, x: Txn, v: Txn)
    requires m.nextTxn !in m.txns
    ensures |Anonymous(AddTxn(m, x), v)|
         == |Anonymous(m, v)| + if IdentityOf(x).None? && Bare(x) == v then 1 else 0
  {
    var m' := AddTxn(m, x);
    assert m'.txns == m.txns[m.nextTxn := x];
    forall id | id in m.txns ensures id in Anonymous(m', v) <==> id in Anonymous(m, v) {}
    if IdentityOf(x).None? && Bare(x) == v {
      assert Anonymous(m', v) == Anonymous(m, v) + {m.nextTxn};
    } else {
      assert Anonymous(m', v) == Anonymous(m, v);
    }
  }

  /** A row without a full identity is one more row; a row with one never makes two. */
  lemma RowCounted(first: First, m: Tables, c: Context, n: nat, row: Incoming, s: Summary, v: Txn)
    requires Valid(m)
    ensures |Anonymous(ImportRow(first, m, c, n, row, s).tables, v)|
         == |Anonymous(m, v)| + if KeyOf(c, row).None? && BareRow(c, row) == v then 1 else 0
  {
    IdsAreFresh(m);
    var m' := ImportRow(first, m, c, n, row, s).tables;
    if Existing(m, c, row).None? {
      NewRowIndexed(first, m, c, n, row, s);
      SameTxnsCount(AddTxn(m, NewTxn(c, row)), m', v);
      NewTxnCount(m, NewTxn(c, row), v);
    } else {
      IndexPointsAtRows(m);
      KnownRowIndexed(m, c, n, row, s, Existing(m, c, row).value);
      SameTxnsCount(m, m', v);
    }
  }

  lemma NewTxnAgrees(m: Tables, c: Context, row: Incoming, agreed: map<Identity, Facts>)
    requires Valid(m) && HoldsAgreed(m, agreed) && AgreesOn(c, row, agreed)
    ensures HoldsAgreed(AddTxn(m, NewTxn(c, row)), agreed)
  {
    IdsAreFresh(m);
    var m' := AddTxn(m, NewTxn(c, row));
    forall k | k in m'.identityIndex ensures FactsAgree(m', k, agreed) {
      if KeyOf(c, row) != Some(k) { assert FactsAgree(m, k, agreed); }
    }
  }

  lemma SameAgreement(m: Tables, m': Tables, agreed: map<Identity, Facts>)
    requires HoldsAgreed(m, agreed) && m'.txns == m.txns && m'.identityIndex == m.identityIndex
    ensures HoldsAgreed(m', agreed)
  {
    forall k | k in m'.identityIndex ensures FactsAgree(m', k, agreed) { assert FactsAgree(m, k, agreed); }
  }

  lemma RowAgreed(first: First, m: Tables, c: Context, n: nat, row: Incoming, s: Summary, agreed: map<Identity, Facts>)
    requires Valid(m) && HoldsAgreed(m, agreed) && AgreesOn(c, row, agreed)
    ensures HoldsAgreed(ImportRow(first, m, c, n, row, s).tables, agreed)
  {
    var m' := ImportRow(first, m, c, n, row, s).tables;
    if Existing(m, c, row).None? {
      NewRowIndexed(first, m, c, n, row, s);
      NewTxnAgrees(m, c, row, agreed);
      SameAgreement(AddTxn(m, NewTxn(c, row)), m', agreed);
    } else {
      IndexPointsAtRows(m);
      KnownRowIndexed(m, c, n, row, s, Existing(m, c, row).value);
      SameAgreement(m, m', agreed);
    }
  }

  lemma {:induction false} RowsCounted(first: First, t: Tables, c: Context, rows: seq<Incoming>, v: Txn)
    requires Valid(t) && c.statementId in t.statements
    ensures |Anonymous(ImportRows(first, t, c, rows).tables, v)| == |Anonymous(t, v)| + AnonymousRows(c, rows)[v]
  {
    if rows != [] {
      var n := |rows| - 1;
      RowsCounted(first, t, c, rows[..n], v);
      RowsImported(first, t, c, rows[..n]);
      var before := ImportRows(first, t, c, rows[..n]);
      RowCounted(first, before.tables, c, |rows|, rows[n], before.summary, v);
    }
  }

  lemma {:induction false} RowsAgreed(first: First, t: Tables, c: Context, rows: seq<Incoming>, agreed: map<Identity, Facts>)
    requires Valid(t) && c.statementId in t.statements && HoldsAgreed(t, agreed) && RowsAgree(c, rows, agreed)
    ensures HoldsAgreed(ImportRows(first, t, c, rows).tables, agreed)
  {
    if rows != [] {
      var n := |rows| - 1;
      RowsAgreed(first, t, c, rows[..n], agreed);
      RowsImported(first, t, c, rows[..n]);
      var before := ImportRows(first, t, c, rows[..n]);
      assert AgreesOn(c, rows[n], agreed);
      RowAgreed(first, before.tables, c, |rows|, rows[n], before.summary, agreed);
    }
  }

  // ---------- many statements ----------

  function ImportAll(first: First, t: Tables, inputs: seq<StatementInput>): Tables {
    if inputs == [] then t
    else
      var before := ImportAll(first, t, inputs[..|inputs| - 1]);
      Perform(first, before, DoImport(inputs[|inputs| - 1]))
  }

  /** What the rows of a statement inherit, but for the id of the statement. */
  function ScopeOf(i: StatementInput): Context { Context(0, i.accountId, i.provider, i.accountRef) }

  predicate Brings(i: StatementInput, k: Identity) { IsNamed(ScopeOf(i), i.rows, k) }

  predicate InputAgrees(i: StatementInput, agreed: map<Identity, Facts>) { RowsAgree(ScopeOf(i), i.rows, agreed) }

  /** The contents are new to the journal, and no two are the same. */
  predicate AreNewContents(t: Tables, inputs: multiset<StatementInput>) {
    && (forall i :: i in inputs && ContentKeyOf(i).Some? ==> !IsReplay(t, i) && inputs[i] == 1)
    && (forall i, j :: i in inputs && j in inputs && ContentKeyOf(i).Some? && ContentKeyOf(i) == ContentKeyOf(j) ==> i == j)
  }

  function AllAnonymous(inputs: seq<StatementInput>): multiset<Txn> {
    if inputs == [] then multiset{}
    else
      AllAnonymous(inputs[..|inputs| - 1])
      + AnonymousRows(ScopeOf(inputs[|inputs| - 1]), inputs[|inputs| - 1].rows)
  }

  /** The scope decides; the id of the statement does not. */
  lemma {:induction false} SameAnonymousRows(c: Context, d: Context, rows: seq<Incoming>)
    requires c.(statementId := 0) == d.(statementId := 0)
    ensures AnonymousRows(c, rows) == AnonymousRows(d, rows)
  {
    if rows != [] { SameAnonymousRows(c, d, rows[..|rows| - 1]); }
  }

  lemma SameNames(c: Context, d: Context, rows: seq<Incoming>, k: Identity)
    requires c.(statementId := 0) == d.(statementId := 0)
    ensures IsNamed(c, rows, k) <==> IsNamed(d, rows, k)
  {}

  lemma SameRowsAgree(c: Context, d: Context, rows: seq<Incoming>, agreed: map<Identity, Facts>)
    requires c.(statementId := 0) == d.(statementId := 0) && RowsAgree(c, rows, agreed)
    ensures RowsAgree(d, rows, agreed)
  {
    forall row | row in rows ensures AgreesOn(d, row, agreed) { assert AgreesOn(c, row, agreed); }
  }

  lemma ImportCounted(first: First, t: Tables, i: StatementInput, v: Txn)
    requires Valid(t) && !IsReplay(t, i)
    ensures |Anonymous(Import(first, t, i).tables, v)| == |Anonymous(t, v)| + AnonymousRows(ScopeOf(i), i.rows)[v]
  {
    StatementAdded(t, i);
    RowsCounted(first, AddStatement(t, i), ContextOf(t, i), i.rows, v);
    SameTxnsCount(t, AddStatement(t, i), v);
    SameAnonymousRows(ContextOf(t, i), ScopeOf(i), i.rows);
  }

  lemma ImportAgreed(first: First, t: Tables, i: StatementInput, agreed: map<Identity, Facts>)
    requires Valid(t) && !IsReplay(t, i) && HoldsAgreed(t, agreed) && InputAgrees(i, agreed)
    ensures HoldsAgreed(Import(first, t, i).tables, agreed)
  {
    StatementAdded(t, i);
    SameAgreement(t, AddStatement(t, i), agreed);
    SameRowsAgree(ScopeOf(i), ContextOf(t, i), i.rows, agreed);
    RowsAgreed(first, AddStatement(t, i), ContextOf(t, i), i.rows, agreed);
  }

  lemma ImportIndexed(first: First, t: Tables, i: StatementInput, k: Identity)
    requires Valid(t) && !IsReplay(t, i)
    ensures k in Import(first, t, i).tables.identityIndex <==> k in t.identityIndex || Brings(i, k)
  {
    AddsToWhatWas(first, t, i);
    SameNames(ContextOf(t, i), ScopeOf(i), i.rows, k);
  }

  /** What a sequence of imports has done to the journal. */
  ghost predicate Imported(t: Tables, t': Tables, inputs: seq<StatementInput>, agreed: map<Identity, Facts>) {
    && Valid(t') && HoldsAgreed(t', agreed)
    && (forall k :: k in t'.identityIndex <==> k in t.identityIndex || exists i :: i in inputs && Brings(i, k))
    && (forall v :: |Anonymous(t', v)| == |Anonymous(t, v)| + AllAnonymous(inputs)[v])
    && (forall key :: key in t'.contentIndex <==> key in t.contentIndex || exists i :: i in inputs && ContentKeyOf(i) == Some(key))
  }

  lemma ContentsAfter(first: First, t: Tables, i: StatementInput)
    requires Valid(t) && !IsReplay(t, i)
    ensures forall key :: key in Import(first, t, i).tables.contentIndex <==> key in t.contentIndex || ContentKeyOf(i) == Some(key)
  {
    AddsToWhatWas(first, t, i);
  }

  lemma OneMoreInput(inputs: seq<StatementInput>)
    requires inputs != []
    ensures forall i :: i in inputs <==> i in inputs[..|inputs| - 1] || i == inputs[|inputs| - 1]
  {
    assert inputs == inputs[..|inputs| - 1] + [inputs[|inputs| - 1]];
  }

  lemma PrefixIsNew(t: Tables, inputs: seq<StatementInput>)
    requires inputs != [] && AreNewContents(t, multiset(inputs))
    ensures AreNewContents(t, multiset(inputs[..|inputs| - 1]))
    ensures var last := inputs[|inputs| - 1];
            ContentKeyOf(last).Some? ==> forall i :: i in inputs[..|inputs| - 1] ==> ContentKeyOf(i) != ContentKeyOf(last)
  {
    var rest, last := inputs[..|inputs| - 1], inputs[|inputs| - 1];
    assert inputs == rest + [last];
    assert multiset(inputs) == multiset(rest) + multiset{last};
    if ContentKeyOf(last).Some? {
      assert last in multiset(inputs) && last !in multiset(rest);
      forall i | i in rest ensures ContentKeyOf(i) != ContentKeyOf(last) {
        assert i in multiset(rest) && i in multiset(inputs);
      }
    }
  }

  lemma AnonymousCounted(first: First, before: Tables, t: Tables, inputs: seq<StatementInput>)
    requires inputs != [] && Valid(before) && !IsReplay(before, inputs[|inputs| - 1])
    requires forall v :: |Anonymous(before, v)| == |Anonymous(t, v)| + AllAnonymous(inputs[..|inputs| - 1])[v]
    ensures forall v :: |Anonymous(Import(first, before, inputs[|inputs| - 1]).tables, v)| == |Anonymous(t, v)| + AllAnonymous(inputs)[v]
  {
    var last := inputs[|inputs| - 1];
    forall v ensures |Anonymous(Import(first, before, last).tables, v)| == |Anonymous(t, v)| + AllAnonymous(inputs)[v] {
      ImportCounted(first, before, last, v);
    }
  }

  lemma {:induction false} AllImported(first: First, t: Tables, inputs: seq<StatementInput>, agreed: map<Identity, Facts>)
    requires Valid(t) && HoldsAgreed(t, agreed) && AreNewContents(t, multiset(inputs))
    requires forall i :: i in inputs ==> InputAgrees(i, agreed)
    ensures Imported(t, ImportAll(first, t, inputs), inputs, agreed)
    decreases |inputs|
  {
    if inputs != [] {
      var rest, last := inputs[..|inputs| - 1], inputs[|inputs| - 1];
      PrefixIsNew(t, inputs);
      OneMoreInput(inputs);
      AllImported(first, t, rest, agreed);
      var before := ImportAll(first, t, rest);
      assert last in multiset(inputs);
      assert !IsReplay(before, last);
      ImportKeeps(first, before, last);
      ImportAgreed(first, before, last, agreed);
      AnonymousCounted(first, before, t, inputs);
      ContentsAfter(first, before, last);
      forall k ensures k in ImportAll(first, t, inputs).identityIndex <==> k in t.identityIndex || exists i :: i in inputs && Brings(i, k) {
        ImportIndexed(first, before, last, k);
      }
    }
  }

  // ---------- the order ----------

  lemma AllAnonymousAppend(inputs: seq<StatementInput>, i: StatementInput)
    ensures AllAnonymous(inputs + [i]) == AllAnonymous(inputs) + AnonymousRows(ScopeOf(i), i.rows)
  {
    assert (inputs + [i])[..|inputs|] == inputs;
  }

  lemma {:induction false} AllAnonymousWithout(inputs: seq<StatementInput>, k: nat)
    requires k < |inputs|
    ensures AllAnonymous(inputs) == AllAnonymous(Without(inputs, k)) + AnonymousRows(ScopeOf(inputs[k]), inputs[k].rows)
    decreases |inputs|
  {
    var n := |inputs| - 1;
    if k == n {
      assert Without(inputs, k) == inputs[..n];
    } else {
      AllAnonymousWithout(inputs[..n], k);
      LastStays(inputs, k);
      LastMoves(inputs, Without(inputs[..n], k), Without(inputs, k), AnonymousRows(ScopeOf(inputs[k]), inputs[k].rows));
    }
  }

  lemma LastMoves(inputs: seq<StatementInput>, rest: seq<StatementInput>, others: seq<StatementInput>, taken: multiset<Txn>)
    requires inputs != [] && others == rest + [inputs[|inputs| - 1]]
    requires AllAnonymous(inputs[..|inputs| - 1]) == AllAnonymous(rest) + taken
    ensures AllAnonymous(inputs) == AllAnonymous(others) + taken
  {
    AllAnonymousAppend(rest, inputs[|inputs| - 1]);
  }

  lemma LastStays<T>(s: seq<T>, k: nat)
    requires k < |s| - 1
    ensures Without(s, k) == Without(s[..|s| - 1], k) + [s[|s| - 1]]
  {}

  lemma {:induction false} SameAnonymous(inputs: seq<StatementInput>, others: seq<StatementInput>)
    requires multiset(inputs) == multiset(others)
    ensures AllAnonymous(inputs) == AllAnonymous(others)
    decreases |inputs|
  {
    assert |multiset(inputs)| == |inputs| && |multiset(others)| == |others|;
    if inputs != [] {
      var n := |inputs| - 1;
      assert inputs[n] in multiset(others);
      var k :| 0 <= k < |others| && others[k] == inputs[n];
      OneLess(inputs, n);
      OneLess(others, k);
      AllAnonymousWithout(inputs, n);
      AllAnonymousWithout(others, k);
      SameAnonymous(Without(inputs, n), Without(others, k));
    }
  }

  lemma SameMembers(inputs: seq<StatementInput>, others: seq<StatementInput>)
    requires multiset(inputs) == multiset(others)
    ensures forall i :: i in inputs <==> i in others
  {
    forall i: StatementInput ensures i in inputs <==> i in others {
      assert (i in inputs <==> i in multiset(inputs)) && (i in others <==> i in multiset(others));
    }
  }

  lemma FactsAreAgreed(t: Tables, agreed: map<Identity, Facts>)
    requires TxnsOk(t) && HoldsAgreed(t, agreed)
    ensures forall k :: k in t.identityIndex ==> FactsByIdentity(t)[k] == agreed[k]
  {
    forall k | k in t.identityIndex ensures FactsByIdentity(t)[k] == agreed[k] { assert FactsAgree(t, k, agreed); }
  }

  lemma SameFacts(a: Tables, b: Tables, agreed: map<Identity, Facts>)
    requires TxnsOk(a) && TxnsOk(b) && HoldsAgreed(a, agreed) && HoldsAgreed(b, agreed)
    requires forall k :: k in a.identityIndex <==> k in b.identityIndex
    ensures FactsByIdentity(a) == FactsByIdentity(b)
  {
    FactsAreAgreed(a, agreed);
    FactsAreAgreed(b, agreed);
  }

  /** Import order does not matter. Statements of distinct new contents, in which every full
      identity has one set of facts, may be imported in any order, and whichever twin each
      query picks: the journal holds the same facts under the same identities, and as many
      rows without an identity that say the same. */
  lemma ImportOrderDoesNotMatter(first: First, other: First, t: Tables,
                                 inputs: seq<StatementInput>, reordered: seq<StatementInput>, agreed: map<Identity, Facts>)
    requires Valid(t) && HoldsAgreed(t, agreed) && AreNewContents(t, multiset(inputs))
    requires forall i :: i in inputs ==> InputAgrees(i, agreed)
    requires multiset(inputs) == multiset(reordered)
    ensures var a, b := ImportAll(first, t, inputs), ImportAll(other, t, reordered);
            && Valid(a) && Valid(b)
            && FactsByIdentity(a) == FactsByIdentity(b)
            && (forall v :: |Anonymous(a, v)| == |Anonymous(b, v)|)
  {
    SameMembers(inputs, reordered);
    AllImported(first, t, inputs, agreed);
    AllImported(other, t, reordered, agreed);
    SameAnonymous(inputs, reordered);
    SameFacts(ImportAll(first, t, inputs), ImportAll(other, t, reordered), agreed);
  }
}
