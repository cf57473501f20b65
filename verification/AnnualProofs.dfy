/** What the annual accounts keep, whatever the ledger (`annual-accounts.service.ts`). */
module AnnualProofs {
  import opened Wrappers
  import opened Ledger
  import opened AnnualReport

  // ---------- the windows ----------

  /** Up to the end is before the start, plus the transfers of the window, plus its trading. */
  lemma WindowSplits(vouchers: seq<Voucher>, chart: Chart, horizon: int, w: Period, codes: set<string>)
    requires w.start <= w.end + 1
    ensures Net(PostedUpTo(vouchers, w.end), codes)
         == Net(PostedUpTo(vouchers, w.start - 1), codes)
            + Net(TransfersIn(vouchers, chart, horizon, w), codes) + Net(TradingIn(vouchers, chart, horizon, w), codes)
  {
    var upTo := (v: Voucher) => v.posted && v.date <= w.end;
    var before := (v: Voucher) => v.posted && v.date <= w.start - 1;
    var within := (v: Voucher) => IsPosted(v, w.start, w.end);
    var transfers := (v: Voucher) => IsPosted(v, w.start, w.end) && IsRecognised(vouchers, chart, horizon, v);
    var trading := (v: Voucher) => IsPosted(v, w.start, w.end) && !IsRecognised(vouchers, chart, horizon, v);
    NetOfDisjoint(vouchers, before, within, upTo, codes);
    NetOfDisjoint(vouchers, transfers, trading, within, codes);
    WhereSame(vouchers, upTo, (v: Voucher) => v.posted && v.date <= w.end);
    WhereSame(vouchers, before, (v: Voucher) => v.posted && v.date <= w.start - 1);
    WhereSame(vouchers, transfers, (v: Voucher) => IsPosted(v, w.start, w.end) && IsRecognised(vouchers, chart, horizon, v));
    WhereSame(vouchers, trading, (v: Voucher) => IsPosted(v, w.start, w.end) && !IsRecognised(vouchers, chart, horizon, v));
  }

  lemma SelectedKind(chart: Chart, accounts: seq<string>, k: Kind)
    requires Enumerates(accounts, chart)
    ensures Selected(chart, accounts, OfKindIs(k)) == OfKind(chart, k)
  {}

  lemma EquitySplits(chart: Chart, accounts: seq<string>, vouchers: seq<Voucher>)
    requires Enumerates(accounts, chart)
    ensures Net(vouchers, OfKind(chart, Equity))
         == Net(vouchers, Selected(chart, accounts, IsContributed)) + Net(vouchers, Selected(chart, accounts, IsAccumulatedResult))
  {
    var a, b := Selected(chart, accounts, IsContributed), Selected(chart, accounts, IsAccumulatedResult);
    assert OfKind(chart, Equity) == a + b;
    NetSplits(vouchers, a, b);
  }

  lemma PnlSplits(chart: Chart, vouchers: seq<Voucher>)
    ensures Net(vouchers, Pnl(chart)) == Net(vouchers, OfKind(chart, Revenue)) + Net(vouchers, OfKind(chart, Expense))
  {
    NetSplits(vouchers, OfKind(chart, Revenue), OfKind(chart, Expense));
  }

  // ---------- the lines of the report as nets of the ledger ----------

  /** Net income is what the window traded, less the virtual depreciation. */
  lemma NetIncomeIsTrading(vouchers: seq<Voucher>, chart: Chart, accounts: seq<string>, p: Period, prior: Option<Period>, charges: seq<ClassCharge>)
    requires Enumerates(accounts, chart) && IsUsual(chart)
    ensures var r := Assemble(vouchers, chart, accounts, p, prior, charges);
            && r.netIncome == -Net(TradingIn(vouchers, chart, p.end, p), Pnl(chart)) - TotalCharge(charges)
            && (prior.Some? ==> r.priorNetIncome == -Net(TradingIn(vouchers, chart, p.end, prior.value), Pnl(chart)))
  {
    AssembledSum(vouchers, chart, accounts, p, prior, charges, OfKindIs(Revenue), Revenue);
    AssembledSum(vouchers, chart, accounts, p, prior, charges, OfKindIs(Expense), Expense);
    SelectedKind(chart, accounts, Revenue);
    SelectedKind(chart, accounts, Expense);
    PnlSplits(chart, TradingIn(vouchers, chart, p.end, p));
    if prior.Some? { PnlSplits(chart, TradingIn(vouchers, chart, p.end, prior.value)); }
  }

  /** Earnings brought forward, as a net of the ledger. */
  function CarriedResult(vouchers: seq<Voucher>, chart: Chart, accounts: seq<string>, horizon: int, w: Period): int {
    -Net(PostedUpTo(vouchers, w.end), Selected(chart, accounts, IsAccumulatedResult))
    - Net(PostedUpTo(vouchers, w.start - 1), Pnl(chart))
    - Net(TransfersIn(vouchers, chart, horizon, w), Pnl(chart))
  }

  /** The sums over the assembled rows that the balance check uses. */
  lemma BalanceSums(vouchers: seq<Voucher>, chart: Chart, accounts: seq<string>, p: Period, prior: Option<Period>, charges: seq<ClassCharge>)
    requires Enumerates(accounts, chart) && IsUsual(chart)
    ensures var rows := Assemble(vouchers, chart, accounts, p, prior, charges).rows; var all := PostedUpTo(vouchers, p.end);
            && SumWhere(rows, CurrentField, OfKindIs(Asset)) == Net(all, OfKind(chart, Asset)) - TotalCharge(charges)
            && SumWhere(rows, CurrentField, OfKindIs(Liability)) == -Net(all, OfKind(chart, Liability))
  {
    AssembledSum(vouchers, chart, accounts, p, prior, charges, OfKindIs(Asset), Asset);
    AssembledSum(vouchers, chart, accounts, p, prior, charges, OfKindIs(Liability), Liability);
    SelectedKind(chart, accounts, Asset);
    SelectedKind(chart, accounts, Liability);
  }

  lemma EquitySums(vouchers: seq<Voucher>, chart: Chart, accounts: seq<string>, p: Period, prior: Option<Period>, charges: seq<ClassCharge>)
    requires Enumerates(accounts, chart) && IsUsual(chart)
    ensures var rows := Assemble(vouchers, chart, accounts, p, prior, charges).rows;
            && SumWhere(rows, CurrentField, IsContributed) == -Net(PostedUpTo(vouchers, p.end), Selected(chart, accounts, IsContributed))
            && SumWhere(rows, CurrentField, IsAccumulatedResult) == -Net(PostedUpTo(vouchers, p.end), Selected(chart, accounts, IsAccumulatedResult))
            && (prior.Some? ==> SumWhere(rows, PriorField, IsAccumulatedResult)
                                == -Net(PostedUpTo(vouchers, prior.value.end), Selected(chart, accounts, IsAccumulatedResult)))
  {
    AssembledSum(vouchers, chart, accounts, p, prior, charges, IsContributed, Equity);
    AssembledSum(vouchers, chart, accounts, p, prior, charges, IsAccumulatedResult, Equity);
  }

  lemma BroughtForwardIsCarried(vouchers: seq<Voucher>, chart: Chart, accounts: seq<string>, p: Period, prior: Option<Period>, charges: seq<ClassCharge>)
    requires Enumerates(accounts, chart) && IsUsual(chart)
    ensures var r := Assemble(vouchers, chart, accounts, p, prior, charges);
            && r.broughtForward == CarriedResult(vouchers, chart, accounts, p.end, p)
            && (prior.Some? ==> r.priorBroughtForward == CarriedResult(vouchers, chart, accounts, p.end, prior.value))
  {
    var rows := Assemble(vouchers, chart, accounts, p, prior, charges).rows;
    EquitySums(vouchers, chart, accounts, p, prior, charges);
    CarriedFromSum(rows, CurrentField, vouchers, chart, accounts, p.end, p);
    if prior.Some? { CarriedFromSum(rows, PriorField, vouchers, chart, accounts, p.end, prior.value); }
  }

  lemma CarriedFromSum(rows: seq<Row>, f: Field, vouchers: seq<Voucher>, chart: Chart, accounts: seq<string>, horizon: int, w: Period)
    requires SumWhere(rows, f, IsAccumulatedResult) == -Net(PostedUpTo(vouchers, w.end), Selected(chart, accounts, IsAccumulatedResult))
    ensures BroughtForward(rows, f, vouchers, chart, horizon, w) == CarriedResult(vouchers, chart, accounts, horizon, w)
  {}

  /** The whole ledger up to the end, cut into what the report shows. */
  lemma LedgerAdds(vouchers: seq<Voucher>, chart: Chart, accounts: seq<string>, horizon: int, w: Period)
    requires Enumerates(accounts, chart) && AreBalanced(chart, vouchers) && w.start <= w.end + 1
    ensures var all := PostedUpTo(vouchers, w.end);
            Net(all, OfKind(chart, Asset)) + Net(all, OfKind(chart, Liability)) + Net(all, Selected(chart, accounts, IsContributed))
            == CarriedResult(vouchers, chart, accounts, horizon, w) - Net(TradingIn(vouchers, chart, horizon, w), Pnl(chart))
  {
    var all := PostedUpTo(vouchers, w.end);
    forall v | v in all ensures IsBalanced(chart, v) { assert v in vouchers && v.posted; }
    TrialBalance(chart, all);
    KindsAreAll(chart, all);
    EquitySplits(chart, accounts, all);
    WindowSplits(vouchers, chart, horizon, w, Pnl(chart));
  }

  /** The balance-sheet identity: over any ledger of balanced vouchers, any recognised transfers
      and any virtual depreciation, the assembled figures balance. */
  lemma BalanceSheetBalances(vouchers: seq<Voucher>, chart: Chart, accounts: seq<string>, p: Period, prior: Option<Period>, charges: seq<ClassCharge>)
    requires Enumerates(accounts, chart) && IsUsual(chart) && AreBalanced(chart, vouchers) && p.start <= p.end + 1
    ensures Balances(Assemble(vouchers, chart, accounts, p, prior, charges))
  {
    LedgerAdds(vouchers, chart, accounts, p.end, p);
    NetIncomeIsTrading(vouchers, chart, accounts, p, prior, charges);
    BroughtForwardIsCarried(vouchers, chart, accounts, p, prior, charges);
    BalanceSums(vouchers, chart, accounts, p, prior, charges);
    EquitySums(vouchers, chart, accounts, p, prior, charges);
  }

  // ---------- one more closing transfer ----------

  /** A voucher nothing in the ledger is or reverses. */
  predicate IsNew(vouchers: seq<Voucher>, v: Voucher) {
    forall w :: w in vouchers ==> w.id != v.id && w.reverses != Some(v.id)
  }

  lemma OthersAreRecognisedAlike(vouchers: seq<Voucher>, v: Voucher, chart: Chart, horizon: int, u: Voucher)
    requires IsNew(vouchers, v) && u in vouchers
    ensures IsRecognised(vouchers + [v], chart, horizon, u) <==> IsRecognised(vouchers, chart, horizon, u)
  {
    assert forall w :: w in vouchers + [v] <==> w in vouchers || w == v;
  }

  lemma TransfersOfOneMore(vouchers: seq<Voucher>, v: Voucher, chart: Chart, horizon: int, w: Period, codes: set<string>)
    requires IsNew(vouchers, v)
    ensures Net(TransfersIn(vouchers + [v], chart, horizon, w), codes)
         == Net(TransfersIn(vouchers, chart, horizon, w), codes)
            + if IsPosted(v, w.start, w.end) && IsRecognised(vouchers + [v], chart, horizon, v) then LineNet(v.lines, codes) else 0
  {
    var p := (u: Voucher) => IsPosted(u, w.start, w.end) && IsRecognised(vouchers + [v], chart, horizon, u);
    var q := (u: Voucher) => IsPosted(u, w.start, w.end) && IsRecognised(vouchers, chart, horizon, u);
    forall u | u in vouchers ensures p(u) == q(u) { OthersAreRecognisedAlike(vouchers, v, chart, horizon, u); }
    WhereSame(vouchers, p, q);
    NetOfOneMore(vouchers, v, p, codes);
    WhereSame(vouchers + [v], p, (u: Voucher) => IsPosted(u, w.start, w.end) && IsRecognised(vouchers + [v], chart, horizon, u));
    WhereSame(vouchers, q, (u: Voucher) => IsPosted(u, w.start, w.end) && IsRecognised(vouchers, chart, horizon, u));
  }

  lemma TradingOfOneMore(vouchers: seq<Voucher>, v: Voucher, chart: Chart, horizon: int, w: Period, codes: set<string>)
    requires IsNew(vouchers, v)
    ensures Net(TradingIn(vouchers + [v], chart, horizon, w), codes)
         == Net(TradingIn(vouchers, chart, horizon, w), codes)
            + if IsPosted(v, w.start, w.end) && !IsRecognised(vouchers + [v], chart, horizon, v) then LineNet(v.lines, codes) else 0
  {
    var p := (u: Voucher) => IsPosted(u, w.start, w.end) && !IsRecognised(vouchers + [v], chart, horizon, u);
    var q := (u: Voucher) => IsPosted(u, w.start, w.end) && !IsRecognised(vouchers, chart, horizon, u);
    forall u | u in vouchers ensures p(u) == q(u) { OthersAreRecognisedAlike(vouchers, v, chart, horizon, u); }
    WhereSame(vouchers, p, q);
    NetOfOneMore(vouchers, v, p, codes);
    WhereSame(vouchers + [v], p, (u: Voucher) => IsPosted(u, w.start, w.end) && !IsRecognised(vouchers + [v], chart, horizon, u));
    WhereSame(vouchers, q, (u: Voucher) => IsPosted(u, w.start, w.end) && !IsRecognised(vouchers, chart, horizon, u));
  }

  lemma BalanceOfOneMore(vouchers: seq<Voucher>, v: Voucher, to: int, codes: set<string>)
    ensures Net(PostedUpTo(vouchers + [v], to), codes)
         == Net(PostedUpTo(vouchers, to), codes) + if v.posted && v.date <= to then LineNet(v.lines, codes) else 0
  {
    var p := (u: Voucher) => u.posted && u.date <= to;
    NetOfOneMore(vouchers, v, p, codes);
    WhereSame(vouchers + [v], p, (u: Voucher) => u.posted && u.date <= to);
    WhereSame(vouchers, p, (u: Voucher) => u.posted && u.date <= to);
  }

  /** What a transfer takes off the P&L accounts it puts on an accumulated-result account. */
  lemma TransferMovesToRetained(chart: Chart, accounts: seq<string>, v: Voucher)
    requires Enumerates(accounts, chart) && IsUsual(chart) && IsBalanced(chart, v) && IsTransferShaped(chart, v)
    ensures LineNet(v.lines, Selected(chart, accounts, IsAccumulatedResult)) == -LineNet(v.lines, Pnl(chart))
  {
    var a, p := Selected(chart, accounts, IsAccumulatedResult), Pnl(chart);
    assert RETAINED_EARNINGS in a;
    LineNetOfSome(v.lines, a + p, chart.Keys);
    LineNetSplits(v.lines, a, p);
  }

  lemma CarriedResultBalancesOut(vouchers: seq<Voucher>, v: Voucher, chart: Chart, accounts: seq<string>, horizon: int, w: Period, moved: int)
    requires v.posted && w.start <= w.end + 1
    requires LineNet(v.lines, Pnl(chart)) == moved && LineNet(v.lines, Selected(chart, accounts, IsAccumulatedResult)) == -moved
    requires Net(TransfersIn(vouchers + [v], chart, horizon, w), Pnl(chart))
          == Net(TransfersIn(vouchers, chart, horizon, w), Pnl(chart)) + if IsPosted(v, w.start, w.end) then moved else 0
    ensures CarriedResult(vouchers + [v], chart, accounts, horizon, w) == CarriedResult(vouchers, chart, accounts, horizon, w)
  {
    BalanceOfOneMore(vouchers, v, w.end, Selected(chart, accounts, IsAccumulatedResult));
    BalanceOfOneMore(vouchers, v, w.start - 1, Pnl(chart));
  }

  /** A recognised voucher leaves the brought-forward line of any column where it was. */
  lemma CarriedResultOfOneMore(vouchers: seq<Voucher>, v: Voucher, chart: Chart, accounts: seq<string>, horizon: int, w: Period)
    requires Enumerates(accounts, chart) && IsUsual(chart) && IsBalanced(chart, v) && IsNew(vouchers, v)
    requires IsRecognised(vouchers + [v], chart, horizon, v) && w.start <= w.end + 1
    ensures CarriedResult(vouchers + [v], chart, accounts, horizon, w) == CarriedResult(vouchers, chart, accounts, horizon, w)
  {
    TransferMovesToRetained(chart, accounts, v);
    TransfersOfOneMore(vouchers, v, chart, horizon, w, Pnl(chart));
    CarriedResultBalancesOut(vouchers, v, chart, accounts, horizon, w, LineNet(v.lines, Pnl(chart)));
  }

  // ---------- the rows of the income statement ----------

  /** The same accounts, with the same figures on the income statement. */
  predicate SameIncomeRows(a: seq<Row>, b: seq<Row>) {
    && |a| == |b|
    && (forall i :: 0 <= i < |a| ==> SameIncomeRow(a[i], b[i]))
  }

  predicate SameIncomeRow(x: Row, y: Row) {
    x.code == y.code && x.kind == y.kind && (IsPnl(x.kind) ==> x == y)
  }

  lemma PrependIncomeRow(x: Row, y: Row, a: seq<Row>, b: seq<Row>)
    requires SameIncomeRow(x, y) && SameIncomeRows(a, b)
    ensures SameIncomeRows([x] + a, [y] + b)
  {}

  lemma {:induction false} AddToIncomeRows(a: seq<Row>, b: seq<Row>, code: string, kind: Kind, delta: int)
    requires SameIncomeRows(a, b)
    ensures SameIncomeRows(AddTo(a, code, kind, delta), AddTo(b, code, kind, delta))
  {
    if a != [] {
      assert SameIncomeRow(a[0], b[0]);
      if a[0].code != code {
        AddToIncomeRows(a[1..], b[1..], code, kind, delta);
        PrependIncomeRow(a[0], b[0], AddTo(a[1..], code, kind, delta), AddTo(b[1..], code, kind, delta));
      }
    }
  }

  lemma {:induction false} CreditIncomeRows(a: seq<Row>, b: seq<Row>, charges: seq<ClassCharge>)
    requires SameIncomeRows(a, b)
    ensures SameIncomeRows(CreditClasses(a, charges), CreditClasses(b, charges))
    decreases |charges|
  {
    if charges != [] {
      var code, delta := AccumCode(charges[0].assetClass), -charges[0].amount;
      AddToIncomeRows(a, b, code, Asset, delta);
      CreditIncomeRows(AddTo(a, code, Asset, delta), AddTo(b, code, Asset, delta), charges[1..]);
    }
  }

  lemma VirtualIncomeRows(a: seq<Row>, b: seq<Row>, charges: seq<ClassCharge>)
    requires SameIncomeRows(a, b)
    ensures SameIncomeRows(WithVirtual(a, charges), WithVirtual(b, charges))
  {
    AddToIncomeRows(a, b, DEPRECIATION_EXPENSE, Expense, TotalCharge(charges));
    CreditIncomeRows(AddTo(a, DEPRECIATION_EXPENSE, Expense, TotalCharge(charges)),
                     AddTo(b, DEPRECIATION_EXPENSE, Expense, TotalCharge(charges)), charges);
  }

  lemma BaseIncomeRows(vouchers: seq<Voucher>, v: Voucher, chart: Chart, accounts: seq<string>, p: Period, prior: Option<Period>)
    requires Enumerates(accounts, chart) && IsNew(vouchers, v) && IsRecognised(vouchers + [v], chart, p.end, v)
    ensures SameIncomeRows(BaseRows(vouchers, chart, accounts, p, prior), BaseRows(vouchers + [v], chart, accounts, p, prior))
  {
    forall i | 0 <= i < |accounts| && IsPnl(chart[accounts[i]])
      ensures BaseRow(vouchers, chart, p, prior, accounts[i]) == BaseRow(vouchers + [v], chart, p, prior, accounts[i])
    {
      TradingOfOneMore(vouchers, v, chart, p.end, p, {accounts[i]});
      if prior.Some? { TradingOfOneMore(vouchers, v, chart, p.end, prior.value, {accounts[i]}); }
    }
  }

  /** Closing-transfer invariance. A recognised closing transfer, or the reversal of one, that
      nothing else reverses, dated anywhere up to the end of the period, changes neither the
      period's nor the prior period's net income, neither brought-forward figure, and no row of
      the income statement. */
  lemma ClosingTransferChangesNothing(vouchers: seq<Voucher>, v: Voucher, chart: Chart, accounts: seq<string>, p: Period, prior: Option<Period>,
                                      charges: seq<ClassCharge>)
    requires Enumerates(accounts, chart) && IsUsual(chart) && IsBalanced(chart, v) && IsNew(vouchers, v)
    requires IsRecognised(vouchers + [v], chart, p.end, v)
    requires p.start <= p.end + 1 && (prior.Some? ==> prior.value.start <= prior.value.end + 1)
    ensures var a := Assemble(vouchers, chart, accounts, p, prior, charges);
            var b := Assemble(vouchers + [v], chart, accounts, p, prior, charges);
            && a.netIncome == b.netIncome && a.priorNetIncome == b.priorNetIncome
            && a.broughtForward == b.broughtForward && a.priorBroughtForward == b.priorBroughtForward
            && SameIncomeRows(a.rows, b.rows)
  {
    BaseIncomeRows(vouchers, v, chart, accounts, p, prior);
    VirtualIncomeRows(BaseRows(vouchers, chart, accounts, p, prior), BaseRows(vouchers + [v], chart, accounts, p, prior), charges);
    NetIncomeSame(WithVirtual(BaseRows(vouchers, chart, accounts, p, prior), charges),
                  WithVirtual(BaseRows(vouchers + [v], chart, accounts, p, prior), charges));
    BroughtForwardIsCarried(vouchers, chart, accounts, p, prior, charges);
    BroughtForwardIsCarried(vouchers + [v], chart, accounts, p, prior, charges);
    CarriedResultOfOneMore(vouchers, v, chart, accounts, p.end, p);
    if prior.Some? { CarriedResultOfOneMore(vouchers, v, chart, accounts, p.end, prior.value); }
  }

  lemma {:induction false} SumSame(a: seq<Row>, b: seq<Row>, f: Field, k: Kind)
    requires SameIncomeRows(a, b) && IsPnl(k)
    ensures SumWhere(a, f, OfKindIs(k)) == SumWhere(b, f, OfKindIs(k))
  {
    if a != [] { SumSame(a[1..], b[1..], f, k); }
  }

  lemma NetIncomeSame(a: seq<Row>, b: seq<Row>)
    requires SameIncomeRows(a, b)
    ensures forall f :: NetIncome(a, f) == NetIncome(b, f)
  {
    forall f ensures NetIncome(a, f) == NetIncome(b, f) {
      SumSame(a, b, f, Revenue);
      SumSame(a, b, f, Expense);
    }
  }
}
