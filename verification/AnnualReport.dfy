/** The figures of the annual accounts (`annual-accounts.service.ts`): a balance sheet read off a
    ledger that nobody sweeps at year end. */
module AnnualReport {
  import opened Wrappers
  import opened Ledger

  const RETAINED_EARNINGS := "RETAINED_EARNINGS"
  const DEPRECIATION_EXPENSE := "DEPRECIATION_EXPENSE"

  datatype AssetClass = Vehicle | ItEquipment | Machinery | Furniture

  function AccumCode(c: AssetClass): string {
    match c
    case Vehicle => "ACCUM_DEPRECIATION_VEHICLES"
    case ItEquipment => "ACCUM_DEPRECIATION_IT"
    case Machinery => "ACCUM_DEPRECIATION_EQUIPMENT"
    case Furniture => "ACCUM_DEPRECIATION_FURNITURE"
  }

  predicate IsCapital(code: string) { code == "EQUITY" || code == "SHARE_CAPITAL" }

  datatype Period = Period(start: int, end: int)

  // ---------- closing transfers ----------

  /** Nothing but P&L accounts and retained earnings, and both of them. */
  predicate IsTransferShaped(chart: Chart, v: Voucher) {
    && (forall l :: l in v.lines ==> l.code in Pnl(chart) || l.code == RETAINED_EARNINGS)
    && (exists l :: l in v.lines && l.code in Pnl(chart))
    && (exists l :: l in v.lines && l.code !in Pnl(chart) && l.code == RETAINED_EARNINGS)
  }

  /** A marked transfer that counts up to the horizon. */
  predicate IsTransfer(chart: Chart, horizon: int, v: Voucher) {
    v.posted && v.date <= horizon && v.closing && IsTransferShaped(chart, v)
  }

  predicate ReversesTransfer(vouchers: seq<Voucher>, chart: Chart, horizon: int, v: Voucher) {
    && v.reverses.Some?
    && exists w :: w in vouchers && w.id == v.reverses.value && IsTransfer(chart, horizon, w)
  }

  /** A transfer, or the reversal of one that counts itself. */
  predicate IsRecognised(vouchers: seq<Voucher>, chart: Chart, horizon: int, v: Voucher) {
    && v.posted && v.date <= horizon && IsTransferShaped(chart, v)
    && (v.closing || ReversesTransfer(vouchers, chart, horizon, v))
  }

  /** The accounts a voucher touches. */
  function Codes(v: Voucher): set<string> { set l | l in v.lines :: l.code }

  /** Whether a voucher counts as a transfer of results to retained earnings. */
  lemma RecognisedIff(vouchers: seq<Voucher>, chart: Chart, horizon: int, v: Voucher)
    ensures IsRecognised(vouchers, chart, horizon, v)
            <==> && v.posted && v.date <= horizon
                 && Codes(v) <= Pnl(chart) + {RETAINED_EARNINGS} && Codes(v) * Pnl(chart) != {}
                 && RETAINED_EARNINGS in Codes(v) - Pnl(chart)
                 && (v.closing || exists w :: && w in vouchers && v.reverses == Some(w.id) && w.closing
                                              && IsRecognised(vouchers, chart, horizon, w))
  {
    ShapedIff(chart, v);
    if ReversesTransfer(vouchers, chart, horizon, v) {
      var w :| w in vouchers && w.id == v.reverses.value && IsTransfer(chart, horizon, w);
      assert IsRecognised(vouchers, chart, horizon, w);
    }
  }

  lemma ShapedIff(chart: Chart, v: Voucher)
    ensures IsTransferShaped(chart, v)
            <==> Codes(v) <= Pnl(chart) + {RETAINED_EARNINGS} && Codes(v) * Pnl(chart) != {} && RETAINED_EARNINGS in Codes(v) - Pnl(chart)
  {
    assert forall l :: l in v.lines ==> l.code in Codes(v);
    if Codes(v) * Pnl(chart) != {} {
      var code :| code in Codes(v) * Pnl(chart);
      assert exists l :: l in v.lines && l.code == code;
    }
    if exists l :: l in v.lines && l.code in Pnl(chart) {
      var l :| l in v.lines && l.code in Pnl(chart);
      assert l.code in Codes(v) * Pnl(chart);
    }
  }

  function TransfersIn(vouchers: seq<Voucher>, chart: Chart, horizon: int, w: Period): seq<Voucher> {
    Where(vouchers, (v: Voucher) => IsPosted(v, w.start, w.end) && IsRecognised(vouchers, chart, horizon, v))
  }

  /** What the period traded: its vouchers without the recognised transfers. */
  function TradingIn(vouchers: seq<Voucher>, chart: Chart, horizon: int, w: Period): seq<Voucher> {
    Where(vouchers, (v: Voucher) => IsPosted(v, w.start, w.end) && !IsRecognised(vouchers, chart, horizon, v))
  }

  // ---------- rows ----------

  datatype Row = Row(code: string, kind: Kind, current: int, prior: int)

  datatype Field = CurrentField | PriorField

  function Amount(r: Row, f: Field): int {
    match f
    case CurrentField => r.current
    case PriorField => r.prior
  }

  /** Revenue, equity and liabilities are credit-positive. */
  function NormalSide(kind: Kind, net: int): int {
    if kind == Asset || kind == Expense then net else -net
  }

  predicate IsPnl(kind: Kind) { kind == Revenue || kind == Expense }

  /** A balance-sheet account shows its balance at the end, a P&L account the trading of the window. */
  function Figure(vouchers: seq<Voucher>, chart: Chart, horizon: int, w: Period, kind: Kind, codes: set<string>): int {
    NormalSide(kind, Net(if IsPnl(kind) then TradingIn(vouchers, chart, horizon, w) else PostedUpTo(vouchers, w.end), codes))
  }

  predicate IsDistinct(codes: seq<string>) {
    forall i, j :: 0 <= i < j < |codes| ==> codes[i] != codes[j]
  }

  /** The accounts of the chart, in some order. */
  ghost predicate Enumerates(accounts: seq<string>, chart: Chart) {
    IsDistinct(accounts) && (forall c :: c in accounts <==> c in chart)
  }

  function BaseRow(vouchers: seq<Voucher>, chart: Chart, p: Period, prior: Option<Period>, code: string): Row
    requires code in chart
  {
    Row(code, chart[code],
        Figure(vouchers, chart, p.end, p, chart[code], {code}),
        if prior.Some? then Figure(vouchers, chart, p.end, prior.value, chart[code], {code}) else 0)
  }

  function BaseRows(vouchers: seq<Voucher>, chart: Chart, accounts: seq<string>, p: Period, prior: Option<Period>): (r: seq<Row>)
    requires forall c :: c in accounts ==> c in chart
    ensures |r| == |accounts|
    ensures forall i :: 0 <= i < |accounts| ==> r[i] == BaseRow(vouchers, chart, p, prior, accounts[i])
  {
    seq(|accounts|, i requires 0 <= i < |accounts| => BaseRow(vouchers, chart, p, prior, accounts[i]))
  }

  /** Adds to the first row of the account, or makes one. */
  function AddTo(rows: seq<Row>, code: string, kind: Kind, delta: int): seq<Row> {
    if rows == [] then [Row(code, kind, delta, 0)]
    else if rows[0].code == code then [rows[0].(current := rows[0].current + delta)] + rows[1..]
    else [rows[0]] + AddTo(rows[1..], code, kind, delta)
  }

  datatype ClassCharge = ClassCharge(assetClass: AssetClass, amount: int)

  function TotalCharge(charges: seq<ClassCharge>): int {
    if charges == [] then 0 else charges[0].amount + TotalCharge(charges[1..])
  }

  function CreditClasses(rows: seq<Row>, charges: seq<ClassCharge>): seq<Row>
    decreases |charges|
  {
    if charges == [] then rows
    else CreditClasses(AddTo(rows, AccumCode(charges[0].assetClass), Asset, -charges[0].amount), charges[1..])
  }

  /** The unposted depreciation folded in: an expense, and a credit per class. */
  function WithVirtual(rows: seq<Row>, charges: seq<ClassCharge>): seq<Row> {
    if TotalCharge(charges) == 0 then rows
    else CreditClasses(AddTo(rows, DEPRECIATION_EXPENSE, Expense, TotalCharge(charges)), charges)
  }

  // ---------- the report ----------

  function SumWhere(rows: seq<Row>, f: Field, p: (Kind, string) -> bool): int {
    if rows == [] then 0
    else (if p(rows[0].kind, rows[0].code) then Amount(rows[0], f) else 0) + SumWhere(rows[1..], f, p)
  }

  function OfKindIs(k: Kind): (Kind, string) -> bool { (kind: Kind, code: string) => kind == k }

  const IsAccumulatedResult: (Kind, string) -> bool := (kind: Kind, code: string) => kind == Equity && !IsCapital(code)

  const IsContributed: (Kind, string) -> bool := (kind: Kind, code: string) => kind == Equity && IsCapital(code)

  function NetIncome(rows: seq<Row>, f: Field): int {
    SumWhere(rows, f, OfKindIs(Revenue)) - SumWhere(rows, f, OfKindIs(Expense))
  }

  function CumulativeResultBefore(vouchers: seq<Voucher>, chart: Chart, start: int): int {
    -Net(PostedUpTo(vouchers, start - 1), Pnl(chart))
  }

  function TransferResult(vouchers: seq<Voucher>, chart: Chart, horizon: int, w: Period): int {
    -Net(TransfersIn(vouchers, chart, horizon, w), Pnl(chart))
  }

  function BroughtForward(rows: seq<Row>, f: Field, vouchers: seq<Voucher>, chart: Chart, horizon: int, w: Period): int {
    SumWhere(rows, f, IsAccumulatedResult) + CumulativeResultBefore(vouchers, chart, w.start) + TransferResult(vouchers, chart, horizon, w)
  }

  datatype Report = Report(
    rows: seq<Row>, netIncome: int, priorNetIncome: int, broughtForward: int, priorBroughtForward: int)

  function ReportOf(rows: seq<Row>, vouchers: seq<Voucher>, chart: Chart, p: Period, prior: Option<Period>): Report {
    Report(rows, NetIncome(rows, CurrentField), NetIncome(rows, PriorField),
           BroughtForward(rows, CurrentField, vouchers, chart, p.end, p),
           if prior.Some? then BroughtForward(rows, PriorField, vouchers, chart, p.end, prior.value) else 0)
  }

  function Assemble(vouchers: seq<Voucher>, chart: Chart, accounts: seq<string>, p: Period, prior: Option<Period>,
                    charges: seq<ClassCharge>): Report
    requires Enumerates(accounts, chart)
  {
    ReportOf(WithVirtual(BaseRows(vouchers, chart, accounts, p, prior), charges), vouchers, chart, p, prior)
  }

  /** The accounts the close writes to have the kinds it takes them for. */
  ghost predicate IsUsual(chart: Chart) {
    && RETAINED_EARNINGS in chart && chart[RETAINED_EARNINGS] == Equity
    && (DEPRECIATION_EXPENSE in chart ==> chart[DEPRECIATION_EXPENSE] == Expense)
    && (forall c: AssetClass :: AccumCode(c) in chart ==> chart[AccumCode(c)] == Asset)
  }

  /** The check of the diagnostics: assets against liabilities and the three lines of equity. */
  predicate Balances(r: Report) {
    SumWhere(r.rows, CurrentField, OfKindIs(Asset))
    == SumWhere(r.rows, CurrentField, OfKindIs(Liability))
       + SumWhere(r.rows, CurrentField, IsContributed) + r.broughtForward + r.netIncome
  }

  // ---------- sums over the rows ----------

  function Selected(chart: Chart, accounts: seq<string>, p: (Kind, string) -> bool): set<string> {
    set c | c in accounts && c in chart && p(chart[c], c)
  }

  function Column(vouchers: seq<Voucher>, chart: Chart, horizon: int, w: Period, accounts: seq<string>, p: (Kind, string) -> bool): int
    requires forall c :: c in accounts ==> c in chart
  {
    if accounts == [] then 0
    else
      (if p(chart[accounts[0]], accounts[0]) then Figure(vouchers, chart, horizon, w, chart[accounts[0]], {accounts[0]}) else 0)
      + Column(vouchers, chart, horizon, w, accounts[1..], p)
  }

  lemma {:induction false} CurrentColumn(vouchers: seq<Voucher>, chart: Chart, accounts: seq<string>, p: Period,
                                           prior: Option<Period>, q: (Kind, string) -> bool)
    requires forall c :: c in accounts ==> c in chart
    ensures SumWhere(BaseRows(vouchers, chart, accounts, p, prior), CurrentField, q) == Column(vouchers, chart, p.end, p, accounts, q)
  {
    if accounts != [] {
      CurrentColumn(vouchers, chart, accounts[1..], p, prior, q);
      assert BaseRows(vouchers, chart, accounts, p, prior)[1..] == BaseRows(vouchers, chart, accounts[1..], p, prior);
    }
  }

  lemma {:induction false} PriorColumn(vouchers: seq<Voucher>, chart: Chart, accounts: seq<string>, p: Period, prior: Option<Period>, q: (Kind, string) -> bool)
    requires prior.Some? && forall c :: c in accounts ==> c in chart
    ensures SumWhere(BaseRows(vouchers, chart, accounts, p, prior), PriorField, q) == Column(vouchers, chart, p.end, prior.value, accounts, q)
  {
    if accounts != [] {
      PriorColumn(vouchers, chart, accounts[1..], p, prior, q);
      assert BaseRows(vouchers, chart, accounts, p, prior)[1..] == BaseRows(vouchers, chart, accounts[1..], p, prior);
    }
  }

  /** A column of one kind is one figure over all its accounts. */
  lemma {:induction false} ColumnIsOneFigure(vouchers: seq<Voucher>, chart: Chart, horizon: int, w: Period, accounts: seq<string>,
                                             p: (Kind, string) -> bool, k: Kind)
    requires IsDistinct(accounts) && (forall c :: c in accounts ==> c in chart) && (forall kind, code :: p(kind, code) ==> kind == k)
    ensures Column(vouchers, chart, horizon, w, accounts, p) == Figure(vouchers, chart, horizon, w, k, Selected(chart, accounts, p))
  {
    var vs := if IsPnl(k) then TradingIn(vouchers, chart, horizon, w) else PostedUpTo(vouchers, w.end);
    if accounts == [] {
      assert Selected(chart, accounts, p) == {};
      NetOfNone(vs);
    } else {
      var c, rest := accounts[0], accounts[1..];
      ColumnIsOneFigure(vouchers, chart, horizon, w, rest, p, k);
      if p(chart[c], c) {
        assert c !in rest;
        assert Selected(chart, accounts, p) == {c} + Selected(chart, rest, p);
        NetSplits(vs, {c}, Selected(chart, rest, p));
      } else {
        assert Selected(chart, accounts, p) == Selected(chart, rest, p);
      }
    }
  }

  /** The code of a virtual line is on the chart with that kind, or not on it at all. */
  predicate FitsIn(rows: seq<Row>, code: string, kind: Kind) {
    forall r :: r in rows && r.code == code ==> r.kind == kind
  }

  lemma {:induction false} AddToSum(rows: seq<Row>, code: string, kind: Kind, delta: int, p: (Kind, string) -> bool)
    requires FitsIn(rows, code, kind)
    ensures SumWhere(AddTo(rows, code, kind, delta), CurrentField, p)
         == SumWhere(rows, CurrentField, p) + if p(kind, code) then delta else 0
    ensures SumWhere(AddTo(rows, code, kind, delta), PriorField, p) == SumWhere(rows, PriorField, p)
  {
    if rows == [] {
      assert AddTo(rows, code, kind, delta)[1..] == [];
    } else if rows[0].code == code {
      assert AddTo(rows, code, kind, delta)[1..] == rows[1..];
    } else {
      AddToSum(rows[1..], code, kind, delta, p);
      assert AddTo(rows, code, kind, delta)[1..] == AddTo(rows[1..], code, kind, delta);
    }
  }

  lemma {:induction false} AddToFits(rows: seq<Row>, code: string, kind: Kind, delta: int, other: string, otherKind: Kind)
    requires FitsIn(rows, code, kind) && FitsIn(rows, other, otherKind) && (code == other ==> kind == otherKind)
    ensures FitsIn(AddTo(rows, code, kind, delta), other, otherKind)
  {
    if rows != [] && rows[0].code != code {
      AddToFits(rows[1..], code, kind, delta, other, otherKind);
    }
  }

  ghost predicate ClassesFit(rows: seq<Row>) {
    forall c: AssetClass :: FitsIn(rows, AccumCode(c), Asset)
  }

  lemma AddClassFits(rows: seq<Row>, code: string, kind: Kind, delta: int)
    requires ClassesFit(rows) && FitsIn(rows, code, kind)
    requires forall c: AssetClass :: code == AccumCode(c) ==> kind == Asset
    ensures ClassesFit(AddTo(rows, code, kind, delta))
  {
    forall c: AssetClass ensures FitsIn(AddTo(rows, code, kind, delta), AccumCode(c), Asset) {
      AddToFits(rows, code, kind, delta, AccumCode(c), Asset);
    }
  }

  /** A selection takes the contra accounts of all classes, or none. */
  ghost predicate IsUniform(p: (Kind, string) -> bool) {
    forall c: AssetClass :: p(Asset, AccumCode(c)) == p(Asset, AccumCode(Vehicle))
  }

  lemma UniformAt(p: (Kind, string) -> bool, c: AssetClass)
    requires IsUniform(p)
    ensures p(Asset, AccumCode(c)) == p(Asset, AccumCode(Vehicle))
  {}

  lemma ClassFits(rows: seq<Row>, c: AssetClass)
    requires ClassesFit(rows)
    ensures FitsIn(rows, AccumCode(c), Asset)
  {}

  /** The rows once one class is credited. */
  function Credited(rows: seq<Row>, charge: ClassCharge): seq<Row> {
    AddTo(rows, AccumCode(charge.assetClass), Asset, -charge.amount)
  }

  lemma CreditOneSum(rows: seq<Row>, charge: ClassCharge, p: (Kind, string) -> bool)
    requires FitsIn(rows, AccumCode(charge.assetClass), Asset)
    requires p(Asset, AccumCode(charge.assetClass)) == p(Asset, AccumCode(Vehicle))
    ensures SumWhere(Credited(rows, charge), CurrentField, p)
         == SumWhere(rows, CurrentField, p) - (if p(Asset, AccumCode(Vehicle)) then charge.amount else 0)
    ensures SumWhere(Credited(rows, charge), PriorField, p) == SumWhere(rows, PriorField, p)
  {
    AddToSum(rows, AccumCode(charge.assetClass), Asset, -charge.amount, p);
  }

  lemma CreditedFits(rows: seq<Row>, charge: ClassCharge)
    requires ClassesFit(rows)
    ensures ClassesFit(Credited(rows, charge))
  {
    ClassFits(rows, charge.assetClass);
    AddClassFits(rows, AccumCode(charge.assetClass), Asset, -charge.amount);
  }

  lemma {:induction false} CreditSum(rows: seq<Row>, charges: seq<ClassCharge>, p: (Kind, string) -> bool)
    requires ClassesFit(rows) && IsUniform(p)
    ensures SumWhere(CreditClasses(rows, charges), CurrentField, p)
         == SumWhere(rows, CurrentField, p) - if p(Asset, AccumCode(Vehicle)) then TotalCharge(charges) else 0
    ensures SumWhere(CreditClasses(rows, charges), PriorField, p) == SumWhere(rows, PriorField, p)
    decreases |charges|
  {
    if charges != [] {
      UniformAt(p, charges[0].assetClass);
      ClassFits(rows, charges[0].assetClass);
      CreditOneSum(rows, charges[0], p);
      CreditedFits(rows, charges[0]);
      CreditSum(Credited(rows, charges[0]), charges[1..], p);
    }
  }

  lemma VirtualSum(rows: seq<Row>, charges: seq<ClassCharge>, p: (Kind, string) -> bool)
    requires ClassesFit(rows) && FitsIn(rows, DEPRECIATION_EXPENSE, Expense)
    requires IsUniform(p)
    ensures SumWhere(WithVirtual(rows, charges), CurrentField, p)
         == SumWhere(rows, CurrentField, p)
            + (if p(Expense, DEPRECIATION_EXPENSE) then TotalCharge(charges) else 0)
            - (if p(Asset, AccumCode(Vehicle)) then TotalCharge(charges) else 0)
    ensures SumWhere(WithVirtual(rows, charges), PriorField, p) == SumWhere(rows, PriorField, p)
  {
    var t := TotalCharge(charges);
    if t != 0 {
      AddToSum(rows, DEPRECIATION_EXPENSE, Expense, t, p);
      var rows' := AddTo(rows, DEPRECIATION_EXPENSE, Expense, t);
      AddClassFits(rows, DEPRECIATION_EXPENSE, Expense, t);
      CreditSum(rows', charges, p);
    }
  }

  lemma BaseRowsFit(vouchers: seq<Voucher>, chart: Chart, accounts: seq<string>, p: Period, prior: Option<Period>)
    requires Enumerates(accounts, chart) && IsUsual(chart)
    ensures ClassesFit(BaseRows(vouchers, chart, accounts, p, prior))
    ensures FitsIn(BaseRows(vouchers, chart, accounts, p, prior), DEPRECIATION_EXPENSE, Expense)
  {
    var rows := BaseRows(vouchers, chart, accounts, p, prior);
    forall r | r in rows ensures r.code in chart && r.kind == chart[r.code] {
      var i :| 0 <= i < |rows| && rows[i] == r;
      assert r == BaseRow(vouchers, chart, p, prior, accounts[i]);
    }
  }

  /** The sum of one kind, or a part of it, over the assembled rows. */
  lemma AssembledSum(vouchers: seq<Voucher>, chart: Chart, accounts: seq<string>, p: Period, prior: Option<Period>,
                     charges: seq<ClassCharge>, q: (Kind, string) -> bool, k: Kind)
    requires Enumerates(accounts, chart) && IsUsual(chart)
    requires forall kind, code :: q(kind, code) ==> kind == k
    requires IsUniform(q)
    ensures var rows := WithVirtual(BaseRows(vouchers, chart, accounts, p, prior), charges);
            && SumWhere(rows, CurrentField, q)
               == Figure(vouchers, chart, p.end, p, k, Selected(chart, accounts, q))
                  + (if q(Expense, DEPRECIATION_EXPENSE) then TotalCharge(charges) else 0)
                  - (if q(Asset, AccumCode(Vehicle)) then TotalCharge(charges) else 0)
            && (prior.Some? ==> SumWhere(rows, PriorField, q) == Figure(vouchers, chart, p.end, prior.value, k, Selected(chart, accounts, q)))
  {
    BaseRowsFit(vouchers, chart, accounts, p, prior);
    VirtualSum(BaseRows(vouchers, chart, accounts, p, prior), charges, q);
    CurrentColumn(vouchers, chart, accounts, p, prior, q);
    ColumnIsOneFigure(vouchers, chart, p.end, p, accounts, q, k);
    if prior.Some? {
      PriorColumn(vouchers, chart, accounts, p, prior, q);
      ColumnIsOneFigure(vouchers, chart, p.end, prior.value, accounts, q, k);
    }
  }
}
