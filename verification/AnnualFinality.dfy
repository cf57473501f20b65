/** The draft shows what the final report will, and closing twice is closing once
    (`annual-accounts.service.ts`). */
module AnnualFinality {
  import opened Wrappers
  import opened Ledger
  import opened AnnualReport
  import opened AnnualProofs
  import opened AnnualClose

  /** A year that is not blocked, and an id for the voucher of its close. */
  ghost predicate MayClose(b: Books, p: Period, register: seq<RegisterRow>, id: nat) {
    AreSound(b) && IsAttributed(b, p) && IsRegister(register) && IsFreshId(b, id) && p.start <= p.end
  }

  /** The books with the voucher of the close and its attribution. */
  function Extended(b: Books, p: Period, register: seq<RegisterRow>, id: nat): Books {
    var charges, shares := Charges(b, p, register), ByAsset(b, p, register);
    Books(b.vouchers + [CloseVoucher(p, charges, id)], b.attribution + AttributionRows(shares, shares, charges, id))
  }

  lemma TotalsReconcile(b: Books, p: Period, register: seq<RegisterRow>, id: nat)
    requires MayClose(b, p, register, id)
    ensures forall c :: ClassTotal(ByAsset(b, p, register), c) == Posted(Charges(b, p, register), c)
  {
    forall c ensures ClassTotal(ByAsset(b, p, register), c) == Posted(Charges(b, p, register), c) {
      UnpostedIsTheTotal(b, p, register, c);
      PostedIsUnposted(b, p, register, c);
    }
  }

  // ---------- nothing is left ----------

  lemma OneMorePosted(vouchers: seq<Voucher>, v: Voucher, id: nat, to: int)
    requires forall w :: w in vouchers ==> w.id != v.id
    ensures IsPostedBy(vouchers + [v], id, to) <==> if id == v.id then v.posted && v.date <= to else IsPostedBy(vouchers, id, to)
  {
    assert forall w :: w in vouchers + [v] <==> w in vouchers || w == v;
  }

  lemma AttributedAfter(b: Books, p: Period, register: seq<RegisterRow>, id: nat, assetId: nat, to: int)
    requires MayClose(b, p, register, id)
    ensures AttributedUpTo(Extended(b, p, register, id), assetId, to)
         == AttributedUpTo(b, assetId, to) + if p.end <= to then ShareOf(ByAsset(b, p, register), assetId) else 0
  {
    var charges, shares := Charges(b, p, register), ByAsset(b, p, register);
    var v := CloseVoucher(p, charges, id);
    var vs := b.vouchers + [v];
    TotalsReconcile(b, p, register, id);
    SumAppend(b.attribution, AttributionRows(shares, shares, charges, id), OfAsset(vs, assetId, to));
    forall a | a in b.attribution ensures OfAsset(vs, assetId, to)(a) == OfAsset(b.vouchers, assetId, to)(a) {
      OneMorePosted(b.vouchers, v, a.voucherId, to);
    }
    SumSameRows(b.attribution, OfAsset(vs, assetId, to), OfAsset(b.vouchers, assetId, to));
    RowsPerAsset(shares, shares, charges, id, vs, assetId, to);
    OneMorePosted(b.vouchers, v, id, to);
  }

  lemma NothingRemains(b: Books, p: Period, register: seq<RegisterRow>, id: nat, k: nat)
    requires MayClose(b, p, register, id) && k < |register|
    ensures Remaining(Extended(b, p, register, id), p, register[k]) == 0
  {
    ShareIsTheRemainder(b, p, register, k);
    AttributedAfter(b, p, register, id, register[k].id, p.end);
    AttributedAfter(b, p, register, id, register[k].id, p.start - 1);
  }

  lemma {:induction false} NoSharesWhenNothingRemains(b: Books, p: Period, register: seq<RegisterRow>)
    requires forall a :: a in register ==> Remaining(b, p, a) == 0
    ensures ByAsset(b, p, register) == []
  {
    if register != [] { NoSharesWhenNothingRemains(b, p, register[1..]); }
  }

  lemma {:induction false} NoChargesWithoutShares(b: Books, p: Period, register: seq<RegisterRow>, classes: seq<AssetClass>)
    requires ByAsset(b, p, register) == []
    ensures ChargesFor(b, p, register, classes) == []
  {
    if classes != [] { NoChargesWithoutShares(b, p, register, classes[1..]); }
  }

  /** After the close nothing is left to post, for any asset or any class. */
  lemma NothingIsLeft(b: Books, p: Period, register: seq<RegisterRow>, id: nat)
    requires MayClose(b, p, register, id)
    ensures ByAsset(Extended(b, p, register, id), p, register) == []
    ensures Charges(Extended(b, p, register, id), p, register) == []
  {
    var b' := Extended(b, p, register, id);
    forall a | a in register ensures Remaining(b', p, a) == 0 {
      var k :| 0 <= k < |register| && register[k] == a;
      NothingRemains(b, p, register, id, k);
    }
    NoSharesWhenNothingRemains(b', p, register);
    NoChargesWithoutShares(b', p, register, CLASSES);
  }

  // ---------- the year stays unblocked ----------

  lemma AttributedToOthers(b: Books, p: Period, register: seq<RegisterRow>, id: nat, other: nat, c: AssetClass)
    requires MayClose(b, p, register, id) && other != id
    ensures AttributedTo(Extended(b, p, register, id), other, c) == AttributedTo(b, other, c)
  {
    var charges, shares := Charges(b, p, register), ByAsset(b, p, register);
    var rows := AttributionRows(shares, shares, charges, id);
    TotalsReconcile(b, p, register, id);
    SumAppend(b.attribution, rows, OfVoucher(other, c));
    AllSharesAttributed(shares, shares, charges, id);
    SumOfNone(rows, OfVoucher(other, c));
  }

  lemma AttributedToTheClose(b: Books, p: Period, register: seq<RegisterRow>, id: nat, c: AssetClass)
    requires MayClose(b, p, register, id)
    ensures AttributedTo(Extended(b, p, register, id), id, c) == Movement(CloseVoucher(p, Charges(b, p, register), id), c)
  {
    var charges, shares := Charges(b, p, register), ByAsset(b, p, register);
    TotalsReconcile(b, p, register, id);
    SumAppend(b.attribution, AttributionRows(shares, shares, charges, id), OfVoucher(id, c));
    SumOfNone(b.attribution, OfVoucher(id, c));
    RowsPerClass(shares, shares, charges, id, c);
    CloseMovement(p, charges, id, c);
  }

  lemma StaysAttributed(b: Books, p: Period, register: seq<RegisterRow>, id: nat)
    requires MayClose(b, p, register, id)
    ensures AreSound(Extended(b, p, register, id)) && IsAttributed(Extended(b, p, register, id), p)
  {
    var b' := Extended(b, p, register, id);
    forall v, c: AssetClass | v in b'.vouchers
      ensures Movement(v, c) == 0 ==> AttributedTo(b', v.id, c) == 0
      ensures IsPosted(v, p.start, p.end) ==> Movement(v, c) == 0 || Movement(v, c) == AttributedTo(b', v.id, c)
    {
      if v in b.vouchers {
        AttributedToOthers(b, p, register, id, v.id, c);
        assert c in CLASSES;
      } else {
        AttributedToTheClose(b, p, register, id, c);
      }
    }
  }

  // ---------- the same report ----------

  predicate HaveDistinctCodes(rows: seq<Row>) {
    forall i, j :: 0 <= i < j < |rows| ==> rows[i].code != rows[j].code
  }

  predicate HasCode(rows: seq<Row>, code: string) {
    exists r :: r in rows && r.code == code
  }

  /** `b` is `a` with `net(code)` added to each current figure. */
  predicate IsShifted(a: seq<Row>, b: seq<Row>, lines: seq<Line>) {
    && |a| == |b|
    && forall i :: 0 <= i < |a| ==> b[i] == a[i].(current := a[i].current + LineNet(lines, {a[i].code}))
  }

  lemma {:induction false} AddToShifts(rows: seq<Row>, code: string, kind: Kind, isDebit: bool, amount: int)
    requires HaveDistinctCodes(rows) && HasCode(rows, code)
    ensures IsShifted(rows, AddTo(rows, code, kind, if isDebit then amount else -amount), [Line(code, isDebit, amount)])
  {
    var delta := if isDebit then amount else -amount;
    var line := [Line(code, isDebit, amount)];
    forall other ensures LineNet(line, {other}) == if other == code then delta else 0 { assert line[1..] == []; }
    if rows[0].code != code {
      AddToShifts(rows[1..], code, kind, isDebit, amount);
    } else {
      forall i | 1 <= i < |rows| ensures rows[i].code != code {}
    }
  }

  lemma ShiftsCompose(a: seq<Row>, b: seq<Row>, c: seq<Row>, first: Line, rest: seq<Line>)
    requires IsShifted(a, b, [first]) && IsShifted(b, c, rest)
    ensures IsShifted(a, c, [first] + rest)
  {
    forall i | 0 <= i < |a| ensures c[i] == a[i].(current := a[i].current + LineNet([first] + rest, {a[i].code})) {
      LineNetCons(first, rest, {a[i].code});
      assert b[i].code == a[i].code;
    }
  }

  lemma LineNetCons(first: Line, rest: seq<Line>, codes: set<string>)
    ensures LineNet([first] + rest, codes) == LineNet([first], codes) + LineNet(rest, codes)
  {
    assert ([first] + rest)[1..] == rest;
    assert [first][1..] == [];
  }

  lemma ShiftKeepsCodes(a: seq<Row>, b: seq<Row>, lines: seq<Line>)
    requires IsShifted(a, b, lines) && HaveDistinctCodes(a)
    ensures HaveDistinctCodes(b) && forall code :: HasCode(a, code) ==> HasCode(b, code)
  {
    forall code | HasCode(a, code) ensures HasCode(b, code) {
      var r :| r in a && r.code == code;
      var i :| 0 <= i < |a| && a[i] == r;
      assert b[i] in b && b[i].code == code;
    }
  }

  lemma ShiftByNothing(rows: seq<Row>)
    ensures IsShifted(rows, rows, [])
  {}

  predicate HasCodes(rows: seq<Row>, lines: seq<Line>) {
    forall l :: l in lines ==> HasCode(rows, l.code)
  }

  lemma ShiftKeepsLines(a: seq<Row>, b: seq<Row>, lines: seq<Line>, others: seq<Line>)
    requires IsShifted(a, b, lines) && HaveDistinctCodes(a) && HasCodes(a, others)
    ensures HaveDistinctCodes(b) && HasCodes(b, others)
  {
    ShiftKeepsCodes(a, b, lines);
  }

  lemma {:induction false} CreditShifts(rows: seq<Row>, charges: seq<ClassCharge>)
    requires HaveDistinctCodes(rows) && HasCodes(rows, CreditLines(charges))
    ensures IsShifted(rows, CreditClasses(rows, charges), CreditLines(charges))
    decreases |charges|
  {
    if charges == [] {
      ShiftByNothing(rows);
    } else {
      CreditOne(rows, charges);
      CreditShifts(AfterFirst(rows, charges), charges[1..]);
      CreditRest(rows, charges);
    }
  }

  /** The rows once the first charge is credited. */
  function AfterFirst(rows: seq<Row>, charges: seq<ClassCharge>): seq<Row>
    requires charges != []
  {
    AddTo(rows, AccumCode(charges[0].assetClass), Asset, -charges[0].amount)
  }

  lemma CreditRest(rows: seq<Row>, charges: seq<ClassCharge>)
    requires charges != []
    requires IsShifted(rows, AfterFirst(rows, charges), [Line(AccumCode(charges[0].assetClass), false, charges[0].amount)])
    requires IsShifted(AfterFirst(rows, charges), CreditClasses(AfterFirst(rows, charges), charges[1..]), CreditLines(charges[1..]))
    ensures IsShifted(rows, CreditClasses(rows, charges), CreditLines(charges))
  {
    var rows' := AfterFirst(rows, charges);
    var line := Line(AccumCode(charges[0].assetClass), false, charges[0].amount);
    ShiftsCompose(rows, rows', CreditClasses(rows', charges[1..]), line, CreditLines(charges[1..]));
  }

  lemma TailCodes(rows: seq<Row>, lines: seq<Line>)
    requires lines != [] && HasCodes(rows, lines)
    ensures HasCodes(rows, lines[1..])
  {
    forall l | l in lines[1..] ensures HasCode(rows, l.code) { assert l in lines; }
  }

  lemma FirstCredit(charges: seq<ClassCharge>)
    requires charges != []
    ensures CreditLines(charges) == [Line(AccumCode(charges[0].assetClass), false, charges[0].amount)] + CreditLines(charges[1..])
  {}

  lemma CreditOne(rows: seq<Row>, charges: seq<ClassCharge>)
    requires charges != [] && HaveDistinctCodes(rows) && HasCodes(rows, CreditLines(charges))
    ensures var line := Line(AccumCode(charges[0].assetClass), false, charges[0].amount);
            && CreditLines(charges) == [line] + CreditLines(charges[1..])
            && var rows' := AfterFirst(rows, charges);
            && HaveDistinctCodes(rows') && HasCodes(rows', CreditLines(charges[1..]))
            && IsShifted(rows, rows', [line])
  {
    var line := Line(AccumCode(charges[0].assetClass), false, charges[0].amount);
    var rest := CreditLines(charges[1..]);
    FirstCredit(charges);
    CreditOneLine(rows, line, rest);
  }

  lemma CreditOneLine(rows: seq<Row>, line: Line, rest: seq<Line>)
    requires HaveDistinctCodes(rows) && HasCodes(rows, [line] + rest) && !line.isDebit
    ensures var rows' := AddTo(rows, line.code, Asset, -line.amount);
            HaveDistinctCodes(rows') && HasCodes(rows', rest) && IsShifted(rows, rows', [line])
  {
    assert line in [line] + rest;
    assert ([line] + rest)[1..] == rest;
    TailCodes(rows, [line] + rest);
    AddToShifts(rows, line.code, Asset, false, line.amount);
    ShiftKeepsLines(rows, AddTo(rows, line.code, Asset, -line.amount), [line], rest);
  }

  /** Folding the charge in virtually adds to each row what the close voucher would. */
  lemma VirtualShifts(rows: seq<Row>, p: Period, charges: seq<ClassCharge>, id: nat)
    requires HaveDistinctCodes(rows) && TotalCharge(charges) != 0 && HasCodes(rows, CloseVoucher(p, charges, id).lines)
    ensures IsShifted(rows, WithVirtual(rows, charges), CloseVoucher(p, charges, id).lines)
  {
    var t := TotalCharge(charges);
    var line := Line(DEPRECIATION_EXPENSE, true, t);
    assert line in CloseVoucher(p, charges, id).lines;
    assert CloseVoucher(p, charges, id).lines[1..] == CreditLines(charges);
    TailCodes(rows, CloseVoucher(p, charges, id).lines);
    AddToShifts(rows, DEPRECIATION_EXPENSE, Expense, true, t);
    var rows' := AddTo(rows, DEPRECIATION_EXPENSE, Expense, t);
    ShiftKeepsLines(rows, rows', [line], CreditLines(charges));
    CreditShifts(rows', charges);
    ShiftsCompose(rows, rows', CreditClasses(rows', charges), line, CreditLines(charges));
  }

  lemma CloseIsNoTransfer(b: Books, p: Period, charges: seq<ClassCharge>, id: nat, chart: Chart, horizon: int)
    ensures !IsRecognised(b.vouchers + [CloseVoucher(p, charges, id)], chart, horizon, CloseVoucher(p, charges, id))
  {}

  lemma {:induction false} CloseLinesAreUsual(charges: seq<ClassCharge>, l: Line)
    requires l in CreditLines(charges)
    ensures exists c: AssetClass :: l.code == AccumCode(c)
  {
    if l != CreditLines(charges)[0] {
      assert l in CreditLines(charges[1..]);
      CloseLinesAreUsual(charges[1..], l);
    }
  }

  /** The close touches one expense and contra-asset accounts, so debits count as they stand. */
  lemma CloseSide(chart: Chart, p: Period, charges: seq<ClassCharge>, id: nat, code: string)
    requires IsUsual(chart) && code in chart
    ensures var net := LineNet(CloseVoucher(p, charges, id).lines, {code}); NormalSide(chart[code], net) == net
  {
    var lines := CloseVoucher(p, charges, id).lines;
    if forall l :: l in lines ==> l.code != code {
      LineNetOfOthers(lines, {code});
    } else {
      var l :| l in lines && l.code == code;
      if l != lines[0] {
        assert lines[1..] == CreditLines(charges);
        CloseLinesAreUsual(charges, l);
      }
    }
  }

  /** Booked, the charge adds to each account what its line says. */
  lemma BookedRow(b: Books, p: Period, prior: Option<Period>, charges: seq<ClassCharge>, id: nat, chart: Chart, code: string)
    requires IsUsual(chart) && code in chart && IsFreshId(b, id) && p.start <= p.end && (prior.Some? ==> prior.value.end < p.start)
    ensures var v := CloseVoucher(p, charges, id); var r := BaseRow(b.vouchers, chart, p, prior, code);
            BaseRow(b.vouchers + [v], chart, p, prior, code) == r.(current := r.current + LineNet(v.lines, {code}))
  {
    BookedFigure(b, p, charges, id, chart, p, code);
    if prior.Some? { BookedFigure(b, p, charges, id, chart, prior.value, code); }
  }

  lemma BookedFigure(b: Books, p: Period, charges: seq<ClassCharge>, id: nat, chart: Chart, w: Period, code: string)
    requires IsUsual(chart) && code in chart && IsFreshId(b, id) && (w.end < p.end || w == p) && p.start <= p.end
    ensures var v := CloseVoucher(p, charges, id); var k := chart[code];
            Figure(b.vouchers + [v], chart, p.end, w, k, {code})
            == Figure(b.vouchers, chart, p.end, w, k, {code}) + if w == p then LineNet(v.lines, {code}) else 0
  {
    var v := CloseVoucher(p, charges, id);
    CloseIsNoTransfer(b, p, charges, id, chart, p.end);
    CloseSide(chart, p, charges, id, code);
    TradingOfOneMore(b.vouchers, v, chart, p.end, w, {code});
    BalanceOfOneMore(b.vouchers, v, w.end, {code});
  }

  lemma BookedRows(b: Books, p: Period, prior: Option<Period>, charges: seq<ClassCharge>, id: nat, chart: Chart, accounts: seq<string>)
    requires Enumerates(accounts, chart) && IsUsual(chart) && IsFreshId(b, id) && p.start <= p.end
    requires prior.Some? ==> prior.value.end < p.start
    ensures IsShifted(BaseRows(b.vouchers, chart, accounts, p, prior),
                      BaseRows(b.vouchers + [CloseVoucher(p, charges, id)], chart, accounts, p, prior), CloseVoucher(p, charges, id).lines)
  {
    forall i | 0 <= i < |accounts|
      ensures var v := CloseVoucher(p, charges, id); var r := BaseRow(b.vouchers, chart, p, prior, accounts[i]);
              BaseRow(b.vouchers + [v], chart, p, prior, accounts[i]) == r.(current := r.current + LineNet(v.lines, {r.code}))
    {
      BookedRow(b, p, prior, charges, id, chart, accounts[i]);
    }
  }

  lemma BaseRowCodes(vouchers: seq<Voucher>, chart: Chart, accounts: seq<string>, p: Period, prior: Option<Period>)
    requires Enumerates(accounts, chart)
    ensures HaveDistinctCodes(BaseRows(vouchers, chart, accounts, p, prior))
    ensures forall code :: code in chart ==> HasCode(BaseRows(vouchers, chart, accounts, p, prior), code)
  {
    var rows := BaseRows(vouchers, chart, accounts, p, prior);
    forall code | code in chart ensures HasCode(rows, code) {
      var i :| 0 <= i < |accounts| && accounts[i] == code;
      assert rows[i] in rows;
    }
  }

  lemma SameShift(a: seq<Row>, b: seq<Row>, c: seq<Row>, lines: seq<Line>)
    requires IsShifted(a, b, lines) && IsShifted(a, c, lines)
    ensures b == c
  {}

  lemma TransfersWithoutTheClose(b: Books, p: Period, charges: seq<ClassCharge>, id: nat, chart: Chart, w: Period)
    requires IsFreshId(b, id)
    ensures TransferResult(b.vouchers + [CloseVoucher(p, charges, id)], chart, p.end, w) == TransferResult(b.vouchers, chart, p.end, w)
  {
    CloseIsNoTransfer(b, p, charges, id, chart, p.end);
    TransfersOfOneMore(b.vouchers, CloseVoucher(p, charges, id), chart, p.end, w, Pnl(chart));
  }

  lemma ResultBeforeWithoutTheClose(b: Books, p: Period, charges: seq<ClassCharge>, id: nat, chart: Chart, start: int)
    requires start <= p.end
    ensures CumulativeResultBefore(b.vouchers + [CloseVoucher(p, charges, id)], chart, start) == CumulativeResultBefore(b.vouchers, chart, start)
  {
    BalanceOfOneMore(b.vouchers, CloseVoucher(p, charges, id), start - 1, Pnl(chart));
  }

  /** Beside its rows, a column reads the result before it and the transfers in it. */
  lemma SameBroughtForward(rows: seq<Row>, f: Field, a: seq<Voucher>, b: seq<Voucher>, chart: Chart, horizon: int, w: Period)
    requires CumulativeResultBefore(a, chart, w.start) == CumulativeResultBefore(b, chart, w.start)
    requires TransferResult(a, chart, horizon, w) == TransferResult(b, chart, horizon, w)
    ensures BroughtForward(rows, f, a, chart, horizon, w) == BroughtForward(rows, f, b, chart, horizon, w)
  {}

  lemma ClosedBroughtForward(rows: seq<Row>, f: Field, b: Books, p: Period, charges: seq<ClassCharge>, id: nat, chart: Chart, w: Period)
    requires IsFreshId(b, id) && w.start <= p.end
    ensures BroughtForward(rows, f, b.vouchers + [CloseVoucher(p, charges, id)], chart, p.end, w)
         == BroughtForward(rows, f, b.vouchers, chart, p.end, w)
  {
    TransfersWithoutTheClose(b, p, charges, id, chart, w);
    ResultBeforeWithoutTheClose(b, p, charges, id, chart, w.start);
    SameBroughtForward(rows, f, b.vouchers + [CloseVoucher(p, charges, id)], b.vouchers, chart, p.end, w);
  }

  /** Booked or virtual, the charge gives the same rows. */
  lemma BookedRowsAreTheDraft(b: Books, p: Period, prior: Option<Period>, charges: seq<ClassCharge>, id: nat, chart: Chart, accounts: seq<string>)
    requires Enumerates(accounts, chart) && IsUsual(chart) && IsFreshId(b, id) && p.start <= p.end
    requires prior.Some? ==> prior.value.end < p.start
    requires TotalCharge(charges) != 0 && forall l :: l in CloseVoucher(p, charges, id).lines ==> l.code in chart
    ensures BaseRows(b.vouchers + [CloseVoucher(p, charges, id)], chart, accounts, p, prior)
         == WithVirtual(BaseRows(b.vouchers, chart, accounts, p, prior), charges)
  {
    var v := CloseVoucher(p, charges, id);
    var rows := BaseRows(b.vouchers, chart, accounts, p, prior);
    BaseRowCodes(b.vouchers, chart, accounts, p, prior);
    VirtualShifts(rows, p, charges, id);
    BookedRows(b, p, prior, charges, id, chart, accounts);
    SameShift(rows, WithVirtual(rows, charges), BaseRows(b.vouchers + [v], chart, accounts, p, prior), v.lines);
  }

  /** Booked or virtual, the charge gives one report. */
  lemma BookedReportIsTheDraft(b: Books, p: Period, prior: Option<Period>, charges: seq<ClassCharge>, id: nat, chart: Chart, accounts: seq<string>)
    requires Enumerates(accounts, chart) && IsUsual(chart) && IsFreshId(b, id) && p.start <= p.end
    requires prior.Some? ==> prior.value.start <= prior.value.end < p.start
    requires TotalCharge(charges) != 0 && forall l :: l in CloseVoucher(p, charges, id).lines ==> l.code in chart
    ensures Assemble(b.vouchers + [CloseVoucher(p, charges, id)], chart, accounts, p, prior, [])
         == Assemble(b.vouchers, chart, accounts, p, prior, charges)
  {
    var rows := WithVirtual(BaseRows(b.vouchers, chart, accounts, p, prior), charges);
    BookedRowsAreTheDraft(b, p, prior, charges, id, chart, accounts);
    ClosedBroughtForward(rows, CurrentField, b, p, charges, id, chart, p);
    if prior.Some? { ClosedBroughtForward(rows, PriorField, b, p, charges, id, chart, prior.value); }
  }
}
