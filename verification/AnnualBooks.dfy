/** Drafting and finalizing a year over the books (`annual-accounts.service.ts`). */
module AnnualBooks {
  import opened Wrappers
  import opened Ledger
  import opened AnnualReport
  import opened AnnualProofs
  import opened AnnualClose
  import opened AnnualFinality
  import opened AnnualAssembly

  /** The report of the period, with whatever is still unposted folded in. */
  function FullReport(b: Books, chart: Chart, accounts: seq<string>, p: Period, prior: Option<Period>, register: seq<RegisterRow>): Report
    requires Enumerates(accounts, chart)
  {
    Assemble(b.vouchers, chart, accounts, p, prior, Charges(b, p, register))
  }

  /** Posting refuses an account the chart does not have. */
  ghost predicate HasCloseAccounts(chart: Chart) {
    DEPRECIATION_EXPENSE in chart && forall c: AssetClass :: AccumCode(c) in chart
  }

  ghost predicate ArePeriods(p: Period, prior: Option<Period>) {
    p.start <= p.end && (prior.Some? ==> prior.value.start <= prior.value.end < p.start)
  }

  // ---------- draft and final ----------

  lemma {:induction false} ChargesArePositive(b: Books, p: Period, register: seq<RegisterRow>, classes: seq<AssetClass>)
    ensures TotalCharge(ChargesFor(b, p, register, classes)) >= |ChargesFor(b, p, register, classes)|
  {
    if classes != [] {
      var rest := ChargesFor(b, p, register, classes[1..]);
      ChargesArePositive(b, p, register, classes[1..]);
      if Unposted(b, p, register, classes[0]) > 0 {
        assert ChargesFor(b, p, register, classes)[1..] == rest;
      } else {
        assert ChargesFor(b, p, register, classes) == rest;
      }
    }
  }

  lemma CloseLinesOnChart(chart: Chart, p: Period, charges: seq<ClassCharge>, id: nat)
    requires HasCloseAccounts(chart)
    ensures forall l :: l in CloseVoucher(p, charges, id).lines ==> l.code in chart
  {
    forall l | l in CloseVoucher(p, charges, id).lines ensures l.code in chart {
      if l in CreditLines(charges) { CloseLinesAreUsual(charges, l); }
    }
  }

  /** `after` reports what `before` drafted, and leaves nothing to post. */
  ghost predicate IsFinal(before: Books, after: Books, chart: Chart, accounts: seq<string>, p: Period, prior: Option<Period>, register: seq<RegisterRow>)
    requires Enumerates(accounts, chart)
  {
    && FullReport(after, chart, accounts, p, prior, register) == FullReport(before, chart, accounts, p, prior, register)
    && Charges(after, p, register) == []
  }

  /** Draft equals final. In a year that is not blocked: after the close has posted, the report
      has the same rows and the same figures as the draft before it, nothing is left to post, and
      the year is still not blocked. */
  lemma CloseIsFinal(b: Books, chart: Chart, accounts: seq<string>, p: Period, prior: Option<Period>, register: seq<RegisterRow>, id: nat)
    requires Enumerates(accounts, chart) && IsUsual(chart) && HasCloseAccounts(chart) && ArePeriods(p, prior)
    requires MayClose(b, p, register, id)
    ensures IsFinal(b, Close(b, p, register, id), chart, accounts, p, prior, register)
    ensures AreSound(Close(b, p, register, id)) && IsAttributed(Close(b, p, register, id), p)
  {
    var charges := Charges(b, p, register);
    if TotalCharge(charges) == 0 {
      ChargesArePositive(b, p, register, CLASSES);
      assert charges == [];
    } else {
      NothingIsLeft(b, p, register, id);
      StaysAttributed(b, p, register, id);
      CloseLinesOnChart(chart, p, charges, id);
      BookedReportIsTheDraft(b, p, prior, charges, id, chart, accounts);
      assert Close(b, p, register, id) == Extended(b, p, register, id);
    }
  }

  /** The close is idempotent: a retry, under any id, posts nothing. */
  lemma ClosingAgainPostsNothing(b: Books, chart: Chart, accounts: seq<string>, p: Period, prior: Option<Period>,
                                 register: seq<RegisterRow>, id: nat, again: nat)
    requires Enumerates(accounts, chart) && IsUsual(chart) && HasCloseAccounts(chart) && ArePeriods(p, prior)
    requires MayClose(b, p, register, id)
    ensures Close(Close(b, p, register, id), p, register, again) == Close(b, p, register, id)
  {
    CloseIsFinal(b, chart, accounts, p, prior, register, id);
  }

  lemma NothingUnposted(b: Books, p: Period, register: seq<RegisterRow>, c: AssetClass)
    requires TotalCharge(Charges(b, p, register)) == 0
    ensures Unposted(b, p, register, c) == 0
  {
    ChargesArePositive(b, p, register, CLASSES);
    PostedIsUnposted(b, p, register, c);
  }

  lemma NothingRemainsOfOne(b: Books, p: Period, left: seq<RegisterRow>, a: RegisterRow, right: seq<RegisterRow>)
    requires AreSound(b) && IsAttributed(b, p) && Unposted(b, p, left + [a] + right, a.assetClass) == 0
    ensures Remaining(b, p, a) == 0
  {
    OverchargeIsNotShared(b, p, left, a, right, a.assetClass);
  }

  lemma NothingToCharge(b: Books, p: Period, register: seq<RegisterRow>, k: nat)
    requires AreSound(b) && IsAttributed(b, p) && k < |register| && TotalCharge(Charges(b, p, register)) == 0
    ensures Remaining(b, p, register[k]) == 0
  {
    NothingUnposted(b, p, register, register[k].assetClass);
    assert register == register[..k] + [register[k]] + register[k + 1..];
    NothingRemainsOfOne(b, p, register[..k], register[k], register[k + 1..]);
  }

  /** The close books every asset up to its own charge: afterwards the year carries the charge of
      each asset that is not retired, or what it carried before where that was more. */
  lemma EachAssetIsCharged(b: Books, p: Period, register: seq<RegisterRow>, id: nat, k: nat)
    requires MayClose(b, p, register, id) && k < |register|
    ensures var a := register[k];
            AttributedInPeriod(Close(b, p, register, id), a.id, p)
            == if a.retired then AttributedInPeriod(b, a.id, p) else Max(a.charge, AttributedInPeriod(b, a.id, p))
  {
    if TotalCharge(Charges(b, p, register)) == 0 {
      NothingToCharge(b, p, register, k);
    } else {
      ShareIsTheRemainder(b, p, register, k);
      AttributedAfter(b, p, register, id, register[k].id, p.end);
      AttributedAfter(b, p, register, id, register[k].id, p.start - 1);
    }
  }

  lemma FreshHasNothing(b: Books, id: nat, c: AssetClass)
    requires IsFreshId(b, id)
    ensures c in CLASSES && AttributedTo(b, id, c) == 0
  {
    assert c in CLASSES;
    SumOfNone(b.attribution, OfVoucher(id, c));
  }

  /** A movement that nothing is attributed to blocks the year it is posted in, and only that. */
  lemma UnattributedMovementBlocks(b: Books, v: Voucher, p: Period)
    requires AreSound(b) && IsFreshId(b, v.id)
    ensures IsAttributed(Books([], []), p)
    ensures IsAttributed(Books(b.vouchers + [v], b.attribution), p)
            <==> IsAttributed(b, p) && (IsPosted(v, p.start, p.end) ==> forall c: AssetClass :: Movement(v, c) == 0)
  {
    var b' := Books(b.vouchers + [v], b.attribution);
    forall c: AssetClass ensures c in CLASSES && AttributedTo(b', v.id, c) == 0 {
      FreshHasNothing(b, v.id, c);
    }
    forall w, c: AssetClass ensures AttributedTo(b', w, c) == AttributedTo(b, w, c) {}
    assert forall w :: w in b'.vouchers <==> w in b.vouchers || w == v;
  }

  lemma {:induction false} CreditsTotal(chart: Chart, charges: seq<ClassCharge>)
    requires HasCloseAccounts(chart)
    ensures LineNet(CreditLines(charges), chart.Keys) == -TotalCharge(charges)
  {
    if charges != [] {
      CreditsTotal(chart, charges[1..]);
      assert CreditLines(charges)[1..] == CreditLines(charges[1..]);
    }
  }

  /** The voucher of the close is balanced like any other. */
  lemma CloseIsBalanced(chart: Chart, p: Period, charges: seq<ClassCharge>, id: nat)
    requires HasCloseAccounts(chart)
    ensures IsBalanced(chart, CloseVoucher(p, charges, id))
  {
    CloseLinesOnChart(chart, p, charges, id);
    CreditsTotal(chart, charges);
    assert CloseVoucher(p, charges, id).lines[1..] == CreditLines(charges);
  }

  // ---------- closing transfers and the charge ----------

  lemma TransferMovesNoClass(chart: Chart, v: Voucher, c: AssetClass)
    requires IsUsual(chart) && IsTransferShaped(chart, v)
    ensures Movement(v, c) == 0
  {
    forall l | l in v.lines ensures l.code !in {AccumCode(c)} {
      if l.code in Pnl(chart) { assert chart[l.code] != Asset; }
    }
    LineNetOfOthers(v.lines, {AccumCode(c)});
  }

  lemma ClosesOfOneMore(vouchers: seq<Voucher>, v: Voucher, p: Period)
    requires IsNew(vouchers, v)
    ensures CloseVouchers(vouchers + [v], p) == CloseVouchers(vouchers, p) + if IsClose(vouchers + [v], p, v) then [v] else []
  {
    var q := (u: Voucher) => IsClose(vouchers + [v], p, u);
    var r := (u: Voucher) => IsClose(vouchers, p, u);
    forall u | u in vouchers ensures q(u) == r(u) { assert forall w :: w in vouchers + [v] <==> w in vouchers || w == v; }
    WhereSame(vouchers, q, r);
    WhereAppend(vouchers, [v], q);
    WhereSame(vouchers + [v], q, (u: Voucher) => IsClose(vouchers + [v], p, u));
    WhereSame(vouchers, r, (u: Voucher) => IsClose(vouchers, p, u));
  }

  lemma PostedOfOneMore(b: Books, v: Voucher, p: Period, chart: Chart, c: AssetClass)
    requires IsUsual(chart) && IsTransferShaped(chart, v) && IsNew(b.vouchers, v)
    ensures PostedClose(Books(b.vouchers + [v], b.attribution), p, c) == PostedClose(b, p, c)
  {
    ClosesOfOneMore(b.vouchers, v, p);
    TransferMovesNoClass(chart, v, c);
    NetAppend(CloseVouchers(b.vouchers, p), if IsClose(b.vouchers + [v], p, v) then [v] else [], {AccumCode(c)});
  }

  lemma AttributedCloseOfOneMore(b: Books, v: Voucher, p: Period, c: AssetClass)
    requires IsFreshId(b, v.id)
    ensures AttributedClose(Books(b.vouchers + [v], b.attribution), p, c) == AttributedClose(b, p, c)
  {
    var before, after := CloseVouchers(b.vouchers, p), CloseVouchers(b.vouchers + [v], p);
    ClosesOfOneMore(b.vouchers, v, p);
    forall a | a in b.attribution ensures OfVouchers(after, c)(a) == OfVouchers(before, c)(a) {
      assert forall w :: w in after ==> w in before || w == v;
      assert forall w :: w in before ==> w in after;
    }
    SumSameRows(b.attribution, OfVouchers(after, c), OfVouchers(before, c));
  }

  lemma UnattributedOfOneMore(b: Books, v: Voucher, p: Period, chart: Chart, c: AssetClass)
    requires IsUsual(chart) && IsTransferShaped(chart, v) && IsFreshId(b, v.id)
    ensures UnattributedClose(Books(b.vouchers + [v], b.attribution), p, c) == UnattributedClose(b, p, c)
  {
    PostedOfOneMore(b, v, p, chart, c);
    AttributedCloseOfOneMore(b, v, p, c);
  }

  lemma AttributedOfOneMore(b: Books, v: Voucher, assetId: nat, to: int)
    requires IsFreshId(b, v.id)
    ensures AttributedUpTo(Books(b.vouchers + [v], b.attribution), assetId, to) == AttributedUpTo(b, assetId, to)
  {
    forall a | a in b.attribution ensures OfAsset(b.vouchers + [v], assetId, to)(a) == OfAsset(b.vouchers, assetId, to)(a) {
      OneMorePosted(b.vouchers, v, a.voucherId, to);
    }
    SumSameRows(b.attribution, OfAsset(b.vouchers + [v], assetId, to), OfAsset(b.vouchers, assetId, to));
  }

  lemma {:induction false} SharesOfOneMore(b: Books, v: Voucher, p: Period, register: seq<RegisterRow>)
    requires IsFreshId(b, v.id)
    ensures ByAsset(Books(b.vouchers + [v], b.attribution), p, register) == ByAsset(b, p, register)
  {
    if register != [] {
      SharesOfOneMore(b, v, p, register[1..]);
      AttributedOfOneMore(b, v, register[0].id, p.end);
      AttributedOfOneMore(b, v, register[0].id, p.start - 1);
    }
  }

  lemma {:induction false} ChargesOfOneMore(b: Books, v: Voucher, p: Period, chart: Chart, register: seq<RegisterRow>, classes: seq<AssetClass>)
    requires IsUsual(chart) && IsTransferShaped(chart, v) && IsFreshId(b, v.id)
    ensures ChargesFor(Books(b.vouchers + [v], b.attribution), p, register, classes) == ChargesFor(b, p, register, classes)
  {
    if classes != [] {
      ChargesOfOneMore(b, v, p, chart, register, classes[1..]);
      UnpostedOfOneMore(b, v, p, chart, register, classes[0]);
    }
  }

  lemma UnpostedOfOneMore(b: Books, v: Voucher, p: Period, chart: Chart, register: seq<RegisterRow>, c: AssetClass)
    requires IsUsual(chart) && IsTransferShaped(chart, v) && IsFreshId(b, v.id)
    ensures Unposted(Books(b.vouchers + [v], b.attribution), p, register, c) == Unposted(b, p, register, c)
  {
    SharesOfOneMore(b, v, p, register);
    UnattributedOfOneMore(b, v, p, chart, c);
  }

  /** Closing-transfer invariance of the whole assembly, with the depreciation it computes. */
  lemma TransferLeavesTheReport(b: Books, v: Voucher, chart: Chart, accounts: seq<string>, p: Period, prior: Option<Period>, register: seq<RegisterRow>)
    requires Enumerates(accounts, chart) && IsUsual(chart) && ArePeriods(p, prior)
    requires IsFreshId(b, v.id) && IsBalanced(chart, v) && IsRecognised(b.vouchers + [v], chart, p.end, v)
    ensures var before := FullReport(b, chart, accounts, p, prior, register);
            var after := FullReport(Books(b.vouchers + [v], b.attribution), chart, accounts, p, prior, register);
            && after.netIncome == before.netIncome && after.priorNetIncome == before.priorNetIncome
            && after.broughtForward == before.broughtForward && after.priorBroughtForward == before.priorBroughtForward
            && SameIncomeRows(before.rows, after.rows)
  {
    ChargesOfOneMore(b, v, p, chart, register, CLASSES);
    ClosingTransferChangesNothing(b.vouchers, v, chart, accounts, p, prior, Charges(b, p, register));
  }

  // ---------- the service ----------

  lemma TotalStep(shares: seq<Share>, s: Share, c: AssetClass)
    ensures ClassTotal(shares + [s], c) == ClassTotal(shares, c) + if s.assetClass == c then s.amount else 0
  {
    ClassTotalAppend(shares, [s], c);
    assert ClassTotal([s], c) == if s.assetClass == c then s.amount else 0;
  }

  /** The total a map of classes holds. */
  function Held(totals: map<AssetClass, int>, c: AssetClass): int {
    if c in totals then totals[c] else 0
  }

  lemma OneMoreShare(b: Books, p: Period, register: seq<RegisterRow>, n: nat)
    requires n < |register|
    ensures var a := register[n]; var before := ByAsset(b, p, register[..n]);
            ByAsset(b, p, register[..n + 1])
            == if Remaining(b, p, a) == 0 then before else before + [Share(a.id, a.assetClass, Remaining(b, p, a))]
  {
    assert register[..n + 1] == register[..n] + [register[n]];
    ByAssetAppend(b, p, register[..n], [register[n]]);
    assert ByAsset(b, p, []) == [];
    assert ByAsset(b, p, register[..n]) + [] == ByAsset(b, p, register[..n]);
  }

  /** What is unposted per asset, with the totals per class. */
  method ChargePerAsset(b: Books, p: Period, register: seq<RegisterRow>) returns (byAsset: seq<Share>, totals: map<AssetClass, int>)
    ensures byAsset == ByAsset(b, p, register)
    ensures forall c :: Held(totals, c) == ClassTotal(byAsset, c)
  {
    byAsset, totals := [], map[];
    for n := 0 to |register|
      invariant byAsset == ByAsset(b, p, register[..n])
      invariant forall c :: Held(totals, c) == ClassTotal(byAsset, c)
    {
      var a := register[n];
      OneMoreShare(b, p, register, n);
      var remaining := Remaining(b, p, a);
      if remaining != 0 {
        var s := Share(a.id, a.assetClass, remaining);
        forall c ensures ClassTotal(byAsset + [s], c) == ClassTotal(byAsset, c) + if s.assetClass == c then s.amount else 0 {
          TotalStep(byAsset, s, c);
        }
        byAsset := byAsset + [s];
        totals := totals[a.assetClass := Held(totals, a.assetClass) + remaining];
      }
    }
    assert register[..|register|] == register;
  }

  /** What is unposted per asset, and per class what a legacy close leaves of it. */
  method UnpostedCharges(b: Books, p: Period, register: seq<RegisterRow>) returns (byClass: seq<ClassCharge>, byAsset: seq<Share>)
    ensures byAsset == ByAsset(b, p, register)
    ensures byClass == Charges(b, p, register)
  {
    var totals;
    byAsset, totals := ChargePerAsset(b, p, register);
    byClass := [];
    var n := |CLASSES|;
    while n > 0
      invariant 0 <= n <= |CLASSES| && byClass == ChargesFor(b, p, register, CLASSES[n..])
    {
      n := n - 1;
      var c := CLASSES[n];
      assert CLASSES[n..] == [c] + CLASSES[n + 1..];
      var left := Held(totals, c) - UnattributedClose(b, p, c);
      if left > 0 {
        byClass := [ClassCharge(c, left)] + byClass;
      } else {
        assert [] + byClass == byClass;
      }
    }
    assert CLASSES[0..] == CLASSES;
  }

  datatype Refusal = PeriodNotFound | AlreadyLocked | EarlierPeriodOpen | Blocked

  datatype Outcome = Refused(why: Refusal) | LockFailed | Finalized(report: Report)

  // ---------- reporting periods ----------

  /** Financial years and VAT periods are two calendars that do not see each other. */
  datatype Timeline = Annual | Vat

  datatype PeriodRow = PeriodRow(kind: Timeline, period: Period, locked: bool)

  type Periods = map<nat, PeriodRow>

  predicate AreApart(a: Period, b: Period) { a.end < b.start || b.end < a.start }

  /** Every period starts before it ends, and no two of one timeline overlap. */
  ghost predicate AreTimelines(periods: Periods) {
    && (forall id :: id in periods ==> periods[id].period.start <= periods[id].period.end)
    && (forall a, b :: a in periods && b in periods && a != b && periods[a].kind == periods[b].kind ==>
          AreApart(periods[a].period, periods[b].period))
  }

  ghost predicate IsCalendar(periods: Periods, next: nat) {
    AreTimelines(periods) && forall id :: id in periods ==> id < next
  }

  /** The periods once one of them is locked, unless the lock fails. */
  function WithLock(periods: Periods, id: nat, fails: bool): Periods {
    if id in periods && !fails then periods[id := periods[id].(locked := true)] else periods
  }

  lemma LockKeepsCalendar(periods: Periods, next: nat, id: nat, fails: bool)
    requires IsCalendar(periods, next)
    ensures IsCalendar(WithLock(periods, id, fails), next)
  {}

  predicate Overlaps(periods: Periods, kind: Timeline, p: Period) {
    exists id :: id in periods && periods[id].kind == kind && !AreApart(periods[id].period, p)
  }

  predicate HasEarlierOpen(periods: Periods, id: nat)
    requires id in periods
  {
    exists q :: q in periods && !periods[q].locked && periods[q].kind == periods[id].kind && periods[q].period.start < periods[id].period.start
  }

  /** Every period of the timeline that ended before this one starts is locked. */
  ghost predicate EarlierAreLocked(periods: Periods, id: nat)
    requires id in periods
  {
    forall q :: q in periods && periods[q].kind == periods[id].kind && periods[q].period.end < periods[id].period.start ==> periods[q].locked
  }

  /** On a timeline without overlaps, a period that starts earlier has ended before. */
  lemma EarlierOpenIff(periods: Periods, id: nat)
    requires AreTimelines(periods) && id in periods
    ensures HasEarlierOpen(periods, id) <==> !EarlierAreLocked(periods, id)
  {
    if HasEarlierOpen(periods, id) {
      var q :| q in periods && !periods[q].locked && periods[q].kind == periods[id].kind
               && periods[q].period.start < periods[id].period.start;
      assert AreApart(periods[q].period, periods[id].period);
    }
  }

  /** A period is finalized once, after the earlier ones, and while nothing blocks it. */
  ghost predicate IsReady(b: Books, periods: Periods, id: nat, rendererRejects: bool)
    requires id in periods
  {
    !periods[id].locked && EarlierAreLocked(periods, id) && !rendererRejects && IsAttributed(b, periods[id].period)
  }

  /** The locked periods are an initial stretch of each timeline. */
  ghost predicate LockedInOrder(periods: Periods) {
    forall r :: r in periods && periods[r].locked ==> EarlierAreLocked(periods, r)
  }

  /** Finalizing keeps that, and so does a new period that comes after the others. */
  lemma FinalizingKeepsTheOrder(b: Books, periods: Periods, id: nat, rendererRejects: bool, fails: bool)
    requires LockedInOrder(periods) && id in periods && IsReady(b, periods, id, rendererRejects)
    ensures LockedInOrder(WithLock(periods, id, fails))
  {}

  lemma OpeningLastKeepsTheOrder(periods: Periods, id: nat, row: PeriodRow)
    requires LockedInOrder(periods) && id !in periods && !row.locked && row.period.start <= row.period.end
    requires forall q :: q in periods && periods[q].kind == row.kind ==>
               periods[q].period.start <= periods[q].period.end < row.period.start
    ensures LockedInOrder(periods[id := row])
  {}

  /** The periods of the same timeline that ended before. */
  function EarlierIds(periods: Periods, id: nat): set<nat>
    requires id in periods
  {
    set q | q in periods && periods[q].kind == periods[id].kind && periods[q].period.end < periods[id].period.start
  }

  ghost predicate IsLatest(periods: Periods, ids: set<nat>, q: nat) {
    q in ids && q in periods && forall o :: o in ids && o in periods ==> periods[o].period.end <= periods[q].period.end
  }

  lemma {:induction false} FindLatest(periods: Periods, ids: set<nat>) returns (q: nat)
    requires ids != {} && ids <= periods.Keys
    ensures IsLatest(periods, ids, q)
    decreases |ids|
  {
    var x :| x in ids;
    q := x;
    if ids != {x} {
      var y := FindLatest(periods, ids - {x});
      q := if periods[x].period.end < periods[y].period.end then y else x;
      forall o | o in ids ensures periods[o].period.end <= periods[q].period.end {
        if o != x { assert o in ids - {x}; }
      }
    }
  }

  lemma LatestExists(periods: Periods, ids: set<nat>)
    requires ids != {} && ids <= periods.Keys
    ensures exists q :: IsLatest(periods, ids, q)
  {
    var q := FindLatest(periods, ids);
  }

  /** The comparative column: the latest of them. */
  ghost function PriorOf(periods: Periods, id: nat): (r: Option<Period>)
    requires id in periods
    ensures r.Some? <==> EarlierIds(periods, id) != {}
    ensures r.Some? ==> exists q :: IsLatest(periods, EarlierIds(periods, id), q) && r == Some(periods[q].period)
  {
    if EarlierIds(periods, id) == {} then None
    else
      LatestExists(periods, EarlierIds(periods, id));
      var q :| IsLatest(periods, EarlierIds(periods, id), q);
      Some(periods[q].period)
  }

  lemma PriorFits(periods: Periods, id: nat)
    requires AreTimelines(periods) && id in periods
    ensures ArePeriods(periods[id].period, PriorOf(periods, id))
  {}

  lemma SameLatest(periods: Periods, ids: set<nat>, o: nat, q: nat)
    requires AreTimelines(periods) && IsLatest(periods, ids, o) && IsLatest(periods, ids, q) && periods[o].kind == periods[q].kind
    ensures o == q
  {
    assert periods[o].period.end == periods[q].period.end;
  }

  /** Periods that do not overlap do not end on one day. */
  lemma LatestIsPrior(periods: Periods, id: nat, q: nat)
    requires AreTimelines(periods) && id in periods && IsLatest(periods, EarlierIds(periods, id), q)
    ensures PriorOf(periods, id) == Some(periods[q].period)
  {
    var ids := EarlierIds(periods, id);
    assert q in ids;
    var o: nat :| IsLatest(periods, ids, o) && PriorOf(periods, id) == Some(periods[o].period);
    SameLatest(periods, ids, o, q);
  }

  method FindPrior(periods: Periods, id: nat) returns (prior: Option<Period>)
    requires AreTimelines(periods) && id in periods
    ensures prior == PriorOf(periods, id)
  {
    prior := None;
    var rest := EarlierIds(periods, id);
    ghost var latest := id;
    while rest != {}
      invariant rest <= EarlierIds(periods, id)
      invariant prior.None? ==> rest == EarlierIds(periods, id)
      invariant prior.Some? ==> IsLatest(periods, EarlierIds(periods, id) - rest, latest) && prior.value == periods[latest].period
      decreases |rest|
    {
      var q :| q in rest;
      if prior.None? || prior.value.end < periods[q].period.end {
        prior, latest := Some(periods[q].period), q;
      }
      rest := rest - {q};
    }
    if prior.Some? {
      assert EarlierIds(periods, id) - rest == EarlierIds(periods, id);
      LatestIsPrior(periods, id, latest);
    }
  }

  ghost predicate IsSetUp(chart: Chart, accounts: seq<string>) {
    Enumerates(accounts, chart) && IsUsual(chart) && HasCloseAccounts(chart)
  }

  /** Balanced vouchers, sound attribution, and ids that are given out upwards. */
  ghost predicate AreInOrder(chart: Chart, b: Books, next: nat) {
    AreSound(b) && AreBalanced(chart, b.vouchers) && forall id :: next <= id ==> IsFreshId(b, id)
  }

  lemma CloseStaysInOrder(chart: Chart, b: Books, p: Period, register: seq<RegisterRow>, id: nat)
    requires HasCloseAccounts(chart) && AreInOrder(chart, b, id) && MayClose(b, p, register, id)
    ensures AreInOrder(chart, Close(b, p, register, id), if TotalCharge(Charges(b, p, register)) == 0 then id else id + 1)
  {
    var charges, shares := Charges(b, p, register), ByAsset(b, p, register);
    if TotalCharge(charges) != 0 {
      var b' := Close(b, p, register, id);
      StaysAttributed(b, p, register, id);
      CloseIsBalanced(chart, p, charges, id);
      TotalsReconcile(b, p, register, id);
      AllSharesAttributed(shares, shares, charges, id);
      forall later | id + 1 <= later ensures IsFreshId(b', later) { assert IsFreshId(b, later); }
    }
  }

  class AnnualAccounts {
    const chart: Chart
    const accounts: seq<string>
    var vouchers: seq<Voucher>
    var attribution: seq<Attribution>
    var nextVoucher: nat
    var periods: Periods
    var nextPeriod: nat

    function Now(): Books
      reads this`vouchers, this`attribution
    {
      Books(vouchers, attribution)
    }

    ghost predicate BooksOk()
      reads this`vouchers, this`attribution, this`nextVoucher
    {
      IsSetUp(chart, accounts) && AreInOrder(chart, Now(), nextVoucher)
    }

    ghost predicate CalendarOk()
      reads this`periods, this`nextPeriod
    {
      IsCalendar(periods, nextPeriod)
    }

    ghost predicate Valid()
      reads this`vouchers, this`attribution, this`nextVoucher, this`periods, this`nextPeriod
    {
      BooksOk() && CalendarOk()
    }

    constructor (chart: Chart, accounts: seq<string>)
      requires Enumerates(accounts, chart) && IsUsual(chart) && HasCloseAccounts(chart)
      ensures Valid() && Now() == Books([], []) && periods == map[] && this.chart == chart && this.accounts == accounts
    {
      this.chart, this.accounts := chart, accounts;
      vouchers, attribution, nextVoucher := [], [], 1;
      periods, nextPeriod := map[], 1;
    }

    /** A new period, unless it ends before it starts or overlaps one of its timeline. */
    method OpenPeriod(kind: Timeline, p: Period) returns (ok: bool)
      requires Valid()
      modifies `periods, `nextPeriod
      ensures Valid()
      ensures ok <==> p.start <= p.end && forall q :: q in old(periods) && old(periods)[q].kind == kind ==>
                        p.end < old(periods)[q].period.start || old(periods)[q].period.end < p.start
      ensures periods == if ok then old(periods)[old(nextPeriod) := PeriodRow(kind, p, false)] else old(periods)
    {
      ok := p.start <= p.end && !Overlaps(periods, kind, p);
      if ok {
        periods := periods[nextPeriod := PeriodRow(kind, p, false)];
        nextPeriod := nextPeriod + 1;
      }
    }

    /** The draft of a period, which never fails to balance. */
    method Draft(id: nat, register: seq<RegisterRow>) returns (r: Option<Report>)
      requires Valid()
      ensures r.Some? <==> id in periods
      ensures r.Some? ==> r.value == FullReport(Now(), chart, accounts, periods[id].period, PriorOf(periods, id), register) && Balances(r.value)
    {
      if id !in periods { return None; }
      var prior := FindPrior(periods, id);
      PriorFits(periods, id);
      var charges, shares := UnpostedCharges(Now(), periods[id].period, register);
      var report := AssembleReport(vouchers, chart, accounts, periods[id].period, prior, charges);
      r := Some(report);
    }

    /** Assembles, and says whether anything blocks the year. The imbalance never does. */
    method Check(p: Period, prior: Option<Period>, register: seq<RegisterRow>, rendererRejects: bool)
      returns (report: Report, charges: seq<ClassCharge>, shares: seq<Share>, blocked: bool)
      requires Valid() && ArePeriods(p, prior)
      ensures report == FullReport(Now(), chart, accounts, p, prior, register) && Balances(report)
      ensures charges == Charges(Now(), p, register) && shares == ByAsset(Now(), p, register)
      ensures blocked <==> !IsAttributed(Now(), p) || rendererRejects
    {
      charges, shares := UnpostedCharges(Now(), p, register);
      report := AssembleReport(vouchers, chart, accounts, p, prior, charges);
      blocked := !Balances(report) || !IsAttributed(Now(), p) || rendererRejects;
    }

    /** Every reason to refuse, before anything is posted. */
    method Precheck(id: nat, register: seq<RegisterRow>, rendererRejects: bool)
      returns (why: Option<Refusal>, prior: Option<Period>, report: Report, charges: seq<ClassCharge>, shares: seq<Share>)
      requires Valid() && id in periods
      ensures prior == PriorOf(periods, id) && ArePeriods(periods[id].period, prior)
      ensures why.None? <==> IsReady(Now(), periods, id, rendererRejects)
      ensures why == Some(AlreadyLocked) <==> periods[id].locked
      ensures why == Some(EarlierPeriodOpen) <==> !periods[id].locked && !EarlierAreLocked(periods, id)
      ensures why != Some(PeriodNotFound)
      ensures report == FullReport(Now(), chart, accounts, periods[id].period, prior, register) && Balances(report)
      ensures charges == Charges(Now(), periods[id].period, register) && shares == ByAsset(Now(), periods[id].period, register)
    {
      prior := FindPrior(periods, id);
      PriorFits(periods, id);
      EarlierOpenIff(periods, id);
      var blocked;
      report, charges, shares, blocked := Check(periods[id].period, prior, register, rendererRejects);
      why := if periods[id].locked then Some(AlreadyLocked)
             else if HasEarlierOpen(periods, id) then Some(EarlierPeriodOpen)
             else if blocked then Some(Blocked) else None;
    }

    /** Posts the voucher and its attribution, if anything is unposted, and writes the periods. */
    method PostClose(p: Period, register: seq<RegisterRow>, charges: seq<ClassCharge>, shares: seq<Share>, periods': Periods)
      requires charges == Charges(Now(), p, register) && shares == ByAsset(Now(), p, register)
      modifies `vouchers, `attribution, `nextVoucher, `periods
      ensures periods == periods'
      ensures Now() == Close(old(Now()), p, register, old(nextVoucher))
      ensures nextVoucher == if TotalCharge(charges) == 0 then old(nextVoucher) else old(nextVoucher) + 1
    {
      if TotalCharge(charges) != 0 {
        var v := CloseVoucher(p, charges, nextVoucher);
        attribution := attribution + AttributionRows(shares, shares, charges, nextVoucher);
        vouchers := vouchers + [v];
        nextVoucher := nextVoucher + 1;
      }
      periods := periods';
    }

    /** The close of a year that nothing blocks: it reports what the draft did. */
    method CloseBooks(p: Period, prior: Option<Period>, register: seq<RegisterRow>, charges: seq<ClassCharge>, shares: seq<Share>,
                      periods': Periods)
      requires BooksOk() && IsRegister(register) && ArePeriods(p, prior) && IsAttributed(Now(), p)
      requires charges == Charges(Now(), p, register) && shares == ByAsset(Now(), p, register)
      modifies `vouchers, `attribution, `nextVoucher, `periods
      ensures BooksOk() && periods == periods'
      ensures Now() == Close(old(Now()), p, register, old(nextVoucher))
      ensures IsFinal(old(Now()), Now(), chart, accounts, p, prior, register)
    {
      CloseIsFinal(Now(), chart, accounts, p, prior, register, nextVoucher);
      CloseStaysInOrder(chart, Now(), p, register, nextVoucher);
      PostClose(p, register, charges, shares, periods');
    }

    /** Closes a period that is not refused, and locks it unless that fails. */
    method CloseYear(id: nat, p: Period, prior: Option<Period>, register: seq<RegisterRow>, charges: seq<ClassCharge>, shares: seq<Share>,
                     lockFails: bool)
      requires Valid() && IsRegister(register) && ArePeriods(p, prior) && IsAttributed(Now(), p)
      requires charges == Charges(Now(), p, register) && shares == ByAsset(Now(), p, register)
      modifies this
      ensures Valid()
      ensures Now() == Close(old(Now()), p, register, old(nextVoucher))
      ensures IsFinal(old(Now()), Now(), chart, accounts, p, prior, register)
      ensures periods == WithLock(old(periods), id, lockFails)
    {
      LockKeepsCalendar(periods, nextPeriod, id, lockFails);
      CloseBooks(p, prior, register, charges, shares, WithLock(periods, id, lockFails));
    }

    /** Finalizes a period: refuses, or posts what is unposted, locks, and reports exactly what the
        draft did. When the lock fails the charge stays posted and the period open, and calling
        again posts nothing more (`ClosingAgainPostsNothing`). */
    method Finalize(id: nat, register: seq<RegisterRow>, rendererRejects: bool, lockFails: bool) returns (r: Outcome)
      requires Valid() && IsRegister(register)
      modifies this
      ensures Valid()
      ensures r == Refused(PeriodNotFound) <==> id !in old(periods)
      ensures !r.Refused? <==> id in old(periods) && IsReady(old(Now()), old(periods), id, rendererRejects)
      ensures r == Refused(AlreadyLocked) <==> id in old(periods) && old(periods)[id].locked
      ensures r == Refused(EarlierPeriodOpen) <==>
                id in old(periods) && !old(periods)[id].locked && !EarlierAreLocked(old(periods), id)
      ensures r.Refused? ==> Now() == old(Now())
      ensures !r.Refused? ==>
                var p, prior := old(periods)[id].period, PriorOf(old(periods), id);
                && Now() == Close(old(Now()), p, register, old(nextVoucher))
                && IsFinal(old(Now()), Now(), chart, accounts, p, prior, register)
                && (r.Finalized? ==> r.report == FullReport(old(Now()), chart, accounts, p, prior, register) && Balances(r.report))
      ensures !r.Refused? ==> (r.LockFailed? <==> lockFails)
      ensures periods == if r.Finalized? then old(periods)[id := old(periods)[id].(locked := true)] else old(periods)
    {
      if id !in periods { return Refused(PeriodNotFound); }
      var why, prior, report, charges, shares := Precheck(id, register, rendererRejects);
      if why.Some? { return Refused(why.value); }
      CloseYear(id, periods[id].period, prior, register, charges, shares, lockFails);
      r := if lockFails then LockFailed else Finalized(report);
    }
  }
}
