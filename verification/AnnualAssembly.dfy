/** The assembly as the service runs it (`annual-accounts.service.ts`): balance rows updated in
    loops, each proved to leave the rows of the report. */
module AnnualAssembly {
  import opened Wrappers
  import opened Ledger
  import opened AnnualReport
  import opened AnnualProofs

  datatype PnlLine = PnlLine(code: string, kind: Kind, normalSide: int)

  datatype ClosingTransfer = ClosingTransfer(date: int, lines: seq<PnlLine>)

  /** The P&L legs of a voucher, each on the normal side of its account. */
  function PnlLines(chart: Chart, lines: seq<Line>): seq<PnlLine> {
    if lines == [] then []
    else
      (if lines[0].code in Pnl(chart) then [PnlLine(lines[0].code, chart[lines[0].code], NormalSide(chart[lines[0].code], Signed(lines[0])))] else [])
      + PnlLines(chart, lines[1..])
  }

  function TransferOf(chart: Chart, v: Voucher): ClosingTransfer { ClosingTransfer(v.date, PnlLines(chart, v.lines)) }

  function Transfers(chart: Chart, vs: seq<Voucher>): seq<ClosingTransfer> {
    if vs == [] then [] else [TransferOf(chart, vs[0])] + Transfers(chart, vs[1..])
  }

  // ---------- which vouchers are loaded ----------

  lemma TransfersAppend(chart: Chart, a: seq<Voucher>, b: seq<Voucher>)
    ensures Transfers(chart, a + b) == Transfers(chart, a) + Transfers(chart, b)
  {
    if a == [] {
      assert a + b == b;
    } else {
      assert (a + b)[1..] == a[1..] + b;
      TransfersAppend(chart, a[1..], b);
    }
  }

  lemma OneMoreTransfer(chart: Chart, a: seq<Voucher>, v: Voucher)
    ensures Transfers(chart, a + [v]) == Transfers(chart, a) + [TransferOf(chart, v)]
  {
    TransfersAppend(chart, a, [v]);
    assert Transfers(chart, [v]) == [TransferOf(chart, v)];
  }

  /** The kept marked vouchers, then the kept reversals of them that are not marked themselves. */
  function Loaded(vouchers: seq<Voucher>, chart: Chart, horizon: int): seq<Voucher> {
    Where(vouchers, Marked(chart, horizon)) + Where(vouchers, Reversing(vouchers, chart, horizon))
  }

  function Marked(chart: Chart, horizon: int): Voucher -> bool {
    (v: Voucher) => IsTransfer(chart, horizon, v)
  }

  function Reversing(vouchers: seq<Voucher>, chart: Chart, horizon: int): Voucher -> bool {
    (v: Voucher) => IsRecognised(vouchers, chart, horizon, v) && !v.closing
  }

  lemma {:induction false} WhereStep(vouchers: seq<Voucher>, n: nat, p: Voucher -> bool)
    requires n < |vouchers|
    ensures Where(vouchers[..n + 1], p) == if p(vouchers[n]) then Where(vouchers[..n], p) + [vouchers[n]] else Where(vouchers[..n], p)
  {
    assert vouchers[..n + 1] == vouchers[..n] + [vouchers[n]];
    WhereAppend(vouchers[..n], [vouchers[n]], p);
    assert Where(vouchers[..n], p) + [] == Where(vouchers[..n], p);
  }

  function IdsOf(vs: seq<Voucher>): set<nat> { set w | w in vs :: w.id }

  lemma IdsAppend(vs: seq<Voucher>, v: Voucher)
    ensures IdsOf(vs + [v]) == IdsOf(vs) + {v.id}
  {
    forall id ensures id in IdsOf(vs + [v]) <==> id in IdsOf(vs) + {v.id} {
      if id in IdsOf(vs) {
        var w :| w in vs && w.id == id;
        assert w in vs + [v];
      } else if id == v.id {
        assert v in vs + [v];
      }
    }
  }

  /** The ids of the kept marked vouchers decide which reversals count. */
  lemma RecognisedIds(vouchers: seq<Voucher>, chart: Chart, horizon: int, v: Voucher)
    ensures v.reverses.Some? && v.reverses.value in IdsOf(Where(vouchers, Marked(chart, horizon)))
       <==> ReversesTransfer(vouchers, chart, horizon, v)
  {
    var marked := Where(vouchers, Marked(chart, horizon));
    if v.reverses.Some? && v.reverses.value in IdsOf(marked) {
      var w :| w in marked && w.id == v.reverses.value;
      assert IsTransfer(chart, horizon, w);
    }
    if ReversesTransfer(vouchers, chart, horizon, v) {
      var w :| w in vouchers && w.id == v.reverses.value && IsTransfer(chart, horizon, w);
      assert w in marked;
    }
  }

  method LoadMarked(vouchers: seq<Voucher>, chart: Chart, horizon: int) returns (r: seq<ClosingTransfer>, ids: set<nat>)
    ensures r == Transfers(chart, Where(vouchers, Marked(chart, horizon)))
    ensures ids == IdsOf(Where(vouchers, Marked(chart, horizon)))
  {
    r, ids := [], {};
    for n := 0 to |vouchers|
      invariant r == Transfers(chart, Where(vouchers[..n], Marked(chart, horizon)))
      invariant ids == IdsOf(Where(vouchers[..n], Marked(chart, horizon)))
    {
      var v := vouchers[n];
      ghost var before := Where(vouchers[..n], Marked(chart, horizon));
      WhereStep(vouchers, n, Marked(chart, horizon));
      if v.posted && v.date <= horizon && v.closing && IsTransferShaped(chart, v) {
        OneMoreTransfer(chart, before, v);
        IdsAppend(before, v);
        r := r + [TransferOf(chart, v)];
        ids := ids + {v.id};
      }
    }
    assert vouchers[..|vouchers|] == vouchers;
  }

  lemma IsReversing(vouchers: seq<Voucher>, chart: Chart, horizon: int, v: Voucher)
    ensures Reversing(vouchers, chart, horizon)(v)
       <==> v.posted && v.date <= horizon && !v.closing && v.reverses.Some?
            && v.reverses.value in IdsOf(Where(vouchers, Marked(chart, horizon))) && IsTransferShaped(chart, v)
  {
    RecognisedIds(vouchers, chart, horizon, v);
  }

  method LoadReversals(vouchers: seq<Voucher>, chart: Chart, horizon: int, ids: set<nat>) returns (r: seq<ClosingTransfer>)
    requires ids == IdsOf(Where(vouchers, Marked(chart, horizon)))
    ensures r == Transfers(chart, Where(vouchers, Reversing(vouchers, chart, horizon)))
  {
    r := [];
    for n := 0 to |vouchers|
      invariant r == Transfers(chart, Where(vouchers[..n], Reversing(vouchers, chart, horizon)))
    {
      var v := vouchers[n];
      WhereStep(vouchers, n, Reversing(vouchers, chart, horizon));
      IsReversing(vouchers, chart, horizon, v);
      if v.posted && v.date <= horizon && !v.closing && v.reverses.Some? && v.reverses.value in ids && IsTransferShaped(chart, v) {
        OneMoreTransfer(chart, Where(vouchers[..n], Reversing(vouchers, chart, horizon)), v);
        r := r + [TransferOf(chart, v)];
      }
    }
    assert vouchers[..|vouchers|] == vouchers;
  }

  /** Marked vouchers first, then the reversals that point at one that was kept. */
  method LoadClosingTransfers(vouchers: seq<Voucher>, chart: Chart, horizon: int) returns (r: seq<ClosingTransfer>)
    ensures r == Transfers(chart, Loaded(vouchers, chart, horizon))
  {
    var marked, ids := LoadMarked(vouchers, chart, horizon);
    var reversals := LoadReversals(vouchers, chart, horizon, ids);
    TransfersAppend(chart, Where(vouchers, Marked(chart, horizon)), Where(vouchers, Reversing(vouchers, chart, horizon)));
    r := marked + reversals;
  }

  // ---------- what is removed from a row ----------

  function RemovedBy(lines: seq<PnlLine>, code: string): int {
    if lines == [] then 0 else (if lines[0].code == code then lines[0].normalSide else 0) + RemovedBy(lines[1..], code)
  }

  function Removed(ts: seq<ClosingTransfer>, w: Period, code: string): int {
    if ts == [] then 0
    else (if w.start <= ts[0].date <= w.end then RemovedBy(ts[0].lines, code) else 0) + Removed(ts[1..], w, code)
  }

  lemma {:induction false} LinesRemoved(chart: Chart, lines: seq<Line>, code: string)
    requires code in chart
    ensures RemovedBy(PnlLines(chart, lines), code) == if code in Pnl(chart) then NormalSide(chart[code], LineNet(lines, {code})) else 0
  {
    if lines != [] {
      LinesRemoved(chart, lines[1..], code);
      var rest := PnlLines(chart, lines[1..]);
      if lines[0].code in Pnl(chart) {
        assert PnlLines(chart, lines)[1..] == rest;
      } else {
        assert PnlLines(chart, lines) == rest;
      }
    }
  }

  function InWindow(w: Period): Voucher -> bool { (v: Voucher) => w.start <= v.date <= w.end }

  lemma {:induction false} VouchersRemoved(chart: Chart, vs: seq<Voucher>, w: Period, code: string)
    requires code in chart
    ensures Removed(Transfers(chart, vs), w, code)
         == if code in Pnl(chart) then NormalSide(chart[code], Net(Where(vs, InWindow(w)), {code})) else 0
  {
    if vs != [] {
      VouchersRemoved(chart, vs[1..], w, code);
      LinesRemoved(chart, vs[0].lines, code);
      assert Transfers(chart, vs)[1..] == Transfers(chart, vs[1..]);
      NetAppend(if InWindow(w)(vs[0]) then [vs[0]] else [], Where(vs[1..], InWindow(w)), {code});
    }
  }

  lemma {:induction false} WhereWhere(vs: seq<Voucher>, p: Voucher -> bool, q: Voucher -> bool, r: Voucher -> bool)
    requires forall v :: v in vs ==> (r(v) <==> p(v) && q(v))
    ensures Where(Where(vs, p), q) == Where(vs, r)
  {
    if vs != [] {
      WhereWhere(vs[1..], p, q, r);
      WhereAppend(if p(vs[0]) then [vs[0]] else [], Where(vs[1..], p), q);
    }
  }

  /** The loaded transfers of a window are the recognised vouchers of the window. */
  lemma LoadedInWindow(vouchers: seq<Voucher>, chart: Chart, horizon: int, w: Period, codes: set<string>)
    ensures Net(Where(Loaded(vouchers, chart, horizon), InWindow(w)), codes) == Net(TransfersIn(vouchers, chart, horizon, w), codes)
  {
    var p := (v: Voucher) => IsTransfer(chart, horizon, v) && w.start <= v.date <= w.end;
    var q := (v: Voucher) => IsRecognised(vouchers, chart, horizon, v) && !v.closing && w.start <= v.date <= w.end;
    var r := (v: Voucher) => IsPosted(v, w.start, w.end) && IsRecognised(vouchers, chart, horizon, v);
    WhereAppend(Where(vouchers, Marked(chart, horizon)), Where(vouchers, Reversing(vouchers, chart, horizon)), InWindow(w));
    WhereWhere(vouchers, Marked(chart, horizon), InWindow(w), p);
    WhereWhere(vouchers, Reversing(vouchers, chart, horizon), InWindow(w), q);
    NetAppend(Where(vouchers, p), Where(vouchers, q), codes);
    NetOfDisjoint(vouchers, p, q, r, codes);
    WhereSame(vouchers, r, (v: Voucher) => IsPosted(v, w.start, w.end) && IsRecognised(vouchers, chart, horizon, v));
  }

  // ---------- the rows, before and after ----------

  /** A figure before the transfers are taken out. */
  function Gross(vouchers: seq<Voucher>, w: Period, kind: Kind, codes: set<string>): int {
    NormalSide(kind, Net(if IsPnl(kind) then PostedIn(vouchers, w.start, w.end) else PostedUpTo(vouchers, w.end), codes))
  }

  lemma GrossLessTransfers(vouchers: seq<Voucher>, chart: Chart, horizon: int, w: Period, code: string)
    requires code in chart
    ensures Gross(vouchers, w, chart[code], {code}) - Removed(Transfers(chart, Loaded(vouchers, chart, horizon)), w, code)
         == Figure(vouchers, chart, horizon, w, chart[code], {code})
  {
    VouchersRemoved(chart, Loaded(vouchers, chart, horizon), w, code);
    LoadedInWindow(vouchers, chart, horizon, w, {code});
    var t := (v: Voucher) => IsPosted(v, w.start, w.end) && IsRecognised(vouchers, chart, horizon, v);
    var u := (v: Voucher) => IsPosted(v, w.start, w.end) && !IsRecognised(vouchers, chart, horizon, v);
    var a := (v: Voucher) => IsPosted(v, w.start, w.end);
    NetOfDisjoint(vouchers, t, u, a, {code});
    WhereSame(vouchers, t, (v: Voucher) => IsPosted(v, w.start, w.end) && IsRecognised(vouchers, chart, horizon, v));
    WhereSame(vouchers, u, (v: Voucher) => IsPosted(v, w.start, w.end) && !IsRecognised(vouchers, chart, horizon, v));
    WhereSame(vouchers, a, (v: Voucher) => IsPosted(v, w.start, w.end));
  }

  function Less(r: Row, f: Field, amount: int): Row {
    match f
    case CurrentField => r.(current := r.current - amount)
    case PriorField => r.(prior := r.prior - amount)
  }

  predicate HaveCodes(rows: seq<Row>, accounts: seq<string>) {
    |rows| == |accounts| && forall i :: 0 <= i < |rows| ==> rows[i].code == accounts[i]
  }

  /** The first row of the account, if there is one. */
  method FindRow(balances: array<Row>, code: string) returns (k: nat)
    ensures k <= balances.Length
    ensures k < balances.Length ==> balances[k].code == code
    ensures forall i :: 0 <= i < k ==> balances[i].code != code
  {
    k := 0;
    while k < balances.Length && balances[k].code != code
      invariant k <= balances.Length
      invariant forall i :: 0 <= i < k ==> balances[i].code != code
    {
      k := k + 1;
    }
  }

  lemma {:induction false} RemovedByStep(lines: seq<PnlLine>, n: nat, code: string)
    requires n < |lines|
    ensures RemovedBy(lines[..n + 1], code) == RemovedBy(lines[..n], code) + if lines[n].code == code then lines[n].normalSide else 0
  {
    if n == 0 {
      assert lines[..1][1..] == [] && lines[..0] == [];
    } else {
      RemovedByStep(lines[1..], n - 1, code);
      assert lines[..n + 1][1..] == lines[1..][..n] && lines[..n][1..] == lines[1..][..n - 1];
    }
  }

  lemma {:induction false} RemovedStep(ts: seq<ClosingTransfer>, w: Period, n: nat, code: string)
    requires n < |ts|
    ensures Removed(ts[..n + 1], w, code)
         == Removed(ts[..n], w, code) + if w.start <= ts[n].date <= w.end then RemovedBy(ts[n].lines, code) else 0
  {
    if n == 0 {
      assert ts[..1][1..] == [] && ts[..0] == [];
    } else {
      RemovedStep(ts[1..], w, n - 1, code);
      assert ts[..n + 1][1..] == ts[1..][..n] && ts[..n][1..] == ts[1..][..n - 1];
    }
  }

  /** Takes the legs of one transfer out of the rows. */
  method RemoveLines(balances: array<Row>, lines: seq<PnlLine>, f: Field, ghost accounts: seq<string>)
    requires HaveCodes(balances[..], accounts) && IsDistinct(accounts)
    modifies balances
    ensures HaveCodes(balances[..], accounts)
    ensures forall i :: 0 <= i < balances.Length ==> balances[i] == Less(old(balances[i]), f, RemovedBy(lines, accounts[i]))
  {
    for n := 0 to |lines|
      invariant HaveCodes(balances[..], accounts)
      invariant forall i :: 0 <= i < balances.Length ==> balances[i] == Less(old(balances[i]), f, RemovedBy(lines[..n], accounts[i]))
    {
      forall i | 0 <= i < balances.Length
        ensures RemovedBy(lines[..n + 1], accounts[i])
             == RemovedBy(lines[..n], accounts[i]) + if lines[n].code == accounts[i] then lines[n].normalSide else 0
      {
        RemovedByStep(lines, n, accounts[i]);
      }
      forall i | 0 <= i < balances.Length ensures balances[i].code == accounts[i] { assert balances[..][i].code == accounts[i]; }
      var k := FindRow(balances, lines[n].code);
      if k < balances.Length {
        balances[k] := Less(balances[k], f, lines[n].normalSide);
      }
    }
    assert lines[..|lines|] == lines;
  }

  /** Takes the P&L legs of the transfers of a window out of one column. */
  method RemoveClosingTransferFlows(balances: array<Row>, ts: seq<ClosingTransfer>, f: Field, w: Period, ghost accounts: seq<string>)
    requires HaveCodes(balances[..], accounts) && IsDistinct(accounts)
    modifies balances
    ensures HaveCodes(balances[..], accounts)
    ensures forall i :: 0 <= i < balances.Length ==> balances[i] == Less(old(balances[i]), f, Removed(ts, w, accounts[i]))
  {
    for n := 0 to |ts|
      invariant HaveCodes(balances[..], accounts)
      invariant forall i :: 0 <= i < balances.Length ==> balances[i] == Less(old(balances[i]), f, Removed(ts[..n], w, accounts[i]))
    {
      forall i | 0 <= i < balances.Length
        ensures Removed(ts[..n + 1], w, accounts[i])
             == Removed(ts[..n], w, accounts[i]) + if w.start <= ts[n].date <= w.end then RemovedBy(ts[n].lines, accounts[i]) else 0
      {
        RemovedStep(ts, w, n, accounts[i]);
      }
      if w.start <= ts[n].date <= w.end {
        RemoveLines(balances, ts[n].lines, f, accounts);
      }
    }
    assert ts[..|ts|] == ts;
  }

  // ---------- what is carried instead ----------

  /** Credit-positive: revenue adds, expense subtracts. */
  function LinesResult(lines: seq<PnlLine>): int {
    if lines == [] then 0
    else (if lines[0].kind == Revenue then lines[0].normalSide else -lines[0].normalSide) + LinesResult(lines[1..])
  }

  function CarriedResult(ts: seq<ClosingTransfer>, w: Period): int {
    if ts == [] then 0
    else (if w.start <= ts[0].date <= w.end then LinesResult(ts[0].lines) else 0) + CarriedResult(ts[1..], w)
  }

  lemma {:induction false} LinesCarried(chart: Chart, lines: seq<Line>)
    ensures LinesResult(PnlLines(chart, lines)) == -LineNet(lines, Pnl(chart))
  {
    if lines != [] {
      LinesCarried(chart, lines[1..]);
      var rest := PnlLines(chart, lines[1..]);
      if lines[0].code in Pnl(chart) {
        assert PnlLines(chart, lines)[1..] == rest;
      } else {
        assert PnlLines(chart, lines) == rest;
      }
    }
  }

  lemma {:induction false} VouchersCarried(chart: Chart, vs: seq<Voucher>, w: Period)
    ensures CarriedResult(Transfers(chart, vs), w) == -Net(Where(vs, InWindow(w)), Pnl(chart))
  {
    if vs != [] {
      VouchersCarried(chart, vs[1..], w);
      LinesCarried(chart, vs[0].lines);
      assert Transfers(chart, vs)[1..] == Transfers(chart, vs[1..]);
      NetAppend(if InWindow(w)(vs[0]) then [vs[0]] else [], Where(vs[1..], InWindow(w)), Pnl(chart));
    }
  }

  /** What the loaded records of a window carry is what the recognised transfers carry. */
  lemma LoadedCarry(vouchers: seq<Voucher>, chart: Chart, horizon: int, w: Period)
    ensures CarriedResult(Transfers(chart, Loaded(vouchers, chart, horizon)), w) == TransferResult(vouchers, chart, horizon, w)
  {
    VouchersCarried(chart, Loaded(vouchers, chart, horizon), w);
    LoadedInWindow(vouchers, chart, horizon, w, Pnl(chart));
  }

  /** What all the rows lose to the transfers of a window, as a result. */
  function TakenOff(chart: Chart, accounts: seq<string>, ts: seq<ClosingTransfer>, w: Period): int {
    if accounts == [] then 0
    else
      var rest := TakenOff(chart, accounts[1..], ts, w);
      if accounts[0] !in Pnl(chart) then rest
      else (if chart[accounts[0]] == Revenue then Removed(ts, w, accounts[0]) else -Removed(ts, w, accounts[0])) + rest
  }

  lemma {:induction false} TakenOffIsNet(chart: Chart, accounts: seq<string>, vs: seq<Voucher>, w: Period)
    requires IsDistinct(accounts) && forall c :: c in accounts ==> c in chart
    ensures TakenOff(chart, accounts, Transfers(chart, vs), w)
         == -Net(Where(vs, InWindow(w)), set c | c in accounts && c in Pnl(chart))
  {
    var in_ := Where(vs, InWindow(w));
    if accounts == [] {
      assert (set c | c in accounts && c in Pnl(chart)) == {};
      NetOfNone(in_);
    } else {
      var c, rest := accounts[0], accounts[1..];
      TakenOffIsNet(chart, rest, vs, w);
      VouchersRemoved(chart, vs, w, c);
      var some := set x | x in rest && x in Pnl(chart);
      if c in Pnl(chart) {
        assert c !in rest;
        assert (set x | x in accounts && x in Pnl(chart)) == {c} + some;
        NetSplits(in_, {c}, some);
      } else {
        assert (set x | x in accounts && x in Pnl(chart)) == some;
      }
    }
  }

  /** What is taken off the rows of the accounts is what is added to the brought-forward line. */
  lemma TakenIsCarried(chart: Chart, accounts: seq<string>, vs: seq<Voucher>, w: Period)
    requires Enumerates(accounts, chart)
    ensures TakenOff(chart, accounts, Transfers(chart, vs), w) == CarriedResult(Transfers(chart, vs), w)
  {
    TakenOffIsNet(chart, accounts, vs, w);
    VouchersCarried(chart, vs, w);
    assert (set c | c in accounts && c in Pnl(chart)) == Pnl(chart);
  }

  lemma {:induction false} LinesResultStep(lines: seq<PnlLine>, n: nat)
    requires n < |lines|
    ensures LinesResult(lines[..n + 1])
         == LinesResult(lines[..n]) + if lines[n].kind == Revenue then lines[n].normalSide else -lines[n].normalSide
  {
    if n == 0 {
      assert lines[..1][1..] == [] && lines[..0] == [];
    } else {
      LinesResultStep(lines[1..], n - 1);
      assert lines[..n + 1][1..] == lines[1..][..n] && lines[..n][1..] == lines[1..][..n - 1];
    }
  }

  lemma {:induction false} CarriedStep(ts: seq<ClosingTransfer>, w: Period, n: nat)
    requires n < |ts|
    ensures CarriedResult(ts[..n + 1], w)
         == CarriedResult(ts[..n], w) + if w.start <= ts[n].date <= w.end then LinesResult(ts[n].lines) else 0
  {
    if n == 0 {
      assert ts[..1][1..] == [] && ts[..0] == [];
    } else {
      CarriedStep(ts[1..], w, n - 1);
      assert ts[..n + 1][1..] == ts[1..][..n] && ts[..n][1..] == ts[1..][..n - 1];
    }
  }

  /** The result that the transfers of a window carry. */
  method ClosingTransferResult(ts: seq<ClosingTransfer>, w: Period) returns (total: int)
    ensures total == CarriedResult(ts, w)
  {
    total := 0;
    for n := 0 to |ts|
      invariant total == CarriedResult(ts[..n], w)
    {
      CarriedStep(ts, w, n);
      if w.start <= ts[n].date <= w.end {
        var lines := ts[n].lines;
        for m := 0 to |lines|
          invariant total == CarriedResult(ts[..n], w) + LinesResult(lines[..m])
        {
          LinesResultStep(lines, m);
          total := total + if lines[m].kind == Revenue then lines[m].normalSide else -lines[m].normalSide;
        }
        assert lines[..|lines|] == lines;
      }
    }
    assert ts[..|ts|] == ts;
  }

  // ---------- folding in ----------

  lemma {:induction false} AddToAt(rows: seq<Row>, code: string, kind: Kind, delta: int, k: nat)
    requires k <= |rows| && (forall i :: 0 <= i < k ==> rows[i].code != code) && (k < |rows| ==> rows[k].code == code)
    ensures AddTo(rows, code, kind, delta)
         == if k < |rows| then rows[k := rows[k].(current := rows[k].current + delta)] else rows + [Row(code, kind, delta, 0)]
  {
    if k > 0 { AddToAt(rows[1..], code, kind, delta, k - 1); }
  }

  method AddToBalance(rows: seq<Row>, code: string, kind: Kind, delta: int) returns (r: seq<Row>)
    ensures r == AddTo(rows, code, kind, delta)
  {
    var k := 0;
    while k < |rows| && rows[k].code != code
      invariant k <= |rows| && forall i :: 0 <= i < k ==> rows[i].code != code
    {
      k := k + 1;
    }
    AddToAt(rows, code, kind, delta, k);
    if k < |rows| {
      r := rows[k := rows[k].(current := rows[k].current + delta)];
    } else {
      r := rows + [Row(code, kind, delta, 0)];
    }
  }

  method FoldInCharges(rows: seq<Row>, charges: seq<ClassCharge>) returns (r: seq<Row>)
    ensures r == WithVirtual(rows, charges)
  {
    r := rows;
    var total := TotalCharge(charges);
    if total != 0 {
      r := AddToBalance(r, DEPRECIATION_EXPENSE, Expense, total);
      var n := 0;
      while n < |charges|
        invariant n <= |charges|
        invariant CreditClasses(r, charges[n..]) == WithVirtual(rows, charges)
      {
        r := AddToBalance(r, AccumCode(charges[n].assetClass), Asset, -charges[n].amount);
        assert charges[n..][1..] == charges[n + 1..];
        n := n + 1;
      }
    }
  }

  lemma {:induction false} SumStep(rows: seq<Row>, f: Field, p: (Kind, string) -> bool, n: nat)
    requires n < |rows|
    ensures SumWhere(rows[..n + 1], f, p) == SumWhere(rows[..n], f, p) + if p(rows[n].kind, rows[n].code) then Amount(rows[n], f) else 0
  {
    if n == 0 {
      assert rows[..1][1..] == [] && rows[..0] == [];
    } else {
      SumStep(rows[1..], f, p, n - 1);
      assert rows[..n + 1][1..] == rows[1..][..n] && rows[..n][1..] == rows[1..][..n - 1];
    }
  }

  method SumNetIncome(rows: seq<Row>, f: Field) returns (r: int)
    ensures r == NetIncome(rows, f)
  {
    var revenue, expense := 0, 0;
    for n := 0 to |rows|
      invariant revenue == SumWhere(rows[..n], f, OfKindIs(Revenue)) && expense == SumWhere(rows[..n], f, OfKindIs(Expense))
    {
      SumStep(rows, f, OfKindIs(Revenue), n);
      SumStep(rows, f, OfKindIs(Expense), n);
      if rows[n].kind == Revenue { revenue := revenue + Amount(rows[n], f); }
      if rows[n].kind == Expense { expense := expense + Amount(rows[n], f); }
    }
    assert rows[..|rows|] == rows;
    r := revenue - expense;
  }

  // ---------- the assembly ----------

  function GrossRow(vouchers: seq<Voucher>, chart: Chart, p: Period, prior: Option<Period>, code: string): Row
    requires code in chart
  {
    Row(code, chart[code], Gross(vouchers, p, chart[code], {code}),
        if prior.Some? then Gross(vouchers, prior.value, chart[code], {code}) else 0)
  }

  lemma RemovedRow(vouchers: seq<Voucher>, chart: Chart, p: Period, prior: Option<Period>, code: string)
    requires code in chart
    ensures BaseRow(vouchers, chart, p, prior, code)
         == Cleared(GrossRow(vouchers, chart, p, prior, code), Transfers(chart, Loaded(vouchers, chart, p.end)), p, prior, code)
  {
    GrossLessTransfers(vouchers, chart, p.end, p, code);
    if prior.Some? { GrossLessTransfers(vouchers, chart, p.end, prior.value, code); }
  }

  method LoadGross(vouchers: seq<Voucher>, chart: Chart, accounts: seq<string>, p: Period, prior: Option<Period>) returns (balances: array<Row>)
    requires Enumerates(accounts, chart)
    ensures fresh(balances) && HaveCodes(balances[..], accounts)
    ensures forall i :: 0 <= i < |accounts| ==> balances[i] == GrossRow(vouchers, chart, p, prior, accounts[i])
  {
    var blank := Row("", Asset, 0, 0);
    balances := new Row[|accounts|](_ => blank);
    for n := 0 to |accounts|
      invariant forall i :: 0 <= i < n ==> balances[i] == GrossRow(vouchers, chart, p, prior, accounts[i])
    {
      balances[n] := GrossRow(vouchers, chart, p, prior, accounts[n]);
    }
  }

  /** Both columns without their transfers. */
  method ClearTransfers(balances: array<Row>, ts: seq<ClosingTransfer>, p: Period, prior: Option<Period>, ghost accounts: seq<string>)
    requires HaveCodes(balances[..], accounts) && IsDistinct(accounts)
    modifies balances
    ensures forall i :: 0 <= i < balances.Length ==> balances[i] == Cleared(old(balances[i]), ts, p, prior, accounts[i])
  {
    RemoveClosingTransferFlows(balances, ts, CurrentField, p, accounts);
    if prior.Some? {
      RemoveClosingTransferFlows(balances, ts, PriorField, prior.value, accounts);
    }
  }

  /** The rows before the virtual depreciation, and the transfers that were taken out of them. */
  method LoadBalances(vouchers: seq<Voucher>, chart: Chart, accounts: seq<string>, p: Period, prior: Option<Period>)
    returns (r: seq<Row>, ts: seq<ClosingTransfer>)
    requires Enumerates(accounts, chart)
    ensures r == BaseRows(vouchers, chart, accounts, p, prior)
    ensures ts == Transfers(chart, Loaded(vouchers, chart, p.end))
  {
    var balances := LoadGross(vouchers, chart, accounts, p, prior);
    ghost var gross := balances[..];
    ts := LoadClosingTransfers(vouchers, chart, p.end);
    ClearTransfers(balances, ts, p, prior, accounts);
    r := balances[..];
    RowsAreTheBase(gross, r, vouchers, chart, accounts, p, prior);
  }

  /** A gross row without the transfers of its windows. */
  function Cleared(r: Row, ts: seq<ClosingTransfer>, p: Period, prior: Option<Period>, code: string): Row {
    var current := Less(r, CurrentField, Removed(ts, p, code));
    if prior.Some? then Less(current, PriorField, Removed(ts, prior.value, code)) else current
  }

  lemma RowsAreTheBase(gross: seq<Row>, rows: seq<Row>, vouchers: seq<Voucher>, chart: Chart, accounts: seq<string>, p: Period, prior: Option<Period>)
    requires Enumerates(accounts, chart) && |gross| == |rows| == |accounts|
    requires forall i :: 0 <= i < |accounts| ==> gross[i] == GrossRow(vouchers, chart, p, prior, accounts[i])
    requires forall i :: 0 <= i < |accounts| ==>
               rows[i] == Cleared(gross[i], Transfers(chart, Loaded(vouchers, chart, p.end)), p, prior, accounts[i])
    ensures rows == BaseRows(vouchers, chart, accounts, p, prior)
  {
    forall i | 0 <= i < |accounts| ensures rows[i] == BaseRow(vouchers, chart, p, prior, accounts[i]) {
      RemovedRow(vouchers, chart, p, prior, accounts[i]);
    }
  }

  /** The brought-forward line: the accumulated equity, the results before the window, and what the
      loaded transfers of the window carry. */
  method BringForward(rows: seq<Row>, f: Field, vouchers: seq<Voucher>, chart: Chart, horizon: int, ts: seq<ClosingTransfer>, w: Period)
    returns (r: int)
    requires ts == Transfers(chart, Loaded(vouchers, chart, horizon))
    ensures r == BroughtForward(rows, f, vouchers, chart, horizon, w)
  {
    var carried := ClosingTransferResult(ts, w);
    LoadedCarry(vouchers, chart, horizon, w);
    r := SumWhere(rows, f, IsAccumulatedResult) + CumulativeResultBefore(vouchers, chart, w.start) + carried;
  }

  /** The report of the period, with the given charge folded in. */
  method AssembleReport(vouchers: seq<Voucher>, chart: Chart, accounts: seq<string>, p: Period, prior: Option<Period>,
                        charges: seq<ClassCharge>) returns (r: Report)
    requires Enumerates(accounts, chart)
    ensures r == Assemble(vouchers, chart, accounts, p, prior, charges)
    ensures IsUsual(chart) && AreBalanced(chart, vouchers) && p.start <= p.end + 1 ==> Balances(r)
  {
    var base, ts := LoadBalances(vouchers, chart, accounts, p, prior);
    var rows := FoldInCharges(base, charges);
    var netIncome := SumNetIncome(rows, CurrentField);
    var priorNetIncome := SumNetIncome(rows, PriorField);
    var broughtForward := BringForward(rows, CurrentField, vouchers, chart, p.end, ts, p);
    var priorBroughtForward := 0;
    if prior.Some? { priorBroughtForward := BringForward(rows, PriorField, vouchers, chart, p.end, ts, prior.value); }
    r := Report(rows, netIncome, priorNetIncome, broughtForward, priorBroughtForward);
    if IsUsual(chart) && AreBalanced(chart, vouchers) && p.start <= p.end + 1 {
      BalanceSheetBalances(vouchers, chart, accounts, p, prior, charges);
    }
  }
}
