/** Posted double-entry vouchers and the one sum the reports read them through
    (`ledger-balance.service.ts`): debits minus credits, in base currency. */
module Ledger {
  import opened Wrappers

  datatype Kind = Asset | Liability | Equity | Revenue | Expense

  datatype Line = Line(code: string, isDebit: bool, amount: int)

  /** `closing` and `annualClose` say whether the documented reason prefix, or for the latter the
      stamp of the close, marks the voucher. Dates are day numbers. */
  datatype Voucher = Voucher(
    id: nat, date: int, posted: bool, closing: bool, annualClose: bool, reverses: Option<nat>, lines: seq<Line>)

  type Chart = map<string, Kind>

  function Signed(line: Line): int {
    if line.isDebit then line.amount else -line.amount
  }

  /** The net of the lines on the given accounts, debit-positive. */
  function LineNet(lines: seq<Line>, codes: set<string>): int {
    if lines == [] then 0
    else (if lines[0].code in codes then Signed(lines[0]) else 0) + LineNet(lines[1..], codes)
  }

  /** The net over some vouchers. */
  function Net(vouchers: seq<Voucher>, codes: set<string>): int {
    if vouchers == [] then 0 else LineNet(vouchers[0].lines, codes) + Net(vouchers[1..], codes)
  }

  /** The vouchers a condition selects, in order. */
  function Where(vouchers: seq<Voucher>, p: Voucher -> bool): (r: seq<Voucher>)
    ensures forall v :: v in r <==> v in vouchers && p(v)
  {
    if vouchers == [] then []
    else (if p(vouchers[0]) then [vouchers[0]] else []) + Where(vouchers[1..], p)
  }

  predicate IsPosted(v: Voucher, from: int, to: int) {
    v.posted && from <= v.date <= to
  }

  function PostedIn(vouchers: seq<Voucher>, from: int, to: int): seq<Voucher> {
    Where(vouchers, (v: Voucher) => IsPosted(v, from, to))
  }

  function PostedUpTo(vouchers: seq<Voucher>, to: int): seq<Voucher> {
    Where(vouchers, (v: Voucher) => v.posted && v.date <= to)
  }

  function OfKind(chart: Chart, kind: Kind): set<string> {
    set c | c in chart && chart[c] == kind
  }

  function Pnl(chart: Chart): set<string> {
    OfKind(chart, Revenue) + OfKind(chart, Expense)
  }

  /** The lines are on accounts of the chart, and debits equal credits. */
  predicate IsBalanced(chart: Chart, v: Voucher) {
    && (forall l :: l in v.lines ==> l.code in chart)
    && LineNet(v.lines, chart.Keys) == 0
  }

  predicate AreBalanced(chart: Chart, vouchers: seq<Voucher>) {
    forall v :: v in vouchers && v.posted ==> IsBalanced(chart, v)
  }

  // ---------- accounts split, vouchers split ----------

  lemma {:induction false} LineNetSplits(lines: seq<Line>, a: set<string>, b: set<string>)
    requires a !! b
    ensures LineNet(lines, a + b) == LineNet(lines, a) + LineNet(lines, b)
  {
    if lines != [] { LineNetSplits(lines[1..], a, b); }
  }

  lemma {:induction false} NetSplits(vouchers: seq<Voucher>, a: set<string>, b: set<string>)
    requires a !! b
    ensures Net(vouchers, a + b) == Net(vouchers, a) + Net(vouchers, b)
  {
    if vouchers != [] {
      NetSplits(vouchers[1..], a, b);
      LineNetSplits(vouchers[0].lines, a, b);
    }
  }

  lemma {:induction false} NetOfNone(vouchers: seq<Voucher>)
    ensures Net(vouchers, {}) == 0
  {
    if vouchers != [] {
      NetOfNone(vouchers[1..]);
      LineNetOfNone(vouchers[0].lines);
    }
  }

  lemma {:induction false} LineNetOfNone(lines: seq<Line>)
    ensures LineNet(lines, {}) == 0
  {
    if lines != [] { LineNetOfNone(lines[1..]); }
  }

  lemma {:induction false} LineNetOfOthers(lines: seq<Line>, codes: set<string>)
    requires forall l :: l in lines ==> l.code !in codes
    ensures LineNet(lines, codes) == 0
  {
    if lines != [] { LineNetOfOthers(lines[1..], codes); }
  }

  lemma {:induction false} LineNetOfSome(lines: seq<Line>, a: set<string>, b: set<string>)
    requires a <= b && forall l :: l in lines && l.code in b ==> l.code in a
    ensures LineNet(lines, a) == LineNet(lines, b)
  {
    if lines != [] { LineNetOfSome(lines[1..], a, b); }
  }

  lemma {:induction false} NetAppend(a: seq<Voucher>, b: seq<Voucher>, codes: set<string>)
    ensures Net(a + b, codes) == Net(a, codes) + Net(b, codes)
  {
    if a == [] {
      assert a + b == b;
    } else {
      assert (a + b)[1..] == a[1..] + b;
      NetAppend(a[1..], b, codes);
    }
  }

  lemma {:induction false} WhereAppend(a: seq<Voucher>, b: seq<Voucher>, p: Voucher -> bool)
    ensures Where(a + b, p) == Where(a, p) + Where(b, p)
  {
    if a == [] {
      assert a + b == b;
    } else {
      assert (a + b)[1..] == a[1..] + b;
      WhereAppend(a[1..], b, p);
    }
  }

  lemma {:induction false} WhereSame(vouchers: seq<Voucher>, p: Voucher -> bool, q: Voucher -> bool)
    requires forall v :: v in vouchers ==> p(v) == q(v)
    ensures Where(vouchers, p) == Where(vouchers, q)
  {
    if vouchers != [] { WhereSame(vouchers[1..], p, q); }
  }

  /** One more voucher adds its own net where it is selected. */
  lemma NetOfOneMore(vouchers: seq<Voucher>, v: Voucher, p: Voucher -> bool, codes: set<string>)
    ensures Net(Where(vouchers + [v], p), codes)
         == Net(Where(vouchers, p), codes) + if p(v) then LineNet(v.lines, codes) else 0
  {
    WhereAppend(vouchers, [v], p);
    NetAppend(Where(vouchers, p), Where([v], p), codes);
  }

  /** Vouchers selected by one of two conditions that exclude each other. */
  lemma {:induction false} NetOfDisjoint(vouchers: seq<Voucher>, p: Voucher -> bool, q: Voucher -> bool, r: Voucher -> bool, codes: set<string>)
    requires forall v :: v in vouchers ==> !(p(v) && q(v)) && (r(v) <==> p(v) || q(v))
    ensures Net(Where(vouchers, r), codes) == Net(Where(vouchers, p), codes) + Net(Where(vouchers, q), codes)
  {
    if vouchers != [] {
      var v, rest := vouchers[0], vouchers[1..];
      NetOfDisjoint(rest, p, q, r, codes);
      NetAppend(if r(v) then [v] else [], Where(rest, r), codes);
      NetAppend(if p(v) then [v] else [], Where(rest, p), codes);
      NetAppend(if q(v) then [v] else [], Where(rest, q), codes);
    }
  }

  // ---------- a balanced ledger ----------

  /** The trial balance of posted vouchers is zero. */
  lemma {:induction false} TrialBalance(chart: Chart, vouchers: seq<Voucher>)
    requires forall v :: v in vouchers ==> IsBalanced(chart, v)
    ensures Net(vouchers, chart.Keys) == 0
  {
    if vouchers != [] {
      assert IsBalanced(chart, vouchers[0]);
      TrialBalance(chart, vouchers[1..]);
    }
  }

  /** Assets and expenses against liabilities, equity and revenue. */
  lemma KindsAreAll(chart: Chart, vouchers: seq<Voucher>)
    ensures Net(vouchers, chart.Keys)
         == Net(vouchers, OfKind(chart, Asset)) + Net(vouchers, OfKind(chart, Liability))
            + Net(vouchers, OfKind(chart, Equity)) + Net(vouchers, Pnl(chart))
  {
    var a, l, e, p := OfKind(chart, Asset), OfKind(chart, Liability), OfKind(chart, Equity), Pnl(chart);
    NetSplits(vouchers, a, l);
    NetSplits(vouchers, a + l, e);
    NetSplits(vouchers, a + l + e, p);
    assert chart.Keys == a + l + e + p;
  }
}
