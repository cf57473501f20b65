/** Statutory caps on allowances (`allowance-limit.service.ts`, `health-limit.ts`): the health
    exemption per claimant and window, and the high-rate days per claimant and month, over any
    run of create, submit, approve and reject (`allowance.service.ts`, `approvals.service.ts`). */
module AllowanceCaps {
  import opened Wrappers
  import opened MonthSplit

  function Min(a: int, b: int): int { if a < b then a else b }

  function Max(a: int, b: int): int { if a < b then b else a }

  // ---------- windows ----------

  datatype WindowKind = Yearly | Quarterly

  datatype WindowKey = YearOf(year: nat) | QuarterOf(year: nat, quarter: nat)

  function LimitWindowKey(d: Date, kind: WindowKind): WindowKey {
    match kind
    case Yearly => YearOf(d.month / 12)
    case Quarterly => QuarterOf(d.month / 12, d.month % 12 / 3)
  }

  datatype Bounds = Bounds(start: Date, end: Date)

  /** The first and the last day of the window a date falls in. */
  function LimitWindowBounds(d: Date, kind: WindowKind): Bounds {
    var year := d.month / 12;
    match kind
    case Yearly => Bounds(Date(12 * year, 1), Date(12 * year + 11, 31))
    case Quarterly =>
      var first := 12 * year + d.month % 12 / 3 * 3;
      Bounds(Date(first, 1), Date(first + 2, MonthLength(first + 2)))
  }

  /** Dates are stored as text that sorts like this. */
  predicate IsUpTo(a: Date, b: Date) {
    a.month < b.month || (a.month == b.month && a.day <= b.day)
  }

  predicate IsWithin(d: Date, b: Bounds) { IsUpTo(b.start, d) && IsUpTo(d, b.end) }

  /** The bounds the query compares with and the key the allocation is recorded under agree on
      which dates share a window. */
  lemma WindowsAgree(d: Date, e: Date, kind: WindowKind)
    requires d.Valid() && e.Valid()
    ensures IsWithin(e, LimitWindowBounds(d, kind)) <==> LimitWindowKey(e, kind) == LimitWindowKey(d, kind)
  {
    if kind == Yearly {
      assert MonthLength(12 * (d.month / 12) + 11) == 31;
    } else {
      QuarterOfMonth(d.month, e.month);
    }
  }

  lemma QuarterOfMonth(m: nat, n: nat)
    ensures (m / 12 == n / 12 && m % 12 / 3 == n % 12 / 3) <==> 12 * (m / 12) + m % 12 / 3 * 3 <= n <= 12 * (m / 12) + m % 12 / 3 * 3 + 2
  {
    assert m == 12 * (m / 12) + m % 12 && n == 12 * (n / 12) + n % 12;
  }

  // ---------- claims and rules ----------

  datatype Relation = Employee | BoardMember | OtherRelation

  datatype Facts = Facts(relation: Relation, category: string, providerRegistered: bool, documented: bool, offeredToAll: bool)

  datatype Rules = Rules(window: WindowKind, cap: nat, eligible: set<string>, needProvider: set<string>)

  /** The country's rules: health rules by date, high-rate days per month by year and destination.
      `scaled` is how the days of a month come out, rounded in floating point, when the claimant
      claims another number of days than the range has. */
  datatype Plugin = Plugin(
    healthRules: Date -> Option<Rules>, highRateDays: (nat, bool) -> nat, keepsBooksInEuro: bool,
    scaled: (nat, nat, nat) -> nat)

  datatype Kind = Health | Daily

  datatype Status = Draft | NeedsTriage | Posted | Rejected | Cancelled

  datatype Entry = Entry(month: nat, days: nat, highDays: nat)

  /** What a claimant enters. `days` is the number of days claimed, if it is given. */
  datatype Input = Input(
    claimant: nat, kind: Kind, start: Date, end: Option<Date>, gross: nat, facts: Option<Facts>,
    domestic: bool, days: Option<nat>)

  datatype Claim = Claim(input: Input, status: Status, hasVoucher: bool, taxFree: nat, breakdown: seq<Entry>)

  /** A claim counts once its money is in the books, whatever its row is called later. */
  predicate IsBooked(c: Claim) { c.status == Posted || c.hasVoucher }

  predicate IsEligible(facts: Option<Facts>, rules: Rules) {
    && facts.Some?
    && facts.value.relation != OtherRelation
    && facts.value.category in rules.eligible
    && (facts.value.category in rules.needProvider ==> facts.value.providerRegistered)
    && facts.value.documented && facts.value.offeredToAll
  }

  // ---------- sums over the claims ----------

  function Weigh(c: Claim, p: Claim -> bool, f: Claim -> nat): nat { if p(c) then f(c) else 0 }

  function Sum(claims: seq<Claim>, p: Claim -> bool, f: Claim -> nat): nat {
    if claims == [] then 0 else Sum(claims[..|claims| - 1], p, f) + Weigh(claims[|claims| - 1], p, f)
  }

  /** The sum without the claim that is being measured. */
  function SumWithout(claims: seq<Claim>, self: Option<nat>, p: Claim -> bool, f: Claim -> nat): nat {
    if claims == [] then 0
    else
      var n := |claims| - 1;
      SumWithout(claims[..n], self, p, f) + if self == Some(n) then 0 else Weigh(claims[n], p, f)
  }

  function TaxFree(c: Claim): nat { c.taxFree }

  function Gross(c: Claim): nat { c.input.gross }

  function UsesCap(claimant: nat, b: Bounds): Claim -> bool {
    (c: Claim) => c.input.kind == Health && c.input.claimant == claimant && IsBooked(c) && IsWithin(c.input.start, b)
  }

  function DaysIn(entries: seq<Entry>, month: nat): nat {
    if entries == [] then 0 else (if entries[0].month == month then entries[0].days else 0) + DaysIn(entries[1..], month)
  }

  function HighDaysIn(entries: seq<Entry>, month: nat): nat {
    if entries == [] then 0 else (if entries[0].month == month then entries[0].highDays else 0) + HighDaysIn(entries[1..], month)
  }

  function CountsDays(claimant: nat): Claim -> bool {
    (c: Claim) => c.input.kind == Daily && c.input.claimant == claimant && c.status !in {Draft, Rejected, Cancelled}
  }

  function DaysOf(month: nat): Claim -> nat { (c: Claim) => DaysIn(c.breakdown, month) }

  function HighDaysOf(month: nat): Claim -> nat { (c: Claim) => HighDaysIn(c.breakdown, month) }

  // ---------- the splits ----------

  /** The tax-free part of a health claim; none when it is refused. */
  function HealthSplit(claims: seq<Claim>, plugin: Plugin, i: Input, self: Option<nat>): Option<nat> {
    var rules := plugin.healthRules(i.start);
    if rules.None? then Some(0)
    else if !plugin.keepsBooksInEuro then None
    else if i.end.Some? && LimitWindowKey(i.end.value, rules.value.window) != LimitWindowKey(i.start, rules.value.window) then None
    else if !IsEligible(i.facts, rules.value) then Some(0)
    else
      var used := SumWithout(claims, self, UsesCap(i.claimant, LimitWindowBounds(i.start, rules.value.window)), TaxFree);
      Some(Min(i.gross, Max(0, rules.value.cap - used)))
  }

  function End(i: Input): Date { if i.end.Some? then i.end.value else i.start }

  /** How many calendar months the range covers. */
  function Months(i: Input): nat {
    if IsUpTo(i.start, End(i)) then End(i).month - i.start.month + 1 else 0
  }

  /** The days of the range, and those of its `k`th month. */
  function RangeDays(i: Input): nat {
    if IsWellFormed(i) && i.start.Time() <= End(i).Time() then End(i).Time() - i.start.Time() + 1 else 0
  }

  function KthMonthDays(start: Date, end: Date, k: nat): nat {
    if start.Valid() && end.Valid() then DaysWithin(start, end, start.month + k) else 0
  }

  function CalendarDays(i: Input, k: nat): nat { KthMonthDays(i.start, End(i), k) }

  /** Those days, scaled when another number of days is claimed. */
  function DayCount(plugin: Plugin, i: Input, k: nat): nat {
    if i.days.None? || i.days.value == RangeDays(i) then CalendarDays(i, k)
    else plugin.scaled(CalendarDays(i, k), i.days.value, RangeDays(i))
  }

  /** The days of the month that earlier claims have taken. */
  function AccumulatedDays(claims: seq<Claim>, claimant: nat, month: nat, self: Option<nat>): nat {
    SumWithout(claims, self, CountsDays(claimant), DaysOf(month))
  }

  function QuotaOf(plugin: Plugin, i: Input): nat { plugin.highRateDays(i.start.month / 12, i.domestic) }

  function DailyEntry(claims: seq<Claim>, plugin: Plugin, i: Input, self: Option<nat>, k: nat): Entry {
    var days := DayCount(plugin, i, k);
    Entry(i.start.month + k, days,
          Min(days, Max(0, QuotaOf(plugin, i) - AccumulatedDays(claims, i.claimant, i.start.month + k, self))))
  }

  /** One entry per month: what remains of the month's quota at the high rate. */
  function DailySplit(claims: seq<Claim>, plugin: Plugin, i: Input, self: Option<nat>): (r: seq<Entry>)
    ensures |r| == Months(i)
    ensures forall k :: 0 <= k < |r| ==> r[k] == DailyEntry(claims, plugin, i, self, k)
  {
    seq(Months(i), k requires 0 <= k < Months(i) => DailyEntry(claims, plugin, i, self, k))
  }

  // ---------- steps ----------

  datatype Step =
    | Create(input: Input)
    | Submit(id: nat)
    | Approve(id: nat, derived: bool)
    | Reject(id: nat)
    | Relabel(id: nat, status: Status)

  /** The claim with the split the rules give it now; none when it is refused. */
  function WithSplit(claims: seq<Claim>, plugin: Plugin, c: Claim, self: Option<nat>): Option<Claim> {
    match c.input.kind
    case Health =>
      var taxFree := HealthSplit(claims, plugin, c.input, self);
      if taxFree.None? then None else Some(c.(taxFree := taxFree.value))
    case Daily => Some(c.(breakdown := DailySplit(claims, plugin, c.input, self)))
  }

  predicate IsWellFormed(i: Input) { i.start.Valid() && (i.end.Some? ==> i.end.value.Valid()) }

  predicate Has(claims: seq<Claim>, id: nat, status: Status) { id < |claims| && claims[id].status == status }

  function SetStatus(claims: seq<Claim>, id: nat, status: Status): seq<Claim>
    requires id < |claims|
  {
    claims[id := claims[id].(status := status)]
  }

  /** Approving decides the split, writes it, posts the voucher and flips the status at once. */
  function Next(claims: seq<Claim>, plugin: Plugin, step: Step): seq<Claim> {
    match step
    case Create(i) =>
      var c := WithSplit(claims, plugin, Claim(i, Draft, false, 0, []), None);
      if IsWellFormed(i) && c.Some? then claims + [c.value] else claims
    case Submit(id) => if Has(claims, id, Draft) then SetStatus(claims, id, NeedsTriage) else claims
    case Approve(id, derived) =>
      if !Has(claims, id, NeedsTriage) || !derived then claims
      else
        var c := WithSplit(claims, plugin, claims[id], Some(id));
        if c.None? then claims else claims[id := c.value.(status := Posted, hasVoucher := true)]
    case Reject(id) => if Has(claims, id, NeedsTriage) then SetStatus(claims, id, Draft) else claims
    case Relabel(id, status) =>
      if id < |claims| && status in {Rejected, Cancelled} then SetStatus(claims, id, status) else claims
  }

  function Run(plugin: Plugin, steps: seq<Step>): seq<Claim> {
    if steps == [] then [] else Next(Run(plugin, steps[..|steps| - 1]), plugin, steps[|steps| - 1])
  }

  // ---------- sums under one change ----------

  lemma {:induction false} SumChange(claims: seq<Claim>, id: nat, c: Claim, p: Claim -> bool, f: Claim -> nat)
    requires id < |claims|
    ensures Sum(claims[id := c], p, f) + Weigh(claims[id], p, f) == Sum(claims, p, f) + Weigh(c, p, f)
    decreases |claims|
  {
    var n := |claims| - 1;
    if id == n {
      assert claims[id := c][..n] == claims[..n];
    } else {
      SumChange(claims[..n], id, c, p, f);
      assert claims[id := c][..n] == claims[..n][id := c];
    }
  }

  lemma {:induction false} SumAppend(claims: seq<Claim>, c: Claim, p: Claim -> bool, f: Claim -> nat)
    ensures Sum(claims + [c], p, f) == Sum(claims, p, f) + Weigh(c, p, f)
  {
    assert (claims + [c])[..|claims|] == claims;
  }

  lemma {:induction false} SumWithoutOne(claims: seq<Claim>, id: nat, p: Claim -> bool, f: Claim -> nat)
    requires id < |claims| ==> !p(claims[id])
    ensures SumWithout(claims, Some(id), p, f) == Sum(claims, p, f)
    decreases |claims|
  {
    if claims != [] { SumWithoutOne(claims[..|claims| - 1], id, p, f); }
  }

  lemma {:induction false} SumSame(claims: seq<Claim>, p: Claim -> bool, q: Claim -> bool, f: Claim -> nat)
    requires forall c :: c in claims ==> p(c) == q(c)
    ensures Sum(claims, p, f) == Sum(claims, q, f)
    decreases |claims|
  {
    if claims != [] { SumSame(claims[..|claims| - 1], p, q, f); }
  }

  /** What is counted by more claims, and more for each, is more; leaving one out that was not
      counted takes nothing away. */
  lemma {:induction false} SumWithoutDominates(claims: seq<Claim>, id: nat, p: Claim -> bool, f: Claim -> nat, q: Claim -> bool, g: Claim -> nat)
    requires id < |claims| ==> !p(claims[id])
    requires forall c :: c in claims && p(c) ==> q(c) && f(c) <= g(c)
    ensures Sum(claims, p, f) <= SumWithout(claims, Some(id), q, g)
    decreases |claims|
  {
    if claims != [] { SumWithoutDominates(claims[..|claims| - 1], id, p, f, q, g); }
  }

  // ---------- what every claim keeps ----------

  predicate EntriesOk(entries: seq<Entry>) {
    forall e :: e in entries ==> e.highDays <= e.days
  }

  predicate ClaimOk(c: Claim) {
    && IsWellFormed(c.input) && EntriesOk(c.breakdown)
    && (c.status in {Draft, NeedsTriage} ==> !c.hasVoucher)
    && (c.status == Posted ==> c.hasVoucher)
  }

  ghost predicate AreOk(claims: seq<Claim>) {
    forall i :: 0 <= i < |claims| ==> ClaimOk(claims[i])
  }

  lemma SplitIsOk(claims: seq<Claim>, plugin: Plugin, c: Claim, self: Option<nat>)
    requires EntriesOk(c.breakdown) && WithSplit(claims, plugin, c, self).Some?
    ensures var d := WithSplit(claims, plugin, c, self).value;
            EntriesOk(d.breakdown) && d.input == c.input && d.status == c.status && d.hasVoucher == c.hasVoucher
  {}

  lemma ChangeIsOk(claims: seq<Claim>, id: nat, c: Claim)
    requires AreOk(claims) && id < |claims| && ClaimOk(c)
    ensures AreOk(claims[id := c])
  {}

  lemma StepIsOk(claims: seq<Claim>, plugin: Plugin, step: Step)
    requires AreOk(claims)
    ensures AreOk(Next(claims, plugin, step))
  {
    match step
    case Create(i) =>
      var c := Claim(i, Draft, false, 0, []);
      if WithSplit(claims, plugin, c, None).Some? { SplitIsOk(claims, plugin, c, None); }
    case Submit(id) => if Has(claims, id, Draft) { ChangeIsOk(claims, id, claims[id].(status := NeedsTriage)); }
    case Approve(id, derived) =>
      if Has(claims, id, NeedsTriage) && WithSplit(claims, plugin, claims[id], Some(id)).Some? {
        SplitIsOk(claims, plugin, claims[id], Some(id));
        ChangeIsOk(claims, id, WithSplit(claims, plugin, claims[id], Some(id)).value.(status := Posted, hasVoucher := true));
      }
    case Reject(id) => if Has(claims, id, NeedsTriage) { ChangeIsOk(claims, id, claims[id].(status := Draft)); }
    case Relabel(id, status) =>
      if id < |claims| && status in {Rejected, Cancelled} { ChangeIsOk(claims, id, claims[id].(status := status)); }
  }

  lemma {:induction false} RunIsOk(plugin: Plugin, steps: seq<Step>)
    ensures AreOk(Run(plugin, steps))
  {
    if steps != [] {
      RunIsOk(plugin, steps[..|steps| - 1]);
      StepIsOk(Run(plugin, steps[..|steps| - 1]), plugin, steps[|steps| - 1]);
    }
  }

  // ---------- the health exemption ----------

  /** The rules are constant in the window of a date. */
  ghost predicate RulesHold(plugin: Plugin, day: Date, rules: Rules) {
    forall d: Date :: d.Valid() && LimitWindowKey(d, rules.window) == LimitWindowKey(day, rules.window) ==>
      plugin.healthRules(d) == Some(rules)
  }

  predicate IsInWindow(c: Claim, day: Date, rules: Rules) {
    LimitWindowKey(c.input.start, rules.window) == LimitWindowKey(day, rules.window)
  }

  /** The booked health claims of a claimant in the window. */
  function Booked(claimant: nat, day: Date, rules: Rules): Claim -> bool {
    (c: Claim) => c.input.kind == Health && c.input.claimant == claimant && IsBooked(c) && IsInWindow(c, day, rules)
  }

  function BookedEligible(claimant: nat, day: Date, rules: Rules): Claim -> bool {
    (c: Claim) => Booked(claimant, day, rules)(c) && IsEligible(c.input.facts, rules)
  }

  /** What the window has exempted is the cap, or everything eligible that was booked. */
  predicate CapIsExact(claims: seq<Claim>, claimant: nat, day: Date, rules: Rules) {
    Sum(claims, Booked(claimant, day, rules), TaxFree) == Min(rules.cap, Sum(claims, BookedEligible(claimant, day, rules), Gross))
  }

  /** The query reads exactly the window of the claim. */
  lemma UsedIsTheWindow(claims: seq<Claim>, id: nat, claimant: nat, start: Date, day: Date, rules: Rules)
    requires AreOk(claims) && start.Valid() && (id < |claims| ==> !IsBooked(claims[id]))
    requires LimitWindowKey(start, rules.window) == LimitWindowKey(day, rules.window)
    ensures SumWithout(claims, Some(id), UsesCap(claimant, LimitWindowBounds(start, rules.window)), TaxFree)
         == Sum(claims, Booked(claimant, day, rules), TaxFree)
  {
    var p, q := UsesCap(claimant, LimitWindowBounds(start, rules.window)), Booked(claimant, day, rules);
    SumWithoutOne(claims, id, p, TaxFree);
    forall c | c in claims ensures p(c) == q(c) {
      var i :| 0 <= i < |claims| && claims[i] == c;
      assert ClaimOk(claims[i]);
      WindowsAgree(start, c.input.start, rules.window);
    }
    SumSame(claims, p, q, TaxFree);
  }

  /** A change that no booked claim takes part in. */
  lemma UnbookedChange(claims: seq<Claim>, id: nat, c: Claim, claimant: nat, day: Date, rules: Rules)
    requires id < |claims| && CapIsExact(claims, claimant, day, rules)
    requires c.input == claims[id].input && c.taxFree == claims[id].taxFree && IsBooked(c) == IsBooked(claims[id])
    ensures CapIsExact(claims[id := c], claimant, day, rules)
  {
    SumChange(claims, id, c, Booked(claimant, day, rules), TaxFree);
    SumChange(claims, id, c, BookedEligible(claimant, day, rules), Gross);
  }

  /** A claim of another window, another claimant or another kind. */
  lemma ForeignPost(claims: seq<Claim>, id: nat, c: Claim, claimant: nat, day: Date, rules: Rules)
    requires id < |claims| && CapIsExact(claims, claimant, day, rules)
    requires c.input == claims[id].input && !(c.input.kind == Health && c.input.claimant == claimant && IsInWindow(c, day, rules))
    ensures CapIsExact(claims[id := c], claimant, day, rules)
  {
    SumChange(claims, id, c, Booked(claimant, day, rules), TaxFree);
    SumChange(claims, id, c, BookedEligible(claimant, day, rules), Gross);
  }

  /** Posting takes from the cap what is left of it, and no more. */
  lemma PostIsExact(claims: seq<Claim>, plugin: Plugin, id: nat, claimant: nat, day: Date, rules: Rules)
    requires AreOk(claims) && CapIsExact(claims, claimant, day, rules) && RulesHold(plugin, day, rules)
    requires Has(claims, id, NeedsTriage) && WithSplit(claims, plugin, claims[id], Some(id)).Some?
    requires claims[id].input.kind == Health && claims[id].input.claimant == claimant && IsInWindow(claims[id], day, rules)
    ensures CapIsExact(claims[id := WithSplit(claims, plugin, claims[id], Some(id)).value.(status := Posted, hasVoucher := true)], claimant, day, rules)
  {
    var i := claims[id].input;
    assert ClaimOk(claims[id]);
    assert plugin.healthRules(i.start) == Some(rules);
    UsedIsTheWindow(claims, id, claimant, i.start, day, rules);
    var c := WithSplit(claims, plugin, claims[id], Some(id)).value.(status := Posted, hasVoucher := true);
    SumChange(claims, id, c, Booked(claimant, day, rules), TaxFree);
    SumChange(claims, id, c, BookedEligible(claimant, day, rules), Gross);
  }

  lemma ApproveIsExact(claims: seq<Claim>, plugin: Plugin, id: nat, derived: bool, claimant: nat, day: Date, rules: Rules)
    requires AreOk(claims) && CapIsExact(claims, claimant, day, rules) && RulesHold(plugin, day, rules)
    ensures CapIsExact(Next(claims, plugin, Approve(id, derived)), claimant, day, rules)
  {
    if Has(claims, id, NeedsTriage) && derived && WithSplit(claims, plugin, claims[id], Some(id)).Some? {
      var c := WithSplit(claims, plugin, claims[id], Some(id)).value.(status := Posted, hasVoucher := true);
      if claims[id].input.kind == Health && claims[id].input.claimant == claimant && IsInWindow(claims[id], day, rules) {
        PostIsExact(claims, plugin, id, claimant, day, rules);
      } else {
        SplitIsOk(claims, plugin, claims[id], Some(id));
        ForeignPost(claims, id, c, claimant, day, rules);
      }
    }
  }

  lemma CreateIsExact(claims: seq<Claim>, plugin: Plugin, i: Input, claimant: nat, day: Date, rules: Rules)
    requires CapIsExact(claims, claimant, day, rules)
    ensures CapIsExact(Next(claims, plugin, Create(i)), claimant, day, rules)
  {
    var c := WithSplit(claims, plugin, Claim(i, Draft, false, 0, []), None);
    if c.Some? {
      SplitIsOk(claims, plugin, Claim(i, Draft, false, 0, []), None);
      SumAppend(claims, c.value, Booked(claimant, day, rules), TaxFree);
      SumAppend(claims, c.value, BookedEligible(claimant, day, rules), Gross);
    }
  }

  lemma StepIsExact(claims: seq<Claim>, plugin: Plugin, step: Step, claimant: nat, day: Date, rules: Rules)
    requires AreOk(claims) && CapIsExact(claims, claimant, day, rules) && RulesHold(plugin, day, rules)
    ensures CapIsExact(Next(claims, plugin, step), claimant, day, rules)
  {
    match step
    case Create(i) => CreateIsExact(claims, plugin, i, claimant, day, rules);
    case Approve(id, derived) => ApproveIsExact(claims, plugin, id, derived, claimant, day, rules);
    case Submit(id) =>
      if Has(claims, id, Draft) { UnbookedChange(claims, id, claims[id].(status := NeedsTriage), claimant, day, rules); }
    case Reject(id) =>
      if Has(claims, id, NeedsTriage) { UnbookedChange(claims, id, claims[id].(status := Draft), claimant, day, rules); }
    case Relabel(id, status) =>
      if id < |claims| && status in {Rejected, Cancelled} {
        assert ClaimOk(claims[id]);
        UnbookedChange(claims, id, claims[id].(status := status), claimant, day, rules);
      }
  }

  /** The cap over all runs. With rules constant in a window, after any sequence of steps, the
      exemption booked for a claimant in that window is the cap or the total of the eligible
      claims booked in it, whichever is less: whatever the order of the approvals, whatever was
      drafted, rejected or relabelled in between. */
  lemma {:induction false} ExemptionIsExact(plugin: Plugin, steps: seq<Step>, claimant: nat, day: Date, rules: Rules)
    requires RulesHold(plugin, day, rules)
    ensures Sum(Run(plugin, steps), Booked(claimant, day, rules), TaxFree)
         == Min(rules.cap, Sum(Run(plugin, steps), BookedEligible(claimant, day, rules), Gross))
  {
    if steps != [] {
      var before := Run(plugin, steps[..|steps| - 1]);
      RunIsOk(plugin, steps[..|steps| - 1]);
      ExemptionIsExact(plugin, steps[..|steps| - 1], claimant, day, rules);
      StepIsExact(before, plugin, steps[|steps| - 1], claimant, day, rules);
    }
  }

  // ---------- the daily allowance ----------

  function PostedDaily(claimant: nat): Claim -> bool {
    (c: Claim) => c.input.kind == Daily && c.input.claimant == claimant && c.status == Posted
  }

  ghost predicate QuotaHolds(claims: seq<Claim>, claimant: nat, month: nat, quota: nat) {
    Sum(claims, PostedDaily(claimant), HighDaysOf(month)) <= quota
  }

  lemma {:induction false} HighIsSomeDays(entries: seq<Entry>, month: nat)
    requires EntriesOk(entries)
    ensures HighDaysIn(entries, month) <= DaysIn(entries, month)
  {
    if entries != [] {
      assert EntriesOk(entries[1..]);
      HighIsSomeDays(entries[1..], month);
    }
  }

  /** The months of a split are consecutive, so each month has at most one entry. */
  lemma {:induction false} OneEntryPerMonth(entries: seq<Entry>, first: nat, month: nat, bound: nat)
    requires forall k :: 0 <= k < |entries| ==> entries[k].month == first + k
    requires forall k :: 0 <= k < |entries| && entries[k].month == month ==> entries[k].highDays <= bound
    ensures HighDaysIn(entries, month) <= bound
    ensures first > month ==> HighDaysIn(entries, month) == 0
  {
    if entries != [] { OneEntryPerMonth(entries[1..], first + 1, month, bound); }
  }

  /** The days that earlier claims have taken cover the high-rate days posted so far. */
  lemma PostedIsAccumulated(claims: seq<Claim>, id: nat, claimant: nat, month: nat)
    requires AreOk(claims) && Has(claims, id, NeedsTriage)
    ensures Sum(claims, PostedDaily(claimant), HighDaysOf(month)) <= AccumulatedDays(claims, claimant, month, Some(id))
  {
    forall d | d in claims && PostedDaily(claimant)(d)
      ensures CountsDays(claimant)(d) && HighDaysOf(month)(d) <= DaysOf(month)(d)
    {
      var k :| 0 <= k < |claims| && claims[k] == d;
      assert ClaimOk(claims[k]);
      HighIsSomeDays(d.breakdown, month);
    }
    SumWithoutDominates(claims, id, PostedDaily(claimant), HighDaysOf(month), CountsDays(claimant), DaysOf(month));
  }

  lemma SplitFits(claims: seq<Claim>, plugin: Plugin, i: Input, self: Option<nat>, month: nat, bound: nat)
    requires QuotaOf(plugin, i) - AccumulatedDays(claims, i.claimant, month, self) <= bound
    ensures HighDaysIn(DailySplit(claims, plugin, i, self), month) <= bound
  {
    var entries := DailySplit(claims, plugin, i, self);
    DailySplitIsFull(claims, plugin, i, self);
    forall k | 0 <= k < |entries| ensures entries[k].month == i.start.month + k && (entries[k].month == month ==> entries[k].highDays <= bound) {
      assert entries[k].month == i.start.month + k;
    }
    OneEntryPerMonth(entries, i.start.month, month, bound);
  }

  lemma DailyPostFits(claims: seq<Claim>, plugin: Plugin, id: nat, claimant: nat, month: nat, quota: nat)
    requires AreOk(claims) && QuotaHolds(claims, claimant, month, quota)
    requires Has(claims, id, NeedsTriage) && claims[id].input.kind == Daily && claims[id].input.claimant == claimant
    requires QuotaOf(plugin, claims[id].input) <= quota
    ensures var c := WithSplit(claims, plugin, claims[id], Some(id)).value.(status := Posted, hasVoucher := true);
            QuotaHolds(claims[id := c], claimant, month, quota)
  {
    var c := WithSplit(claims, plugin, claims[id], Some(id)).value.(status := Posted, hasVoucher := true);
    PostedIsAccumulated(claims, id, claimant, month);
    var left := quota - Sum(claims, PostedDaily(claimant), HighDaysOf(month));
    SplitFits(claims, plugin, claims[id].input, Some(id), month, left);
    SumChange(claims, id, c, PostedDaily(claimant), HighDaysOf(month));
  }

  lemma QuotaUnderChange(claims: seq<Claim>, id: nat, c: Claim, claimant: nat, month: nat, quota: nat)
    requires id < |claims| && QuotaHolds(claims, claimant, month, quota)
    requires PostedDaily(claimant)(c) ==> PostedDaily(claimant)(claims[id]) && c.breakdown == claims[id].breakdown
    ensures QuotaHolds(claims[id := c], claimant, month, quota)
  {
    SumChange(claims, id, c, PostedDaily(claimant), HighDaysOf(month));
  }

  lemma QuotaStep(claims: seq<Claim>, plugin: Plugin, step: Step, claimant: nat, month: nat, quota: nat)
    requires AreOk(claims) && QuotaHolds(claims, claimant, month, quota)
    requires forall year, domestic :: plugin.highRateDays(year, domestic) <= quota
    ensures QuotaHolds(Next(claims, plugin, step), claimant, month, quota)
  {
    match step
    case Create(i) =>
      var c := WithSplit(claims, plugin, Claim(i, Draft, false, 0, []), None);
      if c.Some? {
        SplitIsOk(claims, plugin, Claim(i, Draft, false, 0, []), None);
        SumAppend(claims, c.value, PostedDaily(claimant), HighDaysOf(month));
      }
    case Submit(id) => if Has(claims, id, Draft) { QuotaUnderChange(claims, id, claims[id].(status := NeedsTriage), claimant, month, quota); }
    case Reject(id) => if Has(claims, id, NeedsTriage) { QuotaUnderChange(claims, id, claims[id].(status := Draft), claimant, month, quota); }
    case Relabel(id, status) =>
      if id < |claims| && status in {Rejected, Cancelled} { QuotaUnderChange(claims, id, claims[id].(status := status), claimant, month, quota); }
    case Approve(id, derived) => QuotaApprove(claims, plugin, id, derived, claimant, month, quota);
  }

  lemma QuotaApprove(claims: seq<Claim>, plugin: Plugin, id: nat, derived: bool, claimant: nat, month: nat, quota: nat)
    requires AreOk(claims) && QuotaHolds(claims, claimant, month, quota)
    requires forall year, domestic :: plugin.highRateDays(year, domestic) <= quota
    ensures QuotaHolds(Next(claims, plugin, Approve(id, derived)), claimant, month, quota)
  {
    if Has(claims, id, NeedsTriage) && derived && WithSplit(claims, plugin, claims[id], Some(id)).Some? {
      var c := WithSplit(claims, plugin, claims[id], Some(id)).value.(status := Posted, hasVoucher := true);
      if claims[id].input.kind == Daily && claims[id].input.claimant == claimant {
        DailyPostFits(claims, plugin, id, claimant, month, quota);
      } else {
        SplitIsOk(claims, plugin, claims[id], Some(id));
        QuotaUnderChange(claims, id, c, claimant, month, quota);
      }
    }
  }

  /** The monthly quota over all runs: the posted high-rate days of a claimant in a calendar month
      never exceed the quota, trips across month ends included. */
  lemma {:induction false} HighRateDaysStayInQuota(plugin: Plugin, steps: seq<Step>, claimant: nat, month: nat, quota: nat)
    requires forall year, domestic :: plugin.highRateDays(year, domestic) <= quota
    ensures Sum(Run(plugin, steps), PostedDaily(claimant), HighDaysOf(month)) <= quota
  {
    if steps != [] {
      var before := Run(plugin, steps[..|steps| - 1]);
      RunIsOk(plugin, steps[..|steps| - 1]);
      HighRateDaysStayInQuota(plugin, steps[..|steps| - 1], claimant, month, quota);
      assert QuotaHolds(before, claimant, month, quota);
      QuotaStep(before, plugin, steps[|steps| - 1], claimant, month, quota);
    }
  }

  // ---------- the whole quota ----------

  function CountedDaily(claimant: nat): Claim -> bool {
    (c: Claim) => c.input.kind == Daily && c.input.claimant == claimant && c.status in {NeedsTriage, Posted}
  }

  function Others(claims: seq<Claim>, self: Option<nat>): seq<Claim> {
    if self.Some? && self.value < |claims| then claims[..self.value] + claims[self.value + 1..] else claims
  }

  lemma OthersOfOneMore(claims: seq<Claim>, self: Option<nat>, c: Claim)
    ensures Others(claims + [c], self) == if self == Some(|claims|) then claims else Others(claims, self) + [c]
  {}

  lemma {:induction false} SumWithoutIsSumOfOthers(claims: seq<Claim>, self: Option<nat>, p: Claim -> bool, f: Claim -> nat)
    ensures SumWithout(claims, self, p, f) == Sum(Others(claims, self), p, f)
    decreases |claims|
  {
    if claims != [] {
      var n := |claims| - 1;
      assert claims == claims[..n] + [claims[n]];
      OthersOfOneMore(claims[..n], self, claims[n]);
      SumWithoutIsSumOfOthers(claims[..n], self, p, f);
      if self == Some(n) {
        assert Others(claims[..n], self) == claims[..n];
      } else {
        SumAppend(Others(claims[..n], self), claims[n], p, f);
      }
    }
  }

  lemma CountedIff(c: Claim, claimant: nat)
    ensures CountsDays(claimant)(c) == CountedDaily(claimant)(c)
  {
    match c.status
    case Draft =>
    case NeedsTriage =>
    case Posted =>
    case Rejected =>
    case Cancelled =>
  }

  /** The days taken in a month are those of the other claims in triage or posted. */
  lemma AccumulatedIsTaken(claims: seq<Claim>, claimant: nat, month: nat, self: Option<nat>)
    ensures AccumulatedDays(claims, claimant, month, self) == Sum(Others(claims, self), CountedDaily(claimant), DaysOf(month))
  {
    var p, q := CountsDays(claimant), CountedDaily(claimant);
    SumWithoutIsSumOfOthers(claims, self, p, DaysOf(month));
    forall c | c in Others(claims, self) ensures p(c) == q(c) { CountedIff(c, claimant); }
    SumSame(Others(claims, self), p, q, DaysOf(month));
  }

  /** No entry can be raised: its days are all at the high rate, or the month's quota is used up. */
  predicate IsFullEntry(e: Entry, taken: nat, quota: nat) {
    && e.highDays <= e.days && (e.highDays > 0 ==> e.highDays + taken <= quota)
    && (e.highDays == e.days || quota <= e.highDays + taken)
  }

  predicate IsFullSplit(claims: seq<Claim>, plugin: Plugin, i: Input, self: Option<nat>, entries: seq<Entry>) {
    forall k :: 0 <= k < |entries| ==>
      entries[k].month == i.start.month + k
      && IsFullEntry(entries[k], AccumulatedDays(claims, i.claimant, i.start.month + k, self), QuotaOf(plugin, i))
  }

  lemma EntryIsFull(days: nat, taken: nat, quota: nat, month: nat)
    ensures IsFullEntry(Entry(month, days, Min(days, Max(0, quota - taken))), taken, quota)
  {}

  lemma DailyEntryIsFull(claims: seq<Claim>, plugin: Plugin, i: Input, self: Option<nat>, k: nat)
    ensures DailyEntry(claims, plugin, i, self, k).month == i.start.month + k
    ensures IsFullEntry(DailyEntry(claims, plugin, i, self, k),
                        AccumulatedDays(claims, i.claimant, i.start.month + k, self), QuotaOf(plugin, i))
  {
    EntryIsFull(DayCount(plugin, i, k), AccumulatedDays(claims, i.claimant, i.start.month + k, self), QuotaOf(plugin, i), i.start.month + k);
  }

  lemma DailySplitIsFull(claims: seq<Claim>, plugin: Plugin, i: Input, self: Option<nat>)
    ensures IsFullSplit(claims, plugin, i, self, DailySplit(claims, plugin, i, self))
  {
    forall k | 0 <= k < |DailySplit(claims, plugin, i, self)|
      ensures var e := DailySplit(claims, plugin, i, self)[k];
              e.month == i.start.month + k
              && IsFullEntry(e, AccumulatedDays(claims, i.claimant, i.start.month + k, self), QuotaOf(plugin, i))
    {
      DailyEntryIsFull(claims, plugin, i, self, k);
    }
  }

  lemma {:induction false} OneFullEntry(entries: seq<Entry>, first: nat, month: nat, taken: nat, quota: nat)
    requires forall k :: 0 <= k < |entries| ==> entries[k].month == first + k
    requires forall k :: 0 <= k < |entries| && entries[k].month == month ==> IsFullEntry(entries[k], taken, quota)
    ensures HighDaysIn(entries, month) == Min(DaysIn(entries, month), Max(0, quota - taken))
    ensures first > month ==> HighDaysIn(entries, month) == DaysIn(entries, month) == 0
  {
    if entries != [] { OneFullEntry(entries[1..], first + 1, month, taken, quota); }
  }

  function WaitingDaily(claimant: nat): Claim -> bool {
    (c: Claim) => c.input.kind == Daily && c.input.claimant == claimant && c.status == NeedsTriage
  }

  /** The days of the month that other claims of the claimant in triage would take. */
  function WaitingDays(claims: seq<Claim>, id: nat, claimant: nat, month: nat): nat {
    SumWithout(claims, Some(id), WaitingDaily(claimant), DaysOf(month))
  }

  lemma {:induction false} SumWithoutSplits(claims: seq<Claim>, id: nat, p: Claim -> bool, q: Claim -> bool, r: Claim -> bool, f: Claim -> nat)
    requires id < |claims| ==> !q(claims[id])
    requires forall c :: c in claims ==> Weigh(c, p, f) == Weigh(c, q, f) + Weigh(c, r, f)
    ensures SumWithout(claims, Some(id), p, f) == Sum(claims, q, f) + SumWithout(claims, Some(id), r, f)
    decreases |claims|
  {
    if claims != [] { SumWithoutSplits(claims[..|claims| - 1], id, p, q, r, f); }
  }

  /** The days taken are the posted ones and those of the other claims that wait. */
  lemma TakenIsPostedOrWaiting(claims: seq<Claim>, id: nat, claimant: nat, month: nat)
    requires Has(claims, id, NeedsTriage)
    ensures AccumulatedDays(claims, claimant, month, Some(id))
         == Sum(claims, PostedDaily(claimant), DaysOf(month)) + WaitingDays(claims, id, claimant, month)
  {
    var p, q, r := CountsDays(claimant), PostedDaily(claimant), WaitingDaily(claimant);
    forall c | c in claims ensures Weigh(c, p, DaysOf(month)) == Weigh(c, q, DaysOf(month)) + Weigh(c, r, DaysOf(month)) {
      CountedIff(c, claimant);
    }
    SumWithoutSplits(claims, id, p, q, r, DaysOf(month));
  }

  /** The posted high-rate days are as many as the quota allows. */
  ghost predicate QuotaIsExact(claims: seq<Claim>, claimant: nat, month: nat, quota: nat) {
    Sum(claims, PostedDaily(claimant), HighDaysOf(month)) == Min(quota, Sum(claims, PostedDaily(claimant), DaysOf(month)))
  }

  /** The days of the month that the claim would be given, whatever the rate. */
  function NewDays(claims: seq<Claim>, plugin: Plugin, id: nat, month: nat): nat
    requires id < |claims|
  {
    DaysIn(DailySplit(claims, plugin, claims[id].input, Some(id)), month)
  }

  /** Claims that wait take nothing from the one that is approved: there are none, or it has no
      day of the month, or the quota is used up anyway, or there is enough for all of them. */
  predicate WaitingCostsNothing(claims: seq<Claim>, plugin: Plugin, id: nat, claimant: nat, month: nat, quota: nat)
    requires id < |claims|
  {
    var posted, waiting, days := Sum(claims, PostedDaily(claimant), DaysOf(month)), WaitingDays(claims, id, claimant, month),
                                 NewDays(claims, plugin, id, month);
    waiting == 0 || days == 0 || quota <= posted || posted + waiting + days <= quota
  }

  /** A posted claim that is taken out leaves as many high-rate days as the quota allows the rest. */
  predicate RestKeepsItsDays(claims: seq<Claim>, id: nat, claimant: nat, month: nat, quota: nat)
    requires id < |claims|
  {
    var posted, days := Sum(claims, PostedDaily(claimant), DaysOf(month)), DaysIn(claims[id].breakdown, month);
    HighDaysIn(claims[id].breakdown, month) == Min(quota, posted) - Min(quota, posted - days)
  }

  predicate KeepsQuotaExact(claims: seq<Claim>, plugin: Plugin, step: Step, claimant: nat, month: nat, quota: nat) {
    match step
    case Approve(id, derived) =>
      Has(claims, id, NeedsTriage) && derived && claims[id].input.kind == Daily && claims[id].input.claimant == claimant ==>
        WaitingCostsNothing(claims, plugin, id, claimant, month, quota)
    case Relabel(id, status) =>
      id < |claims| && status in {Rejected, Cancelled} && PostedDaily(claimant)(claims[id]) ==>
        RestKeepsItsDays(claims, id, claimant, month, quota)
    case _ => true
  }

  lemma UnpostedDaily(claims: seq<Claim>, id: nat, c: Claim, claimant: nat, month: nat, quota: nat)
    requires id < |claims| && QuotaIsExact(claims, claimant, month, quota)
    requires !PostedDaily(claimant)(c) && !PostedDaily(claimant)(claims[id])
    ensures QuotaIsExact(claims[id := c], claimant, month, quota)
  {
    SumChange(claims, id, c, PostedDaily(claimant), HighDaysOf(month));
    SumChange(claims, id, c, PostedDaily(claimant), DaysOf(month));
  }

  lemma FullInMonth(claims: seq<Claim>, plugin: Plugin, i: Input, self: Option<nat>, month: nat)
    ensures var r := DailySplit(claims, plugin, i, self);
            HighDaysIn(r, month) == Min(DaysIn(r, month), Max(0, QuotaOf(plugin, i) - AccumulatedDays(claims, i.claimant, month, self)))
  {
    var r, taken, quota := DailySplit(claims, plugin, i, self), AccumulatedDays(claims, i.claimant, month, self), QuotaOf(plugin, i);
    DailySplitIsFull(claims, plugin, i, self);
    forall k | 0 <= k < |r| ensures r[k].month == i.start.month + k && (r[k].month == month ==> IsFullEntry(r[k], taken, quota)) {
      assert r[k].month == i.start.month + k;
    }
    OneFullEntry(r, i.start.month, month, taken, quota);
  }

  lemma PostIsExactIff(claims: seq<Claim>, id: nat, c: Claim, claimant: nat, month: nat, quota: nat, waiting: nat)
    requires id < |claims| && QuotaIsExact(claims, claimant, month, quota)
    requires PostedDaily(claimant)(c) && !PostedDaily(claimant)(claims[id])
    requires HighDaysIn(c.breakdown, month)
          == Min(DaysIn(c.breakdown, month), Max(0, quota - (Sum(claims, PostedDaily(claimant), DaysOf(month)) + waiting)))
    ensures var posted, days := Sum(claims, PostedDaily(claimant), DaysOf(month)), DaysIn(c.breakdown, month);
            QuotaIsExact(claims[id := c], claimant, month, quota)
            <==> waiting == 0 || days == 0 || quota <= posted || posted + waiting + days <= quota
  {
    SumChange(claims, id, c, PostedDaily(claimant), HighDaysOf(month));
    SumChange(claims, id, c, PostedDaily(claimant), DaysOf(month));
  }

  lemma DailyPostIsExactIff(claims: seq<Claim>, plugin: Plugin, id: nat, claimant: nat, month: nat, quota: nat)
    requires QuotaIsExact(claims, claimant, month, quota)
    requires Has(claims, id, NeedsTriage) && claims[id].input.kind == Daily && claims[id].input.claimant == claimant
    requires QuotaOf(plugin, claims[id].input) == quota
    ensures var c := WithSplit(claims, plugin, claims[id], Some(id)).value.(status := Posted, hasVoucher := true);
            QuotaIsExact(claims[id := c], claimant, month, quota) <==> WaitingCostsNothing(claims, plugin, id, claimant, month, quota)
  {
    TakenIsPostedOrWaiting(claims, id, claimant, month);
    FullInMonth(claims, plugin, claims[id].input, Some(id), month);
    PostIsExactIff(claims, id, WithSplit(claims, plugin, claims[id], Some(id)).value.(status := Posted, hasVoucher := true),
                   claimant, month, quota, WaitingDays(claims, id, claimant, month));
  }

  lemma RelabelIsExactIff(claims: seq<Claim>, id: nat, status: Status, claimant: nat, month: nat, quota: nat)
    requires id < |claims| && status in {Rejected, Cancelled} && QuotaIsExact(claims, claimant, month, quota)
    requires PostedDaily(claimant)(claims[id])
    ensures QuotaIsExact(SetStatus(claims, id, status), claimant, month, quota) <==> RestKeepsItsDays(claims, id, claimant, month, quota)
  {
    var c := claims[id].(status := status);
    SumChange(claims, id, c, PostedDaily(claimant), HighDaysOf(month));
    SumChange(claims, id, c, PostedDaily(claimant), DaysOf(month));
  }

  /** From a state in which the quota is used to the full, a step leaves it so exactly under
      these conditions, which can be checked before the step. */
  lemma FullUseIsKeptIff(claims: seq<Claim>, plugin: Plugin, step: Step, claimant: nat, month: nat, quota: nat)
    requires QuotaIsExact(claims, claimant, month, quota)
    requires forall year, domestic :: plugin.highRateDays(year, domestic) == quota
    ensures QuotaIsExact(Next(claims, plugin, step), claimant, month, quota) <==> KeepsQuotaExact(claims, plugin, step, claimant, month, quota)
  {
    match step
    case Create(i) =>
      var draft := Claim(i, Draft, false, 0, []);
      var c := WithSplit(claims, plugin, draft, None);
      if c.Some? {
        SplitIsOk(claims, plugin, draft, None);
        SumAppend(claims, c.value, PostedDaily(claimant), HighDaysOf(month));
        SumAppend(claims, c.value, PostedDaily(claimant), DaysOf(month));
      }
    case Submit(id) => if Has(claims, id, Draft) { UnpostedDaily(claims, id, claims[id].(status := NeedsTriage), claimant, month, quota); }
    case Reject(id) => if Has(claims, id, NeedsTriage) { UnpostedDaily(claims, id, claims[id].(status := Draft), claimant, month, quota); }
    case Relabel(id, status) =>
      if id < |claims| && status in {Rejected, Cancelled} {
        if PostedDaily(claimant)(claims[id]) {
          RelabelIsExactIff(claims, id, status, claimant, month, quota);
        } else {
          UnpostedDaily(claims, id, claims[id].(status := status), claimant, month, quota);
        }
      }
    case Approve(id, derived) => ApproveIsExactIff(claims, plugin, id, derived, claimant, month, quota);
  }

  lemma ApproveIsExactIff(claims: seq<Claim>, plugin: Plugin, id: nat, derived: bool, claimant: nat, month: nat, quota: nat)
    requires QuotaIsExact(claims, claimant, month, quota)
    requires forall year, domestic :: plugin.highRateDays(year, domestic) == quota
    ensures QuotaIsExact(Next(claims, plugin, Approve(id, derived)), claimant, month, quota)
            <==> KeepsQuotaExact(claims, plugin, Approve(id, derived), claimant, month, quota)
  {
    if Has(claims, id, NeedsTriage) && derived && WithSplit(claims, plugin, claims[id], Some(id)).Some? {
      if claims[id].input.kind == Daily && claims[id].input.claimant == claimant {
        DailyPostIsExactIff(claims, plugin, id, claimant, month, quota);
      } else {
        UnpostedDaily(claims, id, WithSplit(claims, plugin, claims[id], Some(id)).value.(status := Posted, hasVoucher := true),
                      claimant, month, quota);
      }
    }
  }

  /** The monthly quota is used to the full: with a constant quota, after any run whose approvals
      find no other claim of the claimant waiting for the days, or find days enough, and whose
      relabelled claims leave the rest its days, the posted high-rate days are the quota or the
      posted days, whichever is less. */
  lemma {:induction false} QuotaIsUsedToTheFull(plugin: Plugin, steps: seq<Step>, claimant: nat, month: nat, quota: nat)
    requires forall year, domestic :: plugin.highRateDays(year, domestic) == quota
    requires forall k :: 0 <= k < |steps| ==> KeepsQuotaExact(Run(plugin, steps[..k]), plugin, steps[k], claimant, month, quota)
    ensures Sum(Run(plugin, steps), PostedDaily(claimant), HighDaysOf(month))
         == Min(quota, Sum(Run(plugin, steps), PostedDaily(claimant), DaysOf(month)))
    decreases |steps|
  {
    if steps != [] {
      var n := |steps| - 1;
      forall k | 0 <= k < n ensures KeepsQuotaExact(Run(plugin, steps[..n][..k]), plugin, steps[..n][k], claimant, month, quota) {
        assert steps[..n][..k] == steps[..k];
      }
      QuotaIsUsedToTheFull(plugin, steps[..n], claimant, month, quota);
      assert QuotaIsExact(Run(plugin, steps[..n]), claimant, month, quota);
      assert KeepsQuotaExact(Run(plugin, steps[..n]), plugin, steps[n], claimant, month, quota);
      FullUseIsKeptIff(Run(plugin, steps[..n]), plugin, steps[n], claimant, month, quota);
    }
  }

  const FIFTEEN := Plugin((d: Date) => None, (year: nat, domestic: bool) => 15, true, (days: nat, claimed: nat, total: nat) => claimed)

  const TEN_DAYS := Input(1, Daily, Date(24290, 1), None, 0, None, true, Some(10))

  function TenDays(status: Status, highDays: nat): Claim {
    Claim(TEN_DAYS, status, status == Posted, 0, [Entry(24290, 10, highDays)])
  }

  lemma TenDaysSplit(claims: seq<Claim>, self: Option<nat>)
    ensures DailySplit(claims, FIFTEEN, TEN_DAYS, self)
         == [Entry(24290, 10, Min(10, Max(0, 15 - AccumulatedDays(claims, 1, 24290, self))))]
  {
    assert Months(TEN_DAYS) == 1 && RangeDays(TEN_DAYS) == 1;
    assert DailySplit(claims, FIFTEEN, TEN_DAYS, self)[0] == DailyEntry(claims, FIFTEEN, TEN_DAYS, self, 0);
  }

  lemma TakenByOther(claims: seq<Claim>, id: nat)
    requires |claims| == 2 && id < 2 && claims[1 - id].input == TEN_DAYS && claims[1 - id].status in {NeedsTriage, Posted}
    requires |claims[1 - id].breakdown| == 1 && claims[1 - id].breakdown[0].month == 24290 && claims[1 - id].breakdown[0].days == 10
    ensures AccumulatedDays(claims, 1, 24290, Some(id)) == 10
  {
    var p, f := CountsDays(1), DaysOf(24290);
    assert claims[1 - id].breakdown[1..] == [];
    assert DaysIn(claims[1 - id].breakdown, 24290) == 10 && Weigh(claims[1 - id], p, f) == 10;
    assert claims[..1][..0] == [] && claims[..2][..1] == claims[..1] && claims[..2] == claims;
    assert SumWithout(claims[..1], Some(id), p, f) == if id == 0 then 0 else Weigh(claims[0], p, f);
  }

  lemma RunTo(steps: seq<Step>, k: nat, before: seq<Claim>, after: seq<Claim>)
    requires k < |steps| && Run(FIFTEEN, steps[..k]) == before && Next(before, FIFTEEN, steps[k]) == after
    ensures Run(FIFTEEN, steps[..k + 1]) == after
  {
    assert steps[..k + 1][..k] == steps[..k];
  }

  lemma DraftsTakeNothing()
    ensures AccumulatedDays([], 1, 24290, None) == 0 && AccumulatedDays([TenDays(Draft, 10)], 1, 24290, None) == 0
  {}

  lemma TwoDrafts()
    ensures Next([], FIFTEEN, Create(TEN_DAYS)) == [TenDays(Draft, 10)]
    ensures Next([TenDays(Draft, 10)], FIFTEEN, Create(TEN_DAYS)) == [TenDays(Draft, 10), TenDays(Draft, 10)]
  {
    DraftsTakeNothing();
    TenDaysSplit([], None);
    TenDaysSplit([TenDays(Draft, 10)], None);
  }

  lemma TwoClaimsWait(steps: seq<Step>)
    requires |steps| >= 4 && steps[0] == steps[1] == Create(TEN_DAYS) && steps[2] == Submit(0) && steps[3] == Submit(1)
    ensures Run(FIFTEEN, steps[..4]) == [TenDays(NeedsTriage, 10), TenDays(NeedsTriage, 10)]
  {
    TwoDrafts();
    RunTo(steps, 0, [], [TenDays(Draft, 10)]);
    RunTo(steps, 1, [TenDays(Draft, 10)], [TenDays(Draft, 10), TenDays(Draft, 10)]);
    RunTo(steps, 2, [TenDays(Draft, 10), TenDays(Draft, 10)], [TenDays(NeedsTriage, 10), TenDays(Draft, 10)]);
    RunTo(steps, 3, [TenDays(NeedsTriage, 10), TenDays(Draft, 10)], [TenDays(NeedsTriage, 10), TenDays(NeedsTriage, 10)]);
  }

  lemma TenDaysApproved(claims: seq<Claim>, id: nat, status: Status, highDays: nat)
    requires |claims| == 2 && id < 2 && claims[id] == TenDays(NeedsTriage, 10)
    requires claims[1 - id] == TenDays(status, highDays) && status in {NeedsTriage, Posted}
    ensures Next(claims, FIFTEEN, Approve(id, true)) == claims[id := TenDays(Posted, 5)]
  {
    TakenByOther(claims, id);
    TenDaysSplit(claims, Some(id));
    assert WithSplit(claims, FIFTEEN, claims[id], Some(id)) == Some(TenDays(NeedsTriage, 5));
  }

  /** The condition can fail: with two claims of ten days waiting and a quota of fifteen, each gives
      up days to the other, and ten of the twenty posted days are at the high rate. */
  lemma WaitingClaimsCostDays()
    ensures Run(FIFTEEN, [Create(TEN_DAYS), Create(TEN_DAYS), Submit(0), Submit(1), Approve(0, true), Approve(1, true)])
         == [TenDays(Posted, 5), TenDays(Posted, 5)]
  {
    var steps := [Create(TEN_DAYS), Create(TEN_DAYS), Submit(0), Submit(1), Approve(0, true), Approve(1, true)];
    TwoClaimsWait(steps);
    TenDaysApproved([TenDays(NeedsTriage, 10), TenDays(NeedsTriage, 10)], 0, NeedsTriage, 10);
    RunTo(steps, 4, [TenDays(NeedsTriage, 10), TenDays(NeedsTriage, 10)], [TenDays(Posted, 5), TenDays(NeedsTriage, 10)]);
    TenDaysApproved([TenDays(Posted, 5), TenDays(NeedsTriage, 10)], 1, Posted, 5);
    RunTo(steps, 5, [TenDays(Posted, 5), TenDays(NeedsTriage, 10)], [TenDays(Posted, 5), TenDays(Posted, 5)]);
    assert steps[..6] == steps;
  }

  lemma MonthsInOrder(i: Input)
    requires IsWellFormed(i)
    ensures Months(i) == if i.start.Time() <= End(i).Time() then End(i).month - i.start.month + 1 else 0
    ensures RangeDays(i) == if i.start.Time() <= End(i).Time() then End(i).Time() - i.start.Time() + 1 else 0
  {
    TimeOrder(i.start, End(i));
  }

  lemma SegmentAt(start: Date, end: Date, r: seq<Segment>, k: nat)
    requires start.Valid() && end.Valid() && IsSplit(start, end, r) && k < |r|
    ensures r[k].month == start.month + k && r[k].days == KthMonthDays(start, end, k)
  {
    assert IsSegment(start, end, start.month + k, r[k]);
  }

  lemma SplitSize(start: Date, end: Date, r: seq<Segment>)
    requires start.Valid() && end.Valid() && IsSplit(start, end, r)
    ensures |r| == if start.Time() <= end.Time() then end.month - start.month + 1 else 0
    ensures TotalDays(r) == if start.Time() <= end.Time() then end.Time() - start.Time() + 1 else 0
  {}

  /** The months of a daily allowance, and the days of each, are those of the calendar split of its
      range. */
  lemma MonthsAreTheSplit(i: Input, r: seq<Segment>)
    requires IsWellFormed(i) && IsSplit(i.start, End(i), r)
    ensures |r| == Months(i) && TotalDays(r) == RangeDays(i)
    ensures forall k :: 0 <= k < |r| ==> r[k].month == i.start.month + k && r[k].days == CalendarDays(i, k)
  {
    MonthsInOrder(i);
    SplitSize(i.start, End(i), r);
    forall k | 0 <= k < |r| ensures r[k].month == i.start.month + k && r[k].days == CalendarDays(i, k) {
      SegmentAt(i.start, End(i), r, k);
    }
  }

  // ---------- the health exemption of one claim ----------

  /** Where there are rules, books that are not in euro and claims that end in another window are
      refused. */
  predicate IsRefused(plugin: Plugin, i: Input) {
    i.kind == Health &&
      match plugin.healthRules(i.start)
      case None => false
      case Some(rules) =>
        !plugin.keepsBooksInEuro || (i.end.Some? && LimitWindowKey(i.end.value, rules.window) != LimitWindowKey(i.start, rules.window))
  }

  predicate MeetsRules(facts: Option<Facts>, rules: Rules) {
    match facts
    case None => false
    case Some(f) =>
      && f.relation in {Employee, BoardMember} && f.category in rules.eligible
      && (f.category in rules.needProvider ==> f.providerRegistered) && f.documented && f.offeredToAll
  }

  /** All of the claim, or what is left of the cap. */
  predicate IsFullExemption(taxFree: nat, gross: nat, used: nat, cap: nat) {
    taxFree <= gross && (taxFree > 0 ==> taxFree + used <= cap) && (taxFree == gross || cap <= taxFree + used)
  }

  /** What is exempt of a claim: nothing without rules or against them, else what the other booked
      claims of its window leave of the cap. */
  ghost predicate IsExemption(claims: seq<Claim>, plugin: Plugin, i: Input, self: Option<nat>, taxFree: nat) {
    match plugin.healthRules(i.start)
    case None => taxFree == 0
    case Some(rules) =>
      if MeetsRules(i.facts, rules)
      then IsFullExemption(taxFree, i.gross, Sum(Others(claims, self), Booked(i.claimant, i.start, rules), TaxFree), rules.cap)
      else taxFree == 0
  }

  lemma MeetsIff(facts: Option<Facts>, rules: Rules)
    ensures IsEligible(facts, rules) <==> MeetsRules(facts, rules)
  {}

  lemma UsedByOthers(claims: seq<Claim>, self: Option<nat>, claimant: nat, start: Date, rules: Rules)
    requires AreOk(claims) && start.Valid()
    ensures SumWithout(claims, self, UsesCap(claimant, LimitWindowBounds(start, rules.window)), TaxFree)
         == Sum(Others(claims, self), Booked(claimant, start, rules), TaxFree)
  {
    var p, q := UsesCap(claimant, LimitWindowBounds(start, rules.window)), Booked(claimant, start, rules);
    SumWithoutIsSumOfOthers(claims, self, p, TaxFree);
    forall c | c in Others(claims, self) ensures p(c) == q(c) {
      assert c in claims;
      var k :| 0 <= k < |claims| && claims[k] == c;
      assert ClaimOk(claims[k]);
      WindowsAgree(start, c.input.start, rules.window);
    }
    SumSame(Others(claims, self), p, q, TaxFree);
  }

  lemma HealthSplitIs(claims: seq<Claim>, plugin: Plugin, i: Input, self: Option<nat>)
    requires AreOk(claims) && IsWellFormed(i) && i.kind == Health
    ensures HealthSplit(claims, plugin, i, self).None? <==> IsRefused(plugin, i)
    ensures HealthSplit(claims, plugin, i, self).Some? ==> IsExemption(claims, plugin, i, self, HealthSplit(claims, plugin, i, self).value)
  {
    var rules := plugin.healthRules(i.start);
    if rules.Some? {
      MeetsIff(i.facts, rules.value);
      UsedByOthers(claims, self, i.claimant, i.start, rules.value);
    }
  }

  /** A row that carries the split the rules give it. */
  ghost predicate IsSettled(claims: seq<Claim>, plugin: Plugin, self: Option<nat>, c: Claim) {
    match c.input.kind
    case Health => IsExemption(claims, plugin, c.input, self, c.taxFree)
    case Daily =>
      && |c.breakdown| == Months(c.input) && IsFullSplit(claims, plugin, c.input, self, c.breakdown)
      && forall k :: 0 <= k < |c.breakdown| ==> c.breakdown[k].days == DayCount(plugin, c.input, k)
  }

  lemma SplitSettles(claims: seq<Claim>, plugin: Plugin, c: Claim, self: Option<nat>)
    requires AreOk(claims) && IsWellFormed(c.input)
    ensures WithSplit(claims, plugin, c, self).None? <==> IsRefused(plugin, c.input)
    ensures WithSplit(claims, plugin, c, self).Some? ==>
              var d := WithSplit(claims, plugin, c, self).value;
              d.input == c.input && forall status, v :: IsSettled(claims, plugin, self, d.(status := status, hasVoucher := v))
  {
    match c.input.kind
    case Health => HealthSplitIs(claims, plugin, c.input, self);
    case Daily => DailySplitIsFull(claims, plugin, c.input, self);
  }

  // ---------- the splits and the rows, as the services run them ----------

  datatype Rates = Rates(perDay: nat, fallbackPerDay: nat)

  function Worth(e: Entry, rates: Rates): int {
    e.highDays * rates.perDay + (e.days - e.highDays) * rates.fallbackPerDay
  }

  function Amount(entries: seq<Entry>, rates: Rates): int {
    if entries == [] then 0
    else Amount(entries[..|entries| - 1], rates) + Worth(entries[|entries| - 1], rates)
  }

  /** The first entries of the split, what they come to, and one more. */
  ghost predicate AreEntries(claims: seq<Claim>, plugin: Plugin, rates: Rates, i: Input, self: Option<nat>, entries: seq<Entry>, gross: int) {
    && EntriesOk(entries) && gross == Amount(entries, rates)
    && forall k :: 0 <= k < |entries| ==> entries[k] == DailyEntry(claims, plugin, i, self, k)
  }

  lemma OneMoreEntry(claims: seq<Claim>, plugin: Plugin, rates: Rates, i: Input, self: Option<nat>, entries: seq<Entry>, gross: int,
                     e: Entry, worth: int)
    requires AreEntries(claims, plugin, rates, i, self, entries, gross)
    requires e == DailyEntry(claims, plugin, i, self, |entries|) && e.highDays <= e.days && worth == Worth(e, rates)
    ensures AreEntries(claims, plugin, rates, i, self, entries + [e], gross + worth)
  {
    assert (entries + [e])[..|entries|] == entries;
    assert forall x :: x in entries + [e] ==> x in entries || x == e;
  }

  lemma AllEntries(claims: seq<Claim>, plugin: Plugin, rates: Rates, i: Input, self: Option<nat>, entries: seq<Entry>, gross: int)
    requires AreEntries(claims, plugin, rates, i, self, entries, gross) && |entries| == Months(i)
    ensures entries == DailySplit(claims, plugin, i, self)
  {}

  /** Another breakdown of the same months and days that stays within what is left of the quotas. */
  ghost predicate IsAllowed(claims: seq<Claim>, plugin: Plugin, i: Input, self: Option<nat>, entries: seq<Entry>, other: seq<Entry>) {
    |other| == |entries| && forall k :: 0 <= k < |other| ==>
      && other[k].month == entries[k].month && other[k].days == entries[k].days && other[k].highDays <= other[k].days
      && (other[k].highDays > 0 ==>
            other[k].highDays + AccumulatedDays(claims, i.claimant, other[k].month, self) <= QuotaOf(plugin, i))
  }

  lemma FullEntryPaysMost(e: Entry, f: Entry, taken: nat, quota: nat, rates: Rates)
    requires IsFullEntry(f, taken, quota) && e.days == f.days && e.highDays <= e.days
    requires e.highDays > 0 ==> e.highDays + taken <= quota
    requires rates.fallbackPerDay <= rates.perDay
    ensures Worth(e, rates) <= Worth(f, rates)
  {
    var more, extra := f.highDays - e.highDays, rates.perDay - rates.fallbackPerDay;
    assert Worth(f, rates) - Worth(e, rates) == more * extra;
    assert more * extra >= 0;
  }

  lemma ButTheLast(claims: seq<Claim>, plugin: Plugin, i: Input, self: Option<nat>, entries: seq<Entry>, other: seq<Entry>)
    requires IsFullSplit(claims, plugin, i, self, entries) && IsAllowed(claims, plugin, i, self, entries, other) && entries != []
    ensures var n := |entries| - 1;
            IsFullSplit(claims, plugin, i, self, entries[..n]) && IsAllowed(claims, plugin, i, self, entries[..n], other[..n])
  {}

  lemma LastPaysMost(claims: seq<Claim>, plugin: Plugin, rates: Rates, i: Input, self: Option<nat>, entries: seq<Entry>, other: seq<Entry>, n: nat)
    requires IsFullSplit(claims, plugin, i, self, entries) && IsAllowed(claims, plugin, i, self, entries, other) && n < |entries|
    requires rates.fallbackPerDay <= rates.perDay
    ensures Worth(other[n], rates) <= Worth(entries[n], rates)
  {
    FullEntryPaysMost(other[n], entries[n], AccumulatedDays(claims, i.claimant, i.start.month + n, self), QuotaOf(plugin, i), rates);
  }

  /** No breakdown that keeps to the quotas is worth more than a full one. */
  lemma {:induction false} NoSplitPaysMore(claims: seq<Claim>, plugin: Plugin, rates: Rates, i: Input, self: Option<nat>,
                                           entries: seq<Entry>, other: seq<Entry>)
    requires IsFullSplit(claims, plugin, i, self, entries) && IsAllowed(claims, plugin, i, self, entries, other)
    requires rates.fallbackPerDay <= rates.perDay
    ensures Amount(other, rates) <= Amount(entries, rates)
    decreases |entries|
  {
    if entries != [] {
      var n := |entries| - 1;
      ButTheLast(claims, plugin, i, self, entries, other);
      NoSplitPaysMore(claims, plugin, rates, i, self, entries[..n], other[..n]);
      LastPaysMost(claims, plugin, rates, i, self, entries, other, n);
    }
  }

  /** The entry of one month, from its segment, and what it is worth. */
  method MonthEntry(claims: seq<Claim>, plugin: Plugin, rates: Rates, i: Input, self: Option<nat>, segment: Segment,
                    claimed: nat, total: nat, ghost k: nat)
    returns (e: Entry, gross: int)
    requires segment.month == i.start.month + k && segment.days == CalendarDays(i, k) && total == RangeDays(i)
    requires claimed == if i.days.Some? then i.days.value else total
    ensures e == DailyEntry(claims, plugin, i, self, k) && e.highDays <= e.days && gross == Worth(e, rates)
  {
    var days := if claimed == total then segment.days else plugin.scaled(segment.days, claimed, total);
    var accumulated: int := AccumulatedDays(claims, i.claimant, segment.month, self);
    var remaining := Max(0, QuotaOf(plugin, i) - accumulated);
    e := Entry(segment.month, days, Min(days, remaining));
    assert days == DayCount(plugin, i, k);
    gross := e.highDays * rates.perDay + (e.days - e.highDays) * rates.fallbackPerDay;
  }

  /** The segments of a range, as the split delivers them. */
  ghost predicate AreMonths(i: Input, segments: seq<Segment>) {
    && |segments| == Months(i)
    && forall k :: 0 <= k < |segments| ==> segments[k].month == i.start.month + k && segments[k].days == CalendarDays(i, k)
  }

  /** Month by month, running up the total. */
  method AllocateMonths(claims: seq<Claim>, plugin: Plugin, rates: Rates, i: Input, self: Option<nat>, segments: seq<Segment>,
                        claimed: nat, total: nat)
    returns (breakdown: seq<Entry>, gross: int)
    requires AreMonths(i, segments) && total == RangeDays(i) && claimed == if i.days.Some? then i.days.value else total
    ensures AreEntries(claims, plugin, rates, i, self, breakdown, gross) && |breakdown| == |segments|
  {
    breakdown, gross := [], 0;
    for k := 0 to |segments|
      invariant |breakdown| == k && AreEntries(claims, plugin, rates, i, self, breakdown, gross)
    {
      var e, worth := MonthEntry(claims, plugin, rates, i, self, segments[k], claimed, total, k);
      OneMoreEntry(claims, plugin, rates, i, self, breakdown, gross, e, worth);
      gross := gross + worth;
      breakdown := breakdown + [e];
    }
  }

  /** For each month the days left at the high rate, the others at the fallback, and the total. */
  method ComputeDailyAllowanceSplit(claims: seq<Claim>, plugin: Plugin, rates: Rates, i: Input, self: Option<nat>)
    returns (breakdown: seq<Entry>, gross: int)
    requires IsWellFormed(i)
    ensures breakdown == DailySplit(claims, plugin, i, self)
    ensures EntriesOk(breakdown) && gross == Amount(breakdown, rates)
    ensures |breakdown| == Months(i) && IsFullSplit(claims, plugin, i, self, breakdown)
    ensures forall k :: 0 <= k < |breakdown| ==> breakdown[k].days == DayCount(plugin, i, k)
    ensures rates.fallbackPerDay <= rates.perDay ==>
              forall other :: IsAllowed(claims, plugin, i, self, breakdown, other) ==> Amount(other, rates) <= gross
  {
    var segments := SplitDates(i.start, End(i));
    MonthsAreTheSplit(i, segments);
    var total := TotalDays(segments);
    breakdown, gross := AllocateMonths(claims, plugin, rates, i, self, segments, if i.days.Some? then i.days.value else total, total);
    AllEntries(claims, plugin, rates, i, self, breakdown, gross);
    DailySplitIsFull(claims, plugin, i, self);
    if rates.fallbackPerDay <= rates.perDay {
      forall other | IsAllowed(claims, plugin, i, self, breakdown, other) ensures Amount(other, rates) <= gross {
        NoSplitPaysMore(claims, plugin, rates, i, self, breakdown, other);
      }
    }
  }

  /** A new draft at the end, with its preview. */
  ghost predicate IsDrafted(claims: seq<Claim>, plugin: Plugin, i: Input, after: seq<Claim>) {
    && |after| == |claims| + 1 && after[..|claims|] == claims
    && after[|claims|].input == i && after[|claims|].status == Draft && !after[|claims|].hasVoucher
    && IsSettled(claims, plugin, None, after[|claims|])
  }

  lemma CreateDrafts(claims: seq<Claim>, plugin: Plugin, i: Input)
    requires AreOk(claims)
    ensures IsWellFormed(i) && !IsRefused(plugin, i) ==> IsDrafted(claims, plugin, i, Next(claims, plugin, Create(i)))
    ensures !(IsWellFormed(i) && !IsRefused(plugin, i)) ==> Next(claims, plugin, Create(i)) == claims
    ensures IsWellFormed(i) && !IsRefused(plugin, i) <==> IsWellFormed(i) && WithSplit(claims, plugin, Claim(i, Draft, false, 0, []), None).Some?
  {
    var draft := Claim(i, Draft, false, 0, []);
    if IsWellFormed(i) {
      SplitSettles(claims, plugin, draft, None);
      if WithSplit(claims, plugin, draft, None).Some? {
        SplitIsOk(claims, plugin, draft, None);
        var c := WithSplit(claims, plugin, draft, None).value;
        assert c == c.(status := Draft, hasVoucher := false);
      }
    }
  }

  /** The one claim is posted with its voucher and its split. */
  ghost predicate IsPosted(claims: seq<Claim>, plugin: Plugin, id: nat, after: seq<Claim>)
    requires id < |claims|
  {
    && |after| == |claims| && after == claims[id := after[id]]
    && after[id].input == claims[id].input && after[id].status == Posted && after[id].hasVoucher
    && IsSettled(claims, plugin, Some(id), after[id])
  }

  predicate CanApprove(claims: seq<Claim>, plugin: Plugin, id: nat, derived: bool) {
    id < |claims| && claims[id].status == NeedsTriage && derived && !IsRefused(plugin, claims[id].input)
  }

  lemma ApprovePosts(claims: seq<Claim>, plugin: Plugin, id: nat, derived: bool)
    requires AreOk(claims)
    ensures CanApprove(claims, plugin, id, derived) ==> IsPosted(claims, plugin, id, Next(claims, plugin, Approve(id, derived)))
    ensures !CanApprove(claims, plugin, id, derived) ==> Next(claims, plugin, Approve(id, derived)) == claims
    ensures CanApprove(claims, plugin, id, derived)
            <==> Has(claims, id, NeedsTriage) && derived && WithSplit(claims, plugin, claims[id], Some(id)).Some?
  {
    if Has(claims, id, NeedsTriage) {
      assert ClaimOk(claims[id]);
      SplitSettles(claims, plugin, claims[id], Some(id));
    }
  }

  /** Exactly the claims in triage have an approval that is awaited, and a finding open. */
  ghost predicate AreAwaited(claims: seq<Claim>, awaiting: set<nat>) {
    forall id :: id in awaiting <==> Has(claims, id, NeedsTriage)
  }

  class AllowanceTable {
    const plugin: Plugin
    var claims: seq<Claim>
    var awaiting: set<nat>

    ghost predicate Valid()
      reads this
    {
      AreOk(claims) && AreAwaited(claims, awaiting)
    }

    constructor (plugin: Plugin)
      ensures Valid() && claims == [] && this.plugin == plugin
    {
      this.plugin := plugin;
      claims, awaiting := [], {};
    }

    /** A draft with a preview of its split; it reserves nothing. */
    method CreateAllowance(i: Input) returns (ok: bool)
      requires Valid()
      modifies this`claims
      ensures Valid() && claims == Next(old(claims), plugin, Create(i))
      ensures ok <==> IsWellFormed(i) && WithSplit(old(claims), plugin, Claim(i, Draft, false, 0, []), None).Some?
      ensures ok <==> |claims| == |old(claims)| + 1
      ensures ok <==> IsWellFormed(i) && !IsRefused(plugin, i)
      ensures if ok then IsDrafted(old(claims), plugin, i, claims) else claims == old(claims)
    {
      CreateDrafts(claims, plugin, i);
      StepIsOk(claims, plugin, Create(i));
      var c := WithSplit(claims, plugin, Claim(i, Draft, false, 0, []), None);
      ok := IsWellFormed(i) && c.Some?;
      if ok {
        SplitIsOk(claims, plugin, Claim(i, Draft, false, 0, []), None);
        claims := claims + [c.value];
      }
    }

    /** The finding, the approval and the transition, all or none. */
    method SubmitAllowance(id: nat) returns (ok: bool)
      requires Valid()
      modifies this
      ensures Valid() && claims == Next(old(claims), plugin, Submit(id)) && ok == Has(old(claims), id, Draft)
      ensures awaiting == if ok then old(awaiting) + {id} else old(awaiting)
      ensures ok ==> id !in old(awaiting)
      ensures claims == if ok then old(claims)[id := old(claims)[id].(status := NeedsTriage)] else old(claims)
    {
      StepIsOk(claims, plugin, Submit(id));
      ok := id < |claims| && claims[id].status == Draft;
      if ok {
        awaiting := awaiting + {id};
        claims := claims[id := claims[id].(status := NeedsTriage)];
      }
    }

    /** Reads the usage, writes the split, and posts, all in one transaction. */
    method ApproveAllowance(id: nat, derived: bool) returns (ok: bool)
      requires Valid()
      modifies this
      ensures Valid() && claims == Next(old(claims), plugin, Approve(id, derived))
      ensures ok <==> Has(old(claims), id, NeedsTriage) && derived && WithSplit(old(claims), plugin, old(claims[id]), Some(id)).Some?
      ensures ok ==> Has(claims, id, Posted) && claims[id].hasVoucher
      ensures ok <==> CanApprove(old(claims), plugin, id, derived)
      ensures if ok then IsPosted(old(claims), plugin, id, claims) else claims == old(claims)
      ensures awaiting == if ok then old(awaiting) - {id} else old(awaiting)
    {
      ApprovePosts(claims, plugin, id, derived);
      StepIsOk(claims, plugin, Approve(id, derived));
      if id >= |claims| || claims[id].status != NeedsTriage || !derived { return false; }
      var split := WithSplit(claims, plugin, claims[id], Some(id));
      if split.None? { return false; }
      var row := split.value.(status := Posted);
      claims := claims[id := row.(hasVoucher := true)];
      awaiting := awaiting - {id};
      ok := true;
    }

    method RejectAllowance(id: nat) returns (ok: bool)
      requires Valid()
      modifies this
      ensures Valid() && claims == Next(old(claims), plugin, Reject(id)) && ok == Has(old(claims), id, NeedsTriage)
      ensures claims == if ok then old(claims)[id := old(claims)[id].(status := Draft)] else old(claims)
      ensures awaiting == if ok then old(awaiting) - {id} else old(awaiting)
    {
      StepIsOk(claims, plugin, Reject(id));
      ok := id < |claims| && claims[id].status == NeedsTriage;
      if ok {
        claims := claims[id := claims[id].(status := Draft)];
        awaiting := awaiting - {id};
      }
    }
  }
}
