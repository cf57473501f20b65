/** The year's depreciation at the close (`annual-accounts.service.ts`, reading the attribution
    of `depreciation-attribution.service.ts`): what is still unposted, what the close posts, and
    why closing again posts nothing. */
module AnnualClose {
  import opened Wrappers
  import opened Ledger
  import opened AnnualReport
  import opened AnnualProofs

  const CLASSES: seq<AssetClass> := [Vehicle, ItEquipment, Machinery, Furniture]

  /** A register row with the charge the engine computes for the period. */
  datatype RegisterRow = RegisterRow(id: nat, assetClass: AssetClass, retired: bool, charge: nat)

  /** One asset's share of one voucher's movement, credit-positive. */
  datatype Attribution = Attribution(assetId: nat, assetClass: AssetClass, voucherId: nat, amount: int)

  datatype Share = Share(assetId: nat, assetClass: AssetClass, amount: int)

  datatype Books = Books(vouchers: seq<Voucher>, attribution: seq<Attribution>)

  function Max(a: int, b: int): int { if a < b then b else a }

  // ---------- reading the attribution ----------

  function AttributionSum(rows: seq<Attribution>, p: Attribution -> bool): int {
    if rows == [] then 0 else (if p(rows[0]) then rows[0].amount else 0) + AttributionSum(rows[1..], p)
  }

  predicate IsPostedBy(vouchers: seq<Voucher>, id: nat, to: int) {
    exists v :: v in vouchers && v.id == id && v.posted && v.date <= to
  }

  function OfAsset(vouchers: seq<Voucher>, assetId: nat, to: int): Attribution -> bool {
    (a: Attribution) => a.assetId == assetId && IsPostedBy(vouchers, a.voucherId, to)
  }

  function OfVoucher(voucherId: nat, c: AssetClass): Attribution -> bool {
    (a: Attribution) => a.voucherId == voucherId && a.assetClass == c
  }

  function OfVouchers(vs: seq<Voucher>, c: AssetClass): Attribution -> bool {
    (a: Attribution) => a.assetClass == c && HasId(vs, a.voucherId)
  }

  function AttributedUpTo(b: Books, assetId: nat, to: int): int {
    AttributionSum(b.attribution, OfAsset(b.vouchers, assetId, to))
  }

  function AttributedInPeriod(b: Books, assetId: nat, p: Period): int {
    AttributedUpTo(b, assetId, p.end) - AttributedUpTo(b, assetId, p.start - 1)
  }

  function AttributedTo(b: Books, voucherId: nat, c: AssetClass): int {
    AttributionSum(b.attribution, OfVoucher(voucherId, c))
  }

  /** What a voucher charges to a class. */
  function Movement(v: Voucher, c: AssetClass): int { -LineNet(v.lines, {AccumCode(c)}) }

  // ---------- what is still unposted ----------

  /** What the ledger does not carry of an asset's own charge, never less than nothing. */
  function Remaining(b: Books, p: Period, a: RegisterRow): nat {
    if a.retired then 0 else Max(0, a.charge - AttributedInPeriod(b, a.id, p))
  }

  function ByAsset(b: Books, p: Period, register: seq<RegisterRow>): seq<Share> {
    if register == [] then []
    else
      var a := register[0];
      (if Remaining(b, p, a) == 0 then [] else [Share(a.id, a.assetClass, Remaining(b, p, a))]) + ByAsset(b, p, register[1..])
  }

  function ClassTotal(shares: seq<Share>, c: AssetClass): int {
    if shares == [] then 0 else (if shares[0].assetClass == c then shares[0].amount else 0) + ClassTotal(shares[1..], c)
  }

  /** A close of this period, or the reversal of one inside it. */
  predicate IsClose(vouchers: seq<Voucher>, p: Period, v: Voucher) {
    && IsPosted(v, p.start, p.end)
    && (|| v.annualClose
        || (v.reverses.Some? && exists w :: w in vouchers && w.id == v.reverses.value && IsPosted(w, p.start, p.end) && w.annualClose))
  }

  function CloseVouchers(vouchers: seq<Voucher>, p: Period): seq<Voucher> {
    Where(vouchers, (v: Voucher) => IsClose(vouchers, p, v))
  }

  function PostedClose(b: Books, p: Period, c: AssetClass): int {
    -Net(CloseVouchers(b.vouchers, p), {AccumCode(c)})
  }

  predicate HasId(vouchers: seq<Voucher>, id: nat) {
    exists v :: v in vouchers && v.id == id
  }

  function AttributedClose(b: Books, p: Period, c: AssetClass): int {
    AttributionSum(b.attribution, OfVouchers(CloseVouchers(b.vouchers, p), c))
  }

  /** A legacy close can only be netted at class level. */
  function UnattributedClose(b: Books, p: Period, c: AssetClass): int {
    Max(0, PostedClose(b, p, c) - AttributedClose(b, p, c))
  }

  function Unposted(b: Books, p: Period, register: seq<RegisterRow>, c: AssetClass): int {
    Max(0, ClassTotal(ByAsset(b, p, register), c) - UnattributedClose(b, p, c))
  }

  function ChargesFor(b: Books, p: Period, register: seq<RegisterRow>, classes: seq<AssetClass>): seq<ClassCharge> {
    if classes == [] then []
    else
      var amount := Unposted(b, p, register, classes[0]);
      (if amount > 0 then [ClassCharge(classes[0], amount)] else []) + ChargesFor(b, p, register, classes[1..])
  }

  function Charges(b: Books, p: Period, register: seq<RegisterRow>): seq<ClassCharge> {
    ChargesFor(b, p, register, CLASSES)
  }

  // ---------- what the close posts ----------

  function CreditLines(charges: seq<ClassCharge>): seq<Line> {
    if charges == [] then [] else [Line(AccumCode(charges[0].assetClass), false, charges[0].amount)] + CreditLines(charges[1..])
  }

  /** One debit for the whole charge, one credit per class. */
  function CloseVoucher(p: Period, charges: seq<ClassCharge>, id: nat): Voucher {
    Voucher(id, p.end, true, false, true, None, [Line(DEPRECIATION_EXPENSE, true, TotalCharge(charges))] + CreditLines(charges))
  }

  function Posted(charges: seq<ClassCharge>, c: AssetClass): int {
    if charges == [] then 0 else (if charges[0].assetClass == c then charges[0].amount else 0) + Posted(charges[1..], c)
  }

  /** The shares of the classes whose shares add up to what is posted. */
  function AttributionRows(shares: seq<Share>, all: seq<Share>, charges: seq<ClassCharge>, id: nat): seq<Attribution> {
    if shares == [] then []
    else
      var s := shares[0];
      (if ClassTotal(all, s.assetClass) == Posted(charges, s.assetClass)
       then [Attribution(s.assetId, s.assetClass, id, s.amount)] else [])
      + AttributionRows(shares[1..], all, charges, id)
  }

  /** The books after the close has posted, if there is anything to post. */
  function Close(b: Books, p: Period, register: seq<RegisterRow>, id: nat): Books {
    var charges := Charges(b, p, register);
    var shares := ByAsset(b, p, register);
    if TotalCharge(charges) == 0 then b
    else Books(b.vouchers + [CloseVoucher(p, charges, id)], b.attribution + AttributionRows(shares, shares, charges, id))
  }

  // ---------- the block, and what the tables keep ----------

  /** No movement of the year is reported as unattributed. */
  predicate IsAttributed(b: Books, p: Period) {
    forall v :: v in b.vouchers && IsPosted(v, p.start, p.end) ==>
      forall c: AssetClass :: c in CLASSES && Movement(v, c) != 0 ==> Movement(v, c) == AttributedTo(b, v.id, c)
  }

  /** Attribution is written over movements that exist: a voucher that does not move a class has
      nothing attributed to it there. */
  ghost predicate TracksMovements(b: Books) {
    forall v, c :: v in b.vouchers && Movement(v, c) == 0 ==> AttributedTo(b, v.id, c) == 0
  }

  predicate HaveDistinctIds(vouchers: seq<Voucher>) {
    forall i, j :: 0 <= i < j < |vouchers| ==> vouchers[i].id != vouchers[j].id
  }

  predicate IsRegister(register: seq<RegisterRow>) {
    forall i, j :: 0 <= i < j < |register| ==> register[i].id != register[j].id
  }

  /** Nothing in the books has the id or refers to it. */
  predicate IsFreshId(b: Books, id: nat) {
    && (forall w :: w in b.vouchers ==> w.id != id && w.reverses != Some(id))
    && (forall a :: a in b.attribution ==> a.voucherId != id)
  }

  ghost predicate AreSound(b: Books) {
    HaveDistinctIds(b.vouchers) && TracksMovements(b)
  }

  // ---------- sums over the attribution ----------

  lemma {:induction false} SumAppend(a: seq<Attribution>, b: seq<Attribution>, p: Attribution -> bool)
    ensures AttributionSum(a + b, p) == AttributionSum(a, p) + AttributionSum(b, p)
  {
    if a == [] {
      assert a + b == b;
    } else {
      assert (a + b)[1..] == a[1..] + b;
      SumAppend(a[1..], b, p);
    }
  }

  lemma {:induction false} SumSameRows(rows: seq<Attribution>, p: Attribution -> bool, q: Attribution -> bool)
    requires forall a :: a in rows ==> p(a) == q(a)
    ensures AttributionSum(rows, p) == AttributionSum(rows, q)
  {
    if rows != [] { SumSameRows(rows[1..], p, q); }
  }

  lemma {:induction false} SumOfNone(rows: seq<Attribution>, p: Attribution -> bool)
    requires forall a :: a in rows ==> !p(a)
    ensures AttributionSum(rows, p) == 0
  {
    if rows != [] { SumOfNone(rows[1..], p); }
  }

  lemma {:induction false} SumOfDisjoint(rows: seq<Attribution>, p: Attribution -> bool, q: Attribution -> bool, r: Attribution -> bool)
    requires forall a :: a in rows ==> !(p(a) && q(a)) && (r(a) <==> p(a) || q(a))
    ensures AttributionSum(rows, r) == AttributionSum(rows, p) + AttributionSum(rows, q)
  {
    if rows != [] { SumOfDisjoint(rows[1..], p, q, r); }
  }

  /** What is attributed to some vouchers is what is attributed to each. */
  lemma {:induction false} AttributedToEach(b: Books, vs: seq<Voucher>, c: AssetClass)
    requires HaveDistinctIds(vs)
    requires forall v :: v in vs ==> Movement(v, c) == AttributedTo(b, v.id, c)
    ensures AttributionSum(b.attribution, OfVouchers(vs, c)) == -Net(vs, {AccumCode(c)})
  {
    if vs == [] {
      SumOfNone(b.attribution, OfVouchers(vs, c));
    } else {
      var v, rest := vs[0], vs[1..];
      AttributedToEach(b, rest, c);
      forall id ensures HasId(vs, id) <==> id == v.id || HasId(rest, id) { assert vs == [v] + rest; }
      assert !HasId(rest, v.id);
      SumOfDisjoint(b.attribution, OfVoucher(v.id, c), OfVouchers(rest, c), OfVouchers(vs, c));
    }
  }

  lemma {:induction false} WhereKeepsIds(vouchers: seq<Voucher>, p: Voucher -> bool)
    requires HaveDistinctIds(vouchers)
    ensures HaveDistinctIds(Where(vouchers, p))
  {
    if vouchers != [] {
      WhereKeepsIds(vouchers[1..], p);
      forall w | w in Where(vouchers[1..], p) ensures w.id != vouchers[0].id {
        var i :| 0 <= i < |vouchers[1..]| && vouchers[1..][i] == w;
        assert vouchers[1 + i] == w;
      }
    }
  }

  /** In a year that is not blocked, nothing has to be netted at class level. */
  lemma NothingIsUnattributed(b: Books, p: Period, c: AssetClass)
    requires AreSound(b) && IsAttributed(b, p)
    ensures UnattributedClose(b, p, c) == 0
  {
    var vs := CloseVouchers(b.vouchers, p);
    WhereKeepsIds(b.vouchers, (v: Voucher) => IsClose(b.vouchers, p, v));
    forall v | v in vs ensures Movement(v, c) == AttributedTo(b, v.id, c) {
      assert v in b.vouchers && IsPosted(v, p.start, p.end) && c in CLASSES;
    }
    AttributedToEach(b, vs, c);
  }

  lemma {:induction false} TotalsAreNonNegative(b: Books, p: Period, register: seq<RegisterRow>, c: AssetClass)
    ensures 0 <= ClassTotal(ByAsset(b, p, register), c)
  {
    if register != [] {
      TotalsAreNonNegative(b, p, register[1..], c);
      ClassTotalAppend(if Remaining(b, p, register[0]) == 0 then [] else [Share(register[0].id, register[0].assetClass, Remaining(b, p, register[0]))],
                       ByAsset(b, p, register[1..]), c);
    }
  }

  lemma {:induction false} ClassTotalAppend(a: seq<Share>, b: seq<Share>, c: AssetClass)
    ensures ClassTotal(a + b, c) == ClassTotal(a, c) + ClassTotal(b, c)
  {
    if a == [] {
      assert a + b == b;
    } else {
      assert (a + b)[1..] == a[1..] + b;
      ClassTotalAppend(a[1..], b, c);
    }
  }

  lemma UnpostedIsTheTotal(b: Books, p: Period, register: seq<RegisterRow>, c: AssetClass)
    requires AreSound(b) && IsAttributed(b, p)
    ensures Unposted(b, p, register, c) == ClassTotal(ByAsset(b, p, register), c)
  {
    NothingIsUnattributed(b, p, c);
    TotalsAreNonNegative(b, p, register, c);
  }

  // ---------- an over-charged asset ----------

  lemma {:induction false} ByAssetAppend(b: Books, p: Period, left: seq<RegisterRow>, right: seq<RegisterRow>)
    ensures ByAsset(b, p, left + right) == ByAsset(b, p, left) + ByAsset(b, p, right)
  {
    if left == [] {
      assert left + right == right;
    } else {
      assert (left + right)[1..] == left[1..] + right;
      ByAssetAppend(b, p, left[1..], right);
    }
  }

  /** An over-charged asset never absorbs a peer's charge: in a year that is not blocked, one more
      asset in the register raises its class by its own remainder, which is never negative, and
      leaves every other class alone. */
  lemma OverchargeIsNotShared(b: Books, p: Period, left: seq<RegisterRow>, a: RegisterRow, right: seq<RegisterRow>, c: AssetClass)
    requires AreSound(b) && IsAttributed(b, p)
    ensures Unposted(b, p, left + [a] + right, c)
         == Unposted(b, p, left + right, c) + if a.assetClass == c then Remaining(b, p, a) else 0
    ensures a.retired || AttributedInPeriod(b, a.id, p) >= a.charge ==>
              Unposted(b, p, left + [a] + right, c) == Unposted(b, p, left + right, c)
  {
    UnpostedIsTheTotal(b, p, left + [a] + right, c);
    UnpostedIsTheTotal(b, p, left + right, c);
    ByAssetAppend(b, p, left + [a], right);
    ByAssetAppend(b, p, left, [a]);
    ByAssetAppend(b, p, left, right);
    ClassTotalAppend(ByAsset(b, p, left + [a]), ByAsset(b, p, right), c);
    ClassTotalAppend(ByAsset(b, p, left), ByAsset(b, p, [a]), c);
    ClassTotalAppend(ByAsset(b, p, left), ByAsset(b, p, right), c);
    assert ByAsset(b, p, []) == [];
  }

  // ---------- what the close posts ----------

  lemma {:induction false} PostedPerClass(b: Books, p: Period, register: seq<RegisterRow>, classes: seq<AssetClass>, c: AssetClass)
    requires forall i, j :: 0 <= i < j < |classes| ==> classes[i] != classes[j]
    ensures Posted(ChargesFor(b, p, register, classes), c) == if c in classes then Unposted(b, p, register, c) else 0
  {
    if classes != [] {
      var rest := ChargesFor(b, p, register, classes[1..]);
      PostedPerClass(b, p, register, classes[1..], c);
      assert c in classes <==> c == classes[0] || c in classes[1..];
      if Unposted(b, p, register, classes[0]) > 0 {
        assert ChargesFor(b, p, register, classes)[1..] == rest;
      } else {
        assert ChargesFor(b, p, register, classes) == rest;
      }
    }
  }

  /** What the close voucher credits a class is the unposted charge of the class. */
  lemma PostedIsUnposted(b: Books, p: Period, register: seq<RegisterRow>, c: AssetClass)
    ensures Posted(Charges(b, p, register), c) == Unposted(b, p, register, c)
  {
    PostedPerClass(b, p, register, CLASSES, c);
    assert c in CLASSES;
  }

  lemma {:induction false} CreditNet(charges: seq<ClassCharge>, c: AssetClass)
    ensures LineNet(CreditLines(charges), {AccumCode(c)}) == -Posted(charges, c)
  {
    if charges != [] {
      CreditNet(charges[1..], c);
      assert CreditLines(charges)[1..] == CreditLines(charges[1..]);
    }
  }

  lemma CloseMovement(p: Period, charges: seq<ClassCharge>, id: nat, c: AssetClass)
    ensures Movement(CloseVoucher(p, charges, id), c) == Posted(charges, c)
  {
    CreditNet(charges, c);
    assert CloseVoucher(p, charges, id).lines[1..] == CreditLines(charges);
  }

  /** Every share of a class that adds up is attributed; in a year that is not blocked, all are. */
  lemma {:induction false} AllSharesAttributed(shares: seq<Share>, all: seq<Share>, charges: seq<ClassCharge>, id: nat)
    requires forall c :: ClassTotal(all, c) == Posted(charges, c)
    ensures |AttributionRows(shares, all, charges, id)| == |shares|
    ensures forall i :: 0 <= i < |shares| ==>
              AttributionRows(shares, all, charges, id)[i] == Attribution(shares[i].assetId, shares[i].assetClass, id, shares[i].amount)
  {
    if shares != [] { AllSharesAttributed(shares[1..], all, charges, id); }
  }

  lemma {:induction false} RowsPerClass(shares: seq<Share>, all: seq<Share>, charges: seq<ClassCharge>, id: nat, c: AssetClass)
    requires forall d :: ClassTotal(all, d) == Posted(charges, d)
    ensures AttributionSum(AttributionRows(shares, all, charges, id), OfVoucher(id, c)) == ClassTotal(shares, c)
  {
    if shares != [] {
      RowsPerClass(shares[1..], all, charges, id, c);
      assert AttributionRows(shares, all, charges, id)[1..] == AttributionRows(shares[1..], all, charges, id);
    }
  }

  function ShareOf(shares: seq<Share>, assetId: nat): int {
    if shares == [] then 0 else (if shares[0].assetId == assetId then shares[0].amount else 0) + ShareOf(shares[1..], assetId)
  }

  lemma {:induction false} RowsPerAsset(shares: seq<Share>, all: seq<Share>, charges: seq<ClassCharge>, id: nat, vs: seq<Voucher>, assetId: nat, to: int)
    requires forall d :: ClassTotal(all, d) == Posted(charges, d)
    ensures AttributionSum(AttributionRows(shares, all, charges, id), OfAsset(vs, assetId, to))
         == if IsPostedBy(vs, id, to) then ShareOf(shares, assetId) else 0
  {
    if shares != [] {
      RowsPerAsset(shares[1..], all, charges, id, vs, assetId, to);
      assert AttributionRows(shares, all, charges, id)[1..] == AttributionRows(shares[1..], all, charges, id);
    }
  }

  lemma {:induction false} ShareAppend(a: seq<Share>, b: seq<Share>, assetId: nat)
    ensures ShareOf(a + b, assetId) == ShareOf(a, assetId) + ShareOf(b, assetId)
  {
    if a == [] {
      assert a + b == b;
    } else {
      assert (a + b)[1..] == a[1..] + b;
      ShareAppend(a[1..], b, assetId);
    }
  }

  lemma {:induction false} NoShareOfOthers(b: Books, p: Period, register: seq<RegisterRow>, assetId: nat)
    requires forall a :: a in register ==> a.id != assetId
    ensures ShareOf(ByAsset(b, p, register), assetId) == 0
  {
    if register != [] {
      NoShareOfOthers(b, p, register[1..], assetId);
      ByAssetAppend(b, p, [register[0]], register[1..]);
      assert register == [register[0]] + register[1..];
      ShareAppend(ByAsset(b, p, [register[0]]), ByAsset(b, p, register[1..]), assetId);
    }
  }

  /** Each asset's share is its own remainder. */
  lemma {:induction false} ShareIsTheRemainder(b: Books, p: Period, register: seq<RegisterRow>, k: nat)
    requires IsRegister(register) && k < |register|
    ensures ShareOf(ByAsset(b, p, register), register[k].id) == Remaining(b, p, register[k])
  {
    var a, rest := register[0], register[1..];
    assert register == [a] + rest;
    ByAssetAppend(b, p, [a], rest);
    ShareAppend(ByAsset(b, p, [a]), ByAsset(b, p, rest), register[k].id);
    if k == 0 {
      NoShareOfOthers(b, p, rest, a.id);
    } else {
      ShareIsTheRemainder(b, p, rest, k - 1);
    }
    assert ByAsset(b, p, []) == [];
  }
}
