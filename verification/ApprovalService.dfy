/** The approval operations as the service runs them one at a time, table by table
    (`approvals.service.ts`), each proved to do what the transactions of the model do. */
module ApprovalService {
  import opened Wrappers
  import opened Approvals

  datatype Approved = NotFound | NotAwaiting | NotPosted | IsApproved(voucher: Option<nat>)

  datatype BatchRow = BatchRow(id: nat, result: Approved)

  /** What a call that nothing interrupts does: its reads, then its transaction. */
  function Approve(s: State, id: nat, derived: bool): State {
    if !IsAwaiting(s, id) then s
    else
      var t := CommitApprove(s, id, derived);
      if t.Some? then t.value else s
  }

  lemma ApproveIsSafe(s: State, id: nat, derived: bool)
    requires Valid(s)
    ensures Valid(Approve(s, id, derived)) && Keeps(s, Approve(s, id, derived))
  {
    if IsAwaiting(s, id) && CommitApprove(s, id, derived).Some? { ApproveKeeps(s, id, derived); }
  }

  /** The voucher of the object of an approval. */
  function VoucherOf(s: State, id: nat): Option<nat> {
    if id in s.approvals && s.approvals[id].subject in s.objects then s.objects[s.approvals[id].subject].voucher else None
  }

  predicate Holds(s: State, row: BatchRow) {
    row.result.IsApproved? ==>
      && row.id in s.approvals && s.approvals[row.id].verdict == Verdict.Approved
      && row.result.voucher == VoucherOf(s, row.id) && row.result.voucher.Some?
  }

  lemma ApprovedHasItsVoucher(s: State, id: nat)
    requires Valid(s) && id in s.approvals && s.approvals[id].verdict == Verdict.Approved
    ensures VoucherOf(s, id).Some?
  {
    assert ApprovalOk(s, id) && ObjectOk(s, s.approvals[id].subject);
  }

  lemma ApprovedNow(s: State, id: nat, derived: bool)
    requires Valid(s) && IsAwaiting(s, id) && CommitApprove(s, id, derived).Some?
    ensures Holds(CommitApprove(s, id, derived).value, BatchRow(id, IsApproved(Some(s.nextVoucher))))
  {}

  // ---------- one call ----------

  predicate IsWaiting(s: State, r: Ref) {
    r in s.objects && s.objects[r].status == (if r.kind == Allowance then NeedsTriage else Pending)
  }

  /** The approval is awaited, its object waits for it, and a voucher can be made. */
  predicate CanPost(s: State, id: nat, derived: bool) {
    id in s.approvals && s.approvals[id].verdict == Awaiting && derived && IsWaiting(s, s.approvals[id].subject)
  }

  /** The object is posted with a new voucher and the approval is ruled on; nothing else changes. */
  ghost predicate IsPosting(s: State, s': State, id: nat)
    requires id in s.approvals
  {
    var r := s.approvals[id].subject;
    && s'.objects == s.objects[r := Object(Posted, Some(s.nextVoucher))]
    && s'.vouchers == s.vouchers[s.nextVoucher := r]
    && s'.approvals == s.approvals[id := Approval(r, Verdict.Approved)]
    && s'.nextVoucher == s.nextVoucher + 1 && s'.nextApproval == s.nextApproval
  }

  /** A draft for which no approval is awaited. */
  ghost predicate CanHold(s: State, r: Ref) {
    && r in s.objects && s.objects[r].status == Draft
    && forall a :: a in s.approvals && s.approvals[a].subject == r ==> s.approvals[a].verdict != Awaiting
  }

  /** The object waits, and a new approval is awaited; nothing else changes. */
  ghost predicate IsHolding(s: State, s': State, r: Ref)
    requires r in s.objects
  {
    && IsWaiting(s', r) && s'.objects == s.objects[r := s.objects[r].(status := s'.objects[r].status)]
    && s'.approvals == s.approvals[s.nextApproval := Approval(r, Awaiting)] && s'.nextApproval == s.nextApproval + 1
    && s'.vouchers == s.vouchers && s'.nextVoucher == s.nextVoucher
  }

  lemma CreateIff(s: State, r: Ref)
    ensures !HasAwaiting(s, r) && CommitCreate(s, r).Some? <==> CanHold(s, r)
    ensures CanHold(s, r) ==> IsHolding(s, CommitCreate(s, r).value, r)
  {
    if a :| a in s.approvals && s.approvals[a].subject == r && s.approvals[a].verdict == Awaiting {
      assert s.approvals[a] == Approval(r, Awaiting);
    }
  }

  /** The approval is awaited and its object waits for it. */
  predicate CanReturn(s: State, id: nat) {
    id in s.approvals && s.approvals[id].verdict == Awaiting && IsWaiting(s, s.approvals[id].subject)
  }

  /** The object is a draft again and the approval is rejected; nothing else changes. */
  ghost predicate IsReturning(s: State, s': State, id: nat)
    requires id in s.approvals && s.approvals[id].subject in s.objects
  {
    var r := s.approvals[id].subject;
    && s'.objects == s.objects[r := s.objects[r].(status := Draft)]
    && s'.approvals == s.approvals[id := Approval(r, Rejected)] && s'.nextApproval == s.nextApproval
    && s'.vouchers == s.vouchers && s'.nextVoucher == s.nextVoucher
  }

  lemma RejectIff(s: State, id: nat)
    ensures IsAwaiting(s, id) && CommitReject(s, id).Some? <==> CanReturn(s, id)
    ensures CanReturn(s, id) ==> IsReturning(s, CommitReject(s, id).value, id)
  {}

  lemma ApproveIff(s: State, id: nat, derived: bool)
    ensures CanPost(s, id, derived) ==> IsPosting(s, Approve(s, id, derived), id)
    ensures !CanPost(s, id, derived) ==> Approve(s, id, derived) == s
  {}

  // ---------- a batch ----------

  predicate CanPostAt(s: State, ids: seq<nat>, derived: seq<bool>, i: nat)
    requires i < |ids| == |derived|
  {
    CanPost(s, ids[i], derived[i])
  }

  /** One of the first listed approvals can be posted and is about the object. */
  ghost predicate IsReached(s: State, ids: seq<nat>, derived: seq<bool>, n: nat, r: Ref)
    requires n <= |ids| == |derived|
  {
    exists i :: 0 <= i < n && CanPostAt(s, ids, derived, i) && s.approvals[ids[i]].subject == r
  }

  /** The first listed approval of its object that can be posted. */
  ghost predicate IsFirst(s: State, ids: seq<nat>, derived: seq<bool>, i: nat)
    requires i < |ids| == |derived|
  {
    CanPostAt(s, ids, derived, i) && !IsReached(s, ids, derived, i, s.approvals[ids[i]].subject)
  }

  ghost predicate IsGranted(s: State, ids: seq<nat>, derived: seq<bool>, n: nat, a: nat)
    requires n <= |ids| == |derived|
  {
    exists i :: 0 <= i < n && ids[i] == a && IsFirst(s, ids, derived, i)
  }

  /** What the first `n` ids of a batch make of an object. */
  ghost predicate ObjectAfter(s: State, s': State, ids: seq<nat>, derived: seq<bool>, n: nat, r: Ref)
    requires n <= |ids| == |derived| && r in s.objects
  {
    r in s'.objects &&
      if IsReached(s, ids, derived, n, r) then s'.objects[r].status == Posted && s'.objects[r].voucher.Some?
      else s'.objects[r] == s.objects[r]
  }

  /** What they make of an approval. */
  ghost predicate ApprovalAfter(s: State, s': State, ids: seq<nat>, derived: seq<bool>, n: nat, a: nat)
    requires n <= |ids| == |derived| && a in s.approvals
  {
    a in s'.approvals && s'.approvals[a].subject == s.approvals[a].subject
    && s'.approvals[a].verdict == if IsGranted(s, ids, derived, n, a) then Verdict.Approved else s.approvals[a].verdict
  }

  ghost predicate IsAfter(s: State, s': State, ids: seq<nat>, derived: seq<bool>, n: nat)
    requires n <= |ids| == |derived|
  {
    && s'.objects.Keys == s.objects.Keys && s'.approvals.Keys == s.approvals.Keys
    && (forall r :: r in s.objects ==> ObjectAfter(s, s', ids, derived, n, r))
    && (forall a :: a in s.approvals ==> ApprovalAfter(s, s', ids, derived, n, a))
  }

  /** What the row of an id reports: an unknown one, an approved one with its voucher, or neither. */
  ghost predicate Reports(s: State, s': State, ids: seq<nat>, derived: seq<bool>, i: nat, row: BatchRow)
    requires i < |ids| == |derived|
  {
    var id := ids[i];
    && row.id == id
    && (row.result == NotFound <==> id !in s.approvals)
    && (row.result.IsApproved? <==>
          id in s.approvals && (s.approvals[id].verdict == Verdict.Approved || IsGranted(s, ids, derived, i + 1, id)))
    && (row.result.IsApproved? ==> IsPostedWith(s', s.approvals[id].subject, row.result.voucher))
  }

  ghost predicate IsPostedWith(s: State, r: Ref, voucher: Option<nat>) {
    voucher.Some? && r in s.objects && s.objects[r] == Object(Posted, voucher)
  }

  lemma ReachedMore(s: State, ids: seq<nat>, derived: seq<bool>, n: nat, r: Ref)
    requires n < |ids| == |derived|
    ensures IsReached(s, ids, derived, n + 1, r)
            <==> IsReached(s, ids, derived, n, r) || (CanPostAt(s, ids, derived, n) && s.approvals[ids[n]].subject == r)
  {}

  lemma GrantedMore(s: State, ids: seq<nat>, derived: seq<bool>, n: nat, a: nat)
    requires n < |ids| == |derived|
    ensures IsGranted(s, ids, derived, n + 1, a) <==> IsGranted(s, ids, derived, n, a) || (ids[n] == a && IsFirst(s, ids, derived, n))
  {}

  lemma GrantedIsReached(s: State, ids: seq<nat>, derived: seq<bool>, n: nat, a: nat)
    requires n <= |ids| == |derived| && a in s.approvals && IsGranted(s, ids, derived, n, a)
    ensures IsReached(s, ids, derived, n, s.approvals[a].subject)
  {
    var i :| 0 <= i < n && ids[i] == a && IsFirst(s, ids, derived, i);
  }

  lemma SubjectExists(s: State, id: nat)
    requires Valid(s) && id in s.approvals
    ensures s.approvals[id].subject in s.objects
  {
    assert ApprovalOk(s, id);
  }

  /** The next id can be posted now exactly if it is the first of its object that could at entry. */
  lemma NextIsFirst(s: State, t: State, ids: seq<nat>, derived: seq<bool>, n: nat)
    requires n < |ids| == |derived| && IsAfter(s, t, ids, derived, n)
    requires ids[n] in s.approvals ==> s.approvals[ids[n]].subject in s.objects
    ensures CanPost(t, ids[n], derived[n]) <==> IsFirst(s, ids, derived, n)
  {
    var id := ids[n];
    if id in s.approvals {
      assert ApprovalAfter(s, t, ids, derived, n, id) && ObjectAfter(s, t, ids, derived, n, s.approvals[id].subject);
      if IsGranted(s, ids, derived, n, id) { GrantedIsReached(s, ids, derived, n, id); }
    }
  }

  lemma NextObject(s: State, t: State, ids: seq<nat>, derived: seq<bool>, n: nat, r: Ref)
    requires n < |ids| == |derived| && IsAfter(s, t, ids, derived, n) && r in s.objects
    requires CanPost(t, ids[n], derived[n]) <==> IsFirst(s, ids, derived, n)
    ensures ObjectAfter(s, Approve(t, ids[n], derived[n]), ids, derived, n + 1, r)
  {
    assert ObjectAfter(s, t, ids, derived, n, r);
    ApproveIff(t, ids[n], derived[n]);
    ReachedMore(s, ids, derived, n, r);
    if ids[n] in s.approvals { assert ApprovalAfter(s, t, ids, derived, n, ids[n]); }
  }

  lemma NextApproval(s: State, t: State, ids: seq<nat>, derived: seq<bool>, n: nat, a: nat)
    requires n < |ids| == |derived| && IsAfter(s, t, ids, derived, n) && a in s.approvals
    requires CanPost(t, ids[n], derived[n]) <==> IsFirst(s, ids, derived, n)
    ensures ApprovalAfter(s, Approve(t, ids[n], derived[n]), ids, derived, n + 1, a)
  {
    assert ApprovalAfter(s, t, ids, derived, n, a);
    ApproveIff(t, ids[n], derived[n]);
    GrantedMore(s, ids, derived, n, a);
  }

  lemma NextKeys(s: State, id: nat, derived: bool)
    requires id in s.approvals ==> s.approvals[id].subject in s.objects
    ensures Approve(s, id, derived).objects.Keys == s.objects.Keys && Approve(s, id, derived).approvals.Keys == s.approvals.Keys
  {
    ApproveIff(s, id, derived);
  }

  lemma BatchStep(s: State, t: State, ids: seq<nat>, derived: seq<bool>, n: nat)
    requires n < |ids| == |derived| && IsAfter(s, t, ids, derived, n)
    requires ids[n] in s.approvals ==> s.approvals[ids[n]].subject in s.objects
    ensures IsAfter(s, Approve(t, ids[n], derived[n]), ids, derived, n + 1)
  {
    var t' := Approve(t, ids[n], derived[n]);
    NextIsFirst(s, t, ids, derived, n);
    if ids[n] in s.approvals { assert ApprovalAfter(s, t, ids, derived, n, ids[n]); }
    NextKeys(t, ids[n], derived[n]);
    forall r | r in s.objects ensures ObjectAfter(s, t', ids, derived, n + 1, r) { NextObject(s, t, ids, derived, n, r); }
    forall a | a in s.approvals ensures ApprovalAfter(s, t', ids, derived, n + 1, a) { NextApproval(s, t, ids, derived, n, a); }
  }

  /** A row that was reported stays right. */
  lemma ReportHolds(s: State, t: State, ids: seq<nat>, derived: seq<bool>, i: nat, row: BatchRow, id: nat, d: bool)
    requires i < |ids| == |derived| && Reports(s, t, ids, derived, i, row)
    ensures Reports(s, Approve(t, id, d), ids, derived, i, row)
  {
    ApproveIff(t, id, d);
  }

  lemma NextReport(s: State, t: State, ids: seq<nat>, derived: seq<bool>, n: nat, r: Approved)
    requires n < |ids| == |derived| && Valid(t) && IsAfter(s, t, ids, derived, n + 1)
    requires r == NotFound <==> ids[n] !in t.approvals
    requires r.IsApproved? <==> ids[n] in t.approvals && t.approvals[ids[n]].verdict == Verdict.Approved
    requires Holds(t, BatchRow(ids[n], r))
    ensures Reports(s, t, ids, derived, n, BatchRow(ids[n], r))
  {
    if ids[n] in s.approvals {
      assert ApprovalAfter(s, t, ids, derived, n + 1, ids[n]);
      if r.IsApproved? { assert ApprovalOk(t, ids[n]); }
    }
  }

  lemma ReportedHolds(s: State, t: State, ids: seq<nat>, derived: seq<bool>, i: nat, row: BatchRow)
    requires i < |ids| == |derived| && IsAfter(s, t, ids, derived, |ids|) && Reports(s, t, ids, derived, i, row)
    ensures Holds(t, row)
  {
    if ids[i] in s.approvals {
      assert ApprovalAfter(s, t, ids, derived, |ids|, ids[i]);
      if IsGranted(s, ids, derived, i + 1, ids[i]) { assert IsGranted(s, ids, derived, |ids|, ids[i]); }
    }
  }

  /** A new voucher is one that a row reports. */
  ghost predicate IsReported(rows: seq<BatchRow>, v: nat) {
    exists i :: 0 <= i < |rows| && rows[i].result == IsApproved(Some(v))
  }

  lemma {:induction false} ReachedHasFirst(s: State, ids: seq<nat>, derived: seq<bool>, n: nat, r: Ref) returns (i: nat)
    requires n <= |ids| == |derived| && IsReached(s, ids, derived, n, r)
    ensures i < n && IsFirst(s, ids, derived, i) && s.approvals[ids[i]].subject == r
  {
    if IsReached(s, ids, derived, n - 1, r) {
      i := ReachedHasFirst(s, ids, derived, n - 1, r);
    } else {
      ReachedMore(s, ids, derived, n - 1, r);
      i := n - 1;
    }
  }

  lemma NewVoucherIsReported(s: State, t: State, ids: seq<nat>, derived: seq<bool>, rows: seq<BatchRow>, v: nat)
    requires Valid(s) && Valid(t) && |ids| == |derived| == |rows| && IsAfter(s, t, ids, derived, |ids|)
    requires forall i :: 0 <= i < |ids| ==> Reports(s, t, ids, derived, i, rows[i])
    requires v in t.vouchers && v !in s.vouchers
    ensures IsReported(rows, v)
  {
    assert VoucherOk(t, v);
    var r := t.vouchers[v];
    assert ObjectOk(s, r) && ObjectAfter(s, t, ids, derived, |ids|, r);
    var i := ReachedHasFirst(s, ids, derived, |ids|, r);
    assert IsGranted(s, ids, derived, i + 1, ids[i]);
    assert Reports(s, t, ids, derived, i, rows[i]);
  }

  /** What can be posted and is not preceded by another listed approval of its object is posted. */
  lemma AloneItIsPosted(s: State, t: State, ids: seq<nat>, derived: seq<bool>, i: nat, row: BatchRow)
    requires i < |ids| == |derived| && CanPostAt(s, ids, derived, i) && Reports(s, t, ids, derived, i, row)
    requires forall j :: 0 <= j < i && ids[j] in s.approvals ==> s.approvals[ids[j]].subject != s.approvals[ids[i]].subject
    ensures row.result.IsApproved? && IsPostedWith(t, s.approvals[ids[i]].subject, row.result.voucher)
  {
    assert IsFirst(s, ids, derived, i);
    assert IsGranted(s, ids, derived, i + 1, ids[i]);
  }

  class ApprovalTables {
    var objects: map<Ref, Object>
    var approvals: map<nat, Approval>
    var vouchers: map<nat, Ref>
    var nextApproval: nat
    var nextVoucher: nat

    function Now(): State
      reads this
    {
      State(objects, approvals, vouchers, map[], nextApproval, nextVoucher)
    }

    constructor ()
      ensures Now() == EMPTY && Valid(Now())
    {
      objects, approvals, vouchers, nextApproval, nextVoucher := map[], map[], map[], 1, 1;
    }

    /** The one conditional update that claims an object. */
    method Claim(r: Ref, from: Status, to: Status) returns (ok: bool)
      modifies `objects
      ensures ok <==> Transition(old(Now()), r, from, to).Some?
      ensures Now() == if ok then Transition(old(Now()), r, from, to).value else old(Now())
    {
      ok := IsLegal(r.kind, from, to) && r in objects && objects[r].status == from;
      if ok { objects := objects[r := objects[r].(status := to)]; }
    }

    method RuleOn(id: nat, verdict: Verdict)
      requires id in approvals
      modifies `approvals
      ensures Now() == Rule(old(Now()), id, verdict)
    {
      approvals := approvals[id := approvals[id].(verdict := verdict)];
    }

    method PostVoucher(r: Ref) returns (voucher: nat)
      requires r in objects
      modifies `objects, `vouchers, `nextVoucher
      ensures Now() == Post(old(Now()), r) && voucher == old(nextVoucher)
    {
      voucher := nextVoucher;
      vouchers := vouchers[voucher := r];
      objects := objects[r := objects[r].(voucher := Some(voucher))];
      nextVoucher := nextVoucher + 1;
    }

    /** Holds a draft for approval, unless one is already awaited. */
    method CreateApproval(r: Ref) returns (ok: bool)
      requires Valid(Now())
      modifies this
      ensures Valid(Now()) && Keeps(old(Now()), Now())
      ensures ok <==> !HasAwaiting(old(Now()), r) && CommitCreate(old(Now()), r).Some?
      ensures Now() == if ok then CommitCreate(old(Now()), r).value else old(Now())
      ensures ok <==> CanHold(old(Now()), r)
      ensures ok ==> IsHolding(old(Now()), Now(), r)
    {
      CreateIff(Now(), r);
      if HasAwaiting(Now(), r) { return false; }
      if CommitCreate(Now(), r).Some? { CreateKeeps(Now(), r); }
      ok := Claim(r, Draft, Held(r));
      if ok {
        approvals := approvals[nextApproval := Approval(r, Awaiting)];
        nextApproval := nextApproval + 1;
      }
    }

    /** Posts the object of an approval: its status, its voucher, its reference to it, then the verdict.
        Approving again reports the voucher there is. */
    method ApproveApproval(id: nat, derived: bool) returns (r: Approved)
      requires Valid(Now())
      modifies this
      ensures Valid(Now()) && Keeps(old(Now()), Now()) && Now() == Approve(old(Now()), id, derived)
      ensures r.NotFound? <==> id !in old(approvals)
      ensures r.IsApproved? <==> id in approvals && approvals[id].verdict == Verdict.Approved
      ensures Holds(Now(), BatchRow(id, r))
      ensures CanPost(old(Now()), id, derived) ==> r == IsApproved(Some(old(nextVoucher))) && IsPosting(old(Now()), Now(), id)
      ensures !CanPost(old(Now()), id, derived) ==> Now() == old(Now())
    {
      ApproveIsSafe(Now(), id, derived);
      ApproveIff(Now(), id, derived);
      if id !in approvals { return NotFound; }
      if approvals[id].verdict == Verdict.Approved {
        ApprovedHasItsVoucher(Now(), id);
        return IsApproved(VoucherOf(Now(), id));
      }
      if approvals[id].verdict != Awaiting || !derived { return if derived then NotAwaiting else NotPosted; }
      if CommitApprove(Now(), id, derived).Some? { ApprovedNow(Now(), id, derived); }
      var subject := approvals[id].subject;
      var ok := Claim(subject, Held(subject), Posted);
      if !ok { return NotPosted; }
      var voucher := PostVoucher(subject);
      RuleOn(id, Verdict.Approved);
      r := IsApproved(Some(voucher));
    }

    /** Returns the object of an awaited approval to draft. */
    method RejectApproval(id: nat) returns (ok: bool)
      requires Valid(Now())
      modifies this
      ensures Valid(Now()) && Keeps(old(Now()), Now())
      ensures ok <==> IsAwaiting(old(Now()), id) && CommitReject(old(Now()), id).Some?
      ensures Now() == if ok then CommitReject(old(Now()), id).value else old(Now())
      ensures ok <==> CanReturn(old(Now()), id)
      ensures ok ==> IsReturning(old(Now()), Now(), id)
    {
      RejectIff(Now(), id);
      if id !in approvals || approvals[id].verdict != Awaiting { return false; }
      if CommitReject(Now(), id).Some? { RejectKeeps(Now(), id); }
      var subject := approvals[id].subject;
      ok := Claim(subject, Held(subject), Draft);
      if ok { RuleOn(id, Rejected); }
    }

    /** Each id on its own: a failure is a row, not the end of the batch. What could be posted at
        entry is posted, once per object, and reported with its voucher; nothing else changes. */
    method ApproveBatch(ids: seq<nat>, derived: seq<bool>) returns (rows: seq<BatchRow>)
      requires Valid(Now()) && |derived| == |ids|
      modifies this
      ensures Valid(Now()) && Keeps(old(Now()), Now())
      ensures |rows| == |ids| && IsAfter(old(Now()), Now(), ids, derived, |ids|)
      ensures forall i :: 0 <= i < |ids| ==> Reports(old(Now()), Now(), ids, derived, i, rows[i]) && Holds(Now(), rows[i])
      ensures forall i, j :: 0 <= i < |ids| && 0 <= j < |ids| && ids[i] == ids[j] && rows[i].result.IsApproved? && rows[j].result.IsApproved? ==>
                rows[i] == rows[j]
      ensures forall v :: v in vouchers && v !in old(vouchers) ==> IsReported(rows, v)
    {
      rows := [];
      ghost var s := Now();
      for n := 0 to |ids|
        invariant Valid(Now()) && Keeps(s, Now()) && IsAfter(s, Now(), ids, derived, n)
        invariant |rows| == n && forall i :: 0 <= i < n ==> Reports(s, Now(), ids, derived, i, rows[i])
      {
        ghost var t := Now();
        var r := ApproveApproval(ids[n], derived[n]);
        KeepsTransitive(s, t, Now());
        if ids[n] in s.approvals { SubjectExists(s, ids[n]); }
        BatchStep(s, t, ids, derived, n);
        forall i | 0 <= i < n ensures Reports(s, Now(), ids, derived, i, rows[i]) {
          ReportHolds(s, t, ids, derived, i, rows[i], ids[n], derived[n]);
        }
        NextReport(s, Now(), ids, derived, n, r);
        rows := rows + [BatchRow(ids[n], r)];
      }
      forall i | 0 <= i < |ids| ensures Holds(Now(), rows[i]) { ReportedHolds(s, Now(), ids, derived, i, rows[i]); }
      forall v | v in vouchers && v !in s.vouchers ensures IsReported(rows, v) {
        NewVoucherIsReported(s, Now(), ids, derived, rows, v);
      }
    }
  }
}
