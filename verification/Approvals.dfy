/** Holding a voucher for a human and posting it once (`approvals.service.ts`, the submit step of
    `allowance.service.ts`, `status-transition.service.ts`).

    Every operation reads first and then runs one transaction; between the two, any other
    operation may run. A state carries the calls that have read and not yet committed. */
module Approvals {
  import opened Wrappers

  // ---------- state ----------

  datatype ObjectType = Expense | SalesInvoice | Allowance

  /** A business object: the type and the id. */
  datatype Ref = Ref(kind: ObjectType, id: nat)

  datatype Status = Draft | Pending | NeedsTriage | Posted

  datatype Object = Object(status: Status, voucher: Option<nat>)

  datatype Verdict = Awaiting | Approved | Rejected | Superseded

  datatype Approval = Approval(subject: Ref, verdict: Verdict)

  /** A call between its reads and its transaction. */
  datatype Call = Creating(subject: Ref) | Approving(id: nat) | Rejecting(id: nat) | Superseding(id: nat, newer: nat)

  datatype State = State(
    objects: map<Ref, Object>,
    approvals: map<nat, Approval>,
    vouchers: map<nat, Ref>,
    calls: map<nat, Call>,
    nextApproval: nat, nextVoucher: nat)

  /** The status an object has while it waits for its approval. */
  function Held(r: Ref): Status { if r.kind == Allowance then NeedsTriage else Pending }

  predicate HasAwaiting(s: State, r: Ref) {
    exists a :: a in s.approvals && s.approvals[a] == Approval(r, Awaiting)
  }

  predicate IsIn(s: State, r: Ref, status: Status) {
    r in s.objects && s.objects[r].status == status
  }

  // ---------- the guarded transition and the transactions ----------

  /** The graph of the transition seam, without the correction step. */
  predicate IsLegal(kind: ObjectType, from: Status, to: Status) {
    if kind == Allowance then
      (from == Draft && to == NeedsTriage) || (from == NeedsTriage && (to == Posted || to == Draft))
    else
      (from == Draft && (to == Pending || to == Posted)) || (from == Pending && (to == Posted || to == Draft))
  }

  function Move(s: State, r: Ref, to: Status): State
    requires r in s.objects
  {
    s.(objects := s.objects[r := s.objects[r].(status := to)])
  }

  /** Claims the object only from the expected status; none when it was not there. */
  function Transition(s: State, r: Ref, from: Status, to: Status): Option<State> {
    if IsLegal(r.kind, from, to) && IsIn(s, r, from) then Some(Move(s, r, to)) else None
  }

  /** Posts a voucher for the object and points the object at it. */
  function Post(s: State, r: Ref): State
    requires r in s.objects
  {
    s.(vouchers := s.vouchers[s.nextVoucher := r],
       objects := s.objects[r := s.objects[r].(voucher := Some(s.nextVoucher))],
       nextVoucher := s.nextVoucher + 1)
  }

  function Rule(s: State, id: nat, verdict: Verdict): State {
    if id in s.approvals then s.(approvals := s.approvals[id := s.approvals[id].(verdict := verdict)]) else s
  }

  function AddApproval(s: State, r: Ref): State {
    s.(approvals := s.approvals[s.nextApproval := Approval(r, Awaiting)], nextApproval := s.nextApproval + 1)
  }

  /** Holds a draft: the transition and the approval row. */
  function CommitCreate(s: State, r: Ref): Option<State> {
    var t := Transition(s, r, Draft, Held(r));
    if t.None? then None else Some(AddApproval(t.value, r))
  }

  /** Posts the held object; `derived` says whether a voucher could be derived and prepared. The
      approval is ruled on by its id, whatever its verdict has become since it was read. */
  function CommitApprove(s: State, id: nat, derived: bool): Option<State> {
    if id !in s.approvals || !derived then None
    else
      var r := s.approvals[id].subject;
      var t := Transition(s, r, Held(r), Posted);
      if t.None? then None else Some(Rule(Post(t.value, r), id, Approved))
  }

  function CommitReject(s: State, id: nat): Option<State> {
    if id !in s.approvals then None
    else
      var r := s.approvals[id].subject;
      var t := Transition(s, r, Held(r), Draft);
      if t.None? then None else Some(Rule(t.value, id, Rejected))
  }

  function CommitSupersede(s: State, id: nat): Option<State> {
    if id !in s.approvals then None else Some(Rule(s, id, Superseded))
  }

  // ---------- steps ----------

  datatype Step =
    | AddDraft(subject: Ref)
    | ReadCreate(client: nat, subject: Ref)
    | ReadApprove(client: nat, id: nat)
    | ReadReject(client: nat, id: nat)
    | ReadSupersede(client: nat, id: nat, newer: nat)
    | Commit(client: nat, derived: bool)
    | PipelineHold(subject: Ref)
    | PipelinePost(subject: Ref)

  function Begin(s: State, client: nat, call: Call): State {
    s.(calls := s.calls[client := call])
  }

  function End(s: State, client: nat): State { s.(calls := s.calls - {client}) }

  function CommitCall(s: State, call: Call, derived: bool): Option<State> {
    match call
    case Creating(r) => CommitCreate(s, r)
    case Approving(id) => CommitApprove(s, id, derived)
    case Rejecting(id) => CommitReject(s, id)
    case Superseding(id, _) => CommitSupersede(s, id)
  }

  predicate IsAwaiting(s: State, id: nat) { id in s.approvals && s.approvals[id].verdict == Awaiting }

  /** A read that refuses, and a transaction that throws, change nothing but the call. */
  function Next(s: State, step: Step): State {
    match step
    case AddDraft(r) => if r in s.objects then s else s.(objects := s.objects[r := Object(Draft, None)])
    case ReadCreate(c, r) => if HasAwaiting(s, r) then s else Begin(s, c, Creating(r))
    case ReadApprove(c, id) => if IsAwaiting(s, id) then Begin(s, c, Approving(id)) else s
    case ReadReject(c, id) => if IsAwaiting(s, id) then Begin(s, c, Rejecting(id)) else s
    case ReadSupersede(c, id, newer) => if IsAwaiting(s, id) && newer in s.approvals then Begin(s, c, Superseding(id, newer)) else s
    case Commit(c, derived) =>
      if c !in s.calls then s
      else
        var t := CommitCall(s, s.calls[c], derived);
        End(if t.Some? then t.value else s, c)
    case PipelineHold(r) => var t := CommitCreate(s, r); if t.Some? then t.value else s
    case PipelinePost(r) =>
      var t := Transition(s, r, Draft, Posted);
      if t.Some? then Post(t.value, r) else s
  }

  function Run(s: State, steps: seq<Step>): State {
    if steps == [] then s else Next(Run(s, steps[..|steps| - 1]), steps[|steps| - 1])
  }

  const EMPTY := State(map[], map[], map[], map[], 1, 1)

  // ---------- the invariant ----------

  ghost predicate VoucherOk(s: State, v: nat)
    requires v in s.vouchers
  {
    v < s.nextVoucher && s.vouchers[v] in s.objects && s.objects[s.vouchers[v]] == Object(Posted, Some(v))
  }

  ghost predicate ObjectOk(s: State, r: Ref)
    requires r in s.objects
  {
    && s.objects[r].status in {Draft, Held(r), Posted}
    && (s.objects[r].status == Posted <==> s.objects[r].voucher.Some?)
    && (s.objects[r].voucher.Some? ==> s.objects[r].voucher.value in s.vouchers && s.vouchers[s.objects[r].voucher.value] == r)
  }

  ghost predicate ApprovalOk(s: State, a: nat)
    requires a in s.approvals
  {
    && a < s.nextApproval && s.approvals[a].subject in s.objects
    && (s.approvals[a].verdict == Approved ==> IsIn(s, s.approvals[a].subject, Posted))
  }

  ghost predicate OnlyApproval(s: State, a: nat, b: nat)
    requires a in s.approvals && b in s.approvals
  {
    s.approvals[a].verdict == Approved && s.approvals[b].verdict == Approved && s.approvals[a].subject == s.approvals[b].subject ==> a == b
  }

  ghost predicate Valid(s: State) {
    && (forall v :: v in s.vouchers ==> VoucherOk(s, v))
    && (forall r :: r in s.objects ==> ObjectOk(s, r))
    && (forall a :: a in s.approvals ==> ApprovalOk(s, a))
    && (forall a, b :: a in s.approvals && b in s.approvals ==> OnlyApproval(s, a, b))
  }

  /** What is posted stays posted, with the voucher it has. */
  ghost predicate Keeps(s: State, t: State) {
    && (forall r :: r in s.objects ==> r in t.objects && (s.objects[r].status == Posted ==> t.objects[r] == s.objects[r]))
    && (forall v :: v in s.vouchers ==> v in t.vouchers && t.vouchers[v] == s.vouchers[v])
  }

  // ---------- each transaction keeps it ----------

  lemma MoveKeeps(s: State, r: Ref, to: Status)
    requires Valid(s) && r in s.objects && s.objects[r].status != Posted && to in {Draft, Held(r)}
    ensures Valid(Move(s, r, to)) && Keeps(s, Move(s, r, to))
  {
    var t := Move(s, r, to);
    assert ObjectOk(s, r);
    forall v | v in t.vouchers ensures VoucherOk(t, v) { assert VoucherOk(s, v); }
    forall x | x in t.objects ensures ObjectOk(t, x) { assert ObjectOk(s, x); }
    forall a | a in t.approvals ensures ApprovalOk(t, a) { assert ApprovalOk(s, a); }
    forall a, b | a in t.approvals && b in t.approvals ensures OnlyApproval(t, a, b) { assert OnlyApproval(s, a, b); }
  }

  /** The transition and the voucher together: the only way anything is posted. */
  function MoveAndPost(s: State, r: Ref): State
    requires r in s.objects
  {
    Post(Move(s, r, Posted), r)
  }

  lemma PostKeeps(s: State, r: Ref)
    requires Valid(s) && r in s.objects && s.objects[r].status != Posted
    ensures Valid(MoveAndPost(s, r)) && Keeps(s, MoveAndPost(s, r))
  {
    var t := MoveAndPost(s, r);
    assert ObjectOk(s, r);
    forall v | v in t.vouchers ensures VoucherOk(t, v) {
      if v != s.nextVoucher { assert VoucherOk(s, v); }
    }
    VouchersAreOld(s);
    forall x | x in t.objects ensures ObjectOk(t, x) { assert ObjectOk(s, x); }
    forall a | a in t.approvals ensures ApprovalOk(t, a) { assert ApprovalOk(s, a); }
    forall a, b | a in t.approvals && b in t.approvals ensures OnlyApproval(t, a, b) { assert OnlyApproval(s, a, b); }
  }

  lemma VouchersAreOld(s: State)
    requires Valid(s)
    ensures forall v :: v in s.vouchers ==> v < s.nextVoucher
  {
    forall v | v in s.vouchers ensures v < s.nextVoucher { assert VoucherOk(s, v); }
  }

  lemma ApprovalsAreOld(s: State)
    requires Valid(s)
    ensures forall a :: a in s.approvals ==> a < s.nextApproval
  {
    forall a | a in s.approvals ensures a < s.nextApproval { assert ApprovalOk(s, a); }
  }

  lemma AddApprovalKeeps(s: State, r: Ref)
    requires Valid(s) && r in s.objects
    ensures Valid(AddApproval(s, r)) && Keeps(s, AddApproval(s, r))
  {
    var t := AddApproval(s, r);
    ApprovalsAreOld(s);
    forall v | v in t.vouchers ensures VoucherOk(t, v) { assert VoucherOk(s, v); }
    forall x | x in t.objects ensures ObjectOk(t, x) { assert ObjectOk(s, x); }
    forall a | a in t.approvals ensures ApprovalOk(t, a) {
      if a != s.nextApproval { assert ApprovalOk(s, a); }
    }
    forall a, b | a in t.approvals && b in t.approvals ensures OnlyApproval(t, a, b) {
      if a in s.approvals && b in s.approvals { assert OnlyApproval(s, a, b); }
    }
  }

  lemma RuleKeeps(s: State, id: nat, verdict: Verdict)
    requires Valid(s)
    requires verdict == Approved && id in s.approvals ==>
               IsIn(s, s.approvals[id].subject, Posted)
               && forall a :: a in s.approvals && s.approvals[a].subject == s.approvals[id].subject && s.approvals[a].verdict == Approved ==> a == id
    ensures Valid(Rule(s, id, verdict)) && Keeps(s, Rule(s, id, verdict))
  {
    var t := Rule(s, id, verdict);
    forall v | v in t.vouchers ensures VoucherOk(t, v) { assert VoucherOk(s, v); }
    forall x | x in t.objects ensures ObjectOk(t, x) { assert ObjectOk(s, x); }
    forall a | a in t.approvals ensures ApprovalOk(t, a) { assert ApprovalOk(s, a); }
    forall a, b | a in t.approvals && b in t.approvals ensures OnlyApproval(t, a, b) { assert OnlyApproval(s, a, b); }
  }

  lemma NotYetApproved(s: State, r: Ref)
    requires Valid(s) && r in s.objects && s.objects[r].status != Posted
    ensures forall a :: a in s.approvals && s.approvals[a].subject == r ==> s.approvals[a].verdict != Approved
  {
    forall a | a in s.approvals && s.approvals[a].subject == r ensures s.approvals[a].verdict != Approved { assert ApprovalOk(s, a); }
  }

  lemma KeepsTransitive(a: State, b: State, c: State)
    requires Keeps(a, b) && Keeps(b, c)
    ensures Keeps(a, c)
  {}

  lemma CreateKeeps(s: State, r: Ref)
    requires Valid(s) && CommitCreate(s, r).Some?
    ensures Valid(CommitCreate(s, r).value) && Keeps(s, CommitCreate(s, r).value)
  {
    var t := Move(s, r, Held(r));
    MoveKeeps(s, r, Held(r));
    AddApprovalKeeps(t, r);
    KeepsTransitive(s, t, AddApproval(t, r));
  }

  lemma ApproveKeeps(s: State, id: nat, derived: bool)
    requires Valid(s) && CommitApprove(s, id, derived).Some?
    ensures Valid(CommitApprove(s, id, derived).value) && Keeps(s, CommitApprove(s, id, derived).value)
  {
    var r := s.approvals[id].subject;
    var t := MoveAndPost(s, r);
    PostKeeps(s, r);
    NotYetApproved(s, r);
    RuleKeeps(t, id, Approved);
    KeepsTransitive(s, t, Rule(t, id, Approved));
  }

  lemma RejectKeeps(s: State, id: nat)
    requires Valid(s) && CommitReject(s, id).Some?
    ensures Valid(CommitReject(s, id).value) && Keeps(s, CommitReject(s, id).value)
  {
    var r := s.approvals[id].subject;
    var t := Move(s, r, Draft);
    MoveKeeps(s, r, Draft);
    RuleKeeps(t, id, Rejected);
    KeepsTransitive(s, t, Rule(t, id, Rejected));
  }

  lemma CommitKeeps(s: State, call: Call, derived: bool)
    requires Valid(s) && CommitCall(s, call, derived).Some?
    ensures Valid(CommitCall(s, call, derived).value) && Keeps(s, CommitCall(s, call, derived).value)
  {
    match call
    case Creating(r) => CreateKeeps(s, r);
    case Approving(id) => ApproveKeeps(s, id, derived);
    case Rejecting(id) => RejectKeeps(s, id);
    case Superseding(id, _) => RuleKeeps(s, id, Superseded);
  }

  /** The calls are not part of what is kept. */
  lemma CallsDoNotMatter(s: State, calls: map<nat, Call>)
    requires Valid(s)
    ensures Valid(s.(calls := calls)) && Keeps(s, s.(calls := calls))
  {
    var t := s.(calls := calls);
    forall v | v in t.vouchers ensures VoucherOk(t, v) { assert VoucherOk(s, v); }
    forall x | x in t.objects ensures ObjectOk(t, x) { assert ObjectOk(s, x); }
    forall a | a in t.approvals ensures ApprovalOk(t, a) { assert ApprovalOk(s, a); }
    forall a, b | a in t.approvals && b in t.approvals ensures OnlyApproval(t, a, b) { assert OnlyApproval(s, a, b); }
  }

  lemma DraftKeeps(s: State, r: Ref)
    requires Valid(s) && r !in s.objects
    ensures Valid(s.(objects := s.objects[r := Object(Draft, None)])) && Keeps(s, s.(objects := s.objects[r := Object(Draft, None)]))
  {
    var t := s.(objects := s.objects[r := Object(Draft, None)]);
    forall v | v in t.vouchers ensures VoucherOk(t, v) { assert VoucherOk(s, v); }
    forall x | x in t.objects ensures ObjectOk(t, x) {
      if x != r { assert ObjectOk(s, x); }
    }
    forall a | a in t.approvals ensures ApprovalOk(t, a) { assert ApprovalOk(s, a); }
    forall a, b | a in t.approvals && b in t.approvals ensures OnlyApproval(t, a, b) { assert OnlyApproval(s, a, b); }
  }

  lemma CommitStepKeeps(s: State, client: nat, derived: bool)
    requires Valid(s)
    ensures Valid(Next(s, Commit(client, derived))) && Keeps(s, Next(s, Commit(client, derived)))
  {
    if client in s.calls {
      var t := CommitCall(s, s.calls[client], derived);
      if t.Some? {
        CommitKeeps(s, s.calls[client], derived);
        CallsDoNotMatter(t.value, t.value.calls - {client});
        KeepsTransitive(s, t.value, End(t.value, client));
      } else {
        CallsDoNotMatter(s, s.calls - {client});
      }
    }
  }

  lemma PipelineStepKeeps(s: State, step: Step)
    requires Valid(s) && (step.PipelineHold? || step.PipelinePost? || step.AddDraft?)
    ensures Valid(Next(s, step)) && Keeps(s, Next(s, step))
  {
    match step
    case PipelineHold(r) => if CommitCreate(s, r).Some? { CreateKeeps(s, r); }
    case PipelinePost(r) => if Transition(s, r, Draft, Posted).Some? { PostKeeps(s, r); }
    case AddDraft(r) => if r !in s.objects { DraftKeeps(s, r); }
  }

  lemma ReadStepKeeps(s: State, step: Step)
    requires Valid(s) && (step.ReadCreate? || step.ReadApprove? || step.ReadReject? || step.ReadSupersede?)
    ensures Valid(Next(s, step)) && Keeps(s, Next(s, step))
  {
    CallsDoNotMatter(s, Next(s, step).calls);
  }

  lemma StepKeeps(s: State, step: Step)
    requires Valid(s)
    ensures Valid(Next(s, step)) && Keeps(s, Next(s, step))
  {
    match step
    case Commit(c, derived) => CommitStepKeeps(s, c, derived);
    case AddDraft(_) => PipelineStepKeeps(s, step);
    case PipelineHold(_) => PipelineStepKeeps(s, step);
    case PipelinePost(_) => PipelineStepKeeps(s, step);
    case _ => ReadStepKeeps(s, step);
  }

  // ---------- over every run ----------

  lemma {:induction false} RunKeeps(s: State, steps: seq<Step>)
    requires Valid(s)
    ensures Valid(Run(s, steps)) && Keeps(s, Run(s, steps))
    decreases |steps|
  {
    if steps != [] {
      var mid := Run(s, steps[..|steps| - 1]);
      RunKeeps(s, steps[..|steps| - 1]);
      StepKeeps(mid, steps[|steps| - 1]);
      KeepsTransitive(s, mid, Run(s, steps));
    }
  }

  /** Post at most once: after any interleaving of reads and transactions, no object has two
      vouchers; a voucher, once posted, is its object's for ever after. */
  lemma PostedAtMostOnce(steps: seq<Step>, more: seq<Step>, v: nat, w: nat)
    requires v in Run(EMPTY, steps).vouchers
    requires w in Run(Run(EMPTY, steps), more).vouchers
    requires Run(EMPTY, steps).vouchers[v] == Run(Run(EMPTY, steps), more).vouchers[w]
    ensures v == w
  {
    var s := Run(EMPTY, steps);
    var t := Run(s, more);
    RunKeeps(EMPTY, steps);
    RunKeeps(s, more);
    assert VoucherOk(t, v) && VoucherOk(t, w);
  }

  /** An approval that says approved names a posted object with a voucher, and no other approval
      of that object says so too. */
  lemma ApprovedMeansPosted(steps: seq<Step>, a: nat, b: nat)
    requires a in Run(EMPTY, steps).approvals && Run(EMPTY, steps).approvals[a].verdict == Approved
    ensures var s := Run(EMPTY, steps); var r := s.approvals[a].subject;
            && r in s.objects && s.objects[r].status == Posted && s.objects[r].voucher.Some?
            && s.objects[r].voucher.value in s.vouchers && s.vouchers[s.objects[r].voucher.value] == r
            && (b in s.approvals && s.approvals[b] == s.approvals[a] ==> a == b)
  {
    var s := Run(EMPTY, steps);
    RunKeeps(EMPTY, steps);
    assert ApprovalOk(s, a) && ObjectOk(s, s.approvals[a].subject);
    if b in s.approvals { assert OnlyApproval(s, a, b); }
  }

  // ---------- verdicts that change ----------

  predicate InFlight(s: State, call: Call) {
    exists c :: c in s.calls && s.calls[c] == call
  }

  predicate SupersedingInFlight(s: State, id: nat) {
    exists c :: c in s.calls && s.calls[c].Superseding? && s.calls[c].id == id
  }

  /** A ruled-on approval whose verdict a call in flight can still overwrite: a supersession
      always can, and while the object is not posted so can an approval, or the rejection of a
      superseded one. */
  predicate CanChange(s: State, id: nat)
    requires id in s.approvals
  {
    || (SupersedingInFlight(s, id) && s.approvals[id].verdict != Superseded)
    || (!IsIn(s, s.approvals[id].subject, Posted)
        && (InFlight(s, Approving(id)) || (InFlight(s, Rejecting(id)) && s.approvals[id].verdict == Superseded)))
  }

  predicate IsFinal(s: State, id: nat) {
    id in s.approvals && s.approvals[id].verdict != Awaiting && !CanChange(s, id)
  }

  /** Nothing new comes to rule on an approval that is no longer awaited. */
  lemma FlightsOnlyLand(s: State, step: Step, id: nat)
    requires id in s.approvals && s.approvals[id].verdict != Awaiting
    ensures forall call: Call :: !call.Creating? && call.id == id && InFlight(Next(s, step), call) ==> InFlight(s, call)
    ensures SupersedingInFlight(Next(s, step), id) ==> SupersedingInFlight(s, id)
  {}

  lemma FinalCommitKeepsIt(s: State, client: nat, derived: bool, id: nat)
    requires Valid(s) && IsFinal(s, id) && client in s.calls
    ensures var t := CommitCall(s, s.calls[client], derived);
            t.Some? ==> id in t.value.approvals && t.value.approvals[id] == s.approvals[id]
  {
    ApprovalsAreOld(s);
    assert ApprovalOk(s, id) && ObjectOk(s, s.approvals[id].subject);
    assert InFlight(s, s.calls[client]);
  }

  lemma FinalKeepsItsVerdict(s: State, step: Step, id: nat)
    requires Valid(s) && IsFinal(s, id)
    ensures id in Next(s, step).approvals && Next(s, step).approvals[id] == s.approvals[id]
  {
    ApprovalsAreOld(s);
    assert ApprovalOk(s, id) && ObjectOk(s, s.approvals[id].subject);
    if step.Commit? && step.client in s.calls { FinalCommitKeepsIt(s, step.client, step.derived, id); }
  }

  lemma FinalStaysFinal(s: State, step: Step, id: nat)
    requires Valid(s) && IsFinal(s, id)
    ensures IsFinal(Next(s, step), id) && Next(s, step).approvals[id] == s.approvals[id]
  {
    FinalKeepsItsVerdict(s, step, id);
    FlightsOnlyLand(s, step, id);
    StepKeeps(s, step);
    assert ApprovalOk(s, id);
  }

  lemma {:induction false} FinalForEver(s: State, steps: seq<Step>, id: nat)
    requires Valid(s) && IsFinal(s, id)
    ensures IsFinal(Run(s, steps), id) && Run(s, steps).approvals[id] == s.approvals[id]
    decreases |steps|
  {
    if steps != [] {
      FinalForEver(s, steps[..|steps| - 1], id);
      RunKeeps(s, steps[..|steps| - 1]);
      FinalStaysFinal(Run(s, steps[..|steps| - 1]), steps[|steps| - 1], id);
    }
  }

  lemma RunOne(s: State, step: Step)
    ensures Run(s, [step]) == Next(s, step)
  {
    assert [step][..0] == [];
    assert Run(s, []) == s;
  }

  lemma RunTwo(s: State, first: Step, second: Step)
    ensures Run(s, [first, second]) == Next(Next(s, first), second)
  {
    assert [first, second][..1] == [first];
    RunOne(s, first);
  }

  /** The steps that make the call rule: hold the object again if it was let go, then commit. */
  function Overwriting(s: State, id: nat, client: nat): seq<Step>
    requires id in s.approvals
  {
    var r := s.approvals[id].subject;
    if client in s.calls && !s.calls[client].Superseding? && IsIn(s, r, Draft)
    then [PipelineHold(r), Commit(client, true)] else [Commit(client, true)]
  }

  lemma SupersedingOverwrites(s: State, id: nat, client: nat)
    requires id in s.approvals && client in s.calls && s.calls[client].Superseding? && s.calls[client].id == id
    ensures id in Run(s, Overwriting(s, id, client)).approvals
    ensures Run(s, Overwriting(s, id, client)).approvals[id].verdict == Superseded
  {
    RunOne(s, Commit(client, true));
  }

  lemma CommitOverwrites(s: State, id: nat, client: nat)
    requires id in s.approvals && client in s.calls && s.calls[client] in {Approving(id), Rejecting(id)}
    requires IsIn(s, s.approvals[id].subject, Held(s.approvals[id].subject))
    ensures id in Next(s, Commit(client, true)).approvals
    ensures Next(s, Commit(client, true)).approvals[id].verdict == if s.calls[client].Approving? then Approved else Rejected
  {}

  lemma HoldAgain(s: State, id: nat, client: nat)
    requires Valid(s) && id in s.approvals && client in s.calls && IsIn(s, s.approvals[id].subject, Draft)
    ensures var t := Next(s, PipelineHold(s.approvals[id].subject));
            && id in t.approvals && t.approvals[id] == s.approvals[id] && t.calls == s.calls
            && IsIn(t, s.approvals[id].subject, Held(s.approvals[id].subject))
  {
    ApprovalsAreOld(s);
  }

  lemma RulingOverwrites(s: State, id: nat, client: nat)
    requires Valid(s) && id in s.approvals && !IsIn(s, s.approvals[id].subject, Posted)
    requires client in s.calls && s.calls[client] in {Approving(id), Rejecting(id)}
    ensures id in Run(s, Overwriting(s, id, client)).approvals
    ensures Run(s, Overwriting(s, id, client)).approvals[id].verdict == if s.calls[client].Approving? then Approved else Rejected
  {
    var r := s.approvals[id].subject;
    assert ApprovalOk(s, id) && ObjectOk(s, r);
    if IsIn(s, r, Draft) {
      HoldAgain(s, id, client);
      RunTwo(s, PipelineHold(r), Commit(client, true));
      CommitOverwrites(Next(s, PipelineHold(r)), id, client);
    } else {
      RunOne(s, Commit(client, true));
      CommitOverwrites(s, id, client);
    }
  }

  predicate Changes(s: State, steps: seq<Step>, id: nat)
    requires id in s.approvals
  {
    id !in Run(s, steps).approvals || Run(s, steps).approvals[id] != s.approvals[id]
  }

  /** A verdict is final exactly when nothing in flight can still overwrite it: `CanChange`, which
      a caller can read off the approval, the object and the calls. */
  lemma VerdictChangesExactlyWhen(s: State, id: nat)
    requires Valid(s) && id in s.approvals && s.approvals[id].verdict != Awaiting
    ensures CanChange(s, id) <==> exists steps :: Changes(s, steps, id)
  {
    if CanChange(s, id) {
      if SupersedingInFlight(s, id) && s.approvals[id].verdict != Superseded {
        var c :| c in s.calls && s.calls[c].Superseding? && s.calls[c].id == id;
        SupersedingOverwrites(s, id, c);
        assert Changes(s, Overwriting(s, id, c), id);
      } else {
        OpenIsNotApproved(s, id);
        var call := if InFlight(s, Approving(id)) then Approving(id) else Rejecting(id);
        var c :| c in s.calls && s.calls[c] == call;
        RulingOverwrites(s, id, c);
        assert Changes(s, Overwriting(s, id, c), id);
      }
    } else {
      forall steps: seq<Step> ensures !Changes(s, steps, id) { FinalForEver(s, steps, id); }
    }
  }

  lemma OpenIsNotApproved(s: State, id: nat)
    requires Valid(s) && id in s.approvals && !IsIn(s, s.approvals[id].subject, Posted)
    ensures s.approvals[id].verdict != Approved
  {
    assert ApprovalOk(s, id);
  }

  // ---------- such states are reached ----------

  const CLAIM := Ref(Expense, 7)

  /** The claim was held, one client read its approval to approve it, another rejected it. */
  const RACE: seq<Step> := [AddDraft(CLAIM), PipelineHold(CLAIM), ReadApprove(1, 1), ReadReject(2, 1), Commit(2, true)]

  function Raced(status: Status, verdict: Verdict, calls: map<nat, Call>): State {
    State(map[CLAIM := Object(status, None)], map[1 := Approval(CLAIM, verdict)], map[], calls, 2, 1)
  }

  lemma RunMore(s: State, steps: seq<Step>, step: Step)
    ensures Run(s, steps + [step]) == Next(Run(s, steps), step)
  {
    assert (steps + [step])[..|steps|] == steps;
  }

  lemma RaceBegins()
    ensures Run(EMPTY, RACE[..2]) == Raced(Pending, Awaiting, map[])
  {
    RunOne(EMPTY, RACE[0]);
    RunMore(EMPTY, [RACE[0]], RACE[1]);
    assert RACE[..2] == [RACE[0]] + [RACE[1]];
    assert Next(EMPTY, RACE[0]) == State(map[CLAIM := Object(Draft, None)], map[], map[], map[], 1, 1);
  }

  lemma RaceReads()
    ensures Run(EMPTY, RACE[..4]) == Raced(Pending, Awaiting, map[1 := Approving(1), 2 := Rejecting(1)])
  {
    RaceBegins();
    RunMore(EMPTY, RACE[..2], RACE[2]);
    assert RACE[..3] == RACE[..2] + [RACE[2]];
    RunMore(EMPTY, RACE[..3], RACE[3]);
    assert RACE[..4] == RACE[..3] + [RACE[3]];
  }

  lemma RaceRejects()
    ensures Run(EMPTY, RACE) == Raced(Draft, Rejected, map[1 := Approving(1)])
    ensures CanChange(Run(EMPTY, RACE), 1)
  {
    RaceReads();
    RunMore(EMPTY, RACE[..4], RACE[4]);
    assert RACE == RACE[..4] + [RACE[4]];
    var s := Raced(Pending, Awaiting, map[1 := Approving(1), 2 := Rejecting(1)]);
    assert Next(s, RACE[4]) == Raced(Draft, Rejected, map[1 := Approving(1)]);
    var t := Raced(Draft, Rejected, map[1 := Approving(1)]);
    assert 1 in t.calls && t.calls[1] == Approving(1);
  }

  /** A rejected approval is not final: it is approved by the call that read it before it was
      rejected, once the claim is held again, and the claim is posted. */
  lemma RejectedIsNotFinal()
    ensures Run(EMPTY, RACE).approvals == map[1 := Approval(CLAIM, Rejected)] && CanChange(Run(EMPTY, RACE), 1)
    ensures var s := Run(EMPTY, RACE + [PipelineHold(CLAIM)] + [Commit(1, true)]);
            1 in s.approvals && s.approvals[1] == Approval(CLAIM, Approved) && IsIn(s, CLAIM, Posted)
  {
    RaceRejects();
    var s := Raced(Draft, Rejected, map[1 := Approving(1)]);
    RunMore(EMPTY, RACE, PipelineHold(CLAIM));
    var held := Next(s, PipelineHold(CLAIM));
    assert held == Raced(Pending, Rejected, map[1 := Approving(1)]).(approvals := s.approvals[2 := Approval(CLAIM, Awaiting)], nextApproval := 3);
    RunMore(EMPTY, RACE + [PipelineHold(CLAIM)], Commit(1, true));
  }
}
