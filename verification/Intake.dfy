/** One purchase per document (`propose-draft.service.ts`, `intake-workflow.service.ts`): the
    commands that may turn a document into an expense, one at a time under the document's lock,
    with approvals, edits and postings of its rows going on in between. */
module Intake {
  import opened Wrappers

  type Id = nat

  // ---------- the chain of a document ----------

  datatype Status = Draft | Pending | Posted

  /** An expense made from the document. */
  datatype Row = Row(status: Status, voucher: Option<nat>, isAi: bool, hasValidGross: bool)

  /** The expenses of the document, their vouchers, and which of them await an approval. */
  datatype Chain = Chain(rows: map<Id, Row>, vouchers: map<nat, Id>, awaiting: set<Id>, nextRow: Id, nextVoucher: nat)

  predicate IsProtected(r: Row) { r.voucher.Some? || r.status != Draft }

  predicate HasProtected(c: Chain) { exists id :: id in c.rows && IsProtected(c.rows[id]) }

  function ProtectedIds(c: Chain): set<Id> { set id | id in c.rows && IsProtected(c.rows[id]) }

  function Least(ids: set<Id>): (id: Id)
    requires ids != {}
    ensures id in ids && forall other :: other in ids ==> id <= other
  {
    LeastExists(ids);
    var id :| id in ids && forall other :: other in ids ==> id <= other;
    id
  }

  predicate IsLeast(ids: set<Id>, id: Id) {
    id in ids && forall other :: other in ids ==> id <= other
  }

  lemma LeastExists(ids: set<Id>)
    requires ids != {}
    ensures exists id :: id in ids && forall other :: other in ids ==> id <= other
  {
    var id := FindLeast(ids);
    assert IsLeast(ids, id);
  }

  lemma {:induction false} FindLeast(ids: set<Id>) returns (least: Id)
    requires ids != {}
    ensures IsLeast(ids, least)
    decreases |ids|
  {
    var x :| x in ids;
    least := x;
    if ids != {x} {
      var y := FindLeast(ids - {x});
      least := if x < y then x else y;
      forall other | other in ids ensures least <= other {
        if other != x { assert other in ids - {x}; }
      }
    }
  }

  datatype Lookup = NoChain | Resumable(id: Id) | Protected(id: Id, ambiguous: bool)

  /** Any protected row protects the whole chain; else its first row is the one to resume. */
  function Find(c: Chain): Lookup {
    if c.rows == map[] then NoChain
    else if ProtectedIds(c) != {} then Protected(Least(ProtectedIds(c)), |ProtectedIds(c)| > 1)
    else
      assert c.rows.Keys != {};
      Resumable(Least(c.rows.Keys))
  }

  /** A junk draft that a failed extraction left behind. */
  predicate IsWithdrawable(c: Chain, id: Id)
    requires id in c.rows
  {
    c.rows[id].status == Draft && c.rows[id].voucher.None? && c.rows[id].isAi && !c.rows[id].hasValidGross && id !in c.awaiting
  }

  function Withdraw(c: Chain): Chain {
    c.(rows := map id | id in c.rows && !IsWithdrawable(c, id) :: c.rows[id])
  }

  /** Edits a draft, or a pending row, whose approval is then superseded; none when refused. */
  function Edit(c: Chain, id: Id, hasValidGross: bool): Option<Chain> {
    if id in c.rows && c.rows[id].status in {Draft, Pending} && c.rows[id].voucher.None?
    then Some(c.(rows := c.rows[id := c.rows[id].(status := Draft, hasValidGross := hasValidGross)],
                 awaiting := if c.rows[id].status == Pending then c.awaiting - {id} else c.awaiting))
    else None
  }

  function Insert(c: Chain, isAi: bool, hasValidGross: bool): Chain {
    c.(rows := c.rows[c.nextRow := Row(Draft, None, isAi, hasValidGross)], nextRow := c.nextRow + 1)
  }

  /** The guarded transition to posted, with the voucher. */
  function Post(c: Chain, id: Id, from: Status): Option<Chain> {
    if id in c.rows && c.rows[id].status == from
    then Some(c.(rows := c.rows[id := c.rows[id].(status := Posted, voucher := Some(c.nextVoucher))],
                 vouchers := c.vouchers[c.nextVoucher := id],
                 awaiting := if from == Pending then c.awaiting - {id} else c.awaiting,
                 nextVoucher := c.nextVoucher + 1))
    else None
  }

  function Hold(c: Chain, id: Id): Option<Chain> {
    if id in c.rows && c.rows[id].status == Draft
    then Some(c.(rows := c.rows[id := c.rows[id].(status := Pending)], awaiting := c.awaiting + {id}))
    else None
  }

  function Release(c: Chain, id: Id): Option<Chain> {
    if id in c.rows && c.rows[id].status == Pending
    then Some(c.(rows := c.rows[id := c.rows[id].(status := Draft)], awaiting := c.awaiting - {id}))
    else None
  }

  /** The posting pipeline decides; what it decides is applied only to a draft. */
  datatype Verdict = PostIt | HoldIt | Throw

  function Pipeline(c: Chain, id: Id, verdict: Verdict): Option<Chain> {
    match verdict
    case PostIt => Post(c, id, Draft)
    case HoldIt => Hold(c, id)
    case Throw => None
  }

  // ---------- commands, stage by stage ----------

  datatype DocumentStatus = Queued | NeedsTriage | Triaged | Processed

  datatype Command = Process | ResolveSupplier | ManualClassify | ConfirmFact

  /** How far the command that holds the lock has come. */
  datatype Stage =
    | Idle
    | AtStart(command: Command)
    | AtWithdraw(command: Command, hasEvidence: bool)
    | AtLookup(command: Command)
    | AtResume(command: Command, id: Id)
    | AtCreate(command: Command)
    | AtPipeline(command: Command, id: Id)

  datatype State = State(chain: Chain, document: DocumentStatus, stage: Stage)

  /** What the models, the checks and the pipeline decide at the next stage. */
  datatype Decision = Decision(goesOn: bool, hasEvidence: bool, hasValidGross: bool, isFiled: bool, verdict: Verdict)

  function Finish(s: State, document: DocumentStatus): State { s.(stage := Idle, document := document) }

  /** A routed document whose chain has one record to show is replayed. */
  predicate IsReplayed(s: State) {
    s.document in {Triaged, Processed} && (Find(s.chain).Resumable? || (Find(s.chain).Protected? && !Find(s.chain).ambiguous))
  }

  function Start(s: State, command: Command, d: Decision): State {
    match command
    case Process =>
      if s.document == NeedsTriage || IsReplayed(s) then Finish(s, s.document)
      else if !d.goesOn then Finish(s, NeedsTriage)
      else s.(stage := AtWithdraw(command, d.hasEvidence))
    case ResolveSupplier =>
      if s.document != NeedsTriage || !d.goesOn then Finish(s, s.document)
      else s.(stage := AtWithdraw(command, d.hasEvidence))
    case ManualClassify =>
      if s.document != NeedsTriage then Finish(s, s.document) else s.(stage := AtLookup(command))
    case ConfirmFact =>
      if s.document != NeedsTriage || !Find(s.chain).Resumable? || !d.goesOn then Finish(s, s.document)
      else s.(document := Queued, stage := AtWithdraw(command, d.hasEvidence))
  }

  /** A command that meets a protected chain settles on what is booked and touches nothing. */
  function Settle(s: State, command: Command, ambiguous: bool): State {
    Finish(s, if ambiguous || command == ManualClassify then NeedsTriage else Triaged)
  }

  function Advance(s: State, d: Decision): State {
    match s.stage
    case Idle => s
    case AtStart(command) => Start(s, command, d)
    case AtWithdraw(command, hasEvidence) =>
      var t := s.(chain := Withdraw(s.chain));
      if hasEvidence then t.(stage := AtLookup(command)) else Finish(t, NeedsTriage)
    case AtLookup(command) =>
      (match Find(s.chain)
       case NoChain => s.(stage := AtCreate(command))
       case Resumable(id) => s.(stage := AtResume(command, id))
       case Protected(_, ambiguous) => Settle(s, command, ambiguous))
    case AtResume(command, id) =>
      var edited := Edit(s.chain, id, command != ManualClassify || d.hasValidGross);
      if d.goesOn && edited.Some? then s.(chain := edited.value, stage := AtPipeline(command, id)) else Finish(s, NeedsTriage)
    case AtCreate(command) =>
      if d.goesOn then
        s.(chain := Insert(s.chain, command != ManualClassify, command != ManualClassify || d.hasValidGross),
           stage := AtPipeline(command, s.chain.nextRow))
      else Finish(s, if d.isFiled then Processed else NeedsTriage)
    case AtPipeline(command, id) =>
      var done := Pipeline(s.chain, id, d.verdict);
      if done.Some? then Finish(s.(chain := done.value), Triaged) else Finish(s, NeedsTriage)
  }

  // ---------- steps ----------

  /** The rows can be approved, rejected, edited and posted outside the lock; none can be added. */
  datatype Step =
    | Begin(command: Command)
    | Move(decision: Decision)
    | Requeue
    | Approve(id: Id)
    | Reject(id: Id)
    | EditRow(id: Id, hasValidGross: bool)
    | PostRow(id: Id, verdict: Verdict)

  function Or(c: Option<Chain>, old_: Chain): Chain { if c.Some? then c.value else old_ }

  function Next(s: State, step: Step): State {
    match step
    case Begin(command) => if s.stage == Idle then s.(stage := AtStart(command)) else s
    case Move(d) => Advance(s, d)
    case Requeue => if s.document == NeedsTriage then s.(document := Queued) else s
    case Approve(id) => s.(chain := Or(Post(s.chain, id, Pending), s.chain))
    case Reject(id) => s.(chain := Or(Release(s.chain, id), s.chain))
    case EditRow(id, hasValidGross) => s.(chain := Or(Edit(s.chain, id, hasValidGross), s.chain))
    case PostRow(id, verdict) => s.(chain := Or(Pipeline(s.chain, id, verdict), s.chain))
  }

  const NEW := State(Chain(map[], map[], {}, 1, 1), Queued, Idle)

  function Run(s: State, steps: seq<Step>): State {
    if steps == [] then s else Next(Run(s, steps[..|steps| - 1]), steps[|steps| - 1])
  }

  // ---------- the invariant ----------

  ghost predicate RowOk(c: Chain, id: Id)
    requires id in c.rows
  {
    id < c.nextRow && (c.rows[id].status == Posted <==> c.rows[id].voucher.Some?)
  }

  ghost predicate VoucherOk(c: Chain, v: nat)
    requires v in c.vouchers
  {
    v < c.nextVoucher && c.vouchers[v] in c.rows && c.rows[c.vouchers[v]].voucher == Some(v)
  }

  ghost predicate IsOnePurchase(c: Chain) {
    && (forall a, b :: a in c.rows && b in c.rows ==> a == b)
    && (forall id :: id in c.rows ==> RowOk(c, id))
    && (forall v :: v in c.vouchers ==> VoucherOk(c, v))
  }

  /** When a command is about to create, there is nothing yet. */
  ghost predicate Valid(s: State) {
    IsOnePurchase(s.chain) && (s.stage.AtCreate? ==> s.chain.rows == map[])
  }

  lemma Known(c: Chain)
    requires IsOnePurchase(c)
    ensures forall id :: id in c.rows ==> id < c.nextRow && (c.rows[id].status == Posted <==> c.rows[id].voucher.Some?)
    ensures forall v :: v in c.vouchers ==> v < c.nextVoucher && c.vouchers[v] in c.rows && c.rows[c.vouchers[v]].voucher == Some(v)
  {
    forall id | id in c.rows ensures id < c.nextRow && (c.rows[id].status == Posted <==> c.rows[id].voucher.Some?) { assert RowOk(c, id); }
    forall v | v in c.vouchers ensures v < c.nextVoucher && c.vouchers[v] in c.rows && c.rows[c.vouchers[v]].voucher == Some(v) {
      assert VoucherOk(c, v);
    }
  }

  lemma WithdrawKeeps(c: Chain)
    requires IsOnePurchase(c)
    ensures IsOnePurchase(Withdraw(c))
  {
    Known(c);
  }

  lemma EditKeeps(c: Chain, id: Id, hasValidGross: bool)
    requires IsOnePurchase(c) && Edit(c, id, hasValidGross).Some?
    ensures IsOnePurchase(Edit(c, id, hasValidGross).value)
  {
    Known(c);
  }

  lemma InsertKeeps(c: Chain, isAi: bool, hasValidGross: bool)
    requires IsOnePurchase(c) && c.rows == map[]
    ensures IsOnePurchase(Insert(c, isAi, hasValidGross))
  {
    Known(c);
  }

  lemma PostKeeps(c: Chain, id: Id, from: Status)
    requires IsOnePurchase(c) && from != Posted && Post(c, id, from).Some?
    ensures IsOnePurchase(Post(c, id, from).value)
  {
    Known(c);
  }

  lemma RestatusKeeps(c: Chain, id: Id, status: Status, awaiting: set<Id>)
    requires IsOnePurchase(c) && id in c.rows && c.rows[id].status != Posted && status != Posted
    ensures IsOnePurchase(c.(rows := c.rows[id := c.rows[id].(status := status)], awaiting := awaiting))
  {
    Known(c);
  }

  lemma PipelineKeeps(c: Chain, id: Id, verdict: Verdict)
    requires IsOnePurchase(c) && Pipeline(c, id, verdict).Some?
    ensures IsOnePurchase(Pipeline(c, id, verdict).value)
  {
    match verdict
    case PostIt => PostKeeps(c, id, Draft);
    case HoldIt => RestatusKeeps(c, id, Pending, c.awaiting + {id});
  }

  lemma AdvanceKeeps(s: State, d: Decision)
    requires Valid(s)
    ensures Valid(Advance(s, d))
  {
    match s.stage
    case AtWithdraw(_, _) => WithdrawKeeps(s.chain);
    case AtResume(command, id) =>
      if Edit(s.chain, id, command != ManualClassify || d.hasValidGross).Some? {
        EditKeeps(s.chain, id, command != ManualClassify || d.hasValidGross);
      }
    case AtCreate(command) => InsertKeeps(s.chain, command != ManualClassify, command != ManualClassify || d.hasValidGross);
    case AtPipeline(_, id) => if Pipeline(s.chain, id, d.verdict).Some? { PipelineKeeps(s.chain, id, d.verdict); }
    case _ =>
  }

  /** The steps outside the lock change rows that exist; on an empty chain they do nothing. */
  lemma OutsideKeeps(s: State, step: Step)
    requires Valid(s) && !step.Begin? && !step.Move?
    ensures Valid(Next(s, step))
  {
    match step
    case Approve(id) => if Post(s.chain, id, Pending).Some? { PostKeeps(s.chain, id, Pending); }
    case Reject(id) => if Release(s.chain, id).Some? { RestatusKeeps(s.chain, id, Draft, s.chain.awaiting - {id}); }
    case EditRow(id, g) => if Edit(s.chain, id, g).Some? { EditKeeps(s.chain, id, g); }
    case PostRow(id, verdict) => if Pipeline(s.chain, id, verdict).Some? { PipelineKeeps(s.chain, id, verdict); }
    case Requeue =>
  }

  lemma StepKeeps(s: State, step: Step)
    requires Valid(s)
    ensures Valid(Next(s, step))
  {
    match step
    case Begin(_) =>
    case Move(d) => AdvanceKeeps(s, d);
    case _ => OutsideKeeps(s, step);
  }

  lemma {:induction false} RunKeeps(s: State, steps: seq<Step>)
    requires Valid(s)
    ensures Valid(Run(s, steps))
    decreases |steps|
  {
    if steps != [] {
      RunKeeps(s, steps[..|steps| - 1]);
      StepKeeps(Run(s, steps[..|steps| - 1]), steps[|steps| - 1]);
    }
  }

  /** One purchase per document. From a document with no expense, whatever the commands, the
      models, the pipeline and the people do, and however their steps interleave, there is at
      most one expense and at most one voucher, and the voucher is that expense's. */
  lemma OnePurchasePerDocument(steps: seq<Step>, a: Id, b: Id, v: nat, w: nat)
    requires var c := Run(NEW, steps).chain; a in c.rows && b in c.rows
    ensures a == b
    ensures var c := Run(NEW, steps).chain; v in c.vouchers && w in c.vouchers ==> v == w && c.rows[a].voucher == Some(v) && c.rows[a].status == Posted
  {
    RunKeeps(NEW, steps);
    var c := Run(NEW, steps).chain;
    if v in c.vouchers { assert VoucherOk(c, v) && RowOk(c, c.vouchers[v]); }
    if w in c.vouchers { assert VoucherOk(c, w); }
  }

  // ---------- what a retry takes away ----------

  /** A row that is booked, that somebody made or confirmed, that has an amount to book, or that
      an approval refers to. */
  predicate IsWorthKeeping(c: Chain, id: Id) {
    id in c.rows &&
      (c.rows[id].status != Draft || c.rows[id].voucher.Some? || !c.rows[id].isAi || c.rows[id].hasValidGross || id in c.awaiting)
  }

  lemma WithdrawnIff(c: Chain)
    ensures forall id :: id in Withdraw(c).rows <==> IsWorthKeeping(c, id)
    ensures forall id :: id in Withdraw(c).rows ==> Withdraw(c).rows[id] == c.rows[id]
  {}

  /** In any run, a row leaves the chain exactly when a retry reaches its withdrawal and the row
      is not worth keeping. */
  lemma OnlyJunkIsTaken(s: State, step: Step, id: Id)
    requires id in s.chain.rows
    ensures id !in Next(s, step).chain.rows <==> step.Move? && s.stage.AtWithdraw? && !IsWorthKeeping(s.chain, id)
  {
    WithdrawnIff(s.chain);
  }

  // ---------- protected chains ----------

  lemma PostedStays(s: State, step: Step, id: Id)
    requires Valid(s) && id in s.chain.rows && s.chain.rows[id].status == Posted
    ensures Next(s, step).chain == s.chain
  {
    assert RowOk(s.chain, id);
    assert forall x :: x in s.chain.rows ==> x == id;
    if s.stage.AtWithdraw? && step.Move? { assert Withdraw(s.chain).rows == s.chain.rows; }
  }

  /** A posted purchase is final: whatever runs after it, inside the lock or outside, the chain
      stays as it is. */
  lemma {:induction false} PostedIsFinal(s: State, steps: seq<Step>, id: Id)
    requires Valid(s) && id in s.chain.rows && s.chain.rows[id].status == Posted
    ensures Run(s, steps).chain == s.chain
    decreases |steps|
  {
    if steps != [] {
      var n := |steps| - 1;
      RunKeeps(s, steps[..n]);
      PostedIsFinal(s, steps[..n], id);
      PostedStays(Run(s, steps[..n]), steps[n], id);
    }
  }

  /** The one way a command touches a protected row: it looked the chain up before, and the row
      has become pending since. */
  predicate TakesBack(s: State, d: Decision) {
    && s.stage.AtResume? && d.goesOn
    && s.stage.id in s.chain.rows && s.chain.rows[s.stage.id].status == Pending && s.chain.rows[s.stage.id].voucher.None?
  }

  lemma TakingBackChanges(s: State, d: Decision)
    requires TakesBack(s, d)
    ensures Advance(s, d).chain != s.chain
  {
    assert Advance(s, d).chain.rows[s.stage.id].status == Draft;
  }

  lemma ProtectedIsUntouched(s: State, d: Decision)
    requires Valid(s) && HasProtected(s.chain) && !TakesBack(s, d)
    ensures Advance(s, d).chain == s.chain
  {
    var id :| id in s.chain.rows && IsProtected(s.chain.rows[id]);
    assert RowOk(s.chain, id);
    assert forall x :: x in s.chain.rows ==> x == id;
    match s.stage
    case AtWithdraw(_, _) => assert Withdraw(s.chain).rows == s.chain.rows;
    case _ =>
  }

  /** Once the chain is protected, a command step creates, edits or posts something if and only
      if it resumes a row it had looked up while that row was still a draft. */
  lemma ProtectedChangesExactlyWhen(s: State, d: Decision)
    requires Valid(s) && HasProtected(s.chain)
    ensures Advance(s, d).chain != s.chain <==> TakesBack(s, d)
  {
    if TakesBack(s, d) { TakingBackChanges(s, d); } else { ProtectedIsUntouched(s, d); }
  }

  /** A command that meets a protected chain at its lookup ends there. */
  lemma ProtectedLookupEnds(s: State, d: Decision)
    requires HasProtected(s.chain) && s.stage.AtLookup?
    ensures Advance(s, d).chain == s.chain && Advance(s, d).stage == Idle
  {
    var id :| id in s.chain.rows && IsProtected(s.chain.rows[id]);
    assert id in ProtectedIds(s.chain);
  }

  /** The command that holds the lock, if any, has not looked the chain up yet. */
  predicate IsEarly(stage: Stage) { stage.Idle? || stage.AtStart? || stage.AtWithdraw? || stage.AtLookup? }

  predicate IsCommandStep(step: Step) { step.Begin? || step.Move? || step.Requeue? }

  lemma EarlyStepChangesNothing(s: State, step: Step)
    requires Valid(s) && HasProtected(s.chain) && IsEarly(s.stage) && IsCommandStep(step)
    ensures Next(s, step).chain == s.chain && IsEarly(Next(s, step).stage)
  {
    if step.Move? {
      ProtectedIsUntouched(s, step.decision);
      if s.stage.AtLookup? { ProtectedLookupEnds(s, step.decision); }
    }
  }

  /** In any run, a command step taken while the chain is protected leaves the chain alone, unless
      it takes back the row it had looked up. */
  lemma CommandStepsSpareProtected(steps: seq<Step>, k: nat)
    requires k < |steps| && IsCommandStep(steps[k]) && HasProtected(Run(NEW, steps[..k]).chain)
    ensures var s := Run(NEW, steps[..k]);
            Run(NEW, steps[..k + 1]).chain != s.chain <==> steps[k].Move? && TakesBack(s, steps[k].decision)
  {
    RunKeeps(NEW, steps[..k]);
    RunMore(NEW, steps[..k], steps[k]);
    assert steps[..k + 1] == steps[..k] + [steps[k]];
    if steps[k].Move? { ProtectedChangesExactlyWhen(Run(NEW, steps[..k]), steps[k].decision); }
  }

  /** Commands that look the chain up while it is protected never take anything back: as long as
      it stays protected, with whatever approvals, rejections, edits and postings in between,
      no command step creates, edits or posts anything. */
  lemma {:induction false} LaterCommandsChangeNothing(s: State, steps: seq<Step>, k: nat)
    requires Valid(s) && IsEarly(s.stage) && k < |steps|
    requires forall m :: 0 <= m <= k ==> HasProtected(Run(s, steps[..m]).chain)
    ensures IsEarly(Run(s, steps[..k]).stage)
    ensures IsCommandStep(steps[k]) ==> Run(s, steps[..k + 1]).chain == Run(s, steps[..k]).chain
    decreases k
  {
    StaysEarly(s, steps, k);
    RunKeeps(s, steps[..k]);
    RunMore(s, steps[..k], steps[k]);
    assert steps[..k + 1] == steps[..k] + [steps[k]];
    if IsCommandStep(steps[k]) { EarlyStepChangesNothing(Run(s, steps[..k]), steps[k]); }
  }

  lemma {:induction false} StaysEarly(s: State, steps: seq<Step>, k: nat)
    requires Valid(s) && IsEarly(s.stage) && k <= |steps|
    requires forall m :: 0 <= m <= k ==> HasProtected(Run(s, steps[..m]).chain)
    ensures IsEarly(Run(s, steps[..k]).stage)
    decreases k
  {
    if k > 0 {
      var n := k - 1;
      StaysEarly(s, steps, n);
      RunKeeps(s, steps[..n]);
      RunMore(s, steps[..n], steps[n]);
      assert steps[..k] == steps[..n] + [steps[n]];
      assert HasProtected(Run(s, steps[..n]).chain);
      if IsCommandStep(steps[n]) { EarlyStepChangesNothing(Run(s, steps[..n]), steps[n]); }
    }
  }

  /** Such a state is reached: a draft left by a pipeline that threw is looked up by a manual
      classification, held from outside, and then taken back by the edit. */
  lemma TakingBackIsReached()
    ensures exists steps, d :: HasProtected(Run(NEW, steps).chain) && TakesBack(Run(NEW, steps), d)
  {
    var go := Decision(true, true, true, false, Throw);
    var left := State(Chain(map[1 := Row(Draft, None, true, true)], map[], {}, 2, 1), NeedsTriage, Idle);
    var steps := [Begin(Process), Move(go), Move(go), Move(go), Move(go), Move(go)];
    FirstPassLeavesADraft(go, steps);
    var more := [Begin(ManualClassify), Move(go), Move(go), PostRow(1, HoldIt)];
    HeldAfterLookup(left, go);
    RunsCompose(NEW, steps, more);
    var s := Run(NEW, steps + more);
    assert s.chain.rows[1].status == Pending;
    assert HasProtected(s.chain) && TakesBack(s, go);
  }

  lemma RunMore(s: State, steps: seq<Step>, step: Step)
    ensures Run(s, steps + [step]) == Next(Run(s, steps), step)
  {
    assert (steps + [step])[..|steps|] == steps;
  }

  lemma {:induction false} RunsCompose(s: State, steps: seq<Step>, more: seq<Step>)
    ensures Run(s, steps + more) == Run(Run(s, steps), more)
    decreases |more|
  {
    if more == [] {
      assert steps + more == steps;
    } else {
      var n := |more| - 1;
      RunsCompose(s, steps, more[..n]);
      assert (steps + more)[..|steps + more| - 1] == steps + more[..n];
    }
  }

  lemma StepTo(s: State, steps: seq<Step>, n: nat, before: State, after: State)
    requires n < |steps| && Run(s, steps[..n]) == before && Next(before, steps[n]) == after
    ensures Run(s, steps[..n + 1]) == after
  {
    RunMore(s, steps[..n], steps[n]);
    assert steps[..n + 1] == steps[..n] + [steps[n]];
  }

  const DRAFTED := Chain(map[1 := Row(Draft, None, true, true)], map[], {}, 2, 1)

  lemma FirstPassLeavesADraft(go: Decision, steps: seq<Step>)
    requires go == Decision(true, true, true, false, Throw)
    requires steps == [Begin(Process), Move(go), Move(go), Move(go), Move(go), Move(go)]
    ensures Run(NEW, steps) == State(DRAFTED, NeedsTriage, Idle)
  {
    assert Run(NEW, steps[..0]) == NEW;
    StepTo(NEW, steps, 0, NEW, NEW.(stage := AtStart(Process)));
    StepTo(NEW, steps, 1, NEW.(stage := AtStart(Process)), NEW.(stage := AtWithdraw(Process, true)));
    assert Withdraw(NEW.chain) == NEW.chain;
    StepTo(NEW, steps, 2, NEW.(stage := AtWithdraw(Process, true)), NEW.(stage := AtLookup(Process)));
    StepTo(NEW, steps, 3, NEW.(stage := AtLookup(Process)), NEW.(stage := AtCreate(Process)));
    StepTo(NEW, steps, 4, NEW.(stage := AtCreate(Process)), State(DRAFTED, Queued, AtPipeline(Process, 1)));
    StepTo(NEW, steps, 5, State(DRAFTED, Queued, AtPipeline(Process, 1)), State(DRAFTED, NeedsTriage, Idle));
    assert steps[..6] == steps;
  }

  lemma HeldAfterLookup(left: State, go: Decision)
    requires go == Decision(true, true, true, false, Throw)
    requires left == State(DRAFTED, NeedsTriage, Idle)
    ensures Run(left, [Begin(ManualClassify), Move(go), Move(go), PostRow(1, HoldIt)])
         == State(Chain(map[1 := Row(Pending, None, true, true)], map[], {1}, 2, 1), NeedsTriage, AtResume(ManualClassify, 1))
  {
    var steps := [Begin(ManualClassify), Move(go), Move(go), PostRow(1, HoldIt)];
    assert DRAFTED.rows.Keys == {1} && ProtectedIds(DRAFTED) == {};
    assert Run(left, steps[..0]) == left;
    StepTo(left, steps, 0, left, left.(stage := AtStart(ManualClassify)));
    StepTo(left, steps, 1, left.(stage := AtStart(ManualClassify)), left.(stage := AtLookup(ManualClassify)));
    StepTo(left, steps, 2, left.(stage := AtLookup(ManualClassify)), left.(stage := AtResume(ManualClassify, 1)));
    StepTo(left, steps, 3, left.(stage := AtResume(ManualClassify, 1)),
           State(Chain(map[1 := Row(Pending, None, true, true)], map[], {1}, 2, 1), NeedsTriage, AtResume(ManualClassify, 1)));
    assert steps[..4] == steps;
  }

  // ---------- the service, one call at a time ----------

  /** Why a proposal goes no further than its checks. */
  datatype Refusal = NotAnExpense | EvidenceInvalid | CategoryUnresolved | SupplierUnresolved

  datatype Outcome =
    | Declined(why: Refusal)
    | ChainProtected(id: Id, ambiguous: bool)
    | PossibleDuplicate
    | Drafted(id: Id, isApplied: bool)

  /** What the pipeline leaves of a chain. */
  function Piped(c: Chain, id: Id, verdict: Verdict): (Chain, Outcome) {
    (Or(Pipeline(c, id, verdict), c), Drafted(id, Pipeline(c, id, verdict).Some?))
  }

  /** A call that nothing interrupts, from the lookup on. */
  function Proposed(c: Chain, isAi: bool, hasValidGross: bool, goesOn: bool, verdict: Verdict): (Chain, Outcome) {
    match Find(c)
    case Protected(id, ambiguous) => (c, ChainProtected(id, ambiguous))
    case Resumable(id) =>
      var edited := Edit(c, id, hasValidGross);
      if goesOn && edited.Some? then Piped(edited.value, id, verdict) else (c, PossibleDuplicate)
    case NoChain =>
      if goesOn then Piped(Insert(c, isAi, hasValidGross), c.nextRow, verdict) else (c, PossibleDuplicate)
  }

  lemma PipedKeeps(c: Chain, id: Id, verdict: Verdict)
    requires IsOnePurchase(c)
    ensures IsOnePurchase(Piped(c, id, verdict).0)
  {
    if Pipeline(c, id, verdict).Some? { PipelineKeeps(c, id, verdict); }
  }

  lemma ProposedKeeps(c: Chain, isAi: bool, hasValidGross: bool, goesOn: bool, verdict: Verdict)
    requires IsOnePurchase(c)
    ensures IsOnePurchase(Proposed(c, isAi, hasValidGross, goesOn, verdict).0)
    ensures HasProtected(c) ==> Proposed(c, isAi, hasValidGross, goesOn, verdict).0 == c
    ensures HasProtected(c) <==> Proposed(c, isAi, hasValidGross, goesOn, verdict).1.ChainProtected?
  {
    match Find(c)
    case Protected(_, _) =>
    case Resumable(id) =>
      assert id !in ProtectedIds(c);
      if Edit(c, id, hasValidGross).Some? {
        EditKeeps(c, id, hasValidGross);
        PipedKeeps(Edit(c, id, hasValidGross).value, id, verdict);
      }
    case NoChain =>
      InsertKeeps(c, isAi, hasValidGross);
      PipedKeeps(Insert(c, isAi, hasValidGross), c.nextRow, verdict);
  }

  lemma FourMoves(s: State, d: Decision)
    ensures Run(s, [Move(d), Move(d), Move(d), Move(d)]) == Advance(Advance(Advance(Advance(s, d), d), d), d)
  {
    RunMore(s, [], Move(d));
    RunMore(s, [Move(d)], Move(d));
    RunMore(s, [Move(d), Move(d)], Move(d));
    RunMore(s, [Move(d), Move(d), Move(d)], Move(d));
    assert [] + [Move(d)] == [Move(d)];
    assert [Move(d)] + [Move(d)] == [Move(d), Move(d)];
    assert [Move(d), Move(d)] + [Move(d)] == [Move(d), Move(d), Move(d)];
    assert [Move(d), Move(d), Move(d)] + [Move(d)] == [Move(d), Move(d), Move(d), Move(d)];
  }

  /** A command whose stages nothing comes between does what the call does, and ends. */
  lemma UninterruptedIsProposed(s: State, d: Decision)
    requires IsOnePurchase(s.chain) && s.stage.AtWithdraw? && s.stage.hasEvidence && s.stage.command != ManualClassify
    ensures Run(s, [Move(d), Move(d), Move(d), Move(d)]).stage == Idle
    ensures Run(s, [Move(d), Move(d), Move(d), Move(d)]).chain == Proposed(Withdraw(s.chain), true, true, d.goesOn, d.verdict).0
  {
    FourMoves(s, d);
    WithdrawKeeps(s.chain);
    var looked := Advance(Advance(s, d), d);
    match Find(Withdraw(s.chain))
    case NoChain => assert looked.stage == AtCreate(s.stage.command);
    case Resumable(id) => assert looked.stage == AtResume(s.stage.command, id);
    case Protected(_, _) => assert looked.stage == Idle;
  }

  /** The chain holds the one row, and it is as the verdict says. */
  ghost predicate Leaves(c: Chain, c': Chain, id: Id, isAi: bool, hasValidGross: bool, verdict: Verdict) {
    match verdict
    case PostIt =>
      && c'.rows == map[id := Row(Posted, Some(c.nextVoucher), isAi, hasValidGross)]
      && c'.vouchers == c.vouchers[c.nextVoucher := id] && c'.nextVoucher == c.nextVoucher + 1 && c'.awaiting == c.awaiting
    case HoldIt =>
      && c'.rows == map[id := Row(Pending, None, isAi, hasValidGross)]
      && c'.vouchers == c.vouchers && c'.nextVoucher == c.nextVoucher && c'.awaiting == c.awaiting + {id}
    case Throw =>
      && c'.rows == map[id := Row(Draft, None, isAi, hasValidGross)]
      && c'.vouchers == c.vouchers && c'.nextVoucher == c.nextVoucher && c'.awaiting == c.awaiting
  }

  /** What a proposal does with the kept rows of a document, of which there is one at most: a
      protected one ends it, a draft is resumed, and only where there is none one is made. */
  ghost predicate IsProposal(c: Chain, kept: set<Id>, c': Chain, isAi: bool, hasValidGross: bool, goesOn: bool, verdict: Verdict, r: Outcome)
    requires kept <= c.rows.Keys
  {
    && (forall id :: id in kept ==>
          if c.rows[id].status != Draft || c.rows[id].voucher.Some? then c' == c && r == ChainProtected(id, false)
          else if goesOn then
            r == Drafted(id, verdict != Throw) && c'.nextRow == c.nextRow && Leaves(c, c', id, c.rows[id].isAi, hasValidGross, verdict)
          else r == PossibleDuplicate && c' == c)
    && (kept == {} ==>
          if goesOn then
            r == Drafted(c.nextRow, verdict != Throw) && c'.nextRow == c.nextRow + 1 && Leaves(c, c', c.nextRow, isAi, hasValidGross, verdict)
          else r == PossibleDuplicate && c' == c.(rows := map[]))
  }

  lemma OneRow(c: Chain, id: Id)
    requires IsOnePurchase(c) && id in c.rows
    ensures c.rows.Keys == {id} && c.rows == map[id := c.rows[id]]
    ensures Find(c) == if IsProtected(c.rows[id]) then Protected(id, false) else Resumable(id)
  {
    assert c.rows.Keys == {id};
    if IsProtected(c.rows[id]) { assert ProtectedIds(c) == {id}; } else { assert ProtectedIds(c) == {}; }
  }

  lemma PipedLeaves(c: Chain, id: Id, isAi: bool, hasValidGross: bool, verdict: Verdict)
    requires c.rows == map[id := Row(Draft, None, isAi, hasValidGross)]
    ensures Leaves(c, Piped(c, id, verdict).0, id, isAi, hasValidGross, verdict)
    ensures Piped(c, id, verdict).0.nextRow == c.nextRow && Piped(c, id, verdict).1 == Drafted(id, verdict != Throw)
  {}

  lemma ProposedIsProposal(c: Chain, isAi: bool, hasValidGross: bool, goesOn: bool, verdict: Verdict)
    requires IsOnePurchase(c)
    ensures var r := Proposed(c, isAi, hasValidGross, goesOn, verdict);
            IsProposal(c, c.rows.Keys, r.0, isAi, hasValidGross, goesOn, verdict, r.1)
  {
    if c.rows == map[] {
      PipedLeaves(Insert(c, isAi, hasValidGross), c.nextRow, isAi, hasValidGross, verdict);
    } else {
      var id :| id in c.rows;
      OneRow(c, id);
      if !IsProtected(c.rows[id]) { PipedLeaves(Edit(c, id, hasValidGross).value, id, c.rows[id].isAi, hasValidGross, verdict); }
    }
  }

  function WorthKeeping(c: Chain): set<Id> { set id | id in c.rows && IsWorthKeeping(c, id) }

  lemma WithdrawnIsKept(c: Chain)
    requires IsOnePurchase(c)
    ensures Withdraw(c) == if WorthKeeping(c) == {} then c.(rows := map[]) else c
  {
    WithdrawnIff(c);
    if id :| id in WorthKeeping(c) {
      OneRow(c, id);
      assert Withdraw(c).rows == c.rows;
    } else {
      assert Withdraw(c).rows.Keys <= WorthKeeping(c);
      assert Withdraw(c).rows == map[];
    }
  }

  lemma RetryIsProposal(c: Chain, goesOn: bool, verdict: Verdict)
    requires IsOnePurchase(c)
    ensures var r := Proposed(Withdraw(c), true, true, goesOn, verdict);
            IsProposal(c, WorthKeeping(c), r.0, true, true, goesOn, verdict, r.1)
  {
    WithdrawnIsKept(c);
    WithdrawKeeps(c);
    ProposedIsProposal(Withdraw(c), true, true, goesOn, verdict);
    if id :| id in WorthKeeping(c) {
      OneRow(c, id);
      assert WorthKeeping(c) == c.rows.Keys;
    }
  }

  class DocumentChain {
    var rows: map<Id, Row>
    var vouchers: map<nat, Id>
    var awaiting: set<Id>
    var nextRow: Id
    var nextVoucher: nat

    function Now(): Chain
      reads this
    {
      Chain(rows, vouchers, awaiting, nextRow, nextVoucher)
    }

    constructor ()
      ensures Now() == NEW.chain && IsOnePurchase(Now())
    {
      rows, vouchers, awaiting, nextRow, nextVoucher := map[], map[], {}, 1, 1;
    }

    /** Deletes the junk drafts of the document, one by one. */
    method WithdrawInvalidPurchaseDrafts()
      modifies `rows
      ensures Now() == Withdraw(old(Now()))
      ensures forall id :: id in rows <==> IsWorthKeeping(old(Now()), id)
      ensures forall id :: id in rows ==> rows[id] == old(rows)[id]
    {
      ghost var before := Now();
      var rest := rows.Keys;
      while rest != {}
        invariant rest <= before.rows.Keys && Now() == before.(rows := rows)
        invariant forall id :: id in rows <==> id in before.rows && (id in rest || IsWorthKeeping(before, id))
        invariant forall id :: id in rows ==> rows[id] == before.rows[id]
        decreases |rest|
      {
        var id :| id in rest;
        var r := rows[id];
        if r.status == Draft && r.voucher.None? && r.isAi && !r.hasValidGross && id !in awaiting {
          rows := rows - {id};
        }
        rest := rest - {id};
      }
      WithdrawnIff(before);
      assert rows == Withdraw(before).rows;
    }

    method UpdateDraft(id: Id, hasValidGross: bool) returns (ok: bool)
      modifies `rows, `awaiting
      ensures ok <==> Edit(old(Now()), id, hasValidGross).Some?
      ensures Now() == Or(Edit(old(Now()), id, hasValidGross), old(Now()))
      ensures ok <==> id in old(rows) && old(rows)[id].status in {Draft, Pending} && old(rows)[id].voucher.None?
      ensures rows == if ok then old(rows)[id := old(rows)[id].(status := Draft, hasValidGross := hasValidGross)] else old(rows)
      ensures awaiting == if ok && old(rows)[id].status == Pending then old(awaiting) - {id} else old(awaiting)
    {
      ok := id in rows && rows[id].status in {Draft, Pending} && rows[id].voucher.None?;
      if ok {
        if rows[id].status == Pending { awaiting := awaiting - {id}; }
        rows := rows[id := rows[id].(status := Draft, hasValidGross := hasValidGross)];
      }
    }

    method CreateExpense(isAi: bool, hasValidGross: bool) returns (id: Id)
      modifies `rows, `nextRow
      ensures Now() == Insert(old(Now()), isAi, hasValidGross) && id == old(nextRow)
    {
      id := nextRow;
      rows := rows[id := Row(Draft, None, isAi, hasValidGross)];
      nextRow := nextRow + 1;
    }

    /** Applies what the pipeline decided, through the guarded transition. */
    method RunPipeline(id: Id, verdict: Verdict) returns (ok: bool)
      modifies this
      ensures (Now(), Drafted(id, ok)) == Piped(old(Now()), id, verdict)
      ensures ok <==> verdict != Throw && id in old(rows) && old(rows)[id].status == Draft
      ensures ok && verdict == PostIt ==>
                && rows == old(rows)[id := old(rows)[id].(status := Posted, voucher := Some(old(nextVoucher)))]
                && vouchers == old(vouchers)[old(nextVoucher) := id] && awaiting == old(awaiting)
      ensures ok && verdict == HoldIt ==>
                && rows == old(rows)[id := old(rows)[id].(status := Pending)]
                && awaiting == old(awaiting) + {id} && vouchers == old(vouchers)
      ensures !ok ==> Now() == old(Now())
    {
      ok := verdict != Throw && id in rows && rows[id].status == Draft;
      if ok {
        if verdict == PostIt {
          rows := rows[id := rows[id].(status := Posted, voucher := Some(nextVoucher))];
          vouchers := vouchers[nextVoucher := id];
          nextVoucher := nextVoucher + 1;
        } else {
          rows := rows[id := rows[id].(status := Pending)];
          awaiting := awaiting + {id};
        }
      }
    }

    /** From the lookup on: resume the chain's first draft, or make one, and run the pipeline on
        it; a protected chain is left as it is. */
    method Propose(isAi: bool, hasValidGross: bool, goesOn: bool, verdict: Verdict) returns (r: Outcome)
      requires IsOnePurchase(Now())
      modifies this
      ensures IsOnePurchase(Now())
      ensures (Now(), r) == Proposed(old(Now()), isAi, hasValidGross, goesOn, verdict)
      ensures r.ChainProtected? <==> HasProtected(old(Now()))
      ensures IsProposal(old(Now()), old(rows.Keys), Now(), isAi, hasValidGross, goesOn, verdict, r)
    {
      ProposedKeeps(Now(), isAi, hasValidGross, goesOn, verdict);
      ProposedIsProposal(Now(), isAi, hasValidGross, goesOn, verdict);
      match Find(Now()) {
        case Protected(id, ambiguous) => return ChainProtected(id, ambiguous);
        case Resumable(id) =>
          if !goesOn { return PossibleDuplicate; }
          var ok := UpdateDraft(id, hasValidGross);
          if !ok { return PossibleDuplicate; }
          var applied := RunPipeline(id, verdict);
          r := Drafted(id, applied);
        case NoChain =>
          if !goesOn { return PossibleDuplicate; }
          var id := CreateExpense(isAi, hasValidGross);
          var applied := RunPipeline(id, verdict);
          r := Drafted(id, applied);
      }
    }

    /** The model's proposal. What the checks refuse touches nothing; else junk drafts go first. */
    method ProposeDraft(refusal: Option<Refusal>, goesOn: bool, verdict: Verdict) returns (r: Outcome)
      requires IsOnePurchase(Now())
      modifies this
      ensures IsOnePurchase(Now())
      ensures refusal.Some? ==> r == Declined(refusal.value) && Now() == old(Now())
      ensures refusal.None? ==> (Now(), r) == Proposed(Withdraw(old(Now())), true, true, goesOn, verdict)
      ensures refusal.None? ==> IsProposal(old(Now()), WorthKeeping(old(Now())), Now(), true, true, goesOn, verdict, r)
      ensures HasProtected(old(Now())) ==> Now() == old(Now()) && (refusal.None? ==> r.ChainProtected?)
    {
      if refusal.Some? { return Declined(refusal.value); }
      ghost var before := Now();
      WithdrawKeeps(before);
      ProtectedOutlivesWithdrawal(before);
      RetryIsProposal(before, goesOn, verdict);
      WithdrawInvalidPurchaseDrafts();
      r := Propose(true, true, goesOn, verdict);
    }
  }

  lemma ProtectedOutlivesWithdrawal(c: Chain)
    requires IsOnePurchase(c)
    ensures HasProtected(c) ==> Withdraw(c) == c
  {
    if HasProtected(c) {
      var id :| id in c.rows && IsProtected(c.rows[id]);
      assert forall x :: x in c.rows ==> x == id;
      assert Withdraw(c).rows == c.rows;
    }
  }
}
