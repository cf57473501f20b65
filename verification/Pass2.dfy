/** The second classification pass (`pass2-agent.service.ts`): a model that may answer anything,
    refuse, stall or throw, and what an accepted answer can nevertheless carry. */
module Pass2 {
  import opened Wrappers

  const EVIDENCE_MAX_ATTEMPTS := 2
  const CLASSIFICATION_MAX_ATTEMPTS := 3

  // ---------- what the model and the lookup say ----------

  datatype DocumentKind = NewExpense | NewSalesInvoice | Correction | Duplicate | NotADocument | Unknown

  /** What extraction read off the document; it never names an id of the database. */
  datatype Evidence = Evidence(kind: DocumentKind, country: Option<string>, registrationKey: Option<string>)

  datatype Supplier = Matched(entityId: nat, country: string) | Unmatched

  datatype Proposal =
    | Match(entityId: nat, observedCountry: Option<string>, observedKey: Option<string>)
    | Create(country: string, registrationKey: Option<string>, name: string)

  datatype Result = Result(
    kind: DocumentKind, gross: int, vat: int, category: string,
    supplier: Option<Proposal>, customer: Option<string>)

  /** One generation, as far as the service tells them apart. */
  datatype Answer<T> =
    | TimedOut
    | Stopped
    | Declined
    | Threw
    | Malformed(isPurchaseTotal: bool)
    | Parsed(value: T)

  /** Everything the environment decides; an attempt beyond what is listed times out. */
  datatype World = World(
    gateAvailable: bool, gate: Answer<bool>,
    extractorAvailable: bool, evidence: seq<Answer<Evidence>>,
    lookup: Option<Supplier>,
    classifierAvailable: bool, answers: seq<Answer<Result>>)

  datatype Failure =
    | AgentUnavailable | EnrichmentFailed | EvidenceInvalid(purchaseTotal: bool) | ModelRefusal
    | ContextFailed | InvalidOutput | Transient | Timeout

  datatype Outcome = Success(result: Result) | Failed(why: Failure)

  function At<T>(answers: seq<Answer<T>>, i: nat): Answer<T> {
    if i < |answers| then answers[i] else TimedOut
  }

  // ---------- the rules for one answer ----------

  /** Registration keys are compared in upper case and without spaces. */
  function Normalize(s: string): string {
    if s == "" then ""
    else (if s[0] == ' ' then "" else [ToUpper(s[0])]) + Normalize(s[1..])
  }

  function ToUpper(c: char): char {
    if 'a' <= c <= 'z' then c - 'a' + 'A' else c
  }

  function OrEmpty(o: Option<string>): string { if o.Some? then o.value else "" }

  /** JavaScript's truth of an optional text. */
  predicate IsGiven(o: Option<string>) { OrEmpty(o) != "" }

  function ProposedKey(p: Option<Proposal>): Option<string> {
    if p.None? then None
    else match p.value
      case Match(_, _, key) => key
      case Create(_, key, _) => key
  }

  function ProposedCountry(p: Option<Proposal>): Option<string> {
    if p.None? then None
    else match p.value
      case Match(_, country, _) => country
      case Create(country, _, _) => Some(country)
  }

  predicate ContradictsLookup(p: Option<Proposal>, e: Evidence, country: string) {
    || (IsGiven(ProposedKey(p)) && Normalize(ProposedKey(p).value) != Normalize(OrEmpty(e.registrationKey)))
    || (IsGiven(ProposedCountry(p)) && ProposedCountry(p).value != country)
  }

  predicate ContradictsEvidence(p: Proposal, e: Evidence)
    requires p.Create?
  {
    || Normalize(OrEmpty(p.registrationKey)) != Normalize(OrEmpty(e.registrationKey))
    || !IsGiven(e.country)
    || Some(p.country) != e.country
  }

  /** The supplier a purchase may carry; none when the answer is refused. */
  function SupplierOf(p: Option<Proposal>, e: Evidence, s: Supplier): Option<Option<Proposal>> {
    match s
    case Matched(id, country) =>
      if ContradictsLookup(p, e, country) then None else Some(Some(Match(id, e.country, e.registrationKey)))
    case Unmatched =>
      if p.None? then Some(None)
      else if p.value.Match? || ContradictsEvidence(p.value, e) then None
      else Some(p)
  }

  /** An answer that was parsed, as it is handed on; none when it is refused. */
  function Accept(r: Result, e: Evidence, s: Supplier): Option<Result> {
    if r.kind == NotADocument then Some(r.(gross := 0, vat := 0, category := "", supplier := None, customer := None))
    else if r.kind != NewExpense then Some(r)
    else if e.kind != NewExpense then None
    else
      var supplier := SupplierOf(r.supplier, e, s);
      if supplier.None? then None else Some(r.(supplier := supplier.value))
  }

  // ---------- the phases ----------

  const REJECTED := Result(NotADocument, 0, 0, "", None, None)

  predicate GateRejects(w: World) { w.gateAvailable && w.gate == Parsed(true) }

  datatype Phase<T> = Got(value: T) | Gave(why: Failure)

  /** Two attempts at evidence; a refusal, a stop or a timeout ends the phase at once. */
  function Extract(answers: seq<Answer<Evidence>>, attempt: nat, failure: Failure): Phase<Evidence>
    decreases EVIDENCE_MAX_ATTEMPTS - attempt
  {
    if attempt >= EVIDENCE_MAX_ATTEMPTS then Gave(failure)
    else
      match At(answers, attempt)
      case TimedOut => Gave(Timeout)
      case Stopped => Gave(Transient)
      case Declined => Gave(ModelRefusal)
      case Parsed(e) => Got(e)
      case Threw => Extract(answers, attempt + 1, EnrichmentFailed)
      case Malformed(_) => Extract(answers, attempt + 1, EvidenceInvalid(false))
  }

  /** Three attempts at a classification that may be handed on. */
  function Decide(answers: seq<Answer<Result>>, e: Evidence, s: Supplier, attempt: nat, failure: Failure): Phase<Result>
    decreases CLASSIFICATION_MAX_ATTEMPTS - attempt
  {
    if attempt >= CLASSIFICATION_MAX_ATTEMPTS then Gave(failure)
    else
      match At(answers, attempt)
      case TimedOut => Gave(Timeout)
      case Stopped => Gave(Transient)
      case Declined => Gave(ModelRefusal)
      case Threw => Decide(answers, e, s, attempt + 1, Transient)
      case Malformed(isPurchaseTotal) =>
        if isPurchaseTotal then Gave(EvidenceInvalid(true)) else Decide(answers, e, s, attempt + 1, InvalidOutput)
      case Parsed(r) =>
        var accepted := Accept(r, e, s);
        if accepted.Some? then Got(accepted.value) else Decide(answers, e, s, attempt + 1, InvalidOutput)
  }

  predicate LacksCountry(e: Evidence, s: Supplier) {
    e.kind == NewExpense && s.Unmatched? && !IsGiven(e.country)
  }

  function Classified(w: World): Outcome {
    if GateRejects(w) then Success(REJECTED)
    else if !w.extractorAvailable then Failed(AgentUnavailable)
    else
      var e := Extract(w.evidence, 0, EvidenceInvalid(false));
      if e.Gave? then Failed(e.why)
      else if w.lookup.None? || LacksCountry(e.value, w.lookup.value) then Failed(ContextFailed)
      else if !w.classifierAvailable then Failed(AgentUnavailable)
      else
        var r := Decide(w.answers, e.value, w.lookup.value, 0, InvalidOutput);
        if r.Gave? then Failed(r.why) else Success(r.value)
  }

  // ---------- the service ----------

  /** Tries for evidence, at most twice. */
  method ExtractEvidence(answers: seq<Answer<Evidence>>) returns (r: Phase<Evidence>, generations: nat)
    ensures r == Extract(answers, 0, EvidenceInvalid(false))
    ensures generations <= EVIDENCE_MAX_ATTEMPTS
  {
    var failure := EvidenceInvalid(false);
    generations := 0;
    while generations < EVIDENCE_MAX_ATTEMPTS
      invariant generations <= EVIDENCE_MAX_ATTEMPTS
      invariant Extract(answers, generations, failure) == Extract(answers, 0, EvidenceInvalid(false))
    {
      var answer := At(answers, generations);
      generations := generations + 1;
      match answer {
        case TimedOut => return Gave(Timeout), generations;
        case Stopped => return Gave(Transient), generations;
        case Declined => return Gave(ModelRefusal), generations;
        case Parsed(e) => return Got(e), generations;
        case Threw => failure := EnrichmentFailed;
        case Malformed(_) => failure := EvidenceInvalid(false);
      }
    }
    r := Gave(failure);
  }

  /** Tries for a classification, at most three times. */
  method DecideClassification(answers: seq<Answer<Result>>, e: Evidence, s: Supplier) returns (r: Phase<Result>, generations: nat)
    ensures r == Decide(answers, e, s, 0, InvalidOutput)
    ensures generations <= CLASSIFICATION_MAX_ATTEMPTS
  {
    var failure := InvalidOutput;
    generations := 0;
    while generations < CLASSIFICATION_MAX_ATTEMPTS
      invariant generations <= CLASSIFICATION_MAX_ATTEMPTS
      invariant Decide(answers, e, s, generations, failure) == Decide(answers, e, s, 0, InvalidOutput)
    {
      var answer := At(answers, generations);
      generations := generations + 1;
      match answer {
        case TimedOut => return Gave(Timeout), generations;
        case Stopped => return Gave(Transient), generations;
        case Declined => return Gave(ModelRefusal), generations;
        case Threw => failure := Transient;
        case Malformed(isPurchaseTotal) =>
          if isPurchaseTotal { return Gave(EvidenceInvalid(true)), generations; }
          failure := InvalidOutput;
        case Parsed(result) =>
          var accepted := Accept(result, e, s);
          if accepted.Some? { return Got(accepted.value), generations; }
          failure := InvalidOutput;
      }
    }
    r := Gave(failure);
  }

  /** The pass: gate, evidence, lookup, classification. Whatever the model answers, at most one
      plus two plus three generations run. */
  method Classify(w: World) returns (r: Outcome, generations: nat)
    ensures r == Classified(w)
    ensures generations <= 1 + EVIDENCE_MAX_ATTEMPTS + CLASSIFICATION_MAX_ATTEMPTS
  {
    generations := if w.gateAvailable then 1 else 0;
    if w.gateAvailable && w.gate.Parsed? && w.gate.value { return Success(REJECTED), generations; }
    if !w.extractorAvailable { return Failed(AgentUnavailable), generations; }
    var e, tries := ExtractEvidence(w.evidence);
    generations := generations + tries;
    if e.Gave? { return Failed(e.why), generations; }
    if w.lookup.None? || LacksCountry(e.value, w.lookup.value) { return Failed(ContextFailed), generations; }
    if !w.classifierAvailable { return Failed(AgentUnavailable), generations; }
    var d, more := DecideClassification(w.answers, e.value, w.lookup.value);
    generations := generations + more;
    r := if d.Gave? then Failed(d.why) else Success(d.value);
  }

  // ---------- what an accepted answer carries ----------

  /** A proposal to create a supplier that says what the document says. */
  predicate AgreesWith(p: Proposal, e: Evidence) {
    && p.Create? && e.country == Some(p.country) && IsGiven(e.country)
    && Normalize(OrEmpty(p.registrationKey)) == Normalize(OrEmpty(e.registrationKey))
  }

  /** What the supplier of a purchase may be: the entity the lookup found, with the extracted
      evidence; or, when it found none, nothing or a new supplier that agrees with the evidence. */
  predicate ComesFromEvidence(p: Option<Proposal>, e: Evidence, s: Supplier) {
    if s.Matched? then p == Some(Match(s.entityId, e.country, e.registrationKey))
    else p.None? || AgreesWith(p.value, e)
  }

  predicate IsEmptied(r: Result) {
    r.gross == 0 && r.vat == 0 && r.category == "" && r.supplier.None? && r.customer.None?
  }

  lemma AcceptedIsSafe(r: Result, e: Evidence, s: Supplier)
    requires Accept(r, e, s).Some?
    ensures var a := Accept(r, e, s).value;
            && a.kind == r.kind
            && (a.kind == NotADocument ==> IsEmptied(a))
            && (a.kind == NewExpense ==> e.kind == NewExpense && ComesFromEvidence(a.supplier, e, s))
  {}

  /** What is handed on is one of the answers, edited as one answer is. */
  lemma {:induction false} DecidedIsAnAnswer(answers: seq<Answer<Result>>, e: Evidence, s: Supplier, attempt: nat, failure: Failure)
    requires Decide(answers, e, s, attempt, failure).Got?
    ensures exists i :: 0 <= i < CLASSIFICATION_MAX_ATTEMPTS && i < |answers| && answers[i].Parsed?
              && Accept(answers[i].value, e, s) == Some(Decide(answers, e, s, attempt, failure).value)
    decreases CLASSIFICATION_MAX_ATTEMPTS - attempt
  {
    var answer := At(answers, attempt);
    if answer.Parsed? && Accept(answer.value, e, s).Some? {
      assert answers[attempt].Parsed?;
    } else if answer.Threw? {
      DecidedIsAnAnswer(answers, e, s, attempt + 1, Transient);
    } else {
      DecidedIsAnAnswer(answers, e, s, attempt + 1, InvalidOutput);
    }
  }

  lemma {:induction false} ExtractedIsAnAnswer(answers: seq<Answer<Evidence>>, attempt: nat, failure: Failure)
    requires Extract(answers, attempt, failure).Got?
    ensures exists i :: 0 <= i < EVIDENCE_MAX_ATTEMPTS && i < |answers| && answers[i] == Parsed(Extract(answers, attempt, failure).value)
    decreases EVIDENCE_MAX_ATTEMPTS - attempt
  {
    match At(answers, attempt)
    case Parsed(_) => assert answers[attempt].Parsed?;
    case Threw => ExtractedIsAnAnswer(answers, attempt + 1, EnrichmentFailed);
    case Malformed(_) => ExtractedIsAnAnswer(answers, attempt + 1, EvidenceInvalid(false));
  }

  /** The evidence and the lookup a success rests on. */
  ghost predicate RestsOn(w: World, e: Evidence, s: Supplier) {
    && (exists i :: 0 <= i < EVIDENCE_MAX_ATTEMPTS && i < |w.evidence| && w.evidence[i] == Parsed(e))
    && w.lookup == Some(s)
  }

  /** Supplier ids never come from the model. For all answers, refusals, stalls and throws: an
      accepted purchase rests on extracted purchase evidence and on a lookup that answered, and
      carries the looked-up entity with that evidence, or a new supplier agreeing with it, or no
      supplier. A file accepted as no document has no amounts, no category and no proposals. */
  lemma AcceptedComesFromEvidence(w: World)
    requires Classified(w).Success?
    ensures var r := Classified(w).result;
            && (r.kind == NotADocument ==> IsEmptied(r))
            && (r.kind == NewExpense ==>
                  exists e, s :: RestsOn(w, e, s) && e.kind == NewExpense && ComesFromEvidence(r.supplier, e, s))
  {
    if !GateRejects(w) {
      var e := Extract(w.evidence, 0, EvidenceInvalid(false)).value;
      var s := w.lookup.value;
      ExtractedIsAnAnswer(w.evidence, 0, EvidenceInvalid(false));
      DecidedIsAnAnswer(w.answers, e, s, 0, InvalidOutput);
      var i :| 0 <= i < CLASSIFICATION_MAX_ATTEMPTS && i < |w.answers| && w.answers[i].Parsed?
               && Accept(w.answers[i].value, e, s) == Some(Classified(w).result);
      AcceptedIsSafe(w.answers[i].value, e, s);
      assert RestsOn(w, e, s);
    }
  }

  /** The answers with every id the model named replaced by another. */
  function WithOtherIds(answers: seq<Answer<Result>>, id: nat): seq<Answer<Result>> {
    if answers == [] then []
    else [WithOtherId(answers[0], id)] + WithOtherIds(answers[1..], id)
  }

  function WithOtherId(a: Answer<Result>, id: nat): Answer<Result> {
    if a.Parsed? && a.value.supplier.Some? && a.value.supplier.value.Match?
    then Parsed(a.value.(supplier := Some(a.value.supplier.value.(entityId := id)))) else a
  }

  lemma {:induction false} OtherIdAt(answers: seq<Answer<Result>>, id: nat, i: nat)
    ensures |WithOtherIds(answers, id)| == |answers|
    ensures At(WithOtherIds(answers, id), i) == WithOtherId(At(answers, i), id)
  {
    if answers != [] {
      if i > 0 { OtherIdAt(answers[1..], id, i - 1); } else { OtherIdAt(answers[1..], id, 0); }
    }
  }

  lemma {:induction false} DecideIgnoresIds(answers: seq<Answer<Result>>, e: Evidence, s: Supplier, attempt: nat, failure: Failure, id: nat)
    ensures var a, b := Decide(answers, e, s, attempt, failure), Decide(WithOtherIds(answers, id), e, s, attempt, failure);
            || a == b
            || (a.Got? && b.Got? && a.value.kind !in {NewExpense, NotADocument} && b.value.kind == a.value.kind)
    decreases CLASSIFICATION_MAX_ATTEMPTS - attempt
  {
    OtherIdAt(answers, id, attempt);
    if attempt < CLASSIFICATION_MAX_ATTEMPTS {
      var answer := At(answers, attempt);
      if answer.Threw? {
        DecideIgnoresIds(answers, e, s, attempt + 1, Transient, id);
      } else if answer.Malformed? || answer.Parsed? {
        DecideIgnoresIds(answers, e, s, attempt + 1, InvalidOutput, id);
      }
    }
  }

  /** Non-interference: changing the entity ids the model names, in every answer and to anything,
      changes no accepted purchase, no rejected file and no failure. */
  lemma NamedIdsDoNotMatter(w: World, id: nat)
    ensures var a, b := Classified(w), Classified(w.(answers := WithOtherIds(w.answers, id)));
            || a == b
            || (a.Success? && b.Success? && a.result.kind !in {NewExpense, NotADocument} && b.result.kind == a.result.kind)
  {
    var e := Extract(w.evidence, 0, EvidenceInvalid(false));
    if e.Got? && w.lookup.Some? { DecideIgnoresIds(w.answers, e.value, w.lookup.value, 0, InvalidOutput, id); }
  }

  // ---------- exactly when a pass succeeds ----------

  /** What the model says of the looked-up supplier, if anything, is what the document and the
      lookup say. */
  predicate IsConsistent(p: Option<Proposal>, e: Evidence, country: string) {
    match p
    case None => true
    case Some(Match(_, c, key)) => SaysCountry(c, country) && SaysKey(key, e)
    case Some(Create(c, key, _)) => SaysCountry(Some(c), country) && SaysKey(key, e)
  }

  predicate SaysCountry(c: Option<string>, country: string) { c.None? || c.value in {"", country} }

  predicate SaysKey(key: Option<string>, e: Evidence) {
    key.None? || key.value == "" || Normalize(key.value) == Normalize(OrEmpty(e.registrationKey))
  }

  /** An answer that may be handed on. */
  predicate IsAcceptable(r: Result, e: Evidence, s: Supplier) {
    r.kind == NewExpense ==>
      && e.kind == NewExpense
      && match s
         case Matched(_, country) => IsConsistent(r.supplier, e, country)
         case Unmatched => r.supplier.None? || AgreesWith(r.supplier.value, e)
  }

  /** `handed` is the answer, with the looked-up supplier in a purchase and nothing in a file that
      is no document. */
  ghost predicate IsHandedOn(r: Result, e: Evidence, s: Supplier, handed: Result) {
    match r.kind
    case NotADocument => handed.kind == NotADocument && IsEmptied(handed)
    case NewExpense =>
      (match s
       case Matched(id, _) => handed == r.(supplier := Some(Match(id, e.country, e.registrationKey)))
       case Unmatched => handed == r)
    case _ => handed == r
  }

  lemma AcceptIff(r: Result, e: Evidence, s: Supplier)
    ensures Accept(r, e, s).Some? <==> IsAcceptable(r, e, s)
    ensures forall handed :: Accept(r, e, s) == Some(handed) <==> IsAcceptable(r, e, s) && IsHandedOn(r, e, s, handed)
  {}

  /** An answer after which the model is asked again. */
  predicate IsRetried(a: Answer<Result>, e: Evidence, s: Supplier) {
    a.Threw? || a == Malformed(false) || (a.Parsed? && !IsAcceptable(a.value, e, s))
  }

  /** The first acceptable answer, with nothing before it that ends the phase. */
  predicate IsDeciding(answers: seq<Answer<Result>>, e: Evidence, s: Supplier, from: nat, i: nat) {
    && from <= i < CLASSIFICATION_MAX_ATTEMPTS && i < |answers|
    && answers[i].Parsed? && IsAcceptable(answers[i].value, e, s)
    && forall j :: from <= j < i ==> IsRetried(answers[j], e, s)
  }

  lemma DecidingLater(answers: seq<Answer<Result>>, e: Evidence, s: Supplier, from: nat, i: nat)
    requires from < |answers| && IsRetried(answers[from], e, s)
    ensures IsDeciding(answers, e, s, from, i) <==> IsDeciding(answers, e, s, from + 1, i)
  {}

  lemma {:induction false} DecidedIff(answers: seq<Answer<Result>>, e: Evidence, s: Supplier, from: nat, failure: Failure, handed: Result)
    ensures Decide(answers, e, s, from, failure) == Got(handed)
            <==> exists i: nat :: IsDeciding(answers, e, s, from, i) && IsHandedOn(answers[i].value, e, s, handed)
    decreases CLASSIFICATION_MAX_ATTEMPTS - from
  {
    if from < CLASSIFICATION_MAX_ATTEMPTS {
      var a := At(answers, from);
      if a.Parsed? { AcceptIff(a.value, e, s); }
      if IsRetried(a, e, s) {
        DecidedIff(answers, e, s, from + 1, if a.Threw? then Transient else InvalidOutput, handed);
        forall i: nat ensures IsDeciding(answers, e, s, from, i) <==> IsDeciding(answers, e, s, from + 1, i) {
          DecidingLater(answers, e, s, from, i);
        }
      } else if a.Parsed? {
        assert IsDeciding(answers, e, s, from, from);
      }
    }
  }

  /** The evidence of the first attempt, or of the second when the first threw or was malformed. */
  predicate IsEvidence(answers: seq<Answer<Evidence>>, e: Evidence) {
    || (|answers| > 0 && answers[0] == Parsed(e))
    || (|answers| > 1 && (answers[0].Threw? || answers[0].Malformed?) && answers[1] == Parsed(e))
  }

  lemma ExtractedIff(answers: seq<Answer<Evidence>>, failure: Failure, e: Evidence)
    ensures Extract(answers, 0, failure) == Got(e) <==> IsEvidence(answers, e)
  {
    var a, b := At(answers, 0), At(answers, 1);
    if a.Threw? || a.Malformed? {
      var next := if a.Threw? then EnrichmentFailed else EvidenceInvalid(false);
      assert Extract(answers, 0, failure) == Extract(answers, 1, next);
      assert Extract(answers, 1, next) == Got(e) <==> b == Parsed(e);
    }
  }

  /** What a pass that is not stopped at the gate needs to succeed with a result. */
  ghost predicate Decides(w: World, e: Evidence, s: Supplier, i: nat, handed: Result) {
    && w.extractorAvailable && IsEvidence(w.evidence, e)
    && w.lookup == Some(s) && (e.kind == NewExpense && s.Unmatched? ==> IsGiven(e.country))
    && w.classifierAvailable && IsDeciding(w.answers, e, s, 0, i) && IsHandedOn(w.answers[i].value, e, s, handed)
  }

  /** Sound and complete: a pass succeeds with a result if and only if the gate rejects the file
      and the result is empty, or one of the first answers is acceptable, none before it ended
      the pass, and the result is that answer handed on. */
  lemma SucceedsIff(w: World, handed: Result)
    ensures Classified(w) == Success(handed)
            <==> if w.gateAvailable && w.gate == Parsed(true) then handed.kind == NotADocument && IsEmptied(handed)
                 else exists e, s, i: nat :: Decides(w, e, s, i, handed)
  {
    if !GateRejects(w) {
      var r := Extract(w.evidence, 0, EvidenceInvalid(false));
      if w.lookup.Some? && r.Got? {
        ExtractedIff(w.evidence, EvidenceInvalid(false), r.value);
        DecidedIff(w.answers, r.value, w.lookup.value, 0, InvalidOutput, handed);
        if Classified(w) == Success(handed) {
          var i: nat :| IsDeciding(w.answers, r.value, w.lookup.value, 0, i) && IsHandedOn(w.answers[i].value, r.value, w.lookup.value, handed);
          assert Decides(w, r.value, w.lookup.value, i, handed);
        }
      }
      forall e, s, i: nat | Decides(w, e, s, i, handed) ensures Classified(w) == Success(handed) {
        ExtractedIff(w.evidence, EvidenceInvalid(false), e);
        DecidedIff(w.answers, e, s, 0, InvalidOutput, handed);
      }
    }
  }
}
