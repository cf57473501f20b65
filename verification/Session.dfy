/** Who owns the answer of a request when several browser tabs share one stored sign-in,
    `packages/web/src/auth.ts`.

    Every tab runs its own JavaScript to completion, but the shared storage may be written by
    another tab between any two writes of `setToken` or `clearToken`. So one event is one
    storage write, or one run of storage reads (the stamps of a request, one ownership check). */
module Session {
  import opened Wrappers

  type Token = string
  /** A random id: `crypto.randomUUID` never returns one value twice. */
  type Nonce = nat

  /** The shared localStorage keys. */
  datatype Store = Store(token: Option<Token>, id: Option<Nonce>, epoch: Option<Nonce>)

  datatype Stamp = Stamp(revision: nat, token: Option<Token>, id: Option<Nonce>, epoch: Option<Nonce>)

  datatype Phase = AwaitingHeaders | AwaitingBody | Ended

  datatype Request = Request(stamp: Stamp, phase: Phase)

  /** What a tab's `setToken` or `clearToken` still has to write. */
  datatype Pending =
    | Nothing
    | WriteIdThenToken(token: Token)
    | WriteTokenOnly(token: Token)
    | WriteEpochThenClear(request: nat)
    | RemoveTokenThenId
    | RemoveIdOnly

  datatype Tab = Tab(revision: nat, pending: Pending, requests: map<nat, Request>)

  /** `used` are the random ids drawn so far. */
  datatype State = State(store: Store, tabs: seq<Tab>, used: set<Nonce>)

  datatype Event =
    | SignIn(tab: nat, token: Token, epoch: Nonce)    // setToken: revision, and the epoch write
    | SignOut(tab: nat, epoch: Nonce)                 // clearToken: revision, and the epoch write
    | WriteId(tab: nat, id: Nonce)
    | WriteToken(tab: nat)
    | RemoveToken(tab: nat)
    | RemoveId(tab: nat)
    | Observe(tab: nat)                               // endObservedSession
    | Start(tab: nat, request: nat, mint: Nonce)      // the stamps, and the send
    | Headers(tab: nat, request: nat)                 // first ownership check passes, no 401
    | Deliver(tab: nat, request: nat)                 // last ownership check passes
    | Unauthorized(tab: nat, request: nat)            // first ownership check passes, 401
    | BeginClear(tab: nat, epoch: Nonce)              // clearToken of that 401
    | Abandon(tab: nat, request: nat)                 // any other end of a request

  // ---------- the functions of the source ----------

  function CurrentStamp(s: State, t: nat): Stamp
    requires t < |s.tabs|
  {
    Stamp(s.tabs[t].revision, s.store.token, s.store.id, s.store.epoch)
  }

  predicate IsSameSession(s: State, t: nat, stamp: Stamp)
    requires t < |s.tabs|
  {
    && stamp.revision == s.tabs[t].revision
    && stamp.token == s.store.token
    && stamp.id == s.store.id
    && stamp.epoch == s.store.epoch
  }

  /** A stored token without an id is given one, once, before the stamp is taken. */
  function WithMintedId(store: Store, mint: Nonce): Store {
    if store.token.Some? && store.id.None? then store.(id := Some(mint)) else store
  }

  function Live(s: State, t: nat, r: nat, phase: Phase): bool {
    && t < |s.tabs| && r in s.tabs[t].requests
    && s.tabs[t].requests[r].phase == phase
    && s.tabs[t].pending == Nothing
  }

  predicate Enabled(s: State, e: Event) {
    && e.tab < |s.tabs|
    && var tab := s.tabs[e.tab];
       match e
       case SignIn(_, _, n) => tab.pending == Nothing && n !in s.used
       case SignOut(_, n) => tab.pending == Nothing && n !in s.used
       case WriteId(_, n) => tab.pending.WriteIdThenToken? && n !in s.used
       case WriteToken(_) => tab.pending.WriteTokenOnly?
       case RemoveToken(_) => tab.pending.RemoveTokenThenId?
       case RemoveId(_) => tab.pending.RemoveIdOnly?
       case Observe(_) => tab.pending == Nothing
       case Start(_, r, n) => tab.pending == Nothing && r !in tab.requests && n !in s.used
       case Headers(t, r) => Live(s, t, r, AwaitingHeaders) && IsSameSession(s, t, tab.requests[r].stamp)
       case Deliver(t, r) => Live(s, t, r, AwaitingBody) && IsSameSession(s, t, tab.requests[r].stamp)
       case Unauthorized(t, r) => Live(s, t, r, AwaitingHeaders) && IsSameSession(s, t, tab.requests[r].stamp)
       case BeginClear(_, n) => tab.pending.WriteEpochThenClear? && n !in s.used
       case Abandon(t, r) => r in tab.requests && tab.requests[r].phase != Ended && tab.pending == Nothing
  }

  function SetTab(s: State, t: nat, tab: Tab): State
    requires t < |s.tabs|
  {
    s.(tabs := s.tabs[t := tab])
  }

  function SetPhase(tab: Tab, r: nat, phase: Phase): Tab
    requires r in tab.requests
  {
    tab.(requests := tab.requests[r := tab.requests[r].(phase := phase)])
  }

  /** The first write of both transitions: a new epoch, in a new revision of the tab. */
  function Begin(s: State, t: nat, epoch: Nonce, rest: Pending): State
    requires t < |s.tabs|
  {
    SetTab(s, t, s.tabs[t].(revision := s.tabs[t].revision + 1, pending := rest))
    .(store := s.store.(epoch := Some(epoch)), used := s.used + {epoch})
  }

  function Apply(s: State, e: Event): State
    requires Enabled(s, e)
  {
    var tab := s.tabs[e.tab];
    match e
    case SignIn(t, token, n) => Begin(s, t, n, WriteIdThenToken(token))
    case SignOut(t, n) => Begin(s, t, n, RemoveTokenThenId)
    case BeginClear(t, n) => Begin(s, t, n, RemoveTokenThenId)
    case WriteId(t, n) =>
      SetTab(s, t, tab.(pending := WriteTokenOnly(tab.pending.token)))
      .(store := s.store.(id := Some(n)), used := s.used + {n})
    case WriteToken(t) =>
      SetTab(s, t, tab.(pending := Nothing)).(store := s.store.(token := Some(tab.pending.token)))
    case RemoveToken(t) =>
      SetTab(s, t, tab.(pending := RemoveIdOnly)).(store := s.store.(token := None))
    case RemoveId(t) =>
      SetTab(s, t, tab.(pending := Nothing)).(store := s.store.(id := None))
    case Observe(t) => SetTab(s, t, tab.(revision := tab.revision + 1))
    case Start(t, r, n) =>
      var s' := s.(store := WithMintedId(s.store, n), used := s.used + {n});
      SetTab(s', t, tab.(requests := tab.requests[r := Request(CurrentStamp(s', t), AwaitingHeaders)]))
    case Headers(t, r) => SetTab(s, t, SetPhase(tab, r, AwaitingBody))
    case Deliver(t, r) => SetTab(s, t, SetPhase(tab, r, Ended))
    case Unauthorized(t, r) => SetTab(s, t, SetPhase(tab, r, Ended).(pending := WriteEpochThenClear(r)))
    case Abandon(t, r) => SetTab(s, t, SetPhase(tab, r, Ended))
  }

  // ---------- runs ----------

  ghost predicate Initial(s: State) {
    && (forall t :: 0 <= t < |s.tabs| ==> s.tabs[t].pending == Nothing && s.tabs[t].requests == map[])
    && (s.store.id.Some? ==> s.store.id.value in s.used)
    && (s.store.epoch.Some? ==> s.store.epoch.value in s.used)
  }

  /** `states[k]` is the state before event `k`. */
  ghost predicate IsRun(states: seq<State>, events: seq<Event>) {
    && |states| == |events| + 1
    && Initial(states[0])
    && forall k :: 0 <= k < |events| ==> StepAt(states, events, k)
  }

  ghost predicate StepAt(states: seq<State>, events: seq<Event>, k: nat) {
    && |states| == |events| + 1 && k < |events|
    && Enabled(states[k], events[k])
    && states[k + 1] == Apply(states[k], events[k])
  }

  /** A sign-in or sign-out begins: the first storage write of setToken or clearToken. */
  predicate Begins(e: Event) {
    e.SignIn? || e.SignOut? || e.BeginClear?
  }

  ghost predicate NoneBegins(events: seq<Event>, from: nat, to: nat) {
    forall k :: from <= k < to && k < |events| ==> !Begins(events[k])
  }

  // ---------- what the epoch remembers ----------

  /** The epoch in storage, and every stamped one, was drawn before. */
  ghost predicate EpochsUsed(s: State) {
    && (s.store.epoch.Some? ==> s.store.epoch.value in s.used)
    && forall t, r :: 0 <= t < |s.tabs| && r in s.tabs[t].requests ==>
         s.tabs[t].requests[r].stamp.epoch.Some? ==> s.tabs[t].requests[r].stamp.epoch.value in s.used
  }

  lemma StampIsKept(s: State, e: Event, t: nat, r: nat)
    requires Enabled(s, e) && t < |s.tabs| && r in s.tabs[t].requests
    ensures t < |Apply(s, e).tabs| && r in Apply(s, e).tabs[t].requests
    ensures Apply(s, e).tabs[t].requests[r].stamp == s.tabs[t].requests[r].stamp
    ensures Apply(s, e).tabs[t].revision >= s.tabs[t].revision
  {}

  lemma OtherTabsStay(s: State, e: Event)
    requires Enabled(s, e)
    ensures |Apply(s, e).tabs| == |s.tabs|
    ensures forall t :: 0 <= t < |s.tabs| && t != e.tab ==> Apply(s, e).tabs[t] == s.tabs[t]
  {}

  /** A new request is stamped with the stored epoch. */
  lemma NewStampIsStored(s: State, e: Event, t: nat, r: nat)
    requires Enabled(s, e) && t < |s.tabs| && |Apply(s, e).tabs| == |s.tabs|
    requires r in Apply(s, e).tabs[t].requests && r !in s.tabs[t].requests
    ensures Apply(s, e).tabs[t].requests[r].stamp.epoch == s.store.epoch
  {}

  lemma StoredEpochStaysUsed(s: State, e: Event)
    requires Enabled(s, e) && (s.store.epoch.Some? ==> s.store.epoch.value in s.used)
    ensures Apply(s, e).store.epoch.Some? ==> Apply(s, e).store.epoch.value in Apply(s, e).used
    ensures s.used <= Apply(s, e).used
  {}

  lemma EpochsStayUsed(s: State, e: Event)
    requires EpochsUsed(s) && Enabled(s, e)
    ensures EpochsUsed(Apply(s, e))
  {
    var s' := Apply(s, e);
    OtherTabsStay(s, e);
    StoredEpochStaysUsed(s, e);
    forall t, r | 0 <= t < |s'.tabs| && r in s'.tabs[t].requests && s'.tabs[t].requests[r].stamp.epoch.Some?
      ensures s'.tabs[t].requests[r].stamp.epoch.value in s'.used
    {
      if r in s.tabs[t].requests { StampIsKept(s, e, t, r); } else { NewStampIsStored(s, e, t, r); }
    }
  }

  lemma {:induction false} RunKeepsEpochs(states: seq<State>, events: seq<Event>, k: nat)
    requires IsRun(states, events) && k < |states|
    ensures EpochsUsed(states[k])
    decreases k
  {
    if k > 0 {
      RunKeepsEpochs(states, events, k - 1);
      assert StepAt(states, events, k - 1);
      EpochsStayUsed(states[k - 1], events[k - 1]);
    }
  }

  lemma EpochStep(s: State, e: Event)
    requires Enabled(s, e)
    ensures !Begins(e) ==> Apply(s, e).store.epoch == s.store.epoch
    ensures Begins(e) ==> Apply(s, e).store.epoch.Some? && Apply(s, e).store.epoch.value !in s.used
  {}

  ghost predicate HasRequest(s: State, t: nat, r: nat) {
    t < |s.tabs| && r in s.tabs[t].requests
  }

  lemma {:induction false} RequestIsKept(states: seq<State>, events: seq<Event>, j: nat, k: nat)
    requires IsRun(states, events) && j < k < |states| && events[j].Start?
    ensures HasRequest(states[j + 1], events[j].tab, events[j].request)
    ensures HasRequest(states[k], events[j].tab, events[j].request)
    ensures states[k].tabs[events[j].tab].requests[events[j].request].stamp
         == states[j + 1].tabs[events[j].tab].requests[events[j].request].stamp
    decreases k
  {
    assert StepAt(states, events, j);
    if k > j + 1 {
      assert StepAt(states, events, k - 1);
      RequestIsKept(states, events, j, k - 1);
      StampIsKept(states[k - 1], events[k - 1], events[j].tab, events[j].request);
    }
  }

  /** From the start of a request on, the stored epoch is its stamped one exactly while no
      sign-in or sign-out began. */
  lemma {:induction false} EpochTellsWhetherAnyBegan(states: seq<State>, events: seq<Event>, j: nat, k: nat)
    requires IsRun(states, events) && j < k < |states| && events[j].Start?
    ensures HasRequest(states[k], events[j].tab, events[j].request)
    ensures states[k].tabs[events[j].tab].requests[events[j].request].stamp.epoch == states[k].store.epoch
       <==> NoneBegins(events, j + 1, k)
    decreases k
  {
    assert StepAt(states, events, j);
    RequestIsKept(states, events, j, k);
    if k > j + 1 {
      assert StepAt(states, events, k - 1);
      RequestIsKept(states, events, j, k - 1);
      EpochTellsWhetherAnyBegan(states, events, j, k - 1);
      RunKeepsEpochs(states, events, k - 1);
      EpochStep(states[k - 1], events[k - 1]);
      NoneBeginsStep(events, j + 1, k - 1);
    }
  }

  lemma NoneBeginsStep(events: seq<Event>, from: nat, to: nat)
    requires from <= to < |events|
    ensures NoneBegins(events, from, to + 1) <==> NoneBegins(events, from, to) && !Begins(events[to])
  {}

  // ---------- the ownership theorems ----------

  /** The token a request was sent with. */
  ghost function SentToken(states: seq<State>, events: seq<Event>, j: nat): Option<Token>
    requires IsRun(states, events) && j < |events| && events[j].Start?
  {
    assert StepAt(states, events, j);
    states[j + 1].tabs[events[j].tab].requests[events[j].request].stamp.token
  }

  /** A passed ownership check of the request started at `j`. */
  predicate PassesCheck(e: Event, start: Event)
    requires start.Start?
  {
    && (e.Headers? || e.Deliver? || e.Unauthorized?)
    && e.tab == start.tab && e.request == start.request
  }

  /** Session ownership: an answer is delivered, and a 401 decides to sign out, only if no
      sign-in or sign-out began in any tab after the request was stamped and the stored token
      is still the one that was sent. */
  lemma OwnedAnswersOnly(states: seq<State>, events: seq<Event>, j: nat, k: nat)
    requires IsRun(states, events) && j < k < |events| && events[j].Start?
    requires PassesCheck(events[k], events[j])
    ensures NoneBegins(events, j + 1, k)
    ensures states[k].store.token == SentToken(states, events, j)
  {
    assert StepAt(states, events, k);
    EpochTellsWhetherAnyBegan(states, events, j, k);
    RequestIsKept(states, events, j, k);
  }

  // ---------- the shell ----------

  /** A 401 that ended revision `ended` may sign the shell out only while this holds. */
  predicate IsCurrentUnauthorized(s: State, t: nat, ended: nat)
    requires t < |s.tabs|
  {
    ended == s.tabs[t].revision && s.store.token == None
  }

  /** Every sign-in, sign-out or observed change moves its tab past the revision it was in. */
  lemma {:induction false} RevisionsMoveOn(states: seq<State>, events: seq<Event>, t: nat, j: nat, k: nat)
    requires IsRun(states, events) && j <= k < |states| && t < |states[j].tabs|
    ensures |states[k].tabs| == |states[j].tabs| && states[j].tabs[t].revision <= states[k].tabs[t].revision
    ensures states[j].tabs[t].revision == states[k].tabs[t].revision
       <==> forall m :: j <= m < k ==> !(events[m].tab == t && (Begins(events[m]) || events[m].Observe?))
    decreases k
  {
    if j < k {
      RevisionsMoveOn(states, events, t, j, k - 1);
      assert StepAt(states, events, k - 1);
      RevisionStep(states[k - 1], events[k - 1], t);
    }
  }

  lemma RevisionStep(s: State, e: Event, t: nat)
    requires Enabled(s, e) && t < |s.tabs|
    ensures |Apply(s, e).tabs| == |s.tabs|
    ensures Apply(s, e).tabs[t].revision ==
            s.tabs[t].revision + if e.tab == t && (Begins(e) || e.Observe?) then 1 else 0
  {}

  lemma NewStampIsCurrent(s: State, e: Event)
    requires Enabled(s, e) && e.Start?
    ensures HasRequest(Apply(s, e), e.tab, e.request)
    ensures Apply(s, e).tabs[e.tab].requests[e.request].stamp == CurrentStamp(Apply(s, e), e.tab)
  {}

  /** The ownership check passes exactly when, since the request was stamped, nothing began in any
      tab, its own tab observed no other session, and the token and the id in storage are those
      it was sent with. */
  lemma OwnershipIff(states: seq<State>, events: seq<Event>, j: nat, k: nat)
    requires IsRun(states, events) && j < k < |states| && events[j].Start?
    ensures HasRequest(states[k], events[j].tab, events[j].request)
    ensures var t := events[j].tab;
            IsSameSession(states[k], t, states[k].tabs[t].requests[events[j].request].stamp)
            <==> && NoneBegins(events, j + 1, k)
                 && (forall m :: j < m < k && events[m].Observe? ==> events[m].tab != t)
                 && states[k].store.token == states[j + 1].store.token
                 && states[k].store.id == states[j + 1].store.id
  {
    assert StepAt(states, events, j);
    NewStampIsCurrent(states[j], events[j]);
    RequestIsKept(states, events, j, k);
    EpochTellsWhetherAnyBegan(states, events, j, k);
    RevisionsMoveOn(states, events, events[j].tab, j + 1, k);
  }

  /** The shell of a tab signs out only while nothing happened in that tab since the sign-out
      the 401 itself began at `b`, and no tab has a token stored. */
  lemma ShellSignsOutForItsOwn401(states: seq<State>, events: seq<Event>, b: nat, k: nat)
    requires IsRun(states, events) && b < k < |states| && events[b].BeginClear?
    requires events[b].tab < |states[b + 1].tabs| == |states[k].tabs|
    requires IsCurrentUnauthorized(states[k], events[b].tab, states[b + 1].tabs[events[b].tab].revision)
    ensures forall m :: b < m < k ==> !(events[m].tab == events[b].tab && (Begins(events[m]) || events[m].Observe?))
    ensures states[k].store.token == None
  {
    RevisionsMoveOn(states, events, events[b].tab, b + 1, k);
  }
}
