/** What the sign-out that a 401 begins takes from storage (`packages/web/src/auth.ts`).

    `clearToken` makes three writes after the ownership check of the 401: a new epoch, then the
    token goes, then the id. Other tabs may write before each of them. */
module SessionSignOut {
  import opened Wrappers
  import opened Session

  // ---------- whose sign-in the stored values belong to ----------

  /** The last sign-in that a tab has begun. */
  ghost function LastSignIn(events: seq<Event>, t: nat, k: nat): (m: Option<nat>)
    requires k <= |events|
    ensures m.Some? ==> m.value < k && events[m.value].SignIn? && events[m.value].tab == t
  {
    if k == 0 then None
    else if events[k - 1].SignIn? && events[k - 1].tab == t then Some(k - 1)
    else LastSignIn(events, t, k - 1)
  }

  /** The sign-in that wrote the stored epoch; none when a sign-out wrote it. */
  ghost function EpochOwner(events: seq<Event>, k: nat): Option<nat>
    requires k <= |events|
  {
    if k == 0 then None
    else match events[k - 1]
      case SignIn(_, _, _) => Some(k - 1)
      case SignOut(_, _) => None
      case BeginClear(_, _) => None
      case _ => EpochOwner(events, k - 1)
  }

  /** The sign-in that wrote the stored token. */
  ghost function TokenOwner(events: seq<Event>, k: nat): Option<nat>
    requires k <= |events|
  {
    if k == 0 then None
    else match events[k - 1]
      case WriteToken(t) => LastSignIn(events, t, k - 1)
      case RemoveToken(_) => None
      case _ => TokenOwner(events, k - 1)
  }

  /** A request start gives an id to a token that is stored without one. */
  predicate Mints(s: State, e: Event) {
    e.Start? && s.store.token.Some? && s.store.id.None?
  }

  /** The sign-in that the stored id belongs to: the one that wrote it, or the one whose token
      was given it. */
  ghost function IdOwner(states: seq<State>, events: seq<Event>, k: nat): Option<nat>
    requires k <= |events| < |states|
  {
    if k == 0 then None
    else match events[k - 1]
      case WriteId(t, _) => LastSignIn(events, t, k - 1)
      case RemoveId(_) => None
      case Start(_, _, _) => if Mints(states[k - 1], events[k - 1]) then TokenOwner(events, k - 1) else IdOwner(states, events, k - 1)
      case _ => IdOwner(states, events, k - 1)
  }

  // ---------- the owners are in storage ----------

  /** What a tab still has to write is of the last sign-in it began. */
  ghost predicate PendingIsOwned(states: seq<State>, events: seq<Event>, t: nat, k: nat)
    requires k <= |events| < |states|
  {
    t < |states[k].tabs| ==>
      var p := states[k].tabs[t].pending;
      p.WriteIdThenToken? || p.WriteTokenOnly? ==>
        LastSignIn(events, t, k).Some? && p.token == events[LastSignIn(events, t, k).value].token
  }

  lemma {:induction false} PendingIsAlwaysOwned(states: seq<State>, events: seq<Event>, t: nat, k: nat)
    requires IsRun(states, events) && k <= |events|
    ensures PendingIsOwned(states, events, t, k)
    decreases k
  {
    if k > 0 {
      assert StepAt(states, events, k - 1);
      PendingIsAlwaysOwned(states, events, t, k - 1);
      if events[k - 1].tab != t { OtherTabsStay(states[k - 1], events[k - 1]); }
    }
  }

  lemma {:induction false} EpochOwnerIsStored(states: seq<State>, events: seq<Event>, k: nat)
    requires IsRun(states, events) && k <= |events|
    ensures var m := EpochOwner(events, k);
            m.Some? ==> m.value < k && events[m.value].SignIn? && states[k].store.epoch == Some(events[m.value].epoch)
    decreases k
  {
    if k > 0 {
      assert StepAt(states, events, k - 1);
      EpochOwnerIsStored(states, events, k - 1);
    }
  }

  lemma {:induction false} TokenOwnerIsStored(states: seq<State>, events: seq<Event>, k: nat)
    requires IsRun(states, events) && k <= |events|
    ensures var m := TokenOwner(events, k);
            m.Some? ==> m.value < k && events[m.value].SignIn? && states[k].store.token == Some(events[m.value].token)
    decreases k
  {
    if k > 0 {
      assert StepAt(states, events, k - 1);
      TokenOwnerIsStored(states, events, k - 1);
      PendingIsAlwaysOwned(states, events, events[k - 1].tab, k - 1);
    }
  }

  lemma {:induction false} IdOwnerIsStored(states: seq<State>, events: seq<Event>, k: nat)
    requires IsRun(states, events) && k <= |events|
    ensures var m := IdOwner(states, events, k);
            m.Some? ==> m.value < k && events[m.value].SignIn? && states[k].store.id.Some?
    decreases k
  {
    if k > 0 {
      assert StepAt(states, events, k - 1);
      IdOwnerIsStored(states, events, k - 1);
      TokenOwnerIsStored(states, events, k - 1);
    }
  }

  // ---------- the sign-out of a 401 ----------

  /** The next event of the same tab. */
  predicate IsNext(events: seq<Event>, x: nat, y: nat) {
    x < y < |events| && events[y].tab == events[x].tab && forall m :: x < m < y ==> events[m].tab != events[x].tab
  }

  /** At `d` a tab decides to sign out for a 401; `b`, `k` and `e` are its next three events. */
  ghost predicate IsSignOutOf401(states: seq<State>, events: seq<Event>, d: nat, b: nat, k: nat, e: nat) {
    && IsRun(states, events) && d < |events| && events[d].Unauthorized?
    && IsNext(events, d, b) && IsNext(events, b, k) && IsNext(events, k, e)
  }

  lemma {:induction false} TabWaits(states: seq<State>, events: seq<Event>, t: nat, x: nat, y: nat)
    requires IsRun(states, events) && x <= y <= |events| && t < |states[x].tabs|
    requires forall m :: x <= m < y ==> events[m].tab != t
    ensures t < |states[y].tabs| && states[y].tabs[t] == states[x].tabs[t]
    decreases y
  {
    if x < y {
      TabWaits(states, events, t, x, y - 1);
      assert StepAt(states, events, y - 1);
      OtherTabsStay(states[y - 1], events[y - 1]);
    }
  }

  /** Those three are the writes of `clearToken`: the tab can do nothing else before them. */
  lemma SignOutRunsOn(states: seq<State>, events: seq<Event>, d: nat, b: nat, k: nat, e: nat)
    requires IsSignOutOf401(states, events, d, b, k, e)
    ensures events[b].BeginClear? && events[b].tab == events[d].tab
    ensures events[k] == RemoveToken(events[d].tab) && events[e] == RemoveId(events[d].tab)
  {
    var t := events[d].tab;
    assert StepAt(states, events, d) && StepAt(states, events, b) && StepAt(states, events, k) && StepAt(states, events, e);
    TabWaits(states, events, t, d + 1, b);
    TabWaits(states, events, t, b + 1, k);
    TabWaits(states, events, t, k + 1, e);
  }

  /** The sign-out overwrites the epoch, removes the token, or removes the id of the sign-in
      begun at `m`. */
  ghost predicate TakesFrom(states: seq<State>, events: seq<Event>, b: nat, k: nat, e: nat, m: nat)
    requires b <= |events| && k <= |events| && e <= |events| < |states|
  {
    EpochOwner(events, b) == Some(m) || TokenOwner(events, k) == Some(m) || IdOwner(states, events, e) == Some(m)
  }

  /** What is taken was stored and is not afterwards: nothing of a sign-in survives the write
      that takes it. */
  lemma TakenIsGone(states: seq<State>, events: seq<Event>, d: nat, b: nat, k: nat, e: nat, m: nat)
    requires IsSignOutOf401(states, events, d, b, k, e) && TakesFrom(states, events, b, k, e, m)
    ensures m < e && events[m].SignIn? && (d < m ==> events[m].tab != events[d].tab)
    ensures EpochOwner(events, b) == Some(m) ==>
              states[b].store.epoch == Some(events[m].epoch) && states[b + 1].store.epoch != states[b].store.epoch
    ensures TokenOwner(events, k) == Some(m) ==>
              states[k].store.token == Some(events[m].token) && states[k + 1].store.token == None
    ensures IdOwner(states, events, e) == Some(m) ==> states[e].store.id.Some? && states[e + 1].store.id == None
  {
    SignOutRunsOn(states, events, d, b, k, e);
    EpochOwnerIsStored(states, events, b);
    TokenOwnerIsStored(states, events, k);
    IdOwnerIsStored(states, events, e);
    assert StepAt(states, events, b) && StepAt(states, events, k) && StepAt(states, events, e);
    RunKeepsEpochs(states, events, b);
    EpochStep(states[b], events[b]);
  }

  // ---------- when that happens, told from the events ----------

  /** The last sign-in or sign-out begun before the clear is the sign-in at `m`. */
  ghost predicate IsLastBegun(events: seq<Event>, m: nat, b: nat) {
    m < b <= |events| && events[m].SignIn? && NoneBegins(events, m + 1, b)
  }

  /** At `w` the sign-in begun at `m` makes a write: its tab has begun no other in between. */
  ghost predicate IsWriteOf(events: seq<Event>, m: nat, w: nat) {
    && m < w < |events| && events[m].SignIn? && events[w].tab == events[m].tab
    && forall x :: m < x < w ==> !(events[x].SignIn? && events[x].tab == events[m].tab)
  }

  /** A write that puts a token into storage, or takes the stored one out. */
  predicate WritesToken(e: Event) { e.WriteToken? || e.RemoveToken? }

  ghost predicate TokenUntouched(events: seq<Event>, from: nat, to: nat) {
    forall k :: from <= k < to && k < |events| ==> !WritesToken(events[k])
  }

  /** The last token write before `k` is that of the sign-in begun at `m`. */
  ghost predicate PutsToken(events: seq<Event>, m: nat, w: nat, k: nat) {
    w < k <= |events| && IsWriteOf(events, m, w) && events[w].WriteToken? && TokenUntouched(events, w + 1, k)
  }

  ghost predicate WritesId(states: seq<State>, events: seq<Event>, k: nat)
    requires k < |events| < |states|
  {
    events[k].WriteId? || events[k].RemoveId? || Mints(states[k], events[k])
  }

  ghost predicate IdUntouched(states: seq<State>, events: seq<Event>, from: nat, to: nat)
    requires |events| < |states|
  {
    forall k :: from <= k < to && k < |events| ==> !WritesId(states, events, k)
  }

  /** The last id write before `k` is that of the sign-in begun at `m`, or mints an id for its
      token. */
  ghost predicate PutsId(states: seq<State>, events: seq<Event>, m: nat, w: nat, k: nat)
    requires |events| < |states|
  {
    && m < w < k <= |events| && IdUntouched(states, events, w + 1, k)
    && ((IsWriteOf(events, m, w) && events[w].WriteId?)
        || (Mints(states[w], events[w]) && exists x :: PutsToken(events, m, x, w)))
  }

  lemma {:induction false} LastSignInIff(events: seq<Event>, m: nat, w: nat)
    requires w < |events|
    ensures LastSignIn(events, events[w].tab, w) == Some(m) <==> IsWriteOf(events, m, w)
  {
    LastSignInIsLast(events, events[w].tab, w);
  }

  lemma {:induction false} LastSignInIsLast(events: seq<Event>, t: nat, k: nat)
    requires k <= |events|
    ensures var m := LastSignIn(events, t, k);
            forall x :: (if m.Some? then m.value + 1 else 0) <= x < k ==> !(events[x].SignIn? && events[x].tab == t)
    decreases k
  {
    if k > 0 { LastSignInIsLast(events, t, k - 1); }
  }

  lemma {:induction false} EpochOwnerIff(events: seq<Event>, m: nat, b: nat)
    requires b <= |events|
    ensures EpochOwner(events, b) == Some(m) <==> IsLastBegun(events, m, b)
    decreases b
  {
    if b > 0 {
      EpochOwnerIff(events, m, b - 1);
      if m < b - 1 { NoneBeginsStep(events, m + 1, b - 1); }
    }
  }

  lemma TokenUntouchedStep(events: seq<Event>, from: nat, k: nat)
    requires from <= k < |events|
    ensures TokenUntouched(events, from, k + 1) <==> TokenUntouched(events, from, k) && !WritesToken(events[k])
  {}

  lemma PutsTokenStep(events: seq<Event>, m: nat, w: nat, k: nat)
    requires k < |events|
    ensures PutsToken(events, m, w, k + 1) <==>
              if w == k then events[k].WriteToken? && IsWriteOf(events, m, k)
              else PutsToken(events, m, w, k) && !WritesToken(events[k])
  {
    if w < k { TokenUntouchedStep(events, w + 1, k); }
  }

  lemma {:induction false} TokenOwnerIff(events: seq<Event>, m: nat, k: nat)
    requires k <= |events|
    ensures TokenOwner(events, k) == Some(m) <==> exists w :: PutsToken(events, m, w, k)
    decreases k
  {
    if k > 0 {
      var e := events[k - 1];
      if e.WriteToken? {
        LastSignInIff(events, m, k - 1);
        PutsTokenStep(events, m, k - 1, k - 1);
        forall w: nat | PutsToken(events, m, w, k) ensures w == k - 1 { PutsTokenStep(events, m, w, k - 1); }
      } else if e.RemoveToken? {
        forall w: nat ensures !PutsToken(events, m, w, k) { PutsTokenStep(events, m, w, k - 1); }
      } else {
        TokenOwnerIff(events, m, k - 1);
        forall w: nat ensures PutsToken(events, m, w, k) <==> PutsToken(events, m, w, k - 1) { PutsTokenStep(events, m, w, k - 1); }
        SameWitness(events, m, k - 1, k);
      }
    }
  }

  lemma SameWitness(events: seq<Event>, m: nat, j: nat, k: nat)
    requires forall w :: PutsToken(events, m, w, k) <==> PutsToken(events, m, w, j)
    ensures (exists w :: PutsToken(events, m, w, k)) <==> (exists w :: PutsToken(events, m, w, j))
  {
    if w :| PutsToken(events, m, w, k) { assert PutsToken(events, m, w, j); }
    if w :| PutsToken(events, m, w, j) { assert PutsToken(events, m, w, k); }
  }

  lemma PutsIdStep(states: seq<State>, events: seq<Event>, m: nat, w: nat, k: nat)
    requires k < |events| < |states|
    ensures PutsId(states, events, m, w, k + 1) <==>
              if w == k then
                m < k && ((IsWriteOf(events, m, k) && events[k].WriteId?)
                          || (Mints(states[k], events[k]) && exists x :: PutsToken(events, m, x, k)))
              else PutsId(states, events, m, w, k) && !WritesId(states, events, k)
  {
    if w < k {
      assert IdUntouched(states, events, w + 1, k + 1) <==> IdUntouched(states, events, w + 1, k) && !WritesId(states, events, k);
    }
  }

  lemma {:induction false} IdOwnerIff(states: seq<State>, events: seq<Event>, m: nat, k: nat)
    requires k <= |events| < |states|
    ensures IdOwner(states, events, k) == Some(m) <==> exists w :: PutsId(states, events, m, w, k)
    decreases k
  {
    if k > 0 {
      var n := k - 1;
      if WritesId(states, events, n) {
        LastSignInIff(events, m, n);
        TokenOwnerIff(events, m, n);
        PutsIdStep(states, events, m, n, n);
        forall w: nat | PutsId(states, events, m, w, k) ensures w == n { PutsIdStep(states, events, m, w, n); }
        if x :| PutsToken(events, m, x, n) { assert m < n; }
      } else {
        IdOwnerIff(states, events, m, n);
        if w :| PutsId(states, events, m, w, k) {
          PutsIdStep(states, events, m, w, n);
          assert PutsId(states, events, m, w, n);
        }
        if w :| PutsId(states, events, m, w, n) {
          PutsIdStep(states, events, m, w, n);
          assert PutsId(states, events, m, w, k);
        }
      }
    }
  }

  // ---------- the exact condition ----------

  /** The sign-out of an old request's 401 takes nothing of a sign-in begun after its check. (None
      can begin between the request and the check, which passed: `OwnedAnswersOnly`.) */
  ghost predicate SparesNewerSignIns(states: seq<State>, events: seq<Event>, d: nat, b: nat, k: nat, e: nat)
    requires b <= |events| && k <= |events| && e <= |events| < |states|
  {
    forall m :: d < m ==> !TakesFrom(states, events, b, k, e, m)
  }

  /** The sign-in at `m` is not the last thing begun before the new epoch is written, not the last
      to write a token before the token goes, and not the last to write an id, or to have one
      minted for its token, before the id goes. */
  ghost predicate IsNeverLast(states: seq<State>, events: seq<Event>, b: nat, k: nat, e: nat, m: nat)
    requires |events| < |states|
  {
    && !IsLastBegun(events, m, b)
    && (forall w :: !PutsToken(events, m, w, k)) && (forall w :: !PutsId(states, events, m, w, e))
  }

  /** An old request ends no newer session if and only if no sign-in begun after its check is the
      last to write what one of the three writes then overwrites or removes. */
  lemma NewerSignInsAreSparedIff(states: seq<State>, events: seq<Event>, d: nat, b: nat, k: nat, e: nat)
    requires IsSignOutOf401(states, events, d, b, k, e)
    ensures SparesNewerSignIns(states, events, d, b, k, e) <==> forall m :: d < m ==> IsNeverLast(states, events, b, k, e, m)
  {
    forall m: nat ensures TakesFrom(states, events, b, k, e, m) <==> !IsNeverLast(states, events, b, k, e, m) {
      TakesIff(states, events, b, k, e, m);
    }
  }

  lemma TakesIff(states: seq<State>, events: seq<Event>, b: nat, k: nat, e: nat, m: nat)
    requires b <= |events| && k <= |events| && e <= |events| < |states|
    ensures TakesFrom(states, events, b, k, e, m) <==>
              IsLastBegun(events, m, b) || (exists w :: PutsToken(events, m, w, k)) || (exists w :: PutsId(states, events, m, w, e))
  {
    EpochOwnerIff(events, m, b);
    TokenOwnerIff(events, m, k);
    IdOwnerIff(states, events, m, e);
  }

  /** What the three writes do to a stamp that is current in another tab: the new epoch always ends
      it; the removals end it exactly when there was something to remove. */
  lemma SignOutEndsStamps(states: seq<State>, events: seq<Event>, d: nat, b: nat, k: nat, e: nat, t: nat, stamp: Stamp)
    requires IsSignOutOf401(states, events, d, b, k, e) && t != events[d].tab
    requires t < |states[b].tabs| == |states[b + 1].tabs| && t < |states[k].tabs| == |states[k + 1].tabs|
    requires t < |states[e].tabs| == |states[e + 1].tabs|
    ensures IsSameSession(states[b], t, stamp) ==> !IsSameSession(states[b + 1], t, stamp)
    ensures IsSameSession(states[k], t, stamp) ==> (IsSameSession(states[k + 1], t, stamp) <==> states[k].store.token.None?)
    ensures IsSameSession(states[e], t, stamp) ==> (IsSameSession(states[e + 1], t, stamp) <==> states[e].store.id.None?)
  {
    SignOutRunsOn(states, events, d, b, k, e);
    assert StepAt(states, events, b) && StepAt(states, events, k) && StepAt(states, events, e);
    RunKeepsEpochs(states, events, b);
    EpochStep(states[b], events[b]);
    OtherTabsStay(states[k], events[k]);
    OtherTabsStay(states[e], events[e]);
  }

  // ---------- its own session ----------

  lemma {:induction false} UntouchedTokenStays(states: seq<State>, events: seq<Event>, d: nat, k: nat)
    requires IsRun(states, events) && d <= k < |states| && TokenUntouched(events, d, k)
    ensures states[k].store.token == states[d].store.token
    decreases k
  {
    if d < k {
      UntouchedTokenStays(states, events, d, k - 1);
      assert StepAt(states, events, k - 1);
      assert !WritesToken(events[k - 1]);
    }
  }

  lemma {:induction false} UntouchedIdStays(states: seq<State>, events: seq<Event>, d: nat, k: nat)
    requires IsRun(states, events) && d <= k < |states| && IdUntouched(states, events, d, k)
    ensures states[k].store.id == states[d].store.id
    decreases k
  {
    if d < k {
      UntouchedIdStays(states, events, d, k - 1);
      assert StepAt(states, events, k - 1);
      assert !WritesId(states, events, k - 1);
    }
  }

  /** Where no other tab interferes, the sign-out ends the session the request was sent in: it
      overwrites the stamped epoch, and removes the stamped token and the stamped id. */
  lemma UnauthorizedEndsItsOwnSession(states: seq<State>, events: seq<Event>, j: nat, d: nat, b: nat, k: nat, e: nat)
    requires IsSignOutOf401(states, events, d, b, k, e) && j < d && events[j].Start?
    requires events[d] == Unauthorized(events[j].tab, events[j].request)
    ensures HasRequest(states[d], events[j].tab, events[j].request)
    ensures var stamp := states[d].tabs[events[j].tab].requests[events[j].request].stamp;
            && (states[b].store.epoch == stamp.epoch <==> NoneBegins(events, d + 1, b))
            && (TokenUntouched(events, d, k) ==> states[k].store.token == stamp.token == SentToken(states, events, j))
            && (IdUntouched(states, events, d, e) ==> states[e].store.id == stamp.id)
    ensures states[b + 1].store.epoch != states[b].store.epoch
    ensures states[k + 1].store.token == None && states[e + 1].store.id == None
  {
    SignOutRunsOn(states, events, d, b, k, e);
    assert StepAt(states, events, d) && StepAt(states, events, b) && StepAt(states, events, k) && StepAt(states, events, e);
    RequestIsKept(states, events, j, d);
    RequestIsKept(states, events, j, b);
    OwnedAnswersOnly(states, events, j, d);
    EpochTellsWhetherAnyBegan(states, events, j, b);
    assert NoneBegins(events, j + 1, b) <==> NoneBegins(events, d + 1, b);
    RunKeepsEpochs(states, events, b);
    EpochStep(states[b], events[b]);
    if TokenUntouched(events, d, k) { UntouchedTokenStays(states, events, d, k); }
    if IdUntouched(states, events, d, e) { UntouchedIdStays(states, events, d, e); }
  }

  /** Otherwise the removal finds what the last token write of another tab left: the token that it
      wrote, or none. */
  lemma {:induction false} OtherwiseTheLastWriteDecides(states: seq<State>, events: seq<Event>, d: nat, b: nat, k: nat, e: nat)
    returns (m: nat)
    requires IsSignOutOf401(states, events, d, b, k, e) && !TokenUntouched(events, d, k)
    ensures d < m < k && WritesToken(events[m]) && TokenUntouched(events, m + 1, k) && events[m].tab != events[d].tab
    ensures states[k].store.token == states[m + 1].store.token
    ensures states[k].store.token.Some? <==> events[m].WriteToken?
  {
    SignOutRunsOn(states, events, d, b, k, e);
    m := LastTokenWrite(events, d, k);
    UntouchedTokenStays(states, events, m + 1, k);
    assert StepAt(states, events, m);
  }

  lemma {:induction false} LastTokenWrite(events: seq<Event>, d: nat, k: nat) returns (m: nat)
    requires k <= |events| && !TokenUntouched(events, d, k)
    ensures d <= m < k && WritesToken(events[m]) && TokenUntouched(events, m + 1, k)
    decreases k
  {
    m := k - 1;
    if !WritesToken(events[k - 1]) { m := LastTokenWrite(events, d, k - 1); }
  }

  // ---------- newer sessions that are ended ----------

  function SharedTabs(revision: nat, pending: Pending, phase: Phase, other: Tab): seq<Tab> {
    [Tab(revision, pending, map[7 := Request(Stamp(0, Some("old"), Some(0), Some(1)), phase)]), other]
  }

  /** Tab 1 signs in right after the check of tab 0, and its session goes: the epoch is overwritten,
      the token and the id are removed. */
  lemma NewerSessionCanBeEnded()
    ensures IsSignOutOf401(EarlyStates(), EarlyEvents(), 1, 5, 6, 7)
    ensures SentToken(EarlyStates(), EarlyEvents(), 0) == Some("old")
    ensures EarlyStates()[5].store == Store(Some("new"), Some(4), Some(3)) && EarlyStates()[8].store == Store(None, None, Some(5))
    ensures EpochOwner(EarlyEvents(), 5) == TokenOwner(EarlyEvents(), 6) == Some(2)
    ensures TakesFrom(EarlyStates(), EarlyEvents(), 5, 6, 7, 2)
  {
    EarlyRun();
    EpochOwnerIff(EarlyEvents(), 2, 5);
    LastSignInIff(EarlyEvents(), 2, 4);
    assert PutsToken(EarlyEvents(), 2, 4, 6);
    TokenOwnerIff(EarlyEvents(), 2, 6);
  }

  lemma EarlyRun()
    ensures IsSignOutOf401(EarlyStates(), EarlyEvents(), 1, 5, 6, 7)
    ensures SentToken(EarlyStates(), EarlyEvents(), 0) == Some("old")
  {
    forall k | 0 <= k < 8 ensures StepAt(EarlyStates(), EarlyEvents(), k) { EarlyStep(k); }
  }

  lemma EarlyStep(k: nat)
    requires k < 8
    ensures StepAt(EarlyStates(), EarlyEvents(), k)
  {
    if k < 3 { EarlyStepIn(k); } else { EarlyStepOut(k); }
  }

  lemma EarlyStepIn(k: nat)
    requires k < 3
    ensures StepAt(EarlyStates(), EarlyEvents(), k)
  {
    var s, s', e := EarlyStates()[k], EarlyStates()[k + 1], EarlyEvents()[k];
    assert Apply(s, e).tabs[0].requests == s'.tabs[0].requests;
    assert Apply(s, e).tabs == s'.tabs && Apply(s, e).used == s'.used;
  }

  lemma EarlyStepOut(k: nat)
    requires 3 <= k < 8
    ensures StepAt(EarlyStates(), EarlyEvents(), k)
  {
    var s, s', e := EarlyStates()[k], EarlyStates()[k + 1], EarlyEvents()[k];
    assert Apply(s, e).tabs == s'.tabs && Apply(s, e).used == s'.used;
  }

  function EarlyEvents(): (events: seq<Event>)
    ensures |events| == 8
  {
    [ Start(0, 7, 2), Unauthorized(0, 7), SignIn(1, "new", 3), WriteId(1, 4), WriteToken(1),
      BeginClear(0, 5), RemoveToken(0), RemoveId(0) ]
  }

  function EarlyStates(): (states: seq<State>)
    ensures |states| == 9
  {
    var old_, new_ := Store(Some("old"), Some(0), Some(1)), Store(Some("new"), Some(4), Some(3));
    var idle, done := Tab(0, Nothing, map[]), Tab(1, Nothing, map[]);
    [ State(old_, [idle, idle], {0, 1}),
      State(old_, SharedTabs(0, Nothing, AwaitingHeaders, idle), {0, 1, 2}),
      State(old_, SharedTabs(0, WriteEpochThenClear(7), Ended, idle), {0, 1, 2}),
      State(old_.(epoch := Some(3)), SharedTabs(0, WriteEpochThenClear(7), Ended, Tab(1, WriteIdThenToken("new"), map[])), {0, 1, 2, 3}),
      State(new_.(token := Some("old")), SharedTabs(0, WriteEpochThenClear(7), Ended, Tab(1, WriteTokenOnly("new"), map[])), {0, 1, 2, 3, 4}),
      State(new_, SharedTabs(0, WriteEpochThenClear(7), Ended, done), {0, 1, 2, 3, 4}),
      State(new_.(epoch := Some(5)), SharedTabs(1, RemoveTokenThenId, Ended, done), {0, 1, 2, 3, 4, 5}),
      State(Store(None, Some(4), Some(5)), SharedTabs(1, RemoveIdOnly, Ended, done), {0, 1, 2, 3, 4, 5}),
      State(Store(None, None, Some(5)), SharedTabs(1, Nothing, Ended, done), {0, 1, 2, 3, 4, 5}) ]
  }

  /** Tab 1 signs in only after tab 0 has removed the token, and has its id removed: its request 9
      is the session's before that write and not after, though nothing began since its stamp. */
  lemma LaterSessionCanBeEnded()
    ensures IsSignOutOf401(LateStates(), LateEvents(), 1, 2, 3, 8)
    ensures TokenUntouched(LateEvents(), 1, 3) && NoneBegins(LateEvents(), 8, 9)
    ensures TakesFrom(LateStates(), LateEvents(), 2, 3, 8, 4)
    ensures HasRequest(LateStates()[8], 1, 9)
    ensures var stamp := LateStates()[8].tabs[1].requests[9].stamp;
            IsSameSession(LateStates()[8], 1, stamp) && !IsSameSession(LateStates()[9], 1, stamp)
  {
    LateRun();
    LateIdIsNew();
  }

  lemma LateRun()
    ensures IsSignOutOf401(LateStates(), LateEvents(), 1, 2, 3, 8)
  {
    forall k | 0 <= k < 9 ensures StepAt(LateStates(), LateEvents(), k) { LateStep(k); }
  }

  lemma LateIdIsNew()
    ensures IdOwner(LateStates(), LateEvents(), 8) == Some(4)
  {
    LastSignInIff(LateEvents(), 4, 5);
    assert PutsId(LateStates(), LateEvents(), 4, 5, 8);
    IdOwnerIff(LateStates(), LateEvents(), 4, 8);
  }

  lemma LateStep(k: nat)
    requires k < 9
    ensures StepAt(LateStates(), LateEvents(), k)
  {
    if k < 5 { LateStepOut(k); } else { LateStepIn(k); }
  }

  lemma LateStepOut(k: nat)
    requires k < 5
    ensures StepAt(LateStates(), LateEvents(), k)
  {
    var s, s', e := LateStates()[k], LateStates()[k + 1], LateEvents()[k];
    assert Apply(s, e).tabs[0].requests == s'.tabs[0].requests;
    assert Apply(s, e).tabs == s'.tabs && Apply(s, e).used == s'.used;
  }

  lemma LateStepIn(k: nat)
    requires 5 <= k < 9
    ensures StepAt(LateStates(), LateEvents(), k)
  {
    var s, s', e := LateStates()[k], LateStates()[k + 1], LateEvents()[k];
    assert Apply(s, e).tabs[1].requests == s'.tabs[1].requests;
    assert Apply(s, e).tabs == s'.tabs && Apply(s, e).used == s'.used;
  }

  function LateEvents(): (events: seq<Event>)
    ensures |events| == 9
  {
    [ Start(0, 7, 2), Unauthorized(0, 7), BeginClear(0, 5), RemoveToken(0),
      SignIn(1, "new", 3), WriteId(1, 4), WriteToken(1), Start(1, 9, 6), RemoveId(0) ]
  }

  function LateStates(): (states: seq<State>)
    ensures |states| == 10
  {
    var old_, new_ := Store(Some("old"), Some(0), Some(1)), Store(Some("new"), Some(4), Some(3));
    var idle := Tab(0, Nothing, map[]);
    var asking := Tab(1, Nothing, map[9 := Request(Stamp(1, Some("new"), Some(4), Some(3)), AwaitingHeaders)]);
    [ State(old_, [idle, idle], {0, 1}),
      State(old_, SharedTabs(0, Nothing, AwaitingHeaders, idle), {0, 1, 2}),
      State(old_, SharedTabs(0, WriteEpochThenClear(7), Ended, idle), {0, 1, 2}),
      State(old_.(epoch := Some(5)), SharedTabs(1, RemoveTokenThenId, Ended, idle), {0, 1, 2, 5}),
      State(Store(None, Some(0), Some(5)), SharedTabs(1, RemoveIdOnly, Ended, idle), {0, 1, 2, 5}),
      State(Store(None, Some(0), Some(3)), SharedTabs(1, RemoveIdOnly, Ended, Tab(1, WriteIdThenToken("new"), map[])), {0, 1, 2, 3, 5}),
      State(Store(None, Some(4), Some(3)), SharedTabs(1, RemoveIdOnly, Ended, Tab(1, WriteTokenOnly("new"), map[])), {0, 1, 2, 3, 4, 5}),
      State(new_, SharedTabs(1, RemoveIdOnly, Ended, Tab(1, Nothing, map[])), {0, 1, 2, 3, 4, 5}),
      State(new_, SharedTabs(1, RemoveIdOnly, Ended, asking), {0, 1, 2, 3, 4, 5, 6}),
      State(new_.(id := None), SharedTabs(1, Nothing, Ended, asking), {0, 1, 2, 3, 4, 5, 6}) ]
  }
}
