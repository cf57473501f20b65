/** The module of one tab over the shared storage (`packages/web/src/auth.ts`), with nothing
    interrupting it: what each function writes, and that it is the event model's writes in order. */
module SessionTab {
  import opened Wrappers
  import opened Session

  /** The localStorage of the browser; `used` are the random ids drawn in it so far. */
  class Browser {
    var token: Option<Token>
    var id: Option<Nonce>
    var epoch: Option<Nonce>
    ghost var used: set<Nonce>

    function Contents(): Store
      reads this
    {
      Store(token, id, epoch)
    }

    ghost predicate Valid()
      reads this
    {
      && (id.Some? ==> id.value in used)
      && (epoch.Some? ==> epoch.value in used)
    }

    constructor ()
      ensures Valid() && Contents() == Store(None, None, None)
    {
      token, id, epoch := None, None, None;
      used := {};
    }
  }

  /** A stamp that a request may carry: its ids were drawn before. */
  ghost predicate IsDrawn(stamp: Stamp, used: set<Nonce>) {
    (stamp.id.Some? ==> stamp.id.value in used) && (stamp.epoch.Some? ==> stamp.epoch.value in used)
  }

  class AuthModule {
    const storage: Browser
    var revision: nat

    constructor (storage: Browser)
      ensures this.storage == storage && revision == 0
    {
      this.storage := storage;
      revision := 0;
    }

    predicate IsSame(stamp: Stamp)
      reads this, storage
    {
      && stamp.revision == revision && stamp.token == storage.token
      && stamp.id == storage.id && stamp.epoch == storage.epoch
    }

    /** A token stored before ids existed gets its id first, so that the stamp stays its own. */
    method TakeStamp(mint: Nonce) returns (stamp: Stamp)
      requires storage.Valid() && mint !in storage.used
      modifies storage
      ensures storage.Valid() && IsSame(stamp) && IsDrawn(stamp, storage.used)
      ensures storage.Contents() == WithMintedId(old(storage.Contents()), mint)
    {
      if storage.token.Some? && storage.id.None? {
        storage.id := Some(mint);
        storage.used := storage.used + {mint};
      }
      stamp := Stamp(revision, storage.token, storage.id, storage.epoch);
    }

    /** No stamp drawn before is the session's after it: not in this tab, and not in any other. */
    method SetToken(token: Token, epoch: Nonce, id: Nonce)
      requires storage.Valid() && epoch !in storage.used && id !in storage.used && id != epoch
      modifies this, storage
      ensures storage.Valid() && revision == old(revision) + 1
      ensures storage.Contents() == Store(Some(token), Some(id), Some(epoch))
      ensures forall stamp: Stamp :: IsDrawn(stamp, old(storage.used)) ==> stamp.epoch != storage.epoch && !IsSame(stamp)
    {
      revision := revision + 1;
      storage.epoch := Some(epoch);
      storage.id := Some(id);
      storage.token := Some(token);
      storage.used := storage.used + {epoch, id};
    }

    method ClearToken(epoch: Nonce)
      requires storage.Valid() && epoch !in storage.used
      modifies this, storage
      ensures storage.Valid() && revision == old(revision) + 1
      ensures storage.Contents() == Store(None, None, Some(epoch))
      ensures forall stamp: Stamp :: IsDrawn(stamp, old(storage.used)) ==> stamp.epoch != storage.epoch && !IsSame(stamp)
    {
      revision := revision + 1;
      storage.epoch := Some(epoch);
      storage.token := None;
      storage.id := None;
      storage.used := storage.used + {epoch};
    }

    /** Moves past what this tab started, without touching the other tab's sign-in. */
    method EndObservedSession()
      modifies this
      ensures revision == old(revision) + 1 && storage.Contents() == old(storage.Contents())
      ensures forall stamp: Stamp :: old(IsSame(stamp)) ==> !IsSame(stamp)
    {
      revision := revision + 1;
    }
  }

  /** The three writes of a sign-in are the three events of the model. */
  lemma SetTokenIsThreeEvents(s: State, t: nat, token: Token, epoch: Nonce, id: Nonce)
    requires t < |s.tabs| && s.tabs[t].pending == Nothing && epoch !in s.used && id !in s.used && id != epoch
    ensures Enabled(s, SignIn(t, token, epoch))
    ensures var s1 := Apply(s, SignIn(t, token, epoch));
            && Enabled(s1, WriteId(t, id))
            && var s2 := Apply(s1, WriteId(t, id));
               && Enabled(s2, WriteToken(t))
               && Apply(s2, WriteToken(t)).store == Store(Some(token), Some(id), Some(epoch))
               && Apply(s2, WriteToken(t)).tabs[t] == s.tabs[t].(revision := s.tabs[t].revision + 1)
  {}

  /** And those of a sign-out. */
  lemma ClearTokenIsThreeEvents(s: State, t: nat, epoch: Nonce)
    requires t < |s.tabs| && s.tabs[t].pending == Nothing && epoch !in s.used
    ensures Enabled(s, SignOut(t, epoch))
    ensures var s1 := Apply(s, SignOut(t, epoch));
            && Enabled(s1, RemoveToken(t))
            && var s2 := Apply(s1, RemoveToken(t));
               && Enabled(s2, RemoveId(t))
               && Apply(s2, RemoveId(t)).store == Store(None, None, Some(epoch))
               && Apply(s2, RemoveId(t)).tabs[t] == s.tabs[t].(revision := s.tabs[t].revision + 1)
  {}
}
