/** What every interleaving of the token-family steps guarantees. */
module TokenGuarantees {
  import opened TokenFamilies

  lemma FreshRunIsSound(s: Auth, es: seq<Event>)
    requires Fresh(s)
    ensures Sound(Run(s, es))
  {
    RunKeepsSound(s, es);
  }

  // ---- one chain, one current leaf ----

  /**
   * In every reachable state the leaves issued for a stored family form one chain: exactly one per
   * generation up to the row's, and the last one, and only it, is current.
   */
  lemma RotationsFormOneChain(s: Auth, es: seq<Event>, f: nat, g: nat)
    requires Fresh(s) && f in Run(s, es).db.families && g <= Run(s, es).db.families[f].generation
    ensures var d := Run(s, es).db;
      exists t :: t in d.issued && t.familyId == f && t.generation == g
        && (IsCurrent(d, t) <==> g == d.families[f].generation)
        && (forall o :: o in d.issued && o.familyId == f && o.generation == g ==> o == t)
  {
    FreshRunIsSound(s, es);
    var d := Run(s, es).db;
    assert HasLeaf(d, f, g);
    var t :| t in d.issued && t.familyId == f && t.generation == g;
  }

  /** At most one leaf of a family passes strict verification in any reachable state. */
  lemma OneLeafVerifies(s: Auth, es: seq<Event>, t: Token, o: Token, ignoreExp: bool)
    requires Fresh(s) && t.familyId == o.familyId
    requires Accepts(Run(s, es), t, false, ignoreExp) && Accepts(Run(s, es), o, false, ignoreExp)
    ensures t == o
  {
    FreshRunIsSound(s, es);
  }

  // ---- reuse revokes the family ----

  /** A leaf the family has moved past. */
  ghost predicate Consumed(d: Db, t: Token) {
    t in d.issued && (t.familyId in d.families ==> t.generation < d.families[t.familyId].generation)
  }

  lemma ConsumedStays(d: Db, e: DbEvent, t: Token)
    requires IdsKnown(d) && Consumed(d, t)
    ensures Consumed(DbStep(d, e), t)
  {
  }

  lemma {:induction false} ConsumedForever(s: Auth, es: seq<Event>, t: Token)
    requires Sound(s) && Consumed(s.db, t)
    ensures Consumed(Run(s, es).db, t)
    decreases |es|
  {
    if es != [] {
      if Transaction(s, es[0]).Some? {
        ConsumedStays(s.db, Transaction(s, es[0]).value, t);
      }
      StepKeepsSound(s, es[0]);
      ConsumedForever(Step(s, es[0]), es[1..], t);
    }
  }

  /** From a failed compare-and-swap on: the call still has its revocation to do, or it is done. */
  predicate LosingOrGone(s: Auth, t: Token) {
    t in s.losers || FamilyGone(s.db, t.familyId)
  }

  lemma LosingOrGoneStays(s: Auth, e: Event, t: Token)
    requires Sound(s) && t in s.db.issued && LosingOrGone(s, t)
    ensures LosingOrGone(Step(s, e), t) && t in Step(s, e).db.issued
    ensures e == FinishLoser(t) ==> FamilyGone(Step(s, e).db, t.familyId)
  {
    if Transaction(s, e).Some? {
      IssuedGrows(s.db, Transaction(s, e).value);
      if FamilyGone(s.db, t.familyId) {
        GoneStaysGone(s.db, Transaction(s, e).value, t.familyId);
      }
    }
  }

  lemma {:induction false} LosingOrGoneRun(s: Auth, es: seq<Event>, t: Token)
    requires Sound(s) && t in s.db.issued && LosingOrGone(s, t)
    ensures LosingOrGone(Run(s, es), t) && t in Run(s, es).db.issued
    decreases |es|
  {
    if es != [] {
      LosingOrGoneStays(s, es[0], t);
      StepKeepsSound(s, es[0]);
      LosingOrGoneRun(Step(s, es[0]), es[1..], t);
    }
  }

  lemma FinishedLoserKills(
    s: Auth, t: Token, between: seq<Event>, later: seq<Event>, o: Token, allowConsumed: bool, ignoreExp: bool)
    requires Sound(s) && t in s.losers && o.familyId == t.familyId
    ensures !Accepts(Run(Step(Run(s, between), FinishLoser(t)), later), o, allowConsumed, ignoreExp)
  {
    LosingOrGoneRun(s, between, t);
    var n := Run(s, between);
    RunKeepsSound(s, between);
    LosingOrGoneStays(n, FinishLoser(t), t);
    var r := Step(n, FinishLoser(t));
    StepKeepsSound(n, FinishLoser(t));
    GoneForever(r, later, t.familyId);
    DeadIsRejected(Run(r, later).db, o, allowConsumed, ignoreExp);
  }

  lemma ReplayLoses(s: Auth, t: Token, version: nat, exp: int)
    requires Consumed(s.db, t) && VersionReached(s.db, t.userId, version)
    ensures var r := Step(s, Refresh(t, version, exp));
      t in r.losers && r.db == s.db
  {
  }

  /**
   * Once a refresh has won with a leaf, presenting it again, any run `mid` later, loses and changes
   * nothing; and once that losing call has finished, any run `between` later, no leaf of the family
   * verifies in any state `later` reaches: not the winner's successors, not for an established
   * connection, not with the leaf's own expiry ignored.
   */
  lemma ReuseKillsFamily(
    s: Auth, t: Token, version: nat, exp: int, mid: seq<Event>, version': nat, exp': int,
    between: seq<Event>, later: seq<Event>, o: Token, allowConsumed: bool, ignoreExp: bool)
    requires Sound(s) && Wins(s.db, t) && VersionReached(s.db, t.userId, version) && o.familyId == t.familyId
    requires VersionReached(Run(Step(s, Refresh(t, version, exp)), mid).db, t.userId, version')
    ensures var m := Run(Step(s, Refresh(t, version, exp)), mid);
      var lost := Step(m, Refresh(t, version', exp'));
      && lost.db == m.db
      && !Accepts(Run(Step(Run(lost, between), FinishLoser(t)), later), o, allowConsumed, ignoreExp)
  {
    var won := Step(s, Refresh(t, version, exp));
    StepKeepsSound(s, Refresh(t, version, exp));
    assert Consumed(won.db, t);
    var m := Run(won, mid);
    ConsumedForever(won, mid, t);
    RunKeepsSound(won, mid);
    ReplayLoses(m, t, version', exp');
    StepKeepsSound(m, Refresh(t, version', exp'));
    FinishedLoserKills(Step(m, Refresh(t, version', exp')), t, between, later, o, allowConsumed, ignoreExp);
  }

  // ---- revocation by the holder ----

  /** Logging out with any issued leaf, current or consumed, ends the family for good. */
  lemma LogoutEndsFamily(s: Auth, t: Token, later: seq<Event>, o: Token, allowConsumed: bool, ignoreExp: bool)
    requires Sound(s) && t in s.db.issued && o.familyId == t.familyId
    ensures !Accepts(Run(Step(s, LogoutUpdate(t)), later), o, allowConsumed, ignoreExp)
  {
    var r := Step(s, LogoutUpdate(t));
    StepKeepsSound(s, LogoutUpdate(t));
    assert t in r.db.issued;
    GoneForever(r, later, t.familyId);
    DeadIsRejected(Run(r, later).db, o, allowConsumed, ignoreExp);
  }

  /** A revoke-only binding ends its own family, if it is still the one it names, and touches no other. */
  lemma BindingRevokesOnlyItsFamily(s: Auth, f: nat, u: nat, at: int, g: nat, later: seq<Event>)
    requires Sound(s) && f < s.db.nextId
    ensures g != f ==> (g in Step(s, RevokeByBinding(f, u, at)).db.families <==> g in s.db.families)
    ensures g != f && g in s.db.families ==> Step(s, RevokeByBinding(f, u, at)).db.families[g] == s.db.families[g]
    ensures f in s.db.families && s.db.families[f].userId == u && s.db.families[f].expiresAt == at
      ==> FamilyGone(Run(Step(s, RevokeByBinding(f, u, at)), later).db, f)
  {
    var r := Step(s, RevokeByBinding(f, u, at));
    if f in s.db.families && s.db.families[f].userId == u && s.db.families[f].expiresAt == at {
      GoneForever(r, later, f);
    }
  }

  /** The session a password change reissues. */
  function Reissued(d: Db, t: Token, exp: int): Token
    requires t.userId in d.users
  {
    Token(t.userId, d.users[t.userId].tokenVersion + 1, d.now, d.nextId + 1, d.nextId, 0, exp)
  }

  lemma ReissuedVerifies(s: Auth, t: Token, exp: int)
    requires Sound(s) && t in s.db.issued && t.userId in s.db.users && s.db.users[t.userId].enabled
    requires LeafUnexpired(Reissued(s.db, t, exp), s.db.now)
    ensures Accepts(Step(s, PasswordReissue(t, exp)), Reissued(s.db, t, exp), false, false)
  {
  }

  /** A password change kills every leaf the user held, and the session it reissues verifies at once. */
  lemma PasswordChangeReplacesSessions(
    s: Auth, t: Token, exp: int, later: seq<Event>, o: Token, allowConsumed: bool, ignoreExp: bool)
    requires Sound(s) && t in s.db.issued && t.userId in s.db.users
    requires o in s.db.issued && o.userId == t.userId
    ensures !Accepts(Run(Step(s, PasswordReissue(t, exp)), later), o, allowConsumed, ignoreExp)
    ensures s.db.users[t.userId].enabled && LeafUnexpired(Reissued(s.db, t, exp), s.db.now) ==>
      Accepts(Step(s, PasswordReissue(t, exp)), Reissued(s.db, t, exp), false, false)
  {
    var r := Step(s, PasswordReissue(t, exp));
    if s.db.users[t.userId].enabled && LeafUnexpired(Reissued(s.db, t, exp), s.db.now) {
      ReissuedVerifies(s, t, exp);
    }
    OutdatedForever(r, later, o);
    DeadIsRejected(Run(r, later).db, o, allowConsumed, ignoreExp);
  }

  // ---- the revocation indexes add nothing ----

  /** While the database answers, memory and Redis never change a verdict of a reachable state. */
  lemma IndexNeverDecides(s: Auth, es: seq<Event>, t: Token, allowConsumed: bool, ignoreExp: bool)
    requires Fresh(s)
    ensures Accepts(Run(s, es), t, allowConsumed, ignoreExp)
      <==> AcceptsUnindexed(Run(s, es).db, t, allowConsumed, ignoreExp)
  {
    FreshRunIsSound(s, es);
    var r := Run(s, es);
    if AcceptsUnindexed(r.db, t, allowConsumed, ignoreExp) && Blacklisted(r, t.jti) {
      DeadIsRejected(r.db, t, allowConsumed, ignoreExp);
    }
  }

  // ---- the absolute lifetime ----

  /** No chain of refreshes keeps any leaf valid past thirty days from the login it descends from. */
  lemma NoLeafOutlivesSession(s: Auth, es: seq<Event>, t: Token, login: Token, allowConsumed: bool, ignoreExp: bool)
    requires Fresh(s)
    requires login in Run(s, es).db.issued && login.familyId == t.familyId
    requires Accepts(Run(s, es), t, allowConsumed, ignoreExp)
    ensures Run(s, es).db.now < login.sessionStartedAt + ABSOLUTE_LIFETIME_MS
  {
    FreshRunIsSound(s, es);
  }

  // ---- maintenance ----

  /** `p` is `d` without some rows that have expired. */
  ghost predicate Pruned(d: Db, p: Db, gone: set<nat>) {
    && p == d.(families := d.families - gone)
    && (forall f :: f in gone ==> f < d.nextId)
    && (forall f :: f in gone && f in d.families ==> d.families[f].expiresAt <= d.now)
  }

  lemma RevokedPruned(d: Db, p: Db, gone: set<nat>, f: nat, u: nat)
    requires Pruned(d, p, gone)
    ensures Revoked(p, f, u) == Revoked(d, f, u) - gone
  {
  }

  lemma UpdatePruned(m: map<nat, Family>, gone: set<nat>, f: nat, row: Family)
    requires f !in gone
    ensures (m - gone)[f := row] == m[f := row] - gone
  {
  }

  lemma PrunedReissue(d: Db, p: Db, gone: set<nat>, t: Token, exp: int)
    requires IdsKnown(d) && Pruned(d, p, gone)
    ensures Pruned(DbStep(d, Reissue(t, exp)), DbStep(p, Reissue(t, exp)), gone)
  {
    if t in d.issued && t.userId in d.users {
      RevokedPruned(d, p, gone, t.familyId, t.userId);
      UpdatePruned(Revoked(d, t.familyId, t.userId), gone, d.nextId,
        Opened(Retired(d, t), t.userId, d.users[t.userId].tokenVersion + 1, d.now, exp).0);
    }
  }

  lemma PrunedStep(d: Db, p: Db, gone: set<nat>, e: DbEvent)
    requires IdsKnown(d) && Pruned(d, p, gone)
    ensures Pruned(DbStep(d, e), DbStep(p, e), gone)
  {
    match e {
      case Issue(u, version, started, exp) =>
        UpdatePruned(d.families, gone, d.nextId, Opened(d, u, version, started, exp).0);
      case Consume(t, version, exp) =>
        if Wins(d, t) {
          UpdatePruned(d.families, gone, t.familyId,
            d.families[t.familyId].(currentJti := d.nextId, generation := t.generation + 1));
        }
      case Revoke(f, u) => RevokedPruned(d, p, gone, f, u);
      case Reissue(t, exp) =>
        PrunedReissue(d, p, gone, t, exp);
      case DeleteUser(u) => assert DbStep(p, e).families == DbStep(d, e).families - gone;
      case Prune => assert DbStep(p, e).families == DbStep(d, e).families - gone;
      case _ =>
    }
  }

  /** Whole processes that differ in pruned rows only. */
  ghost predicate PrunedAuth(s: Auth, p: Auth, gone: set<nat>) {
    Pruned(s.db, p.db, gone) && p == s.(db := p.db)
  }

  lemma SameTransaction(s: Auth, p: Auth, gone: set<nat>, e: Event)
    requires PrunedAuth(s, p, gone)
    ensures Transaction(s, e) == Transaction(p, e)
  {
  }

  lemma PrunedDbAfter(s: Auth, p: Auth, gone: set<nat>, e: Event)
    requires Sound(s) && PrunedAuth(s, p, gone)
    ensures Pruned(DbAfter(s, e), DbAfter(p, e), gone)
  {
    SameTransaction(s, p, gone, e);
    if Transaction(s, e).Some? {
      PrunedStep(s.db, p.db, gone, Transaction(s, e).value);
    }
  }

  /** Nothing a statement reports back tells a pruned row from an expired one. */
  lemma SameReports(s: Auth, p: Auth, gone: set<nat>, t: Token)
    requires Sound(s) && PrunedAuth(s, p, gone)
    ensures Wins(s.db, t) == Wins(p.db, t)
    ensures FamilyLive(s.db, t.familyId, t.userId) == FamilyLive(p.db, t.familyId, t.userId)
    ensures t in s.checking ==> FoundInvalid(s.db, t) == FoundInvalid(p.db, t)
  {
  }

  lemma PrunedAuthStep(s: Auth, p: Auth, gone: set<nat>, e: Event)
    requires Sound(s) && PrunedAuth(s, p, gone)
    ensures PrunedAuth(Step(s, e), Step(p, e), gone)
  {
    PrunedDbAfter(s, p, gone, e);
    match e
    case Refresh(t, _, _) => SameReports(s, p, gone, t);
    case LogoutUpdate(t) => SameReports(s, p, gone, t);
    case LogoutRecheck(t) => SameReports(s, p, gone, t);
    case _ =>
  }

  lemma {:induction false} PrunedRun(s: Auth, p: Auth, gone: set<nat>, es: seq<Event>)
    requires Sound(s) && PrunedAuth(s, p, gone)
    ensures PrunedAuth(Run(s, es), Run(p, es), gone)
    decreases |es|
  {
    if es != [] {
      PrunedAuthStep(s, p, gone, es[0]);
      StepKeepsSound(s, es[0]);
      PrunedRun(Step(s, es[0]), Step(p, es[0]), gone, es[1..]);
    }
  }

  /** Deleting rows a day past expiry changes no verdict, then or after any further run. */
  lemma PruningIsInvisible(s: Auth, es: seq<Event>, t: Token, allowConsumed: bool, ignoreExp: bool)
    requires Sound(s)
    ensures Accepts(Run(Step(s, Database(Prune)), es), t, allowConsumed, ignoreExp)
      <==> Accepts(Run(s, es), t, allowConsumed, ignoreExp)
  {
    var p := Step(s, Database(Prune));
    var gone := s.db.families.Keys - p.db.families.Keys;
    assert p.db.families == s.db.families - gone;
    PrunedRun(s, p, gone, es);
  }
}
