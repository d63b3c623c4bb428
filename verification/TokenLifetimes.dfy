/** What a leaf is good for, and until when: a login's, a refresh's and a password change's
  * (src/lib/auth.ts:1046-1133, 1339-1388), and that logging out succeeds (src/lib/auth.ts:478-566). */
module TokenLifetimes {
  import opened Options
  import opened TokenFamilies
  import opened TokenVerification

  /** Nothing that happens along a run touches the leaf's family or its user. */
  ghost predicate Undisturbed(s: Auth, es: seq<Event>, t: Token)
    decreases |es|
  {
    es == [] || (FamilyRow(Step(s, es[0]).db, t) == FamilyRow(s.db, t)
                 && UserRow(Step(s, es[0]).db, t) == UserRow(s.db, t) && Undisturbed(Step(s, es[0]), es[1..], t))
  }

  lemma {:induction false} RowsStay(s: Auth, es: seq<Event>, t: Token)
    requires Undisturbed(s, es, t)
    ensures FamilyRow(Run(s, es).db, t) == FamilyRow(s.db, t) && UserRow(Run(s, es).db, t) == UserRow(s.db, t)
    decreases |es|
  {
    if es != [] {
      RowsStay(Step(s, es[0]), es[1..], t);
    }
  }

  /** A leaf that strict verification would accept but for the clock. */
  predicate InForce(d: Db, t: Token) {
    && t in d.issued && t.userId in d.users && d.users[t.userId] == User(t.tokenVersion, true)
    && t.familyId in d.families && IsCurrent(d, t) && d.families[t.familyId].revokedAt.None?
  }

  lemma InForceIsAcceptedExactly(s: Auth, t: Token)
    requires Sound(s) && InForce(s.db, t)
    ensures Accepts(s, t, false, false)
       <==> s.db.now / 1000 < t.exp && s.db.now < t.sessionStartedAt + ABSOLUTE_LIFETIME_MS
  {
    assert s.db.families[t.familyId].expiresAt == t.sessionStartedAt + ABSOLUTE_LIFETIME_MS;
    if Blacklisted(s, t.jti) {
      assert Dead(s.db, t);
    }
  }

  /** While nothing else happens to its family or its user, a leaf in force is accepted exactly until the
    * second it expires in and within its session's absolute end. */
  lemma AcceptedExactlyUntil(s: Auth, es: seq<Event>, t: Token)
    requires Sound(s) && InForce(s.db, t) && Undisturbed(s, es, t)
    ensures var r := Run(s, es);
      Accepts(r, t, false, false) <==> r.db.now / 1000 < t.exp && r.db.now < t.sessionStartedAt + ABSOLUTE_LIFETIME_MS
  {
    RunKeepsSound(s, es);
    RunGrows(s, es);
    RowsStay(s, es, t);
    assert InForce(Run(s, es).db, t);
    InForceIsAcceptedExactly(Run(s, es), t);
  }

  // ------------------------------------------------------------ the three signers

  /** `o` is the one leaf this step signs. */
  predicate Signs(s: Auth, e: Event, o: Token) {
    o in Step(s, e).db.issued && o !in s.db.issued
  }

  lemma RefreshSigns(s: Auth, t: Token, version: nat, exp: int) returns (o: Token)
    requires Sound(s) && Wins(s.db, t) && VersionReached(s.db, t.userId, version)
    ensures Signs(s, Refresh(t, version, exp), o)
    ensures forall p :: Signs(s, Refresh(t, version, exp), p) ==> p == o
    ensures o.exp == exp && o.tokenVersion == version && o.userId == t.userId && o.familyId == t.familyId
    ensures o.sessionStartedAt == t.sessionStartedAt
    ensures t.userId in s.db.users && s.db.users[t.userId] == User(version, true) ==>
      InForce(Step(s, Refresh(t, version, exp)).db, o)
  {
    o := Successor(s.db, t, version, exp);
    assert o.jti == s.db.nextId;
  }

  /**
   * A refresh prolongs the session: the leaf it signs, for the user's version, is accepted exactly until
   * the expiry it was asked for and within the absolute end of the login it descends from.
   */
  lemma RefreshedLeafLives(s: Auth, t: Token, version: nat, exp: int, o: Token, es: seq<Event>)
    requires Sound(s) && Wins(s.db, t) && t.userId in s.db.users && s.db.users[t.userId] == User(version, true)
    requires Signs(s, Refresh(t, version, exp), o) && Undisturbed(Step(s, Refresh(t, version, exp)), es, o)
    ensures var r := Run(Step(s, Refresh(t, version, exp)), es);
      Accepts(r, o, false, false) <==> r.db.now / 1000 < exp && r.db.now < t.sessionStartedAt + ABSOLUTE_LIFETIME_MS
  {
    var signed := RefreshSigns(s, t, version, exp);
    StepKeepsSound(s, Refresh(t, version, exp));
    AcceptedExactlyUntil(Step(s, Refresh(t, version, exp)), es, o);
  }

  lemma LoginSigns(s: Auth, u: nat, version: nat, started: int, exp: int) returns (o: Token)
    requires Sound(s) && u in s.db.users && s.db.users[u] == User(version, true)
    ensures Signs(s, Database(Issue(u, version, started, exp)), o)
    ensures forall p :: Signs(s, Database(Issue(u, version, started, exp)), p) ==> p == o
    ensures o.exp == exp && o.sessionStartedAt == started && o.userId == u
    ensures InForce(Step(s, Database(Issue(u, version, started, exp))).db, o)
  {
    o := Opened(s.db, u, version, started, exp).1;
    assert o.jti == s.db.nextId + 1;
  }

  /** A login's leaf is accepted exactly until its expiry and within thirty days of the login. */
  lemma LoginLeafLives(s: Auth, u: nat, version: nat, started: int, exp: int, o: Token, es: seq<Event>)
    requires Sound(s) && u in s.db.users && s.db.users[u] == User(version, true)
    requires Signs(s, Database(Issue(u, version, started, exp)), o)
    requires Undisturbed(Step(s, Database(Issue(u, version, started, exp))), es, o)
    ensures var r := Run(Step(s, Database(Issue(u, version, started, exp))), es);
      Accepts(r, o, false, false) <==> r.db.now / 1000 < exp && r.db.now < started + 30 * 24 * 60 * 60 * 1000
  {
    var signed := LoginSigns(s, u, version, started, exp);
    StepKeepsSound(s, Database(Issue(u, version, started, exp)));
    AcceptedExactlyUntil(Step(s, Database(Issue(u, version, started, exp))), es, o);
  }

  lemma ReissueSigns(s: Auth, t: Token, exp: int) returns (o: Token)
    requires Sound(s) && t in s.db.issued && t.userId in s.db.users && s.db.users[t.userId].enabled
    ensures Signs(s, PasswordReissue(t, exp), o)
    ensures forall p :: Signs(s, PasswordReissue(t, exp), p) ==> p == o
    ensures o.exp == exp && o.sessionStartedAt == s.db.now && InForce(Step(s, PasswordReissue(t, exp)).db, o)
  {
    o := Opened(Retired(s.db, t), t.userId, s.db.users[t.userId].tokenVersion + 1, s.db.now, exp).1;
    assert o.jti == s.db.nextId + 1;
  }

  /** The session a password change leaves is a login of its own. */
  lemma ReissuedLeafLives(s: Auth, t: Token, exp: int, o: Token, es: seq<Event>)
    requires Sound(s) && t in s.db.issued && t.userId in s.db.users && s.db.users[t.userId].enabled
    requires Signs(s, PasswordReissue(t, exp), o) && Undisturbed(Step(s, PasswordReissue(t, exp)), es, o)
    ensures var r := Run(Step(s, PasswordReissue(t, exp)), es);
      Accepts(r, o, false, false) <==> r.db.now / 1000 < exp && r.db.now < s.db.now + ABSOLUTE_LIFETIME_MS
  {
    var signed := ReissueSigns(s, t, exp);
    StepKeepsSound(s, PasswordReissue(t, exp));
    AcceptedExactlyUntil(Step(s, PasswordReissue(t, exp)), es, o);
  }

  /** Disabling an account refuses all its leaves at once, and enabling it again accepts those in force. */
  lemma DisablingSuspends(s: Auth, t: Token, on: bool, allowConsumed: bool, ignoreExp: bool)
    requires Sound(s) && t.userId in s.db.users
    ensures var r := Step(s, Database(SetEnabled(t.userId, on)));
      && (!on ==> !Accepts(r, t, allowConsumed, ignoreExp))
      && (on && s.db.users[t.userId].enabled ==>
            (Accepts(r, t, allowConsumed, ignoreExp) <==> Accepts(s, t, allowConsumed, ignoreExp)))
      && (on && InForce(r.db, t) ==>
            (Accepts(r, t, false, false)
             <==> s.db.now / 1000 < t.exp && s.db.now < t.sessionStartedAt + ABSOLUTE_LIFETIME_MS))
  {
    var r := Step(s, Database(SetEnabled(t.userId, on)));
    StepKeepsSound(s, Database(SetEnabled(t.userId, on)));
    if on && s.db.users[t.userId].enabled {
      assert r == s;
    }
    if on && InForce(r.db, t) {
      InForceIsAcceptedExactly(r, t);
    }
  }

  /** A changed password outdates, and a deleted account ends, every leaf signed for the user before. */
  lemma AccountChangesEnd(d: Db, t: Token, allowConsumed: bool, ignoreExp: bool)
    requires Consistent(d) && t in d.issued && t.userId in d.users
    ensures !AcceptsUnindexed(DbStep(d, ChangePassword(t.userId)), t, allowConsumed, ignoreExp)
    ensures !AcceptsUnindexed(DbStep(d, DeleteUser(t.userId)), t, allowConsumed, ignoreExp)
    ensures Outdated(DbStep(d, ChangePassword(t.userId)), t) && Outdated(DbStep(d, DeleteUser(t.userId)), t)
  {
  }

  /** Deleting an account deletes its families and no others. */
  lemma DeletionTakesFamilies(d: Db, u: nat, f: nat)
    ensures f in DbStep(d, DeleteUser(u)).families <==> f in d.families && d.families[f].userId != u
  {
  }

  /** Every leaf expires as time passes, and so does every family. */
  lemma TimeEndsAll(s: Auth, t: Token, to: int, allowConsumed: bool)
    requires to >= s.db.now && Sound(s)
    ensures to / 1000 >= t.exp ==> !Accepts(Step(s, Database(Tick(to))), t, allowConsumed, false)
    ensures to >= t.sessionStartedAt + ABSOLUTE_LIFETIME_MS ==>
      forall ignoreExp :: !Accepts(Step(s, Database(Tick(to))), t, allowConsumed, ignoreExp)
  {
    StepKeepsSound(s, Database(Tick(to)));
  }

  /** A new account can be logged in to. */
  lemma NewAccountLogsIn(s: Auth, exp: int) returns (o: Token)
    requires Sound(s) && s.db.now / 1000 < exp
    ensures var added := Step(s, Database(AddUser));
      && s.db.nextId in added.db.users && s.db.nextId !in s.db.users
      && Accepts(Step(added, Database(Issue(s.db.nextId, 0, s.db.now, exp))), o, false, false)
  {
    var u, added := s.db.nextId, Step(s, Database(AddUser));
    StepKeepsSound(s, Database(AddUser));
    o := LoginSigns(added, u, 0, s.db.now, exp);
    StepKeepsSound(added, Database(Issue(u, 0, s.db.now, exp)));
    InForceIsAcceptedExactly(Step(added, Database(Issue(u, 0, s.db.now, exp))), o);
  }

  // -------------------------------------------------------------------- logging out

  /** A signed leaf's family is live, or a logout finds it already invalid. */
  lemma LogoutFindsItsFamily(d: Db, t: Token)
    requires Chained(d) && t in d.issued
    ensures FamilyLive(d, t.familyId, t.userId) || FoundInvalid(d, t)
  {
  }

  /** Logging out succeeds, whatever state the family is in and whatever runs before the re-read: the leaf is
    * on its way into the index. */
  lemma LogoutSucceeds(s: Auth, t: Token, between: seq<Event>)
    requires Sound(s) && t in s.db.issued
    ensures var r := Step(s, LogoutUpdate(t));
      && (FamilyLive(s.db, t.familyId, t.userId) ==> t in r.indexing)
      && (!FamilyLive(s.db, t.familyId, t.userId) ==>
            && t in r.checking
            && (t in Run(r, between).checking ==> t in Step(Run(r, between), LogoutRecheck(t)).indexing))
  {
    var r := Step(s, LogoutUpdate(t));
    if !FamilyLive(s.db, t.familyId, t.userId) {
      assert r.db == s.db;
      LogoutFindsItsFamily(s.db, t);
      StepKeepsSound(s, LogoutUpdate(t));
      RunSees(r, between, t);
      LogoutFindsItsFamily(Run(r, between).db, t);
    }
  }

  /** A revoke-only binding that does not name the family's user and end revokes nothing. */
  lemma BindingMustMatch(s: Auth, f: nat, u: nat, at: int)
    requires f in s.db.families ==> s.db.families[f].userId != u || s.db.families[f].expiresAt != at
    ensures Step(s, RevokeByBinding(f, u, at)) == s
  {
  }

  /** An indexed leaf stays indexed in Redis and in memory until it has expired, and in Redis little longer. */
  lemma IndexOutlivesLeaf(s: Auth, t: Token)
    requires t in s.indexing
    ensures var r := Step(s, IndexLeaf(t));
      && t.jti in r.memory && t.jti in r.redis
      && (forall now :: LeafUnexpired(t, now) ==> now < r.memory[t.jti] && now < r.redis[t.jti])
      && s.db.now + 1000 <= r.redis[t.jti]
      && (r.redis[t.jti] <= t.exp * 1000 + 999 || r.redis[t.jti] <= s.db.now + 1000)
  {
  }

  /** Maintenance deletes exactly the rows that have been past their end for more than a day. */
  lemma PruneDeletesExactly(d: Db, f: nat)
    requires f in d.families
    ensures f in DbStep(d, Prune).families <==> d.now - d.families[f].expiresAt <= 24 * 60 * 60 * 1000
    ensures f in DbStep(d, Prune).families ==> DbStep(d, Prune).families[f] == d.families[f]
  {
  }

  /** A password change puts the leaf it was made with on its way into the index. */
  lemma ReissueIndexesOldLeaf(s: Auth, t: Token, exp: int)
    requires t in s.db.issued && t.userId in s.db.users
    ensures t in Step(s, PasswordReissue(t, exp)).indexing
  {
  }

  /** A call that has made its last statement is in flight no more. */
  lemma CallsEnd(s: Auth, t: Token)
    ensures t !in Step(s, FinishLoser(t)).losers && t !in Step(s, LogoutRecheck(t)).checking
    ensures t !in Step(s, IndexLeaf(t)).indexing
    ensures t !in s.losers ==> Step(s, FinishLoser(t)) == s
    ensures t !in s.indexing ==> Step(s, IndexLeaf(t)) == s
  {
  }
}
