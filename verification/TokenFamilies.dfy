/**
 * Refresh-token families of `src/lib/auth.ts`: single-use leaves, reuse that revokes the family, and
 * the revocation index. Hashes are injective (a family stores the leaf's jti itself), signatures are
 * unforgeable (only `issued` tokens exist), and ids come fresh from one counter.
 */
module TokenFamilies {
  import opened Options

  const ABSOLUTE_LIFETIME_MS := 30 * 24 * 60 * 60 * 1000
  const DELETE_GRACE_MS := 24 * 60 * 60 * 1000

  datatype Token = Token(
    userId: nat, tokenVersion: nat, sessionStartedAt: int, jti: nat, familyId: nat, generation: nat, exp: int)

  datatype User = User(tokenVersion: nat, enabled: bool)

  datatype Family = Family(userId: nat, currentJti: nat, generation: nat, expiresAt: int, revokedAt: Option<int>)

  datatype Db = Db(now: int, users: map<nat, User>, families: map<nat, Family>, issued: set<Token>, nextId: nat)

  // ---- the database's side of a verdict ----

  predicate FamilyLive(d: Db, f: nat, u: nat) {
    && f in d.families && d.families[f].userId == u
    && d.families[f].revokedAt == None && d.now < d.families[f].expiresAt
  }

  predicate IsCurrent(d: Db, t: Token) {
    t.familyId in d.families
    && d.families[t.familyId].generation == t.generation && d.families[t.familyId].currentJti == t.jti
  }

  /** What `verifyToken` asks the database. */
  predicate DbAccepts(d: Db, t: Token, allowConsumed: bool) {
    && t.userId in d.users && d.users[t.userId] == User(t.tokenVersion, true)
    && FamilyLive(d, t.familyId, t.userId)
    && (allowConsumed || IsCurrent(d, t))
  }

  /** jwt.verify compares whole seconds. */
  predicate LeafUnexpired(t: Token, now: int) {
    now / 1000 < t.exp
  }

  /** `verifyToken` without the revocation indexes. */
  predicate AcceptsUnindexed(d: Db, t: Token, allowConsumed: bool, ignoreExp: bool) {
    && t in d.issued
    && (ignoreExp || LeafUnexpired(t, d.now))
    && d.now <= t.sessionStartedAt + ABSOLUTE_LIFETIME_MS
    && DbAccepts(d, t, allowConsumed)
  }

  // ---- database transactions ----

  datatype DbEvent =
    | Tick(to: int)
    | AddUser
    | SetEnabled(u: nat, on: bool)
    | ChangePassword(u: nat)
    | DeleteUser(u: nat)
    | Issue(u: nat, version: nat, started: int, exp: int)
    | Consume(t: Token, version: nat, exp: int)
    | Revoke(f: nat, owner: nat)
    | Reissue(t: Token, exp: int)
    | Prune

  /** The compare-and-swap of `rotateAuthToken`. */
  predicate Wins(d: Db, t: Token) {
    t in d.issued && FamilyLive(d, t.familyId, t.userId) && IsCurrent(d, t)
  }

  /** Tokens are only ever signed for a version the user row has reached. */
  predicate VersionReached(d: Db, u: nat, version: nat) {
    u in d.users ==> version <= d.users[u].tokenVersion
  }

  function Successor(d: Db, t: Token, version: nat, exp: int): Token {
    t.(tokenVersion := version, jti := d.nextId, generation := t.generation + 1, exp := exp)
  }

  function Revoked(d: Db, f: nat, u: nat): map<nat, Family> {
    if f in d.families && d.families[f].userId == u && d.families[f].revokedAt == None
    then d.families[f := d.families[f].(revokedAt := Some(d.now))] else d.families
  }

  /** A login: a fresh family with its generation-0 leaf. */
  function Opened(d: Db, u: nat, version: nat, started: int, exp: int): (Family, Token) {
    (Family(u, d.nextId + 1, 0, started + ABSOLUTE_LIFETIME_MS, None),
     Token(u, version, started, d.nextId + 1, d.nextId, 0, exp))
  }

  function Open(d: Db, u: nat, version: nat, started: int, exp: int): Db {
    var (family, token) := Opened(d, u, version, started, exp);
    d.(families := d.families[d.nextId := family], issued := d.issued + {token}, nextId := d.nextId + 2)
  }

  function Rotate(d: Db, t: Token, version: nat, exp: int): Db
    requires t.familyId in d.families
  {
    var next := Successor(d, t, version, exp);
    d.(families := d.families[t.familyId :=
         d.families[t.familyId].(currentJti := next.jti, generation := next.generation)],
       issued := d.issued + {next}, nextId := d.nextId + 1)
  }

  /** `changePasswordAndReissueSession` up to the new family. */
  function Retired(d: Db, t: Token): Db
    requires t.userId in d.users
  {
    d.(users := d.users[t.userId := d.users[t.userId].(tokenVersion := d.users[t.userId].tokenVersion + 1)],
       families := Revoked(d, t.familyId, t.userId))
  }

  function DbStep(d: Db, e: DbEvent): Db {
    match e
    case Tick(to) => d.(now := if to > d.now then to else d.now)
    case AddUser => d.(users := d.users[d.nextId := User(0, true)], nextId := d.nextId + 1)
    case SetEnabled(u, on) => if u in d.users then d.(users := d.users[u := d.users[u].(enabled := on)]) else d
    case ChangePassword(u) =>
      if u in d.users then d.(users := d.users[u := d.users[u].(tokenVersion := d.users[u].tokenVersion + 1)]) else d
    case DeleteUser(u) =>
      d.(users := d.users - {u},
         families := map f | f in d.families && d.families[f].userId != u :: d.families[f])
    case Issue(u, version, started, exp) =>
      if u in d.users && VersionReached(d, u, version) then Open(d, u, version, started, exp) else d
    case Consume(t, version, exp) =>
      if Wins(d, t) && VersionReached(d, t.userId, version) then Rotate(d, t, version, exp) else d
    case Revoke(f, u) => d.(families := Revoked(d, f, u))
    case Reissue(t, exp) =>
      if t in d.issued && t.userId in d.users
      then Open(Retired(d, t), t.userId, d.users[t.userId].tokenVersion + 1, d.now, exp) else d
    case Prune =>
      d.(families := map f | f in d.families && d.families[f].expiresAt >= d.now - DELETE_GRACE_MS :: d.families[f])
  }

  // ---- the process around the database ----

  /**
   * The revocation indexes and the calls in flight: `losers` are refreshes whose compare-and-swap
   * failed, `checking` and `indexing` are revocations between their update, re-read and indexing.
   */
  datatype Auth = Auth(
    db: Db, losers: set<Token>, checking: set<Token>, indexing: set<Token>,
    memory: map<nat, int>, redis: map<nat, int>)

  predicate Blacklisted(s: Auth, jti: nat) {
    (jti in s.memory && s.db.now < s.memory[jti]) || (jti in s.redis && s.db.now < s.redis[jti])
  }

  /** `verifyToken` while the database answers. */
  predicate Accepts(s: Auth, t: Token, allowConsumed: bool, ignoreExp: bool) {
    AcceptsUnindexed(s.db, t, allowConsumed, ignoreExp) && !Blacklisted(s, t.jti)
  }

  datatype Event =
    | Database(e: DbEvent)
    | Refresh(t: Token, version: nat, exp: int)                   // rotateAuthToken, first statement
    | FinishLoser(t: Token)                                       // and, for a loser, its second
    | LogoutUpdate(t: Token)                                      // revokeToken: conditional update
    | LogoutRecheck(t: Token)                                     // re-read when it moved no row
    | RevokeByBinding(f: nat, owner: nat, absoluteExpiresAt: int)
    | PasswordReissue(t: Token, exp: int)
    | IndexLeaf(t: Token)
    | Forget(memoryKeys: set<nat>, redisKeys: set<nat>)           // expiry, eviction, restart

  /** The database transaction an event performs, if any. */
  function Transaction(s: Auth, e: Event): Option<DbEvent> {
    match e
    case Database(de) => Some(de)
    case Refresh(t, version, exp) => Some(Consume(t, version, exp))
    case FinishLoser(t) => if t in s.losers then Some(Revoke(t.familyId, t.userId)) else None
    case LogoutUpdate(t) =>
      if t in s.db.issued && FamilyLive(s.db, t.familyId, t.userId) then Some(Revoke(t.familyId, t.userId)) else None
    case RevokeByBinding(f, u, at) =>
      if FamilyLive(s.db, f, u) && s.db.families[f].expiresAt == at then Some(Revoke(f, u)) else None
    case PasswordReissue(t, exp) => Some(Reissue(t, exp))
    case _ => None
  }

  function DbAfter(s: Auth, e: Event): Db {
    match Transaction(s, e)
    case None => s.db
    case Some(de) => DbStep(s.db, de)
  }

  /** `persistentlyRevokeAuthTokenFamily`'s re-read finds the family already invalid. */
  predicate FoundInvalid(d: Db, t: Token) {
    t.familyId in d.families ==>
      d.families[t.familyId].userId == t.userId && !FamilyLive(d, t.familyId, t.userId)
  }

  /** Redis counts a whole number of seconds, at least one. */
  function RedisUntil(t: Token, now: int): int {
    var seconds := (t.exp * 1000 - now + 999) / 1000;
    now + 1000 * (if seconds > 1 then seconds else 1)
  }

  function Step(s: Auth, e: Event): Auth {
    var r := s.(db := DbAfter(s, e));
    match e
    case Refresh(t, version, _) =>
      if t in s.db.issued && VersionReached(s.db, t.userId, version) && !Wins(s.db, t)
      then r.(losers := s.losers + {t}) else r
    case FinishLoser(t) => r.(losers := s.losers - {t})
    case LogoutUpdate(t) =>
      if t !in s.db.issued then r
      else if FamilyLive(s.db, t.familyId, t.userId) then r.(indexing := s.indexing + {t})
      else r.(checking := s.checking + {t})
    case LogoutRecheck(t) =>
      if t in s.checking && FoundInvalid(s.db, t)
      then r.(checking := s.checking - {t}, indexing := s.indexing + {t})
      else r.(checking := s.checking - {t})
    case PasswordReissue(t, _) =>
      if t in s.db.issued && t.userId in s.db.users then r.(indexing := s.indexing + {t}) else r
    case IndexLeaf(t) =>
      if t in s.indexing
      then r.(indexing := s.indexing - {t}, memory := s.memory[t.jti := t.exp * 1000],
              redis := s.redis[t.jti := RedisUntil(t, s.db.now)])
      else r
    case Forget(memoryKeys, redisKeys) => r.(memory := s.memory - memoryKeys, redis := s.redis - redisKeys)
    case _ => r
  }

  function Run(s: Auth, es: seq<Event>): Auth
    decreases |es|
  {
    if es == [] then s else Run(Step(s, es[0]), es[1..])
  }

  // ---- what is dead stays dead ----

  predicate FamilyGone(d: Db, f: nat) {
    f in d.families ==> d.families[f].revokedAt.Some? || d.families[f].expiresAt <= d.now
  }

  predicate Outdated(d: Db, t: Token) {
    t.userId in d.users ==> d.users[t.userId].tokenVersion > t.tokenVersion
  }

  predicate Dead(d: Db, t: Token) {
    FamilyGone(d, t.familyId) || Outdated(d, t)
  }

  lemma GoneStaysGone(d: Db, e: DbEvent, f: nat)
    requires f < d.nextId && FamilyGone(d, f)
    ensures FamilyGone(DbStep(d, e), f) && d.nextId <= DbStep(d, e).nextId
  {
  }

  lemma OutdatedStays(d: Db, e: DbEvent, t: Token)
    requires t.userId < d.nextId && Outdated(d, t)
    ensures Outdated(DbStep(d, e), t) && d.nextId <= DbStep(d, e).nextId
  {
  }

  lemma {:induction false} GoneForever(s: Auth, es: seq<Event>, f: nat)
    requires f < s.db.nextId && FamilyGone(s.db, f)
    ensures FamilyGone(Run(s, es).db, f)
    decreases |es|
  {
    if es != [] {
      if Transaction(s, es[0]).Some? {
        GoneStaysGone(s.db, Transaction(s, es[0]).value, f);
      }
      GoneForever(Step(s, es[0]), es[1..], f);
    }
  }

  lemma {:induction false} OutdatedForever(s: Auth, es: seq<Event>, t: Token)
    requires t.userId < s.db.nextId && Outdated(s.db, t)
    ensures Outdated(Run(s, es).db, t)
    decreases |es|
  {
    if es != [] {
      if Transaction(s, es[0]).Some? {
        OutdatedStays(s.db, Transaction(s, es[0]).value, t);
      }
      OutdatedForever(Step(s, es[0]), es[1..], t);
    }
  }

  lemma DeadIsRejected(d: Db, t: Token, allowConsumed: bool, ignoreExp: bool)
    requires Dead(d, t)
    ensures !AcceptsUnindexed(d, t, allowConsumed, ignoreExp)
  {
  }

  // ---- the database invariant ----

  ghost predicate IdsKnown(d: Db) {
    && (forall u :: u in d.users ==> u < d.nextId)
    && (forall f :: f in d.families ==> f < d.nextId && d.families[f].currentJti < d.nextId)
    && (forall t :: t in d.issued ==>
          && t.jti < d.nextId && t.familyId < d.nextId && t.userId < d.nextId
          && VersionReached(d, t.userId, t.tokenVersion))
    && (forall t, r :: t in d.issued && r in d.issued && t.jti == r.jti ==> t == r)
  }

  /** The issued leaves of a family form one chain 0, 1, ..., generation, and its end is current. */
  ghost predicate Chained(d: Db) {
    && (forall t, r :: t in d.issued && r in d.issued && t.familyId == r.familyId ==>
          && t.sessionStartedAt == r.sessionStartedAt && t.userId == r.userId
          && (t.generation == r.generation ==> t == r))
    && (forall t :: t in d.issued && t.familyId in d.families ==>
          var f := d.families[t.familyId];
          && f.userId == t.userId && f.expiresAt == t.sessionStartedAt + ABSOLUTE_LIFETIME_MS
          && t.generation <= f.generation
          && (t.generation == f.generation <==> t.jti == f.currentJti))
  }

  ghost predicate Consistent(d: Db) {
    IdsKnown(d) && Chained(d)
  }

  ghost predicate HasLeaf(d: Db, f: nat, g: nat) {
    exists t :: t in d.issued && t.familyId == f && t.generation == g
  }

  ghost predicate Unbroken(d: Db) {
    forall f, g: nat :: f in d.families && g <= d.families[f].generation ==> HasLeaf(d, f, g)
  }

  /** A step that issues nothing: families only disappear or get revoked, versions only rise. */
  ghost predicate Quiet(d: Db, r: Db) {
    && r.issued == d.issued && d.nextId <= r.nextId && d.now <= r.now
    && (forall u :: u in r.users ==>
          if u in d.users then d.users[u].tokenVersion <= r.users[u].tokenVersion else d.nextId <= u < r.nextId)
    && (forall f :: f in r.families ==>
          f in d.families && r.families[f].(revokedAt := None) == d.families[f].(revokedAt := None))
  }

  lemma QuietStep(d: Db, e: DbEvent)
    requires IdsKnown(d) && !e.Issue? && !e.Consume? && !e.Reissue?
    ensures Quiet(d, DbStep(d, e))
  {
  }

  lemma QuietKeepsConsistent(d: Db, r: Db)
    requires Consistent(d) && Quiet(d, r)
    ensures Consistent(r)
  {
  }

  lemma OpenKeepsConsistent(d: Db, u: nat, version: nat, started: int, exp: int)
    requires Consistent(d) && u in d.users && version <= d.users[u].tokenVersion
    ensures Consistent(Open(d, u, version, started, exp))
  {
    var r := Open(d, u, version, started, exp);
    assert r.issued == d.issued + {Opened(d, u, version, started, exp).1};
  }

  lemma RotateKeepsConsistent(d: Db, t: Token, version: nat, exp: int)
    requires Consistent(d) && Wins(d, t) && VersionReached(d, t.userId, version)
    ensures Consistent(Rotate(d, t, version, exp))
  {
    var r := Rotate(d, t, version, exp);
    assert r.issued == d.issued + {Successor(d, t, version, exp)};
  }

  lemma ReissueKeepsConsistent(d: Db, t: Token, exp: int)
    requires Consistent(d) && t in d.issued && t.userId in d.users
    ensures Consistent(DbStep(d, Reissue(t, exp)))
  {
    var m := Retired(d, t);
    assert Quiet(d, m);
    QuietKeepsConsistent(d, m);
    OpenKeepsConsistent(m, t.userId, d.users[t.userId].tokenVersion + 1, d.now, exp);
  }

  lemma StepKeepsConsistent(d: Db, e: DbEvent)
    requires Consistent(d)
    ensures Consistent(DbStep(d, e))
  {
    match e {
      case Issue(u, version, started, exp) =>
        if u in d.users && VersionReached(d, u, version) {
          OpenKeepsConsistent(d, u, version, started, exp);
        }
      case Consume(t, version, exp) =>
        if Wins(d, t) && VersionReached(d, t.userId, version) {
          RotateKeepsConsistent(d, t, version, exp);
        }
      case Reissue(t, exp) =>
        if t in d.issued && t.userId in d.users {
          ReissueKeepsConsistent(d, t, exp);
        }
      case _ =>
        QuietStep(d, e);
        QuietKeepsConsistent(d, DbStep(d, e));
    }
  }

  lemma StepKeepsUnbroken(d: Db, e: DbEvent)
    requires IdsKnown(d) && Unbroken(d)
    ensures Unbroken(DbStep(d, e))
  {
    var r := DbStep(d, e);
    forall f, g: nat | f in r.families && g <= r.families[f].generation
      ensures HasLeaf(r, f, g)
    {
      if f in d.families && g <= d.families[f].generation {
        assert HasLeaf(d, f, g);
      }
    }
  }

  // ---- the process invariant ----

  /** Everything indexed, or about to be, is a leaf the database rejects for good. */
  ghost predicate IndexRedundant(s: Auth) {
    && s.losers <= s.db.issued && s.checking <= s.db.issued && s.indexing <= s.db.issued
    && (forall t :: t in s.indexing ==> Dead(s.db, t))
    && (forall t :: t in s.db.issued && (t.jti in s.memory || t.jti in s.redis) ==> Dead(s.db, t))
    && (forall j :: j in s.memory || j in s.redis ==> j < s.db.nextId)
  }

  ghost predicate Sound(s: Auth) {
    Consistent(s.db) && Unbroken(s.db) && IndexRedundant(s)
  }

  ghost predicate Fresh(s: Auth) {
    && s.db.users == map[] && s.db.families == map[] && s.db.issued == {}
    && s.memory == map[] && s.redis == map[] && s.losers == {} && s.checking == {} && s.indexing == {}
  }

  lemma DeadStays(d: Db, e: DbEvent)
    requires IdsKnown(d)
    ensures forall t :: t in d.issued && Dead(d, t) ==> Dead(DbStep(d, e), t)
  {
    forall t | t in d.issued && Dead(d, t) ensures Dead(DbStep(d, e), t) {
      if FamilyGone(d, t.familyId) {
        GoneStaysGone(d, e, t.familyId);
      } else {
        OutdatedStays(d, e, t);
      }
    }
  }

  lemma IssuedGrows(d: Db, e: DbEvent)
    ensures var r := DbStep(d, e);
      && d.issued <= r.issued && d.nextId <= r.nextId
      && (forall t :: t in r.issued && t !in d.issued ==> t.jti >= d.nextId)
  {
  }

  lemma NewlyIndexingIsDead(s: Auth, e: Event)
    requires Consistent(s.db) && IndexRedundant(s)
    ensures forall t :: t in Step(s, e).indexing ==> t in s.indexing || Dead(Step(s, e).db, t)
  {
  }

  lemma StepKeepsRedundant(s: Auth, e: Event)
    requires Consistent(s.db) && IndexRedundant(s)
    ensures IndexRedundant(Step(s, e))
  {
    if Transaction(s, e).Some? {
      DeadStays(s.db, Transaction(s, e).value);
      IssuedGrows(s.db, Transaction(s, e).value);
    }
    NewlyIndexingIsDead(s, e);
    assert s.db.issued <= DbAfter(s, e).issued && s.db.nextId <= DbAfter(s, e).nextId;
  }

  lemma StepKeepsSound(s: Auth, e: Event)
    requires Sound(s)
    ensures Sound(Step(s, e))
  {
    if Transaction(s, e).Some? {
      StepKeepsConsistent(s.db, Transaction(s, e).value);
      StepKeepsUnbroken(s.db, Transaction(s, e).value);
    }
    StepKeepsRedundant(s, e);
    assert Step(s, e).db == DbAfter(s, e);
  }

  lemma {:induction false} RunKeepsSound(s: Auth, es: seq<Event>)
    requires Sound(s)
    ensures Sound(Run(s, es))
    decreases |es|
  {
    if es != [] {
      StepKeepsSound(s, es[0]);
      RunKeepsSound(Step(s, es[0]), es[1..]);
    }
  }
}
