/** `verifyToken` (src/lib/auth.ts:691-799) cut at its awaits: the indexes are asked, one after the other,
  * then the user's row and the family's row are read, in either order, and other steps run in between. */
module TokenVerification {
  import opened Options
  import opened TokenFamilies

  /** Before the first await: the leaf's own claims and the index in memory. */
  predicate Enters(s: Auth, t: Token, ignoreExp: bool) {
    && (ignoreExp || LeafUnexpired(t, s.db.now))
    && s.db.now <= t.sessionStartedAt + ABSOLUTE_LIFETIME_MS
    && !(t.jti in s.memory && s.db.now < s.memory[t.jti])
  }

  /** What Redis says, if it answers. */
  predicate PassesRedis(s: Auth, t: Token, answers: bool) {
    !(answers && t.jti in s.redis && s.db.now < s.redis[t.jti])
  }

  function UserRow(d: Db, t: Token): Option<User> {
    if t.userId in d.users then Some(d.users[t.userId]) else None
  }

  function FamilyRow(d: Db, t: Token): Option<Family> {
    if t.familyId in d.families then Some(d.families[t.familyId]) else None
  }

  /** The verdict on the two rows as they were read, at the time the later one has arrived. */
  predicate RowsAccept(user: Option<User>, row: Option<Family>, now: int, t: Token, allowConsumed: bool) {
    && user == Some(User(t.tokenVersion, true))
    && row.Some? && row.value.userId == t.userId && row.value.revokedAt.None? && now < row.value.expiresAt
    && (allowConsumed || (row.value.generation == t.generation && row.value.currentJti == t.jti))
  }

  /** The states a verification sees: as it begins, as Redis answers, as each row is read, as it ends. */
  datatype Sight = Sight(entry: Auth, redis: Auth, user: Auth, row: Auth, end: Auth)

  /** Steps of any kind between them; either row may be read first. */
  datatype Course = Course(
    toRedis: seq<Event>, toFirst: seq<Event>, toSecond: seq<Event>, toEnd: seq<Event>, userFirst: bool)

  function Seen(s: Auth, c: Course): Sight {
    var redis := Run(s, c.toRedis);
    var first := Run(redis, c.toFirst);
    var second := Run(first, c.toSecond);
    Sight(s, redis, if c.userFirst then first else second, if c.userFirst then second else first,
          Run(second, c.toEnd))
  }

  predicate Verifies(v: Sight, t: Token, allowConsumed: bool, ignoreExp: bool, redisAnswers: bool) {
    && t in v.entry.db.issued
    && Enters(v.entry, t, ignoreExp) && PassesRedis(v.redis, t, redisAnswers)
    && RowsAccept(UserRow(v.user.db, t), FamilyRow(v.row.db, t), v.end.db.now, t, allowConsumed)
  }

  /** With nothing in between it is the verdict of one moment. */
  lemma AtOneMoment(s: Auth, t: Token, allowConsumed: bool, ignoreExp: bool)
    ensures Verifies(Sight(s, s, s, s, s), t, allowConsumed, ignoreExp, true)
       <==> Accepts(s, t, allowConsumed, ignoreExp)
  {
  }

  // ------------------------------------------------------ what later steps keep

  lemma StepGrows(s: Auth, e: Event)
    ensures s.db.now <= Step(s, e).db.now && s.db.nextId <= Step(s, e).db.nextId
    ensures s.db.issued <= Step(s, e).db.issued
  {
    if Transaction(s, e).Some? {
      IssuedGrows(s.db, Transaction(s, e).value);
    }
  }

  lemma {:induction false} RunGrows(s: Auth, es: seq<Event>)
    ensures s.db.now <= Run(s, es).db.now && s.db.nextId <= Run(s, es).db.nextId
    ensures s.db.issued <= Run(s, es).db.issued
    decreases |es|
  {
    if es != [] {
      StepGrows(s, es[0]);
      RunGrows(Step(s, es[0]), es[1..]);
    }
  }

  /** Nothing that was dead for `t` in the earlier state is alive for it in the later one. */
  ghost predicate Sees(a: Auth, b: Auth, t: Token) {
    && a.db.now <= b.db.now && a.db.issued <= b.db.issued
    && (FamilyGone(a.db, t.familyId) ==> FamilyGone(b.db, t.familyId))
    && (Outdated(a.db, t) ==> Outdated(b.db, t))
  }

  /** The states in the order in which a verification goes through them, all of them sound. */
  ghost predicate InOrder(v: Sight, t: Token) {
    && Sound(v.entry) && Sound(v.redis) && Sound(v.row)
    && Sees(v.entry, v.redis, t) && Sees(v.redis, v.user, t) && Sees(v.redis, v.row, t) && Sees(v.row, v.end, t)
  }

  lemma RunSees(s: Auth, es: seq<Event>, t: Token)
    requires Sound(s) && t in s.db.issued
    ensures Sound(Run(s, es)) && Sees(s, Run(s, es), t) && t in Run(s, es).db.issued
  {
    RunKeepsSound(s, es);
    RunGrows(s, es);
    if FamilyGone(s.db, t.familyId) {
      GoneForever(s, es, t.familyId);
    }
    if Outdated(s.db, t) {
      OutdatedForever(s, es, t);
    }
  }

  lemma CourseIsInOrder(s: Auth, c: Course, t: Token)
    requires Sound(s) && t in s.db.issued
    ensures InOrder(Seen(s, c), t)
  {
    var redis := Run(s, c.toRedis);
    var first := Run(redis, c.toFirst);
    var second := Run(first, c.toSecond);
    RunSees(s, c.toRedis, t);
    RunSees(redis, c.toFirst, t);
    RunSees(first, c.toSecond, t);
    RunSees(second, c.toEnd, t);
  }

  // ---------------------------------------------------------------- the verdict

  lemma DeadIsRefused(v: Sight, t: Token, allowConsumed: bool)
    requires Sees(v.entry, v.user, t) && Sees(v.entry, v.row, t) && Sees(v.row, v.end, t)
    requires Dead(v.entry.db, t)
    ensures !RowsAccept(UserRow(v.user.db, t), FamilyRow(v.row.db, t), v.end.db.now, t, allowConsumed)
  {
  }

  lemma IndexedIsRefused(v: Sight, t: Token, allowConsumed: bool)
    requires InOrder(v, t) && t in v.entry.db.issued
    requires t.jti in v.entry.memory || t.jti in v.redis.redis
    ensures !RowsAccept(UserRow(v.user.db, t), FamilyRow(v.row.db, t), v.end.db.now, t, allowConsumed)
  {
    assert Dead(v.redis.db, t) by {
      assert t.jti in v.entry.memory ==> Dead(v.entry.db, t);
    }
    DeadIsRefused(v.(entry := v.redis), t, allowConsumed);
  }

  /**
   * Whatever runs in between, and whether or not Redis answers: a verification accepts if and only if
   * the leaf's own claims stood when it began and the two rows accept it as they were read. The
   * indexes never decide.
   */
  lemma VerdictIsOfTheRows(
    s: Auth, c: Course, t: Token, allowConsumed: bool, ignoreExp: bool, redisAnswers: bool)
    requires Sound(s) && t in s.db.issued
    ensures var v := Seen(s, c);
      Verifies(v, t, allowConsumed, ignoreExp, redisAnswers)
      <==> && (ignoreExp || LeafUnexpired(t, s.db.now)) && s.db.now <= t.sessionStartedAt + ABSOLUTE_LIFETIME_MS
           && RowsAccept(UserRow(v.user.db, t), FamilyRow(v.row.db, t), v.end.db.now, t, allowConsumed)
  {
    var v := Seen(s, c);
    CourseIsInOrder(s, c, t);
    if t.jti in v.entry.memory || t.jti in v.redis.redis {
      IndexedIsRefused(v, t, allowConsumed);
    }
  }

  /** What is accepted was, at the moment its family's row was read, a leaf of a live family whose user
    * had not changed the password before, and the current one unless consumed leaves are allowed. */
  lemma AcceptedWasLive(
    s: Auth, c: Course, t: Token, allowConsumed: bool, ignoreExp: bool, redisAnswers: bool)
    requires Sound(s) && Verifies(Seen(s, c), t, allowConsumed, ignoreExp, redisAnswers)
    ensures var v := Seen(s, c);
      && FamilyLive(v.row.db, t.familyId, t.userId) && (allowConsumed || IsCurrent(v.row.db, t))
      && v.end.db.now <= t.sessionStartedAt + ABSOLUTE_LIFETIME_MS
      && !Outdated(v.redis.db, t)
  {
    CourseIsInOrder(s, c, t);
  }

  /** A leaf that is dead when a verification of it begins is refused: reuse, logout and a new password
    * end every verification that comes after them. */
  lemma DeadNeverVerifies(
    s: Auth, c: Course, t: Token, allowConsumed: bool, ignoreExp: bool, redisAnswers: bool)
    requires Sound(s) && t in s.db.issued && Dead(s.db, t)
    ensures !Verifies(Seen(s, c), t, allowConsumed, ignoreExp, redisAnswers)
  {
    CourseIsInOrder(s, c, t);
    DeadIsRefused(Seen(s, c), t, allowConsumed);
  }

  // ------------------------------------------------------------ one leaf at a time

  lemma GenerationStepRises(d: Db, e: DbEvent, f: nat)
    requires Consistent(d) && f < d.nextId && f in DbStep(d, e).families
    ensures f in d.families && d.families[f].generation <= DbStep(d, e).families[f].generation
  {
  }

  lemma {:induction false} GenerationsRise(s: Auth, es: seq<Event>, f: nat)
    requires Sound(s) && f < s.db.nextId && f in Run(s, es).db.families
    ensures f in s.db.families && s.db.families[f].generation <= Run(s, es).db.families[f].generation
    decreases |es|
  {
    if es != [] {
      StepKeepsSound(s, es[0]);
      StepGrows(s, es[0]);
      GenerationsRise(Step(s, es[0]), es[1..], f);
      if Transaction(s, es[0]).Some? {
        GenerationStepRises(s.db, Transaction(s, es[0]).value, f);
      }
    }
  }

  /** Two strict verifications of leaves of one family, interleaved in any way: the one whose row was read
    * later, or at the same moment, is of a leaf at least as new, and of the same one if no newer. */
  lemma AcceptedLeavesOnlyAdvance(a: Auth, es: seq<Event>, t: Token, o: Token)
    requires Sound(a) && t in a.db.issued && o in Run(a, es).db.issued && t.familyId == o.familyId
    requires IsCurrent(a.db, t) && IsCurrent(Run(a, es).db, o)
    ensures t.generation <= o.generation
    ensures t.generation == o.generation ==> t == o
  {
    GenerationsRise(a, es, t.familyId);
    RunKeepsSound(a, es);
    RunGrows(a, es);
  }
}
