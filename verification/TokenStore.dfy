/** The auth functions as they run against one store, each tied to a step of TokenFamilies. */
module TokenStore {
  import opened Options
  import opened TokenFamilies
  import opened TokenLifetimes
  import opened TokenVerification

  const BLACKLIST_MAX := 100_000
  const DAY_MS := 24 * 60 * 60 * 1000
  const DEFAULT_EXPIRY_DAYS := 7.0

  /** A signed payload: those from before there were families name none. */
  datatype Payload = Leaf(t: Token) | Legacy(sessionStartedAt: int, exp: int)

  datatype RotateResult = Rotated(token: Token) | Reused

  /** A session, null, or an error that says no verdict was possible. */
  datatype Verdict = Accepted | Refused | Unavailable

  class Store {
    var now: int
    var users: map<nat, User>
    var families: map<nat, Family>
    var nextId: nat
    ghost var issued: set<Token>    // every leaf ever signed
    var memory: map<nat, int>
    var redis: map<nat, int>

    constructor ()
      ensures Database() == Db(0, map[], map[], {}, 0) && memory == map[] && redis == map[]
    {
      now, users, families, nextId, issued, memory, redis := 0, map[], map[], 0, {}, map[], map[];
    }

    ghost function Database(): Db
      reads this
    {
      Db(now, users, families, issued, nextId)
    }

    /** This store between two calls, with what Redis answers, if it does. */
    ghost function Process(redisAnswers: bool): Auth
      reads this
    {
      Auth(Database(), {}, {}, {}, memory, if redisAnswers then redis else map[])
    }

    method IssueAuthToken(u: nat, version: nat, startedAt: Option<int>, exp: int) returns (t: Token)
      requires u in users && version <= users[u].tokenVersion
      modifies this
      ensures var started := if startedAt.Some? then startedAt.value else old(now);
        && Database() == DbStep(old(Database()), Issue(u, version, started, exp))
        && t == Opened(old(Database()), u, version, started, exp).1
        && issued == old(issued) + {t} && t.exp == exp && t.sessionStartedAt == started
        && IsCurrent(Database(), t)
      ensures memory == old(memory) && redis == old(redis)
    {
      var started := if startedAt.Some? then startedAt.value else now;
      var familyId, jti := nextId, nextId + 1;
      nextId := nextId + 2;
      t := Token(u, version, started, jti, familyId, 0, exp);
      families := families[familyId := Family(u, jti, 0, started + ABSOLUTE_LIFETIME_MS, None)];
      issued := issued + {t};
    }

    /** The first statement of `rotateAuthToken`. */
    method ConsumeLeaf(t: Token, version: nat, exp: int) returns (next: Option<Token>)
      requires t in issued && (t.userId in users ==> version <= users[t.userId].tokenVersion)
      modifies this
      ensures Database() == DbStep(old(Database()), Consume(t, version, exp))
      ensures next == if Wins(old(Database()), t) then Some(Successor(old(Database()), t, version, exp)) else None
      ensures memory == old(memory) && redis == old(redis)
    {
      if t.familyId !in families {
        return None;
      }
      var row := families[t.familyId];
      if row.userId != t.userId || row.currentJti != t.jti || row.generation != t.generation
         || row.revokedAt.Some? || row.expiresAt <= now {
        return None;
      }
      var token := Token(t.userId, version, t.sessionStartedAt, nextId, t.familyId, t.generation + 1, exp);
      families := families[t.familyId := row.(currentJti := nextId, generation := row.generation + 1)];
      nextId := nextId + 1;
      issued := issued + {token};
      return Some(token);
    }

    /** Its second statement, for a loser. */
    method RevokeReusedFamily(t: Token)
      modifies this`families
      ensures Database() == DbStep(old(Database()), Revoke(t.familyId, t.userId))
    {
      if t.familyId in families && families[t.familyId].userId == t.userId && families[t.familyId].revokedAt.None? {
        families := families[t.familyId := families[t.familyId].(revokedAt := Some(now))];
      }
    }

    /** Both, with nothing in between; a payload without a family is turned away. */
    method RotateAuthToken(p: Payload, version: nat, exp: int) returns (r: RotateResult)
      requires p.Leaf? ==> p.t in issued && (p.t.userId in users ==> version <= users[p.t.userId].tokenVersion)
      requires Chained(Database())
      modifies this
      ensures r.Rotated? <==> p.Leaf? && Wins(old(Database()), p.t)
      ensures r.Rotated? ==>
        Database() == DbStep(old(Database()), Consume(p.t, version, exp)) && IsCurrent(Database(), r.token)
      ensures r.Rotated? ==>
        && issued == old(issued) + {r.token} && r.token.exp == exp && r.token.tokenVersion == version
        && r.token.userId == p.t.userId && r.token.familyId == p.t.familyId
        && r.token.sessionStartedAt == p.t.sessionStartedAt
      ensures r.Reused? && p.Leaf? ==> FamilyGone(Database(), p.t.familyId) && issued == old(issued)
      ensures p.Legacy? ==> Database() == old(Database())
      ensures memory == old(memory) && redis == old(redis)
    {
      if p.Legacy? {
        return Reused;
      }
      var next := ConsumeLeaf(p.t, version, exp);
      if next.Some? {
        return Rotated(next.value);
      }
      RevokeReusedFamily(p.t);
      return Reused;
    }

    /** `revokeToken`: the database first, then the two indexes. */
    method RevokeToken(t: Token) returns (ok: bool)
      requires t in issued
      modifies this`families, this`memory, this`redis
      ensures ok <==> FamilyLive(old(Database()), t.familyId, t.userId) || FoundInvalid(old(Database()), t)
      ensures Chained(old(Database())) ==> ok
      ensures Database() == old(Database()).(families :=
        if FamilyLive(old(Database()), t.familyId, t.userId) then Revoked(old(Database()), t.familyId, t.userId)
        else old(families))
      ensures ok ==> FamilyGone(Database(), t.familyId)
      ensures ok ==> t.jti in memory && memory[t.jti] == t.exp * 1000
      ensures ok ==> redis == old(redis)[t.jti := RedisUntil(t, now)]
      ensures !ok ==> memory == old(memory) && redis == old(redis)
    {
      ghost var before := Database();
      assert Chained(before) ==> FamilyLive(before, t.familyId, t.userId) || FoundInvalid(before, t) by {
        if Chained(before) {
          LogoutFindsItsFamily(before, t);
        }
      }
      if t.familyId in families && families[t.familyId].userId == t.userId
         && families[t.familyId].revokedAt.None? && now < families[t.familyId].expiresAt {
        families := families[t.familyId := families[t.familyId].(revokedAt := Some(now))];
      } else if t.familyId in families {
        var row := families[t.familyId];
        if row.userId != t.userId || (row.revokedAt.None? && now < row.expiresAt) {
          return false;
        }
      }
      PruneBlacklist();
      memory := memory[t.jti := t.exp * 1000];
      redis := redis[t.jti := RedisUntil(t, now)];
      return true;
    }

    /**
     * `pruneExpiredBlacklistedTokens`: expired entries go; above the cap the soonest to expire go
     * too, and only as many as needed.
     */
    method PruneBlacklist()
      modifies this`memory
      ensures memory.Keys <= old(memory).Keys
      ensures forall j :: j in memory ==> memory[j] == old(memory)[j] && now < memory[j]
      ensures |memory| <= BLACKLIST_MAX
      ensures forall k :: k in old(memory) && now < old(memory)[k] && k !in memory ==> |memory| == BLACKLIST_MAX
      ensures forall j, k :: j in memory && k in old(memory) && k !in memory && now < old(memory)[k] ==>
        old(memory)[k] <= memory[j]
    {
      memory := map j | j in memory && now < memory[j] :: memory[j];
      ghost var live := memory;
      while |memory| > BLACKLIST_MAX
        invariant memory.Keys <= live.Keys && forall j :: j in memory ==> memory[j] == live[j]
        invariant forall j, k :: j in memory && k in live && k !in memory ==> live[k] <= memory[j]
        invariant memory == live || |memory| >= BLACKLIST_MAX
        decreases |memory|
      {
        SoonestExists(memory, memory.Keys);
        var j :| j in memory && forall k :: k in memory ==> memory[j] <= memory[k];
        ghost var before := memory;
        memory := memory - {j};
        assert before == memory[j := before[j]];
      }
    }

    /** `verifyToken` up to its first await, on a payload whose signature checks out. */
    method BeginVerification(p: Payload, ignoreExp: bool) returns (goesOn: bool)
      modifies this`memory
      ensures goesOn <==> p.Leaf? && Enters(Process(true), p.t, ignoreExp)
      ensures memory.Keys <= old(memory).Keys
    {
      var exp := if p.Leaf? then p.t.exp else p.exp;
      var startedAt := if p.Leaf? then p.t.sessionStartedAt else p.sessionStartedAt;
      if !ignoreExp && !(now / 1000 < exp) {
        return false;
      }
      if startedAt + ABSOLUTE_LIFETIME_MS < now {
        return false;
      }
      if p.Legacy? {
        return false;
      }
      PruneBlacklist();
      return p.t.jti !in memory;
    }

    /** `redis.exists`, when Redis is ready and answers. */
    method AskRedis(t: Token, redisAnswers: bool) returns (goesOn: bool)
      ensures goesOn <==> PassesRedis(Process(true), t, redisAnswers)
    {
      return !(redisAnswers && t.jti in redis && now < redis[t.jti]);
    }

    /** Behind the last await: the two rows as they were read, unless the database did not answer. */
    method DecideOnRows(
      t: Token, user: Option<User>, family: Option<Family>, allowConsumed: bool,
      throwOnInfrastructureError: bool, databaseAnswers: bool)
      returns (v: Verdict)
      ensures v.Accepted? <==> databaseAnswers && RowsAccept(user, family, now, t, allowConsumed)
      ensures v.Unavailable? <==> !databaseAnswers && throwOnInfrastructureError
    {
      if !databaseAnswers {
        return if throwOnInfrastructureError then Unavailable else Refused;
      }
      if user.None? || user.value.tokenVersion != t.tokenVersion {
        return Refused;
      }
      if !user.value.enabled {
        return Refused;
      }
      if family.None? || family.value.userId != t.userId || family.value.revokedAt.Some?
         || family.value.expiresAt <= now {
        return Refused;
      }
      if !allowConsumed && (family.value.generation != t.generation || family.value.currentJti != t.jti) {
        return Refused;
      }
      return Accepted;
    }

    /**
     * All of it, with nothing in between. Without an answer from Redis the index in memory decides
     * alone; without one from the database no token passes, and only a caller that asked for it can
     * tell that from a refusal.
     */
    method VerifyToken(p: Payload, allowConsumed: bool, ignoreExp: bool, throwOnInfrastructureError: bool,
                       redisAnswers: bool, databaseAnswers: bool) returns (v: Verdict)
      requires p.Leaf? ==> p.t in issued
      modifies this`memory
      ensures v.Accepted? <==>
        p.Leaf? && databaseAnswers && Accepts(Process(redisAnswers), p.t, allowConsumed, ignoreExp)
      ensures v.Unavailable? <==>
        && p.Leaf? && !databaseAnswers && throwOnInfrastructureError
        && (ignoreExp || LeafUnexpired(p.t, now)) && now <= p.t.sessionStartedAt + ABSOLUTE_LIFETIME_MS
        && !Blacklisted(Process(redisAnswers), p.t.jti)
      ensures memory.Keys <= old(memory).Keys
    {
      var goesOn := BeginVerification(p, ignoreExp);
      if !goesOn {
        return Refused;
      }
      goesOn := AskRedis(p.t, redisAnswers);
      if !goesOn {
        return Refused;
      }
      var user := if p.t.userId in users then Some(users[p.t.userId]) else None;
      var family := if p.t.familyId in families then Some(families[p.t.familyId]) else None;
      v := DecideOnRows(p.t, user, family, allowConsumed, throwOnInfrastructureError, databaseAnswers);
    }

    /** `pruneExpiredAuthTokenFamilies`. */
    method PruneExpiredAuthTokenFamilies() returns (count: nat)
      modifies this`families
      ensures Database() == DbStep(old(Database()), Prune)
      ensures count == |old(families)| - |families|
    {
      var cutoff := now - DELETE_GRACE_MS;
      var kept := map f | f in families && families[f].expiresAt >= cutoff :: families[f];
      KeysSubset(kept.Keys, families.Keys);
      count := |families.Keys| - |kept.Keys|;
      families := kept;
    }
  }

  lemma KeysSubset(a: set<nat>, b: set<nat>)
    requires a <= b
    ensures |a| <= |b|
  {
    assert b == a + (b - a);
  }

  lemma {:induction false} SoonestExists(m: map<nat, int>, s: set<nat>)
    requires s != {} && s <= m.Keys
    ensures exists j :: j in s && forall k :: k in s ==> m[j] <= m[k]
    decreases s
  {
    var x :| x in s;
    if s != {x} {
      SoonestExists(m, s - {x});
      var j :| j in s - {x} && forall k :: k in s - {x} ==> m[j] <= m[k];
      assert forall k :: k in s ==> k == x || k in s - {x};
      if m[x] < m[j] {
        assert forall k :: k in s ==> m[x] <= m[k];
      } else {
        assert forall k :: k in s ==> m[j] <= m[k];
      }
    } else {
      assert forall k :: k in s ==> m[x] <= m[k];
    }
  }

  // ---- the expiry a refresh signs ----

  function RealMin(a: real, b: real): real {
    if a < b then a else b
  }

  /** `getJwtExpiryConfig`: days, in exact reals. */
  function ExpiresInDays(jwtExpiryDays: Option<real>, sessionStartedAt: Option<int>, now: int): real {
    var days := RealMin(if jwtExpiryDays.Some? then jwtExpiryDays.value else DEFAULT_EXPIRY_DAYS,
                        ABSOLUTE_LIFETIME_MS as real / DAY_MS as real);
    if sessionStartedAt.None? then days
    else
      var remaining := sessionStartedAt.value + ABSOLUTE_LIFETIME_MS - now;
      RealMin(days, (if remaining > 0 then remaining else 0) as real / DAY_MS as real)
  }

  function CookieMaxAge(days: real): int {
    var seconds := (days * 86400.0).Floor;
    if seconds > 0 then seconds else 0
  }

  /** `signToken`: whole seconds from the whole second it is signed in, at least one. */
  function SignedExp(days: real, now: int): int {
    var seconds := (days * 86400.0).Floor;
    now / 1000 + (if seconds > 1 then seconds else 1)
  }

  /**
   * A refresh never signs past the session's absolute end, except for the one-second minimum, and
   * its cookie never outlives that end; a login never signs past thirty days.
   */
  lemma RefreshExpiryIsClamped(jwtExpiryDays: Option<real>, sessionStartedAt: Option<int>, now: int)
    ensures var days := ExpiresInDays(jwtExpiryDays, sessionStartedAt, now);
      var end := (if sessionStartedAt.Some? then sessionStartedAt.value else now) + ABSOLUTE_LIFETIME_MS;
      && (SignedExp(days, now) * 1000 <= end || SignedExp(days, now) * 1000 <= now + 1000)
      && (now <= end ==> now + CookieMaxAge(days) * 1000 <= end)
      && (end < now ==> CookieMaxAge(days) == 0)
  {
    var days := ExpiresInDays(jwtExpiryDays, sessionStartedAt, now);
    var end := (if sessionStartedAt.Some? then sessionStartedAt.value else now) + ABSOLUTE_LIFETIME_MS;
    var remaining := if end > now then end - now else 0;
    assert days <= remaining as real / 86400000.0;
    assert days * 86400.0 <= remaining as real / 1000.0;
    var seconds := (days * 86400.0).Floor;
    assert seconds as real <= remaining as real / 1000.0;
    assert seconds as real * 1000.0 <= remaining as real;
    assert seconds * 1000 <= remaining;
    assert now / 1000 * 1000 <= now;
  }

  /** Whole seconds until the session's absolute end, and thirty days at most. */
  function SecondsLeft(sessionStartedAt: Option<int>, now: int): int {
    if sessionStartedAt.None? || sessionStartedAt.value >= now then 30 * 24 * 60 * 60
    else if sessionStartedAt.value + ABSOLUTE_LIFETIME_MS <= now then 0
    else (sessionStartedAt.value + ABSOLUTE_LIFETIME_MS - now) / 1000
  }

  /** The time signed is the one configured, seven days if none is, or what is left of the session if that is
    * less; the token and its cookie last equally long, but for the token's minimum of a second. */
  lemma ExpiryIsTheSmaller(jwtExpiryDays: Option<real>, sessionStartedAt: Option<int>, now: int)
    ensures var configured := ((if jwtExpiryDays.Some? then jwtExpiryDays.value else 7.0) * 86400.0).Floor;
      var left, days := SecondsLeft(sessionStartedAt, now), ExpiresInDays(jwtExpiryDays, sessionStartedAt, now);
      var seconds := if configured < left then configured else left;
      && SignedExp(days, now) == now / 1000 + (if seconds > 1 then seconds else 1)
      && CookieMaxAge(days) == (if seconds > 0 then seconds else 0)
  {
    var c := if jwtExpiryDays.Some? then jwtExpiryDays.value else 7.0;
    var left, days := SecondsLeft(sessionStartedAt, now), ExpiresInDays(jwtExpiryDays, sessionStartedAt, now);
    if sessionStartedAt.Some? {
      var remaining := sessionStartedAt.value + ABSOLUTE_LIFETIME_MS - now;
      var ms := if remaining > 0 then remaining else 0;
      LeftInDays(ms);
      SmallerFloor(RealMin(c, 30.0), ms as real / 86400000.0);
      SmallerFloor(c, 30.0);
    } else {
      SmallerFloor(c, 30.0);
    }
  }

  lemma LeftInDays(ms: nat)
    ensures (ms as real / 86400000.0 * 86400.0).Floor == ms / 1000
  {
    assert ms as real / 86400000.0 * 86400.0 == ms as real / 1000.0;
    var s := ms / 1000;
    assert s * 1000 <= ms < s * 1000 + 1000;
    assert s as real * 1000.0 <= ms as real < s as real * 1000.0 + 1000.0;
  }

  lemma SmallerFloor(a: real, b: real)
    ensures (RealMin(a, b) * 86400.0).Floor
         == if (a * 86400.0).Floor < (b * 86400.0).Floor then (a * 86400.0).Floor else (b * 86400.0).Floor
  {
  }
}
