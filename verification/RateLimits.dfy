/** The in-memory fixed-window limiter (src/lib/rateLimit.ts:136-162, 193-240). */
module RateLimits {
  const BUCKET_LIMIT := 5000

  datatype Bucket = Bucket(count: nat, resetAt: int)
  datatype Rule = Rule(limit: int, windowMs: int)
  datatype Answer = Allowed | TooMany(retryAfterSeconds: int)

  type Store = map<string, Bucket>

  /** `Math.max(1, Math.ceil(ms / 1000))`. */
  function RetrySeconds(ms: int): (s: int)
    ensures s >= 1 && s * 1000 >= ms
    ensures s == 1 || (s - 1) * 1000 < ms
  {
    var up := if ms % 1000 == 0 then ms / 1000 else ms / 1000 + 1;
    if up < 1 then 1 else up
  }

  predicate Live(store: Store, key: string, now: int) {
    key in store && store[key].resetAt > now
  }

  function Pruned(store: Store, now: int): Store {
    map key | key in store && store[key].resetAt > now :: store[key]
  }

  function AtEntry(store: Store, now: int): Store {
    if |store| >= BUCKET_LIMIT then Pruned(store, now) else store
  }

  function Enforce(store: Store, key: string, rule: Rule, now: int): (Store, Answer) {
    var s := AtEntry(store, now);
    if !Live(s, key, now) then
      if key !in s && |s| >= BUCKET_LIMIT then (s, TooMany(RetrySeconds(rule.windowMs)))
      else (s[key := Bucket(1, now + rule.windowMs)], Allowed)
    else if s[key].count >= rule.limit then (s, TooMany(RetrySeconds(s[key].resetAt - now)))
    else (s[key := s[key].(count := s[key].count + 1)], Allowed)
  }

  class Limiter {
    var store: Store

    constructor ()
      ensures store == map[]
    {
      store := map[];
    }

    method PruneExpiredBuckets(now: int)
      modifies this
      ensures store == Pruned(old(store), now)
    {
      var keys := store.Keys;
      while keys != {}
        invariant keys <= old(store).Keys
        invariant store == map k | k in old(store) && (k in keys || old(store)[k].resetAt > now) :: old(store)[k]
        decreases |keys|
      {
        var key :| key in keys;
        if store[key].resetAt <= now {
          store := store - {key};
        }
        keys := keys - {key};
      }
    }

    method MemoryEnforce(key: string, rule: Rule, now: int) returns (answer: Answer)
      modifies this
      ensures (store, answer) == Enforce(old(store), key, rule, now)
    {
      if |store| >= BUCKET_LIMIT {
        PruneExpiredBuckets(now);
      }
      if key !in store || store[key].resetAt <= now {
        if key !in store && |store| >= BUCKET_LIMIT {
          return TooMany(RetrySeconds(rule.windowMs));
        }
        store := store[key := Bucket(1, now + rule.windowMs)];
        return Allowed;
      }
      var existing := store[key];
      if existing.count >= rule.limit {
        return TooMany(RetrySeconds(existing.resetAt - now));
      }
      store := store[key := existing.(count := existing.count + 1)];
      return Allowed;
    }
  }

  // ------------------------------------------------------------ memory bound

  lemma PrunedIsSmaller(store: Store, now: int)
    ensures |Pruned(store, now)| <= |store|
  {
    assert Pruned(store, now).Keys <= store.Keys;
    Fewer(Pruned(store, now).Keys, store.Keys);
  }

  lemma {:induction false} Fewer(a: set<string>, b: set<string>)
    requires a <= b
    ensures |a| <= |b|
    decreases |a|
  {
    if a != {} {
      var x :| x in a;
      Fewer(a - {x}, b - {x});
    }
  }

  /** No call makes the store hold more than 5000 buckets. */
  lemma StoreIsBounded(store: Store, key: string, rule: Rule, now: int)
    requires |store| <= BUCKET_LIMIT
    ensures |Enforce(store, key, rule, now).0| <= BUCKET_LIMIT
  {
    PrunedIsSmaller(store, now);
    var s := AtEntry(store, now);
    if key in s {
      assert s[key := Bucket(1, now + rule.windowMs)].Keys == s.Keys;
      assert s[key := s[key].(count := s[key].count + 1)].Keys == s.Keys;
    } else {
      assert s[key := Bucket(1, now + rule.windowMs)].Keys == s.Keys + {key};
    }
  }

  /** No call drops a live bucket, moves the end of its window, or forgets part of its count. */
  lemma LiveBucketsStay(store: Store, key: string, rule: Rule, now: int, k: string)
    requires Live(store, k, now)
    ensures var (after, answer) := Enforce(store, key, rule, now);
      && k in after && after[k].resetAt == store[k].resetAt
      && after[k].count == store[k].count + (if k == key && answer.Allowed? then 1 else 0)
  {
  }

  /** A key without a live bucket is refused only while 5000 other keys have live ones. */
  lemma RefusedNewcomerMeansFull(store: Store, key: string, rule: Rule, now: int)
    requires !Live(store, key, now) && Enforce(store, key, rule, now).1.TooMany?
    ensures |set k | k in store && Live(store, k, now)| >= BUCKET_LIMIT
  {
    assert (set k | k in store && Live(store, k, now)) == Pruned(store, now).Keys;
  }

  /** Waiting as long as a refusal says is enough, when nothing else changed the store. */
  lemma RetryAfterSuffices(store: Store, key: string, rule: Rule, now: int, later: int)
    requires |store| <= BUCKET_LIMIT && Live(store, key, now)
    requires Enforce(store, key, rule, now).1.TooMany?
    requires later >= now + Enforce(store, key, rule, now).1.retryAfterSeconds * 1000
    ensures Enforce(Enforce(store, key, rule, now).0, key, rule, later).1.Allowed?
  {
    var after := Enforce(store, key, rule, now).0;
    StoreIsBounded(store, key, rule, now);
    LiveBucketsStay(store, key, rule, now, key);
    if |after| >= BUCKET_LIMIT {
      var s := Pruned(after, later);
      assert s.Keys <= after.Keys - {key};
      Fewer(s.Keys, after.Keys - {key});
    }
  }

  /**
   * A newcomer that is refused is told to wait for one window of its own. If nothing else changes the store
   * it is admitted later if and only if some bucket has expired by then.
   */
  lemma NewcomerAdviceExactly(store: Store, key: string, rule: Rule, now: int, later: int)
    requires |store| <= BUCKET_LIMIT && !Live(store, key, now) && now <= later
    requires Enforce(store, key, rule, now).1.TooMany?
    ensures var (after, answer) := Enforce(store, key, rule, now);
      && (rule.windowMs > 0 ==> rule.windowMs <= answer.retryAfterSeconds * 1000 < rule.windowMs + 1000)
      && (Enforce(after, key, rule, later).1.Allowed? <==> exists k :: k in after && after[k].resetAt <= later)
  {
    var after := Enforce(store, key, rule, now).0;
    StoreIsBounded(store, key, rule, now);
    var s := Pruned(after, later);
    assert key !in after && |after| == BUCKET_LIMIT;
    if exists k :: k in after && after[k].resetAt <= later {
      var k :| k in after && after[k].resetAt <= later;
      assert s.Keys <= after.Keys - {k};
      Fewer(s.Keys, after.Keys - {k});
    } else {
      assert s == after;
    }
  }

  datatype Call = Call(key: string, rule: Rule, now: int)

  function Run(store: Store, calls: seq<Call>): Store
    decreases |calls|
  {
    if calls == [] then store
    else Run(Enforce(store, calls[0].key, calls[0].rule, calls[0].now).0, calls[1..])
  }

  /** Over every run from the empty store, at most 5000 buckets are held. */
  lemma {:induction false} RunIsBounded(store: Store, calls: seq<Call>)
    requires |store| <= BUCKET_LIMIT
    ensures |Run(store, calls)| <= BUCKET_LIMIT
    decreases |calls|
  {
    if calls != [] {
      StoreIsBounded(store, calls[0].key, calls[0].rule, calls[0].now);
      RunIsBounded(Enforce(store, calls[0].key, calls[0].rule, calls[0].now).0, calls[1..]);
    }
  }
}
