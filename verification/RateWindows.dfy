/** How many calls of one key the fixed-window limiter of src/lib/rateLimit.ts:205-240 lets through in a
  * closed interval of one window, and exactly when that is at most twice the limit. */
module RateWindows {
  import opened RateLimits

  /** How many of the calls that count are let through by `serve`, a limiter of any kind. */
  function Tally(serve: (Store, Call) -> (Store, bool), counts: Call -> bool, store: Store, calls: seq<Call>): nat
    decreases |calls|
  {
    if calls == [] then 0 else
    var (after, allowed) := serve(store, calls[0]);
    (if allowed && counts(calls[0]) then 1 else 0) + Tally(serve, counts, after, calls[1..])
  }

  function Serve(store: Store, call: Call): (Store, bool) {
    var (after, answer) := Enforce(store, call.key, call.rule, call.now);
    (after, answer.Allowed?)
  }

  function Inside(key: string, from: int, to: int): Call -> bool {
    (call: Call) => call.key == key && from <= call.now <= to
  }

  /** How many calls for `key` with a clock from `from` to `to` are allowed. */
  function AllowedIn(store: Store, calls: seq<Call>, key: string, from: int, to: int): nat {
    Tally(Serve, Inside(key, from, to), store, calls)
  }

  function Served(store: Store, call: Call): Store {
    Serve(store, call).0
  }

  ghost predicate OneRule(calls: seq<Call>, key: string, rule: Rule) {
    forall i :: 0 <= i < |calls| && calls[i].key == key ==> calls[i].rule == rule
  }

  ghost predicate Ordered(calls: seq<Call>) {
    forall i, j :: 0 <= i < j < |calls| ==> calls[i].now <= calls[j].now
  }

  /** What is left of a bucket's window. */
  function Left(b: Bucket, rule: Rule): nat
    requires rule.limit >= 0
  {
    if b.count < rule.limit then rule.limit - b.count else 0
  }

  // ------------------------------------------ with a clock that goes forward

  /** The most that calls between `now` and `from + windowMs` can still get. */
  function Budget(store: Store, key: string, rule: Rule, from: int, now: int): int
    requires rule.limit >= 0
  {
    if Live(store, key, now) then
      Left(store[key], rule) + (if store[key].resetAt <= from + rule.windowMs then rule.limit else 0)
    else
      rule.limit + (if now == from then rule.limit else 0)
  }

  lemma CallSpendsBudget(store: Store, call: Call, key: string, rule: Rule, from: int)
    requires rule.limit >= 1 && rule.windowMs > 0 && from <= call.now
    requires call.key == key ==> call.rule == rule
    ensures var (after, allowed) := Serve(store, call);
      (if call.key == key && allowed then 1 else 0) + Budget(after, key, rule, from, call.now)
      <= Budget(store, key, rule, from, call.now)
  {
  }

  lemma TimeSpendsBudget(store: Store, key: string, rule: Rule, from: int, now: int, later: int)
    requires rule.limit >= 1 && from <= now <= later <= from + rule.windowMs
    ensures Budget(store, key, rule, from, later) <= Budget(store, key, rule, from, now)
  {
  }

  lemma {:induction false} NoneAllowedLater(store: Store, calls: seq<Call>, key: string, from: int, to: int)
    requires Ordered(calls) && (calls != [] ==> calls[0].now > to)
    ensures AllowedIn(store, calls, key, from, to) == 0
    decreases |calls|
  {
    if calls != [] {
      NoneAllowedLater(Served(store, calls[0]), calls[1..], key, from, to);
    }
  }

  lemma {:induction false} CallsStayInBudget(
    store: Store, calls: seq<Call>, key: string, rule: Rule, from: int, now: int)
    requires rule.limit >= 1 && rule.windowMs > 0 && OneRule(calls, key, rule) && Ordered(calls)
    requires from <= now <= from + rule.windowMs && (calls != [] ==> now <= calls[0].now)
    ensures AllowedIn(store, calls, key, from, from + rule.windowMs) <= Budget(store, key, rule, from, now)
    decreases |calls|
  {
    if calls == [] {
    } else if calls[0].now > from + rule.windowMs {
      NoneAllowedLater(store, calls, key, from, from + rule.windowMs);
    } else {
      TimeSpendsBudget(store, key, rule, from, now, calls[0].now);
      CallSpendsBudget(store, calls[0], key, rule, from);
      CallsStayInBudget(
        Served(store, calls[0]), calls[1..], key, rule, from, calls[0].now);
    }
  }

  /** From any store, full or not, a key gets at most twice its limit in any closed interval of one window
    * when the clock goes forward over the whole run. */
  lemma {:induction false} TwiceTheLimitPerWindow(store: Store, calls: seq<Call>, key: string, rule: Rule, from: int)
    requires rule.limit >= 1 && rule.windowMs > 0 && OneRule(calls, key, rule) && Ordered(calls)
    ensures AllowedIn(store, calls, key, from, from + rule.windowMs) <= 2 * rule.limit
    decreases |calls|
  {
    if calls == [] || calls[0].now >= from {
      CallsStayInBudget(store, calls, key, rule, from, from);
    } else {
      TwiceTheLimitPerWindow(
        Served(store, calls[0]), calls[1..], key, rule, from);
    }
  }

  // ---------------------------------------- with a clock that may step back

  /** No call finds the store full, so none prunes it. */
  ghost predicate NeverFull(store: Store, calls: seq<Call>)
    decreases |calls|
  {
    calls == [] || (|store| < BUCKET_LIMIT
                    && NeverFull(Served(store, calls[0]), calls[1..]))
  }

  /** How many calls for `key` have a clock past `to`. */
  function Past(calls: seq<Call>, key: string, to: int): nat {
    if calls == [] then 0
    else (if calls[0].key == key && calls[0].now > to then 1 else 0) + Past(calls[1..], key, to)
  }

  /** The most that calls in the interval can still get when no bucket is ever pruned. */
  function Allowance(store: Store, key: string, rule: Rule, from: int): nat
    requires rule.limit >= 0
  {
    if key !in store || store[key].resetAt <= from then 2 * rule.limit
    else Left(store[key], rule) + (if store[key].resetAt <= from + rule.windowMs then rule.limit else 0)
  }

  lemma CallSpendsAllowance(store: Store, call: Call, key: string, rule: Rule, from: int)
    requires rule.limit >= 1 && rule.windowMs > 0 && |store| < BUCKET_LIMIT
    requires call.key == key ==> call.rule == rule
    requires call.key == key && call.now > from + rule.windowMs ==> rule.limit == 1
    ensures var (after, allowed) := Serve(store, call);
      (if allowed && Inside(key, from, from + rule.windowMs)(call) then 1 else 0)
      + Allowance(after, key, rule, from)
      <= Allowance(store, key, rule, from)
  {
  }

  lemma {:induction false} CallsStayInAllowance(store: Store, calls: seq<Call>, key: string, rule: Rule, from: int)
    requires rule.limit >= 1 && rule.windowMs > 0 && OneRule(calls, key, rule) && NeverFull(store, calls)
    requires Past(calls, key, from + rule.windowMs) == 0 || rule.limit == 1
    ensures AllowedIn(store, calls, key, from, from + rule.windowMs) <= Allowance(store, key, rule, from)
    decreases |calls|
  {
    if calls != [] {
      CallSpendsAllowance(store, calls[0], key, rule, from);
      CallsStayInAllowance(
        Served(store, calls[0]), calls[1..], key, rule, from);
    }
  }

  /** Calls as the application makes them, which never pass a limit or a window of zero. */
  ghost predicate Proper(calls: seq<Call>) {
    forall i :: 0 <= i < |calls| ==> calls[i].rule.limit >= 1 && calls[i].rule.windowMs > 0
  }

  /** A store the limiter can have come to hold. */
  ghost predicate Reached(store: Store) {
    exists before :: Proper(before) && Run(map[], before) == store
  }

  lemma StartIsReached()
    ensures Reached(map[])
  {
    assert Run(map[], []) == map[];
    assert Proper([]);
  }

  /** A run of the key's one rule with at most `past` of its calls from behind the interval, and one that
    * prunes only if it may. */
  ghost predicate Covered(
    store: Store, calls: seq<Call>, key: string, rule: Rule, from: int, past: nat, mayPrune: bool)
  {
    && Proper(calls) && OneRule(calls, key, rule) && Past(calls, key, from + rule.windowMs) <= past
    && (mayPrune || NeverFull(store, calls))
  }

  /** Twice the limit is the most that any such run gets in the interval, in any order of its clocks. */
  ghost predicate Guaranteed(key: string, rule: Rule, from: int, past: nat, mayPrune: bool) {
    forall store, calls :: Reached(store) && Covered(store, calls, key, rule, from, past, mayPrune) ==>
      AllowedIn(store, calls, key, from, from + rule.windowMs) <= 2 * rule.limit
  }

  // --------------------------------------------------------- how it is broken

  /** The store with one bucket of the key. */
  function Holding(store: Store, key: string, count: nat, resetAt: int): Store {
    store[key := Bucket(count, resetAt)]
  }

  /** Neither this store nor one with one more live bucket loses anything to pruning now. */
  ghost predicate Calm(store: Store, now: int) {
    |store| + 1 < BUCKET_LIMIT || forall k :: k in store ==> store[k].resetAt > now
  }

  lemma CalmEntry(store: Store, key: string, count: nat, resetAt: int, now: int)
    requires Calm(store, now) && resetAt > now
    ensures AtEntry(Holding(store, key, count, resetAt), now) == Holding(store, key, count, resetAt)
  {
    var holding := Holding(store, key, count, resetAt);
    assert holding.Keys == store.Keys + {key};
    assert |holding| == |holding.Keys| && |store| == |store.Keys|;
  }

  /** `n` times the same call, then `rest`. */
  function Burst(call: Call, n: nat, rest: seq<Call>): seq<Call> {
    if n == 0 then rest else [call] + Burst(call, n - 1, rest)
  }

  lemma FirstOf(store: Store, call: Call, rest: seq<Call>, key: string, from: int, to: int)
    ensures AllowedIn(store, [call] + rest, key, from, to)
         == (if Serve(store, call).1 && Inside(key, from, to)(call) then 1 else 0)
            + AllowedIn(Served(store, call), rest, key, from, to)
  {
    assert ([call] + rest)[1..] == rest;
  }

  lemma OneMore(store: Store, call: Call, count: nat, resetAt: int)
    requires Calm(store, call.now) && resetAt > call.now && count < call.rule.limit
    ensures Enforce(Holding(store, call.key, count, resetAt), call.key, call.rule, call.now)
         == (Holding(store, call.key, count + 1, resetAt), Allowed)
  {
    CalmEntry(store, call.key, count, resetAt, call.now);
    var holding := Holding(store, call.key, count, resetAt);
    assert holding[call.key := Bucket(count + 1, resetAt)] == Holding(store, call.key, count + 1, resetAt);
  }

  lemma Opens(store: Store, call: Call)
    requires !Live(store, call.key, call.now) && |store| < BUCKET_LIMIT
    ensures Enforce(store, call.key, call.rule, call.now)
         == (Holding(store, call.key, 1, call.now + call.rule.windowMs), Allowed)
  {
  }

  /** The store behind the first `j` of such calls. */
  function Filled(store: Store, key: string, j: nat, resetAt: int): Store {
    if j == 0 then store else Holding(store, key, j, resetAt)
  }

  lemma FillsUp(store: Store, call: Call, j: nat)
    requires j < call.rule.limit && call.rule.windowMs > 0
    requires !Live(store, call.key, call.now) && |store| < BUCKET_LIMIT && Calm(store, call.now)
    ensures var end := call.now + call.rule.windowMs;
      Serve(Filled(store, call.key, j, end), call) == (Filled(store, call.key, j + 1, end), true)
  {
    if j == 0 {
      Opens(store, call);
    } else {
      OneMore(store, call, j, call.now + call.rule.windowMs);
    }
  }

  /** Along a chain of stores on which every one of `n - i` calls is let through, all of them count. */
  lemma {:induction false} ChainTally(
    serve: (Store, Call) -> (Store, bool), counts: Call -> bool, chain: nat -> Store,
    call: Call, i: nat, n: nat, rest: seq<Call>)
    requires i <= n && counts(call) && forall j :: i <= j < n ==> serve(chain(j), call) == (chain(j + 1), true)
    ensures Tally(serve, counts, chain(i), Burst(call, n - i, rest)) == n - i + Tally(serve, counts, chain(n), rest)
    decreases n - i
  {
    if i < n {
      ChainTally(serve, counts, chain, call, i + 1, n, rest);
      assert ([call] + Burst(call, n - i - 1, rest))[1..] == Burst(call, n - i - 1, rest);
    }
  }

  function Filling(store: Store, call: Call): nat -> Store {
    (j: nat) => Filled(store, call.key, j, call.now + call.rule.windowMs)
  }

  lemma FillingServes(store: Store, call: Call)
    requires call.rule.windowMs > 0
    requires !Live(store, call.key, call.now) && |store| < BUCKET_LIMIT && Calm(store, call.now)
    ensures forall j: nat :: j < call.rule.limit ==>
      Serve(Filling(store, call)(j), call) == (Filling(store, call)(j + 1), true)
  {
    forall j: nat | j < call.rule.limit
      ensures Serve(Filling(store, call)(j), call) == (Filling(store, call)(j + 1), true)
    {
      FillsUp(store, call, j);
    }
  }

  /** A whole limit of calls at the moment a window opens: all are allowed. */
  lemma FreshBurst(store: Store, call: Call, rest: seq<Call>, from: int, to: int)
    requires from <= call.now <= to && call.rule.limit >= 1 && call.rule.windowMs > 0
    requires !Live(store, call.key, call.now) && |store| < BUCKET_LIMIT && Calm(store, call.now)
    ensures AllowedIn(store, Burst(call, call.rule.limit, rest), call.key, from, to)
      == call.rule.limit
         + AllowedIn(Holding(store, call.key, call.rule.limit, call.now + call.rule.windowMs), rest, call.key, from, to)
  {
    var n, end := call.rule.limit, call.now + call.rule.windowMs;
    FillingServes(store, call);
    assert Filling(store, call)(0) == store && Filling(store, call)(n) == Holding(store, call.key, n, end);
    ChainTally(Serve, Inside(call.key, from, to), Filling(store, call), call, 0, call.rule.limit, rest);
  }

  lemma {:induction false} BurstFacts(call: Call, n: nat, rest: seq<Call>, key: string, rule: Rule, to: int)
    requires call.key == key ==> call.rule == rule
    requires Proper([call]) && Proper(rest) && OneRule(rest, key, rule)
    ensures Proper(Burst(call, n, rest)) && OneRule(Burst(call, n, rest), key, rule)
    ensures call.now <= to ==> Past(Burst(call, n, rest), key, to) == Past(rest, key, to)
    decreases n
  {
    if n > 0 {
      BurstFacts(call, n - 1, rest, key, rule, to);
      assert [call][0] == call;
      assert ([call] + Burst(call, n - 1, rest))[1..] == Burst(call, n - 1, rest);
    }
  }

  lemma {:induction false} OneKeyIsNeverFull(store: Store, calls: seq<Call>, key: string)
    requires store.Keys <= {key} && forall i :: 0 <= i < |calls| ==> calls[i].key == key
    ensures NeverFull(store, calls)
    decreases |calls|
  {
    if calls != [] {
      Fewer(store.Keys, {key});
      OneKeyIsNeverFull(Served(store, calls[0]), calls[1..], key);
    }
  }

  lemma {:induction false} BurstKeys(call: Call, n: nat, rest: seq<Call>)
    requires forall i :: 0 <= i < |rest| ==> rest[i].key == call.key
    ensures forall i :: 0 <= i < |Burst(call, n, rest)| ==> Burst(call, n, rest)[i].key == call.key
    decreases n
  {
    if n > 0 {
      BurstKeys(call, n - 1, rest);
    }
  }

  lemma SecondBurst(key: string, rule: Rule, from: int, last: seq<Call>)
    requires rule.limit >= 1 && rule.windowMs > 0
    ensures var to := from + rule.windowMs;
      AllowedIn(Holding(map[], key, rule.limit, to), Burst(Call(key, rule, to), rule.limit, last), key, from, to)
      == rule.limit + AllowedIn(Holding(map[], key, rule.limit, to + rule.windowMs), last, key, from, to)
  {
    var to := from + rule.windowMs;
    var used := Holding(map[], key, rule.limit, to);
    assert |used| == 1;
    FreshBurst(used, Call(key, rule, to), last, from, to);
    assert Holding(used, key, rule.limit, to + rule.windowMs) == Holding(map[], key, rule.limit, to + rule.windowMs);
  }

  /** Twice the limit: a burst as the interval begins, and one as it ends. */
  lemma TwoBursts(key: string, rule: Rule, from: int, last: seq<Call>)
    requires rule.limit >= 1 && rule.windowMs > 0
    ensures var to := from + rule.windowMs;
      AllowedIn(map[], Burst(Call(key, rule, from), rule.limit, Burst(Call(key, rule, to), rule.limit, last)),
                key, from, to)
      == 2 * rule.limit + AllowedIn(Holding(map[], key, rule.limit, to + rule.windowMs), last, key, from, to)
  {
    var to := from + rule.windowMs;
    FreshBurst(map[], Call(key, rule, from), Burst(Call(key, rule, to), rule.limit, last), from, to);
    SecondBurst(key, rule, from, last);
  }

  /** One call from behind the interval opens a window that the clock, stepping back, can use up inside. */
  lemma OneLateCallBreaksTheBound(key: string, rule: Rule, from: int) returns (calls: seq<Call>)
    requires rule.limit >= 2 && rule.windowMs > 0
    ensures Covered(map[], calls, key, rule, from, 1, false)
    ensures AllowedIn(map[], calls, key, from, from + rule.windowMs) == 2 * rule.limit + 1
  {
    var to := from + rule.windowMs;
    var first, second := Call(key, rule, from), Call(key, rule, to);
    var last := [Call(key, rule, to + rule.windowMs)] + [first];
    var rest := Burst(second, rule.limit, last);
    calls := Burst(first, rule.limit, rest);
    LateCalls(key, rule, from, last, rest, calls);
    TwoBursts(key, rule, from, last);
    LateTail(key, rule, from);
  }

  lemma LateCalls(key: string, rule: Rule, from: int, last: seq<Call>, rest: seq<Call>, calls: seq<Call>)
    requires rule.limit >= 2 && rule.windowMs > 0
    requires var to := from + rule.windowMs;
      && last == [Call(key, rule, to + rule.windowMs)] + [Call(key, rule, from)]
      && rest == Burst(Call(key, rule, to), rule.limit, last)
      && calls == Burst(Call(key, rule, from), rule.limit, rest)
    ensures Covered(map[], calls, key, rule, from, 1, false)
  {
    var to := from + rule.windowMs;
    var first, second := Call(key, rule, from), Call(key, rule, to);
    assert Past([first], key, to) == 0;
    assert last[1..] == [first];
    assert Proper([first]) && Proper([second]) && Proper(last);
    BurstFacts(second, rule.limit, last, key, rule, to);
    BurstFacts(first, rule.limit, rest, key, rule, to);
    BurstKeys(second, rule.limit, last);
    BurstKeys(first, rule.limit, rest);
    OneKeyIsNeverFull(map[], calls, key);
  }

  lemma LateTail(key: string, rule: Rule, from: int)
    requires rule.limit >= 2 && rule.windowMs > 0
    ensures var to := from + rule.windowMs;
      AllowedIn(Holding(map[], key, rule.limit, to + rule.windowMs),
                [Call(key, rule, to + rule.windowMs)] + [Call(key, rule, from)], key, from, to) == 1
  {
    var to := from + rule.windowMs;
    var first, late := Call(key, rule, from), Call(key, rule, to + rule.windowMs);
    var before := Holding(map[], key, rule.limit, late.now);
    var after := Holding(map[], key, 1, late.now + rule.windowMs);
    assert |before| == 1;
    Opens(before, late);
    assert Holding(before, key, 1, late.now + rule.windowMs) == after;
    OneMore(map[], first, 1, late.now + rule.windowMs);
    FirstOf(before, late, [first], key, from, to);
    FirstOf(after, first, [], key, from, to);
    assert [first] + [] == [first];
  }

  // ---- a store that fills up ----

  function Unary(n: nat): string {
    if n == 0 then "" else "x" + Unary(n - 1)
  }

  lemma {:induction false} UnaryLength(n: nat)
    ensures |Unary(n)| == n
  {
    if n > 0 {
      UnaryLength(n - 1);
    }
  }

  /** `n` buckets of keys longer than `base`, each of one call, live until `until`. */
  function Crowd(n: nat, base: nat, until: int): Store {
    if n == 0 then map[] else Crowd(n - 1, base, until)[Unary(base + n) := Bucket(1, until)]
  }

  lemma AddedKey(store: Store, key: string, b: Bucket)
    requires key !in store
    ensures |store[key := b]| == |store| + 1
  {
    assert store[key := b].Keys == store.Keys + {key};
    assert |store[key := b]| == |store[key := b].Keys| && |store| == |store.Keys|;
  }

  lemma {:induction false} CrowdFacts(n: nat, base: nat, until: int)
    ensures |Crowd(n, base, until)| == n
    ensures forall k :: k in Crowd(n, base, until) ==>
      base < |k| <= base + n && Crowd(n, base, until)[k] == Bucket(1, until)
  {
    if n > 0 {
      CrowdFacts(n - 1, base, until);
      UnaryLength(base + n);
      AddedKey(Crowd(n - 1, base, until), Unary(base + n), Bucket(1, until));
    }
  }

  function Newcomer(i: nat, base: nat, rule: Rule, now: int): Call {
    Call(Unary(base + i), rule, now)
  }

  /** One call each of the keys after the first `i`, up to the `n`th, then `rest`. */
  function Newcomers(i: nat, n: nat, base: nat, rule: Rule, now: int, rest: seq<Call>): seq<Call>
    requires i <= n
    decreases n - i
  {
    if i == n then rest else [Newcomer(i + 1, base, rule, now)] + Newcomers(i + 1, n, base, rule, now, rest)
  }

  lemma NewcomerIsNew(i: nat, base: nat, until: int)
    ensures |Crowd(i, base, until)| == i && Unary(base + (i + 1)) !in Crowd(i, base, until)
  {
    CrowdFacts(i, base, until);
    UnaryLength(base + (i + 1));
  }

  lemma NewcomerEnters(i: nat, base: nat, rule: Rule, now: int)
    requires i < BUCKET_LIMIT
    ensures Serve(Crowd(i, base, now + rule.windowMs), Newcomer(i + 1, base, rule, now))
         == (Crowd(i + 1, base, now + rule.windowMs), true)
  {
    NewcomerIsNew(i, base, now + rule.windowMs);
    Opens(Crowd(i, base, now + rule.windowMs), Newcomer(i + 1, base, rule, now));
  }

  lemma NewcomerCounts(i: nat, base: nat, rule: Rule, now: int, rest: seq<Call>, key: string, from: int, to: int)
    requires i < BUCKET_LIMIT && |key| <= base
    ensures AllowedIn(Crowd(i, base, now + rule.windowMs), [Newcomer(i + 1, base, rule, now)] + rest, key, from, to)
         == AllowedIn(Crowd(i + 1, base, now + rule.windowMs), rest, key, from, to)
  {
    NewcomerEnters(i, base, rule, now);
    UnaryLength(base + i + 1);
    FirstOf(Crowd(i, base, now + rule.windowMs), Newcomer(i + 1, base, rule, now), rest, key, from, to);
  }

  /** The newcomers fill the store, and are none of the calls of a key no longer than `base`. */
  lemma {:induction false} NewcomersCrowd(
    i: nat, n: nat, base: nat, rule: Rule, now: int, rest: seq<Call>, key: string, from: int, to: int)
    requires i <= n <= BUCKET_LIMIT && |key| <= base
    ensures AllowedIn(Crowd(i, base, now + rule.windowMs), Newcomers(i, n, base, rule, now, rest), key, from, to)
         == AllowedIn(Crowd(n, base, now + rule.windowMs), rest, key, from, to)
    decreases n - i
  {
    if i < n {
      NewcomerCounts(i, base, rule, now, Newcomers(i + 1, n, base, rule, now, rest), key, from, to);
      NewcomersCrowd(i + 1, n, base, rule, now, rest, key, from, to);
    }
  }

  lemma {:induction false} NewcomersFacts(
    i: nat, n: nat, base: nat, filler: Rule, now: int, rest: seq<Call>, key: string, rule: Rule, to: int)
    requires i <= n && |key| <= base && filler.limit >= 1 && filler.windowMs > 0
    requires Proper(rest) && OneRule(rest, key, rule)
    ensures var calls := Newcomers(i, n, base, filler, now, rest);
      Proper(calls) && OneRule(calls, key, rule) && Past(calls, key, to) == Past(rest, key, to)
    decreases n - i
  {
    if i < n {
      UnaryLength(base + i + 1);
      NewcomersFacts(i + 1, n, base, filler, now, rest, key, rule, to);
      var tail := Newcomers(i + 1, n, base, filler, now, rest);
      assert ([Newcomer(i + 1, base, filler, now)] + tail)[1..] == tail;
    }
  }

  /** A burst, then a call of another key that finds the store full and prunes the burst's bucket. */
  lemma BurstThenPrune(crowd: Store, call: Call, other: string, rest: seq<Call>, from: int, to: int)
    requires call.now == from && to == from + call.rule.windowMs
    requires call.rule.limit >= 1 && call.rule.windowMs > 0
    requires |crowd| == BUCKET_LIMIT - 1 && call.key !in crowd && other in crowd
    requires forall k :: k in crowd ==> crowd[k] == Bucket(1, to + 1)
    ensures AllowedIn(crowd, Burst(call, call.rule.limit, [Call(other, Rule(1, 1), to)] + rest), call.key, from, to)
      == call.rule.limit + AllowedIn(crowd, rest, call.key, from, to)
  {
    var refused := Call(other, Rule(1, 1), to);
    FreshBurst(crowd, call, [refused] + rest, from, to);
    PrunedAgain(crowd, call.key, call.rule.limit, other, to);
    FirstOf(Holding(crowd, call.key, call.rule.limit, to), refused, rest, call.key, from, to);
  }

  lemma PrunedAgain(crowd: Store, key: string, count: nat, other: string, to: int)
    requires |crowd| == BUCKET_LIMIT - 1 && key !in crowd && other in crowd
    requires forall k :: k in crowd ==> crowd[k] == Bucket(1, to + 1)
    ensures Enforce(Holding(crowd, key, count, to), other, Rule(1, 1), to)
         == (crowd, TooMany(RetrySeconds(1)))
  {
    var full := Holding(crowd, key, count, to);
    assert full.Keys == crowd.Keys + {key};
    assert |full| == |full.Keys| && |crowd| == |crowd.Keys|;
    assert Pruned(full, to) == crowd;
  }

  /** Three bursts, each followed by a call that prunes its bucket. */
  function ThreeBursts(call: Call, prune: Call): seq<Call>
    requires call.rule.limit >= 0
  {
    var third := Burst(call, call.rule.limit, [prune] + []);
    var second := Burst(call, call.rule.limit, [prune] + third);
    Burst(call, call.rule.limit, [prune] + second)
  }

  lemma ThreeBurstsCount(crowd: Store, call: Call, other: string, from: int, to: int)
    requires call.now == from && to == from + call.rule.windowMs
    requires call.rule.limit >= 1 && call.rule.windowMs > 0
    requires |crowd| == BUCKET_LIMIT - 1 && call.key !in crowd && other in crowd
    requires forall k :: k in crowd ==> crowd[k] == Bucket(1, to + 1)
    ensures AllowedIn(crowd, ThreeBursts(call, Call(other, Rule(1, 1), to)), call.key, from, to) == 3 * call.rule.limit
  {
    var prune := Call(other, Rule(1, 1), to);
    var third := Burst(call, call.rule.limit, [prune] + []);
    var second := Burst(call, call.rule.limit, [prune] + third);
    BurstThenPrune(crowd, call, other, [], from, to);
    BurstThenPrune(crowd, call, other, third, from, to);
    BurstThenPrune(crowd, call, other, second, from, to);
  }

  lemma PruneFacts(call: Call, prune: Call, n: nat, rest: seq<Call>, key: string, rule: Rule, to: int)
    requires call.key == key && call.rule == rule && call.now <= to && prune.key != key
    requires Proper([call]) && Proper([prune])
    requires Proper(rest) && OneRule(rest, key, rule) && Past(rest, key, to) == 0
    ensures var calls := Burst(call, n, [prune] + rest);
      Proper(calls) && OneRule(calls, key, rule) && Past(calls, key, to) == 0
  {
    assert ([prune] + rest)[1..] == rest && [prune][0] == prune;
    BurstFacts(call, n, [prune] + rest, key, rule, to);
  }

  lemma ThreeBurstsFacts(call: Call, prune: Call, to: int)
    requires call.rule.limit >= 1 && call.now <= to && prune.key != call.key && Proper([call]) && Proper([prune])
    ensures var calls := ThreeBursts(call, prune);
      Proper(calls) && OneRule(calls, call.key, call.rule) && Past(calls, call.key, to) == 0
  {
    var n := call.rule.limit;
    var third := Burst(call, n, [prune] + []);
    PruneFacts(call, prune, n, [], call.key, call.rule, to);
    PruneFacts(call, prune, n, third, call.key, call.rule, to);
    PruneFacts(call, prune, n, Burst(call, n, [prune] + third), call.key, call.rule, to);
  }

  lemma LastOfCrowd(n: nat, base: nat, until: int)
    requires n > 0
    ensures Unary(base + n) in Crowd(n, base, until) && |Unary(base + n)| == base + n
  {
    UnaryLength(base + n);
  }

  /** The call that prunes: the last of the crowd comes again, and is refused. */
  function PruneCall(key: string, to: int): Call {
    Call(Unary(|key| + BUCKET_LIMIT - 1), Rule(1, 1), to)
  }

  lemma CrowdToPrune(key: string, until: int)
    ensures var crowd := Crowd(BUCKET_LIMIT - 1, |key|, until);
      && |crowd| == BUCKET_LIMIT - 1 && key !in crowd && (forall k :: k in crowd ==> crowd[k] == Bucket(1, until))
      && Unary(|key| + BUCKET_LIMIT - 1) in crowd && |Unary(|key| + BUCKET_LIMIT - 1)| > |key|
  {
    CrowdFacts(BUCKET_LIMIT - 1, |key|, until);
    LastOfCrowd(BUCKET_LIMIT - 1, |key|, until);
  }

  lemma BurstsInCrowd(key: string, rule: Rule, from: int)
    requires rule.limit >= 1 && rule.windowMs > 0
    ensures var to := from + rule.windowMs;
      AllowedIn(Crowd(BUCKET_LIMIT - 1, |key|, to + 1), ThreeBursts(Call(key, rule, from), PruneCall(key, to)),
                key, from, to) == 3 * rule.limit
  {
    var to := from + rule.windowMs;
    CrowdToPrune(key, to + 1);
    ThreeBurstsCount(Crowd(BUCKET_LIMIT - 1, |key|, to + 1), Call(key, rule, from), PruneCall(key, to).key, from, to);
  }

  lemma BurstsAreCovered(key: string, rule: Rule, from: int)
    requires rule.limit >= 1 && rule.windowMs > 0
    ensures var to := from + rule.windowMs; var calls := ThreeBursts(Call(key, rule, from), PruneCall(key, to));
      Proper(calls) && OneRule(calls, key, rule) && Past(calls, key, to) == 0
  {
    var to := from + rule.windowMs;
    CrowdToPrune(key, to + 1);
    ThreeBurstsFacts(Call(key, rule, from), PruneCall(key, to), to);
  }

  /** With pruning, calls inside the interval alone can exceed the bound, again and again: from the empty
    * store, 4999 other keys come first, and one of them comes again, refused, whenever the store is full. */
  lemma PruningBreaksTheBound(key: string, rule: Rule, from: int) returns (calls: seq<Call>)
    requires rule.limit >= 1 && rule.windowMs > 0
    ensures Covered(map[], calls, key, rule, from, 0, true)
    ensures AllowedIn(map[], calls, key, from, from + rule.windowMs) == 3 * rule.limit
  {
    var to, filler := from + rule.windowMs, Rule(1, rule.windowMs + 1);
    var bursts := ThreeBursts(Call(key, rule, from), PruneCall(key, to));
    BurstsInCrowd(key, rule, from);
    BurstsAreCovered(key, rule, from);
    calls := Newcomers(0, BUCKET_LIMIT - 1, |key|, filler, from, bursts);
    NewcomersFacts(0, BUCKET_LIMIT - 1, |key|, filler, from, bursts, key, rule, to);
    NewcomersCrowd(0, BUCKET_LIMIT - 1, |key|, filler, from, bursts, key, from, to);
  }

  /** However the clock steps, twice the limit is guaranteed if and only if no call prunes and either no
    * call of the key comes from behind the interval or the limit is one. */
  lemma TwiceTheLimitExactly(key: string, rule: Rule, from: int, past: nat, mayPrune: bool)
    requires rule.limit >= 1 && rule.windowMs > 0
    ensures Guaranteed(key, rule, from, past, mayPrune) <==> !mayPrune && (past == 0 || rule.limit == 1)
  {
    StartIsReached();
    if mayPrune {
      var calls := PruningBreaksTheBound(key, rule, from);
      assert Covered(map[], calls, key, rule, from, past, true);
    } else if past > 0 && rule.limit > 1 {
      var calls := OneLateCallBreaksTheBound(key, rule, from);
      assert Covered(map[], calls, key, rule, from, past, false);
    } else {
      forall store, calls | Reached(store) && Covered(store, calls, key, rule, from, past, false)
        ensures AllowedIn(store, calls, key, from, from + rule.windowMs) <= 2 * rule.limit
      {
        CallsStayInAllowance(store, calls, key, rule, from);
      }
    }
  }
}
