/** Every interleaving of job-queue transactions, and what all of them keep. */
module JobRuns {
  import opened Options
  import opened JobTable
  import opened JobQueue

  /** A retry between its read and its conditional update. */
  datatype PendingRetry = PendingRetry(id: nat, snapshot: Job)

  /** `floors` is the business-side settled meter of each owner (zero until one is recorded). */
  datatype Ledger = Ledger(
    rows: seq<Job>, now: int, retries: seq<PendingRetry>, mutated: seq<nat>, floors: map<Pool, nat>)

  datatype Event =
    | Tick(to: int)
    | Claim(req: ClaimRequest, at: Readings)
    | Settle(id: nat, success: bool, actual: Option<nat>, retainKey: bool, hasMutation: bool, rise: nat)
    | Create(c: CreateRequest)
    | ReadRetry(id: nat)
    | WriteRetry(k: nat)
    | MarkProcessing(id: nat)
    | MarkDone(id: nat, success: bool)
    | Reclaim(scope: Option<string>, thresholdMs: int, f: TypeFilter)

  function Floor(s: Ledger, p: Pool): nat {
    if p in s.floors then s.floors[p] else 0
  }

  function OwnerOf(j: Job): Option<Pool> {
    if j.scope.Some? && j.sessionId.Some? then Some(OneOwner(j.scope.value, j.kind, j.sessionId.value)) else None
  }

  predicate InOrder(s: Ledger, at: Readings) {
    s.now <= at.admission <= at.insert <= at.final
  }

  /** One committed transaction (a rolled-back one is a `Tick`). */
  ghost function Step(s: Ledger, e: Event): Ledger {
    match e
    case Tick(to) => s.(now := Max(s.now, to))
    case Claim(req, at) =>
      if InOrder(s, at) then s.(rows := ClaimRows(s.rows, req, at), now := at.final) else s
    case Settle(id, success, actual, retainKey, hasMutation, rise) =>
      if !Settleable(s.rows, id) then s
      else
        var owner := OwnerOf(s.rows[id]);
        s.(rows := SettleRows(s.rows, id, success, actual, retainKey, s.now),
           mutated := if hasMutation then s.mutated + [id] else s.mutated,
           floors := if hasMutation && owner.Some?
                     then s.floors[owner.value := Floor(s, owner.value) + rise] else s.floors)
    case Create(c) => s.(rows := CreateRows(s.rows, c, s.now))
    case ReadRetry(id) =>
      if id < |s.rows| && RetryWorthwhile(s.rows[id])
      then s.(retries := s.retries + [PendingRetry(id, s.rows[id])]) else s
    case WriteRetry(k) =>
      if k < |s.retries| then s.(rows := RetryRows(s.rows, s.retries[k].id, s.retries[k].snapshot)) else s
    case MarkProcessing(id) => s.(rows := MarkProcessingRows(s.rows, id, s.now))
    case MarkDone(id, success) => s.(rows := MarkDoneRows(s.rows, id, success, s.now))
    case Reclaim(scope, thresholdMs, f) => s.(rows := ReclaimRows(s.rows, {scope}, thresholdMs, f, s.now))
  }

  ghost function Run(s: Ledger, es: seq<Event>): Ledger
    decreases |es|
  {
    if es == [] then s else Run(Step(s, es[0]), es[1..])
  }

  lemma ThreeSteps(s: Ledger, e: Event, f: Event, g: Event)
    ensures Run(s, [e, f, g]) == Step(Step(Step(s, e), f), g)
  {
    assert [e, f, g][1..] == [f, g] && [f, g][1..] == [g];
    assert Run(Step(Step(s, e), f), [g]) == Step(Step(Step(s, e), f), g);
  }

  ghost predicate Empty(s: Ledger) {
    s.rows == [] && s.retries == [] && s.mutated == []
  }

  ghost predicate MarksOnlyUnscoped(s: Ledger, e: Event) {
    && (e.MarkProcessing? && e.id < |s.rows| ==> s.rows[e.id].scope == None)
    && (e.MarkDone? && e.id < |s.rows| ==> s.rows[e.id].scope == None)
  }

  /** What the callers of one resource scope promise, whatever the budget in question. */
  ghost predicate Careful(s: Ledger, e: Event, scope: string) {
    && MarksOnlyUnscoped(s, e)
    && (e.Claim? && e.req.resource.scope == scope ==> !Retryable(e.req.kind))
    && (e.Settle? && Settleable(s.rows, e.id) && s.rows[e.id].scope == Some(scope) && e.actual.Some? ==>
          e.actual.value <= s.rows[e.id].reserved)
  }

  ghost predicate ScopeSound(s: Ledger, scope: string) {
    && (forall i :: 0 <= i < |s.rows| && s.rows[i].scope == Some(scope) ==>
          && !Retryable(s.rows[i].kind)
          && (!Terminal(s.rows[i]) ==> s.rows[i].actual == None))
    && (forall k :: 0 <= k < |s.retries| ==>
          && s.retries[k].id < |s.rows|
          && Retryable(s.rows[s.retries[k].id].kind))
  }

  /** A row that a transaction other than admission may turn `j` into. */
  ghost predicate Released(j: Job, k: Job, scope: string, now: int) {
    || k == j
    || (j.scope != Some(scope) && k.scope == j.scope && k.kind == j.kind)
    || (&& !Terminal(j) && Terminal(k) && k.completedAt == Some(now)
        && k.scope == j.scope && k.kind == j.kind && k.userId == j.userId && k.sessionId == j.sessionId
        && k.createdAt == j.createdAt && k.reserved == j.reserved
        && (k.actual.Some? ==> k.actual.value <= k.reserved))
  }

  lemma StepReleases(s: Ledger, e: Event, scope: string)
    requires ScopeSound(s, scope) && Careful(s, e, scope) && !e.Claim?
    ensures var t := Step(s, e);
      && |s.rows| <= |t.rows| <= |s.rows| + 1
      && (forall i :: 0 <= i < |s.rows| ==> Released(s.rows[i], t.rows[i], scope, s.now))
      && (|t.rows| == |s.rows| + 1 ==> t.rows[|s.rows|].scope == None)
  {
  }

  lemma StepKeepsScopeSound(s: Ledger, e: Event, scope: string)
    requires ScopeSound(s, scope) && Careful(s, e, scope)
    ensures ScopeSound(Step(s, e), scope)
  {
    if !e.Claim? {
      StepReleases(s, e, scope);
    }
  }

  // ---- the scope budget and each user's budget ----

  function ChargeIn(rows: seq<Job>, p: Pool, from: int, until: int): nat {
    Total(rows, Query(p, true, true, true, CompletedIn(from, until)))
  }

  function SpentIn(rows: seq<Job>, p: Pool, from: int, until: int): nat {
    Total(rows, Query(p, false, true, true, CompletedIn(from, until)))
  }

  function HeldBy(rows: seq<Job>, p: Pool): nat {
    Total(rows, Query(p, true, false, false, CreatedSince(None)))
  }

  /** The budget of a pool, and the limit a claim names for it. */
  datatype Budget = Budget(pool: Pool, limit: int)

  ghost predicate Names(b: Budget, req: ClaimRequest) {
    match b.pool
    case WholeScope(name) => req.resource.scope == name ==> req.resource.globalLimit == b.limit
    case OneUser(name, user) =>
      req.resource.scope == name && req.userId == Some(user) ==> req.resource.perUserLimit == b.limit
    case OneOwner(_, _, _) => false
  }

  /** Windows are consecutive: a claim's window is this one or does not meet it. */
  ghost predicate SameOrApart(r: Reservation, from: int, until: int) {
    (r.windowStart == from && r.windowEnd == until) || r.windowEnd <= from || until <= r.windowStart
  }

  ghost predicate KeepsBudget(s: Ledger, e: Event, b: Budget, from: int, until: int) {
    && Careful(s, e, b.pool.name)
    && (e.Claim? && e.req.resource.scope == b.pool.name ==>
          Names(b, e.req) && SameOrApart(e.req.resource, from, until))
  }

  ghost predicate AllKeepBudget(s: Ledger, es: seq<Event>, b: Budget, from: int, until: int)
    decreases |es|
  {
    es == [] || (KeepsBudget(s, es[0], b, from, until) && AllKeepBudget(Step(s, es[0]), es[1..], b, from, until))
  }

  /**
   * The inductive form. Before the window opens nothing was spent in it; until it closes, what is in
   * flight and what was spent in it share the limit; afterwards what was spent stays within it.
   */
  ghost predicate WithinBudget(s: Ledger, b: Budget, from: int, until: int) {
    && HeldBy(s.rows, b.pool) <= b.limit
    && (s.now < from ==> SpentIn(s.rows, b.pool, from, until) == 0)
    && (s.now < until ==> ChargeIn(s.rows, b.pool, from, until) <= b.limit)
    && SpentIn(s.rows, b.pool, from, until) <= b.limit
  }

  lemma ChargeIsHeldPlusSpent(rows: seq<Job>, p: Pool, from: int, until: int)
    ensures ChargeIn(rows, p, from, until) == HeldBy(rows, p) + SpentIn(rows, p, from, until)
  {
    TotalSplit(rows, p, CompletedIn(from, until));
    HeldIgnoresSpan(rows, p, CompletedIn(from, until), CreatedSince(None));
  }

  lemma ReleaseKeepsBudget(s: Ledger, t: Ledger, b: Budget, from: int, until: int)
    requires |t.rows| == |s.rows| && t.now == s.now && from < until
    requires !b.pool.OneOwner?
    requires forall i :: 0 <= i < |s.rows| ==> Released(s.rows[i], t.rows[i], b.pool.name, s.now)
    requires WithinBudget(s, b, from, until)
    ensures WithinBudget(t, b, from, until)
  {
    var window := CompletedIn(from, until);
    ChargeIsHeldPlusSpent(s.rows, b.pool, from, until);
    ChargeIsHeldPlusSpent(t.rows, b.pool, from, until);
    TotalPointwise(s.rows, t.rows, Query(b.pool, true, false, false, CreatedSince(None)),
                   Query(b.pool, true, false, false, CreatedSince(None)));
    if from <= s.now < until {
      TotalPointwise(s.rows, t.rows, Query(b.pool, true, true, true, window), Query(b.pool, true, true, true, window));
    } else {
      TotalPointwise(s.rows, t.rows, Query(b.pool, false, true, true, window),
                     Query(b.pool, false, true, true, window));
    }
  }

  lemma TimePasses(s: Ledger, to: int, b: Budget, from: int, until: int)
    requires WithinBudget(s, b, from, until) && s.now <= to
    ensures WithinBudget(s.(now := to), b, from, until)
  {
    ChargeIsHeldPlusSpent(s.rows, b.pool, from, until);
  }

  lemma AppendKeepsBudget(s: Ledger, j: Job, b: Budget, from: int, until: int)
    requires WithinBudget(s, b, from, until) && !Terminal(j)
    requires InPool(j, b.pool) ==>
      && HeldBy(s.rows, b.pool) + j.reserved <= b.limit
      && (s.now < until ==> ChargeIn(s.rows, b.pool, from, until) + j.reserved <= b.limit)
    ensures WithinBudget(s.(rows := s.rows + [j]), b, from, until)
  {
    TotalAppend(s.rows, j, Query(b.pool, true, false, false, CreatedSince(None)));
    TotalAppend(s.rows, j, Query(b.pool, true, true, true, CompletedIn(from, until)));
    TotalAppend(s.rows, j, Query(b.pool, false, true, true, CompletedIn(from, until)));
  }

  /** An admitted claim leaves room for its reservation, in this window and in flight. */
  lemma ClaimHasRoom(s: Ledger, req: ClaimRequest, at: Readings, b: Budget, from: int, until: int)
    requires WithinBudget(s, b, from, until) && InOrder(s, at) && from < until
    requires KeepsBudget(s, Claim(req, at), b, from, until)
    requires Admissible(s.rows, req, at) && !b.pool.OneOwner? && InPool(ClaimedRow(req, at), b.pool)
    ensures HeldBy(s.rows, b.pool) + req.resource.units <= b.limit
    ensures at.final < until ==> ChargeIn(s.rows, b.pool, from, until) + req.resource.units <= b.limit
  {
    var r := req.resource;
    assert Fits(s.rows, b.pool, r, b.limit);
    ChargeIsHeldPlusSpent(s.rows, b.pool, from, until);
    ChargeIsHeldPlusSpent(s.rows, b.pool, r.windowStart, r.windowEnd);
  }

  lemma ClaimKeepsBudget(s: Ledger, req: ClaimRequest, at: Readings, b: Budget, from: int, until: int)
    requires WithinBudget(s, b, from, until) && InOrder(s, at) && from < until
    requires KeepsBudget(s, Claim(req, at), b, from, until)
    requires Admissible(s.rows, req, at) && !b.pool.OneOwner?
    ensures WithinBudget(Step(s, Claim(req, at)), b, from, until)
  {
    var j := ClaimedRow(req, at);
    var u := s.(now := at.final);
    TimePasses(s, at.final, b, from, until);
    if InPool(j, b.pool) {
      ClaimHasRoom(s, req, at, b, from, until);
    }
    AppendKeepsBudget(u, j, b, from, until);
  }

  lemma StepKeepsBudget(s: Ledger, e: Event, b: Budget, from: int, until: int)
    requires from < until && !b.pool.OneOwner?
    requires ScopeSound(s, b.pool.name) && KeepsBudget(s, e, b, from, until)
    requires WithinBudget(s, b, from, until)
    ensures WithinBudget(Step(s, e), b, from, until)
  {
    var t := Step(s, e);
    if e.Tick? {
      TimePasses(s, t.now, b, from, until);
    } else if e.Claim? {
      if InOrder(s, e.at) {
        TimePasses(s, t.now, b, from, until);
        if Admissible(s.rows, e.req, e.at) {
          ClaimKeepsBudget(s, e.req, e.at, b, from, until);
        }
      }
    } else if e.Create? && Creatable(s.rows, e.c) {
      AppendKeepsBudget(s, t.rows[|s.rows|], b, from, until);
    } else {
      StepReleases(s, e, b.pool.name);
      ReleaseKeepsBudget(s, t, b, from, until);
    }
  }

  lemma {:induction false} RunKeepsBudget(s: Ledger, es: seq<Event>, b: Budget, from: int, until: int)
    requires from < until && !b.pool.OneOwner?
    requires ScopeSound(s, b.pool.name) && AllKeepBudget(s, es, b, from, until)
    requires WithinBudget(s, b, from, until)
    ensures WithinBudget(Run(s, es), b, from, until) && ScopeSound(Run(s, es), b.pool.name)
    decreases |es|
  {
    if es != [] {
      StepKeepsBudget(s, es[0], b, from, until);
      StepKeepsScopeSound(s, es[0], b.pool.name);
      RunKeepsBudget(Step(s, es[0]), es[1..], b, from, until);
    }
  }

  /**
   * For a scope or one user of it: after any run from an empty table, reservations in flight plus
   * usage stamped in the current window stay within the limit, and so does the usage of any window.
   */
  lemma BudgetNeverExceeded(s: Ledger, es: seq<Event>, b: Budget, from: int, until: int)
    requires Empty(s) && from < until && 0 <= b.limit && !b.pool.OneOwner?
    requires AllKeepBudget(s, es, b, from, until)
    ensures var t := Run(s, es);
      && (t.now < until ==> HeldBy(t.rows, b.pool) + SpentIn(t.rows, b.pool, from, until) <= b.limit)
      && SpentIn(t.rows, b.pool, from, until) <= b.limit
      && HeldBy(t.rows, b.pool) <= b.limit
  {
    RunKeepsBudget(s, es, b, from, until);
    ChargeIsHeldPlusSpent(Run(s, es).rows, b.pool, from, until);
  }

  // ---- an owner's budget ----

  datatype OwnerPolicy = OwnerPolicy(
    name: string, kind: JobType, session: string, limit: int, maxActive: int, since: Option<int>)

  function PoolOf(o: OwnerPolicy): Pool {
    OneOwner(o.name, o.kind, o.session)
  }

  predicate ClaimsFor(e: Event, o: OwnerPolicy) {
    e.Claim? && e.req.resource.scope == o.name && e.req.kind == o.kind && e.req.sessionId == Some(o.session)
  }

  /** The owner's usage that the table itself knows of. */
  function Known(rows: seq<Job>, o: OwnerPolicy): nat {
    Total(rows, Query(PoolOf(o), false, true, false, CreatedSince(o.since)))
  }

  /** Claims name the owner's own limits, and a settlement raises its meter by no more than it reports. */
  ghost predicate KeepsTerms(s: Ledger, e: Event, o: OwnerPolicy) {
    && Careful(s, e, o.name)
    && (ClaimsFor(e, o) ==>
          && e.req.resource.owner.Some?
          && var own := e.req.resource.owner.value;
             own.limit == o.limit && own.maxActiveJobs == o.maxActive && own.settledSince == o.since)
    && (e.Settle? ==> e.rise <= if e.actual.Some? then e.actual.value else 0)
  }

  /** Besides, the floor a claim names may be stale, but then the table makes up for it. */
  ghost predicate KeepsOwner(s: Ledger, e: Event, o: OwnerPolicy) {
    && KeepsTerms(s, e, o)
    && (ClaimsFor(e, o) ==>
          Floor(s, PoolOf(o)) <= Max(Known(s.rows, o), e.req.resource.owner.value.settledUnitsFloor))
  }

  ghost predicate AllKeepOwner(s: Ledger, es: seq<Event>, o: OwnerPolicy)
    decreases |es|
  {
    es == [] || (KeepsOwner(s, es[0], o) && AllKeepOwner(Step(s, es[0]), es[1..], o))
  }

  ghost predicate WithinOwner(s: Ledger, o: OwnerPolicy) {
    && OwnerUse(s.rows, PoolOf(o), Floor(s, PoolOf(o)), o.since) <= o.limit
    && HeldCount(s.rows, PoolOf(o)) <= o.maxActive
  }

  lemma SettleKeepsOwner(s: Ledger, e: Event, o: OwnerPolicy)
    requires e.Settle? && Settleable(s.rows, e.id) && KeepsOwner(s, e, o) && WithinOwner(s, o)
    ensures WithinOwner(Step(s, e), o)
  {
    var p, t := PoolOf(o), Step(s, e);
    var k := t.rows[e.id];
    TotalUpdate(s.rows, e.id, k, Query(p, false, true, false, CreatedSince(o.since)));
    TotalUpdate(s.rows, e.id, k, Query(p, true, false, true, CreatedSince(o.since)));
    HeldCountPointwise(s.rows, t.rows, p);
    assert InPool(s.rows[e.id], p) <==> OwnerOf(s.rows[e.id]) == Some(p);
  }

  lemma ReleasedRowsKeepOwner(s: Ledger, t: Ledger, o: OwnerPolicy)
    requires WithinOwner(s, o) && |t.rows| == |s.rows| && t.floors == s.floors
    requires forall i :: 0 <= i < |s.rows| ==> Released(s.rows[i], t.rows[i], o.name, s.now)
    requires forall i :: 0 <= i < |s.rows| && t.rows[i].scope == Some(o.name) && t.rows[i] != s.rows[i] ==>
      t.rows[i].actual == None
    ensures WithinOwner(t, o)
  {
    var p := PoolOf(o);
    var known := Query(p, false, true, false, CreatedSince(o.since));
    var open := Query(p, true, false, true, CreatedSince(o.since));
    TotalPointwise(s.rows, t.rows, known, known);
    TotalPointwise(s.rows, t.rows, open, open);
    HeldCountPointwise(s.rows, t.rows, p);
  }

  lemma AddedRowKeepsOwner(s: Ledger, j: Job, o: OwnerPolicy)
    requires WithinOwner(s, o)
    requires InPool(j, PoolOf(o)) ==>
      !Terminal(j)
      && OwnerUse(s.rows, PoolOf(o), Floor(s, PoolOf(o)), o.since) + j.reserved <= o.limit
      && HeldCount(s.rows, PoolOf(o)) + 1 <= o.maxActive
    ensures WithinOwner(s.(rows := s.rows + [j]), o)
  {
    TotalAppend(s.rows, j, Query(PoolOf(o), false, true, false, CreatedSince(o.since)));
    TotalAppend(s.rows, j, Query(PoolOf(o), true, false, true, CreatedSince(o.since)));
    HeldCountAppend(s.rows, j, PoolOf(o));
  }

  lemma ReleaseKeepsOwner(s: Ledger, e: Event, o: OwnerPolicy)
    requires !e.Settle? && !e.Claim? && ScopeSound(s, o.name) && KeepsOwner(s, e, o) && WithinOwner(s, o)
    ensures WithinOwner(Step(s, e), o)
  {
    var t := Step(s, e);
    StepReleases(s, e, o.name);
    if |t.rows| == |s.rows| {
      ReleasedRowsKeepOwner(s, t, o);
    } else {
      assert t.rows == s.rows + [t.rows[|s.rows|]];
      AddedRowKeepsOwner(s, t.rows[|s.rows|], o);
    }
  }

  lemma ClaimKeepsOwner(s: Ledger, e: Event, o: OwnerPolicy)
    requires e.Claim? && InOrder(s, e.at) && Admissible(s.rows, e.req, e.at)
    requires KeepsOwner(s, e, o) && WithinOwner(s, o)
    ensures WithinOwner(Step(s, e), o)
  {
    AddedRowKeepsOwner(s, ClaimedRow(e.req, e.at), o);
  }

  lemma StepKeepsOwner(s: Ledger, e: Event, o: OwnerPolicy)
    requires ScopeSound(s, o.name) && KeepsOwner(s, e, o) && WithinOwner(s, o)
    ensures WithinOwner(Step(s, e), o)
  {
    if e.Claim? {
      if InOrder(s, e.at) && Admissible(s.rows, e.req, e.at) {
        ClaimKeepsOwner(s, e, o);
      }
    } else if e.Settle? {
      if Settleable(s.rows, e.id) {
        SettleKeepsOwner(s, e, o);
      }
    } else {
      ReleaseKeepsOwner(s, e, o);
    }
  }

  /** An owner's lifetime budget and concurrency cap hold after every run that starts within them. */
  lemma {:induction false} OwnerNeverExceeded(s: Ledger, es: seq<Event>, o: OwnerPolicy)
    requires ScopeSound(s, o.name) && WithinOwner(s, o) && AllKeepOwner(s, es, o)
    ensures WithinOwner(Run(s, es), o)
    decreases |es|
  {
    if es != [] {
      StepKeepsOwner(s, es[0], o);
      StepKeepsScopeSound(s, es[0], o.name);
      OwnerNeverExceeded(Step(s, es[0]), es[1..], o);
    }
  }
}
