/** The transactions of `src/lib/jobQueue.ts`: claim, settle, create, retry, mark and reclaim. */
module JobQueue {
  import opened Options
  import opened JobTable

  const MAX_SAFE_INTEGER := 0x1F_FFFF_FFFF_FFFF
  const RETRY_AFTER_MS := 15_000
  const STALE_THRESHOLD_MS := 2 * 60 * 60_000
  const STALE_DOC_TRANSLATE_MS := 4 * 60 * 60_000

  datatype OwnerBudget = OwnerBudget(
    limit: int, settledUnitsFloor: int, maxActiveJobs: int, settledSince: Option<int>)

  datatype Reservation = Reservation(
    scope: string, units: int, perUserLimit: int, globalLimit: int,
    windowStart: int, windowEnd: int, owner: Option<OwnerBudget>)

  datatype ClaimRequest = ClaimRequest(
    kind: JobType, sessionId: Option<string>, userId: Option<string>,
    maxAttempts: int, activeKey: string, resource: Reservation)

  /** The database clock at three points of one claim: first read, insert, second read. */
  datatype Readings = Readings(admission: int, insert: int, final: int)

  datatype Dimension = Global | User | Owner

  datatype ClaimError =
    | InvalidReservation
    | WindowExpired(at: int)
    | Conflict
    | ConcurrencyExceeded(maxActiveJobs: int)
    | BudgetExceeded(dimension: Dimension, resetAt: Option<int>)

  datatype ClaimResult = Claimed(id: nat) | Rejected(error: ClaimError)

  predicate SafeInteger(n: int) {
    -MAX_SAFE_INTEGER <= n <= MAX_SAFE_INTEGER
  }

  predicate ScopeChar(c: char) {
    'a' <= c <= 'z' || '0' <= c <= '9' || c == ':' || c == '_' || c == '-'
  }

  predicate NonEmpty(s: Option<string>) {
    s.Some? && s.value != ""
  }

  predicate ValidReservation(req: ClaimRequest) {
    var r := req.resource;
    && NonEmpty(req.userId)
    && 1 <= |r.scope| <= 64 && (forall i :: 0 <= i < |r.scope| ==> ScopeChar(r.scope[i]))
    && SafeInteger(r.units) && 0 <= r.units
    && SafeInteger(r.perUserLimit) && 0 < r.perUserLimit
    && SafeInteger(r.globalLimit) && 0 < r.globalLimit
    && r.perUserLimit <= r.globalLimit
    && r.windowStart < r.windowEnd
    && (r.owner.Some? ==>
          && NonEmpty(req.sessionId)
          && SafeInteger(r.owner.value.limit) && 0 < r.owner.value.limit
          && SafeInteger(r.owner.value.settledUnitsFloor) && 0 <= r.owner.value.settledUnitsFloor
          && SafeInteger(r.owner.value.maxActiveJobs) && 0 < r.owner.value.maxActiveJobs)
  }

  predicate InWindow(r: Reservation, t: int) {
    r.windowStart <= t < r.windowEnd
  }

  function Max(a: int, b: int): int {
    if a > b then a else b
  }

  function Min(a: int, b: int): int {
    if a < b then a else b
  }

  // ---- what admission means ----

  /** Everything a pool holds or has spent in the window, plus the request, is within the limit. */
  ghost predicate Fits(rows: seq<Job>, p: Pool, r: Reservation, limit: int) {
    Total(rows, Query(p, true, true, true, CompletedIn(r.windowStart, r.windowEnd))) + r.units <= limit
  }

  /** An owner's commitment: known usage or the reported floor, whichever is larger, plus the rest. */
  ghost function OwnerUse(rows: seq<Job>, p: Pool, floor: int, since: Option<int>): int {
    Max(Total(rows, Query(p, false, true, false, CreatedSince(since))), floor)
    + Total(rows, Query(p, true, false, true, CreatedSince(since)))
  }

  ghost predicate OwnerFits(rows: seq<Job>, p: Pool, o: OwnerBudget, units: int) {
    && HeldCount(rows, p) < o.maxActiveJobs
    && OwnerUse(rows, p, o.settledUnitsFloor, o.settledSince) + units <= o.limit
  }

  ghost predicate Admissible(rows: seq<Job>, req: ClaimRequest, at: Readings) {
    var r := req.resource;
    && ValidReservation(req)
    && InWindow(r, at.admission) && InWindow(r, at.final)
    && !KeyTaken(rows, req.activeKey)
    && (r.owner.Some? ==>
          OwnerFits(rows, OneOwner(r.scope, req.kind, req.sessionId.value), r.owner.value, r.units))
    && Fits(rows, WholeScope(r.scope), r, r.globalLimit)
    && Fits(rows, OneUser(r.scope, req.userId.value), r, r.perUserLimit)
  }

  function ClaimedRow(req: ClaimRequest, at: Readings): Job
    requires 0 <= req.resource.units
  {
    Job(req.kind, Processing, req.sessionId, req.userId, 1, req.maxAttempts, at.insert,
        Some(at.admission), None, Some(req.activeKey), Some(req.resource.scope),
        req.resource.units, None)
  }

  ghost function ClaimRows(rows: seq<Job>, req: ClaimRequest, at: Readings): seq<Job> {
    if Admissible(rows, req, at) then rows + [ClaimedRow(req, at)] else rows
  }

  // ---- the checks of a claim, in their order ----

  predicate Enters(req: ClaimRequest, at: Readings) {
    ValidReservation(req) && InWindow(req.resource, at.admission)
  }

  predicate FindsKeyFree(rows: seq<Job>, req: ClaimRequest, at: Readings) {
    Enters(req, at) && !KeyTaken(rows, req.activeKey)
  }

  /** The owner, if the reservation names one, has a free slot. */
  predicate FindsOwnerSlot(rows: seq<Job>, req: ClaimRequest, at: Readings) {
    && FindsKeyFree(rows, req, at)
    && var r := req.resource;
       r.owner.Some? ==>
         HeldCount(rows, OneOwner(r.scope, req.kind, req.sessionId.value)) < r.owner.value.maxActiveJobs
  }

  ghost predicate FitsOwner(rows: seq<Job>, req: ClaimRequest, at: Readings) {
    && FindsOwnerSlot(rows, req, at)
    && var r := req.resource;
       r.owner.Some? ==> OwnerFits(rows, OneOwner(r.scope, req.kind, req.sessionId.value), r.owner.value, r.units)
  }

  ghost predicate FitsScope(rows: seq<Job>, req: ClaimRequest, at: Readings) {
    FitsOwner(rows, req, at) && Fits(rows, WholeScope(req.resource.scope), req.resource, req.resource.globalLimit)
  }

  ghost predicate FitsUser(rows: seq<Job>, req: ClaimRequest, at: Readings) {
    && FitsScope(rows, req, at)
    && Fits(rows, OneUser(req.resource.scope, req.userId.value), req.resource, req.resource.perUserLimit)
  }

  /** Why a claim was refused: the reason is real, and no earlier check would have refused it. */
  ghost predicate Justified(e: ClaimError, rows: seq<Job>, req: ClaimRequest, at: Readings) {
    var r := req.resource;
    match e
    case InvalidReservation => !ValidReservation(req)
    case WindowExpired(t) =>
      || (t == at.admission && ValidReservation(req) && !InWindow(r, at.admission))
      || (t == at.final && FitsUser(rows, req, at) && !InWindow(r, at.final))
    case Conflict => Enters(req, at) && KeyTaken(rows, req.activeKey)
    case ConcurrencyExceeded(max) =>
      && FindsKeyFree(rows, req, at) && !FindsOwnerSlot(rows, req, at)
      && max == r.owner.value.maxActiveJobs
    case BudgetExceeded(Owner, resetAt) =>
      FindsOwnerSlot(rows, req, at) && !FitsOwner(rows, req, at) && resetAt == None
    case BudgetExceeded(Global, resetAt) =>
      && FitsOwner(rows, req, at) && !FitsScope(rows, req, at)
      && RetryAdvice(rows, WholeScope(r.scope), r, r.globalLimit, at.admission, resetAt)
    case BudgetExceeded(User, resetAt) =>
      && FitsScope(rows, req, at) && !FitsUser(rows, req, at)
      && RetryAdvice(rows, OneUser(r.scope, req.userId.value), r, r.perUserLimit, at.admission, resetAt)
  }

  /** A claim that is not admissible has exactly one justified refusal, and an admissible one has none. */
  lemma RefusalIsDetermined(rows: seq<Job>, req: ClaimRequest, at: Readings, e: ClaimError, f: ClaimError)
    requires Justified(e, rows, req, at)
    ensures !Admissible(rows, req, at)
    ensures Justified(f, rows, req, at) ==> e == f
  {
  }

  /** The window's end when only a new window helps; soon, when releasing in-flight work would do. */
  ghost predicate RetryAdvice(rows: seq<Job>, p: Pool, r: Reservation, limit: int, now: int, resetAt: Option<int>) {
    var spent := Total(rows, Query(p, false, true, true, CompletedIn(r.windowStart, r.windowEnd)));
    resetAt == Some(if spent + r.units > limit then r.windowEnd else Min(r.windowEnd, now + RETRY_AFTER_MS))
  }

  // ---- settlement, creation, retry, marks ----

  function SettledRow(j: Job, success: bool, actual: Option<nat>, retainKey: bool, now: int): Job {
    j.(status := if success then Success else Failed,
       completedAt := Some(now),
       activeKey := if success && retainKey then j.activeKey else None,
       actual := actual)
  }

  predicate Settleable(rows: seq<Job>, id: nat) {
    id < |rows| && rows[id].status == Processing
  }

  function SettleRows(
    rows: seq<Job>, id: nat, success: bool, actual: Option<nat>, retainKey: bool, now: int): seq<Job>
  {
    if Settleable(rows, id) then rows[id := SettledRow(rows[id], success, actual, retainKey, now)] else rows
  }

  datatype CreateRequest = CreateRequest(
    kind: JobType, sessionId: Option<string>, userId: Option<string>, maxAttempts: int, activeKey: Option<string>)

  predicate Creatable(rows: seq<Job>, c: CreateRequest) {
    c.activeKey.Some? ==> !KeyTaken(rows, c.activeKey.value)
  }

  function CreateRows(rows: seq<Job>, c: CreateRequest, now: int): seq<Job> {
    if Creatable(rows, c)
    then rows + [Job(c.kind, Submitted, c.sessionId, c.userId, 1, c.maxAttempts, now, None, None,
                     c.activeKey, None, 0, None)]
    else rows
  }

  /** The first half of `retryJob`: the snapshot it read and found worth retrying. */
  predicate RetryWorthwhile(j: Job) {
    Retryable(j.kind) && j.status == Failed && !(j.attempt >= j.maxAttempts && j.maxAttempts > 1)
  }

  function ReacquiredKey(snapshot: Job): Option<string> {
    if snapshot.activeKey == None && snapshot.kind == AudioEnhance && NonEmpty(snapshot.sessionId)
    then Some(AudioKey(snapshot.sessionId.value)) else None
  }

  /** The second half: one conditional UPDATE against whatever the row has become meanwhile. */
  predicate RetryLands(rows: seq<Job>, id: nat, snapshot: Job) {
    && id < |rows| && rows[id].status == Failed && rows[id].attempt == snapshot.attempt
    && (ReacquiredKey(snapshot).Some? ==>
          forall i :: 0 <= i < |rows| && i != id ==> rows[i].activeKey != ReacquiredKey(snapshot))
  }

  function RetriedRow(j: Job, snapshot: Job): Job {
    j.(status := Submitted, attempt := j.attempt + 1, startedAt := None, completedAt := None,
       activeKey := if ReacquiredKey(snapshot).Some? then ReacquiredKey(snapshot) else j.activeKey)
  }

  function RetryRows(rows: seq<Job>, id: nat, snapshot: Job): seq<Job> {
    if RetryLands(rows, id, snapshot) then rows[id := RetriedRow(rows[id], snapshot)] else rows
  }

  function MarkProcessingRows(rows: seq<Job>, id: nat, now: int): seq<Job> {
    if id < |rows| then rows[id := rows[id].(status := Processing, startedAt := Some(now))] else rows
  }

  function MarkDoneRows(rows: seq<Job>, id: nat, success: bool, now: int): seq<Job> {
    if id < |rows|
    then rows[id := rows[id].(status := if success then Success else Failed, completedAt := Some(now),
                              activeKey := None)]
    else rows
  }

  // ---- reclaiming stale rows ----

  /** Empty lists mean the source's absent options. */
  datatype TypeFilter = TypeFilter(only: seq<JobType>, exclude: seq<JobType>)

  predicate PassesFilter(kind: JobType, f: TypeFilter) {
    if f.only != [] then kind in f.only
    else if f.exclude != [] then kind !in f.exclude
    else true
  }

  predicate Stale(j: Job, thresholdMs: int, f: TypeFilter, now: int) {
    && j.status == Processing
    && j.startedAt.Some? && j.startedAt.value <= now - thresholdMs
    && PassesFilter(j.kind, f)
  }

  function ReclaimedRow(j: Job, now: int): Job {
    j.(status := Failed, completedAt := Some(now), activeKey := None)
  }

  /** One reclaim transaction: every stale row of the given scopes (None: the rows without one). */
  function ReclaimRows(
    rows: seq<Job>, scopes: set<Option<string>>, thresholdMs: int, f: TypeFilter, now: int): (out: seq<Job>)
    ensures |out| == |rows|
  {
    seq(|rows|, i requires 0 <= i < |rows| =>
      if Stale(rows[i], thresholdMs, f, now) && rows[i].scope in scopes then ReclaimedRow(rows[i], now) else rows[i])
  }

  function StaleCount(rows: seq<Job>, scopes: set<Option<string>>, thresholdMs: int, f: TypeFilter, now: int): nat {
    if rows == [] then 0
    else
      var j := rows[|rows| - 1];
      StaleCount(rows[..|rows| - 1], scopes, thresholdMs, f, now)
      + Unit(Stale(j, thresholdMs, f, now) && j.scope in scopes)
  }

  /** Every scope that occurs, and the rows without one. */
  ghost function ScopesOf(rows: seq<Job>): set<Option<string>> {
    (set i | 0 <= i < |rows| :: rows[i].scope) + {None}
  }

  /** Reclaiming two disjoint groups of scopes one after the other is reclaiming their union. */
  lemma {:induction false} ReclaimInTurn(
    rows: seq<Job>, a: set<Option<string>>, b: set<Option<string>>, thresholdMs: int, f: TypeFilter, now: int)
    requires a !! b
    ensures var mid := ReclaimRows(rows, a, thresholdMs, f, now);
      && ReclaimRows(mid, b, thresholdMs, f, now) == ReclaimRows(rows, a + b, thresholdMs, f, now)
      && StaleCount(rows, a, thresholdMs, f, now) + StaleCount(mid, b, thresholdMs, f, now)
         == StaleCount(rows, a + b, thresholdMs, f, now)
  {
    var mid := ReclaimRows(rows, a, thresholdMs, f, now);
    assert ReclaimRows(mid, b, thresholdMs, f, now) == ReclaimRows(rows, a + b, thresholdMs, f, now);
    if rows != [] {
      var n := |rows| - 1;
      assert mid[..n] == ReclaimRows(rows[..n], a, thresholdMs, f, now);
      ReclaimInTurn(rows[..n], a, b, thresholdMs, f, now);
    }
  }

  datatype Delivery = Acknowledged | AckLost | Aborted

  datatype SettleReply = Settled | NotProcessing | TransportError | InvalidUsage

  class Queue {
    var rows: seq<Job>
    var now: int            // the database clock
    var mutated: seq<nat>   // job ids whose business mutation was committed, in order

    constructor (now: int)
      ensures rows == [] && mutated == [] && this.now == now
    {
      rows, mutated, this.now := [], [], now;
    }

    /** `claimActiveJob` with a resource reservation, holding the scope lock throughout. */
    method ClaimActiveJob(req: ClaimRequest, at: Readings) returns (result: ClaimResult)
      requires now <= at.admission <= at.insert <= at.final
      modifies this`rows, this`now
      ensures rows == ClaimRows(old(rows), req, at)
      ensures old(now) <= now <= at.final
      ensures result.Claimed? <==> Admissible(old(rows), req, at)
      ensures result.Claimed? ==> result.id == |old(rows)| && now == at.final
      ensures result.Rejected? ==> Justified(result.error, old(rows), req, at)
    {
      if !ValidReservation(req) {
        return Rejected(InvalidReservation);
      }
      var r := req.resource;
      now := at.admission;
      if !InWindow(r, at.admission) {
        return Rejected(WindowExpired(at.admission));
      }
      if KeyTaken(rows, req.activeKey) {
        return Rejected(Conflict);
      }
      if r.owner.Some? {
        var o := r.owner.value;
        var pool := OneOwner(r.scope, req.kind, req.sessionId.value);
        var since := CreatedSince(o.settledSince);
        if HeldCount(rows, pool) >= o.maxActiveJobs {
          return Rejected(ConcurrencyExceeded(o.maxActiveJobs));
        }
        var active := Total(rows, Query(pool, true, false, false, since));
        var known := Total(rows, Query(pool, false, true, false, since));
        var unknown := Total(rows, Query(pool, false, false, true, since));
        TotalSplit(rows, pool, since);
        if Max(known, o.settledUnitsFloor) + unknown + active + r.units > o.limit {
          return Rejected(BudgetExceeded(Owner, None));
        }
      }
      var window := CompletedIn(r.windowStart, r.windowEnd);
      var scopePool, userPool := WholeScope(r.scope), OneUser(r.scope, req.userId.value);
      var globalActive := Total(rows, Query(scopePool, true, false, false, window));
      var userActive := Total(rows, Query(userPool, true, false, false, window));
      var globalSettled := Total(rows, Query(scopePool, false, true, false, window));
      var userSettled := Total(rows, Query(userPool, false, true, false, window));
      var globalUnknown := Total(rows, Query(scopePool, false, false, true, window));
      var userUnknown := Total(rows, Query(userPool, false, false, true, window));
      TotalSplit(rows, scopePool, window);
      TotalSplit(rows, userPool, window);
      var globalCommitted := globalSettled + globalUnknown;
      var userCommitted := userSettled + userUnknown;
      if globalActive + globalCommitted + r.units > r.globalLimit {
        return Rejected(BudgetExceeded(Global, Some(RetryAt(globalCommitted, r, r.globalLimit, at.admission))));
      }
      if userActive + userCommitted + r.units > r.perUserLimit {
        return Rejected(BudgetExceeded(User, Some(RetryAt(userCommitted, r, r.perUserLimit, at.admission))));
      }
      now := at.final;
      if !InWindow(r, at.final) {
        return Rejected(WindowExpired(at.final));   // rolls the insert back
      }
      rows := rows + [ClaimedRow(req, at)];
      return Claimed(|rows| - 1);
    }

    static function RetryAt(committed: nat, r: Reservation, limit: int, admissionNow: int): int {
      if committed + r.units > limit then r.windowEnd else Min(r.windowEnd, admissionNow + RETRY_AFTER_MS)
    }

    /**
     * `settleActiveJob`: one compare-and-swap out of PROCESSING with the caller's business mutation
     * in the same transaction. The transaction may abort, or commit and lose its acknowledgement;
     * `readable` says whether the read-back that follows succeeds.
     */
    method SettleActiveJob(
      id: nat, success: bool, actualUnits: Option<int>, retainKey: bool, hasMutation: bool,
      delivery: Delivery, readable: bool)
      returns (reply: SettleReply)
      modifies this`rows, this`mutated
      ensures reply == InvalidUsage <==>
        actualUnits.Some? && !(SafeInteger(actualUnits.value) && 0 <= actualUnits.value)
      ensures reply == InvalidUsage ==> rows == old(rows) && mutated == old(mutated)
      ensures reply != InvalidUsage ==>
        var units := if actualUnits.Some? then Some(actualUnits.value as nat) else None;
        var moved := Settleable(old(rows), id) && delivery != Aborted;
        && rows == (if moved then SettleRows(old(rows), id, success, units, retainKey, now) else old(rows))
        && mutated == old(mutated) + (if moved && hasMutation then [id] else [])
        && (reply == Settled <==>
              || (moved && delivery == Acknowledged)
              || (readable && id < |rows| && rows[id].status == (if success then Success else Failed)))
        && (reply == NotProcessing <==> reply != Settled && readable && delivery == Acknowledged)
    {
      if actualUnits.Some? && !(SafeInteger(actualUnits.value) && 0 <= actualUnits.value) {
        return InvalidUsage;
      }
      var units := if actualUnits.Some? then Some(actualUnits.value as nat) else None;
      var count := 0;
      if delivery != Aborted && Settleable(rows, id) {
        rows := rows[id := SettledRow(rows[id], success, units, retainKey, now)];
        count := 1;
        if hasMutation {
          mutated := mutated + [id];
        }
      }
      if delivery == Acknowledged && count == 1 {
        return Settled;
      }
      if !readable {
        return TransportError;
      }
      if id < |rows| && rows[id].status == (if success then Success else Failed) {
        return Settled;
      }
      return if delivery == Acknowledged then NotProcessing else TransportError;
    }

    method CreateJob(c: CreateRequest) returns (id: Option<nat>)
      modifies this`rows
      ensures rows == CreateRows(old(rows), c, now)
      ensures id == (if Creatable(old(rows), c) then Some(|old(rows)|) else None)
    {
      if c.activeKey.Some? && KeyTaken(rows, c.activeKey.value) {
        return None;
      }
      id := Some(|rows|);
      rows := rows + [Job(c.kind, Submitted, c.sessionId, c.userId, 1, c.maxAttempts, now, None, None,
                          c.activeKey, None, 0, None)];
    }

    /** `retryJob` up to its first await: the snapshot to retry from, if any. */
    method ReadForRetry(id: nat) returns (snapshot: Option<Job>)
      ensures snapshot == if id < |rows| && RetryWorthwhile(rows[id]) then Some(rows[id]) else None
    {
      if id >= |rows| || !Retryable(rows[id].kind) || rows[id].status != Failed
         || (rows[id].attempt >= rows[id].maxAttempts && rows[id].maxAttempts > 1) {
        return None;
      }
      return Some(rows[id]);
    }

    /** `retryJob` after it: the conditional update, which the unique key may veto. */
    method WriteRetry(id: nat, snapshot: Job) returns (ok: bool)
      modifies this`rows
      ensures rows == RetryRows(old(rows), id, snapshot)
      ensures ok == RetryLands(old(rows), id, snapshot)
    {
      var key := ReacquiredKey(snapshot);
      if id >= |rows| || rows[id].status != Failed || rows[id].attempt != snapshot.attempt {
        return false;
      }
      if key.Some? && exists i :: 0 <= i < |rows| && i != id && rows[i].activeKey == key {
        return false;
      }
      rows := rows[id := RetriedRow(rows[id], snapshot)];
      return true;
    }

    method MarkJobProcessing(id: nat)
      modifies this`rows
      ensures rows == MarkProcessingRows(old(rows), id, now)
    {
      if id < |rows| {
        rows := rows[id := rows[id].(status := Processing, startedAt := Some(now))];
      }
    }

    method MarkJobDone(id: nat, success: bool)
      modifies this`rows
      ensures rows == MarkDoneRows(old(rows), id, success, now)
    {
      if id < |rows| {
        rows := rows[id := rows[id].(status := if success then Success else Failed,
                                     completedAt := Some(now), activeKey := None)];
      }
    }

    /** SELECT DISTINCT resourceScope over the stale rows. */
    method StaleScopes(thresholdMs: int, f: TypeFilter) returns (scopes: seq<Option<string>>)
      ensures forall i, j :: 0 <= i < j < |scopes| ==> scopes[i] != scopes[j]
      ensures forall i :: 0 <= i < |scopes| ==> scopes[i] != None
      ensures forall i ::
        0 <= i < |rows| && Stale(rows[i], thresholdMs, f, now) && rows[i].scope != None ==> rows[i].scope in scopes
    {
      scopes := [];
      for k := 0 to |rows|
        invariant forall i, j :: 0 <= i < j < |scopes| ==> scopes[i] != scopes[j]
        invariant forall i :: 0 <= i < |scopes| ==> scopes[i] != None
        invariant forall i ::
          0 <= i < k && Stale(rows[i], thresholdMs, f, now) && rows[i].scope != None ==> rows[i].scope in scopes
      {
        if Stale(rows[k], thresholdMs, f, now) && rows[k].scope != None && rows[k].scope !in scopes {
          scopes := scopes + [rows[k].scope];
        }
      }
    }

    /** `reclaimStaleProcessingJobs`: scope by scope, then the rows that hold no reservation. */
    method ReclaimStaleProcessingJobs(thresholdMs: int, f: TypeFilter) returns (reclaimed: Option<nat>)
      modifies this`rows
      ensures reclaimed.None? <==> !(SafeInteger(thresholdMs) && 0 < thresholdMs)
      ensures reclaimed.None? ==> rows == old(rows)
      ensures reclaimed.Some? ==>
        && rows == ReclaimRows(old(rows), ScopesOf(old(rows)), thresholdMs, f, now)
        && reclaimed.value == StaleCount(old(rows), ScopesOf(old(rows)), thresholdMs, f, now)
    {
      if !(SafeInteger(thresholdMs) && 0 < thresholdMs) {
        return None;
      }
      ghost var before := rows;
      var scopes := StaleScopes(thresholdMs, f);
      var total := 0;
      ghost var done: set<Option<string>> := {};
      NothingReclaimed(before, thresholdMs, f, now);
      for k := 0 to |scopes|
        invariant done == set i | 0 <= i < k :: scopes[i]
        invariant rows == ReclaimRows(before, done, thresholdMs, f, now)
        invariant total == StaleCount(before, done, thresholdMs, f, now)
      {
        assert scopes[k] !in done;
        ReclaimInTurn(before, done, {scopes[k]}, thresholdMs, f, now);
        total := total + StaleCount(rows, {scopes[k]}, thresholdMs, f, now);
        rows := ReclaimRows(rows, {scopes[k]}, thresholdMs, f, now);
        done := done + {scopes[k]};
      }
      ReclaimInTurn(before, done, {None}, thresholdMs, f, now);
      total := total + StaleCount(rows, {None}, thresholdMs, f, now);
      rows := ReclaimRows(rows, {None}, thresholdMs, f, now);
      OnlyStaleScopesMatter(before, done + {None}, ScopesOf(before), thresholdMs, f, now);
      return Some(total);
    }

    /**
     * `reclaimAllStaleProcessingJobs`: document translation waits four hours, all else two. The second
     * pass reads the clock anew, `pause` later.
     */
    method ReclaimAllStaleProcessingJobs(pause: nat) returns (count: nat)
      modifies this`rows, this`now
      ensures now == old(now) + pause
      ensures rows == OverdueReclaimed(old(rows), old(now), now)
      ensures count == OverdueCount(old(rows), old(now), now)
    {
      BothTiersCount(rows, ScopesOf(rows), now, now + pause);
      BothTiersReclaim(rows, ScopesOf(rows), now, now + pause);
      var first := ReclaimStaleProcessingJobs(STALE_THRESHOLD_MS, ALL_BUT_DOCUMENTS);
      now := now + pause;
      var second := ReclaimStaleProcessingJobs(STALE_DOC_TRANSLATE_MS, DOCUMENTS);
      count := first.value + second.value;
    }
  }

  /** The clock reading of the pass that looks at the row. */
  function PassAt(j: Job, first: int, second: int): int {
    if j.kind == DocTranslate then second else first
  }

  /** What the tiers amount to for one row. */
  predicate Overdue(j: Job, now: int) {
    && j.status == Processing && j.startedAt.Some?
    && now - j.startedAt.value >= (if j.kind == DocTranslate then 4 * 3_600_000 else 2 * 3_600_000)
  }

  /** Every overdue row failed, stamped by its own pass; the others as they were. */
  function OverdueReclaimed(rows: seq<Job>, first: int, second: int): seq<Job> {
    seq(|rows|, i requires 0 <= i < |rows| =>
      var at := PassAt(rows[i], first, second);
      if Overdue(rows[i], at) then ReclaimedRow(rows[i], at) else rows[i])
  }

  function OverdueCount(rows: seq<Job>, first: int, second: int): nat {
    if rows == [] then 0
    else
      var j := rows[|rows| - 1];
      OverdueCount(rows[..|rows| - 1], first, second) + Unit(Overdue(j, PassAt(j, first, second)))
  }

  const ALL_BUT_DOCUMENTS := TypeFilter([], [DocTranslate])
  const DOCUMENTS := TypeFilter([DocTranslate], [])

  /** The two passes reclaim disjoint rows, and together the overdue ones. */
  lemma {:induction false} BothTiersCount(rows: seq<Job>, every: set<Option<string>>, now: int, later: int)
    requires forall i :: 0 <= i < |rows| ==> rows[i].scope in every
    ensures var mid := ReclaimRows(rows, every, STALE_THRESHOLD_MS, ALL_BUT_DOCUMENTS, now);
      && StaleCount(rows, every, STALE_THRESHOLD_MS, ALL_BUT_DOCUMENTS, now)
         + StaleCount(mid, every, STALE_DOC_TRANSLATE_MS, DOCUMENTS, later)
         == OverdueCount(rows, now, later)
  {
    var mid := ReclaimRows(rows, every, STALE_THRESHOLD_MS, ALL_BUT_DOCUMENTS, now);
    assert forall i :: 0 <= i < |rows| ==> mid[i].scope == rows[i].scope;
    if rows != [] {
      var n := |rows| - 1;
      BothTiersCount(rows[..n], every, now, later);
      assert mid[..n] == ReclaimRows(rows[..n], every, STALE_THRESHOLD_MS, ALL_BUT_DOCUMENTS, now);
    }
  }

  lemma BothTiersReclaim(rows: seq<Job>, every: set<Option<string>>, now: int, later: int)
    requires forall i :: 0 <= i < |rows| ==> rows[i].scope in every
    ensures var mid := ReclaimRows(rows, every, STALE_THRESHOLD_MS, ALL_BUT_DOCUMENTS, now);
      && ScopesOf(mid) == ScopesOf(rows)
      && ReclaimRows(mid, every, STALE_DOC_TRANSLATE_MS, DOCUMENTS, later) == OverdueReclaimed(rows, now, later)
  {
    var mid := ReclaimRows(rows, every, STALE_THRESHOLD_MS, ALL_BUT_DOCUMENTS, now);
    assert forall i :: 0 <= i < |rows| ==> mid[i].scope == rows[i].scope;
  }

  lemma {:induction false} NothingReclaimed(rows: seq<Job>, thresholdMs: int, f: TypeFilter, now: int)
    ensures ReclaimRows(rows, {}, thresholdMs, f, now) == rows
    ensures StaleCount(rows, {}, thresholdMs, f, now) == 0
  {
    if rows != [] {
      NothingReclaimed(rows[..|rows| - 1], thresholdMs, f, now);
    }
  }

  lemma {:induction false} OnlyStaleScopesMatter(
    rows: seq<Job>, a: set<Option<string>>, b: set<Option<string>>, thresholdMs: int, f: TypeFilter, now: int)
    requires forall i ::
      0 <= i < |rows| && Stale(rows[i], thresholdMs, f, now) ==> rows[i].scope in a && rows[i].scope in b
    ensures ReclaimRows(rows, a, thresholdMs, f, now) == ReclaimRows(rows, b, thresholdMs, f, now)
    ensures StaleCount(rows, a, thresholdMs, f, now) == StaleCount(rows, b, thresholdMs, f, now)
  {
    if rows != [] {
      OnlyStaleScopesMatter(rows[..|rows| - 1], a, b, thresholdMs, f, now);
    }
  }
}
