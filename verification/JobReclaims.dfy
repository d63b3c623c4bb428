/** What a row is good for: what it holds while it is in flight, when it is overdue, and what frees it
  * (src/lib/jobQueue.ts:275-496, 549-626, 871-921, 966-1047). */
module JobReclaims {
  import opened Options
  import opened JobTable
  import opened JobQueue
  import opened JobRuns
  import opened JobExclusivity

  const HOUR_MS := 60 * 60 * 1000

  function Patience(kind: JobType): int {
    if kind == DocTranslate then 4 * HOUR_MS else 2 * HOUR_MS
  }

  /** Units in flight, of a pool. */
  function Held(rows: seq<Job>, p: Pool): nat {
    Total(rows, Query(p, true, false, false, CreatedSince(None)))
  }

  // ------------------------------------------------------------------- claims

  /** The row an admitted claim appends is overdue exactly from its own patience after its admission. */
  lemma ClaimIsOverdueExactly(rows: seq<Job>, req: ClaimRequest, at: Readings, later: int)
    requires Admissible(rows, req, at)
    ensures var t := ClaimRows(rows, req, at);
      && |t| == |rows| + 1 && t[..|rows|] == rows
      && t[|rows|].attempt == 1 && t[|rows|].maxAttempts == req.maxAttempts
      && (Overdue(t[|rows|], later) <==> later - at.admission >= Patience(req.kind))
  {
  }

  predicate Claimant(p: Pool, req: ClaimRequest) {
    && p.name == req.resource.scope
    && match p
       case WholeScope(_) => true
       case OneUser(_, user) => req.userId == Some(user)
       case OneOwner(_, kind, session) => req.kind == kind && req.sessionId == Some(session)
  }

  /** An admitted claim holds its units in exactly the pools of its scope, its user and its owner, takes a
    * slot in them, and holds its key against every other. */
  lemma ClaimHolds(rows: seq<Job>, req: ClaimRequest, at: Readings, p: Pool)
    requires Admissible(rows, req, at)
    ensures var t := ClaimRows(rows, req, at);
      && Held(t, p) == Held(rows, p) + (if Claimant(p, req) then req.resource.units else 0)
      && HeldCount(t, p) == HeldCount(rows, p) + (if Claimant(p, req) then 1 else 0)
      && forall other: ClaimRequest, at': Readings :: other.activeKey == req.activeKey ==> !Admissible(t, other, at')
  {
    var j := ClaimedRow(req, at);
    TotalAppend(rows, j, Query(p, true, false, false, CreatedSince(None)));
    HeldCountAppend(rows, j, p);
    assert (rows + [j])[|rows|].activeKey == Some(req.activeKey);
    assert KeyTaken(rows + [j], req.activeKey);
  }

  /**
   * What a claim over a budget is told: the window's end, if even releasing everything in flight would not
   * help before; otherwise fifteen seconds from now, or the window's end if that is sooner.
   */
  lemma AdviceIsTimely(rows: seq<Job>, p: Pool, r: Reservation, limit: int, now: int, at: int)
    requires InWindow(r, now) && RetryAdvice(rows, p, r, limit, now, Some(at))
    ensures now < at <= r.windowEnd
    ensures Total(rows, Query(p, false, true, true, CompletedIn(r.windowStart, r.windowEnd))) + r.units > limit ==>
      at == r.windowEnd
    ensures Total(rows, Query(p, false, true, true, CompletedIn(r.windowStart, r.windowEnd))) + r.units <= limit ==>
      at <= now + 15_000 && (at == now + 15_000 || at == r.windowEnd)
  {
  }

  // ----------------------------------------------------------------- reclaims

  lemma RowsStayUnique(rows: seq<Job>, t: seq<Job>)
    requires UniqueKeys(rows) && |t| == |rows|
    requires forall i :: 0 <= i < |rows| ==> t[i].activeKey == rows[i].activeKey || t[i].activeKey.None?
    ensures UniqueKeys(t)
  {
  }

  lemma RetryStaysUnique(rows: seq<Job>, id: nat, snapshot: Job)
    requires UniqueKeys(rows)
    ensures UniqueKeys(RetryRows(rows, id, snapshot))
  {
    if RetryLands(rows, id, snapshot) {
      var t := RetryRows(rows, id, snapshot);
      assert forall i :: 0 <= i < |rows| && i != id ==> t[i] == rows[i];
    }
  }

  lemma StepStaysUnique(s: Ledger, e: Event)
    requires UniqueKeys(s.rows)
    ensures UniqueKeys(Step(s, e).rows)
  {
    if e.WriteRetry? && e.k < |s.retries| {
      RetryStaysUnique(s.rows, s.retries[e.k].id, s.retries[e.k].snapshot);
    } else if InPlace(e) {
      RowsStayUnique(s.rows, Step(s, e).rows);
    }
  }

  lemma {:induction false} KeysStayUnique(s: Ledger, es: seq<Event>)
    requires UniqueKeys(s.rows)
    ensures UniqueKeys(Run(s, es).rows)
    decreases |es|
  {
    if es != [] {
      StepStaysUnique(s, es[0]);
      KeysStayUnique(Step(s, es[0]), es[1..]);
    }
  }

  /** Nothing that happens along a run touches the row. */
  ghost predicate LeftAlone(s: Ledger, es: seq<Event>, id: nat)
    decreases |es|
  {
    && id < |s.rows|
    && (es == [] || (id < |Step(s, es[0]).rows| && Step(s, es[0]).rows[id] == s.rows[id]
                     && LeftAlone(Step(s, es[0]), es[1..], id)))
  }

  lemma {:induction false} StaysAsItWas(s: Ledger, es: seq<Event>, id: nat)
    requires LeftAlone(s, es, id)
    ensures id < |Run(s, es).rows| && Run(s, es).rows[id] == s.rows[id]
    decreases |es|
  {
    if es != [] {
      StaysAsItWas(Step(s, es[0]), es[1..], id);
    }
  }

  lemma OverdueIsFreed(rows: seq<Job>, id: nat, first: int, second: int, p: Pool)
    requires id < |rows| && Overdue(rows[id], PassAt(rows[id], first, second))
    ensures var t := OverdueReclaimed(rows, first, second);
      && t[id].status == Failed && t[id].activeKey.None? && t[id].actual == rows[id].actual
      && t[id].completedAt == Some(PassAt(rows[id], first, second))
      && Held(t, p) + (if InPool(rows[id], p) then rows[id].reserved else 0) <= Held(rows, p)
  {
    var q := Query(p, true, false, false, CreatedSince(None));
    var t, own := OverdueReclaimed(rows, first, second), rows[id := ReclaimedRow(rows[id], first)];
    TotalUpdate(rows, id, own[id], q);
    forall i | 0 <= i < |rows| ensures Cost(t[i], q) <= Cost(own[i], q) {
      assert i != id ==> own[i] == rows[i];
    }
    TotalPointwise(own, t, q, q);
  }

  lemma FreedKeyIsFree(rows: seq<Job>, id: nat, first: int, second: int, key: string)
    requires UniqueKeys(rows) && id < |rows| && rows[id].activeKey == Some(key)
    requires Overdue(rows[id], PassAt(rows[id], first, second))
    ensures !KeyTaken(OverdueReclaimed(rows, first, second), key)
  {
    var t := OverdueReclaimed(rows, first, second);
    forall i | 0 <= i < |t| ensures t[i].activeKey != Some(key) {
      assert i != id ==> rows[i].activeKey != rows[id].activeKey;
    }
  }

  /**
   * A crash cannot hold a reservation for ever. After any run that leaves a claimed row alone, the two
   * passes of `reclaimAllStaleProcessingJobs` fail it if and only if the pass that looks at it reads a
   * clock at least its patience past the admission; then its key is free and its units are not held.
   */
  lemma AbandonedClaimIsFreed(
    s: Ledger, req: ClaimRequest, at: Readings, es: seq<Event>, first: int, second: int, p: Pool)
    requires UniqueKeys(s.rows) && InOrder(s, at) && Admissible(s.rows, req, at)
    requires LeftAlone(Step(s, Claim(req, at)), es, |s.rows|)
    ensures var id, rows := |s.rows|, Run(Step(s, Claim(req, at)), es).rows;
      var t, now := OverdueReclaimed(rows, first, second), if req.kind == DocTranslate then second else first;
      && id < |t| == |rows|
      && (t[id].status == Failed <==> now - at.admission >= Patience(req.kind))
      && (t[id].status != Failed ==> t[id] == rows[id])
      && (t[id].status == Failed ==>
            && !KeyTaken(t, req.activeKey)
            && Held(t, p) + (if Claimant(p, req) then req.resource.units else 0) <= Held(rows, p))
  {
    var id, claimed := |s.rows|, Step(s, Claim(req, at));
    StaysAsItWas(claimed, es, id);
    StepStaysUnique(s, Claim(req, at));
    KeysStayUnique(claimed, es);
    var rows := Run(claimed, es).rows;
    var now := PassAt(rows[id], first, second);
    ClaimIsOverdueExactly(s.rows, req, at, now);
    if Overdue(rows[id], now) {
      OverdueIsFreed(rows, id, first, second, p);
      FreedKeyIsFree(rows, id, first, second, req.activeKey);
    }
  }

  // --------------------------------------------------- settlements and retries

  /** A settlement frees the key, unless it succeeded and is to keep it, and holds nothing any more. */
  lemma SettlementFrees(rows: seq<Job>, id: nat, success: bool, actual: Option<nat>, retainKey: bool, now: int, p: Pool)
    requires UniqueKeys(rows) && Settleable(rows, id) && rows[id].activeKey.Some?
    ensures var t := SettleRows(rows, id, success, actual, retainKey, now);
      && (KeyTaken(t, rows[id].activeKey.value) <==> success && retainKey)
      && Held(t, p) + (if InPool(rows[id], p) then rows[id].reserved else 0) == Held(rows, p)
      && forall later :: !Overdue(t[id], later)
  {
    var t := SettleRows(rows, id, success, actual, retainKey, now);
    TotalUpdate(rows, id, t[id], Query(p, true, false, false, CreatedSince(None)));
    var key := rows[id].activeKey.value;
    assert success && retainKey ==> t[id].activeKey == Some(key);
    forall i | 0 <= i < |t| && i != id ensures t[i].activeKey != Some(key) {
      assert t[i] == rows[i] && rows[i].activeKey != rows[id].activeKey;
    }
  }

  /** What a worker takes up: submitted and never begun. */
  predicate Waiting(j: Job) {
    j.status == Submitted && j.startedAt.None? && j.completedAt.None?
  }

  /** A created job waits for a worker, and holds its key against every other of its kind. */
  lemma CreatedJobWaits(rows: seq<Job>, c: CreateRequest, now: int)
    requires Creatable(rows, c)
    ensures var t := CreateRows(rows, c, now);
      && |t| == |rows| + 1 && t[..|rows|] == rows && Waiting(t[|rows|])
      && t[|rows|].kind == c.kind && t[|rows|].sessionId == c.sessionId && t[|rows|].userId == c.userId
      && t[|rows|].attempt == 1 && t[|rows|].maxAttempts == c.maxAttempts
      && (c.activeKey.Some? ==> !Creatable(t, c))
  {
    var t := CreateRows(rows, c, now);
    assert c.activeKey.Some? ==> t[|rows|].activeKey == Some(c.activeKey.value);
  }

  /**
   * A retry that lands makes a failed row one that a worker takes up again, under one attempt more; an
   * enhancement holds its session's key again, so no second one can be created beside it.
   */
  lemma RetryMakesItWait(rows: seq<Job>, id: nat, c: CreateRequest)
    requires id < |rows| && RetryWorthwhile(rows[id]) && RetryLands(rows, id, rows[id])
    ensures var t := RetryRows(rows, id, rows[id]);
      && Waiting(t[id]) && t[id].attempt == rows[id].attempt + 1 && t[id].kind == rows[id].kind
      && (rows[id].activeKey.Some? ==> t[id].activeKey == rows[id].activeKey)
      && ((rows[id].kind == AudioEnhance && NonEmpty(rows[id].sessionId) && rows[id].activeKey.None?
           && c.activeKey == Some(AudioKey(rows[id].sessionId.value))) ==> !Creatable(t, c))
  {
    var t := RetryRows(rows, id, rows[id]);
    assert t[id] == RetriedRow(rows[id], rows[id]);
    if rows[id].kind == AudioEnhance && NonEmpty(rows[id].sessionId) && rows[id].activeKey.None? {
      assert t[id].activeKey == Some(AudioKey(rows[id].sessionId.value));
    }
  }

  /** A job whose begin was marked is overdue exactly from its patience after the mark. */
  lemma MarkedIsOverdueExactly(rows: seq<Job>, id: nat, now: int, later: int)
    requires id < |rows|
    ensures Overdue(MarkProcessingRows(rows, id, now)[id], later) <==> later - now >= Patience(rows[id].kind)
  {
  }

  /** A job marked as done is over at that moment, and its key is free. */
  lemma MarkedDoneIsOver(rows: seq<Job>, id: nat, success: bool, now: int)
    requires UniqueKeys(rows) && id < |rows|
    ensures var t := MarkDoneRows(rows, id, success, now);
      && t[id].status == (if success then Success else Failed) && t[id].completedAt == Some(now)
      && (rows[id].activeKey.Some? ==> !KeyTaken(t, rows[id].activeKey.value))
      && (forall later :: !Overdue(t[id], later))
  {
    var t := MarkDoneRows(rows, id, success, now);
    forall i | 0 <= i < |t| && i != id ensures rows[id].activeKey.Some? ==> t[i].activeKey != rows[id].activeKey {
      assert t[i] == rows[i];
    }
  }

  /** The time for it comes: a claim left alone is overdue by the ledger's own clock once that has moved on. */
  lemma TimeComes(s: Ledger, req: ClaimRequest, at: Readings, es: seq<Event>, to: int)
    requires InOrder(s, at) && Admissible(s.rows, req, at) && LeftAlone(Step(s, Claim(req, at)), es, |s.rows|)
    requires to - at.admission >= Patience(req.kind)
    ensures var t := Step(Run(Step(s, Claim(req, at)), es), Tick(to));
      |s.rows| < |t.rows| && Overdue(t.rows[|s.rows|], t.now)
  {
    var claimed := Step(s, Claim(req, at));
    StaysAsItWas(claimed, es, |s.rows|);
    var t := Step(Run(claimed, es), Tick(to));
    ClaimIsOverdueExactly(s.rows, req, at, t.now);
  }
}
