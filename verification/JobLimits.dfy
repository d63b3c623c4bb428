/** Where the budget guarantees of JobRuns stop: each promise the callers make is needed. */
module JobLimits {
  import opened Options
  import opened JobTable
  import opened JobQueue
  import opened JobRuns

  /**
   * What one settlement does to a pool's charge in the open window, exactly. A pool charged up to
   * its limit therefore stays within it if and only if the report does not exceed the reservation.
   */
  lemma SettlementChargesExactly(s: Ledger, e: Event, p: Pool, from: int, until: int)
    requires e.Settle? && Settleable(s.rows, e.id) && InPool(s.rows[e.id], p) && from <= s.now < until
    ensures var paid := if e.actual.Some? then e.actual.value else s.rows[e.id].reserved;
      && ChargeIn(Step(s, e).rows, p, from, until)
         == ChargeIn(s.rows, p, from, until) - s.rows[e.id].reserved + paid
      && (ChargeIn(Step(s, e).rows, p, from, until) <= ChargeIn(s.rows, p, from, until)
          <==> paid <= s.rows[e.id].reserved)
  {
    TotalUpdate(s.rows, e.id, Step(s, e).rows[e.id], Query(p, true, true, true, CompletedIn(from, until)));
  }

  /**
   * A retry puts a terminal row's whole reservation back in flight and asks no budget: the pool
   * stays within its limit if and only if the reservation happens to fit.
   */
  lemma RetrySkipsAdmission(s: Ledger, k: nat, p: Pool, limit: int)
    requires k < |s.retries| && RetryLands(s.rows, s.retries[k].id, s.retries[k].snapshot)
    requires InPool(s.rows[s.retries[k].id], p)
    ensures HeldBy(Step(s, WriteRetry(k)).rows, p) <= limit
      <==> HeldBy(s.rows, p) + s.rows[s.retries[k].id].reserved <= limit
  {
    var id := s.retries[k].id;
    TotalUpdate(s.rows, id, Step(s, WriteRetry(k)).rows[id], Query(p, true, false, false, CreatedSince(None)));
  }

  // ------------------------------------------------------------ over whole runs

  /** What the callers of a scope promise, but for two liberties: settlements that report more than was
    * reserved, and reservations for types that `retryJob` takes. */
  ghost predicate KeepsMost(s: Ledger, e: Event, b: Budget, from: int, until: int, overreport: bool, retry: bool) {
    && MarksOnlyUnscoped(s, e)
    && (e.Claim? && e.req.resource.scope == b.pool.name ==>
          Names(b, e.req) && SameOrApart(e.req.resource, from, until) && (retry || !Retryable(e.req.kind)))
    && (e.Settle? && Settleable(s.rows, e.id) && s.rows[e.id].scope == Some(b.pool.name) && e.actual.Some? ==>
          overreport || e.actual.value <= s.rows[e.id].reserved)
  }

  ghost predicate AllKeepMost(
    s: Ledger, es: seq<Event>, b: Budget, from: int, until: int, overreport: bool, retry: bool)
    decreases |es|
  {
    es == [] || (KeepsMost(s, es[0], b, from, until, overreport, retry)
                 && AllKeepMost(Step(s, es[0]), es[1..], b, from, until, overreport, retry))
  }

  ghost predicate OverBudget(s: Ledger, b: Budget, from: int, until: int) {
    HeldBy(s.rows, b.pool) > b.limit || SpentIn(s.rows, b.pool, from, until) > b.limit
  }

  /** No run from an empty table ends over the budget. */
  ghost predicate BudgetHolds(b: Budget, from: int, until: int, overreport: bool, retry: bool) {
    forall s, es :: Empty(s) && AllKeepMost(s, es, b, from, until, overreport, retry) ==>
      !OverBudget(Run(s, es), b, from, until)
  }

  lemma {:induction false} MostIsAll(s: Ledger, es: seq<Event>, b: Budget, from: int, until: int)
    requires AllKeepMost(s, es, b, from, until, false, false)
    ensures AllKeepBudget(s, es, b, from, until)
    decreases |es|
  {
    if es != [] {
      MostIsAll(Step(s, es[0]), es[1..], b, from, until);
    }
  }

  // ---- the claims that break it ----

  function UserOf(p: Pool): string {
    if p.OneUser? then p.user else "user"
  }

  /** A reservation of the whole budget. */
  function WholeBudget(b: Budget, kind: JobType, key: string, from: int, until: int): ClaimRequest {
    ClaimRequest(kind, None, Some(UserOf(b.pool)), 2, key,
                 Reservation(b.pool.name, b.limit, b.limit, b.limit, from, until, None))
  }

  /** A pool and a limit that a reservation may name. */
  predicate Nameable(b: Budget) {
    && !b.pool.OneOwner? && 0 < b.limit < MAX_SAFE_INTEGER
    && 1 <= |b.pool.name| <= 64 && (forall i :: 0 <= i < |b.pool.name| ==> ScopeChar(b.pool.name[i]))
    && UserOf(b.pool) != ""
  }

  lemma OneRow(j: Job, q: Query)
    ensures Total([j], q) == Cost(j, q)
  {
    assert [j] == [] + [j];
    TotalAppend([], j, q);
  }

  lemma WholeBudgetAdmitted(rows: seq<Job>, b: Budget, kind: JobType, key: string, from: int, until: int)
    requires Nameable(b) && from < until && !KeyTaken(rows, key)
    requires rows == [] || (exists j :: rows == [j] && Terminal(j) && j.actual == Some(0))
    ensures Admissible(rows, WholeBudget(b, kind, key, from, until), Readings(from, from, from))
  {
    var whole := Query(WholeScope(b.pool.name), true, true, true, CompletedIn(from, until));
    var user := Query(OneUser(b.pool.name, UserOf(b.pool)), true, true, true, CompletedIn(from, until));
    if rows != [] {
      OneRow(rows[0], whole);
      OneRow(rows[0], user);
    }
  }

  function Claims(b: Budget, kind: JobType, key: string, from: int, until: int): Event {
    Claim(WholeBudget(b, kind, key, from, until), Readings(from, from, from))
  }

  function Start(now: int): Ledger {
    Ledger([], now, [], [], map[])
  }

  function FirstRow(b: Budget, kind: JobType, from: int, until: int): Job
    requires Nameable(b)
  {
    ClaimedRow(WholeBudget(b, kind, "a", from, until), Readings(from, from, from))
  }

  lemma FirstClaim(b: Budget, kind: JobType, from: int, until: int)
    requires Nameable(b) && from < until
    ensures Step(Start(from), Claims(b, kind, "a", from, until))
         == Start(from).(rows := [FirstRow(b, kind, from, until)])
  {
    WholeBudgetAdmitted([], b, kind, "a", from, until);
  }

  lemma RunCons(s: Ledger, es: seq<Event>, b: Budget, from: int, until: int, overreport: bool, retry: bool)
    requires es != [] && KeepsMost(s, es[0], b, from, until, overreport, retry)
    ensures Run(s, es) == Run(Step(s, es[0]), es[1..])
    ensures AllKeepMost(s, es, b, from, until, overreport, retry)
        <== AllKeepMost(Step(s, es[0]), es[1..], b, from, until, overreport, retry)
  {
  }

  /** One reservation of the whole budget, and a settlement that reports one unit more. */
  lemma OverreportOverruns(b: Budget, from: int, until: int, retry: bool) returns (es: seq<Event>)
    requires Nameable(b) && from < until
    ensures AllKeepMost(Start(from), es, b, from, until, true, retry)
    ensures SpentIn(Run(Start(from), es).rows, b.pool, from, until) == b.limit + 1
  {
    var kind := OtherType("llm");
    var claim, settle := Claims(b, kind, "a", from, until), Settle(0, true, Some(b.limit + 1), false, false, 0);
    FirstClaim(b, kind, from, until);
    var held := Step(Start(from), claim);
    var spent := Step(held, settle);
    OneRow(spent.rows[0], Query(b.pool, false, true, true, CompletedIn(from, until)));
    es := [claim, settle];
    RunCons(held, es[1..], b, from, until, true, retry);
    RunCons(Start(from), es, b, from, until, true, retry);
  }

  function RetryRun(b: Budget, from: int, until: int): seq<Event> {
    [Claims(b, DocTranslate, "a", from, until), Settle(0, false, Some(0), false, false, 0), ReadRetry(0),
     Claims(b, OtherType("llm"), "b", from, until), WriteRetry(0)]
  }

  /** The first row has failed for nothing, and a retry has read it. */
  function AboutToRetry(b: Budget, from: int, until: int): Ledger
    requires Nameable(b)
  {
    var failed := SettledRow(FirstRow(b, DocTranslate, from, until), false, Some(0), false, from);
    Start(from).(rows := [failed], retries := [PendingRetry(0, failed)])
  }

  lemma FailsAndIsRead(b: Budget, from: int, until: int)
    requires Nameable(b) && from < until
    ensures var failed := Step(Step(Start(from), RetryRun(b, from, until)[0]), RetryRun(b, from, until)[1]);
      && failed == AboutToRetry(b, from, until).(retries := [])
      && Step(failed, ReadRetry(0)) == AboutToRetry(b, from, until)
  {
    FirstClaim(b, DocTranslate, from, until);
  }

  lemma BothAreHeld(b: Budget, from: int, until: int)
    requires Nameable(b) && from < until
    ensures var s := AboutToRetry(b, from, until); var es := RetryRun(b, from, until);
      HeldBy(Step(Step(s, es[3]), es[4]).rows, b.pool) == 2 * b.limit
  {
    var s, es := AboutToRetry(b, from, until), RetryRun(b, from, until);
    var held := Query(b.pool, true, false, false, CreatedSince(None));
    assert !KeyTaken(s.rows, "b");
    WholeBudgetAdmitted(s.rows, b, OtherType("llm"), "b", from, until);
    var second := ClaimedRow(es[3].req, es[3].at);
    var both := Step(s, es[3]);
    assert both.rows == s.rows + [second];
    var t := Step(both, es[4]);
    var retried := RetriedRow(s.rows[0], s.rows[0]);
    assert t.rows == [retried] + [second];
    OneRow(retried, held);
    TotalAppend([retried], second, held);
  }

  /** A reservation of the whole budget that fails for nothing, another one, and the first one's retry. */
  lemma RetryOverruns(b: Budget, from: int, until: int, overreport: bool)
    requires Nameable(b) && from < until
    ensures AllKeepMost(Start(from), RetryRun(b, from, until), b, from, until, overreport, true)
    ensures HeldBy(Run(Start(from), RetryRun(b, from, until)).rows, b.pool) == 2 * b.limit
  {
    var es := RetryRun(b, from, until);
    FirstClaim(b, DocTranslate, from, until);
    FailsAndIsRead(b, from, until);
    BothAreHeld(b, from, until);
    var s1 := Step(Start(from), es[0]);
    var s2 := Step(s1, es[1]);
    var s3 := Step(s2, es[2]);
    var s4 := Step(s3, es[3]);
    RunCons(s4, es[4..], b, from, until, overreport, true);
    RunCons(s3, es[3..], b, from, until, overreport, true);
    RunCons(s2, es[2..], b, from, until, overreport, true);
    RunCons(s1, es[1..], b, from, until, overreport, true);
    RunCons(Start(from), es, b, from, until, overreport, true);
  }

  /** A scope's budget, or a user's, holds over every run from an empty table if and only if no caller takes
    * either liberty. */
  lemma BudgetHoldsExactly(b: Budget, from: int, until: int, overreport: bool, retry: bool)
    requires Nameable(b) && from < until
    ensures BudgetHolds(b, from, until, overreport, retry) <==> !overreport && !retry
  {
    if overreport {
      var es := OverreportOverruns(b, from, until, retry);
      assert OverBudget(Run(Start(from), es), b, from, until);
    } else if retry {
      RetryOverruns(b, from, until, overreport);
      assert OverBudget(Run(Start(from), RetryRun(b, from, until)), b, from, until);
    } else {
      forall s, es | Empty(s) && AllKeepMost(s, es, b, from, until, false, false)
        ensures !OverBudget(Run(s, es), b, from, until)
      {
        MostIsAll(s, es, b, from, until);
        BudgetNeverExceeded(s, es, b, from, until);
      }
    }
  }
}
