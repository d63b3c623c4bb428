/** The JobQueue table, the SQL aggregates over it, and how the aggregates move when rows change. */
module JobTable {
  import opened Options

  datatype JobType = AudioEnhance | DocTranslate | OtherType(name: string)

  datatype Status = Submitted | Pending | Processing | Success | Failed

  /** One row. A job's id is its index in the table; rows are never deleted here. */
  datatype Job = Job(
    kind: JobType,
    status: Status,
    sessionId: Option<string>,
    userId: Option<string>,
    attempt: nat,
    maxAttempts: int,
    createdAt: int,
    startedAt: Option<int>,
    completedAt: Option<int>,
    activeKey: Option<string>,
    scope: Option<string>,
    reserved: nat,
    actual: Option<nat>)

  predicate Terminal(j: Job) {
    j.status.Success? || j.status.Failed?
  }

  predicate Retryable(kind: JobType) {
    kind.AudioEnhance? || kind.DocTranslate?
  }

  function AudioKey(session: string): string {
    "audio_enhance:" + session
  }

  predicate KeyTaken(rows: seq<Job>, key: string) {
    exists i :: 0 <= i < |rows| && rows[i].activeKey == Some(key)
  }

  // ---- aggregates ----

  /** The rows an aggregate ranges over: a resource scope, one user's or one owner's part of it. */
  datatype Pool =
    | WholeScope(name: string)
    | OneUser(name: string, user: string)
    | OneOwner(name: string, kind: JobType, session: string)

  predicate InPool(j: Job, p: Pool) {
    && j.scope == Some(p.name)
    && match p
       case WholeScope(_) => true
       case OneUser(_, user) => j.userId == Some(user)
       case OneOwner(_, kind, session) => j.kind == kind && j.sessionId == Some(session)
  }

  datatype Span = CompletedIn(from: int, until: int) | CreatedSince(since: Option<int>)

  predicate InSpan(j: Job, s: Span) {
    match s
    case CompletedIn(from, until) => j.completedAt.Some? && from <= j.completedAt.value < until
    case CreatedSince(since) => since.Some? ==> since.value <= j.createdAt
  }

  /**
   * Which units to add up: reservations of in-flight rows (`held`), reported usage of terminal
   * rows (`known`), reservations of terminal rows that reported nothing (`unknown`).
   * The span restricts terminal rows only.
   */
  datatype Query = Query(pool: Pool, held: bool, known: bool, unknown: bool, span: Span)

  function Cost(j: Job, q: Query): nat {
    if !InPool(j, q.pool) then 0
    else if !Terminal(j) then if q.held then j.reserved else 0
    else if !InSpan(j, q.span) then 0
    else if j.actual.Some? then if q.known then j.actual.value else 0
    else if q.unknown then j.reserved else 0
  }

  function Total(rows: seq<Job>, q: Query): nat {
    if rows == [] then 0
    else Total(rows[..|rows| - 1], q) + Cost(rows[|rows| - 1], q)
  }

  function Unit(b: bool): nat {
    if b then 1 else 0
  }

  function HeldCount(rows: seq<Job>, p: Pool): nat {
    if rows == [] then 0
    else
      var j := rows[|rows| - 1];
      HeldCount(rows[..|rows| - 1], p) + Unit(InPool(j, p) && !Terminal(j))
  }

  lemma TotalAppend(rows: seq<Job>, j: Job, q: Query)
    ensures Total(rows + [j], q) == Total(rows, q) + Cost(j, q)
  {
    assert (rows + [j])[..|rows|] == rows;
  }

  lemma {:induction false} TotalUpdate(rows: seq<Job>, i: nat, j: Job, q: Query)
    requires i < |rows|
    ensures Total(rows[i := j], q) + Cost(rows[i], q) == Total(rows, q) + Cost(j, q)
  {
    var n := |rows| - 1;
    if i == n {
      assert rows[i := j][..n] == rows[..n];
    } else {
      assert rows[i := j][..n] == rows[..n][i := j];
      TotalUpdate(rows[..n], i, j, q);
    }
  }

  /** Rows changed one by one in the downward direction cannot raise the sum. */
  lemma {:induction false} TotalPointwise(old_: seq<Job>, new_: seq<Job>, q: Query, r: Query)
    requires |old_| == |new_|
    requires forall i :: 0 <= i < |old_| ==> Cost(new_[i], r) <= Cost(old_[i], q)
    ensures Total(new_, r) <= Total(old_, q)
  {
    if old_ != [] {
      var n := |old_| - 1;
      TotalPointwise(old_[..n], new_[..n], q, r);
    }
  }

  /** The three aggregates the admission code reads separately add up to the one combined charge. */
  lemma {:induction false} TotalSplit(rows: seq<Job>, p: Pool, s: Span)
    ensures Total(rows, Query(p, true, true, true, s))
         == Total(rows, Query(p, true, false, false, s)) + Total(rows, Query(p, false, true, true, s))
    ensures Total(rows, Query(p, false, true, true, s))
         == Total(rows, Query(p, false, true, false, s)) + Total(rows, Query(p, false, false, true, s))
    ensures Total(rows, Query(p, true, false, true, s))
         == Total(rows, Query(p, true, false, false, s)) + Total(rows, Query(p, false, false, true, s))
  {
    if rows != [] {
      TotalSplit(rows[..|rows| - 1], p, s);
    }
  }

  /** Reservations in flight are summed over all rows, whatever the span. */
  lemma {:induction false} HeldIgnoresSpan(rows: seq<Job>, p: Pool, s: Span, t: Span)
    ensures Total(rows, Query(p, true, false, false, s)) == Total(rows, Query(p, true, false, false, t))
  {
    if rows != [] {
      HeldIgnoresSpan(rows[..|rows| - 1], p, s, t);
    }
  }

  lemma HeldCountAppend(rows: seq<Job>, j: Job, p: Pool)
    ensures HeldCount(rows + [j], p) == HeldCount(rows, p) + Unit(InPool(j, p) && !Terminal(j))
  {
    assert (rows + [j])[..|rows|] == rows;
  }

  lemma {:induction false} HeldCountPointwise(old_: seq<Job>, new_: seq<Job>, p: Pool)
    requires |old_| == |new_|
    requires forall i :: 0 <= i < |old_| ==>
      (InPool(new_[i], p) && !Terminal(new_[i]) ==> InPool(old_[i], p) && !Terminal(old_[i]))
    ensures HeldCount(new_, p) <= HeldCount(old_, p)
  {
    if old_ != [] {
      var n := |old_| - 1;
      HeldCountPointwise(old_[..n], new_[..n], p);
    }
  }
}
