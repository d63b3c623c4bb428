/** One live enhancement per session, bounded attempts, and business mutations that run once. */
module JobExclusivity {
  import opened Options
  import opened JobTable
  import opened JobQueue
  import opened JobRuns

  ghost predicate UniqueKeys(rows: seq<Job>) {
    forall i, j :: 0 <= i < j < |rows| && rows[i].activeKey.Some? ==> rows[i].activeKey != rows[j].activeKey
  }

  /** An enhancement row holds its session's key as long as it is live, and none once it failed. */
  ghost predicate KeyedRow(j: Job) {
    j.kind == AudioEnhance ==>
      && NonEmpty(j.sessionId)
      && (!Terminal(j) ==> j.activeKey == Some(AudioKey(j.sessionId.value)))
      && (j.status == Failed ==> j.activeKey == None)
  }

  ghost predicate AttemptsBounded(j: Job) {
    1 <= j.attempt && (j.maxAttempts > 1 ==> j.attempt <= j.maxAttempts)
  }

  ghost predicate SnapshotSound(rows: seq<Job>, r: PendingRetry) {
    && r.id < |rows|
    && r.snapshot.kind == rows[r.id].kind && r.snapshot.sessionId == rows[r.id].sessionId
    && r.snapshot.maxAttempts == rows[r.id].maxAttempts
    && RetryWorthwhile(r.snapshot)
    && (r.snapshot.kind == AudioEnhance ==> r.snapshot.activeKey == None)
  }

  ghost predicate Exclusive(s: Ledger) {
    && UniqueKeys(s.rows)
    && (forall i :: 0 <= i < |s.rows| ==> KeyedRow(s.rows[i]) && AttemptsBounded(s.rows[i]))
    && (forall k :: 0 <= k < |s.retries| ==> SnapshotSound(s.rows, s.retries[k]))
  }

  ghost predicate CarriesKey(kind: JobType, session: Option<string>, key: Option<string>) {
    kind == AudioEnhance ==> NonEmpty(session) && key == Some(AudioKey(session.value))
  }

  /** Enhancements are created with their key, and no late mark hits a finished one. */
  ghost predicate Orderly(s: Ledger, e: Event) {
    && (e.Create? ==> CarriesKey(e.c.kind, e.c.sessionId, e.c.activeKey))
    && (e.Claim? ==> CarriesKey(e.req.kind, e.req.sessionId, Some(e.req.activeKey)))
    && (e.MarkProcessing? && e.id < |s.rows| ==> !Terminal(s.rows[e.id]))
  }

  ghost predicate AllOrderly(s: Ledger, es: seq<Event>)
    decreases |es|
  {
    es == [] || (Orderly(s, es[0]) && AllOrderly(Step(s, es[0]), es[1..]))
  }

  lemma RetryKeepsExclusive(s: Ledger, k: nat)
    requires Exclusive(s) && k < |s.retries|
    ensures Exclusive(Step(s, WriteRetry(k)))
  {
    var r := s.retries[k];
    if RetryLands(s.rows, r.id, r.snapshot) {
      var t := Step(s, WriteRetry(k));
      assert forall i :: 0 <= i < |s.rows| && i != r.id ==> t.rows[i] == s.rows[i];
    }
  }

  /** What a settlement, a mark or a reclaim may do to a row. */
  ghost predicate Relaxed(j: Job, k: Job) {
    && k.kind == j.kind && k.sessionId == j.sessionId && k.attempt == j.attempt && k.maxAttempts == j.maxAttempts
    && (k.activeKey == j.activeKey || k.activeKey.None?) && (KeyedRow(j) ==> KeyedRow(k))
  }

  lemma RelaxedKeepsExclusive(s: Ledger, t: Ledger)
    requires Exclusive(s) && |t.rows| == |s.rows| && t.retries == s.retries
    requires forall i :: 0 <= i < |s.rows| ==> Relaxed(s.rows[i], t.rows[i])
    ensures Exclusive(t)
  {
  }

  predicate InPlace(e: Event) {
    e.Settle? || e.MarkProcessing? || e.MarkDone? || e.Reclaim?
  }

  lemma StepRelaxes(s: Ledger, e: Event)
    requires InPlace(e) && Orderly(s, e)
    ensures var t := Step(s, e);
      && |t.rows| == |s.rows| && t.retries == s.retries
      && forall i :: 0 <= i < |s.rows| ==> Relaxed(s.rows[i], t.rows[i])
  {
  }

  lemma StepKeepsExclusive(s: Ledger, e: Event)
    requires Exclusive(s) && Orderly(s, e)
    ensures Exclusive(Step(s, e))
  {
    if e.WriteRetry? && e.k < |s.retries| {
      RetryKeepsExclusive(s, e.k);
    } else if InPlace(e) {
      StepRelaxes(s, e);
      RelaxedKeepsExclusive(s, Step(s, e));
    }
  }

  lemma {:induction false} RunKeepsExclusive(s: Ledger, es: seq<Event>)
    requires Exclusive(s) && AllOrderly(s, es)
    ensures Exclusive(Run(s, es))
    decreases |es|
  {
    if es != [] {
      StepKeepsExclusive(s, es[0]);
      RunKeepsExclusive(Step(s, es[0]), es[1..]);
    }
  }

  ghost predicate LiveEnhancement(j: Job, session: string) {
    j.kind == AudioEnhance && j.sessionId == Some(session) && !Terminal(j)
  }

  /** At most one live enhancement per session; attempts never pass a maximum above one. */
  lemma OneEnhancementPerSession(s: Ledger, es: seq<Event>, session: string)
    requires Empty(s) && AllOrderly(s, es)
    ensures var rows := Run(s, es).rows;
      && (forall i, j :: 0 <= i < j < |rows| ==>
            !(LiveEnhancement(rows[i], session) && LiveEnhancement(rows[j], session)))
      && (forall i :: 0 <= i < |rows| && rows[i].maxAttempts > 1 ==> rows[i].attempt <= rows[i].maxAttempts)
  {
    RunKeepsExclusive(s, es);
  }

  ghost predicate OneLivePerSession(rows: seq<Job>) {
    forall session, i, j :: 0 <= i < j < |rows| ==>
      !(LiveEnhancement(rows[i], session) && LiveEnhancement(rows[j], session))
  }

  /** A finished enhancement that does not hold its session's key any more. */
  predicate FinishedKeyless(j: Job) {
    && j.kind == AudioEnhance && j.sessionId.Some? && Terminal(j)
    && j.activeKey != Some(AudioKey(j.sessionId.value))
  }

  /** The row the late mark revived, and an orderly run in which its session gets a second one: whoever
    * holds the key finishes, and the next enhancement is created. */
  lemma SecondEnhancement(t: Ledger, id: nat, session: string) returns (es: seq<Event>)
    requires UniqueKeys(t.rows) && id < |t.rows| && LiveEnhancement(t.rows[id], session) && session != ""
    requires t.rows[id].activeKey != Some(AudioKey(session))
    ensures AllOrderly(t, es) && !OneLivePerSession(Run(t, es).rows)
  {
    var key := Some(AudioKey(session));
    var holder: nat := |t.rows|;
    if k: nat :| k < |t.rows| && t.rows[k].activeKey == key {
      holder := k;
    }
    var c := CreateRequest(AudioEnhance, Some(session), None, 1, key);
    var freed := Step(t, MarkDone(holder, true));
    assert forall i :: 0 <= i < |t.rows| && i != holder ==> freed.rows[i] == t.rows[i];
    assert !KeyTaken(freed.rows, AudioKey(session));
    var both := Step(freed, Create(c));
    assert LiveEnhancement(both.rows[id], session) && LiveEnhancement(both.rows[|t.rows|], session);
    es := [MarkDone(holder, true), Create(c)];
    assert es[1..] == [Create(c)] && [Create(c)][1..] == [];
    assert Run(freed, [Create(c)]) == both;
  }

  /** A late PROCESSING mark leaves one live enhancement per session in every orderly run that follows if
    * and only if the row is not a finished enhancement without its key. */
  lemma LateMarkExactly(s: Ledger, id: nat)
    requires Exclusive(s) && id < |s.rows|
    ensures var t := Step(s, MarkProcessing(id));
      (forall es :: AllOrderly(t, es) ==> OneLivePerSession(Run(t, es).rows)) <==> !FinishedKeyless(s.rows[id])
  {
    var t := Step(s, MarkProcessing(id));
    assert forall i :: 0 <= i < |s.rows| && i != id ==> t.rows[i] == s.rows[i];
    if FinishedKeyless(s.rows[id]) {
      var es := SecondEnhancement(t, id, s.rows[id].sessionId.value);
    } else {
      forall es | AllOrderly(t, es) ensures OneLivePerSession(Run(t, es).rows) {
        RunKeepsExclusive(t, es);
        ExclusiveMeansOneLive(Run(t, es));
      }
    }
  }

  lemma ExclusiveMeansOneLive(s: Ledger)
    requires Exclusive(s)
    ensures OneLivePerSession(s.rows)
  {
  }

  /** The run such a mark breaks: two live enhancements of one session. */
  lemma LateMarkRevives(s: Ledger)
    requires Empty(s)
    ensures var c := CreateRequest(AudioEnhance, Some("x"), None, 1, Some(AudioKey("x")));
      var t := Run(s, [Create(c), MarkDone(0, true), Create(c), MarkProcessing(0)]);
      |t.rows| == 2 && LiveEnhancement(t.rows[0], "x") && LiveEnhancement(t.rows[1], "x")
  {
    var c := CreateRequest(AudioEnhance, Some("x"), None, 1, Some(AudioKey("x")));
    var first := Step(s, Create(c));
    var done := Step(first, MarkDone(0, true));
    assert done.rows[0].activeKey == None;
    assert [Create(c), MarkDone(0, true), Create(c), MarkProcessing(0)][1..]
        == [MarkDone(0, true), Create(c), MarkProcessing(0)];
    ThreeSteps(first, MarkDone(0, true), Create(c), MarkProcessing(0));
  }

  // ---- business mutations ----

  function Ran(s: Ledger, id: nat): nat {
    multiset(s.mutated)[id]
  }

  ghost predicate MutationsCounted(s: Ledger) {
    && (forall id: nat :: id < |s.rows| ==> Ran(s, id) + Unit(!Terminal(s.rows[id])) <= s.rows[id].attempt)
    && (forall id: nat :: id >= |s.rows| ==> Ran(s, id) == 0)
  }

  ghost predicate NoRevival(s: Ledger, e: Event) {
    e.MarkProcessing? && e.id < |s.rows| ==> !Terminal(s.rows[e.id])
  }

  ghost predicate NeverRevives(s: Ledger, es: seq<Event>)
    decreases |es|
  {
    es == [] || (NoRevival(s, es[0]) && NeverRevives(Step(s, es[0]), es[1..]))
  }

  lemma OnlySettlementsMutate(s: Ledger, e: Event)
    ensures Step(s, e).mutated
         == if e.Settle? && e.hasMutation && Settleable(s.rows, e.id) then s.mutated + [e.id] else s.mutated
    ensures Step(s, e).mutated != s.mutated ==> Terminal(Step(s, e).rows[e.id])
  {
  }

  lemma StepCountsAt(s: Ledger, e: Event, id: nat)
    requires MutationsCounted(s) && NoRevival(s, e)
    ensures var t := Step(s, e);
      && (id < |t.rows| ==> Ran(t, id) + Unit(!Terminal(t.rows[id])) <= t.rows[id].attempt)
      && (id >= |t.rows| ==> Ran(t, id) == 0)
  {
    OnlySettlementsMutate(s, e);
    var t := Step(s, e);
    assert Ran(t, id) == Ran(s, id) + (if t.mutated != s.mutated && e.id == id then 1 else 0);
  }

  lemma StepCountsMutations(s: Ledger, e: Event)
    requires MutationsCounted(s) && NoRevival(s, e)
    ensures MutationsCounted(Step(s, e))
  {
    forall id: nat
      ensures id < |Step(s, e).rows| ==>
        Ran(Step(s, e), id) + Unit(!Terminal(Step(s, e).rows[id])) <= Step(s, e).rows[id].attempt
      ensures id >= |Step(s, e).rows| ==> Ran(Step(s, e), id) == 0
    {
      StepCountsAt(s, e, id);
    }
  }

  /**
   * A settlement's mutation runs at most once per attempt of its job, whatever settlements,
   * retries and reclaims race; so at most once for a job that was never retried.
   */
  lemma {:induction false} MutationOncePerAttempt(s: Ledger, es: seq<Event>)
    requires MutationsCounted(s) && NeverRevives(s, es)
    ensures MutationsCounted(Run(s, es))
    ensures forall id: nat :: id < |Run(s, es).rows| ==>
      Ran(Run(s, es), id) <= Run(s, es).rows[id].attempt
    decreases |es|
  {
    if es != [] {
      StepCountsMutations(s, es[0]);
      MutationOncePerAttempt(Step(s, es[0]), es[1..]);
    }
  }
}
