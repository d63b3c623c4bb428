/** The settled floor a claim names is read before its lock is taken (src/lib/jobQueue.ts:317-375,
  * src/app/api/translate/llm-proxy/v1/chat/completions/route.ts:251-278). When being stale matters. */
module JobFloors {
  import opened Options
  import opened JobTable
  import opened JobQueue
  import opened JobRuns

  /**
   * Every claim that is admitted with the stated floor fits the owner's true use, if and only if the
   * meter is no higher than the larger of the floor and what the table knows, or nothing is admitted
   * with that floor at all.
   */
  lemma StaleFloorExactly(
    rows: seq<Job>, p: Pool, limit: int, maxActive: int, since: Option<int>, stated: nat, meter: nat)
    ensures (forall units: nat ::
               OwnerFits(rows, p, OwnerBudget(limit, stated, maxActive, since), units) ==>
                 OwnerFits(rows, p, OwnerBudget(limit, meter, maxActive, since), units))
       <==> (|| meter <= Max(Total(rows, Query(p, false, true, false, CreatedSince(since))), stated)
             || maxActive <= HeldCount(rows, p) || limit < OwnerUse(rows, p, stated, since))
  {
    var room := limit - OwnerUse(rows, p, stated, since);
    if room >= 0 && HeldCount(rows, p) < maxActive {
      assert OwnerFits(rows, p, OwnerBudget(limit, stated, maxActive, since), room);
      assert OwnerFits(rows, p, OwnerBudget(limit, meter, maxActive, since), room)
        <==> meter <= Max(Total(rows, Query(p, false, true, false, CreatedSince(since))), stated);
    }
  }

  // ---- owners whose meter the table keeps up with ----

  predicate CountedSince(j: Job, o: OwnerPolicy) {
    InPool(j, PoolOf(o)) && !Terminal(j) ==> InSpan(j, CreatedSince(o.since))
  }

  /** The meter is no higher than what the table knows, and will not be by settling what is in flight. */
  ghost predicate Covered(s: Ledger, o: OwnerPolicy) {
    && Floor(s, PoolOf(o)) <= Known(s.rows, o)
    && (o.since.Some? ==> o.since.value <= s.now)
    && (forall i :: 0 <= i < |s.rows| ==> CountedSince(s.rows[i], o))
  }

  lemma SettleKeepsCovered(s: Ledger, e: Event, o: OwnerPolicy)
    requires Covered(s, o) && KeepsTerms(s, e, o) && e.Settle? && Settleable(s.rows, e.id)
    ensures Covered(Step(s, e), o)
  {
    var t := Step(s, e);
    assert CountedSince(s.rows[e.id], o);
    TotalUpdate(s.rows, e.id, t.rows[e.id], Query(PoolOf(o), false, true, false, CreatedSince(o.since)));
    assert InPool(s.rows[e.id], PoolOf(o)) <==> OwnerOf(s.rows[e.id]) == Some(PoolOf(o));
    forall i | 0 <= i < |t.rows| ensures CountedSince(t.rows[i], o) {
      assert CountedSince(s.rows[i], o);
    }
  }

  lemma ClaimKeepsCovered(s: Ledger, e: Event, o: OwnerPolicy)
    requires Covered(s, o) && e.Claim?
    ensures Covered(Step(s, e), o)
  {
    if InOrder(s, e.at) && Admissible(s.rows, e.req, e.at) {
      TotalAppend(s.rows, ClaimedRow(e.req, e.at), Query(PoolOf(o), false, true, false, CreatedSince(o.since)));
    }
  }

  lemma ReleaseKeepsCovered(s: Ledger, e: Event, o: OwnerPolicy)
    requires Covered(s, o) && ScopeSound(s, o.name) && KeepsTerms(s, e, o) && !e.Settle? && !e.Claim?
    ensures Covered(Step(s, e), o)
  {
    var t := Step(s, e);
    var q := Query(PoolOf(o), false, true, false, CreatedSince(o.since));
    StepReleases(s, e, o.name);
    var kept := t.rows[..|s.rows|];
    forall i | 0 <= i < |s.rows|
      ensures Cost(s.rows[i], q) <= Cost(kept[i], q) && CountedSince(t.rows[i], o)
    {
      assert Released(s.rows[i], t.rows[i], o.name, s.now) && CountedSince(s.rows[i], o);
    }
    TotalPointwise(kept, s.rows, q, q);
    if |t.rows| == |s.rows| {
      assert t.rows == kept;
    } else {
      assert t.rows == kept + [t.rows[|s.rows|]];
      TotalAppend(kept, t.rows[|s.rows|], q);
    }
  }

  lemma StepKeepsCovered(s: Ledger, e: Event, o: OwnerPolicy)
    requires Covered(s, o) && ScopeSound(s, o.name) && KeepsTerms(s, e, o)
    ensures Covered(Step(s, e), o)
  {
    if e.Claim? {
      ClaimKeepsCovered(s, e, o);
    } else if !e.Settle? {
      ReleaseKeepsCovered(s, e, o);
    } else if Settleable(s.rows, e.id) {
      SettleKeepsCovered(s, e, o);
    }
  }

  ghost predicate AllKeepTerms(s: Ledger, es: seq<Event>, o: OwnerPolicy)
    decreases |es|
  {
    es == [] || (KeepsTerms(s, es[0], o) && AllKeepTerms(Step(s, es[0]), es[1..], o))
  }

  /**
   * Where the table has kept up with the meter from the start, an owner's limits hold over every run
   * whatever floors its claims name, however stale: the racing claim included.
   */
  lemma {:induction false} AnyFloorWillDo(s: Ledger, es: seq<Event>, o: OwnerPolicy)
    requires ScopeSound(s, o.name) && WithinOwner(s, o) && Covered(s, o) && AllKeepTerms(s, es, o)
    ensures WithinOwner(Run(s, es), o) && Covered(Run(s, es), o)
    decreases |es|
  {
    if es != [] {
      StepKeepsOwner(s, es[0], o);
      StepKeepsCovered(s, es[0], o);
      StepKeepsScopeSound(s, es[0], o.name);
      AnyFloorWillDo(Step(s, es[0]), es[1..], o);
    }
  }

  // ---- an input ----

  function OwnedClaim(key: string, units: int, floor: int): ClaimRequest {
    ClaimRequest(OtherType("translation_llm_proxy"), Some("task"), Some("user"), 1, key,
      Reservation("llm", units, 1000, 1000, 0, 1000, Some(OwnerBudget(115, floor, 1, None))))
  }

  const TASK := OneOwner("llm", OtherType("translation_llm_proxy"), "task")

  const METERED := Ledger([], 0, [], [], map[TASK := 100])

  lemma SingleRow(j: Job, q: Query)
    ensures Total([j], q) == Cost(j, q) && HeldCount([j], q.pool) == Unit(InPool(j, q.pool) && !Terminal(j))
  {
    assert [j] == [] + [j];
    TotalAppend([], j, q);
    HeldCountAppend([], j, q.pool);
  }

  lemma OwnedClaimIsValid(key: string, units: int, floor: int)
    requires 0 <= units <= 1000 && 0 <= floor <= 1000
    ensures ValidReservation(OwnedClaim(key, units, floor))
  {
  }

  const FIRST := OwnedClaim("a", 10, 100)
  const SECOND := OwnedClaim("b", 15, 100)
  const SETTLED := SettledRow(ClaimedRow(FIRST, Readings(1, 1, 1)), true, Some(10), false, 1)

  lemma FirstSettles()
    ensures var s := Step(Step(METERED, Claim(FIRST, Readings(1, 1, 1))), Settle(0, true, Some(10), false, true, 10));
      s.rows == [SETTLED] && s.now == 1 && Floor(s, TASK) == 110
  {
    OwnedClaimIsValid("a", 10, 100);
    var s1 := Step(METERED, Claim(FIRST, Readings(1, 1, 1)));
    assert s1.rows == [ClaimedRow(FIRST, Readings(1, 1, 1))];
    assert OwnerOf(s1.rows[0]) == Some(TASK);
  }

  lemma SecondIsAdmitted()
    ensures Admissible([SETTLED], SECOND, Readings(2, 2, 2))
  {
    OwnedClaimIsValid("b", 15, 100);
    SingleRow(SETTLED, Query(TASK, false, true, false, CreatedSince(None)));
    SingleRow(SETTLED, Query(TASK, true, false, true, CreatedSince(None)));
    SingleRow(SETTLED, Query(WholeScope("llm"), true, true, true, CompletedIn(0, 1000)));
    SingleRow(SETTLED, Query(OneUser("llm", "user"), true, true, true, CompletedIn(0, 1000)));
    assert !KeyTaken([SETTLED], "b");
  }

  lemma SecondOverruns()
    ensures OwnerUse([SETTLED] + [ClaimedRow(SECOND, Readings(2, 2, 2))], TASK, 110, None) == 125
  {
    var known := Query(TASK, false, true, false, CreatedSince(None));
    var open := Query(TASK, true, false, true, CreatedSince(None));
    SingleRow(SETTLED, known);
    SingleRow(SETTLED, open);
    TotalAppend([SETTLED], ClaimedRow(SECOND, Readings(2, 2, 2)), known);
    TotalAppend([SETTLED], ClaimedRow(SECOND, Readings(2, 2, 2)), open);
  }

  /**
   * With a meter that predates the table, a claim that names the meter as it was before another
   * settlement is admitted past the owner's limit: 110 metered and 15 reserved under a limit of 115.
   */
  lemma StaleFloorOverrunsOwner()
    ensures var t := Run(METERED, [
        Claim(OwnedClaim("a", 10, 100), Readings(1, 1, 1)),
        Settle(0, true, Some(10), false, true, 10),
        Claim(OwnedClaim("b", 15, 100), Readings(2, 2, 2))]);
      OwnerUse(t.rows, TASK, Floor(t, TASK), None) == 125
  {
    var claim, settle, next := Claim(FIRST, Readings(1, 1, 1)), Settle(0, true, Some(10), false, true, 10),
                               Claim(SECOND, Readings(2, 2, 2));
    FirstSettles();
    SecondIsAdmitted();
    SecondOverruns();
    ThreeSteps(METERED, claim, settle, next);
  }
}
