/** The caller that names a stale floor looks again before it spends anything
  * (src/app/api/translate/llm-proxy/v1/chat/completions/route.ts:340-390). */
module JobRechecks {
  import opened Options
  import opened JobTable
  import opened JobQueue
  import opened JobRuns

  /** `cleared`: the claims whose caller has read the meter again and found room for the reservation. */
  datatype Desk = Desk(ledger: Ledger, cleared: set<nat>)

  datatype Act = Transaction(e: Event) | Recheck(id: nat)

  /** A row of the owner that holds its reservation. */
  predicate InFlight(rows: seq<Job>, id: nat, p: Pool) {
    id < |rows| && InPool(rows[id], p) && !Terminal(rows[id])
  }

  predicate HasRoom(s: Ledger, id: nat, o: OwnerPolicy)
    requires id < |s.rows|
  {
    Floor(s, PoolOf(o)) + s.rows[id].reserved <= o.limit
  }

  ghost function DeskStep(d: Desk, a: Act, o: OwnerPolicy): Desk {
    match a
    case Transaction(e) => d.(ledger := Step(d.ledger, e))
    case Recheck(id) =>
      if InFlight(d.ledger.rows, id, PoolOf(o)) && HasRoom(d.ledger, id, o)
      then d.(cleared := d.cleared + {id}) else d
  }

  ghost function DeskRun(d: Desk, acts: seq<Act>, o: OwnerPolicy): Desk
    decreases |acts|
  {
    if acts == [] then d else DeskRun(DeskStep(d, acts[0], o), acts[1..], o)
  }

  /** The owner's terms, one job at a time; only a cleared claim is settled with usage. */
  ghost predicate Looks(d: Desk, a: Act, o: OwnerPolicy) {
    a.Transaction? ==>
      && KeepsTerms(d.ledger, a.e, o)
      && (a.e.Settle? && a.e.hasMutation && a.e.rise > 0 && InFlight(d.ledger.rows, a.e.id, PoolOf(o)) ==>
            a.e.id in d.cleared)
  }

  ghost predicate AllLook(d: Desk, acts: seq<Act>, o: OwnerPolicy)
    decreases |acts|
  {
    acts == [] || (Looks(d, acts[0], o) && AllLook(DeskStep(d, acts[0], o), acts[1..], o))
  }

  // ---- the invariant ----

  ghost predicate OneAtATime(rows: seq<Job>, p: Pool) {
    forall i: nat, j: nat :: InFlight(rows, i, p) && InFlight(rows, j, p) ==> i == j
  }

  ghost predicate Guarded(d: Desk, o: OwnerPolicy) {
    && ScopeSound(d.ledger, o.name) && OneAtATime(d.ledger.rows, PoolOf(o))
    && Floor(d.ledger, PoolOf(o)) <= o.limit
    && (forall id :: id in d.cleared ==>
          id < |d.ledger.rows| && (InFlight(d.ledger.rows, id, PoolOf(o)) ==> HasRoom(d.ledger, id, o)))
  }

  lemma {:induction false} NoneHeld(rows: seq<Job>, p: Pool)
    requires HeldCount(rows, p) == 0
    ensures forall i: nat :: !InFlight(rows, i, p)
  {
    if rows != [] {
      var n := |rows| - 1;
      NoneHeld(rows[..n], p);
      forall i: nat ensures !InFlight(rows, i, p) {
        assert i < n ==> !InFlight(rows[..n], i, p);
      }
    }
  }

  lemma ClaimKeepsGuarded(d: Desk, e: Event, o: OwnerPolicy)
    requires Guarded(d, o) && KeepsTerms(d.ledger, e, o) && o.maxActive == 1 && e.Claim?
    ensures Guarded(d.(ledger := Step(d.ledger, e)), o)
  {
    var s, t := d.ledger, Step(d.ledger, e);
    StepKeepsScopeSound(s, e, o.name);
    if InOrder(s, e.at) && Admissible(s.rows, e.req, e.at) {
      if ClaimsFor(e, o) {
        NoneHeld(s.rows, PoolOf(o));
      }
      assert forall i :: 0 <= i < |s.rows| ==> t.rows[i] == s.rows[i];
      assert forall i: nat :: i < |s.rows| && InFlight(t.rows, i, PoolOf(o)) ==> InFlight(s.rows, i, PoolOf(o));
    }
  }

  /** Any other transaction leaves in flight what was, and moves the meter only by a settlement. */
  lemma ReleaseKeepsFlights(s: Ledger, e: Event, o: OwnerPolicy)
    requires ScopeSound(s, o.name) && KeepsTerms(s, e, o) && !e.Claim?
    ensures var t := Step(s, e);
      && |s.rows| <= |t.rows| && ScopeSound(t, o.name)
      && forall i: nat :: InFlight(t.rows, i, PoolOf(o)) ==> InFlight(s.rows, i, PoolOf(o)) && t.rows[i] == s.rows[i]
  {
    var t := Step(s, e);
    StepReleases(s, e, o.name);
    StepKeepsScopeSound(s, e, o.name);
    forall i: nat | InFlight(t.rows, i, PoolOf(o)) ensures InFlight(s.rows, i, PoolOf(o)) && t.rows[i] == s.rows[i] {
      assert i < |s.rows| ==> Released(s.rows[i], t.rows[i], o.name, s.now);
    }
  }

  lemma ReleaseKeepsGuarded(d: Desk, e: Event, o: OwnerPolicy)
    requires Guarded(d, o) && Looks(d, Transaction(e), o) && !e.Claim?
    ensures Guarded(d.(ledger := Step(d.ledger, e)), o)
  {
    var s, t := d.ledger, Step(d.ledger, e);
    ReleaseKeepsFlights(s, e, o);
    if Floor(t, PoolOf(o)) != Floor(s, PoolOf(o)) {
      assert InFlight(s.rows, e.id, PoolOf(o)) && Terminal(t.rows[e.id]);
      assert Floor(t, PoolOf(o)) == Floor(s, PoolOf(o)) + e.rise;
      assert forall i: nat :: !InFlight(t.rows, i, PoolOf(o));
    }
  }

  /**
   * Whatever floors its claims name, and however stale: when a caller looks again after the claim, and
   * reports usage only if there was room, the owner's meter never passes its limit, over every run.
   */
  lemma {:induction false} MeterStaysInLimit(d: Desk, acts: seq<Act>, o: OwnerPolicy)
    requires Guarded(d, o) && o.maxActive == 1 && AllLook(d, acts, o)
    ensures Guarded(DeskRun(d, acts, o), o) && Floor(DeskRun(d, acts, o).ledger, PoolOf(o)) <= o.limit
    decreases |acts|
  {
    if acts != [] {
      if acts[0].Transaction? {
        if acts[0].e.Claim? {
          ClaimKeepsGuarded(d, acts[0].e, o);
        } else {
          ReleaseKeepsGuarded(d, acts[0].e, o);
        }
      }
      MeterStaysInLimit(DeskStep(d, acts[0], o), acts[1..], o);
    }
  }

  lemma FreeRow(rows: seq<Job>, j: Job, p: Pool, floor: int, since: Option<int>)
    requires Terminal(j) && j.actual == Some(0)
    ensures OwnerUse(rows + [j], p, floor, since) == OwnerUse(rows, p, floor, since)
    ensures HeldCount(rows + [j], p) == HeldCount(rows, p)
  {
    TotalAppend(rows, j, Query(p, false, true, false, CreatedSince(since)));
    TotalAppend(rows, j, Query(p, true, false, true, CreatedSince(since)));
    HeldCountAppend(rows, j, p);
  }

  /** A claim that is taken back with no usage leaves every owner's commitment as it was. */
  lemma RevocationRestores(s: Ledger, req: ClaimRequest, at: Readings, p: Pool, since: Option<int>)
    requires InOrder(s, at) && Admissible(s.rows, req, at)
    ensures var t := Step(Step(s, Claim(req, at)), Settle(|s.rows|, false, Some(0), false, false, 0));
      && OwnerUse(t.rows, p, Floor(t, p), since) == OwnerUse(s.rows, p, Floor(s, p), since)
      && HeldCount(t.rows, p) == HeldCount(s.rows, p)
  {
    var c := ClaimedRow(req, at);
    var j := SettledRow(c, false, Some(0), false, at.final);
    assert (s.rows + [c])[|s.rows| := j] == s.rows + [j];
    FreeRow(s.rows, j, p, Floor(s, p), since);
  }
}
