/** Settlements as their callers see them (src/lib/jobQueue.ts:549-626): the transaction, whose
  * acknowledgement may be lost, and the read-back some time later, between all other transactions. */
module JobSettlements {
  import opened Options
  import opened JobTable
  import opened JobQueue
  import opened JobRuns
  import opened JobExclusivity

  /** A call of `settleActiveJob` whose transaction is over. `moved`: its own compare-and-swap took the
    * row out of PROCESSING, and its mutation was committed with it. */
  datatype Call = Call(
    id: nat, success: bool, hasMutation: bool, moved: bool, delivery: Delivery, reply: Option<SettleReply>)

  datatype Desk = Desk(ledger: Ledger, calls: seq<Call>)

  datatype Act =
    | Other(e: Event)                       // any transaction that is not a settlement
    | Transact(id: nat, success: bool, actual: Option<nat>, retainKey: bool, hasMutation: bool, rise: nat,
               delivery: Delivery)
    | ReadBack(k: nat, readable: bool)

  function Wanted(success: bool): Status {
    if success then Success else Failed
  }

  /** The row stands at the status a settlement was to give it. */
  predicate Stands(rows: seq<Job>, id: nat, success: bool) {
    id < |rows| && rows[id].status == Wanted(success)
  }

  function ReplyOf(rows: seq<Job>, c: Call, readable: bool): SettleReply {
    if !readable then TransportError
    else if Stands(rows, c.id, c.success) then Settled
    else if c.delivery == Acknowledged then NotProcessing
    else TransportError
  }

  /** The transaction; one that is acknowledged as having moved the row is answered at once. */
  function Opened(rows: seq<Job>, a: Act): Call
    requires a.Transact?
  {
    var moved := Settleable(rows, a.id) && a.delivery != Aborted;
    Call(a.id, a.success, a.hasMutation, moved, a.delivery,
         if moved && a.delivery == Acknowledged then Some(Settled) else None)
  }

  ghost function DeskStep(d: Desk, a: Act): Desk {
    match a
    case Other(e) => if e.Settle? then d else d.(ledger := Step(d.ledger, e))
    case Transact(id, success, actual, retainKey, hasMutation, rise, delivery) =>
      Desk(if delivery == Aborted then d.ledger
           else Step(d.ledger, Settle(id, success, actual, retainKey, hasMutation, rise)),
           d.calls + [Opened(d.ledger.rows, a)])
    case ReadBack(k, readable) =>
      if k < |d.calls| && d.calls[k].reply.None?
      then d.(calls := d.calls[k := d.calls[k].(reply := Some(ReplyOf(d.ledger.rows, d.calls[k], readable)))])
      else d
  }

  ghost function DeskRun(d: Desk, acts: seq<Act>): Desk
    decreases |acts|
  {
    if acts == [] then d else DeskRun(DeskStep(d, acts[0]), acts[1..])
  }

  // ------------------------------------------ the ledger's runs, and no more

  /** The ledger's own event behind an act, if any. */
  function EventOf(a: Act): Option<Event> {
    match a
    case Other(e) => if e.Settle? then None else Some(e)
    case Transact(id, success, actual, retainKey, hasMutation, rise, delivery) =>
      if delivery == Aborted then None else Some(Settle(id, success, actual, retainKey, hasMutation, rise))
    case ReadBack(_, _) => None
  }

  function EventsOf(acts: seq<Act>): seq<Event> {
    if acts == [] then []
    else (if EventOf(acts[0]).Some? then [EventOf(acts[0]).value] else []) + EventsOf(acts[1..])
  }

  /** What the desk does to the ledger is a run of the ledger, so whatever its runs keep holds here. */
  lemma {:induction false} DeskRunsAreRuns(d: Desk, acts: seq<Act>)
    ensures DeskRun(d, acts).ledger == Run(d.ledger, EventsOf(acts))
    decreases |acts|
  {
    if acts != [] {
      var rest := EventsOf(acts[1..]);
      DeskRunsAreRuns(DeskStep(d, acts[0]), acts[1..]);
      if EventOf(acts[0]).Some? {
        var e := EventOf(acts[0]).value;
        assert ([e] + rest)[1..] == rest;
        assert Run(d.ledger, [e] + rest) == Run(Step(d.ledger, e), rest);
      } else {
        assert [] + rest == rest;
      }
    }
  }

  // ------------------------------------------- mutations are the moved calls

  function MovedCalls(calls: seq<Call>, id: nat): nat {
    if calls == [] then 0
    else
      var c := calls[|calls| - 1];
      MovedCalls(calls[..|calls| - 1], id) + Unit(c.moved && c.hasMutation && c.id == id)
  }

  lemma {:induction false} ReplyKeepsMoved(calls: seq<Call>, k: nat, reply: Option<SettleReply>, id: nat)
    requires k < |calls|
    ensures MovedCalls(calls[k := calls[k].(reply := reply)], id) == MovedCalls(calls, id)
  {
    var n := |calls| - 1;
    var changed := calls[k := calls[k].(reply := reply)];
    if k < n {
      assert changed[..n] == calls[..n][k := calls[..n][k].(reply := reply)];
      ReplyKeepsMoved(calls[..n], k, reply, id);
    } else {
      assert changed[..n] == calls[..n];
    }
  }

  lemma StepCountsMoved(d: Desk, a: Act, id: nat)
    requires Ran(d.ledger, id) == MovedCalls(d.calls, id)
    ensures Ran(DeskStep(d, a).ledger, id) == MovedCalls(DeskStep(d, a).calls, id)
  {
    match a
    case Other(e) => OnlySettlementsMutate(d.ledger, e);
    case Transact(i, success, actual, retainKey, hasMutation, rise, delivery) =>
      OnlySettlementsMutate(d.ledger, Settle(i, success, actual, retainKey, hasMutation, rise));
      var c := Opened(d.ledger.rows, a);
      assert (d.calls + [c])[..|d.calls|] == d.calls;
      assert Ran(DeskStep(d, a).ledger, id) == Ran(d.ledger, id) + Unit(c.moved && c.hasMutation && i == id);
    case ReadBack(k, readable) =>
      if k < |d.calls| {
        ReplyKeepsMoved(d.calls, k, Some(ReplyOf(d.ledger.rows, d.calls[k], readable)), id);
      }
  }

  /** Over every run, a job's mutations that were committed are exactly those of the calls that moved it:
    * lost acknowledgements, aborted transactions and read-backs add none and hide none. */
  lemma {:induction false} MutationsAreMovedCalls(d: Desk, acts: seq<Act>, id: nat)
    requires Ran(d.ledger, id) == MovedCalls(d.calls, id)
    ensures Ran(DeskRun(d, acts).ledger, id) == MovedCalls(DeskRun(d, acts).calls, id)
    decreases |acts|
  {
    if acts != [] {
      StepCountsMoved(d, acts[0], id);
      MutationsAreMovedCalls(DeskStep(d, acts[0]), acts[1..], id);
    }
  }

  /** At most one of them per attempt of the job, in every run without a late mark on a finished row. */
  lemma MutationOncePerAttemptAtTheDesk(d: Desk, acts: seq<Act>, id: nat)
    requires MutationsCounted(d.ledger) && NeverRevives(d.ledger, EventsOf(acts))
    requires Ran(d.ledger, id) == MovedCalls(d.calls, id)
    ensures var t := DeskRun(d, acts); id < |t.ledger.rows| ==> MovedCalls(t.calls, id) <= t.ledger.rows[id].attempt
  {
    DeskRunsAreRuns(d, acts);
    MutationsAreMovedCalls(d, acts, id);
    MutationOncePerAttempt(d.ledger, EventsOf(acts));
  }

  // --------------------------------------------- what a reply can be trusted for

  /** The act itself puts the row where the settlement was to put it. */
  ghost predicate PutsThere(d: Desk, a: Act, id: nat, success: bool) {
    !Stands(d.ledger.rows, id, success) && Stands(DeskStep(d, a).ledger.rows, id, success)
  }

  ghost predicate NobodyPutsThere(d: Desk, acts: seq<Act>, id: nat, success: bool)
    decreases |acts|
  {
    acts == [] || (!PutsThere(d, acts[0], id, success)
                   && NobodyPutsThere(DeskStep(d, acts[0]), acts[1..], id, success))
  }

  ghost predicate Misled(d: Desk, k: nat) {
    k < |d.calls| && d.calls[k].reply == Some(Settled) && !d.calls[k].moved
  }

  lemma {:induction false} NotMisled(d: Desk, acts: seq<Act>, k: nat)
    requires k < |d.calls| && !Misled(d, k)
    requires d.calls[k].moved || d.calls[k].reply.Some? || !Stands(d.ledger.rows, d.calls[k].id, d.calls[k].success)
    requires NobodyPutsThere(d, acts, d.calls[k].id, d.calls[k].success)
    ensures !Misled(DeskRun(d, acts), k)
    decreases |acts|
  {
    if acts != [] {
      var next := DeskStep(d, acts[0]);
      assert next.calls[k].id == d.calls[k].id && next.calls[k].success == d.calls[k].success;
      NotMisled(next, acts[1..], k);
    }
  }

  /** In every run in which nobody else puts the row at the wanted status, the reply `Settled` means that
    * the call's own compare-and-swap moved the row, and its mutation ran. */
  ghost predicate Trustworthy(d: Desk, k: nat)
    requires k < |d.calls|
  {
    forall acts :: NobodyPutsThere(d, acts, d.calls[k].id, d.calls[k].success) ==> !Misled(DeskRun(d, acts), k)
  }

  lemma ReadBackMisleads(d: Desk, k: nat)
    requires k < |d.calls| && d.calls[k].reply.None? && !d.calls[k].moved
    requires Stands(d.ledger.rows, d.calls[k].id, d.calls[k].success)
    ensures !Trustworthy(d, k)
  {
    var acts := [ReadBack(k, true)];
    var t := DeskStep(d, ReadBack(k, true));
    assert acts[1..] == [] && DeskRun(t, []) == t;
    assert NobodyPutsThere(d, acts, d.calls[k].id, d.calls[k].success);
    assert Misled(DeskRun(d, acts), k);
  }

  /** Once a settlement's transaction is over and its reply is open, that reply can be trusted if and only
    * if the compare-and-swap moved the row, or the row did not already stand at the wanted status. */
  lemma SettledIsTruthfulExactly(d: Desk, k: nat)
    requires k < |d.calls| && d.calls[k].reply.None?
    ensures Trustworthy(d, k) <==> d.calls[k].moved || !Stands(d.ledger.rows, d.calls[k].id, d.calls[k].success)
  {
    if !d.calls[k].moved && Stands(d.ledger.rows, d.calls[k].id, d.calls[k].success) {
      ReadBackMisleads(d, k);
    } else {
      forall acts | NobodyPutsThere(d, acts, d.calls[k].id, d.calls[k].success) ensures !Misled(DeskRun(d, acts), k) {
        NotMisled(d, acts, k);
      }
    }
  }

  /** Whoever is told that the row was not processing has moved nothing. */
  ghost predicate Refuted(d: Desk) {
    forall k :: 0 <= k < |d.calls| ==>
      (d.calls[k].reply == Some(NotProcessing) ==> !d.calls[k].moved)
      && (d.calls[k].moved && d.calls[k].delivery == Acknowledged ==> d.calls[k].reply == Some(Settled))
  }

  /** Over every run, the reply `NotProcessing` means that the call moved nothing and no mutation of its ran,
    * and a call that is acknowledged as having moved the row is answered `Settled`. */
  lemma {:induction false} NotProcessingIsTruthful(d: Desk, acts: seq<Act>)
    requires Refuted(d)
    ensures Refuted(DeskRun(d, acts))
    decreases |acts|
  {
    if acts != [] {
      NotProcessingIsTruthful(DeskStep(d, acts[0]), acts[1..]);
    }
  }

  lemma ReclaimStands(d: Desk, id: nat, thresholdMs: int, f: TypeFilter)
    requires id < |d.ledger.rows| && Stale(d.ledger.rows[id], thresholdMs, f, d.ledger.now)
    ensures var t := DeskStep(d, Other(Reclaim(d.ledger.rows[id].scope, thresholdMs, f)));
      t.calls == d.calls && Stands(t.ledger.rows, id, false)
  {
  }

  /** A settlement that comes too late moves nothing, and is told it did. */
  lemma TooLateIsMisled(d: Desk, late: Act)
    requires late.Transact? && Stands(d.ledger.rows, late.id, late.success)
    ensures Misled(DeskStep(DeskStep(d, late), ReadBack(|d.calls|, true)), |d.calls|)
  {
    var t, k := DeskStep(d, late), |d.calls|;
    assert t.ledger.rows == d.ledger.rows;
    assert t.calls[k] == Opened(d.ledger.rows, late) && !t.calls[k].moved && t.calls[k].reply.None?;
  }

  /** A reclaim is one who puts it there: a failing settlement whose transaction comes after it is answered
    * `Settled` although its mutation never ran. */
  lemma ReclaimAnswersForSettlement(d: Desk, id: nat, thresholdMs: int, f: TypeFilter, late: Act)
    requires id < |d.ledger.rows| && Stale(d.ledger.rows[id], thresholdMs, f, d.ledger.now)
    requires late.Transact? && late.id == id && !late.success
    ensures var reclaim := Other(Reclaim(d.ledger.rows[id].scope, thresholdMs, f));
      Misled(DeskRun(d, [reclaim, late, ReadBack(|d.calls|, true)]), |d.calls|)
  {
    var reclaim := Other(Reclaim(d.ledger.rows[id].scope, thresholdMs, f));
    ReclaimStands(d, id, thresholdMs, f);
    TooLateIsMisled(DeskStep(d, reclaim), late);
    ThreeActs(d, reclaim, late, ReadBack(|d.calls|, true));
  }

  lemma ThreeActs(d: Desk, a: Act, b: Act, c: Act)
    ensures DeskRun(d, [a, b, c]) == DeskStep(DeskStep(DeskStep(d, a), b), c)
  {
    assert [a, b, c][1..] == [b, c] && [b, c][1..] == [c];
    assert DeskRun(DeskStep(DeskStep(d, a), b), [c]) == DeskStep(DeskStep(DeskStep(d, a), b), c);
  }
}
