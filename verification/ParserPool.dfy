/** The module variables of src/lib/documentParserProcess.ts:113-174, changed in place. */
module ParserPool {
  import opened Options
  import opened ParserSlots

  class Slots {
    var activeParsers: nat
    var queuedBytes: int
    var pendingSlots: seq<Waiter>
    var aborted: set<nat>               // the signals that have fired
    var nextTicket: nat                 // names the promises
    ghost var settled: seq<Settlement>  // the calls of `resolve` and `reject`
    ghost var released: nat

    constructor ()
      ensures State() == START
    {
      activeParsers, queuedBytes, pendingSlots, aborted, nextTicket := 0, 0, [], {}, 0;
      settled, released := [], 0;
    }

    ghost function State(): World
      reads this
    {
      World(Pool(activeParsers, queuedBytes, pendingSlots), aborted, nextTicket, settled, released)
    }

    method AcquireParserSlot(bytes: nat, signal: Option<nat>) returns (ticket: nat, verdict: Option<Verdict>)
      modifies this
      ensures State() == Step(old(State()), Acquire(bytes, signal))
      ensures ticket == old(nextTicket)
      ensures verdict.Some? ==> settled == old(settled) + [Settlement(ticket, verdict.value)]
      ensures verdict.None? ==>
        settled == old(settled) && pendingSlots == old(pendingSlots) + [Waiter(ticket, bytes, signal)]
    {
      ticket, nextTicket := nextTicket, nextTicket + 1;
      if IsAborted(aborted, signal) {
        verdict := Some(Cancelled);
      } else if activeParsers < MAX_CONCURRENCY {
        activeParsers := activeParsers + 1;
        verdict := Some(Granted);
      } else if |pendingSlots| >= MAX_QUEUE_ITEMS || queuedBytes + bytes > MAX_QUEUED_BYTES {
        verdict := Some(Busy);
      } else {
        queuedBytes := queuedBytes + bytes;
        pendingSlots := pendingSlots + [Waiter(ticket, bytes, signal)];
        return ticket, None;
      }
      settled := settled + [Settlement(ticket, verdict.value)];
    }

    method ReleaseParserSlot()
      modifies this
      ensures State() == Step(old(State()), Release)
    {
      activeParsers := NoLess(activeParsers - 1);
      released := released + 1;
      while |pendingSlots| > 0 && activeParsers < MAX_CONCURRENCY
        invariant Admit(State()) == Admit(FreeOne(old(State())))
        decreases |pendingSlots|
      {
        ghost var before := State();
        assert before.pool.pending[..0] + before.pool.pending[1..] == pendingSlots[1..];
        var pending := pendingSlots[0];
        pendingSlots := pendingSlots[1..];
        queuedBytes := NoLess(queuedBytes - pending.bytes);
        if IsAborted(aborted, pending.signal) {
          settled := settled + [Settlement(pending.ticket, Cancelled)];
        } else {
          activeParsers := activeParsers + 1;
          settled := settled + [Settlement(pending.ticket, Granted)];
        }
        assert State() == AdmitFirst(before);
      }
    }

    method RemovePending(ticket: nat) returns (removed: bool)
      modifies this`pendingSlots, this`queuedBytes
      ensures var i := IndexOf(old(pendingSlots), ticket);
        && removed == (i < |old(pendingSlots)|)
        && (removed ==>
              (pendingSlots == old(pendingSlots)[..i] + old(pendingSlots)[i + 1..]
               && queuedBytes == NoLess(old(queuedBytes) - old(pendingSlots)[i].bytes)))
        && (!removed ==> pendingSlots == old(pendingSlots) && queuedBytes == old(queuedBytes))
    {
      var index := IndexOf(pendingSlots, ticket);
      if index >= |pendingSlots| {
        return false;
      }
      queuedBytes := NoLess(queuedBytes - pendingSlots[index].bytes);
      pendingSlots := pendingSlots[..index] + pendingSlots[index + 1..];
      return true;
    }

    method OnAbort(ticket: nat)
      modifies this
      ensures State() == Step(old(State()), AbortListener(ticket))
    {
      var removed := RemovePending(ticket);
      if removed {
        settled := settled + [Settlement(ticket, Cancelled)];
      }
    }

    method OnTimeout(ticket: nat)
      modifies this
      ensures State() == Step(old(State()), Timeout(ticket))
    {
      var removed := RemovePending(ticket);
      if removed {
        settled := settled + [Settlement(ticket, Busy)];
      }
    }
  }
}
