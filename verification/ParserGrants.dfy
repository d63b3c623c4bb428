/** Who gets a parser slot, and why a call is ever refused (src/lib/documentParserProcess.ts:109-174). */
module ParserGrants {
  import opened Options
  import opened ParserSlots

  // ---------------------------------------------------------------- one release

  /** How many of the first waiters have been aborted meanwhile. */
  function LeadingAborted(pending: seq<Waiter>, aborted: set<nat>): (n: nat)
    ensures n <= |pending|
    ensures n < |pending| ==> !IsAborted(aborted, pending[n].signal)
    ensures forall i :: 0 <= i < n ==> IsAborted(aborted, pending[i].signal)
  {
    if pending == [] || !IsAborted(aborted, pending[0].signal) then 0 else 1 + LeadingAborted(pending[1..], aborted)
  }

  function Cancellations(waiters: seq<Waiter>): seq<Settlement> {
    seq(|waiters|, i requires 0 <= i < |waiters| => Settlement(waiters[i].ticket, Cancelled))
  }

  /** `t` comes of these by cancelling the first `n` waiters and granting the next one, if any, a slot. */
  predicate Grants(settled: seq<Settlement>, pending: seq<Waiter>, active: nat, n: nat, t: World)
    requires n <= |pending|
  {
    if n < |pending| then
      && t.settled == settled + Cancellations(pending[..n]) + [Settlement(pending[n].ticket, Granted)]
      && t.pool.pending == pending[n + 1..] && t.pool.active == active + 1
    else
      t.settled == settled + Cancellations(pending) && t.pool.pending == [] && t.pool.active == active
  }

  /** The waiters up to the first that was not aborted are cancelled, and that one is granted a slot. */
  predicate GrantsFirst(w: World, t: World) {
    Grants(w.settled, w.pool.pending, w.pool.active, LeadingAborted(w.pool.pending, w.aborted), t)
  }

  lemma CancelledFirst(pending: seq<Waiter>, n: nat)
    requires pending != [] && n < |pending|
    ensures [Settlement(pending[0].ticket, Cancelled)] + Cancellations(pending[1..][..n])
         == Cancellations(pending[..n + 1])
  {
  }

  lemma SettledInTurn(before: seq<Settlement>, x: Settlement, more: seq<Settlement>, last: seq<Settlement>)
    ensures before + [x] + more + last == before + ([x] + more) + last
    ensures before + [x] + more == before + ([x] + more)
  {
  }

  lemma FirstLeaves(w: World)
    requires w.pool.pending != [] && IsAborted(w.aborted, w.pool.pending[0].signal)
    ensures var t := AdmitFirst(w);
      && t.pool.pending == w.pool.pending[1..] && t.pool.active == w.pool.active && t.aborted == w.aborted
      && t.settled == w.settled + [Settlement(w.pool.pending[0].ticket, Cancelled)]
  {
  }

  lemma OneMoreAborted(pending: seq<Waiter>, aborted: set<nat>)
    requires pending != [] && IsAborted(aborted, pending[0].signal)
    ensures LeadingAborted(pending, aborted) == LeadingAborted(pending[1..], aborted) + 1
  {
  }

  /** What was settled after the first waiter left, counted from before it left. */
  lemma SettledSince(settled: seq<Settlement>, pending: seq<Waiter>, n: nat, last: seq<Settlement>)
    requires n < |pending|
    ensures settled + [Settlement(pending[0].ticket, Cancelled)] + Cancellations(pending[1..][..n]) + last
         == settled + Cancellations(pending[..n + 1]) + last
  {
    CancelledFirst(pending, n);
    SettledInTurn(settled, Settlement(pending[0].ticket, Cancelled), Cancellations(pending[1..][..n]), last);
  }

  lemma OneMoreCancelled(settled: seq<Settlement>, pending: seq<Waiter>, active: nat, n: nat, t: World)
    requires n < |pending|
    requires Grants(settled + [Settlement(pending[0].ticket, Cancelled)], pending[1..], active, n, t)
    ensures Grants(settled, pending, active, n + 1, t)
  {
    if n + 1 < |pending| {
      SettledSince(settled, pending, n, [Settlement(pending[n + 1].ticket, Granted)]);
      assert pending[1..][n + 1..] == pending[n + 2..];
    } else {
      SettledSince(settled, pending, n, []);
      assert pending[1..][..n] == pending[1..] && pending[..n + 1] == pending;
    }
  }

  lemma SkipsAborted(w: World, t: World)
    requires w.pool.pending != [] && IsAborted(w.aborted, w.pool.pending[0].signal) && GrantsFirst(AdmitFirst(w), t)
    ensures GrantsFirst(w, t)
  {
    FirstLeaves(w);
    OneMoreAborted(w.pool.pending, w.aborted);
    OneMoreCancelled(w.settled, w.pool.pending, w.pool.active, LeadingAborted(w.pool.pending[1..], w.aborted), t);
  }

  lemma TakesFirst(w: World)
    requires w.pool.pending != [] && !IsAborted(w.aborted, w.pool.pending[0].signal)
    ensures GrantsFirst(w, AdmitFirst(w))
  {
    assert Cancellations(w.pool.pending[..0]) == [];
  }

  lemma {:induction false} AdmitGrantsFirst(w: World)
    requires w.pool.active == MAX_CONCURRENCY - 1
    ensures GrantsFirst(w, Admit(w))
    decreases |w.pool.pending|
  {
    if w.pool.pending != [] {
      if IsAborted(w.aborted, w.pool.pending[0].signal) {
        AdmitGrantsFirst(AdmitFirst(w));
        SkipsAborted(w, Admit(AdmitFirst(w)));
      } else {
        TakesFirst(w);
        assert Admit(AdmitFirst(w)) == AdmitFirst(w);
      }
    }
  }

  /**
   * A release by a holder: the waiters before the first one whose signal has not been aborted are
   * cancelled, that one is granted the slot, and nobody else is settled; without one the slot is free.
   */
  lemma ReleaseGrantsFirst(w: World)
    requires Sound(w) && Full(w.pool) && w.pool.active > 0
    ensures var pending, t := w.pool.pending, Step(w, Release); var n := LeadingAborted(pending, w.aborted);
      if n < |pending| then
        && t.settled == w.settled + Cancellations(pending[..n]) + [Settlement(pending[n].ticket, Granted)]
        && t.pool.pending == pending[n + 1..] && t.pool.active == w.pool.active
      else
        && t.settled == w.settled + Cancellations(pending)
        && t.pool.pending == [] && t.pool.active == w.pool.active - 1
  {
    if w.pool.active == MAX_CONCURRENCY {
      AdmitGrantsFirst(FreeOne(w));
    } else {
      assert w.pool.pending == [] && Admit(FreeOne(w)) == FreeOne(w);
    }
  }

  // ------------------------------------------------------------------- one call

  /** No room in the queue for so many bytes. */
  predicate QueueIsFull(w: World, bytes: nat) {
    |w.pool.pending| == 16 || TotalBytes(w.pool.pending) + bytes > 128 * 1024 * 1024
  }

  /** A call is cancelled at once if its signal has been aborted, granted at once if a slot is free, refused at
    * once if the queue is full as well, and otherwise waits behind all others. */
  lemma AcquireExactly(w: World, bytes: nat, signal: Option<nat>)
    requires Sound(w) && Full(w.pool)
    ensures var t := Step(w, Acquire(bytes, signal)); var settled := |t.settled| > |w.settled|;
      && (settled ==> t.settled == w.settled + [Settlement(w.nextTicket, t.settled[|w.settled|].verdict)]
                      && t.pool.pending == w.pool.pending)
      && (!settled ==> t.settled == w.settled
                       && t.pool.pending == w.pool.pending + [Waiter(w.nextTicket, bytes, signal)])
      && (settled && t.settled[|w.settled|].verdict == Cancelled <==> IsAborted(w.aborted, signal))
      && (settled && t.settled[|w.settled|].verdict == Granted
          <==> !IsAborted(w.aborted, signal) && w.pool.active < 2)
      && (settled && t.settled[|w.settled|].verdict == Busy
          <==> !IsAborted(w.aborted, signal) && w.pool.active == 2 && QueueIsFull(w, bytes))
  {
  }

  // ------------------------------------------------------------------- whole runs

  /** The signal each call came with, and the calls that met a full queue or timed out. */
  datatype Log = Log(asked: map<nat, Option<nat>>, refused: set<nat>)

  function Logged(w: World, log: Log, e: Event): Log {
    match e
    case Acquire(bytes, signal) =>
      Log(log.asked[w.nextTicket := signal],
          if w.pool.active == 2 && QueueIsFull(w, bytes) then log.refused + {w.nextTicket} else log.refused)
    case Timeout(ticket) => log.(refused := log.refused + {ticket})
    case _ => log
  }

  function LogOf(w: World, log: Log, events: seq<Event>): Log
    decreases |events|
  {
    if events == [] then log else LogOf(Step(w, events[0]), Logged(w, log, events[0]), events[1..])
  }

  /** Abort listeners are called for signals that have fired. */
  predicate FiredOnly(w: World, e: Event) {
    e.AbortListener? ==>
      var i := IndexOf(w.pool.pending, e.ticket);
      i < |w.pool.pending| ==> IsAborted(w.aborted, w.pool.pending[i].signal)
  }

  predicate AllFiredOnly(w: World, events: seq<Event>)
    decreases |events|
  {
    events == [] || (FiredOnly(w, events[0]) && AllFiredOnly(Step(w, events[0]), events[1..]))
  }

  predicate Reasoned(s: Settlement, aborted: set<nat>, log: Log) {
    && s.ticket in log.asked
    && (s.verdict == Cancelled ==> IsAborted(aborted, log.asked[s.ticket]))
    && (s.verdict == Busy ==> s.ticket in log.refused)
  }

  predicate Remembered(x: Waiter, log: Log) {
    x.ticket in log.asked && log.asked[x.ticket] == x.signal
  }

  ghost predicate Explained(w: World, log: Log) {
    && (forall i :: 0 <= i < |w.settled| ==> Reasoned(w.settled[i], w.aborted, log))
    && (forall i :: 0 <= i < |w.pool.pending| ==> Remembered(w.pool.pending[i], log))
    && (forall t :: t in log.asked ==> t < w.nextTicket)
  }

  lemma SettleExplained(w: World, log: Log, i: nat, verdict: Verdict)
    requires Explained(w, log) && i < |w.pool.pending|
    requires verdict == Cancelled ==> IsAborted(w.aborted, w.pool.pending[i].signal)
    requires verdict == Busy ==> w.pool.pending[i].ticket in log.refused
    ensures Explained(Settle(w, i, verdict), log)
  {
    var pending := Settle(w, i, verdict).pool.pending;
    assert Remembered(w.pool.pending[i], log);
    assert forall j :: 0 <= j < |pending| ==> pending[j] == w.pool.pending[if j < i then j else j + 1];
  }

  lemma {:induction false} AdmitExplained(w: World, log: Log)
    requires Explained(w, log)
    ensures Explained(Admit(w), log)
    decreases |w.pool.pending|
  {
    if w.pool.pending != [] && w.pool.active < MAX_CONCURRENCY {
      SettleExplained(w, log, 0, if IsAborted(w.aborted, w.pool.pending[0].signal) then Cancelled else Granted);
      AdmitExplained(AdmitFirst(w), log);
    }
  }

  lemma MoreAborted(w: World, log: Log, source: nat)
    requires Explained(w, log)
    ensures Explained(Step(w, Abort(source)), log)
  {
    forall i | 0 <= i < |w.settled| ensures Reasoned(w.settled[i], w.aborted + {source}, log) {
      assert Reasoned(w.settled[i], w.aborted, log);
    }
  }

  lemma LogGrows(w: World, log: Log, more: Log)
    requires Explained(w, log) && log.refused <= more.refused
    requires forall t :: t in log.asked ==> t in more.asked && more.asked[t] == log.asked[t]
    requires forall t :: t in more.asked ==> t < w.nextTicket
    ensures Explained(w, more)
  {
    forall i | 0 <= i < |w.settled| ensures Reasoned(w.settled[i], w.aborted, more) {
      assert Reasoned(w.settled[i], w.aborted, log);
    }
    forall i | 0 <= i < |w.pool.pending| ensures Remembered(w.pool.pending[i], more) {
      assert Remembered(w.pool.pending[i], log);
    }
  }

  lemma AcquireExplained(w: World, log: Log, bytes: nat, signal: Option<nat>)
    requires Sound(w) && Full(w.pool) && Explained(w, log)
    ensures Explained(Step(w, Acquire(bytes, signal)), Logged(w, log, Acquire(bytes, signal)))
  {
    var t, more := Step(w, Acquire(bytes, signal)), Logged(w, log, Acquire(bytes, signal));
    LogGrows(w.(nextTicket := w.nextTicket + 1), log, more);
    AcquireExactly(w, bytes, signal);
    if |t.settled| > |w.settled| {
      assert Reasoned(t.settled[|w.settled|], t.aborted, more);
    } else {
      assert Remembered(t.pool.pending[|w.pool.pending|], more);
    }
  }

  lemma StepExplained(w: World, log: Log, e: Event)
    requires Sound(w) && Full(w.pool) && Explained(w, log) && FiredOnly(w, e)
    ensures Explained(Step(w, e), Logged(w, log, e))
  {
    match e
    case Acquire(bytes, signal) => AcquireExplained(w, log, bytes, signal);
    case Release => AdmitExplained(FreeOne(w), log);
    case Abort(source) => MoreAborted(w, log, source);
    case AbortListener(ticket) =>
      var i := IndexOf(w.pool.pending, ticket);
      if i < |w.pool.pending| { SettleExplained(w, log, i, Cancelled); }
    case Timeout(ticket) =>
      LogGrows(w, log, Logged(w, log, e));
      var i := IndexOf(w.pool.pending, ticket);
      if i < |w.pool.pending| { SettleExplained(w, Logged(w, log, e), i, Busy); }
  }

  lemma {:induction false} RunExplained(w: World, log: Log, events: seq<Event>)
    requires Sound(w) && Full(w.pool) && Explained(w, log) && AllFiredOnly(w, events)
    ensures Explained(Run(w, events), LogOf(w, log, events))
    decreases |events|
  {
    if events != [] {
      StepSound(w, events[0]);
      StepExplained(w, log, events[0]);
      RunExplained(Step(w, events[0]), Logged(w, log, events[0]), events[1..]);
    }
  }

  /**
   * Over every run in which abort listeners are called for fired signals only: a call is cancelled only if
   * its own signal has been aborted, and refused only if it met two taken slots and a full queue or timed out.
   */
  lemma NobodyIsRefusedWithoutReason(events: seq<Event>, i: nat)
    requires AllFiredOnly(START, events) && i < |Run(START, events).settled|
    ensures var w, log := Run(START, events), LogOf(START, Log(map[], {}), events); var s := w.settled[i];
      && s.ticket in log.asked
      && (s.verdict == Cancelled ==> IsAborted(w.aborted, log.asked[s.ticket]))
      && (s.verdict == Busy ==> s.ticket in log.refused)
  {
    RunExplained(START, Log(map[], {}), events);
    assert Reasoned(Run(START, events).settled[i], Run(START, events).aborted, LogOf(START, Log(map[], {}), events));
  }

  /** An abort counts at once, settles nobody by itself, and is what the listener of each waiter needs. */
  lemma AbortCounts(w: World, source: nat, i: nat)
    ensures var t := Step(w, Abort(source));
      && IsAborted(t.aborted, Some(source)) && t.pool == w.pool && t.settled == w.settled
      && (forall s :: IsAborted(t.aborted, s) <==> IsAborted(w.aborted, s) || s == Some(source))
      && (Sound(w) && i < |w.pool.pending| && w.pool.pending[i].signal == Some(source) ==>
            FiredOnly(t, AbortListener(w.pool.pending[i].ticket)))
  {
    if Sound(w) && i < |w.pool.pending| {
      assert IndexOf(w.pool.pending, w.pool.pending[i].ticket) == i;
    }
  }

  /** A waiter whose signal fires is cancelled and leaves; one that has waited too long is refused and leaves;
    * neither does anything to a call that waits no more. */
  lemma LeavingExactly(w: World, i: nat, ticket: nat)
    requires Sound(w)
    ensures i < |w.pool.pending| ==>
      var x := w.pool.pending[i];
      && Step(w, AbortListener(x.ticket)).settled == w.settled + [Settlement(x.ticket, Cancelled)]
      && Step(w, Timeout(x.ticket)).settled == w.settled + [Settlement(x.ticket, Busy)]
      && Step(w, Timeout(x.ticket)).pool == Step(w, AbortListener(x.ticket)).pool
      && Step(w, Timeout(x.ticket)).pool.pending == w.pool.pending[..i] + w.pool.pending[i + 1..]
      && Step(w, Timeout(x.ticket)).pool.active == w.pool.active
    ensures (forall j :: 0 <= j < |w.pool.pending| ==> w.pool.pending[j].ticket != ticket) ==>
      Step(w, AbortListener(ticket)) == w && Step(w, Timeout(ticket)) == w
  {
    if i < |w.pool.pending| {
      assert IndexOf(w.pool.pending, w.pool.pending[i].ticket) == i;
    }
  }
}
