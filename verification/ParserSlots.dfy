/** The slots that bound how many documents are parsed at once (src/lib/documentParserProcess.ts:102-174),
  * as a machine over every sequence of calls, aborts and timeouts. */
module ParserSlots {
  import opened Options

  const MAX_CONCURRENCY := 2
  const MAX_QUEUE_ITEMS := 16
  const MAX_QUEUED_BYTES := 128 * 1024 * 1024

  /** Every call of `acquireParserSlot` gets the next ticket. */
  datatype Waiter = Waiter(ticket: nat, bytes: nat, signal: Option<nat>)

  datatype Verdict = Granted | Cancelled | Busy

  /** One `resolve` or `reject` of the promise a call returned. */
  datatype Settlement = Settlement(ticket: nat, verdict: Verdict)

  datatype Pool = Pool(active: nat, queuedBytes: int, pending: seq<Waiter>)

  /** `settled` lists the settlements in the order they were made; `released` counts the releases. */
  datatype World = World(pool: Pool, aborted: set<nat>, nextTicket: nat, settled: seq<Settlement>, released: nat)

  /** An abort first marks its signal and then runs the listeners, one waiter at a time; other
    * listeners of the same signal may call anything in between. */
  datatype Event =
    | Acquire(bytes: nat, signal: Option<nat>)
    | Release
    | Abort(source: nat)
    | AbortListener(ticket: nat)
    | Timeout(ticket: nat)

  function NoLess(x: int): int {
    if x < 0 then 0 else x
  }

  predicate IsAborted(aborted: set<nat>, signal: Option<nat>) {
    signal.Some? && signal.value in aborted
  }

  /** A waiter leaves the queue and its promise is settled. */
  function Settle(w: World, i: nat, verdict: Verdict): World
    requires i < |w.pool.pending|
  {
    var pool := w.pool;
    var active := if verdict.Granted? then pool.active + 1 else pool.active;
    w.(pool := Pool(active, NoLess(pool.queuedBytes - pool.pending[i].bytes),
                    pool.pending[..i] + pool.pending[i + 1..]),
       settled := w.settled + [Settlement(pool.pending[i].ticket, verdict)])
  }

  /** A call is settled at once. */
  function Answer(w: World, verdict: Verdict): World {
    w.(pool := if verdict.Granted? then w.pool.(active := w.pool.active + 1) else w.pool,
       nextTicket := w.nextTicket + 1, settled := w.settled + [Settlement(w.nextTicket, verdict)])
  }

  /** A call joins the queue. */
  function Enqueue(w: World, bytes: nat, signal: Option<nat>): World {
    w.(pool := w.pool.(queuedBytes := w.pool.queuedBytes + bytes,
                       pending := w.pool.pending + [Waiter(w.nextTicket, bytes, signal)]),
       nextTicket := w.nextTicket + 1)
  }

  function AfterAcquire(w: World, bytes: nat, signal: Option<nat>): World {
    if IsAborted(w.aborted, signal) then Answer(w, Cancelled)
    else if w.pool.active < MAX_CONCURRENCY then Answer(w, Granted)
    else if |w.pool.pending| >= MAX_QUEUE_ITEMS || w.pool.queuedBytes + bytes > MAX_QUEUED_BYTES then Answer(w, Busy)
    else Enqueue(w, bytes, signal)
  }

  /** The loop of `releaseParserSlot`. */
  function Admit(w: World): World
    decreases |w.pool.pending|
  {
    if w.pool.pending == [] || w.pool.active >= MAX_CONCURRENCY then w else Admit(AdmitFirst(w))
  }

  function AdmitFirst(w: World): World
    requires w.pool.pending != []
  {
    Settle(w, 0, if IsAborted(w.aborted, w.pool.pending[0].signal) then Cancelled else Granted)
  }

  function FreeOne(w: World): World {
    w.(pool := w.pool.(active := NoLess(w.pool.active - 1)), released := w.released + 1)
  }

  /** `indexOf`, with the length for an absent ticket. */
  function IndexOf(pending: seq<Waiter>, ticket: nat): (i: nat)
    ensures i <= |pending|
    ensures i < |pending| ==> pending[i].ticket == ticket
    ensures forall j :: 0 <= j < i ==> pending[j].ticket != ticket
  {
    if pending == [] || pending[0].ticket == ticket then 0 else 1 + IndexOf(pending[1..], ticket)
  }

  function Leave(w: World, ticket: nat, verdict: Verdict): World {
    var i := IndexOf(w.pool.pending, ticket);
    if i < |w.pool.pending| then Settle(w, i, verdict) else w
  }

  function Step(w: World, e: Event): World {
    match e
    case Acquire(bytes, signal) => AfterAcquire(w, bytes, signal)
    case Release => Admit(FreeOne(w))
    case Abort(source) => w.(aborted := w.aborted + {source})
    case AbortListener(ticket) => Leave(w, ticket, Cancelled)
    case Timeout(ticket) => Leave(w, ticket, Busy)
  }

  function Run(w: World, events: seq<Event>): World
    decreases |events|
  {
    if events == [] then w else Run(Step(w, events[0]), events[1..])
  }

  const START := World(Pool(0, 0, []), {}, 0, [], 0)

  // -------------------------------------------------------- the invariants

  function TotalBytes(pending: seq<Waiter>): nat {
    if pending == [] then 0 else pending[0].bytes + TotalBytes(pending[1..])
  }

  ghost predicate Bounded(pool: Pool) {
    && pool.active <= MAX_CONCURRENCY && |pool.pending| <= MAX_QUEUE_ITEMS
    && pool.queuedBytes == TotalBytes(pool.pending) <= MAX_QUEUED_BYTES
  }

  /** Nobody waits while a slot is free. */
  predicate Full(pool: Pool) {
    pool.pending != [] ==> pool.active == MAX_CONCURRENCY
  }

  /** Slots are granted in the order of the calls: what waits is later than what was granted. */
  ghost predicate Fifo(pending: seq<Waiter>, settled: seq<Settlement>) {
    && (forall i, j :: 0 <= i < j < |pending| ==> pending[i].ticket < pending[j].ticket)
    && (forall i, j :: (0 <= i < |settled| && 0 <= j < |pending| && settled[i].verdict.Granted?) ==>
          settled[i].ticket < pending[j].ticket)
    && (forall i, j :: (0 <= i < j < |settled| && settled[i].verdict.Granted? && settled[j].verdict.Granted?) ==>
          settled[i].ticket < settled[j].ticket)
  }

  function Waiting(pending: seq<Waiter>): multiset<nat> {
    if pending == [] then multiset{} else multiset{pending[0].ticket} + Waiting(pending[1..])
  }

  function Settled(settled: seq<Settlement>): multiset<nat> {
    if settled == [] then multiset{}
    else Settled(settled[..|settled| - 1]) + multiset{settled[|settled| - 1].ticket}
  }

  /** The tickets given out before the n-th call, each once. */
  function CallsBefore(n: nat): multiset<nat> {
    if n == 0 then multiset{} else CallsBefore(n - 1) + multiset{n - 1}
  }

  lemma {:induction false} EachCallOnce(n: nat, t: nat)
    ensures CallsBefore(n)[t] == (if t < n then 1 else 0)
  {
    if n > 0 {
      EachCallOnce(n - 1, t);
    }
  }

  /** Every call so far either waits or was settled, once: the tickets that wait and those that were
    * settled, counted together, are those given out. */
  ghost predicate OnceEach(w: World) {
    Waiting(w.pool.pending) + Settled(w.settled) == CallsBefore(w.nextTicket)
  }

  function Grants(settled: seq<Settlement>): nat {
    if settled == [] then 0
    else Grants(settled[..|settled| - 1]) + (if settled[|settled| - 1].verdict.Granted? then 1 else 0)
  }

  lemma GrantsOneMore(settled: seq<Settlement>, s: Settlement)
    ensures Grants(settled + [s]) == Grants(settled) + (if s.verdict.Granted? then 1 else 0)
  {
    assert (settled + [s])[..|settled|] == settled;
  }

  ghost predicate Sound(w: World) {
    && Bounded(w.pool) && Fifo(w.pool.pending, w.settled) && OnceEach(w)
    && Grants(w.settled) <= w.pool.active + w.released
  }

  lemma {:induction false} TotalBytesSplit(a: seq<Waiter>, b: seq<Waiter>)
    ensures TotalBytes(a + b) == TotalBytes(a) + TotalBytes(b)
  {
    if a == [] {
      assert a + b == b;
    } else {
      assert (a + b)[1..] == a[1..] + b;
      TotalBytesSplit(a[1..], b);
    }
  }

  lemma SettleBounded(w: World, i: nat, verdict: Verdict)
    requires Sound(w) && i < |w.pool.pending| && (verdict.Granted? ==> w.pool.active < MAX_CONCURRENCY)
    ensures var w' := Settle(w, i, verdict); Bounded(w'.pool) && Grants(w'.settled) <= w'.pool.active + w'.released
  {
    var before, x, after := w.pool.pending[..i], w.pool.pending[i], w.pool.pending[i + 1..];
    assert w.pool.pending == before + ([x] + after);
    TotalBytesSplit(before, [x] + after);
    TotalBytesSplit(before, after);
    assert ([x] + after)[1..] == after;
    GrantsOneMore(w.settled, Settlement(x.ticket, verdict));
  }

  lemma SettleFifo(w: World, i: nat, verdict: Verdict)
    requires Sound(w) && i < |w.pool.pending| && (verdict.Granted? ==> i == 0)
    ensures var w' := Settle(w, i, verdict); Fifo(w'.pool.pending, w'.settled)
  {
    var pending := Settle(w, i, verdict).pool.pending;
    assert forall j :: 0 <= j < |pending| ==> pending[j] == w.pool.pending[if j < i then j else j + 1];
  }

  lemma {:induction false} WaitingSplit(a: seq<Waiter>, b: seq<Waiter>)
    ensures Waiting(a + b) == Waiting(a) + Waiting(b)
  {
    if a == [] {
      assert a + b == b;
    } else {
      assert (a + b)[1..] == a[1..] + b;
      WaitingSplit(a[1..], b);
    }
  }

  lemma SettledOneMore(settled: seq<Settlement>, s: Settlement)
    ensures Settled(settled + [s]) == Settled(settled) + multiset{s.ticket}
  {
    assert (settled + [s])[..|settled|] == settled;
  }

  lemma SettleOnce(w: World, i: nat, verdict: Verdict)
    requires OnceEach(w) && i < |w.pool.pending|
    ensures OnceEach(Settle(w, i, verdict))
  {
    var before, x, after := w.pool.pending[..i], w.pool.pending[i], w.pool.pending[i + 1..];
    assert w.pool.pending == before + ([x] + after) && ([x] + after)[1..] == after;
    WaitingSplit(before, [x] + after);
    WaitingSplit(before, after);
    SettledOneMore(w.settled, Settlement(x.ticket, verdict));
    Regroup(Waiting(before), multiset{x.ticket}, Waiting(after), Settled(w.settled));
  }

  lemma Regroup(a: multiset<nat>, x: multiset<nat>, b: multiset<nat>, s: multiset<nat>)
    ensures a + (x + b) + s == a + b + (s + x)
  {
  }

  lemma {:induction false} InWaiting(pending: seq<Waiter>, i: nat)
    requires i < |pending|
    ensures pending[i].ticket in Waiting(pending)
  {
    if i > 0 {
      InWaiting(pending[1..], i - 1);
    }
  }

  lemma {:induction false} InSettled(settled: seq<Settlement>, i: nat)
    requires i < |settled|
    ensures settled[i].ticket in Settled(settled)
  {
    if i < |settled| - 1 {
      InSettled(settled[..|settled| - 1], i);
    }
  }

  /** All tickets in sight were given out, so the next one is new and the largest. */
  lemma TicketsAreOlder(w: World)
    requires OnceEach(w)
    ensures forall i :: 0 <= i < |w.pool.pending| ==> w.pool.pending[i].ticket < w.nextTicket
    ensures forall i :: 0 <= i < |w.settled| ==> w.settled[i].ticket < w.nextTicket
  {
    forall i | 0 <= i < |w.pool.pending| ensures w.pool.pending[i].ticket < w.nextTicket {
      InWaiting(w.pool.pending, i);
      EachCallOnce(w.nextTicket, w.pool.pending[i].ticket);
    }
    forall i | 0 <= i < |w.settled| ensures w.settled[i].ticket < w.nextTicket {
      InSettled(w.settled, i);
      EachCallOnce(w.nextTicket, w.settled[i].ticket);
    }
  }

  lemma SettleSound(w: World, i: nat, verdict: Verdict)
    requires Sound(w) && i < |w.pool.pending| && (verdict.Granted? ==> i == 0 && w.pool.active < MAX_CONCURRENCY)
    ensures Sound(Settle(w, i, verdict))
  {
    SettleBounded(w, i, verdict);
    SettleFifo(w, i, verdict);
    SettleOnce(w, i, verdict);
  }

  lemma AdmitFirstSound(w: World)
    requires Sound(w) && w.pool.pending != [] && w.pool.active < MAX_CONCURRENCY
    ensures Sound(AdmitFirst(w))
  {
    SettleSound(w, 0, if IsAborted(w.aborted, w.pool.pending[0].signal) then Cancelled else Granted);
  }

  lemma {:induction false} AdmitSound(w: World)
    requires Sound(w)
    ensures Sound(Admit(w)) && Full(Admit(w).pool)
    decreases |w.pool.pending|
  {
    if w.pool.pending != [] && w.pool.active < MAX_CONCURRENCY {
      AdmitFirstSound(w);
      AdmitSound(AdmitFirst(w));
    }
  }

  lemma AnswerOnce(w: World, verdict: Verdict)
    requires OnceEach(w)
    ensures OnceEach(Answer(w, verdict))
  {
    SettledOneMore(w.settled, Settlement(w.nextTicket, verdict));
    Regroup(Waiting(w.pool.pending), multiset{w.nextTicket}, multiset{}, Settled(w.settled));
  }

  lemma AnswerFifo(w: World, verdict: Verdict)
    requires Sound(w) && (verdict.Granted? ==> w.pool.pending == [])
    ensures Fifo(w.pool.pending, Answer(w, verdict).settled)
  {
    TicketsAreOlder(w);
  }

  lemma AnswerSound(w: World, verdict: Verdict)
    requires Sound(w) && (verdict.Granted? ==> w.pool.active < MAX_CONCURRENCY && w.pool.pending == [])
    ensures Sound(Answer(w, verdict))
  {
    AnswerFifo(w, verdict);
    AnswerOnce(w, verdict);
    GrantsOneMore(w.settled, Settlement(w.nextTicket, verdict));
  }

  lemma EnqueueOnce(w: World, bytes: nat, signal: Option<nat>)
    requires OnceEach(w)
    ensures OnceEach(Enqueue(w, bytes, signal))
  {
    var last := [Waiter(w.nextTicket, bytes, signal)];
    assert last[1..] == [];
    WaitingSplit(w.pool.pending, last);
    Regroup(Waiting(w.pool.pending), multiset{w.nextTicket}, multiset{}, Settled(w.settled));
  }

  lemma EnqueueSound(w: World, bytes: nat, signal: Option<nat>)
    requires Sound(w) && |w.pool.pending| < MAX_QUEUE_ITEMS && w.pool.queuedBytes + bytes <= MAX_QUEUED_BYTES
    ensures Sound(Enqueue(w, bytes, signal))
  {
    TicketsAreOlder(w);
    EnqueueOnce(w, bytes, signal);
    TotalBytesSplit(w.pool.pending, [Waiter(w.nextTicket, bytes, signal)]);
  }

  lemma AcquireSound(w: World, bytes: nat, signal: Option<nat>)
    requires Sound(w) && Full(w.pool)
    ensures Sound(AfterAcquire(w, bytes, signal)) && Full(AfterAcquire(w, bytes, signal).pool)
  {
    if IsAborted(w.aborted, signal) {
      AnswerSound(w, Cancelled);
    } else if w.pool.active < MAX_CONCURRENCY {
      AnswerSound(w, Granted);
    } else if |w.pool.pending| >= MAX_QUEUE_ITEMS || w.pool.queuedBytes + bytes > MAX_QUEUED_BYTES {
      AnswerSound(w, Busy);
    } else {
      EnqueueSound(w, bytes, signal);
    }
  }

  lemma LeaveSound(w: World, ticket: nat, verdict: Verdict)
    requires Sound(w) && Full(w.pool) && !verdict.Granted?
    ensures Sound(Leave(w, ticket, verdict)) && Full(Leave(w, ticket, verdict).pool)
  {
    var i := IndexOf(w.pool.pending, ticket);
    if i < |w.pool.pending| {
      SettleSound(w, i, verdict);
    }
  }

  /** Every call, abort and timeout keeps the pool sound, and never leaves a waiter beside a free slot. */
  lemma StepSound(w: World, e: Event)
    requires Sound(w) && Full(w.pool)
    ensures Sound(Step(w, e)) && Full(Step(w, e).pool)
  {
    match e
    case Acquire(bytes, signal) => AcquireSound(w, bytes, signal);
    case Release => AdmitSound(FreeOne(w));
    case Abort(_) =>
    case AbortListener(ticket) => LeaveSound(w, ticket, Cancelled);
    case Timeout(ticket) => LeaveSound(w, ticket, Busy);
  }

  lemma {:induction false} RunSound(w: World, events: seq<Event>)
    requires Sound(w) && Full(w.pool)
    ensures Sound(Run(w, events)) && Full(Run(w, events).pool)
    decreases |events|
  {
    if events != [] {
      StepSound(w, events[0]);
      RunSound(Step(w, events[0]), events[1..]);
    }
  }

  /** Over every sequence of calls, releases, aborts and timeouts: at most two slots are taken, the
    * queue and its bytes stay within their bounds, nobody waits beside a free slot, grants follow the
    * order of the calls, and every call is settled at most once and never forgotten. */
  lemma SlotsAreSound(events: seq<Event>)
    ensures Sound(Run(START, events)) && Full(Run(START, events).pool)
  {
    RunSound(START, events);
  }

  // ------------------------------------------------------- what follows

  lemma {:induction false} AdmitAppends(w: World)
    ensures w.settled <= Admit(w).settled
    decreases |w.pool.pending|
  {
    if w.pool.pending != [] && w.pool.active < MAX_CONCURRENCY {
      AdmitAppends(AdmitFirst(w));
    }
  }

  lemma {:induction false} RunAppends(w: World, events: seq<Event>)
    ensures w.settled <= Run(w, events).settled
    decreases |events|
  {
    if events != [] {
      AdmitAppends(FreeOne(w));
      RunAppends(Step(w, events[0]), events[1..]);
    }
  }

  lemma {:induction false} RunSplits(w: World, a: seq<Event>, b: seq<Event>)
    ensures Run(w, a + b) == Run(Run(w, a), b)
    decreases |a|
  {
    if a == [] {
      assert a + b == b;
    } else {
      assert (a + b)[1..] == a[1..] + b;
      RunSplits(Step(w, a[0]), a[1..], b);
    }
  }

  /** What a promise was settled with stands: later events add settlements, never for the same call. */
  lemma SettledForGood(a: seq<Event>, b: seq<Event>, i: nat, j: nat)
    requires i < j < |Run(START, a + b).settled| && i < |Run(START, a).settled|
    ensures Run(START, a + b).settled[i] == Run(START, a).settled[i]
    ensures Run(START, a + b).settled[j].ticket != Run(START, a + b).settled[i].ticket
  {
    RunSplits(START, a, b);
    RunAppends(Run(START, a), b);
    SlotsAreSound(a + b);
    SettledTwiceCounts(Run(START, a + b).settled, i, j);
    EachCallOnce(Run(START, a + b).nextTicket, Run(START, a + b).settled[i].ticket);
  }

  lemma {:induction false} SettledTwiceCounts(settled: seq<Settlement>, i: nat, j: nat)
    requires i < j < |settled|
    ensures settled[i].ticket == settled[j].ticket ==> Settled(settled)[settled[i].ticket] >= 2
  {
    var init := settled[..|settled| - 1];
    if j < |init| {
      SettledTwiceCounts(init, i, j);
    } else {
      InSettled(init, i);
    }
  }

  /** Every release is made by a call that holds a slot. */
  predicate Disciplined(w: World, events: seq<Event>)
    decreases |events|
  {
    events == []
    || ((events[0].Release? ==> w.released < Grants(w.settled)) && Disciplined(Step(w, events[0]), events[1..]))
  }

  lemma SettleCounts(w: World, i: nat, verdict: Verdict)
    requires i < |w.pool.pending| && Grants(w.settled) == w.pool.active + w.released
    ensures var w' := Settle(w, i, verdict); Grants(w'.settled) == w'.pool.active + w'.released
  {
    GrantsOneMore(w.settled, Settlement(w.pool.pending[i].ticket, verdict));
  }

  lemma {:induction false} AdmitCounts(w: World)
    requires Grants(w.settled) == w.pool.active + w.released
    ensures Grants(Admit(w).settled) == Admit(w).pool.active + Admit(w).released
    decreases |w.pool.pending|
  {
    if w.pool.pending != [] && w.pool.active < MAX_CONCURRENCY {
      SettleCounts(w, 0, if IsAborted(w.aborted, w.pool.pending[0].signal) then Cancelled else Granted);
      AdmitCounts(AdmitFirst(w));
    }
  }

  lemma StepCounts(w: World, e: Event)
    requires Grants(w.settled) == w.pool.active + w.released && (e.Release? ==> w.released < Grants(w.settled))
    ensures Grants(Step(w, e).settled) == Step(w, e).pool.active + Step(w, e).released
  {
    match e
    case Acquire(_, _) =>
      GrantsOneMore(w.settled, Settlement(w.nextTicket, Granted));
      GrantsOneMore(w.settled, Settlement(w.nextTicket, Cancelled));
      GrantsOneMore(w.settled, Settlement(w.nextTicket, Busy));
    case Release => AdmitCounts(FreeOne(w));
    case Abort(_) =>
    case AbortListener(ticket) =>
      var i := IndexOf(w.pool.pending, ticket);
      if i < |w.pool.pending| { SettleCounts(w, i, Cancelled); }
    case Timeout(ticket) =>
      var i := IndexOf(w.pool.pending, ticket);
      if i < |w.pool.pending| { SettleCounts(w, i, Busy); }
  }

  lemma {:induction false} RunCounts(w: World, events: seq<Event>)
    requires Grants(w.settled) == w.pool.active + w.released && Disciplined(w, events)
    ensures Grants(Run(w, events).settled) == Run(w, events).pool.active + Run(w, events).released
    decreases |events|
  {
    if events != [] {
      StepCounts(w, events[0]);
      RunCounts(Step(w, events[0]), events[1..]);
    }
  }

  /** When only holders release, the counter is exactly the number of slots held: no slot leaks. */
  lemma NoSlotLeaks(events: seq<Event>)
    requires Disciplined(START, events)
    ensures Grants(Run(START, events).settled) - Run(START, events).released == Run(START, events).pool.active
  {
    RunCounts(START, events);
  }
}
