/** The API response cache of one process (src/lib/apiResponseCache.ts:24-162): reads, loads and write-backs
  * that race with prefix invalidation. Redis applies commands in the order they are sent, so each takes
  * effect at its sending; between two sendings, anything else may happen. */
module ApiCache {
  import opened Options

  /** A value is known by how many database writes its loader had seen. */
  type Version = nat

  /** A load that is `done` has resolved to what it read, or failed and has nothing to hand over; it is
    * `cleaned` when the caller that started it has left its `finally`. */
  datatype Load = Load(key: string, startedAt: int, read: Option<Version>, done: bool, cleaned: bool)

  /** A run of `deleteByPrefix` that follows the first `write` database writes. `must` holds the keys that
    * matched when the scan began and have been there ever since: SCAN returns each of them before it
    * ends. `batch` was returned and is about to be deleted. */
  datatype Delete = Delete(prefix: string, write: nat, must: set<string>, batch: set<string>, finished: bool)

  datatype Phase = Asking(reply: Option<Version>) | Hit(value: Version) | Joined(load: nat) | Loading

  datatype Caller = Caller(key: string, startedAt: int, phase: Phase)

  datatype World = World(
    now: int,
    writes: nat,
    stored: map<string, Version>,
    marks: map<string, int>,
    deletes: map<nat, Delete>,
    loads: map<nat, Load>,
    inFlight: map<string, nat>,
    callers: map<nat, Caller>)

  datatype Event =
    | Tick(ms: nat)
    | Write
    | Expire(key: string)
    | Invalidate(d: nat, prefix: string, write: nat)
    | ScanReply(d: nat, keys: set<string>)
    | DeleteBatch(d: nat)
    | ScanEnds(d: nat)
    | Enter(c: nat, key: string)
    | AfterGet(c: nat, lost: bool)
    | LoaderReads(l: nat)
    | LoaderReturns(l: nat, written: bool)
    | LoaderFails(l: nat)
    | Cleanup(l: nat)

  /** `latestInvalidationFor(key) >= startedAt`. */
  ghost predicate InvalidatedSince(marks: map<string, int>, key: string, startedAt: int) {
    startedAt <= 0 || exists prefix :: prefix in marks && prefix <= key && marks[prefix] >= startedAt
  }

  function Matching(stored: map<string, Version>, prefix: string): set<string> {
    set key | key in stored && prefix <= key
  }

  /** Keys that left the cache are no longer owed by any scan. */
  function Forget(deletes: map<nat, Delete>, gone: set<string>): map<nat, Delete> {
    map d | d in deletes :: deletes[d].(must := deletes[d].must - gone)
  }

  function Removed(w: World, gone: set<string>): World {
    w.(stored := w.stored - gone, deletes := Forget(w.deletes, gone))
  }

  // ------------------------------------------------------------- the steps

  function StartDelete(w: World, d: nat, prefix: string, write: nat): World {
    w.(marks := w.marks[prefix := w.now],
       deletes := w.deletes[d := Delete(prefix, write, Matching(w.stored, prefix), {}, false)])
  }

  function AfterDelete(w: World, d: nat): World
    requires d in w.deletes
  {
    var gone := w.deletes[d].batch;
    var w' := Removed(w, gone);
    w'.(deletes := w'.deletes[d := w'.deletes[d].(batch := {})])
  }

  function Entered(w: World, c: nat, key: string): World {
    var reply := if key in w.stored then Some(w.stored[key]) else None;
    w.(callers := w.callers[c := Caller(key, w.now, Asking(reply))])
  }

  function WithPhase(w: World, c: nat, phase: Phase): World
    requires c in w.callers
  {
    w.(callers := w.callers[c := w.callers[c].(phase := phase)])
  }

  function LoadStarted(w: World, c: nat): World
    requires c in w.callers
  {
    var key := w.callers[c].key;
    w.(loads := w.loads[c := Load(key, w.callers[c].startedAt, None, false, false)], inFlight := w.inFlight[key := c])
  }

  function Replied(w: World, c: nat, lost: bool): World
    requires c in w.callers && w.callers[c].phase.Asking?
  {
    var key, reply := w.callers[c].key, w.callers[c].phase.reply;
    if reply.Some? && !lost then WithPhase(w, c, Hit(reply.value))
    else if key in w.inFlight then WithPhase(w, c, Joined(w.inFlight[key]))
    else LoadStarted(WithPhase(w, c, Loading), c)
  }

  /** The loader is back: the value is written unless the prefix was invalidated since the caller came. */
  ghost function Returned(w: World, l: nat, written: bool): World
    requires l in w.loads && w.loads[l].read.Some?
  {
    var load := w.loads[l];
    var w' := w.(loads := w.loads[l := load.(done := true)]);
    if written && !InvalidatedSince(w.marks, load.key, load.startedAt)
    then w'.(stored := w.stored[load.key := load.read.value])
    else w'
  }

  function CleanedUp(w: World, l: nat): World
    requires l in w.loads
  {
    w.(loads := w.loads[l := w.loads[l].(cleaned := true)], inFlight := w.inFlight - {w.loads[l].key})
  }

  ghost function Step(w: World, e: Event): World {
    match e
    case Tick(ms) => w.(now := w.now + ms)
    case Write => w.(writes := w.writes + 1)
    case Expire(key) => Removed(w, {key})
    case Invalidate(d, prefix, write) =>
      if d in w.deletes || write > w.writes then w else StartDelete(w, d, prefix, write)
    case ScanReply(d, keys) =>
      if d in w.deletes && !w.deletes[d].finished && w.deletes[d].batch == {}
         && keys <= Matching(w.stored, w.deletes[d].prefix)
      then w.(deletes := w.deletes[d := w.deletes[d].(batch := keys)])
      else w
    case DeleteBatch(d) => if d in w.deletes then AfterDelete(w, d) else w
    case ScanEnds(d) =>
      if d in w.deletes && w.deletes[d].must == {} && w.deletes[d].batch == {}
      then w.(deletes := w.deletes[d := w.deletes[d].(finished := true)])
      else w
    case Enter(c, key) => if c in w.callers then w else Entered(w, c, key)
    case AfterGet(c, lost) =>
      if c in w.callers && w.callers[c].phase.Asking? && c !in w.loads then Replied(w, c, lost) else w
    case LoaderReads(l) =>
      if l in w.loads && w.loads[l].read.None? && !w.loads[l].done
      then w.(loads := w.loads[l := w.loads[l].(read := Some(w.writes))])
      else w
    case LoaderReturns(l, written) =>
      if l in w.loads && w.loads[l].read.Some? && !w.loads[l].done then Returned(w, l, written) else w
    case LoaderFails(l) =>
      if l in w.loads && !w.loads[l].done
      then w.(loads := w.loads[l := w.loads[l].(done := true, read := None)])
      else w
    case Cleanup(l) =>
      if l in w.loads && w.loads[l].done && !w.loads[l].cleaned then CleanedUp(w, l) else w
  }

  ghost function Run(w: World, events: seq<Event>): World
    decreases |events|
  {
    if events == [] then w else Run(Step(w, events[0]), events[1..])
  }

  const START := World(0, 0, map[], map[], map[], map[], map[], map[])

  // -------------------------------------------------------- the invariants

  /** Invalidations are marked, at a time that has come. */
  ghost predicate Marked(deletes: map<nat, Delete>, marks: map<string, int>, now: int, writes: nat) {
    && (forall d :: d in deletes ==> deletes[d].prefix in marks && deletes[d].write <= writes)
    && (forall prefix :: prefix in marks ==> marks[prefix] <= now)
  }

  /** Nobody started in the future, and each load belongs to a caller. */
  ghost predicate Past(callers: map<nat, Caller>, loads: map<nat, Load>, now: int) {
    && (forall c :: c in callers ==> callers[c].startedAt <= now)
    && (forall l :: l in loads ==> loads[l].startedAt <= now && l in callers)
  }

  /** A load that holds a value from before an invalidated write started no later than the mark. */
  ghost predicate Caught(loads: map<nat, Load>, deletes: map<nat, Delete>, marks: map<string, int>) {
    forall l, d :: (l in loads && d in deletes && deletes[d].prefix <= loads[l].key
                    && loads[l].read.Some? && loads[l].read.value < deletes[d].write) ==>
      (deletes[d].prefix in marks && loads[l].startedAt <= marks[deletes[d].prefix])
  }

  /** A key still holds a value from before an invalidated write only while that scan still owes it. */
  ghost predicate Owed(deletes: map<nat, Delete>, stored: map<string, Version>) {
    forall d, key :: (d in deletes && key in stored && deletes[d].prefix <= key && stored[key] < deletes[d].write) ==>
      (!deletes[d].finished && key in deletes[d].must)
  }

  ghost predicate Sound(w: World) {
    && Marked(w.deletes, w.marks, w.now, w.writes) && Past(w.callers, w.loads, w.now)
    && Caught(w.loads, w.deletes, w.marks) && Owed(w.deletes, w.stored)
  }

  lemma RemovedSound(w: World, gone: set<string>)
    requires Sound(w)
    ensures Sound(Removed(w, gone))
  {
  }

  lemma StartDeleteSound(w: World, d: nat, prefix: string, write: nat)
    requires Sound(w) && d !in w.deletes && write <= w.writes
    ensures Sound(StartDelete(w, d, prefix, write))
  {
  }

  lemma AfterDeleteSound(w: World, d: nat)
    requires Sound(w) && d in w.deletes
    ensures Sound(AfterDelete(w, d))
  {
    RemovedSound(w, w.deletes[d].batch);
  }

  lemma WithPhaseSound(w: World, c: nat, phase: Phase)
    requires Sound(w) && c in w.callers
    ensures Sound(WithPhase(w, c, phase))
  {
  }

  lemma LoadStartedSound(w: World, c: nat)
    requires Sound(w) && c in w.callers
    ensures Sound(LoadStarted(w, c))
  {
  }

  lemma RepliedSound(w: World, c: nat, lost: bool)
    requires Sound(w) && c in w.callers && w.callers[c].phase.Asking?
    ensures Sound(Replied(w, c, lost))
  {
    var key, reply := w.callers[c].key, w.callers[c].phase.reply;
    if reply.Some? && !lost {
      WithPhaseSound(w, c, Hit(reply.value));
    } else if key in w.inFlight {
      WithPhaseSound(w, c, Joined(w.inFlight[key]));
    } else {
      WithPhaseSound(w, c, Loading);
      LoadStartedSound(WithPhase(w, c, Loading), c);
    }
  }

  lemma ReturnedSound(w: World, l: nat, written: bool)
    requires Sound(w) && l in w.loads && w.loads[l].read.Some?
    ensures Sound(Returned(w, l, written))
  {
    var load := w.loads[l];
    forall d | d in w.deletes && w.deletes[d].prefix <= load.key && load.read.value < w.deletes[d].write
      ensures InvalidatedSince(w.marks, load.key, load.startedAt)
    {
      assert w.deletes[d].prefix in w.marks;
    }
  }

  lemma ClockSound(w: World, ms: nat, writes: nat)
    requires Sound(w) && writes >= w.writes
    ensures Sound(w.(now := w.now + ms, writes := writes))
  {
  }

  lemma EnteredSound(w: World, c: nat, key: string)
    requires Sound(w)
    ensures Sound(Entered(w, c, key))
  {
  }

  lemma ScanSound(w: World, d: nat, batch: set<string>, finished: bool)
    requires Sound(w) && d in w.deletes && (finished ==> w.deletes[d].finished || w.deletes[d].must == {})
    ensures Sound(w.(deletes := w.deletes[d := w.deletes[d].(batch := batch, finished := finished)]))
  {
  }

  lemma ReadSound(w: World, l: nat)
    requires Sound(w) && l in w.loads
    ensures Sound(w.(loads := w.loads[l := w.loads[l].(read := Some(w.writes))]))
  {
  }

  lemma FailedSound(w: World, l: nat)
    requires Sound(w) && l in w.loads
    ensures Sound(w.(loads := w.loads[l := w.loads[l].(done := true, read := None)]))
  {
  }

  lemma CleanedSound(w: World, l: nat)
    requires Sound(w) && l in w.loads
    ensures Sound(CleanedUp(w, l))
  {
  }

  predicate OfDeletion(e: Event) {
    e.Expire? || e.Invalidate? || e.ScanReply? || e.DeleteBatch? || e.ScanEnds?
  }

  lemma DeletionStepSound(w: World, e: Event)
    requires Sound(w) && OfDeletion(e)
    ensures Sound(Step(w, e))
  {
    match e
    case Expire(key) => RemovedSound(w, {key});
    case Invalidate(d, prefix, write) =>
      if d !in w.deletes && write <= w.writes { StartDeleteSound(w, d, prefix, write); }
    case ScanReply(d, keys) =>
      if d in w.deletes { ScanSound(w, d, keys, w.deletes[d].finished); }
    case DeleteBatch(d) => if d in w.deletes { AfterDeleteSound(w, d); }
    case ScanEnds(d) =>
      if d in w.deletes && w.deletes[d].must == {} { ScanSound(w, d, w.deletes[d].batch, true); }
  }

  lemma CallStepSound(w: World, e: Event)
    requires Sound(w) && !OfDeletion(e)
    ensures Sound(Step(w, e))
  {
    match e
    case Tick(ms) => ClockSound(w, ms, w.writes);
    case Write => ClockSound(w, 0, w.writes + 1);
    case Enter(c, key) => EnteredSound(w, c, key);
    case AfterGet(c, lost) =>
      if c in w.callers && w.callers[c].phase.Asking? && c !in w.loads { RepliedSound(w, c, lost); }
    case LoaderReads(l) => if l in w.loads { ReadSound(w, l); }
    case LoaderReturns(l, written) =>
      if l in w.loads && w.loads[l].read.Some? { ReturnedSound(w, l, written); }
    case LoaderFails(l) => if l in w.loads { FailedSound(w, l); }
    case Cleanup(l) => if l in w.loads { CleanedSound(w, l); }
  }

  /** Every command, reply and clock tick keeps the cache sound. */
  lemma StepSound(w: World, e: Event)
    requires Sound(w)
    ensures Sound(Step(w, e))
  {
    if OfDeletion(e) {
      DeletionStepSound(w, e);
    } else {
      CallStepSound(w, e);
    }
  }

  lemma {:induction false} RunSound(w: World, events: seq<Event>)
    requires Sound(w)
    ensures Sound(Run(w, events))
    decreases |events|
  {
    if events != [] {
      StepSound(w, events[0]);
      RunSound(Step(w, events[0]), events[1..]);
    }
  }

  /** Once `deleteByPrefix` has finished, the cache never again holds, under that prefix, a value read
    * before the write it follows, whatever reads, loads, write-backs, expiries and other deletions do. */
  lemma FinishedMeansGone(events: seq<Event>, d: nat, key: string)
    requires var w := Run(START, events);
      d in w.deletes && w.deletes[d].finished && w.deletes[d].prefix <= key && key in w.stored
    ensures Run(START, events).stored[key] >= Run(START, events).deletes[d].write
  {
    assert Sound(START);
    RunSound(START, events);
  }

  lemma {:induction false} RunSplits(w: World, a: seq<Event>, b: seq<Event>)
    ensures Run(w, a + b) == Run(Run(w, a), b)
    decreases |a|
  {
    if a == [] {
      assert a + b == b;
    } else {
      assert (a + b)[1..] == a[1..] + b;
      RunSplits(Step(w, a[0]), a[1..], b);
    }
  }

  lemma Next(w: World, e: Event, rest: seq<Event>)
    ensures Run(w, [e] + rest) == Run(Step(w, e), rest)
  {
    assert ([e] + rest)[1..] == rest;
  }

  lemma FourSteps(w: World, a: Event, b: Event, c: Event, d: Event)
    ensures Run(w, [a, b, c, d]) == Step(Step(Step(Step(w, a), b), c), d)
  {
    Next(w, a, [b] + ([c] + ([d] + [])));
    Next(Step(w, a), b, [c] + ([d] + []));
    Next(Step(Step(w, a), b), c, [d] + []);
    Next(Step(Step(Step(w, a), b), c), d, []);
    assert [a, b, c, d] == [a] + ([b] + ([c] + ([d] + [])));
  }
}
