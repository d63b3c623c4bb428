/** What callers of `getOrSetApiCache` that come after a deletion has finished may still be handed. */
module ApiCacheCallers {
  import opened Options
  import opened ApiCache

  ghost predicate HasFinished(w: World, d: nat, prefix: string, write: nat) {
    d in w.deletes && w.deletes[d].finished && w.deletes[d].prefix == prefix && w.deletes[d].write == write
  }

  lemma StepKeepsFinished(w: World, e: Event, d: nat, prefix: string, write: nat)
    requires HasFinished(w, d, prefix, write)
    ensures HasFinished(Step(w, e), d, prefix, write)
  {
  }

  function Outcome(loads: map<nat, Load>, l: nat): Option<Version> {
    if l in loads && loads[l].done then loads[l].read else None
  }

  /** The value caller `c` has been handed: a hit, or the outcome of the load it joined or started. */
  function Served(w: World, c: nat): Option<Version>
    requires c in w.callers
  {
    match w.callers[c].phase
    case Asking(_) => None
    case Hit(value) => Some(value)
    case Joined(l) => Outcome(w.loads, l)
    case Loading => Outcome(w.loads, c)
  }

  ghost predicate ServedStale(w: World, c: nat, key: string, write: nat) {
    c in w.callers && w.callers[c].key == key && Served(w, c).Some? && Served(w, c).value < write
  }

  /** A load for `key` that callers may still join has read, and read before the write. */
  predicate StaleLoadInFlight(w: World, key: string, write: nat) {
    key in w.inFlight && w.inFlight[key] in w.loads
    && w.loads[w.inFlight[key]].read.Some? && w.loads[w.inFlight[key]].read.value < write
  }

  // ------------------------------------------------- no stale load in flight

  predicate FreshLoad(loads: map<nat, Load>, l: nat, write: nat) {
    l in loads && loads[l].read.Some? ==> loads[l].read.value >= write
  }

  predicate FreshPhase(phase: Phase, loads: map<nat, Load>, write: nat) {
    match phase
    case Asking(reply) => reply.Some? ==> reply.value >= write
    case Hit(value) => value >= write
    case Joined(l) => FreshLoad(loads, l, write)
    case Loading => true
  }

  /** Nothing that caller `c` holds, is about to be handed or may join for `key` is from before `write`. */
  predicate FreshFor(w: World, c: nat, key: string, write: nat) {
    && (c in w.callers && w.callers[c].key == key ==> FreshPhase(w.callers[c].phase, w.loads, write))
    && FreshLoad(w.loads, c, write)
    && (key in w.inFlight ==> FreshLoad(w.loads, w.inFlight[key], write))
  }

  lemma LoadChangeFresh(w: World, l: nat, load: Load, c: nat, key: string, write: nat)
    requires FreshFor(w, c, key, write)
    requires load.read.Some? ==> load.read.value >= write || (l in w.loads && load.read == w.loads[l].read)
    ensures FreshFor(w.(loads := w.loads[l := load]), c, key, write)
  {
  }

  lemma WithPhaseFresh(w: World, c': nat, phase: Phase, c: nat, key: string, write: nat)
    requires c' in w.callers && FreshFor(w, c, key, write)
    requires c' == c && w.callers[c].key == key ==> FreshPhase(phase, w.loads, write)
    ensures FreshFor(WithPhase(w, c', phase), c, key, write)
  {
  }

  lemma LoadStartedFresh(w: World, c': nat, c: nat, key: string, write: nat)
    requires c' in w.callers && FreshFor(w, c, key, write)
    ensures FreshFor(LoadStarted(w, c'), c, key, write)
  {
    LoadChangeFresh(w, c', Load(w.callers[c'].key, w.callers[c'].startedAt, None, false, false), c, key, write);
  }

  lemma RepliedFresh(w: World, c': nat, lost: bool, c: nat, key: string, write: nat)
    requires c' in w.callers && w.callers[c'].phase.Asking? && FreshFor(w, c, key, write)
    ensures FreshFor(Replied(w, c', lost), c, key, write)
  {
    var asked, reply := w.callers[c'].key, w.callers[c'].phase.reply;
    if reply.Some? && !lost {
      WithPhaseFresh(w, c', Hit(reply.value), c, key, write);
    } else if asked in w.inFlight {
      WithPhaseFresh(w, c', Joined(w.inFlight[asked]), c, key, write);
    } else {
      WithPhaseFresh(w, c', Loading, c, key, write);
      LoadStartedFresh(WithPhase(w, c', Loading), c', c, key, write);
    }
  }

  lemma StepFresh(w: World, e: Event, c: nat, key: string, write: nat)
    requires w.writes >= write && (key in w.stored ==> w.stored[key] >= write)
    requires FreshFor(w, c, key, write)
    ensures FreshFor(Step(w, e), c, key, write)
  {
    match e
    case AfterGet(c', lost) =>
      if c' in w.callers && w.callers[c'].phase.Asking? { RepliedFresh(w, c', lost, c, key, write); }
    case LoaderReads(l) =>
      if l in w.loads { LoadChangeFresh(w, l, w.loads[l].(read := Some(w.writes)), c, key, write); }
    case LoaderReturns(l, _) =>
      if l in w.loads { LoadChangeFresh(w, l, w.loads[l].(done := true), c, key, write); }
    case LoaderFails(l) =>
      if l in w.loads { LoadChangeFresh(w, l, w.loads[l].(done := true, read := None), c, key, write); }
    case Cleanup(l) =>
      if l in w.loads { LoadChangeFresh(w, l, w.loads[l].(cleaned := true), c, key, write); }
    case _ =>
  }

  lemma {:induction false} RunFresh(w: World, events: seq<Event>, c: nat, d: nat, key: string)
    requires Sound(w) && d in w.deletes && w.deletes[d].finished && w.deletes[d].prefix <= key
    requires FreshFor(w, c, key, w.deletes[d].write)
    ensures HasFinished(Run(w, events), d, w.deletes[d].prefix, w.deletes[d].write)
    ensures FreshFor(Run(w, events), c, key, w.deletes[d].write)
    decreases |events|
  {
    if events != [] {
      StepSound(w, events[0]);
      StepKeepsFinished(w, events[0], d, w.deletes[d].prefix, w.deletes[d].write);
      StepFresh(w, events[0], c, key, w.deletes[d].write);
      RunFresh(Step(w, events[0]), events[1..], c, d, key);
    }
  }

  /** With no stale load in flight, a caller that comes after the deletion is served no value from before
    * the write, at any later time: not from the cache, not by a load of its own, not by one it joins. */
  lemma LateCallersAreServedFresh(w: World, events: seq<Event>, c: nat, d: nat, key: string)
    requires Sound(w) && d in w.deletes && w.deletes[d].finished && w.deletes[d].prefix <= key
    requires c !in w.callers && !StaleLoadInFlight(w, key, w.deletes[d].write)
    ensures !ServedStale(Run(w, events), c, key, w.deletes[d].write)
  {
    RunFresh(w, events, c, d, key);
  }

  // ---------------------------------------------------- a stale load in flight

  /** The caller whose arrival goes wrong: the cached value has expired, so it joins the load. */
  lemma NewcomerJoins(w: World, c: nat, key: string, write: nat) returns (events: seq<Event>)
    requires c !in w.callers && c !in w.loads && StaleLoadInFlight(w, key, write)
    ensures ServedStale(Run(w, events), c, key, write)
  {
    var l := w.inFlight[key];
    events := [Expire(key), Enter(c, key), AfterGet(c, false), LoaderReturns(l, false)];
    var expired := Step(w, Expire(key));
    var asking := Step(expired, Enter(c, key));
    assert asking.callers[c] == Caller(key, w.now, Asking(None));
    var joined := Step(asking, AfterGet(c, false));
    assert joined.callers[c] == Caller(key, w.now, Joined(l)) && joined.loads == w.loads;
    var returned := Step(joined, LoaderReturns(l, false));
    assert returned.callers == joined.callers && returned.loads[l].done && returned.loads[l].read == w.loads[l].read;
    FourSteps(w, Expire(key), Enter(c, key), AfterGet(c, false), LoaderReturns(l, false));
  }

  ghost predicate MayBeServedStale(w: World, c: nat, key: string, write: nat) {
    exists events :: ServedStale(Run(w, events), c, key, write)
  }

  /** After a deletion has finished, a newcomer can be handed a value from before the write it follows if
    * and only if a load that can still be joined read before that write. The cache itself holds none. */
  lemma NewcomersAreServedStaleExactly(w: World, c: nat, d: nat, key: string, write: nat)
    requires Sound(w) && d in w.deletes && w.deletes[d].finished && w.deletes[d].prefix <= key
    requires c !in w.callers && write == w.deletes[d].write
    ensures MayBeServedStale(w, c, key, write) <==> StaleLoadInFlight(w, key, write)
  {
    if StaleLoadInFlight(w, key, write) {
      var events := NewcomerJoins(w, c, key, write);
    } else if MayBeServedStale(w, c, key, write) {
      var events :| ServedStale(Run(w, events), c, key, write);
      LateCallersAreServedFresh(w, events, c, d, key);
    }
  }

  // ------------------------------------------------------ such a load exists

  const CALLER := Caller("k", 1, Loading)
  const LOADED := World(
    1, 0, map[], map[], map[], map[0 := Load("k", 1, Some(0), false, false)], map["k" := 0], map[0 := CALLER])
  const DELETED := LOADED.(writes := 1, marks := map["k" := 1], deletes := map[0 := Delete("k", 1, {}, {}, true)])

  lemma FirstCallerLoads()
    ensures Run(START, [Tick(1), Enter(0, "k"), AfterGet(0, false), LoaderReads(0)]) == LOADED
  {
    var asked := START.(now := 1, callers := map[0 := Caller("k", 1, Asking(None))]);
    var loading := LOADED.(loads := map[0 := Load("k", 1, None, false, false)]);
    assert Step(START, Tick(1)) == START.(now := 1);
    assert Step(START.(now := 1), Enter(0, "k")) == asked;
    assert Step(asked, AfterGet(0, false)) == loading;
    assert Step(loading, LoaderReads(0)) == LOADED;
    FourSteps(START, Tick(1), Enter(0, "k"), AfterGet(0, false), LoaderReads(0));
  }

  lemma DeletionFinishes()
    ensures Run(LOADED, [Write, Invalidate(0, "k", 1), ScanEnds(0)]) == DELETED
  {
    var marked := DELETED.(deletes := map[0 := Delete("k", 1, {}, {}, false)]);
    assert Matching(map[], "k") == {};
    assert Step(LOADED, Write) == LOADED.(writes := 1);
    assert Step(LOADED.(writes := 1), Invalidate(0, "k", 1)) == marked;
    assert Step(marked, ScanEnds(0)) == DELETED;
    Next(LOADED, Write, [Invalidate(0, "k", 1), ScanEnds(0)]);
    Next(LOADED.(writes := 1), Invalidate(0, "k", 1), [ScanEnds(0)]);
    Next(marked, ScanEnds(0), []);
    assert [Write, Invalidate(0, "k", 1), ScanEnds(0)] == [Write] + ([Invalidate(0, "k", 1)] + [ScanEnds(0)]);
  }

  /** A load that reads just before the write is still in flight when the deletion has finished. */
  lemma StaleLoadIsReachable()
    ensures var w := Run(START, [Tick(1), Enter(0, "k"), AfterGet(0, false), LoaderReads(0)]
                                + [Write, Invalidate(0, "k", 1), ScanEnds(0)]);
      HasFinished(w, 0, "k", 1) && StaleLoadInFlight(w, "k", 1)
  {
    FirstCallerLoads();
    DeletionFinishes();
    RunSplits(START, [Tick(1), Enter(0, "k"), AfterGet(0, false), LoaderReads(0)],
              [Write, Invalidate(0, "k", 1), ScanEnds(0)]);
  }
}
