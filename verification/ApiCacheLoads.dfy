/** The loads of `getOrSetApiCache` (src/lib/apiResponseCache.ts:97-162): one per key at a time, shared while
  * it is under way and by nobody after that, and what the cache is filled with and emptied of. */
module ApiCacheLoads {
  import opened Options
  import opened ApiCache
  import opened ApiCacheCallers

  /** A load that callers for its key find in flight. */
  predicate UnderWay(w: World, l: nat, key: string) {
    l in w.loads && w.loads[l].key == key && !w.loads[l].cleaned
  }

  /** The map of loads in flight holds exactly those under way, one per key; each belongs to a caller. */
  ghost predicate Tracked(w: World) {
    && (forall key :: key in w.inFlight ==> UnderWay(w, w.inFlight[key], key))
    && (forall l :: l in w.loads ==> l in w.callers)
    && (forall l :: l in w.loads && !w.loads[l].cleaned ==>
          w.loads[l].key in w.inFlight && w.inFlight[w.loads[l].key] == l)
  }

  lemma LoadChangeTracked(w: World, l: nat, load: Load)
    requires Tracked(w) && l in w.loads && load.key == w.loads[l].key && load.cleaned == w.loads[l].cleaned
    ensures Tracked(w.(loads := w.loads[l := load]))
  {
  }

  lemma CleanedTracked(w: World, l: nat)
    requires Tracked(w) && l in w.loads && !w.loads[l].cleaned
    ensures Tracked(CleanedUp(w, l))
  {
  }

  lemma LoadStartedTracked(w: World, c: nat)
    requires Tracked(w) && c in w.callers && c !in w.loads && w.callers[c].key !in w.inFlight
    ensures Tracked(LoadStarted(w, c))
  {
  }

  lemma WithPhaseTracked(w: World, c: nat, phase: Phase)
    requires Tracked(w) && c in w.callers
    ensures Tracked(WithPhase(w, c, phase))
  {
  }

  lemma RepliedTracked(w: World, c: nat, lost: bool)
    requires Tracked(w) && c in w.callers && w.callers[c].phase.Asking? && c !in w.loads
    ensures Tracked(Replied(w, c, lost))
  {
    var key, reply := w.callers[c].key, w.callers[c].phase.reply;
    if reply.Some? && !lost {
      WithPhaseTracked(w, c, Hit(reply.value));
    } else if key in w.inFlight {
      WithPhaseTracked(w, c, Joined(w.inFlight[key]));
    } else {
      WithPhaseTracked(w, c, Loading);
      LoadStartedTracked(WithPhase(w, c, Loading), c);
    }
  }

  lemma StepTracked(w: World, e: Event)
    requires Tracked(w)
    ensures Tracked(Step(w, e))
  {
    match e
    case AfterGet(c, lost) =>
      if c in w.callers && w.callers[c].phase.Asking? && c !in w.loads { RepliedTracked(w, c, lost); }
    case LoaderReads(l) => if l in w.loads { LoadChangeTracked(w, l, w.loads[l].(read := Some(w.writes))); }
    case LoaderReturns(l, _) => if l in w.loads { LoadChangeTracked(w, l, w.loads[l].(done := true)); }
    case LoaderFails(l) => if l in w.loads { LoadChangeTracked(w, l, w.loads[l].(done := true, read := None)); }
    case Cleanup(l) => if l in w.loads && !w.loads[l].cleaned { CleanedTracked(w, l); }
    case _ =>
  }

  lemma {:induction false} RunTracked(w: World, events: seq<Event>)
    requires Tracked(w)
    ensures Tracked(Run(w, events))
    decreases |events|
  {
    if events != [] {
      StepTracked(w, events[0]);
      RunTracked(Step(w, events[0]), events[1..]);
    }
  }

  /** Over every run there is at most one load per key under way. */
  lemma SingleFlight(events: seq<Event>, key: string, l: nat, m: nat)
    requires UnderWay(Run(START, events), l, key) && UnderWay(Run(START, events), m, key)
    ensures l == m
  {
    RunTracked(START, events);
  }

  /** A caller that finds nothing cached joins the load for its key that is under way, and starts one of its
    * own exactly if there is none. */
  lemma MissJoinsExactly(w: World, c: nat, lost: bool)
    requires Tracked(w) && c in w.callers && w.callers[c].phase.Asking? && c !in w.loads
    requires lost || w.callers[c].phase.reply.None?
    ensures var key, t := w.callers[c].key, Step(w, AfterGet(c, lost));
      && (forall l :: UnderWay(w, l, key) ==> t.callers[c].phase == Joined(l) && t.loads == w.loads)
      && ((forall l :: !UnderWay(w, l, key)) ==>
            t.callers[c].phase == Loading && UnderWay(t, c, key) && t.loads[c].read.None?)
  {
    assert w.callers[c].key in w.inFlight ==> UnderWay(w, w.inFlight[w.callers[c].key], w.callers[c].key);
  }

  // ------------------------------------------------------ behind the `finally`

  predicate IsCleaned(w: World, l: nat) {
    l in w.loads && w.loads[l].cleaned
  }

  predicate HasJoined(w: World, c: nat, l: nat) {
    c in w.callers && w.callers[c].phase == Joined(l)
  }

  lemma StepKeepsCleaned(w: World, e: Event, l: nat)
    requires IsCleaned(w, l)
    ensures IsCleaned(Step(w, e), l)
  {
    match e
    case AfterGet(c, lost) => if c in w.callers && w.callers[c].phase.Asking? && c !in w.loads { assert c != l; }
    case _ =>
  }

  lemma OnlyRepliesJoin(w: World, e: Event, l: nat, c: nat)
    requires !HasJoined(w, c, l) && !e.AfterGet?
    ensures !HasJoined(Step(w, e), c, l)
  {
  }

  lemma ReplyJoinsNoCleaned(w: World, c': nat, lost: bool, l: nat, c: nat)
    requires Tracked(w) && IsCleaned(w, l) && !HasJoined(w, c, l)
    requires c' in w.callers && w.callers[c'].phase.Asking? && c' !in w.loads
    ensures !HasJoined(Replied(w, c', lost), c, l)
  {
    var key := w.callers[c'].key;
    assert key in w.inFlight ==> w.inFlight[key] != l;
  }

  lemma StepJoinsNoCleaned(w: World, e: Event, l: nat, c: nat)
    requires Tracked(w) && IsCleaned(w, l) && !HasJoined(w, c, l)
    ensures !HasJoined(Step(w, e), c, l)
  {
    if e.AfterGet? {
      if e.c in w.callers && w.callers[e.c].phase.Asking? && e.c !in w.loads {
        ReplyJoinsNoCleaned(w, e.c, e.lost, l, c);
      }
    } else {
      OnlyRepliesJoin(w, e, l, c);
    }
  }

  /** Once a load has returned or failed and its caller has cleaned up, nobody joins it any more. */
  lemma {:induction false} CleanedIsNeverJoined(w: World, events: seq<Event>, l: nat, c: nat)
    requires Tracked(w) && IsCleaned(w, l) && !HasJoined(w, c, l)
    ensures !HasJoined(Run(w, events), c, l) && IsCleaned(Run(w, events), l)
    decreases |events|
  {
    if events != [] {
      StepTracked(w, events[0]);
      StepKeepsCleaned(w, events[0], l);
      StepJoinsNoCleaned(w, events[0], l, c);
      CleanedIsNeverJoined(Step(w, events[0]), events[1..], l, c);
    }
  }

  predicate ReadsSince(w: World, c: nat, writes: nat) {
    writes <= w.writes && FreshLoad(w.loads, c, writes)
  }

  lemma RepliedReadsSince(w: World, c': nat, lost: bool, c: nat, writes: nat)
    requires ReadsSince(w, c, writes) && c' in w.callers && w.callers[c'].phase.Asking? && c' !in w.loads
    ensures ReadsSince(Replied(w, c', lost), c, writes)
  {
  }

  lemma StepReadsSince(w: World, e: Event, c: nat, writes: nat)
    requires ReadsSince(w, c, writes)
    ensures ReadsSince(Step(w, e), c, writes)
  {
    match e
    case AfterGet(c', lost) =>
      if c' in w.callers && w.callers[c'].phase.Asking? && c' !in w.loads { RepliedReadsSince(w, c', lost, c, writes); }
    case _ =>
  }

  /** The load a caller starts itself reads no earlier than the caller came. */
  lemma {:induction false} OwnLoadIsFresh(w: World, events: seq<Event>, c: nat, writes: nat)
    requires ReadsSince(w, c, writes)
    ensures ReadsSince(Run(w, events), c, writes)
    decreases |events|
  {
    if events != [] {
      StepReadsSince(w, events[0], c, writes);
      OwnLoadIsFresh(Step(w, events[0]), events[1..], c, writes);
    }
  }

  /** So a newcomer's own load hands it nothing older than the writes it found done. */
  lemma NewcomersLoadIsFresh(w: World, events: seq<Event>, c: nat)
    requires Tracked(w) && c !in w.callers
    ensures var t := Run(w, events); c in t.loads && t.loads[c].read.Some? ==> t.loads[c].read.value >= w.writes
  {
    OwnLoadIsFresh(w, events, c, w.writes);
  }

  lemma StepKeepsCallers(w: World, e: Event, c: nat)
    requires c in w.callers
    ensures c in Step(w, e).callers
  {
    match e
    case AfterGet(c', lost) =>
      if c' in w.callers && w.callers[c'].phase.Asking? { assert w.callers.Keys <= Replied(w, c', lost).callers.Keys; }
    case _ =>
  }

  lemma {:induction false} RunKeepsCallers(w: World, events: seq<Event>, c: nat)
    requires c in w.callers
    ensures c in Run(w, events).callers
    decreases |events|
  {
    if events == [] {
    } else {
      StepKeepsCallers(w, events[0], c);
      RunKeepsCallers(Step(w, events[0]), events[1..], c);
    }
  }

  /**
   * The time in which newcomers may be served an older value ends with the load they would join: once it
   * is cleaned up, no load that read before the write is ever joinable again, and no newcomer is ever
   * served such a value.
   */
  lemma CleanupEndsStaleness(w: World, l: nat, d: nat, key: string, later: seq<Event>, c: nat, on: seq<Event>)
    requires Sound(w) && Tracked(w) && d in w.deletes && w.deletes[d].finished && w.deletes[d].prefix <= key
    requires UnderWay(w, l, key) && w.loads[l].done
    requires c !in Run(Step(w, Cleanup(l)), later).callers
    ensures var t := Run(Step(w, Cleanup(l)), later);
      !StaleLoadInFlight(t, key, w.deletes[d].write) && !ServedStale(Run(t, on), c, key, w.deletes[d].write)
  {
    var cleaned, write := Step(w, Cleanup(l)), w.deletes[d].write;
    StepSound(w, Cleanup(l));
    StepTracked(w, Cleanup(l));
    assert key !in cleaned.inFlight && HasFinished(cleaned, d, w.deletes[d].prefix, write);
    var t := Run(cleaned, later);
    RunTracked(cleaned, later);
    RunSound(cleaned, later);
    if c in cleaned.callers {
      RunKeepsCallers(cleaned, later, c);
    }
    RunFresh(cleaned, later, c, d, key);
    LateCallersAreServedFresh(t, on, c, d, key);
  }

  /** And it does end: whether the loader returns or fails, the load is done, and then cleaned up. */
  lemma LoadsEnd(w: World, l: nat, key: string, fails: bool, written: bool)
    requires Tracked(w) && UnderWay(w, l, key) && !w.loads[l].done && (!fails ==> w.loads[l].read.Some?)
    ensures var ended := Step(w, if fails then LoaderFails(l) else LoaderReturns(l, written));
      && UnderWay(ended, l, key) && ended.loads[l].done
      && IsCleaned(Step(ended, Cleanup(l)), l) && forall m :: !UnderWay(Step(ended, Cleanup(l)), m, key)
  {
    var e := if fails then LoaderFails(l) else LoaderReturns(l, written);
    StepTracked(w, e);
    StepTracked(Step(w, e), Cleanup(l));
  }

  // --------------------------------------------------------- filling and emptying

  lemma MissStartsLoad(w: World, c: nat, key: string)
    requires Tracked(w) && c !in w.callers && key !in w.stored && key !in w.inFlight
    ensures var t := Step(Step(w, Enter(c, key)), AfterGet(c, false));
      && c in t.loads && t.loads[c] == Load(key, w.now, None, false, false)
      && c in t.callers && t.callers[c].phase == Loading
      && t.stored == w.stored && t.marks == w.marks && t.writes == w.writes
  {
    var asked := Step(w, Enter(c, key));
    assert asked.callers[c] == Caller(key, w.now, Asking(None));
  }

  lemma LoadFills(w: World, c: nat, key: string, startedAt: int)
    requires c in w.loads && w.loads[c] == Load(key, startedAt, None, false, false) && key !in w.stored
    requires c in w.callers && w.callers[c].phase == Loading
    ensures var t := Step(Step(w, LoaderReads(c)), LoaderReturns(c, true));
      && c in t.callers && Served(t, c) == Some(w.writes)
      && (key in t.stored <==> !InvalidatedSince(w.marks, key, startedAt))
      && (key in t.stored ==> t.stored[key] == w.writes)
  {
    var read := Step(w, LoaderReads(c));
    assert read.loads[c] == Load(key, startedAt, Some(w.writes), false, false);
  }

  /** Undisturbed, a caller that finds nothing is served what its loader reads, and the value is cached if
    * and only if nothing has been invalidated at the moment it came or since. */
  lemma MissFillsTheCache(w: World, c: nat, key: string)
    requires Tracked(w) && c !in w.callers && key !in w.stored && key !in w.inFlight
    ensures var t := Run(w, [Enter(c, key), AfterGet(c, false), LoaderReads(c), LoaderReturns(c, true)]);
      && c in t.callers && Served(t, c) == Some(w.writes)
      && (key in t.stored <==> !InvalidatedSince(w.marks, key, w.now))
      && (key in t.stored ==> t.stored[key] == w.writes)
  {
    MissStartsLoad(w, c, key);
    LoadFills(Step(Step(w, Enter(c, key)), AfterGet(c, false)), c, key, w.now);
    FourSteps(w, Enter(c, key), AfterGet(c, false), LoaderReads(c), LoaderReturns(c, true));
  }

  /** Whoever comes while a value is cached is served it, unless the reply is lost. */
  lemma CachedIsServed(w: World, c: nat, key: string)
    requires c !in w.callers && c !in w.loads && key in w.stored
    ensures var t := Step(Step(w, Enter(c, key)), AfterGet(c, false));
      c in t.callers && Served(t, c) == Some(w.stored[key]) && t.loads == w.loads
  {
  }

  /** Everyone who joined a load is served what it read, as its own caller is. */
  lemma JoinedAreServed(w: World, l: nat, c: nat, written: bool)
    requires l in w.loads && !w.loads[l].done && w.loads[l].read.Some? && HasJoined(w, c, l)
    ensures var t := Step(w, LoaderReturns(l, written)); c in t.callers && Served(t, c) == w.loads[l].read
  {
  }

  /** A load that fails hands nothing over, to nobody and never, whatever it had read. */
  lemma FailedServeNothing(w: World, l: nat, c: nat)
    requires l in w.loads && !w.loads[l].done && (HasJoined(w, c, l) || (c == l && c in w.callers))
    requires c == l ==> w.callers[c].phase == Loading
    ensures var t := Step(w, LoaderFails(l)); c in t.callers && Served(t, c) == None && t.stored == w.stored
  {
  }

  /** Undisturbed, a deletion finishes, and leaves nothing under its prefix. */
  lemma DeletionsFinish(w: World, d: nat, prefix: string, write: nat)
    requires d !in w.deletes && write <= w.writes
    ensures var t := Run(w, [Invalidate(d, prefix, write), ScanReply(d, Matching(w.stored, prefix)), DeleteBatch(d),
                             ScanEnds(d)]);
      && HasFinished(t, d, prefix, write)
      && (forall key :: prefix <= key ==> key !in t.stored)
      && (forall key :: key in w.stored && !(prefix <= key) ==> key in t.stored && t.stored[key] == w.stored[key])
  {
    var keys := Matching(w.stored, prefix);
    var marked := Step(w, Invalidate(d, prefix, write));
    var scanned := Step(marked, ScanReply(d, keys));
    assert scanned.deletes[d] == Delete(prefix, write, keys, keys, false);
    var deleted := Step(scanned, DeleteBatch(d));
    assert deleted.deletes[d].must == {} && deleted.deletes[d].batch == {};
    FourSteps(w, Invalidate(d, prefix, write), ScanReply(d, keys), DeleteBatch(d), ScanEnds(d));
  }
}
