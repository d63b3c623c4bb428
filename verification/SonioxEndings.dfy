/** How recordings of src/hooks/useSoniox.ts end or break, and what is left of the old connection. */
module SonioxEndings {
  import opened Options
  import opened Soniox
  import opened SonioxProgress

  // ---------------------------------------------------------- the old connection

  /** The event takes the recording away from the connections there are. */
  predicate Ends(s: State, e: Event) {
    || e.Stop? || e.CaptureEnded? || e.AccountCleared? || e.Unmounted?
    || (s.recording == Live && e.IdleTimeout?)
    || (s.recording == Live && e.OnError? && Belongs(s, e.k))
    || (s.recording == Live && e.RotationFires? && s.refs.rotationDue && s.refs.handle.Some?)
  }

  lemma BreakOutdates(s: State, k: nat, liveCapture: bool)
    requires s.recording == Live && Belongs(s, k)
    ensures var t := Step(s, OnError(k, liveCapture));
      t.refs.runId > s.refs.runId && t.refs.handle.None? && !t.refs.stableDue && t.conns == s.conns
  {
  }

  lemma OthersOutdate(s: State, e: Event)
    requires Ends(s, e) && !e.OnError?
    ensures var t := Step(s, e);
      t.refs.runId > s.refs.runId && t.refs.handle.None? && t.conns == s.conns
  {
  }

  /** From then on the hook holds no handle, and no callback of theirs counts any more. */
  lemma EndingsOutdate(s: State, e: Event, k: nat)
    requires RunsKnown(s) && Ends(s, e)
    ensures Step(s, e).refs.handle.None? && (k in s.conns ==> !Belongs(Step(s, e), k))
  {
    if e.OnError? {
      BreakOutdates(s, e.k, e.liveCapture);
    } else {
      OthersOutdate(s, e);
    }
  }

  /** A callback that does not count changes nothing. */
  lemma OldCallbacksDoNothing(s: State, k: nat, liveCapture: bool)
    requires !Belongs(s, k)
    ensures Step(s, OnError(k, liveCapture)) == s && Step(s, OnUnsettled(k)) == s
    ensures Step(s, OnConnected(k)).recording == s.recording && Step(s, OnConnected(k)).refs == s.refs
  {
  }

  /** Where the recording ends for good no timer is left due; after a pause by hand none that would act. */
  lemma NothingIsLeftDue(s: State, e: Event)
    requires e.Stop? || e.CaptureEnded? || e.AccountCleared? || e.Unmounted? || (e.IdleTimeout? && s.recording == Live)
    ensures var r := Step(s, e).refs; !r.timerDue && !r.rotationDue && !r.stableDue
    ensures !Step(s, Pause).refs.timerDue && !Step(s, Pause).refs.rotationDue && Step(s, Pause).refs.attempts == 0
  {
  }

  /** Timers fire once. */
  lemma TimersFireOnce(s: State, ready: bool)
    ensures !Step(s, TimerFires(ready)).refs.timerDue && !Step(s, RotationFires).refs.rotationDue
    ensures !Step(s, StableFires).refs.stableDue
  {
  }

  /** What is not due or not called for does nothing: a timer that is not due, a rotation while nothing is
    * recorded, a lost capture or a reconnection where nothing is recorded or paused, a session gone. */
  lemma NothingUncalledFor(s: State, ready: bool)
    ensures !s.refs.timerDue ==> Step(s, TimerFires(ready)) == s
    ensures Step(s, TimerFires(false)).calls == s.calls && Step(s, TimerFires(false)).conns == s.conns
    ensures s.recording != Live || s.refs.handle.None? ==>
      Step(s, RotationFires) == s.(refs := s.refs.(rotationDue := false))
    ensures s.recording != Live ==> Step(s, CaptureEnded).recording == s.recording
    ensures s.recording != Live && s.recording != Paused ==> Step(s, Reconnect) == s
  {
  }

  /** A reconnection that was overtaken while it waited for the archive ends there. */
  lemma OvertakenPreparationEnds(s: State, c: nat)
    requires c in s.calls && s.calls[c].Preparing? && !RunCurrent(s, s.calls[c].run)
    ensures c !in Step(s, Prepared(c)).calls && Step(s, Prepared(c)).conns == s.conns
  {
  }

  // --------------------------------------------------- endings that stay as they are

  lemma SilentAfter(s: State, t: State, es: seq<Event>)
    requires RunsKnown(s) && t.conns == s.conns && t.refs.runId > s.refs.runId && ManualPause(t) && AllAutomatic(es)
    ensures Run(t, es).recording != Live
  {
    forall k ensures !WillResume(t, k) {
      assert k in s.conns ==> s.conns[k].run <= s.refs.runId;
    }
    SilentRun(t, es);
  }

  /** When the capture is lost a recording is paused, and no automatic step records again. */
  lemma CaptureLossStays(s: State, es: seq<Event>)
    requires RunsKnown(s) && AllAutomatic(es)
    ensures s.recording == Live ==> Step(s, CaptureEnded).recording == Paused
    ensures Run(Step(s, CaptureEnded), es).recording != Live
  {
    SilentAfter(s, Step(s, CaptureEnded), es);
  }

  lemma IdlePauses(s: State)
    requires s.recording == Live
    ensures var t := Step(Step(s, IdleTimeout), Interrupted(s.nextId));
      && t.recording == Paused && t.refs.handle.None? && !t.refs.shouldReconnect
      && t.refs.runId > s.refs.runId && t.conns == s.conns
  {
    assert Step(s, IdleTimeout).calls[s.nextId] == Interrupting(true);
  }

  /** An idle interruption, undisturbed, pauses, and no automatic step records again. */
  lemma IdlePauseStays(s: State, es: seq<Event>)
    requires RunsKnown(s) && s.recording == Live && AllAutomatic(es)
    ensures var t := Run(s, [IdleTimeout, Interrupted(s.nextId)]);
      t.recording == Paused && t.refs.handle.None? && Run(t, es).recording != Live
  {
    IdlePauses(s);
    TwoSteps(s, IdleTimeout, Interrupted(s.nextId));
    SilentAfter(s, Step(Step(s, IdleTimeout), Interrupted(s.nextId)), es);
  }

  lemma OnlyOwnersRecord(s: State, e: Event)
    requires s.refs.invalidated
    ensures Step(s, e).refs.invalidated && (Step(s, e).recording == Live ==> s.recording == Live)
    ensures !s.refs.timerDue ==> !Step(s, e).refs.timerDue
    ensures Step(s, e).conns.Keys == s.conns.Keys
  {
  }

  /** After the account has changed nothing makes this hook record or connect again, not even the user. */
  lemma {:induction false} AccountChangeIsFinal(s: State, es: seq<Event>)
    requires s.refs.invalidated
    ensures Run(s, es).recording == Live ==> s.recording == Live
    ensures Run(s, es).conns.Keys == s.conns.Keys && (!s.refs.timerDue ==> !Run(s, es).refs.timerDue)
    decreases |es|
  {
    if es != [] {
      OnlyOwnersRecord(s, es[0]);
      AccountChangeIsFinal(Step(s, es[0]), es[1..]);
    }
  }

  // ------------------------------------------------------------ breaking connections

  lemma Breaks(s: State, k: nat)
    requires s.recording == Live && Belongs(s, k)
    ensures var t := Step(s, OnError(k, false));
      && s.nextId in t.calls && t.calls[s.nextId] == Interrupting(true) && t.recording == Live
      && t.refs.handle.None? && t.refs.invalidated == s.refs.invalidated && t.conns == s.conns && !t.refs.stableDue
      && if s.refs.attempts < 5 then
           t.refs.timerDue && t.refs.shouldReconnect && t.refs.attempts == s.refs.attempts + 1
           && t.nextId == s.nextId + 1 && t.calls == s.calls[s.nextId := Interrupting(true)]
         else
           !t.refs.timerDue && !t.refs.shouldReconnect && t.nextId == s.nextId + 2
           && t.calls == s.calls[s.nextId := Interrupting(true)][s.nextId + 1 := GivingUp]
  {
  }

  lemma BreakPauses(s: State, c: nat)
    requires c in s.calls && s.calls[c] == Interrupting(true)
    ensures Step(s, Interrupted(c)) == s.(recording := Paused, calls := s.calls - {c})
  {
  }

  /** A connection breaks without live capture, and is redialled. */
  function Redialled(n: nat, k: nat, rotates: bool): seq<Event> {
    [OnError(k, false), Interrupted(n)] + Reconnection(n + 1, rotates)
  }

  lemma BreakRedials(s: State, k: nat, rotates: bool)
    requires s.recording == Live && Belongs(s, k) && s.refs.attempts < 5 && forall c :: c in s.calls ==> c < s.nextId
    ensures var t := Run(s, Redialled(s.nextId, k, rotates));
      && t.recording == Live && t.refs.attempts == s.refs.attempts + 1 && t.refs.stableDue
      && Belongs(t, s.nextId + 2) && t.refs.handle == Some(s.nextId + 2) && t.nextId == s.nextId + 3
      && t.calls == s.calls
  {
    var n := s.nextId;
    Breaks(s, k);
    var broken := Step(s, OnError(k, false));
    BreakPauses(broken, n);
    var paused := Step(broken, Interrupted(n));
    assert n !in s.calls && paused.calls == s.calls && n + 1 !in s.calls;
    TwoSteps(s, OnError(k, false), Interrupted(n));
    ReconnectionRecords(paused, rotates);
    RunSplits(s, [OnError(k, false), Interrupted(n)], Reconnection(n + 1, rotates));
  }

  /** A connection that breaks when five attempts are on record is given up. */
  lemma BreakGivesUp(s: State, k: nat)
    requires s.recording == Live && Belongs(s, k) && s.refs.attempts >= 5 && forall c :: c in s.calls ==> c < s.nextId
    ensures var t := Run(s, [OnError(k, false), Interrupted(s.nextId)]);
      && t.recording == Paused && !t.refs.timerDue && !t.refs.shouldReconnect
      && t.calls == s.calls[s.nextId + 1 := GivingUp]
  {
    var n := s.nextId;
    Breaks(s, k);
    BreakPauses(Step(s, OnError(k, false)), n);
    assert s.calls[n := Interrupting(true)][n + 1 := GivingUp] - {n} == s.calls[n + 1 := GivingUp];
    TwoSteps(s, OnError(k, false), Interrupted(n));
  }

  function Flapping(n: nat, k: nat, rotates: bool, rounds: nat): seq<Event>
    decreases rounds
  {
    if rounds == 0 then [] else Redialled(n, k, rotates) + Flapping(n + 3, n + 2, rotates, rounds - 1)
  }

  predicate Recording(s: State, k: nat) {
    s.recording == Live && Belongs(s, k)
  }

  ghost predicate CallsAreOld(s: State) {
    forall c :: c in s.calls ==> c < s.nextId
  }

  /** One round is over, and the rest of the run is the other rounds. */
  lemma OneRound(s: State, k: nat, rotates: bool, rounds: nat) returns (t: State)
    requires Recording(s, k) && CallsAreOld(s) && s.refs.attempts < 5 && rounds > 0
    ensures Recording(t, s.nextId + 2) && CallsAreOld(t) && t.refs.attempts == s.refs.attempts + 1
    ensures Run(s, Flapping(s.nextId, k, rotates, rounds))
         == Run(t, Flapping(t.nextId, s.nextId + 2, rotates, rounds - 1))
  {
    BreakRedials(s, k, rotates);
    t := Run(s, Redialled(s.nextId, k, rotates));
    RunSplits(s, Redialled(s.nextId, k, rotates), Flapping(s.nextId + 3, s.nextId + 2, rotates, rounds - 1));
  }

  lemma {:induction false} FlappingIsRedialled(s: State, k: nat, rotates: bool, rounds: nat) returns (last: nat)
    requires Recording(s, k) && CallsAreOld(s) && s.refs.attempts + rounds <= 5
    ensures var t := Run(s, Flapping(s.nextId, k, rotates, rounds));
      Recording(t, last) && CallsAreOld(t) && t.refs.attempts == s.refs.attempts + rounds
    decreases rounds
  {
    if rounds == 0 {
      last := k;
    } else {
      var t := OneRound(s, k, rotates, rounds);
      last := FlappingIsRedialled(t, s.nextId + 2, rotates, rounds - 1);
    }
  }

  /**
   * A connection that keeps breaking before it counts as stable is redialled until five attempts have been
   * made, and given up at the next break, however often it came up in between: there is no endless storm.
   */
  lemma FlappingEnds(s: State, k: nat, rotates: bool) returns (last: nat)
    requires Recording(s, k) && CallsAreOld(s) && s.refs.attempts <= 5
    ensures var t := Run(s, Flapping(s.nextId, k, rotates, 5 - s.refs.attempts));
      var broken := Run(t, [OnError(last, false), Interrupted(t.nextId)]);
      && Recording(t, last) && broken.recording == Paused && !broken.refs.timerDue && !broken.refs.shouldReconnect
  {
    last := FlappingIsRedialled(s, k, rotates, 5 - s.refs.attempts);
    BreakGivesUp(Run(s, Flapping(s.nextId, k, rotates, 5 - s.refs.attempts)), last);
  }

  /** A connection that stays up for the time that counts as stable clears the record. */
  lemma StableClears(s: State, k: nat)
    requires Belongs(s, k) && s.conns[k].pending
    ensures Step(s, OnConnected(k)).refs.stableDue
    ensures Step(Step(s, OnConnected(k)), StableFires).refs.attempts == 0
  {
  }

  /** A reconnection that meets a pause made by hand gives in: it keeps what it has opened for the user to go
    * on with, but lets nothing be due. */
  lemma LatePauseGivesIn(s: State, c: nat, rotates: bool)
    requires ManualPause(s) && c in s.calls
    ensures s.calls[c].Connecting? && RunCurrent(s, s.calls[c].run) ==>
      var t := Step(s, ConnectResult(c, rotates));
      t.refs.handle == Some(s.calls[c].conn) && !t.refs.rotationDue && t.refs.attempts == 0
    ensures s.calls[c].Streaming? ==> var t := Step(s, Streamed(c)); t.conns == s.conns && t.refs.attempts == 0
    ensures s.refs.timerDue ==>
      Step(s, TimerFires(true)).calls == s.calls && Step(s, TimerFires(true)).refs.attempts == 0
  {
  }

  /** Giving up leaves a recording on only if it can be recovered locally. */
  lemma GivenUp(s: State, c: nat, recoverable: bool)
    requires c in s.calls && s.calls[c] == GivingUp
    ensures var t := Step(s, GaveUp(c, recoverable));
      t.recording == (if recoverable then s.recording else Paused) && t.refs.attempts == 0 && c !in t.calls
  {
  }
}
