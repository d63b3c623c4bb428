/** What the automatic machinery of src/hooks/useSoniox.ts gets done when nobody interferes: it reconnects,
  * rotates, tries five times, and gives up. */
module SonioxProgress {
  import opened Options
  import opened Soniox

  lemma {:induction false} RunSplits(s: State, a: seq<Event>, b: seq<Event>)
    ensures Run(s, a + b) == Run(Run(s, a), b)
    decreases |a|
  {
    if a == [] {
      assert a + b == b;
    } else {
      assert (a + b)[1..] == a[1..] + b;
      RunSplits(Step(s, a[0]), a[1..], b);
    }
  }

  lemma TwoSteps(s: State, a: Event, b: Event)
    ensures Run(s, [a, b]) == Step(Step(s, a), b)
  {
    RunCons(Step(s, a), b, []);
    RunCons(s, a, [b]);
  }

  lemma ThreeSteps(s: State, a: Event, b: Event, c: Event)
    ensures Run(s, [a, b, c]) == Step(Step(Step(s, a), b), c)
  {
    TwoSteps(Step(s, a), b, c);
    RunCons(s, a, [b, c]);
  }

  /** The connection belongs to the present run, so its callbacks count. */
  predicate Belongs(s: State, k: nat) {
    k in s.conns && RunCurrent(s, s.conns[k].run)
  }

  /** A reconnection is scheduled, and nothing speaks against it. */
  predicate Scheduled(s: State) {
    && s.refs.timerDue && s.refs.shouldReconnect && !s.refs.invalidated
    && (s.recording == Live || s.recording == Paused)
  }

  /** From the timer to the new connection. */
  function Reconnection(n: nat, rotates: bool): seq<Event> {
    [TimerFires(true), Prepared(n), Streamed(n)] + [ConnectResult(n, rotates), OnConnected(n + 1)]
  }

  lemma TimerPrepares(s: State)
    requires Scheduled(s)
    ensures Step(s, TimerFires(true))
         == s.(refs := s.refs.(timerDue := false), calls := s.calls[s.nextId := Preparing(s.refs.runId)],
               nextId := s.nextId + 1)
  {
  }

  lemma PreparedStreams(s: State, n: nat)
    requires n in s.calls && s.calls[n] == Preparing(s.refs.runId) && !s.refs.invalidated
    ensures Step(s, Prepared(n)) == s.(calls := s.calls[n := Streaming(s.refs.runId)])
  {
  }

  lemma StreamedConnects(s: State, n: nat)
    requires n in s.calls && s.calls[n] == Streaming(s.refs.runId) && !s.refs.invalidated
    requires s.refs.shouldReconnect && (s.recording == Live || s.recording == Paused)
    ensures var run := s.refs.runId + 1;
      Step(s, Streamed(n))
      == s.(refs := s.refs.(runId := run), calls := s.calls[n := Connecting(run, s.nextId)],
            conns := s.conns[s.nextId := FromReconnect(run, true)], nextId := s.nextId + 1)
  {
  }

  lemma Dials(s: State)
    requires Scheduled(s)
    ensures var n, run := s.nextId, s.refs.runId + 1;
      Run(s, [TimerFires(true), Prepared(n), Streamed(n)])
      == s.(refs := s.refs.(timerDue := false, runId := run), calls := s.calls[n := Connecting(run, n + 1)],
            conns := s.conns[n + 1 := FromReconnect(run, true)], nextId := n + 2)
  {
    var n, run := s.nextId, s.refs.runId;
    TimerPrepares(s);
    var s1 := Step(s, TimerFires(true));
    PreparedStreams(s1, n);
    var s2 := Step(s1, Prepared(n));
    StreamedConnects(s2, n);
    assert s.calls[n := Preparing(run)][n := Streaming(run)][n := Connecting(run + 1, n + 1)]
        == s.calls[n := Connecting(run + 1, n + 1)];
    ThreeSteps(s, TimerFires(true), Prepared(n), Streamed(n));
  }

  lemma PicksUp(s: State, n: nat, k: nat, rotates: bool)
    requires n in s.calls && s.calls[n] == Connecting(s.refs.runId, k)
    requires k in s.conns && s.conns[k] == FromReconnect(s.refs.runId, true)
    requires s.refs.shouldReconnect && !s.refs.invalidated
    ensures var t := Run(s, [ConnectResult(n, rotates), OnConnected(k)]);
      && t.recording == Live && t.refs.handle == Some(k) && t.refs.rotationDue == rotates
      && !t.refs.shouldReconnect && t.refs.timerDue == s.refs.timerDue && t.calls == s.calls - {n}
      && Belongs(t, k) && t.nextId == s.nextId && t.refs.attempts == s.refs.attempts && t.refs.stableDue
  {
    TwoSteps(s, ConnectResult(n, rotates), OnConnected(k));
  }

  /** A scheduled reconnection, undisturbed, records again over a connection of its own. */
  lemma ReconnectionRecords(s: State, rotates: bool)
    requires Scheduled(s) && s.nextId !in s.calls
    ensures var t := Run(s, Reconnection(s.nextId, rotates));
      && t.recording == Live && t.refs.handle == Some(s.nextId + 1) && t.refs.rotationDue == rotates
      && !t.refs.timerDue && !t.refs.shouldReconnect && t.calls == s.calls
      && Belongs(t, s.nextId + 1) && t.nextId == s.nextId + 2
      && t.refs.attempts == s.refs.attempts && t.refs.stableDue
  {
    var n := s.nextId;
    var dialled := Run(s, [TimerFires(true), Prepared(n), Streamed(n)]);
    Dials(s);
    PicksUp(dialled, n, n + 1, rotates);
    assert dialled.calls - {n} == s.calls;
    RunSplits(s, [TimerFires(true), Prepared(n), Streamed(n)], [ConnectResult(n, rotates), OnConnected(n + 1)]);
  }

  // ------------------------------------------------------- what schedules one

  /** The user asks for it, whatever was paused by hand, and however many attempts have failed. */
  lemma ReconnectSchedules(s: State)
    requires (s.recording == Live || s.recording == Paused) && !s.refs.invalidated
    ensures Scheduled(Step(s, Reconnect)) && Step(s, Reconnect).refs.attempts == 1
    ensures Step(s, Reconnect).nextId == s.nextId && Step(s, Reconnect).calls == s.calls
  {
  }

  /** A due rotation lets the old connection go, and when that has stopped schedules a new one. */
  lemma RotationSchedules(s: State)
    requires s.recording == Live && s.refs.handle.Some? && s.refs.rotationDue && !s.refs.invalidated
    ensures var t := Run(s, [RotationFires, Rotated(s.nextId)]);
      && Step(s, RotationFires).refs.handle.None? && Scheduled(t) && t.refs.attempts == 1
      && t.recording == Live && t.nextId == s.nextId + 1 && t.calls == s.calls - {s.nextId}
  {
    TwoSteps(s, RotationFires, Rotated(s.nextId));
  }

  /** So a rotation, undisturbed, records on over a fresh connection. */
  lemma RotationReconnects(s: State, rotates: bool)
    requires s.recording == Live && s.refs.handle.Some? && s.refs.rotationDue && !s.refs.invalidated
    requires forall c :: c in s.calls ==> c < s.nextId
    ensures var t := Run(s, [RotationFires, Rotated(s.nextId)] + Reconnection(s.nextId + 1, rotates));
      && t.recording == Live && t.refs.handle == Some(s.nextId + 2) && t.refs.rotationDue == rotates
      && t.calls == s.calls
  {
    RotationSchedules(s);
    assert s.nextId !in s.calls && s.calls - {s.nextId} == s.calls;
    assert s.nextId + 1 !in s.calls;
    var scheduled := Run(s, [RotationFires, Rotated(s.nextId)]);
    ReconnectionRecords(scheduled, rotates);
    RunSplits(s, [RotationFires, Rotated(s.nextId)], Reconnection(s.nextId + 1, rotates));
  }

  lemma BreaksOff(s: State, k: nat)
    requires s.recording == Live && k in s.conns && RunCurrent(s, s.conns[k].run)
    requires s.refs.attempts < MAX_RECONNECT_ATTEMPTS
    ensures var t := Step(s, OnError(k, true));
      && t.recording == Live && t.refs.handle.None? && t.refs.shouldReconnect && t.refs.timerDue && !t.refs.invalidated
      && t.nextId == s.nextId + 1 && t.calls == s.calls[s.nextId := Interrupting(false)]
  {
  }

  lemma GoesOn(s: State, c: nat)
    requires c in s.calls && s.calls[c] == Interrupting(false)
    ensures Step(s, Interrupted(c)) == s.(calls := s.calls - {c})
  {
  }

  /** A connection that breaks while the capture lives leaves the recording on, and a reconnection due. */
  lemma BrokenConnectionSchedules(s: State, k: nat)
    requires s.recording == Live && k in s.conns && RunCurrent(s, s.conns[k].run)
    requires s.refs.attempts < MAX_RECONNECT_ATTEMPTS
    ensures var t := Run(s, [OnError(k, true), Interrupted(s.nextId)]);
      t.recording == Live && t.refs.handle.None? && Scheduled(t) && t.nextId == s.nextId + 1
      && t.calls == s.calls - {s.nextId}
  {
    BreaksOff(s, k);
    GoesOn(Step(s, OnError(k, true)), s.nextId);
    TwoSteps(s, OnError(k, true), Interrupted(s.nextId));
  }

  // ------------------------------------------------------------ failing attempts

  /** A failed attempt schedules the next one until five have been made; then recovery is given up. */
  lemma FailureSchedulesNext(s: State)
    requires Scheduled(s) && s.recording == Paused && s.nextId !in s.calls && s.nextId + 1 !in s.calls
    ensures var n := s.nextId; var t := Run(s, [TimerFires(true), AttemptFails(n, false)]);
      if s.refs.attempts < 5 then
        Scheduled(t) && t.refs.attempts == s.refs.attempts + 1 && t.recording == Paused
        && t.nextId == n + 1 && t.calls == s.calls
      else
        && !t.refs.timerDue && !t.refs.shouldReconnect && t.recording == Paused
        && t.calls == s.calls[n + 1 := GivingUp]
  {
    var n := s.nextId;
    var s1 := Step(s, TimerFires(true));
    assert s1.calls[n] == Preparing(s.refs.runId) && s1.calls - {n} == s.calls;
    TwoSteps(s, TimerFires(true), AttemptFails(n, false));
  }

  /** `rounds` attempts that all fail. */
  function Failing(n: nat, rounds: nat): seq<Event>
    decreases rounds
  {
    if rounds == 0 then [] else [TimerFires(true), AttemptFails(n, false)] + Failing(n + 1, rounds - 1)
  }

  /** From the first attempt on, five in all are made and recovery is given up after the fifth, not before. */
  lemma {:induction false} FiveAttempts(s: State, rounds: nat)
    requires Scheduled(s) && s.recording == Paused && (forall c :: c in s.calls ==> c < s.nextId)
    requires 1 <= s.refs.attempts <= 5 && s.refs.attempts + rounds <= 6
    ensures var t := Run(s, Failing(s.nextId, rounds));
      && t.recording == Paused
      && (s.refs.attempts + rounds <= 5 ==> Scheduled(t) && t.refs.attempts == s.refs.attempts + rounds)
      && (s.refs.attempts + rounds == 6 ==>
            !t.refs.timerDue && !t.refs.shouldReconnect && exists c :: c in t.calls && t.calls[c] == GivingUp)
    decreases rounds
  {
    if rounds > 0 {
      var n := s.nextId;
      FailureSchedulesNext(s);
      var t := Run(s, [TimerFires(true), AttemptFails(n, false)]);
      RunSplits(s, [TimerFires(true), AttemptFails(n, false)], Failing(n + 1, rounds - 1));
      if s.refs.attempts < 5 {
        FiveAttempts(t, rounds - 1);
      } else {
        assert rounds == 1 && Run(t, Failing(n + 1, 0)) == t;
        assert n + 1 in t.calls && t.calls[n + 1] == GivingUp;
      }
    }
  }

  lemma StopWaits(s: State)
    ensures var t := Step(s, Stop);
      && s.nextId in t.calls && t.calls[s.nextId] == Stopping
      && t.refs.handle.None? && !t.refs.timerDue && !t.refs.rotationDue
  {
  }

  lemma StopEnds(s: State, c: nat)
    requires c in s.calls && s.calls[c] == Stopping
    ensures Step(s, StopFinished(c)).recording == Finished && Step(s, StopFinished(c)).refs == s.refs
  {
  }

  /** A stop, undisturbed, finishes. */
  lemma StopFinishes(s: State)
    ensures var t := Run(s, [Stop, StopFinished(s.nextId)]);
      t.recording == Finished && t.refs.handle.None? && !t.refs.timerDue && !t.refs.rotationDue
  {
    StopWaits(s);
    StopEnds(Step(s, Stop), s.nextId);
    TwoSteps(s, Stop, StopFinished(s.nextId));
  }
}
