/**
 * The recording state of `src/hooks/useSoniox.ts` with its automatic machinery: reconnection,
 * rotation, interruption and late callbacks, cut at their awaits. Starts, microphone switches and
 * rebuilds are not in flight here; what they leave behind is any connection in `conns`.
 */
module Soniox {
  import opened Options

  const MAX_RECONNECT_ATTEMPTS := 5

  datatype Recording = Idle | Live | Paused | Finalizing | Finished

  /**
   * A connection whose callbacks are registered: the run it belongs to, and who opened it. A start
   * that kept the pause until connected resumes recording from its own `connected` callback, which
   * is still to come while the connection is `pending`.
   */
  datatype Conn = FromStart(run: nat, keptPause: bool, pending: bool) | FromReconnect(run: nat, pending: bool)

  /** A call suspended at an await. */
  datatype Call =
    | GivingUp                        // attemptReconnect: canRecoverLocally
    | Preparing(run: nat)             // ensureArchive
    | Streaming(run: nat)             // getSenderStream
    | Connecting(run: nat, conn: nat) // startSonioxRecording, callbacks registered
    | Interrupting(full: bool)        // pauseForInterruption
    | Rotating(run: nat)
    | Stopping

  /** `stableDue`: the timer that takes a connection for stable, and then forgets the failed attempts. */
  datatype Refs = Refs(
    shouldReconnect: bool, runId: nat, attempts: nat, timerDue: bool, rotationDue: bool,
    handle: Option<nat>, invalidated: bool, stableDue: bool)

  datatype State = State(recording: Recording, refs: Refs, calls: map<nat, Call>, conns: map<nat, Conn>, nextId: nat)

  datatype Event =
    // the user
    | Pause
    | Stop
    | Reconnect
    // everything that happens by itself
    | TimerFires(ready: bool)
    | Prepared(c: nat)
    | Streamed(c: nat)
    | ConnectResult(c: nat, rotates: bool)
    | AttemptFails(c: nat, limitReached: bool)
    | GaveUp(c: nat, recoverable: bool)
    | OnConnected(k: nat)
    | OnUnsettled(k: nat)             // any other change of the connection's state
    | StableFires
    | OnError(k: nat, liveCapture: bool)
    | IdleTimeout
    | Interrupted(c: nat)
    | RotationFires
    | Rotated(c: nat)
    | CaptureEnded
    | StopFinished(c: nat)
    | AccountCleared
    | Unmounted

  predicate Automatic(e: Event) {
    !e.Pause? && !e.Stop? && !e.Reconnect?
  }

  /** `hasManualPauseIntent`. */
  predicate ManualPause(s: State) {
    !s.refs.shouldReconnect && s.recording != Live
  }

  predicate Ended(r: Recording) {
    r == Idle || r == Finished || r == Finalizing
  }

  predicate RunCurrent(s: State, run: nat) {
    !s.refs.invalidated && run == s.refs.runId
  }

  function Forget(s: State, c: nat): State {
    s.(calls := s.calls - {c})
  }

  function GiveIn(s: State): State {
    s.(refs := s.refs.(shouldReconnect := false, attempts := 0))
  }

  function Await(s: State, call: Call): State {
    s.(calls := s.calls[s.nextId := call], nextId := s.nextId + 1)
  }

  /** The synchronous part of `attemptReconnect`. */
  function AttemptReconnect(s: State): State {
    if s.refs.invalidated then s
    else if s.refs.attempts >= MAX_RECONNECT_ATTEMPTS
    then Await(s.(refs := s.refs.(timerDue := false, stableDue := false, shouldReconnect := false)), GivingUp)
    else s.(refs := s.refs.(timerDue := true, stableDue := false, attempts := s.refs.attempts + 1))
  }

  /** `pauseForInterruption` up to its await. */
  function Interrupt(s: State, disconnect: bool, liveCapture: bool): State {
    if s.recording != Live then s
    else if disconnect && liveCapture
    then Await(s.(refs := s.refs.(shouldReconnect := true, stableDue := false, handle := None,
                                  runId := s.refs.runId + 1)),
               Interrupting(false))
    else if disconnect
    then Await(s.(refs := s.refs.(shouldReconnect := true, rotationDue := false, stableDue := false, handle := None,
                                  runId := s.refs.runId + 1)), Interrupting(true))
    else Await(s.(refs := s.refs.(shouldReconnect := false, timerDue := false, attempts := 0, rotationDue := false,
                                  stableDue := false, handle := None, runId := s.refs.runId + 1)), Interrupting(true))
  }

  /** The reconnect timer's callback up to its first await; `ready` is a signed-in session. */
  function TimerFired(s: State, ready: bool): State {
    var t := s.(refs := s.refs.(timerDue := false));
    if Ended(s.recording) || ManualPause(s) then GiveIn(t)
    else if !ready then t
    else Await(t, Preparing(s.refs.runId))
  }

  function StreamReady(s: State, c: nat): State
    requires c in s.calls && s.calls[c].Streaming?
  {
    if !RunCurrent(s, s.calls[c].run) || Ended(s.recording) || ManualPause(s) then Forget(GiveIn(s), c)
    else
      var run := s.refs.runId + 1;
      s.(refs := s.refs.(runId := run), calls := s.calls[c := Connecting(run, s.nextId)],
         conns := s.conns[s.nextId := FromReconnect(run, true)], nextId := s.nextId + 1)
  }

  function Connected(s: State, c: nat, rotates: bool): State
    requires c in s.calls && s.calls[c].Connecting?
  {
    if !RunCurrent(s, s.calls[c].run) then Forget(s, c)
    else
      var t := Forget(s, c).(refs := s.refs.(handle := Some(s.calls[c].conn), rotationDue := rotates));
      if ManualPause(s) then GiveIn(t.(refs := t.refs.(rotationDue := false))) else t
  }

  function RunOf(call: Call): nat
    requires call.Preparing? || call.Streaming? || call.Connecting?
  {
    call.run
  }

  function AttemptFailed(s: State, c: nat, limitReached: bool): State
    requires c in s.calls && (s.calls[c].Preparing? || s.calls[c].Streaming? || s.calls[c].Connecting?)
  {
    var t := Forget(s, c);
    if !RunCurrent(s, RunOf(s.calls[c])) then t
    else if limitReached || ManualPause(s) then GiveIn(t)
    else AttemptReconnect(t)
  }

  /** The connection reports `connected`, once. */
  function ConnectionUp(s: State, k: nat): State
    requires k in s.conns
  {
    if !s.conns[k].pending then s
    else ConnectedCallback(s.(conns := s.conns[k := s.conns[k].(pending := false)]), k)
  }

  function ConnectedCallback(s: State, k: nat): State
    requires k in s.conns
  {
    if !RunCurrent(s, s.conns[k].run) then s
    else
      var t := s.(refs := s.refs.(stableDue := true));
      match s.conns[k]
      case FromStart(_, keptPause, _) => if keptPause then t.(recording := Live) else t
      case FromReconnect(_, _) =>
        if ManualPause(s) then t else t.(recording := Live, refs := t.refs.(shouldReconnect := false))
  }

  function RotationFired(s: State): State {
    var t := s.(refs := s.refs.(rotationDue := false));
    if s.recording != Live || s.refs.handle.None? then t
    else Await(t.(refs := t.refs.(handle := None, runId := s.refs.runId + 1)), Rotating(s.refs.runId + 1))
  }

  function RotationStopped(s: State, c: nat): State
    requires c in s.calls && s.calls[c].Rotating?
  {
    var t := Forget(s, c);
    if !RunCurrent(s, s.calls[c].run) || s.recording != Live then t
    else AttemptReconnect(t.(refs := t.refs.(attempts := 0, shouldReconnect := true)))
  }

  function CaptureLost(s: State): State {
    s.(recording := if s.recording == Live then Paused else s.recording,
       refs := Refs(false, s.refs.runId + 1, 0, false, false, None, s.refs.invalidated, false))
  }

  function PauseNow(s: State): State {
    s.(recording := Paused,
       refs := s.refs.(timerDue := false, rotationDue := false, attempts := 0, shouldReconnect := false))
  }

  function StopNow(s: State): State {
    Await(s.(recording := Finalizing,
             refs := Refs(false, s.refs.runId + 1, 0, false, false, None, s.refs.invalidated, false)),
          Stopping)
  }

  function Step(s: State, e: Event): State {
    match e
    case Pause => PauseNow(s)
    case Stop => StopNow(s)
    case Reconnect =>
      if s.recording != Live && s.recording != Paused then s
      else AttemptReconnect(s.(refs := s.refs.(timerDue := false, attempts := 0, shouldReconnect := true)))
    case TimerFires(ready) => if s.refs.timerDue then TimerFired(s, ready) else s
    case Prepared(c) =>
      if c in s.calls && s.calls[c].Preparing?
      then if RunCurrent(s, s.calls[c].run) then s.(calls := s.calls[c := Streaming(s.calls[c].run)]) else Forget(s, c)
      else s
    case Streamed(c) => if c in s.calls && s.calls[c].Streaming? then StreamReady(s, c) else s
    case ConnectResult(c, rotates) => if c in s.calls && s.calls[c].Connecting? then Connected(s, c, rotates) else s
    case AttemptFails(c, limitReached) =>
      if c in s.calls && (s.calls[c].Preparing? || s.calls[c].Streaming? || s.calls[c].Connecting?)
      then AttemptFailed(s, c, limitReached) else s
    case GaveUp(c, recoverable) =>
      if c in s.calls && s.calls[c].GivingUp?
      then Forget(s, c).(recording := if recoverable then s.recording else Paused, refs := s.refs.(attempts := 0))
      else s
    case OnConnected(k) => if k in s.conns then ConnectionUp(s, k) else s
    case OnUnsettled(k) =>
      if k in s.conns && RunCurrent(s, s.conns[k].run) then s.(refs := s.refs.(stableDue := false)) else s
    case StableFires =>
      if s.refs.stableDue then s.(refs := s.refs.(attempts := 0, stableDue := false)) else s
    case OnError(k, liveCapture) =>
      if k in s.conns && RunCurrent(s, s.conns[k].run) then AttemptReconnect(Interrupt(s, true, liveCapture)) else s
    case IdleTimeout => Interrupt(s, false, false)
    case Interrupted(c) =>
      if c in s.calls && s.calls[c].Interrupting?
      then Forget(s, c).(recording := if s.calls[c].full then Paused else s.recording) else s
    case RotationFires => if s.refs.rotationDue then RotationFired(s) else s
    case Rotated(c) => if c in s.calls && s.calls[c].Rotating? then RotationStopped(s, c) else s
    case CaptureEnded => CaptureLost(s)
    case StopFinished(c) => if c in s.calls && s.calls[c].Stopping? then Forget(s, c).(recording := Finished) else s
    case AccountCleared => s.(refs := Refs(false, s.refs.runId + 1, 0, false, false, None, true, false))
    case Unmounted =>
      s.(refs := s.refs.(timerDue := false, rotationDue := false, stableDue := false, handle := None,
                         runId := s.refs.runId + 1))
  }

  function Run(s: State, es: seq<Event>): State
    decreases |es|
  {
    if es == [] then s else Run(Step(s, es[0]), es[1..])
  }

  ghost predicate AllAutomatic(es: seq<Event>) {
    forall i :: 0 <= i < |es| ==> Automatic(es[i])
  }

  /** Connections carry runs that have been. */
  ghost predicate RunsKnown(s: State) {
    forall k :: k in s.conns ==> s.conns[k].run <= s.refs.runId
  }

  lemma PiecesGoForward(s: State, disconnect: bool, liveCapture: bool)
    ensures AttemptReconnect(s).refs.runId == s.refs.runId
    ensures s.refs.runId <= Interrupt(s, disconnect, liveCapture).refs.runId
  {
  }

  lemma RunsGoForward(s: State, e: Event)
    ensures s.refs.runId <= Step(s, e).refs.runId
  {
    match e
    case OnError(_, liveCapture) =>
      PiecesGoForward(s, true, liveCapture);
      PiecesGoForward(Interrupt(s, true, liveCapture), true, liveCapture);
    case _ =>
  }

  lemma OnlyStreamsRegister(s: State, e: Event)
    requires !e.Streamed? && !e.OnConnected?
    ensures Step(s, e).conns == s.conns
  {
  }

  lemma StepKeepsRunsKnown(s: State, e: Event)
    requires RunsKnown(s)
    ensures RunsKnown(Step(s, e)) && s.refs.runId <= Step(s, e).refs.runId
  {
    RunsGoForward(s, e);
    if !e.Streamed? && !e.OnConnected? {
      OnlyStreamsRegister(s, e);
    }
  }

  /** A connection of the current run whose start kept the pause, and which has yet to connect. */
  predicate WillResume(s: State, k: nat) {
    && k in s.conns && s.conns[k].FromStart? && s.conns[k].keptPause && s.conns[k].pending
    && RunCurrent(s, s.conns[k].run)
  }

  ghost predicate KeptPauseOwner(s: State) {
    exists k :: WillResume(s, k)
  }

  // ---- no automatic step undoes a pause or a stop ----

  ghost predicate Silent(s: State) {
    RunsKnown(s) && ManualPause(s) && !KeptPauseOwner(s)
  }

  lemma StepKeepsSilent(s: State, e: Event)
    requires Silent(s) && Automatic(e)
    ensures Silent(Step(s, e))
  {
    StepKeepsRunsKnown(s, e);
    var t := Step(s, e);
    assert e.OnConnected? ==> !WillResume(s, e.k);
    forall k ensures !WillResume(t, k) {
      assert !WillResume(s, k);
      if k in s.conns {
        assert s.conns[k].run <= s.refs.runId <= t.refs.runId;
      }
    }
  }

  lemma {:induction false} SilentRun(s: State, es: seq<Event>)
    requires Silent(s) && AllAutomatic(es)
    ensures Silent(Run(s, es))
    decreases |es|
  {
    if es != [] {
      StepKeepsSilent(s, es[0]);
      SilentRun(Step(s, es[0]), es[1..]);
    }
  }

  /**
   * After `stop()`, from any state whatever is scheduled or in flight, no run of automatic steps
   * records again.
   */
  lemma StopStays(s: State, es: seq<Event>)
    requires RunsKnown(s) && AllAutomatic(es)
    ensures Run(Step(s, Stop), es).recording != Live
  {
    SilentRun(Step(s, Stop), es);
  }

  /**
   * After `pause()` the same holds if and only if no connection of the current run, opened by a start
   * that kept the pause, has yet to connect: that start's own late `connected` callback does not look
   * for a pause made meanwhile.
   */
  lemma PauseStaysExactly(s: State)
    requires RunsKnown(s)
    ensures (forall es :: AllAutomatic(es) ==> Run(Step(s, Pause), es).recording != Live) <==> !KeptPauseOwner(s)
  {
    var p := Step(s, Pause);
    assert forall k :: WillResume(s, k) <==> WillResume(p, k);
    if KeptPauseOwner(s) {
      var k :| WillResume(s, k);
      assert [OnConnected(k)][1..] == [];
      assert Run(Step(p, OnConnected(k)), []) == Step(p, OnConnected(k));
      assert Run(p, [OnConnected(k)]).recording == Live;
      assert AllAutomatic([OnConnected(k)]);
    } else {
      forall es | AllAutomatic(es) ensures Run(p, es).recording != Live {
        SilentRun(p, es);
      }
    }
  }

  /** `startNewRecording` up to its first await, called while paused to keep the pause until connected. */
  function StartKeepingPause(s: State): State {
    s.(refs := s.refs.(attempts := 0, shouldReconnect := false, runId := s.refs.runId + 1))
  }

  /** The rest of it, undisturbed: the callbacks are registered and the handle is published. */
  function StartRegistered(s: State, rotates: bool): State {
    s.(recording := Paused, conns := s.conns[s.nextId := FromStart(s.refs.runId, true, true)], nextId := s.nextId + 1,
       refs := s.refs.(handle := Some(s.nextId), rotationDue := rotates))
  }

  /** Such a start leaves exactly the state in which a pause does not stay, until its connection is up:
    * a pause after that stays. */
  lemma KeptPauseStart(s: State, rotates: bool)
    requires RunsKnown(s) && s.recording == Paused && !s.refs.invalidated && s.nextId !in s.conns
    ensures var started := StartRegistered(StartKeepingPause(s), rotates); var k := s.nextId;
      && RunsKnown(started) && WillResume(started, k)
      && Step(started, OnConnected(k)).recording == Live && !KeptPauseOwner(Step(started, OnConnected(k)))
      && forall es :: AllAutomatic(es) ==> Run(Step(Step(started, OnConnected(k)), Pause), es).recording != Live
  {
    var started, k := StartRegistered(StartKeepingPause(s), rotates), s.nextId;
    var up := Step(started, OnConnected(k));
    forall j ensures !WillResume(up, j) {
      if j in s.conns {
        assert s.conns[j].run < up.refs.runId;
      }
    }
    PauseStaysExactly(up);
  }

  /** Pausing leaves the run, and with it every callback's claim to it, as it was. */
  lemma PauseKeepsRun(s: State, k: nat)
    requires k in s.conns
    ensures RunCurrent(Step(s, Pause), s.conns[k].run) <==> RunCurrent(s, s.conns[k].run)
  {
  }

  lemma RunCons(s: State, e: Event, es: seq<Event>)
    ensures Run(s, [e] + es) == Run(Step(s, e), es)
  {
    assert ([e] + es)[1..] == es;
  }

  /** What an interruption leaves: paused, but wanting to reconnect. */
  predicate AwaitingReconnect(s: State) {
    s.recording == Paused && s.refs.shouldReconnect && s.refs.timerDue && !s.refs.invalidated
  }

  lemma InterruptionAwaitsReconnect(s: State, k: nat)
    requires s.recording == Live && k in s.conns && RunCurrent(s, s.conns[k].run)
    requires s.refs.attempts < MAX_RECONNECT_ATTEMPTS
    ensures var t := Run(s, [OnError(k, false), Interrupted(s.nextId)]);
      AwaitingReconnect(t) && t.nextId == s.nextId + 1
  {
    var s1 := Step(s, OnError(k, false));
    RunCons(s1, Interrupted(s.nextId), []);
    RunCons(s, OnError(k, false), [Interrupted(s.nextId)]);
  }

  /**
   * The guards do not stop what they should let through: from a pause made by a disconnect, the same
   * steps reconnect and record again, where a manual pause would have stopped them.
   */
  lemma InterruptionRecovers(s: State)
    requires AwaitingReconnect(s)
    ensures var n := s.nextId;
      Run(s, [TimerFires(true), Prepared(n), Streamed(n), OnConnected(n + 1)]).recording == Live
  {
    var n := s.nextId;
    var s3 := Step(s, TimerFires(true));
    var s4 := Step(s3, Prepared(n));
    var s5 := Step(s4, Streamed(n));
    assert s5.conns[n + 1] == FromReconnect(s.refs.runId + 1, true);
    assert Step(s5, OnConnected(n + 1)).recording == Live;
    RunCons(s5, OnConnected(n + 1), []);
    RunCons(s4, Streamed(n), [OnConnected(n + 1)]);
    RunCons(s3, Prepared(n), [Streamed(n), OnConnected(n + 1)]);
    RunCons(s, TimerFires(true), [Prepared(n), Streamed(n), OnConnected(n + 1)]);
  }
}
