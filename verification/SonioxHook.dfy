/** The hook's refs and the code between its awaits, each piece tied to its step of Soniox. */
module SonioxHook {
  import opened Options
  import opened Soniox

  /** The calls in flight and the connections whose callbacks are registered. */
  datatype World = World(calls: map<nat, Call>, conns: map<nat, Conn>, nextId: nat)

  class Hook {
    var recordingState: Recording
    var shouldReconnect: bool
    var runId: nat
    var reconnectAttempts: nat
    var reconnectTimer: bool
    var rotationTimer: bool
    var stableConnTimer: bool
    var recording: Option<nat>
    var accountBoundaryInvalidated: bool
    var world: World

    function View(): State
      reads this
    {
      State(recordingState,
            Refs(shouldReconnect, runId, reconnectAttempts, reconnectTimer, rotationTimer, recording,
                 accountBoundaryInvalidated, stableConnTimer),
            world.calls, world.conns, world.nextId)
    }

    constructor (left: State)
      ensures View() == left
    {
      recordingState := left.recording;
      shouldReconnect, runId, reconnectAttempts := left.refs.shouldReconnect, left.refs.runId, left.refs.attempts;
      reconnectTimer, rotationTimer := left.refs.timerDue, left.refs.rotationDue;
      recording, accountBoundaryInvalidated := left.refs.handle, left.refs.invalidated;
      stableConnTimer := left.refs.stableDue;
      world := World(left.calls, left.conns, left.nextId);
    }

    predicate HasManualPauseIntent()
      reads this
    {
      !shouldReconnect && recordingState != Live
    }

    method AttemptReconnectCall()
      modifies this
      ensures View() == AttemptReconnect(old(View()))
    {
      if accountBoundaryInvalidated {
        return;
      }
      reconnectTimer := false;
      stableConnTimer := false;
      if reconnectAttempts >= MAX_RECONNECT_ATTEMPTS {
        shouldReconnect := false;
        world := world.(calls := world.calls[world.nextId := GivingUp], nextId := world.nextId + 1);
        return;
      }
      reconnectAttempts := reconnectAttempts + 1;
      reconnectTimer := true;
    }

    method ReconnectTimerCallback(ready: bool)
      requires reconnectTimer
      modifies this
      ensures View() == TimerFired(old(View()), ready)
    {
      reconnectTimer := false;
      if Ended(recordingState) || HasManualPauseIntent() {
        shouldReconnect := false;
        reconnectAttempts := 0;
        return;
      }
      if ready {
        world := world.(calls := world.calls[world.nextId := Preparing(runId)], nextId := world.nextId + 1);
      }
    }

    method AfterSenderStream(c: nat)
      requires c in world.calls && world.calls[c].Streaming?
      modifies this
      ensures View() == StreamReady(old(View()), c)
    {
      if accountBoundaryInvalidated || runId != world.calls[c].run
         || Ended(recordingState) || HasManualPauseIntent() {
        shouldReconnect := false;
        reconnectAttempts := 0;
        world := world.(calls := world.calls - {c});
        return;
      }
      runId := runId + 1;
      world := World(world.calls[c := Connecting(runId, world.nextId)],
                     world.conns[world.nextId := FromReconnect(runId, true)], world.nextId + 1);
    }

    method AfterConnect(c: nat, rotates: bool)
      requires c in world.calls && world.calls[c].Connecting?
      modifies this
      ensures View() == Connected(old(View()), c, rotates)
    {
      var call := world.calls[c];
      world := world.(calls := world.calls - {c});
      if accountBoundaryInvalidated || runId != call.run {
        return;
      }
      var pausedDuringReconnect := HasManualPauseIntent();
      rotationTimer := rotates;
      recording := Some(call.conn);
      if pausedDuringReconnect {
        rotationTimer := false;
        shouldReconnect := false;
        reconnectAttempts := 0;
      }
    }

    method OnConnectionConnected(k: nat)
      requires k in world.conns && world.conns[k].pending
      modifies this
      ensures View() == Step(old(View()), OnConnected(k))
    {
      var conn := world.conns[k];
      world := world.(conns := world.conns[k := conn.(pending := false)]);
      if accountBoundaryInvalidated || runId != conn.run {
        return;
      }
      stableConnTimer := true;
      if conn.FromStart? {
        if conn.keptPause {
          recordingState := Live;
        }
        return;
      }
      if HasManualPauseIntent() {
        return;
      }
      recordingState := Live;
      shouldReconnect := false;
    }

    method PauseForInterruption(disconnect: bool, liveCapture: bool)
      modifies this
      ensures View() == Interrupt(old(View()), disconnect, liveCapture)
    {
      if recordingState != Live {
        return;
      }
      stableConnTimer := false;
      var full := !(disconnect && liveCapture);
      shouldReconnect := disconnect;
      if full {
        if !disconnect {
          reconnectTimer := false;
          reconnectAttempts := 0;
        }
        rotationTimer := false;
      }
      recording := None;
      runId := runId + 1;
      world := world.(calls := world.calls[world.nextId := Interrupting(full)], nextId := world.nextId + 1);
    }

    method RotateConnectionCall()
      requires rotationTimer
      modifies this
      ensures View() == RotationFired(old(View()))
    {
      rotationTimer := false;
      if recordingState != Live || recording.None? {
        return;
      }
      recording := None;
      runId := runId + 1;
      world := world.(calls := world.calls[world.nextId := Rotating(runId)], nextId := world.nextId + 1);
    }

    method AfterRotationStop(c: nat)
      requires c in world.calls && world.calls[c].Rotating?
      modifies this
      ensures View() == RotationStopped(old(View()), c)
    {
      var rotationRun := world.calls[c].run;
      world := world.(calls := world.calls - {c});
      if accountBoundaryInvalidated || runId != rotationRun || recordingState != Live {
        return;
      }
      reconnectAttempts := 0;
      shouldReconnect := true;
      AttemptReconnectCall();
    }

    method PauseCall()
      modifies this
      ensures View() == PauseNow(old(View()))
    {
      reconnectTimer, rotationTimer := false, false;
      reconnectAttempts := 0;
      shouldReconnect := false;
      recordingState := Paused;
    }

    /** The connection has been up for the time that counts as stable. */
    method StableTimerCallback()
      requires stableConnTimer
      modifies this
      ensures View() == Step(old(View()), StableFires)
    {
      reconnectAttempts := 0;
      stableConnTimer := false;
    }

    method StopCall()
      modifies this
      ensures View() == StopNow(old(View()))
    {
      reconnectTimer, rotationTimer, stableConnTimer := false, false, false;
      reconnectAttempts := 0;
      shouldReconnect := false;
      runId := runId + 1;
      recording := None;
      recordingState := Finalizing;
      world := world.(calls := world.calls[world.nextId := Stopping], nextId := world.nextId + 1);
    }
  }
}
