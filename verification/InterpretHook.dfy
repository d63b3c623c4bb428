/** The hook's refs and the code between its awaits, each piece tied to its step of Interpret. */
module InterpretHook {
  import opened Options
  import opened Interpret

  datatype World = World(
    boundary: nat, calls: map<nat, Call>, conns: set<nat>, stopped: set<nat>, deducted: seq<nat>, nextId: nat)

  class Hook {
    // the refs
    var isStarting: bool
    var isStopping: bool
    var lifecycleGeneration: nat
    var activeOwner: Option<Owner>
    var recording: Option<nat>
    var anchorId: Option<nat>
    var timed: bool
    var rotationDue: bool
    var armed: bool
    // the calls in flight and the world outside
    var world: World

    function View(): State
      reads this
    {
      State(Refs(isStarting, isStopping, lifecycleGeneration, activeOwner, recording, anchorId, timed, rotationDue,
                 armed),
            world.boundary, world.calls, world.conns, world.stopped, world.deducted, world.nextId)
    }

    constructor ()
      ensures View() == INITIAL
    {
      isStarting, isStopping, lifecycleGeneration, activeOwner, recording := false, false, 0, None, None;
      anchorId, timed, rotationDue, armed := None, false, false, false;
      world := World(0, map[], {}, {}, [], 0);
    }

    predicate OwnerIsCurrent(o: Owner)
      reads this
    {
      lifecycleGeneration == o.generation && activeOwner == Some(o) && o.boundary == world.boundary
    }

    method StartCall()
      modifies this
      ensures View() == Started(old(View()))
    {
      if isStarting || isStopping || recording.Some? {
        return;
      }
      isStarting := true;
      var owner := Owner(lifecycleGeneration + 1, world.boundary);
      lifecycleGeneration := owner.generation;
      activeOwner := Some(owner);
      anchorId := None;
      world := world.(calls := world.calls[world.nextId := StartAnchor(owner)], nextId := world.nextId + 1);
    }

    method StartAfterAnchor(c: nat, granted: bool)
      requires c in world.calls && world.calls[c].StartAnchor?
      modifies this
      ensures View() == AnchorReplied(old(View()), c, granted)
    {
      var owner := world.calls[c].owner;
      var anchor := if granted then Some(world.nextId) else None;
      if !OwnerIsCurrent(owner) {
        if activeOwner == Some(owner) {
          activeOwner := None;
        }
        isStarting := false;
        world := world.(calls := world.calls - {c}, deducted := Deduct(world.deducted, anchor),
                        nextId := world.nextId + 1);
        return;
      }
      anchorId := anchor;
      timed := true;
      armed := true;
      world := world.(calls := world.calls[c := StartConnect(owner)], nextId := world.nextId + 1);
    }

    /** The `finally` of `start` for this owner. */
    function StartingAfter(owner: Owner): bool
      reads this
    {
      isStarting && activeOwner != Some(owner) && activeOwner != None
    }

    /** The continuation of `start` or of a rotation once its connection is open. */
    method AfterConnect(c: nat, rotates: bool)
      requires c in world.calls && HoldsAny(world.calls[c])
      modifies this
      ensures View() == Resumed(old(View()), c, rotates)
    {
      var call := world.calls[c];
      if !OwnerIsCurrent(call.owner) || isStopping || (call.RotateOpened? && !timed) {
        world := world.(
          stopped := world.stopped + {call.conn},
          calls := if call.StartOpened? then world.calls[c := StartClosing(call.owner)] else world.calls - {c});
        return;
      }
      recording := Some(call.conn);
      rotationDue := rotates;
      world := world.(calls := world.calls - {c});
      if call.StartOpened? {
        isStarting := StartingAfter(call.owner);
      }
    }

    method StartClosed(c: nat)
      requires c in world.calls && world.calls[c].StartClosing?
      modifies this
      ensures View() == Step(old(View()), Closed(c))
    {
      isStarting := StartingAfter(world.calls[c].owner);
      world := world.(calls := world.calls - {c});
    }

    method AfterConnectFailure(c: nat)
      requires c in world.calls && (world.calls[c].StartConnect? || world.calls[c].RotateConnect?)
      modifies this
      ensures View() == ConnectFailed(old(View()), c)
    {
      var call := world.calls[c];
      if call.StartConnect? {
        if OwnerIsCurrent(call.owner) {
          timed := false;
        }
        isStarting := StartingAfter(call.owner);
      }
      world := world.(calls := world.calls - {c});
    }

    method RotateConnectionCall(signedIn: bool)
      requires rotationDue
      modifies this
      ensures View() == RotationFired(old(View()), signedIn)
    {
      rotationDue := false;
      if activeOwner.None? || !OwnerIsCurrent(activeOwner.value) || recording.None? || !armed || !signedIn {
        return;
      }
      world := world.(
        stopped := StopConn(world.stopped, recording),
        calls := world.calls[world.nextId := RotateStopping(activeOwner.value)], nextId := world.nextId + 1);
      recording := None;
    }

    method RotateAfterStop(c: nat)
      requires c in world.calls && world.calls[c].RotateStopping?
      modifies this
      ensures View() == RotateResumed(old(View()), c)
    {
      var owner := world.calls[c].owner;
      if !OwnerIsCurrent(owner) || isStopping || !timed {
        world := world.(calls := world.calls - {c});
      } else {
        world := world.(calls := world.calls[c := RotateConnect(owner)]);
      }
    }

    method StopCall()
      modifies this
      ensures View() == Stopped(old(View()))
    {
      if isStopping {
        return;
      }
      isStopping := true;
      var expected := if activeOwner.Some? then activeOwner.value.boundary else world.boundary;
      world := world.(
        stopped := StopConn(world.stopped, recording),
        calls := world.calls[world.nextId := StopSettling(expected, timed)], nextId := world.nextId + 1);
      lifecycleGeneration := lifecycleGeneration + 1;
      activeOwner, recording := None, None;
      rotationDue, armed, timed := false, false, false;
    }

    method StopAfterStop(c: nat, positive: bool)
      requires c in world.calls && world.calls[c].StopSettling?
      modifies this
      ensures View() == StopResumed(old(View()), c, positive)
    {
      var call := world.calls[c];
      var billed := call.boundary == world.boundary && ((call.timed && positive) || anchorId.Some?);
      world := world.(
        calls := world.calls - {c},
        deducted := if billed then Deduct(world.deducted, anchorId) else world.deducted);
      anchorId := None;
      isStopping := false;
    }

    method InvalidateAndTeardown()
      modifies this
      ensures View() == TornDown(old(View()))
    {
      world := world.(
        stopped := StopConn(world.stopped, recording), deducted := Deduct(world.deducted, anchorId));
      lifecycleGeneration := lifecycleGeneration + 1;
      activeOwner, recording, anchorId := None, None, None;
      isStarting, isStopping, armed, rotationDue, timed := false, false, false, false, false;
    }
  }
}
