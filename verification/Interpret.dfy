/**
 * The connection lifecycle of `src/hooks/useInterpret.ts`. Every call is cut at its awaits; between
 * two cuts it runs alone, and any order of the pieces is a run.
 */
module Interpret {
  import opened Options

  /** Who a start acts for: its generation and the account boundary it began under. */
  datatype Owner = Owner(generation: nat, boundary: nat)

  /** A call suspended at an await. */
  datatype Call =
    | StartAnchor(owner: Owner)                // the anchor request
    | StartConnect(owner: Owner)               // startSonioxRecording
    | StartOpened(owner: Owner, conn: nat)     // it has resolved; the continuation is queued
    | StartClosing(owner: Owner)               // stopping a connection it may not publish
    | RotateStopping(owner: Owner)             // stopping the old connection
    | RotateConnect(owner: Owner)
    | RotateOpened(owner: Owner, conn: nat)
    | StopSettling(boundary: nat, timed: bool) // stopping the recording, the bill still to come

  /** The refs of the hook. */
  datatype Refs = Refs(
    starting: bool, stopping: bool, generation: nat, owner: Option<Owner>, recording: Option<nat>,
    anchor: Option<nat>, timed: bool, rotationDue: bool, armed: bool)

  /**
   * `armed` stands for the stored callbacks and configuration, `timed` for a start time. `deducted`
   * lists the anchors handed to `deductQuota`; `boundary` counts account changes.
   */
  datatype State = State(
    refs: Refs, boundary: nat, calls: map<nat, Call>, conns: set<nat>, stopped: set<nat>,
    deducted: seq<nat>, nextId: nat)

  datatype Event =
    | Start
    | AnchorReply(c: nat, granted: bool)
    | Opens(c: nat)
    | ConnectFails(c: nat)
    | Resume(c: nat, rotates: bool)
    | Closed(c: nat)
    | RotationFires(signedIn: bool)
    | RotateResume(c: nat)
    | Stop
    | StopResume(c: nat, positive: bool)
    | Teardown
    | BoundaryChange

  const INITIAL := State(Refs(false, false, 0, None, None, None, false, false, false), 0, map[], {}, {}, [], 0)

  predicate IsCurrent(r: Refs, boundary: nat, o: Owner) {
    r.generation == o.generation && r.owner == Some(o) && o.boundary == boundary
  }

  /** This call has a connection in hand that it has neither published nor stopped. */
  predicate HoldsAny(call: Call) {
    call.StartOpened? || call.RotateOpened?
  }

  function Deduct(log: seq<nat>, anchor: Option<nat>): seq<nat> {
    if anchor.Some? then log + [anchor.value] else log
  }

  function StopConn(stopped: set<nat>, conn: Option<nat>): set<nat> {
    if conn.Some? then stopped + {conn.value} else stopped
  }

  function Started(s: State): State {
    if s.refs.starting || s.refs.stopping || s.refs.recording.Some? then s
    else
      var o := Owner(s.refs.generation + 1, s.boundary);
      s.(refs := s.refs.(starting := true, generation := o.generation, owner := Some(o), anchor := None),
         calls := s.calls[s.nextId := StartAnchor(o)], nextId := s.nextId + 1)
  }

  function AnchorReplied(s: State, c: nat, granted: bool): State
    requires c in s.calls && s.calls[c].StartAnchor?
  {
    var o := s.calls[c].owner;
    var anchor := if granted then Some(s.nextId) else None;
    var r := s.refs;
    if !IsCurrent(r, s.boundary, o) then
      s.(refs := r.(owner := if r.owner == Some(o) then None else r.owner, starting := false),
         calls := s.calls - {c}, deducted := Deduct(s.deducted, anchor), nextId := s.nextId + 1)
    else
      s.(refs := r.(anchor := anchor, timed := true, armed := true),
         calls := s.calls[c := StartConnect(o)], nextId := s.nextId + 1)
  }

  predicate Connecting(s: State, c: nat) {
    c in s.calls && (s.calls[c].StartConnect? || s.calls[c].RotateConnect?)
  }

  function ConnectionOpened(s: State, c: nat): State
    requires Connecting(s, c)
  {
    var o := s.calls[c].owner;
    s.(calls := s.calls[c := if s.calls[c].StartConnect? then StartOpened(o, s.nextId) else RotateOpened(o, s.nextId)],
       conns := s.conns + {s.nextId}, nextId := s.nextId + 1)
  }

  /** The `finally` of `start`. */
  function ReleaseStarting(r: Refs, o: Owner): Refs {
    if r.owner == Some(o) || r.owner == None then r.(starting := false) else r
  }

  function ConnectFailed(s: State, c: nat): State
    requires Connecting(s, c)
  {
    var o := s.calls[c].owner;
    if s.calls[c].RotateConnect? then s.(calls := s.calls - {c})
    else
      var r := if IsCurrent(s.refs, s.boundary, o) then s.refs.(timed := false) else s.refs;
      s.(refs := ReleaseStarting(r, o), calls := s.calls - {c})
  }

  predicate MayPublish(s: State, call: Call)
    requires HoldsAny(call)
  {
    IsCurrent(s.refs, s.boundary, call.owner) && !s.refs.stopping && (call.RotateOpened? ==> s.refs.timed)
  }

  function Resumed(s: State, c: nat, rotates: bool): State
    requires c in s.calls && HoldsAny(s.calls[c])
  {
    var call := s.calls[c];
    if MayPublish(s, call) then Published(s, c, rotates) else Disposed(s, c)
  }

  function Published(s: State, c: nat, rotates: bool): State
    requires c in s.calls && HoldsAny(s.calls[c])
  {
    var call := s.calls[c];
    var r := s.refs.(recording := Some(call.conn), rotationDue := rotates);
    s.(refs := if call.StartOpened? then ReleaseStarting(r, call.owner) else r, calls := s.calls - {c})
  }

  function Disposed(s: State, c: nat): State
    requires c in s.calls && HoldsAny(s.calls[c])
  {
    var call := s.calls[c];
    s.(stopped := s.stopped + {call.conn},
       calls := if call.StartOpened? then s.calls[c := StartClosing(call.owner)] else s.calls - {c})
  }

  /** The `finally` of a start whose connection was not wanted any more. */
  function StartFinished(s: State, c: nat): State
    requires c in s.calls && s.calls[c].StartClosing?
  {
    s.(refs := ReleaseStarting(s.refs, s.calls[c].owner), calls := s.calls - {c})
  }

  function RotationFired(s: State, signedIn: bool): State {
    var r := s.refs.(rotationDue := false);
    if r.owner.None? || !IsCurrent(r, s.boundary, r.owner.value) || r.recording.None? || !r.armed || !signedIn
    then s.(refs := r)
    else s.(refs := r.(recording := None), stopped := StopConn(s.stopped, r.recording),
            calls := s.calls[s.nextId := RotateStopping(r.owner.value)], nextId := s.nextId + 1)
  }

  function RotateResumed(s: State, c: nat): State
    requires c in s.calls && s.calls[c].RotateStopping?
  {
    var o := s.calls[c].owner;
    if !IsCurrent(s.refs, s.boundary, o) || s.refs.stopping || !s.refs.timed then s.(calls := s.calls - {c})
    else s.(calls := s.calls[c := RotateConnect(o)])
  }

  function Stopped(s: State): State {
    var r := s.refs;
    if r.stopping then s
    else
      var expected := if r.owner.Some? then r.owner.value.boundary else s.boundary;
      s.(refs := r.(stopping := true, generation := r.generation + 1, owner := None, rotationDue := false,
                    armed := false, timed := false, recording := None),
         stopped := StopConn(s.stopped, r.recording),
         calls := s.calls[s.nextId := StopSettling(expected, r.timed)], nextId := s.nextId + 1)
  }

  function StopResumed(s: State, c: nat, positive: bool): State
    requires c in s.calls && s.calls[c].StopSettling?
  {
    var call := s.calls[c];
    s.(refs := s.refs.(anchor := None, stopping := false),
       deducted := if call.boundary == s.boundary && ((call.timed && positive) || s.refs.anchor.Some?)
                   then Deduct(s.deducted, s.refs.anchor) else s.deducted,
       calls := s.calls - {c})
  }

  function TornDown(s: State): State {
    var r := s.refs;
    s.(refs := Refs(false, false, r.generation + 1, None, None, None, false, false, false),
       stopped := StopConn(s.stopped, r.recording), deducted := Deduct(s.deducted, r.anchor))
  }

  function Step(s: State, e: Event): State {
    match e
    case Start => Started(s)
    case AnchorReply(c, granted) => if c in s.calls && s.calls[c].StartAnchor? then AnchorReplied(s, c, granted) else s
    case Opens(c) => if Connecting(s, c) then ConnectionOpened(s, c) else s
    case ConnectFails(c) => if Connecting(s, c) then ConnectFailed(s, c) else s
    case Resume(c, rotates) => if c in s.calls && HoldsAny(s.calls[c]) then Resumed(s, c, rotates) else s
    case Closed(c) =>
      if c in s.calls && s.calls[c].StartClosing? then StartFinished(s, c) else s
    case RotationFires(signedIn) => if s.refs.rotationDue then RotationFired(s, signedIn) else s
    case RotateResume(c) => if c in s.calls && s.calls[c].RotateStopping? then RotateResumed(s, c) else s
    case Stop => Stopped(s)
    case StopResume(c, positive) => if c in s.calls && s.calls[c].StopSettling? then StopResumed(s, c, positive) else s
    case Teardown => TornDown(s)
    case BoundaryChange => s.(boundary := s.boundary + 1)
  }

  function Run(s: State, es: seq<Event>): State
    decreases |es|
  {
    if es == [] then s else Run(Step(s, es[0]), es[1..])
  }

  // ---- the invariant ----

  predicate Acts(call: Call) {
    !call.StopSettling?
  }

  /** This call may still publish a connection for its owner. */
  predicate Capable(call: Call) {
    Acts(call) && !call.StartClosing?
  }

  predicate Holds(call: Call, conn: nat) {
    HoldsAny(call) && call.conn == conn
  }

  ghost predicate OwnersKnown(s: State) {
    && (s.refs.owner.Some? ==> s.refs.owner.value.generation == s.refs.generation)
    && (s.refs.recording.Some? ==> s.refs.owner.Some?)
    && (forall c :: c in s.calls ==> c < s.nextId)
    && (forall c :: c in s.calls && Acts(s.calls[c]) ==> s.calls[c].owner.generation <= s.refs.generation)
  }

  /** At most one call can publish for the current owner, and none while a connection is published. */
  ghost predicate OnePublisher(s: State) {
    s.refs.owner.Some? ==>
      && (s.refs.recording.Some? ==>
            forall c :: c in s.calls && Capable(s.calls[c]) ==> s.calls[c].owner != s.refs.owner.value)
      && (forall c, d ::
            (c in s.calls && d in s.calls && Capable(s.calls[c]) && Capable(s.calls[d])
             && s.calls[c].owner == s.calls[d].owner == s.refs.owner.value) ==> c == d)
  }

  ghost predicate HandlesDistinct(s: State) {
    && s.stopped <= s.conns
    && (forall k :: k in s.conns ==> k < s.nextId)
    && (s.refs.recording.Some? ==> s.refs.recording.value in s.conns && s.refs.recording.value !in s.stopped)
    && (forall c :: c in s.calls && HoldsAny(s.calls[c]) ==>
          s.calls[c].conn in s.conns && s.calls[c].conn !in s.stopped && s.refs.recording != Some(s.calls[c].conn))
    && (forall c, d ::
          (c in s.calls && d in s.calls && HoldsAny(s.calls[c]) && HoldsAny(s.calls[d])
           && s.calls[c].conn == s.calls[d].conn) ==> c == d)
  }

  ghost predicate Placed(s: State, k: nat) {
    s.refs.recording == Some(k) || k in s.stopped || exists c :: c in s.calls && Holds(s.calls[c], k)
  }

  ghost predicate Accounted(s: State) {
    HandlesDistinct(s) && forall k :: k in s.conns ==> Placed(s, k)
  }

  ghost predicate AnchorsOnce(s: State) {
    && (forall i :: 0 <= i < |s.deducted| ==> s.deducted[i] < s.nextId)
    && (forall i, j :: 0 <= i < j < |s.deducted| ==> s.deducted[i] != s.deducted[j])
    && (s.refs.anchor.Some? ==> s.refs.anchor.value < s.nextId && s.refs.anchor.value !in s.deducted)
  }

  ghost predicate Sound(s: State) {
    OwnersKnown(s) && OnePublisher(s) && Accounted(s) && AnchorsOnce(s)
  }

  /** A step that keeps or stops every handle accounts for the connections that were accounted for. */
  lemma KeepsPlaced(s: State, t: State)
    requires s.stopped <= t.stopped
    requires s.refs.recording.Some? ==> t.refs.recording == s.refs.recording || s.refs.recording.value in t.stopped
    requires forall c :: c in s.calls && HoldsAny(s.calls[c]) ==>
      || (c in t.calls && t.calls[c] == s.calls[c])
      || s.calls[c].conn in t.stopped || t.refs.recording == Some(s.calls[c].conn)
    ensures forall k :: k in s.conns && Placed(s, k) ==> Placed(t, k)
  {
    forall k | k in s.conns && Placed(s, k) ensures Placed(t, k) {
      if s.refs.recording != Some(k) && k !in s.stopped {
        var c :| c in s.calls && Holds(s.calls[c], k);
        assert c in t.calls && t.calls[c] == s.calls[c] ==> Holds(t.calls[c], k);
      }
    }
  }

  lemma StartedSound(s: State)
    requires Sound(s)
    ensures Sound(Started(s))
  {
    KeepsPlaced(s, Started(s));
  }

  lemma AnchorRepliedSound(s: State, c: nat, granted: bool)
    requires Sound(s) && c in s.calls && s.calls[c].StartAnchor?
    ensures Sound(AnchorReplied(s, c, granted))
  {
    KeepsPlaced(s, AnchorReplied(s, c, granted));
  }

  lemma ConnectionOpenedSound(s: State, c: nat)
    requires Sound(s) && Connecting(s, c)
    ensures Sound(ConnectionOpened(s, c))
  {
    KeepsPlaced(s, ConnectionOpened(s, c));
    assert Holds(ConnectionOpened(s, c).calls[c], s.nextId);
  }

  lemma ConnectFailedSound(s: State, c: nat)
    requires Sound(s) && Connecting(s, c)
    ensures Sound(ConnectFailed(s, c))
  {
    KeepsPlaced(s, ConnectFailed(s, c));
  }

  lemma StartFinishedSound(s: State, c: nat)
    requires Sound(s) && c in s.calls && s.calls[c].StartClosing?
    ensures Sound(StartFinished(s, c))
  {
    KeepsPlaced(s, StartFinished(s, c));
  }

  lemma PublishedSound(s: State, c: nat, rotates: bool)
    requires Sound(s) && c in s.calls && HoldsAny(s.calls[c]) && MayPublish(s, s.calls[c])
    ensures Sound(Published(s, c, rotates))
  {
    KeepsPlaced(s, Published(s, c, rotates));
  }

  lemma DisposedSound(s: State, c: nat)
    requires Sound(s) && c in s.calls && HoldsAny(s.calls[c])
    ensures Sound(Disposed(s, c))
  {
    KeepsPlaced(s, Disposed(s, c));
  }

  lemma ResumedSound(s: State, c: nat, rotates: bool)
    requires Sound(s) && c in s.calls && HoldsAny(s.calls[c])
    ensures Sound(Resumed(s, c, rotates))
  {
    if MayPublish(s, s.calls[c]) {
      PublishedSound(s, c, rotates);
    } else {
      DisposedSound(s, c);
    }
  }

  lemma RotationFiredSound(s: State, signedIn: bool)
    requires Sound(s)
    ensures Sound(RotationFired(s, signedIn))
  {
    KeepsPlaced(s, RotationFired(s, signedIn));
  }

  lemma RotateResumedSound(s: State, c: nat)
    requires Sound(s) && c in s.calls && s.calls[c].RotateStopping?
    ensures Sound(RotateResumed(s, c))
  {
    KeepsPlaced(s, RotateResumed(s, c));
  }

  lemma StoppedSound(s: State)
    requires Sound(s)
    ensures Sound(Stopped(s))
  {
    KeepsPlaced(s, Stopped(s));
  }

  lemma StopResumedSound(s: State, c: nat, positive: bool)
    requires Sound(s) && c in s.calls && s.calls[c].StopSettling?
    ensures Sound(StopResumed(s, c, positive))
  {
    KeepsPlaced(s, StopResumed(s, c, positive));
  }

  lemma TornDownSound(s: State)
    requires Sound(s)
    ensures Sound(TornDown(s))
  {
    KeepsPlaced(s, TornDown(s));
  }

  lemma StepKeepsSound(s: State, e: Event)
    requires Sound(s)
    ensures Sound(Step(s, e))
  {
    match e
    case Start => StartedSound(s);
    case AnchorReply(c, granted) => if c in s.calls && s.calls[c].StartAnchor? { AnchorRepliedSound(s, c, granted); }
    case Opens(c) => if Connecting(s, c) { ConnectionOpenedSound(s, c); }
    case ConnectFails(c) => if Connecting(s, c) { ConnectFailedSound(s, c); }
    case Resume(c, rotates) => if c in s.calls && HoldsAny(s.calls[c]) { ResumedSound(s, c, rotates); }
    case RotationFires(signedIn) => RotationFiredSound(s, signedIn);
    case RotateResume(c) => if c in s.calls && s.calls[c].RotateStopping? { RotateResumedSound(s, c); }
    case Stop => StoppedSound(s);
    case StopResume(c, positive) => if c in s.calls && s.calls[c].StopSettling? { StopResumedSound(s, c, positive); }
    case Teardown => TornDownSound(s);
    case Closed(c) => if c in s.calls && s.calls[c].StartClosing? { StartFinishedSound(s, c); }
    case BoundaryChange => KeepsPlaced(s, Step(s, e));
  }

  lemma {:induction false} RunKeepsSound(s: State, es: seq<Event>)
    requires Sound(s)
    ensures Sound(Run(s, es))
    decreases |es|
  {
    if es != [] {
      StepKeepsSound(s, es[0]);
      RunKeepsSound(Step(s, es[0]), es[1..]);
    }
  }

  // ---- what every interleaving keeps ----

  /** Every connection ever opened is the published one, is held by a call in flight, or was stopped. */
  lemma NoOrphanConnection(es: seq<Event>, k: nat)
    requires k in Run(INITIAL, es).conns
    ensures var s := Run(INITIAL, es);
      s.refs.recording == Some(k) || k in s.stopped || exists c :: c in s.calls && Holds(s.calls[c], k)
  {
    RunKeepsSound(INITIAL, es);
  }

  /** Resuming the call that holds a connection publishes or stops it, whatever has happened since. */
  lemma HolderDisposes(es: seq<Event>, c: nat, k: nat, rotates: bool)
    requires c in Run(INITIAL, es).calls && Holds(Run(INITIAL, es).calls[c], k)
    ensures var t := Step(Run(INITIAL, es), Resume(c, rotates));
      (t.refs.recording == Some(k)) != (k in t.stopped)
  {
    RunKeepsSound(INITIAL, es);
  }

  lemma OnlyResumesPublish(s: State, e: Event)
    requires !e.Resume?
    ensures Step(s, e).refs.recording == s.refs.recording || Step(s, e).refs.recording == None
  {
  }

  lemma ResumePublishes(s: State, c: nat, rotates: bool, k: nat)
    requires OwnersKnown(s) && OnePublisher(s)
    requires Step(s, Resume(c, rotates)).refs.recording == Some(k) && s.refs.recording != Some(k)
    ensures s.refs.recording == None && c in s.calls && Holds(s.calls[c], k)
    ensures IsCurrent(s.refs, s.boundary, s.calls[c].owner) && !s.refs.stopping
  {
    assert Capable(s.calls[c]);
  }

  /**
   * A connection is published only by a call whose owner is current, into an empty slot: publishing
   * never overwrites a live handle.
   */
  lemma PublishesIntoEmptySlot(es: seq<Event>, e: Event, k: nat)
    requires var s := Run(INITIAL, es);
      Step(s, e).refs.recording == Some(k) && s.refs.recording != Some(k)
    ensures var s := Run(INITIAL, es);
      && s.refs.recording == None
      && e.Resume? && e.c in s.calls && Holds(s.calls[e.c], k)
      && IsCurrent(s.refs, s.boundary, s.calls[e.c].owner) && !s.refs.stopping
  {
    RunKeepsSound(INITIAL, es);
    if e.Resume? {
      ResumePublishes(Run(INITIAL, es), e.c, e.rotates, k);
    } else {
      OnlyResumesPublish(Run(INITIAL, es), e);
    }
  }

  /** Each server anchor is handed to `deductQuota` at most once. */
  lemma AnchorDeductedOnce(es: seq<Event>, i: nat, j: nat)
    requires i < j < |Run(INITIAL, es).deducted|
    ensures Run(INITIAL, es).deducted[i] != Run(INITIAL, es).deducted[j]
  {
    RunKeepsSound(INITIAL, es);
  }

  ghost predicate NoStart(es: seq<Event>) {
    forall i :: 0 <= i < |es| ==> es[i] != Start
  }

  lemma {:induction false} OwnerlessRun(s: State, es: seq<Event>)
    requires s.refs.owner.None? && NoStart(es)
    ensures Run(s, es).refs.owner.None?
    decreases |es|
  {
    if es != [] {
      OwnerlessRun(Step(s, es[0]), es[1..]);
    }
  }

  /**
   * After a stop or a teardown, until the next start, nothing is published; and once no call holds a
   * connection any more, every connection that was ever opened has been stopped.
   */
  lemma StopLeavesNothingLive(before: seq<Event>, e: Event, after: seq<Event>)
    requires (e.Stop? && !Run(INITIAL, before).refs.stopping) || e.Teardown?
    requires NoStart(after)
    ensures var s := Run(Step(Run(INITIAL, before), e), after);
      && s.refs.recording == None
      && ((forall c :: c in s.calls ==> !HoldsAny(s.calls[c])) ==> s.conns <= s.stopped)
  {
    RunKeepsSound(INITIAL, before);
    var s := Run(INITIAL, before);
    RunKeepsSound(s, [e]);
    assert [e][1..] == [];
    assert Run(s, [e]) == Step(s, e);
    RunKeepsSound(Step(s, e), after);
    OwnerlessRun(Step(s, e), after);
  }

  /** A recording is published, under anchor 1. */
  const LIVE := State(
    Refs(false, false, 1, Some(Owner(1, 0)), Some(2), Some(1), true, false, true), 0, map[], {2}, {}, [], 3)

  /** The stop of that recording is still waiting after an account change has torn the hook down. */
  const TORN_DOWN := State(
    Refs(false, false, 3, None, None, None, false, false, false), 1, map[3 := StopSettling(0, true)], {2}, {2}, [1], 4)

  lemma ReachesLive()
    ensures Run(INITIAL, [Start, AnchorReply(0, true), Opens(0), Resume(0, false)]) == LIVE
  {
    var s1 := Step(INITIAL, Start);
    var s2 := Step(s1, AnchorReply(0, true));
    var s3 := Step(s2, Opens(0));
    assert s3.calls == map[0 := StartOpened(Owner(1, 0), 2)];
    assert Step(s3, Resume(0, false)) == LIVE;
    RunCons(s3, Resume(0, false), []);
    RunCons(s2, Opens(0), [Resume(0, false)]);
    RunCons(s1, AnchorReply(0, true), [Opens(0), Resume(0, false)]);
    RunCons(INITIAL, Start, [AnchorReply(0, true), Opens(0), Resume(0, false)]);
  }

  lemma TearsDown()
    ensures Run(LIVE, [Stop, BoundaryChange, Teardown]) == TORN_DOWN
  {
    var s1 := Step(LIVE, Stop);
    assert s1 == State(Refs(false, true, 2, None, None, Some(1), false, false, false), 0,
                       TORN_DOWN.calls, {2}, {2}, [], 4);
    RunCons(s1.(boundary := 1), Teardown, []);
    RunCons(s1, BoundaryChange, [Teardown]);
    RunCons(LIVE, Stop, [BoundaryChange, Teardown]);
  }

  lemma ReachesTornDown()
    ensures Run(INITIAL, [Start, AnchorReply(0, true), Opens(0), Resume(0, false)]
                         + [Stop, BoundaryChange, Teardown]) == TORN_DOWN
  {
    ReachesLive();
    TearsDown();
    RunSplits(INITIAL, [Start, AnchorReply(0, true), Opens(0), Resume(0, false)], [Stop, BoundaryChange, Teardown]);
  }

  /**
   * What the next session cannot count on: that late stop drops the anchor of the session started
   * after it, unsettled, while the session is live and its owner current.
   */
  lemma LateStopDropsNewerAnchor()
    ensures var s := Run(TORN_DOWN, [Start, AnchorReply(4, true)]);
      var t := Run(s, [StopResume(3, true)]);
      && s.refs.anchor == Some(5) && t.refs.anchor == None && t.deducted == [1]
      && t.refs.timed && IsCurrent(t.refs, t.boundary, Owner(4, 1))
  {
    var s1 := Step(TORN_DOWN, Start);
    var s2 := Step(s1, AnchorReply(4, true));
    assert s1.calls[4] == StartAnchor(Owner(4, 1)) && s2.calls[3] == StopSettling(0, true);
    RunCons(s1, AnchorReply(4, true), []);
    RunCons(TORN_DOWN, Start, [AnchorReply(4, true)]);
    RunCons(s2, StopResume(3, true), []);
  }

  lemma {:induction false} RunSplits(s: State, a: seq<Event>, b: seq<Event>)
    ensures Run(s, a + b) == Run(Run(s, a), b)
    decreases |a|
  {
    if a == [] {
      assert a + b == b;
    } else {
      assert (a + b)[1..] == a[1..] + b;
      RunSplits(Step(s, a[0]), a[1..], b);
    }
  }

  lemma RunCons(s: State, e: Event, es: seq<Event>)
    ensures Run(s, [e] + es) == Run(Step(s, e), es)
  {
    assert ([e] + es)[1..] == es;
  }
}
