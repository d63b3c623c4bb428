/** What the steps of src/hooks/useInterpret.ts do get done: a start publishes, a rotation replaces the
  * connection, a stop settles, and no flag keeps the user out for good. */
module InterpretProgress {
  import opened Options
  import opened Interpret

  lemma FourSteps(s: State, a: Event, b: Event, c: Event, d: Event)
    ensures Run(s, [a, b, c, d]) == Step(Step(Step(Step(s, a), b), c), d)
  {
    RunCons(Step(Step(Step(s, a), b), c), d, []);
    RunCons(Step(Step(s, a), b), c, [d]);
    RunCons(Step(s, a), b, [c, d]);
    RunCons(s, a, [b, c, d]);
  }

  /** Undisturbed, a connection that is being opened for the present owner is published. */
  lemma ConnectionIsPublished(s: State, c: nat, rotates: bool)
    requires Sound(s) && Connecting(s, c) && IsCurrent(s.refs, s.boundary, s.calls[c].owner)
    requires !s.refs.stopping && s.refs.recording.None? && (s.calls[c].RotateConnect? ==> s.refs.timed)
    ensures var t := Step(Step(s, Opens(c)), Resume(c, rotates));
      && t.refs == s.refs.(recording := Some(s.nextId), rotationDue := rotates,
                           starting := s.refs.starting && s.calls[c].RotateConnect?)
      && s.nextId !in s.conns && s.nextId !in t.stopped
      && t.conns == s.conns + {s.nextId} && t.stopped == s.stopped
      && t.calls == s.calls - {c} && t.deducted == s.deducted && t.boundary == s.boundary
  {
    var s1 := Step(s, Opens(c));
    assert HoldsAny(s1.calls[c]) && s1.calls[c].conn == s.nextId && s1.calls[c].owner == s.calls[c].owner;
    assert s1.calls - {c} == s.calls - {c};
  }

  // ------------------------------------------------------------------- a start

  predicate MayStart(r: Refs) {
    !r.starting && !r.stopping && r.recording.None?
  }

  lemma StartConnects(s: State, granted: bool)
    requires Sound(s) && MayStart(s.refs)
    ensures var c, o := s.nextId, Owner(s.refs.generation + 1, s.boundary);
      var t := Step(Step(s, Start), AnchorReply(c, granted));
      && t == State(Refs(true, false, o.generation, Some(o), None, if granted then Some(c + 1) else None, true,
                         s.refs.rotationDue, true),
                    s.boundary, s.calls[c := StartConnect(o)], s.conns, s.stopped, s.deducted, c + 2)
      && s.refs.owner != Some(o) && s.calls[c := StartConnect(o)] - {c} == s.calls
  {
    var c := s.nextId;
    assert Step(s, Start).calls[c] == StartAnchor(Owner(s.refs.generation + 1, s.boundary));
    assert c !in s.calls;
  }

  /**
   * Undisturbed, a start publishes a connection of its own under a new owner of the present account,
   * holds the anchor it was granted, and lets the next stop or rotation in; no other call is touched.
   */
  lemma StartPublishes(s: State, granted: bool, rotates: bool)
    requires Sound(s) && MayStart(s.refs)
    ensures var c := s.nextId;
      var t := Run(s, [Start, AnchorReply(c, granted), Opens(c), Resume(c, rotates)]);
      && t.refs.recording.Some? && t.refs.recording.value !in s.conns && t.refs.recording.value !in t.stopped
      && t.conns == s.conns + {t.refs.recording.value} && t.stopped == s.stopped
      && t.refs.owner.Some? && t.refs.owner != s.refs.owner && IsCurrent(t.refs, t.boundary, t.refs.owner.value)
      && t.refs.anchor.Some? == granted && (granted ==> t.refs.anchor.value >= s.nextId)
      && t.refs.timed && t.refs.armed && t.refs.rotationDue == rotates
      && !t.refs.starting && !t.refs.stopping && t.calls == s.calls && t.deducted == s.deducted
  {
    var c := s.nextId;
    StartConnects(s, granted);
    var s2 := Step(Step(s, Start), AnchorReply(c, granted));
    StepKeepsSound(s, Start);
    StepKeepsSound(Step(s, Start), AnchorReply(c, granted));
    ConnectionIsPublished(s2, c, rotates);
    FourSteps(s, Start, AnchorReply(c, granted), Opens(c), Resume(c, rotates));
  }

  /** Pressing start or stop again while the first one is at work does nothing. */
  lemma SecondPressDoesNothing(s: State)
    ensures s.refs.starting || s.refs.stopping || s.refs.recording.Some? ==> Step(s, Start) == s
    ensures s.refs.stopping ==> Step(s, Stop) == s
  {
  }

  /** A start whose connection fails lets the next start in, whatever else is in flight. */
  lemma FailedStartLetsIn(s: State, c: nat)
    requires c in s.calls && s.calls[c].StartConnect? && s.refs.owner == Some(s.calls[c].owner)
    ensures var t := Step(s, ConnectFails(c));
      !t.refs.starting && t.refs.recording == s.refs.recording && c !in t.calls
  {
  }

  // ---------------------------------------------------------------- a rotation

  /** The present owner records, and its connection is due to be replaced. */
  predicate DueToRotate(s: State) {
    && s.refs.owner.Some? && IsCurrent(s.refs, s.boundary, s.refs.owner.value) && s.refs.recording.Some?
    && s.refs.armed && s.refs.timed && !s.refs.stopping && s.refs.rotationDue
  }

  /** Undisturbed, a rotation stops the old connection and publishes a fresh one, for the same owner and
    * under the same anchor. */
  lemma RotationReconnects(s: State, rotates: bool)
    requires Sound(s) && DueToRotate(s)
    ensures var c := s.nextId;
      var t := Run(s, [RotationFires(true), RotateResume(c), Opens(c), Resume(c, rotates)]);
      && t.refs.recording.Some? && t.refs.recording.value !in s.conns && t.refs.recording.value !in t.stopped
      && t.conns == s.conns + {t.refs.recording.value} && t.stopped == s.stopped + {s.refs.recording.value}
      && t.refs.owner == s.refs.owner && t.refs.anchor == s.refs.anchor && t.refs.rotationDue == rotates
      && t.refs.armed && t.refs.timed && t.calls == s.calls && t.deducted == s.deducted
  {
    var c := s.nextId;
    var s1 := Step(s, RotationFires(true));
    var s2 := Step(s1, RotateResume(c));
    assert s1.calls[c] == RotateStopping(s.refs.owner.value) && s2.calls[c] == RotateConnect(s.refs.owner.value);
    assert s2.calls - {c} == s.calls;
    StepKeepsSound(s, RotationFires(true));
    StepKeepsSound(s1, RotateResume(c));
    ConnectionIsPublished(s2, c, rotates);
    FourSteps(s, RotationFires(true), RotateResume(c), Opens(c), Resume(c, rotates));
  }

  /** The rotation of call `c` waits for the old connection, and may go on. */
  predicate MayGoOn(s: State, c: nat, o: Owner) {
    && c in s.calls && s.calls[c] == RotateStopping(o)
    && IsCurrent(s.refs, s.boundary, o) && !s.refs.stopping && s.refs.timed && s.refs.recording.None?
  }

  /** The user stops, leaves, changes the account, or starts anew. */
  predicate Interrupts(s: State, e: Event) {
    || (e.Stop? && !s.refs.stopping) || e.Teardown? || e.BoundaryChange?
    || (e.Start? && MayStart(s.refs))
  }

  ghost predicate Uninterrupted(s: State, es: seq<Event>)
    decreases |es|
  {
    es == [] || (!Interrupts(s, es[0]) && Uninterrupted(Step(s, es[0]), es[1..]))
  }

  predicate Overtaken(s: State, o: Owner) {
    s.refs.generation > o.generation || s.boundary > o.boundary
  }

  lemma OvertakenStays(s: State, e: Event, o: Owner)
    requires Overtaken(s, o)
    ensures Overtaken(Step(s, e), o)
  {
  }

  lemma InterruptionOvertakes(s: State, e: Event, c: nat, o: Owner)
    requires MayGoOn(s, c, o) && Interrupts(s, e)
    ensures Overtaken(Step(s, e), o)
  {
  }

  lemma WaitingCallStays(s: State, e: Event, c: nat, o: Owner)
    requires Sound(s) && c in s.calls && s.calls[c] == RotateStopping(o) && e != RotateResume(c)
    ensures c in Step(s, e).calls && Step(s, e).calls[c] == RotateStopping(o)
  {
    assert c < s.nextId;
  }

  lemma ReplyLetsGoOn(s: State, c: nat, o: Owner, d: nat)
    requires Sound(s) && MayGoOn(s, c, o) && d in s.calls && Capable(s.calls[d]) && d != c
    ensures s.calls[d].owner != o
  {
  }

  lemma StepLetsGoOn(s: State, e: Event, c: nat, o: Owner)
    requires Sound(s) && MayGoOn(s, c, o) && e != RotateResume(c) && !Interrupts(s, e)
    ensures MayGoOn(Step(s, e), c, o)
  {
    WaitingCallStays(s, e, c, o);
    match e
    case AnchorReply(d, _) => if d in s.calls && s.calls[d].StartAnchor? { ReplyLetsGoOn(s, c, o, d); }
    case ConnectFails(d) => if Connecting(s, d) { ReplyLetsGoOn(s, c, o, d); }
    case Resume(d, _) => if d in s.calls && HoldsAny(s.calls[d]) { ReplyLetsGoOn(s, c, o, d); }
    case _ =>
  }

  lemma {:induction false} RunLetsGoOn(s: State, es: seq<Event>, c: nat, o: Owner)
    requires Sound(s) && c in s.calls && s.calls[c] == RotateStopping(o) && RotateResume(c) !in es
    requires MayGoOn(s, c, o) || Overtaken(s, o)
    ensures var t := Run(s, es);
      && Sound(t) && c in t.calls && t.calls[c] == RotateStopping(o)
      && if MayGoOn(s, c, o) && Uninterrupted(s, es) then MayGoOn(t, c, o) else Overtaken(t, o)
    decreases |es|
  {
    if es != [] {
      assert es[0] in es;
      StepKeepsSound(s, es[0]);
      WaitingCallStays(s, es[0], c, o);
      if Overtaken(s, o) {
        OvertakenStays(s, es[0], o);
      } else if Interrupts(s, es[0]) {
        InterruptionOvertakes(s, es[0], c, o);
      } else {
        StepLetsGoOn(s, es[0], c, o);
      }
      RunLetsGoOn(Step(s, es[0]), es[1..], c, o);
    }
  }

  /**
   * Whatever runs while the old connection is being stopped: when that is done the rotation goes on to
   * connect if and only if nobody has stopped, left, changed the account or started anew since. Otherwise
   * it ends there and changes nothing.
   */
  lemma RotationGoesOnExactly(s: State, es: seq<Event>, c: nat, o: Owner)
    requires Sound(s) && MayGoOn(s, c, o) && RotateResume(c) !in es
    ensures var r := Run(s, es); var t := Step(r, RotateResume(c));
      && t.refs == r.refs && t.conns == r.conns && t.stopped == r.stopped && t.deducted == r.deducted
      && if Uninterrupted(s, es) then c in t.calls && Connecting(t, c) && t.calls[c].owner == o
         else c !in t.calls
  {
    RunLetsGoOn(s, es, c, o);
  }

  /** A rotation that fires begins that wait, and does nothing else than stop the old connection. */
  lemma RotationBegins(s: State)
    requires Sound(s) && DueToRotate(s)
    ensures var t := Step(s, RotationFires(true));
      MayGoOn(t, s.nextId, s.refs.owner.value) && t.stopped == s.stopped + {s.refs.recording.value}
      && t.refs.anchor == s.refs.anchor && t.deducted == s.deducted
  {
  }

  // --------------------------------------------------------------------- a stop

  /**
   * Undisturbed, a stop ends the recording, hands the anchor that is held to the deduction, and lets the
   * next start in, unless another start is still under way.
   */
  lemma StopSettles(s: State, positive: bool)
    requires Sound(s) && !s.refs.stopping && (s.refs.owner.Some? ==> s.refs.owner.value.boundary == s.boundary)
    ensures var c := s.nextId; var t := Run(s, [Stop, StopResume(c, positive)]);
      && t.refs.recording.None? && (s.refs.recording.Some? ==> s.refs.recording.value in t.stopped)
      && t.refs.anchor.None? && (s.refs.anchor.Some? ==> s.refs.anchor.value in t.deducted)
      && (s.refs.anchor.None? ==> t.deducted == s.deducted)
      && t.calls == s.calls && (!s.refs.starting ==> MayStart(t.refs))
  {
    var c := s.nextId;
    var s1 := Step(s, Stop);
    assert s1.calls[c].StopSettling? && s1.calls[c].boundary == s.boundary;
    var t := Step(s1, StopResume(c, positive));
    assert t.calls == s.calls;
    if s.refs.anchor.Some? {
      assert t.deducted[|s.deducted|] == s.refs.anchor.value;
    }
    RunCons(s1, StopResume(c, positive), []);
    RunCons(s, Stop, [StopResume(c, positive)]);
  }

  /** A stop under another account than its owner's settles nothing with it: the anchor is not handed on. */
  lemma StopOfOldAccountSettlesNothing(s: State, positive: bool)
    requires Sound(s) && !s.refs.stopping && s.refs.owner.Some? && s.refs.owner.value.boundary != s.boundary
    ensures var t := Step(Step(s, Stop), StopResume(s.nextId, positive));
      t.deducted == s.deducted && t.refs.anchor.None? && t.refs.recording.None?
  {
    assert Step(s, Stop).calls[s.nextId] == StopSettling(s.refs.owner.value.boundary, s.refs.timed);
  }

  /** Leaving ends the recording, hands the anchor on, and lets the next start in, at once. */
  lemma TeardownSettles(s: State)
    ensures var t := Step(s, Teardown);
      && t.refs.recording.None? && (s.refs.recording.Some? ==> s.refs.recording.value in t.stopped)
      && (s.refs.anchor.Some? ==> s.refs.anchor.value in t.deducted) && MayStart(t.refs)
  {
    if s.refs.anchor.Some? {
      assert Step(s, Teardown).deducted[|s.deducted|] == s.refs.anchor.value;
    }
  }

  /** A rotation fires once, and none is due behind a stop or a teardown. */
  lemma RotationFiresOnce(s: State, signedIn: bool)
    ensures !Step(s, RotationFires(signedIn)).refs.rotationDue
    ensures !s.refs.rotationDue ==> Step(s, RotationFires(signedIn)) == s
    ensures !s.refs.stopping ==> !Step(s, Stop).refs.rotationDue
    ensures !Step(s, Teardown).refs.rotationDue
  {
  }

  // ---------------------------------------------------------------- every wait ends

  /** What the call waits for. */
  function Awaited(call: Call, c: nat, answer: bool): Event {
    match call
    case StartAnchor(_) => AnchorReply(c, answer)
    case StartConnect(_) => if answer then Opens(c) else ConnectFails(c)
    case RotateConnect(_) => if answer then Opens(c) else ConnectFails(c)
    case StartOpened(_, _) => Resume(c, answer)
    case RotateOpened(_, _) => Resume(c, answer)
    case StartClosing(_) => Closed(c)
    case RotateStopping(_) => RotateResume(c)
    case StopSettling(_, _) => StopResume(c, answer)
  }

  function WaitsLeft(call: Call): nat {
    match call
    case StartAnchor(_) => 4
    case RotateStopping(_) => 4
    case StartConnect(_) => 3
    case RotateConnect(_) => 3
    case StartOpened(_, _) => 2
    case RotateOpened(_, _) => 2
    case StartClosing(_) => 1
    case StopSettling(_, _) => 1
  }

  /** Whatever a call waits for, when it comes the call is over or a wait further on, and no other call is
    * touched: after four waits at most every call is over. */
  lemma EveryWaitEnds(s: State, c: nat, answer: bool)
    requires c in s.calls
    ensures var t := Step(s, Awaited(s.calls[c], c, answer));
      && t.calls - {c} == s.calls - {c}
      && (c in t.calls ==> WaitsLeft(t.calls[c]) < WaitsLeft(s.calls[c]))
  {
  }

  // ------------------------------------------------------------ nobody is kept out

  predicate IsStart(call: Call) {
    call.StartAnchor? || call.StartConnect? || call.StartOpened? || call.StartClosing?
  }

  /** This start will lower `starting`. */
  predicate WillLower(s: State, c: nat) {
    c in s.calls && IsStart(s.calls[c]) && (s.refs.owner.None? || s.refs.owner == Some(s.calls[c].owner))
  }

  /** While `starting` is up, a start is in flight that will lower it; while `stopping` is, a stop is. */
  ghost predicate Released(s: State) {
    && (s.refs.starting ==> exists c :: WillLower(s, c))
    && (s.refs.stopping ==> exists c :: c in s.calls && s.calls[c].StopSettling?)
  }

  lemma StartingIsLowered(s: State, e: Event, c: nat)
    requires OwnersKnown(s) && s.refs.starting && WillLower(s, c)
    ensures Step(s, e).refs.starting ==> WillLower(Step(s, e), c)
  {
    assert c < s.nextId;
    match e
    case AnchorReply(d, _) =>
    case Resume(d, _) =>
    case _ =>
  }

  lemma StoppingIsLowered(s: State, e: Event, c: nat)
    requires OwnersKnown(s) && c in s.calls && s.calls[c].StopSettling?
    ensures Step(s, e).refs.stopping ==> c in Step(s, e).calls && Step(s, e).calls[c].StopSettling?
  {
    assert c < s.nextId;
  }

  /** The anchor reply of a start that is not the owner's any more. */
  predicate StaleReply(s: State, e: Event) {
    e.AnchorReply? && e.c in s.calls && s.calls[e.c].StartAnchor? && !IsCurrent(s.refs, s.boundary, s.calls[e.c].owner)
  }

  /** Every start in flight is another owner's. */
  ghost predicate OneStart(s: State) {
    forall c, d ::
      (c in s.calls && d in s.calls && IsStart(s.calls[c]) && IsStart(s.calls[d])
       && s.calls[c].owner == s.calls[d].owner) ==> c == d
  }

  lemma StartsStayTheirOwners(s: State, e: Event, c: nat)
    requires c in Step(s, e).calls && IsStart(Step(s, e).calls[c])
    ensures (c in s.calls && IsStart(s.calls[c]) && Step(s, e).calls[c].owner == s.calls[c].owner)
            || (c == s.nextId && Step(s, e).calls[c].owner.generation == s.refs.generation + 1)
  {
  }

  lemma StepKeepsOneStart(s: State, e: Event)
    requires OwnersKnown(s) && OneStart(s)
    ensures OneStart(Step(s, e))
  {
    var t := Step(s, e);
    forall c, d | (c in t.calls && d in t.calls && IsStart(t.calls[c]) && IsStart(t.calls[d])
                   && t.calls[c].owner == t.calls[d].owner)
      ensures c == d
    {
      StartsStayTheirOwners(s, e, c);
      StartsStayTheirOwners(s, e, d);
      assert c in s.calls && IsStart(s.calls[c]) ==> s.calls[c].owner.generation <= s.refs.generation;
      assert d in s.calls && IsStart(s.calls[d]) ==> s.calls[d].owner.generation <= s.refs.generation;
    }
  }

  lemma {:induction false} RunKeepsOneStart(s: State, es: seq<Event>)
    requires Sound(s) && OneStart(s)
    ensures Sound(Run(s, es)) && OneStart(Run(s, es))
    decreases |es|
  {
    if es != [] {
      StepKeepsSound(s, es[0]);
      StepKeepsOneStart(s, es[0]);
      RunKeepsOneStart(Step(s, es[0]), es[1..]);
    }
  }

  /**
   * While the owner's own start is in flight, only two things lower `starting` under it: a teardown, and the
   * anchor reply of an older start, which does not look whose flag it lowers.
   */
  lemma FlagLoweredExactly(s: State, e: Event, c: nat)
    requires Sound(s) && OneStart(s) && s.refs.starting && c in s.calls && IsStart(s.calls[c])
    requires s.refs.owner == Some(s.calls[c].owner)
    ensures !Step(s, e).refs.starting && c in Step(s, e).calls <==> e.Teardown? || (StaleReply(s, e) && e.c != c)
  {
    assert c < s.nextId;
    if StaleReply(s, e) && e.c != c {
      assert c in Step(s, e).calls;
    }
  }

  const TWO_STARTS := State(
    Refs(true, false, 3, Some(Owner(3, 0)), None, None, false, false, false), 0,
    map[0 := StartAnchor(Owner(1, 0)), 1 := StartAnchor(Owner(3, 0))], {}, {}, [], 2)

  /** A run: a start is torn down and the user starts again; then the first one's anchor reply lets a third
    * start in beside the second, which is under way. */
  lemma StaleReplyLetsInAnother()
    ensures Run(INITIAL, [Start, Teardown, Start]) == TWO_STARTS
    ensures var t := Step(TWO_STARTS, AnchorReply(0, false));
      && MayStart(t.refs) && 1 in t.calls && t.refs.owner == Some(t.calls[1].owner)
      && Step(t, Start).refs.owner == Some(Owner(4, 0)) && 1 in Step(t, Start).calls
  {
    var s1 := Step(INITIAL, Start);
    var s2 := Step(s1, Teardown);
    assert Step(s2, Start).calls == TWO_STARTS.calls;
    RunCons(s2, Start, []);
    RunCons(s1, Teardown, [Start]);
    RunCons(INITIAL, Start, [Teardown, Start]);
  }

  lemma OnlyStartsRaise(s: State, e: Event)
    requires !s.refs.starting && Step(s, e).refs.starting
    ensures WillLower(Step(s, e), s.nextId)
  {
  }

  lemma OnlyStopsRaise(s: State, e: Event)
    requires !s.refs.stopping && Step(s, e).refs.stopping
    ensures s.nextId in Step(s, e).calls && Step(s, e).calls[s.nextId].StopSettling?
  {
  }

  lemma StepKeepsReleased(s: State, e: Event)
    requires OwnersKnown(s) && Released(s)
    ensures Released(Step(s, e))
  {
    if s.refs.starting {
      var c :| WillLower(s, c);
      StartingIsLowered(s, e, c);
    } else if Step(s, e).refs.starting {
      OnlyStartsRaise(s, e);
    }
    if s.refs.stopping {
      var c :| c in s.calls && s.calls[c].StopSettling?;
      StoppingIsLowered(s, e, c);
    } else if Step(s, e).refs.stopping {
      OnlyStopsRaise(s, e);
    }
  }

  lemma {:induction false} RunKeepsReleased(s: State, es: seq<Event>)
    requires Sound(s) && Released(s)
    ensures Released(Run(s, es))
    decreases |es|
  {
    if es != [] {
      StepKeepsSound(s, es[0]);
      StepKeepsReleased(s, es[0]);
      RunKeepsReleased(Step(s, es[0]), es[1..]);
    }
  }

  /** In every reachable state, once no call is in flight the user can start, or is being recorded. */
  lemma NobodyIsKeptOut(es: seq<Event>)
    requires Run(INITIAL, es).calls == map[]
    ensures var r := Run(INITIAL, es).refs; MayStart(r) || (r.recording.Some? && r.owner.Some? && !r.stopping)
  {
    RunKeepsSound(INITIAL, es);
    RunKeepsReleased(INITIAL, es);
  }
}
