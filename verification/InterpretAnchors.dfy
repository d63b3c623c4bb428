/** What becomes of every anchor the server grants to src/hooks/useInterpret.ts: it is held, handed to
  * `deductQuota`, or dropped, and exactly which steps drop one. */
module InterpretAnchors {
  import opened Options
  import opened Interpret

  /** While the current owner waits for its anchor, none is held. */
  ghost predicate AnchorFree(s: State) {
    forall c :: c in s.calls && s.calls[c].StartAnchor? && s.refs.owner == Some(s.calls[c].owner) ==>
      s.refs.anchor.None?
  }

  lemma ReplyKeepsAnchorFree(s: State, c: nat, granted: bool)
    requires OnePublisher(s) && AnchorFree(s) && c in s.calls && s.calls[c].StartAnchor?
    ensures AnchorFree(AnchorReplied(s, c, granted))
  {
    var t := AnchorReplied(s, c, granted);
    forall d | d in t.calls && t.calls[d].StartAnchor? && t.refs.owner == Some(t.calls[d].owner)
      ensures t.refs.anchor.None?
    {
      assert d != c && Capable(s.calls[d]) && Capable(s.calls[c]);
    }
  }

  lemma StepKeepsAnchorFree(s: State, e: Event)
    requires OwnersKnown(s) && OnePublisher(s) && AnchorFree(s)
    ensures AnchorFree(Step(s, e))
  {
    match e
    case AnchorReply(c, granted) => if c in s.calls && s.calls[c].StartAnchor? { ReplyKeepsAnchorFree(s, c, granted); }
    case _ =>
  }

  lemma {:induction false} RunKeepsAnchorFree(s: State, es: seq<Event>)
    requires Sound(s) && AnchorFree(s)
    ensures AnchorFree(Run(s, es))
    decreases |es|
  {
    if es != [] {
      StepKeepsSound(s, es[0]);
      StepKeepsAnchorFree(s, es[0]);
      RunKeepsAnchorFree(Step(s, es[0]), es[1..]);
    }
  }

  /** A start that passes its guard, or a stop that wakes up under another account. */
  predicate DropsAnchor(s: State, e: Event) {
    || (e.Start? && !s.refs.starting && !s.refs.stopping && s.refs.recording.None?)
    || (e.StopResume? && e.c in s.calls && s.calls[e.c].StopSettling? && s.calls[e.c].boundary != s.boundary)
  }

  function Held(s: State): set<nat> {
    if s.refs.anchor.Some? then {s.refs.anchor.value} else {}
  }

  ghost function Deducted(s: State): set<nat> {
    set a | a in s.deducted
  }

  /** A step loses the anchor that is held, undeducted, if and only if it is one of the two. */
  lemma LosesAnchorExactly(s: State, e: Event)
    requires Sound(s) && AnchorFree(s) && s.refs.anchor.Some?
    ensures var a, t := s.refs.anchor.value, Step(s, e);
      a !in Held(t) && a !in t.deducted <==> DropsAnchor(s, e)
  {
  }

  // ------------------------------------------------------------- over a run

  predicate Grants(s: State, e: Event) {
    e.AnchorReply? && e.granted && e.c in s.calls && s.calls[e.c].StartAnchor?
  }

  /** The anchors the server grants along a run. */
  function Granted(s: State, es: seq<Event>): set<nat>
    decreases |es|
  {
    if es == [] then {}
    else (if Grants(s, es[0]) then {s.nextId} else {}) + Granted(Step(s, es[0]), es[1..])
  }

  /** The anchors held when one of the dropping steps is taken. */
  function Dropped(s: State, es: seq<Event>): set<nat>
    decreases |es|
  {
    if es == [] then {}
    else (if DropsAnchor(s, es[0]) then Held(s) else {}) + Dropped(Step(s, es[0]), es[1..])
  }

  lemma StepAccounts(s: State, e: Event)
    requires AnchorFree(s)
    ensures var t := Step(s, e);
      Held(s) + Deducted(s) + (if Grants(s, e) then {s.nextId} else {})
      == Held(t) + Deducted(t) + (if DropsAnchor(s, e) then Held(s) else {})
  {
  }

  lemma {:induction false} RunAccounts(s: State, es: seq<Event>)
    requires Sound(s) && AnchorFree(s)
    ensures Held(s) + Deducted(s) + Granted(s, es) == Held(Run(s, es)) + Deducted(Run(s, es)) + Dropped(s, es)
    decreases |es|
  {
    if es != [] {
      var t := Step(s, es[0]);
      StepAccounts(s, es[0]);
      StepKeepsSound(s, es[0]);
      StepKeepsAnchorFree(s, es[0]);
      RunAccounts(t, es[1..]);
    }
  }

  /** Over every run, the anchors granted are exactly those held, handed on and dropped. */
  lemma EveryAnchorIsAccountedFor(es: seq<Event>)
    ensures Granted(INITIAL, es) == Held(Run(INITIAL, es)) + Deducted(Run(INITIAL, es)) + Dropped(INITIAL, es)
  {
    RunAccounts(INITIAL, es);
  }

  /** An id that was given out and is not in play never comes back. */
  ghost predicate OutOfPlay(s: State, a: nat) {
    a < s.nextId && a !in Held(s) && a !in s.deducted
  }

  lemma StepStaysOutOfPlay(s: State, e: Event, a: nat)
    requires OutOfPlay(s, a)
    ensures OutOfPlay(Step(s, e), a)
  {
  }

  lemma {:induction false} RunStaysOutOfPlay(s: State, es: seq<Event>, a: nat)
    requires OutOfPlay(s, a)
    ensures OutOfPlay(Run(s, es), a)
    decreases |es|
  {
    if es != [] {
      StepStaysOutOfPlay(s, es[0], a);
      RunStaysOutOfPlay(Step(s, es[0]), es[1..], a);
    }
  }

  lemma {:induction false} DroppedIsOutOfPlay(s: State, es: seq<Event>, a: nat)
    requires Sound(s) && AnchorFree(s) && a in Dropped(s, es)
    ensures OutOfPlay(Run(s, es), a)
    decreases |es|
  {
    var t := Step(s, es[0]);
    StepKeepsSound(s, es[0]);
    StepKeepsAnchorFree(s, es[0]);
    if DropsAnchor(s, es[0]) && a in Held(s) {
      LosesAnchorExactly(s, es[0]);
      assert s.nextId <= t.nextId;
      RunStaysOutOfPlay(t, es[1..], a);
    } else {
      DroppedIsOutOfPlay(t, es[1..], a);
    }
  }

  /** In every run, all granted anchors are held or handed on if and only if no step dropped one. */
  lemma AnchorsAreSettledExactly(es: seq<Event>)
    ensures (forall a :: a in Granted(INITIAL, es) ==> a in Held(Run(INITIAL, es)) || a in Run(INITIAL, es).deducted)
       <==> Dropped(INITIAL, es) == {}
  {
    EveryAnchorIsAccountedFor(es);
    forall a | a in Dropped(INITIAL, es)
      ensures a in Granted(INITIAL, es) && a !in Held(Run(INITIAL, es)) && a !in Run(INITIAL, es).deducted
    {
      DroppedIsOutOfPlay(INITIAL, es, a);
    }
  }

  /** The other way to lose one: the connection fails, and the user starts again. */
  lemma RestartDropsAnchor()
    ensures var failed := Run(INITIAL, [Start, AnchorReply(0, true), ConnectFails(0)]);
      && failed.refs.anchor == Some(1) && DropsAnchor(failed, Start)
      && Step(failed, Start).refs.anchor == None && Step(failed, Start).deducted == []
  {
    RunCons(INITIAL, Start, [AnchorReply(0, true), ConnectFails(0)]);
    RunCons(Step(INITIAL, Start), AnchorReply(0, true), [ConnectFails(0)]);
    RunCons(Step(Step(INITIAL, Start), AnchorReply(0, true)), ConnectFails(0), []);
  }
}
