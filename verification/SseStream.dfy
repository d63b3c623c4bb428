/** `consumeSse` (src/hooks/useChat.ts:660-704): an incremental parser of server-sent events. */
module SseStream {
  import opened Options
  import opened SseText

  datatype Event<J> = Event(name: string, payload: J)
  datatype Outcome = Finished | Aborted | ReadFailed

  // ------------------------------------------------------------ one frame

  function Line(raw: string): string {
    DropCarriageReturn(raw)
  }

  predicate IsEventLine(line: string) {
    "event:" <= line
  }

  predicate IsDataLine(line: string) {
    "data:" <= line
  }

  /** The last `event:` line names the event. */
  function NameOf(lines: seq<string>): string {
    if lines == [] then "message" else
    var last := Line(lines[|lines| - 1]);
    if IsEventLine(last) then Trim(last[6..]) else NameOf(lines[..|lines| - 1])
  }

  /** All `data:` lines, trimmed and joined without a separator. */
  function DataOf(lines: seq<string>): string {
    if lines == [] then "" else
    var last := Line(lines[|lines| - 1]);
    DataOf(lines[..|lines| - 1]) + (if IsDataLine(last) then Trim(last[5..]) else "")
  }

  /** The callbacks one frame causes: none when it has no data or its data does not parse. */
  function FrameEvents<J>(parse: string -> Option<J>, frame: string): (events: seq<Event<J>>)
    ensures |events| <= 1
  {
    var lines := SplitLines(frame);
    var data := DataOf(lines);
    if data == "" then [] else
    match parse(data)
    case None => []
    case Some(payload) => [Event(NameOf(lines), payload)]
  }

  // -------------------------------------------------------- the whole text

  /** The complete frames of a text: each ends at the first blank line behind the one before. */
  function Frames(text: string): seq<string>
    decreases |text|
  {
    var at := IndexOfBreak(text);
    if at < 0 then [] else [text[..at]] + Frames(text[at + 2..])
  }

  /** The callbacks of frame after frame, whatever `flush` does with one. */
  function Each<J>(flush: string -> seq<Event<J>>, frames: seq<string>): seq<Event<J>> {
    if frames == [] then [] else Each(flush, frames[..|frames| - 1]) + flush(frames[|frames| - 1])
  }

  function EventsOf<J>(parse: string -> Option<J>, frames: seq<string>): seq<Event<J>> {
    Each((frame: string) => FrameEvents(parse, frame), frames)
  }

  /** What is left behind the last complete frame. */
  function Remainder(text: string): string
    decreases |text|
  {
    var at := IndexOfBreak(text);
    if at < 0 then text else Remainder(text[at + 2..])
  }

  function Flushed<J>(parse: string -> Option<J>, rest: string): seq<Event<J>> {
    if Trim(rest) != "" then FrameEvents(parse, rest) else []
  }

  /** All callbacks for a text that ends here. */
  function Callbacks<J>(parse: string -> Option<J>, text: string): seq<Event<J>> {
    EventsOf(parse, Frames(text)) + Flushed(parse, Remainder(text))
  }

  function Concat(chunks: seq<string>): string {
    if chunks == [] then "" else Concat(chunks[..|chunks| - 1]) + chunks[|chunks| - 1]
  }

  lemma BreakStays(a: string, b: string)
    requires IndexOfBreak(a) >= 0
    ensures IndexOfBreak(a + b) == IndexOfBreak(a)
  {
    var r := IndexOfBreak(a);
    forall i: nat | i < r ensures !IsBreak(a + b, i) {
      assert !IsBreak(a, i);
    }
    FirstBreak(a + b, r);
  }

  /** Reading on only needs what the frames so far left behind. */
  lemma {:induction false} ReadOn(a: string, b: string)
    ensures Frames(a + b) == Frames(a) + Frames(Remainder(a) + b)
    ensures Remainder(a + b) == Remainder(Remainder(a) + b)
    decreases |a|
  {
    var at := IndexOfBreak(a);
    if at >= 0 {
      BreakStays(a, b);
      assert (a + b)[..at] == a[..at] && (a + b)[at + 2..] == a[at + 2..] + b;
      ReadOn(a[at + 2..], b);
    }
  }

  lemma {:induction false} ConcatPrefix(chunks: seq<string>, n: nat)
    requires n <= |chunks|
    ensures Concat(chunks[..n]) <= Concat(chunks)
    decreases |chunks|
  {
    if n < |chunks| {
      var init := chunks[..|chunks| - 1];
      ConcatPrefix(init, n);
      assert init[..n] == chunks[..n];
    } else {
      assert chunks[..n] == chunks;
    }
  }

  lemma EachOneMore<J>(flush: string -> seq<Event<J>>, frames: seq<string>, frame: string)
    ensures Each(flush, frames + [frame]) == Each(flush, frames) + flush(frame)
  {
    assert (frames + [frame])[..|frames|] == frames;
  }

  lemma EventsAppendOne<J>(parse: string -> Option<J>, frames: seq<string>, frame: string)
    ensures EventsOf(parse, frames + [frame]) == EventsOf(parse, frames) + FrameEvents(parse, frame)
  {
    EachOneMore((f: string) => FrameEvents(parse, f), frames, frame);
  }

  lemma NextFrame(buffer: string, frames: seq<string>, all: seq<string>)
    requires IndexOfBreak(buffer) >= 0 && frames + Frames(buffer) == all
    ensures var sep := IndexOfBreak(buffer);
      frames + [buffer[..sep]] + Frames(buffer[sep + 2..]) == all
  {
  }

  lemma {:induction false} EachAppend<J>(flush: string -> seq<Event<J>>, a: seq<string>, b: seq<string>)
    ensures Each(flush, a + b) == Each(flush, a) + Each(flush, b)
    decreases |b|
  {
    if b == [] {
      assert a + b == a;
    } else {
      assert (a + b)[..|a + b| - 1] == a + b[..|b| - 1];
      EachAppend(flush, a, b[..|b| - 1]);
    }
  }

  lemma EventsAppend<J>(parse: string -> Option<J>, a: seq<string>, b: seq<string>)
    ensures EventsOf(parse, a + b) == EventsOf(parse, a) + EventsOf(parse, b)
  {
    EachAppend((frame: string) => FrameEvents(parse, frame), a, b);
  }

  lemma EachOfOne<J>(flush: string -> seq<Event<J>>, frame: string)
    ensures Each(flush, [frame]) == flush(frame)
  {
    assert [frame][..0] == [];
  }

  lemma EventsOfOne<J>(parse: string -> Option<J>, frame: string)
    ensures EventsOf(parse, [frame]) == FrameEvents(parse, frame)
  {
    EachOfOne((f: string) => FrameEvents(parse, f), frame);
  }

  lemma EventsFirst<J>(parse: string -> Option<J>, frame: string, frames: seq<string>)
    ensures EventsOf(parse, [frame] + frames) == FrameEvents(parse, frame) + EventsOf(parse, frames)
  {
    EventsOfOne(parse, frame);
    EventsAppend(parse, [frame], frames);
  }

  lemma EventsGrow<J>(parse: string -> Option<J>, frames: seq<string>, all: seq<string>)
    requires frames <= all
    ensures EventsOf(parse, frames) <= EventsOf(parse, all)
  {
    assert all == frames + all[|frames|..];
    EventsAppend(parse, frames, all[|frames|..]);
  }

  lemma LongerTextKeepsFrames(a: string, whole: string)
    requires a <= whole
    ensures Frames(a) <= Frames(whole)
  {
    var b := whole[|a|..];
    assert whole == a + b;
    ReadOn(a, b);
  }

  lemma FramesGrow(chunks: seq<string>, n: nat)
    requires n <= |chunks|
    ensures Frames(Concat(chunks[..n])) <= Frames(Concat(chunks))
  {
    var a, whole := Concat(chunks[..n]), Concat(chunks);
    ConcatPrefix(chunks, n);
    LongerTextKeepsFrames(a, whole);
  }

  /** What the first reads have called back starts what the whole text will call back. */
  lemma SoFarIsPrefix<J>(parse: string -> Option<J>, frames: seq<string>, chunks: seq<string>, n: nat)
    requires n <= |chunks| && frames <= Frames(Concat(chunks[..n]))
    ensures EventsOf(parse, frames) <= Callbacks(parse, Concat(chunks))
  {
    FramesGrow(chunks, n);
    EventsGrow(parse, frames, Frames(Concat(chunks)));
  }

  // ------------------------------------------------------------ the parser

  method FlushFrame<J>(frame: string, parse: string -> Option<J>) returns (events: seq<Event<J>>)
    ensures events == FrameEvents(parse, frame)
  {
    var event, dataLine := "message", "";
    var lines := SplitLines(frame);
    for i := 0 to |lines|
      invariant event == NameOf(lines[..i]) && dataLine == DataOf(lines[..i])
    {
      var line := DropCarriageReturn(lines[i]);
      assert lines[..i + 1][..i] == lines[..i] && Line(lines[i]) == line;
      if "event:" <= line {
        assert line[0] == 'e';
        event := Trim(line[6..]);
      } else if "data:" <= line {
        dataLine := dataLine + Trim(line[5..]);
      }
    }
    assert lines[..|lines|] == lines;
    if dataLine == "" {
      return [];
    }
    var parsed := parse(dataLine);
    events := if parsed.Some? then [Event(event, parsed.value)] else [];
  }

  /** One more read adds the frames it completes. */
  lemma NextRead(chunks: seq<string>, i: nat)
    requires i < |chunks|
    ensures var before, text := Concat(chunks[..i]), Remainder(Concat(chunks[..i])) + chunks[i];
      && Frames(Concat(chunks[..i + 1])) == Frames(before) + Frames(text)
      && Remainder(Concat(chunks[..i + 1])) == Remainder(text)
  {
    assert chunks[..i + 1][..i] == chunks[..i];
    ReadOn(Concat(chunks[..i]), chunks[i]);
  }

  /** What is flushed of one more read continues what the whole text calls back. */
  lemma FlushedSome<J>(parse: string -> Option<J>, chunks: seq<string>, i: nat, flushed: seq<string>)
    requires i < |chunks| && flushed <= Frames(Remainder(Concat(chunks[..i])) + chunks[i])
    ensures var frames := Frames(Concat(chunks[..i]));
      && EventsOf(parse, frames + flushed) == EventsOf(parse, frames) + EventsOf(parse, flushed)
      && EventsOf(parse, frames + flushed) <= Callbacks(parse, Concat(chunks))
  {
    var frames := Frames(Concat(chunks[..i]));
    NextRead(chunks, i);
    EventsAppend(parse, frames, flushed);
    SoFarIsPrefix(parse, frames + flushed, chunks, i + 1);
  }

  /** The first `asked` questions were all answered with yes. */
  predicate IsCurrent(changesAt: Option<nat>, asked: nat) {
    changesAt.None? || asked <= changesAt.value
  }

  /** The inner loop: flushes every complete frame of the buffer, unless the account changes. */
  method Drain<J>(text: string, changesAt: Option<nat>, before: nat, parse: string -> Option<J>)
    returns (events: seq<Event<J>>, buffer: string, aborted: bool, asked: nat, ghost flushed: seq<string>)
    requires IsCurrent(changesAt, before)
    ensures flushed <= Frames(text) && events == EventsOf(parse, flushed)
    ensures !aborted ==> flushed == Frames(text) && buffer == Remainder(text)
    ensures IsCurrent(changesAt, asked) == !aborted
  {
    events, buffer, aborted, asked, flushed := [], text, false, before, [];
    var sep := IndexOfBreak(buffer);
    while sep >= 0
      invariant sep == IndexOfBreak(buffer)
      invariant events == EventsOf(parse, flushed)
      invariant flushed + Frames(buffer) == Frames(text) && Remainder(buffer) == Remainder(text)
      invariant IsCurrent(changesAt, asked)
      decreases |buffer|
    {
      var frame := buffer[..sep];
      NextFrame(buffer, flushed, Frames(text));
      EventsAppendOne(parse, flushed, frame);
      buffer := buffer[sep + 2..];
      asked := asked + 1;
      if !IsCurrent(changesAt, asked) {
        aborted := true;
        return;
      }
      var called := FlushFrame(frame, parse);
      events := events + called;
      flushed := flushed + [frame];
      sep := IndexOfBreak(buffer);
    }
  }

  /** `chunks` are the decoded reads; afterwards the body ends, or a read fails. `changesAt` is the
    * question, counted from 0, at which the account turns out to have changed. */
  method ConsumeSse<J>(chunks: seq<string>, ends: bool, changesAt: Option<nat>, parse: string -> Option<J>)
    returns (events: seq<Event<J>>, outcome: Outcome, asked: nat)
    ensures outcome == Finished ==> events == Callbacks(parse, Concat(chunks))
    ensures outcome == ReadFailed ==> events == EventsOf(parse, Frames(Concat(chunks)))
    ensures events <= Callbacks(parse, Concat(chunks))
    ensures outcome == Aborted <==> !IsCurrent(changesAt, asked)
    ensures outcome != Aborted ==> outcome == (if ends then Finished else ReadFailed)
  {
    var buffer := "";
    events, outcome, asked := [], Aborted, 0;
    for i := 0 to |chunks|
      invariant buffer == Remainder(Concat(chunks[..i]))
      invariant events == EventsOf(parse, Frames(Concat(chunks[..i]))) <= Callbacks(parse, Concat(chunks))
      invariant outcome == Aborted && IsCurrent(changesAt, asked)
    {
      asked := asked + 1;
      if !IsCurrent(changesAt, asked) { return; }
      asked := asked + 1;
      if !IsCurrent(changesAt, asked) { return; }
      var called, rest, aborted, n, flushed := Drain(buffer + chunks[i], changesAt, asked, parse);
      FlushedSome(parse, chunks, i, flushed);
      NextRead(chunks, i);
      events, buffer, asked := events + called, rest, n;
      if aborted { return; }
    }
    assert chunks[..|chunks|] == chunks;
    asked := asked + 1;
    if !IsCurrent(changesAt, asked) { return; }
    if !ends { outcome := ReadFailed; return; }
    asked := asked + 1;
    if !IsCurrent(changesAt, asked) { return; }
    if Trim(buffer) != "" {
      asked := asked + 1;
      if !IsCurrent(changesAt, asked) { return; }
      var called := FlushFrame(buffer, parse);
      events := events + called;
    }
    outcome := Finished;
  }
}
