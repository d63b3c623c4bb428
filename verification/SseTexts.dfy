/** The texts on which `consumeSse` (src/hooks/useChat.ts:660-704) finds the events that a reader following
  * section 9.2.6 of the WHATWG HTML Standard finds. */
module SseTexts {
  import opened Options
  import opened SseText
  import opened SseStream
  import opened SseStandard
  import opened SseAgreement
  import opened SsePlain
  import opened SseCodec

  // ------------------------------------------------------- lists of frames

  predicate PlainTexts(frames: seq<string>) {
    frames == [] || (PlainLines(SplitLines(frames[0])) && PlainTexts(frames[1..]))
  }

  predicate AllPlain(frames: seq<string>) {
    frames == [] || (Plain(SplitLines(frames[0])) && AllPlain(frames[1..]))
  }

  predicate StartsSolid(events: seq<Raw>) {
    events == [] || Solid(events[0])
  }

  lemma AppendStartsSolid(a: seq<Raw>, b: seq<Raw>)
    requires StartsSolid(a) && StartsSolid(b)
    ensures StartsSolid(a + b)
  {
    if a == [] {
      assert a + b == b;
    } else {
      assert (a + b)[0] == a[0];
    }
  }

  lemma FrameStartsSolid(lines: seq<string>)
    requires PlainLines(lines)
    ensures StartsSolid(RawOf(lines))
  {
    if RawOf(lines) != [] {
      RawIsSolid(lines);
    }
  }

  lemma Associates(a: seq<Raw>, b: seq<Raw>, c: seq<Raw>)
    ensures a + b + c == a + (b + c)
  {
  }

  lemma FirstEvents(frames: seq<string>, flushed: seq<Raw>)
    requires frames != []
    ensures RawOfFrames(frames) + flushed == RawOf(SplitLines(frames[0])) + (RawOfFrames(frames[1..]) + flushed)
  {
    Associates(RawOf(SplitLines(frames[0])), RawOfFrames(frames[1..]), flushed);
  }

  lemma {:induction false} FramesStartSolid(frames: seq<string>, flushed: seq<Raw>)
    requires PlainTexts(frames) && StartsSolid(flushed)
    ensures StartsSolid(RawOfFrames(frames) + flushed)
    decreases |frames|
  {
    if frames == [] {
      assert RawOfFrames(frames) + flushed == flushed;
    } else {
      FirstEvents(frames, flushed);
      FrameStartsSolid(SplitLines(frames[0]));
      FramesStartSolid(frames[1..], flushed);
      AppendStartsSolid(RawOf(SplitLines(frames[0])), RawOfFrames(frames[1..]) + flushed);
    }
  }

  lemma CancelFirst(a: seq<Raw>, x: seq<Raw>, y: seq<Raw>)
    ensures a + x == a + y <==> x == y
  {
    if a + x == a + y {
      assert x == (a + x)[|a|..] && y == (a + y)[|a|..];
    }
  }

  /** What is behind the first frame on which the two differ cannot make up for it. */
  lemma HeadsDiffer(lines: seq<string>, more: seq<Raw>, rest: seq<Raw>)
    requires PlainLines(lines) && RawOf(lines) != Dispatch(Fields(lines)) && StartsSolid(more)
    ensures RawOf(lines) + more != Dispatch(Fields(lines)) + rest
  {
    var ours, theirs := RawOf(lines), Dispatch(Fields(lines));
    if ours == [] {
      OnlyTheirs(lines);
      assert ours + more == more && (theirs + rest)[0] == theirs[0];
    } else {
      OursIsTheirs(lines);
      assert (ours + more)[0] == ours[0] && (theirs + rest)[0] == theirs[0];
    }
  }

  /** Lists of events agree only if they agree frame by frame and nothing is flushed. */
  lemma {:induction false} ListsAgreeExactly(frames: seq<string>, flushed: seq<Raw>)
    requires PlainTexts(frames) && StartsSolid(flushed)
    ensures RawOfFrames(frames) + flushed == DispatchedFrames(frames) <==> AllPlain(frames) && flushed == []
    decreases |frames|
  {
    if frames == [] {
      assert RawOfFrames(frames) + flushed == flushed;
    } else {
      var lines := SplitLines(frames[0]);
      var more, rest := RawOfFrames(frames[1..]) + flushed, DispatchedFrames(frames[1..]);
      FirstEvents(frames, flushed);
      FrameAgreesExactly(lines);
      if RawOf(lines) == Dispatch(Fields(lines)) {
        CancelFirst(RawOf(lines), more, rest);
        ListsAgreeExactly(frames[1..], flushed);
      } else {
        FramesStartSolid(frames[1..], flushed);
        HeadsDiffer(lines, more, rest);
      }
    }
  }

  // ----------------------------------------------------------- whole texts

  lemma {:induction false} LinesHaveNoReturns(s: string)
    requires NoReturns(s)
    ensures forall i :: 0 <= i < |SplitLines(s)| ==> NoReturns(SplitLines(s)[i])
  {
    if s != "" {
      assert s[0] in s;
      LinesHaveNoReturns(s[1..]);
    }
  }

  lemma {:induction false} EachPlain(lines: seq<string>)
    requires forall i :: 0 <= i < |lines| ==> PlainLine(lines[i])
    ensures PlainLines(lines)
  {
    if lines != [] {
      EachPlain(lines[..|lines| - 1]);
    }
  }

  lemma LinesArePlain(s: string)
    requires NoReturns(s)
    ensures PlainLines(SplitLines(s))
  {
    LinesAreOneLine(s);
    LinesHaveNoReturns(s);
    EachPlain(SplitLines(s));
  }

  lemma {:induction false} FramesArePlainTexts(text: string)
    requires NoReturns(text)
    ensures PlainTexts(Frames(text)) && NoReturns(Remainder(text))
    decreases |text|
  {
    var at := IndexOfBreak(text);
    if at >= 0 {
      LinesArePlain(text[..at]);
      FramesArePlainTexts(text[at + 2..]);
    }
  }

  lemma FlushedIsSolid(rest: string)
    requires NoReturns(rest)
    ensures StartsSolid(RawFlushed(rest))
  {
    LinesArePlain(rest);
    if RawOf(SplitLines(rest)) != [] {
      RawIsSolid(SplitLines(rest));
    }
  }

  /** On a text whose lines end in line feeds, this reader and the standard find the same events if and
    * only if every frame is plain and what is left behind the last one makes no event. */
  lemma TextsAgreeExactly(text: string)
    requires NoReturns(text)
    ensures RawEvents(text) == StandardEvents(text)
       <==> AllPlain(Frames(text)) && RawFlushed(Remainder(text)) == []
  {
    NoReturnsNoChange(text);
    SameFrames(text);
    FramesArePlainTexts(text);
    FlushedIsSolid(Remainder(text));
    ListsAgreeExactly(Frames(text), RawFlushed(Remainder(text)));
  }

  // ----------------------------------------------------------------- CR LF

  /** The same text with lines that end in CR LF. */
  function Crlf(text: string): string {
    if text == "" then ""
    else if text[0] == '\n' then "\r\n" + Crlf(text[1..])
    else [text[0]] + Crlf(text[1..])
  }

  lemma {:induction false} CrlfIsUniversal(text: string)
    requires NoReturns(text)
    ensures UniversalNewlines(Crlf(text)) == text
    decreases |text|
  {
    if text != "" {
      var rest := Crlf(text[1..]);
      assert text[0] in text && text == [text[0]] + text[1..];
      CrlfIsUniversal(text[1..]);
      if text[0] == '\n' {
        assert ("\r\n" + rest)[2..] == rest;
      } else {
        assert ([text[0]] + rest)[1..] == rest;
      }
    }
  }

  lemma {:induction false} CrlfHidesBreaks(text: string)
    requires NoReturns(text)
    ensures forall i :: 0 <= i < |Crlf(text)| && Crlf(text)[i] == '\n' ==> i > 0 && Crlf(text)[i - 1] == '\r'
  {
    if text != "" {
      assert text[0] in text;
      CrlfHidesBreaks(text[1..]);
    }
  }

  /** With lines that end in CR LF the standard finds the events it finds with line feeds, and this reader
    * at most one: from two events on they differ on every text. */
  lemma CarriageReturnsLoseEvents(text: string)
    requires NoReturns(text)
    ensures StandardEvents(Crlf(text)) == StandardEvents(text)
    ensures Frames(Crlf(text)) == [] && |RawEvents(Crlf(text))| <= 1
    ensures |StandardEvents(text)| >= 2 ==> RawEvents(Crlf(text)) != StandardEvents(Crlf(text))
  {
    CrlfIsUniversal(text);
    NoReturnsNoChange(text);
    CrlfHidesBreaks(text);
    CarriageReturnsHideFrames((data: string) => Some(data), Crlf(text));
  }

  // --------------------------------------------------------- printed events

  /** A name the standard, which strips no white space and reads an empty one as `message`, keeps. */
  predicate IsPlainName(name: string) {
    Trimmed(name) && name != ""
  }

  predicate IsPrintable(name: string, json: string) {
    IsPrinted(json) && NoReturns(json) && OneLine(name) && NoReturns(name)
  }

  lemma BehindSpace(s: string)
    ensures StripSpace(" " + s) == s && Trim(" " + s) == Trim(s)
  {
    assert (" " + s)[1..] == s;
    TrimStripped(" " + s);
  }

  lemma EventFieldOf(name: string)
    requires NoReturns(name)
    ensures Classify("event: " + name) == EventField(name) && Take("event: " + name) == EventField(Trim(name))
  {
    var line := "event: " + name;
    assert line[6..] == " " + name;
    SsePlain.EventLine(line);
    BehindSpace(name);
  }

  lemma DataFieldOf(json: string)
    requires NoReturns(json)
    ensures Classify("data: " + json) == DataField(json) && Take("data: " + json) == DataField(Trim(json))
  {
    var line := "data: " + json;
    assert line[5..] == " " + json;
    SsePlain.DataLine(line);
    BehindSpace(json);
  }

  lemma TwoFields(name: string, json: string)
    ensures DataValues([EventField(name), DataField(json)]) == [json]
    ensures NamesAgree([EventField(name), DataField(json)], [EventField(Trim(name)), DataField(Trim(json))])
       <==> IsPlainName(name)
  {
    var theirs, ours := [EventField(name), DataField(json)], [EventField(Trim(name)), DataField(Trim(json))];
    var none: seq<Field> := [];
    assert theirs[..1] == [EventField(name)] && ours[..1] == [EventField(Trim(name))];
    assert [EventField(name)][..0] == none;
    assert DataValues([EventField(name)]) == DataValues(none) + [] == [];
  }

  lemma TwoLinesTaken(e: string, d: string)
    ensures Fields([e, d]) == [Classify(e), Classify(d)] && Taken([e, d]) == [Take(e), Take(d)]
  {
    var lines := [e, d];
    assert |lines| == 2 && lines[0] == e && lines[1] == d;
    assert Fields(lines) == [Classify(lines[0]), Classify(lines[1])];
    assert Taken(lines) == [Take(lines[0]), Take(lines[1])];
  }

  lemma BodyIsPlainExactly(name: string, json: string)
    requires IsPrintable(name, json)
    ensures Plain(SplitLines(Body(name, json))) <==> IsPlainName(name)
  {
    BodyLines(name, json);
    EventFieldOf(name);
    DataFieldOf(json);
    TwoFields(name, json);
    TwoLinesTaken("event: " + name, "data: " + json);
  }

  predicate PlainNames<J>(events: seq<Event<J>>) {
    forall i :: 0 <= i < |events| ==> IsPlainName(events[i].name)
  }

  predicate Printable<J>(stringify: J -> string, events: seq<Event<J>>) {
    forall i :: 0 <= i < |events| ==> IsPrintable(events[i].name, stringify(events[i].payload))
  }

  lemma {:induction false} PrintedBodies<J>(stringify: J -> string, events: seq<Event<J>>)
    requires Printable(stringify, events)
    ensures AllPlain(Bodies(stringify, events)) <==> PlainNames(events)
    decreases |events|
  {
    if events != [] {
      assert IsPrintable(events[0].name, stringify(events[0].payload));
      BodyIsPlainExactly(events[0].name, stringify(events[0].payload));
      PrintedBodies(stringify, events[1..]);
      assert Bodies(stringify, events)[1..] == Bodies(stringify, events[1..]);
      assert forall i :: 0 < i < |events| ==> events[i] == events[1..][i - 1];
      assert PlainNames(events) <==> IsPlainName(events[0].name) && PlainNames(events[1..]);
    }
  }

  lemma {:induction false} PrintedNoReturns<J>(stringify: J -> string, events: seq<Event<J>>)
    requires Printable(stringify, events)
    ensures NoReturns(EncodeSse(stringify, events))
    decreases |events|
  {
    if events != [] {
      assert IsPrintable(events[0].name, stringify(events[0].payload));
      PrintedNoReturns(stringify, events[1..]);
    }
  }

  /** What the printer writes, both readers understand alike if and only if every name is trimmed and not
    * empty. */
  lemma PrintedTextsAgreeExactly<J>(stringify: J -> string, events: seq<Event<J>>)
    requires Printable(stringify, events)
    ensures RawEvents(EncodeSse(stringify, events)) == StandardEvents(EncodeSse(stringify, events))
       <==> PlainNames(events)
  {
    forall i | 0 <= i < |events| ensures OneLine(events[i].name) && IsPrinted(stringify(events[i].payload)) {
      assert IsPrintable(events[i].name, stringify(events[i].payload));
    }
    PrintedNoReturns(stringify, events);
    FramesOfEncoded(stringify, events);
    PrintedBodies(stringify, events);
    TextsAgreeExactly(EncodeSse(stringify, events));
    assert Trim("") == "";
  }

  /** For one: a space before a name is kept by the standard and trimmed away here. */
  lemma SpacedNameIsReadDifferently<J>(stringify: J -> string, name: string, value: J)
    requires IsPrintable(" " + name, stringify(value))
    ensures var text := EncodeSse(stringify, [Event(" " + name, value)]); RawEvents(text) != StandardEvents(text)
  {
    var events := [Event(" " + name, value)];
    assert events[0].name[0] == ' ' && !IsPlainName(events[0].name);
    PrintedTextsAgreeExactly(stringify, events);
  }

  lemma DataOfTwo(name: string, json: string)
    ensures DataIn([EventField(name), DataField(json)]) == json
  {
    var none: seq<Field> := [];
    assert [EventField(name), DataField(json)][..1] == [EventField(name)] && [EventField(name)][..0] == none;
    assert DataIn([EventField(name)]) == DataIn(none) + "" == "";
  }

  lemma BodyHasData(name: string, json: string)
    requires IsPrintable(name, json)
    ensures DataOf(["event: " + name, "data: " + json]) == json
  {
    EventFieldOf(name);
    DataFieldOf(json);
    TwoLinesTaken("event: " + name, "data: " + json);
    DataIsTaken(["event: " + name, "data: " + json]);
    DataOfTwo(Trim(name), json);
  }

  lemma BodyIsOneEvent(name: string, json: string)
    requires IsPrintable(name, json)
    ensures |RawOf(SplitLines(Body(name, json)))| == 1
  {
    BodyLines(name, json);
    BodyHasData(name, json);
  }

  lemma {:induction false} BodiesAreEvents<J>(stringify: J -> string, events: seq<Event<J>>)
    requires Printable(stringify, events)
    ensures |RawOfFrames(Bodies(stringify, events))| == |events|
    decreases |events|
  {
    if events != [] {
      assert IsPrintable(events[0].name, stringify(events[0].payload));
      BodyIsOneEvent(events[0].name, stringify(events[0].payload));
      BodiesAreEvents(stringify, events[1..]);
      assert Bodies(stringify, events)[1..] == Bodies(stringify, events[1..]);
    }
  }

  /** What the printer writes, its line feeds replaced by CR LF, still holds all its events for the standard,
    * and one at most for this reader. */
  lemma CrlfLosesPrintedEvents<J>(stringify: J -> string, events: seq<Event<J>>)
    requires Printable(stringify, events) && PlainNames(events)
    ensures var text := Crlf(EncodeSse(stringify, events));
      |StandardEvents(text)| == |events| && |RawEvents(text)| <= 1
  {
    var text := EncodeSse(stringify, events);
    forall i | 0 <= i < |events| ensures OneLine(events[i].name) && IsPrinted(stringify(events[i].payload)) {
      assert IsPrintable(events[i].name, stringify(events[i].payload));
    }
    PrintedTextsAgreeExactly(stringify, events);
    FramesOfEncoded(stringify, events);
    BodiesAreEvents(stringify, events);
    assert Trim("") == "";
    PrintedNoReturns(stringify, events);
    CarriageReturnsLoseEvents(text);
  }
}
