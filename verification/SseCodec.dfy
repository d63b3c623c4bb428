/** `encodeSse` (e2e/helpers.ts:77-83) printed and `consumeSse` read back. */
module SseCodec {
  import opened Options
  import opened SseText
  import opened SseStream

  function EncodeEvent<J>(stringify: J -> string, e: Event<J>): string {
    "event: " + e.name + "\n" + "data: " + stringify(e.payload) + "\n\n"
  }

  function EncodeSse<J>(stringify: J -> string, events: seq<Event<J>>): string {
    if events == [] then "" else EncodeEvent(stringify, events[0]) + EncodeSse(stringify, events[1..])
  }

  /** `JSON.stringify` writes one line without white space around it, and `JSON.parse` reads it back. */
  ghost predicate IsCodec<J(!new)>(stringify: J -> string, parse: string -> Option<J>) {
    forall v :: IsPrinted(stringify(v)) && parse(stringify(v)) == Some(v)
  }

  predicate IsPrinted(json: string) {
    json != "" && OneLine(json) && Trimmed(json)
  }

  /** The names a frame can carry. */
  predicate IsName(name: string) {
    OneLine(name) && Trimmed(name)
  }

  // ------------------------------------------------------- one event back

  function Body(name: string, json: string): string {
    "event: " + name + "\n" + ("data: " + json)
  }

  lemma BodyLines(name: string, json: string)
    requires OneLine(name) && OneLine(json)
    ensures SplitLines(Body(name, json)) == ["event: " + name, "data: " + json]
  {
    SplitAtNewline("event: " + name, "data: " + json);
    SplitOneLine("data: " + json);
  }

  lemma NoCarriageReturn(prefix: string, s: string)
    requires Trimmed(s) && prefix != "" && prefix[|prefix| - 1] == ' '
    ensures Line(prefix + s) == prefix + s
  {
  }

  lemma EventLine(name: string)
    requires Trimmed(name)
    ensures var line := Line("event: " + name); IsEventLine(line) && Trim(line[6..]) == name
  {
    NoCarriageReturn("event: ", name);
    assert ("event: " + name)[6..] == " " + name;
    TrimAfterSpace(name);
  }

  lemma DataLine(json: string)
    requires Trimmed(json)
    ensures var line := Line("data: " + json); IsDataLine(line) && !IsEventLine(line) && Trim(line[5..]) == json
  {
    NoCarriageReturn("data: ", json);
    assert ("data: " + json)[5..] == " " + json && ("data: " + json)[0] == 'd';
    TrimAfterSpace(json);
  }

  lemma TwoLines(e: string, d: string)
    requires IsEventLine(Line(e)) && IsDataLine(Line(d)) && !IsEventLine(Line(d)) && !IsDataLine(Line(e))
    ensures NameOf([e, d]) == Trim(Line(e)[6..]) && DataOf([e, d]) == Trim(Line(d)[5..])
  {
    assert [e, d][..1] == [e] && [e][..0] == [];
    assert NameOf([e]) == Trim(Line(e)[6..]) && DataOf([e]) == "";
  }

  lemma BodyFields(name: string, json: string)
    requires IsName(name) && IsPrinted(json)
    ensures var lines := ["event: " + name, "data: " + json];
      NameOf(lines) == name && DataOf(lines) == json
  {
    EventLine(name);
    DataLine(json);
    assert Line("event: " + name)[0] == 'e';
    TwoLines("event: " + name, "data: " + json);
  }

  lemma FrameComesBack<J>(parse: string -> Option<J>, name: string, json: string, value: J)
    requires IsName(name) && IsPrinted(json) && parse(json) == Some(value)
    ensures FrameEvents(parse, Body(name, json)) == [Event(name, value)]
  {
    BodyLines(name, json);
    BodyFields(name, json);
  }

  /** The first blank line of an encoded text is the one that ends its first event. */
  lemma FirstBlankLine(name: string, json: string, rest: string)
    requires OneLine(name) && IsPrinted(json)
    ensures IndexOfBreak(Body(name, json) + "\n\n" + rest) == |Body(name, json)|
  {
    var body := Body(name, json);
    var s := body + "\n\n" + rest;
    forall i: nat | i < |body| ensures !IsBreak(s, i) {
      if i < 7 {
        assert s[i] == "event: "[i];
      } else if i < 7 + |name| {
        assert s[i] == name[i - 7];
      } else if i == 7 + |name| {
        assert s[i + 1] == 'd';
      } else if i < 14 + |name| {
        assert s[i] == "data: "[i - 8 - |name|];
      } else {
        assert s[i] == json[i - 14 - |name|];
      }
    }
    FirstBreak(s, |body|);
  }

  // -------------------------------------------------------- the whole trip

  function Bodies<J>(stringify: J -> string, events: seq<Event<J>>): seq<string> {
    if events == [] then []
    else [Body(events[0].name, stringify(events[0].payload))] + Bodies(stringify, events[1..])
  }

  lemma FrontFrame(name: string, json: string, rest: string)
    requires OneLine(name) && IsPrinted(json)
    ensures var text := Body(name, json) + "\n\n" + rest;
      Frames(text) == [Body(name, json)] + Frames(rest) && Remainder(text) == Remainder(rest)
  {
    FirstBlankLine(name, json, rest);
    var body := Body(name, json);
    assert (body + "\n\n" + rest)[..|body|] == body && (body + "\n\n" + rest)[|body| + 2..] == rest;
  }

  lemma EncodedFront<J>(stringify: J -> string, e: Event<J>, rest: string)
    requires OneLine(e.name) && IsPrinted(stringify(e.payload))
    ensures var text, body := EncodeEvent(stringify, e) + rest, Body(e.name, stringify(e.payload));
      Frames(text) == [body] + Frames(rest) && Remainder(text) == Remainder(rest)
  {
    FrontFrame(e.name, stringify(e.payload), rest);
    assert EncodeEvent(stringify, e) == Body(e.name, stringify(e.payload)) + "\n\n";
  }

  lemma {:induction false} FramesOfEncoded<J>(stringify: J -> string, events: seq<Event<J>>)
    requires forall i :: 0 <= i < |events| ==> OneLine(events[i].name) && IsPrinted(stringify(events[i].payload))
    ensures Frames(EncodeSse(stringify, events)) == Bodies(stringify, events)
    ensures Remainder(EncodeSse(stringify, events)) == ""
    decreases |events|
  {
    if events != [] {
      var e := events[0];
      var rest := EncodeSse(stringify, events[1..]);
      EncodedFront(stringify, e, rest);
      FramesOfEncoded(stringify, events[1..]);
    }
  }

  lemma {:induction false} BodiesComeBack<J(!new)>(
    stringify: J -> string, parse: string -> Option<J>, events: seq<Event<J>>)
    requires IsCodec(stringify, parse)
    requires forall i :: 0 <= i < |events| ==> IsName(events[i].name)
    ensures EventsOf(parse, Bodies(stringify, events)) == events
    decreases |events|
  {
    if events != [] {
      var e := events[0];
      FrameComesBack(parse, e.name, stringify(e.payload), e.payload);
      BodiesComeBack(stringify, parse, events[1..]);
      EventsFirst(parse, Body(e.name, stringify(e.payload)), Bodies(stringify, events[1..]));
    }
  }

  // ----------------------------------------- what a callback name looks like

  lemma {:induction false} NamesAreClean(lines: seq<string>)
    requires forall i :: 0 <= i < |lines| ==> OneLine(lines[i])
    ensures IsName(NameOf(lines))
  {
    if lines != [] {
      var last := Line(lines[|lines| - 1]);
      if IsEventLine(last) {
        TrimKeepsOneLine(last[6..]);
      } else {
        NamesAreClean(lines[..|lines| - 1]);
      }
    }
  }

  lemma {:induction false} EventNamesAreClean<J>(parse: string -> Option<J>, frames: seq<string>)
    ensures forall i :: 0 <= i < |EventsOf(parse, frames)| ==> IsName(EventsOf(parse, frames)[i].name)
  {
    if frames != [] {
      var init, last := frames[..|frames| - 1], frames[|frames| - 1];
      EventNamesAreClean(parse, init);
      FrameNameIsClean(parse, last);
      assert frames == init + [last];
      EventsAppendOne(parse, init, last);
    }
  }

  lemma FrameNameIsClean<J>(parse: string -> Option<J>, frame: string)
    ensures forall i :: 0 <= i < |FrameEvents(parse, frame)| ==> IsName(FrameEvents(parse, frame)[i].name)
  {
    LinesAreOneLine(frame);
    NamesAreClean(SplitLines(frame));
  }

  lemma CallbackNamesAreClean<J>(parse: string -> Option<J>, text: string)
    ensures forall i :: 0 <= i < |Callbacks(parse, text)| ==> IsName(Callbacks(parse, text)[i].name)
  {
    EventNamesAreClean(parse, Frames(text));
    FrameNameIsClean(parse, Remainder(text));
  }

  lemma EncodedText<J(!new)>(stringify: J -> string, parse: string -> Option<J>, events: seq<Event<J>>)
    requires IsCodec(stringify, parse) && forall i :: 0 <= i < |events| ==> IsName(events[i].name)
    ensures Frames(EncodeSse(stringify, events)) == Bodies(stringify, events)
    ensures Remainder(EncodeSse(stringify, events)) == ""
  {
    forall i | 0 <= i < |events| ensures OneLine(events[i].name) && IsPrinted(stringify(events[i].payload)) {
      assert parse(stringify(events[i].payload)) == Some(events[i].payload);
    }
    FramesOfEncoded(stringify, events);
  }

  lemma NothingFlushed<J>(parse: string -> Option<J>, text: string)
    requires Remainder(text) == ""
    ensures Callbacks(parse, text) == EventsOf(parse, Frames(text))
  {
    assert Trim("") == "";
  }

  lemma CleanNamesComeBack<J(!new)>(stringify: J -> string, parse: string -> Option<J>, events: seq<Event<J>>)
    requires IsCodec(stringify, parse) && forall i :: 0 <= i < |events| ==> IsName(events[i].name)
    ensures Callbacks(parse, EncodeSse(stringify, events)) == events
  {
    EncodedText(stringify, parse, events);
    NothingFlushed(parse, EncodeSse(stringify, events));
    BodiesComeBack(stringify, parse, events);
  }

  /** What is printed is read back, whatever the reads, exactly when every name is trimmed and on one
    * line: `ConsumeSse` makes the callbacks of the concatenated text. */
  lemma PrintedThenRead<J(!new)>(stringify: J -> string, parse: string -> Option<J>, events: seq<Event<J>>)
    requires IsCodec(stringify, parse)
    ensures Callbacks(parse, EncodeSse(stringify, events)) == events
        <==> forall i :: 0 <= i < |events| ==> IsName(events[i].name)
  {
    CallbackNamesAreClean(parse, EncodeSse(stringify, events));
    if forall i :: 0 <= i < |events| ==> IsName(events[i].name) {
      CleanNamesComeBack(stringify, parse, events);
    }
  }

  /** Where every newline follows a carriage return there is no blank line in the sense of this parser:
    * however many events such a text holds for the WHATWG HTML Standard (section 9.2), here they are
    * one frame, and at most one callback is made, at the end of the body. */
  lemma CarriageReturnsHideFrames<J>(parse: string -> Option<J>, text: string)
    requires forall i :: 0 <= i < |text| && text[i] == '\n' ==> i > 0 && text[i - 1] == '\r'
    ensures Frames(text) == [] && |Callbacks(parse, text)| <= 1
  {
    forall i: nat | i + 1 < |text| ensures !IsBreak(text, i) {
      assert text[i + 1] == '\n' ==> text[i + 1 - 1] == '\r';
    }
  }
}
