/** How a reader that follows section 9.2.6 of the WHATWG HTML Standard interprets an event stream, and
  * on which texts `consumeSse` (src/hooks/useChat.ts:660-704) does the same. */
module SseStandard {
  import opened Options
  import opened SseText
  import opened SseStream

  /** An event before its data is parsed. */
  datatype Raw = Raw(name: string, data: string)

  // ---------------------------------------------------------- the standard

  /** What a line means: the part before its first colon must be exactly the field's name, and one space
    * behind the colon is not part of the value. */
  datatype Field = Blank | Ignored | EventField(value: string) | DataField(value: string)

  function StripSpace(v: string): string {
    if " " <= v then v[1..] else v
  }

  function Classify(line: string): Field {
    if line == "" then Blank
    else if line == "event" then EventField("")
    else if IsEventLine(line) then EventField(StripSpace(line[6..]))
    else if line == "data" then DataField("")
    else if IsDataLine(line) then DataField(StripSpace(line[5..]))
    else Ignored
  }

  function Fields(lines: seq<string>): seq<Field> {
    seq(|lines|, i requires 0 <= i < |lines| => Classify(lines[i]))
  }

  /** The event type buffer behind the fields of a block: the last event field. */
  function TypeBuffer(block: seq<Field>): string {
    if block == [] then "" else
    match block[|block| - 1]
    case EventField(value) => value
    case _ => TypeBuffer(block[..|block| - 1])
  }

  /** The data buffer: every data field, each followed by a line feed. */
  function DataBuffer(block: seq<Field>): string {
    if block == [] then "" else
    DataBuffer(block[..|block| - 1]) + (match block[|block| - 1] case DataField(value) => value + "\n" case _ => "")
  }

  /** Dispatch at a blank line: nothing without data; else the data without its last line feed. */
  function Dispatch(block: seq<Field>): (events: seq<Raw>)
    ensures |events| <= 1
  {
    var data, name := DataBuffer(block), TypeBuffer(block);
    if data == "" then [] else [Raw(if name == "" then "message" else name, data[..|data| - 1])]
  }

  /** The stream line by line; what is pending at its end is discarded. */
  function Interpret(lines: seq<Field>, block: seq<Field>): seq<Raw> {
    if lines == [] then []
    else if lines[0].Blank? then Dispatch(block) + Interpret(lines[1..], [])
    else Interpret(lines[1..], block + [lines[0]])
  }

  /** CR LF and CR end a line as LF does. */
  function UniversalNewlines(text: string): string {
    if text == "" then ""
    else if "\r\n" <= text then "\n" + UniversalNewlines(text[2..])
    else if text[0] == '\r' then "\n" + UniversalNewlines(text[1..])
    else [text[0]] + UniversalNewlines(text[1..])
  }

  /** The lines that have ended. */
  function EndedLines(text: string): seq<string> {
    var lines := SplitLines(text);
    lines[..|lines| - 1]
  }

  function StandardEvents(text: string): seq<Raw> {
    Interpret(Fields(EndedLines(UniversalNewlines(text))), [])
  }

  // ------------------------------------------------------------- this reader

  function RawOf(lines: seq<string>): (events: seq<Raw>)
    ensures |events| <= 1
  {
    var data := DataOf(lines);
    if data == "" then [] else [Raw(NameOf(lines), data)]
  }

  function RawOfFrames(frames: seq<string>): seq<Raw> {
    if frames == [] then [] else RawOf(SplitLines(frames[0])) + RawOfFrames(frames[1..])
  }

  function RawFlushed(rest: string): (events: seq<Raw>)
    ensures |events| <= 1
  {
    if Trim(rest) != "" then RawOf(SplitLines(rest)) else []
  }

  function RawEvents(text: string): seq<Raw> {
    RawOfFrames(Frames(text)) + RawFlushed(Remainder(text))
  }

  function Parsed<J>(parse: string -> Option<J>, events: seq<Raw>): seq<Event<J>> {
    if events == [] then []
    else (match parse(events[0].data) case None => [] case Some(payload) => [Event(events[0].name, payload)])
         + Parsed(parse, events[1..])
  }

  lemma {:induction false} ParsedAppends<J>(parse: string -> Option<J>, a: seq<Raw>, b: seq<Raw>)
    ensures Parsed(parse, a + b) == Parsed(parse, a) + Parsed(parse, b)
    decreases |a|
  {
    if a == [] {
      assert a + b == b;
    } else {
      assert (a + b)[1..] == a[1..] + b;
      ParsedAppends(parse, a[1..], b);
    }
  }

  lemma FrameIsParsed<J>(parse: string -> Option<J>, frame: string)
    ensures FrameEvents(parse, frame) == Parsed(parse, RawOf(SplitLines(frame)))
  {
    var raw := RawOf(SplitLines(frame));
    if raw != [] {
      assert raw[1..] == [] && Parsed(parse, raw[1..]) == [];
    }
  }

  lemma {:induction false} FramesAreParsed<J>(parse: string -> Option<J>, frames: seq<string>)
    ensures EventsOf(parse, frames) == Parsed(parse, RawOfFrames(frames))
    decreases |frames|
  {
    if frames != [] {
      var first, rest := RawOf(SplitLines(frames[0])), RawOfFrames(frames[1..]);
      FramesAreParsed(parse, frames[1..]);
      FrameIsParsed(parse, frames[0]);
      EventsFirst(parse, frames[0], frames[1..]);
      assert frames == [frames[0]] + frames[1..];
      ParsedAppends(parse, first, rest);
    }
  }

  /** The callbacks of `consumeSse` are its raw events, parsed. */
  lemma CallbacksAreParsed<J>(parse: string -> Option<J>, text: string)
    ensures Callbacks(parse, text) == Parsed(parse, RawEvents(text))
  {
    FramesAreParsed(parse, Frames(text));
    FrameIsParsed(parse, Remainder(text));
    ParsedAppends(parse, RawOfFrames(Frames(text)), RawFlushed(Remainder(text)));
  }
}
