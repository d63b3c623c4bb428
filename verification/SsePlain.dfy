/** The frames that `consumeSse` and the WHATWG HTML Standard (section 9.2.6) interpret alike. */
module SsePlain {
  import opened SseText
  import opened SseStream
  import opened SseStandard
  import opened SseAgreement

  /** What this reader takes from a line. */
  function Take(raw: string): Field {
    var line := Line(raw);
    if IsEventLine(line) then EventField(Trim(line[6..]))
    else if IsDataLine(line) then DataField(Trim(line[5..]))
    else Ignored
  }

  function Taken(lines: seq<string>): seq<Field> {
    seq(|lines|, i requires 0 <= i < |lines| => Take(lines[i]))
  }

  function NameIn(ours: seq<Field>): string {
    if ours == [] then "message" else
    match ours[|ours| - 1]
    case EventField(value) => value
    case _ => NameIn(ours[..|ours| - 1])
  }

  function DataIn(ours: seq<Field>): string {
    if ours == [] then "" else
    DataIn(ours[..|ours| - 1]) + (match ours[|ours| - 1] case DataField(value) => value case _ => "")
  }

  lemma FieldsInit(lines: seq<string>)
    requires lines != []
    ensures Taken(lines)[..|lines| - 1] == Taken(lines[..|lines| - 1])
    ensures Fields(lines)[..|lines| - 1] == Fields(lines[..|lines| - 1])
  {
  }

  lemma DataHasNoName(line: string)
    requires IsEventLine(line)
    ensures !IsDataLine(line)
  {
    assert line[0] == 'e';
  }

  lemma {:induction false} NameIsTaken(lines: seq<string>)
    ensures NameOf(lines) == NameIn(Taken(lines))
  {
    if lines != [] {
      FieldsInit(lines);
      NameIsTaken(lines[..|lines| - 1]);
      assert Taken(lines)[|lines| - 1] == Take(lines[|lines| - 1]);
    }
  }

  lemma DataOfLine(raw: string)
    ensures (match Take(raw) case DataField(value) => value case _ => "")
         == (if IsDataLine(Line(raw)) then Trim(Line(raw)[5..]) else "")
  {
    if IsEventLine(Line(raw)) {
      DataHasNoName(Line(raw));
    }
  }

  lemma {:induction false} DataIsTaken(lines: seq<string>)
    ensures DataOf(lines) == DataIn(Taken(lines))
  {
    if lines != [] {
      FieldsInit(lines);
      DataIsTaken(lines[..|lines| - 1]);
      DataOfLine(lines[|lines| - 1]);
    }
  }

  lemma TakenIsRead(lines: seq<string>)
    ensures NameOf(lines) == NameIn(Taken(lines)) && DataOf(lines) == DataIn(Taken(lines))
  {
    NameIsTaken(lines);
    DataIsTaken(lines);
  }

  // ------------------------------------------------------------ one line

  function Value(field: Field): string {
    match field
    case EventField(value) => value
    case DataField(value) => value
    case _ => ""
  }

  predicate Spaced(s: string) {
    s == "" || IsSpace(s[0])
  }

  /** The standard's value and this reader's, which is the first one trimmed. */
  predicate Cut(v: string, t: string) {
    Trimmed(t) && OneLine(t) && (Trimmed(v) ==> t == v) && (t == "" ==> Spaced(v))
  }

  /** This reader sees the fields that have a colon. */
  predicate Fits(theirs: Field, ours: Field) {
    && !ours.Blank?
    && (ours.EventField? ==> theirs.EventField?)
    && (ours.DataField? ==> theirs.DataField?)
    && (ours.Ignored? ==> Value(theirs) == "")
    && Cut(Value(theirs), Value(ours))
  }

  predicate PlainLine(line: string) {
    OneLine(line) && NoReturns(line)
  }

  lemma {:induction false} TrimEndKeepsFirst(s: string)
    requires s != "" && !IsSpace(s[0])
    ensures TrimEnd(s) != ""
    decreases |s|
  {
    if IsSpace(s[|s| - 1]) {
      TrimEndKeepsFirst(s[..|s| - 1]);
    }
  }

  lemma TrimStripped(v: string)
    ensures Trim(StripSpace(v)) == Trim(v)
  {
    if " " <= v {
      assert v[0] == ' ';
    }
  }

  lemma StripThenTrim(v: string)
    requires OneLine(v)
    ensures Cut(StripSpace(v), Trim(v))
  {
    var stripped := StripSpace(v);
    TrimStripped(v);
    TrimKeepsOneLine(v);
    if stripped != "" && !IsSpace(stripped[0]) {
      TrimEndKeepsFirst(stripped);
    }
  }

  lemma NothingToDrop(line: string)
    requires NoReturns(line)
    ensures Line(line) == line
  {
    if line != "" {
      assert line[|line| - 1] in line;
    }
  }

  lemma EventLine(line: string)
    requires IsEventLine(line) && NoReturns(line)
    ensures Classify(line) == EventField(StripSpace(line[6..])) && Take(line) == EventField(Trim(line[6..]))
  {
    NothingToDrop(line);
    assert |line| >= 6;
  }

  lemma DataLine(line: string)
    requires IsDataLine(line) && NoReturns(line)
    ensures Classify(line) == DataField(StripSpace(line[5..])) && Take(line) == DataField(Trim(line[5..]))
  {
    NothingToDrop(line);
    assert |line| >= 5 && line[0] == 'd';
    assert line != "event" && line != "data";
    if IsEventLine(line) {
      DataHasNoName(line);
    }
  }

  lemma OtherLine(line: string)
    requires !IsEventLine(line) && !IsDataLine(line) && NoReturns(line)
    ensures Take(line) == Ignored && Value(Classify(line)) == ""
  {
    NothingToDrop(line);
  }

  lemma TailIsOneLine(line: string, from: nat)
    requires OneLine(line) && from <= |line|
    ensures OneLine(line[from..])
  {
  }

  lemma CutFits(v: string, t: string)
    requires Cut(v, t)
    ensures Fits(EventField(v), EventField(t)) && Fits(DataField(v), DataField(t))
  {
  }

  lemma IgnoredFits(theirs: Field)
    requires Value(theirs) == ""
    ensures Fits(theirs, Ignored)
  {
  }

  lemma LineFits(line: string)
    requires PlainLine(line)
    ensures Fits(Classify(line), Take(line))
  {
    if IsEventLine(line) {
      EventLine(line);
      TailIsOneLine(line, 6);
      StripThenTrim(line[6..]);
      CutFits(StripSpace(line[6..]), Trim(line[6..]));
    } else if IsDataLine(line) {
      DataLine(line);
      TailIsOneLine(line, 5);
      StripThenTrim(line[5..]);
      CutFits(StripSpace(line[5..]), Trim(line[5..]));
    } else {
      OtherLine(line);
      IgnoredFits(Classify(line));
    }
  }

  // ------------------------------------------------------------- all lines

  predicate PlainLines(lines: seq<string>) {
    lines == [] || (PlainLine(lines[|lines| - 1]) && PlainLines(lines[..|lines| - 1]))
  }

  predicate Matched(theirs: seq<Field>, ours: seq<Field>) {
    && |theirs| == |ours|
    && (theirs == [] || (Fits(theirs[|theirs| - 1], ours[|ours| - 1])
                         && Matched(theirs[..|theirs| - 1], ours[..|ours| - 1])))
  }

  lemma {:induction false} LinesMatch(lines: seq<string>)
    requires PlainLines(lines)
    ensures Matched(Fields(lines), Taken(lines))
  {
    if lines != [] {
      FieldsInit(lines);
      LineFits(lines[|lines| - 1]);
      LinesMatch(lines[..|lines| - 1]);
    }
  }

  /** The last event field has a colon and a trimmed value that is not empty; or it has no colon and this
    * reader has found no other name before it; or there is none. */
  predicate NamesAgree(theirs: seq<Field>, ours: seq<Field>)
    requires |theirs| == |ours|
  {
    if theirs == [] then true else
    var n := |theirs| - 1;
    match theirs[n]
    case EventField(v) => if ours[n].EventField? then Trimmed(v) && v != "" else NameIn(ours) == "message"
    case _ => NamesAgree(theirs[..n], ours[..n])
  }

  lemma {:induction false} NamesAgreeExactly(theirs: seq<Field>, ours: seq<Field>)
    requires Matched(theirs, ours)
    ensures NameIn(ours) == (if TypeBuffer(theirs) == "" then "message" else TypeBuffer(theirs))
       <==> NamesAgree(theirs, ours)
  {
    if theirs != [] && !theirs[|theirs| - 1].EventField? {
      NamesAgreeExactly(theirs[..|theirs| - 1], ours[..|ours| - 1]);
    }
  }

  function DataValues(theirs: seq<Field>): seq<string> {
    if theirs == [] then [] else
    DataValues(theirs[..|theirs| - 1]) + (match theirs[|theirs| - 1] case DataField(value) => [value] case _ => [])
  }

  lemma {:induction false} NoValue(theirs: seq<Field>, ours: seq<Field>)
    requires Matched(theirs, ours) && DataValues(theirs) == []
    ensures DataBuffer(theirs) == "" && DataIn(ours) == ""
  {
    if theirs != [] {
      NoValue(theirs[..|theirs| - 1], ours[..|ours| - 1]);
    }
  }

  lemma {:induction false} OneValue(theirs: seq<Field>, ours: seq<Field>)
    requires Matched(theirs, ours) && |DataValues(theirs)| == 1
    ensures DataBuffer(theirs) == DataValues(theirs)[0] + "\n" && Cut(DataValues(theirs)[0], DataIn(ours))
  {
    var n := |theirs| - 1;
    if theirs[n].DataField? {
      NoValue(theirs[..n], ours[..n]);
      assert DataIn(ours) == Value(ours[n]);
    } else {
      OneValue(theirs[..n], ours[..n]);
    }
  }

  lemma {:induction false} SomeValue(theirs: seq<Field>)
    requires |DataValues(theirs)| >= 1
    ensures var buffer := DataBuffer(theirs); buffer != "" && buffer[|buffer| - 1] == '\n'
  {
    if !theirs[|theirs| - 1].DataField? {
      SomeValue(theirs[..|theirs| - 1]);
    }
  }

  lemma MoreBehind(before: string, value: string)
    requires before != "" && before[|before| - 1] == '\n'
    ensures var buffer := before + (value + "\n"); !OneLine(buffer[..|buffer| - 1])
  {
    var buffer := before + (value + "\n");
    assert buffer[..|buffer| - 1][|before| - 1] == before[|before| - 1];
  }

  lemma {:induction false} ManyValues(theirs: seq<Field>)
    requires |DataValues(theirs)| >= 2
    ensures var buffer := DataBuffer(theirs); buffer != "" && !OneLine(buffer[..|buffer| - 1])
  {
    var init, last := theirs[..|theirs| - 1], theirs[|theirs| - 1];
    if last.DataField? {
      SomeValue(init);
      MoreBehind(DataBuffer(init), last.value);
    } else {
      ManyValues(init);
      assert DataBuffer(theirs) == DataBuffer(init);
    }
  }

  lemma {:induction false} DataIsOneLine(theirs: seq<Field>, ours: seq<Field>)
    requires Matched(theirs, ours)
    ensures OneLine(DataIn(ours))
  {
    if theirs != [] {
      DataIsOneLine(theirs[..|theirs| - 1], ours[..|ours| - 1]);
    }
  }

  // ------------------------------------------------------------- one frame

  /** A frame with no data field, or with one whose value is trimmed and not empty, under a name both
    * readers take alike. */
  predicate Plain(lines: seq<string>) {
    var values := DataValues(Fields(lines));
    || |values| == 0
    || (|values| == 1 && Trimmed(values[0]) && values[0] != "" && NamesAgree(Fields(lines), Taken(lines)))
  }

  lemma FieldsAgreeExactly(theirs: seq<Field>, ours: seq<Field>)
    requires Matched(theirs, ours)
    ensures var values, data := DataValues(theirs), DataIn(ours);
      (if data == "" then [] else [Raw(NameIn(ours), data)]) == Dispatch(theirs)
      <==> || |values| == 0
           || (|values| == 1 && Trimmed(values[0]) && values[0] != "" && NamesAgree(theirs, ours))
  {
    NamesAgreeExactly(theirs, ours);
    var values, buffer := DataValues(theirs), DataBuffer(theirs);
    if |values| == 0 {
      NoValue(theirs, ours);
    } else if |values| == 1 {
      OneValue(theirs, ours);
      assert buffer[..|buffer| - 1] == values[0];
    } else {
      ManyValues(theirs);
      DataIsOneLine(theirs, ours);
    }
  }

  /** The two readers make the same of a frame if and only if it is plain. */
  lemma FrameAgreesExactly(lines: seq<string>)
    requires PlainLines(lines)
    ensures RawOf(lines) == Dispatch(Fields(lines)) <==> Plain(lines)
  {
    LinesMatch(lines);
    TakenIsRead(lines);
    FieldsAgreeExactly(Fields(lines), Taken(lines));
  }

  // ------------------------------------------- where they differ, they differ at once

  /** The data starts with a character that is not white space. */
  predicate Solid(r: Raw) {
    !Spaced(r.data)
  }

  lemma {:induction false} DataIsSolid(theirs: seq<Field>, ours: seq<Field>)
    requires Matched(theirs, ours) && DataIn(ours) != ""
    ensures !Spaced(DataIn(ours))
  {
    var n := |theirs| - 1;
    if DataIn(ours[..n]) != "" {
      DataIsSolid(theirs[..n], ours[..n]);
    }
  }

  /** Where this reader finds no data, the standard's starts with white space, if it is not empty. */
  lemma {:induction false} NoDataIsSpaced(theirs: seq<Field>, ours: seq<Field>)
    requires Matched(theirs, ours) && DataIn(ours) == ""
    ensures Spaced(DataBuffer(theirs))
  {
    if theirs != [] {
      var n := |theirs| - 1;
      NoDataIsSpaced(theirs[..n], ours[..n]);
      if theirs[n].DataField? {
        assert Spaced(Value(theirs[n]) + "\n");
      }
    }
  }

  lemma RawIsSolid(lines: seq<string>)
    requires PlainLines(lines) && RawOf(lines) != []
    ensures Solid(RawOf(lines)[0])
  {
    LinesMatch(lines);
    TakenIsRead(lines);
    DataIsSolid(Fields(lines), Taken(lines));
  }

  /** A frame only the standard finds data in has none that starts like this reader's. */
  lemma OnlyTheirs(lines: seq<string>)
    requires PlainLines(lines) && RawOf(lines) == []
    ensures Dispatch(Fields(lines)) == [] || !Solid(Dispatch(Fields(lines))[0])
  {
    LinesMatch(lines);
    TakenIsRead(lines);
    NoDataIsSpaced(Fields(lines), Taken(lines));
  }

  lemma OursIsTheirs(lines: seq<string>)
    requires PlainLines(lines) && RawOf(lines) != []
    ensures Dispatch(Fields(lines)) != []
  {
    LinesMatch(lines);
    TakenIsRead(lines);
    if DataValues(Fields(lines)) == [] {
      NoValue(Fields(lines), Taken(lines));
    } else {
      SomeValue(Fields(lines));
    }
  }
}
