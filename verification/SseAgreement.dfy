/** Frame by frame, `consumeSse` against the WHATWG HTML Standard, section 9.2.6. */
module SseAgreement {
  import opened SseText
  import opened SseStream
  import opened SseStandard

  // -------------------------------------- the standard reads the same frames

  ghost predicate NonBlank(fields: seq<Field>) {
    forall i :: 0 <= i < |fields| ==> !fields[i].Blank?
  }

  /** No blank line but perhaps the first. */
  ghost predicate BlankAtMostFirst(lines: seq<string>) {
    forall i :: 0 < i < |lines| ==> lines[i] != ""
  }

  /** No two line feeds in a row, and none at the end. */
  ghost predicate Unbroken(s: string) {
    (forall i: nat :: !IsBreak(s, i)) && (s != "" ==> s[|s| - 1] != '\n')
  }

  lemma {:induction false} UnbrokenLines(s: string)
    requires Unbroken(s)
    ensures BlankAtMostFirst(SplitLines(s))
    ensures s != "" && s[0] != '\n' ==> SplitLines(s)[0] != ""
  {
    if s != "" {
      var rest := s[1..];
      forall i: nat ensures !IsBreak(rest, i) {
        assert !IsBreak(s, i + 1);
      }
      UnbrokenLines(rest);
      if s[0] == '\n' {
        assert !IsBreak(s, 0);
      }
    }
  }

  lemma {:induction false} NonBlankPasses(fields: seq<Field>, more: seq<Field>, block: seq<Field>)
    requires NonBlank(fields)
    ensures Interpret(fields + more, block) == Interpret(more, block + fields)
    decreases |fields|
  {
    if fields == [] {
      assert fields + more == more && block + fields == block;
    } else {
      assert (fields + more)[1..] == fields[1..] + more;
      NonBlankPasses(fields[1..], more, block + [fields[0]]);
      assert block + [fields[0]] + fields[1..] == block + fields;
    }
  }

  lemma {:induction false} LeadingBlank(fields: seq<Field>)
    ensures DataBuffer([Blank] + fields) == DataBuffer(fields) && TypeBuffer([Blank] + fields) == TypeBuffer(fields)
    decreases |fields|
  {
    if fields == [] {
      assert [Blank] + fields == [Blank] && [Blank][..0] == [];
    } else {
      assert ([Blank] + fields)[..|fields|] == [Blank] + fields[..|fields| - 1];
      LeadingBlank(fields[..|fields| - 1]);
    }
  }

  lemma AtBlankLine(more: seq<Field>, block: seq<Field>)
    ensures Interpret([Blank] + more, block) == Dispatch(block) + Interpret(more, [])
  {
    assert ([Blank] + more)[1..] == more;
  }

  lemma BlockEnds(fields: seq<Field>, more: seq<Field>)
    requires NonBlank(fields)
    ensures Interpret(fields + ([Blank] + more), []) == Dispatch(fields) + Interpret(more, [])
  {
    NonBlankPasses(fields, [Blank] + more, []);
    assert [] + fields == fields;
    AtBlankLine(more, fields);
  }

  lemma PendingIsDropped(fields: seq<Field>)
    requires NonBlank(fields)
    ensures Interpret(fields, []) == []
  {
    NonBlankPasses(fields, [], []);
    assert fields + [] == fields;
  }

  lemma FieldsAppend(a: seq<string>, b: seq<string>)
    ensures Fields(a + b) == Fields(a) + Fields(b)
  {
  }

  lemma BlankField(line: string)
    ensures Classify(line).Blank? <==> line == ""
  {
  }

  lemma NonBlankLines(lines: seq<string>)
    requires forall i :: 0 <= i < |lines| ==> lines[i] != ""
    ensures NonBlank(Fields(lines))
  {
    forall i | 0 <= i < |lines| ensures !Fields(lines)[i].Blank? {
      BlankField(lines[i]);
    }
  }

  /** A leading blank line, which finds nothing to dispatch, and the rest. */
  lemma LeadingLine(lines: seq<string>) returns (rest: seq<Field>)
    requires BlankAtMostFirst(lines)
    ensures NonBlank(rest) && (Fields(lines) == rest || Fields(lines) == [Blank] + rest)
  {
    if lines != [] && lines[0] == "" {
      NonBlankLines(lines[1..]);
      FieldsAppend([lines[0]], lines[1..]);
      assert lines == [lines[0]] + lines[1..];
      BlankField(lines[0]);
      assert Fields([lines[0]]) == [Blank];
      rest := Fields(lines[1..]);
    } else {
      NonBlankLines(lines);
      rest := Fields(lines);
    }
  }

  lemma NothingToDispatch()
    ensures Dispatch([]) == []
  {
  }

  /** A frame's lines and the blank line behind them: one dispatch, and a fresh start. */
  lemma FrameIsOneBlock(fields: seq<Field>, rest: seq<Field>, more: seq<Field>)
    requires NonBlank(rest) && (fields == rest || fields == [Blank] + rest)
    ensures Interpret(fields + ([Blank] + more), []) == Dispatch(fields) + Interpret(more, [])
  {
    BlockEnds(rest, more);
    if fields != rest {
      var tail := rest + ([Blank] + more);
      assert fields + ([Blank] + more) == [Blank] + tail;
      AtBlankLine(tail, []);
      NothingToDispatch();
      LeadingBlank(rest);
    }
  }

  /** Without a blank line behind it nothing is dispatched. */
  lemma PendingIsDiscarded(lines: seq<string>)
    requires BlankAtMostFirst(lines)
    ensures Interpret(Fields(lines), []) == []
  {
    var rest := LeadingLine(lines);
    PendingIsDropped(rest);
    if Fields(lines) != rest {
      AtBlankLine(rest, []);
      NothingToDispatch();
    }
  }

  /** The lines of a text without a blank line, apart from one that has not ended. */
  lemma PendingLines(text: string)
    requires IndexOfBreak(text) < 0
    ensures BlankAtMostFirst(EndedLines(text))
  {
    if text != "" && text[|text| - 1] == '\n' {
      var front := text[..|text| - 1];
      assert text == front + "\n" + "";
      forall i: nat ensures !IsBreak(front, i) {
        assert !IsBreak(text, i);
      }
      if front != "" {
        assert !IsBreak(text, |front| - 1);
      }
      SplitJoins(front, "");
      UnbrokenLines(front);
    } else {
      UnbrokenLines(text);
    }
  }

  /** The first frame of a text, cut off. */
  lemma FirstFrame(text: string)
    requires IndexOfBreak(text) >= 0
    ensures var at := IndexOfBreak(text);
      && BlankAtMostFirst(SplitLines(text[..at]))
      && EndedLines(text) == SplitLines(text[..at]) + ([""] + EndedLines(text[at + 2..]))
  {
    var at := IndexOfBreak(text);
    var frame, rest := text[..at], text[at + 2..];
    forall i: nat ensures !IsBreak(frame, i) {
      assert i < at ==> !IsBreak(text, i);
    }
    if frame != "" {
      assert !IsBreak(text, at - 1);
    }
    UnbrokenLines(frame);
    assert text == frame + "\n" + ("\n" + rest);
    SplitJoins(frame, "\n" + rest);
    assert "\n" + rest == "" + "\n" + rest;
    SplitJoins("", rest);
    assert SplitLines("") == [""];
  }

  function DispatchedFrames(frames: seq<string>): seq<Raw> {
    if frames == [] then [] else Dispatch(Fields(SplitLines(frames[0]))) + DispatchedFrames(frames[1..])
  }

  lemma FirstBlock(lines: seq<string>, more: seq<string>)
    requires BlankAtMostFirst(lines)
    ensures Interpret(Fields(lines + ([""] + more)), []) == Dispatch(Fields(lines)) + Interpret(Fields(more), [])
  {
    var rest := LeadingLine(lines);
    FieldsAppend(lines, [""] + more);
    FieldsAppend([""], more);
    BlankField("");
    assert Fields([""]) == [Blank];
    FrameIsOneBlock(Fields(lines), rest, Fields(more));
  }

  /** Line feeds only: the standard dispatches the same frames, and discards what is left. */
  lemma {:induction false} SameFrames(text: string)
    ensures Interpret(Fields(EndedLines(text)), []) == DispatchedFrames(Frames(text))
    decreases |text|
  {
    var at := IndexOfBreak(text);
    if at < 0 {
      PendingLines(text);
      PendingIsDiscarded(EndedLines(text));
    } else {
      FirstFrame(text);
      FirstBlock(SplitLines(text[..at]), EndedLines(text[at + 2..]));
      SameFrames(text[at + 2..]);
    }
  }

  predicate NoReturns(s: string) {
    '\r' !in s
  }

  lemma {:induction false} NoReturnsNoChange(text: string)
    requires NoReturns(text)
    ensures UniversalNewlines(text) == text
  {
    if text != "" {
      assert text[0] in text;
      NoReturnsNoChange(text[1..]);
      assert [text[0]] + text[1..] == text;
    }
  }
}
