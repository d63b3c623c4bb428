/** The string operations `consumeSse` is written with (src/hooks/useChat.ts:660-704). */
module SseText {
  predicate IsBreak(s: string, i: nat) {
    i + 1 < |s| && s[i] == '\n' && s[i + 1] == '\n'
  }

  /** `s.indexOf('\n\n', from)`: the first blank line at or behind `from`. */
  function FindBreak(s: string, from: nat): (r: int)
    ensures r == -1 || (from <= r && IsBreak(s, r))
    ensures forall i :: from <= i && (r < 0 || i < r) ==> !IsBreak(s, i)
    decreases |s| - from
  {
    if from + 1 >= |s| then -1
    else if IsBreak(s, from) then from
    else FindBreak(s, from + 1)
  }

  function IndexOfBreak(s: string): (r: int)
    ensures r == -1 || (0 <= r && IsBreak(s, r))
  {
    FindBreak(s, 0)
  }

  /** The first blank line is where one is and none is before. */
  lemma FirstBreak(s: string, r: nat)
    requires IsBreak(s, r) && forall i: nat :: i < r ==> !IsBreak(s, i)
    ensures IndexOfBreak(s) == r
  {
  }

  predicate OneLine(s: string) {
    '\n' !in s
  }

  /** `s.split('\n')`. */
  function SplitLines(s: string): (lines: seq<string>)
    ensures |lines| > 0
  {
    if s == "" then [""] else
    var rest := SplitLines(s[1..]);
    if s[0] == '\n' then [""] + rest else [[s[0]] + rest[0]] + rest[1..]
  }

  lemma {:induction false} LinesAreOneLine(s: string)
    ensures forall i :: 0 <= i < |SplitLines(s)| ==> OneLine(SplitLines(s)[i])
  {
    if s != "" {
      LinesAreOneLine(s[1..]);
    }
  }

  lemma {:induction false} SplitOneLine(s: string)
    requires OneLine(s)
    ensures SplitLines(s) == [s]
  {
    if s != "" {
      SplitOneLine(s[1..]);
      assert [s[0]] + s[1..] == s;
    }
  }

  lemma {:induction false} SplitJoins(a: string, b: string)
    ensures SplitLines(a + "\n" + b) == SplitLines(a) + SplitLines(b)
  {
    var s := a + "\n" + b;
    if a == "" {
      assert s[1..] == b;
    } else {
      assert s[1..] == a[1..] + "\n" + b;
      SplitJoins(a[1..], b);
    }
  }

  lemma SplitAtNewline(a: string, b: string)
    requires OneLine(a)
    ensures SplitLines(a + "\n" + b) == [a] + SplitLines(b)
  {
    SplitJoins(a, b);
    SplitOneLine(a);
  }

  /** The white space and line terminators `trim` removes (ECMA-262, String.prototype.trim). */
  predicate IsSpace(c: char) {
    || '\U{0009}' <= c <= '\U{000D}'
    || c in {' ', '\U{00A0}', '\U{1680}', '\U{2028}', '\U{2029}', '\U{202F}', '\U{205F}', '\U{3000}', '\U{FEFF}'}
    || '\U{2000}' <= c <= '\U{200A}'
  }

  function TrimStart(s: string): (r: string)
    ensures |r| <= |s| && r == s[|s| - |r|..]
    ensures r == "" || !IsSpace(r[0])
    ensures s != "" && !IsSpace(s[0]) ==> r == s
  {
    if s != "" && IsSpace(s[0]) then TrimStart(s[1..]) else s
  }

  function TrimEnd(s: string): (r: string)
    ensures |r| <= |s| && r == s[..|r|]
    ensures r == "" || !IsSpace(r[|r| - 1])
    ensures s != "" && !IsSpace(s[|s| - 1]) ==> r == s
  {
    if s != "" && IsSpace(s[|s| - 1]) then TrimEnd(s[..|s| - 1]) else s
  }

  predicate Trimmed(s: string) {
    s == "" || (!IsSpace(s[0]) && !IsSpace(s[|s| - 1]))
  }

  function Trim(s: string): (r: string)
    ensures Trimmed(r)
    ensures Trimmed(s) ==> r == s
  {
    TrimEnd(TrimStart(s))
  }

  lemma TrimKeepsOneLine(s: string)
    requires OneLine(s)
    ensures OneLine(Trim(s))
  {
  }

  lemma TrimAfterSpace(s: string)
    requires Trimmed(s)
    ensures Trim(" " + s) == s
  {
    var spaced := " " + s;
    assert spaced[0] == ' ' && spaced[1..] == s;
    assert TrimStart(spaced) == TrimStart(s) == s;
  }

  /** `line.replace(/\r$/, '')`. */
  function DropCarriageReturn(s: string): string
  {
    if s != "" && s[|s| - 1] == '\r' then s[..|s| - 1] else s
  }
}
