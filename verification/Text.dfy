/** String operations of the standard library that more than one component uses. */
module Text {
  import opened Wrappers

  /** `sep.join(parts)`. */
  function Join(sep: string, parts: seq<string>): string {
    if parts == [] then ""
    else if |parts| == 1 then parts[0]
    else parts[0] + sep + Join(sep, parts[1..])
  }

  lemma {:induction false} JoinAppend(sep: string, parts: seq<string>, last: string)
    requires parts != []
    ensures Join(sep, parts + [last]) == Join(sep, parts) + sep + last
    decreases |parts|
  {
    var all := parts + [last];
    if |parts| == 1 {
      assert all[1..] == [last];
    } else {
      assert all[1..] == parts[1..] + [last];
      JoinAppend(sep, parts[1..], last);
      var tail := Join(sep, parts[1..]);
      assert parts[0] + sep + (tail + sep + last) == parts[0] + sep + tail + sep + last;
    }
  }

  predicate IsBreak(c: char) {
    c == '\n' || c == '\r'
  }

  /** The first line break at or after `i`, or the end. */
  function BreakAt(s: string, i: nat): (j: nat)
    requires i <= |s|
    ensures i <= j <= |s| && (j < |s| ==> IsBreak(s[j]))
    ensures forall k :: i <= k < j ==> !IsBreak(s[k])
    decreases |s| - i
  {
    if i == |s| || IsBreak(s[i]) then i else BreakAt(s, i + 1)
  }

  /** Where the line after the break at `i` starts: a CR and its LF are one break. */
  function AfterBreak(s: string, i: nat): nat
    requires i < |s|
  {
    if s[i] == '\r' && i + 1 < |s| && s[i + 1] == '\n' then i + 2 else i + 1
  }

  /** `s.splitlines()` of a byte string. */
  function SplitLines(s: string): seq<string>
    decreases |s|
  {
    if s == "" then []
    else
      var i := BreakAt(s, 0);
      if i == |s| then [s] else [s[..i]] + SplitLines(s[AfterBreak(s, i)..])
  }

  /** The first line, and the text after its break: LF, CR or both. */
  ghost predicate IsFirstLine(s: string, line: string, rest: string) {
    && (forall i :: 0 <= i < |line| ==> line[i] != '\n' && line[i] != '\r')
    && (s == line + "\n" + rest || s == line + "\r\n" + rest
        || (s == line + "\r" + rest && (rest == "" || rest[0] != '\n')))
  }

  /** The lines of a text: the last one need not end in a break. */
  ghost predicate AreLines(s: string, lines: seq<string>)
    decreases |lines|
  {
    if lines == [] then s == ""
    else if |lines| == 1 && s == lines[0] then
      s != "" && forall i :: 0 <= i < |s| ==> s[i] != '\n' && s[i] != '\r'
    else exists rest :: IsFirstLine(s, lines[0], rest) && AreLines(rest, lines[1..])
  }

  lemma {:induction false} SplitLinesAreLines(s: string)
    ensures AreLines(s, SplitLines(s))
    decreases |s|
  {
    if s != "" {
      var i := BreakAt(s, 0);
      if i < |s| {
        var rest := FirstLineOf(s, i);
        SplitLinesAreLines(rest);
        assert SplitLines(s)[1..] == SplitLines(rest);
        hide SplitLines, IsFirstLine;
        assert |SplitLines(s)| == 1 ==> |s| != |SplitLines(s)[0]|;
      }
    }
  }

  lemma FirstLineOf(s: string, i: nat) returns (rest: string)
    requires i == BreakAt(s, 0) < |s|
    ensures |rest| < |s| && SplitLines(s) == [s[..i]] + SplitLines(rest) && IsFirstLine(s, s[..i], rest)
  {
    var k := AfterBreak(s, i);
    rest := s[k..];
    assert forall j :: 0 <= j < i ==> s[j] != '\n' && s[j] != '\r';
    assert IsBreak(s[i]);
    hide SplitLines, BreakAt;
    assert s == s[..i] + s[i..k] + rest;
    assert k == i + 1 ==> s[i..k] == [s[i]];
    assert k == i + 2 ==> s[i..k] == [s[i], s[i + 1]];
  }

  /** `_JoinLines` of device_utils.py: every line terminated. */
  function JoinLines(lines: seq<string>): string {
    if lines == [] then "" else lines[0] + "\n" + JoinLines(lines[1..])
  }

  lemma OneLine(s: string)
    requires s != "" && forall i :: 0 <= i < |s| ==> !IsBreak(s[i])
    ensures JoinLines(SplitLines(s)) == s + "\n"
  {
    assert BreakAt(s, 0) == |s|;
    assert SplitLines(s) == [s];
    assert [s][1..] == [];
  }

  // A string that a parser builds up; None until it has begun.

  function SoFar(current: Option<string>): string {
    if current.Some? then current.value else ""
  }

  function Extend(current: Option<string>, s: string): Option<string> {
    if s == "" then current else Some(SoFar(current) + s)
  }

  lemma ExtendOne(current: Option<string>, s: string, c: char)
    ensures Some(SoFar(Extend(current, s)) + [c]) == Extend(current, s + [c])
  {
    if s == "" {
      assert s + [c] == [c];
    } else {
      assert SoFar(current) + s + [c] == SoFar(current) + (s + [c]);
    }
  }
}
