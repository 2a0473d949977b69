/** The line splitter and the shell snippets of devil/utils/cmd_helper.py. */
module LineStream {
  import opened Text

  // ---------------------------------------------------------------------------------
  // Splitting a text that comes in two parts
  // ---------------------------------------------------------------------------------

  /** The text stops in the middle of a line. */
  predicate IsPartial(s: string) {
    |s| > 0 && !IsBreak(s[|s| - 1])
  }

  /** The parts tear a CR from its LF. */
  predicate Tears(a: string, b: string) {
    |a| > 0 && |b| > 0 && a[|a| - 1] == '\r' && b[0] == '\n'
  }

  /** Splitting line by line, seen at the first line of `a`. */
  lemma FirstLine(a: string, b: string)
    requires |a| > 0 && BreakAt(a, 0) < |a|
    requires AfterBreak(a, BreakAt(a, 0)) < |a| || !Tears(a, b)
    ensures
      var i := BreakAt(a, 0);
      var k := AfterBreak(a, i);
      && SplitLines(a) == [a[..i]] + SplitLines(a[k..])
      && SplitLines(a + b) == [a[..i]] + SplitLines(a[k..] + b)
  {
    var i := BreakAt(a, 0);
    var k := AfterBreak(a, i);
    BreakAtAppend(a, b, 0);
    assert (a + b)[..i] == a[..i];
    assert AfterBreak(a + b, i) == k;
    assert (a + b)[k..] == a[k..] + b;
  }

  lemma {:induction false} BreakAtAppend(a: string, b: string, i: nat)
    requires i <= |a| && BreakAt(a, i) < |a|
    ensures BreakAt(a + b, i) == BreakAt(a, i)
    decreases |a| - i
  {
    if !IsBreak(a[i]) {
      BreakAtAppend(a, b, i + 1);
    }
  }

  /** After a complete line, what follows is split by itself, unless a CR is torn from its LF. */
  lemma {:induction false} SplitComplete(a: string, b: string)
    requires !IsPartial(a)
    requires !Tears(a, b)
    ensures SplitLines(a + b) == SplitLines(a) + SplitLines(b)
    decreases |a|
  {
    hide SplitLines, BreakAt, AfterBreak;
    if |a| == 0 {
      assert a + b == b;
      NoLines(a);
    } else {
      AfterBreakBound(a);
      var i := BreakAt(a, 0);
      var k := AfterBreak(a, i);
      FirstLine(a, b);
      SplitComplete(a[k..], b);
      var head := [a[..i]];
      assert head + (SplitLines(a[k..]) + SplitLines(b)) == head + SplitLines(a[k..]) + SplitLines(b);
    }
  }

  lemma NoLines(a: string)
    requires |a| == 0
    ensures SplitLines(a) == []
  {
  }

  lemma OnlyLine(a: string)
    requires |a| > 0 && BreakAt(a, 0) == |a|
    ensures SplitLines(a) == [a]
  {
  }

  function Last(lines: seq<string>): string
    requires lines != []
  {
    lines[|lines| - 1]
  }

  function Init(lines: seq<string>): seq<string>
    requires lines != []
  {
    lines[..|lines| - 1]
  }

  /** After a partial line, what follows continues that line. */
  lemma {:induction false} SplitPartial(a: string, b: string)
    requires IsPartial(a)
    ensures SplitLines(a) != [] && IsPartial(Last(SplitLines(a)))
    ensures BreakAt(Last(SplitLines(a)), 0) == |Last(SplitLines(a))|
    ensures SplitLines(a + b) == Init(SplitLines(a)) + SplitLines(Last(SplitLines(a)) + b)
    decreases |a|
  {
    hide SplitLines;
    var i := BreakAt(a, 0);
    if i == |a| {
      OnlyLine(a);
    } else {
      var k := AfterBreak(a, i);
      FirstLine(a, b);
      SplitPartial(a[k..], b);
      var rest := SplitLines(a[k..]);
      assert Init(SplitLines(a)) == [a[..i]] + Init(rest) && Last(SplitLines(a)) == Last(rest);
    }
  }

  /** A LF that is torn from its CR adds nothing to the lines of the whole. */
  lemma {:induction false} SplitTorn(a: string, b: string)
    requires Tears(a, b)
    ensures SplitLines(a + b) == SplitLines(a) + SplitLines(b[1..])
    decreases |a|
  {
    hide SplitLines, BreakAt, AfterBreak;
    var i := BreakAt(a, 0);
    var k := AfterBreak(a, i);
    AfterBreakBound(a);
    if k < |a| {
      FirstLine(a, b);
      SplitTorn(a[k..], b);
      var head := [a[..i]];
      assert head + (SplitLines(a[k..]) + SplitLines(b[1..])) == head + SplitLines(a[k..]) + SplitLines(b[1..]);
    } else {
      TornLine(a, b);
    }
  }

  lemma AfterBreakBound(a: string)
    requires |a| > 0 && IsBreak(a[|a| - 1])
    ensures BreakAt(a, 0) < |a| && 0 < AfterBreak(a, BreakAt(a, 0)) <= |a|
  {
  }

  lemma EmptyLine(b: string)
    requires |b| > 0 && b[0] == '\n'
    ensures SplitLines(b) == [""] + SplitLines(b[1..])
  {
    assert BreakAt(b, 0) == 0;
  }

  lemma TornLine(a: string, b: string)
    requires Tears(a, b) && AfterBreak(a, BreakAt(a, 0)) == |a|
    ensures SplitLines(a + b) == SplitLines(a) + SplitLines(b[1..])
  {
    var i := BreakAt(a, 0);
    var k := AfterBreak(a, i);
    BreakAtAppend(a, b, 0);
    assert AfterBreak(a + b, i) == k + 1;
    hide BreakAt, AfterBreak;
    NoLines(a[k..]);
    assert (a + b)[..i] == a[..i] && (a + b)[k + 1..] == b[1..];
    assert [a[..i]] + [] == [a[..i]];
  }

  // ---------------------------------------------------------------------------------
  // The stream
  // ---------------------------------------------------------------------------------

  function Concat(chunks: seq<string>): string
    decreases |chunks|
  {
    if chunks == [] then "" else Concat(chunks[..|chunks| - 1]) + chunks[|chunks| - 1]
  }

  /** What the stream makes of the chunks: the line break is doubled where a CR is torn from its LF. */
  function Patched(chunks: seq<string>): string
    decreases |chunks|
  {
    if chunks == [] then ""
    else
      var done, data := Patched(chunks[..|chunks| - 1]), chunks[|chunks| - 1];
      Patch(done, data)
  }

  predicate TornAt(chunks: seq<string>, i: nat)
    requires 0 < i < |chunks|
  {
    Tears(chunks[i - 1], chunks[i])
  }

  /** How often a CR is torn from its LF. */
  function TornBreaks(chunks: seq<string>): nat
    decreases |chunks|
  {
    if |chunks| < 2 then 0
    else TornBreaks(chunks[..|chunks| - 1]) + (if TornAt(chunks, |chunks| - 1) then 1 else 0)
  }

  /** Chunks as `os.read` delivers them. */
  predicate NonEmpty(chunks: seq<string>) {
    forall i :: 0 <= i < |chunks| ==> chunks[i] != ""
  }

  function Patch(done: string, data: string): string {
    if Tears(done, data) then done + "\n" + data else done + data
  }

  /** The line that waits for its end. */
  function Pending(buffer: string): seq<string> {
    if |buffer| == 0 then [] else [buffer]
  }

  /** The text so far has been split into what was yielded and what is pending. */
  ghost predicate Splits(done: string, yielded: seq<string>, buffer: string) {
    && yielded + Pending(buffer) == SplitLines(done)
    && (if |buffer| > 0 then IsPartial(done) else !IsPartial(done))
  }

  /** What `_IterCmdOutputLines` yields, without an iteration timeout. */
  method IterCmdOutputLines(chunks: seq<string>) returns (yielded: seq<string>)
    requires NonEmpty(chunks)
    ensures yielded == SplitLines(Patched(chunks))
  {
    hide SplitLines, Splits;
    yielded := [];
    var buffer := "";
    NothingYet();
    for i := 0 to |chunks|
      invariant Splits(Patched(chunks[..i]), yielded, buffer)
    {
      var data := chunks[i];
      assert chunks[..i + 1][..i] == chunks[..i];
      Feed(Patched(chunks[..i]), data, yielded, buffer);
      buffer := buffer + data;
      var hasIncompleteLine := buffer[|buffer| - 1] !in "\r\n";
      var lines := SplitLines(buffer);
      if hasIncompleteLine {
        buffer, lines := Last(lines), Init(lines);
      } else {
        buffer := "";
      }
      yielded := yielded + lines;
    }
    assert chunks[..|chunks|] == chunks;
    Drained(Patched(chunks), yielded, buffer);
    if buffer != "" {
      yielded := yielded + [buffer];
    }
  }

  lemma NothingYet()
    ensures Splits(Patched([]), [], "")
  {
  }

  lemma Drained(done: string, yielded: seq<string>, buffer: string)
    requires Splits(done, yielded, buffer)
    ensures (if buffer != "" then yielded + [buffer] else yielded) == SplitLines(done)
  {
    assert yielded + [] == yielded;
  }

  /** One turn of the loop. */
  lemma Feed(done: string, data: string, yielded: seq<string>, buffer: string)
    requires |data| > 0 && Splits(done, yielded, buffer)
    ensures
      var lines := SplitLines(buffer + data);
      if IsPartial(buffer + data) then lines != [] && Splits(Patch(done, data), yielded + Init(lines), Last(lines))
      else Splits(Patch(done, data), yielded + lines, "")
  {
    hide SplitLines;
    var lines := SplitLines(buffer + data);
    FeedLines(done, data, yielded, buffer);
    if IsPartial(buffer + data) {
      SplitPartial(buffer + data, "");
      assert yielded + Init(lines) + [Last(lines)] == yielded + lines;
    } else {
      assert yielded + lines + [] == yielded + lines;
    }
  }

  lemma FeedLines(done: string, data: string, yielded: seq<string>, buffer: string)
    requires |data| > 0 && Splits(done, yielded, buffer)
    ensures SplitLines(Patch(done, data)) == yielded + SplitLines(buffer + data)
    ensures IsPartial(Patch(done, data)) <==> IsPartial(buffer + data)
  {
    hide SplitLines;
    if |buffer| > 0 {
      SplitPartial(done, data);
      assert Last(SplitLines(done)) == buffer && Init(SplitLines(done)) == yielded;
    } else {
      assert buffer + data == data && yielded + [] == yielded;
      FeedNew(done, data);
    }
  }

  lemma FeedNew(done: string, data: string)
    requires |data| > 0 && !IsPartial(done)
    ensures SplitLines(Patch(done, data)) == SplitLines(done) + SplitLines(data)
    ensures IsPartial(Patch(done, data)) <==> IsPartial(data)
  {
    hide SplitLines;
    if Tears(done, data) {
      var torn := "\n" + data;
      assert torn[1..] == data && done + torn == done + "\n" + data;
      SplitTorn(done, torn);
    } else {
      SplitComplete(done, data);
    }
  }

  // ---------------------------------------------------------------------------------
  // Streaming and batch
  // ---------------------------------------------------------------------------------

  lemma {:induction false} BreakAtShift(l: string, b: string, i: nat)
    requires i <= |l| && forall k :: i <= k < |l| ==> !IsBreak(l[k])
    ensures BreakAt(l + b, i) == |l| + BreakAt(b, 0)
    decreases |l| - i
  {
    if i < |l| {
      BreakAtShift(l, b, i + 1);
    } else {
      BreakAtTail(l, b, 0);
    }
  }

  lemma {:induction false} BreakAtTail(l: string, b: string, i: nat)
    requires i <= |b|
    ensures BreakAt(l + b, |l| + i) == |l| + BreakAt(b, i)
    decreases |b| - i
  {
    if i < |b| && !IsBreak(b[i]) {
      BreakAtTail(l, b, i + 1);
    }
  }

  lemma AfterShift(l: string, b: string, i: nat)
    requires i < |b|
    ensures
      var j := AfterBreak(b, i);
      j <= |b| && AfterBreak(l + b, |l| + i) == |l| + j && (l + b)[|l| + j..] == b[j..]
  {
  }

  lemma CountFirst(s: string)
    requires s != ""
    ensures
      var i := BreakAt(s, 0);
      && (i == |s| ==> |SplitLines(s)| == 1)
      && (i < |s| ==> AfterBreak(s, i) <= |s| && |SplitLines(s)| == 1 + |SplitLines(s[AfterBreak(s, i)..])|)
  {
  }

  lemma BreakAfterPartial(l: string, b: string)
    requires BreakAt(l, 0) == |l|
    ensures BreakAt(l + b, 0) == |l| + BreakAt(b, 0)
  {
    BreakAtShift(l, b, 0);
  }

  /** A line without a break in front adds no line. */
  lemma CountAfterPartial(l: string, b: string)
    requires |l| > 0 && BreakAt(l, 0) == |l| && |b| > 0
    ensures |SplitLines(l + b)| == |SplitLines(b)|
  {
    hide *;
    BreakAfterPartial(l, b);
    CountFirst(l + b);
    CountFirst(b);
    if BreakAt(b, 0) < |b| {
      AfterShift(l, b, BreakAt(b, 0));
    }
  }

  lemma CountAppend(a: string, b: string)
    requires |b| > 0
    ensures |SplitLines(a + b)| == |SplitLines(a)| + |SplitLines(b)| - (if IsPartial(a) || Tears(a, b) then 1 else 0)
  {
    hide SplitLines;
    if IsPartial(a) {
      SplitPartial(a, b);
      CountAfterPartial(Last(SplitLines(a)), b);
    } else if Tears(a, b) {
      SplitTorn(a, b);
      EmptyLine(b);
    } else {
      SplitComplete(a, b);
    }
  }

  /** Both texts end like the last chunk. */
  lemma SameEnd(chunks: seq<string>)
    requires NonEmpty(chunks) && chunks != []
    ensures
      var last := chunks[|chunks| - 1];
      && |Patched(chunks)| > 0 && Patched(chunks)[|Patched(chunks)| - 1] == last[|last| - 1]
      && |Concat(chunks)| > 0 && Concat(chunks)[|Concat(chunks)| - 1] == last[|last| - 1]
  {
  }

  /** The stream yields one line too many for every CR that is torn from its LF. */
  lemma {:induction false} StreamCount(chunks: seq<string>)
    requires NonEmpty(chunks)
    ensures |SplitLines(Patched(chunks))| == |SplitLines(Concat(chunks))| + TornBreaks(chunks)
    decreases |chunks|
  {
    hide SplitLines;
    if chunks != [] {
      var init, data := chunks[..|chunks| - 1], chunks[|chunks| - 1];
      StreamCount(init);
      CountAppend(Concat(init), data);
      if init != [] {
        SameEnd(init);
      }
      if Tears(Patched(init), data) {
        var torn := "\n" + data;
        assert torn[1..] == data && Patched(init) + torn == Patched(init) + "\n" + data;
        SplitTorn(Patched(init), torn);
      } else {
        CountAppend(Patched(init), data);
      }
    }
  }

  lemma {:induction false} NothingTorn(chunks: seq<string>)
    requires NonEmpty(chunks)
    ensures TornBreaks(chunks) == 0 <==> forall i :: 0 < i < |chunks| ==> !TornAt(chunks, i)
    ensures TornBreaks(chunks) == 0 ==> Patched(chunks) == Concat(chunks)
    decreases |chunks|
  {
    if chunks != [] {
      var init := chunks[..|chunks| - 1];
      NothingTorn(init);
      assert forall i :: 0 < i < |init| ==> TornAt(init, i) == TornAt(chunks, i);
      if init != [] {
        SameEnd(init);
      }
    }
  }

  /** Streaming equals batch if and only if no chunk ends between a CR and its LF. */
  lemma StreamingIsBatchIff(chunks: seq<string>)
    requires NonEmpty(chunks)
    ensures SplitLines(Patched(chunks)) == SplitLines(Concat(chunks))
      <==> forall i :: 0 < i < |chunks| ==> !TornAt(chunks, i)
  {
    hide SplitLines;
    StreamCount(chunks);
    NothingTorn(chunks);
  }
}
