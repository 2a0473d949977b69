/** The command-line flag codec of devil/android/flag_changer.py. */
module Flags {
  import opened Text
  import opened Wrappers

  const ESCAPE := '\\'

  predicate IsQuote(c: char) {
    c == '"' || c == '\''
  }

  /** `str.isspace` of one byte. */
  predicate IsSpace(c: char) {
    c == ' ' || 9 as char <= c <= 13 as char
  }

  /** What `[^\w-]` does not match. */
  predicate IsPlain(c: char) {
    'a' <= c <= 'z' || 'A' <= c <= 'Z' || '0' <= c <= '9' || c == '_' || c == '-'
  }

  // ---------------------------------------------------------------------------------
  // The parser
  // ---------------------------------------------------------------------------------

  /** The three variables of the loop of `_ParseFlags`. */
  datatype Parser = Parser(flags: seq<string>, quote: Option<char>, current: Option<string>)
  {
    /** The current flag is None or non-empty. */
    predicate Valid() {
      && (forall i :: 0 <= i < |flags| ==> |flags[i]| > 0)
      && (current.Some? ==> |current.value| > 0)
    }

    function Emitted(): seq<string> {
      if current.Some? then flags + [current.value] else flags
    }
  }

  function Step(p: Parser, c: char): (q: Parser)
    requires p.Valid()
    ensures q.Valid()
  {
    if (p.quote.None? && IsQuote(c)) || p.quote == Some(c) then
      if p.current.Some? && p.current.value[|p.current.value| - 1] == ESCAPE then
        p.(current := Some(p.current.value[..|p.current.value| - 1] + [c]))
      else
        p.(quote := if p.quote.None? then Some(c) else None)
    else if p.quote.None? && IsSpace(c) then
      Parser(p.Emitted(), None, None)
    else
      p.(current := Some(SoFar(p.current) + [c]))
  }

  function Run(p: Parser, line: string): (q: Parser)
    requires p.Valid()
    ensures q.Valid()
    decreases |line|
  {
    if line == "" then p else Step(Run(p, line[..|line| - 1]), line[|line| - 1])
  }

  const START := Parser([], None, None)

  /** All but the program name. */
  function Arguments(tokens: seq<string>): seq<string> {
    if tokens == [] then [] else tokens[1..]
  }

  function Parse(line: string): seq<string> {
    Arguments(Run(START, line).Emitted())
  }

  method ParseFlags(line: string) returns (flags: seq<string>)
    ensures flags == Parse(line)
  {
    flags := [];
    var currentQuote: Option<char> := None;
    var currentFlag: Option<string> := None;
    for i := 0 to |line|
      invariant Parser(flags, currentQuote, currentFlag) == Run(START, line[..i])
    {
      var c := line[i];
      assert line[..i + 1][..i] == line[..i];
      if (currentQuote.None? && IsQuote(c)) || currentQuote == Some(c) {
        if currentFlag.Some? && currentFlag.value[|currentFlag.value| - 1] == ESCAPE {
          currentFlag := Some(currentFlag.value[..|currentFlag.value| - 1] + [c]);
        } else {
          currentQuote := if currentQuote.None? then Some(c) else None;
        }
      } else if currentQuote.None? && IsSpace(c) {
        if currentFlag.Some? {
          flags := flags + [currentFlag.value];
          currentFlag := None;
        }
      } else {
        if currentFlag.None? {
          currentFlag := Some("");
        }
        currentFlag := Some(currentFlag.value + [c]);
      }
    }
    assert line[..|line|] == line;
    if currentFlag.Some? {
      flags := flags + [currentFlag.value];
    }
    return if flags == [] then [] else flags[1..];
  }

  /** The parser never returns an empty flag. */
  lemma NoEmptyFlag(line: string)
    ensures forall i :: 0 <= i < |Parse(line)| ==> Parse(line)[i] != ""
  {
    var tokens := Run(START, line).Emitted();
    assert forall i :: 0 <= i < |tokens| ==> tokens[i] != "";
  }

  lemma {:induction false} RunAppend(p: Parser, a: string, b: string)
    requires p.Valid()
    ensures Run(p, a + b) == Run(Run(p, a), b)
    decreases |b|
  {
    if b == "" {
      assert a + b == a;
    } else {
      var n := |b| - 1;
      RunAppend(p, a, b[..n]);
      assert (a + b)[..|a + b| - 1] == a + b[..n];
    }
  }

  // ---------------------------------------------------------------------------------
  // What the parser reads
  // ---------------------------------------------------------------------------------

  /** Part of a token: characters as they are, or a text in quotes of either kind, or an escaped quote. */
  datatype Piece = Bare(text: string) | InQuotes(quote: char, text: string) | EscapedQuote(quote: char)

  /** Written without spaces, quotes and backslashes, or without that quote and backslashes. */
  predicate IsPiece(piece: Piece) {
    match piece
    case Bare(text) => forall i :: 0 <= i < |text| ==> text[i] !in " \t\n\r\"'\\" && !IsSpace(text[i])
    case InQuotes(quote, text) => quote in "\"'" && forall i :: 0 <= i < |text| ==> text[i] != quote && text[i] != '\\'
    case EscapedQuote(quote) => quote in "\"'"
  }

  function Written(piece: Piece): string {
    match piece
    case Bare(text) => text
    case InQuotes(quote, text) => [quote] + text + [quote]
    case EscapedQuote(quote) => ['\\', quote]
  }

  function Content(piece: Piece): string {
    match piece
    case Bare(text) => text
    case InQuotes(_, text) => text
    case EscapedQuote(quote) => [quote]
  }

  function WrittenAll(pieces: seq<Piece>): string {
    if pieces == [] then "" else WrittenAll(pieces[..|pieces| - 1]) + Written(pieces[|pieces| - 1])
  }

  function ContentOfAll(pieces: seq<Piece>): string {
    if pieces == [] then "" else ContentOfAll(pieces[..|pieces| - 1]) + Content(pieces[|pieces| - 1])
  }

  /** No backslash is at the end, so a quote that comes next is not escaped. */
  predicate IsReady(p: Parser) {
    p.Valid() && p.quote.None? && (p.current.Some? ==> p.current.value[|p.current.value| - 1] != '\\')
  }

  lemma {:induction false} RunTaken(p: Parser, s: string)
    requires p.Valid()
    requires forall i :: 0 <= i < |s| ==>
      if p.quote.None? then !IsQuote(s[i]) && !IsSpace(s[i]) else p.quote != Some(s[i])
    ensures Run(p, s) == p.(current := Extend(p.current, s))
    decreases |s|
  {
    if s != "" {
      var n := |s| - 1;
      RunTaken(p, s[..n]);
      assert s[..n] + [s[n]] == s;
      ExtendOne(p.current, s[..n], s[n]);
    }
  }

  lemma RunOneMore(p: Parser, s: string, c: char)
    requires p.Valid()
    ensures Run(p, s + [c]) == Step(Run(p, s), c)
  {
    assert (s + [c])[..|s|] == s;
  }

  lemma ExtendTwice(current: Option<string>, s: string, t: string)
    ensures Extend(Extend(current, s), t) == Extend(current, s + t)
  {
    if s == "" {
      assert s + t == t;
    } else if t == "" {
      assert s + t == s;
    } else {
      assert SoFar(current) + s + t == SoFar(current) + (s + t);
    }
  }

  lemma RunFirst(p: Parser, c: char)
    requires p.Valid()
    ensures Run(p, [c]) == Step(p, c)
  {
    RunNothing(p);
    RunOneMore(p, "", c);
    assert "" + [c] == [c];
  }

  lemma RunInQuotes(p: Parser, quote: char, text: string)
    requires IsReady(p) && IsPiece(InQuotes(quote, text))
    ensures Run(p, [quote] + text + [quote]) == p.(current := Extend(p.current, text))
  {
    hide Run;
    var q := p.(quote := Some(quote));
    RunFirst(p, quote);
    RunAppend(p, [quote], text);
    RunTaken(q, text);
    RunOneMore(p, [quote] + text, quote);
    assert text != "" ==> Extend(p.current, text).value[|Extend(p.current, text).value| - 1] == text[|text| - 1];
  }

  lemma RunEscapedQuote(p: Parser, quote: char)
    requires IsReady(p) && quote in "\"'"
    ensures Run(p, ['\\', quote]) == p.(current := Extend(p.current, [quote]))
  {
    hide Run;
    RunFirst(p, '\\');
    RunOneMore(p, ['\\'], quote);
    assert ['\\'] + [quote] == ['\\', quote];
    var x := SoFar(p.current) + ['\\'];
    assert x[..|x| - 1] == SoFar(p.current);
  }

  lemma RunPiece(p: Parser, piece: Piece)
    requires IsReady(p) && IsPiece(piece)
    ensures Run(p, Written(piece)) == p.(current := Extend(p.current, Content(piece)))
    ensures IsReady(Run(p, Written(piece)))
  {
    hide Run;
    match piece
    case Bare(text) =>
      RunTaken(p, text);
      StaysReady(p, text);
    case InQuotes(quote, text) =>
      RunInQuotes(p, quote, text);
      StaysReady(p, text);
    case EscapedQuote(quote) =>
      RunEscapedQuote(p, quote);
      StaysReady(p, [quote]);
  }

  lemma StaysReady(p: Parser, text: string)
    requires IsReady(p) && forall i :: 0 <= i < |text| ==> text[i] != '\\'
    ensures IsReady(p.(current := Extend(p.current, text)))
  {
  }

  /** A token is the text of its pieces, quotes of either kind removed. */
  lemma {:induction false} RunPieces(p: Parser, pieces: seq<Piece>)
    requires IsReady(p) && forall i :: 0 <= i < |pieces| ==> IsPiece(pieces[i])
    ensures Run(p, WrittenAll(pieces)) == p.(current := Extend(p.current, ContentOfAll(pieces)))
    ensures IsReady(Run(p, WrittenAll(pieces)))
    decreases |pieces|
  {
    if pieces != [] {
      var init, last := pieces[..|pieces| - 1], pieces[|pieces| - 1];
      RunPieces(p, init);
      RunAppend(p, WrittenAll(init), Written(last));
      RunPiece(Run(p, WrittenAll(init)), last);
      ExtendTwice(p.current, ContentOfAll(init), Content(last));
    }
  }

  /** A line of tokens, each followed by a space of any kind. */
  function LineOf(tokens: seq<seq<Piece>>, spaces: seq<char>): string
    requires |spaces| == |tokens|
  {
    if tokens == [] then ""
    else
      var n := |tokens| - 1;
      LineOf(tokens[..n], spaces[..n]) + (WrittenAll(tokens[n]) + [spaces[n]])
  }

  /** The tokens that are not empty. */
  function ContentsOf(tokens: seq<seq<Piece>>): seq<string> {
    if tokens == [] then []
    else
      var n := |tokens| - 1;
      ContentsOf(tokens[..n]) + (if ContentOfAll(tokens[n]) == "" then [] else [ContentOfAll(tokens[n])])
  }

  /** The parser reads the tokens of a line, and drops the first. */
  lemma {:induction false} TokensAreRead(tokens: seq<seq<Piece>>, spaces: seq<char>)
    requires |spaces| == |tokens| && forall i :: 0 <= i < |spaces| ==> spaces[i] in " \t\n\r"
    requires forall i, k :: 0 <= i < |tokens| && 0 <= k < |tokens[i]| ==> IsPiece(tokens[i][k])
    ensures Run(START, LineOf(tokens, spaces)) == Parser(ContentsOf(tokens), None, None)
    ensures
      var texts := ContentsOf(tokens);
      Parse(LineOf(tokens, spaces)) == if texts == [] then [] else texts[1..]
    decreases |tokens|
  {
    hide Run, Step, WrittenAll, ContentOfAll, IsPiece;
    if |tokens| == 0 {
      RunNothing(START);
    } else {
      var n := |tokens| - 1;
      var p := Parser(ContentsOf(tokens[..n]), None, None);
      TokensAreRead(tokens[..n], spaces[..n]);
      RunAppend(START, LineOf(tokens[..n], spaces[..n]), WrittenAll(tokens[n]) + [spaces[n]]);
      RunPieces(p, tokens[n]);
      RunOneMore(p, WrittenAll(tokens[n]), spaces[n]);
      SpaceEnds(p.flags, ContentOfAll(tokens[n]), spaces[n]);
    }
  }

  lemma SpaceEnds(flags: seq<string>, text: string, space: char)
    requires space in " \t\n\r" && Parser(flags, None, Extend(None, text)).Valid()
    ensures
      Step(Parser(flags, None, Extend(None, text)), space)
        == Parser(flags + (if text == "" then [] else [text]), None, None)
  {
    assert "" + text == text && flags + [] == flags;
  }

  // ---------------------------------------------------------------------------------
  // The printer
  // ---------------------------------------------------------------------------------

  predicate NeedsQuoting(s: string) {
    exists i :: 0 <= i < |s| && !IsPlain(s[i])
  }

  /** `s.replace('"', r'\"')`. */
  function EscapeQuotes(s: string): string
    decreases |s|
  {
    if s == "" then "" else EscapeQuotes(s[..|s| - 1]) + EscapedChar(s[|s| - 1])
  }

  function EscapedChar(c: char): string {
    if c == '"' then [ESCAPE] + ['"'] else [c]
  }

  function Quoted(s: string): string {
    "\"" + EscapeQuotes(s) + "\""
  }

  /** The index of the first `=`, or the length. */
  function KeyLength(flag: string): (n: nat)
    ensures n <= |flag| && (forall i :: 0 <= i < n ==> flag[i] != '=') && (n < |flag| ==> flag[n] == '=')
    decreases |flag|
  {
    if flag == "" || flag[0] == '=' then 0 else 1 + KeyLength(flag[1..])
  }

  /** `_QuoteFlag`: lines 275-300. */
  function QuoteFlag(flag: string): string {
    var n := KeyLength(flag);
    var key := flag[..n];
    if flag == "" || NeedsQuoting(key) then Quoted(flag)
    else if n == |flag| then key
    else
      var value := flag[n + 1..];
      key + "=" + (if NeedsQuoting(value) then Quoted(value) else value)
  }

  /** A flag is written as it is exactly if it has but letters, digits, `_` and `-` beside the `=` after its key. */
  lemma QuotedIff(flag: string)
    ensures
      var n := KeyLength(flag);
      QuoteFlag(flag) == flag <==>
      flag != "" && forall i :: 0 <= i < |flag| && i != n ==>
        var c := flag[i];
        c == '_' || c == '-' || 'a' <= c <= 'z' || 'A' <= c <= 'Z' || '0' <= c <= '9'
  {
    WrittenAsItIs(flag);
    hide QuoteFlag, KeyLength;
  }

  lemma WrittenAsItIs(flag: string)
    ensures
      var n := KeyLength(flag);
      QuoteFlag(flag) == flag <==> flag != "" && forall i :: 0 <= i < |flag| && i != n ==> IsPlain(flag[i])
  {
    var n := KeyLength(flag);
    QuotedIsLonger(flag);
    if n < |flag| {
      hide *;
      WrittenWithValue(flag, n);
      Parts(flag, n);
    } else {
      assert flag[..n] == flag;
    }
  }

  lemma WrittenWithValue(flag: string, n: nat)
    requires n == KeyLength(flag) < |flag|
    ensures QuoteFlag(flag) == flag <==> !NeedsQuoting(flag[..n]) && !NeedsQuoting(flag[n + 1..])
  {
    hide *;
    QuotedParts(flag, n);
    QuotedIsLonger(flag);
    QuotedIsLonger(flag[n + 1..]);
  }

  lemma QuotedParts(flag: string, n: nat)
    requires n == KeyLength(flag) < |flag|
    ensures
      var key, value := flag[..n], flag[n + 1..];
      && (NeedsQuoting(key) ==> QuoteFlag(flag) == Quoted(flag))
      && (!NeedsQuoting(key) && NeedsQuoting(value) ==> QuoteFlag(flag) == key + "=" + Quoted(value))
      && (!NeedsQuoting(key) && !NeedsQuoting(value) ==> QuoteFlag(flag) == flag)
  {
    hide NeedsQuoting, Quoted;
    assert flag == flag[..n] + "=" + flag[n + 1..];
  }

  lemma Parts(flag: string, n: nat)
    requires n < |flag|
    ensures !NeedsQuoting(flag[..n]) && !NeedsQuoting(flag[n + 1..]) <==>
            forall i :: 0 <= i < |flag| && i != n ==> IsPlain(flag[i])
  {
    hide IsPlain;
    var key, value := flag[..n], flag[n + 1..];
    assert forall i :: 0 <= i < n ==> key[i] == flag[i];
    assert forall i :: n < i < |flag| ==> value[i - n - 1] == flag[i];
  }

  lemma {:induction false} QuotedIsLonger(s: string)
    ensures |EscapeQuotes(s)| >= |s| && |Quoted(s)| > |s|
    decreases |s|
  {
    if s != "" {
      QuotedIsLonger(s[..|s| - 1]);
    }
  }

  /** The program name and the first `n` flags, quoted. */
  function Words(flags: seq<string>, n: nat): (words: seq<string>)
    requires n <= |flags|
    ensures |words| == n + 1
  {
    ["_"] + seq(n, i requires 0 <= i < n => QuoteFlag(flags[i]))
  }

  /** `_SerializeFlags`: lines 255-272. */
  function Serialize(flags: seq<string>): Option<string> {
    if flags == [] then None
    else Some(Join(" ", Words(flags, |flags|)))
  }

  // ---------------------------------------------------------------------------------
  // Parsing what was printed
  // ---------------------------------------------------------------------------------

  ghost predicate Unquoted(s: string) {
    forall i :: 0 <= i < |s| ==> IsPlain(s[i]) || s[i] == '='
  }

  /** Unquoted plain characters are taken as they are. */
  lemma {:induction false} RunPlain(p: Parser, s: string)
    requires p.Valid() && p.quote.None? && Unquoted(s)
    ensures Run(p, s) == p.(current := Extend(p.current, s))
    decreases |s|
  {
    if s != "" {
      var n := |s| - 1;
      RunPlain(p, s[..n]);
      assert s[..n] + [s[n]] == s;
      ExtendOne(p.current, s[..n], s[n]);
    }
  }

  /** Inside double quotes an escaped character is taken as the character itself. */
  lemma RunEscapedChar(p: Parser, c: char)
    requires p.Valid() && p.quote == Some('"')
    ensures Run(p, EscapedChar(c)) == p.(current := Some(SoFar(p.current) + [c]))
  {
    if c == '"' {
      var x := SoFar(p.current) + [ESCAPE];
      RunAppend(p, [ESCAPE], ['"']);
      RunOne(p, ESCAPE);
      RunOne(p.(current := Some(x)), '"');
      assert x[..|x| - 1] == SoFar(p.current);
    } else {
      RunOne(p, c);
    }
  }

  lemma RunNothing(p: Parser)
    requires p.Valid()
    ensures Run(p, "") == p
  {
  }

  lemma {:induction false} RunEscaped(p: Parser, s: string)
    requires p.Valid() && p.quote == Some('"')
    ensures Run(p, EscapeQuotes(s)) == p.(current := Extend(p.current, s))
    decreases |s|
  {
    hide Run, Step, EscapedChar, SoFar;
    if |s| == 0 {
      RunNothing(p);
    } else {
      hide Extend;
      var n := |s| - 1;
      RunEscaped(p, s[..n]);
      RunAppend(p, EscapeQuotes(s[..n]), EscapedChar(s[n]));
      RunEscapedChar(Run(p, EscapeQuotes(s[..n])), s[n]);
      assert s[..n] + [s[n]] == s;
      ExtendOne(p.current, s[..n], s[n]);
    }
  }

  /** What the closing quote of a quoted string does. */
  lemma RunQuoted(p: Parser, s: string)
    requires p.Valid() && p.quote.None? && (p.current.Some? ==> p.current.value[|p.current.value| - 1] != ESCAPE)
    ensures Run(p, Quoted(s)) == Step(p.(quote := Some('"'), current := Extend(p.current, s)), '"')
  {
    var e := EscapeQuotes(s);
    var q := p.(quote := Some('"'));
    RunAppend(p, "\"", e);
    assert Step(p, '"') == q;
    RunOne(p, '"');
    RunEscaped(q, s);
    RunAppend(p, "\"" + e, "\"");
    RunOne(Run(q, e), '"');
  }

  lemma RunOne(p: Parser, c: char)
    requires p.Valid()
    ensures Run(p, [c]) == Step(p, c)
  {
    assert [c][..0] == "";
  }

  /** A flag that the codec can carry. */
  predicate RoundTrips(flag: string) {
    flag != "" && flag[|flag| - 1] != ESCAPE
  }

  /** The parser when it has read all of a printed flag. */
  function AfterFlag(p: Parser, flag: string): Parser
    requires flag != ""
  {
    var n := |flag| - 1;
    if flag[n] == ESCAPE then Parser(p.flags, Some('"'), Some(flag[..n] + ['"']))
    else Parser(p.flags, None, Some(flag))
  }

  lemma RunFlag(p: Parser, flag: string)
    requires p.Valid() && p.quote.None? && p.current.None? && flag != ""
    ensures Run(p, QuoteFlag(flag)) == AfterFlag(p, flag)
  {
    hide Run, Step, Quoted, AfterFlag;
    var n := KeyLength(flag);
    var key := flag[..n];
    if NeedsQuoting(key) {
      RunWhole(p, flag);
    } else if n == |flag| {
      assert key == flag;
      RunBare(p, flag);
    } else {
      var value := flag[n + 1..];
      RunKeyValue(p, key, value);
      assert flag == key + "=" + value;
      assert key + "=" + Quoted(value) == key + ("=" + Quoted(value));
    }
  }

  lemma RunWhole(p: Parser, flag: string)
    requires p.Valid() && p.quote.None? && p.current.None? && flag != ""
    ensures Run(p, Quoted(flag)) == AfterFlag(p, flag)
  {
    hide Run;
    RunQuoted(p, flag);
    assert "" + flag == flag;
  }

  lemma RunBare(p: Parser, flag: string)
    requires p.Valid() && p.quote.None? && p.current.None? && flag != "" && !NeedsQuoting(flag)
    ensures Run(p, flag) == AfterFlag(p, flag)
  {
    hide Run;
    RunPlain(p, flag);
    assert "" + flag == flag && IsPlain(flag[|flag| - 1]);
  }

  lemma RunKeyValue(p: Parser, key: string, value: string)
    requires p.Valid() && p.quote.None? && p.current.None? && !NeedsQuoting(key)
    ensures
      var printed := key + "=" + (if NeedsQuoting(value) then Quoted(value) else value);
      Run(p, printed) == AfterFlag(p, key + "=" + value)
  {
    hide Run, NeedsQuoting, Quoted, AfterFlag;
    var head := key + "=";
    RunKey(p, key);
    if NeedsQuoting(value) {
      RunAppend(p, head, Quoted(value));
      RunQuotedValue(p, head, value);
    } else {
      RunAppend(p, head, value);
      RunPlainValue(p, head, value);
    }
  }

  lemma RunKey(p: Parser, key: string)
    requires p.Valid() && p.quote.None? && p.current.None? && !NeedsQuoting(key)
    ensures Run(p, key + "=") == Parser(p.flags, None, Some(key + "="))
  {
    hide Run;
    RunPlain(p, key + "=");
    assert "" + (key + "=") == key + "=";
  }

  lemma RunQuotedValue(p: Parser, head: string, value: string)
    requires p.Valid() && head != "" && head[|head| - 1] == '='
    ensures Run(Parser(p.flags, None, Some(head)), Quoted(value)) == AfterFlag(p, head + value)
  {
    hide Run, Quoted;
    var flag := head + value;
    assert flag[|flag| - 1] == if value == "" then '=' else value[|value| - 1];
    assert value == "" ==> flag == head;
    RunQuoted(Parser(p.flags, None, Some(head)), value);
  }

  lemma RunPlainValue(p: Parser, head: string, value: string)
    requires p.Valid() && head != "" && head[|head| - 1] == '=' && !NeedsQuoting(value)
    ensures Run(Parser(p.flags, None, Some(head)), value) == AfterFlag(p, head + value)
  {
    hide Run;
    var flag := head + value;
    RunPlain(Parser(p.flags, None, Some(head)), value);
    assert value == "" ==> flag == head;
    assert flag[|flag| - 1] != ESCAPE;
  }

  // ---------------------------------------------------------------------------------
  // The whole line
  // ---------------------------------------------------------------------------------

  function Printed(flags: seq<string>, n: nat): string
    requires n <= |flags|
  {
    Join(" ", Words(flags, n))
  }

  /** The parser reads one more flag. */
  lemma RunNext(flags: seq<string>, n: nat)
    requires n < |flags|
    ensures Run(START, Printed(flags, n + 1)) == Run(Step(Run(START, Printed(flags, n)), ' '), QuoteFlag(flags[n]))
  {
    hide Run, Step, QuoteFlag, Join;
    var a, q := Printed(flags, n), QuoteFlag(flags[n]);
    assert Words(flags, n + 1) == Words(flags, n) + [q];
    JoinAppend(" ", Words(flags, n), q);
    RunAppend(START, a + " ", q);
    RunAppend(START, a, " ");
    RunOne(Run(START, a), ' ');
  }

  function Tokens(flags: seq<string>): seq<string> {
    ["_"] + flags
  }

  /** From the end of one flag to the end of the next. */
  lemma RunSpaced(flags: seq<string>, n: nat)
    requires n < |flags| && flags[n] != ""
    requires Run(START, Printed(flags, n)) == Parser(Tokens(flags)[..n], None, Some(Tokens(flags)[n]))
    ensures
      Run(START, Printed(flags, n + 1)) == AfterFlag(Parser(Tokens(flags)[..n + 1], None, None), flags[n])
  {
    hide Run, QuoteFlag, Printed, AfterFlag;
    var tokens := Tokens(flags);
    RunNext(flags, n);
    assert tokens[..n + 1] == tokens[..n] + [tokens[n]];
    RunFlag(Parser(tokens[..n + 1], None, None), flags[n]);
  }

  lemma NothingPrinted(flags: seq<string>)
    ensures Run(START, Printed(flags, 0)) == Parser([], None, Some("_"))
  {
    RunOne(START, '_');
    assert "" + ['_'] == "_";
  }

  /** As long as the flags round-trip the parser is at the end of the last one. */
  lemma {:induction false} RunPrinted(flags: seq<string>, n: nat)
    requires n <= |flags| && forall i :: 0 <= i < n ==> RoundTrips(flags[i])
    ensures Run(START, Printed(flags, n)) == Parser(Tokens(flags)[..n], None, Some(Tokens(flags)[n]))
    decreases n
  {
    hide Run, QuoteFlag, Printed;
    if n == 0 {
      NothingPrinted(flags);
    } else {
      RunPrinted(flags, n - 1);
      RunSpaced(flags, n - 1);
    }
  }

  /** Token `k` has, or will have, a double quote at index `m`. */
  ghost predicate Spoiled(p: Parser, k: nat, m: nat) {
    if |p.flags| <= k then
      |p.flags| == k && p.current.Some? && m < |p.current.value| && p.current.value[m] == '"'
    else
      m < |p.flags[k]| && p.flags[k][m] == '"'
  }

  lemma {:induction false} SpoiledStays(p: Parser, s: string, k: nat, m: nat)
    requires p.Valid() && Spoiled(p, k, m)
    ensures Spoiled(Run(p, s), k, m)
    decreases |s|
  {
    hide Step, Spoiled;
    if |s| != 0 {
      SpoiledStays(p, s[..|s| - 1], k, m);
      SpoiledStep(Run(p, s[..|s| - 1]), s[|s| - 1], k, m);
    }
  }

  /** The first flag that ends in a backslash spoils its own token for good. */
  lemma {:induction false} RunSpoiled(flags: seq<string>, n: nat) returns (k: nat)
    requires n <= |flags| && forall i :: 0 <= i < n ==> flags[i] != ""
    requires exists i :: 0 <= i < n && !RoundTrips(flags[i])
    ensures k < n && !RoundTrips(flags[k]) && Spoiled(Run(START, Printed(flags, n)), k + 1, |flags[k]| - 1)
    decreases n
  {
    hide Run, Step, QuoteFlag, Printed, AfterFlag, Spoiled;
    if i :| 0 <= i < n - 1 && !RoundTrips(flags[i]) {
      var was := Run(START, Printed(flags, n - 1));
      RunNext(flags, n - 1);
      k := RunSpoiled(flags, n - 1);
      SpoiledStep(was, ' ', k + 1, |flags[k]| - 1);
      SpoiledStays(Step(was, ' '), QuoteFlag(flags[n - 1]), k + 1, |flags[k]| - 1);
    } else {
      k := n - 1;
      RunPrinted(flags, k);
      RunSpaced(flags, k);
      SpoilsItself(Parser(Tokens(flags)[..n], None, None), flags[k]);
    }
  }

  lemma SpoiledStep(p: Parser, c: char, k: nat, m: nat)
    requires p.Valid() && Spoiled(p, k, m)
    ensures Spoiled(Step(p, c), k, m)
  {
  }

  lemma SpoilsItself(p: Parser, flag: string)
    requires flag != "" && !RoundTrips(flag)
    ensures Spoiled(AfterFlag(p, flag), |p.flags|, |flag| - 1)
  {
  }

  /** The codec returns the flags it was given if and only if none is empty or ends in a backslash. */
  lemma RoundTripIff(flags: seq<string>)
    requires flags != []
    ensures Parse(Serialize(flags).value) == flags <==> forall i :: 0 <= i < |flags| ==> RoundTrips(flags[i])
  {
    var n := |flags|;
    var line := Printed(flags, n);
    var tokens := Tokens(flags);
    NoEmptyFlag(line);
    if forall i :: 0 <= i < n ==> RoundTrips(flags[i]) {
      RunPrinted(flags, n);
      assert tokens[..n] + [tokens[n]] == tokens;
    } else if forall i :: 0 <= i < n ==> flags[i] != "" {
      var k := RunSpoiled(flags, n);
      var all := Run(START, line).Emitted();
      assert all[k + 1][|flags[k]| - 1] == '"';
      assert Parse(line)[k] == all[k + 1];
    } else {
      assert "" in flags && "" !in Parse(line);
    }
  }

  /** What the device parser reads back is stable unless it ends in a backslash. */
  lemma ReparseIff(line: string)
    requires Parse(line) != []
    ensures
      var flags := Parse(line);
      Parse(Serialize(flags).value) == flags <==> forall i :: 0 <= i < |flags| ==> flags[i][|flags[i]| - 1] != ESCAPE
  {
    NoEmptyFlag(line);
    RoundTripIff(Parse(line));
  }
}
