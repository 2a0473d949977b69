/** Quoting for a shell: SingleQuote and ShrinkToSnippet of devil/utils/cmd_helper.py. */
module Snippet {
  import opened Wrappers
  import opened Text

  // ---------------------------------------------------------------------------------
  // The printers
  // ---------------------------------------------------------------------------------

  predicate IsLetter(c: char) {
    'a' <= c <= 'z' || 'A' <= c <= 'Z'
  }

  predicate IsDigit(c: char) {
    '0' <= c <= '9'
  }

  /** `_SafeShellChars`, which is also the safe set of `pipes.quote`. */
  predicate IsSafe(c: char) {
    IsLetter(c) || IsDigit(c) || c in "@%_-+=:,./"
  }

  predicate AllSafe(s: string) {
    forall i :: 0 <= i < |s| ==> IsSafe(s[i])
  }

  const QUOTE := '\''
  const DOUBLE := '"'

  function EscapedQuote(c: char): string {
    if c == QUOTE then [QUOTE, DOUBLE, QUOTE, DOUBLE, QUOTE] else [c]
  }

  function EscapeQuotes(s: string): string
    decreases |s|
  {
    if s == "" then "" else EscapeQuotes(s[..|s| - 1]) + EscapedQuote(s[|s| - 1])
  }

  /** `pipes.quote`. */
  function SingleQuote(s: string): string {
    if s == "" then [QUOTE, QUOTE]
    else if AllSafe(s) then s
    else [QUOTE] + EscapeQuotes(s) + [QUOTE]
  }

  predicate OccursAt(s: string, sep: string, i: nat) {
    i + |sep| <= |s| && s[i..i + |sep|] == sep
  }

  /** `s.find(sep, i)`, or the length. */
  function FindFrom(s: string, sep: string, i: nat): (k: nat)
    requires i <= |s|
    ensures i <= k <= |s| && (k < |s| ==> OccursAt(s, sep, k))
    decreases |s| - i
  {
    if i == |s| || OccursAt(s, sep, i) then i else FindFrom(s, sep, i + 1)
  }

  /** `s.split(sep)`. */
  function Split(s: string, sep: string): (parts: seq<string>)
    requires sep != ""
    ensures parts != []
    decreases |s|
  {
    var k := FindFrom(s, sep, 0);
    if k == |s| then [s] else [s[..k]] + Split(s[k + |sep|..], sep)
  }

  /** `x and SingleQuote(x)`. */
  function QuoteUnlessEmpty(s: string): string {
    if s == "" then "" else SingleQuote(s)
  }

  function QuoteAll(parts: seq<string>): seq<string> {
    seq(|parts|, i requires 0 <= i < |parts| => QuoteUnlessEmpty(parts[i]))
  }

  function Variable(name: string): string {
    "\"$" + name + "\""
  }

  function Shrink(value: string, varName: string, varValue: string): string
    requires varValue != ""
  {
    var text := Join(Variable(varName), QuoteAll(Split(value, varValue)));
    if text == "" then [QUOTE, QUOTE] else text
  }

  function ShrinkToSnippet(cmdParts: seq<string>, varName: string, varValue: string): string
    requires varValue != ""
  {
    Join(" ", ShrinkAll(cmdParts, |cmdParts|, varName, varValue))
  }

  function ShrinkAll(cmdParts: seq<string>, n: nat, varName: string, varValue: string): seq<string>
    requires varValue != "" && n <= |cmdParts|
  {
    seq(n, i requires 0 <= i < n => Shrink(cmdParts[i], varName, varValue))
  }

  // ---------------------------------------------------------------------------------
  // The shell
  // ---------------------------------------------------------------------------------

  /** Outside quotes, in single quotes, in double quotes, or in a name after a dollar sign there. */
  datatype Mode = Plain | Single | Double | Name(name: string)

  datatype Shell = Shell(words: seq<string>, current: Option<string>, mode: Mode)

  type Environment = map<string, string>

  function Append(sh: Shell, s: string): Shell {
    sh.(current := Some(SoFar(sh.current) + s))
  }

  predicate IsNameChar(c: char) {
    IsLetter(c) || IsDigit(c) || c == '_'
  }

  /** Section 3.230 of the Base Definitions of POSIX.1-2008: a name. */
  predicate IsName(s: string) {
    s != "" && !IsDigit(s[0]) && forall i :: 0 <= i < |s| ==> IsNameChar(s[i])
  }

  /** Parameter expansion in double quotes: no field splitting; unset variables are empty. */
  function Expansion(env: Environment, name: string): string {
    if name == "" then "$" else if name in env then env[name] else ""
  }

  function InDouble(sh: Shell, c: char): Option<Shell> {
    if c == DOUBLE then Some(sh.(mode := Plain))
    else if c == '$' then Some(sh.(mode := Name("")))
    else if c == '\\' || c == '`' then None
    else Some(Append(sh.(mode := Double), [c]))
  }

  /**
    One character: sections 2.2 and 2.6.2 of the Shell Command Language of POSIX.1-2008, for the
    characters that the printers above use; None for all else.
   */
  function Step(env: Environment, sh: Shell, c: char): Option<Shell> {
    match sh.mode
    case Plain =>
      if c == ' ' then
        Some(Shell(if sh.current.Some? then sh.words + [sh.current.value] else sh.words, None, Plain))
      else if c == QUOTE then Some(Append(sh, "").(mode := Single))
      else if c == DOUBLE then Some(Append(sh, "").(mode := Double))
      else if IsSafe(c) then Some(Append(sh, [c]))
      else None
    case Single =>
      if c == QUOTE then Some(sh.(mode := Plain)) else Some(Append(sh, [c]))
    case Double => InDouble(sh, c)
    case Name(n) =>
      if IsNameChar(c) && (n != "" || !IsDigit(c)) then Some(sh.(mode := Name(n + [c])))
      else InDouble(Append(sh.(mode := Double), Expansion(env, n)), c)
  }

  function Run(env: Environment, sh: Shell, text: string): Option<Shell>
    decreases |text|
  {
    if text == "" then Some(sh)
    else
      match Run(env, sh, text[..|text| - 1])
      case None => None
      case Some(q) => Step(env, q, text[|text| - 1])
  }

  const START := Shell([], None, Plain)

  /** The words of a command line; None if a quotation is left open. */
  function Words(env: Environment, text: string): Option<seq<string>> {
    match Run(env, START, text)
    case None => None
    case Some(sh) =>
      if !sh.mode.Plain? then None
      else Some(if sh.current.Some? then sh.words + [sh.current.value] else sh.words)
  }

  lemma {:induction false} RunAppend(env: Environment, sh: Shell, a: string, b: string)
    ensures Run(env, sh, a + b) == match Run(env, sh, a) case None => None case Some(q) => Run(env, q, b)
    decreases |b|
  {
    if b == "" {
      assert a + b == a;
    } else {
      var n := |b| - 1;
      RunAppend(env, sh, a, b[..n]);
      assert (a + b)[..|a + b| - 1] == a + b[..n];
    }
  }

  lemma RunOne(env: Environment, sh: Shell, c: char)
    ensures Run(env, sh, [c]) == Step(env, sh, c)
  {
    assert [c][..0] == "";
  }

  // ---------------------------------------------------------------------------------
  // Quoted strings are read back
  // ---------------------------------------------------------------------------------

  lemma {:induction false} RunSafe(env: Environment, sh: Shell, s: string)
    requires sh.mode.Plain? && AllSafe(s)
    ensures Run(env, sh, s) == Some(sh.(current := Extend(sh.current, s)))
    decreases |s|
  {
    if s != "" {
      hide IsSafe;
      var n := |s| - 1;
      RunSafe(env, sh, s[..n]);
      assert s[..n] + [s[n]] == s && IsSafe(s[n]);
      ExtendOne(sh.current, s[..n], s[n]);
      SafeIsPlain(s[n]);
    }
  }

  lemma SafeIsPlain(c: char)
    requires IsSafe(c)
    ensures c != ' ' && c != QUOTE && c != DOUBLE
  {
  }

  lemma RunEscapedQuote(env: Environment, sh: Shell, c: char)
    requires sh.mode.Single?
    ensures Run(env, sh, EscapedQuote(c)) == Some(Append(sh, [c]))
  {
    if c == QUOTE {
      var e := EscapedQuote(c);
      var out := Append(sh, "").(mode := Double);
      var was := SoFar(sh.current);
      assert was + "" == was && was + [QUOTE] + "" == was + [QUOTE];
      assert e == [QUOTE, DOUBLE] + [QUOTE] + [DOUBLE, QUOTE];
      Two(env, sh, QUOTE, DOUBLE);
      RunAppend(env, sh, [QUOTE, DOUBLE], [QUOTE]);
      RunAppend(env, sh, [QUOTE, DOUBLE] + [QUOTE], [DOUBLE, QUOTE]);
      RunOne(env, out, QUOTE);
      Two(env, Append(out, [QUOTE]), DOUBLE, QUOTE);
    } else {
      RunOne(env, sh, c);
    }
  }

  lemma Two(env: Environment, sh: Shell, c: char, d: char)
    ensures Run(env, sh, [c, d]) == match Step(env, sh, c) case None => None case Some(q) => Step(env, q, d)
  {
    assert [c, d] == [c] + [d];
    RunAppend(env, sh, [c], [d]);
    RunOne(env, sh, c);
    if Step(env, sh, c).Some? {
      RunOne(env, Step(env, sh, c).value, d);
    }
  }

  lemma {:induction false} RunEscaped(env: Environment, sh: Shell, s: string)
    requires sh.mode.Single?
    ensures Run(env, sh, EscapeQuotes(s)) == Some(sh.(current := Extend(sh.current, s)))
    decreases |s|
  {
    hide Run, EscapedQuote, SoFar;
    if |s| == 0 {
      RunNothing(env, sh);
    } else {
      hide Extend;
      var n := |s| - 1;
      var q := sh.(current := Extend(sh.current, s[..n]));
      RunEscaped(env, sh, s[..n]);
      RunAppend(env, sh, EscapeQuotes(s[..n]), EscapedQuote(s[n]));
      RunEscapedQuote(env, q, s[n]);
      assert s[..n] + [s[n]] == s;
      ExtendOne(sh.current, s[..n], s[n]);
    }
  }

  /** A quoted string is one word, or the next part of one, and stands for itself. */
  lemma RunSingleQuote(env: Environment, sh: Shell, s: string)
    requires sh.mode.Plain?
    ensures Run(env, sh, SingleQuote(s)) == Some(Append(sh, s))
  {
    hide Run, AllSafe;
    var was := SoFar(sh.current);
    assert was + "" == was;
    var quoted := Append(sh, "").(mode := Single);
    if s == "" {
      Two(env, sh, QUOTE, QUOTE);
    } else if AllSafe(s) {
      RunSafe(env, sh, s);
    } else {
      var e := EscapeQuotes(s);
      RunOne(env, sh, QUOTE);
      RunAppend(env, sh, [QUOTE], e);
      RunEscaped(env, quoted, s);
      RunAppend(env, sh, [QUOTE] + e, [QUOTE]);
      RunOne(env, quoted.(current := Some(was + s)), QUOTE);
    }
  }

  /** `SingleQuote` promises one token that is interpreted literally. */
  lemma SingleQuoteIsOneWord(env: Environment, s: string)
    ensures Words(env, SingleQuote(s)) == Some([s])
  {
    hide Run, SingleQuote;
    RunSingleQuote(env, START, s);
    assert "" + s == s;
    assert [] + [s] == [s];
  }

  // ---------------------------------------------------------------------------------
  // Variables
  // ---------------------------------------------------------------------------------

  lemma {:induction false} RunName(env: Environment, sh: Shell, name: string)
    requires sh.mode == Name("") && IsName(name)
    ensures Run(env, sh, name) == Some(sh.(mode := Name(name)))
    decreases |name|
  {
    hide Run, Step, IsName;
    var n := |name| - 1;
    NameGrows(env, sh, name);
    RunAppend(env, sh, name[..n], [name[n]]);
    assert name[..n] + [name[n]] == name;
    if n == 0 {
      RunNothing(env, sh);
      RunOne(env, sh, name[0]);
    } else {
      RunName(env, sh, name[..n]);
      RunOne(env, sh.(mode := Name(name[..n])), name[n]);
    }
  }

  /** One more letter of a name. */
  lemma NameGrows(env: Environment, sh: Shell, name: string)
    requires IsName(name)
    ensures
      var n := |name| - 1;
      && n >= 0 && (n > 0 ==> IsName(name[..n]))
      && Step(env, sh.(mode := Name(name[..n])), name[n]) == Some(sh.(mode := Name(name)))
  {
    var n := |name| - 1;
    assert name[..n] + [name[n]] == name;
  }

  lemma RunVariable(env: Environment, sh: Shell, name: string)
    requires sh.mode.Plain? && IsName(name) && name in env
    ensures Run(env, sh, Variable(name)) == Some(Append(sh, env[name]))
  {
    hide Run, IsName;
    var was := SoFar(sh.current);
    assert was + "" == was;
    var inside := Append(sh, "").(mode := Name(""));
    assert Variable(name) == [DOUBLE, '$'] + name + [DOUBLE];
    Two(env, sh, DOUBLE, '$');
    RunAppend(env, sh, [DOUBLE, '$'], name);
    RunName(env, inside, name);
    RunAppend(env, sh, [DOUBLE, '$'] + name, [DOUBLE]);
    RunOne(env, inside.(mode := Name(name)), DOUBLE);
    NameIsNotEmpty(name);
  }

  lemma NameIsNotEmpty(name: string)
    requires IsName(name)
    ensures name != ""
  {
  }

  // ---------------------------------------------------------------------------------
  // Splitting and joining
  // ---------------------------------------------------------------------------------

  lemma {:induction false} JoinSplit(s: string, sep: string)
    requires sep != ""
    ensures Join(sep, Split(s, sep)) == s
    decreases |s|
  {
    var k := FindFrom(s, sep, 0);
    if k < |s| {
      var rest := s[k + |sep|..];
      JoinSplit(rest, sep);
      var parts := Split(s, sep);
      assert parts[1..] == Split(rest, sep);
      assert s == s[..k] + sep + rest;
    }
  }

  lemma {:induction false} FindFromIsFirst(s: string, sep: string, i: nat, j: nat)
    requires i <= |s| && i <= j < FindFrom(s, sep, i)
    ensures !OccursAt(s, sep, j)
    decreases |s| - i
  {
    if j > i {
      FindFromIsFirst(s, sep, i + 1, j);
    }
  }

  lemma FirstPartHasNone(s: string, sep: string, k: nat, j: nat)
    requires k == FindFrom(s, sep, 0) && sep != ""
    ensures !OccursAt(s[..k], sep, j)
  {
    if j + |sep| <= k {
      FindFromIsFirst(s, sep, 0, j);
      assert s[..k][j..j + |sep|] == s[j..j + |sep|];
    }
  }

  /** Every part ends at the first occurrence of the separator, so no part has one. */
  lemma {:induction false} SplitLeavesNone(s: string, sep: string, i: nat, j: nat)
    requires sep != "" && i < |Split(s, sep)|
    ensures !OccursAt(Split(s, sep)[i], sep, j)
    ensures |Split(s, sep)| > 1 <==> exists k: nat :: OccursAt(s, sep, k)
    decreases |s|
  {
    var k := FindFrom(s, sep, 0);
    if k < |s| {
      assert OccursAt(s, sep, k);
      hide OccursAt;
      if i == 0 {
        FirstPartHasNone(s, sep, k, j);
      } else {
        SplitLeavesNone(s[k + |sep|..], sep, i - 1, j);
      }
    } else {
      forall k': nat ensures !OccursAt(s, sep, k') {
        if k' < |s| {
          FindFromIsFirst(s, sep, 0, k');
        }
      }
    }
  }

  /** What the parts of a word, with the variable between them, come to. */
  lemma {:induction false} RunParts(env: Environment, sh: Shell, name: string, parts: seq<string>)
    requires sh.mode.Plain? && IsName(name) && name in env && parts != []
    ensures Run(env, sh, Join(Variable(name), QuoteAll(parts)))
      == Some(sh.(current := Grown(sh.current, parts, env[name])))
    decreases |parts|
  {
    hide Run, IsName, SingleQuote, Variable, QuoteUnlessEmpty, Extend, SoFar;
    var n := |parts| - 1;
    var last := QuoteUnlessEmpty(parts[n]);
    if n == 0 {
      assert QuoteAll(parts) == [last];
      RunPart(env, sh, parts[0]);
    } else {
      var init := parts[..n];
      var text, v := Join(Variable(name), QuoteAll(init)), Variable(name);
      RunParts(env, sh, name, init);
      assert QuoteAll(parts) == QuoteAll(init) + [last];
      JoinAppend(v, QuoteAll(init), last);
      RunAppend(env, sh, text + v, last);
      RunAppend(env, sh, text, v);
      var q := sh.(current := Grown(sh.current, init, env[name]));
      RunVariable(env, q, name);
      RunPart(env, Append(q, env[name]), parts[n]);
    }
  }

  /** The word so far after the parts. */
  function Grown(current: Option<string>, parts: seq<string>, value: string): Option<string>
    requires parts != []
    decreases |parts|
  {
    var n := |parts| - 1;
    if n == 0 then Extend(current, parts[0])
    else Extend(Some(SoFar(Grown(current, parts[..n], value)) + value), parts[n])
  }

  lemma RunPart(env: Environment, sh: Shell, part: string)
    requires sh.mode.Plain?
    ensures Run(env, sh, QuoteUnlessEmpty(part)) == Some(sh.(current := Extend(sh.current, part)))
  {
    if part != "" {
      hide Run;
      RunSingleQuote(env, sh, part);
    }
  }

  lemma {:induction false} GrownIsJoined(parts: seq<string>, value: string)
    requires parts != []
    ensures SoFar(Grown(None, parts, value)) == Join(value, parts)
    ensures Grown(None, parts, value).None? ==> Join(value, parts) == "" && parts == [""]
    decreases |parts|
  {
    hide *;
    var n := |parts| - 1;
    if n == 0 {
      GrownFirst(parts, value);
    } else {
      GrownNext(parts, value);
      GrownIsJoined(parts[..n], value);
      JoinAppend(value, parts[..n], parts[n]);
      assert parts == parts[..n] + [parts[n]];
    }
  }

  lemma GrownFirst(parts: seq<string>, value: string)
    requires |parts| == 1
    ensures SoFar(Grown(None, parts, value)) == Join(value, parts) == parts[0]
    ensures Grown(None, parts, value).None? ==> parts[0] == ""
  {
    assert "" + parts[0] == parts[0];
  }

  lemma GrownNext(parts: seq<string>, value: string)
    requires |parts| > 1
    ensures
      var n := |parts| - 1;
      var grown := Grown(None, parts, value);
      grown.Some? && SoFar(grown) == SoFar(Grown(None, parts[..n], value)) + value + parts[n]
  {
  }

  // ---------------------------------------------------------------------------------
  // The snippet
  // ---------------------------------------------------------------------------------

  lemma RunShrink(env: Environment, sh: Shell, value: string, varName: string, varValue: string)
    requires sh.mode.Plain? && sh.current.None? && IsName(varName) && varValue != ""
    requires varName in env && env[varName] == varValue
    ensures Run(env, sh, Shrink(value, varName, varValue)) == Some(sh.(current := Some(value)))
  {
    hide Run, IsName, Grown, QuoteAll;
    var parts := Split(value, varValue);
    var text := Join(Variable(varName), QuoteAll(parts));
    RunParts(env, sh, varName, parts);
    JoinSplit(value, varValue);
    GrownIsJoined(parts, varValue);
    if text == "" {
      RunNothing(env, sh);
      assert Grown(None, parts, varValue) == None && value == "";
      RunSingleQuote(env, sh, "");
      assert Shrink(value, varName, varValue) == SingleQuote("");
      assert "" + "" == "";
    } else if Grown(None, parts, varValue).None? {
      OneEmptyPart(varName);
    }
  }

  lemma RunNothing(env: Environment, sh: Shell)
    ensures Run(env, sh, "") == Some(sh)
  {
  }

  lemma OneEmptyPart(varName: string)
    ensures Join(Variable(varName), QuoteAll([""])) == ""
  {
    assert QuoteAll([""]) == [""];
  }

  lemma {:induction false} RunSnippet(env: Environment, cmdParts: seq<string>, n: nat, varName: string,
                                      varValue: string)
    requires IsName(varName) && varValue != "" && varName in env && env[varName] == varValue && 0 < n <= |cmdParts|
    ensures
      Run(env, START, Join(" ", ShrinkAll(cmdParts, n, varName, varValue)))
        == Some(Shell(cmdParts[..n - 1], Some(cmdParts[n - 1]), Plain))
    decreases n
  {
    hide Run, IsName, Shrink;
    var last := Shrink(cmdParts[n - 1], varName, varValue);
    if n == 1 {
      assert ShrinkAll(cmdParts, n, varName, varValue) == [last];
      RunShrink(env, START, cmdParts[0], varName, varValue);
    } else {
      var before := ShrinkAll(cmdParts, n - 1, varName, varValue);
      var text := Join(" ", before);
      RunSnippet(env, cmdParts, n - 1, varName, varValue);
      assert ShrinkAll(cmdParts, n, varName, varValue) == before + [last];
      JoinAppend(" ", before, last);
      RunAppend(env, START, text + " ", last);
      RunAppend(env, START, text, " ");
      RunOne(env, Shell(cmdParts[..n - 2], Some(cmdParts[n - 2]), Plain), ' ');
      assert cmdParts[..n - 2] + [cmdParts[n - 2]] == cmdParts[..n - 1];
      RunShrink(env, Shell(cmdParts[..n - 1], None, Plain), cmdParts[n - 1], varName, varValue);
    }
  }

  lemma NoParts(varName: string, varValue: string)
    requires varValue != ""
    ensures ShrinkToSnippet([], varName, varValue) == ""
  {
  }

  /**
    Whatever the arguments and the non-empty value: with the variable set to the value, the
    snippet is read as exactly the arguments.
   */
  lemma SnippetIsTheCommand(env: Environment, cmdParts: seq<string>, varName: string, varValue: string)
    requires IsName(varName) && varValue != ""
    ensures Words(env[varName := varValue], ShrinkToSnippet(cmdParts, varName, varValue)) == Some(cmdParts)
  {
    hide Run, IsName, ShrinkAll;
    var bound := env[varName := varValue];
    var n := |cmdParts|;
    if n == 0 {
      NoParts(varName, varValue);
      RunNothing(bound, START);
    } else {
      hide Join;
      RunSnippet(bound, cmdParts, n, varName, varValue);
      assert cmdParts[..n - 1] + [cmdParts[n - 1]] == cmdParts;
    }
  }

  /** Left without quotes are the visible characters that mean nothing to a shell, and no others. */
  lemma SafeIsNotSpecial(c: char)
    ensures
      IsSafe(c) <==>
      '!' <= c <= '~' && c !in {
        '|', '&', ';', '<', '>', '(', ')', '$', '`', '\\', DOUBLE, QUOTE,
        '*', '?', '[', ']', '#', '~', '!', '{', '}', '^'
      }
  {
  }

  // ---------------------------------------------------------------------------------
  // Is it run as a command?
  // ---------------------------------------------------------------------------------

  /** Rule 7 of section 2.10.2 of the Shell Command Language: an unquoted name and `=` begin an assignment. */
  predicate IsAssignment(text: string) {
    exists k :: 0 <= k < |text| && text[k] == '=' && IsName(text[..k])
  }

  /** The reserved words of section 2.4 that `pipes.quote` leaves as they are. */
  const RESERVED: set<string> :=
    {"case", "do", "done", "elif", "else", "esac", "fi", "for", "if", "then", "until", "while"}

  /** Recognized as the first word of a command, where no part of it is quoted. */
  predicate IsReserved(text: string) {
    exists w :: w in RESERVED && StartsWithWord(text, w)
  }

  predicate StartsWithWord(text: string, w: string) {
    w <= text && (|text| == |w| || text[|w|] == ' ')
  }

  /** The text is a simple command: its words are the name of the command and the arguments. */
  predicate IsCommand(env: Environment, text: string, args: seq<string>) {
    Words(env, text) == Some(args) && !IsAssignment(text) && !IsReserved(text)
  }

  /** How a printed argument begins: with a part that needs no quotes, or with a quote. */
  lemma ShrinkBegins(value: string, varName: string, varValue: string)
    requires varValue != ""
    ensures
      var parts := Split(value, varValue);
      var text := Shrink(value, varName, varValue);
      if parts[0] != "" && AllSafe(parts[0]) then
        parts[0] <= text
          && (if |parts| == 1 then |text| == |parts[0]| else |text| > |parts[0]| && text[|parts[0]|] == DOUBLE)
      else text != "" && (text[0] == QUOTE || text[0] == DOUBLE)
  {
    hide Split;
    var parts := Split(value, varValue);
    var quoted := QuoteAll(parts);
    var v := Variable(varName);
    assert quoted[0] == QuoteUnlessEmpty(parts[0]);
    if |parts| > 1 {
      assert Join(v, quoted) == quoted[0] + v + Join(v, quoted[1..]);
    }
  }

  /** Only the first argument decides what the snippet begins with. */
  lemma SnippetBegins(cmdParts: seq<string>, varName: string, varValue: string)
    requires varValue != "" && cmdParts != []
    ensures
      var first := Shrink(cmdParts[0], varName, varValue);
      var text := ShrinkToSnippet(cmdParts, varName, varValue);
      first <= text && (|text| > |first| ==> text[|first|] == ' ')
  {
    hide Shrink;
    var all := ShrinkAll(cmdParts, |cmdParts|, varName, varValue);
    assert all[0] == Shrink(cmdParts[0], varName, varValue);
    if |all| > 1 {
      assert Join(" ", all) == all[0] + " " + Join(" ", all[1..]);
    }
  }

  lemma NameStopsAt(text: string, k: nat, i: nat)
    requires k <= |text| && IsName(text[..k]) && i < |text| && !IsNameChar(text[i])
    ensures k <= i
  {
    hide IsName;
    assert i < k ==> text[..k][i] == text[i];
    NameCharsOf(text[..k]);
  }

  lemma NameCharsOf(name: string)
    requires IsName(name)
    ensures forall i :: 0 <= i < |name| ==> IsNameChar(name[i])
  {
  }

  /** An assignment is not longer than what is printed without quotes. */
  lemma AssignmentIff(head: string, text: string)
    requires head <= text && (|text| > |head| ==> !IsNameChar(text[|head|]) && text[|head|] != '=')
    ensures IsAssignment(text) <==> IsAssignment(head)
  {
    if k: nat :| k < |text| && text[k] == '=' && IsName(text[..k]) {
      if |text| > |head| {
        NameStopsAt(text, k, |head|);
      }
      assert head[..k] == text[..k];
    }
    if k: nat :| k < |head| && head[k] == '=' && IsName(head[..k]) {
      assert head[..k] == text[..k];
    }
  }

  lemma QuotedIsNoAssignment(text: string)
    requires text != "" && (text[0] == QUOTE || text[0] == DOUBLE)
    ensures !IsAssignment(text) && !IsReserved(text)
  {
    forall k: nat | 0 < k < |text| ensures !IsName(text[..k]) {
      assert text[..k][0] == text[0];
    }
    forall w | w in RESERVED ensures !StartsWithWord(text, w) {
      ReservedIsLetters(w, 0);
    }
  }

  lemma ReservedIsLetters(w: string, i: nat)
    requires w in RESERVED && i < |w|
    ensures IsLetter(w[i])
  {
  }

  lemma WordIsHead(head: string, text: string, w: string)
    requires AllSafe(head) && head <= text && (|text| > |head| ==> text[|head|] == ' ' || text[|head|] == DOUBLE)
    requires w in RESERVED && StartsWithWord(text, w)
    ensures w == head
  {
    assert |w| < |head| ==> IsSafe(head[|w|]);
    if |w| > |head| {
      ReservedIsLetters(w, |head|);
    }
    hide RESERVED;
  }

  /** What is printed without quotes is followed by a space, a quote or the end. */
  lemma ReservedIff(head: string, text: string)
    requires AllSafe(head) && head <= text && (|text| > |head| ==> text[|head|] == ' ' || text[|head|] == DOUBLE)
    ensures IsReserved(text) <==> head in RESERVED && (|text| > |head| ==> text[|head|] == ' ')
  {
    if w :| w in RESERVED && StartsWithWord(text, w) {
      WordIsHead(head, text, w);
    }
    if head in RESERVED && (|text| > |head| ==> text[|head|] == ' ') {
      assert StartsWithWord(text, head);
    }
  }

  /** An argument that, printed first, is not taken for the name of a command. */
  predicate IsMisread(arg: string, varValue: string)
    requires varValue != ""
  {
    var parts := Split(arg, varValue);
    AllSafe(parts[0]) && (IsAssignment(parts[0]) || (|parts| == 1 && arg in RESERVED))
  }

  lemma OnePart(arg: string, varValue: string)
    requires varValue != "" && |Split(arg, varValue)| == 1
    ensures Split(arg, varValue)[0] == arg
  {
    JoinSplit(arg, varValue);
  }

  /** What a snippet begins with decides whether it is a command. */
  lemma BeginsAsCommandIff(cmdParts: seq<string>, varName: string, varValue: string)
    requires varValue != "" && cmdParts != []
    ensures
      var text := ShrinkToSnippet(cmdParts, varName, varValue);
      (IsAssignment(text) || IsReserved(text)) <==> IsMisread(cmdParts[0], varValue)
  {
    hide Split, Shrink, ShrinkToSnippet, IsReserved, IsAssignment, RESERVED;
    var text := ShrinkToSnippet(cmdParts, varName, varValue);
    var parts := Split(cmdParts[0], varValue);
    var head := parts[0];
    SnippetBegins(cmdParts, varName, varValue);
    ShrinkBegins(cmdParts[0], varName, varValue);
    if head != "" && AllSafe(head) {
      AssignmentIff(head, text);
      ReservedIff(head, text);
      if |parts| == 1 {
        OnePart(cmdParts[0], varValue);
      }
    } else {
      QuotedIsNoAssignment(text);
      EmptyIsNoCommand(cmdParts[0], varValue);
    }
  }

  lemma EmptyIsNoCommand(arg: string, varValue: string)
    requires varValue != "" && (Split(arg, varValue)[0] != "" ==> !AllSafe(Split(arg, varValue)[0]))
    ensures !IsMisread(arg, varValue)
  {
    if |Split(arg, varValue)| == 1 {
      OnePart(arg, varValue);
    }
  }

  /** The snippet runs the command if and only if its first argument is not misread. */
  lemma SnippetIsRunIff(env: Environment, cmdParts: seq<string>, varName: string, varValue: string)
    requires IsName(varName) && varValue != ""
    ensures
      var bound := env[varName := varValue];
      IsCommand(bound, ShrinkToSnippet(cmdParts, varName, varValue), cmdParts) <==>
        cmdParts == [] || !IsMisread(cmdParts[0], varValue)
  {
    hide Words, ShrinkToSnippet, IsName, IsMisread;
    SnippetIsTheCommand(env, cmdParts, varName, varValue);
    if cmdParts != [] {
      BeginsAsCommandIff(cmdParts, varName, varValue);
    } else {
      NoParts(varName, varValue);
    }
  }
}
