/**
  Nested dictionaries built from indented lines with a stack of the dictionaries that are still
  open.  As values: a level of the stack holds its dictionary without the open child, which is
  attached when the level above is closed.  The parsers fill objects in place, through a stack of
  references to them (NestedDicts.dfy), and are proved to build what these values say.
 */
module Listing {
  import opened Wrappers

  datatype Value = Text(text: string) | Sub(dict: Dict) | Nodes(nodes: seq<Dict>)

  datatype Dict = Dict(entries: map<string, Value>)

  const EMPTY := Dict(map[])

  /** How a child becomes part of its parent: in place of what is there, or after it. */
  datatype Style = Replacing | Appending

  function SetChild(d: Dict, name: string, child: Dict): Dict {
    Dict(d.entries[name := Sub(child)])
  }

  function AddElement(d: Dict, tag: string, child: Dict): Dict {
    var before := if tag in d.entries && d.entries[tag].Nodes? then d.entries[tag].nodes else [];
    Dict(d.entries[tag := Nodes(before + [child])])
  }

  /** A child without a key is lost: something else has taken its place. */
  function Attach(style: Style, d: Dict, key: Option<string>, child: Dict): Dict {
    if key.None? then d
    else if style.Replacing? then SetChild(d, key.value, child)
    else AddElement(d, key.value, child)
  }

  /** `levels[0]` is the root; `keys[i]` is the key of level i + 1 in level i. */
  datatype Stack = Stack(levels: seq<Dict>, keys: seq<Option<string>>)
  {
    predicate Valid() {
      |levels| == |keys| + 1
    }

    function Top(): Dict
      requires Valid()
    {
      levels[|levels| - 1]
    }

    function WithTop(d: Dict): (s: Stack)
      requires Valid()
      ensures s.Valid() && s.Top() == d && |s.levels| == |levels|
    {
      Stack(levels[..|levels| - 1] + [d], keys)
    }

    function Push(key: string, d: Dict): (s: Stack)
      requires Valid()
      ensures s.Valid() && s.Top() == d && |s.levels| == |levels| + 1
    {
      Stack(levels + [d], keys + [Some(key)])
    }

    function Pop(style: Style): (s: Stack)
      requires Valid() && |levels| > 1
      ensures s.Valid() && |s.levels| == |levels| - 1
    {
      var n := |levels| - 1;
      Stack(levels[..n - 1] + [Attach(style, levels[n - 1], keys[n - 1], levels[n])], keys[..n - 1])
    }

    /** Pops down to height n. */
    function Close(style: Style, n: nat): (s: Stack)
      requires Valid() && n > 0
      ensures s.Valid() && |s.levels| == if n < |levels| then n else |levels|
      decreases |levels|
    {
      if |levels| <= n then this else Pop(style).Close(style, n)
    }
  }

  const START := Stack([EMPTY], [])

  lemma {:induction false} CloseTwice(s: Stack, style: Style, m: nat, n: nat)
    requires s.Valid() && 0 < n <= m
    ensures s.Close(style, m).Close(style, n) == s.Close(style, n)
    decreases |s.levels|
  {
    if |s.levels| > m {
      CloseTwice(s.Pop(style), style, m, n);
    }
  }

  /** Closing what was pushed attaches it to what was the top. */
  lemma ClosePushed(s: Stack, style: Style, key: string, child: Dict, child': Dict)
    requires s.Valid()
    ensures s.Push(key, child).WithTop(child').Close(style, |s.levels|)
      == s.WithTop(Attach(style, s.Top(), Some(key), child'))
  {
    var t := s.Push(key, child).WithTop(child');
    var n := |s.levels|;
    assert t.levels[..n - 1] == s.levels[..n - 1] && t.keys[..n - 1] == s.keys;
    assert t.Pop(style) == s.WithTop(Attach(style, s.Top(), Some(key), child'));
    assert t.Close(style, n) == t.Pop(style).Close(style, n);
  }

  lemma WithTopTwice(s: Stack, d: Dict, d': Dict)
    requires s.Valid()
    ensures s.WithTop(d).WithTop(d') == s.WithTop(d') && s.WithTop(s.Top()) == s
  {
    assert s.WithTop(d).levels[..|s.levels| - 1] == s.levels[..|s.levels| - 1];
  }
}

/** `_ParseManifestFromApk` of devil/android/apk_helper.py. */
module Manifest {
  import opened Wrappers
  import opened Listing
  import opened NestedDicts

  datatype Kind = ElementLine(tag: string) | AttributeLine(key: string, value: string) | OtherLine

  /** A line after the regular expressions: its indentation in units of two spaces, and what it is. */
  datatype Line = Line(depth: nat, kind: Kind)

  /** The document that is dumped. */
  datatype Item = Attribute(key: string, value: string) | Element(tag: string, content: seq<Item>)

  datatype Error = IndexError | TypeError | BaseError

  /** A key is free, or has a list of elements. */
  predicate TakesElement(d: Dict, tag: string) {
    tag in d.entries ==> d.entries[tag].Nodes?
  }

  function AddAttribute(d: Dict, key: string, value: string): Result<Dict, Error> {
    if key in d.entries then Err(BaseError) else Ok(Dict(d.entries[key := Text(value)]))
  }

  // ---------------------------------------------------------------------------------
  // The parser
  // ---------------------------------------------------------------------------------

  function Close(s: Stack, n: nat): Stack
    requires s.Valid() && n > 0
  {
    s.Close(Appending, n)
  }

  function Step(s: Stack, line: Line): (r: Result<Stack, Error>)
    requires s.Valid()
    ensures r.Ok? ==> r.value.Valid()
  {
    // An unindented line leaves the stack empty, and there is no last node.
    if line.depth == 0 then Err(IndexError)
    else
      var t := Close(s, line.depth);
      match line.kind
      case ElementLine(tag) => if TakesElement(t.Top(), tag) then Ok(t.Push(tag, EMPTY)) else Err(TypeError)
      case AttributeLine(key, value) =>
        (match AddAttribute(t.Top(), key, value)
         case Ok(d) => Ok(t.WithTop(d))
         case Err(e) => Err(e))
      case OtherLine => Ok(t)
  }

  function Run(s: Stack, lines: seq<Line>): (r: Result<Stack, Error>)
    requires s.Valid()
    ensures r.Ok? ==> r.value.Valid()
    decreases |lines|
  {
    if lines == [] then Ok(s)
    else
      match Run(s, lines[..|lines| - 1])
      case Err(e) => Err(e)
      case Ok(t) => Step(t, lines[|lines| - 1])
  }

  function Parse(lines: seq<Line>): Result<Dict, Error> {
    match Run(START, lines)
    case Err(e) => Err(e)
    case Ok(s) => Ok(Close(s, 1).Top())
  }

  /** An element line: a new dictionary in the list of its tag. */
  method AddElementTo(nodeStack: seq<Dictionary>, tag: string, ghost s: Stack, ghost under: seq<Cells>,
                      ghost closed: set<Dictionary>)
    returns (now: seq<Dictionary>, ok: bool, ghost under': seq<Cells>)
    requires s.Valid() && Mirrors(Appending, nodeStack, s, under, closed)
    modifies nodeStack
    ensures ok <==> TakesElement(s.Top(), tag)
    ensures ok ==> Mirrors(Appending, now, s.Push(tag, EMPTY), under', closed)
    ensures ok ==> |now| == |nodeStack| + 1 && nodeStack <= now && fresh(now[|nodeStack|])
  {
    hide Denotes, AttachCell, Mirrors;
    TopHas(Appending, nodeStack, s, under, closed);
    var node := nodeStack[|nodeStack| - 1];
    ok := !(tag in node.entries && !node.entries[tag].NodesCell?);
    if ok {
      var child := new Dictionary(map[]);
      EmptyDenotes(closed);
      OpenChild(Appending, nodeStack, tag, child, s, under, closed, EMPTY);
      now, under' := nodeStack + [child], under + [map[]];
    } else {
      now, under' := nodeStack, under;
    }
  }

  /** An attribute line: a new key for the text. */
  method AddAttributeTo(nodeStack: seq<Dictionary>, key: string, value: string,
                        ghost s: Stack, ghost under: seq<Cells>, ghost closed: set<Dictionary>)
    returns (ok: bool, ghost under': seq<Cells>)
    requires s.Valid() && Mirrors(Appending, nodeStack, s, under, closed)
    modifies nodeStack
    ensures ok <==> AddAttribute(s.Top(), key, value).Ok?
    ensures ok ==> Mirrors(Appending, nodeStack, s.WithTop(AddAttribute(s.Top(), key, value).value), under', closed)
  {
    hide Denotes, AttachCell, Mirrors;
    TopHas(Appending, nodeStack, s, under, closed);
    ok := key !in nodeStack[|nodeStack| - 1].entries;
    under' := under;
    if ok {
      under' := SetText(Appending, nodeStack, key, value, s, under, closed);
    }
  }

  /** The body of the loop; the stack is as `s` says before and as Step says afterwards. */
  method ParseLine(nodeStack: seq<Dictionary>, line: Line, ghost s: Stack, ghost under: seq<Cells>,
                   ghost closed: set<Dictionary>)
    returns (now: seq<Dictionary>, error: Option<Error>, ghost under': seq<Cells>, ghost closed': set<Dictionary>)
    requires s.Valid() && Mirrors(Appending, nodeStack, s, under, closed)
    modifies nodeStack
    ensures match Step(s, line)
            case Err(e) => error == Some(e)
            case Ok(t) => error == None && Mirrors(Appending, now, t, under', closed')
    ensures error == None ==> |now| > 0 && |nodeStack| > 0 && now[0] == nodeStack[0]
    ensures error == None ==> forall i :: 0 <= i < |now| ==> now[i] in nodeStack || fresh(now[i])
  {
    hide Denotes, AttachCell, Mirrors, TakesElement;
    if line.depth == 0 {
      return nodeStack, Some(IndexError), under, closed;
    }
    TopHas(Appending, nodeStack, s, under, closed);
    under', closed' := CloseMirrors(Appending, nodeStack, s, under, closed, line.depth);
    now := if line.depth < |nodeStack| then nodeStack[..line.depth] else nodeStack;
    error := None;
    ghost var t := Close(s, line.depth);
    match line.kind {
      case ElementLine(tag) =>
        var ok;
        now, ok, under' := AddElementTo(now, tag, t, under', closed');
        error := if ok then None else Some(TypeError);
      case AttributeLine(key, value) =>
        var ok;
        ok, under' := AddAttributeTo(now, key, value, t, under', closed');
        error := if ok then None else Some(BaseError);
      case OtherLine =>
    }
  }

  lemma EmptyDenotes(closed: set<Dictionary>)
    ensures Denotes(map[], EMPTY, closed)
  {
  }

  /** The dictionary objects that the source builds mean what `Parse` says. */
  method ParseManifest(lines: seq<Line>) returns (manifest: Result<Dictionary, Error>)
    ensures manifest.Ok? <==> Parse(lines).Ok?
    ensures manifest.Ok? ==> exists closed :: Denotes(manifest.value.entries, Parse(lines).value, closed)
    ensures manifest.Err? ==> Parse(lines) == Err(manifest.error)
  {
    hide Step;
    var parsedManifest := new Dictionary(map[]);
    var nodeStack := [parsedManifest];
    ghost var s, under: seq<Cells> := START, [map[]];
    ghost var closed := {};
    for i := 0 to |lines|
      invariant s.Valid() && Run(START, lines[..i]) == Ok(s) && Mirrors(Appending, nodeStack, s, under, closed)
      invariant |nodeStack| > 0 && nodeStack[0] == parsedManifest
      invariant forall k :: 0 <= k < |nodeStack| ==> fresh(nodeStack[k])
    {
      assert lines[..i + 1][..i] == lines[..i];
      var error;
      ghost var next := Step(s, lines[i]);
      nodeStack, error, under, closed := ParseLine(nodeStack, lines[i], s, under, closed);
      if error.Some? {
        RunStops(START, lines, i + 1);
        return Err(error.value);
      }
      s := next.value;
    }
    assert lines[..|lines|] == lines;
    under, closed := CloseMirrors(Appending, nodeStack, s, under, closed, 1);
    return Ok(parsedManifest);
  }

  lemma {:induction false} RunStops(s: Stack, lines: seq<Line>, n: nat)
    requires s.Valid() && n <= |lines| && Run(s, lines[..n]).Err?
    ensures Run(s, lines) == Run(s, lines[..n])
    decreases |lines|
  {
    if n == |lines| {
      assert lines[..n] == lines;
    } else {
      assert lines[..|lines| - 1][..n] == lines[..n];
      RunStops(s, lines[..|lines| - 1], n);
    }
  }

  lemma {:induction false} RunAppend(s: Stack, a: seq<Line>, b: seq<Line>)
    requires s.Valid()
    ensures Run(s, a + b) == match Run(s, a) case Err(e) => Err(e) case Ok(t) => Run(t, b)
    decreases |b|
  {
    if b == [] {
      assert a + b == a;
    } else {
      var n := |b| - 1;
      RunAppend(s, a, b[..n]);
      assert (a + b)[..|a + b| - 1] == a + b[..n];
    }
  }

  lemma RunOne(s: Stack, line: Line)
    requires s.Valid()
    ensures Run(s, [line]) == Step(s, line)
  {
    assert [line][..0] == [];
  }

  // ---------------------------------------------------------------------------------
  // The document
  // ---------------------------------------------------------------------------------

  /** The dump: depth-first, two spaces a level. */
  function Print(item: Item, depth: nat): seq<Line>
    decreases item
  {
    match item
    case Attribute(key, value) => [Line(depth, AttributeLine(key, value))]
    case Element(tag, content) => [Line(depth, ElementLine(tag))] + PrintAll(content, |content|, depth + 1)
  }

  function PrintAll(items: seq<Item>, n: nat, depth: nat): seq<Line>
    requires n <= |items|
    decreases items, n
  {
    if n == 0 then [] else PrintAll(items, n - 1, depth) + Print(items[n - 1], depth)
  }

  /** What a document is as a dictionary: item by item, from d on. */
  function Meaning(d: Dict, items: seq<Item>, n: nat): Result<Dict, Error>
    requires n <= |items|
    decreases items, n
  {
    if n == 0 then Ok(d)
    else
      match Meaning(d, items, n - 1)
      case Err(e) => Err(e)
      case Ok(before) =>
        match items[n - 1]
        case Attribute(key, value) => AddAttribute(before, key, value)
        case Element(tag, content) =>
          if !TakesElement(before, tag) then Err(TypeError)
          else
            match Meaning(EMPTY, content, |content|)
            case Err(e) => Err(e)
            case Ok(child) => Ok(AddElement(before, tag, child))
  }

  /** The stack may be deeper after the lines; closed to the depth of the items it has grown by them. */
  ghost predicate Grown(s: Stack, depth: nat, items: seq<Item>, n: nat, r: Result<Stack, Error>)
    requires s.Valid() && n <= |items| && 0 < depth && (r.Ok? ==> r.value.Valid())
  {
    var t := Close(s, depth);
    match Meaning(t.Top(), items, n)
    case Err(e) => r == Err(e)
    case Ok(d) => r.Ok? && Close(r.value, depth) == t.WithTop(d)
  }

  lemma CloseClosed(s: Stack, n: nat)
    requires s.Valid() && 0 < n && |s.levels| <= n
    ensures Close(s, n) == s
  {
  }

  lemma ElementCloses(s: Stack, q: Stack, depth: nat, tag: string, child: Dict)
    requires s.Valid() && q.Valid() && 0 < depth == |q.levels|
    requires Close(s, depth + 1) == q.Push(tag, EMPTY).WithTop(child)
    ensures Close(s, depth) == q.WithTop(AddElement(q.Top(), tag, child))
  {
    CloseTwice(s, Appending, depth + 1, depth);
    ClosePushed(q, Appending, tag, EMPTY, child);
  }

  lemma CloseHeight(s: Stack, n: nat)
    requires s.Valid() && 0 < n <= |s.levels|
    ensures |Close(s, n).levels| == n
  {
  }

  lemma {:induction false} RunPrinted(s: Stack, depth: nat, items: seq<Item>, n: nat)
    requires s.Valid() && n <= |items| && 0 < depth <= |s.levels|
    ensures Grown(s, depth, items, n, Run(s, PrintAll(items, n, depth)))
    decreases items, n
  {
    if n == 0 {
      WithTopTwice(Close(s, depth), Close(s, depth).Top(), Close(s, depth).Top());
    } else {
      RunPrinted(s, depth, items, n - 1);
      var before := Run(s, PrintAll(items, n - 1, depth));
      RunAppend(s, PrintAll(items, n - 1, depth), Print(items[n - 1], depth));
      if before.Ok? {
        RunItem(s, depth, items, n, before.value);
      }
    }
  }

  lemma {:induction false} RunItem(s: Stack, depth: nat, items: seq<Item>, n: nat, before: Stack)
    requires s.Valid() && 0 < n <= |items| && 0 < depth <= |s.levels| && before.Valid()
    requires Grown(s, depth, items, n - 1, Ok(before))
    ensures Grown(s, depth, items, n, Run(before, Print(items[n - 1], depth)))
    decreases items, n, 0
  {
    var d := Meaning(Close(s, depth).Top(), items, n - 1).value;
    match items[n - 1]
    case Attribute(key, value) =>
      RunAttribute(s, depth, before, d, key, value);
    case Element(tag, content) =>
      if TakesElement(d, tag) {
        RunPrinted(Close(s, depth).WithTop(d).Push(tag, EMPTY), depth + 1, content, |content|);
      }
      RunElement(s, depth, before, d, tag, content);
  }

  /** From where the stack is `before` when the items so far mean `d`. */
  lemma RunAttribute(s: Stack, depth: nat, before: Stack, d: Dict, key: string, value: string)
    requires s.Valid() && 0 < depth <= |s.levels| && before.Valid()
    requires Close(before, depth) == Close(s, depth).WithTop(d)
    ensures
      var r := Run(before, [Line(depth, AttributeLine(key, value))]);
      match AddAttribute(d, key, value)
      case Err(e) => r == Err(e)
      case Ok(d') => r.Ok? && Close(r.value, depth) == Close(s, depth).WithTop(d')
  {
    hide Run, Close;
    CloseHeight(s, depth);
    RunOne(before, Line(depth, AttributeLine(key, value)));
    if AddAttribute(d, key, value).Ok? {
      var d' := AddAttribute(d, key, value).value;
      WithTopTwice(Close(s, depth), d, d');
      CloseClosed(Close(s, depth).WithTop(d'), depth);
    }
  }

  lemma RunElement(s: Stack, depth: nat, before: Stack, d: Dict, tag: string, content: seq<Item>)
    requires s.Valid() && 0 < depth <= |s.levels| && before.Valid()
    requires Close(before, depth) == Close(s, depth).WithTop(d)
    requires TakesElement(d, tag) ==>
      var p := Close(s, depth).WithTop(d).Push(tag, EMPTY);
      Grown(p, depth + 1, content, |content|, Run(p, PrintAll(content, |content|, depth + 1)))
    ensures
      var r := Run(before, Print(Element(tag, content), depth));
      if !TakesElement(d, tag) then r == Err(TypeError)
      else
        match Meaning(EMPTY, content, |content|)
        case Err(e) => r == Err(e)
        case Ok(child) => r.Ok? && Close(r.value, depth) == Close(s, depth).WithTop(AddElement(d, tag, child))
  {
    hide Run, TakesElement, AddElement, Meaning, Close;
    CloseHeight(s, depth);
    var q := Close(s, depth).WithTop(d);
    var head, body := [Line(depth, ElementLine(tag))], PrintAll(content, |content|, depth + 1);
    RunAppend(before, head, body);
    RunOne(before, head[0]);
    if TakesElement(d, tag) {
      var p := q.Push(tag, EMPTY);
      CloseClosed(p, depth + 1);
      var r := Run(p, body);
      if r.Ok? {
        var child := Meaning(EMPTY, content, |content|).value;
        ElementCloses(r.value, q, depth, tag, child);
        WithTopTwice(Close(s, depth), d, AddElement(d, tag, child));
      }
    }
  }

  /** Parsing inverts printing: for every document, its errors included. */
  lemma ParseInvertsPrint(items: seq<Item>)
    ensures Parse(PrintAll(items, |items|, 1)) == Meaning(EMPTY, items, |items|)
  {
    RunPrinted(START, 1, items, |items|);
  }

  // ---------------------------------------------------------------------------------
  // Other lines
  // ---------------------------------------------------------------------------------

  /** A line that is neither, before one that is indented no deeper, changes nothing. */
  lemma OtherThenLine(s: Stack, depth: nat, line: Line)
    requires s.Valid() && line.depth <= depth && depth > 0
    ensures Step(s, Line(depth, OtherLine)).Ok?
    ensures Step(Step(s, Line(depth, OtherLine)).value, line) == Step(s, line)
  {
    if line.depth > 0 {
      CloseTwice(s, Appending, depth, line.depth);
    }
  }

  /** Other lines are ignored where no deeper line follows; one that is not indented is an error. */
  lemma OtherLinesAreIgnored(before: seq<Line>, depth: nat, after: seq<Line>)
    requires after == [] || after[0].depth <= depth
    ensures depth > 0 ==> Parse(before + [Line(depth, OtherLine)] + after) == Parse(before + after)
    ensures depth == 0 && Parse(before).Ok? ==> Parse(before + [Line(depth, OtherLine)] + after) == Err(IndexError)
  {
    var other := Line(depth, OtherLine);
    RunAppend(START, before, [other]);
    RunAppend(START, before + [other], after);
    RunAppend(START, before, after);
    if Run(START, before).Ok? {
      var s := Run(START, before).value;
      RunOne(s, other);
      if depth > 0 {
        var t := Step(s, other).value;
        if after == [] {
          CloseTwice(s, Appending, depth, 1);
        } else {
          OtherThenLine(s, depth, after[0]);
          assert after == [after[0]] + after[1..];
          RunAppend(s, [after[0]], after[1..]);
          RunAppend(t, [after[0]], after[1..]);
          RunOne(s, after[0]);
          RunOne(t, after[0]);
        }
      }
    }
  }

  // ---------------------------------------------------------------------------------
  // What the dictionary says
  // ---------------------------------------------------------------------------------

  function KeyOf(item: Item): string {
    match item
    case Attribute(key, _) => key
    case Element(tag, _) => tag
  }

  /** The elements with a tag, in document order. */
  function Children(items: seq<Item>, n: nat, tag: string): seq<Dict>
    requires n <= |items|
  {
    if n == 0 then []
    else
      Children(items, n - 1, tag)
      + (match items[n - 1]
         case Attribute(_, _) => []
         case Element(t, content) =>
           if t != tag then []
           else
             match Meaning(EMPTY, content, |content|)
             case Ok(child) => [child]
             case Err(_) => [])
  }

  /** An attribute has its text, a tag its elements in document order, and nothing else is there. */
  ghost predicate EntryIsRight(items: seq<Item>, n: nat, key: string, d: Dict)
    requires n <= |items|
  {
    if key !in d.entries then forall i :: 0 <= i < n ==> KeyOf(items[i]) != key
    else
      match d.entries[key]
      case Text(value) => (exists i :: 0 <= i < n && items[i] == Attribute(key, value)) && Children(items, n, key) == []
      case Nodes(nodes) =>
        && nodes == Children(items, n, key) != []
        && forall i :: 0 <= i < n && KeyOf(items[i]) == key ==> items[i].Element?
      case Sub(_) => false
  }

  lemma {:induction false} NoChildren(items: seq<Item>, n: nat, key: string)
    requires n <= |items| && forall i :: 0 <= i < n ==> KeyOf(items[i]) != key
    ensures Children(items, n, key) == []
    decreases n
  {
    if n > 0 {
      NoChildren(items, n - 1, key);
    }
  }

  lemma {:induction false} EntriesAreRight(items: seq<Item>, n: nat, key: string)
    requires n <= |items| && Meaning(EMPTY, items, n).Ok?
    ensures EntryIsRight(items, n, key, Meaning(EMPTY, items, n).value)
    decreases n
  {
    if n > 0 {
      EntriesAreRight(items, n - 1, key);
      var before := Meaning(EMPTY, items, n - 1).value;
      if key !in before.entries {
        NoChildren(items, n - 1, key);
      }
    }
  }

  /** Two items of one dictionary have the same key, and one of them is an attribute. */
  ghost predicate Clash(items: seq<Item>, n: nat)
    requires n <= |items|
  {
    exists i, k :: 0 <= i < k < n && KeyOf(items[i]) == KeyOf(items[k]) && (items[i].Attribute? || items[k].Attribute?)
  }

  ghost predicate WellFormed(items: seq<Item>, n: nat)
    requires n <= |items|
    decreases items, n
  {
    !Clash(items, n) && forall i :: 0 <= i < n && items[i].Element? ==> WellFormed(items[i].content, |items[i].content|)
  }

  /** Documents are accepted exactly when attributes have keys of their own, at every level. */
  lemma {:induction false} AcceptedIff(items: seq<Item>, n: nat)
    requires n <= |items|
    ensures Meaning(EMPTY, items, n).Ok? <==> WellFormed(items, n)
    decreases items, n
  {
    if n > 0 {
      AcceptedIff(items, n - 1);
      var last := items[n - 1];
      if last.Element? {
        AcceptedIff(last.content, |last.content|);
      }
      if Meaning(EMPTY, items, n - 1).Ok? {
        EntriesAreRight(items, n - 1, KeyOf(last));
        ClashAppears(items, n, Meaning(EMPTY, items, n - 1).value);
      } else {
        assert Clash(items, n - 1) ==> Clash(items, n);
      }
    }
  }

  /**
    The first item that is refused: an attribute whose key is taken raises the error of the module, an
    element whose tag is an attribute a TypeError, and one with an error inside that error.
   */
  lemma ErrorIs(items: seq<Item>, n: nat)
    requires 0 < n <= |items| && Meaning(EMPTY, items, n - 1).Ok?
    ensures
      var last, m := items[n - 1], Meaning(EMPTY, items, n);
      && (last.Attribute? && Meets(items, n - 1, last) ==> m == Err(BaseError))
      && (last.Element? && Meets(items, n - 1, last) ==> m == Err(TypeError))
      && (last.Element? && !Meets(items, n - 1, last) ==>
            var inner := Meaning(EMPTY, last.content, |last.content|);
            inner.Err? ==> m == inner)
  {
    hide Children, Meets;
    var last, before := items[n - 1], Meaning(EMPTY, items, n - 1).value;
    EntriesAreRight(items, n - 1, KeyOf(last));
    if KeyOf(last) in before.entries {
      KeyIsTaken(items, n - 1, last, before);
    } else {
      KeyIsFree(items, n - 1, last);
    }
  }

  lemma ClashAppears(items: seq<Item>, n: nat, before: Dict)
    requires 0 < n <= |items| && !Clash(items, n - 1) && EntryIsRight(items, n - 1, KeyOf(items[n - 1]), before)
    ensures
      var last := items[n - 1];
      Clash(items, n) <==> if last.Attribute? then KeyOf(last) in before.entries else !TakesElement(before, KeyOf(last))
  {
    hide Clash, Children, Meets;
    var last := items[n - 1];
    ClashGrows(items, n);
    if KeyOf(last) in before.entries {
      KeyIsTaken(items, n - 1, last, before);
    } else {
      KeyIsFree(items, n - 1, last);
    }
  }

  /** An item of the same key came before, and it or this one is an attribute. */
  ghost predicate Meets(items: seq<Item>, n: nat, item: Item)
    requires n <= |items|
  {
    exists i :: 0 <= i < n && KeyOf(items[i]) == KeyOf(item) && (items[i].Attribute? || item.Attribute?)
  }

  lemma ClashGrows(items: seq<Item>, n: nat)
    requires 0 < n <= |items|
    ensures Clash(items, n) <==> Clash(items, n - 1) || Meets(items, n - 1, items[n - 1])
  {
    hide KeyOf;
    if Clash(items, n) && !Clash(items, n - 1) {
      var i, k :| 0 <= i < k < n && KeyOf(items[i]) == KeyOf(items[k]) && (items[i].Attribute? || items[k].Attribute?);
      assert k == n - 1;
    }
  }

  lemma KeyIsFree(items: seq<Item>, n: nat, item: Item)
    requires n <= |items| && forall i :: 0 <= i < n ==> KeyOf(items[i]) != KeyOf(item)
    ensures !Meets(items, n, item)
  {
  }

  lemma KeyIsTaken(items: seq<Item>, n: nat, item: Item, d: Dict)
    requires n <= |items| && KeyOf(item) in d.entries && EntryIsRight(items, n, KeyOf(item), d)
    ensures Meets(items, n, item) <==> item.Attribute? || d.entries[KeyOf(item)].Text?
  {
    var key := KeyOf(item);
    if d.entries[key].Nodes? && !(exists i :: 0 <= i < n && KeyOf(items[i]) == key) {
      NoChildren(items, n, key);
    }
  }
}

/** `_lsusbv_on_device` of devil/utils/lsusb.py. */
module Lsusb {
  import opened Wrappers
  import opened Listing
  import opened NestedDicts

  /**
    A line after the regular expressions.  A group and an entry open a dictionary; `Header` is the
    line with the description of the device, `Other` a line that matches nothing.
   */
  datatype Kind = Header(desc: string) | Group(name: string) | Entry(name: string, value: string, desc: string) | Other

  /** `indent` is the number of leading spaces. */
  datatype Line = Line(indent: nat, kind: Kind)

  /** A group, or an entry with its value and description, and what is listed under it. */
  datatype Node = Node(name: string, entry: bool, value: string, desc: string, content: seq<Node>)

  function NewDict(entry: bool, value: string, desc: string): Dict {
    if entry then Dict(map["_value" := Text(value), "_desc" := Text(desc)]) else EMPTY
  }

  function Close(s: Stack, n: nat): Stack
    requires s.Valid() && n > 0
  {
    s.Close(Replacing, n)
  }

  // ---------------------------------------------------------------------------------
  // The parser
  // ---------------------------------------------------------------------------------

  /** The description takes the place of whatever the root has under `desc`, an open group included. */
  function SetRootDesc(s: Stack, desc: string): (t: Stack)
    requires s.Valid()
    ensures t.Valid()
  {
    var keys := if s.keys != [] && s.keys[0] == Some("desc") then [None] + s.keys[1..] else s.keys;
    Stack([Dict(s.levels[0].entries["desc" := Text(desc)])] + s.levels[1..], keys)
  }

  function Step(s: Stack, line: Line): (t: Stack)
    requires s.Valid()
    ensures t.Valid()
  {
    if line.kind.Header? then
      SetRootDesc(s, line.kind.desc)
    else
      var depth := 1 + line.indent / 2;
      if depth > |s.levels| then s
      else
        var t := Close(s, depth);
        match line.kind
        case Group(name) => t.Push(name, NewDict(false, "", ""))
        case Entry(name, value, desc) => t.Push(name, NewDict(true, value, desc))
        case _ => t
  }

  function Run(s: Stack, lines: seq<Line>): (t: Stack)
    requires s.Valid()
    ensures t.Valid()
    decreases |lines|
  {
    if lines == [] then s else Step(Run(s, lines[..|lines| - 1]), lines[|lines| - 1])
  }

  function Device(bus: string, device: string): Dict {
    Dict(map["bus" := Text(bus), "device" := Text(device)])
  }

  function Parse(busId: string, devId: string, lines: seq<Line>): Dict {
    Close(Run(Stack([Device(busId, devId)], []), lines), 1).Top()
  }

  /** The header line: the description takes the place of a group of that name. */
  method SetDesc(depthStack: seq<Dictionary>, desc: string, ghost s: Stack, ghost under: seq<Cells>,
                 ghost closed: set<Dictionary>)
    returns (ghost under': seq<Cells>)
    requires s.Valid() && Mirrors(Replacing, depthStack, s, under, closed)
    modifies depthStack[0]
    ensures Mirrors(Replacing, depthStack, SetRootDesc(s, desc), under', closed)
  {
    var device := depthStack[0];
    hide Denotes;
    TextDenotes(under[0], s.levels[0], "desc", desc, closed);
    device.entries := device.entries["desc" := TextCell(desc)];
    under' := under[0 := under[0]["desc" := TextCell(desc)]];
    ghost var t := SetRootDesc(s, desc);
    assert |depthStack| > 1 ==> device.entries == AttachCell(Replacing, under'[0], t.keys[0], depthStack[1]);
  }

  /** Pop everything that is not a parent of a line of this depth. */
  method PopTo(depthStack: seq<Dictionary>, depth: nat, ghost s: Stack, ghost under: seq<Cells>,
               ghost closed: set<Dictionary>)
    returns (now: seq<Dictionary>, ghost under': seq<Cells>, ghost closed': set<Dictionary>)
    requires s.Valid() && Mirrors(Replacing, depthStack, s, under, closed) && 0 < depth <= |depthStack|
    ensures now == depthStack[..depth] && Mirrors(Replacing, now, Close(s, depth), under', closed')
  {
    hide Mirrors;
    TopHas(Replacing, depthStack, s, under, closed);
    now, under', closed' := depthStack, under, closed;
    ghost var t := s;
    while depth < |now|
      invariant t.Valid() && Mirrors(Replacing, now, t, under', closed')
      invariant now <= depthStack && depth <= |now| == |under'| == |t.levels|
      invariant Close(t, depth) == Close(s, depth)
    {
      PopMirrors(Replacing, now, t, under', closed');
      under', closed' := under'[..|now| - 2] + [now[|now| - 2].entries], closed' + {now[|now| - 1]};
      now, t := now[..|now| - 1], t.Pop(Replacing);
    }
  }

  /** The body of the loop. */
  method ParseLine(depthStack: seq<Dictionary>, line: Line, ghost s: Stack, ghost under: seq<Cells>,
                   ghost closed: set<Dictionary>)
    returns (now: seq<Dictionary>, ghost under': seq<Cells>, ghost closed': set<Dictionary>)
    requires s.Valid() && Mirrors(Replacing, depthStack, s, under, closed)
    modifies depthStack
    ensures Mirrors(Replacing, now, Step(s, line), under', closed')
    ensures |now| > 0 && |depthStack| > 0 && now[0] == depthStack[0]
    ensures forall i :: 0 <= i < |now| ==> now[i] in depthStack || fresh(now[i])
  {
    hide Denotes, AttachCell, Mirrors;
    TopHas(Replacing, depthStack, s, under, closed);
    now, under', closed' := depthStack, under, closed;
    if line.kind.Header? {
      under' := SetDesc(depthStack, line.kind.desc, s, under, closed);
      return;
    }
    var depth := 1 + line.indent / 2;
    if depth > |depthStack| {
      return;
    }
    now, under', closed' := PopTo(depthStack, depth, s, under, closed);
    ghost var t := Close(s, depth);
    match line.kind {
      case Group(name) =>
        var newGroup := new Dictionary(map[]);
        NewDenotes(false, "", "", closed');
        OpenChild(Replacing, now, name, newGroup, t, under', closed', NewDict(false, "", ""));
        now, under' := now + [newGroup], under' + [newGroup.entries];
      case Entry(name, value, desc) =>
        var newEntry := new Dictionary(map["_value" := TextCell(value), "_desc" := TextCell(desc)]);
        NewDenotes(true, value, desc, closed');
        OpenChild(Replacing, now, name, newEntry, t, under', closed', NewDict(true, value, desc));
        now, under' := now + [newEntry], under' + [newEntry.entries];
      case _ =>
    }
  }

  lemma NewDenotes(entry: bool, value: string, desc: string, closed: set<Dictionary>)
    ensures
      var cells: Cells := if entry then map["_value" := TextCell(value), "_desc" := TextCell(desc)] else map[];
      Denotes(cells, NewDict(entry, value, desc), closed)
  {
  }

  /** The dictionary objects that the source builds mean what `Parse` says. */
  method LsusbvOnDevice(busId: string, devId: string, lines: seq<Line>) returns (device: Dictionary)
    ensures exists closed :: Denotes(device.entries, Parse(busId, devId, lines), closed)
  {
    hide Step;
    ghost var start := Stack([Device(busId, devId)], []);
    device := new Dictionary(map["bus" := TextCell(busId), "device" := TextCell(devId)]);
    var depthStack := [device];
    ghost var s, under: seq<Cells> := start, [device.entries];
    ghost var closed := {};
    assert Denotes(device.entries, Device(busId, devId), closed);
    for i := 0 to |lines|
      invariant s.Valid() && s == Run(start, lines[..i]) && Mirrors(Replacing, depthStack, s, under, closed)
      invariant |depthStack| > 0 && depthStack[0] == device
      invariant forall k :: 0 <= k < |depthStack| ==> fresh(depthStack[k])
    {
      assert lines[..i + 1][..i] == lines[..i];
      ghost var next := Step(s, lines[i]);
      depthStack, under, closed := ParseLine(depthStack, lines[i], s, under, closed);
      s := next;
    }
    assert lines[..|lines|] == lines;
    under, closed := CloseMirrors(Replacing, depthStack, s, under, closed, 1);
    assert Denotes(device.entries, Parse(busId, devId, lines), closed);
  }

  lemma LastStep(s: Stack, lines: seq<Line>)
    requires s.Valid() && lines != []
    ensures Run(s, lines) == Step(Run(s, lines[..|lines| - 1]), lines[|lines| - 1])
  {
  }

  lemma {:induction false} RunAppend(s: Stack, a: seq<Line>, b: seq<Line>)
    requires s.Valid()
    ensures Run(s, a + b) == Run(Run(s, a), b)
    decreases |b|
  {
    if b == [] {
      assert a + b == a;
    } else {
      hide *;
      var n := |b| - 1;
      RunAppend(s, a, b[..n]);
      assert (a + b)[..|a + b| - 1] == a + b[..n];
      LastStep(s, a + b);
      LastStep(Run(s, a), b);
    }
  }

  lemma RunOne(s: Stack, line: Line)
    requires s.Valid()
    ensures Run(s, [line]) == Step(s, line)
  {
    assert [line][..0] == [];
  }

  // ---------------------------------------------------------------------------------
  // The tree
  // ---------------------------------------------------------------------------------

  function HeadLine(node: Node, depth: nat): Line {
    Line(2 * depth, if node.entry then Entry(node.name, node.value, node.desc) else Group(node.name))
  }

  function Print(nodes: seq<Node>, n: nat, depth: nat): seq<Line>
    requires n <= |nodes|
    decreases nodes, n
  {
    if n == 0 then []
    else
      var last := nodes[n - 1];
      Print(nodes, n - 1, depth) + ([HeadLine(last, depth)] + Print(last.content, |last.content|, depth + 1))
  }

  /** The dictionary of a list of nodes: a later node takes the place of an earlier one of its name. */
  function Meaning(d: Dict, nodes: seq<Node>, n: nat): Dict
    requires n <= |nodes|
    decreases nodes, n
  {
    if n == 0 then d
    else
      var last := nodes[n - 1];
      SetChild(Meaning(d, nodes, n - 1), last.name,
               Meaning(NewDict(last.entry, last.value, last.desc), last.content, |last.content|))
  }

  /** Closed to the depth of the nodes, the stack has grown by what they mean. */
  ghost predicate Grown(s: Stack, depth: nat, nodes: seq<Node>, n: nat, r: Stack)
    requires s.Valid() && n <= |nodes| && r.Valid()
  {
    var t := Close(s, depth + 1);
    Close(r, depth + 1) == t.WithTop(Meaning(t.Top(), nodes, n)) && |r.levels| > depth
  }

  lemma {:induction false} RunPrinted(s: Stack, depth: nat, nodes: seq<Node>, n: nat)
    requires s.Valid() && n <= |nodes| && depth < |s.levels|
    ensures Grown(s, depth, nodes, n, Run(s, Print(nodes, n, depth)))
    decreases nodes, n
  {
    hide Run, Grown, HeadLine, Meaning;
    if n == 0 {
      NothingGrown(s, depth, nodes);
    } else {
      var last := nodes[n - 1];
      var lines, body := Print(nodes, n - 1, depth), Print(last.content, |last.content|, depth + 1);
      RunPrinted(s, depth, nodes, n - 1);
      RunAppend(s, lines, [HeadLine(last, depth)] + body);
      RunNode(s, depth, nodes, n, Run(s, lines));
    }
  }

  lemma NothingGrown(s: Stack, depth: nat, nodes: seq<Node>)
    requires s.Valid() && depth < |s.levels|
    ensures Grown(s, depth, nodes, 0, Run(s, Print(nodes, 0, depth)))
  {
    var t := Close(s, depth + 1);
    WithTopTwice(t, t.Top(), t.Top());
  }

  lemma {:induction false} RunNode(s: Stack, depth: nat, nodes: seq<Node>, n: nat, before: Stack)
    requires s.Valid() && 0 < n <= |nodes| && depth < |s.levels| && before.Valid()
    requires Grown(s, depth, nodes, n - 1, before)
    ensures
      var last := nodes[n - 1];
      Grown(s, depth, nodes, n, Run(before, [HeadLine(last, depth)] + Print(last.content, |last.content|, depth + 1)))
    decreases nodes, n, 0
  {
    var t, last := Close(s, depth + 1), nodes[n - 1];
    var body := Print(last.content, |last.content|, depth + 1);
    var d := Meaning(t.Top(), nodes, n - 1);
    var start := NewDict(last.entry, last.value, last.desc);
    var p := t.WithTop(d).Push(last.name, start);
    RunAppend(before, [HeadLine(last, depth)], body);
    RunOne(before, HeadLine(last, depth));
    HeadStep(before, last, depth);
    RunPrinted(p, depth + 1, last.content, |last.content|);
    var child := Meaning(start, last.content, |last.content|);
    CloseTwice(Run(p, body), Replacing, depth + 2, depth + 1);
    ClosePushed(t.WithTop(d), Replacing, last.name, start, child);
    WithTopTwice(t, d, SetChild(d, last.name, child));
  }

  lemma HeadStep(s: Stack, node: Node, depth: nat)
    requires s.Valid() && depth < |s.levels|
    ensures Step(s, HeadLine(node, depth))
      == Close(s, depth + 1).Push(node.name, NewDict(node.entry, node.value, node.desc))
  {
  }

  function Root(busId: string, devId: string, desc: string): Dict {
    Dict(map["bus" := Text(busId), "device" := Text(devId), "desc" := Text(desc)])
  }

  /** Parsing inverts printing: the header and the nodes of any tree. */
  lemma ParseInvertsPrint(busId: string, devId: string, desc: string, nodes: seq<Node>)
    ensures
      Parse(busId, devId, [Line(0, Header(desc))] + Print(nodes, |nodes|, 0))
        == Meaning(Root(busId, devId, desc), nodes, |nodes|)
  {
    var start := Stack([Device(busId, devId)], []);
    var header := Line(0, Header(desc));
    var s := Stack([Root(busId, devId, desc)], []);
    RunAppend(start, [header], Print(nodes, |nodes|, 0));
    RunOne(start, header);
    assert Step(start, header) == s;
    RunPrinted(s, 0, nodes, |nodes|);
  }

  // ---------------------------------------------------------------------------------
  // Other lines
  // ---------------------------------------------------------------------------------

  function DepthOf(line: Line): nat {
    1 + line.indent / 2
  }

  lemma OtherThenLine(s: Stack, indent: nat, line: Line)
    requires s.Valid() && !line.kind.Header? && DepthOf(line) <= DepthOf(Line(indent, Other))
    ensures Step(Step(s, Line(indent, Other)), line) == Step(s, line)
  {
    CloseTwice(s, Replacing, DepthOf(Line(indent, Other)), DepthOf(line));
  }

  /** A line that matches nothing is ignored where no deeper line, and no header, follows. */
  lemma OtherLinesAreIgnored(busId: string, devId: string, before: seq<Line>, indent: nat, after: seq<Line>)
    requires after == [] || (!after[0].kind.Header? && DepthOf(after[0]) <= DepthOf(Line(indent, Other)))
    ensures Parse(busId, devId, before + [Line(indent, Other)] + after) == Parse(busId, devId, before + after)
  {
    hide Run, Step;
    var start, other := Stack([Device(busId, devId)], []), Line(indent, Other);
    RunAppend(start, before, [other]);
    RunAppend(start, before + [other], after);
    RunAppend(start, before, after);
    RunIsValid(start, before);
    RunOne(Run(start, before), other);
    OtherThenLines(Run(start, before), indent, after);
  }

  lemma RunIsValid(s: Stack, lines: seq<Line>)
    requires s.Valid()
    ensures Run(s, lines).Valid()
  {
  }

  lemma OtherThenLines(s: Stack, indent: nat, after: seq<Line>)
    requires s.Valid()
    requires after == [] || (!after[0].kind.Header? && DepthOf(after[0]) <= DepthOf(Line(indent, Other)))
    ensures Close(Run(Step(s, Line(indent, Other)), after), 1) == Close(Run(s, after), 1)
  {
    var other := Line(indent, Other);
    var t := Step(s, other);
    if after == [] {
      CloseTwice(s, Replacing, DepthOf(other), 1);
    } else {
      OtherThenLine(s, indent, after[0]);
      hide Step, Run;
      assert after == [after[0]] + after[1..];
      RunAppend(s, [after[0]], after[1..]);
      RunAppend(t, [after[0]], after[1..]);
      RunOne(s, after[0]);
      RunOne(t, after[0]);
    }
  }

  /** A line that is indented too deep is ignored altogether. */
  lemma TooDeepIsIgnored(s: Stack, line: Line)
    requires s.Valid() && !line.kind.Header? && DepthOf(line) > |s.levels|
    ensures Step(s, line) == s
  {
  }

  // ---------------------------------------------------------------------------------
  // What the dictionary keeps of the tree
  // ---------------------------------------------------------------------------------

  function Base(node: Node): Dict {
    NewDict(node.entry, node.value, node.desc)
  }

  /** The keys of d and the names of the nodes. */
  function Keys(d: Dict, nodes: seq<Node>, n: nat): set<string>
    requires n <= |nodes|
  {
    if n == 0 then d.entries.Keys else Keys(d, nodes, n - 1) + {nodes[n - 1].name}
  }

  predicate IsName(nodes: seq<Node>, n: nat, key: string)
    requires n <= |nodes|
  {
    exists i :: 0 <= i < n && nodes[i].name == key
  }

  /** Names are the nodes' own: not those of siblings and not those of what is there already. */
  ghost predicate OwnNames(d: Dict, nodes: seq<Node>, n: nat)
    requires n <= |nodes|
  {
    && (forall i :: 0 <= i < n ==> nodes[i].name !in d.entries)
    && (forall i, k :: 0 <= i < k < n ==> nodes[i].name != nodes[k].name)
  }

  /** At every level: below an entry, `_value` and `_desc` are taken. */
  ghost predicate WellNamed(d: Dict, nodes: seq<Node>)
    decreases nodes
  {
    OwnNames(d, nodes, |nodes|) && forall i :: 0 <= i < |nodes| ==> WellNamed(Base(nodes[i]), nodes[i].content)
  }

  /**
    Nothing is lost and nothing else is there: besides what d has, each node has one key, and under
    it a dictionary with its own value and description, and its own content at every level.
   */
  ghost predicate Shows(d: Dict, nodes: seq<Node>, m: Dict)
    decreases nodes
  {
    && m.entries.Keys == Keys(d, nodes, |nodes|)
    && |m.entries| == |d.entries| + |nodes|
    && (forall key :: key in d.entries ==> key in m.entries && m.entries[key] == d.entries[key])
    && (forall i :: 0 <= i < |nodes| ==> nodes[i].name in m.entries && ShowsNode(nodes[i], m.entries[nodes[i].name]))
  }

  ghost predicate ShowsNode(node: Node, value: Value)
    decreases node
  {
    value.Sub? && Shows(Base(node), node.content, value.dict)
  }

  lemma {:induction false} KeyCases(d: Dict, nodes: seq<Node>, n: nat, key: string)
    requires n <= |nodes|
    ensures key in Keys(d, nodes, n) <==> key in d.entries || IsName(nodes, n, key)
    decreases n
  {
    if n > 0 {
      KeyCases(d, nodes, n - 1, key);
      assert IsName(nodes, n, key) <==> IsName(nodes, n - 1, key) || nodes[n - 1].name == key;
    }
  }

  lemma OneMoreName(d: Dict, nodes: seq<Node>, n: nat)
    requires 0 < n <= |nodes|
    ensures OwnNames(d, nodes, n) <==> OwnNames(d, nodes, n - 1) && nodes[n - 1].name !in Keys(d, nodes, n - 1)
  {
    KeyCases(d, nodes, n - 1, nodes[n - 1].name);
  }

  lemma OneMoreKey(s: set<string>, x: string)
    ensures |s + {x}| == if x in s then |s| else |s| + 1
  {
    if x in s {
      assert s + {x} == s;
    }
  }

  lemma NoKeys(d: Dict, nodes: seq<Node>)
    ensures Keys(d, nodes, 0) == d.entries.Keys && OwnNames(d, nodes, 0)
  {
  }

  lemma KeysGrow(d: Dict, nodes: seq<Node>, n: nat)
    requires 0 < n <= |nodes|
    ensures
      var before := Keys(d, nodes, n - 1);
      |Keys(d, nodes, n)| == if nodes[n - 1].name in before then |before| else |before| + 1
  {
    OneMoreKey(Keys(d, nodes, n - 1), nodes[n - 1].name);
  }

  lemma {:induction false} KeysCount(d: Dict, nodes: seq<Node>, n: nat)
    requires n <= |nodes|
    ensures |Keys(d, nodes, n)| <= |d.entries.Keys| + n
    ensures |Keys(d, nodes, n)| == |d.entries.Keys| + n <==> OwnNames(d, nodes, n)
    decreases n
  {
    hide OwnNames, Keys;
    if n == 0 {
      NoKeys(d, nodes);
    } else {
      KeysCount(d, nodes, n - 1);
      OneMoreName(d, nodes, n);
      KeysGrow(d, nodes, n);
    }
  }

  lemma {:induction false} MeaningKeys(d: Dict, nodes: seq<Node>, n: nat)
    requires n <= |nodes|
    ensures Meaning(d, nodes, n).entries.Keys == Keys(d, nodes, n)
    decreases n
  {
    if n > 0 {
      MeaningKeys(d, nodes, n - 1);
    }
  }

  /** Every node is shown, at every level, if and only if the tree is well named. */
  lemma {:induction false} ShownIff(d: Dict, nodes: seq<Node>)
    ensures Shows(d, nodes, Meaning(d, nodes, |nodes|)) <==> WellNamed(d, nodes)
    decreases nodes
  {
    hide Meaning, Keys, OwnNames;
    var n := |nodes|;
    var m := Meaning(d, nodes, n);
    MeaningKeys(d, nodes, n);
    KeysCount(d, nodes, n);
    assert |m.entries| == |m.entries.Keys| && |d.entries| == |d.entries.Keys|;
    if OwnNames(d, nodes, n) {
      forall i: nat | i < n
        ensures nodes[i].name in m.entries
        ensures ShowsNode(nodes[i], m.entries[nodes[i].name]) <==> WellNamed(Base(nodes[i]), nodes[i].content)
      {
        NodeIsKept(d, nodes, i);
        ShownIff(Base(nodes[i]), nodes[i].content);
      }
      forall key | key in d.entries ensures key in m.entries && m.entries[key] == d.entries[key] {
        OldKeyIsKept(d, nodes, key);
      }
    }
  }

  /** The same nodes with the same values, descriptions and content, in any order of siblings. */
  ghost predicate SameTree(a: seq<Node>, b: seq<Node>)
    decreases a
  {
    && |a| == |b|
    && forall i :: 0 <= i < |a| ==> exists k :: 0 <= k < |b| && SameNode(a[i], b[k])
  }

  ghost predicate SameNode(x: Node, y: Node)
    decreases x
  {
    x.name == y.name && Base(x) == Base(y) && SameTree(x.content, y.content)
  }

  /** A dictionary that shows two trees shows that they are the same. */
  lemma {:induction false} ShowsOneTree(d: Dict, a: seq<Node>, b: seq<Node>, m: Dict)
    requires Shows(d, a, m) && Shows(d, b, m)
    ensures SameTree(a, b)
    decreases a
  {
    KeysCount(d, a, |a|);
    forall i: nat | i < |a| ensures exists k :: 0 <= k < |b| && SameNode(a[i], b[k]) {
      var name := a[i].name;
      KeyCases(d, a, |a|, name);
      KeyCases(d, b, |b|, name);
      assert IsName(a, |a|, name) && name !in d.entries;
      var k :| 0 <= k < |b| && b[k].name == name;
      assert ShowsNode(a[i], m.entries[name]) && ShowsNode(b[k], m.entries[name]);
      SameBase(a[i], b[k], m.entries[name].dict);
      ShowsOneTree(Base(a[i]), a[i].content, b[k].content, m.entries[name].dict);
    }
  }

  /** A group with entries `_value` and `_desc` is told from an entry: those are dictionaries. */
  lemma SameBase(x: Node, y: Node, m: Dict)
    requires Shows(Base(x), x.content, m) && Shows(Base(y), y.content, m)
    ensures Base(x) == Base(y)
  {
    ValueIsText(x, m);
    ValueIsText(y, m);
  }

  lemma ValueIsText(x: Node, m: Dict)
    requires Shows(Base(x), x.content, m)
    ensures x.entry ==>
      && "_value" in m.entries && m.entries["_value"] == Text(x.value)
      && "_desc" in m.entries && m.entries["_desc"] == Text(x.desc)
    ensures !x.entry && "_value" in m.entries ==> m.entries["_value"].Sub?
  {
    if !x.entry && "_value" in m.entries {
      KeyCases(Base(x), x.content, |x.content|, "_value");
    } else if x.entry {
      assert "_value" in Base(x).entries && "_desc" in Base(x).entries;
    }
  }

  lemma SameTreeSameKeys(d: Dict, a: seq<Node>, b: seq<Node>)
    requires SameTree(a, b) && OwnNames(d, a, |a|) && OwnNames(d, b, |b|)
    ensures Keys(d, a, |a|) == Keys(d, b, |b|)
  {
    hide OwnNames, IsName, Keys, SameNode;
    var x, y := Keys(d, a, |a|), Keys(d, b, |b|);
    KeysCount(d, a, |a|);
    KeysCount(d, b, |b|);
    forall key | key in x ensures key in y {
      KeyCases(d, a, |a|, key);
      KeyCases(d, b, |b|, key);
      if key !in d.entries {
        SameTreeHasName(a, b, key);
      }
    }
    Subset(x, y);
  }

  lemma SameTreeHasName(a: seq<Node>, b: seq<Node>, key: string)
    requires SameTree(a, b) && IsName(a, |a|, key)
    ensures IsName(b, |b|, key)
  {
    var i :| 0 <= i < |a| && a[i].name == key;
    var k :| 0 <= k < |b| && SameNode(a[i], b[k]);
  }

  lemma Subset(x: set<string>, y: set<string>)
    requires x <= y && |x| == |y|
    ensures x == y
  {
    assert |y| == |x| + |y - x|;
    assert y - x == {};
  }

  lemma {:induction false} SameTreeSameMeaning(d: Dict, a: seq<Node>, b: seq<Node>)
    requires WellNamed(d, a) && WellNamed(d, b) && SameTree(a, b)
    ensures Meaning(d, a, |a|) == Meaning(d, b, |b|)
    decreases a
  {
    hide Meaning, Keys, SameTree, OwnNames, IsName;
    var m, m' := Meaning(d, a, |a|), Meaning(d, b, |b|);
    MeaningKeys(d, a, |a|);
    MeaningKeys(d, b, |b|);
    SameTreeSameKeys(d, a, b);
    forall key | key in m.entries ensures m.entries[key] == m'.entries[key] {
      KeyCases(d, a, |a|, key);
      if key in d.entries {
        OldKeyIsKept(d, a, key);
        OldKeyIsKept(d, b, key);
      } else {
        var i, k := Partner(a, b, key);
        NodeIsKept(d, a, i);
        NodeIsKept(d, b, k);
        SameTreeSameMeaning(Base(a[i]), a[i].content, b[k].content);
      }
    }
    assert m.entries == m'.entries;
  }

  lemma Partner(a: seq<Node>, b: seq<Node>, key: string) returns (i: nat, k: nat)
    requires SameTree(a, b) && IsName(a, |a|, key)
    ensures i < |a| && k < |b| && a[i].name == b[k].name == key && SameNode(a[i], b[k])
  {
    i :| 0 <= i < |a| && a[i].name == key;
    k :| 0 <= k < |b| && SameNode(a[i], b[k]);
  }

  lemma OldKeyIsKept(d: Dict, nodes: seq<Node>, key: string)
    requires OwnNames(d, nodes, |nodes|) && key in d.entries
    ensures
      var m := Meaning(d, nodes, |nodes|);
      key in m.entries && m.entries[key] == d.entries[key]
  {
    OtherKeysAreKept(d, nodes, |nodes|, key);
  }

  lemma NodeIsKept(d: Dict, nodes: seq<Node>, i: nat)
    requires OwnNames(d, nodes, |nodes|) && i < |nodes|
    ensures
      var m := Meaning(d, nodes, |nodes|);
      && nodes[i].name in m.entries
      && m.entries[nodes[i].name] == Sub(Meaning(Base(nodes[i]), nodes[i].content, |nodes[i].content|))
  {
    DistinctSiblingsAreKept(d, nodes, |nodes|, i);
  }

  /** The dictionaries of well-named trees are equal exactly if the trees are, but for the order of siblings. */
  lemma TreeIsDetermined(d: Dict, a: seq<Node>, b: seq<Node>)
    requires WellNamed(d, a) && WellNamed(d, b)
    ensures Meaning(d, a, |a|) == Meaning(d, b, |b|) <==> SameTree(a, b)
  {
    if SameTree(a, b) {
      SameTreeSameMeaning(d, a, b);
    }
    if Meaning(d, a, |a|) == Meaning(d, b, |b|) {
      ShownIff(d, a);
      ShownIff(d, b);
      ShowsOneTree(d, a, b, Meaning(d, a, |a|));
    }
  }

  /** What is parsed from the listings of two well-named trees is equal exactly if the trees are. */
  lemma ListingsDiffer(busId: string, devId: string, desc: string, a: seq<Node>, b: seq<Node>)
    requires WellNamed(Root(busId, devId, desc), a) && WellNamed(Root(busId, devId, desc), b)
    ensures
      var header := [Line(0, Header(desc))];
      Parse(busId, devId, header + Print(a, |a|, 0)) == Parse(busId, devId, header + Print(b, |b|, 0)) <==>
        SameTree(a, b)
  {
    ParseInvertsPrint(busId, devId, desc, a);
    ParseInvertsPrint(busId, devId, desc, b);
    TreeIsDetermined(Root(busId, devId, desc), a, b);
  }

  /** With distinct sibling names every node is found under its name, with its own content. */
  lemma {:induction false} DistinctSiblingsAreKept(d: Dict, nodes: seq<Node>, n: nat, i: nat)
    requires i < n <= |nodes| && forall a, b :: 0 <= a < b < |nodes| ==> nodes[a].name != nodes[b].name
    ensures
      var node := nodes[i];
      var m := Meaning(d, nodes, n);
      node.name in m.entries
        && m.entries[node.name]
          == Sub(Meaning(NewDict(node.entry, node.value, node.desc), node.content, |node.content|))
    decreases n
  {
    if i < n - 1 {
      DistinctSiblingsAreKept(d, nodes, n - 1, i);
    }
  }

  /** And nothing else is: other keys are as they were. */
  lemma {:induction false} OtherKeysAreKept(d: Dict, nodes: seq<Node>, n: nat, key: string)
    requires n <= |nodes| && forall i :: 0 <= i < n ==> nodes[i].name != key
    ensures
      var m := Meaning(d, nodes, n);
      (key in m.entries <==> key in d.entries) && (key in d.entries ==> m.entries[key] == d.entries[key])
    decreases n
  {
    if n > 0 {
      OtherKeysAreKept(d, nodes, n - 1, key);
    }
  }
}
