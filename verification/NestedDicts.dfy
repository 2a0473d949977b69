/**
  Nested dictionaries as objects that are filled in place, and a stack of references to those that
  are still open.
 */
module NestedDicts {
  import opened Wrappers
  import opened Listing

  datatype Cell = TextCell(text: string) | SubCell(sub: Dictionary) | NodesCell(nodes: seq<Dictionary>)

  type Cells = map<string, Cell>

  class Dictionary {
    var entries: Cells

    constructor (entries: Cells)
      ensures this.entries == entries
    {
      this.entries := entries;
    }
  }

  // ---------------------------------------------------------------------------------
  // What objects mean
  // ---------------------------------------------------------------------------------

  /** The cells hold what d holds; `closed` has all objects below them. */
  ghost predicate Denotes(cells: Cells, d: Dict, closed: set<Dictionary>)
    reads closed
    decreases d
  {
    && cells.Keys == d.entries.Keys
    && forall key :: key in cells ==> CellDenotes(cells[key], d.entries[key], closed)
  }

  ghost predicate CellDenotes(cell: Cell, value: Value, closed: set<Dictionary>)
    reads closed
    decreases value
  {
    match value
    case Text(text) => cell == TextCell(text)
    case Sub(d) => cell.SubCell? && cell.sub in closed && Denotes(cell.sub.entries, d, closed)
    case Nodes(ds) =>
      && cell.NodesCell? && |cell.nodes| == |ds|
      && forall i :: 0 <= i < |ds| ==> cell.nodes[i] in closed && Denotes(cell.nodes[i].entries, ds[i], closed)
  }

  lemma {:induction false} DenotesGrows(cells: Cells, d: Dict, closed: set<Dictionary>, more: set<Dictionary>)
    requires closed <= more && Denotes(cells, d, closed)
    ensures Denotes(cells, d, more)
    decreases d
  {
    forall key | key in cells ensures CellDenotes(cells[key], d.entries[key], more) {
      CellDenotesGrows(cells[key], d.entries[key], closed, more);
    }
  }

  lemma {:induction false} CellDenotesGrows(cell: Cell, value: Value, closed: set<Dictionary>, more: set<Dictionary>)
    requires closed <= more && CellDenotes(cell, value, closed)
    ensures CellDenotes(cell, value, more)
    decreases value
  {
    match value
    case Text(_) =>
    case Sub(d) => DenotesGrows(cell.sub.entries, d, closed, more);
    case Nodes(ds) =>
      forall i | 0 <= i < |ds| ensures Denotes(cell.nodes[i].entries, ds[i], more) {
        DenotesGrows(cell.nodes[i].entries, ds[i], closed, more);
      }
  }

  /** Whatever the sets, cells mean one dictionary. */
  lemma MeaningIsOne(cells: Cells, a: Dict, b: Dict, x: set<Dictionary>, y: set<Dictionary>)
    requires Denotes(cells, a, x) && Denotes(cells, b, y)
    ensures a == b
  {
    DenotesGrows(cells, a, x, x + y);
    DenotesGrows(cells, b, y, x + y);
    DenotesOne(cells, a, b, x + y);
  }

  lemma {:induction false} DenotesOne(cells: Cells, a: Dict, b: Dict, closed: set<Dictionary>)
    requires Denotes(cells, a, closed) && Denotes(cells, b, closed)
    ensures a == b
    decreases a
  {
    forall key | key in cells ensures a.entries[key] == b.entries[key] {
      CellDenotesOne(cells[key], a.entries[key], b.entries[key], closed);
    }
    assert a.entries == b.entries;
  }

  lemma {:induction false} CellDenotesOne(cell: Cell, a: Value, b: Value, closed: set<Dictionary>)
    requires CellDenotes(cell, a, closed) && CellDenotes(cell, b, closed)
    ensures a == b
    decreases a
  {
    match a
    case Text(_) =>
    case Sub(d) => DenotesOne(cell.sub.entries, d, b.dict, closed);
    case Nodes(ds) =>
      forall i | 0 <= i < |ds| ensures ds[i] == b.nodes[i] {
        DenotesOne(cell.nodes[i].entries, ds[i], b.nodes[i], closed);
      }
  }

  /** The cells of a parent with one more child. */
  function AttachCell(style: Style, cells: Cells, key: Option<string>, child: Dictionary): Cells {
    if key.None? then cells
    else if style.Replacing? then cells[key.value := SubCell(child)]
    else
      var before := if key.value in cells && cells[key.value].NodesCell? then cells[key.value].nodes else [];
      cells[key.value := NodesCell(before + [child])]
  }

  lemma AttachDenotes(style: Style, cells: Cells, d: Dict, key: Option<string>, child: Dictionary, dict: Dict,
                      closed: set<Dictionary>)
    requires Denotes(cells, d, closed) && child in closed && Denotes(child.entries, dict, closed)
    ensures Denotes(AttachCell(style, cells, key, child), Attach(style, d, key, dict), closed)
  {
  }

  // ---------------------------------------------------------------------------------
  // The stack
  // ---------------------------------------------------------------------------------

  /**
    The objects on the stack are open: without its open child, which is in its cells already, the
    object of a level has the cells `under[i]` and these are what the level has.
   */
  ghost predicate Mirrors(style: Style, stack: seq<Dictionary>, s: Stack, under: seq<Cells>, closed: set<Dictionary>)
    requires s.Valid()
    reads stack, closed
  {
    && |stack| == |under| == |s.levels|
    && (forall i, k :: 0 <= i < k < |stack| ==> stack[i] != stack[k])
    && (forall i :: 0 <= i < |stack| ==> stack[i] !in closed && Denotes(under[i], s.levels[i], closed))
    && (forall i :: 0 <= i < |stack| - 1 ==> stack[i].entries == AttachCell(style, under[i], s.keys[i], stack[i + 1]))
    && stack[|stack| - 1].entries == under[|stack| - 1]
  }

  /** Popping a reference closes its object. */
  lemma PopMirrors(style: Style, stack: seq<Dictionary>, s: Stack, under: seq<Cells>, closed: set<Dictionary>)
    requires s.Valid() && |s.levels| > 1 && Mirrors(style, stack, s, under, closed)
    ensures
      var n := |stack| - 1;
      n == |under| - 1
        && Mirrors(style, stack[..n], s.Pop(style), under[..n - 1] + [stack[n - 1].entries], closed + {stack[n]})
  {
    var n := |stack| - 1;
    var more := closed + {stack[n]};
    forall i | 0 <= i < |stack| ensures Denotes(under[i], s.levels[i], more) {
      DenotesGrows(under[i], s.levels[i], closed, more);
    }
    AttachDenotes(style, under[n - 1], s.levels[n - 1], s.keys[n - 1], stack[n], s.levels[n], more);
  }

  /** Popping down to height n. */
  lemma {:induction false} CloseMirrors(style: Style, stack: seq<Dictionary>, s: Stack, under: seq<Cells>,
                                        closed: set<Dictionary>, n: nat)
    returns (under': seq<Cells>, closed': set<Dictionary>)
    requires s.Valid() && n > 0 && Mirrors(style, stack, s, under, closed)
    ensures Mirrors(style, if n < |stack| then stack[..n] else stack, s.Close(style, n), under', closed')
    decreases |stack|
  {
    hide Mirrors;
    TopHas(style, stack, s, under, closed);
    var m := |stack| - 1;
    if m < n {
      under', closed' := under, closed;
    } else {
      PopMirrors(style, stack, s, under, closed);
      var last := stack[m - 1].entries;
      under', closed' := CloseMirrors(style, stack[..m], s.Pop(style), under[..m - 1] + [last], closed + {stack[m]}, n);
      if n < m {
        assert stack[..m][..n] == stack[..n];
      }
    }
  }

  /** What the object on top of the stack tells about its dictionary. */
  lemma TopHas(style: Style, stack: seq<Dictionary>, s: Stack, under: seq<Cells>, closed: set<Dictionary>)
    requires s.Valid() && Mirrors(style, stack, s, under, closed)
    ensures |stack| == |under| == |s.levels| > 0
    ensures
      var cells := stack[|stack| - 1].entries;
      && cells.Keys == s.Top().entries.Keys
      && forall key :: key in cells ==> (cells[key].NodesCell? <==> s.Top().entries[key].Nodes?)
  {
    assert Denotes(stack[|stack| - 1].entries, s.Top(), closed);
  }

  /** A new object on the stack becomes a child of the one that was the top. */
  method OpenChild(style: Style, stack: seq<Dictionary>, key: string, child: Dictionary,
                   ghost s: Stack, ghost under: seq<Cells>, ghost closed: set<Dictionary>, ghost d: Dict)
    requires s.Valid() && Mirrors(style, stack, s, under, closed)
    requires child !in stack && child !in closed && Denotes(child.entries, d, closed)
    modifies stack[|stack| - 1]
    ensures Mirrors(style, stack + [child], s.Push(key, d), under + [child.entries], closed)
  {
    var top := stack[|stack| - 1];
    top.entries := AttachCell(style, top.entries, Some(key), child);
  }

  lemma TextDenotes(cells: Cells, d: Dict, key: string, text: string, closed: set<Dictionary>)
    requires Denotes(cells, d, closed)
    ensures Denotes(cells[key := TextCell(text)], Dict(d.entries[key := Text(text)]), closed)
  {
    var now, d' := cells[key := TextCell(text)], Dict(d.entries[key := Text(text)]);
    assert forall k :: k in now ==> CellDenotes(now[k], d'.entries[k], closed);
  }

  /** The top gets a text. */
  method SetText(style: Style, stack: seq<Dictionary>, key: string, text: string,
                 ghost s: Stack, ghost under: seq<Cells>, ghost closed: set<Dictionary>)
    returns (ghost under': seq<Cells>)
    requires s.Valid() && Mirrors(style, stack, s, under, closed)
    modifies stack[|stack| - 1]
    ensures Mirrors(style, stack, s.WithTop(Dict(s.Top().entries[key := Text(text)])), under', closed)
  {
    var top := stack[|stack| - 1];
    hide Denotes, AttachCell;
    TextDenotes(top.entries, s.Top(), key, text, closed);
    top.entries := top.entries[key := TextCell(text)];
    under' := under[|stack| - 1 := top.entries];
  }
}
