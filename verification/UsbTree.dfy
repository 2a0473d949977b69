/** The tree of USB devices: devil/utils/find_usb_devices.py. */
module UsbTree {
  import opened Wrappers

  // ---------------------------------------------------------------------------------
  // The listing and the nodes it asks for
  // ---------------------------------------------------------------------------------

  /** The lines of `usb-devices` that matter. */
  datatype Line = T(bus: nat, parent: nat, port: nat, dev: nat) | S(serial: string) | OtherLine

  /** A node; a bus has no parent and the device number -1. */
  datatype Node = Node(bus: nat, dev: int, parent: Option<nat>, port: nat, serial: Option<string>)

  const BUS_NUMBER := -1

  datatype Error = AttributeError | ValueError

  /** The nodes in the order of their creation, and the device of the last T line. */
  datatype Topology = Topology(nodes: seq<Node>, last: Option<(nat, nat)>)

  function FindFrom(nodes: seq<Node>, n: nat, bus: nat, dev: int): (k: Option<nat>)
    requires n <= |nodes|
    ensures k.Some? ==> k.value < n && nodes[k.value].bus == bus && nodes[k.value].dev == dev
    ensures k.None? ==> forall i :: 0 <= i < n ==> nodes[i].bus != bus || nodes[i].dev != dev
  {
    if n == 0 then None
    else if nodes[n - 1].bus == bus && nodes[n - 1].dev == dev then Some(n - 1)
    else FindFrom(nodes, n - 1, bus, dev)
  }

  function Find(nodes: seq<Node>, bus: nat, dev: int): (k: Option<nat>)
    ensures k.Some? ==> k.value < |nodes| && nodes[k.value].bus == bus && nodes[k.value].dev == dev
    ensures k.None? ==> forall i :: 0 <= i < |nodes| ==> nodes[i].bus != bus || nodes[i].dev != dev
  {
    FindFrom(nodes, |nodes|, bus, dev)
  }

  /** `_port_to_node` of node i, by index. */
  function Kids(nodes: seq<Node>, n: nat, i: nat): (kids: map<nat, nat>)
    requires n <= |nodes|
    ensures forall port :: port in kids ==>
      kids[port] < n && nodes[kids[port]].parent == Some(i) && nodes[kids[port]].port == port
    ensures forall k :: 0 <= k < n && nodes[k].parent == Some(i) ==> nodes[k].port in kids
  {
    if n == 0 then map[]
    else
      var before := Kids(nodes, n - 1, i);
      if nodes[n - 1].parent == Some(i) then before[nodes[n - 1].port := n - 1] else before
  }

  function WithBus(nodes: seq<Node>, bus: nat): seq<Node> {
    if Find(nodes, bus, BUS_NUMBER).Some? then nodes else nodes + [Node(bus, BUS_NUMBER, None, 0, None)]
  }

  /** The node that the line names as parent: the bus itself for 0. */
  function ParentOf(nodes: seq<Node>, line: Line): Option<nat>
    requires line.T?
  {
    Find(nodes, line.bus, if line.parent == 0 then BUS_NUMBER else line.parent)
  }

  /** One line: lines 276-307. */
  function Add(t: Topology, line: Line): Result<Topology, Error> {
    match line
    case T(bus, _, port, dev) =>
      var nodes := WithBus(t.nodes, bus);
      var parent := ParentOf(nodes, line);
      if parent.None? then Err(AttributeError)
      else if port + 1 in Kids(nodes, |nodes|, parent.value) then Err(ValueError)
      else Ok(Topology(nodes + [Node(bus, dev, parent, port + 1, None)], Some((bus, dev))))
    case S(serial) =>
      if t.last.None? then Err(ValueError)
      else
        var k := Find(t.nodes, t.last.value.0, t.last.value.1);
        if k.None? then Err(AttributeError)
        else Ok(t.(nodes := t.nodes[k.value := t.nodes[k.value].(serial := Some(serial))]))
    case OtherLine => Ok(t)
  }

  function Build(lines: seq<Line>, n: nat): Result<Topology, Error>
    requires n <= |lines|
  {
    if n == 0 then Ok(Topology([], None))
    else
      match Build(lines, n - 1)
      case Err(e) => Err(e)
      case Ok(t) => Add(t, lines[n - 1])
  }

  /** Parents precede their children and are on their bus; nodes differ in number, and siblings in port. */
  ghost predicate Forest(nodes: seq<Node>) {
    && (forall k :: 0 <= k < |nodes| ==> Rooted(nodes, k))
    && (forall i, k :: 0 <= i < k < |nodes| ==> nodes[i].bus != nodes[k].bus || nodes[i].dev != nodes[k].dev)
    && (forall i, k :: 0 <= i < k < |nodes| && nodes[k].parent.Some? && nodes[i].parent == nodes[k].parent ==>
          nodes[i].port != nodes[k].port)
  }

  ghost predicate Rooted(nodes: seq<Node>, k: nat)
    requires k < |nodes|
  {
    if nodes[k].parent.None? then nodes[k].dev == BUS_NUMBER
    else
      var p := nodes[k].parent.value;
      nodes[k].dev >= 0 && p < k && nodes[p].bus == nodes[k].bus && Find(nodes, nodes[k].bus, BUS_NUMBER).Some?
  }

  // ---------------------------------------------------------------------------------
  // Descendants
  // ---------------------------------------------------------------------------------

  /** Node i, or a descendant of it. */
  predicate Below(nodes: seq<Node>, k: nat, i: nat)
    requires k < |nodes|
  {
    k == i || (nodes[k].parent.Some? && nodes[k].parent.value < k && Below(nodes, nodes[k].parent.value, i))
  }

  lemma {:induction false} BelowIsLater(nodes: seq<Node>, k: nat, i: nat)
    requires k < |nodes| && Below(nodes, k, i)
    ensures i <= k && (Forest(nodes) ==> nodes[i].bus == nodes[k].bus)
    decreases k
  {
    if k != i {
      assert Forest(nodes) ==> Rooted(nodes, k);
      BelowIsLater(nodes, nodes[k].parent.value, i);
    }
  }

  /** A descendant of a child is one of the node. */
  lemma {:induction false} BelowChild(nodes: seq<Node>, k: nat, c: nat, i: nat)
    requires k < |nodes| && c < |nodes| && i < c && nodes[c].parent == Some(i) && Below(nodes, k, c)
    ensures Below(nodes, k, i)
    decreases k
  {
    if k != c {
      BelowChild(nodes, nodes[k].parent.value, c, i);
    }
  }

  /** A descendant is below one of the children. */
  lemma {:induction false} ChildAbove(nodes: seq<Node>, k: nat, i: nat) returns (c: nat)
    requires k < |nodes| && Below(nodes, k, i) && k != i
    ensures i < c <= k && nodes[c].parent == Some(i) && Below(nodes, k, c)
    decreases k
  {
    var p := nodes[k].parent.value;
    if p == i {
      c := k;
    } else {
      c := ChildAbove(nodes, p, i);
    }
  }

  /** The subtrees of two children share nothing. */
  lemma {:induction false} OneChildAbove(nodes: seq<Node>, k: nat, c: nat, c': nat, i: nat)
    requires k < |nodes| && c < |nodes| && c' < |nodes| && i < c && i < c'
    requires nodes[c].parent == Some(i) == nodes[c'].parent && Below(nodes, k, c) && Below(nodes, k, c')
    ensures c == c'
    decreases k
  {
    if k == c && k != c' {
      BelowIsLater(nodes, i, c');
    } else if k == c' && k != c {
      BelowIsLater(nodes, i, c);
    } else if k != c {
      OneChildAbove(nodes, nodes[k].parent.value, c, c', i);
    }
  }

  /** Every node is below its bus. */
  lemma {:induction false} BelowBus(nodes: seq<Node>, k: nat)
    requires Forest(nodes) && k < |nodes|
    ensures Find(nodes, nodes[k].bus, BUS_NUMBER).Some?
    ensures Below(nodes, k, Find(nodes, nodes[k].bus, BUS_NUMBER).value)
    decreases k
  {
    assert Rooted(nodes, k);
    if nodes[k].parent.Some? {
      BelowBus(nodes, nodes[k].parent.value);
    }
  }

  /** What is below a bus is the bus and all that is on it. */
  lemma BelowBusIff(nodes: seq<Node>, bus: nat, k: nat)
    requires Forest(nodes) && k < |nodes| && Find(nodes, bus, BUS_NUMBER).Some?
    ensures Below(nodes, k, Find(nodes, bus, BUS_NUMBER).value) <==> nodes[k].bus == bus
  {
    BelowBus(nodes, k);
    if Below(nodes, k, Find(nodes, bus, BUS_NUMBER).value) {
      BelowIsLater(nodes, k, Find(nodes, bus, BUS_NUMBER).value);
    }
  }

  // ---------------------------------------------------------------------------------
  // The objects
  // ---------------------------------------------------------------------------------

  class USBNode {
    const busNum: nat
    const deviceNum: int
    var serial: Option<string>
    var portToNode: map<nat, USBNode>

    constructor (busNum: nat, deviceNum: int)
      ensures this.busNum == busNum && this.deviceNum == deviceNum && serial == None && portToNode == map[]
    {
      this.busNum, this.deviceNum, serial, portToNode := busNum, deviceNum, None, map[];
    }

    predicate HasPort(port: nat)
      reads this
    {
      port in portToNode
    }

    /** False is the ValueError for a port that is taken. */
    method AddChild(port: nat, device: USBNode) returns (ok: bool)
      modifies this`portToNode
      ensures ok <==> port !in old(portToNode)
      ensures portToNode == if ok then old(portToNode)[port := device] else old(portToNode)
    {
      if HasPort(port) {
        return false;
      }
      portToNode := portToNode[port := device];
      return true;
    }

    /** This node and all of its descendants, each once; `order` has their places in `all`. */
    method AllNodes(ghost all: seq<USBNode>, ghost nodes: seq<Node>, ghost i: nat)
      returns (found: seq<USBNode>, ghost order: seq<nat>)
      requires Represents(all, nodes) && Forest(nodes) && i < |all| && all[i] == this
      ensures IsSubtree(nodes, i, order) && Lists(all, order, found)
      ensures Enumerates(all, nodes, i, found)
      decreases |all| - i
    {
      hide Kids, IsPart, IsSubtree, Forest, Enumerates;
      found, order := [this], [i];
      assert NodeIs(all, nodes, i);
      var rest := portToNode.Keys;
      ghost var kids := Kids(nodes, |nodes|, i);
      OnlyItself(nodes, i);
      assert kids.Keys - rest == {};
      while rest != {}
        invariant rest <= kids.Keys
        invariant IsPart(nodes, i, kids.Keys - rest, order) && Lists(all, order, found)
      {
        var port :| port in rest;
        var child := portToNode[port];
        ghost var c := kids[port];
        KidIsLater(nodes, i, port);
        var below, suborder := child.AllNodes(all, nodes, c);
        ghost var ports := kids.Keys - rest;
        AddSubtree(nodes, i, port, ports, order, suborder);
        found, order, rest := found + below, order + suborder, rest - {port};
        assert kids.Keys - rest == ports + {port};
      }
      assert kids.Keys - rest == kids.Keys;
      WholeSubtree(nodes, i, order);
      FoundIsSubtree(all, nodes, i, order, found);
    }

    method FindDeviceNumber(findNum: int, ghost all: seq<USBNode>, ghost nodes: seq<Node>, ghost i: nat)
      returns (node: USBNode?)
      requires Represents(all, nodes) && Forest(nodes) && i < |all| && all[i] == this
      ensures node == null ==> forall k :: 0 <= k < |nodes| && Below(nodes, k, i) ==> nodes[k].dev != findNum
      ensures node != null ==>
        exists k :: 0 <= k < |nodes| && Below(nodes, k, i) && nodes[k].dev == findNum && all[k] == node
    {
      hide Enumerates;
      var found;
      ghost var order;
      found, order := AllNodes(all, nodes, i);
      assert forall m :: 0 <= m < |found| ==> order[m] in order && NodeIs(all, nodes, order[m]);
      for n := 0 to |found|
        invariant forall m :: 0 <= m < n ==> nodes[order[m]].dev != findNum
      {
        if found[n].deviceNum == findNum {
          return found[n];
        }
      }
      return null;
    }
  }

  /** Object i has the fields that node i lists. */
  ghost predicate NodeIs(all: seq<USBNode>, nodes: seq<Node>, i: nat)
    requires |all| == |nodes| && i < |all|
    reads all[i]
  {
    var kids := Kids(nodes, |nodes|, i);
    && all[i].busNum == nodes[i].bus && all[i].deviceNum == nodes[i].dev && all[i].serial == nodes[i].serial
    && all[i].portToNode.Keys == kids.Keys
    && forall port :: port in kids ==> all[i].portToNode[port] == all[kids[port]]
  }

  ghost predicate Represents(all: seq<USBNode>, nodes: seq<Node>)
    reads all
  {
    && |all| == |nodes|
    && (forall i, k :: 0 <= i < k < |all| ==> all[i] != all[k])
    && (forall i :: 0 <= i < |all| ==> NodeIs(all, nodes, i))
  }

  /** The objects below node i and no others. */
  ghost predicate Enumerates(all: seq<USBNode>, nodes: seq<Node>, i: nat, found: seq<USBNode>)
    requires |all| == |nodes|
  {
    && (forall k: nat :: k < |nodes| && Below(nodes, k, i) ==> all[k] in found)
    && (forall n :: n in found ==> exists k: nat :: k < |nodes| && Below(nodes, k, i) && all[k] == n)
  }

  lemma FoundIsSubtree(all: seq<USBNode>, nodes: seq<Node>, i: nat, order: seq<nat>, found: seq<USBNode>)
    requires |all| == |nodes| && IsSubtree(nodes, i, order) && Lists(all, order, found)
    ensures Enumerates(all, nodes, i, found)
  {
    forall k: nat | k < |nodes| && Below(nodes, k, i) ensures all[k] in found {
      var m :| 0 <= m < |order| && order[m] == k;
      assert found[m] == all[k];
    }
    forall n | n in found ensures exists k: nat :: k < |nodes| && Below(nodes, k, i) && all[k] == n {
      var m :| 0 <= m < |found| && found[m] == n;
      assert order[m] in order;
    }
  }

  ghost predicate NoDuplicates(order: seq<nat>) {
    forall m, n :: 0 <= m < n < |order| ==> order[m] != order[n]
  }

  ghost predicate Lists(all: seq<USBNode>, order: seq<nat>, found: seq<USBNode>) {
    |found| == |order| && forall m :: 0 <= m < |order| ==> order[m] < |all| && found[m] == all[order[m]]
  }

  /** Exactly the nodes below i, each once. */
  ghost predicate IsSubtree(nodes: seq<Node>, i: nat, order: seq<nat>) {
    NoDuplicates(order) && forall k: nat :: k in order <==> k < |nodes| && Below(nodes, k, i)
  }

  /** Node i, or below a child at one of the ports. */
  ghost predicate InPart(nodes: seq<Node>, i: nat, ports: set<nat>, k: nat)
    requires k < |nodes|
  {
    k == i || exists c :: i < c <= k && nodes[c].parent == Some(i) && nodes[c].port in ports && Below(nodes, k, c)
  }

  ghost predicate IsPart(nodes: seq<Node>, i: nat, ports: set<nat>, order: seq<nat>) {
    NoDuplicates(order) && forall k: nat :: k in order <==> k < |nodes| && InPart(nodes, i, ports, k)
  }

  lemma OnlyItself(nodes: seq<Node>, i: nat)
    requires i < |nodes|
    ensures IsPart(nodes, i, {}, [i])
  {
  }

  lemma KidIsLater(nodes: seq<Node>, i: nat, port: nat)
    requires Forest(nodes) && port in Kids(nodes, |nodes|, i)
    ensures i < Kids(nodes, |nodes|, i)[port] < |nodes|
  {
    assert Rooted(nodes, Kids(nodes, |nodes|, i)[port]);
  }

  /** The subtree of one more child. */
  lemma AddSubtree(nodes: seq<Node>, i: nat, port: nat, ports: set<nat>, order: seq<nat>, below: seq<nat>)
    requires Forest(nodes) && i < |nodes| && port !in ports && port in Kids(nodes, |nodes|, i)
    requires IsPart(nodes, i, ports, order) && IsSubtree(nodes, Kids(nodes, |nodes|, i)[port], below)
    ensures IsPart(nodes, i, ports + {port}, order + below)
  {
    hide InPart;
    var c := Kids(nodes, |nodes|, i)[port];
    KidIsLater(nodes, i, port);
    forall k | k in order ensures k !in below {
      NotBelow(nodes, i, ports, c, k);
    }
    forall k: nat | k < |nodes| ensures InPart(nodes, i, ports + {port}, k) <==> k in order || k in below {
      OnePort(nodes, i, port, ports, k);
    }
    NoDuplicatesAppend(order, below);
    assert forall k: nat :: k in order + below <==> k in order || k in below;
  }

  lemma NoDuplicatesAppend(a: seq<nat>, b: seq<nat>)
    requires NoDuplicates(a) && NoDuplicates(b) && forall k :: k in a ==> k !in b
    ensures NoDuplicates(a + b)
  {
    forall m, n | 0 <= m < n < |a + b| ensures (a + b)[m] != (a + b)[n] {
      assert m < |a| ==> (a + b)[m] in a;
      assert n >= |a| ==> (a + b)[n] in b;
    }
  }

  lemma NotBelow(nodes: seq<Node>, i: nat, ports: set<nat>, c: nat, k: nat)
    requires Forest(nodes) && k < |nodes| && i < c < |nodes| && nodes[c].parent == Some(i) && nodes[c].port !in ports
    requires InPart(nodes, i, ports, k)
    ensures !Below(nodes, k, c)
  {
    if Below(nodes, k, c) {
      BelowIsLater(nodes, k, c);
      var c' :| i < c' <= k && nodes[c'].parent == Some(i) && nodes[c'].port in ports && Below(nodes, k, c');
      OneChildAbove(nodes, k, c, c', i);
    }
  }

  lemma OnePort(nodes: seq<Node>, i: nat, port: nat, ports: set<nat>, k: nat)
    requires Forest(nodes) && k < |nodes| && i < |nodes| && port in Kids(nodes, |nodes|, i)
    ensures InPart(nodes, i, ports + {port}, k)
      <==> InPart(nodes, i, ports, k) || Below(nodes, k, Kids(nodes, |nodes|, i)[port])
  {
    var c := Kids(nodes, |nodes|, i)[port];
    KidIsLater(nodes, i, port);
    if Below(nodes, k, c) {
      BelowIsLater(nodes, k, c);
    }
    if InPart(nodes, i, ports + {port}, k) && !InPart(nodes, i, ports, k) {
      var c' :| i < c' <= k && nodes[c'].parent == Some(i) && nodes[c'].port in ports + {port} && Below(nodes, k, c');
      assert nodes[c'].port == port;
      assert c' == c;
    }
  }

  lemma WholeSubtree(nodes: seq<Node>, i: nat, order: seq<nat>)
    requires i < |nodes| && Forest(nodes) && IsPart(nodes, i, Kids(nodes, |nodes|, i).Keys, order)
    ensures IsSubtree(nodes, i, order)
  {
    forall k: nat | k < |nodes| ensures InPart(nodes, i, Kids(nodes, |nodes|, i).Keys, k) <==> Below(nodes, k, i) {
      if Below(nodes, k, i) && k != i {
        var c := ChildAbove(nodes, k, i);
      }
      if InPart(nodes, i, Kids(nodes, |nodes|, i).Keys, k) && k != i {
        var c :| i < c <= k && nodes[c].parent == Some(i) && Below(nodes, k, c);
        BelowChild(nodes, k, c, i);
      }
    }
  }

  // ---------------------------------------------------------------------------------
  // What the listing says
  // ---------------------------------------------------------------------------------

  /** The listing is of different devices. */
  ghost predicate DistinctDevices(lines: seq<Line>) {
    forall i, k :: 0 <= i < k < |lines| && lines[i].T? && lines[k].T? ==>
      (lines[i].bus, lines[i].dev) != (lines[k].bus, lines[k].dev)
  }

  predicate Listed(lines: seq<Line>, n: nat, bus: nat, dev: nat)
    requires n <= |lines|
  {
    exists i :: 0 <= i < n && lines[i].T? && lines[i].bus == bus && lines[i].dev == dev
  }

  predicate PortTaken(lines: seq<Line>, n: nat, line: Line)
    requires n <= |lines| && line.T?
  {
    exists i :: 0 <= i < n && lines[i].T? && lines[i].bus == line.bus && lines[i].parent == line.parent
      && lines[i].port == line.port
  }

  /** Line n can be added: its parent comes earlier and the port is free; a serial number follows a device. */
  ghost predicate LineOk(lines: seq<Line>, n: nat)
    requires n < |lines|
  {
    match lines[n]
    case T(bus, parent, _, _) => (parent == 0 || Listed(lines, n, bus, parent)) && !PortTaken(lines, n, lines[n])
    case S(_) => exists i :: 0 <= i < n && lines[i].T?
    case OtherLine => true
  }

  /** What a line raises that cannot be added. */
  ghost function ErrorAt(lines: seq<Line>, n: nat): Error
    requires n < |lines|
  {
    if lines[n].T? && lines[n].parent != 0 && !Listed(lines, n, lines[n].bus, lines[n].parent) then AttributeError
    else ValueError
  }

  /** The last T line before n. */
  function LastT(lines: seq<Line>, n: nat): Option<nat>
    requires n <= |lines|
  {
    if n == 0 then None else if lines[n - 1].T? then Some(n - 1) else LastT(lines, n - 1)
  }

  /** The serial number of the device of line i: that of the last S line before the next T line. */
  function SerialOf(lines: seq<Line>, n: nat, i: nat): Option<string>
    requires n <= |lines|
  {
    if n <= i + 1 then None
    else if lines[n - 1].S? && LastT(lines, n - 1) == Some(i) then Some(lines[n - 1].serial)
    else SerialOf(lines, n - 1, i)
  }

  /** Node k is what line i asks for. */
  ghost predicate Placed(nodes: seq<Node>, k: nat, line: Line, serial: Option<string>) {
    && line.T? && k < |nodes|
    && nodes[k].bus == line.bus && nodes[k].dev == line.dev && nodes[k].port == line.port + 1
      && nodes[k].serial == serial
    && nodes[k].parent.Some? && nodes[k].parent.value < |nodes|
    && (var p := nodes[nodes[k].parent.value];
        p.bus == line.bus && p.dev == if line.parent == 0 then BUS_NUMBER else line.parent)
  }

  /** The device of line i is there, where the line says. */
  ghost predicate HasNode(lines: seq<Line>, n: nat, nodes: seq<Node>, i: nat)
    requires i < n <= |lines| && lines[i].T?
  {
    var k := Find(nodes, lines[i].bus, lines[i].dev);
    k.Some? && Placed(nodes, k.value, lines[i], SerialOf(lines, n, i))
  }

  /** Node k is one of the listed devices. */
  ghost predicate IsListed(lines: seq<Line>, n: nat, nodes: seq<Node>, k: nat)
    requires n <= |lines| && k < |nodes|
  {
    nodes[k].dev >= 0 && Listed(lines, n, nodes[k].bus, nodes[k].dev)
  }

  function LastDevice(lines: seq<Line>, n: nat): Option<(nat, nat)>
    requires n <= |lines|
  {
    if n == 0 then None
    else if lines[n - 1].T? then Some((lines[n - 1].bus, lines[n - 1].dev))
    else LastDevice(lines, n - 1)
  }

  /** The nodes are the buses and the devices of the first n lines, each where its line says. */
  ghost predicate Agrees(lines: seq<Line>, n: nat, t: Topology)
    requires n <= |lines|
  {
    && Forest(t.nodes) && t.last == LastDevice(lines, n)
    && (forall i: nat :: i < n && lines[i].T? ==> HasNode(lines, n, t.nodes, i))
    && (forall k: nat :: k < |t.nodes| && t.nodes[k].parent.Some? ==> IsListed(lines, n, t.nodes, k))
  }

  lemma NodeOfLine(lines: seq<Line>, n: nat, t: Topology, i: nat) returns (k: nat)
    requires i < n <= |lines| && lines[i].T? && Agrees(lines, n, t)
    ensures Find(t.nodes, lines[i].bus, lines[i].dev) == Some(k) && Placed(t.nodes, k, lines[i], SerialOf(lines, n, i))
  {
    assert HasNode(lines, n, t.nodes, i);
    k := Find(t.nodes, lines[i].bus, lines[i].dev).value;
  }

  lemma LineOfNode(lines: seq<Line>, n: nat, t: Topology, k: nat) returns (i: nat)
    requires n <= |lines| && k < |t.nodes| && t.nodes[k].parent.Some? && Agrees(lines, n, t)
    ensures i < n && Placed(t.nodes, k, lines[i], SerialOf(lines, n, i))
    ensures t.nodes[k].bus == lines[i].bus && t.nodes[k].dev == lines[i].dev
  {
    assert IsListed(lines, n, t.nodes, k);
    i :| 0 <= i < n && lines[i].T? && lines[i].bus == t.nodes[k].bus && lines[i].dev == t.nodes[k].dev;
    var k' := NodeOfLine(lines, n, t, i);
    Unique(t.nodes, k, k');
  }

  lemma Unique(nodes: seq<Node>, i: nat, k: nat)
    requires Forest(nodes) && i < |nodes| && k < |nodes| && nodes[i].bus == nodes[k].bus && nodes[i].dev == nodes[k].dev
    ensures i == k
  {
  }

  lemma RootedAt(nodes: seq<Node>, k: nat)
    requires Forest(nodes) && k < |nodes|
    ensures Rooted(nodes, k)
  {
  }

  /** A new bus disturbs nothing. */
  lemma WithBusIsForest(nodes: seq<Node>, bus: nat)
    requires Forest(nodes)
    ensures Forest(WithBus(nodes, bus)) && nodes <= WithBus(nodes, bus)
    ensures Find(WithBus(nodes, bus), bus, BUS_NUMBER).Some?
    ensures forall k: nat :: |nodes| <= k < |WithBus(nodes, bus)| ==> WithBus(nodes, bus)[k].parent.None?
  {
    var more := WithBus(nodes, bus);
    if Find(nodes, bus, BUS_NUMBER).None? {
      assert more[|nodes|].dev == BUS_NUMBER && more[|nodes|].bus == bus;
      forall k: nat | k < |more| ensures Rooted(more, k) {
        if k < |nodes| {
          RootedStays(nodes, more, k);
        }
      }
    }
  }

  lemma RootedStays(nodes: seq<Node>, more: seq<Node>, k: nat)
    requires Forest(nodes) && nodes <= more && k < |nodes|
    ensures Rooted(more, k)
  {
    RootedAt(nodes, k);
    var bus := Find(nodes, nodes[k].bus, BUS_NUMBER);
    assert bus.Some? ==> more[bus.value] == nodes[bus.value];
  }

  /** A line finds its parent exactly if that is listed. */
  lemma ParentIff(lines: seq<Line>, n: nat, t: Topology)
    requires n < |lines| && lines[n].T? && Agrees(lines, n, t)
    ensures
      ParentOf(WithBus(t.nodes, lines[n].bus), lines[n]).Some? <==>
        lines[n].parent == 0 || Listed(lines, n, lines[n].bus, lines[n].parent)
  {
    var line := lines[n];
    var more := WithBus(t.nodes, line.bus);
    WithBusIsForest(t.nodes, line.bus);
    hide Agrees, Forest, WithBus;
    if line.parent != 0 {
      if ParentOf(more, line).Some? {
        var k := ParentOf(more, line).value;
        RootedAt(more, k);
        var i := LineOfNode(lines, n, t, k);
      }
      if Listed(lines, n, line.bus, line.parent) {
        var i: nat :| i < n && lines[i].T? && lines[i].bus == line.bus && lines[i].dev == line.parent;
        var k := NodeOfLine(lines, n, t, i);
        assert more[k] == t.nodes[k];
      }
    }
  }

  lemma TakenIsListed(lines: seq<Line>, n: nat, t: Topology, more: seq<Node>, p: nat)
    requires n < |lines| && lines[n].T? && Agrees(lines, n, t) && more == WithBus(t.nodes, lines[n].bus)
    requires ParentOf(more, lines[n]) == Some(p) && lines[n].port + 1 in Kids(more, |more|, p)
    ensures PortTaken(lines, n, lines[n])
  {
    WithBusIsForest(t.nodes, lines[n].bus);
    hide Agrees, Forest, WithBus, SerialOf;
    var k := Kids(more, |more|, p)[lines[n].port + 1];
    hide Kids;
    var i := LineOfNode(lines, n, t, k);
    assert more[p] == t.nodes[p];
    assert lines[i].parent == lines[n].parent;
  }

  lemma ListedIsTaken(lines: seq<Line>, n: nat, t: Topology, more: seq<Node>, p: nat)
    requires n < |lines| && lines[n].T? && Agrees(lines, n, t) && more == WithBus(t.nodes, lines[n].bus)
    requires ParentOf(more, lines[n]) == Some(p) && PortTaken(lines, n, lines[n])
    ensures lines[n].port + 1 in Kids(more, |more|, p)
  {
    assert Forest(t.nodes);
    hide *;
    WithBusIsForest(t.nodes, lines[n].bus);
    var i := TakenBy(lines, n);
    var k := NodeOfLine(lines, n, t, i);
    SiblingsShareParent(t.nodes, more, k, lines[i], lines[n], SerialOf(lines, n, i), p);
    KidHasPort(more, k, p);
  }

  lemma TakenBy(lines: seq<Line>, n: nat) returns (i: nat)
    requires n < |lines| && lines[n].T? && PortTaken(lines, n, lines[n])
    ensures i < n && lines[i].T? && lines[i].bus == lines[n].bus
    ensures lines[i].parent == lines[n].parent && lines[i].port == lines[n].port
  {
    i :| i < n && lines[i].T? && lines[i].bus == lines[n].bus && lines[i].parent == lines[n].parent
      && lines[i].port == lines[n].port;
  }

  lemma SiblingsShareParent(nodes: seq<Node>, more: seq<Node>, k: nat, earlier: Line, line: Line,
                            serial: Option<string>, p: nat)
    requires Forest(more) && nodes <= more && k < |nodes|
    requires earlier.T? && line.T? && earlier.bus == line.bus && earlier.parent == line.parent
    requires Placed(nodes, k, earlier, serial)
    requires ParentOf(more, line) == Some(p)
    ensures more[k].parent == Some(p) && more[k].port == earlier.port + 1
  {
    hide Forest;
    assert more[k] == nodes[k];
    var q := nodes[k].parent.value;
    assert more[q] == nodes[q];
    Unique(more, q, p);
  }

  lemma KidHasPort(nodes: seq<Node>, k: nat, p: nat)
    requires k < |nodes| && nodes[k].parent == Some(p)
    ensures nodes[k].port in Kids(nodes, |nodes|, p)
  {
  }

  /** A port is taken in the tree exactly if an earlier line has taken it. */
  lemma PortIff(lines: seq<Line>, n: nat, t: Topology)
    requires n < |lines| && lines[n].T? && Agrees(lines, n, t)
    requires ParentOf(WithBus(t.nodes, lines[n].bus), lines[n]).Some?
    ensures
      var more := WithBus(t.nodes, lines[n].bus);
      lines[n].port + 1 in Kids(more, |more|, ParentOf(more, lines[n]).value) <==> PortTaken(lines, n, lines[n])
  {
    hide Agrees, WithBus, Kids, PortTaken;
    var more := WithBus(t.nodes, lines[n].bus);
    var p := ParentOf(more, lines[n]).value;
    if lines[n].port + 1 in Kids(more, |more|, p) {
      TakenIsListed(lines, n, t, more, p);
    }
    if PortTaken(lines, n, lines[n]) {
      ListedIsTaken(lines, n, t, more, p);
    }
  }

  lemma FindStays(nodes: seq<Node>, more: seq<Node>, k: nat)
    requires nodes <= more && Forest(more) && k < |nodes|
    ensures Find(more, nodes[k].bus, nodes[k].dev) == Some(k)
  {
    var f := Find(more, nodes[k].bus, nodes[k].dev);
    assert more[k] == nodes[k];
    Unique(more, k, f.value);
  }

  lemma NewDeviceIsForest(lines: seq<Line>, n: nat, t: Topology)
    requires DistinctDevices(lines) && n < |lines| && lines[n].T? && Agrees(lines, n, t) && Add(t, lines[n]).Ok?
    ensures Forest(Add(t, lines[n]).value.nodes)
  {
    var line := lines[n];
    var more := WithBus(t.nodes, line.bus);
    var nodes := Add(t, line).value.nodes;
    WithBusIsForest(t.nodes, line.bus);
    forall i: nat | i < |more| ensures more[i].bus != line.bus || more[i].dev != line.dev {
      hide Forest;
      RootedAt(more, i);
      if more[i].parent.Some? {
        var l := LineOfNode(lines, n, t, i);
      }
    }
    AppendIsForest(more, nodes[|more|]);
  }

  /** A device whose number is new on the bus, at a free port of a node of the bus. */
  lemma AppendIsForest(nodes: seq<Node>, node: Node)
    requires Forest(nodes) && node.parent.Some? && node.dev >= 0
    requires node.parent.value < |nodes| && nodes[node.parent.value].bus == node.bus
    requires Find(nodes, node.bus, BUS_NUMBER).Some? && node.port !in Kids(nodes, |nodes|, node.parent.value)
    requires forall i: nat :: i < |nodes| ==> nodes[i].bus != node.bus || nodes[i].dev != node.dev
    ensures Forest(nodes + [node])
  {
    var more := nodes + [node];
    forall k: nat | k < |more| ensures Rooted(more, k) {
      if k < |nodes| {
        RootedStays(nodes, more, k);
      } else {
        var bus := Find(nodes, node.bus, BUS_NUMBER);
        assert more[bus.value] == nodes[bus.value];
      }
    }
  }

  /** The listed devices so far have their nodes, and the new one has its own. */
  lemma NewDeviceHasNode(lines: seq<Line>, n: nat, t: Topology, i: nat)
    requires DistinctDevices(lines) && n < |lines| && lines[n].T? && Agrees(lines, n, t) && Add(t, lines[n]).Ok?
    requires i <= n && lines[i].T?
    ensures HasNode(lines, n + 1, Add(t, lines[n]).value.nodes, i)
  {
    var nodes := Add(t, lines[n]).value.nodes;
    NewDeviceIsForest(lines, n, t);
    hide Agrees, Forest, WithBus, Kids;
    if i < n {
      var k := NodeOfLine(lines, n, t, i);
      FindStays(t.nodes, nodes, k);
    } else {
      var k := |nodes| - 1;
      assert nodes[k].bus == lines[n].bus && nodes[k].dev == lines[n].dev;
      Unique(nodes, k, Find(nodes, lines[n].bus, lines[n].dev).value);
    }
  }

  /** The new device. */
  lemma NewDeviceAgrees(lines: seq<Line>, n: nat, t: Topology)
    requires DistinctDevices(lines) && n < |lines| && lines[n].T? && Agrees(lines, n, t) && Add(t, lines[n]).Ok?
    ensures Agrees(lines, n + 1, Add(t, lines[n]).value)
  {
    hide Forest, Kids, HasNode, DistinctDevices;
    var more := WithBus(t.nodes, lines[n].bus);
    var nodes := Add(t, lines[n]).value.nodes;
    NewDeviceIsForest(lines, n, t);
    forall i: nat | i <= n && lines[i].T? ensures HasNode(lines, n + 1, nodes, i) {
      NewDeviceHasNode(lines, n, t, i);
    }
    assert nodes == more + [nodes[|more|]];
    forall k: nat | k < |nodes| && nodes[k].parent.Some? ensures IsListed(lines, n + 1, nodes, k) {
      hide WithBus;
      if k < |more| {
        assert IsListed(lines, n, t.nodes, k);
      } else {
        assert lines[n].T?;
      }
    }
  }

  lemma SerialIsForest(nodes: seq<Node>, d: nat, serial: Option<string>)
    requires Forest(nodes) && d < |nodes|
    ensures Forest(nodes[d := nodes[d].(serial := serial)])
  {
    var now := nodes[d := nodes[d].(serial := serial)];
    forall k: nat | k < |now| ensures Rooted(now, k) {
      RootedAt(nodes, k);
      var bus := Find(nodes, nodes[k].bus, BUS_NUMBER);
      assert bus.Some? ==> now[bus.value].bus == nodes[bus.value].bus && now[bus.value].dev == nodes[bus.value].dev;
    }
  }

  /** The serial number goes to the device of the last T line. */
  lemma SerialAgrees(lines: seq<Line>, n: nat, t: Topology)
    requires DistinctDevices(lines) && n < |lines| && lines[n].S? && Agrees(lines, n, t) && Add(t, lines[n]).Ok?
    ensures Agrees(lines, n + 1, Add(t, lines[n]).value)
  {
    var nodes := Add(t, lines[n]).value.nodes;
    var d := Find(t.nodes, t.last.value.0, t.last.value.1).value;
    LastIsT(lines, n);
    var l := LastT(lines, n).value;
    SerialIsForest(t.nodes, d, Some(lines[n].serial));
    forall i: nat | i <= n && lines[i].T? ensures HasNode(lines, n + 1, nodes, i) {
      hide Agrees, Forest;
      var k := NodeOfLine(lines, n, t, i);
      assert k == d <==> i == l;
      assert nodes[k].bus == lines[i].bus && nodes[k].dev == lines[i].dev;
      Unique(nodes, k, Find(nodes, lines[i].bus, lines[i].dev).value);
    }
    forall k: nat | k < |nodes| && nodes[k].parent.Some? ensures IsListed(lines, n + 1, nodes, k) {
      hide Forest;
      assert IsListed(lines, n, t.nodes, k);
    }
  }

  lemma {:induction false} LastIsT(lines: seq<Line>, n: nat)
    requires n <= |lines|
    ensures
      match LastT(lines, n)
      case None => LastDevice(lines, n) == None && forall i :: 0 <= i < n ==> !lines[i].T?
      case Some(i) => i < n && lines[i].T? && LastDevice(lines, n) == Some((lines[i].bus, lines[i].dev))
    decreases n
  {
    if n > 0 {
      LastIsT(lines, n - 1);
    }
  }

  lemma AddIff(lines: seq<Line>, n: nat, t: Topology)
    requires DistinctDevices(lines) && n < |lines| && Agrees(lines, n, t)
    ensures Add(t, lines[n]).Ok? <==> LineOk(lines, n)
    ensures !LineOk(lines, n) ==> Add(t, lines[n]) == Err(ErrorAt(lines, n))
  {
    hide Agrees, Kids, WithBus, Listed, PortTaken, Placed, ParentOf, SerialOf, DistinctDevices;
    match lines[n]
    case T(_, _, _, _) =>
      ParentIff(lines, n, t);
      if ParentOf(WithBus(t.nodes, lines[n].bus), lines[n]).Some? {
        PortIff(lines, n, t);
      }
    case S(_) => SerialIff(lines, n, t);
    case OtherLine =>
  }

  /** A serial number finds its device exactly if there has been one. */
  lemma SerialIff(lines: seq<Line>, n: nat, t: Topology)
    requires n < |lines| && lines[n].S? && Agrees(lines, n, t)
    ensures Add(t, lines[n]).Ok? <==> exists i :: 0 <= i < n && lines[i].T?
    ensures Add(t, lines[n]).Err? ==> Add(t, lines[n]) == Err(ValueError)
  {
    assert t.last == LastDevice(lines, n);
    hide Agrees, Placed, SerialOf;
    LastIsT(lines, n);
    if t.last.Some? {
      var k := NodeOfLine(lines, n, t, LastT(lines, n).value);
    }
  }

  lemma OtherAgrees(lines: seq<Line>, n: nat, t: Topology)
    requires n < |lines| && lines[n].OtherLine? && Agrees(lines, n, t)
    ensures Agrees(lines, n + 1, t)
  {
    forall i: nat | i <= n && lines[i].T? ensures HasNode(lines, n + 1, t.nodes, i) {
      hide Forest;
      assert HasNode(lines, n, t.nodes, i);
    }
    forall k: nat | k < |t.nodes| && t.nodes[k].parent.Some? ensures IsListed(lines, n + 1, t.nodes, k) {
      hide Forest;
      assert IsListed(lines, n, t.nodes, k);
    }
  }

  /**
    For every listing of different devices: the tree is built exactly if every line can be added,
    and then the nodes are the listed devices, each once, under the listed parent, at the listed
    port + 1 and with its own serial number.
   */
  lemma {:induction false} BuildAgrees(lines: seq<Line>, n: nat)
    requires DistinctDevices(lines) && n <= |lines|
    ensures Build(lines, n).Ok? <==> forall i :: 0 <= i < n ==> LineOk(lines, i)
    ensures Build(lines, n).Ok? ==> Agrees(lines, n, Build(lines, n).value)
    decreases n
  {
    hide Agrees, LineOk, Add;
    if n == 0 {
      NothingAgrees(lines);
    } else {
      BuildAgrees(lines, n - 1);
      if Build(lines, n - 1).Ok? {
        var t := Build(lines, n - 1).value;
        AddIff(lines, n - 1, t);
        if Add(t, lines[n - 1]).Ok? {
          AddAgrees(lines, n - 1, t);
        }
      }
    }
  }

  /** The error is that of the first line that cannot be added. */
  lemma FirstErrorIsReported(lines: seq<Line>, n: nat, i: nat)
    requires DistinctDevices(lines) && i < n <= |lines|
    requires !LineOk(lines, i) && forall k :: 0 <= k < i ==> LineOk(lines, k)
    ensures Build(lines, n) == Err(ErrorAt(lines, i))
  {
    hide Agrees, LineOk, Add, ErrorAt;
    BuildAgrees(lines, i);
    AddIff(lines, i, Build(lines, i).value);
    BuildStops(lines, i + 1, n);
  }

  lemma NothingAgrees(lines: seq<Line>)
    ensures Agrees(lines, 0, Topology([], None))
  {
  }

  lemma AddAgrees(lines: seq<Line>, n: nat, t: Topology)
    requires DistinctDevices(lines) && n < |lines| && Agrees(lines, n, t) && Add(t, lines[n]).Ok?
    ensures Agrees(lines, n + 1, Add(t, lines[n]).value)
  {
    match lines[n]
    case T(_, _, _, _) => NewDeviceAgrees(lines, n, t);
    case S(_) => SerialAgrees(lines, n, t);
    case OtherLine => OtherAgrees(lines, n, t);
  }

  // ---------------------------------------------------------------------------------
  // Building the objects
  // ---------------------------------------------------------------------------------

  lemma OneMoreKid(nodes: seq<Node>, n: nat, i: nat)
    requires 0 < n <= |nodes|
    ensures
      var before := Kids(nodes, n - 1, i);
      Kids(nodes, n, i) == if nodes[n - 1].parent == Some(i) then before[nodes[n - 1].port := n - 1] else before
  {
  }

  lemma NoKids(nodes: seq<Node>, i: nat)
    ensures Kids(nodes, 0, i) == map[]
  {
  }

  lemma {:induction false} KidsPrefix(nodes: seq<Node>, more: seq<Node>, n: nat, i: nat)
    requires n <= |nodes| && nodes <= more
    ensures Kids(more, n, i) == Kids(nodes, n, i)
    decreases n
  {
    hide Kids;
    if n == 0 {
      NoKids(nodes, i);
      NoKids(more, i);
    } else {
      OneMoreKid(nodes, n, i);
      OneMoreKid(more, n, i);
      KidsPrefix(nodes, more, n - 1, i);
      assert more[n - 1] == nodes[n - 1];
    }
  }

  lemma KidsAppend(nodes: seq<Node>, node: Node, i: nat)
    ensures
      var before := Kids(nodes, |nodes|, i);
      Kids(nodes + [node], |nodes| + 1, i) == if node.parent == Some(i) then before[node.port := |nodes|] else before
  {
    KidsPrefix(nodes, nodes + [node], |nodes|, i);
    assert (nodes + [node])[|nodes|] == node;
  }

  lemma {:induction false} KidsWithSerial(nodes: seq<Node>, d: nat, serial: Option<string>, n: nat, i: nat)
    requires n <= |nodes| && d < |nodes|
    ensures Kids(nodes[d := nodes[d].(serial := serial)], n, i) == Kids(nodes, n, i)
    decreases n
  {
    hide Kids;
    var now := nodes[d := nodes[d].(serial := serial)];
    if n == 0 {
      NoKids(nodes, i);
      NoKids(now, i);
    } else {
      OneMoreKid(nodes, n, i);
      OneMoreKid(now, n, i);
      KidsWithSerial(nodes, d, serial, n - 1, i);
    }
  }

  lemma NoKidsYet(nodes: seq<Node>)
    requires Forest(nodes)
    ensures Kids(nodes, |nodes|, |nodes|) == map[]
  {
    forall port ensures port !in Kids(nodes, |nodes|, |nodes|) {
      var kids := Kids(nodes, |nodes|, |nodes|);
      if port in kids {
        RootedAt(nodes, kids[port]);
      }
    }
  }

  /** A node without a new child is as it was. */
  lemma NodeStays(all: seq<USBNode>, nodes: seq<Node>, made: USBNode, node: Node, i: nat)
    requires |all| == |nodes| && i < |all| && NodeIs(all, nodes, i) && node.parent != Some(i)
    ensures NodeIs(all + [made], nodes + [node], i)
  {
    KidsAppend(nodes, node, i);
    var kids := Kids(nodes, |nodes|, i);
    assert forall port :: port in kids ==> kids[port] < |all|;
    hide Kids;
  }

  lemma NewNodeIs(all: seq<USBNode>, nodes: seq<Node>, made: USBNode, node: Node)
    requires |all| == |nodes| && Forest(nodes) && made.portToNode == map[]
      && (node.parent.Some? ==> node.parent.value < |nodes|)
    requires made.busNum == node.bus && made.deviceNum == node.dev && made.serial == node.serial
    ensures NodeIs(all + [made], nodes + [node], |nodes|)
  {
    KidsAppend(nodes, node, |nodes|);
    NoKidsYet(nodes);
    hide Kids;
  }

  /** The parent of the new node. */
  lemma ParentGrows(all: seq<USBNode>, nodes: seq<Node>, made: USBNode, node: Node, p: nat)
    requires |all| == |nodes| && p < |all| && node.parent == Some(p)
    requires all[p].busNum == nodes[p].bus && all[p].deviceNum == nodes[p].dev && all[p].serial == nodes[p].serial
    requires
      var kids := Kids(nodes, |nodes|, p);
      && all[p].portToNode.Keys == kids.Keys + {node.port} && all[p].portToNode[node.port] == made
      && forall port :: port in kids && port != node.port ==> all[p].portToNode[port] == all[kids[port]]
    ensures NodeIs(all + [made], nodes + [node], p)
  {
    KidsAppend(nodes, node, p);
    var kids := Kids(nodes, |nodes|, p);
    assert forall port :: port in kids ==> kids[port] < |all|;
    hide Kids;
  }

  /** A new object for a node without children, before it is anyone's child. */
  method NewNode(node: Node, ghost all: seq<USBNode>, ghost nodes: seq<Node>) returns (made: USBNode)
    requires Represents(all, nodes) && Forest(nodes) && node.serial == None && node.parent == None
    ensures fresh(made) && Represents(all + [made], nodes + [node])
    ensures made.busNum == node.bus && made.deviceNum == node.dev && made.serial == None && made.portToNode == map[]
  {
    made := new USBNode(node.bus, node.dev);
    hide NodeIs, Forest;
    forall i: nat | i < |all| ensures NodeIs(all + [made], nodes + [node], i) {
      assert NodeIs(all, nodes, i);
      NodeStays(all, nodes, made, node, i);
    }
    NewNodeIs(all, nodes, made, node);
  }

  /** The object of node p takes a new child, if the port is free. */
  method AttachNode(bus: nat, dev: int, port: nat, parent: USBNode, ghost p: nat, ghost all: seq<USBNode>,
                    ghost nodes: seq<Node>)
    returns (ok: bool, ghost now: seq<USBNode>)
    requires Represents(all, nodes) && Forest(nodes) && p < |all| && all[p] == parent
    modifies parent`portToNode
    ensures ok <==> port !in Kids(nodes, |nodes|, p)
    ensures ok ==> |now| == |all| + 1 && all <= now && fresh(now[|all|])
    ensures ok ==> Represents(now, nodes + [Node(bus, dev, Some(p), port, None)])
  {
    hide Forest, Kids, NodeIs;
    ghost var node := Node(bus, dev, Some(p), port, None);
    NodeMeans(all, nodes, p);
    var made := new USBNode(bus, dev);
    ok := parent.AddChild(port, made);
    now := all + [made];
    if ok {
      ParentGrows(all, nodes, made, node, p);
      NewNodeIs(all, nodes, made, node);
      assert forall i: nat :: i < |all| && i != p ==> old(NodeIs(all, nodes, i));
      OthersStay(all, nodes, made, node, p);
    }
  }

  lemma NodeMeans(all: seq<USBNode>, nodes: seq<Node>, i: nat)
    requires |all| == |nodes| && i < |all| && NodeIs(all, nodes, i)
    ensures
      var kids := Kids(nodes, |nodes|, i);
      && all[i].busNum == nodes[i].bus && all[i].deviceNum == nodes[i].dev && all[i].serial == nodes[i].serial
      && all[i].portToNode.Keys == kids.Keys
      && forall port :: port in kids ==> kids[port] < |all| && all[i].portToNode[port] == all[kids[port]]
  {
  }

  lemma OthersStay(all: seq<USBNode>, nodes: seq<Node>, made: USBNode, node: Node, p: nat)
    requires |all| == |nodes| && node.parent == Some(p)
    requires forall i: nat :: i < |all| && i != p ==> NodeIs(all, nodes, i)
    ensures forall i: nat :: i < |all| && i != p ==> NodeIs(all + [made], nodes + [node], i)
  {
    forall i: nat | i < |all| && i != p ensures NodeIs(all + [made], nodes + [node], i) {
      NodeStays(all, nodes, made, node, i);
    }
  }

  method SetSerial(serial: string, ghost all: seq<USBNode>, ghost nodes: seq<Node>, ghost d: nat, node: USBNode)
    requires Represents(all, nodes) && d < |all| && all[d] == node
    modifies node`serial
    ensures Represents(all, nodes[d := nodes[d].(serial := Some(serial))])
  {
    hide Kids;
    node.serial := Some(serial);
    ghost var now := nodes[d := nodes[d].(serial := Some(serial))];
    forall i: nat | i < |all| ensures NodeIs(all, now, i) {
      assert old(NodeIs(all, nodes, i));
      KidsWithSerial(nodes, d, Some(serial), |nodes|, i);
    }
  }

  /** The map from bus numbers to the objects of the buses. */
  ghost predicate TreeIs(tree: map<nat, USBNode>, all: seq<USBNode>, nodes: seq<Node>)
    requires |all| == |nodes|
  {
    forall bus: nat ::
      && (bus in tree <==> Find(nodes, bus, BUS_NUMBER).Some?)
      && (bus in tree ==> tree[bus] == all[Find(nodes, bus, BUS_NUMBER).value])
  }

  /** What the search below a bus finds is what the listing of all nodes has. */
  method FindOnBus(tree: map<nat, USBNode>, bus: nat, num: nat, ghost all: seq<USBNode>, ghost nodes: seq<Node>)
    returns (node: USBNode?)
    requires Represents(all, nodes) && Forest(nodes) && TreeIs(tree, all, nodes) && bus in tree
    ensures match Find(nodes, bus, num) case None => node == null case Some(k) => node == all[k]
  {
    hide Kids;
    ghost var b := Find(nodes, bus, BUS_NUMBER).value;
    node := tree[bus].FindDeviceNumber(num, all, nodes, b);
    ghost var f := Find(nodes, bus, num);
    if node == null {
      if f.Some? {
        BelowBus(nodes, f.value);
      }
    } else {
      ghost var k :| 0 <= k < |nodes| && Below(nodes, k, b) && nodes[k].dev == num && all[k] == node;
      BelowIsLater(nodes, k, b);
      FindStays(nodes, nodes, k);
    }
  }

  /** A node that is not a bus changes nothing in the map of buses. */
  lemma TreeStays(tree: map<nat, USBNode>, all: seq<USBNode>, now: seq<USBNode>, nodes: seq<Node>, more: seq<Node>)
    requires |all| == |nodes| && |now| == |more| && TreeIs(tree, all, nodes) && Forest(more)
    requires |nodes| <= |more| && now[..|all|] == all
    requires forall k :: 0 <= k < |nodes| ==> more[k].bus == nodes[k].bus && more[k].dev == nodes[k].dev
    requires forall k :: |nodes| <= k < |more| ==> more[k].dev >= 0
    ensures TreeIs(tree, now, more)
  {
    forall bus: nat ensures Find(more, bus, BUS_NUMBER) == Find(nodes, bus, BUS_NUMBER) {
      var a, b := Find(nodes, bus, BUS_NUMBER), Find(more, bus, BUS_NUMBER);
      if a.Some? {
        assert more[a.value].bus == bus && more[a.value].dev == BUS_NUMBER;
        Unique(more, a.value, b.value);
      }
    }
  }

  method EnsureBus(tree: map<nat, USBNode>, bus: nat, ghost all: seq<USBNode>, ghost nodes: seq<Node>)
    returns (now: map<nat, USBNode>, ghost more: seq<USBNode>)
    requires Represents(all, nodes) && Forest(nodes) && TreeIs(tree, all, nodes)
    ensures |more| == |WithBus(nodes, bus)| && Represents(more, WithBus(nodes, bus))
    ensures TreeIs(now, more, WithBus(nodes, bus))
    ensures all <= more && forall i :: |all| <= i < |more| ==> fresh(more[i])
    ensures bus in now
  {
    WithBusIsForest(nodes, bus);
    if bus in tree {
      return tree, all;
    }
    var node := Node(bus, BUS_NUMBER, None, 0, None);
    var made := NewNode(node, all, nodes);
    more := all + [made];
    now := tree[bus := made];
    NewBusInTree(tree, made, all, nodes, node);
  }

  lemma NewBusInTree(tree: map<nat, USBNode>, made: USBNode, all: seq<USBNode>, nodes: seq<Node>, node: Node)
    requires |all| == |nodes| && TreeIs(tree, all, nodes) && node.dev == BUS_NUMBER && node.bus !in tree
    requires Forest(nodes + [node])
    ensures TreeIs(tree[node.bus := made], all + [made], nodes + [node])
  {
    var more := nodes + [node];
    forall bus: nat
      ensures Find(more, bus, BUS_NUMBER) == if bus == node.bus then Some(|nodes|) else Find(nodes, bus, BUS_NUMBER)
    {
      var a, b := Find(nodes, bus, BUS_NUMBER), Find(more, bus, BUS_NUMBER);
      assert more[|nodes|] == node;
      if bus == node.bus {
        Unique(more, |nodes|, b.value);
      } else if a.Some? {
        assert more[a.value] == nodes[a.value];
        Unique(more, a.value, b.value);
      }
    }
  }

  /** A T line: lines 276-300. */
  method AddDevice(tree: map<nat, USBNode>, line: Line, ghost all: seq<USBNode>, ghost t: Topology)
    returns (now: map<nat, USBNode>, error: Option<Error>, ghost objects: seq<USBNode>)
    requires line.T? && Represents(all, t.nodes) && Forest(t.nodes) && TreeIs(tree, all, t.nodes)
    requires Add(t, line).Ok? ==> Forest(Add(t, line).value.nodes)
    modifies all
    ensures match Add(t, line)
            case Err(e) => error == Some(e)
            case Ok(u) => error == None && Represents(objects, u.nodes) && TreeIs(now, objects, u.nodes)
    ensures error == None ==> all <= objects && forall i :: |all| <= i < |objects| ==> fresh(objects[i])
  {
    hide Kids, NodeIs, Forest, TreeIs;
    ghost var nodes := WithBus(t.nodes, line.bus);
    WithBusIsForest(t.nodes, line.bus);
    now, objects := EnsureBus(tree, line.bus, all, t.nodes);
    var parent: USBNode?;
    if line.parent != 0 {
      parent := FindOnBus(now, line.bus, line.parent, objects, nodes);
    } else {
      BusOf(now, line.bus, objects, nodes);
      parent := now[line.bus];
    }
    if parent == null {
      return now, Some(AttributeError), objects;
    }
    ghost var p := ParentOf(nodes, line).value;
    ghost var before := objects;
    var ok;
    ok, objects := AttachNode(line.bus, line.dev, line.port + 1, parent, p, before, nodes);
    if !ok {
      return now, Some(ValueError), objects;
    }
    TreeStays(now, before, objects, nodes, nodes + [Node(line.bus, line.dev, Some(p), line.port + 1, None)]);
    return now, None, objects;
  }

  /** An S line: lines 302-307. */
  method AddSerial(tree: map<nat, USBNode>, last: Option<(nat, nat)>, serial: string, ghost all: seq<USBNode>,
                   ghost t: Topology)
    returns (error: Option<Error>)
    requires Represents(all, t.nodes) && Forest(t.nodes) && TreeIs(tree, all, t.nodes) && t.last == last
    modifies all
    ensures match Add(t, S(serial))
            case Err(e) => error == Some(e)
            case Ok(u) => error == None && Represents(all, u.nodes) && TreeIs(tree, all, u.nodes)
  {
    if last == None {
      return Some(ValueError);
    }
    var (bus, dev) := last.value;
    if bus !in tree {
      assert Find(t.nodes, bus, dev).Some? ==> RootedBus(t.nodes, Find(t.nodes, bus, dev).value);
      return Some(AttributeError);
    }
    var node := FindOnBus(tree, bus, dev, all, t.nodes);
    if node == null {
      return Some(AttributeError);
    }
    ghost var d := Find(t.nodes, bus, dev).value;
    SetSerial(serial, all, t.nodes, d, node);
    SerialIsForest(t.nodes, d, Some(serial));
    TreeStays(tree, all, all, t.nodes, t.nodes[d := t.nodes[d].(serial := Some(serial))]);
    return None;
  }

  ghost predicate RootedBus(nodes: seq<Node>, k: nat)
    requires k < |nodes| && Forest(nodes)
    ensures RootedBus(nodes, k) && Find(nodes, nodes[k].bus, BUS_NUMBER).Some?
  {
    BelowBus(nodes, k);
    true
  }

  lemma {:induction false} BuildStops(lines: seq<Line>, n: nat, m: nat)
    requires n <= m <= |lines| && Build(lines, n).Err?
    ensures Build(lines, m) == Build(lines, n)
    decreases m
  {
    hide Add;
    if n < m {
      BuildStops(lines, n, m - 1);
    }
  }

  /** The map, the objects and the last device are as a topology says. */
  ghost predicate Holds(tree: map<nat, USBNode>, last: Option<(nat, nat)>, all: seq<USBNode>, t: Topology)
    reads all
  {
    Represents(all, t.nodes) && TreeIs(tree, all, t.nodes) && Forest(t.nodes) && t.last == last
  }

  /** The body of the loop. */
  method AddLine(tree: map<nat, USBNode>, last: Option<(nat, nat)>, line: Line, ghost all: seq<USBNode>,
                 ghost t: Topology)
    returns (now: map<nat, USBNode>, device: Option<(nat, nat)>, error: Option<Error>, ghost objects: seq<USBNode>)
    requires Holds(tree, last, all, t) && (Add(t, line).Ok? ==> Forest(Add(t, line).value.nodes))
    modifies all
    ensures match Add(t, line)
            case Err(e) => error == Some(e)
            case Ok(u) => error == None && Holds(now, device, objects, u)
    ensures error == None ==> all <= objects && forall i :: |all| <= i < |objects| ==> fresh(objects[i])
  {
    hide Kids, NodeIs, Forest, TreeIs, Represents, Add;
    now, device, error, objects := tree, last, None, all;
    LastOf(t, line);
    match line {
      case T(bus, _, _, dev) =>
        now, error, objects := AddDevice(tree, line, all, t);
        device := Some((bus, dev));
      case S(serial) =>
        error := AddSerial(tree, last, serial, all, t);
      case OtherLine =>
    }
  }

  /** `GetBusNumberToDeviceTreeMap`: the objects are those that the listing asks for. */
  method GetBusNumberToDeviceTreeMap(lines: seq<Line>)
    returns (tree: Result<map<nat, USBNode>, Error>, ghost all: seq<USBNode>)
    requires DistinctDevices(lines)
    ensures tree.Ok? <==> Build(lines, |lines|).Ok?
    ensures tree.Err? ==> Build(lines, |lines|) == Err(tree.error)
    ensures tree.Ok? ==>
      var nodes := Build(lines, |lines|).value.nodes;
      Represents(all, nodes) && TreeIs(tree.value, all, nodes)
  {
    hide Holds, Agrees, Build, Add, Forest, Represents, TreeIs, DistinctDevices;
    var buses: map<nat, USBNode>, last: Option<(nat, nat)> := map[], None;
    ghost var t := Topology([], None);
    all := [];
    NothingHeld(lines);
    for i := 0 to |lines|
      invariant Build(lines, i) == Ok(t) && Holds(buses, last, all, t)
      invariant forall k :: 0 <= k < |all| ==> fresh(all[k])
    {
      AddedIsForest(lines, i);
      var error;
      buses, last, error, all := AddLine(buses, last, lines[i], all, t);
      if error.Some? {
        BuildStops(lines, i + 1, |lines|);
        return Err(error.value), all;
      }
      t := Build(lines, i + 1).value;
    }
    HeldMeans(buses, last, all, t);
    return Ok(buses), all;
  }

  lemma NothingHeld(lines: seq<Line>)
    ensures Build(lines, 0) == Ok(Topology([], None)) && Holds(map[], None, [], Topology([], None))
  {
  }

  lemma HeldMeans(tree: map<nat, USBNode>, last: Option<(nat, nat)>, all: seq<USBNode>, t: Topology)
    requires Holds(tree, last, all, t)
    ensures Represents(all, t.nodes) && TreeIs(tree, all, t.nodes)
  {
  }

  lemma AddedIsForest(lines: seq<Line>, n: nat)
    requires n < |lines| && DistinctDevices(lines) && Build(lines, n).Ok?
    ensures Build(lines, n + 1) == Add(Build(lines, n).value, lines[n])
    ensures Build(lines, n + 1).Ok? ==> Forest(Build(lines, n + 1).value.nodes)
  {
    hide Add, Agrees;
    BuildAgrees(lines, n + 1);
    ForestOf(lines, n + 1);
  }

  lemma ForestOf(lines: seq<Line>, n: nat)
    requires n <= |lines| && (Build(lines, n).Ok? ==> Agrees(lines, n, Build(lines, n).value))
    ensures Build(lines, n).Ok? ==> Forest(Build(lines, n).value.nodes)
  {
  }

  lemma LastOf(t: Topology, line: Line)
    ensures Add(t, line).Ok? ==> Add(t, line).value.last == if line.T? then Some((line.bus, line.dev)) else t.last
    ensures line.OtherLine? ==> Add(t, line) == Ok(t)
  {
  }

  lemma BusOf(tree: map<nat, USBNode>, bus: nat, all: seq<USBNode>, nodes: seq<Node>)
    requires |all| == |nodes| && TreeIs(tree, all, nodes) && bus in tree
    ensures Find(nodes, bus, BUS_NUMBER).Some? && tree[bus] == all[Find(nodes, bus, BUS_NUMBER).value]
  {
  }
}
