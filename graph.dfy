/** The workflow graph as the builder sees it: nodes carrying an interface
    kind and its scalar inputs, and edges from an output port of one node to
    an input port of another. The processing interfaces themselves are
    opaque; only their configuration is recorded. */
module Graph {
  import Params

  datatype Option<T> = None | Some(value: T)

  /** A file shipped inside a Python package, located by package name and
      relative path. */
  datatype PackageFile = PackageFile(package: string, path: string)

  /** Scalar configuration given to a node. Literals the model does not
      reason about numerically (floats, thresholds) are kept as their text. */
  datatype Value =
    | Int(i: int)
    | Bool(b: bool)
    | Text(s: string)
    | IntList(ints: seq<int>)
    | Opaque(literal: string)
    | Files(files: seq<PackageFile>)

  /** The processing interface a node wraps. */
  datatype Interface =
    | IdentityInterface(fields: seq<string>)
    | TemplateDimensions
    | Conform
    | LTAConvert
    | IntensityClip
    | N4BiasFieldCorrection
    | StructuralReference
    | Reorient
    | Merge(numInputs: nat)
    | Select
    | ConcatenateXFMs

  /** A plain node runs its interface once; a map node runs it once per
      element of the inputs named in its iterfield. */
  datatype Exec = Single | MapOver(iterfield: seq<string>)

  /** One node: its name, interface, inputs set at creation or assigned
      later, how it is executed, and the scheduling hints it carries
      (`None` leaves the engine's default). */
  datatype Node = Node(
    name: string,
    iface: Interface,
    inputs: map<string, Value>,
    exec: Exec,
    nProcs: Option<int>,
    memGb: Option<int>,
    runWithoutSubmitting: bool)

  /** A function applied to the value travelling along an edge, as in
      `(('out_file', f, arg), 'dst_port')`: nothing, the builder's
      `_set_threads` with its `maximum`, or niworkflows' `add_suffix`. */
  datatype EdgeFn = Pass | ApplySetThreads(maximum: int) | AddSuffix(suffix: string)

  /** The thread count an edge delivers when the list `xs` travels along
      it: only an edge applying `_set_threads` turns a list into a count. */
  function ThreadsOn<T>(fn: EdgeFn, xs: seq<T>): (r: Option<int>)
    ensures r.Some? <==> fn.ApplySetThreads?
    ensures r.Some? ==> r.value <= fn.maximum && r.value <= |xs| && (r.value == |xs| || r.value == fn.maximum)
  {
    if fn.ApplySetThreads? then Some(Params.SetThreads(xs, fn.maximum)) else None
  }

  datatype Edge = Edge(src: string, srcPort: string, fn: EdgeFn, dst: string, dstPort: string)

  /** One `(src_port, dst_port)` entry of a connection list. */
  datatype PortPair = PortPair(srcPort: string, fn: EdgeFn, dstPort: string)

  /** One `(src_node, dst_node, [ports...])` entry of a connect call. */
  datatype Link = Link(src: Node, dst: Node, ports: seq<PortPair>)

  /** Every node is stored under its own name. */
  ghost predicate WellKeyed(nodes: map<string, Node>)
  {
    forall k :: k in nodes ==> nodes[k].name == k
  }

  /** Adding a node the graph already holds (by name) leaves the graph as it is. */
  function AddNode(nodes: map<string, Node>, n: Node): map<string, Node>
  {
    if n.name in nodes then nodes else nodes[n.name := n]
  }

  /** The nodes after connecting `links[i..]` in order. */
  function ConnectNodesFrom(nodes: map<string, Node>, links: seq<Link>, i: nat): map<string, Node>
    decreases |links| - i
  {
    if i >= |links| then nodes
    else ConnectNodesFrom(AddNode(AddNode(nodes, links[i].src), links[i].dst), links, i + 1)
  }

  /** Connecting from link `i` adds that link's two nodes, then goes on. */
  lemma ConnectNodesStep(nodes: map<string, Node>, links: seq<Link>, i: nat)
    requires i < |links|
    ensures ConnectNodesFrom(nodes, links, i)
         == ConnectNodesFrom(AddNode(AddNode(nodes, links[i].src), links[i].dst), links, i + 1)
  {
  }

  /** The nodes after connecting `links` in order. */
  function ConnectNodes(nodes: map<string, Node>, links: seq<Link>): map<string, Node>
  {
    ConnectNodesFrom(nodes, links, 0)
  }

  /** The edge that port entry `j` of `link` stands for. */
  function LinkEdge(link: Link, j: nat): Edge
    requires j < |link.ports|
  {
    Edge(link.src.name, link.ports[j].srcPort, link.ports[j].fn, link.dst.name, link.ports[j].dstPort)
  }

  /** The edges of port entries `j..` of one link. */
  function PortEdgesFrom(link: Link, j: nat): seq<Edge>
    decreases |link.ports| - j
  {
    if j >= |link.ports| then [] else [LinkEdge(link, j)] + PortEdgesFrom(link, j + 1)
  }

  /** The edges that connecting `links[i..]` adds, in order. */
  function ConnectEdgesFrom(links: seq<Link>, i: nat): seq<Edge>
    decreases |links| - i
  {
    if i >= |links| then [] else PortEdgesFrom(links[i], 0) + ConnectEdgesFrom(links, i + 1)
  }

  /** Connecting from a link with one port entry adds that entry's edge, then goes on. */
  lemma ConnectEdgesOnePort(links: seq<Link>, i: nat)
    requires i < |links| && |links[i].ports| == 1
    ensures ConnectEdgesFrom(links, i) == [LinkEdge(links[i], 0)] + ConnectEdgesFrom(links, i + 1)
  {
    assert PortEdgesFrom(links[i], 1) == [];
  }

  /** Connecting from a link with two port entries adds their edges in order, then goes on. */
  lemma ConnectEdgesTwoPorts(links: seq<Link>, i: nat)
    requires i < |links| && |links[i].ports| == 2
    ensures ConnectEdgesFrom(links, i) == [LinkEdge(links[i], 0), LinkEdge(links[i], 1)] + ConnectEdgesFrom(links, i + 1)
  {
    assert PortEdgesFrom(links[i], 2) == [];
    assert PortEdgesFrom(links[i], 1) == [LinkEdge(links[i], 1)];
  }

  /** The edges that connecting `links` adds, in order. */
  function ConnectEdges(links: seq<Link>): seq<Edge>
  {
    ConnectEdgesFrom(links, 0)
  }

  /** The names of all nodes mentioned by `links[i..]`. */
  function EndpointsFrom(links: seq<Link>, i: nat): set<string>
    decreases |links| - i
  {
    if i >= |links| then {} else {links[i].src.name, links[i].dst.name} + EndpointsFrom(links, i + 1)
  }

  /** Both nodes of every link from `i` on are among the endpoints. */
  lemma {:induction false} EndpointsHas(links: seq<Link>, i: nat, k: nat)
    requires i <= k < |links|
    ensures links[k].src.name in EndpointsFrom(links, i) && links[k].dst.name in EndpointsFrom(links, i)
    decreases k - i
  {
    if i < k {
      EndpointsHas(links, i + 1, k);
    }
  }

  /** The port entries of one link become its edges, in order, one each. */
  lemma {:induction false} PortEdgesAt(link: Link, j0: nat)
    requires j0 <= |link.ports|
    ensures |PortEdgesFrom(link, j0)| == |link.ports| - j0
    ensures forall j :: j0 <= j < |link.ports| ==> PortEdgesFrom(link, j0)[j - j0] == LinkEdge(link, j)
    decreases |link.ports| - j0
  {
    if j0 < |link.ports| {
      PortEdgesAt(link, j0 + 1);
    }
  }

  /** An edge is added by connecting `links[i..]` exactly when some port
      entry of one of those links stands for it. */
  lemma {:induction false} ConnectEdgesMembers(links: seq<Link>, i: nat, e: Edge)
    ensures e in ConnectEdgesFrom(links, i) <==>
      exists k, j :: i <= k < |links| && 0 <= j < |links[k].ports| && e == LinkEdge(links[k], j)
    decreases |links| - i
  {
    if i < |links| {
      PortEdgesAt(links[i], 0);
      ConnectEdgesMembers(links, i + 1, e);
      if e in ConnectEdgesFrom(links, i) {
        if e in PortEdgesFrom(links[i], 0) {
          var j :| 0 <= j < |links[i].ports| && PortEdgesFrom(links[i], 0)[j] == e;
          assert e == LinkEdge(links[i], j);
        }
      }
      if exists k, j :: i <= k < |links| && 0 <= j < |links[k].ports| && e == LinkEdge(links[k], j) {
        var k, j :| i <= k < |links| && 0 <= j < |links[k].ports| && e == LinkEdge(links[k], j);
        if k == i {
          assert PortEdgesFrom(links[i], 0)[j] == e;
        }
      }
    }
  }

  /** Adding a node keeps every node present, stores the new one under its
      name, and adds no other name. */
  lemma AddNodeSpec(nodes: map<string, Node>, n: Node)
    requires WellKeyed(nodes)
    ensures AddNode(nodes, n).Keys == nodes.Keys + {n.name}
    ensures forall k :: k in nodes ==> AddNode(nodes, n)[k] == nodes[k]
    ensures n.name !in nodes ==> AddNode(nodes, n)[n.name] == n
    ensures WellKeyed(AddNode(nodes, n))
  {
  }

  /** The node the first of `links[i..]` that mentions `name` carries
      under that name, its source checked before its destination. */
  function FirstMention(links: seq<Link>, i: nat, name: string): Node
    requires name in EndpointsFrom(links, i)
    decreases |links| - i
  {
    if links[i].src.name == name then links[i].src
    else if links[i].dst.name == name then links[i].dst
    else FirstMention(links, i + 1, name)
  }

  /** Connecting adds exactly the nodes the links mention, keeps every node
      already present as it was, stores a new name with the node the first
      link mentioning it carries, and stores each node under its name. */
  lemma {:induction false} ConnectNodesSpec(nodes: map<string, Node>, links: seq<Link>, i: nat)
    requires WellKeyed(nodes)
    ensures ConnectNodesFrom(nodes, links, i).Keys == nodes.Keys + EndpointsFrom(links, i)
    ensures forall k :: k in nodes ==> ConnectNodesFrom(nodes, links, i)[k] == nodes[k]
    ensures forall k :: k in EndpointsFrom(links, i) && k !in nodes ==>
      ConnectNodesFrom(nodes, links, i)[k] == FirstMention(links, i, k)
    ensures WellKeyed(ConnectNodesFrom(nodes, links, i))
    decreases |links| - i
  {
    if i < |links| {
      var once := AddNode(nodes, links[i].src);
      AddNodeSpec(nodes, links[i].src);
      var next := AddNode(once, links[i].dst);
      AddNodeSpec(once, links[i].dst);
      ConnectNodesSpec(next, links, i + 1);
    }
  }

  /** A workflow under construction: the nodes added so far, keyed by name,
      and the edges in the order they were connected. */
  class Workflow {
    const name: string
    var nodes: map<string, Node>
    var edges: seq<Edge>

    /** Every node is stored under its name and every edge joins two nodes
        of the graph. */
    ghost predicate Valid()
      reads this
    {
      WellKeyed(nodes) &&
      forall e :: e in edges ==> e.src in nodes && e.dst in nodes
    }

    /** An empty workflow named `name`. */
    constructor (name: string)
      ensures Valid()
      ensures this.name == name && nodes == map[] && edges == []
    {
      this.name := name;
      nodes := map[];
      edges := [];
    }

    /** `wf.connect([...])`: adds the two nodes of every link that the graph
        does not hold yet, then the link's edges, link after link. */
    method Connect(links: seq<Link>)
      requires Valid()
      modifies this
      ensures Valid()
      ensures nodes == ConnectNodes(old(nodes), links)
      ensures edges == old(edges) + ConnectEdges(links)
    {
      var i := 0;
      while i < |links|
        invariant 0 <= i <= |links|
        invariant ConnectNodesFrom(nodes, links, i) == ConnectNodes(old(nodes), links)
        invariant edges + ConnectEdgesFrom(links, i) == old(edges) + ConnectEdges(links)
      {
        var link := links[i];
        nodes := AddNode(AddNode(nodes, link.src), link.dst);
        edges := edges + PortEdgesFrom(link, 0);
        i := i + 1;
      }
      assert edges == old(edges) + ConnectEdges(links);
      ConnectNodesSpec(old(nodes), links, 0);
      forall e | e in edges
        ensures e.src in nodes && e.dst in nodes
      {
        if e !in old(edges) {
          assert e in ConnectEdges(links);
          ConnectEdgesMembers(links, 0, e);
          var k, j :| 0 <= k < |links| && 0 <= j < |links[k].ports| && e == LinkEdge(links[k], j);
          EndpointsHas(links, 0, k);
        }
      }
    }

    /** `node.inputs.port = value` on a node the graph already holds: that
        node's input is set, everything else is left alone. */
    method SetInput(nodeName: string, port: string, value: Value)
      requires Valid() && nodeName in nodes
      modifies this
      ensures Valid()
      ensures nodeName in nodes
      ensures nodes == old(nodes)[nodeName := old(nodes)[nodeName].(inputs := old(nodes)[nodeName].inputs[port := value])]
      ensures edges == old(edges)
    {
      var n := nodes[nodeName];
      nodes := nodes[nodeName := n.(inputs := n.inputs[port := value])];
    }
  }
}
