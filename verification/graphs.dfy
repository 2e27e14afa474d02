/** The flat graph that the executor interprets, the state its nodes share and the lookups on it. */
module Graphs {
  import opened Options

  datatype Result<+T> = Ok(value: T) | Err(message: string)

  type Name = string
  type Call = string
  /** One Agent conversation, as the list of its messages. */
  type History = seq<string>

  /** The transition target that means "this graph is done". */
  const END: Name := "__end__"

  /** Agent, Function and Tool nodes are one abstract `Leaf`. */
  datatype Kind = Leaf | Parallel(branches: seq<Name>) | Loop(body: Name, maxIterations: int)

  /** `exitTo` is where a transition to END goes instead; empty when the graph really ends. */
  datatype Node = Node(name: Name, kind: Kind, exitTo: Name)

  datatype Edge = Static(from: Name, to: Name) | Conditional(from: Name)

  datatype Graph = Graph(entry: Name, nodes: seq<Node>, edges: seq<Edge>, maxSteps: int)

  /** What nodes read and write: scoped values and Agent conversations. */
  datatype Data = Data(values: map<string, string>, histories: map<Name, History>)

  /** `loops` holds the runtime-private loop counters, which nodes neither read nor write. */
  datatype State = State(data: Data, loops: map<Name, nat>)

  /** A human's reply to a paused node. */
  datatype Answer = Answer(approved: bool, input: string)

  /** What a leaf sees. A branch also sees the conversations of the chains around it. */
  datatype View = View(values: map<string, string>, histories: map<Name, History>)

  /** `values` is the whole new value map, `touched` the conversations that changed and `written` the
      keys written through set_state. */
  datatype LeafResult =
    | Finished(values: map<string, string>, touched: map<Name, History>, written: set<string>)
    | Broke(values: map<string, string>, touched: map<Name, History>, message: string)
    | Suspended(values: map<string, string>, touched: map<Name, History>, written: set<string>,
                reason: string, calls: seq<Call>)

  /** The user code of a graph: node bodies, loop conditions and routers. A loop without a condition
      has one that is always false. */
  datatype Env = Env(
    leaf: (Name, View, Option<Answer>) -> LeafResult,
    until: (Name, View) -> Result<bool>,
    route: (Name, View) -> Result<Name>)

  datatype Error =
    | NodeError(message: string)
    | UnknownNode
    | StepLimit
    | TooDeep
    | NestedPause
    | BranchFailed(branch: nat, error: Error)
    | KeyConflict(branch: nat)
    | HistoryConflict(branch: nat)

  datatype Interrupt = Interrupt(branch: Name, node: Name, reason: string, calls: seq<Call>)

  datatype Halt = Paused(pauses: seq<Interrupt>) | Failed(error: Error)

  function FindNode(nodes: seq<Node>, name: Name): (r: Option<Node>)
    ensures r.Some? ==> r.value in nodes && r.value.name == name
    ensures r.None? <==> forall n <- nodes :: n.name != name
  {
    if nodes == [] then None
    else if nodes[0].name == name then Some(nodes[0])
    else FindNode(nodes[1..], name)
  }

  function FindEdge(edges: seq<Edge>, from: Name): (r: Option<Edge>)
    ensures r.Some? ==> r.value in edges && r.value.from == from
    ensures r.None? <==> forall e <- edges :: e.from != from
  {
    if edges == [] then None
    else if edges[0].from == from then Some(edges[0])
    else FindEdge(edges[1..], from)
  }

  /** The first node of that name is found, wherever it stands. */
  lemma {:induction false} FindNodeAt(nodes: seq<Node>, i: nat)
    requires i < |nodes|
    requires forall j :: 0 <= j < |nodes| && nodes[j].name == nodes[i].name ==> j == i
    ensures FindNode(nodes, nodes[i].name) == Some(nodes[i])
  {
    if i > 0 {
      assert nodes[0].name != nodes[i].name;
      assert nodes[1..][i - 1] == nodes[i];
      FindNodeAt(nodes[1..], i - 1);
    }
  }

  /** Where a transition to END leads for a node with this exit. */
  function Target(exitTo: Name): Name {
    if exitTo != "" then exitTo else END
  }

  predicate Distinct(names: seq<Name>) {
    forall i, j :: 0 <= i < j < |names| ==> names[i] != names[j]
  }

  // ---- what the executor demands of a graph before it runs it ----

  predicate Known(g: Graph, name: Name) {
    FindNode(g.nodes, name).Some?
  }

  predicate ValidNode(g: Graph, n: Node) {
    && n.name != "" && n.name != END
    && (n.exitTo == "" || Known(g, n.exitTo))
    && match n.kind
       case Leaf => true
       case Parallel(branches) => branches != [] && forall b <- branches :: Known(g, b)
       case Loop(body, maxIterations) => Known(g, body) && maxIterations >= 1
  }

  predicate Valid(g: Graph) {
    && g.entry != "" && Known(g, g.entry)
    && Distinct(NodeNames(g.nodes))
    && (forall n <- g.nodes :: ValidNode(g, n))
    && (forall e <- g.edges :: Known(g, e.from) && (e.Static? ==> e.to == END || Known(g, e.to)))
    && (forall i, j :: 0 <= i < j < |g.edges| ==> g.edges[i].from != g.edges[j].from)
  }

  function NodeNames(nodes: seq<Node>): (names: seq<Name>)
    ensures |names| == |nodes|
  {
    seq(|nodes|, i requires 0 <= i < |nodes| => nodes[i].name)
  }

  /** In a valid graph the empty name is no node. */
  lemma EmptyUnknown(g: Graph)
    requires Valid(g)
    ensures !Known(g, "")
  {
    assert forall n <- g.nodes :: ValidNode(g, n);
  }

  /** Every name a valid node leads to is a name. */
  lemma TargetsNamed(g: Graph, node: Node)
    requires Valid(g) && node in g.nodes
    ensures node.kind.Parallel? ==> "" !in node.kind.branches
    ensures node.kind.Loop? ==> node.kind.body != ""
  {
    EmptyUnknown(g);
    assert ValidNode(g, node);
  }

  lemma EdgeNamed(g: Graph, from: Name)
    requires Valid(g)
    ensures var e := FindEdge(g.edges, from); e.Some? && e.value.Static? ==> e.value.to != ""
  {
    EmptyUnknown(g);
    var e := FindEdge(g.edges, from);
    if e.Some? { assert e.value in g.edges; }
  }
}
