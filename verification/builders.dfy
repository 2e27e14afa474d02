/** The builders that compile a workflow to a flat graph by pointing exits at the next step. */
module Builders {
  import opened Graphs
  import opened Workflows

  const DEFAULT_MAX_STEPS := 1000

  // ---- what the builders compute ----

  /** `nodes` with every free exit pointed at `target`. */
  function Chained(nodes: seq<Node>, target: Name): (r: seq<Node>)
    ensures |r| == |nodes|
    ensures forall i :: 0 <= i < |nodes| ==>
      r[i] == if nodes[i].exitTo == "" then nodes[i].(exitTo := target) else nodes[i]
  {
    seq(|nodes|, i requires 0 <= i < |nodes| =>
      if nodes[i].exitTo == "" then nodes[i].(exitTo := target) else nodes[i])
  }

  /** The nodes of consecutive steps, each step's free exits pointed at the entry of the next one. */
  function StepNodes(steps: seq<Graph>): seq<Node> {
    if steps == [] then []
    else Chained(steps[0].nodes, if |steps| > 1 then steps[1].entry else "") + StepNodes(steps[1..])
  }

  /** The nodes of sub-graphs that all return to `name`. */
  function ReturningNodes(graphs: seq<Graph>, name: Name): seq<Node> {
    if graphs == [] then [] else Chained(graphs[0].nodes, name) + ReturningNodes(graphs[1..], name)
  }

  function AllEdges(graphs: seq<Graph>): seq<Edge> {
    if graphs == [] then [] else graphs[0].edges + AllEdges(graphs[1..])
  }

  function Max(a: int, b: int): int { if a < b then b else a }

  function MostSteps(start: int, graphs: seq<Graph>): (m: int)
    ensures m >= start
    ensures forall i :: 0 <= i < |graphs| ==> m >= graphs[i].maxSteps
    decreases graphs
  {
    if graphs == [] then start else
    var m := MostSteps(Max(start, graphs[0].maxSteps), graphs[1..]);
    assert forall i :: 0 < i < |graphs| ==> graphs[i] == graphs[1..][i - 1];
    m
  }

  function GraphEntries(graphs: seq<Graph>): (es: seq<Name>)
    ensures |es| == |graphs|
  {
    seq(|graphs|, i requires 0 <= i < |graphs| => graphs[i].entry)
  }

  // ---- the builders ----

  method ChainExits(g: Graph, target: Name) returns (r: Graph)
    ensures r == g.(nodes := Chained(g.nodes, target))
  {
    var nodes := g.nodes;
    for i := 0 to |nodes|
      invariant |nodes| == |g.nodes|
      invariant forall k :: 0 <= k < i ==> nodes[k] == Chained(g.nodes, target)[k]
      invariant forall k :: i <= k < |nodes| ==> nodes[k] == g.nodes[k]
    {
      if nodes[i].exitTo == "" {
        nodes := nodes[i := nodes[i].(exitTo := target)];
      }
    }
    assert nodes == Chained(g.nodes, target);
    r := g.(nodes := nodes);
  }

  method Append(dst: Graph, src: Graph) returns (r: Graph)
    ensures r == Graph(dst.entry, dst.nodes + src.nodes, dst.edges + src.edges, Max(dst.maxSteps, src.maxSteps))
  {
    r := dst;
    for i := 0 to |src.nodes|
      invariant r == dst.(nodes := dst.nodes + src.nodes[..i])
    {
      r := r.(nodes := r.nodes + [src.nodes[i]]);
      assert src.nodes[..i + 1] == src.nodes[..i] + [src.nodes[i]];
    }
    assert src.nodes[..|src.nodes|] == src.nodes;
    for i := 0 to |src.edges|
      invariant r == dst.(nodes := dst.nodes + src.nodes, edges := dst.edges + src.edges[..i])
    {
      r := r.(edges := r.edges + [src.edges[i]]);
      assert src.edges[..i + 1] == src.edges[..i] + [src.edges[i]];
    }
    assert src.edges[..|src.edges|] == src.edges;
    r := r.(maxSteps := Max(r.maxSteps, src.maxSteps));
  }

  function MakeGraph(node: Node): Graph {
    Graph(node.name, [node], [], DEFAULT_MAX_STEPS)
  }

  function Sequential(steps: seq<Graph>): Graph {
    Graph(if steps == [] then "" else steps[0].entry, StepNodes(steps), AllEdges(steps),
          MostSteps(DEFAULT_MAX_STEPS, steps))
  }

  method MakeSequential(steps: seq<Graph>) returns (g: Graph)
    ensures g == Sequential(steps)
  {
    g := Graph("", [], [], DEFAULT_MAX_STEPS);
    if steps == [] { return; }
    g := g.(entry := steps[0].entry);
    for i := 0 to |steps|
      invariant g.entry == steps[0].entry
      invariant g.nodes + StepNodes(steps[i..]) == StepNodes(steps)
      invariant g.edges + AllEdges(steps[i..]) == AllEdges(steps)
      invariant MostSteps(g.maxSteps, steps[i..]) == MostSteps(DEFAULT_MAX_STEPS, steps)
    {
      var step := steps[i];
      assert steps[i..][1..] == steps[i + 1..];
      if i + 1 < |steps| {
        step := ChainExits(step, steps[i + 1].entry);
      } else {
        assert Chained(step.nodes, "") == step.nodes;
      }
      ghost var nodes, edges := StepNodes(steps[i + 1..]), AllEdges(steps[i + 1..]);
      assert StepNodes(steps[i..]) == step.nodes + nodes;
      assert (g.nodes + step.nodes) + nodes == g.nodes + (step.nodes + nodes);
      assert (g.edges + step.edges) + edges == g.edges + (step.edges + edges);
      g := Append(g, step);
    }
    assert steps[|steps|..] == [];
  }

  function FannedOut(name: Name, branches: seq<Graph>): Graph {
    Graph(name, [Node(name, Parallel(GraphEntries(branches)), "")] + ReturningNodes(branches, name),
          AllEdges(branches), MostSteps(DEFAULT_MAX_STEPS, branches))
  }

  method MakeParallel(name: Name, branches: seq<Graph>) returns (g: Graph)
    ensures g == FannedOut(name, branches)
  {
    var entries := [];
    for i := 0 to |branches|
      invariant entries == GraphEntries(branches)[..i]
    {
      entries := entries + [branches[i].entry];
    }
    assert entries == GraphEntries(branches);
    var fan := Node(name, Parallel(entries), "");
    g := AppendReturning(Graph(name, [fan], [], DEFAULT_MAX_STEPS), name, branches);
  }

  /** Adds every branch, returning to the Parallel node when it ends. */
  method AppendReturning(fan: Graph, name: Name, branches: seq<Graph>) returns (g: Graph)
    ensures g == Graph(fan.entry, fan.nodes + ReturningNodes(branches, name), fan.edges + AllEdges(branches),
                       MostSteps(fan.maxSteps, branches))
  {
    g := fan;
    for i := 0 to |branches|
      invariant g.entry == fan.entry
      invariant g.nodes + ReturningNodes(branches[i..], name) == fan.nodes + ReturningNodes(branches, name)
      invariant g.edges + AllEdges(branches[i..]) == fan.edges + AllEdges(branches)
      invariant MostSteps(g.maxSteps, branches[i..]) == MostSteps(fan.maxSteps, branches)
    {
      var b := ChainExits(branches[i], name);
      assert branches[i..][1..] == branches[i + 1..];
      ghost var nodes, edges := ReturningNodes(branches[i + 1..], name), AllEdges(branches[i + 1..]);
      assert (g.nodes + b.nodes) + nodes == g.nodes + (b.nodes + nodes);
      assert (g.edges + b.edges) + edges == g.edges + (b.edges + edges);
      g := Append(g, b);
    }
    assert branches[|branches|..] == [];
  }

  function Looped(name: Name, body: Graph, maxIterations: int): Graph {
    Graph(name, [Node(name, Loop(body.entry, maxIterations), "")] + Chained(body.nodes, name), body.edges,
          Max(DEFAULT_MAX_STEPS, body.maxSteps))
  }

  method MakeLoop(name: Name, body: Graph, maxIterations: int) returns (g: Graph)
    ensures g == Looped(name, body, maxIterations)
  {
    g := Graph(name, [Node(name, Loop(body.entry, maxIterations), "")], [], DEFAULT_MAX_STEPS);
    var b := ChainExits(body, name);
    g := Append(g, b);
    assert [] + b.edges == b.edges;
  }

  // ---- compiling a workflow ----

  function Build(w: Workflow): (g: Graph)
    ensures g.entry == Entry(w)
    decreases w, 0
  {
    match w
    case Task(name) => MakeGraph(Node(name, Leaf, ""))
    case Sequence(steps) => Sequential(BuildAll(steps))
    case FanOut(name, branches) => FannedOut(name, BuildAll(branches))
    case Repeat(name, body, maxIterations) => Looped(name, Build(body), maxIterations)
  }

  function BuildAll(ws: seq<Workflow>): (gs: seq<Graph>)
    ensures |gs| == |ws|
    ensures forall i :: 0 <= i < |ws| ==> gs[i].entry == Entry(ws[i])
    decreases ws, 0
  {
    if ws == [] then [] else [Build(ws[0])] + BuildAll(ws[1..])
  }

  /** Calls the builders bottom up. */
  method Compile(w: Workflow) returns (g: Graph)
    ensures g == Build(w)
    decreases w, 0
  {
    match w
    case Task(name) => g := MakeGraph(Node(name, Leaf, ""));
    case Sequence(steps) =>
      var gs := CompileAll(steps);
      g := MakeSequential(gs);
    case FanOut(name, branches) =>
      var gs := CompileAll(branches);
      g := MakeParallel(name, gs);
    case Repeat(name, body, maxIterations) =>
      var b := Compile(body);
      g := MakeLoop(name, b, maxIterations);
  }

  method CompileAll(ws: seq<Workflow>) returns (gs: seq<Graph>)
    ensures gs == BuildAll(ws)
    decreases ws, 0
  {
    if ws == [] {
      gs := [];
    } else {
      var first := Compile(ws[0]);
      var rest := CompileAll(ws[1..]);
      gs := [first] + rest;
    }
  }

  // ---- where every node of a workflow exits to ----

  function StepExit(steps: seq<Workflow>, exit: Name): Name
    requires steps != []
  {
    if |steps| == 1 || Entry(steps[1]) == "" then exit else Entry(steps[1])
  }

  /** The nodes of `w` when its end leads to `exit`. */
  function Nodes(w: Workflow, exit: Name): seq<Node>
    decreases w, 0
  {
    match w
    case Task(name) => [Node(name, Leaf, exit)]
    case Sequence(steps) => NodesSteps(steps, exit)
    case FanOut(name, branches) => [Node(name, Parallel(Entries(branches)), exit)] + NodesBack(branches, name)
    case Repeat(name, body, maxIterations) => [Node(name, Loop(Entry(body), maxIterations), exit)] + Nodes(body, name)
  }

  function NodesSteps(steps: seq<Workflow>, exit: Name): seq<Node>
    decreases steps, 0
  {
    if steps == [] then [] else Nodes(steps[0], StepExit(steps, exit)) + NodesSteps(steps[1..], exit)
  }

  function NodesBack(ws: seq<Workflow>, name: Name): seq<Node>
    decreases ws, 0
  {
    if ws == [] then [] else Nodes(ws[0], name) + NodesBack(ws[1..], name)
  }

  lemma ChainedConcat(a: seq<Node>, b: seq<Node>, target: Name)
    ensures Chained(a + b, target) == Chained(a, target) + Chained(b, target)
  {
  }

  /** Chaining fills exactly the exits that were still free. */
  lemma {:induction false} ChainedNodes(w: Workflow, exit: Name, target: Name)
    requires "" !in Names(w)
    ensures Chained(Nodes(w, exit), target) == Nodes(w, if exit == "" then target else exit)
    decreases w, 0
  {
    match w
    case Task(_) =>
    case Sequence(steps) => ChainedSteps(steps, exit, target);
    case FanOut(name, branches) =>
      ChainedBack(branches, name, target);
      assert name == Names(w)[0];
      ChainedConcat([Node(name, Parallel(Entries(branches)), exit)], NodesBack(branches, name), target);
    case Repeat(name, body, maxIterations) =>
      ChainedNodes(body, name, target);
      assert name == Names(w)[0];
      ChainedConcat([Node(name, Loop(Entry(body), maxIterations), exit)], Nodes(body, name), target);
  }

  lemma {:induction false} ChainedSteps(steps: seq<Workflow>, exit: Name, target: Name)
    requires "" !in NamesAll(steps)
    ensures Chained(NodesSteps(steps, exit), target) == NodesSteps(steps, if exit == "" then target else exit)
    decreases steps, 0
  {
    if steps != [] {
      ChainedNodes(steps[0], StepExit(steps, exit), target);
      ChainedSteps(steps[1..], exit, target);
      ChainedConcat(Nodes(steps[0], StepExit(steps, exit)), NodesSteps(steps[1..], exit), target);
    }
  }

  lemma {:induction false} ChainedBack(ws: seq<Workflow>, name: Name, target: Name)
    requires "" !in NamesAll(ws) && name != ""
    ensures Chained(NodesBack(ws, name), target) == NodesBack(ws, name)
    decreases ws, 0
  {
    if ws != [] {
      ChainedNodes(ws[0], name, target);
      ChainedBack(ws[1..], name, target);
      ChainedConcat(Nodes(ws[0], name), NodesBack(ws[1..], name), target);
    }
  }

  /** The builders give every node the exit its place in the workflow calls for. */
  lemma {:induction false} BuildNodes(w: Workflow)
    requires "" !in Names(w)
    ensures Build(w).entry == Entry(w) && Build(w).nodes == Nodes(w, "") && Build(w).edges == []
    decreases w, 0
  {
    match w
    case Task(_) =>
    case Sequence(steps) => BuildSteps(steps);
    case FanOut(name, branches) =>
      assert name == Names(w)[0];
      BuildBack(branches, name);
      assert GraphEntries(BuildAll(branches)) == Entries(branches);
    case Repeat(name, body, _) =>
      BuildNodes(body);
      ChainedNodes(body, "", name);
  }

  lemma {:induction false} BuildSteps(steps: seq<Workflow>)
    requires "" !in NamesAll(steps)
    ensures StepNodes(BuildAll(steps)) == NodesSteps(steps, "") && AllEdges(BuildAll(steps)) == []
    decreases steps, 0
  {
    if steps != [] {
      BuildNodes(steps[0]);
      BuildSteps(steps[1..]);
      var gs := BuildAll(steps);
      var next := if |gs| > 1 then gs[1].entry else "";
      assert gs[1..] == BuildAll(steps[1..]);
      ChainedNodes(steps[0], "", next);
      assert Nodes(steps[0], next) == Nodes(steps[0], StepExit(steps, ""));
    }
  }

  lemma {:induction false} BuildBack(ws: seq<Workflow>, name: Name)
    requires "" !in NamesAll(ws) && name != ""
    ensures ReturningNodes(BuildAll(ws), name) == NodesBack(ws, name) && AllEdges(BuildAll(ws)) == []
    decreases ws, 0
  {
    if ws != [] {
      BuildNodes(ws[0]);
      BuildBack(ws[1..], name);
      assert BuildAll(ws)[1..] == BuildAll(ws[1..]);
      ChainedNodes(ws[0], "", name);
    }
  }
}
