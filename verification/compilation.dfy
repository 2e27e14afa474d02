/** The flat graph the builders produce behaves like the workflow it was built from. */
module Compilation {
  import opened Options
  import opened Graphs
  import opened Executor
  import opened Workflows
  import opened Builders

  ghost predicate Placed(g: Graph, nodes: seq<Node>) {
    forall n <- nodes :: FindNode(g.nodes, n.name) == Some(n) && FindEdge(g.edges, n.name).None?
  }

  lemma PlacedAt(g: Graph, nodes: seq<Node>, i: nat)
    requires Placed(g, nodes) && i < |nodes|
    ensures FindNode(g.nodes, nodes[i].name) == Some(nodes[i]) && FindEdge(g.edges, nodes[i].name).None?
  {
    assert nodes[i] in nodes;
  }

  predicate GoodNames(names: seq<Name>) {
    Distinct(names) && "" !in names && END !in names
  }

  /** Loop controllers of a workflow. */
  function LoopNames(w: Workflow): set<Name>
    decreases w, 0
  {
    match w
    case Task(_) => {}
    case Sequence(steps) => LoopNamesAll(steps)
    case FanOut(_, branches) => LoopNamesAll(branches)
    case Repeat(name, body, _) => {name} + LoopNames(body)
  }

  function LoopNamesAll(ws: seq<Workflow>): set<Name>
    decreases ws, 0
  {
    if ws == [] then {} else LoopNames(ws[0]) + LoopNamesAll(ws[1..])
  }

  function FlowOf(c: Chain): Flow {
    Flow(c.state.data, c.writes, c.trace, c.left, if c.halt.Some? then Some((c.cur, c.halt.value)) else None)
  }

  /** A stopped chain and a stopped workflow agree on everything but the loop counters. */
  ghost predicate Agrees(c: Chain, f: Flow) {
    FlowOf(c) == f
  }

  /** The chain that stands where a workflow ended. */
  function After(f: Flow, loops: map<Name, nat>, exit: Name): Chain {
    Chain(State(f.data, loops), f.writes, Target(exit), None, f.trace, f.left, None)
  }

  /** What running a placed workflow inside a larger graph amounts to: its own stop, or the rest of
      the graph from its exit, with these loop counters. */
  ghost predicate Simulates(g: Graph, env: Env, fuel: nat, ctx: Ctx, c: Chain, f: Flow, loops: map<Name, nat>,
                            exit: Name) {
    if f.halt.Some? then Agrees(Run(g, env, fuel, ctx, c), f)
    else Run(g, env, fuel, ctx, c) == Run(g, env, fuel, ctx, After(f, loops, exit))
  }

  /** The chain after one step, when that step was all of the workflow. */
  ghost predicate Lands(c1: Chain, f: Flow, loops: map<Name, nat>, exit: Name) {
    if f.halt.Some? then FlowOf(c1) == f else c1 == After(f, loops, exit)
  }

  lemma Landed(g: Graph, env: Env, fuel: nat, ctx: Ctx, c: Chain, f: Flow, loops: map<Name, nat>, exit: Name)
    requires Live(ctx, c) && Lands(Step(g, env, fuel, ctx, c), f, loops, exit)
    ensures Simulates(g, env, fuel, ctx, c, f, loops, exit)
  {
  }

  ghost predicate Ready(ctx: Ctx, names: seq<Name>, loops: set<Name>, c: Chain) {
    && c.halt.None? && c.answer.None?
    && loops !! c.state.loops.Keys
    && END !in names && "" !in names
    && (ctx.join.Some? ==> ctx.join.value !in names)
  }

  lemma {:induction false} EntryInNames(w: Workflow)
    requires Solid(w)
    ensures Entry(w) in Names(w)
    decreases w
  {
    match w
    case Task(_) =>
    case Sequence(steps) => EntryInNames(steps[0]);
    case FanOut(name, _) => assert name == Names(w)[0];
    case Repeat(name, _, _) => assert name == Names(w)[0];
  }

  lemma {:induction false} LoopNamesInNames(w: Workflow)
    ensures forall n <- LoopNames(w) :: n in Names(w)
    decreases w, 0
  {
    match w
    case Task(_) =>
    case Sequence(steps) => LoopNamesAllInNames(steps);
    case FanOut(name, branches) => LoopNamesAllInNames(branches);
    case Repeat(name, body, _) =>
      LoopNamesInNames(body);
      assert name == Names(w)[0];
  }

  lemma {:induction false} LoopNamesAllInNames(ws: seq<Workflow>)
    ensures forall n <- LoopNamesAll(ws) :: n in NamesAll(ws)
    decreases ws, 0
  {
    if ws != [] {
      LoopNamesInNames(ws[0]);
      LoopNamesAllInNames(ws[1..]);
    }
  }

  lemma DistinctParts(a: seq<Name>, b: seq<Name>)
    requires Distinct(a + b)
    ensures Distinct(a) && Distinct(b)
    ensures forall n <- a :: n !in b
  {
    assert forall i :: 0 <= i < |a| ==> (a + b)[i] == a[i];
    assert forall i :: 0 <= i < |b| ==> (a + b)[|a| + i] == b[i];
  }

  lemma {:induction false} Sim(g: Graph, env: Env, fuel: nat, ctx: Ctx, w: Workflow, exit: Name, c: Chain)
    requires Solid(w) && Distinct(Names(w)) && Depth(w) <= fuel
    requires Placed(g, Nodes(w, exit))
    requires Ready(ctx, Names(w), LoopNames(w), c) && c.cur == Entry(w)
    ensures Simulates(g, env, fuel, ctx, c, Eval(Budget(g), env, ctx, w, FlowOf(c)), c.state.loops, exit)
    decreases w, 1, 0
  {
    EntryInNames(w);
    match w
    case Task(name) =>
      PlacedAt(g, Nodes(w, exit), 0);
      TaskStep(g, env, fuel, ctx, name, exit, c);
      Landed(g, env, fuel, ctx, c, Eval(Budget(g), env, ctx, w, FlowOf(c)), c.state.loops, exit);
    case Sequence(steps) => SimSteps(g, env, fuel, ctx, steps, exit, c);
    case FanOut(name, branches) => SimFan(g, env, fuel, ctx, w, exit, c);
    case Repeat(name, body, maxIterations) => SimRepeat(g, env, fuel, ctx, w, exit, c);
  }

  lemma {:induction false} SimRepeat(g: Graph, env: Env, fuel: nat, ctx: Ctx, w: Workflow, exit: Name, c: Chain)
    requires w.Repeat? && Solid(w) && Distinct(Names(w)) && Depth(w) <= fuel
    requires Placed(g, Nodes(w, exit))
    requires Ready(ctx, Names(w), LoopNames(w), c) && c.cur == w.name
    ensures Simulates(g, env, fuel, ctx, c, Eval(Budget(g), env, ctx, w, FlowOf(c)), c.state.loops, exit)
    decreases w, 0, 0
  {
    hide Step, Run, EvalRounds;
    var node := Node(w.name, Loop(Entry(w.body), w.maxIterations), exit);
    HeadParts(g, node, Nodes(w.body, w.name), Names(w.body));
    RepeatUnfold(Budget(g), env, ctx, w, FlowOf(c));
    assert w.name == Names(w)[0];
    hide Eval, Nodes, Placed;
    if c.left > 0 {
      SimFirstRound(g, env, fuel, ctx, node, w.body, c);
    } else {
      LimitStep(g, env, fuel, ctx, c, exit);
    }
  }

  lemma {:induction false} SimFirstRound(g: Graph, env: Env, fuel: nat, ctx: Ctx, node: Node, body: Workflow, c: Chain)
    requires Solid(body) && Distinct(Names(body)) && Depth(body) <= fuel
    requires node.kind.Loop? && node.kind.body == Entry(body) && node.kind.maxIterations >= 1
    requires FindNode(g.nodes, node.name) == Some(node) && FindEdge(g.edges, node.name).None?
    requires Placed(g, Nodes(body, node.name)) && node.name !in Names(body) && c.left > 0
    requires Ready(ctx, [node.name] + Names(body), {node.name} + LoopNames(body), c) && c.cur == node.name
    ensures Simulates(g, env, fuel, ctx, c,
                      EvalRounds(Budget(g), env, ctx, node.name, body, node.kind.maxIterations,
                                 Visit(FlowOf(c), node.name)),
                      c.state.loops, node.exitTo)
    decreases body, 3, 0
  {
    hide Step, Run, EvalRounds, Placed, Solid;
    LoopNamesInNames(body);
    EntryInNames(body);
    assert node.name == ([node.name] + Names(body))[0];
    FirstVisit(g, env, fuel, ctx, node, c);
    SimRounds(g, env, fuel, ctx, node, body, 1, c.state.loops, Step(g, env, fuel, ctx, c));
  }

  lemma RepeatUnfold(budget: nat, env: Env, ctx: Ctx, w: Workflow, f: Flow)
    requires w.Repeat? && w.maxIterations >= 1 && f.halt.None?
    ensures Eval(budget, env, ctx, w, f) ==
            if f.left == 0 then Visit(f, w.name)
            else EvalRounds(budget, env, ctx, w.name, w.body, w.maxIterations, Visit(f, w.name))
  {
  }

  /** The controller of a composite workflow and what it holds. */
  lemma HeadParts(g: Graph, node: Node, nodes: seq<Node>, names: seq<Name>)
    requires Placed(g, [node] + nodes) && Distinct([node.name] + names)
    ensures FindNode(g.nodes, node.name) == Some(node) && FindEdge(g.edges, node.name).None?
    ensures Placed(g, nodes) && Distinct(names) && node.name !in names
  {
    PlacedAt(g, [node] + nodes, 0);
    DistinctParts([node.name], names);
    assert node.name == [node.name][0];
  }

  lemma LimitStep(g: Graph, env: Env, fuel: nat, ctx: Ctx, c: Chain, exit: Name)
    requires Live(ctx, c) && c.left == 0
    ensures Simulates(g, env, fuel, ctx, c, Visit(FlowOf(c), c.cur), c.state.loops, exit)
  {
    Landed(g, env, fuel, ctx, c, Visit(FlowOf(c), c.cur), c.state.loops, exit);
  }

  /** A controller that holds no count starts its first round. */
  lemma FirstVisit(g: Graph, env: Env, fuel: nat, ctx: Ctx, node: Node, c: Chain)
    requires node.kind.Loop? && node.kind.maxIterations >= 1 && node.kind.body != ""
    requires FindNode(g.nodes, node.name) == Some(node) && node.name !in c.state.loops
    requires Live(ctx, c) && c.answer.None? && c.left > 0 && c.cur == node.name
    ensures var c1 := Step(g, env, fuel, ctx, c);
            && c1 == c.(trace := c.trace + [node.name], left := c.left - 1, cur := node.kind.body,
                        state := c.state.(loops := c.state.loops[node.name := 1]))
            && Run(g, env, fuel, ctx, c) == Run(g, env, fuel, ctx, c1)
  {
    StepSimple(g, env, fuel, ctx, c, node);
    assert c.trace + [node.name] + [] == c.trace + [node.name];
    assert c.writes + {} == c.writes;
  }

  lemma TaskStep(g: Graph, env: Env, fuel: nat, ctx: Ctx, name: Name, exit: Name, c: Chain)
    requires FindNode(g.nodes, name) == Some(Node(name, Leaf, exit)) && FindEdge(g.edges, name).None?
    requires Live(ctx, c) && c.answer.None? && c.cur == name
    ensures Lands(Step(g, env, fuel, ctx, c), Eval(Budget(g), env, ctx, Task(name), FlowOf(c)), c.state.loops, exit)
  {
    hide Run, RunNode, RunLoop;
    if c.left > 0 {
      StepSimple(g, env, fuel, ctx, c, Node(name, Leaf, exit));
      assert c.trace + [name] + [] == c.trace + [name];
    }
  }

  lemma {:induction false} SimSteps(g: Graph, env: Env, fuel: nat, ctx: Ctx, steps: seq<Workflow>, exit: Name, c: Chain)
    requires SolidSteps(steps) && Distinct(NamesAll(steps)) && DepthAll(steps) <= fuel
    requires Placed(g, NodesSteps(steps, exit))
    requires Ready(ctx, NamesAll(steps), LoopNamesAll(steps), c) && c.cur == Entry(steps[0])
    ensures Simulates(g, env, fuel, ctx, c, EvalSteps(Budget(g), env, ctx, steps, FlowOf(c)), c.state.loops, exit)
    decreases steps, 0, 0
  {
    var next := StepExit(steps, exit);
    DistinctParts(Names(steps[0]), NamesAll(steps[1..]));
    assert Placed(g, Nodes(steps[0], next)) && Placed(g, NodesSteps(steps[1..], exit));
    Sim(g, env, fuel, ctx, steps[0], next, c);
    var f := Eval(Budget(g), env, ctx, steps[0], FlowOf(c));
    if NamesAll(steps[1..]) == [] {
      BlankSteps(Budget(g), env, ctx, steps[1..], f);
    } else if f.halt.Some? {
      HaltedSteps(Budget(g), env, ctx, steps[1..], f);
    } else {
      EntryInNames(steps[1]);
      assert Names(steps[1]) <= NamesAll(steps[1..]);
      SimSteps(g, env, fuel, ctx, steps[1..], exit, After(f, c.state.loops, next));
    }
  }

  /** A workflow without nodes does nothing and starts nowhere. */
  lemma {:induction false} Blank(budget: nat, env: Env, ctx: Ctx, w: Workflow, f: Flow)
    requires Names(w) == []
    ensures Eval(budget, env, ctx, w, f) == f && Entry(w) == ""
    decreases w, 0
  {
    if w.Sequence? {
      BlankSteps(budget, env, ctx, w.steps, f);
    }
  }

  lemma {:induction false} BlankSteps(budget: nat, env: Env, ctx: Ctx, ws: seq<Workflow>, f: Flow)
    requires NamesAll(ws) == []
    ensures EvalSteps(budget, env, ctx, ws, f) == f
    ensures ws != [] ==> Entry(ws[0]) == ""
    decreases ws, 0
  {
    if ws != [] {
      Blank(budget, env, ctx, ws[0], f);
      BlankSteps(budget, env, ctx, ws[1..], f);
    }
  }

  lemma {:induction false} HaltedSteps(budget: nat, env: Env, ctx: Ctx, ws: seq<Workflow>, f: Flow)
    requires f.halt.Some?
    ensures EvalSteps(budget, env, ctx, ws, f) == f
  {
    if ws != [] { HaltedSteps(budget, env, ctx, ws[1..], f); }
  }

  /** In round `k` the counter holds `k`; the body runs and the controller decides. */
  lemma {:induction false} SimRounds(g: Graph, env: Env, fuel: nat, ctx: Ctx, node: Node, body: Workflow, k: nat,
                                     loops: map<Name, nat>, c: Chain)
    requires Solid(body) && Distinct(Names(body)) && Depth(body) <= fuel && Entry(body) != ""
    requires node.kind.Loop? && node.kind.body == Entry(body)
    requires FindNode(g.nodes, node.name) == Some(node) && FindEdge(g.edges, node.name).None?
    requires Placed(g, Nodes(body, node.name))
    requires 1 <= k <= node.kind.maxIterations
    requires node.name != "" && !AtEnd(ctx, node.name)
    requires node.name !in loops && node.name !in LoopNames(body) && LoopNames(body) !! loops.Keys
    requires c.state.loops == loops[node.name := k]
    requires Ready(ctx, Names(body), LoopNames(body), c) && c.cur == Entry(body)
    ensures Simulates(g, env, fuel, ctx, c,
                      EvalRounds(Budget(g), env, ctx, node.name, body, node.kind.maxIterations - k + 1, FlowOf(c)),
                      loops, node.exitTo)
    decreases body, 2, node.kind.maxIterations - k
  {
    hide Step, Run, Eval, EvalRounds;
    Sim(g, env, fuel, ctx, body, node.name, c);
    RoundsUnfold(Budget(g), env, ctx, node, body, k, FlowOf(c));
    var f := Eval(Budget(g), env, ctx, body, FlowOf(c));
    if f.halt.None? {
      var c1 := After(f, c.state.loops, node.name);
      RoundEnds(g, env, fuel, ctx, node, loops, k, c1);
      if Again(env, node, k, f) {
        SimRounds(g, env, fuel, ctx, node, body, k + 1, loops, Step(g, env, fuel, ctx, c1));
      }
    }
  }

  lemma RoundsUnfold(budget: nat, env: Env, ctx: Ctx, node: Node, body: Workflow, k: nat, f0: Flow)
    requires node.kind.Loop? && 1 <= k <= node.kind.maxIterations
    ensures var f := Eval(budget, env, ctx, body, f0);
            EvalRounds(budget, env, ctx, node.name, body, node.kind.maxIterations - k + 1, f0) ==
            if f.halt.Some? then f
            else if Again(env, node, k, f) then
              EvalRounds(budget, env, ctx, node.name, body, node.kind.maxIterations - k,
                         f.(trace := f.trace + [node.name], left := f.left - 1))
            else LastVisit(env, node, k, f)
  {
  }

  /** Whether the controller starts another round after round `k` left `f`. */
  ghost predicate Again(env: Env, node: Node, k: nat, f: Flow)
    requires node.kind.Loop?
  {
    f.left > 0 && k < node.kind.maxIterations && env.until(node.name, View(f.data.values, f.data.histories)) ==
      Ok(false)
  }

  /** What `EvalRounds` makes of `f` when no round follows round `k`. */
  ghost function LastVisit(env: Env, node: Node, k: nat, f: Flow): Flow
    requires node.kind.Loop?
  {
    var f1 := Visit(f, node.name);
    if f1.halt.Some? || k == node.kind.maxIterations then f1
    else match env.until(node.name, View(f1.data.values, f1.data.histories))
      case Ok(_) => f1
      case Err(message) => f1.(halt := Some((node.name, Failed(NodeError(message)))))
  }

  lemma RunUnfold(g: Graph, env: Env, fuel: nat, ctx: Ctx, c: Chain)
    requires Live(ctx, c)
    ensures var c1 := Step(g, env, fuel, ctx, c);
            && Run(g, env, fuel, ctx, c) == Run(g, env, fuel, ctx, c1)
            && (c1.halt.Some? ==> Run(g, env, fuel, ctx, c1) == c1)
  {
    hide Step;
  }

  /** The end of round `k`: another round, or what the structured loop ends with. */
  lemma RoundEnds(g: Graph, env: Env, fuel: nat, ctx: Ctx, node: Node, loops: map<Name, nat>, k: nat, c: Chain)
    requires node.kind.Loop? && FindNode(g.nodes, node.name) == Some(node) && FindEdge(g.edges, node.name).None?
    requires 1 <= k <= node.kind.maxIterations && node.kind.body != "" && node.name !in loops
    requires Live(ctx, c) && c.cur == node.name && c.answer.None? && c.state.loops == loops[node.name := k]
    ensures Again(env, node, k, FlowOf(c)) ==>
      var c1 := Step(g, env, fuel, ctx, c);
      && c1 == c.(trace := c.trace + [node.name], left := c.left - 1, cur := node.kind.body,
                  state := c.state.(loops := loops[node.name := k + 1]))
      && Run(g, env, fuel, ctx, c) == Run(g, env, fuel, ctx, c1)
    ensures !Again(env, node, k, FlowOf(c)) ==>
      Simulates(g, env, fuel, ctx, c, LastVisit(env, node, k, FlowOf(c)), loops, node.exitTo)
  {
    hide Step, Run;
    RunUnfold(g, env, fuel, ctx, c);
    if c.left > 0 {
      RoundDecision(g, env, fuel, ctx, node, loops, k, c);
    } else {
      LimitStep(g, env, fuel, ctx, c, node.exitTo);
    }
  }

  /** The controller's visit after round `k`. */
  lemma RoundDecision(g: Graph, env: Env, fuel: nat, ctx: Ctx, node: Node, loops: map<Name, nat>, k: nat, c: Chain)
    requires node.kind.Loop? && FindNode(g.nodes, node.name) == Some(node) && FindEdge(g.edges, node.name).None?
    requires 1 <= k <= node.kind.maxIterations && node.kind.body != "" && node.name !in loops
    requires Live(ctx, c) && c.cur == node.name && c.left > 0 && c.answer.None?
    requires c.state.loops == loops[node.name := k]
    ensures var c1 := Step(g, env, fuel, ctx, c);
            var at := c.(trace := c.trace + [node.name], left := c.left - 1);
            var leave := at.(state := c.state.(loops := loops), cur := Target(node.exitTo));
            if k == node.kind.maxIterations then c1 == leave
            else match env.until(node.name, View(c.state.data.values, c.state.data.histories))
              case Ok(true) => c1 == leave
              case Ok(false) => c1 == at.(state := c.state.(loops := loops[node.name := k + 1]), cur := node.kind.body)
              case Err(m) =>
                && c1.state.data == c.state.data
                && c1.(state := c.state) == at.(halt := Some(Failed(NodeError(m))))
  {
    StepSimple(g, env, fuel, ctx, c, node);
    assert c.trace + [node.name] + [] == c.trace + [node.name];
    assert c.writes + {} == c.writes;
    assert c.state.loops - {node.name} == loops;
    assert c.state.loops[node.name := k + 1] == loops[node.name := k + 1];
  }

  lemma {:induction false} SimFan(g: Graph, env: Env, fuel: nat, ctx: Ctx, w: Workflow, exit: Name, c: Chain)
    requires w.FanOut? && Solid(w) && Distinct(Names(w)) && Depth(w) <= fuel
    requires Placed(g, Nodes(w, exit))
    requires Ready(ctx, Names(w), LoopNames(w), c) && c.cur == w.name
    ensures Simulates(g, env, fuel, ctx, c, Eval(Budget(g), env, ctx, w, FlowOf(c)), c.state.loops, exit)
    decreases w, 0, 0
  {
    hide Step, Run, EvalBranches, AfterJoin, CloseFan;
    var node := Node(w.name, Parallel(Entries(w.branches)), exit);
    HeadParts(g, node, NodesBack(w.branches, w.name), NamesAll(w.branches));
    assert w.name == Names(w)[0];
    if c.left > 0 {
      SimFanTurn(g, env, fuel, ctx, node, w.branches, c);
    } else {
      LimitStep(g, env, fuel, ctx, c, exit);
    }
  }

  lemma {:induction false} SimFanTurn(g: Graph, env: Env, fuel: nat, ctx: Ctx, node: Node, ws: seq<Workflow>,
                                      c: Chain)
    requires SolidAll(ws) && Distinct(NamesAll(ws)) && 1 + DepthAll(ws) <= fuel
    requires node.kind == Parallel(Entries(ws)) && node.name != "" && node.name !in NamesAll(ws)
    requires FindNode(g.nodes, node.name) == Some(node) && FindEdge(g.edges, node.name).None?
    requires Placed(g, NodesBack(ws, node.name)) && END !in NamesAll(ws) && "" !in NamesAll(ws)
    requires LoopNamesAll(ws) !! c.state.loops.Keys
    requires Live(ctx, c) && c.left > 0 && c.answer.None? && c.cur == node.name
    ensures var fs := EvalBranches(Budget(g), env, InBranch(ctx, c.state.data, node.name), ws, c.state.data);
            var f := AfterJoin(Visit(FlowOf(c), node.name), node.name, Entries(ws), FlowEnds(fs));
            Simulates(g, env, fuel, ctx, c, f, c.state.loops, node.exitTo)
    decreases ws, 1, 0
  {
    hide Step, Run, EvalBranches, AfterJoin, Placed;
    var bctx := BranchCtx(ctx, c.state, node.name);
    SimBranches(g, env, fuel - 1, bctx, node.name, ws, c.state, BranchStarts(g, c.state, Entries(ws)));
    var es := FlowEnds(EvalBranches(Budget(g), env, bctx, ws, c.state.data));
    SameEnds(g, env, fuel - 1, bctx, ws, c.state);
    FanStep(g, env, fuel, ctx, c, node, es);
    Landed(g, env, fuel, ctx, c, AfterJoin(Visit(FlowOf(c), node.name), node.name, Entries(ws), es), c.state.loops,
           node.exitTo);
  }

  lemma SameEnds(g: Graph, env: Env, fuel: nat, bctx: Ctx, ws: seq<Workflow>, parent: State)
    requires forall i :: 0 <= i < |ws| ==>
      EndOf(Run(g, env, fuel, bctx, BranchStarts(g, parent, Entries(ws))[i])) ==
      FlowEnd(Eval(Budget(g), env, bctx, ws[i], BranchFlow(Budget(g), parent.data)))
    ensures Ends(RunAll(g, env, fuel, bctx, BranchStarts(g, parent, Entries(ws)))) ==
            FlowEnds(EvalBranches(Budget(g), env, bctx, ws, parent.data))
  {
    hide Run, Eval;
  }

  lemma FanStep(g: Graph, env: Env, fuel: nat, ctx: Ctx, c: Chain, node: Node, es: seq<End>)
    requires FindNode(g.nodes, node.name) == Some(node) && FindEdge(g.edges, node.name).None? && node.kind.Parallel?
    requires Live(ctx, c) && c.left > 0 && c.answer.None? && c.cur == node.name && fuel > 0
    requires es == Ends(RunAll(g, env, fuel - 1, BranchCtx(ctx, c.state, node.name),
                               BranchStarts(g, c.state, node.kind.branches)))
    ensures Lands(Step(g, env, fuel, ctx, c),
                  AfterJoin(Visit(FlowOf(c), node.name), node.name, node.kind.branches, es), c.state.loops, node.exitTo)
  {
    StepFan(g, env, fuel, ctx, c, node);
    assert c.writes + {} == c.writes;
  }

  /** Every branch ends as its workflow does; reaching the Parallel node again ends it. */
  lemma {:induction false} SimBranches(g: Graph, env: Env, fuel: nat, bctx: Ctx, join: Name, ws: seq<Workflow>,
                                       parent: State, starts: seq<Chain>)
    requires SolidAll(ws) && Distinct(NamesAll(ws)) && DepthAll(ws) <= fuel
    requires Placed(g, NodesBack(ws, join)) && bctx.join == Some(join) && join != "" && join !in NamesAll(ws)
    requires END !in NamesAll(ws) && "" !in NamesAll(ws) && LoopNamesAll(ws) !! parent.loops.Keys
    requires starts == BranchStarts(g, parent, Entries(ws))
    ensures forall i :: 0 <= i < |ws| ==>
      EndOf(Run(g, env, fuel, bctx, starts[i])) ==
      FlowEnd(Eval(Budget(g), env, bctx, ws[i], BranchFlow(Budget(g), parent.data)))
    decreases ws, 0, 0
  {
    hide Step, Eval;
    if ws != [] {
      DistinctParts(Names(ws[0]), NamesAll(ws[1..]));
      assert Placed(g, Nodes(ws[0], join)) && Placed(g, NodesBack(ws[1..], join));
      assert FlowOf(starts[0]) == BranchFlow(Budget(g), parent.data);
      Sim(g, env, fuel, bctx, ws[0], join, starts[0]);
      assert starts[1..] == BranchStarts(g, parent, Entries(ws[1..]));
      SimBranches(g, env, fuel, bctx, join, ws[1..], parent, starts[1..]);
      forall i | 0 <= i < |ws|
        ensures EndOf(Run(g, env, fuel, bctx, starts[i])) ==
                FlowEnd(Eval(Budget(g), env, bctx, ws[i], BranchFlow(Budget(g), parent.data)))
      {
        if i > 0 {
          assert ws[i] == ws[1..][i - 1] && starts[i] == starts[1..][i - 1];
        }
      }
    }
  }
}
