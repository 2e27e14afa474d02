/** Exactly which workflows compile to a graph that behaves like them. */
module CompilerTheorem {
  import opened Options
  import opened Graphs
  import opened Executor
  import opened Workflows
  import opened Builders
  import opened Compilation

  /** The flat run visits the same nodes in the same order as the workflow and ends alike. */
  ghost predicate SameRun(w: Workflow, maxSteps: int, env: Env, fuel: nat, data: Data) {
    var g := Build(w).(maxSteps := maxSteps);
    var c := Run(g, env, fuel, TOP, Start(g, data));
    && FlowOf(c) == Eval(Budget(g), env, TOP, w, Flow(data, {}, [], Budget(g), None))
    && (c.halt.None? ==> c.cur == END)
  }

  // ---- names and shape ----

  lemma {:induction false} NodesNames(w: Workflow, exit: Name)
    ensures NodeNames(Nodes(w, exit)) == Names(w)
    decreases w, 0
  {
    match w
    case Task(_) =>
    case Sequence(steps) => NodesStepsNames(steps, exit);
    case FanOut(name, branches) => NodesBackNames(branches, name);
    case Repeat(name, body, _) => NodesNames(body, name);
  }

  lemma {:induction false} NodesStepsNames(steps: seq<Workflow>, exit: Name)
    ensures NodeNames(NodesSteps(steps, exit)) == NamesAll(steps)
    decreases steps, 0
  {
    if steps != [] {
      NodesNames(steps[0], StepExit(steps, exit));
      NodesStepsNames(steps[1..], exit);
    }
  }

  lemma {:induction false} NodesBackNames(ws: seq<Workflow>, name: Name)
    ensures NodeNames(NodesBack(ws, name)) == NamesAll(ws)
    decreases ws, 0
  {
    if ws != [] {
      NodesNames(ws[0], name);
      NodesBackNames(ws[1..], name);
    }
  }

  lemma ChainedNames(nodes: seq<Node>, target: Name)
    ensures NodeNames(Chained(nodes, target)) == NodeNames(nodes)
  {
  }

  lemma NamesPlus(a: seq<Node>, b: seq<Node>)
    ensures NodeNames(a + b) == NodeNames(a) + NodeNames(b)
  {
  }

  lemma {:induction false} BuildNames(w: Workflow)
    ensures NodeNames(Build(w).nodes) == Names(w)
    decreases w, 0
  {
    hide NodeNames, Chained, StepNodes, ReturningNodes, AllEdges, MostSteps;
    match w
    case Task(name) => OneName(Node(name, Leaf, ""));
    case Sequence(steps) => BuildStepsNames(steps);
    case FanOut(name, branches) =>
      var fan := Node(name, Parallel(GraphEntries(BuildAll(branches))), "");
      BuildBackNames(branches, name);
      OneName(fan);
      NamesPlus([fan], ReturningNodes(BuildAll(branches), name));
    case Repeat(name, body, maxIterations) =>
      var controller := Node(name, Loop(Build(body).entry, maxIterations), "");
      BuildNames(body);
      OneName(controller);
      ChainedNames(Build(body).nodes, name);
      NamesPlus([controller], Chained(Build(body).nodes, name));
  }

  lemma OneName(node: Node)
    ensures NodeNames([node]) == [node.name]
  {
  }

  lemma {:induction false} BuildStepsNames(steps: seq<Workflow>)
    ensures NodeNames(StepNodes(BuildAll(steps))) == NamesAll(steps)
    decreases steps, 0
  {
    if steps != [] {
      hide NodeNames, Chained, Build;
      var gs := BuildAll(steps);
      assert gs[1..] == BuildAll(steps[1..]);
      var next := if |gs| > 1 then gs[1].entry else "";
      BuildNames(steps[0]);
      BuildStepsNames(steps[1..]);
      ChainedNames(gs[0].nodes, next);
      NamesPlus(Chained(gs[0].nodes, next), StepNodes(gs[1..]));
    }
  }

  lemma {:induction false} BuildBackNames(ws: seq<Workflow>, name: Name)
    ensures NodeNames(ReturningNodes(BuildAll(ws), name)) == NamesAll(ws)
    decreases ws, 0
  {
    if ws != [] {
      hide NodeNames, Chained, Build;
      var gs := BuildAll(ws);
      assert gs[1..] == BuildAll(ws[1..]);
      BuildNames(ws[0]);
      BuildBackNames(ws[1..], name);
      ChainedNames(gs[0].nodes, name);
      NamesPlus(Chained(gs[0].nodes, name), ReturningNodes(gs[1..], name));
    }
  }

  /** What validation leaves of a workflow: every branch and every loop body starts somewhere. */
  predicate Shaped(w: Workflow)
    decreases w, 0
  {
    match w
    case Task(_) => true
    case Sequence(steps) => ShapedAll(steps)
    case FanOut(_, branches) => branches != [] && ShapedAll(branches) && forall b <- branches :: Entry(b) != ""
    case Repeat(_, body, maxIterations) => maxIterations >= 1 && Shaped(body) && Entry(body) != ""
  }

  predicate ShapedAll(ws: seq<Workflow>)
    decreases ws, 0
  {
    ws != [] ==> Shaped(ws[0]) && ShapedAll(ws[1..])
  }

  /** Kinds alone say whether a workflow is shaped. */
  ghost predicate GoodKinds(nodes: seq<Node>) {
    forall n <- nodes ::
      match n.kind
      case Leaf => true
      case Parallel(branches) => branches != [] && "" !in branches
      case Loop(body, maxIterations) => body != "" && maxIterations >= 1
  }

  lemma {:induction false} KindsShape(w: Workflow, exit: Name)
    requires GoodKinds(Nodes(w, exit))
    ensures Shaped(w)
    decreases w, 0
  {
    match w
    case Task(_) =>
    case Sequence(steps) => KindsShapeSteps(steps, exit);
    case FanOut(name, branches) =>
      var node := Node(name, Parallel(Entries(branches)), exit);
      assert node == Nodes(w, exit)[0];
      forall b | b in branches ensures Entry(b) != "" {
        var i :| 0 <= i < |branches| && branches[i] == b;
        assert Entries(branches)[i] == Entry(b);
      }
      KindsShapeBack(branches, name);
    case Repeat(name, body, maxIterations) =>
      assert Node(name, Loop(Entry(body), maxIterations), exit) == Nodes(w, exit)[0];
      KindsShape(body, name);
  }

  lemma {:induction false} KindsShapeSteps(steps: seq<Workflow>, exit: Name)
    requires GoodKinds(NodesSteps(steps, exit))
    ensures ShapedAll(steps)
    decreases steps, 0
  {
    if steps != [] {
      KindsShape(steps[0], StepExit(steps, exit));
      KindsShapeSteps(steps[1..], exit);
    }
  }

  lemma {:induction false} KindsShapeBack(ws: seq<Workflow>, name: Name)
    requires GoodKinds(NodesBack(ws, name))
    ensures ShapedAll(ws)
    decreases ws, 0
  {
    if ws != [] {
      KindsShape(ws[0], name);
      KindsShapeBack(ws[1..], name);
    }
  }

  lemma FoundByName(nodes: seq<Node>)
    requires Distinct(NodeNames(nodes))
    ensures forall n <- nodes :: FindNode(nodes, n.name) == Some(n)
  {
    forall n | n in nodes ensures FindNode(nodes, n.name) == Some(n) {
      var i :| 0 <= i < |nodes| && nodes[i] == n;
      assert forall j :: 0 <= j < |nodes| ==> NodeNames(nodes)[j] == nodes[j].name;
      FindNodeAt(nodes, i);
    }
  }

  lemma ValidNames(g: Graph)
    requires Valid(g)
    ensures "" !in NodeNames(g.nodes) && END !in NodeNames(g.nodes) && GoodKinds(g.nodes)
  {
    forall i | 0 <= i < |g.nodes|
      ensures NodeNames(g.nodes)[i] != "" && NodeNames(g.nodes)[i] != END
    {
      assert ValidNode(g, g.nodes[i]);
    }
    assert FindNode(g.nodes, "").None?;
    forall n | n in g.nodes
      ensures n.kind.Parallel? ==> "" !in n.kind.branches
      ensures n.kind.Loop? ==> n.kind.body != ""
    {
      assert ValidNode(g, n);
    }
  }

  /** What a valid compiled graph says about its workflow. */
  lemma ValidFacts(w: Workflow)
    requires Valid(Build(w))
    ensures GoodNames(Names(w)) && Shaped(w) && Entry(w) != ""
    ensures Build(w).nodes == Nodes(w, "") && Build(w).edges == []
    ensures forall m :: Placed(Build(w).(maxSteps := m), Nodes(w, ""))
  {
    ValidNames(Build(w));
    BuildNames(w);
    BuildNodes(w);
    FoundByName(Build(w).nodes);
    KindsShape(w, "");
  }

  // ---- sufficient ----

  lemma SolidRuns(w: Workflow, maxSteps: int, env: Env, fuel: nat, data: Data)
    requires Valid(Build(w)) && Solid(w) && Depth(w) <= fuel
    ensures SameRun(w, maxSteps, env, fuel, data)
  {
    ValidFacts(w);
    var g := Build(w).(maxSteps := maxSteps);
    var c := Start(g, data);
    Sim(g, env, fuel, TOP, w, "", c);
    var f := Eval(Budget(g), env, TOP, w, FlowOf(c));
    if f.halt.None? {
      assert Run(g, env, fuel, TOP, After(f, map[], "")) == After(f, map[], "");
    }
  }

  // ---- necessary: the nodes behind a step that holds nothing are lost ----

  function Lost(w: Workflow): set<Name>
    decreases w, 0
  {
    match w
    case Task(_) => {}
    case Sequence(steps) => LostSteps(steps)
    case FanOut(_, branches) => LostAll(branches)
    case Repeat(_, body, _) => Lost(body)
  }

  function LostSteps(ws: seq<Workflow>): set<Name>
    decreases ws, 0
  {
    if ws == [] then {}
    else if Entry(ws[0]) == "" then set n | n in NamesAll(ws)
    else Lost(ws[0]) + LostSteps(ws[1..])
  }

  function LostAll(ws: seq<Workflow>): set<Name>
    decreases ws, 0
  {
    if ws == [] then {} else Lost(ws[0]) + LostAll(ws[1..])
  }

  lemma {:induction false} SomethingLost(w: Workflow)
    requires Shaped(w) && Entry(w) != "" && !Solid(w)
    ensures Lost(w) != {}
    decreases w, 0
  {
    match w
    case Task(_) =>
    case Sequence(steps) => SomethingLostSteps(steps);
    case FanOut(_, branches) => SomethingLostAll(branches);
    case Repeat(_, body, _) => SomethingLost(body);
  }

  lemma {:induction false} SomethingLostSteps(ws: seq<Workflow>)
    requires ws != [] && ShapedAll(ws) && Entry(ws[0]) != "" && !SolidSteps(ws)
    ensures LostSteps(ws) != {}
    decreases ws, 0
  {
    if !Solid(ws[0]) {
      SomethingLost(ws[0]);
    } else if Entry(ws[1]) == "" {
      assert NamesAll(ws[1..])[0] in LostSteps(ws[1..]);
    } else {
      SomethingLostSteps(ws[1..]);
    }
  }

  lemma {:induction false} SomethingLostAll(ws: seq<Workflow>)
    requires ShapedAll(ws) && !SolidAll(ws) && forall w <- ws :: Entry(w) != ""
    ensures LostAll(ws) != {}
    decreases ws, 0
  {
    if !Solid(ws[0]) {
      SomethingLost(ws[0]);
    } else {
      SomethingLostAll(ws[1..]);
    }
  }

  lemma {:induction false} LostInNames(w: Workflow)
    requires Distinct(Names(w))
    ensures forall n <- Lost(w) :: n in Names(w) && (Entry(w) != "" ==> n != Entry(w))
    decreases w, 0
  {
    match w
    case Task(_) =>
    case Sequence(steps) =>
      LostStepsInNames(steps);
    case FanOut(name, branches) =>
      DistinctParts([name], NamesAll(branches));
      LostAllInNames(branches);
      assert name == [name][0];
    case Repeat(name, body, _) =>
      DistinctParts([name], Names(body));
      LostInNames(body);
      assert name == [name][0];
  }

  lemma {:induction false} LostStepsInNames(ws: seq<Workflow>)
    requires Distinct(NamesAll(ws))
    ensures forall n <- LostSteps(ws) :: n in NamesAll(ws)
    ensures ws != [] && Entry(ws[0]) != "" ==> Entry(ws[0]) !in LostSteps(ws)
    decreases ws, 0
  {
    if ws != [] {
      DistinctParts(Names(ws[0]), NamesAll(ws[1..]));
      LostInNames(ws[0]);
      LostStepsInNames(ws[1..]);
      if Entry(ws[0]) != "" { EntryNamed(ws[0]); }
    }
  }

  lemma {:induction false} LostAllInNames(ws: seq<Workflow>)
    requires Distinct(NamesAll(ws))
    ensures forall n <- LostAll(ws) :: n in NamesAll(ws)
    ensures forall w <- ws :: Entry(w) != "" ==> Entry(w) !in LostAll(ws)
    decreases ws, 0
  {
    if ws != [] {
      DistinctParts(Names(ws[0]), NamesAll(ws[1..]));
      LostInNames(ws[0]);
      LostAllInNames(ws[1..]);
      forall w | w in ws && Entry(w) != "" ensures Entry(w) !in LostAll(ws) {
        EntryNamed(w);
        if w in ws[1..] { NamedIn(w, ws[1..]); }
      }
    }
  }

  lemma {:induction false} EntryNamed(w: Workflow)
    requires Entry(w) != ""
    ensures Entry(w) in Names(w)
    decreases w
  {
    match w
    case Task(name) => assert name == Names(w)[0];
    case Sequence(steps) => EntryNamed(steps[0]);
    case FanOut(name, _) => assert name == Names(w)[0];
    case Repeat(name, _, _) => assert name == Names(w)[0];
  }

  lemma {:induction false} NamedIn(w: Workflow, ws: seq<Workflow>)
    requires w in ws
    ensures forall n <- Names(w) :: n in NamesAll(ws)
  {
    if w != ws[0] { NamedIn(w, ws[1..]); }
  }

  // ---- no node that is not lost leads to one that is ----

  ghost predicate LeadsInto(n: Node, lost: set<Name>) {
    || n.exitTo in lost
    || match n.kind
       case Leaf => false
       case Parallel(branches) => exists b <- branches :: b in lost
       case Loop(body, _) => body in lost
  }

  ghost predicate Sealed(nodes: seq<Node>, lost: set<Name>) {
    forall n <- nodes :: LeadsInto(n, lost) ==> n.name in lost
  }

  /** `lost` agrees with `own` on `names`. */
  ghost predicate LocalTo(lost: set<Name>, own: set<Name>, names: seq<Name>) {
    forall n <- names :: n in lost <==> n in own
  }

  lemma {:induction false} SealedOff(w: Workflow, exit: Name, lost: set<Name>)
    requires Shaped(w) && Distinct(Names(w)) && Entry(w) != ""
    requires LocalTo(lost, Lost(w), Names(w)) && exit !in lost
    ensures Sealed(Nodes(w, exit), lost)
    decreases w, 0
  {
    LostInNames(w);
    EntryNamed(w);
    match w
    case Task(_) =>
    case Sequence(steps) => SealedSteps(steps, exit, lost);
    case FanOut(name, branches) =>
      DistinctParts([name], NamesAll(branches));
      LostAllInNames(branches);
      forall b | b in Entries(branches) ensures b !in lost {
        var i :| 0 <= i < |branches| && Entries(branches)[i] == b;
        EntryNamed(branches[i]);
        NamedIn(branches[i], branches);
        assert branches[i] in branches;
      }
      SealedBack(branches, name, lost);
    case Repeat(name, body, _) =>
      DistinctParts([name], Names(body));
      LostInNames(body);
      EntryNamed(body);
      SealedOff(body, name, lost);
  }

  lemma {:induction false} SealedSteps(ws: seq<Workflow>, exit: Name, lost: set<Name>)
    requires ShapedAll(ws) && Distinct(NamesAll(ws))
    requires LocalTo(lost, LostSteps(ws), NamesAll(ws)) && exit !in lost
    ensures Sealed(NodesSteps(ws, exit), lost)
    decreases ws, 0
  {
    if ws == [] {
    } else if Entry(ws[0]) == "" {
      NodesStepsNames(ws, exit);
      forall n | n in NodesSteps(ws, exit) ensures n.name in lost {
        var i :| 0 <= i < |NodesSteps(ws, exit)| && NodesSteps(ws, exit)[i] == n;
        assert NodeNames(NodesSteps(ws, exit))[i] == n.name;
      }
    } else {
      DistinctParts(Names(ws[0]), NamesAll(ws[1..]));
      LostInNames(ws[0]);
      LostStepsInNames(ws[1..]);
      if |ws| > 1 && Entry(ws[1]) != "" {
        EntryNamed(ws[1]);
        assert Entry(ws[1]) in NamesAll(ws[1..]);
      }
      SealedOff(ws[0], StepExit(ws, exit), lost);
      SealedSteps(ws[1..], exit, lost);
    }
  }

  lemma {:induction false} SealedBack(ws: seq<Workflow>, name: Name, lost: set<Name>)
    requires ShapedAll(ws) && Distinct(NamesAll(ws)) && forall w <- ws :: Entry(w) != ""
    requires LocalTo(lost, LostAll(ws), NamesAll(ws)) && name !in lost
    ensures Sealed(NodesBack(ws, name), lost)
    decreases ws, 0
  {
    if ws != [] {
      DistinctParts(Names(ws[0]), NamesAll(ws[1..]));
      LostInNames(ws[0]);
      LostAllInNames(ws[1..]);
      SealedOff(ws[0], name, lost);
      SealedBack(ws[1..], name, lost);
    }
  }

  // ---- so a run never starts a lost node ----

  ghost predicate Avoids(trace: seq<Name>, lost: set<Name>) {
    forall n <- trace :: n !in lost
  }

  lemma {:induction false} RunAvoids(g: Graph, env: Env, fuel: nat, ctx: Ctx, c: Chain, lost: set<Name>)
    requires Sealed(g.nodes, lost) && g.edges == [] && END !in lost && "" !in lost
    requires Avoids(c.trace, lost) && (c.halt.None? ==> c.cur !in lost)
    ensures Avoids(Run(g, env, fuel, ctx, c).trace, lost)
    decreases fuel, 1, if c.halt.Some? then 0 else c.left + 1
  {
    if Live(ctx, c) {
      StepAvoids(g, env, fuel, ctx, c, lost);
      RunAvoids(g, env, fuel, ctx, Step(g, env, fuel, ctx, c), lost);
    }
  }

  lemma {:induction false} StepAvoids(g: Graph, env: Env, fuel: nat, ctx: Ctx, c: Chain, lost: set<Name>)
    requires Sealed(g.nodes, lost) && g.edges == [] && END !in lost && "" !in lost
    requires Live(ctx, c) && Avoids(c.trace, lost) && c.cur !in lost
    ensures var c1 := Step(g, env, fuel, ctx, c); Avoids(c1.trace, lost) && (c1.halt.None? ==> c1.cur !in lost)
    decreases fuel, 0, 1
  {
    hide Run, CloseFan;
    var found := FindNode(g.nodes, c.cur);
    if c.left > 0 && found.Some? {
      var node := found.value;
      if !node.kind.Parallel? {
        StepSimple(g, env, fuel, ctx, c, node);
      } else if fuel > 0 {
        FanAvoids(g, env, fuel, ctx, c, node, lost);
      }
    }
  }

  lemma {:induction false} FanAvoids(g: Graph, env: Env, fuel: nat, ctx: Ctx, c: Chain, node: Node, lost: set<Name>)
    requires Sealed(g.nodes, lost) && g.edges == [] && END !in lost && "" !in lost
    requires Live(ctx, c) && Avoids(c.trace, lost) && c.cur !in lost && c.left > 0 && fuel > 0
    requires FindNode(g.nodes, c.cur) == Some(node) && node.kind.Parallel?
    ensures var c1 := Step(g, env, fuel, ctx, c); Avoids(c1.trace, lost) && (c1.halt.None? ==> c1.cur !in lost)
    decreases fuel, 0, 0
  {
    hide Run, CloseFan, Step, RunNode;
    StepFan(g, env, fuel, ctx, c, node);
    var starts := BranchStarts(g, c.state, node.kind.branches);
    var bctx := BranchCtx(ctx, c.state, node.name);
    var rs := RunAll(g, env, fuel - 1, bctx, starts);
    forall i | 0 <= i < |rs| ensures Avoids(rs[i].trace, lost) {
      assert node.kind.branches[i] in node.kind.branches;
      RunAvoids(g, env, fuel - 1, bctx, starts[i], lost);
    }
    TracesAvoid(Ends(rs), lost);
  }

  lemma {:induction false} TracesAvoid(es: seq<End>, lost: set<Name>)
    requires forall i :: 0 <= i < |es| ==> Avoids(es[i].trace, lost)
    ensures Avoids(Traces(es), lost)
  {
    if es != [] { TracesAvoid(es[1..], lost); }
  }

  // ---- while the workflow visits every node when all of them finish ----

  const QUIET: Env := Env((n, v: View, a) => Finished(v.values, map[], {}), (n, v) => Ok(true), (n, v) => Ok(END))

  /** Quiet nodes leave the data alone, need at most two starts each and are all visited. */
  ghost predicate AllVisited(names: seq<Name>, f: Flow, f1: Flow) {
    && f1.halt.None? && f1.data == f.data && f1.writes == f.writes
    && f1.left + 2 * |names| >= f.left
    && f.trace <= f1.trace && forall n <- names :: n in f1.trace
  }

  lemma {:induction false} QuietVisits(budget: nat, ctx: Ctx, w: Workflow, f: Flow)
    requires Shaped(w) && f.halt.None? && f.left >= 2 * |Names(w)| && budget >= 2 * |Names(w)|
    ensures AllVisited(Names(w), f, Eval(budget, QUIET, ctx, w, f))
    decreases w, 1
  {
    match w
    case Task(name) =>
      assert f.data.histories + map[] == f.data.histories;
      assert name == (f.trace + [name])[|f.trace|];
    case Sequence(steps) => QuietSteps(budget, ctx, steps, f);
    case FanOut(name, branches) => QuietFan(budget, ctx, w, f);
    case Repeat(name, body, maxIterations) =>
      var f1 := Visit(f, name);
      assert name == f1.trace[|f.trace|];
      QuietVisits(budget, ctx, body, f1);
  }

  lemma {:induction false} QuietSteps(budget: nat, ctx: Ctx, ws: seq<Workflow>, f: Flow)
    requires ShapedAll(ws) && f.halt.None? && f.left >= 2 * |NamesAll(ws)| && budget >= 2 * |NamesAll(ws)|
    ensures AllVisited(NamesAll(ws), f, EvalSteps(budget, QUIET, ctx, ws, f))
    decreases ws, 0
  {
    if ws != [] {
      QuietVisits(budget, ctx, ws[0], f);
      QuietSteps(budget, ctx, ws[1..], Eval(budget, QUIET, ctx, ws[0], f));
    }
  }

  lemma {:induction false} QuietFan(budget: nat, ctx: Ctx, w: Workflow, f: Flow)
    requires w.FanOut? && Shaped(w) && f.halt.None? && f.left >= 2 * |Names(w)| && budget >= 2 * |Names(w)|
    ensures AllVisited(Names(w), f, Eval(budget, QUIET, ctx, w, f))
    decreases w, 0
  {
    var f1 := Visit(f, w.name);
    var bctx := InBranch(ctx, f.data, w.name);
    QuietBranches(budget, bctx, w.branches, f.data);
    var es := FlowEnds(EvalBranches(budget, QUIET, bctx, w.branches, f.data));
    QuietJoin(f.data, Entries(w.branches), es);
    assert w.name == (f1.trace + Traces(es))[|f.trace|];
    assert forall n <- Traces(es) :: n in f1.trace + Traces(es);
  }

  lemma {:induction false} QuietBranches(budget: nat, ctx: Ctx, ws: seq<Workflow>, parent: Data)
    requires ShapedAll(ws) && budget >= 2 * |NamesAll(ws)|
    ensures var es := FlowEnds(EvalBranches(budget, QUIET, ctx, ws, parent));
            && (forall e <- es :: e.halt.None? && e.writes == {} && e.data.histories == map[])
            && (forall n <- NamesAll(ws) :: n in Traces(es))
    decreases ws, 0
  {
    var es := FlowEnds(EvalBranches(budget, QUIET, ctx, ws, parent));
    if ws != [] {
      QuietVisits(budget, ctx, ws[0], BranchFlow(budget, parent));
      QuietBranches(budget, ctx, ws[1..], parent);
      assert es[1..] == FlowEnds(EvalBranches(budget, QUIET, ctx, ws[1..], parent));
    }
  }

  lemma QuietJoin(parent: Data, entries: seq<Name>, es: seq<End>)
    requires |entries| == |es|
    requires forall e <- es :: e.halt.None? && e.writes == {} && e.data.histories == map[]
    ensures CloseFan(parent, entries, es) == Joined(parent, {})
  {
    NoPauses(entries, es);
    NothingOwned(es);
    assert forall i :: 0 <= i < |es| ==> es[i] in es;
    assert parent.values + map[] == parent.values && parent.histories + map[] == parent.histories;
  }

  lemma {:induction false} NoPauses(entries: seq<Name>, es: seq<End>)
    requires |entries| == |es| && forall e <- es :: e.halt.None?
    ensures Pauses(entries, es) == []
  {
    if es != [] {
      assert es[0] in es;
      NoPauses(entries[1..], es[1..]);
    }
  }

  lemma {:induction false} NothingOwned(es: seq<End>)
    requires forall e <- es :: e.writes == {} && e.data.histories == map[]
    ensures OwnedAll(es) == map[] && HistoriesAll(es) == map[]
  {
    if es != [] {
      NothingOwned(es[..|es| - 1]);
      assert es[|es| - 1] in es;
    }
  }

  /** A graph behind which a workflow loses nodes does not behave like it. */
  lemma GapsDiffer(w: Workflow)
    requires Valid(Build(w)) && !Solid(w)
    ensures !SameRun(w, 2 * |Names(w)|, QUIET, Depth(w), Data(map[], map[]))
  {
    ValidFacts(w);
    var lost := Lost(w);
    SomethingLost(w);
    LostInNames(w);
    var n :| n in lost;
    SealedOff(w, "", lost);
    var g := Build(w).(maxSteps := 2 * |Names(w)|);
    var data := Data(map[], map[]);
    RunAvoids(g, QUIET, Depth(w), TOP, Start(g, data), lost);
    QuietVisits(Budget(g), TOP, w, Flow(data, {}, [], Budget(g), None));
  }

  /** Of the workflows whose graph is accepted, exactly the solid ones run as written: same nodes in
      the same order, same data, same stop, for all node bodies, step limits and inputs. */
  lemma CompilerCorrect(w: Workflow)
    requires Valid(Build(w))
    ensures (forall maxSteps: int, env: Env, fuel: nat, data: Data :: fuel >= Depth(w) ==>
              SameRun(w, maxSteps, env, fuel, data)) <==> Solid(w)
  {
    if Solid(w) {
      forall maxSteps: int, env: Env, fuel: nat, data: Data | fuel >= Depth(w)
        ensures SameRun(w, maxSteps, env, fuel, data)
      {
        SolidRuns(w, maxSteps, env, fuel, data);
      }
    } else {
      GapsDiffer(w);
    }
  }

  /** Accepted workflows that are not run as written: the empty step swallows what follows it. */
  lemma EmptyStepSwallows(a: Name, b: Name)
    requires GoodNames([a, b])
    ensures var w := Sequence([Task(a), Sequence([]), Task(b)]);
            Valid(Build(w)) && !Solid(w) && Lost(w) == {b}
  {
    hide Build, Eval;
    var rest := [Sequence([]), Task(b)];
    var steps := [Task(a), Sequence([]), Task(b)];
    assert steps[1..] == rest && a == [a, b][0];
    SwallowedStep(b, "");
    assert NamesAll(steps) == [a, b];
    assert LostSteps(steps) == Lost(Task(a)) + LostSteps(rest);
    assert NodesSteps(steps, "") == [Node(a, Leaf, ""), Node(b, Leaf, "")];
    BuildNodes(Sequence(steps));
    TwoTasksValid(Build(Sequence(steps)), a, b);
  }

  lemma TwoTasksValid(g: Graph, a: Name, b: Name)
    requires GoodNames([a, b])
    requires g.entry == a && g.nodes == [Node(a, Leaf, ""), Node(b, Leaf, "")] && g.edges == []
    ensures Valid(g)
  {
    assert NodeNames(g.nodes) == [a, b];
    assert a == [a, b][0] && b == [a, b][1];
  }

  lemma SwallowedStep(b: Name, exit: Name)
    ensures var rest := [Sequence([]), Task(b)];
            NamesAll(rest) == [b] && !SolidSteps(rest) && LostSteps(rest) == {b} &&
              NodesSteps(rest, exit) == [Node(b, Leaf, exit)]
  {
    var rest := [Sequence([]), Task(b)];
    assert rest[1..] == [Task(b)] && [Task(b)][1..] == [];
    assert NamesAll([Task(b)]) == [b] && NodesSteps([Task(b)], exit) == [Node(b, Leaf, exit)];
    assert NamesAll(rest) == [b];
    assert (set n | n in [b]) == {b} by { assert b == [b][0]; }
  }

  // ---- what a loop means ----

  /** `n` iterations of `body`, each followed by a visit of the controller. */
  function Iterate(budget: nat, env: Env, ctx: Ctx, name: Name, body: Workflow, n: nat, f: Flow): Flow {
    if n == 0 then f else Visit(Eval(budget, env, ctx, body, Iterate(budget, env, ctx, name, body, n - 1, f)), name)
  }

  ghost predicate Stops(budget: nat, env: Env, ctx: Ctx, w: Workflow, n: nat, f: Flow)
    requires w.Repeat?
  {
    var f1 := Iterate(budget, env, ctx, w.name, w.body, n, f);
    env.until(w.name, View(f1.data.values, f1.data.histories)) == Ok(true)
  }

  ghost predicate Continues(budget: nat, env: Env, ctx: Ctx, w: Workflow, n: nat, f: Flow)
    requires w.Repeat?
  {
    var f1 := Iterate(budget, env, ctx, w.name, w.body, n, f);
    f1.halt.None? && env.until(w.name, View(f1.data.values, f1.data.histories)) == Ok(false)
  }

  /** A loop that ends ran its body at least once and at most `maxIterations` times, and stopped after
      the first iteration whose condition held. */
  lemma RepeatMeaning(budget: nat, env: Env, ctx: Ctx, w: Workflow, f: Flow)
    requires w.Repeat? && w.maxIterations >= 1 && f.halt.None?
    requires Eval(budget, env, ctx, w, f).halt.None?
    ensures exists n: nat ::
      && 1 <= n <= w.maxIterations
      && Eval(budget, env, ctx, w, f) == Iterate(budget, env, ctx, w.name, w.body, n, Visit(f, w.name))
      && (forall j :: 1 <= j < n ==> Continues(budget, env, ctx, w, j, Visit(f, w.name)))
      && (n == w.maxIterations || Stops(budget, env, ctx, w, n, Visit(f, w.name)))
  {
    var n := RoundCount(budget, env, ctx, w, 1, Visit(f, w.name));
  }

  lemma {:induction false} RoundCount(budget: nat, env: Env, ctx: Ctx, w: Workflow, k: nat, f: Flow) returns (n: nat)
    requires w.Repeat? && 1 <= k <= w.maxIterations
    requires forall j :: 1 <= j < k ==> Continues(budget, env, ctx, w, j, f)
    requires EvalRounds(budget, env, ctx, w.name, w.body, w.maxIterations - k + 1,
                        Iterate(budget, env, ctx, w.name, w.body, k - 1, f)).halt.None?
    ensures k <= n <= w.maxIterations
    ensures EvalRounds(budget, env, ctx, w.name, w.body, w.maxIterations - k + 1,
                       Iterate(budget, env, ctx, w.name, w.body, k - 1, f)) ==
            Iterate(budget, env, ctx, w.name, w.body, n, f)
    ensures forall j :: 1 <= j < n ==> Continues(budget, env, ctx, w, j, f)
    ensures n == w.maxIterations || Stops(budget, env, ctx, w, n, f)
    decreases w.maxIterations - k
  {
    if k < w.maxIterations && Continues(budget, env, ctx, w, k, f) {
      n := RoundCount(budget, env, ctx, w, k + 1, f);
    } else {
      n := k;
    }
  }
}
