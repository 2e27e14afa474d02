/** Exactly which step limits make a stop visible. */
module StepLimits {
  import opened Options
  import opened Graphs
  import opened Executor
  import opened Congruence
  import opened Durable
  import opened Resume
  import opened Workflows
  import opened Builders
  import opened Compilation
  import opened CompilerTheorem
  import opened Stops
  import opened StepNeeds
  import opened ScriptedRuns
  import opened Overrunning
  import opened RenewedSteps

  // ---- the top-level chain stays out of branches ----

  /** Names inside fan-outs. */
  function Inner(w: Workflow): set<Name>
    decreases w, 0
  {
    match w
    case Task(_) => {}
    case Sequence(steps) => InnerAll(steps)
    case FanOut(_, branches) => set n | n in NamesAll(branches)
    case Repeat(_, body, _) => Inner(body)
  }

  function InnerAll(ws: seq<Workflow>): set<Name>
    decreases ws, 0
  {
    if ws == [] then {} else Inner(ws[0]) + InnerAll(ws[1..])
  }

  lemma {:induction false} InnerNamed(w: Workflow)
    requires Distinct(Names(w))
    ensures forall n <- Inner(w) :: n in Names(w) && (Entry(w) != "" ==> n != Entry(w))
    decreases w, 0
  {
    match w
    case Task(_) =>
    case Sequence(steps) => InnerAllNamed(steps);
    case FanOut(name, branches) =>
      DistinctParts([name], NamesAll(branches));
      assert name == [name][0];
    case Repeat(name, body, _) =>
      DistinctParts([name], Names(body));
      InnerNamed(body);
      assert name == [name][0];
  }

  lemma {:induction false} InnerAllNamed(ws: seq<Workflow>)
    requires Distinct(NamesAll(ws))
    ensures forall n <- InnerAll(ws) :: n in NamesAll(ws) && (ws != [] && Entry(ws[0]) != "" ==> n != Entry(ws[0]))
    decreases ws, 0
  {
    if ws != [] {
      DistinctParts(Names(ws[0]), NamesAll(ws[1..]));
      InnerNamed(ws[0]);
      InnerAllNamed(ws[1..]);
      if Entry(ws[0]) != "" { EntryNamed(ws[0]); }
    }
  }

  ghost predicate StaysOut(n: Node, inner: set<Name>) {
    n.name !in inner ==> n.exitTo !in inner && (n.kind.Loop? ==> n.kind.body !in inner)
  }

  ghost predicate AllStayOut(nodes: seq<Node>, inner: set<Name>) {
    forall n <- nodes :: StaysOut(n, inner)
  }

  lemma {:induction false} OutsideStays(w: Workflow, exit: Name, inner: set<Name>)
    requires Distinct(Names(w)) && LocalTo(inner, Inner(w), Names(w)) && exit !in inner && "" !in inner
    ensures AllStayOut(Nodes(w, exit), inner)
    decreases w, 0
  {
    InnerNamed(w);
    match w
    case Task(_) =>
    case Sequence(steps) => StepsOutside(steps, exit, inner);
    case FanOut(name, branches) =>
      NodesBackNames(branches, name);
      forall n | n in NodesBack(branches, name) ensures n.name in inner {
        var i :| 0 <= i < |NodesBack(branches, name)| && NodesBack(branches, name)[i] == n;
        assert NodeNames(NodesBack(branches, name))[i] == n.name;
      }
    case Repeat(name, body, _) =>
      DistinctParts([name], Names(body));
      assert name == Names(w)[0];
      InnerNamed(body);
      if Entry(body) != "" { EntryNamed(body); }
      OutsideStays(body, name, inner);
  }

  lemma {:induction false} StepsOutside(ws: seq<Workflow>, exit: Name, inner: set<Name>)
    requires Distinct(NamesAll(ws)) && LocalTo(inner, InnerAll(ws), NamesAll(ws)) && exit !in inner && "" !in inner
    ensures AllStayOut(NodesSteps(ws, exit), inner)
    decreases ws, 0
  {
    if ws != [] {
      DistinctParts(Names(ws[0]), NamesAll(ws[1..]));
      InnerNamed(ws[0]);
      InnerAllNamed(ws[1..]);
      if |ws| > 1 && Entry(ws[1]) != "" {
        EntryNamed(ws[1]);
        assert Entry(ws[1]) in NamesAll(ws[1..]);
      }
      OutsideStays(ws[0], StepExit(ws, exit), inner);
      StepsOutside(ws[1..], exit, inner);
    }
  }

  ghost predicate Outside(inner: set<Name>, c: Chain) {
    c.cur !in inner && inner !! c.state.loops.Keys
  }

  lemma StepOutside(g: Graph, env: Env, fuel: nat, c: Chain, inner: set<Name>)
    requires AllStayOut(g.nodes, inner) && g.edges == [] && END !in inner && "" !in inner
    requires Live(TOP, c) && Outside(inner, c) && Step(g, env, fuel, TOP, c).halt.None?
    ensures Outside(inner, Step(g, env, fuel, TOP, c))
  {
    hide Run, CloseFan;
    var found := FindNode(g.nodes, c.cur);
    if c.left > 0 && found.Some? {
      var node := found.value;
      FoundNamed(g.nodes, c.cur);
      assert StaysOut(node, inner);
      if !node.kind.Parallel? {
        StepSimple(g, env, fuel, TOP, c, node);
      } else if fuel > 0 {
        StepFan(g, env, fuel, TOP, c, node);
      }
    }
  }

  lemma {:induction false} FoundNamed(nodes: seq<Node>, name: Name)
    ensures var r := FindNode(nodes, name); r.Some? ==> r.value in nodes && r.value.name == name
  {
    if nodes != [] { FoundNamed(nodes[1..], name); }
  }

  /** A run that stops has a last turn. */
  lemma {:induction false} LastTurn(g: Graph, env: Env, fuel: nat, e: Exec,
                                    inner: set<Name>) returns (moves: seq<Move>, e1: Exec)
    requires AllStayOut(g.nodes, inner) && g.edges == [] && END !in inner && "" !in inner && Outside(inner, e.top)
    requires !InFan(e) && Live(TOP, e.top) && Run(g, env, fuel, TOP, e.top).halt.Some?
    ensures Leads(g, env, fuel, e, moves, e1) && !InFan(e1) && Live(TOP, e1.top) && Outside(inner, e1.top)
    ensures Step(g, env, fuel, TOP, e1.top) == Run(g, env, fuel, TOP, e.top)
    decreases e.top.left
  {
    hide Step, AllStayOut;
    moves, e1 := [], e;
    var c := Step(g, env, fuel, TOP, e.top);
    if c.halt.None? {
      Shortens(g, env, fuel, TOP, e.top);
      StepOutside(g, env, fuel, e.top, inner);
      var first, mid := RenewedSteps.Visit(g, env, fuel, e);
      moves, e1 := LastTurn(g, env, fuel, mid, inner);
      LeadsOn(g, env, fuel, e, first, mid, moves, e1);
      moves := first + moves;
    }
  }

  // ---- the tight fan-out in the graph ----

  lemma {:induction false} TightPlaced(g: Graph, m: nat, w: Workflow, exit: Name) returns (tightExit: Name)
    requires FanOverruns(m, w) && Solid(w) && Placed(g, Nodes(w, exit)) && Distinct(Names(w))
    ensures var t := Tight(m, w);
            && Placed(g, Nodes(t, tightExit)) && Depth(t) <= Depth(w) && Distinct(Names(t))
            && (forall n <- Names(t) :: n in Names(w)) && (forall n <- NamesAll(t.branches) :: n in Inner(w))
    decreases w, 0
  {
    match w
    case Sequence(steps) => tightExit := TightStepPlaced(g, m, steps, exit);
    case FanOut(_, _) => tightExit := exit;
    case Repeat(name, body, _) =>
      DistinctParts([name], Names(body));
      tightExit := TightPlaced(g, m, body, name);
  }

  lemma {:induction false} TightStepPlaced(g: Graph, m: nat, ws: seq<Workflow>, exit: Name) returns (tightExit: Name)
    requires StepsOverrun(m, ws) && SolidSteps(ws) && Placed(g, NodesSteps(ws, exit)) && Distinct(NamesAll(ws))
    ensures var t := TightStep(m, ws);
            && Placed(g, Nodes(t, tightExit)) && Depth(t) <= DepthAll(ws) && Distinct(Names(t))
            && (forall n <- Names(t) :: n in NamesAll(ws)) && (forall n <- NamesAll(t.branches) :: n in InnerAll(ws))
    decreases ws, 0
  {
    DistinctParts(Names(ws[0]), NamesAll(ws[1..]));
    if FanOverruns(m, ws[0]) {
      tightExit := TightPlaced(g, m, ws[0], StepExit(ws, exit));
    } else {
      if NamesAll(ws[1..]) == [] { BlankOverrun(m, ws[1..]); }
      tightExit := TightStepPlaced(g, m, ws[1..], exit);
    }
  }

  lemma {:induction false} BackPlaced(g: Graph, ws: seq<Workflow>, name: Name, i: nat)
    requires Placed(g, NodesBack(ws, name)) && i < |ws|
    ensures Placed(g, Nodes(ws[i], name)) && Depth(ws[i]) <= DepthAll(ws)
    ensures forall n <- LoopNames(ws[i]) :: n in LoopNamesAll(ws)
  {
    if i > 0 { BackPlaced(g, ws[1..], name, i - 1); }
  }

  /** A branch of the graph ends as its workflow does, however many steps it has. */
  lemma BranchEnds(g: Graph, env: Env, fuel: nat, bctx: Ctx, join: Name, w: Workflow, parent: State, d: nat)
    requires Solid(w) && Distinct(Names(w)) && Depth(w) <= fuel && Placed(g, Nodes(w, join))
    requires bctx.join == Some(join) && join != "" && join !in Names(w) && END !in Names(w) && "" !in Names(w)
    requires LoopNames(w) !! parent.loops.Keys
    ensures EndOf(Run(g, env, fuel, bctx, BranchStart(g, parent, Entry(w)).(left := d))) ==
            FlowEnd(Eval(Budget(g), env, bctx, w, BranchFlow(d, parent.data)))
  {
    hide Step, Eval;
    var c := BranchStart(g, parent, Entry(w)).(left := d);
    assert FlowOf(c) == BranchFlow(d, parent.data);
    Sim(g, env, fuel, bctx, w, join, c);
  }

  // ---- a limit on the top-level chain ----

  function WithLimit(w: Workflow, maxSteps: int): Graph {
    Build(w).(maxSteps := maxSteps)
  }

  /** The top-level chain ends as the workflow does, however many steps it has. */
  lemma TopEnds(w: Workflow, m: int, env: Env, fuel: nat, data: Data, d: nat)
    requires Valid(Build(w)) && Solid(w) && Depth(w) <= fuel
    ensures var g := WithLimit(w, m);
            EndOf(Run(g, env, fuel, TOP, Start(g, data).(left := d))) ==
            FlowEnd(Eval(Budget(g), env, TOP, w, Flow(data, {}, [], d, None)))
  {
    hide Step, Eval;
    ValidFacts(w);
    var g := WithLimit(w, m);
    var c := Start(g, data).(left := d);
    assert FlowOf(c) == Flow(data, {}, [], d, None);
    Sim(g, env, fuel, TOP, w, "", c);
  }

  /** The stops behind `e` do not show: it ends as the run that was never stopped. */
  ghost predicate Unnoticed(g: Graph, env: Env, fuel: nat, data: Data, e: Exec) {
    WellFormed(g, fuel, e) && Alike(0, Run(g, env, fuel, TOP, Start(g, data)), Finish(g, env, fuel, e))
  }

  /** Whenever the limit ends the top-level chain, some stops show. */
  lemma TopLimitShows(w: Workflow, m: int, env: Env, fuel: nat, data: Data) returns (ss: seq<Stretch>, e: Exec)
    requires Valid(Build(w)) && Solid(w) && Depth(w) <= fuel && m >= 1 && PerThread(env)
    requires var g := WithLimit(w, m); HitLimit(Run(g, env, fuel, TOP, Start(g, data)))
    ensures var g := WithLimit(w, m); Becomes(g, env, fuel, Fresh(g, data), ss, e) && !Unnoticed(g, env, fuel, data, e)
    ensures AllStored(ss)
  {
    hide Step, Run, Eval, Valid, Most, Reload, Encode;
    ValidFacts(w);
    var g := WithLimit(w, m);
    var d := Most(m, w);
    Takes(m, env, TOP, w, Flow(data, {}, [], d, None));
    TopEnds(w, m, env, fuel, data, d);
    ss, e := TopGetsThrough(g, env, fuel, Fresh(g, data), d);
  }

  // ---- a limit on a branch ----

  lemma SettleKeepsKey(g: Graph, env: Env, c: Chain, node: Node, r: NodeResult)
    requires c.left > 0 && KEY in c.state.data.values && KEY in r.state.data.values
    ensures KEY in Settle(g, env, TOP, c, node, r).state.data.values
  {
    hide ResolveNext;
  }

  lemma FanKeepsKey(s: State, entries: seq<Name>, es: seq<End>)
    requires |entries| == |es| && KEY in s.data.values
    ensures KEY in FanResult(s, entries, es).state.data.values
  {
    hide FirstKeyClash, FirstHistoryClash, FirstFailed, Pauses;
  }

  lemma StepKeepsKey(g: Graph, greedy: set<Name>, waits: set<Name>, writer: Name, fuel: nat, c: Chain)
    requires Live(TOP, c) && KEY in c.state.data.values
    ensures KEY in Step(g, Scripted(greedy, waits, writer), fuel, TOP, c).state.data.values
  {
    hide Run, RunAll, FanResult, Settle;
    var env := Scripted(greedy, waits, writer);
    var found := FindNode(g.nodes, c.cur);
    if c.left > 0 && found.Some? {
      var node := found.value;
      var r := RunNode(g, env, fuel, TOP, c, node);
      if node.kind.Parallel? && fuel > 0 {
        var starts := BranchStarts(g, c.state, node.kind.branches);
        var rs := RunAll(g, env, fuel - 1, BranchCtx(TOP, c.state, node.name), starts);
        FanKeepsKey(c.state, node.kind.branches, Ends(rs));
      }
      SettleKeepsKey(g, env, c, node, r);
    }
  }

  lemma {:induction false} RunKeepsKey(g: Graph, greedy: set<Name>, waits: set<Name>, writer: Name, fuel: nat, c: Chain)
    requires KEY in c.state.data.values
    ensures KEY in Run(g, Scripted(greedy, waits, writer), fuel, TOP, c).state.data.values
    decreases if c.halt.Some? then 0 else c.left + 1
  {
    hide Scripted;
    var env := Scripted(greedy, waits, writer);
    if Live(TOP, c) {
      Shortens(g, env, fuel, TOP, c);
      StepKeepsKey(g, greedy, waits, writer, fuel, c);
      RunKeepsKey(g, greedy, waits, writer, fuel, Step(g, env, fuel, TOP, c));
    }
  }

  /** What the branches of a tight fan-out come to when nothing limits them: none is out of steps, every pause asks, and
      the one that overran wrote the key. */
  ghost predicate Unlimited(es: seq<End>, i: nat) {
    && i < |es| && AllAsk(es) && (forall j :: 0 <= j < |es| ==> es[j].halt != Some(Halt.Failed(StepLimit)))
    && (es[i].halt.None? ==> KEY in es[i].writes && KEY in es[i].data.values)
  }

  /** The join of such branches is not a join that ran out of steps, and if it is one it brings the key. */
  lemma UnlimitedJoin(parent: Data, entries: seq<Name>, es: seq<End>, i: nat)
    requires |entries| == |es| && Unlimited(es, i)
    ensures var r := CloseFan(parent, entries, es);
            if r.Joined? then KEY in r.data.values else !BranchOut(Some(r.halt))
  {
    if CloseFan(parent, entries, es).Joined? {
      JoinedEnds(parent, entries, es);
      OwnedHas(es, i, KEY);
    } else {
      FirstReported(parent, entries, es);
    }
  }

  lemma UnlimitedDiffers(g: Graph, greedy: set<Name>, waits: set<Name>, writer: Name, fuel: nat, e: Exec, i: nat,
                         whole: Chain)
    requires WellFormed(g, fuel, e) && InFan(e) && BranchOut(whole.halt) && KEY !in whole.state.data.values
    requires Unlimited(Ends(RunAll(g, Scripted(greedy, waits, writer), fuel - 1, FanCtx(e), e.fan.value.branches)), i)
    ensures !Alike(0, whole, Finish(g, Scripted(greedy, waits, writer), fuel, e))
  {
    hide Step, Run, CloseFan, Scripted, Unlimited;
    var env := Scripted(greedy, waits, writer);
    var fan := e.fan.value;
    var es := Ends(RunAll(g, env, fuel - 1, FanCtx(e), fan.branches));
    UnlimitedJoin(e.top.state.data, fan.node.kind.branches, es, i);
    var r := FanResult(e.top.state, fan.node.kind.branches, es);
    var c := Settle(g, env, TOP, e.top, fan.node, r);
    if r.Ran? {
      RunKeepsKey(g, greedy, waits, writer, fuel, c);
      var last := Finish(g, env, fuel, e);
      SameValuesAt(whole.state.data.values, last.state.data.values);
      assert !TempKey(KEY) by { assert |"temp:"| > |KEY|; }
    } else {
      RunOnly(g, env, fuel, TOP, c);
    }
  }

  /** The ends of branches `cs` that are given `ds` steps each. */
  function EndsWith(g: Graph, env: Env, fuel: nat, bctx: Ctx, cs: seq<Chain>, ds: seq<nat>): (es: seq<End>)
    requires |cs| == |ds|
    ensures |es| == |cs|
  {
    seq(|cs|, j requires 0 <= j < |cs| => EndOf(Run(g, env, fuel, bctx, cs[j].(left := ds[j]))))
  }

  /** What nothing limits one of them comes to. */
  lemma UnlimitedBranch(g: Graph, m: nat, fuel: nat, bctx: Ctx, t: Workflow, parent: State, j: nat)
    requires t.FanOut? && Overruns(m, t.branches) && Solid(t) && Shaped(t) && Depth(t) <= fuel + 1 && j < |t.branches|
    requires Placed(g, NodesBack(t.branches, t.name)) && GoodNames(NamesAll(t.branches))
    requires t.name !in NamesAll(t.branches)
    requires Budget(g) == m && bctx.join == Some(t.name) && t.name != ""
    requires forall n <- NamesAll(t.branches) :: n !in parent.loops
    ensures var b := t.branches[j];
            var u := EndOf(Run(g, Script(m, t.branches), fuel, bctx,
                               BranchStart(g, parent, Entry(b)).(left := Most(m, b))));
            && Asks(u) && u.halt != Some(Halt.Failed(StepLimit))
            && (j == Overrunner(m, t.branches) && u.halt.None? ==> KEY in u.writes && KEY in u.data.values)
  {
    hide Run, Eval, Most, Overruns, Solid, Shaped;
    var bs := t.branches;
    var env, i, d := Script(m, bs), Overrunner(m, bs), Most(m, bs[j]);
    BranchInGraph(g, t, j, parent.loops.Keys);
    BranchEnds(g, env, fuel, bctx, t.name, bs[j], parent, d);
    Takes(m, env, bctx, bs[j], BranchFlow(d, parent.data));
    if j == i { SetsKey(m, OwnLoops(bs[i]), Waits(m, bs, i), bctx, bs[i], BranchFlow(d, parent.data)); }
  }

  /** The branches of the tight fan-out, given all the steps they can need. */
  lemma UnlimitedBranches(g: Graph, m: nat, fuel: nat, bctx: Ctx, t: Workflow, exit: Name, parent: State,
                          cs: seq<Chain>, ds: seq<nat>)
    requires t.FanOut? && Overruns(m, t.branches) && Solid(t) && Shaped(t) && GoodNames(Names(t))
    requires Depth(t) <= fuel + 1
    requires Placed(g, Nodes(t, exit)) && Budget(g) == m && bctx.join == Some(t.name)
    requires forall n <- NamesAll(t.branches) :: n !in parent.loops
    requires |cs| == |ds| == |t.branches|
    requires forall j :: 0 <= j < |cs| ==>
      && cs[j] == BranchStart(g, parent, Entry(t.branches[j]))
      && ds[j] == Most(m, t.branches[j])
    ensures Unlimited(EndsWith(g, Script(m, t.branches), fuel, bctx, cs, ds), Overrunner(m, t.branches))
  {
    hide Run, Most, Nodes, Overruns, Solid, Shaped, BranchStart, Script, Depth, Placed;
    TightParts(g, t, exit);
    forall j | 0 <= j < |cs|
      ensures var u := EndOf(Run(g, Script(m, t.branches), fuel, bctx, cs[j].(left := ds[j])));
              && Asks(u) && u.halt != Some(Halt.Failed(StepLimit))
              && (j == Overrunner(m, t.branches) && u.halt.None? ==> KEY in u.writes && KEY in u.data.values)
    {
      UnlimitedBranch(g, m, fuel, bctx, t, parent, j);
    }
  }

  lemma TightParts(g: Graph, t: Workflow, exit: Name)
    requires t.FanOut? && Placed(g, Nodes(t, exit)) && GoodNames(Names(t))
    ensures FindNode(g.nodes, t.name) == Some(Node(t.name, Parallel(Entries(t.branches)), exit))
    ensures Placed(g, NodesBack(t.branches, t.name)) && GoodNames(NamesAll(t.branches))
    ensures t.name !in NamesAll(t.branches)
    ensures t.name != "" && t.name != END
  {
    HeadParts(g, Node(t.name, Parallel(Entries(t.branches)), exit), NodesBack(t.branches, t.name),
              NamesAll(t.branches));
    assert t.name == Names(t)[0];
    assert forall n <- NamesAll(t.branches) :: n in Names(t);
  }

  lemma BranchInGraph(g: Graph, t: Workflow, j: nat, loops: set<Name>)
    requires t.FanOut? && Solid(t) && Shaped(t) && j < |t.branches| && Placed(g, NodesBack(t.branches, t.name))
    requires GoodNames(NamesAll(t.branches)) && t.name !in NamesAll(t.branches)
    requires forall n <- NamesAll(t.branches) :: n !in loops
    ensures var b := t.branches[j];
            && Solid(b) && Shaped(b) && Distinct(Names(b)) && 1 + Depth(b) <= Depth(t) && Placed(g, Nodes(b, t.name))
            && t.name !in Names(b) && END !in Names(b) && "" !in Names(b) && LoopNames(b) !! loops
  {
    SolidAt(t.branches, j);
    ShapedAt(t.branches, j);
    NamesAt(t.branches, j);
    BackPlaced(g, t.branches, t.name, j);
    LoopNamesInNames(t.branches[j]);
  }

  /** The script brings the run to the tight fan-out, and there to its limit. */
  lemma TightReached(w: Workflow, m: nat, fuel: nat, data: Data)
    requires Valid(Build(w)) && Solid(w) && Depth(w) <= fuel && FanOverruns(m, w) && Most(m, w) <= m
    ensures var t := Tight(m, w);
            var g := WithLimit(w, m);
            var whole := Run(g, Script(m, t.branches), fuel, TOP, Start(g, data));
            && whole.halt == Some(Halt.Failed(BranchFailed(Overrunner(m, t.branches), StepLimit)))
            && whole.cur == t.name && whole.state.data == data
  {
    hide Run, Eval;
    ValidFacts(w);
    var env := Script(m, Tight(m, w).branches);
    SolidRuns(w, m, env, fuel, data);
    Reached(m, TOP, w, Flow(data, {}, [], m, None));
  }

  lemma StartOutside(w: Workflow, m: nat, data: Data)
    requires Valid(Build(w))
    ensures var g, inner := WithLimit(w, m), Inner(w);
            && AllStayOut(g.nodes, inner) && g.edges == [] && END !in inner && "" !in inner
            && Outside(inner, Start(g, data)) && g.entry != ""
  {
    hide Valid, Nodes, AllStayOut;
    ValidFacts(w);
    InnerNamed(w);
    OutsideStays(w, "", Inner(w));
  }

  /** The run just before it opens that fan-out. */
  lemma TightOpens(w: Workflow, m: nat, fuel: nat, data: Data) returns (moves: seq<Move>, e: Exec)
    requires Valid(Build(w)) && Solid(w) && Depth(w) <= fuel && FanOverruns(m, w) && Most(m, w) <= m
    ensures var t := Tight(m, w);
            var g := WithLimit(w, m);
            && Leads(g, Script(m, t.branches), fuel, Fresh(g, data), moves, e) && !InFan(e) && Opens(g, fuel, e.top)
            && e.top.cur == t.name && e.top.state.data == data && Outside(Inner(w), e.top)
  {
    hide Run, Step, Valid, Nodes, Most, AllStayOut, Outside, Inner, Leads, Script, Depth, Solid, Shaped, Names,
         NamesAll, GoodNames, Build, Placed, FanOverruns, Overruns;
    var t, g := Tight(m, w), WithLimit(w, m);
    var env := Script(m, t.branches);
    TightReached(w, m, fuel, data);
    StartOutside(w, m, data);
    RunOnly(g, env, fuel, TOP, Start(g, data));
    moves, e := LastTurn(g, env, fuel, Fresh(g, data), Inner(w));
    var exit := TightFacts(w, m);
    TightTurn(g, env, fuel, e.top, t, exit);
  }

  lemma TightTurn(g: Graph, env: Env, fuel: nat, c: Chain, t: Workflow, exit: Name)
    requires t.FanOut? && FindNode(g.nodes, t.name) == Some(Node(t.name, Parallel(Entries(t.branches)), exit))
    requires Live(TOP, c) && Step(g, env, fuel, TOP, c).cur == t.name && BranchOut(Step(g, env, fuel, TOP, c).halt)
    requires fuel > 0
    ensures c.cur == t.name && c.left > 0 && Step(g, env, fuel, TOP, c).state == c.state
  {
    hide Run, CloseFan;
    if c.left > 0 { StepFan(g, env, fuel, TOP, c, Node(t.name, Parallel(Entries(t.branches)), exit)); }
  }

  /** A fan-out that was just opened on a state without `temp:` values is as a resume would rebuild it. */
  lemma OpenedFresh(g: Graph, env: Env, fuel: nat, e: Exec)
    requires Valid(g) && Sound(g, env, fuel, e) && Enabled(g, fuel, e, Open)
    requires Strip(e.top.state.data.values) == e.top.state.data.values
    ensures var e1 := Apply(g, env, fuel, e, Open);
            && JustResumed(g, env, fuel, e1) && e1.top == e.top
            && FindNode(g.nodes, e.top.cur) == Some(e1.fan.value.node)
            && e1.fan.value.branches == BranchStarts(g, e.top.state, e1.fan.value.node.kind.branches)
  {
    hide Valid, Recorded, BranchStart, Rebuilt, FreshRecord;
    var e1 := Apply(g, env, fuel, e, Open);
    OpenKeepsSound(g, env, fuel, e);
    var entries := e1.fan.value.node.kind.branches;
    forall j | 0 <= j < |entries|
      ensures Rebuilt(g, e.top.state, FreshRecord(entries[j]), None) == BranchStart(g, e.top.state, entries[j])
    {
      FreshRebuilt(g, e.top.state, entries[j]);
    }
    assert Resumed(g, fuel, e1).top.state == e.top.state;
    assert Resumed(g, fuel, e1).fan.value.branches == e1.fan.value.branches;
  }

  lemma FreshRebuilt(g: Graph, parent: State, entry: Name)
    ensures Rebuilt(g, parent, FreshRecord(entry), None) == BranchStart(g, parent, entry)
  {
    assert (parent.data.values + map[]) - {} == parent.data.values;
    assert (parent.loops + map[]) - {} == parent.loops;
  }

  lemma ThroughUnlimited(g: Graph, env: Env, fuel: nat, e: Exec, e1: Exec, ds: seq<nat>, i: nat)
    requires e.fan.Some? && e1.fan.Some? && |ds| == |e.fan.value.branches| == |e1.fan.value.branches|
    requires Unlimited(EndsWith(g, env, fuel, FanCtx(e), e.fan.value.branches, ds), i)
    requires forall j :: 0 <= j < |ds| ==> Through(g, env, fuel, e, e1, j, ds[j])
    ensures Unlimited(Ends(RunAll(g, env, fuel, FanCtx(e), e1.fan.value.branches)), i)
  {
    hide Run;
    var us := EndsWith(g, env, fuel, FanCtx(e), e.fan.value.branches, ds);
    var es := Ends(RunAll(g, env, fuel, FanCtx(e), e1.fan.value.branches));
    assert forall j :: 0 <= j < |ds| ==> Through(g, env, fuel, e, e1, j, ds[j]) && us[j].halt == es[j].halt;
    SameValuesAt(us[i].data.values, es[i].data.values);
    assert !TempKey(KEY) by { assert |"temp:"| > |KEY|; }
  }

  lemma TightFacts(w: Workflow, m: nat) returns (exit: Name)
    requires Valid(Build(w)) && Solid(w) && FanOverruns(m, w)
    ensures var t := Tight(m, w);
            && Solid(t) && Shaped(t) && GoodNames(Names(t)) && 1 <= Depth(t) <= Depth(w)
            && Placed(WithLimit(w, m), Nodes(t, exit)) && (forall n <- NamesAll(t.branches) :: n in Inner(w))
            && FindNode(WithLimit(w, m).nodes, t.name) == Some(Node(t.name, Parallel(Entries(t.branches)), exit))
  {
    hide Valid, FanOverruns, Nodes, Placed, Solid, Shaped, Inner;
    ValidFacts(w);
    TightNamed(m, w);
    exit := TightPlaced(WithLimit(w, m), m, w, "");
    TightParts(WithLimit(w, m), Tight(m, w), exit);
  }

  /** The tight fan-out just opened: its branches need finitely many steps. */
  lemma TightBranches(w: Workflow, m: nat, fuel: nat, e: Exec) returns (ds: seq<nat>)
    requires Valid(Build(w)) && Solid(w) && Depth(w) <= fuel && FanOverruns(m, w)
    requires e.fan.Some? && FindNode(WithLimit(w, m).nodes, Tight(m, w).name) == Some(e.fan.value.node)
    requires e.fan.value.node.kind.Parallel? && Outside(Inner(w), e.top)
    requires var entries := e.fan.value.node.kind.branches;
             |e.fan.value.branches| == |entries| && forall j :: 0 <= j < |entries| ==>
               e.fan.value.branches[j] == BranchStart(WithLimit(w, m), e.top.state, entries[j])
    ensures fuel > 0 && |ds| == |e.fan.value.branches|
    ensures var bs := Tight(m, w).branches;
            Unlimited(EndsWith(WithLimit(w, m), Script(m, bs), fuel - 1, FanCtx(e), e.fan.value.branches, ds),
                      Overrunner(m, bs))
  {
    hide Valid, Most, FanOverruns, Overruns, BranchStart, Nodes, Unlimited, EndsWith, Script, Placed, Solid, Shaped,
         Depth, Names, NamesAll, Inner, GoodNames, Build;
    var t, g := Tight(m, w), WithLimit(w, m);
    var exit := TightFacts(w, m);
    ds := seq(|t.branches|, j requires 0 <= j < |t.branches| => Most(m, t.branches[j]));
    UnlimitedBranches(g, m, fuel - 1, FanCtx(e), t, exit, e.top.state, e.fan.value.branches, ds);
  }

  /** Whenever the limit can end a branch of a fan-out that the top-level chain reaches, some stops show. */
  lemma BranchLimitShows(w: Workflow, m: nat, fuel: nat, data: Data) returns (ss: seq<Stretch>, e: Exec)
    requires Valid(Build(w)) && Solid(w) && Depth(w) <= fuel && FanOverruns(m, w) && Most(m, w) <= m && m >= 1
    requires KEY !in data.values && Strip(data.values) == data.values
    ensures var g := WithLimit(w, m);
            var env := Script(m, Tight(m, w).branches);
            Becomes(g, env, fuel, Fresh(g, data), ss, e) && !Unnoticed(g, env, fuel, data, e)
    ensures AllStored(ss)
  {
    hide Run, Step, Valid, Most, Nodes, FanOverruns, Overruns, Sound, Resumed, Leads, Scripted, Unlimited, Outside;
    var t, g := Tight(m, w), WithLimit(w, m);
    var bs := t.branches;
    var env, i := Script(m, bs), Overrunner(m, bs);
    var moves, e1, ds := TightStart(w, m, fuel, data);
    ss, e := BranchesGetThrough(g, env, fuel, e1, 0, ds);
    ThroughUnlimited(g, env, fuel - 1, e1, e, ds, i);
    TightReached(w, m, fuel, data);
    SoundWellFormed(g, env, fuel, e);
    UnlimitedDiffers(g, OwnLoops(bs[i]), Waits(m, bs, i), FirstLeaf(bs[i]), fuel, e, i,
                     Run(g, env, fuel, TOP, Start(g, data)));
    if ss == [] {
      ScheduleIndependent(g, env, fuel, Fresh(g, data), moves, e1);
      assert false;
    }
    ss := BecomesLater(g, env, fuel, Fresh(g, data), moves, e1, ss, e);
  }

  /** The run that has just opened the tight fan-out. */
  lemma TightStart(w: Workflow, m: nat, fuel: nat, data: Data) returns (moves: seq<Move>, e: Exec, ds: seq<nat>)
    requires Valid(Build(w)) && Solid(w) && Depth(w) <= fuel && FanOverruns(m, w) && Most(m, w) <= m && m >= 1
    requires Strip(data.values) == data.values
    ensures var g := WithLimit(w, m);
            var bs := Tight(m, w).branches;
            var env := Script(m, bs);
            && Valid(g) && PerThread(env) && fuel > 0 && Budget(g) == m
            && Leads(g, env, fuel, Fresh(g, data), moves, e)
            && JustResumed(g, env, fuel, e) && |ds| == |e.fan.value.branches|
            && Unlimited(EndsWith(g, env, fuel - 1, FanCtx(e), e.fan.value.branches, ds), Overrunner(m, bs))
            && forall j :: 0 <= j < |ds| ==>
                 !HitLimit(Run(g, env, fuel - 1, FanCtx(e), e.fan.value.branches[j].(left := ds[j])))
  {
    hide Run, Valid, Most, FanOverruns, Overruns, Sound, Resumed, Scripted, Leads, Outside, BranchStart, Unlimited,
         EndsWith, Inner, Build, Solid, Depth;
    var bs := Tight(m, w).branches;
    var i := Overrunner(m, bs);
    ScriptedPerThread(OwnLoops(bs[i]), Waits(m, bs, i), FirstLeaf(bs[i]));
    LimitValid(w, m);
    moves, e := OpenTight(w, m, fuel, data);
    ds := TightBranches(w, m, fuel, e);
    UnlimitedFree(WithLimit(w, m), Script(m, bs), fuel - 1, FanCtx(e), e.fan.value.branches, ds, i);
  }

  lemma OpenTight(w: Workflow, m: nat, fuel: nat, data: Data) returns (moves: seq<Move>, e: Exec)
    requires Valid(Build(w)) && Solid(w) && Depth(w) <= fuel && FanOverruns(m, w) && Most(m, w) <= m
    requires Strip(data.values) == data.values
    ensures var g := WithLimit(w, m);
            var env := Script(m, Tight(m, w).branches);
            && Leads(g, env, fuel, Fresh(g, data), moves, e)
            && JustResumed(g, env, fuel, e) && Outside(Inner(w), e.top)
            && FindNode(g.nodes, Tight(m, w).name) == Some(e.fan.value.node) && e.fan.value.node.kind.Parallel?
            && |e.fan.value.branches| == |e.fan.value.node.kind.branches|
            && forall j :: 0 <= j < |e.fan.value.branches| ==>
                 e.fan.value.branches[j] == BranchStart(g, e.top.state, e.fan.value.node.kind.branches[j])
  {
    hide Run, Step, Valid, Most, FanOverruns, Overruns, Sound, Resumed, Scripted, BranchStart, FreshFan;
    var g := WithLimit(w, m);
    var env := Script(m, Tight(m, w).branches);
    LimitValid(w, m);
    FreshSound(g, env, fuel, data);
    var before, e0 := TightOpens(w, m, fuel, data);
    RunKeepsSound(g, env, fuel, Fresh(g, data), before, e0);
    SoundWellFormed(g, env, fuel, e0);
    OpenedFresh(g, env, fuel, e0);
    e := Apply(g, env, fuel, e0, Open);
    assert Leads(g, env, fuel, e0, [Open], e);
    LeadsOn(g, env, fuel, Fresh(g, data), before, e0, [Open], e);
    moves := before + [Open];
  }

  lemma UnlimitedFree(g: Graph, env: Env, fuel: nat, bctx: Ctx, cs: seq<Chain>, ds: seq<nat>, i: nat)
    requires |cs| == |ds| && Unlimited(EndsWith(g, env, fuel, bctx, cs, ds), i)
    ensures forall j :: 0 <= j < |ds| ==> !HitLimit(Run(g, env, fuel, bctx, cs[j].(left := ds[j])))
  {
    hide Run;
    var us := EndsWith(g, env, fuel, bctx, cs, ds);
    forall j | 0 <= j < |ds| ensures !HitLimit(Run(g, env, fuel, bctx, cs[j].(left := ds[j]))) {
      assert us[j].halt != Some(Halt.Failed(StepLimit));
    }
  }

  lemma LimitValid(w: Workflow, m: int)
    requires Valid(Build(w))
    ensures Valid(WithLimit(w, m))
  {
  }

  // ---- exactly when stops show ----

  /** A run that may start no node does nothing, stopped or not. */
  lemma {:induction false} NoSteps(g: Graph, env: Env, fuel: nat, e: Exec, ss: seq<Stretch>, e1: Exec)
    requires Budget(g) == 0 && Becomes(g, env, fuel, e, ss, e1)
    requires e.fan.None? && e.top.halt.None? && e.top.answer.None? && e.top.left == 0
    ensures e1.fan.None? && e1.top.left == 0 && Alike(0, e.top, e1.top)
    decreases ss
  {
    hide Resumed;
    if ss != [] {
      var moves, at := ss[0].moves, ss[0].at;
      if moves != [] { Stuck(g, env, fuel, e, moves, at); }
      ResumedTop(g, fuel, e);
      NoSteps(g, env, fuel, Resumed(g, fuel, e), ss[1..], e1);
    }
  }

  lemma Stuck(g: Graph, env: Env, fuel: nat, e: Exec, moves: seq<Move>, e1: Exec)
    requires Leads(g, env, fuel, e, moves, e1) && moves != [] && e.fan.None? && e.top.left == 0
    ensures e1.top.halt.Some?
  {
    hide Settle;
    assert moves[0] == Plain;
    assert Apply(g, env, fuel, e, Plain).top.halt.Some?;
  }

  lemma EnoughStops(w: Workflow, m: int, env: Env, fuel: nat, data: Data, ss: seq<Stretch>, e: Exec)
    requires Valid(Build(w)) && Solid(w) && Depth(w) <= fuel && PerThread(env) && !TooShort(m, w)
    requires Becomes(WithLimit(w, m), env, fuel, Fresh(WithLimit(w, m), data), ss, e)
    ensures Unnoticed(WithLimit(w, m), env, fuel, data, e)
  {
    hide Valid, Run, Step, Eval, Becomes;
    var g := WithLimit(w, m);
    LimitValid(w, m);
    if m < 1 {
      NoSteps(g, env, fuel, Fresh(g, data), ss, e);
      RunAlike(g, env, fuel, TOP, Start(g, data), e.top);
    } else {
      ValidFacts(w);
      EnoughSteps(m, env, w, data);
      SolidRuns(w, m, env, fuel, data);
      StopsAndResumes(g, env, fuel, data, ss, e);
    }
  }

  lemma SomeStops(w: Workflow, m: int, fuel: nat) returns (env: Env, data: Data, ss: seq<Stretch>, e: Exec)
    requires Valid(Build(w)) && Solid(w) && Depth(w) <= fuel && TooShort(m, w)
    ensures PerThread(env) && Becomes(WithLimit(w, m), env, fuel, Fresh(WithLimit(w, m), data), ss, e) && AllStored(ss)
    ensures !Unnoticed(WithLimit(w, m), env, fuel, data, e)
  {
    hide Valid, Run, Step, Eval, Becomes, Scripted, Unnoticed;
    data := Data(map[], map[]);
    ValidFacts(w);
    if Most(m, w) > m {
      env := Scripted(OwnLoops(w), {}, "");
      ScriptedPerThread(OwnLoops(w), {}, "");
      Greedy(m, OwnLoops(w), {}, "", TOP, w, Flow(data, {}, [], m, None));
      SolidRuns(w, m, env, fuel, data);
      ss, e := TopLimitShows(w, m, env, fuel, data);
    } else {
      var bs := Tight(m, w).branches;
      env := Script(m, bs);
      var i := Overrunner(m, bs);
      ScriptedPerThread(OwnLoops(bs[i]), Waits(m, bs, i), FirstLeaf(bs[i]));
      ss, e := BranchLimitShows(w, m, fuel, data);
    }
  }

  /** Stops at stored checkpoints never show, whatever the nodes do, exactly when the limit is not too short for the
      workflow. */
  lemma StopsShowExactly(w: Workflow, m: int, fuel: nat)
    requires Valid(Build(w)) && Solid(w) && Depth(w) <= fuel
    ensures (forall env: Env, data: Data, ss: seq<Stretch>, e: Exec ::
               PerThread(env) && AllStored(ss) &&
               Becomes(WithLimit(w, m), env, fuel, Fresh(WithLimit(w, m), data), ss, e) ==>
               Unnoticed(WithLimit(w, m), env, fuel, data, e)) <==>
            !TooShort(m, w)
  {
    hide Valid, Solid, Depth, Becomes, AllStored, Unnoticed, TooShort, PerThread;
    if TooShort(m, w) {
      var env, data, ss, e := SomeStops(w, m, fuel);
    } else {
      forall env: Env, data: Data, ss: seq<Stretch>, e: Exec |
        PerThread(env) && AllStored(ss) &&
        Becomes(WithLimit(w, m), env, fuel, Fresh(WithLimit(w, m), data), ss, e)
        ensures Unnoticed(WithLimit(w, m), env, fuel, data, e)
      {
        EnoughStops(w, m, env, fuel, data, ss, e);
      }
    }
  }

  /** Two nodes, a limit of one step. */
  const PAIR := Graph("a", [Node("a", Leaf, "b"), Node("b", Leaf, "")], [], 1)

  lemma PairStep(c: Chain, i: nat)
    requires i < 2 && c.cur == PAIR.nodes[i].name && c.halt.None? && c.left > 0 && c.answer.None?
    ensures Live(TOP, c)
    ensures var c1 := Step(PAIR, QUIET, 0, TOP, c);
            && c1.halt.None? && c1.left == c.left - 1 && c1.state == c.state && c1.answer.None?
            && c1.cur == if i == 0 then "b" else END
  {
    assert FindNode(PAIR.nodes, c.cur) == Some(PAIR.nodes[i]);
    StepSimple(PAIR, QUIET, 0, TOP, c, PAIR.nodes[i]);
    assert c.state.data.histories + map[] == c.state.data.histories;
  }

  /** Alone the run ends at the limit; stopped after its first node it gets through. */
  lemma OneStopShows(data: Data)
    ensures var e := Fresh(PAIR, data);
            && HitLimit(Run(PAIR, QUIET, 0, TOP, e.top)) && Enabled(PAIR, 0, e, Plain)
            && Finish(PAIR, QUIET, 0, Resumed(PAIR, 0, Apply(PAIR, QUIET, 0, e, Plain))).halt.None?
  {
    hide Step;
    var e := Fresh(PAIR, data);
    PairStep(e.top, 0);
    var c1 := Step(PAIR, QUIET, 0, TOP, e.top);
    LimitAtOnce(PAIR, QUIET, 0, TOP, c1);
    var e1 := Apply(PAIR, QUIET, 0, e, Plain);
    ResumedTop(PAIR, 0, e1);
    var c2 := Resumed(PAIR, 0, e1).top;
    PairStep(c2, 1);
    RunOnly(PAIR, QUIET, 0, TOP, Step(PAIR, QUIET, 0, TOP, c2));
  }
}
