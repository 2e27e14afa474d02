/** Which node follows which: the way of every chain through its graph, told by the nodes and edges alone. */
module Transitions {
  import opened Options
  import opened Graphs
  import opened Executor
  import opened Joins

  /** A node that has run leads to `to` in state `s`: along its edge, or to its exit where that says END or is
      missing. */
  ghost predicate Follows(g: Graph, env: Env, node: Node, s: State, to: Name) {
    var exit := if node.exitTo == "" then END else node.exitTo;
    && (forall e <- g.edges :: e.from == node.name && e.Static? ==> to == if e.to == END then exit else e.to)
    && (forall e <- g.edges :: e.from == node.name && e.Conditional? ==>
          var routed := env.route(node.name, View(s.data.values, s.data.histories));
          && routed.Ok?
          && if routed.value == END then to == exit else to == routed.value && exists n <- g.nodes :: n.name == to)
    && ((forall e <- g.edges :: e.from != node.name) ==> to == exit)
  }

  /** The router after `node` fails or names no node. */
  ghost predicate Misrouted(g: Graph, env: Env, node: Node, s: State) {
    var routed := env.route(node.name, View(s.data.values, s.data.histories));
    && Conditional(node.name) in g.edges
    && (routed.Err? || (routed.value != END && forall n <- g.nodes :: n.name != routed.value))
  }

  /** A loop controller that goes on keeps its counter and leads to its body; every other node that ran leads as its
      edge says. */
  ghost predicate Linked(g: Graph, env: Env, node: Node, s: State, to: Name) {
    if node.kind.Loop? && node.name in s.loops then to == node.kind.body else Follows(g, env, node, s, to)
  }

  lemma OneEdge(g: Graph, e1: Edge, e2: Edge)
    requires Valid(g) && e1 in g.edges && e2 in g.edges && e1.from == e2.from
    ensures e1 == e2
  {
    var i :| 0 <= i < |g.edges| && g.edges[i] == e1;
    var j :| 0 <= j < |g.edges| && g.edges[j] == e2;
    assert i == j;
  }

  /** Only one node bears a name, and the lookup finds it. */
  lemma FoundByName(g: Graph, node: Node)
    requires Valid(g) && node in g.nodes
    ensures FindNode(g.nodes, node.name) == Some(node)
  {
    var i :| 0 <= i < |g.nodes| && g.nodes[i] == node;
    forall j | 0 <= j < |g.nodes| && g.nodes[j].name == node.name ensures j == i {
      assert NodeNames(g.nodes)[j] == NodeNames(g.nodes)[i];
    }
    FindNodeAt(g.nodes, i);
  }

  /** The executor's choice after a node that is not sent into a loop body. */
  lemma Resolved(g: Graph, env: Env, node: Node, s: State)
    requires Valid(g)
    ensures var next := ResolveNext(g, env, s, node, "");
            && (next.Err? <==> Misrouted(g, env, node, s))
            && (next.Ok? ==> Follows(g, env, node, s, next.value))
  {
    var found := FindEdge(g.edges, node.name);
    if found.Some? {
      forall e | e in g.edges && e.from == node.name ensures e == found.value { OneEdge(g, e, found.value); }
    }
    var routed := env.route(node.name, View(s.data.values, s.data.histories));
    if found.Some? && found.value.Conditional? && routed.Ok? && FindNode(g.nodes, routed.value).Some? {
      assert FindNode(g.nodes, routed.value).value in g.nodes;
    }
  }

  /** One turn of a chain: a node that ran without being sent into a loop body leads where its edge says, and the turn
      fails exactly if the router fails or names no node; a node sent into a loop body leads there. */
  lemma NextNode(g: Graph, env: Env, fuel: nat, ctx: Ctx, c: Chain, node: Node)
    requires Valid(g) && Live(ctx, c) && c.left > 0 && node in g.nodes && node.name == c.cur
    ensures var r, c1 := RunNode(g, env, fuel, ctx, c, node), Step(g, env, fuel, ctx, c);
            && (r.Ran? && r.forced == "" ==>
                  && (c1.halt.Some? <==> Misrouted(g, env, node, r.state))
                  && (c1.halt.None? ==> c1.state == r.state && Follows(g, env, node, r.state, c1.cur)))
            && (r.Ran? && r.forced != "" ==> c1.halt.None? && c1.state == r.state && c1.cur == r.forced)
            && (r.Stopped? ==> c1.halt.Some?)
            && c1.trace == c.trace + [node.name] + r.inner
  {
    hide RunNode;
    FoundByName(g, node);
    var r := RunNode(g, env, fuel, ctx, c, node);
    if r.Ran? { Resolved(g, env, node, r.state); }
  }

  /** What the result of a leaf's body makes of its chain, which was in state `s` and had written `writes`: its values
      replace the old ones, conversations it did not touch and loop counters stay; a branch that fails changes nothing,
      and only the top-level chain and its own branches may pause. */
  ghost predicate LeafRan(g: Graph, env: Env, level: nat, node: Node, s: State, writes: set<string>, r: LeafResult,
                          c1: Chain) {
    var after := s.(data := Data(r.values, s.data.histories + r.touched));
    && c1.answer == None
    && (r.Finished? && Misrouted(g, env, node, after) ==> IsFailed(c1))
    && (r.Finished? && !Misrouted(g, env, node, after) ==>
          && c1.halt == None && c1.state == after && c1.writes == writes + r.written
          && Follows(g, env, node, after, c1.cur))
    && (r.Broke? ==>
          && c1.halt == Some(Failed(NodeError(r.message))) && c1.writes == writes
          && c1.state == if level == 0 then after else s)
    && (r.Suspended? && level > 1 ==> c1.halt == Some(Failed(NestedPause)) && c1.state == s)
    && (r.Suspended? && level <= 1 ==>
          && c1.halt == Some(Paused([Interrupt("", node.name, r.reason, r.calls)]))
          && c1.state == after && c1.writes == writes + r.written && c1.cur == node.name)
  }

  /** A turn on a leaf calls its body once, with the values of the chain, its conversations and those around it, and the
      answer that the chain carries. */
  lemma LeafTurn(g: Graph, env: Env, fuel: nat, ctx: Ctx, c: Chain, node: Node)
    requires Valid(g) && Live(ctx, c) && c.left > 0 && node in g.nodes && node.name == c.cur && node.kind.Leaf?
    ensures var d, c1 := c.state.data, Step(g, env, fuel, ctx, c);
            var r := env.leaf(c.cur, View(d.values, ctx.outer + d.histories), c.answer);
            && LeafRan(g, env, ctx.level, node, c.state, c.writes, r, c1)
            && c1.trace == c.trace + [c.cur] && c1.left == c.left - 1
  {
    NextNode(g, env, fuel, ctx, c, node);
    FoundByName(g, node);
    StepSimple(g, env, fuel, ctx, c, node);
  }

  /** A turn on a loop controller, told by its counter and its condition, which is not asked before the first pass: it
      goes into its body once more, fails with the condition, or forgets its counter and leads where its edge says. */
  lemma LoopTurn(g: Graph, env: Env, fuel: nat, ctx: Ctx, c: Chain, node: Node)
    requires Valid(g) && Live(ctx, c) && c.left > 0 && node in g.nodes && node.name == c.cur && node.kind.Loop?
    ensures var s, c1 := c.state, Step(g, env, fuel, ctx, c);
            var done := if c.cur in s.loops then s.loops[c.cur] else 0;
            var until := env.until(c.cur, View(s.data.values, s.data.histories));
            var asked := 0 < done < node.kind.maxIterations;
            var out := s.(loops := s.loops - {c.cur});
            && c1.trace == c.trace + [c.cur] && c1.left == c.left - 1 && c1.answer == None && c1.writes == c.writes
            && (asked && until.Err? ==> c1.halt == Some(Failed(NodeError(until.message))) && c1.state == s)
            && (done == 0 || (asked && until == Ok(false)) ==>
                  && c1.halt == None && c1.cur == node.kind.body
                  && c1.state == s.(loops := s.loops[c.cur := done + 1]))
            && (done >= node.kind.maxIterations || (asked && until == Ok(true)) ==>
                  && (c1.halt.Some? <==> Misrouted(g, env, node, out))
                  && (c1.halt.None? ==> c1.state == out && Follows(g, env, node, out, c1.cur)))
  {
    hide Follows, Misrouted, Step, Valid, RunNode;
    NextNode(g, env, fuel, ctx, c, node);
    FoundByName(g, node);
    TargetsNamed(g, node);
    assert node.kind.maxIterations >= 1 by { NodeIsValid(g, node); }
    StepSimple(g, env, fuel, ctx, c, node);
    LoopNode(g, env, fuel, ctx, c, node);
  }

  lemma LoopNode(g: Graph, env: Env, fuel: nat, ctx: Ctx, c: Chain, node: Node)
    requires node.kind.Loop?
    ensures RunNode(g, env, fuel, ctx, c, node) ==
              RunLoop(env, c.state, node.name, node.kind.body, node.kind.maxIterations)
  {
  }

  lemma NodeIsValid(g: Graph, node: Node)
    requires Valid(g) && node in g.nodes
    ensures ValidNode(g, node)
  {
  }

  /** How a branch of a fan-out starts: on a copy of its parent's values and loop counters, with no conversation of its
      own but those around it in sight, with nothing written and with the whole step budget. */
  ghost predicate BranchRan(g: Graph, env: Env, fuel: nat, ctx: Ctx, c: Chain, entry: Name, r: Chain) {
    var inside := Ctx(ctx.outer + c.state.data.histories, ctx.level + 1, Some(c.cur));
    var copy := State(Data(c.state.data.values, map[]), c.state.loops);
    r == Run(g, env, fuel, inside, Chain(copy, {}, entry, None, [], if g.maxSteps < 0 then 0 else g.maxSteps, None))
  }

  ghost predicate StoppedAs(r: Chain, e: End) {
    e.data == r.state.data && e.writes == r.writes && e.halt == r.halt && e.trace == r.trace
  }

  /** A turn on a fan-out, told by how its branches end (`es`): if they are clean it passes the keys and conversations
      of each on, keeps its own loop counters and leads where its edge says; otherwise it stops and changes nothing. */
  lemma FanTurn(g: Graph, env: Env, fuel: nat, ctx: Ctx, c: Chain, node: Node, rs: seq<Chain>, es: seq<End>)
    requires Valid(g) && Live(ctx, c) && c.left > 0 && node in g.nodes && node.name == c.cur
    requires node.kind.Parallel? && fuel > 0 && |rs| == |node.kind.branches| == |es|
    requires forall i :: 0 <= i < |rs| ==> BranchRan(g, env, fuel - 1, ctx, c, node.kind.branches[i], rs[i])
    requires forall i :: 0 <= i < |rs| ==> StoppedAs(rs[i], es[i])
    ensures var c1 := Step(g, env, fuel, ctx, c);
            && c1.left == c.left - 1 && c1.answer == None
            && (!Clean(es) ==>
                  && c1.halt.Some? && c1.state == c.state && c1.writes == c.writes
                  && CloseFan(c.state.data, node.kind.branches, es) == NotJoined(c1.halt.value))
            && (Clean(es) && c1.halt.Some? ==> IsFailed(c1) && Conditional(c.cur) in g.edges)
            && (Clean(es) && c1.halt.None? ==>
                  && c1.state.loops == c.state.loops && Follows(g, env, node, c1.state, c1.cur)
                  && (forall k :: ValueJoined(c.state.data, es, c1.state.data, k))
                  && (forall n :: HistoryJoined(c.state.data, es, c1.state.data, n))
                  && (forall k :: k in c1.writes <==> k in c.writes || !Unowned(es, k)))
  {
    hide Run, RunNode, Step, Valid, Clean, ValueJoined, HistoryJoined, Unowned, Follows, Misrouted;
    var starts := BranchStarts(g, c.state, node.kind.branches);
    var ran := RunAll(g, env, fuel - 1, BranchCtx(ctx, c.state, node.name), starts);
    FoundByName(g, node);
    NextNode(g, env, fuel, ctx, c, node);
    StepFan(g, env, fuel, ctx, c, node);
    assert ran == rs;
    assert Ends(ran) == es;
    JoinExactly(c.state.data, node.kind.branches, es);
    FanRan(g, env, fuel, ctx, c, node);
  }

  lemma FanRan(g: Graph, env: Env, fuel: nat, ctx: Ctx, c: Chain, node: Node)
    requires node.kind.Parallel? && fuel > 0
    ensures var starts := BranchStarts(g, c.state, node.kind.branches);
            var rs := RunAll(g, env, fuel - 1, BranchCtx(ctx, c.state, node.name), starts);
            RunNode(g, env, fuel, ctx, c, node) == FanResult(c.state, node.kind.branches, Ends(rs))
  {
  }

  // ---- whole runs ----

  /** The nodes that a chain started, each with the state it left and, for a fan-out, the ways of its branches. */
  datatype Way = Done | Visit(node: Name, after: State, branches: seq<Way>, rest: Way)

  /** The nodes of a way in the order in which they are logged. */
  ghost function Logged(way: Way): seq<Name> {
    match way
    case Done => []
    case Visit(node, _, branches, rest) => [node] + LoggedAll(branches) + Logged(rest)
  }

  ghost function LoggedAll(ways: seq<Way>): seq<Name> {
    if ways == [] then [] else Logged(ways[0]) + LoggedAll(ways[1..])
  }

  ghost predicate From(way: Way, entry: Name) {
    way.Visit? ==> way.node == entry
  }

  ghost predicate AllFrom(ways: seq<Way>, entries: seq<Name>) {
    |ways| == |entries| && forall i :: 0 <= i < |ways| ==> From(ways[i], entries[i])
  }

  /** Each node of the way is one of the graph and linked to the next one; every branch of a fan-out on it goes such a
      way from its entry. */
  ghost predicate Along(g: Graph, env: Env, fuel: nat, way: Way) {
    way.Visit? ==>
      && (exists node <- g.nodes ::
            && node.name == way.node
            && (way.rest.Visit? ==> Linked(g, env, node, way.after, way.rest.node))
            && if node.kind.Parallel? && fuel > 0 then AllFrom(way.branches, node.kind.branches)
               else way.branches == [])
      && (forall b <- way.branches :: Along(g, env, fuel - 1, b))
      && Along(g, env, fuel, way.rest)
  }

  /** Where a way ends that leaves the chain as `c`: at its last node if that paused or failed, or where that one leads
      if the chain left the graph or has no steps left. */
  ghost predicate EndsAs(g: Graph, env: Env, way: Way, c: Chain) {
    way.Visit? ==>
      if way.rest.Visit? then EndsAs(g, env, way.rest, c)
      else if c.halt.Some? && c.halt.value != Failed(StepLimit) then c.cur == way.node
      else exists node <- g.nodes :: node.name == way.node && Linked(g, env, node, way.after, c.cur)
  }

  /** What a turn on a node can be: only a loop controller is sent anywhere, into its body and with its counter kept;
      only a fan-out logs more than itself; the step limit is not met on a node. */
  lemma TurnOn(g: Graph, env: Env, fuel: nat, ctx: Ctx, c: Chain, node: Node)
    requires node.kind.Loop? ==> node.kind.body != ""
    ensures var r := RunNode(g, env, fuel, ctx, c, node);
            && (r.Ran? && node.kind.Loop? && node.name in r.state.loops ==> r.forced == node.kind.body)
            && (r.Ran? && !(node.kind.Loop? && node.name in r.state.loops) ==> r.forced == "")
            && (r.Stopped? ==> r.halt != Failed(StepLimit))
            && if node.kind.Parallel? && fuel > 0 then
                 r.inner == Traces(Ends(RunAll(g, env, fuel - 1, BranchCtx(ctx, c.state, node.name),
                                               BranchStarts(g, c.state, node.kind.branches))))
               else r.inner == []
  {
    hide RunAll;
  }

  /** A turn that does not stop the chain takes it to a linked node; one that does is not cut short by the step
      limit. */
  lemma TurnLinked(g: Graph, env: Env, fuel: nat, ctx: Ctx, c: Chain, node: Node)
    requires Valid(g) && Live(ctx, c) && c.left > 0 && node in g.nodes && node.name == c.cur
    ensures var c1 := Step(g, env, fuel, ctx, c);
            && (c1.halt.None? ==> Linked(g, env, node, c1.state, c1.cur))
            && (c1.halt.Some? ==> c1.cur == c.cur && c1.halt.value != Failed(StepLimit))
  {
    hide RunNode, Valid, Follows, Misrouted;
    NextNode(g, env, fuel, ctx, c, node);
    FoundByName(g, node);
    TargetsNamed(g, node);
    TurnOn(g, env, fuel, ctx, c, node);
  }

  /** Links stay in the graph. */
  lemma LinkKnown(g: Graph, env: Env, node: Node, s: State, to: Name)
    requires Valid(g) && node in g.nodes && Linked(g, env, node, s, to)
    ensures to == END || Known(g, to)
  {
    assert ValidNode(g, node);
    var found := FindEdge(g.edges, node.name);
    if found.Some? { assert found.value in g.edges; }
  }

  lemma {:induction false} AllLogged(rs: seq<Chain>, ways: seq<Way>)
    requires |rs| == |ways| && forall i :: 0 <= i < |rs| ==> rs[i].trace == Logged(ways[i])
    ensures Traces(Ends(rs)) == LoggedAll(ways)
  {
    if rs != [] {
      assert Ends(rs)[1..] == Ends(rs[1..]);
      AllLogged(rs[1..], ways[1..]);
    }
  }

  /** Every run of a chain, the top-level one or a branch, is a way along the links of its graph: it starts at the
      chain's node, is what the run logs and ends where the run ends. */
  lemma {:induction false} RunAlong(g: Graph, env: Env, fuel: nat, ctx: Ctx, c: Chain) returns (way: Way)
    requires Valid(g)
    ensures Along(g, env, fuel, way) && From(way, c.cur)
    ensures var d := Run(g, env, fuel, ctx, c); d.trace == c.trace + Logged(way) && EndsAs(g, env, way, d)
    ensures way.Done? <==> !Live(ctx, c) || c.left == 0 || !Known(g, c.cur)
    ensures way.Done? ==> Run(g, env, fuel, ctx, c) == if Live(ctx, c) then Step(g, env, fuel, ctx, c) else c
    decreases fuel, 1, if c.halt.Some? then 0 else c.left + 1
  {
    hide Step, Valid, Linked, Along, EndsAs, LoggedAll;
    Nowhere(g, env, fuel, Run(g, env, fuel, ctx, c));
    if !Live(ctx, c) { return Done; }
    var c1 := Step(g, env, fuel, ctx, c);
    var found := FindNode(g.nodes, c.cur);
    var rest := RunAlong(g, env, fuel, ctx, c1);
    if c.left == 0 || found.None? {
      HaltedAtOnce(g, env, fuel, ctx, c);
      return Done;
    }
    var node := found.value;
    var branches := BranchesAlong(g, env, fuel, ctx, c, node);
    TurnLinked(g, env, fuel, ctx, c, node);
    if c1.halt.None? { LinkKnown(g, env, node, c1.state, c1.cur); }
    if Live(ctx, c1) && c1.left == 0 { HaltedAtOnce(g, env, fuel, ctx, c1); }
    way := Visit(c.cur, c1.state, branches, rest);
    Onward(g, env, fuel, node, c1, branches, rest, Run(g, env, fuel, ctx, c1));
  }

  /** A way goes on from a turn of `node` that left `c1`, to the end `d`. */
  lemma Onward(g: Graph, env: Env, fuel: nat, node: Node, c1: Chain, branches: seq<Way>, rest: Way, d: Chain)
    requires node in g.nodes && From(rest, c1.cur) && Along(g, env, fuel, rest) && EndsAs(g, env, rest, d)
    requires if node.kind.Parallel? && fuel > 0 then AllFrom(branches, node.kind.branches) else branches == []
    requires forall b <- branches :: fuel > 0 && Along(g, env, fuel - 1, b)
    requires c1.halt.None? ==> Linked(g, env, node, c1.state, c1.cur)
    requires c1.halt.Some? ==> rest.Done? && d == c1 && c1.cur == node.name && c1.halt.value != Failed(StepLimit)
    requires rest.Done? && c1.halt.None? ==> d.cur == c1.cur && (d.halt.None? || d.halt.value == Failed(StepLimit))
    ensures var way := Visit(node.name, c1.state, branches, rest);
            Along(g, env, fuel, way) && EndsAs(g, env, way, d)
  {
    hide Linked;
  }

  lemma Nowhere(g: Graph, env: Env, fuel: nat, c: Chain)
    ensures Along(g, env, fuel, Done) && EndsAs(g, env, Done, c)
  {
  }

  lemma HaltedAtOnce(g: Graph, env: Env, fuel: nat, ctx: Ctx, c: Chain)
    requires Live(ctx, c) && (c.left == 0 || FindNode(g.nodes, c.cur).None?)
    ensures Step(g, env, fuel, ctx, c) == c.(halt := Some(Failed(if c.left == 0 then StepLimit else UnknownNode)))
  {
  }

  /** The ways of the branches of the fan-out that the chain is at; other nodes have none. */
  lemma {:induction false} BranchesAlong(g: Graph, env: Env, fuel: nat, ctx: Ctx, c: Chain, node: Node)
    returns (branches: seq<Way>)
    requires Valid(g) && Live(ctx, c) && c.left > 0 && node in g.nodes && node.name == c.cur
    ensures Step(g, env, fuel, ctx, c).trace == c.trace + [c.cur] + LoggedAll(branches)
    ensures if node.kind.Parallel? && fuel > 0 then AllFrom(branches, node.kind.branches) else branches == []
    ensures forall b <- branches :: fuel > 0 && Along(g, env, fuel - 1, b)
    decreases fuel, 0
  {
    hide RunNode, Run, RunAll, Step, Valid, Along, Follows, Misrouted;
    NextNode(g, env, fuel, ctx, c, node);
    TargetsNamed(g, node);
    TurnOn(g, env, fuel, ctx, c, node);
    branches := [];
    if node.kind.Parallel? && fuel > 0 {
      var inside := BranchCtx(ctx, c.state, node.name);
      branches := StartsAlong(g, env, fuel - 1, inside, BranchStarts(g, c.state, node.kind.branches));
      hide BranchStart;
    }
  }

  lemma {:induction false} StartsAlong(g: Graph, env: Env, fuel: nat, ctx: Ctx, starts: seq<Chain>)
    returns (ways: seq<Way>)
    requires Valid(g) && forall i :: 0 <= i < |starts| ==> starts[i].trace == []
    ensures |ways| == |starts| && forall i :: 0 <= i < |ways| ==> From(ways[i], starts[i].cur)
    ensures forall b <- ways :: Along(g, env, fuel, b)
    ensures Traces(Ends(RunAll(g, env, fuel, ctx, starts))) == LoggedAll(ways)
    decreases fuel, 2
  {
    hide Run, Valid, Along, From;
    ways := [];
    for i := 0 to |starts|
      invariant |ways| == i
      invariant forall j :: 0 <= j < i ==> From(ways[j], starts[j].cur)
      invariant forall j :: 0 <= j < i ==> Along(g, env, fuel, ways[j])
      invariant forall j :: 0 <= j < i ==> Run(g, env, fuel, ctx, starts[j]).trace == Logged(ways[j])
    {
      var way := RunAlong(g, env, fuel, ctx, starts[i]);
      assert starts[i].trace + Logged(way) == Logged(way);
      ways := ways + [way];
    }
    AllLogged(RunAll(g, env, fuel, ctx, starts), ways);
  }
}
