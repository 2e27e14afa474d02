/** Fan-outs inside the branches of fan-outs, with the turns of all their branches interleaved in any way. */
module NestedSchedules {
  import opened Options
  import opened Graphs
  import opened Executor

  /** A chain, and the fan-out it is in the middle of with its branches, which may be in fan-outs themselves. */
  datatype Tree = Tree(chain: Chain, fork: Option<Fork>)
  datatype Fork = Fork(node: Node, branches: seq<Tree>)

  predicate Opens(g: Graph, fuel: nat, ctx: Ctx, c: Chain) {
    && Live(ctx, c) && c.left > 0 && fuel > 0
    && FindNode(g.nodes, c.cur).Some? && FindNode(g.nodes, c.cur).value.kind.Parallel?
  }

  function Inside(ctx: Ctx, t: Tree): Ctx
    requires t.fork.Some?
  {
    BranchCtx(ctx, t.chain.state, t.fork.value.node.name)
  }

  /** A fan-out in progress is that of the node the chain stands on. */
  predicate Shaped(g: Graph, fuel: nat, ctx: Ctx, t: Tree)
    decreases t
  {
    t.fork.Some? ==>
      && Opens(g, fuel, ctx, t.chain) && FindNode(g.nodes, t.chain.cur) == Some(t.fork.value.node)
      && |t.fork.value.branches| == |t.fork.value.node.kind.branches|
      && forall i :: 0 <= i < |t.fork.value.branches| ==> Shaped(g, fuel - 1, Inside(ctx, t), t.fork.value.branches[i])
  }

  /** The chain after the join of its fan-out, whose branches ended as `rs`. */
  function AfterJoin(g: Graph, env: Env, ctx: Ctx, t: Tree, rs: seq<Chain>): Chain
    requires t.fork.Some? && t.chain.left > 0 && t.fork.value.node.kind.Parallel?
    requires |rs| == |t.fork.value.node.kind.branches|
  {
    Settle(g, env, ctx, t.chain, t.fork.value.node, FanResult(t.chain.state, t.fork.value.node.kind.branches, Ends(rs)))
  }

  /** What the tree ends with when all that is left runs one after the other, left to right. */
  function Finish(g: Graph, env: Env, fuel: nat, ctx: Ctx, t: Tree): Chain
    requires Shaped(g, fuel, ctx, t)
    decreases t, 0
  {
    if t.fork.None? then Run(g, env, fuel, ctx, t.chain)
    else
      var ends := FinishAll(g, env, fuel - 1, Inside(ctx, t), t.fork.value.branches);
      Run(g, env, fuel, ctx, AfterJoin(g, env, ctx, t, ends))
  }

  function FinishAll(g: Graph, env: Env, fuel: nat, ctx: Ctx, ts: seq<Tree>): (rs: seq<Chain>)
    requires forall i :: 0 <= i < |ts| ==> Shaped(g, fuel, ctx, ts[i])
    ensures |rs| == |ts|
    ensures forall i :: 0 <= i < |ts| ==> rs[i] == Finish(g, env, fuel, ctx, ts[i])
    decreases ts, 1
  {
    if ts == [] then [] else
    var n := |ts| - 1;
    FinishAll(g, env, fuel, ctx, ts[..n]) + [Finish(g, env, fuel, ctx, ts[n])]
  }

  predicate AtRest(ctx: Ctx, t: Tree) {
    t.fork.None? && !Live(ctx, t.chain)
  }

  predicate AllAtRest(ctx: Ctx, ts: seq<Tree>) {
    forall i :: 0 <= i < |ts| ==> AtRest(ctx, ts[i])
  }

  /** A turn of the chain that `path` leads to, branch by branch. */
  predicate Can(g: Graph, fuel: nat, ctx: Ctx, t: Tree, path: seq<nat>)
    requires Shaped(g, fuel, ctx, t)
    decreases path
  {
    if path == [] then
      if t.fork.None? then Live(ctx, t.chain)
      else AllAtRest(Inside(ctx, t), t.fork.value.branches)
    else
      && t.fork.Some? && path[0] < |t.fork.value.branches|
      && Can(g, fuel - 1, Inside(ctx, t), t.fork.value.branches[path[0]], path[1..])
  }

  function Chains(ts: seq<Tree>): (cs: seq<Chain>)
    ensures |cs| == |ts|
  {
    seq(|ts|, i requires 0 <= i < |ts| => ts[i].chain)
  }

  function Starts(g: Graph, s: State, entries: seq<Name>): (ts: seq<Tree>)
    ensures |ts| == |entries|
  {
    seq(|entries|, i requires 0 <= i < |entries| => Tree(BranchStart(g, s, entries[i]), None))
  }

  /** One turn: a node, the start of a fan-out or its join. */
  function Move(g: Graph, env: Env, fuel: nat, ctx: Ctx, t: Tree, path: seq<nat>): Tree
    requires Shaped(g, fuel, ctx, t) && Can(g, fuel, ctx, t, path)
    decreases path
  {
    if path == [] then
      if t.fork.Some? then Tree(AfterJoin(g, env, ctx, t, Chains(t.fork.value.branches)), None)
      else if Opens(g, fuel, ctx, t.chain) then
        var node := FindNode(g.nodes, t.chain.cur).value;
        Tree(t.chain, Some(Fork(node, Starts(g, t.chain.state, node.kind.branches))))
      else Tree(Step(g, env, fuel, ctx, t.chain), None)
    else
      var fork := t.fork.value;
      var b := Move(g, env, fuel - 1, Inside(ctx, t), fork.branches[path[0]], path[1..]);
      t.(fork := Some(fork.(branches := fork.branches[path[0] := b])))
  }

  /** No turn, at whatever depth, changes what the tree ends with. */
  lemma {:induction false} MoveKeepsFinish(g: Graph, env: Env, fuel: nat, ctx: Ctx, t: Tree, path: seq<nat>)
    requires Shaped(g, fuel, ctx, t) && Can(g, fuel, ctx, t, path)
    ensures Shaped(g, fuel, ctx, Move(g, env, fuel, ctx, t, path))
    ensures Finish(g, env, fuel, ctx, Move(g, env, fuel, ctx, t, path)) == Finish(g, env, fuel, ctx, t)
    decreases path
  {
    hide Step, Settle, FanResult;
    if path != [] {
      Deeper(g, env, fuel, ctx, t, path);
    } else if t.fork.Some? {
      JoinNow(g, env, fuel, ctx, t);
    } else if Opens(g, fuel, ctx, t.chain) {
      OpenNow(g, env, fuel, ctx, t);
    } else {
      assert Run(g, env, fuel, ctx, t.chain) == Run(g, env, fuel, ctx, Step(g, env, fuel, ctx, t.chain));
    }
  }

  lemma {:induction false} Deeper(g: Graph, env: Env, fuel: nat, ctx: Ctx, t: Tree, path: seq<nat>)
    requires Shaped(g, fuel, ctx, t) && path != [] && Can(g, fuel, ctx, t, path)
    ensures Shaped(g, fuel, ctx, Move(g, env, fuel, ctx, t, path))
    ensures Finish(g, env, fuel, ctx, Move(g, env, fuel, ctx, t, path)) == Finish(g, env, fuel, ctx, t)
    decreases path, 0
  {
    hide Run, Settle, FanResult, Step, Finish;
    var i := path[0];
    var b := t.fork.value.branches[i];
    MoveKeepsFinish(g, env, fuel - 1, Inside(ctx, t), b, path[1..]);
    OneBranch(g, env, fuel, ctx, t, i, Move(g, env, fuel - 1, Inside(ctx, t), b, path[1..]));
  }

  /** A branch replaced by one that ends alike. */
  lemma OneBranch(g: Graph, env: Env, fuel: nat, ctx: Ctx, t: Tree, i: nat, c: Tree)
    requires Shaped(g, fuel, ctx, t) && t.fork.Some? && i < |t.fork.value.branches|
    requires Shaped(g, fuel - 1, Inside(ctx, t), c)
    requires Finish(g, env, fuel - 1, Inside(ctx, t), c) ==
             Finish(g, env, fuel - 1, Inside(ctx, t), t.fork.value.branches[i])
    ensures var u := t.(fork := Some(t.fork.value.(branches := t.fork.value.branches[i := c])));
            Shaped(g, fuel, ctx, u) && Finish(g, env, fuel, ctx, u) == Finish(g, env, fuel, ctx, t)
  {
    hide Run, Settle, FanResult, FindNode;
    var bs, inside := t.fork.value.branches, Inside(ctx, t);
    var cs := bs[i := c];
    var u := t.(fork := Some(t.fork.value.(branches := cs)));
    assert Inside(ctx, u) == inside;
    assert FinishAll(g, env, fuel - 1, inside, cs) == FinishAll(g, env, fuel - 1, inside, bs);
  }

  lemma JoinNow(g: Graph, env: Env, fuel: nat, ctx: Ctx, t: Tree)
    requires Shaped(g, fuel, ctx, t) && t.fork.Some? && Can(g, fuel, ctx, t, [])
    ensures Finish(g, env, fuel, ctx, Move(g, env, fuel, ctx, t, [])) == Finish(g, env, fuel, ctx, t)
  {
    hide Step, Settle, FanResult;
    var bs := t.fork.value.branches;
    assert FinishAll(g, env, fuel - 1, Inside(ctx, t), bs) == Chains(bs);
  }

  lemma OpenNow(g: Graph, env: Env, fuel: nat, ctx: Ctx, t: Tree)
    requires t.fork.None? && Opens(g, fuel, ctx, t.chain)
    ensures Shaped(g, fuel, ctx, Move(g, env, fuel, ctx, t, []))
    ensures Finish(g, env, fuel, ctx, Move(g, env, fuel, ctx, t, [])) == Finish(g, env, fuel, ctx, t)
  {
    hide Settle, FanResult;
    var node := FindNode(g.nodes, t.chain.cur).value;
    var u := Move(g, env, fuel, ctx, t, []);
    StepFan(g, env, fuel, ctx, t.chain, node);
    var bs := u.fork.value.branches;
    var starts := BranchStarts(g, t.chain.state, node.kind.branches);
    assert FinishAll(g, env, fuel - 1, Inside(ctx, u), bs) == RunAll(g, env, fuel - 1, Inside(ctx, u), starts);
    assert Run(g, env, fuel, ctx, t.chain) == Run(g, env, fuel, ctx, Step(g, env, fuel, ctx, t.chain));
  }

  /** While a tree is not at rest, some turn is possible. */
  lemma {:induction false} SomeTurn(g: Graph, fuel: nat, ctx: Ctx, t: Tree) returns (path: seq<nat>)
    requires Shaped(g, fuel, ctx, t) && !AtRest(ctx, t)
    ensures Can(g, fuel, ctx, t, path)
    decreases t
  {
    hide FindNode;
    path := [];
    if t.fork.Some? && !AllAtRest(Inside(ctx, t), t.fork.value.branches) {
      var bs := t.fork.value.branches;
      var i: nat :| i < |bs| && !AtRest(Inside(ctx, t), bs[i]);
      var rest := SomeTurn(g, fuel - 1, Inside(ctx, t), bs[i]);
      path := [i] + rest;
      assert path[1..] == rest;
    }
  }

  /** `t` can become `u` by these turns. */
  ghost predicate Leads(g: Graph, env: Env, fuel: nat, ctx: Ctx, t: Tree, turns: seq<seq<nat>>, u: Tree)
    decreases |turns|
  {
    if turns == [] then t == u
    else Shaped(g, fuel, ctx, t) && Can(g, fuel, ctx, t, turns[0]) &&
         Leads(g, env, fuel, ctx, Move(g, env, fuel, ctx, t, turns[0]), turns[1..], u)
  }

  /** Whatever order the turns of all branches at all depths came in: a tree that has come to rest is the chain that ran
      its fan-outs left to right, one branch after the other. */
  lemma {:induction false} AnyInterleaving(g: Graph, env: Env, fuel: nat, ctx: Ctx, t: Tree, turns: seq<seq<nat>>,
                                           u: Tree)
    requires Shaped(g, fuel, ctx, t) && Leads(g, env, fuel, ctx, t, turns, u)
    ensures Shaped(g, fuel, ctx, u) && Finish(g, env, fuel, ctx, u) == Finish(g, env, fuel, ctx, t)
    ensures (forall path :: !Can(g, fuel, ctx, u, path)) ==>
              u.fork.None? && u.chain == Finish(g, env, fuel, ctx, t)
    decreases |turns|
  {
    hide Step, Settle, FanResult;
    if turns != [] {
      MoveKeepsFinish(g, env, fuel, ctx, t, turns[0]);
      AnyInterleaving(g, env, fuel, ctx, Move(g, env, fuel, ctx, t, turns[0]), turns[1..], u);
    } else if !AtRest(ctx, u) {
      var path := SomeTurn(g, fuel, ctx, u);
    }
  }
}
