/** However the turns of nested fan-outs are interleaved, there are as many of them. */
module ScheduleLengths {
  import opened Options
  import opened Graphs
  import opened Executor
  import opened NestedSchedules

  /** How many turns a chain takes to its end: one for each node, and two and those of its branches for a fan-out. */
  function Turns(g: Graph, env: Env, fuel: nat, ctx: Ctx, c: Chain): nat
    decreases fuel, 1, if c.halt.Some? then 0 else c.left + 1
  {
    if !Live(ctx, c) then 0
    else if Opens(g, fuel, ctx, c) then
      var node := FindNode(g.nodes, c.cur).value;
      var starts := BranchStarts(g, c.state, node.kind.branches);
      1 + TurnsAll(g, env, fuel - 1, BranchCtx(ctx, c.state, node.name), starts) + 1 +
      Turns(g, env, fuel, ctx, Step(g, env, fuel, ctx, c))
    else 1 + Turns(g, env, fuel, ctx, Step(g, env, fuel, ctx, c))
  }

  function TurnsAll(g: Graph, env: Env, fuel: nat, ctx: Ctx, cs: seq<Chain>): nat
    decreases fuel, 2, |cs|
  {
    if cs == [] then 0 else
    var n := |cs| - 1;
    TurnsAll(g, env, fuel, ctx, cs[..n]) + Turns(g, env, fuel, ctx, cs[n])
  }

  /** How many turns are left to a tree: those of its branches, the join, and those of the chain after it. */
  function Left(g: Graph, env: Env, fuel: nat, ctx: Ctx, t: Tree): nat
    requires Shaped(g, fuel, ctx, t)
    decreases t, 0
  {
    if t.fork.None? then Turns(g, env, fuel, ctx, t.chain)
    else
      var ends := FinishAll(g, env, fuel - 1, Inside(ctx, t), t.fork.value.branches);
      LeftAll(g, env, fuel - 1, Inside(ctx, t), t.fork.value.branches) + 1 +
      Turns(g, env, fuel, ctx, AfterJoin(g, env, ctx, t, ends))
  }

  function LeftAll(g: Graph, env: Env, fuel: nat, ctx: Ctx, ts: seq<Tree>): nat
    requires forall i :: 0 <= i < |ts| ==> Shaped(g, fuel, ctx, ts[i])
    decreases ts, 1
  {
    if ts == [] then 0 else
    var n := |ts| - 1;
    LeftAll(g, env, fuel, ctx, ts[..n]) + Left(g, env, fuel, ctx, ts[n])
  }

  lemma {:induction false} OneLess(g: Graph, env: Env, fuel: nat, ctx: Ctx, ts: seq<Tree>, i: nat, b: Tree)
    requires i < |ts| && (forall k :: 0 <= k < |ts| ==> Shaped(g, fuel, ctx, ts[k])) && Shaped(g, fuel, ctx, b)
    requires Left(g, env, fuel, ctx, ts[i]) == Left(g, env, fuel, ctx, b) + 1
    ensures LeftAll(g, env, fuel, ctx, ts) == LeftAll(g, env, fuel, ctx, ts[i := b]) + 1
    decreases |ts|
  {
    hide Left, Shaped;
    var n := |ts| - 1;
    if i < n {
      OneLess(g, env, fuel, ctx, ts[..n], i, b);
      assert ts[i := b][..n] == ts[..n][i := b];
    } else {
      assert ts[i := b][..n] == ts[..n];
    }
  }

  lemma {:induction false} AllDone(g: Graph, env: Env, fuel: nat, ctx: Ctx, ts: seq<Tree>)
    requires AllAtRest(ctx, ts)
    ensures (forall i :: 0 <= i < |ts| ==> Shaped(g, fuel, ctx, ts[i])) && LeftAll(g, env, fuel, ctx, ts) == 0
    decreases |ts|
  {
    if ts != [] { AllDone(g, env, fuel, ctx, ts[..|ts| - 1]); }
  }

  lemma {:induction false} StartsLeft(g: Graph, env: Env, fuel: nat, ctx: Ctx, ts: seq<Tree>)
    requires forall i :: 0 <= i < |ts| ==> ts[i].fork.None?
    ensures (forall i :: 0 <= i < |ts| ==> Shaped(g, fuel, ctx, ts[i]))
    ensures LeftAll(g, env, fuel, ctx, ts) == TurnsAll(g, env, fuel, ctx, Chains(ts))
    decreases |ts|
  {
    hide Turns;
    if ts != [] {
      var n := |ts| - 1;
      StartsLeft(g, env, fuel, ctx, ts[..n]);
      assert Chains(ts)[..n] == Chains(ts[..n]);
    }
  }

  /** Each turn, at whatever depth, is one of them. */
  lemma {:induction false} MoveCounts(g: Graph, env: Env, fuel: nat, ctx: Ctx, t: Tree, path: seq<nat>)
    requires Shaped(g, fuel, ctx, t) && Can(g, fuel, ctx, t, path)
    ensures Shaped(g, fuel, ctx, Move(g, env, fuel, ctx, t, path))
    ensures Left(g, env, fuel, ctx, t) == Left(g, env, fuel, ctx, Move(g, env, fuel, ctx, t, path)) + 1
    decreases path
  {
    hide Step, Settle, FanResult, Run;
    MoveKeepsFinish(g, env, fuel, ctx, t, path);
    if path != [] {
      DeeperCounts(g, env, fuel, ctx, t, path);
    } else if t.fork.Some? {
      var bs := t.fork.value.branches;
      AllDone(g, env, fuel - 1, Inside(ctx, t), bs);
      assert FinishAll(g, env, fuel - 1, Inside(ctx, t), bs) == Chains(bs) by {
        RestEnds(g, env, fuel - 1, Inside(ctx, t), bs);
      }
    } else if Opens(g, fuel, ctx, t.chain) {
      OpenCounts(g, env, fuel, ctx, t, FindNode(g.nodes, t.chain.cur).value);
    }
  }

  lemma RestEnds(g: Graph, env: Env, fuel: nat, ctx: Ctx, ts: seq<Tree>)
    requires AllAtRest(ctx, ts) && forall i :: 0 <= i < |ts| ==> Shaped(g, fuel, ctx, ts[i])
    ensures FinishAll(g, env, fuel, ctx, ts) == Chains(ts)
  {
    hide Step;
  }

  lemma {:induction false} DeeperCounts(g: Graph, env: Env, fuel: nat, ctx: Ctx, t: Tree, path: seq<nat>)
    requires Shaped(g, fuel, ctx, t) && path != [] && Can(g, fuel, ctx, t, path)
    requires Shaped(g, fuel, ctx, Move(g, env, fuel, ctx, t, path))
    ensures Left(g, env, fuel, ctx, t) == Left(g, env, fuel, ctx, Move(g, env, fuel, ctx, t, path)) + 1
    decreases path, 0
  {
    hide Run, Settle, FanResult, Step, Turns, Finish;
    var i, bs, inside := path[0], t.fork.value.branches, Inside(ctx, t);
    var b := Move(g, env, fuel - 1, inside, bs[i], path[1..]);
    MoveCounts(g, env, fuel - 1, inside, bs[i], path[1..]);
    MoveKeepsFinish(g, env, fuel - 1, inside, bs[i], path[1..]);
    OneLess(g, env, fuel - 1, inside, bs, i, b);
    var u := Move(g, env, fuel, ctx, t, path);
    assert u.fork.value.branches == bs[i := b] && Inside(ctx, u) == inside;
    assert FinishAll(g, env, fuel - 1, inside, bs[i := b]) == FinishAll(g, env, fuel - 1, inside, bs);
  }

  /** The fan-out that the chain opens, and the chain after it if the branches run to their ends. */
  lemma Opened(g: Graph, env: Env, fuel: nat, ctx: Ctx, c: Chain)
    requires Opens(g, fuel, ctx, c)
    ensures var node := FindNode(g.nodes, c.cur).value;
            var inside, starts := BranchCtx(ctx, c.state, node.name), BranchStarts(g, c.state, node.kind.branches);
            var u := Tree(c, Some(Fork(node, Starts(g, c.state, node.kind.branches))));
            && Move(g, env, fuel, ctx, Tree(c, None), []) == u && Inside(ctx, u) == inside
            && Chains(u.fork.value.branches) == starts
            && AfterJoin(g, env, ctx, u, RunAll(g, env, fuel - 1, inside, starts)) == Step(g, env, fuel, ctx, c)
  {
    hide Settle, FanResult, Run, Step;
    StepFan(g, env, fuel, ctx, c, FindNode(g.nodes, c.cur).value);
  }

  lemma OpenCounts(g: Graph, env: Env, fuel: nat, ctx: Ctx, t: Tree, node: Node)
    requires t.fork.None? && Opens(g, fuel, ctx, t.chain) && Shaped(g, fuel, ctx, t) && Can(g, fuel, ctx, t, [])
    requires FindNode(g.nodes, t.chain.cur) == Some(node) && node.kind.Parallel?
    requires Shaped(g, fuel, ctx, Move(g, env, fuel, ctx, t, []))
    ensures Left(g, env, fuel, ctx, t) == Left(g, env, fuel, ctx, Move(g, env, fuel, ctx, t, [])) + 1
  {
    hide *;
    var c, u := t.chain, Move(g, env, fuel, ctx, t, []);
    assert t == Tree(c, None);
    LeftChain(g, env, fuel, ctx, t);
    Opened(g, env, fuel, ctx, c);
    TurnsOpened(g, env, fuel, ctx, c);
    LeftForked(g, env, fuel, ctx, u);
    var bs, inside := u.fork.value.branches, Inside(ctx, u);
    StartsPlain(g, c.state, node.kind.branches);
    StartsLeft(g, env, fuel - 1, inside, bs);
    StartsEnd(g, env, fuel - 1, inside, bs);
  }

  lemma StartsPlain(g: Graph, s: State, entries: seq<Name>)
    ensures forall i :: 0 <= i < |entries| ==> Starts(g, s, entries)[i].fork.None?
  {
  }

  lemma LeftChain(g: Graph, env: Env, fuel: nat, ctx: Ctx, t: Tree)
    requires t.fork.None?
    ensures Shaped(g, fuel, ctx, t) && Left(g, env, fuel, ctx, t) == Turns(g, env, fuel, ctx, t.chain)
  {
  }

  lemma LeftForked(g: Graph, env: Env, fuel: nat, ctx: Ctx, t: Tree)
    requires Shaped(g, fuel, ctx, t) && t.fork.Some?
    ensures var bs, inside := t.fork.value.branches, Inside(ctx, t);
            && fuel > 0 && (forall i :: 0 <= i < |bs| ==> Shaped(g, fuel - 1, inside, bs[i]))
            && Left(g, env, fuel, ctx, t) ==
               LeftAll(g, env, fuel - 1, inside, bs) + 1 +
               Turns(g, env, fuel, ctx, AfterJoin(g, env, ctx, t, FinishAll(g, env, fuel - 1, inside, bs)))
  {
    hide Turns, LeftAll, AfterJoin, FinishAll;
  }

  lemma TurnsOpened(g: Graph, env: Env, fuel: nat, ctx: Ctx, c: Chain)
    requires Opens(g, fuel, ctx, c)
    ensures var node := FindNode(g.nodes, c.cur).value;
            Turns(g, env, fuel, ctx, c) ==
              2 + Turns(g, env, fuel, ctx, Step(g, env, fuel, ctx, c)) +
              TurnsAll(g, env, fuel - 1, BranchCtx(ctx, c.state, node.name),
                       BranchStarts(g, c.state, node.kind.branches))
  {
    hide Step, TurnsAll;
  }

  lemma StartsEnd(g: Graph, env: Env, fuel: nat, ctx: Ctx, ts: seq<Tree>)
    requires forall i :: 0 <= i < |ts| ==> ts[i].fork.None? && Shaped(g, fuel, ctx, ts[i])
    ensures FinishAll(g, env, fuel, ctx, ts) == RunAll(g, env, fuel, ctx, Chains(ts))
  {
    hide Run;
    assert forall i :: 0 <= i < |ts| ==> Finish(g, env, fuel, ctx, ts[i]) == Run(g, env, fuel, ctx, ts[i].chain);
  }

  /** So every schedule takes the same number of turns to come to rest, and comes to rest. */
  lemma {:induction false} SameLength(g: Graph, env: Env, fuel: nat, ctx: Ctx, t: Tree, turns: seq<seq<nat>>, u: Tree)
    requires Shaped(g, fuel, ctx, t) && Leads(g, env, fuel, ctx, t, turns, u)
    ensures Shaped(g, fuel, ctx, u) && Left(g, env, fuel, ctx, t) == |turns| + Left(g, env, fuel, ctx, u)
    ensures AtRest(ctx, u) <==> |turns| == Left(g, env, fuel, ctx, t)
    decreases |turns|
  {
    hide Move, Can, Left, Shaped;
    if turns != [] {
      MoveCounts(g, env, fuel, ctx, t, turns[0]);
      SameLength(g, env, fuel, ctx, Move(g, env, fuel, ctx, t, turns[0]), turns[1..], u);
    } else {
      RestExactly(g, env, fuel, ctx, u);
    }
  }

  lemma RestExactly(g: Graph, env: Env, fuel: nat, ctx: Ctx, t: Tree)
    requires Shaped(g, fuel, ctx, t)
    ensures AtRest(ctx, t) <==> Left(g, env, fuel, ctx, t) == 0
  {
  }
}
