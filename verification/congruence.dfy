/** Chains that differ only in `temp:` values run alike, when nodes do not depend on those values. */
module Congruence {
  import opened Options
  import opened Graphs
  import opened Executor

  predicate TempKey(k: string) {
    "temp:" <= k
  }

  /** What a checkpoint keeps of the values. */
  function Strip(values: map<string, string>): map<string, string> {
    map k | k in values && !TempKey(k) :: values[k]
  }

  ghost predicate SameValues(a: map<string, string>, b: map<string, string>) {
    Strip(a) == Strip(b)
  }

  lemma SameValuesAt(a: map<string, string>, b: map<string, string>)
    ensures SameValues(a, b) <==> forall k :: !TempKey(k) ==> (k in a <==> k in b) && (k in a ==> a[k] == b[k])
  {
    if SameValues(a, b) {
      forall k | !TempKey(k) ensures (k in a <==> k in b) && (k in a ==> a[k] == b[k]) {
        assert k in a <==> k in Strip(a);
        assert k in b <==> k in Strip(b);
      }
    }
  }

  lemma SameValuesPlus(a: map<string, string>, b: map<string, string>, c: map<string, string>, d: map<string, string>)
    requires SameValues(a, b) && SameValues(c, d)
    ensures SameValues(a + c, b + d)
  {
    SameValuesAt(a, b);
    SameValuesAt(c, d);
    SameValuesAt(a + c, b + d);
  }

  // ---- nodes that depend only on per-thread state ----

  ghost predicate SameLeaf(a: LeafResult, b: LeafResult) {
    match (a, b)
    case (Finished(v, t, w), Finished(v', t', w')) => SameValues(v, v') && t == t' && w == w'
    case (Broke(v, t, m), Broke(v', t', m')) => SameValues(v, v') && t == t' && m == m'
    case (Suspended(v, t, w, r, c), Suspended(v', t', w', r', c')) =>
      SameValues(v, v') && t == t' && w == w' && r == r' && c == c'
    case _ => false
  }

  /** `temp:` keys stay in the values: a node may add some but removes none. */
  ghost predicate KeepsTemp(before: map<string, string>, r: LeafResult) {
    r.Finished? ==> forall k | TempKey(k) && (k in before || k in r.written) :: k in r.values
  }

  /** Nodes, loop conditions and routers do not look at `temp:` values. */
  ghost predicate PerThread(env: Env) {
    && (forall n, v: View, v': View, a | SameValues(v.values, v'.values) && v.histories == v'.histories ::
          SameLeaf(env.leaf(n, v, a), env.leaf(n, v', a)))
    && (forall n, v: View, a :: KeepsTemp(v.values, env.leaf(n, v, a)))
    && (forall n, v: View, v': View | SameValues(v.values, v'.values) && v.histories == v'.histories ::
          env.until(n, v) == env.until(n, v') && env.route(n, v) == env.route(n, v'))
  }

  // ---- chains that differ in temp: values only ----

  ghost predicate SameData(a: Data, b: Data) {
    SameValues(a.values, b.values) && a.histories == b.histories
  }

  ghost predicate SameState(a: State, b: State) {
    SameData(a.data, b.data) && a.loops == b.loops
  }

  ghost predicate TempHeld(writes: set<string>, values: map<string, string>) {
    forall k <- writes :: TempKey(k) ==> k in values
  }

  /** Everything a later node or the join can observe is equal. The written keys of the top-level
      chain are not observable. */
  ghost predicate Alike(level: nat, a: Chain, b: Chain) {
    && SameState(a.state, b.state)
    && a.cur == b.cur && a.halt == b.halt && a.answer == b.answer
    && (level > 0 ==> a.writes == b.writes)
    && (level > 1 ==> TempHeld(a.writes, a.state.data.values) && TempHeld(b.writes, b.state.data.values))
  }

  ghost predicate HitLimit(c: Chain) {
    c.halt == Some(Failed(StepLimit))
  }

  // ---- one node ----

  ghost predicate SameResult(level: nat, a: NodeResult, b: NodeResult) {
    && SameState(a.state, b.state)
    && (level > 0 ==> a.written == b.written)
    && (a.Ran? <==> b.Ran?)
    && (a.Ran? ==> a.forced == b.forced)
    && (a.Stopped? ==> a.halt == b.halt)
  }

  lemma LeafAlike(env: Env, ctx: Ctx, a: Chain, b: Chain, name: Name)
    requires PerThread(env) && Alike(ctx.level, a, b)
    ensures SameResult(ctx.level, RunLeaf(env, ctx, a, name), RunLeaf(env, ctx, b, name))
  {
    var va := View(a.state.data.values, ctx.outer + a.state.data.histories);
    var vb := View(b.state.data.values, ctx.outer + b.state.data.histories);
    assert SameLeaf(env.leaf(name, va, a.answer), env.leaf(name, vb, b.answer));
  }

  lemma LoopAlike(env: Env, level: nat, a: State, b: State, name: Name, body: Name, maxIterations: int)
    requires PerThread(env) && SameState(a, b)
    ensures SameResult(level, RunLoop(env, a, name, body, maxIterations), RunLoop(env, b, name, body, maxIterations))
  {
    var va, vb := View(a.data.values, a.data.histories), View(b.data.values, b.data.histories);
    assert env.until(name, va) == env.until(name, vb);
  }

  // ---- the join ----

  /** `held`: written `temp:` keys still hold values, as in a fan-out that ran in one go. */
  ghost predicate SameEnd(held: bool, a: End, b: End) {
    && SameData(a.data, b.data) && a.writes == b.writes && a.halt == b.halt
    && (held ==> TempHeld(a.writes, a.data.values) && TempHeld(b.writes, b.data.values))
  }

  /** Equal, or the left one ran out of steps. */
  ghost predicate SameOrLimit(held: bool, a: End, b: End) {
    a.halt == Some(Failed(StepLimit)) || SameEnd(held, a, b)
  }

  ghost predicate BranchHitLimit(r: Joined) {
    r.NotJoined? && r.halt.Failed? && r.halt.error.BranchFailed? && r.halt.error.error == StepLimit
  }

  ghost predicate SameJoin(held: bool, a: Joined, b: Joined) {
    match (a, b)
    case (Joined(d, w), Joined(d', w')) => SameData(d, d') && (held ==> w == w')
    case (NotJoined(h), NotJoined(h')) => h == h'
    case _ => false
  }

  lemma OwnedAlike(held: bool, a: End, b: End)
    requires SameEnd(held, a, b)
    ensures SameValues(a.Owned(), b.Owned())
    ensures held ==> a.Owned().Keys == b.Owned().Keys
  {
    SameValuesAt(a.data.values, b.data.values);
    SameValuesAt(a.Owned(), b.Owned());
  }

  lemma {:induction false} OwnedAllAlike(held: bool, es: seq<End>, es': seq<End>)
    requires |es| == |es'| && forall i :: 0 <= i < |es| ==> SameEnd(held, es[i], es'[i])
    ensures SameValues(OwnedAll(es), OwnedAll(es')) && HistoriesAll(es) == HistoriesAll(es')
    ensures held ==> OwnedAll(es).Keys == OwnedAll(es').Keys
  {
    if es != [] {
      var n := |es| - 1;
      OwnedAllAlike(held, es[..n], es'[..n]);
      OwnedAlike(held, es[n], es'[n]);
      SameValuesPlus(OwnedAll(es[..n]), OwnedAll(es'[..n]), es[n].Owned(), es'[n].Owned());
    }
  }

  lemma {:induction false} PausesAlike(entries: seq<Name>, es: seq<End>, es': seq<End>)
    requires |entries| == |es| == |es'| && forall i :: 0 <= i < |es| ==> es[i].halt == es'[i].halt
    ensures Pauses(entries, es) == Pauses(entries, es')
  {
    if es != [] { PausesAlike(entries[1..], es[1..], es'[1..]); }
  }

  lemma ClashesAlike(es: seq<End>, es': seq<End>)
    requires |es| == |es'| && forall i :: 0 <= i < |es| ==> SameEnd(false, es[i], es'[i])
    ensures FirstKeyClash(es, 0) == FirstKeyClash(es', 0) && FirstHistoryClash(es, 0) == FirstHistoryClash(es', 0)
  {
    assert forall j :: 0 <= j < |es| ==> KeysClash(es, j) == KeysClash(es', j);
    assert forall j :: 0 <= j < |es| ==> HistoriesClash(es, j) == HistoriesClash(es', j);
  }

  lemma SameEndsJoin(held: bool, parent: Data, parent': Data, entries: seq<Name>, es: seq<End>, es': seq<End>)
    requires |entries| == |es| == |es'| && SameData(parent, parent')
    requires forall i :: 0 <= i < |es| ==> SameEnd(held, es[i], es'[i])
    ensures SameJoin(held, CloseFan(parent, entries, es), CloseFan(parent', entries, es'))
  {
    assert FirstFailed(es') == FirstFailed(es);
    PausesAlike(entries, es, es');
    ClashesAlike(es, es');
    OwnedAllAlike(held, es, es');
    SameValuesPlus(parent.values, parent'.values, OwnedAll(es), OwnedAll(es'));
  }

  /** Ends that agree join alike, unless the first failure is a branch that ran out of steps. */
  lemma JoinAlike(held: bool, parent: Data, parent': Data, entries: seq<Name>, es: seq<End>, es': seq<End>)
    requires |entries| == |es| == |es'| && SameData(parent, parent')
    requires forall i :: 0 <= i < |es| ==> SameOrLimit(held, es[i], es'[i])
    ensures BranchHitLimit(CloseFan(parent, entries, es)) ||
            SameJoin(held, CloseFan(parent, entries, es), CloseFan(parent', entries, es'))
  {
    var first := FirstFailed(es);
    if first == |es| {
      assert forall i :: 0 <= i < |es| ==> !es[i].Failed?() && SameEnd(held, es[i], es'[i]);
      SameEndsJoin(held, parent, parent', entries, es, es');
    } else if es[first].halt != Some(Failed(StepLimit)) {
      assert SameEnd(held, es[first], es'[first]);
      assert forall i :: 0 <= i < first ==> !es[i].Failed?() && SameEnd(held, es[i], es'[i]);
      assert FirstFailed(es') == first;
    }
  }

  // ---- one step, and a whole run ----

  lemma SettleAlike(g: Graph, env: Env, ctx: Ctx, a: Chain, b: Chain, node: Node, r: NodeResult, r': NodeResult)
    requires PerThread(env) && Alike(ctx.level, a, b) && SameResult(ctx.level, r, r') && a.left > 0 && b.left > 0
    requires a.halt.None?
    requires ctx.level > 1 && r.Ran? ==>
      && TempHeld(a.writes + r.written, r.state.data.values)
      && TempHeld(b.writes + r'.written, r'.state.data.values)
    requires ctx.level > 1 && r.Stopped? ==> r.halt.Failed?
    ensures Alike(ctx.level, Settle(g, env, ctx, a, node, r), Settle(g, env, ctx, b, node, r'))
  {
    hide ResolveNext, PerThread;
    if r.Ran? { ResolveAlike(g, env, r.state, r'.state, node, r.forced); }
  }

  lemma ResolveAlike(g: Graph, env: Env, s: State, s': State, node: Node, forced: Name)
    requires PerThread(env) && SameState(s, s')
    ensures ResolveNext(g, env, s, node, forced) == ResolveNext(g, env, s', node, forced)
  {
    var v, v' := View(s.data.values, s.data.histories), View(s'.data.values, s'.data.histories);
    assert env.route(node.name, v) == env.route(node.name, v');
  }

  /** A fan-out or leaf of a nested branch keeps written `temp:` keys in the values. */
  lemma HeldAfterNode(g: Graph, env: Env, fuel: nat, ctx: Ctx, c: Chain, node: Node)
    requires PerThread(env) && ctx.level > 1 && TempHeld(c.writes, c.state.data.values)
    ensures var r := RunNode(g, env, fuel, ctx, c, node);
            && (r.Ran? ==> TempHeld(c.writes + r.written, r.state.data.values))
  {
    if node.kind.Leaf? {
      var v := View(c.state.data.values, ctx.outer + c.state.data.histories);
      assert KeepsTemp(v.values, env.leaf(node.name, v, c.answer));
    }
  }

  /** Nothing pauses inside nested branches. */
  lemma {:induction false} NestedStops(g: Graph, env: Env, fuel: nat, ctx: Ctx, c: Chain, node: Node)
    requires ctx.level > 1
    ensures var r := RunNode(g, env, fuel, ctx, c, node); r.Stopped? ==> r.halt.Failed?
    decreases fuel, 0, 0
  {
    if node.kind.Parallel? && fuel > 0 {
      var starts := BranchStarts(g, c.state, node.kind.branches);
      var bctx := BranchCtx(ctx, c.state, node.name);
      var rs := RunAll(g, env, fuel - 1, bctx, starts);
      forall i | 0 <= i < |rs| ensures !Ends(rs)[i].Paused?() {
        NestedRun(g, env, fuel - 1, bctx, starts[i]);
      }
      NothingPaused(node.kind.branches, Ends(rs));
    }
  }

  lemma {:induction false} NestedRun(g: Graph, env: Env, fuel: nat, ctx: Ctx, c: Chain)
    requires ctx.level > 1 && !IsPaused(c)
    ensures !IsPaused(Run(g, env, fuel, ctx, c))
    decreases fuel, 1, if c.halt.Some? then 0 else c.left + 1
  {
    if Live(ctx, c) {
      var found := FindNode(g.nodes, c.cur);
      if c.left > 0 && found.Some? {
        NestedStops(g, env, fuel, ctx, c, found.value);
      }
      NestedRun(g, env, fuel, ctx, Step(g, env, fuel, ctx, c));
    }
  }

  lemma {:induction false} NothingPaused(entries: seq<Name>, es: seq<End>)
    requires |entries| == |es| && forall i :: 0 <= i < |es| ==> !es[i].Paused?()
    ensures Pauses(entries, es) == []
  {
    if es != [] { NothingPaused(entries[1..], es[1..]); }
  }

  lemma {:induction false} StepAlike(g: Graph, env: Env, fuel: nat, ctx: Ctx, a: Chain, b: Chain)
    requires PerThread(env) && Alike(ctx.level, a, b) && Live(ctx, a) && a.left > 0 && b.left > 0
    ensures Alike(ctx.level, Step(g, env, fuel, ctx, a), Step(g, env, fuel, ctx, b))
    decreases fuel, 0, 1
  {
    var found := FindNode(g.nodes, a.cur);
    if found.Some? {
      var node := found.value;
      NodeAlike(g, env, fuel, ctx, a, b, node);
      if ctx.level > 1 {
        HeldAfterNode(g, env, fuel, ctx, a, node);
        HeldAfterNode(g, env, fuel, ctx, b, node);
        NestedStops(g, env, fuel, ctx, a, node);
      }
      SettleAlike(g, env, ctx, a, b, node, RunNode(g, env, fuel, ctx, a, node), RunNode(g, env, fuel, ctx, b, node));
    }
  }

  lemma {:induction false} NodeAlike(g: Graph, env: Env, fuel: nat, ctx: Ctx, a: Chain, b: Chain, node: Node)
    requires PerThread(env) && Alike(ctx.level, a, b)
    ensures SameResult(ctx.level, RunNode(g, env, fuel, ctx, a, node), RunNode(g, env, fuel, ctx, b, node))
    decreases fuel, 0, 0
  {
    hide FanResult, Run, PerThread, RunLeaf, RunLoop;
    match node.kind
    case Leaf => LeafAlike(env, ctx, a, b, node.name);
    case Loop(body, maxIterations) => LoopAlike(env, ctx.level, a.state, b.state, node.name, body, maxIterations);
    case Parallel(entries) => if fuel > 0 { FanNodeAlike(g, env, fuel, ctx, a, b, node); }
  }

  lemma {:induction false} FanNodeAlike(g: Graph, env: Env, fuel: nat, ctx: Ctx, a: Chain, b: Chain, node: Node)
    requires PerThread(env) && Alike(ctx.level, a, b) && node.kind.Parallel? && fuel > 0
    ensures SameResult(ctx.level, RunNode(g, env, fuel, ctx, a, node), RunNode(g, env, fuel, ctx, b, node))
    decreases fuel - 1, 2, 0
  {
    hide CloseFan, Run, PerThread;
    var entries := node.kind.branches;
    var as_, bs := BranchStarts(g, a.state, entries), BranchStarts(g, b.state, entries);
    var bctx := BranchCtx(ctx, a.state, node.name);
    assert bctx == BranchCtx(ctx, b.state, node.name);
    var ra, rb := RunAll(g, env, fuel - 1, bctx, as_), RunAll(g, env, fuel - 1, bctx, bs);
    forall i | 0 <= i < |entries| ensures SameEnd(ctx.level > 0, Ends(ra)[i], Ends(rb)[i]) {
      RunAlike(g, env, fuel - 1, bctx, as_[i], bs[i]);
    }
    FanAlike(ctx.level > 0, a.state, b.state, entries, Ends(ra), Ends(rb));
  }

  lemma FanAlike(held: bool, a: State, b: State, entries: seq<Name>, es: seq<End>, es': seq<End>)
    requires |entries| == |es| == |es'| && SameState(a, b)
    requires forall i :: 0 <= i < |es| ==> SameEnd(held, es[i], es'[i])
    ensures SameResult(if held then 1 else 0, FanResult(a, entries, es), FanResult(b, entries, es'))
  {
    SameEndsJoin(held, a.data, b.data, entries, es, es');
  }

  /** Chains that differ in `temp:` values, and in how many steps they may still take, end alike
      unless the one with fewer steps runs out of them. */
  lemma {:induction false} RunAlike(g: Graph, env: Env, fuel: nat, ctx: Ctx, a: Chain, b: Chain)
    requires PerThread(env) && Alike(ctx.level, a, b) && a.left <= b.left
    ensures (a.left < b.left && HitLimit(Run(g, env, fuel, ctx, a))) ||
            Alike(ctx.level, Run(g, env, fuel, ctx, a), Run(g, env, fuel, ctx, b))
    decreases fuel, 1, if a.halt.Some? then 0 else a.left + 1
  {
    if Live(ctx, a) {
      var a1, b1 := Step(g, env, fuel, ctx, a), Step(g, env, fuel, ctx, b);
      if a.left > 0 {
        StepAlike(g, env, fuel, ctx, a, b);
        StepLeft(g, env, fuel, ctx, a, b);
        RunAlike(g, env, fuel, ctx, a1, b1);
      } else if b.left > 0 {
        assert HitLimit(a1) && Run(g, env, fuel, ctx, a1) == a1;
      }
    }
  }

  lemma StepLeft(g: Graph, env: Env, fuel: nat, ctx: Ctx, a: Chain, b: Chain)
    requires Live(ctx, a) && Live(ctx, b) && a.cur == b.cur && 0 < a.left && 0 < b.left
    ensures Step(g, env, fuel, ctx, b).left - Step(g, env, fuel, ctx, a).left == b.left - a.left
  {
    var found := FindNode(g.nodes, a.cur);
    if found.Some? {
      var ra, rb := RunNode(g, env, fuel, ctx, a, found.value), RunNode(g, env, fuel, ctx, b, found.value);
      assert Settle(g, env, ctx, a, found.value, ra).left == a.left - 1;
      assert Settle(g, env, ctx, b, found.value, rb).left == b.left - 1;
    }
  }
}
