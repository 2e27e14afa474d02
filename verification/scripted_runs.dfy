/** Environments that bring a workflow to a given limit. */
module ScriptedRuns {
  import opened Options
  import opened Graphs
  import opened Executor
  import opened Congruence
  import opened Workflows
  import opened Compilation
  import opened CompilerTheorem
  import opened StepNeeds

  const KEY := "k"

  /** Leaves in `waits` pause, `writer` sets a key and every other leaf does nothing. Loops in `greedy` run as often as
      they may, all others once. */
  function Scripted(greedy: set<Name>, waits: set<Name>, writer: Name): Env {
    Env((n, v: View, a) =>
          if n in waits then Suspended(v.values, map[], {}, "", [])
          else if n == writer then Finished(v.values[KEY := ""], map[], {KEY})
          else Finished(v.values, map[], {}),
        (n, v) => Ok(n !in greedy),
        (n, v) => Ok(END))
  }

  lemma ScriptedLeaf(greedy: set<Name>, waits: set<Name>, writer: Name, n: Name, v: View, v': View, a: Option<Answer>)
    requires SameValues(v.values, v'.values)
    ensures var env := Scripted(greedy, waits, writer); SameLeaf(env.leaf(n, v, a), env.leaf(n, v', a))
  {
    SameValuesAt(v.values, v'.values);
    SameValuesAt(v.values[KEY := ""], v'.values[KEY := ""]);
  }

  lemma ScriptedKeeps(greedy: set<Name>, waits: set<Name>, writer: Name, n: Name, v: View, a: Option<Answer>)
    ensures KeepsTemp(v.values, Scripted(greedy, waits, writer).leaf(n, v, a))
  {
    assert !TempKey(KEY) by { assert |"temp:"| > |KEY|; }
  }

  lemma ScriptedPerThread(greedy: set<Name>, waits: set<Name>, writer: Name)
    ensures PerThread(Scripted(greedy, waits, writer))
  {
    hide SameLeaf, KeepsTemp, SameValues;
    var env := Scripted(greedy, waits, writer);
    forall n, v: View, v': View, a | SameValues(v.values, v'.values) && v.histories == v'.histories
      ensures SameLeaf(env.leaf(n, v, a), env.leaf(n, v', a))
    {
      ScriptedLeaf(greedy, waits, writer, n, v, v', a);
    }
    forall n, v: View, a ensures KeepsTemp(v.values, env.leaf(n, v, a)) {
      ScriptedKeeps(greedy, waits, writer, n, v, a);
    }
  }

  /** None of the names is in the script. */
  ghost predicate Plainly(names: seq<Name>, greedy: set<Name>, waits: set<Name>) {
    forall n <- names :: n !in greedy && n !in waits
  }

  // ---- every loop once ----

  /** From `f` a workflow was passed through in `taken` nodes and wrote at most the key. */
  ghost predicate Passed(f: Flow, r: Flow, taken: nat, writes: bool) {
    && r.halt.None? && r.left == f.left - taken && r.data.histories == f.data.histories
    && f.writes <= r.writes <= f.writes + {KEY}
    && (!writes ==> r.data == f.data && r.writes == f.writes)
  }

  lemma {:induction false} Lazy(m: nat, greedy: set<Name>, waits: set<Name>, writer: Name, ctx: Ctx, w: Workflow,
                                f: Flow)
    requires Shaped(w) && Distinct(Names(w)) && Plainly(Names(w), greedy, waits)
    requires Passable(m, w) && f.halt.None? && f.left >= Least(w)
    ensures Passed(f, Eval(m, Scripted(greedy, waits, writer), ctx, w, f), Least(w), writer in Names(w))
    decreases w, 1
  {
    match w
    case Task(name) =>
      assert name == Names(w)[0];
      assert f.data.histories + map[] == f.data.histories;
    case Sequence(steps) => LazySteps(m, greedy, waits, writer, ctx, steps, f);
    case FanOut(name, branches) => LazyFan(m, greedy, waits, writer, ctx, w, f);
    case Repeat(name, body, maxIterations) =>
      DistinctParts([name], Names(body));
      assert name == Names(w)[0];
      assert forall n <- Names(body) :: n in Names(w);
      Lazy(m, greedy, waits, writer, ctx, body, Visit(f, name));
  }

  lemma {:induction false} LazySteps(m: nat, greedy: set<Name>, waits: set<Name>, writer: Name, ctx: Ctx,
                                     ws: seq<Workflow>, f: Flow)
    requires ShapedAll(ws) && Distinct(NamesAll(ws)) && Plainly(NamesAll(ws), greedy, waits)
    requires PassableSteps(m, ws) && f.halt.None? && f.left >= LeastSteps(ws)
    ensures Passed(f, EvalSteps(m, Scripted(greedy, waits, writer), ctx, ws, f), LeastSteps(ws), writer in NamesAll(ws))
    decreases ws, 0
  {
    if ws != [] {
      DistinctParts(Names(ws[0]), NamesAll(ws[1..]));
      Lazy(m, greedy, waits, writer, ctx, ws[0], f);
      LazySteps(m, greedy, waits, writer, ctx, ws[1..], Eval(m, Scripted(greedy, waits, writer), ctx, ws[0], f));
    }
  }

  /** Ends that can join: only the one at `k` wrote, and it wrote the key. */
  ghost predicate Calm(es: seq<End>, k: int) {
    forall i :: 0 <= i < |es| ==>
      && es[i].halt.None? && es[i].data.histories == map[] && es[i].writes <= {KEY}
      && (i != k ==> es[i].writes == {})
  }

  lemma CalmAlone(es: seq<End>, k: int)
    requires Calm(es, k)
    ensures FirstFailed(es) == FirstKeyClash(es, 0) == FirstHistoryClash(es, 0) == |es|
  {
    assert forall j :: 0 <= j < |es| ==> !KeysClash(es, j) && !HistoriesClash(es, j);
  }

  lemma CalmJoin(parent: Data, entries: seq<Name>, es: seq<End>, k: int)
    requires |entries| == |es| && Calm(es, k)
    ensures var r := CloseFan(parent, entries, es);
            && r.Joined? && r.data.histories == parent.histories && r.written <= {KEY}
            && (k < 0 || k >= |es| ==> r == Joined(parent, {}))
  {
    CalmAlone(es, k);
    NothingPaused(entries, es);
    CalmOwned(es, k);
    hide FirstFailed, FirstKeyClash, FirstHistoryClash, OwnedAll, HistoriesAll, Pauses, Calm;
    assert parent.values + map[] == parent.values && parent.histories + map[] == parent.histories;
  }

  lemma {:induction false} CalmOwned(es: seq<End>, k: int)
    requires Calm(es, k)
    ensures OwnedAll(es).Keys <= {KEY} && HistoriesAll(es) == map[]
    ensures k < 0 || k >= |es| ==> OwnedAll(es) == map[]
  {
    if es != [] {
      CalmOwned(es[..|es| - 1], if k < |es| - 1 then k else -1);
    }
  }

  lemma {:induction false} LazyBranches(m: nat, greedy: set<Name>, waits: set<Name>, writer: Name, ctx: Ctx,
                                        ws: seq<Workflow>, parent: Data)
    returns (k: int)
    requires ShapedAll(ws) && Distinct(NamesAll(ws)) && Plainly(NamesAll(ws), greedy, waits) && AllFit(m, ws)
    ensures Calm(FlowEnds(EvalBranches(m, Scripted(greedy, waits, writer), ctx, ws, parent)), k)
    ensures writer !in NamesAll(ws) ==> k == -1
    decreases ws, 0
  {
    k := -1;
    if ws != [] {
      DistinctParts(Names(ws[0]), NamesAll(ws[1..]));
      Lazy(m, greedy, waits, writer, ctx, ws[0], BranchFlow(m, parent));
      k := LazyBranches(m, greedy, waits, writer, ctx, ws[1..], parent);
      var es := FlowEnds(EvalBranches(m, Scripted(greedy, waits, writer), ctx, ws, parent));
      assert es[1..] == FlowEnds(EvalBranches(m, Scripted(greedy, waits, writer), ctx, ws[1..], parent));
      assert forall i :: 0 < i < |es| ==> es[i] == es[1..][i - 1];
      k := if writer in Names(ws[0]) then 0 else if k < 0 then -1 else k + 1;
    }
  }

  lemma {:induction false} LazyFan(m: nat, greedy: set<Name>, waits: set<Name>, writer: Name, ctx: Ctx, w: Workflow,
                                   f: Flow)
    requires w.FanOut? && Shaped(w) && Distinct(Names(w)) && Plainly(Names(w), greedy, waits)
    requires Passable(m, w) && f.halt.None? && f.left >= Least(w)
    ensures Passed(f, Eval(m, Scripted(greedy, waits, writer), ctx, w, f), Least(w), writer in Names(w))
    decreases w, 0
  {
    hide CloseFan;
    DistinctParts([w.name], NamesAll(w.branches));
    assert forall n <- NamesAll(w.branches) :: n in Names(w);
    var bctx := InBranch(ctx, f.data, w.name);
    var k := LazyBranches(m, greedy, waits, writer, bctx, w.branches, f.data);
    var fs := EvalBranches(m, Scripted(greedy, waits, writer), bctx, w.branches, f.data);
    CalmJoin(f.data, Entries(w.branches), FlowEnds(fs), k);
  }

  // ---- as many nodes as there can be ----

  /** Loops on the chain itself. */
  function OwnLoops(w: Workflow): set<Name>
    decreases w, 0
  {
    match w
    case Task(_) => {}
    case Sequence(steps) => OwnLoopsAll(steps)
    case FanOut(_, _) => {}
    case Repeat(name, body, _) => {name} + OwnLoops(body)
  }

  function OwnLoopsAll(ws: seq<Workflow>): set<Name>
    decreases ws, 0
  {
    if ws == [] then {} else OwnLoops(ws[0]) + OwnLoopsAll(ws[1..])
  }

  lemma {:induction false} OwnLoopsNamed(w: Workflow)
    ensures forall n <- OwnLoops(w) :: n in Names(w)
    decreases w, 0
  {
    match w
    case Task(_) =>
    case Sequence(steps) => OwnLoopsAllNamed(steps);
    case FanOut(_, _) =>
    case Repeat(name, body, _) =>
      OwnLoopsNamed(body);
      assert name == Names(w)[0];
  }

  lemma {:induction false} OwnLoopsAllNamed(ws: seq<Workflow>)
    ensures forall n <- OwnLoopsAll(ws) :: n in NamesAll(ws)
    decreases ws, 0
  {
    if ws != [] {
      OwnLoopsNamed(ws[0]);
      OwnLoopsAllNamed(ws[1..]);
    }
  }

  /** Exactly the chain's own loops are greedy and nothing waits. */
  ghost predicate Eager(own: set<Name>, names: seq<Name>, greedy: set<Name>, waits: set<Name>) {
    LocalTo(greedy, own, names) && forall n <- names :: n !in waits
  }

  /** From `f` all of `most` was taken, or the chain ran out of steps. */
  ghost predicate Drained(f: Flow, r: Flow, passable: bool, most: nat) {
    if f.left < most then OutOfSteps(r)
    else if passable then r.halt.None? && r.left == f.left - most
    else r.halt.Some?
  }

  lemma {:induction false} Greedy(m: nat, greedy: set<Name>, waits: set<Name>, writer: Name, ctx: Ctx, w: Workflow,
                                  f: Flow)
    requires Shaped(w) && Distinct(Names(w)) && Eager(OwnLoops(w), Names(w), greedy, waits) && f.halt.None?
    ensures Drained(f, Eval(m, Scripted(greedy, waits, writer), ctx, w, f), Passable(m, w), Most(m, w))
    decreases w, 1, 0
  {
    hide CloseFan;
    match w
    case Task(name) => assert name == Names(w)[0];
    case Sequence(steps) => GreedySteps(m, greedy, waits, writer, ctx, steps, f);
    case FanOut(name, branches) =>
      if Passable(m, w) && f.left > 0 {
        LazyFan(m, greedy, waits, writer, ctx, w, f);
      } else {
        Takes(m, Scripted(greedy, waits, writer), ctx, w, f);
      }
    case Repeat(name, body, maxIterations) =>
      DistinctParts([name], Names(body));
      assert name == Names(w)[0];
      OwnLoopsNamed(body);
      if f.left > 0 {
        GreedyRounds(m, greedy, waits, writer, ctx, name, body, maxIterations, Visit(f, name));
      }
  }

  lemma {:induction false} GreedySteps(m: nat, greedy: set<Name>, waits: set<Name>, writer: Name, ctx: Ctx,
                                       ws: seq<Workflow>, f: Flow)
    requires ShapedAll(ws) && Distinct(NamesAll(ws)) && Eager(OwnLoopsAll(ws), NamesAll(ws), greedy, waits)
    requires f.halt.None?
    ensures Drained(f, EvalSteps(m, Scripted(greedy, waits, writer), ctx, ws, f), PassableSteps(m, ws),
                    MostSteps(m, ws))
    decreases ws, 0, 0
  {
    if ws != [] {
      DistinctParts(Names(ws[0]), NamesAll(ws[1..]));
      OwnLoopsNamed(ws[0]);
      OwnLoopsAllNamed(ws[1..]);
      var env := Scripted(greedy, waits, writer);
      var f1 := Eval(m, env, ctx, ws[0], f);
      Greedy(m, greedy, waits, writer, ctx, ws[0], f);
      if f1.halt.None? {
        GreedySteps(m, greedy, waits, writer, ctx, ws[1..], f1);
      } else {
        HaltedSteps(m, env, ctx, ws[1..], f1);
      }
    }
  }

  lemma {:induction false} GreedyRounds(m: nat, greedy: set<Name>, waits: set<Name>, writer: Name, ctx: Ctx,
                                        name: Name, body: Workflow, rounds: int, f: Flow)
    requires Shaped(body) && Distinct(Names(body)) && Eager(OwnLoops(body), Names(body), greedy, waits)
    requires name in greedy
    requires rounds >= 1 && f.halt.None?
    ensures Drained(f, EvalRounds(m, Scripted(greedy, waits, writer), ctx, name, body, rounds, f), Passable(m, body),
                    MostRounds(m, body, rounds))
    decreases body, 2, rounds
  {
    hide Eval, Shaped, Passable, Most, OwnLoops, Distinct, Eager;
    var env := Scripted(greedy, waits, writer);
    Greedy(m, greedy, waits, writer, ctx, body, f);
    var f1 := Visit(Eval(m, env, ctx, body, f), name);
    if f1.halt.None? && rounds > 1 {
      GreedyRounds(m, greedy, waits, writer, ctx, name, body, rounds - 1, f1);
    }
  }

  // ---- a branch that pauses ----

  lemma {:induction false} LeastMost(m: nat, w: Workflow)
    requires Shaped(w) && Passable(m, w)
    ensures Least(w) <= Most(m, w)
    decreases w, 0
  {
    match w
    case Task(_) =>
    case Sequence(steps) => LeastMostSteps(m, steps);
    case FanOut(_, _) =>
    case Repeat(_, body, _) => LeastMost(m, body);
  }

  lemma {:induction false} LeastMostSteps(m: nat, ws: seq<Workflow>)
    requires ShapedAll(ws) && PassableSteps(m, ws)
    ensures LeastSteps(ws) <= MostSteps(m, ws)
    decreases ws, 0
  {
    if ws != [] {
      LeastMost(m, ws[0]);
      LeastMostSteps(m, ws[1..]);
    }
  }

  /** The first leaf of the chain itself. */
  function FirstPause(m: nat, w: Workflow): Name
    requires Pausable(m, w)
    decreases w, 0
  {
    match w
    case Task(name) => name
    case Sequence(steps) => FirstPauseStep(m, steps)
    case Repeat(_, body, _) => FirstPause(m, body)
  }

  function FirstPauseStep(m: nat, ws: seq<Workflow>): Name
    requires PausableSteps(m, ws)
    decreases ws, 0
  {
    if Pausable(m, ws[0]) then FirstPause(m, ws[0]) else FirstPauseStep(m, ws[1..])
  }

  lemma {:induction false} FirstPauseNamed(m: nat, w: Workflow)
    requires Pausable(m, w)
    ensures FirstPause(m, w) in Names(w)
    decreases w, 0
  {
    match w
    case Task(name) => assert name == Names(w)[0];
    case Sequence(steps) => FirstPauseStepNamed(m, steps);
    case Repeat(_, body, _) => FirstPauseNamed(m, body);
  }

  lemma {:induction false} FirstPauseStepNamed(m: nat, ws: seq<Workflow>)
    requires PausableSteps(m, ws)
    ensures FirstPauseStep(m, ws) in NamesAll(ws)
    decreases ws, 0
  {
    if Pausable(m, ws[0]) { FirstPauseNamed(m, ws[0]); } else { FirstPauseStepNamed(m, ws[1..]); }
  }

  /** Exactly the leaf `n` waits and no loop is greedy. */
  ghost predicate WaitsAt(n: Name, names: seq<Name>, greedy: set<Name>, waits: set<Name>) {
    LocalTo(waits, {n}, names) && forall k <- names :: k !in greedy
  }

  lemma {:induction false} Waiting(m: nat, greedy: set<Name>, waits: set<Name>, writer: Name, ctx: Ctx, w: Workflow,
                                   f: Flow)
    requires Shaped(w) && Distinct(Names(w)) && ctx.level == 1 && Pausable(m, w)
    requires WaitsAt(FirstPause(m, w), Names(w), greedy, waits) && f.halt.None? && f.left >= Most(m, w)
    ensures IsWaiting(Eval(m, Scripted(greedy, waits, writer), ctx, w, f))
    decreases w, 1
  {
    match w
    case Task(name) => assert name == Names(w)[0];
    case Sequence(steps) => WaitingSteps(m, greedy, waits, writer, ctx, steps, f);
    case Repeat(name, body, maxIterations) =>
      DistinctParts([name], Names(body));
      Waiting(m, greedy, waits, writer, ctx, body, Visit(f, name));
  }

  lemma {:induction false} WaitingSteps(m: nat, greedy: set<Name>, waits: set<Name>, writer: Name, ctx: Ctx,
                                        ws: seq<Workflow>, f: Flow)
    requires ShapedAll(ws) && Distinct(NamesAll(ws)) && ctx.level == 1 && PausableSteps(m, ws)
    requires WaitsAt(FirstPauseStep(m, ws), NamesAll(ws), greedy, waits) && f.halt.None? && f.left >= MostSteps(m, ws)
    ensures IsWaiting(EvalSteps(m, Scripted(greedy, waits, writer), ctx, ws, f))
    decreases ws, 0
  {
    var env := Scripted(greedy, waits, writer);
    DistinctParts(Names(ws[0]), NamesAll(ws[1..]));
    if Pausable(m, ws[0]) {
      Waiting(m, greedy, waits, writer, ctx, ws[0], f);
      HaltedSteps(m, env, ctx, ws[1..], Eval(m, env, ctx, ws[0], f));
    } else {
      FirstPauseStepNamed(m, ws[1..]);
      LeastMost(m, ws[0]);
      Lazy(m, greedy, waits, writer, ctx, ws[0], f);
      WaitingSteps(m, greedy, waits, writer, ctx, ws[1..], Eval(m, env, ctx, ws[0], f));
    }
  }
}
