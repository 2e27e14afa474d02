/** A run that is stopped often enough never runs out of steps. */
module RenewedSteps {
  import opened Options
  import opened Graphs
  import opened Executor
  import opened Congruence
  import opened Durable
  import opened Resume
  import opened PartialResume
  import opened ResumeCalls
  import opened Stops

  // ---- a schedule for each turn of the top-level chain ----

  lemma {:induction false} LeadsOn(g: Graph, env: Env, fuel: nat, e: Exec, a: seq<Move>, e1: Exec, b: seq<Move>,
                                   e2: Exec)
    requires Leads(g, env, fuel, e, a, e1) && Leads(g, env, fuel, e1, b, e2)
    ensures Leads(g, env, fuel, e, a + b, e2)
    decreases a
  {
    hide Apply, Enabled, WellFormed;
    if a == [] {
      assert a + b == b;
    } else {
      assert (a + b)[0] == a[0] && (a + b)[1..] == a[1..] + b;
      LeadsOn(g, env, fuel, Apply(g, env, fuel, e, a[0]), a[1..], e1, b, e2);
    }
  }

  /** Turns that bring branch `i` to rest and leave the others. */
  lemma {:induction false} BranchRests(g: Graph, env: Env, fuel: nat, e: Exec, i: nat)
    returns (moves: seq<Move>, e1: Exec)
    requires WellFormed(g, fuel, e) && InFan(e) && i < |e.fan.value.branches|
    ensures Leads(g, env, fuel, e, moves, e1) && OnlyTurns(moves)
    ensures WellFormed(g, fuel, e1) && InFan(e1) && e1.top == e.top && e1.fan.value.node == e.fan.value.node
    ensures var bs, bs1 := e.fan.value.branches, e1.fan.value.branches;
            |bs1| == |bs| && !Live(FanCtx(e), bs1[i]) && forall j :: 0 <= j < |bs| && j != i ==> bs1[j] == bs[j]
    decreases var b := e.fan.value.branches[i]; if b.halt.Some? then 0 else b.left + 1
  {
    hide Step, Saved;
    moves, e1 := [], e;
    if Live(FanCtx(e), e.fan.value.branches[i]) {
      Shortens(g, env, fuel - 1, FanCtx(e), e.fan.value.branches[i]);
      moves, e1 := BranchRests(g, env, fuel, Apply(g, env, fuel, e, Turn(i)), i);
      moves := [Turn(i)] + moves;
    }
  }

  lemma Shortens(g: Graph, env: Env, fuel: nat, ctx: Ctx, c: Chain)
    requires Live(ctx, c)
    ensures var c1 := Step(g, env, fuel, ctx, c); c1.halt.Some? || c1.left < c.left
  {
  }

  lemma {:induction false} AllRest(g: Graph, env: Env, fuel: nat, e: Exec, i: nat) returns (moves: seq<Move>, e1: Exec)
    requires WellFormed(g, fuel, e) && InFan(e) && i <= |e.fan.value.branches|
    requires forall j :: 0 <= j < i ==> !Live(FanCtx(e), e.fan.value.branches[j])
    ensures Leads(g, env, fuel, e, moves, e1) && OnlyTurns(moves)
    ensures WellFormed(g, fuel, e1) && Enabled(g, fuel, e1, Close)
    decreases |e.fan.value.branches| - i
  {
    hide Step, Saved;
    moves, e1 := [], e;
    if i < |e.fan.value.branches| {
      var first, mid := BranchRests(g, env, fuel, e, i);
      moves, e1 := AllRest(g, env, fuel, mid, i + 1);
      LeadsOn(g, env, fuel, e, first, mid, moves, e1);
      moves := first + moves;
    }
  }

  lemma OnlyRanGoesOn(g: Graph, env: Env, c: Chain, node: Node, r: NodeResult)
    requires c.left > 0
    ensures Settle(g, env, TOP, c, node, r).halt.None? ==> r.Ran?
  {
  }

  lemma OpenedFan(g: Graph, env: Env, fuel: nat, e: Exec)
    requires !InFan(e) && Opens(g, fuel, e.top)
    ensures var e1 := Apply(g, env, fuel, e, Open);
            && WellFormed(g, fuel, e1) && InFan(e1) && e1.top == e.top
            && FindNode(g.nodes, e.top.cur) == Some(e1.fan.value.node)
            && e1.fan.value.branches == BranchStarts(g, e.top.state, e1.fan.value.node.kind.branches)
            && Leads(g, env, fuel, e, [Open], e1)
  {
    hide FreshRecord, BranchStart;
    var e1 := Apply(g, env, fuel, e, Open);
    assert Leads(g, env, fuel, e1, [], e1);
  }

  /** Once its branches have come to rest, a fan-out that goes on closes as the turn of the chain on its node. */
  lemma ClosesAsStep(g: Graph, env: Env, fuel: nat, top: Chain, e: Exec)
    requires WellFormed(g, fuel, e) && Enabled(g, fuel, e, Close) && e.top == top
    requires Step(g, env, fuel, TOP, top).halt.None?
    requires e.fan.value.branches ==
             RunAll(g, env, fuel - 1, FanCtx(e), BranchStarts(g, top.state, e.fan.value.node.kind.branches))
    ensures var e1 := Apply(g, env, fuel, e, Close);
            e1.top == Step(g, env, fuel, TOP, top) && e1.fan.None? && Leads(g, env, fuel, e, [Close], e1)
  {
    hide Run, RunAll, Settle, Step, CloseFan, BranchStarts, Ends;
    var fan := e.fan.value;
    StepFan(g, env, fuel, TOP, top, fan.node);
    OnlyRanGoesOn(g, env, top, fan.node, FanResult(top.state, fan.node.kind.branches, Ends(fan.branches)));
    var e1 := Apply(g, env, fuel, e, Close);
    assert Leads(g, env, fuel, e1, [], e1);
  }

  lemma FanVisit(g: Graph, env: Env, fuel: nat, e: Exec) returns (moves: seq<Move>, e1: Exec)
    requires !InFan(e) && Opens(g, fuel, e.top) && Step(g, env, fuel, TOP, e.top).halt.None?
    ensures Leads(g, env, fuel, e, moves, e1) && e1.top == Step(g, env, fuel, TOP, e.top) && e1.fan.None?
    ensures Stored(moves)
  {
    hide Run, RunAll, Step, Apply, Leads, BranchStarts;
    OpenedFan(g, env, fuel, e);
    var e2 := Apply(g, env, fuel, e, Open);
    var turns, e3 := AllRest(g, env, fuel, e2, 0);
    TurnsRun(g, env, fuel, e2, turns, e3);
    AllStopped(g, env, fuel - 1, FanCtx(e3), e3.fan.value.branches);
    ClosesAsStep(g, env, fuel, e.top, e3);
    e1 := Apply(g, env, fuel, e3, Close);
    LeadsOn(g, env, fuel, e2, turns, e3, [Close], e1);
    LeadsOn(g, env, fuel, e, [Open], e2, turns + [Close], e1);
    moves := [Open] + (turns + [Close]);
  }

  lemma Visit(g: Graph, env: Env, fuel: nat, e: Exec) returns (moves: seq<Move>, e1: Exec)
    requires !InFan(e) && Live(TOP, e.top) && Step(g, env, fuel, TOP, e.top).halt.None?
    ensures Leads(g, env, fuel, e, moves, e1) && e1.top == Step(g, env, fuel, TOP, e.top) && e1.fan.None?
    ensures Stored(moves)
  {
    hide Step;
    if Opens(g, fuel, e.top) {
      moves, e1 := FanVisit(g, env, fuel, e);
    } else {
      moves, e1 := [Plain], Apply(g, env, fuel, e, Plain);
    }
  }

  // ---- steps left are all that the limit is about ----

  lemma NodeWithSteps(g: Graph, env: Env, fuel: nat, ctx: Ctx, c: Chain, node: Node, d: nat)
    ensures var r := RunNode(g, env, fuel, ctx, c, node);
            r == RunNode(g, env, fuel, ctx, c.(left := d), node) && (r.Stopped? ==> r.halt != Halt.Failed(StepLimit))
  {
    hide Run, Pauses, FirstKeyClash, FirstHistoryClash, OwnedAll, HistoriesAll;
  }

  lemma StepWithSteps(g: Graph, env: Env, fuel: nat, ctx: Ctx, c: Chain, d: nat)
    requires Live(ctx, c) && c.left > 0 && d > 0
    ensures Step(g, env, fuel, ctx, c.(left := d)) ==
            Step(g, env, fuel, ctx, c).(left := if FindNode(g.nodes, c.cur).Some? then d - 1 else d)
    ensures !HitLimit(Step(g, env, fuel, ctx, c))
  {
    hide RunNode;
    var found := FindNode(g.nodes, c.cur);
    if found.Some? { NodeWithSteps(g, env, fuel, ctx, c, found.value, d); }
  }

  /** One more turn with a new call's steps leaves one step less to go. */
  lemma OneTurn(g: Graph, env: Env, fuel: nat, ctx: Ctx, c: Chain, d: nat)
    requires Live(ctx, c) && c.left > 0 && HitLimit(Run(g, env, fuel, ctx, c))
    requires !HitLimit(Run(g, env, fuel, ctx, c.(left := d)))
    ensures var c1 := Step(g, env, fuel, ctx, c);
            && Live(ctx, c1) && d > 0
            && Run(g, env, fuel, ctx, c1.(left := d - 1)) == Run(g, env, fuel, ctx, c.(left := d))
  {
    hide Step;
    var c1 := Step(g, env, fuel, ctx, c);
    if d == 0 {
      LimitAtOnce(g, env, fuel, ctx, c.(left := 0));
    } else {
      StepWithSteps(g, env, fuel, ctx, c, d);
      assert Run(g, env, fuel, ctx, c) == Run(g, env, fuel, ctx, c1);
    }
  }

  lemma LimitAtOnce(g: Graph, env: Env, fuel: nat, ctx: Ctx, c: Chain)
    requires Live(ctx, c) && c.left == 0
    ensures Run(g, env, fuel, ctx, c) == c.(halt := Some(Halt.Failed(StepLimit)))
  {
    assert Step(g, env, fuel, ctx, c) == c.(halt := Some(Halt.Failed(StepLimit)));
  }

  // ---- the top-level chain ----

  lemma ResumedTop(g: Graph, fuel: nat, e: Exec)
    requires e.fan.None? && e.top.halt.None? && e.top.answer.None?
    ensures var e' := Resumed(g, fuel, e);
            e'.fan.None? && e'.top.halt.None? && e'.top.answer.None? && e'.top.left == Budget(g) &&
              Alike(0, e.top, e'.top)
  {
    assert Strip(Strip(e.top.state.data.values)) == Strip(e.top.state.data.values);
  }

  /** A chain that needs finitely many steps gets through when it is stopped after every turn. */
  lemma {:induction false} TopGetsThrough(g: Graph, env: Env, fuel: nat, e: Exec, d: nat)
    returns (ss: seq<Stretch>, e1: Exec)
    requires PerThread(env) && Budget(g) > 0
    requires e.fan.None? && e.top.halt.None? && e.top.answer.None? && e.top.left == Budget(g)
    requires !HitLimit(Run(g, env, fuel, TOP, e.top.(left := d)))
    ensures Becomes(g, env, fuel, e, ss, e1) && AllStored(ss)
    ensures e1.fan.None? && !HitLimit(Run(g, env, fuel, TOP, e1.top))
    decreases d
  {
    hide Step, Run, Reload, Encode, Budget;
    ss, e1 := [], e;
    if HitLimit(Run(g, env, fuel, TOP, e.top)) {
      RunOnly(g, env, fuel, TOP, e.top);
      OneTurn(g, env, fuel, TOP, e.top, d);
      StepForgets(g, env, fuel, TOP, e.top);
      var moves, at := Visit(g, env, fuel, e);
      var e' := Resumed(g, fuel, at);
      ResumedTop(g, fuel, at);
      RunAlike(g, env, fuel, TOP, at.top.(left := d - 1), e'.top.(left := d - 1));
      ss, e1 := TopGetsThrough(g, env, fuel, e', d - 1);
      ss := [Stretch(moves, at)] + ss;
    }
  }

  lemma RunOnly(g: Graph, env: Env, fuel: nat, ctx: Ctx, c: Chain)
    ensures !Live(ctx, c) ==> Run(g, env, fuel, ctx, c) == c
  {
  }

  // ---- one branch ----

  /** A run whose state and fan-out are as a resume rebuilds them. */
  ghost predicate JustResumed(g: Graph, env: Env, fuel: nat, e: Exec) {
    && Sound(g, env, fuel, e) && InFan(e)
    && Resumed(g, fuel, e).fan == e.fan && Resumed(g, fuel, e).top.state == e.top.state
  }

  /** Resuming twice in a row is resuming once. */
  lemma ResumedTwice(g: Graph, env: Env, fuel: nat, e: Exec)
    requires Sound(g, env, fuel, e) && InFan(e)
    ensures JustResumed(g, env, fuel, Resumed(g, fuel, e))
    ensures Alike(0, e.top, Resumed(g, fuel, e).top)
  {
    hide Recorded, Rebuilt;
    ResumedSound(g, env, fuel, e);
    assert Strip(Strip(e.top.state.data.values)) == Strip(e.top.state.data.values);
    var e1 := Resumed(g, fuel, e);
    var e2 := Resumed(g, fuel, e1);
    assert e1.top == e2.top;
    assert e1.fan.value.branches == e2.fan.value.branches;
  }

  /** A turn of branch `i`, then a stop: nothing else changes. */
  lemma TurnAndResume(g: Graph, env: Env, fuel: nat, e: Exec, i: nat) returns (at: Exec, e1: Exec)
    requires Valid(g) && JustResumed(g, env, fuel, e) && Enabled(g, fuel, e, Turn(i))
    requires Live(FanCtx(e), Step(g, env, fuel - 1, FanCtx(e), e.fan.value.branches[i]))
    ensures at == Apply(g, env, fuel, e, Turn(i)) && at.top.halt.None? && e1 == Resumed(g, fuel, at)
    ensures JustResumed(g, env, fuel, e1) && e1.top.state == e.top.state && e1.fan.value.node == e.fan.value.node
    ensures |e1.fan.value.branches| == |e.fan.value.branches|
    ensures forall j :: 0 <= j < |e.fan.value.branches| && j != i ==>
      e1.fan.value.branches[j] == e.fan.value.branches[j]
    ensures e1.fan.value.branches[i].left == Budget(g)
    ensures Alike(1, Step(g, env, fuel - 1, FanCtx(e), e.fan.value.branches[i]), e1.fan.value.branches[i])
  {
    hide Valid, Recorded, Rebuilt, Step, Saved;
    at := Apply(g, env, fuel, e, Turn(i));
    TurnKeepsSound(g, env, fuel, e, i);
    e1 := Resumed(g, fuel, at);
    ResumedTwice(g, env, fuel, at);
    assert e1.top.state == e.top.state;
    RunningRebuilt(g, env, fuel - 1, e.top.state, FanCtx(e), at.fan.value.records[i], at.fan.value.branches[i]);
  }

  lemma BranchRebuilt(g: Graph, env: Env, fuel: nat, e: Exec, i: nat)
    requires JustResumed(g, env, fuel, e) && i < |e.fan.value.branches|
    ensures WellFormed(g, fuel, e) && !IsFailed(e.fan.value.branches[i]) && e.fan.value.branches[i].left == Budget(g)
  {
    hide Recorded, RebuiltState;
    assert e.fan.value.branches[i] == Rebuilt(g, e.top.state, e.fan.value.records[i], None);
  }

  lemma RunningRebuilt(g: Graph, env: Env, fuel: nat, parent: State, bctx: Ctx, rec: Record, c: Chain)
    requires Recorded(g, env, fuel, parent, bctx, rec, c) && Live(bctx, c)
    ensures var b := Rebuilt(g, parent, rec, None); Alike(if bctx.level > 1 then 0 else 1, c, b) && b.left == Budget(g)
  {
  }

  /** A branch that needs finitely many steps gets through when the run is stopped after each of its turns. */
  lemma {:induction false} BranchGetsThrough(g: Graph, env: Env, fuel: nat, e: Exec, i: nat, d: nat)
    returns (ss: seq<Stretch>, e1: Exec)
    requires Valid(g) && PerThread(env) && Budget(g) > 0 && JustResumed(g, env, fuel, e) && i < |e.fan.value.branches|
    requires fuel > 0 && !HitLimit(Run(g, env, fuel - 1, FanCtx(e), e.fan.value.branches[i].(left := d)))
    ensures Becomes(g, env, fuel, e, ss, e1) && AllStored(ss)
    ensures JustResumed(g, env, fuel, e1) && e1.top.state == e.top.state && e1.fan.value.node == e.fan.value.node
    ensures |e1.fan.value.branches| == |e.fan.value.branches|
    ensures forall j :: 0 <= j < |e.fan.value.branches| && j != i ==>
      e1.fan.value.branches[j] == e.fan.value.branches[j]
    ensures !HitLimit(Run(g, env, fuel - 1, FanCtx(e), e1.fan.value.branches[i]))
    ensures Alike(1, Run(g, env, fuel - 1, FanCtx(e), e.fan.value.branches[i].(left := d)),
                  Run(g, env, fuel - 1, FanCtx(e), e1.fan.value.branches[i]))
    decreases d
  {
    hide Valid, Step, Run, Resumed, Sound, Budget;
    ss, e1 := [], e;
    var bctx, c := FanCtx(e), e.fan.value.branches[i];
    BranchRebuilt(g, env, fuel, e, i);
    if HitLimit(Run(g, env, fuel - 1, bctx, c)) {
      RunOnly(g, env, fuel - 1, bctx, c);
      OneTurn(g, env, fuel - 1, bctx, c, d);
      var at, e' := TurnAndResume(g, env, fuel, e, i);
      assert Leads(g, env, fuel, e, [Turn(i)], at);
      var c1, c' := at.fan.value.branches[i], e'.fan.value.branches[i];
      RunAlike(g, env, fuel - 1, bctx, c1.(left := d - 1), c'.(left := d - 1));
      ss, e1 := BranchGetsThrough(g, env, fuel, e', i, d - 1);
      ss := [Stretch([Turn(i)], at)] + ss;
    } else {
      EitherSteps(g, env, fuel - 1, bctx, c, d);
    }
  }

  /** Two budgets that both suffice lead to the same end. */
  lemma EitherSteps(g: Graph, env: Env, fuel: nat, bctx: Ctx, c: Chain, d: nat)
    requires PerThread(env) && bctx.level == 1
    requires !HitLimit(Run(g, env, fuel, bctx, c)) && !HitLimit(Run(g, env, fuel, bctx, c.(left := d)))
    ensures Alike(1, Run(g, env, fuel, bctx, c.(left := d)), Run(g, env, fuel, bctx, c))
  {
    hide Step;
    if d <= c.left {
      RunAlike(g, env, fuel, bctx, c.(left := d), c);
    } else {
      RunAlike(g, env, fuel, bctx, c, c.(left := d));
    }
  }

  // ---- every branch ----

  lemma {:induction false} BecomesOn(g: Graph, env: Env, fuel: nat, e: Exec, a: seq<Stretch>, e1: Exec,
                                     b: seq<Stretch>, e2: Exec)
    requires Becomes(g, env, fuel, e, a, e1) && Becomes(g, env, fuel, e1, b, e2)
    ensures Becomes(g, env, fuel, e, a + b, e2)
    decreases a
  {
    hide Leads, Resumed;
    if a == [] {
      assert a + b == b;
    } else {
      assert (a + b)[0] == a[0] && (a + b)[1..] == a[1..] + b;
      BecomesOn(g, env, fuel, Resumed(g, fuel, a[0].at), a[1..], e1, b, e2);
    }
  }

  /** Moves before the first stop. */
  lemma BecomesLater(g: Graph, env: Env, fuel: nat, e: Exec, moves: seq<Move>, e1: Exec, ss: seq<Stretch>, e2: Exec)
    returns (all: seq<Stretch>)
    requires Leads(g, env, fuel, e, moves, e1) && Becomes(g, env, fuel, e1, ss, e2) && ss != [] && AllStored(ss)
    ensures Becomes(g, env, fuel, e, all, e2) && AllStored(all)
  {
    hide Leads, Resumed;
    LeadsOn(g, env, fuel, e, moves, e1, ss[0].moves, ss[0].at);
    var first := moves + ss[0].moves;
    assert first[|first| - 1] == ss[0].moves[|ss[0].moves| - 1];
    all := [Stretch(first, ss[0].at)] + ss[1..];
  }

  /** Branch `j` of `e1` gets through, to where branch `j` of `e` does with `d` steps. */
  ghost predicate Through(g: Graph, env: Env, fuel: nat, e: Exec, e1: Exec, j: nat, d: nat)
    requires e.fan.Some? && e1.fan.Some? && j < |e.fan.value.branches| == |e1.fan.value.branches|
  {
    var r := Run(g, env, fuel, FanCtx(e), e1.fan.value.branches[j]);
    !HitLimit(r) && Alike(1, Run(g, env, fuel, FanCtx(e), e.fan.value.branches[j].(left := d)), r)
  }

  lemma {:induction false} BranchesGetThrough(g: Graph, env: Env, fuel: nat, e: Exec, i: nat, ds: seq<nat>)
    returns (ss: seq<Stretch>, e1: Exec)
    requires Valid(g) && PerThread(env) && Budget(g) > 0 && JustResumed(g, env, fuel, e) && fuel > 0
    requires i <= |ds| == |e.fan.value.branches|
    requires forall j :: i <= j < |ds| ==>
      !HitLimit(Run(g, env, fuel - 1, FanCtx(e), e.fan.value.branches[j].(left := ds[j])))
    ensures Becomes(g, env, fuel, e, ss, e1) && AllStored(ss)
    ensures JustResumed(g, env, fuel, e1) && e1.top.state == e.top.state && e1.fan.value.node == e.fan.value.node
    ensures |e1.fan.value.branches| == |e.fan.value.branches|
    ensures forall j :: 0 <= j < i ==> e1.fan.value.branches[j] == e.fan.value.branches[j]
    ensures forall j :: i <= j < |ds| ==> Through(g, env, fuel - 1, e, e1, j, ds[j])
    decreases |ds| - i
  {
    hide Valid, Run, Resumed, Sound, Budget, HitLimit, Alike;
    ss, e1 := [], e;
    if i < |ds| {
      var first, mid := BranchGetsThrough(g, env, fuel, e, i, ds[i]);
      ss, e1 := BranchesGetThrough(g, env, fuel, mid, i + 1, ds);
      BecomesOn(g, env, fuel, e, first, mid, ss, e1);
      ss := first + ss;
      forall j | i <= j < |ds| ensures Through(g, env, fuel - 1, e, e1, j, ds[j]) {
        assert j > i ==> Through(g, env, fuel - 1, mid, e1, j, ds[j]);
      }
    }
  }
}
