/** How many nodes the chains of a workflow can be asked to start, whatever its nodes do. */
module StepNeeds {
  import opened Options
  import opened Graphs
  import opened Executor
  import opened Workflows
  import opened Compilation
  import opened CompilerTheorem
  import Congruence

  // ---- read off the workflow, for chains that may start `m` nodes each ----

  /** The fewest nodes a chain can start on its way through `w`: every loop runs its body once. */
  function Least(w: Workflow): nat
    decreases w, 0
  {
    match w
    case Task(_) => 1
    case Sequence(steps) => LeastSteps(steps)
    case FanOut(_, _) => 1
    case Repeat(_, body, _) => 2 + Least(body)
  }

  function LeastSteps(ws: seq<Workflow>): nat
    decreases ws, 0
  {
    if ws == [] then 0 else Least(ws[0]) + LeastSteps(ws[1..])
  }

  /** No fan-out on the way has a branch that cannot end within its steps. */
  predicate Passable(m: nat, w: Workflow)
    decreases w, 0
  {
    match w
    case Task(_) => true
    case Sequence(steps) => PassableSteps(m, steps)
    case FanOut(_, branches) => AllFit(m, branches)
    case Repeat(_, body, _) => Passable(m, body)
  }

  predicate PassableSteps(m: nat, ws: seq<Workflow>)
    decreases ws, 0
  {
    ws != [] ==> Passable(m, ws[0]) && PassableSteps(m, ws[1..])
  }

  predicate AllFit(m: nat, ws: seq<Workflow>)
    decreases ws, 0
  {
    ws != [] ==> Least(ws[0]) <= m && Passable(m, ws[0]) && AllFit(m, ws[1..])
  }

  /** The most nodes a chain can be asked to start in `w`: every loop runs as often as it may, up to the first fan-out
      that cannot be passed. */
  function Most(m: nat, w: Workflow): nat
    decreases w, 0
  {
    match w
    case Task(_) => 1
    case Sequence(steps) => MostSteps(m, steps)
    case FanOut(_, _) => 1
    case Repeat(_, body, maxIterations) => 1 + MostRounds(m, body, maxIterations)
  }

  function MostSteps(m: nat, ws: seq<Workflow>): nat
    decreases ws, 0
  {
    if ws == [] then 0 else Most(m, ws[0]) + if Passable(m, ws[0]) then MostSteps(m, ws[1..]) else 0
  }

  function MostRounds(m: nat, body: Workflow, rounds: int): nat
    decreases body, 1, rounds
  {
    if rounds < 1 then 0
    else if !Passable(m, body) then Most(m, body)
    else Most(m, body) + 1 + MostRounds(m, body, rounds - 1)
  }

  /** A leaf of the chain itself comes before the first fan-out that cannot be passed. */
  predicate Pausable(m: nat, w: Workflow)
    decreases w, 0
  {
    match w
    case Task(_) => true
    case Sequence(steps) => PausableSteps(m, steps)
    case FanOut(_, _) => false
    case Repeat(_, body, _) => Pausable(m, body)
  }

  predicate PausableSteps(m: nat, ws: seq<Workflow>)
    decreases ws, 0
  {
    ws != [] && (Pausable(m, ws[0]) || (Passable(m, ws[0]) && PausableSteps(m, ws[1..])))
  }

  /** Some branch can be asked for more than `m` nodes while no branch before it is bound to fail. */
  predicate Overruns(m: nat, branches: seq<Workflow>)
    decreases branches, 0
  {
    branches != [] &&
    (Most(m, branches[0]) > m ||
     ((Passable(m, branches[0]) || Pausable(m, branches[0])) && Overruns(m, branches[1..])))
  }

  /** That is so in a fan-out that the chain can reach. */
  predicate FanOverruns(m: nat, w: Workflow)
    decreases w, 0
  {
    match w
    case Task(_) => false
    case Sequence(steps) => StepsOverrun(m, steps)
    case FanOut(_, branches) => Overruns(m, branches)
    case Repeat(_, body, _) => FanOverruns(m, body)
  }

  predicate StepsOverrun(m: nat, ws: seq<Workflow>)
    decreases ws, 0
  {
    ws != [] && (FanOverruns(m, ws[0]) || (Passable(m, ws[0]) && StepsOverrun(m, ws[1..])))
  }

  /** The limit can end a run, or a branch of the top-level chain, after it did something. */
  predicate TooShort(maxSteps: int, w: Workflow) {
    maxSteps >= 1 && (Most(maxSteps, w) > maxSteps || FanOverruns(maxSteps, w))
  }

  /** However many nodes a fan-out inside a branch needs, no limit is too short for it alone: it runs within one turn of
      that branch, with or without stops. */
  lemma NestedLimitsHide(maxSteps: int, outer: Name, inner: Name, branches: seq<Workflow>)
    ensures !TooShort(maxSteps, FanOut(outer, [FanOut(inner, branches)]))
  {
    if maxSteps >= 1 {
      var b := FanOut(inner, branches);
      assert Most(maxSteps, b) == 1 && [b][1..] == [];
      assert !Overruns(maxSteps, [b][1..]);
    }
  }

  // ---- what every evaluation takes ----

  ghost predicate OutOfSteps(f: Flow) {
    f.halt.Some? && f.halt.value.1 == Failed(StepLimit)
  }

  /** A pause asks for something. */
  ghost predicate Asks(e: End) {
    e.Paused?() ==> e.halt.value.pauses != []
  }

  ghost predicate AllAsk(es: seq<End>) {
    forall i :: 0 <= i < |es| ==> Asks(es[i])
  }

  ghost predicate AllEnded(es: seq<End>) {
    forall i :: 0 <= i < |es| ==> es[i].halt.None?
  }

  /** From `f` to `r` at least `least` and at most `most` nodes were started, and a chain that may start `most` of
      them does not run out. */
  ghost predicate Within(f: Flow, r: Flow, passable: bool, least: nat, most: nat) {
    && r.left <= f.left && Asks(FlowEnd(r))
    && (r.halt.None? ==> passable && least <= f.left - r.left <= most)
    && (f.left >= most ==> !OutOfSteps(r))
  }

  lemma {:induction false} Takes(m: nat, env: Env, ctx: Ctx, w: Workflow, f: Flow)
    requires Shaped(w) && f.halt.None?
    ensures Within(f, Eval(m, env, ctx, w, f), Passable(m, w), Least(w), Most(m, w))
    decreases w, 1, 0
  {
    hide CloseFan;
    match w
    case Task(_) =>
    case Sequence(steps) => StepsTake(m, env, ctx, steps, f);
    case FanOut(name, branches) =>
      if f.left > 0 {
        var bctx := InBranch(ctx, f.data, name);
        var fs := EvalBranches(m, env, bctx, branches, f.data);
        BranchesTake(m, env, bctx, branches, f.data);
        if CloseFan(f.data, Entries(branches), FlowEnds(fs)).Joined? {
          JoinedEnds(f.data, Entries(branches), FlowEnds(fs));
        }
        NoJoinLimit(f.data, Entries(branches), FlowEnds(fs));
      }
    case Repeat(name, body, maxIterations) =>
      if f.left > 0 { RoundsTake(m, env, ctx, name, body, maxIterations, Visit(f, name)); }
  }

  /** Only ended branches join, and a fan-out that does not join is not itself out of steps. */
  lemma JoinedEnds(parent: Data, entries: seq<Name>, es: seq<End>)
    requires |entries| == |es| && AllAsk(es) && CloseFan(parent, entries, es).Joined?
    ensures AllEnded(es)
  {
    assert FirstFailed(es) == |es|;
    NotPaused(entries, es);
  }

  lemma NoJoinLimit(parent: Data, entries: seq<Name>, es: seq<End>)
    requires |entries| == |es|
    ensures var r := CloseFan(parent, entries, es);
            r.NotJoined? ==> r.halt != Failed(StepLimit) && (r.halt.Paused? ==> r.halt.pauses != [])
  {
  }

  lemma {:induction false} NotPaused(entries: seq<Name>, es: seq<End>)
    requires |entries| == |es| && AllAsk(es) && Pauses(entries, es) == []
    ensures forall i :: 0 <= i < |es| ==> !es[i].Paused?()
  {
    if es != [] {
      assert Asks(es[0]);
      assert forall i :: 0 < i < |es| ==> es[i] == es[1..][i - 1];
      NotPaused(entries[1..], es[1..]);
    }
  }

  lemma {:induction false} StepsTake(m: nat, env: Env, ctx: Ctx, ws: seq<Workflow>, f: Flow)
    requires ShapedAll(ws) && f.halt.None?
    ensures Within(f, EvalSteps(m, env, ctx, ws, f), PassableSteps(m, ws), LeastSteps(ws), MostSteps(m, ws))
    decreases ws, 0, 0
  {
    if ws != [] {
      var f1 := Eval(m, env, ctx, ws[0], f);
      Takes(m, env, ctx, ws[0], f);
      if f1.halt.None? { StepsTake(m, env, ctx, ws[1..], f1); } else { HaltedSteps(m, env, ctx, ws[1..], f1); }
    }
  }

  /** The ends of the branches, the first one apart. */
  lemma EndsApart(m: nat, env: Env, ctx: Ctx, ws: seq<Workflow>, parent: Data)
    requires ws != []
    ensures var es := FlowEnds(EvalBranches(m, env, ctx, ws, parent));
            && es[0] == FlowEnd(Eval(m, env, ctx, ws[0], BranchFlow(m, parent)))
            && es[1..] == FlowEnds(EvalBranches(m, env, ctx, ws[1..], parent))
  {
    hide Eval;
  }

  lemma AllFrom(es: seq<End>)
    requires es != []
    ensures AllAsk(es) <==> Asks(es[0]) && AllAsk(es[1..])
    ensures AllEnded(es) <==> es[0].halt.None? && AllEnded(es[1..])
    ensures NonePaused(es) <==> !es[0].Paused?() && NonePaused(es[1..])
  {
    assert forall i :: 0 < i < |es| ==> es[i] == es[1..][i - 1];
  }

  lemma {:induction false} BranchesTake(m: nat, env: Env, ctx: Ctx, ws: seq<Workflow>, parent: Data)
    requires ShapedAll(ws)
    ensures var es := FlowEnds(EvalBranches(m, env, ctx, ws, parent)); AllAsk(es) && (AllEnded(es) ==> AllFit(m, ws))
    decreases ws, 0, 0
  {
    if ws != [] {
      hide Eval, Passable, Least, Most, AllAsk, AllEnded, FlowEnds, EvalBranches;
      var es := FlowEnds(EvalBranches(m, env, ctx, ws, parent));
      EndsApart(m, env, ctx, ws, parent);
      AllFrom(es);
      Takes(m, env, ctx, ws[0], BranchFlow(m, parent));
      BranchesTake(m, env, ctx, ws[1..], parent);
    }
  }

  lemma {:induction false} RoundsTake(m: nat, env: Env, ctx: Ctx, name: Name, body: Workflow, rounds: int, f: Flow)
    requires Shaped(body) && f.halt.None? && rounds >= 1
    ensures Within(f, EvalRounds(m, env, ctx, name, body, rounds, f), Passable(m, body), Least(body) + 1,
                   MostRounds(m, body, rounds))
    decreases body, 2, rounds
  {
    hide Eval, Shaped, Passable, Least, Most;
    Takes(m, env, ctx, body, f);
    var f1 := Visit(Eval(m, env, ctx, body, f), name);
    if f1.halt.None? && rounds > 1 { RoundsTake(m, env, ctx, name, body, rounds - 1, f1); }
  }

  // ---- which branches cannot pause ----

  ghost predicate IsWaiting(f: Flow) {
    f.halt.Some? && f.halt.value.1.Paused?
  }

  /** Only a leaf of a branch itself can pause the branch; inside a nested fan-out nothing pauses. */
  lemma {:induction false} DoesNotPause(m: nat, env: Env, ctx: Ctx, w: Workflow, f: Flow)
    requires Shaped(w) && f.halt.None? && ctx.level >= 1 && (ctx.level == 1 ==> !Pausable(m, w))
    ensures !IsWaiting(Eval(m, env, ctx, w, f))
    decreases w, 1, 0
  {
    hide CloseFan;
    match w
    case Task(_) =>
    case Sequence(steps) => StepsDoNotPause(m, env, ctx, steps, f);
    case FanOut(name, branches) =>
      if f.left > 0 {
        var bctx := InBranch(ctx, f.data, name);
        var es := FlowEnds(EvalBranches(m, env, bctx, branches, f.data));
        BranchesDoNotPause(m, env, bctx, branches, f.data);
        NoPauses(f.data, Entries(branches), es);
      }
    case Repeat(name, body, maxIterations) =>
      if f.left > 0 { RoundsDoNotPause(m, env, ctx, name, body, maxIterations, Visit(f, name)); }
  }

  ghost predicate NonePaused(es: seq<End>) {
    forall i :: 0 <= i < |es| ==> !es[i].Paused?()
  }

  lemma NoPauses(parent: Data, entries: seq<Name>, es: seq<End>)
    requires |entries| == |es| && NonePaused(es)
    ensures var r := CloseFan(parent, entries, es); r.NotJoined? ==> !r.halt.Paused?
  {
    Congruence.NothingPaused(entries, es);
  }

  lemma {:induction false} StepsDoNotPause(m: nat, env: Env, ctx: Ctx, ws: seq<Workflow>, f: Flow)
    requires ShapedAll(ws) && f.halt.None? && ctx.level >= 1 && (ctx.level == 1 ==> !PausableSteps(m, ws))
    ensures !IsWaiting(EvalSteps(m, env, ctx, ws, f))
    decreases ws, 0, 0
  {
    if ws != [] {
      var f1 := Eval(m, env, ctx, ws[0], f);
      DoesNotPause(m, env, ctx, ws[0], f);
      Takes(m, env, ctx, ws[0], f);
      if f1.halt.None? { StepsDoNotPause(m, env, ctx, ws[1..], f1); } else { HaltedSteps(m, env, ctx, ws[1..], f1); }
    }
  }

  lemma {:induction false} BranchesDoNotPause(m: nat, env: Env, ctx: Ctx, ws: seq<Workflow>, parent: Data)
    requires ShapedAll(ws) && ctx.level > 1
    ensures NonePaused(FlowEnds(EvalBranches(m, env, ctx, ws, parent)))
    decreases ws, 0, 0
  {
    if ws != [] {
      hide Eval, NonePaused, FlowEnds, EvalBranches;
      EndsApart(m, env, ctx, ws, parent);
      AllFrom(FlowEnds(EvalBranches(m, env, ctx, ws, parent)));
      DoesNotPause(m, env, ctx, ws[0], BranchFlow(m, parent));
      BranchesDoNotPause(m, env, ctx, ws[1..], parent);
    }
  }

  lemma {:induction false} RoundsDoNotPause(m: nat, env: Env, ctx: Ctx, name: Name, body: Workflow, rounds: int,
                                            f: Flow)
    requires Shaped(body) && f.halt.None? && rounds >= 1 && ctx.level >= 1 && (ctx.level == 1 ==> !Pausable(m, body))
    ensures !IsWaiting(EvalRounds(m, env, ctx, name, body, rounds, f))
    decreases body, 2, rounds
  {
    hide Eval, Shaped, Pausable;
    DoesNotPause(m, env, ctx, body, f);
    var f1 := Visit(Eval(m, env, ctx, body, f), name);
    if f1.halt.None? && rounds > 1 { RoundsDoNotPause(m, env, ctx, name, body, rounds - 1, f1); }
  }

  // ---- a limit that is not too short never ends a run ----

  /** Some branch ran out of steps and the fan-out reports it. */
  ghost predicate BranchOut(h: Option<Halt>) {
    h.Some? && h.value.Failed? && h.value.error.BranchFailed? && h.value.error.error == StepLimit
  }

  ghost predicate ReportsLimit(f: Flow) {
    OutOfSteps(f) || BranchOut(FlowEnd(f).halt)
  }

  lemma {:induction false} NoOverrun(m: nat, env: Env, ctx: Ctx, w: Workflow, f: Flow)
    requires Shaped(w) && f.halt.None? && ctx.level == 0 && !FanOverruns(m, w)
    ensures !BranchOut(FlowEnd(Eval(m, env, ctx, w, f)).halt)
    decreases w, 1, 0
  {
    hide CloseFan;
    match w
    case Task(_) =>
    case Sequence(steps) => NoStepsOverrun(m, env, ctx, steps, f);
    case FanOut(name, branches) =>
      if f.left > 0 {
        var bctx := InBranch(ctx, f.data, name);
        var es := FlowEnds(EvalBranches(m, env, bctx, branches, f.data));
        NoBranchOverrun(m, env, bctx, branches, f.data);
        FirstReported(f.data, Entries(branches), es);
      }
    case Repeat(name, body, maxIterations) =>
      if f.left > 0 { NoRoundsOverrun(m, env, ctx, name, body, maxIterations, Visit(f, name)); }
  }

  /** The first branch to fail did not run out of steps. */
  ghost predicate FailsElsewhere(es: seq<End>) {
    var i := FirstFailed(es);
    i < |es| ==> es[i].halt != Some(Failed(StepLimit))
  }

  lemma FirstReported(parent: Data, entries: seq<Name>, es: seq<End>)
    requires |entries| == |es| && FailsElsewhere(es)
    ensures var r := CloseFan(parent, entries, es); r.NotJoined? ==> !BranchOut(Some(r.halt))
  {
  }

  lemma FailsElsewhereFrom(es: seq<End>)
    requires es != [] && es[0].halt != Some(Failed(StepLimit)) && (es[0].Failed?() || FailsElsewhere(es[1..]))
    ensures FailsElsewhere(es)
  {
  }

  lemma {:induction false} NoBranchOverrun(m: nat, env: Env, ctx: Ctx, ws: seq<Workflow>, parent: Data)
    requires ShapedAll(ws) && ctx.level == 1 && !Overruns(m, ws)
    ensures FailsElsewhere(FlowEnds(EvalBranches(m, env, ctx, ws, parent)))
    decreases ws, 0, 0
  {
    if ws != [] {
      var f := BranchFlow(m, parent);
      var es := FlowEnds(EvalBranches(m, env, ctx, ws, parent));
      EndsApart(m, env, ctx, ws, parent);
      hide Eval, EvalBranches, FlowEnds, Most, Passable, Pausable, FailsElsewhere, FirstFailed;
      Takes(m, env, ctx, ws[0], f);
      if Passable(m, ws[0]) || Pausable(m, ws[0]) {
        NoBranchOverrun(m, env, ctx, ws[1..], parent);
      } else {
        DoesNotPause(m, env, ctx, ws[0], f);
      }
      FailsElsewhereFrom(es);
    }
  }

  lemma {:induction false} NoStepsOverrun(m: nat, env: Env, ctx: Ctx, ws: seq<Workflow>, f: Flow)
    requires ShapedAll(ws) && f.halt.None? && ctx.level == 0 && !StepsOverrun(m, ws)
    ensures !BranchOut(FlowEnd(EvalSteps(m, env, ctx, ws, f)).halt)
    decreases ws, 0, 0
  {
    if ws != [] {
      var f1 := Eval(m, env, ctx, ws[0], f);
      NoOverrun(m, env, ctx, ws[0], f);
      Takes(m, env, ctx, ws[0], f);
      if f1.halt.None? { NoStepsOverrun(m, env, ctx, ws[1..], f1); } else { HaltedSteps(m, env, ctx, ws[1..], f1); }
    }
  }

  lemma {:induction false} NoRoundsOverrun(m: nat, env: Env, ctx: Ctx, name: Name, body: Workflow, rounds: int, f: Flow)
    requires Shaped(body) && f.halt.None? && rounds >= 1 && ctx.level == 0 && !FanOverruns(m, body)
    ensures !BranchOut(FlowEnd(EvalRounds(m, env, ctx, name, body, rounds, f)).halt)
    decreases body, 2, rounds
  {
    hide Eval, Shaped, FanOverruns;
    NoOverrun(m, env, ctx, body, f);
    var f1 := Visit(Eval(m, env, ctx, body, f), name);
    if f1.halt.None? && rounds > 1 { NoRoundsOverrun(m, env, ctx, name, body, rounds - 1, f1); }
  }

  /** Whatever the nodes do, a limit that is not too short ends neither the run nor a branch of its top-level chain. */
  lemma EnoughSteps(m: nat, env: Env, w: Workflow, data: Data)
    requires Shaped(w) && m >= 1 && !TooShort(m, w)
    ensures !ReportsLimit(Eval(m, env, TOP, w, Flow(data, {}, [], m, None)))
  {
    var f := Flow(data, {}, [], m, None);
    Takes(m, env, TOP, w, f);
    NoOverrun(m, env, TOP, w, f);
  }
}
