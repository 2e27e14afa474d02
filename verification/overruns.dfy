/** A branch of a fan-out brought to its limit while every branch before it ends or pauses. */
module Overrunning {
  import opened Options
  import opened Graphs
  import opened Executor
  import opened Workflows
  import opened Compilation
  import opened CompilerTheorem
  import opened StepNeeds
  import opened ScriptedRuns

  /** The first branch that can be asked for more than `m` nodes. */
  function Overrunner(m: nat, bs: seq<Workflow>): (i: nat)
    requires Overruns(m, bs)
    ensures i < |bs| && Most(m, bs[i]) > m
    ensures forall j :: 0 <= j < i ==> Most(m, bs[j]) <= m && (Passable(m, bs[j]) || Pausable(m, bs[j]))
  {
    if Most(m, bs[0]) > m then 0 else 1 + Overrunner(m, bs[1..])
  }

  /** The fan-out where that happens. */
  function Tight(m: nat, w: Workflow): (t: Workflow)
    requires FanOverruns(m, w)
    ensures t.FanOut? && Overruns(m, t.branches)
    decreases w, 0
  {
    match w
    case Sequence(steps) => TightStep(m, steps)
    case FanOut(_, _) => w
    case Repeat(_, body, _) => Tight(m, body)
  }

  function TightStep(m: nat, ws: seq<Workflow>): (t: Workflow)
    requires StepsOverrun(m, ws)
    ensures t.FanOut? && Overruns(m, t.branches)
    decreases ws, 0
  {
    if FanOverruns(m, ws[0]) then Tight(m, ws[0]) else TightStep(m, ws[1..])
  }

  function FirstLeaf(w: Workflow): Name
    decreases w
  {
    match w
    case Task(name) => name
    case Sequence(steps) => if steps == [] then "" else FirstLeaf(steps[0])
    case FanOut(_, branches) => if branches == [] then "" else FirstLeaf(branches[0])
    case Repeat(_, body, _) => FirstLeaf(body)
  }

  lemma {:induction false} FirstLeafNamed(w: Workflow)
    requires Solid(w)
    ensures FirstLeaf(w) in Names(w)
    decreases w
  {
    match w
    case Task(name) => assert name == Names(w)[0];
    case Sequence(steps) => FirstLeafNamed(steps[0]);
    case FanOut(_, branches) => FirstLeafNamed(branches[0]);
    case Repeat(_, body, _) => FirstLeafNamed(body);
  }

  /** Where the branches before branch `i` that cannot be passed pause. */
  function Waits(m: nat, bs: seq<Workflow>, i: nat): set<Name> {
    set j: nat | j < i && j < |bs| && !Passable(m, bs[j]) && Pausable(m, bs[j]) :: FirstPause(m, bs[j])
  }

  lemma {:induction false} SolidAt(ws: seq<Workflow>, i: nat)
    requires SolidAll(ws) && i < |ws|
    ensures Solid(ws[i])
  {
    if i > 0 { SolidAt(ws[1..], i - 1); }
  }

  lemma {:induction false} ShapedAt(ws: seq<Workflow>, i: nat)
    requires ShapedAll(ws) && i < |ws|
    ensures Shaped(ws[i])
  {
    if i > 0 { ShapedAt(ws[1..], i - 1); }
  }

  lemma {:induction false} NamesAt(ws: seq<Workflow>, i: nat)
    requires Distinct(NamesAll(ws)) && i < |ws|
    ensures Distinct(Names(ws[i])) && forall n <- Names(ws[i]) :: n in NamesAll(ws)
  {
    DistinctParts(Names(ws[0]), NamesAll(ws[1..]));
    if i > 0 { NamesAt(ws[1..], i - 1); }
  }

  lemma {:induction false} NamesApart(ws: seq<Workflow>, i: nat, j: nat)
    requires Distinct(NamesAll(ws)) && i < j < |ws|
    ensures forall n <- Names(ws[i]) :: n !in Names(ws[j])
  {
    DistinctParts(Names(ws[0]), NamesAll(ws[1..]));
    if i > 0 { NamesApart(ws[1..], i - 1, j - 1); } else { NamesAt(ws[1..], j - 1); }
  }

  /** The script for such a fan-out. */
  function Script(m: nat, bs: seq<Workflow>): Env
    requires Overruns(m, bs)
  {
    var i := Overrunner(m, bs);
    Scripted(OwnLoops(bs[i]), Waits(m, bs, i), FirstLeaf(bs[i]))
  }

  /** What the script says about each branch. */
  lemma ScriptLocal(m: nat, bs: seq<Workflow>, j: nat)
    requires Overruns(m, bs) && SolidAll(bs) && ShapedAll(bs) && Distinct(NamesAll(bs)) && j <= Overrunner(m, bs)
    ensures var i := Overrunner(m, bs);
            var names, greedy, waits := Names(bs[j]), OwnLoops(bs[i]), Waits(m, bs, i);
            && Distinct(names) && Shaped(bs[j])
            && (j == i ==> Eager(OwnLoops(bs[j]), names, greedy, waits))
            && (j < i && Passable(m, bs[j]) ==> Plainly(names, greedy, waits))
            && (j < i && !Passable(m, bs[j]) ==> WaitsAt(FirstPause(m, bs[j]), names, greedy, waits))
  {
    var i := Overrunner(m, bs);
    var names, waits := Names(bs[j]), Waits(m, bs, i);
    NamesAt(bs, j);
    ShapedAt(bs, j);
    OwnLoopsNamed(bs[i]);
    if j < i { NamesApart(bs, j, i); }
    forall n | n in names && n in waits
      ensures j < i && !Passable(m, bs[j]) && n == FirstPause(m, bs[j])
    {
      var k: nat :| k < i && k < |bs| && !Passable(m, bs[k]) && Pausable(m, bs[k]) && n == FirstPause(m, bs[k]);
      FirstPauseNamed(m, bs[k]);
      if k < j { NamesApart(bs, k, j); }
      if j < k { NamesApart(bs, j, k); }
    }
  }

  ghost predicate FailsFirst(es: seq<End>, i: nat) {
    i < |es| && es[i].halt == Some(Failed(StepLimit)) && forall j :: 0 <= j < i ==> !es[j].Failed?()
  }

  lemma FailsFirstReported(parent: Data, entries: seq<Name>, es: seq<End>, i: nat)
    requires |entries| == |es| && FailsFirst(es, i)
    ensures CloseFan(parent, entries, es) == NotJoined(Failed(BranchFailed(i, StepLimit)))
  {
    assert FirstFailed(es) == i;
  }

  lemma OverrunFan(m: nat, ctx: Ctx, bs: seq<Workflow>, parent: Data)
    requires Overruns(m, bs) && SolidAll(bs) && ShapedAll(bs) && Distinct(NamesAll(bs)) && ctx.level == 1
    ensures FailsFirst(FlowEnds(EvalBranches(m, Script(m, bs), ctx, bs, parent)), Overrunner(m, bs))
  {
    hide Eval, Most, Passable, Pausable;
    var i := Overrunner(m, bs);
    var greedy, waits, writer := OwnLoops(bs[i]), Waits(m, bs, i), FirstLeaf(bs[i]);
    var f := BranchFlow(m, parent);
    var es := FlowEnds(EvalBranches(m, Script(m, bs), ctx, bs, parent));
    forall j | 0 <= j < i ensures !es[j].Failed?() {
      ScriptLocal(m, bs, j);
      if Passable(m, bs[j]) {
        LeastMost(m, bs[j]);
        Lazy(m, greedy, waits, writer, ctx, bs[j], f);
      } else {
        Waiting(m, greedy, waits, writer, ctx, bs[j], f);
      }
    }
    ScriptLocal(m, bs, i);
    Greedy(m, greedy, waits, writer, ctx, bs[i], f);
  }

  // ---- reaching it ----

  lemma {:induction false} TightNamed(m: nat, w: Workflow)
    requires FanOverruns(m, w) && Solid(w) && Shaped(w) && Distinct(Names(w))
    ensures var t := Tight(m, w);
            && Solid(t) && Shaped(t) && Distinct(NamesAll(t.branches))
            && forall n <- NamesAll(t.branches) :: n in Names(w)
    decreases w, 0
  {
    match w
    case Sequence(steps) => TightStepNamed(m, steps);
    case FanOut(name, branches) => DistinctParts([name], NamesAll(branches));
    case Repeat(name, body, _) =>
      DistinctParts([name], Names(body));
      TightNamed(m, body);
  }

  lemma {:induction false} TightStepNamed(m: nat, ws: seq<Workflow>)
    requires StepsOverrun(m, ws) && SolidSteps(ws) && ShapedAll(ws) && Distinct(NamesAll(ws))
    ensures var t := TightStep(m, ws);
            && Solid(t) && Shaped(t) && Distinct(NamesAll(t.branches))
            && forall n <- NamesAll(t.branches) :: n in NamesAll(ws)
    decreases ws, 0
  {
    DistinctParts(Names(ws[0]), NamesAll(ws[1..]));
    if FanOverruns(m, ws[0]) {
      TightNamed(m, ws[0]);
    } else {
      if NamesAll(ws[1..]) == [] { BlankOverrun(m, ws[1..]); }
      TightStepNamed(m, ws[1..]);
    }
  }

  /** Steps that hold nothing hold no fan-out. */
  lemma {:induction false} BlankOverrun(m: nat, ws: seq<Workflow>)
    requires NamesAll(ws) == []
    ensures !StepsOverrun(m, ws)
    decreases ws, 0
  {
    if ws != [] {
      if ws[0].Sequence? { BlankOverrun(m, ws[0].steps); }
      BlankOverrun(m, ws[1..]);
    }
  }

  /** The script names only leaves and loops of the fan-out. */
  lemma ScriptNames(m: nat, bs: seq<Workflow>)
    requires Overruns(m, bs) && SolidAll(bs) && Distinct(NamesAll(bs))
    ensures var i := Overrunner(m, bs);
            && (forall n <- OwnLoops(bs[i]) :: n in NamesAll(bs)) && (forall n <- Waits(m, bs, i) :: n in NamesAll(bs))
            && FirstLeaf(bs[i]) in NamesAll(bs)
  {
    var i := Overrunner(m, bs);
    SolidAt(bs, i);
    NamesAt(bs, i);
    OwnLoopsNamed(bs[i]);
    FirstLeafNamed(bs[i]);
    forall n | n in Waits(m, bs, i) ensures n in NamesAll(bs) {
      var k: nat :| k < i && k < |bs| && !Passable(m, bs[k]) && Pausable(m, bs[k]) && n == FirstPause(m, bs[k]);
      FirstPauseNamed(m, bs[k]);
      NamesAt(bs, k);
    }
  }

  ghost predicate StoppedAt(f: Flow, r: Flow, m: nat, t: Workflow)
    requires t.FanOut? && Overruns(m, t.branches)
  {
    && r.halt == Some((t.name, Failed(BranchFailed(Overrunner(m, t.branches), StepLimit)))) && r.data == f.data
  }

  lemma {:induction false} Reached(m: nat, ctx: Ctx, w: Workflow, f: Flow)
    requires FanOverruns(m, w) && Solid(w) && Shaped(w) && Distinct(Names(w)) && ctx.level == 0
    requires f.halt.None? && f.left >= Most(m, w)
    ensures StoppedAt(f, Eval(m, Script(m, Tight(m, w).branches), ctx, w, f), m, Tight(m, w))
    decreases w, 1
  {
    match w
    case Sequence(steps) => ReachedSteps(m, ctx, steps, f);
    case FanOut(name, branches) =>
      DistinctParts([name], NamesAll(branches));
      var bctx := InBranch(ctx, f.data, name);
      var es := FlowEnds(EvalBranches(m, Script(m, branches), bctx, branches, f.data));
      OverrunFan(m, bctx, branches, f.data);
      FailsFirstReported(f.data, Entries(branches), es, Overrunner(m, branches));
    case Repeat(name, body, maxIterations) =>
      DistinctParts([name], Names(body));
      Reached(m, ctx, body, Visit(f, name));
  }

  lemma {:induction false} ReachedSteps(m: nat, ctx: Ctx, ws: seq<Workflow>, f: Flow)
    requires StepsOverrun(m, ws) && SolidSteps(ws) && ShapedAll(ws) && Distinct(NamesAll(ws)) && ctx.level == 0
    requires f.halt.None? && f.left >= MostSteps(m, ws)
    ensures StoppedAt(f, EvalSteps(m, Script(m, TightStep(m, ws).branches), ctx, ws, f), m, TightStep(m, ws))
    decreases ws, 0
  {
    var bs := TightStep(m, ws).branches;
    var env := Script(m, bs);
    DistinctParts(Names(ws[0]), NamesAll(ws[1..]));
    if FanOverruns(m, ws[0]) {
      Reached(m, ctx, ws[0], f);
      HaltedSteps(m, env, ctx, ws[1..], Eval(m, env, ctx, ws[0], f));
    } else {
      if NamesAll(ws[1..]) == [] { BlankOverrun(m, ws[1..]); }
      TightStepNamed(m, ws[1..]);
      ScriptNames(m, bs);
      LeastMost(m, ws[0]);
      var i := Overrunner(m, bs);
      Lazy(m, OwnLoops(bs[i]), Waits(m, bs, i), FirstLeaf(bs[i]), ctx, ws[0], f);
      ReachedSteps(m, ctx, ws[1..], Eval(m, env, ctx, ws[0], f));
    }
  }

  // ---- what a branch leaves behind once it gets through ----

  ghost predicate HasKey(f: Flow) {
    KEY in f.writes && KEY in f.data.values
  }

  /** A flow that ended, and if it started with the key has it still. */
  ghost predicate KeyStays(f: Flow, r: Flow) {
    r.halt.None? && HasKey(f) ==> HasKey(r)
  }

  lemma {:induction false} KeepsKey(m: nat, greedy: set<Name>, waits: set<Name>, writer: Name, ctx: Ctx, w: Workflow,
                                    f: Flow)
    ensures KeyStays(f, Eval(m, Scripted(greedy, waits, writer), ctx, w, f))
    decreases w, 1, 0
  {
    hide CloseFan;
    match w
    case Task(_) =>
    case Sequence(steps) => StepsKeepKey(m, greedy, waits, writer, ctx, steps, f);
    case FanOut(name, branches) =>
      var es := FlowEnds(EvalBranches(m, Scripted(greedy, waits, writer), InBranch(ctx, f.data, name), branches,
                                      f.data));
      JoinKeeps(f.data, Entries(branches), es);
    case Repeat(name, body, maxIterations) =>
      if f.halt.None? && f.left > 0 && maxIterations >= 1 {
        RoundsKeepKey(m, greedy, waits, writer, ctx, name, body, maxIterations, Visit(f, name));
      }
  }

  lemma JoinKeeps(parent: Data, entries: seq<Name>, es: seq<End>)
    requires |entries| == |es|
    ensures var r := CloseFan(parent, entries, es); r.Joined? ==> forall k <- parent.values :: k in r.data.values
  {
  }

  lemma {:induction false} StepsKeepKey(m: nat, greedy: set<Name>, waits: set<Name>, writer: Name, ctx: Ctx,
                                        ws: seq<Workflow>, f: Flow)
    ensures KeyStays(f, EvalSteps(m, Scripted(greedy, waits, writer), ctx, ws, f))
    decreases ws, 0, 0
  {
    if ws != [] {
      var env := Scripted(greedy, waits, writer);
      var f1 := Eval(m, env, ctx, ws[0], f);
      KeepsKey(m, greedy, waits, writer, ctx, ws[0], f);
      StepsKeepKey(m, greedy, waits, writer, ctx, ws[1..], f1);
      if f1.halt.Some? { HaltedSteps(m, env, ctx, ws[1..], f1); }
    }
  }

  lemma {:induction false} RoundsKeepKey(m: nat, greedy: set<Name>, waits: set<Name>, writer: Name, ctx: Ctx,
                                         name: Name, body: Workflow, rounds: int, f: Flow)
    requires rounds >= 1
    ensures KeyStays(f, EvalRounds(m, Scripted(greedy, waits, writer), ctx, name, body, rounds, f))
    decreases body, 2, rounds
  {
    hide Eval;
    KeepsKey(m, greedy, waits, writer, ctx, body, f);
    var f1 := Visit(Eval(m, Scripted(greedy, waits, writer), ctx, body, f), name);
    if f1.halt.None? && rounds > 1 { RoundsKeepKey(m, greedy, waits, writer, ctx, name, body, rounds - 1, f1); }
  }

  lemma {:induction false} OwnedHas(es: seq<End>, i: nat, k: string)
    requires i < |es| && k in es[i].writes && k in es[i].data.values
    ensures k in OwnedAll(es)
  {
    if i < |es| - 1 { OwnedHas(es[..|es| - 1], i, k); }
  }

  /** A workflow that got through started its first leaf. */
  lemma {:induction false} SetsKey(m: nat, greedy: set<Name>, waits: set<Name>, ctx: Ctx, w: Workflow, f: Flow)
    requires Solid(w) && Shaped(w) && f.halt.None?
    ensures var r := Eval(m, Scripted(greedy, waits, FirstLeaf(w)), ctx, w, f); r.halt.None? ==> HasKey(r)
    decreases w, 1
  {
    hide CloseFan;
    var writer := FirstLeaf(w);
    var env := Scripted(greedy, waits, writer);
    match w
    case Task(_) =>
    case Sequence(steps) =>
      var f1 := Eval(m, env, ctx, steps[0], f);
      SetsKey(m, greedy, waits, ctx, steps[0], f);
      StepsKeepKey(m, greedy, waits, writer, ctx, steps[1..], f1);
      if f1.halt.Some? { HaltedSteps(m, env, ctx, steps[1..], f1); }
    case FanOut(name, branches) =>
      if f.left > 0 { FanSetsKey(m, greedy, waits, ctx, w, f); }
    case Repeat(name, body, maxIterations) =>
      if f.left > 0 {
        SetsKey(m, greedy, waits, ctx, body, Visit(f, name));
        var f1 := Visit(Eval(m, env, ctx, body, Visit(f, name)), name);
        if f1.halt.None? && maxIterations > 1 {
          RoundsKeepKey(m, greedy, waits, writer, ctx, name, body, maxIterations - 1, f1);
        }
      }
  }

  lemma {:induction false} FanSetsKey(m: nat, greedy: set<Name>, waits: set<Name>, ctx: Ctx, w: Workflow, f: Flow)
    requires w.FanOut? && Solid(w) && Shaped(w) && f.halt.None? && f.left > 0
    ensures var r := Eval(m, Scripted(greedy, waits, FirstLeaf(w)), ctx, w, f); r.halt.None? ==> HasKey(r)
    decreases w, 0
  {
    hide Pauses, FirstKeyClash, FirstHistoryClash;
    var env := Scripted(greedy, waits, FirstLeaf(w));
    var bctx := InBranch(ctx, f.data, w.name);
    var es := FlowEnds(EvalBranches(m, env, bctx, w.branches, f.data));
    if CloseFan(f.data, Entries(w.branches), es).Joined? {
      BranchesTake(m, env, bctx, w.branches, f.data);
      JoinedEnds(f.data, Entries(w.branches), es);
      SetsKey(m, greedy, waits, bctx, w.branches[0], BranchFlow(m, f.data));
      assert es[0].halt.None?;
      OwnedHas(es, 0, KEY);
    }
  }
}
