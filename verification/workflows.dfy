/** Structured workflows, what they mean, and the flat node lists the builders compile them to. */
module Workflows {
  import opened Options
  import opened Graphs
  import opened Executor

  datatype Workflow =
    | Task(name: Name)
    | Sequence(steps: seq<Workflow>)
    | FanOut(name: Name, branches: seq<Workflow>)
    | Repeat(name: Name, body: Workflow, maxIterations: int)

  // ---- shape ----

  /** Where a workflow starts; empty for a sequence that starts with nothing. */
  function Entry(w: Workflow): Name {
    match w
    case Task(name) => name
    case Sequence(steps) => if steps == [] then "" else Entry(steps[0])
    case FanOut(name, _) => name
    case Repeat(name, _, _) => name
  }

  function Names(w: Workflow): seq<Name>
    decreases w, 0
  {
    match w
    case Task(name) => [name]
    case Sequence(steps) => NamesAll(steps)
    case FanOut(name, branches) => [name] + NamesAll(branches)
    case Repeat(name, body, _) => [name] + Names(body)
  }

  function NamesAll(ws: seq<Workflow>): seq<Name>
    decreases ws, 0
  {
    if ws == [] then [] else Names(ws[0]) + NamesAll(ws[1..])
  }

  /** Every step of a sequence that holds nothing comes after all those that hold something, every
      fan-out has a branch and every loop at least one iteration. */
  predicate Solid(w: Workflow)
    decreases w, 0
  {
    match w
    case Task(_) => true
    case Sequence(steps) => SolidSteps(steps)
    case FanOut(_, branches) => branches != [] && SolidAll(branches)
    case Repeat(_, body, maxIterations) => maxIterations >= 1 && Solid(body)
  }

  predicate SolidSteps(steps: seq<Workflow>)
    decreases steps, 0
  {
    steps != [] && Solid(steps[0]) && (NamesAll(steps[1..]) == [] || SolidSteps(steps[1..]))
  }

  predicate SolidAll(ws: seq<Workflow>)
    decreases ws, 0
  {
    ws != [] ==> Solid(ws[0]) && SolidAll(ws[1..])
  }

  /** Nesting of fan-outs. */
  function Depth(w: Workflow): nat
    decreases w, 0
  {
    match w
    case Task(_) => 0
    case Sequence(steps) => DepthAll(steps)
    case FanOut(_, branches) => 1 + DepthAll(branches)
    case Repeat(_, body, _) => Depth(body)
  }

  function DepthAll(ws: seq<Workflow>): nat
    decreases ws, 0
  {
    if ws == [] then 0 else
    var a, b := Depth(ws[0]), DepthAll(ws[1..]);
    if a > b then a else b
  }

  // ---- meaning ----

  /** A workflow in progress. There is no program counter and no loop counter: where a workflow is
      follows from its structure. */
  datatype Flow = Flow(data: Data, writes: set<string>, trace: seq<Name>, left: nat, halt: Option<(Name, Halt)>)

  function Visit(f: Flow, name: Name): Flow {
    if f.halt.Some? then f
    else if f.left == 0 then f.(halt := Some((name, Failed(StepLimit))))
    else f.(trace := f.trace + [name], left := f.left - 1)
  }

  function EvalTask(env: Env, ctx: Ctx, name: Name, f: Flow): Flow {
    match env.leaf(name, View(f.data.values, ctx.outer + f.data.histories), None)
    case Finished(values, touched, written) =>
      f.(data := Data(values, f.data.histories + touched), writes := f.writes + written)
    case Broke(values, touched, message) =>
      f.(data := if ctx.level == 0 then Data(values, f.data.histories + touched) else f.data,
         halt := Some((name, Failed(NodeError(message)))))
    case Suspended(values, touched, written, reason, calls) =>
      var data := Data(values, f.data.histories + touched);
      if ctx.level > 1 then f.(halt := Some((name, Failed(NestedPause))))
      else f.(data := data, writes := f.writes + written,
              halt := Some((name, Paused([Interrupt("", name, reason, calls)]))))
  }

  function BranchFlow(budget: nat, parent: Data): Flow {
    Flow(Data(parent.values, map[]), {}, [], budget, None)
  }

  function InBranch(ctx: Ctx, parent: Data, name: Name): Ctx {
    Ctx(ctx.outer + parent.histories, ctx.level + 1, Some(name))
  }

  function FlowEnd(f: Flow): End {
    End(f.data, f.writes, if f.halt.Some? then Some(f.halt.value.1) else None, f.trace)
  }

  function FlowEnds(fs: seq<Flow>): (es: seq<End>)
    ensures |es| == |fs|
  {
    seq(|fs|, i requires 0 <= i < |fs| => FlowEnd(fs[i]))
  }

  function Entries(ws: seq<Workflow>): (es: seq<Name>)
    ensures |es| == |ws|
  {
    seq(|ws|, i requires 0 <= i < |ws| => Entry(ws[i]))
  }

  /** `f` after the branches of fan-out `name` ended with `es`. */
  function AfterJoin(f: Flow, name: Name, entries: seq<Name>, es: seq<End>): Flow
    requires |entries| == |es|
  {
    var f1 := f.(trace := f.trace + Traces(es));
    match CloseFan(f.data, entries, es)
    case Joined(data, written) => f1.(data := data, writes := f.writes + written)
    case NotJoined(halt) => f1.(halt := Some((name, halt)))
  }

  /** Runs `w`: steps one after another, every branch of a fan-out on its own copy of the data
      followed by the join, and a loop body once and then again while the count and the condition
      allow. `budget` is the number of nodes a chain may start. */
  function Eval(budget: nat, env: Env, ctx: Ctx, w: Workflow, f: Flow): Flow
    decreases w, 1, 0
  {
    if f.halt.Some? then f else
    match w
    case Task(name) =>
      var f1 := Visit(f, name);
      if f1.halt.Some? then f1 else EvalTask(env, ctx, name, f1)
    case Sequence(steps) => EvalSteps(budget, env, ctx, steps, f)
    case FanOut(name, branches) =>
      var f1 := Visit(f, name);
      if f1.halt.Some? then f1 else
      var fs := EvalBranches(budget, env, InBranch(ctx, f.data, name), branches, f.data);
      AfterJoin(f1, name, Entries(branches), FlowEnds(fs))
    case Repeat(name, body, maxIterations) =>
      var f1 := Visit(f, name);
      if f1.halt.Some? || maxIterations < 1 then f1 else EvalRounds(budget, env, ctx, name, body, maxIterations, f1)
  }

  function EvalSteps(budget: nat, env: Env, ctx: Ctx, ws: seq<Workflow>, f: Flow): Flow
    decreases ws, 0, 0
  {
    if ws == [] then f else EvalSteps(budget, env, ctx, ws[1..], Eval(budget, env, ctx, ws[0], f))
  }

  function EvalBranches(budget: nat, env: Env, ctx: Ctx, ws: seq<Workflow>, parent: Data): (fs: seq<Flow>)
    ensures |fs| == |ws|
    ensures forall i :: 0 <= i < |ws| ==> fs[i] == Eval(budget, env, ctx, ws[i], BranchFlow(budget, parent))
    decreases ws, 0, 0
  {
    if ws == [] then [] else
    [Eval(budget, env, ctx, ws[0], BranchFlow(budget, parent))] + EvalBranches(budget, env, ctx, ws[1..], parent)
  }

  /** At least one and at most `rounds` iterations of `body`, with a visit of the controller after each. */
  function EvalRounds(budget: nat, env: Env, ctx: Ctx, name: Name, body: Workflow, rounds: int, f: Flow): Flow
    requires rounds >= 1
    decreases body, 2, rounds
  {
    var f1 := Visit(Eval(budget, env, ctx, body, f), name);
    if f1.halt.Some? || rounds == 1 then f1
    else match env.until(name, View(f1.data.values, f1.data.histories))
      case Ok(stop) => if stop then f1 else EvalRounds(budget, env, ctx, name, body, rounds - 1, f1)
      case Err(message) => f1.(halt := Some((name, Failed(NodeError(message)))))
  }
}
