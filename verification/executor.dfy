/** How a chain of nodes (the top-level run or one branch of a fan-out) executes, as a function.
    `Step` is one turn of the loops in `drive` and `run_branch`. */
module Executor {
  import opened Options
  import opened Graphs

  /** A chain in progress. `left` is what remains of max_steps, `trace` the nodes started so far and
      `answer` the human reply that the next node, and only that one, receives. */
  datatype Chain = Chain(
    state: State, writes: set<string>, cur: Name, halt: Option<Halt>,
    trace: seq<Name>, left: nat, answer: Option<Answer>)

  /** `outer`: conversations of the enclosing chains; `level` 0 is the top-level chain; `join`: the
      Parallel node whose branch this chain is. */
  datatype Ctx = Ctx(outer: map<Name, History>, level: nat, join: Option<Name>)

  const TOP: Ctx := Ctx(map[], 0, None)

  datatype NodeResult =
    | Ran(state: State, written: set<string>, forced: Name, inner: seq<Name>)
    | Stopped(state: State, written: set<string>, halt: Halt, inner: seq<Name>)

  predicate IsFailed(c: Chain) {
    c.halt.Some? && c.halt.value.Failed?
  }

  predicate IsPaused(c: Chain) {
    c.halt.Some? && c.halt.value.Paused?
  }

  predicate AtEnd(ctx: Ctx, cur: Name) {
    cur == END || ctx.join == Some(cur)
  }

  predicate Live(ctx: Ctx, c: Chain) {
    c.halt.None? && !AtEnd(ctx, c.cur)
  }

  function Budget(g: Graph): nat {
    if g.maxSteps < 0 then 0 else g.maxSteps
  }

  /** A new run: loop counters of earlier runs are not carried over. */
  function Start(g: Graph, data: Data): Chain {
    Chain(State(data, map[]), {}, g.entry, None, [], Budget(g), None)
  }

  function BranchCtx(ctx: Ctx, parent: State, node: Name): Ctx {
    Ctx(ctx.outer + parent.data.histories, ctx.level + 1, Some(node))
  }

  /** A branch starts from a copy of its parent's values and with no conversation of its own. */
  function BranchStart(g: Graph, parent: State, entry: Name): Chain {
    Chain(State(Data(parent.data.values, map[]), parent.loops), {}, entry, None, [], Budget(g), None)
  }

  function BranchStarts(g: Graph, parent: State, entries: seq<Name>): (bs: seq<Chain>)
    ensures |bs| == |entries|
  {
    seq(|entries|, i requires 0 <= i < |entries| => BranchStart(g, parent, entries[i]))
  }

  // ---- the join of a fan-out ----

  /** What the join looks at in a branch that has stopped. */
  datatype End = End(data: Data, writes: set<string>, halt: Option<Halt>, trace: seq<Name>) {
    predicate Failed?() { halt.Some? && halt.value.Failed? }
    predicate Paused?() { halt.Some? && halt.value.Paused? }

    /** What the branch hands to the join: the keys it wrote that still hold a value. */
    function Owned(): map<string, string> {
      map k | k in writes && k in data.values :: data.values[k]
    }
  }

  function EndOf(c: Chain): End {
    End(c.state.data, c.writes, c.halt, c.trace)
  }

  function Ends(bs: seq<Chain>): (es: seq<End>)
    ensures |es| == |bs|
  {
    seq(|bs|, i requires 0 <= i < |bs| => EndOf(bs[i]))
  }

  function Traces(es: seq<End>): seq<Name> {
    if es == [] then [] else es[0].trace + Traces(es[1..])
  }

  /** Index of the first failed branch, or |es|. */
  function FirstFailed(es: seq<End>): (i: nat)
    ensures i <= |es|
    ensures i < |es| ==> es[i].Failed?()
    ensures forall j :: 0 <= j < i ==> !es[j].Failed?()
  {
    if es == [] || es[0].Failed?() then 0 else
    var r := FirstFailed(es[1..]);
    assert forall j :: 0 < j < 1 + r ==> es[j] == es[1..][j - 1];
    1 + r
  }

  /** The pauses of every paused branch, in branch order, each named after its branch. */
  function Pauses(entries: seq<Name>, es: seq<End>): seq<Interrupt>
    requires |entries| == |es|
  {
    if es == [] then [] else
      (if es[0].Paused?() then Named(entries[0], es[0].halt.value.pauses) else []) + Pauses(entries[1..], es[1..])
  }

  function Named(entry: Name, pauses: seq<Interrupt>): seq<Interrupt> {
    seq(|pauses|, i requires 0 <= i < |pauses| => pauses[i].(branch := entry))
  }

  predicate KeysClash(es: seq<End>, j: nat)
    requires j < |es|
  {
    exists i :: 0 <= i < j && es[i].writes * es[j].writes != {}
  }

  predicate HistoriesClash(es: seq<End>, j: nat)
    requires j < |es|
  {
    exists i :: 0 <= i < j && es[i].data.histories.Keys * es[j].data.histories.Keys != {}
  }

  /** First branch that clashes with an earlier one, or |es|. */
  function FirstKeyClash(es: seq<End>, from: nat): (j: nat)
    requires from <= |es|
    ensures from <= j <= |es|
    ensures j < |es| ==> KeysClash(es, j)
    ensures forall k :: from <= k < j ==> !KeysClash(es, k)
    decreases |es| - from
  {
    if from == |es| || KeysClash(es, from) then from else FirstKeyClash(es, from + 1)
  }

  function FirstHistoryClash(es: seq<End>, from: nat): (j: nat)
    requires from <= |es|
    ensures from <= j <= |es|
    ensures j < |es| ==> HistoriesClash(es, j)
    ensures forall k :: from <= k < j ==> !HistoriesClash(es, k)
    decreases |es| - from
  {
    if from == |es| || HistoriesClash(es, from) then from else FirstHistoryClash(es, from + 1)
  }

  function OwnedAll(es: seq<End>): map<string, string> {
    if es == [] then map[] else OwnedAll(es[..|es| - 1]) + es[|es| - 1].Owned()
  }

  function HistoriesAll(es: seq<End>): map<Name, History> {
    if es == [] then map[] else HistoriesAll(es[..|es| - 1]) + es[|es| - 1].data.histories
  }

  /** The result of a Parallel node once every branch has stopped: the first failure, else the
      pauses, else a conflict, else the parent data with every branch's writes. */
  datatype Joined = Joined(data: Data, written: set<string>) | NotJoined(halt: Halt)

  function CloseFan(parent: Data, entries: seq<Name>, es: seq<End>): (r: Joined)
    requires |entries| == |es|
  {
    var failed := FirstFailed(es);
    var pauses := Pauses(entries, es);
    var keys := FirstKeyClash(es, 0);
    var histories := FirstHistoryClash(es, 0);
    if failed < |es| then NotJoined(Failed(BranchFailed(failed, es[failed].halt.value.error)))
    else if pauses != [] then NotJoined(Paused(pauses))
    else if keys < |es| then NotJoined(Failed(KeyConflict(keys)))
    else if histories < |es| then NotJoined(Failed(HistoryConflict(histories)))
    else Joined(Data(parent.values + OwnedAll(es), parent.histories + HistoriesAll(es)), OwnedAll(es).Keys)
  }

  function FanResult(s: State, entries: seq<Name>, es: seq<End>): NodeResult
    requires |entries| == |es|
  {
    match CloseFan(s.data, entries, es)
    case Joined(data, written) => Ran(State(data, s.loops), written, "", Traces(es))
    case NotJoined(halt) => Stopped(s, {}, halt, Traces(es))
  }

  // ---- one node ----

  function RunLeaf(env: Env, ctx: Ctx, c: Chain, name: Name): NodeResult {
    var d := c.state.data;
    match env.leaf(name, View(d.values, ctx.outer + d.histories), c.answer)
    case Finished(values, touched, written) =>
      Ran(c.state.(data := Data(values, d.histories + touched)), written, "", [])
    case Broke(values, touched, message) =>
      Stopped(c.state.(data := Data(values, d.histories + touched)), {}, Failed(NodeError(message)), [])
    case Suspended(values, touched, written, reason, calls) =>
      var s := c.state.(data := Data(values, d.histories + touched));
      if ctx.level > 1 then Stopped(s, {}, Failed(NestedPause), [])
      else Stopped(s, written, Paused([Interrupt("", name, reason, calls)]), [])
  }

  /** The loop controller: counts visits in the state, leaves when the count or the condition says so. */
  function RunLoop(env: Env, s: State, name: Name, body: Name, maxIterations: int): NodeResult {
    var done := if name in s.loops then s.loops[name] else 0;
    var leave := Ran(s.(loops := s.loops - {name}), {}, "", []);
    var again := Ran(s.(loops := s.loops[name := done + 1]), {}, body, []);
    if done >= maxIterations then leave
    else if done == 0 then again
    else match env.until(name, View(s.data.values, s.data.histories))
      case Ok(stop) => if stop then leave else again
      case Err(message) => Stopped(s, {}, Failed(NodeError(message)), [])
  }

  /** `fuel` bounds the nesting of fan-outs. */
  function RunNode(g: Graph, env: Env, fuel: nat, ctx: Ctx, c: Chain, node: Node): NodeResult
    decreases fuel, 0, 0
  {
    match node.kind
    case Leaf => RunLeaf(env, ctx, c, node.name)
    case Loop(body, maxIterations) => RunLoop(env, c.state, node.name, body, maxIterations)
    case Parallel(entries) =>
      if fuel == 0 then Stopped(c.state, {}, Failed(TooDeep), [])
      else
        var starts := BranchStarts(g, c.state, entries);
        FanResult(c.state, entries, Ends(RunAll(g, env, fuel - 1, BranchCtx(ctx, c.state, node.name), starts)))
  }

  /** Where a chain goes after a node. */
  function ResolveNext(g: Graph, env: Env, s: State, node: Node, forced: Name): Graphs.Result<Name> {
    if forced != "" then Ok(forced)
    else match FindEdge(g.edges, node.name)
      case None => Ok(Target(node.exitTo))
      case Some(Static(_, to)) => Ok(if to == END then Target(node.exitTo) else to)
      case Some(Conditional(_)) =>
        match env.route(node.name, View(s.data.values, s.data.histories))
        case Err(message) => Err(message)
        case Ok(to) =>
          if to == END then Ok(Target(node.exitTo))
          else if FindNode(g.nodes, to).None? then Err("unknown node")
          else Ok(to)
  }

  /** The chain after `node` ran with result `r`. A failed top-level node keeps what it changed; a
      failed branch stays as of its last completed node. */
  function Settle(g: Graph, env: Env, ctx: Ctx, c: Chain, node: Node, r: NodeResult): (c': Chain)
    requires c.left > 0
    ensures c'.left == c.left - 1
    ensures IsFailed(c') && ctx.level > 0 ==> c'.state == c.state && c'.writes == c.writes
    ensures c'.halt.Some? ==> c'.cur == c.cur
  {
    var at := c.(trace := c.trace + [node.name] + r.inner, left := c.left - 1, answer := None);
    match r
    case Ran(s, written, forced, _) =>
      (match ResolveNext(g, env, s, node, forced)
       case Ok(next) => at.(state := s, writes := c.writes + written, cur := next, halt := None)
       case Err(message) => Fail(ctx, at, s, NodeError(message)))
    case Stopped(s, written, Paused(pauses), _) =>
      at.(state := s, writes := c.writes + written, halt := Some(Paused(pauses)))
    case Stopped(s, _, Failed(error), _) => Fail(ctx, at, s, error)
  }

  function Fail(ctx: Ctx, c: Chain, partial: State, error: Error): Chain {
    c.(state := if ctx.level == 0 then partial else c.state, halt := Some(Failed(error)))
  }

  function Step(g: Graph, env: Env, fuel: nat, ctx: Ctx, c: Chain): (c': Chain)
    requires Live(ctx, c)
    ensures c'.halt.Some? || c'.left < c.left
    ensures c'.halt.Some? ==> c'.cur == c.cur
    ensures IsFailed(c') && ctx.level > 0 ==> c'.state == c.state && c'.writes == c.writes
    decreases fuel, 0, 1
  {
    if c.left == 0 then c.(halt := Some(Failed(StepLimit)))
    else match FindNode(g.nodes, c.cur)
      case None => c.(halt := Some(Failed(UnknownNode)))
      case Some(node) => Settle(g, env, ctx, c, node, RunNode(g, env, fuel, ctx, c, node))
  }

  /** The chain when nothing is left to run. */
  function Run(g: Graph, env: Env, fuel: nat, ctx: Ctx, c: Chain): (c': Chain)
    ensures !Live(ctx, c')
    decreases fuel, 1, if c.halt.Some? then 0 else c.left + 1
  {
    if !Live(ctx, c) then c else Run(g, env, fuel, ctx, Step(g, env, fuel, ctx, c))
  }

  function RunAll(g: Graph, env: Env, fuel: nat, ctx: Ctx, bs: seq<Chain>): (rs: seq<Chain>)
    ensures |rs| == |bs|
    ensures forall i :: 0 <= i < |bs| ==> rs[i] == Run(g, env, fuel, ctx, bs[i])
    decreases fuel, 2, |bs|
  {
    if bs == [] then [] else
    [Run(g, env, fuel, ctx, bs[0])] + RunAll(g, env, fuel, ctx, bs[1..])
  }

  /** One step on a node that is not a fan-out. */
  lemma StepSimple(g: Graph, env: Env, fuel: nat, ctx: Ctx, c: Chain, node: Node)
    requires Live(ctx, c) && c.left > 0 && FindNode(g.nodes, c.cur) == Some(node) && !node.kind.Parallel?
    ensures Step(g, env, fuel, ctx, c) == Settle(g, env, ctx, c, node,
      if node.kind.Leaf? then RunLeaf(env, ctx, c, node.name)
      else RunLoop(env, c.state, node.name, node.kind.body, node.kind.maxIterations))
  {
    var r := RunNode(g, env, fuel, ctx, c, node);
    assert r == if node.kind.Leaf? then RunLeaf(env, ctx, c, node.name)
                else RunLoop(env, c.state, node.name, node.kind.body, node.kind.maxIterations);
  }

  /** One step on a fan-out: every branch runs to its end, then the join. */
  lemma StepFan(g: Graph, env: Env, fuel: nat, ctx: Ctx, c: Chain, node: Node)
    requires Live(ctx, c) && c.left > 0 && FindNode(g.nodes, c.cur) == Some(node) && node.kind.Parallel? && fuel > 0
    ensures var starts := BranchStarts(g, c.state, node.kind.branches);
            var rs := RunAll(g, env, fuel - 1, BranchCtx(ctx, c.state, node.name), starts);
            Step(g, env, fuel, ctx, c) == Settle(g, env, ctx, c, node, FanResult(c.state, node.kind.branches, Ends(rs)))
  {
    var r := RunNode(g, env, fuel, ctx, c, node);
  }
}
