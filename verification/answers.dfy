/** Who hears the answer to a pause: the node that asked, once, and nobody else. */
module Answers {
  import opened Options
  import opened Graphs
  import opened Executor
  import opened Congruence
  import opened Durable
  import opened Resume
  import opened PartialResume
  import opened Transitions

  /** What a node is told when it is taken up again: the whole answer if tool calls wait for the decision, otherwise no
      decision and the input only if there is one. */
  function Heard(a: Answer, calls: seq<Call>): Option<Answer> {
    if calls != [] then Some(a) else if a.input != "" then Some(Answer(false, a.input)) else None
  }

  /** The values that it then sees. */
  function Given(values: map<string, string>, a: Answer): map<string, string> {
    if a.input == "" then values else values["temp:human_input" := a.input]
  }

  /** The request holds `a` for the pause of a run outside a fan-out. */
  predicate ForTop(req: Request, a: Answer) {
    req == Uniform(a) || req == PerBranch(map["" := a])
  }

  /** A run that stopped at a leaf is taken up by calling that leaf with the stored values and conversations and with
      the answer. */
  lemma LeafAnswered(g: Graph, env: Env, fuel: nat, cp: Checkpoint, req: Request, a: Answer, node: Node)
    requires Valid(g) && g.maxSteps > 0 && node in g.nodes && node.kind.Leaf?
    requires cp.status != Completed && cp.progress == None && cp.next == node.name
    requires ForTop(req, a) && Addressed(cp, req)
    ensures var r := Reload(g, fuel, cp, req);
            && r.Ok? && WellFormed(g, fuel, r.value) && Enabled(g, fuel, r.value, Plain)
            && var values := Given(cp.data.values, a);
               var calls := if cp.pauses == [] then [] else cp.pauses[0].calls;
               var told := env.leaf(node.name, View(values, cp.data.histories), Heard(a, calls));
               LeafRan(g, env, 0, node, State(Data(values, cp.data.histories), cp.loops), {}, told,
                       Apply(g, env, fuel, r.value, Plain).top)
  {
    hide LeafRan, Step, Valid;
    var e := Reload(g, fuel, cp, req).value;
    NodeIsValid(g, node);
    FoundByName(g, node);
    LeafTurn(g, env, fuel, TOP, e.top, node);
    assert map[] + cp.data.histories == cp.data.histories;
  }

  /** A leaf of the top-level chain is about to run and will ask for an answer. */
  ghost predicate Asks(g: Graph, env: Env, e: Exec, node: Node) {
    && e.fan == None && Live(TOP, e.top) && e.top.left > 0
    && node in g.nodes && node.kind.Leaf? && node.name == e.top.cur
    && env.leaf(node.name, View(e.top.state.data.values, e.top.state.data.histories), e.top.answer).Suspended?
  }

  /** What is stored then: the question, and what the leaf left without `temp:` values. */
  lemma AskedStored(g: Graph, env: Env, fuel: nat, e: Exec, node: Node)
    requires Valid(g) && Asks(g, env, e, node)
    ensures WellFormed(g, fuel, e) && Enabled(g, fuel, e, Plain)
    ensures var d := e.top.state.data;
            var asked := env.leaf(node.name, View(d.values, d.histories), e.top.answer);
            Encode(Apply(g, env, fuel, e, Plain)) ==
              Checkpoint(e.step, node.name, Waiting, Data(Strip(asked.values), d.histories + asked.touched),
                         e.top.state.loops, [Interrupt("", node.name, asked.reason, asked.calls)], None)
  {
    hide Step, Misrouted, Follows;
    FoundByName(g, node);
    LeafTurn(g, env, fuel, TOP, e.top, node);
    assert map[] + e.top.state.data.histories == e.top.state.data.histories;
  }

  /** The answer to that checkpoint calls the leaf again, with its own conversations and with what it asked for. */
  lemma AskedAndAnswered(g: Graph, env: Env, fuel: nat, e: Exec, node: Node, req: Request, a: Answer)
    requires Valid(g) && g.maxSteps > 0 && Asks(g, env, e, node) && ForTop(req, a)
    ensures WellFormed(g, fuel, e) && Enabled(g, fuel, e, Plain)
    ensures var d := e.top.state.data;
            var asked := env.leaf(node.name, View(d.values, d.histories), e.top.answer);
            var r := Reload(g, fuel, Encode(Apply(g, env, fuel, e, Plain)), req);
            var values, histories := Given(Strip(asked.values), a), d.histories + asked.touched;
            && r.Ok? && WellFormed(g, fuel, r.value) && Enabled(g, fuel, r.value, Plain)
            && LeafRan(g, env, 0, node, State(Data(values, histories), e.top.state.loops), {},
                       env.leaf(node.name, View(values, histories), Heard(a, asked.calls)),
                       Apply(g, env, fuel, r.value, Plain).top)
  {
    hide Apply, Encode, Reload, LeafRan, Enabled, Valid, WellFormed;
    AskedStored(g, env, fuel, e, node);
    LeafAnswered(g, env, fuel, Encode(Apply(g, env, fuel, e, Plain)), req, a, node);
  }

  // ---- nobody else ----

  /** No node that the chain has still to start is told anything. */
  predicate Untold(c: Chain) {
    c.answer == None || c.halt.Some?
  }

  predicate AllUntold(e: Exec) {
    Untold(e.top) && (InFan(e) ==> forall b <- e.fan.value.branches :: Untold(b))
  }

  lemma TurnUntold(g: Graph, env: Env, fuel: nat, ctx: Ctx, c: Chain)
    requires Live(ctx, c)
    ensures Untold(Step(g, env, fuel, ctx, c))
  {
    hide RunNode;
  }

  lemma MoveUntold(g: Graph, env: Env, fuel: nat, e: Exec, m: Move)
    requires WellFormed(g, fuel, e) && Enabled(g, fuel, e, m) && (m.Turn? || m.Open? ==> AllUntold(e))
    ensures AllUntold(Apply(g, env, fuel, e, m))
  {
    hide Step, FanResult;
    match m {
      case Plain => TurnUntold(g, env, fuel, TOP, e.top);
      case Open =>
      case Turn(i) => TurnUntold(g, env, fuel - 1, FanCtx(e), e.fan.value.branches[i]);
      case Close =>
    }
  }

  /** Where nobody is to be told anything, nobody is until the run ends. */
  lemma {:induction false} StaysUntold(g: Graph, env: Env, fuel: nat, e: Exec, moves: seq<Move>, e1: Exec)
    requires AllUntold(e) && Leads(g, env, fuel, e, moves, e1)
    ensures AllUntold(e1)
    decreases moves
  {
    hide Apply, AllUntold, Enabled, WellFormed;
    if moves != [] {
      MoveUntold(g, env, fuel, e, moves[0]);
      StaysUntold(g, env, fuel, Apply(g, env, fuel, e, moves[0]), moves[1..], e1);
    }
  }

  /** So the answer to a pause outside a fan-out is told to one node: after the first turn none is told anything, in
      whatever order the turns come. */
  lemma ToldOnce(g: Graph, env: Env, fuel: nat, e: Exec, moves: seq<Move>, e1: Exec)
    requires e.fan == None && Leads(g, env, fuel, e, moves, e1) && moves != [] && moves[0].Plain?
    ensures AllUntold(e1)
  {
    MoveUntold(g, env, fuel, e, Plain);
    StaysUntold(g, env, fuel, Apply(g, env, fuel, e, Plain), moves[1..], e1);
  }

  // ---- the branches of a fan-out ----

  /** The checkpoint of a run that is to go on inside the fan-out `node`. */
  ghost predicate InsideOf(g: Graph, cp: Checkpoint, node: Node) {
    && node in g.nodes && node.kind.Parallel? && cp.status != Completed && cp.next == node.name
    && cp.progress.Some? && cp.progress.value.node == node.name
    && |cp.progress.value.records| == |node.kind.branches|
    && forall i :: 0 <= i < |node.kind.branches| ==> cp.progress.value.records[i].entry == node.kind.branches[i]
  }

  /** The request holds `a` for a paused branch: one for all, which a run that failed does not take, or its own. */
  predicate ForBranch(cp: Checkpoint, req: Request, entry: Name, a: Answer) {
    match req
    case Uniform(b) => cp.status == Waiting && a == b
    case PerBranch(answers) => entry in answers && answers[entry] == a
  }

  /** A branch that did not pause is told nothing; one that paused and has no answer stays as it is. */
  lemma OthersUntold(g: Graph, fuel: nat, cp: Checkpoint, req: Request, node: Node, i: nat)
    requires Valid(g) && g.maxSteps > 0 && fuel > 0 && InsideOf(g, cp, node) && Addressed(cp, req)
    requires i < |node.kind.branches|
    ensures var r := Reload(g, fuel, cp, req);
            && r.Ok? && WellFormed(g, fuel, r.value) && InFan(r.value) && r.value.fan.value.node == node
            && r.value.fan.value.records == cp.progress.value.records
            && r.value.top.state == State(cp.data, cp.loops) && r.value.top.answer == None
            && var rec, b := cp.progress.value.records[i], r.value.fan.value.branches[i];
               && (rec.status != Interrupted ==> b.answer == None && b.halt == None)
               && (rec.status == Interrupted && (forall a :: !ForBranch(cp, req, rec.entry, a)) ==>
                     b.answer == None && b.halt == Some(Paused(rec.pauses)))
  {
    hide RebuiltState, Valid;
    FoundByName(g, node);
    NodeIsValid(g, node);
    assert req.Uniform? ==> ForBranch(cp, req, cp.progress.value.records[i].entry, req.answer) || cp.status != Waiting;
    assert forall entry :: req.PerBranch? && entry in req.answers ==> ForBranch(cp, req, entry, req.answers[entry]);
  }

  /** A branch that paused at a leaf is taken up by calling that leaf with what the branch left, the conversations
      around it and its own answer. */
  lemma BranchAnswered(g: Graph, env: Env, fuel: nat, cp: Checkpoint, req: Request, node: Node, i: nat, a: Answer,
                       leaf: Node)
    requires Valid(g) && g.maxSteps > 0 && fuel > 0 && InsideOf(g, cp, node) && Addressed(cp, req)
    requires i < |node.kind.branches| && leaf in g.nodes && leaf.kind.Leaf?
    requires var rec := cp.progress.value.records[i];
             && rec.status == Interrupted && rec.next == leaf.name
             && ForBranch(cp, req, rec.entry, a)
    ensures var e, rec := Reload(g, fuel, cp, req).value, cp.progress.value.records[i];
            var left := RebuiltState(State(cp.data, cp.loops), rec);
            var values, calls := Given(left.data.values, a), if rec.pauses == [] then [] else rec.pauses[0].calls;
            && WellFormed(g, fuel, e) && Enabled(g, fuel, e, Turn(i))
            && LeafRan(g, env, 1, leaf, State(Data(values, rec.histories), left.loops), rec.writes,
                       env.leaf(leaf.name, View(values, cp.data.histories + rec.histories), Heard(a, calls)),
                       Apply(g, env, fuel, e, Turn(i)).fan.value.branches[i])
  {
    hide LeafRan, Step, Rebuild, Valid, Addressed, Saved, Reload, InsideOf;
    OthersUntold(g, fuel, cp, req, node, i);
    BranchReady(g, fuel, cp, req, node, i, a, leaf);
    var e := Reload(g, fuel, cp, req).value;
    LeafTurn(g, env, fuel - 1, FanCtx(e), e.fan.value.branches[i], leaf);
    assert map[] + cp.data.histories == cp.data.histories;
  }

  /** The branch is about to start that leaf. */
  lemma BranchReady(g: Graph, fuel: nat, cp: Checkpoint, req: Request, node: Node, i: nat, a: Answer, leaf: Node)
    requires Valid(g) && g.maxSteps > 0 && fuel > 0 && InsideOf(g, cp, node) && Addressed(cp, req)
    requires i < |node.kind.branches| && leaf in g.nodes && leaf.kind.Leaf?
    requires var rec := cp.progress.value.records[i];
             && rec.status == Interrupted && rec.next == leaf.name
             && ForBranch(cp, req, rec.entry, a)
    requires var r := Reload(g, fuel, cp, req);
             && r.Ok? && WellFormed(g, fuel, r.value) && InFan(r.value) && r.value.fan.value.node == node
             && r.value.top.state == State(cp.data, cp.loops)
    ensures var e, rec := Reload(g, fuel, cp, req).value, cp.progress.value.records[i];
            var left := RebuiltState(State(cp.data, cp.loops), rec);
            && i < |e.fan.value.branches|
            && var b := e.fan.value.branches[i];
               && Live(FanCtx(e), b) && b.left > 0 && b.cur == leaf.name && b.writes == rec.writes
               && b.state == State(Data(Given(left.data.values, a), rec.histories), left.loops)
               && b.answer == Heard(a, if rec.pauses == [] then [] else rec.pauses[0].calls)
  {
    hide Valid, Addressed, RebuiltState, Matches;
    FoundByName(g, node);
    FoundByName(g, leaf);
    NodeIsValid(g, leaf);
    var e, rec := Reload(g, fuel, cp, req).value, cp.progress.value.records[i];
    assert e.fan.value.branches[i] == Rebuilt(g, e.top.state, rec, Some(a));
    assert RebuiltState(e.top.state, rec).data.histories == rec.histories by { RebuiltHistories(e.top.state, rec); }
  }

  lemma RebuiltHistories(parent: State, rec: Record)
    ensures RebuiltState(parent, rec).data.histories == rec.histories
  {
  }

  /** In a fan-out each branch is told its answer by its first turn and nothing after it; a branch that has no turn
      keeps what it is to be told. */
  lemma {:induction false} BranchesToldOnce(g: Graph, env: Env, fuel: nat, e: Exec, moves: seq<Move>, e1: Exec, i: nat)
    requires WellFormed(g, fuel, e) && InFan(e) && i < |e.fan.value.branches|
    requires Leads(g, env, fuel, e, moves, e1) && OnlyTurns(moves)
    ensures WellFormed(g, fuel, e1) && InFan(e1) && |e1.fan.value.branches| == |e.fan.value.branches|
    ensures Turn(i) in moves ==> Untold(e1.fan.value.branches[i])
    ensures Turn(i) !in moves ==> e1.fan.value.branches[i] == e.fan.value.branches[i]
    decreases moves
  {
    hide Step, Saved;
    if moves != [] {
      var k := moves[0].branch;
      var next := Apply(g, env, fuel, e, moves[0]);
      TurnUntold(g, env, fuel - 1, FanCtx(e), e.fan.value.branches[k]);
      BranchesToldOnce(g, env, fuel, next, moves[1..], e1, i);
      if k == i && Turn(i) !in moves[1..] {
        assert Untold(next.fan.value.branches[i]);
      }
      assert Turn(i) in moves <==> k == i || Turn(i) in moves[1..];
    }
  }
}
