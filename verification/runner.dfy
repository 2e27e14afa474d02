/** The loops that drive a run: every chain to its end, and the top-level run with its checkpoints. */
module Runner {
  import opened Options
  import opened Graphs
  import opened Executor
  import opened Congruence
  import opened Durable
  import opened Resume
  import Checkpoints
  import Stops

  method Lookup(nodes: seq<Node>, name: Name) returns (r: Option<Node>)
    ensures r == FindNode(nodes, name)
  {
    for i := 0 to |nodes|
      invariant FindNode(nodes, name) == FindNode(nodes[i..], name)
    {
      assert nodes[i..][1..] == nodes[i + 1..];
      if nodes[i].name == name {
        return Some(nodes[i]);
      }
    }
    return None;
  }

  /** The loop of an untracked branch: node after node until the join, a pause or a failure. */
  method RunBranch(g: Graph, env: Env, fuel: nat, ctx: Ctx, start: Chain) returns (c: Chain)
    ensures c == Run(g, env, fuel, ctx, start)
    decreases fuel, 1
  {
    c := start;
    while Live(ctx, c)
      invariant Run(g, env, fuel, ctx, c) == Run(g, env, fuel, ctx, start)
      decreases if c.halt.Some? then 0 else c.left + 1
    {
      c := TakeTurn(g, env, fuel, ctx, c);
    }
  }

  method TakeTurn(g: Graph, env: Env, fuel: nat, ctx: Ctx, c: Chain) returns (c': Chain)
    requires Live(ctx, c)
    ensures c' == Step(g, env, fuel, ctx, c)
    decreases fuel, 0
  {
    hide Settle, RunLeaf, RunLoop, FanResult, Run;
    if c.left == 0 {
      return c.(halt := Some(Halt.Failed(StepLimit)));
    }
    var found := Lookup(g.nodes, c.cur);
    if found.None? {
      return c.(halt := Some(Halt.Failed(UnknownNode)));
    }
    var node := found.value;
    var r;
    match node.kind {
      case Leaf => r := RunLeaf(env, ctx, c, node.name);
      case Loop(body, maxIterations) => r := RunLoop(env, c.state, node.name, body, maxIterations);
      case Parallel(entries) =>
        if fuel == 0 {
          r := Stopped(c.state, {}, Halt.Failed(TooDeep), []);
        } else {
          var ends := RunFan(g, env, fuel - 1, BranchCtx(ctx, c.state, node.name), c.state, entries);
          r := FanResult(c.state, entries, Ends(ends));
        }
    }
    assert r == RunNode(g, env, fuel, ctx, c, node);
    c' := Settle(g, env, ctx, c, node, r);
  }

  /** The branches of an untracked fan-out, one after the other. */
  method RunFan(g: Graph, env: Env, fuel: nat, bctx: Ctx, parent: State, entries: seq<Name>) returns (rs: seq<Chain>)
    ensures rs == RunAll(g, env, fuel, bctx, BranchStarts(g, parent, entries))
    decreases fuel, 2
  {
    rs := [];
    for i := 0 to |entries|
      invariant |rs| == i
      invariant forall k :: 0 <= k < i ==> rs[k] == Run(g, env, fuel, bctx, BranchStart(g, parent, entries[k]))
    {
      var c := RunBranch(g, env, fuel, bctx, BranchStart(g, parent, entries[i]));
      rs := rs + [c];
    }
    assert rs == RunAll(g, env, fuel, bctx, BranchStarts(g, parent, entries));
  }

  /** Resuming `cp` ends as `whole` does, unless that ran out of steps. */
  ghost predicate ResumesTo(g: Graph, env: Env, fuel: nat, cp: Checkpoint, whole: Chain) {
    var r := Reload(g, fuel, cp, NO_INPUT);
    r.Ok? && WellFormed(g, fuel, r.value) && (Limited(whole) || Alike(0, whole, Finish(g, env, fuel, r.value)))
  }

  /** `e` becomes `e1` by these moves, and `written` are the checkpoints due on the way: one of the run as it then is
      after each turn of the top-level chain or of a branch and after each join, unless that ended the run. */
  ghost predicate Writes(g: Graph, env: Env, fuel: nat, e: Exec, moves: seq<Move>, written: seq<Checkpoint>, e1: Exec)
    decreases |moves|
  {
    if moves == [] then e == e1 && written == []
    else
      && WellFormed(g, fuel, e) && Enabled(g, fuel, e, moves[0])
      && var next := Apply(g, env, fuel, e, moves[0]);
         if moves[0].Open? || !Live(TOP, next.top) then Writes(g, env, fuel, next, moves[1..], written, e1)
         else written != [] && written[0] == Encode(next) && Writes(g, env, fuel, next, moves[1..], written[1..], e1)
  }

  lemma {:induction false} WritesOn(g: Graph, env: Env, fuel: nat, e: Exec, a: seq<Move>, v: seq<Checkpoint>, e1: Exec,
                                    b: seq<Move>, w: seq<Checkpoint>, e2: Exec)
    requires Writes(g, env, fuel, e, a, v, e1) && Writes(g, env, fuel, e1, b, w, e2)
    ensures Writes(g, env, fuel, e, a + b, v + w, e2)
    decreases |a|
  {
    hide Apply, Enabled, WellFormed, Encode, Live;
    if a == [] {
      assert a + b == b && v + w == w;
    } else {
      var next := Apply(g, env, fuel, e, a[0]);
      assert (a + b)[0] == a[0] && (a + b)[1..] == a[1..] + b;
      if a[0].Open? || !Live(TOP, next.top) {
        WritesOn(g, env, fuel, next, a[1..], v, e1, b, w, e2);
      } else {
        WritesOn(g, env, fuel, next, a[1..], v[1..], e1, b, w, e2);
        assert (v + w)[1..] == v[1..] + w;
      }
    }
  }

  lemma WritesOne(g: Graph, env: Env, fuel: nat, e: Exec, m: Move)
    requires WellFormed(g, fuel, e) && Enabled(g, fuel, e, m)
    ensures var next := Apply(g, env, fuel, e, m);
            Writes(g, env, fuel, e, [m], if m.Open? || !Live(TOP, next.top) then [] else [Encode(next)], next)
  {
    hide Apply, Enabled, WellFormed, Encode, Live;
    var next := Apply(g, env, fuel, e, m);
    var written := if m.Open? || !Live(TOP, next.top) then [] else [Encode(next)];
    assert [m][0] == m && [m][1..] == [];
    assert Writes(g, env, fuel, next, [], [], next);
    if written != [] { assert written[1..] == []; }
  }

  /** Each checkpoint that is due is the run as some of the moves have led to, at a point where one is stored. */
  lemma {:induction false} WrittenReached(g: Graph, env: Env, fuel: nat, e: Exec, moves: seq<Move>,
                                          written: seq<Checkpoint>, e1: Exec, i: nat) returns (k: nat, at: Exec)
    requires Writes(g, env, fuel, e, moves, written, e1) && i < |written|
    ensures k <= |moves| && Leads(g, env, fuel, e, moves[..k], at) && Leads(g, env, fuel, at, moves[k..], e1)
    ensures Stops.Stored(moves[..k]) && Live(TOP, at.top) && written[i] == Encode(at) && written[i].status == Underway
    decreases |moves|
  {
    hide Apply, Enabled, WellFormed, Encode, Live;
    var next := Apply(g, env, fuel, e, moves[0]);
    var kept := moves[0].Open? || !Live(TOP, next.top);
    if !kept && i == 0 {
      k, at := 1, next;
      LiveUnderway(next);
      WritesLead(g, env, fuel, next, moves[1..], written[1..], e1);
      assert moves[..1] == [moves[0]] && [moves[0]][1..] == [];
    } else {
      var j;
      if kept {
        j, at := WrittenReached(g, env, fuel, next, moves[1..], written, e1, i);
      } else {
        j, at := WrittenReached(g, env, fuel, next, moves[1..], written[1..], e1, i - 1);
      }
      k := j + 1;
      assert moves[..k][0] == moves[0] && moves[..k][1..] == moves[1..][..j] && moves[k..] == moves[1..][j..];
    }
  }

  lemma LiveUnderway(e: Exec)
    requires Live(TOP, e.top)
    ensures Encode(e).status == Underway
  {
  }

  /** The step numbers of the checkpoints never go back: none is before the run's own, or after its last. */
  lemma {:induction false} StepsInOrder(g: Graph, env: Env, fuel: nat, e: Exec, moves: seq<Move>,
                                        written: seq<Checkpoint>, e1: Exec)
    requires Writes(g, env, fuel, e, moves, written, e1)
    ensures e.step <= e1.step && forall i :: 0 <= i < |written| ==> e.step <= written[i].step <= e1.step
    ensures forall i, j :: 0 <= i < j < |written| ==> written[i].step <= written[j].step
    decreases |moves|
  {
    hide Step, Settle, FanResult, Saved;
    if moves != [] {
      var next := Apply(g, env, fuel, e, moves[0]);
      assert e.step <= next.step == Encode(next).step;
      hide Apply, Enabled, WellFormed, Live, Encode;
      if moves[0].Open? || !Live(TOP, next.top) {
        StepsInOrder(g, env, fuel, next, moves[1..], written, e1);
      } else {
        StepsInOrder(g, env, fuel, next, moves[1..], written[1..], e1);
        assert forall i :: 1 <= i < |written| ==> written[i] == written[1..][i - 1];
      }
    }
  }

  lemma {:induction false} WritesLead(g: Graph, env: Env, fuel: nat, e: Exec, moves: seq<Move>,
                                      written: seq<Checkpoint>, e1: Exec)
    requires Writes(g, env, fuel, e, moves, written, e1)
    ensures Leads(g, env, fuel, e, moves, e1)
    decreases |moves|
  {
    hide Apply, Enabled, WellFormed, Encode, Live;
    if moves != [] {
      var next := Apply(g, env, fuel, e, moves[0]);
      var kept := moves[0].Open? || !Live(TOP, next.top);
      WritesLead(g, env, fuel, next, moves[1..], if kept then written else written[1..], e1);
    }
  }

  /** One run of a graph. `stored` are the checkpoints written so far, `durable` is false for runs that
      only checkpoint when they return. */
  class GraphRun {
    const g: Graph
    const env: Env
    const fuel: nat
    const durable: bool
    var exec: Exec
    var stored: seq<Checkpoint>

    constructor (g: Graph, env: Env, fuel: nat, durable: bool, exec: Exec)
      ensures this.g == g && this.env == env && this.fuel == fuel && this.durable == durable
      ensures this.exec == exec && stored == []
    {
      this.g, this.env, this.fuel, this.durable, this.exec, stored := g, env, fuel, durable, exec, [];
    }

    /** No human answer took part, and nodes look at per-thread state only. */
    ghost predicate Unanswered()
      reads this
    {
      Valid(g) && PerThread(env) && Sound(g, env, fuel, exec)
    }

    /** `this` is at some point of the run that ends as `whole`; every checkpoint since `n` resumes to that end if
        no answer took part. */
    ghost predicate Toward(unanswered: bool, whole: Chain, n: nat)
      reads this
    {
      && WellFormed(g, fuel, exec) && Finish(g, env, fuel, exec) == whole && n <= |stored|
      && (unanswered ==>
            Unanswered() && forall i :: n <= i < |stored| ==> ResumesTo(g, env, fuel, stored[i], whole))
    }

    method Write(ghost unanswered: bool, ghost whole: Chain, ghost n: nat)
      requires Toward(unanswered, whole, n) && exec.top.halt.None?
      modifies this`stored
      ensures Toward(unanswered, whole, n)
      ensures stored == old(stored) + if durable then [Encode(exec)] else []
    {
      hide Finish, Reload, Encode, Sound, Valid;
      if durable {
        if unanswered { CrashResume(g, env, fuel, exec); }
        stored := stored + [Encode(exec)];
      }
    }

    method Make(m: Move, ghost unanswered: bool, ghost whole: Chain, ghost n: nat)
      requires Toward(unanswered, whole, n) && Enabled(g, fuel, exec, m)
      modifies this`exec
      ensures Toward(unanswered, whole, n) && exec == Apply(g, env, fuel, old(exec), m)
    {
      hide Finish, Step, Sound, Valid, ResumesTo;
      MoveKeepsFinish(g, env, fuel, exec, m);
      if unanswered { MoveKeepsSound(g, env, fuel, exec, m); }
      match m {
        case Plain =>
          var top := TakeTurn(g, env, fuel, TOP, exec.top);
          exec := Advanced(exec, top, None);
        case Open => exec := Apply(g, env, fuel, exec, m);
        case Turn(i) =>
          var fan := exec.fan.value;
          var b := TakeTurn(g, env, fuel - 1, FanCtx(exec), fan.branches[i]);
          var rec := Saved(exec.top.state, FanCtx(exec), fan.records[i], b);
          exec := exec.(fan := Some(fan.(branches := fan.branches[i := b], records := fan.records[i := rec])));
        case Close => exec := Apply(g, env, fuel, exec, m);
      }
    }

    /** What `moves` since `e` call for has been written to `before`. */
    ghost predicate Kept(e: Exec, before: seq<Checkpoint>, moves: seq<Move>, written: seq<Checkpoint>)
      reads this
    {
      Writes(g, env, fuel, e, moves, written, exec) && stored == before + if durable then written else []
    }

    /** Before any move nothing is due. */
    lemma NothingDue()
      ensures Kept(exec, stored, [], [])
    {
      assert stored == stored + [];
    }

    /** Runs branch `i` of the open fan-out to its end, saving it after each turn. */
    method RunTracked(i: nat, ghost unanswered: bool, ghost whole: Chain, ghost n: nat)
      returns (ghost moves: seq<Move>, ghost written: seq<Checkpoint>)
      requires Toward(unanswered, whole, n) && InFan(exec) && i < |exec.fan.value.branches|
      modifies this
      ensures Toward(unanswered, whole, n) && InFan(exec) && exec.top == old(exec.top) && old(stored) <= stored
      ensures Kept(old(exec), old(stored), moves, written)
      ensures (forall m <- moves :: m == Turn(i)) && |written| == |moves|
      ensures exec.fan.value.node == old(exec.fan.value.node)
      ensures |exec.fan.value.branches| == |old(exec.fan.value.branches)|
      ensures !Live(FanCtx(exec), exec.fan.value.branches[i])
      ensures forall j :: 0 <= j < |exec.fan.value.branches| && j != i ==>
        exec.fan.value.branches[j] == old(exec.fan.value.branches)[j]
    {
      hide Finish, Step, Saved, Unanswered, ResumesTo, Writes, Encode;
      moves, written := [], [];
      NothingDue();
      while Live(FanCtx(exec), exec.fan.value.branches[i])
        invariant Toward(unanswered, whole, n) && InFan(exec) && exec.top == old(exec.top) && old(stored) <= stored
        invariant Kept(old(exec), old(stored), moves, written)
        invariant (forall m <- moves :: m == Turn(i)) && |written| == |moves|
        invariant exec.fan.value.node == old(exec.fan.value.node)
        invariant |exec.fan.value.branches| == |old(exec.fan.value.branches)|
        invariant forall j :: 0 <= j < |exec.fan.value.branches| && j != i ==>
          exec.fan.value.branches[j] == old(exec.fan.value.branches)[j]
        decreases var b := exec.fan.value.branches[i]; if b.halt.Some? then 0 else b.left + 1
      {
        StepShortens(g, env, fuel - 1, FanCtx(exec), exec.fan.value.branches[i]);
        ghost var e := exec;
        Make(Turn(i), unanswered, whole, n);
        Write(unanswered, whole, n);
        WritesOne(g, env, fuel, e, Turn(i));
        WritesOn(g, env, fuel, old(exec), moves, written, e, [Turn(i)], [Encode(exec)], exec);
        moves, written := moves + [Turn(i)], written + [Encode(exec)];
      }
    }

    /** All branches of the open fan-out, left to right. */
    method RunAllTracked(ghost unanswered: bool, ghost whole: Chain, ghost n: nat)
      returns (ghost moves: seq<Move>, ghost written: seq<Checkpoint>)
      requires Toward(unanswered, whole, n) && InFan(exec)
      modifies this
      ensures Toward(unanswered, whole, n) && InFan(exec) && Enabled(g, fuel, exec, Close)
      ensures exec.top == old(exec.top) && old(stored) <= stored
      ensures Kept(old(exec), old(stored), moves, written)
    {
      hide Finish, Step, Saved, Unanswered, ResumesTo, Writes;
      var count := |exec.fan.value.branches|;
      moves, written := [], [];
      NothingDue();
      for i := 0 to count
        invariant Toward(unanswered, whole, n) && InFan(exec) && exec.top == old(exec.top) && old(stored) <= stored
        invariant Kept(old(exec), old(stored), moves, written)
        invariant |exec.fan.value.branches| == count && exec.fan.value.node == old(exec.fan.value.node)
        invariant forall j :: 0 <= j < i ==> !Live(FanCtx(exec), exec.fan.value.branches[j])
      {
        ghost var e := exec;
        ghost var turns, due := RunTracked(i, unanswered, whole, n);
        WritesOn(g, env, fuel, old(exec), moves, written, e, turns, due, exec);
        moves, written := moves + turns, written + due;
      }
    }

    /** The node that the top-level chain is at, a fan-out with all its branches, and the checkpoint after it. */
    method RunOne(ghost unanswered: bool, ghost whole: Chain, ghost n: nat)
      returns (ghost moves: seq<Move>, ghost written: seq<Checkpoint>)
      requires Toward(unanswered, whole, n) && Live(TOP, exec.top)
      modifies this
      ensures Toward(unanswered, whole, n) && old(stored) <= stored
      ensures Kept(old(exec), old(stored), moves, written)
      ensures exec.top.halt.Some? || exec.top.left < old(exec.top.left)
    {
      hide Finish, Step, Settle, Unanswered, ResumesTo, Writes, Encode;
      moves, written := [], [];
      NothingDue();
      if !InFan(exec) && Opens(g, fuel, exec.top) {
        WritesOne(g, env, fuel, exec, Open);
        Make(Open, unanswered, whole, n);
        moves := [Open];
      }
      ghost var e := exec;
      if InFan(exec) {
        ghost var turns, due := RunAllTracked(unanswered, whole, n);
        WritesOn(g, env, fuel, old(exec), moves, written, e, turns, due, exec);
        moves, written, e := moves + turns, written + due, exec;
        CloseShortens(g, env, fuel, exec);
        WritesOne(g, env, fuel, exec, Close);
        Make(Close, unanswered, whole, n);
      } else {
        StepShortens(g, env, fuel, TOP, exec.top);
        WritesOne(g, env, fuel, exec, Plain);
        Make(Plain, unanswered, whole, n);
      }
      ghost var last, due := if InFan(e) then Close else Plain, if Live(TOP, exec.top) then [Encode(exec)] else [];
      WritesOn(g, env, fuel, old(exec), moves, written, e, [last], due, exec);
      moves, written := moves + [last], written + due;
      if Live(TOP, exec.top) {
        Write(unanswered, whole, n);
      }
    }

    /** The top-level loop. It ends as the run is defined to end, having written what its moves call for and the end,
        and, unless a human answered, each checkpoint it wrote on the way resumes to that same end. */
    method Drive() returns (ghost moves: seq<Move>, ghost written: seq<Checkpoint>)
      requires WellFormed(g, fuel, exec) && exec.top.halt.None?
      modifies this
      ensures exec.top == old(Finish(g, env, fuel, exec))
      ensures Writes(g, env, fuel, old(exec), moves, written, exec)
      ensures stored == old(stored) + (if durable then written else []) + [Encode(exec)]
      ensures Checkpoints.Tells(stored[|stored| - 1], exec.top)
      ensures old(Unanswered()) ==>
        forall i :: |old(stored)| <= i < |stored| - 1 ==> ResumesTo(g, env, fuel, stored[i], exec.top)
    {
      hide Finish, Encode, Unanswered, ResumesTo, Writes;
      FinishOfStopped(g, env, fuel);
      ghost var unanswered, whole, n := Unanswered(), Finish(g, env, fuel, exec), |stored|;
      moves, written := [], [];
      NothingDue();
      while Live(TOP, exec.top)
        invariant Toward(unanswered, whole, n) && Kept(old(exec), old(stored), moves, written)
        decreases if exec.top.halt.Some? then 0 else exec.top.left + 1
      {
        ghost var e := exec;
        ghost var more, due := RunOne(unanswered, whole, n);
        WritesOn(g, env, fuel, old(exec), moves, written, e, more, due, exec);
        moves, written := moves + more, written + due;
      }
      stored := stored + [Encode(exec)];
      Checkpoints.EncodeTells(exec);
    }
  }

  /** The checkpoints of a run from `from` to `to`: what its moves call for if it is durable, and its end. */
  ghost predicate Stores(g: Graph, env: Env, fuel: nat, durable: bool, from: Exec, to: Exec, stored: seq<Checkpoint>) {
    exists moves, written ::
      && Writes(g, env, fuel, from, moves, written, to)
      && stored == (if durable then written else []) + [Encode(to)]
  }

  /** A fresh run. Every checkpoint it wrote on the way resumes to the end it reached. */
  method RunFresh(g: Graph, env: Env, fuel: nat, durable: bool, data: Data) returns (run: GraphRun)
    ensures run.exec.top == Run(g, env, fuel, TOP, Start(g, data))
    ensures Stores(g, env, fuel, durable, Exec(0, Start(g, data), None), run.exec, run.stored)
    ensures Valid(g) && PerThread(env) ==>
      forall i :: 0 <= i < |run.stored| - 1 ==> ResumesTo(g, env, fuel, run.stored[i], run.exec.top)
  {
    hide Run, Step, ResumesTo, Valid, Writes;
    run := new GraphRun(g, env, fuel, durable, Stops.Fresh(g, data));
    ghost var moves, written := run.Drive();
  }

  /** A resume: refused when an answer is for nothing that waits, and over at once, with nothing stored, for a completed
      run. Without an answer, every checkpoint of a run `from` that was stopped leads to another run whose checkpoints
      again resume to the end it reaches. */
  method ResumeRun(g: Graph, env: Env, fuel: nat, durable: bool, cp: Checkpoint, req: Request, ghost from: Exec)
    returns (r: Graphs.Result<GraphRun>)
    ensures r.Ok? <==> Addressed(cp, req)
    ensures r.Ok? ==> WellFormed(g, fuel, Reload(g, fuel, cp, req).value)
    ensures r.Ok? ==> r.value.exec.top == Finish(g, env, fuel, Reload(g, fuel, cp, req).value)
    ensures r.Ok? && cp.status == Completed ==>
      r.value.stored == [] && r.value.exec.top.cur == END && r.value.exec.top.state == State(cp.data, cp.loops)
    ensures r.Ok? && cp.status != Completed ==>
      Stores(g, env, fuel, durable, Reload(g, fuel, cp, req).value, r.value.exec, r.value.stored)
    ensures Valid(g) && PerThread(env) && Sound(g, env, fuel, from) && from.top.halt.None? &&
            cp == Encode(from) && req == NO_INPUT ==>
      && r.Ok?
      && forall i :: 0 <= i < |r.value.stored| - 1 ==> ResumesTo(g, env, fuel, r.value.stored[i], r.value.exec.top)
  {
    hide Finish, ResumesTo, Valid, Sound, Reload, Encode, Writes;
    ReloadShape(g, env, fuel, cp, req);
    if cp.status == Completed {
      var done := new GraphRun(g, env, fuel, durable, Reload(g, fuel, cp, req).value);
      return Ok(done);
    }
    if !Addressed(cp, req) {
      return Err("no such paused branch");
    }
    var run := new GraphRun(g, env, fuel, durable, Reload(g, fuel, cp, req).value);
    if Sound(g, env, fuel, from) && from.top.halt.None? { Stops.ResumedSound(g, env, fuel, from); }
    ghost var moves, written := run.Drive();
    r := Ok(run);
  }

  lemma ReloadShape(g: Graph, env: Env, fuel: nat, cp: Checkpoint, req: Request)
    ensures var r := Reload(g, fuel, cp, req);
            && (r.Ok? <==> Addressed(cp, req))
            && (r.Ok? ==> WellFormed(g, fuel, r.value) && r.value.top.halt.None?)
            && (r.Ok? && cp.status == Completed ==>
                  && r.value.top.cur == END && r.value.top.state == State(cp.data, cp.loops)
                  && Finish(g, env, fuel, r.value) == r.value.top)
  {
    hide Rebuilt;
  }

  /** A run whose top-level chain has stopped is over. */
  lemma FinishOfStopped(g: Graph, env: Env, fuel: nat)
    ensures forall e: Exec :: WellFormed(g, fuel, e) && !Live(TOP, e.top) ==> Finish(g, env, fuel, e) == e.top
  {
  }

  lemma StepShortens(g: Graph, env: Env, fuel: nat, ctx: Ctx, c: Chain)
    requires Live(ctx, c)
    ensures var c1 := Step(g, env, fuel, ctx, c); c1.halt.Some? || c1.left < c.left
  {
  }

  lemma CloseShortens(g: Graph, env: Env, fuel: nat, e: Exec)
    requires WellFormed(g, fuel, e) && Enabled(g, fuel, e, Close)
    ensures Apply(g, env, fuel, e, Close).top.left < e.top.left
  {
    var fan := e.fan.value;
    var r := FanResult(e.top.state, fan.node.kind.branches, Ends(fan.branches));
    assert Settle(g, env, TOP, e.top, fan.node, r).left == e.top.left - 1;
  }
}
