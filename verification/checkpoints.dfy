/** What a checkpoint tells: how far the run is, how it ended, what each branch of a fan-out has done; and which
    requests to resume it are taken. */
module Checkpoints {
  import opened Options
  import opened Graphs
  import opened Executor
  import opened Congruence
  import opened Durable
  import opened Resume
  import opened PartialResume
  import opened Joins
  import opened Transitions

  // ---- how far the run is ----

  /** How many nodes of the top-level chain these moves complete. */
  ghost function Completions(g: Graph, env: Env, fuel: nat, e: Exec, moves: seq<Move>): nat
    decreases |moves|
  {
    if moves == [] || !WellFormed(g, fuel, e) || !Enabled(g, fuel, e, moves[0]) then 0 else
    var next := Apply(g, env, fuel, e, moves[0]);
    (if (moves[0].Plain? || moves[0].Close?) && next.top.halt.None? then 1 else 0) +
    Completions(g, env, fuel, next, moves[1..])
  }

  /** The step number of a run counts the nodes that its top-level chain has completed. */
  lemma {:induction false} StepCounts(g: Graph, env: Env, fuel: nat, e: Exec, moves: seq<Move>, e1: Exec)
    requires Leads(g, env, fuel, e, moves, e1)
    ensures e1.step == e.step + Completions(g, env, fuel, e, moves)
    decreases |moves|
  {
    hide Step, Settle, FanResult, Saved;
    if moves != [] {
      var next := Apply(g, env, fuel, e, moves[0]);
      assert next.step == e.step + if (moves[0].Plain? || moves[0].Close?) && next.top.halt.None? then 1 else 0;
      hide Apply, Enabled, WellFormed;
      StepCounts(g, env, fuel, next, moves[1..], e1);
    }
  }

  /** It goes on where the checkpoint was. */
  lemma StepGoesOn(g: Graph, fuel: nat, e: Exec, req: Request)
    ensures var r := Reload(g, fuel, Encode(e), req); r.Ok? ==> r.value.step == e.step
  {
    hide ReloadedTop, ReopenedBranches;
  }

  // ---- how it ended ----

  /** What the checkpoint of a run says about its top-level chain. */
  ghost predicate Tells(cp: Checkpoint, top: Chain) {
    && (cp.status == Waiting <==> IsPaused(top)) && (cp.status == Broken <==> IsFailed(top))
    && (cp.status == Completed <==> top.halt == None && top.cur == END)
    && cp.next == (if cp.status == Completed then "" else top.cur)
    && cp.pauses == (if IsPaused(top) then top.halt.value.pauses else [])
    && cp.loops == top.state.loops && cp.data.histories == top.state.data.histories
    && forall k :: (k in cp.data.values <==> k in top.state.data.values && !("temp:" <= k)) &&
                   (k in cp.data.values ==> cp.data.values[k] == top.state.data.values[k])
  }

  lemma EncodeTells(e: Exec)
    ensures Tells(Encode(e), e.top)
  {
  }

  // ---- what the branches have done ----

  /** What the record of a branch says after a turn of it that left `b`; a branch that failed keeps what it had. */
  ghost predicate RecordTells(parent: State, join: Name, before: Record, rec: Record, b: Chain) {
    && rec.entry == before.entry && rec.next == b.cur && rec.status != Pending
    && (rec.status == BranchStatus.Failed <==> IsFailed(b)) && (rec.status == Interrupted <==> IsPaused(b))
    && (rec.status == BranchStatus.Done <==> b.halt == None && (b.cur == END || b.cur == join))
    && (IsFailed(b) ==> before.(status := rec.status, next := rec.next) == rec)
    && (!IsFailed(b) ==>
          && rec.writes == b.writes && rec.histories == b.state.data.histories
          && rec.pauses == (if IsPaused(b) then b.halt.value.pauses else [])
          && (forall k :: k in rec.values <==>
                Stays(b, k) && (k !in parent.data.values || parent.data.values[k] != b.state.data.values[k]))
          && (forall k <- rec.values :: Stays(b, k) && rec.values[k] == b.state.data.values[k])
          && (forall k :: k in rec.erased <==>
                k in parent.data.values && !("temp:" <= k) && k !in b.state.data.values))
  }

  /** A value of the branch that a checkpoint keeps. */
  predicate Stays(b: Chain, k: string) {
    k in b.state.data.values && !("temp:" <= k)
  }

  lemma TurnTells(g: Graph, env: Env, fuel: nat, e: Exec, i: nat)
    requires WellFormed(g, fuel, e) && Enabled(g, fuel, e, Turn(i))
    ensures var next := Apply(g, env, fuel, e, Turn(i));
            && InFan(next) && next.top == e.top && next.fan.value.node == e.fan.value.node
            && |next.fan.value.records| == |e.fan.value.records| == |next.fan.value.branches|
            && RecordTells(e.top.state, e.fan.value.node.name, e.fan.value.records[i], next.fan.value.records[i],
                           next.fan.value.branches[i])
            && forall j :: 0 <= j < |e.fan.value.records| && j != i ==>
                 next.fan.value.records[j] == e.fan.value.records[j]
  {
    hide Step;
    var next := Apply(g, env, fuel, e, Turn(i));
    SavedTells(e.top.state, FanCtx(e), e.fan.value.records[i], next.fan.value.branches[i]);
  }

  lemma SavedTells(parent: State, bctx: Ctx, rec: Record, b: Chain)
    requires bctx.join.Some?
    ensures RecordTells(parent, bctx.join.value, rec, Saved(parent, bctx, rec, b), b)
  {
  }

  /** In a fan-out that starts afresh the branches that have had no turn, and only those, are pending. */
  lemma {:induction false} PendingExactly(g: Graph, env: Env, fuel: nat, e: Exec, moves: seq<Move>, e1: Exec, i: nat)
    requires WellFormed(g, fuel, e) && InFan(e) && i < |e.fan.value.records|
    requires Leads(g, env, fuel, e, moves, e1) && OnlyTurns(moves)
    ensures InFan(e1) && |e1.fan.value.records| == |e.fan.value.records|
    ensures e1.fan.value.records[i].status == Pending <==> e.fan.value.records[i].status == Pending && Turn(i) !in moves
    decreases |moves|
  {
    hide Apply, RecordTells;
    if moves != [] {
      var k := moves[0].branch;
      var next := Apply(g, env, fuel, e, moves[0]);
      TurnTells(g, env, fuel, e, k);
      assert next.fan.value.records[k].status != Pending by { NotPending(e, next, k); }
      assert WellFormed(g, fuel, next);
      PendingExactly(g, env, fuel, next, moves[1..], e1, i);
      assert Turn(i) in moves <==> k == i || Turn(i) in moves[1..];
    }
  }

  lemma NotPending(e: Exec, next: Exec, k: nat)
    requires e.fan.Some? && next.fan.Some? && k < |e.fan.value.records| && k < |next.fan.value.records|
    requires k < |next.fan.value.branches|
    requires RecordTells(e.top.state, e.fan.value.node.name, e.fan.value.records[k], next.fan.value.records[k],
                         next.fan.value.branches[k])
    ensures next.fan.value.records[k].status != Pending
  {
  }

  // ---- which requests are taken, and where the run goes on ----

  /** A resume is refused exactly if some answer is for a branch that does not wait for one or, outside a fan-out, is
      not for the node that waits; a run that is over takes any. */
  lemma TakenExactly(g: Graph, fuel: nat, cp: Checkpoint, req: Request)
    ensures Reload(g, fuel, cp, req).Ok? <==>
            || cp.status == Completed || req.Uniform?
            || forall entry <- req.answers ::
                 match cp.progress
                 case None => entry == "" && cp.status == Waiting
                 case Some(p) => exists r <- p.records :: r.entry == entry && r.status == Interrupted
  {
  }

  /** The fan-out goes on from its records exactly if the run is at it and the graph still gives it these branches;
      otherwise it starts afresh when its turn comes. */
  lemma GoesOnExactly(g: Graph, fuel: nat, cp: Checkpoint, req: Request, node: Node)
    requires Valid(g) && Reload(g, fuel, cp, req).Ok?
    requires cp.status != Completed && node in g.nodes && cp.next == node.name
    ensures var e := Reload(g, fuel, cp, req).value;
            && !(e.fan.Some? && e.top.halt.Some?)
            && (e.fan.Some? <==>
                  && node.kind.Parallel? && fuel > 0 && g.maxSteps > 0 && cp.progress.Some?
                  && cp.progress.value.node == node.name
                  && |cp.progress.value.records| == |node.kind.branches|
                  && forall i :: 0 <= i < |node.kind.branches| ==>
                       cp.progress.value.records[i].entry == node.kind.branches[i])
            && (e.fan.Some? ==> e.fan.value.node == node && e.fan.value.records == cp.progress.value.records)
  {
    hide Addressed, Rebuilt, Valid;
    FoundByName(g, node);
    NodeIsValid(g, node);
  }

  /** A fan-out that does not join is not forgotten: its records are stored with the end of the run, and every resume
      that is taken goes on from them. */
  lemma UnjoinedGoesOn(g: Graph, env: Env, fuel: nat, e: Exec, req: Request)
    requires Valid(g) && WellFormed(g, fuel, e) && Enabled(g, fuel, e, Close) && !Clean(Ends(e.fan.value.branches))
    requires g.maxSteps > 0
    requires forall i :: 0 <= i < |e.fan.value.records| ==>
               e.fan.value.records[i].entry == e.fan.value.node.kind.branches[i]
    ensures var e1 := Apply(g, env, fuel, e, Close);
            var r := Reload(g, fuel, Encode(e1), req);
            && e1.top.halt.Some? && e1.top.state == e.top.state && e1.step == e.step
            && (r.Ok? ==> InFan(r.value) && r.value.fan.value.node == e.fan.value.node
                          && r.value.fan.value.records == e.fan.value.records)
  {
    var fan := e.fan.value;
    var es := Ends(fan.branches);
    JoinExactly(e.top.state.data, fan.node.kind.branches, es);
    var e1 := Apply(g, env, fuel, e, Close);
    hide Clean, CloseFan, Valid;
    UnjoinedStays(g, env, fuel, e);
    hide Apply;
    if Reload(g, fuel, Encode(e1), req).Ok? {
      hide Reload;
      assert fan.node in g.nodes && fan.node.name == e.top.cur;
      GoesOnExactly(g, fuel, Encode(e1), req, fan.node);
    }
  }

  lemma UnjoinedStays(g: Graph, env: Env, fuel: nat, e: Exec)
    requires WellFormed(g, fuel, e) && Enabled(g, fuel, e, Close)
    requires CloseFan(e.top.state.data, e.fan.value.node.kind.branches, Ends(e.fan.value.branches)).NotJoined?
    ensures var e1 := Apply(g, env, fuel, e, Close);
            && e1.fan == e.fan && e1.step == e.step
            && e1.top.halt.Some? && e1.top.state == e.top.state && e1.top.cur == e.top.cur
  {
    hide CloseFan;
  }
}
