/** Stopping and resuming equals not stopping. */
module Resume {
  import opened Options
  import opened Graphs
  import opened Executor
  import opened Congruence
  import opened Durable

  // ---- storing and reloading ----

  function StatusName(e: Exec): RunStatus {
    if e.top.halt.Some? then (if e.top.halt.value.Paused? then Waiting else Broken)
    else if e.top.cur == END then Completed
    else Underway
  }

  /** What is written: everything but `temp:` values. A completed run has no next node. */
  function Encode(e: Exec): Checkpoint {
    Checkpoint(
      e.step, if StatusName(e) == Completed then "" else e.top.cur, StatusName(e),
      Data(Strip(e.top.state.data.values), e.top.state.data.histories), e.top.state.loops,
      if e.top.halt.Some? && e.top.halt.value.Paused? then e.top.halt.value.pauses else [],
      if e.fan.Some? then Some(Progress(e.fan.value.node.name, e.fan.value.records)) else None)
  }

  /** One answer for every pause, or answers for some of the paused branches. */
  datatype Request = Uniform(answer: Answer) | PerBranch(answers: map<Name, Answer>)

  const NO_INPUT := Uniform(Answer(false, ""))

  predicate PausedEntry(records: seq<Record>, entry: Name) {
    exists r <- records :: r.entry == entry && r.status == Interrupted
  }

  /** An answer must be for something that waits for one; a completed run is not looked into. */
  predicate Addressed(cp: Checkpoint, req: Request) {
    cp.status == Completed || (req.PerBranch? ==> forall entry <- req.answers ::
      if cp.progress.Some? then PausedEntry(cp.progress.value.records, entry) else entry == "" && cp.status == Waiting)
  }

  /** A uniform answer to a run that failed leaves its paused branches paused. */
  function AnswerFor(cp: Checkpoint, req: Request, entry: Name): Option<Answer> {
    match req
    case Uniform(a) => if cp.status == Waiting then Some(a) else None
    case PerBranch(answers) => if entry in answers then Some(answers[entry]) else None
  }

  function TopAnswer(cp: Checkpoint, req: Request): Option<Answer> {
    if cp.progress.Some? then None
    else match req
      case Uniform(a) => Some(a)
      case PerBranch(answers) => if "" in answers then Some(answers[""]) else None
  }

  predicate Matches(p: Progress, node: Node) {
    && node.kind.Parallel? && p.node == node.name && |p.records| == |node.kind.branches|
    && forall i :: 0 <= i < |p.records| ==> p.records[i].entry == node.kind.branches[i]
  }

  function ReloadedTop(g: Graph, cp: Checkpoint, req: Request): Chain {
    var at := if cp.status == Completed then END else cp.next;
    var c := Chain(State(cp.data, cp.loops), {}, at, None, [], Budget(g), None);
    match TopAnswer(cp, req)
    case None => c
    case Some(a) => if cp.status == Completed then c else Deliver(g, c, a, CallsOf(cp.pauses))
  }

  function ReopenedBranches(g: Graph, parent: State, cp: Checkpoint, req: Request,
                            records: seq<Record>): (bs: seq<Chain>)
    ensures |bs| == |records|
  {
    seq(|records|, i requires 0 <= i < |records| =>
      Rebuilt(g, parent, records[i], AnswerFor(cp, req, records[i].entry)))
  }

  /** A resume continues the recorded fan-out when the graph still has it, else starts it afresh. */
  function Reload(g: Graph, fuel: nat, cp: Checkpoint, req: Request): Graphs.Result<Exec> {
    if !Addressed(cp, req) then Err("no such paused branch") else
    var top := ReloadedTop(g, cp, req);
    if Opens(g, fuel, top) && cp.progress.Some? && Matches(cp.progress.value, FindNode(g.nodes, top.cur).value) then
      var records := cp.progress.value.records;
      Ok(Exec(cp.step, top, Some(Fan(FindNode(g.nodes, top.cur).value,
                                     ReopenedBranches(g, top.state, cp, req, records), records))))
    else Ok(Exec(cp.step, top, None))
  }

  // ---- what every move keeps ----

  /** The record rebuilds to where the chain is; where a finished one ended does not matter. */
  ghost predicate Content(parent: State, rec: Record, c: Chain) {
    && SameState(RebuiltState(parent, rec), c.state)
    && rec.writes == c.writes
    && (rec.status == Done || (if rec.next == "" then rec.entry else rec.next) == c.cur) && c.cur != ""
  }

  /** The record rebuilds to the chain, stopped or not. A branch that has not started, or is about to run again after a
      failure, has the record it had before. */
  ghost predicate Holds(parent: State, bctx: Ctx, rec: Record, c: Chain) {
    && (|| rec.status == StatusOf(bctx, c)
        || (c.halt.None? && (rec.status == Pending || rec.status == BranchStatus.Failed)))
    && Content(parent, rec, c)
    && (IsPaused(c) ==> rec.pauses == c.halt.value.pauses)
  }

  /** A failed branch failed on a turn that no answer took part in. */
  ghost predicate FailsAgain(g: Graph, env: Env, fuel: nat, bctx: Ctx, c: Chain) {
    IsFailed(c) ==> exists p ::
      && Live(bctx, p) && p.answer.None? && p.left <= Budget(g)
      && Step(g, env, fuel, bctx, p) == c
  }

  ghost predicate Recorded(g: Graph, env: Env, fuel: nat, parent: State, bctx: Ctx, rec: Record, c: Chain) {
    && Holds(parent, bctx, rec, c) && FailsAgain(g, env, fuel, bctx, c)
    && c.answer.None? && c.left <= Budget(g) && (c.halt.Some? ==> !AtEnd(bctx, c.cur))
  }

  /** The invariant of a run that no human answered. */
  ghost predicate Sound(g: Graph, env: Env, fuel: nat, e: Exec) {
    && WellFormed(g, fuel, e)
    && e.top.answer.None? && e.top.left <= Budget(g)
    && (InFan(e) ==>
          var fan := e.fan.value;
          && (forall i :: 0 <= i < |fan.records| ==> fan.records[i].entry == fan.node.kind.branches[i])
          && (forall i :: 0 <= i < |fan.records| ==>
                Recorded(g, env, fuel - 1, e.top.state, FanCtx(e), fan.records[i], fan.branches[i])))
  }

  lemma SavedHolds(parent: State, bctx: Ctx, rec: Record, before: Chain, c: Chain)
    requires Content(parent, rec, before)
    requires IsFailed(c) ==> c.state == before.state && c.writes == before.writes && c.cur == before.cur
    requires c.cur != ""
    ensures Holds(parent, bctx, Saved(parent, bctx, rec, c), c)
  {
    if !IsFailed(c) {
      RebuildGivesBack(parent.data.values, parent.data.values, c.state.data.values);
      RebuildExact(parent.loops, c.state.loops);
    }
  }

  lemma ResolveNamed(g: Graph, env: Env, s: State, node: Node, forced: Name)
    requires Valid(g)
    ensures var next := ResolveNext(g, env, s, node, forced); next.Ok? ==> next.value != ""
  {
    hide Valid;
    EmptyUnknown(g);
    EdgeNamed(g, node.name);
  }

  lemma NextNamed(g: Graph, env: Env, fuel: nat, ctx: Ctx, c: Chain)
    requires Valid(g) && Live(ctx, c) && c.cur != ""
    ensures Step(g, env, fuel, ctx, c).cur != ""
  {
    hide Valid, RunNode, ResolveNext;
    var found := FindNode(g.nodes, c.cur);
    if c.left > 0 && found.Some? {
      var r := RunNode(g, env, fuel, ctx, c, found.value);
      if r.Ran? { ResolveNamed(g, env, r.state, found.value, r.forced); }
    }
  }

  lemma TurnRecorded(g: Graph, env: Env, fuel: nat, parent: State, bctx: Ctx, rec: Record, b: Chain)
    requires Valid(g) && Recorded(g, env, fuel, parent, bctx, rec, b) && Live(bctx, b) && bctx.level > 0
    ensures var b1 := Step(g, env, fuel, bctx, b);
            Recorded(g, env, fuel, parent, bctx, Saved(parent, bctx, rec, b1), b1)
  {
    hide Valid, Step, Saved;
    var b1 := Step(g, env, fuel, bctx, b);
    NextNamed(g, env, fuel, bctx, b);
    SavedHolds(parent, bctx, rec, b, b1);
    StepForgets(g, env, fuel, bctx, b);
    assert IsFailed(b1) ==> Live(bctx, b) && b.answer.None? && b.left <= Budget(g) && Step(g, env, fuel, bctx, b) == b1;
  }

  lemma TurnKeepsSound(g: Graph, env: Env, fuel: nat, e: Exec, i: nat)
    requires Valid(g) && Sound(g, env, fuel, e) && Enabled(g, fuel, e, Turn(i))
    ensures Sound(g, env, fuel, Apply(g, env, fuel, e, Turn(i)))
  {
    hide Valid, Step, Recorded;
    var fan := e.fan.value;
    assert Recorded(g, env, fuel - 1, e.top.state, FanCtx(e), fan.records[i], fan.branches[i]);
    TurnRecorded(g, env, fuel - 1, e.top.state, FanCtx(e), fan.records[i], fan.branches[i]);
  }

  lemma StepForgets(g: Graph, env: Env, fuel: nat, ctx: Ctx, c: Chain)
    requires Live(ctx, c) && c.answer.None?
    ensures Step(g, env, fuel, ctx, c).answer.None? && Step(g, env, fuel, ctx, c).left <= c.left
  {
    var found := FindNode(g.nodes, c.cur);
    if c.left > 0 && found.Some? {
      var r := RunNode(g, env, fuel, ctx, c, found.value);
      assert Settle(g, env, ctx, c, found.value, r).answer.None?;
    }
  }

  lemma FreshRecorded(g: Graph, env: Env, fuel: nat, parent: State, bctx: Ctx, entry: Name)
    requires entry != ""
    ensures Recorded(g, env, fuel, parent, bctx, FreshRecord(entry), BranchStart(g, parent, entry))
  {
    var start := BranchStart(g, parent, entry).state;
    assert RebuiltState(parent, FreshRecord(entry)) == start.(data := Data(parent.data.values, map[]));
  }

  lemma OpenKeepsSound(g: Graph, env: Env, fuel: nat, e: Exec)
    requires Valid(g) && Sound(g, env, fuel, e) && Enabled(g, fuel, e, Open)
    ensures Sound(g, env, fuel, Apply(g, env, fuel, e, Open))
  {
    hide Valid, Step, Recorded, BranchStart, FreshRecord;
    var e1 := Apply(g, env, fuel, e, Open);
    var fan := e1.fan.value;
    TargetsNamed(g, fan.node);
    forall i | 0 <= i < |fan.records|
      ensures Recorded(g, env, fuel - 1, e.top.state, FanCtx(e1), fan.records[i], fan.branches[i])
      ensures fan.records[i].entry == fan.node.kind.branches[i]
    {
      assert fan.node.kind.branches[i] in fan.node.kind.branches;
      FreshEntry(fan.node.kind.branches[i]);
      FreshRecorded(g, env, fuel - 1, e.top.state, FanCtx(e1), fan.node.kind.branches[i]);
    }
  }

  lemma FreshEntry(entry: Name)
    ensures FreshRecord(entry).entry == entry
  {
  }

  lemma MoveKeepsSound(g: Graph, env: Env, fuel: nat, e: Exec, m: Move)
    requires Valid(g) && Sound(g, env, fuel, e) && Enabled(g, fuel, e, m)
    ensures Sound(g, env, fuel, Apply(g, env, fuel, e, m))
  {
    match m
    case Plain => StepForgets(g, env, fuel, TOP, e.top);
    case Open => OpenKeepsSound(g, env, fuel, e);
    case Turn(i) => TurnKeepsSound(g, env, fuel, e, i);
    case Close =>
      var fan := e.fan.value;
      var r := FanResult(e.top.state, fan.node.kind.branches, Ends(fan.branches));
      assert Settle(g, env, TOP, e.top, fan.node, r).answer.None?;
  }

  // ---- resuming a branch ----

  /** A branch rebuilt without an answer ends as the branch itself would have. */
  lemma BranchResumes(g: Graph, env: Env, fuel: nat, parent: State, reloaded: State, bctx: Ctx, rec: Record, c: Chain)
    requires PerThread(env) && bctx.level == 1 && Budget(g) > 0
    requires Recorded(g, env, fuel, parent, bctx, rec, c) && SameState(parent, reloaded)
    ensures SameOrLimit(false, EndOf(Run(g, env, fuel, bctx, c)),
                        EndOf(Run(g, env, fuel, bctx, Rebuilt(g, reloaded, rec, None))))
  {
    hide Step;
    SameRebuilt(parent, reloaded, rec);
    var c' := Rebuilt(g, reloaded, rec, None);
    if IsFailed(c) {
      if !HitLimit(c) { FailsAlike(g, env, fuel, bctx, c, c'); }
    } else if !IsPaused(c) && rec.status != Done {
      RunAlike(g, env, fuel, bctx, c, c');
    }
  }

  lemma FailsAlike(g: Graph, env: Env, fuel: nat, bctx: Ctx, c: Chain, c': Chain)
    requires PerThread(env) && bctx.level == 1 && Budget(g) > 0
    requires IsFailed(c) && !HitLimit(c) && FailsAgain(g, env, fuel, bctx, c)
    requires SameState(c.state, c'.state) && c.writes == c'.writes && c.cur == c'.cur
    requires c'.halt.None? && c'.answer.None? && c'.left == Budget(g)
    ensures Alike(1, c, Run(g, env, fuel, bctx, c'))
  {
    var p :| Live(bctx, p) && p.answer.None? && p.left <= Budget(g) && Step(g, env, fuel, bctx, p) == c;
    assert p.left > 0;
    assert Alike(1, p, c');
    StepAlike(g, env, fuel, bctx, p, c');
  }

  // ---- resuming the run ----

  /** The run, or one of its branches, took all the steps one call may take. */
  ghost predicate Limited(c: Chain) {
    || HitLimit(c)
    || (IsFailed(c) && c.halt.value.error.BranchFailed? && c.halt.value.error.error == StepLimit)
  }

  lemma SameRebuilt(parent: State, reloaded: State, rec: Record)
    requires SameState(parent, reloaded)
    ensures SameState(RebuiltState(parent, rec), RebuiltState(reloaded, rec))
  {
    var a, b := RebuiltState(parent, rec).data.values, RebuiltState(reloaded, rec).data.values;
    SameValuesAt(parent.data.values, reloaded.data.values);
    SameValuesAt(a, b);
  }

  /** Both fan-outs joined from ends that agree. */
  lemma CloseAlike(g: Graph, env: Env, fuel: nat, a: Chain, b: Chain, node: Node, es: seq<End>, es': seq<End>)
    requires PerThread(env) && Alike(0, a, b) && a.halt.None? && 0 < a.left <= b.left && node.kind.Parallel?
    requires |node.kind.branches| == |es| == |es'|
    requires forall i :: 0 <= i < |es| ==> SameOrLimit(false, es[i], es'[i])
    ensures var ra := Run(g, env, fuel, TOP, Settle(g, env, TOP, a, node, FanResult(a.state, node.kind.branches, es)));
            var rb := Run(g, env, fuel, TOP, Settle(g, env, TOP, b, node, FanResult(b.state, node.kind.branches, es')));
            Limited(ra) || Alike(0, ra, rb)
  {
    hide Step;
    var entries := node.kind.branches;
    JoinAlike(false, a.state.data, b.state.data, entries, es, es');
    var r, r' := FanResult(a.state, entries, es), FanResult(b.state, entries, es');
    if BranchHitLimit(CloseFan(a.state.data, entries, es)) {
      assert Limited(Settle(g, env, TOP, a, node, r));
    } else {
      assert SameResult(0, r, r');
      SettleAlike(g, env, TOP, a, b, node, r, r');
      RunAlike(g, env, fuel, TOP, Settle(g, env, TOP, a, node, r), Settle(g, env, TOP, b, node, r'));
    }
  }

  lemma {:induction false} FanResumes(g: Graph, env: Env, fuel: nat, e: Exec, e': Exec)
    requires PerThread(env) && Sound(g, env, fuel, e) && InFan(e)
    requires WellFormed(g, fuel, e') && InFan(e') && Alike(0, e.top, e'.top) && e'.top.left == Budget(g)
    requires e'.fan.value.node == e.fan.value.node
    requires |e'.fan.value.branches| == |e.fan.value.branches|
    requires forall i :: 0 <= i < |e.fan.value.branches| ==>
      e'.fan.value.branches[i] == Rebuilt(g, e'.top.state, e.fan.value.records[i], None)
    ensures Limited(Finish(g, env, fuel, e)) || Alike(0, Finish(g, env, fuel, e), Finish(g, env, fuel, e'))
  {
    hide Step, Run, Settle, CloseFan, Recorded, Rebuilt;
    var fan, fan' := e.fan.value, e'.fan.value;
    var bctx := FanCtx(e);
    assert bctx == FanCtx(e');
    var rs := RunAll(g, env, fuel - 1, bctx, fan.branches);
    var rs' := RunAll(g, env, fuel - 1, bctx, fan'.branches);
    forall i | 0 <= i < |rs| ensures SameOrLimit(false, Ends(rs)[i], Ends(rs')[i]) {
      BranchResumes(g, env, fuel - 1, e.top.state, e'.top.state, bctx, fan.records[i], fan.branches[i]);
    }
    CloseAlike(g, env, fuel, e.top, e'.top, fan.node, Ends(rs), Ends(rs'));
  }

  /** A run that is stopped at any point and resumed ends as if it had not been stopped. */
  lemma CrashResume(g: Graph, env: Env, fuel: nat, e: Exec)
    requires Valid(g) && PerThread(env) && Sound(g, env, fuel, e) && e.top.halt.None?
    ensures var r := Reload(g, fuel, Encode(e), NO_INPUT);
            && r.Ok? && WellFormed(g, fuel, r.value)
            && (Limited(Finish(g, env, fuel, e)) || Alike(0, Finish(g, env, fuel, e), Finish(g, env, fuel, r.value)))
  {
    hide Step, Run, Valid, Recorded;
    var cp := Encode(e);
    var e' := Reload(g, fuel, cp, NO_INPUT).value;
    assert Strip(Strip(e.top.state.data.values)) == Strip(e.top.state.data.values);
    assert Alike(0, e.top, e'.top);
    if InFan(e) {
      FanResumes(g, env, fuel, e, e');
    } else {
      RunAlike(g, env, fuel, TOP, e.top, e'.top);
    }
  }

  lemma {:induction false} RunKeepsSound(g: Graph, env: Env, fuel: nat, e: Exec, moves: seq<Move>, e1: Exec)
    requires Valid(g) && Sound(g, env, fuel, e) && Leads(g, env, fuel, e, moves, e1)
    ensures Sound(g, env, fuel, e1)
    decreases moves
  {
    if moves != [] {
      MoveKeepsSound(g, env, fuel, e, moves[0]);
      RunKeepsSound(g, env, fuel, Apply(g, env, fuel, e, moves[0]), moves[1..], e1);
    }
  }

  // ---- exactly what a resume changes: it renews the step budget ----

  function RenewedBranch(g: Graph, b: Chain): Chain {
    if IsFailed(b) then Restart(g, b) else b.(left := Budget(g))
  }

  /** The run with the steps of a new call, its failed branches about to run again. */
  function Renewed(g: Graph, e: Exec): Exec {
    var top := e.top.(left := Budget(g));
    if !InFan(e) then e.(top := top)
    else
      var fan := e.fan.value;
      e.(top := top, fan := Some(fan.(branches :=
        seq(|fan.branches|, i requires 0 <= i < |fan.branches| => RenewedBranch(g, fan.branches[i])))))
  }

  lemma RenewedBranchResumes(g: Graph, env: Env, fuel: nat, parent: State, reloaded: State, bctx: Ctx, rec: Record,
                             c: Chain)
    requires PerThread(env) && bctx.level == 1
    requires Recorded(g, env, fuel, parent, bctx, rec, c) && SameState(parent, reloaded)
    ensures SameEnd(false, EndOf(Run(g, env, fuel, bctx, RenewedBranch(g, c))),
                    EndOf(Run(g, env, fuel, bctx, Rebuilt(g, reloaded, rec, None))))
  {
    hide Step;
    SameRebuilt(parent, reloaded, rec);
    if rec.status != Done && !IsPaused(c) {
      RunAlike(g, env, fuel, bctx, RenewedBranch(g, c), Rebuilt(g, reloaded, rec, None));
    }
  }

  lemma RenewedFanResumes(g: Graph, env: Env, fuel: nat, e: Exec, e': Exec)
    requires PerThread(env) && Sound(g, env, fuel, e) && InFan(e)
    requires WellFormed(g, fuel, e') && InFan(e') && Alike(0, e.top, e'.top) && e'.top.left == Budget(g)
    requires e'.fan.value.node == e.fan.value.node
    requires |e'.fan.value.branches| == |e.fan.value.branches|
    requires forall i :: 0 <= i < |e.fan.value.branches| ==>
      e'.fan.value.branches[i] == Rebuilt(g, e'.top.state, e.fan.value.records[i], None)
    ensures WellFormed(g, fuel, Renewed(g, e))
    ensures Alike(0, Finish(g, env, fuel, Renewed(g, e)), Finish(g, env, fuel, e'))
  {
    hide Step, Run, Settle, CloseFan, Recorded, Rebuilt, RenewedBranch;
    var en := Renewed(g, e);
    var fan, fan' := en.fan.value, e'.fan.value;
    var bctx := FanCtx(e);
    assert bctx == FanCtx(e') == FanCtx(en);
    var rs := RunAll(g, env, fuel - 1, bctx, fan.branches);
    var rs' := RunAll(g, env, fuel - 1, bctx, fan'.branches);
    forall i | 0 <= i < |rs| ensures SameEnd(false, Ends(rs)[i], Ends(rs')[i]) {
      RenewedBranchResumes(g, env, fuel - 1, e.top.state, e'.top.state, bctx, fan.records[i], e.fan.value.branches[i]);
    }
    RenewedClose(g, env, fuel, en.top, e'.top, fan.node, Ends(rs), Ends(rs'));
  }

  lemma RenewedClose(g: Graph, env: Env, fuel: nat, a: Chain, b: Chain, node: Node, es: seq<End>, es': seq<End>)
    requires PerThread(env) && Alike(0, a, b) && a.halt.None? && 0 < a.left == b.left && node.kind.Parallel?
    requires |node.kind.branches| == |es| == |es'|
    requires forall i :: 0 <= i < |es| ==> SameEnd(false, es[i], es'[i])
    ensures Alike(0, Run(g, env, fuel, TOP, Settle(g, env, TOP, a, node, FanResult(a.state, node.kind.branches, es))),
                  Run(g, env, fuel, TOP, Settle(g, env, TOP, b, node, FanResult(b.state, node.kind.branches, es'))))
  {
    hide Step;
    var entries := node.kind.branches;
    SameEndsJoin(false, a.state.data, b.state.data, entries, es, es');
    var r, r' := FanResult(a.state, entries, es), FanResult(b.state, entries, es');
    SettleAlike(g, env, TOP, a, b, node, r, r');
    RunAlike(g, env, fuel, TOP, Settle(g, env, TOP, a, node, r), Settle(g, env, TOP, b, node, r'));
  }

  /** With no proviso: a resumed run is the stopped one with a new call's step budget. */
  lemma ResumeRenews(g: Graph, env: Env, fuel: nat, e: Exec)
    requires Valid(g) && PerThread(env) && Sound(g, env, fuel, e) && e.top.halt.None?
    ensures var r := Reload(g, fuel, Encode(e), NO_INPUT);
            && r.Ok? && WellFormed(g, fuel, r.value) && WellFormed(g, fuel, Renewed(g, e))
            && Alike(0, Finish(g, env, fuel, Renewed(g, e)), Finish(g, env, fuel, r.value))
  {
    hide Step, Run, Valid, Recorded;
    var e' := Reload(g, fuel, Encode(e), NO_INPUT).value;
    assert Strip(Strip(e.top.state.data.values)) == Strip(e.top.state.data.values);
    assert Alike(0, e.top, e'.top);
    if InFan(e) {
      RenewedFanResumes(g, env, fuel, e, e');
    } else {
      RunAlike(g, env, fuel, TOP, e.top.(left := Budget(g)), e'.top);
    }
  }
}
