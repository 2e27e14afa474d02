/** A run that is checkpointed, stopped and resumed: what is stored, how a resume rebuilds it, and why
    neither the schedule of a fan-out nor a stop in the middle of it shows in the result. */
module Durable {
  import opened Options
  import opened Graphs
  import opened Executor
  import opened Congruence

  // ---- what a checkpoint holds ----

  datatype BranchStatus = Pending | Running | Done | Interrupted | Failed

  /** A branch relative to the state its fan-out started from. */
  datatype Record = Record(
    entry: Name, status: BranchStatus, next: Name,
    values: map<string, string>, erased: set<string>,
    loops: map<Name, nat>, endedLoops: set<Name>,
    writes: set<string>, histories: map<Name, History>, pauses: seq<Interrupt>)

  datatype Progress = Progress(node: Name, records: seq<Record>)

  datatype RunStatus = Underway | Completed | Waiting | Broken

  datatype Checkpoint = Checkpoint(
    step: nat, next: Name, status: RunStatus, data: Data, loops: map<Name, nat>,
    pauses: seq<Interrupt>, progress: Option<Progress>)

  function Changed<V(==)>(parent: map<string, V>, now: map<string, V>): map<string, V> {
    map k | k in now && (k !in parent || parent[k] != now[k]) :: now[k]
  }

  function Erased<V>(parent: map<string, V>, now: map<string, V>): set<string> {
    set k | k in parent && k !in now
  }

  function Rebuild<V>(parent: map<string, V>, changed: map<string, V>, erased: set<string>): map<string, V> {
    (parent + changed) - erased
  }

  lemma RebuildExact<V>(parent: map<string, V>, now: map<string, V>)
    ensures Rebuild(parent, Changed(parent, now), Erased(parent, now)) == now
  {
  }

  /** Parent values plus recorded changes minus erased keys give back the branch's values, `temp:`
      values aside, even when the parent was itself reloaded. */
  lemma RebuildGivesBack(parent: map<string, string>, reloaded: map<string, string>, now: map<string, string>)
    requires SameValues(parent, reloaded)
    ensures SameValues(Rebuild(reloaded, Changed(parent, Strip(now)), Erased(Strip(parent), now)), now)
  {
    SameValuesAt(parent, reloaded);
    var r := Rebuild(reloaded, Changed(parent, Strip(now)), Erased(Strip(parent), now));
    forall k | !TempKey(k) ensures (k in r <==> k in now) && (k in r ==> r[k] == now[k]) {
      assert k in Strip(now) <==> k in now;
      assert k in Strip(parent) <==> k in parent;
    }
    SameValuesAt(r, now);
  }

  // ---- saving and rebuilding a branch ----

  function StatusOf(bctx: Ctx, c: Chain): BranchStatus {
    if IsFailed(c) then BranchStatus.Failed
    else if IsPaused(c) then Interrupted
    else if AtEnd(bctx, c.cur) then Done
    else Running
  }

  function FreshRecord(entry: Name): Record {
    Record(entry, Pending, entry, map[], {}, map[], {}, {}, map[], [])
  }

  /** The record after the branch reached `c`. A failed branch keeps what its last completed node left. */
  function Saved(parent: State, bctx: Ctx, rec: Record, c: Chain): Record {
    if IsFailed(c) then rec.(status := BranchStatus.Failed, next := c.cur)
    else Record(rec.entry, StatusOf(bctx, c), c.cur,
                Changed(parent.data.values, Strip(c.state.data.values)),
                Erased(Strip(parent.data.values), c.state.data.values),
                Changed(parent.loops, c.state.loops), Erased(parent.loops, c.state.loops),
                c.writes, c.state.data.histories, if IsPaused(c) then c.halt.value.pauses else [])
  }

  function RebuiltState(parent: State, rec: Record): State {
    State(Data(Rebuild(parent.data.values, rec.values, rec.erased), rec.histories),
          Rebuild(parent.loops, rec.loops, rec.endedLoops))
  }

  const HUMAN_INPUT := "temp:human_input"

  function CallsOf(pauses: seq<Interrupt>): seq<Call> {
    if pauses == [] then [] else pauses[0].calls
  }

  /** `c` set going again with a fresh step budget. */
  function Restart(g: Graph, c: Chain): Chain {
    c.(halt := None, left := Budget(g), answer := None)
  }

  /** A paused chain set going with the answer. The node that asked sees the decision when tool calls
      wait for it and the input when there is one. */
  function Deliver(g: Graph, c: Chain, a: Answer, calls: seq<Call>): Chain {
    var values := if a.input == "" then c.state.data.values else c.state.data.values[HUMAN_INPUT := a.input];
    var told := if calls == [] && a.input == "" then None else Some(Answer(a.approved && calls != [], a.input));
    Restart(g, c).(state := c.state.(data := c.state.data.(values := values)), answer := told)
  }

  /** The branch a resume continues: finished ones stay finished, unanswered pauses stay. */
  function Rebuilt(g: Graph, parent: State, rec: Record, answer: Option<Answer>): Chain {
    var at := if rec.next == "" then rec.entry else rec.next;
    var c := Chain(RebuiltState(parent, rec), rec.writes, at, None, [], Budget(g), None);
    match rec.status
    case Done => c.(cur := END)
    case Interrupted =>
      (match answer
       case None => c.(halt := Some(Paused(rec.pauses)))
       case Some(a) => Deliver(g, c, a, CallsOf(rec.pauses)))
    case _ => c
  }

  // ---- a run in progress ----

  datatype Fan = Fan(node: Node, branches: seq<Chain>, records: seq<Record>)

  /** `fan` is the unfinished fan-out of the top-level chain; it stays when the fan-out did not join. */
  datatype Exec = Exec(step: nat, top: Chain, fan: Option<Fan>)

  predicate Opens(g: Graph, fuel: nat, top: Chain) {
    && Live(TOP, top) && top.left > 0 && fuel > 0
    && FindNode(g.nodes, top.cur).Some? && FindNode(g.nodes, top.cur).value.kind.Parallel?
  }

  predicate InFan(e: Exec) {
    e.fan.Some? && e.top.halt.None?
  }

  function FanCtx(e: Exec): Ctx
    requires e.fan.Some?
  {
    BranchCtx(TOP, e.top.state, e.fan.value.node.name)
  }

  predicate WellFormed(g: Graph, fuel: nat, e: Exec) {
    InFan(e) ==>
      && Opens(g, fuel, e.top) && FindNode(g.nodes, e.top.cur) == Some(e.fan.value.node)
      && |e.fan.value.branches| == |e.fan.value.records| == |e.fan.value.node.kind.branches|
  }

  /** One turn of the top-level loop, the start of a fan-out, one turn of one branch, the join. */
  datatype Move = Plain | Open | Turn(branch: nat) | Close

  predicate Enabled(g: Graph, fuel: nat, e: Exec, m: Move) {
    match m
    case Plain => !InFan(e) && Live(TOP, e.top) && !Opens(g, fuel, e.top)
    case Open => !InFan(e) && Opens(g, fuel, e.top)
    case Turn(i) => InFan(e) && i < |e.fan.value.branches| && Live(FanCtx(e), e.fan.value.branches[i])
    case Close => InFan(e) && forall b <- e.fan.value.branches :: !Live(FanCtx(e), b)
  }

  function FreshFan(g: Graph, top: Chain, node: Node): Fan
    requires node.kind.Parallel?
  {
    var entries := node.kind.branches;
    Fan(node, BranchStarts(g, top.state, entries),
        seq(|entries|, i requires 0 <= i < |entries| => FreshRecord(entries[i])))
  }

  function Advanced(e: Exec, top: Chain, fan: Option<Fan>): Exec {
    Exec(if top.halt.None? then e.step + 1 else e.step, top, fan)
  }

  function Apply(g: Graph, env: Env, fuel: nat, e: Exec, m: Move): Exec
    requires WellFormed(g, fuel, e) && Enabled(g, fuel, e, m)
  {
    match m
    case Plain => Advanced(e, Step(g, env, fuel, TOP, e.top), None)
    case Open => e.(fan := Some(FreshFan(g, e.top, FindNode(g.nodes, e.top.cur).value)))
    case Turn(i) =>
      var fan := e.fan.value;
      var b := Step(g, env, fuel - 1, FanCtx(e), fan.branches[i]);
      var rec := Saved(e.top.state, FanCtx(e), fan.records[i], b);
      e.(fan := Some(fan.(branches := fan.branches[i := b], records := fan.records[i := rec])))
    case Close =>
      var fan := e.fan.value;
      var r := FanResult(e.top.state, fan.node.kind.branches, Ends(fan.branches));
      Advanced(e, Settle(g, env, TOP, e.top, fan.node, r), if r.Ran? then None else e.fan)
  }

  /** What the run ends with, its branches run one after the other. */
  function Finish(g: Graph, env: Env, fuel: nat, e: Exec): Chain
    requires WellFormed(g, fuel, e)
  {
    if !InFan(e) then Run(g, env, fuel, TOP, e.top)
    else
      var fan := e.fan.value;
      var rs := RunAll(g, env, fuel - 1, FanCtx(e), fan.branches);
      Run(g, env, fuel, TOP,
          Settle(g, env, TOP, e.top, fan.node, FanResult(e.top.state, fan.node.kind.branches, Ends(rs))))
  }

  // ---- the schedule does not matter ----

  lemma OpenKeepsFinish(g: Graph, env: Env, fuel: nat, e: Exec)
    requires WellFormed(g, fuel, e) && Enabled(g, fuel, e, Open)
    ensures WellFormed(g, fuel, Apply(g, env, fuel, e, Open))
    ensures Finish(g, env, fuel, Apply(g, env, fuel, e, Open)) == Finish(g, env, fuel, e)
  {
    hide Settle, FanResult, FreshRecord, Step;
    var e1 := Apply(g, env, fuel, e, Open);
    StepFan(g, env, fuel, TOP, e.top, e1.fan.value.node);
    assert Run(g, env, fuel, TOP, e.top) == Run(g, env, fuel, TOP, Step(g, env, fuel, TOP, e.top));
  }

  lemma TurnKeepsFinish(g: Graph, env: Env, fuel: nat, e: Exec, i: nat)
    requires WellFormed(g, fuel, e) && Enabled(g, fuel, e, Turn(i))
    ensures WellFormed(g, fuel, Apply(g, env, fuel, e, Turn(i)))
    ensures Finish(g, env, fuel, Apply(g, env, fuel, e, Turn(i))) == Finish(g, env, fuel, e)
  {
    hide Settle, FanResult, Saved, Step;
    var e1 := Apply(g, env, fuel, e, Turn(i));
    var bs, bs1 := e.fan.value.branches, e1.fan.value.branches;
    assert Run(g, env, fuel - 1, FanCtx(e), bs1[i]) == Run(g, env, fuel - 1, FanCtx(e), bs[i]);
    assert RunAll(g, env, fuel - 1, FanCtx(e), bs1) == RunAll(g, env, fuel - 1, FanCtx(e), bs);
  }

  lemma CloseKeepsFinish(g: Graph, env: Env, fuel: nat, e: Exec)
    requires WellFormed(g, fuel, e) && Enabled(g, fuel, e, Close)
    ensures WellFormed(g, fuel, Apply(g, env, fuel, e, Close))
    ensures Finish(g, env, fuel, Apply(g, env, fuel, e, Close)) == Finish(g, env, fuel, e)
  {
    hide CloseFan, ResolveNext, Step;
    var bs := e.fan.value.branches;
    assert forall i :: 0 <= i < |bs| ==> bs[i] in bs;
    assert RunAll(g, env, fuel - 1, FanCtx(e), bs) == bs;
  }

  lemma MoveKeepsFinish(g: Graph, env: Env, fuel: nat, e: Exec, m: Move)
    requires WellFormed(g, fuel, e) && Enabled(g, fuel, e, m)
    ensures WellFormed(g, fuel, Apply(g, env, fuel, e, m))
    ensures Finish(g, env, fuel, Apply(g, env, fuel, e, m)) == Finish(g, env, fuel, e)
  {
    hide Step, Settle, FanResult;
    match m
    case Plain =>
    case Open => OpenKeepsFinish(g, env, fuel, e);
    case Turn(i) => TurnKeepsFinish(g, env, fuel, e, i);
    case Close => CloseKeepsFinish(g, env, fuel, e);
  }

  /** `e` can become `e1` by these moves. */
  ghost predicate Leads(g: Graph, env: Env, fuel: nat, e: Exec, moves: seq<Move>, e1: Exec)
    decreases moves
  {
    if moves == [] then e == e1
    else WellFormed(g, fuel, e) && Enabled(g, fuel, e, moves[0]) &&
         Leads(g, env, fuel, Apply(g, env, fuel, e, moves[0]), moves[1..], e1)
  }

  /** Whatever interleaving of branch turns happened, the run ends as the left-to-right sequential
      one does: same values, histories, written keys, error and log. */
  lemma {:induction false} ScheduleIndependent(g: Graph, env: Env, fuel: nat, e: Exec, moves: seq<Move>, e1: Exec)
    requires WellFormed(g, fuel, e) && Leads(g, env, fuel, e, moves, e1)
    ensures WellFormed(g, fuel, e1) && Finish(g, env, fuel, e1) == Finish(g, env, fuel, e)
    ensures (forall m :: !Enabled(g, fuel, e1, m)) ==> e1.top == Finish(g, env, fuel, e)
    decreases moves
  {
    if moves != [] {
      MoveKeepsFinish(g, env, fuel, e, moves[0]);
      ScheduleIndependent(g, env, fuel, Apply(g, env, fuel, e, moves[0]), moves[1..], e1);
    } else if forall m :: !Enabled(g, fuel, e1, m) {
      assert !Enabled(g, fuel, e1, Plain) && !Enabled(g, fuel, e1, Open) && !Enabled(g, fuel, e1, Close);
      if InFan(e1) {
        var b :| b in e1.fan.value.branches && Live(FanCtx(e1), b);
        var i :| 0 <= i < |e1.fan.value.branches| && e1.fan.value.branches[i] == b;
        assert Enabled(g, fuel, e1, Turn(i));
      }
    }
  }
}
