/** A fan-out taken up again by any number of resume calls, each of which may itself be stopped at any point. */
module ResumeCalls {
  import opened Options
  import opened Graphs
  import opened Executor
  import opened Congruence
  import opened Durable
  import opened Resume
  import opened PartialResume
  import Stops

  /** A resume call: what it was given, the turns it gave to branches, and the run after these. A call that is not
      `closed` was stopped there; otherwise every branch had stopped and the join was tried. */
  datatype Call = Call(req: Request, moves: seq<Move>, before: Exec, closed: bool)

  ghost predicate Calls(g: Graph, env: Env, fuel: nat, e: Exec, call: Call) {
    var r := Reload(g, fuel, Encode(e), call.req);
    && r.Ok? && InFan(r.value) && Leads(g, env, fuel, r.value, call.moves, call.before)
    && OnlyTurns(call.moves) && WellFormed(g, fuel, call.before)
    && (call.closed ==> Enabled(g, fuel, call.before, Close))
  }

  /** What the call left behind. */
  function After(g: Graph, env: Env, fuel: nat, call: Call): Exec
    requires WellFormed(g, fuel, call.before) && (call.closed ==> Enabled(g, fuel, call.before, Close))
  {
    if call.closed then Apply(g, env, fuel, call.before, Close) else call.before
  }

  /** One call after another, each from what the one before stored. */
  ghost predicate Session(g: Graph, env: Env, fuel: nat, e: Exec, calls: seq<Call>)
    decreases calls
  {
    calls != [] ==>
      Calls(g, env, fuel, e, calls[0]) && Session(g, env, fuel, After(g, env, fuel, calls[0]), calls[1..])
  }

  /** What the session left behind. */
  ghost function Left(g: Graph, env: Env, fuel: nat, e: Exec, calls: seq<Call>): Exec
    requires Session(g, env, fuel, e, calls)
    decreases calls
  {
    if calls == [] then e else Left(g, env, fuel, After(g, env, fuel, calls[0]), calls[1..])
  }

  // ---- a branch in memory ----

  /** A branch as a call begins with it: a paused one is answered or stays, a finished one stays, any other goes on with
      a new call's steps. */
  function Begun(g: Graph, bctx: Ctx, c: Chain, o: Option<Answer>): Chain {
    if IsPaused(c) then
      if o.Some? then Deliver(g, c, o.value, CallsOf(c.halt.value.pauses)) else c
    else if IsFailed(c) || Live(bctx, c) then Restart(g, c)
    else c
  }

  function Turned(g: Graph, env: Env, fuel: nat, bctx: Ctx, c: Chain, k: nat): Chain
    decreases k
  {
    if k == 0 || !Live(bctx, c) then c else Turned(g, env, fuel, bctx, Step(g, env, fuel, bctx, c), k - 1)
  }

  /** A branch after a call that gave it `k` turns. An answer that led to no turn is lost. */
  function Moved(g: Graph, env: Env, fuel: nat, bctx: Ctx, c: Chain, o: Option<Answer>, k: nat): Chain {
    if k == 0 then c else Turned(g, env, fuel, bctx, Begun(g, bctx, c, o), k)
  }

  /** A branch after a call that ran it to its end. */
  function Ran(g: Graph, env: Env, fuel: nat, bctx: Ctx, c: Chain, o: Option<Answer>): Chain {
    Run(g, env, fuel, bctx, Begun(g, bctx, c, o))
  }

  /** For branches at rest that is what they go through without being stored. */
  lemma RanFromRest(g: Graph, env: Env, fuel: nat, bctx: Ctx, c: Chain, o: Option<Answer>)
    requires AtRest(bctx, c)
    ensures Ran(g, env, fuel, bctx, c, o) == Advance(g, env, fuel, bctx, c, o)
  {
  }

  lemma {:induction false} TurnedToRest(g: Graph, env: Env, fuel: nat, bctx: Ctx, c: Chain, k: nat)
    ensures Run(g, env, fuel, bctx, Turned(g, env, fuel, bctx, c, k)) == Run(g, env, fuel, bctx, c)
    decreases k
  {
    hide Step;
    if k > 0 && Live(bctx, c) { TurnedToRest(g, env, fuel, bctx, Step(g, env, fuel, bctx, c), k - 1); }
  }

  lemma {:induction false} TurnedAlike(g: Graph, env: Env, fuel: nat, bctx: Ctx, a: Chain, b: Chain, k: nat)
    requires PerThread(env) && bctx.level == 1 && Alike(1, a, b) && a.left == b.left
    ensures var a', b' := Turned(g, env, fuel, bctx, a, k), Turned(g, env, fuel, bctx, b, k);
            Alike(1, a', b') && a'.left == b'.left
    decreases k
  {
    if k > 0 && Live(bctx, a) {
      var a1, b1 := Step(g, env, fuel, bctx, a), Step(g, env, fuel, bctx, b);
      if a.left > 0 {
        StepAlike(g, env, fuel, bctx, a, b);
        StepLeft(g, env, fuel, bctx, a, b);
      }
      hide Step;
      TurnedAlike(g, env, fuel, bctx, a1, b1, k - 1);
    }
  }

  // ---- the record of a branch ----

  /** The record holds the branch, which is at a node unless it reached its end. */
  ghost predicate Held(parent: State, bctx: Ctx, rec: Record, c: Chain) {
    Holds(parent, bctx, rec, c) && (c.halt.Some? ==> !AtEnd(bctx, c.cur))
  }

  lemma HeldUnderReload(parent: State, reloaded: State, bctx: Ctx, rec: Record, c: Chain)
    requires Held(parent, bctx, rec, c) && SameState(parent, reloaded)
    ensures Held(reloaded, bctx, rec, c)
  {
    SameRebuilt(parent, reloaded, rec);
  }

  /** What a call rebuilds from the record is the branch as it begins with it in memory. */
  lemma RebuiltBegun(g: Graph, bctx: Ctx, parent: State, rec: Record, c: Chain, o: Option<Answer>)
    requires Held(parent, bctx, rec, c)
    ensures var b, m := Rebuilt(g, parent, rec, o), Begun(g, bctx, c, o);
            if Live(bctx, m)
            then Alike(1, b, m) && b.left == m.left && Content(parent, rec, b)
            else !Live(bctx, b) && m == c && b.trace == [] && SameEnd(false, EndOf(c), EndOf(b))
  {
    if IsPaused(c) && o.Some? {
      var base := Chain(RebuiltState(parent, rec), rec.writes, c.cur, None, [], Budget(g), None);
      var calls := CallsOf(rec.pauses);
      DeliveredAlike(g, base, c, o.value, calls);
      DeliveredAlike(g, c, base, o.value, calls);
    }
  }

  function SavedTurns(g: Graph, env: Env, fuel: nat, bctx: Ctx, parent: State, rec: Record, b: Chain, k: nat): Record
    decreases k
  {
    if k == 0 || !Live(bctx, b) then rec
    else
      var b1 := Step(g, env, fuel, bctx, b);
      SavedTurns(g, env, fuel, bctx, parent, Saved(parent, bctx, rec, b1), b1, k - 1)
  }

  lemma {:induction false} SavedTurnsHold(g: Graph, env: Env, fuel: nat, bctx: Ctx, parent: State, rec: Record,
                                          b: Chain, k: nat)
    requires Valid(g) && bctx.level > 0 && Content(parent, rec, b) && k > 0 && Live(bctx, b)
    ensures Held(parent, bctx, SavedTurns(g, env, fuel, bctx, parent, rec, b, k), Turned(g, env, fuel, bctx, b, k))
    ensures SavedTurns(g, env, fuel, bctx, parent, rec, b, k).entry == rec.entry
    decreases k
  {
    hide Step, Valid, Saved;
    var b1 := Step(g, env, fuel, bctx, b);
    NextNamed(g, env, fuel, bctx, b);
    SavedHolds(parent, bctx, rec, b, b1);
    SavedEntry(parent, bctx, rec, b1);
    StopsAtNode(g, env, fuel, bctx, b);
    if k > 1 && Live(bctx, b1) {
      SavedTurnsHold(g, env, fuel, bctx, parent, Saved(parent, bctx, rec, b1), b1, k - 1);
    }
  }

  lemma SavedEntry(parent: State, bctx: Ctx, rec: Record, c: Chain)
    ensures Saved(parent, bctx, rec, c).entry == rec.entry
  {
  }

  lemma StopsAtNode(g: Graph, env: Env, fuel: nat, bctx: Ctx, c: Chain)
    requires Live(bctx, c)
    ensures var c1 := Step(g, env, fuel, bctx, c); c1.halt.Some? ==> !AtEnd(bctx, c1.cur)
  {
  }

  /** Over one call: the record holds the branch in memory, and the branch that the call ran is like it. */
  lemma BranchMoved(g: Graph, env: Env, fuel: nat, bctx: Ctx, parent: State, rec: Record, c: Chain, o: Option<Answer>,
                    k: nat)
    requires Valid(g) && PerThread(env) && bctx.level == 1 && Held(parent, bctx, rec, c)
    requires var b := Rebuilt(g, parent, rec, o); k > 0 ==> Live(bctx, b)
    ensures var b := Rebuilt(g, parent, rec, o);
            var rec1 := SavedTurns(g, env, fuel, bctx, parent, rec, b, k);
            Held(parent, bctx, rec1, Moved(g, env, fuel, bctx, c, o, k)) && rec1.entry == rec.entry
  {
    hide Valid, Rebuilt, Begun, Holds, Content, Step, Saved;
    var b, m := Rebuilt(g, parent, rec, o), Begun(g, bctx, c, o);
    RebuiltBegun(g, bctx, parent, rec, c, o);
    if k > 0 {
      SavedTurnsHold(g, env, fuel, bctx, parent, rec, b, k);
      TurnedAlike(g, env, fuel, bctx, b, m, k);
      HoldsAlike(parent, bctx, SavedTurns(g, env, fuel, bctx, parent, rec, b, k), Turned(g, env, fuel, bctx, b, k),
                 Turned(g, env, fuel, bctx, m, k));
    }
  }

  /** A branch that the call ran to its end ends as the one in memory does. */
  lemma BranchRan(g: Graph, env: Env, fuel: nat, bctx: Ctx, parent: State, rec: Record, c: Chain, o: Option<Answer>)
    requires PerThread(env) && bctx.level == 1 && Held(parent, bctx, rec, c)
    ensures SameEnd(false, EndOf(Ran(g, env, fuel, bctx, c, o)),
                    EndOf(Run(g, env, fuel, bctx, Rebuilt(g, parent, rec, o))))
  {
    hide Step, Rebuilt, Begun, Holds, Content;
    var b, m := Rebuilt(g, parent, rec, o), Begun(g, bctx, c, o);
    RebuiltBegun(g, bctx, parent, rec, c, o);
    if Live(bctx, m) { RunAlike(g, env, fuel, bctx, b, m); }
  }

  /** Turns that leave nothing to run are the whole run. */
  lemma MovedToRest(g: Graph, env: Env, fuel: nat, bctx: Ctx, parent: State, rec: Record, c: Chain, o: Option<Answer>,
                    k: nat)
    requires PerThread(env) && bctx.level == 1 && Held(parent, bctx, rec, c)
    requires !Live(bctx, Turned(g, env, fuel, bctx, Rebuilt(g, parent, rec, o), k))
    ensures Moved(g, env, fuel, bctx, c, o, k) == Ran(g, env, fuel, bctx, c, o)
  {
    hide Step, Rebuilt, Begun, Holds, Content;
    var b, m := Rebuilt(g, parent, rec, o), Begun(g, bctx, c, o);
    RebuiltBegun(g, bctx, parent, rec, c, o);
    TurnedToRest(g, env, fuel, bctx, m, k);
    if Live(bctx, m) { TurnedAlike(g, env, fuel, bctx, b, m, k); }
  }

  // ---- one call ----

  /** How many turns the moves give to branch `i`. */
  function Count(moves: seq<Move>, i: nat): nat {
    if moves == [] then 0 else (if moves[0] == Turn(i) then 1 else 0) + Count(moves[1..], i)
  }

  lemma {:induction false} TurnsCount(g: Graph, env: Env, fuel: nat, e: Exec, moves: seq<Move>, e1: Exec, i: nat)
    requires WellFormed(g, fuel, e) && InFan(e) && Leads(g, env, fuel, e, moves, e1) && OnlyTurns(moves)
    requires i < |e.fan.value.branches|
    ensures WellFormed(g, fuel, e1) && InFan(e1) && e1.top == e.top && e1.fan.value.node == e.fan.value.node
    ensures |e1.fan.value.branches| == |e.fan.value.branches|
    ensures var k, b := Count(moves, i), e.fan.value.branches[i];
            && e1.fan.value.branches[i] == Turned(g, env, fuel - 1, FanCtx(e), b, k)
            && e1.fan.value.records[i] ==
               SavedTurns(g, env, fuel - 1, FanCtx(e), e.top.state, e.fan.value.records[i], b, k)
            && (k > 0 ==> Live(FanCtx(e), b))
    decreases moves
  {
    hide Step, Saved;
    if moves != [] {
      assert moves[0] in moves;
      TurnsCount(g, env, fuel, Apply(g, env, fuel, e, moves[0]), moves[1..], e1, i);
    }
  }

  lemma {:induction false} TurnsRun(g: Graph, env: Env, fuel: nat, e: Exec, moves: seq<Move>, e1: Exec)
    requires WellFormed(g, fuel, e) && InFan(e) && Leads(g, env, fuel, e, moves, e1) && OnlyTurns(moves)
    ensures WellFormed(g, fuel, e1) && InFan(e1) && e1.top == e.top && e1.fan.value.node == e.fan.value.node
    ensures RunAll(g, env, fuel - 1, FanCtx(e), e1.fan.value.branches) ==
            RunAll(g, env, fuel - 1, FanCtx(e), e.fan.value.branches)
    decreases moves
  {
    hide Step, Saved;
    if moves != [] {
      assert moves[0] in moves;
      var i := moves[0].branch;
      var e2 := Apply(g, env, fuel, e, moves[0]);
      var bs, bs2 := e.fan.value.branches, e2.fan.value.branches;
      assert Run(g, env, fuel - 1, FanCtx(e), bs2[i]) == Run(g, env, fuel - 1, FanCtx(e), bs[i]);
      assert RunAll(g, env, fuel - 1, FanCtx(e), bs2) == RunAll(g, env, fuel - 1, FanCtx(e), bs);
      TurnsRun(g, env, fuel, e2, moves[1..], e1);
    }
  }

  lemma AllStopped(g: Graph, env: Env, fuel: nat, bctx: Ctx, bs: seq<Chain>)
    requires forall b <- bs :: !Live(bctx, b)
    ensures RunAll(g, env, fuel, bctx, bs) == bs
  {
    assert forall i :: 0 <= i < |bs| ==> bs[i] in bs;
  }

  /** The run is in a fan-out, or stopped in one, and its records hold the branches `cs`. */
  ghost predicate Holding(g: Graph, fuel: nat, e: Exec, cs: seq<Chain>) {
    && e.fan.Some? && e.fan.value.node.kind.Parallel? && e.top.cur != END
    && FindNode(g.nodes, e.top.cur) == Some(e.fan.value.node)
    && |e.fan.value.records| == |e.fan.value.node.kind.branches| == |cs|
    && forall i :: 0 <= i < |cs| ==>
         && e.fan.value.records[i].entry == e.fan.value.node.kind.branches[i]
         && Held(e.top.state, FanCtx(e), e.fan.value.records[i], cs[i])
  }

  /** What the call answered to branch `i` of the run that it took up. */
  ghost function Told(e: Exec, call: Call, i: nat): Option<Answer> {
    if e.fan.Some? && i < |e.fan.value.records|
    then AnswerFor(Encode(e), call.req, e.fan.value.records[i].entry) else None
  }

  /** The branches in memory once the call has run them all to their ends. */
  ghost function AllRan(g: Graph, env: Env, fuel: nat, e: Exec, cs: seq<Chain>, call: Call): (cs1: seq<Chain>)
    requires fuel > 0 && e.fan.Some?
    ensures |cs1| == |cs|
  {
    seq(|cs|, i requires 0 <= i < |cs| => Ran(g, env, fuel - 1, FanCtx(e), cs[i], Told(e, call, i)))
  }

  /** The branches in memory once the call is over: run to their ends, or stopped after the turns they got. */
  ghost function AfterCall(g: Graph, env: Env, fuel: nat, e: Exec, cs: seq<Chain>, call: Call): (cs1: seq<Chain>)
    requires fuel > 0 && e.fan.Some?
    ensures |cs1| == |cs|
  {
    if call.closed then AllRan(g, env, fuel, e, cs, call) else
    seq(|cs|, i requires 0 <= i < |cs| =>
      Moved(g, env, fuel - 1, FanCtx(e), cs[i], Told(e, call, i), Count(call.moves, i)))
  }

  /** What the call starts from. */
  lemma CallReloads(g: Graph, env: Env, fuel: nat, e: Exec, cs: seq<Chain>, call: Call)
    requires Holding(g, fuel, e, cs) && Calls(g, env, fuel, e, call)
    ensures var e' := Reload(g, fuel, Encode(e), call.req).value;
            && WellFormed(g, fuel, e') && InFan(e') && Alike(0, Restart(g, e.top), e'.top) && e'.top.left == Budget(g)
            && e'.fan.value.node == e.fan.value.node && e'.fan.value.records == e.fan.value.records
            && FanCtx(e') == FanCtx(e)
            && forall i :: 0 <= i < |cs| ==>
                 e'.fan.value.branches[i] ==
                 Rebuilt(g, e'.top.state, e.fan.value.records[i], Told(e, call, i))
  {
    hide Rebuilt, Held;
    assert Strip(Strip(e.top.state.data.values)) == Strip(e.top.state.data.values);
  }

  lemma BranchOverCall(g: Graph, env: Env, fuel: nat, e: Exec, cs: seq<Chain>, call: Call, i: nat)
    requires Valid(g) && PerThread(env) && fuel > 0 && Holding(g, fuel, e, cs) && Calls(g, env, fuel, e, call)
    requires i < |cs|
    ensures var b := call.before;
            && b.fan.Some? && i < |b.fan.value.records| && FanCtx(b) == FanCtx(e)
            && b.fan.value.records[i].entry == e.fan.value.records[i].entry
            && Held(b.top.state, FanCtx(b), b.fan.value.records[i], AfterCall(g, env, fuel, e, cs, call)[i])
  {
    hide Valid, Rebuilt, Held, Moved, Ran, Turned, SavedTurns, Encode, AnswerFor, Reload;
    CallReloads(g, env, fuel, e, cs, call);
    var e', b := Reload(g, fuel, Encode(e), call.req).value, call.before;
    TurnsCount(g, env, fuel, e', call.moves, b, i);
    var bctx, rec, o, k := FanCtx(e), e.fan.value.records[i], Told(e, call, i), Count(call.moves, i);
    HeldUnderReload(e.top.state, e'.top.state, bctx, rec, cs[i]);
    BranchMoved(g, env, fuel - 1, bctx, e'.top.state, rec, cs[i], o, k);
    if call.closed {
      assert b.fan.value.branches[i] in b.fan.value.branches;
      MovedToRest(g, env, fuel - 1, bctx, e'.top.state, rec, cs[i], o, k);
    }
  }

  /** After a call that another one follows, the run holds the branches as they are in memory. */
  lemma CallHolds(g: Graph, env: Env, fuel: nat, e: Exec, cs: seq<Chain>, call: Call)
    requires Valid(g) && PerThread(env) && fuel > 0 && Holding(g, fuel, e, cs) && Calls(g, env, fuel, e, call)
    requires After(g, env, fuel, call).fan.Some?
    ensures var e1 := After(g, env, fuel, call);
            && Holding(g, fuel, e1, AfterCall(g, env, fuel, e, cs, call))
            && e1.fan.value.node == e.fan.value.node && FanCtx(e1) == FanCtx(e)
            && Alike(0, Restart(g, e.top), Restart(g, e1.top))
  {
    hide Valid, Rebuilt, Held, Encode, AnswerFor, Reload, AfterCall, CloseFan, Step;
    CallReloads(g, env, fuel, e, cs, call);
    var e', b := Reload(g, fuel, Encode(e), call.req).value, call.before;
    TurnsRun(g, env, fuel, e', call.moves, b);
    assert b.top == e'.top;
    AfterSame(g, env, fuel, call);
    forall i | 0 <= i < |cs|
      ensures b.fan.value.records[i].entry == e.fan.value.node.kind.branches[i]
      ensures Held(b.top.state, FanCtx(b), b.fan.value.records[i], AfterCall(g, env, fuel, e, cs, call)[i])
    {
      BranchOverCall(g, env, fuel, e, cs, call, i);
    }
  }

  /** A join that fails leaves state, place and fan-out as they were. */
  lemma AfterSame(g: Graph, env: Env, fuel: nat, call: Call)
    requires WellFormed(g, fuel, call.before) && InFan(call.before)
    requires call.closed ==> Enabled(g, fuel, call.before, Close)
    requires After(g, env, fuel, call).fan.Some?
    ensures var e1, b := After(g, env, fuel, call), call.before;
            e1.fan == b.fan && e1.top.state == b.top.state && e1.top.cur == b.top.cur
  {
    hide CloseFan;
  }

  lemma CallsNeedFan(g: Graph, env: Env, fuel: nat, e: Exec, call: Call)
    requires Calls(g, env, fuel, e, call)
    ensures e.fan.Some?
  {
  }

  // ---- a whole session ----

  /** What the branches would be after the session had they never been stored. */
  ghost function LivesOf(g: Graph, env: Env, fuel: nat, e: Exec, cs: seq<Chain>, calls: seq<Call>): (ls: seq<Chain>)
    requires fuel > 0 && Session(g, env, fuel, e, calls)
    ensures |ls| == |cs|
    decreases calls
  {
    if calls == [] then cs
    else
      CallsNeedFan(g, env, fuel, e, calls[0]);
      LivesOf(g, env, fuel, After(g, env, fuel, calls[0]), AfterCall(g, env, fuel, e, cs, calls[0]), calls[1..])
  }

  /** Over every session, whatever each call answered, however it scheduled its branches and wherever it was stopped:
      the records hold the branches that were given the same answers and turns and were never stored. */
  lemma {:induction false} SessionHolds(g: Graph, env: Env, fuel: nat, e: Exec, cs: seq<Chain>, calls: seq<Call>)
    requires Valid(g) && PerThread(env) && fuel > 0 && Holding(g, fuel, e, cs) && Session(g, env, fuel, e, calls)
    requires Left(g, env, fuel, e, calls).fan.Some?
    ensures var e1 := Left(g, env, fuel, e, calls);
            && Holding(g, fuel, e1, LivesOf(g, env, fuel, e, cs, calls))
            && e1.fan.value.node == e.fan.value.node && FanCtx(e1) == FanCtx(e)
            && Alike(0, Restart(g, e.top), Restart(g, e1.top))
    decreases calls
  {
    hide Valid, Reload, Encode, Leads, After, AfterCall, Held;
    if calls != [] {
      var e1 := After(g, env, fuel, calls[0]);
      if calls[1..] != [] { CallsNeedFan(g, env, fuel, e1, calls[1]); }
      CallHolds(g, env, fuel, e, cs, calls[0]);
      SessionHolds(g, env, fuel, e1, AfterCall(g, env, fuel, e, cs, calls[0]), calls[1..]);
    }
  }

  /** The run in memory: the branches that stopped with `ends` join and the top-level chain goes on. */
  function Joining(g: Graph, env: Env, fuel: nat, top: Chain, node: Node, ends: seq<End>): Chain
    requires Budget(g) > 0 && node.kind.Parallel? && |node.kind.branches| == |ends|
  {
    Run(g, env, fuel, TOP, Settle(g, env, TOP, Restart(g, top), node, FanResult(top.state, node.kind.branches, ends)))
  }

  lemma JoiningAlike(g: Graph, env: Env, fuel: nat, a: Chain, b: Chain, node: Node, es: seq<End>, es': seq<End>)
    requires PerThread(env) && Alike(0, Restart(g, a), Restart(g, b)) && Budget(g) > 0 && node.kind.Parallel?
    requires |node.kind.branches| == |es| == |es'| && forall i :: 0 <= i < |es| ==> SameEnd(false, es[i], es'[i])
    ensures Alike(0, Joining(g, env, fuel, a, node, es), Joining(g, env, fuel, b, node, es'))
  {
    RenewedClose(g, env, fuel, Restart(g, a), Restart(g, b), node, es, es');
  }

  /** A call that runs to its end ends as the run in memory does. */
  lemma LastCall(g: Graph, env: Env, fuel: nat, e: Exec, cs: seq<Chain>, call: Call)
    requires Valid(g) && PerThread(env) && fuel > 0 && Budget(g) > 0
    requires Holding(g, fuel, e, cs) && Calls(g, env, fuel, e, call)
    ensures WellFormed(g, fuel, call.before)
    ensures Alike(0, Joining(g, env, fuel, e.top, e.fan.value.node, Ends(AllRan(g, env, fuel, e, cs, call))),
                  Finish(g, env, fuel, call.before))
  {
    hide Valid, CloseFan, Encode, Reload, Leads, Run, Settle, Ran, Held, Rebuilt, Budget, FanResult, AnswerFor, Step;
    CallReloads(g, env, fuel, e, cs, call);
    var e', b := Reload(g, fuel, Encode(e), call.req).value, call.before;
    TurnsRun(g, env, fuel, e', call.moves, b);
    var rs := RunAll(g, env, fuel - 1, FanCtx(e), e'.fan.value.branches);
    var ls := AllRan(g, env, fuel, e, cs, call);
    forall i | 0 <= i < |cs| ensures SameEnd(false, Ends(ls)[i], Ends(rs)[i]) {
      var rec := e.fan.value.records[i];
      HeldUnderReload(e.top.state, e'.top.state, FanCtx(e), rec, cs[i]);
      BranchRan(g, env, fuel - 1, FanCtx(e), e'.top.state, rec, cs[i], Told(e, call, i));
    }
    JoiningAlike(g, env, fuel, e.top, b.top, b.fan.value.node, Ends(ls), Ends(rs));
  }

  /** Over every session the call after it ends as the run in memory does whose branches were given the same answers,
      and in calls that were stopped the same turns, and were never stored. */
  lemma SessionEnds(g: Graph, env: Env, fuel: nat, e: Exec, cs: seq<Chain>, calls: seq<Call>, last: Call)
    requires Valid(g) && PerThread(env) && fuel > 0 && Budget(g) > 0
    requires Holding(g, fuel, e, cs) && Session(g, env, fuel, e, calls)
    requires Calls(g, env, fuel, Left(g, env, fuel, e, calls), last)
    ensures Left(g, env, fuel, e, calls).fan.Some? && WellFormed(g, fuel, last.before)
    ensures var lives := LivesOf(g, env, fuel, e, cs, calls);
            Alike(0, Joining(g, env, fuel, e.top, e.fan.value.node,
                             Ends(AllRan(g, env, fuel, Left(g, env, fuel, e, calls), lives, last))),
                  Finish(g, env, fuel, last.before))
  {
    hide Valid, Calls, Finish, Joining, LivesOf, AllRan, Left, Session, Held;
    var e1, lives := Left(g, env, fuel, e, calls), LivesOf(g, env, fuel, e, cs, calls);
    CallsNeedFan(g, env, fuel, e1, last);
    SessionHolds(g, env, fuel, e, cs, calls);
    LastCall(g, env, fuel, e1, lives, last);
    var es := Ends(AllRan(g, env, fuel, e1, lives, last));
    JoiningAlike(g, env, fuel, e.top, e1.top, e.fan.value.node, es, es);
  }

  // ---- what each call answered ----

  /** What each call of the session answered to branch `i`. */
  ghost function Answers(g: Graph, env: Env, fuel: nat, e: Exec, calls: seq<Call>, i: nat): (os: seq<Option<Answer>>)
    requires Session(g, env, fuel, e, calls)
    ensures |os| == |calls|
    decreases calls
  {
    if calls == [] then [] else
    [Told(e, calls[0], i)] + Answers(g, env, fuel, After(g, env, fuel, calls[0]), calls[1..], i)
  }

  ghost predicate NoneOf(os: seq<Option<Answer>>) {
    forall j :: 0 <= j < |os| ==> os[j].None?
  }

  predicate AllClosed(calls: seq<Call>) {
    forall j :: 0 <= j < |calls| ==> calls[j].closed
  }

  /** When no call was stopped, the branches in memory are those that only the answers moved. */
  lemma {:induction false} UncutLives(g: Graph, env: Env, fuel: nat, e: Exec, cs: seq<Chain>, calls: seq<Call>, i: nat)
    requires Valid(g) && PerThread(env) && fuel > 0 && Holding(g, fuel, e, cs) && Session(g, env, fuel, e, calls)
    requires Left(g, env, fuel, e, calls).fan.Some? && AllClosed(calls) && i < |cs| && AtRest(FanCtx(e), cs[i])
    ensures LivesOf(g, env, fuel, e, cs, calls)[i] ==
            Life(g, env, fuel - 1, FanCtx(e), cs[i], Answers(g, env, fuel, e, calls, i))
    decreases calls
  {
    hide Valid, Reload, Encode, Leads, After, Held, Begun, Run, Told, Advance;
    if calls != [] {
      var e1 := After(g, env, fuel, calls[0]);
      if calls[1..] != [] { CallsNeedFan(g, env, fuel, e1, calls[1]); }
      assert calls[0].closed;
      CallHolds(g, env, fuel, e, cs, calls[0]);
      RanFromRest(g, env, fuel - 1, FanCtx(e), cs[i], Told(e, calls[0], i));
      RanRests(g, env, fuel - 1, FanCtx(e), cs[i], Told(e, calls[0], i));
      UncutLives(g, env, fuel, e1, AfterCall(g, env, fuel, e, cs, calls[0]), calls[1..], i);
    }
  }

  lemma RanRests(g: Graph, env: Env, fuel: nat, bctx: Ctx, c: Chain, o: Option<Answer>)
    requires AtRest(bctx, c)
    ensures AtRest(bctx, Ran(g, env, fuel, bctx, c, o))
  {
    RunRests(g, env, fuel, bctx, Begun(g, bctx, c, o));
  }

  /** Over a whole session a finished branch is never run again, and a pause that no call answered keeps its node, its
      reason and its calls. */
  lemma {:induction false} SessionKeeps(g: Graph, env: Env, fuel: nat, e: Exec, cs: seq<Chain>, calls: seq<Call>,
                                        i: nat, k: nat)
    requires Valid(g) && PerThread(env) && fuel > 0 && Holding(g, fuel, e, cs) && Session(g, env, fuel, e, calls)
    requires i < |cs| && k < |calls|
    requires
      var rec := e.fan.value.records[i];
      rec.status == Done || (rec.status == Interrupted && NoneOf(Answers(g, env, fuel, e, calls, i)[..k + 1]))
    ensures var b := calls[k].before;
            && b.fan.Some? && i < |b.fan.value.records| && i < |b.fan.value.branches|
            && b.fan.value.records[i] == e.fan.value.records[i] && b.fan.value.branches[i].trace == []
    decreases calls
  {
    hide Valid, Encode, Held, After, Reload, Leads, AfterCall, Told;
    var given := Answers(g, env, fuel, e, calls, i);
    assert given[0] == given[..k + 1][0] == Told(e, calls[0], i);
    CallKeeps(g, env, fuel, e, cs, calls[0], i);
    if k > 0 {
      var e1 := After(g, env, fuel, calls[0]);
      CallsNeedFan(g, env, fuel, e1, calls[1]);
      CallHolds(g, env, fuel, e, cs, calls[0]);
      AfterKeepsFan(g, env, fuel, e, calls[0]);
      assert given[1..][..k] == given[..k + 1][1..];
      SessionKeeps(g, env, fuel, e1, AfterCall(g, env, fuel, e, cs, calls[0]), calls[1..], i, k - 1);
    }
  }

  lemma AfterKeepsFan(g: Graph, env: Env, fuel: nat, e: Exec, call: Call)
    requires Calls(g, env, fuel, e, call) && After(g, env, fuel, call).fan.Some?
    ensures After(g, env, fuel, call).fan == call.before.fan
  {
    hide CloseFan;
  }

  lemma CallKeeps(g: Graph, env: Env, fuel: nat, e: Exec, cs: seq<Chain>, call: Call, i: nat)
    requires Holding(g, fuel, e, cs) && Calls(g, env, fuel, e, call) && i < |cs|
    requires
      var rec := e.fan.value.records[i];
      rec.status == Done || (rec.status == Interrupted && Told(e, call, i).None?)
    ensures var b := call.before;
            && b.fan.Some? && i < |b.fan.value.records| && i < |b.fan.value.branches|
            && b.fan.value.records[i] == e.fan.value.records[i] && b.fan.value.branches[i].trace == []
  {
    hide Held, Encode, Told, Reload, Step;
    CallReloads(g, env, fuel, e, cs, call);
    TurnsCount(g, env, fuel, Reload(g, fuel, Encode(e), call.req).value, call.moves, call.before, i);
  }

  // ---- from the start of the run ----

  /** A run in a fan-out, or one whose fan-out did not join, holds its branches as they are. */
  lemma FanHolds(g: Graph, env: Env, fuel: nat, e: Exec, held: Exec)
    requires Sound(g, env, fuel, e) && InFan(e)
    requires held == e || (Enabled(g, fuel, e, Close) && held == Apply(g, env, fuel, e, Close) && held.fan.Some?)
    ensures Budget(g) > 0 && fuel > 0 && Holding(g, fuel, held, e.fan.value.branches)
  {
    hide CloseFan;
    var fan := e.fan.value;
    forall i | 0 <= i < |fan.records| ensures Held(e.top.state, FanCtx(e), fan.records[i], fan.branches[i]) {
      assert Recorded(g, env, fuel - 1, e.top.state, FanCtx(e), fan.records[i], fan.branches[i]);
    }
  }

  /** A fan-out of any run, paused, failed or stopped in the middle, taken up over any number of calls that may be
      stopped as well, joins as if its branches had been answered where they stood. */
  lemma AnsweredJoin(g: Graph, env: Env, fuel: nat, data: Data, ss: seq<Stops.Stretch>, e0: Exec,
                     moves: seq<Move>, e: Exec, held: Exec, calls: seq<Call>, last: Call)
    requires Valid(g) && PerThread(env) && Stops.Becomes(g, env, fuel, Stops.Fresh(g, data), ss, e0)
    requires Leads(g, env, fuel, e0, moves, e) && WellFormed(g, fuel, e) && InFan(e)
    requires held == e || (Enabled(g, fuel, e, Close) && held == Apply(g, env, fuel, e, Close) && held.fan.Some?)
    requires Session(g, env, fuel, held, calls) && Calls(g, env, fuel, Left(g, env, fuel, held, calls), last)
    ensures Budget(g) > 0 && fuel > 0 && Holding(g, fuel, held, e.fan.value.branches)
    ensures Left(g, env, fuel, held, calls).fan.Some? && WellFormed(g, fuel, last.before)
    ensures var lives := LivesOf(g, env, fuel, held, e.fan.value.branches, calls);
            Alike(0, Joining(g, env, fuel, held.top, held.fan.value.node,
                             Ends(AllRan(g, env, fuel, Left(g, env, fuel, held, calls), lives, last))),
                  Finish(g, env, fuel, last.before))
  {
    hide Valid, Sound, Finish, Joining, Session, LivesOf, AllRan, Holding, Apply, Leads, Left, Calls, Enabled;
    Stops.FreshSound(g, env, fuel, data);
    Stops.ManyStops(g, env, fuel, Stops.Fresh(g, data), ss, e0);
    RunKeepsSound(g, env, fuel, e0, moves, e);
    FanHolds(g, env, fuel, e, held);
    SessionEnds(g, env, fuel, held, e.fan.value.branches, calls, last);
  }
}
