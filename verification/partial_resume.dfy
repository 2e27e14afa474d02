/** A paused fan-out that is answered a few branches at a time. */
module PartialResume {
  import opened Options
  import opened Graphs
  import opened Executor
  import opened Congruence
  import opened Durable
  import opened Resume

  // ---- what a branch goes through, call by call, without ever being stored ----

  /** One resume call: a failed branch runs again, a paused one if it is answered, a finished one not. */
  function Advance(g: Graph, env: Env, fuel: nat, bctx: Ctx, c: Chain, o: Option<Answer>): Chain {
    if IsFailed(c) then Run(g, env, fuel, bctx, Restart(g, c))
    else if IsPaused(c) && o.Some? then Run(g, env, fuel, bctx, Deliver(g, c, o.value, CallsOf(c.halt.value.pauses)))
    else c
  }

  function Life(g: Graph, env: Env, fuel: nat, bctx: Ctx, c: Chain, os: seq<Option<Answer>>): Chain
    decreases os
  {
    if os == [] then c else Life(g, env, fuel, bctx, Advance(g, env, fuel, bctx, c, os[0]), os[1..])
  }

  // ---- what its record goes through ----

  /** The record once the branch stops, saved after every turn. */
  function RunSaved(g: Graph, env: Env, fuel: nat, bctx: Ctx, parent: State, rec: Record, b: Chain): Record
    decreases if b.halt.Some? then 0 else b.left + 1
  {
    if !Live(bctx, b) then rec
    else
      var b1 := Step(g, env, fuel, bctx, b);
      RunSaved(g, env, fuel, bctx, parent, Saved(parent, bctx, rec, b1), b1)
  }

  function StoredAdvance(g: Graph, env: Env, fuel: nat, bctx: Ctx, parent: State, rec: Record,
                         o: Option<Answer>): Record {
    RunSaved(g, env, fuel, bctx, parent, rec, Rebuilt(g, parent, rec, o))
  }

  function StoredLife(g: Graph, env: Env, fuel: nat, bctx: Ctx, parent: State, rec: Record,
                      os: seq<Option<Answer>>): Record
    decreases os
  {
    if os == [] then rec
    else StoredLife(g, env, fuel, bctx, parent, StoredAdvance(g, env, fuel, bctx, parent, rec, os[0]), os[1..])
  }

  // ---- the two agree ----

  /** Stopped, and if it did not reach its end then at a node. */
  ghost predicate AtRest(bctx: Ctx, c: Chain) {
    !Live(bctx, c) && (c.halt.Some? ==> !AtEnd(bctx, c.cur))
  }

  lemma {:induction false} RunRests(g: Graph, env: Env, fuel: nat, bctx: Ctx, c: Chain)
    requires c.halt.Some? ==> !AtEnd(bctx, c.cur)
    ensures AtRest(bctx, Run(g, env, fuel, bctx, c))
    decreases if c.halt.Some? then 0 else c.left + 1
  {
    if Live(bctx, c) { RunRests(g, env, fuel, bctx, Step(g, env, fuel, bctx, c)); }
  }

  lemma {:induction false} RunSavedHolds(g: Graph, env: Env, fuel: nat, bctx: Ctx, parent: State, rec: Record, b: Chain)
    requires Valid(g) && bctx.level > 0 && Content(parent, rec, b) && (!Live(bctx, b) ==> Holds(parent, bctx, rec, b))
    ensures Holds(parent, bctx, RunSaved(g, env, fuel, bctx, parent, rec, b), Run(g, env, fuel, bctx, b))
    decreases if b.halt.Some? then 0 else b.left + 1
  {
    hide Step, Valid, Saved;
    if Live(bctx, b) {
      var b1 := Step(g, env, fuel, bctx, b);
      NextNamed(g, env, fuel, bctx, b);
      SavedHolds(parent, bctx, rec, b, b1);
      RunSavedHolds(g, env, fuel, bctx, parent, Saved(parent, bctx, rec, b1), b1);
    }
  }

  lemma HoldsAlike(parent: State, bctx: Ctx, rec: Record, a: Chain, b: Chain)
    requires Holds(parent, bctx, rec, a) && Alike(1, a, b)
    ensures Holds(parent, bctx, rec, b)
  {
  }

  lemma DeliveredAlike(g: Graph, a: Chain, b: Chain, answer: Answer, calls: seq<Call>)
    requires SameState(a.state, b.state) && a.writes == b.writes && a.cur == b.cur
    ensures Alike(1, Deliver(g, a, answer, calls), Deliver(g, b, answer, calls))
    ensures SameState(b.state, Deliver(g, b, answer, calls).state)
  {
    var va, vb := a.state.data.values, b.state.data.values;
    var va', vb' := Deliver(g, a, answer, calls).state.data.values, Deliver(g, b, answer, calls).state.data.values;
    SameValuesAt(va, vb);
    SameValuesAt(va', vb');
    SameValuesAt(vb, vb');
  }

  /** Running the rebuilt chain instead of the original one leads to records that hold the original's end. */
  lemma RanFromRecord(g: Graph, env: Env, fuel: nat, bctx: Ctx, parent: State, rec: Record, b: Chain, c: Chain)
    requires Valid(g) && PerThread(env) && bctx.level == 1
    requires Live(bctx, b) && Content(parent, rec, b) && Alike(1, b, c) && b.left == c.left
    ensures Holds(parent, bctx, RunSaved(g, env, fuel, bctx, parent, rec, b), Run(g, env, fuel, bctx, c))
  {
    hide Step, Valid;
    RunSavedHolds(g, env, fuel, bctx, parent, rec, b);
    RunAlike(g, env, fuel, bctx, b, c);
    HoldsAlike(parent, bctx, RunSaved(g, env, fuel, bctx, parent, rec, b), Run(g, env, fuel, bctx, b),
               Run(g, env, fuel, bctx, c));
  }

  lemma AdvanceHolds(g: Graph, env: Env, fuel: nat, bctx: Ctx, parent: State, rec: Record, c: Chain, o: Option<Answer>)
    requires Valid(g) && PerThread(env) && bctx.level == 1
    requires Holds(parent, bctx, rec, c) && AtRest(bctx, c)
    ensures Holds(parent, bctx, StoredAdvance(g, env, fuel, bctx, parent, rec, o), Advance(g, env, fuel, bctx, c, o))
    ensures AtRest(bctx, Advance(g, env, fuel, bctx, c, o))
  {
    hide Step, Valid, Saved, Run;
    var b := Rebuilt(g, parent, rec, o);
    if IsFailed(c) {
      RanFromRecord(g, env, fuel, bctx, parent, rec, b, Restart(g, c));
      RunRests(g, env, fuel, bctx, Restart(g, c));
    } else if IsPaused(c) && o.Some? {
      var base := Chain(RebuiltState(parent, rec), rec.writes, c.cur, None, [], Budget(g), None);
      var calls := CallsOf(rec.pauses);
      DeliveredAlike(g, base, c, o.value, calls);
      DeliveredAlike(g, c, base, o.value, calls);
      RanFromRecord(g, env, fuel, bctx, parent, rec, b, Deliver(g, c, o.value, calls));
      RunRests(g, env, fuel, bctx, Deliver(g, c, o.value, calls));
    }
  }

  /** After any number of resume calls the record holds what the branch would be had it never been
      stored, whatever each call answered. */
  lemma {:induction false} LifeHolds(g: Graph, env: Env, fuel: nat, bctx: Ctx, parent: State, rec: Record, c: Chain,
                                     os: seq<Option<Answer>>)
    requires Valid(g) && PerThread(env) && bctx.level == 1
    requires Holds(parent, bctx, rec, c) && AtRest(bctx, c)
    ensures Holds(parent, bctx, StoredLife(g, env, fuel, bctx, parent, rec, os), Life(g, env, fuel, bctx, c, os))
    ensures AtRest(bctx, Life(g, env, fuel, bctx, c, os))
    decreases os
  {
    if os != [] {
      AdvanceHolds(g, env, fuel, bctx, parent, rec, c, os[0]);
      LifeHolds(g, env, fuel, bctx, parent, StoredAdvance(g, env, fuel, bctx, parent, rec, os[0]),
                Advance(g, env, fuel, bctx, c, os[0]), os[1..]);
    }
  }

  // ---- a resume call does to the records what StoredAdvance says, in any schedule ----

  ghost predicate SavedAlike(g: Graph, env: Env, fuel: nat, e: Exec, e1: Exec)
    requires WellFormed(g, fuel, e) && InFan(e) && WellFormed(g, fuel, e1) && InFan(e1)
  {
    && e1.top == e.top && e1.fan.value.node == e.fan.value.node
    && forall i :: 0 <= i < |e.fan.value.records| ==>
         RunSaved(g, env, fuel - 1, FanCtx(e), e.top.state, e1.fan.value.records[i], e1.fan.value.branches[i]) ==
         RunSaved(g, env, fuel - 1, FanCtx(e), e.top.state, e.fan.value.records[i], e.fan.value.branches[i])
  }

  ghost predicate OnlyTurns(moves: seq<Move>) {
    forall m <- moves :: m.Turn?
  }

  lemma {:induction false} TurnsSave(g: Graph, env: Env, fuel: nat, e: Exec, moves: seq<Move>, e1: Exec)
    requires WellFormed(g, fuel, e) && InFan(e) && Leads(g, env, fuel, e, moves, e1) && OnlyTurns(moves)
    ensures WellFormed(g, fuel, e1) && InFan(e1) && SavedAlike(g, env, fuel, e, e1)
    decreases moves
  {
    hide Step, Saved;
    if moves != [] {
      assert moves[0] in moves;
      var e2 := Apply(g, env, fuel, e, moves[0]);
      TurnsSave(g, env, fuel, e2, moves[1..], e1);
    }
  }

  /** When every branch of a resumed fan-out has stopped, each record is the stored one advanced by the
      answer that was meant for its branch, whatever the schedule was. */
  lemma CallAdvancesRecords(g: Graph, env: Env, fuel: nat, cp: Checkpoint, req: Request, moves: seq<Move>, e1: Exec)
    requires Reload(g, fuel, cp, req).Ok?
    requires WellFormed(g, fuel, Reload(g, fuel, cp, req).value) && InFan(Reload(g, fuel, cp, req).value)
    requires Leads(g, env, fuel, Reload(g, fuel, cp, req).value, moves, e1)
    requires OnlyTurns(moves) && Enabled(g, fuel, e1, Close)
    ensures WellFormed(g, fuel, e1) && InFan(e1) && cp.progress.Some?
    ensures var records := cp.progress.value.records;
            && |records| == |e1.fan.value.records|
            && forall i :: 0 <= i < |records| ==>
                 e1.fan.value.records[i] ==
                 StoredAdvance(g, env, fuel - 1, FanCtx(e1), e1.top.state, records[i],
                               AnswerFor(cp, req, records[i].entry))
  {
    hide Step, Saved;
    var e := Reload(g, fuel, cp, req).value;
    TurnsSave(g, env, fuel, e, moves, e1);
    var bs := e1.fan.value.branches;
    assert forall i :: 0 <= i < |bs| ==> bs[i] in bs && !Live(FanCtx(e1), bs[i]);
  }

  // ---- how answers are grouped into calls does not matter ----

  function Given(os: seq<Option<Answer>>): seq<Option<Answer>> {
    if os == [] then [] else (if os[0].Some? then [os[0]] else []) + Given(os[1..])
  }

  /** Calls that do not answer a branch leave it as it is, as long as it did not fail. */
  lemma {:induction false} GroupingFree(g: Graph, env: Env, fuel: nat, bctx: Ctx, c: Chain, os: seq<Option<Answer>>)
    requires forall k :: 0 <= k <= |os| ==> !IsFailed(Life(g, env, fuel, bctx, c, os[..k]))
    ensures Life(g, env, fuel, bctx, c, os) == Life(g, env, fuel, bctx, c, Given(os))
    decreases os
  {
    if os != [] {
      var c1 := Advance(g, env, fuel, bctx, c, os[0]);
      forall k | 0 <= k <= |os[1..]| ensures !IsFailed(Life(g, env, fuel, bctx, c1, os[1..][..k])) {
        assert os[..k + 1][1..] == os[1..][..k];
        assert Life(g, env, fuel, bctx, c, os[..k + 1]) == Life(g, env, fuel, bctx, c1, os[1..][..k]);
      }
      GroupingFree(g, env, fuel, bctx, c1, os[1..]);
      if os[0].None? {
        assert os[..0] == [];
        assert c1 == c;
        assert Given(os) == Given(os[1..]);
      } else {
        assert Given(os)[1..] == Given(os[1..]);
      }
    }
  }

  // ---- a pause outside a fan-out ----

  /** The answer given to a stored pause has the effect it would have had on the run in memory. */
  lemma TopAnswered(g: Graph, env: Env, fuel: nat, e: Exec, a: Answer)
    requires PerThread(env) && IsPaused(e.top) && e.fan.None?
    ensures var r := Reload(g, fuel, Encode(e), Uniform(a));
            && r.Ok? && WellFormed(g, fuel, r.value)
            && Alike(0, Run(g, env, fuel, TOP, Deliver(g, e.top, a, CallsOf(e.top.halt.value.pauses))),
                     Finish(g, env, fuel, r.value))
  {
    hide Step, Run;
    var e' := Reload(g, fuel, Encode(e), Uniform(a)).value;
    assert Strip(Strip(e.top.state.data.values)) == Strip(e.top.state.data.values);
    var base := e.top.(state := State(Encode(e).data, e.top.state.loops));
    DeliveredAlike(g, e.top, base, a, CallsOf(e.top.halt.value.pauses));
    RunAlike(g, env, fuel, TOP, Deliver(g, e.top, a, CallsOf(e.top.halt.value.pauses)), e'.top);
  }
}
