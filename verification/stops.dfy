/** A run that is stopped and resumed any number of times. */
module Stops {
  import opened Options
  import opened Graphs
  import opened Executor
  import opened Congruence
  import opened Durable
  import opened Resume

  /** A run stopped at `at`, once these moves had led there. */
  datatype Stretch = Stretch(moves: seq<Move>, at: Exec)

  function Resumed(g: Graph, fuel: nat, e: Exec): Exec {
    Reload(g, fuel, Encode(e), NO_INPUT).value
  }

  /** `e` becomes `e1` by stretches of moves, each of them ended by a stop and a resume. */
  ghost predicate Becomes(g: Graph, env: Env, fuel: nat, e: Exec, ss: seq<Stretch>, e1: Exec)
    decreases ss
  {
    if ss == [] then e == e1
    else
      && Leads(g, env, fuel, e, ss[0].moves, ss[0].at) && ss[0].at.top.halt.None?
      && Becomes(g, env, fuel, Resumed(g, fuel, ss[0].at), ss[1..], e1)
  }

  /** The run stores a checkpoint after a turn of the top-level chain, of a branch and after a join, and nowhere
      else. */
  predicate Stored(moves: seq<Move>) {
    moves != [] && !moves[|moves| - 1].Open?
  }

  predicate AllStored(ss: seq<Stretch>) {
    forall i :: 0 <= i < |ss| ==> Stored(ss[i].moves)
  }

  // ---- a resumed run is a run like any other ----

  lemma RebuiltRecorded(g: Graph, env: Env, fuel: nat, parent: State, reloaded: State, bctx: Ctx, rec: Record, c: Chain)
    requires Recorded(g, env, fuel, parent, bctx, rec, c)
    ensures Recorded(g, env, fuel, reloaded, bctx, rec, Rebuilt(g, reloaded, rec, None))
  {
  }

  /** What a resume rebuilds is recorded as faithfully as what it was rebuilt from. */
  lemma ResumedSound(g: Graph, env: Env, fuel: nat, e: Exec)
    requires Sound(g, env, fuel, e) && e.top.halt.None?
    ensures Sound(g, env, fuel, Resumed(g, fuel, e))
  {
    hide Recorded, Rebuilt;
    var e' := Resumed(g, fuel, e);
    if InFan(e') {
      var fan, fan' := e.fan.value, e'.fan.value;
      forall i | 0 <= i < |fan'.records|
        ensures Recorded(g, env, fuel - 1, e'.top.state, FanCtx(e'), fan'.records[i], fan'.branches[i])
      {
        RebuiltRecorded(g, env, fuel - 1, e.top.state, e'.top.state, FanCtx(e), fan.records[i], fan.branches[i]);
      }
    }
  }

  lemma LimitedAlike(a: Chain, b: Chain)
    requires Alike(0, a, b)
    ensures Limited(a) <==> Limited(b)
  {
  }

  /** However often a run is stopped and resumed, it ends as if it had not been stopped. */
  lemma {:induction false} ManyStops(g: Graph, env: Env, fuel: nat, e: Exec, ss: seq<Stretch>, e1: Exec)
    requires Valid(g) && PerThread(env) && Sound(g, env, fuel, e) && Becomes(g, env, fuel, e, ss, e1)
    ensures Sound(g, env, fuel, e1)
    ensures Limited(Finish(g, env, fuel, e)) || Alike(0, Finish(g, env, fuel, e), Finish(g, env, fuel, e1))
    decreases ss
  {
    hide Valid, Finish, Sound, Limited, Reload, Encode;
    if ss != [] {
      var at := ss[0].at;
      var e' := Resumed(g, fuel, at);
      RunKeepsSound(g, env, fuel, e, ss[0].moves, at);
      SoundWellFormed(g, env, fuel, e);
      ScheduleIndependent(g, env, fuel, e, ss[0].moves, at);
      CrashResume(g, env, fuel, at);
      ResumedSound(g, env, fuel, at);
      ManyStops(g, env, fuel, e', ss[1..], e1);
      if !Limited(Finish(g, env, fuel, e)) { LimitedAlike(Finish(g, env, fuel, e), Finish(g, env, fuel, e')); }
    }
  }

  lemma SoundWellFormed(g: Graph, env: Env, fuel: nat, e: Exec)
    requires Sound(g, env, fuel, e)
    ensures WellFormed(g, fuel, e)
  {
  }

  function Fresh(g: Graph, data: Data): Exec {
    Exec(0, Start(g, data), None)
  }

  lemma FreshSound(g: Graph, env: Env, fuel: nat, data: Data)
    ensures Sound(g, env, fuel, Fresh(g, data))
  {
  }

  /** Stop equals no stop: however often and at whatever points of whatever schedules a run is stopped and resumed, it
      ends with the values, histories and status of the run that was never stopped, unless that one ran out of steps. */
  lemma StopsAndResumes(g: Graph, env: Env, fuel: nat, data: Data, ss: seq<Stretch>, e: Exec)
    requires Valid(g) && PerThread(env) && Becomes(g, env, fuel, Fresh(g, data), ss, e)
    ensures var whole := Run(g, env, fuel, TOP, Start(g, data));
            && WellFormed(g, fuel, e)
            && (Limited(whole) || Alike(0, whole, Finish(g, env, fuel, e)))
  {
    hide Run, Step, Valid;
    ManyStops(g, env, fuel, Fresh(g, data), ss, e);
  }
}
