/** Worker threads of fan-outs, nested ones included, and the arena slots they share. */
module WorkerSlots {

  // ---- taking and returning slots ----

  function FreeCount(used: seq<bool>): nat {
    if used == [] then 0 else (if used[0] then 0 else 1) + FreeCount(used[1..])
  }

  function Taken(used: seq<bool>, got: seq<nat>): (r: seq<bool>)
    ensures |r| == |used|
    ensures forall i :: 0 <= i < |used| ==> r[i] == (used[i] || i in got)
  {
    seq(|used|, i requires 0 <= i < |used| => used[i] || i in got)
  }

  class SlotTable {
    var used: seq<bool>

    constructor (count: nat)
      ensures used == seq(count, i => false)
    {
      used := seq(count, i => false);
    }

    /** The lowest free slots, as many as are wanted and there are. */
    method Acquire(want: nat) returns (got: seq<nat>)
      modifies this
      ensures forall s <- got :: s < |old(used)| && !old(used)[s]
      ensures forall a, b :: 0 <= a < b < |got| ==> got[a] < got[b]
      ensures |got| == if FreeCount(old(used)) < want then FreeCount(old(used)) else want
      ensures used == Taken(old(used), got)
    {
      got := [];
      var i := 0;
      while i < |used| && |got| < want
        invariant i <= |used| == |old(used)| && |got| <= want
        invariant forall s <- got :: s < i && !old(used)[s]
        invariant forall a, b :: 0 <= a < b < |got| ==> got[a] < got[b]
        invariant |got| + FreeCount(old(used)[i..]) == FreeCount(old(used))
        invariant used == Taken(old(used), got)
      {
        assert old(used)[i..][1..] == old(used)[i + 1..];
        assert i !in got;
        assert forall a :: 0 <= a < |got| ==> got[a] in got;
        if !used[i] {
          used := used[i := true];
          got := got + [i];
        }
        i := i + 1;
      }
      assert old(used)[|used|..] == [];
    }

    /** Returning what was taken restores the table. */
    method Release(slots: seq<nat>)
      requires forall s <- slots :: s < |used|
      modifies this
      ensures |used| == |old(used)|
      ensures forall i :: 0 <= i < |used| ==> used[i] == (old(used)[i] && i !in slots)
    {
      for k := 0 to |slots|
        invariant |used| == |old(used)|
        invariant forall i :: 0 <= i < |used| ==> used[i] == (old(used)[i] && i !in slots[..k])
      {
        assert slots[..k + 1] == slots[..k] + [slots[k]];
        assert slots[k] in slots;
        used := used[slots[k] := false];
      }
      assert slots[..|slots|] == slots;
    }
  }

  // ---- threads and fan-outs ----

  type Id = nat

  /** What a thread is in the middle of: branch `k` of fan-out `f`, waiting to join fan-out `f`, or
      nothing of either kind. */
  datatype Activity = Idle | Item(f: Id, k: nat) | Driving(f: Id)

  /** `home` is the fan-out a worker thread was started for; the first thread has none and no slot. */
  datatype Thread = Thread(slot: int, home: int, top: Activity)

  const NO_SLOT := -1
  const NO_HOME := -1

  /** `helps`: the thread that opened the fan-out also takes branches from it. `under` is what that
      thread goes back to after the join, `unspawned` the slots whose worker has not started yet. */
  datatype Fan = Fan(items: nat, cursor: nat, unspawned: set<nat>, workers: set<Id>, opener: Id, helps: bool,
                     under: Activity, done: set<nat>)

  /** `used`: the slots in use and the fan-out that returns them; `running`: who runs which branch; `runs`
      counts how often each branch was started. */
  datatype Pool = Pool(used: map<int, Id>, fans: map<Id, Fan>, threads: map<Id, Thread>, nextFan: Id,
                       running: map<(Id, nat), Id>, runs: multiset<(Id, nat)>)

  datatype Event =
    | OpenFan(t: Id, items: nat, slots: set<nat>)
    | Spawn(t: Id, w: Id, slot: nat)
    | Claim(t: Id, f: Id)
    | FinishItem(t: Id)
    | Leave(t: Id)
    | JoinFan(t: Id)

  predicate Can(p: Pool, e: Event) {
    e.t in p.threads &&
    var th := p.threads[e.t];
    match e
    case OpenFan(t, items, slots) =>
      && (th.top.Item? || (th.top.Idle? && th.home == NO_HOME))
      && slots !! p.used.Keys && NO_SLOT !in slots && (items <= 1 ==> slots == {}) && |slots| <= items
    case Spawn(t, w, slot) =>
      th.top.Driving? && th.top.f in p.fans && slot in p.fans[th.top.f].unspawned && w !in p.threads
    case Claim(t, f) =>
      && f in p.fans && p.fans[f].cursor < p.fans[f].items
      && ((th.top.Idle? && th.home == f) || (th.top == Driving(f) && p.fans[f].helps && p.fans[f].unspawned == {}))
    case FinishItem(t) => th.top.Item? && th.top.f in p.fans
    case Leave(t) => th.top.Idle? && th.home in p.fans && p.fans[th.home].cursor >= p.fans[th.home].items
    case JoinFan(t) =>
      && th.top.Driving? && th.top.f in p.fans
      && var fan := p.fans[th.top.f];
         fan.unspawned == {} && fan.workers == {} && (fan.helps ==> fan.cursor >= fan.items)
  }

  function Do(p: Pool, e: Event): Pool
    requires Can(p, e)
  {
    var th := p.threads[e.t];
    match e
    case OpenFan(t, items, slots) =>
      var f := p.nextFan;
      p.(used := p.used + (map s | s in slots :: f), nextFan := f + 1,
         fans := p.fans[f := Fan(items, 0, slots, {}, t, slots == {} || th.slot != NO_SLOT, th.top, {})],
         threads := p.threads[t := th.(top := Driving(f))])
    case Spawn(t, w, slot) =>
      var f := th.top.f;
      p.(fans := p.fans[f := p.fans[f].(unspawned := p.fans[f].unspawned - {slot}, workers := p.fans[f].workers + {w})],
         threads := p.threads[w := Thread(slot, f, Idle)])
    case Claim(t, f) =>
      var k := p.fans[f].cursor;
      p.(fans := p.fans[f := p.fans[f].(cursor := k + 1)],
         threads := p.threads[t := th.(top := Item(f, k))],
         running := p.running[(f, k) := t], runs := p.runs + multiset{(f, k)})
    case FinishItem(t) =>
      var Item(f, k) := th.top;
      p.(fans := p.fans[f := p.fans[f].(done := p.fans[f].done + {k})],
         threads := p.threads[t := th.(top := if th.home == f then Idle else Driving(f))],
         running := p.running - {(f, k)})
    case Leave(t) =>
      var f := th.home;
      p.(fans := p.fans[f := p.fans[f].(workers := p.fans[f].workers - {t})], threads := p.threads - {t})
    case JoinFan(t) =>
      var f := th.top.f;
      p.(used := (map s | s in p.used && p.used[s] != f :: p.used[s]), fans := p.fans - {f},
         threads := p.threads[t := th.(top := p.fans[f].under)])
  }

  // ---- what every step keeps ----

  ghost predicate OpenersLive(p: Pool) {
    forall f <- p.fans :: f < p.nextFan && p.fans[f].opener in p.threads && p.threads[p.fans[f].opener].home < f
  }

  /** Each slot in use belongs to one fan-out and to at most one thread. */
  ghost predicate SlotsOwned(p: Pool) {
    && (forall t <- p.threads :: WorkerPlaced(p, t))
    && (forall t, t' :: t in p.threads && t' in p.threads && t != t' && p.threads[t].slot == p.threads[t'].slot ==>
          p.threads[t].slot == NO_SLOT)
  }

  ghost predicate Unheld(p: Pool, s: int) {
    forall t <- p.threads :: p.threads[t].slot != s
  }

  /** A slot of fan-out `f` that waits for its worker is held by nobody. */
  ghost predicate SlotWaits(p: Pool, f: Id, s: int) {
    s in p.used && p.used[s] == f && s != NO_SLOT && Unheld(p, s)
  }

  ghost predicate UnspawnedFree(p: Pool) {
    forall f, s :: f in p.fans && s in p.fans[f].unspawned ==> SlotWaits(p, f, s)
  }

  ghost predicate WorkersKnown(p: Pool) {
    forall f, w :: f in p.fans && w in p.fans[f].workers ==> w in p.threads && p.threads[w].home == f
  }

  ghost predicate WorkerPlaced(p: Pool, t: Id)
    requires t in p.threads
  {
    var th := p.threads[t];
    if th.home == NO_HOME then th.slot == NO_SLOT
    else && th.home in p.fans && t in p.fans[th.home].workers
         && th.slot in p.used && p.used[th.slot] == th.home && th.slot != NO_SLOT
  }

  /** `f` is the newest fan-out thread `t` has open. */
  ghost predicate Newest(p: Pool, t: Id, f: Id) {
    f in p.fans && p.fans[f].opener == t && forall f' <- p.fans :: p.fans[f'].opener == t ==> f' <= f
  }

  ghost predicate NoneOpen(p: Pool, t: Id) {
    forall f <- p.fans :: p.fans[f].opener != t
  }

  ghost predicate TopPlaced(p: Pool, t: Id)
    requires t in p.threads
  {
    match p.threads[t].top
    case Idle => NoneOpen(p, t)
    case Driving(f) => Newest(p, t, f)
    case Item(f, k) =>
      && (f, k) in p.running && p.running[(f, k)] == t
      && (if p.threads[t].home == f then NoneOpen(p, t) else Newest(p, t, f) && p.fans[f].helps)
  }

  /** What lies right under fan-out `f` on its thread. */
  ghost predicate UnderPlaced(p: Pool, f: Id)
    requires f in p.fans
  {
    var t := p.fans[f].opener;
    && t in p.threads
    && match p.fans[f].under
       case Idle => p.threads[t].home == NO_HOME && forall f' <- p.fans :: p.fans[f'].opener == t ==> f <= f'
       case Driving(_) => false
       case Item(f0, k0) =>
         && (f0, k0) in p.running && p.running[(f0, k0)] == t && f0 < f
         && (if p.threads[t].home == f0 then forall f' <- p.fans :: p.fans[f'].opener == t ==> f <= f'
             else && f0 in p.fans && p.fans[f0].opener == t && p.fans[f0].helps
                  && forall f' <- p.fans :: p.fans[f'].opener == t ==> f' <= f0 || f <= f')
  }

  ghost predicate StacksPlaced(p: Pool) {
    && (forall t <- p.threads :: TopPlaced(p, t))
    && (forall f <- p.fans :: UnderPlaced(p, f))
  }

  /** A started branch is finished or running, and only started ones are. */
  ghost predicate WorkCounted(p: Pool) {
    && (forall f <- p.fans :: p.fans[f].cursor <= p.fans[f].items)
    && (forall f, k: nat :: f in p.fans ==> ((f, k) in p.running || k in p.fans[f].done <==> k < p.fans[f].cursor))
    && (forall f, k: nat :: (f, k) in p.running ==> f in p.fans && k !in p.fans[f].done)
    && (forall f <- p.fans ::
          || p.fans[f].helps || p.fans[f].unspawned != {} || p.fans[f].workers != {}
          || p.fans[f].cursor >= p.fans[f].items)
  }

  /** The runner of a branch is a worker of its fan-out or the opener, and is in the branch or in a
      fan-out opened from it. */
  ghost predicate RunnerPlaced(p: Pool, f: Id, k: nat)
    requires (f, k) in p.running && f in p.fans
  {
    var t := p.running[(f, k)];
    && t in p.threads && (p.threads[t].home == f || t == p.fans[f].opener)
    && (p.threads[t].top == Item(f, k) || exists f' ::
          && f' in p.fans && p.fans[f'].opener == t
          && p.fans[f'].under == Item(f, k))
  }

  ghost predicate RunnersPlaced(p: Pool) {
    forall f, k: nat :: (f, k) in p.running && f in p.fans ==> RunnerPlaced(p, f, k)
  }

  ghost predicate RunsCounted(p: Pool) {
    && (forall f, k: nat :: f in p.fans ==> p.runs[(f, k)] == if k < p.fans[f].cursor then 1 else 0)
    && (forall f, k: nat :: p.runs[(f, k)] <= 1)
    && (forall f, k: nat :: f >= p.nextFan ==> p.runs[(f, k)] == 0)
    && (forall f <- p.fans :: f < p.nextFan)
  }

  ghost predicate Inv(p: Pool) {
    && OpenersLive(p) && WorkersKnown(p) && SlotsOwned(p) && UnspawnedFree(p) && StacksPlaced(p)
    && WorkCounted(p) && RunnersPlaced(p) && RunsCounted(p)
  }

  lemma RunsKept(p: Pool, e: Event)
    requires RunsCounted(p) && Can(p, e)
    ensures RunsCounted(Do(p, e))
  {
    hide RunsCounted, Do, Can;
    if e.Claim? { RunStarted(p, e); } else { RunsStay(p, e); }
  }

  lemma RunStarted(p: Pool, e: Event)
    requires e.Claim? && RunsCounted(p) && Can(p, e)
    ensures RunsCounted(Do(p, e))
  {
  }

  lemma RunsStay(p: Pool, e: Event)
    requires !e.Claim? && RunsCounted(p) && Can(p, e)
    ensures RunsCounted(Do(p, e))
  {
  }

  lemma OpenersKept(p: Pool, e: Event)
    requires OpenersLive(p) && Can(p, e) && TopPlaced(p, e.t) && WorkerPlaced(p, e.t)
    ensures OpenersLive(Do(p, e))
  {
  }

  lemma WorkersKept(p: Pool, e: Event)
    requires WorkersKnown(p) && Can(p, e) && (forall f <- p.fans :: f < p.nextFan)
    ensures WorkersKnown(Do(p, e))
  {
  }

  lemma WorkerKept(p: Pool, e: Event, t: Id)
    requires Can(p, e) && WorkerPlaced(p, e.t) && p.nextFan !in p.fans
    requires UnspawnedFree(p) && (forall f <- p.fans :: f < p.nextFan)
    requires t in Do(p, e).threads && (t in p.threads ==> WorkerPlaced(p, t))
    ensures WorkerPlaced(Do(p, e), t)
  {
  }

  lemma SlotsDistinct(p: Pool, e: Event)
    requires SlotsOwned(p) && UnspawnedFree(p) && Can(p, e)
    ensures var ts := Do(p, e).threads;
            forall t, t' :: t in ts && t' in ts && t != t' && ts[t].slot == ts[t'].slot ==> ts[t].slot == NO_SLOT
  {
    hide WorkerPlaced;
    if e.Spawn? {
      assert SlotWaits(p, p.threads[e.t].top.f, e.slot);
    }
  }

  lemma SlotsKept(p: Pool, e: Event)
    requires SlotsOwned(p) && UnspawnedFree(p) && Can(p, e) && p.nextFan !in p.fans
    requires (forall f <- p.fans :: f < p.nextFan)
    ensures SlotsOwned(Do(p, e))
  {
    assert WorkerPlaced(p, e.t);
    hide WorkerPlaced, Can, Do;
    forall t | t in Do(p, e).threads ensures WorkerPlaced(Do(p, e), t) {
      WorkerKept(p, e, t);
    }
    SlotsDistinct(p, e);
  }

  lemma ThreadSlotUsed(p: Pool, t: Id)
    requires SlotsOwned(p) && t in p.threads
    ensures p.threads[t].slot == NO_SLOT || p.threads[t].slot in p.used
  {
    assert WorkerPlaced(p, t);
  }

  lemma UnspawnedKept(p: Pool, e: Event)
    requires SlotsOwned(p) && UnspawnedFree(p) && Can(p, e) && (forall f <- p.fans :: f < p.nextFan)
    ensures UnspawnedFree(Do(p, e))
  {
    forall t | t in p.threads ensures p.threads[t].slot == NO_SLOT || p.threads[t].slot in p.used {
      ThreadSlotUsed(p, t);
    }
    hide SlotsOwned;
    var p' := Do(p, e);
    forall f, s | f in p'.fans && s in p'.fans[f].unspawned ensures SlotWaits(p', f, s) {
      if f in p.fans {
        assert SlotWaits(p, f, s);
        if e.Spawn? { assert SlotWaits(p, p.threads[e.t].top.f, e.slot); }
      }
    }
  }

  lemma TopKept(p: Pool, e: Event, t: Id)
    requires OpenersLive(p) && WorkCounted(p) && Can(p, e) && TopPlaced(p, e.t)
    requires e.JoinFan? ==> UnderPlaced(p, p.threads[e.t].top.f)
    requires t in Do(p, e).threads && (t in p.threads ==> TopPlaced(p, t))
    ensures TopPlaced(Do(p, e), t)
  {
    hide OpenersLive, WorkCounted, Can, Do, TopPlaced, UnderPlaced;
    match e
    case OpenFan(_, _, _) => TopOpenFan(p, e, t);
    case Spawn(_, _, _) => TopSpawn(p, e, t);
    case Claim(_, _) => TopClaim(p, e, t);
    case FinishItem(_) => TopFinishItem(p, e, t);
    case Leave(_) => TopLeave(p, e, t);
    case JoinFan(_) => TopJoinFan(p, e, t);
  }

  lemma TopOpenFan(p: Pool, e: Event, t: Id)
    requires e.OpenFan? && OpenersLive(p) && WorkCounted(p) && Can(p, e) && TopPlaced(p, e.t)
    requires t in Do(p, e).threads && (t in p.threads ==> TopPlaced(p, t))
    ensures TopPlaced(Do(p, e), t)
  {
  }

  lemma TopSpawn(p: Pool, e: Event, t: Id)
    requires e.Spawn? && OpenersLive(p) && WorkCounted(p) && Can(p, e) && TopPlaced(p, e.t)
    requires t in Do(p, e).threads && (t in p.threads ==> TopPlaced(p, t))
    ensures TopPlaced(Do(p, e), t)
  {
  }

  lemma TopClaim(p: Pool, e: Event, t: Id)
    requires e.Claim? && OpenersLive(p) && WorkCounted(p) && Can(p, e) && TopPlaced(p, e.t)
    requires t in Do(p, e).threads && (t in p.threads ==> TopPlaced(p, t))
    ensures TopPlaced(Do(p, e), t)
  {
  }

  lemma TopFinishItem(p: Pool, e: Event, t: Id)
    requires e.FinishItem? && OpenersLive(p) && WorkCounted(p) && Can(p, e) && TopPlaced(p, e.t)
    requires t in Do(p, e).threads && (t in p.threads ==> TopPlaced(p, t))
    ensures TopPlaced(Do(p, e), t)
  {
  }

  lemma TopLeave(p: Pool, e: Event, t: Id)
    requires e.Leave? && OpenersLive(p) && WorkCounted(p) && Can(p, e) && TopPlaced(p, e.t)
    requires t in Do(p, e).threads && (t in p.threads ==> TopPlaced(p, t))
    ensures TopPlaced(Do(p, e), t)
  {
  }

  lemma TopJoinFan(p: Pool, e: Event, t: Id)
    requires e.JoinFan? && OpenersLive(p) && WorkCounted(p) && Can(p, e) && TopPlaced(p, e.t)
    requires UnderPlaced(p, p.threads[e.t].top.f)
    requires t in Do(p, e).threads && (t in p.threads ==> TopPlaced(p, t))
    ensures TopPlaced(Do(p, e), t)
  {
  }

  lemma UnderKept(p: Pool, e: Event, f: Id)
    requires OpenersLive(p) && WorkCounted(p) && Can(p, e) && TopPlaced(p, e.t) && p.threads[e.t].home < p.nextFan
    requires f in Do(p, e).fans && (f in p.fans ==> UnderPlaced(p, f))
    ensures UnderPlaced(Do(p, e), f)
  {
    hide OpenersLive, WorkCounted, Can, Do, TopPlaced, UnderPlaced;
    match e
    case OpenFan(_, _, _) => UnderOpenFan(p, e, f);
    case Spawn(_, _, _) => UnderSpawn(p, e, f);
    case Claim(_, _) => UnderClaim(p, e, f);
    case FinishItem(_) => UnderFinishItem(p, e, f);
    case Leave(_) => UnderLeave(p, e, f);
    case JoinFan(_) => UnderJoinFan(p, e, f);
  }

  lemma UnderOpenFan(p: Pool, e: Event, f: Id)
    requires e.OpenFan? && OpenersLive(p) && WorkCounted(p) && Can(p, e) && TopPlaced(p, e.t)
    requires p.threads[e.t].home < p.nextFan
    requires f in Do(p, e).fans && (f in p.fans ==> UnderPlaced(p, f))
    ensures UnderPlaced(Do(p, e), f)
  {
  }

  lemma UnderSpawn(p: Pool, e: Event, f: Id)
    requires e.Spawn? && OpenersLive(p) && WorkCounted(p) && Can(p, e) && TopPlaced(p, e.t)
    requires p.threads[e.t].home < p.nextFan
    requires f in Do(p, e).fans && (f in p.fans ==> UnderPlaced(p, f))
    ensures UnderPlaced(Do(p, e), f)
  {
  }

  lemma UnderClaim(p: Pool, e: Event, f: Id)
    requires e.Claim? && OpenersLive(p) && WorkCounted(p) && Can(p, e) && TopPlaced(p, e.t)
    requires p.threads[e.t].home < p.nextFan
    requires f in Do(p, e).fans && (f in p.fans ==> UnderPlaced(p, f))
    ensures UnderPlaced(Do(p, e), f)
  {
  }

  lemma UnderFinishItem(p: Pool, e: Event, f: Id)
    requires e.FinishItem? && OpenersLive(p) && WorkCounted(p) && Can(p, e) && TopPlaced(p, e.t)
    requires p.threads[e.t].home < p.nextFan
    requires f in Do(p, e).fans && (f in p.fans ==> UnderPlaced(p, f))
    ensures UnderPlaced(Do(p, e), f)
  {
  }

  lemma UnderLeave(p: Pool, e: Event, f: Id)
    requires e.Leave? && OpenersLive(p) && WorkCounted(p) && Can(p, e) && TopPlaced(p, e.t)
    requires p.threads[e.t].home < p.nextFan
    requires f in Do(p, e).fans && (f in p.fans ==> UnderPlaced(p, f))
    ensures UnderPlaced(Do(p, e), f)
  {
  }

  lemma UnderJoinFan(p: Pool, e: Event, f: Id)
    requires e.JoinFan? && OpenersLive(p) && WorkCounted(p) && Can(p, e) && TopPlaced(p, e.t)
    requires p.threads[e.t].home < p.nextFan
    requires f in Do(p, e).fans && (f in p.fans ==> UnderPlaced(p, f))
    ensures UnderPlaced(Do(p, e), f)
  {
  }

  lemma RunnerKept(p: Pool, e: Event, f: Id, k: nat)
    requires OpenersLive(p) && WorkCounted(p) && Can(p, e) && TopPlaced(p, e.t) && WorkerPlaced(p, e.t)
    requires (f, k) in Do(p, e).running && f in Do(p, e).fans && ((f, k) in p.running ==> RunnerPlaced(p, f, k))
    ensures RunnerPlaced(Do(p, e), f, k)
  {
    hide OpenersLive, WorkCounted, Can, Do, TopPlaced, WorkerPlaced, RunnerPlaced;
    if e.OpenFan? { RunnerOpens(p, e, f, k); } else { RunnerStays(p, e, f, k); }
  }

  lemma RunnerOpens(p: Pool, e: Event, f: Id, k: nat)
    requires e.OpenFan? && OpenersLive(p) && WorkCounted(p) && Can(p, e)
    requires (f, k) in Do(p, e).running && f in Do(p, e).fans && ((f, k) in p.running ==> RunnerPlaced(p, f, k))
    ensures RunnerPlaced(Do(p, e), f, k)
  {
    var p' := Do(p, e);
    var t := p.running[(f, k)];
    if p.threads[t].top == Item(f, k) {
      assert t == e.t ==> p'.fans[p.nextFan].under == Item(f, k);
    } else {
      var f' :| f' in p.fans && p.fans[f'].opener == t && p.fans[f'].under == Item(f, k);
      assert p'.fans[f'] == p.fans[f'];
    }
  }

  lemma RunnerStays(p: Pool, e: Event, f: Id, k: nat)
    requires !e.OpenFan? && WorkCounted(p) && Can(p, e) && TopPlaced(p, e.t) && WorkerPlaced(p, e.t)
    requires (f, k) in Do(p, e).running && f in Do(p, e).fans && ((f, k) in p.running ==> RunnerPlaced(p, f, k))
    ensures RunnerPlaced(Do(p, e), f, k)
  {
    var p' := Do(p, e);
    if (f, k) in p.running {
      var t := p.running[(f, k)];
      if p.threads[t].top != Item(f, k) {
        var f' :| f' in p.fans && p.fans[f'].opener == t && p.fans[f'].under == Item(f, k);
        if f' in p'.fans {
          assert p'.fans[f'].opener == t && p'.fans[f'].under == Item(f, k);
        }
      }
    }
  }

  lemma WorkKept(p: Pool, e: Event)
    requires OpenersLive(p) && WorkCounted(p) && Can(p, e) && TopPlaced(p, e.t)
    requires e.JoinFan? ==> forall k: nat :: (p.threads[e.t].top.f, k) !in p.running
    ensures WorkCounted(Do(p, e))
  {
    hide OpenersLive, WorkCounted, Do, TopPlaced;
    if e.Claim? {
      WorkClaimed(p, e);
    } else if e.FinishItem? {
      WorkFinished(p, e);
    } else {
      WorkStays(p, e);
    }
  }

  lemma WorkClaimed(p: Pool, e: Event)
    requires e.Claim? && WorkCounted(p) && Can(p, e)
    ensures WorkCounted(Do(p, e))
  {
  }

  lemma WorkFinished(p: Pool, e: Event)
    requires e.FinishItem? && WorkCounted(p) && Can(p, e) && TopPlaced(p, e.t)
    ensures WorkCounted(Do(p, e))
  {
  }

  lemma WorkStays(p: Pool, e: Event)
    requires !e.Claim? && !e.FinishItem? && OpenersLive(p) && WorkCounted(p) && Can(p, e)
    requires e.JoinFan? ==> forall k: nat :: (p.threads[e.t].top.f, k) !in p.running
    ensures WorkCounted(Do(p, e))
  {
  }

  /** A fan-out that can be joined has nothing left running: it has no worker, and its opener is in nothing above it. */
  lemma NothingRuns(p: Pool, t: Id, k: nat)
    requires Inv(p) && Can(p, JoinFan(t))
    ensures (p.threads[t].top.f, k) !in p.running
  {
    hide UnspawnedFree, RunsCounted, WorkCounted, WorkersKnown, OpenersLive;
    var f := p.threads[t].top.f;
    assert TopPlaced(p, t);
    assert forall r <- p.threads :: p.threads[r].home != f by {
      forall r | r in p.threads ensures p.threads[r].home != f { assert WorkerPlaced(p, r); }
    }
    assert forall f' <- p.fans :: p.fans[f'].under == Item(f, k) ==> f < f' by {
      forall f' | f' in p.fans ensures p.fans[f'].under == Item(f, k) ==> f < f' { assert UnderPlaced(p, f'); }
    }
  }

  lemma StacksKept(p: Pool, e: Event)
    requires StacksPlaced(p) && OpenersLive(p) && WorkCounted(p) && Can(p, e) && p.threads[e.t].home < p.nextFan
    ensures StacksPlaced(Do(p, e))
  {
    assert TopPlaced(p, e.t) && (e.JoinFan? ==> UnderPlaced(p, p.threads[e.t].top.f));
    hide OpenersLive, WorkCounted, Can, Do, TopPlaced, UnderPlaced;
    var p' := Do(p, e);
    forall t | t in p'.threads ensures TopPlaced(p', t) { TopKept(p, e, t); }
    forall f | f in p'.fans ensures UnderPlaced(p', f) { UnderKept(p, e, f); }
  }

  lemma RunnersKept(p: Pool, e: Event)
    requires RunnersPlaced(p) && OpenersLive(p) && WorkCounted(p) && Can(p, e) && TopPlaced(p, e.t)
    requires WorkerPlaced(p, e.t)
    ensures RunnersPlaced(Do(p, e))
  {
    hide OpenersLive, WorkCounted, Can, Do, TopPlaced, WorkerPlaced, RunnerPlaced;
    var p' := Do(p, e);
    forall f, k: nat | (f, k) in p'.running && f in p'.fans ensures RunnerPlaced(p', f, k) {
      RunnerWas(p, f, k);
      RunnerKept(p, e, f, k);
    }
  }

  lemma StepKeeps(p: Pool, e: Event)
    requires Inv(p) && Can(p, e)
    ensures Inv(Do(p, e))
  {
    StepFacts(p, e);
    hide OpenersLive, WorkersKnown, SlotsOwned, UnspawnedFree, StacksPlaced, WorkCounted, RunnersPlaced, RunsCounted;
    hide Can, Do, TopPlaced, UnderPlaced, WorkerPlaced;
    OpenersKept(p, e);
    WorkersKept(p, e);
    SlotsKept(p, e);
    UnspawnedKept(p, e);
    StacksKept(p, e);
    RunsKept(p, e);
    WorkKept(p, e);
    RunnersKept(p, e);
  }

  lemma RunnerWas(p: Pool, f: Id, k: nat)
    requires WorkCounted(p) && RunnersPlaced(p)
    ensures (f, k) in p.running ==> f in p.fans && RunnerPlaced(p, f, k)
  {
    hide RunnerPlaced;
  }

  /** What the invariant says about the thread that moves. */
  lemma StepFacts(p: Pool, e: Event)
    requires Inv(p) && Can(p, e)
    ensures e.t in p.threads && TopPlaced(p, e.t) && WorkerPlaced(p, e.t) && p.threads[e.t].home < p.nextFan
    ensures p.nextFan !in p.fans && forall f <- p.fans :: f < p.nextFan
    ensures e.JoinFan? ==>
      && p.threads[e.t].top.Driving? && p.threads[e.t].top.f in p.fans
      && UnderPlaced(p, p.threads[e.t].top.f)
    ensures e.JoinFan? ==> forall k: nat :: (p.threads[e.t].top.f, k) !in p.running
  {
    hide UnderPlaced;
    if e.JoinFan? {
      forall k: nat ensures (p.threads[e.t].top.f, k) !in p.running { NothingRuns(p, e.t, k); }
    }
  }

  // ---- over every run ----

  /** Before any fan-out: threads without slots that do nothing of interest here. */
  ghost predicate Initial(p: Pool) {
    && p.used == map[] && p.fans == map[] && p.running == map[] && p.runs == multiset{}
    && forall t <- p.threads :: p.threads[t] == Thread(NO_SLOT, NO_HOME, Idle)
  }

  ghost predicate Reaches(p: Pool, es: seq<Event>, p': Pool)
    decreases es
  {
    if es == [] then p == p' else Can(p, es[0]) && Reaches(Do(p, es[0]), es[1..], p')
  }

  lemma {:induction false} RunKeeps(p: Pool, es: seq<Event>, p': Pool)
    requires Inv(p) && Reaches(p, es, p')
    ensures Inv(p')
    decreases es
  {
    if es != [] {
      StepKeeps(p, es[0]);
      RunKeeps(Do(p, es[0]), es[1..], p');
    }
  }

  /** However fan-outs nest and however many slots each one got: no two live threads use the same arena
      and no branch is started twice. */
  lemma FanOutSafe(p0: Pool, es: seq<Event>, p: Pool)
    requires Initial(p0) && Reaches(p0, es, p)
    ensures forall t, t' :: t in p.threads && t' in p.threads && t != t' && p.threads[t].slot == p.threads[t'].slot ==>
              p.threads[t].slot == NO_SLOT
    ensures forall f, k: nat :: p.runs[(f, k)] <= 1
  {
    hide Inv, Reaches, Initial;
    InitialHolds(p0);
    RunKeeps(p0, es, p);
    InvParts(p);
  }

  /** A fan-out is joined only when each of its branches was started exactly once and has finished. */
  lemma JoinComplete(p0: Pool, es: seq<Event>, p: Pool, t: Id, k: nat)
    requires Initial(p0) && Reaches(p0, es, p) && Can(p, JoinFan(t)) && k < p.fans[p.threads[t].top.f].items
    ensures k in p.fans[p.threads[t].top.f].done && p.runs[(p.threads[t].top.f, k)] == 1
  {
    hide Inv, Reaches, Initial;
    InitialHolds(p0);
    RunKeeps(p0, es, p);
    NothingRuns(p, t, k);
    JoinedWork(p, p.threads[t].top.f, k);
  }

  lemma InvParts(p: Pool)
    requires Inv(p)
    ensures forall t, t' :: t in p.threads && t' in p.threads && t != t' && p.threads[t].slot == p.threads[t'].slot ==>
              p.threads[t].slot == NO_SLOT
    ensures forall f, k: nat :: p.runs[(f, k)] <= 1
  {
    hide OpenersLive, WorkersKnown, WorkerPlaced, UnspawnedFree, StacksPlaced, RunnersPlaced, WorkCounted;
  }

  lemma InitialHolds(p: Pool)
    requires Initial(p)
    ensures Inv(p)
  {
  }

  lemma JoinedWork(p: Pool, f: Id, k: nat)
    requires Inv(p) && f in p.fans && k < p.fans[f].items && (f, k) !in p.running
    requires p.fans[f].unspawned == {} && p.fans[f].workers == {}
    requires (p.fans[f].helps ==> p.fans[f].cursor >= p.fans[f].items)
    ensures k in p.fans[f].done && p.runs[(f, k)] == 1
  {
    hide OpenersLive, WorkersKnown, SlotsOwned, UnspawnedFree, StacksPlaced, RunnersPlaced;
  }

  lemma {:induction false} Largest(ids: set<Id>) returns (m: Id)
    requires ids != {}
    ensures m in ids && forall i <- ids :: i <= m
  {
    var x :| x in ids;
    if ids == {x} {
      m := x;
    } else {
      m := Largest(ids - {x});
      if m < x { m := x; }
      assert forall i <- ids :: i == x || i in ids - {x};
    }
  }

  /** No deadlock: while a fan-out is open, some thread can move without opening another one. */
  lemma NeverStuck(p0: Pool, es: seq<Event>, p: Pool)
    requires Initial(p0) && Reaches(p0, es, p) && p.fans != map[]
    ensures exists e: Event :: Can(p, e) && !e.OpenFan?
  {
    hide Inv, Reaches, Initial;
    InitialHolds(p0);
    RunKeeps(p0, es, p);
    assert p.fans.Keys != {};
    var f := Largest(p.fans.Keys);
    var e := SomeMove(p, f);
  }

  lemma ThreadFacts(p: Pool, t: Id)
    requires Inv(p) && t in p.threads
    ensures TopPlaced(p, t)
    ensures p.threads[t].top.Item? ==> p.threads[t].top.f in p.fans
    ensures forall f <- p.fans :: p.fans[f].opener == t ==> p.threads[t].home < f
  {
    hide WorkerPlaced, UnderPlaced, RunnerPlaced, RunsCounted;
  }

  lemma OpenerFacts(p: Pool, f: Id)
    requires Inv(p) && f in p.fans
    ensures p.fans[f].opener in p.threads
    ensures forall w <- p.fans[f].workers :: w in p.threads && p.threads[w].home == f
  {
    hide WorkerPlaced, UnderPlaced, RunnerPlaced, RunsCounted, TopPlaced;
  }

  lemma SomeMove(p: Pool, f: Id) returns (e: Event)
    requires Inv(p) && f in p.fans && forall f' <- p.fans :: f' <= f
    ensures Can(p, e) && !e.OpenFan?
  {
    hide Inv;
    OpenerFacts(p, f);
    var t := p.fans[f].opener;
    ThreadFacts(p, t);
    var fan := p.fans[f];
    if p.threads[t].top.Item? {
      e := FinishItem(t);
    } else if fan.unspawned != {} {
      var last := Largest(p.threads.Keys);
      var slot := Largest(fan.unspawned);
      e := Spawn(t, last + 1, slot);
    } else if fan.helps && fan.cursor < fan.items {
      e := Claim(t, f);
    } else if fan.workers == {} {
      e := JoinFan(t);
    } else {
      var w :| w in fan.workers;
      ThreadFacts(p, w);
      e := if p.threads[w].top.Item? then FinishItem(w) else if fan.cursor < fan.items then Claim(w, f) else Leave(w);
    }
  }
}
