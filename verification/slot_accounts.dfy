/** Slots come back: what is in use belongs to an open fan-out, and parallel branches run on threads with a slot. */
module SlotAccounts {
  import opened WorkerSlots

  /** Every slot in use is one of a fan-out that is still open. */
  ghost predicate Returned(p: Pool) {
    forall s <- p.used :: p.used[s] in p.fans
  }

  ghost predicate Slotless(p: Pool, f: Id) {
    forall s <- p.used :: p.used[s] != f
  }

  /** A thread without a slot takes branches only of a fan-out without slots, that is one after the other. */
  ghost predicate HelperPlaced(p: Pool, f: Id)
    requires f in p.fans && p.fans[f].opener in p.threads
  {
    p.fans[f].helps && p.threads[p.fans[f].opener].slot == NO_SLOT ==> Slotless(p, f)
  }

  ghost predicate HelpersPlaced(p: Pool) {
    forall f <- p.fans :: p.fans[f].opener in p.threads && HelperPlaced(p, f)
  }

  lemma ReturnedStep(p: Pool, e: Event)
    requires Returned(p) && Can(p, e)
    ensures Returned(Do(p, e))
  {
    assert e.JoinFan? ==> e.t in p.threads;
  }

  lemma HelperStep(p: Pool, e: Event, f: Id)
    requires Inv(p) && Returned(p) && HelpersPlaced(p) && Can(p, e) && f in Do(p, e).fans
    requires Do(p, e).fans[f].opener in Do(p, e).threads && p.nextFan !in p.fans
    ensures HelperPlaced(Do(p, e), f)
  {
    hide Inv;
    var q := Do(p, e);
    if e.OpenFan? && f == p.nextFan {
      assert forall s <- p.used :: p.used[s] != f;
      assert q.fans[f].helps && p.threads[e.t].slot == NO_SLOT ==> e.slots == {};
    } else {
      assert HelperPlaced(p, f) && q.fans[f].helps == p.fans[f].helps && q.fans[f].opener == p.fans[f].opener;
      var t := p.fans[f].opener;
      if q.threads[t].slot == NO_SLOT && q.fans[f].helps {
        assert p.threads[t].slot == NO_SLOT;
        assert Slotless(p, f);
        assert Slotless(q, f);
      }
    }
  }

  lemma StepPlaces(p: Pool, e: Event)
    requires Inv(p) && Returned(p) && HelpersPlaced(p) && Can(p, e)
    ensures Returned(Do(p, e)) && HelpersPlaced(Do(p, e))
  {
    StepFacts(p, e);
    StepKeeps(p, e);
    ReturnedStep(p, e);
    var q := Do(p, e);
    assert OpenersLive(q);
    hide Inv, Can, Do;
    forall f <- q.fans ensures q.fans[f].opener in q.threads && HelperPlaced(q, f) { HelperStep(p, e, f); }
  }

  lemma {:induction false} RunPlaces(p: Pool, es: seq<Event>, q: Pool)
    requires Inv(p) && Returned(p) && HelpersPlaced(p) && Reaches(p, es, q)
    ensures Inv(q) && Returned(q) && HelpersPlaced(q)
    decreases es
  {
    hide Inv, Can, Do, Returned, HelpersPlaced;
    if es != [] {
      StepKeeps(p, es[0]);
      StepPlaces(p, es[0]);
      RunPlaces(Do(p, es[0]), es[1..], q);
    }
  }

  /** At any time: a slot in use is returned by a fan-out that is open, so none is in use when none is open; and the
      thread of a running branch has a slot of its own unless its fan-out got none. */
  lemma SlotsAccounted(p0: Pool, es: seq<Event>, p: Pool, f: Id, k: nat)
    requires Initial(p0) && Reaches(p0, es, p)
    ensures forall s <- p.used :: p.used[s] in p.fans
    ensures p.fans == map[] ==> p.used == map[]
    ensures (f, k) in p.running ==>
              && p.running[(f, k)] in p.threads
              && (p.threads[p.running[(f, k)]].slot != NO_SLOT || forall s <- p.used :: p.used[s] != f)
  {
    hide Inv, Reaches, HelpersPlaced;
    InitialHolds(p0);
    assert HelpersPlaced(p0) by { InitialPlaced(p0); }
    RunPlaces(p0, es, p);
    if (f, k) in p.running { RunnerSlotted(p, f, k); }
  }

  lemma InitialPlaced(p: Pool)
    requires Initial(p)
    ensures HelpersPlaced(p)
  {
  }

  lemma RunnerSlotted(p: Pool, f: Id, k: nat)
    requires Inv(p) && HelpersPlaced(p) && (f, k) in p.running
    ensures p.running[(f, k)] in p.threads
    ensures p.threads[p.running[(f, k)]].slot != NO_SLOT || Slotless(p, f)
  {
    RunnerWas(p, f, k);
    var t := p.running[(f, k)];
    assert TopPlaced(p, t) && WorkerPlaced(p, t);
    hide WorkCounted, RunsCounted, UnspawnedFree, Slotless;
    if p.threads[t].home != f {
      assert HelperPlaced(p, f);
      if p.threads[t].top != Item(f, k) {
        var f' :| f' in p.fans && p.fans[f'].opener == t && p.fans[f'].under == Item(f, k);
        assert UnderPlaced(p, f');
      }
    }
  }
}
