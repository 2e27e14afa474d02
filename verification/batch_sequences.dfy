/** The cache sequences of the batcher: none is lost and none is used twice, whatever the callers do; and no generation
    fails unless a decode of its own did. */
module BatchSequences {
  import opened Options
  import opened Batching
  import opened BatchingTransparency

  ghost predicate InUse(s: System, q: nat) {
    exists g :: 0 <= g < |s.gens| && Active(s.gens[g]) && s.gens[g].seqId == q
  }

  /** There are `n` sequences, each of them free or in use. */
  ghost predicate Accounted(s: System, n: nat) {
    forall q: nat :: q < n <==> q in s.b.free || InUse(s, q)
  }

  /** The same generations are active, on the same sequences. */
  ghost predicate SameUse(s: System, t: System) {
    && t.b.free == s.b.free && |t.gens| == |s.gens|
    && forall g :: 0 <= g < |s.gens| ==> Active(t.gens[g]) == Active(s.gens[g]) && t.gens[g].seqId == s.gens[g].seqId
  }

  lemma SameAccounted(s: System, t: System, n: nat)
    requires SameUse(s, t) && Accounted(s, n)
    ensures Accounted(t, n)
  {
    forall q: nat ensures InUse(t, q) <==> InUse(s, q) {
      if InUse(s, q) {
        var g :| 0 <= g < |s.gens| && Active(s.gens[g]) && s.gens[g].seqId == q;
        assert Active(t.gens[g]);
      }
    }
  }

  lemma RoundOfSameUse(m: Llm, s: System, ok: bool)
    ensures SameUse(s, RoundOf(m, s, ok))
  {
    hide Sampled, OutcomeOf, FedOne, ReqOf, PosOf, MemoryOf;
  }

  lemma RoundSameUse(m: Llm, s: System, g: nat, ok: bool)
    requires Enabled(s, Round(g, ok))
    ensures SameUse(s, Next(m, s, Round(g, ok)))
  {
    hide Sampled, OutcomeOf, FedOne, ReqOf;
    var t := RoundOf(m, s, ok);
    RoundOfSameUse(m, s, ok);
    hide RoundOf;
  }

  /** A sequence that is taken from the free ones is in use. */
  lemma BeginAccounts(s: System, e: Step, n: nat)
    requires e.Begin? && Enabled(s, e) && SeqInv(s) && Accounted(s, n)
    ensures Accounted(BeginOn(s, e), n)
  {
    var t := BeginOn(s, e);
    var last := |s.b.free| - 1;
    var taken := s.b.free[last];
    assert t.gens[e.g].seqId == taken && Active(t.gens[e.g]);
    forall q: nat ensures q in t.b.free || InUse(t, q) <==> q in s.b.free || InUse(s, q) {
      assert q in s.b.free <==> q in t.b.free || q == taken;
      if InUse(s, q) {
        var g :| 0 <= g < |s.gens| && Active(s.gens[g]) && s.gens[g].seqId == q;
        assert t.gens[g] == s.gens[g];
      }
      if InUse(t, q) && q != taken {
        var g :| 0 <= g < |t.gens| && Active(t.gens[g]) && t.gens[g].seqId == q;
        assert t.gens[g] == s.gens[g];
      }
    }
  }

  /** A sequence that is given back is free. */
  lemma ReleaseAccounts(s: System, g: nat, n: nat)
    requires Enabled(s, Release(g)) && Accounted(s, n)
    ensures Accounted(ReleaseOn(s, g), n)
  {
    var t, given := ReleaseOn(s, g), s.gens[g].seqId;
    assert InUse(s, given);
    forall q: nat ensures q in t.b.free || InUse(t, q) <==> q in s.b.free || InUse(s, q) {
      assert q in t.b.free <==> q in s.b.free || q == given;
      if InUse(s, q) && q != given {
        var k :| 0 <= k < |s.gens| && Active(s.gens[k]) && s.gens[k].seqId == q;
        assert t.gens[k] == s.gens[k];
      }
      if InUse(t, q) {
        var k :| 0 <= k < |t.gens| && Active(t.gens[k]) && t.gens[k].seqId == q;
        assert k != g && t.gens[k] == s.gens[k];
      }
    }
  }

  lemma StepAccounts(m: Llm, s: System, e: Step, n: nat)
    requires Enabled(s, e) && SeqInv(s) && Accounted(s, n)
    ensures Accounted(Next(m, s, e), n)
  {
    hide Accounted, SeqInv, Sampled, RoundOf;
    match e {
      case Begin(_, _, _, _) => BeginAccounts(s, e, n);
      case Release(g) => ReleaseAccounts(s, g, n);
      case Round(g, ok) =>
        RoundSameUse(m, s, g, ok);
        SameAccounted(s, Next(m, s, e), n);
      case _ =>
        assert SameUse(s, Next(m, s, e));
        SameAccounted(s, Next(m, s, e), n);
    }
  }

  lemma {:induction false} RunAccounts(m: Llm, s: System, steps: seq<Step>, n: nat)
    requires Inv(m, s) && Run(m, s, steps) && Accounted(s, n)
    ensures Accounted(After(m, s, steps), n)
    decreases |steps|
  {
    hide Inv, Accounted, Next, Enabled;
    if steps != [] {
      assert SeqInv(s) by { InvSeqs(m, s); }
      StepAccounts(m, s, steps[0], n);
      StepKeeps(m, s, steps[0]);
      RunAccounts(m, Next(m, s, steps[0]), steps[1..], n);
    }
  }

  lemma FreshAccounted(n: nat, seqCtx: nat)
    ensures Accounted(Fresh(n, seqCtx), n)
  {
    var s := Fresh(n, seqCtx);
    forall q: nat ensures q < n <==> q in s.b.free {
      if q < n { assert s.b.free[n - 1 - q] == q; }
    }
  }

  lemma InvSeqs(m: Llm, s: System)
    requires Inv(m, s)
    ensures SeqInv(s)
  {
  }

  /** At any time each of the `n` sequences is free or used by one active generation, and not both; so whoever releases
      one makes it free for the next, and when nobody generates all of them are free. */
  lemma NoSequenceLost(m: Llm, n: nat, seqCtx: nat, steps: seq<Step>, q: nat)
    requires Run(m, Fresh(n, seqCtx), steps)
    ensures var s := After(m, Fresh(n, seqCtx), steps);
            && (q < n <==> q in s.b.free || InUse(s, q)) && !(q in s.b.free && InUse(s, q))
            && (forall g, k :: 0 <= g < k < |s.gens| && Active(s.gens[g]) && Active(s.gens[k]) ==>
                  s.gens[g].seqId != s.gens[k].seqId)
            && (q < n && (forall g :: 0 <= g < |s.gens| ==> s.gens[g].phase == Idle) ==> q in s.b.free)
  {
    hide Run, After;
    FreshHolds(m, n, seqCtx);
    RunKeeps(m, Fresh(n, seqCtx), steps);
    FreshAccounted(n, seqCtx);
    RunAccounts(m, Fresh(n, seqCtx), steps, n);
    InvSeqs(m, After(m, Fresh(n, seqCtx), steps));
  }

  // ---- failures ----

  /** Every decode so far went well. */
  ghost predicate Unharmed(s: System) {
    && (forall g :: 0 <= g < |s.gens| ==> s.gens[g].phase != Failed)
    && (forall q <- s.b.results :: s.b.results[q].ok)
  }

  predicate Succeeds(e: Step) {
    (e.Prefill? || e.Round?) ==> e.ok
  }

  /** A round hands out its own results and leaves those that wait to be collected. */
  lemma RoundResultsOnly(m: Llm, s: System, ok: bool, q: nat)
    ensures var t := RoundOf(m, s, ok);
            && (q in t.b.results <==> q in s.b.results || exists r <- s.b.pending :: r.seqId == q)
            && ((exists r <- s.b.pending :: r.seqId == q) ==> t.b.results[q].ok == ok)
            && (q in s.b.results && (forall r <- s.b.pending :: r.seqId != q) ==> t.b.results[q] == s.b.results[q])
  {
    hide Sampled, FedOne;
    var r := ReqOf(s.b.pending, q);
    if r.None? { assert forall x <- s.b.pending :: x.seqId != q; }
  }

  lemma RoundUnharmed(m: Llm, s: System, g: nat)
    requires Unharmed(s) && Enabled(s, Round(g, true))
    ensures Unharmed(Next(m, s, Round(g, true)))
  {
    var t := RoundOf(m, s, true);
    forall q <- t.b.results ensures t.b.results[q].ok { RoundResultsOnly(m, s, true, q); }
    assert forall k :: 0 <= k < |s.gens| ==> t.gens[k].phase == s.gens[k].phase;
    hide RoundOf;
  }

  lemma StepUnharmed(m: Llm, s: System, e: Step)
    requires Unharmed(s) && Enabled(s, e) && Succeeds(e)
    ensures Unharmed(Next(m, s, e))
  {
    hide RoundOf, Sampled;
    if e.Round? { RoundUnharmed(m, s, e.g); }
  }

  /** As long as every decode goes well no generation fails, and one whose prompt cannot be decoded does. */
  lemma {:induction false} FailsWithItsDecodes(m: Llm, s: System, steps: seq<Step>)
    requires Unharmed(s) && Run(m, s, steps)
    ensures (forall e <- steps :: Succeeds(e)) ==> Unharmed(After(m, s, steps))
    ensures steps != [] && steps[0].Prefill? && !steps[0].ok ==>
              Next(m, s, steps[0]).gens[steps[0].g].phase == Failed
    decreases |steps|
  {
    if steps != [] && Succeeds(steps[0]) {
      hide Unharmed, Next, Enabled;
      StepUnharmed(m, s, steps[0]);
      FailsWithItsDecodes(m, Next(m, s, steps[0]), steps[1..]);
      assert forall e <- steps :: e == steps[0] || e in steps[1..];
    }
  }
}
