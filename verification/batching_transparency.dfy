/** Batching cannot be seen: every generation produces what it would produce alone. */
module BatchingTransparency {
  import opened Options
  import opened Batching

  // ---- requests ----

  lemma {:induction false} ReqOfMore(pending: seq<Req>, r: Req, q: nat)
    ensures ReqOf(pending + [r], q)
         == if ReqOf(pending, q).Some? then ReqOf(pending, q) else if r.seqId == q then Some(r) else None
    decreases |pending|
  {
    if pending == [] {
      assert pending + [r] == [r];
    } else {
      assert (pending + [r])[1..] == pending[1..] + [r];
      ReqOfMore(pending[1..], r, q);
    }
  }

  /** A generation that does not wait has nothing pending. */
  lemma NoReq(m: Llm, s: System, g: nat)
    requires Inv(m, s) && g < |s.gens| && Active(s.gens[g]) && !Waits(s.gens[g], s.b)
    ensures ReqOf(s.b.pending, s.gens[g].seqId) == None
  {
    hide GensInv, LeaderInv, ReqOf;
  }

  lemma NotOwed(m: Llm, s: System, g: nat)
    requires Inv(m, s) && g < |s.gens| && Active(s.gens[g]) && s.gens[g].phase != Waiting
    ensures s.gens[g].seqId !in s.b.results
  {
    hide GensInv, LeaderInv, PendingInv;
  }

  /** What a generation knows depends only on its own sequence. */
  lemma GenSame(m: Llm, b: Batcher, c: Batcher, gen: Gen, g: nat)
    requires GenInv(m, b, gen, g)
    requires MemoryOf(b, gen.seqId) == MemoryOf(c, gen.seqId) && PosOf(b, gen.seqId) == PosOf(c, gen.seqId)
    requires gen.seqId in b.results <==> gen.seqId in c.results
    requires gen.seqId in b.results ==> b.results[gen.seqId] == c.results[gen.seqId]
    requires ReqOf(b.pending, gen.seqId) == ReqOf(c.pending, gen.seqId)
    ensures GenInv(m, c, gen, g)
  {
    hide Solo, Fed, ReqOf, MemoryOf, PosOf;
  }

  // ---- feeding ----

  lemma FedSnoc(tokens: seq<Token>, t: Token)
    ensures Fed(tokens + [t]) == Fed(tokens) + [Entry(t, |tokens|)]
  {
  }

  /** One row moves a generation from caught up to one ahead, as it would alone. */
  lemma RowIsSolo(m: Llm, b: Batcher, gen: Gen, g: nat)
    requires Caught(m, b, gen) && |gen.produced| <= gen.maxTokens
    ensures var r := Req(gen.seqId, Last(gen), g);
            var (t, sampler) := Sampled(m, b, r, gen.sampler);
            && FedOne(b, r) == Fed(gen.prompt + gen.produced)
            && Solo(m, gen.prompt, gen.first, |gen.produced| + 1) == (gen.produced + [t], sampler)
  {
    var k := |gen.produced|;
    var before := gen.prompt + gen.produced[..k - 1];
    assert before + [Last(gen)] == gen.prompt + gen.produced;
    FedSnoc(before, Last(gen));
  }

  // ---- the round ----

  /** What the round does to a sequence that asked. */
  lemma RoundAt(m: Llm, s: System, ok: bool, r: Req)
    requires ReqOf(s.b.pending, r.seqId) == Some(r) && r.gen < |s.gens|
    ensures var t := RoundOf(m, s, ok);
            && r.seqId in t.b.results && t.b.results[r.seqId] == OutcomeOf(m, s, r, ok)
            && PosOf(t.b, r.seqId) == PosOf(s.b, r.seqId) + 1
            && (ok ==> MemoryOf(t.b, r.seqId) == FedOne(s.b, r))
  {
    hide ReqOf, Sampled, FedOne, OutcomeOf, GenAfter;
    InRound(s.b.pending, r);
  }

  lemma RoundWaiting(m: Llm, s: System, ok: bool, g: nat)
    requires Inv(m, s) && g < |s.gens| && Waits(s.gens[g], s.b)
    ensures var t := RoundOf(m, s, ok);
            && g < |t.gens| && t.gens[g].seqId in t.b.results && t.b.results[t.gens[g].seqId].ok == ok
            && (ok ==> Ahead(m, t.b, t.gens[g], t.b.results[t.gens[g].seqId].token))
  {
    hide Solo, Fed, ReqOf, FedOne, RoundOf, Sampled, SeqInv, RoundInv, MemoryOf, PosOf;
    var gen := s.gens[g];
    var r := Req(gen.seqId, Last(gen), g);
    assert GenInv(m, s.b, gen, g);
    assert Asks(s.b, gen, g);
    RoundAt(m, s, ok, r);
    RoundSize(m, s, ok);
    GenMoves(m, s, ok, g);
    if ok { RowIsSolo(m, s.b, gen, g); }
  }

  lemma GenMoves(m: Llm, s: System, ok: bool, g: nat)
    requires g < |s.gens|
    ensures g < |RoundOf(m, s, ok).gens| && RoundOf(m, s, ok).gens[g] == GenAfter(m, s.b, s.gens[g], g, ok)
  {
    hide ReqOf, Sampled, FedOne, OutcomeOf, GenAfter;
  }

  lemma RoundQuiet(m: Llm, s: System, ok: bool, g: nat)
    requires Inv(m, s) && g < |s.gens| && Active(s.gens[g]) && !Waits(s.gens[g], s.b)
    ensures var t := RoundOf(m, s, ok); g < |t.gens| && t.gens[g] == s.gens[g] && GenInv(m, t.b, t.gens[g], g)
  {
    hide Solo, Fed, ReqOf, FedOne, RoundOf, Sampled, SeqInv, RoundInv, Caught, Ahead;
    assert GenInv(m, s.b, s.gens[g], g);
    NoReq(m, s, g);
    GenMoves(m, s, ok, g);
    GenIdle(m, s, ok, g);
  }

  lemma InRound(pending: seq<Req>, r: Req)
    requires ReqOf(pending, r.seqId) == Some(r)
    ensures r.seqId in set x <- pending :: x.seqId
  {
    assert r in pending;
  }

  lemma NotInRound(pending: seq<Req>, q: nat)
    requires ReqOf(pending, q) == None
    ensures q !in set x <- pending :: x.seqId
  {
  }

  lemma GenIdle(m: Llm, s: System, ok: bool, g: nat)
    requires g < |s.gens| && GenInv(m, s.b, s.gens[g], g) && !Waits(s.gens[g], s.b) && Active(s.gens[g])
    requires ReqOf(s.b.pending, s.gens[g].seqId) == None
    ensures GenInv(m, RoundOf(m, s, ok).b, s.gens[g], g)
  {
    hide Solo, Fed, ReqOf, Sampled, FedOne, OutcomeOf, GenAfter;
    NotInRound(s.b.pending, s.gens[g].seqId);
  }

  lemma RoundSeqs(m: Llm, s: System, ok: bool)
    requires SeqInv(s)
    ensures var t := RoundOf(m, s, ok);
            && SeqInv(t) && t.b.pending == [] && t.b.leader == None && |t.gens| == |s.gens|
            && forall g :: 0 <= g < |t.gens| ==> t.gens[g] == s.gens[g].(sampler := t.gens[g].sampler)
  {
    hide ReqOf, Sampled, FedOne, OutcomeOf;
  }

  lemma RoundResults(m: Llm, s: System, ok: bool, q: nat)
    requires q in RoundOf(m, s, ok).b.results
    ensures q in s.b.results || exists i :: 0 <= i < |s.b.pending| && s.b.pending[i].seqId == q
  {
    hide ReqOf, Sampled, FedOne, OutcomeOf, GenAfter;
  }

  lemma RoundRest(m: Llm, s: System, ok: bool)
    requires Inv(m, s) && s.b.leader.Some?
    ensures var t := RoundOf(m, s, ok);
            && SeqInv(t) && t.b.pending == [] && t.b.leader == None && s.b.leader.value < |t.gens|
            && (forall q <- t.b.results :: IsOwed(t, q) || q == t.gens[s.b.leader.value].seqId)
            && (forall g :: 0 <= g < |t.gens| && t.gens[g].phase == Leading ==> s.b.leader == Some(g))
  {
    hide GensInv, SeqInv, RoundOf;
    var t := RoundOf(m, s, ok);
    RoundSeqs(m, s, ok);
    forall q | q in t.b.results ensures IsOwed(t, q) || q == t.gens[s.b.leader.value].seqId {
      RoundResults(m, s, ok, q);
      if q in s.b.results {
        assert IsOwed(s, q);
        var g :| 0 <= g < |s.gens| && s.gens[g].phase == Waiting && s.gens[g].seqId == q;
        assert t.gens[g].phase == Waiting && t.gens[g].seqId == q;
      } else {
        var i :| 0 <= i < |s.b.pending| && s.b.pending[i].seqId == q;
        var g := s.b.pending[i].gen;
        assert Waits(s.gens[g], s.b) && t.gens[g].phase == s.gens[g].phase && t.gens[g].seqId == q;
      }
    }
  }

  /** Taking a result changes only the taker. */
  lemma TakenOthers(m: Llm, s: System, g: nat, k: nat)
    requires g < |s.gens| && s.gens[g].seqId in s.b.results && k < |s.gens| && k != g && SeqInv(s)
    requires Active(s.gens[g]) && Active(s.gens[k]) && GenInv(m, s.b, s.gens[k], k)
    ensures GenInv(m, Taken(s, g).b, s.gens[k], k)
  {
    hide Solo, Fed, ReqOf;
    GenSame(m, s.b, Taken(s, g).b, s.gens[k], k);
  }

  lemma TakenOwn(m: Llm, s: System, g: nat)
    requires g < |s.gens| && s.gens[g].seqId in s.b.results
    requires s.b.results[s.gens[g].seqId].ok ==> Ahead(m, s.b, s.gens[g], s.b.results[s.gens[g].seqId].token)
    ensures GenInv(m, Taken(s, g).b, Taken(s, g).gens[g], g)
  {
    hide Solo, Fed, ReqOf;
    var gen := s.gens[g];
    var r := s.b.results[gen.seqId];
    if r.ok {
      assert (gen.produced + [r.token])[..|gen.produced|] == gen.produced;
    }
  }

  lemma TakenSeqs(s: System, g: nat)
    requires SeqInv(s) && g < |s.gens| && s.gens[g].seqId in s.b.results && Active(s.gens[g])
    ensures SeqInv(Taken(s, g))
  {
  }

  lemma RoundKeeps(m: Llm, s: System, g: nat, ok: bool)
    requires Inv(m, s) && Is(s, g, Leading)
    ensures Inv(m, Next(m, s, Round(g, ok)))
  {
    hide GenInv, SeqInv, RoundOf, Ahead;
    var t := RoundOf(m, s, ok);
    LeaderLeads(m, s, g);
    RoundRest(m, s, ok);
    RoundWaiting(m, s, ok, g);
    RoundSize(m, s, ok);
    RoundPhase(m, s, ok, g);
    var u := Taken(t, g);
    forall k | 0 <= k < |u.gens| ensures GenInv(m, u.b, u.gens[k], k) {
      if k == g {
        TakenOwn(m, t, g);
      } else if Active(s.gens[k]) {
        RoundPhase(m, s, ok, k);
        if Waits(s.gens[k], s.b) {
          RoundWaiting(m, s, ok, k);
          OneLeader(m, s, g, k);
          WaitingServed(m, t.b, t.gens[k], k, ok);
        } else {
          RoundQuiet(m, s, ok, k);
        }
        TakenOthers(m, t, g, k);
      } else {
        StaysIdle(m, s, ok, k);
        IdleIsFine(m, u.b, u.gens[k], k);
      }
    }
    TakenSeqs(t, g);
    RoundTaken(m, s, g, ok);
  }

  lemma LeaderLeads(m: Llm, s: System, g: nat)
    requires Inv(m, s) && Is(s, g, Leading)
    ensures s.b.leader == Some(g) && Active(s.gens[g]) && Waits(s.gens[g], s.b)
  {
    hide GensInv, SeqInv;
  }

  lemma OneLeader(m: Llm, s: System, g: nat, k: nat)
    requires Inv(m, s) && Is(s, g, Leading) && k < |s.gens| && k != g
    ensures s.gens[k].phase != Leading
  {
    hide GensInv, SeqInv;
  }

  lemma RoundSize(m: Llm, s: System, ok: bool)
    ensures |RoundOf(m, s, ok).gens| == |s.gens|
  {
    hide ReqOf, Sampled, FedOne, OutcomeOf;
  }

  lemma StaysIdle(m: Llm, s: System, ok: bool, k: nat)
    requires k < |s.gens| && !Active(s.gens[k])
    ensures RoundOf(m, s, ok).gens[k] == s.gens[k]
  {
    hide ReqOf, Sampled, FedOne, OutcomeOf;
  }

  lemma IdleIsFine(m: Llm, b: Batcher, gen: Gen, k: nat)
    requires !Active(gen)
    ensures GenInv(m, b, gen, k)
  {
  }

  lemma WaitingServed(m: Llm, b: Batcher, gen: Gen, k: nat, ok: bool)
    requires gen.phase == Waiting && gen.seqId in b.results && b.results[gen.seqId].ok == ok
    requires ok ==> Ahead(m, b, gen, b.results[gen.seqId].token)
    ensures GenInv(m, b, gen, k)
  {
    hide Ahead;
  }

  lemma RoundTaken(m: Llm, s: System, g: nat, ok: bool)
    requires Inv(m, s) && Is(s, g, Leading)
    requires var t := RoundOf(m, s, ok); g < |t.gens| && t.gens[g].seqId in t.b.results
    ensures RoundInv(Taken(RoundOf(m, s, ok), g))
  {
    hide GensInv, SeqInv, RoundOf;
    var t := RoundOf(m, s, ok);
    LeaderLeads(m, s, g);
    RoundRest(m, s, ok);
    RoundSize(m, s, ok);
    var u := Taken(t, g);
    forall q | q in u.b.results ensures IsOwed(u, q) {
      var k :| 0 <= k < |t.gens| && t.gens[k].phase == Waiting && t.gens[k].seqId == q;
      RoundPhase(m, s, ok, g);
      assert u.gens[k] == t.gens[k];
    }
  }

  lemma RoundPhase(m: Llm, s: System, ok: bool, g: nat)
    requires g < |s.gens|
    ensures RoundOf(m, s, ok).gens[g].phase == s.gens[g].phase
  {
    hide ReqOf, Sampled, FedOne, OutcomeOf;
  }

  // ---- the other steps ----

  lemma BeginKeeps(m: Llm, s: System, e: Step)
    requires Inv(m, s) && e.Begin? && Enabled(s, e)
    ensures Inv(m, BeginOn(s, e))
  {
    hide Solo, Fed, ReqOf, GenInv;
    var t := BeginOn(s, e);
    var q := s.b.free[|s.b.free| - 1];
    FreeNotOwed(s, q);
    forall k | 0 <= k < |t.gens| ensures GenInv(m, t.b, t.gens[k], k) {
      if k == e.g {
        NewGen(m, t.b, t.gens[k], k);
      } else {
        assert t.gens[k] == s.gens[k] && GenInv(m, s.b, s.gens[k], k);
        if Active(s.gens[k]) { GenSame(m, s.b, t.b, s.gens[k], k); } else { IdleIsFine(m, t.b, t.gens[k], k); }
      }
    }
    BeginSeqs(s, e);
    BeginRound(s, e);
  }

  lemma FreeNotOwed(s: System, q: nat)
    requires SeqInv(s) && RoundInv(s) && q in s.b.free
    ensures q !in s.b.results
  {
  }

  lemma NewGen(m: Llm, b: Batcher, gen: Gen, k: nat)
    requires gen.phase == Acquired && gen.produced == [] && gen.sampler == gen.first
    requires MemoryOf(b, gen.seqId) == [] && PosOf(b, gen.seqId) == 0
    ensures GenInv(m, b, gen, k)
  {
  }

  lemma BeginSeqs(s: System, e: Step)
    requires SeqInv(s) && e.Begin? && Enabled(s, e)
    ensures SeqInv(BeginOn(s, e))
  {
  }

  lemma BeginRound(s: System, e: Step)
    requires RoundInv(s) && e.Begin? && Enabled(s, e)
    ensures RoundInv(BeginOn(s, e))
  {
    hide SeqInv;
    var t := BeginOn(s, e);
    forall q | q in t.b.results ensures IsOwed(t, q) {
      assert IsOwed(s, q);
      var k :| 0 <= k < |s.gens| && s.gens[k].phase == Waiting && s.gens[k].seqId == q;
      assert t.gens[k] == s.gens[k];
    }
    forall i | 0 <= i < |t.b.pending|
      ensures var r := t.b.pending[i]; r.gen < |t.gens| && Waits(t.gens[r.gen], t.b) && r.seqId == t.gens[r.gen].seqId
    {
      assert Waits(s.gens[s.b.pending[i].gen], s.b);
    }
  }

  /** One generation changes phase or contents, within its own sequence, and was neither waiting nor is. */
  lemma OneQuiet(s: System, t: System, g: nat)
    requires RoundInv(s) && SeqInv(s) && g < |s.gens| && Active(s.gens[g])
    requires !Waits(s.gens[g], s.b) && s.gens[g].phase != Waiting
    requires |t.gens| == |s.gens| && t.gens == s.gens[g := t.gens[g]] && t.gens[g].phase != Waiting
    requires t.gens[g].phase != Leading
    requires t.b.pending == s.b.pending && t.b.leader == s.b.leader && t.b.results == s.b.results
    ensures RoundInv(t)
  {
    forall q | q in t.b.results ensures IsOwed(t, q) {
      assert IsOwed(s, q);
      var k :| 0 <= k < |s.gens| && s.gens[k].phase == Waiting && s.gens[k].seqId == q;
      assert t.gens[k] == s.gens[k];
    }
    forall i | 0 <= i < |t.b.pending|
      ensures var r := t.b.pending[i]; r.gen < |t.gens| && Waits(t.gens[r.gen], t.b) && r.seqId == t.gens[r.gen].seqId
    {
      assert Waits(s.gens[s.b.pending[i].gen], s.b);
    }
  }

  lemma PrefillOwn(m: Llm, s: System, g: nat, ok: bool)
    requires g < |s.gens| && GenInv(m, s.b, s.gens[g], g) && Is(s, g, Acquired)
    ensures GenInv(m, PrefillOn(m, s, g, ok).b, PrefillOn(m, s, g, ok).gens[g], g)
  {
    hide ReqOf;
    var gen := s.gens[g];
    if ok {
      var t := PrefillOn(m, s, g, ok);
      var fed := seq(|gen.prompt|, i requires 0 <= i < |gen.prompt| => Entry(gen.prompt[i], PosOf(s.b, gen.seqId) + i));
      assert [] + fed == Fed(gen.prompt);
      assert MemoryOf(t.b, gen.seqId) == Fed(gen.prompt);
      assert gen.prompt + [] == gen.prompt;
      assert Solo(m, gen.prompt, gen.first, 0) == ([], gen.first);
      var (tok, sampler) := m.sample(gen.sampler, m.logits(Fed(gen.prompt)));
      assert Solo(m, gen.prompt, gen.first, 1) == ([] + [tok], sampler);
      assert [] + [tok] == [tok] == t.gens[g].produced && t.gens[g].produced[..0] == [];
    }
  }

  lemma PrefillKeeps(m: Llm, s: System, g: nat, ok: bool)
    requires Inv(m, s) && Enabled(s, Prefill(g, ok))
    ensures Inv(m, PrefillOn(m, s, g, ok))
  {
    hide Solo, Fed, ReqOf, GenInv;
    var t := PrefillOn(m, s, g, ok);
    forall k | 0 <= k < |t.gens| ensures GenInv(m, t.b, t.gens[k], k) {
      assert GenInv(m, s.b, s.gens[k], k);
      if k == g { PrefillOwn(m, s, g, ok); }
      else if Active(s.gens[k]) { GenSame(m, s.b, t.b, s.gens[k], k); }
      else { IdleIsFine(m, t.b, t.gens[k], k); }
    }
    OneQuiet(s, t, g);
  }

  lemma ReleaseKeeps(m: Llm, s: System, g: nat)
    requires Inv(m, s) && Enabled(s, Release(g))
    ensures Inv(m, ReleaseOn(s, g))
  {
    hide Solo, Fed, ReqOf, GenInv;
    var t := ReleaseOn(s, g);
    forall k | 0 <= k < |t.gens| ensures GenInv(m, t.b, t.gens[k], k) {
      assert GenInv(m, s.b, s.gens[k], k);
      if k != g && Active(s.gens[k]) { GenSame(m, s.b, t.b, s.gens[k], k); } else { IdleIsFine(m, t.b, t.gens[k], k); }
    }
    OneQuiet(s, t, g);
    ReleaseSeqs(s, g);
  }

  lemma ReleaseSeqs(s: System, g: nat)
    requires SeqInv(s) && g < |s.gens| && Active(s.gens[g])
    ensures SeqInv(ReleaseOn(s, g))
  {
  }

  lemma EnterGen(m: Llm, s: System, g: nat, k: nat)
    requires Inv(m, s) && Enabled(s, Enter(g)) && k < |s.gens|
    ensures var t := EnterOn(s, g); GenInv(m, t.b, t.gens[k], k)
  {
    hide Solo, Fed, ReqOf, Caught, Ahead;
    var t := EnterOn(s, g);
    var r := Req(s.gens[g].seqId, Last(s.gens[g]), g);
    assert GenInv(m, s.b, s.gens[k], k);
    ReqOfMore(s.b.pending, r, s.gens[k].seqId);
    if k == g {
      NoReq(m, s, g);
      NotOwed(m, s, g);
      CaughtSame(m, s.b, t.b, s.gens[g], t.gens[g]);
    } else if Active(s.gens[k]) {
      GenSame(m, s.b, t.b, s.gens[k], k);
    }
  }

  lemma CaughtSame(m: Llm, b: Batcher, c: Batcher, gen: Gen, gen': Gen)
    requires Caught(m, b, gen) && gen' == gen.(phase := gen'.phase) && b.memory == c.memory && b.nextPos == c.nextPos
    ensures Caught(m, c, gen')
  {
    hide Solo, Fed;
  }

  lemma EnterRound(m: Llm, s: System, g: nat)
    requires Inv(m, s) && Enabled(s, Enter(g))
    ensures RoundInv(EnterOn(s, g))
  {
    hide GensInv, ReqOf;
    var t := EnterOn(s, g);
    NotOwed(m, s, g);
    forall q | q in t.b.results ensures IsOwed(t, q) {
      assert IsOwed(s, q);
      var k :| 0 <= k < |s.gens| && s.gens[k].phase == Waiting && s.gens[k].seqId == q;
      assert t.gens[k] == s.gens[k];
    }
    forall i | 0 <= i < |t.b.pending|
      ensures var r := t.b.pending[i]; r.gen < |t.gens| && Waits(t.gens[r.gen], t.b) && r.seqId == t.gens[r.gen].seqId
      ensures i < |s.b.pending| ==> t.b.pending[i].gen != g
    {
      if i < |s.b.pending| { assert Waits(s.gens[s.b.pending[i].gen], s.b); }
    }
  }

  lemma EnterKeeps(m: Llm, s: System, g: nat)
    requires Inv(m, s) && Enabled(s, Enter(g))
    ensures Inv(m, EnterOn(s, g))
  {
    hide GenInv, RoundInv;
    forall k | 0 <= k < |s.gens| ensures var t := EnterOn(s, g); GenInv(m, t.b, t.gens[k], k) {
      EnterGen(m, s, g, k);
    }
    EnterRound(m, s, g);
  }

  lemma CollectKeeps(m: Llm, s: System, g: nat)
    requires Inv(m, s) && Enabled(s, Collect(g))
    ensures Inv(m, Taken(s, g))
  {
    hide Solo, Fed, ReqOf, SeqInv, RoundInv;
    var t := Taken(s, g);
    assert GenInv(m, s.b, s.gens[g], g);
    forall k | 0 <= k < |t.gens| ensures GenInv(m, t.b, t.gens[k], k) {
      assert GenInv(m, s.b, s.gens[k], k);
      if k == g { TakenOwn(m, s, g); } else if Active(s.gens[k]) { TakenOthers(m, s, g, k); }
    }
    TakenSeqs(s, g);
    CollectRound(m, s, g);
  }

  lemma CollectRound(m: Llm, s: System, g: nat)
    requires Inv(m, s) && Enabled(s, Collect(g))
    ensures RoundInv(Taken(s, g))
  {
    hide GensInv;
    var t := Taken(s, g);
    forall q | q in t.b.results ensures IsOwed(t, q) {
      assert IsOwed(s, q);
      var k :| 0 <= k < |s.gens| && s.gens[k].phase == Waiting && s.gens[k].seqId == q;
      assert t.gens[k] == s.gens[k];
    }
    forall i | 0 <= i < |t.b.pending|
      ensures var r := t.b.pending[i]; r.gen < |t.gens| && Waits(t.gens[r.gen], t.b) && r.seqId == t.gens[r.gen].seqId
    {
      assert Waits(s.gens[s.b.pending[i].gen], s.b);
    }
  }

  // ---- whole runs ----

  lemma StepKeeps(m: Llm, s: System, e: Step)
    requires Inv(m, s) && Enabled(s, e)
    ensures Inv(m, Next(m, s, e)) && Next(m, s, e).seqCtx == s.seqCtx
  {
    hide Inv, PrefillOn, EnterOn, Taken, ReleaseOn, BeginOn;
    SameContext(m, s, e);
    match e
    case Begin(_, _, _, _) => BeginKeeps(m, s, e);
    case Prefill(g, ok) => PrefillKeeps(m, s, g, ok);
    case Enter(g) => EnterKeeps(m, s, g);
    case Round(g, ok) => RoundKeeps(m, s, g, ok);
    case Collect(g) => CollectKeeps(m, s, g);
    case Release(g) => ReleaseKeeps(m, s, g);
  }

  lemma SameContext(m: Llm, s: System, e: Step)
    requires Enabled(s, e)
    ensures Next(m, s, e).seqCtx == s.seqCtx
  {
    hide ReqOf, Sampled, FedOne, OutcomeOf, GenAfter;
  }

  predicate Run(m: Llm, s: System, steps: seq<Step>)
    decreases |steps|
  {
    steps == [] || (Enabled(s, steps[0]) && Run(m, Next(m, s, steps[0]), steps[1..]))
  }

  function After(m: Llm, s: System, steps: seq<Step>): System
    requires Run(m, s, steps)
    decreases |steps|
  {
    if steps == [] then s else After(m, Next(m, s, steps[0]), steps[1..])
  }

  /** Sequence ids 0 to n - 1 are free, the smallest on top. */
  function Fresh(n: nat, seqCtx: nat): System {
    System(Batcher(seq(n, i requires 0 <= i < n => n - 1 - i), map[], [], None, map[], map[]), [], seqCtx)
  }

  lemma {:induction false} RunKeeps(m: Llm, s: System, steps: seq<Step>)
    requires Inv(m, s) && Run(m, s, steps)
    ensures Inv(m, After(m, s, steps)) && After(m, s, steps).seqCtx == s.seqCtx
    decreases |steps|
  {
    hide Inv, Enabled, Next;
    if steps != [] {
      StepKeeps(m, s, steps[0]);
      RunKeeps(m, Next(m, s, steps[0]), steps[1..]);
    }
  }

  /** In every reachable state, whatever ran beside it and however the rounds fell, a generation that has not failed has
      exactly the tokens it would have had alone. */
  lemma Transparent(m: Llm, n: nat, seqCtx: nat, steps: seq<Step>, g: nat)
    requires Run(m, Fresh(n, seqCtx), steps) && g < |After(m, Fresh(n, seqCtx), steps).gens|
    requires var gen := After(m, Fresh(n, seqCtx), steps).gens[g]; gen.phase != Idle && gen.phase != Failed
    ensures var s := After(m, Fresh(n, seqCtx), steps);
            var gen := s.gens[g];
            var served := gen.phase == Waiting && gen.seqId in s.b.results;
            && (!served ==> gen.produced == Solo(m, gen.prompt, gen.first, |gen.produced|).0)
            && (served && s.b.results[gen.seqId].ok ==>
                  gen.produced + [s.b.results[gen.seqId].token] == Solo(m, gen.prompt, gen.first, |gen.produced| + 1).0)
  {
    hide Run, After, SeqInv, RoundInv;
    FreshHolds(m, n, seqCtx);
    RunKeeps(m, Fresh(n, seqCtx), steps);
    var s := After(m, Fresh(n, seqCtx), steps);
    assert GenInv(m, s.b, s.gens[g], g);
  }

  lemma FreshHolds(m: Llm, n: nat, seqCtx: nat)
    ensures Inv(m, Fresh(n, seqCtx))
  {
  }

  /** The sequence of such a generation holds consecutive positions from 0, below the context size. */
  lemma PositionsInContext(m: Llm, n: nat, seqCtx: nat, steps: seq<Step>, g: nat)
    requires Run(m, Fresh(n, seqCtx), steps) && g < |After(m, Fresh(n, seqCtx), steps).gens|
    requires var s := After(m, Fresh(n, seqCtx), steps);
             var gen := s.gens[g];
             gen.phase != Idle && gen.phase != Failed
             && (gen.phase == Waiting && gen.seqId in s.b.results ==> s.b.results[gen.seqId].ok)
    ensures var s := After(m, Fresh(n, seqCtx), steps);
            var memory := MemoryOf(s.b, s.gens[g].seqId);
            |memory| <= seqCtx && |memory| == PosOf(s.b, s.gens[g].seqId) && forall i :: 0 <= i < |memory| ==>
              memory[i].pos == i
  {
    hide Run, After, RoundInv, Solo;
    FreshHolds(m, n, seqCtx);
    RunKeeps(m, Fresh(n, seqCtx), steps);
    var s := After(m, Fresh(n, seqCtx), steps);
    assert GenInv(m, s.b, s.gens[g], g);
  }

  /** Each call gets one result: results are only there for callers that wait for them, and a caller without one is in
      the open round, which somebody leads. */
  lemma OneResultEach(m: Llm, n: nat, seqCtx: nat, steps: seq<Step>, g: nat)
    requires Run(m, Fresh(n, seqCtx), steps) && g < |After(m, Fresh(n, seqCtx), steps).gens|
    requires After(m, Fresh(n, seqCtx), steps).gens[g].phase != Idle
    ensures var s := After(m, Fresh(n, seqCtx), steps);
            var gen := s.gens[g];
            && (gen.seqId in s.b.results ==> gen.phase == Waiting)
            && (gen.phase == Waiting && gen.seqId !in s.b.results ==>
                  && ReqOf(s.b.pending, gen.seqId) == Some(Req(gen.seqId, Last(gen), g))
                  && s.b.leader.Some? && Is(s, s.b.leader.value, Leading))
  {
    hide Run, After, Solo, Fed, ReqOf;
    FreshHolds(m, n, seqCtx);
    RunKeeps(m, Fresh(n, seqCtx), steps);
    var s := After(m, Fresh(n, seqCtx), steps);
    var gen := s.gens[g];
    assert GenInv(m, s.b, gen, g);
    if gen.phase != Waiting { NotOwed(m, s, g); }
    else if gen.seqId !in s.b.results { assert s.b.pending != []; }
  }
}
