/** The decoding calls as the batcher makes them: a round over all joined sequences, and a prompt in chunks. */
module BatchRounds {
  import opened Options
  import opened Batching

  datatype Row = Row(token: Token, pos: nat, seqId: nat)

  type Memory = map<nat, seq<Entry>>

  function Held(memory: Memory, q: nat): seq<Entry> {
    if q in memory then memory[q] else []
  }

  /** Decoding a batch: each row extends its own sequence and gets the logits of that sequence then. */
  function DecodeRows(m: Llm, memory: Memory, batch: seq<Row>): (r: (Memory, seq<Logits>))
    ensures |r.1| == |batch|
  {
    if batch == [] then (memory, []) else
    var n := |batch| - 1;
    var before := DecodeRows(m, memory, batch[..n]);
    var row := batch[n];
    var held := Held(before.0, row.seqId) + [Entry(row.token, row.pos)];
    (before.0[row.seqId := held], before.1 + [m.logits(held)])
  }

  predicate Apart(batch: seq<Row>) {
    forall i, j :: 0 <= i < j < |batch| ==> batch[i].seqId != batch[j].seqId
  }

  ghost predicate NotFed(batch: seq<Row>, q: nat) {
    forall i :: 0 <= i < |batch| ==> batch[i].seqId != q
  }

  /** What the last row of a batch does. */
  lemma LastRow(m: Llm, memory: Memory, batch: seq<Row>)
    requires batch != []
    ensures var n := |batch| - 1;
            var before, r := DecodeRows(m, memory, batch[..n]), DecodeRows(m, memory, batch);
            var held := Held(before.0, batch[n].seqId) + [Entry(batch[n].token, batch[n].pos)];
            && Held(r.0, batch[n].seqId) == held && r.1 == before.1 + [m.logits(held)]
            && forall q: nat :: q != batch[n].seqId ==> Held(r.0, q) == Held(before.0, q)
  {
  }

  /** When no sequence is twice in the batch, no row sees another. */
  lemma {:induction false} RowsApart(m: Llm, memory: Memory, batch: seq<Row>)
    requires Apart(batch)
    ensures var r := DecodeRows(m, memory, batch);
            && (forall i :: 0 <= i < |batch| ==>
                  var held := Held(memory, batch[i].seqId) + [Entry(batch[i].token, batch[i].pos)];
                  r.1[i] == m.logits(held) && Held(r.0, batch[i].seqId) == held)
            && (forall q: nat :: NotFed(batch, q) ==> Held(r.0, q) == Held(memory, q))
    decreases |batch|
  {
    if batch != [] {
      var n := |batch| - 1;
      var front := batch[..n];
      RowsApart(m, memory, front);
      LastRow(m, memory, batch);
      hide DecodeRows, Held;
      assert NotFed(front, batch[n].seqId);
      assert forall i :: 0 <= i < n ==> front[i] == batch[i];
      var r := DecodeRows(m, memory, batch);
      forall q: nat | NotFed(batch, q) ensures Held(r.0, q) == Held(memory, q) {
        assert batch[n].seqId != q;
        assert NotFed(front, q);
      }
    }
  }

  class Rounds {
    var nextPos: map<nat, nat>
    var pending: seq<Req>
    var results: map<nat, Outcome>
    var memory: Memory
    var samplers: seq<Sampler>

    /** No sequence and no caller is twice in a round. */
    ghost predicate Valid()
      reads this
    {
      Distinct(pending) && forall i :: 0 <= i < |pending| ==> pending[i].gen < |samplers|
    }

    ghost function View(): Batcher
      reads this
    {
      Batcher([], nextPos, pending, None, results, memory)
    }

    /** The leader's part of a round: the requests, in the order they joined, become rows of one batch. */
    method BuildBatch(round: seq<Req>) returns (batch: seq<Row>)
      ensures |batch| == |round|
      ensures forall i :: 0 <= i < |round| ==> batch[i] == Row(round[i].token, PosOf(View(), round[i].seqId),
                                                               round[i].seqId)
    {
      batch := [];
      for i := 0 to |round|
        invariant |batch| == i
        invariant forall k :: 0 <= k < i ==> batch[k] == Row(round[k].token, PosOf(View(), round[k].seqId),
                                                             round[k].seqId)
      {
        var pos := if round[i].seqId in nextPos then nextPos[round[i].seqId] else 0;
        batch := batch + [Row(round[i].token, pos, round[i].seqId)];
      }
    }

    /** Every joined caller gets one result, drawn with its own sampler from its own row, and its sequence moves on by
        one position; nobody else is touched. `ok` is what decoding returned. */
    method Lead(m: Llm, ok: bool)
      requires Valid()
      modifies this
      ensures pending == []
      ensures RoundDone(m, old(View()), old(samplers), View(), samplers, old(pending), ok)
    {
      hide DecodeRows, DealAll, FedOne;
      var round := pending;
      ghost var before := View();
      var batch := BuildBatch(round);
      pending := [];
      var rows := seq(|round|, i => 0);
      if ok {
        var (after, logits) := DecodeRows(m, memory, batch);
        memory, rows := after, logits;
        RoundDecoded(m, before, View(), round, batch);
      }
      HandOut(m, round, rows, ok);
      DealtApart(m, Dealt(before.nextPos, before.results, old(samplers)), round, rows, ok);
      RoundIsDone(m, before, old(samplers), View(), samplers, round, rows, ok);
    }

    method HandOne(m: Llm, r: Req, row: Logits, ok: bool)
      requires r.gen < |samplers|
      modifies `nextPos, `results, `samplers
      ensures Dealt(nextPos, results, samplers) == DealOne(m, old(Dealt(nextPos, results, samplers)), r, row, ok)
    {
      nextPos := nextPos[r.seqId := (if r.seqId in nextPos then nextPos[r.seqId] else 0) + 1];
      if ok {
        var (t, s) := m.sample(samplers[r.gen], row);
        results := results[r.seqId := Outcome(true, t)];
        samplers := samplers[r.gen := s];
      } else {
        results := results[r.seqId := Outcome(false, 0)];
      }
    }

    method HandOut(m: Llm, round: seq<Req>, rows: seq<Logits>, ok: bool)
      requires |rows| == |round| && forall i :: 0 <= i < |round| ==> round[i].gen < |samplers|
      modifies `nextPos, `results, `samplers
      ensures Dealt(nextPos, results, samplers) == DealAll(m, old(Dealt(nextPos, results, samplers)), round, rows, ok)
    {
      ghost var start := Dealt(nextPos, results, samplers);
      for i := 0 to |round|
        invariant |samplers| == |old(samplers)|
        invariant Dealt(nextPos, results, samplers) == DealAll(m, start, round[..i], rows[..i], ok)
      {
        assert round[..i + 1][..i] == round[..i] && rows[..i + 1][..i] == rows[..i];
        HandOne(m, round[i], rows[i], ok);
      }
      assert round[..|round|] == round && rows[..|rows|] == rows;
    }

    /** A prompt goes in by chunks of at most `nBatch` tokens; `decodes` says which of them the context accepts, by
        where they start. If all are accepted, they leave what decoding the prompt at once would leave. */
    method DecodePrompt(q: nat, tokens: seq<Token>, nBatch: nat, decodes: nat -> bool) returns (ok: bool)
      modifies `memory, `nextPos
      ensures ok ==>
        && memory == old(memory)[q := Held(old(memory), q) + Placed(tokens, PosOf(old(View()), q))]
        && nextPos == old(nextPos)[q := PosOf(old(View()), q) + |tokens|]
      ensures !ok ==> nextPos == old(nextPos) && memory - {q} == old(memory) - {q}
      ensures tokens == [] ==> !ok
      ensures tokens != [] && (forall i :: 0 <= i < |tokens| ==> decodes(i)) ==> ok
    {
      hide Placed;
      if tokens == [] { return false; }
      var chunk := if nBatch < 1 then 1 else nBatch;
      var first := if q in nextPos then nextPos[q] else 0;
      ghost var start := Held(memory, q);
      var begin := 0;
      PlacedNone(start, first);
      while begin < |tokens|
        invariant begin <= |tokens| && nextPos == old(nextPos)
        invariant Held(memory, q) == start + Placed(tokens[..begin], first)
        invariant begin == 0 ==> memory == old(memory)
        invariant begin > 0 ==> memory == old(memory)[q := Held(memory, q)]
        decreases |tokens| - begin
      {
        if !decodes(begin) { return false; }
        var n := if chunk < |tokens| - begin then chunk else |tokens| - begin;
        PlacedMore(start, tokens, begin, n, first);
        memory := memory[q := Held(memory, q) + Placed(tokens[begin..begin + n], first + begin)];
        begin := begin + n;
      }
      assert tokens[..|tokens|] == tokens;
      nextPos := nextPos[q := first + |tokens|];
      ok := true;
    }
  }

  lemma PlacedNone(start: seq<Entry>, first: nat)
    ensures start + Placed([], first) == start
  {
  }

  lemma PlacedMore(start: seq<Entry>, tokens: seq<Token>, begin: nat, n: nat, first: nat)
    requires begin + n <= |tokens|
    ensures start + Placed(tokens[..begin], first) + Placed(tokens[begin..begin + n], first + begin)
         == start + Placed(tokens[..begin + n], first)
  {
  }

  function Placed(tokens: seq<Token>, pos: nat): seq<Entry> {
    seq(|tokens|, i requires 0 <= i < |tokens| => Entry(tokens[i], pos + i))
  }

  // ---- handing out the results ----

  datatype Dealt = Dealt(nextPos: map<nat, nat>, results: map<nat, Outcome>, samplers: seq<Sampler>)

  function At(nextPos: map<nat, nat>, q: nat): nat {
    if q in nextPos then nextPos[q] else 0
  }

  function DealOne(m: Llm, d: Dealt, r: Req, row: Logits, ok: bool): Dealt
    requires r.gen < |d.samplers|
  {
    var pos := d.nextPos[r.seqId := At(d.nextPos, r.seqId) + 1];
    if ok then
      var (t, s) := m.sample(d.samplers[r.gen], row);
      Dealt(pos, d.results[r.seqId := Outcome(true, t)], d.samplers[r.gen := s])
    else Dealt(pos, d.results[r.seqId := Outcome(false, 0)], d.samplers)
  }

  function DealAll(m: Llm, d: Dealt, round: seq<Req>, rows: seq<Logits>, ok: bool): (t: Dealt)
    requires |rows| == |round| && forall i :: 0 <= i < |round| ==> round[i].gen < |d.samplers|
    ensures |t.samplers| == |d.samplers|
    decreases |round|
  {
    if round == [] then d else
    var n := |round| - 1;
    DealOne(m, DealAll(m, d, round[..n], rows[..n], ok), round[n], rows[n], ok)
  }

  predicate Distinct(round: seq<Req>) {
    forall i, j :: 0 <= i < j < |round| ==> round[i].gen != round[j].gen && round[i].seqId != round[j].seqId
  }

  ghost predicate DealtTo(m: Llm, d: Dealt, t: Dealt, r: Req, row: Logits, ok: bool) {
    && r.gen < |d.samplers| == |t.samplers| && r.seqId in t.results
    && At(t.nextPos, r.seqId) == At(d.nextPos, r.seqId) + 1
    && (ok ==>
          && (t.results[r.seqId].token, t.samplers[r.gen]) == m.sample(d.samplers[r.gen], row)
          && t.results[r.seqId].ok)
    && (!ok ==> t.results[r.seqId] == Outcome(false, 0) && t.samplers[r.gen] == d.samplers[r.gen])
  }

  ghost predicate SeqUntouched(d: Dealt, t: Dealt, q: nat) {
    && At(t.nextPos, q) == At(d.nextPos, q) && (q in t.results <==> q in d.results)
    && (q in t.results ==> t.results[q] == d.results[q])
  }

  ghost predicate NoneOf(round: seq<Req>, q: nat) {
    forall i :: 0 <= i < |round| ==> round[i].seqId != q
  }

  ghost predicate NotIn(round: seq<Req>, g: nat) {
    forall i :: 0 <= i < |round| ==> round[i].gen != g
  }

  /** What handing out one result does. */
  lemma OneDealt(m: Llm, d: Dealt, r: Req, row: Logits, ok: bool)
    requires r.gen < |d.samplers|
    ensures var t := DealOne(m, d, r, row, ok);
            && DealtTo(m, d, t, r, row, ok)
            && (forall q: nat :: q != r.seqId ==> SeqUntouched(d, t, q))
            && (forall g :: 0 <= g < |d.samplers| && g != r.gen ==> t.samplers[g] == d.samplers[g])
  {
  }

  /** What the last request of a round does. */
  lemma LastDealt(m: Llm, d: Dealt, round: seq<Req>, rows: seq<Logits>, ok: bool)
    requires |rows| == |round| > 0 && forall i :: 0 <= i < |round| ==> round[i].gen < |d.samplers|
    ensures var n := |round| - 1;
            var u, t := DealAll(m, d, round[..n], rows[..n], ok), DealAll(m, d, round, rows, ok);
            && DealtTo(m, u, t, round[n], rows[n], ok)
            && (forall q: nat :: q != round[n].seqId ==> SeqUntouched(u, t, q))
            && (forall g :: 0 <= g < |d.samplers| && g != round[n].gen ==> t.samplers[g] == u.samplers[g])
  {
    hide DealOne, DealtTo, SeqUntouched;
    var n := |round| - 1;
    OneDealt(m, DealAll(m, d, round[..n], rows[..n], ok), round[n], rows[n], ok);
  }

  /** Who was served stays so when somebody else is, and is served alike when somebody else was. */
  lemma ServedOnce(m: Llm, d: Dealt, u: Dealt, t: Dealt, r: Req, row: Logits, ok: bool)
    requires r.gen < |d.samplers| == |u.samplers| == |t.samplers|
    ensures DealtTo(m, d, u, r, row, ok) && SeqUntouched(u, t, r.seqId) && t.samplers[r.gen] == u.samplers[r.gen] ==>
      DealtTo(m, d, t, r, row, ok)
    ensures SeqUntouched(d, u, r.seqId) && u.samplers[r.gen] == d.samplers[r.gen] && DealtTo(m, u, t, r, row, ok) ==>
      DealtTo(m, d, t, r, row, ok)
  {
  }

  lemma UntouchedTwice(d: Dealt, u: Dealt, t: Dealt, q: nat)
    requires SeqUntouched(d, u, q) && SeqUntouched(u, t, q)
    ensures SeqUntouched(d, t, q)
  {
  }

  lemma {:induction false} DealtApart(m: Llm, d: Dealt, round: seq<Req>, rows: seq<Logits>, ok: bool)
    requires |rows| == |round| && Distinct(round) && forall i :: 0 <= i < |round| ==> round[i].gen < |d.samplers|
    ensures var t := DealAll(m, d, round, rows, ok);
            && (forall i :: 0 <= i < |round| ==> DealtTo(m, d, t, round[i], rows[i], ok))
            && (forall q: nat :: NoneOf(round, q) ==> SeqUntouched(d, t, q))
            && (forall g :: 0 <= g < |d.samplers| && NotIn(round, g) ==> t.samplers[g] == d.samplers[g])
    decreases |round|
  {
    if round != [] {
      var n := |round| - 1;
      var front, r := round[..n], round[n];
      DealtApart(m, d, front, rows[..n], ok);
      var u := DealAll(m, d, front, rows[..n], ok);
      var t := DealAll(m, d, round, rows, ok);
      LastDealt(m, d, round, rows, ok);
      hide DealOne, DealtTo, SeqUntouched;
      assert NoneOf(front, r.seqId) && NotIn(front, r.gen);
      forall i | 0 <= i < |round| ensures DealtTo(m, d, t, round[i], rows[i], ok) {
        ServedOnce(m, d, u, t, round[i], rows[i], ok);
        if i < n { assert DealtTo(m, d, u, front[i], rows[..n][i], ok); }
      }
      forall q: nat | NoneOf(round, q) ensures SeqUntouched(d, t, q) {
        assert r.seqId != q && NoneOf(front, q);
        UntouchedTwice(d, u, t, q);
      }
      forall g | 0 <= g < |d.samplers| && NotIn(round, g) ensures t.samplers[g] == d.samplers[g] {
        assert r.gen != g && NotIn(front, g);
      }
    }
  }

  /** What decoding the batch of a round leaves: each request's row and memory are those of its own sequence. */
  lemma RoundDecoded(m: Llm, before: Batcher, after: Batcher, round: seq<Req>, batch: seq<Row>)
    requires Distinct(round) && |batch| == |round|
    requires forall i :: 0 <= i < |round| ==>
      batch[i] == Row(round[i].token, PosOf(before, round[i].seqId), round[i].seqId)
    requires after.memory == DecodeRows(m, before.memory, batch).0
    ensures var rows := DecodeRows(m, before.memory, batch).1;
            forall i :: 0 <= i < |round| ==>
              && rows[i] == m.logits(FedOne(before, round[i]))
              && MemoryOf(after, round[i].seqId) == FedOne(before, round[i])
    ensures forall q: nat :: NoneOf(round, q) ==> MemoryOf(after, q) == MemoryOf(before, q)
  {
    hide DecodeRows;
    RowsApart(m, before.memory, batch);
    assert forall q: nat :: NoneOf(round, q) ==> NotFed(batch, q);
  }

  /** The request's caller was served: token, sampler, position and memory are those of its own sequence. */
  ghost predicate Served(m: Llm, before: Batcher, was: seq<Sampler>, after: Batcher, samplers: seq<Sampler>, r: Req,
                         ok: bool) {
    && r.gen < |was| == |samplers| && r.seqId in after.results && PosOf(after, r.seqId) == PosOf(before, r.seqId) + 1
    && after.results[r.seqId] == (if ok then Outcome(true, Sampled(m, before, r, was[r.gen]).0) else Outcome(false, 0))
    && samplers[r.gen] == (if ok then Sampled(m, before, r, was[r.gen]).1 else was[r.gen])
    && MemoryOf(after, r.seqId) == if ok then FedOne(before, r) else MemoryOf(before, r.seqId)
  }

  ghost predicate RoundDone(m: Llm, before: Batcher, was: seq<Sampler>, after: Batcher, samplers: seq<Sampler>,
                            round: seq<Req>, ok: bool) {
    && |samplers| == |was|
    && (forall i :: 0 <= i < |round| ==> Served(m, before, was, after, samplers, round[i], ok))
    && (forall q: nat :: NoneOf(round, q) ==>
          && MemoryOf(after, q) == MemoryOf(before, q) && PosOf(after, q) == PosOf(before, q)
          && (q in after.results <==> q in before.results)
          && (q in after.results ==> after.results[q] == before.results[q]))
    && (forall g :: 0 <= g < |was| && NotIn(round, g) ==> samplers[g] == was[g])
  }

  lemma RoundIsDone(m: Llm, before: Batcher, was: seq<Sampler>, after: Batcher, samplers: seq<Sampler>,
                    round: seq<Req>, rows: seq<Logits>, ok: bool)
    requires |rows| == |round| && |samplers| == |was| && forall i :: 0 <= i < |round| ==> round[i].gen < |was|
    requires var d := Dealt(before.nextPos, before.results, was);
             var t := Dealt(after.nextPos, after.results, samplers);
             && (forall i :: 0 <= i < |round| ==> DealtTo(m, d, t, round[i], rows[i], ok))
             && (forall q: nat :: NoneOf(round, q) ==> SeqUntouched(d, t, q))
             && (forall g :: 0 <= g < |was| && NotIn(round, g) ==> samplers[g] == was[g])
    requires !ok ==> after.memory == before.memory
    requires ok ==>
      && (forall i :: 0 <= i < |round| ==>
            && rows[i] == m.logits(FedOne(before, round[i]))
            && MemoryOf(after, round[i].seqId) == FedOne(before, round[i]))
      && (forall q: nat :: NoneOf(round, q) ==> MemoryOf(after, q) == MemoryOf(before, q))
    ensures RoundDone(m, before, was, after, samplers, round, ok)
  {
    forall i | 0 <= i < |round| ensures Served(m, before, was, after, samplers, round[i], ok) {
      assert DealtTo(m, Dealt(before.nextPos, before.results, was), Dealt(after.nextPos, after.results, samplers),
                     round[i], rows[i], ok);
    }
    forall q: nat | NoneOf(round, q)
      ensures MemoryOf(after, q) == MemoryOf(before, q) && PosOf(after, q) == PosOf(before, q)
      ensures (q in after.results <==> q in before.results)
      ensures (q in after.results ==> after.results[q] == before.results[q])
    {
      assert SeqUntouched(Dealt(before.nextPos, before.results, was), Dealt(after.nextPos, after.results, samplers), q);
    }
  }
}
