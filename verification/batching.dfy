/** Concurrent generations that share one decoding context through rounds: whoever finds no round open leads one. */
module Batching {
  import opened Options

  type Token = int
  type Logits = int
  type Sampler = int

  datatype Entry = Entry(token: Token, pos: nat)

  /** The model, which sees one sequence's own tokens and positions, and the sampler, which carries its own state. */
  datatype Llm = Llm(logits: seq<Entry> -> Logits, sample: (Sampler, Logits) -> (Token, Sampler))

  /** Tokens at consecutive positions from 0. */
  function Fed(tokens: seq<Token>): seq<Entry> {
    seq(|tokens|, i requires 0 <= i < |tokens| => Entry(tokens[i], i))
  }

  /** The first `k` tokens of a generation that runs alone, and its sampler then. */
  function Solo(m: Llm, prompt: seq<Token>, first: Sampler, k: nat): (seq<Token>, Sampler) {
    if k == 0 then ([], first) else
    var before := Solo(m, prompt, first, k - 1);
    var (t, s) := m.sample(before.1, m.logits(Fed(prompt + before.0)));
    (before.0 + [t], s)
  }

  // ---- the shared state ----

  datatype Req = Req(seqId: nat, token: Token, gen: nat)
  datatype Outcome = Outcome(ok: bool, token: Token)

  datatype Phase = Idle | Acquired | Ready | Leading | Waiting | Failed

  /** A generation; `produced` is what prefill and the rounds gave it, `first` its sampler at the start. */
  datatype Gen = Gen(phase: Phase, seqId: nat, prompt: seq<Token>, maxTokens: nat, sampler: Sampler,
                     produced: seq<Token>, first: Sampler)

  /** `leader` is the generation whose round is open. */
  datatype Batcher = Batcher(
    free: seq<nat>, nextPos: map<nat, nat>, pending: seq<Req>, leader: Option<nat>, results: map<nat, Outcome>,
    memory: map<nat, seq<Entry>>)

  datatype System = System(b: Batcher, gens: seq<Gen>, seqCtx: nat)

  datatype Step =
    | Begin(g: nat, prompt: seq<Token>, maxTokens: nat, first: Sampler)
    | Prefill(g: nat, ok: bool)
    | Enter(g: nat)                     // next_token up to its first wait
    | Round(g: nat, ok: bool)           // the leader after its debounce
    | Collect(g: nat)                   // a follower with a result
    | Release(g: nat)

  function Last(gen: Gen): Token {
    if gen.produced == [] then 0 else gen.produced[|gen.produced| - 1]
  }

  predicate Is(s: System, g: nat, p: Phase) {
    g < |s.gens| && s.gens[g].phase == p
  }

  predicate Enabled(s: System, e: Step) {
    match e
    case Begin(g, prompt, maxTokens, _) =>
      (g < |s.gens| ==> s.gens[g].phase == Idle) && g <= |s.gens| && s.b.free != []
      && |prompt| < s.seqCtx && |prompt| + maxTokens <= s.seqCtx
    case Prefill(g, ok) => Is(s, g, Acquired) && (ok ==> s.gens[g].prompt != [])
    case Enter(g) => Is(s, g, Ready) && |s.gens[g].produced| <= s.gens[g].maxTokens
    case Round(g, _) => Is(s, g, Leading)
    case Collect(g) => Is(s, g, Waiting) && s.gens[g].seqId in s.b.results
    case Release(g) => Is(s, g, Ready) || Is(s, g, Failed)
  }

  function At(s: System, g: nat, gen: Gen): System
    requires g < |s.gens|
  {
    s.(gens := s.gens[g := gen])
  }

  function ReqOf(pending: seq<Req>, seqId: nat): (r: Option<Req>)
    ensures r.Some? ==> r.value in pending && r.value.seqId == seqId
    ensures r.None? ==> forall i :: 0 <= i < |pending| ==> pending[i].seqId != seqId
  {
    if pending == [] then None
    else if pending[0].seqId == seqId then Some(pending[0])
    else
      var later := ReqOf(pending[1..], seqId);
      assert later.None? ==> forall i :: 1 <= i < |pending| ==> pending[i] == pending[1..][i - 1];
      later
  }

  function MemoryOf(b: Batcher, seqId: nat): seq<Entry> {
    if seqId in b.memory then b.memory[seqId] else []
  }

  function PosOf(b: Batcher, seqId: nat): nat {
    if seqId in b.nextPos then b.nextPos[seqId] else 0
  }

  /** A sequence after its row of the round. */
  function FedOne(b: Batcher, r: Req): seq<Entry> {
    MemoryOf(b, r.seqId) + [Entry(r.token, PosOf(b, r.seqId))]
  }

  function Sampled(m: Llm, b: Batcher, r: Req, sampler: Sampler): (Token, Sampler) {
    m.sample(sampler, m.logits(FedOne(b, r)))
  }

  /** The generation that gets the row's token also has its sampler moved on. */
  function GenAfter(m: Llm, b: Batcher, gen: Gen, g: nat, ok: bool): Gen {
    var r := ReqOf(b.pending, gen.seqId);
    if ok && (gen.phase == Waiting || gen.phase == Leading) && r.Some? && r.value.gen == g
    then gen.(sampler := Sampled(m, b, r.value, gen.sampler).1)
    else gen
  }

  function OutcomeOf(m: Llm, s: System, r: Req, ok: bool): Outcome {
    if ok && r.gen < |s.gens| then Outcome(true, Sampled(m, s.b, r, s.gens[r.gen].sampler).0) else Outcome(ok, 0)
  }

  /** One round: every pending sequence is fed its own token at its own position and sampled from its own row. */
  function RoundOf(m: Llm, s: System, ok: bool): System {
    var b := s.b;
    var inRound := set r <- b.pending :: r.seqId;
    s.(gens := seq(|s.gens|, g requires 0 <= g < |s.gens| => GenAfter(m, b, s.gens[g], g, ok)),
       b := Batcher(
         b.free,
         map q | q in b.nextPos.Keys + inRound :: PosOf(b, q) + if ReqOf(b.pending, q).Some? then 1 else 0,
         [], None,
         map q | q in b.results.Keys + inRound ::
           if ReqOf(b.pending, q).Some? then OutcomeOf(m, s, ReqOf(b.pending, q).value, ok)
           else if q in b.results then b.results[q] else Outcome(false, 0),
         map q | q in b.memory.Keys + inRound ::
           if ok && ReqOf(b.pending, q).Some? then FedOne(b, ReqOf(b.pending, q).value) else MemoryOf(b, q)))
  }

  /** The caller takes its result. */
  function Taken(s: System, g: nat): System
    requires g < |s.gens| && s.gens[g].seqId in s.b.results
  {
    var gen := s.gens[g];
    var r := s.b.results[gen.seqId];
    At(s, g, if r.ok then gen.(phase := Ready, produced := gen.produced + [r.token]) else gen.(phase := Failed)).(
      b := s.b.(results := s.b.results - {gen.seqId}))
  }

  function BeginOn(s: System, e: Step): System
    requires e.Begin? && e.g <= |s.gens| && s.b.free != []
  {
    var n := |s.b.free| - 1;
    var q := s.b.free[n];
    var gen := Gen(Acquired, q, e.prompt, e.maxTokens, e.first, [], e.first);
    System(s.b.(free := s.b.free[..n], memory := s.b.memory[q := []], nextPos := s.b.nextPos[q := 0]),
           if e.g < |s.gens| then s.gens[e.g := gen] else s.gens + [gen], s.seqCtx)
  }

  function PrefillOn(m: Llm, s: System, g: nat, ok: bool): System
    requires g < |s.gens|
  {
    var gen := s.gens[g];
    if !ok then At(s, g, gen.(phase := Failed)) else
    var at := PosOf(s.b, gen.seqId);
    var fed := seq(|gen.prompt|, i requires 0 <= i < |gen.prompt| => Entry(gen.prompt[i], at + i));
    var memory := MemoryOf(s.b, gen.seqId) + fed;
    var (t, sampler) := m.sample(gen.sampler, m.logits(memory));
    At(s, g, gen.(phase := Ready, sampler := sampler, produced := [t])).(
      b := s.b.(memory := s.b.memory[gen.seqId := memory],
                nextPos := s.b.nextPos[gen.seqId := PosOf(s.b, gen.seqId) + |gen.prompt|]))
  }

  function EnterOn(s: System, g: nat): System
    requires g < |s.gens|
  {
    var gen := s.gens[g];
    At(s, g, gen.(phase := if s.b.leader.Some? then Waiting else Leading)).(
      b := s.b.(pending := s.b.pending + [Req(gen.seqId, Last(gen), g)],
                leader := if s.b.leader.Some? then s.b.leader else Some(g)))
  }

  function ReleaseOn(s: System, g: nat): System
    requires g < |s.gens|
  {
    var q := s.gens[g].seqId;
    At(s, g, s.gens[g].(phase := Idle)).(b := s.b.(nextPos := s.b.nextPos - {q}, free := s.b.free + [q]))
  }

  function Next(m: Llm, s: System, e: Step): System
    requires Enabled(s, e)
  {
    match e
    case Begin(_, _, _, _) => BeginOn(s, e)
    case Prefill(g, ok) => PrefillOn(m, s, g, ok)
    case Enter(g) => EnterOn(s, g)
    case Round(g, ok) =>
      var t := RoundOf(m, s, ok);
      if t.gens[g].seqId in t.b.results then Taken(t, g) else t
    case Collect(g) => Taken(s, g)
    case Release(g) => ReleaseOn(s, g)
  }

  // ---- what holds in every state ----

  predicate Active(gen: Gen) {
    gen.phase != Idle
  }

  /** Fed all but the last token it has, alone as far as it can tell. */
  predicate Caught(m: Llm, b: Batcher, gen: Gen) {
    var k := |gen.produced|;
    && 1 <= k <= gen.maxTokens + 1
    && Solo(m, gen.prompt, gen.first, k) == (gen.produced, gen.sampler)
    && MemoryOf(b, gen.seqId) == Fed(gen.prompt + gen.produced[..k - 1]) && PosOf(b, gen.seqId) == |gen.prompt| + k - 1
  }

  /** Fed its last token too; `t` is the next one. */
  predicate Ahead(m: Llm, b: Batcher, gen: Gen, t: Token) {
    var k := |gen.produced|;
    && 1 <= k <= gen.maxTokens
    && Solo(m, gen.prompt, gen.first, k + 1) == (gen.produced + [t], gen.sampler)
    && MemoryOf(b, gen.seqId) == Fed(gen.prompt + gen.produced) && PosOf(b, gen.seqId) == |gen.prompt| + k
  }

  predicate Asks(b: Batcher, gen: Gen, g: nat) {
    ReqOf(b.pending, gen.seqId) == Some(Req(gen.seqId, Last(gen), g))
  }

  predicate GenInv(m: Llm, b: Batcher, gen: Gen, g: nat) {
    match gen.phase
    case Idle => true
    case Acquired => gen.produced == [] && gen.sampler == gen.first && MemoryOf(b, gen.seqId) == [] &&
      PosOf(b, gen.seqId) == 0
    case Ready => Caught(m, b, gen)
    case Leading => Caught(m, b, gen) && |gen.produced| <= gen.maxTokens && Asks(b, gen, g)
    case Waiting =>
      if gen.seqId in b.results then b.results[gen.seqId].ok ==> Ahead(m, b, gen, b.results[gen.seqId].token)
      else Caught(m, b, gen) && |gen.produced| <= gen.maxTokens && Asks(b, gen, g)
    case Failed => true
  }

  /** Sequences in use are used by one generation and are not free. */
  predicate SeqInv(s: System) {
    && (forall i, j :: 0 <= i < j < |s.gens| && Active(s.gens[i]) && Active(s.gens[j]) ==>
        s.gens[i].seqId != s.gens[j].seqId)
    && (forall i :: 0 <= i < |s.gens| && Active(s.gens[i]) ==> s.gens[i].seqId !in s.b.free)
    && (forall i, j :: 0 <= i < j < |s.b.free| ==> s.b.free[i] != s.b.free[j])
    && (forall i :: 0 <= i < |s.gens| && Active(s.gens[i]) ==>
          |s.gens[i].prompt| < s.seqCtx && |s.gens[i].prompt| + s.gens[i].maxTokens <= s.seqCtx)
  }

  predicate Waits(gen: Gen, b: Batcher) {
    gen.phase == Leading || (gen.phase == Waiting && gen.seqId !in b.results)
  }

  predicate IsOwed(s: System, q: nat) {
    exists g :: 0 <= g < |s.gens| && s.gens[g].phase == Waiting && s.gens[g].seqId == q
  }

  predicate PendingInv(s: System) {
    && (forall i :: 0 <= i < |s.b.pending| ==>
          var r := s.b.pending[i]; r.gen < |s.gens| && Waits(s.gens[r.gen], s.b) && r.seqId == s.gens[r.gen].seqId)
    && (forall i, j :: 0 <= i < j < |s.b.pending| ==> s.b.pending[i].gen != s.b.pending[j].gen)
    && (s.b.leader.None? ==> s.b.pending == [])
  }

  predicate LeaderInv(s: System) {
    && (s.b.leader.Some? ==> Is(s, s.b.leader.value, Leading))
    && (forall g :: 0 <= g < |s.gens| && s.gens[g].phase == Leading ==> s.b.leader == Some(g))
  }

  /** Requests and results belong to generations that wait for them; a round is open exactly while somebody leads it. */
  predicate RoundInv(s: System) {
    PendingInv(s) && LeaderInv(s) && forall q <- s.b.results :: IsOwed(s, q)
  }

  predicate GensInv(m: Llm, s: System) {
    forall g :: 0 <= g < |s.gens| ==> GenInv(m, s.b, s.gens[g], g)
  }

  predicate Inv(m: Llm, s: System) {
    GensInv(m, s) && SeqInv(s) && RoundInv(s)
  }
}
