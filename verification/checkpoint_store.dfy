/** Checkpoints and event logs kept in a key-value store that can neither list nor delete keys. */
module CheckpointStore {
  import opened Options

  type Thread = string
  type Event = int

  // ---- numbers in decimal ----

  /** The largest step, count or time there is. */
  const LAST: nat := 0xFFFF_FFFF_FFFF_FFFF

  type Word = n: nat | n <= LAST

  /** Counting past the largest number starts again at zero. */
  function Next(n: Word): Word {
    if n == LAST then 0 else n + 1
  }

  function Digit(d: nat): (c: char)
    requires d < 10
  {
    '0' + d as char
  }

  predicate Digits(s: string) {
    forall i :: 0 <= i < |s| ==> '0' <= s[i] <= '9'
  }

  function Decimal(n: nat): (s: string)
    ensures s != [] && Digits(s)
  {
    if n < 10 then [Digit(n)] else Decimal(n / 10) + [Digit(n % 10)]
  }

  function Parsed(s: string): nat
    requires Digits(s)
  {
    if s == [] then 0 else 10 * Parsed(s[..|s| - 1]) + (s[|s| - 1] - '0') as nat
  }

  lemma {:induction false} DecimalBack(n: nat)
    ensures Parsed(Decimal(n)) == n
  {
    var s := Decimal(n);
    if n >= 10 {
      assert s[..|s| - 1] == Decimal(n / 10);
      DecimalBack(n / 10);
    } else {
      assert s[..0] == [];
    }
  }

  /** The length of the leading digits. */
  function Leading(s: string): (n: nat)
    ensures n <= |s| && Digits(s[..n]) && (n < |s| ==> !('0' <= s[n] <= '9'))
  {
    if s == [] || !('0' <= s[0] <= '9') then 0 else 1 + Leading(s[1..])
  }

  /** The number that a text starts with, if it starts with one that is not too large. */
  function FromChars(s: string): Option<Word> {
    if Leading(s) == 0 || Parsed(s[..Leading(s)]) > LAST then None else Some(Parsed(s[..Leading(s)]))
  }

  lemma DecimalThen(n: Word, more: string)
    requires more == [] || !('0' <= more[0] <= '9')
    ensures FromChars(Decimal(n) + more) == Some(n)
  {
    LeadingAll(Decimal(n), more);
    assert (Decimal(n) + more)[..|Decimal(n)|] == Decimal(n);
    DecimalBack(n);
  }

  lemma {:induction false} LeadingAll(s: string, more: string)
    requires Digits(s) && (more == [] || !('0' <= more[0] <= '9'))
    ensures Leading(s + more) == |s|
  {
    if s == [] {
      assert s + more == more;
    } else {
      assert (s + more)[1..] == s[1..] + more;
      LeadingAll(s[1..], more);
    }
  }

  // ---- keys ----

  datatype Family = Checkpoint | Meta | Events
  datatype Suffix = Step(n: nat) | Latest | Count

  datatype Slot = Slot(family: Family, thread: Thread, suffix: Suffix)

  function FamilyText(f: Family): string {
    match f
    case Checkpoint => "checkpoint:"
    case Meta => "checkpoint_meta:"
    case Events => "graph_events:"
  }

  function SuffixText(s: Suffix): string {
    match s
    case Step(n) => Decimal(n)
    case Latest => "latest"
    case Count => "count"
  }

  function KeyOf(s: Slot): string {
    FamilyText(s.family) + (s.thread + ":" + SuffixText(s.suffix))
  }

  predicate NoColon(s: string) {
    forall i :: 0 <= i < |s| ==> s[i] != ':'
  }

  lemma SuffixPlain(s: Suffix)
    ensures NoColon(SuffixText(s))
  {
  }

  lemma SuffixesDiffer(x: Suffix, y: Suffix)
    requires SuffixText(x) == SuffixText(y)
    ensures x == y
  {
    if x.Step? { DecimalBack(x.n); }
    if y.Step? { DecimalBack(y.n); }
    assert "latest"[0] == 'l' && "count"[0] == 'c';
    if x.Step? || y.Step? {
      var d := if x.Step? then x else y;
      assert '0' <= Decimal(d.n)[0] <= '9';
    }
  }

  /** The last colon of a key ends the thread id, even one with colons of its own. */
  lemma LastColon(a: string, b: string, x: string, y: string)
    requires a + ":" + x == b + ":" + y && NoColon(x) && NoColon(y)
    ensures a == b && x == y
  {
    var s := a + ":" + x;
    assert s[|a|] == ':' && s[|b|] == ':';
    assert forall i :: |a| < i < |s| ==> s[i] == x[i - |a| - 1];
    assert forall i :: |b| < i < |s| ==> s[i] == y[i - |b| - 1];
    assert |a| == |b|;
    assert s[..|a|] == a && s[..|b|] == b;
    assert s[|a| + 1..] == x && s[|b| + 1..] == y;
  }

  lemma FamiliesDiffer(f: Family, g: Family, a: string, b: string)
    requires FamilyText(f) + a == FamilyText(g) + b
    ensures f == g && a == b
  {
    var s := FamilyText(f) + a;
    var p, q := FamilyText(f), FamilyText(g);
    assert FamilyText(Checkpoint)[0] == 'c' && FamilyText(Meta)[0] == 'c' && FamilyText(Events)[0] == 'g';
    assert FamilyText(Checkpoint)[10] == ':' && FamilyText(Meta)[10] == '_';
    assert s[0] == p[0] && s[0] == q[0];
    assert s[10] == p[10] && s[10] == q[10];
    assert s[|p|..] == a && s[|q|..] == b;
  }

  /** Different slots have different keys, whatever the thread ids. */
  lemma KeysDiffer(s: Slot, t: Slot)
    requires KeyOf(s) == KeyOf(t)
    ensures s == t
  {
    hide FamilyText, SuffixText;
    FamiliesDiffer(s.family, t.family, s.thread + ":" + SuffixText(s.suffix), t.thread + ":" + SuffixText(t.suffix));
    SuffixPlain(s.suffix);
    SuffixPlain(t.suffix);
    LastColon(s.thread, t.thread, SuffixText(s.suffix), SuffixText(t.suffix));
    SuffixesDiffer(s.suffix, t.suffix);
  }

  /** What a slot holds: text, or a batch of events. */
  datatype Value = Text(text: string) | Batch(events: seq<Event>)

  type Store = map<Slot, Value>

  /** A store with text keys holds what the slots hold. */
  ghost predicate Holds(text: map<string, Value>, kv: Store) {
    forall s: Slot :: (s in kv <==> KeyOf(s) in text) && (s in kv ==> text[KeyOf(s)] == kv[s])
  }

  /** Writing under the key of a slot writes that slot and no other. */
  lemma WriteSlot(text: map<string, Value>, kv: Store, s: Slot, v: Value)
    requires Holds(text, kv)
    ensures Holds(text[KeyOf(s) := v], kv[s := v])
  {
    hide KeyOf;
    forall t: Slot
      ensures var u := text[KeyOf(s) := v];
              (t in kv[s := v] <==> KeyOf(t) in u) && (t in kv[s := v] ==> u[KeyOf(t)] == kv[s := v][t])
    {
      if KeyOf(t) == KeyOf(s) { KeysDiffer(t, s); }
    }
  }

  // ---- the adapter ----

  /** `Endless`: the call does not return. */
  datatype Answer<+T> = Found(value: T) | Missing | Corrupt | Endless

  datatype Info = Info(step: Word, time: Word, metadata: string)

  /** An empty value reads as a missing one. */
  function NonEmpty(kv: Store, s: Slot): Option<string> {
    if s in kv && kv[s].Text? && kv[s].text != "" then Some(kv[s].text) else None
  }

  function Stamp(now: Word, metadata: string): (s: string)
    ensures s != ""
  {
    Decimal(now) + " " + metadata
  }

  function KvPut(kv: Store, t: Thread, step: Word, blob: string, metadata: string, now: Word): Store {
    kv[Slot(Checkpoint, t, Step(step)) := Text(blob)]
      [Slot(Checkpoint, t, Latest) := Text(blob)]
      [Slot(Meta, t, Step(step)) := Text(Stamp(now, metadata))]
      [Slot(Meta, t, Latest) := Text(Decimal(step))]
  }

  function KvLatest(kv: Store, t: Thread): Option<string> {
    NonEmpty(kv, Slot(Checkpoint, t, Latest))
  }

  function KvGet(kv: Store, t: Thread, step: Word): Option<string> {
    NonEmpty(kv, Slot(Checkpoint, t, Step(step)))
  }

  function LatestStep(kv: Store, t: Thread): (r: Answer<Word>)
    ensures !r.Endless?
  {
    match NonEmpty(kv, Slot(Meta, t, Latest))
    case None => Missing
    case Some(text) =>
      match FromChars(text)
      case None => Corrupt
      case Some(n) => Found(n)
  }

  /** The position of the first space, or the length. */
  function Space(s: string): (n: nat)
    ensures n <= |s|
  {
    if s == [] || s[0] == ' ' then 0 else 1 + Space(s[1..])
  }

  function InfoOf(step: Word, text: string): Info {
    var time := FromChars(text[..Space(text)]);
    Info(step, if time.Some? then time.value else 0, if Space(text) < |text| then text[Space(text) + 1..] else "")
  }

  /** The checkpoints at steps below `n`. */
  function Listed(kv: Store, t: Thread, n: nat): seq<Info>
    requires n <= LAST + 1
  {
    if n == 0 then [] else
    var meta := NonEmpty(kv, Slot(Meta, t, Step(n - 1)));
    Listed(kv, t, n - 1) + if meta.Some? then [InfoOf(n - 1, meta.value)] else []
  }

  function KvList(kv: Store, t: Thread): Answer<seq<Info>> {
    match LatestStep(kv, t)
    case Missing => Found([])
    case Corrupt => Corrupt
    case Found(n) => if n == LAST then Endless else Found(Listed(kv, t, n + 1))
  }

  function Batches(kv: Store, t: Thread): Word {
    match NonEmpty(kv, Slot(Events, t, Count))
    case None => 0
    case Some(text) =>
      var n := FromChars(text);
      if n.Some? then n.value else 0
  }

  function KvAppend(kv: Store, t: Thread, events: seq<Event>): Store {
    var n := Batches(kv, t);
    kv[Slot(Events, t, Step(n)) := Batch(events)][Slot(Events, t, Count) := Text(Decimal(Next(n)))]
  }

  /** The events of the first `n` batches; none if one of them is not there. */
  function Logged(kv: Store, t: Thread, n: nat): Answer<seq<Event>> {
    if n == 0 then Found([]) else
    match Logged(kv, t, n - 1)
    case Found(before) =>
      var s := Slot(Events, t, Step(n - 1));
      if s !in kv then Missing else if kv[s].Batch? then Found(before + kv[s].events) else Corrupt
    case none => none
  }

  function KvEvents(kv: Store, t: Thread): Answer<seq<Event>> {
    Logged(kv, t, Batches(kv, t))
  }

  /** The checkpoints at steps below `n` made empty. */
  function Blanked(kv: Store, t: Thread, n: nat): Store {
    if n == 0 then kv else
    var before := Blanked(kv, t, n - 1);
    if NonEmpty(before, Slot(Meta, t, Step(n - 1))).Some?
    then before[Slot(Meta, t, Step(n - 1)) := Text("")][Slot(Checkpoint, t, Step(n - 1)) := Text("")]
    else before
  }

  function WithoutLog(kv: Store, t: Thread): Store {
    var count := Slot(Events, t, Count);
    if NonEmpty(kv, count).Some? then kv[count := Text("")] else kv
  }

  /** With the last step there is, the deletion does not get past the checkpoints. */
  function KvDelete(kv: Store, t: Thread): Store {
    var noLog := WithoutLog(kv, t);
    match LatestStep(noLog, t)
    case Corrupt => noLog
    case Missing => NoLatest(noLog, t)
    case Found(n) =>
      var blanked := Blanked(noLog, t, n + 1);
      if n == LAST then blanked else NoLatest(blanked[Slot(Meta, t, Latest) := Text("")], t)
  }

  function NoLatest(kv: Store, t: Thread): Store {
    var s := Slot(Checkpoint, t, Latest);
    if s in kv then kv[s := Text("")] else kv
  }

  /** The slots of thread `u` are as they were. */
  ghost predicate SameThread(kv: Store, kv': Store, u: Thread) {
    forall f, x :: var s := Slot(f, u, x); (s in kv <==> s in kv') && (s in kv ==> kv[s] == kv'[s])
  }

  /** A log depends on its own slots only. */
  lemma {:induction false} LogSlots(kv: Store, kv': Store, t: Thread, n: nat)
    requires forall i: nat :: var s := Slot(Events, t, Step(i)); i < n ==>
      && (s in kv <==> s in kv')
      && (s in kv ==> kv[s] == kv'[s])
    ensures Logged(kv, t, n) == Logged(kv', t, n)
  {
    if n > 0 {
      LogSlots(kv, kv', t, n - 1);
      var s := Slot(Events, t, Step(n - 1));
      assert (s in kv <==> s in kv') && (s in kv ==> kv[s] == kv'[s]);
    }
  }

  /** What saving a checkpoint does for whoever reads the thread. */
  lemma PutReads(kv: Store, t: Thread, step: Word, blob: string, metadata: string, now: Word)
    ensures var kv' := KvPut(kv, t, step, blob, metadata, now);
            && KvGet(kv', t, step) == KvLatest(kv', t) == (if blob == "" then None else Some(blob))
            && LatestStep(kv', t) == Found(step) && KvEvents(kv', t) == KvEvents(kv, t)
            && (forall k: Word :: k != step ==> KvGet(kv', t, k) == KvGet(kv, t, k))
            && (forall u: Thread :: u != t ==> SameThread(kv, kv', u))
  {
    hide FromChars, Decimal, Stamp, Logged;
    var kv' := KvPut(kv, t, step, blob, metadata, now);
    assert Decimal(step) + [] == Decimal(step);
    DecimalThen(step, []);
    LogSlots(kv, kv', t, Batches(kv, t));
  }

  /** What appending a batch does for whoever reads the thread. The count of batches is lost with the last one. */
  lemma AppendReads(kv: Store, t: Thread, events: seq<Event>)
    ensures var kv' := KvAppend(kv, t, events);
            && KvEvents(kv', t) == (if Batches(kv, t) == LAST then Found([])
                                    else if KvEvents(kv, t).Found? then Found(KvEvents(kv, t).value + events)
                                    else KvEvents(kv, t))
            && KvLatest(kv', t) == KvLatest(kv, t) && LatestStep(kv', t) == LatestStep(kv, t)
            && (forall k: Word :: KvGet(kv', t, k) == KvGet(kv, t, k))
            && (forall u: Thread :: u != t ==> SameThread(kv, kv', u))
  {
    hide FromChars, Decimal;
    var kv' := KvAppend(kv, t, events);
    var n := Batches(kv, t);
    assert Decimal(Next(n)) + [] == Decimal(Next(n));
    DecimalThen(Next(n), []);
    LogSlots(kv, kv', t, n);
  }

  lemma {:induction false} BlankedMeta(kv: Store, t: Thread, n: nat, k: nat)
    requires k < n
    ensures NonEmpty(Blanked(kv, t, n), Slot(Meta, t, Step(k))).None?
  {
    if k < n - 1 { BlankedMeta(kv, t, n - 1, k); }
  }

  /** How many of the steps up to `latest` a loop of `rounds` rounds has come to. */
  function Probed(latest: Word, rounds: nat): nat {
    if rounds <= latest then rounds else latest + 1
  }

  /** The adapter as it works, one key at a time. Two of its loops count in a number that wraps: `patience` is how many
      rounds of them someone waits for. */
  class Adapter {
    var kv: Store

    constructor ()
      ensures kv == map[]
    {
      kv := map[];
    }

    method Put(t: Thread, step: Word, blob: string, metadata: string, now: Word)
      modifies this
      ensures kv == old(KvPut(kv, t, step, blob, metadata, now))
      ensures KvGet(kv, t, step) == KvLatest(kv, t) == (if blob == "" then None else Some(blob))
      ensures LatestStep(kv, t) == Found(step) && KvEvents(kv, t) == old(KvEvents(kv, t))
      ensures forall k: Word :: k != step ==> KvGet(kv, t, k) == old(KvGet(kv, t, k))
      ensures forall u: Thread :: u != t ==> SameThread(old(kv), kv, u)
    {
      hide Stamp, Decimal, KvGet, KvLatest, LatestStep, KvEvents, SameThread;
      PutReads(kv, t, step, blob, metadata, now);
      kv := kv[Slot(Checkpoint, t, Step(step)) := Text(blob)];
      kv := kv[Slot(Checkpoint, t, Latest) := Text(blob)];
      kv := kv[Slot(Meta, t, Step(step)) := Text(Stamp(now, metadata))];
      kv := kv[Slot(Meta, t, Latest) := Text(Decimal(step))];
    }

    /** Probes every step up to the latest. It answers once that many rounds are over, unless the latest step is the
        last one there is: then no patience is enough. */
    method List(t: Thread, patience: nat) returns (r: Option<Answer<seq<Info>>>)
      ensures match LatestStep(kv, t)
              case Found(n) => r == (if n < LAST && n < patience then Some(KvList(kv, t)) else None)
              case _ => r == Some(KvList(kv, t))
      ensures KvList(kv, t).Endless? ==> r.None?
    {
      hide InfoOf, FromChars;
      var latest := LatestStep(kv, t);
      if latest.Missing? { return Some(Found([])); }
      if latest.Corrupt? { return Some(Corrupt); }
      var out := [];
      var step: Word := 0;
      for round := 0 to patience
        invariant step <= latest.value
        invariant latest.value < LAST ==> step == round && out == Listed(kv, t, round)
      {
        var meta := NonEmpty(kv, Slot(Meta, t, Step(step)));
        if meta.Some? { out := out + [InfoOf(step, meta.value)]; }
        assert latest.value < LAST ==> out == Listed(kv, t, round + 1);
        step := Next(step);
        if step > latest.value { return Some(Found(out)); }
      }
      r := None;
    }

    method AppendEvents(t: Thread, events: seq<Event>)
      modifies this
      ensures kv == old(KvAppend(kv, t, events))
      ensures old(Batches(kv, t)) < LAST && old(KvEvents(kv, t)).Found? ==>
        KvEvents(kv, t) == Found(old(KvEvents(kv, t)).value + events)
      ensures old(Batches(kv, t)) == LAST ==> KvEvents(kv, t) == Found([])
      ensures KvLatest(kv, t) == old(KvLatest(kv, t)) && LatestStep(kv, t) == old(LatestStep(kv, t))
      ensures forall k: Word :: KvGet(kv, t, k) == old(KvGet(kv, t, k))
      ensures forall u: Thread :: u != t ==> SameThread(old(kv), kv, u)
    {
      hide Decimal, FromChars, KvGet, KvLatest, LatestStep, KvEvents, SameThread;
      AppendReads(kv, t, events);
      var n := Batches(kv, t);
      kv := kv[Slot(Events, t, Step(n)) := Batch(events)];
      kv := kv[Slot(Events, t, Count) := Text(Decimal(Next(n)))];
    }

    method ListEvents(t: Thread) returns (r: Answer<seq<Event>>)
      ensures r == KvEvents(kv, t)
    {
      hide FromChars;
      var n := Batches(kv, t);
      var out := [];
      for i := 0 to n
        invariant Logged(kv, t, i) == Found(out)
      {
        var s := Slot(Events, t, Step(i));
        if s !in kv {
          LogStops(kv, t, i + 1, n);
          return Missing;
        }
        if !kv[s].Batch? {
          LogStops(kv, t, i + 1, n);
          return Corrupt;
        }
        out := out + kv[s].events;
      }
      r := Found(out);
    }

    /** Blanks every step up to the latest, then the latest. Like `List` it never gets through if the latest step is the
        last one there is. */
    method DeleteThread(t: Thread, patience: nat) returns (done: bool)
      modifies this
      ensures match old(LatestStep(WithoutLog(kv, t), t))
              case Found(n) =>
                && done == (n < LAST && n < patience)
                && (!done ==> kv == old(Blanked(WithoutLog(kv, t), t, Probed(n, patience))))
              case _ => done
      ensures done ==> kv == old(KvDelete(kv, t))
    {
      hide FromChars;
      var count := Slot(Events, t, Count);
      if NonEmpty(kv, count).Some? { kv := kv[count := Text("")]; }
      var latest := LatestStep(kv, t);
      if latest.Corrupt? { return true; }
      if latest.Found? {
        done := BlankSteps(t, latest.value, patience);
        if !done { return false; }
        kv := kv[Slot(Meta, t, Latest) := Text("")];
      }
      var last := Slot(Checkpoint, t, Latest);
      if last in kv { kv := kv[last := Text("")]; }
      done := true;
    }

    method BlankSteps(t: Thread, latest: Word, patience: nat) returns (done: bool)
      modifies this
      ensures done == (latest < LAST && latest < patience)
      ensures kv == old(Blanked(kv, t, Probed(latest, patience)))
    {
      ghost var before := kv;
      var step: Word := 0;
      for round := 0 to patience
        invariant step <= latest
        invariant round <= LAST ==> step == round
        invariant latest < LAST ==> round <= latest
        invariant kv == Blanked(before, t, Probed(latest, round))
      {
        if round > LAST { BlankedMeta(before, t, LAST + 1, step); }
        if NonEmpty(kv, Slot(Meta, t, Step(step))).Some? {
          kv := kv[Slot(Meta, t, Step(step)) := Text("")];
          kv := kv[Slot(Checkpoint, t, Step(step)) := Text("")];
        }
        step := Next(step);
        if step > latest { return true; }
      }
      done := false;
    }
  }

  lemma {:induction false} LogStops(kv: Store, t: Thread, i: nat, n: nat)
    requires i <= n && !Logged(kv, t, i).Found?
    ensures Logged(kv, t, n) == Logged(kv, t, i)
  {
    if i < n { LogStops(kv, t, i, n - 1); }
  }
}
