/** The key-value adapter gives the answers of the in-memory checkpointer. */
module CheckpointRefinement {
  import opened Options
  import opened CheckpointStore

  datatype Saved = Saved(blob: string, metadata: string, time: Word)

  /** The in-memory checkpointer. */
  datatype Memory = Memory(threads: map<Thread, map<Word, Saved>>, events: map<Thread, seq<Event>>)

  datatype Op =
    | Put(thread: Thread, step: Word, blob: string, metadata: string, now: Word)
    | Delete(thread: Thread)
    | Append(thread: Thread, events: seq<Event>)

  function SavedOf(mem: Memory, t: Thread): map<Word, Saved> {
    if t in mem.threads then mem.threads[t] else map[]
  }

  function EventsOf(mem: Memory, t: Thread): seq<Event> {
    if t in mem.events then mem.events[t] else []
  }

  function MemApply(mem: Memory, op: Op): Memory {
    match op
    case Put(t, step, blob, metadata, now) =>
      mem.(threads := mem.threads[t := SavedOf(mem, t)[step := Saved(blob, metadata, now)]])
    case Delete(t) => Memory(mem.threads - {t}, mem.events - {t})
    case Append(t, events) => mem.(events := mem.events[t := EventsOf(mem, t) + events])
  }

  function KvApply(kv: Store, op: Op): Store {
    match op
    case Put(t, step, blob, metadata, now) => KvPut(kv, t, step, blob, metadata, now)
    case Delete(t) => KvDelete(kv, t)
    case Append(t, events) => KvAppend(kv, t, events)
  }

  ghost function Highest(s: set<Word>): (m: Word)
    requires s != {}
    ensures m in s && forall n <- s :: n <= m
  {
    var x :| x in s;
    if s == {x} then x else
    assert forall n <- s :: n == x || n in s - {x};
    var y := Highest(s - {x});
    if y < x then x else y
  }

  ghost function MemLatest(m: map<Word, Saved>): Option<string> {
    if m == map[] then None else Some(m[Highest(m.Keys)].blob)
  }

  function MemGet(m: map<Word, Saved>, step: Word): Option<string> {
    if step in m then Some(m[step].blob) else None
  }

  /** The checkpoints at steps below `n`, in ascending order. */
  function Ascending(m: map<Word, Saved>, n: nat): seq<Info>
    requires n <= LAST + 1
  {
    if n == 0 then [] else
    Ascending(m, n - 1) + if n - 1 in m then [Info(n - 1, m[n - 1].time, m[n - 1].metadata)] else []
  }

  ghost function MemList(m: map<Word, Saved>): seq<Info> {
    if m == map[] then [] else Ascending(m, Highest(m.Keys) + 1)
  }

  // ---- the relation ----

  ghost predicate StepOk(kv: Store, t: Thread, m: map<Word, Saved>, n: Word) {
    && NonEmpty(kv, Slot(Checkpoint, t, Step(n))) == (if n in m then Some(m[n].blob) else None)
    && NonEmpty(kv, Slot(Meta, t, Step(n))) == (if n in m then Some(Stamp(m[n].time, m[n].metadata)) else None)
  }

  ghost predicate LatestOk(kv: Store, t: Thread, m: map<Word, Saved>) {
    && NonEmpty(kv, Slot(Checkpoint, t, Latest)) == MemLatest(m)
    && NonEmpty(kv, Slot(Meta, t, Latest)) == (if m == map[] then None else Some(Decimal(Highest(m.Keys))))
    && (m != map[] ==> Highest(m.Keys) < LAST)
  }

  ghost predicate ThreadOk(kv: Store, t: Thread, m: map<Word, Saved>) {
    LatestOk(kv, t, m) && forall n: Word :: StepOk(kv, t, m, n)
  }

  ghost predicate LogOk(kv: Store, t: Thread, events: seq<Event>) {
    KvEvents(kv, t) == Found(events)
  }

  ghost predicate Related(kv: Store, mem: Memory) {
    forall t: Thread :: ThreadOk(kv, t, SavedOf(mem, t)) && LogOk(kv, t, EventsOf(mem, t))
  }

  /** The two answer every question of one thread alike. */
  ghost predicate Agree(kv: Store, t: Thread, m: map<Word, Saved>, events: seq<Event>) {
    && KvLatest(kv, t) == MemLatest(m) && KvList(kv, t) == Found(MemList(m)) && KvEvents(kv, t) == Found(events)
    && forall step: Word :: KvGet(kv, t, step) == MemGet(m, step)
  }

  // ---- related stores answer alike ----

  lemma {:induction false} SpaceAfter(s: string, more: string)
    requires Digits(s)
    ensures Space(s + " " + more) == |s|
  {
    if s == [] {
      assert s + " " + more == " " + more;
    } else {
      assert (s + " " + more)[1..] == s[1..] + " " + more;
      SpaceAfter(s[1..], more);
    }
  }

  lemma InfoBack(step: Word, time: Word, metadata: string)
    ensures InfoOf(step, Stamp(time, metadata)) == Info(step, time, metadata)
  {
    hide Decimal, FromChars, Space;
    var text := Stamp(time, metadata);
    SpaceAfter(Decimal(time), metadata);
    assert text[..|Decimal(time)|] == Decimal(time) + [];
    DecimalThen(time, []);
    assert text[|Decimal(time)| + 1..] == metadata;
  }

  lemma {:induction false} ListedSame(kv: Store, t: Thread, m: map<Word, Saved>, n: nat)
    requires n <= LAST + 1
    requires forall k: Word :: StepOk(kv, t, m, k)
    ensures Listed(kv, t, n) == Ascending(m, n)
  {
    hide InfoOf, Stamp;
    if n > 0 {
      ListedSame(kv, t, m, n - 1);
      assert StepOk(kv, t, m, n - 1);
      if n - 1 in m { InfoBack(n - 1, m[n - 1].time, m[n - 1].metadata); }
    }
  }

  lemma RelatedAgree(kv: Store, t: Thread, m: map<Word, Saved>, events: seq<Event>)
    requires ThreadOk(kv, t, m) && LogOk(kv, t, events)
    ensures Agree(kv, t, m, events)
  {
    hide FromChars, Decimal, Listed, Ascending, KvEvents;
    forall step: Word ensures KvGet(kv, t, step) == MemGet(m, step) {
      assert StepOk(kv, t, m, step);
    }
    if m != map[] {
      var top := Highest(m.Keys);
      assert Decimal(top) + [] == Decimal(top);
      DecimalThen(top, []);
      ListedSame(kv, t, m, top + 1);
    }
  }

  // ---- other threads are not touched ----

  lemma {:induction false} SameLog(kv: Store, kv': Store, u: Thread, n: nat)
    requires SameThread(kv, kv', u)
    ensures Logged(kv, u, n) == Logged(kv', u, n)
  {
    if n > 0 { SameLog(kv, kv', u, n - 1); }
  }

  lemma SameOk(kv: Store, kv': Store, u: Thread, m: map<Word, Saved>, events: seq<Event>)
    requires SameThread(kv, kv', u) && ThreadOk(kv, u, m) && LogOk(kv, u, events)
    ensures ThreadOk(kv', u, m) && LogOk(kv', u, events)
  {
    hide FromChars, Decimal, Stamp, MemLatest, Logged;
    SameLog(kv, kv', u, Batches(kv, u));
    forall n: Word ensures StepOk(kv', u, m, n) {
      assert StepOk(kv, u, m, n);
    }
  }

  lemma {:induction false} BlankedOthers(kv: Store, t: Thread, n: nat, s: Slot)
    requires s.thread != t || s.family == Events || !s.suffix.Step? || s.suffix.n >= n
    ensures (s in kv <==> s in Blanked(kv, t, n)) && (s in kv ==> Blanked(kv, t, n)[s] == kv[s])
  {
    if n > 0 { BlankedOthers(kv, t, n - 1, s); }
  }

  lemma DeleteOthers(kv: Store, t: Thread, s: Slot)
    requires s.thread != t
    ensures (s in kv <==> s in KvDelete(kv, t)) && (s in kv ==> KvDelete(kv, t)[s] == kv[s])
  {
    hide FromChars, Blanked;
    var noLog := WithoutLog(kv, t);
    var latest := LatestStep(noLog, t);
    if latest.Found? {
      var n: nat := latest.value;
      BlankedOthers(noLog, t, n + 1, s);
    }
  }

  lemma OthersSame(kv: Store, op: Op, u: Thread)
    requires u != op.thread
    ensures SameThread(kv, KvApply(kv, op), u)
  {
    hide FromChars, Decimal, Stamp, KvDelete, NonEmpty;
    if op.Delete? {
      forall f, x
        ensures var s := Slot(f, u, x);
                (s in kv <==> s in KvDelete(kv, op.thread)) && (s in kv ==> KvDelete(kv, op.thread)[s] == kv[s])
      {
        DeleteOthers(kv, op.thread, Slot(f, u, x));
      }
    }
  }

  // ---- each operation keeps the relation ----

  /** What the adapter needs of a checkpoint to keep up: contents, a step that is not the last one there is, and no step
      before the latest. */
  ghost predicate InStep(m: map<Word, Saved>, step: Word, blob: string) {
    blob != "" && step < LAST && (m != map[] ==> Highest(m.Keys) <= step)
  }

  lemma HighestOf(s: set<Word>, n: Word)
    requires n in s && forall k <- s :: k <= n
    ensures Highest(s) == n
  {
  }

  lemma PutOk(kv: Store, t: Thread, m: map<Word, Saved>, step: Word, blob: string, metadata: string, now: Word,
              events: seq<Event>)
    requires ThreadOk(kv, t, m) && LogOk(kv, t, events) && InStep(m, step, blob)
    ensures var kv' := KvPut(kv, t, step, blob, metadata, now);
            ThreadOk(kv', t, m[step := Saved(blob, metadata, now)]) && LogOk(kv', t, events)
  {
    hide FromChars, Decimal, Stamp, Highest, Logged;
    var kv' := KvPut(kv, t, step, blob, metadata, now);
    var m' := m[step := Saved(blob, metadata, now)];
    HighestOf(m'.Keys, step);
    assert LatestOk(kv', t, m');
    forall n: Word ensures StepOk(kv', t, m', n) {
      assert StepOk(kv, t, m, n);
    }
    LogSlots(kv, kv', t, Batches(kv, t));
  }

  lemma AppendThread(kv: Store, t: Thread, m: map<Word, Saved>, more: seq<Event>)
    requires ThreadOk(kv, t, m)
    ensures ThreadOk(KvAppend(kv, t, more), t, m)
  {
    hide FromChars, Decimal, Stamp, Highest;
    forall k: Word ensures StepOk(KvAppend(kv, t, more), t, m, k) {
      assert StepOk(kv, t, m, k);
    }
  }

  lemma AppendOk(kv: Store, t: Thread, m: map<Word, Saved>, events: seq<Event>, more: seq<Event>)
    requires ThreadOk(kv, t, m) && LogOk(kv, t, events) && Batches(kv, t) < LAST
    ensures ThreadOk(KvAppend(kv, t, more), t, m) && LogOk(KvAppend(kv, t, more), t, events + more)
  {
    hide KvAppend, ThreadOk, Batches, KvEvents;
    AppendThread(kv, t, m, more);
    AppendReads(kv, t, more);
  }

  lemma {:induction false} BlankedSteps(kv: Store, t: Thread, n: nat, k: nat)
    requires k < n && (NonEmpty(kv, Slot(Meta, t, Step(k))).None? ==> NonEmpty(kv, Slot(Checkpoint, t, Step(k))).None?)
    ensures NonEmpty(Blanked(kv, t, n), Slot(Meta, t, Step(k))) == None
    ensures NonEmpty(Blanked(kv, t, n), Slot(Checkpoint, t, Step(k))) == None
  {
    if k < n - 1 {
      BlankedSteps(kv, t, n - 1, k);
    } else {
      BlankedOthers(kv, t, n - 1, Slot(Meta, t, Step(k)));
      BlankedOthers(kv, t, n - 1, Slot(Checkpoint, t, Step(k)));
    }
  }

  /** After deletion a thread has no step left, wherever it is asked for. */
  lemma DeleteStep(kv: Store, t: Thread, m: map<Word, Saved>, k: Word)
    requires ThreadOk(kv, t, m)
    ensures StepOk(KvDelete(kv, t), t, map[], k)
  {
    hide FromChars, Decimal, Stamp, Highest, Blanked;
    var noLog := WithoutLog(kv, t);
    assert StepOk(kv, t, m, k);
    if m != map[] {
      var top := Highest(m.Keys);
      LatestIs(kv, t, m);
      if k <= top { BlankedSteps(noLog, t, top + 1, k); } else {
        BlankedOthers(noLog, t, top + 1, Slot(Meta, t, Step(k)));
        BlankedOthers(noLog, t, top + 1, Slot(Checkpoint, t, Step(k)));
      }
    }
  }

  lemma LatestIs(kv: Store, t: Thread, m: map<Word, Saved>)
    requires ThreadOk(kv, t, m) && m != map[]
    ensures LatestStep(WithoutLog(kv, t), t) == Found(Highest(m.Keys))
  {
    hide FromChars, Decimal, Stamp, Highest;
    var top := Highest(m.Keys);
    assert Decimal(top) + [] == Decimal(top);
    DecimalThen(top, []);
  }

  lemma DeleteLatest(kv: Store, t: Thread, m: map<Word, Saved>)
    requires ThreadOk(kv, t, m)
    ensures LatestOk(KvDelete(kv, t), t, map[]) && LogOk(KvDelete(kv, t), t, [])
  {
    hide FromChars, Decimal, Stamp, Highest, Blanked;
    var noLog := WithoutLog(kv, t);
    if m != map[] {
      var top := Highest(m.Keys);
      LatestIs(kv, t, m);
      BlankedOthers(noLog, t, top + 1, Slot(Checkpoint, t, Latest));
      BlankedOthers(noLog, t, top + 1, Slot(Events, t, Count));
    }
  }

  lemma DeleteOk(kv: Store, t: Thread, m: map<Word, Saved>)
    requires ThreadOk(kv, t, m)
    ensures ThreadOk(KvDelete(kv, t), t, map[]) && LogOk(KvDelete(kv, t), t, [])
  {
    hide KvDelete, StepOk, LatestOk, LogOk;
    DeleteLatest(kv, t, m);
    forall k: Word ensures StepOk(KvDelete(kv, t), t, map[], k) {
      DeleteStep(kv, t, m, k);
    }
  }

  /** A batch must leave the count of batches room to grow. */
  ghost predicate Admissible(kv: Store, mem: Memory, op: Op) {
    match op
    case Put(t, step, blob, _, _) => InStep(SavedOf(mem, t), step, blob)
    case Delete(_) => true
    case Append(t, _) => Batches(kv, t) < LAST
  }

  lemma StepKeeps(kv: Store, mem: Memory, op: Op)
    requires Related(kv, mem) && Admissible(kv, mem, op)
    ensures Related(KvApply(kv, op), MemApply(mem, op))
  {
    hide ThreadOk, LogOk, KvPut, KvDelete, KvAppend, InStep;
    var kv', mem' := KvApply(kv, op), MemApply(mem, op);
    forall u: Thread ensures ThreadOk(kv', u, SavedOf(mem', u)) && LogOk(kv', u, EventsOf(mem', u)) {
      assert ThreadOk(kv, u, SavedOf(mem, u)) && LogOk(kv, u, EventsOf(mem, u));
      if u != op.thread {
        OthersSame(kv, op, u);
        SameOk(kv, kv', u, SavedOf(mem, u), EventsOf(mem, u));
      } else {
        match op
        case Put(t, step, blob, metadata, now) => PutOk(kv, t, SavedOf(mem, t), step, blob, metadata, now,
                                                        EventsOf(mem, t));
        case Delete(t) => DeleteOk(kv, t, SavedOf(mem, t));
        case Append(t, events) => AppendOk(kv, t, SavedOf(mem, t), EventsOf(mem, t), events);
      }
    }
  }

  // ---- every sequence of operations ----

  ghost predicate AllAdmissible(kv: Store, mem: Memory, ops: seq<Op>)
    decreases |ops|
  {
    ops == [] || (Admissible(kv, mem, ops[0]) && AllAdmissible(KvApply(kv, ops[0]), MemApply(mem, ops[0]), ops[1..]))
  }

  function MemAll(mem: Memory, ops: seq<Op>): Memory
    decreases |ops|
  {
    if ops == [] then mem else MemAll(MemApply(mem, ops[0]), ops[1..])
  }

  function KvAll(kv: Store, ops: seq<Op>): Store
    decreases |ops|
  {
    if ops == [] then kv else KvAll(KvApply(kv, ops[0]), ops[1..])
  }

  lemma {:induction false} RunKeeps(kv: Store, mem: Memory, ops: seq<Op>)
    requires Related(kv, mem) && AllAdmissible(kv, mem, ops)
    ensures Related(KvAll(kv, ops), MemAll(mem, ops))
    decreases |ops|
  {
    hide Related, Admissible, KvApply, MemApply;
    if ops != [] {
      StepKeeps(kv, mem, ops[0]);
      RunKeeps(KvApply(kv, ops[0]), MemApply(mem, ops[0]), ops[1..]);
    }
  }

  /** After any operations in step on any threads, deletions and reuse included, the adapter answers every question
      about every thread as the in-memory checkpointer does. */
  lemma SameAnswers(ops: seq<Op>, t: Thread)
    requires AllAdmissible(map[], Memory(map[], map[]), ops)
    ensures var mem := MemAll(Memory(map[], map[]), ops);
            Agree(KvAll(map[], ops), t, SavedOf(mem, t), EventsOf(mem, t))
  {
    hide AllAdmissible, MemAll, KvAll, ThreadOk, LogOk, Agree;
    EmptyRelated();
    RunKeeps(map[], Memory(map[], map[]), ops);
    var mem := MemAll(Memory(map[], map[]), ops);
    assert ThreadOk(KvAll(map[], ops), t, SavedOf(mem, t)) && LogOk(KvAll(map[], ops), t, EventsOf(mem, t));
    RelatedAgree(KvAll(map[], ops), t, SavedOf(mem, t), EventsOf(mem, t));
  }

  lemma EmptyRelated()
    ensures Related(map[], Memory(map[], map[]))
  {
  }

  // ---- exactly when ----

  lemma {:induction false} ListedBelow(kv: Store, t: Thread, n: nat, i: nat)
    requires n <= LAST + 1 && i < |Listed(kv, t, n)|
    ensures Listed(kv, t, n)[i].step < n
  {
    hide FromChars, Space;
    if n > 0 && i < |Listed(kv, t, n - 1)| { ListedBelow(kv, t, n - 1, i); }
  }

  lemma LastListed(m: map<Word, Saved>)
    requires m != map[]
    ensures MemList(m) != [] && MemList(m)[|MemList(m)| - 1].step == Highest(m.Keys)
  {
    hide Highest;
  }

  /** A checkpoint at an earlier step than the latest hides the later ones from the adapter's list. */
  lemma BackwardsDiffers(kv: Store, t: Thread, m: map<Word, Saved>, step: Word, blob: string, metadata: string,
                         now: Word)
    requires m != map[] && step < Highest(m.Keys)
    ensures KvList(KvPut(kv, t, step, blob, metadata, now), t) != Found(MemList(m[step := Saved(blob, metadata, now)]))
  {
    hide FromChars, Decimal, Stamp, Highest, Listed, MemList;
    var kv' := KvPut(kv, t, step, blob, metadata, now);
    var m' := m[step := Saved(blob, metadata, now)];
    assert Decimal(step) + [] == Decimal(step);
    DecimalThen(step, []);
    assert KvList(kv', t) == Found(Listed(kv', t, step + 1));
    LastListed(m');
    assert Highest(m.Keys) in m';
    if Listed(kv', t, step + 1) == MemList(m') {
      ListedBelow(kv', t, step + 1, |MemList(m')| - 1);
    }
  }

  /** From stores that agree, saving a checkpoint keeps them in agreement if and only if it has contents and its step is
      neither before the latest nor the last one there is. */
  lemma PutAgreesExactly(kv: Store, mem: Memory, t: Thread, step: Word, blob: string, metadata: string, now: Word)
    requires Related(kv, mem)
    ensures var op := Put(t, step, blob, metadata, now);
            Agree(KvApply(kv, op), t, SavedOf(MemApply(mem, op), t), EventsOf(mem, t)) <==>
              InStep(SavedOf(mem, t), step, blob)
  {
    hide ThreadOk, LogOk, KvPut, Highest, MemList, MemLatest, KvList, KvEvents;
    var m := SavedOf(mem, t);
    var op := Put(t, step, blob, metadata, now);
    if InStep(m, step, blob) {
      StepKeeps(kv, mem, op);
      RelatedAgree(KvApply(kv, op), t, SavedOf(MemApply(mem, op), t), EventsOf(mem, t));
    } else if blob == "" {
      EmptyReadsMissing(kv, t, step, metadata, now);
      assert MemGet(m[step := Saved(blob, metadata, now)], step) == Some("");
      assert KvGet(KvApply(kv, op), t, step) == None;
    } else if step == LAST {
      LastNeverLists(kv, t, blob, metadata, now);
    } else {
      BackwardsDiffers(kv, t, m, step, blob, metadata, now);
    }
  }

  /** Once a thread has a checkpoint at the last step there is, listing it does not return. */
  lemma LastNeverLists(kv: Store, t: Thread, blob: string, metadata: string, now: Word)
    ensures KvList(KvPut(kv, t, LAST, blob, metadata, now), t) == Endless
  {
    hide KvPut, LatestStep, Listed;
    PutReads(kv, t, LAST, blob, metadata, now);
  }

  /** From stores that agree, appending a batch keeps them in agreement if and only if the count of batches has room to
      grow, or there never was an event. */
  lemma AppendAgreesExactly(kv: Store, mem: Memory, t: Thread, events: seq<Event>)
    requires Related(kv, mem)
    ensures var op := Append(t, events);
            Agree(KvApply(kv, op), t, SavedOf(mem, t), EventsOf(MemApply(mem, op), t)) <==>
            Batches(kv, t) < LAST || EventsOf(mem, t) + events == []
  {
    hide ThreadOk, KvAppend, MemList, MemLatest, KvList, KvLatest, KvGet, Batches, KvEvents;
    var m, kv' := SavedOf(mem, t), KvAppend(kv, t, events);
    assert ThreadOk(kv, t, m) && LogOk(kv, t, EventsOf(mem, t));
    AppendReads(kv, t, events);
    AppendThread(kv, t, m, events);
    RelatedAgree(kv', t, m, KvEvents(kv', t).value);
  }

  lemma EmptyReadsMissing(kv: Store, t: Thread, step: Word, metadata: string, now: Word)
    ensures KvGet(KvPut(kv, t, step, "", metadata, now), t, step) == None
  {
    hide Decimal, Stamp;
  }
}
