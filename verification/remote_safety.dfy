/** One outcome per call, in every state that any interleaving of callers and any host behaviour reaches. */
module RemoteSafety {
  import opened Options
  import opened Bytes
  import opened FrameStream
  import opened RemoteCalls

  // ---- frames and finals ----

  lemma FinalParts(a: seq<Packet>, b: seq<Packet>)
    ensures HasFinal(a + b) <==> HasFinal(a) || HasFinal(b)
  {
    if HasFinal(a) {
      var k :| 0 <= k < |a| && IsFinal(a[k]);
      assert (a + b)[k] == a[k];
    }
    if HasFinal(b) {
      var k :| 0 <= k < |b| && IsFinal(b[k]);
      assert (a + b)[|a| + k] == b[k];
    }
  }

  lemma ConsFinal(a: seq<Packet>)
    requires a != []
    ensures HasFinal(a) <==> IsFinal(a[0]) || HasFinal(a[1..])
  {
    hide HasFinal;
    assert [a[0]] + a[1..] == a;
    FinalParts([a[0]], a[1..]);
    OneFinal(a[0]);
  }

  lemma {:induction false} UpToFinalStops(a: seq<Packet>, b: seq<Packet>)
    requires HasFinal(a)
    ensures UpToFinal(a + b) == UpToFinal(a) && UpToFinal(a) <= a
    decreases |a|
  {
    hide HasFinal;
    NoneFinal();
    ConsFinal(a);
    assert (a + b)[1..] == a[1..] + b && (a + b)[0] == a[0];
    if !IsFinal(a[0]) { UpToFinalStops(a[1..], b); }
  }

  lemma {:induction false} UpToFinalGoes(a: seq<Packet>, b: seq<Packet>)
    requires !HasFinal(a)
    ensures UpToFinal(a + b) == a + UpToFinal(b)
    decreases |a|
  {
    hide HasFinal;
    if a == [] {
      assert a + b == b;
    } else {
      ConsFinal(a);
      assert (a + b)[1..] == a[1..] + b && (a + b)[0] == a[0];
      UpToFinalGoes(a[1..], b);
      assert [a[0]] + (a[1..] + UpToFinal(b)) == a + UpToFinal(b);
    }
  }

  lemma UpToFinalSplit(a: seq<Packet>, b: seq<Packet>)
    ensures UpToFinal(a + b) == if HasFinal(a) then UpToFinal(a) else a + UpToFinal(b)
    ensures HasFinal(a) ==> UpToFinal(a) <= a
  {
    hide HasFinal, UpToFinal;
    if HasFinal(a) { UpToFinalStops(a, b); } else { UpToFinalGoes(a, b); }
  }

  lemma NoneFinal()
    ensures !HasFinal([])
  {
  }

  lemma NoFinalAll(a: seq<Packet>)
    requires !HasFinal(a)
    ensures UpToFinal(a) == a
  {
    UpToFinalGoes(a, []);
    assert a + [] == a;
  }

  lemma MineSnoc(log: seq<Arrival>, a: Arrival, generation: nat, id: nat)
    ensures Mine(log + [a], generation, id)
         == Mine(log, generation, id) + if a.generation == generation && a.packet.id == id then [a.packet] else []
  {
    assert (log + [a])[..|log|] == log;
  }

  lemma HistoryMore(c: Call, log: seq<Arrival>, a: Arrival)
    requires HistoryInv(c, log)
    ensures a.generation == c.generation && a.packet.id == c.id ==> HistoryInv(Given(c, a.packet), log + [a])
    ensures !(a.generation == c.generation && a.packet.id == c.id) ==> HistoryInv(c, log + [a])
  {
    hide Mine, HasFinal;
    assert (log + [a])[c.since..] == log[c.since..] + [a];
    MineSnoc(log[c.since..], a, c.generation, c.id);
    FinalParts(c.got, [a.packet]);
    assert HasFinal([a.packet]) <==> IsFinal(a.packet) by { OneFinal(a.packet); }
    assert c.got + [] == c.got;
  }

  lemma OneFinal(p: Packet)
    ensures HasFinal([p]) <==> IsFinal(p)
  {
    assert [p][0] == p;
  }

  // ---- single calls ----

  lemma GivenKeeps(c: Call, p: Packet)
    requires Active(c) && PhaseInv(c) && !c.failed
    ensures PhaseInv(Given(c, p))
  {
    hide HasFinal, UpToFinal;
    match c.phase
    case Idle =>
    case Sending => assert c.handled + c.got == c.got;
    case Waiting => assert c.handled + (c.inbox + [p]) == c.handled + c.inbox + [p];
    case Sleeping => assert c.inbox + [p] == [p];
    case Reading => assert c.handled + (c.inbox + [p]) == c.handled + c.inbox + [p];
    case Processing => assert c.handled + c.work + (c.inbox + [p]) == c.handled + c.work + c.inbox + [p];
    case Finished => UpToFinalSplit(c.got, [p]); FinalParts(c.got, [p]);
    case Broken =>
  }

  lemma FailKeeps(c: Call, r: Remote)
    requires CallInv(c, r)
    ensures CallInv(FailCall(c, r.generation), Down(r))
    ensures Active(FailCall(c, r.generation)) == Active(c) && FailCall(c, r.generation).id == c.id
  {
    hide HasFinal, UpToFinal, Mine;
    if c.phase == Sleeping { assert c.handled + [] == c.handled; }
  }

  lemma ProcessKeeps(c: Call)
    requires c.phase == Processing && PhaseInv(c)
    ensures PhaseInv(ProcessWork(c))
  {
    hide HasFinal, UpToFinal;
    var rest := c.work + c.inbox;
    assert c.got == c.handled + rest;
    FinalParts(c.handled, rest);
    FinalParts(c.work, c.inbox);
    FinalParts(c.handled, c.work);
    UpToFinalSplit(c.handled, rest);
    UpToFinalSplit(c.work, c.inbox);
    if !HasFinal(c.work) { NoFinalAll(c.work); }
  }

  // ---- the steps keep the invariant ----

  lemma DeliverKeeps(r: Remote, p: Packet)
    requires Inv(r)
    ensures Inv(Deliver(r, p)) && Deliver(r, p).(calls := r.calls, log := r.log) == r
  {
    hide HistoryInv, PhaseInv, FindCall, Given;
    var r' := Deliver(r, p);
    var a := Arrival(r.generation, p);
    forall k | 0 <= k < |r.calls|
      ensures CallInv(r'.calls[k], r') && Active(r'.calls[k]) == Active(r.calls[k]) && r'.calls[k].id == r.calls[k].id
      ensures r'.calls[k].phase == r.calls[k].phase || (r.calls[k].phase == Sleeping && r'.calls[k].phase == Waiting)
    {
      DeliverOne(r, p, k);
    }
  }

  lemma DeliverOne(r: Remote, p: Packet, k: nat)
    requires AllCalls(r) && IdsDistinct(r.calls) && k < |r.calls|
    ensures var r' := Deliver(r, p);
            && |r'.calls| == |r.calls| && CallInv(r'.calls[k], r')
            && Active(r'.calls[k]) == Active(r.calls[k]) && r'.calls[k].id == r.calls[k].id
            && (r'.calls[k].phase == r.calls[k].phase || (r.calls[k].phase == Sleeping && r'.calls[k].phase == Waiting))
  {
    hide HistoryInv, PhaseInv;
    var c := r.calls[k];
    var i := FindCall(r.calls, p.id);
    if Active(c) {
      assert CallInv(c, r);
      HistoryMore(c, r.log, Arrival(r.generation, p));
      if !c.failed { GivenKeeps(c, p); }
    }
  }

  lemma {:induction false} DeliverAllKeeps(r: Remote, ps: seq<Packet>)
    requires Inv(r)
    ensures Inv(DeliverAll(r, ps)) && DeliverAll(r, ps).(calls := r.calls, log := r.log) == r
    decreases |ps|
  {
    hide Inv, Deliver;
    if ps != [] {
      DeliverKeeps(r, ps[0]);
      DeliverAllKeeps(Deliver(r, ps[0]), ps[1..]);
    }
  }

  lemma HeldIsFree(r: Remote, held: Data, stream: Data)
    requires Inv(r)
    ensures Inv(r.(held := held, stream := stream))
  {
    hide HistoryInv, PhaseInv, HostInv;
    assert forall i :: 0 <= i < |r.calls| ==>
             CallInv(r.calls[i], r) ==> CallInv(r.calls[i], r.(held := held, stream := stream));
  }

  lemma DownKeeps(r: Remote)
    requires Inv(r)
    ensures Inv(Down(r))
  {
    hide HistoryInv, PhaseInv, HostInv;
    var r' := Down(r);
    forall k | 0 <= k < |r.calls|
      ensures CallInv(r'.calls[k], r') && Active(r'.calls[k]) == Active(r.calls[k]) && r'.calls[k].id == r.calls[k].id
      ensures r'.calls[k].phase == r.calls[k].phase || (r.calls[k].phase == Sleeping && r'.calls[k].phase == Waiting)
    {
      FailKeeps(r.calls[k], r);
    }
  }

  lemma DispatchKeeps(r: Remote, chunk: Data)
    requires Inv(r)
    ensures Inv(Dispatch(r, chunk))
  {
    hide Inv, ParseStream, DeliverAll;
    var p := ParseStream(r.held + chunk);
    DeliverAllKeeps(r, p.packets);
    HeldIsFree(DeliverAll(r, p.packets), p.rest, r.stream + chunk);
    if p.bad { DownKeeps(DeliverAll(r, p.packets).(held := p.rest, stream := r.stream + chunk)); }
  }

  /** One call changes; it keeps its number, and does not become or stop being the reader. */
  lemma OneChanges(r: Remote, i: nat, c: Call)
    requires Inv(r) && i < |r.calls| && CallInv(c, r)
    requires Active(c) ==> Active(r.calls[i]) && c.id == r.calls[i].id
    requires (c.phase == Reading) == (r.calls[i].phase == Reading)
    requires c.phase == Sleeping ==> r.reader.Some?
    ensures Inv(At(r, i, c))
  {
    hide HistoryInv, PhaseInv, HostInv;
    var r' := At(r, i, c);
    forall k | 0 <= k < |r.calls|
      ensures CallInv(r'.calls[k], r')
    {
      assert CallInv(r.calls[k], r);
    }
  }

  lemma StartedKeeps(r: Remote, left: Data)
    requires Inv(r) && !r.alive
    ensures Inv(r.(alive := true, held := left, stream := left))
  {
    hide HistoryInv, PhaseInv;
    var r' := r.(alive := true, held := left, stream := left);
    forall k | 0 <= k < |r.calls|
      ensures CallInv(r'.calls[k], r')
    {
      assert CallInv(r.calls[k], r);
    }
  }

  lemma BeginKeeps(r: Remote)
    requires Inv(r) && r.alive
    ensures Inv(BeginCall(r))
  {
    hide HistoryInv, PhaseInv, FreeSlot;
    var r' := BeginCall(r);
    var i := FreeSlot(r.calls);
    NewHistory(r);
    forall k | 0 <= k < |r'.calls|
      ensures CallInv(r'.calls[k], r') && (k != i ==> k < |r.calls| && r'.calls[k] == r.calls[k])
      ensures k != i && Active(r'.calls[k]) ==> r'.calls[k].id < r.nextId
    {
      if k != i { assert CallInv(r.calls[k], r); }
    }
    assert r'.calls[i] == NewCall(r);
  }

  lemma NewHistory(r: Remote)
    ensures HistoryInv(NewCall(r), r.log) && PhaseInv(NewCall(r))
  {
    assert r.log[|r.log|..] == [];
  }

  lemma LookKeeps(r: Remote, i: nat)
    requires Inv(r) && Is(r, i, Waiting)
    ensures Inv(LookAround(r, i))
  {
    hide HistoryInv, HostInv;
    var c := r.calls[i];
    assert CallInv(c, r);
    if c.inbox != [] {
      var c' := c.(phase := Processing, work := c.inbox, inbox := []);
      LookHistory(c, c', r.log);
      assert c.handled + c.inbox == c.handled + c.inbox + [];
      OneChanges(r, i, c');
    } else if c.failed {
      LookHistory(c, c.(phase := Broken), r.log);
      OneChanges(r, i, c.(phase := Broken));
    } else if r.reader.Some? {
      assert c.handled + [] == c.handled;
      LookHistory(c, c.(phase := Sleeping), r.log);
      OneChanges(r, i, c.(phase := Sleeping));
    } else {
      LookHistory(c, c.(phase := Reading), r.log);
      BecomesReader(r, i);
    }
  }

  lemma LookHistory(c: Call, c': Call, log: seq<Arrival>)
    requires Active(c) && Active(c')
    requires c' == c.(phase := c'.phase, work := c'.work, inbox := c'.inbox, handled := c'.handled)
    ensures HistoryInv(c, log) == HistoryInv(c', log)
    ensures forall alive, generation, nextId ::
      HostInv(c, alive, generation, nextId) == HostInv(c', alive, generation, nextId)
  {
    hide Mine, HasFinal;
  }

  lemma BecomesReader(r: Remote, i: nat)
    requires Inv(r) && Is(r, i, Waiting) && r.reader.None? && CallInv(r.calls[i].(phase := Reading), r)
    ensures Inv(At(r, i, r.calls[i].(phase := Reading)).(reader := Some(i)))
  {
    hide HistoryInv, PhaseInv, HostInv;
    var r' := At(r, i, r.calls[i].(phase := Reading)).(reader := Some(i));
    forall k | 0 <= k < |r.calls|
      ensures CallInv(r'.calls[k], r')
    {
      assert CallInv(r.calls[k], r);
    }
  }

  lemma LeaveKeeps(r: Remote, i: nat)
    requires Inv(r) && Enabled(r, Leave(i))
    ensures Inv(Next(r, Leave(i)))
  {
    hide HistoryInv, HostInv;
    var r' := Next(r, Leave(i));
    forall k | 0 <= k < |r.calls|
      ensures CallInv(r'.calls[k], r') && Active(r'.calls[k]) == Active(r.calls[k]) && r'.calls[k].id == r.calls[k].id
      ensures r'.calls[k].phase != Reading && r'.calls[k].phase != Sleeping
    {
      var c := r.calls[k];
      assert CallInv(c, r);
      assert k != i ==> c.phase != Reading;
      if Active(c) {
        LookHistory(c, r'.calls[k], r.log);
        assert c.phase == Sleeping ==> c.handled + c.inbox == c.handled;
      }
    }
  }

  /** Every step keeps the invariant. */
  lemma StepKeeps(r: Remote, s: Step)
    requires Inv(r) && Enabled(r, s)
    ensures Inv(Next(r, s))
  {
    hide Inv, BeginCall, LookAround, Dispatch, Down, ProcessWork;
    match s
    case StartFails => DownKeeps(r);
    case Begin(left) =>
      if r.alive { BeginKeeps(r); } else {
        StartedKeeps(r, left);
        BeginKeeps(r.(alive := true, held := left, stream := left));
      }
    case Send(i) => PhaseStep(r, i, s);
    case GiveUp(i) => ReleaseKeeps(r, i);
    case Look(i) => LookKeeps(r, i);
    case Spurious(i) => PhaseStep(r, i, s);
    case Read(i, chunk) => DispatchKeeps(r, chunk);
    case Closed(i) => DownKeeps(r);
    case TimerKill(i) => DownKeeps(r);
    case Leave(i) => LeaveKeeps(r, i);
    case Process(i) => ProcessStep(r, i);
    case Malformed(i) => DownKeeps(r);
    case Release(i) => ReleaseKeeps(r, i);
  }

  lemma PhaseStep(r: Remote, i: nat, s: Step)
    requires Inv(r) && Enabled(r, s) && (s == Send(i) || s == Spurious(i))
    ensures Inv(Next(r, s))
  {
    hide HistoryInv, HostInv;
    var c := r.calls[i];
    assert CallInv(c, r);
    var c' := c.(phase := Waiting);
    LookHistory(c, c', r.log);
    assert [] + c.inbox == c.inbox && c.handled + [] == c.handled;
    assert !HasFinal([]);
    OneChanges(r, i, c');
  }

  lemma ProcessStep(r: Remote, i: nat)
    requires Inv(r) && Is(r, i, Processing)
    ensures Inv(At(r, i, ProcessWork(r.calls[i])))
  {
    hide HistoryInv, HostInv, PhaseInv;
    var c := r.calls[i];
    assert CallInv(c, r);
    LookHistory(c, ProcessWork(c), r.log);
    ProcessKeeps(c);
    OneChanges(r, i, ProcessWork(c));
  }

  lemma ReleaseKeeps(r: Remote, i: nat)
    requires Inv(r) && i < |r.calls| && r.calls[i].phase != Reading
    ensures Inv(At(r, i, Released(r.calls[i])))
  {
    hide HistoryInv, HostInv, PhaseInv;
    OneChanges(r, i, Released(r.calls[i]));
  }

  // ---- whole runs ----

  predicate Run(r: Remote, steps: seq<Step>)
    decreases |steps|
  {
    steps == [] || (Enabled(r, steps[0]) && Run(Next(r, steps[0]), steps[1..]))
  }

  function After(r: Remote, steps: seq<Step>): Remote
    requires Run(r, steps)
    decreases |steps|
  {
    if steps == [] then r else After(Next(r, steps[0]), steps[1..])
  }

  predicate Fresh(r: Remote) {
    r.calls == [] && r.reader == None && r.log == []
  }

  lemma {:induction false} RunKeeps(r: Remote, steps: seq<Step>)
    requires Inv(r) && Run(r, steps)
    ensures Inv(After(r, steps))
    decreases |steps|
  {
    hide Inv, Enabled, Next;
    if steps != [] {
      StepKeeps(r, steps[0]);
      RunKeeps(Next(r, steps[0]), steps[1..]);
    }
  }

  // ---- the log is the stream ----

  function PacketsOf(log: seq<Arrival>, generation: nat): seq<Packet> {
    if log == [] then [] else
    var a := log[|log| - 1];
    PacketsOf(log[..|log| - 1], generation) + if a.generation == generation then [a.packet] else []
  }

  function Arrivals(ps: seq<Packet>, generation: nat): seq<Arrival> {
    seq(|ps|, k requires 0 <= k < |ps| => Arrival(generation, ps[k]))
  }

  predicate LogBound(log: seq<Arrival>, generation: nat, alive: bool) {
    forall k :: 0 <= k < |log| ==> log[k].generation <= generation && (!alive ==> log[k].generation != generation)
  }

  /** What was dispatched and what is still held make up the frames of the whole stream. */
  predicate WireInv(r: Remote) {
    && LogBound(r.log, r.generation, r.alive)
    && (r.alive ==>
          var q := ParseStream(r.held);
          ParseStream(r.stream) == Parse(PacketsOf(r.log, r.generation) + q.packets, q.rest, q.bad))
  }

  lemma {:induction false} DeliverAllLog(r: Remote, ps: seq<Packet>)
    ensures var r' := DeliverAll(r, ps);
            r'.log == r.log + Arrivals(ps, r.generation) && r'.(calls := r.calls, log := r.log) == r
    decreases |ps|
  {
    hide FindCall, Given;
    if ps == [] {
      assert r.log + [] == r.log;
    } else {
      DeliverAllLog(Deliver(r, ps[0]), ps[1..]);
      assert [Arrival(r.generation, ps[0])] + Arrivals(ps[1..], r.generation) == Arrivals(ps, r.generation);
    }
  }

  lemma {:induction false} PacketsOfMore(log: seq<Arrival>, ps: seq<Packet>, generation: nat)
    ensures PacketsOf(log + Arrivals(ps, generation), generation) == PacketsOf(log, generation) + ps
    decreases |ps|
  {
    if ps == [] {
      assert log + Arrivals(ps, generation) == log;
    } else {
      var n := |ps| - 1;
      PacketsOfMore(log, ps[..n], generation);
      var all := log + Arrivals(ps, generation);
      assert all[..|all| - 1] == log + Arrivals(ps[..n], generation);
      assert all[|all| - 1] == Arrival(generation, ps[n]);
      assert PacketsOf(log, generation) + ps[..n] + [ps[n]] == PacketsOf(log, generation) + ps;
    }
  }

  lemma {:induction false} NoPacketsYet(log: seq<Arrival>, generation: nat)
    requires forall k :: 0 <= k < |log| ==> log[k].generation != generation
    ensures PacketsOf(log, generation) == []
  {
    if log != [] { NoPacketsYet(log[..|log| - 1], generation); }
  }

  /** Reading on: the frames found in what was held and the new chunk are those the stream gains. */
  lemma ReadMore(stream: Data, held: Data, chunk: Data, before: seq<Packet>)
    requires var q := ParseStream(held); ParseStream(stream) == Parse(before + q.packets, q.rest, q.bad)
    ensures var q := ParseStream(held + chunk);
            && ParseStream(stream + chunk).packets == before + q.packets && ParseStream(stream + chunk).bad == q.bad
            && (!q.bad ==>
                  && ParseStream(stream + chunk).rest == q.rest
                  && ParseStream(q.rest) == Parse([], q.rest, false))
  {
    hide ParseStream;
    var q := ParseStream(held);
    if q.bad {
      BadStays(held, chunk);
      BadStays(stream, chunk);
    } else {
      MoreArrives(held, chunk);
      MoreArrives(stream, chunk);
      var more := ParseStream(q.rest + chunk);
      assert before + q.packets + more.packets == before + (q.packets + more.packets);
      if !more.bad { RestIsShort(held + chunk); }
    }
  }

  lemma DispatchWire(r: Remote, chunk: Data)
    requires WireInv(r) && r.alive
    ensures WireInv(Dispatch(r, chunk))
  {
    hide ParseStream, DeliverAll;
    var p := ParseStream(r.held + chunk);
    DeliverAllLog(r, p.packets);
    ReadMore(r.stream, r.held, chunk, PacketsOf(r.log, r.generation));
    PacketsOfMore(r.log, p.packets, r.generation);
    var all := PacketsOf(r.log, r.generation) + p.packets;
    assert all + [] == all;
  }

  lemma WireKeeps(r: Remote, s: Step)
    requires Inv(r) && WireInv(r) && Enabled(r, s)
    ensures WireInv(Next(r, s))
  {
    hide ParseStream, Dispatch, ProcessWork, PacketsOf, FreeSlot, PhaseInv, Mine;
    if s.Read? {
      assert CallInv(r.calls[s.i], r);
      ReaderIsUnresolved(r, s.i);
      DispatchWire(r, s.chunk);
    } else if s.Begin? && !r.alive {
      NoPacketsYet(r.log, r.generation);
      var q := ParseStream(s.left);
      assert [] + q.packets == q.packets;
    }
  }

  lemma ReaderIsUnresolved(r: Remote, i: nat)
    requires Inv(r) && ReadsOn(r, i)
    ensures r.alive && r.calls[i].generation == r.generation && r.reader == Some(i)
  {
    hide Mine;
    var c := r.calls[i];
    assert CallInv(c, r);
    assert c.handled + [] == c.handled;
  }

  lemma {:induction false} WireRunKeeps(r: Remote, steps: seq<Step>)
    requires Inv(r) && WireInv(r) && Run(r, steps)
    ensures WireInv(After(r, steps))
    decreases |steps|
  {
    hide Inv, WireInv, Enabled, Next;
    if steps != [] {
      StepKeeps(r, steps[0]);
      WireKeeps(r, steps[0]);
      WireRunKeeps(Next(r, steps[0]), steps[1..]);
    }
  }

  /** In every reachable state the frames dispatched for the present host, with those held back, are the frames of all
      the bytes read from it, however the reads cut them and whoever read. */
  lemma LogIsStream(start: Remote, steps: seq<Step>)
    requires Fresh(start) && Run(start, steps) && After(start, steps).alive
    requires start.alive ==> start.held == start.stream
    ensures var r := After(start, steps);
            var q := ParseStream(r.held);
            ParseStream(r.stream) == Parse(PacketsOf(r.log, r.generation) + q.packets, q.rest, q.bad)
  {
    hide Run, After, ParseStream;
    var q := ParseStream(start.held);
    assert [] + q.packets == q.packets;
    WireRunKeeps(start, steps);
  }

  /** In every reachable state: what a call was given is what came for it from its own host since it began, in order;
      a call that ends well has gone through exactly the frames up to its first final one; one that ends badly was
      never given a final frame; and one without outcome has a live host of its own generation. */
  lemma OneOutcome(start: Remote, steps: seq<Step>, i: nat)
    requires Fresh(start) && Run(start, steps)
    requires i < |After(start, steps).calls| && Active(After(start, steps).calls[i])
    ensures var r := After(start, steps);
            var c := r.calls[i];
            && c.since <= |r.log| && c.got == Mine(r.log[c.since..], c.generation, c.id)
            && (c.phase == Finished ==> !c.failed && HasFinal(c.got) && c.handled == UpToFinal(c.got))
            && (c.phase == Broken ==> c.failed && !HasFinal(c.got))
            && !(c.failed && c.finalQueued)
            && (Unresolved(c) ==> r.alive && c.generation == r.generation)
  {
    hide Run, After;
    RunKeeps(start, steps);
    var r := After(start, steps);
    assert CallInv(r.calls[i], r);
  }

  /** The callbacks of a call that has not ended are a prefix, in order, of what came for it. */
  lemma CallbacksInOrder(start: Remote, steps: seq<Step>, i: nat)
    requires Fresh(start) && Run(start, steps)
    requires i < |After(start, steps).calls| && Active(After(start, steps).calls[i])
    ensures var c := After(start, steps).calls[i];
            && c.handled <= c.got
            && forall k :: 0 <= k < |c.handled| - 1 ==> !IsFinal(c.handled[k])
  {
    hide Run, After;
    RunKeeps(start, steps);
    var r := After(start, steps);
    var c := r.calls[i];
    assert CallInv(c, r);
    if c.phase == Finished {
      FinalLast(c.got);
      UpToFinalStops(c.got, []);
    }
  }

  lemma {:induction false} FinalLast(ps: seq<Packet>)
    ensures forall k :: 0 <= k < |UpToFinal(ps)| - 1 ==> !IsFinal(UpToFinal(ps)[k])
  {
    if ps != [] { FinalLast(ps[1..]); }
  }

  /** When the host goes, because its pipe closed, a timer ran out or it could not be started, a new generation begins
      with nothing held back, and no call is left waiting for the old one: those that it owed a final frame fail and are
      awake, all others keep what they have. */
  lemma HostLost(r: Remote, s: Step, i: nat)
    requires Inv(r) && Enabled(r, s) && (s.StartFails? || s.Closed? || s.TimerKill?) && i < |r.calls|
    ensures var t := Next(r, s);
            && !t.alive && t.generation == r.generation + 1 && t.held == [] && |t.calls| == |r.calls|
            && var c, d := r.calls[i], t.calls[i];
               && !Unresolved(d)
               && (Unresolved(c) ==> d.failed && d.phase != Sleeping && d.got == c.got && d.handled == c.handled)
               && (!Unresolved(c) ==> d == c)
  {
    hide IdsDistinct, ReaderInv, HistoryInv, PhaseInv;
    assert CallInv(r.calls[i], r);
  }

  /** The host is let go only by the reader, or while nobody reads. */
  lemma ReleasedByReader(r: Remote, s: Step)
    requires Inv(r) && Enabled(r, s) && r.alive && !Next(r, s).alive
    ensures r.reader.None? || (s.Read? && r.reader == Some(s.i)) || (s.Closed? && r.reader == Some(s.i))
         || (s.TimerKill? && r.reader == Some(s.i))
  {
    hide AllCalls, IdsDistinct, Down, Dispatch, Deliver, DeliverAll, ProcessWork, FreeSlot;
  }

  /** While somebody reads, the host stays: a blocking read never loses it. */
  lemma ReadersHost(start: Remote, steps: seq<Step>, i: nat)
    requires Fresh(start) && Run(start, steps) && ReadsOn(After(start, steps), i)
    ensures After(start, steps).alive && After(start, steps).reader == Some(i)
  {
    hide Run, After;
    RunKeeps(start, steps);
    ReaderIsUnresolved(After(start, steps), i);
  }

  /** A call that sleeps has nothing to wake up for yet, and another call holds the reader role. */
  lemma NoLostWakeup(start: Remote, steps: seq<Step>, i: nat)
    requires Fresh(start) && Run(start, steps) && Is(After(start, steps), i, Sleeping)
    ensures var r := After(start, steps);
            && r.calls[i].inbox == [] && !r.calls[i].failed
            && r.reader.Some? && r.reader.value != i && Is(r, r.reader.value, Reading)
  {
    hide Run, After, Mine, HasFinal;
    RunKeeps(start, steps);
    var r := After(start, steps);
    assert CallInv(r.calls[i], r);
  }

  /** Steps that a caller takes without its host. */
  predicate Own(s: Step) {
    s.Send? || s.Look? || s.Leave? || s.Process? || s.Release?
  }

  /** The thread of an active call that does not sleep can take its next step without its host, unless it is the one in
      the blocking read with nothing delivered to it; then whatever the host does next, bytes or the end of the pipe,
      moves it on. */
  lemma NeverStuck(r: Remote, i: nat)
    requires Inv(r) && i < |r.calls| && Active(r.calls[i]) && r.calls[i].phase != Sleeping
    ensures (exists s :: Own(s) && Enabled(r, s) && s.i == i) <==> !ReadsOn(r, i)
    ensures ReadsOn(r, i) ==>
      && r.alive && r.reader == Some(i) && Enabled(r, Closed(i))
      && forall chunk :: Enabled(r, Read(i, chunk))
  {
    var c := r.calls[i];
    if !ReadsOn(r, i) {
      var s := match c.phase
        case Sending => Send(i)
        case Waiting => Look(i)
        case Reading => Leave(i)
        case Processing => Process(i)
        case _ => Release(i);
      assert Own(s) && Enabled(r, s);
    } else {
      ReaderIsUnresolved(r, i);
    }
  }

  /** How far a call is from an end of its own steps, apart from the frames it still has to go through. */
  function Distance(c: Call): nat {
    match c.phase
    case Sending => 6
    case Waiting => if c.inbox == [] && !c.failed then 5 else 3
    case Reading => 4
    case Processing => 2
    case Finished => 1
    case Broken => 1
    case Sleeping => 0
    case Idle => 0
  }

  /** The step goes through frames that were given to the call or brings it nearer to the end of its own steps. */
  predicate Nearer(c: Call, d: Call) {
    var before, after := |c.inbox| + |c.work|, |d.inbox| + |d.work|;
    after < before || (after == before && Distance(d) < Distance(c))
  }

  /** No caller spins: each of its own steps brings it nearer to its end, to the blocking read or to sleep, and changes
      other calls only by waking them. */
  lemma OwnStepsEnd(r: Remote, s: Step, k: nat)
    requires Inv(r) && Own(s) && Enabled(r, s)
    ensures var t := Next(r, s);
            && |t.calls| == |r.calls| && (!s.Release? ==> Nearer(r.calls[s.i], t.calls[s.i]))
            && (s.Release? ==> t.calls[s.i].phase == Idle)
            && (k < |r.calls| && k != s.i ==>
                  || t.calls[k] == r.calls[k]
                  || (r.calls[k].phase == Sleeping && t.calls[k] == r.calls[k].(phase := Waiting)))
  {
    hide IdsDistinct, HistoryInv, HostInv, Mine, HasFinal, UpToFinal;
    assert CallInv(r.calls[s.i], r);
  }
}
