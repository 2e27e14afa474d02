/** Callers that share one engine host over one pipe: whoever waits and finds no reader reads for everybody. */
module RemoteCalls {
  import opened Options
  import opened Bytes
  import opened FrameStream

  /** Where the calling thread is. Sleeping is a wait for a notification, Reading the reader's blocking read. */
  datatype Phase = Idle | Sending | Waiting | Sleeping | Reading | Processing | Finished | Broken

  /** A call slot. `since`, `got` and `handled` are history: the arrivals before the call began, the frames given to
      it, and those its own thread has gone through. */
  datatype Call = Call(
    phase: Phase, id: nat, generation: nat, inbox: seq<Packet>, work: seq<Packet>, finalQueued: bool, failed: bool,
    since: nat, got: seq<Packet>, handled: seq<Packet>)

  datatype Arrival = Arrival(generation: nat, packet: Packet)

  /** `reader` is the slot that holds the reader role. History: `log` is every frame dispatched so far, `stream` all
      that was read from the present host. */
  datatype Remote = Remote(
    alive: bool, generation: nat, reader: Option<nat>, held: Data, calls: seq<Call>, nextId: nat,
    log: seq<Arrival>, stream: Data)

  predicate Active(c: Call) {
    c.phase != Idle
  }

  predicate Unresolved(c: Call) {
    Active(c) && !c.finalQueued && !c.failed
  }

  // ---- handing out frames ----

  function FindCall(calls: seq<Call>, id: nat): (i: Option<nat>)
    ensures i.Some? ==> i.value < |calls| && Active(calls[i.value]) && calls[i.value].id == id
    ensures i.None? ==> forall k :: 0 <= k < |calls| ==> !(Active(calls[k]) && calls[k].id == id)
  {
    if calls == [] then None
    else if Active(calls[0]) && calls[0].id == id then Some(0)
    else
      var later := FindCall(calls[1..], id);
      if later.Some? then Some(later.value + 1)
      else
        assert forall k :: 1 <= k < |calls| ==> calls[k] == calls[1..][k - 1];
        None
  }

  function Woken(p: Phase): Phase {
    if p == Sleeping then Waiting else p
  }

  function Given(c: Call, p: Packet): Call {
    c.(inbox := c.inbox + [p], got := c.got + [p], finalQueued := c.finalQueued || IsFinal(p), phase := Woken(c.phase))
  }

  function Deliver(r: Remote, p: Packet): Remote {
    var i := FindCall(r.calls, p.id);
    var logged := r.(log := r.log + [Arrival(r.generation, p)]);
    if i.Some? && r.calls[i.value].generation == r.generation && !r.calls[i.value].failed
    then logged.(calls := r.calls[i.value := Given(r.calls[i.value], p)])
    else logged
  }

  function DeliverAll(r: Remote, ps: seq<Packet>): Remote
    decreases |ps|
  {
    if ps == [] then r else DeliverAll(Deliver(r, ps[0]), ps[1..])
  }

  function FailCall(c: Call, generation: nat): Call {
    if Unresolved(c) && c.generation == generation then c.(failed := true, phase := Woken(c.phase)) else c
  }

  function FailAll(calls: seq<Call>, generation: nat): (r: seq<Call>)
    ensures |r| == |calls|
    ensures forall i :: 0 <= i < |calls| ==> r[i] == FailCall(calls[i], generation)
  {
    seq(|calls|, i requires 0 <= i < |calls| => FailCall(calls[i], generation))
  }

  /** The host is gone: its calls fail, unless their final frame is already queued. */
  function Down(r: Remote): Remote {
    r.(alive := false, generation := r.generation + 1, held := [], calls := FailAll(r.calls, r.generation))
  }

  function Dispatch(r: Remote, chunk: Data): Remote {
    var p := ParseStream(r.held + chunk);
    var given := DeliverAll(r, p.packets).(held := p.rest, stream := r.stream + chunk);
    if p.bad then Down(given) else given
  }

  function WakeAll(calls: seq<Call>): (r: seq<Call>)
    ensures |r| == |calls|
    ensures forall i :: 0 <= i < |calls| ==> r[i] == calls[i].(phase := Woken(calls[i].phase))
  {
    seq(|calls|, i requires 0 <= i < |calls| => calls[i].(phase := Woken(calls[i].phase)))
  }

  /** The frames up to and including the first final one. */
  function UpToFinal(ps: seq<Packet>): (r: seq<Packet>) {
    if ps == [] then [] else if IsFinal(ps[0]) then [ps[0]] else [ps[0]] + UpToFinal(ps[1..])
  }

  predicate HasFinal(ps: seq<Packet>) {
    exists k :: 0 <= k < |ps| && IsFinal(ps[k])
  }

  // ---- the steps ----

  function FreeSlot(calls: seq<Call>): (i: nat)
    ensures i <= |calls|
    ensures i < |calls| ==> !Active(calls[i])
  {
    if calls == [] then 0 else if !Active(calls[0]) then 0 else 1 + FreeSlot(calls[1..])
  }

  datatype Step =
    | StartFails                          // the host could not be started again
    | Begin(left: Data)                   // a slot for a new call; `left` is what a fresh host sent after its start
    | Send(i: nat) | GiveUp(i: nat)       // the request is written, or cannot be encoded
    | Look(i: nat)                        // the top of the waiting loop
    | Spurious(i: nat)
    | Read(i: nat, chunk: Data) | Closed(i: nat) | TimerKill(i: nat) | Leave(i: nat)
    | Process(i: nat)
    | Malformed(i: nat)                   // the final frame makes no sense to the caller
    | Release(i: nat)

  predicate Is(r: Remote, i: nat, p: Phase) {
    i < |r.calls| && r.calls[i].phase == p
  }

  predicate ReadsOn(r: Remote, i: nat) {
    Is(r, i, Reading) && r.calls[i].inbox == [] && !r.calls[i].failed
  }

  predicate Enabled(r: Remote, s: Step) {
    match s
    case StartFails => !r.alive
    case Begin(_) => true
    case Send(i) => Is(r, i, Sending)
    case GiveUp(i) => Is(r, i, Sending)
    case Look(i) => Is(r, i, Waiting)
    case Spurious(i) => Is(r, i, Sleeping)
    case Read(i, _) => ReadsOn(r, i)
    case Closed(i) => ReadsOn(r, i)
    case TimerKill(i) => ReadsOn(r, i)
    case Leave(i) => Is(r, i, Reading) && (r.calls[i].inbox != [] || r.calls[i].failed)
    case Process(i) => Is(r, i, Processing)
    case Malformed(i) => Is(r, i, Finished)
    case Release(i) => Is(r, i, Finished) || Is(r, i, Broken)
  }

  function At(r: Remote, i: nat, c: Call): Remote
    requires i < |r.calls|
  {
    r.(calls := r.calls[i := c])
  }

  function NewCall(r: Remote): Call {
    Call(Sending, r.nextId, r.generation, [], [], false, false, |r.log|, [], [])
  }

  function BeginCall(r: Remote): Remote {
    var i := FreeSlot(r.calls);
    var calls := if i < |r.calls| then r.calls[i := NewCall(r)] else r.calls + [NewCall(r)];
    r.(calls := calls, nextId := r.nextId + 1)
  }

  function LookAround(r: Remote, i: nat): Remote
    requires i < |r.calls|
  {
    var c := r.calls[i];
    if c.inbox != [] then At(r, i, c.(phase := Processing, work := c.inbox, inbox := []))
    else if c.failed then At(r, i, c.(phase := Broken))
    else if r.reader.Some? then At(r, i, c.(phase := Sleeping))
    else At(r, i, c.(phase := Reading)).(reader := Some(i))
  }

  function ProcessWork(c: Call): Call {
    c.(phase := if HasFinal(c.work) then Finished else Waiting, handled := c.handled + UpToFinal(c.work), work := [])
  }

  function Released(c: Call): Call {
    c.(phase := Idle, inbox := [], work := [])
  }

  function Next(r: Remote, s: Step): Remote
    requires Enabled(r, s)
  {
    match s
    case StartFails => Down(r)
    case Begin(left) => BeginCall(if r.alive then r else r.(alive := true, held := left, stream := left))
    case Send(i) => At(r, i, r.calls[i].(phase := Waiting))
    case GiveUp(i) => At(r, i, Released(r.calls[i]))
    case Look(i) => LookAround(r, i)
    case Spurious(i) => At(r, i, r.calls[i].(phase := Waiting))
    case Read(i, chunk) => Dispatch(r, chunk)
    case Closed(i) => Down(r)
    case TimerKill(i) => Down(r)
    case Leave(i) =>
      var c := r.calls[i].(phase := Waiting);
      At(r, i, c).(reader := None, calls := WakeAll(r.calls[i := c]))
    case Process(i) => At(r, i, ProcessWork(r.calls[i]))
    case Malformed(i) => if r.alive && r.calls[i].generation == r.generation && r.reader.None? then Down(r) else r
    case Release(i) => At(r, i, Released(r.calls[i]))
  }

  // ---- what holds in every state ----

  /** The frames of one call, in the order they came. */
  function Mine(log: seq<Arrival>, generation: nat, id: nat): seq<Packet> {
    if log == [] then [] else
    var a := log[|log| - 1];
    Mine(log[..|log| - 1], generation, id) + if a.generation == generation && a.packet.id == id then [a.packet] else []
  }

  predicate HistoryInv(c: Call, log: seq<Arrival>) {
    && c.since <= |log| && c.got == Mine(log[c.since..], c.generation, c.id)
    && (c.finalQueued <==> HasFinal(c.got))
  }

  predicate HostInv(c: Call, alive: bool, generation: nat, nextId: nat) {
    && c.id < nextId && c.generation <= generation
    && !(c.failed && c.finalQueued)
    && (Unresolved(c) ==> alive && c.generation == generation)
    && (c.failed ==> c.generation < generation)
  }

  predicate PhaseInv(c: Call) {
    match c.phase
    case Idle => true
    case Sending => c.got == c.inbox && c.handled == []
    case Waiting => c.got == c.handled + c.inbox && !HasFinal(c.handled)
    case Sleeping => c.got == c.handled && c.inbox == [] && !HasFinal(c.handled) && !c.failed
    case Reading => c.got == c.handled + c.inbox && !HasFinal(c.handled)
    case Processing => c.got == c.handled + c.work + c.inbox && !HasFinal(c.handled) && c.work != []
    case Finished => HasFinal(c.got) && c.handled == UpToFinal(c.got)
    case Broken => c.failed && c.got == c.handled + c.inbox && !HasFinal(c.handled)
  }

  predicate CallInv(c: Call, r: Remote) {
    Active(c) ==> HistoryInv(c, r.log) && HostInv(c, r.alive, r.generation, r.nextId) && PhaseInv(c)
  }

  predicate IdsDistinct(calls: seq<Call>) {
    forall i, j :: 0 <= i < j < |calls| && Active(calls[i]) && Active(calls[j]) ==> calls[i].id != calls[j].id
  }

  /** At most one reader, and nobody sleeps without one. */
  predicate ReaderInv(reader: Option<nat>, calls: seq<Call>) {
    && (reader.Some? ==> reader.value < |calls| && calls[reader.value].phase == Reading)
    && (forall i :: 0 <= i < |calls| && calls[i].phase == Reading ==> reader == Some(i))
    && (reader.None? ==> forall i :: 0 <= i < |calls| ==> calls[i].phase != Sleeping)
  }

  predicate AllCalls(r: Remote) {
    forall i :: 0 <= i < |r.calls| ==> CallInv(r.calls[i], r)
  }

  predicate Inv(r: Remote) {
    AllCalls(r) && IdsDistinct(r.calls) && ReaderInv(r.reader, r.calls)
  }
}
