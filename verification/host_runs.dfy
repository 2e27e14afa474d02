/** One Run on a worker of the engine host: whatever goes wrong, the core gets one final frame, after all others. */
module HostRuns {
  import opened Options
  import opened Bytes
  import opened Arenas
  import opened Codec
  import opened CodecRoundTrip
  import opened CodecFrames
  import opened FrameStream
  import opened CallbackFrames

  const RESPONSE: u32 := 105

  const OK: i32 := 0
  const INIT_FAILED: i32 := 4
  const DECODE_FAILED: i32 := 6
  const PARSE: i32 := 9

  const NO_INSTANCE := Ascii("agent-engine-host: no engine instance")
  const MALFORMED := Ascii("agent-engine-host: malformed Run frame")
  const NOT_MAPPED := Ascii("agent-engine-host: cannot map the request's shared memory")
  const TOO_LONG := Ascii("agent-engine-host: response exceeds the 1 GiB frame limit")

  /** What the engine does with a request: the callbacks it makes, its status and what it answers. */
  datatype Outcome = Outcome(callbacks: seq<Callback>, status: i32, response: Response, error: Data)

  /** The segment a response may use, and the one it retires. */
  datatype Room = Room(name: Data, segment: Option<Segment>, retire: Data)

  // ---- what the host makes of a Run frame ----

  datatype Heard = Asks(request: Request) | Refuses(status: i32, message: Data)

  /** `memory` is what the host can map of a named segment, `capacity` the size of the job's arena. */
  function Hear(instance: bool, payload: Data, memory: (Data, u64) -> Option<Data>, base: nat,
                capacity: nat): (r: Heard)
    ensures r.Refuses? ==> |r.message| <= MAX_FRAME - 8
  {
    if !instance then Refuses(INIT_FAILED, NO_INSTANCE) else
    match GetNaming(payload)
    case Bad => Refuses(PARSE, MALFORMED)
    case Got(n, rest) =>
      var mapped := if n.name == [] then None else memory(n.name, n.size);
      if n.name != [] && mapped.None? then Refuses(INIT_FAILED, NOT_MAPPED) else
      match GetRequest(mapped, rest, Arena(base, capacity, 0))
      case Done(request, _, _) => Asks(request)
      case _ => Refuses(PARSE, MALFORMED)
  }

  /** The arena grows to twice the bound when it is below it. */
  function Grown(capacity: nat, payload: Data): (r: nat)
    ensures r >= capacity && r >= DecodeArenaBound(|payload|)
    ensures r > capacity ==> r == 2 * DecodeArenaBound(|payload|)
  {
    var need := DecodeArenaBound(|payload|);
    if need > capacity then need * 2 else capacity
  }

  /** The engine is asked exactly what the core wrote. */
  lemma HeardAsSent(n: Naming, r: Request, s: Option<Segment>, memory: (Data, u64) -> Option<Data>, base: nat,
                    capacity: nat)
    requires Sane(s) && |RunPayload(n, r, s).bytes| <= MAX_FRAME
    requires Keeps(RunPayload(n, r, s).segment, if n.name == [] then None else memory(n.name, n.size))
    requires n.name == [] || memory(n.name, n.size).Some?
    ensures var payload := RunPayload(n, r, s).bytes;
            Hear(true, payload, memory, base, Grown(capacity, payload)) == Asks(NormalRequest(r))
  {
    hide PutNaming, PutRequest, GetNaming, GetRequest, Keeps, NormalRequest;
    var payload := RunPayload(n, r, s).bytes;
    RunFrameRoundTrip(n, r, s, if n.name == [] then None else memory(n.name, n.size), 2, 0, [], base,
                      Grown(capacity, payload));
  }

  // ---- what the core gets ----

  /** Frames of one run: chunks and progress, then one final frame, all with its number. */
  ghost predicate OneFinal(id: u64, sent: seq<Packet>) {
    && sent != [] && (forall p <- sent :: p.id == id) && IsFinal(sent[|sent| - 1])
    && forall i :: 0 <= i < |sent| - 1 ==> !IsFinal(sent[i])
  }

  function Answered(room: Room, r: Response): Data
    requires Sane(room.segment)
  {
    ResponsePayload(Naming(room.name, if room.segment.Some? then |room.segment.value.memory| else 0, room.retire),
                    r, room.segment).bytes
  }

  /** The final frame of a run. */
  function FinalPacket(id: u64, heard: Heard, engine: Request -> Outcome, room: Room): Packet
    requires Sane(room.segment)
  {
    match heard
    case Refuses(status, message) => ErrorPacket(id, status, message)
    case Asks(request) =>
      var o := engine(request);
      if o.status != OK then ErrorPacket(id, o.status, o.error)
      else if |Answered(room, o.response)| > MAX_FRAME then ErrorPacket(id, DECODE_FAILED, TOO_LONG)
      else Packet(RESPONSE, id, Answered(room, o.response))
  }

  /** Runs a job. The response's segment stays taken exactly if the core is told to use it. */
  method RunJob(id: u64, payload: Data, instance: bool, memory: (Data, u64) -> Option<Data>, base: nat, capacity: nat,
                engine: Request -> Outcome, room: Room)
    returns (sent: seq<Packet>, capacity': nat, busy: bool)
    requires Sane(room.segment)
    ensures OneFinal(id, sent)
    ensures var heard := Hear(instance, payload, memory, base, Grown(capacity, payload));
            && sent[|sent| - 1] == FinalPacket(id, heard, engine, room)
            && sent[..|sent| - 1] ==
               if heard.Refuses? then []
               else Forwarded(id, heard.request.runFlags, engine(heard.request).callbacks)
    ensures var heard := Hear(instance, payload, memory, base, Grown(capacity, payload));
            heard.Asks? ==> CoreHears(heard.request.runFlags, engine(heard.request).callbacks, sent[..|sent| - 1])
    ensures forall i :: 0 <= i < |sent| - 1 ==> Sendable(sent[i])
    ensures busy <==> room.segment.Some? && sent[|sent| - 1].kind == RESPONSE
    ensures capacity' >= capacity
  {
    hide GetNaming, GetRequest, Answered, PutStr, PutBlob, U32, I32, U64, Forwarded, CoreHears;
    sent, capacity', busy := [], capacity, false;
    if !instance {
      sent := [ErrorPacket(id, INIT_FAILED, NO_INSTANCE)];
      return;
    }
    var naming := GetNaming(payload);
    if naming.Bad? {
      sent := [ErrorPacket(id, PARSE, MALFORMED)];
      return;
    }
    var n := naming.value;
    var mapped := None;
    if n.name != [] {
      mapped := memory(n.name, n.size);
      if mapped.None? {
        sent := [ErrorPacket(id, INIT_FAILED, NOT_MAPPED)];
        return;
      }
    }
    capacity' := Grown(capacity, payload);
    var decoded := GetRequest(mapped, naming.rest, Arena(base, capacity', 0));
    if !decoded.Done? {
      sent := [ErrorPacket(id, PARSE, MALFORMED)];
      return;
    }
    var o := engine(decoded.value);
    var forwarded := SendCallbacks(id, decoded.value.runFlags, o.callbacks);
    HeardExactly(id, decoded.value.runFlags, o.callbacks);
    if o.status != OK {
      sent := forwarded + [ErrorPacket(id, o.status, o.error)];
      return;
    }
    busy := room.segment.Some?;
    var answer := Answered(room, o.response);
    if |answer| > MAX_FRAME {
      busy := false;
      sent := forwarded + [ErrorPacket(id, DECODE_FAILED, TOO_LONG)];
      return;
    }
    sent := forwarded + [Packet(RESPONSE, id, answer)];
  }

  /** What the core decodes from the final frame of a run that went well is what the engine answered. */
  lemma AnswerComesBack(id: u64, room: Room, r: Response, memory: Option<Data>, base: nat, capacity: nat)
    requires Sane(room.segment) && |Answered(room, r)| <= MAX_FRAME && capacity >= DecodeArenaBound(|Answered(room, r)|)
    requires Keeps(PutResponse(r, room.segment).segment, memory)
    ensures var naming := GetNaming(Answered(room, r));
            && naming.Got? && naming.value.name == room.name && naming.value.retire == room.retire
            && var d := GetResponse(memory, naming.rest, Arena(base, capacity, 0));
               d.Done? && d.value == NormalResponse(r) && d.rest == []
  {
    hide PutNaming, PutResponse, GetNaming, GetResponse, Keeps, NormalResponse;
    var n := Naming(room.name, if room.segment.Some? then |room.segment.value.memory| else 0, room.retire);
    ResponseFrameRoundTrip(n, r, room.segment, memory, RESPONSE, id, [], base, capacity);
  }

  /** What the core makes of a final frame within the limit: the refusal of the host, the error of the engine, or that
      its answer is too long, each with its status and text; otherwise it is the answer. */
  lemma FinalReads(id: u64, heard: Heard, engine: Request -> Outcome, room: Room)
    requires Sane(room.segment)
    ensures var p := FinalPacket(id, heard, engine, room);
            && (p.kind == ERROR || p.kind == RESPONSE) && (heard.Refuses? ==> p.kind == ERROR)
            && (heard.Refuses? && Sendable(p) ==> ReadError(p) == Some(Failure(heard.status, heard.message)))
            && (heard.Asks? ==>
                  var o := engine(heard.request);
                  && (p.kind == RESPONSE <==> o.status == OK && |Answered(room, o.response)| <= MAX_FRAME)
                  && (p.kind == RESPONSE ==> p == Packet(RESPONSE, id, Answered(room, o.response)))
                  && (o.status != OK && Sendable(p) ==> ReadError(p) == Some(Failure(o.status, o.error)))
                  && (o.status == OK && p.kind == ERROR ==> ReadError(p) == Some(Failure(DECODE_FAILED, TOO_LONG))))
  {
    hide Answered, ReadError, I32, U32;
    match heard {
      case Refuses(status, message) => ErrorBack(id, status, message);
      case Asks(request) =>
        ErrorBack(id, engine(request).status, engine(request).error);
        ErrorBack(id, DECODE_FAILED, TOO_LONG);
    }
  }

  // ---- on the wire ----

  /** What goes out for a packet: a frame, or for an error above the limit a header with size 0 and then the payload,
      since nobody looks at what `finish` says. */
  function Wire(p: Packet): (b: Data) {
    if Sendable(p) then PacketBytes(p) else U32(0) + (U32(p.kind) + (U64(p.id) + p.payload))
  }

  function WireAll(ps: seq<Packet>): Data {
    if ps == [] then [] else Wire(ps[0]) + WireAll(ps[1..])
  }

  lemma {:induction false} WireOfSendable(ps: seq<Packet>)
    requires forall p <- ps :: Sendable(p)
    ensures WireAll(ps) == StreamBytes(ps)
  {
    if ps != [] { WireOfSendable(ps[1..]); }
  }

  lemma {:induction false} WireSplit(ps: seq<Packet>, p: Packet)
    ensures WireAll(ps + [p]) == WireAll(ps) + Wire(p)
  {
    if ps == [] {
      assert ps + [p] == [p];
    } else {
      assert (ps + [p])[1..] == ps[1..] + [p];
      WireSplit(ps[1..], p);
    }
  }

  /** A packet above the limit is read as one with nothing in it. */
  lemma TornPacket(p: Packet)
    requires !Sendable(p)
    ensures var r := ParseStream(Wire(p)); r.packets != [] && r.packets[0] == Packet(p.kind, p.id, [])
  {
    hide ReadHeader, Frame;
    var empty := Packet(p.kind, p.id, []);
    assert PacketBytes(empty) == U32(0) + (U32(p.kind) + (U64(p.id) + [])) by { HeaderOnly(p.kind, p.id); }
    assert Wire(p) == PacketBytes(empty) + p.payload;
    OnePacket(empty, p.payload);
  }

  lemma HeaderOnly(kind: u32, id: u64)
    ensures Frame(kind, id, []).value == U32(0) + (U32(kind) + (U64(id) + []))
  {
  }

  /** The core reads back exactly the frames of a run if and only if the final one is within the frame limit. */
  lemma ReadsBackExactly(id: u64, sent: seq<Packet>)
    requires OneFinal(id, sent) && forall i :: 0 <= i < |sent| - 1 ==> Sendable(sent[i])
    ensures ParseStream(WireAll(sent)) == Parse(sent, [], false) <==> Sendable(sent[|sent| - 1])
  {
    hide ParseStream, Wire, PacketBytes;
    var n := |sent| - 1;
    var front, last := sent[..n], sent[n];
    assert sent == front + [last];
    WireSplit(front, last);
    WireOfSendable(front);
    if Sendable(last) {
      WireOfSendable(sent);
      NothingLeft();
      StreamBack(sent, []);
      assert StreamBytes(sent) + [] == StreamBytes(sent);
    } else {
      NothingLeft();
      StreamBack(front, []);
      assert StreamBytes(front) + [] == StreamBytes(front);
      MoreArrives(StreamBytes(front), Wire(last));
      assert [] + Wire(last) == Wire(last);
      TornPacket(last);
      var r := ParseStream(WireAll(sent));
      assert r.packets[n] == Packet(last.kind, last.id, []);
    }
  }

  lemma NothingLeft()
    ensures ParseStream([]) == Parse([], [], false)
  {
  }

  /** Which final frames those are: all but an error whose text does not fit, and the host's own do. */
  lemma FinalFits(id: u64, heard: Heard, engine: Request -> Outcome, room: Room)
    requires Sane(room.segment)
    ensures Sendable(FinalPacket(id, heard, engine, room)) <==>
            match heard
            case Refuses(_, message) => |message| <= MAX_FRAME - 8
            case Asks(request) => engine(request).status == OK || |engine(request).error| <= MAX_FRAME - 8
  {
    hide Answered, U32;
  }
}
