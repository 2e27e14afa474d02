/** The callbacks of a run and its error, as the host sends them and as the core reads them. */
module CallbackFrames {
  import opened Options
  import opened Bytes
  import opened Codec
  import opened CodecRoundTrip
  import opened FrameStream

  const ERROR: u32 := 101

  datatype Callback = Chunk(kind: u32, data: Data) | Progress(step: u64, total: u64)

  predicate Streams(runFlags: u32) {
    runFlags % 2 == 1
  }

  predicate Reports(runFlags: u32) {
    runFlags / 2 % 2 == 1
  }

  /** The engine has no callback that was not asked for. */
  predicate Wanted(runFlags: u32, c: Callback) {
    match c
    case Chunk(_, _) => Streams(runFlags)
    case Progress(_, _) => Reports(runFlags)
  }

  function PutBlob(d: Data): (b: Data)
    ensures |b| == 8 + |d|
  {
    U64(Cast64(|d|)) + d
  }

  function CallbackPacket(id: u64, c: Callback): Packet {
    match c
    case Chunk(kind, data) => Packet(CHUNK, id, U32(kind) + PutBlob(data))
    case Progress(step, total) => Packet(PROGRESS, id, U64(step) + U64(total))
  }

  /** The bytes of a text of ASCII characters. */
  function Ascii(s: string): (d: Data)
    ensures |d| == |s|
  {
    seq(|s|, i requires 0 <= i < |s| => s[i] as int % 256)
  }

  function ErrorPacket(id: u64, status: i32, message: Data): Packet {
    Packet(ERROR, id, I32(status) + PutStr(message))
  }

  /** The callbacks that were asked for, as frames in order; a chunk above the frame limit is not sent. */
  function Forwarded(id: u64, runFlags: u32, callbacks: seq<Callback>): (sent: seq<Packet>)
    ensures forall p <- sent :: p.id == id && !IsFinal(p) && Sendable(p)
    ensures forall p <- sent :: if p.kind == CHUNK then Streams(runFlags) else Reports(runFlags)
  {
    if callbacks == [] then [] else
    var last := callbacks[|callbacks| - 1];
    Forwarded(id, runFlags, callbacks[..|callbacks| - 1]) +
    if Wanted(runFlags, last) && Sendable(CallbackPacket(id, last)) then [CallbackPacket(id, last)] else []
  }

  method SendCallbacks(id: u64, runFlags: u32, callbacks: seq<Callback>) returns (sent: seq<Packet>)
    ensures sent == Forwarded(id, runFlags, callbacks)
    ensures forall p <- sent :: p.id == id && !IsFinal(p) && Sendable(p)
  {
    hide PutBlob, U32, U64;
    sent := [];
    for i := 0 to |callbacks|
      invariant sent == Forwarded(id, runFlags, callbacks[..i])
    {
      var p := CallbackPacket(id, callbacks[i]);
      assert callbacks[..i + 1][..i] == callbacks[..i];
      if Wanted(runFlags, callbacks[i]) && Sendable(p) { sent := sent + [p]; }
    }
    assert callbacks[..|callbacks|] == callbacks;
  }

  // ---- what the core reads ----

  /** The callback in a chunk or progress frame, unless that is cut short. */
  function ReadCallback(p: Packet): Option<Callback> {
    if p.kind == CHUNK then
      match GetU32(p.payload)
      case Bad => None
      case Got(kind, afterKind) =>
        match GetU64(afterKind)
        case Bad => None
        case Got(size, afterSize) =>
          match GetBytes(size, afterSize)
          case Bad => None
          case Got(data, _) => Some(Chunk(kind, data))
    else
      match GetU64(p.payload)
      case Bad => None
      case Got(step, afterStep) =>
        match GetU64(afterStep)
        case Bad => None
        case Got(total, _) => Some(Progress(step, total))
  }

  datatype Failure = Failure(status: i32, message: Data)

  /** The status and text in an error frame. */
  function ReadError(p: Packet): Option<Failure> {
    match GetI32(p.payload)
    case Bad => None
    case Got(status, rest) =>
      match GetStr(rest)
      case Bad => None
      case Got(message, _) => Some(Failure(status, message))
  }

  // ---- what comes through ----

  /** The callback was asked for and is no chunk above the frame limit, which leaves 12 bytes less for its data. */
  predicate Passes(runFlags: u32, c: Callback) {
    match c
    case Chunk(_, data) => runFlags % 2 == 1 && |data| <= MAX_FRAME - 12
    case Progress(_, _) => runFlags / 2 % 2 == 1
  }

  /** `heard` are the callbacks that pass, in the order of the engine: `at` says which one each of them was. */
  ghost predicate ExactlyPassing(runFlags: u32, callbacks: seq<Callback>, heard: seq<Callback>, at: seq<nat>) {
    && |at| == |heard|
    && (forall k :: 0 <= k < |at| ==> at[k] < |callbacks| && heard[k] == callbacks[at[k]])
    && (forall j, k :: 0 <= j < k < |at| ==> at[j] < at[k])
    && (forall i :: 0 <= i < |callbacks| ==> (i in at <==> Passes(runFlags, callbacks[i])))
  }

  /** The status and text of an error within the frame limit are read as they were sent, and an empty frame as none. */
  lemma ErrorBack(id: u64, status: i32, message: Data)
    ensures Sendable(ErrorPacket(id, status, message)) ==>
              ReadError(ErrorPacket(id, status, message)) == Some(Failure(status, message))
    ensures ReadError(Packet(ERROR, id, [])) == None
  {
    hide I32, U32, GetStr;
    if Sendable(ErrorPacket(id, status, message)) {
      I32Back(status, PutStr(message));
      StrBack(message, []);
      assert PutStr(message) + [] == PutStr(message);
    }
  }

  lemma CallbackBack(id: u64, c: Callback)
    requires Sendable(CallbackPacket(id, c))
    ensures ReadCallback(CallbackPacket(id, c)) == Some(c)
  {
    hide U32, U64, GetU32, GetU64;
    match c {
      case Chunk(kind, data) =>
        var size := U64(Cast64(|data|));
        U32Back(kind, size + data);
        U64Back(Cast64(|data|), data);
        assert data[..|data|] == data;
      case Progress(step, total) =>
        U64Back(step, U64(total));
        U64Back(total, []);
        assert U64(total) + [] == U64(total);
    }
  }

  lemma PassesExactly(id: u64, runFlags: u32, c: Callback)
    ensures Passes(runFlags, c) <==> Wanted(runFlags, c) && Sendable(CallbackPacket(id, c))
  {
    hide U32, U64;
  }

  /** What the core passes on from these frames; one that is cut short is left out. */
  function CallbacksIn(ps: seq<Packet>): seq<Callback> {
    if ps == [] then [] else
    var last := ReadCallback(ps[|ps| - 1]);
    CallbacksIn(ps[..|ps| - 1]) + if last.Some? then [last.value] else []
  }

  /** Works off frames that have arrived: callbacks until the first final frame. */
  method ProcessFrames(work: seq<Packet>) returns (heard: seq<Callback>, final: Option<Packet>)
    ensures exists n ::
              && 0 <= n <= |work| && heard == CallbacksIn(work[..n])
              && (forall i :: 0 <= i < n ==> !IsFinal(work[i]))
              && final == if n < |work| then Some(work[n]) else None
    ensures final.Some? ==> IsFinal(final.value)
  {
    hide ReadCallback;
    heard := [];
    for n := 0 to |work|
      invariant heard == CallbacksIn(work[..n]) && forall i :: 0 <= i < n ==> !IsFinal(work[i])
    {
      if IsFinal(work[n]) {
        return heard, Some(work[n]);
      }
      var c := ReadCallback(work[n]);
      assert work[..n + 1][..n] == work[..n];
      if c.Some? { heard := heard + [c.value]; }
    }
    final := None;
    assert work[..|work|] == work;
  }

  lemma PassingNone(runFlags: u32)
    ensures ExactlyPassing(runFlags, [], [], [])
  {
  }

  lemma PassingGrows(runFlags: u32, front: seq<Callback>, last: Callback, heard: seq<Callback>, at: seq<nat>)
    requires ExactlyPassing(runFlags, front, heard, at)
    ensures Passes(runFlags, last) ==> ExactlyPassing(runFlags, front + [last], heard + [last], at + [|front|])
    ensures !Passes(runFlags, last) ==> ExactlyPassing(runFlags, front + [last], heard, at)
  {
    hide Passes;
    var all := front + [last];
    assert forall i :: 0 <= i < |front| ==> all[i] == front[i];
    assert forall i <- at :: i < |front|;
    if Passes(runFlags, last) {
      assert forall i :: i in at + [|front|] <==> i in at || i == |front|;
    }
  }

  /** The core hears from these frames exactly the callbacks that pass. */
  ghost predicate CoreHears(runFlags: u32, callbacks: seq<Callback>, sent: seq<Packet>) {
    exists at :: ExactlyPassing(runFlags, callbacks, CallbacksIn(sent), at)
  }

  /** The core hears exactly the callbacks that were asked for and fit, with the data the engine gave and in its
      order. */
  lemma {:induction false} HeardExactly(id: u64, runFlags: u32, callbacks: seq<Callback>)
    ensures CoreHears(runFlags, callbacks, Forwarded(id, runFlags, callbacks))
    decreases |callbacks|
  {
    hide ReadCallback, CallbackPacket, Passes, Wanted, Sendable, ExactlyPassing;
    if callbacks == [] {
      PassingNone(runFlags);
      assert ExactlyPassing(runFlags, callbacks, CallbacksIn([]), []);
    } else {
      var n := |callbacks| - 1;
      var front, last := callbacks[..n], callbacks[n];
      var sent := Forwarded(id, runFlags, front);
      HeardExactly(id, runFlags, front);
      var at :| ExactlyPassing(runFlags, front, CallbacksIn(sent), at);
      PassesExactly(id, runFlags, last);
      PassingGrows(runFlags, front, last, CallbacksIn(sent), at);
      assert front + [last] == callbacks;
      if Passes(runFlags, last) {
        CallbackBack(id, last);
        var p := CallbackPacket(id, last);
        assert Forwarded(id, runFlags, callbacks) == sent + [p];
        assert (sent + [p])[..|sent|] == sent;
        assert CallbacksIn(sent + [p]) == CallbacksIn(sent) + [last];
      } else {
        assert Forwarded(id, runFlags, callbacks) == sent;
      }
    }
  }
}
