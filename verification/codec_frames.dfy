/** Whole Run and Response frames: they come back as written, in an arena of `decode_arena_bound` bytes, with every
    large payload in the segment and no two payloads on the same bytes. */
module CodecFrames {
  import opened Options
  import opened Bytes
  import opened Arenas
  import opened Codec
  import opened CodecRoundTrip

  const HEADER_SIZE := 16

  datatype Header = Header(size: u32, kind: u32, id: u64)

  /** `finish` gives no frame for a payload above the limit. */
  function Frame(kind: u32, id: u64, payload: Data): (f: Option<Data>)
    ensures f.Some? <==> |payload| <= MAX_FRAME
    ensures f.Some? ==> |f.value| == HEADER_SIZE + |payload|
  {
    if |payload| > MAX_FRAME then None else Some(U32(|payload|) + (U32(kind) + (U64(id) + payload)))
  }

  function ReadHeader(b: Data): (h: Header)
    requires |b| >= HEADER_SIZE
  {
    Header(ToU32(b[0..4]), ToU32(b[4..8]), ToU64(b[8..16]))
  }

  lemma HeaderBack(kind: u32, id: u64, payload: Data, more: Data)
    requires |payload| <= MAX_FRAME
    ensures var b := Frame(kind, id, payload).value + more;
            && ReadHeader(b) == Header(|payload|, kind, id)
            && b[HEADER_SIZE..HEADER_SIZE + |payload|] == payload && b[HEADER_SIZE + |payload|..] == more
  {
    hide U32, U64, ToU32, ToU64;
    var b := Frame(kind, id, payload).value + more;
    assert b[0..4] == U32(|payload|) && b[4..8] == U32(kind) && b[8..16] == U64(id);
    Back32(|payload|); Back32(kind); Back64(id);
  }

  // ---- requests and responses ----

  function NormalRequest(r: Request): Request {
    r.(messages := NormalMessages(r.messages))
  }

  function NormalResponse(r: Response): Response {
    r.(message := NormalMessage(r.message))
  }

  lemma RequestBack(r: Request, s: Option<Segment>, memory: Option<Data>, tail: Data, a: Arena)
    requires Sane(s) && |PutRequest(r, s).bytes| <= MAX_FRAME && Keeps(PutRequest(r, s).segment, memory)
    ensures Decodes(GetRequest(memory, PutRequest(r, s).bytes + tail, a), NormalRequest(r), tail, a, RequestNeed(r))
  {
    hide U32, Cast32, PutStr, PutMessages, GetU32, GetStr, GetMessages, Keeps, Reach, Span, MessagesNeed;
    var n := |r.messages|;
    var messages := PutMessages(r.messages, s).bytes;
    var b7 := PutStr(r.outputDir);
    var b6 := PutStr(r.params) + b7;
    var b5 := PutStr(r.tools) + b6;
    var b4 := messages + b5;
    var b3 := U32(Cast32(n)) + b4;
    var b2 := U32(r.runFlags) + b3;
    var b1 := U32(r.flags) + b2;
    assert |PutRequest(r, s).bytes| == 28 + |messages| + |r.tools| + |r.params| + |r.outputDir|;
    assert |messages| >= 16 * n;
    CountFits(n, 16, |messages|);
    CountPasses(n, 16, |b4 + tail|);
    Cat(U32(r.task), b1, tail); U32Back(r.task, b1 + tail);
    Cat(U32(r.flags), b2, tail); U32Back(r.flags, b2 + tail);
    Cat(U32(r.runFlags), b3, tail); U32Back(r.runFlags, b3 + tail);
    Cat(U32(Cast32(n)), b4, tail); U32Back(Cast32(n), b4 + tail);
    Cat(messages, b5, tail);
    if Reach(a) + MESSAGE_SIZE * n <= a.capacity { SpanFits(a, n, MESSAGE_SIZE); }
    var span := Span(a, n, MESSAGE_SIZE);
    if span.Some? {
      MessagesBack(r.messages, s, memory, b5 + tail, span.value);
      Cat(PutStr(r.tools), b6, tail); StrBack(r.tools, b6 + tail);
      Cat(PutStr(r.params), b7, tail); StrBack(r.params, b7 + tail);
      StrBack(r.outputDir, tail);
    }
  }

  lemma ResponseBack(r: Response, s: Option<Segment>, memory: Option<Data>, tail: Data, a: Arena)
    requires Sane(s) && |PutResponse(r, s).bytes| <= MAX_FRAME && Keeps(PutResponse(r, s).segment, memory)
    ensures Decodes(GetResponse(memory, PutResponse(r, s).bytes + tail, a), NormalResponse(r), tail, a,
                    MessageNeed(r.message))
  {
    hide I32, PutMessage, GetI32, GetMessage, Keeps, Reach, MessageNeed;
    var message := PutMessage(r.message, s).bytes;
    var counts := I32(r.promptTokens) + I32(r.completionTokens);
    Cat(message, counts, tail);
    MessageBack(r.message, s, memory, counts + tail, a);
    Cat(I32(r.promptTokens), I32(r.completionTokens), tail);
    I32Back(r.promptTokens, I32(r.completionTokens) + tail);
    I32Back(r.completionTokens, tail);
  }

  // ---- the arena bound ----

  function DecodeArenaBound(n: nat): nat {
    5 * n + 4096
  }

  lemma {:induction false} PartsCharge(ps: seq<Part>, s: Option<Segment>)
    requires Sane(s)
    ensures PART_SIZE * |ps| + PartsNeed(ps) <= 4 * |PutParts(ps, s).bytes|
    decreases |ps|
  {
    hide PutPart;
    if ps != [] {
      var first := PutPart(ps[0], s);
      assert |first.bytes| >= 40 + 8 * |ps[0].shape|;
      PartsCharge(ps[1..], first.segment);
    }
  }

  /** Every decoded struct is charged to wire bytes of its own. */
  lemma MessageCharge(m: Message, s: Option<Segment>)
    requires Sane(s)
    ensures MESSAGE_SIZE + MessageNeed(m) <= 4 * |PutMessage(m, s).bytes|
  {
    hide U32, PutStr, PutParts, PutCalls, PartsNeed;
    PartsCharge(m.parts, s);
    assert |PutCalls(m.calls)| >= 12 * |m.calls|;
    assert |PutMessage(m, s).bytes| >= 16 + |PutParts(m.parts, s).bytes| + |PutCalls(m.calls)|;
  }

  lemma {:induction false} MessagesCharge(ms: seq<Message>, s: Option<Segment>)
    requires Sane(s)
    ensures MESSAGE_SIZE * |ms| + MessagesNeed(ms) <= 4 * |PutMessages(ms, s).bytes|
    decreases |ms|
  {
    hide PutMessage, MessageNeed;
    if ms != [] {
      MessageCharge(ms[0], s);
      MessagesCharge(ms[1..], PutMessage(ms[0], s).segment);
    }
  }

  // ---- frames ----

  /** The segment that a frame names and the one it retires. */
  datatype Naming = Naming(name: Data, size: u64, retire: Data)

  function PutNaming(n: Naming): Data {
    PutStr(n.name) + (U64(n.size) + PutStr(n.retire))
  }

  function GetNaming(b: Data): Parsed<Naming> {
    match GetStr(b)
    case Bad => Bad
    case Got(name, b) =>
      match GetU64(b)
      case Bad => Bad
      case Got(size, b) =>
        match GetStr(b)
        case Bad => Bad
        case Got(retire, b) => Got(Naming(name, size, retire), b)
  }

  lemma NamingBack(n: Naming, tail: Data)
    requires |PutNaming(n)| <= MAX_FRAME
    ensures GetNaming(PutNaming(n) + tail) == Got(n, tail)
  {
    hide U64, PutStr, GetU64, GetStr;
    assert |PutNaming(n)| == 16 + |n.name| + |n.retire|;
    Cat(PutStr(n.name), U64(n.size) + PutStr(n.retire), tail);
    Cat(U64(n.size), PutStr(n.retire), tail);
    StrBack(n.name, U64(n.size) + (PutStr(n.retire) + tail));
    U64Back(n.size, PutStr(n.retire) + tail);
    StrBack(n.retire, tail);
  }

  /** The payload of a Run frame, and the memory of its segment once it is written. */
  function RunPayload(n: Naming, r: Request, s: Option<Segment>): Written
    requires Sane(s)
  {
    var w := PutRequest(r, s);
    Written(PutNaming(n) + w.bytes, w.segment)
  }

  function ResponsePayload(n: Naming, r: Response, s: Option<Segment>): Written
    requires Sane(s)
  {
    var w := PutResponse(r, s);
    Written(PutNaming(n) + w.bytes, w.segment)
  }

  /** Any Run frame that `finish` accepts: the receiver finds the header, the segment names and exactly the request,
      with nothing left over, in a reset arena of the bound's size wherever that arena lies. */
  lemma RunFrameRoundTrip(n: Naming, r: Request, s: Option<Segment>, memory: Option<Data>,
                          kind: u32, id: u64, more: Data, base: nat, capacity: nat)
    requires Sane(s) && Keeps(RunPayload(n, r, s).segment, memory)
    requires Frame(kind, id, RunPayload(n, r, s).bytes).Some?
    requires capacity >= DecodeArenaBound(|RunPayload(n, r, s).bytes|)
    ensures var payload := RunPayload(n, r, s).bytes;
            var b := Frame(kind, id, payload).value + more;
            var request := PutRequest(r, s).bytes;
            && ReadHeader(b) == Header(|payload|, kind, id)
            && b[HEADER_SIZE..HEADER_SIZE + |payload|] == payload && b[HEADER_SIZE + |payload|..] == more
            && GetNaming(payload) == Got(n, request)
            && var d := GetRequest(memory, request, Arena(base, capacity, 0));
               d.Done? && d.value == NormalRequest(r) && d.rest == []
  {
    hide PutNaming, PutRequest, GetNaming, GetRequest, ReadHeader, Keeps, NormalRequest, RequestNeed;
    var payload := RunPayload(n, r, s).bytes;
    var request := PutRequest(r, s).bytes;
    HeaderBack(kind, id, payload, more);
    NamingBack(n, request);
    assert request + [] == request;
    RequestBack(r, s, memory, [], Arena(base, capacity, 0));
    RequestCharge(r, s);
  }

  lemma RequestCharge(r: Request, s: Option<Segment>)
    requires Sane(s)
    ensures RequestNeed(r) <= 4 * |PutRequest(r, s).bytes|
  {
    hide PutMessages, MessagesNeed, U32, PutStr;
    MessagesCharge(r.messages, s);
  }

  lemma ResponseFrameRoundTrip(n: Naming, r: Response, s: Option<Segment>, memory: Option<Data>,
                               kind: u32, id: u64, more: Data, base: nat, capacity: nat)
    requires Sane(s) && Keeps(ResponsePayload(n, r, s).segment, memory)
    requires Frame(kind, id, ResponsePayload(n, r, s).bytes).Some?
    requires capacity >= DecodeArenaBound(|ResponsePayload(n, r, s).bytes|)
    ensures var payload := ResponsePayload(n, r, s).bytes;
            var b := Frame(kind, id, payload).value + more;
            var response := PutResponse(r, s).bytes;
            && ReadHeader(b) == Header(|payload|, kind, id)
            && b[HEADER_SIZE..HEADER_SIZE + |payload|] == payload && b[HEADER_SIZE + |payload|..] == more
            && GetNaming(payload) == Got(n, response)
            && var d := GetResponse(memory, response, Arena(base, capacity, 0));
               d.Done? && d.value == NormalResponse(r) && d.rest == []
  {
    hide PutNaming, PutMessage, GetNaming, GetResponse, ReadHeader, Keeps, NormalResponse, MessageNeed;
    var payload := ResponsePayload(n, r, s).bytes;
    var response := PutResponse(r, s).bytes;
    HeaderBack(kind, id, payload, more);
    NamingBack(n, response);
    assert response + [] == response;
    ResponseBack(r, s, memory, [], Arena(base, capacity, 0));
    MessageCharge(r.message, s);
  }

  // ---- placement in the segment ----

  function AllParts(ms: seq<Message>): seq<Part> {
    if ms == [] then [] else ms[0].parts + AllParts(ms[1..])
  }

  datatype Extent = Extent(offset: nat, size: nat)

  /** Where the payloads of `ps` go, in order. */
  function Extents(ps: seq<Part>, s: Segment): seq<Extent>
    requires s.used <= |s.memory|
  {
    if ps == [] then []
    else if GoesToSegment(ps[0].data, Some(s))
    then [Extent(s.used, |ps[0].data.value|)] + Extents(ps[1..], Placed(s, ps[0].data.value))
    else Extents(ps[1..], s)
  }

  predicate Large(d: Option<Data>, threshold: nat) {
    d.Some? && |d.value| >= threshold
  }

  function LargeSizes(ps: seq<Part>, threshold: nat): seq<nat> {
    if ps == [] then []
    else (if Large(ps[0].data, threshold) then [|ps[0].data.value|] else []) + LargeSizes(ps[1..], threshold)
  }

  function ShmBytes(ps: seq<Part>, threshold: nat): nat {
    if ps == [] then 0 else
    var here := if Large(ps[0].data, threshold) then AlignUp(|ps[0].data.value|, SHM_ALIGN) else 0;
    here + ShmBytes(ps[1..], threshold)
  }

  function SizesOf(es: seq<Extent>): seq<nat> {
    seq(|es|, i requires 0 <= i < |es| => es[i].size)
  }

  lemma {:induction false} PartsSplit(ps: seq<Part>, qs: seq<Part>, s: Option<Segment>)
    requires Sane(s)
    ensures PutParts(ps + qs, s).segment == PutParts(qs, PutParts(ps, s).segment).segment
    decreases |ps|
  {
    hide PutPart;
    if ps == [] {
      assert ps + qs == qs;
    } else {
      assert (ps + qs)[1..] == ps[1..] + qs;
      PartsSplit(ps[1..], qs, PutPart(ps[0], s).segment);
    }
  }

  /** The segment of a request is filled by its parts alone, whatever messages they are in. */
  lemma {:induction false} SegmentOfMessages(ms: seq<Message>, s: Option<Segment>)
    requires Sane(s)
    ensures PutMessages(ms, s).segment == PutParts(AllParts(ms), s).segment
    decreases |ms|
  {
    hide PutPart;
    if ms != [] {
      SegmentOfMessages(ms[1..], PutMessage(ms[0], s).segment);
      PartsSplit(ms[0].parts, AllParts(ms[1..]), s);
    }
  }

  /** No payload shares a byte with another, none leaves the segment, and each is counted. */
  lemma {:induction false} PayloadsApart(ps: seq<Part>, s: Segment)
    requires Sane(Some(s))
    ensures forall i :: 0 <= i < |Extents(ps, s)| ==>
              s.used <= Extents(ps, s)[i].offset && Extents(ps, s)[i].offset + Extents(ps, s)[i].size <= |s.memory|
    ensures forall i, j :: 0 <= i < j < |Extents(ps, s)| ==>
              Extents(ps, s)[i].offset + Extents(ps, s)[i].size <= Extents(ps, s)[j].offset
    ensures var after := PutParts(ps, Some(s)).segment; after.Some? && after.value.count == s.count + |Extents(ps, s)|
    decreases |ps|
  {
    if ps != [] {
      if GoesToSegment(ps[0].data, Some(s)) {
        var s' := Placed(s, ps[0].data.value);
        PayloadsApart(ps[1..], s');
        var first, more := Extent(s.used, |ps[0].data.value|), Extents(ps[1..], s');
        assert Extents(ps, s) == [first] + more;
      } else {
        PayloadsApart(ps[1..], s);
      }
    }
  }

  lemma AlignSum(used: nat, n: nat)
    requires used % SHM_ALIGN == 0
    ensures AlignUp(used + n, SHM_ALIGN) == used + AlignUp(n, SHM_ALIGN)
  {
    var k := used / SHM_ALIGN;
    assert (used + n + 63) / 64 == k + (n + 63) / 64;
  }

  lemma PlacedAligned(s: Segment, d: Data)
    requires s.used % SHM_ALIGN == 0 && s.used + AlignUp(|d|, SHM_ALIGN) <= |s.memory|
    ensures Placed(s, d).used == s.used + AlignUp(|d|, SHM_ALIGN) && Placed(s, d).used % SHM_ALIGN == 0
    ensures Placed(s, d).threshold == s.threshold
  {
    AlignSum(s.used, |d|);
  }

  /** A segment of `shm_bytes` holds every payload that reaches the threshold. */
  lemma {:induction false} LargePlaced(ps: seq<Part>, s: Segment)
    requires Sane(Some(s)) && s.used % SHM_ALIGN == 0 && s.used + ShmBytes(ps, s.threshold) <= |s.memory|
    ensures SizesOf(Extents(ps, s)) == LargeSizes(ps, s.threshold)
    decreases |ps|
  {
    hide AlignUp, Placed;
    if ps != [] {
      if Large(ps[0].data, s.threshold) {
        var n := |ps[0].data.value|;
        PlacedAligned(s, ps[0].data.value);
        var s' := Placed(s, ps[0].data.value);
        LargePlaced(ps[1..], s');
        assert SizesOf(Extents(ps, s)) == [n] + SizesOf(Extents(ps[1..], s'));
      } else {
        LargePlaced(ps[1..], s);
      }
    }
  }

  // ---- where the frame says the payloads are ----

  /** The place that the wire form of a payload gives: none when its bytes are in the frame. */
  function WireExtent(b: Data): Parsed<Option<Extent>> {
    match GetU64(b)
    case Bad => Bad
    case Got(size, b) =>
      match GetU32(b)
      case Bad => Bad
      case Got(loc, b) =>
        if loc == 0 then
          (match GetBytes(size, b)
           case Bad => Bad
           case Got(_, b) => Got(None, b))
        else
          (match GetU64(b)
           case Bad => Bad
           case Got(offset, b) => Got(Some(Extent(offset, size)), b))
  }

  /** The places given in the wire form of `n` parts. */
  function WireExtents(n: nat, b: Data): seq<Extent> {
    if n == 0 then [] else
    match GetHead(b)
    case Bad => []
    case Got(h, b) =>
      if h.ndim > |b| / 8 then [] else
      match WireExtent(b[8 * h.ndim..])
      case Bad => []
      case Got(place, rest) => (if place.Some? then [place.value] else []) + WireExtents(n - 1, rest)
  }

  lemma WireExtentBack(d: Option<Data>, s: Segment, tail: Data)
    requires Sane(Some(s)) && |PutData(d, Some(s)).bytes| <= MAX_FRAME
    ensures WireExtent(PutData(d, Some(s)).bytes + tail) ==
            Got(if GoesToSegment(d, Some(s)) then Some(Extent(s.used, |d.value|)) else None, tail)
  {
    hide U32, U64, GetU32, GetU64;
    var size := U64(Cast64(Size(d)));
    if GoesToSegment(d, Some(s)) {
      var at := U64(Cast64(s.used));
      Cat(size + U32(1), at, tail); Cat(size, U32(1), at + tail);
      U64Back(Cast64(Size(d)), U32(1) + (at + tail));
      U32Back(1, at + tail);
      U64Back(Cast64(s.used), tail);
    } else {
      var body := if d.Some? then d.value else [];
      assert |PutData(d, Some(s)).bytes| == 12 + Size(d);
      Cat(size + U32(0), body, tail); Cat(size, U32(0), body + tail);
      U64Back(Cast64(Size(d)), U32(0) + (body + tail));
      U32Back(0, body + tail);
      Split(body, tail);
    }
  }

  /** The offsets that go over the wire are the places where the payloads were put. */
  lemma {:induction false} ExtentsOnWire(ps: seq<Part>, s: Segment, tail: Data)
    requires Sane(Some(s)) && |PutParts(ps, Some(s)).bytes| <= MAX_FRAME
    ensures WireExtents(|ps|, PutParts(ps, Some(s)).bytes + tail) == Extents(ps, s)
    decreases |ps|
  {
    hide GetHead, PutHead, WireExtent, PutData, GoesToSegment;
    if ps != [] {
      var p, d := ps[0], PutData(ps[0].data, Some(s));
      var more := PutParts(ps[1..], d.segment).bytes;
      NextSegment(p.data, s);
      LengthsFit(p);
      Cat(PutHead(p) + d.bytes, more, tail);
      Cat(PutHead(p), d.bytes, more + tail);
      HeadBack(p, d.bytes + (more + tail));
      Split(PutShape(p.shape), d.bytes + (more + tail));
      WireExtentBack(p.data, s, more + tail);
      ExtentsOnWire(ps[1..], d.segment.value, tail);
    }
  }

  lemma NextSegment(d: Option<Data>, s: Segment)
    requires Sane(Some(s))
    ensures PutData(d, Some(s)).segment == Some(if GoesToSegment(d, Some(s)) then Placed(s, d.value) else s)
  {
  }
}
