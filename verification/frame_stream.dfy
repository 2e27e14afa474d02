/** The host's byte stream as a sequence of frames, however it is cut into reads. */
module FrameStream {
  import opened Bytes
  import opened Codec
  import opened CodecFrames
  import opened CodecRoundTrip

  datatype Packet = Packet(kind: u32, id: u64, payload: Data)

  const CHUNK: u32 := 103
  const PROGRESS: u32 := 104

  predicate IsFinal(p: Packet) {
    p.kind != CHUNK && p.kind != PROGRESS
  }

  predicate Sendable(p: Packet) {
    |p.payload| <= MAX_FRAME
  }

  function PacketBytes(p: Packet): (b: Data)
    requires Sendable(p)
    ensures |b| == HEADER_SIZE + |p.payload|
  {
    Frame(p.kind, p.id, p.payload).value
  }

  function StreamBytes(ps: seq<Packet>): Data
    requires forall p <- ps :: Sendable(p)
  {
    if ps == [] then [] else PacketBytes(ps[0]) + StreamBytes(ps[1..])
  }

  /** The complete frames at the front of a buffer, what is left, and whether a size above the limit came next. */
  datatype Parse = Parse(packets: seq<Packet>, rest: Data, bad: bool)

  predicate TooLong(b: Data) {
    |b| >= HEADER_SIZE && ReadHeader(b).size > MAX_FRAME
  }

  predicate Complete(b: Data) {
    |b| >= HEADER_SIZE && ReadHeader(b).size <= MAX_FRAME && |b| - HEADER_SIZE >= ReadHeader(b).size
  }

  function Length(b: Data): (n: nat)
    requires Complete(b)
    ensures HEADER_SIZE <= n <= |b|
  {
    HEADER_SIZE + ReadHeader(b).size
  }

  function First(b: Data): Packet
    requires Complete(b)
  {
    var h := ReadHeader(b);
    Packet(h.kind, h.id, b[HEADER_SIZE..HEADER_SIZE + h.size])
  }

  function ParseStream(b: Data): (r: Parse)
    decreases |b|
  {
    if Complete(b) then Before(First(b), ParseStream(b[Length(b)..])) else Parse([], b, TooLong(b))
  }

  function Before(p: Packet, more: Parse): Parse {
    Parse([p] + more.packets, more.rest, more.bad)
  }

  lemma FrontStays(a: Data, b: Data)
    ensures TooLong(a) ==> TooLong(a + b) && !Complete(a + b)
    ensures Complete(a) ==>
      && !TooLong(a) && Complete(a + b) && Length(a + b) == Length(a) && First(a + b) == First(a)
      && (a + b)[Length(a)..] == a[Length(a)..] + b
  {
    hide ToU32, ToU64;
    if |a| >= HEADER_SIZE {
      assert (a + b)[0..4] == a[0..4] && (a + b)[4..8] == a[4..8] && (a + b)[8..16] == a[8..16];
      assert ReadHeader(a + b) == ReadHeader(a);
      if Complete(a) {
        var total := Length(a);
        assert (a + b)[HEADER_SIZE..total] == a[HEADER_SIZE..total];
        assert (a + b)[total..] == a[total..] + b;
      }
    }
  }

  lemma ParseUnfolds(b: Data)
    ensures ParseStream(b) ==
            if Complete(b) then Before(First(b), ParseStream(b[Length(b)..])) else Parse([], b, TooLong(b))
  {
  }

  /** What arrives later does not change the frames already there, and joins what was left of them. */
  lemma {:induction false} MoreArrives(a: Data, b: Data)
    requires !ParseStream(a).bad
    ensures var more := ParseStream(ParseStream(a).rest + b);
            ParseStream(a + b) == Parse(ParseStream(a).packets + more.packets, more.rest, more.bad)
    decreases |a|
  {
    hide Complete, TooLong, First, ParseStream;
    FrontStays(a, b);
    ParseUnfolds(a);
    ParseUnfolds(a + b);
    if Complete(a) {
      var rest := a[Length(a)..];
      MoreArrives(rest, b);
      var early, more := ParseStream(rest).packets, ParseStream(ParseStream(a).rest + b);
      assert [First(a)] + (early + more.packets) == [First(a)] + early + more.packets;
    } else {
      assert [] + ParseStream(a + b).packets == ParseStream(a + b).packets;
    }
  }

  /** A size above the limit stays where it is, whatever follows. */
  lemma {:induction false} BadStays(a: Data, b: Data)
    requires ParseStream(a).bad
    ensures ParseStream(a + b).packets == ParseStream(a).packets && ParseStream(a + b).bad
    decreases |a|
  {
    hide Complete, TooLong, First;
    FrontStays(a, b);
    if Complete(a) { BadStays(a[Length(a)..], b); }
  }

  function Joined(chunks: seq<Data>): Data {
    if chunks == [] then [] else chunks[0] + Joined(chunks[1..])
  }

  /** Reading chunk after chunk, taking the complete frames after each, until a bad size ends it. */
  function ReadAll(held: Data, chunks: seq<Data>): (r: Parse)
    decreases |chunks|
  {
    if chunks == [] then Parse([], held, false) else
    var now := ParseStream(held + chunks[0]);
    if now.bad then now else
    var later := ReadAll(now.rest, chunks[1..]);
    Parse(now.packets + later.packets, later.rest, later.bad)
  }

  /** However the stream is cut, the frames are those of the whole. */
  lemma {:induction false} CutsDoNotMatter(held: Data, chunks: seq<Data>)
    requires ParseStream(held) == Parse([], held, false)
    ensures var whole := ParseStream(held + Joined(chunks));
            var read := ReadAll(held, chunks);
            read.packets == whole.packets && read.bad == whole.bad && (!whole.bad ==> read.rest == whole.rest)
    decreases |chunks|
  {
    hide Complete, TooLong, First;
    if chunks == [] {
      assert held + [] == held;
    } else {
      var first, more := held + chunks[0], Joined(chunks[1..]);
      var now := ParseStream(first);
      assert held + Joined(chunks) == first + more;
      if now.bad {
        BadStays(first, more);
      } else {
        RestIsShort(first);
        MoreArrives(first, more);
        CutsDoNotMatter(now.rest, chunks[1..]);
      }
    }
  }

  lemma {:induction false} RestIsShort(b: Data)
    requires !ParseStream(b).bad
    ensures ParseStream(ParseStream(b).rest) == Parse([], ParseStream(b).rest, false)
    decreases |b|
  {
    hide TooLong, First;
    if Complete(b) { RestIsShort(b[Length(b)..]); }
  }

  /** Frames written one after the other are read one after the other. */
  lemma {:induction false} StreamBack(ps: seq<Packet>, tail: Data)
    requires forall p <- ps :: Sendable(p)
    requires ParseStream(tail) == Parse([], tail, false)
    ensures ParseStream(StreamBytes(ps) + tail) == Parse(ps, tail, false)
    decreases |ps|
  {
    hide Complete, TooLong, First, PacketBytes;
    if ps == [] {
      assert [] + tail == tail;
    } else {
      var p, more := ps[0], StreamBytes(ps[1..]) + tail;
      Cat(PacketBytes(p), StreamBytes(ps[1..]), tail);
      OnePacket(p, more);
      StreamBack(ps[1..], tail);
      assert [p] + ps[1..] == ps;
    }
  }

  lemma OnePacket(p: Packet, more: Data)
    requires Sendable(p)
    ensures var b := PacketBytes(p) + more;
            Complete(b) && First(b) == p && b[Length(b)..] == more
  {
    hide ReadHeader, Frame;
    HeaderBack(p.kind, p.id, p.payload, more);
  }
}
