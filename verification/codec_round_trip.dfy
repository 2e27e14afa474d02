/** What is written is what is read, in the arena space that `decode_arena_bound` sets aside. */
module CodecRoundTrip {
  import opened Options
  import opened Bytes
  import opened Arenas
  import opened Codec

  // ---- one field at a time ----

  lemma Cat(a: Data, b: Data, c: Data)
    ensures (a + b) + c == a + (b + c)
  {
  }

  lemma Split(a: Data, b: Data)
    ensures (a + b)[..|a|] == a && (a + b)[|a|..] == b
  {
  }

  lemma U32Back(v: u32, tail: Data)
    ensures GetU32(U32(v) + tail) == Got(v, tail)
  {
    hide Low, Value;
    Split(U32(v), tail);
    Back32(v);
  }

  lemma U64Back(v: u64, tail: Data)
    ensures GetU64(U64(v) + tail) == Got(v, tail)
  {
    hide Low, Value;
    Split(U64(v), tail);
    Back64(v);
  }

  lemma I32Back(v: i32, tail: Data)
    ensures GetI32(I32(v) + tail) == Got(v, tail)
  {
    hide Low, Value;
    Split(I32(v), tail);
    BackI32(v);
  }

  lemma StrBack(s: Data, tail: Data)
    requires |s| < TWO32
    ensures GetStr(PutStr(s) + tail) == Got(s, tail)
  {
    hide U32, GetU32;
    Cat(U32(Cast32(|s|)), s, tail);
    U32Back(Cast32(|s|), s + tail);
    Split(s, tail);
  }

  lemma {:induction false} ShapeBack(shape: seq<i64>, tail: Data)
    ensures GetShape(|shape|, PutShape(shape) + tail) == shape
  {
    if shape != [] {
      var head, more := I64(shape[0]), PutShape(shape[1..]);
      Cat(head, more, tail);
      Split(head, more + tail);
      BackI64(shape[0]);
      ShapeBack(shape[1..], tail);
      assert [shape[0]] + shape[1..] == shape;
    }
  }

  lemma HeadBack(p: Part, tail: Data)
    requires |PutHead(p)| <= MAX_FRAME
    ensures GetHead(PutHead(p) + tail)
         == Got(Head(p.kind, p.text, p.path, p.mime, p.name, p.dtype, |p.shape|), PutShape(p.shape) + tail)
  {
    hide U32, PutShape, GetU32, GetStr;
    var b7 := PutShape(p.shape);
    var b6 := U32(Cast32(|p.shape|)) + b7;
    var b5 := U32(p.dtype) + b6;
    var b4 := PutStr(p.name) + b5;
    var b3 := PutStr(p.mime) + b4;
    var b2 := PutStr(p.path) + b3;
    var b1 := PutStr(p.text) + b2;
    LengthsFit(p);
    Cat(U32(p.kind), b1, tail); U32Back(p.kind, b1 + tail);
    Cat(PutStr(p.text), b2, tail); StrBack(p.text, b2 + tail);
    Cat(PutStr(p.path), b3, tail); StrBack(p.path, b3 + tail);
    Cat(PutStr(p.mime), b4, tail); StrBack(p.mime, b4 + tail);
    Cat(PutStr(p.name), b5, tail); StrBack(p.name, b5 + tail);
    Cat(U32(p.dtype), b6, tail); U32Back(p.dtype, b6 + tail);
    Cat(U32(Cast32(|p.shape|)), b7, tail); U32Back(Cast32(|p.shape|), b7 + tail);
  }

  /** A frame that is not too long has no length too long for its field. */
  lemma LengthsFit(p: Part)
    ensures |PutHead(p)| == 28 + |p.text| + |p.path| + |p.mime| + |p.name| + 8 * |p.shape|
  {
    hide U32, PutStr, PutShape;
    assert |U32(p.kind)| == 4 && |U32(p.dtype)| == 4 && |U32(Cast32(|p.shape|))| == 4;
    assert |PutStr(p.text)| == 4 + |p.text| && |PutStr(p.path)| == 4 + |p.path|;
    assert |PutStr(p.mime)| == 4 + |p.mime| && |PutStr(p.name)| == 4 + |p.name|;
    assert |PutShape(p.shape)| == 8 * |p.shape|;
  }

  // ---- payloads ----

  /** Empty data and no data read the same. */
  function Normal(d: Option<Data>): Option<Data> {
    if Size(d) == 0 then None else d
  }

  /** The segment as the reader maps it still holds what had been placed when it was `s`. */
  predicate Keeps(s: Option<Segment>, memory: Option<Data>) {
    s.Some? ==>
      && memory.Some? && |memory.value| == |s.value.memory| && s.value.used <= |memory.value|
      && memory.value[..s.value.used] == s.value.memory[..s.value.used]
  }

  lemma KeptSlice(a: Data, b: Data, low: nat, high: nat, n: nat)
    requires low <= high <= n <= |a| && n <= |b| && a[..n] == b[..n]
    ensures a[..low] == b[..low] && a[low..high] == b[low..high]
  {
    assert a[..low] == a[..n][..low] && b[..low] == b[..n][..low];
    assert a[low..high] == a[..n][low..high] && b[low..high] == b[..n][low..high];
  }

  lemma DataKeeps(d: Option<Data>, s: Option<Segment>, memory: Option<Data>)
    requires Sane(s) && Keeps(PutData(d, s).segment, memory)
    ensures Keeps(s, memory)
    ensures GoesToSegment(d, s) ==> memory.value[s.value.used..s.value.used + |d.value|] == d.value
  {
    if GoesToSegment(d, s) {
      var at := s.value.used;
      var s' := Placed(s.value, d.value);
      KeptSlice(memory.value, s'.memory, at, at + |d.value|, s'.used);
    }
  }

  lemma DataBack(d: Option<Data>, s: Option<Segment>, memory: Option<Data>, tail: Data)
    requires Sane(s) && |PutData(d, s).bytes| <= MAX_FRAME && Keeps(PutData(d, s).segment, memory)
    ensures GetData(memory, PutData(d, s).bytes + tail) == Got(Normal(d), tail)
  {
    hide U32, U64, GetU32, GetU64, Keeps;
    var size := U64(Cast64(Size(d)));
    DataKeeps(d, s, memory);
    if GoesToSegment(d, s) {
      PlacedBack(d, s, memory, tail);
    } else {
      var body := if d.Some? then d.value else [];
      assert |PutData(d, s).bytes| == 12 + Size(d);
      Cat(size + U32(0), body, tail); Cat(size, U32(0), body + tail);
      U64Back(Cast64(Size(d)), U32(0) + (body + tail));
      U32Back(0, body + tail);
      Split(body, tail);
    }
  }

  lemma PlacedBack(d: Option<Data>, s: Option<Segment>, memory: Option<Data>, tail: Data)
    requires Sane(s) && GoesToSegment(d, s) && memory.Some? && |memory.value| == |s.value.memory|
    requires memory.value[s.value.used..s.value.used + |d.value|] == d.value
    ensures GetData(memory, PutData(d, s).bytes + tail) == Got(Normal(d), tail)
  {
    hide U32, U64, GetU32, GetU64, Keeps;
    var size := U64(Cast64(Size(d)));
    var at := U64(Cast64(s.value.used));
    Cat(size + U32(1), at, tail); Cat(size, U32(1), at + tail);
    U64Back(Cast64(Size(d)), U32(1) + (at + tail));
    U32Back(1, at + tail);
    U64Back(Cast64(s.value.used), tail);
  }

  // ---- whole messages ----

  /** Decoding gives back `value` and `rest`, or stops for want of space; it does not stop when `need` bytes are
      left. */
  predicate Decodes<T(==)>(r: Decoded<T>, value: T, rest: Data, a: Arena, need: nat) {
    && !r.Malformed?
    && (r.Done? ==> r.value == value && r.rest == rest)
    && (Reach(a) + need <= a.capacity ==> r.Done? && Room(a, r.arena, need))
  }

  /** At most `need` bytes were taken. */
  predicate Room(before: Arena, after: Arena, need: nat) {
    after.capacity == before.capacity && Reach(after) <= Reach(before) + need
  }

  function NormalPart(p: Part): Part {
    p.(data := Normal(p.data))
  }

  function NormalParts(ps: seq<Part>): (r: seq<Part>)
    ensures |r| == |ps|
  {
    seq(|ps|, i requires 0 <= i < |ps| => NormalPart(ps[i]))
  }

  function NormalMessage(m: Message): Message {
    m.(parts := NormalParts(m.parts))
  }

  function NormalMessages(ms: seq<Message>): (r: seq<Message>)
    ensures |r| == |ms|
  {
    seq(|ms|, i requires 0 <= i < |ms| => NormalMessage(ms[i]))
  }

  function PartsNeed(ps: seq<Part>): nat {
    if ps == [] then 0 else 8 * |ps[0].shape| + PartsNeed(ps[1..])
  }

  function MessageNeed(m: Message): nat {
    PART_SIZE * |m.parts| + PartsNeed(m.parts) + CALL_SIZE * |m.calls|
  }

  function MessagesNeed(ms: seq<Message>): nat {
    if ms == [] then 0 else MessageNeed(ms[0]) + MessagesNeed(ms[1..])
  }

  function RequestNeed(r: Request): nat {
    MESSAGE_SIZE * |r.messages| + MessagesNeed(r.messages)
  }

  lemma WholeWords(n: nat, size: nat) returns (words: nat)
    requires n > 0 && size in {8, MESSAGE_SIZE, PART_SIZE, CALL_SIZE}
    ensures n * size == 8 * words && words > 0
  {
    words := if size == 8 then n else if size == 48 then 6 * n else if size == 64 then 8 * n else 14 * n;
  }

  lemma SpanFits(a: Arena, n: nat, size: nat)
    requires size in {8, MESSAGE_SIZE, PART_SIZE, CALL_SIZE} && Reach(a) + n * size <= a.capacity
    ensures var r := Span(a, n, size); r.Some? && Room(a, r.value, n * size)
  {
    hide Allocate, Reach;
    if n > 0 {
      var words := WholeWords(n, size);
      WordsFit(a, words);
    }
  }

  lemma PartBack(p: Part, s: Option<Segment>, memory: Option<Data>, tail: Data, a: Arena)
    requires Sane(s) && |PutPart(p, s).bytes| <= MAX_FRAME && Keeps(PutPart(p, s).segment, memory)
    ensures Decodes(GetPart(memory, PutPart(p, s).bytes + tail, a), NormalPart(p), tail, a, 8 * |p.shape|)
  {
    hide PutHead, PutShape, PutData, GetHead, GetData, GetShape, Span, Keeps, Reach;
    var data := PutData(p.data, s).bytes;
    var rest := PutShape(p.shape) + (data + tail);
    LengthsFit(p);
    Cat(PutHead(p), data, tail);
    HeadBack(p, data + tail);
    ShapeBack(p.shape, data + tail);
    Split(PutShape(p.shape), data + tail);
    assert |PutShape(p.shape)| == 8 * |p.shape|;
    DataBack(p.data, s, memory, tail);
    if Reach(a) + 8 * |p.shape| <= a.capacity { SpanFits(a, |p.shape|, 8); }
  }

  lemma PartKeeps(p: Part, s: Option<Segment>, memory: Option<Data>)
    requires Sane(s) && Keeps(PutPart(p, s).segment, memory)
    ensures Keeps(s, memory)
  {
    DataKeeps(p.data, s, memory);
  }

  lemma {:induction false} PartsKeep(ps: seq<Part>, s: Option<Segment>, memory: Option<Data>)
    requires Sane(s) && Keeps(PutParts(ps, s).segment, memory)
    ensures Keeps(s, memory)
    decreases |ps|
  {
    hide PutPart, Keeps;
    if ps != [] {
      PartsKeep(ps[1..], PutPart(ps[0], s).segment, memory);
      PartKeeps(ps[0], s, memory);
    }
  }

  lemma {:induction false} PartsBack(ps: seq<Part>, s: Option<Segment>, memory: Option<Data>, tail: Data, a: Arena)
    requires Sane(s) && |PutParts(ps, s).bytes| <= MAX_FRAME && Keeps(PutParts(ps, s).segment, memory)
    ensures Decodes(GetParts(|ps|, memory, PutParts(ps, s).bytes + tail, a), NormalParts(ps), tail, a, PartsNeed(ps))
    decreases |ps|
  {
    hide PutPart, GetPart, Keeps, Reach;
    if ps == [] {
      assert [] + tail == tail;
    } else {
      var first := PutPart(ps[0], s);
      var more := PutParts(ps[1..], first.segment);
      PartsKeep(ps[1..], first.segment, memory);
      Cat(first.bytes, more.bytes, tail);
      PartBack(ps[0], s, memory, more.bytes + tail, a);
      var r := GetPart(memory, first.bytes + (more.bytes + tail), a);
      if r.Done? { PartsBack(ps[1..], first.segment, memory, tail, r.arena); }
      assert [NormalPart(ps[0])] + NormalParts(ps[1..]) == NormalParts(ps);
    }
  }

  lemma {:induction false} CallsBack(cs: seq<ToolCall>, tail: Data)
    requires |PutCalls(cs)| <= MAX_FRAME
    ensures GetCalls(|cs|, PutCalls(cs) + tail) == Got(cs, tail)
  {
    hide PutStr, GetStr;
    if cs == [] {
      assert [] + tail == tail;
    } else {
      var c := cs[0];
      var b3 := PutCalls(cs[1..]);
      var b2 := PutStr(c.arguments) + b3;
      var b1 := PutStr(c.name) + b2;
      assert |PutCalls(cs)| == 12 + |c.id| + |c.name| + |c.arguments| + |b3|;
      Cat(PutStr(c.id), b1, tail); StrBack(c.id, b1 + tail);
      Cat(PutStr(c.name), b2, tail); StrBack(c.name, b2 + tail);
      Cat(PutStr(c.arguments), b3, tail); StrBack(c.arguments, b3 + tail);
      CallsBack(cs[1..], tail);
      assert [c] + cs[1..] == cs;
    }
  }

  /** A count that passes the bound is sent as it is. */
  lemma CountFits(n: nat, each: nat, total: nat)
    requires each in {12, 16, 40} && n * each <= total <= MAX_FRAME
    ensures Cast32(n) == n
  {
  }

  lemma CountPasses(n: nat, each: nat, total: nat)
    requires each in {12, 16, 40} && n * each <= total
    ensures n <= total / each
  {
  }

  lemma MessagePartsBack(ps: seq<Part>, s: Option<Segment>, memory: Option<Data>, tail: Data, a: Arena)
    requires Sane(s) && |PutParts(ps, s).bytes| <= MAX_FRAME && Keeps(PutParts(ps, s).segment, memory)
    ensures Decodes(GetMessageParts(memory, U32(Cast32(|ps|)) + (PutParts(ps, s).bytes + tail), a),
                    NormalParts(ps), tail, a, PART_SIZE * |ps| + PartsNeed(ps))
  {
    hide U32, Cast32, PutParts, GetU32, GetParts, Keeps, Reach, Span, PartsNeed, NormalParts, Sane;
    var n, bytes := |ps|, PutParts(ps, s).bytes;
    assert |bytes| >= 40 * n;
    CountFits(n, 40, |bytes|);
    CountPasses(n, 40, |bytes + tail|);
    U32Back(n, bytes + tail);
    if Reach(a) + PART_SIZE * n <= a.capacity { SpanFits(a, n, PART_SIZE); }
    var r := Span(a, n, PART_SIZE);
    if r.Some? { PartsBack(ps, s, memory, tail, r.value); }
  }

  lemma MessageCallsBack(cs: seq<ToolCall>, tail: Data, a: Arena)
    requires |PutCalls(cs)| <= MAX_FRAME
    ensures Decodes(GetMessageCalls(U32(Cast32(|cs|)) + (PutCalls(cs) + tail), a), cs, tail, a, CALL_SIZE * |cs|)
  {
    hide U32, Cast32, PutCalls, GetU32, GetCalls, Reach, Span;
    assert |PutCalls(cs)| >= 12 * |cs|;
    CountFits(|cs|, 12, |PutCalls(cs)|);
    CountPasses(|cs|, 12, |PutCalls(cs) + tail|);
    U32Back(|cs|, PutCalls(cs) + tail);
    if Reach(a) + CALL_SIZE * |cs| <= a.capacity { SpanFits(a, |cs|, CALL_SIZE); }
    CallsBack(cs, tail);
  }

  lemma MessageBack(m: Message, s: Option<Segment>, memory: Option<Data>, tail: Data, a: Arena)
    requires Sane(s) && |PutMessage(m, s).bytes| <= MAX_FRAME && Keeps(PutMessage(m, s).segment, memory)
    ensures Decodes(GetMessage(memory, PutMessage(m, s).bytes + tail, a), NormalMessage(m), tail, a, MessageNeed(m))
  {
    hide U32, PutStr, PutParts, PutCalls, GetStr, GetMessageParts, GetMessageCalls, Keeps, Reach;
    var parts := PutParts(m.parts, s).bytes;
    var b5 := PutStr(m.toolCallId);
    var b4 := PutCalls(m.calls) + b5;
    var b3 := U32(Cast32(|m.calls|)) + b4;
    var b2 := parts + b3;
    var b1 := U32(Cast32(|m.parts|)) + b2;
    assert |PutMessage(m, s).bytes| == 16 + |m.role| + |parts| + |PutCalls(m.calls)| + |m.toolCallId|;
    Cat(PutStr(m.role), b1, tail); StrBack(m.role, b1 + tail);
    Cat(U32(Cast32(|m.parts|)), b2, tail); Cat(parts, b3, tail);
    MessagePartsBack(m.parts, s, memory, b3 + tail, a);
    var r := GetMessageParts(memory, b1 + tail, a);
    if r.Done? {
      Cat(U32(Cast32(|m.calls|)), b4, tail); Cat(PutCalls(m.calls), b5, tail);
      MessageCallsBack(m.calls, b5 + tail, r.arena);
      StrBack(m.toolCallId, tail);
    }
  }

  lemma MessageKeeps(m: Message, s: Option<Segment>, memory: Option<Data>)
    requires Sane(s) && Keeps(PutMessage(m, s).segment, memory)
    ensures Keeps(s, memory)
  {
    hide PutParts, Keeps;
    PartsKeep(m.parts, s, memory);
  }

  lemma {:induction false} MessagesKeep(ms: seq<Message>, s: Option<Segment>, memory: Option<Data>)
    requires Sane(s) && Keeps(PutMessages(ms, s).segment, memory)
    ensures Keeps(s, memory)
    decreases |ms|
  {
    hide PutMessage, Keeps;
    if ms != [] {
      MessagesKeep(ms[1..], PutMessage(ms[0], s).segment, memory);
      MessageKeeps(ms[0], s, memory);
    }
  }

  lemma {:induction false} MessagesBack(ms: seq<Message>, s: Option<Segment>, memory: Option<Data>, tail: Data,
                                        a: Arena)
    requires Sane(s) && |PutMessages(ms, s).bytes| <= MAX_FRAME && Keeps(PutMessages(ms, s).segment, memory)
    ensures Decodes(GetMessages(|ms|, memory, PutMessages(ms, s).bytes + tail, a), NormalMessages(ms), tail, a,
                    MessagesNeed(ms))
    decreases |ms|
  {
    hide PutMessage, GetMessage, Keeps, Reach, MessageNeed, NormalMessage;
    if ms == [] {
      assert [] + tail == tail;
    } else {
      var first := PutMessage(ms[0], s);
      var more := PutMessages(ms[1..], first.segment);
      MessagesKeep(ms[1..], first.segment, memory);
      Cat(first.bytes, more.bytes, tail);
      MessageBack(ms[0], s, memory, more.bytes + tail, a);
      var r := GetMessage(memory, first.bytes + (more.bytes + tail), a);
      if r.Done? { MessagesBack(ms[1..], first.segment, memory, tail, r.arena); }
      assert [NormalMessage(ms[0])] + NormalMessages(ms[1..]) == NormalMessages(ms);
    }
  }
}
