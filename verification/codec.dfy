/** The wire form of engine requests and responses: what the writer appends, where it places large
    payloads, and what the reader makes of it. */
module Codec {
  import opened Options
  import opened Bytes
  import opened Arenas

  // ---- what is sent ----

  /** `data` is None for a null pointer. */
  datatype Part = Part(kind: u32, text: Data, path: Data, mime: Data, name: Data, dtype: u32, shape: seq<i64>,
                       data: Option<Data>)
  datatype ToolCall = ToolCall(id: Data, name: Data, arguments: Data)
  datatype Message = Message(role: Data, parts: seq<Part>, calls: seq<ToolCall>, toolCallId: Data)
  datatype Request = Request(task: u32, flags: u32, runFlags: u32, messages: seq<Message>, tools: Data, params: Data,
                             outputDir: Data)
  datatype Response = Response(message: Message, promptTokens: i32, completionTokens: i32)

  const MAX_FRAME := 0x4000_0000
  const SHM_ALIGN := 64

  // ---- writing ----

  /** A shared-memory segment being filled from `used` upwards. */
  datatype Segment = Segment(memory: Data, used: nat, threshold: nat, count: nat)

  /** Offsets and sizes in a segment are 64-bit. */
  predicate Sane(s: Option<Segment>) {
    s.Some? ==> s.value.used <= |s.value.memory| < TWO64
  }

  /** Bytes appended and the segment afterwards. */
  datatype Written = Written(bytes: Data, segment: Option<Segment>)

  function PutStr(s: Data): (b: Data)
    ensures |b| == 4 + |s|
  {
    U32(Cast32(|s|)) + s
  }

  predicate GoesToSegment(d: Option<Data>, s: Option<Segment>) {
    d.Some? && s.Some? && |d.value| >= s.value.threshold && s.value.used + |d.value| <= |s.value.memory|
  }

  function Overwrite(memory: Data, at: nat, d: Data): (r: Data)
    requires at + |d| <= |memory|
    ensures |r| == |memory| && r[at..at + |d|] == d && r[..at] == memory[..at]
  {
    memory[..at] + d + memory[at + |d|..]
  }

  function Placed(s: Segment, d: Data): (s': Segment)
    requires s.used + |d| <= |s.memory|
    ensures |s'.memory| == |s.memory| && s.used + |d| <= s'.used <= |s'.memory|
    ensures s'.memory[..s.used] == s.memory[..s.used] && s'.memory[s.used..s.used + |d|] == d
  {
    var next := AlignUp(s.used + |d|, SHM_ALIGN);
    Segment(Overwrite(s.memory, s.used, d), if next > |s.memory| then |s.memory| else next, s.threshold, s.count + 1)
  }

  function Size(d: Option<Data>): nat {
    if d.Some? then |d.value| else 0
  }

  /** Sizes are 64-bit, so `Cast64` never changes one that exists in memory. */
  function Cast64(n: nat): (r: u64) {
    n % TWO64
  }

  function PutData(d: Option<Data>, s: Option<Segment>): (w: Written)
    requires Sane(s)
    ensures Sane(w.segment)
  {
    if GoesToSegment(d, s)
    then Written(U64(Cast64(Size(d))) + U32(1) + U64(Cast64(s.value.used)), Some(Placed(s.value, d.value)))
    else Written(U64(Cast64(Size(d))) + U32(0) + (if d.Some? then d.value else []), s)
  }

  function PutShape(shape: seq<i64>): (b: Data)
    ensures |b| == 8 * |shape|
  {
    if shape == [] then [] else I64(shape[0]) + PutShape(shape[1..])
  }

  function PutHead(p: Part): Data {
    U32(p.kind) + (PutStr(p.text) + (PutStr(p.path) + (PutStr(p.mime) + (PutStr(p.name) +
    (U32(p.dtype) + (U32(Cast32(|p.shape|)) + PutShape(p.shape)))))))
  }

  function PutPart(p: Part, s: Option<Segment>): (w: Written)
    requires Sane(s)
    ensures Sane(w.segment)
    ensures |w.bytes| >= 40 + 8 * |p.shape|
  {
    var d := PutData(p.data, s);
    Written(PutHead(p) + d.bytes, d.segment)
  }

  function PutParts(ps: seq<Part>, s: Option<Segment>): (w: Written)
    requires Sane(s)
    ensures Sane(w.segment)
    ensures |w.bytes| >= 40 * |ps|
  {
    if ps == [] then Written([], s) else
    var first := PutPart(ps[0], s);
    var rest := PutParts(ps[1..], first.segment);
    Written(first.bytes + rest.bytes, rest.segment)
  }

  function PutCalls(cs: seq<ToolCall>): (b: Data)
    ensures |b| >= 12 * |cs|
  {
    if cs == [] then [] else PutStr(cs[0].id) + (PutStr(cs[0].name) + (PutStr(cs[0].arguments) + PutCalls(cs[1..])))
  }

  function PutMessage(m: Message, s: Option<Segment>): (w: Written)
    requires Sane(s)
    ensures Sane(w.segment)
    ensures |w.bytes| >= 16
  {
    var parts := PutParts(m.parts, s);
    Written(PutStr(m.role) + (U32(Cast32(|m.parts|)) + (parts.bytes +
            (U32(Cast32(|m.calls|)) + (PutCalls(m.calls) + PutStr(m.toolCallId))))), parts.segment)
  }

  function PutMessages(ms: seq<Message>, s: Option<Segment>): (w: Written)
    requires Sane(s)
    ensures Sane(w.segment)
    ensures |w.bytes| >= 16 * |ms|
  {
    if ms == [] then Written([], s) else
    var first := PutMessage(ms[0], s);
    var rest := PutMessages(ms[1..], first.segment);
    Written(first.bytes + rest.bytes, rest.segment)
  }

  function PutRequest(r: Request, s: Option<Segment>): (w: Written)
    requires Sane(s)
    ensures Sane(w.segment)
  {
    var messages := PutMessages(r.messages, s);
    Written(U32(r.task) + (U32(r.flags) + (U32(r.runFlags) + (U32(Cast32(|r.messages|)) + (messages.bytes +
            (PutStr(r.tools) + (PutStr(r.params) + PutStr(r.outputDir))))))), messages.segment)
  }

  function PutResponse(r: Response, s: Option<Segment>): (w: Written)
    requires Sane(s)
    ensures Sane(w.segment)
  {
    var m := PutMessage(r.message, s);
    Written(m.bytes + (I32(r.promptTokens) + I32(r.completionTokens)), m.segment)
  }

  // ---- reading ----

  datatype Parsed<+T> = Got(value: T, rest: Data) | Bad

  function GetU32(b: Data): Parsed<u32> {
    if |b| < 4 then Bad else Got(ToU32(b[..4]), b[4..])
  }

  function GetU64(b: Data): Parsed<u64> {
    if |b| < 8 then Bad else Got(ToU64(b[..8]), b[8..])
  }

  function GetI32(b: Data): Parsed<i32> {
    if |b| < 4 then Bad else Got(ToI32(b[..4]), b[4..])
  }

  function GetBytes(n: nat, b: Data): Parsed<Data> {
    if n > |b| then Bad else Got(b[..n], b[n..])
  }

  function GetStr(b: Data): Parsed<Data> {
    match GetU32(b)
    case Got(n, r) => GetBytes(n, r)
    case Bad => Bad
  }

  function GetShape(n: nat, b: Data): seq<i64>
    requires |b| >= 8 * n
  {
    if n == 0 then [] else [ToI64(b[..8])] + GetShape(n - 1, b[8..])
  }

  /** `data` of a decoded part is null when it is empty. */
  function GetData(segment: Option<Data>, b: Data): Parsed<Option<Data>> {
    match GetU64(b)
    case Bad => Bad
    case Got(size, r) =>
      match GetU32(r)
      case Bad => Bad
      case Got(loc, r) =>
        if loc == 0 then
          (match GetBytes(size, r)
           case Bad => Bad
           case Got(d, r) => Got(if size == 0 then None else Some(d), r))
        else if loc == 1 then
          (match GetU64(r)
           case Bad => Bad
           case Got(off, r) =>
             if segment.None? || off + size > |segment.value| then Bad
             else Got(if size == 0 then None else Some(segment.value[off..off + size]), r))
        else Bad
  }

  /** Decoding also takes arena space, which can run out. */
  datatype Decoded<+T> = Done(value: T, rest: Data, arena: Arena) | Malformed | Exhausted

  const PART_SIZE := 112
  const CALL_SIZE := 48
  const MESSAGE_SIZE := 64

  /** Space for `n` values of `size` bytes; none is taken for `n` = 0. */
  function Span(a: Arena, n: nat, size: nat): Option<Arena> {
    if n == 0 then Some(a) else
    var r := Allocate(a, n * size, 8);
    if r.0.At? then Some(r.1) else None
  }

  datatype Head = Head(kind: u32, text: Data, path: Data, mime: Data, name: Data, dtype: u32, ndim: u32)

  function GetHead(b: Data): Parsed<Head> {
    match GetU32(b)
    case Bad => Bad
    case Got(kind, b) =>
      match GetStr(b)
      case Bad => Bad
      case Got(text, b) =>
        match GetStr(b)
        case Bad => Bad
        case Got(path, b) =>
          match GetStr(b)
          case Bad => Bad
          case Got(mime, b) =>
            match GetStr(b)
            case Bad => Bad
            case Got(name, b) =>
              match GetU32(b)
              case Bad => Bad
              case Got(dtype, b) =>
                match GetU32(b)
                case Bad => Bad
                case Got(ndim, b) => Got(Head(kind, text, path, mime, name, dtype, ndim), b)
  }

  function GetPart(segment: Option<Data>, b: Data, a: Arena): Decoded<Part> {
    match GetHead(b)
    case Bad => Malformed
    case Got(h, b) =>
      if h.ndim > |b| / 8 then Malformed else
      match Span(a, h.ndim, 8)
      case None => Exhausted
      case Some(a) =>
        match GetData(segment, b[8 * h.ndim..])
        case Bad => Malformed
        case Got(data, rest) =>
          Done(Part(h.kind, h.text, h.path, h.mime, h.name, h.dtype, GetShape(h.ndim, b), data), rest, a)
  }

  function GetParts(n: nat, segment: Option<Data>, b: Data, a: Arena): Decoded<seq<Part>> {
    if n == 0 then Done([], b, a) else
    match GetPart(segment, b, a)
    case Malformed => Malformed
    case Exhausted => Exhausted
    case Done(p, b, a) =>
      match GetParts(n - 1, segment, b, a)
      case Malformed => Malformed
      case Exhausted => Exhausted
      case Done(ps, b, a) => Done([p] + ps, b, a)
  }

  function GetCall(b: Data): Parsed<ToolCall> {
    match GetStr(b)
    case Bad => Bad
    case Got(id, b) =>
      match GetStr(b)
      case Bad => Bad
      case Got(name, b) =>
        match GetStr(b)
        case Bad => Bad
        case Got(arguments, b) => Got(ToolCall(id, name, arguments), b)
  }

  function GetCalls(n: nat, b: Data): Parsed<seq<ToolCall>> {
    if n == 0 then Got([], b) else
    match GetCall(b)
    case Bad => Bad
    case Got(c, b) =>
      match GetCalls(n - 1, b)
      case Bad => Bad
      case Got(cs, b) => Got([c] + cs, b)
  }

  /** Counts that the rest of the frame cannot hold are rejected before space is taken for them. */
  function GetMessageParts(segment: Option<Data>, b: Data, a: Arena): Decoded<seq<Part>> {
    match GetU32(b)
    case Bad => Malformed
    case Got(n, b) =>
      if n > |b| / 40 then Malformed else
      match Span(a, n, PART_SIZE)
      case None => Exhausted
      case Some(a) => GetParts(n, segment, b, a)
  }

  function GetMessageCalls(b: Data, a: Arena): Decoded<seq<ToolCall>> {
    match GetU32(b)
    case Bad => Malformed
    case Got(n, b) =>
      if n > |b| / 12 then Malformed else
      match Span(a, n, CALL_SIZE)
      case None => Exhausted
      case Some(a) =>
        match GetCalls(n, b)
        case Bad => Malformed
        case Got(cs, b) => Done(cs, b, a)
  }

  function GetMessage(segment: Option<Data>, b: Data, a: Arena): Decoded<Message> {
    match GetStr(b)
    case Bad => Malformed
    case Got(role, b) =>
      match GetMessageParts(segment, b, a)
      case Malformed => Malformed
      case Exhausted => Exhausted
      case Done(parts, b, a) =>
        match GetMessageCalls(b, a)
        case Malformed => Malformed
        case Exhausted => Exhausted
        case Done(calls, b, a) =>
          match GetStr(b)
          case Bad => Malformed
          case Got(id, b) => Done(Message(role, parts, calls, id), b, a)
  }

  function GetMessages(n: nat, segment: Option<Data>, b: Data, a: Arena): Decoded<seq<Message>> {
    if n == 0 then Done([], b, a) else
    match GetMessage(segment, b, a)
    case Malformed => Malformed
    case Exhausted => Exhausted
    case Done(m, b, a) =>
      match GetMessages(n - 1, segment, b, a)
      case Malformed => Malformed
      case Exhausted => Exhausted
      case Done(ms, b, a) => Done([m] + ms, b, a)
  }

  function GetRequest(segment: Option<Data>, b: Data, a: Arena): Decoded<Request> {
    match GetU32(b)
    case Bad => Malformed
    case Got(task, b) =>
      match GetU32(b)
      case Bad => Malformed
      case Got(flags, b) =>
        match GetU32(b)
        case Bad => Malformed
        case Got(runFlags, b) =>
          match GetU32(b)
          case Bad => Malformed
          case Got(n, b) =>
            if n > |b| / 16 then Malformed else
            match Span(a, n, MESSAGE_SIZE)
            case None => Exhausted
            case Some(a) =>
              match GetMessages(n, segment, b, a)
              case Malformed => Malformed
              case Exhausted => Exhausted
              case Done(ms, b, a) =>
                match GetStr(b)
                case Bad => Malformed
                case Got(tools, b) =>
                  match GetStr(b)
                  case Bad => Malformed
                  case Got(params, b) =>
                    match GetStr(b)
                    case Bad => Malformed
                    case Got(dir, b) => Done(Request(task, flags, runFlags, ms, tools, params, dir), b, a)
  }

  function GetResponse(segment: Option<Data>, b: Data, a: Arena): Decoded<Response> {
    match GetMessage(segment, b, a)
    case Malformed => Malformed
    case Exhausted => Exhausted
    case Done(m, b, a) =>
      match GetI32(b)
      case Bad => Malformed
      case Got(prompt, b) =>
        match GetI32(b)
        case Bad => Malformed
        case Got(completion, b) => Done(Response(m, prompt, completion), b, a)
  }
}
