/** The writer that appends to a buffer and the reader that moves through one, against the functions of the codec. */
module CodecStreams {
  import opened Options
  import opened Bytes
  import opened Arenas
  import opened Codec
  import opened CodecFrames
  import opened CodecRoundTrip

  class Writer {
    var out: Data
    var start: nat
    var shm: Option<Segment>

    ghost predicate Valid()
      reads this
    {
      start <= |out| && Sane(shm)
    }

    constructor (out: Data)
      ensures Valid() && this.out == out && shm == None
    {
      this.out, this.start, this.shm := out, 0, None;
    }

    /** What a call adds to the buffer and does to the segment. */
    twostate predicate Adds(w: Written)
      reads this
    {
      Valid() && start == old(start) && out == old(out) + w.bytes && shm == w.segment
    }

    method Begin(kind: u32, id: u64)
      requires Valid()
      modifies this
      ensures Valid() && start == |old(out)| && shm == old(shm)
      ensures out == old(out) + (U32(0) + (U32(kind) + U64(id)))
    {
      start := |out|;
      out := out + (U32(0) + (U32(kind) + U64(id)));
    }

    method SetShm(s: Option<Segment>)
      requires Valid() && Sane(s)
      modifies `shm
      ensures Valid() && shm == s
    {
      shm := s;
    }

    /** Patches the size field of the frame that `Begin` opened. */
    method Finish(kind: u32, id: u64, payload: Data) returns (ok: bool)
      requires Valid() && out[start..] == U32(0) + (U32(kind) + U64(id)) + payload
      modifies `out
      ensures ok == Frame(kind, id, payload).Some?
      ensures out == old(out[..start]) + if ok then Frame(kind, id, payload).value else old(out[start..])
    {
      var n := |out| - start - HEADER_SIZE;
      assert n == |payload|;
      if n > MAX_FRAME {
        ok := false;
        assert out == out[..start] + out[start..];
      } else {
        assert out[start + 4..] == out[start..][4..] == U32(kind) + (U64(id) + payload);
        out := out[..start] + U32(n) + out[start + 4..];
        ok := true;
      }
    }

    method Scalar(bytes: Data)
      requires Valid()
      modifies `out
      ensures Adds(Written(bytes, old(shm)))
    {
      out := out + bytes;
    }

    method Str(s: Data)
      requires Valid()
      modifies `out
      ensures Adds(Written(PutStr(s), old(shm)))
    {
      Scalar(U32(Cast32(|s|)));
      Scalar(s);
    }

    method Payload(d: Option<Data>)
      requires Valid()
      modifies `out, `shm
      ensures Adds(old(PutData(d, shm)))
    {
      hide U32, U64, Cast64, AlignUp, Overwrite;
      ghost var before := out;
      Scalar(U64(Cast64(Size(d))));
      if GoesToSegment(d, shm) {
        var at := shm.value.used;
        Scalar(U32(1));
        Scalar(U64(Cast64(at)));
        Place(d.value);
        assert out == before + (U64(Cast64(Size(d))) + U32(1) + U64(Cast64(at)));
      } else {
        Scalar(U32(0));
        if d.Some? { Scalar(d.value); }
        assert out == before + (U64(Cast64(Size(d))) + U32(0) + (if d.Some? then d.value else []));
      }
    }

    method Place(d: Data)
      requires Valid() && shm.Some? && shm.value.used + |d| <= |shm.value.memory|
      modifies `shm
      ensures Valid() && shm == Some(old(Placed(shm.value, d)))
    {
      hide Overwrite;
      var s := shm.value;
      var next := AlignUp(s.used + |d|, SHM_ALIGN);
      if next > |s.memory| { next := |s.memory|; }
      shm := Some(Segment(Overwrite(s.memory, s.used, d), next, s.threshold, s.count + 1));
    }

    method Shape(shape: seq<i64>)
      requires Valid()
      modifies `out
      ensures Adds(Written(PutShape(shape), old(shm)))
    {
      ghost var before := out;
      for i := 0 to |shape|
        invariant Valid() && start == old(start) && shm == old(shm)
        invariant out + PutShape(shape[i..]) == before + PutShape(shape)
      {
        Scalar(I64(shape[i]));
        assert shape[i..][1..] == shape[i + 1..];
      }
    }

    method HeadOf(p: Part)
      requires Valid()
      modifies `out
      ensures Adds(Written(PutHead(p), old(shm)))
    {
      hide U32, PutStr, Sane, PutShape, Cast32;
      ghost var r7 := PutShape(p.shape);
      ghost var r6 := U32(Cast32(|p.shape|)) + r7;
      ghost var r5 := U32(p.dtype) + r6;
      ghost var r4 := PutStr(p.name) + r5;
      ghost var r3 := PutStr(p.mime) + r4;
      ghost var r2 := PutStr(p.path) + r3;
      Cat(out, U32(p.kind), PutStr(p.text) + r2);
      Scalar(U32(p.kind));
      Cat(out, PutStr(p.text), r2);
      Str(p.text);
      Cat(out, PutStr(p.path), r3);
      Str(p.path);
      Cat(out, PutStr(p.mime), r4);
      Str(p.mime);
      Cat(out, PutStr(p.name), r5);
      Str(p.name);
      Cat(out, U32(p.dtype), r6);
      Scalar(U32(p.dtype));
      Cat(out, U32(Cast32(|p.shape|)), r7);
      Scalar(U32(Cast32(|p.shape|)));
      Shape(p.shape);
    }

    method PartOf(p: Part)
      requires Valid()
      modifies `out, `shm
      ensures Adds(old(PutPart(p, shm)))
    {
      hide PutHead, PutData, Sane;
      Cat(out, PutHead(p), PutData(p.data, shm).bytes);
      HeadOf(p);
      Payload(p.data);
    }

    method Parts(ps: seq<Part>)
      requires Valid()
      modifies `out, `shm
      ensures Adds(old(PutParts(ps, shm)))
    {
      hide PutPart, Sane;
      ghost var before, s := out, shm;
      for i := 0 to |ps|
        invariant Valid() && start == old(start)
        invariant out + PutParts(ps[i..], shm).bytes == before + PutParts(ps, s).bytes
        invariant PutParts(ps[i..], shm).segment == PutParts(ps, s).segment
      {
        assert ps[i..][1..] == ps[i + 1..];
        PartOf(ps[i]);
      }
    }

    method MessageOf(m: Message)
      requires Valid()
      modifies `out, `shm
      ensures Adds(old(PutMessage(m, shm)))
    {
      hide U32, PutStr, PutParts, Sane, Cast32, PutCalls;
      ghost var before, s := out, shm;
      Str(m.role);
      Scalar(U32(Cast32(|m.parts|)));
      Parts(m.parts);
      Calls(m.calls);
      Str(m.toolCallId);
      assert out == before + PutMessage(m, s).bytes;
    }

    method Calls(cs: seq<ToolCall>)
      requires Valid()
      modifies `out
      ensures Adds(Written(U32(Cast32(|cs|)) + PutCalls(cs), old(shm)))
    {
      hide U32, PutStr, Sane, Cast32;
      Scalar(U32(Cast32(|cs|)));
      ghost var middle := out;
      for i := 0 to |cs|
        invariant Valid() && start == old(start) && shm == old(shm)
        invariant out + PutCalls(cs[i..]) == middle + PutCalls(cs)
      {
        assert cs[i..][1..] == cs[i + 1..];
        ghost var rest := PutCalls(cs[i + 1..]);
        Cat(out, PutStr(cs[i].id), PutStr(cs[i].name) + (PutStr(cs[i].arguments) + rest));
        Str(cs[i].id);
        Cat(out, PutStr(cs[i].name), PutStr(cs[i].arguments) + rest);
        Str(cs[i].name);
        Cat(out, PutStr(cs[i].arguments), rest);
        Str(cs[i].arguments);
      }
      assert out == middle + PutCalls(cs);
    }

    method Messages(ms: seq<Message>)
      requires Valid()
      modifies `out, `shm
      ensures Adds(old(PutMessages(ms, shm)))
    {
      hide PutMessage, Sane;
      ghost var before, s := out, shm;
      for i := 0 to |ms|
        invariant Valid() && start == old(start)
        invariant out + PutMessages(ms[i..], shm).bytes == before + PutMessages(ms, s).bytes
        invariant PutMessages(ms[i..], shm).segment == PutMessages(ms, s).segment
      {
        assert ms[i..][1..] == ms[i + 1..];
        MessageOf(ms[i]);
      }
    }

    method RequestOf(r: Request)
      requires Valid()
      modifies `out, `shm
      ensures Adds(old(PutRequest(r, shm)))
    {
      hide U32, PutStr, PutMessages, Sane, Cast32;
      ghost var messages := PutMessages(r.messages, shm).bytes;
      ghost var r6 := PutStr(r.params) + PutStr(r.outputDir);
      ghost var r5 := PutStr(r.tools) + r6;
      ghost var r3 := U32(Cast32(|r.messages|)) + (messages + r5);
      Cat(out, U32(r.task), U32(r.flags) + (U32(r.runFlags) + r3));
      Scalar(U32(r.task));
      Cat(out, U32(r.flags), U32(r.runFlags) + r3);
      Scalar(U32(r.flags));
      Cat(out, U32(r.runFlags), r3);
      Scalar(U32(r.runFlags));
      Cat(out, U32(Cast32(|r.messages|)), messages + r5);
      Scalar(U32(Cast32(|r.messages|)));
      Cat(out, messages, r5);
      Messages(r.messages);
      Cat(out, PutStr(r.tools), r6);
      Str(r.tools);
      Cat(out, PutStr(r.params), PutStr(r.outputDir));
      Str(r.params);
      Str(r.outputDir);
    }

    method ResponseOf(r: Response)
      requires Valid()
      modifies `out, `shm
      ensures Adds(old(PutResponse(r, shm)))
    {
      hide I32, PutMessage, Sane;
      MessageOf(r.message);
      Scalar(I32(r.promptTokens));
      Scalar(I32(r.completionTokens));
    }

    method Names(n: Naming)
      requires Valid()
      modifies `out
      ensures Adds(Written(PutNaming(n), old(shm)))
    {
      hide U64, PutStr, Sane;
      Cat(out, PutStr(n.name), U64(n.size) + PutStr(n.retire));
      Str(n.name);
      Cat(out, U64(n.size), PutStr(n.retire));
      Scalar(U64(n.size));
      Str(n.retire);
    }

    /** A whole Run frame behind what is in the buffer, its large payloads in the segment, or false. */
    method RunFrame(kind: u32, id: u64, n: Naming, r: Request, s: Option<Segment>) returns (ok: bool)
      requires Valid() && Sane(s)
      modifies this
      ensures Valid() && shm == RunPayload(n, r, s).segment
      ensures ok == Frame(kind, id, RunPayload(n, r, s).bytes).Some?
      ensures ok ==> out == old(out) + Frame(kind, id, RunPayload(n, r, s).bytes).value
    {
      hide U32, U64, PutNaming, PutRequest, Frame, Sane;
      Begin(kind, id);
      Names(n);
      SetShm(s);
      RequestOf(r);
      OpenFrame(old(out), U32(0) + (U32(kind) + U64(id)), PutNaming(n), PutRequest(r, s).bytes);
      ok := Finish(kind, id, PutNaming(n) + PutRequest(r, s).bytes);
    }

    /** The same for a Response frame. */
    method ResponseFrame(kind: u32, id: u64, n: Naming, r: Response, s: Option<Segment>) returns (ok: bool)
      requires Valid() && Sane(s)
      modifies this
      ensures Valid() && shm == ResponsePayload(n, r, s).segment
      ensures ok == Frame(kind, id, ResponsePayload(n, r, s).bytes).Some?
      ensures ok ==> out == old(out) + Frame(kind, id, ResponsePayload(n, r, s).bytes).value
    {
      hide U32, U64, PutNaming, PutResponse, Frame, Sane;
      Begin(kind, id);
      Names(n);
      SetShm(s);
      ResponseOf(r);
      OpenFrame(old(out), U32(0) + (U32(kind) + U64(id)), PutNaming(n), PutResponse(r, s).bytes);
      ok := Finish(kind, id, PutNaming(n) + PutResponse(r, s).bytes);
    }
  }

  /** The frame that is being written is what lies behind the older contents. */
  lemma OpenFrame(before: Data, header: Data, naming: Data, body: Data)
    ensures var out := before + header + naming + body;
            out[|before|..] == header + (naming + body) && out[..|before|] == before
  {
  }

  /** `more` read after `done`. */
  function Prepend<T>(done: seq<T>, more: Decoded<seq<T>>): Decoded<seq<T>> {
    if more.Done? then Done(done + more.value, more.rest, more.arena) else more
  }

  function PrependTo<T>(done: seq<T>, more: Parsed<seq<T>>): Parsed<seq<T>> {
    if more.Got? then Got(done + more.value, more.rest) else Bad
  }

  lemma PrependEmpty<T>(more: Decoded<seq<T>>)
    ensures Prepend([], more) == more
  {
    if more.Done? { assert [] + more.value == more.value; }
  }

  lemma PrependOne<T>(done: seq<T>, x: T, more: Decoded<seq<T>>)
    ensures Prepend(done, Prepend([x], more)) == Prepend(done + [x], more)
  {
    if more.Done? { assert done + ([x] + more.value) == done + [x] + more.value; }
  }

  lemma PrependToEmpty<T>(more: Parsed<seq<T>>)
    ensures PrependTo([], more) == more
  {
    if more.Got? { assert [] + more.value == more.value; }
  }

  lemma PrependToOne<T>(done: seq<T>, x: T, more: Parsed<seq<T>>)
    ensures PrependTo(done, PrependTo([x], more)) == PrependTo(done + [x], more)
  {
    if more.Got? { assert done + ([x] + more.value) == done + [x] + more.value; }
  }

  /** Once a read fails, `ok` stays false and every later read fails. */
  class Reader {
    const data: Data
    const segment: Option<Data>
    var pos: nat
    var ok: bool
    var exhausted: bool
    var arena: Arena

    ghost predicate Valid()
      reads this
    {
      pos <= |data|
    }

    ghost function Rest(): Data
      requires Valid()
      reads this
    {
      data[pos..]
    }

    constructor (data: Data, segment: Option<Data>, arena: Arena)
      ensures Valid() && ok && !exhausted && this.arena == arena && this.segment == segment && this.data == data
      ensures Rest() == data
    {
      this.data, this.segment, this.pos, this.ok, this.exhausted, this.arena := data, segment, 0, true, false, arena;
    }

    twostate predicate Reads<T>(new r: Parsed<T>, new v: T)
      reads this
    {
      && Valid() && exhausted == old(exhausted) && arena == old(arena)
      && if old(ok) && r.Got? then ok && v == r.value && Rest() == r.rest else !ok
    }

    twostate predicate Yields<T>(new r: Decoded<T>, new v: T)
      reads this
    {
      && Valid()
      && (old(ok) && r.Done? ==>
            && ok && v == r.value && Rest() == r.rest && arena == r.arena
            && exhausted == old(exhausted))
      && (!(old(ok) && r.Done?) ==> !ok && exhausted == (old(exhausted) || (old(ok) && r.Exhausted?)))
    }

    method Take(n: nat) returns (t: Data)
      requires Valid()
      modifies `pos, `ok
      ensures Reads(old(GetBytes(n, Rest())), t)
    {
      if !ok || n > |data| - pos {
        ok, t := false, [];
      } else {
        t := data[pos..pos + n];
        assert data[pos..][..n] == t && data[pos..][n..] == data[pos + n..];
        pos := pos + n;
      }
    }

    method U32() returns (v: u32)
      requires Valid()
      modifies `pos, `ok
      ensures Reads(old(GetU32(Rest())), v)
    {
      hide ToU32;
      var t := Take(4);
      v := if ok then ToU32(t) else 0;
    }

    method U64() returns (v: u64)
      requires Valid()
      modifies `pos, `ok
      ensures Reads(old(GetU64(Rest())), v)
    {
      hide ToU64;
      var t := Take(8);
      v := if ok then ToU64(t) else 0;
    }

    method I32() returns (v: i32)
      requires Valid()
      modifies `pos, `ok
      ensures Reads(old(GetI32(Rest())), v)
    {
      hide ToI32;
      var t := Take(4);
      v := if ok then ToI32(t) else 0;
    }

    method Str() returns (s: Data)
      requires Valid()
      modifies `pos, `ok
      ensures Reads(old(GetStr(Rest())), s)
    {
      hide GetU32;
      var n := U32();
      s := Take(n);
    }

    method Payload() returns (d: Option<Data>)
      requires Valid()
      modifies `pos, `ok
      ensures Reads(old(GetData(segment, Rest())), d)
    {
      hide GetU32, GetU64;
      d := None;
      var size := U64();
      var loc := U32();
      if loc == 0 {
        var t := Take(size);
        if ok && size != 0 { d := Some(t); }
      } else if loc == 1 {
        var off := U64();
        if !ok || segment.None? || off > |segment.value| || size > |segment.value| - off {
          ok := false;
        } else if size != 0 {
          d := Some(segment.value[off..off + size]);
        }
      } else {
        ok := false;
      }
    }

    /** Space for `n` values; the frame is given up when there is none. */
    method Space(n: nat, size: nat)
      requires Valid() && ok
      modifies `ok, `exhausted, `arena
      ensures Valid()
      ensures match old(Span(arena, n, size))
              case Some(a) => ok && arena == a && exhausted == old(exhausted)
              case None => !ok && exhausted
    {
      if n != 0 {
        var (block, next) := Allocate(arena, n * size, 8);
        if block.At? { arena := next; } else { ok, exhausted := false, true; }
      }
    }

    method HeadIn() returns (h: Head)
      requires Valid()
      modifies `pos, `ok
      ensures Reads(old(GetHead(Rest())), h)
    {
      hide GetU32, GetStr;
      var kind := U32();
      var text := Str();
      var path := Str();
      var mime := Str();
      var name := Str();
      var dtype := U32();
      var ndim := U32();
      h := Head(kind, text, path, mime, name, dtype, ndim);
    }

    method ShapeIn(n: nat) returns (shape: seq<i64>)
      requires Valid() && 8 * n <= |data| - pos
      modifies `pos
      ensures Valid() && shape == old(GetShape(n, Rest())) && Rest() == old(Rest()[8 * n..])
    {
      hide GetShape;
      shape := GetShape(n, data[pos..]);
      assert data[pos..][8 * n..] == data[pos + 8 * n..];
      pos := pos + 8 * n;
    }

    method PartIn() returns (p: Part)
      requires Valid()
      modifies this
      ensures Yields(old(GetPart(segment, Rest(), arena)), p)
    {
      hide GetHead, GetData, GetShape, Span;
      var h := HeadIn();
      p := Part(h.kind, h.text, h.path, h.mime, h.name, h.dtype, [], None);
      if !ok || h.ndim > (|data| - pos) / 8 {
        ok := false;
        return;
      }
      Space(h.ndim, 8);
      if !ok { return; }
      var shape := ShapeIn(h.ndim);
      var d := Payload();
      p := p.(shape := shape, data := d);
    }

    method PartsIn(n: nat) returns (ps: seq<Part>)
      requires Valid() && ok
      modifies this
      ensures Yields(old(GetParts(n, segment, Rest(), arena)), ps)
    {
      hide GetPart;
      ghost var all := GetParts(n, segment, Rest(), arena);
      ps := [];
      PrependEmpty(all);
      for i := 0 to n
        invariant Valid() && ok && exhausted == old(exhausted)
        invariant Prepend(ps, GetParts(n - i, segment, Rest(), arena)) == all
      {
        ghost var left := GetParts(n - i, segment, Rest(), arena);
        var p := PartIn();
        if !ok { return; }
        ghost var more := GetParts(n - i - 1, segment, Rest(), arena);
        assert left == Prepend([p], more);
        PrependOne(ps, p, more);
        ps := ps + [p];
      }
      assert ps + [] == ps;
    }

    method CallsIn(n: nat) returns (cs: seq<ToolCall>)
      requires Valid()
      modifies `pos, `ok
      ensures Reads(old(GetCalls(n, Rest())), cs)
    {
      hide GetCall;
      ghost var all := GetCalls(n, Rest());
      cs := [];
      PrependToEmpty(all);
      for i := 0 to n
        invariant Valid() && exhausted == old(exhausted) && arena == old(arena) && (ok ==> old(ok))
        invariant if ok then PrependTo(cs, GetCalls(n - i, Rest())) == all else !old(ok) || all.Bad?
      {
        ghost var left := GetCalls(n - i, Rest());
        var c := CallIn();
        if ok {
          ghost var more := GetCalls(n - i - 1, Rest());
          assert left == PrependTo([c], more);
          PrependToOne(cs, c, more);
        }
        cs := cs + [c];
      }
      assert cs + [] == cs;
    }

    method CallIn() returns (c: ToolCall)
      requires Valid()
      modifies `pos, `ok
      ensures Reads(old(GetCall(Rest())), c)
    {
      hide GetStr;
      var id := Str();
      var name := Str();
      var arguments := Str();
      c := ToolCall(id, name, arguments);
    }

    method MessageIn() returns (m: Message)
      requires Valid()
      modifies this
      ensures Yields(old(GetMessage(segment, Rest(), arena)), m)
    {
      hide GetStr, GetMessageParts, GetMessageCalls;
      var role := Str();
      var parts := MessageParts();
      m := Message(role, parts, [], []);
      if !ok { return; }
      var calls := MessageCalls();
      var id := Str();
      m := Message(role, parts, calls, id);
    }

    method MessageParts() returns (ps: seq<Part>)
      requires Valid()
      modifies this
      ensures Yields(old(GetMessageParts(segment, Rest(), arena)), ps)
    {
      hide GetU32, GetParts, Span;
      var n := U32();
      ps := [];
      if !ok || n > (|data| - pos) / 40 {
        ok := false;
        return;
      }
      Space(n, PART_SIZE);
      if ok { ps := PartsIn(n); }
    }

    method MessageCalls() returns (cs: seq<ToolCall>)
      requires Valid()
      modifies this
      ensures Yields(old(GetMessageCalls(Rest(), arena)), cs)
    {
      hide GetU32, GetCalls, Span;
      var n := U32();
      cs := [];
      if !ok || n > (|data| - pos) / 12 {
        ok := false;
        return;
      }
      Space(n, CALL_SIZE);
      if ok { cs := CallsIn(n); }
    }

    method MessagesIn(n: nat) returns (ms: seq<Message>)
      requires Valid() && ok
      modifies this
      ensures Yields(old(GetMessages(n, segment, Rest(), arena)), ms)
    {
      hide GetMessage;
      ghost var all := GetMessages(n, segment, Rest(), arena);
      ms := [];
      PrependEmpty(all);
      for i := 0 to n
        invariant Valid() && ok && exhausted == old(exhausted)
        invariant Prepend(ms, GetMessages(n - i, segment, Rest(), arena)) == all
      {
        ghost var left := GetMessages(n - i, segment, Rest(), arena);
        var m := MessageIn();
        if !ok { return; }
        ghost var more := GetMessages(n - i - 1, segment, Rest(), arena);
        assert left == Prepend([m], more);
        PrependOne(ms, m, more);
        ms := ms + [m];
      }
      assert ms + [] == ms;
    }

    method RequestIn() returns (r: Request)
      requires Valid()
      modifies this
      ensures Yields(old(GetRequest(segment, Rest(), arena)), r)
    {
      hide GetU32, GetStr, GetMessages, Span;
      var task := U32();
      var flags := U32();
      var runFlags := U32();
      var n := U32();
      r := Request(task, flags, runFlags, [], [], [], []);
      if !ok || n > (|data| - pos) / 16 {
        ok := false;
        return;
      }
      Space(n, MESSAGE_SIZE);
      if !ok { return; }
      var ms := MessagesIn(n);
      if !ok { return; }
      var tools := Str();
      var params := Str();
      var dir := Str();
      r := Request(task, flags, runFlags, ms, tools, params, dir);
    }

    method ResponseIn() returns (r: Response)
      requires Valid()
      modifies this
      ensures Yields(old(GetResponse(segment, Rest(), arena)), r)
    {
      hide GetMessage, GetI32;
      var m := MessageIn();
      r := Response(m, 0, 0);
      if !ok { return; }
      var prompt := I32();
      var completion := I32();
      r := Response(m, prompt, completion);
    }
  }
}
