/** The critical sections of the remote engine as they change its fields, against the steps of the call protocol. */
module RemoteEngine {
  import opened Options
  import opened Bytes
  import opened Codec
  import opened CodecFrames
  import opened FrameStream
  import opened RemoteCalls
  import Safety = RemoteSafety

  const COMPACT_ABOVE := 65536

  class Engine {
    var alive: bool
    var generation: nat
    var reader: Option<nat>
    var rx: Data
    var rxOff: nat
    var calls: seq<Call>
    var nextId: nat
    var log: seq<Arrival>
    var stream: Data

    ghost predicate Valid()
      reads this
    {
      rxOff <= |rx|
    }

    /** The receive buffer counts from its read offset; `log` and `stream` are history. */
    ghost function View(): Remote
      requires Valid()
      reads this
    {
      Remote(alive, generation, reader, rx[rxOff..], calls, nextId, log, stream)
    }

    constructor ()
      ensures Valid() && Safety.Fresh(View()) && !alive && View().held == []
    {
      alive, generation, reader, rx, rxOff, calls, nextId := false, 0, None, [], 0, [], 1;
      log, stream := [], [];
    }

    method FindSlot(id: nat) returns (i: Option<nat>)
      ensures i == FindCall(calls, id)
    {
      var k := 0;
      while k < |calls|
        invariant k <= |calls|
        invariant FindCall(calls, id) ==
          var later := FindCall(calls[k..], id); if later.Some? then Some(later.value + k) else None
      {
        if Active(calls[k]) && calls[k].id == id { return Some(k); }
        assert calls[k..][1..] == calls[k + 1..];
        k := k + 1;
      }
      i := None;
    }

    /** A slot for a new call on the running host. */
    method Acquire()
      requires Valid()
      modifies `calls, `nextId
      ensures Valid() && View() == old(BeginCall(View()))
    {
      var k := 0;
      while k < |calls| && Active(calls[k])
        invariant k <= |calls|
        invariant FreeSlot(calls) == k + FreeSlot(calls[k..])
      {
        assert calls[k..][1..] == calls[k + 1..];
        k := k + 1;
      }
      var c := Call(Sending, nextId, generation, [], [], false, false, |log|, [], []);
      if k < |calls| { calls := calls[k := c]; } else { calls := calls + [c]; }
      nextId := nextId + 1;
    }

    /** Marks every unresolved call of the present host as failed, then lets the host go. */
    method GoDown()
      requires Valid()
      modifies this
      ensures Valid() && View() == old(Down(View()))
      ensures rx == [] && rxOff == 0
    {
      var k := 0;
      ghost var before := calls;
      while k < |calls|
        invariant k <= |calls| == |before|
        invariant forall j :: 0 <= j < |calls| ==> calls[j] == if j < k then FailCall(before[j], generation)
          else before[j]
        invariant alive == old(alive) && generation == old(generation) && reader == old(reader) && nextId == old(nextId)
        invariant log == old(log) && stream == old(stream)
      {
        var c := calls[k];
        if Active(c) && c.generation == generation && !c.finalQueued && !c.failed {
          calls := calls[k := c.(failed := true, phase := Woken(c.phase))];
        }
        k := k + 1;
      }
      assert calls == FailAll(before, generation);
      alive, generation, rx, rxOff := false, generation + 1, [], 0;
    }

    method HandOut(p: Packet)
      modifies `calls, `log
      ensures Valid() == old(Valid())
      ensures old(Valid()) ==> View() == old(Deliver(View(), p))
    {
      var i := FindSlot(p.id);
      log := log + [Arrival(generation, p)];
      if i.Some? && calls[i.value].generation == generation && !calls[i.value].failed {
        var c := calls[i.value];
        calls := calls[i.value := c.(inbox := c.inbox + [p], got := c.got + [p],
                                     finalQueued := c.finalQueued || IsFinal(p), phase := Woken(c.phase))];
      }
    }

    /** Appends what was read and hands out every complete frame; false when a malformed one brought the host down. */
    method Receive(chunk: Data) returns (fine: bool)
      requires Valid()
      modifies this
      ensures Valid() && View() == old(Dispatch(View(), chunk))
      ensures fine == !old(ParseStream(View().held + chunk)).bad
      ensures rxOff == 0 || rxOff <= COMPACT_ABOVE
    {
      hide Deliver, Complete, TooLong, First, Down;
      ghost var start := View();
      ghost var all := ParseStream(start.held + chunk);
      assert (rx + chunk)[rxOff..] == rx[rxOff..] + chunk;
      rx := rx + chunk;
      stream := stream + chunk;
      assert View() == start.(stream := stream, held := start.held + chunk);
      fine := HandOutAll();
      SameButHeld(start, start.held + chunk, start.stream + chunk, all.packets);
      if fine { Compact(); }
    }

    method HandOutAll() returns (fine: bool)
      requires Valid()
      modifies this
      ensures Valid()
      ensures var p := old(ParseStream(View().held));
              var given := old(DeliverAll(View(), p.packets)).(held := p.rest);
              fine == !p.bad && View() == if p.bad then Down(given) else given
      ensures !fine ==> rxOff == 0
    {
      hide Deliver, Down, ReadHeader;
      ghost var start := View();
      ghost var all := ParseStream(start.held);
      assert start.(held := rx[rxOff..]) == start;
      while true
        invariant Valid()
        invariant ParseStream(rx[rxOff..]).bad == all.bad && ParseStream(rx[rxOff..]).rest == all.rest
        invariant SameAfter(View(), ParseStream(rx[rxOff..]).packets, DeliverAll(start, all.packets))
        decreases |rx| - rxOff
      {
        ghost var held := rx[rxOff..];
        if |rx| - rxOff < HEADER_SIZE {
          NothingMore(View(), DeliverAll(start, all.packets));
          return true;
        }
        var h := ReadHeader(rx[rxOff..]);
        if h.size > MAX_FRAME {
          NothingMore(View(), DeliverAll(start, all.packets));
          GoDown();
          return false;
        }
        if |rx| - rxOff - HEADER_SIZE < h.size {
          NothingMore(View(), DeliverAll(start, all.packets));
          return true;
        }
        var total := HEADER_SIZE + h.size;
        var p := Packet(h.kind, h.id, rx[rxOff..][HEADER_SIZE..total]);
        assert p == First(held) && total == Length(held);
        ghost var was := View();
        HandOut(p);
        OneMore(was, held, DeliverAll(start, all.packets));
        assert rx[rxOff..][total..] == rx[rxOff + total..];
        rxOff := rxOff + total;
      }
    }

    /** Keeps the buffer from growing; what is held does not change. */
    method Compact()
      requires Valid()
      modifies `rx, `rxOff
      ensures Valid() && View() == old(View())
      ensures rxOff == 0 || rxOff <= COMPACT_ABOVE
    {
      if rxOff > 0 && rxOff == |rx| {
        rx, rxOff := [], 0;
      } else if rxOff > COMPACT_ABOVE {
        rx, rxOff := rx[rxOff..], 0;
      }
    }
  }

  // ---- how a partly dispatched buffer relates to the whole ----

  /** Handing out `left` from `r` on gives `end`, whatever is held meanwhile. */
  ghost predicate SameAfter(r: Remote, left: seq<Packet>, end: Remote) {
    DeliverAll(r, left).(held := end.held) == end
  }

  lemma NothingMore(r: Remote, end: Remote)
    requires SameAfter(r, [], end)
    ensures r.(held := end.held) == end
  {
  }

  lemma {:induction false} HeldIsCarried(r: Remote, held: Data, ps: seq<Packet>)
    ensures DeliverAll(r.(held := held), ps) == DeliverAll(r, ps).(held := held)
    decreases |ps|
  {
    hide FindCall, Given;
    if ps != [] {
      HeldIsCarried(Deliver(r, ps[0]), held, ps[1..]);
      assert Deliver(r.(held := held), ps[0]) == Deliver(r, ps[0]).(held := held);
    }
  }

  lemma {:induction false} SameButHeld(r: Remote, held: Data, stream: Data, ps: seq<Packet>)
    ensures DeliverAll(r.(held := held, stream := stream), ps) == DeliverAll(r, ps).(held := held, stream := stream)
    decreases |ps|
  {
    hide FindCall, Given;
    if ps != [] {
      SameButHeld(Deliver(r, ps[0]), held, stream, ps[1..]);
      assert Deliver(r.(held := held, stream := stream), ps[0]) == Deliver(r, ps[0]).(held := held, stream := stream);
    }
  }

  lemma OneMore(r: Remote, held: Data, end: Remote)
    requires Complete(held) && SameAfter(r, ParseStream(held).packets, end)
    ensures var rest := held[Length(held)..];
            && ParseStream(rest).bad == ParseStream(held).bad && ParseStream(rest).rest == ParseStream(held).rest
            && SameAfter(Deliver(r, First(held)).(held := rest), ParseStream(rest).packets, end)
  {
    hide Deliver, First, Complete;
    var rest := held[Length(held)..];
    var more := ParseStream(rest).packets;
    assert ([First(held)] + more)[1..] == more;
    HeldIsCarried(Deliver(r, First(held)), rest, more);
  }

  // ---- a call's own frames ----

  /** Goes through the frames swapped out of a call's inbox, up to its final frame: `seen` are the callbacks made, then
      the final frame if there was one. An inbox holds whole frames. */
  method ProcessBytes(work: Data) returns (seen: seq<Packet>, done: bool)
    requires ParseStream(work).rest == [] && !ParseStream(work).bad
    ensures seen == UpToFinal(ParseStream(work).packets) && done == HasFinal(ParseStream(work).packets)
  {
    hide HasFinal, UpToFinal, ReadHeader;
    var off := 0;
    seen, done := [], false;
    ghost var ps := ParseStream(work).packets;
    Safety.NoneFinal();
    assert work[0..] == work && [] + ps == ps;
    while |work| - off >= HEADER_SIZE
      invariant off <= |work| && !HasFinal(seen) && !done
      invariant ParseStream(work[off..]).rest == [] && !ParseStream(work[off..]).bad
      invariant seen + ParseStream(work[off..]).packets == ps
      decreases |work| - off
    {
      ghost var left := work[off..];
      assert Complete(left);
      var h := ReadHeader(work[off..]);
      var p := Packet(h.kind, h.id, work[off..][HEADER_SIZE..HEADER_SIZE + h.size]);
      assert p == First(left);
      ghost var more := ParseStream(left[Length(left)..]).packets;
      assert left[Length(left)..] == work[off + HEADER_SIZE + h.size..];
      assert seen + ([p] + more) == seen + [p] + more;
      off := off + HEADER_SIZE + h.size;
      Safety.FinalParts(seen, [p]);
      Safety.OneFinal(p);
      if IsFinal(p) {
        StopsHere(seen, p, more);
        return seen + [p], true;
      }
      seen := seen + [p];
    }
    assert ParseStream(work[off..]).packets == [];
    assert seen + [] == seen;
    Safety.NoFinalAll(ps);
  }

  lemma StopsHere(before: seq<Packet>, p: Packet, later: seq<Packet>)
    requires !HasFinal(before) && IsFinal(p)
    ensures UpToFinal(before + [p] + later) == before + [p] && HasFinal(before + [p] + later)
  {
    hide HasFinal;
    Safety.OneFinal(p);
    Safety.FinalParts(before, [p]);
    Safety.FinalParts(before + [p], later);
    Safety.UpToFinalStops(before + [p], later);
    Safety.UpToFinalGoes(before, [p]);
  }
}
