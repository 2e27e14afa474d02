/** Dropping old messages so that a history fits the context, without breaking up tool calls and their results. */
module HistoryPruning {
  import opened Options

  datatype ToolCall = ToolCall(name: string, arguments: string)

  /** `tokenCount` is -1 until the message has been counted. */
  datatype Message = Message(role: string, content: string, calls: seq<ToolCall>, tokenCount: int)

  /** How the provider counts a text, if it can. */
  datatype Counter = Counter(count: string -> Option<nat>)

  // ---- counting ----

  function Part(c: Option<Counter>, text: string): nat {
    if text == "" || c.None? then 0 else
    var n := c.value.count(text);
    if n.Some? then n.value else 0
  }

  function Calls(c: Option<Counter>, calls: seq<ToolCall>): nat {
    if calls == [] then 0 else Part(c, calls[0].name) + Part(c, calls[0].arguments) + Calls(c, calls[1..])
  }

  function CallsLength(calls: seq<ToolCall>): nat {
    if calls == [] then 0 else |calls[0].name| + |calls[0].arguments| + CallsLength(calls[1..])
  }

  /** The provider's count, or a quarter of the length when that gives nothing. */
  function FreshCount(c: Option<Counter>, m: Message): (n: nat)
    ensures n > 0
  {
    var counted := Part(c, m.role) + Part(c, m.content) + Calls(c, m.calls);
    if counted > 0 then counted else (|m.role| + 2 + |m.content| + 1 + CallsLength(m.calls) + 3) / 4
  }

  /** The texts of a message that are counted. */
  function Texts(m: Message): seq<string> {
    [m.role, m.content] + CallTexts(m.calls)
  }

  function CallTexts(calls: seq<ToolCall>): seq<string> {
    if calls == [] then [] else [calls[0].name, calls[0].arguments] + CallTexts(calls[1..])
  }

  function Sum(texts: seq<string>, f: string -> nat): nat {
    if texts == [] then 0 else f(texts[0]) + Sum(texts[1..], f)
  }

  /** What the provider counts for a text; nothing for an empty one or where it fails. */
  function Said(c: Option<Counter>, t: string): nat {
    if t != "" && c.Some? && c.value.count(t).Some? then c.value.count(t).value else 0
  }

  lemma {:induction false} CallsSum(c: Option<Counter>, calls: seq<ToolCall>)
    ensures Calls(c, calls) == Sum(CallTexts(calls), t => Said(c, t))
    ensures CallsLength(calls) == Sum(CallTexts(calls), t => |t|)
  {
    if calls != [] {
      CallsSum(c, calls[1..]);
      var name, rest := calls[0].name, CallTexts(calls[1..]);
      assert CallTexts(calls)[1..] == [calls[0].arguments] + rest;
      assert ([calls[0].arguments] + rest)[1..] == rest;
    }
  }

  /** A message counts as its texts together or, if that gives nothing, as a quarter of their length and three more,
      rounded up. */
  lemma FreshCountExactly(c: Option<Counter>, m: Message)
    ensures var counted, length, n := Sum(Texts(m), t => Said(c, t)), Sum(Texts(m), t => |t|) + 3, FreshCount(c, m);
            if counted > 0 then n == counted else 4 * (n - 1) < length <= 4 * n
  {
    CallsSum(c, m.calls);
    var rest := CallTexts(m.calls);
    assert Texts(m)[1..] == [m.content] + rest && ([m.content] + rest)[1..] == rest;
  }

  function CountOf(c: Option<Counter>, m: Message): nat {
    if m.tokenCount >= 0 then m.tokenCount else FreshCount(c, m)
  }

  /** A message is counted once: counting again finds the same, whichever provider is asked then. */
  function Counted(c: Option<Counter>, m: Message): (r: Message)
    ensures m.tokenCount >= 0 ==> r == m
    ensures forall later: Option<Counter> :: CountOf(later, r) == CountOf(c, m)
  {
    m.(tokenCount := CountOf(c, m))
  }

  function AllCounted(c: Option<Counter>, h: seq<Message>): (r: seq<Message>)
    ensures |r| == |h|
  {
    seq(|h|, i requires 0 <= i < |h| => Counted(c, h[i]))
  }

  function Total(c: Option<Counter>, h: seq<Message>): nat {
    if h == [] then 0 else CountOf(c, h[0]) + Total(c, h[1..])
  }

  lemma {:induction false} TotalSplit(c: Option<Counter>, a: seq<Message>, b: seq<Message>)
    ensures Total(c, a + b) == Total(c, a) + Total(c, b)
    decreases |a|
  {
    if a == [] {
      assert a + b == b;
    } else {
      assert (a + b)[1..] == a[1..] + b;
      TotalSplit(c, a[1..], b);
    }
  }

  // ---- groups ----

  predicate IsTool(m: Message) {
    m.role == "tool"
  }

  predicate Calling(m: Message) {
    m.role == "assistant" && m.calls != []
  }

  /** Every tool message follows, perhaps after others, an assistant message with tool calls. */
  predicate WellFormed(h: seq<Message>) {
    forall i :: 0 <= i < |h| && IsTool(h[i]) ==> i > 0 && (IsTool(h[i - 1]) || Calling(h[i - 1]))
  }

  /** The first index from `i` on that is not a tool message. */
  function RunEnd(h: seq<Message>, i: nat): (e: nat)
    requires i <= |h|
    ensures i <= e <= |h| && (forall k :: i <= k < e ==> IsTool(h[k])) && (e < |h| ==> !IsTool(h[e]))
    decreases |h| - i
  {
    if i == |h| || !IsTool(h[i]) then i else RunEnd(h, i + 1)
  }

  /** The end of the group that starts at `d`: a message, with the tool messages that belong to it. */
  function GroupEnd(h: seq<Message>, d: nat): (e: nat)
    requires d < |h|
    ensures d < e <= |h|
  {
    if IsTool(h[d]) || Calling(h[d]) then RunEnd(h, d + 1) else d + 1
  }

  /** `d` is where a group starts or the history ends, counting groups from `from`. */
  predicate Boundary(h: seq<Message>, from: nat, d: nat)
    requires from <= |h|
    decreases |h| - from
  {
    d == from || (from < |h| && d > from && Boundary(h, GroupEnd(h, from), d))
  }

  lemma {:induction false} BoundaryInside(h: seq<Message>, from: nat, d: nat)
    requires from <= |h| && Boundary(h, from, d)
    ensures from <= d <= |h|
    decreases |h| - from
  {
    if d != from { BoundaryInside(h, GroupEnd(h, from), d); }
  }

  lemma {:induction false} NextBoundary(h: seq<Message>, from: nat, d: nat)
    requires from <= |h| && Boundary(h, from, d) && d < |h|
    ensures Boundary(h, from, GroupEnd(h, d))
    decreases |h| - from
  {
    if d != from {
      BoundaryInside(h, GroupEnd(h, from), d);
      NextBoundary(h, GroupEnd(h, from), d);
    }
  }

  /** No boundary lies inside a group. */
  lemma {:induction false} NoneBetween(h: seq<Message>, from: nat, d: nat, x: nat)
    requires from <= |h| && Boundary(h, from, d) && Boundary(h, from, x) && d < x && d < |h|
    ensures x >= GroupEnd(h, d)
    decreases |h| - from
  {
    if d == from {
      BoundaryInside(h, GroupEnd(h, from), x);
    } else {
      BoundaryInside(h, GroupEnd(h, from), d);
      NoneBetween(h, GroupEnd(h, from), d, x);
    }
  }

  /** A group that starts at a boundary of a well-formed history does not start with a tool message. */
  lemma {:induction false} NoToolAt(h: seq<Message>, from: nat, d: nat)
    requires WellFormed(h) && from <= |h| && Boundary(h, from, d) && d < |h|
    requires from < |h| ==> !IsTool(h[from])
    ensures !IsTool(h[d])
    decreases |h| - from
  {
    if d != from {
      var e := GroupEnd(h, from);
      BoundaryInside(h, e, d);
      NoToolAt(h, e, d);
    }
  }

  // ---- pruning ----

  function Kept(h: seq<Message>, from: nat, d: nat): seq<Message>
    requires from <= d <= |h|
  {
    h[..from] + h[d..]
  }

  lemma KeptWellFormed(h: seq<Message>, from: nat, d: nat)
    requires WellFormed(h) && from <= |h| && Boundary(h, from, d) && from <= d < |h|
    requires forall i :: 0 <= i < from ==> !IsTool(h[i])
    requires !IsTool(h[from])
    ensures WellFormed(Kept(h, from, d))
  {
    NoToolAt(h, from, d);
    var r := Kept(h, from, d);
    forall i | 0 <= i < |r| && IsTool(r[i]) ensures i > 0 && (IsTool(r[i - 1]) || Calling(r[i - 1])) {
      assert r[i] == h[d + (i - from)] && i > from;
      assert r[i - 1] == h[d + (i - from) - 1];
    }
  }

  /** Messages from `from` on may be dropped: all but the leading system messages, or but all if they are all that. */
  predicate FixedStart(h: seq<Message>, from: nat) {
    && h != [] && from < |h| && (forall i :: 0 <= i < from ==> h[i].role == "system")
    && (h[from].role == "system" ==> from == |h| - 1)
  }

  /** What pruning may leave: `d` is the first boundary from which on everything fits, or, if none does, the start of
      the last group. */
  ghost predicate Pruned(c: Option<Counter>, h: seq<Message>, allowed: int, from: nat, d: nat) {
    && FixedStart(h, from) && Boundary(h, from, d) && from <= d < |h|
    && (forall x :: from <= x < d && Boundary(h, from, x) ==> Total(c, Kept(h, from, x)) > allowed)
    && (Total(c, Kept(h, from, d)) <= allowed || GroupEnd(h, d) == |h|)
  }

  method FindFixedStart(h: seq<Message>) returns (from: nat)
    requires h != []
    ensures FixedStart(h, from)
  {
    from := 0;
    while from < |h| && h[from].role == "system"
      invariant from <= |h| && forall i :: 0 <= i < from ==> h[i].role == "system"
    {
      from := from + 1;
    }
    if from == |h| { from := |h| - 1; }
  }

  /** The number of tool messages from `i` on, one after the other, found by stepping. */
  method GroupSize(h: seq<Message>, d: nat) returns (group: nat)
    requires d < |h|
    ensures d + group == GroupEnd(h, d)
  {
    group := 1;
    if IsTool(h[d]) || Calling(h[d]) {
      while d + group < |h| && IsTool(h[d + group])
        invariant group >= 1 && d + group <= |h|
        invariant RunEnd(h, d + group) == RunEnd(h, d + 1)
      {
        group := group + 1;
      }
    }
  }

  lemma DropOne(c: Option<Counter>, h: seq<Message>, from: nat, d: nat)
    requires from <= d < |h|
    ensures Total(c, Kept(h, from, d)) == Total(c, Kept(h, from, GroupEnd(h, d))) + Total(c, h[d..GroupEnd(h, d)])
  {
    hide Total;
    var e := GroupEnd(h, d);
    TotalSplit(c, h[..from], h[d..]);
    TotalSplit(c, h[..from], h[e..]);
    assert h[d..] == h[d..e] + h[e..];
    TotalSplit(c, h[d..e], h[e..]);
  }

  method SumOf(c: Option<Counter>, h: seq<Message>, low: nat, high: nat) returns (sum: nat)
    requires low <= high <= |h|
    ensures sum == Total(c, h[low..high])
  {
    hide Total, CountOf;
    sum := 0;
    TotalNone(c);
    assert h[low..low] == [];
    for i := low to high
      invariant sum == Total(c, h[low..i])
    {
      assert h[low..i + 1] == h[low..i] + [h[i]];
      TotalSplit(c, h[low..i], [h[i]]);
      TotalOne(c, h[i]);
      sum := sum + CountOf(c, h[i]);
    }
  }

  lemma TotalNone(c: Option<Counter>)
    ensures Total(c, []) == 0
  {
  }

  lemma TotalOne(c: Option<Counter>, m: Message)
    ensures Total(c, [m]) == CountOf(c, m)
  {
    assert [m][1..] == [];
  }

  /** The index up to which messages after the fixed ones are dropped. */
  method FindDrop(c: Option<Counter>, h: seq<Message>, allowed: int, from: nat) returns (d: nat)
    requires FixedStart(h, from)
    ensures Pruned(c, h, allowed, from, d)
  {
    hide Total, Boundary, GroupEnd;
    var minKeep := from + 1;
    var total: int := SumOf(c, h, 0, |h|);
    d := from;
    assert h[0..|h|] == h == Kept(h, from, from);
    BoundaryHere(h, from);
    while total > allowed
      invariant from <= d < |h| && Boundary(h, from, d)
      invariant total == Total(c, Kept(h, from, d))
      invariant forall x :: from <= x < d && Boundary(h, from, x) ==> Total(c, Kept(h, from, x)) > allowed
      decreases |h| - d
    {
      var group := GroupSize(h, d);
      if |h| - (d - from) <= minKeep || |h| - (d - from) - group < minKeep {
        LastGroup(h, d);
        return;
      }
      var sum := SumOf(c, h, d, d + group);
      DropOne(c, h, from, d);
      NextBoundary(h, from, d);
      forall x | from <= x < d + group && Boundary(h, from, x) ensures Total(c, Kept(h, from, x)) > allowed {
        if x > d { NoneBetween(h, from, d, x); }
      }
      total := total - sum;
      d := d + group;
    }
  }

  lemma BoundaryHere(h: seq<Message>, from: nat)
    requires from <= |h|
    ensures Boundary(h, from, from)
  {
  }

  lemma LastGroup(h: seq<Message>, d: nat)
    requires d < |h|
    ensures d < GroupEnd(h, d) <= |h|
  {
  }

  ghost predicate PrunesTo(c: Option<Counter>, h: seq<Message>, allowed: int, out: seq<Message>, from: nat, d: nat) {
    Pruned(c, h, allowed, from, d) && out == AllCounted(c, Kept(h, from, d))
  }

  /** The history after pruning: the leading system messages and a suffix that starts with a group, at least one message
      more, and still well formed if it was. */
  method Prune(c: Option<Counter>, h: seq<Message>, allowed: int) returns (out: seq<Message>)
    ensures h == [] ==> out == []
    ensures h != [] ==> exists from, d :: PrunesTo(c, h, allowed, out, from, d)
    ensures WellFormed(h) ==> WellFormed(out)
  {
    hide Total, Boundary, GroupEnd;
    if h == [] { return []; }
    var start := FindFixedStart(h);
    var drop := FindDrop(c, h, allowed, start);
    var kept := h[..start] + h[drop..];
    out := seq(|kept|, i requires 0 <= i < |kept| => Counted(c, kept[i]));
    assert PrunesTo(c, h, allowed, out, start, drop);
    if WellFormed(h) {
      StartIsNoTool(h, start);
      KeptWellFormed(h, start, drop);
      SameRoles(c, kept);
    }
  }

  lemma StartIsNoTool(h: seq<Message>, from: nat)
    requires WellFormed(h) && FixedStart(h, from)
    ensures !IsTool(h[from]) && forall i :: 0 <= i < from ==> !IsTool(h[i])
  {
    if from > 0 { assert h[from - 1].role == "system"; }
  }

  lemma SameRoles(c: Option<Counter>, h: seq<Message>)
    requires WellFormed(h)
    ensures WellFormed(AllCounted(c, h))
  {
    var r := AllCounted(c, h);
    forall i | 0 <= i < |r| && IsTool(r[i]) ensures i > 0 && (IsTool(r[i - 1]) || Calling(r[i - 1])) {
      assert IsTool(h[i]);
    }
  }
}
