/** Cycles of transitions that do not depend on state. */
module StaticCycles {
  import opened Options
  import opened GraphClaims

  /** Where each node goes, if that is fixed. */
  type Next = map<Name, Option<Name>>

  function ExitTarget(exitTo: map<Name, Name>, n: Name): Option<Name> {
    if n in exitTo && exitTo[n] != "" then Some(exitTo[n]) else None
  }

  /** Nothing for loop nodes, which count, and for routed edges; `firstStep` is where a sequential node begins. */
  function StaticNext(l: Links, loops: set<Name>, firstStep: map<Name, Name>, exitTo: map<Name, Name>,
                      n: Name): Option<Name> {
    if n in loops then None
    else if n in firstStep then Some(firstStep[n])
    else
      match EdgeFrom(l.edges, n)
      case None => ExitTarget(exitTo, n)
      case Some(e) =>
        if e.target.Routed? then None else if e.target.to != END then Some(e.target.to) else ExitTarget(exitTo, n)
  }

  /** Where a node goes whatever the state is: a loop node nowhere, a sequential one to its first step, and any other
      along its fixed edge or, where that ends or is missing, to its exit. */
  lemma StaticNextExactly(l: Links, loops: set<Name>, firstStep: map<Name, Name>, exitTo: map<Name, Name>, n: Name)
    ensures var next := StaticNext(l, loops, firstStep, exitTo, n);
            var exit := if n in exitTo && exitTo[n] != "" then Some(exitTo[n]) else None;
            && (n in loops ==> next == None)
            && (n !in loops && n in firstStep ==> next == Some(firstStep[n]))
            && (n !in loops && n !in firstStep && (forall e <- l.edges :: e.from != n) ==> next == exit)
            && (n !in loops && n !in firstStep ==> forall i: nat :: FirstFrom(l.edges, i, n) ==>
                  match l.edges[i].target
                  case Routed(_, _) => next == None
                  case Fixed(to) => next == if to == END then exit else Some(to))
  {
    NoEdgeFrom(l.edges, n);
    forall i: nat | FirstFrom(l.edges, i, n) ensures EdgeFrom(l.edges, n) == Some(l.edges[i]) {
      EdgeFromFirst(l.edges, i, n);
    }
  }

  function NextOf(l: Links, loops: set<Name>, firstStep: map<Name, Name>, exitTo: map<Name, Name>,
                  nodes: seq<Name>): Next {
    map n <- nodes :: StaticNext(l, loops, firstStep, exitTo, n)
  }

  ghost predicate Linked(next: Next) {
    forall n <- next :: next[n].Some? ==> next[n].value in next
  }

  function Follow(next: Next, x: Option<Name>): Option<Name> {
    if x.Some? && x.value in next then next[x.value] else None
  }

  function Iterate(next: Next, x: Option<Name>, k: nat): Option<Name> {
    if k == 0 then x else Follow(next, Iterate(next, x, k - 1))
  }

  /** The node comes back to itself. */
  ghost predicate OnCycle(next: Next, n: Name) {
    exists k: nat :: k > 0 && Iterate(next, Some(n), k) == Some(n)
  }

  /** Distinct nodes, each going to the one after it and the last to the first. */
  predicate Cycle(next: Next, c: seq<Name>) {
    && c != [] && (forall i, j :: 0 <= i < j < |c| ==> c[i] != c[j])
    && (forall i :: 0 <= i < |c| ==> c[i] in next)
    && (forall i :: 0 <= i < |c| - 1 ==> next[c[i]] == Some(c[i + 1])) && next[c[|c| - 1]] == Some(c[0])
  }

  // ---- orbits ----

  lemma {:induction false} IterateSum(next: Next, x: Option<Name>, a: nat, b: nat)
    ensures Iterate(next, Iterate(next, x, a), b) == Iterate(next, x, a + b)
    decreases b
  {
    if b > 0 { IterateSum(next, x, a, b - 1); }
  }

  predicate StaysIn(next: Next, s: set<Name>) {
    forall n <- s :: n in next && (next[n].Some? ==> next[n].value in s)
  }

  lemma {:induction false} ClosedStays(next: Next, s: set<Name>, x: Option<Name>, k: nat)
    requires StaysIn(next, s) && (x.Some? ==> x.value in s)
    ensures var y := Iterate(next, x, k); y.Some? ==> y.value in s
  {
    if k > 0 { ClosedStays(next, s, x, k - 1); }
  }

  /** A node on a cycle comes back later than any given time. */
  lemma {:induction false} ComesBack(next: Next, n: Name, j: nat) returns (k: nat)
    requires OnCycle(next, n)
    ensures k >= j && Iterate(next, Some(n), k) == Some(n)
  {
    if j == 0 {
      k := 0;
    } else {
      k := ComesBack(next, n, j - 1);
      var p: nat :| p > 0 && Iterate(next, Some(n), p) == Some(n);
      IterateSum(next, Some(n), k, p);
      k := k + p;
    }
  }

  /** Who walks into a closed set from outside, or off the end, is on no cycle. */
  lemma LeavesForGood(next: Next, s: set<Name>, n: Name, j: nat)
    requires StaysIn(next, s) && n !in s
    requires var y := Iterate(next, Some(n), j); y.Some? ==> y.value in s
    ensures !OnCycle(next, n)
  {
    if OnCycle(next, n) {
      var k := ComesBack(next, n, j);
      ClosedStays(next, s, Iterate(next, Some(n), j), k - j);
      IterateSum(next, Some(n), j, k - j);
    }
  }

  lemma {:induction false} AlongWalk(next: Next, w: seq<Name>, i: nat, k: nat)
    requires i + k < |w| && (forall m :: 0 <= m < |w| ==> w[m] in next)
    requires forall m :: 0 <= m < |w| - 1 ==> next[w[m]] == Some(w[m + 1])
    ensures Iterate(next, Some(w[i]), k) == Some(w[i + k])
    decreases k
  {
    if k > 0 { AlongWalk(next, w, i, k - 1); }
  }

  lemma CycleNodes(next: Next, c: seq<Name>, i: nat)
    requires Cycle(next, c) && i < |c|
    ensures OnCycle(next, c[i])
  {
    var n := |c| - 1;
    AlongWalk(next, c, i, n - i);
    assert Iterate(next, Some(c[i]), n - i + 1) == Some(c[0]);
    AlongWalk(next, c, 0, i);
    IterateSum(next, Some(c[i]), n - i + 1, i);
  }

  // ---- the search ----

  /** A walk through nodes not done before, and where it went after its last. */
  ghost predicate Walking(next: Next, done: set<Name>, w: seq<Name>, cur: Option<Name>) {
    && (forall i :: 0 <= i < |w| ==> w[i] in next && w[i] !in done)
    && (forall i, j :: 0 <= i < j < |w| ==> w[i] != w[j])
    && (forall i :: 0 <= i < |w| - 1 ==> next[w[i]] == Some(w[i + 1]))
    && (w != [] ==> next[w[|w| - 1]] == cur)
    && (cur.Some? ==> cur.value in next)
  }

  /** Among the nodes done, those on cycles are those reported, each once, and nothing leads out. */
  ghost predicate Found(next: Next, done: set<Name>, cycles: seq<seq<Name>>) {
    && StaysIn(next, done)
    && (forall i :: 0 <= i < |cycles| ==> Cycle(next, cycles[i]) && forall n <- cycles[i] :: n in done)
    && (forall i, j, n :: 0 <= i < j < |cycles| && n in cycles[i] ==> n !in cycles[j])
    && (forall n <- done :: OnCycle(next, n) ==> exists i :: 0 <= i < |cycles| && n in cycles[i])
  }

  function Nodes(w: seq<Name>): set<Name> {
    set n <- w
  }

  /** The walk ran off the end or into nodes done before: no cycle in it. */
  lemma WalkEnds(next: Next, done: set<Name>, w: seq<Name>, cur: Option<Name>, cycles: seq<seq<Name>>)
    requires Found(next, done, cycles) && Walking(next, done, w, cur) && (cur.Some? ==> cur.value in done)
    ensures Found(next, done + Nodes(w), cycles)
  {
    hide Cycle;
    forall n | n in w ensures !OnCycle(next, n) {
      var i :| 0 <= i < |w| && w[i] == n;
      AlongWalk(next, w, i, |w| - 1 - i);
      assert Iterate(next, Some(n), |w| - i) == cur;
      LeavesForGood(next, done, n, |w| - i);
    }
    WalkClosed(next, done, w, cur);
  }

  lemma WalkClosed(next: Next, done: set<Name>, w: seq<Name>, cur: Option<Name>)
    requires StaysIn(next, done) && Walking(next, done, w, cur) && (cur.Some? ==> cur.value in done || cur.value in w)
    ensures StaysIn(next, done + Nodes(w))
  {
    forall n | n in done + Nodes(w) ensures n in next && (next[n].Some? ==> next[n].value in done + Nodes(w)) {
      if n !in done {
        var i :| 0 <= i < |w| && w[i] == n;
        if i < |w| - 1 { assert w[i + 1] in w; }
      }
    }
  }

  /** The walk came back to its own node `w[j]`: the cycle is the rest of the walk from there. */
  lemma WalkLoops(next: Next, done: set<Name>, w: seq<Name>, j: nat, cycles: seq<seq<Name>>)
    requires Found(next, done, cycles) && j < |w| && Walking(next, done, w, Some(w[j]))
    ensures Found(next, done + Nodes(w), cycles + [w[j..]])
  {
    var c := w[j..];
    LoopIsCycle(next, done, w, j);
    WalkClosed(next, done, w, Some(w[j]));
    forall n | n in done + Nodes(w) && OnCycle(next, n)
      ensures exists i :: 0 <= i < |cycles + [c]| && n in (cycles + [c])[i]
    {
      if n in done {
        var i :| 0 <= i < |cycles| && n in cycles[i];
        assert n in (cycles + [c])[i];
      } else {
        var i :| 0 <= i < |w| && w[i] == n;
        if i < j {
          BeforeLoop(next, done, w, j, i);
        } else {
          assert c[i - j] == n;
          assert n in (cycles + [c])[|cycles|];
        }
      }
    }
  }

  lemma LoopIsCycle(next: Next, done: set<Name>, w: seq<Name>, j: nat)
    requires j < |w| && Walking(next, done, w, Some(w[j]))
    ensures Cycle(next, w[j..]) && forall n <- w[j..] :: n in w && n !in done
  {
  }

  lemma BeforeLoop(next: Next, done: set<Name>, w: seq<Name>, j: nat, i: nat)
    requires i < j < |w| && Walking(next, done, w, Some(w[j]))
    ensures !OnCycle(next, w[i])
  {
    var s := Nodes(w[j..]);
    forall n | n in s ensures n in next && (next[n].Some? ==> next[n].value in s) {
      var k :| 0 <= k < |w[j..]| && w[j..][k] == n;
      if k < |w[j..]| - 1 { assert w[j..][k + 1] in w[j..]; } else { assert w[j..][0] in w[j..]; }
    }
    AlongWalk(next, w, i, j - i);
    assert w[j..][0] == w[j];
    LeavesForGood(next, s, w[i], j - i);
  }

  /** Follows every node not seen yet until it meets the end, a node done before or itself. The cycles reported are
      cycles, no node is in two of them, and every node on a cycle is in one. */
  method FindCycles(next: Next, nodes: seq<Name>) returns (cycles: seq<seq<Name>>)
    requires Linked(next) && forall n :: n in nodes <==> n in next
    ensures forall i :: 0 <= i < |cycles| ==> Cycle(next, cycles[i])
    ensures forall i, j, n :: 0 <= i < j < |cycles| && n in cycles[i] ==> n !in cycles[j]
    ensures forall n <- next :: OnCycle(next, n) <==> exists i :: 0 <= i < |cycles| && n in cycles[i]
  {
    hide Cycle, OnCycle;
    cycles := [];
    var done: set<Name> := {};
    for i := 0 to |nodes|
      invariant Found(next, done, cycles)
      invariant forall k :: 0 <= k < i ==> nodes[k] in done
    {
      if nodes[i] in done { continue; }
      var w, cur := WalkFrom(next, done, nodes[i]);
      assert nodes[i] in w;
      if cur.Some? && cur.value !in done {
        var j := Position(w, cur.value);
        WalkLoops(next, done, w, j, cycles);
        cycles := cycles + [w[j..]];
      } else {
        WalkEnds(next, done, w, cur, cycles);
      }
      done := done + (set n <- w);
    }
    forall n | n in next ensures OnCycle(next, n) <==> exists i :: 0 <= i < |cycles| && n in cycles[i] {
      assert n in done by { var k :| 0 <= k < |nodes| && nodes[k] == n; }
      if i :| 0 <= i < |cycles| && n in cycles[i] {
        var k :| 0 <= k < |cycles[i]| && cycles[i][k] == n;
        CycleNodes(next, cycles[i], k);
      }
    }
  }

  method WalkFrom(next: Next, done: set<Name>, start: Name) returns (w: seq<Name>, cur: Option<Name>)
    requires Linked(next) && start in next && start !in done
    ensures Walking(next, done, w, cur) && start in w
    ensures cur.Some? ==> cur.value in done || cur.value in w
  {
    hide Walking, Nodes;
    w, cur := [start], next[start];
    WalkBegins(next, done, start);
    while cur.Some? && cur.value !in done && cur.value !in w
      invariant Walking(next, done, w, cur) && start in w
      decreases |next.Keys - Nodes(w)|
    {
      var n := cur.value;
      WalkOn(next, done, w, n);
      w := w + [n];
      cur := next[n];
    }
  }

  lemma WalkBegins(next: Next, done: set<Name>, start: Name)
    requires Linked(next) && start in next && start !in done
    ensures Walking(next, done, [start], next[start])
  {
  }

  lemma WalkOn(next: Next, done: set<Name>, w: seq<Name>, n: Name)
    requires Linked(next) && Walking(next, done, w, Some(n)) && n !in done && n !in w
    ensures n in next && Walking(next, done, w + [n], next[n])
    ensures |next.Keys - Nodes(w + [n])| < |next.Keys - Nodes(w)|
  {
    hide Nodes;
    FewerLeft(next.Keys, w, n);
    var v := w + [n];
    forall i | 0 <= i < |v| ensures v[i] in next && v[i] !in done {
      if i < |w| { assert v[i] == w[i]; }
    }
    forall i, j | 0 <= i < j < |v| ensures v[i] != v[j] {
      assert v[i] == w[i] && w[i] in w;
    }
    forall i | 0 <= i < |v| - 1 ensures next[v[i]] == Some(v[i + 1]) {
      assert v[i] == w[i];
    }
  }

  lemma FewerLeft(names: set<Name>, w: seq<Name>, n: Name)
    requires n in names && n !in w
    ensures |names - Nodes(w + [n])| < |names - Nodes(w)|
  {
    var left := names - Nodes(w);
    assert names - Nodes(w + [n]) == left - {n};
    assert n in left;
  }

  method Position(w: seq<Name>, n: Name) returns (j: nat)
    requires n in w
    ensures j < |w| && w[j] == n && forall k :: 0 <= k < j ==> w[k] != n
  {
    j := 0;
    while w[j] != n
      invariant j < |w| && forall k :: 0 <= k < j ==> w[k] != n
      decreases |w| - j
    {
      assert j + 1 < |w| by { var k :| 0 <= k < |w| && w[k] == n; }
      j := j + 1;
    }
  }

  // ---- the graph's own transitions ----

  /** Every transition of the graph leads to a node of it. */
  ghost predicate TargetsAreNodes(l: Links, firstStep: map<Name, Name>, exitTo: map<Name, Name>, nodes: seq<Name>) {
    && (forall n <- firstStep :: firstStep[n] in nodes)
    && (forall n <- exitTo :: exitTo[n] != "" ==> exitTo[n] in nodes)
    && (forall e <- l.edges :: e.target.Fixed? && e.target.to != END ==> e.target.to in nodes)
  }

  lemma {:induction false} EdgeFound(edges: seq<Edge>, n: Name)
    ensures var e := EdgeFrom(edges, n); e.Some? ==> e.value in edges && e.value.from == n
  {
    if edges != [] && edges[0].from != n { EdgeFound(edges[1..], n); }
  }

  lemma NextLinked(l: Links, loops: set<Name>, firstStep: map<Name, Name>, exitTo: map<Name, Name>, nodes: seq<Name>)
    requires TargetsAreNodes(l, firstStep, exitTo, nodes)
    ensures Linked(NextOf(l, loops, firstStep, exitTo, nodes))
  {
    forall n | n in nodes ensures var t := StaticNext(l, loops, firstStep, exitTo, n); t.Some? ==> t.value in nodes {
      EdgeFound(l.edges, n);
    }
  }

  /** The cycles that a graph is warned about: each node of one goes on to the next, and a node is in one exactly if it
      comes back to itself. */
  method WarnStaticCycles(l: Links, loops: set<Name>, firstStep: map<Name, Name>, exitTo: map<Name, Name>,
                          nodes: seq<Name>) returns (cycles: seq<seq<Name>>)
    requires TargetsAreNodes(l, firstStep, exitTo, nodes)
    ensures forall i, j :: 0 <= i < |cycles| && 0 <= j < |cycles[i]| ==>
      && cycles[i][j] in nodes
      && StaticNext(l, loops, firstStep, exitTo, cycles[i][j]) ==
         Some(cycles[i][if j + 1 < |cycles[i]| then j + 1 else 0])
    ensures forall i, j, n :: 0 <= i < j < |cycles| && n in cycles[i] ==> n !in cycles[j]
    ensures forall n <- nodes ::
      OnCycle(NextOf(l, loops, firstStep, exitTo, nodes), n) <==> exists i :: 0 <= i < |cycles| && n in cycles[i]
  {
    hide StaticNext, OnCycle;
    NextLinked(l, loops, firstStep, exitTo, nodes);
    var next := NextOf(l, loops, firstStep, exitTo, nodes);
    cycles := FindCycles(next, nodes);
    assert forall i :: 0 <= i < |cycles| ==> Cycle(next, cycles[i]);
  }
}
