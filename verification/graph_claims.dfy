/** Which nodes of a JSON graph belong to which loop body, branch, step or to the top level. */
module GraphClaims {
  import opened Options
  import Graphs

  type Name = string

  const END: Name := Graphs.END

  datatype Target = Fixed(to: Name) | Routed(cases: seq<Name>, fallback: Name)
  datatype Edge = Edge(from: Name, target: Target)

  /** The parts of the builder that transitions depend on; `doneOf` gives the closing node of a sequential one. */
  datatype Links = Links(sequential: map<Name, Name>, edges: seq<Edge>)

  function EdgeFrom(edges: seq<Edge>, n: Name): Option<Edge> {
    if edges == [] then None else if edges[0].from == n then Some(edges[0]) else EdgeFrom(edges[1..], n)
  }

  function NotEnd(names: seq<Name>): (r: seq<Name>)
    ensures forall n :: n in r <==> n in names && n != END
  {
    if names == [] then [] else (if names[0] != END then [names[0]] else []) + NotEnd(names[1..])
  }

  function Successors(l: Links, n: Name): seq<Name> {
    if n in l.sequential then [l.sequential[n]] else
    match EdgeFrom(l.edges, n)
    case None => []
    case Some(e) =>
      match e.target
      case Fixed(to) => NotEnd([to])
      case Routed(cases, fallback) => NotEnd(cases + [fallback])
  }

  /** The edge that counts is the first one from a node. */
  ghost predicate FirstFrom(edges: seq<Edge>, i: nat, n: Name) {
    i < |edges| && edges[i].from == n && forall j :: 0 <= j < i ==> edges[j].from != n
  }

  lemma {:induction false} EdgeFromFirst(edges: seq<Edge>, i: nat, n: Name)
    requires FirstFrom(edges, i, n)
    ensures EdgeFrom(edges, n) == Some(edges[i])
  {
    if i > 0 {
      assert edges[0].from != n && edges[1..][i - 1] == edges[i];
      assert forall j :: 0 <= j < i - 1 ==> edges[1..][j] == edges[j + 1];
      EdgeFromFirst(edges[1..], i - 1, n);
    }
  }

  lemma {:induction false} NoEdgeFrom(edges: seq<Edge>, n: Name)
    ensures EdgeFrom(edges, n) == None <==> forall e <- edges :: e.from != n
  {
    if edges != [] { NoEdgeFrom(edges[1..], n); }
  }

  /** What a node can lead to: the closing node of a sequential one, otherwise whatever its edge names, except
      the end. */
  lemma SuccessorsExactly(l: Links, n: Name, s: Name)
    ensures n in l.sequential ==> (s in Successors(l, n) <==> s == l.sequential[n])
    ensures n !in l.sequential && (forall e <- l.edges :: e.from != n) ==> Successors(l, n) == []
    ensures forall i: nat :: n !in l.sequential && FirstFrom(l.edges, i, n) ==>
              (s in Successors(l, n) <==> s != END && match l.edges[i].target
                 case Fixed(to) => s == to
                 case Routed(cases, fallback) => s in cases || s == fallback)
  {
    NoEdgeFrom(l.edges, n);
    forall i: nat | n !in l.sequential && FirstFrom(l.edges, i, n) ensures EdgeFrom(l.edges, n) == Some(l.edges[i]) {
      EdgeFromFirst(l.edges, i, n);
    }
  }

  // ---- reachability ----

  /** A walk along successors that never touches `stop`. */
  predicate Walk(l: Links, stop: Name, p: seq<Name>) {
    && p != [] && (forall i :: 0 <= i < |p| ==> p[i] != stop)
    && (forall i :: 0 <= i < |p| - 1 ==> p[i + 1] in Successors(l, p[i]))
  }

  ghost predicate WalkTo(l: Links, stop: Name, p: seq<Name>, start: Name, n: Name) {
    Walk(l, stop, p) && p[0] == start && p[|p| - 1] == n
  }

  ghost predicate Reachable(l: Links, start: Name, stop: Name, n: Name) {
    exists p :: WalkTo(l, stop, p, start, n)
  }

  lemma ReachStart(l: Links, start: Name, stop: Name)
    requires start != stop
    ensures Reachable(l, start, stop, start)
  {
    assert WalkTo(l, stop, [start], start, start);
  }

  lemma ReachOn(l: Links, start: Name, stop: Name, n: Name, s: Name)
    requires Reachable(l, start, stop, n) && s in Successors(l, n) && s != stop
    ensures Reachable(l, start, stop, s)
  {
    hide Successors;
    var p :| WalkTo(l, stop, p, start, n);
    assert WalkTo(l, stop, p + [s], start, s);
  }

  /** A set that has the start and all successors but the stop has every reachable node. */
  lemma {:induction false} ClosedHasAll(l: Links, start: Name, stop: Name, seen: set<Name>, p: seq<Name>)
    requires Walk(l, stop, p) && p[0] == start && start in seen && Closed(l, stop, seen)
    ensures p[|p| - 1] in seen
    decreases |p|
  {
    hide Successors;
    if |p| > 1 {
      var q := p[..|p| - 1];
      assert Walk(l, stop, q);
      ClosedHasAll(l, start, stop, seen, q);
      assert p[|q|] in Successors(l, p[|q| - 1]);
    }
  }

  predicate Closed(l: Links, stop: Name, seen: set<Name>) {
    forall x, s :: x in seen && s in Successors(l, x) && s != stop ==> s in seen
  }

  // ---- every name that can come up ----

  function Targets(edges: seq<Edge>): (r: set<Name>)
    ensures forall i :: 0 <= i < |edges| ==> forall n :: n in Leads(edges[i]) ==> n in r
  {
    if edges == [] then {} else
    var more := Targets(edges[1..]);
    assert forall i :: 1 <= i < |edges| ==> edges[i] == edges[1..][i - 1];
    (set n <- Leads(edges[0])) + more
  }

  function Leads(e: Edge): seq<Name> {
    match e.target
    case Fixed(to) => [to]
    case Routed(cases, fallback) => cases + [fallback]
  }

  function Universe(l: Links, start: Name): set<Name> {
    {start} + l.sequential.Values + Targets(l.edges)
  }

  lemma {:induction false} EdgeIsThere(edges: seq<Edge>, n: Name)
    ensures var e := EdgeFrom(edges, n); e.Some? ==> e.value in edges
  {
    if edges != [] { EdgeIsThere(edges[1..], n); }
  }

  lemma SuccessorsKnown(l: Links, start: Name, n: Name, s: Name)
    requires s in Successors(l, n)
    ensures s in Universe(l, start)
  {
    hide Targets;
    if n !in l.sequential {
      EdgeIsThere(l.edges, n);
      var e := EdgeFrom(l.edges, n).value;
      var i :| 0 <= i < |l.edges| && l.edges[i] == e;
      assert s in Leads(e);
    }
  }

  lemma Fewer(u: set<Name>, seen: set<Name>, n: Name)
    requires n in u && n !in seen
    ensures |u - (seen + {n})| < |u - seen|
  {
    assert u - (seen + {n}) == (u - seen) - {n};
  }

  predicate NoRepeats(names: seq<Name>) {
    forall i, j :: 0 <= i < j < |names| ==> names[i] != names[j]
  }

  /** Halfway: what was seen is reachable, what is to do is next to it, and nothing is forgotten. */
  ghost predicate Sound(l: Links, start: Name, stop: Name, seen: set<Name>, todo: seq<Name>) {
    && (forall n <- seen :: Reachable(l, start, stop, n))
    && (forall n <- todo :: n == start || exists x :: x in seen && n in Successors(l, x))
  }

  predicate Complete(l: Links, start: Name, stop: Name, seen: set<Name>, todo: seq<Name>) {
    && (start in seen || start == stop || start in todo)
    && (forall x, s :: x in seen && s in Successors(l, x) && s != stop ==> s in seen || s in todo)
  }

  lemma VisitSound(l: Links, start: Name, stop: Name, seen: set<Name>, todo: seq<Name>, n: Name)
    requires Sound(l, start, stop, seen, todo + [n]) && n != stop
    ensures Sound(l, start, stop, seen + {n}, todo + Successors(l, n))
  {
    hide Successors, Reachable;
    assert (todo + [n])[|todo|] == n && n in todo + [n];
    if n == start { ReachStart(l, start, stop); } else {
      var x :| x in seen && n in Successors(l, x);
      ReachOn(l, start, stop, x, n);
    }
    forall m | m in todo + Successors(l, n) ensures m == start || exists x :: x in seen + {n} && m in Successors(l, x) {
      if m in todo {
        assert m in todo + [n];
        if m != start {
          var x :| x in seen && m in Successors(l, x);
          assert x in seen + {n};
        }
      } else {
        assert n in seen + {n};
      }
    }
  }

  lemma VisitComplete(l: Links, start: Name, stop: Name, seen: set<Name>, todo: seq<Name>, n: Name)
    requires Complete(l, start, stop, seen, todo + [n])
    ensures Complete(l, start, stop, seen + {n}, todo + Successors(l, n))
  {
    hide Successors;
  }

  lemma SkipKeeps(l: Links, start: Name, stop: Name, seen: set<Name>, todo: seq<Name>, n: Name)
    requires Sound(l, start, stop, seen, todo + [n]) && Complete(l, start, stop, seen, todo + [n])
    requires n == stop || n in seen
    ensures Sound(l, start, stop, seen, todo) && Complete(l, start, stop, seen, todo)
  {
    hide Successors, Reachable;
    assert forall m <- todo :: m in todo + [n];
  }

  /** A worklist from `start`: exactly the nodes that can be reached without passing `stop`, each once. */
  method Chain(l: Links, start: Name, stop: Name) returns (out: seq<Name>)
    ensures NoRepeats(out)
    ensures forall n :: n in out <==> Reachable(l, start, stop, n)
  {
    hide Successors, Targets, Sound, Complete, Universe, Reachable;
    out := [];
    var seen: set<Name> := {};
    var todo := [start];
    ghost var u := Universe(l, start);
    StartState(l, start, stop);
    while todo != []
      invariant NoRepeats(out) && forall n :: n in out <==> n in seen
      invariant forall n <- todo :: n in u
      invariant Sound(l, start, stop, seen, todo) && Complete(l, start, stop, seen, todo)
      decreases |u - seen|, |todo|
    {
      var n := todo[|todo| - 1];
      assert n in todo && todo == todo[..|todo| - 1] + [n];
      todo := todo[..|todo| - 1];
      if n == stop || n in seen {
        SkipKeeps(l, start, stop, seen, todo, n);
        continue;
      }
      VisitSound(l, start, stop, seen, todo, n);
      VisitComplete(l, start, stop, seen, todo, n);
      Fewer(u, seen, n);
      out := out + [n];
      seen := seen + {n};
      forall s | s in Successors(l, n) ensures s in u { SuccessorsKnown(l, start, n, s); }
      todo := todo + Successors(l, n);
    }
    Finished(l, start, stop, seen);
  }

  lemma StartState(l: Links, start: Name, stop: Name)
    ensures Sound(l, start, stop, {}, [start]) && Complete(l, start, stop, {}, [start]) && start in Universe(l, start)
  {
  }

  lemma Finished(l: Links, start: Name, stop: Name, seen: set<Name>)
    requires Sound(l, start, stop, seen, []) && Complete(l, start, stop, seen, [])
    ensures forall n :: n in seen <==> Reachable(l, start, stop, n)
  {
    hide Successors;
    forall n | Reachable(l, start, stop, n) ensures n in seen {
      var p :| WalkTo(l, stop, p, start, n);
      ClosedHasAll(l, start, stop, seen, p);
    }
  }

  // ---- claims ----

  /** The nodes reachable from `start` before `stop` go to `target` when they end; no target for the top level. */
  datatype Claim = Claim(start: Name, stop: Name, target: Name)

  ghost predicate Claims(l: Links, c: Claim, n: Name) {
    Reachable(l, c.start, c.stop, n)
  }

  /** The workflow nodes; `done` is the closing node of a sequential one. */
  datatype Part =
    | Loop(name: Name, body: Name)
    | Parallel(name: Name, branches: seq<Name>)
    | Sequential(name: Name, steps: seq<Name>, done: Name)
    | Plain(name: Name)

  /** Each step hands over to the next, the last to the closing node. */
  function StepClaims(steps: seq<Name>, done: Name): seq<Claim> {
    seq(|steps|, i requires 0 <= i < |steps| =>
      var next := if i + 1 < |steps| then steps[i + 1] else done;
      Claim(steps[i], next, next))
  }

  function PartClaims(p: Part): seq<Claim> {
    match p
    case Loop(name, body) => [Claim(body, name, name)]
    case Parallel(name, branches) => seq(|branches|, i requires 0 <= i < |branches| => Claim(branches[i], name, name))
    case Sequential(_, steps, done) => StepClaims(steps, done)
    case Plain(_) => []
  }

  function AllClaims(parts: seq<Part>): seq<Claim> {
    if parts == [] then [] else PartClaims(parts[0]) + AllClaims(parts[1..])
  }

  /** The top level first, then every workflow node in order. */
  function ClaimsOf(entry: Name, parts: seq<Part>): seq<Claim> {
    [Claim(entry, "", "")] + AllClaims(parts)
  }

  /** Two claims never give one node different targets. */
  ghost predicate Consistent(l: Links, claims: seq<Claim>) {
    forall i, j, n :: 0 <= i < |claims| && 0 <= j < |claims| && Claims(l, claims[i], n) && Claims(l, claims[j], n) ==>
      claims[i].target == claims[j].target
  }

  /** `owner` has exactly the nodes of the claims, with their targets. */
  ghost predicate OwnedBy(l: Links, claims: seq<Claim>, owner: map<Name, Name>) {
    && (forall i, n :: 0 <= i < |claims| && Claims(l, claims[i], n) ==> n in owner && owner[n] == claims[i].target)
    && (forall n <- owner :: exists i :: 0 <= i < |claims| && Claims(l, claims[i], n))
  }

  /** A workflow node asks that `n` leave to `target`: a loop or fan-out for what its body or a branch reaches without
      it, a sequential one for what a step reaches without the next, or without the closing node after the last. */
  ghost predicate PartAsks(l: Links, p: Part, n: Name, target: Name) {
    match p
    case Loop(name, body) => target == name && Reachable(l, body, name, n)
    case Parallel(name, branches) => target == name && exists b <- branches :: Reachable(l, b, name, n)
    case Sequential(_, steps, done) =>
      exists i :: 0 <= i < |steps| && StepAsks(l, steps, done, i, n, target)
    case Plain(_) => false
  }

  ghost predicate StepAsks(l: Links, steps: seq<Name>, done: Name, i: nat, n: Name, target: Name)
    requires i < |steps|
  {
    target == (if i == |steps| - 1 then done else steps[i + 1]) && Reachable(l, steps[i], target, n)
  }

  /** Somebody asks that `n` leave to `target`; the top level asks that its nodes keep their exits. */
  ghost predicate Asked(l: Links, entry: Name, parts: seq<Part>, n: Name, target: Name) {
    (target == "" && Reachable(l, entry, "", n)) || exists p <- parts :: PartAsks(l, p, n, target)
  }

  ghost predicate ClaimedFor(l: Links, claims: seq<Claim>, n: Name, target: Name) {
    exists i :: 0 <= i < |claims| && claims[i].target == target && Claims(l, claims[i], n)
  }

  lemma PartClaimed(l: Links, p: Part, n: Name, target: Name)
    ensures PartAsks(l, p, n, target) <==> ClaimedFor(l, PartClaims(p), n, target)
  {
    hide Reachable;
    var claims := PartClaims(p);
    match p {
      case Loop(name, body) => assert claims[0] == Claim(body, name, name);
      case Parallel(name, branches) =>
        assert forall i :: 0 <= i < |branches| ==> claims[i] == Claim(branches[i], name, name);
      case Sequential(_, steps, done) =>
        forall i | 0 <= i < |steps|
          ensures StepAsks(l, steps, done, i, n, target) <==> claims[i].target == target && Claims(l, claims[i], n)
        {
        }
      case Plain(_) =>
    }
  }

  lemma ClaimedForBoth(l: Links, a: seq<Claim>, b: seq<Claim>, n: Name, target: Name)
    ensures ClaimedFor(l, a + b, n, target) <==> ClaimedFor(l, a, n, target) || ClaimedFor(l, b, n, target)
  {
    hide Claims;
    assert forall i :: 0 <= i < |a| ==> (a + b)[i] == a[i];
    assert forall i :: 0 <= i < |b| ==> (a + b)[|a| + i] == b[i];
    if i :| 0 <= i < |a + b| && (a + b)[i].target == target && Claims(l, (a + b)[i], n) {
      if i >= |a| { assert (a + b)[i] == b[i - |a|]; }
    }
  }

  lemma {:induction false} PartsClaimed(l: Links, parts: seq<Part>, n: Name, target: Name)
    ensures (exists p <- parts :: PartAsks(l, p, n, target)) <==> ClaimedFor(l, AllClaims(parts), n, target)
  {
    hide PartAsks, PartClaims;
    if parts != [] {
      PartsClaimed(l, parts[1..], n, target);
      PartClaimed(l, parts[0], n, target);
      ClaimedForBoth(l, PartClaims(parts[0]), AllClaims(parts[1..]), n, target);
      assert forall p <- parts :: p == parts[0] || p in parts[1..];
    }
  }

  /** The claims are what the parts and the top level ask for. */
  lemma AskedIsClaimed(l: Links, entry: Name, parts: seq<Part>, n: Name, target: Name)
    ensures Asked(l, entry, parts, n, target) <==> ClaimedFor(l, ClaimsOf(entry, parts), n, target)
  {
    hide PartAsks, AllClaims, Reachable;
    PartsClaimed(l, parts, n, target);
    ClaimedForBoth(l, [Claim(entry, "", "")], AllClaims(parts), n, target);
    assert [Claim(entry, "", "")][0] == Claim(entry, "", "");
  }

  /** Consistent claims ask for one target each, and owners are what is asked for. */
  lemma ClaimsAsked(l: Links, entry: Name, parts: seq<Part>)
    ensures Consistent(l, ClaimsOf(entry, parts)) <==> OneTargetEach(l, entry, parts)
  {
    hide Claims, ClaimsOf, Asked;
    var claims := ClaimsOf(entry, parts);
    forall n, t ensures Asked(l, entry, parts, n, t) <==> ClaimedFor(l, claims, n, t) {
      AskedIsClaimed(l, entry, parts, n, t);
    }
    if OneTargetEach(l, entry, parts) {
      forall i, j, n | 0 <= i < |claims| && 0 <= j < |claims| && Claims(l, claims[i], n) && Claims(l, claims[j], n)
        ensures claims[i].target == claims[j].target
      {
        assert ClaimedFor(l, claims, n, claims[i].target) && ClaimedFor(l, claims, n, claims[j].target);
      }
    }
  }

  /** No node is asked to leave to two targets. */
  ghost predicate OneTargetEach(l: Links, entry: Name, parts: seq<Part>) {
    forall n, s, t :: Asked(l, entry, parts, n, s) && Asked(l, entry, parts, n, t) ==> s == t
  }

  lemma OwnersAsked(l: Links, entry: Name, parts: seq<Part>, owner: map<Name, Name>, n: Name)
    requires OwnedBy(l, ClaimsOf(entry, parts), owner)
    ensures n in owner ==> Asked(l, entry, parts, n, owner[n])
    ensures forall t :: Asked(l, entry, parts, n, t) ==> n in owner && owner[n] == t
  {
    hide Claims, ClaimsOf, Asked;
    var claims := ClaimsOf(entry, parts);
    forall t ensures Asked(l, entry, parts, n, t) <==> ClaimedFor(l, claims, n, t) {
      AskedIsClaimed(l, entry, parts, n, t);
    }
    if n in owner {
      var i :| 0 <= i < |claims| && Claims(l, claims[i], n);
      assert ClaimedFor(l, claims, n, owner[n]);
    }
  }

  class Exits {
    var owner: map<Name, Name>
    var exitTo: map<Name, Name>
    ghost const before: map<Name, Name>

    /** A claimed node leaves to its owner's target; any other leaves as before. */
    ghost predicate Valid()
      reads this
    {
      forall n :: ExitOf(exitTo, n) == if n in owner && owner[n] != "" then Some(owner[n]) else ExitOf(before, n)
    }

    constructor (exitTo: map<Name, Name>)
      ensures Valid() && owner == map[] && this.exitTo == exitTo && before == exitTo
    {
      owner, this.exitTo, before := map[], exitTo, exitTo;
    }

    /** Claims the members for `target`, up to the first that belongs elsewhere. */
    method Claim(members: seq<Name>, target: Name) returns (ok: bool)
      requires Valid()
      modifies this
      ensures Valid()
      ensures ok <==> forall m <- members :: m in old(owner) ==> old(owner)[m] == target
      ensures ok ==> forall m <- members :: m in owner && owner[m] == target
      ensures forall n <- old(owner) :: n in owner && owner[n] == old(owner)[n]
      ensures forall n <- owner :: n in old(owner) || n in members
    {
      for i := 0 to |members|
        invariant Valid()
        invariant forall k :: 0 <= k < i ==> members[k] in owner && owner[members[k]] == target
        invariant forall n <- old(owner) :: n in owner && owner[n] == old(owner)[n]
        invariant forall n <- owner :: n in old(owner) || (n in members && owner[n] == target)
      {
        var m := members[i];
        if m in owner {
          if owner[m] != target { return false; }
        } else {
          owner := owner[m := target];
          if target != "" { exitTo := exitTo[m := target]; }
        }
      }
      ok := true;
    }

    /** Every claim in turn: succeeds exactly if no node is asked to leave to two targets; then a node leaves to the
        target it is asked to, and any other, with those of the top level, as before. */
    method AssignExits(l: Links, entry: Name, parts: seq<Part>) returns (ok: bool)
      requires Valid() && owner == map[]
      modifies this
      ensures Valid()
      ensures ok <==> OneTargetEach(l, entry, parts)
      ensures ok ==> forall n, t :: Asked(l, entry, parts, n, t) ==>
        ExitOf(exitTo, n) == if t == "" then ExitOf(old(exitTo), n) else Some(t)
      ensures ok ==> forall n :: (forall t :: !Asked(l, entry, parts, n, t)) ==>
        ExitOf(exitTo, n) == ExitOf(old(exitTo), n)
      ensures ok <==> Consistent(l, ClaimsOf(entry, parts))
      ensures ok ==> OwnedBy(l, ClaimsOf(entry, parts), owner)
    {
      hide Reachable, Asked;
      ClaimsAsked(l, entry, parts);
      assert forall n :: ExitOf(exitTo, n) == ExitOf(before, n);
      var claims := ClaimsOf(entry, parts);
      for i := 0 to |claims|
        invariant Valid() && OwnedBy(l, claims[..i], owner) && Consistent(l, claims[..i])
      {
        var c := claims[i];
        var members := Chain(l, c.start, c.stop);
        ghost var had := owner;
        ok := Claim(members, c.target);
        if !ok {
          Clash(l, claims, i, had, members);
          return;
        }
        NextClaim(l, claims, i, had, owner, members);
      }
      assert claims[..|claims|] == claims;
      forall n ensures n in owner ==> Asked(l, entry, parts, n, owner[n])
        ensures forall t :: Asked(l, entry, parts, n, t) ==> n in owner && owner[n] == t
      {
        OwnersAsked(l, entry, parts, owner, n);
      }
      ok := true;
    }
  }

  function ExitOf(exitTo: map<Name, Name>, n: Name): Option<Name> {
    if n in exitTo then Some(exitTo[n]) else None
  }

  lemma Clash(l: Links, claims: seq<Claim>, i: nat, owner: map<Name, Name>, members: seq<Name>)
    requires i < |claims| && OwnedBy(l, claims[..i], owner)
    requires forall n :: n in members <==> Reachable(l, claims[i].start, claims[i].stop, n)
    requires exists m :: m in members && m in owner && owner[m] != claims[i].target
    ensures !Consistent(l, claims)
  {
    hide Reachable;
    var m :| m in members && m in owner && owner[m] != claims[i].target;
    var j :| 0 <= j < |claims[..i]| && Claims(l, claims[..i][j], m);
    assert Claims(l, claims[j], m) && Claims(l, claims[i], m);
  }

  /** Nodes that have one owner each are claimed for one target each. */
  lemma OwnedConsistent(l: Links, claims: seq<Claim>, owner: map<Name, Name>)
    requires OwnedBy(l, claims, owner)
    ensures Consistent(l, claims)
  {
    hide Claims;
    forall i, j, n | 0 <= i < |claims| && 0 <= j < |claims| && Claims(l, claims[i], n) && Claims(l, claims[j], n)
      ensures claims[i].target == claims[j].target
    {
      assert owner[n] == claims[i].target;
    }
  }

  lemma NextClaim(l: Links, claims: seq<Claim>, i: nat, had: map<Name, Name>, owner: map<Name, Name>,
                  members: seq<Name>)
    requires i < |claims| && OwnedBy(l, claims[..i], had)
    requires forall n :: n in members <==> Reachable(l, claims[i].start, claims[i].stop, n)
    requires forall m <- members :: m in owner && owner[m] == claims[i].target
    requires forall n <- had :: n in owner && owner[n] == had[n]
    requires forall n <- owner :: n in had || n in members
    ensures OwnedBy(l, claims[..i + 1], owner) && Consistent(l, claims[..i + 1])
  {
    assert forall n :: n in members <==> Claims(l, claims[i], n);
    hide Claims, Consistent;
    var before, after := claims[..i], claims[..i + 1];
    assert forall k :: 0 <= k < i ==> after[k] == before[k];
    forall k, n | 0 <= k < |after| && Claims(l, after[k], n) ensures n in owner && owner[n] == after[k].target {
      if k < i { assert Claims(l, before[k], n); }
    }
    forall n | n in owner ensures exists k :: 0 <= k < |after| && Claims(l, after[k], n) {
      if n in had {
        var k :| 0 <= k < |before| && Claims(l, before[k], n);
        assert Claims(l, after[k], n);
      } else {
        assert Claims(l, after[i], n);
      }
    }
    OwnedConsistent(l, after, owner);
  }
}
