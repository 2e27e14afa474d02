/** What the join of a fan-out gives its parent. */
module Joins {
  import opened Graphs
  import opened Executor

  /** Every branch reached the join, and no two wrote one key or used one conversation. */
  predicate Clean(es: seq<End>) {
    && (forall i :: 0 <= i < |es| ==> !es[i].Failed?() && (es[i].Paused?() ==> es[i].halt.value.pauses == []))
    && (forall i, j :: 0 <= i < j < |es| ==> es[i].writes !! es[j].writes)
    && (forall i, j :: 0 <= i < j < |es| ==> es[i].data.histories.Keys !! es[j].data.histories.Keys)
  }

  predicate Owns(e: End, k: string) {
    k in e.writes && k in e.data.values
  }

  ghost predicate Unowned(es: seq<End>, k: string) {
    forall i :: 0 <= i < |es| ==> !Owns(es[i], k)
  }

  /** A key has the value of the branch that wrote it, or else that of the parent. */
  ghost predicate ValueJoined(parent: Data, es: seq<End>, data: Data, k: string) {
    && (forall i :: 0 <= i < |es| && Owns(es[i], k) ==> k in data.values && data.values[k] == es[i].data.values[k])
    && (Unowned(es, k) ==>
          && (k in data.values <==> k in parent.values)
          && (k in parent.values ==> data.values[k] == parent.values[k]))
  }

  /** No branch used the conversation. */
  ghost predicate Unused(es: seq<End>, n: Name) {
    forall i :: 0 <= i < |es| ==> n !in es[i].data.histories
  }

  /** A conversation is that of the branch that used it, or else that of the parent. */
  ghost predicate HistoryJoined(parent: Data, es: seq<End>, data: Data, n: Name) {
    && (forall i :: 0 <= i < |es| && n in es[i].data.histories ==>
          n in data.histories && data.histories[n] == es[i].data.histories[n])
    && (Unused(es, n) ==>
          (n in data.histories <==> n in parent.histories) &&
            (n in parent.histories ==> data.histories[n] == parent.histories[n]))
  }

  lemma {:induction false} NoPausesLeft(entries: seq<Name>, es: seq<End>)
    requires |entries| == |es|
    ensures Pauses(entries, es) == [] <==> forall i :: 0 <= i < |es| ==> es[i].Paused?() ==>
      es[i].halt.value.pauses == []
    decreases |es|
  {
    if es != [] {
      NoPausesLeft(entries[1..], es[1..]);
      assert forall i :: 1 <= i < |es| ==> es[i] == es[1..][i - 1];
      assert es[0].Paused?() ==> |Named(entries[0], es[0].halt.value.pauses)| == |es[0].halt.value.pauses|;
    }
  }

  /** How many pauses the first `n` branches report. */
  function PausesBefore(es: seq<End>, n: nat): nat
    requires n <= |es|
  {
    if n == 0 then 0 else
    PausesBefore(es, n - 1) + if es[n - 1].Paused?() then |es[n - 1].halt.value.pauses| else 0
  }

  lemma {:induction false} PausesBeforeTail(es: seq<End>, n: nat)
    requires 0 < n <= |es|
    ensures PausesBefore(es, n) == PausesBefore(es, 1) + PausesBefore(es[1..], n - 1)
  {
    if n > 1 { PausesBeforeTail(es, n - 1); }
  }

  lemma {:induction false} PausesCounted(entries: seq<Name>, es: seq<End>)
    requires |entries| == |es|
    ensures |Pauses(entries, es)| == PausesBefore(es, |es|)
    decreases |es|
  {
    if es != [] {
      PausesCounted(entries[1..], es[1..]);
      PausesBeforeTail(es, |es|);
      assert PausesBefore(es, 1) == if es[0].Paused?() then |es[0].halt.value.pauses| else 0;
    }
  }

  /** The join reports the pauses of all branches, branch after branch and each in its own order, unchanged but for the
      name of the branch. */
  lemma {:induction false} PausesExactly(entries: seq<Name>, es: seq<End>, i: nat, k: nat)
    requires |entries| == |es| && i < |es| && es[i].Paused?() && k < |es[i].halt.value.pauses|
    ensures |Pauses(entries, es)| == PausesBefore(es, |es|)
    ensures var at, p := PausesBefore(es, i) + k, es[i].halt.value.pauses[k];
            at < PausesBefore(es, |es|) && Pauses(entries, es)[at] == Interrupt(entries[i], p.node, p.reason, p.calls)
    decreases |es|
  {
    hide Pauses, PausesBefore, Named;
    PausesCounted(entries, es);
    var first := FirstPauses(entries, es);
    PausesBeforeTail(es, |es|);
    PausesCounted(entries[1..], es[1..]);
    if i > 0 {
      PausesExactly(entries[1..], es[1..], i - 1, k);
      PausesBeforeTail(es, i);
    }
  }

  /** The pauses of the first branch come first. */
  lemma FirstPauses(entries: seq<Name>, es: seq<End>) returns (first: seq<Interrupt>)
    requires |entries| == |es| > 0
    ensures Pauses(entries, es) == first + Pauses(entries[1..], es[1..]) && |first| == PausesBefore(es, 1)
    ensures PausesBefore(es, 0) == 0
    ensures es[0].Paused?() ==>
      && |first| == |es[0].halt.value.pauses|
      && forall k :: 0 <= k < |first| ==>
           var p := es[0].halt.value.pauses[k]; first[k] == Interrupt(entries[0], p.node, p.reason, p.calls)
  {
    first := if es[0].Paused?() then Named(entries[0], es[0].halt.value.pauses) else [];
  }

  lemma {:induction false} OwnedByOne(es: seq<End>, k: string)
    requires forall i, j :: 0 <= i < j < |es| ==> es[i].writes !! es[j].writes
    ensures k in OwnedAll(es) <==> !Unowned(es, k)
    ensures forall i :: 0 <= i < |es| && Owns(es[i], k) ==> k in OwnedAll(es) && OwnedAll(es)[k] == es[i].data.values[k]
    decreases |es|
  {
    if es != [] {
      var n := |es| - 1;
      var front := es[..n];
      OwnedByOne(front, k);
      assert forall i :: 0 <= i < n ==> front[i] == es[i];
      assert Unowned(es, k) <==> Unowned(front, k) && !Owns(es[n], k);
      forall i | 0 <= i < n && Owns(es[i], k) ensures !Owns(es[n], k) {
        assert es[i].writes !! es[n].writes;
      }
    }
  }

  lemma {:induction false} UsedByOne(es: seq<End>, n: Name)
    requires forall i, j :: 0 <= i < j < |es| ==> es[i].data.histories.Keys !! es[j].data.histories.Keys
    ensures n in HistoriesAll(es) <==> !Unused(es, n)
    ensures forall i :: 0 <= i < |es| && n in es[i].data.histories ==>
              n in HistoriesAll(es) && HistoriesAll(es)[n] == es[i].data.histories[n]
    decreases |es|
  {
    if es != [] {
      var last := |es| - 1;
      var front := es[..last];
      UsedByOne(front, n);
      assert forall i :: 0 <= i < last ==> front[i] == es[i];
      assert Unused(es, n) <==> Unused(front, n) && n !in es[last].data.histories;
      forall i | 0 <= i < last && n in es[i].data.histories ensures n !in es[last].data.histories {
        assert es[i].data.histories.Keys !! es[last].data.histories.Keys;
      }
    }
  }

  lemma Apart(a: set<string>, b: set<string>)
    requires a * b == {}
    ensures a !! b
  {
    assert forall x <- a :: x in b ==> x in a * b;
  }

  lemma ClashFree(es: seq<End>)
    ensures FirstKeyClash(es, 0) == |es| <==> forall i, j :: 0 <= i < j < |es| ==> es[i].writes !! es[j].writes
    ensures FirstHistoryClash(es, 0) == |es| <==>
              forall i, j :: 0 <= i < j < |es| ==> es[i].data.histories.Keys !! es[j].data.histories.Keys
  {
    if FirstKeyClash(es, 0) == |es| {
      forall i, j | 0 <= i < j < |es| ensures es[i].writes !! es[j].writes {
        assert !KeysClash(es, j);
        Apart(es[i].writes, es[j].writes);
      }
    }
    if FirstHistoryClash(es, 0) == |es| {
      forall i, j | 0 <= i < j < |es| ensures es[i].data.histories.Keys !! es[j].data.histories.Keys {
        assert !HistoriesClash(es, j);
        Apart(es[i].data.histories.Keys, es[j].data.histories.Keys);
      }
    }
  }

  /** The join succeeds exactly for clean branches, whatever their order; then every key and conversation comes from the
      one branch that has it or from the parent, and the keys passed on are those some branch wrote and still holds. */
  lemma JoinExactly(parent: Data, entries: seq<Name>, es: seq<End>)
    requires |entries| == |es|
    ensures CloseFan(parent, entries, es).Joined? <==> Clean(es)
    ensures CloseFan(parent, entries, es).Joined? ==>
              var r := CloseFan(parent, entries, es);
              && (forall k :: ValueJoined(parent, es, r.data, k)) && (forall n :: HistoryJoined(parent, es, r.data, n))
              && (forall k :: k in r.written <==> !Unowned(es, k))
  {
    NoPausesLeft(entries, es);
    ClashFree(es);
    var r := CloseFan(parent, entries, es);
    if r.Joined? {
      forall k ensures ValueJoined(parent, es, r.data, k) && (k in r.written <==> !Unowned(es, k)) {
        OwnedByOne(es, k);
      }
      forall n ensures HistoryJoined(parent, es, r.data, n) { UsedByOne(es, n); }
    }
  }

  predicate NoneFailed(es: seq<End>) {
    forall i :: 0 <= i < |es| ==> !es[i].Failed?()
  }

  ghost predicate FirstClash(sets: seq<set<string>>, j: nat) {
    && j < |sets|
    && (exists i :: 0 <= i < j && sets[i] * sets[j] != {})
    && (forall i, k :: 0 <= i < k < j ==> sets[i] !! sets[k])
  }

  predicate WritesApart(es: seq<End>) {
    forall i, j :: 0 <= i < j < |es| ==> es[i].writes !! es[j].writes
  }

  function WritesOf(es: seq<End>): seq<set<string>> {
    seq(|es|, i requires 0 <= i < |es| => es[i].writes)
  }

  function UsedBy(es: seq<End>): seq<set<string>> {
    seq(|es|, i requires 0 <= i < |es| => es[i].data.histories.Keys)
  }

  lemma FirstFailedAt(es: seq<End>, i: nat)
    requires i < |es| && es[i].Failed?() && NoneFailed(es[..i])
    ensures FirstFailed(es) == i
  {
    assert forall j :: 0 <= j < i ==> es[..i][j] == es[j];
  }

  lemma KeyClashAt(es: seq<End>, i: nat)
    requires FirstClash(WritesOf(es), i)
    ensures FirstKeyClash(es, 0) == i
  {
    var sets, first := WritesOf(es), FirstKeyClash(es, 0);
    assert KeysClash(es, i) by {
      var j :| 0 <= j < i && sets[j] * sets[i] != {};
      assert es[j].writes * es[i].writes != {};
    }
    assert first >= i by {
      assert forall j :: 0 <= j < i ==> sets[j] == es[j].writes;
    }
  }

  lemma HistoryClashAt(es: seq<End>, i: nat)
    requires FirstClash(UsedBy(es), i)
    ensures FirstHistoryClash(es, 0) == i
  {
    var sets, first := UsedBy(es), FirstHistoryClash(es, 0);
    assert HistoriesClash(es, i) by {
      var j :| 0 <= j < i && sets[j] * sets[i] != {};
      assert es[j].data.histories.Keys * es[i].data.histories.Keys != {};
    }
    assert first >= i by {
      assert forall j :: 0 <= j < i ==> sets[j] == es[j].data.histories.Keys;
    }
  }

  /** Why a join is refused: the first branch that failed, else the pauses, else the first branch that wrote a key of an
      earlier one, else the first that used a conversation of an earlier one; each named by its index. */
  lemma JoinRefused(parent: Data, entries: seq<Name>, es: seq<End>, i: nat)
    requires |entries| == |es|
    ensures var r, quiet := CloseFan(parent, entries, es), NoneFailed(es) && PausesBefore(es, |es|) == 0;
            && (i < |es| && NoneFailed(es[..i]) && es[i].Failed?() ==>
                  r == NotJoined(Failed(BranchFailed(i, es[i].halt.value.error))))
            && (NoneFailed(es) && PausesBefore(es, |es|) > 0 ==> r == NotJoined(Paused(Pauses(entries, es))))
            && (quiet && FirstClash(WritesOf(es), i) ==> r == NotJoined(Failed(KeyConflict(i))))
            && (quiet && FirstClash(UsedBy(es), i) && WritesApart(es) ==> r == NotJoined(Failed(HistoryConflict(i))))
  {
    hide FirstKeyClash, FirstHistoryClash, Pauses, PausesBefore;
    PausesCounted(entries, es);
    if i < |es| && NoneFailed(es[..i]) && es[i].Failed?() { FirstFailedAt(es, i); }
    if FirstClash(WritesOf(es), i) { KeyClashAt(es, i); }
    if FirstClash(UsedBy(es), i) && WritesApart(es) {
      HistoryClashAt(es, i);
      ClashFree(es);
    }
  }
}
