/** The host's table of response segments and how a response finds room in it. */
module ResponseSegments {
  import opened Options

  datatype Entry = Entry(name: nat, size: nat, busy: bool, busyId: nat)

  predicate Fits(e: Entry, bytes: nat) {
    !e.busy && e.size >= bytes
  }

  predicate NamesDiffer(t: seq<Entry>) {
    forall i, j :: 0 <= i < j < |t| ==> t[i].name != t[j].name
  }

  const GRAIN := 1048576

  function RoundedUp(bytes: nat): (r: nat)
    ensures r >= bytes && r < bytes + GRAIN && r % GRAIN == 0
  {
    var q := (bytes + GRAIN - 1) / GRAIN;
    q * GRAIN
  }

  class Table {
    var entries: seq<Entry>
    var nextName: nat

    ghost predicate Valid()
      reads this
    {
      NamesDiffer(entries) && forall i :: 0 <= i < |entries| ==> entries[i].name < nextName
    }

    constructor ()
      ensures Valid() && entries == []
    {
      entries, nextName := [], 0;
    }

    /** The smallest free segment that is large enough, the first of equals. */
    method BestFit(bytes: nat) returns (best: Option<nat>)
      ensures best.None? ==> NoneFits(entries, bytes)
      ensures best.Some? ==> BestAt(entries, best.value, bytes)
    {
      best := None;
      for i := 0 to |entries|
        invariant best.None? ==> NoneFits(entries[..i], bytes)
        invariant best.Some? ==> BestAt(entries[..i], best.value, bytes)
      {
        if Fits(entries[i], bytes) && (best.None? || entries[i].size < entries[best.value].size) {
          best := Some(i);
        }
      }
      assert entries[..|entries|] == entries;
    }

    /** Takes the first free segment, if there is one, out of the table. */
    method DropFree() returns (name: Option<nat>)
      requires Valid()
      modifies `entries
      ensures Valid()
      ensures name.None? ==> entries == old(entries) && forall i :: 0 <= i < |entries| ==> entries[i].busy
      ensures name.Some? ==> exists k :: 0 <= k < |old(entries)| && DroppedAt(old(entries), k, entries, name.value)
    {
      name := None;
      for i := 0 to |entries|
        invariant entries == old(entries) && forall j :: 0 <= j < i ==> entries[j].busy
      {
        if !entries[i].busy {
          name := Some(entries[i].name);
          entries := entries[..i] + entries[i + 1..];
          assert DroppedAt(old(entries), i, entries, name.value);
          return;
        }
      }
    }

    /** Room for a response of `bytes` bytes of large payloads to call `id`: the best free segment is used, or else a
        free one, which is too small, makes way for a new one. `created` says whether the system could create it. */
    method Place(id: nat, bytes: nat, created: bool) returns (name: Option<nat>, retired: Option<nat>)
      requires Valid()
      modifies this
      ensures Valid()
      ensures if NoneFits(old(entries), bytes)
              then GrownFrom(old(entries), entries, old(nextName), id, bytes, created, name, retired)
              else UsedFrom(old(entries), entries, id, bytes, name) && retired == None
    {
      retired := None;
      var best := BestFit(bytes);
      if best.Some? {
        var k := best.value;
        var e := entries[k].(busy := true, busyId := id);
        entries := entries[k := e];
        name := Some(e.name);
        assert UsedAt(old(entries), k, entries, id, bytes, name);
      } else {
        retired := DropFree();
        var e := Entry(nextName, RoundedUp(bytes), true, id);
        name := if created then Some(nextName) else None;
        ghost var kept := entries;
        if created { entries, nextName := entries + [e], nextName + 1; }
        assert entries == kept + if created then [e] else [];
        assert Grows(old(entries), kept, retired);
      }
    }

    /** The core is done with the response to `id`. */
    method Release(id: nat)
      requires Valid()
      modifies `entries
      ensures Valid() && |entries| == |old(entries)|
      ensures forall i :: 0 <= i < |entries| ==>
        entries[i] == if old(entries)[i].busyId == id then old(entries)[i].(busy := false) else old(entries)[i]
    {
      for i := 0 to |entries|
        invariant |entries| == |old(entries)|
        invariant forall j :: 0 <= j < |entries| ==>
          entries[j] == if j < i && old(entries)[j].busyId == id then old(entries)[j].(busy := false)
            else old(entries)[j]
      {
        if entries[i].busy && entries[i].busyId == id {
          entries := entries[i := entries[i].(busy := false)];
        }
      }
    }
  }

  ghost predicate DroppedAt(before: seq<Entry>, k: nat, after: seq<Entry>, name: nat) {
    && k < |before| && after == before[..k] + before[k + 1..] && !before[k].busy && before[k].name == name
    && forall j :: 0 <= j < k ==> before[j].busy
  }

  predicate NoneFits(t: seq<Entry>, bytes: nat) {
    forall i :: 0 <= i < |t| ==> !Fits(t[i], bytes)
  }

  predicate BestAt(t: seq<Entry>, k: nat, bytes: nat) {
    && k < |t| && Fits(t[k], bytes)
    && forall i :: 0 <= i < |t| && Fits(t[i], bytes) ==> t[k].size < t[i].size || (t[k].size == t[i].size && k <= i)
  }

  predicate UsedAt(before: seq<Entry>, k: nat, after: seq<Entry>, id: nat, bytes: nat, name: Option<nat>) {
    && BestAt(before, k, bytes)
    && after == before[k := before[k].(busy := true, busyId := id)] && name == Some(before[k].name)
  }

  ghost predicate UsedFrom(before: seq<Entry>, after: seq<Entry>, id: nat, bytes: nat, name: Option<nat>) {
    exists k :: UsedAt(before, k, after, id, bytes, name)
  }

  /** The first free segment is out, or there is none. */
  ghost predicate Grows(before: seq<Entry>, kept: seq<Entry>, retired: Option<nat>) {
    if retired.Some? then exists k :: DroppedAt(before, k, kept, retired.value)
    else kept == before && forall i :: 0 <= i < |before| ==> before[i].busy
  }

  ghost predicate GrownFrom(before: seq<Entry>, after: seq<Entry>, next: nat, id: nat, bytes: nat, created: bool,
                            name: Option<nat>, retired: Option<nat>) {
    exists kept ::
      && Grows(before, kept, retired)
      && after == kept + (if created then [Entry(next, RoundedUp(bytes), true, id)] else [])
      && name == if created then Some(next) else None
  }

  /** Whatever `Place` does, busy segments stay as they are, what it names is now this call's and large enough, and what
      it retires was free and is gone. */
  lemma PlaceIsSafe(before: seq<Entry>, after: seq<Entry>, next: nat, id: nat, bytes: nat, created: bool,
                    name: Option<nat>, retired: Option<nat>)
    requires NamesDiffer(before) && forall i :: 0 <= i < |before| ==> before[i].name < next
    requires if NoneFits(before, bytes) then GrownFrom(before, after, next, id, bytes, created, name, retired)
             else UsedFrom(before, after, id, bytes, name) && retired == None
    ensures forall e <- before :: e.busy ==> e in after
    ensures name.Some? ==> exists e :: e in after && e.name == name.value && e.busy && e.busyId == id && e.size >= bytes
    ensures retired.Some? ==> (forall e <- after :: e.name != retired.value) && exists e ::
      && e in before && !e.busy
      && e.name == retired.value
  {
    if NoneFits(before, bytes) {
      var kept :| Grows(before, kept, retired)
        && after == kept + (if created then [Entry(next, RoundedUp(bytes), true, id)] else [])
        && name == if created then Some(next) else None;
      if retired.Some? {
        var k: nat :| DroppedAt(before, k, kept, retired.value);
        DropIsSafe(before, k, kept, retired.value);
        assert before[k] in before;
      }
      if created { assert after[|kept|].name == next; }
    } else {
      var k: nat :| UsedAt(before, k, after, id, bytes, name);
      assert after[k].busy;
      forall e | e in before && e.busy ensures e in after {
        var i :| 0 <= i < |before| && before[i] == e;
        assert after[i] == e;
      }
    }
  }

  lemma DropIsSafe(before: seq<Entry>, k: nat, kept: seq<Entry>, name: nat)
    requires NamesDiffer(before) && DroppedAt(before, k, kept, name)
    ensures forall e <- before :: e.busy ==> e in kept
    ensures forall e <- kept :: e.name != name && e in before
  {
    forall e | e in before && e.busy ensures e in kept {
      var i :| 0 <= i < |before| && before[i] == e;
      assert if i < k then kept[i] == e else kept[i - 1] == e;
    }
    forall e | e in kept ensures e.name != name && e in before {
      var i :| 0 <= i < |kept| && kept[i] == e;
      assert if i < k then before[i] == e else before[i + 1] == e;
    }
  }
}
