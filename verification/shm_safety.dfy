/** No interleaving of core calls and host jobs lets a segment be rewritten or retired under a reader. */
module ShmSafety {
  import opened Options
  import opened ShmOwnership

  // ---- steps that leave the slots alone ----

  /** Only the stage of `id`, the host's tables, the mappings and the releases may differ. */
  predicate SameSlots(s: System, t: System, id: Id) {
    && t.slots == s.slots && t.nextId == s.nextId && s.nextName <= t.nextName && t.requestData == s.requestData
    && t.calls.Keys == s.calls.Keys
    && (forall o <- s.calls :: t.calls[o].slot == s.calls[o].slot && (o != id ==> t.calls[o] == s.calls[o]))
    && (forall n <- t.segments :: n in s.segments || s.nextName <= n < t.nextName)
  }

  lemma SlotsSame(s: System, t: System, id: Id)
    requires SlotsInv(s) && SameSlots(s, t, id)
    ensures SlotsInv(t)
  {
    hide IsRequest;
    forall o <- t.calls
      ensures SlotOk(t, o) && SlotOf(t, o).call == Some(o) && o < t.nextId
    {
      assert o in s.calls;
    }
  }

  lemma NamesSame(s: System, t: System, id: Id)
    requires NamesInv(s) && SameSlots(s, t, id)
    ensures NamesInv(t)
  {
    assert forall n :: IsRequest(s, n) == IsRequest(t, n);
  }

  lemma RequestSame(s: System, t: System, id: Id, o: Id)
    requires SameSlots(s, t, id) && o in s.calls && RequestInv(s, o)
    requires t.calls[o].stage == s.calls[o].stage
    requires var n := ReadBy(s.calls[o].stage); n.Some? && n.value in s.requestMaps ==> n.value in t.requestMaps
    ensures RequestInv(t, o)
  {
    assert forall n :: IsRequest(s, n) == IsRequest(t, n);
  }

  lemma ResponseSame(s: System, t: System, id: Id, o: Id)
    requires SameSlots(s, t, id) && o in s.calls && ResponseInv(s, o) && NamesInv(s)
    requires t.calls[o].stage == s.calls[o].stage
    requires var n := OwnedBy(s.calls[o].stage); n.Some? && n.value in s.segments ==>
      && n.value in t.segments
      && t.segments[n.value] == s.segments[n.value]
    requires var stage := s.calls[o].stage;
             stage.Open? && stage.segment.Some? && stage.segment.value in s.responseMaps ==>
               stage.segment.value in t.responseMaps
    requires o in t.releases ==> o in s.releases
    ensures ResponseInv(t, o)
  {
  }

  /** A name to be retired is no segment that a run may read. */
  lemma NotRead(s: System, o: Id, r: Name)
    requires Inv(s) && o in s.calls && !IsRequest(s, r)
    ensures ReadBy(s.calls[o].stage) != Some(r)
  {
    assert RequestInv(s, o);
  }

  lemma StartKeeps(s: System, id: Id)
    requires Inv(s) && Enabled(s, Start(id))
    ensures Inv(Next(s, Start(id)))
  {
    hide NamesInv, SlotsInv, ResponseInv;
    var t := Next(s, Start(id));
    SlotsSame(s, t, id); NamesSame(s, t, id);
    assert RequestInv(s, id) && ResponseInv(s, id);
    forall o <- t.calls ensures RequestInv(t, o) && ResponseInv(t, o) {
      assert RequestInv(s, o) && ResponseInv(s, o);
      if o != id {
        if s.calls[id].stage.retire.Some? { NotRead(s, o, s.calls[id].stage.retire.value); }
        RequestSame(s, t, id, o);
        ResponseSame(s, t, id, o);
      } else {
        PlainResponse(s, t, id);
      }
    }
    OwnedSame(s, t, id);
  }

  /** A call that owns no segment, before and after. */
  lemma PlainResponse(s: System, t: System, id: Id)
    requires id in s.calls && id in t.calls && ResponseInv(s, id) && t.releases == s.releases
    requires !s.calls[id].stage.Open?
    requires OwnedBy(t.calls[id].stage) == None && RetiredBy(t.calls[id].stage) == None
    ensures ResponseInv(t, id)
  {
  }

  lemma OwnedSame(s: System, t: System, id: Id)
    requires OwnedInv(s) && SameSlots(s, t, id) && id in s.calls && t.segments == s.segments && s.releases <= t.releases
    requires OwnedBy(s.calls[id].stage) == OwnedBy(t.calls[id].stage) || id in t.releases
    ensures OwnedInv(t)
  {
  }

  lemma StartFailsKeeps(s: System, id: Id, early: bool)
    requires Inv(s) && Enabled(s, StartFails(id, early))
    ensures Inv(Next(s, StartFails(id, early)))
  {
    hide NamesInv, SlotsInv, ResponseInv;
    var t := Next(s, StartFails(id, early));
    SlotsSame(s, t, id); NamesSame(s, t, id);
    assert RequestInv(s, id) && ResponseInv(s, id);
    forall o <- t.calls ensures RequestInv(t, o) && ResponseInv(t, o) {
      assert RequestInv(s, o) && ResponseInv(s, o);
      if o != id {
        if s.calls[id].stage.retire.Some? { NotRead(s, o, s.calls[id].stage.retire.value); }
        RequestSame(s, t, id, o);
        ResponseSame(s, t, id, o);
      } else {
        PlainResponse(s, t, id);
      }
    }
    OwnedSame(s, t, id);
  }

  lemma RunFailsKeeps(s: System, id: Id)
    requires Inv(s) && Enabled(s, RunFails(id))
    ensures Inv(Next(s, RunFails(id)))
  {
    hide NamesInv, SlotsInv, ResponseInv;
    var t := Next(s, RunFails(id));
    SlotsSame(s, t, id); NamesSame(s, t, id);
    assert RequestInv(s, id) && ResponseInv(s, id);
    forall o <- t.calls ensures RequestInv(t, o) && ResponseInv(t, o) {
      assert RequestInv(s, o) && ResponseInv(s, o);
      if o != id {
        RequestSame(s, t, id, o);
        ResponseSame(s, t, id, o);
      } else {
        PlainResponse(s, t, id);
      }
    }
    OwnedSame(s, t, id);
  }

  /** A free segment is nobody's. */
  lemma FreeIsUnowned(s: System, n: Name, o: Id)
    requires Inv(s) && Free(s, n) && o in s.calls
    ensures OwnedBy(s.calls[o].stage) != Some(n)
  {
    assert ResponseInv(s, o);
  }

  lemma ChooseSegments(s: System, id: Id, pick: Pick, o: Id)
    requires Inv(s) && Enabled(s, Choose(id, pick)) && o in s.calls
    ensures var t := Next(s, Choose(id, pick));
            var n := OwnedBy(s.calls[o].stage);
            n.Some? && n.value in s.segments ==> n.value in t.segments && t.segments[n.value] == s.segments[n.value]
    ensures var t := Next(s, Choose(id, pick)); SameSlots(s, t, id)
  {
    hide SlotsInv, RequestInv, OwnedInv;
    assert ResponseInv(s, o);
    match pick
    case NoSegment =>
    case Use(n) => FreeIsUnowned(s, n, o);
    case Fresh(replaced) => if replaced.Some? { FreeIsUnowned(s, replaced.value, o); }
    case FreshFails(replaced) => if replaced.Some? { FreeIsUnowned(s, replaced.value, o); }
  }

  lemma ChooseOwn(s: System, id: Id, pick: Pick)
    requires Inv(s) && Enabled(s, Choose(id, pick))
    ensures var t := Next(s, Choose(id, pick)); ResponseInv(t, id) && RequestInv(t, id)
  {
    hide SlotsInv, OwnedInv;
    var t := Next(s, Choose(id, pick));
    assert ResponseInv(s, id) && RequestInv(s, id);
    ChooseSegments(s, id, pick, id);
    assert forall n :: IsRequest(s, n) == IsRequest(t, n);
  }

  lemma ChooseOwned(s: System, id: Id, pick: Pick)
    requires Inv(s) && Enabled(s, Choose(id, pick))
    ensures OwnedInv(Next(s, Choose(id, pick)))
  {
    hide SlotsInv, RequestInv;
    var t := Next(s, Choose(id, pick));
    forall n | n in t.segments && t.segments[n].busy
      ensures t.segments[n].busyId in t.releases
           || (t.segments[n].busyId in t.calls && OwnedBy(t.calls[t.segments[n].busyId].stage) == Some(n))
    {
      if n in s.segments && t.segments[n] == s.segments[n] {
        assert s.segments[n].busyId != id || s.segments[n].busyId in s.releases;
      }
    }
  }

  lemma ChooseKeeps(s: System, id: Id, pick: Pick)
    requires Inv(s) && Enabled(s, Choose(id, pick))
    ensures Inv(Next(s, Choose(id, pick)))
  {
    hide NamesInv, SlotsInv, ResponseInv, RequestInv, OwnedInv, Chosen;
    var t := Next(s, Choose(id, pick));
    ChooseSegments(s, id, pick, id);
    SlotsSame(s, t, id); NamesSame(s, t, id);
    ChooseRest(s, id, pick);
    forall o <- t.calls ensures RequestInv(t, o) && ResponseInv(t, o) {
      assert RequestInv(s, o) && ResponseInv(s, o);
      if o != id {
        ChooseSegments(s, id, pick, o);
        RequestSame(s, t, id, o);
        ResponseSame(s, t, id, o);
      } else {
        ChooseOwn(s, id, pick);
      }
    }
    ChooseOwned(s, id, pick);
  }

  lemma ChooseRest(s: System, id: Id, pick: Pick)
    requires Enabled(s, Choose(id, pick))
    ensures var t := Next(s, Choose(id, pick));
            t.releases == s.releases && t.requestMaps == s.requestMaps && t.responseMaps == s.responseMaps
  {
  }

  lemma RespondKeeps(s: System, id: Id)
    requires Inv(s) && Enabled(s, Respond(id))
    ensures Inv(Next(s, Respond(id)))
  {
    hide NamesInv, SlotsInv;
    var t := Next(s, Respond(id));
    SlotsSame(s, t, id); NamesSame(s, t, id);
    assert RequestInv(s, id) && ResponseInv(s, id);
    forall o <- t.calls ensures RequestInv(t, o) && ResponseInv(t, o) {
      assert RequestInv(s, o) && ResponseInv(s, o);
      if o != id {
        RequestSame(s, t, id, o);
        ResponseSame(s, t, id, o);
      }
    }
    OwnedSame(s, t, id);
  }

  /** Two calls never own one segment. */
  lemma OwnersDiffer(s: System, id: Id, o: Id)
    requires Inv(s) && id in s.calls && o in s.calls && o != id && OwnedBy(s.calls[id].stage).Some?
    ensures OwnedBy(s.calls[o].stage) != OwnedBy(s.calls[id].stage)
  {
    assert ResponseInv(s, o) && ResponseInv(s, id);
  }

  lemma TooLongOwned(s: System, id: Id)
    requires Inv(s) && Enabled(s, TooLong(id))
    ensures OwnedInv(Next(s, TooLong(id)))
  {
    hide SlotsInv, RequestInv, NamesInv;
    var t := Next(s, TooLong(id));
    assert ResponseInv(s, id);
    forall n | n in t.segments && t.segments[n].busy
      ensures t.segments[n].busyId in t.releases
           || (t.segments[n].busyId in t.calls && OwnedBy(t.calls[t.segments[n].busyId].stage) == Some(n))
    {
      assert n in s.segments && s.segments[n] == t.segments[n];
    }
  }

  lemma TooLongKeeps(s: System, id: Id)
    requires Inv(s) && Enabled(s, TooLong(id))
    ensures Inv(Next(s, TooLong(id)))
  {
    hide NamesInv, SlotsInv, OwnedInv;
    var t := Next(s, TooLong(id));
    SlotsSame(s, t, id); NamesSame(s, t, id);
    assert RequestInv(s, id) && ResponseInv(s, id);
    forall o <- t.calls ensures RequestInv(t, o) && ResponseInv(t, o) {
      assert RequestInv(s, o) && ResponseInv(s, o);
      if o != id {
        if OwnedBy(s.calls[id].stage).Some? { OwnersDiffer(s, id, o); }
        RequestSame(s, t, id, o);
        ResponseSame(s, t, id, o);
      }
    }
    TooLongOwned(s, id);
  }

  /** A retired response segment is nobody's. */
  lemma RetiredIsUnowned(s: System, id: Id, o: Id)
    requires Inv(s) && id in s.calls && o in s.calls && RetiredBy(s.calls[id].stage).Some?
    ensures OwnedBy(s.calls[o].stage) != RetiredBy(s.calls[id].stage)
  {
    assert ResponseInv(s, o) && ResponseInv(s, id);
  }

  lemma OpenKeeps(s: System, id: Id, e: Step)
    requires Inv(s) && Enabled(s, e) && (e == OpenResponse(id) || e == OpenFails(id))
    ensures Inv(Next(s, e))
  {
    hide NamesInv, SlotsInv, OwnedInv;
    var t := Next(s, e);
    SlotsSame(s, t, id); NamesSame(s, t, id);
    forall o <- t.calls ensures RequestInv(t, o) && ResponseInv(t, o) {
      if o != id { OpenKeepsOther(s, id, e, o); } else { OpenKeepsOwn(s, id, e); }
    }
    OwnedSame(s, t, id);
    KnownId(s, id);
  }

  lemma OpenKeepsOwn(s: System, id: Id, e: Step)
    requires Inv(s) && Enabled(s, e) && (e == OpenResponse(id) || e == OpenFails(id))
    ensures RequestInv(Next(s, e), id) && ResponseInv(Next(s, e), id)
  {
    hide NamesInv, SlotsInv, OwnedInv;
    assert RequestInv(s, id) && ResponseInv(s, id);
  }

  lemma OpenKeepsOther(s: System, id: Id, e: Step, o: Id)
    requires Inv(s) && Enabled(s, e) && (e == OpenResponse(id) || e == OpenFails(id)) && o in s.calls && o != id
    ensures RequestInv(Next(s, e), o) && ResponseInv(Next(s, e), o)
  {
    hide NamesInv, SlotsInv, OwnedInv;
    var t := Next(s, e);
    assert RequestInv(s, o) && ResponseInv(s, o);
    if RetiredBy(s.calls[id].stage).Some? { RetiredIsUnowned(s, id, o); }
    RequestSame(s, t, id, o);
    ResponseSame(s, t, id, o);
  }

  lemma KnownId(s: System, id: Id)
    requires SlotsInv(s) && id in s.calls
    ensures id < s.nextId
  {
  }

  lemma OpenErrorKeeps(s: System, id: Id)
    requires Inv(s) && Enabled(s, OpenError(id))
    ensures Inv(Next(s, OpenError(id)))
  {
    hide NamesInv, SlotsInv, OwnedInv;
    var t := Next(s, OpenError(id));
    SlotsSame(s, t, id); NamesSame(s, t, id);
    assert RequestInv(s, id) && ResponseInv(s, id);
    forall o <- t.calls ensures RequestInv(t, o) && ResponseInv(t, o) {
      assert RequestInv(s, o) && ResponseInv(s, o);
      if o != id {
        RequestSame(s, t, id, o);
        ResponseSame(s, t, id, o);
      }
    }
    OwnedSame(s, t, id);
  }

  lemma HostReleasesKeeps(s: System, id: Id)
    requires Inv(s) && Enabled(s, HostReleases(id))
    ensures Inv(Next(s, HostReleases(id)))
  {
    hide NamesInv, SlotsInv;
    var t := Next(s, HostReleases(id));
    SlotsSame(s, t, id); NamesSame(s, t, id);
    forall o <- t.calls ensures RequestInv(t, o) && ResponseInv(t, o) {
      assert RequestInv(s, o) && ResponseInv(s, o);
      RequestSame(s, t, id, o);
      ResponseSame(s, t, id, o);
    }
  }

  // ---- steps that change a slot ----

  lemma AcquireKeeps(s: System, k: nat)
    requires Inv(s) && Enabled(s, Acquire(k))
    ensures Inv(Next(s, Acquire(k)))
  {
    hide OwnedInv, SlotsInv, NamesInv, RequestInv, ResponseInv, IsRequest;
    var t := Next(s, Acquire(k));
    AcquireSlots(s, k);
    AcquireNames(s, k);
    forall o <- t.calls ensures RequestInv(t, o) && ResponseInv(t, o) {
      AcquireCall(s, k, o);
    }
    AcquireOwned(s, k);
  }

  lemma AcquireCall(s: System, k: nat, o: Id)
    requires Inv(s) && Enabled(s, Acquire(k)) && o in Next(s, Acquire(k)).calls
    ensures RequestInv(Next(s, Acquire(k)), o) && ResponseInv(Next(s, Acquire(k)), o)
  {
    hide OwnedInv, NamesInv, IsRequest;
    AcquireNames(s, k);
    if o != s.nextId { assert RequestInv(s, o) && ResponseInv(s, o); }
  }

  lemma AcquireSlots(s: System, k: nat)
    requires Inv(s) && Enabled(s, Acquire(k))
    ensures SlotsInv(Next(s, Acquire(k)))
  {
    hide NamesInv, CallsInv, OwnedInv;
    var t := Next(s, Acquire(k));
    forall o <- t.calls
      ensures SlotOk(t, o) && SlotOf(t, o).call == Some(o) && o < t.nextId
    {
      if o != s.nextId { assert o in s.calls; }
    }
  }

  lemma AcquireNames(s: System, k: nat)
    requires Inv(s) && Enabled(s, Acquire(k))
    ensures NamesInv(Next(s, Acquire(k)))
    ensures forall n :: IsRequest(s, n) == IsRequest(Next(s, Acquire(k)), n)
  {
    hide SlotsInv, CallsInv, OwnedInv;
    var t := Next(s, Acquire(k));
    forall n: Name ensures IsRequest(s, n) == IsRequest(t, n) {
      if IsRequest(s, n) {
        var j :| 0 <= j < |s.slots| && s.slots[j].request == Some(n);
        assert t.slots[j].request == Some(n);
      }
    }
  }

  lemma AcquireOwned(s: System, k: nat)
    requires Inv(s) && Enabled(s, Acquire(k))
    ensures OwnedInv(Next(s, Acquire(k)))
  {
    hide NamesInv, CallsInv;
    var t := Next(s, Acquire(k));
    assert s.nextId !in s.calls;
  }

  /** Encoding changes the slot of `id`, which then has `slot`, and the payload in its segment. */
  predicate Reloads(s: System, t: System, id: Id, slot: Slot) {
    && SlotOk(s, id) && id in t.calls && t.calls == s.calls[id := s.calls[id].(stage := t.calls[id].stage)]
    && t.slots == s.slots[s.calls[id].slot := slot]
    && t.nextId == s.nextId && s.nextName <= t.nextName
    && t.segments == s.segments && t.requestMaps == s.requestMaps && t.responseMaps == s.responseMaps
    && t.releases == s.releases
    && slot.call == SlotOf(s, id).call
    && (slot.request.Some? && slot.request != SlotOf(s, id).request ==> s.nextName <= slot.request.value < t.nextName)
    && (forall n <- s.requestData :: slot.request != Some(n) ==>
          && n in t.requestData
          && t.requestData[n] == s.requestData[n])
  }

  lemma ReloadSlots(s: System, t: System, id: Id, slot: Slot)
    requires SlotsInv(s) && Reloads(s, t, id, slot)
    ensures SlotsInv(t)
  {
    forall o <- t.calls
      ensures SlotOk(t, o) && SlotOf(t, o).call == Some(o) && o < t.nextId
    {
      assert o in s.calls;
    }
  }

  /** The requests of the slots afterwards: those of before, without the one replaced, and the new one. */
  lemma ReloadRequests(s: System, t: System, id: Id, slot: Slot, n: Name)
    requires NamesInv(s) && Reloads(s, t, id, slot) && IsRequest(t, n)
    ensures IsRequest(s, n) || s.nextName <= n
    ensures SlotOf(s, id).request == Some(n) ==> slot.request == Some(n)
  {
    var k :| 0 <= k < |t.slots| && t.slots[k].request == Some(n);
    if k != s.calls[id].slot {
      assert s.slots[k].request == Some(n);
    } else if slot.request == SlotOf(s, id).request {
      assert s.slots[k].request == Some(n);
    }
  }

  lemma ReloadNames(s: System, t: System, id: Id, slot: Slot)
    requires NamesInv(s) && Reloads(s, t, id, slot) && slot.retire == None
    ensures NamesInv(t)
  {
    forall k | 0 <= k < |t.slots| && t.slots[k].retire.Some?
      ensures t.slots[k].retire.value < t.nextName && !IsRequest(t, t.slots[k].retire.value)
    {
      assert t.slots[k] == s.slots[k];
      var r := s.slots[k].retire.value;
      if IsRequest(t, r) { ReloadRequests(s, t, id, slot, r); }
    }
  }

  lemma ReloadOthers(s: System, t: System, id: Id, slot: Slot, o: Id)
    requires Inv(s) && Reloads(s, t, id, slot) && o in s.calls && o != id
    ensures RequestInv(t, o) && ResponseInv(t, o)
  {
    hide OwnedInv;
    assert RequestInv(s, o) && ResponseInv(s, o);
    var stage := s.calls[o].stage;
    assert s.calls[o].slot != s.calls[id].slot;
    if ReadBy(stage).Some? {
      assert SlotOf(s, o).request != slot.request;
    }
    if stage.RunSent? && stage.retire.Some? && IsRequest(t, stage.retire.value) {
      ReloadRequests(s, t, id, slot, stage.retire.value);
    }
  }

  lemma ReloadKeeps(s: System, t: System, id: Id, slot: Slot)
    requires Inv(s) && Reloads(s, t, id, slot) && At(s, id, Encoding) && slot.retire == None
    requires t.calls[id].stage.RunSent? && RequestInv(t, id)
    ensures Inv(t)
  {
    hide SlotsInv, NamesInv;
    ReloadSlots(s, t, id, slot);
    ReloadNames(s, t, id, slot);
    assert ResponseInv(s, id);
    forall o <- t.calls ensures RequestInv(t, o) && ResponseInv(t, o) {
      if o != id { ReloadOthers(s, t, id, slot, o); }
    }
  }

  lemma EncodeKeeps(s: System, id: Id, place: Place)
    requires Inv(s) && Enabled(s, Encode(id, place))
    ensures Inv(Encoded(s, id, place))
    ensures Encoded(s, id, place).calls[id].stage.RunSent?
  {
    hide SlotsInv, NamesInv, CallsInv, OwnedInv, RequestInv, IsRequest;
    var t := Encoded(s, id, place);
    var slot := t.slots[s.calls[id].slot];
    assert Reloads(s, t, id, slot);
    EncodeOwn(s, id, place);
    ReloadKeeps(s, t, id, slot);
  }

  lemma EncodeOwn(s: System, id: Id, place: Place)
    requires Inv(s) && Enabled(s, Encode(id, place))
    requires Reloads(s, Encoded(s, id, place), id, Encoded(s, id, place).slots[s.calls[id].slot])
    ensures RequestInv(Encoded(s, id, place), id)
  {
    hide SlotsInv, CallsInv, OwnedInv;
    var t := Encoded(s, id, place);
    var k := s.calls[id].slot;
    var retire := t.calls[id].stage.retire;
    if retire.Some? && IsRequest(t, retire.value) {
      ReloadRequests(s, t, id, t.slots[k], retire.value);
    }
  }

  // ---- giving a slot back ----

  lemma ReleasedRequests(s: System, t: System, id: Id, failed: bool, held: bool, n: Name)
    requires SlotOk(s, id) && t == Released(s, id, failed, held) && IsRequest(t, n)
    ensures IsRequest(s, n)
  {
    var k :| 0 <= k < |t.slots| && t.slots[k].request == Some(n);
    assert s.slots[k].request == Some(n);
  }

  lemma ReleasedNames(s: System, id: Id, failed: bool, held: bool)
    requires Inv(s) && SlotOk(s, id)
    ensures NamesInv(Released(s, id, failed, held))
  {
    hide SlotsInv, CallsInv, OwnedInv;
    var t := Released(s, id, failed, held);
    forall k | 0 <= k < |t.slots| && t.slots[k].retire.Some?
      ensures t.slots[k].retire.value < t.nextName && !IsRequest(t, t.slots[k].retire.value)
    {
    }
  }

  lemma ReleasedSlots(s: System, id: Id, failed: bool, held: bool)
    requires SlotsInv(s) && SlotOk(s, id)
    ensures SlotsInv(Released(s, id, failed, held))
  {
    var t := Released(s, id, failed, held);
    forall o <- t.calls
      ensures SlotOk(t, o) && SlotOf(t, o).call == Some(o) && o < t.nextId
    {
      assert o in s.calls && o != id;
    }
  }

  lemma ReleasedOthers(s: System, id: Id, failed: bool, held: bool, o: Id)
    requires Inv(s) && SlotOk(s, id) && o in s.calls && o != id
    ensures var t := Released(s, id, failed, held); RequestInv(t, o) && ResponseInv(t, o)
  {
    hide NamesInv, OwnedInv;
    var t := Released(s, id, failed, held);
    assert RequestInv(s, o) && ResponseInv(s, o);
    assert s.calls[o].slot != s.calls[id].slot;
    var stage := s.calls[o].stage;
    if stage.RunSent? && stage.retire.Some? && IsRequest(t, stage.retire.value) {
      ReleasedRequests(s, t, id, failed, held, stage.retire.value);
    }
  }

  lemma ReleasedKeeps(s: System, id: Id, failed: bool, held: bool)
    requires Inv(s) && SlotOk(s, id) && held == OwnedBy(s.calls[id].stage).Some?
    ensures Inv(Released(s, id, failed, held))
  {
    hide SlotsInv, NamesInv, RequestInv, ResponseInv, IsRequest, SlotReleased;
    var t := Released(s, id, failed, held);
    ReleasedSlots(s, id, failed, held);
    ReleasedNames(s, id, failed, held);
    forall o <- t.calls ensures RequestInv(t, o) && ResponseInv(t, o) {
      ReleasedOthers(s, id, failed, held, o);
    }
    KnownId(s, id);
  }

  // ---- every step, every run ----

  lemma StepKeeps(s: System, e: Step)
    requires Inv(s) && Enabled(s, e)
    ensures Inv(Next(s, e))
  {
    hide Inv, Encoded, Released, Chosen, FreedBy, With, Without, SlotReleased;
    match e
    case Acquire(k) => AcquireKeeps(s, k);
    case Encode(id, place) => EncodeKeeps(s, id, place);
    case EncodeFails(id, place) =>
      EncodeKeeps(s, id, place);
      EncodedSlot(s, id, place);
      ReleasedKeeps(Encoded(s, id, place), id, true, false);
    case Start(id) => StartKeeps(s, id);
    case StartFails(id, early) => StartFailsKeeps(s, id, early);
    case RunFails(id) => RunFailsKeeps(s, id);
    case Choose(id, pick) => ChooseKeeps(s, id, pick);
    case Respond(id) => RespondKeeps(s, id);
    case TooLong(id) => TooLongKeeps(s, id);
    case OpenResponse(id) => OpenKeeps(s, id, e);
    case OpenFails(id) => OpenKeeps(s, id, e);
    case OpenError(id) => OpenErrorKeeps(s, id);
    case ReleaseSlot(id) => ReleasedKeeps(s, id, s.calls[id].stage.refused, s.calls[id].stage.segment.Some?);
    case HostReleases(id) => HostReleasesKeeps(s, id);
  }

  lemma EncodedSlot(s: System, id: Id, place: Place)
    requires SlotOk(s, id)
    ensures SlotOk(Encoded(s, id, place), id)
  {
  }

  predicate Run(s: System, steps: seq<Step>)
    decreases |steps|
  {
    steps == [] || (Enabled(s, steps[0]) && Run(Next(s, steps[0]), steps[1..]))
  }

  function After(s: System, steps: seq<Step>): System
    requires Run(s, steps)
    decreases |steps|
  {
    if steps == [] then s else After(Next(s, steps[0]), steps[1..])
  }

  /** A host that has just started: nothing is in flight, and whatever segments the core's slots had are forgotten. */
  predicate FreshHost(s: System) {
    && s.calls == map[] && s.segments == map[] && s.releases == {} && s.requestMaps == {} && s.responseMaps == {}
    && (forall k :: 0 <= k < |s.slots| ==> s.slots[k] == Slot(None, None, false, None))
  }

  lemma {:induction false} RunKeeps(s: System, steps: seq<Step>)
    requires Inv(s) && Run(s, steps)
    ensures Inv(After(s, steps))
    decreases |steps|
  {
    hide Inv, Enabled, Next;
    if steps != [] {
      StepKeeps(s, steps[0]);
      RunKeeps(Next(s, steps[0]), steps[1..]);
    }
  }

  /** In every reachable state of one host's life, each payload is whole where it is read: a run that may read its
      request segment finds its own request there, mapped once it has started, and a response that the core holds open,
      or that is on its way, lies in a busy segment of that call which still holds that response; every busy segment is
      owned or about to be released. */
  lemma PayloadsIntact(start: System, steps: seq<Step>, id: Id)
    requires FreshHost(start) && Run(start, steps) && id in After(start, steps).calls
    ensures var s := After(start, steps);
            var stage := s.calls[id].stage;
            && (ReadBy(stage).Some? ==>
                  && ReadBy(stage).value in s.requestData && s.requestData[ReadBy(stage).value] == id
                  && (!stage.RunSent? ==> ReadBy(stage).value in s.requestMaps))
            && (OwnedBy(stage).Some? ==>
                  OwnedBy(stage).value in s.segments && s.segments[OwnedBy(stage).value] == Segment(true, id, id))
            && (stage.Open? && stage.segment.Some? ==> stage.segment.value in s.responseMaps)
            && OwnedInv(s)
  {
    hide Run, After;
    RunKeeps(start, steps);
    var s := After(start, steps);
    assert RequestInv(s, id) && ResponseInv(s, id);
  }

  /** No step of another call chooses, rewrites, frees or retires a segment that a call owns, or unmaps it under an open
      response. */
  lemma OwnedStays(s: System, e: Step, id: Id)
    requires Inv(s) && Enabled(s, e) && id in s.calls && OwnedBy(s.calls[id].stage).Some?
    requires id in Next(s, e).calls && Next(s, e).calls[id].stage == s.calls[id].stage
    ensures var n := OwnedBy(s.calls[id].stage).value;
            && n in s.segments && n in Next(s, e).segments && Next(s, e).segments[n] == s.segments[n]
            && (s.calls[id].stage.Open? ==> n in Next(s, e).responseMaps)
  {
    hide Enabled, Next;
    StepKeeps(s, e);
    assert ResponseInv(s, id) && ResponseInv(Next(s, e), id);
  }

  /** No step rewrites, or unmaps on the host, the request segment of a run that has started. */
  lemma ReadStays(s: System, e: Step, id: Id)
    requires Inv(s) && Enabled(s, e) && id in s.calls && ReadBy(s.calls[id].stage).Some?
    requires id in Next(s, e).calls && Next(s, e).calls[id].stage == s.calls[id].stage
    ensures var n := ReadBy(s.calls[id].stage).value;
            && n in Next(s, e).requestData && Next(s, e).requestData[n] == id
            && (!s.calls[id].stage.RunSent? ==> n in Next(s, e).requestMaps)
  {
    hide Enabled, Next;
    StepKeeps(s, e);
    assert RequestInv(s, id) && RequestInv(Next(s, e), id);
  }
}
