/** Which shared-memory segments stay mapped: a side unmaps a segment when the other names it for retirement, so a name
    that is lost on the way is a mapping that stays for the life of the host. */
module ShmAccounts {
  import opened Options
  import opened ShmOwnership
  import opened ShmSafety

  // ---- request segments ----

  function Opt<T(==)>(n: Option<T>): set<T> {
    if n.Some? then {n.value} else {}
  }

  /** The segment that the Run frame of the call in slot `k`, still to be looked into, retires. */
  function Pending(s: System, k: nat): Option<Name>
    requires k < |s.slots|
  {
    var call := s.slots[k].call;
    if call.Some? && call.value in s.calls && s.calls[call.value].stage.RunSent? then s.calls[call.value].stage.retire
    else None
  }

  /** The segments the core still knows of through slot `k`. */
  function Seen(s: System, k: nat): set<Name>
    requires k < |s.slots|
  {
    Opt(s.slots[k].request) + Opt(s.slots[k].retire) + Opt(Pending(s, k))
  }

  /** The slot of a call that is encoded has passed on what it had to retire; nobody keeps a segment to use and one to
      retire. */
  predicate TidyAlone(s: System, k: nat)
    requires k < |s.slots|
  {
    var slot := s.slots[k];
    && (slot.retire.Some? ==> slot.request.None?)
    && (slot.call.Some? && slot.call.value in s.calls && s.calls[slot.call.value].stage != Encoding ==>
          slot.retire.None?)
    && (slot.request.Some? ==> Pending(s, k) != slot.request)
  }

  predicate Tidy(s: System, k: nat)
    requires k < |s.slots|
  {
    TidyAlone(s, k) && forall n <- Seen(s, k) :: n < s.nextName
  }

  /** No segment is known through two slots. */
  predicate KnownOnce(s: System) {
    forall j, k :: 0 <= j < k < |s.slots| ==> Seen(s, j) !! Seen(s, k)
  }

  predicate TidyInv(s: System) {
    KnownOnce(s) && forall k :: 0 <= k < |s.slots| ==> Tidy(s, k)
  }

  /** What a step makes the core forget. */
  function Dropped(s: System, e: Step): Option<Name>
    requires Enabled(s, e)
  {
    match e
    case EncodeFails(id, place) =>
      var slot := SlotOf(s, id);
      if (place.Grow? || place.GrowFails?) && slot.request.Some? then slot.request else slot.retire
    case StartFails(id, true) => s.calls[id].stage.retire
    case _ => None
  }

  /** What a step takes from the host's mappings. */
  function Unmapped(s: System, e: Step): Option<Name>
    requires Enabled(s, e)
  {
    match e
    case Start(id) => s.calls[id].stage.retire
    case StartFails(id, false) => s.calls[id].stage.retire
    case _ => None
  }

  function Made(s: System, e: Step): Option<Name> {
    if (e.Encode? || e.EncodeFails?) && e.place.Grow? then Some(s.nextName) else None
  }

  function SlotIn(s: System, e: Step): nat
    requires Enabled(s, e)
  {
    match e
    case Acquire(k) => k
    case HostReleases(_) => |s.slots|
    case _ => if e.id in s.calls then s.calls[e.id].slot else |s.slots|
  }

  /** The slot and the stage of the call in it. */
  predicate SameSlot(s: System, t: System, k: nat)
    requires k < |s.slots|
  {
    && k < |t.slots| && t.slots[k] == s.slots[k]
    && var call := s.slots[k].call;
       call.Some? ==>
         && (call.value in s.calls <==> call.value in t.calls)
         && (call.value in s.calls ==> t.calls[call.value].stage == s.calls[call.value].stage)
  }

  lemma SameSeen(s: System, t: System, k: nat)
    requires k < |s.slots| && SameSlot(s, t, k)
    ensures Seen(t, k) == Seen(s, k)
  {
  }

  lemma OthersOnEncode(s: System, id: Id, place: Place, k: nat)
    requires SlotsInv(s) && SlotOk(s, id) && k < |s.slots| && k != s.calls[id].slot
    ensures SameSlot(s, Encoded(s, id, place), k) && SlotOk(Encoded(s, id, place), id)
    ensures Encoded(s, id, place).calls[id].slot == s.calls[id].slot
  {
    hide Regrown;
  }

  lemma OthersOnRelease(s: System, id: Id, failed: bool, held: bool, k: nat)
    requires SlotOk(s, id) && k < |s.slots| && k != s.calls[id].slot && s.slots[k].call != Some(id)
    ensures SameSlot(s, Released(s, id, failed, held), k)
  {
    hide SlotReleased;
  }

  lemma OtherCall(s: System, e: Step, k: nat)
    requires SlotsInv(s) && Enabled(s, e) && k < |s.slots| && k != SlotIn(s, e)
    ensures !e.Acquire? && !e.HostReleases? ==> s.slots[k].call != Some(e.id)
    ensures s.slots[k].call != Some(s.nextId)
  {
  }

  lemma OtherSlots(s: System, e: Step, k: nat)
    requires SlotsInv(s) && Enabled(s, e) && k < |s.slots| && k != SlotIn(s, e)
    ensures SameSlot(s, Next(s, e), k)
  {
    hide SlotsInv, FreedBy, With, Without, Encoded, Released;
    OtherCall(s, e, k);
    match e
    case Encode(id, place) => OthersOnEncode(s, id, place, k);
    case EncodeFails(id, place) =>
      OthersOnEncode(s, id, place, k);
      OthersOnRelease(Encoded(s, id, place), id, true, false, k);
    case ReleaseSlot(id) =>
      OthersOnRelease(s, id, s.calls[id].stage.refused, s.calls[id].stage.segment.Some?, k);
    case _ =>
  }

  lemma EncodedSeen(s: System, id: Id, place: Place)
    requires SlotsInv(s) && Enabled(s, Encode(id, place)) && Tidy(s, s.calls[id].slot)
    ensures var t, k := Encoded(s, id, place), s.calls[id].slot;
            && t == Next(s, Encode(id, place))
            && |t.slots| == |s.slots| && t.slots[k].retire == None && t.slots[k].call == Some(id)
            && Seen(t, k) == Seen(s, k) + Opt(Made(s, Encode(id, place)))
            && Pending(t, k) == Dropped(s, EncodeFails(id, place))
            && t.slots[k].request == (match place
                                      case Grow => Some(s.nextName)
                                      case GrowFails => None
                                      case _ => s.slots[k].request)
  {
  }

  lemma EncodeFailsSeen(s: System, id: Id, place: Place)
    requires SlotsInv(s) && Enabled(s, EncodeFails(id, place)) && Tidy(s, s.calls[id].slot)
    ensures var e := EncodeFails(id, place);
            var k := s.calls[id].slot;
            && |Next(s, e).slots| == |s.slots|
            && Seen(Next(s, e), k) == Seen(s, k) + Opt(Made(s, e)) - Opt(Dropped(s, e))
  {
    EncodedSeen(s, id, place);
    var e := EncodeFails(id, place);
    var k, t, u := s.calls[id].slot, Encoded(s, id, place), Next(s, e);
    assert Pending(u, k) == None;
    assert Seen(u, k) == Opt(t.slots[k].request);
    assert Dropped(s, e).Some? ==> t.slots[k].request != Dropped(s, e);
  }

  lemma StartedSeen(s: System, e: Step)
    requires SlotsInv(s) && Enabled(s, e) && (e.Start? || e.StartFails?) && Tidy(s, s.calls[e.id].slot)
    ensures var k := s.calls[e.id].slot;
            && |Next(s, e).slots| == |s.slots|
            && Seen(Next(s, e), k) == Seen(s, k) - Opt(Dropped(s, e)) - Opt(Unmapped(s, e))
  {
    hide With, Without;
    var k := s.calls[e.id].slot;
    assert s.slots[k].call == Some(e.id);
  }

  lemma ReleasedSeen(s: System, id: Id)
    requires SlotsInv(s) && Enabled(s, ReleaseSlot(id)) && Tidy(s, s.calls[id].slot)
    ensures var k := s.calls[id].slot;
            |Next(s, ReleaseSlot(id)).slots| == |s.slots| && Seen(Next(s, ReleaseSlot(id)), k) == Seen(s, k)
  {
    var k := s.calls[id].slot;
    assert s.slots[k].call == Some(id);
  }

  lemma MovedSeen(s: System, e: Step)
    requires SlotsInv(s) && Enabled(s, e)
    requires e.RunFails? || e.Choose? || e.Respond? || e.TooLong? || e.OpenResponse? || e.OpenFails? || e.OpenError?
    ensures var k := s.calls[e.id].slot;
            |Next(s, e).slots| == |s.slots| && Seen(Next(s, e), k) == Seen(s, k)
  {
    hide With, Without;
    var k := s.calls[e.id].slot;
    assert s.slots[k].call == Some(e.id);
  }

  lemma AcquiredSeen(s: System, k: nat)
    requires SlotsInv(s) && Enabled(s, Acquire(k))
    ensures var t := Next(s, Acquire(k)); k < |t.slots| && Seen(t, k) == if k < |s.slots| then Seen(s, k) else {}
  {
  }

  lemma SlotCount(s: System, e: Step)
    requires Enabled(s, e)
    ensures |Next(s, e).slots| == if e == Acquire(|s.slots|) then |s.slots| + 1 else |s.slots|
  {
    hide With, Without, FreedBy, SlotReleased, Regrown;
  }

  lemma OwnSeen(s: System, e: Step)
    requires SlotsInv(s) && TidyInv(s) && Enabled(s, e) && SlotIn(s, e) < |s.slots|
    ensures var k := SlotIn(s, e);
            && k < |Next(s, e).slots|
            && Seen(Next(s, e), k) == Seen(s, k) + Opt(Made(s, e)) - Opt(Dropped(s, e)) - Opt(Unmapped(s, e))
  {
    hide SlotsInv, KnownOnce, Seen, Next, Pending, Tidy;
    var k := SlotIn(s, e);
    assert Tidy(s, k);
    match e
    case Acquire(_) => AcquiredSeen(s, k);
    case Encode(id, place) => EncodedSeen(s, id, place);
    case EncodeFails(id, place) => EncodeFailsSeen(s, id, place);
    case Start(_) => StartedSeen(s, e);
    case StartFails(_, _) => StartedSeen(s, e);
    case ReleaseSlot(id) => ReleasedSeen(s, id);
    case _ => MovedSeen(s, e);
  }

  /** A step changes what is known through the slot of its call alone, by what it makes, drops and unmaps. */
  lemma SeenStep(s: System, e: Step, k: nat)
    requires SlotsInv(s) && TidyInv(s) && Enabled(s, e) && k < |Next(s, e).slots|
    ensures var own := if k < |s.slots| then Seen(s, k) else {};
            Seen(Next(s, e), k) == if k != SlotIn(s, e) then own
                                   else own + Opt(Made(s, e)) - Opt(Dropped(s, e)) - Opt(Unmapped(s, e))
  {
    hide SlotsInv, TidyInv, Seen, Next, Enabled, Made, Dropped, Unmapped;
    SlotCount(s, e);
    if k != SlotIn(s, e) {
      OtherSlots(s, e, k);
      SameSeen(s, Next(s, e), k);
    } else if k < |s.slots| {
      OwnSeen(s, e);
    } else {
      AcquiredSeen(s, k);
      assert Opt(Made(s, e)) == Opt(Dropped(s, e)) == Opt(Unmapped(s, e)) == {} by { NewSlot(s, k); }
    }
  }

  lemma NewSlot(s: System, k: nat)
    requires Enabled(s, Acquire(k))
    ensures var e := Acquire(k); Made(s, e) == Dropped(s, e) == Unmapped(s, e) == None
  {
  }

  // ---- what every step keeps ----

  lemma DroppedIsSeen(s: System, e: Step)
    requires SlotsInv(s) && Enabled(s, e)
    ensures Dropped(s, e).Some? || Unmapped(s, e).Some? ==> SlotIn(s, e) < |s.slots|
    ensures Dropped(s, e).Some? ==> Dropped(s, e).value in Seen(s, SlotIn(s, e)) && Unmapped(s, e).None?
    ensures Unmapped(s, e).Some? ==> Unmapped(s, e) == Pending(s, SlotIn(s, e))
  {
  }

  lemma NamesGrow(s: System, e: Step)
    requires Enabled(s, e)
    ensures s.nextName <= Next(s, e).nextName
    ensures Made(s, e).Some? ==> Made(s, e).value == s.nextName < Next(s, e).nextName
  {
    hide FreedBy, With, Without, SlotReleased;
  }

  /** What is known through a slot before the step; nothing through one that is to come. */
  function SeenBefore(s: System, k: nat): set<Name> {
    if k < |s.slots| then Seen(s, k) else {}
  }

  /** A step adds no more than the name that it makes, to the slot of its call. */
  lemma SeenWithin(s: System, e: Step, k: nat)
    requires SlotsInv(s) && TidyInv(s) && Enabled(s, e) && k < |Next(s, e).slots|
    ensures Seen(Next(s, e), k) <= SeenBefore(s, k) + if k == SlotIn(s, e) then {s.nextName} else {}
    ensures forall n <- SeenBefore(s, k) :: n < s.nextName
  {
    hide SlotsInv, KnownOnce, Next, Enabled, Seen, Dropped, Unmapped, TidyAlone;
    assert k < |s.slots| ==> Tidy(s, k);
    SeenStep(s, e, k);
  }

  lemma StillOnce(s: System, e: Step, j: nat, k: nat)
    requires SlotsInv(s) && TidyInv(s) && Enabled(s, e) && j < k < |Next(s, e).slots|
    ensures Seen(Next(s, e), j) !! Seen(Next(s, e), k)
  {
    assert k < |s.slots| ==> Seen(s, j) !! Seen(s, k);
    hide SlotsInv, TidyInv, Next, Enabled, Seen, SlotIn;
    SeenWithin(s, e, j);
    SeenWithin(s, e, k);
    assert SeenBefore(s, j) !! SeenBefore(s, k);
  }

  lemma EncodedTidy(s: System, id: Id, place: Place)
    requires SlotsInv(s) && NamesInv(s) && Enabled(s, Encode(id, place)) && Tidy(s, s.calls[id].slot)
    ensures TidyAlone(Next(s, Encode(id, place)), s.calls[id].slot)
  {
    EncodedSeen(s, id, place);
    var k := s.calls[id].slot;
    assert s.slots[k].request.Some? ==> s.slots[k].request.value < s.nextName;
    assert s.slots[k].retire.Some? ==> s.slots[k].retire.value < s.nextName;
    hide Next, Encoded, SlotsInv, NamesInv;
  }

  lemma EncodeFailsTidy(s: System, id: Id, place: Place)
    requires SlotsInv(s) && Enabled(s, EncodeFails(id, place)) && Tidy(s, s.calls[id].slot)
    ensures var k := s.calls[id].slot;
            k < |Next(s, EncodeFails(id, place)).slots| && TidyAlone(Next(s, EncodeFails(id, place)), k)
  {
    EncodedSeen(s, id, place);
    hide Encoded, NamesInv;
  }

  lemma MovedTidy(s: System, e: Step)
    requires SlotsInv(s) && Enabled(s, e) && SlotIn(s, e) < |s.slots| && Tidy(s, SlotIn(s, e))
    requires !e.Encode? && !e.EncodeFails?
    ensures SlotIn(s, e) < |Next(s, e).slots| && TidyAlone(Next(s, e), SlotIn(s, e))
  {
    hide With, Without, FreedBy;
    var k := SlotIn(s, e);
    assert !e.Acquire? ==> s.slots[k].call == Some(e.id);
  }

  lemma OwnTidy(s: System, e: Step)
    requires SlotsInv(s) && NamesInv(s) && TidyInv(s) && Enabled(s, e) && SlotIn(s, e) < |Next(s, e).slots|
    ensures TidyAlone(Next(s, e), SlotIn(s, e))
  {
    var k := SlotIn(s, e);
    SlotCount(s, e);
    assert k < |s.slots| ==> Tidy(s, k);
    hide SlotsInv, NamesInv, KnownOnce, Tidy, TidyAlone, Enabled, Next;
    if k == |s.slots| { NewTidy(s); }
    else if e.Encode? { EncodedTidy(s, e.id, e.place); }
    else if e.EncodeFails? { EncodeFailsTidy(s, e.id, e.place); }
    else { MovedTidy(s, e); }
  }

  lemma NewTidy(s: System)
    requires SlotsInv(s)
    ensures TidyAlone(Next(s, Acquire(|s.slots|)), |s.slots|)
  {
  }

  lemma SeenBounded(s: System, e: Step, k: nat)
    requires SlotsInv(s) && TidyInv(s) && Enabled(s, e) && k < |Next(s, e).slots|
    ensures forall n <- Seen(Next(s, e), k) :: n < Next(s, e).nextName
  {
    hide SlotsInv, KnownOnce, Next, Enabled, Seen, TidyAlone, Dropped, Unmapped;
    assert k < |s.slots| ==> Tidy(s, k);
    NamesGrow(s, e);
    SeenStep(s, e, k);
  }

  lemma OtherTidy(s: System, e: Step, k: nat)
    requires SlotsInv(s) && TidyInv(s) && Enabled(s, e) && k < |Next(s, e).slots| && k != SlotIn(s, e)
    ensures TidyAlone(Next(s, e), k)
  {
    SlotCount(s, e);
    assert k < |s.slots| && Tidy(s, k);
    hide SlotsInv, KnownOnce, Next, Enabled;
    OtherSlots(s, e, k);
  }

  lemma TidyStep(s: System, e: Step)
    requires SlotsInv(s) && NamesInv(s) && TidyInv(s) && Enabled(s, e)
    ensures TidyInv(Next(s, e))
  {
    var t := Next(s, e);
    hide SlotsInv, NamesInv, Next, Enabled, Seen, SlotIn;
    SlotCount(s, e);
    NamesGrow(s, e);
    forall k | 0 <= k < |t.slots| ensures Tidy(t, k) {
      SeenBounded(s, e, k);
      if k == SlotIn(s, e) { OwnTidy(s, e); } else { OtherTidy(s, e, k); }
    }
    forall j, k | 0 <= j < k < |t.slots| ensures Seen(t, j) !! Seen(t, k) { StillOnce(s, e, j, k); }
  }

  // ---- no request segment is forgotten ----

  predicate KnownToCore(s: System, n: Name) {
    exists k :: 0 <= k < |s.slots| && n in Seen(s, k)
  }

  /** The host has mapped only segments that the core knows of, to use or to retire. */
  predicate RequestsAccounted(s: System) {
    forall n <- s.requestMaps :: KnownToCore(s, n)
  }

  lemma MapsStep(s: System, e: Step)
    requires Inv(s) && Enabled(s, e)
    ensures Next(s, e).requestMaps ==
              s.requestMaps - Opt(Unmapped(s, e)) + if e.Start? then Opt(s.calls[e.id].stage.request) else {}
    ensures e.Start? && s.calls[e.id].stage.request.Some? ==>
              SlotIn(s, e) < |s.slots| && s.slots[SlotIn(s, e)].request == s.calls[e.id].stage.request
  {
    hide Inv, FreedBy, Encoded, Released, IsRequest;
    if e.Start? && s.calls[e.id].stage.request.Some? { StartsOwn(s, e.id); }
    match e
    case Encode(id, place) => EncodedMaps(s, id, place);
    case EncodeFails(id, place) => EncodedMaps(s, id, place);
    case ReleaseSlot(id) => ReleasedMaps(s, id, s.calls[id].stage.refused, s.calls[id].stage.segment.Some?);
    case _ =>
  }

  /** The segment that a Run frame names is that of its slot. */
  lemma StartsOwn(s: System, id: Id)
    requires Inv(s) && Enabled(s, Start(id)) && s.calls[id].stage.request.Some?
    ensures SlotOk(s, id) && SlotOf(s, id).request == s.calls[id].stage.request
  {
    hide SlotsInv, NamesInv, OwnedInv, ResponseInv, IsRequest;
    assert RequestInv(s, id);
  }

  lemma EncodedMaps(s: System, id: Id, place: Place)
    requires SlotOk(s, id)
    ensures var t := Encoded(s, id, place);
            && t.requestMaps == s.requestMaps && SlotOk(t, id)
            && Released(t, id, true, false).requestMaps == s.requestMaps
  {
    hide Regrown, SlotReleased;
  }

  lemma ReleasedMaps(s: System, id: Id, failed: bool, held: bool)
    requires SlotOk(s, id)
    ensures Released(s, id, failed, held).requestMaps == s.requestMaps
  {
    hide SlotReleased;
  }

  lemma KeepsKnown(s: System, e: Step, n: Name)
    requires Inv(s) && TidyInv(s) && Enabled(s, e) && RequestsAccounted(s)
    requires n in Next(s, e).requestMaps && Dropped(s, e) != Some(n)
    ensures KnownToCore(Next(s, e), n)
  {
    MapsStep(s, e);
    SlotCount(s, e);
    if n in s.requestMaps && Unmapped(s, e) != Some(n) {
      var k :| 0 <= k < |s.slots| && n in Seen(s, k);
      SeenStep(s, e, k);
      assert n in Seen(Next(s, e), k);
    } else {
      var k := SlotIn(s, e);
      assert Tidy(s, k);
      SeenStep(s, e, k);
      DroppedIsSeen(s, e);
      assert n in Seen(Next(s, e), k);
    }
  }

  /** A step keeps it exactly if it does not make the core forget a segment that the host has mapped. */
  lemma RequestsStep(s: System, e: Step)
    requires Inv(s) && TidyInv(s) && Enabled(s, e) && RequestsAccounted(s)
    ensures RequestsAccounted(Next(s, e)) <==> !(Dropped(s, e).Some? && Dropped(s, e).value in s.requestMaps)
  {
    var t := Next(s, e);
    MapsStep(s, e);
    DroppedIsSeen(s, e);
    if Dropped(s, e).Some? && Dropped(s, e).value in s.requestMaps {
      var n, own := Dropped(s, e).value, SlotIn(s, e);
      forall k | 0 <= k < |t.slots| ensures n !in Seen(t, k) {
        SlotCount(s, e);
        SeenStep(s, e, k);
        assert k < own ==> Seen(s, k) !! Seen(s, own);
        assert own < k < |s.slots| ==> Seen(s, own) !! Seen(s, k);
      }
      assert n in t.requestMaps && !KnownToCore(t, n);
    } else {
      forall n | n in t.requestMaps ensures KnownToCore(t, n) {
        assert Dropped(s, e) != Some(n) || n !in s.requestMaps;
        if Dropped(s, e) != Some(n) { KeepsKnown(s, e, n); }
      }
    }
  }

  // ---- the host can open what it is told of ----

  /** The host has looked into the Run frame of the call and answered it, or is at it. */
  predicate Accepted(stage: Stage) {
    stage.Running? || stage.Writing? || stage.Answered? || (stage.Open? && !stage.refused)
  }

  /** A request segment without a name is one that the host has mapped; one with a name belongs to a call on its way and
      is mapped once that is accepted. */
  predicate Openable(s: System, k: nat)
    requires k < |s.slots|
  {
    var slot := s.slots[k];
    slot.request.Some? ==>
      && (!slot.named ==> slot.request.value in s.requestMaps)
      && (slot.named ==>
            && slot.call.Some? && slot.call.value in s.calls
            && var stage := s.calls[slot.call.value].stage;
               && stage != Encoding && (stage.RunSent? ==> stage.request == slot.request)
               && (Accepted(stage) ==> slot.request.value in s.requestMaps))
  }

  predicate AllOpenable(s: System) {
    forall k :: 0 <= k < |s.slots| ==> Openable(s, k)
  }

  /** No step unmaps a segment that a slot keeps. */
  lemma RequestStaysMapped(s: System, e: Step, k: nat, n: Name)
    requires Inv(s) && TidyInv(s) && Enabled(s, e) && k < |s.slots| && s.slots[k].request == Some(n)
    ensures n in s.requestMaps ==> n in Next(s, e).requestMaps
  {
    MapsStep(s, e);
    DroppedIsSeen(s, e);
    assert Tidy(s, k);
    var own := SlotIn(s, e);
    assert k < own < |s.slots| ==> Seen(s, k) !! Seen(s, own);
    assert own < k ==> Seen(s, own) !! Seen(s, k);
  }

  lemma OtherOpenable(s: System, e: Step, k: nat)
    requires Inv(s) && TidyInv(s) && Enabled(s, e) && k < |s.slots| && k != SlotIn(s, e) && Openable(s, k)
    ensures k < |Next(s, e).slots| && Openable(Next(s, e), k)
  {
    OtherSlots(s, e, k);
    if s.slots[k].request.Some? { RequestStaysMapped(s, e, k, s.slots[k].request.value); }
    hide Next, Inv, TidyInv, Enabled;
  }

  lemma EncodedOpenable(s: System, id: Id, place: Place)
    requires Inv(s) && TidyInv(s) && Enabled(s, Encode(id, place)) && Openable(s, s.calls[id].slot)
    ensures Openable(Next(s, Encode(id, place)), s.calls[id].slot)
  {
    hide NamesInv, CallsInv, OwnedInv, KnownOnce;
    var k := s.calls[id].slot;
    assert s.slots[k].call == Some(id);
  }

  lemma EncodeFailsOpenable(s: System, id: Id, place: Place)
    requires Inv(s) && TidyInv(s) && Enabled(s, EncodeFails(id, place)) && Openable(s, s.calls[id].slot)
    ensures var k := s.calls[id].slot;
            k < |Next(s, EncodeFails(id, place)).slots| && Openable(Next(s, EncodeFails(id, place)), k)
  {
    hide NamesInv, CallsInv, OwnedInv, KnownOnce;
    var k := s.calls[id].slot;
    assert s.slots[k].call == Some(id);
  }

  lemma ReleasedOpenable(s: System, id: Id)
    requires SlotsInv(s) && Enabled(s, ReleaseSlot(id)) && Openable(s, s.calls[id].slot)
    ensures var t, k := Next(s, ReleaseSlot(id)), s.calls[id].slot;
            k < |t.slots| && Openable(t, k)
  {
    var k := s.calls[id].slot;
    assert s.slots[k].call == Some(id);
  }

  lemma AcquiredOpenable(s: System, k: nat)
    requires SlotsInv(s) && Enabled(s, Acquire(k)) && k < |s.slots| && Openable(s, k)
    ensures Openable(Next(s, Acquire(k)), k)
  {
  }

  lemma MovedOpenable(s: System, e: Step)
    requires Inv(s) && TidyInv(s) && Enabled(s, e) && SlotIn(s, e) < |s.slots| && Openable(s, SlotIn(s, e))
    requires !e.Encode? && !e.EncodeFails? && !e.ReleaseSlot? && !e.Acquire?
    ensures SlotIn(s, e) < |Next(s, e).slots| && Openable(Next(s, e), SlotIn(s, e))
  {
    hide Inv, TidyInv, FreedBy, Without;
    var k := SlotIn(s, e);
    CallInSlot(s, e);
    if s.slots[k].request.Some? { RequestStaysMapped(s, e, k, s.slots[k].request.value); }
  }

  lemma CallInSlot(s: System, e: Step)
    requires Inv(s) && Enabled(s, e) && !e.Acquire? && SlotIn(s, e) < |s.slots|
    ensures e.id in s.calls && s.slots[SlotIn(s, e)].call == Some(e.id)
  {
  }

  lemma InvSlots(s: System)
    requires Inv(s)
    ensures SlotsInv(s)
  {
  }

  lemma OpenableStep(s: System, e: Step)
    requires Inv(s) && TidyInv(s) && Enabled(s, e) && AllOpenable(s)
    ensures AllOpenable(Next(s, e))
  {
    SlotCount(s, e);
    var t := Next(s, e);
    assert |t.slots| > |s.slots| ==> t.slots[|s.slots|].request == None;
    forall k | 0 <= k < |t.slots| ensures Openable(t, k) {
      hide Inv, TidyInv, Enabled, Next;
      if k < |s.slots| {
        if k != SlotIn(s, e) { OtherOpenable(s, e, k); }
        else if e.Encode? { EncodedOpenable(s, e.id, e.place); }
        else if e.EncodeFails? { EncodeFailsOpenable(s, e.id, e.place); }
        else if e.ReleaseSlot? { InvSlots(s); ReleasedOpenable(s, e.id); }
        else if e.Acquire? { InvSlots(s); AcquiredOpenable(s, k); }
        else { MovedOpenable(s, e); }
      }
    }
  }

  // ---- response segments ----

  predicate RetiredOnWay(s: System, n: Name) {
    exists id <- s.calls :: RetiredBy(s.calls[id].stage) == Some(n)
  }

  /** The core has mapped only segments that the host still has, or that it is about to be told to unmap. */
  predicate ResponsesAccounted(s: System) {
    forall n <- s.responseMaps :: n in s.segments || RetiredOnWay(s, n)
  }

  /** No segment is retired by two answers. */
  predicate RetiredOnce(s: System) {
    forall i <- s.calls, j <- s.calls :: i != j && RetiredBy(s.calls[i].stage).Some? ==>
      RetiredBy(s.calls[i].stage) != RetiredBy(s.calls[j].stage)
  }

  /** What an error frame does not pass on. */
  function Unsaid(s: System, e: Step): Option<Name>
    requires Enabled(s, e)
  {
    if e.TooLong? then s.calls[e.id].stage.retired else None
  }

  /** The free segment that a response replaces. */
  function Replaced(e: Step): Option<Name> {
    if e.Choose? && (e.pick.Fresh? || e.pick.FreshFails?) then e.pick.replaced else None
  }

  /** The answer to a call retires what it did before, or what was just replaced for it. */
  lemma RetiredCame(s: System, e: Step, id: Id)
    requires Enabled(s, e) && id in Next(s, e).calls && RetiredBy(Next(s, e).calls[id].stage).Some?
    ensures || (id in s.calls && RetiredBy(s.calls[id].stage) == RetiredBy(Next(s, e).calls[id].stage))
            || (e.Choose? && e.id == id && Replaced(e) == RetiredBy(Next(s, e).calls[id].stage)
                && Replaced(e).value in s.segments)
  {
    hide With, Without, FreedBy, Encoded, Released;
    match e
    case Encode(i, place) => EncodedRetires(s, i, place, id);
    case EncodeFails(i, place) => EncodedRetires(s, i, place, id);
    case ReleaseSlot(i) => OnlyCallGoes(s, i);
    case _ =>
  }

  lemma EncodedRetires(s: System, id: Id, place: Place, o: Id)
    requires SlotOk(s, id)
    ensures var t := Encoded(s, id, place);
            && SlotOk(t, id) && t.calls.Keys == s.calls.Keys && t.calls[id].stage.RunSent?
            && (o in s.calls && o != id ==> t.calls[o] == s.calls[o])
            && forall failed, held :: Released(t, id, failed, held).calls == t.calls - {id}
  {
  }

  /** It goes on retiring it until the core is told, or told of an error instead. */
  lemma RetiredStays(s: System, e: Step, id: Id)
    requires Enabled(s, e) && id in s.calls && RetiredBy(s.calls[id].stage).Some?
    requires !((e.TooLong? || e.OpenResponse? || e.OpenFails?) && e.id == id) && s.nextId !in s.calls
    ensures id in Next(s, e).calls && RetiredBy(Next(s, e).calls[id].stage) == RetiredBy(s.calls[id].stage)
  {
    hide With, Without, FreedBy, Encoded, Released;
    match e
    case Encode(i, place) => EncodedRetires(s, i, place, id);
    case EncodeFails(i, place) => EncodedRetires(s, i, place, id);
    case ReleaseSlot(i) => OnlyCallGoes(s, i);
    case _ =>
  }

  lemma OnlyCallGoes(s: System, id: Id)
    requires Enabled(s, ReleaseSlot(id))
    ensures Next(s, ReleaseSlot(id)).calls == s.calls - {id}
  {
  }

  lemma RetiredOnceStep(s: System, e: Step)
    requires Inv(s) && Enabled(s, e) && RetiredOnce(s)
    ensures RetiredOnce(Next(s, e))
  {
    var t := Next(s, e);
    assert forall i <- s.calls :: ResponseInv(s, i);
    hide Next, Enabled, NamesInv, OwnedInv, RequestInv, SlotsInv;
    forall i <- t.calls, j <- t.calls | i != j && RetiredBy(t.calls[i].stage).Some?
      ensures RetiredBy(t.calls[i].stage) != RetiredBy(t.calls[j].stage)
    {
      RetiredCame(s, e, i);
      if RetiredBy(t.calls[j].stage).Some? { RetiredCame(s, e, j); }
    }
  }

  /** A segment that the host gives up is replaced for a response. */
  lemma SegmentGone(s: System, e: Step, n: Name)
    requires Enabled(s, e) && n in s.segments && n !in Next(s, e).segments
    ensures Replaced(e) == Some(n) && e.id in Next(s, e).calls
    ensures RetiredBy(Next(s, e).calls[e.id].stage) == Some(n)
  {
    hide Without, SlotReleased, Regrown;
  }

  lemma ResponseMapsStep(s: System, e: Step)
    requires Inv(s) && Enabled(s, e)
    ensures var tells := e.OpenResponse? || e.OpenFails?;
            Next(s, e).responseMaps ==
              s.responseMaps - (if tells then Opt(s.calls[e.id].stage.retired) else {}) +
              (if e.OpenResponse? then Opt(s.calls[e.id].stage.segment) else {})
    ensures e.OpenResponse? && s.calls[e.id].stage.segment.Some? ==> s.calls[e.id].stage.segment.value in s.segments
  {
    hide NamesInv, OwnedInv, RequestInv, FreedBy, SlotReleased, Regrown;
    if e.OpenResponse? { assert ResponseInv(s, e.id); }
  }

  /** What the host has, or has retired and not told, it has or has retired after the step, but for what is told, and
      for what an error frame leaves unsaid. */
  lemma SegmentStep(s: System, e: Step, n: Name)
    requires Inv(s) && Enabled(s, e) && Unsaid(s, e) != Some(n)
    requires n in s.segments || RetiredOnWay(s, n)
    requires e.OpenResponse? || e.OpenFails? ==> s.calls[e.id].stage.retired != Some(n)
    ensures n in Next(s, e).segments || RetiredOnWay(Next(s, e), n)
  {
    var t := Next(s, e);
    assert s.nextId !in s.calls;
    hide Next, Inv, Enabled;
    if n in s.segments {
      if n !in t.segments { SegmentGone(s, e, n); }
    } else {
      var id :| id in s.calls && RetiredBy(s.calls[id].stage) == Some(n);
      RetiredStays(s, e, id);
    }
  }

  /** A step keeps it exactly if it is no error frame in place of the one that would have retired a mapped segment. */
  lemma ResponsesStep(s: System, e: Step)
    requires Inv(s) && Enabled(s, e) && RetiredOnce(s) && ResponsesAccounted(s)
    ensures ResponsesAccounted(Next(s, e)) <==> !(Unsaid(s, e).Some? && Unsaid(s, e).value in s.responseMaps)
  {
    var t := Next(s, e);
    ResponseMapsStep(s, e);
    if Unsaid(s, e).Some? && Unsaid(s, e).value in s.responseMaps {
      var n := Unsaid(s, e).value;
      assert ResponseInv(s, e.id);
      assert n in t.responseMaps && n !in t.segments && !RetiredOnWay(t, n);
    } else {
      forall n | n in t.responseMaps ensures n in t.segments || RetiredOnWay(t, n) {
        if n in s.responseMaps { MappedStays(s, e, n); } else { OpenedIsThere(s, e, n); }
      }
    }
  }

  lemma MappedStays(s: System, e: Step, n: Name)
    requires Inv(s) && Enabled(s, e) && ResponsesAccounted(s)
    requires n in s.responseMaps && n in Next(s, e).responseMaps && Unsaid(s, e) != Some(n)
    ensures n in Next(s, e).segments || RetiredOnWay(Next(s, e), n)
  {
    ResponseMapsStep(s, e);
    if (e.OpenResponse? || e.OpenFails?) && s.calls[e.id].stage.retired == Some(n) {
      OpenedIsThere(s, e, n);
    } else {
      hide Next;
      SegmentStep(s, e, n);
    }
  }

  lemma OpenedIsThere(s: System, e: Step, n: Name)
    requires Inv(s) && Enabled(s, e) && e.OpenResponse? && s.calls[e.id].stage.segment == Some(n)
    ensures n in Next(s, e).segments
  {
    assert ResponseInv(s, e.id);
  }

  /** A Release that has arrived is done with: nothing is busy for its call any more. */
  lemma ReleaseArrives(s: System, id: Id, n: Name)
    requires Enabled(s, HostReleases(id))
    ensures var t := Next(s, HostReleases(id));
            && id !in t.releases && t.segments.Keys == s.segments.Keys
            && (n in s.segments && s.segments[n].busyId == id ==> t.segments[n] == s.segments[n].(busy := false))
            && (n in s.segments && s.segments[n].busyId != id ==> t.segments[n] == s.segments[n])
  {
  }

  // ---- every run ----

  predicate Accounted(s: System) {
    RequestsAccounted(s) && ResponsesAccounted(s)
  }

  /** No step of the run loses the name of a mapped segment: a request that cannot be encoded, or that the host refuses
      unread, while its slot has a segment to retire, or a response that is too long when it replaced a segment. */
  predicate NothingForgotten(s: System, steps: seq<Step>)
    requires Run(s, steps)
    decreases |steps|
  {
    steps != [] ==>
      && !(Dropped(s, steps[0]).Some? && Dropped(s, steps[0]).value in s.requestMaps)
      && !(Unsaid(s, steps[0]).Some? && Unsaid(s, steps[0]).value in s.responseMaps)
      && NothingForgotten(Next(s, steps[0]), steps[1..])
  }

  predicate AlwaysAccounted(s: System, steps: seq<Step>)
    requires Run(s, steps)
    decreases |steps|
  {
    Accounted(s) && (steps != [] ==> AlwaysAccounted(Next(s, steps[0]), steps[1..]))
  }

  lemma {:induction false} RunAccounts(s: System, steps: seq<Step>)
    requires Run(s, steps) && Inv(s) && TidyInv(s) && RetiredOnce(s) && AllOpenable(s)
    ensures AllOpenable(After(s, steps))
    ensures Accounted(s) ==> (AlwaysAccounted(s, steps) <==> NothingForgotten(s, steps))
    decreases |steps|
  {
    if steps != [] {
      var e := steps[0];
      assert SlotsInv(s) && NamesInv(s);
      hide Inv, TidyInv, RetiredOnce, AllOpenable, RequestsAccounted, ResponsesAccounted, Next, Enabled, SlotsInv;
      StepKeeps(s, e);
      TidyStep(s, e);
      RetiredOnceStep(s, e);
      OpenableStep(s, e);
      if Accounted(s) {
        RequestsStep(s, e);
        ResponsesStep(s, e);
      }
      RunAccounts(Next(s, e), steps[1..]);
    }
  }

  /** Over the life of a host: it can open every request segment it is told of; and each side has mapped only segments
      that the other still uses or will have it unmap, at all times, if and only if no name was lost. */
  lemma MapsAccounted(start: System, steps: seq<Step>, id: Id)
    requires FreshHost(start) && Run(start, steps)
    ensures AlwaysAccounted(start, steps) <==> NothingForgotten(start, steps)
    ensures var s := After(start, steps);
            id in s.calls && s.calls[id].stage.RunSent? && s.calls[id].stage.request.Some? ==>
              && SlotOk(s, id) && SlotOf(s, id).request == s.calls[id].stage.request
              && (SlotOf(s, id).named || s.calls[id].stage.request.value in s.requestMaps)
  {
    hide Run, After, AlwaysAccounted, NothingForgotten;
    RunAccounts(start, steps);
    RunKeeps(start, steps);
    var s := After(start, steps);
    if id in s.calls {
      assert RequestInv(s, id);
      assert SlotOk(s, id) ==> Openable(s, s.calls[id].slot);
    }
  }

  /** The next request of a slot that has a segment to retire cannot be encoded. */
  lemma LostByEncoding(s: System, n: Name) returns (steps: seq<Step>)
    requires s.slots == [Slot(None, None, false, Some(n))] && s.calls == map[] && n in s.requestMaps
    ensures Run(s, steps) && !RequestsAccounted(After(s, steps))
  {
    var id := s.nextId;
    var s1 := Next(s, Acquire(0));
    assert s1.slots == [Slot(Some(id), None, false, Some(n))] && s1.calls == map[id := Call(0, Encoding)];
    var s2 := Next(s1, EncodeFails(id, Inline));
    assert s2.slots == [Slot(None, None, false, None)] && s2.calls == map[] && n in s2.requestMaps;
    assert !KnownToCore(s2, n);
    assert After(s2, []) == s2;
    StepFirst(s1, EncodeFails(id, Inline), []);
    steps := [Acquire(0)] + ([EncodeFails(id, Inline)] + []);
    StepFirst(s, Acquire(0), [EncodeFails(id, Inline)] + []);
  }

  lemma LostAfterError(s: System, id: Id, n: Name) returns (steps: seq<Step>)
    requires s.slots == [Slot(Some(id), Some(n), true, None)] && s.calls == map[id := Call(0, Refused)]
    requires n in s.requestMaps
    ensures Run(s, steps) && !RequestsAccounted(After(s, steps))
  {
    var s1 := Next(s, OpenError(id));
    var s2 := Next(s1, ReleaseSlot(id));
    assert s2.slots == [Slot(None, None, false, Some(n))] && s2.calls == map[] && n in s2.requestMaps;
    var rest := LostByEncoding(s2, n);
    StepFirst(s1, ReleaseSlot(id), rest);
    steps := [OpenError(id)] + ([ReleaseSlot(id)] + rest);
    StepFirst(s, OpenError(id), [ReleaseSlot(id)] + rest);
  }

  /** A name can be lost: a request fails on the host and its segment is to be retired with the next one of the slot,
      but that one cannot be encoded. */
  lemma SegmentForgotten(start: System) returns (steps: seq<Step>)
    requires FreshHost(start) && start.slots == []
    ensures Run(start, steps) && !RequestsAccounted(After(start, steps))
  {
    var id := start.nextId;
    var s1 := Next(start, Acquire(0));
    assert s1.slots == [Slot(Some(id), None, false, None)] && s1.calls == map[id := Call(0, Encoding)];
    var rest := LostFromFirst(s1, id);
    steps := [Acquire(0)] + rest;
    StepFirst(start, Acquire(0), rest);
  }

  lemma LostFromFirst(s: System, id: Id) returns (steps: seq<Step>)
    requires s.slots == [Slot(Some(id), None, false, None)] && s.calls == map[id := Call(0, Encoding)]
    ensures Run(s, steps) && !RequestsAccounted(After(s, steps))
  {
    var n := s.nextName;
    var s1 := Next(s, Encode(id, Grow));
    assert s1.slots == [Slot(Some(id), Some(n), true, None)];
    assert s1.calls == map[id := Call(0, RunSent(Some(n), None))];
    var s2 := Next(s1, Start(id));
    var s3 := Next(s2, RunFails(id));
    assert s3.calls == map[id := Call(0, Refused)] && n in s3.requestMaps && s3.slots == s1.slots;
    var rest := LostAfterError(s3, id, n);
    StepFirst(s2, RunFails(id), rest);
    StepFirst(s1, Start(id), [RunFails(id)] + rest);
    steps := [Encode(id, Grow)] + ([Start(id)] + ([RunFails(id)] + rest));
    StepFirst(s, Encode(id, Grow), [Start(id)] + ([RunFails(id)] + rest));
  }

  lemma StepFirst(s: System, e: Step, steps: seq<Step>)
    requires Enabled(s, e) && Run(Next(s, e), steps)
    ensures Run(s, [e] + steps) && After(s, [e] + steps) == After(Next(s, e), steps)
  {
    assert ([e] + steps)[1..] == steps;
  }
}
