/** Shared-memory segments that the core and one host pass to each other. Messages may arrive in any order, which
    includes the order of the pipes. */
module ShmOwnership {
  import opened Options

  /** Segment names: never used twice. */
  type Name = nat
  /** Call numbers: never used twice. */
  type Id = nat

  /** Where a call is. RunSent is the Run frame in the pipe or the queue, Answered and Refused the final frame in the
      pipe or the inbox, Open from the decoded response to the release of the slot. */
  datatype Stage =
    | Encoding
    | RunSent(request: Option<Name>, retire: Option<Name>)
    | Running(request: Option<Name>)
    | Writing(request: Option<Name>, segment: Option<Name>, retired: Option<Name>)
    | Answered(segment: Option<Name>, retired: Option<Name>)
    | Refused
    | Open(segment: Option<Name>, refused: bool)

  datatype Call = Call(slot: nat, stage: Stage)

  /** The core's pooled slots: the call in it, its own request segment, whether that still has a name, and the segment
      to retire with the next Run. */
  datatype Slot = Slot(call: Option<Id>, request: Option<Name>, named: bool, retire: Option<Name>)

  /** The host's response segments; `written` is the call whose payload is in it. */
  datatype Segment = Segment(busy: bool, busyId: Id, written: Id)

  datatype System = System(
    slots: seq<Slot>, calls: map<Id, Call>, nextId: Id, nextName: Name,
    requestData: map<Name, Id>,      // whose payload is in a request segment
    requestMaps: set<Name>,          // request segments the host has mapped
    segments: map<Name, Segment>,    // the host's response segments
    responseMaps: set<Name>,         // response segments the core has mapped
    releases: set<Id>)               // Release frames on their way

  datatype Place = Inline | Reuse | Grow | GrowFails
  datatype Pick = NoSegment | Use(name: Name) | Fresh(replaced: Option<Name>) | FreshFails(replaced: Option<Name>)

  datatype Step =
    | Acquire(slot: nat)
    | Encode(id: Id, place: Place) | EncodeFails(id: Id, place: Place)
    | Start(id: Id) | StartFails(id: Id, early: bool) // early: before the frame was looked into
    | RunFails(id: Id) | Choose(id: Id, pick: Pick)
    | Respond(id: Id) | TooLong(id: Id)
    | OpenResponse(id: Id) | OpenFails(id: Id) | OpenError(id: Id)
    | ReleaseSlot(id: Id)
    | HostReleases(id: Id)

  predicate At(s: System, id: Id, stage: Stage) {
    id in s.calls && s.calls[id].stage == stage
  }

  predicate Free(s: System, n: Name) {
    n in s.segments && !s.segments[n].busy
  }

  predicate PickAllowed(s: System, pick: Pick) {
    match pick
    case NoSegment => true
    case Use(n) => Free(s, n)
    case Fresh(replaced) => replaced.Some? ==> Free(s, replaced.value)
    case FreshFails(replaced) => replaced.Some? ==> Free(s, replaced.value)
  }

  predicate Enabled(s: System, e: Step) {
    match e
    case Acquire(k) => k <= |s.slots| && (k < |s.slots| ==> s.slots[k].call.None?)
    case Encode(id, place) => At(s, id, Encoding) && SlotOk(s, id) && (place.Reuse? ==> SlotOf(s, id).request.Some?)
    case EncodeFails(id, place) => At(s, id, Encoding) && SlotOk(s, id) &&
      (place.Reuse? ==> SlotOf(s, id).request.Some?)
    case Start(id) => id in s.calls && s.calls[id].stage.RunSent?
    case StartFails(id, _) => id in s.calls && s.calls[id].stage.RunSent?
    case RunFails(id) => id in s.calls && s.calls[id].stage.Running?
    case Choose(id, pick) => id in s.calls && s.calls[id].stage.Running? && PickAllowed(s, pick)
    case Respond(id) => id in s.calls && s.calls[id].stage.Writing?
    case TooLong(id) => id in s.calls && s.calls[id].stage.Writing?
    case OpenResponse(id) => id in s.calls && s.calls[id].stage.Answered?
    case OpenFails(id) => id in s.calls && s.calls[id].stage.Answered? && s.calls[id].stage.segment.Some?
    case OpenError(id) => id in s.calls && s.calls[id].stage.Refused?
    case ReleaseSlot(id) => id in s.calls && s.calls[id].stage.Open? && SlotOk(s, id)
    case HostReleases(id) => id in s.releases
  }

  predicate SlotOk(s: System, id: Id) {
    id in s.calls && s.calls[id].slot < |s.slots|
  }

  function SlotOf(s: System, id: Id): Slot
    requires SlotOk(s, id)
  {
    s.slots[s.calls[id].slot]
  }

  function Stages(s: System, id: Id, stage: Stage): System
    requires id in s.calls
  {
    s.(calls := s.calls[id := s.calls[id].(stage := stage)])
  }

  function Without<T>(names: set<T>, n: Option<T>): set<T> {
    if n.Some? then names - {n.value} else names
  }

  function With<T>(names: set<T>, n: Option<T>): set<T> {
    if n.Some? then names + {n.value} else names
  }

  /** The slot's segment is replaced by `grown`, or by none, and is to be retired. */
  function Regrown(slot: Slot, grown: Option<Name>): Slot {
    slot.(request := grown, named := grown.Some?, retire := if slot.request.Some? then slot.request else slot.retire)
  }

  /** Encoding a request: the payload goes into the segment that the place gives. */
  function Encoded(s: System, id: Id, place: Place): System
    requires SlotOk(s, id)
  {
    var k := s.calls[id].slot;
    var slot := s.slots[k];
    match place
    case Inline => Stages(s, id, RunSent(None, slot.retire)).(slots := s.slots[k := slot.(retire := None)])
    case Reuse => Loaded(s, id, slot)
    case Grow => Loaded(s.(nextName := s.nextName + 1), id, Regrown(slot, Some(s.nextName)))
    case GrowFails => Loaded(s, id, Regrown(slot, None))
  }

  function Loaded(s: System, id: Id, slot: Slot): System
    requires SlotOk(s, id)
  {
    Stages(s, id, RunSent(slot.request, slot.retire)).(
      slots := s.slots[s.calls[id].slot := slot.(retire := None)],
      requestData := if slot.request.Some? then s.requestData[slot.request.value := id] else s.requestData)
  }

  /** Giving the slot back; a named segment that the host may not have mapped is not used again. */
  function SlotReleased(slot: Slot, failed: bool): Slot {
    if slot.request.Some? && slot.named then
      if failed then Slot(None, None, false, slot.request) else Slot(None, slot.request, false, slot.retire)
    else slot.(call := None)
  }

  function Released(s: System, id: Id, failed: bool, held: bool): System
    requires SlotOk(s, id)
  {
    var k := s.calls[id].slot;
    s.(calls := s.calls - {id}, slots := s.slots[k := SlotReleased(s.slots[k], failed)],
       releases := if held then s.releases + {id} else s.releases)
  }

  function Chosen(s: System, id: Id, pick: Pick): System
    requires id in s.calls && s.calls[id].stage.Running?
  {
    var request := s.calls[id].stage.request;
    var taken := Segment(true, id, id);
    match pick
    case NoSegment => Stages(s, id, Writing(request, None, None))
    case Use(n) => Stages(s, id, Writing(request, Some(n), None)).(segments := s.segments[n := taken])
    case Fresh(replaced) =>
      Stages(s, id, Writing(request, Some(s.nextName), replaced)).(
        segments := (s.segments - With({}, replaced))[s.nextName := taken], nextName := s.nextName + 1)
    case FreshFails(replaced) =>
      Stages(s, id, Writing(request, None, replaced)).(segments := s.segments - With({}, replaced))
  }

  /** Release marks every segment of that call free. */
  function FreedBy(segments: map<Name, Segment>, id: Id): (r: map<Name, Segment>)
    ensures r.Keys == segments.Keys
  {
    map n | n in segments ::
      if segments[n].busy && segments[n].busyId == id then segments[n].(busy := false) else segments[n]
  }

  function Next(s: System, e: Step): System
    requires Enabled(s, e)
  {
    match e
    case Acquire(k) =>
      var slot := if k < |s.slots| then s.slots[k].(call := Some(s.nextId))
        else Slot(Some(s.nextId), None, false, None);
      s.(slots := if k < |s.slots| then s.slots[k := slot] else s.slots + [slot],
         calls := s.calls[s.nextId := Call(k, Encoding)], nextId := s.nextId + 1)
    case Encode(id, place) => Encoded(s, id, place)
    case EncodeFails(id, place) => Released(Encoded(s, id, place), id, true, false)
    case Start(id) =>
      var stage := s.calls[id].stage;
      Stages(s, id, Running(stage.request)).(requestMaps := With(Without(s.requestMaps, stage.retire), stage.request))
    case StartFails(id, early) =>
      var retire := if early then None else s.calls[id].stage.retire;
      Stages(s, id, Refused).(requestMaps := Without(s.requestMaps, retire))
    case RunFails(id) => Stages(s, id, Refused)
    case Choose(id, pick) => Chosen(s, id, pick)
    case Respond(id) =>
      var stage := s.calls[id].stage;
      Stages(s, id, Answered(stage.segment, stage.retired))
    case TooLong(id) =>
      var n := s.calls[id].stage.segment;
      Stages(s, id, Refused).(
        segments :=
          if n.None? || n.value !in s.segments then s.segments
          else s.segments[n.value := s.segments[n.value].(busy := false)])
    case OpenResponse(id) =>
      var stage := s.calls[id].stage;
      var maps := With(Without(s.responseMaps, stage.retired), stage.segment);
      Stages(s, id, Open(stage.segment, false)).(responseMaps := maps)
    case OpenFails(id) =>
      Stages(s, id, Open(None, false)).(
        responseMaps := Without(s.responseMaps, s.calls[id].stage.retired), releases := s.releases + {id})
    case OpenError(id) => Stages(s, id, Open(None, true))
    case ReleaseSlot(id) => Released(s, id, s.calls[id].stage.refused, s.calls[id].stage.segment.Some?)
    case HostReleases(id) => s.(releases := s.releases - {id}, segments := FreedBy(s.segments, id))
  }

  // ---- what holds in every state ----

  /** The request segment that a host run of this call may read. */
  function ReadBy(stage: Stage): Option<Name> {
    match stage
    case RunSent(request, _) => request
    case Running(request) => request
    case Writing(request, _, _) => request
    case _ => None
  }

  /** The response segment that this call owns. */
  function OwnedBy(stage: Stage): Option<Name> {
    match stage
    case Writing(_, segment, _) => segment
    case Answered(segment, _) => segment
    case Open(segment, _) => segment
    case _ => None
  }

  function RetiredBy(stage: Stage): Option<Name> {
    match stage
    case Writing(_, _, retired) => retired
    case Answered(_, retired) => retired
    case _ => None
  }

  predicate IsRequest(s: System, n: Name) {
    exists k :: 0 <= k < |s.slots| && s.slots[k].request == Some(n)
  }

  predicate SlotsInv(s: System) {
    && (forall k :: 0 <= k < |s.slots| && s.slots[k].call.Some? ==>
          s.slots[k].call.value in s.calls && s.calls[s.slots[k].call.value].slot == k)
    && (forall id <- s.calls :: SlotOk(s, id) && SlotOf(s, id).call == Some(id) && id < s.nextId)
  }

  predicate NamesInv(s: System) {
    && (forall i, j :: 0 <= i < j < |s.slots| && s.slots[i].request.Some? ==> s.slots[i].request != s.slots[j].request)
    && (forall k :: 0 <= k < |s.slots| && s.slots[k].request.Some? ==> s.slots[k].request.value < s.nextName)
    && (forall k :: 0 <= k < |s.slots| && s.slots[k].retire.Some? ==>
          s.slots[k].retire.value < s.nextName && !IsRequest(s, s.slots[k].retire.value))
    && (forall n <- s.segments :: n < s.nextName)
  }

  /** A run that may read a request segment finds its own payload there, and the segment is the slot's and not
      retired. */
  predicate RequestInv(s: System, id: Id)
    requires id in s.calls
  {
    var stage := s.calls[id].stage;
    && (ReadBy(stage).Some? ==>
          && ReadBy(stage).value in s.requestData && s.requestData[ReadBy(stage).value] == id
          && SlotOk(s, id) && SlotOf(s, id).request == ReadBy(stage)
          && (!stage.RunSent? ==> ReadBy(stage).value in s.requestMaps))
    && (stage.RunSent? && stage.retire.Some? ==> stage.retire.value < s.nextName && !IsRequest(s, stage.retire.value))
  }

  /** A response segment that a call owns is marked with it and holds its payload; a retired one is out of the table. */
  predicate ResponseInv(s: System, id: Id)
    requires id in s.calls
  {
    var stage := s.calls[id].stage;
    && (OwnedBy(stage).Some? ==>
          OwnedBy(stage).value in s.segments && s.segments[OwnedBy(stage).value] == Segment(true, id, id))
    && (RetiredBy(stage).Some? ==> RetiredBy(stage).value !in s.segments && RetiredBy(stage).value < s.nextName)
    && (stage.Open? && stage.segment.Some? ==> stage.segment.value in s.responseMaps)
    && (id in s.releases ==> stage == Open(None, false))
  }

  /** A busy segment belongs to a call, or its Release is on the way. */
  predicate OwnedInv(s: System) {
    forall n <- s.segments :: s.segments[n].busy ==>
      || s.segments[n].busyId in s.releases
      || (s.segments[n].busyId in s.calls && OwnedBy(s.calls[s.segments[n].busyId].stage) == Some(n))
  }

  predicate CallsInv(s: System) {
    && (forall id <- s.calls :: RequestInv(s, id))
    && (forall id <- s.calls :: ResponseInv(s, id))
    && (forall id <- s.releases :: id < s.nextId)
  }

  predicate Inv(s: System) {
    SlotsInv(s) && NamesInv(s) && CallsInv(s) && OwnedInv(s)
  }
}
