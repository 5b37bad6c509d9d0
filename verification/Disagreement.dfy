/** Two runs in which rooms that follow one participant do not agree with the client, or with each other: what goes
    wrong when a registration whose devices are all refreshed does not list what the client lists. */
module Disagreement {
  import opened Text
  import opened Capabilities
  import opened Reginfo
  import opened Multimap
  import opened World
  import opened Invariants
  import opened Runs
  import opened Views

  const CONFIG: Config := Config([], false)
  const URI: string := "sip:p@example.org"
  const PARTICIPANT: Address := Address("p", "example.org", URI, URI, URI)
  const EARLY: ChatRoom := ChatRoom(0, {})
  const LATE: ChatRoom := ChatRoom(1, {})
  const PHONE: Device := Device("sip:p@example.org;gr=phone", "", "groupchat")
  const TABLET: Device := Device("sip:p@example.org;gr=tablet", "", "groupchat")

  /** A document with one registration of the participant, which has one device. */
  function OneDevice(d: Device, event: ContactEvent): Document {
    [Registration(URI, Active, [Contact(d.address, None, event, [Param(SPECS_PARAM, d.specs)])])]
  }

  /** The early room opens the dialog; the late room joins and is told the list, which is still empty; then the first
      document arrives, and its one device is refreshed. */
  const LATE_ROOM_STAYS_BEHIND: seq<Op> := [
    SubscribeTo(EARLY, PARTICIPANT, Pending),
    SubscribeTo(LATE, PARTICIPANT, Pending),
    NotifyOn(2, Parsed(OneDevice(PHONE, Refreshed)))
  ]

  /** The early room opens the dialog and is told of one device; then another device takes its place, refreshed; then
      the late room joins. */
  const ROOMS_PART: seq<Op> := [
    SubscribeTo(EARLY, PARTICIPANT, Pending),
    NotifyOn(2, Parsed(OneDevice(PHONE, Created))),
    NotifyOn(2, Parsed(OneDevice(TABLET, Refreshed))),
    SubscribeTo(LATE, PARTICIPANT, Pending)
  ]

  // ---- The states these runs go through ----

  function SubOf(room: ChatRoom, calls: seq<RoomCall>): Sub {
    Sub(room, PARTICIPANT, false, External(0), false, calls, 0)
  }

  function OneRoom(calls: seq<RoomCall>, devices: seq<Device>): World {
    World(CONFIG, [Entry("p@example.org", 1)], map[1 := SubOf(EARLY, calls)],
          map[0 := ClientState(PARTICIPANT, Some(2), devices, {1}, 1)], map[2 := Dialog(Some(0), 0)], map[URI := 0],
          1, true, [AddListener], {}, {}, 3)
  }

  function TwoRooms(calls: seq<RoomCall>, late: seq<RoomCall>, devices: seq<Device>): World {
    OneRoom(calls, devices).(
      store := [Entry("p@example.org", 1), Entry("p@example.org", 3)],
      subs := map[1 := SubOf(EARLY, calls), 3 := SubOf(LATE, late)],
      clients := map[0 := ClientState(PARTICIPANT, Some(2), devices, {1, 3}, 2)],
      next := 4)
  }

  lemma EarlyRoomJoins()
    ensures Subscribe(Start(CONFIG), EARLY, PARTICIPANT, Pending) == OneRoom([], [])
  {
    var w := Start(CONFIG);
    var (w1, c) := AcquireClient(w, PARTICIPANT);
    assert SubscriptionKey(PARTICIPANT) == "p@example.org";
    assert Insert(w1.store, Entry("p@example.org", 1)) == [Entry("p@example.org", 1)];
    var w2 := JoinExternal(w, EARLY, PARTICIPANT);
    assert w2.clients[0].observers == {1};
    assert OpenDialog(w2, 0) == OneRoom([], []);
  }

  lemma LateRoomJoins(calls: seq<RoomCall>, devices: seq<Device>)
    ensures Subscribe(OneRoom(calls, devices), LATE, PARTICIPANT, Pending) ==
            TwoRooms(calls, [SetParticipantDevices(devices)], devices)
  {
    hide Deliver, JoinExternal;
    var w := OneRoom(calls, devices);
    assert !Subscribed(w, LATE, PARTICIPANT);
    LateRoomIsAdded(calls, devices);
    SnapshotIsOneCall(TwoRooms(calls, [], devices), 3, devices);
    UncheckedAcceptsEverything({}, devices);
    assert [] + [SetParticipantDevices(devices)] == [SetParticipantDevices(devices)];
    var r := CallRoom(TwoRooms(calls, [], devices), 3, [SetParticipantDevices(devices)]);
    assert r.subs == TwoRooms(calls, [SetParticipantDevices(devices)], devices).subs;
  }

  lemma LateRoomIsAdded(calls: seq<RoomCall>, devices: seq<Device>)
    ensures JoinExternal(OneRoom(calls, devices), LATE, PARTICIPANT) == TwoRooms(calls, [], devices)
    ensures AcquireClient(OneRoom(calls, devices), PARTICIPANT).0.next == 3
    ensures AcquireClient(OneRoom(calls, devices), PARTICIPANT).1 == 0
  {
    hide Insert, Less;
    var w := OneRoom(calls, devices);
    assert SubscriptionKey(PARTICIPANT) == "p@example.org";
    var (w1, c) := AcquireClient(w, PARTICIPANT);
    InsertedSecond();
    assert JoinExternal(w, LATE, PARTICIPANT).clients[0].observers == {1, 3};
  }

  lemma InsertedSecond()
    ensures Insert([Entry("p@example.org", 1 as nat)], Entry("p@example.org", 3 as nat)) ==
            [Entry("p@example.org", 1), Entry("p@example.org", 3)]
  {
    hide Less;
    assert Keys([Entry("p@example.org", 1 as nat)]) == ["p@example.org"];
    LessIrreflexive("p@example.org");
    UpperBoundIsUnique(["p@example.org"], "p@example.org", 1);
  }

  // ---- The documents ----

  lemma ReadingOneDevice(d: Device, event: ContactEvent, cache: seq<Device>)
    requires d.name == "" && Unquote(d.specs) == d.specs
    ensures Messages(OneDevice(d, event), URI) == [if event.Refreshed? then RefreshOf(d) else Snapshot([d])]
    ensures CacheAfter(OneDevice(d, event), URI, cache) == [d]
  {
    hide Devices, RefreshedDevices, DeviceOf, RefreshMessages;
    var r := OneDevice(d, event)[0];
    TheDeviceOf(d, event);
    OneContact(r.contacts[0], d);
    OneRefresh(d);
    assert Processed([r], URI) == [r] + Processed([r][1..], URI) == [r];
    assert [r][..0] == [] && MessagesOf([r]) == MessagesOf([]) + MessagesAbout(r);
  }

  lemma TheDeviceOf(d: Device, event: ContactEvent)
    requires d.name == "" && Unquote(d.specs) == d.specs
    ensures DeviceOf(OneDevice(d, event)[0].contacts[0]) == Some(d)
  {
  }

  lemma OneRefresh(d: Device)
    ensures RefreshMessages([d]) == [RefreshOf(d)] && RefreshMessages([]) == []
  {
  }

  lemma OneContact(c: Contact, d: Device)
    requires DeviceOf(c) == Some(d)
    ensures Devices([c]) == [d] && RefreshedDevices([c]) == if c.event.Refreshed? then [d] else []
  {
    hide DeviceOf;
    assert [c][..0] == [];
  }

  /** A room that accepts everything is told what the document brings. */
  function CallsAbout(d: Device, event: ContactEvent): seq<RoomCall> {
    [if event.Refreshed? then NotifyDeviceRegistration(d.address) else SetParticipantDevices([d])]
  }

  lemma HearingOneDevice(sub: Sub, d: Device, event: ContactEvent)
    requires d.name == "" && Unquote(d.specs) == d.specs && !sub.check
    ensures Hear(sub, Messages(OneDevice(d, event), URI)) == sub.(calls := sub.calls + CallsAbout(d, event))
  {
    hide Messages, IsContactCompatible, Unquote;
    ReadingOneDevice(d, event, []);
    UncheckedAcceptsEverything(sub.room.capabilities, [d]);
    var m := Messages(OneDevice(d, event), URI)[0];
    assert [m][..0] == [];
    assert Translate(sub, [m]) == Translate(sub, []) + CallsFor(sub, m);
    AnythingGoes(sub.room.capabilities, d.specs);
  }

  lemma AnythingGoes(room: Mask, specs: string)
    ensures IsContactCompatible(false, room, specs)
  {
  }

  lemma OneRoomReads(calls: seq<RoomCall>, devices: seq<Device>, d: Device, event: ContactEvent)
    requires d.name == "" && Unquote(d.specs) == d.specs
    ensures NotifyReceived(OneRoom(calls, devices), 2, Parsed(OneDevice(d, event))) ==
            OneRoom(calls + CallsAbout(d, event), [d])
  {
    hide Messages, CacheAfter, Hear, Unquote;
    ReadingOneDevice(d, event, devices);
    HearingOneDevice(SubOf(EARLY, calls), d, event);
  }

  lemma TwoRoomsRead(calls: seq<RoomCall>, late: seq<RoomCall>, devices: seq<Device>, d: Device, event: ContactEvent)
    requires d.name == "" && Unquote(d.specs) == d.specs
    ensures NotifyReceived(TwoRooms(calls, late, devices), 2, Parsed(OneDevice(d, event))) ==
            TwoRooms(calls + CallsAbout(d, event), late + CallsAbout(d, event), [d])
  {
    hide Messages, CacheAfter, Hear, Unquote;
    ReadingOneDevice(d, event, devices);
    HearingOneDevice(SubOf(EARLY, calls), d, event);
    HearingOneDevice(SubOf(LATE, late), d, event);
  }

  // ---- The runs ----

  ghost function StateAfter(ops: seq<Op>): World {
    StartIsOk(CONFIG);
    Run(Start(CONFIG), ops)
  }

  lemma RunOne(w: World, ops: seq<Op>)
    requires Inv(w) && ops != []
    ensures Inv(Step(w, ops[0])) && Run(w, ops) == Run(Step(w, ops[0]), ops[1..])
  {
    hide Inv, Step;
    StepKeepsInv(w, ops[0]);
  }

  /** In the end the client lists the phone. The late room was told an empty list last, the early room none at all. */
  lemma LateRoomStaysBehind()
    ensures var w := StateAfter(LATE_ROOM_STAYS_BEHIND);
            0 in w.clients && w.clients[0].devices == [PHONE] && 1 in w.subs && 3 in w.subs &&
            View(w.subs[3]) == Some([]) && View(w.subs[1]) == None
    ensures !AgreesFromStart(CONFIG, LATE_ROOM_STAYS_BEHIND)
  {
    hide Inv, View, Run, AgreesFromStart;
    BehindAfterThreeSteps();
    BehindViews();
    if AgreesFromStart(CONFIG, LATE_ROOM_STAYS_BEHIND) {
      AgreementReachesTheEnd(CONFIG, LATE_ROOM_STAYS_BEHIND);
      assert View(StateAfter(LATE_ROOM_STAYS_BEHIND).subs[3]).value == [];
      UncheckedAcceptsEverything({}, [PHONE]);
      assert false;
    }
  }

  function Behind(): World {
    TwoRooms([NotifyDeviceRegistration(PHONE.address)],
             [SetParticipantDevices([]), NotifyDeviceRegistration(PHONE.address)], [PHONE])
  }

  lemma BehindAfterThreeSteps()
    ensures StateAfter(LATE_ROOM_STAYS_BEHIND) == Behind()
  {
    hide Inv, Start, OneRoom, TwoRooms, Subscribe, NotifyReceived;
    var ops := LATE_ROOM_STAYS_BEHIND;
    StartIsOk(CONFIG);
    EarlyRoomJoins();
    LateRoomJoins([], []);
    TwoRoomsRead([], [SetParticipantDevices([])], [], PHONE, Refreshed);
    RunOne(Start(CONFIG), ops);
    RunOne(OneRoom([], []), ops[1..]);
    DialogIsThere([], [SetParticipantDevices([])], []);
    RunOne(TwoRooms([], [SetParticipantDevices([])], []), ops[1..][1..]);
    assert [] + CallsAbout(PHONE, Refreshed) == [NotifyDeviceRegistration(PHONE.address)];
    assert [SetParticipantDevices([])] + CallsAbout(PHONE, Refreshed) ==
           [SetParticipantDevices([]), NotifyDeviceRegistration(PHONE.address)];
  }

  lemma DialogIsThere(calls: seq<RoomCall>, late: seq<RoomCall>, devices: seq<Device>)
    ensures 2 in OneRoom(calls, devices).events && 2 in TwoRooms(calls, late, devices).events
  {
  }

  lemma BehindViews()
    ensures 1 in Behind().subs && 3 in Behind().subs
    ensures View(Behind().subs[3]) == Some([]) && View(Behind().subs[1]) == None
  {
    var early, late := Behind().subs[1], Behind().subs[3];
    assert early.calls[0..] == early.calls && late.calls[0..] == late.calls;
    LastSetOfOne(NotifyDeviceRegistration(PHONE.address));
    LastSetBeforeRegistration([], PHONE.address);
  }

  lemma LastSetOfOne(call: RoomCall)
    ensures LastSet([call]) == if call.SetParticipantDevices? then Some(call.devices) else None
  {
    assert [call][..0] == [];
  }

  lemma LastSetBeforeRegistration(devices: seq<Device>, device: string)
    ensures LastSet([SetParticipantDevices(devices), NotifyDeviceRegistration(device)]) == Some(devices)
  {
    assert [SetParticipantDevices(devices), NotifyDeviceRegistration(device)][..1] == [SetParticipantDevices(devices)];
  }

  /** Rooms with the same capabilities, which follow the same participant through the same dialog, were told different
      lists: whether a room joined early or late makes a difference if documents are not faithful. */
  lemma RoomsPart()
    ensures var w := StateAfter(ROOMS_PART);
            Following(w, 1) && Following(w, 3) &&
            w.subs[1].participant == w.subs[3].participant && w.subs[1].kind == w.subs[3].kind &&
            w.subs[1].room.capabilities == w.subs[3].room.capabilities &&
            View(w.subs[1]) == Some([PHONE]) && View(w.subs[3]) == Some([TABLET]) && View(w.subs[1]) != View(w.subs[3])
  {
    hide Inv, View, Run;
    PartedAfterFourSteps();
    PartedViews();
    assert Parted().store[0].value == 1 && Parted().store[1].value == 3;
  }

  function Parted(): World {
    TwoRooms([SetParticipantDevices([PHONE]), NotifyDeviceRegistration(TABLET.address)],
             [SetParticipantDevices([TABLET])], [TABLET])
  }

  lemma PartedAfterFourSteps()
    ensures StateAfter(ROOMS_PART) == Parted()
  {
    hide Inv, Start, OneRoom, TwoRooms, Subscribe, NotifyReceived;
    var ops := ROOMS_PART;
    var told := [SetParticipantDevices([PHONE])];
    StartIsOk(CONFIG);
    EarlyRoomJoins();
    OneRoomReads([], [], PHONE, Created);
    OneRoomReads(told, [PHONE], TABLET, Refreshed);
    LateRoomJoins(told + [NotifyDeviceRegistration(TABLET.address)], [TABLET]);
    assert [] + CallsAbout(PHONE, Created) == told;
    RunOne(Start(CONFIG), ops);
    DialogIsThere([], [], []);
    RunOne(OneRoom([], []), ops[1..]);
    DialogIsThere(told, [], [PHONE]);
    RunOne(OneRoom(told, [PHONE]), ops[1..][1..]);
    RunOne(OneRoom(told + [NotifyDeviceRegistration(TABLET.address)], [TABLET]), ops[1..][1..][1..]);
    assert told + [NotifyDeviceRegistration(TABLET.address)] ==
           [SetParticipantDevices([PHONE]), NotifyDeviceRegistration(TABLET.address)];
  }

  lemma PartedViews()
    ensures 1 in Parted().subs && 3 in Parted().subs
    ensures View(Parted().subs[1]) == Some([PHONE]) && View(Parted().subs[3]) == Some([TABLET])
  {
    var early, late := Parted().subs[1], Parted().subs[3];
    assert early.calls[0..] == early.calls && late.calls[0..] == late.calls;
    LastSetOfOne(SetParticipantDevices([TABLET]));
    LastSetBeforeRegistration([PHONE], TABLET.address);
  }
}
