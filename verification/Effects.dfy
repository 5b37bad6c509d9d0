/** What each operation and callback does to the state, said without the functions that compute it: by constructors,
    literals, and what single contacts, registrations and documents come to. */
module Effects {
  import opened Text
  import opened Capabilities
  import opened Reginfo
  import opened Multimap
  import opened World
  import opened Invariants
  import opened Lifecycle
  import opened Runs
  import opened Histories

  /** Nothing happened but that one subscription made some calls on its room. */
  ghost predicate Said(w: World, w': World, s: nat, calls: seq<RoomCall>) {
    s in w.subs && w' == w.(subs := w.subs[s := w.subs[s].(calls := w.subs[s].calls + calls)])
  }

  function AcceptedOf(sub: Sub, devices: seq<Device>): seq<Device> {
    Compatible(sub.check, sub.room.capabilities, devices)
  }

  // ---- The registrar ----

  /** A fetch that completes while its subscription is active makes it tell its room one list: the devices of the record
      that the room accepts, none without a record. Otherwise, or if it fails, it is only over. */
  lemma FetchTellsTheRecord(w: World, s: nat, found: Option<Record>)
    requires Reachable(w)
    ensures Inv(w)
    ensures var w' := Step(w, FetchCompletes(s, found));
            var over := w.(fetches := w.fetches - {s});
            if s in w.fetches && s in w.subs && w.subs[s].active then
              var devices := if found.Some? then AcceptedOf(w.subs[s], Identities(found.value)) else [];
              Said(over, w', s, [SetParticipantDevices(devices)])
            else w' == over
    ensures Step(w, FetchFails(s)) == w.(fetches := w.fetches - {s})
  {
    hide CoreInv, StoreOk, ObserversOk, RegistrarOk, Reachable;
    ReachableIsOk(w);
    FetchesAreOfSubscriptions(w);
    if s in w.fetches {
      RecordTold(w.subs[s], found);
      assert w.subs[s].active || w.subs[s := w.subs[s]] == w.subs;
    }
  }

  lemma FetchesAreOfSubscriptions(w: World)
    requires RegistrarOk(w.subs, Stored(w), w.listeners, w.fetches)
    ensures forall s | s in w.fetches :: s in w.subs
    ensures forall s | s in w.subs && w.subs[s].active :: w.subs[s].kind.Own? && w.subs[s].participant.aor != ""
  {
  }

  lemma RecordTold(sub: Sub, found: Option<Record>)
    ensures !sub.active ==> HearRecord(sub, found) == sub
    ensures sub.active ==>
              var devices := if found.Some? then AcceptedOf(sub, Identities(found.value)) else [];
              HearRecord(sub, found) == sub.(calls := sub.calls + [SetParticipantDevices(devices)])
  {
    if found.Some? {
      OwnAndExternalPathsAgree(sub.check, sub.room.capabilities, found.value);
    }
  }

  /** The id designates a contact, the first with that id, that has a public GRUU and that the room accepts. */
  ghost predicate Announces(sub: Sub, record: Record, uid: string, k: nat, address: string) {
    uid != "" && FirstWithId(record, uid, k) && record[k].pubGruu == Some(address) &&
    IsContactCompatible(sub.check, sub.room.capabilities, record[k].specs)
  }

  /** A registration reported to an active subscription makes it tell its room the list first, and then, if the id
      designates an accepted device, that this device, which is in the list, has registered. Others are not touched. */
  lemma RegistrationIsTold(w: World, s: nat, record: Record, uid: string)
    requires Reachable(w)
    ensures Inv(w)
    ensures !(s in w.subs && w.subs[s].active) ==> Step(w, ContactRegisters(s, record, uid)) == w
    ensures s in w.subs && w.subs[s].active ==>
              var w' := Step(w, ContactRegisters(s, record, uid));
              var devices := AcceptedOf(w.subs[s], Identities(record));
              (forall k, a | Announces(w.subs[s], record, uid, k, a) ::
                 Said(w, w', s, [SetParticipantDevices(devices), NotifyDeviceRegistration(a)]) &&
                 exists d :: d in devices && d.address == a) &&
              ((forall k, a :: !Announces(w.subs[s], record, uid, k, a)) ==>
                 Said(w, w', s, [SetParticipantDevices(devices)]))
  {
    hide CoreInv, StoreOk, ObserversOk, RegistrarOk, Reachable, Announces, HearRegistration;
    ReachableIsOk(w);
    FetchesAreOfSubscriptions(w);
    if s in w.subs && w.subs[s].active {
      RegistrationTold(w.subs[s], record, uid);
    } else if s in w.subs {
      InactiveIsSilent(w.subs[s], record, uid);
      assert w.subs[s := w.subs[s]] == w.subs;
    }
  }

  lemma InactiveIsSilent(sub: Sub, record: Record, uid: string)
    requires !sub.active
    ensures HearRegistration(sub, record, uid) == sub
  {
  }

  lemma RegistrationTold(sub: Sub, record: Record, uid: string)
    requires sub.active
    ensures var devices := AcceptedOf(sub, Identities(record));
            var told := HearRegistration(sub, record, uid);
            (forall k, a | Announces(sub, record, uid, k, a) ::
               told == sub.(calls := sub.calls + [SetParticipantDevices(devices), NotifyDeviceRegistration(a)]) &&
               exists d :: d in devices && d.address == a) &&
            ((forall k, a :: !Announces(sub, record, uid, k, a)) ==>
               told == sub.(calls := sub.calls + [SetParticipantDevices(devices)]))
  {
    hide Extract, IsContactCompatible, OwnDevices, Identities, Compatible, HearRecord;
    var check, room := sub.check, sub.room.capabilities;
    var devices := AcceptedOf(sub, Identities(record));
    RecordTold(sub, Some(record));
    OwnAndExternalPathsAgree(check, room, record);
    AnnouncedExactly(sub, record, uid);
    if Announced(check, room, record, uid).Some? {
      var a := Announced(check, room, record, uid).value;
      AnnouncedIsListed(check, room, record, uid);
      assert sub.calls + [SetParticipantDevices(devices)] + [NotifyDeviceRegistration(a)] ==
             sub.calls + [SetParticipantDevices(devices), NotifyDeviceRegistration(a)];
    }
  }

  lemma AnnouncedExactly(sub: Sub, record: Record, uid: string)
    ensures var announced := Announced(sub.check, sub.room.capabilities, record, uid);
            (forall k, a | Announces(sub, record, uid, k, a) :: announced == Some(a)) &&
            (announced.Some? ==> exists k :: Announces(sub, record, uid, k, announced.value))
  {
    hide Extract, IsContactCompatible;
    ExtractIsFirst(record, uid);
    forall k, j | FirstWithId(record, uid, k) && FirstWithId(record, uid, j) ensures k == j {
    }
    var announced := Announced(sub.check, sub.room.capabilities, record, uid);
    if announced.Some? {
      var k :| 0 <= k < |record| && record[k] == Extract(record, uid).value && FirstWithId(record, uid, k);
      assert Announces(sub, record, uid, k, announced.value);
    }
  }

  // ---- Dialog states ----

  /** `Terminated` and `Error` end the dialog: the event loses its data and is terminated, once; the client forgets the
      event and its list. Every other state leaves everything as it is. */
  lemma StatesOfADialog(w: World, e: nat, c: nat)
    requires Reachable(w) && e in w.events && w.events[e].data == Some(c)
    ensures Inv(w) && c in w.clients
    ensures forall state | state == Ended || state == Failed ::
              Step(w, StateOf(e, state)) ==
              w.(events := w.events[e := Dialog(None, 1)],
                 clients := w.clients[c := w.clients[c].(dialog := None, devices := [])])
    ensures Step(w, StateOf(e, Idle)) == w && Step(w, StateOf(e, OutgoingProgress)) == w
    ensures Step(w, StateOf(e, IncomingReceived)) == w && Step(w, StateOf(e, Pending)) == w
    ensures Step(w, StateOf(e, Established)) == w && Step(w, StateOf(e, Expiring)) == w
  {
    hide Inv, Reachable, StateChanged;
    ReachableIsOk(w);
    EventFacts(w, e);
    forall state {
      StateStep(w, e, c, state);
    }
  }

  lemma StateStep(w: World, e: nat, c: nat, state: DialogState)
    requires Inv(w) && IsEventOf(w, e, c)
    ensures Dispatchable(w, e) && HasDialog(w, c) && w.clients[c].dialog == Some(e)
    ensures StateChanged(w, e, state) == if state == Ended || state == Failed then DialogEnded(w, c) else w
  {
    hide Inv, DialogEnded;
    EventFacts(w, e);
    if Final(state) {
      EndOfDialog(w, c, state);
    }
    assert StateChanged(w, e, state) == ClientStateChanged(w, c, state);
  }

  /** An event without data is nobody's dialog any more: whatever comes in on it changes nothing. */
  lemma NothingFromDeadDialogs(w: World, e: nat, state: DialogState, body: Body)
    requires Reachable(w) && (e in w.events ==> w.events[e].data == None)
    ensures Inv(w) && Step(w, StateOf(e, state)) == w && Step(w, NotifyOn(e, body)) == w
  {
    hide Inv, Reachable;
    ReachableIsOk(w);
  }

  // ---- Documents ----

  lemma UnreadBodiesChangeNothing(w: World, e: nat)
    requires Reachable(w)
    ensures Inv(w) && Step(w, NotifyOn(e, NoBody)) == w && Step(w, NotifyOn(e, Unparseable)) == w
  {
    hide Inv, Reachable;
    ReachableIsOk(w);
  }

  lemma StepReads(w: World, e: nat, c: nat, doc: Document)
    requires Inv(w) && IsEventOf(w, e, c)
    ensures c in w.clients && Inv(Step(w, NotifyOn(e, Parsed(doc))))
    ensures Step(w, NotifyOn(e, Parsed(doc))) == ClientNotify(w, c, doc)
  {
    hide Inv, ClientNotify;
    EventFacts(w, e);
    StepKeepsInv(w, NotifyOn(e, Parsed(doc)));
  }

  /** A document is read registration by registration, until one of the client's AOR is terminated; what comes after
      that is not read. So a document is what its registrations are, one by one. */
  lemma DocumentsAreReadInPieces(w: World, e: nat, c: nat, xs: Document, ys: Document)
    requires Reachable(w) && IsEventOf(w, e, c)
    ensures Inv(w) && c in w.clients && Inv(Step(w, NotifyOn(e, Parsed(xs))))
    ensures Step(w, NotifyOn(e, Parsed([]))) == w
    ensures Step(w, NotifyOn(e, Parsed(xs + ys))) ==
            if forall r | r in xs && r.aor == w.clients[c].to.uri :: r.state != Terminated
            then Step(Step(w, NotifyOn(e, Parsed(xs))), NotifyOn(e, Parsed(ys)))
            else Step(w, NotifyOn(e, Parsed(xs)))
  {
    hide Inv, Reachable, ClientNotify, Step;
    ReachableIsOk(w);
    StepReads(w, e, c, []);
    StepReads(w, e, c, xs);
    StepReads(w, e, c, xs + ys);
    ReadingNothing(w, c);
    ReadingInPieces(w, c, xs, ys);
    StillItsEvent(w, e, c, xs);
    StepReads(ClientNotify(w, c, xs), e, c, ys);
  }

  lemma StillItsEvent(w: World, e: nat, c: nat, doc: Document)
    requires c in w.clients && IsEventOf(w, e, c)
    ensures IsEventOf(ClientNotify(w, c, doc), e, c)
  {
  }

  lemma ReadingNothing(w: World, c: nat)
    requires c in w.clients
    ensures ClientNotify(w, c, []) == w
  {
    hide Deliver;
    ReadingStarts(w, c);
    ReadingEnds(w, c, []);
  }

  lemma ReadingInPieces(w: World, c: nat, xs: Document, ys: Document)
    requires c in w.clients
    ensures c in ClientNotify(w, c, xs).clients
    ensures ClientNotify(w, c, xs + ys) ==
            if Continues(xs, w.clients[c].to.uri) then ClientNotify(ClientNotify(w, c, xs), c, ys)
            else ClientNotify(w, c, xs)
  {
    hide Deliver, Processed, MessagesOf, Continues, Listed;
    var st := w.clients[c];
    var aor := st.to.uri;
    var ms, d1 := Messages(xs, aor), CacheAfter(xs, aor, st.devices);
    var ns, d2 := Messages(ys, aor), CacheAfter(ys, aor, d1);
    ProcessedSplits(xs, ys, aor);
    assert Processed(xs, aor) + [] == Processed(xs, aor);
    MessagesOfSplits(Processed(xs, aor), Processed(ys, aor));
    ReadingChains(w, c, ms, d1, ns, d2);
  }

  /** Whether a registration has a device that is not refreshed. */
  predicate HasNews(contacts: seq<Contact>) {
    exists i :: 0 <= i < |contacts| && Devices([contacts[i]]) != [] && contacts[i].event != Refreshed
  }

  function Announcements(devices: seq<Device>): seq<RoomCall> {
    seq(|devices|, i requires 0 <= i < |devices| => NotifyDeviceRegistration(devices[i].address))
  }

  /** What a room is told about one registration of its client's AOR: an empty list if it is terminated; else each of
      the refreshed devices that it accepts has registered, in order, and then, if some device is not refreshed, the
      list. */
  function Heard(sub: Sub, r: Registration): seq<RoomCall> {
    if r.state == Terminated then [SetParticipantDevices([])] else
      Announcements(AcceptedOf(sub, RefreshedDevices(r.contacts)))
      + if HasNews(r.contacts) then [SetParticipantDevices(AcceptedOf(sub, Devices(r.contacts)))] else []
  }

  /** A registration of another AOR changes nothing. One of the client's AOR replaces the client's list, and those who
      observe the client, and nobody else, tell their rooms about it. */
  lemma OneRegistrationIsRead(w: World, e: nat, c: nat, r: Registration)
    requires Reachable(w) && IsEventOf(w, e, c)
    ensures Inv(w) && c in w.clients
    ensures r.aor != w.clients[c].to.uri ==> Step(w, NotifyOn(e, Parsed([r]))) == w
    ensures r.aor == w.clients[c].to.uri ==>
              var w' := Step(w, NotifyOn(e, Parsed([r])));
              var devices := if r.state == Terminated then [] else Devices(r.contacts);
              w' == w.(subs := w'.subs, clients := w.clients[c := w.clients[c].(devices := devices)]) &&
              w'.subs.Keys == w.subs.Keys &&
              forall s | s in w.subs ::
                w'.subs[s] == if s in w.clients[c].observers
                              then w.subs[s].(calls := w.subs[s].calls + Heard(w.subs[s], r)) else w.subs[s]
  {
    hide Inv, Reachable, Step, ClientNotify, Heard;
    ReachableIsOk(w);
    StepReads(w, e, c, [r]);
    ReadingNothing(w, c);
    OneRegistration(w, c, r);
  }

  lemma OneRegistration(w: World, c: nat, r: Registration)
    requires c in w.clients
    ensures r.aor != w.clients[c].to.uri ==> ClientNotify(w, c, [r]) == ClientNotify(w, c, [])
    ensures r.aor == w.clients[c].to.uri ==>
              var w' := ClientNotify(w, c, [r]);
              var devices := if r.state == Terminated then [] else Devices(r.contacts);
              w' == w.(subs := w'.subs, clients := w.clients[c := w.clients[c].(devices := devices)]) &&
              w'.subs.Keys == w.subs.Keys &&
              forall s | s in w.subs ::
                w'.subs[s] == if s in w.clients[c].observers
                              then w.subs[s].(calls := w.subs[s].calls + Heard(w.subs[s], r)) else w.subs[s]
  {
    hide Heard, Translate, MessagesAbout, Devices;
    assert Processed([r], w.clients[c].to.uri) == if r.aor == w.clients[c].to.uri then [r] else [];
    MessagesOfOneMore([], r);
    assert [] + MessagesAbout(r) == MessagesAbout(r);
    forall s | s in w.subs ensures Translate(w.subs[s], MessagesAbout(r)) == Heard(w.subs[s], r) {
      RegistrationIsHeard(w.subs[s], r);
    }
  }

  lemma RegistrationIsHeard(sub: Sub, r: Registration)
    ensures Translate(sub, MessagesAbout(r)) == Heard(sub, r)
  {
    hide Devices, RefreshedDevices, IsContactCompatible;
    if r.state == Terminated {
      OneSnapshotIsHeard(sub, []);
    } else {
      var ms := RefreshMessages(RefreshedDevices(r.contacts));
      RefreshesAreHeard(sub, RefreshedDevices(r.contacts));
      NewsAreCounted(r.contacts);
      OneSnapshotIsHeard(sub, Devices(r.contacts));
      TranslateSplits(sub, ms, [Snapshot(Devices(r.contacts))]);
      assert ms + [] == ms;
    }
  }

  lemma OneSnapshotIsHeard(sub: Sub, devices: seq<Device>)
    ensures Translate(sub, [Snapshot(devices)]) == [SetParticipantDevices(AcceptedOf(sub, devices))]
  {
    hide Compatible;
    assert [Snapshot(devices)][..0] == [];
  }

  lemma {:induction false} RefreshesAreHeard(sub: Sub, devices: seq<Device>)
    ensures Translate(sub, RefreshMessages(devices)) == Announcements(AcceptedOf(sub, devices))
  {
    hide IsContactCompatible;
    if devices != [] {
      var init, last := devices[..|devices| - 1], devices[|devices| - 1];
      RefreshesAreHeard(sub, init);
      CompatibleSplits(sub.check, sub.room.capabilities, init, [last]);
      assert devices == init + [last];
      assert RefreshMessages(devices)[..|devices| - 1] == RefreshMessages(init);
      assert AcceptedOf(sub, [last]) ==
             if IsContactCompatible(sub.check, sub.room.capabilities, last.specs) then [last] else [];
      assert AcceptedOf(sub, init) + [] == AcceptedOf(sub, init);
      assert Announcements(AcceptedOf(sub, init) + [last]) ==
             Announcements(AcceptedOf(sub, init)) + [NotifyDeviceRegistration(last.address)];
    }
  }

  lemma NewsAreCounted(contacts: seq<Contact>)
    ensures HasNews(contacts) <==> |RefreshedDevices(contacts)| < |Devices(contacts)|
  {
    RefreshAccounting(contacts);
    forall c: Contact ensures Devices([c]) != [] <==> DeviceOf(c).Some? {
      assert [c][..0] == [];
    }
    if HasNews(contacts) {
      var i :| 0 <= i < |contacts| && Devices([contacts[i]]) != [] && contacts[i].event != Refreshed;
      assert BringsNews(contacts[i]);
    }
  }

  // ---- Subscribing ----

  /** Some stored subscription is for this room, under this user and domain. */
  ghost predicate Has(w: World, room: ChatRoom, a: Address) {
    exists i | 0 <= i < |w.store| :: HasAt(w, i, room, a)
  }

  ghost predicate HasAt(w: World, i: nat, room: ChatRoom, a: Address) {
    i < |w.store| && w.store[i].key == a.user + "@" + a.domain &&
    w.store[i].value in w.subs && w.subs[w.store[i].value].room == room
  }

  /** One new subscription has been stored under its key, for the room and the participant; the others keep what they
      have said. */
  ghost predicate Created(w: World, w': World, s: nat, room: ChatRoom, a: Address) {
    s !in w.subs && w'.subs.Keys == w.subs.Keys + {s} && w'.config == w.config &&
    (exists k | 0 <= k <= |w.store| :: w'.store == w.store[..k] + [Entry(a.user + "@" + a.domain, s)] + w.store[k..]) &&
    w'.subs[s].room == room && w'.subs[s].participant == a && w'.subs[s].check == w.config.check &&
    forall t | t in w.subs :: w'.subs[t] == w.subs[t].(mark := w'.subs[t].mark)
  }

  /** It is of the own kind, and has said nothing; with an AOR it is active, is fetching, and listens to the registrar;
      without one, none of that. Clients and dialogs are not touched. */
  ghost predicate OwnStarted(w: World, w': World, s: nat, a: Address)
    requires s in w'.subs
  {
    w'.subs[s].kind == Own && w'.subs[s].calls == [] &&
    (w'.subs[s].active <==> a.aor != "") &&
    w'.listeners == (if a.aor != "" then w.listeners + {s} else w.listeners) &&
    w'.fetches == (if a.aor != "" then w.fetches + {s} else w.fetches) &&
    w'.clients == w.clients && w'.events == w.events && w'.cache == w.cache &&
    w'.useCount == w.useCount && w'.coreCalls == w.coreCalls
  }

  /** It is of the external kind, holds and observes the client of the URI, which is the live one if there was one, and
      which is cached. Other clients are not touched. */
  ghost predicate ClientJoined(w: World, w': World, s: nat, c: nat, a: Address) {
    s in w'.subs && w'.subs[s].kind == External(c) && !w'.subs[s].active &&
    w'.listeners == w.listeners && w'.fetches == w.fetches && w'.cache == w.cache[a.ordered := c] &&
    c in w'.clients && w'.clients[c].to.ordered == a.ordered && w'.clients - {c} == w.clients - {c} &&
    (forall d | d in w.clients && w.clients[d].to.ordered == a.ordered :: d == c) &&
    (if c in w.clients
     then w'.clients[c].to == w.clients[c].to && w'.clients[c].observers == w.clients[c].observers + {s} &&
          w'.clients[c].strong == w.clients[c].strong + 1
     else w'.clients[c].to == a && w'.clients[c].observers == {s} && w'.clients[c].strong == 1)
  }

  /** If the client has a dialog, the room is told its list, filtered, and nothing else happens. If not, the room is
      told nothing, and one dialog is opened, which ends at once if it is answered so. */
  ghost predicate Replayed(w: World, w': World, s: nat, c: nat)
    requires s in w'.subs && c in w'.clients && c in w.clients
  {
    w'.subs[s].calls == [SetParticipantDevices(AcceptedOf(w'.subs[s], w.clients[c].devices))] &&
    w'.events == w.events && w'.clients[c].dialog == w.clients[c].dialog &&
    w'.clients[c].devices == w.clients[c].devices
  }

  ghost predicate Opened(w: World, w': World, s: nat, c: nat, e: nat, answer: DialogState)
    requires s in w'.subs && c in w'.clients
  {
    w'.subs[s].calls == [] && e !in w.events &&
    if answer == Ended || answer == Failed
    then w'.events == w.events[e := Dialog(None, 1)] && w'.clients[c].dialog == None && w'.clients[c].devices == []
    else w'.events == w.events[e := Dialog(Some(c), 0)] && w'.clients[c].dialog == Some(e) &&
         w'.clients[c].devices == if c in w.clients then w.clients[c].devices else []
  }

  ghost predicate ExternalStarted(w: World, w': World, s: nat, a: Address, answer: DialogState) {
    exists c ::
      ClientJoined(w, w', s, c, a) &&
      if c in w.clients && w.clients[c].dialog.Some? then Replayed(w, w', s, c)
      else exists e :: Opened(w, w', s, c, e, answer)
  }

  /** Subscribing a pair that is stored changes nothing. Otherwise exactly one subscription is created, stored and
      started, of the own kind if the domain is local and of the external kind if not; afterwards the pair is stored. */
  lemma SubscribingStoresAndStarts(w: World, room: ChatRoom, a: Address, answer: DialogState)
    requires Reachable(w)
    ensures Inv(w)
    ensures Has(Step(w, SubscribeTo(room, a, answer)), room, a)
    ensures Has(w, room, a) ==> Step(w, SubscribeTo(room, a, answer)) == w
    ensures !Has(w, room, a) ==>
              var w' := Step(w, SubscribeTo(room, a, answer));
              exists s ::
                Created(w, w', s, room, a) && Stored(w') == Stored(w) + {s} && s !in Stored(w) &&
                if a.domain in w.config.localDomains then OwnStarted(w, w', s, a)
                else ExternalStarted(w, w', s, a, answer)
  {
    hide Inv, Reachable, Has, Subscribed, Created, OwnStarted, ExternalStarted, SubscribeOwn, SubscribeExternal, Stored;
    ReachableIsOk(w);
    HasIsSubscribed(w, room, a);
    if !Has(w, room, a) {
      if a.domain in w.config.localDomains {
        OwnIsStarted(w, room, a);
        CreatedIsStored(w, SubscribeOwn(w, room, a), w.next, room, a);
      } else {
        ExternalIsStarted(w, room, a, answer);
        var s :| Created(w, SubscribeExternal(w, room, a, answer), s, room, a) &&
                 ExternalStarted(w, SubscribeExternal(w, room, a, answer), s, a, answer);
        CreatedIsStored(w, SubscribeExternal(w, room, a, answer), s, room, a);
      }
    }
  }

  lemma HasIsSubscribed(w: World, room: ChatRoom, a: Address)
    ensures Has(w, room, a) <==> Subscribed(w, room, a)
  {
    assert forall i: nat :: HasAt(w, i, room, a) <==> Matches(w, i, room, SubscriptionKey(a));
  }

  lemma CreatedIsStored(w: World, w': World, s: nat, room: ChatRoom, a: Address)
    requires Created(w, w', s, room, a) && Inv(w)
    ensures Has(w', room, a) && Stored(w') == Stored(w) + {s} && s !in Stored(w)
  {
    hide CountsOk, AliveOk, ObserversOk, DialogsOk, UseOk, CacheOk, RegistrarOk, SubsOk, SharedOk, IdsOk, StoreOk,
         Values;
    StoredAreNotNew(w, Stored(w), s);
    hide HoldersOk;
    var k :| 0 <= k <= |w.store| &&
             w'.store == w.store[..k] + [Entry(a.user + "@" + a.domain, s)] + w.store[k..];
    assert HasAt(w', k, room, a);
    ValuesWithOneMore(w.store, k, Entry(a.user + "@" + a.domain, s));
  }

  lemma ValuesWithOneMore(store: Store, k: nat, e: Entry<nat>)
    requires k <= |store|
    ensures Values(store[..k] + [e] + store[k..]) == Values(store) + {e.value}
  {
    var r := store[..k] + [e] + store[k..];
    assert r[k] == e;
    forall j | 0 <= j < |store| ensures store[j].value in Values(r) {
      assert r[if j < k then j else j + 1] == store[j];
    }
  }

  lemma OwnIsStarted(w: World, room: ChatRoom, a: Address)
    requires Inv(w)
    ensures Created(w, SubscribeOwn(w, room, a), w.next, room, a)
    ensures OwnStarted(w, SubscribeOwn(w, room, a), w.next, a)
  {
    hide CoreInv, StoreOk, ObserversOk, RegistrarOk, Insert, Sorted;
    NumbersAreNew(w);
    InsertGoesAfterItsEquals(w.store, Entry(SubscriptionKey(a), w.next));
  }

  lemma NumbersAreNew(w: World)
    requires Inv(w)
    ensures w.next !in w.subs && w.next !in w.clients && w.next !in w.events && Sorted(Keys(w.store))
    ensures w.next + 1 !in w.subs && w.next + 1 !in w.events && w.next + 2 !in w.events
  {
    hide CountsOk, AliveOk, HoldersOk, ObserversOk, DialogsOk, UseOk, CacheOk, RegistrarOk, SubsOk, SharedOk;
  }

  /** The state in which the new subscription asks its client to subscribe. */
  ghost predicate AboutToSubscribe(w: World, w1: World, s: nat, c: nat, room: ChatRoom, a: Address) {
    Created(w, w1, s, room, a) && w1.subs == w.subs[s := Sub(room, a, w.config.check, External(c), false, [], 0)] &&
    ClientJoined(w, w1, s, c, a) && w1.events == w.events && w1.next !in w1.events &&
    (if c in w.clients then w1.clients[c].dialog == w.clients[c].dialog && w1.clients[c].devices == w.clients[c].devices
     else w1.clients[c].dialog == None && w1.clients[c].devices == [])
  }

  lemma JoinIsComplete(w: World, room: ChatRoom, a: Address)
    requires Inv(w)
    ensures var (w2, c) := AcquireClient(w, a);
            AboutToSubscribe(w, JoinExternal(w, room, a), w2.next, c, room, a)
  {
    hide CoreInv, StoreOk, ObserversOk, RegistrarOk, AcquireClient, Insert, Sorted, FoundOrCreated, Reachable;
    AcquiredInInv(w, a);
    NumbersAreNew(w);
    AcquiringKeeps(w, a);
    InsertGoesAfterItsEquals(w.store, Entry(SubscriptionKey(a), AcquireClient(w, a).0.next));
    JoinFromAcquired(w, room, a);
  }

  lemma AcquiredInInv(w: World, a: Address)
    requires Inv(w)
    ensures FoundOrCreated(w, a, AcquireClient(w, a).0, AcquireClient(w, a).1)
  {
    hide StoreOk, CountsOk, HoldersOk, ObserversOk, DialogsOk, UseOk, CacheOk, AliveOk, IdsOk, RegistrarOk, SubsOk,
         SharedOk, AcquireClient, FoundOrCreated;
    AcquiredFromCache(w, a);
  }

  lemma AcquiringKeeps(w: World, a: Address)
    ensures var w2 := AcquireClient(w, a).0;
            w2.store == w.store && w2.subs == w.subs && w2.config == w.config && w2.events == w.events &&
            w2.listeners == w.listeners && w2.fetches == w.fetches && (w2.next == w.next || w2.next == w.next + 1)
  {
  }

  lemma JoinFromAcquired(w: World, room: ChatRoom, a: Address)
    requires FoundOrCreated(w, a, AcquireClient(w, a).0, AcquireClient(w, a).1)
    requires w.next !in w.subs && w.next + 1 !in w.subs
    requires w.next !in w.events && w.next + 1 !in w.events && w.next + 2 !in w.events
    requires var w2 := AcquireClient(w, a).0;
             w2.store == w.store && w2.subs == w.subs && w2.config == w.config && w2.events == w.events &&
             w2.listeners == w.listeners && w2.fetches == w.fetches && (w2.next == w.next || w2.next == w.next + 1)
    requires exists k | 0 <= k <= |w.store| ::
               var e := Entry(SubscriptionKey(a), AcquireClient(w, a).0.next);
               Insert(w.store, e) == w.store[..k] + [e] + w.store[k..]
    ensures var (w2, c) := AcquireClient(w, a);
            AboutToSubscribe(w, JoinExternal(w, room, a), w2.next, c, room, a)
  {
    hide AcquireClient, Insert;
  }

  lemma ExternalIsStarted(w: World, room: ChatRoom, a: Address, answer: DialogState)
    requires Inv(w) && !IsLocal(w, a) && !Subscribed(w, room, a)
    ensures var w' := SubscribeExternal(w, room, a, answer);
            exists s :: Created(w, w', s, room, a) && ExternalStarted(w, w', s, a, answer)
  {
    hide Inv, Subscribed, Created, ExternalStarted, AcquireClient, JoinExternal, ClientSubscribe, AboutToSubscribe;
    var (w2, c) := AcquireClient(w, a);
    var w1 := JoinExternal(w, room, a);
    JoinIsComplete(w, room, a);
    JoinExternalKeepsInv(w, room, a);
    JoinIsJoined(w, room, a);
    ClientSubscribeStarts(w, w1, w2.next, c, room, a, answer);
    assert SubscribeExternal(w, room, a, answer) == ClientSubscribe(w1, c, w2.next, answer);
  }

  lemma ClientSubscribeStarts(w: World, w1: World, s: nat, c: nat, room: ChatRoom, a: Address, answer: DialogState)
    requires AboutToSubscribe(w, w1, s, c, room, a) && Inv(w1) && c in w1.clients
    ensures var w' := ClientSubscribe(w1, c, s, answer);
            Created(w, w', s, room, a) && ExternalStarted(w, w', s, a, answer)
  {
    hide Inv, Deliver, OpenDialog, StateChanged, DialogEnded, AboutToSubscribe, Created, ExternalStarted;
    AboutTo(w, w1, s, c, room, a);
    if w1.clients[c].dialog.Some? {
      SnapshotIsOneCall(w1, s, w1.clients[c].devices);
      ReplayStarts(w, w1, s, c, room, a, answer);
    } else {
      OpenDialogKeepsInv(w1, c);
      OpenedEvent(w1, c);
      var w3 := OpenDialog(w1, c);
      StateStep(w3, w1.next, c, answer);
      if answer == Ended || answer == Failed {
        EndedStarts(w, w1, s, c, room, a, answer);
      } else {
        OpenStarts(w, w1, s, c, room, a, answer);
      }
    }
  }

  lemma AboutTo(w: World, w1: World, s: nat, c: nat, room: ChatRoom, a: Address)
    requires AboutToSubscribe(w, w1, s, c, room, a)
    ensures s in w1.subs && c in w1.clients && w1.events == w.events && w1.next !in w.events
    ensures c in w.clients ==>
              w1.clients[c].dialog == w.clients[c].dialog && w1.clients[c].devices == w.clients[c].devices
    ensures c !in w.clients ==> w1.clients[c].dialog == None && w1.clients[c].devices == []
  {
  }

  lemma OpenedEvent(w: World, c: nat)
    requires c in w.clients
    ensures IsEventOf(OpenDialog(w, c), w.next, c)
  {
  }

  lemma ReplayStarts(w: World, w1: World, s: nat, c: nat, room: ChatRoom, a: Address, answer: DialogState)
    requires AboutToSubscribe(w, w1, s, c, room, a) && w1.clients[c].dialog.Some?
    ensures var call := SetParticipantDevices(AcceptedOf(w1.subs[s], w1.clients[c].devices));
            var w' := CallRoom(w1, s, [call]);
            Created(w, w', s, room, a) && ExternalStarted(w, w', s, a, answer)
  {
    hide Compatible;
    var call := SetParticipantDevices(AcceptedOf(w1.subs[s], w1.clients[c].devices));
    var w' := CallRoom(w1, s, [call]);
    assert [] + [call] == [call];
    assert ClientJoined(w, w', s, c, a) && Replayed(w, w', s, c);
  }

  lemma OpenStarts(w: World, w1: World, s: nat, c: nat, room: ChatRoom, a: Address, answer: DialogState)
    requires AboutToSubscribe(w, w1, s, c, room, a) && w1.clients[c].dialog.None?
    requires answer != Ended && answer != Failed
    ensures var w' := OpenDialog(w1, c);
            Created(w, w', s, room, a) && ExternalStarted(w, w', s, a, answer)
  {
    hide Created, ClientJoined, AboutToSubscribe, ExternalStarted;
    AboutTo(w, w1, s, c, room, a);
    var w' := OpenDialog(w1, c);
    OpeningKeepsCreated(w, w1, w', s, c, room, a);
    assert Opened(w, w', s, c, w1.next, answer);
    OpenedIsStarted(w, w', s, c, w1.next, a, answer);
  }

  lemma EndedStarts(w: World, w1: World, s: nat, c: nat, room: ChatRoom, a: Address, answer: DialogState)
    requires AboutToSubscribe(w, w1, s, c, room, a) && w1.clients[c].dialog.None?
    requires answer == Ended || answer == Failed
    ensures var w3 := OpenDialog(w1, c);
            HasDialog(w3, c) &&
            var w' := DialogEnded(w3, c);
            Created(w, w', s, room, a) && ExternalStarted(w, w', s, a, answer)
  {
    hide Created, ClientJoined, AboutToSubscribe, ExternalStarted;
    AboutTo(w, w1, s, c, room, a);
    var w' := DialogEnded(OpenDialog(w1, c), c);
    OpeningKeepsCreated(w, w1, w', s, c, room, a);
    assert Opened(w, w', s, c, w1.next, answer);
    OpenedIsStarted(w, w', s, c, w1.next, a, answer);
  }

  lemma OpenedIsStarted(w: World, w': World, s: nat, c: nat, e: nat, a: Address, answer: DialogState)
    requires ClientJoined(w, w', s, c, a) && (c in w.clients ==> w.clients[c].dialog.None?)
    requires s in w'.subs && c in w'.clients && Opened(w, w', s, c, e, answer)
    ensures ExternalStarted(w, w', s, a, answer)
  {
    hide ClientJoined, Opened;
  }

  /** Marks move, and the client's dialog and list change; nothing else that a creation or a joining speaks of. */
  lemma OpeningKeepsCreated(w: World, w1: World, w': World, s: nat, c: nat, room: ChatRoom, a: Address)
    requires AboutToSubscribe(w, w1, s, c, room, a)
    requires w'.subs.Keys == w1.subs.Keys
    requires forall t | t in w1.subs :: w'.subs[t] == w1.subs[t].(mark := w'.subs[t].mark)
    requires w'.config == w1.config && w'.store == w1.store && w'.listeners == w1.listeners &&
             w'.fetches == w1.fetches && w'.cache == w1.cache
    requires c in w'.clients && w'.clients == w1.clients[c := w'.clients[c]] &&
             w'.clients[c] == w1.clients[c].(dialog := w'.clients[c].dialog, devices := w'.clients[c].devices)
    ensures Created(w, w', s, room, a) && ClientJoined(w, w', s, c, a) && w'.subs[s].calls == []
  {
    assert w'.clients - {c} == w1.clients - {c};
  }
}
