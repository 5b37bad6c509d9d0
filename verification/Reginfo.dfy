/** Registration information: the parsed `reginfo` document of a NOTIFY (RFC 3680, section 5.1), the messages a client
    sends its listeners while it reads one, the device list it caches, and the registrar's records. */
module Reginfo {
  import opened Text
  import opened Capabilities

  const SPECS_PARAM: string := "+org.linphone.specs"

  datatype Param = Param(name: string, value: string)
  datatype ContactEvent = Registered | Created | Refreshed | Shortened | Expired | Deactivated | Probation
                        | Unregistered | Rejected
  datatype Contact = Contact(uri: string, displayName: Option<string>, event: ContactEvent, params: seq<Param>)
  datatype RegistrationState = Init | Active | Terminated
  datatype Registration = Registration(aor: string, state: RegistrationState, contacts: seq<Contact>)
  type Document = seq<Registration>

  /** The content of a NOTIFY: absent, not parseable, or a document. */
  datatype Body = NoBody | Unparseable | Parsed(document: Document)

  /** What a `ClientListener` is told. */
  datatype Message = Snapshot(devices: seq<Device>) | RefreshOf(device: Device)

  // ---- Reading one registration ----

  /** The first specs parameter of a contact, if any. */
  function SpecsOf(params: seq<Param>): Option<string> {
    if params == [] then None
    else if params[0].name == SPECS_PARAM then Some(params[0].value)
    else SpecsOf(params[1..])
  }

  function DisplayName(c: Contact): string {
    if c.displayName.Some? then c.displayName.value else ""
  }

  /** At most one device per contact. */
  function DeviceOf(c: Contact): Option<Device> {
    match SpecsOf(c.params)
    case None => None
    case Some(specs) => Some(Device(c.uri, DisplayName(c), Unquote(specs)))
  }

  /** The devices of the contacts, in document order. */
  function Devices(contacts: seq<Contact>): seq<Device> {
    if contacts == [] then [] else
      var before := Devices(contacts[..|contacts| - 1]);
      match DeviceOf(contacts[|contacts| - 1])
      case None => before
      case Some(d) => before + [d]
  }

  /** The devices of the refreshed contacts, in document order. */
  function RefreshedDevices(contacts: seq<Contact>): seq<Device> {
    if contacts == [] then [] else
      var before := RefreshedDevices(contacts[..|contacts| - 1]);
      match DeviceOf(contacts[|contacts| - 1])
      case None => before
      case Some(d) => if contacts[|contacts| - 1].event.Refreshed? then before + [d] else before
  }

  function RefreshMessages(devices: seq<Device>): seq<Message> {
    seq(|devices|, i requires 0 <= i < |devices| => RefreshOf(devices[i]))
  }

  predicate BringsNews(c: Contact) {
    DeviceOf(c).Some? && !c.event.Refreshed?
  }

  /** What listeners are told about one registration of the client's AOR. */
  function MessagesAbout(r: Registration): seq<Message> {
    if r.state.Terminated? then [Snapshot([])] else
      RefreshMessages(RefreshedDevices(r.contacts))
      + if |RefreshedDevices(r.contacts)| < |Devices(r.contacts)| then [Snapshot(Devices(r.contacts))] else []
  }

  /** The device list a registration stands for. */
  function Listed(r: Registration): seq<Device> {
    if r.state.Terminated? then [] else Devices(r.contacts)
  }

  // ---- Reading a document ----

  /** The registrations of `doc` that are acted upon: those of `aor`, up to the first terminated one. */
  function Processed(doc: Document, aor: string): seq<Registration> {
    if doc == [] then []
    else if doc[0].aor != aor then Processed(doc[1..], aor)
    else if doc[0].state.Terminated? then [doc[0]]
    else [doc[0]] + Processed(doc[1..], aor)
  }

  function MessagesOf(regs: seq<Registration>): seq<Message> {
    if regs == [] then [] else MessagesOf(regs[..|regs| - 1]) + MessagesAbout(regs[|regs| - 1])
  }

  /** Everything listeners are told while `doc` is read. */
  function Messages(doc: Document, aor: string): seq<Message> {
    MessagesOf(Processed(doc, aor))
  }

  /** The cached list once `doc` has been read. */
  function CacheAfter(doc: Document, aor: string, cache: seq<Device>): seq<Device> {
    LastListed(Processed(doc, aor), cache)
  }

  function LastListed(regs: seq<Registration>, cache: seq<Device>): seq<Device> {
    if regs == [] then cache else Listed(regs[|regs| - 1])
  }

  lemma MessagesOfOneMore(regs: seq<Registration>, r: Registration)
    ensures MessagesOf(regs + [r]) == MessagesOf(regs) + MessagesAbout(r)
  {
  }

  // ---- Documents in pieces ----

  /** No registration of the AOR is terminated. */
  predicate Continues(doc: Document, aor: string) {
    forall r | r in doc && r.aor == aor :: !r.state.Terminated?
  }

  /** A document is read piece by piece, up to a terminated registration. */
  lemma {:induction false} ProcessedSplits(xs: Document, ys: Document, aor: string)
    ensures Processed(xs + ys, aor) == Processed(xs, aor) + if Continues(xs, aor) then Processed(ys, aor) else []
  {
    if xs == [] {
      assert xs + ys == ys;
    } else {
      assert (xs + ys)[0] == xs[0] && (xs + ys)[1..] == xs[1..] + ys;
      ProcessedSplits(xs[1..], ys, aor);
      assert xs == [xs[0]] + xs[1..];
    }
  }

  lemma {:induction false} MessagesOfSplits(xs: seq<Registration>, ys: seq<Registration>)
    ensures MessagesOf(xs + ys) == MessagesOf(xs) + MessagesOf(ys)
    decreases |ys|
  {
    hide MessagesAbout;
    if ys == [] {
      assert xs + ys == xs;
    } else {
      assert (xs + ys)[..|xs + ys| - 1] == xs + ys[..|ys| - 1];
      MessagesOfSplits(xs, ys[..|ys| - 1]);
    }
  }

  /** The last snapshot among some messages, or what was known before them. */
  function LastSnapshot(messages: seq<Message>, view: Option<seq<Device>>): Option<seq<Device>> {
    if messages == [] then view else
      match messages[|messages| - 1]
      case Snapshot(devices) => Some(devices)
      case RefreshOf(_) => LastSnapshot(messages[..|messages| - 1], view)
  }

  // ---- Refresh accounting ----

  /** Devices come one per contact at most and in document order, the refreshed ones are among them, and a snapshot is
      sent exactly when some device is not refreshed. */
  lemma {:induction false} RefreshAccounting(contacts: seq<Contact>)
    ensures |RefreshedDevices(contacts)| <= |Devices(contacts)| <= |contacts|
    ensures |RefreshedDevices(contacts)| < |Devices(contacts)| <==>
            exists i :: 0 <= i < |contacts| && BringsNews(contacts[i])
    ensures forall d | d in RefreshedDevices(contacts) :: d in Devices(contacts)
  {
    if contacts != [] {
      var init, last := contacts[..|contacts| - 1], contacts[|contacts| - 1];
      RefreshAccounting(init);
      if BringsNews(last) {
        assert BringsNews(contacts[|contacts| - 1]);
      } else if i :| 0 <= i < |init| && BringsNews(init[i]) {
        assert BringsNews(contacts[i]);
      } else {
        assert forall i | 0 <= i < |contacts| :: contacts[i] == if i < |init| then init[i] else last;
      }
    }
  }

  lemma {:induction false} DevicesSplit(xs: seq<Contact>, ys: seq<Contact>)
    ensures Devices(xs + ys) == Devices(xs) + Devices(ys)
    ensures RefreshedDevices(xs + ys) == RefreshedDevices(xs) + RefreshedDevices(ys)
    decreases |ys|
  {
    hide DeviceOf;
    if ys == [] {
      assert xs + ys == xs;
    } else {
      assert (xs + ys)[..|xs + ys| - 1] == xs + ys[..|ys| - 1];
      DevicesSplit(xs, ys[..|ys| - 1]);
    }
  }

  /** Devices come contact by contact, in document order; the refreshed ones come in the same order. */
  lemma {:induction false} RefreshedDevicesInOrder(contacts: seq<Contact>)
    ensures Subsequence(RefreshedDevices(contacts), Devices(contacts))
    ensures contacts != [] ==>
              Devices(contacts) ==
              (if DeviceOf(contacts[0]).Some? then [DeviceOf(contacts[0]).value] else []) + Devices(contacts[1..])
  {
    hide DeviceOf;
    if contacts != [] {
      var first, rest := contacts[..1], contacts[1..];
      assert contacts == first + rest && first[..0] == [];
      DevicesSplit(first, rest);
      RefreshedDevicesInOrder(rest);
      assert [] + Devices(rest) == Devices(rest) && [] + RefreshedDevices(rest) == RefreshedDevices(rest);
      if DeviceOf(contacts[0]).Some? {
        PrependBoth(DeviceOf(contacts[0]).value, RefreshedDevices(rest), Devices(rest));
        PrependRight(DeviceOf(contacts[0]).value, RefreshedDevices(rest), Devices(rest));
      }
    }
  }

  /** What a contact comes to: nothing without specs; else one device, with the contact's URI, its display name if it
      has one, and the value of its first specs parameter without enclosing quotes. */
  lemma ContactBecomesDevice(c: Contact, j: nat, v: string)
    requires j < |c.params| && c.params[j].name == "+org.linphone.specs" && ReadAs(c.params[j].value, v)
    requires forall i | 0 <= i < j :: c.params[i].name != "+org.linphone.specs"
    ensures Devices([c]) == [Device(c.uri, if c.displayName.Some? then c.displayName.value else "", v)]
    ensures RefreshedDevices([c]) == if c.event == Refreshed then Devices([c]) else []
  {
    FirstSpecs(c.params, j);
    UnquoteReads(c.params[j].value, v);
    assert [c][..0] == [];
  }

  lemma ContactWithoutSpecs(c: Contact)
    requires forall p | p in c.params :: p.name != "+org.linphone.specs"
    ensures Devices([c]) == [] == RefreshedDevices([c])
  {
    NoSpecs(c.params);
    assert [c][..0] == [];
  }

  lemma {:induction false} FirstSpecs(params: seq<Param>, j: nat)
    requires j < |params| && params[j].name == "+org.linphone.specs"
    requires forall i | 0 <= i < j :: params[i].name != "+org.linphone.specs"
    ensures SpecsOf(params) == Some(params[j].value)
  {
    if j > 0 {
      FirstSpecs(params[1..], j - 1);
    }
  }

  lemma {:induction false} NoSpecs(params: seq<Param>)
    requires forall p | p in params :: p.name != "+org.linphone.specs"
    ensures SpecsOf(params) == None
  {
    if params != [] {
      NoSpecs(params[1..]);
    }
  }

  /** Every refresh a listener hears while a live registration is read concerns a device of the list that is cached
      when that registration has been read, and each is heard once. */
  lemma RefreshesAreCached(r: Registration)
    requires !r.state.Terminated?
    ensures forall m | m in MessagesAbout(r) && m.RefreshOf? :: m.device in Listed(r)
    ensures |MessagesAbout(r)| == |RefreshedDevices(r.contacts)|
                                  + if exists i :: 0 <= i < |r.contacts| && BringsNews(r.contacts[i]) then 1 else 0
    ensures forall i | 0 <= i < |RefreshedDevices(r.contacts)| ::
              MessagesAbout(r)[i] == RefreshOf(RefreshedDevices(r.contacts)[i])
    ensures forall m | m in MessagesAbout(r) && m.Snapshot? :: m.devices == Listed(r)
  {
    RefreshAccounting(r.contacts);
  }

  // ---- The cache is a fold of the documents ----

  /** The registrations of `aor`. */
  function Matching(doc: Document, aor: string): seq<Registration> {
    if doc == [] then []
    else if doc[0].aor == aor then [doc[0]] + Matching(doc[1..], aor)
    else Matching(doc[1..], aor)
  }

  predicate HasTerminated(regs: seq<Registration>) {
    exists i :: 0 <= i < |regs| && regs[i].state.Terminated?
  }

  lemma HasTerminatedCons(r: Registration, regs: seq<Registration>)
    ensures HasTerminated([r] + regs) <==> r.state.Terminated? || HasTerminated(regs)
  {
    var all := [r] + regs;
    assert all[0] == r;
    assert forall i | 0 <= i < |regs| :: all[i + 1] == regs[i];
    if i :| 0 <= i < |all| && all[i].state.Terminated? && i > 0 {
      assert regs[i - 1].state.Terminated?;
    }
    if i :| 0 <= i < |regs| && regs[i].state.Terminated? {
      assert all[i + 1].state.Terminated?;
    }
  }

  lemma {:induction false} ProcessedIsAPrefix(doc: Document, aor: string)
    ensures var p, m := Processed(doc, aor), Matching(doc, aor);
            if HasTerminated(m) then p != [] && p[|p| - 1].state.Terminated? else p == m
  {
    if doc != [] {
      ProcessedIsAPrefix(doc[1..], aor);
      HasTerminatedCons(doc[0], Matching(doc[1..], aor));
    }
  }

  /** Closed form of one reading: empty if some registration of the AOR is terminated, else the devices of the last
      one, else unchanged. */
  lemma CacheClosedForm(doc: Document, aor: string, cache: seq<Device>)
    ensures var m := Matching(doc, aor);
            CacheAfter(doc, aor, cache) == if HasTerminated(m) then []
                                           else if m == [] then cache
                                           else Devices(m[|m| - 1].contacts)
  {
    ProcessedIsAPrefix(doc, aor);
    var m := Matching(doc, aor);
    if m != [] && !HasTerminated(m) {
      assert !m[|m| - 1].state.Terminated?;
    }
  }

  /** Everything read since the cache was last empty. */
  function Fold(history: seq<Document>, aor: string): seq<Device> {
    if history == [] then [] else
      CacheAfter(history[|history| - 1], aor, Fold(history[..|history| - 1], aor))
  }

  /** The last document that mentions the AOR decides the whole fold, alone. */
  lemma {:induction false} LastMentionDecides(history: seq<Document>, aor: string, k: nat)
    requires k < |history| && Matching(history[k], aor) != []
    requires forall j | k < j < |history| :: Matching(history[j], aor) == []
    ensures Fold(history, aor) == CacheAfter(history[k], aor, [])
    decreases |history|
  {
    hide CacheAfter, Devices, Processed;
    var last := |history| - 1;
    CacheClosedForm(history[last], aor, Fold(history[..last], aor));
    CacheClosedForm(history[k], aor, []);
    if k < last {
      assert history[..last][k] == history[k];
      LastMentionDecides(history[..last], aor, k);
    }
  }

  // ---- Does the last snapshot agree with the cache? ----

  /** A registration that sends no snapshot: live, and all its devices are refreshed. */
  predicate Silent(r: Registration) {
    !r.state.Terminated? && |RefreshedDevices(r.contacts)| == |Devices(r.contacts)|
  }

  /** The last list told by some registrations, or what was told before them. */
  function Told(regs: seq<Registration>, view: seq<Device>): seq<Device> {
    if regs == [] then view
    else if Silent(regs[|regs| - 1]) then Told(regs[..|regs| - 1], view)
    else Listed(regs[|regs| - 1])
  }

  /** When skipping the snapshot is right for a room: the last registration acted upon, if it sends none, lists what was
      told last, as far as the room accepts it. */
  predicate Faithful(check: bool, room: Mask, doc: Document, aor: string, cache: seq<Device>) {
    var regs := Processed(doc, aor);
    regs == [] || !Silent(regs[|regs| - 1]) ||
    Compatible(check, room, Devices(regs[|regs| - 1].contacts)) ==
    Compatible(check, room, Told(regs[..|regs| - 1], cache))
  }

  /** No registration acted upon sends a snapshot. */
  predicate Mute(doc: Document, aor: string) {
    forall r | r in Processed(doc, aor) :: Silent(r)
  }

  /** The sender's side of it: a wholly refreshed registration never lists anything but the current list. */
  predicate Redundant(regs: seq<Registration>, cache: seq<Device>) {
    regs == [] || ((Silent(regs[0]) ==> Devices(regs[0].contacts) == cache) && Redundant(regs[1..], Listed(regs[0])))
  }

  lemma {:induction false} SnapshotsOf(regs: seq<Registration>, cache: seq<Device>)
    ensures LastSnapshot(MessagesOf(regs), Some(cache)) == Some(Told(regs, cache))
    ensures LastSnapshot(MessagesOf(regs), None) ==
            if forall r | r in regs :: Silent(r) then None else Some(Told(regs, cache))
  {
    hide Silent, MessagesAbout, Listed;
    if regs != [] {
      var init, last := regs[..|regs| - 1], regs[|regs| - 1];
      SnapshotsOf(init, cache);
      SnapshotOf(MessagesOf(init), last, Some(cache));
      SnapshotOf(MessagesOf(init), last, None);
      assert regs == init + [last];
    }
  }

  /** A registration sends a snapshot last, unless it is silent. */
  lemma SnapshotOf(ms: seq<Message>, r: Registration, view: Option<seq<Device>>)
    ensures LastSnapshot(ms + MessagesAbout(r), view) == if Silent(r) then LastSnapshot(ms, view) else Some(Listed(r))
  {
    RefreshAccounting(r.contacts);
    if Silent(r) {
      RefreshesKeepTheView(ms, RefreshedDevices(r.contacts), view);
      assert MessagesAbout(r) == RefreshMessages(RefreshedDevices(r.contacts));
    } else {
      var all := ms + MessagesAbout(r);
      assert all[|all| - 1] == Snapshot(Listed(r));
    }
  }

  lemma {:induction false} RefreshesKeepTheView(ms: seq<Message>, devices: seq<Device>, view: Option<seq<Device>>)
    ensures LastSnapshot(ms + RefreshMessages(devices), view) == LastSnapshot(ms, view)
    decreases |devices|
  {
    var all := ms + RefreshMessages(devices);
    if devices == [] {
      assert all == ms;
    } else {
      var init := devices[..|devices| - 1];
      assert all[|all| - 1] == RefreshOf(devices[|devices| - 1]);
      assert all[..|all| - 1] == ms + RefreshMessages(init);
      RefreshesKeepTheView(ms, init, view);
    }
  }

  /** A room that knew the cached list, as far as it accepts it, knows it after the document exactly if the document is
      faithful. One that knew nothing knows nothing still exactly if the document is mute; otherwise it is no better
      off. */
  lemma ViewAgreesExactlyWhenFaithful(check: bool, room: Mask, doc: Document, aor: string, cache: seq<Device>)
    ensures var accepted := Compatible(check, room, CacheAfter(doc, aor, cache));
            var known := LastSnapshot(Messages(doc, aor), Some(cache));
            var first := LastSnapshot(Messages(doc, aor), None);
            known.Some? &&
              (Compatible(check, room, known.value) == accepted <==> Faithful(check, room, doc, aor, cache)) &&
            (first.None? <==> Mute(doc, aor)) && (first.Some? ==> first == known)
  {
    SnapshotsOf(Processed(doc, aor), cache);
    hide Compatible, MessagesAbout;
  }

  /** If wholly refreshed registrations only ever repeat the current list, the document is faithful to every room: that
      is when leaving out the snapshot is redundant, as the code claims. */
  lemma RedundantIsFaithful(check: bool, room: Mask, doc: Document, aor: string, cache: seq<Device>)
    requires Redundant(Processed(doc, aor), cache)
    ensures Faithful(check, room, doc, aor, cache)
  {
    hide Redundant, Compatible;
    ToldWhenRedundant(Processed(doc, aor), cache);
  }

  lemma {:induction false} ToldWhenRedundant(regs: seq<Registration>, cache: seq<Device>)
    requires Redundant(regs, cache)
    ensures regs != [] ==> Told(regs, cache) == Listed(regs[|regs| - 1])
    decreases |regs|
  {
    if |regs| >= 2 {
      ToldWhenRedundant(regs[1..], Listed(regs[0]));
      ToldSplits(regs, cache);
    } else if |regs| == 1 {
      assert regs[..0] == [];
    }
  }

  lemma {:induction false} ToldSplits(regs: seq<Registration>, cache: seq<Device>)
    requires regs != []
    ensures Told(regs, cache) == Told(regs[1..], Told(regs[..1], cache))
    decreases |regs|
  {
    if |regs| == 1 {
      assert regs[..1] == regs;
    } else {
      var init := regs[..|regs| - 1];
      ToldSplits(init, cache);
      assert init[1..] == regs[1..][..|regs| - 2] && init[..1] == regs[..1];
    }
  }

  /** ... and they are not always: a wholly refreshed registration that lists fewer devices than the cache leaves every
      listener with a stale list. */
  lemma SkippedSnapshotCanBeStale()
    ensures exists doc: Document, aor, cache ::
              LastSnapshot(Messages(doc, aor), Some(cache)) == Some(cache) && CacheAfter(doc, aor, cache) != cache
  {
    var aor := "sip:p@example.org";
    var r := Registration(aor, Active, []);
    var cache := [Device("sip:p@example.org;gr=1", "", "groupchat")];
    assert Processed([r], aor) == [r] + Processed([], aor) == [r];
    assert Devices(r.contacts) == [] == RefreshedDevices(r.contacts);
    assert [r][..0] == [];
    assert MessagesOf([r]) == MessagesOf([]) + MessagesAbout(r) == [];
    assert LastSnapshot(Messages([r], aor), Some(cache)) == Some(cache) && CacheAfter([r], aor, cache) == [];
  }

  // ---- The registrar's records ----

  datatype ExtendedContact = ExtendedContact(pubGruu: Option<string>, specs: string, deviceName: string,
                                             uniqueId: string)
  type Record = seq<ExtendedContact>

  /** What the local registrar's path delivers for a record: it tests the raw specs, then unquotes them. */
  function OwnDevices(check: bool, room: Mask, record: Record): seq<Device> {
    if record == [] then [] else
      var before := OwnDevices(check, room, record[..|record| - 1]);
      var ec := record[|record| - 1];
      if ec.pubGruu.Some? && IsContactCompatible(check, room, ec.specs)
      then before + [Device(ec.pubGruu.value, ec.deviceName, Unquote(ec.specs))]
      else before
  }

  /** The identities of the contacts that have a public GRUU, in order. */
  function Identities(record: Record): seq<Device> {
    if record == [] then [] else
      (if record[0].pubGruu.Some? then [Device(record[0].pubGruu.value, record[0].deviceName, Unquote(record[0].specs))]
       else [])
      + Identities(record[1..])
  }

  /** The contact a unique id designates. */
  function Extract(record: Record, uid: string): Option<ExtendedContact> {
    if record == [] then None
    else if record[0].uniqueId == uid then Some(record[0])
    else Extract(record[1..], uid)
  }

  /** The address announced as just registered, if any. */
  function Announced(check: bool, room: Mask, record: Record, uid: string): Option<string> {
    if uid == "" then None else
      match Extract(record, uid)
      case None => None
      case Some(ec) => if ec.pubGruu.Some? && IsContactCompatible(check, room, ec.specs) then ec.pubGruu else None
  }

  lemma {:induction false} OwnDevicesSplits(check: bool, room: Mask, record: Record)
    requires record != []
    ensures OwnDevices(check, room, record) ==
            OwnDevices(check, room, record[..1]) + OwnDevices(check, room, record[1..])
    decreases |record|
  {
    if |record| == 1 {
      assert record[..1] == record;
    } else {
      var init := record[..|record| - 1];
      OwnDevicesSplits(check, room, init);
      assert init[..1] == record[..1] && init[1..] == record[1..][..|record| - 2];
    }
  }

  /** A contact of the registrar with a public GRUU is one device: that address, its name, its specs without enclosing
      quotes; one without is none; and contacts are taken one by one. */
  lemma {:induction false} IdentitiesOneByOne(ec: ExtendedContact, rest: Record, v: string)
    requires ReadAs(ec.specs, v)
    ensures Identities([ec] + rest) ==
            (if ec.pubGruu.Some? then [Device(ec.pubGruu.value, ec.deviceName, v)] else []) + Identities(rest)
  {
    UnquoteReads(ec.specs, v);
    assert ([ec] + rest)[1..] == rest;
  }

  /** The first contact with the id. */
  lemma {:induction false} ExtractIsFirst(record: Record, uid: string)
    ensures match Extract(record, uid)
            case None => forall ec | ec in record :: ec.uniqueId != uid
            case Some(ec) =>
              exists k :: 0 <= k < |record| && record[k] == ec && FirstWithId(record, uid, k)
  {
    if record != [] && record[0].uniqueId != uid {
      ExtractIsFirst(record[1..], uid);
      if Extract(record, uid).Some? {
        var k :| 0 <= k < |record[1..]| && record[1..][k] == Extract(record, uid).value &&
                 FirstWithId(record[1..], uid, k);
        assert FirstWithId(record, uid, k + 1);
      }
    } else if record != [] {
      assert FirstWithId(record, uid, 0);
    }
  }

  predicate FirstWithId(record: Record, uid: string, k: nat) {
    k < |record| && record[k].uniqueId == uid && forall i | 0 <= i < k :: record[i].uniqueId != uid
  }

  /** The local path and the external path agree: testing raw specs and then unquoting delivers the same list as
      filtering the unquoted identities. */
  lemma {:induction false} OwnAndExternalPathsAgree(check: bool, room: Mask, record: Record)
    ensures OwnDevices(check, room, record) == Compatible(check, room, Identities(record))
  {
    if record != [] {
      var ec := record[0];
      OwnDevicesSplits(check, room, record);
      OwnAndExternalPathsAgree(check, room, record[1..]);
      UnquotingKeepsAcceptance(check, room, ec.specs);
      assert record[..1][..0] == [];
      if ec.pubGruu.None? {
        assert Identities(record) == Identities(record[1..]);
        assert OwnDevices(check, room, record[..1]) == [];
      } else {
        var d := Device(ec.pubGruu.value, ec.deviceName, Unquote(ec.specs));
        assert OwnDevices(check, room, record[..1]) == if IsContactCompatible(check, room, ec.specs) then [d] else [];
        var all := [d] + Identities(record[1..]);
        assert all[0] == d && all[1..] == Identities(record[1..]);
      }
    }
  }

  /** A device announced as just registered is in the list sent just before. */
  lemma {:induction false} AnnouncedIsListed(check: bool, room: Mask, record: Record, uid: string)
    requires Announced(check, room, record, uid).Some?
    ensures exists d :: d in OwnDevices(check, room, record) && d.address == Announced(check, room, record, uid).value
  {
    OwnDevicesSplits(check, room, record);
    assert record[..1][..0] == [];
    if record[0].uniqueId == uid {
      var d := Device(record[0].pubGruu.value, record[0].deviceName, Unquote(record[0].specs));
      assert OwnDevices(check, room, record[..1]) == [d];
      assert d in OwnDevices(check, room, record);
    } else {
      AnnouncedIsListed(check, room, record[1..], uid);
      var d :| d in OwnDevices(check, room, record[1..]) && d.address == Announced(check, room, record[1..], uid).value;
      assert d in OwnDevices(check, room, record);
    }
  }
}
