/** The state of the registration-subscription subsystem and its steps: what every public operation and every callback
    of the libraries does to the objects. Objects are named by numbers; a client that is not in `clients` is destroyed.
    */
module World {
  import opened Text
  import opened Capabilities
  import opened Reginfo
  import opened Multimap

  /** An address, with the forms the code asks of it: `asStringUriOnly`, `asStringUriOnlyOrdered`, and the SIP URI it
      parses to (empty when it does not parse). */
  datatype Address = Address(user: string, domain: string, uri: string, ordered: string, aor: string)

  datatype ChatRoom = ChatRoom(id: nat, capabilities: Mask)

  datatype Config = Config(localDomains: seq<string>, check: bool)

  datatype RoomCall = SetParticipantDevices(devices: seq<Device>) | NotifyDeviceRegistration(device: string)

  datatype Kind = Own | External(client: nat)

  /** A subscription: `calls` are the calls it has made on its room, `mark` how many it had made when the current dialog
      of its client was opened. `active` is the flag of the local kind. */
  datatype Sub = Sub(room: ChatRoom, participant: Address, check: bool, kind: Kind, active: bool,
                     calls: seq<RoomCall>, mark: nat)

  /** A live client: `strong` is its shared-pointer count. */
  datatype ClientState = ClientState(to: Address, dialog: Option<nat>, devices: seq<Device>, observers: set<nat>,
                                     strong: nat)

  /** A SUBSCRIBE dialog: the client its data designates, and how often it has been terminated. */
  datatype Dialog = Dialog(data: Option<nat>, terminated: nat)

  datatype CoreCall = AddListener | RemoveListener

  datatype DialogState = Idle | OutgoingProgress | IncomingReceived | Pending | Established | Expiring | Ended | Failed

  datatype World = World(
    config: Config,
    store: seq<Entry<nat>>,
    subs: map<nat, Sub>,
    clients: map<nat, ClientState>,
    events: map<nat, Dialog>,
    cache: map<string, nat>,
    useCount: int,
    attached: bool,
    coreCalls: seq<CoreCall>,
    listeners: set<nat>,
    fetches: set<nat>,
    next: nat)

  function Start(config: Config): World {
    World(config, [], map[], map[], map[], map[], 0, false, [], {}, {}, 0)
  }

  function SubscriptionKey(a: Address): string {
    a.user + "@" + a.domain
  }

  /** A key stands for one participant, among those whose domain is free of '@', exactly if the domain is free of '@';
      the user part may contain it. */
  lemma KeysDoNotCollide(a: Address)
    ensures (forall b: Address | '@' !in b.domain && SubscriptionKey(b) == SubscriptionKey(a) ::
               b.user == a.user && b.domain == a.domain)
            <==> '@' !in a.domain
  {
    if '@' !in a.domain {
      forall b: Address | '@' !in b.domain && SubscriptionKey(b) == SubscriptionKey(a)
        ensures b.user == a.user && b.domain == a.domain
      {
        SameKeySameParticipant(a, b);
      }
    } else {
      var i := LastAt(a.domain);
      var b := a.(user := a.user + "@" + a.domain[..i], domain := a.domain[i + 1..]);
      assert a.domain == a.domain[..i] + "@" + a.domain[i + 1..];
      assert SubscriptionKey(b) == SubscriptionKey(a);
      assert |b.domain| < |a.domain|;
    }
  }

  lemma SameKeySameParticipant(a: Address, b: Address)
    requires '@' !in a.domain && '@' !in b.domain && SubscriptionKey(a) == SubscriptionKey(b)
    ensures a.user == b.user && a.domain == b.domain
  {
    var key := SubscriptionKey(a);
    DomainStartsAfterTheLastAt(a);
    DomainStartsAfterTheLastAt(b);
    assert a.user == key[..|a.user|] && a.domain == key[|a.user| + 1..];
    assert b.user == key[..|b.user|] && b.domain == key[|b.user| + 1..];
  }

  lemma DomainStartsAfterTheLastAt(a: Address)
    requires '@' !in a.domain
    ensures var key := SubscriptionKey(a);
            |a.user| < |key| && key[|a.user|] == '@' && forall k | |a.user| < k < |key| :: key[k] != '@'
  {
  }

  function LastAt(s: string): (i: nat)
    requires '@' in s
    ensures i < |s| && s[i] == '@' && '@' !in s[i + 1..]
  {
    if s[|s| - 1] == '@' then |s| - 1 else
      var i := LastAt(s[..|s| - 1]);
      assert s[i + 1..] == s[..|s| - 1][i + 1..] + [s[|s| - 1]];
      i
  }

  predicate IsLocal(w: World, a: Address) {
    a.domain in w.config.localDomains
  }

  function Stored(w: World): set<nat> {
    Values(w.store)
  }

  function Values(entries: seq<Entry<nat>>): set<nat> {
    set i | 0 <= i < |entries| :: entries[i].value
  }

  // ---- Deliveries ----

  function CallsFor(sub: Sub, m: Message): seq<RoomCall> {
    match m
    case Snapshot(devices) => [SetParticipantDevices(Compatible(sub.check, sub.room.capabilities, devices))]
    case RefreshOf(d) =>
      if IsContactCompatible(sub.check, sub.room.capabilities, d.specs)
      then [NotifyDeviceRegistration(d.address)] else []
  }

  function Translate(sub: Sub, messages: seq<Message>): seq<RoomCall> {
    if messages == [] then [] else
      Translate(sub, messages[..|messages| - 1]) + CallsFor(sub, messages[|messages| - 1])
  }

  function Hear(sub: Sub, messages: seq<Message>): Sub {
    sub.(calls := sub.calls + Translate(sub, messages))
  }

  /** Every observer hears the messages, in order. */
  function Deliver(w: World, observers: set<nat>, messages: seq<Message>): World {
    w.(subs := map s | s in w.subs :: if s in observers then Hear(w.subs[s], messages) else w.subs[s])
  }

  /** What is said depends on what the subscription was created with only. */
  lemma {:induction false} TranslateFrame(sub: Sub, sub': Sub, ms: seq<Message>)
    requires sub'.check == sub.check && sub'.room == sub.room
    ensures Translate(sub', ms) == Translate(sub, ms)
  {
    if ms != [] {
      TranslateFrame(sub, sub', ms[..|ms| - 1]);
    }
  }

  lemma {:induction false} TranslateSplits(sub: Sub, ms: seq<Message>, ns: seq<Message>)
    ensures Translate(sub, ms + ns) == Translate(sub, ms) + Translate(sub, ns)
    decreases |ns|
  {
    if ns == [] {
      assert ms + ns == ms;
    } else {
      assert (ms + ns)[..|ms + ns| - 1] == ms + ns[..|ns| - 1];
      TranslateSplits(sub, ms, ns[..|ns| - 1]);
    }
  }

  /** Messages heard one after the other are heard together. */
  lemma DeliverChains(w: World, obs: set<nat>, ms: seq<Message>, ns: seq<Message>)
    ensures Deliver(Deliver(w, obs, ms), obs, ns) == Deliver(w, obs, ms + ns)
  {
    forall s | s in w.subs ensures Hear(Hear(w.subs[s], ms), ns) == Hear(w.subs[s], ms + ns) {
      HearChains(w.subs[s], ms, ns);
    }
    hide Hear;
  }

  lemma HearChains(sub: Sub, ms: seq<Message>, ns: seq<Message>)
    ensures Hear(Hear(sub, ms), ns) == Hear(sub, ms + ns)
  {
    TranslateFrame(sub, Hear(sub, ms), ns);
    TranslateSplits(sub, ms, ns);
    hide Translate;
  }

  /** Observers may be told one by one, in any order. */
  lemma DeliverOneMore(w: World, done: set<nat>, s: nat, ms: seq<Message>)
    requires s !in done
    ensures Deliver(Deliver(w, done, ms), {s}, ms) == Deliver(w, done + {s}, ms)
  {
  }

  lemma DeliverKeepsClients(w: World, obs: set<nat>, ms: seq<Message>)
    ensures Deliver(w, obs, ms) == w.(subs := Deliver(w, obs, ms).subs) && Deliver(w, obs, ms).subs.Keys == w.subs.Keys
  {
  }

  lemma DeliverNothing(w: World, obs: set<nat>, ms: seq<Message>)
    requires obs == {} || ms == []
    ensures Deliver(w, obs, ms) == w
  {
    forall s | s in w.subs ensures Hear(w.subs[s], []) == w.subs[s] {
    }
    assert Deliver(w, obs, ms).subs == w.subs;
  }

  /** A subscription makes some calls on its room. */
  function CallRoom(w: World, s: nat, calls: seq<RoomCall>): World
    requires s in w.subs
  {
    w.(subs := w.subs[s := w.subs[s].(calls := w.subs[s].calls + calls)])
  }

  lemma DeliverToOne(w: World, s: nat, m: Message)
    requires s in w.subs
    ensures Deliver(w, {s}, [m]) == CallRoom(w, s, CallsFor(w.subs[s], m))
  {
    assert [m][..0] == [];
    assert Translate(w.subs[s], [m]) == CallsFor(w.subs[s], m);
  }

  lemma SnapshotIsOneCall(w: World, s: nat, devices: seq<Device>)
    requires s in w.subs
    ensures var sub := w.subs[s];
            Deliver(w, {s}, [Snapshot(devices)]) ==
            CallRoom(w, s, [SetParticipantDevices(Compatible(sub.check, sub.room.capabilities, devices))])
  {
    DeliverToOne(w, s, Snapshot(devices));
  }

  lemma RefreshIsOneCallAtMost(w: World, s: nat, d: Device)
    requires s in w.subs
    ensures var sub := w.subs[s];
            Deliver(w, {s}, [RefreshOf(d)]) ==
            if IsContactCompatible(sub.check, sub.room.capabilities, d.specs)
            then CallRoom(w, s, [NotifyDeviceRegistration(d.address)]) else w
  {
    DeliverToOne(w, s, RefreshOf(d));
    assert w.subs[s].calls + [] == w.subs[s].calls;
    assert w.subs[s := w.subs[s]] == w.subs;
  }

  // ---- Use count of the client factory ----

  function RegisterClient(w: World): (r: World)
    ensures r.clients == w.clients && r.events == w.events && r.cache == w.cache && r.config == w.config
  {
    var w' := if w.useCount == 0 then w.(attached := true, coreCalls := w.coreCalls + [AddListener]) else w;
    w'.(useCount := w.useCount + 1)
  }

  lemma RegisteringCommutes(w: World, clients: map<nat, ClientState>, next: nat)
    ensures RegisterClient(w.(clients := clients, next := next)) == RegisterClient(w).(clients := clients, next := next)
  {
  }

  function UnregisterClient(w: World): (r: World)
    ensures r.clients == w.clients && r.events == w.events
  {
    var w' := w.(useCount := w.useCount - 1);
    if w'.useCount == 0 then w'.(attached := false, coreCalls := w.coreCalls + [RemoveListener]) else w'
  }

  // ---- Dialogs ----

  function SetData(w: World, e: nat, data: Option<nat>): World
    requires e in w.events
  {
    w.(events := w.events[e := w.events[e].(data := data)])
  }

  function SetDialog(w: World, c: nat, dialog: Option<nat>): (r: World)
    requires c in w.clients
    ensures r.events == w.events && r.clients.Keys == w.clients.Keys
  {
    w.(clients := w.clients[c := w.clients[c].(dialog := dialog)])
  }

  /** The data of an event leads to a live client that has a dialog: dispatching cannot go wrong. */
  predicate Dispatchable(w: World, e: nat) {
    e in w.events &&
    (w.events[e].data.Some? ==> HasDialog(w, w.events[e].data.value))
  }

  predicate HasDialog(w: World, c: nat) {
    c in w.clients && w.clients[c].dialog.Some? && w.clients[c].dialog.value in w.events
  }

  /** `Event::terminate`, which calls the core's listener back with Terminated before it returns. */
  function Terminate(w: World, e: nat): (r: World)
    requires Dispatchable(w, e)
    ensures r.clients.Keys == w.clients.Keys && r.events.Keys == w.events.Keys && r.config == w.config
    decreases if w.events[e].data.Some? then 2 else 0
  {
    StateChanged(w.(events := w.events[e := w.events[e].(terminated := w.events[e].terminated + 1)]), e, Ended)
  }

  predicate Final(state: DialogState) {
    state.Ended? || state.Failed?
  }

  /** The core reports the state of a dialog: to the factory if it listens, then to the client the data designates. */
  function StateChanged(w: World, e: nat, state: DialogState): (r: World)
    requires Dispatchable(w, e)
    ensures r.clients.Keys == w.clients.Keys && r.events.Keys == w.events.Keys && r.config == w.config
    decreases if w.events[e].data.Some? then 2 else 0, 0
  {
    if w.attached && w.events[e].data.Some? then ClientStateChanged(w, w.events[e].data.value, state) else w
  }

  function ClientStateChanged(w: World, c: nat, state: DialogState): (r: World)
    requires HasDialog(w, c)
    ensures r.clients.Keys == w.clients.Keys && r.events.Keys == w.events.Keys && r.config == w.config
    decreases 1
  {
    if !Final(state) then w else
      var e := w.clients[c].dialog.value;
      var w1 := Terminate(SetData(w, e, None), e);
      w1.(clients := w1.clients[c := w1.clients[c].(dialog := None, devices := [])])
  }

  /** The same, one assignment at a time. */
  lemma ClientStateChangedStepwise(w: World, c: nat, state: DialogState)
    requires HasDialog(w, c)
    ensures ClientStateChanged(w, c, state) == if Final(state) then ForgetDevices(ClientUnsubscribe(w, c), c) else w
  {
  }

  function ForgetDevices(w: World, c: nat): World
    requires c in w.clients
  {
    w.(clients := w.clients[c := w.clients[c].(devices := [])])
  }

  // ---- Clients ----

  function ClientUnsubscribe(w: World, c: nat): (r: World)
    requires c in w.clients && (w.clients[c].dialog.Some? ==> w.clients[c].dialog.value in w.events)
    ensures r.clients.Keys == w.clients.Keys
  {
    match w.clients[c].dialog
    case None => w
    case Some(e) => SetDialog(Terminate(SetData(w, e, None), e), c, None)
  }

  lemma UnsubscribingKeepsCounts(w: World, c: nat)
    requires c in w.clients && (w.clients[c].dialog.Some? ==> w.clients[c].dialog.value in w.events)
    ensures ClientUnsubscribe(w, c).clients[c].strong == w.clients[c].strong
  {
    if w.clients[c].dialog.Some? {
      var e := w.clients[c].dialog.value;
      var w1 := SetData(w, e, None);
      var w2 := w1.(events := w1.events[e := w1.events[e].(terminated := w1.events[e].terminated + 1)]);
      assert StateChanged(w2, e, Ended) == w2;
      assert Terminate(w1, e) == w2;
    }
  }

  /** The destructor of a client. */
  function Destroy(w: World, c: nat): World
    requires c in w.clients && (w.clients[c].dialog.Some? ==> w.clients[c].dialog.value in w.events)
  {
    var w1 := ClientUnsubscribe(UnregisterClient(w), c);
    w1.(clients := w1.clients - {c})
  }

  /** A shared pointer to the client goes away. */
  function Release(w: World, c: nat): World
    requires c in w.clients && w.clients[c].strong > 0
    requires w.clients[c].dialog.Some? ==> w.clients[c].dialog.value in w.events
  {
    var w1 := w.(clients := w.clients[c := w.clients[c].(strong := w.clients[c].strong - 1)]);
    if w1.clients[c].strong == 0 then Destroy(w1, c) else w1
  }

  /** A dialog is opened: observers' marks move, the event's data designates the client. */
  function OpenDialog(w: World, c: nat): (r: World)
    requires c in w.clients
    ensures Dispatchable(r, w.next)
  {
    var e := w.next;
    w.(events := w.events[e := Dialog(Some(c), 0)],
       clients := w.clients[c := w.clients[c].(dialog := Some(e))],
       subs := map s | s in w.subs ::
         if s in w.clients[c].observers then w.subs[s].(mark := |w.subs[s].calls|) else w.subs[s],
       next := e + 1)
  }

  /** `createSubscribe`: an event that designates nobody yet. */
  function NewEvent(w: World): (r: World)
    ensures r.clients == w.clients && w.next in r.events
  {
    w.(events := w.events[w.next := Dialog(None, 0)], next := w.next + 1)
  }

  lemma OpenDialogStepwise(w: World, c: nat)
    requires c in w.clients && w.next !in w.events
    ensures var e := w.next;
            Mark(SetData(SetDialog(NewEvent(w), c, Some(e)), e, Some(c)), w.clients[c].observers) == OpenDialog(w, c)
  {
  }

  /** The marks of the observers move to where their calls are. */
  function Mark(w: World, observers: set<nat>): World {
    w.(subs := map s | s in w.subs :: if s in observers then w.subs[s].(mark := |w.subs[s].calls|) else w.subs[s])
  }

  /** `Client::subscribe`: replays the cached list to the listener, or opens a dialog; `answer` is the state that
      `sendSubscribe` may report before it returns. */
  function ClientSubscribe(w: World, c: nat, s: nat, answer: DialogState): World
    requires c in w.clients
  {
    if w.clients[c].dialog.Some? then Deliver(w, {s}, [Snapshot(w.clients[c].devices)])
    else StateChanged(OpenDialog(w, c), w.next, answer)
  }

  /** What reading a document does: every observer hears the messages, the cache is replaced. */
  function ClientNotify(w: World, c: nat, doc: Document): World
    requires c in w.clients
  {
    var st := w.clients[c];
    Deliver(w, st.observers, Messages(doc, st.to.uri))
      .(clients := w.clients[c := st.(devices := CacheAfter(doc, st.to.uri, st.devices))])
  }

  /** A NOTIFY arrives on an event; a body that is absent or does not parse throws, and the factory swallows that. */
  function NotifyReceived(w: World, e: nat, body: Body): World
    requires Dispatchable(w, e)
  {
    if w.attached && w.events[e].data.Some? && body.Parsed?
    then ClientNotify(w, w.events[e].data.value, body.document)
    else w
  }

  /** A client in the middle of a document: its observers have heard some messages, its list is `devices`. */
  function Reading(w: World, c: nat, messages: seq<Message>, devices: seq<Device>): (r: World)
    requires c in w.clients
    ensures r.clients.Keys == w.clients.Keys
  {
    Deliver(w, w.clients[c].observers, messages).(clients := w.clients[c := w.clients[c].(devices := devices)])
  }

  lemma ReadingStarts(w: World, c: nat)
    requires c in w.clients
    ensures Reading(w, c, [], w.clients[c].devices) == w
  {
    DeliverNothing(w, w.clients[c].observers, []);
    assert w.clients[c := w.clients[c].(devices := w.clients[c].devices)] == w.clients;
  }

  lemma ReadingChains(w: World, c: nat, ms: seq<Message>, devices: seq<Device>, ns: seq<Message>, devices': seq<Device>)
    requires c in w.clients
    ensures Reading(Reading(w, c, ms, devices), c, ns, devices') == Reading(w, c, ms + ns, devices')
  {
    DeliverChains(w, w.clients[c].observers, ms, ns);
    var r := Reading(w, c, ms, devices);
    DeliverFrame(Deliver(w, w.clients[c].observers, ms), r.clients, w.clients[c].observers, ns);
    hide Hear, Deliver;
    assert w.clients[c := w.clients[c].(devices := devices)][c := w.clients[c].(devices := devices')] ==
           w.clients[c := w.clients[c].(devices := devices')];
  }

  lemma DeliverFrame(w: World, clients: map<nat, ClientState>, obs: set<nat>, ms: seq<Message>)
    ensures Deliver(w.(clients := clients), obs, ms) == Deliver(w, obs, ms).(clients := clients)
    ensures Deliver(w, obs, ms).clients == w.clients
  {
  }

  lemma ReadingEnds(w: World, c: nat, doc: Document)
    requires c in w.clients
    ensures var st := w.clients[c];
            Reading(w, c, Messages(doc, st.to.uri), CacheAfter(doc, st.to.uri, st.devices)) == ClientNotify(w, c, doc)
  {
  }

  // ---- Client cache ----

  /** The live client cached under a URI, `weak_ptr::lock`. */
  function Cached(w: World, uri: string): Option<nat> {
    if uri in w.cache && w.cache[uri] in w.clients &&
      w.clients[w.cache[uri]].strong > 0 then Some(w.cache[uri]) else None
  }

  /** The result holds one more shared pointer to the acquired client. */
  function AcquireClient(w: World, a: Address): (r: (World, nat))
    ensures r.1 in r.0.clients && r.0.config == w.config
  {
    match Cached(w, a.ordered)
    case Some(c) => (w.(clients := w.clients[c := w.clients[c].(strong := w.clients[c].strong + 1)]), c)
    case None =>
      var c := w.next;
      (RegisterClient(w).(clients := w.clients[c := ClientState(a, None, [], {}, 1)],
                          cache := w.cache[a.ordered := c], next := c + 1), c)
  }

  // ---- Subscriptions ----

  function NewSub(w: World, room: ChatRoom, a: Address, kind: Kind): World {
    var s := w.next;
    w.(subs := w.subs[s := Sub(room, a, w.config.check, kind, false, [], 0)],
       store := Insert(w.store, Entry(SubscriptionKey(a), s)),
       next := s + 1)
  }

  function StartOwn(w: World, s: nat): World
    requires s in w.subs
  {
    if w.subs[s].participant.aor == "" then w
    else w.(subs := w.subs[s := w.subs[s].(active := true)], fetches := w.fetches + {s}, listeners := w.listeners + {s})
  }

  function AddObserver(w: World, c: nat, s: nat): World
    requires c in w.clients
  {
    w.(clients := w.clients[c := w.clients[c].(observers := w.clients[c].observers + {s})])
  }

  function RemoveObserver(w: World, c: nat, s: nat): World
    requires c in w.clients
  {
    w.(clients := w.clients[c := w.clients[c].(observers := w.clients[c].observers - {s})])
  }

  /** A stored subscription can be stopped: its client, if it has one, is alive. */
  predicate Stoppable(w: World, s: nat) {
    s in w.subs && (w.subs[s].kind.External? ==> w.subs[s].kind.client in w.clients)
  }

  function StopSub(w: World, s: nat): (r: World)
    requires Stoppable(w, s)
    ensures forall t | Stoppable(w, t) :: Stoppable(r, t)
  {
    match w.subs[s].kind
    case Own =>
      if !w.subs[s].active then w
      else w.(subs := w.subs[s := w.subs[s].(active := false)], listeners := w.listeners - {s})
    case External(c) => RemoveObserver(w, c, s)
  }

  /** The store's shared pointer to a subscription goes away; the external kind is destroyed and releases its client. */
  predicate Droppable(w: World, s: nat) {
    s in w.subs &&
    (w.subs[s].kind.External? ==>
       var c := w.subs[s].kind.client;
       c in w.clients && w.clients[c].strong > 0 &&
       (w.clients[c].dialog.Some? ==> w.clients[c].dialog.value in w.events))
  }

  function DropSub(w: World, s: nat): World
    requires Droppable(w, s)
  {
    match w.subs[s].kind
    case Own => w
    case External(c) => Release(w, c)
  }

  // ---- The handler ----

  predicate Matches(w: World, i: nat, room: ChatRoom, key: string) {
    i < |w.store| && w.store[i].key == key && w.store[i].value in w.subs && w.subs[w.store[i].value].room == room
  }

  predicate Subscribed(w: World, room: ChatRoom, a: Address) {
    exists i | 0 <= i < |w.store| :: Matches(w, i, room, SubscriptionKey(a))
  }

  function SubscribeOwn(w: World, room: ChatRoom, a: Address): World {
    StartOwn(NewSub(w, room, a, Own), w.next)
  }

  /** A new external subscription, stored and observing its client. */
  function JoinExternal(w: World, room: ChatRoom, a: Address): World {
    var (w1, c) := AcquireClient(w, a);
    AddObserver(NewSub(w1, room, a, External(c)), c, w1.next)
  }

  function SubscribeExternal(w: World, room: ChatRoom, a: Address, answer: DialogState): World {
    var (w1, c) := AcquireClient(w, a);
    ClientSubscribe(JoinExternal(w, room, a), c, w1.next, answer)
  }

  function Subscribe(w: World, room: ChatRoom, a: Address, answer: DialogState): World {
    if Subscribed(w, room, a) then w
    else if IsLocal(w, a) then SubscribeOwn(w, room, a)
    else SubscribeExternal(w, room, a, answer)
  }

  /** The entry at position `i` is stopped, erased and dropped. */
  function Evict(w: World, i: nat): World
    requires i < |w.store| && Droppable(w, w.store[i].value)
  {
    var s := w.store[i].value;
    var w1 := StopSub(w, s);
    DropSub(w1.(store := Erase(w1.store, i)), s)
  }

  // ---- The registrar ----

  function FetchDone(w: World, s: nat, record: Option<Record>): World {
    if s !in w.fetches || s !in w.subs then w else
      w.(fetches := w.fetches - {s}, subs := w.subs[s := HearRecord(w.subs[s], record)])
  }

  function FetchFailed(w: World, s: nat): World {
    w.(fetches := w.fetches - {s})
  }

  function HearRecord(sub: Sub, record: Option<Record>): Sub {
    if !sub.active then sub else
      var devices := if record.Some? then OwnDevices(sub.check, sub.room.capabilities, record.value) else [];
      sub.(calls := sub.calls + [SetParticipantDevices(devices)])
  }

  /** Own subscriptions that can be started listen to the registrar from their creation until they are stopped. */
  predicate EverListened(w: World, s: nat) {
    s in w.subs && w.subs[s].kind.Own? && w.subs[s].participant.aor != ""
  }

  /** A registration is reported to a listener; the report may have been on its way when the listener was stopped. */
  function ContactRegistered(w: World, s: nat, record: Record, uid: string): World {
    if !EverListened(w, s) then w
    else w.(subs := w.subs[s := HearRegistration(w.subs[s], record, uid)])
  }

  function HearRegistration(sub: Sub, record: Record, uid: string): Sub {
    if !sub.active then sub else
      var told := HearRecord(sub, Some(record));
      match Announced(sub.check, sub.room.capabilities, record, uid)
      case None => told
      case Some(device) => told.(calls := told.calls + [NotifyDeviceRegistration(device)])
  }
}
