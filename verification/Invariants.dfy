/** What holds between any two steps. Each part speaks of the components it needs only. */
module Invariants {
  import opened Text
  import opened Reginfo
  import opened Multimap
  import opened World

  type Store = seq<Entry<nat>>
  type Subs = map<nat, Sub>
  type Clients = map<nat, ClientState>
  type Events = map<nat, Dialog>

  /** The external subscriptions among `hs` that hold a client. */
  ghost function Holders(subs: Subs, hs: set<nat>, c: nat): set<nat> {
    set s | s in hs && s in subs && subs[s].kind == External(c)
  }

  /** Entries are sorted, filed under their participant's key, one per pair of key and room. */
  ghost predicate StoreOk(store: Store, subs: Subs) {
    Sorted(Keys(store)) &&
    (forall i | 0 <= i < |store| ::
       store[i].value in subs && store[i].key == SubscriptionKey(subs[store[i].value].participant)) &&
    (forall i, j | 0 <= i < j < |store| && store[i].key == store[j].key ::
       subs[store[i].value].room != subs[store[j].value].room)
  }

  /** Every client is counted once per subscription that holds it. */
  ghost predicate CountsOk(clients: Clients, subs: Subs, hs: set<nat>) {
    forall c | c in clients :: clients[c].strong == |Holders(subs, hs, c)|
  }

  /** A client nobody holds is destroyed. */
  ghost predicate AliveOk(clients: Clients) {
    forall c | c in clients :: clients[c].strong > 0
  }

  /** Subscriptions hold live clients. */
  ghost predicate HoldersOk(clients: Clients, subs: Subs, hs: set<nat>) {
    forall s | s in hs :: s in subs && (subs[s].kind.External? ==> subs[s].kind.client in clients)
  }

  /** A client's observers are exactly the stored subscriptions that hold it. */
  ghost predicate ObserversOk(clients: Clients, subs: Subs, hs: set<nat>) {
    forall c | c in clients :: clients[c].observers == Holders(subs, hs, c)
  }

  /** Event data and current dialogs are inverse to each other; every other event has been terminated, once. */
  ghost predicate DialogsOk(events: Events, clients: Clients) {
    (forall e | e in events ::
       match events[e].data
       case Some(c) => c in clients && clients[c].dialog == Some(e) && events[e].terminated == 0
       case None => events[e].terminated == 1) &&
    (forall c | c in clients && clients[c].dialog.Some? ::
       clients[c].dialog.value in events && events[clients[c].dialog.value].data == Some(c))
  }

  predicate Alternating(calls: seq<CoreCall>) {
    forall i | 0 <= i < |calls| :: calls[i] == if i % 2 == 0 then AddListener else RemoveListener
  }

  /** The factory counts the live clients and listens to the core exactly while there are some; it starts and stops
      listening in turns. */
  ghost predicate UseOk(useCount: int, attached: bool, coreCalls: seq<CoreCall>, live: set<nat>) {
    useCount == |live| && (attached <==> useCount > 0) &&
    Alternating(coreCalls) && (attached <==> |coreCalls| % 2 == 1)
  }

  /** Each live client is the one cached under its URI, and under no other. */
  ghost predicate CacheOk(cache: map<string, nat>, clients: Clients) {
    (forall c | c in clients :: clients[c].to.ordered in cache && cache[clients[c].to.ordered] == c) &&
    (forall u | u in cache && cache[u] in clients :: clients[cache[u]].to.ordered == u)
  }

  ghost function ExternalUris(subs: Subs): set<string> {
    set s | s in subs && subs[s].kind.External? :: subs[s].participant.ordered
  }

  /** Own subscriptions listen to the registrar exactly while they are stored and could start. */
  ghost predicate RegistrarOk(subs: Subs, hs: set<nat>, listeners: set<nat>, fetches: set<nat>) {
    (forall s | s in subs ::
       (subs[s].active <==> s in hs && subs[s].kind.Own? && subs[s].participant.aor != "") &&
       (s in listeners <==> subs[s].active)) &&
    (forall s | s in listeners :: s in subs) &&
    (forall s | s in fetches :: s in subs && subs[s].kind.Own?)
  }

  /** What subscriptions were created with, and the client they share. */
  ghost predicate SubsOk(config: Config, subs: Subs) {
    forall s | s in subs ::
      subs[s].mark <= |subs[s].calls| && subs[s].check == config.check &&
      (subs[s].kind.Own? <==> subs[s].participant.domain in config.localDomains)
  }

  ghost predicate SharedOk(subs: Subs, clients: Clients) {
    forall s | s in subs && subs[s].kind.External? && subs[s].kind.client in clients ::
      subs[s].participant.ordered == clients[subs[s].kind.client].to.ordered
  }

  ghost predicate IdsOk(subs: Subs, clients: Clients, events: Events, cache: map<string, nat>, next: nat) {
    (forall s | s in subs :: s < next && (subs[s].kind.External? ==> subs[s].kind.client < next)) &&
    (forall c | c in clients :: c < next) &&
    (forall e | e in events :: e < next) &&
    (forall u | u in cache :: cache[u] < next)
  }

  /** Everything but the relation of subscriptions to the store: holds while subscriptions are being torn down too. */
  ghost predicate CoreInv(w: World, hs: set<nat>) {
    CountsOk(w.clients, w.subs, hs) && AliveOk(w.clients) && HoldersOk(w.clients, w.subs, hs) &&
    DialogsOk(w.events, w.clients) && UseOk(w.useCount, w.attached, w.coreCalls, w.clients.Keys) &&
    CacheOk(w.cache, w.clients) && w.cache.Keys == ExternalUris(w.subs) &&
    SubsOk(w.config, w.subs) && SharedOk(w.subs, w.clients) &&
    IdsOk(w.subs, w.clients, w.events, w.cache, w.next)
  }

  ghost predicate Inv(w: World) {
    StoreOk(w.store, w.subs) && CoreInv(w, Stored(w)) && ObserversOk(w.clients, w.subs, Stored(w)) &&
    RegistrarOk(w.subs, Stored(w), w.listeners, w.fetches)
  }

  lemma StartIsOk(config: Config)
    ensures Inv(Start(config))
  {
  }

  // ---- Frames ----

  /** Only what subscriptions have been told, and their marks, may differ. */
  ghost predicate SameButCalls(subs: Subs, subs': Subs) {
    subs'.Keys == subs.Keys &&
    forall s | s in subs ::
      subs'[s] == subs[s].(calls := subs'[s].calls, mark := subs'[s].mark) && subs'[s].mark <= |subs'[s].calls|
  }

  lemma CallsKeepHolders(subs: Subs, subs': Subs)
    requires SameButCalls(subs, subs')
    ensures forall hs, c :: Holders(subs', hs, c) == Holders(subs, hs, c)
    ensures ExternalUris(subs') == ExternalUris(subs)
  {
    forall hs, c ensures Holders(subs', hs, c) == Holders(subs, hs, c) {
      assert forall s | s in subs :: subs'[s].kind == subs[s].kind;
    }
    forall u | u in ExternalUris(subs) ensures u in ExternalUris(subs') {
      var s :| s in subs && subs[s].kind.External? && subs[s].participant.ordered == u;
      assert subs'[s].participant.ordered == u;
    }
    forall u | u in ExternalUris(subs') ensures u in ExternalUris(subs) {
      var s :| s in subs' && subs'[s].kind.External? && subs'[s].participant.ordered == u;
      assert subs[s].participant.ordered == u;
    }
  }

  lemma CallsKeepInv(w: World, subs': Subs)
    requires Inv(w) && SameButCalls(w.subs, subs')
    ensures Inv(w.(subs := subs'))
  {
    hide StoreOk, HoldersOk, DialogsOk, UseOk, CacheOk, RegistrarOk, SubsOk, SharedOk, IdsOk;
    CallsKeepHolders(w.subs, subs');
    CallsKeepRest(w, subs');
  }

  lemma CallsKeepRest(w: World, subs': Subs)
    requires SameButCalls(w.subs, subs')
    ensures StoreOk(w.store, w.subs) ==> StoreOk(w.store, subs')
    ensures HoldersOk(w.clients, w.subs, Stored(w)) ==> HoldersOk(w.clients, subs', Stored(w))
    ensures SubsOk(w.config, w.subs) ==> SubsOk(w.config, subs')
    ensures SharedOk(w.subs, w.clients) ==> SharedOk(subs', w.clients)
    ensures RegistrarOk(w.subs, Stored(w), w.listeners, w.fetches) ==>
              RegistrarOk(subs', Stored(w), w.listeners, w.fetches)
    ensures IdsOk(w.subs, w.clients, w.events, w.cache, w.next) ==> IdsOk(subs', w.clients, w.events, w.cache, w.next)
  {
  }

  /** Who holds and observes clients, and under which URI, is the same. */
  ghost predicate SameHolding(clients: Clients, clients': Clients) {
    clients'.Keys == clients.Keys &&
    forall c | c in clients ::
      clients'[c].to == clients[c].to && clients'[c].strong == clients[c].strong &&
      clients'[c].observers == clients[c].observers
  }

  lemma HoldingKeeps(clients: Clients, clients': Clients, subs: Subs, hs: set<nat>, cache: map<string, nat>)
    requires SameHolding(clients, clients')
    ensures CountsOk(clients, subs, hs) ==> CountsOk(clients', subs, hs)
    ensures AliveOk(clients) ==> AliveOk(clients')
    ensures HoldersOk(clients, subs, hs) ==> HoldersOk(clients', subs, hs)
    ensures ObserversOk(clients, subs, hs) ==> ObserversOk(clients', subs, hs)
    ensures CacheOk(cache, clients) ==> CacheOk(cache, clients')
    ensures SharedOk(subs, clients) ==> SharedOk(subs, clients')
  {
  }

  // ---- Deliveries ----

  lemma DeliverKeepsInv(w: World, obs: set<nat>, ms: seq<Message>)
    requires Inv(w)
    ensures SameButCalls(w.subs, Deliver(w, obs, ms).subs) && Inv(Deliver(w, obs, ms))
  {
    CallsKeepInv(w, Deliver(w, obs, ms).subs);
  }

  lemma FetchesKeepInv(w: World, s: nat, record: Option<Record>)
    requires Inv(w)
    ensures Inv(FetchFailed(w, s)) && Inv(FetchDone(w, s, record))
  {
    hide StoreOk, CountsOk, AliveOk, HoldersOk, ObserversOk, DialogsOk, UseOk, CacheOk, SubsOk, SharedOk, IdsOk;
    assert Inv(FetchFailed(w, s));
    if s in w.fetches {
      FetchChangesCalls(w, s, record);
      CallsKeepInv(FetchFailed(w, s), FetchDone(w, s, record).subs);
    }
  }

  lemma FetchChangesCalls(w: World, s: nat, record: Option<Record>)
    requires SubsOk(w.config, w.subs)
    ensures SameButCalls(w.subs, FetchDone(w, s, record).subs)
  {
    hide HearRecord;
    if s in w.subs {
      HearingAddsCalls(w.subs[s], record, [], "");
    }
  }

  lemma HearingAddsCalls(sub: Sub, found: Option<Record>, record: Record, uid: string)
    ensures var r := HearRecord(sub, found); r == sub.(calls := r.calls) && sub.calls <= r.calls
    ensures var r := HearRegistration(sub, record, uid); r == sub.(calls := r.calls) && sub.calls <= r.calls
  {
    hide OwnDevices, Announced;
  }

  lemma ContactRegisteredChangesCalls(w: World, s: nat, record: Record, uid: string)
    requires SubsOk(w.config, w.subs)
    ensures SameButCalls(w.subs, ContactRegistered(w, s, record, uid).subs)
  {
    hide HearRegistration;
    if s in w.subs {
      HearingAddsCalls(w.subs[s], None, record, uid);
    }
  }

  lemma ContactRegisteredKeepsInv(w: World, s: nat, record: Record, uid: string)
    requires Inv(w)
    ensures Inv(ContactRegistered(w, s, record, uid))
  {
    hide StoreOk, CountsOk, AliveOk, HoldersOk, ObserversOk, DialogsOk, UseOk, CacheOk, RegistrarOk, SubsOk,
         SharedOk, IdsOk;
    ContactRegisteredChangesCalls(w, s, record, uid);
    CallsKeepInv(w, ContactRegistered(w, s, record, uid).subs);
  }

  lemma ReadingKeepsInv(w: World, c: nat, st: ClientState)
    requires Inv(w) && c in w.clients && w.clients[c].dialog.Some?
    requires st == w.clients[c].(devices := st.devices)
    ensures Inv(w.(clients := w.clients[c := st]))
  {
    hide StoreOk, CountsOk, AliveOk, HoldersOk, ObserversOk, DialogsOk, UseOk, CacheOk, RegistrarOk, SubsOk,
         SharedOk, IdsOk;
    var clients' := w.clients[c := st];
    HoldingKeeps(w.clients, clients', w.subs, Stored(w), w.cache);
    ReadingKeepsRest(w.subs, w.clients, w.events, w.cache, w.next, c, st);
  }

  lemma ReadingKeepsRest(subs: Subs, clients: Clients, events: Events, cache: map<string, nat>, next: nat,
                         c: nat, st: ClientState)
    requires c in clients && clients[c].dialog.Some? && st == clients[c].(devices := st.devices)
    ensures DialogsOk(events, clients) ==> DialogsOk(events, clients[c := st])
    ensures IdsOk(subs, clients, events, cache, next) ==> IdsOk(subs, clients[c := st], events, cache, next)
  {
  }

  lemma NotifyKeepsInv(w: World, e: nat, body: Body)
    requires Inv(w) && e in w.events
    ensures Dispatchable(w, e) && Inv(NotifyReceived(w, e, body))
  {
    if w.attached && w.events[e].data.Some? && body.Parsed? {
      var c, doc := w.events[e].data.value, body.document;
      var st := w.clients[c];
      DeliverKeepsInv(w, st.observers, Messages(doc, st.to.uri));
      ReadingKeepsInv(Deliver(w, st.observers, Messages(doc, st.to.uri)), c, ClientNotify(w, c, doc).clients[c]);
    }
  }

  // ---- Dialogs ----

  /** What a final state of a live dialog comes to: the event loses its data and is terminated once, the client forgets
      its dialog and its list. */
  function DialogEnded(w: World, c: nat): World
    requires HasDialog(w, c)
  {
    w.(events := w.events[w.clients[c].dialog.value := Dialog(None, 1)],
       clients := w.clients[c := w.clients[c].(dialog := None, devices := [])])
  }

  lemma FinalStateEndsDialog(w: World, c: nat, state: DialogState)
    requires DialogsOk(w.events, w.clients) && HasDialog(w, c) && Final(state)
    ensures ClientStateChanged(w, c, state) == DialogEnded(w, c)
  {
    var e := w.clients[c].dialog.value;
    assert w.events[e].data == Some(c);
    var w1 := SetData(w, e, None);
    var w2 := w1.(events := w1.events[e := Dialog(None, 1)]);
    assert Terminate(w1, e) == StateChanged(w2, e, Ended) == w2;
    assert w2.events == w.events[e := Dialog(None, 1)];
  }

  lemma DialogEndedKeepsInv(w: World, c: nat)
    requires Inv(w) && HasDialog(w, c)
    ensures Inv(DialogEnded(w, c))
  {
    hide StoreOk, CountsOk, AliveOk, HoldersOk, ObserversOk, DialogsOk, UseOk, CacheOk, RegistrarOk, SubsOk,
         SharedOk, IdsOk;
    HoldingKeeps(w.clients, DialogEnded(w, c).clients, w.subs, Stored(w), w.cache);
    DialogEndedKeepsRest(w, c);
  }

  lemma DialogEndedKeepsRest(w: World, c: nat)
    requires HasDialog(w, c)
    ensures var w' := DialogEnded(w, c);
            (DialogsOk(w.events, w.clients) ==> DialogsOk(w'.events, w'.clients)) &&
            (IdsOk(w.subs, w.clients, w.events, w.cache, w.next) ==>
               IdsOk(w.subs, w'.clients, w'.events, w.cache, w.next))
  {
  }

  lemma StateChangedKeepsInv(w: World, e: nat, state: DialogState)
    requires Inv(w) && e in w.events
    ensures Dispatchable(w, e) && Inv(StateChanged(w, e, state))
  {
    if w.attached && w.events[e].data.Some? && Final(state) {
      FinalStateEndsDialog(w, w.events[e].data.value, state);
      DialogEndedKeepsInv(w, w.events[e].data.value);
    }
  }

  lemma OpenDialogKeepsInv(w: World, c: nat)
    requires Inv(w) && c in w.clients && w.clients[c].dialog.None?
    ensures Inv(OpenDialog(w, c))
  {
    hide StoreOk, CountsOk, AliveOk, HoldersOk, ObserversOk, DialogsOk, UseOk, CacheOk, RegistrarOk, SharedOk, IdsOk;
    var w' := OpenDialog(w, c);
    CallsKeepInv(w, w'.subs);
    HoldingKeeps(w.clients, w'.clients, w'.subs, Stored(w), w.cache);
    OpenDialogKeepsRest(w, c);
  }

  lemma OpenDialogKeepsRest(w: World, c: nat)
    requires c in w.clients && w.clients[c].dialog.None?
    requires DialogsOk(w.events, w.clients) && IdsOk(w.subs, w.clients, w.events, w.cache, w.next)
    ensures var w' := OpenDialog(w, c);
            DialogsOk(w'.events, w'.clients) && IdsOk(w'.subs, w'.clients, w'.events, w'.cache, w'.next)
  {
  }

  lemma ClientSubscribeKeepsInv(w: World, c: nat, s: nat, answer: DialogState)
    requires Inv(w) && c in w.clients
    ensures Inv(ClientSubscribe(w, c, s, answer))
  {
    hide CoreInv;
    if w.clients[c].dialog.Some? {
      DeliverKeepsInv(w, {s}, [Snapshot(w.clients[c].devices)]);
    } else {
      OpenDialogKeepsInv(w, c);
      StateChangedKeepsInv(OpenDialog(w, c), w.next, answer);
    }
  }

  // ---- Leaving ----

  lemma ErasedValues(store: Store, subs: Subs, i: nat)
    requires StoreOk(store, subs) && i < |store|
    ensures Values(Erase(store, i)) == Values(store) - {store[i].value}
  {
    hide Values, Erase, Sorted, Keys;
    ValueOccursOnce(store, subs, i);
    ValuesSplit(store, i);
  }

  /** Entries are filed under one key and one room each, so that none is there twice. */
  lemma ValueOccursOnce(store: Store, subs: Subs, i: nat)
    requires StoreOk(store, subs) && i < |store|
    ensures forall j | 0 <= j < |store| && store[j].value == store[i].value :: j == i
  {
    hide Sorted, Keys;
  }

  lemma ValuesSplit(store: Store, i: nat)
    requires i < |store| && forall j | 0 <= j < |store| && store[j].value == store[i].value :: j == i
    ensures Values(Erase(store, i)) == Values(store) - {store[i].value}
  {
    var r := Erase(store, i);
    assert forall j | 0 <= j < |r| :: r[j] == store[if j < i then j else j + 1];
    forall j | 0 <= j < |store| && j != i ensures store[j].value in Values(r) {
      assert r[if j < i then j else j - 1] == store[j];
    }
  }

  lemma ErasedStore(store: Store, subs: Subs, i: nat)
    requires StoreOk(store, subs) && i < |store|
    ensures StoreOk(Erase(store, i), subs)
  {
  }

  /** Holders when one subscription leaves. */
  lemma HolderLeaves(subs: Subs, hs: set<nat>, s: nat)
    requires s in hs && s in subs
    ensures forall c :: Holders(subs, hs - {s}, c) ==
                        if subs[s].kind == External(c) then Holders(subs, hs, c) - {s} else Holders(subs, hs, c)
  {
  }

  /** What a client's destruction comes to. */
  function Destroyed(w: World, c: nat): World
    requires c in w.clients
  {
    UnregisterClient(w).(
      clients := w.clients - {c},
      events := match w.clients[c].dialog case None => w.events case Some(e) => w.events[e := Dialog(None, 1)])
  }

  lemma DestroyIsDestroyed(w: World, c: nat)
    requires c in w.clients && (w.clients[c].dialog.Some? ==> w.clients[c].dialog.value in w.events)
    requires w.clients[c].dialog.Some? ==> w.events[w.clients[c].dialog.value].terminated == 0
    ensures Destroy(w, c) == Destroyed(w, c)
  {
    var w1 := UnregisterClient(w);
    if w.clients[c].dialog.Some? {
      var e := w.clients[c].dialog.value;
      var w2 := SetData(w1, e, None);
      var w3 := w2.(events := w2.events[e := Dialog(None, 1)]);
      assert Terminate(w2, e) == StateChanged(w3, e, Ended) == w3;
      assert w3.events == w.events[e := Dialog(None, 1)];
      assert w1.clients[c := w1.clients[c].(dialog := None)] - {c} == w.clients - {c};
    }
  }

  lemma Singleton(xs: set<nat>, a: nat, b: nat)
    requires |xs| == 1 && a in xs && b in xs
    ensures a == b
  {
    assert |xs - {a}| == 0;
  }

  /** The last holder of a client leaves: the client is destroyed. */
  lemma LastHolderLeaves(w: World, hs: set<nat>, s: nat, c: nat)
    requires CountsOk(w.clients, w.subs, hs) && HoldersOk(w.clients, w.subs, hs)
    requires s in hs && s in w.subs && w.subs[s].kind == External(c) && c in w.clients && w.clients[c].strong == 1
    ensures CountsOk(w.clients - {c}, w.subs, hs - {s}) && HoldersOk(w.clients - {c}, w.subs, hs - {s})
  {
    HolderLeaves(w.subs, hs, s);
    forall t | t in hs - {s} && w.subs[t].kind.External? ensures w.subs[t].kind.client != c {
      if w.subs[t].kind == External(c) {
        Singleton(Holders(w.subs, hs, c), s, t);
      }
    }
  }

  lemma DestroyedKeepsDialogs(w: World, c: nat)
    requires c in w.clients && DialogsOk(w.events, w.clients)
    ensures DialogsOk(Destroyed(w, c).events, w.clients - {c})
  {
  }

  lemma DestroyedKeepsUse(w: World, c: nat)
    requires c in w.clients && UseOk(w.useCount, w.attached, w.coreCalls, w.clients.Keys)
    ensures var w' := Destroyed(w, c); UseOk(w'.useCount, w'.attached, w'.coreCalls, w'.clients.Keys)
  {
  }

  lemma DestroyedKeepsRest(w: World, c: nat)
    requires c in w.clients && DialogsOk(w.events, w.clients)
    ensures var w' := Destroyed(w, c);
            (AliveOk(w.clients) ==> AliveOk(w'.clients)) &&
            (CacheOk(w.cache, w.clients) ==> CacheOk(w.cache, w'.clients)) &&
            (SharedOk(w.subs, w.clients) ==> SharedOk(w.subs, w'.clients)) &&
            (IdsOk(w.subs, w.clients, w.events, w.cache, w.next) ==>
               IdsOk(w.subs, w'.clients, w'.events, w.cache, w.next))
  {
  }

  lemma OneOfSeveralLeaves(clients: Clients, subs: Subs, hs: set<nat>, s: nat, c: nat)
    requires CountsOk(clients, subs, hs) && AliveOk(clients) && HoldersOk(clients, subs, hs)
    requires s in hs && s in subs && subs[s].kind == External(c) && c in clients && clients[c].strong > 1
    ensures var clients' := clients[c := clients[c].(strong := clients[c].strong - 1)];
            CountsOk(clients', subs, hs - {s}) && AliveOk(clients') && HoldersOk(clients', subs, hs - {s})
  {
    HolderLeaves(subs, hs, s);
  }

  lemma CountsDoNotMatter(w: World, c: nat, k: nat)
    requires c in w.clients
    ensures var clients' := w.clients[c := w.clients[c].(strong := k)];
            (DialogsOk(w.events, w.clients) ==> DialogsOk(w.events, clients')) &&
            (CacheOk(w.cache, w.clients) ==> CacheOk(w.cache, clients')) &&
            (SharedOk(w.subs, w.clients) ==> SharedOk(w.subs, clients')) &&
            (IdsOk(w.subs, w.clients, w.events, w.cache, w.next) ==> IdsOk(w.subs, clients', w.events, w.cache, w.next))
  {
  }

  /** What dropping the shared pointer of one holder comes to. */
  function Released(w: World, c: nat): World
    requires c in w.clients && w.clients[c].strong > 0
  {
    if w.clients[c].strong == 1 then Destroyed(w, c)
    else w.(clients := w.clients[c := w.clients[c].(strong := w.clients[c].strong - 1)])
  }

  lemma ReleaseIsReleased(w: World, c: nat)
    requires c in w.clients && w.clients[c].strong > 0
    requires w.clients[c].dialog.Some? ==> w.clients[c].dialog.value in w.events
    requires w.clients[c].dialog.Some? ==> w.events[w.clients[c].dialog.value].terminated == 0
    ensures Release(w, c) == Released(w, c)
  {
    if w.clients[c].strong == 1 {
      var w1 := w.(clients := w.clients[c := w.clients[c].(strong := 0)]);
      DestroyIsDestroyed(w1, c);
      assert w1.clients - {c} == w.clients - {c};
    }
  }

  lemma ReleasedKeepsCore(w: World, hs: set<nat>, s: nat, c: nat)
    requires CoreInv(w, hs) && s in hs && s in w.subs && w.subs[s].kind == External(c)
    requires c in w.clients && w.clients[c].strong > 0
    ensures CoreInv(Released(w, c), hs - {s})
  {
    hide StoreOk, CountsOk, AliveOk, HoldersOk, ObserversOk, DialogsOk, UseOk, CacheOk, RegistrarOk, SubsOk,
         SharedOk, IdsOk;
    if w.clients[c].strong == 1 {
      LastHolderLeaves(w, hs, s, c);
      DestroyedKeepsDialogs(w, c);
      DestroyedKeepsUse(w, c);
      DestroyedKeepsRest(w, c);
    } else {
      OneOfSeveralLeaves(w.clients, w.subs, hs, s, c);
      CountsDoNotMatter(w, c, w.clients[c].strong - 1);
      assert Released(w, c).clients.Keys == w.clients.Keys;
    }
  }

  lemma StoredAreDroppable(w: World, hs: set<nat>, s: nat)
    requires CoreInv(w, hs) && s in hs
    ensures Stoppable(w, s) && Droppable(w, s)
    ensures w.subs[s].kind.External? ==>
              var c := w.subs[s].kind.client;
              w.clients[c].dialog.Some? ==> w.events[w.clients[c].dialog.value].terminated == 0
  {
  }

  lemma OwnLeaves(w: World, i: nat)
    requires Inv(w) && i < |w.store| && w.store[i].value in w.subs && w.subs[w.store[i].value].kind.Own?
    ensures Droppable(w, w.store[i].value) && Inv(Evict(w, i))
  {
    hide StoreOk, CountsOk, AliveOk, HoldersOk, ObserversOk, DialogsOk, UseOk, CacheOk, RegistrarOk, SubsOk,
         SharedOk, IdsOk;
    var s := w.store[i].value;
    var subs' := StopSub(w, s).subs;
    ErasedValues(w.store, w.subs, i);
    ErasedStore(w.store, w.subs, i);
    OwnLeavesSubs(w, s);
    OwnLeavesHolders(w.clients, w.subs, subs', Stored(w), s);
    SwitchKeepsStore(Erase(w.store, i), w.subs, subs');
  }

  lemma SwitchKeepsStore(store: Store, subs: Subs, subs': Subs)
    requires subs'.Keys == subs.Keys
    requires forall s | s in subs :: subs'[s] == subs[s].(active := subs'[s].active)
    ensures StoreOk(store, subs) ==> StoreOk(store, subs')
  {
  }

  lemma OwnLeavesHolders(clients: Clients, subs: Subs, subs': Subs, hs: set<nat>, s: nat)
    requires s in subs && s in hs && subs[s].kind.Own?
    requires subs' == subs || subs' == subs[s := subs[s].(active := false)]
    ensures CountsOk(clients, subs, hs) ==> CountsOk(clients, subs', hs - {s})
    ensures HoldersOk(clients, subs, hs) ==> HoldersOk(clients, subs', hs - {s})
    ensures ObserversOk(clients, subs, hs) ==> ObserversOk(clients, subs', hs - {s})
    ensures SharedOk(subs, clients) ==> SharedOk(subs', clients)
    ensures ExternalUris(subs') == ExternalUris(subs)
  {
    forall c ensures Holders(subs', hs - {s}, c) == Holders(subs, hs, c) {
    }
    SwitchKeepsUris(subs, subs');
  }

  lemma SwitchKeepsUris(subs: Subs, subs': Subs)
    requires subs'.Keys == subs.Keys
    requires forall s | s in subs :: subs'[s] == subs[s].(active := subs'[s].active)
    ensures ExternalUris(subs') == ExternalUris(subs)
  {
  }

  lemma OwnLeavesSubs(w: World, s: nat)
    requires s in w.subs && s in Stored(w) && w.subs[s].kind.Own?
    ensures var w' := StopSub(w, s);
            (SubsOk(w.config, w.subs) ==> SubsOk(w.config, w'.subs)) &&
            (RegistrarOk(w.subs, Stored(w), w.listeners, w.fetches) ==>
               RegistrarOk(w'.subs, Stored(w) - {s}, w'.listeners, w.fetches)) &&
            (IdsOk(w.subs, w.clients, w.events, w.cache, w.next) ==>
               IdsOk(w'.subs, w.clients, w.events, w.cache, w.next))
  {
  }

  /** What the leaving of an external subscription comes to. */
  function ExternalLeft(w: World, i: nat): World
    requires i < |w.store| && Droppable(w, w.store[i].value) && w.subs[w.store[i].value].kind.External?
  {
    var s := w.store[i].value;
    var c := w.subs[s].kind.client;
    Released(w.(store := Erase(w.store, i),
                clients := w.clients[c := w.clients[c].(observers := w.clients[c].observers - {s})]), c)
  }

  lemma EvictIsExternalLeft(w: World, i: nat)
    requires CoreInv(w, Stored(w)) && i < |w.store|
    requires w.store[i].value in w.subs && w.subs[w.store[i].value].kind.External?
    ensures Droppable(w, w.store[i].value) && Evict(w, i) == ExternalLeft(w, i)
  {
    var s := w.store[i].value;
    var c := w.subs[s].kind.client;
    StoredAreDroppable(w, Stored(w), s);
    hide CoreInv, Release, Released;
    ReleaseIsReleased(StopSub(w, s).(store := Erase(w.store, i)), c);
  }

  lemma ExternalLeaves(w: World, i: nat)
    requires Inv(w) && i < |w.store| && Droppable(w, w.store[i].value) && w.subs[w.store[i].value].kind.External?
    ensures Inv(ExternalLeft(w, i))
  {
    hide StoreOk, CoreInv, ObserversOk, RegistrarOk, Released;
    var s := w.store[i].value;
    var c := w.subs[s].kind.client;
    var w1 := w.(store := Erase(w.store, i));
    ErasedValues(w.store, w.subs, i);
    ErasedStore(w.store, w.subs, i);
    StoreDoesNotMatter(w, w1, Stored(w));
    UnobservedKeepsCore(w1, Stored(w), c, w.clients[c].observers - {s});
    var clients := w.clients[c := w.clients[c].(observers := w.clients[c].observers - {s})];
    ReleasedKeepsCore(w1.(clients := clients), Stored(w), s, c);
    ExternalLeavesRest(w1, Stored(w), s, c);
  }

  lemma StoreDoesNotMatter(w: World, w': World, hs: set<nat>)
    requires CoreInv(w, hs) && w' == w.(store := w'.store)
    ensures CoreInv(w', hs)
  {
  }

  lemma ExternalLeavesRest(w: World, hs: set<nat>, s: nat, c: nat)
    requires s in hs && s in w.subs && w.subs[s].kind == External(c) && c in w.clients && w.clients[c].strong > 0
    ensures var w1 := w.(clients := w.clients[c := w.clients[c].(observers := w.clients[c].observers - {s})]);
            var w' := Released(w1, c);
            w'.subs == w.subs && w'.store == w.store && w'.listeners == w.listeners && w'.fetches == w.fetches &&
            (ObserversOk(w.clients, w.subs, hs) ==> ObserversOk(w'.clients, w.subs, hs - {s})) &&
            (RegistrarOk(w.subs, hs, w.listeners, w.fetches) ==> RegistrarOk(w.subs, hs - {s}, w.listeners, w.fetches))
  {
  }

  lemma UnobservedKeepsCore(w: World, hs: set<nat>, c: nat, observers: set<nat>)
    requires CoreInv(w, hs) && c in w.clients
    ensures CoreInv(w.(clients := w.clients[c := w.clients[c].(observers := observers)]), hs)
  {
    hide CountsOk, AliveOk, HoldersOk, DialogsOk, UseOk, CacheOk, SubsOk, SharedOk, IdsOk;
    UnobservedKeepsRest(w, hs, c, observers);
    assert w.clients[c := w.clients[c].(observers := observers)].Keys == w.clients.Keys;
  }

  lemma UnobservedKeepsRest(w: World, hs: set<nat>, c: nat, observers: set<nat>)
    requires c in w.clients
    ensures var clients' := w.clients[c := w.clients[c].(observers := observers)];
            (CountsOk(w.clients, w.subs, hs) ==> CountsOk(clients', w.subs, hs)) &&
            (AliveOk(w.clients) ==> AliveOk(clients')) &&
            (HoldersOk(w.clients, w.subs, hs) ==> HoldersOk(clients', w.subs, hs)) &&
            (DialogsOk(w.events, w.clients) ==> DialogsOk(w.events, clients')) &&
            (CacheOk(w.cache, w.clients) ==> CacheOk(w.cache, clients')) &&
            (SharedOk(w.subs, w.clients) ==> SharedOk(w.subs, clients')) &&
            (IdsOk(w.subs, w.clients, w.events, w.cache, w.next) ==> IdsOk(w.subs, clients', w.events, w.cache, w.next))
  {
  }

  lemma EvictKeepsInv(w: World, i: nat)
    requires Inv(w) && i < |w.store|
    ensures Droppable(w, w.store[i].value) && Inv(Evict(w, i))
  {
    assert w.store[i].value in w.subs;
    hide CoreInv, StoreOk, ObserversOk, RegistrarOk;
    if w.subs[w.store[i].value].kind.Own? {
      OwnLeaves(w, i);
    } else {
      EvictIsExternalLeft(w, i);
      ExternalLeaves(w, i);
    }
  }
}
