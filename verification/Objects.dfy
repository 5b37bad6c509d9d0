/** The objects of the subsystem, updated in place. A ghost `System` knows them all; its `w` is the state they stand
    for, and every method says which step of `World` it takes. */
module Objects {
  import opened Text
  import opened Capabilities
  import opened Reginfo
  import opened Multimap
  import opened World
  import W = World
  import opened Invariants
  import opened Lifecycle
  import opened Runs

  /** All objects, by the numbers `World` gives them. */
  class System {
    ghost var w: World
    ghost var clients: map<nat, Client>
    ghost var events: map<nat, Event>
    ghost var subs: map<nat, Subscription>
    ghost var objects: set<object>
    ghost const core: Core
    ghost const factory: ClientFactory
    ghost const registrar: RegistrarDb
    ghost const clientsStore: ClientsStore
    ghost const store: SubscriptionStore

    ghost constructor (config: Config, core: Core, factory: ClientFactory, registrar: RegistrarDb,
                       clientsStore: ClientsStore, store: SubscriptionStore)
      requires factory.mCore == core && core.listener == null && core.calls == [] && factory.mUseCount == 0
      requires registrar.listeners == {} && registrar.fetches == {}
      requires clientsStore.mClients == map[] && store.mSubscriptions == []
      ensures Coupled() && w == Start(config) && w.config == config
      ensures objects == {core, factory, registrar, clientsStore, store}
      ensures this.core == core && this.factory == factory && this.registrar == registrar
      ensures this.clientsStore == clientsStore && this.store == store
    {
      w := Start(config);
      clients, events, subs := map[], map[], map[];
      this.core, this.factory, this.registrar := core, factory, registrar;
      this.clientsStore, this.store := clientsStore, store;
      objects := {core, factory, registrar, clientsStore, store};
    }

    /** The objects are in the state `w`. */
    ghost predicate Coupled()
      reads this, objects
    {
      Registered() && Numbered() && RootsCoupled(w) && ClientsCoupled(w.clients) && EventsCoupled(w.events) &&
        SubsCoupled(w.subs)
    }

    /** Every object is known under its number. Destroyed clients stay known, so that stale pointers have a referent. */
    ghost predicate Registered()
      reads this`clients, this`events, this`subs, this`objects
    {
      (this as object) !in objects &&
      core in objects && factory in objects && registrar in objects && clientsStore in objects && store in objects &&
      factory.mCore == core &&
      (forall c | c in clients :: clients[c] in objects && clients[c].id == c && clients[c].mFactory == factory) &&
      (forall e | e in events :: events[e] in objects && events[e].id == e && events[e].core == core) &&
      (forall s | s in subs :: subs[s] in objects && subs[s].id == s && subs[s].mRegistrarDb == registrar)
    }

    /** Numbers are handed out in order. */
    ghost predicate Numbered()
      reads this`w, this`clients, this`events, this`subs
    {
      (forall c | c in clients :: c < w.next) && (forall e | e in events :: e < w.next) &&
        (forall s | s in subs :: s < w.next)
    }

    ghost predicate Knows(c: Client) reads this`clients { c.id in clients && clients[c.id] == c }
    ghost predicate KnowsEvent(e: Event) reads this`events { e.id in events && events[e.id] == e }
    ghost predicate KnowsSub(s: Subscription) reads this`subs { s.id in subs && subs[s.id] == s }

    /** A set of subscriptions stands for the set of their numbers. */
    ghost predicate SameSubs(os: set<Subscription>, ids: set<nat>)
      reads this`subs
    {
      (forall o | o in os :: KnowsSub(o) && o.id in ids) &&
      (forall s | s in ids :: s in subs && subs[s] in os)
    }

    ghost predicate RootsCoupled(w: World)
      reads this`subs, this`clients, core, factory, registrar, clientsStore, store
    {
      factory.mUseCount == w.useCount && core.calls == w.coreCalls &&
      core.listener == (if w.attached then factory else null) &&
      SameSubs(registrar.listeners, w.listeners) && SameSubs(registrar.fetches, w.fetches) &&
      CacheCoupled(clientsStore.mClients, w.cache) && StoreCoupled(store.mSubscriptions, w.store)
    }

    ghost predicate CacheCoupled(cached: map<string, Client>, ids: map<string, nat>)
      reads this`clients
    {
      cached.Keys == ids.Keys && forall u | u in ids :: cached[u].id == ids[u] && Knows(cached[u])
    }

    ghost predicate StoreCoupled(entries: seq<Entry<Subscription>>, ids: seq<Entry<nat>>)
      reads this`subs
    {
      |entries| == |ids| &&
      forall i | 0 <= i < |ids| ::
        entries[i].key == ids[i].key && entries[i].value.id == ids[i].value && KnowsSub(entries[i].value)
    }

    /** Live clients are in their states; the pointers to destroyed ones have expired. */
    ghost predicate ClientsCoupled(states: map<nat, ClientState>)
      reads this`clients, this`events, this`subs, clients.Values
    {
      LiveCoupled(states) && forall c | c in clients && c !in states :: clients[c].strong == 0
    }

    ghost predicate LiveCoupled(states: map<nat, ClientState>)
      reads this`clients, this`events, this`subs, clients.Values
    {
      states.Keys <= clients.Keys && forall c | c in states :: ClientCoupled(clients[c], states[c])
    }

    ghost predicate ClientCoupled(o: Client, st: ClientState)
      reads this`events, this`subs, o
    {
      o.mTo == st.to && o.mParticipantDevices == st.devices && o.strong == st.strong &&
      SameSubs(o.observers, st.observers) &&
      (if o.mSubscribeEvent == null then st.dialog.None?
       else st.dialog == Some(o.mSubscribeEvent.id) && KnowsEvent(o.mSubscribeEvent))
    }

    ghost predicate EventsCoupled(states: map<nat, Dialog>)
      reads this`clients, this`events, events.Values
    {
      states.Keys == events.Keys && forall e | e in states :: EventCoupled(events[e], states[e])
    }

    ghost predicate EventCoupled(o: Event, d: Dialog)
      reads this`clients, o
    {
      o.terminated == d.terminated &&
      (if o.data == null then d.data.None? else d.data == Some(o.data.id) && Knows(o.data))
    }

    ghost predicate SubsCoupled(states: map<nat, Sub>)
      reads this`clients, this`subs, subs.Values
    {
      states.Keys == subs.Keys && forall s | s in states :: SubCoupled(subs[s], states[s])
    }

    ghost predicate SubCoupled(o: Subscription, sub: Sub)
      reads this`clients, o
    {
      o.mChatRoom == sub.room && o.mParticipant == sub.participant && o.mCheckCapabilities == sub.check &&
      o.mActive == sub.active && o.calls == sub.calls && o.mark == sub.mark &&
      (if o.mClient == null then sub.kind.Own? else sub.kind == External(o.mClient.id) && Knows(o.mClient))
    }

    /** Objects are never forgotten. */
    twostate predicate Grown()
      reads this`clients, this`events, this`subs, this`objects
    {
      (forall c | c in old(clients) :: c in clients && clients[c] == old(clients[c])) &&
      (forall e | e in old(events) :: e in events && events[e] == old(events[e])) &&
      (forall s | s in old(subs) :: s in subs && subs[s] == old(subs[s])) &&
      old(objects) <= objects && fresh(objects - old(objects))
    }

    // ---- Frames: what a change to one object leaves coupled ----

    twostate predicate SameRegistry()
      reads this`clients, this`events, this`subs, this`objects
    {
      clients == old(clients) && events == old(events) && subs == old(subs) && objects == old(objects)
    }

    twostate predicate MapsGrow()
      reads this`clients, this`events, this`subs
    {
      (forall c | c in old(clients) :: c in clients && clients[c] == old(clients[c])) &&
      (forall e | e in old(events) :: e in events && events[e] == old(events[e])) &&
      (forall s | s in old(subs) :: s in subs && subs[s] == old(subs[s]))
    }

    ghost predicate SameRootState(w: World, w': World) {
      w'.useCount == w.useCount && w'.coreCalls == w.coreCalls && w'.attached == w.attached &&
      w'.listeners == w.listeners && w'.fetches == w.fetches && w'.cache == w.cache && w'.store == w.store
    }

    twostate predicate SameRoots()
      reads core, factory, registrar, clientsStore, store
    {
      unchanged(core) && unchanged(factory) && unchanged(registrar) && unchanged(clientsStore) && unchanged(store)
    }

    twostate predicate SameClients()
      reads *
    {
      forall c | c in old(clients) :: unchanged(old(clients)[c])
    }

    twostate predicate SameEvents()
      reads *
    {
      forall e | e in old(events) :: unchanged(old(events)[e])
    }

    twostate predicate SameSubscriptions()
      reads *
    {
      forall s | s in old(subs) :: unchanged(old(subs)[s])
    }

    twostate lemma ClientsUntouched(states: map<nat, ClientState>)
      requires MapsGrow() && clients == old(clients) && old(ClientsCoupled(states)) && SameClients()
      ensures ClientsCoupled(states)
    {
      hide ClientCoupled;
      LiveUntouched(states);
    }

    twostate lemma LiveUntouched(states: map<nat, ClientState>)
      requires MapsGrow() && old(LiveCoupled(states)) && SameClients()
      ensures LiveCoupled(states)
    {
      hide SameSubs;
      forall c | c in states ensures ClientCoupled(clients[c], states[c]) {
        SameSubsGrow((clients[c].observers, states[c].observers));
      }
    }

    twostate lemma SameSubsGrow(pair: (set<Subscription>, set<nat>))
      requires MapsGrow()
      ensures old(SameSubs(pair.0, pair.1)) ==> SameSubs(pair.0, pair.1)
    {
    }

    twostate lemma EventsUntouched(states: map<nat, Dialog>)
      requires MapsGrow() && events == old(events) && old(EventsCoupled(states)) && SameEvents()
      ensures EventsCoupled(states)
    {
    }

    twostate lemma SubsUntouched(states: map<nat, Sub>)
      requires MapsGrow() && subs == old(subs) && old(SubsCoupled(states)) && SameSubscriptions()
      ensures SubsCoupled(states)
    {
    }

    twostate lemma OldSubsUntouched(states: map<nat, Sub>)
      requires MapsGrow() && old(SubsCoupled(states)) && SameSubscriptions()
      ensures states.Keys == old(subs).Keys && forall s | s in states :: SubCoupled(subs[s], states[s])
    {
    }

    twostate lemma RootsUntouched()
      requires MapsGrow() && old(RootsCoupled(w)) && SameRoots() && SameRootState(old(w), w)
      ensures RootsCoupled(w)
    {
      hide SameSubs;
      SameSubsGrow((registrar.listeners, w.listeners));
      SameSubsGrow((registrar.fetches, w.fetches));
    }

    twostate lemma EventTouched(e: Event)
      requires SameRegistry() && old(EventsCoupled(w.events))
      requires KnowsEvent(e) && e.id in w.events && EventCoupled(e, w.events[e.id])
      requires w.events == old(w).events[e.id := w.events[e.id]]
      requires forall i | i in old(events) && i != e.id :: unchanged(old(events)[i])
      ensures EventsCoupled(w.events)
    {
    }

    twostate lemma ClientTouched(c: Client)
      requires SameRegistry() && old(ClientsCoupled(w.clients))
      requires Knows(c) && c.id in w.clients && ClientCoupled(c, w.clients[c.id])
      requires w.clients == old(w).clients[c.id := w.clients[c.id]]
      requires forall i | i in old(clients) && i != c.id :: unchanged(old(clients)[i])
      ensures ClientsCoupled(w.clients)
    {
      hide SameSubs;
    }

    twostate lemma SubTouched(s: Subscription)
      requires SameRegistry() && old(SubsCoupled(w.subs))
      requires KnowsSub(s) && s.id in w.subs && SubCoupled(s, w.subs[s.id])
      requires w.subs == old(w).subs[s.id := w.subs[s.id]]
      requires forall i | i in old(subs) && i != s.id :: unchanged(old(subs)[i])
      ensures SubsCoupled(w.subs)
    {
    }

    /** An event, and nothing else, has been created. */
    twostate lemma EventAdded(new e: Event)
      requires old(Coupled()) && Registered() && SameEvents() && SameClients() && SameSubscriptions() && SameRoots()
      requires e.id == old(w.next) && w.next == e.id + 1 && events == old(events)[e.id := e] &&
               clients == old(clients) && subs == old(subs)
      requires e.id in w.events && EventCoupled(e, w.events[e.id])
      requires w == old(w).(events := old(w).events[e.id := w.events[e.id]], next := w.next)
      ensures Coupled()
    {
      hide RootsCoupled, ClientsCoupled, SubsCoupled;
      ClientsUntouched(w.clients);
      SubsUntouched(w.subs);
      RootsUntouched();
    }

    /** A client, and nothing else, has been created. */
    twostate lemma ClientAdded(new c: Client)
      requires old(Coupled()) && Registered() && SameEvents() && SameClients() && SameSubscriptions() && SameRoots()
      requires c.id == old(w.next) && w.next == c.id + 1 && clients == old(clients)[c.id := c] &&
               events == old(events) && subs == old(subs)
      requires c.id in w.clients && ClientCoupled(c, w.clients[c.id])
      requires w == old(w).(clients := old(w).clients[c.id := w.clients[c.id]], next := w.next)
      ensures Coupled()
    {
      hide RootsCoupled, EventsCoupled, SubsCoupled, ClientCoupled;
      var others := old(w.clients);
      assert old(ClientsCoupled(w.clients));
      LiveUntouched(others);
      EventsUntouched(w.events);
      SubsUntouched(w.subs);
      RootsUntouched();
    }

    /** A subscription, and nothing else, has been created. */
    twostate lemma SubAdded(new s: Subscription)
      requires old(Coupled()) && Registered() && SameEvents() && SameClients() && SameSubscriptions() && SameRoots()
      requires s.id == old(w.next) && w.next == s.id + 1 && subs == old(subs)[s.id := s] &&
               events == old(events) && clients == old(clients)
      requires s.id in w.subs && SubCoupled(s, w.subs[s.id])
      requires w == old(w).(subs := old(w).subs[s.id := w.subs[s.id]], next := w.next)
      ensures Coupled()
    {
      hide RootsCoupled, ClientsCoupled, EventsCoupled, SubCoupled;
      OldSubsUntouched(old(w.subs));
      ClientsUntouched(w.clients);
      EventsUntouched(w.events);
      RootsUntouched();
    }

    /** An event, and nothing else, has changed. */
    twostate lemma OnlyEventTouched(e: Event)
      requires old(Coupled()) && SameRegistry() && SameClients() && SameSubscriptions() && SameRoots()
      requires KnowsEvent(e) && e.id in w.events && EventCoupled(e, w.events[e.id])
      requires w == old(w).(events := old(w).events[e.id := w.events[e.id]])
      requires forall i | i in old(events) && i != e.id :: unchanged(old(events)[i])
      ensures Coupled()
    {
      hide RootsCoupled, ClientsCoupled, EventsCoupled, SubsCoupled;
      EventTouched(e);
      ClientsUntouched(w.clients);
      SubsUntouched(w.subs);
      RootsUntouched();
    }

    /** A client, and nothing else, has changed. */
    twostate lemma OnlyClientTouched(c: Client)
      requires old(Coupled()) && SameRegistry() && SameEvents() && SameSubscriptions() && SameRoots()
      requires Knows(c) && c.id in w.clients && ClientCoupled(c, w.clients[c.id])
      requires w == old(w).(clients := old(w).clients[c.id := w.clients[c.id]])
      requires forall i | i in old(clients) && i != c.id :: unchanged(old(clients)[i])
      ensures Coupled()
    {
      hide RootsCoupled, ClientsCoupled, EventsCoupled, SubsCoupled;
      ClientTouched(c);
      EventsUntouched(w.events);
      SubsUntouched(w.subs);
      RootsUntouched();
    }

    /** A subscription, and nothing else, has changed. */
    twostate lemma OnlySubTouched(s: Subscription)
      requires old(Coupled()) && SameRegistry() && SameEvents() && SameClients() && SameRoots()
      requires KnowsSub(s) && s.id in w.subs && SubCoupled(s, w.subs[s.id])
      requires w == old(w).(subs := old(w).subs[s.id := w.subs[s.id]])
      requires forall i | i in old(subs) && i != s.id :: unchanged(old(subs)[i])
      ensures Coupled()
    {
      hide RootsCoupled, ClientsCoupled, EventsCoupled, SubsCoupled;
      SubTouched(s);
      EventsUntouched(w.events);
      ClientsUntouched(w.clients);
      RootsUntouched();
    }

    /** A root, and nothing else, has changed. */
    twostate lemma OnlyRootsTouched()
      requires old(Coupled()) && SameRegistry() && SameEvents() && SameClients() && SameSubscriptions()
      requires RootsCoupled(w) && factory.mCore == core
      requires w.clients == old(w).clients && w.events == old(w).events && w.subs == old(w).subs &&
               w.next == old(w).next
      ensures Coupled()
    {
      hide RootsCoupled, ClientsCoupled, EventsCoupled, SubsCoupled;
      EventsUntouched(w.events);
      ClientsUntouched(w.clients);
      SubsUntouched(w.subs);
    }

    /** Marks, and nothing else, have moved. */
    twostate lemma OnlyMarksMoved(marked: (set<Subscription>, set<nat>))
      requires old(Coupled()) && SameRegistry() && SameEvents() && SameClients() && SameRoots()
      requires old(SameSubs(marked.0, marked.1)) && w == W.Mark(old(w), marked.1)
      requires forall o: Subscription | old(allocated(o)) ::
                 if o in marked.0 then o.mark == |o.calls| && o.calls == old(o.calls) &&
                   o.mActive == old(o.mActive) else unchanged(o)
      ensures Coupled()
    {
      hide RootsCoupled, ClientsCoupled, EventsCoupled;
      EventsUntouched(w.events);
      ClientsUntouched(w.clients);
      RootsUntouched();
    }

    twostate lemma ClientForgotten(c: Client)
      requires old(Coupled()) && Knows(c) && c.strong == 0 && SameRegistry()
      requires SameEvents() && SameClients() && SameSubscriptions() && SameRoots()
      requires w == old(w).(clients := old(w).clients - {c.id})
      ensures Coupled()
    {
      hide RootsCoupled, EventsCoupled, SubsCoupled, ClientCoupled;
      ClientsUntouched(old(w.clients));
      EventsUntouched(w.events);
      SubsUntouched(w.subs);
      RootsUntouched();
    }

    /** A destroyed client is no longer part of the state. */
    ghost method Forget(c: Client)
      requires Coupled() && Knows(c) && c.strong == 0
      modifies this`w
      ensures Coupled() && w == old(w).(clients := old(w).clients - {c.id})
    {
      hide Coupled, RootsCoupled, EventsCoupled, SubsCoupled, ClientCoupled;
      Facts();
      assert Coupled();
      w := w.(clients := w.clients - {c.id});
      ClientForgotten(c);
    }

    ghost method AddEvent(e: Event)
      requires Coupled() && e.id == w.next && e.core == core && e.data == null && e.terminated == 0
      modifies this`w, this`events, this`objects
      ensures Coupled() && events == old(events)[e.id := e] && objects == old(objects) + {e}
      ensures w == old(w).(events := old(w).events[e.id := Dialog(None, 0)], next := e.id + 1)
    {
      hide RootsCoupled, ClientsCoupled, SubsCoupled, EventsCoupled, Coupled;
      Facts();
      events, objects := events[e.id := e], objects + {e};
      w := w.(events := w.events[e.id := Dialog(None, 0)], next := e.id + 1);
      EventAdded(e);
    }

    ghost method AddClient(c: Client)
      requires Coupled() && c.id == w.next && c.mFactory == factory && c.mSubscribeEvent == null
      requires c.mParticipantDevices == [] && c.observers == {} && c.strong == 1
      modifies this`w, this`clients, this`objects
      ensures Coupled() && clients == old(clients)[c.id := c] && objects == old(objects) + {c}
      ensures w == old(w).(clients := old(w).clients[c.id := ClientState(c.mTo, None, [], {}, 1)], next := c.id + 1)
    {
      hide RootsCoupled, ClientsCoupled, SubsCoupled, EventsCoupled, Coupled;
      Facts();
      clients, objects := clients[c.id := c], objects + {c};
      w := w.(clients := w.clients[c.id := ClientState(c.mTo, None, [], {}, 1)], next := c.id + 1);
      ClientAdded(c);
    }

    ghost method AddSub(s: Subscription)
      requires Coupled() && s.id == w.next && s.mRegistrarDb == registrar && !s.mActive
      requires s.calls == [] && s.mark == 0 && (s.mClient != null ==> Knows(s.mClient))
      modifies this`w, this`subs, this`objects
      ensures Coupled() && subs == old(subs)[s.id := s] && objects == old(objects) + {s}
      ensures var kind := if s.mClient == null then Own else External(s.mClient.id);
              w == old(w).(subs := old(w).subs[s.id :=
                             Sub(s.mChatRoom, s.mParticipant, s.mCheckCapabilities, kind, false, [], 0)],
                           next := s.id + 1)
    {
      hide RootsCoupled, ClientsCoupled, SubsCoupled, EventsCoupled, Coupled;
      Facts();
      var kind := if s.mClient == null then Own else External(s.mClient.id);
      subs, objects := subs[s.id := s], objects + {s};
      w := w.(subs := w.subs[s.id := Sub(s.mChatRoom, s.mParticipant, s.mCheckCapabilities, kind, false, [], 0)],
              next := s.id + 1);
      SubAdded(s);
    }

    lemma SameSubsLess(os: set<Subscription>, ids: set<nat>, o: Subscription)
      requires Registered() && SameSubs(os, ids) && o in os
      ensures KnowsSub(o) && o.id in ids && SameSubs(os - {o}, ids - {o.id})
    {
    }

    lemma SameSubsNone(ids: set<nat>)
      requires SameSubs({}, ids)
      ensures ids == {}
    {
    }

    /** The observers of a client note where their calls are. */
    ghost method MoveMarks(os: set<Subscription>, ids: set<nat>)
      requires Coupled() && SameSubs(os, ids)
      modifies this`w, os`mark
      ensures Coupled() && w == W.Mark(old(w), ids)
    {
      hide Coupled, RootsCoupled, ClientsCoupled, EventsCoupled;
      assert Coupled();
      forall o | o in os {
        o.mark := |o.calls|;
      }
      w := W.Mark(w, ids);
      OnlyMarksMoved((os, ids));
    }

    // ---- What the coupling says of one object ----

    lemma Facts()
      requires Coupled()
      ensures Registered() && Numbered() && w.clients.Keys <= clients.Keys && w.events.Keys == events.Keys &&
              w.subs.Keys == subs.Keys
    {
      hide ClientCoupled, EventCoupled, SubCoupled;
    }

    lemma NewName()
      requires Coupled()
      ensures w.next !in w.events
    {
    }

    lemma ClientFacts(c: Client)
      requires Coupled() && Knows(c) && c.id in w.clients
      ensures ClientCoupled(c, w.clients[c.id]) && Registered()
    {
      hide SameSubs;
    }

    /** The core tells the factory, if it tells anyone. */
    lemma Listening()
      requires RootsCoupled(w)
      ensures core.listener == if w.attached then factory else null
    {
    }

    /** Whether the registrar knows a listener. */
    lemma Pending(s: Subscription)
      requires Registered() && RootsCoupled(w) && KnowsSub(s)
      ensures s in registrar.fetches <==> s.id in w.fetches
    {
    }

    lemma CacheFacts(uri: string)
      requires Coupled()
      ensures uri in clientsStore.mClients <==> uri in w.cache
      ensures uri in w.cache ==>
                var c := clientsStore.mClients[uri];
                Knows(c) && c.id == w.cache[uri] && (c.id !in w.clients ==> c.strong == 0)
    {
    }

    lemma InsertedIsCoupled(entries: seq<Entry<Subscription>>, ids: seq<Entry<nat>>, key: string, s: Subscription)
      requires StoreCoupled(entries, ids) && KnowsSub(s)
      ensures StoreCoupled(Insert(entries, Entry(key, s)), Insert(ids, Entry(key, s.id)))
    {
    }

    lemma RememberedIsCoupled(cached: map<string, Client>, ids: map<string, nat>, uri: string, c: Client)
      requires CacheCoupled(cached, ids) && Knows(c)
      ensures CacheCoupled((cached - {uri})[uri := c], ids[uri := c.id])
    {
    }

    lemma StoreFacts()
      requires Coupled()
      ensures StoreCoupled(store.mSubscriptions, w.store) && Keys(store.mSubscriptions) == Keys(w.store)
    {
      hide ClientsCoupled, EventsCoupled, SubsCoupled, SameSubs, CacheCoupled;
    }

    lemma RootFacts()
      requires Coupled()
      ensures RootsCoupled(w) && Registered()
    {
    }

    /** A pointer to a client that is not part of the state has expired. */
    lemma Expired(c: Client)
      requires Coupled() && Knows(c) && c.id !in w.clients
      ensures c.strong == 0
    {
    }

    /** What a client changes while it reads a document is known. */
    lemma ObserversKnown(c: Client)
      requires Coupled() && Knows(c) && c.id in w.clients
      ensures c in objects && forall o: object | o in c.observers :: o in objects
    {
    }

    lemma EventFacts(e: Event)
      requires Coupled() && KnowsEvent(e)
      ensures e.id in w.events && EventCoupled(e, w.events[e.id]) && Registered()
    {
    }

    lemma SubFacts(s: Subscription)
      requires Coupled() && KnowsSub(s)
      ensures s.id in w.subs && SubCoupled(s, w.subs[s.id]) && Registered()
    {
    }
  }

  /** The parts of `linphone::Core` that are used: a listener that is told about events, the calls that set and unset
      it, and the creation of events. */
  class Core {
    var listener: ClientFactory?
    ghost var calls: seq<CoreCall>

    constructor ()
      ensures listener == null && calls == []
    {
      listener, calls := null, [];
    }

    method AddListener(factory: ClientFactory)
      modifies this
      ensures listener == factory && calls == old(calls) + [CoreCall.AddListener]
    {
      listener, calls := factory, calls + [CoreCall.AddListener];
    }

    method RemoveListener()
      modifies this
      ensures listener == null && calls == old(calls) + [CoreCall.RemoveListener]
    {
      listener, calls := null, calls + [CoreCall.RemoveListener];
    }

    /** A dialog changes state. */
    method SubscriptionStateChanged(ghost u: System, e: Event, state: DialogState)
      requires u.Coupled() && u.core == this && u.KnowsEvent(e) && Dispatchable(u.w, e.id)
      modifies u, u.objects
      ensures u.Coupled() && u.Grown() && u.w == W.StateChanged(old(u.w), e.id, state)
      decreases if e.data != null then 2 else 0, 2
    {
      if listener != null {
        listener.OnSubscriptionStateChanged(u, e, state);
      }
    }

    /** A dialog changes state on its own. */
    method StateReported(ghost u: System, e: Event, state: DialogState)
      requires u.Coupled() && u.core == this && u.KnowsEvent(e) && Inv(u.w)
      modifies u, u.objects
      ensures u.Coupled() && u.Grown() && Inv(u.w) && u.w == Step(old(u.w), StateOf(e.id, state))
    {
      hide System.Coupled, Inv;
      u.EventFacts(e);
      StateChangedKeepsInv(u.w, e.id, state);
      SubscriptionStateChanged(u, e, state);
    }

    /** A NOTIFY arrives in a dialog. */
    method NotifyReceived(ghost u: System, e: Event, body: Body)
      requires u.Coupled() && u.core == this && u.KnowsEvent(e) && Inv(u.w)
      modifies u, u.objects
      ensures u.Coupled() && u.Grown() && Inv(u.w) && u.w == Step(old(u.w), NotifyOn(e.id, body))
    {
      hide System.Coupled, System.RootsCoupled, Inv, ClientNotify;
      u.RootFacts();
      u.EventFacts(e);
      NotifyKeepsInv(u.w, e.id, body);
      u.Listening();
      if listener != null {
        listener.OnNotifyReceived(u, e, body);
      }
    }

    method CreateSubscribe(ghost u: System) returns (e: Event)
      requires u.Coupled() && u.core == this
      modifies u
      ensures u.Coupled() && u.Grown() && u.KnowsEvent(e) && e.id == old(u.w.next) && fresh(e)
      ensures u.w == W.NewEvent(old(u.w))
    {
      hide System.Coupled, System.RootsCoupled, System.ClientsCoupled, System.EventsCoupled, System.SubsCoupled;
      u.Facts();
      e := new Event(u.w.next, this);
      u.AddEvent(e);
    }
  }

  /** A SUBSCRIBE dialog; `data` is the raw pointer under the client's key. */
  class Event {
    ghost const id: nat
    const core: Core
    var data: Client?
    var terminated: nat

    constructor (ghost id: nat, core: Core)
      ensures this.id == id && this.core == core && data == null && terminated == 0
    {
      this.id, this.core, data, terminated := id, core, null, 0;
    }

    method SetData(ghost u: System, c: Client)
      requires u.Coupled() && u.KnowsEvent(this) && u.Knows(c)
      modifies u`w, this
      ensures u.Coupled() && id in old(u.w.events) && u.w == W.SetData(old(u.w), id, Some(c.id))
    {
      hide System.Coupled, System.RootsCoupled, System.ClientsCoupled, System.EventsCoupled, System.SubsCoupled,
           System.SameSubs;
      u.EventFacts(this);
      data := c;
      u.w := W.SetData(u.w, id, Some(c.id));
      u.OnlyEventTouched(this);
    }

    method UnsetData(ghost u: System)
      requires u.Coupled() && u.KnowsEvent(this)
      modifies u`w, this
      ensures u.Coupled() && id in old(u.w.events) && u.w == W.SetData(old(u.w), id, None)
      ensures data == null
    {
      hide System.Coupled, System.RootsCoupled, System.ClientsCoupled, System.EventsCoupled, System.SubsCoupled,
           System.SameSubs;
      u.EventFacts(this);
      data := null;
      u.w := W.SetData(u.w, id, None);
      u.OnlyEventTouched(this);
    }

    /** Ends the dialog; the core reports that before the call returns. */
    method Terminate(ghost u: System)
      requires u.Coupled() && u.KnowsEvent(this) && Dispatchable(u.w, id)
      modifies u, u.objects
      ensures u.Coupled() && u.Grown() && u.w == W.Terminate(old(u.w), id)
      decreases if data != null then 2 else 0, 3
    {
      hide System.Coupled, System.RootsCoupled, System.ClientsCoupled, System.EventsCoupled, System.SubsCoupled,
           System.SameSubs;
      u.EventFacts(this);
      CountTermination(u);
      core.SubscriptionStateChanged(u, this, Ended);
    }

    method CountTermination(ghost u: System)
      requires u.Coupled() && u.KnowsEvent(this) && id in u.w.events
      modifies u`w, this
      ensures u.Coupled() && data == old(data)
      ensures u.w == old(u.w).(events := old(u.w).events[id :=
                                 old(u.w).events[id].(terminated := old(u.w).events[id].terminated + 1)])
    {
      hide System.Coupled, System.RootsCoupled, System.ClientsCoupled, System.EventsCoupled, System.SubsCoupled,
           System.SameSubs;
      u.EventFacts(this);
      terminated := terminated + 1;
      u.w := u.w.(events := u.w.events[id := u.w.events[id].(terminated := u.w.events[id].terminated + 1)]);
      u.OnlyEventTouched(this);
    }

    /** Sends the SUBSCRIBE; `answer` is the state the core may report before the call returns. */
    method SendSubscribe(ghost u: System, answer: DialogState)
      requires u.Coupled() && u.KnowsEvent(this) && Dispatchable(u.w, id)
      modifies u, u.objects
      ensures u.Coupled() && u.Grown() && u.w == W.StateChanged(old(u.w), id, answer)
    {
      core.SubscriptionStateChanged(u, this, answer);
    }
  }

  class ClientFactory {
    const mCore: Core
    var mUseCount: int

    constructor (core: Core)
      ensures mCore == core && mUseCount == 0
    {
      mCore, mUseCount := core, 0;
    }

    method RegisterClient(ghost u: System)
      requires u.Coupled() && u.factory == this
      modifies u`w, this, mCore
      ensures u.Coupled() && u.w == W.RegisterClient(old(u.w))
    {
      hide System.ClientsCoupled, System.EventsCoupled, System.SubsCoupled, System.SameSubs, System.CacheCoupled,
           System.StoreCoupled;
      if mUseCount == 0 {
        mCore.AddListener(this);
      }
      mUseCount := mUseCount + 1;
      u.w := W.RegisterClient(u.w);
      u.OnlyRootsTouched();
    }

    method UnregisterClient(ghost u: System)
      requires u.Coupled() && u.factory == this
      modifies u`w, this, mCore
      ensures u.Coupled() && u.w == W.UnregisterClient(old(u.w))
    {
      hide System.ClientsCoupled, System.EventsCoupled, System.SubsCoupled, System.SameSubs, System.CacheCoupled,
           System.StoreCoupled;
      mUseCount := mUseCount - 1;
      if mUseCount == 0 {
        mCore.RemoveListener();
      }
      u.w := W.UnregisterClient(u.w);
      u.OnlyRootsTouched();
    }

    /** Dispatches to the client the event designates; an event without data is of a client that is gone. */
    method OnSubscriptionStateChanged(ghost u: System, e: Event, state: DialogState)
      requires u.Coupled() && u.factory == this && u.KnowsEvent(e) && Dispatchable(u.w, e.id) && u.w.attached
      modifies u, u.objects
      ensures u.Coupled() && u.Grown() && u.w == W.StateChanged(old(u.w), e.id, state)
      decreases if e.data != null then 2 else 0, 1
    {
      if e.data != null {
        e.data.OnSubscriptionStateChanged(u, state);
      }
    }

    /** Dispatches a NOTIFY; what the client throws is caught here. */
    method OnNotifyReceived(ghost u: System, e: Event, body: Body)
      requires u.Coupled() && u.factory == this && u.KnowsEvent(e) && Dispatchable(u.w, e.id) && u.w.attached
      modifies u, u.objects
      ensures u.Coupled() && u.Grown() && u.w == W.NotifyReceived(old(u.w), e.id, body)
    {
      hide System.Coupled, System.RootsCoupled, System.ClientsCoupled, System.EventsCoupled, System.SubsCoupled,
           System.SameSubs;
      hide W.ClientNotify;
      u.EventFacts(e);
      if e.data != null {
        u.ObserversKnown(e.data);
        var thrown := e.data.OnNotifyReceived(u, body);
      }
    }
  }

  class Client {
    ghost const id: nat
    const mFactory: ClientFactory
    const mTo: Address
    var mSubscribeEvent: Event?
    var mParticipantDevices: seq<Device>
    var observers: set<Subscription>
    var strong: nat

    /** The creator holds the one shared pointer. */
    constructor (ghost u: System, factory: ClientFactory, to: Address)
      requires u.Coupled() && u.factory == factory
      modifies u, factory, factory.mCore
      ensures u.Coupled() && u.Grown() && u.Knows(this) && id == old(u.w.next)
      ensures u.w == W.RegisterClient(old(u.w)).(
                       clients := old(u.w).clients[id := ClientState(to, None, [], {}, 1)], next := id + 1)
    {
      hide System.Coupled, System.RootsCoupled, System.ClientsCoupled, System.EventsCoupled, System.SubsCoupled;
      hide W.RegisterClient;
      u.Facts();
      RegisteringCommutes(u.w, u.w.clients[u.w.next := ClientState(to, None, [], {}, 1)], u.w.next + 1);
      id := u.w.next;
      mFactory, mTo := factory, to;
      mSubscribeEvent, mParticipantDevices, observers, strong := null, [], {}, 1;
      new;
      u.AddClient(this);
      mFactory.RegisterClient(u);
    }

    ghost predicate Alive(u: System)
      reads u
    {
      u.Knows(this) && id in u.w.clients
    }

    method SetSubscribeEvent(ghost u: System, e: Event?)
      requires u.Coupled() && Alive(u) && (e != null ==> u.KnowsEvent(e))
      modifies u`w, this`mSubscribeEvent
      ensures u.Coupled() && u.w == SetDialog(old(u.w), id, if e == null then None else Some(e.id))
      ensures mSubscribeEvent == e
    {
      hide System.Coupled, System.RootsCoupled, System.ClientsCoupled, System.EventsCoupled, System.SubsCoupled,
           System.SameSubs;
      u.ClientFacts(this);
      mSubscribeEvent := e;
      u.w := SetDialog(u.w, id, if e == null then None else Some(e.id));
      u.OnlyClientTouched(this);
    }

    method SetDevices(ghost u: System, devices: seq<Device>)
      requires u.Coupled() && Alive(u)
      modifies u`w, this`mParticipantDevices
      ensures u.Coupled() && mParticipantDevices == devices
      ensures u.w == old(u.w).(clients := old(u.w).clients[id :=
                                 old(u.w).clients[id].(devices := devices)])
    {
      hide System.Coupled, System.RootsCoupled, System.ClientsCoupled, System.EventsCoupled, System.SubsCoupled,
           System.SameSubs;
      u.ClientFacts(this);
      mParticipantDevices := devices;
      u.w := u.w.(clients := u.w.clients[id := u.w.clients[id].(devices := devices)]);
      u.OnlyClientTouched(this);
    }

    method OnSubscriptionStateChanged(ghost u: System, state: DialogState)
      requires u.Coupled() && u.Knows(this) && HasDialog(u.w, id)
      modifies u, u.objects
      ensures u.Coupled() && u.Grown() && u.w == ClientStateChanged(old(u.w), id, state)
      decreases 1
    {
      hide System.Coupled, W.ClientStateChanged, W.ClientUnsubscribe;
      ClientStateChangedStepwise(u.w, id, state);
      match state
      case Ended | Failed =>
        EndDialog(u);
        SetDevices(u, []);
      case _ =>
    }

    /** Replays the cached list to the listener if a dialog is open, otherwise opens one; `answer` is the state of the
        dialog that the core may report while the SUBSCRIBE is sent. */
    method Subscribe(ghost u: System, listener: Subscription, answer: DialogState)
      requires u.Coupled() && Alive(u) && u.KnowsSub(listener)
      modifies u, u.objects
      ensures u.Coupled() && u.Grown() && u.w == ClientSubscribe(old(u.w), id, listener.id, answer)
    {
      hide System.Coupled, System.RootsCoupled, System.ClientsCoupled, System.EventsCoupled, System.SubsCoupled,
           System.SameSubs;
      hide W.StateChanged, W.Deliver, W.Mark, W.OpenDialog;
      u.ClientFacts(this);
      u.SubFacts(listener);
      if mSubscribeEvent != null {
        listener.OnNotifyReceived(u, mParticipantDevices);
        return;
      }
      u.NewName();
      OpenDialogStepwise(u.w, id);
      OpenDialog(u);
      assert u.Grown();
      mSubscribeEvent.SendSubscribe(u, answer);
    }

    method OpenDialog(ghost u: System)
      requires u.Coupled() && Alive(u)
      modifies u, u.objects
      ensures u.Coupled() && u.Grown() && u.w == W.OpenDialog(old(u.w), id)
      ensures mSubscribeEvent != null && u.KnowsEvent(mSubscribeEvent) && mSubscribeEvent.id == old(u.w).next
    {
      hide System.Coupled, System.RootsCoupled, System.ClientsCoupled, System.EventsCoupled, System.SubsCoupled,
           System.SameSubs;
      hide W.Mark, W.OpenDialog;
      u.ClientFacts(this);
      u.NewName();
      OpenDialogStepwise(u.w, id);
      u.ObserversKnown(this);
      ghost var ids := u.w.clients[id].observers;
      Connect(u);
      hide W.SetData, W.SetDialog, W.NewEvent;
      u.MoveMarks(observers, ids);
    }

    /** A new event for the client, which designates it. */
    method Connect(ghost u: System)
      requires u.Coupled() && Alive(u)
      modifies u, this`mSubscribeEvent
      ensures u.Coupled() && u.Grown() && u.SameSubs(observers, old(u.w).clients[id].observers)
      ensures mSubscribeEvent != null && u.KnowsEvent(mSubscribeEvent) && mSubscribeEvent.id == old(u.w).next
      ensures var e := old(u.w).next;
              u.w == W.SetData(SetDialog(W.NewEvent(old(u.w)), id, Some(e)), e, Some(id))
    {
      hide System.Coupled, System.RootsCoupled, System.ClientsCoupled, System.EventsCoupled, System.SubsCoupled,
           System.SameSubs;
      u.ClientFacts(this);
      var e := mFactory.mCore.CreateSubscribe(u);
      SetSubscribeEvent(u, e);
      e.SetData(u, this);
      u.ClientFacts(this);
    }

    /** Data is unset first, so that the callback of `Terminate` finds nobody. */
    method EndDialog(ghost u: System)
      requires u.Coupled() && u.Knows(this) && HasDialog(u.w, id)
      modifies u, u.objects
      ensures u.Coupled() && u.Grown() && u.w == ClientUnsubscribe(old(u.w), id)
      ensures this in old(u.objects)
      decreases 0, 4
    {
      hide System.Coupled, System.RootsCoupled, System.ClientsCoupled, System.EventsCoupled, System.SubsCoupled,
           System.SameSubs;
      u.ClientFacts(this);
      mSubscribeEvent.UnsetData(u);
      mSubscribeEvent.Terminate(u);
      SetSubscribeEvent(u, null);
    }

    method Unsubscribe(ghost u: System)
      requires u.Coupled() && Alive(u)
      requires u.w.clients[id].dialog.Some? ==> u.w.clients[id].dialog.value in u.w.events
      modifies u, u.objects
      ensures u.Coupled() && u.Grown() && u.w == ClientUnsubscribe(old(u.w), id)
    {
      hide System.Coupled, System.RootsCoupled, System.ClientsCoupled, System.EventsCoupled, System.SubsCoupled,
           System.SameSubs;
      u.ClientFacts(this);
      if mSubscribeEvent == null {
        return;
      }
      EndDialog(u);
    }

    method AddObserver(ghost u: System, o: Subscription)
      requires u.Coupled() && Alive(u) && u.KnowsSub(o)
      modifies u`w, this`observers
      ensures u.Coupled() && u.w == W.AddObserver(old(u.w), id, o.id)
    {
      hide System.Coupled, System.RootsCoupled, System.ClientsCoupled, System.EventsCoupled, System.SubsCoupled;
      u.ClientFacts(this);
      observers := observers + {o};
      u.w := W.AddObserver(u.w, id, o.id);
      u.OnlyClientTouched(this);
    }

    method RemoveObserver(ghost u: System, o: Subscription)
      requires u.Coupled() && Alive(u) && u.KnowsSub(o)
      modifies u`w, this`observers
      ensures u.Coupled() && u.w == W.RemoveObserver(old(u.w), id, o.id)
    {
      hide System.Coupled, System.RootsCoupled, System.ClientsCoupled, System.EventsCoupled, System.SubsCoupled;
      u.ClientFacts(this);
      observers := observers - {o};
      u.w := W.RemoveObserver(u.w, id, o.id);
      u.OnlyClientTouched(this);
    }

    /** Tells every observer once, in whatever order they come. */
    method Notify(ghost u: System, m: Message)
      requires u.Coupled() && Alive(u)
      modifies u`w, observers
      ensures u.Coupled() && u.w == Deliver(old(u.w), old(u.w).clients[id].observers, [m])
    {
      hide System.Coupled, System.RootsCoupled, System.ClientsCoupled, System.EventsCoupled, System.SubsCoupled,
           System.SameSubs;
      hide W.Deliver;
      u.ClientFacts(this);
      ghost var w0, ids := u.w, u.w.clients[id].observers;
      ghost var left := ids;
      DeliverNothing(w0, {}, [m]);
      assert ids - left == {};
      var rest := observers;
      while rest != {}
        modifies u`w, observers
        invariant rest <= observers && left <= ids && u.SameSubs(rest, left)
        invariant u.Coupled() && u.w == Deliver(w0, ids - left, [m])
        decreases rest
      {
        var o :| o in rest;
        u.SameSubsLess(rest, left, o);
        rest := rest - {o};
        DeliverOneMore(w0, ids - left, o.id, [m]);
        assert ids - left + {o.id} == ids - (left - {o.id});
        o.Hear(u, m);
        left := left - {o.id};
      }
      u.SameSubsNone(left);
      assert ids - left == ids;
    }

    /** The contacts of a registration: refreshed ones are reported as they come, all are collected. */
    method ReadContacts(ghost u: System, contacts: seq<Contact>) returns (refreshed: nat, devices: seq<Device>)
      requires u.Coupled() && Alive(u)
      modifies u`w, observers
      ensures u.Coupled() && devices == Devices(contacts) && refreshed == |RefreshedDevices(contacts)|
      ensures u.w == Deliver(old(u.w), old(u.w).clients[id].observers, RefreshMessages(RefreshedDevices(contacts)))
    {
      hide System.Coupled, System.RootsCoupled, System.ClientsCoupled, System.EventsCoupled, System.SubsCoupled,
           System.SameSubs;
      hide W.Deliver;
      ghost var w0 := u.w;
      ghost var obs := w0.clients[id].observers;
      refreshed, devices := 0, [];
      DeliverNothing(w0, obs, []);
      assert contacts[..0] == [] && RefreshMessages(RefreshedDevices(contacts[..0])) == [];
      for k := 0 to |contacts|
        modifies u`w, observers
        invariant u.Coupled() && devices == Devices(contacts[..k]) && refreshed == |RefreshedDevices(contacts[..k])|
        invariant u.w == Deliver(w0, obs, RefreshMessages(RefreshedDevices(contacts[..k])))
      {
        var contact := contacts[k];
        assert contacts[..k + 1][..k] == contacts[..k];
        var specs := FindSpecs(contact.params);
        if specs.Some? {
          var device := Device(contact.uri, DisplayName(contact), Unquote(specs.value));
          if contact.event.Refreshed? {
            DeliverKeepsClients(w0, obs, RefreshMessages(RefreshedDevices(contacts[..k])));
            Notify(u, RefreshOf(device));
            DeliverChains(w0, obs, RefreshMessages(RefreshedDevices(contacts[..k])), [RefreshOf(device)]);
            assert RefreshMessages(RefreshedDevices(contacts[..k + 1])) ==
                   RefreshMessages(RefreshedDevices(contacts[..k])) + [RefreshOf(device)];
            refreshed := refreshed + 1;
          }
          devices := devices + [device];
        }
      }
      assert contacts[..|contacts|] == contacts;
    }

    /** The first specs parameter. */
    method FindSpecs(params: seq<Param>) returns (specs: Option<string>)
      ensures specs == SpecsOf(params)
    {
      var j := 0;
      while j < |params|
        invariant j <= |params| && SpecsOf(params) == SpecsOf(params[j..])
      {
        if params[j].name == SPECS_PARAM {
          return Some(params[j].value);
        }
        j := j + 1;
      }
      return None;
    }

    /** One registration of the client's AOR: an empty list if it is terminated, else its contacts. */
    method ReadRegistration(ghost u: System, r: Registration)
      requires u.Coupled() && Alive(u)
      modifies u`w, this`mParticipantDevices, observers
      ensures u.Coupled() && u.w == Reading(old(u.w), id, MessagesAbout(r), Listed(r))
      ensures mParticipantDevices == Listed(r)
    {
      hide System.Coupled, System.RootsCoupled, System.ClientsCoupled, System.EventsCoupled, System.SubsCoupled,
           System.SameSubs;
      hide W.Deliver;
      u.ClientFacts(this);
      ghost var w0 := u.w;
      if r.state.Terminated? {
        Notify(u, Snapshot([]));
        DeliverKeepsClients(w0, w0.clients[id].observers, [Snapshot([])]);
        SetDevices(u, []);
      } else {
        var refreshed, devices := ReadContacts(u, r.contacts);
        ghost var ms := RefreshMessages(RefreshedDevices(r.contacts));
        DeliverKeepsClients(w0, w0.clients[id].observers, ms);
        if refreshed < |devices| {
          Notify(u, Snapshot(devices));
          DeliverChains(w0, w0.clients[id].observers, ms, [Snapshot(devices)]);
          DeliverKeepsClients(w0, w0.clients[id].observers, ms + [Snapshot(devices)]);
        }
        assert MessagesAbout(r) == ms + if refreshed < |devices| then [Snapshot(devices)] else [];
        assert ms + [] == ms;
        SetDevices(u, devices);
      }
    }

    /** A body that is absent or does not parse throws; of a document, the registrations of the client's AOR are acted
        upon, up to the first terminated one. */
    method OnNotifyReceived(ghost u: System, body: Body) returns (thrown: bool)
      requires u.Coupled() && Alive(u)
      modifies u`w, this`mParticipantDevices, observers
      ensures u.Coupled() && thrown == !body.Parsed?
      ensures u.w == if body.Parsed? then ClientNotify(old(u.w), id, body.document) else old(u.w)
    {
      hide System.Coupled, System.RootsCoupled, System.ClientsCoupled, System.EventsCoupled, System.SubsCoupled,
           System.SameSubs;
      hide W.Deliver, W.Reading;
      u.ClientFacts(this);
      match body
      case NoBody | Unparseable => thrown := true;
      case Parsed(doc) =>
        thrown := false;
        ReadDocument(u, doc);
        ReadingEnds(old(u.w), id, doc);
    }

    method ReadDocument(ghost u: System, doc: Document)
      requires u.Coupled() && Alive(u)
      modifies u`w, this`mParticipantDevices, observers
      ensures u.Coupled() && Alive(u)
      ensures u.w == Reading(old(u.w), id, Messages(doc, mTo.uri), CacheAfter(doc, mTo.uri, old(mParticipantDevices)))
      ensures mParticipantDevices == CacheAfter(doc, mTo.uri, old(mParticipantDevices))
    {
      hide System.Coupled, System.RootsCoupled, System.ClientsCoupled, System.EventsCoupled, System.SubsCoupled,
           System.SameSubs;
      hide W.Deliver, W.Reading, MessagesAbout, Listed;
      u.ClientFacts(this);
      ghost var w0, aor := u.w, mTo.uri;
      ghost var acted: seq<Registration> := [];
      ReadingStarts(w0, id);
      var i := 0;
      while i < |doc|
        modifies u`w, this`mParticipantDevices, observers
        invariant i <= |doc| && u.Coupled() && Alive(u)
        invariant acted + Processed(doc[i..], aor) == Processed(doc, aor)
        invariant mParticipantDevices == LastListed(acted, old(mParticipantDevices))
        invariant u.w == Reading(w0, id, MessagesOf(acted), mParticipantDevices)
      {
        var registration := doc[i];
        assert doc[i..][1..] == doc[i + 1..];
        i := i + 1;
        if registration.aor != mTo.uri {
          continue;
        }
        ghost var d0 := mParticipantDevices;
        ReadRegistration(u, registration);
        ReadingChains(w0, id, MessagesOf(acted), d0, MessagesAbout(registration), Listed(registration));
        MessagesOfOneMore(acted, registration);
        acted := acted + [registration];
        if registration.state.Terminated? {
          break;
        }
      }
      assert acted == Processed(doc, aor);
    }

    /** A shared pointer goes away; the last one takes the client with it. */
    method Release(ghost u: System)
      requires u.Coupled() && Alive(u) && u.w.clients[id].strong > 0
      requires u.w.clients[id].dialog.Some? ==> u.w.clients[id].dialog.value in u.w.events
      modifies u, u.objects
      ensures u.Coupled() && u.Grown() && u.w == W.Release(old(u.w), id)
    {
      hide System.Coupled, System.RootsCoupled, System.ClientsCoupled, System.EventsCoupled, System.SubsCoupled,
           W.Destroy;
      u.ClientFacts(this);
      SetCount(u, strong - 1);
      if strong == 0 {
        Destroy(u);
      }
    }

    method SetCount(ghost u: System, count: nat)
      requires u.Coupled() && Alive(u)
      modifies u`w, this`strong
      ensures u.Coupled() && strong == count
      ensures u.w == old(u.w).(clients := old(u.w).clients[id := old(u.w).clients[id].(strong := count)])
    {
      hide System.Coupled, System.RootsCoupled, System.ClientsCoupled, System.EventsCoupled, System.SubsCoupled,
           System.SameSubs;
      u.ClientFacts(this);
      strong := count;
      u.w := u.w.(clients := u.w.clients[id := u.w.clients[id].(strong := count)]);
      u.OnlyClientTouched(this);
    }

    /** The destructor. */
    method Destroy(ghost u: System)
      requires u.Coupled() && Alive(u)
      requires u.w.clients[id].strong == 0 &&
               (u.w.clients[id].dialog.Some? ==> u.w.clients[id].dialog.value in u.w.events)
      modifies u, u.objects
      ensures u.Coupled() && u.Grown() && u.w == W.Destroy(old(u.w), id)
    {
      hide System.Coupled, System.RootsCoupled, System.ClientsCoupled, System.EventsCoupled, System.SubsCoupled,
           System.SameSubs;
      hide W.ClientUnsubscribe, W.UnregisterClient;
      u.ClientFacts(this);
      mFactory.UnregisterClient(u);
      UnsubscribingKeepsCounts(u.w, id);
      Unsubscribe(u);
      u.ClientFacts(this);
      u.Forget(this);
    }
  }

  /** An own subscription, which listens to the registrar, or, if it has a client, an external one, which observes it.
      */
  class Subscription {
    ghost const id: nat
    const mChatRoom: ChatRoom
    const mParticipant: Address
    const mCheckCapabilities: bool
    const mRegistrarDb: RegistrarDb
    const mClient: Client?
    var mActive: bool
    var calls: seq<RoomCall>
    ghost var mark: nat

    /** The shared pointer to the client becomes the subscription's. */
    constructor (ghost u: System, check: bool, room: ChatRoom, participant: Address, registrar: RegistrarDb,
                 client: Client?)
      requires u.Coupled() && registrar == u.registrar && (client != null ==> u.Knows(client))
      modifies u
      ensures u.Coupled() && u.Grown() && u.KnowsSub(this) && id == old(u.w).next && fresh(this)
      ensures mClient == client
      ensures u.w == old(u.w).(next := id + 1, subs := old(u.w).subs[id :=
                       Sub(room, participant, check, if client == null then Own else External(client.id),
                           false, [], 0)])
    {
      hide System.Coupled, System.RootsCoupled, System.ClientsCoupled, System.EventsCoupled, System.SubsCoupled;
      u.Facts();
      id := u.w.next;
      mChatRoom, mParticipant, mCheckCapabilities, mRegistrarDb, mClient := room, participant, check, registrar, client;
      mActive, calls, mark := false, [], 0;
      new;
      u.AddSub(this);
    }

    /** A call on the room. */
    method CallRoom(ghost u: System, call: RoomCall)
      requires u.Coupled() && u.KnowsSub(this) && id in u.w.subs
      modifies u`w, this
      ensures u.Coupled() && u.w == W.CallRoom(old(u.w), id, [call])
    {
      hide System.Coupled, System.RootsCoupled, System.ClientsCoupled, System.EventsCoupled, System.SubsCoupled,
           System.SameSubs;
      u.SubFacts(this);
      calls := calls + [call];
      u.w := W.CallRoom(u.w, id, [call]);
      u.OnlySubTouched(this);
    }

    method SetActive(ghost u: System, active: bool)
      requires u.Coupled() && u.KnowsSub(this) && id in u.w.subs
      modifies u`w, this
      ensures u.Coupled() && mActive == active
      ensures u.w == old(u.w).(subs := old(u.w).subs[id := old(u.w).subs[id].(active := active)])
    {
      hide System.Coupled, System.RootsCoupled, System.ClientsCoupled, System.EventsCoupled, System.SubsCoupled,
           System.SameSubs;
      u.SubFacts(this);
      mActive := active;
      u.w := u.w.(subs := u.w.subs[id := u.w.subs[id].(active := active)]);
      u.OnlySubTouched(this);
    }

    method NotifyRoom(ghost u: System, devices: seq<Device>)
      requires u.Coupled() && u.KnowsSub(this) && id in u.w.subs
      modifies u`w, this
      ensures u.Coupled() && u.w == W.CallRoom(old(u.w), id, [SetParticipantDevices(devices)])
    {
      CallRoom(u, SetParticipantDevices(devices));
    }

    method NotifyRegistration(ghost u: System, device: string)
      requires u.Coupled() && u.KnowsSub(this) && id in u.w.subs
      modifies u`w, this
      ensures u.Coupled() && u.w == W.CallRoom(old(u.w), id, [NotifyDeviceRegistration(device)])
    {
      CallRoom(u, NotifyDeviceRegistration(device));
    }

    method IsCompatible(specs: string) returns (r: bool)
      ensures r == IsContactCompatible(mCheckCapabilities, mChatRoom.capabilities, specs)
    {
      r := IsContactCompatible(mCheckCapabilities, mChatRoom.capabilities, specs);
    }

    // ---- Starting and stopping ----

    method Start(ghost u: System, answer: DialogState)
      requires u.Coupled() && u.KnowsSub(this)
      requires mClient != null ==> mClient.Alive(u)
      modifies u, u.objects
      ensures u.Coupled() && u.Grown() && id in old(u.w).subs
      ensures u.w == if mClient == null then W.StartOwn(old(u.w), id)
                     else ClientSubscribe(W.AddObserver(old(u.w), mClient.id, id), mClient.id, id, answer)
    {
      hide System.Coupled, System.RootsCoupled, System.ClientsCoupled, System.EventsCoupled, System.SubsCoupled,
           System.SameSubs;
      hide W.ClientSubscribe;
      u.SubFacts(this);
      if mClient == null {
        StartOwn(u);
      } else {
        mClient.AddObserver(u, this);
        mClient.Subscribe(u, this, answer);
      }
    }

    method StartOwn(ghost u: System)
      requires u.Coupled() && u.KnowsSub(this)
      modifies u`w, this, mRegistrarDb
      ensures u.Coupled() && id in old(u.w).subs && u.w == W.StartOwn(old(u.w), id)
    {
      hide System.Coupled, System.RootsCoupled, System.ClientsCoupled, System.EventsCoupled, System.SubsCoupled,
           System.SameSubs;
      u.SubFacts(this);
      if mParticipant.aor == "" {
        return;
      }
      SetActive(u, true);
      mRegistrarDb.Fetch(u, this);
      mRegistrarDb.Subscribe(u, this);
    }

    method Stop(ghost u: System)
      requires u.Coupled() && u.KnowsSub(this) && Stoppable(u.w, id)
      modifies u, u.objects
      ensures u.Coupled() && u.Grown() && u.w == StopSub(old(u.w), id)
    {
      hide System.Coupled, System.RootsCoupled, System.ClientsCoupled, System.EventsCoupled, System.SubsCoupled,
           System.SameSubs;
      u.SubFacts(this);
      u.Facts();
      if mClient == null {
        if !mActive {
          return;
        }
        SetActive(u, false);
        mRegistrarDb.Unsubscribe(u, this);
      } else {
        mClient.RemoveObserver(u, this);
      }
    }

    /** The destructor; an external subscription lets go of its client. */
    method Drop(ghost u: System)
      requires u.Coupled() && u.KnowsSub(this) && Droppable(u.w, id)
      modifies u, u.objects
      ensures u.Coupled() && u.Grown() && u.w == DropSub(old(u.w), id)
    {
      hide System.Coupled, System.RootsCoupled, System.ClientsCoupled, System.EventsCoupled, System.SubsCoupled,
           System.SameSubs;
      hide W.Release;
      u.SubFacts(this);
      if mClient != null {
        mClient.Release(u);
      }
    }

    // ---- External: the client's listener ----

    /** `remove_if` on a copy of the list. */
    method RemoveIncompatible(devices: seq<Device>) returns (compatible: seq<Device>)
      ensures compatible == Accepts(devices)
    {
      compatible := devices;
      var i := 0;
      while i < |compatible|
        invariant i <= |compatible|
        invariant Accepts(compatible[..i]) == compatible[..i]
        invariant Accepts(compatible) == Accepts(devices)
        decreases |compatible| - i
      {
        var ok := IsCompatible(compatible[i].specs);
        KeepOrDrop(compatible, i);
        if ok {
          i := i + 1;
        } else {
          compatible := compatible[..i] + compatible[i + 1..];
        }
      }
      assert compatible[..i] == compatible;
    }

    method OnNotifyReceived(ghost u: System, participantDevices: seq<Device>)
      requires u.Coupled() && u.KnowsSub(this) && id in u.w.subs
      modifies u`w, this
      ensures u.Coupled() && u.w == Deliver(old(u.w), {id}, [Snapshot(participantDevices)])
    {
      hide System.Coupled, System.RootsCoupled, System.ClientsCoupled, System.EventsCoupled, System.SubsCoupled,
           System.SameSubs;
      hide W.Deliver;
      u.SubFacts(this);
      SnapshotIsOneCall(u.w, id, participantDevices);
      var compatible := RemoveIncompatible(participantDevices);
      NotifyRoom(u, compatible);
    }

    function Accepts(devices: seq<Device>): seq<Device> {
      Compatible(mCheckCapabilities, mChatRoom.capabilities, devices)
    }

    /** What the filter says of a list in which the first `i` devices are kept. */
    lemma KeepOrDrop(devices: seq<Device>, i: nat)
      requires i < |devices| && Accepts(devices[..i]) == devices[..i]
      ensures IsContactCompatible(mCheckCapabilities, mChatRoom.capabilities, devices[i].specs) ==>
                Accepts(devices[..i + 1]) == devices[..i + 1]
      ensures !IsContactCompatible(mCheckCapabilities, mChatRoom.capabilities, devices[i].specs) ==>
                var shorter := devices[..i] + devices[i + 1..];
                Accepts(shorter) == Accepts(devices) && shorter[..i] == devices[..i]
    {
      var pre, d, post := devices[..i], [devices[i]], devices[i + 1..];
      assert devices == pre + (d + post) && devices[..i + 1] == pre + d;
      CompatibleSplits(mCheckCapabilities, mChatRoom.capabilities, pre, d + post);
      CompatibleSplits(mCheckCapabilities, mChatRoom.capabilities, pre, d);
      CompatibleSplits(mCheckCapabilities, mChatRoom.capabilities, d, post);
      CompatibleSplits(mCheckCapabilities, mChatRoom.capabilities, pre, post);
      assert d[1..] == [];
    }

    method Hear(ghost u: System, m: Message)
      requires u.Coupled() && u.KnowsSub(this)
      modifies u`w, this
      ensures u.Coupled() && u.w == Deliver(old(u.w), {id}, [m])
    {
      hide System.Coupled, System.RootsCoupled, System.ClientsCoupled, System.EventsCoupled, System.SubsCoupled,
           System.SameSubs;
      hide W.Deliver;
      u.SubFacts(this);
      match m
      case Snapshot(devices) => OnNotifyReceived(u, devices);
      case RefreshOf(device) => OnRefreshed(u, device);
    }

    method OnRefreshed(ghost u: System, participantDevice: Device)
      requires u.Coupled() && u.KnowsSub(this) && id in u.w.subs
      modifies u`w, this
      ensures u.Coupled() && u.w == Deliver(old(u.w), {id}, [RefreshOf(participantDevice)])
    {
      hide System.Coupled, System.RootsCoupled, System.ClientsCoupled, System.EventsCoupled, System.SubsCoupled,
           System.SameSubs;
      hide W.Deliver;
      u.SubFacts(this);
      RefreshIsOneCallAtMost(u.w, id, participantDevice);
      var ok := IsCompatible(participantDevice.specs);
      if ok {
        NotifyRegistration(u, participantDevice.address);
      }
    }

    // ---- Own: the registrar's listener ----

    method CollectCompatible(record: Record) returns (compatible: seq<Device>)
      ensures compatible == OwnDevices(mCheckCapabilities, mChatRoom.capabilities, record)
    {
      compatible := [];
      for i := 0 to |record|
        invariant compatible == OwnDevices(mCheckCapabilities, mChatRoom.capabilities, record[..i])
      {
        var ec := record[i];
        assert record[..i + 1][..i] == record[..i];
        if ec.pubGruu.Some? {
          var ok := IsCompatible(ec.specs);
          if ok {
            compatible := compatible + [Device(ec.pubGruu.value, ec.deviceName, Unquote(ec.specs))];
          }
        }
      }
      assert record[..|record|] == record;
    }

    method ProcessRecord(ghost u: System, record: Option<Record>)
      requires u.Coupled() && u.KnowsSub(this) && id in u.w.subs
      modifies u`w, this
      ensures u.Coupled()
      ensures u.w == old(u.w).(subs := old(u.w).subs[id := HearRecord(old(u.w).subs[id], record)])
    {
      hide System.Coupled, System.RootsCoupled, System.ClientsCoupled, System.EventsCoupled, System.SubsCoupled,
           System.SameSubs;
      u.SubFacts(this);
      if !mActive {
        assert u.w.subs == u.w.subs[id := u.w.subs[id]];
        return;
      }
      var compatible: seq<Device> := [];
      if record.Some? {
        compatible := CollectCompatible(record.value);
      }
      NotifyRoom(u, compatible);
    }

    method OnRecordFound(ghost u: System, record: Option<Record>)
      requires u.Coupled() && u.KnowsSub(this) && id in u.w.subs
      modifies u`w, this
      ensures u.Coupled() && u.w == old(u.w).(subs := old(u.w).subs[id := HearRecord(old(u.w).subs[id], record)])
    {
      ProcessRecord(u, record);
    }

    method OnContactRegistered(ghost u: System, record: Record, uid: string)
      requires u.Coupled() && u.KnowsSub(this) && id in u.w.subs
      modifies u`w, this
      ensures u.Coupled() &&
              u.w == old(u.w).(subs := old(u.w).subs[id := HearRegistration(old(u.w).subs[id], record, uid)])
    {
      hide System.Coupled, System.RootsCoupled, System.ClientsCoupled, System.EventsCoupled, System.SubsCoupled,
           System.SameSubs;
      hide OwnDevices;
      u.SubFacts(this);
      if !mActive {
        assert u.w.subs == u.w.subs[id := u.w.subs[id]];
        return;
      }
      ghost var w0 := u.w;
      ProcessRecord(u, Some(record));
      if uid == "" {
        return;
      }
      var ct := Extract(record, uid);
      if ct.None? || ct.value.pubGruu.None? {
        return;
      }
      var ok := IsCompatible(ct.value.specs);
      if ok {
        NotifyRegistration(u, ct.value.pubGruu.value);
        assert u.w.subs == w0.subs[id := u.w.subs[id]];
      }
    }
  }

  /** The part of the registrar that is used: fetches in progress and listeners to registrations. */
  class RegistrarDb {
    var listeners: set<Subscription>
    var fetches: set<Subscription>

    constructor ()
      ensures listeners == {} && fetches == {}
    {
      listeners, fetches := {}, {};
    }

    method Fetch(ghost u: System, listener: Subscription)
      requires u.Coupled() && u.registrar == this && u.KnowsSub(listener)
      modifies u`w, this
      ensures u.Coupled() && u.w == old(u.w).(fetches := old(u.w).fetches + {listener.id})
    {
      hide System.ClientsCoupled, System.EventsCoupled, System.SubsCoupled, System.CacheCoupled, System.StoreCoupled;
      fetches := fetches + {listener};
      u.w := u.w.(fetches := u.w.fetches + {listener.id});
      u.OnlyRootsTouched();
    }

    method FetchEnds(ghost u: System, listener: Subscription)
      requires u.Coupled() && u.registrar == this && u.KnowsSub(listener)
      modifies u`w, this
      ensures u.Coupled() && u.w == FetchFailed(old(u.w), listener.id)
    {
      hide System.ClientsCoupled, System.EventsCoupled, System.SubsCoupled, System.CacheCoupled, System.StoreCoupled;
      fetches := fetches - {listener};
      u.w := FetchFailed(u.w, listener.id);
      u.OnlyRootsTouched();
    }

    method Subscribe(ghost u: System, listener: Subscription)
      requires u.Coupled() && u.registrar == this && u.KnowsSub(listener)
      modifies u`w, this
      ensures u.Coupled() && u.w == old(u.w).(listeners := old(u.w).listeners + {listener.id})
    {
      hide System.ClientsCoupled, System.EventsCoupled, System.SubsCoupled, System.CacheCoupled, System.StoreCoupled;
      listeners := listeners + {listener};
      u.w := u.w.(listeners := u.w.listeners + {listener.id});
      u.OnlyRootsTouched();
    }

    method Unsubscribe(ghost u: System, listener: Subscription)
      requires u.Coupled() && u.registrar == this && u.KnowsSub(listener)
      modifies u`w, this
      ensures u.Coupled() && u.w == old(u.w).(listeners := old(u.w).listeners - {listener.id})
    {
      hide System.ClientsCoupled, System.EventsCoupled, System.SubsCoupled, System.CacheCoupled, System.StoreCoupled;
      listeners := listeners - {listener};
      u.w := u.w.(listeners := u.w.listeners - {listener.id});
      u.OnlyRootsTouched();
    }

    /** A fetch ends with a record, or finds none. */
    method FetchDone(ghost u: System, listener: Subscription, record: Option<Record>)
      requires u.Coupled() && u.registrar == this && u.KnowsSub(listener) && Inv(u.w)
      modifies u`w, this, listener
      ensures u.Coupled() && Inv(u.w) && u.w == Step(old(u.w), FetchCompletes(listener.id, record))
    {
      hide System.Coupled, System.RootsCoupled, System.ClientsCoupled, System.EventsCoupled, System.SubsCoupled;
      hide W.HearRecord, Inv;
      u.RootFacts();
      u.SubFacts(listener);
      u.Pending(listener);
      FetchesKeepInv(u.w, listener.id, record);
      if listener in fetches {
        FetchEnds(u, listener);
        listener.OnRecordFound(u, record);
      }
    }

    /** A fetch ends in an error, which its listener ignores. */
    method FetchError(ghost u: System, listener: Subscription)
      requires u.Coupled() && u.registrar == this && u.KnowsSub(listener) && Inv(u.w)
      modifies u`w, this
      ensures u.Coupled() && Inv(u.w) && u.w == Step(old(u.w), FetchFails(listener.id))
    {
      hide System.Coupled, Inv;
      FetchesKeepInv(u.w, listener.id, None);
      FetchEnds(u, listener);
    }

    /** A contact of a participant has registered; the listener may have been stopped while the report was on its way.
        */
    method ContactRegistered(ghost u: System, listener: Subscription, record: Record, uid: string)
      requires u.Coupled() && u.registrar == this && u.KnowsSub(listener) && Inv(u.w)
      modifies u`w, listener
      ensures u.Coupled() && Inv(u.w) && u.w == Step(old(u.w), ContactRegisters(listener.id, record, uid))
    {
      hide System.Coupled, System.RootsCoupled, System.ClientsCoupled, System.EventsCoupled, System.SubsCoupled;
      hide W.HearRegistration, Inv;
      u.SubFacts(listener);
      ContactRegisteredKeepsInv(u.w, listener.id, record, uid);
      if listener.mClient == null && listener.mParticipant.aor != "" {
        listener.OnContactRegistered(u, record, uid);
      }
    }
  }

  /** The cache of clients: weak pointers by ordered URI. */
  class ClientsStore {
    var mClients: map<string, Client>

    constructor ()
      ensures mClients == map[]
    {
      mClients := map[];
    }

    /** The live client of a URI, or a new one; the caller gets a shared pointer. */
    method AcquireClient(ghost u: System, address: Address, clientFactory: ClientFactory) returns (client: Client)
      requires u.Coupled() && u.clientsStore == this && u.factory == clientFactory
      modifies u, u.objects
      ensures u.Coupled() && u.Grown() && client.Alive(u) && (u.w, client.id) == W.AcquireClient(old(u.w), address)
    {
      hide System.Coupled, System.RootsCoupled, System.ClientsCoupled, System.EventsCoupled, System.SubsCoupled,
           System.SameSubs;
      hide W.RegisterClient;
      var uri := address.ordered;
      u.Facts();
      u.CacheFacts(uri);
      if uri in mClients {
        var existing := mClients[uri];
        if existing.strong > 0 {
          u.ClientFacts(existing);
          existing.SetCount(u, existing.strong + 1);
          return existing;
        }
        if existing.id in u.w.clients {
          u.ClientFacts(existing);
        }
      }
      client := new Client(u, clientFactory, address);
      Remember(u, uri, client);
    }

    /** Erases the expired entry of a URI, if there is one, and enters the new client. */
    method Remember(ghost u: System, uri: string, client: Client)
      requires u.Coupled() && u.clientsStore == this && u.Knows(client)
      modifies u`w, this
      ensures u.Coupled() && u.w == old(u.w).(cache := old(u.w).cache[uri := client.id])
    {
      hide System.ClientsCoupled, System.EventsCoupled, System.SubsCoupled, System.SameSubs, System.StoreCoupled,
           System.CacheCoupled;
      u.RememberedIsCoupled(mClients, u.w.cache, uri, client);
      mClients := mClients - {uri};
      mClients := mClients[uri := client];
      u.w := u.w.(cache := u.w.cache[uri := client.id]);
      u.OnlyRootsTouched();
    }
  }

  /** The multimap of subscriptions. */
  class SubscriptionStore {
    var mSubscriptions: seq<Entry<Subscription>>

    constructor ()
      ensures mSubscriptions == []
    {
      mSubscriptions := [];
    }

    method EqualRange(ghost u: System, address: Address) returns (first: nat, last: nat)
      requires u.Coupled() && u.store == this
      ensures first == LowerBound(Keys(u.w.store), SubscriptionKey(address))
      ensures last == UpperBound(Keys(u.w.store), SubscriptionKey(address))
      ensures last <= |u.w.store| == |mSubscriptions|
    {
      hide System.Coupled, System.RootsCoupled, System.ClientsCoupled, System.EventsCoupled, System.SubsCoupled;
      u.StoreFacts();
      var key := SubscriptionKey(address);
      first, last := LowerBound(Keys(mSubscriptions), key), UpperBound(Keys(mSubscriptions), key);
    }

    method AddSubscription(ghost u: System, address: Address, subscription: Subscription)
      requires u.Coupled() && u.store == this && u.KnowsSub(subscription)
      modifies u`w, this
      ensures u.Coupled()
      ensures u.w == old(u.w).(store := Insert(old(u.w).store, Entry(SubscriptionKey(address), subscription.id)))
    {
      hide System.ClientsCoupled, System.EventsCoupled, System.SubsCoupled, System.SameSubs, System.CacheCoupled;
      hide System.StoreCoupled, Insert;
      u.InsertedIsCoupled(mSubscriptions, u.w.store, SubscriptionKey(address), subscription);
      mSubscriptions := Insert(mSubscriptions, Entry(SubscriptionKey(address), subscription));
      u.w := u.w.(store := Insert(u.w.store, Entry(SubscriptionKey(address), subscription.id)));
      u.OnlyRootsTouched();
    }

    method FindSubscription(ghost u: System, chatRoom: ChatRoom, address: Address) returns (found: bool)
      requires u.Coupled() && u.store == this && Sorted(Keys(u.w.store))
      ensures found == Subscribed(u.w, chatRoom, address)
    {
      hide System.Coupled, System.RootsCoupled, System.ClientsCoupled, System.EventsCoupled, System.SubsCoupled;
      ghost var key := SubscriptionKey(address);
      var it, last := EqualRange(u, address);
      RangeHoldsTheKey(u.w.store, key);
      ghost var first := it;
      while it < last
        invariant first <= it <= last
        invariant forall j | first <= j < it :: !Matches(u.w, j, chatRoom, key)
      {
        u.StoreFacts();
        u.SubFacts(mSubscriptions[it].value);
        if mSubscriptions[it].value.mChatRoom == chatRoom {
          assert Matches(u.w, it, chatRoom, key);
          return true;
        }
        it := it + 1;
      }
      return false;
    }

    method Erase(ghost u: System, it: nat)
      requires u.Coupled() && u.store == this && it < |mSubscriptions|
      modifies u`w, this
      ensures u.Coupled() && it < |old(u.w).store|
      ensures u.w == old(u.w).(store := Multimap.Erase(old(u.w).store, it))
    {
      hide System.ClientsCoupled, System.EventsCoupled, System.SubsCoupled, System.SameSubs, System.CacheCoupled;
      mSubscriptions := Multimap.Erase(mSubscriptions, it);
      u.w := u.w.(store := Multimap.Erase(u.w.store, it));
      u.OnlyRootsTouched();
    }

    /** Stops an entry, erases it, and with it the last pointer to the subscription. */
    method Evict(ghost u: System, it: nat)
      requires u.Coupled() && u.store == this && it < |u.w.store| && Droppable(u.w, u.w.store[it].value)
      modifies u, u.objects
      ensures u.Coupled() && u.Grown() && u.w == W.Evict(old(u.w), it)
    {
      hide System.Coupled, System.RootsCoupled, System.ClientsCoupled, System.EventsCoupled, System.SubsCoupled;
      hide W.DropSub;
      u.StoreFacts();
      u.Facts();
      var subscription := mSubscriptions[it].value;
      StoppedIsDroppable(u.w, subscription.id);
      hide W.StopSub;
      subscription.Stop(u);
      u.StoreFacts();
      Erase(u, it);
      assert u.Grown();
      subscription.Drop(u);
    }

    method RemoveSubscription(ghost u: System, chatRoom: ChatRoom, address: Address)
      requires u.Coupled() && u.store == this && Inv(u.w)
      modifies u, u.objects
      ensures u.Coupled() && u.Grown() && u.w == Unsubscribe(old(u.w), chatRoom, address)
    {
      hide System.Coupled, System.RootsCoupled, System.ClientsCoupled, System.EventsCoupled, System.SubsCoupled;
      hide Inv, W.Evict, RemoveMatching, Lifecycle.Unsubscribe, Droppable;
      ghost var w0 := u.w;
      UnsubscribeLoops(w0, chatRoom, address);
      var it, last := EqualRange(u, address);
      while it < last
        invariant u.Coupled() && u.Grown() && Inv(u.w) && 0 <= it <= last <= |u.w.store|
        invariant Unsubscribe(w0, chatRoom, address) == RemoveMatching(u.w, chatRoom, it, last)
        decreases last - it
      {
        u.StoreFacts();
        u.SubFacts(mSubscriptions[it].value);
        RemoveMatchingStep(u.w, chatRoom, it, last);
        if mSubscriptions[it].value.mChatRoom == chatRoom {
          Evict(u, it);
          last := last - 1;
        } else {
          it := it + 1;
        }
      }
      NothingMatches(u.w, chatRoom, it);
    }

    /** Every subscription is stopped, then all are erased. */
    method RemoveAllSubscriptions(ghost u: System)
      requires u.Coupled() && u.store == this && Inv(u.w)
      modifies u, u.objects
      ensures u.Coupled() && u.Grown() && u.w == UnsubscribeAll(old(u.w))
    {
      hide System.Coupled, System.RootsCoupled, System.ClientsCoupled, System.EventsCoupled, System.SubsCoupled;
      hide CoreInv, RegistrarOk, ObserversOk, Lifecycle.StopAll, Lifecycle.DropAll;
      StoreIsDistinct(u.w.store, u.w.subs);
      StopAllKeeps(u.w, Stored(u.w), u.w.store);
      StopAll(u);
      Clear(u);
    }

    method StopAll(ghost u: System)
      requires u.Coupled() && u.store == this && forall i | 0 <= i < |u.w.store| :: Stoppable(u.w, u.w.store[i].value)
      modifies u, u.objects
      ensures u.Coupled() && u.Grown() && u.w.store == old(u.w).store
      ensures u.w == Lifecycle.StopAll(old(u.w), old(u.w).store)
    {
      hide System.Coupled, System.RootsCoupled, System.ClientsCoupled, System.EventsCoupled, System.SubsCoupled;
      hide Stoppable, W.StopSub;
      ghost var w0, entries := u.w, u.w.store;
      assert entries[0..] == entries;
      u.Facts();
      u.StoreFacts();
      var i := 0;
      while i < |mSubscriptions|
        invariant u.Coupled() && u.Grown() && u.w.store == entries && i <= |mSubscriptions| == |entries|
        invariant forall j | i <= j < |entries| :: Stoppable(u.w, entries[j].value)
        invariant Lifecycle.StopAll(u.w, entries[i..]) == Lifecycle.StopAll(w0, entries)
      {
        u.StoreFacts();
        StoppingKeepsStore(u.w, entries[i].value);
        assert entries[i..][1..] == entries[i + 1..];
        mSubscriptions[i].value.Stop(u);
        i := i + 1;
        u.StoreFacts();
      }
    }

    /** `clear()` destroys the entries one after the other, then forgets them. */
    method Clear(ghost u: System)
      requires u.Coupled() && u.store == this && CoreInv(u.w, Values(u.w.store)) && Distinct(u.w.store)
      modifies u, u.objects
      ensures u.Coupled() && u.Grown() && u.w == DropAll(old(u.w), old(u.w).store).(store := [])
    {
      hide System.Coupled, System.RootsCoupled, System.ClientsCoupled, System.EventsCoupled, System.SubsCoupled;
      hide CoreInv, Droppable, W.DropSub, Values, Distinct;
      ghost var w0, entries := u.w, u.w.store;
      assert entries[0..] == entries;
      u.Facts();
      u.StoreFacts();
      var i := 0;
      while i < |mSubscriptions|
        invariant u.Coupled() && u.Grown() && u.w.store == entries && i <= |mSubscriptions| == |entries|
        invariant CoreInv(u.w, Values(entries[i..])) && Distinct(entries[i..])
        invariant DropAll(u.w, entries[i..]) == DropAll(w0, entries)
      {
        u.StoreFacts();
        DropKeepsCore(u.w, entries[i..]);
        StillDroppable(u.w, entries[i..]);
        assert entries[i..][1..] == entries[i + 1..];
        mSubscriptions[i].value.Drop(u);
        i := i + 1;
        u.StoreFacts();
      }
      Reset(u);
    }

    method Reset(ghost u: System)
      requires u.Coupled() && u.store == this
      modifies u`w, this
      ensures u.Coupled() && u.w == old(u.w).(store := [])
    {
      hide System.ClientsCoupled, System.EventsCoupled, System.SubsCoupled, System.SameSubs, System.CacheCoupled;
      mSubscriptions := [];
      u.w := u.w.(store := []);
      u.OnlyRootsTouched();
    }
  }
}
