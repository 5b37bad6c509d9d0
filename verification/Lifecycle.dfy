/** Joining and tearing down: subscribing keeps the invariant, and stopping everything leaves nothing behind. */
module Lifecycle {
  import opened Text
  import opened Multimap
  import opened World
  import opened Invariants

  // ---- Joining ----

  lemma InsertedValues(store: Store, e: Entry<nat>)
    ensures Values(Insert(store, e)) == Values(store) + {e.value}
  {
    var k := UpperBound(Keys(store), e.key);
    var r := Insert(store, e);
    forall v | v in Values(store) + {e.value} ensures v in Values(r) {
      if v in Values(store) {
        var j :| 0 <= j < |store| && store[j].value == v;
        assert r[if j < k then j else j + 1].value == v;
      } else {
        assert r[k].value == v;
      }
    }
    forall v | v in Values(r) ensures v in Values(store) + {e.value} {
      var j :| 0 <= j < |r| && r[j].value == v;
      if j != k {
        assert store[if j < k then j else j - 1].value == v;
      }
    }
  }

  lemma InsertedStore(store: Store, subs: Subs, s: nat, sub: Sub)
    requires StoreOk(store, subs) && s !in subs
    requires forall i | 0 <= i < |store| && store[i].key == SubscriptionKey(sub.participant) ::
               subs[store[i].value].room != sub.room
    ensures StoreOk(Insert(store, Entry(SubscriptionKey(sub.participant), s)), subs[s := sub])
  {
    var e := Entry(SubscriptionKey(sub.participant), s);
    InsertKeepsSorted(store, e);
    var k := UpperBound(Keys(store), e.key);
    var r := store[..k] + [e] + store[k..];
    assert r == Insert(store, e);
    hide Insert, UpperBound, Keys, Sorted;
    InsertedAreFiled(store, subs, s, sub, k);
    InsertedPairs(store, subs, s, sub, k);
  }

  lemma InsertedAreFiled(store: Store, subs: Subs, s: nat, sub: Sub, k: nat)
    requires s !in subs && k <= |store|
    requires forall i | 0 <= i < |store| ::
               store[i].value in subs && store[i].key == SubscriptionKey(subs[store[i].value].participant)
    ensures var r, subs' := store[..k] + [Entry(SubscriptionKey(sub.participant), s)] + store[k..], subs[s := sub];
            forall i | 0 <= i < |r| :: r[i].value in subs' && r[i].key == SubscriptionKey(subs'[r[i].value].participant)
  {
  }

  lemma InsertedPairs(store: Store, subs: Subs, s: nat, sub: Sub, k: nat)
    requires s !in subs && k <= |store| && forall i | 0 <= i < |store| :: store[i].value in subs
    requires forall i, j | 0 <= i < j < |store| && store[i].key == store[j].key ::
               subs[store[i].value].room != subs[store[j].value].room
    requires forall i | 0 <= i < |store| && store[i].key == SubscriptionKey(sub.participant) ::
               subs[store[i].value].room != sub.room
    ensures var r, subs' := store[..k] + [Entry(SubscriptionKey(sub.participant), s)] + store[k..], subs[s := sub];
            forall i, j | 0 <= i < j < |r| && r[i].key == r[j].key ::
              r[i].value in subs' && r[j].value in subs' && subs'[r[i].value].room != subs'[r[j].value].room
  {
  }

  lemma NewSubKeepsHolders(clients: Clients, subs: Subs, hs: set<nat>, s: nat, sub: Sub)
    requires s !in subs && sub.kind.Own?
    ensures CountsOk(clients, subs, hs) && HoldersOk(clients, subs, hs) ==> CountsOk(clients, subs[s := sub], hs + {s})
    ensures HoldersOk(clients, subs, hs) ==> HoldersOk(clients, subs[s := sub], hs + {s})
    ensures ObserversOk(clients, subs, hs) && HoldersOk(clients, subs, hs) ==>
              ObserversOk(clients, subs[s := sub], hs + {s})
  {
    forall c ensures Holders(subs[s := sub], hs + {s}, c) == Holders(subs, hs, c) {
    }
  }

  lemma NewSubKeepsUris(subs: Subs, s: nat, sub: Sub)
    requires s !in subs
    ensures ExternalUris(subs[s := sub]) ==
            ExternalUris(subs) + if sub.kind.External? then {sub.participant.ordered} else {}
  {
    var subs' := subs[s := sub];
    forall u | u in ExternalUris(subs) ensures u in ExternalUris(subs') {
      var t :| t in subs && subs[t].kind.External? && subs[t].participant.ordered == u;
      assert subs'[t] == subs[t];
    }
    if sub.kind.External? {
      assert subs'[s] == sub;
    }
  }

  lemma NewSubKeepsRest(w: World, s: nat, sub: Sub, hs: set<nat>)
    requires s == w.next && sub.mark <= |sub.calls| && sub.check == w.config.check
    requires sub.kind.Own? <==> IsLocal(w, sub.participant)
    requires sub.kind.External? ==> sub.kind.client < w.next
    requires IdsOk(w.subs, w.clients, w.events, w.cache, w.next)
    ensures SubsOk(w.config, w.subs) ==> SubsOk(w.config, w.subs[s := sub])
    ensures s !in w.subs && IdsOk(w.subs[s := sub], w.clients, w.events, w.cache, w.next + 1)
    ensures SharedOk(w.subs, w.clients) && sub.kind.Own? ==> SharedOk(w.subs[s := sub], w.clients)
    ensures RegistrarOk(w.subs, hs, w.listeners, w.fetches) && HoldersOk(w.clients, w.subs, hs) ==>
              RegistrarOk(w.subs[s := sub], hs + {s},
                          if sub.active then w.listeners + {s} else w.listeners,
                          if sub.active then w.fetches + {s} else w.fetches) || 
              !(sub.active <==> sub.kind.Own? && sub.participant.aor != "")
  {
  }

  lemma SubscribeOwnKeepsInv(w: World, room: ChatRoom, a: Address)
    requires Inv(w) && IsLocal(w, a) && !Subscribed(w, room, a)
    ensures Inv(SubscribeOwn(w, room, a))
  {
    hide StoreOk, CountsOk, AliveOk, HoldersOk, ObserversOk, DialogsOk, UseOk, CacheOk, RegistrarOk, SubsOk,
         SharedOk, IdsOk;
    var s := w.next;
    var sub := Sub(room, a, w.config.check, Own, a.aor != "", [], 0);
    var w' := SubscribeOwn(w, room, a);
    assert w'.subs == w.subs[s := sub];
    NewSubKeepsRest(w, s, sub, Stored(w));
    FreePair(w, room, a);
    InsertedStore(w.store, w.subs, s, sub);
    InsertedValues(w.store, Entry(SubscriptionKey(a), s));
    NewSubKeepsHolders(w.clients, w.subs, Stored(w), s, sub);
    NewSubKeepsUris(w.subs, s, sub);
  }

  lemma FreePair(w: World, room: ChatRoom, a: Address)
    requires StoreOk(w.store, w.subs) && !Subscribed(w, room, a)
    ensures forall i | 0 <= i < |w.store| &&
            w.store[i].key == SubscriptionKey(a) :: w.subs[w.store[i].value].room != room
  {
    forall i | 0 <= i < |w.store| && w.store[i].key == SubscriptionKey(a)
      ensures w.subs[w.store[i].value].room != room {
      assert !Matches(w, i, room, SubscriptionKey(a));
    }
  }

  function WithHolder(clients: Clients, c: nat, s: nat): Clients
    requires c in clients
  {
    clients[c := clients[c].(strong := clients[c].strong + 1, observers := clients[c].observers + {s})]
  }

  /** A new holder of a client that was counted right. */
  lemma HolderJoins(clients: Clients, subs: Subs, hs: set<nat>, s: nat, sub: Sub, c: nat)
    requires s !in subs && s !in hs && sub.kind == External(c) && c in clients
    requires CountsOk(clients, subs, hs) && HoldersOk(clients, subs, hs) && ObserversOk(clients, subs, hs)
    ensures CountsOk(WithHolder(clients, c, s), subs[s := sub], hs + {s})
    ensures HoldersOk(WithHolder(clients, c, s), subs[s := sub], hs + {s})
    ensures ObserversOk(WithHolder(clients, c, s), subs[s := sub], hs + {s})
  {
    hide HoldersOk;
    forall d {
      HoldersGrow(subs, hs, s, sub, c, d);
    }
    HolderJoinsHolders(clients, subs, hs, s, sub, c);
  }

  lemma HoldersGrow(subs: Subs, hs: set<nat>, s: nat, sub: Sub, c: nat, d: nat)
    requires s !in subs && s !in hs && sub.kind == External(c)
    ensures Holders(subs[s := sub], hs + {s}, d) == Holders(subs, hs, d) + if d == c then {s} else {}
    ensures s !in Holders(subs, hs, d)
    ensures |Holders(subs[s := sub], hs + {s}, d)| == |Holders(subs, hs, d)| + if d == c then 1 else 0
  {
  }

  lemma HolderJoinsHolders(clients: Clients, subs: Subs, hs: set<nat>, s: nat, sub: Sub, c: nat)
    requires s !in subs && s !in hs && sub.kind == External(c) && c in clients && HoldersOk(clients, subs, hs)
    ensures HoldersOk(WithHolder(clients, c, s), subs[s := sub], hs + {s})
  {
  }

  lemma HolderJoinsRest(w: World, s: nat, c: nat)
    requires c in w.clients
    ensures var clients' := WithHolder(w.clients, c, s);
            (AliveOk(w.clients - {c}) ==> AliveOk(clients')) &&
            (DialogsOk(w.events, w.clients) ==> DialogsOk(w.events, clients')) &&
            (CacheOk(w.cache, w.clients) ==> CacheOk(w.cache, clients')) &&
            (SharedOk(w.subs, w.clients) ==> SharedOk(w.subs, clients')) &&
            (IdsOk(w.subs, w.clients, w.events, w.cache, w.next) ==> IdsOk(w.subs, clients', w.events, w.cache, w.next))
  {
    forall d | d in w.clients && d != c ensures d in w.clients - {c} {
    }
  }

  /** The state a new client is created in, before it is acquired: nobody holds it. */
  function WithClient(w: World, a: Address): World {
    if Cached(w, a.ordered).Some? then w else
      var c := w.next;
      RegisterClient(w).(clients := w.clients[c := ClientState(a, None, [], {}, 0)], cache := w.cache[a.ordered := c],
                         next := c + 1)
  }

  function ClientFor(w: World, a: Address): nat {
    if Cached(w, a.ordered).Some? then Cached(w, a.ordered).value else w.next
  }

  /** A new subscription holds and observes a client. */
  function Joined(w: World, c: nat, room: ChatRoom, a: Address): World
    requires c in w.clients
  {
    w.(clients := WithHolder(w.clients, c, w.next),
       subs := w.subs[w.next := Sub(room, a, w.config.check, External(c), false, [], 0)],
       store := Insert(w.store, Entry(SubscriptionKey(a), w.next)), next := w.next + 1)
  }

  /** Joining in one go: the client is there, and gets one more holder. */
  lemma JoinIsJoined(w: World, room: ChatRoom, a: Address)
    ensures ClientFor(w, a) in WithClient(w, a).clients
    ensures JoinExternal(w, room, a) == Joined(WithClient(w, a), ClientFor(w, a), room, a)
    ensures AcquireClient(w, a).1 == ClientFor(w, a) && AcquireClient(w, a).0.next == WithClient(w, a).next
    ensures ClientFor(w, a) in JoinExternal(w, room, a).clients
  {
    hide Insert;
    var (w1, c) := AcquireClient(w, a);
    var s := w1.next;
    if Cached(w, a.ordered).None? {
      var st := ClientState(a, None, [], {} + {s}, 1);
      assert w1.clients == w.clients[c := st.(observers := {})];
      assert JoinExternal(w, room, a).clients == w1.clients[c := st];
      assert Joined(WithClient(w, a), c, room, a).clients == w.clients[c := st];
    }
  }

  lemma WithClientFrame(w: World, a: Address)
    ensures var w' := WithClient(w, a);
            w'.store == w.store && w'.subs == w.subs && w'.config == w.config && w'.events == w.events &&
            w'.listeners == w.listeners && w'.fetches == w.fetches
    ensures Cached(w, a.ordered).None? && w.next !in w.clients ==>
              var w' := WithClient(w, a);
              w'.clients.Keys == w.clients.Keys + {w.next} && w'.clients - {w.next} == w.clients &&
              w'.cache.Keys == w.cache.Keys + {a.ordered} && w.next in w'.clients &&
              w'.clients[w.next].to == a && w.next < w'.next
  {
  }

  lemma NewClientKeepsUse(w: World, a: Address)
    requires UseOk(w.useCount, w.attached, w.coreCalls, w.clients.Keys) && w.next !in w.clients
    requires Cached(w, a.ordered).None?
    ensures var w' := WithClient(w, a); UseOk(w'.useCount, w'.attached, w'.coreCalls, w.clients.Keys + {w.next})
  {
    hide Cached;
    assert |w.clients.Keys + {w.next}| == |w.clients.Keys| + 1;
  }

  lemma NewClientKeepsRest(w: World, a: Address)
    requires Cached(w, a.ordered).None? && IdsOk(w.subs, w.clients, w.events, w.cache, w.next)
    ensures var w' := WithClient(w, a);
            (CacheOk(w.cache, w.clients) && AliveOk(w.clients) ==> CacheOk(w'.cache, w'.clients)) &&
            (DialogsOk(w.events, w.clients) ==> DialogsOk(w.events, w'.clients)) &&
            (SharedOk(w.subs, w.clients) ==> SharedOk(w.subs, w'.clients)) &&
            IdsOk(w.subs, w'.clients, w.events, w'.cache, w'.next) && w.next !in w.clients
  {
  }

  lemma NewClientKeepsHolders(w: World, a: Address, hs: set<nat>)
    requires Cached(w, a.ordered).None? && IdsOk(w.subs, w.clients, w.events, w.cache, w.next)
    ensures var w' := WithClient(w, a);
            (CountsOk(w.clients, w.subs, hs) ==> CountsOk(w'.clients, w.subs, hs)) &&
            (HoldersOk(w.clients, w.subs, hs) ==> HoldersOk(w'.clients, w.subs, hs)) &&
            (ObserversOk(w.clients, w.subs, hs) ==> ObserversOk(w'.clients, w.subs, hs))
  {
  }

  /** What a client to be acquired satisfies: all of the invariant but being held, and its URI is cached. */
  ghost predicate Ready(w: World, c: nat, uri: string) {
    StoreOk(w.store, w.subs) && CountsOk(w.clients, w.subs, Stored(w)) && AliveOk(w.clients - {c}) &&
    HoldersOk(w.clients, w.subs, Stored(w)) && ObserversOk(w.clients, w.subs, Stored(w)) &&
    DialogsOk(w.events, w.clients) && UseOk(w.useCount, w.attached, w.coreCalls, w.clients.Keys) &&
    CacheOk(w.cache, w.clients) && w.cache.Keys == ExternalUris(w.subs) + {uri} && SubsOk(w.config, w.subs) &&
    SharedOk(w.subs, w.clients) && IdsOk(w.subs, w.clients, w.events, w.cache, w.next) &&
    RegistrarOk(w.subs, Stored(w), w.listeners, w.fetches) &&
    c in w.clients && w.clients[c].to.ordered == uri && c < w.next
  }

  lemma WithClientIsReady(w: World, a: Address)
    requires Inv(w)
    ensures Ready(WithClient(w, a), ClientFor(w, a), a.ordered)
  {
    if Cached(w, a.ordered).Some? {
      CachedIsReady(w, a);
    } else {
      NewIsReady(w, a);
    }
  }

  lemma CachedIsReady(w: World, a: Address)
    requires Inv(w) && Cached(w, a.ordered).Some?
    ensures Ready(w, Cached(w, a.ordered).value, a.ordered)
  {
  }

  lemma NewIsReady(w: World, a: Address)
    requires Inv(w) && Cached(w, a.ordered).None?
    ensures Ready(WithClient(w, a), w.next, a.ordered)
  {
    hide StoreOk, CountsOk, AliveOk, HoldersOk, ObserversOk, DialogsOk, UseOk, CacheOk, RegistrarOk, SubsOk,
         SharedOk, IdsOk;
    NewClientKeepsRest(w, a);
    NewClientKeepsHolders(w, a, Stored(w));
    NewClientKeepsUse(w, a);
    hide WithClient;
    WithClientFrame(w, a);
  }

  lemma NewSubSharesClient(subs: Subs, clients: Clients, s: nat, sub: Sub)
    requires SharedOk(subs, clients)
    requires sub.kind.External? && sub.kind.client in clients ==>
               sub.participant.ordered == clients[sub.kind.client].to.ordered
    ensures SharedOk(subs[s := sub], clients)
  {
  }

  lemma JoinKeepsInv(w: World, c: nat, room: ChatRoom, a: Address)
    requires Ready(w, c, a.ordered) && !IsLocal(w, a) && !Subscribed(w, room, a)
    ensures Inv(Joined(w, c, room, a))
  {
    hide StoreOk, CountsOk, AliveOk, HoldersOk, ObserversOk, DialogsOk, UseOk, CacheOk, RegistrarOk, SubsOk,
         SharedOk, IdsOk, Insert, Values, ExternalUris, Subscribed, Alternating;
    var s, sub := w.next, Sub(room, a, w.config.check, External(c), false, [], 0);
    NewSubKeepsRest(w, s, sub, Stored(w));
    StoredAreNotNew(w, Stored(w), s);
    FreePair(w, room, a);
    InsertedStore(w.store, w.subs, s, sub);
    InsertedValues(w.store, Entry(SubscriptionKey(a), s));
    NewSubKeepsUris(w.subs, s, sub);
    NewSubSharesClient(w.subs, w.clients, s, sub);
    HolderJoins(w.clients, w.subs, Stored(w), s, sub, c);
    HolderJoinsRest(w.(subs := w.subs[s := sub], next := s + 1), s, c);
    assert WithHolder(w.clients, c, s).Keys == w.clients.Keys;
  }

  lemma StoredAreNotNew(w: World, hs: set<nat>, s: nat)
    requires HoldersOk(w.clients, w.subs, hs) && s !in w.subs
    ensures s !in hs
  {
  }

  lemma JoinExternalKeepsInv(w: World, room: ChatRoom, a: Address)
    requires Inv(w) && !IsLocal(w, a) && !Subscribed(w, room, a)
    ensures Inv(JoinExternal(w, room, a))
  {
    hide Inv, JoinExternal, Joined, WithClient, Subscribed;
    WithClientIsReady(w, a);
    WithClientFrame(w, a);
    JoinIsJoined(w, room, a);
    SubscribedUnchanged(w, WithClient(w, a), room, a);
    JoinKeepsInv(WithClient(w, a), ClientFor(w, a), room, a);
  }

  lemma SubscribedUnchanged(w: World, w': World, room: ChatRoom, a: Address)
    requires w'.store == w.store && w'.subs == w.subs
    ensures Subscribed(w', room, a) <==> Subscribed(w, room, a)
  {
    assert forall i: nat :: Matches(w', i, room, SubscriptionKey(a)) <==> Matches(w, i, room, SubscriptionKey(a));
  }

  lemma SubscribeKeepsInv(w: World, room: ChatRoom, a: Address, answer: DialogState)
    requires Inv(w)
    ensures Inv(Subscribe(w, room, a, answer))
  {
    hide Inv, Joined, WithClient, JoinExternal, AcquireClient, SubscribeOwn, Subscribed;
    if Subscribed(w, room, a) {
    } else if IsLocal(w, a) {
      SubscribeOwnKeepsInv(w, room, a);
    } else {
      JoinExternalKeepsInv(w, room, a);
      JoinIsJoined(w, room, a);
      ClientSubscribeKeepsInv(JoinExternal(w, room, a), AcquireClient(w, a).1, AcquireClient(w, a).0.next, answer);
    }
  }

  // ---- Leaving ----

  /** The erasing loop of `removeSubscription`, over a range of positions that shrinks as entries go. */
  ghost function RemoveMatching(w: World, room: ChatRoom, lo: nat, hi: nat): World
    requires Inv(w) && lo <= hi <= |w.store|
    decreases hi - lo
  {
    if lo == hi then w
    else if w.subs[w.store[lo].value].room == room then
      EvictKeepsInv(w, lo);
      EvictedStore(w, lo);
      RemoveMatching(Evict(w, lo), room, lo, hi - 1)
    else RemoveMatching(w, room, lo + 1, hi)
  }

  /** What the destruction of a client leaves as it was. */
  lemma ReleasedFrame(w: World, c: nat)
    requires c in w.clients && w.clients[c].strong > 0
    requires w.clients[c].dialog.Some? ==> w.clients[c].dialog.value in w.events
    ensures var w' := Released(w, c);
            w'.store == w.store && w'.subs == w.subs && w'.config == w.config && w'.cache == w.cache &&
            w'.fetches == w.fetches && w'.listeners == w.listeners && w'.next == w.next &&
              w'.events.Keys == w.events.Keys
  {
  }

  lemma EvictedStore(w: World, i: nat)
    requires i < |w.store| && Droppable(w, w.store[i].value) && CoreInv(w, Stored(w))
    ensures Evict(w, i).store == Erase(w.store, i) && OnlyStopped(w, Evict(w, i))
    ensures forall s | s in w.subs && s != w.store[i].value :: Evict(w, i).subs[s] == w.subs[s]
  {
    hide CoreInv;
    if w.subs[w.store[i].value].kind.External? {
      EvictIsExternalLeft(w, i);
      hide Evict, Released;
      var s := w.store[i].value;
      var c := w.subs[s].kind.client;
      ReleasedFrame(w.(store := Erase(w.store, i),
                       clients := w.clients[c := w.clients[c].(observers := w.clients[c].observers - {s})]), c);
    }
  }

  /** What stopping leaves as it was. */
  ghost predicate OnlyStopped(w: World, w': World) {
    w'.config == w.config && w'.subs.Keys == w.subs.Keys && w'.cache == w.cache && w'.fetches == w.fetches &&
    w'.next == w.next && w'.events.Keys == w.events.Keys &&
    forall s | s in w.subs :: w'.subs[s] == w.subs[s].(active := w'.subs[s].active)
  }

  lemma OnlyStoppedChains(w: World, w1: World, w2: World)
    requires OnlyStopped(w, w1) && OnlyStopped(w1, w2)
    ensures OnlyStopped(w, w2)
  {
  }

  ghost function Unsubscribe(w: World, room: ChatRoom, a: Address): World
    requires Inv(w)
  {
    var keys := Keys(w.store);
    var key := SubscriptionKey(a);
    EqualRangeIsExact(keys, key);
    RemoveMatching(w, room, LowerBound(keys, key), UpperBound(keys, key))
  }

  lemma {:induction false} NothingToRemove(w: World, room: ChatRoom, lo: nat, hi: nat)
    requires Inv(w) && lo <= hi <= |w.store|
    requires forall j | lo <= j < hi :: w.subs[w.store[j].value].room != room
    ensures RemoveMatching(w, room, lo, hi) == w
    decreases hi - lo
  {
    hide Inv, Evict;
    if lo < hi {
      NothingToRemove(w, room, lo + 1, hi);
    }
  }

  lemma {:induction false} OneToRemove(w: World, room: ChatRoom, lo: nat, hi: nat, i: nat)
    requires Inv(w) && lo <= i < hi <= |w.store| && w.store[i].value in w.subs
    requires forall j | lo <= j < hi ::
               w.store[j].value in w.subs && (w.subs[w.store[j].value].room == room <==> j == i)
    ensures Droppable(w, w.store[i].value) && RemoveMatching(w, room, lo, hi) == Evict(w, i)
    decreases hi - lo
  {
    hide CoreInv, StoreOk, ObserversOk, RegistrarOk, Evict, Droppable, OnlyStopped;
    EvictKeepsInv(w, i);
    EvictedStore(w, i);
    if lo == i {
      EvictedRooms(w, Evict(w, i), room, i, hi);
      NothingToRemove(Evict(w, i), room, i, hi - 1);
    } else {
      OneToRemove(w, room, lo + 1, hi, i);
    }
  }

  lemma EvictedRooms(w: World, w': World, room: ChatRoom, i: nat, hi: nat)
    requires i < hi <= |w.store| && w'.store == Erase(w.store, i) && OnlyStopped(w, w')
    requires forall j | i < j < hi :: w.store[j].value in w.subs && w.subs[w.store[j].value].room != room
    ensures forall j | i <= j < hi - 1 ::
              w'.store[j].value in w'.subs && w'.subs[w'.store[j].value].room != room
  {
  }

  /** The loop over `equal_range` removes the one entry of the pair, if there is one, and nothing else. */
  lemma UnsubscribeRemovesThePair(w: World, room: ChatRoom, a: Address)
    requires Inv(w)
    ensures !Subscribed(w, room, a) ==> Unsubscribe(w, room, a) == w
    ensures forall i | 0 <= i < |w.store| && Matches(w, i, room, SubscriptionKey(a)) ::
              Droppable(w, w.store[i].value) && Unsubscribe(w, room, a) == Evict(w, i)
  {
    var keys, key := Keys(w.store), SubscriptionKey(a);
    EqualRangeIsExact(keys, key);
    var lo, hi := LowerBound(keys, key), UpperBound(keys, key);
    RangeHoldsTheKey(w.store, key);
    if !Subscribed(w, room, a) {
      forall j | lo <= j < hi ensures w.subs[w.store[j].value].room != room {
        assert !Matches(w, j, room, key);
      }
      NothingToRemove(w, room, lo, hi);
    }
    forall i | 0 <= i < |w.store| && Matches(w, i, room, key)
      ensures Droppable(w, w.store[i].value) && Unsubscribe(w, room, a) == Evict(w, i)
    {
      OnlyMatch(w, room, key, i);
      OneToRemove(w, room, lo, hi, i);
    }
  }

  lemma RangeHoldsTheKey(store: Store, key: string)
    requires Sorted(Keys(store))
    ensures var lo, hi := LowerBound(Keys(store), key), UpperBound(Keys(store), key);
            lo <= hi <= |store| && forall i | 0 <= i < |store| :: store[i].key == key <==> lo <= i < hi
  {
    EqualRangeIsExact(Keys(store), key);
    LessIrreflexive(key);
  }

  lemma OnlyMatch(w: World, room: ChatRoom, key: string, i: nat)
    requires StoreOk(w.store, w.subs) && i < |w.store| && Matches(w, i, room, key)
    ensures forall j | 0 <= j < |w.store| && w.store[j].key == key ::
              w.store[j].value in w.subs && (w.subs[w.store[j].value].room == room <==> j == i)
  {
  }

  // ---- Tearing down ----

  /** The first loop of `removeAllSubscriptions`. */
  function StopAll(w: World, entries: Store): World
    requires forall i | 0 <= i < |entries| :: Stoppable(w, entries[i].value)
    decreases |entries|
  {
    if entries == [] then w else StopAll(StopSub(w, entries[0].value), entries[1..])
  }

  predicate Distinct(entries: Store) {
    forall i, j | 0 <= i < j < |entries| :: entries[i].value != entries[j].value
  }

  /** `clear()`: the entries are destroyed one after the other. */
  ghost function DropAll(w: World, entries: Store): World
    requires CoreInv(w, Values(entries)) && Distinct(entries)
    decreases |entries|
  {
    if entries == [] then w else
      DropKeepsCore(w, entries);
      DropAll(DropSub(w, entries[0].value), entries[1..])
  }

  lemma FirstValue(entries: Store)
    requires entries != [] && Distinct(entries)
    ensures entries[0].value in Values(entries) && Distinct(entries[1..])
    ensures Values(entries[1..]) == Values(entries) - {entries[0].value}
  {
  }

  lemma DropKeepsCore(w: World, entries: Store)
    requires CoreInv(w, Values(entries)) && entries != [] && Distinct(entries)
    ensures Droppable(w, entries[0].value)
    ensures CoreInv(DropSub(w, entries[0].value), Values(entries[1..])) && Distinct(entries[1..])
  {
    var s := entries[0].value;
    FirstValue(entries);
    StoredAreDroppable(w, Values(entries), s);
    if w.subs[s].kind.External? {
      var c := w.subs[s].kind.client;
      hide CoreInv, Release, Released;
      ReleaseIsReleased(w, c);
      ReleasedKeepsCore(w, Values(entries), s, c);
    } else {
      OwnDropKeepsCore(w, Values(entries), s);
    }
  }

  lemma OwnDropKeepsCore(w: World, hs: set<nat>, s: nat)
    requires CoreInv(w, hs) && s in hs && s in w.subs && w.subs[s].kind.Own?
    ensures CoreInv(w, hs - {s})
  {
    hide AliveOk, DialogsOk, UseOk, CacheOk, SubsOk, SharedOk, IdsOk;
    HolderLeaves(w.subs, hs, s);
  }

  lemma StopKeepsCore(w: World, hs: set<nat>, s: nat)
    requires CoreInv(w, hs) && s in hs
    ensures Stoppable(w, s) && CoreInv(StopSub(w, s), hs)
  {
    hide StoreOk, CountsOk, AliveOk, HoldersOk, ObserversOk, DialogsOk, UseOk, CacheOk, RegistrarOk, SubsOk,
         SharedOk, IdsOk;
    StoredAreDroppable(w, hs, s);
    if w.subs[s].kind.External? {
      hide CoreInv;
      UnobservedKeepsCore(w, hs, w.subs[s].kind.client, w.clients[w.subs[s].kind.client].observers - {s});
    } else {
      SwitchKeepsUris(w.subs, StopSub(w, s).subs);
      SwitchKeepsRest(w, hs, s);
    }
  }

  lemma SwitchKeepsRest(w: World, hs: set<nat>, s: nat)
    requires s in w.subs
    ensures var subs' := w.subs[s := w.subs[s].(active := false)];
            (CountsOk(w.clients, w.subs, hs) ==> CountsOk(w.clients, subs', hs)) &&
            (HoldersOk(w.clients, w.subs, hs) ==> HoldersOk(w.clients, subs', hs)) &&
            (SubsOk(w.config, w.subs) ==> SubsOk(w.config, subs')) &&
            (SharedOk(w.subs, w.clients) ==> SharedOk(subs', w.clients)) &&
            (IdsOk(w.subs, w.clients, w.events, w.cache, w.next) ==> IdsOk(subs', w.clients, w.events, w.cache, w.next))
  {
    forall c ensures Holders(w.subs[s := w.subs[s].(active := false)], hs, c) == Holders(w.subs, hs, c) {
    }
  }

  lemma StopKeepsRegistrar(w: World, hs: set<nat>, s: nat)
    requires RegistrarOk(w.subs, hs, w.listeners, w.fetches) && s in hs && Stoppable(w, s)
    ensures var w' := StopSub(w, s); RegistrarOk(w'.subs, hs - {s}, w'.listeners, w'.fetches)
  {
  }

  lemma {:induction false} StopAllKeeps(w: World, hs: set<nat>, entries: Store)
    requires CoreInv(w, hs) && RegistrarOk(w.subs, Values(entries), w.listeners, w.fetches) && Distinct(entries)
    requires Values(entries) <= hs
    ensures forall i | 0 <= i < |entries| :: Stoppable(w, entries[i].value)
    ensures var w' := StopAll(w, entries);
            CoreInv(w', hs) && RegistrarOk(w'.subs, {}, w'.listeners, w'.fetches) && OnlyStopped(w, w')
    decreases |entries|
  {
    assert forall i | 0 <= i < |entries| :: entries[i].value in Values(entries);
    hide CoreInv, RegistrarOk, Values, Distinct, StopSub, OnlyStopped;
    forall i | 0 <= i < |entries| ensures Stoppable(w, entries[i].value) {
      StoredAreDroppable(w, hs, entries[i].value);
    }
    hide Stoppable;
    if entries == [] {
      NothingStopped(w);
      NoValues(entries);
    } else {
      FirstValue(entries);
      StopKeepsCore(w, hs, entries[0].value);
      StopKeepsRegistrar(w, Values(entries), entries[0].value);
      StopFrame(w, entries[0].value);
      StopAllKeeps(StopSub(w, entries[0].value), hs, entries[1..]);
      OnlyStoppedChains(w, StopSub(w, entries[0].value), StopAll(w, entries));
    }
  }

  lemma StopFrame(w: World, s: nat)
    requires Stoppable(w, s)
    ensures OnlyStopped(w, StopSub(w, s))
  {
  }

  lemma NothingStopped(w: World)
    ensures OnlyStopped(w, w)
  {
  }

  lemma NoValues(entries: Store)
    requires entries == []
    ensures Values(entries) == {}
  {
  }

  lemma {:induction false} DropAllKeeps(w: World, entries: Store)
    requires CoreInv(w, Values(entries)) && Distinct(entries)
    ensures var w' := DropAll(w, entries);
            CoreInv(w', {}) && OnlyStopped(w, w') && w'.subs == w.subs && w'.listeners == w.listeners
    decreases |entries|
  {
    if entries == [] {
      NoValues(entries);
    } else {
      DropKeepsCore(w, entries);
      DropFrame(w, Values(entries), entries[0].value);
      hide CoreInv, Values, Distinct, DropSub, OnlyStopped;
      DropAllKeeps(DropSub(w, entries[0].value), entries[1..]);
      OnlyStoppedChains(w, DropSub(w, entries[0].value), DropAll(w, entries));
    }
  }

  lemma DropFrame(w: World, hs: set<nat>, s: nat)
    requires CoreInv(w, hs) && s in hs && Droppable(w, s)
    ensures var w' := DropSub(w, s);
            OnlyStopped(w, w') && w'.subs == w.subs && w'.listeners == w.listeners && w'.store == w.store
  {
    hide CoreInv, Release, Released;
    StoredAreDroppable(w, hs, s);
    if w.subs[s].kind.External? {
      ReleaseIsReleased(w, w.subs[s].kind.client);
      ReleasedFrame(w, w.subs[s].kind.client);
    }
  }

  lemma StoreIsDistinct(store: Store, subs: Subs)
    requires StoreOk(store, subs)
    ensures Distinct(store)
  {
  }

  // ---- One call at a time ----

  lemma RemoveMatchingStep(w: World, room: ChatRoom, lo: nat, hi: nat)
    requires Inv(w) && lo < hi <= |w.store|
    ensures w.store[lo].value in w.subs && Droppable(w, w.store[lo].value)
    ensures var w' := Evict(w, lo);
            Inv(w') && |w'.store| == |w.store| - 1 &&
            RemoveMatching(w, room, lo, hi) ==
            if w.subs[w.store[lo].value].room == room then RemoveMatching(w', room, lo, hi - 1)
            else RemoveMatching(w, room, lo + 1, hi)
  {
    EvictKeepsInv(w, lo);
    EvictedStore(w, lo);
    hide Evict, CoreInv, RegistrarOk, ObserversOk;
  }

  lemma NothingMatches(w: World, room: ChatRoom, lo: nat)
    requires Inv(w) && lo <= |w.store|
    ensures RemoveMatching(w, room, lo, lo) == w
  {
  }

  lemma UnsubscribeLoops(w: World, room: ChatRoom, a: Address)
    requires Inv(w)
    ensures var lo, hi := LowerBound(Keys(w.store), SubscriptionKey(a)), UpperBound(Keys(w.store), SubscriptionKey(a));
            lo <= hi <= |w.store| && Unsubscribe(w, room, a) == RemoveMatching(w, room, lo, hi)
  {
    EqualRangeIsExact(Keys(w.store), SubscriptionKey(a));
    hide RemoveMatching, CoreInv, RegistrarOk, ObserversOk;
  }

  lemma StoreIsSorted(w: World)
    requires Inv(w)
    ensures Sorted(Keys(w.store))
  {
  }

  lemma StoppedIsDroppable(w: World, s: nat)
    requires Droppable(w, s)
    ensures Stoppable(w, s) && Droppable(StopSub(w, s), s) && StopSub(w, s).store == w.store
  {
  }

  lemma StoppingKeepsStore(w: World, s: nat)
    requires Stoppable(w, s)
    ensures StopSub(w, s).store == w.store
  {
  }

  lemma StillDroppable(w: World, entries: Store)
    requires CoreInv(w, Values(entries)) && entries != []
    ensures Droppable(w, entries[0].value) && DropSub(w, entries[0].value).store == w.store
  {
    assert entries[0].value in Values(entries);
    StoredAreDroppable(w, Values(entries), entries[0].value);
    DropFrame(w, Values(entries), entries[0].value);
    hide CoreInv, DropSub, Droppable;
  }

  ghost function UnsubscribeAll(w: World): World
    requires Inv(w)
  {
    StoreIsDistinct(w.store, w.subs);
    StopAllKeeps(w, Stored(w), w.store);
    DropAll(StopAll(w, w.store), w.store).(store := [])
  }

  lemma UnsubscribeAllKeepsInv(w: World)
    requires Inv(w)
    ensures Inv(UnsubscribeAll(w)) && OnlyStopped(w, UnsubscribeAll(w)) && UnsubscribeAll(w).store == []
  {
    hide CoreInv, RegistrarOk, StopAll;
    StoreIsDistinct(w.store, w.subs);
    StopAllKeeps(w, Stored(w), w.store);
    var w1 := StopAll(w, w.store);
    DropAllKeeps(w1, w.store);
    var w2 := DropAll(w1, w.store);
    NoValues(w2.(store := []).store);
    StoreDoesNotMatter(w2, w2.(store := []), {});
    NobodyLeft(w2);
  }

  /** Without holders there are no clients. */
  lemma NobodyLeft(w: World)
    requires CoreInv(w, {})
    ensures w.clients == map[] && w.useCount == 0 && !w.attached
    ensures forall e | e in w.events :: w.events[e] == Dialog(None, 1)
    ensures ObserversOk(w.clients, w.subs, {})
  {
  }
}
