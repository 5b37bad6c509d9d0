/** Runs: any interleaving of the handler's operations and the libraries' callbacks, and what holds in every state a run
    can reach. */
module Runs {
  import opened Text
  import opened Reginfo
  import opened Multimap
  import opened World
  import opened Invariants
  import opened Lifecycle

  datatype Op =
    | SubscribeTo(room: ChatRoom, address: Address, answer: DialogState)
    | UnsubscribeFrom(room: ChatRoom, address: Address)
    | UnsubscribeFromAll
    | NotifyOn(event: nat, body: Body)
    | StateOf(event: nat, state: DialogState)
    | FetchCompletes(sub: nat, found: Option<Record>)
    | FetchFails(sub: nat)
    | ContactRegisters(sub: nat, record: Record, uid: string)

  ghost function Step(w: World, op: Op): World
    requires Inv(w)
  {
    match op
    case SubscribeTo(room, a, answer) => Subscribe(w, room, a, answer)
    case UnsubscribeFrom(room, a) => Unsubscribe(w, room, a)
    case UnsubscribeFromAll => UnsubscribeAll(w)
    case NotifyOn(e, body) => if e in w.events then NotifyKeepsInv(w, e, body); NotifyReceived(w, e, body) else w
    case StateOf(e, state) => if e in w.events then StateChangedKeepsInv(w, e, state); StateChanged(w, e, state) else w
    case FetchCompletes(s, found) => FetchDone(w, s, found)
    case FetchFails(s) => FetchFailed(w, s)
    case ContactRegisters(s, record, uid) => ContactRegistered(w, s, record, uid)
  }

  lemma UnsubscribeKeepsInv(w: World, room: ChatRoom, a: Address)
    requires Inv(w)
    ensures Inv(Unsubscribe(w, room, a))
  {
    UnsubscribeRemovesThePair(w, room, a);
    if i :| 0 <= i < |w.store| && Matches(w, i, room, SubscriptionKey(a)) {
      EvictKeepsInv(w, i);
    }
  }

  lemma StepKeepsInv(w: World, op: Op)
    requires Inv(w)
    ensures Inv(Step(w, op))
  {
    hide Inv;
    match op
    case SubscribeTo(room, a, answer) => SubscribeKeepsInv(w, room, a, answer);
    case UnsubscribeFrom(room, a) => UnsubscribeKeepsInv(w, room, a);
    case UnsubscribeFromAll => UnsubscribeAllKeepsInv(w);
    case NotifyOn(e, body) => if e in w.events { NotifyKeepsInv(w, e, body); }
    case StateOf(e, state) => if e in w.events { StateChangedKeepsInv(w, e, state); }
    case FetchCompletes(s, found) => FetchesKeepInv(w, s, found);
    case FetchFails(s) => FetchesKeepInv(w, s, None);
    case ContactRegisters(s, record, uid) => ContactRegisteredKeepsInv(w, s, record, uid);
  }

  lemma SubscribeKeepsConfig(w: World, room: ChatRoom, a: Address, answer: DialogState)
    ensures Subscribe(w, room, a, answer).config == w.config
  {
  }

  lemma StepKeepsConfig(w: World, op: Op)
    requires Inv(w)
    ensures Step(w, op).config == w.config
  {
    match op
    case SubscribeTo(room, a, answer) => SubscribeKeepsConfig(w, room, a, answer);
    case UnsubscribeFrom(room, a) =>
      UnsubscribeRemovesThePair(w, room, a);
      if i :| 0 <= i < |w.store| && Matches(w, i, room, SubscriptionKey(a)) {
        hide StoreOk, CoreInv, ObserversOk, RegistrarOk, Evict, Unsubscribe;
        EvictedStore(w, i);
      }
    case UnsubscribeFromAll => UnsubscribeAllKeepsInv(w);
    case _ =>
      hide Inv, StateChanged;
  }

  ghost function Run(w: World, ops: seq<Op>): World
    requires Inv(w)
    decreases |ops|
  {
    if ops == [] then w else
      StepKeepsInv(w, ops[0]);
      Run(Step(w, ops[0]), ops[1..])
  }

  ghost predicate Reaches(config: Config, ops: seq<Op>, w: World) {
    StartIsOk(config);
    w == Run(Start(config), ops)
  }

  ghost predicate Reachable(w: World) {
    exists config, ops :: Reaches(config, ops, w)
  }

  lemma {:induction false} RunKeepsInv(w: World, ops: seq<Op>)
    requires Inv(w)
    ensures Inv(Run(w, ops))
    decreases |ops|
  {
    hide Inv, Step;
    if ops != [] {
      StepKeepsInv(w, ops[0]);
      RunKeepsInv(Step(w, ops[0]), ops[1..]);
    }
  }

  lemma ReachableIsOk(w: World)
    requires Reachable(w)
    ensures Inv(w)
  {
    hide Inv, Run;
    var config, ops :| Reaches(config, ops, w);
    StartIsOk(config);
    RunKeepsInv(Start(config), ops);
  }

  // ---- What every reachable state satisfies ----

  /** Event data and clients' dialogs are inverse; an event that nobody's dialog is has been terminated exactly once; so
      dispatching an event only ever reaches a live client that has a dialog. */
  lemma DialogsAreInverse(w: World)
    requires Reachable(w)
    ensures forall e, c ::
              (e in w.events && w.events[e].data == Some(c)) <==> (c in w.clients && w.clients[c].dialog == Some(e))
    ensures forall e | e in w.events :: w.events[e].terminated == if w.events[e].data.Some? then 0 else 1
    ensures forall e | e in w.events :: Dispatchable(w, e)
  {
    ReachableIsOk(w);
  }

  /** A client's observers are exactly the stored subscriptions that hold it, its count is their number, and it is alive
      exactly as long as there is one. */
  lemma ClientsLiveThroughSubscriptions(w: World)
    requires Reachable(w)
    ensures forall c | c in w.clients ::
              w.clients[c].observers == (set s | s in Stored(w) && s in w.subs && w.subs[s].kind == External(c)) &&
              w.clients[c].strong == |w.clients[c].observers| && w.clients[c].observers != {}
    ensures forall s | s in Stored(w) ::
              s in w.subs && (w.subs[s].kind.External? ==> w.subs[s].kind.client in w.clients)
  {
    ReachableIsOk(w);
    forall c | c in w.clients
      ensures w.clients[c].observers == (set s | s in Stored(w) && s in w.subs && w.subs[s].kind == External(c))
    {
      assert w.clients[c].observers == Holders(w.subs, Stored(w), c);
    }
  }

  /** The factory counts the live clients, listens to the core exactly while there are some, and never starts or stops
      listening twice in a row. */
  lemma FactoryListensWhileUsed(w: World)
    requires Reachable(w)
    ensures w.useCount == |w.clients| >= 0
    ensures w.attached <==> w.useCount > 0
    ensures forall i | 0 <= i < |w.coreCalls| :: w.coreCalls[i] == if i % 2 == 0 then AddListener else RemoveListener
    ensures w.attached <==> w.coreCalls != [] && w.coreCalls[|w.coreCalls| - 1] == AddListener
  {
    ReachableIsOk(w);
    hide UseOk, StoreOk, CountsOk, AliveOk, HoldersOk, ObserversOk, DialogsOk, CacheOk, RegistrarOk, SubsOk,
         SharedOk, IdsOk, Reachable;
    CountedUse(w.useCount, w.attached, w.coreCalls, w.clients);
  }

  lemma CountedUse(useCount: int, attached: bool, coreCalls: seq<CoreCall>, clients: Clients)
    requires UseOk(useCount, attached, coreCalls, clients.Keys)
    ensures useCount == |clients| && (attached <==> useCount > 0) && Alternating(coreCalls)
    ensures attached <==> coreCalls != [] && coreCalls[|coreCalls| - 1] == AddListener
  {
  }

  /** At most one live client per ordered URI, and it is the cached one; the cache has one entry per URI ever subscribed
      to, no more. */
  lemma OneClientPerUri(w: World)
    requires Reachable(w)
    ensures forall c, d | c in w.clients && d in w.clients &&
            w.clients[c].to.ordered == w.clients[d].to.ordered :: c == d
    ensures forall c | c in w.clients :: Cached(w, w.clients[c].to.ordered) == Some(c)
    ensures w.cache.Keys == set s | s in w.subs && w.subs[s].kind.External? :: w.subs[s].participant.ordered
  {
    ReachableIsOk(w);
  }

  /** The acquired client is the only one of its URI, and the cached one. If there was a live one, that is it, with one
      more pointer to it; otherwise it is one that no subscription ever had. */
  ghost predicate FoundOrCreated(w: World, a: Address, w': World, c: nat) {
    c in w'.clients && w'.clients[c].to.ordered == a.ordered && w'.cache == w.cache[a.ordered := c] &&
    (forall d | d in w'.clients && w'.clients[d].to.ordered == a.ordered :: d == c) &&
    (forall d | d in w.clients && w.clients[d].to.ordered == a.ordered ::
       d == c && w' == w.(clients := w.clients[d := w.clients[d].(strong := w.clients[d].strong + 1)])) &&
    ((forall d | d in w.clients :: w.clients[d].to.ordered != a.ordered) ==>
       c !in w.clients && w'.clients == w.clients[c := ClientState(a, None, [], {}, 1)] &&
       forall s | s in w.subs :: w.subs[s].kind != External(c))
  }

  lemma AcquireFindsOrCreates(w: World, a: Address)
    requires Reachable(w)
    ensures FoundOrCreated(w, a, AcquireClient(w, a).0, AcquireClient(w, a).1)
  {
    hide StoreOk, CountsOk, HoldersOk, ObserversOk, DialogsOk, UseOk, CacheOk, AliveOk, IdsOk, RegistrarOk, SubsOk,
         SharedOk, Reachable, AcquireClient, FoundOrCreated;
    ReachableIsOk(w);
    AcquiredFromCache(w, a);
  }

  lemma AcquiredFromCache(w: World, a: Address)
    requires CacheOk(w.cache, w.clients) && AliveOk(w.clients) && IdsOk(w.subs, w.clients, w.events, w.cache, w.next)
    ensures FoundOrCreated(w, a, AcquireClient(w, a).0, AcquireClient(w, a).1)
  {
    hide RegisterClient;
    assert forall d | d in w.clients && w.clients[d].to.ordered == a.ordered :: Cached(w, a.ordered) == Some(d);
    if Cached(w, a.ordered).Some? {
      assert w.cache == w.cache[a.ordered := w.cache[a.ordered]];
    }
  }

  /** Each pair of key and room has one entry at most, filed under its participant's key; local participants have own
      subscriptions and others external ones. */
  ghost predicate StoreIsAMap(w: World) {
    Sorted(Keys(w.store)) &&
    (forall i | 0 <= i < |w.store| ::
       w.store[i].value in w.subs &&
       var sub := w.subs[w.store[i].value];
       w.store[i].key == SubscriptionKey(sub.participant) && (sub.kind.Own? <==> IsLocal(w, sub.participant))) &&
    forall i, j | 0 <= i < |w.store| && 0 <= j < |w.store| && w.store[i].key == w.store[j].key &&
                  w.subs[w.store[i].value].room == w.subs[w.store[j].value].room :: i == j
  }

  /** The store is a map from pairs of key and room; own subscriptions listen to the registrar exactly while they are
      stored and could start. */
  lemma StoreRefinesAMap(w: World)
    requires Reachable(w)
    ensures StoreIsAMap(w)
    ensures w.listeners ==
            set s | s in Stored(w) && s in w.subs && w.subs[s].kind.Own? && w.subs[s].participant.aor != ""
  {
    hide StoreOk, CountsOk, AliveOk, HoldersOk, ObserversOk, DialogsOk, UseOk, CacheOk, RegistrarOk, SubsOk, SharedOk,
         IdsOk, Reachable, StoreIsAMap;
    ReachableIsOk(w);
    EntriesMakeAMap(w);
    ListenersAreStored(w);
  }

  lemma EntriesMakeAMap(w: World)
    requires StoreOk(w.store, w.subs) && SubsOk(w.config, w.subs)
    ensures StoreIsAMap(w)
  {
  }

  /** As long as domains are free of '@', the store never takes one participant for another: looking a pair up finds a
      subscription of that very user and domain, for that room. */
  lemma StoreKeepsParticipantsApart(w: World, room: ChatRoom, a: Address)
    requires Reachable(w) && '@' !in a.domain
    requires forall s | s in Stored(w) && s in w.subs :: '@' !in w.subs[s].participant.domain
    ensures Subscribed(w, room, a) <==>
            exists s | s in Stored(w) && s in w.subs ::
              w.subs[s].room == room && w.subs[s].participant.user == a.user && w.subs[s].participant.domain == a.domain
  {
    ReachableIsOk(w);
    if Subscribed(w, room, a) {
      var i :| 0 <= i < |w.store| && Matches(w, i, room, SubscriptionKey(a));
      var s := w.store[i].value;
      assert s in Stored(w);
      SameKeySameParticipant(w.subs[s].participant, a);
    }
    if s :| s in Stored(w) && s in w.subs && w.subs[s].room == room &&
            w.subs[s].participant.user == a.user && w.subs[s].participant.domain == a.domain {
      var i :| 0 <= i < |w.store| && w.store[i].value == s;
      assert Matches(w, i, room, SubscriptionKey(a));
    }
  }

  lemma ListenersAreStored(w: World)
    requires RegistrarOk(w.subs, Stored(w), w.listeners, w.fetches) && HoldersOk(w.clients, w.subs, Stored(w))
    ensures w.listeners ==
            set s | s in Stored(w) && s in w.subs && w.subs[s].kind.Own? && w.subs[s].participant.aor != ""
  {
  }
}
