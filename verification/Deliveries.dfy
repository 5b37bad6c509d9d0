/** Who is told what, and when: deliveries only go to subscriptions that are stored and started, those that left are
    never told anything again, leaving disturbs nobody else, and tearing down leaves nothing behind. */
module Deliveries {
  import opened Text
  import opened Reginfo
  import opened Multimap
  import opened World
  import opened Invariants
  import opened Lifecycle
  import opened Runs

  /** In the store, started and not stopped. */
  ghost predicate Subscribing(w: World, s: nat) {
    s in Stored(w) && s in w.subs &&
    match w.subs[s].kind
    case Own => w.subs[s].active
    case External(c) => c in w.clients && s in w.clients[c].observers
  }

  /** How one step relates what subscriptions have said to their rooms: nothing is taken back, and only subscriptions
      that subscribe before and after add anything; no subscription comes back to the store. */
  ghost predicate StepIsFair(w: World, w': World) {
    (forall s | s in w.subs ::
       s in w'.subs && w'.subs[s].room == w.subs[s].room && w'.subs[s].participant == w.subs[s].participant &&
       w'.subs[s].kind == w.subs[s].kind && w.subs[s].calls <= w'.subs[s].calls &&
       (w'.subs[s].calls != w.subs[s].calls ==> Subscribing(w, s) && Subscribing(w', s))) &&
    (forall s | s in w'.subs && s !in w.subs && w'.subs[s].calls != [] :: Subscribing(w', s)) &&
    (forall s | s in Stored(w') && s in w.subs :: s in Stored(w))
  }

  /** Nothing but calls and marks differs for subscriptions, and only those of `who` have made calls; the store and who
      observes which client are the same. */
  ghost predicate OnlyTold(w: World, w': World, who: set<nat>) {
    SameButCalls(w.subs, w'.subs) && w'.store == w.store &&
    (forall s | s in w.subs :: w.subs[s].calls <= w'.subs[s].calls) &&
    (forall s | s in w.subs && s !in who :: w'.subs[s].calls == w.subs[s].calls) &&
    (forall c | c in w.clients :: c in w'.clients && w'.clients[c].observers == w.clients[c].observers)
  }

  lemma TellingIsFair(w: World, w': World, who: set<nat>)
    requires OnlyTold(w, w', who) && forall s | s in who :: Subscribing(w, s)
    ensures StepIsFair(w, w')
  {
  }

  lemma StoppingIsFair(w: World, w': World)
    requires OnlyStopped(w, w') && Stored(w') <= Stored(w)
    ensures StepIsFair(w, w')
  {
  }

  lemma ObserversSubscribe(w: World, c: nat)
    requires Inv(w) && c in w.clients
    ensures forall s | s in w.clients[c].observers :: s in w.subs && w.subs[s].kind == External(c) && Subscribing(w, s)
  {
  }

  lemma DeliverTells(w: World, obs: set<nat>, ms: seq<Message>)
    requires SubsOk(w.config, w.subs)
    ensures OnlyTold(w, Deliver(w, obs, ms), obs)
  {
  }

  lemma NotifyTells(w: World, c: nat, doc: Document)
    requires SubsOk(w.config, w.subs) && c in w.clients
    ensures OnlyTold(w, ClientNotify(w, c, doc), w.clients[c].observers)
  {
  }

  lemma NotifyIsFair(w: World, e: nat, body: Body)
    requires Inv(w) && Dispatchable(w, e)
    ensures StepIsFair(w, NotifyReceived(w, e, body))
  {
    if w.attached && w.events[e].data.Some? && body.Parsed? {
      var c := w.events[e].data.value;
      NotifyTells(w, c, body.document);
      ObserversSubscribe(w, c);
      hide Inv, ClientNotify, Subscribing, StepIsFair, OnlyTold;
      TellingIsFair(w, NotifyReceived(w, e, body), w.clients[c].observers);
    } else {
      hide Inv, Subscribing, StepIsFair;
      NoStepIsFair(w);
    }
  }

  lemma NothingTold(w: World)
    requires SubsOk(w.config, w.subs)
    ensures OnlyTold(w, w, {})
  {
  }

  /** A change of state tells nobody anything. */
  lemma StateChangeTellsNobody(w: World, e: nat, state: DialogState)
    requires SubsOk(w.config, w.subs) && DialogsOk(w.events, w.clients) && e in w.events
    ensures Dispatchable(w, e) && OnlyTold(w, StateChanged(w, e, state), {})
  {
    NothingTold(w);
    if w.attached && w.events[e].data.Some? && Final(state) {
      FinalStateEndsDialog(w, w.events[e].data.value, state);
    }
  }

  lemma StateChangeIsFair(w: World, e: nat, state: DialogState)
    requires Inv(w) && e in w.events
    ensures Dispatchable(w, e) && StepIsFair(w, StateChanged(w, e, state))
  {
    StateChangeTellsNobody(w, e, state);
    hide Inv, Subscribing, StepIsFair, OnlyTold;
    TellingIsFair(w, StateChanged(w, e, state), {});
  }

  lemma ActiveSubscribes(w: World, s: nat)
    requires RegistrarOk(w.subs, Stored(w), w.listeners, w.fetches) && s in w.subs && w.subs[s].active
    ensures Subscribing(w, s)
  {
  }

  lemma FetchTells(w: World, s: nat, found: Option<Record>)
    requires SubsOk(w.config, w.subs)
    ensures OnlyTold(w, FetchDone(w, s, found), if s in w.subs && w.subs[s].active then {s} else {})
  {
    FetchChangesCalls(w, s, found);
    hide OwnDevices, SubsOk;
  }

  lemma ContactTells(w: World, s: nat, record: Record, uid: string)
    requires SubsOk(w.config, w.subs)
    ensures OnlyTold(w, ContactRegistered(w, s, record, uid), if s in w.subs && w.subs[s].active then {s} else {})
  {
    ContactRegisteredChangesCalls(w, s, record, uid);
    hide OwnDevices, Announced, SubsOk;
  }

  lemma FetchIsFair(w: World, s: nat, found: Option<Record>)
    requires Inv(w)
    ensures StepIsFair(w, FetchDone(w, s, found))
  {
    FetchTells(w, s, found);
    if s in w.subs && w.subs[s].active {
      ActiveSubscribes(w, s);
    }
    hide Inv, OnlyTold, StepIsFair, Subscribing, FetchDone;
    TellingIsFair(w, FetchDone(w, s, found), if s in w.subs && w.subs[s].active then {s} else {});
  }

  lemma ContactIsFair(w: World, s: nat, record: Record, uid: string)
    requires Inv(w)
    ensures StepIsFair(w, ContactRegistered(w, s, record, uid))
  {
    ContactTells(w, s, record, uid);
    if s in w.subs && w.subs[s].active {
      ActiveSubscribes(w, s);
    }
    hide Inv, OnlyTold, StepIsFair, Subscribing, ContactRegistered;
    TellingIsFair(w, ContactRegistered(w, s, record, uid), if s in w.subs && w.subs[s].active then {s} else {});
  }

  /** Subscribing replays to the newcomer at most, or opens a dialog and tells nobody anything. */
  lemma ClientSubscribeTells(w: World, c: nat, s: nat, answer: DialogState)
    requires Inv(w) && c in w.clients
    ensures OnlyTold(w, ClientSubscribe(w, c, s, answer), {s})
  {
    hide OnlyTold, OpenDialog, StateChanged, Deliver, StoreOk, CountsOk, AliveOk, HoldersOk, ObserversOk, DialogsOk,
         UseOk, CacheOk, RegistrarOk, SubsOk, SharedOk, IdsOk;
    if w.clients[c].dialog.Some? {
      DeliverTells(w, {s}, [Snapshot(w.clients[c].devices)]);
    } else {
      OpenDialogKeepsInv(w, c);
      OpenDialogTells(w, c);
      var w1 := OpenDialog(w, c);
      StateChangeTellsNobody(w1, w.next, answer);
      TellingChains(w, w1, StateChanged(w1, w.next, answer), {s});
    }
  }

  lemma OpenDialogTells(w: World, c: nat)
    requires SubsOk(w.config, w.subs) && c in w.clients
    ensures OnlyTold(w, OpenDialog(w, c), {})
  {
  }

  lemma TellingChains(w: World, w1: World, w2: World, who: set<nat>)
    requires OnlyTold(w, w1, {}) && OnlyTold(w1, w2, {})
    ensures OnlyTold(w, w2, who)
  {
  }

  /** Joining leaves every other subscription as it was. */
  lemma JoinAdds(w: World, room: ChatRoom, a: Address)
    requires Inv(w)
    ensures var s, c, w1 := AcquireClient(w, a).0.next, AcquireClient(w, a).1, JoinExternal(w, room, a);
            s !in w.subs && s in w1.subs && w1.subs == w.subs[s := w1.subs[s]] && w1.subs[s].calls == [] &&
            w1.subs[s].kind == External(c) && Stored(w1) == Stored(w) + {s} &&
            c in w1.clients && s in w1.clients[c].observers
  {
    JoinIsJoined(w, room, a);
    WithClientFrame(w, a);
    InsertedValues(WithClient(w, a).store, Entry(SubscriptionKey(a), WithClient(w, a).next));
    assert w.next !in w.clients && forall s | s in w.subs :: s < w.next;
    hide Inv, Insert, WithClient, JoinExternal, AcquireClient;
  }

  lemma ExternalSubscribeIsFair(w: World, room: ChatRoom, a: Address, answer: DialogState)
    requires Inv(w) && !IsLocal(w, a) && !Subscribed(w, room, a)
    ensures StepIsFair(w, SubscribeExternal(w, room, a, answer))
  {
    JoinExternalKeepsInv(w, room, a);
    JoinAdds(w, room, a);
    JoinIsJoined(w, room, a);
    var w1, s, c := JoinExternal(w, room, a), AcquireClient(w, a).0.next, AcquireClient(w, a).1;
    ClientSubscribeTells(w1, c, s, answer);
    hide Inv, ClientSubscribe, JoinExternal, AcquireClient, Stored;
    StoredFollowsStore(w1, ClientSubscribe(w1, c, s, answer));
    AddingIsFair(w, w1, ClientSubscribe(w1, c, s, answer), s, c);
  }

  lemma StoredFollowsStore(w: World, w': World)
    ensures w'.store == w.store ==> Stored(w') == Stored(w)
  {
  }

  lemma AddingIsFair(w: World, w1: World, w2: World, s: nat, c: nat)
    requires s !in w.subs && s in w1.subs && w1.subs == w.subs[s := w1.subs[s]] && w1.subs[s].calls == []
    requires w1.subs[s].kind == External(c) && Stored(w1) == Stored(w) + {s} == Stored(w2)
    requires c in w1.clients && s in w1.clients[c].observers && OnlyTold(w1, w2, {s})
    ensures StepIsFair(w, w2)
  {
    hide Stored;
  }

  lemma OwnAdds(w: World, room: ChatRoom, a: Address)
    requires w.next !in w.subs
    ensures var s, w' := w.next, SubscribeOwn(w, room, a);
            s in w'.subs && w'.subs == w.subs[s := w'.subs[s]] && w'.subs[s].calls == [] &&
              Stored(w') == Stored(w) + {s}
  {
    hide Insert, Values;
    InsertedValues(w.store, Entry(SubscriptionKey(a), w.next));
  }

  lemma OwnSubscribeIsFair(w: World, room: ChatRoom, a: Address)
    requires Inv(w)
    ensures StepIsFair(w, SubscribeOwn(w, room, a))
  {
    assert w.next !in w.subs;
    hide Inv, Stored, StepIsFair, SubscribeOwn;
    OwnAdds(w, room, a);
    SilentNewcomerIsFair(w, SubscribeOwn(w, room, a), w.next);
  }

  lemma SilentNewcomerIsFair(w: World, w': World, s: nat)
    requires s !in w.subs && s in w'.subs && w'.subs == w.subs[s := w'.subs[s]] && w'.subs[s].calls == []
    requires Stored(w') == Stored(w) + {s}
    ensures StepIsFair(w, w')
  {
  }

  lemma SubscribeIsFair(w: World, room: ChatRoom, a: Address, answer: DialogState)
    requires Inv(w)
    ensures StepIsFair(w, Subscribe(w, room, a, answer))
  {
    hide Inv, SubscribeOwn, SubscribeExternal, Subscribed, StepIsFair;
    if Subscribed(w, room, a) {
      NoStepIsFair(w);
    } else if IsLocal(w, a) {
      OwnSubscribeIsFair(w, room, a);
    } else {
      ExternalSubscribeIsFair(w, room, a, answer);
    }
  }

  lemma NoStepIsFair(w: World)
    ensures StepIsFair(w, w)
  {
  }

  lemma UnsubscribeIsFair(w: World, room: ChatRoom, a: Address)
    requires Inv(w)
    ensures StepIsFair(w, Unsubscribe(w, room, a))
  {
    UnsubscribeRemovesThePair(w, room, a);
    if i :| 0 <= i < |w.store| && Matches(w, i, room, SubscriptionKey(a)) {
      EvictedStore(w, i);
      ErasedValues(w.store, w.subs, i);
      hide Inv, Evict, OnlyStopped, Unsubscribe, Values, StepIsFair;
      StoppingIsFair(w, Evict(w, i));
    } else {
      hide Inv, Unsubscribe, StepIsFair;
      NoStepIsFair(w);
    }
  }

  /** Every step is fair: every call on a room is made by a subscription that is stored, started and not stopped, before
      the step (unless it is the one being created) and after it. */
  lemma EveryStepIsFair(w: World, op: Op)
    requires Reachable(w)
    ensures Inv(w) && StepIsFair(w, Step(w, op))
  {
    ReachableIsOk(w);
    FairSteps(w, op);
  }

  lemma FairSteps(w: World, op: Op)
    requires Inv(w)
    ensures StepIsFair(w, Step(w, op))
  {
    match op
    case SubscribeTo(room, a, answer) => hide Inv, StepIsFair; SubscribeIsFair(w, room, a, answer);
    case UnsubscribeFrom(room, a) => hide Inv, StepIsFair; UnsubscribeIsFair(w, room, a);
    case UnsubscribeFromAll =>
      UnsubscribeAllKeepsInv(w);
      NoValues([]);
      hide Inv, StepIsFair, OnlyStopped;
      StoppingIsFair(w, UnsubscribeAll(w));
    case NotifyOn(e, body) =>
      hide Inv, StepIsFair;
      NoStepIsFair(w);
      if e in w.events { NotifyKeepsInv(w, e, body); NotifyIsFair(w, e, body); }
    case StateOf(e, state) =>
      hide Inv, StepIsFair;
      NoStepIsFair(w);
      if e in w.events { StateChangeIsFair(w, e, state); }
    case FetchCompletes(s, found) => hide Inv, StepIsFair; FetchIsFair(w, s, found);
    case FetchFails(s) => hide Inv; NoStepIsFair(w);
    case ContactRegisters(s, record, uid) => hide Inv, StepIsFair; ContactIsFair(w, s, record, uid);
  }

  /** A subscription that has left the store never speaks to its room again and never comes back, whatever happens: not
      when a fetch it started completes, not when its pair is subscribed to again. */
  lemma LeavingIsFinal(w: World, s: nat, ops: seq<Op>)
    requires Reachable(w) && s in w.subs && s !in Stored(w)
    ensures Inv(w)
    ensures var w' := Run(w, ops); s in w'.subs && w'.subs[s].calls == w.subs[s].calls && s !in Stored(w')
  {
    ReachableIsOk(w);
    GoneStaysGone(w, s, ops);
  }

  lemma {:induction false} GoneStaysGone(w: World, s: nat, ops: seq<Op>)
    requires Inv(w) && s in w.subs && s !in Stored(w)
    ensures var w' := Run(w, ops); s in w'.subs && w'.subs[s].calls == w.subs[s].calls && s !in Stored(w')
    decreases |ops|
  {
    hide Inv, Step, Stored;
    if ops != [] {
      StepKeepsInv(w, ops[0]);
      FairSteps(w, ops[0]);
      FairToTheGone(w, Step(w, ops[0]), s);
      GoneStaysGone(Step(w, ops[0]), s, ops[1..]);
    }
  }

  lemma FairToTheGone(w: World, w': World, s: nat)
    requires StepIsFair(w, w') && s in w.subs && s !in Stored(w)
    ensures s in w'.subs && w'.subs[s].calls == w.subs[s].calls && s !in Stored(w')
  {
  }

  /** Nothing is left of `w` in `w'`: no subscription, no live client, a factory that is unused and does not listen,
      every dialog ever opened terminated once and its data unset, nobody listening to the registrar. Rooms were told
      nothing. */
  ghost predicate Quiet(w: World, w': World) {
    w'.store == [] && w'.clients == map[] && w'.useCount == 0 && !w'.attached && w'.listeners == {} &&
    w'.events.Keys == w.events.Keys && (forall e | e in w'.events :: w'.events[e] == Dialog(None, 1)) &&
    w'.subs.Keys == w.subs.Keys && forall s | s in w.subs :: w'.subs[s] == w.subs[s].(active := false)
  }

  /** From any reachable state, unsubscribing everything leaves nothing. */
  lemma UnsubscribeAllLeavesNothing(w: World)
    requires Reachable(w)
    ensures Inv(w) && Quiet(w, UnsubscribeAll(w))
  {
    hide Inv, Reachable, UnsubscribeAll, Quiet;
    ReachableIsOk(w);
    TearingDownIsQuiet(w);
  }

  lemma TearingDownIsQuiet(w: World)
    requires Inv(w)
    ensures Quiet(w, UnsubscribeAll(w))
  {
    hide Inv, OnlyStopped, UnsubscribeAll, Quiet;
    UnsubscribeAllKeepsInv(w);
    NobodyIsStored(w, UnsubscribeAll(w));
  }

  lemma NobodyIsStored(w: World, w': World)
    requires Inv(w') && w'.store == [] && OnlyStopped(w, w')
    ensures Quiet(w, w')
  {
  }

  // ---- Leaving ----

  /** Unsubscribing a pair changes nothing for anybody else: other subscriptions, other clients, and the client it
      leaves to other holders stay as they were. A dialog is terminated exactly when the one who leaves was the last
      holder of a client that has one; then it is that dialog, and no other. */
  lemma LeavingDisturbsNobody(w: World, room: ChatRoom, a: Address)
    requires Reachable(w)
    ensures Inv(w)
    ensures !Subscribed(w, room, a) ==> Unsubscribe(w, room, a) == w
    ensures forall i | 0 <= i < |w.store| && Matches(w, i, room, SubscriptionKey(a)) ::
              Left(w, Unsubscribe(w, room, a), i)
  {
    ReachableIsOk(w);
    UnsubscribeRemovesThePair(w, room, a);
    forall i | 0 <= i < |w.store| && Matches(w, i, room, SubscriptionKey(a))
      ensures Left(w, Unsubscribe(w, room, a), i) {
      hide Inv, CoreInv, Left, Unsubscribe, Evict;
      EvictionDisturbsNobody(w, i);
    }
  }

  /** What the leaving of the entry at position `i` does, and all it does. */
  ghost predicate Left(w: World, w': World, i: nat) {
    i < |w.store| && w.store[i].value in w.subs &&
    var s := w.store[i].value;
    w'.store == w.store[..i] + w.store[i + 1..] && w'.subs == w.subs[s := w.subs[s].(active := false)] &&
    w'.cache == w.cache && w'.fetches == w.fetches && w'.listeners == w.listeners - {s} &&
    match w.subs[s].kind
    case Own => w'.clients == w.clients && w'.events == w.events
    case External(c) =>
      c in w.clients &&
      var st := w.clients[c];
      if st.observers == {s} then
        w'.clients == w.clients - {c} &&
        w'.events == (if st.dialog.Some? then w.events[st.dialog.value := Dialog(None, 1)] else w.events)
      else
        w'.events == w.events &&
        w'.clients == w.clients[c := st.(observers := st.observers - {s}, strong := |st.observers - {s}|)]
  }

  lemma EvictionDisturbsNobody(w: World, i: nat)
    requires Inv(w) && i < |w.store| && Droppable(w, w.store[i].value)
    ensures Left(w, Evict(w, i), i)
  {
    var s := w.store[i].value;
    StoredFacts(w, s);
    if w.subs[s].kind.External? {
      EvictIsExternalLeft(w, i);
      hide Inv, CoreInv, Evict, Left, ExternalLeft;
      LastObserver(w.clients[w.subs[s].kind.client].observers, s);
      ExternalLeftIsLeft(w, i);
    } else {
      hide Inv, CoreInv, Evict, Left;
      OwnLeftIsLeft(w, i);
    }
  }

  lemma OwnLeftIsLeft(w: World, i: nat)
    requires i < |w.store| && Droppable(w, w.store[i].value) && w.subs[w.store[i].value].kind.Own?
    requires w.subs[w.store[i].value].active <==> w.store[i].value in w.listeners
    ensures Left(w, Evict(w, i), i)
  {
  }

  lemma StoredFacts(w: World, s: nat)
    requires Inv(w) && s in Stored(w)
    ensures s in w.subs && (w.subs[s].active <==> s in w.listeners) && (w.subs[s].kind.External? ==> !w.subs[s].active)
    ensures w.subs[s].kind.External? ==>
              var c := w.subs[s].kind.client;
              c in w.clients && s in w.clients[c].observers && w.clients[c].strong == |w.clients[c].observers|
  {
  }

  lemma LastObserver(xs: set<nat>, s: nat)
    requires s in xs
    ensures |xs| == 1 <==> xs == {s}
  {
    if |xs| == 1 {
      forall x | x in xs ensures x == s {
        Singleton(xs, x, s);
      }
    }
  }

  lemma ExternalLeftIsLeft(w: World, i: nat)
    requires i < |w.store| && Droppable(w, w.store[i].value) && w.subs[w.store[i].value].kind.External?
    requires var s := w.store[i].value;
             var st := w.clients[w.subs[s].kind.client];
             !w.subs[s].active && s !in w.listeners && s in st.observers && st.strong == |st.observers| &&
               (st.strong == 1 <==> st.observers == {s})
    ensures Left(w, ExternalLeft(w, i), i)
  {
  }

  /** Unsetting an event's data before terminating it is what makes the synchronous callback harmless: in the other
      order the callback would reach the client, which would terminate the event a second time. */
  lemma TerminatingFirstWouldTerminateTwice(w: World, c: nat)
    requires Reachable(w) && c in w.clients && w.clients[c].dialog.Some?
    ensures var e := w.clients[c].dialog.value;
            Dispatchable(w, e) &&
            Terminate(SetData(w, e, None), e).events[e] == Dialog(None, 1) &&
            Terminate(w, e).events[e].terminated == 2 && Terminate(w, e).clients[c].dialog.None?
  {
    ReachableIsOk(w);
    OpenDialogFacts(w, c);
    var e := w.clients[c].dialog.value;
    hide Inv, Reachable, Terminate, SetData;
    BothOrders(w, c, e);
  }

  lemma BothOrders(w: World, c: nat, e: nat)
    requires w.attached && c in w.clients && w.clients[c].dialog == Some(e)
    requires e in w.events && w.events[e] == Dialog(Some(c), 0)
    ensures Terminate(SetData(w, e, None), e).events[e] == Dialog(None, 1)
    ensures Terminate(w, e).events[e].terminated == 2 && Terminate(w, e).clients[c].dialog.None?
  {
    var w1 := w.(events := w.events[e := Dialog(Some(c), 1)]);
    assert Terminate(w, e) == StateChanged(w1, e, Ended) == ClientStateChanged(w1, c, Ended);
    var w2 := SetData(w1, e, None);
    assert Terminate(w2, e) == StateChanged(w2.(events := w2.events[e := Dialog(None, 2)]), e, Ended);
    var w3 := SetData(w, e, None);
    assert Terminate(w3, e) == StateChanged(w3.(events := w3.events[e := Dialog(None, 1)]), e, Ended);
  }

  lemma OpenDialogFacts(w: World, c: nat)
    requires Inv(w) && c in w.clients && w.clients[c].dialog.Some?
    ensures w.attached && w.clients[c].dialog.value in w.events &&
            w.events[w.clients[c].dialog.value] == Dialog(Some(c), 0)
  {
    hide StoreOk, CountsOk, AliveOk, HoldersOk, ObserversOk, RegistrarOk, CacheOk, SubsOk, SharedOk, IdsOk;
    if |w.clients.Keys| == 0 {
      assert false;
    }
  }
}
