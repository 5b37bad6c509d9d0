/** What rooms were told last, compared with what the client they share knows. */
module Views {
  import opened Text
  import opened Capabilities
  import opened Reginfo
  import opened Multimap
  import opened World
  import opened Invariants
  import opened Lifecycle
  import opened Runs
  import opened Deliveries

  /** The last device list among some calls on a room. */
  function LastSet(calls: seq<RoomCall>): Option<seq<Device>> {
    if calls == [] then None else
      match calls[|calls| - 1]
      case SetParticipantDevices(devices) => Some(devices)
      case NotifyDeviceRegistration(_) => LastSet(calls[..|calls| - 1])
  }

  /** The device list a subscription told its room last, since its client's current dialog was opened. */
  function View(sub: Sub): Option<seq<Device>> {
    if sub.mark <= |sub.calls| then LastSet(sub.calls[sub.mark..]) else None
  }

  function Accepted(sub: Sub, devices: seq<Device>): seq<Device> {
    Compatible(sub.check, sub.room.capabilities, devices)
  }

  /** Every room that was told a list in the current dialog was last told the client's list, as far as it accepts it. */
  ghost predicate Agrees(w: World) {
    forall c, s | c in w.clients && w.clients[c].dialog.Some? && s in w.clients[c].observers && s in w.subs ::
      View(w.subs[s]).Some? ==> View(w.subs[s]).value == Accepted(w.subs[s], w.clients[c].devices)
  }

  /** What a subscription will have told its room agrees with its client after a document: the document is faithful to
      the room, or the room knows nothing yet and the document is mute. */
  predicate FaithfulTo(sub: Sub, doc: Document, aor: string, cache: seq<Device>) {
    Faithful(sub.check, sub.room.capabilities, doc, aor, cache) || (View(sub).None? && Mute(doc, aor))
  }

  /** A document that reaches a client is faithful to every room that follows it. */
  ghost predicate FaithfulStep(w: World, op: Op) {
    op.NotifyOn? && op.event in w.events && w.events[op.event].data.Some? && op.body.Parsed? &&
    w.events[op.event].data.value in w.clients ==>
      FaithfulToAll(w, w.events[op.event].data.value, op.body.document)
  }

  ghost predicate FaithfulToAll(w: World, c: nat, doc: Document)
    requires c in w.clients
  {
    forall s | s in w.clients[c].observers && s in w.subs ::
      FaithfulTo(w.subs[s], doc, w.clients[c].to.uri, w.clients[c].devices)
  }

  ghost predicate FaithfulRun(w: World, ops: seq<Op>)
    requires Inv(w)
    decreases |ops|
  {
    ops == [] ||
    (StepKeepsInv(w, ops[0]); FaithfulStep(w, ops[0]) && FaithfulRun(Step(w, ops[0]), ops[1..]))
  }

  /** Rooms agree in every state of a run. */
  ghost predicate AgreesThroughout(w: World, ops: seq<Op>)
    requires Inv(w)
    decreases |ops|
  {
    Agrees(w) &&
    (ops == [] || (StepKeepsInv(w, ops[0]); AgreesThroughout(Step(w, ops[0]), ops[1..])))
  }

  // ---- Messages and views ----

  lemma {:induction false} LastSetSplits(xs: seq<RoomCall>, ys: seq<RoomCall>)
    ensures LastSet(xs + ys) == if LastSet(ys).Some? then LastSet(ys) else LastSet(xs)
    decreases |ys|
  {
    if ys == [] {
      assert xs + ys == xs;
    } else {
      var init := ys[..|ys| - 1];
      assert (xs + ys)[..|xs + ys| - 1] == xs + init;
      LastSetSplits(xs, init);
    }
  }

  lemma {:induction false} TranslatedView(sub: Sub, ms: seq<Message>)
    ensures LastSet(Translate(sub, ms)) ==
            match LastSnapshot(ms, None) case Some(devices) => Some(Accepted(sub, devices)) case None => None
  {
    if ms != [] {
      var init, last := ms[..|ms| - 1], ms[|ms| - 1];
      TranslatedView(sub, init);
      LastSetSplits(Translate(sub, init), CallsFor(sub, last));
      assert CallsFor(sub, last)[..0] == [];
    }
  }

  lemma {:induction false} ViewOrNone(ms: seq<Message>, view: seq<Device>)
    ensures LastSnapshot(ms, Some(view)) ==
            if LastSnapshot(ms, None).Some? then LastSnapshot(ms, None) else Some(view)
  {
    if ms != [] {
      ViewOrNone(ms[..|ms| - 1], view);
    }
  }

  /** What hearing messages does to a view. */
  lemma HearingChangesView(sub: Sub, ms: seq<Message>)
    requires sub.mark <= |sub.calls|
    ensures View(Hear(sub, ms)) ==
            match LastSnapshot(ms, None) case Some(devices) => Some(Accepted(sub, devices)) case None => View(sub)
  {
    TranslatedView(sub, ms);
    LastSetSplits(sub.calls[sub.mark..], Translate(sub, ms));
    assert Hear(sub, ms).calls[sub.mark..] == sub.calls[sub.mark..] + Translate(sub, ms);
  }

  /** An agreeing view agrees after a document exactly if the document is faithful to the subscription's room. */
  lemma ViewAfterDocument(sub: Sub, doc: Document, aor: string, cache: seq<Device>)
    requires sub.mark <= |sub.calls|
    requires View(sub).Some? ==> View(sub).value == Accepted(sub, cache)
    ensures var view := View(Hear(sub, Messages(doc, aor)));
            (view.Some? ==> view.value == Accepted(sub, CacheAfter(doc, aor, cache)))
            <==> FaithfulTo(sub, doc, aor, cache)
  {
    hide Messages, CacheAfter, Mute, View, Hear, Faithful, Compatible, LastSnapshot;
    var ms := Messages(doc, aor);
    HearingChangesView(sub, ms);
    ViewOrNone(ms, cache);
    ViewAgreesExactlyWhenFaithful(sub.check, sub.room.capabilities, doc, aor, cache);
  }

  // ---- Agreement, step by step ----

  /** A client and its observers before a step account for a client after it. */
  ghost predicate StillAgrees(w: World, w': World, c: nat, s: nat)
    requires c in w'.clients && s in w'.subs
  {
    View(w'.subs[s]).Some? ==>
      View(w'.subs[s]).value == Accepted(w'.subs[s], w'.clients[c].devices) ||
      (c in w.clients && w.clients[c].dialog.Some? && s in w.clients[c].observers && s in w.subs &&
       w'.clients[c].devices == w.clients[c].devices && w'.subs[s] == w.subs[s].(active := w'.subs[s].active))
  }

  lemma AgreementFollows(w: World, w': World)
    requires Agrees(w)
    requires forall c, s | c in w'.clients && w'.clients[c].dialog.Some? && s in w'.clients[c].observers &&
             s in w'.subs ::
               StillAgrees(w, w', c, s)
    ensures Agrees(w')
  {
  }

  /** Observers of different clients are different subscriptions. */
  ghost predicate Separate(w: World) {
    forall c, s | c in w.clients && s in w.clients[c].observers ::
      s in w.subs && w.subs[s].kind == External(c) && w.subs[s].mark <= |w.subs[s].calls|
  }

  lemma ObserversAreSeparate(w: World)
    requires Inv(w)
    ensures Separate(w)
  {
  }

  lemma HearingKeepsAcceptance(sub: Sub, ms: seq<Message>, devices: seq<Device>)
    ensures Accepted(Hear(sub, ms), devices) == Accepted(sub, devices)
  {
  }

  /** Rooms that agree before a document agree after it exactly if it is faithful to all who follow the client. */
  lemma NotifyAgreesExactlyWhenFaithful(w: World, c: nat, doc: Document)
    requires Separate(w) && Agrees(w) && c in w.clients && w.clients[c].dialog.Some?
    ensures Agrees(ClientNotify(w, c, doc)) <==> FaithfulToAll(w, c, doc)
  {
    hide Messages, CacheAfter, Hear, View, Accepted, FaithfulTo;
    var st, w' := w.clients[c], ClientNotify(w, c, doc);
    forall s | s in st.observers && s in w.subs
      ensures FaithfulTo(w.subs[s], doc, st.to.uri, st.devices) <==>
              (View(w'.subs[s]).Some? ==> View(w'.subs[s]).value == Accepted(w'.subs[s], w'.clients[c].devices))
    {
      ViewAfterDocument(w.subs[s], doc, st.to.uri, st.devices);
      HearingKeepsAcceptance(w.subs[s], Messages(doc, st.to.uri), CacheAfter(doc, st.to.uri, st.devices));
    }
    if FaithfulToAll(w, c, doc) {
      forall d, s | d in w'.clients && w'.clients[d].dialog.Some? && s in w'.clients[d].observers && s in w'.subs
        ensures StillAgrees(w, w', d, s)
      {
      }
      AgreementFollows(w, w');
    }
  }

  lemma NotifyStepAgrees(w: World, e: nat, body: Body)
    requires Inv(w) && Agrees(w) && e in w.events
    ensures Dispatchable(w, e) && (Agrees(NotifyReceived(w, e, body)) <==> FaithfulStep(w, NotifyOn(e, body)))
  {
    hide Agrees, Separate, ClientNotify, FaithfulToAll, StoreOk, CountsOk, AliveOk, HoldersOk, ObserversOk, CacheOk,
         RegistrarOk, SubsOk, SharedOk, IdsOk;
    NotifyKeepsInv(w, e, body);
    ObserversAreSeparate(w);
    if w.events[e].data.Some? && body.Parsed? {
      OpenDialogFacts(w, w.events[e].data.value);
      NotifyAgreesExactlyWhenFaithful(w, w.events[e].data.value, body.document);
    }
  }

  lemma DialogEndedAgrees(w: World, c: nat)
    requires Agrees(w) && HasDialog(w, c)
    ensures Agrees(DialogEnded(w, c))
  {
  }

  lemma StateChangeAgrees(w: World, e: nat, state: DialogState)
    requires Inv(w) && Agrees(w) && e in w.events
    ensures Dispatchable(w, e) && Agrees(StateChanged(w, e, state))
  {
    hide Agrees, StoreOk, CountsOk, AliveOk, HoldersOk, ObserversOk, DialogsOk, UseOk, CacheOk, RegistrarOk, SubsOk,
         SharedOk, IdsOk;
    StateChangedKeepsInv(w, e, state);
    if w.attached && w.events[e].data.Some? && Final(state) {
      var c := w.events[e].data.value;
      FinalStateEndsDialog(w, c, state);
      hide Inv, Agrees, DialogEnded;
      DialogEndedAgrees(w, c);
    }
  }

  lemma OpenDialogAgrees(w: World, c: nat)
    requires Separate(w) && Agrees(w) && c in w.clients
    ensures Agrees(OpenDialog(w, c))
  {
  }

  lemma ReplayAgrees(w: World, c: nat, s: nat)
    requires Separate(w) && Agrees(w) && c in w.clients && s in w.clients[c].observers
    ensures Agrees(Deliver(w, {s}, [Snapshot(w.clients[c].devices)]))
  {
  }

  lemma ClientSubscribeAgrees(w: World, c: nat, s: nat, answer: DialogState)
    requires Inv(w) && Agrees(w) && c in w.clients && s in w.clients[c].observers
    ensures Agrees(ClientSubscribe(w, c, s, answer))
  {
    ObserversAreSeparate(w);
    if w.clients[c].dialog.Some? {
      hide Inv, Agrees, Separate, Deliver;
      ReplayAgrees(w, c, s);
    } else {
      OpenDialogKeepsInv(w, c);
      assert w.next in OpenDialog(w, c).events;
      hide Inv, OpenDialog, Agrees, Separate;
      OpenDialogAgrees(w, c);
      StateChangeAgrees(OpenDialog(w, c), w.next, answer);
    }
  }

  lemma WithClientAgrees(w: World, a: Address)
    requires Agrees(w) && w.next !in w.clients
    ensures Agrees(WithClient(w, a))
  {
  }

  /** The newcomer has been told nothing yet. */
  lemma JoinedAgrees(w: World, c: nat, room: ChatRoom, a: Address)
    requires Separate(w) && Agrees(w) && c in w.clients && w.next !in w.subs
    ensures Agrees(Joined(w, c, room, a))
  {
    var w' := Joined(w, c, room, a);
    assert View(w'.subs[w.next]).None?;
    hide Insert, View, Accepted;
    forall d, s | d in w'.clients && w'.clients[d].dialog.Some? && s in w'.clients[d].observers && s in w'.subs
      ensures StillAgrees(w, w', d, s)
    {
      if s != w.next {
        assert s in w.clients[d].observers;
      }
    }
    AgreementFollows(w, w');
  }

  lemma WithClientIsSeparate(w: World, a: Address)
    requires Separate(w)
    ensures Separate(WithClient(w, a))
  {
  }

  lemma FreshIds(w: World, a: Address)
    requires Inv(w)
    ensures w.next !in w.clients && WithClient(w, a).next !in w.subs
  {
  }

  lemma JoinAgrees(w: World, room: ChatRoom, a: Address)
    requires Inv(w) && Agrees(w)
    ensures Agrees(JoinExternal(w, room, a))
  {
    ObserversAreSeparate(w);
    FreshIds(w, a);
    JoinIsJoined(w, room, a);
    WithClientFrame(w, a);
    hide Inv, JoinExternal, WithClient, Joined, Agrees, Separate;
    WithClientAgrees(w, a);
    WithClientIsSeparate(w, a);
    JoinedAgrees(WithClient(w, a), ClientFor(w, a), room, a);
  }

  lemma OwnAgrees(w: World, room: ChatRoom, a: Address)
    requires Separate(w) && Agrees(w) && w.next !in w.subs
    ensures Agrees(SubscribeOwn(w, room, a))
  {
  }

  lemma SubscribeAgrees(w: World, room: ChatRoom, a: Address, answer: DialogState)
    requires Inv(w) && Agrees(w)
    ensures Agrees(Subscribe(w, room, a, answer))
  {
    if Subscribed(w, room, a) {
    } else if IsLocal(w, a) {
      assert w.next !in w.subs;
      ObserversAreSeparate(w);
      hide Inv, SubscribeOwn, Agrees, Separate;
      OwnAgrees(w, room, a);
    } else {
      hide Inv, JoinExternal, AcquireClient, Agrees, Subscribed;
      JoinExternalKeepsInv(w, room, a);
      JoinAgrees(w, room, a);
      JoinAdds(w, room, a);
      ClientSubscribeAgrees(JoinExternal(w, room, a), AcquireClient(w, a).1, AcquireClient(w, a).0.next, answer);
    }
  }

  lemma LeftAgrees(w: World, w': World, i: nat)
    requires Agrees(w) && Left(w, w', i)
    ensures Agrees(w')
  {
  }

  lemma UnsubscribeAgrees(w: World, room: ChatRoom, a: Address)
    requires Inv(w) && Agrees(w)
    ensures Agrees(Unsubscribe(w, room, a))
  {
    hide Inv, CoreInv, Agrees, Unsubscribe, Evict, Left;
    UnsubscribeRemovesThePair(w, room, a);
    if i :| 0 <= i < |w.store| && Matches(w, i, room, SubscriptionKey(a)) {
      EvictionDisturbsNobody(w, i);
      LeftAgrees(w, Evict(w, i), i);
    }
  }

  lemma UnsubscribeAllAgrees(w: World)
    requires Inv(w)
    ensures Agrees(UnsubscribeAll(w))
  {
    hide Inv, UnsubscribeAll;
    TearingDownIsQuiet(w);
  }

  /** The registrar only tells own subscriptions, which observe nobody. */
  lemma RegistrarAgrees(w: World, w': World)
    requires Separate(w) && Agrees(w) && w'.clients == w.clients && SameButCalls(w.subs, w'.subs)
    requires forall s | s in w.subs && w'.subs[s] != w.subs[s] :: w.subs[s].kind.Own?
    ensures Agrees(w')
  {
  }

  lemma OnlyOwnAreTold(w: World, s: nat, found: Option<Record>, record: Record, uid: string)
    requires RegistrarOk(w.subs, Stored(w), w.listeners, w.fetches)
    ensures forall t | t in w.subs && FetchDone(w, s, found).subs[t] != w.subs[t] :: w.subs[t].kind.Own?
    ensures forall t | t in w.subs && ContactRegistered(w, s, record, uid).subs[t] != w.subs[t] :: w.subs[t].kind.Own?
  {
  }

  lemma FetchAgrees(w: World, s: nat, found: Option<Record>)
    requires Inv(w) && Agrees(w)
    ensures Agrees(FetchDone(w, s, found))
  {
    hide Agrees, Separate, SameButCalls, HearRecord, CoreInv, StoreOk, ObserversOk, RegistrarOk;
    RegistrarStepFacts(w);
    FetchChangesCalls(w, s, found);
    OnlyOwnAreTold(w, s, found, [], "");
    RegistrarAgrees(w, FetchDone(w, s, found));
  }

  lemma ContactAgrees(w: World, s: nat, record: Record, uid: string)
    requires Inv(w) && Agrees(w)
    ensures Agrees(ContactRegistered(w, s, record, uid))
  {
    hide Agrees, Separate, SameButCalls, HearRegistration, CoreInv, StoreOk, ObserversOk, RegistrarOk;
    RegistrarStepFacts(w);
    ContactRegisteredChangesCalls(w, s, record, uid);
    OnlyOwnAreTold(w, s, None, record, uid);
    RegistrarAgrees(w, ContactRegistered(w, s, record, uid));
  }

  lemma RegistrarStepFacts(w: World)
    requires Inv(w)
    ensures Separate(w) && SubsOk(w.config, w.subs)
  {
    hide Separate, StoreOk, CountsOk, AliveOk, HoldersOk, ObserversOk, DialogsOk, UseOk, CacheOk, RegistrarOk, SubsOk,
         SharedOk, IdsOk;
    ObserversAreSeparate(w);
  }

  lemma StepAgrees(w: World, op: Op)
    requires Inv(w) && Agrees(w)
    ensures Agrees(Step(w, op)) <==> FaithfulStep(w, op)
  {
    hide Inv;
    match op
    case SubscribeTo(room, a, answer) => hide Agrees; SubscribeAgrees(w, room, a, answer);
    case UnsubscribeFrom(room, a) => hide Agrees; UnsubscribeAgrees(w, room, a);
    case UnsubscribeFromAll => hide Agrees; UnsubscribeAllAgrees(w);
    case NotifyOn(e, body) => hide Agrees; if e in w.events { NotifyStepAgrees(w, e, body); }
    case StateOf(e, state) => hide Agrees; if e in w.events { StateChangeAgrees(w, e, state); }
    case FetchCompletes(s, found) => hide Agrees; FetchAgrees(w, s, found);
    case FetchFails(s) => hide View, Accepted;
    case ContactRegisters(s, record, uid) => hide Agrees; ContactAgrees(w, s, record, uid);
  }

  /** From agreement, a step leads to agreement exactly if it is faithful; only a document can fail to be. */
  lemma StepAgreesExactlyWhenFaithful(w: World, op: Op)
    requires Reachable(w) && Agrees(w)
    ensures Inv(w) && (Agrees(Step(w, op)) <==> FaithfulStep(w, op))
  {
    hide Inv, Agrees, Step, FaithfulStep;
    ReachableIsOk(w);
    StepAgrees(w, op);
  }

  ghost predicate FaithfulFromStart(config: Config, ops: seq<Op>) {
    StartIsOk(config);
    FaithfulRun(Start(config), ops)
  }

  ghost predicate AgreesFromStart(config: Config, ops: seq<Op>) {
    StartIsOk(config);
    AgreesThroughout(Start(config), ops)
  }

  /** In every state of a run, every room that was told a list since its client's current dialog was opened, live or by
      replay, was last told what the client knows, as far as it accepts it: this holds of exactly the runs in which
      every document is faithful to all who follow the client it reaches. */
  lemma ViewsAgreeOverExactlyTheFaithfulRuns(config: Config, ops: seq<Op>)
    ensures AgreesFromStart(config, ops) <==> FaithfulFromStart(config, ops)
  {
    StartIsOk(config);
    hide Inv, FaithfulRun, AgreesThroughout, View, Accepted;
    AgreementOverRun(Start(config), ops);
  }

  lemma {:induction false} AgreementOverRun(w: World, ops: seq<Op>)
    requires Inv(w) && Agrees(w)
    ensures AgreesThroughout(w, ops) <==> FaithfulRun(w, ops)
    ensures FaithfulRun(w, ops) ==> Agrees(Run(w, ops))
    decreases |ops|
  {
    hide Inv, Agrees, Step, FaithfulStep;
    if ops != [] {
      StepKeepsInv(w, ops[0]);
      StepAgrees(w, ops[0]);
      if Agrees(Step(w, ops[0])) {
        AgreementOverRun(Step(w, ops[0]), ops[1..]);
      }
    }
  }

  /** Documents in which wholly refreshed registrations only repeat what the client knows are faithful to everybody. */
  lemma RedundantDocumentsAreFaithful(w: World, c: nat, doc: Document)
    requires c in w.clients && Redundant(Processed(doc, w.clients[c].to.uri), w.clients[c].devices)
    ensures FaithfulToAll(w, c, doc)
  {
    hide Redundant, Faithful, View;
    forall s | s in w.clients[c].observers && s in w.subs
      ensures FaithfulTo(w.subs[s], doc, w.clients[c].to.uri, w.clients[c].devices)
    {
      RedundantIsFaithful(w.subs[s].check, w.subs[s].room.capabilities, doc, w.clients[c].to.uri, w.clients[c].devices);
    }
  }

  lemma AgreementReachesTheEnd(config: Config, ops: seq<Op>)
    requires AgreesFromStart(config, ops)
    ensures Inv(Start(config)) && Agrees(Run(Start(config), ops))
  {
    StartIsOk(config);
    assert Agrees(Start(config));
    hide Inv, FaithfulRun, AgreesThroughout, View, Accepted;
    AgreementOverRun(Start(config), ops);
  }

  /** A run in which senders keep to it: the documents that reach a client have wholly refreshed registrations only
      where they repeat what the client lists then. */
  ghost predicate RedundantRun(w: World, ops: seq<Op>)
    requires Inv(w)
    decreases |ops|
  {
    ops == [] ||
    (StepKeepsInv(w, ops[0]); RedundantStep(w, ops[0]) && RedundantRun(Step(w, ops[0]), ops[1..]))
  }

  ghost predicate RedundantStep(w: World, op: Op) {
    op.NotifyOn? && op.event in w.events && w.events[op.event].data.Some? && op.body.Parsed? &&
    w.events[op.event].data.value in w.clients ==>
      var st := w.clients[w.events[op.event].data.value];
      Redundant(Processed(op.body.document, st.to.uri), st.devices)
  }

  ghost predicate RedundantFromStart(config: Config, ops: seq<Op>) {
    StartIsOk(config);
    RedundantRun(Start(config), ops)
  }

  /** If all senders keep to it, rooms agree throughout. */
  lemma ViewsAgreeOverRedundantRuns(config: Config, ops: seq<Op>)
    requires RedundantFromStart(config, ops)
    ensures AgreesFromStart(config, ops)
  {
    StartIsOk(config);
    hide Inv, RedundantRun, FaithfulRun, AgreesFromStart;
    RedundantRunIsFaithful(Start(config), ops);
    ViewsAgreeOverExactlyTheFaithfulRuns(config, ops);
  }

  lemma {:induction false} RedundantRunIsFaithful(w: World, ops: seq<Op>)
    requires Inv(w) && RedundantRun(w, ops)
    ensures FaithfulRun(w, ops)
    decreases |ops|
  {
    hide Inv, Step, Redundant, FaithfulToAll;
    if ops != [] {
      StepKeepsInv(w, ops[0]);
      RedundantRunIsFaithful(Step(w, ops[0]), ops[1..]);
      if ops[0].NotifyOn? && ops[0].event in w.events && w.events[ops[0].event].data.Some? && ops[0].body.Parsed? &&
         w.events[ops[0].event].data.value in w.clients {
        RedundantDocumentsAreFaithful(w, w.events[ops[0].event].data.value, ops[0].body.document);
      }
    }
  }

  // ---- Late joiners ----

  /** Two stored subscriptions to one URI share one client. */
  lemma SameUriSameClient(w: World, s: nat, t: nat)
    requires Inv(w) && s in Stored(w) && t in Stored(w) && s in w.subs && t in w.subs
    requires w.subs[s].kind.External? && w.subs[t].kind.External?
    requires w.subs[s].participant.ordered == w.subs[t].participant.ordered
    ensures w.subs[s].kind == w.subs[t].kind && w.subs[s].kind.client in w.clients
    ensures s in w.clients[w.subs[s].kind.client].observers && t in w.clients[w.subs[s].kind.client].observers
    ensures w.subs[s].check == w.subs[t].check
  {
  }

  ghost predicate ReachesFaithfully(config: Config, ops: seq<Op>, w: World) {
    Reaches(config, ops, w) && FaithfulFromStart(config, ops)
  }

  ghost predicate FaithfullyReachable(w: World) {
    exists config, ops :: ReachesFaithfully(config, ops, w)
  }

  lemma FaithfullyReachableAgrees(w: World)
    requires FaithfullyReachable(w)
    ensures Inv(w) && Agrees(w)
  {
    hide Inv, Run, FaithfulRun, View, Accepted;
    var config, ops :| ReachesFaithfully(config, ops, w);
    StartIsOk(config);
    assert Agrees(Start(config));
    hide Agrees;
    RunKeepsInv(Start(config), ops);
    AgreementOverRun(Start(config), ops);
  }

  /** After any faithful run, whenever they joined: two rooms that follow one URI and have each been told a list in the
      current dialog were last told lists of which the room asking for more has a part of the other's, in the same
      order; with the same capabilities they were told the same list. */
  lemma LateJoinersSeeWhatEarlyJoinersSee(w: World, s: nat, t: nat)
    requires FaithfullyReachable(w) && Following(w, s) && Following(w, t)
    requires w.subs[s].participant.ordered == w.subs[t].participant.ordered
    ensures w.subs[s].room.capabilities == w.subs[t].room.capabilities ==> View(w.subs[s]) == View(w.subs[t])
    ensures w.subs[s].room.capabilities <= w.subs[t].room.capabilities ==>
              Subsequence(View(w.subs[t]).value, View(w.subs[s]).value)
  {
    hide FaithfullyReachable, Inv, Agrees;
    FaithfullyReachableAgrees(w);
    FollowersAgree(w, s, t);
  }

  /** Stored, external, its client in a dialog in which it has been told a list. */
  ghost predicate Following(w: World, s: nat) {
    s in Stored(w) && s in w.subs && w.subs[s].kind.External? && w.subs[s].kind.client in w.clients &&
    w.clients[w.subs[s].kind.client].dialog.Some? && View(w.subs[s]).Some?
  }

  lemma FollowersAgree(w: World, s: nat, t: nat)
    requires Inv(w) && Agrees(w) && Following(w, s) && Following(w, t)
    requires w.subs[s].participant.ordered == w.subs[t].participant.ordered
    ensures w.subs[s].room.capabilities == w.subs[t].room.capabilities ==> View(w.subs[s]) == View(w.subs[t])
    ensures w.subs[s].room.capabilities <= w.subs[t].room.capabilities ==>
              Subsequence(View(w.subs[t]).value, View(w.subs[s]).value)
  {
    SameUriSameClient(w, s, t);
    hide Inv, View;
    var devices := w.clients[w.subs[s].kind.client].devices;
    if w.subs[s].room.capabilities <= w.subs[t].room.capabilities {
      WiderMaskDropsDevices(w.subs[s].check, w.subs[s].room.capabilities, w.subs[t].room.capabilities, devices);
    }
  }
}
