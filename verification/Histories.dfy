/** What clients have been sent, read off a run, and the device lists they hold. */
module Histories {
  import opened Text
  import opened Reginfo
  import opened Multimap
  import opened World
  import opened Invariants
  import opened Lifecycle
  import opened Runs
  import opened Deliveries

  /** The documents dispatched to a client, given those before the step: none before it exists and none any more once
      its dialog is reported as ended; a NOTIFY adds its document if it parses and arrives on an event of the client. */
  ghost function NextLog(w: World, op: Op, c: nat, log: seq<Document>): seq<Document> {
    if c !in w.clients then [] else
      match op
      case NotifyOn(e, body) => if body.Parsed? && IsEventOf(w, e, c) then log + [body.document] else log
      case StateOf(e, state) => if (state == Ended || state == Failed) && IsEventOf(w, e, c) then [] else log
      case _ => log
  }

  ghost predicate IsEventOf(w: World, e: nat, c: nat) {
    e in w.events && w.events[e].data == Some(c)
  }

  ghost function LogFrom(w: World, ops: seq<Op>, c: nat, log: seq<Document>): seq<Document>
    requires Inv(w)
    decreases |ops|
  {
    if ops == [] then log else
      StepKeepsInv(w, ops[0]);
      LogFrom(Step(w, ops[0]), ops[1..], c, NextLog(w, ops[0], c, log))
  }

  /** The documents dispatched to a client in a run, since it was created or its last dialog was reported as ended. */
  ghost function Log(config: Config, ops: seq<Op>, c: nat): seq<Document> {
    StartIsOk(config);
    LogFrom(Start(config), ops, c, [])
  }

  /** A client lists what its log comes to; without a dialog it has been sent nothing. */
  ghost predicate Folds(clients: Clients, c: nat, log: seq<Document>) {
    c in clients ==>
      clients[c].devices == Fold(log, clients[c].to.uri) && (clients[c].dialog.None? ==> log == [])
  }

  lemma FoldGrows(log: seq<Document>, doc: Document, aor: string)
    ensures Fold(log + [doc], aor) == CacheAfter(doc, aor, Fold(log, aor))
  {
  }

  // ---- One step ----

  /** What a client lists, and whether it has a dialog, is as before; or it is new. */
  ghost predicate SameLists(clients: Clients, clients': Clients) {
    forall c | c in clients' ::
      if c in clients then
        clients'[c].to == clients[c].to && clients'[c].devices == clients[c].devices &&
        clients'[c].dialog == clients[c].dialog
      else clients'[c].devices == [] && clients'[c].dialog.None?
  }

  lemma SameListsFold(clients: Clients, clients': Clients, c: nat, log: seq<Document>)
    requires SameLists(clients, clients') && Folds(clients, c, log)
    ensures Folds(clients', c, if c in clients then log else [])
  {
  }

  lemma EventFacts(w: World, e: nat)
    requires Inv(w) && e in w.events && w.events[e].data.Some?
    ensures w.events[e].data.value in w.clients && w.clients[w.events[e].data.value].dialog == Some(e) && w.attached
    ensures Dispatchable(w, e)
  {
    hide StoreOk, CountsOk, AliveOk, HoldersOk, ObserversOk, RegistrarOk, CacheOk, SubsOk, SharedOk, IdsOk;
    OpenDialogFacts(w, w.events[e].data.value);
  }

  /** A NOTIFY on an event of a live client reaches it. */
  lemma NotifyFolds(w: World, e: nat, body: Body, c: nat, log: seq<Document>)
    requires Inv(w) && e in w.events && Folds(w.clients, c, log)
    ensures Dispatchable(w, e)
    ensures Folds(NotifyReceived(w, e, body).clients, c, NextLog(w, NotifyOn(e, body), c, log))
  {
    hide Inv, Folds, ClientNotify;
    NoClientNoList(w.clients, c, log);
    if w.events[e].data.Some? {
      EventFacts(w, e);
      if body.Parsed? {
        DocumentFolds(w, w.events[e].data.value, body.document, c, log);
      }
    }
  }

  lemma DocumentFolds(w: World, d: nat, doc: Document, c: nat, log: seq<Document>)
    requires d in w.clients && w.clients[d].dialog.Some? && Folds(w.clients, c, log)
    ensures Folds(ClientNotify(w, d, doc).clients, c,
                  if c == d then log + [doc] else if c in w.clients then log else [])
  {
    hide CacheAfter, Fold, Deliver, Messages;
    FoldGrows(log, doc, w.clients[d].to.uri);
  }

  /** A final state of an event of a live client ends its dialog; other states change nothing. */
  lemma StateChangeFolds(w: World, e: nat, state: DialogState, c: nat, log: seq<Document>)
    requires Inv(w) && e in w.events && Folds(w.clients, c, log)
    ensures Dispatchable(w, e)
    ensures Folds(StateChanged(w, e, state).clients, c, NextLog(w, StateOf(e, state), c, log))
  {
    hide CoreInv, StoreOk, ObserversOk, RegistrarOk, Folds, DialogEnded;
    NoClientNoList(w.clients, c, log);
    if w.events[e].data.Some? {
      EventFacts(w, e);
      if Final(state) {
        EndOfDialog(w, w.events[e].data.value, state);
        EndFolds(w, w.events[e].data.value, c, log);
      }
    }
  }

  lemma EndOfDialog(w: World, d: nat, state: DialogState)
    requires Inv(w) && HasDialog(w, d) && Final(state)
    ensures ClientStateChanged(w, d, state) == DialogEnded(w, d)
  {
    hide StoreOk, CountsOk, AliveOk, HoldersOk, ObserversOk, DialogsOk, UseOk, RegistrarOk, CacheOk, SubsOk, SharedOk,
         IdsOk;
    FinalStateEndsDialog(w, d, state);
  }

  lemma EndFolds(w: World, d: nat, c: nat, log: seq<Document>)
    requires HasDialog(w, d) && Folds(w.clients, c, log)
    ensures Folds(DialogEnded(w, d).clients, c, if c == d then [] else if c in w.clients then log else [])
  {
  }

  /** A subscriber that finds a dialog is told the list; one that does not opens one, which may end at once. */
  lemma ClientSubscribeFolds(w: World, d: nat, s: nat, answer: DialogState, c: nat, log: seq<Document>)
    requires Inv(w) && d in w.clients && Folds(w.clients, c, log)
    ensures Folds(ClientSubscribe(w, d, s, answer).clients, c, log)
  {
    hide Inv, Folds, OpenDialog, StateChanged;
    if w.clients[d].dialog.None? {
      OpenDialogKeepsInv(w, d);
      OpeningFolds(w, d, c, log);
      AnsweringFolds(OpenDialog(w, d), w.next, d, answer, c, log);
    }
  }

  lemma OpeningFolds(w: World, d: nat, c: nat, log: seq<Document>)
    requires d in w.clients && w.clients[d].dialog.None? && Folds(w.clients, c, log)
    ensures var w1 := OpenDialog(w, d);
            Folds(w1.clients, c, log) && IsEventOf(w1, w.next, d) && (c == d ==> log == [])
  {
  }

  lemma AnsweringFolds(w: World, e: nat, d: nat, answer: DialogState, c: nat, log: seq<Document>)
    requires Inv(w) && IsEventOf(w, e, d) && Folds(w.clients, c, log) && (c == d ==> log == [])
    ensures Dispatchable(w, e) && Folds(StateChanged(w, e, answer).clients, c, log)
  {
    hide Inv, DialogEnded;
    EventFacts(w, e);
    if Final(answer) {
      EndOfDialog(w, d, answer);
      EndFolds(w, d, c, log);
    }
  }

  lemma JoinKeepsLists(w: World, room: ChatRoom, a: Address)
    requires w.next !in w.clients
    ensures SameLists(w.clients, JoinExternal(w, room, a).clients)
  {
    hide Insert, RegisterClient;
  }

  lemma SubscribeFolds(w: World, room: ChatRoom, a: Address, answer: DialogState, c: nat, log: seq<Document>)
    requires Inv(w) && Folds(w.clients, c, log)
    ensures Folds(Subscribe(w, room, a, answer).clients, c, NextLog(w, SubscribeTo(room, a, answer), c, log))
  {
    hide Inv, Folds, JoinExternal, AcquireClient, ClientSubscribe, Subscribed, Insert;
    NoClientNoList(w.clients, c, log);
    if !Subscribed(w, room, a) && !IsLocal(w, a) {
      JoinExternalKeepsInv(w, room, a);
      JoinIsJoined(w, room, a);
      NextIsNew(w);
      JoinKeepsLists(w, room, a);
      var w1 := JoinExternal(w, room, a);
      SameListsFold(w.clients, w1.clients, c, log);
      ClientSubscribeFolds(w1, AcquireClient(w, a).1, AcquireClient(w, a).0.next, answer, c,
                           if c in w.clients then log else []);
    }
  }

  lemma NextIsNew(w: World)
    requires Inv(w)
    ensures w.next !in w.clients
  {
  }

  lemma NoClientNoList(clients: Clients, c: nat, log: seq<Document>)
    requires Folds(clients, c, log)
    ensures Folds(clients, c, if c in clients then log else [])
  {
  }

  lemma UnsubscribeKeepsLists(w: World, room: ChatRoom, a: Address)
    requires Inv(w)
    ensures SameLists(w.clients, Unsubscribe(w, room, a).clients)
  {
    hide CoreInv, StoreOk, ObserversOk, RegistrarOk, Unsubscribe, Evict, Left, SameLists;
    UnsubscribeRemovesThePair(w, room, a);
    if i :| 0 <= i < |w.store| && Matches(w, i, room, SubscriptionKey(a)) {
      EvictionDisturbsNobody(w, i);
      LeavingKeepsLists(w, Evict(w, i), i);
    } else {
      AllKeepLists(w.clients);
    }
  }

  lemma LeavingKeepsLists(w: World, w': World, i: nat)
    requires Left(w, w', i)
    ensures SameLists(w.clients, w'.clients)
  {
  }

  lemma AllKeepLists(clients: Clients)
    ensures SameLists(clients, clients)
  {
  }

  lemma StepFolds(w: World, op: Op, c: nat, log: seq<Document>)
    requires Inv(w) && Folds(w.clients, c, log)
    ensures Folds(Step(w, op).clients, c, NextLog(w, op, c, log))
  {
    hide Inv, Folds, SameLists, Unsubscribe;
    NoClientNoList(w.clients, c, log);
    match op
    case SubscribeTo(room, a, answer) => SubscribeFolds(w, room, a, answer, c, log);
    case UnsubscribeFrom(room, a) =>
      UnsubscribeKeepsLists(w, room, a);
      SameListsFold(w.clients, Unsubscribe(w, room, a).clients, c, log);
    case UnsubscribeFromAll =>
      TearingDownIsQuiet(w);
      NobodyFolds(c, NextLog(w, op, c, log));
    case NotifyOn(e, body) => if e in w.events { NotifyFolds(w, e, body, c, log); }
    case StateOf(e, state) => if e in w.events { StateChangeFolds(w, e, state, c, log); }
    case _ =>
  }

  lemma NobodyFolds(c: nat, log: seq<Document>)
    ensures Folds(map[], c, log)
  {
  }

  // ---- Runs ----

  /** In any run, a client's list is the fold of the documents dispatched to it since it was created or its last dialog
      was reported as ended; while it has no dialog there are none, and it lists nothing. */
  lemma CacheIsAFoldOfDispatchedDocuments(config: Config, ops: seq<Op>, w: World, c: nat)
    requires Reaches(config, ops, w) && c in w.clients
    ensures w.clients[c].devices == Fold(Log(config, ops, c), w.clients[c].to.uri)
    ensures w.clients[c].dialog.None? ==> Log(config, ops, c) == [] && w.clients[c].devices == []
  {
    hide Inv, Run, LogFrom;
    StartIsOk(config);
    RunFolds(Start(config), ops, c, []);
  }

  lemma {:induction false} RunFolds(w: World, ops: seq<Op>, c: nat, log: seq<Document>)
    requires Inv(w) && Folds(w.clients, c, log)
    ensures Folds(Run(w, ops).clients, c, LogFrom(w, ops, c, log))
    decreases |ops|
  {
    hide Inv, Step, Folds, NextLog;
    if ops != [] {
      StepKeepsInv(w, ops[0]);
      StepFolds(w, ops[0], c, log);
      RunFolds(Step(w, ops[0]), ops[1..], c, NextLog(w, ops[0], c, log));
    }
  }
}
