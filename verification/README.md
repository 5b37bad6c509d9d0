# Registration subscriptions of the conference server

A conference server keeps every chat room informed of the devices of each participant. Participants of a local domain are
followed through the registrar; all others through the "reg" event package (RFC 3680), with one SUBSCRIBE dialog per
participant URI shared by all rooms that follow it. This project models that subsystem of Flexisip (the subscription
store and its handler, the own and external subscriptions, the cache of shared clients, the client with its dialog and
its device list, and the factory that attaches clients to the core) and two loops of the conference server beside it:
the choice of codecs, and the rooms it listens to. It proves what holds in every state any run can reach.

The project has two layers.

* **The state machine.** `World` is the state as a value and every step as a function: the handler's operations, and
  the callbacks of the core and of the registrar. `Runs` defines runs, any interleaving of those steps. `Invariants`,
  `Lifecycle`, `Deliveries`, `Histories` and `Views` prove what runs keep. `Effects` proves what each single step does, in
  terms of what goes in and what can be seen afterwards. `Text`, `Capabilities`, `Reginfo` and `Multimap` hold what
  strings, capability masks, documents and the sorted multimap mean.
* **The objects.** `Objects` has the classes of the program, with their fields, loops, pointers and synchronous
  callbacks, and `Handlers` the handler on top. A ghost `System` knows all of them; `Coupled()` says which `World` they
  are in, and every method's contract says which step of that `World` it takes. Each operation of `Handler` and each
  callback of `Core` and `RegistrarDb` is one `Runs.Step`, and keeps the invariant, so every theorem about runs holds of
  the objects. `Conference` adds the server's list of rooms, `Codecs` is on its own, and `Disagreement` has two runs that
  go wrong.

Objects are numbered in the order of their creation. Shared-pointer counts are explicit, and a client's destructor runs
when its count reaches zero. `Event.Terminate` calls the core's listener back with the final state before it returns.

## What turned out false of the code

* Leaving out the device list when every device of a registration is refreshed is called redundant
  (src/registration-events/client.cc:120). It is not always: `Reginfo.SkippedSnapshotCanBeStale` gives a document,
  `Disagreement.LateRoomStaysBehind` a run of three steps after which a room holds a list the client no longer has, and
  `Disagreement.RoomsPart` a run of four steps after which two rooms with the same capabilities, in the same dialog, were
  told different lists. `Views.ViewsAgreeOverExactlyTheFaithfulRuns` proves that rooms agree with the client throughout a
  run exactly if every document in it is faithful: the last registration acted upon, if it is wholly refreshed, lists
  what was last told, as far as the room accepts it (or the room has not been told anything yet, and is not by this
  document). `Views.ViewsAgreeOverRedundantRuns` has the condition a sender can keep.
* A codec requested with an upper-case letter is matched and enabled, but is never taken off the list, so the selection
  fails (`Codecs.UpperCaseEnablesAndFails`); `Codecs.SucceedsExactlyWhenAllAreSupported` has the exact condition.

## Assumptions about code that is not part of this model

* `Observable` keeps a set of observers by identity, and `notify` calls each of them once, in any order.
* `unquote` strips one enclosing pair of double quotes. `iequals` and `toLower` work on ASCII letters.
* Calls on a chat room do not call the handler back while they run.
* Clients are created by `acquireClient` only, and only their destructor unsubscribes them.
* The capabilities of a chat room and the capability check flag do not change. A capability mask is the set of its bits.
* A device's capability descriptor is read back as it was set. Contact URIs parse as addresses.
* The three string forms of an address and the SIP URI it parses to are independent attributes of it. The domain of an
  address that was parsed is free of '@'; that this is what the keys of the store need is `World.KeysDoNotCollide`.
* `extractContactByUniqueId` returns the first contact with that id. The record given to `onContactRegistered` exists.
* `sendSubscribe` may report any state of the dialog before it returns. A fetch that completes at once completes right
  after `start`.
* The registrar calls a listener for the topics it subscribed to; the topic is the participant's record, so that it is
  registered once per subscription. A report may be on its way when its listener unsubscribes, and still arrive.
* `clear()` destroys the entries of the multimap one after the other, then forgets them.

## Model

| member | source | states |
|---|---|---|
| Runs.DialogsAreInverse | src/registration-events/client.cc:51-72 | in every reachable state an event carries data exactly if its target is a live client whose current event it is; every other event has been terminated exactly once; dispatching any event finds nobody or a live client with a dialog |
| Deliveries.TerminatingFirstWouldTerminateTwice | src/registration-events/client.cc:64-66 | with the data unset first, the synchronous callback is harmless; terminating first would end the dialog twice and leave the client without an event |
| Runs.ClientsLiveThroughSubscriptions | src/conference/registration-subscription.cc:172-187 | a client's observers are exactly the stored subscriptions that hold it, its pointer count is their number, it is alive exactly while there is one |
| Runs.FactoryListensWhileUsed | src/registration-events/client-factory.cc:61-73 | the use count is the number of live clients and never negative; the factory is attached to the core exactly while it is positive; attaching and detaching alternate |
| Runs.OneClientPerUri | src/conference/registration-subscription-factory.cc:45-61 | at most one live client per ordered URI, and it is the cached one; the cache's keys are exactly the URIs ever subscribed to |
| Runs.AcquireFindsOrCreates | src/conference/registration-subscription-factory.cc:45-61 | acquiring gives the live client of the URI with one more pointer, or one that no subscription ever had; it is then the only one of that URI |
| Histories.CacheIsAFoldOfDispatchedDocuments | src/registration-events/client.cc:75-146 | after any run, a client's list is the fold of the documents the run dispatched to it since it was created or its last dialog was reported as ended, a log read off the operations of the run; without a dialog there are none and the list is empty |
| Histories.StepFolds | src/registration-events/client.cc:75-146 | every operation and callback keeps a client's list the fold of its log |
| Effects.SubscribingStoresAndStarts | src/conference/participant-registration-subscription-handler.cc:77-99 | a stored pair is left alone; otherwise exactly one subscription is created for the room and participant and stored under `user@domain`. A local one with an AOR is active, fetches and listens, without one does nothing. Another one holds and observes the cached client of the URI: it is told the filtered list if the client has a dialog, else one dialog is opened, which is over at once if it is answered with Terminated or Error. Nobody else says anything |
| Effects.StatesOfADialog | src/registration-events/client.cc:126-146 | Terminated and Error each unset the event's data, terminate it once, and clear the client's event and list; each of the six other states changes nothing |
| Effects.NothingFromDeadDialogs | src/registration-events/client-factory.cc:34-59 | a state or a NOTIFY on an event without data changes nothing |
| Effects.UnreadBodiesChangeNothing | src/registration-events/client.cc:77-80 | an absent or unparseable body changes nothing |
| Effects.DocumentsAreReadInPieces | src/registration-events/client.cc:85-93 | reading two documents on end is reading one after the other, unless the first has a terminated registration of the AOR: then the second is not read |
| Effects.OneRegistrationIsRead | src/registration-events/client.cc:85-123 | a registration of another AOR changes nothing; one of the client's AOR replaces its list, and each observer, and nobody else, tells its room: an empty list if terminated, else the accepted refreshed devices one by one and then the filtered list if some device is not refreshed |
| Effects.FetchTellsTheRecord | src/conference/registration-subscription.cc:131-153 | a fetch that completes makes an active subscription tell its room exactly one list, the accepted ones of the record's devices, none without a record; an inactive one says nothing; a failed fetch is only over |
| Effects.RegistrationIsTold | src/conference/registration-subscription.cc:155-168 | an active subscription tells its room the list first, and then announces a device exactly if the id is not empty and its first contact has a public GRUU and is accepted; that device is in the list |
| Runs.StoreRefinesAMap | src/conference/participant-registration-subscription-handler.cc:37-99 | entries are sorted and filed under their participant's key, at most one per key and room; local participants have own subscriptions, others external ones; exactly the stored own ones that could start listen to the registrar |
| Runs.StoreKeepsParticipantsApart | src/conference/participant-registration-subscription-handler.cc:31-50 | with domains free of '@', looking up a pair finds a subscription of that very user, domain and room, exactly if there is one |
| Runs.StepKeepsInv | src/conference/participant-registration-subscription-handler.cc:86-108 | every operation and every callback keeps the whole invariant |
| World.KeysDoNotCollide | src/conference/participant-registration-subscription-handler.cc:31-33 | a key stands for one user and domain exactly if the domain is free of '@', whatever the user part holds |
| Deliveries.EveryStepIsFair | src/conference/registration-subscription.cc:101-168 | in every step, also for reports and fetches that come late, calls on rooms are only made by subscriptions that are stored, started and not stopped; nothing is taken back; none returns to the store |
| Deliveries.LeavingIsFinal | src/conference/registration-subscription.cc:113-118 | a subscription that has left never speaks to its room again, whatever run follows: not when its fetch completes, not when a registration is reported to it, not when its pair subscribes anew |
| Deliveries.LeavingDisturbsNobody | src/conference/participant-registration-subscription-handler.cc:52-63 | unsubscribing a pair leaves every other subscription and client as it was; a dialog is terminated exactly if the last holder of its client left, and then that one only |
| Deliveries.UnsubscribeAllLeavesNothing | src/conference/participant-registration-subscription-handler.cc:65-70 | from any reachable state: empty store, no live client, use count 0, factory detached, every dialog ever opened terminated once with its data unset, no listener left at the registrar, rooms told nothing |
| Views.ViewsAgreeOverExactlyTheFaithfulRuns | src/registration-events/client.cc:42-123 | in every state of a run, every room told a list in its client's current dialog, live or by replay, was last told the client's list, filtered for that room: this holds of exactly the runs whose documents are faithful |
| Disagreement.LateRoomStaysBehind | src/registration-events/client.cc:118-122 | a late room joins before the first document, whose one device is refreshed: the client lists it, the late room was last told an empty list, the early room none |
| Disagreement.RoomsPart | src/registration-events/client.cc:42-48 | two rooms with the same capabilities, in the same dialog, were last told different lists: one before a wholly refreshed document with another device, one when it joined after |
| Views.StepAgreesExactlyWhenFaithful | src/registration-events/client.cc:75-146 | from a reachable state in which rooms agree, any operation or callback leads to agreement, but for a document, which does exactly if it is faithful to all who follow the client |
| Views.ViewsAgreeOverRedundantRuns | src/registration-events/client.cc:118-122 | if in every document of a run wholly refreshed registrations only repeat what the client lists then, rooms agree throughout: there the skipped notification is redundant |
| Views.RedundantDocumentsAreFaithful | src/registration-events/client.cc:118-122 | a document whose wholly refreshed registrations only repeat the current list is faithful to all rooms: there the skipped notification is redundant |
| Views.ViewAfterDocument | src/registration-events/client.cc:85-123 | a room that agrees before a document agrees after it exactly if the document is faithful to it |
| Views.LateJoinersSeeWhatEarlyJoinersSee | src/registration-events/client.cc:44-49 | after any faithful run, two rooms that follow one URI were last told the same list if their capabilities are equal, whenever each joined; a room asking for more was told a subsequence |
| Lifecycle.UnsubscribeRemovesThePair | src/conference/participant-registration-subscription-handler.cc:52-63 | the erasing loop over `equal_range` removes the one entry of the pair, or nothing |
| Lifecycle.UnsubscribeAllKeepsInv | src/conference/participant-registration-subscription-handler.cc:65-70 | stopping all, then destroying all, ends in a state that satisfies the invariant and in which subscriptions are only stopped |
| Reginfo.CacheClosedForm | src/registration-events/client.cc:85-123 | one document leaves the cached list empty if a registration of the AOR is terminated, else the devices of the last one, else unchanged |
| Reginfo.LastMentionDecides | src/registration-events/client.cc:85-123 | of all documents read, the last one that mentions the AOR decides the cached list alone |
| Reginfo.RefreshAccounting | src/registration-events/client.cc:95-120 | at most one device per contact; fewer refreshed devices than devices exactly if some device is not refreshed; refreshed ones are listed |
| Reginfo.ContactBecomesDevice | src/registration-events/client.cc:97-115 | a contact is one device: its URI, its display name or none, and the value of its first `+org.linphone.specs` parameter without enclosing quotes; it is refreshed exactly if its event is |
| Reginfo.ContactWithoutSpecs | src/registration-events/client.cc:102-103 | a contact without that parameter is no device |
| Reginfo.DevicesSplit | src/registration-events/client.cc:95-116 | contacts are taken one after the other |
| Reginfo.IdentitiesOneByOne | src/conference/registration-subscription.cc:135-142 | a contact of the registrar is one device with its public GRUU, its name and its specs without enclosing quotes, or none without a GRUU, one after the other |
| Reginfo.ExtractIsFirst | src/conference/registration-subscription.cc:161-165 | the contact of an id is the first one that has it |
| Reginfo.RefreshedDevicesInOrder | src/registration-events/client.cc:95-116 | devices come one per contact that has specs, in document order, and the refreshed ones in the same order |
| Reginfo.RefreshesAreCached | src/registration-events/client.cc:95-122 | each refreshed device is announced once, in order, and is in the list cached after; a snapshot is sent exactly if some device is not refreshed, and is that list |
| Reginfo.ViewAgreesExactlyWhenFaithful | src/registration-events/client.cc:118-122 | a listener that knew the cached list knows it after a document, as far as its room accepts it, exactly if the document is faithful; one that knew nothing is told nothing exactly if the document is mute, else the same list |
| Reginfo.RedundantIsFaithful | src/registration-events/client.cc:118-122 | if wholly refreshed registrations only repeat the current list, the document is faithful |
| Reginfo.SkippedSnapshotCanBeStale | src/registration-events/client.cc:118-122 | a wholly refreshed registration can leave listeners with a stale list |
| Reginfo.OwnAndExternalPathsAgree | src/conference/registration-subscription.cc:131-149 | testing raw specs contact by contact delivers the same list as filtering the unquoted identities of the contacts with a public GRUU |
| Reginfo.AnnouncedIsListed | src/conference/registration-subscription.cc:155-168 | a device announced as just registered is in the list sent just before |
| Text.UnquoteKeepsKeywords | src/conference/registration-subscription.cc:67-69 | a keyword without quotes occurs in a raw value exactly if it occurs in the unquoted one |
| Capabilities.AcceptedExactlyWhenEveryBitIsBacked | src/conference/registration-subscription.cc:63-82 | with the check on, a device is accepted exactly if every bit of the room but OneToOne has a keyword and it occurs |
| Capabilities.KeywordsOfCapabilities | src/conference/registration-subscription.cc:67-69 | Conference, Encrypted and Ephemeral have the keywords groupchat, lime and ephemeral; no other capability has one |
| Text.ContainsIsSubstring | src/conference/registration-subscription.cc:67-69 | a keyword occurs exactly if the value is something before it, the keyword, and something after it |
| Capabilities.AcceptanceIsMonotone | src/conference/registration-subscription.cc:63-82 | a descriptor that contains an accepted one is accepted |
| Capabilities.WiderMaskDropsDevices | src/conference/registration-subscription.cc:189-197 | widening the room's mask turns the delivered list into a subsequence of it |
| Capabilities.CompatibleMembers | src/conference/registration-subscription.cc:189-197 | the filter keeps exactly the accepted devices |
| Capabilities.CompatibleSplits | src/conference/registration-subscription.cc:189-197 | the filter keeps the order: it filters a list piece by piece |
| Text.LessIsLexicographic | src/conference/participant-registration-subscription-handler.cc:39-39 | keys are ordered by the first character that differs, or by length |
| Multimap.EqualRangeIsExact | src/conference/participant-registration-subscription-handler.cc:44-44 | in a sorted sequence the range of a key holds all entries of that key and no others |
| Multimap.InsertGoesAfterItsEquals | src/conference/participant-registration-subscription-handler.cc:37-40 | a new entry goes after all of its key and before all greater ones, the others keep their order |
| Codecs.EnableSelectedCodecs | src/conference/conference-server.cc:274-291 | fails with exactly the requested strings that no payload has, in order; a payload is enabled exactly if something like its type is requested and not yet satisfied |
| Codecs.SucceedsExactlyWhenAllAreSupported | src/conference/conference-server.cc:274-291 | succeeds exactly if every requested string is the lower-cased type of some payload |
| Codecs.ChosenAreTheFirstOfTheirType | src/conference/conference-server.cc:277-286 | after a success the enabled payloads are exactly the first of each requested type |
| Codecs.UpperCaseEnablesAndFails | src/conference/conference-server.cc:278-282 | a request in upper case enables a payload and fails all the same |
| Codecs.ToLowerTurnsCapitals | src/conference/conference-server.cc:279-282 | lower-casing leaves no capital, turns each into its letter, and leaves everything else |
| Codecs.Find | src/conference/conference-server.cc:278-280 | finds a requested string that equals the type up to case, if there is one |
| Conference.ConferenceServer.OnChatRoomStateChanged | src/conference/conference-server.cc:346-356 | the server remembers and listens to exactly the rooms instantiated and not deleted since |
| Conference.ConferenceServer.Stop | src/conference/conference-server.cc:306-316 | detaches the server from exactly the rooms instantiated and not deleted, leaves other listeners alone, and ends every subscription, client and dialog |
| Handlers.Assemble | src/conference/participant-registration-subscription-handler.cc:72-75 | the objects start in the state in which runs start |
| Handlers.Handler.Subscribe | src/conference/participant-registration-subscription-handler.cc:86-99 | is the step of a run: nothing if the pair is stored, else an own or an external subscription, by domain |
| Handlers.Handler.StartOwn | src/conference/participant-registration-subscription-handler.cc:77-84 | creates, stores and starts an own subscription |
| Handlers.Handler.StartExternal | src/conference/participant-registration-subscription-handler.cc:77-84 | creates, stores and starts an external subscription |
| Handlers.Handler.CreateExternal | src/conference/registration-subscription-factory.cc:37-43 | acquires the client and hands its pointer to a new subscription |
| Handlers.Handler.Unsubscribe | src/conference/participant-registration-subscription-handler.cc:101-104 | is the step of a run that removes the pair |
| Handlers.Handler.UnsubscribeAll | src/conference/participant-registration-subscription-handler.cc:106-108 | is the step of a run that removes everything |
| Objects.SubscriptionStore.AddSubscription | src/conference/participant-registration-subscription-handler.cc:37-40 | inserts after the entries of the same key |
| Objects.SubscriptionStore.FindSubscription | src/conference/participant-registration-subscription-handler.cc:42-50 | decides whether the pair is subscribed |
| Objects.SubscriptionStore.RemoveSubscription | src/conference/participant-registration-subscription-handler.cc:52-63 | the loop that erases from the range it walks refines the removal of the pair |
| Objects.SubscriptionStore.Evict | src/conference/participant-registration-subscription-handler.cc:57-58 | stops an entry, erases it in place and drops the subscription |
| Objects.SubscriptionStore.RemoveAllSubscriptions | src/conference/participant-registration-subscription-handler.cc:65-70 | refines the removal of everything |
| Objects.SubscriptionStore.StopAll | src/conference/participant-registration-subscription-handler.cc:66-68 | stops every entry, in order, and keeps the store |
| Objects.SubscriptionStore.Clear | src/conference/participant-registration-subscription-handler.cc:69-69 | drops every entry, in order, and empties the store |
| Objects.ClientsStore.AcquireClient | src/conference/registration-subscription-factory.cc:45-61 | locks the cached client, or erases an expired entry and enters a new client |
| Objects.Client.constructor | src/registration-events/client.cc:36-40 | a new client registers with the factory and has one holder |
| Objects.Client.Subscribe | src/registration-events/client.cc:42-55 | replays the cached list to the listener, or opens a dialog, which may be answered at once |
| Objects.Client.Unsubscribe | src/registration-events/client.cc:57-67 | unsets the data, terminates the event, forgets it |
| Objects.Client.Destroy | src/registration-events/client.cc:69-73 | unregisters, then unsubscribes; the client is gone |
| Objects.Client.Release | src/registration-events/client.cc:69-73 | the last shared pointer to go destroys the client |
| Objects.Client.OnNotifyReceived | src/registration-events/client.cc:75-124 | an absent or unparseable body throws and changes nothing; a document is read as a whole |
| Objects.Client.ReadDocument | src/registration-events/client.cc:85-123 | the loop over registrations, with its `continue` and `break`, delivers the messages of the registrations acted upon and caches the last one |
| Objects.Client.ReadRegistration | src/registration-events/client.cc:88-122 | one registration: an empty list if terminated, else refreshes and a snapshot if needed |
| Objects.Client.ReadContacts | src/registration-events/client.cc:95-116 | the loop over contacts announces refreshed devices as they come and collects all |
| Objects.Client.FindSpecs | src/registration-events/client.cc:102-115 | the loop over parameters stops at the first specs parameter |
| Objects.Client.Notify | src/registration-events/client.cc:119-119 | tells every observer once, the result is the same in whatever order |
| Objects.Client.OnSubscriptionStateChanged | src/registration-events/client.cc:126-146 | Terminated and Error end the dialog and clear the list, other states change nothing |
| Objects.ClientFactory.RegisterClient | src/registration-events/client-factory.cc:61-66 | attaches to the core for the first client, counts |
| Objects.ClientFactory.UnregisterClient | src/registration-events/client-factory.cc:68-73 | counts down, detaches from the core after the last client |
| Objects.ClientFactory.OnSubscriptionStateChanged | src/registration-events/client-factory.cc:34-45 | dispatches to the client the event designates, if any |
| Objects.ClientFactory.OnNotifyReceived | src/registration-events/client-factory.cc:47-59 | dispatches to the client the event designates, if any; what the client throws stays here |
| Objects.Core.StateReported | src/registration-events/client-factory.cc:34-45 | a dialog's change of state is a step of a run |
| Objects.Core.NotifyReceived | src/registration-events/client-factory.cc:47-59 | a NOTIFY is a step of a run |
| Objects.Event.Terminate | src/registration-events/client.cc:65-65 | counts the termination and reports it before it returns |
| Objects.Subscription.StartOwn | src/conference/registration-subscription.cc:101-111 | does nothing without an AOR, else fetches and subscribes |
| Objects.Subscription.Start | src/conference/registration-subscription.cc:178-182 | the external kind observes its client, then subscribes to it |
| Objects.Subscription.Stop | src/conference/registration-subscription.cc:113-118 | the own kind leaves the registrar if active; the external kind stops observing |
| Objects.Subscription.ProcessRecord | src/conference/registration-subscription.cc:131-149 | an inactive subscription says nothing; an active one sends the compatible devices, none without a record |
| Objects.Subscription.CollectCompatible | src/conference/registration-subscription.cc:134-147 | the loop over contacts collects the compatible ones that have a public GRUU |
| Objects.Subscription.OnContactRegistered | src/conference/registration-subscription.cc:155-168 | sends the list, then announces the device of the id, if it has one that is compatible |
| Objects.Subscription.RemoveIncompatible | src/conference/registration-subscription.cc:189-197 | erasing in place while walking leaves the accepted devices in order |
| Objects.Subscription.OnNotifyReceived | src/conference/registration-subscription.cc:189-197 | one call on the room, with the filtered list |
| Objects.Subscription.OnRefreshed | src/conference/registration-subscription.cc:199-203 | one call on the room if the device is compatible |
| Objects.RegistrarDb.FetchDone | src/conference/registration-subscription.cc:151-153 | a completed fetch is a step of a run, also when its subscription has been stopped |
| Objects.RegistrarDb.ContactRegistered | src/conference/registration-subscription.cc:155-168 | a reported registration is a step of a run, also when its subscription has been stopped |

## Left out

- Configuration, local paths, bindings of factory addresses, and the rest of `ConferenceServer::_init`: input and output
  over libraries that are not part of this model.
- Parsing of `reginfo` XML, SIP transport, liblinphone, and the inside of the registrar database.
- Partial documents and version numbers of RFC 3680: the code does not use them.
- Retrying after a dialog has failed: the code leaves it to do, so no progress is claimed.
- Chat rooms that call the handler back while they are being told something.
- Calls of `Client::unsubscribe` from outside the client, which only its tests make.
- The class hierarchy of subscriptions and of their factories: one class `Subscription`, which is external if it has a
  client, stands for both kinds.
- Subscribing to the registrar is per subscription, not per topic: the string of the topic key is not modelled.
- A stopped server's own listeners on the core and on the registrar's state: two calls without any choice.
- The server's two callbacks that forward a room's request to the handler.
- Contacts whose URI does not parse as an address.
- Log messages, command line, process lifecycle, packaging.
