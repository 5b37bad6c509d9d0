/** The handler of a conference server's subscriptions, and the assembly of the objects it works with. */
module Handlers {
  import opened Multimap
  import opened World
  import opened Invariants
  import opened Lifecycle
  import opened Runs
  import opened Objects

  /** The handler a conference server asks to subscribe rooms to participants. */
  class Handler {
    const mStore: SubscriptionStore
    const mClientsStore: ClientsStore
    const mRegistrarDb: RegistrarDb
    const mFactory: ClientFactory
    const mLocalDomains: seq<string>
    const mCheckCapabilities: bool

    constructor (ghost u: System, config: Config, store: SubscriptionStore, clientsStore: ClientsStore,
                 registrar: RegistrarDb, factory: ClientFactory)
      requires u.store == store && u.clientsStore == clientsStore && u.registrar == registrar && u.factory == factory
      requires u.w.config == config
      ensures Serves(u)
    {
      mStore, mClientsStore, mRegistrarDb, mFactory := store, clientsStore, registrar, factory;
      mLocalDomains, mCheckCapabilities := config.localDomains, config.check;
    }

    ghost predicate Serves(u: System)
      reads u`w
    {
      u.store == mStore && u.clientsStore == mClientsStore && u.registrar == mRegistrarDb && u.factory == mFactory &&
      u.w.config == Config(mLocalDomains, mCheckCapabilities)
    }

    /** One subscription per room and participant: local participants through the registrar, others through a client. */
    method Subscribe(ghost u: System, chatRoom: ChatRoom, address: Address, answer: DialogState)
      requires u.Coupled() && Serves(u) && Inv(u.w)
      modifies u, u.objects
      ensures u.Coupled() && u.Grown() && Serves(u) && Inv(u.w)
      ensures u.w == Step(old(u.w), SubscribeTo(chatRoom, address, answer))
    {
      hide System.Coupled, System.RootsCoupled, System.ClientsCoupled, System.EventsCoupled, System.SubsCoupled;
      hide Inv, W.SubscribeOwn, W.SubscribeExternal, Subscribed;
      StoreIsSorted(u.w);
      StepKeepsInv(u.w, SubscribeTo(chatRoom, address, answer));
      StepKeepsConfig(u.w, SubscribeTo(chatRoom, address, answer));
      var found := mStore.FindSubscription(u, chatRoom, address);
      if !found {
        if address.domain in mLocalDomains {
          StartOwn(u, chatRoom, address, answer);
        } else {
          StartExternal(u, chatRoom, address, answer);
        }
      }
    }

    /** `startSubscription` with the factory of own subscriptions. */
    method StartOwn(ghost u: System, chatRoom: ChatRoom, address: Address, answer: DialogState)
      requires u.Coupled() && Serves(u)
      modifies u, u.objects
      ensures u.Coupled() && u.Grown() && u.w == W.SubscribeOwn(old(u.w), chatRoom, address)
    {
      hide System.Coupled, System.RootsCoupled, System.ClientsCoupled, System.EventsCoupled, System.SubsCoupled,
           System.SameSubs;
      hide W.StartOwn, Insert;
      u.Facts();
      var subscription := new Subscription(u, mCheckCapabilities, chatRoom, address, mRegistrarDb, null);
      mStore.AddSubscription(u, address, subscription);
      assert u.Grown();
      subscription.Start(u, answer);
    }

    /** `startSubscription` with the factory of external subscriptions, which acquires the client. */
    method StartExternal(ghost u: System, chatRoom: ChatRoom, address: Address, answer: DialogState)
      requires u.Coupled() && Serves(u)
      modifies u, u.objects
      ensures u.Coupled() && u.Grown() && u.w == W.SubscribeExternal(old(u.w), chatRoom, address, answer)
    {
      hide System.Coupled, System.RootsCoupled, System.ClientsCoupled, System.EventsCoupled, System.SubsCoupled,
           System.SameSubs;
      hide W.ClientSubscribe, W.AcquireClient, W.AddObserver, Insert;
      u.Facts();
      var subscription := CreateExternal(u, chatRoom, address);
      mStore.AddSubscription(u, address, subscription);
      assert u.Grown();
      subscription.Start(u, answer);
    }

    /** The subscription takes over the shared pointer to the client. */
    method CreateExternal(ghost u: System, chatRoom: ChatRoom, address: Address) returns (subscription: Subscription)
      requires u.Coupled() && Serves(u)
      modifies u, u.objects
      ensures u.Coupled() && u.Grown() && u.KnowsSub(subscription)
      ensures subscription.mClient != null && subscription.mClient.Alive(u)
      ensures var (w1, c) := W.AcquireClient(old(u.w), address);
              subscription.mClient.id == c && subscription.id == w1.next &&
              u.w == w1.(next := w1.next + 1, subs := w1.subs[w1.next :=
                           Sub(chatRoom, address, w1.config.check, External(c), false, [], 0)])
    {
      hide System.Coupled, System.RootsCoupled, System.ClientsCoupled, System.EventsCoupled, System.SubsCoupled,
           System.SameSubs;
      hide W.AcquireClient;
      u.Facts();
      var client := mClientsStore.AcquireClient(u, address, mFactory);
      subscription := new Subscription(u, mCheckCapabilities, chatRoom, address, mRegistrarDb, client);
    }

    method Unsubscribe(ghost u: System, chatRoom: ChatRoom, address: Address)
      requires u.Coupled() && Serves(u) && Inv(u.w)
      modifies u, u.objects
      ensures u.Coupled() && u.Grown() && Serves(u) && Inv(u.w)
      ensures u.w == Step(old(u.w), UnsubscribeFrom(chatRoom, address))
    {
      hide System.Coupled, System.RootsCoupled, System.ClientsCoupled, System.EventsCoupled, System.SubsCoupled;
      hide Inv, Lifecycle.Unsubscribe;
      StepKeepsInv(u.w, UnsubscribeFrom(chatRoom, address));
      StepKeepsConfig(u.w, UnsubscribeFrom(chatRoom, address));
      mStore.RemoveSubscription(u, chatRoom, address);
    }

    method UnsubscribeAll(ghost u: System)
      requires u.Coupled() && Serves(u) && Inv(u.w)
      modifies u, u.objects
      ensures u.Coupled() && u.Grown() && Serves(u) && Inv(u.w)
      ensures u.w == Step(old(u.w), UnsubscribeFromAll)
    {
      hide System.Coupled, System.RootsCoupled, System.ClientsCoupled, System.EventsCoupled, System.SubsCoupled;
      hide Inv, Lifecycle.UnsubscribeAll;
      StepKeepsInv(u.w, UnsubscribeFromAll);
      StepKeepsConfig(u.w, UnsubscribeFromAll);
      mStore.RemoveAllSubscriptions(u);
    }
  }

  /** The subsystem of a conference server that has just started. */
  method Assemble(config: Config) returns (handler: Handler, ghost u: System)
    ensures fresh(handler) && fresh(u) && fresh(u.objects)
    ensures u.Coupled() && handler.Serves(u) && Inv(u.w) && u.w == Start(config)
  {
    hide System.Coupled, Inv, Start;
    var core := new Core();
    var factory := new ClientFactory(core);
    var registrar := new RegistrarDb();
    var clientsStore := new ClientsStore();
    var store := new SubscriptionStore();
    u := new System(config, core, factory, registrar, clientsStore, store);
    StartIsOk(config);
    handler := new Handler(u, config, store, clientsStore, registrar, factory);
  }
}
