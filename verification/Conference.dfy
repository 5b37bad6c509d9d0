/** The chat rooms a conference server listens to, and what stopping it leaves behind. */
module Conference {
  import opened World
  import opened Invariants
  import opened Runs
  import opened Deliveries
  import opened Objects
  import opened Handlers

  /** The states of a chat room the server reacts to, and any other. */
  datatype RoomState = Instantiated | Deleted | Other

  /** A chat room and who listens to it. */
  class Room {
    const chatRoom: ChatRoom
    var listeners: set<ConferenceServer>

    constructor (chatRoom: ChatRoom)
      ensures this.chatRoom == chatRoom && listeners == {}
    {
      this.chatRoom := chatRoom;
      listeners := {};
    }

    method AddListener(listener: ConferenceServer)
      modifies this
      ensures listeners == old(listeners) + {listener}
    {
      listeners := listeners + {listener};
    }

    method RemoveListener(listener: ConferenceServer)
      modifies this
      ensures listeners == old(listeners) - {listener}
    {
      listeners := listeners - {listener};
    }
  }

  datatype RoomEvent = RoomEvent(room: Room, state: RoomState)

  /** The room has been instantiated and has not been deleted since. */
  ghost predicate Present(events: seq<RoomEvent>, room: Room) {
    exists i | 0 <= i < |events| ::
      events[i] == RoomEvent(room, Instantiated) && forall j | i < j < |events| :: events[j] != RoomEvent(room, Deleted)
  }

  lemma PresentNext(events: seq<RoomEvent>, e: RoomEvent, room: Room)
    ensures Present(events + [e], room) <==>
            if e == RoomEvent(room, Instantiated) then true
            else Present(events, room) && e != RoomEvent(room, Deleted)
  {
    var more := events + [e];
    if e == RoomEvent(room, Instantiated) {
      assert more[|events|] == e;
    } else if Present(events, room) && e != RoomEvent(room, Deleted) {
      var i :| 0 <= i < |events| && events[i] == RoomEvent(room, Instantiated) &&
               forall j | i < j < |events| :: events[j] != RoomEvent(room, Deleted);
      assert more[i] == events[i];
    }
    if Present(more, room) && e != RoomEvent(room, Instantiated) {
      var i :| 0 <= i < |more| && more[i] == RoomEvent(room, Instantiated) &&
               forall j | i < j < |more| :: more[j] != RoomEvent(room, Deleted);
      assert i < |events| && events[i] == more[i];
      assert forall j | i < j < |events| :: events[j] == more[j];
      assert more[|events|] == e;
    }
  }

  /** `list::remove`. */
  function Without(rooms: seq<Room>, room: Room): (r: seq<Room>)
    ensures (forall x | x in r :: x in rooms && x != room) && (forall x | x in rooms && x != room :: x in r)
  {
    if rooms == [] then [] else (if rooms[0] == room then [] else [rooms[0]]) + Without(rooms[1..], room)
  }

  class ConferenceServer {
    const mSubscriptionHandler: Handler
    var mChatRooms: seq<Room>
    ghost var history: seq<RoomEvent>

    constructor (handler: Handler, ghost rooms: set<Room>)
      ensures mSubscriptionHandler == handler && history == [] && Follows(rooms)
    {
      mSubscriptionHandler, mChatRooms, history := handler, [], [];
    }

    /** The server remembers, and listens to, exactly the rooms instantiated and not deleted. */
    ghost predicate Follows(rooms: set<Room>)
      reads this, rooms
    {
      (forall e | e in history :: e.room in rooms) &&
      (forall room | room in mChatRooms :: room in rooms) &&
      forall room | room in rooms ::
        (room in mChatRooms <==> Present(history, room)) && (this in room.listeners <==> Present(history, room))
    }

    /** `rooms` are the chat rooms of the core. */
    method OnChatRoomStateChanged(cr: Room, state: RoomState, ghost rooms: set<Room>)
      requires Follows(rooms) && cr in rooms
      modifies this, cr
      ensures Follows(rooms) && history == old(history) + [RoomEvent(cr, state)]
      ensures cr.listeners - {this} == old(cr.listeners) - {this}
    {
      forall room | room in rooms
        ensures Present(history + [RoomEvent(cr, state)], room) <==>
                if room != cr then Present(history, room)
                else state == Instantiated || (Present(history, cr) && state != Deleted)
      {
        PresentNext(history, RoomEvent(cr, state), room);
      }
      hide Present;
      if state == Instantiated {
        mChatRooms := mChatRooms + [cr];
        cr.AddListener(this);
      } else if state == Deleted {
        cr.RemoveListener(this);
        mChatRooms := Without(mChatRooms, cr);
      }
      history := history + [RoomEvent(cr, state)];
    }

    /** Stops listening to the rooms and ends all subscriptions. */
    method Stop(ghost u: System, ghost rooms: set<Room>)
      requires Follows(rooms) && forall room | room in rooms :: (room as object) !in u.objects
      requires u.Coupled() && mSubscriptionHandler.Serves(u) && Inv(u.w)
      modifies mChatRooms, u, u.objects
      ensures forall room | room in rooms ::
                room.listeners ==
                if old(Present(history, room)) then old(room.listeners) - {this} else old(room.listeners)
      ensures forall room | room in rooms :: this !in room.listeners
      ensures u.Coupled() && Inv(u.w) && u.w == Step(old(u.w), UnsubscribeFromAll)
      ensures Quiet(old(u.w), u.w)
    {
      hide System.Coupled, Inv, Present, Quiet;
      assert forall o: object | o in mChatRooms :: o !in u.objects;
      Detach(rooms);
      assert forall o | o in u.objects :: unchanged(o);
      TearingDownIsQuiet(u.w);
      mSubscriptionHandler.UnsubscribeAll(u);
    }

    /** The loop over the rooms. */
    method Detach(ghost rooms: set<Room>)
      requires Follows(rooms)
      modifies mChatRooms
      ensures forall room | room in rooms ::
                room.listeners == if Present(history, room) then old(room.listeners) - {this} else old(room.listeners)
    {
      hide Present;
      for i := 0 to |mChatRooms|
        invariant forall room | room in rooms ::
                    room.listeners ==
                    if room in mChatRooms[..i] then old(room.listeners) - {this} else old(room.listeners)
      {
        assert mChatRooms[..i + 1] == mChatRooms[..i] + [mChatRooms[i]];
        mChatRooms[i].RemoveListener(this);
      }
      assert mChatRooms[..|mChatRooms|] == mChatRooms;
    }
  }
}
