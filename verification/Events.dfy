/** The gateway's handlers, over the service and a table of live sockets. */
module Events {
  import opened Types
  import opened StoreModel
  import opened GatewayModel
  import opened Rooms
  import G = GatewayModel
  import Do = Operations

  class EventsGateway {
    const service: RoomsService
    // sessions of the live sockets, and what each has yet to receive
    var sockets: map<SocketId, Token>
    var queues: map<SocketId, seq<Event>>
    // sessions of the sockets cut off by the server, and what those had yet to receive
    var severed: set<Token>
    var farewells: map<SocketId, seq<Event>>

    constructor (service: RoomsService)
      requires service.Valid()
      ensures this.service == service && Valid()
      ensures State() == Gateway(service.Store(), map[], map[], {}, map[])
    {
      this.service := service;
      sockets, queues, severed, farewells := map[], map[], {}, map[];
    }

    ghost predicate Valid()
      reads this, service.repository.redis
    {
      service.Valid() && sockets.Keys == queues.Keys
    }

    ghost function State(): Gateway
      requires Valid()
      reads this, service.repository.redis
    {
      Gateway(service.Store(), sockets, queues, severed, farewells)
    }

    method EmitToRoom(code: Code, e: Event)
      requires Valid()
      modifies this`queues
      ensures Valid() && State() == G.EmitToRoom(old(State()), code, e)
    {
      queues := map s | s in queues :: if InRoom(sockets, s, code) then queues[s] + [e] else queues[s];
    }

    method EmitToUser(socket: SocketId, e: Event)
      requires Valid()
      modifies this`queues
      ensures Valid() && State() == EmitTo(old(State()), socket, e)
    {
      if socket in queues { queues := queues[socket := queues[socket] + [e]]; }
    }

    method DisconnectUser(socket: SocketId)
      requires Valid()
      modifies this
      ensures Valid() && State() == Sever(old(State()), socket)
    {
      if socket in sockets {
        farewells := farewells[socket := queues[socket]];
        severed := severed + {sockets[socket]};
        sockets, queues := sockets - {socket}, queues - {socket};
      }
    }

    /** A last word to one socket. */
    method Expel(socket: SocketId, word: Event)
      requires Valid()
      modifies this
      ensures Valid() && State() == Sever(EmitTo(old(State()), socket, word), socket)
      ensures socket in old(sockets) ==>
        && sockets == old(sockets) - {socket} && queues == old(queues) - {socket}
        && severed == old(severed) + {old(sockets)[socket]}
        && farewells == old(farewells)[socket := old(queues)[socket] + [word]]
    {
      EmitToUser(socket, word);
      DisconnectUser(socket);
    }

    /** The kicked user's socket is told, and that is the last that it hears. */
    method OnKick(session: Token, target: UserId) returns (r: Result<Option<SocketId>>)
      requires Valid() && service.Proper(session.roomCode)
      modifies this, service.repository.redis
      ensures Valid() && State() == G.OnKick(old(State()), session, target)
      ensures r == Do.Kick(old(service.Store()), session.userId, session.roomCode, target).1
      ensures r.Success? && r.value.Some? && r.value.value in old(sockets) ==>
        farewells == old(farewells)[r.value.value := old(queues)[r.value.value] + [UserKicked]]
    {
      var socket :- service.Kick(session.userId, session.roomCode, target);
      if socket.Some? { Expel(socket.value, UserKicked); }
      EmitToRoom(session.roomCode, UserLeft(target, KICKED));
      r := Success(socket);
    }

    method OnUpdateHost(session: Token, newHost: UserId) returns (r: Result<()>)
      requires Valid() && service.Proper(session.roomCode)
      modifies this, service.repository.redis
      ensures Valid() && State() == G.OnUpdateHost(old(State()), session, newHost)
      ensures var done := Do.UpdateHost(old(service.Store()), session.userId, session.roomCode, newHost).1;
        r == if done.Success? then Success(()) else Failure(done.error)
    {
      var room :- service.UpdateHost(session.userId, session.roomCode, newHost);
      EmitToRoom(room.code, HostUpdated(room.hostId));
      r := Success(());
    }

    method OnToggleLock(session: Token) returns (r: Result<()>)
      requires Valid() && service.Proper(session.roomCode)
      modifies this, service.repository.redis
      ensures Valid() && State() == G.OnToggleLock(old(State()), session)
      ensures var done := Do.ToggleLock(old(service.Store()), session.userId, session.roomCode).1;
        r == if done.Success? then Success(()) else Failure(done.error)
    {
      var room :- service.ToggleLock(session.userId, session.roomCode);
      EmitToRoom(room.code, LockToggled(room.isLocked));
      r := Success(());
    }

    method OnLeave(socket: SocketId, session: Token) returns (r: Result<()>, ghost next: UserId)
      requires Valid() && service.Proper(session.roomCode)
      modifies this, service.repository.redis
      ensures Valid() && State() == G.OnLeave(old(State()), socket, session, next)
      ensures forall s :: s in queues && !InRoom(old(sockets), s, session.roomCode) ==>
        s in old(queues) && queues[s] == old(queues)[s]
      ensures r.Success? && socket in old(sockets) ==>
        socket in farewells && farewells[socket] == old(queues)[socket]
      ensures var done := Do.Leave(old(service.Store()), session.roomCode, session.userId, next).1;
        r == if done.Success? then Success(()) else Failure(done.error)
      ensures Do.Leave(old(service.Store()), session.roomCode, session.userId, next).1 == Success(Some(next)) ==>
        next in MembersOf(old(service.Store()), session.roomCode) - {session.userId}
    {
      var heir;
      heir, next := service.Leave(session.roomCode, session.userId);
      if heir.Failure? { return Failure(heir.error), next; }
      DisconnectUser(socket);
      EmitToRoom(session.roomCode, UserLeft(session.userId, LEFT));
      if heir.value.Some? { EmitToRoom(session.roomCode, HostUpdated(heir.value.value)); }
      r := Success(());
    }

    /** Everyone in the room is told twice, then cut off. */
    method OnCloseRoom(session: Token) returns (r: Result<()>)
      requires Valid() && service.Proper(session.roomCode)
      modifies this, service.repository.redis
      ensures Valid() && State() == G.OnCloseRoom(old(State()), session)
      ensures r == Do.Close(old(service.Store()), session.userId, session.roomCode).1
      ensures r.Success? ==> forall s :: InRoom(old(sockets), s, session.roomCode) ==>
        s in farewells && farewells[s] == old(queues)[s] + [RoomClosed, RoomClosed]
    {
      var code := session.roomCode;
      var _ :- service.Close(session.userId, code);
      EmitToRoom(code, RoomClosed);
      CutOff(code);
      r := Success(());
    }

    /** Each socket of the room leaves it, is told, and is disconnected. */
    method CutOff(code: Code)
      requires Valid()
      modifies this
      ensures Valid() && State() == Dismiss(old(State()), code)
    {
      ghost var g, gone: set<SocketId> := State(), {};
      var rest := set s | s in sockets && sockets[s].roomCode == code;
      ghost var all := rest;
      while rest != {}
        invariant Valid() && gone + rest == all && gone !! rest && State() == DismissAll(g, gone)
        decreases rest
      {
        var socket :| socket in rest;
        DismissMore(g, gone, socket);
        Expel(socket, RoomClosed);
        gone, rest := gone + {socket}, rest - {socket};
      }
      assert all == gone;
    }

    /** `socket` is new; `listing` is how the store lists the room's members. */
    method HandleConnection(socket: SocketId, token: Token) returns (ghost listing: seq<UserId>)
      requires Valid() && service.Proper(token.roomCode) && socket !in sockets
      modifies this, service.repository.redis
      ensures Valid() && State() == G.HandleConnection(old(State()), token, socket, listing)
      ensures socket in sockets ==> Lists(listing, MembersOf(old(service.Store()), token.roomCode))
    {
      listing := [];
      var user := service.users.GetById(token.userId);
      if user.Failure? { return; }
      var updated := service.users.UpdateConnection(token.userId, socket);
      var room := service.GetByCode(token.roomCode);
      if room.Failure? {
        severed := severed + {token};
        return;
      }
      var users := service.GetRoomMembersWithDetails(token.roomCode);
      listing :| Lists(listing, MembersOf(service.Store(), token.roomCode))
                 && users.value == Do.Details(service.Store(), listing);
      sockets, queues := sockets[socket := token], queues[socket := []];
      EmitToUser(socket, RoomState(room.value, users.value));
      EmitToRoom(token.roomCode, UserConnected(updated.value));
    }

    /** The socket of this session is gone from the table. */
    method HandleDisconnect(session: Token)
      requires Valid()
      modifies this`queues, service.repository.redis
      ensures Valid() && State() == G.HandleDisconnect(old(State()), session)
    {
      var user := service.users.UpdateDisconnection(session.userId);
      if user.Success? { EmitToRoom(session.roomCode, UserDisconnected(user.value)); }
    }
  }
}
