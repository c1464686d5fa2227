/** What each gateway handler does to the store, the socket table and the events under way. */
module GatewayModel {
  import opened Types
  import opened StoreModel
  import Do = Operations

  datatype Reason = LEFT | KICKED

  datatype Event =
    | RoomState(room: Room, users: seq<User>)
    | RoomClosed
    | HostUpdated(hostId: UserId)
    | LockToggled(isLocked: bool)
    | UserConnected(user: User)
    | UserDisconnected(user: User)
    | UserKicked
    | UserLeft(userId: UserId, reason: Reason)

  /** `sockets` holds the session of every live socket, `queues` what was emitted to it and not
      yet delivered.  `severed` holds the sessions of the sockets that the server has cut off,
      whose handleDisconnect runs at some later time, and `farewells` what those sockets had yet to
      receive. */
  datatype Gateway = Gateway(store: Store, sockets: map<SocketId, Token>,
                             queues: map<SocketId, seq<Event>>, severed: set<Token>,
                             farewells: map<SocketId, seq<Event>>)

  predicate InRoom(sockets: map<SocketId, Token>, socket: SocketId, code: Code) {
    socket in sockets && sockets[socket].roomCode == code
  }

  function EmitToRoom(g: Gateway, code: Code, e: Event): Gateway {
    g.(queues := map s | s in g.queues ::
         if InRoom(g.sockets, s, code) then g.queues[s] + [e] else g.queues[s])
  }

  function EmitTo(g: Gateway, socket: SocketId, e: Event): Gateway {
    if socket in g.queues then g.(queues := g.queues[socket := g.queues[socket] + [e]]) else g
  }

  function Remove(g: Gateway, gone: set<SocketId>): Gateway {
    g.(sockets := g.sockets - gone, queues := g.queues - gone)
  }

  /** Cuts a socket off; its handleDisconnect is still to come. */
  function Sever(g: Gateway, socket: SocketId): Gateway {
    if socket in g.sockets && socket in g.queues
    then Remove(g, {socket}).(severed := g.severed + {g.sockets[socket]},
                              farewells := g.farewells[socket := g.queues[socket]])
    else g
  }

  function HandleDisconnect(g: Gateway, session: Token): Gateway {
    var (store, r) := Do.UpdateDisconnection(g.store, session.userId);
    match r
    case Failure(_) => g
    case Success(user) => EmitToRoom(g.(store := store), session.roomCode, UserDisconnected(user))
  }

  function HandleConnection(g: Gateway, token: Token, socket: SocketId, listing: seq<UserId>): Gateway {
    var (store, r) := Do.UpdateConnection(g.store, token.userId, socket);
    match r
    case Failure(_) => g
    case Success(user) =>
      match FindRoom(store, token.roomCode)
      case None => g.(store := store, severed := g.severed + {token})
      case Some(room) =>
        var joined := g.(store := store, sockets := g.sockets[socket := token], queues := g.queues[socket := []]);
        var told := EmitTo(joined, socket, RoomState(room, Do.Details(store, listing)));
        EmitToRoom(told, token.roomCode, UserConnected(user))
  }

  function OnKick(g: Gateway, session: Token, target: UserId): Gateway {
    var (store, r) := Do.Kick(g.store, session.userId, session.roomCode, target);
    match r
    case Failure(_) => g
    case Success(socket) =>
      var kicked := g.(store := store);
      var cut := match socket
        case Some(s) => Sever(EmitTo(kicked, s, UserKicked), s)
        case None => kicked;
      EmitToRoom(cut, session.roomCode, UserLeft(target, KICKED))
  }

  function OnLeave(g: Gateway, socket: SocketId, session: Token, next: UserId): Gateway {
    var (store, r) := Do.Leave(g.store, session.roomCode, session.userId, next);
    match r
    case Failure(_) => g
    case Success(heir) =>
      var cut := Sever(g.(store := store), socket);
      var told := EmitToRoom(cut, session.roomCode, UserLeft(session.userId, LEFT));
      match heir
      case Some(host) => EmitToRoom(told, session.roomCode, HostUpdated(host))
      case None => told
  }

  /** Everyone in the room is told, told again, and cut off. */
  function OnCloseRoom(g: Gateway, session: Token): Gateway {
    var (store, r) := Do.Close(g.store, session.userId, session.roomCode);
    match r
    case Failure(_) => g
    case Success(_) => Dismiss(EmitToRoom(g.(store := store), session.roomCode, RoomClosed), session.roomCode)
  }

  function Dismiss(g: Gateway, code: Code): Gateway {
    DismissAll(g, set s | s in g.sockets && g.sockets[s].roomCode == code)
  }

  /** Each of these sockets is told once more and cut off. */
  function DismissAll(g: Gateway, gone: set<SocketId>): Gateway {
    Remove(g, gone).(severed := g.severed + Sessions(g.sockets, gone),
                     farewells := g.farewells + Parting(g.queues, gone))
  }

  function Sessions(sockets: map<SocketId, Token>, gone: set<SocketId>): set<Token> {
    set s | s in gone && s in sockets :: sockets[s]
  }

  function Parting(queues: map<SocketId, seq<Event>>, gone: set<SocketId>): map<SocketId, seq<Event>> {
    map s | s in gone && s in queues :: queues[s] + [RoomClosed]
  }

  lemma PartingMore(queues: map<SocketId, seq<Event>>, gone: set<SocketId>, socket: SocketId)
    requires socket in queues && socket !in gone
    ensures Parting(queues, gone + {socket}) == Parting(queues, gone)[socket := queues[socket] + [RoomClosed]]
  {}

  lemma DismissMore(g: Gateway, gone: set<SocketId>, socket: SocketId)
    requires socket in g.sockets && socket in g.queues && socket !in gone
    ensures Sever(EmitTo(DismissAll(g, gone), socket, RoomClosed), socket) == DismissAll(g, gone + {socket})
  {
    var one, word := DismissAll(g, gone), g.queues[socket] + [RoomClosed];
    PartingMore(g.queues, gone, socket);
    assert g.farewells + Parting(g.queues, gone)[socket := word] == one.farewells[socket := word];
    assert g.queues - (gone + {socket}) == (g.queues - gone)[socket := word] - {socket};
    assert Sessions(g.sockets, gone + {socket}) == Sessions(g.sockets, gone) + {g.sockets[socket]};
  }

  function OnUpdateHost(g: Gateway, session: Token, to: UserId): Gateway {
    var (store, r) := Do.UpdateHost(g.store, session.userId, session.roomCode, to);
    match r
    case Success(Complete(code, host, _, _, _, _, _)) =>
      EmitToRoom(g.(store := store), code, HostUpdated(host))
    case _ => g
  }

  function OnToggleLock(g: Gateway, session: Token): Gateway {
    var (store, r) := Do.ToggleLock(g.store, session.userId, session.roomCode);
    match r
    case Success(Complete(code, _, locked, _, _, _, _)) =>
      EmitToRoom(g.(store := store), code, LockToggled(locked))
    case _ => g
  }
}
