/** The server with its clients: every handler is one step, and so is every delivery. */
module Network {
  import opened Types
  import opened StoreModel
  import opened GatewayModel
  import opened Client
  import opened Invariant
  import M = Machine

  datatype World = World(g: Gateway, bound: map<UserId, Code>, tokens: set<Token>,
                         views: map<SocketId, View>)

  const START := World(Gateway(EMPTY, map[], map[], {}, map[]), map[], {}, map[])

  datatype Act =
    // the HTTP calls
    | Call(op: M.Op)
    // a socket opens; what its client still shows of an earlier room is arbitrary
    | Open(token: Token, socket: SocketId, listing: seq<UserId>, stale: View)
    // a client goes away
    | Drop(socket: SocketId)
    // handleDisconnect of a socket that the server cut off
    | Settle(token: Token)
    | Kick(socket: SocketId, target: UserId)
    | Leave(socket: SocketId, next: UserId)
    | Close(socket: SocketId)
    | Transfer(socket: SocketId, to: UserId)
    | Toggle(socket: SocketId)
    // the first undelivered event reaches the client
    | Deliver(socket: SocketId)

  function Server(w: World): M.System {
    M.System(w.g.store, w.bound, w.tokens)
  }

  predicate Live(w: World, socket: SocketId) {
    socket in w.g.sockets && socket in w.g.queues && socket in w.views
  }

  ghost predicate CanAct(w: World, act: Act) {
    match act
    case Call(op) => (op.Create? || op.Join? || op.Rejoin?) && M.Enabled(Server(w), op)
    case Open(token, socket, listing, _) =>
      && token in w.tokens && socket !in w.g.sockets
      && Lists(listing, MembersOf(w.g.store, token.roomCode))
    case Settle(token) => token in w.g.severed
    case Leave(socket, next) =>
      && Live(w, socket)
      && M.Enabled(Server(w), M.Leave(w.g.sockets[socket].roomCode, w.g.sockets[socket].userId, next))
    case Deliver(socket) => Live(w, socket) && w.g.queues[socket] != []
    case _ => Live(w, act.socket)
  }

  /** The service call inside a handler. */
  function CallOf(w: World, act: Act): Option<M.Op>
    requires CanAct(w, act)
  {
    match act
    case Call(op) => Some(op)
    case Open(token, socket, _, _) => Some(M.Connect(token, socket))
    case Drop(socket) => Some(M.Disconnect(w.g.sockets[socket]))
    case Settle(token) => Some(M.Disconnect(token))
    case Kick(socket, target) =>
      Some(M.Kick(w.g.sockets[socket].userId, w.g.sockets[socket].roomCode, target))
    case Leave(socket, next) =>
      Some(M.Leave(w.g.sockets[socket].roomCode, w.g.sockets[socket].userId, next))
    case Close(socket) => Some(M.Close(w.g.sockets[socket].userId, w.g.sockets[socket].roomCode))
    case Transfer(socket, to) =>
      Some(M.UpdateHost(w.g.sockets[socket].userId, w.g.sockets[socket].roomCode, to))
    case Toggle(socket) =>
      Some(M.ToggleLock(w.g.sockets[socket].userId, w.g.sockets[socket].roomCode))
    case Deliver(_) => None
  }

  function Handled(w: World, act: Act): Gateway
    requires CanAct(w, act)
  {
    match act
    case Call(op) => w.g.(store := M.After(w.g.store, op))
    case Open(token, socket, listing, _) => HandleConnection(w.g, token, socket, listing)
    case Drop(socket) => HandleDisconnect(Remove(w.g, {socket}), w.g.sockets[socket])
    case Settle(token) => HandleDisconnect(w.g, token)
    case Kick(socket, target) => OnKick(w.g, w.g.sockets[socket], target)
    case Leave(socket, next) => OnLeave(w.g, socket, w.g.sockets[socket], next)
    case Close(socket) => OnCloseRoom(w.g, w.g.sockets[socket])
    case Transfer(socket, to) => OnUpdateHost(w.g, w.g.sockets[socket], to)
    case Toggle(socket) => OnToggleLock(w.g, w.g.sockets[socket])
    case Deliver(socket) => w.g.(queues := w.g.queues[socket := w.g.queues[socket][1..]])
  }

  function Step(w: World, act: Act): World
    requires CanAct(w, act)
  {
    var y := if CallOf(w, act).Some? then M.Next(Server(w), CallOf(w, act).value) else Server(w);
    World(Handled(w, act), y.bound, y.tokens,
          match act
          case Open(_, socket, _, stale) => w.views[socket := stale]
          case Deliver(socket) => w.views[socket := Reduce(w.views[socket], w.g.queues[socket][0])]
          case _ => w.views)
  }

  ghost predicate CanActAll(w: World, acts: seq<Act>)
    decreases |acts|
  {
    acts == [] || (CanAct(w, acts[0]) && CanActAll(Step(w, acts[0]), acts[1..]))
  }

  ghost function ActAll(w: World, acts: seq<Act>): World
    requires CanActAll(w, acts)
    decreases |acts|
  {
    if acts == [] then w else ActAll(Step(w, acts[0]), acts[1..])
  }
}
