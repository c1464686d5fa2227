/** What every act sends and to whom, told by guards on the stored fields and socket by socket.  No
    handler is mentioned, and of the operations only the member lookup of the snapshot. */
module Broadcasts {
  import opened Types
  import opened StoreModel
  import opened GatewayModel
  import opened Client
  import opened Invariant
  import opened Network
  import opened Sockets
  import Do = Operations

  /** The session that an act is made in, if it is made in one. */
  function SessionOf(w: World, act: Act): Option<Token>
    requires CanAct(w, act)
  {
    match act
    case Call(_) => None
    case Deliver(_) => None
    case Open(token, _, _, _) => Some(token)
    case Settle(token) => Some(token)
    case _ => Some(w.g.sockets[act.socket])
  }

  /** The events that an act sends to the live sockets of its session's room, in this order. */
  function News(w: World, act: Act): seq<Event>
    requires CanAct(w, act)
  {
    var s := w.g.store;
    match SessionOf(w, act)
    case None => []
    case Some(Token(code, user)) =>
      var hosts := HostOf(s, code) == Some(user);
      match act
      case Open(_, socket, _, _) =>
        if user in s.users && code in s.rooms
        then [UserConnected(s.users[user].(isConnected := true, socketId := Some(socket)))] else []
      case Drop(_) =>
        if user in s.users
        then [UserDisconnected(s.users[user].(isConnected := false, socketId := None))] else []
      case Kick(_, target) =>
        if hosts && target != user && target in s.users then [UserLeft(target, KICKED)] else []
      case Leave(_, next) =>
        if user !in MembersOf(s, code) then []
        else if hosts && MembersOf(s, code) != {user} then [UserLeft(user, LEFT), HostUpdated(next)]
        else [UserLeft(user, LEFT)]
      case Transfer(_, to) =>
        if hosts && to != user && to in MembersOf(s, code) then [HostUpdated(to)] else []
      case Toggle(_) => if hosts then [LockToggled(!s.rooms[code].isLocked)] else []
      case _ => []
  }

  /** The live sockets that an act takes off the table. */
  function Cut(w: World, act: Act): set<SocketId>
    requires CanAct(w, act)
  {
    var s := w.g.store;
    match SessionOf(w, act)
    case None => {}
    case Some(Token(code, user)) =>
      var hosts := HostOf(s, code) == Some(user);
      match act
      case Drop(socket) => {socket}
      case Kick(_, target) =>
        if hosts && target != user && target in s.users && s.users[target].socketId.Some?
        then {s.users[target].socketId.value} else {}
      case Leave(socket, _) => if user in MembersOf(s, code) then {socket} else {}
      case Close(_) => if hosts then set o | o in w.g.sockets && w.g.sockets[o].roomCode == code else {}
      case _ => {}
  }

  /** What a socket that an act cuts off is sent as the last thing. */
  function LastWords(act: Act): seq<Event> {
    match act
    case Kick(_, _) => [UserKicked]
    case Close(_) => [RoomClosed, RoomClosed]
    case _ => []
  }

  /** What an act sends to this socket as one of its session's room. */
  function Heard(w: World, act: Act, socket: SocketId): seq<Event>
    requires CanAct(w, act)
  {
    var session := SessionOf(w, act);
    if session.Some? && InRoom(w.g.sockets, socket, session.value.roomCode) then News(w, act) else []
  }

  /** The socket stays on the table and has these events in addition under way. */
  ghost predicate Hears(w: World, w': World, socket: SocketId, events: seq<Event>) {
    && socket in w.g.sockets && Live(w, socket) && Live(w', socket)
    && w'.g.sockets[socket] == w.g.sockets[socket]
    && w'.g.queues[socket] == w.g.queues[socket] + events
    && w'.views[socket] == w.views[socket]
  }

  lemma KickHeard(w: World, act: Act, socket: SocketId)
    requires CanAct(w, act) && Linked(w) && act.Kick? && socket in w.g.sockets && socket !in Cut(w, act)
    ensures Hears(w, Step(w, act), socket, Heard(w, act, socket))
  {
    assert SocketSigned(w, socket) && SocketSigned(w, act.socket);
    assert RecordLinked(w.g, act.target);
  }

  lemma LeaveHeard(w: World, act: Act, socket: SocketId)
    requires CanAct(w, act) && Linked(w) && act.Leave? && socket in w.g.sockets && socket !in Cut(w, act)
    ensures Hears(w, Step(w, act), socket, Heard(w, act, socket))
  {
    assert SocketSigned(w, socket) && SocketSigned(w, act.socket);
    assert RoomSound(w.g.store, w.bound, w.g.sockets[act.socket].roomCode);
  }

  lemma RecordHeard(w: World, act: Act, socket: SocketId)
    requires CanAct(w, act) && Linked(w) && (act.Open? || act.Drop? || act.Settle?)
    requires socket in w.g.sockets && socket !in Cut(w, act)
    ensures Hears(w, Step(w, act), socket, Heard(w, act, socket))
  {
    assert SocketSigned(w, socket);
  }

  lemma CloseHeard(w: World, act: Act, socket: SocketId)
    requires CanAct(w, act) && Linked(w) && act.Close? && socket in w.g.sockets && socket !in Cut(w, act)
    ensures Hears(w, Step(w, act), socket, Heard(w, act, socket))
  {
    assert SocketSigned(w, socket) && SocketSigned(w, act.socket);
    assert RoomSound(w.g.store, w.bound, w.g.sockets[act.socket].roomCode);
  }

  lemma RoomHeard(w: World, act: Act, socket: SocketId)
    requires CanAct(w, act) && Linked(w) && (act.Transfer? || act.Toggle?)
    requires socket in w.g.sockets && socket !in Cut(w, act)
    ensures Hears(w, Step(w, act), socket, Heard(w, act, socket))
  {
    assert SocketSigned(w, socket) && SocketSigned(w, act.socket);
    assert RoomSound(w.g.store, w.bound, w.g.sockets[act.socket].roomCode);
  }

  /** Every socket that stays hears the news of its own room, and of no other: exactly these events,
      after what was already under way to it. */
  lemma RoomsHearTheirOwn(w: World, act: Act, socket: SocketId)
    requires CanAct(w, act) && Linked(w) && act != Deliver(socket)
    requires socket in w.g.sockets && socket !in Cut(w, act)
    ensures Hears(w, Step(w, act), socket, Heard(w, act, socket))
  {
    assert SocketSigned(w, socket);
    match act
    case Kick(_, _) => KickHeard(w, act, socket);
    case Leave(_, _) => LeaveHeard(w, act, socket);
    case Close(_) => CloseHeard(w, act, socket);
    case Transfer(_, _) => RoomHeard(w, act, socket);
    case Toggle(_) => RoomHeard(w, act, socket);
    case Call(_) =>
    case Deliver(_) =>
    case _ => RecordHeard(w, act, socket);
  }

  /** A socket let in has its room's snapshot under way, then the news of its own connection. */
  lemma NewcomerHears(w: World, act: Act)
    requires CanAct(w, act) && Linked(w) && act.Open? && act.token.userId in w.g.store.users
    ensures var w' := Step(w, act);
      var code, user := act.token.roomCode, act.token.userId;
      && code in w'.g.store.rooms && user in w'.g.store.users && Live(w', act.socket)
      && w'.g.queues[act.socket] ==
           [RoomState(w'.g.store.rooms[code], Do.Details(w'.g.store, act.listing)),
            UserConnected(w'.g.store.users[user])]
      && w'.g.store.users[user] ==
           w.g.store.users[user].(isConnected := true, socketId := Some(act.socket))
      && w'.views[act.socket] == act.stale
  {
    assert UserSound(w.g.store, w.bound, act.token.userId);
    assert RoomSound(w.g.store, w.bound, act.token.roomCode);
  }

  /** A connection whose room has gone in the meantime is saved, and then the socket is cut off: the
      rooms' clients hear nothing. */
  lemma LateConnection(g: Gateway, token: Token, socket: SocketId, listing: seq<UserId>)
    requires token.userId in g.store.users && token.roomCode !in g.store.rooms && FiledById(g.store)
    ensures var g' := HandleConnection(g, token, socket, listing);
      && g'.sockets == g.sockets && g'.queues == g.queues && g'.farewells == g.farewells
      && g'.severed == g.severed + {token}
      && g'.store.rooms == g.store.rooms && g'.store.members == g.store.members
      && g'.store.users == g.store.users[token.userId :=
           g.store.users[token.userId].(isConnected := true, socketId := Some(socket))]
  {}

  // ---------- who comes and who goes ----------

  /** What a socket that is cut off has yet to receive is what was under way and the last words; its
      session is kept for its handleDisconnect. */
  ghost predicate SaysFarewell(w: World, act: Act, g: Gateway, socket: SocketId)
    requires CanAct(w, act)
  {
    if socket in Cut(w, act) && !act.Drop? then
      && socket in w.g.queues && socket in w.g.sockets && socket in g.farewells
      && g.farewells[socket] == w.g.queues[socket] + LastWords(act)
      && w.g.sockets[socket] in g.severed
    else
      && (socket in g.farewells <==> socket in w.g.farewells)
      && (socket in g.farewells ==> g.farewells[socket] == w.g.farewells[socket])
  }

  lemma KickTable(w: World, act: Act)
    requires CanAct(w, act) && Linked(w) && act.Kick?
    ensures Step(w, act).g.sockets == w.g.sockets - Cut(w, act)
    ensures forall s :: SaysFarewell(w, act, Step(w, act).g, s)
  {
    assert RecordLinked(w.g, act.target) && SocketSigned(w, act.socket);
    if Cut(w, act) == {} {
      assert w.g.sockets - {} == w.g.sockets;
    } else {
      assert SocketSigned(w, w.g.store.users[act.target].socketId.value);
    }
  }

  lemma LeaveTable(w: World, act: Act)
    requires CanAct(w, act) && Linked(w) && act.Leave?
    ensures Step(w, act).g.sockets == w.g.sockets - Cut(w, act)
    ensures forall s :: SaysFarewell(w, act, Step(w, act).g, s)
  {
    assert RoomSound(w.g.store, w.bound, w.g.sockets[act.socket].roomCode);
  }

  lemma OpenTable(w: World, act: Act)
    requires CanAct(w, act) && Linked(w) && act.Open?
    ensures Step(w, act).g.sockets ==
      if act.token.userId in w.g.store.users then w.g.sockets[act.socket := act.token] else w.g.sockets
  {
    assert UserSound(w.g.store, w.bound, act.token.userId);
    assert RoomSound(w.g.store, w.bound, act.token.roomCode);
  }

  lemma CloseTable(w: World, act: Act)
    requires CanAct(w, act) && Linked(w) && act.Close?
    ensures Step(w, act).g.sockets == w.g.sockets - Cut(w, act)
  {
    assert RoomSound(w.g.store, w.bound, w.g.sockets[act.socket].roomCode);
  }

  /** The table loses the sockets that the act cuts and gains at most the one that it opens. */
  lemma TableAfter(w: World, act: Act)
    requires CanAct(w, act) && Linked(w)
    ensures Step(w, act).g.sockets ==
      if act.Open? && act.token.userId in w.g.store.users then w.g.sockets[act.socket := act.token]
      else w.g.sockets - Cut(w, act)
  {
    match act
    case Open(_, _, _, _) => OpenTable(w, act);
    case Kick(_, _) => KickTable(w, act);
    case Leave(_, _) => LeaveTable(w, act);
    case Close(_) => CloseTable(w, act);
    case _ => assert w.g.sockets - {} == w.g.sockets;
  }

  lemma ClosingFarewell(w: World, act: Act, socket: SocketId)
    requires CanAct(w, act) && Linked(w) && act.Close?
    ensures SaysFarewell(w, act, Step(w, act).g, socket)
  {
    assert SocketSigned(w, socket) && SocketSigned(w, act.socket);
    assert RoomSound(w.g.store, w.bound, w.g.sockets[act.socket].roomCode);
  }

  lemma EveryFarewell(w: World, act: Act, socket: SocketId)
    requires CanAct(w, act) && Linked(w)
    ensures SaysFarewell(w, act, Step(w, act).g, socket)
  {
    assert SocketSigned(w, socket);
    match act
    case Kick(_, _) => KickTable(w, act);
    case Leave(_, _) => LeaveTable(w, act);
    case Close(_) => ClosingFarewell(w, act, socket);
    case _ =>
  }

  lemma {:induction false} LastWordsClear(view: View, queue: seq<Event>, words: seq<Event>)
    requires words == [UserKicked] || words == [RoomClosed, RoomClosed]
    ensures Fold(view, queue + words).room == None && Fold(view, queue + words).members == []
  {
    var last := words[|words| - 1];
    var rest := queue + words[..|words| - 1];
    assert queue + words == rest + [last];
    FoldEmitted(view, rest, last);
  }

  /** A client whose room is closed, or whose user is kicked, shows no room and no members once it has
      received everything that it was sent, whatever it showed before. */
  lemma DismissedShowNothing(w: World, act: Act, socket: SocketId, view: View)
    requires CanAct(w, act) && Linked(w) && (act.Kick? || act.Close?) && socket in Cut(w, act)
    ensures var g := Step(w, act).g;
      && socket !in g.sockets && socket in g.farewells
      && Fold(view, g.farewells[socket]).room == None && Fold(view, g.farewells[socket]).members == []
  {
    TableAfter(w, act);
    EveryFarewell(w, act, socket);
    LastWordsClear(view, w.g.queues[socket], LastWords(act));
  }

  // ---------- runs ----------

  /** The socket is live in every state of the run. */
  ghost predicate Stays(w: World, acts: seq<Act>, socket: SocketId)
    requires CanActAll(w, acts)
    decreases |acts|
  {
    socket in w.g.sockets && (acts != [] ==> Stays(Step(w, acts[0]), acts[1..], socket))
  }

  /** What the acts of the run send to it. */
  ghost function Sent(w: World, acts: seq<Act>, socket: SocketId): seq<Event>
    requires CanActAll(w, acts)
    decreases |acts|
  {
    if acts == [] then [] else Heard(w, acts[0], socket) + Sent(Step(w, acts[0]), acts[1..], socket)
  }

  /** What reaches its client in the run. */
  ghost function Received(w: World, acts: seq<Act>, socket: SocketId): seq<Event>
    requires CanActAll(w, acts)
    decreases |acts|
  {
    if acts == [] then []
    else (if acts[0] == Deliver(socket) then [w.g.queues[socket][0]] else [])
         + Received(Step(w, acts[0]), acts[1..], socket)
  }

  lemma OneActArrives(w: World, act: Act, socket: SocketId)
    requires CanAct(w, act) && Linked(w) && socket in w.g.sockets && socket in Step(w, act).g.sockets
    ensures var w' := Step(w, act);
      && socket in w.g.queues && socket in w'.g.queues
      && w.g.queues[socket] + Heard(w, act, socket)
         == (if act == Deliver(socket) then [w.g.queues[socket][0]] else []) + w'.g.queues[socket]
  {
    assert SocketSigned(w, socket);
    if act != Deliver(socket) {
      TableAfter(w, act);
      RoomsHearTheirOwn(w, act, socket);
    }
  }

  lemma OneAfterAnother(a: seq<Event>, heard: seq<Event>, sent: seq<Event>, first: seq<Event>,
                        b: seq<Event>, received: seq<Event>, c: seq<Event>)
    requires a + heard == first + b && b + sent == received + c
    ensures a + (heard + sent) == (first + received) + c
  {
    assert a + (heard + sent) == (a + heard) + sent;
    assert (first + b) + sent == first + (b + sent);
    assert first + (received + c) == (first + received) + c;
  }

  /** While a socket stays, its client receives exactly what its room is sent, in that order and once
      each: what was under way and what is sent is what arrives and what is then under way. */
  lemma {:induction false} EventsArriveInOrder(w: World, acts: seq<Act>, socket: SocketId)
    requires Linked(w) && CanActAll(w, acts) && Stays(w, acts, socket)
    ensures socket in w.g.queues && socket in ActAll(w, acts).g.queues
    ensures w.g.queues[socket] + Sent(w, acts, socket)
            == Received(w, acts, socket) + ActAll(w, acts).g.queues[socket]
    decreases |acts|
  {
    if acts == [] {
      assert SocketSigned(w, socket);
      assert w.g.queues[socket] + [] == [] + w.g.queues[socket];
    } else {
      var w', rest := Step(w, acts[0]), acts[1..];
      assert Stays(w', rest, socket) && socket in w'.g.sockets;
      OneActArrives(w, acts[0], socket);
      LinkedStep(w, acts[0]);
      EventsArriveInOrder(w', rest, socket);
      var first := if acts[0] == Deliver(socket) then [w.g.queues[socket][0]] else [];
      OneAfterAnother(w.g.queues[socket], Heard(w, acts[0], socket), Sent(w', rest, socket), first,
                      w'.g.queues[socket], Received(w', rest, socket), ActAll(w', rest).g.queues[socket]);
    }
  }
}
