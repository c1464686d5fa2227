/** Which socket stands for which user, over every run of the gateway. */
module Sockets {
  import opened Types
  import opened StoreModel
  import opened GatewayModel
  import opened Invariant
  import opened Network
  import L = Lifecycle
  import M = Machine
  import Do = Operations

  /** A record's socket is live, and bound to that user and room. */
  ghost predicate RecordLinked(g: Gateway, user: UserId) {
    match FindUser(g.store, user)
    case Some(User(_, _, code, _, Some(socket))) =>
      socket in g.sockets && g.sockets[socket] == Token(code, user)
    case _ => true
  }

  ghost predicate SocketSigned(w: World, socket: SocketId) {
    socket in w.g.sockets ==>
      && w.g.sockets[socket] in w.tokens
      && socket in w.g.queues && socket in w.views
  }

  ghost predicate Linked(w: World) {
    && Sound(Server(w))
    && (forall s :: SocketSigned(w, s))
    && (forall u :: RecordLinked(w.g, u))
    && SeveredDead(w)
  }

  /** The users of the sockets that the server cut off are gone. */
  ghost predicate SeveredDead(w: World) {
    forall t :: t in w.g.severed ==> t in w.tokens && L.Dead(Server(w), t.userId)
  }

  /** The handler's store is the one that its service call leaves. */
  lemma StoreFollows(w: World, act: Act)
    requires CanAct(w, act)
    ensures CallOf(w, act).Some? ==> Handled(w, act).store == M.After(w.g.store, CallOf(w, act).value)
    ensures CallOf(w, act).None? ==> Handled(w, act).store == w.g.store
  {}

  lemma CallEnabled(w: World, act: Act)
    requires CanAct(w, act) && Linked(w) && CallOf(w, act).Some?
    ensures M.Enabled(Server(w), CallOf(w, act).value)
  {
    if act.Drop? { assert SocketSigned(w, act.socket); }
  }

  /** The service call keeps the server sound and the dead dead. */
  lemma ServerAfter(w: World, act: Act)
    requires CanAct(w, act) && Linked(w)
    ensures Sound(Server(Step(w, act))) && w.tokens <= Step(w, act).tokens
    ensures forall t :: t in w.g.severed ==> L.Dead(Server(Step(w, act)), t.userId)
    ensures CallOf(w, act).Some? ==> Server(Step(w, act)) == M.Next(Server(w), CallOf(w, act).value)
    ensures CallOf(w, act).None? ==> Server(Step(w, act)) == Server(w)
  {
    StoreFollows(w, act);
    if CallOf(w, act).Some? {
      var op := CallOf(w, act).value;
      CallEnabled(w, act);
      SoundStep(Server(w), op);
      forall t | t in w.g.severed ensures L.Dead(M.Next(Server(w), op), t.userId) {
        assert M.Run(Server(w), [op]) == M.Run(M.Next(Server(w), op), []);
        L.DeathIsPermanent(Server(w), [op], t.userId);
      }
    }
  }

  /** The sockets in `gone` have left the table and no record names them any more. */
  lemma LinkedAfter(w: World, w': World, gone: set<SocketId>)
    requires Linked(w) && Sound(Server(w')) && w.tokens <= w'.tokens && SeveredDead(w')
    requires w'.g.sockets == w.g.sockets - gone
    requires forall s :: s in w'.g.sockets ==> s in w'.g.queues && s in w'.views
    requires forall u :: u in w'.g.store.users && w'.g.store.users[u].socketId.Some? ==>
      && FindUser(w.g.store, u) == FindUser(w'.g.store, u)
      && w'.g.store.users[u].socketId.value !in gone
    ensures Linked(w')
  {
    forall s ensures SocketSigned(w', s) { assert SocketSigned(w, s); }
    forall u ensures RecordLinked(w'.g, u) { assert RecordLinked(w.g, u); }
  }

  lemma LinkedCall(w: World, act: Act)
    requires CanAct(w, act) && Linked(w) && (act.Call? || act.Transfer? || act.Toggle? || act.Deliver?)
    ensures Linked(Step(w, act))
  {
    ServerAfter(w, act);
    forall s ensures s in w.g.sockets ==> s in w.g.queues && s in w.views { assert SocketSigned(w, s); }
    LinkedAfter(w, Step(w, act), {});
  }

  lemma OpenSigned(w: World, act: Act, s: SocketId)
    requires CanAct(w, act) && Linked(w) && act.Open?
    ensures SocketSigned(Step(w, act), s)
  {
    assert SocketSigned(w, s);
  }

  lemma OpenRecorded(w: World, act: Act, u: UserId)
    requires CanAct(w, act) && Linked(w) && act.Open?
    ensures RecordLinked(Handled(w, act), u)
  {
    assert RecordLinked(w.g, u);
    assert UserSound(w.g.store, w.bound, act.token.userId);
    assert RoomSound(w.g.store, w.bound, act.token.roomCode);
  }

  lemma LinkedOpen(w: World, act: Act)
    requires CanAct(w, act) && Linked(w) && act.Open?
    ensures Linked(Step(w, act))
  {
    ServerAfter(w, act);
    if act.token.userId in w.g.store.users {
      assert UserSound(w.g.store, w.bound, act.token.userId);
      assert RoomSound(w.g.store, w.bound, act.token.roomCode);
    }
    forall s ensures SocketSigned(Step(w, act), s) { OpenSigned(w, act, s); }
    forall u ensures RecordLinked(Handled(w, act), u) { OpenRecorded(w, act, u); }
  }

  /** A client gone, or the late news of one cut off. */
  lemma LinkedDisconnect(w: World, act: Act)
    requires CanAct(w, act) && Linked(w) && (act.Drop? || act.Settle?)
    ensures Linked(Step(w, act))
  {
    var w' := Step(w, act);
    ServerAfter(w, act);
    forall s ensures SocketSigned(w', s) { assert SocketSigned(w, s); }
    if act.Drop? { assert SocketSigned(w, act.socket); }
    forall u ensures RecordLinked(w'.g, u) {
      assert RecordLinked(w.g, u);
      if act.Drop? && u == w.g.sockets[act.socket].userId { assert UserSound(w.g.store, w.bound, u); }
    }
  }

  lemma LinkedKick(w: World, act: Act)
    requires CanAct(w, act) && Linked(w) && act.Kick?
    ensures Linked(Step(w, act))
  {
    var w' := Step(w, act);
    ServerAfter(w, act);
    assert RecordLinked(w.g, act.target) && UserSound(w.g.store, w.bound, act.target);
    forall s ensures s in w.g.sockets ==> s in w.g.queues && s in w.views { assert SocketSigned(w, s); }
    var session := w.g.sockets[act.socket];
    var r := Do.Kick(w.g.store, session.userId, session.roomCode, act.target).1;
    var gone := if r.Success? && r.value.Some? then {r.value.value} else {};
    if gone != {} { assert SocketSigned(w, r.value.value); }
    forall u | u in w'.g.store.users && w'.g.store.users[u].socketId.Some?
      ensures FindUser(w.g.store, u) == FindUser(w'.g.store, u)
      ensures w'.g.store.users[u].socketId.value !in gone
    {
      assert RecordLinked(w.g, u);
    }
    LinkedAfter(w, w', gone);
  }

  lemma LinkedLeave(w: World, act: Act)
    requires CanAct(w, act) && Linked(w) && act.Leave?
    ensures Linked(Step(w, act))
  {
    var w' := Step(w, act);
    var session := w.g.sockets[act.socket];
    ServerAfter(w, act);
    assert SocketSigned(w, act.socket);
    forall s ensures s in w.g.sockets ==> s in w.g.queues && s in w.views { assert SocketSigned(w, s); }
    var op := CallOf(w, act).value;
    var gone := if M.Accepted(w.g.store, op) then {act.socket} else {};
    CallEnabled(w, act);
    if M.Accepted(w.g.store, op) { L.DepartureKills(Server(w), op, session.userId); }
    forall u | u in w'.g.store.users && w'.g.store.users[u].socketId.Some?
      ensures FindUser(w.g.store, u) == FindUser(w'.g.store, u)
      ensures w'.g.store.users[u].socketId.value !in gone
    {
      assert RecordLinked(w.g, u);
    }
    LinkedAfter(w, w', gone);
  }

  lemma ClosedRoomIsDead(w: World, act: Act, socket: SocketId)
    requires CanAct(w, act) && Linked(w) && act.Close? && M.Accepted(w.g.store, CallOf(w, act).value)
    requires InRoom(w.g.sockets, socket, w.g.sockets[act.socket].roomCode)
    ensures w.g.sockets[socket] in w.tokens
    ensures L.Dead(Server(Step(w, act)), w.g.sockets[socket].userId)
  {
    var user := w.g.sockets[socket].userId;
    var code := w.g.sockets[act.socket].roomCode;
    ServerAfter(w, act);
    assert SocketSigned(w, socket) && UserSound(w.g.store, w.bound, user);
    if user in MembersOf(w.g.store, code) {
      CallEnabled(w, act);
      L.DepartureKills(Server(w), CallOf(w, act).value, user);
    }
  }

  lemma LinkedClose(w: World, act: Act)
    requires CanAct(w, act) && Linked(w) && act.Close?
    ensures Linked(Step(w, act))
  {
    var w' := Step(w, act);
    var code := w.g.sockets[act.socket].roomCode;
    ServerAfter(w, act);
    forall s ensures s in w.g.sockets ==> s in w.g.queues && s in w.views { assert SocketSigned(w, s); }
    var accepted := M.Accepted(w.g.store, CallOf(w, act).value);
    var gone := set s | s in w.g.sockets && accepted && InRoom(w.g.sockets, s, code);
    forall t | t in w'.g.severed ensures t in w'.tokens && L.Dead(Server(w'), t.userId) {
      if t !in w.g.severed {
        var s :| s in gone && w.g.sockets[s] == t;
        ClosedRoomIsDead(w, act, s);
      }
    }
    forall u | u in w'.g.store.users && w'.g.store.users[u].socketId.Some?
      ensures FindUser(w.g.store, u) == FindUser(w'.g.store, u)
      ensures w'.g.store.users[u].socketId.value !in gone
    {
      assert RecordLinked(w.g, u);
      if accepted {
        assert UserSound(w.g.store, w.bound, u);
      }
    }
    LinkedAfter(w, w', gone);
  }

  lemma LinkedStep(w: World, act: Act)
    requires CanAct(w, act) && Linked(w)
    ensures Linked(Step(w, act))
  {
    match act
    case Open(_, _, _, _) => LinkedOpen(w, act);
    case Drop(_) => LinkedDisconnect(w, act);
    case Settle(_) => LinkedDisconnect(w, act);
    case Kick(_, _) => LinkedKick(w, act);
    case Leave(_, _) => LinkedLeave(w, act);
    case Close(_) => LinkedClose(w, act);
    case _ => LinkedCall(w, act);
  }

  lemma {:induction false} LinkedRun(w: World, acts: seq<Act>)
    requires Linked(w) && CanActAll(w, acts)
    ensures Linked(ActAll(w, acts))
    decreases |acts|
  {
    if acts == [] {
    } else {
      LinkedStep(w, acts[0]);
      LinkedRun(Step(w, acts[0]), acts[1..]);
    }
  }

  /** Every run: a record is connected exactly when it names a socket; that socket is live and
      bound to that user and room; so no two users ever share one. */
  lemma SocketsAreBound(acts: seq<Act>)
    requires CanActAll(START, acts)
    ensures var g := ActAll(START, acts).g;
      && (forall u :: u in g.store.users ==>
            (g.store.users[u].isConnected <==> g.store.users[u].socketId.Some?))
      && (forall u :: u in g.store.users && g.store.users[u].socketId.Some? ==>
            var socket := g.store.users[u].socketId.value;
            socket in g.sockets && g.sockets[socket] == Token(g.store.users[u].roomCode, u))
      && (forall u, v :: u in g.store.users && v in g.store.users && u != v
                         && g.store.users[u].socketId.Some? ==>
            g.store.users[u].socketId != g.store.users[v].socketId)
  {
    LinkedRun(START, acts);
    var w := ActAll(START, acts);
    forall u | u in w.g.store.users
      ensures w.g.store.users[u].isConnected <==> w.g.store.users[u].socketId.Some?
    {
      assert UserSound(w.g.store, w.bound, u);
    }
    forall u | u in w.g.store.users && w.g.store.users[u].socketId.Some?
      ensures var socket := w.g.store.users[u].socketId.value;
        socket in w.g.sockets && w.g.sockets[socket] == Token(w.g.store.users[u].roomCode, u)
    {
      assert RecordLinked(w.g, u);
    }
  }
}
