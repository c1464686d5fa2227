/** When being stored as connected and having a live socket are the same. */
module Liveness {
  import opened Types
  import opened StoreModel
  import opened GatewayModel
  import opened Invariant
  import opened Network
  import opened Sockets
  import M = Machine

  type Table = map<SocketId, Token>

  ghost predicate HasLive(sockets: Table, user: UserId) {
    exists s :: s in sockets && sockets[s].userId == user
  }

  predicate Connected(s: Store, user: UserId) {
    user in s.users && s.users[user].isConnected
  }

  /** The record tells whether the user has a live socket. */
  ghost predicate Told(g: Gateway, user: UserId) {
    HasLive(g.sockets, user) <==> Connected(g.store, user)
  }

  ghost predicate AllTold(g: Gateway) {
    forall u :: Told(g, u)
  }

  /** A live socket whose user has another. */
  ghost predicate Shared(sockets: Table, socket: SocketId) {
    socket in sockets && exists other ::
      other in sockets && other != socket && sockets[other].userId == sockets[socket].userId
  }

  lemma LiveWithout(sockets: Table, socket: SocketId, user: UserId)
    requires socket in sockets
    ensures HasLive(sockets - {socket}, user) <==>
      if user == sockets[socket].userId then Shared(sockets, socket) else HasLive(sockets, user)
  {
    var rest := sockets - {socket};
    if s :| s in rest && rest[s].userId == user { assert s in sockets && sockets[s].userId == user; }
    if user == sockets[socket].userId && Shared(sockets, socket) {
      var s :| s in sockets && s != socket && sockets[s].userId == user;
      assert s in rest && rest[s].userId == user;
    }
    if user != sockets[socket].userId && HasLive(sockets, user) {
      var s :| s in sockets && sockets[s].userId == user;
      assert s in rest && rest[s].userId == user;
    }
  }

  /** What goes is one of several sockets of its user: a client drops it, leaves through it, or is
      kicked while the record names it. */
  ghost predicate LosesOneOfSeveral(w: World, act: Act)
    requires CanAct(w, act)
  {
    match act
    case Drop(socket) => Shared(w.g.sockets, socket)
    case Leave(socket, _) => Shared(w.g.sockets, socket)
    case Kick(_, target) =>
      && M.MayKick(w.g.store, CallOf(w, act).value)
      && w.g.store.users[target].socketId.Some? && Shared(w.g.sockets, w.g.store.users[target].socketId.value)
    case _ => false
  }

  // ---------- one act ----------

  /** The users whose sockets were cut off are gone, so late news of them changes nothing. */
  lemma CallTold(w: World, act: Act, user: UserId)
    requires CanAct(w, act) && Linked(w) && AllTold(w.g)
    requires act.Call? || act.Transfer? || act.Toggle? || act.Deliver? || act.Settle?
    ensures Told(Step(w, act).g, user)
  {
    StoreFollows(w, act);
    assert Told(w.g, user);
    if s :| s in w.g.sockets && w.g.sockets[s].userId == user { assert SocketSigned(w, s); }
  }

  lemma OpenTold(w: World, act: Act, user: UserId)
    requires CanAct(w, act) && Linked(w) && AllTold(w.g) && act.Open?
    ensures Told(Step(w, act).g, user)
  {
    var g := Step(w, act).g;
    assert Told(w.g, user) && UserSound(w.g.store, w.bound, act.token.userId);
    assert RoomSound(w.g.store, w.bound, act.token.roomCode);
    if s :| s in w.g.sockets && w.g.sockets[s].userId == user {
      assert s in g.sockets && g.sockets[s].userId == user;
    }
    if s :| s in g.sockets && g.sockets[s].userId == user && user != act.token.userId {
      assert s in w.g.sockets && w.g.sockets[s].userId == user;
    }
    if user == act.token.userId && user in w.g.store.users {
      assert act.socket in g.sockets && g.sockets[act.socket].userId == user;
    }
  }

  lemma CloseTold(w: World, act: Act, user: UserId)
    requires CanAct(w, act) && Linked(w) && AllTold(w.g) && act.Close?
    ensures Told(Step(w, act).g, user)
  {
    var g, code := Step(w, act).g, w.g.sockets[act.socket].roomCode;
    assert Told(w.g, user) && UserSound(w.g.store, w.bound, user) && RoomSound(w.g.store, w.bound, code);
    forall s | s in w.g.sockets && w.g.sockets[s].userId == user
      ensures user in w.g.store.users && w.g.sockets[s].roomCode == w.g.store.users[user].roomCode
    {
      assert SocketSigned(w, s) && HasLive(w.g.sockets, user);
    }
    if HasLive(w.g.sockets, user) && user in g.store.users {
      var s :| s in w.g.sockets && w.g.sockets[s].userId == user;
      assert s in g.sockets && g.sockets[s].userId == user;
    }
    if HasLive(g.sockets, user) {
      var s :| s in g.sockets && g.sockets[s].userId == user;
      assert s in w.g.sockets && w.g.sockets[s].userId == user;
    }
  }

  /** A user who has a live socket is in the store. */
  lemma LiveIsStored(w: World, socket: SocketId)
    requires Linked(w) && AllTold(w.g) && socket in w.g.sockets
    ensures w.g.sockets[socket].userId in w.g.store.users
    ensures w.g.sockets[socket].userId in MembersOf(w.g.store, w.g.sockets[socket].roomCode)
  {
    var user := w.g.sockets[socket].userId;
    assert HasLive(w.g.sockets, user) && Told(w.g, user);
    assert SocketSigned(w, socket) && UserSound(w.g.store, w.bound, user);
  }

  /** Only one user's connection and only one socket of that user have gone. */
  lemma OneGoneTold(g: Gateway, g': Gateway, socket: SocketId)
    requires AllTold(g) && socket in g.sockets && g'.sockets == g.sockets - {socket}
    requires !Connected(g'.store, g.sockets[socket].userId)
    requires forall u :: u != g.sockets[socket].userId ==> Connected(g'.store, u) == Connected(g.store, u)
    ensures AllTold(g') <==> !Shared(g.sockets, socket)
  {
    var user := g.sockets[socket].userId;
    LiveWithout(g.sockets, socket, user);
    assert Told(g', user) <==> !Shared(g.sockets, socket);
    forall u | u != user ensures Told(g', u) {
      assert Told(g, u);
      LiveWithout(g.sockets, socket, u);
    }
  }

  lemma DropTold(w: World, act: Act)
    requires CanAct(w, act) && Linked(w) && AllTold(w.g) && act.Drop?
    ensures AllTold(Step(w, act).g) <==> !LosesOneOfSeveral(w, act)
  {
    var user := w.g.sockets[act.socket].userId;
    LiveIsStored(w, act.socket);
    assert UserSound(w.g.store, w.bound, user);
    OneGoneTold(w.g, Step(w, act).g, act.socket);
  }

  lemma LeaveTold(w: World, act: Act)
    requires CanAct(w, act) && Linked(w) && AllTold(w.g) && act.Leave?
    ensures AllTold(Step(w, act).g) <==> !LosesOneOfSeveral(w, act)
  {
    LiveIsStored(w, act.socket);
    OneGoneTold(w.g, Step(w, act).g, act.socket);
  }

  lemma KickTold(w: World, act: Act)
    requires CanAct(w, act) && Linked(w) && AllTold(w.g) && act.Kick?
    ensures AllTold(Step(w, act).g) <==> !LosesOneOfSeveral(w, act)
  {
    var g, target := Step(w, act).g, act.target;
    assert Told(w.g, target) && RecordLinked(w.g, target) && UserSound(w.g.store, w.bound, target);
    if M.MayKick(w.g.store, CallOf(w, act).value) {
      match w.g.store.users[target].socketId
      case Some(socket) =>
        assert SocketSigned(w, socket);
        OneGoneTold(w.g, g, socket);
      case None =>
        forall u ensures Told(g, u) { assert Told(w.g, u); }
    } else {
      assert g == w.g;
    }
  }

  lemma OtherTold(w: World, act: Act)
    requires CanAct(w, act) && Linked(w) && AllTold(w.g) && !(act.Drop? || act.Leave? || act.Kick?)
    ensures AllTold(Step(w, act).g)
  {
    forall u ensures Told(Step(w, act).g, u) {
      match act
      case Open(_, _, _, _) => OpenTold(w, act, u);
      case Close(_) => CloseTold(w, act, u);
      case _ => CallTold(w, act, u);
    }
  }

  /** The exact condition: an act that starts where every record tells whether its user has a live
      socket ends in such a state if and only if it does not take one of several sockets. */
  lemma ToldUnlessOneOfSeveralGoes(w: World, act: Act)
    requires CanAct(w, act) && Linked(w) && AllTold(w.g)
    ensures AllTold(Step(w, act).g) <==> !LosesOneOfSeveral(w, act)
  {
    match act
    case Drop(_) => DropTold(w, act);
    case Leave(_, _) => LeaveTold(w, act);
    case Kick(_, _) => KickTold(w, act);
    case _ => OtherTold(w, act);
  }

  // ---------- runs ----------

  /** In every state of the run. */
  ghost predicate ToldThroughout(w: World, acts: seq<Act>)
    requires CanActAll(w, acts)
    decreases |acts|
  {
    AllTold(w.g) && (acts != [] ==> ToldThroughout(Step(w, acts[0]), acts[1..]))
  }

  ghost predicate KeepsLast(w: World, acts: seq<Act>)
    requires CanActAll(w, acts)
    decreases |acts|
  {
    acts != [] ==> !LosesOneOfSeveral(w, acts[0]) && KeepsLast(Step(w, acts[0]), acts[1..])
  }

  lemma {:induction false} ToldRun(w: World, acts: seq<Act>)
    requires Linked(w) && AllTold(w.g) && CanActAll(w, acts)
    ensures ToldThroughout(w, acts) <==> KeepsLast(w, acts)
    decreases |acts|
  {
    if acts == [] {
    } else {
      var w' := Step(w, acts[0]);
      ToldUnlessOneOfSeveralGoes(w, acts[0]);
      LinkedStep(w, acts[0]);
      if AllTold(w'.g) {
        ToldRun(w', acts[1..]);
      } else {
        assert !ToldThroughout(w', acts[1..]);
      }
    }
  }

  /** Every run, any number of sockets a user: being stored as connected and having a live socket
      are the same for every user in every state of it, if and only if it never takes one of
      several live sockets of a user. */
  lemma LivenessIsConnection(acts: seq<Act>)
    requires CanActAll(START, acts)
    ensures ToldThroughout(START, acts) <==> KeepsLast(START, acts)
  {
    forall u ensures Told(START.g, u) {}
    ToldRun(START, acts);
  }

  // ---------- one live socket a user ----------

  ghost predicate Alone(w: World, act: Act) {
    act.Open? ==> forall s :: s in w.g.sockets ==> w.g.sockets[s].userId != act.token.userId
  }

  /** Nobody opens a socket while an earlier one of theirs is live. */
  ghost predicate OneSocketEach(w: World, acts: seq<Act>)
    requires CanActAll(w, acts)
    decreases |acts|
  {
    acts != [] ==> Alone(w, acts[0]) && OneSocketEach(Step(w, acts[0]), acts[1..])
  }

  /** No two live sockets are one user's. */
  ghost predicate Solitary(sockets: Table) {
    forall s, other :: s in sockets && other in sockets && sockets[s].userId == sockets[other].userId ==> s == other
  }

  /** Only an opening adds a socket. */
  lemma OnlyOpeningAdds(w: World, act: Act, s: SocketId)
    requires CanAct(w, act) && s in Step(w, act).g.sockets
    ensures var session := Step(w, act).g.sockets[s];
      (s in w.g.sockets && session == w.g.sockets[s]) || (act.Open? && s == act.socket && session == act.token)
  {}

  lemma SolitaryStep(w: World, act: Act)
    requires CanAct(w, act) && Solitary(w.g.sockets) && Alone(w, act)
    ensures Solitary(Step(w, act).g.sockets) && !LosesOneOfSeveral(w, act)
  {
    var sockets := Step(w, act).g.sockets;
    forall s, other | s in sockets && other in sockets && sockets[s].userId == sockets[other].userId
      ensures s == other
    {
      OnlyOpeningAdds(w, act, s);
      OnlyOpeningAdds(w, act, other);
    }
  }

  /** The demo client's way: if nobody opens a socket while an earlier one of theirs is live, then
      every record always tells. */
  lemma {:induction false} OneSocketRun(w: World, acts: seq<Act>)
    requires Linked(w) && AllTold(w.g) && Solitary(w.g.sockets)
    requires CanActAll(w, acts) && OneSocketEach(w, acts)
    ensures KeepsLast(w, acts) && AllTold(ActAll(w, acts).g)
    decreases |acts|
  {
    if acts == [] {
    } else {
      SolitaryStep(w, acts[0]);
      ToldUnlessOneOfSeveralGoes(w, acts[0]);
      LinkedStep(w, acts[0]);
      assert OneSocketEach(Step(w, acts[0]), acts[1..]);
      OneSocketRun(Step(w, acts[0]), acts[1..]);
    }
  }

  lemma OneSocketIsEnough(acts: seq<Act>)
    requires CanActAll(START, acts) && OneSocketEach(START, acts)
    ensures KeepsLast(START, acts) && AllTold(ActAll(START, acts).g)
  {
    forall u ensures Told(START.g, u) {}
    OneSocketRun(START, acts);
  }
}
