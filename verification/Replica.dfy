/** Every live client, once its undelivered events have reached it, shows its room as stored. */
module Replica {
  import opened Types
  import opened StoreModel
  import opened GatewayModel
  import opened Client
  import opened Invariant
  import opened Network
  import opened Sockets
  import B = Broadcasts
  import E = Effects
  import L = Liveness
  import M = Machine
  import Do = Operations

  /** The view shows the stored record of room `code`; each user in it as stored, none twice; and
      every connected user of the room. */
  ghost predicate Faithful(s: Store, code: Code, v: View) {
    && code in s.rooms && v.room == Some(s.rooms[code])
    && Distinct(v.members)
    && (forall m :: m in v.members ==> FindUser(s, m.id) == Some(m) && m.roomCode == code)
    && (forall u :: u in s.users && s.users[u].roomCode == code && s.users[u].isConnected ==>
          s.users[u] in v.members)
  }

  /** What socket `socket`'s client will show. */
  function Shown(w: World, socket: SocketId): View
    requires Live(w, socket)
  {
    Fold(w.views[socket], w.g.queues[socket])
  }

  ghost predicate InStep(w: World, socket: SocketId) {
    socket in w.g.sockets && Live(w, socket) ==>
      Faithful(w.g.store, w.g.sockets[socket].roomCode, Shown(w, socket))
  }

  ghost predicate AllInStep(w: World) {
    forall s :: InStep(w, s)
  }

  // ---------- one event ----------

  lemma ReplacedMembers(members: seq<User>, user: User)
    requires Distinct(members)
    ensures Distinct(Replace(members, user))
    ensures forall m :: m in Replace(members, user) <==>
      (m in members && m.id != user.id) || (m == user && Knows(members, user.id))
  {
    var after := Replace(members, user);
    forall m | m in members && m.id != user.id ensures m in after {
      var i :| 0 <= i < |members| && members[i] == m;
      assert after[i] == m;
    }
    if Knows(members, user.id) {
      var i :| 0 <= i < |members| && members[i].id == user.id;
      assert after[i] == user;
    }
  }

  lemma UpsertedMembers(members: seq<User>, user: User)
    requires Distinct(members)
    ensures Distinct(Upsert(members, user))
    ensures forall m :: m in Upsert(members, user) <==> (m in members && m.id != user.id) || m == user
  {
    ReplacedMembers(members, user);
  }

  lemma ConnectedReduces(s: Store, code: Code, v: View, user: User)
    requires Faithful(s, code, v) && FiledById(s) && user.roomCode == code
    requires user.id in s.users && s.users[user.id].roomCode == code
    ensures Faithful(PutUser(s, user), code, Reduce(v, UserConnected(user)))
  {
    UpsertedMembers(v.members, user);
  }

  lemma DisconnectedReduces(s: Store, code: Code, v: View, user: User)
    requires Faithful(s, code, v) && FiledById(s) && user.roomCode == code && !user.isConnected
    requires user.id in s.users && s.users[user.id].roomCode == code
    ensures Faithful(PutUser(s, user), code, Reduce(v, UserDisconnected(user)))
  {
    ReplacedMembers(v.members, user);
  }

  lemma LeftReduces(s: Store, s': Store, code: Code, v: View, user: UserId, reason: Reason)
    requires Faithful(s, code, v) && FiledById(s) && FindRoom(s', code) == FindRoom(s, code)
    requires s'.users == s.users - {user}
    ensures Faithful(s', code, Reduce(v, UserLeft(user, reason)))
  {
    WithoutKeepsTheRest(v.members, user);
    WithoutDistinct(v.members, user);
  }

  lemma HostReduces(s: Store, code: Code, v: View, host: UserId)
    requires Faithful(s, code, v) && s.rooms[code].Complete? && s.rooms[code].code == code
    ensures Faithful(PutRoom(s, s.rooms[code].(hostId := host)), code, Reduce(v, HostUpdated(host)))
  {}

  lemma {:induction false} DetailsListed(s: Store, listing: seq<UserId>)
    requires forall i, j :: 0 <= i < j < |listing| ==> listing[i] != listing[j]
    requires FiledById(s)
    ensures Distinct(Do.Details(s, listing))
    ensures forall m :: m in Do.Details(s, listing) <==> m.id in listing && FindUser(s, m.id) == Some(m)
  {
    if listing == [] {
    } else {
      var rest := Do.Details(s, listing[1..]);
      DetailsListed(s, listing[1..]);
      assert listing == [listing[0]] + listing[1..];
      assert forall m :: m in rest ==> m.id != listing[0];
    }
  }

  /** The snapshot that a new socket is sent. */
  lemma SnapshotFaithful(s: Store, bound: map<UserId, Code>, code: Code, listing: seq<UserId>, stale: View)
    requires SoundStore(s, bound) && code in s.rooms && Lists(listing, MembersOf(s, code))
    ensures Faithful(s, code, Reduce(stale, RoomState(s.rooms[code], Do.Details(s, listing))))
  {
    SoundIsFiled(s, bound);
    DetailsListed(s, listing);
    assert RoomSound(s, bound, code);
    forall m | m in Do.Details(s, listing) ensures m.roomCode == code {
      assert UserSound(s, bound, m.id);
    }
    forall u | u in s.users && s.users[u].roomCode == code
      ensures s.users[u] in Do.Details(s, listing)
    {
      assert UserSound(s, bound, u);
    }
  }

  // ---------- one step, seen from one socket ----------

  /** A call on another room leaves what this room's clients show right. */
  lemma OtherRoomFaithful(y: M.System, op: M.Op, code: Code, v: View)
    requires Sound(y) && M.Enabled(y, op) && !M.StrayKick(y.store, op)
    requires E.RoomOf(y.store, op) != Some(code) && Faithful(y.store, code, v)
    ensures Faithful(M.After(y.store, op), code, v)
  {
    var s, s' := y.store, M.After(y.store, op);
    SoundStep(y, op);
    E.OtherRoomsUntouched(s, y.bound, op, code);
    forall u | u in s.users && s.users[u].roomCode == code ensures FindUser(s', u) == FindUser(s, u) {
      assert UserSound(s, y.bound, u);
      E.OtherUsersUntouched(s, y.bound, op, u);
    }
    forall u | u in s'.users && s'.users[u].roomCode == code && s'.users[u].isConnected
      ensures FindUser(s', u) == FindUser(s, u)
    {
      assert UserSound(s', M.Next(y, op).bound, u);
      if op.Create? || op.Join? { assert UserSound(s, y.bound, op.uid); }
      E.OtherUsersUntouched(s, y.bound, op, u);
    }
  }

  /** `w'` is what a handler whose service call is on another room leaves. */
  lemma ElsewhereInStep(w: World, act: Act, socket: SocketId)
    requires CanAct(w, act) && Linked(w) && InStep(w, socket) && socket in w.g.sockets
    requires CallOf(w, act).Some? && !M.StrayKick(w.g.store, CallOf(w, act).value)
    requires E.RoomOf(w.g.store, CallOf(w, act).value) != Some(w.g.sockets[socket].roomCode)
    requires var g' := Handled(w, act);
      && InRoom(g'.sockets, socket, w.g.sockets[socket].roomCode)
      && socket in g'.queues && g'.queues[socket] == w.g.queues[socket]
    requires Live(w, socket) && Step(w, act).views == w.views
    ensures InStep(Step(w, act), socket)
  {
    StoreFollows(w, act);
    CallEnabled(w, act);
    OtherRoomFaithful(Server(w), CallOf(w, act).value, w.g.sockets[socket].roomCode, Shown(w, socket));
  }

  lemma CallInStep(w: World, act: Act, socket: SocketId)
    requires CanAct(w, act) && Linked(w) && InStep(w, socket) && act.Call?
    ensures InStep(Step(w, act), socket)
  {
    if socket in w.g.sockets {
      assert SocketSigned(w, socket);
      var s, code := w.g.store, w.g.sockets[socket].roomCode;
      if act.op.Create? { FirstFreeIsFree(s, act.op.candidates); }
      if act.op.Join? && act.op.code == code {
        assert RoomSound(s, w.bound, code) && UserSound(s, w.bound, act.op.uid);
      } else {
        ElsewhereInStep(w, act, socket);
      }
    }
  }


  lemma DropInStep(w: World, act: Act, socket: SocketId)
    requires CanAct(w, act) && Linked(w) && InStep(w, socket) && act.Drop?
    ensures InStep(Step(w, act), socket)
  {
    if socket in w.g.sockets && socket != act.socket {
      assert SocketSigned(w, socket) && SocketSigned(w, act.socket);
      var code, session := w.g.sockets[socket].roomCode, w.g.sockets[act.socket];
      if code != session.roomCode {
        ElsewhereInStep(w, act, socket);
      } else if session.userId in w.g.store.users {
        var user := w.g.store.users[session.userId].(isConnected := false, socketId := None);
        assert UserSound(w.g.store, w.bound, session.userId);
        SoundIsFiled(w.g.store, w.bound);
        DisconnectedReduces(w.g.store, code, Shown(w, socket), user);
        FoldEmitted(w.views[socket], w.g.queues[socket], UserDisconnected(user));
      }
    }
  }

  lemma TransferInStep(w: World, act: Act, socket: SocketId)
    requires CanAct(w, act) && Linked(w) && InStep(w, socket) && act.Transfer?
    ensures InStep(Step(w, act), socket)
  {
    if socket in w.g.sockets {
      assert SocketSigned(w, socket);
      var code, session := w.g.sockets[socket].roomCode, w.g.sockets[act.socket];
      assert RoomSound(w.g.store, w.bound, session.roomCode);
      if code != session.roomCode {
        ElsewhereInStep(w, act, socket);
      } else if M.Accepted(w.g.store, CallOf(w, act).value) {
        HostReduces(w.g.store, code, Shown(w, socket), act.to);
        FoldEmitted(w.views[socket], w.g.queues[socket], HostUpdated(act.to));
      }
    }
  }

  lemma ToggleInStep(w: World, act: Act, socket: SocketId)
    requires CanAct(w, act) && Linked(w) && InStep(w, socket) && act.Toggle?
    ensures InStep(Step(w, act), socket)
  {
    if socket in w.g.sockets {
      assert SocketSigned(w, socket);
      var code, session := w.g.sockets[socket].roomCode, w.g.sockets[act.socket];
      assert RoomSound(w.g.store, w.bound, session.roomCode);
      if code != session.roomCode {
        ElsewhereInStep(w, act, socket);
      } else if M.Accepted(w.g.store, CallOf(w, act).value) {
        var locked := !w.g.store.rooms[code].isLocked;
        FoldEmitted(w.views[socket], w.g.queues[socket], LockToggled(locked));
      }
    }
  }


  /** What a successful connection does, in terms of the stored record. */
  lemma OpenedGateway(w: World, act: Act)
    requires CanAct(w, act) && Linked(w) && act.Open? && act.token.userId in w.g.store.users
    ensures var code := act.token.roomCode;
      var user := w.g.store.users[act.token.userId].(isConnected := true, socketId := Some(act.socket));
      var s := PutUser(w.g.store, user);
      && user.roomCode == code && user.id == act.token.userId && code in s.rooms
      && Handled(w, act).store == s && SoundStore(s, w.bound)
      && MembersOf(s, code) == MembersOf(w.g.store, code)
      && Handled(w, act).sockets == w.g.sockets[act.socket := act.token]
      && act.socket in Handled(w, act).queues
      && Handled(w, act).queues[act.socket] ==
           [RoomState(s.rooms[code], Do.Details(s, act.listing)), UserConnected(user)]
  {
    ServerAfter(w, act);
    assert UserSound(w.g.store, w.bound, act.token.userId);
    assert RoomSound(w.g.store, w.bound, act.token.roomCode);
  }

  lemma NewSocketInStep(w: World, act: Act)
    requires CanAct(w, act) && Linked(w) && act.Open?
    ensures InStep(Step(w, act), act.socket)
  {
    if act.token.userId in w.g.store.users {
      OpenedGateway(w, act);
      var code := act.token.roomCode;
      var user := w.g.store.users[act.token.userId].(isConnected := true, socketId := Some(act.socket));
      var s := Handled(w, act).store;
      var state := RoomState(s.rooms[code], Do.Details(s, act.listing));
      SnapshotFaithful(s, w.bound, code, act.listing, act.stale);
      SoundIsFiled(s, w.bound);
      ConnectedReduces(s, code, Reduce(act.stale, state), user);
      assert PutUser(s, user).users == s.users;
      FoldEmitted(act.stale, [state], UserConnected(user));
      assert [state] + [UserConnected(user)] == [state, UserConnected(user)];
      assert Fold(act.stale, [state]) == Fold(Reduce(act.stale, state), []);
    }
  }

  lemma OpenInStep(w: World, act: Act, socket: SocketId)
    requires CanAct(w, act) && Linked(w) && InStep(w, socket) && act.Open? && socket != act.socket
    ensures InStep(Step(w, act), socket)
  {
    if socket in w.g.sockets && act.token.userId in w.g.store.users {
      assert SocketSigned(w, socket);
      OpenedGateway(w, act);
      B.RoomsHearTheirOwn(w, act, socket);
      assert w.g.queues[socket] + [] == w.g.queues[socket];
      var code := w.g.sockets[socket].roomCode;
      var user := w.g.store.users[act.token.userId].(isConnected := true, socketId := Some(act.socket));
      if code == act.token.roomCode {
        assert UserSound(w.g.store, w.bound, act.token.userId);
        SoundIsFiled(w.g.store, w.bound);
        ConnectedReduces(w.g.store, code, Shown(w, socket), user);
        FoldEmitted(w.views[socket], w.g.queues[socket], UserConnected(user));
      } else {
        CallEnabled(w, act);
        StoreFollows(w, act);
        OtherRoomFaithful(Server(w), CallOf(w, act).value, code, Shown(w, socket));
      }
    }
  }

  /** `w'` is what a kick leaves. */
  lemma KickFollowed(w: World, w': World, act: Act, socket: SocketId)
    requires CanAct(w, act) && Linked(w) && InStep(w, socket) && act.Kick?
    requires !M.StrayKick(w.g.store, CallOf(w, act).value)
    requires B.Hears(w, w', socket, B.Heard(w, act, socket))
    requires w'.g.store == M.After(w.g.store, CallOf(w, act).value)
    ensures InStep(w', socket)
  {
    assert SocketSigned(w, act.socket);
    assert w.g.queues[socket] + [] == w.g.queues[socket];
    var s, code := w.g.store, w.g.sockets[socket].roomCode;
    if code != w.g.sockets[act.socket].roomCode {
      OtherRoomFaithful(Server(w), CallOf(w, act).value, code, Shown(w, socket));
    } else if M.MayKick(s, CallOf(w, act).value) {
      SoundIsFiled(s, w.bound);
      LeftReduces(s, w'.g.store, code, Shown(w, socket), act.target, KICKED);
      FoldEmitted(w.views[socket], w.g.queues[socket], UserLeft(act.target, KICKED));
    }
  }

  lemma KickInStep(w: World, act: Act, socket: SocketId)
    requires CanAct(w, act) && Linked(w) && InStep(w, socket) && act.Kick?
    requires !M.StrayKick(w.g.store, CallOf(w, act).value)
    ensures InStep(Step(w, act), socket)
  {
    B.TableAfter(w, act);
    if socket in w.g.sockets && socket !in B.Cut(w, act) {
      B.RoomsHearTheirOwn(w, act, socket);
      StoreFollows(w, act);
      KickFollowed(w, Step(w, act), act, socket);
    }
  }

  /** The last member leaves while another socket of the room is live. */
  ghost predicate EmptiesUnder(w: World, act: Act)
    requires CanAct(w, act)
  {
    && act.Leave?
    && var Token(code, user) := w.g.sockets[act.socket];
       && MembersOf(w.g.store, code) == {user}
       && exists other :: other != act.socket && InRoom(w.g.sockets, other, code)
  }

  lemma LeaveInStep(w: World, act: Act, socket: SocketId)
    requires CanAct(w, act) && Linked(w) && InStep(w, socket) && act.Leave? && !EmptiesUnder(w, act)
    ensures InStep(Step(w, act), socket)
  {
    var w' := Step(w, act);
    if socket in w'.g.sockets {
      assert SocketSigned(w, socket) && SocketSigned(w, act.socket);
      var s, code, session := w.g.store, w.g.sockets[socket].roomCode, w.g.sockets[act.socket];
      if code != session.roomCode {
        ElsewhereInStep(w, act, socket);
      } else if session.userId in MembersOf(s, code) {
        assert InRoom(w.g.sockets, socket, code);
        assert MembersOf(s, code) != {session.userId};
        LeftInStep(w, act, socket);
      }
    }
  }

  lemma LeftInStep(w: World, act: Act, socket: SocketId)
    requires CanAct(w, act) && Linked(w) && InStep(w, socket) && act.Leave?
    requires MembersOf(w.g.store, w.g.sockets[act.socket].roomCode) != {w.g.sockets[act.socket].userId}
    requires socket in w.g.sockets && Live(w, socket) && socket != act.socket
    requires w.g.sockets[socket].roomCode == w.g.sockets[act.socket].roomCode
    requires w.g.sockets[act.socket].userId in MembersOf(w.g.store, w.g.sockets[socket].roomCode)
    ensures InStep(Step(w, act), socket)
  {
    var s, code, user := w.g.store, w.g.sockets[socket].roomCode, w.g.sockets[act.socket].userId;
    var gone := DropUsers(RemoveMember(s, code, user), {user});
    var view, queue, left := w.views[socket], w.g.queues[socket], UserLeft(user, LEFT);
    assert MembersOf(s, code) - {user} != {} by {
      var member :| member in MembersOf(s, code) && member != user;
      assert member in MembersOf(s, code) - {user};
    }
    assert RoomSound(s, w.bound, code);
    SoundIsFiled(s, w.bound);
    LeftReduces(s, gone, code, Shown(w, socket), user, LEFT);
    FoldEmitted(view, queue, left);
    HostReduces(gone, code, Fold(view, queue + [left]), act.next);
    FoldEmitted(view, queue + [left], HostUpdated(act.next));
  }

  lemma CloseInStep(w: World, act: Act, socket: SocketId)
    requires CanAct(w, act) && Linked(w) && InStep(w, socket) && act.Close?
    ensures InStep(Step(w, act), socket)
  {
    if socket in Step(w, act).g.sockets {
      assert SocketSigned(w, socket) && SocketSigned(w, act.socket);
      if w.g.sockets[socket].roomCode != w.g.sockets[act.socket].roomCode {
        ElsewhereInStep(w, act, socket);
      }
    }
  }

  // ---------- runs ----------

  /** A kick that takes effect names a user of the caller's room. */
  ghost predicate KickAtHome(w: World, act: Act)
    requires CanAct(w, act)
  {
    CallOf(w, act).Some? ==> !M.StrayKick(w.g.store, CallOf(w, act).value)
  }

  ghost predicate KicksAtHome(w: World, acts: seq<Act>)
    requires CanActAll(w, acts)
    decreases |acts|
  {
    acts != [] ==> KickAtHome(w, acts[0]) && KicksAtHome(Step(w, acts[0]), acts[1..])
  }

  lemma SocketInStep(w: World, act: Act, socket: SocketId)
    requires CanAct(w, act) && Linked(w) && InStep(w, socket) && KickAtHome(w, act) && !EmptiesUnder(w, act)
    ensures InStep(Step(w, act), socket)
  {
    match act
    case Call(_) => CallInStep(w, act, socket);
    case Open(_, _, _, _) =>
      if socket == act.socket { NewSocketInStep(w, act); } else { OpenInStep(w, act, socket); }
    case Drop(_) => DropInStep(w, act, socket);
    case Settle(_) =>
    case Kick(_, _) => KickInStep(w, act, socket);
    case Leave(_, _) => LeaveInStep(w, act, socket);
    case Close(_) => CloseInStep(w, act, socket);
    case Transfer(_, _) => TransferInStep(w, act, socket);
    case Toggle(_) => ToggleInStep(w, act, socket);
    case Deliver(_) =>
  }

  /** The other socket is left showing a room that is gone. */
  lemma EmptiedUnder(w: World, act: Act)
    requires CanAct(w, act) && Linked(w) && EmptiesUnder(w, act)
    ensures !AllInStep(Step(w, act))
  {
    var w' := Step(w, act);
    var Token(code, user) := w.g.sockets[act.socket];
    var other :| other != act.socket && InRoom(w.g.sockets, other, code);
    assert RoomSound(w.g.store, w.bound, code) && SocketSigned(w, other) && SocketSigned(w, act.socket);
    assert MembersOf(w.g.store, code) - {user} == {};
    assert other in w'.g.sockets && Live(w', other) && code !in w'.g.store.rooms;
    assert !InStep(w', other);
  }

  /** The exact condition for one act with an in-room kick at most. */
  lemma InStepUnlessEmptied(w: World, act: Act)
    requires CanAct(w, act) && Linked(w) && AllInStep(w) && KickAtHome(w, act)
    ensures AllInStep(Step(w, act)) <==> !EmptiesUnder(w, act)
  {
    if EmptiesUnder(w, act) {
      EmptiedUnder(w, act);
    } else {
      forall s ensures InStep(Step(w, act), s) {
        assert InStep(w, s);
        SocketInStep(w, act, s);
      }
    }
  }

  /** In every state of the run. */
  ghost predicate InStepThroughout(w: World, acts: seq<Act>)
    requires CanActAll(w, acts)
    decreases |acts|
  {
    AllInStep(w) && (acts != [] ==> InStepThroughout(Step(w, acts[0]), acts[1..]))
  }

  ghost predicate NeverEmptiesUnder(w: World, acts: seq<Act>)
    requires CanActAll(w, acts)
    decreases |acts|
  {
    acts != [] ==> !EmptiesUnder(w, acts[0]) && NeverEmptiesUnder(Step(w, acts[0]), acts[1..])
  }

  lemma {:induction false} InStepRun(w: World, acts: seq<Act>)
    requires Linked(w) && AllInStep(w) && CanActAll(w, acts) && KicksAtHome(w, acts)
    ensures InStepThroughout(w, acts) <==> NeverEmptiesUnder(w, acts)
    decreases |acts|
  {
    if acts == [] {
    } else {
      var w' := Step(w, acts[0]);
      InStepUnlessEmptied(w, acts[0]);
      LinkedStep(w, acts[0]);
      assert KicksAtHome(w', acts[1..]);
      if AllInStep(w') {
        InStepRun(w', acts[1..]);
      } else {
        assert !InStepThroughout(w', acts[1..]);
      }
    }
  }

  /** Every run with in-room kicks, any number of sockets a user: in every state of it every live
      socket's client, once its queue has been delivered, shows exactly the stored record of its
      room, every user as stored and none twice, and every connected user of the room; if and only
      if in the run no last member ever leaves a room under another live socket. */
  lemma ReplicasConverge(acts: seq<Act>)
    requires CanActAll(START, acts) && KicksAtHome(START, acts)
    ensures InStepThroughout(START, acts) <==> NeverEmptiesUnder(START, acts)
  {
    InStepRun(START, acts);
  }

  // ---------- one live socket a user ----------

  /** While a user's socket is live, their room is not empty. */
  lemma CompanyStays(w: World, act: Act)
    requires CanAct(w, act) && Linked(w) && L.AllTold(w.g) && L.Solitary(w.g.sockets)
    ensures !EmptiesUnder(w, act)
  {
    if act.Leave? {
      var Token(code, user) := w.g.sockets[act.socket];
      forall other | other != act.socket && InRoom(w.g.sockets, other, code)
        ensures w.g.sockets[other].userId in MembersOf(w.g.store, code) && w.g.sockets[other].userId != user
      {
        L.LiveIsStored(w, other);
      }
    }
  }

  lemma {:induction false} OneSocketRun(w: World, acts: seq<Act>)
    requires Linked(w) && L.AllTold(w.g) && L.Solitary(w.g.sockets) && AllInStep(w)
    requires CanActAll(w, acts) && L.OneSocketEach(w, acts) && KicksAtHome(w, acts)
    ensures NeverEmptiesUnder(w, acts) && Linked(ActAll(w, acts)) && AllInStep(ActAll(w, acts))
    decreases |acts|
  {
    if acts == [] {
    } else {
      var w' := Step(w, acts[0]);
      CompanyStays(w, acts[0]);
      InStepUnlessEmptied(w, acts[0]);
      L.SolitaryStep(w, acts[0]);
      L.ToldUnlessOneOfSeveralGoes(w, acts[0]);
      LinkedStep(w, acts[0]);
      assert L.OneSocketEach(w', acts[1..]) && KicksAtHome(w', acts[1..]);
      OneSocketRun(w', acts[1..]);
    }
  }

  /** The demo client's way: with one live socket a user the replicas always converge. */
  lemma OneSocketConverges(acts: seq<Act>, socket: SocketId)
    requires CanActAll(START, acts) && L.OneSocketEach(START, acts) && KicksAtHome(START, acts)
    requires socket in ActAll(START, acts).g.sockets
    ensures var w := ActAll(START, acts);
      && Live(w, socket)
      && Faithful(w.g.store, w.g.sockets[socket].roomCode, Shown(w, socket))
  {
    forall u ensures L.Told(START.g, u) {}
    OneSocketRun(START, acts);
    var w := ActAll(START, acts);
    assert SocketSigned(w, socket) && InStep(w, socket);
  }
}
