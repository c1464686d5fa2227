/** What every atomic run keeps. */
module Invariant {
  import opened Types
  import opened StoreModel
  import opened Machine
  import Do = Operations

  /** A room's keys: the record is complete, filed under its own code and hosted by a member;
      members were created for this room and fit its limit; without a record nobody is left, and
      where nobody is left the member set has no key. */
  ghost predicate RoomSound(s: Store, bound: map<UserId, Code>, code: Code) {
    && (forall u :: u in MembersOf(s, code) ==> u in bound && bound[u] == code)
    && (code in s.members ==> MembersOf(s, code) != {})
    && match FindRoom(s, code)
       case None => MembersOf(s, code) == {}
       case Some(room) =>
         && room.Complete? && room.code == code && room.state == Created
         && room.hostId in MembersOf(s, code)
         && (room.maxUsers != 0 ==> |MembersOf(s, code)| <= room.maxUsers)
  }

  /** A user record: filed under its own id, its owner a member of the room it names. */
  ghost predicate UserSound(s: Store, bound: map<UserId, Code>, user: UserId) {
    match FindUser(s, user)
    case None => true
    case Some(record) =>
      && record.id == user
      && user in bound && bound[user] == record.roomCode
      && user in MembersOf(s, record.roomCode)
      && (record.isConnected <==> record.socketId.Some?)
  }

  ghost predicate SoundStore(s: Store, bound: map<UserId, Code>) {
    && (forall c :: RoomSound(s, bound, c))
    && (forall u :: UserSound(s, bound, u))
  }

  ghost predicate TokensBound(y: System) {
    forall t :: t in y.tokens ==> t.userId in y.bound && y.bound[t.userId] == t.roomCode
  }

  /** The master invariant. */
  ghost predicate Sound(y: System) {
    SoundStore(y.store, y.bound) && TokensBound(y)
  }

  /** Every member has a user record: the direction that stray kicks break. */
  ghost predicate Staffed(s: Store) {
    forall c :: RoomStaffed(s, c)
  }

  ghost predicate RoomStaffed(s: Store, code: Code) {
    forall u :: u in MembersOf(s, code) ==> u in s.users
  }

  lemma SoundIsFiled(s: Store, bound: map<UserId, Code>)
    requires SoundStore(s, bound)
    ensures FiledByCode(s) && FiledById(s)
  {
    forall c | c in s.rooms ensures s.rooms[c].code == c { assert RoomSound(s, bound, c); }
    forall u | u in s.users ensures s.users[u].id == u { assert UserSound(s, bound, u); }
  }

  // ---------- how a step that touches one room keeps the invariant ----------

  /** Only the keys of room `code`, and records of its users, differ. */
  ghost predicate TouchesOnly(s: Store, s': Store, code: Code) {
    && (forall c :: c != code ==> SameRoom(s, s', c))
    && (forall u :: FindUser(s', u) == FindUser(s, u)
                    || (FindUser(s', u).Some? ==> FindUser(s', u).value.roomCode == code))
  }

  lemma SoundAfter(s: Store, s': Store, bound: map<UserId, Code>, bound': map<UserId, Code>,
                   code: Code)
    requires SoundStore(s, bound) && TouchesOnly(s, s', code)
    requires forall u :: u in bound ==> u in bound' && bound'[u] == bound[u]
    requires RoomSound(s', bound', code)
    requires forall u :: FindUser(s', u).Some? && FindUser(s', u).value.roomCode == code
                         ==> UserSound(s', bound', u)
    ensures SoundStore(s', bound')
  {
    forall c ensures RoomSound(s', bound', c) {
      assert RoomSound(s, bound, c);
      assert c == code || SameRoom(s, s', c);
    }
    forall u ensures UserSound(s', bound', u) {
      assert UserSound(s, bound, u);
      if FindUser(s', u).Some? && FindUser(s', u).value.roomCode != code {
        assert SameRoom(s, s', FindUser(s', u).value.roomCode);
      }
    }
  }

  lemma StaffedAfter(s: Store, s': Store, bound: map<UserId, Code>, code: Code)
    requires SoundStore(s, bound) && TouchesOnly(s, s', code)
    requires Staffed(s) && RoomStaffed(s', code)
    requires forall u :: u in s.users && u !in s'.users ==> s.users[u].roomCode == code
    ensures Staffed(s')
  {
    forall c ensures RoomStaffed(s', c) {
      if c != code {
        assert SameRoom(s, s', c) && RoomStaffed(s, c) && RoomSound(s, bound, c);
        forall u | u in MembersOf(s', c) ensures u in s'.users {
          assert UserSound(s, bound, u);
        }
      }
    }
  }

  lemma FirstFreeIsFree(s: Store, candidates: seq<Code>)
    ensures Do.FirstFree(s, candidates).Some? ==> Do.FirstFree(s, candidates).value !in s.rooms
  {}

  lemma CreateSound(s: Store, bound: map<UserId, Code>, code: Code, uid: UserId, name: string,
                    max: nat, t0: Instant, t1: Instant)
    requires SoundStore(s, bound) && uid !in bound && code !in s.rooms
    ensures SoundStore(Do.CreateAt(s, code, uid, name, max, t0, t1), bound[uid := code])
    ensures Staffed(s) ==> Staffed(Do.CreateAt(s, code, uid, name, max, t0, t1))
  {
    var s' := Do.CreateAt(s, code, uid, name, max, t0, t1);
    assert RoomSound(s, bound, code) && UserSound(s, bound, uid);
    assert MembersOf(s', code) == {uid};
    forall u | FindUser(s', u).Some? && FindUser(s', u).value.roomCode == code
      ensures UserSound(s', bound[uid := code], u)
    {
      assert UserSound(s, bound, u);
    }
    SoundAfter(s, s', bound, bound[uid := code], code);
    if Staffed(s) { StaffedAfter(s, s', bound, code); }
  }

  lemma JoinSound(s: Store, bound: map<UserId, Code>, code: Code, uid: UserId, name: string)
    requires SoundStore(s, bound) && uid !in bound
    ensures var (s', r) := Do.Join(s, code, uid, name);
      && SoundStore(s', if r.Success? then bound[uid := code] else bound)
      && (Staffed(s) ==> Staffed(s'))
  {
    var (s', r) := Do.Join(s, code, uid, name);
    if r.Success? {
      assert RoomSound(s, bound, code);
      assert MembersOf(s', code) == MembersOf(s, code) + {uid};
      forall u | FindUser(s', u).Some? && FindUser(s', u).value.roomCode == code
        ensures UserSound(s', bound[uid := code], u)
      {
        assert UserSound(s, bound, u);
      }
      SoundAfter(s, s', bound, bound[uid := code], code);
      if Staffed(s) {
        assert RoomStaffed(s, code);
        StaffedAfter(s, s', bound, code);
      }
    }
  }

  lemma LeaveSound(s: Store, bound: map<UserId, Code>, code: Code, user: UserId, next: UserId)
    requires SoundStore(s, bound)
    requires Do.Leave(s, code, user, next).1 == Success(Some(next)) ==>
      next in MembersOf(s, code) - {user}
    ensures var s' := Do.Leave(s, code, user, next).0;
      SoundStore(s', bound) && (Staffed(s) ==> Staffed(s'))
  {
    var s' := Do.Leave(s, code, user, next).0;
    assert RoomSound(s, bound, code) && UserSound(s, bound, user);
    if user in MembersOf(s, code) {
      assert MembersOf(s', code) == MembersOf(s, code) - {user};
      forall u | FindUser(s', u).Some? && FindUser(s', u).value.roomCode == code
        ensures UserSound(s', bound, u)
      {
        assert UserSound(s, bound, u);
      }
      SoundAfter(s, s', bound, bound, code);
      if Staffed(s) {
        assert RoomStaffed(s, code);
        StaffedAfter(s, s', bound, code);
      }
    }
  }

  lemma KickSound(s: Store, bound: map<UserId, Code>, host: UserId, code: Code, target: UserId)
    requires SoundStore(s, bound)
    ensures var (s', r) := Do.Kick(s, host, code, target);
      && SoundStore(s', bound)
      && (Staffed(s) && (r.Success? ==> s.users[target].roomCode == code) ==> Staffed(s'))
  {
    var (s', r) := Do.Kick(s, host, code, target);
    if r.Success? {
      assert RoomSound(s, bound, code) && UserSound(s, bound, target);
      assert RoomSound(s, bound, s.users[target].roomCode);
      assert MembersOf(s', code) == MembersOf(s, code) - {target};
      forall u | FindUser(s', u).Some? && FindUser(s', u).value.roomCode == code
        ensures UserSound(s', bound, u)
      {
        assert UserSound(s, bound, u);
      }
      SoundAfter(s, s', bound, bound, code);
      if Staffed(s) && s.users[target].roomCode == code {
        assert RoomStaffed(s, code);
        StaffedAfter(s, s', bound, code);
      }
    }
  }

  lemma CloseSound(s: Store, bound: map<UserId, Code>, host: UserId, code: Code)
    requires SoundStore(s, bound)
    ensures var s' := Do.Close(s, host, code).0;
      SoundStore(s', bound) && (Staffed(s) ==> Staffed(s'))
  {
    var (s', r) := Do.Close(s, host, code);
    if r.Success? {
      assert RoomSound(s, bound, code);
      assert MembersOf(s', code) == {};
      forall u | FindUser(s', u).Some? && FindUser(s', u).value.roomCode == code
        ensures UserSound(s', bound, u)
      {
        assert UserSound(s, bound, u);
      }
      SoundAfter(s, s', bound, bound, code);
      if Staffed(s) {
        StaffedAfter(s, s', bound, code) by {
          forall u | u in s.users && u !in s'.users ensures s.users[u].roomCode == code {
            assert UserSound(s, bound, u);
          }
        }
      }
    }
  }

  /** Rewriting one room's record: same code, limit and state, and a member as host. */
  lemma RoomSavedSound(s: Store, bound: map<UserId, Code>, room: Room)
    requires SoundStore(s, bound)
    requires room.Complete? && room.code in s.rooms && room.hostId in MembersOf(s, room.code)
    requires s.rooms[room.code].Complete?
    requires room.maxUsers == s.rooms[room.code].maxUsers && room.state == Created
    ensures SoundStore(PutRoom(s, room), bound)
    ensures Staffed(s) ==> Staffed(PutRoom(s, room))
  {
    var s' := PutRoom(s, room);
    assert RoomSound(s, bound, room.code);
    assert SameMembers(s, s');
    forall u | FindUser(s', u).Some? && FindUser(s', u).value.roomCode == room.code
      ensures UserSound(s', bound, u)
    {
      assert UserSound(s, bound, u);
    }
    SoundAfter(s, s', bound, bound, room.code);
    if Staffed(s) {
      assert RoomStaffed(s, room.code);
      StaffedAfter(s, s', bound, room.code);
    }
  }

  ghost predicate SameMembers(s: Store, s': Store) {
    forall c :: MembersOf(s', c) == MembersOf(s, c) && (c in s'.members <==> c in s.members)
  }

  /** Rewriting one user's connection. */
  lemma UserSavedSound(s: Store, bound: map<UserId, Code>, user: User)
    requires SoundStore(s, bound)
    requires user.id in s.users && user.roomCode == s.users[user.id].roomCode
    requires user.isConnected <==> user.socketId.Some?
    ensures SoundStore(PutUser(s, user), bound)
    ensures Staffed(s) ==> Staffed(PutUser(s, user))
  {
    var s' := PutUser(s, user);
    var code := user.roomCode;
    assert RoomSound(s, bound, code);
    assert SameMembers(s, s');
    forall u | FindUser(s', u).Some? && FindUser(s', u).value.roomCode == code
      ensures UserSound(s', bound, u)
    {
      assert UserSound(s, bound, u);
    }
    SoundAfter(s, s', bound, bound, code);
    if Staffed(s) {
      assert RoomStaffed(s, code);
      StaffedAfter(s, s', bound, code);
    }
  }

  lemma SoundSave(y: System, op: Op)
    requires Sound(y) && (op.UpdateHost? || op.ToggleLock? || op.Connect? || op.Disconnect?)
    ensures SoundStore(After(y.store, op), y.bound)
    ensures Staffed(y.store) ==> Staffed(After(y.store, op))
  {
    var s := y.store;
    if Accepted(s, op) {
      match op
      case UpdateHost(host, code, to) =>
        assert RoomSound(s, y.bound, code);
        RoomSavedSound(s, y.bound, s.rooms[code].(hostId := to));
      case ToggleLock(host, code) =>
        assert RoomSound(s, y.bound, code);
        RoomSavedSound(s, y.bound, s.rooms[code].(isLocked := !s.rooms[code].isLocked));
      case Connect(token, socket) =>
        var record := s.users[token.userId];
        assert UserSound(s, y.bound, token.userId);
        UserSavedSound(s, y.bound, record.(isConnected := true, socketId := Some(socket)));
      case Disconnect(token) =>
        var record := s.users[token.userId];
        assert UserSound(s, y.bound, token.userId);
        UserSavedSound(s, y.bound, record.(isConnected := false, socketId := None));
    }
  }

  lemma SoundStep(y: System, op: Op)
    requires Sound(y) && Enabled(y, op)
    ensures Sound(Next(y, op))
    ensures Staffed(y.store) && !StrayKick(y.store, op) ==> Staffed(Next(y, op).store)
  {
    var s := y.store;
    match op
    case Create(candidates, uid, name, max, t0, t1) =>
      FirstFreeIsFree(s, candidates);
      if Accepted(s, op) {
        CreateSound(s, y.bound, Do.FirstFree(s, candidates).value, uid, name, max, t0, t1);
      }
    case Join(code, uid, name) =>
      assert RoomSound(s, y.bound, code);
      JoinSound(s, y.bound, code, uid, name);
    case Rejoin(url, token) =>
      assert RoomSound(s, y.bound, url);
    case Leave(code, user, next) =>
      LeaveSound(s, y.bound, code, user, next);
    case Kick(host, code, target) =>
      KickSound(s, y.bound, host, code, target);
    case Close(host, code) =>
      CloseSound(s, y.bound, host, code);
    case _ =>
      SoundSave(y, op);
  }

  lemma {:induction false} SoundRun(y: System, ops: seq<Op>)
    requires Sound(y) && Possible(y, ops)
    ensures Sound(Run(y, ops))
    ensures Staffed(y.store) && KicksInRoom(y, ops) ==> Staffed(Run(y, ops).store)
    decreases |ops|
  {
    if ops == [] {
    } else {
      SoundStep(y, ops[0]);
      SoundRun(Next(y, ops[0]), ops[1..]);
    }
  }
}
