/** What every call answers and changes, told by guards and key by key: the service and its
    operations are not mentioned. */
module Ledger {
  import opened Types
  import opened StoreModel
  import opened Machine
  import opened Invariant
  import A = Authority
  import Do = Operations

  // ---------- refusals ----------

  /** A ground on which a call is refused, and the error that it is refused with. */
  datatype Ground = Ground(holds: bool, error: Error)

  ghost function NotTheHost(s: Store, code: Code, user: UserId): seq<Ground> {
    [Ground(code !in s.rooms, RoomNotFound), Ground(HostOf(s, code) != Some(user), NotHost)]
  }

  /** In the order in which they are looked at. */
  ghost function Grounds(s: Store, op: Op): seq<Ground> {
    match op
    case Create(candidates, _, _, _, _, _) =>
      [Ground(forall c :: c in candidates ==> c in s.rooms, RoomCodeGenerationFailed)]
    case Join(code, _, _) =>
      var room := FindRoom(s, code);
      [Ground(code !in s.rooms, RoomNotFound),
       Ground(room.Some? && room.value.Complete? && room.value.isLocked, RoomLocked),
       Ground(room.Some? && room.value.Complete? && 0 < room.value.maxUsers <= |MembersOf(s, code)|, RoomFull)]
    case Rejoin(url, Token(home, user)) =>
      [Ground(home !in s.rooms, RoomNotFound), Ground(user !in MembersOf(s, home), Unauthorized),
       Ground(user !in MembersOf(s, url), UserNotFound), Ground(user !in s.users, UserNotFound)]
    case Leave(code, user, _) => [Ground(user !in MembersOf(s, code), UserNotFound)]
    case Kick(host, code, target) =>
      NotTheHost(s, code, host)
      + [Ground(target == host, CannotKickSelf), Ground(target !in s.users, UserNotFound)]
    case Close(host, code) => NotTheHost(s, code, host)
    case UpdateHost(host, code, to) =>
      NotTheHost(s, code, host)
      + [Ground(to == host, AlreadyHost), Ground(to !in MembersOf(s, code), UserNotFound)]
    case ToggleLock(host, code) => NotTheHost(s, code, host)
    case Connect(token, _) => [Ground(token.userId !in s.users, UserNotFound)]
    case Disconnect(token) => [Ground(token.userId !in s.users, UserNotFound)]
  }

  /** The error of the first ground that holds, from the `i`th on. */
  ghost function FirstFrom(grounds: seq<Ground>, i: nat): Option<Error>
    decreases |grounds| - i
  {
    if i >= |grounds| then None
    else if grounds[i].holds then Some(grounds[i].error)
    else FirstFrom(grounds, i + 1)
  }

  ghost function Refusal(s: Store, op: Op): Option<Error> {
    FirstFrom(Grounds(s, op), 0)
  }

  lemma InOrder(g: seq<Ground>)
    requires 1 <= |g| <= 4
    ensures FirstFrom(g, 0) ==
      if g[0].holds then Some(g[0].error)
      else if |g| > 1 && g[1].holds then Some(g[1].error)
      else if |g| > 2 && g[2].holds then Some(g[2].error)
      else if |g| > 3 && g[3].holds then Some(g[3].error)
      else None
  {
    assert FirstFrom(g, 1) == if |g| == 1 then None else if g[1].holds then Some(g[1].error) else FirstFrom(g, 2);
    assert FirstFrom(g, 2) == if |g| <= 2 then None else if g[2].holds then Some(g[2].error) else FirstFrom(g, 3);
    assert FirstFrom(g, 3) == if |g| <= 3 then None else if g[3].holds then Some(g[3].error) else FirstFrom(g, 4);
  }

  /** Whatever the store holds, a call fails exactly if one of its grounds holds, and then with the
      error of the first of them. */
  lemma RefusedOnTheFirstGround(s: Store, op: Op)
    ensures Refusal(s, op) == Answer(s, op).Problem()
  {
    InOrder(Grounds(s, op));
    if op.Create? { A.FreeCandidate(s, op.candidates); }
  }

  // ---------- accepted calls, key by key ----------

  /** `code` is the first of the candidates without a room. */
  ghost predicate FirstWithoutRoom(s: Store, candidates: seq<Code>, code: Code) {
    exists i :: 0 <= i < |candidates| && candidates[i] == code && code !in s.rooms
                && forall j :: 0 <= j < i ==> candidates[j] in s.rooms
  }

  /** The reply, given the store that the call leaves. */
  ghost predicate Replied(s: Store, op: Op, s': Store, reply: Reply) {
    match op
    case Create(candidates, uid, _, _, _, _) =>
      reply.Session? && reply.token.userId == uid && FirstWithoutRoom(s, candidates, reply.token.roomCode)
    case Join(code, uid, _) => reply == Session(Token(code, uid))
    case Rejoin(url, token) => reply == Session(Token(url, token.userId))
    case Leave(code, user, next) =>
      reply == Left(if HostOf(s, code) == Some(user) && MembersOf(s, code) != {user} then Some(next) else None)
    case Kick(_, _, target) => target in s.users && reply == Kicked(s.users[target].socketId)
    case Close(_, _) => reply == RoomClosed
    case UpdateHost(_, code, _) => code in s'.rooms && reply == RoomIs(s'.rooms[code])
    case ToggleLock(_, code) => code in s'.rooms && reply == RoomIs(s'.rooms[code])
    case Connect(token, _) => token.userId in s'.users && reply == UserIs(s'.users[token.userId])
    case Disconnect(token) => token.userId in s'.users && reply == UserIs(s'.users[token.userId])
  }

  /** One user's record afterwards.  Only a newcomer's is new, only a departed user's is gone, and of
      the others only a connection changes any field: those two that tell of the connection. */
  ghost function UserAfter(s: Store, op: Op, reply: Reply, user: UserId): Option<User> {
    var was := FindUser(s, user);
    match op
    case Create(_, uid, name, _, _, _) =>
      if user == uid && reply.Session? then Some(User(uid, name, reply.token.roomCode, false, None)) else was
    case Join(code, uid, name) => if user == uid then Some(User(uid, name, code, false, None)) else was
    case Leave(_, leaver, _) => if user == leaver then None else was
    case Kick(_, _, target) => if user == target then None else was
    case Close(_, code) => if user in MembersOf(s, code) then None else was
    case Connect(token, socket) =>
      if user == token.userId && was.Some?
      then Some(was.value.(isConnected := true, socketId := Some(socket))) else was
    case Disconnect(token) =>
      if user == token.userId && was.Some?
      then Some(was.value.(isConnected := false, socketId := None)) else was
    case _ => was
  }

  /** One room's members afterwards. */
  ghost function MembersAfter(s: Store, op: Op, reply: Reply, code: Code): set<UserId> {
    var was := MembersOf(s, code);
    match op
    case Create(_, uid, _, _, _, _) => if reply == Session(Token(code, uid)) then was + {uid} else was
    case Join(c, uid, _) => if c == code then was + {uid} else was
    case Leave(c, user, _) => if c == code then was - {user} else was
    case Kick(_, c, target) => if c == code then was - {target} else was
    case Close(_, c) => if c == code then {} else was
    case _ => was
  }

  /** One room's record afterwards. */
  ghost function RoomAfter(s: Store, op: Op, reply: Reply, code: Code): Option<Room> {
    var was := FindRoom(s, code);
    match op
    case Create(_, uid, _, max, t0, t1) =>
      if reply == Session(Token(code, uid)) then Some(Complete(code, uid, false, max, Created, t0, t1)) else was
    case Leave(c, user, next) =>
      if c != code || HostOf(s, code) != Some(user) then was
      else if MembersOf(s, code) == {user} then None
      else Some(s.rooms[code].(hostId := next))
    case Close(_, c) => if c == code then None else was
    case UpdateHost(host, c, to) =>
      if c == code && HostOf(s, code) == Some(host) then Some(s.rooms[code].(hostId := to)) else was
    case ToggleLock(host, c) =>
      if c == code && HostOf(s, code) == Some(host)
      then Some(s.rooms[code].(isLocked := !s.rooms[code].isLocked)) else was
    case _ => was
  }

  lemma {:induction false} FirstFreeIsFirst(s: Store, candidates: seq<Code>)
    ensures var found := Do.FirstFree(s, candidates);
      found.Some? ==> FirstWithoutRoom(s, candidates, found.value)
  {
    if candidates == [] {
    } else if candidates[0] !in s.rooms {
    } else {
      FirstFreeIsFirst(s, candidates[1..]);
      var found := Do.FirstFree(s, candidates[1..]);
      if found.Some? {
        var i :| 0 <= i < |candidates[1..]| && candidates[1..][i] == found.value
                 && forall j :: 0 <= j < i ==> candidates[1..][j] in s.rooms;
        assert candidates[i + 1] == found.value;
        assert forall j :: 0 <= j < i + 1 ==> j == 0 || candidates[j] == candidates[1..][j - 1];
      }
    }
  }

  lemma ReplyOf(s: Store, op: Op)
    requires FiledByCode(s) && FiledById(s) && Accepted(s, op)
    ensures Replied(s, op, After(s, op), Answer(s, op).value)
  {
    if op.Create? { FirstFreeIsFirst(s, op.candidates); }
  }

  ghost predicate KeysAre(s: Store, op: Op, s': Store, reply: Reply, user: UserId, code: Code) {
    && FindUser(s', user) == UserAfter(s, op, reply, user)
    && MembersOf(s', code) == MembersAfter(s, op, reply, code)
    && FindRoom(s', code) == RoomAfter(s, op, reply, code)
  }

  lemma CreateKeys(s: Store, op: Op, user: UserId, code: Code)
    requires FiledByCode(s) && FiledById(s) && Accepted(s, op) && op.Create?
    ensures KeysAre(s, op, After(s, op), Answer(s, op).value, user, code)
  {}

  lemma JoinKeys(s: Store, op: Op, user: UserId, code: Code)
    requires FiledByCode(s) && FiledById(s) && Accepted(s, op) && op.Join?
    ensures KeysAre(s, op, After(s, op), Answer(s, op).value, user, code)
  {}

  lemma LeaveKeys(s: Store, op: Op, user: UserId, code: Code)
    requires FiledByCode(s) && FiledById(s) && Accepted(s, op) && op.Leave?
    ensures KeysAre(s, op, After(s, op), Answer(s, op).value, user, code)
  {}

  lemma KickKeys(s: Store, op: Op, user: UserId, code: Code)
    requires FiledByCode(s) && FiledById(s) && Accepted(s, op) && op.Kick?
    ensures KeysAre(s, op, After(s, op), Answer(s, op).value, user, code)
  {}

  lemma CloseKeys(s: Store, op: Op, user: UserId, code: Code)
    requires FiledByCode(s) && FiledById(s) && Accepted(s, op) && op.Close?
    ensures KeysAre(s, op, After(s, op), Answer(s, op).value, user, code)
  {}

  lemma HostKeys(s: Store, op: Op, user: UserId, code: Code)
    requires FiledByCode(s) && FiledById(s) && Accepted(s, op) && (op.UpdateHost? || op.ToggleLock?)
    ensures KeysAre(s, op, After(s, op), Answer(s, op).value, user, code)
  {}

  lemma ConnectionKeys(s: Store, op: Op, user: UserId, code: Code)
    requires FiledByCode(s) && FiledById(s) && Accepted(s, op) && (op.Connect? || op.Disconnect?)
    ensures KeysAre(s, op, After(s, op), Answer(s, op).value, user, code)
  {}

  lemma KeysAfter(s: Store, op: Op, user: UserId, code: Code)
    requires FiledByCode(s) && FiledById(s) && Accepted(s, op)
    ensures KeysAre(s, op, After(s, op), Answer(s, op).value, user, code)
  {
    match op
    case Create(_, _, _, _, _, _) => CreateKeys(s, op, user, code);
    case Join(_, _, _) => JoinKeys(s, op, user, code);
    case Rejoin(_, _) =>
    case Leave(_, _, _) => LeaveKeys(s, op, user, code);
    case Kick(_, _, _) => KickKeys(s, op, user, code);
    case Close(_, _) => CloseKeys(s, op, user, code);
    case UpdateHost(_, _, _) => HostKeys(s, op, user, code);
    case ToggleLock(_, _) => HostKeys(s, op, user, code);
    case _ => ConnectionKeys(s, op, user, code);
  }

  ghost predicate Changed(s: Store, op: Op, s': Store, reply: Reply) {
    && Replied(s, op, s', reply)
    && forall u, c :: KeysAre(s, op, s', reply, u, c)
  }

  lemma AcceptedChanges(s: Store, op: Op, s': Store, reply: Reply)
    requires FiledByCode(s) && FiledById(s)
    requires s' == After(s, op) && Answer(s, op) == Success(reply)
    ensures Changed(s, op, s', reply)
  {
    ReplyOf(s, op);
    forall u, c ensures KeysAre(s, op, s', reply, u, c) { KeysAfter(s, op, u, c); }
  }

  /** A refused call leaves the store as it was; an accepted one gives this reply, and leaves this
      under each key. */
  lemma EachKeyAfter(s: Store, op: Op)
    requires FiledByCode(s) && FiledById(s)
    ensures match Answer(s, op)
      case Failure(e) => Refusal(s, op) == Some(e) && After(s, op) == s
      case Success(reply) => Refusal(s, op) == None && Changed(s, op, After(s, op), reply)
  {
    RefusedOnTheFirstGround(s, op);
    match Answer(s, op)
    case Failure(_) => A.RejectionChangesNothing(System(s, map[], {}), op);
    case Success(reply) => AcceptedChanges(s, op, After(s, op), reply);
  }

  /** What a guarded rejoin answers to a signed token, in every reachable state. */
  lemma RejoinOutcome(y: System, url: Code, token: Token)
    requires Sound(y) && token in y.tokens
    ensures var Token(home, user) := token;
      Answer(y.store, Rejoin(url, token)) ==
        if home !in y.store.rooms then Failure(RoomNotFound)
        else if user !in MembersOf(y.store, home) then Failure(Unauthorized)
        else if url != home || user !in y.store.users then Failure(UserNotFound)
        else Success(Session(token))
  {
    assert RoomSound(y.store, y.bound, url);
    RefusedOnTheFirstGround(y.store, Rejoin(url, token));
    InOrder(Grounds(y.store, Rejoin(url, token)));
  }

  // ---------- the life of one user ----------

  /** What the accepted calls of a run say of one id: whether it was issued, to whom, for which room,
      whether that user has gone, and the socket last connected and not disconnected since. */
  datatype Life = Unborn | Present(name: string, home: Code, socket: Option<SocketId>) | Departed

  ghost function LifeAfter(life: Life, s: Store, op: Op, user: UserId): Life {
    if Refusal(s, op).Some? then life
    else
      match op
      case Create(_, uid, name, _, _, _) =>
        if uid == user && Signed(s, op).Some? then Present(name, Signed(s, op).value.roomCode, None) else life
      case Join(code, uid, name) => if uid == user then Present(name, code, None) else life
      case Leave(_, leaver, _) => if leaver == user then Departed else life
      case Kick(_, _, target) => if target == user then Departed else life
      case Close(_, code) => if life.Present? && life.home == code then Departed else life
      case Connect(token, socket) =>
        if token.userId == user && life.Present? then life.(socket := Some(socket)) else life
      case Disconnect(token) =>
        if token.userId == user && life.Present? then life.(socket := None) else life
      case _ => life
  }

  ghost function LifeOf(life: Life, y: System, ops: seq<Op>, user: UserId): Life
    decreases |ops|
  {
    if ops == [] then life
    else LifeOf(LifeAfter(life, y.store, ops[0], user), Next(y, ops[0]), ops[1..], user)
  }

  /** The store tells of this user what `life` does; `issued` says whether the id was ever issued. */
  ghost predicate Told(s: Store, issued: bool, user: UserId, life: Life) {
    match life
    case Unborn => !issued && user !in s.users
    case Present(name, home, socket) =>
      FindUser(s, user) == Some(User(user, name, home, socket.Some?, socket))
    case Departed => issued && user !in s.users
  }

  lemma LifeAfterAccepted(y: System, op: Op, s': Store, reply: Reply, user: UserId, life: Life)
    requires Sound(y) && Told(y.store, user in y.bound, user, life)
    requires op.Create? || op.Join? ==> op.uid !in y.bound
    requires Refusal(y.store, op) == None && Answer(y.store, op) == Success(reply)
    requires Replied(y.store, op, s', reply) && FindUser(s', user) == UserAfter(y.store, op, reply, user)
    ensures Told(s', user in y.bound || ((op.Create? || op.Join?) && user == op.uid), user,
                 LifeAfter(life, y.store, op, user))
  {
    assert UserSound(y.store, y.bound, user);
    if op.Close? || op.Leave? { assert RoomSound(y.store, y.bound, op.code); }
  }

  lemma LifeGoesOn(y: System, op: Op, user: UserId, life: Life)
    requires Sound(y) && Enabled(y, op) && Told(y.store, user in y.bound, user, life)
    ensures var y' := Next(y, op);
      Told(y'.store, user in y'.bound, user, LifeAfter(life, y.store, op, user))
  {
    SoundIsFiled(y.store, y.bound);
    EachKeyAfter(y.store, op);
    match Answer(y.store, op)
    case Failure(_) =>
    case Success(reply) =>
      assert KeysAre(y.store, op, After(y.store, op), reply, user, "");
      LifeAfterAccepted(y, op, After(y.store, op), reply, user, life);
  }

  lemma {:induction false} LivesGoOn(y: System, ops: seq<Op>, user: UserId, life: Life)
    requires Sound(y) && Possible(y, ops) && Told(y.store, user in y.bound, user, life)
    ensures var z := Run(y, ops); Told(z.store, user in z.bound, user, LifeOf(life, y, ops, user))
    decreases |ops|
  {
    if ops == [] {
    } else {
      LifeGoesOn(y, ops[0], user, life);
      SoundStep(y, ops[0]);
      LivesGoOn(Next(y, ops[0]), ops[1..], user, LifeAfter(life, y.store, ops[0], user));
    }
  }

  /** After every run the record stored for an id is the one that its life tells: the name and room
      of its create or join, whatever came after; the socket of its last connection; and no record
      before, or after it has left, been kicked or had its room closed. */
  lemma RecordsTellLives(ops: seq<Op>, user: UserId)
    requires Possible(INIT, ops)
    ensures var y := Run(INIT, ops); Told(y.store, user in y.bound, user, LifeOf(Unborn, INIT, ops, user))
  {
    LivesGoOn(INIT, ops, user, Unborn);
  }

  // ---------- profiles ----------

  ghost predicate SameProfile(s: Store, s': Store, user: UserId) {
    user in s.users && user in s'.users ==>
      && s'.users[user].id == s.users[user].id
      && s'.users[user].displayName == s.users[user].displayName
      && s'.users[user].roomCode == s.users[user].roomCode
  }

  lemma ProfileStep(y: System, op: Op, user: UserId)
    requires Sound(y) && Enabled(y, op)
    ensures SameProfile(y.store, Next(y, op).store, user)
  {
    if user in y.store.users {
      var User(id, name, home, _, socket) := y.store.users[user];
      assert UserSound(y.store, y.bound, user);
      LifeGoesOn(y, op, user, Present(name, home, socket));
    }
  }
}
