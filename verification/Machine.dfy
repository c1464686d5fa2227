/** The atomic machine: each service call is one step, and a run is any sequence of calls. */
module Machine {
  import opened Types
  import opened StoreModel
  import Do = Operations

  datatype Op =
    | Create(candidates: seq<Code>, uid: UserId, name: string, maxUsers: nat,
             createdAt: Instant, updatedAt: Instant)
    | Join(code: Code, uid: UserId, name: string)
    | Rejoin(url: Code, token: Token)
    | Leave(code: Code, user: UserId, next: UserId)
    | Kick(host: UserId, code: Code, target: UserId)
    | Close(host: UserId, code: Code)
    | UpdateHost(host: UserId, code: Code, to: UserId)
    | ToggleLock(host: UserId, code: Code)
    | Connect(token: Token, socket: SocketId)
    | Disconnect(token: Token)

  datatype Reply =
    | Session(token: Token)
    | Left(newHost: Option<UserId>)
    | Kicked(socket: Option<SocketId>)
    | RoomClosed
    | RoomIs(room: Room)
    | UserIs(user: User)

  function After(s: Store, op: Op): Store {
    match op
    case Create(candidates, uid, name, max, t0, t1) =>
      Do.Create(s, candidates, uid, name, max, t0, t1).0
    case Join(code, uid, name) => Do.Join(s, code, uid, name).0
    case Rejoin(_, _) => s
    case Leave(code, user, next) => Do.Leave(s, code, user, next).0
    case Kick(host, code, target) => Do.Kick(s, host, code, target).0
    case Close(host, code) => Do.Close(s, host, code).0
    case UpdateHost(host, code, to) => Do.UpdateHost(s, host, code, to).0
    case ToggleLock(host, code) => Do.ToggleLock(s, host, code).0
    case Connect(token, socket) => Do.UpdateConnection(s, token.userId, socket).0
    case Disconnect(token) => Do.UpdateDisconnection(s, token.userId).0
  }

  function Answer(s: Store, op: Op): Result<Reply> {
    match op
    case Create(candidates, uid, name, max, t0, t1) =>
      var token :- Do.Create(s, candidates, uid, name, max, t0, t1).1; Success(Session(token))
    case Join(code, uid, name) =>
      var token :- Do.Join(s, code, uid, name).1; Success(Session(token))
    case Rejoin(url, token) =>
      var signed :- Do.GuardedRejoin(s, url, token); Success(Session(signed))
    case Leave(code, user, next) =>
      var host :- Do.Leave(s, code, user, next).1; Success(Left(host))
    case Kick(host, code, target) =>
      var socket :- Do.Kick(s, host, code, target).1; Success(Kicked(socket))
    case Close(host, code) =>
      var _ :- Do.Close(s, host, code).1; Success(RoomClosed)
    case UpdateHost(host, code, to) =>
      var room :- Do.UpdateHost(s, host, code, to).1; Success(RoomIs(room))
    case ToggleLock(host, code) =>
      var room :- Do.ToggleLock(s, host, code).1; Success(RoomIs(room))
    case Connect(token, socket) =>
      var user :- Do.UpdateConnection(s, token.userId, socket).1; Success(UserIs(user))
    case Disconnect(token) =>
      var user :- Do.UpdateDisconnection(s, token.userId).1; Success(UserIs(user))
  }

  /** The store, with two ghosts: the room each id was created for, and the tokens signed. */
  datatype System = System(store: Store, bound: map<UserId, Code>, tokens: set<Token>)

  const INIT := System(EMPTY, map[], {})

  function Accepted(s: Store, op: Op): bool {
    Answer(s, op).Success?
  }

  /** The token that a step signs, if it signs one. */
  function Signed(s: Store, op: Op): Option<Token> {
    match Answer(s, op)
    case Success(Session(token)) => Some(token)
    case _ => None
  }

  function Next(y: System, op: Op): System {
    var signed := Signed(y.store, op);
    System(
      After(y.store, op),
      if signed.Some? && (op.Create? || op.Join?)
      then y.bound[signed.value.userId := signed.value.roomCode] else y.bound,
      if signed.Some? then y.tokens + {signed.value} else y.tokens)
  }

  /** What the environment guarantees: ids are never repeated, tokens cannot be forged, and
      SMEMBERS lists members. */
  predicate Enabled(y: System, op: Op) {
    match op
    case Create(_, uid, _, _, _, _) => uid !in y.bound
    case Join(_, uid, _) => uid !in y.bound
    case Rejoin(_, token) => token in y.tokens
    case Leave(code, user, next) =>
      Do.Leave(y.store, code, user, next).1 == Success(Some(next)) ==>
        next in MembersOf(y.store, code) - {user}
    case Connect(token, _) => token in y.tokens
    case Disconnect(token) => token in y.tokens
    case _ => true
  }

  function Run(y: System, ops: seq<Op>): System
    decreases |ops|
  {
    if ops == [] then y else Run(Next(y, ops[0]), ops[1..])
  }

  predicate Possible(y: System, ops: seq<Op>)
    decreases |ops|
  {
    ops == [] || (Enabled(y, ops[0]) && Possible(Next(y, ops[0]), ops[1..]))
  }

  /** A host's kick of somebody else who is on record.  The service looks at nothing more: it
      loads the target by id alone. */
  predicate MayKick(s: Store, op: Op) {
    && op.Kick?
    && HostOf(s, op.code) == Some(op.host) && op.target != op.host && op.target in s.users
  }

  /** And the target is on record for another room. */
  predicate StrayKick(s: Store, op: Op) {
    MayKick(s, op) && s.users[op.target].roomCode != op.code
  }

  /** A run in which every kick that takes effect names a user of the caller's room. */
  predicate KicksInRoom(y: System, ops: seq<Op>)
    decreases |ops|
  {
    ops == [] || (!StrayKick(y.store, ops[0]) && KicksInRoom(Next(y, ops[0]), ops[1..]))
  }

  lemma {:induction false} RunConcat(y: System, first: seq<Op>, second: seq<Op>)
    ensures Run(y, first + second) == Run(Run(y, first), second)
    ensures Possible(y, first + second) <==> Possible(y, first) && Possible(Run(y, first), second)
    ensures KicksInRoom(y, first + second)
            <==> KicksInRoom(y, first) && KicksInRoom(Run(y, first), second)
    decreases |first|
  {
    if first == [] {
      assert first + second == second;
    } else {
      assert (first + second)[0] == first[0] && (first + second)[1..] == first[1..] + second;
      RunConcat(Next(y, first[0]), first[1..], second);
    }
  }
}
