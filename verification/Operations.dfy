/** What each service operation does to the store when nothing runs beside it.  The service
    methods are proved to compute these functions; the machines step by them. */
module Operations {
  import opened Types
  import opened StoreModel

  function NewUser(uid: UserId, name: string, code: Code): User {
    User(uid, name, code, false, None)
  }

  function FirstFree(s: Store, candidates: seq<Code>): Option<Code> {
    if candidates == [] then None
    else if candidates[0] !in s.rooms then Some(candidates[0])
    else FirstFree(s, candidates[1..])
  }

  function CreateAt(s: Store, code: Code, uid: UserId, name: string, maxUsers: nat,
                    createdAt: Instant, updatedAt: Instant): Store
  {
    var room := Complete(code, uid, false, maxUsers, Created, createdAt, updatedAt);
    AddMember(PutRoom(PutUser(s, NewUser(uid, name, code)), room), code, uid)
  }

  function Create(s: Store, candidates: seq<Code>, uid: UserId, name: string, maxUsers: nat,
                  createdAt: Instant, updatedAt: Instant): (Store, Result<Token>)
  {
    match FirstFree(s, candidates)
    case None => (s, Failure(RoomCodeGenerationFailed))
    case Some(code) =>
      (CreateAt(s, code, uid, name, maxUsers, createdAt, updatedAt), Success(Token(code, uid)))
  }

  function Join(s: Store, code: Code, uid: UserId, name: string): (Store, Result<Token>) {
    match FindRoom(s, code)
    case None => (s, Failure(RoomNotFound))
    case Some(room) =>
      if room.Locked() then (s, Failure(RoomLocked))
      else if room.FullAt(|MembersOf(s, code)|) then (s, Failure(RoomFull))
      else
        (AddMember(PutUser(s, NewUser(uid, name, room.code)), room.code, uid),
         Success(Token(room.code, uid)))
  }

  function Rejoin(s: Store, code: Code, user: UserId): Result<Token> {
    if user !in MembersOf(s, code) || user !in s.users then Failure(UserNotFound)
    else Success(Token(code, user))
  }

  /** The guard in front of rejoin looks at the token's room, not at the URL's. */
  function Guard(s: Store, token: Token): Result<Token> {
    if token.roomCode !in s.rooms then Failure(RoomNotFound)
    else if token.userId !in MembersOf(s, token.roomCode) then Failure(Unauthorized)
    else Success(token)
  }

  function GuardedRejoin(s: Store, url: Code, token: Token): Result<Token> {
    var payload :- Guard(s, token);
    Rejoin(s, url, payload.userId)
  }

  /** `next` is the first of the remaining members that the store lists. */
  function Leave(s: Store, code: Code, user: UserId, next: UserId): (Store, Result<Option<UserId>>) {
    if user !in MembersOf(s, code) then (s, Failure(UserNotFound))
    else
      var gone := DropUsers(RemoveMember(s, code, user), {user});
      match FindRoom(gone, code)
      case None => (gone, Success(None))
      case Some(room) =>
        if !room.HostedBy(user) then (gone, Success(None))
        else if MembersOf(gone, code) == {} then (DropRoom(gone, code), Success(None))
        else (PutRoom(gone, room.(hostId := next)), Success(Some(next)))
  }

  function HostedRoom(s: Store, code: Code, user: UserId): (r: Result<Room>)
    ensures r.Success? ==> r.value.HostedBy(user)
  {
    match FindRoom(s, code)
    case None => Failure(RoomNotFound)
    case Some(room) => if room.HostedBy(user) then Success(room) else Failure(NotHost)
  }

  function Kick(s: Store, host: UserId, code: Code, target: UserId)
    : (Store, Result<Option<SocketId>>)
  {
    match HostedRoom(s, code, host)
    case Failure(e) => (s, Failure(e))
    case Success(room) =>
      if host == target then (s, Failure(CannotKickSelf))
      else
        match FindUser(s, target)
        case None => (s, Failure(UserNotFound))
        case Some(record) =>
          (RemoveMember(DropUsers(s, {target}), code, record.id), Success(record.socketId))
  }

  function Close(s: Store, host: UserId, code: Code): (Store, Result<()>) {
    match HostedRoom(s, code, host)
    case Failure(e) => (s, Failure(e))
    case Success(_) => (DropRoom(DropUsers(s, MembersOf(s, code)), code), Success(()))
  }

  function UpdateHost(s: Store, host: UserId, code: Code, to: UserId): (Store, Result<Room>) {
    match HostedRoom(s, code, host)
    case Failure(e) => (s, Failure(e))
    case Success(room) =>
      if host == to then (s, Failure(AlreadyHost))
      else if to !in MembersOf(s, code) then (s, Failure(UserNotFound))
      else
        var updated := room.(hostId := to);
        (PutRoom(s, updated), Success(updated))
  }

  function ToggleLock(s: Store, host: UserId, code: Code): (Store, Result<Room>) {
    match HostedRoom(s, code, host)
    case Failure(e) => (s, Failure(e))
    case Success(room) =>
      var updated := room.(isLocked := !room.isLocked);
      (PutRoom(s, updated), Success(updated))
  }

  function UpdateConnection(s: Store, user: UserId, socket: SocketId): (Store, Result<User>) {
    match FindUser(s, user)
    case None => (s, Failure(UserNotFound))
    case Some(record) =>
      var updated := record.(isConnected := true, socketId := Some(socket));
      (PutUser(s, updated), Success(updated))
  }

  function UpdateDisconnection(s: Store, user: UserId): (Store, Result<User>) {
    match FindUser(s, user)
    case None => (s, Failure(UserNotFound))
    case Some(record) =>
      var updated := record.(isConnected := false, socketId := None);
      (PutUser(s, updated), Success(updated))
  }

  /** MGET over the listed members, missing records filtered out. */
  function Details(s: Store, listing: seq<UserId>): seq<User> {
    if listing == [] then []
    else (if listing[0] in s.users then [s.users[listing[0]]] else []) + Details(s, listing[1..])
  }
}
