/** The command-level machine: each Redis command is one step, and any number of service calls
    are in flight, each with the values it has read so far. */
module Commands {
  import opened Types
  import opened StoreModel
  import opened Machine
  import Do = Operations

  /** Where a call stands: the command it sends next, with what it carries. */
  datatype Stage =
    // create
    | Reserving(attempt: nat)
    | CreatingUser(code: Code)
    | SavingNewRoom(code: Code)
    | AddingHost(code: Code)
    | ExpiringMembers(code: Code)
    // join
    | CountingMembers(room: Room)
    | JoiningUser(code: Code)
    | AddingMember(code: Code)
    // rejoin: the guard, then the service
    | GuardingRoom
    | GuardingMember
    | RejoiningMembers
    | RejoiningUser
    // leave
    | CheckingMember
    | RemovingMember
    | DeletingUser
    | ReadingLeftRoom
    | ListingLeft(room: Room)
    | PassingHost(room: Room)
    | DeletingRoom
    // the first read of join, kick, close, updateHost and toggleLock
    | ReadingRoom
    // kick
    | ReadingTarget
    | DeletingTarget(id: UserId, socket: Option<SocketId>)
    | RemovingTarget(id: UserId, socket: Option<SocketId>)
    // close
    | ListingMembers
    | DeletingMembers(ids: set<UserId>)
    | ClosingRoom
    // updateHost, toggleLock
    | CheckingHeir(room: Room)
    | SavingRoom(room: Room)
    // connect, disconnect
    | FindingUser
    | LoadingUser
    | SavingUser(user: User)
    | Finished(reply: Result<Reply>)

  datatype Task = Task(op: Op, stage: Stage)

  function First(op: Op): Stage {
    match op
    case Create(_, _, _, _, _, _) => Reserving(0)
    case Rejoin(_, _) => GuardingRoom
    case Leave(_, _, _) => CheckingMember
    case Connect(_, _) => FindingUser
    case Disconnect(_) => LoadingUser
    case _ => ReadingRoom
  }

  datatype Write =
    | NoWrite
    | ReserveRoom(code: Code)
    | WriteRoom(room: Room)
    | DeleteRoom(code: Code)
    | WriteUser(user: User)
    | DeleteUsers(ids: set<UserId>)
    | InsertMember(code: Code, id: UserId)
    | EraseMember(code: Code, id: UserId)

  function Commit(s: Store, w: Write): Store {
    match w
    case NoWrite => s
    case ReserveRoom(code) => Reserve(s, code)
    case WriteRoom(room) => PutRoom(s, room)
    case DeleteRoom(code) => DropRoom(s, code)
    case WriteUser(user) => PutUser(s, user)
    case DeleteUsers(ids) => DropUsers(s, ids)
    case InsertMember(code, id) => StoreModel.AddMember(s, code, id)
    case EraseMember(code, id) => StoreModel.RemoveMember(s, code, id)
  }

  /** What a call's next command writes; the reads are in `Advance`. */
  function WriteOf(t: Task): Write {
    match t.op
    case Create(_, _, _, _, _, _) => CreateWrites(t.op, t.stage)
    case Join(_, uid, name) =>
      if t.stage.JoiningUser? then WriteUser(Do.NewUser(uid, name, t.stage.code))
      else if t.stage.AddingMember? then InsertMember(t.stage.code, uid)
      else NoWrite
    case Rejoin(_, _) => NoWrite
    case Leave(_, _, _) => LeaveWrites(t.op, t.stage)
    case Kick(_, code, target) =>
      if t.stage.DeletingTarget? then DeleteUsers({target})
      else if t.stage.RemovingTarget? then EraseMember(code, t.stage.id)
      else NoWrite
    case Close(_, code) =>
      if t.stage.DeletingMembers? then DeleteUsers(t.stage.ids)
      else if t.stage.ClosingRoom? then DeleteRoom(code)
      else NoWrite
    case UpdateHost(_, _, _) => if t.stage.SavingRoom? then WriteRoom(t.stage.room) else NoWrite
    case ToggleLock(_, _) => if t.stage.SavingRoom? then WriteRoom(t.stage.room) else NoWrite
    case Connect(_, _) => if t.stage.SavingUser? then WriteUser(t.stage.user) else NoWrite
    case Disconnect(_) => if t.stage.SavingUser? then WriteUser(t.stage.user) else NoWrite
  }

  function CreateWrites(op: Op, stage: Stage): Write
    requires op.Create?
  {
    if stage.Reserving? && stage.attempt < |op.candidates| then ReserveRoom(op.candidates[stage.attempt])
    else if stage.CreatingUser? then WriteUser(Do.NewUser(op.uid, op.name, stage.code))
    else if stage.SavingNewRoom? then
      WriteRoom(Complete(stage.code, op.uid, false, op.maxUsers, RoomState.Created, op.createdAt, op.updatedAt))
    else if stage.AddingHost? then InsertMember(stage.code, op.uid)
    else NoWrite
  }

  function LeaveWrites(op: Op, stage: Stage): Write
    requires op.Leave?
  {
    if stage.RemovingMember? then EraseMember(op.code, op.user)
    else if stage.DeletingUser? then DeleteUsers({op.user})
    else if stage.PassingHost? then WriteRoom(stage.room)
    else if stage.DeletingRoom? then DeleteRoom(op.code)
    else NoWrite
  }

  function Fail(e: Error): Stage {
    Finished(Failure(e))
  }

  function SessionFor(code: Code, user: UserId): Stage {
    Finished(Success(Session(Token(code, user))))
  }

  /** Where a call stands once its next command has run on `s`. */
  function Advance(s: Store, t: Task): Stage {
    match t.op
    case Create(_, _, _, _, _, _) => AdvanceCreate(s, t.op, t.stage)
    case Join(_, _, _) => AdvanceJoin(s, t.op, t.stage)
    case Rejoin(_, _) => AdvanceRejoin(s, t.op, t.stage)
    case Leave(_, _, _) => AdvanceLeave(s, t.op, t.stage)
    case Kick(_, _, _) => AdvanceKick(s, t.op, t.stage)
    case Close(_, _) => AdvanceClose(s, t.op, t.stage)
    case UpdateHost(_, _, _) => AdvanceUpdateHost(s, t.op, t.stage)
    case ToggleLock(_, _) => AdvanceToggleLock(s, t.op, t.stage)
    case Connect(_, _) => AdvanceConnect(s, t.op, t.stage)
    case Disconnect(_) => AdvanceDisconnect(s, t.op, t.stage)
  }

  function AdvanceCreate(s: Store, op: Op, stage: Stage): Stage
    requires op.Create?
  {
    if stage.Reserving? then
      if stage.attempt >= |op.candidates| then Fail(RoomCodeGenerationFailed)
      else if op.candidates[stage.attempt] in s.rooms then Reserving(stage.attempt + 1)
      else CreatingUser(op.candidates[stage.attempt])
    else if stage.CreatingUser? then SavingNewRoom(stage.code)
    else if stage.SavingNewRoom? then AddingHost(stage.code)
    else if stage.AddingHost? then ExpiringMembers(stage.code)
    else if stage.ExpiringMembers? then SessionFor(stage.code, op.uid)
    else stage
  }

  function AdvanceJoin(s: Store, op: Op, stage: Stage): Stage
    requires op.Join?
  {
    if stage.ReadingRoom? then
      if op.code in s.rooms then CountingMembers(s.rooms[op.code]) else Fail(RoomNotFound)
    else if stage.CountingMembers? then
      if stage.room.Locked() then Fail(RoomLocked)
      else if stage.room.FullAt(|MembersOf(s, op.code)|) then Fail(RoomFull)
      else JoiningUser(stage.room.code)
    else if stage.JoiningUser? then AddingMember(stage.code)
    else if stage.AddingMember? then SessionFor(stage.code, op.uid)
    else stage
  }

  /** The guard's two reads, then the service's. */
  function AdvanceRejoin(s: Store, op: Op, stage: Stage): Stage
    requires op.Rejoin?
  {
    var Token(home, user) := op.token;
    if stage.GuardingRoom? then if home in s.rooms then GuardingMember else Fail(RoomNotFound)
    else if stage.GuardingMember? then
      if user in MembersOf(s, home) then RejoiningMembers else Fail(Unauthorized)
    else if stage.RejoiningMembers? then
      if user in MembersOf(s, op.url) then RejoiningUser else Fail(UserNotFound)
    else if stage.RejoiningUser? then
      if user in s.users then SessionFor(op.url, user) else Fail(UserNotFound)
    else stage
  }

  function AdvanceLeave(s: Store, op: Op, stage: Stage): Stage
    requires op.Leave?
  {
    var done := Finished(Success(Left(None)));
    if stage.CheckingMember? then
      if op.user in MembersOf(s, op.code) then RemovingMember else Fail(UserNotFound)
    else if stage.RemovingMember? then DeletingUser
    else if stage.DeletingUser? then ReadingLeftRoom
    else if stage.ReadingLeftRoom? then
      if op.code in s.rooms && s.rooms[op.code].HostedBy(op.user) then ListingLeft(s.rooms[op.code]) else done
    else if stage.ListingLeft? then
      if MembersOf(s, op.code) == {} then DeletingRoom
      else if stage.room.Complete? then PassingHost(stage.room.(hostId := op.next))
      else done
    else if stage.PassingHost? then Finished(Success(Left(Some(op.next))))
    else if stage.DeletingRoom? then done
    else stage
  }

  /** The first read of a host's call, when it ends the call. */
  function NotHosting(s: Store, code: Code, host: UserId): Option<Error> {
    if code !in s.rooms then Some(RoomNotFound)
    else if !s.rooms[code].HostedBy(host) then Some(NotHost)
    else None
  }

  function AdvanceKick(s: Store, op: Op, stage: Stage): Stage
    requires op.Kick?
  {
    if stage.ReadingRoom? then
      if NotHosting(s, op.code, op.host).Some? then Fail(NotHosting(s, op.code, op.host).value)
      else if op.host == op.target then Fail(CannotKickSelf)
      else ReadingTarget
    else if stage.ReadingTarget? then
      if op.target in s.users then DeletingTarget(s.users[op.target].id, s.users[op.target].socketId)
      else Fail(UserNotFound)
    else if stage.DeletingTarget? then RemovingTarget(stage.id, stage.socket)
    else if stage.RemovingTarget? then Finished(Success(Kicked(stage.socket)))
    else stage
  }

  function AdvanceClose(s: Store, op: Op, stage: Stage): Stage
    requires op.Close?
  {
    if stage.ReadingRoom? then
      if NotHosting(s, op.code, op.host).Some? then Fail(NotHosting(s, op.code, op.host).value)
      else ListingMembers
    else if stage.ListingMembers? then
      if MembersOf(s, op.code) == {} then ClosingRoom else DeletingMembers(MembersOf(s, op.code))
    else if stage.DeletingMembers? then ClosingRoom
    else if stage.ClosingRoom? then Finished(Success(RoomClosed))
    else stage
  }

  function AdvanceUpdateHost(s: Store, op: Op, stage: Stage): Stage
    requires op.UpdateHost?
  {
    if stage.ReadingRoom? then
      if NotHosting(s, op.code, op.host).Some? then Fail(NotHosting(s, op.code, op.host).value)
      else if op.host == op.to then Fail(AlreadyHost)
      else CheckingHeir(s.rooms[op.code])
    else if stage.CheckingHeir? then
      if op.to !in MembersOf(s, op.code) then Fail(UserNotFound)
      else if stage.room.Complete? then SavingRoom(stage.room.(hostId := op.to))
      else Fail(NotHost)
    else if stage.SavingRoom? then Finished(Success(RoomIs(stage.room)))
    else stage
  }

  function AdvanceToggleLock(s: Store, op: Op, stage: Stage): Stage
    requires op.ToggleLock?
  {
    if stage.ReadingRoom? then
      if NotHosting(s, op.code, op.host).Some? then Fail(NotHosting(s, op.code, op.host).value)
      else SavingRoom(s.rooms[op.code].(isLocked := !s.rooms[op.code].isLocked))
    else if stage.SavingRoom? then Finished(Success(RoomIs(stage.room)))
    else stage
  }

  function AdvanceConnect(s: Store, op: Op, stage: Stage): Stage
    requires op.Connect?
  {
    var user := op.token.userId;
    if stage.FindingUser? then if user in s.users then LoadingUser else Fail(UserNotFound)
    else if stage.LoadingUser? then
      if user in s.users then SavingUser(s.users[user].(isConnected := true, socketId := Some(op.socket)))
      else Fail(UserNotFound)
    else if stage.SavingUser? then Finished(Success(UserIs(stage.user)))
    else stage
  }

  function AdvanceDisconnect(s: Store, op: Op, stage: Stage): Stage
    requires op.Disconnect?
  {
    var user := op.token.userId;
    if stage.LoadingUser? then
      if user in s.users then SavingUser(s.users[user].(isConnected := false, socketId := None))
      else Fail(UserNotFound)
    else if stage.SavingUser? then Finished(Success(UserIs(stage.user)))
    else stage
  }

  /** The room a call names, if it names one before it starts. */
  function CodeOf(op: Op): Option<Code> {
    match op
    case Join(code, _, _) => Some(code)
    case Leave(code, _, _) => Some(code)
    case Kick(_, code, _) => Some(code)
    case Close(_, code) => Some(code)
    case UpdateHost(_, code, _) => Some(code)
    case ToggleLock(_, code) => Some(code)
    case Connect(token, _) => Some(token.roomCode)
    case Disconnect(token) => Some(token.roomCode)
    case _ => None
  }

  /** The store with everything in flight.  `bound` and `tokens` are as in `Machine`; `claimed`
      holds every id drawn so far, by finished and unfinished calls. */
  datatype Config = Config(store: Store, bound: map<UserId, Code>, tokens: set<Token>,
                           claimed: set<UserId>, tasks: map<nat, Task>)

  const IDLE := Config(EMPTY, map[], {}, {}, map[])

  datatype Event =
    | Start(pid: nat, op: Op)
    | Tick(pid: nat)

  function ClaimOf(op: Op): set<UserId> {
    if op.Create? || op.Join? then {op.uid} else {}
  }

  predicate CanStart(k: Config, op: Op) {
    && ClaimOf(op) !! k.claimed
    && (op.Rejoin? || op.Connect? || op.Disconnect? ==> op.token in k.tokens)
  }

  /** A call that is about to list the members left in the room is told that its heir comes first. */
  predicate CanTick(s: Store, t: Task) {
    t.op.Leave? && t.stage.ListingLeft? && MembersOf(s, t.op.code) != {} ==>
      t.op.next in MembersOf(s, t.op.code)
  }

  predicate CanHappen(k: Config, e: Event) {
    match e
    case Start(pid, op) => pid !in k.tasks && CanStart(k, op)
    case Tick(pid) => pid in k.tasks && CanTick(k.store, k.tasks[pid])
  }

  /** The binding that a command makes: the one that creates a user. */
  function Births(t: Task): map<UserId, Code> {
    if t.op.Create? && t.stage.CreatingUser? then map[t.op.uid := t.stage.code]
    else if t.op.Join? && t.stage.JoiningUser? then map[t.op.uid := t.stage.code]
    else map[]
  }

  function Happen(k: Config, e: Event): Config
    requires CanHappen(k, e)
  {
    match e
    case Start(pid, op) =>
      k.(claimed := k.claimed + ClaimOf(op), tasks := k.tasks[pid := Task(op, First(op))])
    case Tick(pid) =>
      var t := k.tasks[pid];
      var stage := Advance(k.store, t);
      k.(store := Commit(k.store, WriteOf(t)),
         bound := k.bound + Births(t),
         tokens := k.tokens + SignedBy(stage),
         tasks := if stage.Finished? then k.tasks - {pid} else k.tasks[pid := Task(t.op, stage)])
  }

  function SignedBy(stage: Stage): set<Token> {
    match stage
    case Finished(Success(Session(token))) => {token}
    case _ => {}
  }

  predicate CanRun(k: Config, events: seq<Event>)
    decreases |events|
  {
    events == [] || (CanHappen(k, events[0]) && CanRun(Happen(k, events[0]), events[1..]))
  }

  function RunAll(k: Config, events: seq<Event>): Config
    requires CanRun(k, events)
    decreases |events|
  {
    if events == [] then k else RunAll(Happen(k, events[0]), events[1..])
  }
}
