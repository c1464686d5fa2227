/** A call whose commands run with nothing in between does what the atomic machine says. */
module Sequential {
  import opened Types
  import opened StoreModel
  import opened Machine
  import opened Commands
  import Do = Operations

  /** How many commands a call has left, at most. */
  function Rank(t: Task): nat {
    match t.stage
    case Reserving(i) => if t.op.Create? && i <= |t.op.candidates| then 8 + |t.op.candidates| - i else 8
    case CheckingMember => 7
    case FindingUser => 7
    case ReadingRoom => 6
    case LoadingUser => 6
    case RemovingMember => 6
    case ReadingTarget => 5
    case ListingMembers => 5
    case CheckingHeir(_) => 5
    case DeletingUser => 5
    case CreatingUser(_) => 4
    case GuardingRoom => 4
    case ReadingLeftRoom => 4
    case DeletingTarget(_, _) => 4
    case DeletingMembers(_) => 4
    case CountingMembers(_) => 3
    case SavingNewRoom(_) => 3
    case GuardingMember => 3
    case ListingLeft(_) => 3
    case RemovingTarget(_, _) => 3
    case ClosingRoom => 3
    case AddingHost(_) => 2
    case JoiningUser(_) => 2
    case RejoiningMembers => 2
    case Finished(_) => 0
    case _ => 1
  }

  function Step(s: Store, t: Task): (Store, Task) {
    (Commit(s, WriteOf(t)), Task(t.op, Advance(s, t)))
  }

  /** Runs the rest of a call alone. */
  function Solo(s: Store, t: Task): (Store, Result<Reply>)
    decreases Rank(t)
  {
    if t.stage.Finished? then (s, t.stage.reply)
    else
      var (s', t') := Step(s, t);
      if Rank(t') < Rank(t) then Solo(s', t') else (s, Failure(WrongType))
  }

  function Alone(s: Store, op: Op): (Store, Result<Reply>) {
    Solo(s, Task(op, First(op)))
  }

  /** One command on: from stage `a` on `s` to stage `b` on `s'`. */
  lemma OneStep(s: Store, s': Store, op: Op, a: Stage, b: Stage)
    requires Commit(s, WriteOf(Task(op, a))) == s' && Advance(s, Task(op, a)) == b
    requires Rank(Task(op, b)) < Rank(Task(op, a)) && !a.Finished?
    ensures Solo(s, Task(op, a)) == Solo(s', Task(op, b))
  {}

  /** The last command. */
  lemma Ends(s: Store, s': Store, op: Op, a: Stage, reply: Result<Reply>)
    requires Commit(s, WriteOf(Task(op, a))) == s' && Advance(s, Task(op, a)) == Finished(reply)
    requires !a.Finished?
    ensures Solo(s, Task(op, a)) == (s', reply)
  {
    OneStep(s, s', op, a, Finished(reply));
  }

  /** The first read, when it ends the call. */
  lemma RefusedAtOnce(s: Store, op: Op, e: Error)
    requires Advance(s, Task(op, ReadingRoom)) == Fail(e)
    ensures Solo(s, Task(op, ReadingRoom)) == (s, Failure(e))
  {
    OneStep(s, s, op, ReadingRoom, Fail(e));
  }

  lemma JoiningAlone(s: Store, op: Op, code: Code)
    requires op.Join?
    ensures Solo(s, Task(op, JoiningUser(code))) ==
      (StoreModel.AddMember(PutUser(s, Do.NewUser(op.uid, op.name, code)), code, op.uid),
       Success(Session(Token(code, op.uid))))
  {
    var s1 := PutUser(s, Do.NewUser(op.uid, op.name, code));
    OneStep(s, s1, op, JoiningUser(code), AddingMember(code));
    Ends(s1, StoreModel.AddMember(s1, code, op.uid), op, AddingMember(code),
         Success(Session(Token(code, op.uid))));
  }

  lemma CountingAlone(s: Store, op: Op, room: Room)
    requires op.Join? && FindRoom(s, op.code) == Some(room)
    ensures Solo(s, Task(op, CountingMembers(room))) == (After(s, op), Answer(s, op))
  {
    if room.Locked() {
      Ends(s, s, op, CountingMembers(room), Failure(RoomLocked));
    } else if room.FullAt(|MembersOf(s, op.code)|) {
      Ends(s, s, op, CountingMembers(room), Failure(RoomFull));
    } else {
      OneStep(s, s, op, CountingMembers(room), JoiningUser(room.code));
      JoiningAlone(s, op, room.code);
    }
  }

  lemma AloneJoin(s: Store, op: Op)
    requires op.Join?
    ensures Alone(s, op) == (After(s, op), Answer(s, op))
  {
    if op.code !in s.rooms {
      RefusedAtOnce(s, op, RoomNotFound);
    } else {
      var room := s.rooms[op.code];
      OneStep(s, s, op, ReadingRoom, CountingMembers(room));
      CountingAlone(s, op, room);
    }
  }

  lemma FurnishingAlone(s: Store, op: Op, code: Code)
    requires op.Create?
    ensures Solo(s, Task(op, CreatingUser(code))) ==
      (Do.CreateAt(s, code, op.uid, op.name, op.maxUsers, op.createdAt, op.updatedAt),
       Success(Session(Token(code, op.uid))))
  {
    var s1 := PutUser(s, Do.NewUser(op.uid, op.name, code));
    var room := Complete(code, op.uid, false, op.maxUsers, RoomState.Created, op.createdAt, op.updatedAt);
    OneStep(s, s1, op, CreatingUser(code), SavingNewRoom(code));
    OneStep(s1, PutRoom(s1, room), op, SavingNewRoom(code), AddingHost(code));
    AddingHostAlone(PutRoom(s1, room), op, code);
  }

  lemma AddingHostAlone(s: Store, op: Op, code: Code)
    requires op.Create?
    ensures Solo(s, Task(op, AddingHost(code))) ==
      (StoreModel.AddMember(s, code, op.uid), Success(Session(Token(code, op.uid))))
  {
    var s1 := StoreModel.AddMember(s, code, op.uid);
    OneStep(s, s1, op, AddingHost(code), ExpiringMembers(code));
    OneStep(s1, s1, op, ExpiringMembers(code), SessionFor(code, op.uid));
  }

  lemma AloneCreate(s: Store, op: Op, code: Code)
    requires op.Create? && op.candidates == [code] && code !in s.rooms
    ensures Alone(s, op) == (After(s, op), Answer(s, op))
    ensures Alone(s, op) == Solo(Reserve(s, code), Task(op, CreatingUser(code)))
  {
    var room := Complete(code, op.uid, false, op.maxUsers, RoomState.Created, op.createdAt, op.updatedAt);
    OneStep(s, Reserve(s, code), op, Reserving(0), CreatingUser(code));
    FurnishingAlone(Reserve(s, code), op, code);
    assert Do.FirstFree(s, [code]) == Some(code);
    assert Reserve(s, code).rooms[code := room] == s.rooms[code := room];
  }

  /** The reservation loop: taken codes are passed over, the first free one is furnished. */
  lemma {:induction false} SeekingAlone(s: Store, op: Op, i: nat)
    requires op.Create? && i <= |op.candidates|
    ensures Solo(s, Task(op, Reserving(i))) ==
      match Do.FirstFree(s, op.candidates[i..])
      case None => (s, Failure(RoomCodeGenerationFailed))
      case Some(code) =>
        (Do.CreateAt(s, code, op.uid, op.name, op.maxUsers, op.createdAt, op.updatedAt),
         Success(Session(Token(code, op.uid))))
    decreases |op.candidates| - i
  {
    if i == |op.candidates| {
      Ends(s, s, op, Reserving(i), Failure(RoomCodeGenerationFailed));
    } else {
      var code, rest := op.candidates[i], op.candidates[i..];
      assert rest[0] == code && rest[1..] == op.candidates[i + 1..];
      if code in s.rooms {
        OneStep(s, s, op, Reserving(i), Reserving(i + 1));
        SeekingAlone(s, op, i + 1);
      } else {
        var room := Complete(code, op.uid, false, op.maxUsers, RoomState.Created, op.createdAt, op.updatedAt);
        OneStep(s, Reserve(s, code), op, Reserving(i), CreatingUser(code));
        FurnishingAlone(Reserve(s, code), op, code);
        assert Reserve(s, code).rooms[code := room] == s.rooms[code := room];
      }
    }
  }

  lemma AloneLeave(s: Store, op: Op)
    requires op.Leave?
    ensures Alone(s, op) == (After(s, op), Answer(s, op))
  {
    var Leave(code, user, heir) := op;
    if user !in MembersOf(s, code) {
      OneStep(s, s, op, CheckingMember, Fail(UserNotFound));
    } else {
      OneStep(s, s, op, CheckingMember, RemovingMember);
      AloneLeft(DropUsers(StoreModel.RemoveMember(s, code, user), {user}), op);
    }
  }

  /** What leave does once the member is gone. */
  function Succession(s: Store, code: Code, user: UserId, heir: UserId): (Store, Option<UserId>) {
    match FindRoom(s, code)
    case None => (s, None)
    case Some(room) =>
      if !room.HostedBy(user) then (s, None)
      else if MembersOf(s, code) == {} then (DropRoom(s, code), None)
      else (PutRoom(s, room.(hostId := heir)), Some(heir))
  }

  lemma AloneLeft(s: Store, op: Op)
    requires op.Leave?
    ensures Solo(s, Task(op, ReadingLeftRoom)) ==
      var (s', host) := Succession(s, op.code, op.user, op.next); (s', Success(Left(host)))
  {
    var Leave(code, user, heir) := op;
    if code !in s.rooms || !s.rooms[code].HostedBy(user) {
      OneStep(s, s, op, ReadingLeftRoom, Finished(Success(Left(None))));
    } else {
      OneStep(s, s, op, ReadingLeftRoom, ListingLeft(s.rooms[code]));
      HandingOverAlone(s, op, s.rooms[code]);
    }
  }

  lemma HandingOverAlone(s: Store, op: Op, room: Room)
    requires op.Leave? && room.Complete?
    ensures Solo(s, Task(op, ListingLeft(room))) ==
      if MembersOf(s, op.code) == {} then (DropRoom(s, op.code), Success(Left(None)))
      else (PutRoom(s, room.(hostId := op.next)), Success(Left(Some(op.next))))
  {
    if MembersOf(s, op.code) == {} {
      OneStep(s, s, op, ListingLeft(room), DeletingRoom);
      OneStep(s, DropRoom(s, op.code), op, DeletingRoom, Finished(Success(Left(None))));
    } else {
      var saved := room.(hostId := op.next);
      OneStep(s, s, op, ListingLeft(room), PassingHost(saved));
      OneStep(s, PutRoom(s, saved), op, PassingHost(saved), Finished(Success(Left(Some(op.next)))));
    }
  }

  lemma KickingAlone(s: Store, op: Op)
    requires op.Kick?
    ensures Solo(s, Task(op, ReadingTarget)) ==
      if op.target in s.users
      then (StoreModel.RemoveMember(DropUsers(s, {op.target}), op.code, s.users[op.target].id),
            Success(Kicked(s.users[op.target].socketId)))
      else (s, Failure(UserNotFound))
  {
    var Kick(_, code, target) := op;
    if target !in s.users {
      OneStep(s, s, op, ReadingTarget, Fail(UserNotFound));
    } else {
      var User(id, _, _, _, socket) := s.users[target];
      var s1 := DropUsers(s, {target});
      OneStep(s, s, op, ReadingTarget, DeletingTarget(id, socket));
      OneStep(s, s1, op, DeletingTarget(id, socket), RemovingTarget(id, socket));
      OneStep(s1, StoreModel.RemoveMember(s1, code, id), op, RemovingTarget(id, socket),
              Finished(Success(Kicked(socket))));
    }
  }

  lemma AloneKick(s: Store, op: Op)
    requires op.Kick?
    ensures Alone(s, op) == (After(s, op), Answer(s, op))
  {
    if Do.HostedRoom(s, op.code, op.host).Failure? || op.host == op.target {
      RefusedAtOnce(s, op, Answer(s, op).error);
    } else {
      OneStep(s, s, op, ReadingRoom, ReadingTarget);
      KickingAlone(s, op);
    }
  }

  lemma ClosingAlone(s: Store, op: Op)
    requires op.Close?
    ensures Solo(s, Task(op, ListingMembers)) ==
      (DropRoom(DropUsers(s, MembersOf(s, op.code)), op.code), Success(RoomClosed))
  {
    var ids := MembersOf(s, op.code);
    var s1 := DropUsers(s, ids);
    if ids == {} {
      assert s1.users == s.users;
      OneStep(s, s, op, ListingMembers, ClosingRoom);
    } else {
      OneStep(s, s, op, ListingMembers, DeletingMembers(ids));
      OneStep(s, s1, op, DeletingMembers(ids), ClosingRoom);
    }
    Ends(s1, DropRoom(s1, op.code), op, ClosingRoom, Success(RoomClosed));
  }

  lemma AloneClose(s: Store, op: Op)
    requires op.Close?
    ensures Alone(s, op) == (After(s, op), Answer(s, op))
  {
    if Do.HostedRoom(s, op.code, op.host).Failure? {
      RefusedAtOnce(s, op, Answer(s, op).error);
    } else {
      OneStep(s, s, op, ReadingRoom, ListingMembers);
      ClosingAlone(s, op);
    }
  }

  lemma AloneUpdateHost(s: Store, op: Op)
    requires op.UpdateHost?
    ensures Alone(s, op) == (After(s, op), Answer(s, op))
  {
    if Do.HostedRoom(s, op.code, op.host).Failure? || op.host == op.to {
      RefusedAtOnce(s, op, Answer(s, op).error);
    } else {
      var room := s.rooms[op.code];
      OneStep(s, s, op, ReadingRoom, CheckingHeir(room));
      if Accepted(s, op) {
        var saved := room.(hostId := op.to);
        OneStep(s, s, op, CheckingHeir(room), SavingRoom(saved));
        Ends(s, PutRoom(s, saved), op, SavingRoom(saved), Success(RoomIs(saved)));
      } else {
        Ends(s, s, op, CheckingHeir(room), Failure(UserNotFound));
      }
    }
  }

  lemma AloneToggleLock(s: Store, op: Op)
    requires op.ToggleLock?
    ensures Alone(s, op) == (After(s, op), Answer(s, op))
  {
    if Do.HostedRoom(s, op.code, op.host).Failure? {
      RefusedAtOnce(s, op, Answer(s, op).error);
    } else {
      var room := s.rooms[op.code];
      OneStep(s, s, op, ReadingRoom, SavingRoom(room.(isLocked := !room.isLocked)));
    }
  }

  lemma SavingUserAlone(s: Store, op: Op, user: User)
    requires op.Connect? || op.Disconnect?
    requires Advance(s, Task(op, LoadingUser)) == SavingUser(user)
    ensures Solo(s, Task(op, LoadingUser)) == (PutUser(s, user), Success(UserIs(user)))
  {
    OneStep(s, s, op, LoadingUser, SavingUser(user));
    Ends(s, PutUser(s, user), op, SavingUser(user), Success(UserIs(user)));
  }

  lemma LoadingAlone(s: Store, op: Op)
    requires op.Connect? || op.Disconnect?
    ensures Solo(s, Task(op, LoadingUser)) == (After(s, op), Answer(s, op))
  {
    var id := op.token.userId;
    if id !in s.users {
      Ends(s, s, op, LoadingUser, Failure(UserNotFound));
    } else if op.Connect? {
      SavingUserAlone(s, op, s.users[id].(isConnected := true, socketId := Some(op.socket)));
    } else {
      SavingUserAlone(s, op, s.users[id].(isConnected := false, socketId := None));
    }
  }

  lemma AloneConnect(s: Store, op: Op)
    requires op.Connect?
    ensures Alone(s, op) == (After(s, op), Answer(s, op))
  {
    if op.token.userId in s.users {
      OneStep(s, s, op, FindingUser, LoadingUser);
      LoadingAlone(s, op);
    } else {
      OneStep(s, s, op, FindingUser, Fail(UserNotFound));
    }
  }

  lemma AloneRejoin(s: Store, op: Op)
    requires op.Rejoin?
    ensures Alone(s, op) == (After(s, op), Answer(s, op))
  {
    var Token(home, user) := op.token;
    if home !in s.rooms {
      Ends(s, s, op, GuardingRoom, Failure(RoomNotFound));
    } else {
      OneStep(s, s, op, GuardingRoom, GuardingMember);
      if user !in MembersOf(s, home) {
        Ends(s, s, op, GuardingMember, Failure(Unauthorized));
      } else {
        OneStep(s, s, op, GuardingMember, RejoiningMembers);
        AloneGuarded(s, op);
      }
    }
  }

  lemma AloneGuarded(s: Store, op: Op)
    requires op.Rejoin? && op.token.roomCode in s.rooms
    requires op.token.userId in MembersOf(s, op.token.roomCode)
    ensures Solo(s, Task(op, RejoiningMembers)) == (s, Answer(s, op))
  {
    var user := op.token.userId;
    if user !in MembersOf(s, op.url) {
      Ends(s, s, op, RejoiningMembers, Failure(UserNotFound));
    } else {
      OneStep(s, s, op, RejoiningMembers, RejoiningUser);
      Ends(s, s, op, RejoiningUser,
           if user in s.users then Success(Session(Token(op.url, user))) else Failure(UserNotFound));
    }
  }

  /** Each service call, its commands run back to back, is the atomic step. */
  lemma AloneIsAtomic(s: Store, op: Op)
    ensures Alone(s, op) == (After(s, op), Answer(s, op))
  {
    if op.Create? {
      SeekingAlone(s, op, 0);
      assert op.candidates[0..] == op.candidates;
    } else if op.Join? { AloneJoin(s, op); }
    else if op.Leave? { AloneLeave(s, op); }
    else if op.Kick? { AloneKick(s, op); }
    else if op.Close? { AloneClose(s, op); }
    else if op.UpdateHost? { AloneUpdateHost(s, op); }
    else if op.ToggleLock? { AloneToggleLock(s, op); }
    else if op.Connect? { AloneConnect(s, op); }
    else if op.Rejoin? { AloneRejoin(s, op); }
    else { LoadingAlone(s, op); }
  }
}
