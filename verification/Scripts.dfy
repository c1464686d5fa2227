/** In which order a call writes.  The effect of a whole call does not tell: a leave erases the member
    before the record, a kick the record before the member, and a call cut short leaves a prefix. */
module Scripts {
  import opened Types
  import opened StoreModel
  import opened Machine
  import opened Commands
  import opened Sequential
  import Do = Operations

  /** What the rest of a call writes when it runs alone. */
  function Journal(s: Store, t: Task): seq<Write>
    decreases Rank(t)
  {
    if t.stage.Finished? then []
    else
      var (s', t') := Step(s, t);
      (if WriteOf(t).NoWrite? then [] else [WriteOf(t)])
      + (if Rank(t') < Rank(t) then Journal(s', t') else [])
  }

  lemma Writes(s: Store, op: Op, a: Stage, w: Write, b: Stage)
    requires WriteOf(Task(op, a)) == w && Advance(s, Task(op, a)) == b
    requires Rank(Task(op, b)) < Rank(Task(op, a)) && !a.Finished?
    ensures Journal(s, Task(op, a)) == (if w.NoWrite? then [] else [w]) + Journal(Commit(s, w), Task(op, b))
  {}

  lemma WritesLast(s: Store, op: Op, a: Stage, w: Write)
    requires WriteOf(Task(op, a)) == w && Advance(s, Task(op, a)).Finished? && !a.Finished? && !w.NoWrite?
    ensures Journal(s, Task(op, a)) == [w]
  {
    Writes(s, op, a, w, Advance(s, Task(op, a)));
  }

  // ---------- create and join ----------

  lemma FurnishingWrites(s: Store, op: Op, code: Code)
    requires op.Create?
    ensures Journal(s, Task(op, CreatingUser(code))) ==
      [WriteUser(User(op.uid, op.name, code, false, None)),
       WriteRoom(Complete(code, op.uid, false, op.maxUsers, RoomState.Created, op.createdAt, op.updatedAt)),
       InsertMember(code, op.uid)]
  {
    var user := WriteUser(Do.NewUser(op.uid, op.name, code));
    var room := WriteRoom(Complete(code, op.uid, false, op.maxUsers, RoomState.Created, op.createdAt, op.updatedAt));
    var s' := Commit(Commit(s, user), room);
    Writes(s, op, CreatingUser(code), user, SavingNewRoom(code));
    Writes(Commit(s, user), op, SavingNewRoom(code), room, AddingHost(code));
    Writes(s', op, AddingHost(code), InsertMember(code, op.uid), ExpiringMembers(code));
    Writes(Commit(s', InsertMember(code, op.uid)), op, ExpiringMembers(code), NoWrite, SessionFor(code, op.uid));
  }

  /** One attempt to reserve each candidate up to the first free one. */
  function Attempts(candidates: seq<Code>, from: nat, to: nat): seq<Write>
    requires from <= to < |candidates|
  {
    seq(to + 1 - from, j requires 0 <= j < to + 1 - from => ReserveRoom(candidates[from + j]))
  }

  lemma {:induction false} SeekingWrites(s: Store, op: Op, from: nat, to: nat)
    requires op.Create? && from <= to < |op.candidates| && op.candidates[to] !in s.rooms
    requires forall j :: from <= j < to ==> op.candidates[j] in s.rooms
    ensures Journal(s, Task(op, Reserving(from))) ==
      Attempts(op.candidates, from, to)
      + Journal(Reserve(s, op.candidates[to]), Task(op, CreatingUser(op.candidates[to])))
    decreases |op.candidates| - from
  {
    var code := op.candidates[from];
    if from == to {
      Writes(s, op, Reserving(from), ReserveRoom(code), CreatingUser(code));
      assert Attempts(op.candidates, from, to) == [ReserveRoom(code)];
    } else {
      Writes(s, op, Reserving(from), ReserveRoom(code), Reserving(from + 1));
      SeekingWrites(s, op, from + 1, to);
      assert Attempts(op.candidates, from, to) == [ReserveRoom(code)] + Attempts(op.candidates, from + 1, to);
    }
  }

  lemma CreateWritesInOrder(s: Store, op: Op, i: nat)
    requires op.Create? && i < |op.candidates| && op.candidates[i] !in s.rooms
    requires forall j :: 0 <= j < i ==> op.candidates[j] in s.rooms
    ensures var code := op.candidates[i];
      Journal(s, Task(op, First(op))) ==
        Attempts(op.candidates, 0, i)
        + [WriteUser(User(op.uid, op.name, code, false, None)),
           WriteRoom(Complete(code, op.uid, false, op.maxUsers, RoomState.Created, op.createdAt, op.updatedAt)),
           InsertMember(code, op.uid)]
  {
    SeekingWrites(s, op, 0, i);
    FurnishingWrites(Reserve(s, op.candidates[i]), op, op.candidates[i]);
  }

  lemma JoinWrites(s: Store, op: Op)
    requires op.Join? && op.code in s.rooms && s.rooms[op.code].code == op.code
    requires !s.rooms[op.code].Locked() && !s.rooms[op.code].FullAt(|MembersOf(s, op.code)|)
    ensures Journal(s, Task(op, First(op))) ==
      [WriteUser(User(op.uid, op.name, op.code, false, None)), InsertMember(op.code, op.uid)]
  {
    var user := WriteUser(Do.NewUser(op.uid, op.name, op.code));
    Writes(s, op, ReadingRoom, NoWrite, CountingMembers(s.rooms[op.code]));
    Writes(s, op, CountingMembers(s.rooms[op.code]), NoWrite, JoiningUser(op.code));
    Writes(s, op, JoiningUser(op.code), user, AddingMember(op.code));
    WritesLast(Commit(s, user), op, AddingMember(op.code), InsertMember(op.code, op.uid));
  }

  // ---------- leave ----------

  lemma HandingOverWrites(s: Store, op: Op, room: Room)
    requires op.Leave? && room.Complete?
    ensures Journal(s, Task(op, ListingLeft(room))) ==
      [if MembersOf(s, op.code) == {} then DeleteRoom(op.code) else WriteRoom(room.(hostId := op.next))]
  {
    if MembersOf(s, op.code) == {} {
      Writes(s, op, ListingLeft(room), NoWrite, DeletingRoom);
      WritesLast(s, op, DeletingRoom, DeleteRoom(op.code));
    } else {
      var saved := room.(hostId := op.next);
      Writes(s, op, ListingLeft(room), NoWrite, PassingHost(saved));
      WritesLast(s, op, PassingHost(saved), WriteRoom(saved));
    }
  }

  /** The host's heir, or the end of the room. */
  function Succession(s: Store, op: Op): seq<Write>
    requires op.Leave?
  {
    if HostOf(s, op.code) != Some(op.user) then []
    else if MembersOf(s, op.code) - {op.user} == {} then [DeleteRoom(op.code)]
    else [WriteRoom(s.rooms[op.code].(hostId := op.next))]
  }

  lemma LeftWrites(s: Store, op: Op)
    requires op.Leave? && op.user !in MembersOf(s, op.code)
    ensures Journal(s, Task(op, ReadingLeftRoom)) == Succession(s, op)
  {
    assert MembersOf(s, op.code) - {op.user} == MembersOf(s, op.code);
    if HostOf(s, op.code) == Some(op.user) {
      Writes(s, op, ReadingLeftRoom, NoWrite, ListingLeft(s.rooms[op.code]));
      HandingOverWrites(s, op, s.rooms[op.code]);
    } else {
      Writes(s, op, ReadingLeftRoom, NoWrite, Finished(Success(Left(None))));
    }
  }

  /** The member and then the record are gone. */
  lemma StillSucceeds(s: Store, op: Op)
    requires op.Leave?
    ensures var s' := DropUsers(StoreModel.RemoveMember(s, op.code, op.user), {op.user});
      op.user !in MembersOf(s', op.code) && Succession(s', op) == Succession(s, op)
  {
    var s' := DropUsers(StoreModel.RemoveMember(s, op.code, op.user), {op.user});
    assert MembersOf(s', op.code) == MembersOf(s, op.code) - {op.user};
    assert MembersOf(s', op.code) - {op.user} == MembersOf(s, op.code) - {op.user};
  }

  lemma ErasingWrites(s: Store, op: Op)
    requires op.Leave? && op.user in MembersOf(s, op.code)
    ensures Journal(s, Task(op, First(op))) ==
      [EraseMember(op.code, op.user)]
      + Journal(StoreModel.RemoveMember(s, op.code, op.user), Task(op, DeletingUser))
  {
    Writes(s, op, CheckingMember, NoWrite, RemovingMember);
    Writes(s, op, RemovingMember, EraseMember(op.code, op.user), DeletingUser);
  }

  lemma LeaveWritesInOrder(s: Store, op: Op)
    requires op.Leave? && op.user in MembersOf(s, op.code)
    ensures Journal(s, Task(op, First(op))) ==
      [EraseMember(op.code, op.user), DeleteUsers({op.user})] + Succession(s, op)
  {
    var s1 := StoreModel.RemoveMember(s, op.code, op.user);
    ErasingWrites(s, op);
    Writes(s1, op, DeletingUser, DeleteUsers({op.user}), ReadingLeftRoom);
    StillSucceeds(s, op);
    LeftWrites(DropUsers(s1, {op.user}), op);
  }

  // ---------- kick and close ----------

  lemma KickWrites(s: Store, op: Op)
    requires MayKick(s, op) && FiledById(s)
    ensures Journal(s, Task(op, First(op))) == [DeleteUsers({op.target}), EraseMember(op.code, op.target)]
  {
    var User(id, _, _, _, socket) := s.users[op.target];
    var s1 := DropUsers(s, {op.target});
    Writes(s, op, ReadingRoom, NoWrite, ReadingTarget);
    Writes(s, op, ReadingTarget, NoWrite, DeletingTarget(id, socket));
    Writes(s, op, DeletingTarget(id, socket), DeleteUsers({op.target}), RemovingTarget(id, socket));
    WritesLast(s1, op, RemovingTarget(id, socket), EraseMember(op.code, id));
  }

  lemma CloseWrites(s: Store, op: Op)
    requires op.Close? && HostOf(s, op.code) == Some(op.host)
    ensures var ids := MembersOf(s, op.code);
      Journal(s, Task(op, First(op))) ==
        (if ids == {} then [] else [DeleteUsers(ids)]) + [DeleteRoom(op.code)]
  {
    var ids := MembersOf(s, op.code);
    Writes(s, op, ReadingRoom, NoWrite, ListingMembers);
    if ids == {} {
      Writes(s, op, ListingMembers, NoWrite, ClosingRoom);
      WritesLast(s, op, ClosingRoom, DeleteRoom(op.code));
    } else {
      Writes(s, op, ListingMembers, NoWrite, DeletingMembers(ids));
      Writes(s, op, DeletingMembers(ids), DeleteUsers(ids), ClosingRoom);
      WritesLast(DropUsers(s, ids), op, ClosingRoom, DeleteRoom(op.code));
    }
  }

  // ---------- one record ----------

  lemma TransferWrites(s: Store, op: Op)
    requires op.UpdateHost? && HostOf(s, op.code) == Some(op.host)
    requires op.to != op.host && op.to in MembersOf(s, op.code)
    ensures Journal(s, Task(op, First(op))) == [WriteRoom(s.rooms[op.code].(hostId := op.to))]
  {
    var saved := s.rooms[op.code].(hostId := op.to);
    Writes(s, op, ReadingRoom, NoWrite, CheckingHeir(s.rooms[op.code]));
    Writes(s, op, CheckingHeir(s.rooms[op.code]), NoWrite, SavingRoom(saved));
    WritesLast(s, op, SavingRoom(saved), WriteRoom(saved));
  }

  lemma ToggleWrites(s: Store, op: Op)
    requires op.ToggleLock? && HostOf(s, op.code) == Some(op.host)
    ensures Journal(s, Task(op, First(op))) == [WriteRoom(s.rooms[op.code].(isLocked := !s.rooms[op.code].isLocked))]
  {
    var saved := s.rooms[op.code].(isLocked := !s.rooms[op.code].isLocked);
    Writes(s, op, ReadingRoom, NoWrite, SavingRoom(saved));
    WritesLast(s, op, SavingRoom(saved), WriteRoom(saved));
  }

  lemma ConnectWrites(s: Store, op: Op)
    requires op.Connect? && op.token.userId in s.users
    ensures Journal(s, Task(op, First(op))) ==
      [WriteUser(s.users[op.token.userId].(isConnected := true, socketId := Some(op.socket)))]
  {
    var saved := s.users[op.token.userId].(isConnected := true, socketId := Some(op.socket));
    Writes(s, op, FindingUser, NoWrite, LoadingUser);
    Writes(s, op, LoadingUser, NoWrite, SavingUser(saved));
    WritesLast(s, op, SavingUser(saved), WriteUser(saved));
  }

  lemma DisconnectWrites(s: Store, op: Op)
    requires op.Disconnect? && op.token.userId in s.users
    ensures Journal(s, Task(op, First(op))) ==
      [WriteUser(s.users[op.token.userId].(isConnected := false, socketId := None))]
  {
    var saved := s.users[op.token.userId].(isConnected := false, socketId := None);
    Writes(s, op, LoadingUser, NoWrite, SavingUser(saved));
    WritesLast(s, op, SavingUser(saved), WriteUser(saved));
  }
}
