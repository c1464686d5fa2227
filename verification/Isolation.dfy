/** A room's keys depend on the calls that name the room, and on nothing else in the run. */
module Isolation {
  import opened Types
  import opened StoreModel
  import opened Machine
  import opened Invariant
  import opened Effects
  import Do = Operations

  /** What of a step concerns room `code`; a create is replayed at the code it reserved. */
  function Concerning(s: Store, op: Op, code: Code): seq<Op> {
    if RoomOf(s, op) != Some(code) then []
    else if op.Create? then [op.(candidates := [code])] else [op]
  }

  function Project(y: System, ops: seq<Op>, code: Code): seq<Op>
    decreases |ops|
  {
    if ops == [] then []
    else Concerning(y.store, ops[0], code) + Project(Next(y, ops[0]), ops[1..], code)
  }

  predicate BoundTo(y: System, user: UserId, code: Code) {
    user in y.bound && y.bound[user] == code
  }

  ghost predicate SameUser(y: System, z: System, code: Code, user: UserId) {
    && (BoundTo(y, user, code) <==> BoundTo(z, user, code))
    && (user in z.bound ==> BoundTo(z, user, code))
    && (BoundTo(y, user, code) ==> FindUser(y.store, user) == FindUser(z.store, user))
  }

  /** `z` is what `y` would be if only room `code` had ever been used. */
  ghost predicate Alike(y: System, z: System, code: Code) {
    && SameRoom(y.store, z.store, code)
    && (forall u :: SameUser(y, z, code, u))
    && (forall t :: t in y.tokens && t.roomCode == code ==> t in z.tokens)
  }

  lemma SkippedStep(y: System, z: System, op: Op, code: Code)
    requires Sound(y) && Sound(z) && Alike(y, z, code)
    requires Enabled(y, op) && !StrayKick(y.store, op) && RoomOf(y.store, op) != Some(code)
    ensures Alike(Next(y, op), z, code)
  {
    var y' := Next(y, op);
    OtherRoomsUntouched(y.store, y.bound, op, code);
    NewBindings(y, op);
    forall u ensures SameUser(y', z, code, u) {
      assert SameUser(y, z, code, u);
      if BoundTo(y, u, code) {
        OtherUsersUntouched(y.store, y.bound, op, u);
      }
    }
  }

  /** Ids are bound, and tokens signed, for the room that the step belongs to. */
  lemma NewBindings(y: System, op: Op)
    requires Sound(y) && Enabled(y, op)
    ensures forall u :: u in Next(y, op).bound ==>
      (u in y.bound && Next(y, op).bound[u] == y.bound[u])
      || ((op.Create? || op.Join?) && u == op.uid && Some(Next(y, op).bound[u]) == RoomOf(y.store, op))
    ensures forall t :: t in Next(y, op).tokens ==>
      t in y.tokens || Some(t.roomCode) == RoomOf(y.store, op)
  {
    match op
    case Join(code, _, _) => assert RoomSound(y.store, y.bound, code);
    case Rejoin(url, token) => assert RoomSound(y.store, y.bound, url);
    case _ =>
  }

  /** A call on room `code` finds the same and does the same in both. */
  ghost predicate SameEffect(y: System, z: System, op: Op, op': Op, code: Code) {
    && SameRoom(After(y.store, op), After(z.store, op'), code)
    && Signed(y.store, op) == Signed(z.store, op')
    && (forall u :: BoundTo(y, u, code) || u !in y.bound ==>
          FindUser(After(y.store, op), u) == FindUser(After(z.store, op'), u))
  }

  lemma SameUsers(y: System, z: System, code: Code)
    requires Sound(y) && Sound(z) && Alike(y, z, code)
    ensures forall u :: BoundTo(y, u, code) || u !in y.bound ==>
      FindUser(y.store, u) == FindUser(z.store, u)
  {
    forall u | BoundTo(y, u, code) || u !in y.bound
      ensures FindUser(y.store, u) == FindUser(z.store, u)
    {
      assert SameUser(y, z, code, u) && UserSound(y.store, y.bound, u) && UserSound(z.store, z.bound, u);
    }
  }

  lemma SameCreate(y: System, z: System, op: Op, code: Code)
    requires Sound(y) && Sound(z) && Alike(y, z, code) && Enabled(y, op)
    requires op.Create? && RoomOf(y.store, op) == Some(code)
    ensures SameEffect(y, z, op, op.(candidates := [code]), code)
  {
    FirstFreeIsFree(y.store, op.candidates);
    SameUsers(y, z, code);
    assert Do.FirstFree(z.store, [code]) == Some(code);
  }

  lemma SameJoin(y: System, z: System, op: Op, code: Code)
    requires Sound(y) && Sound(z) && Alike(y, z, code) && Enabled(y, op)
    requires op.Join? && op.code == code
    ensures SameEffect(y, z, op, op, code)
  {
    SameUsers(y, z, code);
    assert RoomSound(y.store, y.bound, code);
  }

  lemma SameLeave(y: System, z: System, op: Op, code: Code)
    requires Sound(y) && Sound(z) && Alike(y, z, code) && Enabled(y, op)
    requires op.Leave? && op.code == code
    ensures SameEffect(y, z, op, op, code)
  {
    assert op.user in MembersOf(y.store, code) ==>
      code in y.store.rooms && y.store.rooms[code].code == code by {
      assert RoomSound(y.store, y.bound, code);
    }
    SameUsers(y, z, code);
  }

  lemma SameClose(y: System, z: System, op: Op, code: Code)
    requires Sound(y) && Sound(z) && Alike(y, z, code) && Enabled(y, op)
    requires op.Close? && op.code == code
    ensures SameEffect(y, z, op, op, code)
  {
    SameUsers(y, z, code);
    assert RoomSound(y.store, y.bound, code);
  }

  lemma SameKick(y: System, z: System, op: Op, code: Code)
    requires Sound(y) && Sound(z) && Alike(y, z, code) && Enabled(y, op)
    requires op.Kick? && op.code == code && !StrayKick(y.store, op)
    ensures SameEffect(y, z, op, op, code) && !StrayKick(z.store, op)
  {
    SameUsers(y, z, code);
    assert UserSound(y.store, y.bound, op.target) && UserSound(z.store, z.bound, op.target);
    assert SameUser(y, z, code, op.target);
  }

  lemma SameRoomSave(y: System, z: System, op: Op, code: Code)
    requires Sound(y) && Sound(z) && Alike(y, z, code)
    requires (op.UpdateHost? || op.ToggleLock?) && op.code == code
    ensures SameEffect(y, z, op, op, code)
  {
    SameUsers(y, z, code);
    assert RoomSound(y.store, y.bound, code);
  }

  lemma SameUserSave(y: System, z: System, op: Op, code: Code)
    requires Sound(y) && Sound(z) && Alike(y, z, code) && Enabled(y, op)
    requires (op.Connect? || op.Disconnect?) && op.token.roomCode == code
    ensures SameEffect(y, z, op, op, code)
  {
    SameUsers(y, z, code);
    assert UserSound(y.store, y.bound, op.token.userId);
  }

  lemma MatchedEffect(y: System, z: System, op: Op, op': Op, code: Code)
    requires Sound(y) && Sound(z) && Alike(y, z, code) && Enabled(y, op)
    requires !StrayKick(y.store, op) && Concerning(y.store, op, code) == [op']
    ensures SameEffect(y, z, op, op', code) && !StrayKick(z.store, op') && Enabled(z, op')
  {
    if op.Create? || op.Join? { assert SameUser(y, z, code, op.uid); }
    match op
    case Create(_, _, _, _, _, _) => SameCreate(y, z, op, code);
    case Join(_, _, _) => SameJoin(y, z, op, code);
    case Leave(_, _, _) => SameLeave(y, z, op, code);
    case Kick(_, _, _) => SameKick(y, z, op, code);
    case Close(_, _) => SameClose(y, z, op, code);
    case UpdateHost(_, _, _) => SameRoomSave(y, z, op, code);
    case ToggleLock(_, _) => SameRoomSave(y, z, op, code);
    case _ => SameUserSave(y, z, op, code);
  }

  lemma MatchedStep(y: System, z: System, op: Op, op': Op, code: Code)
    requires Sound(y) && Sound(z) && Alike(y, z, code) && Enabled(y, op)
    requires !StrayKick(y.store, op) && Concerning(y.store, op, code) == [op']
    ensures Alike(Next(y, op), Next(z, op'), code)
  {
    MatchedEffect(y, z, op, op', code);
    NewBindings(y, op);
    forall u ensures SameUser(Next(y, op), Next(z, op'), code, u) {
      assert SameUser(y, z, code, u);
    }
  }

  lemma {:induction false} ProjectionRuns(y: System, z: System, ops: seq<Op>, code: Code)
    requires Sound(y) && Sound(z) && Alike(y, z, code)
    requires Possible(y, ops) && KicksInRoom(y, ops)
    ensures Possible(z, Project(y, ops, code)) && KicksInRoom(z, Project(y, ops, code))
    ensures Alike(Run(y, ops), Run(z, Project(y, ops, code)), code)
    decreases |ops|
  {
    if ops == [] {
    } else {
      var mine := Concerning(y.store, ops[0], code);
      var rest := Project(Next(y, ops[0]), ops[1..], code);
      SoundStep(y, ops[0]);
      if mine == [] {
        SkippedStep(y, z, ops[0], code);
        assert Project(y, ops, code) == rest;
        ProjectionRuns(Next(y, ops[0]), z, ops[1..], code);
      } else {
        MatchedEffect(y, z, ops[0], mine[0], code);
        MatchedStep(y, z, ops[0], mine[0], code);
        SoundStep(z, mine[0]);
        assert (mine + rest)[0] == mine[0] && (mine + rest)[1..] == rest;
        ProjectionRuns(Next(y, ops[0]), Next(z, mine[0]), ops[1..], code);
      }
    }
  }

  /** Replaying only the calls on one room, the rest of the server unused, gives that room the
      same record, the same members and the same user records. */
  lemma RoomsAreIsolated(ops: seq<Op>, code: Code)
    requires Possible(INIT, ops) && KicksInRoom(INIT, ops)
    ensures Possible(INIT, Project(INIT, ops, code))
    ensures var s, s' := Run(INIT, ops).store, Run(INIT, Project(INIT, ops, code)).store;
      && FindRoom(s, code) == FindRoom(s', code)
      && MembersOf(s, code) == MembersOf(s', code)
      && forall u :: if u in s.users && s.users[u].roomCode == code
                     then FindUser(s', u) == FindUser(s, u) else u !in s'.users
  {
    forall u ensures SameUser(INIT, INIT, code, u) {}
    ProjectionRuns(INIT, INIT, ops, code);
    SoundRun(INIT, ops);
    SoundRun(INIT, Project(INIT, ops, code));
    var y, z := Run(INIT, ops), Run(INIT, Project(INIT, ops, code));
    forall u ensures if u in y.store.users && y.store.users[u].roomCode == code
      then FindUser(z.store, u) == FindUser(y.store, u) else u !in z.store.users
    {
      assert SameUser(y, z, code, u);
      assert UserSound(y.store, y.bound, u) && UserSound(z.store, z.bound, u);
    }
  }
}
