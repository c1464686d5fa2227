/** Which keys exist: those of the live rooms and of their members, and no others. */
module Footprint {
  import opened Types
  import opened StoreModel
  import opened Keys
  import opened KeyspaceModel
  import opened Machine
  import opened Invariant
  import R = Refinement

  ghost predicate RoomsString(s: Store, key: string) {
    exists c :: c in s.rooms && key == "room:" + c
  }

  ghost predicate MembersString(s: Store, key: string) {
    exists c, u :: c in s.rooms && u in MembersOf(s, c) && key == "user:" + u
  }

  ghost predicate RoomsSet(s: Store, key: string) {
    exists c :: c in s.rooms && key == "room:" + c + ":users"
  }

  /** Every run with in-room kicks: in a keyspace that stands for its store, the string keys are
      `room:c` for the live rooms and `user:u` for their members, the set keys are
      `room:c:users` for the live rooms. */
  lemma FootprintIsExact(ops: seq<Op>, k: Keyspace, length: nat)
    requires Possible(INIT, ops) && KicksInRoom(INIT, ops)
    requires Filed(k, length) && StoreOf(k, length) == Run(INIT, ops).store
    ensures var s := Run(INIT, ops).store;
      && (forall key :: key in k.strings <==> RoomsString(s, key) || MembersString(s, key))
      && (forall key :: key in k.sets <==> RoomsSet(s, key))
  {
    SoundRun(INIT, ops);
    var y := Run(INIT, ops);
    forall key ensures key in k.strings <==> RoomsString(y.store, key) || MembersString(y.store, key) {
      StringKeys(k, length, y.store, y.bound, key);
    }
    forall key ensures key in k.sets <==> RoomsSet(y.store, key) {
      SetKeys(k, length, y.store, y.bound, key);
    }
  }

  lemma StringKeys(k: Keyspace, length: nat, s: Store, bound: map<UserId, Code>, key: string)
    requires Filed(k, length) && StoreOf(k, length) == s && SoundStore(s, bound) && Staffed(s)
    ensures key in k.strings <==> RoomsString(s, key) || MembersString(s, key)
  {
    if key in k.strings {
      assert StringFiled(k, length, key);
      match k.strings[key]
      case RoomJson(room) =>
        R.RoomRead(k, length, room.code);
        assert room.code in s.rooms;
      case UserJson(user) =>
        R.UserRead(k, length, user.id);
        assert UserSound(s, bound, user.id) && RoomSound(s, bound, user.roomCode);
    }
    if RoomsString(s, key) {
      var c :| c in s.rooms && key == RoomKey(c);
      R.RoomRead(k, length, c);
    }
    if MembersString(s, key) {
      var c, u :| c in s.rooms && u in MembersOf(s, c) && key == "user:" + u;
      assert key == UserKey(u);
      assert RoomStaffed(s, c);
      R.UserRead(k, length, u);
    }
  }

  lemma SetKeys(k: Keyspace, length: nat, s: Store, bound: map<UserId, Code>, key: string)
    requires Filed(k, length) && StoreOf(k, length) == s && SoundStore(s, bound)
    ensures key in k.sets <==> RoomsSet(s, key)
  {
    if key in k.sets {
      var c := CodeIn(key);
      assert SetFiled(k, length, key);
      R.MembersRead(k, length, c);
      assert RoomSound(s, bound, c);
      assert c in s.rooms;
    }
    if RoomsSet(s, key) {
      var c :| c in s.rooms && key == MembersKey(c);
      R.MembersRead(k, length, c);
      assert RoomSound(s, bound, c);
    }
  }

  // ---------- nothing leaks ----------

  /** Every listed room is closed by its host. */
  function CloseAll(s: Store, codes: seq<Code>): seq<Op>
    requires forall c :: c in s.rooms ==> s.rooms[c].Complete?
    decreases |codes|
  {
    if codes == [] || codes[0] !in s.rooms then []
    else
      var op := Close(s.rooms[codes[0]].hostId, codes[0]);
      [op] + CloseAll(After(s, op), codes[1..])
  }

  lemma RoomsComplete(y: System)
    requires Sound(y)
    ensures forall c :: c in y.store.rooms ==> y.store.rooms[c].Complete?
  {
    forall c | c in y.store.rooms ensures y.store.rooms[c].Complete? { assert RoomSound(y.store, y.bound, c); }
  }

  lemma NoRoomsNoKeys(y: System)
    requires Sound(y) && y.store.rooms == map[]
    ensures y.store == EMPTY
  {
    forall c ensures c !in y.store.members { assert RoomSound(y.store, y.bound, c); }
    forall u ensures u !in y.store.users {
      assert UserSound(y.store, y.bound, u);
    }
  }

  /** From every reachable state: when each host has closed their room, in whatever order, no key
      is left. */
  lemma {:induction false} ClosingEmpties(y: System, codes: seq<Code>)
    requires Sound(y) && Lists(codes, y.store.rooms.Keys)
    ensures forall c :: c in y.store.rooms ==> y.store.rooms[c].Complete?
    ensures Possible(y, CloseAll(y.store, codes))
    ensures Run(y, CloseAll(y.store, codes)).store == EMPTY
    decreases |codes|
  {
    RoomsComplete(y);
    if codes == [] {
      NoRoomsNoKeys(y);
    } else {
      var op := Close(y.store.rooms[codes[0]].hostId, codes[0]);
      SoundStep(y, op);
      ListsTail(codes, y.store.rooms.Keys);
      var y' := Next(y, op);
      assert y'.store.rooms.Keys == y.store.rooms.Keys - {codes[0]};
      ClosingEmpties(y', codes[1..]);
      var rest := CloseAll(y'.store, codes[1..]);
      assert ([op] + rest)[0] == op && ([op] + rest)[1..] == rest;
    }
  }

  lemma NothingLeaks(ops: seq<Op>, codes: seq<Code>, k: Keyspace, length: nat)
    requires Possible(INIT, ops) && Lists(codes, Run(INIT, ops).store.rooms.Keys)
    ensures forall c :: c in Run(INIT, ops).store.rooms ==> Run(INIT, ops).store.rooms[c].Complete?
    ensures var y := Run(INIT, ops); var closing := CloseAll(y.store, codes);
      && Possible(y, closing)
      && (Filed(k, length) && StoreOf(k, length) == Run(y, closing).store ==> k == Keyspace(map[], map[]))
  {
    SoundRun(INIT, ops);
    ClosingEmpties(Run(INIT, ops), codes);
    if Filed(k, length) && StoreOf(k, length) == EMPTY {
      forall key ensures key !in k.strings && key !in k.sets {
        StringKeys(k, length, EMPTY, map[], key);
        SetKeys(k, length, EMPTY, map[], key);
      }
    }
  }
}
