/** What the repositories do to the keyspace is what the store model says. */
module Refinement {
  import opened Types
  import opened StoreModel
  import opened Keys
  import opened KeyspaceModel

  // ---------- one command on the keys of one family ----------

  lemma NoOtherType(k: Keyspace, length: nat, code: Code, user: UserId)
    requires Filed(k, length)
    ensures |code| == length ==> MembersKey(code) !in k.strings && RoomKey(code) !in k.sets
    ensures UserKey(user) !in k.sets
  {
    assert StringFiled(k, length, MembersKey(code)) && SetFiled(k, length, RoomKey(code));
    assert SetFiled(k, length, UserKey(user));
    KeysMeet(code, CodeIn(RoomKey(code)), "");
    KeysMeet(code, CodeIn(UserKey(user)), user);
    if MembersKey(code) in k.strings {
      match k.strings[MembersKey(code)]
      case RoomJson(room) => KeysMeet(room.code, code, "");
      case UserJson(record) => KeysMeet(code, code, record.id);
    }
  }

  lemma RoomSaved(k: Keyspace, length: nat, room: Room)
    requires Filed(k, length) && |room.code| == length
    ensures var k' := Set(k, RoomKey(room.code), RoomJson(room));
      Filed(k', length) && StoreOf(k', length) == PutRoom(StoreOf(k, length), room)
  {
    var s, k' := StoreOf(k, length), Set(k, RoomKey(room.code), RoomJson(room));
    NoOtherType(k, length, room.code, "");
    assert Filed(k', length) by { FiledAfterSet(k, length, RoomKey(room.code), RoomJson(room)); }
    forall c, u ensures At(k', length, PutRoom(s, room), c, u) {
      RoomSavedAt(k, length, s, room, c, u);
    }
    StandsForOne(k', length, PutRoom(s, room));
  }

  lemma FiledAfterSet(k: Keyspace, length: nat, key: string, value: Json)
    requires Filed(k, length) && key !in k.sets
    requires StringFiled(Keyspace(map[key := value], map[]), length, key)
    ensures Filed(Set(k, key, value), length)
  {
    var k' := Set(k, key, value);
    forall o ensures StringFiled(k', length, o) && SetFiled(k', length, o) {
      assert StringFiled(k, length, o) && SetFiled(k, length, o);
    }
  }

  lemma RoomSavedAt(k: Keyspace, length: nat, s: Store, room: Room, code: Code, user: UserId)
    requires At(k, length, s, code, user) && |room.code| == length && RoomKey(room.code) !in k.sets
    ensures At(Set(k, RoomKey(room.code), RoomJson(room)), length, PutRoom(s, room), code, user)
  {
    RoomKeyInjective(code, room.code);
    KeysMeet(room.code, code, user);
  }

  lemma UserSaved(k: Keyspace, length: nat, user: User)
    requires Filed(k, length)
    ensures var k' := Set(k, UserKey(user.id), UserJson(user));
      Filed(k', length) && StoreOf(k', length) == PutUser(StoreOf(k, length), user)
  {
    var s, k' := StoreOf(k, length), Set(k, UserKey(user.id), UserJson(user));
    NoOtherType(k, length, "", user.id);
    assert Filed(k', length) by { FiledAfterSet(k, length, UserKey(user.id), UserJson(user)); }
    forall c, u ensures At(k', length, PutUser(s, user), c, u) {
      UserSavedAt(k, length, s, user, c, u);
    }
    StandsForOne(k', length, PutUser(s, user));
  }

  lemma UserSavedAt(k: Keyspace, length: nat, s: Store, user: User, code: Code, id: UserId)
    requires At(k, length, s, code, id) && UserKey(user.id) !in k.sets
    ensures At(Set(k, UserKey(user.id), UserJson(user)), length, PutUser(s, user), code, id)
  {
    UserKeyInjective(id, user.id);
    KeysMeet(code, code, user.id);
  }

  lemma FiledAfterDel(k: Keyspace, length: nat, keys: set<string>)
    requires Filed(k, length)
    ensures Filed(Del(k, keys), length)
  {
    var k' := Del(k, keys);
    forall o ensures StringFiled(k', length, o) && SetFiled(k', length, o) {
      assert StringFiled(k, length, o) && SetFiled(k, length, o);
    }
  }

  lemma RoomDeleted(k: Keyspace, length: nat, code: Code)
    requires Filed(k, length) && |code| == length
    ensures var k' := Del(k, {MembersKey(code), RoomKey(code)});
      Filed(k', length) && StoreOf(k', length) == DropRoom(StoreOf(k, length), code)
  {
    var s, k' := StoreOf(k, length), Del(k, {MembersKey(code), RoomKey(code)});
    FiledAfterDel(k, length, {MembersKey(code), RoomKey(code)});
    forall c, u ensures At(k', length, DropRoom(s, code), c, u) {
      RoomDeletedAt(k, length, s, code, c, u);
    }
    StandsForOne(k', length, DropRoom(s, code));
  }

  lemma RoomDeletedAt(k: Keyspace, length: nat, s: Store, code: Code, c: Code, user: UserId)
    requires At(k, length, s, c, user) && |code| == length
    ensures At(Del(k, {MembersKey(code), RoomKey(code)}), length, DropRoom(s, code), c, user)
  {
    KeysMeet(code, code, user);
    if |c| == length {
      FamiliesApart(length, c, code, user, user);
      FamiliesApart(length, code, c, user, user);
    }
  }

  /** Only the member set of room `code` differs. */
  lemma FiledAfterChange(k: Keyspace, k': Keyspace, length: nat, code: Code)
    requires Filed(k, length) && |code| == length && MembersKey(code) !in k.strings
    requires k'.strings == k.strings
    requires forall key :: key in k'.sets ==>
      k'.sets[key] != {} && (key == MembersKey(code) || key in k.sets)
    ensures Filed(k', length)
  {
    MembersKeyInvertible(code);
    forall o ensures StringFiled(k', length, o) && SetFiled(k', length, o) {
      assert StringFiled(k, length, o) && SetFiled(k, length, o);
    }
  }

  lemma MemberAdded(k: Keyspace, length: nat, code: Code, user: UserId)
    requires Filed(k, length) && |code| == length
    ensures var k' := Sadd(k, MembersKey(code), user);
      && MembersKey(code) !in k.strings
      && Filed(k', length) && StoreOf(k', length) == AddMember(StoreOf(k, length), code, user)
  {
    NoOtherType(k, length, code, user);
    SaddFiled(k, length, code, user);
    SaddStands(k, length, code, user);
  }

  lemma SaddStands(k: Keyspace, length: nat, code: Code, user: UserId)
    requires Filed(k, length) && |code| == length
    requires Filed(Sadd(k, MembersKey(code), user), length)
    ensures StoreOf(Sadd(k, MembersKey(code), user), length) == AddMember(StoreOf(k, length), code, user)
  {
    SaddKeepsStanding(k, length, StoreOf(k, length), code, user);
    StandsForOne(Sadd(k, MembersKey(code), user), length, AddMember(StoreOf(k, length), code, user));
  }

  lemma SaddKeepsStanding(k: Keyspace, length: nat, s: Store, code: Code, user: UserId)
    requires Stands(k, length, s) && |code| == length
    ensures Stands(Sadd(k, MembersKey(code), user), length, AddMember(s, code, user))
  {
    var k' := Sadd(k, MembersKey(code), user);
    forall c, u ensures At(k', length, AddMember(s, code, user), c, u) {
      MemberAddedAt(k, length, s, code, user, c, u);
    }
  }

  lemma SaddFiled(k: Keyspace, length: nat, code: Code, user: UserId)
    requires Filed(k, length) && |code| == length && MembersKey(code) !in k.strings
    ensures Filed(Sadd(k, MembersKey(code), user), length)
  {
    forall key | key in k.sets ensures k.sets[key] != {} { assert SetFiled(k, length, key); }
    FiledAfterChange(k, Sadd(k, MembersKey(code), user), length, code);
  }

  lemma MemberAddedAt(k: Keyspace, length: nat, s: Store, code: Code, user: UserId, c: Code, u: UserId)
    requires Stands(k, length, s) && |code| == length
    ensures At(Sadd(k, MembersKey(code), user), length, AddMember(s, code, user), c, u)
  {
    assert At(k, length, s, c, u) && At(k, length, s, code, u);
    MembersKeyInvertible(c);
    MembersKeyInvertible(code);
  }

  lemma MemberRemoved(k: Keyspace, length: nat, code: Code, user: UserId)
    requires Filed(k, length) && |code| == length
    ensures var k' := Srem(k, MembersKey(code), user);
      && MembersKey(code) !in k.strings
      && Filed(k', length) && StoreOf(k', length) == RemoveMember(StoreOf(k, length), code, user)
  {
    NoOtherType(k, length, code, user);
    SremFiled(k, length, code, user);
    SremStands(k, length, code, user);
  }

  lemma SremStands(k: Keyspace, length: nat, code: Code, user: UserId)
    requires Filed(k, length) && |code| == length
    requires Filed(Srem(k, MembersKey(code), user), length)
    ensures StoreOf(Srem(k, MembersKey(code), user), length) == RemoveMember(StoreOf(k, length), code, user)
  {
    SremKeepsStanding(k, length, StoreOf(k, length), code, user);
    StandsForOne(Srem(k, MembersKey(code), user), length, RemoveMember(StoreOf(k, length), code, user));
  }

  lemma SremKeepsStanding(k: Keyspace, length: nat, s: Store, code: Code, user: UserId)
    requires Stands(k, length, s) && |code| == length
    ensures Stands(Srem(k, MembersKey(code), user), length, RemoveMember(s, code, user))
  {
    var k' := Srem(k, MembersKey(code), user);
    forall c, u ensures At(k', length, RemoveMember(s, code, user), c, u) {
      MemberRemovedAt(k, length, s, code, user, c, u);
    }
  }

  lemma SremFiled(k: Keyspace, length: nat, code: Code, user: UserId)
    requires Filed(k, length) && |code| == length && MembersKey(code) !in k.strings
    ensures Filed(Srem(k, MembersKey(code), user), length)
  {
    forall key | key in k.sets ensures k.sets[key] != {} { assert SetFiled(k, length, key); }
    FiledAfterChange(k, Srem(k, MembersKey(code), user), length, code);
  }

  lemma MemberRemovedAt(k: Keyspace, length: nat, s: Store, code: Code, user: UserId, c: Code, u: UserId)
    requires Stands(k, length, s) && |code| == length
    ensures At(Srem(k, MembersKey(code), user), length, RemoveMember(s, code, user), c, u)
  {
    assert At(k, length, s, c, u) && At(k, length, s, code, u);
    MembersKeyInvertible(c);
    MembersKeyInvertible(code);
  }

  function UserKeys(users: set<UserId>): set<string> {
    set u | u in users :: UserKey(u)
  }

  lemma UsersDeleted(k: Keyspace, length: nat, users: set<UserId>)
    requires Filed(k, length)
    ensures var k' := Del(k, UserKeys(users));
      Filed(k', length) && StoreOf(k', length) == DropUsers(StoreOf(k, length), users)
  {
    var s, k' := StoreOf(k, length), Del(k, UserKeys(users));
    FiledAfterDel(k, length, UserKeys(users));
    forall c, u ensures At(k', length, DropUsers(s, users), c, u) {
      assert At(k, length, s, c, u);
      UsersDeletedAt(k, length, s, users, c, u);
    }
    StandsForOne(k', length, DropUsers(s, users));
  }

  lemma UsersDeletedAt(k: Keyspace, length: nat, s: Store, users: set<UserId>, code: Code, user: UserId)
    requires At(k, length, s, code, user)
    ensures At(Del(k, UserKeys(users)), length, DropUsers(s, users), code, user)
  {
    assert user in users ==> UserKey(user) in UserKeys(users);
    forall v | v in users
      ensures UserKey(v) != RoomKey(code) && UserKey(v) != MembersKey(code)
      ensures UserKey(v) == UserKey(user) ==> v == user
    {
      KeysMeet(code, code, v);
      UserKeyInjective(v, user);
    }
  }

  // ---------- what the reads return ----------

  /** A code of the wrong length names nothing: a read misses, or hits a key of the other type. */
  lemma RoomRead(k: Keyspace, length: nat, code: Code)
    requires Filed(k, length)
    ensures |code| == length ==> RoomKey(code) !in k.sets
    ensures |code| != length ==> RoomKey(code) !in k.strings
    ensures RoomKey(code) in k.strings ==> k.strings[RoomKey(code)].RoomJson?
    ensures FindRoom(StoreOf(k, length), code) == RoomAt(k, code)
    ensures RoomAt(k, code).Some? ==> RoomAt(k, code).value.code == code
  {
    assert At(k, length, StoreOf(k, length), code, "");
    RoomFiled(k, length, code);
    NoOtherType(k, length, code, "");
  }

  lemma MembersRead(k: Keyspace, length: nat, code: Code)
    requires Filed(k, length)
    ensures |code| == length ==> MembersKey(code) !in k.strings
    ensures |code| != length ==> MembersKey(code) !in k.sets
    ensures SetAt(k, MembersKey(code)) == MembersOf(StoreOf(k, length), code)
  {
    assert At(k, length, StoreOf(k, length), code, "");
    MembersFiled(k, length, code);
    NoOtherType(k, length, code, "");
  }

  lemma UserRead(k: Keyspace, length: nat, user: UserId)
    requires Filed(k, length)
    ensures UserKey(user) !in k.sets
    ensures UserKey(user) in k.strings ==> k.strings[UserKey(user)].UserJson?
    ensures FindUser(StoreOf(k, length), user) == UserAt(k, user)
  {
    assert At(k, length, StoreOf(k, length), "", user);
    UserFiled(k, length, user);
    NoOtherType(k, length, "", user);
  }

  // ---------- variadic deletes ----------

  lemma KeysOf(ids: seq<UserId>, keys: seq<string>)
    requires |keys| == |ids| && forall i :: 0 <= i < |ids| ==> keys[i] == UserKey(ids[i])
    ensures (set key | key in keys) == UserKeys(set id | id in ids)
  {
    forall key | key in UserKeys(set id | id in ids) ensures key in keys {
      var id :| id in ids && key == UserKey(id);
      var i :| 0 <= i < |ids| && ids[i] == id;
      assert keys[i] == key;
    }
  }

  lemma UsersRemoved(k: Keyspace, length: nat, ids: seq<UserId>, keys: seq<string>)
    requires Filed(k, length)
    requires |keys| == |ids| && forall i :: 0 <= i < |ids| ==> keys[i] == UserKey(ids[i])
    ensures var k' := Del(k, set key | key in keys);
      Filed(k', length) && StoreOf(k', length) == DropUsers(StoreOf(k, length), set id | id in ids)
  {
    KeysOf(ids, keys);
    UsersDeleted(k, length, set id | id in ids);
  }

  lemma NobodyDropped(s: Store, ids: seq<UserId>)
    requires ids == []
    ensures DropUsers(s, set id | id in ids) == s
  {
    assert (set id | id in ids) == {};
    assert s.users - {} == s.users;
  }
}
