/** The flat keyspace, and the three families of keys that it holds. */
module KeyspaceModel {
  import opened Types
  import opened StoreModel
  import opened Keys

  /** What a string key holds. */
  datatype Json = RoomJson(room: Room) | UserJson(user: User)

  datatype Keyspace = Keyspace(strings: map<string, Json>, sets: map<string, set<string>>)

  // ---------- the commands ----------

  predicate Present(k: Keyspace, key: string) {
    key in k.strings || key in k.sets
  }

  function Get(k: Keyspace, key: string): Result<Option<Json>> {
    if key in k.sets then Failure(WrongType)
    else if key in k.strings then Success(Some(k.strings[key]))
    else Success(None)
  }

  /** Replaces whatever the key held, of whatever type. */
  function Set(k: Keyspace, key: string, value: Json): Keyspace {
    Keyspace(k.strings[key := value], k.sets - {key})
  }

  function Del(k: Keyspace, keys: set<string>): Keyspace {
    Keyspace(k.strings - keys, k.sets - keys)
  }

  function SetAt(k: Keyspace, key: string): set<string> {
    if key in k.sets then k.sets[key] else {}
  }

  function Sadd(k: Keyspace, key: string, value: string): Keyspace {
    k.(sets := k.sets[key := SetAt(k, key) + {value}])
  }

  function Srem(k: Keyspace, key: string, value: string): Keyspace {
    var rest := SetAt(k, key) - {value};
    k.(sets := if rest == {} then k.sets - {key} else k.sets[key := rest])
  }

  /** What one key holds. */
  datatype Held = Nothing | Text(json: Json) | Members(ids: set<string>)

  function HeldAt(k: Keyspace, key: string): Held {
    if key in k.strings then Text(k.strings[key])
    else if key in k.sets then Members(k.sets[key])
    else Nothing
  }

  /** No key holds two things. */
  ghost predicate Typed(k: Keyspace) {
    forall key :: !(key in k.strings && key in k.sets)
  }

  /** Each command, seen from one key `o`: a write takes the place of whatever was there; a deletion
      leaves nothing; of a set, adding makes it and removing the last element unmakes it. */
  lemma CommandsByKey(k: Keyspace, key: string, value: Json, keys: set<string>, id: string, o: string)
    requires Typed(k)
    ensures Typed(Set(k, key, value)) && Typed(Del(k, keys)) && Typed(Srem(k, key, id))
    ensures HeldAt(Set(k, key, value), o) == if o == key then Text(value) else HeldAt(k, o)
    ensures HeldAt(Del(k, keys), o) == if o in keys then Nothing else HeldAt(k, o)
    ensures !HeldAt(k, key).Text? ==>
      var was := if HeldAt(k, key).Members? then HeldAt(k, key).ids else {};
      && Typed(Sadd(k, key, id))
      && HeldAt(Sadd(k, key, id), o) == (if o == key then Members(was + {id}) else HeldAt(k, o))
      && HeldAt(Srem(k, key, id), o) ==
           if o != key then HeldAt(k, o) else if was - {id} == {} then Nothing else Members(was - {id})
    ensures Get(k, key) == match HeldAt(k, key)
      case Nothing => Success(None)
      case Text(json) => Success(Some(json))
      case Members(_) => Failure(WrongType)
    ensures Present(k, key) <==> !HeldAt(k, key).Nothing?
  {}

  // ---------- the three families ----------

  /** A string key is a room's or a user's, holds the record filed under it, and holds no set. */
  ghost predicate StringFiled(k: Keyspace, length: nat, key: string) {
    key in k.strings ==>
      && key !in k.sets
      && match k.strings[key]
         case RoomJson(room) => key == RoomKey(room.code) && |room.code| == length
         case UserJson(user) => key == UserKey(user.id)
  }

  /** A set key is a room's, and the set is not empty. */
  ghost predicate SetFiled(k: Keyspace, length: nat, key: string) {
    key in k.sets ==> key == MembersKey(CodeIn(key)) && |CodeIn(key)| == length && k.sets[key] != {}
  }

  /** Nothing but the three families, with codes of one length. */
  ghost predicate Filed(k: Keyspace, length: nat) {
    && (forall key :: StringFiled(k, length, key))
    && (forall key :: SetFiled(k, length, key))
  }

  function RoomAt(k: Keyspace, code: Code): Option<Room> {
    if RoomKey(code) in k.strings && k.strings[RoomKey(code)].RoomJson?
    then Some(k.strings[RoomKey(code)].room) else None
  }

  function UserAt(k: Keyspace, user: UserId): Option<User> {
    if UserKey(user) in k.strings && k.strings[UserKey(user)].UserJson?
    then Some(k.strings[UserKey(user)].user) else None
  }

  /** The keys of room `code` and of user `user` hold what the store says. */
  ghost predicate At(k: Keyspace, length: nat, s: Store, code: Code, user: UserId) {
    && FindRoom(s, code) == (if |code| == length then RoomAt(k, code) else None)
    && (code in s.members <==> |code| == length && MembersKey(code) in k.sets)
    && MembersOf(s, code) == (if |code| == length then SetAt(k, MembersKey(code)) else {})
    && FindUser(s, user) == UserAt(k, user)
  }

  /** Every code and every user: the keyspace stands for this store. */
  ghost predicate Stands(k: Keyspace, length: nat, s: Store) {
    forall c, u :: At(k, length, s, c, u)
  }

  /** The store that a keyspace stands for: there is exactly one. */
  ghost function StoreOf(k: Keyspace, length: nat): (s: Store)
    requires Filed(k, length)
    ensures Stands(k, length, s)
  {
    SomeStoreStands(k, length);
    var s :| Stands(k, length, s);
    s
  }

  lemma SomeStoreStands(k: Keyspace, length: nat)
    requires Filed(k, length)
    ensures exists s :: Stands(k, length, s)
  {
    var rooms := RoomsIn(k, length);
    var members := MembersIn(k, length);
    var users := UsersIn(k, length);
    var s := Store(rooms, members, users);
    forall c, u ensures At(k, length, s, c, u) {
      assert RoomIn(k, length, rooms, c) && MemberSetIn(k, length, members, c) && UserIn(k, users, u);
    }
    assert Stands(k, length, s);
  }

  ghost predicate RoomIn(k: Keyspace, length: nat, rooms: map<Code, Room>, code: Code) {
    && (code in rooms <==> |code| == length && RoomAt(k, code).Some?)
    && (code in rooms ==> rooms[code] == RoomAt(k, code).value)
  }

  ghost predicate MemberSetIn(k: Keyspace, length: nat, members: map<Code, set<UserId>>, code: Code) {
    && (code in members <==> |code| == length && MembersKey(code) in k.sets)
    && (code in members ==> members[code] == k.sets[MembersKey(code)])
  }

  ghost predicate UserIn(k: Keyspace, users: map<UserId, User>, user: UserId) {
    && (user in users <==> UserAt(k, user).Some?)
    && (user in users ==> users[user] == UserAt(k, user).value)
  }

  lemma RoomsIn(k: Keyspace, length: nat) returns (rooms: map<Code, Room>)
    requires Filed(k, length)
    ensures forall c :: RoomIn(k, length, rooms, c)
  {
    var codes := set key | key in k.strings && k.strings[key].RoomJson? :: k.strings[key].room.code;
    rooms := map c | c in codes && RoomAt(k, c).Some? :: RoomAt(k, c).value;
    forall c ensures RoomIn(k, length, rooms, c) { RoomFiled(k, length, c); }
  }

  lemma MembersIn(k: Keyspace, length: nat) returns (members: map<Code, set<UserId>>)
    requires Filed(k, length)
    ensures forall c :: MemberSetIn(k, length, members, c)
  {
    var codes := set key | key in k.sets :: CodeIn(key);
    members := map c | c in codes && MembersKey(c) in k.sets :: k.sets[MembersKey(c)];
    forall c ensures MemberSetIn(k, length, members, c) { MembersFiled(k, length, c); }
  }

  lemma UsersIn(k: Keyspace, length: nat) returns (users: map<UserId, User>)
    requires Filed(k, length)
    ensures forall u :: UserIn(k, users, u)
  {
    var ids := set key | key in k.strings && k.strings[key].UserJson? :: k.strings[key].user.id;
    users := map u | u in ids && UserAt(k, u).Some? :: UserAt(k, u).value;
    forall u ensures UserIn(k, users, u) { UserFiled(k, length, u); }
  }

  lemma RoomFiled(k: Keyspace, length: nat, code: Code)
    requires Filed(k, length)
    ensures RoomKey(code) in k.strings <==> RoomAt(k, code).Some?
    ensures RoomAt(k, code).Some? ==> RoomAt(k, code).value.code == code && |code| == length
  {
    assert StringFiled(k, length, RoomKey(code));
    if RoomKey(code) in k.strings {
      match k.strings[RoomKey(code)]
      case RoomJson(room) => RoomKeyInjective(code, room.code);
      case UserJson(user) => KeysMeet(code, code, user.id);
    }
  }

  lemma MembersFiled(k: Keyspace, length: nat, code: Code)
    requires Filed(k, length)
    ensures CodeIn(MembersKey(code)) == code
    ensures MembersKey(code) in k.sets ==> |code| == length
  {
    MembersKeyInvertible(code);
    assert SetFiled(k, length, MembersKey(code));
  }

  lemma UserFiled(k: Keyspace, length: nat, user: UserId)
    requires Filed(k, length)
    ensures UserKey(user) in k.strings <==> UserAt(k, user).Some?
    ensures UserAt(k, user).Some? ==> UserAt(k, user).value.id == user
  {
    assert StringFiled(k, length, UserKey(user));
    if UserKey(user) in k.strings {
      match k.strings[UserKey(user)]
      case RoomJson(room) => KeysMeet(room.code, room.code, user);
      case UserJson(record) => UserKeyInjective(user, record.id);
    }
  }

  lemma StandsForOne(k: Keyspace, length: nat, s: Store)
    requires Filed(k, length) && Stands(k, length, s)
    ensures StoreOf(k, length) == s
  {
    var t := StoreOf(k, length);
    forall c ensures SameRoom(s, t, c) {
      assert At(k, length, s, c, "") && At(k, length, t, c, "");
    }
    forall u ensures FindUser(s, u) == FindUser(t, u) {
      assert At(k, length, s, "", u) && At(k, length, t, "", u);
    }
    SameStores(s, t);
  }

  lemma SameStores(s: Store, t: Store)
    requires forall c :: SameRoom(s, t, c)
    requires forall u :: FindUser(s, u) == FindUser(t, u)
    ensures s == t
  {
    forall c ensures (c in s.rooms <==> c in t.rooms) && (c in s.rooms ==> s.rooms[c] == t.rooms[c]) {
      assert SameRoom(s, t, c);
    }
    forall c ensures (c in s.members <==> c in t.members) && (c in s.members ==> s.members[c] == t.members[c]) {
      assert SameRoom(s, t, c);
    }
    forall u ensures (u in s.users <==> u in t.users) && (u in s.users ==> s.users[u] == t.users[u]) {
      assert FindUser(s, u) == FindUser(t, u);
    }
    assert s.rooms == t.rooms && s.members == t.members && s.users == t.users;
  }
}
