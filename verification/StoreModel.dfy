/** The three families of keys, as the repositories present them. */
module StoreModel {
  import opened Types

  datatype Store = Store(rooms: map<Code, Room>,
                         members: map<Code, set<UserId>>,
                         users: map<UserId, User>)

  const EMPTY := Store(map[], map[], map[])

  function FindRoom(s: Store, code: Code): Option<Room> {
    if code in s.rooms then Some(s.rooms[code]) else None
  }

  function FindUser(s: Store, user: UserId): Option<User> {
    if user in s.users then Some(s.users[user]) else None
  }

  function MembersOf(s: Store, code: Code): set<UserId> {
    if code in s.members then s.members[code] else {}
  }

  /** The host of a room that the store holds complete. */
  function HostOf(s: Store, code: Code): Option<UserId> {
    match FindRoom(s, code)
    case Some(Complete(_, host, _, _, _, _, _)) => Some(host)
    case _ => None
  }

  /** The two stores hold the same under both keys of room `code`. */
  ghost predicate SameRoom(s: Store, s': Store, code: Code) {
    && FindRoom(s', code) == FindRoom(s, code)
    && MembersOf(s', code) == MembersOf(s, code)
    && (code in s'.members <==> code in s.members)
  }

  ghost predicate FiledByCode(s: Store) {
    forall c :: c in s.rooms ==> s.rooms[c].code == c
  }

  ghost predicate FiledById(s: Store) {
    forall u :: u in s.users ==> s.users[u].id == u
  }

  function PutRoom(s: Store, room: Room): Store {
    s.(rooms := s.rooms[room.code := room])
  }

  /** A reservation writes the placeholder only where there is no room yet. */
  function Reserve(s: Store, code: Code): Store {
    if code in s.rooms then s else PutRoom(s, Placeholder(code))
  }

  /** Deletes both keys of a room. */
  function DropRoom(s: Store, code: Code): Store {
    s.(rooms := s.rooms - {code}, members := s.members - {code})
  }

  function AddMember(s: Store, code: Code, user: UserId): Store {
    s.(members := s.members[code := MembersOf(s, code) + {user}])
  }

  /** A set that becomes empty loses its key. */
  function RemoveMember(s: Store, code: Code, user: UserId): Store {
    var rest := MembersOf(s, code) - {user};
    s.(members := if rest == {} then s.members - {code} else s.members[code := rest])
  }

  function PutUser(s: Store, user: User): Store {
    s.(users := s.users[user.id := user])
  }

  function DropUsers(s: Store, users: set<UserId>): Store {
    s.(users := s.users - users)
  }

  /** `listing` is a reply of SMEMBERS: every element once, in any order. */
  ghost predicate Lists(listing: seq<UserId>, members: set<UserId>) {
    && (forall u :: u in listing <==> u in members)
    && (forall i, j :: 0 <= i < j < |listing| ==> listing[i] != listing[j])
  }

  lemma {:induction false} ListsTail(listing: seq<UserId>, members: set<UserId>)
    requires Lists(listing, members) && listing != []
    ensures Lists(listing[1..], members - {listing[0]})
  {
    forall u | u in members - {listing[0]} ensures u in listing[1..] {
      var i :| 0 <= i < |listing| && listing[i] == u;
      assert listing[1..][i - 1] == u;
    }
  }

  lemma {:induction false} ListingLength(listing: seq<UserId>, members: set<UserId>)
    requires Lists(listing, members)
    ensures |listing| == |members|
  {
    if listing == [] {
      assert members == {};
    } else {
      ListsTail(listing, members);
      ListingLength(listing[1..], members - {listing[0]});
    }
  }
}
