/** The key builders of the two repositories. */
module Keys {
  import opened Types

  const ROOM := "room:"
  const USERS := ":users"
  const USER := "user:"

  function RoomKey(code: Code): string {
    ROOM + code
  }

  function MembersKey(code: Code): string {
    ROOM + code + USERS
  }

  function UserKey(id: UserId): string {
    USER + id
  }

  /** The code inside a members key. */
  function CodeIn(key: string): Code {
    if |key| < |ROOM| + |USERS| then "" else key[|ROOM|..|key| - |USERS|]
  }

  lemma RoomKeyInjective(c: Code, d: Code)
    ensures RoomKey(c) == RoomKey(d) <==> c == d
  {
    assert RoomKey(c)[|ROOM|..] == c && RoomKey(d)[|ROOM|..] == d;
  }

  lemma MembersKeyInvertible(code: Code)
    ensures CodeIn(MembersKey(code)) == code
  {
    assert MembersKey(code)[|ROOM|..|MembersKey(code)| - |USERS|] == code;
  }

  lemma UserKeyInjective(u: UserId, v: UserId)
    ensures UserKey(u) == UserKey(v) <==> u == v
  {
    assert UserKey(u)[|USER|..] == u && UserKey(v)[|USER|..] == v;
  }

  /** The only way in which keys of two families are one key: the first room's code ends in the
      suffix of a members key. */
  lemma KeysMeet(c: Code, d: Code, u: UserId)
    ensures RoomKey(c) == MembersKey(d) <==> c == d + ":users"
    ensures UserKey(u) != RoomKey(c) && UserKey(u) != MembersKey(d)
  {
    assert MembersKey(d) == RoomKey(d + USERS);
    RoomKeyInjective(c, d + USERS);
    assert UserKey(u)[0] == 'u' && RoomKey(c)[0] == 'r' && MembersKey(d)[0] == 'r';
  }

  /** Codes of one fixed length: each builder is injective and no two families share a key. */
  lemma FamiliesApart(length: nat, c: Code, d: Code, u: UserId, v: UserId)
    requires |c| == length && |d| == length
    ensures RoomKey(c) == RoomKey(d) <==> c == d
    ensures MembersKey(c) == MembersKey(d) <==> c == d
    ensures UserKey(u) == UserKey(v) <==> u == v
    ensures RoomKey(c) != MembersKey(d) && UserKey(u) != RoomKey(c) && UserKey(u) != MembersKey(d)
  {
    RoomKeyInjective(c, d);
    MembersKeyInvertible(c);
    MembersKeyInvertible(d);
    UserKeyInjective(u, v);
    KeysMeet(c, d, u);
  }
}
