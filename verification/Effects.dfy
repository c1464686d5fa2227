/** Each service call belongs to one room and leaves the keys of every other room alone. */
module Effects {
  import opened Types
  import opened StoreModel
  import opened Machine
  import opened Invariant
  import Do = Operations

  function RoomOf(s: Store, op: Op): Option<Code> {
    match op
    case Create(candidates, _, _, _, _, _) => Do.FirstFree(s, candidates)
    case Join(code, _, _) => Some(code)
    case Rejoin(_, _) => None
    case Leave(code, _, _) => Some(code)
    case Kick(_, code, _) => Some(code)
    case Close(_, code) => Some(code)
    case UpdateHost(_, code, _) => Some(code)
    case ToggleLock(_, code) => Some(code)
    case Connect(token, _) => Some(token.roomCode)
    case Disconnect(token) => Some(token.roomCode)
  }

  lemma OtherRoomsUntouched(s: Store, bound: map<UserId, Code>, op: Op, code: Code)
    requires SoundStore(s, bound) && RoomOf(s, op) != Some(code)
    ensures SameRoom(s, After(s, op), code)
  {
    match op
    case Join(c, _, _) => assert RoomSound(s, bound, c);
    case Leave(c, _, _) => assert RoomSound(s, bound, c);
    case UpdateHost(_, c, _) => assert RoomSound(s, bound, c);
    case ToggleLock(_, c) => assert RoomSound(s, bound, c);
    case _ =>
  }

  lemma OtherUsersUntouched(s: Store, bound: map<UserId, Code>, op: Op, user: UserId)
    requires SoundStore(s, bound) && !StrayKick(s, op)
    requires user in bound ==> RoomOf(s, op) != Some(bound[user])
    requires op.Create? || op.Join? ==> user != op.uid
    requires op.Connect? || op.Disconnect? ==>
      op.token.userId in bound && bound[op.token.userId] == op.token.roomCode
    ensures FindUser(After(s, op), user) == FindUser(s, user)
  {
    assert UserSound(s, bound, user);
    match op
    case Leave(code, _, _) => assert RoomSound(s, bound, code);
    case Close(_, code) => assert RoomSound(s, bound, code);
    case Connect(token, _) => assert UserSound(s, bound, token.userId);
    case Disconnect(token) => assert UserSound(s, bound, token.userId);
    case _ =>
  }
}
