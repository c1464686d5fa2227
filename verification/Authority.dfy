/** Who may change a room, over any stretch of an atomic run in which the room exists. */
module Authority {
  import opened Types
  import opened StoreModel
  import opened Machine
  import opened Invariant
  import opened Effects
  import Do = Operations

  predicate Persists(y: System, ops: seq<Op>, code: Code)
    decreases |ops|
  {
    code in y.store.rooms && (ops != [] ==> Persists(Next(y, ops[0]), ops[1..], code))
  }

  /** A change of host: made by `from`, in favour of `to`. */
  datatype Handover = Handover(from: UserId, to: UserId)

  /** The handovers that this step's caller makes: a transfer, or a leave that names a new host. */
  function HandoverBy(s: Store, op: Op, code: Code): seq<Handover> {
    match op
    case UpdateHost(host, c, to) =>
      if c == code && Accepted(s, op) then [Handover(host, to)] else []
    case Leave(c, user, _) =>
      (match Answer(s, op)
       case Success(Left(Some(heir))) => if c == code then [Handover(user, heir)] else []
       case _ => [])
    case _ => []
  }

  function Handovers(y: System, ops: seq<Op>, code: Code): seq<Handover>
    decreases |ops|
  {
    if ops == [] then []
    else HandoverBy(y.store, ops[0], code) + Handovers(Next(y, ops[0]), ops[1..], code)
  }

  /** Each handover is made by the host that the previous one left in place. */
  predicate Chain(handovers: seq<Handover>, first: UserId, last: UserId) {
    if handovers == [] then first == last
    else handovers[0].from == first && Chain(handovers[1..], handovers[0].to, last)
  }

  predicate TogglesLock(s: Store, op: Op, code: Code) {
    op.ToggleLock? && op.code == code && Accepted(s, op)
  }

  function Toggles(y: System, ops: seq<Op>, code: Code): nat
    decreases |ops|
  {
    if ops == [] then 0
    else (if TogglesLock(y.store, ops[0], code) then 1 else 0)
         + Toggles(Next(y, ops[0]), ops[1..], code)
  }

  /** `s'` keeps room `code` but for what the caller of `op` is entitled to change. */
  ghost predicate Authorised(s: Store, s': Store, op: Op, code: Code)
    requires code in s.rooms && code in s'.rooms
  {
    var r, r' := s.rooms[code], s'.rooms[code];
    && r.Complete? && r'.Complete?
    && r' == r.(hostId := r'.hostId, isLocked := r'.isLocked)
    && r'.isLocked == (r.isLocked != TogglesLock(s, op, code))
    && Chain(HandoverBy(s, op, code), r.hostId, r'.hostId)
  }

  lemma LeaveAuthorised(s: Store, bound: map<UserId, Code>, op: Op)
    requires SoundStore(s, bound) && op.Leave?
    requires op.code in s.rooms && op.code in After(s, op).rooms
    ensures Authorised(s, After(s, op), op, op.code)
    ensures MembersOf(After(s, op), op.code) <= MembersOf(s, op.code)
  {
    assert RoomSound(s, bound, op.code);
  }

  lemma StepAuthorised(s: Store, bound: map<UserId, Code>, op: Op, code: Code)
    requires SoundStore(s, bound)
    requires code in s.rooms && code in After(s, op).rooms
    ensures Authorised(s, After(s, op), op, code)
    ensures s.rooms[code].Locked() ==> MembersOf(After(s, op), code) <= MembersOf(s, code)
  {
    assert RoomSound(s, bound, code);
    if RoomOf(s, op) != Some(code) {
      OtherRoomsUntouched(s, bound, op, code);
    } else {
      match op
      case Create(candidates, _, _, _, _, _) => FirstFreeIsFree(s, candidates);
      case Leave(_, _, _) => LeaveAuthorised(s, bound, op);
      case _ =>
    }
  }

  lemma {:induction false} ChainJoins(a: seq<Handover>, b: seq<Handover>, first: UserId, mid: UserId,
                                      last: UserId)
    requires Chain(a, first, mid) && Chain(b, mid, last)
    ensures Chain(a + b, first, last)
  {
    if a == [] {
      assert a + b == b;
    } else {
      assert (a + b)[1..] == a[1..] + b;
      ChainJoins(a[1..], b, a[0].to, mid, last);
    }
  }

  /** The hosts form a chain: each change is a handover made by the host of the moment. */
  lemma {:induction false} HostsHandOver(y: System, ops: seq<Op>, code: Code)
    requires Sound(y) && Possible(y, ops) && Persists(y, ops, code)
    ensures HostOf(y.store, code).Some? && HostOf(Run(y, ops).store, code).Some?
    ensures Chain(Handovers(y, ops, code),
                  HostOf(y.store, code).value, HostOf(Run(y, ops).store, code).value)
    decreases |ops|
  {
    assert RoomSound(y.store, y.bound, code);
    if ops == [] {
    } else {
      var z := Next(y, ops[0]);
      StepAuthorised(y.store, y.bound, ops[0], code);
      SoundStep(y, ops[0]);
      HostsHandOver(z, ops[1..], code);
      ChainJoins(HandoverBy(y.store, ops[0], code), Handovers(z, ops[1..], code),
                 HostOf(y.store, code).value, HostOf(z.store, code).value,
                 HostOf(Run(z, ops[1..]).store, code).value);
    }
  }

  /** The lock is the parity of the hosts' toggles, and the rest of the record never changes. */
  lemma {:induction false} LockIsToggleParity(y: System, ops: seq<Op>, code: Code)
    requires Sound(y) && Possible(y, ops) && Persists(y, ops, code)
    ensures code in Run(y, ops).store.rooms
    ensures var r, r' := y.store.rooms[code], Run(y, ops).store.rooms[code];
      && r.Complete? && r'.Complete?
      && r' == r.(hostId := r'.hostId, isLocked := r'.isLocked)
      && r'.isLocked == (r.isLocked != (Toggles(y, ops, code) % 2 == 1))
    decreases |ops|
  {
    assert RoomSound(y.store, y.bound, code);
    if ops == [] {
    } else {
      StepAuthorised(y.store, y.bound, ops[0], code);
      SoundStep(y, ops[0]);
      LockIsToggleParity(Next(y, ops[0]), ops[1..], code);
    }
  }

  predicate StaysLocked(y: System, ops: seq<Op>, code: Code)
    decreases |ops|
  {
    && code in y.store.rooms && y.store.rooms[code].Locked()
    && (ops != [] ==> StaysLocked(Next(y, ops[0]), ops[1..], code))
  }

  lemma {:induction false} LockedRoomsNeverGrow(y: System, ops: seq<Op>, code: Code)
    requires Sound(y) && Possible(y, ops) && StaysLocked(y, ops, code)
    ensures MembersOf(Run(y, ops).store, code) <= MembersOf(y.store, code)
    decreases |ops|
  {
    if ops == [] {
    } else {
      StepAuthorised(y.store, y.bound, ops[0], code);
      SoundStep(y, ops[0]);
      LockedRoomsNeverGrow(Next(y, ops[0]), ops[1..], code);
    }
  }

  lemma RejectionChangesNothing(y: System, op: Op)
    requires !Accepted(y.store, op)
    ensures Next(y, op) == y
  {}

  /** Who may do what, in terms of the stored room. */
  ghost predicate Permitted(s: Store, op: Op) {
    match op
    case Create(candidates, _, _, _, _, _) => exists c :: c in candidates && c !in s.rooms
    case Join(code, _, _) =>
      && code in s.rooms && s.rooms[code].Complete? && !s.rooms[code].isLocked
      && (s.rooms[code].maxUsers == 0 || |MembersOf(s, code)| < s.rooms[code].maxUsers)
    case Rejoin(url, token) =>
      && token.roomCode in s.rooms && token.userId in s.users
      && s.users[token.userId].roomCode == token.roomCode == url
    case Leave(code, user, _) => user in MembersOf(s, code)
    case Kick(_, _, _) => MayKick(s, op)
    case Close(host, code) => HostOf(s, code) == Some(host)
    case UpdateHost(host, code, to) =>
      HostOf(s, code) == Some(host) && to != host && to in MembersOf(s, code)
    case ToggleLock(host, code) => HostOf(s, code) == Some(host)
    case Connect(token, _) => token.userId in s.users
    case Disconnect(token) => token.userId in s.users
  }

  /** In every reachable state a call is accepted exactly if it is permitted. */
  lemma AcceptedIsPermitted(y: System, op: Op)
    requires Sound(y) && Enabled(y, op)
    ensures Accepted(y.store, op) <==> Permitted(y.store, op)
  {
    match op
    case Create(candidates, _, _, _, _, _) => FreeCandidate(y.store, candidates);
    case Join(code, _, _) => assert RoomSound(y.store, y.bound, code);
    case Rejoin(url, token) =>
      assert RoomSound(y.store, y.bound, url) && UserSound(y.store, y.bound, token.userId);
    case _ =>
  }

  lemma {:induction false} FreeCandidate(s: Store, candidates: seq<Code>)
    ensures Do.FirstFree(s, candidates).Some? <==> exists c :: c in candidates && c !in s.rooms
    ensures var found := Do.FirstFree(s, candidates);
      found.Some? ==> found.value in candidates && found.value !in s.rooms
  {
    if candidates == [] {
    } else {
      FreeCandidate(s, candidates[1..]);
      assert candidates == [candidates[0]] + candidates[1..];
    }
  }

  ghost predicate Seated(y: System, op: Op, code: Code)
    requires op.Create? || op.Join?
  {
    var s, s' := y.store, After(y.store, op);
    && FindUser(s', op.uid) == Some(User(op.uid, op.name, code, false, None))
    && MembersOf(s', code) == MembersOf(s, code) + {op.uid} && op.uid !in MembersOf(s, code)
    && match op
       case Create(candidates, uid, _, max, t0, t1) =>
         && code in candidates && code !in s.rooms && MembersOf(s, code) == {}
         && FindRoom(s', code) == Some(Complete(code, uid, false, max, Created, t0, t1))
       case Join(asked, _, _) => code == asked && FindRoom(s', code) == FindRoom(s, code) != None
  }

  lemma CreatorIsSeated(y: System, op: Op)
    requires Sound(y) && Enabled(y, op) && op.Create? && Accepted(y.store, op)
    ensures exists code :: Signed(y.store, op) == Some(Token(code, op.uid)) && Seated(y, op, code)
  {
    var code := Do.FirstFree(y.store, op.candidates).value;
    FreeCandidate(y.store, op.candidates);
    assert RoomSound(y.store, y.bound, code);
    assert Signed(y.store, op) == Some(Token(code, op.uid)) && Seated(y, op, code);
  }

  lemma JoinerIsSeated(y: System, op: Op)
    requires Sound(y) && Enabled(y, op) && op.Join? && Accepted(y.store, op)
    ensures exists code :: Signed(y.store, op) == Some(Token(code, op.uid)) && Seated(y, op, code)
  {
    assert RoomSound(y.store, y.bound, op.code);
    assert Signed(y.store, op) == Some(Token(op.code, op.uid)) && Seated(y, op, op.code);
  }

  /** A newcomer is stored offline under the fresh id and is a member of the room that the token
      names: for a create a new room with the caller's settings, unlocked and hosted by its only
      member; for a join the room asked for, its record untouched. */
  lemma NewcomersAreSeated(y: System, op: Op)
    requires Sound(y) && Enabled(y, op) && (op.Create? || op.Join?) && Accepted(y.store, op)
    ensures exists code :: Signed(y.store, op) == Some(Token(code, op.uid)) && Seated(y, op, code)
  {
    if op.Create? { CreatorIsSeated(y, op); } else { JoinerIsSeated(y, op); }
  }
}
