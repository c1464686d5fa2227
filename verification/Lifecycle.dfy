/** Theorems about whole atomic runs: membership, tokens, lookups. */
module Lifecycle {
  import opened Types
  import opened StoreModel
  import opened Machine
  import opened Invariant
  import Do = Operations

  /** The protocol's promises about the store, in plain terms. */
  ghost predicate Consistent(s: Store) {
    // one host a room, and the host is a member
    && (forall c :: c in s.rooms ==>
          s.rooms[c].Complete? && s.rooms[c].code == c && s.rooms[c].hostId in MembersOf(s, c))
    // one room a user
    && (forall c, d, u {:trigger u in MembersOf(s, c), u in MembersOf(s, d)} ::
          u in MembersOf(s, c) && u in MembersOf(s, d) ==> c == d)
    // members only where there is a room: leave never finds its room gone
    && (forall c, u {:trigger u in MembersOf(s, c)} :: u in MembersOf(s, c) ==> c in s.rooms)
    // a user record's owner is in the member set of its own room, and that room exists
    && (forall u :: u in s.users ==>
          s.users[u].id == u && u in MembersOf(s, s.users[u].roomCode)
          && s.users[u].roomCode in s.rooms)
    // no room above its limit
    && (forall c :: c in s.rooms ==> (s.rooms[c].maxUsers != 0 ==>
          |MembersOf(s, c)| <= s.rooms[c].maxUsers))
  }

  /** Member ids and user records coincide. */
  ghost predicate Coincident(s: Store) {
    forall c, u {:trigger u in MembersOf(s, c)} ::
      u in MembersOf(s, c) <==> u in s.users && s.users[u].roomCode == c
  }

  lemma MasterInvariant(ops: seq<Op>)
    requires Possible(INIT, ops)
    ensures Consistent(Run(INIT, ops).store)
    ensures KicksInRoom(INIT, ops) ==> Coincident(Run(INIT, ops).store)
  {
    SoundRun(INIT, ops);
    var y := Run(INIT, ops);
    SoundIsConsistent(y.store, y.bound);
    if KicksInRoom(INIT, ops) {
      StaffedIsCoincident(y.store, y.bound);
    }
  }

  lemma SoundIsConsistent(s: Store, bound: map<UserId, Code>)
    requires SoundStore(s, bound)
    ensures Consistent(s)
  {
    forall c | c in s.rooms
      ensures s.rooms[c].Complete? && s.rooms[c].code == c && s.rooms[c].hostId in MembersOf(s, c)
      ensures s.rooms[c].maxUsers != 0 ==> |MembersOf(s, c)| <= s.rooms[c].maxUsers
    {
      assert RoomSound(s, bound, c);
    }
    forall c, u {:trigger u in MembersOf(s, c)} | u in MembersOf(s, c)
      ensures c in s.rooms && u in bound && bound[u] == c
    {
      assert RoomSound(s, bound, c);
    }
    forall u | u in s.users
      ensures s.users[u].id == u && u in MembersOf(s, s.users[u].roomCode)
      ensures s.users[u].roomCode in s.rooms
    {
      assert UserSound(s, bound, u);
      assert RoomSound(s, bound, s.users[u].roomCode);
    }
  }

  lemma StaffedIsCoincident(s: Store, bound: map<UserId, Code>)
    requires SoundStore(s, bound) && Staffed(s)
    ensures Coincident(s)
  {
    forall c, u ensures u in MembersOf(s, c) <==> u in s.users && s.users[u].roomCode == c {
      assert RoomStaffed(s, c) && RoomSound(s, bound, c) && UserSound(s, bound, u);
    }
  }

  /** A kick keeps member ids and user records together exactly when its target is in the
      caller's room; so `StrayKick` is the whole of what the second half has to exclude. */
  lemma StrayKicksAreTheGap(y: System, op: Op)
    requires Sound(y) && Coincident(y.store) && Enabled(y, op)
    ensures Coincident(Next(y, op).store) <==> !StrayKick(y.store, op)
  {
    var s, s' := y.store, Next(y, op).store;
    forall c ensures RoomStaffed(s, c) {}
    SoundStep(y, op);
    if StrayKick(s, op) {
      assert UserSound(s, y.bound, op.target);
      assert op.target in MembersOf(s', s.users[op.target].roomCode);
    } else {
      StaffedIsCoincident(s', Next(y, op).bound);
    }
  }

  // ---------- tokens ----------

  /** The id was issued once and its user record is gone. */
  predicate Dead(y: System, user: UserId) {
    user in y.bound && user !in y.store.users
  }

  /** What lets a user be removed from the store. */
  ghost predicate Departs(s: Store, op: Op, user: UserId) {
    && Accepted(s, op)
    && match op
       case Leave(_, u, _) => u == user
       case Kick(_, _, target) => target == user
       case Close(_, code) => user in MembersOf(s, code)
       case _ => false
  }

  lemma DepartureKills(y: System, op: Op, user: UserId)
    requires Sound(y) && Enabled(y, op) && Departs(y.store, op, user)
    ensures Dead(Next(y, op), user)
  {
    assert UserSound(y.store, y.bound, user);
    if !op.Kick? {
      assert RoomSound(y.store, y.bound, op.code);
    }
  }

  lemma {:induction false} DeathIsPermanent(y: System, ops: seq<Op>, user: UserId)
    requires Sound(y) && Possible(y, ops) && Dead(y, user)
    ensures Dead(Run(y, ops), user)
    decreases |ops|
  {
    if ops == [] {
    } else {
      forall u | u in y.store.users ensures y.store.users[u].id == u {
        assert UserSound(y.store, y.bound, u);
      }
      SoundStep(y, ops[0]);
      DeathIsPermanent(Next(y, ops[0]), ops[1..], user);
    }
  }

  /** handleConnection and a guarded rejoin, at whatever URL, turn the token away. */
  ghost predicate Refused(s: Store, token: Token) {
    && (forall socket :: Do.UpdateConnection(s, token.userId, socket).1.Failure?)
    && (forall url :: Do.GuardedRejoin(s, url, token).Failure?)
  }

  lemma TokenDeathIsPermanent(before: seq<Op>, departure: Op, later: seq<Op>, token: Token)
    requires Possible(INIT, before + [departure] + later)
    requires Departs(Run(INIT, before).store, departure, token.userId)
    ensures Refused(Run(INIT, before + [departure] + later).store, token)
  {
    var y := Run(INIT, before);
    RunConcat(INIT, before + [departure], later);
    RunConcat(INIT, before, [departure]);
    SoundRun(INIT, before);
    assert Possible(y, [departure]) && Run(y, [departure]) == Run(Next(y, departure), []);
    DepartureKills(y, departure, token.userId);
    SoundStep(y, departure);
    DeathIsPermanent(Next(y, departure), later, token.userId);
  }

  /** The check the documentation asks of a connection: the room exists and lists the user. */
  predicate DocumentedCheck(s: Store, token: Token) {
    token.roomCode in s.rooms && token.userId in MembersOf(s, token.roomCode)
  }

  lemma CheapCheckIsTheDocumentedOne(ops: seq<Op>, token: Token, socket: SocketId)
    requires Possible(INIT, ops) && KicksInRoom(INIT, ops)
    requires token in Run(INIT, ops).tokens
    ensures var s := Run(INIT, ops).store;
      && (Do.UpdateConnection(s, token.userId, socket).1.Success? <==> DocumentedCheck(s, token))
      && (Do.GuardedRejoin(s, token.roomCode, token).Success? <==> DocumentedCheck(s, token))
  {
    SoundRun(INIT, ops);
    var y := Run(INIT, ops);
    assert RoomSound(y.store, y.bound, token.roomCode) && RoomStaffed(y.store, token.roomCode);
    assert UserSound(y.store, y.bound, token.userId);
  }

  // ---------- member lookups ----------

  lemma {:induction false} DetailsOfUsers(s: Store, listing: seq<UserId>)
    requires forall u :: u in listing ==> u in s.users
    ensures |Do.Details(s, listing)| == |listing|
    ensures forall i :: 0 <= i < |listing| ==>
      Some(Do.Details(s, listing)[i]) == FindUser(s, listing[i])
  {
    if listing == [] {
    } else {
      DetailsOfUsers(s, listing[1..]);
    }
  }

  /** The batched lookup goes through the listing in order: each id adds its record, if it has one,
      and otherwise nothing. */
  lemma {:induction false} DetailsInOrder(s: Store, listing: seq<UserId>, i: nat)
    requires i < |listing|
    ensures Do.Details(s, listing) ==
      Do.Details(s, listing[..i])
      + (match FindUser(s, listing[i]) case Some(record) => [record] case None => [])
      + Do.Details(s, listing[i + 1..])
    ensures Do.Details(s, []) == []
  {
    if i == 0 {
      assert listing[..0] == [];
    } else {
      DetailsInOrder(s, listing[1..], i - 1);
      assert listing[..i][1..] == listing[1..][..i - 1] && listing[1..][i..] == listing[i + 1..];
    }
  }

  /** The batched lookup returns one record a member, in the listed order, each the one that a
      single lookup finds. */
  lemma BatchedLookupAgrees(ops: seq<Op>, code: Code, listing: seq<UserId>)
    requires Possible(INIT, ops) && KicksInRoom(INIT, ops)
    requires Lists(listing, MembersOf(Run(INIT, ops).store, code))
    ensures var s := Run(INIT, ops).store;
      && |Do.Details(s, listing)| == |MembersOf(s, code)|
      && |Do.Details(s, listing)| == |listing|
      && forall i :: 0 <= i < |listing| ==>
           Some(Do.Details(s, listing)[i]) == FindUser(s, listing[i])
  {
    SoundRun(INIT, ops);
    var s := Run(INIT, ops).store;
    assert RoomStaffed(s, code);
    DetailsOfUsers(s, listing);
    ListingLength(listing, MembersOf(s, code));
  }
}
