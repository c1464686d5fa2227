/** What survives every interleaving: an id belongs to one room for ever. */
module Binding {
  import opened Types
  import opened StoreModel
  import opened Machine
  import opened Commands

  type Bindings = map<UserId, Code>

  predicate Belongs(b: Bindings, user: UserId, code: Code) {
    user in b && b[user] == code
  }

  predicate HostBound(b: Bindings, room: Room) {
    room.Complete? ==> Belongs(b, room.hostId, room.code)
  }

  predicate RecordBound(b: Bindings, user: User) {
    Belongs(b, user.id, user.roomCode)
  }

  ghost predicate RoomBound(s: Store, b: Bindings, code: Code) {
    && (code in s.rooms ==> s.rooms[code].code == code && HostBound(b, s.rooms[code]))
    && (forall u :: u in MembersOf(s, code) ==> Belongs(b, u, code))
  }

  ghost predicate UserBound(s: Store, b: Bindings, user: UserId) {
    user in s.users ==> s.users[user].id == user && RecordBound(b, s.users[user])
  }

  /** Every stored host, member entry and user record respects the bindings. */
  ghost predicate StoreBound(s: Store, b: Bindings) {
    && (forall c :: RoomBound(s, b, c))
    && (forall u :: UserBound(s, b, u))
  }

  predicate TokenBound(b: Bindings, token: Token) {
    Belongs(b, token.userId, token.roomCode)
  }

  /** A call that has drawn an id and not yet stored its user. */
  predicate Unborn(t: Task) {
    || (t.op.Create? && (t.stage.Reserving? || t.stage.CreatingUser?))
    || (t.op.Join? && (t.stage.ReadingRoom? || t.stage.CountingMembers? || t.stage.JoiningUser?))
  }

  /** What a call in flight carries respects the bindings too. */
  predicate Carries(t: Task, b: Bindings) {
    match t.op
    case Create(_, uid, _, _, _, _) => CreateCarries(uid, t.stage, b)
    case Join(code, uid, _) => JoinCarries(code, uid, t.stage, b)
    case Rejoin(url, token) => RejoinCarries(url, token, t.stage, b)
    case Leave(code, user, _) => LeaveCarries(code, user, t.stage, b)
    case Kick(_, _, target) => KickCarries(target, t.stage, b)
    case Close(_, code) => CloseCarries(code, t.stage, b)
    case UpdateHost(_, code, _) => SaveCarries(code, t.stage, b)
    case ToggleLock(_, code) => SaveCarries(code, t.stage, b) && !t.stage.CheckingHeir?
    case Connect(token, _) => SocketCarries(token, t.stage, b)
    case Disconnect(token) => SocketCarries(token, t.stage, b) && !t.stage.FindingUser?
  }

  predicate CreateCarries(uid: UserId, stage: Stage, b: Bindings) {
    || stage.Reserving? || stage.CreatingUser?
    || ((stage.SavingNewRoom? || stage.AddingHost? || stage.ExpiringMembers?) && Belongs(b, uid, stage.code))
  }

  predicate JoinCarries(code: Code, uid: UserId, stage: Stage, b: Bindings) {
    || stage.ReadingRoom?
    || (stage.CountingMembers? && stage.room.code == code)
    || (stage.JoiningUser? && stage.code == code)
    || (stage.AddingMember? && stage.code == code && Belongs(b, uid, code))
  }

  predicate RejoinCarries(url: Code, token: Token, stage: Stage, b: Bindings) {
    && TokenBound(b, token)
    && (|| stage.GuardingRoom? || stage.GuardingMember? || stage.RejoiningMembers?
        || (stage.RejoiningUser? && url == token.roomCode))
  }

  predicate LeaveCarries(code: Code, user: UserId, stage: Stage, b: Bindings) {
    || stage.CheckingMember?
    || (Belongs(b, user, code) &&
        (|| stage.RemovingMember? || stage.DeletingUser? || stage.ReadingLeftRoom? || stage.DeletingRoom?
         || (stage.ListingLeft? && stage.room.Complete? && stage.room.code == code)
         || (stage.PassingHost? && stage.room.code == code && HostBound(b, stage.room))))
  }

  predicate KickCarries(target: UserId, stage: Stage, b: Bindings) {
    || stage.ReadingRoom? || stage.ReadingTarget?
    || (stage.DeletingTarget? && stage.id == target && target in b)
    || (stage.RemovingTarget? && stage.id == target)
  }

  predicate CloseCarries(code: Code, stage: Stage, b: Bindings) {
    || stage.ReadingRoom? || stage.ListingMembers? || stage.ClosingRoom?
    || (stage.DeletingMembers? && forall u :: u in stage.ids ==> Belongs(b, u, code))
  }

  /** A transfer or a toggle. */
  predicate SaveCarries(code: Code, stage: Stage, b: Bindings) {
    || stage.ReadingRoom?
    || (stage.CheckingHeir? && stage.room.Complete? && stage.room.code == code)
    || (stage.SavingRoom? && stage.room.code == code && HostBound(b, stage.room))
  }

  predicate SocketCarries(token: Token, stage: Stage, b: Bindings) {
    && TokenBound(b, token)
    && (|| stage.FindingUser? || stage.LoadingUser?
        || (stage.SavingUser? && stage.user.id == token.userId && RecordBound(b, stage.user)))
  }

  ghost predicate TaskBound(k: Config, pid: nat)
    requires pid in k.tasks
  {
    var t := k.tasks[pid];
    && Carries(t, k.bound)
    && ClaimOf(t.op) <= k.claimed
    && (Unborn(t) ==> t.op.uid !in k.bound)
  }

  ghost predicate ClaimsApart(k: Config) {
    forall p, q :: p in k.tasks && q in k.tasks && p != q ==>
      ClaimOf(k.tasks[p].op) !! ClaimOf(k.tasks[q].op)
  }

  ghost predicate Bound(k: Config) {
    && StoreBound(k.store, k.bound)
    && (forall t :: t in k.tokens ==> TokenBound(k.bound, t))
    && k.bound.Keys <= k.claimed
    && ClaimsApart(k)
    && (forall p :: p in k.tasks ==> TaskBound(k, p))
  }

  predicate Extends(b: Bindings, b': Bindings) {
    forall u :: u in b ==> u in b' && b'[u] == b[u]
  }

  // ---------- one command ----------

  lemma CarriesExtended(t: Task, b: Bindings, b': Bindings)
    requires Carries(t, b) && Extends(b, b')
    ensures Carries(t, b')
  {}

  lemma StoreBoundExtended(s: Store, b: Bindings, b': Bindings)
    requires StoreBound(s, b) && Extends(b, b')
    ensures StoreBound(s, b')
  {
    forall c ensures RoomBound(s, b', c) { assert RoomBound(s, b, c); }
    forall u ensures UserBound(s, b', u) { assert UserBound(s, b, u); }
  }

  /** The next stage of `t` is one that `b` allows, and so is a token that it signs. */
  ghost predicate AdvancesWell(s: Store, t: Task, b: Bindings) {
    var stage := Advance(s, t);
    && (!stage.Finished? ==> Carries(Task(t.op, stage), b))
    && (forall token :: token in SignedBy(stage) ==> TokenBound(b, token))
  }

  lemma TaskAdvances(s: Store, t: Task, b: Bindings)
    requires StoreBound(s, b) && Carries(t, b) && CanTick(s, t) && Extends(Births(t), b)
    ensures AdvancesWell(s, t, b)
  {
    match t.op
    case Create(_, _, _, _, _, _) =>
    case Rejoin(url, _) => assert RoomBound(s, b, url);
    case Kick(_, _, target) => assert UserBound(s, b, target);
    case Connect(token, _) => assert UserBound(s, b, token.userId);
    case Disconnect(token) => assert UserBound(s, b, token.userId);
    case _ => assert RoomBound(s, b, t.op.code);
  }

  ghost predicate WriteBound(w: Write, b: Bindings) {
    match w
    case WriteRoom(room) => HostBound(b, room)
    case WriteUser(user) => RecordBound(b, user)
    case InsertMember(c, u) => Belongs(b, u, c)
    case _ => true
  }

  lemma CommitBound(s: Store, w: Write, b: Bindings)
    requires StoreBound(s, b) && WriteBound(w, b)
    ensures StoreBound(Commit(s, w), b)
  {
    forall c ensures RoomBound(Commit(s, w), b, c) { assert RoomBound(s, b, c); }
    forall u ensures UserBound(Commit(s, w), b, u) { assert UserBound(s, b, u); }
  }

  lemma TickStoreBound(k: Config, pid: nat)
    requires Bound(k) && CanHappen(k, Tick(pid))
    ensures var t, b' := k.tasks[pid], k.bound + Births(k.tasks[pid]);
      StoreBound(Commit(k.store, WriteOf(t)), b') && AdvancesWell(k.store, t, b')
  {
    var t, b' := k.tasks[pid], k.bound + Births(k.tasks[pid]);
    assert TaskBound(k, pid);
    StoreBoundExtended(k.store, k.bound, b');
    CarriesExtended(t, k.bound, b');
    CommitBound(k.store, WriteOf(t), b');
    TaskAdvances(k.store, t, b');
  }

  lemma TickBound(k: Config, pid: nat)
    requires Bound(k) && CanHappen(k, Tick(pid))
    ensures Bound(Happen(k, Tick(pid))) && Extends(k.bound, Happen(k, Tick(pid)).bound)
  {
    var t, k' := k.tasks[pid], Happen(k, Tick(pid));
    assert TaskBound(k, pid);
    TickStoreBound(k, pid);
    forall p | p in k'.tasks ensures TaskBound(k', p) {
      assert TaskBound(k, p);
      if p != pid {
        CarriesExtended(k.tasks[p], k.bound, k'.bound);
        assert ClaimOf(k.tasks[p].op) !! ClaimOf(t.op);
      }
    }
    forall token | token in k'.tokens ensures TokenBound(k'.bound, token) {}
  }

  lemma StartBound(k: Config, pid: nat, op: Op)
    requires Bound(k) && CanHappen(k, Start(pid, op))
    ensures Bound(Happen(k, Start(pid, op)))
  {
    var k' := Happen(k, Start(pid, op));
    forall p | p in k'.tasks ensures TaskBound(k', p) {
      assert p == pid || TaskBound(k, p);
    }
    forall p, q | p in k'.tasks && q in k'.tasks && p != q
      ensures ClaimOf(k'.tasks[p].op) !! ClaimOf(k'.tasks[q].op)
    {
      assert p == pid || TaskBound(k, p);
      assert q == pid || TaskBound(k, q);
    }
  }

  lemma EventBound(k: Config, e: Event)
    requires Bound(k) && CanHappen(k, e)
    ensures Bound(Happen(k, e)) && Extends(k.bound, Happen(k, e).bound)
  {
    match e
    case Start(pid, op) => StartBound(k, pid, op);
    case Tick(pid) => TickBound(k, pid);
  }

  lemma {:induction false} BoundRun(k: Config, events: seq<Event>)
    requires Bound(k) && CanRun(k, events)
    ensures Bound(RunAll(k, events)) && Extends(k.bound, RunAll(k, events).bound)
    decreases |events|
  {
    if events == [] {
    } else {
      EventBound(k, events[0]);
      BoundRun(Happen(k, events[0]), events[1..]);
    }
  }

  /** Whatever races occur, an id keeps the one room it was created for, and every record, member
      entry, host and token names that room; so nobody is ever in two rooms. */
  lemma OneRoomForEver(before: seq<Event>, later: seq<Event>)
    requires CanRun(IDLE, before) && CanRun(RunAll(IDLE, before), later)
    ensures var k, k' := RunAll(IDLE, before), RunAll(RunAll(IDLE, before), later);
      && (forall u :: u in k.bound ==> Belongs(k'.bound, u, k.bound[u]))
      && (forall u :: u in k'.store.users ==> Belongs(k'.bound, u, k'.store.users[u].roomCode))
      && (forall c, u {:trigger u in MembersOf(k'.store, c)} ::
            u in MembersOf(k'.store, c) ==> Belongs(k'.bound, u, c))
      && (forall c :: c in k'.store.rooms ==>
            k'.store.rooms[c].code == c && HostBound(k'.bound, k'.store.rooms[c]))
      && (forall t :: t in k'.tokens ==> Belongs(k'.bound, t.userId, t.roomCode))
      && (forall c, d :: c != d ==> MembersOf(k'.store, c) !! MembersOf(k'.store, d))
  {
    BoundRun(IDLE, before);
    BoundRun(RunAll(IDLE, before), later);
    var k := RunAll(RunAll(IDLE, before), later);
    forall u | u in k.store.users ensures Belongs(k.bound, u, k.store.users[u].roomCode) {
      assert UserBound(k.store, k.bound, u);
    }
    forall c ensures forall u :: u in MembersOf(k.store, c) ==> Belongs(k.bound, u, c) {
      assert RoomBound(k.store, k.bound, c);
    }
    forall c | c in k.store.rooms ensures k.store.rooms[c].code == c && HostBound(k.bound, k.store.rooms[c]) {
      assert RoomBound(k.store, k.bound, c);
    }
  }

  /** The guard looks at the token's room and the service at the URL's, commands apart; a rejoin
      that gets through was for the token's own room, and signs the same payload again. */
  lemma RejoinStaysHome(events: seq<Event>, pid: nat)
    requires CanRun(IDLE, events)
    requires pid in RunAll(IDLE, events).tasks && RunAll(IDLE, events).tasks[pid].op.Rejoin?
    ensures var k := RunAll(IDLE, events);
      var t := k.tasks[pid];
      Advance(k.store, t).Finished? && Advance(k.store, t).reply.Success? ==>
        t.op.url == t.op.token.roomCode && SignedBy(Advance(k.store, t)) == {t.op.token}
  {
    var k := RunAll(IDLE, events);
    var t := k.tasks[pid];
    BoundRun(IDLE, events);
    assert TaskBound(k, pid);
  }
}
