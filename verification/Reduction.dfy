/** Calls that never overlap on one room, however they overlap elsewhere, have the effect and the
    replies of the atomic machine, taken in the order in which they end. */
module Reduction {
  import opened Types
  import opened StoreModel
  import opened Machine
  import opened Commands
  import opened Binding
  import opened Sequential
  import I = Invariant
  import E = Effects

  /** The room a call in flight is on: a create from its reservation on; a rejoin, which writes
      nothing, on none. */
  function RoomOf(t: Task): Option<Code> {
    if !t.op.Create? then CodeOf(t.op)
    else if t.stage.CreatingUser? || t.stage.SavingNewRoom? || t.stage.AddingHost? || t.stage.ExpiringMembers?
    then Some(t.stage.code)
    else None
  }

  predicate On(k: Config, pid: nat, code: Code) {
    pid in k.tasks && RoomOf(k.tasks[pid]) == Some(code)
  }

  /** At most one call in flight a room. */
  ghost predicate OneARoom(k: Config) {
    forall p, q, c :: On(k, p, c) && On(k, q, c) ==> p == q
  }

  /** A kick that has yet to find out whether its caller is the host. */
  predicate Undecided(t: Task) {
    t.op.Kick? && t.stage.ReadingRoom?
  }

  /** Every kick in flight that got past its first read names a user of its caller's room, or an id
      not issued yet. */
  ghost predicate KicksReadHome(k: Config) {
    forall p :: p in k.tasks && !Undecided(k.tasks[p]) ==> ReadsHome(k.tasks[p].op, k.bound)
  }

  predicate NotElsewhere(b: Bindings, user: UserId, code: Code) {
    user in b ==> b[user] == code
  }

  predicate ReadsHome(op: Op, b: Bindings) {
    op.Kick? ==> NotElsewhere(b, op.target, op.code)
  }

  ghost predicate Serial(k: Config, events: seq<Event>)
    requires CanRun(k, events)
    decreases |events|
  {
    && OneARoom(k) && KicksReadHome(k)
    && (events != [] ==> Serial(Happen(k, events[0]), events[1..]))
  }

  // ---------- one room's share of the store ----------

  /** `s` and `a` agree on room `code`: its two keys, and every user not bound elsewhere. */
  ghost predicate Agree(s: Store, a: Store, code: Code, b: Bindings) {
    && SameRoom(s, a, code)
    && (forall u :: NotElsewhere(b, u, code) ==> FindUser(s, u) == FindUser(a, u))
  }

  ghost predicate AgreeElsewhere(s: Store, a: Store, home: Code, b: Bindings) {
    forall c :: c != home ==> Agree(s, a, c, b)
  }

  lemma CommitAgrees(s: Store, a: Store, w: Write, code: Code, b: Bindings)
    requires Agree(s, a, code, b)
    ensures Agree(Commit(s, w), Commit(a, w), code, b)
  {}

  /** A call on room `code` that reads users at home only. */
  predicate Local(t: Task, code: Code, b: Bindings) {
    && RoomOf(t) == Some(code) && !t.op.Rejoin?
    && ReadsHome(t.op, b)
    && (t.op.Connect? || t.op.Disconnect? ==> NotElsewhere(b, t.op.token.userId, code))
  }

  /** What a call reads is in its room's share. */
  lemma AdvanceAgrees(s: Store, a: Store, t: Task, code: Code, b: Bindings)
    requires Agree(s, a, code, b) && Local(t, code, b)
    ensures Advance(s, t) == Advance(a, t)
  {
    match t.op
    case Create(_, _, _, _, _, _) =>
    case Join(_, _, _) =>
    case Leave(_, _, _) =>
    case Kick(_, _, _) =>
    case _ =>
  }

  lemma {:induction false} SoloAgrees(s: Store, a: Store, t: Task, code: Code, b: Bindings)
    requires Agree(s, a, code, b) && Local(t, code, b)
    ensures Agree(Solo(s, t).0, Solo(a, t).0, code, b)
    ensures Solo(s, t).1 == Solo(a, t).1
    decreases Rank(t)
  {
    if !t.stage.Finished? {
      AdvanceAgrees(s, a, t, code, b);
      CommitAgrees(s, a, WriteOf(t), code, b);
      var t' := Task(t.op, Advance(s, t));
      if Rank(t') < Rank(t) {
        if !t'.stage.Finished? { SoloAgrees(Commit(s, WriteOf(t)), Commit(a, WriteOf(t)), t', code, b); }
      }
    }
  }

  lemma AgreeTrans(s: Store, a: Store, z: Store, code: Code, b: Bindings)
    requires Agree(s, a, code, b) && Agree(a, z, code, b)
    ensures Agree(s, z, code, b)
  {}

  // ---------- a call in flight, and the atomic call it stands for ----------

  /** A create is replayed at the code it holds. */
  function Replayed(t: Task): Op {
    if t.op.Create? && RoomOf(t).Some? then t.op.(candidates := [RoomOf(t).value]) else t.op
  }

  function Rest(s: Store, t: Task): (Store, Result<Reply>) {
    Solo(s, Task(Replayed(t), t.stage))
  }

  /** From the store as it is, the rest of the call comes to what the whole call comes to from
      the atomic store: as far as its room goes, and with the same reply. */
  ghost predicate Simulated(k: Config, y: System, t: Task, code: Code) {
    && Local(t, code, k.bound)
    && Agree(Rest(k.store, t).0, Alone(y.store, Replayed(t)).0, code, k.bound)
    && Rest(k.store, t).1 == Alone(y.store, Replayed(t)).1
    && (t.op.Create? ==> code !in y.store.rooms)
    && (t.op.Leave? && t.stage.PassingHost? ==> t.op.next in MembersOf(k.store, code))
  }

  /** Of a kick that is yet undecided no more than agreement on its room. */
  ghost predicate Promised(k: Config, y: System, t: Task, code: Code) {
    if Undecided(t) then Agree(k.store, y.store, code, k.bound) else Simulated(k, y, t, code)
  }

  ghost predicate Quiet(k: Config, code: Code) {
    forall p :: !On(k, p, code)
  }

  ghost predicate TaskMatches(k: Config, y: System, p: nat)
    requires p in k.tasks
  {
    var t := k.tasks[p];
    && ClaimOf(t.op) !! y.bound.Keys
    && (t.op.Rejoin? || t.op.Connect? || t.op.Disconnect? ==> t.op.token in k.tokens)
    && (RoomOf(t).Some? ==> Promised(k, y, t, RoomOf(t).value))
  }

  ghost predicate TasksMatch(k: Config, y: System) {
    forall p :: p in k.tasks ==> TaskMatches(k, y, p)
  }

  /** Where no call is in flight the two stores agree. */
  ghost predicate RestingRoomsAgree(k: Config, y: System) {
    forall c :: Quiet(k, c) ==> Agree(k.store, y.store, c, k.bound)
  }

  ghost predicate Matches(k: Config, y: System) {
    && Bound(k) && I.Sound(y) && OneARoom(k) && KicksReadHome(k)
    && Extends(y.bound, k.bound) && y.tokens == k.tokens
    && RestingRoomsAgree(k, y) && TasksMatch(k, y)
  }

  /** The whole of a call, from stores that agree on its room. */
  lemma AloneAgrees(s: Store, a: Store, t: Task, code: Code, b: Bindings)
    requires Agree(s, a, code, b) && Local(t, code, b) && (t.op.Create? ==> code !in s.rooms)
    ensures Agree(Alone(s, Replayed(t)).0, Alone(a, Replayed(t)).0, code, b)
    ensures Alone(s, Replayed(t)).1 == Alone(a, Replayed(t)).1
  {
    var op := Replayed(t);
    if op.Create? {
      AloneCreate(s, op, code);
      AloneCreate(a, op, code);
      CommitAgrees(s, a, ReserveRoom(code), code, b);
      SoloAgrees(Reserve(s, code), Reserve(a, code), Task(op, CreatingUser(code)), code, b);
    } else {
      SoloAgrees(s, a, Task(op, First(op)), code, b);
    }
  }

  lemma RestAgrees(s: Store, a: Store, t: Task, code: Code, b: Bindings)
    requires Agree(s, a, code, b) && Local(t, code, b)
    ensures Agree(Rest(s, t).0, Rest(a, t).0, code, b) && Rest(s, t).1 == Rest(a, t).1
  {
    SoloAgrees(s, a, Task(Replayed(t), t.stage), code, b);
  }

  /** Other calls move the two stores, but not this call's room. */
  lemma StillSimulated(k: Config, y: System, k': Config, y': System, t: Task, code: Code)
    requires Simulated(k, y, t, code) && Local(t, code, k'.bound) && Extends(k.bound, k'.bound)
    requires Agree(k'.store, k.store, code, k'.bound) && Agree(y.store, y'.store, code, k'.bound)
    ensures Simulated(k', y', t, code)
  {
    RestAgrees(k'.store, k.store, t, code, k'.bound);
    AloneAgrees(y.store, y'.store, t, code, k'.bound);
    AgreeTrans(Rest(k'.store, t).0, Rest(k.store, t).0, Alone(y.store, Replayed(t)).0, code, k'.bound);
    AgreeTrans(Rest(k'.store, t).0, Alone(y.store, Replayed(t)).0, Alone(y'.store, Replayed(t)).0,
               code, k'.bound);
  }

  lemma StillPromised(k: Config, y: System, k': Config, y': System, t: Task, code: Code)
    requires Promised(k, y, t, code) && Extends(k.bound, k'.bound)
    requires !Undecided(t) ==> Local(t, code, k'.bound)
    requires Agree(k'.store, k.store, code, k'.bound) && Agree(y.store, y'.store, code, k'.bound)
    ensures Promised(k', y', t, code)
  {
    if Undecided(t) {
      AgreeTrans(k'.store, k.store, y.store, code, k'.bound);
      AgreeTrans(k'.store, y.store, y'.store, code, k'.bound);
    } else {
      StillSimulated(k, y, k', y', t, code);
    }
  }

  lemma SteppedStage(s: Store, t: Task, b: Bindings)
    requires Carries(t, b) && RoomOf(t).Some? && !t.op.Rejoin? && !t.stage.Finished?
    ensures var t' := Task(t.op, Advance(s, t));
      && Rank(Task(Replayed(t), t'.stage)) < Rank(Task(Replayed(t), t.stage))
      && (!t'.stage.Finished? ==> RoomOf(t') == RoomOf(t))
  {}

  /** One command of the call is one step of its `Rest`. */
  lemma RestStep(s: Store, t: Task, b: Bindings)
    requires Carries(t, b) && RoomOf(t).Some? && !t.op.Rejoin? && !t.stage.Finished?
    ensures var t' := Task(t.op, Advance(s, t));
      Rest(s, t) == if t'.stage.Finished? then (Commit(s, WriteOf(t)), t'.stage.reply)
                    else Rest(Commit(s, WriteOf(t)), t')
  {
    SteppedStage(s, t, b);
    OneStep(s, Commit(s, WriteOf(t)), Replayed(t), t.stage, Advance(s, t));
  }

  /** A write that touches nothing but room `code` and its users. */
  ghost predicate WriteHome(w: Write, code: Code, b: Bindings) {
    match w
    case NoWrite => true
    case ReserveRoom(c) => c == code
    case WriteRoom(room) => room.code == code
    case DeleteRoom(c) => c == code
    case WriteUser(user) => Belongs(b, user.id, code)
    case DeleteUsers(ids) => forall u :: u in ids ==> Belongs(b, u, code)
    case InsertMember(c, _) => c == code
    case EraseMember(c, _) => c == code
  }

  lemma CommitElsewhere(s: Store, w: Write, home: Code, code: Code, b: Bindings)
    requires WriteHome(w, home, b) && code != home
    ensures Agree(Commit(s, w), s, code, b)
  {}

  // ---------- one event ----------

  lemma StartMatches(k: Config, y: System, pid: nat, op: Op)
    requires Matches(k, y) && CanHappen(k, Start(pid, op))
    requires OneARoom(Happen(k, Start(pid, op))) && KicksReadHome(Happen(k, Start(pid, op)))
    ensures Matches(Happen(k, Start(pid, op)), y)
  {
    var k' := Happen(k, Start(pid, op));
    StartBound(k, pid, op);
    assert TaskBound(k', pid);
    forall c | Quiet(k', c) ensures Agree(k'.store, y.store, c, k'.bound) {
      forall p ensures !On(k, p, c) { assert !On(k', p, c); }
      assert Quiet(k, c);
    }
    forall p | p in k'.tasks ensures TaskMatches(k', y, p) {
      if p != pid {
        assert TaskMatches(k, y, p);
      } else if RoomOf(k'.tasks[pid]).Some? {
        FreshTaskMatches(k, y, pid, op);
      }
    }
  }

  lemma FreshTaskMatches(k: Config, y: System, pid: nat, op: Op)
    requires Matches(k, y) && CanHappen(k, Start(pid, op))
    requires OneARoom(Happen(k, Start(pid, op)))
    requires Carries(Task(op, First(op)), k.bound)
    requires RoomOf(Task(op, First(op))).Some?
    ensures Promised(Happen(k, Start(pid, op)), y, Task(op, First(op)), RoomOf(Task(op, First(op))).value)
  {
    var k', t := Happen(k, Start(pid, op)), Task(op, First(op));
    var c := RoomOf(t).value;
    forall p ensures !On(k, p, c) {
      if On(k, p, c) { assert On(k', p, c) && On(k', pid, c); }
    }
    assert Quiet(k, c);
    if !op.Kick? { SoloAgrees(k.store, y.store, t, c, k.bound); }
  }

  /** Whatever room `pid` is on, it is `home`, and no other call is on that. */
  ghost predicate HasToItself(k: Config, pid: nat, home: Code) {
    && (forall p :: p != pid ==> !On(k, p, home))
    && (forall c :: c != home ==> !On(k, pid, c))
  }

  /** What one call's step leaves as it was. */
  ghost predicate OnlyTask(k: Config, k': Config, pid: nat) {
    && (forall p :: p != pid && p in k'.tasks ==> p in k.tasks && k'.tasks[p] == k.tasks[p])
    && (forall p :: p != pid && p in k.tasks ==> p in k'.tasks)
    && k.tokens <= k'.tokens
  }

  lemma RestingRoomsMatch(k: Config, y: System, k': Config, y': System, pid: nat, home: Code)
    requires Matches(k, y) && Extends(k.bound, k'.bound) && OnlyTask(k, k', pid)
    requires HasToItself(k, pid, home)
    requires AgreeElsewhere(k'.store, k.store, home, k'.bound)
    requires AgreeElsewhere(y.store, y'.store, home, k'.bound)
    requires On(k', pid, home) || Agree(k'.store, y'.store, home, k'.bound)
    ensures RestingRoomsAgree(k', y')
  {
    forall c | Quiet(k', c) ensures Agree(k'.store, y'.store, c, k'.bound) {
      assert !On(k', pid, c);
      if c != home {
        forall p ensures !On(k, p, c) { assert !On(k', p, c); }
        assert Quiet(k, c);
        AgreeTrans(k'.store, k.store, y.store, c, k'.bound);
        AgreeTrans(k'.store, y.store, y'.store, c, k'.bound);
      }
    }
  }

  lemma OtherTasksMatch(k: Config, y: System, k': Config, y': System, pid: nat, home: Code)
    requires Matches(k, y) && HasToItself(k, pid, home) && OnlyTask(k, k', pid)
    requires Extends(k.bound, k'.bound) && KicksReadHome(k') && Bound(k')
    requires AgreeElsewhere(k'.store, k.store, home, k'.bound)
    requires AgreeElsewhere(y.store, y'.store, home, k'.bound)
    requires pid in k.tasks && y'.bound.Keys <= y.bound.Keys + ClaimOf(k.tasks[pid].op)
    ensures forall p :: p in k'.tasks && p != pid ==> TaskMatches(k', y', p)
  {
    forall p | p in k'.tasks && p != pid ensures TaskMatches(k', y', p) {
      var t := k.tasks[p];
      assert TaskMatches(k, y, p) && TaskBound(k', p) && ClaimOf(t.op) !! ClaimOf(k.tasks[pid].op);
      if RoomOf(t).Some? {
        assert On(k, p, RoomOf(t).value);
        StillPromised(k, y, k', y', t, RoomOf(t).value);
      }
    }
  }

  lemma OneARoomStill(k: Config, k': Config, pid: nat)
    requires OneARoom(k) && OnlyTask(k, k', pid)
    requires forall c :: On(k', pid, c) ==> On(k, pid, c)
    ensures OneARoom(k')
  {
    forall p, q, c | On(k', p, c) && On(k', q, c) ensures p == q {
      assert On(k, p, c) && On(k, q, c);
    }
  }

  lemma TickFrame(k: Config, pid: nat, home: Code)
    requires Bound(k) && KicksReadHome(k) && CanHappen(k, Tick(pid))
    requires On(k, pid, home) && !k.tasks[pid].op.Rejoin?
    ensures var k' := Happen(k, Tick(pid));
      && Bound(k') && Extends(k.bound, k'.bound)
      && Carries(k.tasks[pid], k.bound) && !k.tasks[pid].stage.Finished?
      && AgreeElsewhere(k'.store, k.store, home, k'.bound)
  {
    var t, k' := k.tasks[pid], Happen(k, Tick(pid));
    TickBound(k, pid);
    assert TaskBound(k, pid);
    CarriesExtended(t, k.bound, k'.bound);
    forall c | c != home ensures Agree(k'.store, k.store, c, k'.bound) {
      CommitElsewhere(k.store, WriteOf(t), home, c, k'.bound);
    }
  }

  /** A command that does not end the call keeps the call's promise. */
  lemma StepSimulates(s: Store, t: Task, whole: (Store, Result<Reply>), code: Code, b: Bindings,
                      b': Bindings)
    requires Carries(t, b) && Extends(b, b') && Local(t, code, b) && ReadsHome(t.op, b')
    requires Local(t, code, b')
    requires !t.stage.Finished? && !Advance(s, t).Finished?
    requires Agree(Rest(s, t).0, whole.0, code, b) && Rest(s, t).1 == whole.1
    ensures var s', t' := Commit(s, WriteOf(t)), Task(t.op, Advance(s, t));
      && Local(t', code, b') && Replayed(t') == Replayed(t) && !Undecided(t')
      && Agree(Rest(s', t').0, whole.0, code, b') && Rest(s', t').1 == whole.1
  {
    SteppedStage(s, t, b);
    RestStep(s, t, b);
  }

  /** A kick that gets past its first read is from there on simulated like any other call. */
  lemma Decided(k: Config, y: System, pid: nat, home: Code)
    requires Matches(k, y) && On(k, pid, home) && !k.tasks[pid].op.Rejoin?
    requires ReadsHome(k.tasks[pid].op, k.bound) && Carries(k.tasks[pid], k.bound)
    ensures Simulated(k, y, k.tasks[pid], home)
  {
    var t := k.tasks[pid];
    assert TaskMatches(k, y, pid);
    if Undecided(t) { SoloAgrees(k.store, y.store, t, home, k.bound); }
  }

  lemma OwnTaskSteps(k: Config, y: System, pid: nat, home: Code)
    requires Matches(k, y) && CanHappen(k, Tick(pid)) && On(k, pid, home)
    requires Carries(k.tasks[pid], k.bound) && !k.tasks[pid].stage.Finished?
    requires !k.tasks[pid].op.Rejoin? && !Advance(k.store, k.tasks[pid]).Finished?
    requires var k' := Happen(k, Tick(pid)); Extends(k.bound, k'.bound) && Bound(k')
    requires KicksReadHome(Happen(k, Tick(pid)))
    ensures var k' := Happen(k, Tick(pid));
      On(k', pid, home) && Simulated(k', y, k'.tasks[pid], home) && !Undecided(k'.tasks[pid])
  {
    var t, k' := k.tasks[pid], Happen(k, Tick(pid));
    assert !Undecided(k'.tasks[pid]) && ReadsHome(k'.tasks[pid].op, k'.bound);
    Decided(k, y, pid, home);
    CarriesExtended(t, k.bound, k'.bound);
    StepSimulates(k.store, t, Alone(y.store, Replayed(t)), home, k.bound, k'.bound);
  }


  lemma AgreesWithItself(s: Store, home: Code, b: Bindings)
    ensures AgreeElsewhere(s, s, home, b)
  {}

  lemma InsideMatches(k: Config, y: System, k': Config, pid: nat, home: Code)
    requires Matches(k, y) && pid in k.tasks && HasToItself(k, pid, home) && On(k', pid, home) && OnlyTask(k, k', pid)
    requires k'.tasks[pid].op == k.tasks[pid].op && k'.tokens == k.tokens
    requires Bound(k') && Extends(k.bound, k'.bound) && KicksReadHome(k') && OneARoom(k')
    requires AgreeElsewhere(k'.store, k.store, home, k'.bound)
    requires Simulated(k', y, k'.tasks[pid], home) && !Undecided(k'.tasks[pid])
    ensures Matches(k', y)
  {
    AgreesWithItself(y.store, home, k'.bound);
    OtherTasksMatch(k, y, k', y, pid, home);
    RestingRoomsMatch(k, y, k', y, pid, home);
    assert TaskMatches(k', y, pid) by { assert TaskMatches(k, y, pid); }
  }

  lemma TickInside(k: Config, y: System, pid: nat, home: Code)
    requires Matches(k, y) && CanHappen(k, Tick(pid)) && On(k, pid, home)
    requires !k.tasks[pid].op.Rejoin? && !Advance(k.store, k.tasks[pid]).Finished?
    requires KicksReadHome(Happen(k, Tick(pid)))
    ensures Matches(Happen(k, Tick(pid)), y)
  {
    var k' := Happen(k, Tick(pid));
    TickFrame(k, pid, home);
    OwnTaskSteps(k, y, pid, home);
    OneARoomStill(k, k', pid);
    InsideMatches(k, y, k', pid, home);
  }

  // ---------- the end of a call ----------

  lemma WholeIsAtomic(s: Store, t: Task, code: Code)
    requires RoomOf(t) == Some(code) && !t.op.Rejoin? && (t.op.Create? ==> code !in s.rooms)
    ensures Alone(s, Replayed(t)) == (After(s, Replayed(t)), Answer(s, Replayed(t)))
  {
    if t.op.Create? { AloneCreate(s, Replayed(t), code); } else { AloneIsAtomic(s, t.op); }
  }

  /** Ending, the call has done and answers what the atomic call does and answers. */
  lemma EndIsAtomic(k: Config, y: System, pid: nat, home: Code)
    requires Matches(k, y) && CanHappen(k, Tick(pid)) && On(k, pid, home)
    requires Carries(k.tasks[pid], k.bound) && !k.tasks[pid].stage.Finished?
    requires !k.tasks[pid].op.Rejoin? && Advance(k.store, k.tasks[pid]).Finished?
    ensures var t, k' := k.tasks[pid], Happen(k, Tick(pid));
      && Answer(y.store, Replayed(t)) == Advance(k.store, t).reply
      && Agree(k'.store, After(y.store, Replayed(t)), home, k.bound)
  {
    var t := k.tasks[pid];
    assert TaskMatches(k, y, pid);
    // a kick that its first read turns away is turned away by the atomic call, too
    if !Undecided(t) {
      RestStep(k.store, t, k.bound);
      WholeIsAtomic(y.store, t, home);
    }
  }

  /** The heir that a leave ends with is among the members whom the atomic leave finds. */
  lemma HeirIsListed(s: Store, a: Store, t: Task, b: Bindings)
    requires t.op.Leave? && Carries(t, b) && Advance(s, t).Finished?
    requires Answer(a, t.op) == Advance(s, t).reply == Success(Left(Some(t.op.next)))
    requires SameRoom(Commit(s, WriteOf(t)), After(a, t.op), t.op.code)
    requires t.stage.PassingHost? ==> t.op.next in MembersOf(s, t.op.code)
    ensures t.op.next in MembersOf(a, t.op.code) - {t.op.user}
  {}

  lemma HomeKickIsNoStray(y: System, op: Op, b: Bindings)
    requires I.Sound(y) && Extends(y.bound, b) && ReadsHome(op, b)
    ensures !StrayKick(y.store, op)
  {
    if op.Kick? { assert I.UserSound(y.store, y.bound, op.target); }
  }

  lemma EndIsEnabled(k: Config, y: System, pid: nat, home: Code)
    requires Matches(k, y) && CanHappen(k, Tick(pid)) && On(k, pid, home)
    requires Carries(k.tasks[pid], k.bound)
    requires !k.tasks[pid].op.Rejoin? && Advance(k.store, k.tasks[pid]).Finished?
    requires var t, k' := k.tasks[pid], Happen(k, Tick(pid));
      && Answer(y.store, Replayed(t)) == Advance(k.store, t).reply
      && Agree(k'.store, After(y.store, Replayed(t)), home, k.bound)
    ensures Enabled(y, Replayed(k.tasks[pid])) && !StrayKick(y.store, Replayed(k.tasks[pid]))
  {
    var t := k.tasks[pid];
    if Undecided(t) {
      assert TaskMatches(k, y, pid);
    } else {
      HomeKickIsNoStray(y, t.op, k.bound);
    }
    if t.op.Leave? && Answer(y.store, t.op) == Success(Left(Some(t.op.next))) {
      assert TaskMatches(k, y, pid);
      HeirIsListed(k.store, y.store, t, k.bound);
    }
  }

  /** The atomic call, too, leaves the other rooms alone. */
  lemma AtomicFrame(y: System, op: Op, home: Code, b: Bindings)
    requires I.Sound(y) && Enabled(y, op) && !StrayKick(y.store, op)
    requires E.RoomOf(y.store, op) == Some(home)
    requires Extends(y.bound, b) && (op.Create? || op.Join? ==> Belongs(b, op.uid, home))
    ensures AgreeElsewhere(y.store, After(y.store, op), home, b)
  {
    forall c | c != home ensures Agree(y.store, After(y.store, op), c, b) {
      E.OtherRoomsUntouched(y.store, y.bound, op, c);
      forall u | NotElsewhere(b, u, c) ensures FindUser(y.store, u) == FindUser(After(y.store, op), u) {
        E.OtherUsersUntouched(y.store, y.bound, op, u);
      }
    }
  }

  lemma NewcomerBelongs(s: Store, t: Task, b: Bindings, home: Code)
    requires Carries(t, b) && RoomOf(t) == Some(home) && (t.op.Create? || t.op.Join?)
    requires Advance(s, t).Finished? && Advance(s, t).reply.Success?
    ensures Belongs(b, t.op.uid, home)
  {}

  lemma TickGhosts(k: Config, pid: nat)
    requires CanHappen(k, Tick(pid)) && Advance(k.store, k.tasks[pid]).Finished?
    ensures var k' := Happen(k, Tick(pid));
      && k'.bound == k.bound && pid !in k'.tasks && OnlyTask(k, k', pid)
      && k'.tokens == k.tokens + SignedBy(Advance(k.store, k.tasks[pid]))
  {}

  /** The ghosts after the end of a call are those of the atomic step. */
  lemma EndGhosts(k: Config, y: System, t: Task, home: Code)
    requires Extends(y.bound, k.bound) && Carries(t, k.bound) && RoomOf(t) == Some(home)
    requires !t.op.Rejoin? && Advance(k.store, t).Finished?
    requires Answer(y.store, Replayed(t)) == Advance(k.store, t).reply
    ensures var y' := Next(y, Replayed(t));
      && Extends(y'.bound, k.bound) && y'.tokens == y.tokens + SignedBy(Advance(k.store, t))
      && y'.bound.Keys <= y.bound.Keys + ClaimOf(t.op)
  {}


  lemma TickEnds(k: Config, y: System, pid: nat, home: Code)
    requires Matches(k, y) && CanHappen(k, Tick(pid)) && On(k, pid, home)
    requires !k.tasks[pid].op.Rejoin? && Advance(k.store, k.tasks[pid]).Finished?
    requires KicksReadHome(Happen(k, Tick(pid)))
    ensures var op := Replayed(k.tasks[pid]);
      && Enabled(y, op) && !StrayKick(y.store, op)
      && Answer(y.store, op) == Advance(k.store, k.tasks[pid]).reply
      && Matches(Happen(k, Tick(pid)), Next(y, op))
  {
    var t, k' := k.tasks[pid], Happen(k, Tick(pid));
    var op := Replayed(t);
    TickFrame(k, pid, home);
    EndIsAtomic(k, y, pid, home);
    EndIsEnabled(k, y, pid, home);
    TickGhosts(k, pid);
    EndGhosts(k, y, t, home);
    EndFrame(k, y, pid, home);
    EndMatches(k, y, k', Next(y, op), pid, home) by {
      I.SoundStep(y, op);
    }
  }

  lemma EndFrame(k: Config, y: System, pid: nat, home: Code)
    requires Matches(k, y) && On(k, pid, home) && Carries(k.tasks[pid], k.bound)
    requires !k.tasks[pid].op.Rejoin? && Advance(k.store, k.tasks[pid]).Finished?
    requires Enabled(y, Replayed(k.tasks[pid])) && !StrayKick(y.store, Replayed(k.tasks[pid]))
    requires Answer(y.store, Replayed(k.tasks[pid])) == Advance(k.store, k.tasks[pid]).reply
    ensures AgreeElsewhere(y.store, After(y.store, Replayed(k.tasks[pid])), home, k.bound)
  {
    var t := k.tasks[pid];
    assert t.op.Create? ==> home !in y.store.rooms by { assert TaskMatches(k, y, pid); }
    if (t.op.Create? || t.op.Join?) && Advance(k.store, t).reply.Success? {
      NewcomerBelongs(k.store, t, k.bound, home);
      AtomicFrame(y, Replayed(t), home, k.bound);
    } else if !t.op.Create? && !t.op.Join? {
      AtomicFrame(y, Replayed(t), home, k.bound);
    }
  }

  lemma EndMatches(k: Config, y: System, k': Config, y': System, pid: nat, home: Code)
    requires Matches(k, y) && On(k, pid, home) && OnlyTask(k, k', pid) && pid !in k'.tasks
    requires Bound(k') && I.Sound(y') && KicksReadHome(k') && k'.bound == k.bound
    requires AgreeElsewhere(k'.store, k.store, home, k'.bound)
    requires AgreeElsewhere(y.store, y'.store, home, k'.bound)
    requires Agree(k'.store, y'.store, home, k'.bound)
    requires Extends(y'.bound, k'.bound) && y'.tokens == k'.tokens
    requires y'.bound.Keys <= y.bound.Keys + ClaimOf(k.tasks[pid].op)
    ensures Matches(k', y')
  {
    OtherTasksMatch(k, y, k', y', pid, home);
    RestingRoomsMatch(k, y, k', y', pid, home);
    OneARoomStill(k, k', pid);
  }

  // ---------- calls that are on no room ----------

  lemma ReservedMatches(k: Config, y: System, t: Task, code: Code)
    requires Matches(k, y) && Quiet(k, code) && code !in k.store.rooms
    requires t.op.Create? && t.stage == CreatingUser(code)
    ensures Agree(Rest(Reserve(k.store, code), t).0, Alone(y.store, Replayed(t)).0, code, k.bound)
    ensures Rest(Reserve(k.store, code), t).1 == Alone(y.store, Replayed(t)).1
    ensures code !in y.store.rooms
  {
    var s, a := k.store, y.store;
    assert FindRoom(s, code) == FindRoom(a, code);
    AloneCreate(a, Replayed(t), code);
    CommitAgrees(s, a, ReserveRoom(code), code, k.bound);
    SoloAgrees(Reserve(s, code), Reserve(a, code), Task(Replayed(t), t.stage), code, k.bound);
  }

  lemma ReservationMatches(k: Config, y: System, k': Config, pid: nat, code: Code)
    requires Matches(k, y) && pid in k.tasks && k.tasks[pid].op.Create? && code !in k.store.rooms
    requires RoomOf(k.tasks[pid]) == None
    requires k' == k.(store := Reserve(k.store, code),
                      tasks := k.tasks[pid := Task(k.tasks[pid].op, CreatingUser(code))])
    requires Bound(k') && OneARoom(k') && KicksReadHome(k')
    ensures Matches(k', y)
  {
    assert On(k', pid, code);
    forall p ensures !On(k, p, code) {
      if On(k, p, code) { assert On(k', p, code); }
    }
    ReservedMatches(k, y, k'.tasks[pid], code);
    forall c | c != code ensures Agree(k'.store, k.store, c, k'.bound) {
      CommitElsewhere(k.store, ReserveRoom(code), code, c, k'.bound);
    }
    InsideMatches(k, y, k', pid, code);
  }

  lemma TickReserves(k: Config, y: System, pid: nat, code: Code)
    requires Matches(k, y) && CanHappen(k, Tick(pid))
    requires RoomOf(k.tasks[pid]) == None && k.tasks[pid].op.Create?
    requires Advance(k.store, k.tasks[pid]) == CreatingUser(code)
    requires OneARoom(Happen(k, Tick(pid))) && KicksReadHome(Happen(k, Tick(pid)))
    ensures Matches(Happen(k, Tick(pid)), y)
  {
    TickBound(k, pid);
    assert TaskBound(k, pid);
    ReservationMatches(k, y, Happen(k, Tick(pid)), pid, code);
  }

  lemma Unmoved(k: Config, y: System, k': Config, pid: nat)
    requires Matches(k, y) && Bound(k') && OnlyTask(k, k', pid) && pid in k.tasks
    requires k'.store == k.store && k'.bound == k.bound && k'.tokens == k.tokens
    requires forall c :: !On(k, pid, c) && !On(k', pid, c)
    requires pid in k'.tasks ==> k'.tasks[pid].op == k.tasks[pid].op
    ensures Matches(k', y)
  {
    OneARoomStill(k, k', pid);
    forall p | p in k'.tasks && !Undecided(k'.tasks[p]) ensures ReadsHome(k'.tasks[p].op, k'.bound) {
      if p == pid {
        assert k.tasks[pid].op.Kick? ==> On(k, pid, k.tasks[pid].op.code);
      } else {
        assert ReadsHome(k.tasks[p].op, k.bound);
      }
    }
    forall p | p in k'.tasks ensures TaskMatches(k', y, p) {
      assert TaskMatches(k, y, p);
      if p == pid && RoomOf(k'.tasks[p]).Some? { assert On(k', pid, RoomOf(k'.tasks[p]).value); }
    }
    forall c | Quiet(k', c) ensures Agree(k'.store, y.store, c, k'.bound) {
      forall p ensures !On(k, p, c) { assert !On(k', p, c); }
      assert Quiet(k, c);
    }
  }

  /** A rejoin, or an attempt at a code that is taken. */
  lemma TickUnmoved(k: Config, y: System, pid: nat)
    requires Matches(k, y) && CanHappen(k, Tick(pid)) && RoomOf(k.tasks[pid]) == None
    requires !Advance(k.store, k.tasks[pid]).CreatingUser?
    ensures Matches(Happen(k, Tick(pid)), y)
  {
    var k' := Happen(k, Tick(pid));
    TickBound(k, pid);
    assert TaskBound(k, pid);
    Unmoved(k, y, k', pid);
  }

  // ---------- whole runs ----------

  /** A call that has ended, as an atomic call, with the reply it gave. */
  datatype Entry = Entry(op: Op, reply: Result<Reply>)

  /** What an event logs: a call that ends, rejoins aside.  A create that ran out of candidates is
      replayed with none. */
  function Logged(k: Config, e: Event): seq<Entry>
    requires CanHappen(k, e)
  {
    match e
    case Start(_, _) => []
    case Tick(pid) =>
      var t := k.tasks[pid];
      var stage := Advance(k.store, t);
      if !stage.Finished? || t.op.Rejoin? then []
      else if t.op.Create? && RoomOf(t) == None then [Entry(t.op.(candidates := []), stage.reply)]
      else [Entry(Replayed(t), stage.reply)]
  }

  function Log(k: Config, events: seq<Event>): seq<Entry>
    requires CanRun(k, events)
    decreases |events|
  {
    if events == [] then [] else Logged(k, events[0]) + Log(Happen(k, events[0]), events[1..])
  }

  function OpsOf(log: seq<Entry>): seq<Op> {
    if log == [] then [] else [log[0].op] + OpsOf(log[1..])
  }

  /** The atomic machine gives each call of the log the logged reply. */
  predicate Replies(y: System, log: seq<Entry>)
    decreases |log|
  {
    log == [] || (Answer(y.store, log[0].op) == log[0].reply && Replies(Next(y, log[0].op), log[1..]))
  }

  lemma EventMatches(k: Config, y: System, e: Event)
    requires Matches(k, y) && CanHappen(k, e)
    requires OneARoom(Happen(k, e)) && KicksReadHome(Happen(k, e))
    ensures Logged(k, e) == [] ==> Matches(Happen(k, e), y)
    ensures Logged(k, e) != [] ==>
      && |Logged(k, e)| == 1 && Enabled(y, Logged(k, e)[0].op)
      && !StrayKick(y.store, Logged(k, e)[0].op)
      && Answer(y.store, Logged(k, e)[0].op) == Logged(k, e)[0].reply
      && Matches(Happen(k, e), Next(y, Logged(k, e)[0].op))
  {
    match e
    case Start(pid, op) => StartMatches(k, y, pid, op);
    case Tick(pid) =>
      var t := k.tasks[pid];
      var stage := Advance(k.store, t);
      if RoomOf(t) == None {
        if stage.CreatingUser? {
          assert TaskBound(k, pid);
          TickReserves(k, y, pid, stage.code);
        } else {
          TickUnmoved(k, y, pid);
        }
      } else if stage.Finished? {
        TickEnds(k, y, pid, RoomOf(t).value);
      } else {
        TickInside(k, y, pid, RoomOf(t).value);
      }
  }

  lemma {:induction false} SerialRunsMatch(k: Config, y: System, events: seq<Event>)
    requires Matches(k, y) && CanRun(k, events) && Serial(k, events)
    ensures var log := Log(k, events);
      && Possible(y, OpsOf(log)) && KicksInRoom(y, OpsOf(log)) && Replies(y, log)
      && Matches(RunAll(k, events), Run(y, OpsOf(log)))
    decreases |events|
  {
    if events == [] {
    } else {
      var k', first := Happen(k, events[0]), Logged(k, events[0]);
      var rest := Log(k', events[1..]);
      assert Serial(k', events[1..]);
      EventMatches(k, y, events[0]);
      if first == [] {
        assert Log(k, events) == rest;
        SerialRunsMatch(k', y, events[1..]);
      } else {
        assert (first + rest)[0] == first[0] && (first + rest)[1..] == rest;
        assert OpsOf(first + rest) == [first[0].op] + OpsOf(rest);
        SerialRunsMatch(k', Next(y, first[0].op), events[1..]);
      }
    }
  }

  lemma AgreementIsEquality(s: Store, a: Store, b: Bindings)
    requires forall c :: Agree(s, a, c, b)
    ensures s == a
  {
    forall c ensures FindRoom(s, c) == FindRoom(a, c) { assert Agree(s, a, c, b); }
    forall c ensures c in s.members <==> c in a.members { assert Agree(s, a, c, b); }
    forall c | c in s.members ensures s.members[c] == a.members[c] { assert Agree(s, a, c, b); }
    forall u ensures FindUser(s, u) == FindUser(a, u) {
      var home := if u in b then b[u] else "";
      assert Agree(s, a, home, b) && NotElsewhere(b, u, home);
    }
    assert forall c :: c in s.rooms <==> FindRoom(a, c).Some?;
    assert forall u :: u in s.users <==> FindUser(a, u).Some?;
    assert s.rooms == a.rooms && s.members == a.members && s.users == a.users;
  }

  lemma QuiescentMatch(k: Config, y: System)
    requires Matches(k, y) && k.tasks == map[]
    ensures y.store == k.store && y.tokens == k.tokens
  {
    forall c ensures Agree(k.store, y.store, c, k.bound) {
      assert Quiet(k, c);
    }
    AgreementIsEquality(k.store, y.store, k.bound);
  }

  /** The reduction: whenever nothing is in flight, a run that was serial room by room has left
      the very store that the ended calls leave when they run one at a time in that order, and
      each of them was given the reply that it gets there. */
  lemma RoomwiseSerialRunsAreAtomic(events: seq<Event>)
    requires CanRun(IDLE, events) && Serial(IDLE, events)
    requires RunAll(IDLE, events).tasks == map[]
    ensures var log := Log(IDLE, events);
      && Possible(INIT, OpsOf(log)) && KicksInRoom(INIT, OpsOf(log)) && Replies(INIT, log)
      && Run(INIT, OpsOf(log)).store == RunAll(IDLE, events).store
      && Run(INIT, OpsOf(log)).tokens == RunAll(IDLE, events).tokens
  {
    SerialRunsMatch(IDLE, INIT, events);
    QuiescentMatch(RunAll(IDLE, events), Run(INIT, OpsOf(Log(IDLE, events))));
  }
}
