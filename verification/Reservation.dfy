/** A reserved code belongs to its creator until the creator has saved the room. */
module Reservation {
  import opened Types
  import opened StoreModel
  import opened Machine
  import opened Commands
  import opened Binding

  /** Between the reservation of `code` and the creator's own save. */
  predicate Holds(t: Task, code: Code) {
    t.op.Create? && (t.stage == CreatingUser(code) || t.stage == SavingNewRoom(code))
  }

  /** The call may still write or delete the record of room `code`, having read it complete. */
  predicate MayRewrite(t: Task, code: Code) {
    && CodeOf(t.op) == Some(code)
    && (t.stage.ListingLeft? || t.stage.PassingHost? || t.stage.DeletingRoom?
        || t.stage.CheckingHeir? || t.stage.SavingRoom?
        || t.stage.ListingMembers? || t.stage.DeletingMembers? || t.stage.ClosingRoom?)
  }

  /** The command that a call sends next writes or deletes the record of room `code`. */
  predicate Rewrites(t: Task, code: Code) {
    match WriteOf(t)
    case WriteRoom(room) => room.code == code
    case DeleteRoom(c) => c == code
    case _ => false
  }

  /** Codes reserved so far by an event, and the run's assumption that none is reserved twice. */
  function ReservedBy(k: Config, e: Event): set<Code>
    requires CanHappen(k, e)
  {
    match e
    case Start(_, _) => {}
    case Tick(pid) =>
      match WriteOf(k.tasks[pid])
      case ReserveRoom(code) => if code in k.store.rooms then {} else {code}
      case _ => {}
  }

  ghost predicate NeverReused(k: Config, events: seq<Event>, used: set<Code>)
    requires CanRun(k, events)
    decreases |events|
  {
    events != [] ==>
      && ReservedBy(k, events[0]) !! used
      && NeverReused(Happen(k, events[0]), events[1..], used + ReservedBy(k, events[0]))
  }

  ghost predicate TaskOwns(k: Config, used: set<Code>, p: nat)
    requires p in k.tasks
  {
    var t := k.tasks[p];
    forall c :: && (Holds(t, c) ==> c in used && FindRoom(k.store, c) == Some(Placeholder(c)))
                && (MayRewrite(t, c) ==> c in used)
  }

  ghost predicate Apart(k: Config, p: nat, q: nat)
    requires p in k.tasks && q in k.tasks
  {
    forall c :: Holds(k.tasks[p], c) ==> !Holds(k.tasks[q], c) && !MayRewrite(k.tasks[q], c)
  }

  ghost predicate Owned(k: Config, used: set<Code>) {
    && k.store.rooms.Keys <= used
    && (forall p :: p in k.tasks ==> TaskOwns(k, used, p))
    && (forall p, q :: p in k.tasks && q in k.tasks && p != q ==> Apart(k, p, q))
  }

  lemma HolderReserved(s: Store, t: Task, code: Code)
    requires Holds(Task(t.op, Advance(s, t)), code)
    ensures Holds(t, code) || (WriteOf(t) == ReserveRoom(code) && code !in s.rooms)
  {}

  lemma RewriterRead(s: Store, t: Task, code: Code, b: Bindings)
    requires Carries(t, b) && MayRewrite(Task(t.op, Advance(s, t)), code)
    ensures MayRewrite(t, code) || (code in s.rooms && s.rooms[code].Complete?)
  {}

  lemma RewriteNeedsRead(t: Task, code: Code, b: Bindings)
    requires Carries(t, b) && Rewrites(t, code)
    ensures MayRewrite(t, code) || Holds(t, code)
  {}

  lemma ForeignWrite(s: Store, t: Task, code: Code)
    requires !Rewrites(t, code) && FindRoom(s, code) == Some(Placeholder(code))
    ensures FindRoom(Commit(s, WriteOf(t)), code) == Some(Placeholder(code))
  {}

  lemma OthersOwn(k: Config, used: set<Code>, pid: nat, p: nat)
    requires Bound(k) && Owned(k, used) && CanHappen(k, Tick(pid)) && p in k.tasks && p != pid
    requires p in Happen(k, Tick(pid)).tasks
    ensures TaskOwns(Happen(k, Tick(pid)), used + ReservedBy(k, Tick(pid)), p)
  {
    var t, k' := k.tasks[p], Happen(k, Tick(pid));
    assert TaskOwns(k, used, p) && Apart(k, p, pid) && TaskBound(k, pid);
    forall c | Holds(t, c) ensures FindRoom(k'.store, c) == Some(Placeholder(c)) {
      if Rewrites(k.tasks[pid], c) { RewriteNeedsRead(k.tasks[pid], c, k.bound); }
      ForeignWrite(k.store, k.tasks[pid], c);
    }
  }

  lemma OwnOwns(k: Config, used: set<Code>, pid: nat)
    requires Bound(k) && Owned(k, used) && CanHappen(k, Tick(pid))
    requires pid in Happen(k, Tick(pid)).tasks
    ensures TaskOwns(Happen(k, Tick(pid)), used + ReservedBy(k, Tick(pid)), pid)
  {
    var t, k' := k.tasks[pid], Happen(k, Tick(pid));
    assert TaskOwns(k, used, pid) && TaskBound(k, pid);
    forall c | Holds(k'.tasks[pid], c)
      ensures c in used + ReservedBy(k, Tick(pid)) && FindRoom(k'.store, c) == Some(Placeholder(c))
    {
      if Holds(t, c) { ForeignWrite(k.store, t, c); }
    }
    forall c | MayRewrite(k'.tasks[pid], c) ensures c in used {
      RewriterRead(k.store, t, c, k.bound);
    }
  }

  lemma StillApart(k: Config, used: set<Code>, pid: nat, q: nat)
    requires Bound(k) && Owned(k, used) && CanHappen(k, Tick(pid)) && q in k.tasks && q != pid
    requires pid in Happen(k, Tick(pid)).tasks && q in Happen(k, Tick(pid)).tasks
    requires ReservedBy(k, Tick(pid)) !! used
    ensures Apart(Happen(k, Tick(pid)), pid, q) && Apart(Happen(k, Tick(pid)), q, pid)
  {
    var t, k' := k.tasks[pid], Happen(k, Tick(pid));
    assert Apart(k, pid, q) && Apart(k, q, pid) && TaskOwns(k, used, q) && TaskBound(k, pid);
    forall c | Holds(k'.tasks[pid], c)
      ensures !Holds(k'.tasks[q], c) && !MayRewrite(k'.tasks[q], c)
    {
      HolderReserved(k.store, t, c);
    }
    forall c | Holds(k'.tasks[q], c)
      ensures !Holds(k'.tasks[pid], c) && !MayRewrite(k'.tasks[pid], c)
    {
      if MayRewrite(k'.tasks[pid], c) { RewriterRead(k.store, t, c, k.bound); }
    }
  }

  lemma KeysUsed(k: Config, used: set<Code>, pid: nat)
    requires Bound(k) && Owned(k, used) && CanHappen(k, Tick(pid))
    ensures Happen(k, Tick(pid)).store.rooms.Keys <= used + ReservedBy(k, Tick(pid))
  {
    var t, k' := k.tasks[pid], Happen(k, Tick(pid));
    assert TaskOwns(k, used, pid) && TaskBound(k, pid);
    forall c | c in k'.store.rooms && c !in k.store.rooms
      ensures c in used + ReservedBy(k, Tick(pid))
    {
      if Rewrites(t, c) { RewriteNeedsRead(t, c, k.bound); }
    }
  }

  lemma TickOwned(k: Config, used: set<Code>, pid: nat)
    requires Bound(k) && Owned(k, used) && CanHappen(k, Tick(pid))
    requires ReservedBy(k, Tick(pid)) !! used
    ensures Owned(Happen(k, Tick(pid)), used + ReservedBy(k, Tick(pid)))
  {
    var k' := Happen(k, Tick(pid));
    KeysUsed(k, used, pid);
    forall p | p in k'.tasks ensures TaskOwns(k', used + ReservedBy(k, Tick(pid)), p) {
      if p == pid { OwnOwns(k, used, pid); } else { OthersOwn(k, used, pid, p); }
    }
    forall p, q | p in k'.tasks && q in k'.tasks && p != q ensures Apart(k', p, q) {
      if p == pid {
        StillApart(k, used, pid, q);
      } else if q == pid {
        StillApart(k, used, pid, p);
      } else {
        assert Apart(k, p, q);
      }
    }
  }

  lemma StartOwned(k: Config, used: set<Code>, pid: nat, op: Op)
    requires Owned(k, used) && CanHappen(k, Start(pid, op))
    ensures Owned(Happen(k, Start(pid, op)), used)
  {
    var k' := Happen(k, Start(pid, op));
    forall p | p in k'.tasks ensures TaskOwns(k', used, p) {
      if p != pid { assert TaskOwns(k, used, p); }
    }
    forall p, q | p in k'.tasks && q in k'.tasks && p != q ensures Apart(k', p, q) {
      if p != pid && q != pid { assert Apart(k, p, q); }
    }
  }

  lemma {:induction false} OwnedRun(k: Config, events: seq<Event>, used: set<Code>)
    returns (used': set<Code>)
    requires Bound(k) && Owned(k, used) && CanRun(k, events) && NeverReused(k, events, used)
    ensures Bound(RunAll(k, events)) && Owned(RunAll(k, events), used')
    decreases |events|
  {
    if events == [] {
      used' := used;
    } else {
      var more := used + ReservedBy(k, events[0]);
      EventBound(k, events[0]);
      match events[0] {
        case Start(pid, op) => StartOwned(k, used, pid, op); assert more == used;
        case Tick(pid) => TickOwned(k, used, pid);
      }
      assert NeverReused(Happen(k, events[0]), events[1..], more);
      used' := OwnedRun(Happen(k, events[0]), events[1..], more);
    }
  }

  /** If no code is ever reserved twice in the run, then while one create holds a code no other
      create holds it, no other call's next command writes or deletes its record, and the record
      is still the creator's placeholder. */
  lemma ReservationIsOwned(events: seq<Event>, p: nat, q: nat, code: Code)
    requires CanRun(IDLE, events) && NeverReused(IDLE, events, {})
    requires p in RunAll(IDLE, events).tasks && q in RunAll(IDLE, events).tasks && p != q
    requires Holds(RunAll(IDLE, events).tasks[p], code)
    ensures var k := RunAll(IDLE, events);
      && !Holds(k.tasks[q], code) && !Rewrites(k.tasks[q], code)
      && FindRoom(k.store, code) == Some(Placeholder(code))
  {
    var k := RunAll(IDLE, events);
    var used := OwnedRun(IDLE, events, {});
    assert Apart(k, p, q) && TaskOwns(k, used, p) && TaskBound(k, q);
    if Rewrites(k.tasks[q], code) { RewriteNeedsRead(k.tasks[q], code, k.bound); }
  }
}
