/** How far racing joins can overfill a room. */
module Capacity {
  import opened Types
  import opened StoreModel
  import opened Machine
  import opened Commands
  import opened Binding
  import R = Reduction

  /** A join of room `code` that has read the members and not yet added its own. */
  predicate Pending(t: Task, code: Code) {
    t.op.Join? && t.op.code == code && (t.stage.JoiningUser? || t.stage.AddingMember?)
  }

  ghost function PendingJoins(k: Config, code: Code): set<nat> {
    set p | p in k.tasks && Pending(k.tasks[p], code)
  }

  predicate Limited(room: Room, limit: nat) {
    room.Complete? && room.maxUsers == limit
  }

  /** The room records that a call in flight has read all carry the limit. */
  predicate ReadLimit(t: Task, code: Code, limit: nat) {
    R.RoomOf(t) == Some(code) ==>
      && !t.op.Create?
      && match t.stage
         case CountingMembers(room) => Limited(room, limit)
         case ListingLeft(room) => Limited(room, limit)
         case PassingHost(room) => Limited(room, limit)
         case CheckingHeir(room) => Limited(room, limit)
         case SavingRoom(room) => Limited(room, limit)
         case _ => true
  }

  ghost predicate Controlled(k: Config, code: Code, limit: nat, racers: nat) {
    && code in k.store.rooms && Limited(k.store.rooms[code], limit)
    && (forall p :: p in k.tasks ==> ReadLimit(k.tasks[p], code, limit))
    && |MembersOf(k.store, code)| + |PendingJoins(k, code)| <= limit - 1 + racers
  }

  /** In every configuration of the run the room is there, and at most `racers` joins are between
      their count and their own entry. */
  ghost predicate Raced(k: Config, events: seq<Event>, code: Code, racers: nat)
    requires CanRun(k, events)
    decreases |events|
  {
    && code in k.store.rooms
    && |PendingJoins(k, code)| <= racers
    && (events != [] ==> Raced(Happen(k, events[0]), events[1..], code, racers))
  }

  lemma StageKeepsLimit(s: Store, t: Task, code: Code, limit: nat, b: Bindings)
    requires Carries(t, b) && ReadLimit(t, code, limit)
    requires code in s.rooms && Limited(s.rooms[code], limit)
    requires !Advance(s, t).Finished?
    ensures ReadLimit(Task(t.op, Advance(s, t)), code, limit)
  {}

  lemma WriteKeepsLimit(s: Store, t: Task, code: Code, limit: nat, b: Bindings)
    requires Carries(t, b) && ReadLimit(t, code, limit)
    requires code in s.rooms && Limited(s.rooms[code], limit)
    requires code in Commit(s, WriteOf(t)).rooms
    ensures Limited(Commit(s, WriteOf(t)).rooms[code], limit)
  {}

  /** Only a pending join adds to the room. */
  lemma MembersAfter(s: Store, t: Task, code: Code, limit: nat, b: Bindings)
    requires Carries(t, b) && ReadLimit(t, code, limit)
    ensures var after := MembersOf(Commit(s, WriteOf(t)), code);
      if Pending(t, code) && t.stage.AddingMember?
      then after == MembersOf(s, code) + {t.op.uid} else after <= MembersOf(s, code)
  {}

  /** A join becomes pending only by finding room. */
  lemma PendingAfter(s: Store, t: Task, code: Code, limit: nat, b: Bindings)
    requires Carries(t, b) && ReadLimit(t, code, limit) && limit != 0
    requires Pending(Task(t.op, Advance(s, t)), code) && !Pending(t, code)
    ensures |MembersOf(s, code)| < limit && MembersOf(Commit(s, WriteOf(t)), code) == MembersOf(s, code)
  {}

  lemma {:induction false} SubsetSize<T>(a: set<T>, b: set<T>)
    requires a <= b
    ensures |a| <= |b|
  {
    if a == {} {
    } else {
      var x :| x in a;
      SubsetSize(a - {x}, b - {x});
    }
  }

  /** One command of task `t`: the members and the pending joins before and after. */
  lemma SumAfter(s: Store, t: Task, code: Code, limit: nat, b: Bindings, racers: nat,
                 pid: nat, pending: set<nat>, pending': set<nat>)
    requires Carries(t, b) && ReadLimit(t, code, limit) && limit != 0
    requires pid in pending <==> Pending(t, code)
    requires pid in pending' <==> Pending(Task(t.op, Advance(s, t)), code)
    requires pending' - {pid} == pending - {pid} && |pending'| <= racers
    requires |MembersOf(s, code)| + |pending| <= limit - 1 + racers
    ensures |MembersOf(Commit(s, WriteOf(t)), code)| + |pending'| <= limit - 1 + racers
  {
    var m, m' := MembersOf(s, code), MembersOf(Commit(s, WriteOf(t)), code);
    MembersAfter(s, t, code, limit, b);
    if Pending(t, code) && t.stage.AddingMember? {
      assert pending == (pending - {pid}) + {pid} && pending' == pending' - {pid};
      SubsetSize(m', m + {t.op.uid});
    } else if pid in pending' && pid !in pending {
      PendingAfter(s, t, code, limit, b);
    } else {
      assert pending' <= (pending' - {pid}) + (pending * {pid}) <= pending;
      SubsetSize(pending', pending);
      SubsetSize(m', m);
    }
  }

  lemma PendingOthers(k: Config, k': Config, pid: nat, code: Code)
    requires R.OnlyTask(k, k', pid)
    ensures PendingJoins(k', code) - {pid} == PendingJoins(k, code) - {pid}
  {}

  lemma TickTask(k: Config, pid: nat)
    requires CanHappen(k, Tick(pid))
    ensures var t, k' := k.tasks[pid], Happen(k, Tick(pid));
      && R.OnlyTask(k, k', pid) && k'.store == Commit(k.store, WriteOf(t))
      && (pid in k'.tasks <==> !Advance(k.store, t).Finished?)
      && (pid in k'.tasks ==> k'.tasks[pid] == Task(t.op, Advance(k.store, t)))
  {}

  lemma TickControlled(k: Config, pid: nat, code: Code, limit: nat, racers: nat)
    requires Controlled(k, code, limit, racers) && CanHappen(k, Tick(pid)) && limit != 0
    requires Carries(k.tasks[pid], k.bound)
    requires code in Happen(k, Tick(pid)).store.rooms
    requires |PendingJoins(Happen(k, Tick(pid)), code)| <= racers
    ensures Controlled(Happen(k, Tick(pid)), code, limit, racers)
  {
    var t, k' := k.tasks[pid], Happen(k, Tick(pid));
    assert ReadLimit(t, code, limit);
    TickTask(k, pid);
    WriteKeepsLimit(k.store, t, code, limit, k.bound);
    PendingOthers(k, k', pid, code);
    SumAfter(k.store, t, code, limit, k.bound, racers, pid, PendingJoins(k, code), PendingJoins(k', code));
    forall p | p in k'.tasks ensures ReadLimit(k'.tasks[p], code, limit) {
      if p == pid {
        StageKeepsLimit(k.store, t, code, limit, k.bound);
      } else {
        assert ReadLimit(k.tasks[p], code, limit);
      }
    }
  }

  lemma StartControlled(k: Config, pid: nat, op: Op, code: Code, limit: nat, racers: nat)
    requires Controlled(k, code, limit, racers) && CanHappen(k, Start(pid, op))
    ensures Controlled(Happen(k, Start(pid, op)), code, limit, racers)
  {
    var k' := Happen(k, Start(pid, op));
    PendingOthers(k, k', pid, code);
    assert PendingJoins(k', code) == PendingJoins(k, code);
    forall p | p in k'.tasks ensures ReadLimit(k'.tasks[p], code, limit) {
      if p != pid { assert ReadLimit(k.tasks[p], code, limit); }
    }
  }

  lemma EventControlled(k: Config, e: Event, code: Code, limit: nat, racers: nat)
    requires Bound(k) && Controlled(k, code, limit, racers) && CanHappen(k, e) && limit != 0
    requires code in Happen(k, e).store.rooms && |PendingJoins(Happen(k, e), code)| <= racers
    ensures Controlled(Happen(k, e), code, limit, racers)
  {
    match e
    case Start(pid, op) =>
      StartControlled(k, pid, op, code, limit, racers);
    case Tick(pid) =>
      assert TaskBound(k, pid);
      TickControlled(k, pid, code, limit, racers);
  }

  lemma {:induction false} RacedControlled(k: Config, events: seq<Event>, code: Code, limit: nat,
                                           racers: nat)
    requires Bound(k) && Controlled(k, code, limit, racers) && limit != 0
    requires CanRun(k, events) && Raced(k, events, code, racers)
    ensures Controlled(RunAll(k, events), code, limit, racers)
    decreases |events|
  {
    if events == [] {
    } else {
      var k' := Happen(k, events[0]);
      assert Raced(k', events[1..], code, racers);
      EventBound(k, events[0]);
      EventControlled(k, events[0], code, limit, racers);
      RacedControlled(k', events[1..], code, limit, racers);
    }
  }

  /** From a moment at which nothing is in flight on the room and it is within its limit, until
      the room is deleted: racing joins take it at most `racers - 1` over the limit. */
  lemma RacingJoinsOverfillBoundedly(before: seq<Event>, events: seq<Event>, code: Code, racers: nat)
    requires CanRun(IDLE, before) && CanRun(RunAll(IDLE, before), events) && racers >= 1
    requires var k := RunAll(IDLE, before);
      && code in k.store.rooms && k.store.rooms[code].Complete? && k.store.rooms[code].maxUsers > 0
      && |MembersOf(k.store, code)| <= k.store.rooms[code].maxUsers
      && (forall p :: p in k.tasks ==> R.RoomOf(k.tasks[p]) != Some(code))
    requires Raced(RunAll(IDLE, before), events, code, racers)
    ensures var k, k' := RunAll(IDLE, before), RunAll(RunAll(IDLE, before), events);
      |MembersOf(k'.store, code)| <= k.store.rooms[code].maxUsers - 1 + racers
  {
    var k := RunAll(IDLE, before);
    BoundRun(IDLE, before);
    forall p | p in k.tasks ensures !Pending(k.tasks[p], code) {}
    assert PendingJoins(k, code) == {};
    RacedControlled(k, events, code, k.store.rooms[code].maxUsers, racers);
  }
}
