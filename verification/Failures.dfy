/** A call that fails has changed nothing, whatever ran beside it. */
module Failures {
  import opened Types
  import opened StoreModel
  import opened Machine
  import opened Commands
  import opened Binding

  /** The call has got as far as its first write, or past it. */
  predicate Committed(t: Task) {
    match t.op
    case Create(_, _, _, _, _, _) =>
      t.stage.CreatingUser? || t.stage.SavingNewRoom? || t.stage.AddingHost? || t.stage.ExpiringMembers?
    case Join(_, _, _) => t.stage.AddingMember?
    case Leave(_, _, _) =>
      || t.stage.DeletingUser? || t.stage.ReadingLeftRoom? || t.stage.ListingLeft?
      || t.stage.PassingHost? || t.stage.DeletingRoom?
    case Kick(_, _, _) => t.stage.RemovingTarget?
    case Close(_, _) => t.stage.ClosingRoom?
    case _ => false
  }

  predicate Fails(s: Store, t: Task) {
    Advance(s, t).Finished? && Advance(s, t).reply.Failure?
  }

  /** Whether the call that runs as `pid` has changed the store: since it started, or, where it was
      in flight at `k`, since it had `sofar`. */
  predicate HasWritten(k: Config, events: seq<Event>, pid: nat, sofar: bool)
    requires CanRun(k, events)
    decreases |events|
  {
    if events == [] then sofar
    else HasWritten(Happen(k, events[0]), events[1..], pid, WrittenBy(k, events[0], pid, sofar))
  }

  predicate WrittenBy(k: Config, e: Event, pid: nat, sofar: bool)
    requires CanHappen(k, e)
  {
    if e.pid != pid then sofar
    else e.Tick? && (sofar || Happen(k, e).store != k.store)
  }

  lemma {:induction false} WrittenIsCommitted(k: Config, events: seq<Event>, pid: nat, sofar: bool)
    requires Bound(k) && CanRun(k, events) && (sofar && pid in k.tasks ==> Committed(k.tasks[pid]))
    ensures var k' := RunAll(k, events);
      HasWritten(k, events, pid, sofar) && pid in k'.tasks ==> Committed(k'.tasks[pid])
    decreases |events|
  {
    if events == [] {
    } else {
      var e := events[0];
      EventBound(k, e);
      if e == Tick(pid) {
        assert TaskBound(k, pid);
      }
      WrittenIsCommitted(Happen(k, e), events[1..], pid, WrittenBy(k, e, pid, sofar));
    }
  }

  /** Under every interleaving, a call whose next command ends it with a failure has changed nothing
      since it started, and that command changes nothing either. */
  lemma FailuresChangeNothing(events: seq<Event>, pid: nat)
    requires CanRun(IDLE, events) && pid in RunAll(IDLE, events).tasks
    requires Fails(RunAll(IDLE, events).store, RunAll(IDLE, events).tasks[pid])
    ensures !HasWritten(IDLE, events, pid, false)
    ensures var k := RunAll(IDLE, events); Commit(k.store, WriteOf(k.tasks[pid])) == k.store
  {
    var k := RunAll(IDLE, events);
    BoundRun(IDLE, events);
    assert TaskBound(k, pid);
    WrittenIsCommitted(IDLE, events, pid, false);
  }
}
