/** What serialising a room's calls is for: a call saves the record that it has read, so of two calls
    that both read before either saves, the later save undoes the earlier one. */
module LostUpdates {
  import opened Types
  import opened StoreModel
  import opened Machine
  import opened Commands

  /** A hosted room, and two call numbers that are not in use. */
  predicate Ready(k: Config, p: nat, q: nat, host: UserId, code: Code) {
    && p != q && p !in k.tasks && q !in k.tasks
    && HostOf(k.store, code) == Some(host) && k.store.rooms[code].code == code
  }

  predicate Saves(op: Op) {
    op.ToggleLock? || op.UpdateHost?
  }

  /** A command that only reads. */
  lemma Reads(k: Config, p: nat, stage: Stage)
    requires p in k.tasks && Saves(k.tasks[p].op) && !stage.Finished?
    requires WriteOf(k.tasks[p]) == NoWrite && Advance(k.store, k.tasks[p]) == stage
    ensures CanHappen(k, Tick(p))
    ensures Happen(k, Tick(p)) == k.(tasks := k.tasks[p := Task(k.tasks[p].op, stage)])
  {
    assert k.bound + map[] == k.bound && k.tokens + {} == k.tokens;
  }

  /** The save that ends the call. */
  lemma SavesLast(k: Config, p: nat, room: Room)
    requires p in k.tasks && Saves(k.tasks[p].op) && k.tasks[p].stage == SavingRoom(room)
    ensures CanHappen(k, Tick(p))
    ensures Happen(k, Tick(p)) == k.(store := PutRoom(k.store, room), tasks := k.tasks - {p})
  {
    assert k.bound + map[] == k.bound && k.tokens + {} == k.tokens;
  }

  lemma Starts(k: Config, p: nat, op: Op)
    requires p !in k.tasks && Saves(op)
    ensures CanHappen(k, Start(p, op))
    ensures Happen(k, Start(p, op)) == k.(tasks := k.tasks[p := Task(op, ReadingRoom)])
  {
    assert k.claimed + {} == k.claimed;
  }

  lemma AndThen(k: Config, e: Event, rest: seq<Event>)
    requires CanHappen(k, e) && CanRun(Happen(k, e), rest)
    ensures CanRun(k, [e] + rest) && RunAll(k, [e] + rest) == RunAll(Happen(k, e), rest)
  {
    assert ([e] + rest)[1..] == rest;
  }

  /** Both calls have read the room and are about to save. */
  lemma BothSave(k: Config, p: nat, q: nat, a: Room, b: Room)
    requires p != q && p in k.tasks && q in k.tasks && Saves(k.tasks[p].op) && Saves(k.tasks[q].op)
    requires k.tasks[p].stage == SavingRoom(a) && k.tasks[q].stage == SavingRoom(b) && a.code == b.code
    ensures CanRun(k, [Tick(p)] + [Tick(q)])
    ensures RunAll(k, [Tick(p)] + [Tick(q)]) == k.(store := PutRoom(k.store, b), tasks := k.tasks - {p, q})
  {
    var k1 := k.(store := PutRoom(k.store, a), tasks := k.tasks - {p});
    SavesLast(k, p, a);
    SavesLast(k1, q, b);
    var k2 := Happen(k1, Tick(q));
    assert k2.store.rooms == k.store.rooms[b.code := b] && k2.tasks == k.tasks - {p, q};
    assert CanRun(k2, []) && RunAll(k2, []) == k2;
    AndThen(k1, Tick(q), []);
    assert [Tick(q)] + [] == [Tick(q)];
    AndThen(k, Tick(p), [Tick(q)]);
  }

  /** Both toggles are about to read the room. */
  lemma BothToggle(k: Config, p: nat, q: nat, op: Op) returns (race: seq<Event>)
    requires p != q && p in k.tasks && q in k.tasks && op.ToggleLock?
    requires k.tasks[p] == k.tasks[q] == Task(op, ReadingRoom) && HostOf(k.store, op.code) == Some(op.host)
    ensures var room := k.store.rooms[op.code];
      && CanRun(k, race)
      && RunAll(k, race)
         == k.(store := PutRoom(k.store, room.(isLocked := !room.isLocked)), tasks := k.tasks - {p, q})
  {
    var room := k.store.rooms[op.code];
    var saved := room.(isLocked := !room.isLocked);
    var k1 := k.(tasks := k.tasks[p := Task(op, SavingRoom(saved))]);
    var k2 := k.(tasks := k1.tasks[q := Task(op, SavingRoom(saved))]);
    Reads(k, p, SavingRoom(saved));
    Reads(k1, q, SavingRoom(saved));
    BothSave(k2, p, q, saved, saved);
    assert k2.tasks - {p, q} == k.tasks - {p, q};
    var rest := [Tick(p)] + [Tick(q)];
    AndThen(k1, Tick(q), rest);
    AndThen(k, Tick(p), [Tick(q)] + rest);
    race := [Tick(p)] + ([Tick(q)] + rest);
  }

  lemma TogglesCancel(s: Store, host: UserId, code: Code)
    requires HostOf(s, code) == Some(host) && s.rooms[code].code == code
    ensures var op := Machine.ToggleLock(host, code); After(After(s, op), op) == s
  {
    var room := s.rooms[code];
    assert s.rooms[code := room.(isLocked := !room.isLocked)][code := room] == s.rooms;
  }

  /** Two toggles, each accepted, leave the lock as one would; one after the other they leave it as
      it was. */
  lemma TogglesAreLost(k: Config, p: nat, q: nat, host: UserId, code: Code) returns (race: seq<Event>)
    requires Ready(k, p, q, host, code)
    ensures CanRun(k, race)
    ensures var room := k.store.rooms[code];
      RunAll(k, race) == k.(store := PutRoom(k.store, room.(isLocked := !room.isLocked)))
    ensures var op := Machine.ToggleLock(host, code); After(After(k.store, op), op) == k.store
  {
    var op := Machine.ToggleLock(host, code);
    var k1 := k.(tasks := k.tasks[p := Task(op, ReadingRoom)]);
    var k2 := k.(tasks := k1.tasks[q := Task(op, ReadingRoom)]);
    Starts(k, p, op);
    Starts(k1, q, op);
    var rest := BothToggle(k2, p, q, op);
    assert k2.tasks - {p, q} == k.tasks;
    AndThen(k1, Start(q, op), rest);
    AndThen(k, Start(p, op), [Start(q, op)] + rest);
    race := [Start(p, op)] + ([Start(q, op)] + rest);
    TogglesCancel(k.store, host, code);
  }

  /** The transfer reads, checks and saves, and then the toggle saves. */
  lemma TransferOvertaken(k: Config, p: nat, q: nat, op: Op, mine: Room, late: Room) returns (race: seq<Event>)
    requires p != q && p in k.tasks && q in k.tasks && op.UpdateHost? && Saves(k.tasks[q].op)
    requires op.code in k.store.rooms && k.store.rooms[op.code].HostedBy(op.host)
    requires op.to != op.host && op.to in MembersOf(k.store, op.code)
    requires k.tasks[p] == Task(op, ReadingRoom) && k.tasks[q].stage == SavingRoom(late)
    requires mine == k.store.rooms[op.code].(hostId := op.to) && mine.code == late.code
    ensures CanRun(k, race)
    ensures RunAll(k, race) == k.(store := PutRoom(k.store, late), tasks := k.tasks - {p, q})
  {
    var room := k.store.rooms[op.code];
    var k1 := k.(tasks := k.tasks[p := Task(op, CheckingHeir(room))]);
    var k2 := k.(tasks := k1.tasks[p := Task(op, SavingRoom(mine))]);
    Reads(k, p, CheckingHeir(room));
    Reads(k1, p, SavingRoom(mine));
    BothSave(k2, p, q, mine, late);
    assert k2.tasks - {p, q} == k.tasks - {p, q};
    var rest := [Tick(p)] + [Tick(q)];
    AndThen(k1, Tick(p), rest);
    AndThen(k, Tick(p), [Tick(p)] + rest);
    race := [Tick(p)] + ([Tick(p)] + rest);
  }

  /** A transfer that is made while a toggle is between its read and its save is undone by it, although
      alone it would have made the other member host. */
  lemma TransferIsLost(k: Config, p: nat, q: nat, op: Op) returns (race: seq<Event>)
    requires op.UpdateHost? && Accepted(k.store, op) && k.store.rooms[op.code].code == op.code
    requires p != q && p in k.tasks && q in k.tasks && k.tasks[p] == Task(op, ReadingRoom)
    requires k.tasks[q].op == Machine.ToggleLock(op.host, op.code)
    requires k.tasks[q].stage == Advance(k.store, Task(k.tasks[q].op, ReadingRoom))
    ensures CanRun(k, race) && RunAll(k, race).tasks == k.tasks - {p, q}
    ensures HostOf(After(k.store, op), op.code) == Some(op.to)
    ensures HostOf(RunAll(k, race).store, op.code) == Some(op.host) != Some(op.to)
  {
    var room := k.store.rooms[op.code];
    race := TransferOvertaken(k, p, q, op, room.(hostId := op.to), room.(isLocked := !room.isLocked));
  }
}
