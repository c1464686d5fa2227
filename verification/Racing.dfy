/** The bound on racing joins is reached. */
module Racing {
  import opened Types
  import opened StoreModel
  import opened Machine
  import B = Binding
  import C = Commands
  import P = Capacity

  /** There is room for one more in an open room, and the ids and call numbers are new. */
  ghost predicate Open(k: C.Config, pid: nat, code: Code, uids: seq<UserId>) {
    && code in k.store.rooms && k.store.rooms[code].Complete? && k.store.rooms[code].code == code
    && !k.store.rooms[code].isLocked && !k.store.rooms[code].FullAt(|MembersOf(k.store, code)|)
    && (forall p :: p in k.tasks ==> p < pid)
    && (forall i :: 0 <= i < |uids| ==> uids[i] !in k.claimed && uids[i] !in MembersOf(k.store, code))
    && (forall i, j :: 0 <= i < j < |uids| ==> uids[i] != uids[j])
  }

  /** `events` lead from `k` to `k'`, never with more than `racers` joins past their count. */
  ghost predicate Course(k: C.Config, k': C.Config, code: Code, racers: nat, events: seq<C.Event>) {
    C.CanRun(k, events) && P.Raced(k, events, code, racers) && C.RunAll(k, events) == k'
  }

  ghost predicate Leads(k: C.Config, k': C.Config, code: Code, racers: nat) {
    exists events :: Course(k, k', code, racers, events)
  }

  lemma {:induction false} CourseJoins(k: C.Config, k1: C.Config, k2: C.Config, code: Code, racers: nat,
                                       first: seq<C.Event>, second: seq<C.Event>)
    requires Course(k, k1, code, racers, first) && Course(k1, k2, code, racers, second)
    ensures Course(k, k2, code, racers, first + second)
    decreases |first|
  {
    if first == [] {
      assert first + second == second;
    } else {
      assert (first + second)[0] == first[0] && (first + second)[1..] == first[1..] + second;
      CourseJoins(C.Happen(k, first[0]), k1, k2, code, racers, first[1..], second);
    }
  }

  lemma LeadsOn(k: C.Config, k1: C.Config, k2: C.Config, code: Code, racers: nat)
    requires Leads(k, k1, code, racers) && Leads(k1, k2, code, racers)
    ensures Leads(k, k2, code, racers)
  {
    var first :| Course(k, k1, code, racers, first);
    var second :| Course(k1, k2, code, racers, second);
    CourseJoins(k, k1, k2, code, racers, first, second);
  }

  lemma StaysHere(k: C.Config, code: Code, racers: nat)
    requires code in k.store.rooms && |P.PendingJoins(k, code)| <= racers
    ensures Leads(k, k, code, racers)
  {
    assert Course(k, k, code, racers, []);
  }

  lemma OneMore(k: C.Config, e: C.Event, code: Code, racers: nat)
    requires C.CanHappen(k, e) && code in k.store.rooms && code in C.Happen(k, e).store.rooms
    requires |P.PendingJoins(k, code)| <= racers && |P.PendingJoins(C.Happen(k, e), code)| <= racers
    ensures Leads(k, C.Happen(k, e), code, racers)
  {
    var k1 := C.Happen(k, e);
    assert [e][1..] == [] && C.CanRun(k1, []) && C.RunAll(k1, []) == k1 && P.Raced(k1, [], code, racers);
    assert Course(k, k1, code, racers, [e]);
  }

  function Waiting(k: C.Config, pid: nat, uid: UserId, code: Code, stage: C.Stage): C.Config {
    k.(claimed := k.claimed + {uid}, tasks := k.tasks[pid := C.Task(Join(code, uid, ""), stage)])
  }

  lemma JoinReads(k: C.Config, pid: nat, code: Code, uid: UserId, room: Room)
    requires FindRoom(k.store, code) == Some(room)
    ensures var k1 := Waiting(k, pid, uid, code, C.ReadingRoom);
      && C.CanHappen(k1, C.Tick(pid))
      && C.Happen(k1, C.Tick(pid)) == Waiting(k, pid, uid, code, C.CountingMembers(room))
  {
    var k1 := Waiting(k, pid, uid, code, C.ReadingRoom);
    assert C.Advance(k.store, k1.tasks[pid]) == C.CountingMembers(room);
    assert k.bound + map[] == k.bound && k.tokens + {} == k.tokens;
  }

  lemma JoinCounts(k: C.Config, pid: nat, code: Code, uid: UserId, room: Room)
    requires room.Complete? && room.code == code && !room.isLocked && !room.FullAt(|MembersOf(k.store, code)|)
    ensures var k1 := Waiting(k, pid, uid, code, C.CountingMembers(room));
      && C.CanHappen(k1, C.Tick(pid))
      && C.Happen(k1, C.Tick(pid)) == Waiting(k, pid, uid, code, C.JoiningUser(code))
  {
    var k1 := Waiting(k, pid, uid, code, C.CountingMembers(room));
    assert C.Advance(k.store, k1.tasks[pid]) == C.JoiningUser(code);
    assert k.bound + map[] == k.bound && k.tokens + {} == k.tokens;
  }

  lemma PendingWaiting(k: C.Config, pid: nat, uid: UserId, code: Code, stage: C.Stage)
    requires forall p :: p in k.tasks ==> p < pid
    ensures var k1 := Waiting(k, pid, uid, code, stage);
      |P.PendingJoins(k1, code)|
      == |P.PendingJoins(k, code)| + if stage.JoiningUser? || stage.AddingMember? then 1 else 0
  {
    var now, were := P.PendingJoins(Waiting(k, pid, uid, code, stage), code), P.PendingJoins(k, code);
    if stage.JoiningUser? || stage.AddingMember? {
      assert now == were + {pid};
    } else {
      assert now == were;
    }
  }

  /** A join comes up to storing its user. */
  lemma Arrives(k: C.Config, pid: nat, code: Code, uids: seq<UserId>, racers: nat)
    requires Open(k, pid, code, uids) && uids != [] && |P.PendingJoins(k, code)| + 1 <= racers
    ensures Leads(k, Waiting(k, pid, uids[0], code, C.JoiningUser(code)), code, racers)
  {
    var uid, room := uids[0], k.store.rooms[code];
    var k1 := Waiting(k, pid, uid, code, C.ReadingRoom);
    var k2 := Waiting(k, pid, uid, code, C.CountingMembers(room));
    var k3 := Waiting(k, pid, uid, code, C.JoiningUser(code));
    JoinReads(k, pid, code, uid, room);
    JoinCounts(k, pid, code, uid, room);
    PendingWaiting(k, pid, uid, code, C.ReadingRoom);
    PendingWaiting(k, pid, uid, code, C.CountingMembers(room));
    PendingWaiting(k, pid, uid, code, C.JoiningUser(code));
    OneMore(k, C.Start(pid, Join(code, uid, "")), code, racers);
    OneMore(k1, C.Tick(pid), code, racers);
    OneMore(k2, C.Tick(pid), code, racers);
    LeadsOn(k, k1, k2, code, racers);
    LeadsOn(k, k2, k3, code, racers);
  }

  /** The join's next two commands store the user and add the member, whatever the count is by now. */
  lemma JoinStores(k: C.Config, pid: nat, code: Code, uid: UserId)
    requires pid in k.tasks && k.tasks[pid] == C.Task(Join(code, uid, ""), C.JoiningUser(code))
    ensures C.CanHappen(k, C.Tick(pid))
    ensures var k' := C.Happen(k, C.Tick(pid));
      && k'.store.rooms == k.store.rooms && k'.store.members == k.store.members
      && k'.tasks == k.tasks[pid := C.Task(Join(code, uid, ""), C.AddingMember(code))]
      && |P.PendingJoins(k', code)| == |P.PendingJoins(k, code)|
  {
    assert C.Advance(k.store, k.tasks[pid]) == C.AddingMember(code);
    assert P.PendingJoins(C.Happen(k, C.Tick(pid)), code) == P.PendingJoins(k, code);
  }

  lemma JoinAdds(k: C.Config, pid: nat, code: Code, uid: UserId)
    requires pid in k.tasks && k.tasks[pid] == C.Task(Join(code, uid, ""), C.AddingMember(code))
    ensures C.CanHappen(k, C.Tick(pid))
    ensures var k' := C.Happen(k, C.Tick(pid));
      && k'.store.rooms == k.store.rooms && MembersOf(k'.store, code) == MembersOf(k.store, code) + {uid}
      && k'.tasks == k.tasks - {pid}
      && |P.PendingJoins(k', code)| <= |P.PendingJoins(k, code)|
  {
    assert C.Advance(k.store, k.tasks[pid]) == C.SessionFor(code, uid);
    P.SubsetSize(P.PendingJoins(C.Happen(k, C.Tick(pid)), code), P.PendingJoins(k, code));
  }

  lemma Stores(k: C.Config, pid: nat, code: Code, uid: UserId, racers: nat) returns (k': C.Config)
    requires pid in k.tasks && k.tasks[pid] == C.Task(Join(code, uid, ""), C.JoiningUser(code))
    requires code in k.store.rooms && |P.PendingJoins(k, code)| <= racers
    ensures Leads(k, k', code, racers) && |P.PendingJoins(k', code)| <= racers
    ensures k'.store.rooms == k.store.rooms && k'.store.members == k.store.members
    ensures k'.tasks == k.tasks[pid := C.Task(Join(code, uid, ""), C.AddingMember(code))]
  {
    JoinStores(k, pid, code, uid);
    OneMore(k, C.Tick(pid), code, racers);
    k' := C.Happen(k, C.Tick(pid));
  }

  lemma Adds(k: C.Config, pid: nat, code: Code, uid: UserId, racers: nat) returns (k': C.Config)
    requires pid in k.tasks && k.tasks[pid] == C.Task(Join(code, uid, ""), C.JoiningUser(code))
    requires code in k.store.rooms && |P.PendingJoins(k, code)| <= racers
    ensures Leads(k, k', code, racers)
    ensures k'.store.rooms == k.store.rooms && k'.tasks == k.tasks - {pid}
    ensures MembersOf(k'.store, code) == MembersOf(k.store, code) + {uid}
  {
    var k1 := Stores(k, pid, code, uid, racers);
    JoinAdds(k1, pid, code, uid);
    OneMore(k1, C.Tick(pid), code, racers);
    k' := C.Happen(k1, C.Tick(pid));
    LeadsOn(k, k1, k', code, racers);
  }

  lemma TakenBack(k: C.Config, pid: nat, t: C.Task)
    requires forall p :: p in k.tasks ==> p < pid
    ensures k.tasks[pid := t] - {pid} == k.tasks
  {}

  lemma Enters(k: C.Config, pid: nat, code: Code, uids: seq<UserId>, racers: nat) returns (k': C.Config)
    requires Open(k, pid, code, uids) && uids != [] && |P.PendingJoins(k, code)| + 1 <= racers
    ensures Leads(k, k', code, racers)
    ensures Open(k', pid + 1, code, uids[1..]) && k'.store == k.store && k'.tasks - {pid} == k.tasks
    ensures pid in k'.tasks && k'.tasks[pid] == C.Task(Join(code, uids[0], ""), C.JoiningUser(code))
    ensures |P.PendingJoins(k', code)| == |P.PendingJoins(k, code)| + 1
  {
    k' := Waiting(k, pid, uids[0], code, C.JoiningUser(code));
    PendingWaiting(k, pid, uids[0], code, C.JoiningUser(code));
    TakenBack(k, pid, C.Task(Join(code, uids[0], ""), C.JoiningUser(code)));
    Arrives(k, pid, code, uids, racers);
  }

  /** Each racer counts the members before, and adds its own after, all the racers that follow. */
  lemma {:induction false} RaceRuns(k: C.Config, pid: nat, code: Code, uids: seq<UserId>, racers: nat)
    returns (k': C.Config)
    requires Open(k, pid, code, uids) && |P.PendingJoins(k, code)| + |uids| <= racers
    ensures Leads(k, k', code, racers) && AllJoined(k, k', code, uids)
    decreases |uids|
  {
    if uids == [] {
      StaysHere(k, code, racers);
      k' := k;
    } else {
      var k1 := Enters(k, pid, code, uids, racers);
      var k2 := RaceRuns(k1, pid + 1, code, uids[1..], racers);
      k' := GoesLast(k, k1, k2, pid, code, uids, racers);
    }
  }

  /** The race is over and everybody in it is a member. */
  ghost predicate AllJoined(k: C.Config, k': C.Config, code: Code, uids: seq<UserId>) {
    && k'.store.rooms == k.store.rooms && k'.tasks == k.tasks
    && MembersOf(k'.store, code) == MembersOf(k.store, code) + set u | u in uids
  }

  lemma GoesLast(k: C.Config, k1: C.Config, k2: C.Config, pid: nat, code: Code, uids: seq<UserId>, racers: nat)
    returns (k': C.Config)
    requires Leads(k, k1, code, racers) && Leads(k1, k2, code, racers) && uids != []
    requires k1.store == k.store && k1.tasks - {pid} == k.tasks && AllJoined(k1, k2, code, uids[1..])
    requires pid in k1.tasks && k1.tasks[pid] == C.Task(Join(code, uids[0], ""), C.JoiningUser(code))
    requires code in k.store.rooms && |P.PendingJoins(k1, code)| <= racers
    ensures Leads(k, k', code, racers) && AllJoined(k, k', code, uids)
  {
    k' := Adds(k2, pid, code, uids[0], racers);
    LeadsOn(k, k1, k2, code, racers);
    LeadsOn(k, k2, k', code, racers);
  }

  lemma {:induction false} SizeOf(uids: seq<UserId>)
    requires forall i, j :: 0 <= i < j < |uids| ==> uids[i] != uids[j]
    ensures |set u | u in uids| == |uids|
  {
    ListingLength(uids, set u | u in uids);
  }

  /** The bound on racing joins is exact: in an open room with one place left, any number of joins
      with new ids can race so as to overfill it by all but one of them. */
  lemma RacingJoinsReachTheBound(before: seq<C.Event>, pid: nat, code: Code, uids: seq<UserId>)
    returns (race: seq<C.Event>)
    requires C.CanRun(C.IDLE, before)
    requires var k := C.RunAll(C.IDLE, before);
      && code in k.store.rooms && k.store.rooms[code].Complete? && !k.store.rooms[code].isLocked
      && |MembersOf(k.store, code)| == k.store.rooms[code].maxUsers - 1
      && (forall p :: p in k.tasks ==> p < pid) && P.PendingJoins(k, code) == {}
      && (forall i :: 0 <= i < |uids| ==> uids[i] !in k.claimed)
      && (forall i, j :: 0 <= i < j < |uids| ==> uids[i] != uids[j])
    ensures var k := C.RunAll(C.IDLE, before);
      && C.CanRun(k, race) && P.Raced(k, race, code, |uids|)
      && |MembersOf(C.RunAll(k, race).store, code)| == k.store.rooms[code].maxUsers - 1 + |uids|
  {
    var k := C.RunAll(C.IDLE, before);
    B.BoundRun(C.IDLE, before);
    assert B.RoomBound(k.store, k.bound, code);
    var k' := RaceRuns(k, pid, code, uids, |uids|);
    race :| Course(k, k', code, |uids|, race);
    SizeOf(uids);
    assert MembersOf(k.store, code) !! set u | u in uids;
  }
}
