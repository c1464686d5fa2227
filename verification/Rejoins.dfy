/** Rejoins write nothing, so `Reduction` lets them run beside anything.  Where they, too, have their
    room to themselves, their replies are those of the atomic machine as well. */
module Rejoins {
  import opened Types
  import opened StoreModel
  import opened Machine
  import opened Commands
  import opened Binding
  import opened Reduction
  import I = Invariant

  /** The room a call in flight is on, counting a rejoin as on its token's. */
  predicate At(k: Config, pid: nat, code: Code) {
    On(k, pid, code) || (pid in k.tasks && k.tasks[pid].op.Rejoin? && k.tasks[pid].op.token.roomCode == code)
  }

  ghost predicate OneCallARoom(k: Config) {
    forall p, q, c :: At(k, p, c) && At(k, q, c) ==> p == q
  }

  ghost predicate FullySerial(k: Config, events: seq<Event>)
    requires CanRun(k, events)
    decreases |events|
  {
    && OneCallARoom(k) && KicksReadHome(k)
    && (events != [] ==> FullySerial(Happen(k, events[0]), events[1..]))
  }

  /** What a rejoin has read so far still holds. */
  predicate Confirmed(s: Store, t: Task) {
    t.op.Rejoin? ==>
      && (!t.stage.GuardingRoom? ==> t.op.token.roomCode in s.rooms)
      && (t.stage.RejoiningMembers? || t.stage.RejoiningUser? ==>
            t.op.token.userId in MembersOf(s, t.op.token.roomCode))
  }

  ghost predicate AllConfirmed(k: Config) {
    forall p :: p in k.tasks ==> Confirmed(k.store, k.tasks[p])
  }

  lemma OneARoomOnly(k: Config)
    requires OneCallARoom(k)
    ensures OneARoom(k)
  {
    forall p, q, c | On(k, p, c) && On(k, q, c) ensures p == q { assert At(k, p, c) && At(k, q, c); }
  }

  // ---------- one command ----------

  /** A command leaves the rooms of other calls at least as they were. */
  lemma OtherRoomKept(k: Config, y: System, pid: nat, code: Code)
    requires Matches(k, y) && CanHappen(k, Tick(pid)) && !On(k, pid, code)
    ensures var s, s' := k.store, Happen(k, Tick(pid)).store;
      (code in s.rooms ==> code in s'.rooms) && MembersOf(s', code) == MembersOf(s, code)
  {
    var t := k.tasks[pid];
    assert TaskBound(k, pid);
    if RoomOf(t).Some? && !t.op.Rejoin? {
      var home := RoomOf(t).value;
      assert On(k, pid, home);
      TickFrame(k, pid, home);
      assert Agree(Happen(k, Tick(pid)).store, k.store, code, Happen(k, Tick(pid)).bound);
    }
  }

  lemma StillConfirmed(k: Config, y: System, e: Event)
    requires Matches(k, y) && AllConfirmed(k) && OneCallARoom(k) && CanHappen(k, e)
    ensures AllConfirmed(Happen(k, e))
  {
    var k' := Happen(k, e);
    forall p | p in k'.tasks ensures Confirmed(k'.store, k'.tasks[p]) {
      if e.Tick? && p in k.tasks && k.tasks[p].op.Rejoin? {
        var t := k.tasks[p];
        assert TaskBound(k, p) && Confirmed(k.store, t) && At(k, p, t.op.token.roomCode);
        if p != e.pid {
          assert !At(k, e.pid, t.op.token.roomCode);
          OtherRoomKept(k, y, e.pid, t.op.token.roomCode);
        }
      }
    }
  }

  /** A rejoin ends with the reply that the guarded rejoin has on a store that agrees. */
  lemma RejoinReply(s: Store, a: Store, t: Task, b: Bindings)
    requires t.op.Rejoin? && Carries(t, b) && Confirmed(s, t) && Advance(s, t).Finished?
    requires Agree(s, a, t.op.token.roomCode, b) && !t.stage.Finished?
    requires t.op.url != t.op.token.roomCode ==> t.op.token.userId !in MembersOf(a, t.op.url)
    ensures Answer(a, t.op) == Advance(s, t).reply
  {
    assert NotElsewhere(b, t.op.token.userId, t.op.token.roomCode);
  }

  lemma RejoinEnds(k: Config, y: System, pid: nat)
    requires Matches(k, y) && AllConfirmed(k) && OneCallARoom(k) && CanHappen(k, Tick(pid))
    requires k.tasks[pid].op.Rejoin? && Advance(k.store, k.tasks[pid]).Finished?
    ensures var op := k.tasks[pid].op;
      && Enabled(y, op) && Next(y, op) == y
      && Answer(y.store, op) == Advance(k.store, k.tasks[pid]).reply
  {
    var t := k.tasks[pid];
    var token, url := t.op.token, t.op.url;
    assert TaskBound(k, pid) && TaskMatches(k, y, pid) && At(k, pid, token.roomCode);
    forall p ensures !On(k, p, token.roomCode) { assert At(k, p, token.roomCode) ==> p == pid; }
    assert Quiet(k, token.roomCode);
    if url != token.roomCode { assert I.RoomSound(y.store, y.bound, url); }
    RejoinReply(k.store, y.store, t, k.bound);
    assert Signed(y.store, t.op).Some? ==> Signed(y.store, t.op).value == token;
    assert y.tokens + {token} == y.tokens;
  }

  // ---------- whole runs ----------

  /** As `Logged`, and the rejoins too. */
  function LoggedToo(k: Config, e: Event): seq<Entry>
    requires CanHappen(k, e)
  {
    if e.Tick? && k.tasks[e.pid].op.Rejoin? && Advance(k.store, k.tasks[e.pid]).Finished?
    then [Entry(k.tasks[e.pid].op, Advance(k.store, k.tasks[e.pid]).reply)]
    else Logged(k, e)
  }

  function FullLog(k: Config, events: seq<Event>): seq<Entry>
    requires CanRun(k, events)
    decreases |events|
  {
    if events == [] then [] else LoggedToo(k, events[0]) + FullLog(Happen(k, events[0]), events[1..])
  }

  /** What one event logs, the atomic machine does. */
  lemma EventFollows(k: Config, y: System, e: Event)
    requires Matches(k, y) && AllConfirmed(k) && OneCallARoom(k) && CanHappen(k, e)
    requires OneARoom(Happen(k, e)) && KicksReadHome(Happen(k, e))
    ensures LoggedToo(k, e) == [] ==> Matches(Happen(k, e), y)
    ensures LoggedToo(k, e) != [] ==>
      && |LoggedToo(k, e)| == 1 && Enabled(y, LoggedToo(k, e)[0].op)
      && !StrayKick(y.store, LoggedToo(k, e)[0].op)
      && Answer(y.store, LoggedToo(k, e)[0].op) == LoggedToo(k, e)[0].reply
      && Matches(Happen(k, e), Next(y, LoggedToo(k, e)[0].op))
  {
    EventMatches(k, y, e);
    if LoggedToo(k, e) != Logged(k, e) { RejoinEnds(k, y, e.pid); }
  }

  lemma {:induction false} FullySerialRunsMatch(k: Config, y: System, events: seq<Event>)
    requires Matches(k, y) && AllConfirmed(k) && CanRun(k, events) && FullySerial(k, events)
    ensures var log := FullLog(k, events);
      && Possible(y, OpsOf(log)) && KicksInRoom(y, OpsOf(log)) && Replies(y, log)
      && Matches(RunAll(k, events), Run(y, OpsOf(log)))
    decreases |events|
  {
    if events == [] {
    } else {
      var k', first := Happen(k, events[0]), LoggedToo(k, events[0]);
      var rest := FullLog(k', events[1..]);
      assert FullySerial(k', events[1..]);
      OneARoomOnly(k');
      StillConfirmed(k, y, events[0]);
      EventFollows(k, y, events[0]);
      if first == [] {
        assert FullLog(k, events) == rest;
        FullySerialRunsMatch(k', y, events[1..]);
      } else {
        assert (first + rest)[0] == first[0] && (first + rest)[1..] == rest;
        assert OpsOf(first + rest) == [first[0].op] + OpsOf(rest);
        FullySerialRunsMatch(k', Next(y, first[0].op), events[1..]);
      }
    }
  }

  /** With at most one call in flight a room, rejoins counted, every call of the run, rejoins
      included, gets the reply that it gets when the calls run one at a time in the order in which
      they ended; and when nothing is in flight the store and the tokens are those as well. */
  lemma EveryReplyIsAtomic(events: seq<Event>)
    requires CanRun(IDLE, events) && FullySerial(IDLE, events)
    ensures var log := FullLog(IDLE, events);
      && Possible(INIT, OpsOf(log)) && KicksInRoom(INIT, OpsOf(log)) && Replies(INIT, log)
      && (RunAll(IDLE, events).tasks == map[] ==>
            && Run(INIT, OpsOf(log)).store == RunAll(IDLE, events).store
            && Run(INIT, OpsOf(log)).tokens == RunAll(IDLE, events).tokens)
  {
    FullySerialRunsMatch(IDLE, INIT, events);
    if RunAll(IDLE, events).tasks == map[] {
      QuiescentMatch(RunAll(IDLE, events), Run(INIT, OpsOf(FullLog(IDLE, events))));
    }
  }
}
