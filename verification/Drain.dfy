/** Everybody leaves, whatever else goes on. */
module Drain {
  import opened Types
  import opened StoreModel
  import opened Machine
  import opened Invariant
  import E = Effects
  import Do = Operations

  /** The keys of a room whose present members are exactly `present`. */
  ghost predicate Holds(s: Store, code: Code, present: seq<UserId>) {
    && Lists(present, MembersOf(s, code))
    && (present != [] <==> code in s.rooms)
    && (present != [] <==> code in s.members)
    && (code in s.rooms ==> s.rooms[code].Complete? && s.rooms[code].hostId in present)
    && (forall u :: u in s.users && s.users[u].roomCode == code <==> u in present)
  }

  lemma HoldsWhenSound(s: Store, bound: map<UserId, Code>, code: Code, present: seq<UserId>)
    requires SoundStore(s, bound) && Staffed(s) && Lists(present, MembersOf(s, code))
    ensures Holds(s, code, present)
  {
    assert RoomSound(s, bound, code) && RoomStaffed(s, code);
    if present != [] { assert present[0] in MembersOf(s, code); }
    forall u ensures u in s.users && s.users[u].roomCode == code <==> u in present {
      assert UserSound(s, bound, u);
    }
  }

  /** After every run with in-room kicks a room is held by its members, whoever they are: one of
      them hosts, and all its keys are gone exactly if there are none. */
  lemma RoomsAreHeld(ops: seq<Op>, code: Code, present: seq<UserId>)
    requires Possible(INIT, ops) && KicksInRoom(INIT, ops)
    requires Lists(present, MembersOf(Run(INIT, ops).store, code))
    ensures Holds(Run(INIT, ops).store, code, present)
  {
    SoundRun(INIT, ops);
    HoldsWhenSound(Run(INIT, ops).store, Run(INIT, ops).bound, code, present);
  }

  // ---------- who comes and who goes ----------

  /** Somebody joins the room, it is created anew, or its host closes it. */
  predicate Disturbs(s: Store, op: Op, code: Code) {
    && Accepted(s, op)
    && match op
       case Create(candidates, _, _, _, _, _) => Do.FirstFree(s, candidates) == Some(code)
       case Join(c, _, _) => c == code
       case Close(_, c) => c == code
       case _ => false
  }

  /** No call of the run does; all others may come in between. */
  predicate Undisturbed(y: System, ops: seq<Op>, code: Code)
    decreases |ops|
  {
    ops != [] ==> !Disturbs(y.store, ops[0], code) && Undisturbed(Next(y, ops[0]), ops[1..], code)
  }

  /** The member whom a call takes out of the room. */
  function GoneBy(s: Store, op: Op, code: Code): seq<UserId> {
    match op
    case Leave(c, user, _) => if c == code && Accepted(s, op) then [user] else []
    case Kick(_, c, target) =>
      if c == code && Accepted(s, op) && target in MembersOf(s, code) then [target] else []
    case _ => []
  }

  /** The members who leave or are kicked in the run, in that order. */
  function Departures(y: System, ops: seq<Op>, code: Code): seq<UserId>
    decreases |ops|
  {
    if ops == [] then []
    else GoneBy(y.store, ops[0], code) + Departures(Next(y, ops[0]), ops[1..], code)
  }

  lemma StepDrains(y: System, op: Op, code: Code)
    requires Sound(y) && Enabled(y, op) && !Disturbs(y.store, op, code)
    ensures MembersOf(After(y.store, op), code) == MembersOf(y.store, code) - set u | u in GoneBy(y.store, op, code)
  {
    assert RoomSound(y.store, y.bound, code);
    if E.RoomOf(y.store, op) != Some(code) {
      E.OtherRoomsUntouched(y.store, y.bound, op, code);
    } else if op.Leave? || op.Kick? {
      assert UserSound(y.store, y.bound, if op.Leave? then op.user else op.target);
    }
  }

  /** `order` lists the members in the order of their departures, as far as those have got. */
  lemma {:induction false} MembersDrain(y: System, ops: seq<Op>, code: Code, order: seq<UserId>)
    requires Sound(y) && Possible(y, ops) && Undisturbed(y, ops, code)
    requires Lists(order, MembersOf(y.store, code)) && Departures(y, ops, code) <= order
    ensures Lists(order[|Departures(y, ops, code)|..], MembersOf(Run(y, ops).store, code))
    decreases |ops|
  {
    if ops == [] {
      assert order[0..] == order;
    } else {
      var z, gone := Next(y, ops[0]), GoneBy(y.store, ops[0], code);
      var rest := Departures(z, ops[1..], code);
      SoundStep(y, ops[0]);
      StepDrains(y, ops[0], code);
      if gone == [] {
        assert gone + rest == rest;
        MembersDrain(z, ops[1..], code, order);
      } else {
        assert gone == [order[0]] && (gone + rest)[1..] == rest;
        ListsTail(order, MembersOf(y.store, code));
        assert MembersOf(z.store, code) == MembersOf(y.store, code) - {order[0]};
        MembersDrain(z, ops[1..], code, order[1..]);
        assert order[1..][|rest|..] == order[|gone + rest|..];
      }
    }
  }

  /** From any reachable state, in any run with in-room kicks in which nobody joins the room: in
      whatever order its members leave or are kicked, and whatever calls come in between, those
      left hold the room, one of them as host; its keys are all gone exactly if the last has
      gone. */
  lemma RoomDrains(before: seq<Op>, ops: seq<Op>, code: Code, order: seq<UserId>)
    requires Possible(INIT, before + ops) && KicksInRoom(INIT, before + ops)
    requires var y := Run(INIT, before);
      && Undisturbed(y, ops, code)
      && Lists(order, MembersOf(y.store, code)) && Departures(y, ops, code) <= order
    ensures var gone := |Departures(Run(INIT, before), ops, code)|;
      && Holds(Run(INIT, before + ops).store, code, order[gone..])
      && (code !in Run(INIT, before + ops).store.rooms <==> gone == |order|)
  {
    RunConcat(INIT, before, ops);
    SoundRun(INIT, before);
    var gone := |Departures(Run(INIT, before), ops, code)|;
    MembersDrain(Run(INIT, before), ops, code, order);
    RoomsAreHeld(before + ops, code, order[gone..]);
  }
}
