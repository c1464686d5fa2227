/** Where the promises end: what other theorems assume does not come about by itself. */
module Sharpness {
  import opened Types
  import opened StoreModel
  import opened Machine
  import L = Lifecycle
  import N = Liveness
  import G = GatewayModel
  import I = Invariant
  import V = Client
  import W = Network
  import S = Sockets
  import X = Replica

  // ---------- a kick across rooms ----------

  function Opening(code: Code, host: UserId): Op {
    Create([code], host, "", 0, 0, 0)
  }

  /** Such a kick is accepted, and then a member is left without a record. */
  lemma StrayKickSpoils(ops: seq<Op>, kick: Op)
    requires Possible(INIT, ops) && KicksInRoom(INIT, ops) && StrayKick(Run(INIT, ops).store, kick)
    ensures Accepted(Run(INIT, ops).store, kick)
    ensures Possible(INIT, ops + [kick]) && !L.Coincident(Run(INIT, ops + [kick]).store)
  {
    var z := Run(INIT, ops);
    I.SoundRun(INIT, ops);
    L.MasterInvariant(ops);
    L.StrayKicksAreTheGap(z, kick);
    RunConcat(INIT, ops, [kick]);
    assert Run(z, [kick]) == Run(Next(z, kick), []);
  }

  lemma StrayKickHappens()
    ensures exists ops :: Possible(INIT, ops) && !L.Coincident(Run(INIT, ops).store)
  {
    StrayKickSpoils([Opening("A", "h"), Opening("B", "g")], Kick("h", "A", "g"));
  }

  // ---------- a second socket ----------

  lemma FirstDrops(w: W.World, socket: SocketId)
    requires S.Linked(w) && W.CanAct(w, W.Drop(socket)) && w.g.sockets[socket].userId in w.g.store.users
    ensures var g, user := W.Step(w, W.Drop(socket)).g, w.g.sockets[socket].userId;
      && g.sockets == w.g.sockets - {socket}
      && user in g.store.users && !g.store.users[user].isConnected
  {
    assert I.UserSound(w.g.store, w.bound, w.g.sockets[socket].userId);
  }

  lemma FirstAfterSecond(w: W.World, socket: SocketId, open: W.Act)
    requires S.Linked(w) && open.Open? && socket in w.g.sockets && open.token == w.g.sockets[socket]
    requires open.socket !in w.g.sockets && open.token.userId in w.g.store.users
    requires Lists(open.listing, MembersOf(w.g.store, open.token.roomCode))
    ensures W.CanAct(w, open) && W.CanAct(W.Step(w, open), W.Drop(socket))
    ensures var g := W.Step(W.Step(w, open), W.Drop(socket)).g;
      && open.socket in g.sockets && g.sockets[open.socket] == open.token
      && open.token.userId in g.store.users && !g.store.users[open.token.userId].isConnected
  {
    assert S.SocketSigned(w, socket);
    S.LinkedStep(w, open);
    assert S.SocketSigned(W.Step(w, open), socket);
    FirstDrops(W.Step(w, open), socket);
  }

  /** A user who opens a second socket and then loses the first is stored as not connected,
      although the second is live. */
  lemma SecondSocketMisleads(acts: seq<W.Act>, socket: SocketId, second: SocketId, listing: seq<UserId>,
                             stale: V.View)
    requires W.CanActAll(W.START, acts)
    requires var w := W.ActAll(W.START, acts);
      && socket in w.g.sockets && second !in w.g.sockets
      && w.g.sockets[socket].userId in w.g.store.users
      && Lists(listing, MembersOf(w.g.store, w.g.sockets[socket].roomCode))
    ensures var w := W.ActAll(W.START, acts);
      var token := w.g.sockets[socket];
      var open := W.Open(token, second, listing, stale);
      && W.CanAct(w, open) && W.CanAct(W.Step(w, open), W.Drop(socket))
      && var g := W.Step(W.Step(w, open), W.Drop(socket)).g;
         && second in g.sockets && g.sockets[second] == token
         && token.userId in g.store.users && !g.store.users[token.userId].isConnected
  {
    var w := W.ActAll(W.START, acts);
    var token := w.g.sockets[socket];
    S.LinkedRun(W.START, acts);
    FirstAfterSecond(w, socket, W.Open(token, second, listing, stale));
  }

  lemma {:induction false} ActsConcat(w: W.World, first: seq<W.Act>, second: seq<W.Act>)
    requires W.CanActAll(w, first) && W.CanActAll(W.ActAll(w, first), second)
    ensures W.CanActAll(w, first + second)
    ensures W.ActAll(w, first + second) == W.ActAll(W.ActAll(w, first), second)
    decreases |first|
  {
    if first == [] {
      assert first + second == second;
    } else {
      assert (first + second)[0] == first[0] && (first + second)[1..] == first[1..] + second;
      ActsConcat(W.Step(w, first[0]), first[1..], second);
    }
  }

  lemma TwoActs(w: W.World, a: W.Act, b: W.Act)
    requires W.CanAct(w, a) && W.CanAct(W.Step(w, a), b)
    ensures W.CanActAll(w, [a, b]) && W.ActAll(w, [a, b]) == W.Step(W.Step(w, a), b)
  {
    var w1 := W.Step(w, a);
    assert [a, b][1..] == [b] && [b][1..] == [];
    assert W.CanActAll(W.Step(w1, b), []) && W.ActAll(W.Step(w1, b), []) == W.Step(w1, b);
    assert W.CanActAll(w1, [b]) && W.ActAll(w1, [b]) == W.Step(w1, b);
  }

  /** A host creates a room and opens a socket. */
  lemma HostOpens(code: Code, host: UserId, socket: SocketId)
    ensures var create := W.Call(Opening(code, host));
      var token := Token(code, host);
      var open := W.Open(token, socket, [host], V.NOTHING);
      && W.CanAct(W.START, create) && W.CanAct(W.Step(W.START, create), open)
      && var w := W.Step(W.Step(W.START, create), open);
         && w.g.sockets == map[socket := token] && host in w.g.store.users
         && MembersOf(w.g.store, code) == {host}
  {
    var w := W.Step(W.START, W.Call(Opening(code, host)));
    assert w.g.store.users == map[host := User(host, "", code, false, None)];
    assert MembersOf(w.g.store, code) == {host};
    assert Token(code, host) in w.tokens;
  }

  /** So one run of four acts is enough: create, open, open again, drop the first. */
  lemma SecondSocketHappens()
    ensures exists acts :: W.CanActAll(W.START, acts) && !N.AllTold(W.ActAll(W.START, acts).g)
  {
    var token := Token("A", "h");
    var create, open := W.Call(Opening("A", "h")), W.Open(token, "s", ["h"], V.NOTHING);
    HostOpens("A", "h", "s");
    TwoActs(W.START, create, open);
    SecondAndDrop([create, open], "s", "t", ["h"]);
  }

  lemma SecondAndDrop(acts: seq<W.Act>, socket: SocketId, second: SocketId, listing: seq<UserId>)
    requires W.CanActAll(W.START, acts)
    requires var w := W.ActAll(W.START, acts);
      && socket in w.g.sockets && second !in w.g.sockets
      && w.g.sockets[socket].userId in w.g.store.users
      && Lists(listing, MembersOf(w.g.store, w.g.sockets[socket].roomCode))
    ensures exists more :: W.CanActAll(W.START, more) && !N.AllTold(W.ActAll(W.START, more).g)
  {
    var w := W.ActAll(W.START, acts);
    var open := W.Open(w.g.sockets[socket], second, listing, V.NOTHING);
    SecondSocketMisleads(acts, socket, second, listing, V.NOTHING);
    TwoActs(w, open, W.Drop(socket));
    ActsConcat(W.START, acts, [open, W.Drop(socket)]);
    var g := W.ActAll(W.START, acts + [open, W.Drop(socket)]).g;
    assert N.HasLive(g.sockets, open.token.userId) && !N.Told(g, open.token.userId);
  }

  // ---------- a room emptied under a socket ----------

  lemma {:induction false} NoKickStrays(w: W.World, acts: seq<W.Act>)
    requires W.CanActAll(w, acts) && forall i :: 0 <= i < |acts| ==> !acts[i].Kick?
    ensures X.KicksAtHome(w, acts)
    decreases |acts|
  {
    if acts == [] {
    } else {
      NoKickStrays(W.Step(w, acts[0]), acts[1..]);
    }
  }

  lemma LeaverOpens(w: W.World, socket: SocketId, open: W.Act)
    requires S.Linked(w) && open.Open? && w.g.sockets == map[socket := open.token] && open.socket != socket
    requires open.listing == [open.token.userId] && open.token.userId in w.g.store.users
    requires MembersOf(w.g.store, open.token.roomCode) == {open.token.userId}
    ensures W.CanAct(w, open)
    ensures var w' := W.Step(w, open); var leave := W.Leave(socket, open.token.userId);
      W.CanAct(w', leave) && X.EmptiesUnder(w', leave)
  {
    assert S.SocketSigned(w, socket);
    S.LinkedStep(w, open);
    var w' := W.Step(w, open);
    assert S.SocketSigned(w', socket);
    assert I.RoomSound(w.g.store, w.bound, open.token.roomCode);
    assert G.InRoom(w'.g.sockets, open.socket, open.token.roomCode);
  }

  lemma LeaverEmpties(w: W.World, socket: SocketId, open: W.Act) returns (more: seq<W.Act>)
    requires S.Linked(w) && open.Open? && w.g.sockets == map[socket := open.token] && open.socket != socket
    requires open.listing == [open.token.userId] && open.token.userId in w.g.store.users
    requires MembersOf(w.g.store, open.token.roomCode) == {open.token.userId}
    ensures W.CanActAll(w, more) && forall i :: 0 <= i < |more| ==> !more[i].Kick?
    ensures !X.AllInStep(W.ActAll(w, more))
  {
    var leave := W.Leave(socket, open.token.userId);
    LeaverOpens(w, socket, open);
    S.LinkedStep(w, open);
    X.EmptiedUnder(W.Step(w, open), leave);
    TwoActs(w, open, leave);
    more := [open, leave];
  }

  lemma OutOfStep(w: W.World, acts: seq<W.Act>, more: seq<W.Act>)
    requires W.CanActAll(w, acts) && forall i :: 0 <= i < |acts| ==> !acts[i].Kick?
    requires W.CanActAll(W.ActAll(w, acts), more) && forall i :: 0 <= i < |more| ==> !more[i].Kick?
    requires !X.AllInStep(W.ActAll(W.ActAll(w, acts), more))
    ensures exists all :: W.CanActAll(w, all) && X.KicksAtHome(w, all) && !X.AllInStep(W.ActAll(w, all))
  {
    ActsConcat(w, acts, more);
    NoKickStrays(w, acts + more);
  }

  lemma AloneLeaves(w: W.World, acts: seq<W.Act>, socket: SocketId, open: W.Act)
    requires W.CanActAll(w, acts) && open.Open? && forall i :: 0 <= i < |acts| ==> !acts[i].Kick?
    requires S.Linked(W.ActAll(w, acts)) && W.ActAll(w, acts).g.sockets == map[socket := open.token]
    requires open.socket != socket && open.listing == [open.token.userId]
    requires open.token.userId in W.ActAll(w, acts).g.store.users
    requires MembersOf(W.ActAll(w, acts).g.store, open.token.roomCode) == {open.token.userId}
    ensures exists all :: W.CanActAll(w, all) && X.KicksAtHome(w, all) && !X.AllInStep(W.ActAll(w, all))
  {
    var more := LeaverEmpties(W.ActAll(w, acts), socket, open);
    OutOfStep(w, acts, more);
  }

  /** A host alone in a room who leaves through one of two sockets keeps the other one live, showing
      a room that is gone. */
  lemma EmptiedRoomHappens()
    ensures exists acts :: W.CanActAll(W.START, acts) && X.KicksAtHome(W.START, acts)
                           && !X.AllInStep(W.ActAll(W.START, acts))
  {
    var token := Token("A", "h");
    var create, first := W.Call(Opening("A", "h")), W.Open(token, "s", ["h"], V.NOTHING);
    HostOpens("A", "h", "s");
    TwoActs(W.START, create, first);
    S.LinkedRun(W.START, [create, first]);
    AloneLeaves(W.START, [create, first], "s", W.Open(token, "t", ["h"], V.NOTHING));
  }
}
