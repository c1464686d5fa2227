/** The replica that the demo client keeps of its room. */
module Client {
  import opened Types
  import opened GatewayModel

  datatype View = View(room: Option<Room>, members: seq<User>)

  const NOTHING := View(None, [])

  predicate Knows(members: seq<User>, id: UserId) {
    exists i :: 0 <= i < |members| && members[i].id == id
  }

  function Replace(members: seq<User>, user: User): seq<User> {
    seq(|members|, i requires 0 <= i < |members| =>
      if members[i].id == user.id then user else members[i])
  }

  function Upsert(members: seq<User>, user: User): seq<User> {
    if Knows(members, user.id) then Replace(members, user) else members + [user]
  }

  function Without(members: seq<User>, id: UserId): seq<User> {
    if members == [] then []
    else (if members[0].id == id then [] else [members[0]]) + Without(members[1..], id)
  }

  predicate Shows(view: View) {
    view.room.Some? && view.room.value.Complete?
  }

  /** One event. */
  function Reduce(view: View, e: Event): View {
    match e
    case RoomState(room, users) => View(Some(room), users)
    case RoomClosed => NOTHING
    case HostUpdated(host) =>
      if Shows(view) then view.(room := Some(view.room.value.(hostId := host))) else view
    case LockToggled(locked) =>
      if Shows(view) then view.(room := Some(view.room.value.(isLocked := locked))) else view
    case UserConnected(user) => view.(members := Upsert(view.members, user))
    case UserDisconnected(user) => view.(members := Replace(view.members, user))
    case UserKicked => NOTHING
    case UserLeft(id, _) => view.(members := Without(view.members, id))
  }

  /** The events of a queue, first in first out. */
  function Fold(view: View, queue: seq<Event>): View
    decreases |queue|
  {
    if queue == [] then view else Fold(Reduce(view, queue[0]), queue[1..])
  }

  lemma {:induction false} FoldEmitted(view: View, queue: seq<Event>, e: Event)
    ensures Fold(view, queue + [e]) == Reduce(Fold(view, queue), e)
    decreases |queue|
  {
    if queue == [] {
      assert queue + [e] == [e] && Fold(view, [e]) == Fold(Reduce(view, e), []);
    } else {
      assert (queue + [e])[0] == queue[0] && (queue + [e])[1..] == queue[1..] + [e];
      FoldEmitted(Reduce(view, queue[0]), queue[1..], e);
    }
  }

  lemma {:induction false} WithoutKeepsTheRest(members: seq<User>, id: UserId)
    ensures forall m :: m in Without(members, id) <==> m in members && m.id != id
  {
    if members == [] {
    } else {
      WithoutKeepsTheRest(members[1..], id);
      assert members == [members[0]] + members[1..];
    }
  }

  /** No id appears twice. */
  ghost predicate Distinct(members: seq<User>) {
    forall i, j :: 0 <= i < j < |members| ==> members[i].id != members[j].id
  }

  lemma {:induction false} WithoutDistinct(members: seq<User>, id: UserId)
    requires Distinct(members)
    ensures Distinct(Without(members, id))
  {
    if members == [] {
    } else {
      var rest := Without(members[1..], id);
      WithoutDistinct(members[1..], id);
      WithoutKeepsTheRest(members[1..], id);
      if members[0].id != id {
        forall j | 0 <= j < |rest| ensures rest[j].id != members[0].id {
          assert rest[j] in members[1..];
          var i :| 0 <= i < |members[1..]| && members[1..][i] == rest[j];
          assert members[i + 1] == rest[j];
        }
      }
    }
  }

  // ---------- one event, seen from one user ----------

  /** What a list of members shows under this id. */
  function Entry(members: seq<User>, id: UserId): Option<User> {
    if members == [] then None
    else if members[0].id == id then Some(members[0])
    else Entry(members[1..], id)
  }

  function Ids(members: seq<User>): seq<UserId> {
    seq(|members|, i requires 0 <= i < |members| => members[i].id)
  }

  lemma {:induction false} EntryKnown(members: seq<User>, id: UserId)
    ensures Entry(members, id).Some? <==> Knows(members, id)
  {
    if members == [] {
    } else {
      EntryKnown(members[1..], id);
      if Knows(members, id) && members[0].id != id {
        var i :| 0 <= i < |members| && members[i].id == id;
        assert members[1..][i - 1].id == id;
      } else if Knows(members[1..], id) {
        var i :| 0 <= i < |members[1..]| && members[1..][i].id == id;
        assert members[i + 1].id == id;
      }
    }
  }

  lemma {:induction false} EntryReplaced(members: seq<User>, user: User, id: UserId)
    ensures var was := Entry(members, id);
      Entry(Replace(members, user), id) == if id == user.id && was.Some? then Some(user) else was
  {
    if members == [] {
    } else {
      assert Replace(members, user)[1..] == Replace(members[1..], user);
      EntryReplaced(members[1..], user, id);
    }
  }

  lemma {:induction false} EntryAppended(members: seq<User>, user: User, id: UserId)
    ensures var was := Entry(members, id);
      Entry(members + [user], id) == if was.None? && id == user.id then Some(user) else was
  {
    if members == [] {
      assert [] + [user] == [user] && Entry([user][1..], id) == None;
    } else {
      assert (members + [user])[1..] == members[1..] + [user];
      EntryAppended(members[1..], user, id);
    }
  }

  lemma {:induction false} EntryWithout(members: seq<User>, gone: UserId, id: UserId)
    ensures Entry(Without(members, gone), id) == if id == gone then None else Entry(members, id)
  {
    if members == [] {
    } else {
      EntryWithout(members[1..], gone, id);
      var rest := Without(members[1..], gone);
      assert [] + rest == rest && ([members[0]] + rest)[1..] == rest;
    }
  }

  /** What one event makes of the entry under one id: news of a connection adds or replaces it, news of
      a disconnection only replaces it. */
  function EntryAfter(was: Option<User>, e: Event, id: UserId): Option<User> {
    match e
    case RoomState(_, users) => Entry(users, id)
    case RoomClosed => None
    case UserKicked => None
    case UserConnected(user) => if id == user.id then Some(user) else was
    case UserDisconnected(user) => if id == user.id && was.Some? then Some(user) else was
    case UserLeft(gone, _) => if id == gone then None else was
    case HostUpdated(_) => was
    case LockToggled(_) => was
  }

  lemma EachEntryReduced(view: View, e: Event, id: UserId)
    ensures Entry(Reduce(view, e).members, id) == EntryAfter(Entry(view.members, id), e, id)
  {
    match e
    case UserConnected(user) =>
      EntryKnown(view.members, user.id);
      EntryReplaced(view.members, user, id);
      EntryAppended(view.members, user, id);
    case UserDisconnected(user) => EntryReplaced(view.members, user, id);
    case UserLeft(gone, _) => EntryWithout(view.members, gone, id);
    case _ =>
  }

  /** Nobody changes places, and a new user comes last. */
  lemma PlacesKept(view: View, e: Event)
    requires e.UserConnected? || e.UserDisconnected? || e.HostUpdated? || e.LockToggled?
    ensures Ids(Reduce(view, e).members) ==
      Ids(view.members)
      + if e.UserConnected? && Entry(view.members, e.user.id).None? then [e.user.id] else []
  {
    if e.UserConnected? { EntryKnown(view.members, e.user.id); }
  }

  /** A departure drops exactly that user's entries, wherever they are, and closes the gaps. */
  lemma {:induction false} GapsClose(before: seq<User>, user: User, later: seq<User>, gone: UserId)
    ensures Without(before + [user] + later, gone) ==
      Without(before, gone) + (if user.id == gone then [] else [user]) + Without(later, gone)
    ensures Without([], gone) == []
  {
    if before == [] {
      assert before + [user] + later == [user] + later && ([user] + later)[1..] == later;
    } else {
      var rest := before[1..] + [user] + later;
      var kept := if user.id == gone then [] else [user];
      assert before + [user] + later == [before[0]] + rest;
      assert (before + [user] + later)[1..] == rest;
      GapsClose(before[1..], user, later, gone);
      var head := if before[0].id == gone then [] else [before[0]];
      assert head + (Without(before[1..], gone) + kept + Without(later, gone))
             == (head + Without(before[1..], gone)) + kept + Without(later, gone);
    }
  }
}
