/** The rooms service and the guard in front of rejoin, over the flat keyspace: each method is
    proved to compute the operation that the machines step by. */
module Rooms {
  import opened Types
  import opened StoreModel
  import opened RedisStore
  import opened Repositories
  import opened RoomCodes
  import opened Users
  import opened Invariant
  import opened Ledger
  import M = Machine
  import Do = Operations

  /** A new room's own save replaces its placeholder. */
  lemma PlaceholderOverwritten(s: Store, code: Code, id: UserId, name: string, max: nat, t0: Instant, t1: Instant)
    requires code !in s.rooms
    ensures Do.CreateAt(Reserve(s, code), code, id, name, max, t0, t1) == Do.CreateAt(s, code, id, name, max, t0, t1)
  {
    var room := Complete(code, id, false, max, Created, t0, t1);
    assert s.rooms[code := Placeholder(code)][code := room] == s.rooms[code := room];
  }

  /** Creating at what the scan finds is creating at the first free candidate. */
  lemma CreationScanned(s: Store, src: Source, start: nat, id: UserId, name: string, max: nat, t0: Instant,
                        t1: Instant)
    ensures var (found, stop) := Scan(s, src, Tries(start, 0, 0));
      && start <= stop
      && Do.Create(s, CleanDraws(src, start, stop), id, name, max, t0, t1)
         == match found
            case None => (s, Failure(RoomCodeGenerationFailed))
            case Some(i) =>
              var code := src.draw(i);
              (Do.CreateAt(Reserve(s, code), code, id, name, max, t0, t1), Success(Token(code, id)))
  {
    var (found, stop) := Scan(s, src, Tries(start, 0, 0));
    ScanIsFirstFree(s, src, start);
    FirstFreeIsFree(s, CleanDraws(src, start, stop));
    if found.Some? { PlaceholderOverwritten(s, src.draw(found.value), id, name, max, t0, t1); }
  }

  class RoomsService {
    const repository: RoomsRepository
    const users: UsersService
    const generator: Generator

    constructor (repository: RoomsRepository, users: UsersService, generator: Generator)
      requires users.repository.redis == repository.redis && users.repository.length == repository.length
      requires Kept(repository.redis, repository.length) && repository.length != 0
      requires generator.source.OfLength(repository.length)
      ensures this.repository == repository && this.users == users && this.generator == generator && Valid()
    {
      this.repository := repository;
      this.users := users;
      this.generator := generator;
    }

    /** One keyspace under both repositories, holding codes of the length that the generator
        produces; an empty code would be taken for none. */
    ghost predicate Valid()
      reads repository.redis
    {
      && users.repository.redis == repository.redis && users.repository.length == repository.length
      && Kept(repository.redis, repository.length) && repository.length != 0
      && generator.source.OfLength(repository.length)
    }

    ghost function Store(): Store
      requires Valid()
      reads repository.redis
    {
      Stored(repository.redis, repository.length)
    }

    ghost predicate Proper(code: Code) {
      |code| == repository.length
    }

    method GetByCode(code: Code) returns (r: Result<Room>)
      requires Valid()
      ensures Proper(code) ==>
        r == match FindRoom(Store(), code) case Some(room) => Success(room) case None => Failure(RoomNotFound)
      ensures !Proper(code) ==> r.Failure?
      ensures r.Success? ==> r.value.code == code
    {
      var room :- repository.FindByCode(code);
      r := if room.Some? then Success(room.value) else Failure(RoomNotFound);
    }

    /** One turn of the reservation loop, after `taken` codes that were taken. */
    method TryReserve(ghost taken: nat) returns (r: Result<Option<Code>>)
      requires Valid() && taken < RESERVATION_ATTEMPTS
      modifies repository.redis, generator
      ensures Valid()
      ensures r.Success? && r.value.Some? ==>
        Proper(r.value.value) && Store() == Reserve(old(Store()), r.value.value)
      ensures r.Failure? || r.value.None? ==> Store() == old(Store())
      ensures var scan := Scan(old(Store()), generator.source, Tries(old(generator.next), 0, taken));
        match r
        case Success(Some(code)) =>
          generator.next != 0 && scan == (Some(generator.next - 1), generator.next)
          && code == generator.source.draw(generator.next - 1)
        case Success(None) => scan == Scan(old(Store()), generator.source, Tries(generator.next, 0, taken + 1))
        case Failure(e) => scan == (None, generator.next) && e == RoomCodeGenerationFailed
    {
      ghost var start := generator.next;
      var generated := generator.GenerateRoomCode();
      GenerationScanned(Store(), generator.source, start, generator.next, taken, generated);
      var candidate :- generated;
      var reserved := repository.ReserveRoomCode(candidate);
      r := Success(if reserved then Some(candidate) else None);
    }

    /** A code reserved for the caller, found in one scan of the generator's stream. */
    method ReserveRoomCode() returns (r: Result<Code>)
      requires Valid()
      modifies repository.redis, generator
      ensures Valid() && (r.Success? ==> Proper(r.value))
      ensures var (found, stop) := Scan(old(Store()), generator.source, Tries(old(generator.next), 0, 0));
        && generator.next == stop
        && match found
           case Some(i) =>
             r == Success(generator.source.draw(i)) && Store() == Reserve(old(Store()), r.value)
           case None => r == Failure(RoomCodeGenerationFailed) && Store() == old(Store())
    {
      ghost var s, src := Store(), generator.source;
      ghost var scan := Scan(s, src, Tries(generator.next, 0, 0));
      for i := 0 to RESERVATION_ATTEMPTS
        invariant Valid() && Store() == s && Scan(s, src, Tries(generator.next, 0, i)) == scan
      {
        var reserved :- TryReserve(i);
        if reserved.Some? { return Success(reserved.value); }
      }
      r := Failure(RoomCodeGenerationFailed);
    }

    /** Creates at the first free one of the clean codes drawn.  `id` is a fresh one. */
    method Create(displayName: string, maxUsers: nat, id: UserId, createdAt: Instant, updatedAt: Instant)
      returns (r: Result<Token>)
      requires Valid()
      modifies repository.redis, generator
      ensures Valid() && old(generator.next) <= generator.next
      ensures var candidates := CleanDraws(generator.source, old(generator.next), generator.next);
        (Store(), r) == Do.Create(old(Store()), candidates, id, displayName, maxUsers, createdAt, updatedAt)
    {
      CreationScanned(Store(), generator.source, generator.next, id, displayName, maxUsers, createdAt, updatedAt);
      var code :- ReserveRoomCode();
      Furnish(code, displayName, maxUsers, id, createdAt, updatedAt);
      r := Success(Token(code, id));
    }

    /** The writes that follow a reservation. */
    method Furnish(code: Code, displayName: string, maxUsers: nat, id: UserId, createdAt: Instant,
                   updatedAt: Instant)
      requires Valid() && Proper(code)
      modifies repository.redis
      ensures Valid()
      ensures Store() == Do.CreateAt(old(Store()), code, id, displayName, maxUsers, createdAt, updatedAt)
    {
      var user := users.Create(id, code, displayName);
      var room := Complete(code, user.id, false, maxUsers, Created, createdAt, updatedAt);
      repository.Save(room);
      repository.AddMember(room.code, user.id);
    }

    method Join(code: Code, displayName: string, id: UserId) returns (r: Result<Token>)
      requires Valid()
      modifies repository.redis
      ensures Valid()
      ensures Proper(code) ==> (Store(), r) == Do.Join(old(Store()), code, id, displayName)
      ensures Proper(code) ==> r.Problem() == Refusal(old(Store()), M.Join(code, id, displayName))
      ensures !Proper(code) ==> r.Failure? && Store() == old(Store())
    {
      RefusedOnTheFirstGround(Store(), M.Join(code, id, displayName));
      var room :- GetByCode(code);
      var members := repository.GetMembers(code);
      ListingLength(members.value, MembersOf(Store(), code));
      if room.Locked() { return Failure(RoomLocked); }
      if room.FullAt(|members.value|) { return Failure(RoomFull); }
      var user := users.Create(id, room.code, displayName);
      repository.AddMember(room.code, user.id);
      r := Success(Token(room.code, user.id));
    }

    method Rejoin(code: Code, user: UserId) returns (r: Result<Token>)
      requires Valid()
      ensures Proper(code) ==> r == Do.Rejoin(Store(), code, user)
      ensures Proper(code) ==>
        r == if user in MembersOf(Store(), code) && user in Store().users then Success(Token(code, user))
             else Failure(UserNotFound)
      ensures !Proper(code) ==> r.Failure?
    {
      var members :- repository.GetMembers(code);
      if user !in members { return Failure(UserNotFound); }
      var _ :- users.GetById(user);
      r := Success(Token(code, user));
    }

    /** `next` is the member that the store lists first, if it comes to that. */
    method Leave(code: Code, user: UserId) returns (r: Result<Option<UserId>>, ghost next: UserId)
      requires Valid()
      modifies repository.redis
      ensures Valid()
      ensures Proper(code) ==> (Store(), r) == Do.Leave(old(Store()), code, user, next)
      ensures Proper(code) ==>
        r.Problem() == if user in MembersOf(old(Store()), code) then None else Some(UserNotFound)
      ensures r == Success(Some(next)) ==> next in MembersOf(old(Store()), code) - {user}
      ensures !Proper(code) ==> r.Failure? && Store() == old(Store())
    {
      next := user;
      var isMember := repository.IsMember(code, user);
      if isMember.Failure? { return Failure(isMember.error), next; }
      if !isMember.value { return Failure(UserNotFound), next; }

      repository.RemoveMember(code, user);
      users.Delete(user);

      var room := repository.FindByCode(code);
      if room.value.None? { return Success(None), next; }
      if room.value.value.HostedBy(user) {
        r, next := HandOver(room.value.value);
        return;
      }
      r := Success(None);
    }

    /** The host has gone: the first remaining member follows, or the room goes too. */
    method HandOver(room: Room) returns (r: Result<Option<UserId>>, ghost next: UserId)
      requires Valid() && Proper(room.code) && room.Complete?
      modifies repository.redis
      ensures Valid()
      ensures if MembersOf(old(Store()), room.code) == {}
              then r == Success(None) && Store() == DropRoom(old(Store()), room.code)
              else r == Success(Some(next)) && next in MembersOf(old(Store()), room.code)
                   && Store() == PutRoom(old(Store()), room.(hostId := next))
    {
      next := room.hostId;
      var remaining := repository.GetMembers(room.code);
      ListingLength(remaining.value, MembersOf(Store(), room.code));
      if |remaining.value| == 0 {
        repository.Delete(room.code);
        return Success(None), next;
      }
      var nextHost := remaining.value[0];
      repository.Save(room.(hostId := nextHost));
      return Success(Some(nextHost)), nextHost;
    }

    method Kick(user: UserId, code: Code, target: UserId) returns (r: Result<Option<SocketId>>)
      requires Valid()
      modifies repository.redis
      ensures Valid()
      ensures Proper(code) ==> (Store(), r) == Do.Kick(old(Store()), user, code, target)
      ensures Proper(code) ==> r.Problem() == Refusal(old(Store()), M.Kick(user, code, target))
      ensures !Proper(code) ==> r.Failure? && Store() == old(Store())
    {
      RefusedOnTheFirstGround(Store(), M.Kick(user, code, target));
      var room :- GetByCode(code);
      if !room.HostedBy(user) { return Failure(NotHost); }
      if room.hostId == target { return Failure(CannotKickSelf); }
      var member :- users.GetById(target);
      users.Delete(target);
      repository.RemoveMember(code, member.id);
      r := Success(member.socketId);
    }

    method Close(user: UserId, code: Code) returns (r: Result<()>)
      requires Valid()
      modifies repository.redis
      ensures Valid()
      ensures Proper(code) ==> (Store(), r) == Do.Close(old(Store()), user, code)
      ensures Proper(code) ==> r.Problem() == Refusal(old(Store()), M.Close(user, code))
      ensures !Proper(code) ==> r.Failure? && Store() == old(Store())
    {
      RefusedOnTheFirstGround(Store(), M.Close(user, code));
      var room :- GetByCode(code);
      if !room.HostedBy(user) { return Failure(NotHost); }
      var members := repository.GetMembers(code);
      assert (set u | u in members.value) == MembersOf(Store(), code);
      users.DeleteMany(members.value);
      repository.Delete(code);
      r := Success(());
    }

    method UpdateHost(user: UserId, code: Code, newHost: UserId) returns (r: Result<Room>)
      requires Valid()
      modifies repository.redis
      ensures Valid()
      ensures Proper(code) ==> (Store(), r) == Do.UpdateHost(old(Store()), user, code, newHost)
      ensures Proper(code) ==> r.Problem() == Refusal(old(Store()), M.UpdateHost(user, code, newHost))
      ensures !Proper(code) ==> r.Failure? && Store() == old(Store())
    {
      RefusedOnTheFirstGround(Store(), M.UpdateHost(user, code, newHost));
      var room :- GetByCode(code);
      if !room.HostedBy(user) { return Failure(NotHost); }
      if room.hostId == newHost { return Failure(AlreadyHost); }
      var isMember := repository.IsMember(code, newHost);
      if !isMember.value { return Failure(UserNotFound); }
      var updated := room.(hostId := newHost);
      repository.Save(updated);
      r := Success(updated);
    }

    method ToggleLock(user: UserId, code: Code) returns (r: Result<Room>)
      requires Valid()
      modifies repository.redis
      ensures Valid()
      ensures Proper(code) ==> (Store(), r) == Do.ToggleLock(old(Store()), user, code)
      ensures Proper(code) ==> r.Problem() == Refusal(old(Store()), M.ToggleLock(user, code))
      ensures !Proper(code) ==> r.Failure? && Store() == old(Store())
    {
      RefusedOnTheFirstGround(Store(), M.ToggleLock(user, code));
      var room :- GetByCode(code);
      if !room.HostedBy(user) { return Failure(NotHost); }
      var updated := room.(isLocked := !room.isLocked);
      repository.Save(updated);
      r := Success(updated);
    }

    method GetRoomMembersWithDetails(code: Code) returns (r: Result<seq<User>>)
      requires Valid()
      ensures Proper(code) ==> r.Success? && exists listing ::
        Lists(listing, MembersOf(Store(), code)) && r.value == Do.Details(Store(), listing)
      ensures !Proper(code) ==> r in {Success([]), Failure(WrongType)}
    {
      var members :- repository.GetMembers(code);
      var details := users.FindByIds(members);
      r := Success(details);
      assert Proper(code) ==> Lists(members, MembersOf(Store(), code)) && r.value == Do.Details(Store(), members);
    }
  }

  class JwtAuthGuard {
    const rooms: RoomsService

    constructor (rooms: RoomsService)
      ensures this.rooms == rooms
    {
      this.rooms := rooms;
    }

    /** `payload` is a verified token. */
    method CanActivate(payload: Token) returns (r: Result<Token>)
      requires rooms.Valid() && rooms.Proper(payload.roomCode)
      ensures r == Do.Guard(rooms.Store(), payload)
      ensures var listed := payload.userId in MembersOf(rooms.Store(), payload.roomCode);
        var exist := payload.roomCode in rooms.Store().rooms;
        && (r == Success(payload) <==> exist && listed)
        && (r == Failure(Unauthorized) <==> exist && !listed)
        && (r == Failure(RoomNotFound) <==> !exist)
    {
      var _ :- rooms.GetByCode(payload.roomCode);
      var isMember := rooms.repository.IsMember(payload.roomCode, payload.userId);
      if !isMember.value { return Failure(Unauthorized); }
      r := Success(payload);
    }

    /** Rejoin, behind the guard, for the code in the URL. */
    method GuardedRejoin(url: Code, payload: Token) returns (r: Result<Token>)
      requires rooms.Valid() && rooms.Proper(payload.roomCode)
      ensures rooms.Proper(url) ==> r == Do.GuardedRejoin(rooms.Store(), url, payload)
      ensures rooms.Proper(url) ==> r.Problem() == Refusal(rooms.Store(), M.Rejoin(url, payload))
      ensures r.Success? ==> r.value == Token(url, payload.userId)
      ensures !rooms.Proper(url) ==> r.Failure?
    {
      RefusedOnTheFirstGround(rooms.Store(), M.Rejoin(url, payload));
      var user :- CanActivate(payload);
      r := rooms.Rejoin(url, user.userId);
    }
  }
}
