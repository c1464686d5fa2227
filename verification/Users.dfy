/** The users service, over its repository. */
module Users {
  import opened Types
  import opened StoreModel
  import opened RedisStore
  import opened Repositories
  import Do = Operations

  /** `s'` holds `user` under its id and is otherwise `s`. */
  ghost predicate SavedOnly(s: Store, s': Store, user: User) {
    && s'.rooms == s.rooms && s'.members == s.members
    && (forall u :: FindUser(s', u) == if u == user.id then Some(user) else FindUser(s, u))
  }

  class UsersService {
    const repository: UsersRepository

    constructor (repository: UsersRepository)
      ensures this.repository == repository
    {
      this.repository := repository;
    }

    ghost predicate Valid()
      reads repository.redis
    {
      Kept(repository.redis, repository.length)
    }

    ghost function Store(): Store
      requires Valid()
      reads repository.redis
    {
      Stored(repository.redis, repository.length)
    }

    /** `id` is a fresh one. */
    method Create(id: UserId, roomCode: Code, displayName: string) returns (user: User)
      requires Valid()
      modifies repository.redis
      ensures Valid() && user == Do.NewUser(id, displayName, roomCode)
      ensures Store() == PutUser(old(Store()), user)
    {
      user := User(id, displayName, roomCode, false, None);
      repository.Save(user);
    }

    method GetById(id: UserId) returns (r: Result<User>)
      requires Valid()
      ensures r == match FindUser(Store(), id) case Some(user) => Success(user) case None => Failure(UserNotFound)
    {
      var user := repository.FindById(id);
      r := if user.Some? then Success(user.value) else Failure(UserNotFound);
    }

    /** The records that exist, in the order asked. */
    method FindByIds(ids: seq<UserId>) returns (users: seq<User>)
      requires Valid()
      ensures users == Do.Details(Store(), ids)
    {
      var found := repository.FindByIds(ids);
      users := NonNull(Store(), ids, found);
    }

    static method NonNull(ghost s: Store, ghost ids: seq<UserId>, found: seq<Option<User>>)
      returns (users: seq<User>)
      requires |found| == |ids| && forall i :: 0 <= i < |ids| ==> found[i] == FindUser(s, ids[i])
      ensures users == Do.Details(s, ids)
    {
      users := [];
      for i := 0 to |found|
        invariant users + Do.Details(s, ids[i..]) == Do.Details(s, ids)
      {
        assert ids[i..][0] == ids[i] && ids[i..][1..] == ids[i + 1..];
        if found[i].Some? { users := users + [found[i].value]; }
      }
      assert ids[|ids|..] == [];
    }

    method UpdateConnection(id: UserId, socket: SocketId) returns (r: Result<User>)
      requires Valid()
      modifies repository.redis
      ensures Valid() && (Store(), r) == Do.UpdateConnection(old(Store()), id, socket)
      ensures match FindUser(old(Store()), id)
        case None => r == Failure(UserNotFound) && Store() == old(Store())
        case Some(User(was, name, code, _, _)) =>
          r == Success(User(was, name, code, true, Some(socket))) && SavedOnly(old(Store()), Store(), r.value)
    {
      var user :- GetById(id);
      var updated := user.(isConnected := true, socketId := Some(socket));
      repository.Save(updated);
      r := Success(updated);
    }

    method UpdateDisconnection(id: UserId) returns (r: Result<User>)
      requires Valid()
      modifies repository.redis
      ensures Valid() && (Store(), r) == Do.UpdateDisconnection(old(Store()), id)
      ensures match FindUser(old(Store()), id)
        case None => r == Failure(UserNotFound) && Store() == old(Store())
        case Some(User(was, name, code, _, _)) =>
          r == Success(User(was, name, code, false, None)) && SavedOnly(old(Store()), Store(), r.value)
    {
      var user :- GetById(id);
      var updated := user.(isConnected := false, socketId := None);
      repository.Save(updated);
      r := Success(updated);
    }

    method Delete(id: UserId)
      requires Valid()
      modifies repository.redis
      ensures Valid() && Store() == DropUsers(old(Store()), {id})
    {
      assert (set u | u in [id]) == {id};
      repository.Delete([id]);
    }

    method DeleteMany(ids: seq<UserId>)
      requires Valid()
      modifies repository.redis
      ensures Valid() && Store() == DropUsers(old(Store()), set id | id in ids)
    {
      repository.Delete(ids);
    }
  }
}
