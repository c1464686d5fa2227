/** The two repositories: thin, and each method one change of the store model. */
module Repositories {
  import opened Types
  import opened StoreModel
  import opened Keys
  import opened KeyspaceModel
  import opened RedisStore
  import R = Refinement

  /** `length` is the configured length of every room code. */
  ghost predicate Kept(redis: Redis, length: nat)
    reads redis
  {
    Filed(redis.Contents(), length)
  }

  ghost function Stored(redis: Redis, length: nat): Store
    requires Kept(redis, length)
    reads redis
  {
    StoreOf(redis.Contents(), length)
  }

  class RoomsRepository {
    const redis: Redis
    ghost const length: nat

    constructor (redis: Redis, ghost length: nat)
      ensures this.redis == redis && this.length == length
    {
      this.redis := redis;
      this.length := length;
    }

    method FindByCode(code: Code) returns (r: Result<Option<Room>>)
      requires Kept(redis, length)
      ensures |code| == length ==> r == Success(FindRoom(Stored(redis, length), code))
      ensures |code| != length ==> r in {Success(None), Failure(WrongType)}
      ensures r.Success? && r.value.Some? ==> r.value.value.code == code
    {
      R.RoomRead(redis.Contents(), length, code);
      var json :- redis.GetJson(RoomKey(code));
      r := Success(if json.None? then None else Some(json.value.room));
    }

    method Save(room: Room)
      requires Kept(redis, length) && |room.code| == length
      modifies redis
      ensures Kept(redis, length) && Stored(redis, length) == PutRoom(old(Stored(redis, length)), room)
    {
      R.RoomSaved(redis.Contents(), length, room);
      redis.SetJson(RoomKey(room.code), RoomJson(room));
    }

    method Delete(code: Code)
      requires Kept(redis, length) && |code| == length
      modifies redis
      ensures Kept(redis, length) && Stored(redis, length) == DropRoom(old(Stored(redis, length)), code)
    {
      R.RoomDeleted(redis.Contents(), length, code);
      redis.Remove([MembersKey(code), RoomKey(code)]);
      assert (set key | key in [MembersKey(code), RoomKey(code)]) == {MembersKey(code), RoomKey(code)};
    }

    method AddMember(code: Code, user: UserId)
      requires Kept(redis, length) && |code| == length
      modifies redis
      ensures Kept(redis, length)
      ensures Stored(redis, length) == StoreModel.AddMember(old(Stored(redis, length)), code, user)
    {
      R.MemberAdded(redis.Contents(), length, code, user);
      var _ := redis.Sadd(MembersKey(code), user);
    }

    method RemoveMember(code: Code, user: UserId)
      requires Kept(redis, length) && |code| == length
      modifies redis
      ensures Kept(redis, length)
      ensures Stored(redis, length) == StoreModel.RemoveMember(old(Stored(redis, length)), code, user)
    {
      R.MemberRemoved(redis.Contents(), length, code, user);
      var _ := redis.Srem(MembersKey(code), user);
    }

    method GetMembers(code: Code) returns (r: Result<seq<UserId>>)
      requires Kept(redis, length)
      ensures |code| == length ==> r.Success? && Lists(r.value, MembersOf(Stored(redis, length), code))
      ensures |code| != length ==> r in {Success([]), Failure(WrongType)}
    {
      R.MembersRead(redis.Contents(), length, code);
      r := redis.Smembers(MembersKey(code));
      if |code| != length && r.Success? { ListingLength(r.value, {}); }
    }

    method IsMember(code: Code, user: UserId) returns (r: Result<bool>)
      requires Kept(redis, length)
      ensures |code| == length ==> r == Success(user in MembersOf(Stored(redis, length), code))
      ensures |code| != length ==> r in {Success(false), Failure(WrongType)}
    {
      R.MembersRead(redis.Contents(), length, code);
      r := redis.Sismember(MembersKey(code), user);
    }

    method ReserveRoomCode(code: Code) returns (reserved: bool)
      requires Kept(redis, length) && |code| == length
      modifies redis
      ensures Kept(redis, length) && Stored(redis, length) == Reserve(old(Stored(redis, length)), code)
      ensures reserved == (code !in old(Stored(redis, length)).rooms)
    {
      R.RoomSaved(redis.Contents(), length, Placeholder(code));
      R.RoomRead(redis.Contents(), length, code);
      reserved := redis.SetIfNotExists(RoomKey(code), RoomJson(Placeholder(code)));
    }
  }

  class UsersRepository {
    const redis: Redis
    ghost const length: nat

    constructor (redis: Redis, ghost length: nat)
      ensures this.redis == redis && this.length == length
    {
      this.redis := redis;
      this.length := length;
    }

    method FindById(id: UserId) returns (r: Option<User>)
      requires Kept(redis, length)
      ensures r == FindUser(Stored(redis, length), id)
    {
      R.UserRead(redis.Contents(), length, id);
      var json := redis.GetJson(UserKey(id));
      r := if json.value.None? then None else Some(json.value.value.user);
    }

    /** One answer for each id, in the order asked. */
    method FindByIds(ids: seq<UserId>) returns (r: seq<Option<User>>)
      requires Kept(redis, length)
      ensures |r| == |ids| && forall i :: 0 <= i < |ids| ==> r[i] == FindUser(Stored(redis, length), ids[i])
    {
      if ids == [] { return []; }
      var keys := seq(|ids|, i requires 0 <= i < |ids| => UserKey(ids[i]));
      var values := redis.MgetJson(keys);
      forall i | 0 <= i < |ids|
        ensures values[i].Some? ==> values[i].value.UserJson?
        ensures FindUser(Stored(redis, length), ids[i]) == if values[i].None? then None else Some(values[i].value.user)
      {
        assert keys[i] == UserKey(ids[i]);
        R.UserRead(redis.Contents(), length, ids[i]);
      }
      r := seq(|values|, i requires 0 <= i < |values| && (values[i].Some? ==> values[i].value.UserJson?) =>
        if values[i].None? then None else Some(values[i].value.user));
    }

    method Save(user: User)
      requires Kept(redis, length)
      modifies redis
      ensures Kept(redis, length) && Stored(redis, length) == PutUser(old(Stored(redis, length)), user)
    {
      R.UserSaved(redis.Contents(), length, user);
      redis.SetJson(UserKey(user.id), UserJson(user));
    }

    method Delete(ids: seq<UserId>)
      requires Kept(redis, length)
      modifies redis
      ensures Kept(redis, length) && Stored(redis, length) == DropUsers(old(Stored(redis, length)), set id | id in ids)
    {
      if ids == [] {
        R.NobodyDropped(Stored(redis, length), ids);
        return;
      }
      var keys := seq(|ids|, i requires 0 <= i < |ids| => UserKey(ids[i]));
      R.UsersRemoved(redis.Contents(), length, ids, keys);
      redis.Remove(keys);
    }
  }
}
