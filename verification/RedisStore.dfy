/** The store commands that the service uses, on a keyspace updated in place. */
module RedisStore {
  import opened Types
  import opened StoreModel
  import K = KeyspaceModel

  class Redis {
    var strings: map<string, K.Json>
    var sets: map<string, set<string>>

    constructor ()
      ensures Contents() == K.Keyspace(map[], map[])
    {
      strings, sets := map[], map[];
    }

    function Contents(): K.Keyspace
      reads this
    {
      K.Keyspace(strings, sets)
    }

    method GetJson(key: string) returns (r: Result<Option<K.Json>>)
      ensures r == K.Get(Contents(), key)
    {
      if key in sets { return Failure(WrongType); }
      r := Success(if key in strings then Some(strings[key]) else None);
    }

    method SetJson(key: string, value: K.Json)
      modifies this
      ensures Contents() == K.Set(old(Contents()), key, value)
    {
      sets := sets - {key};
      strings := strings[key := value];
    }

    method SetIfNotExists(key: string, value: K.Json) returns (written: bool)
      modifies this
      ensures written == !K.Present(old(Contents()), key)
      ensures Contents() == if written then K.Set(old(Contents()), key, value) else old(Contents())
    {
      written := key !in strings && key !in sets;
      if written { SetJson(key, value); }
    }

    method Remove(keys: seq<string>)
      modifies this
      ensures Contents() == K.Del(old(Contents()), set key | key in keys)
    {
      if keys == [] {
        assert strings - {} == strings && sets - {} == sets;
        return;
      }
      var gone := set key | key in keys;
      strings, sets := strings - gone, sets - gone;
    }

    method Sadd(key: string, value: string) returns (r: Result<()>)
      modifies this
      ensures r == if key in old(strings) then Failure(WrongType) else Success(())
      ensures Contents() == if r.Success? then K.Sadd(old(Contents()), key, value) else old(Contents())
    {
      if key in strings { return Failure(WrongType); }
      sets := sets[key := K.SetAt(Contents(), key) + {value}];
      r := Success(());
    }

    method Srem(key: string, value: string) returns (r: Result<()>)
      modifies this
      ensures r == if key in old(strings) then Failure(WrongType) else Success(())
      ensures Contents() == if r.Success? then K.Srem(old(Contents()), key, value) else old(Contents())
    {
      if key in strings { return Failure(WrongType); }
      var rest := K.SetAt(Contents(), key) - {value};
      if rest == {} { sets := sets - {key}; } else { sets := sets[key := rest]; }
      r := Success(());
    }

    /** Every member once, in whatever order. */
    method Smembers(key: string) returns (r: Result<seq<string>>)
      ensures key in strings ==> r == Failure(WrongType)
      ensures key !in strings ==> r.Success? && Lists(r.value, K.SetAt(Contents(), key))
    {
      if key in strings { return Failure(WrongType); }
      var members := K.SetAt(Contents(), key);
      var rest, listing := members, [];
      while rest != {}
        invariant rest <= members && Lists(listing, members - rest)
        decreases rest
      {
        var next :| next in rest;
        listing := listing + [next];
        rest := rest - {next};
      }
      r := Success(listing);
    }

    method Sismember(key: string, value: string) returns (r: Result<bool>)
      ensures r == if key in strings then Failure(WrongType)
                   else Success(value in K.SetAt(Contents(), key))
    {
      if key in strings { return Failure(WrongType); }
      r := Success(key in sets && value in sets[key]);
    }

    /** Null for a key that is absent or that holds no string. */
    method MgetJson(keys: seq<string>) returns (values: seq<Option<K.Json>>)
      ensures |values| == |keys|
      ensures forall i :: 0 <= i < |keys| ==>
        values[i] == if keys[i] in strings then Some(strings[keys[i]]) else None
    {
      values := [];
      while |values| < |keys|
        invariant |values| <= |keys|
        invariant forall i :: 0 <= i < |values| ==>
          values[i] == if keys[i] in strings then Some(strings[keys[i]]) else None
      {
        var key := keys[|values|];
        values := values + [if key in strings then Some(strings[key]) else None];
      }
    }
  }
}
