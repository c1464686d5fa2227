# Room lifecycle: a verified model

The service keeps rooms in a shared Redis: `room:{code}` holds a room's record, `room:{code}:users`
the ids of its members, `user:{id}` a user's record.  HTTP calls create, join and rejoin rooms;
socket messages leave, kick, close, hand the room over and toggle its lock; every socket of a room is
sent the changes.  No single function keeps the three families of keys consistent.  This project
models the whole protocol and proves what all its operations together keep.

Five layers, each on top of the one before:

1. **The flat keyspace** (`Keys`, `KeyspaceModel`, `RedisStore`, `Refinement`, `Repositories`).  A
   `Redis` object updated in place, with real string keys, two types of key, and sets that vanish when
   empty.  `StoreOf` is the only abstract store (rooms, members, users) that a keyspace stands for; each
   repository method is proved to change it as the store model says.
2. **The services** (`RoomCodes`, `Users`, `Rooms`).  Imperative methods, branch by branch as in the
   source, each proved to compute a function of `Operations` on the abstract store.
3. **The atomic machine** (`Machine`, `Invariant`, `Ledger`, `Lifecycle`, `Effects`, `Authority`,
   `Drain`, `Isolation`, `Footprint`).  A run is any finite sequence of service calls.  Two ghosts: the
   room each id was created for, and the tokens signed.  `Ledger` is the account of the calls that does
   not mention the operations: on which grounds each is refused, and what an accepted one leaves under
   every key.
4. **The command-level machine** (`Commands`, `Sequential`, `Scripts`, `Binding`, `Failures`,
   `Reservation`, `Capacity`, `Racing`, `LostUpdates`, `Reduction`, `Rejoins`).  Each Redis command is one step and any number of
   calls are in flight.  Some properties survive every interleaving; serialising each room's calls
   brings back layer 3.
5. **The gateway with its clients** (`GatewayModel`, `Events`, `Client`, `Network`, `Sockets`,
   `Broadcasts`, `Liveness`, `Replica`).  Live sockets, a queue of undelivered events for each, what a
   socket that was cut off has yet to receive, and the reducers of the demo client.  Each handler is one
   step, and so is each delivery.  `Broadcasts` says what each act sends to whom without mentioning the
   handlers.

`Sharpness` exhibits runs of the cases in which the protocol does not do what its documentation or its
demo client expect: a kick across rooms, one of several sockets lost, a room emptied under a socket;
`LostUpdates` does so for interleaved calls on one room.

## What the model assumes

- Ids are never repeated, tokens cannot be forged (a token is the payload of one that was signed), and
  SMEMBERS lists a set's members once each, in any order.  A leave's `next` is the member that happens
  to be listed first.
- `kick` loads its target by id and never looks at the target's room (`src/rooms/rooms.service.ts:214-217`),
  although the documentation has an error "User not found in room" (`README.md:298`).  The model follows the
  code.  `StrayKick` is a host's kick of somebody on record for another room.  Theorems that need kicks to
  stay in the caller's room say so.  Of one of them, that member ids and user records coincide,
  `StrayKicksAreTheGap` proves that a step keeps it exactly if it is no stray kick.  The atomic runs exclude
  stray kicks only (`KicksInRoom`, `KicksAtHome`); the command-level reduction excludes, from the moment
  that the host check has passed, kicks whose target was created for another room (`KicksReadHome`).
- No operation is atomic in the source: of interleaved calls, only what is proved over `Commands` is
  claimed.
- `maxUsers` is a natural number, 0 standing for 0 and for undefined alike.
- Room codes have one configured length of at least 1: an empty code would be taken for none.  For a code
  of another length (it can only come from a URL) each operation on a room is proved to fail and to change
  nothing; the member lookup finds nobody or fails.
- Any number of sockets a user: `LivenessIsConnection` and `ReplicasConverge` give the exact conditions.
  Both are met when a user has one live socket at a time, which the demo client sees to by disconnecting
  its old one first (`sockets.html:57-60`): `OneSocketIsEnough` and `OneSocketConverges`.

## Model

| member | source | states |
|---|---|---|
| Keys.FamiliesApart | src/rooms/rooms.repository.ts:10-16 | For codes of one length the three key builders are injective and no key belongs to two families |
| Keys.KeysMeet | src/users/users.repository.ts:10-12 | Without that, two families share a key exactly when one room's code is another's followed by `:users`; user keys never collide with room keys |
| RedisStore.Redis.GetJson | src/redis/redis.service.ts:52-56 | A read gives the value, nothing for an absent key, an error for a key that holds a set |
| RedisStore.Redis.SetJson | src/redis/redis.service.ts:58-61 | A write replaces whatever the key held, whichever its type, and touches no other key |
| RedisStore.Redis.SetIfNotExists | src/redis/redis.service.ts:35-39 | Writes, and says so, exactly if the key holds nothing of either type |
| RedisStore.Redis.Remove | src/redis/redis.service.ts:41-45 | All the keys given are gone, of both types, and no others |
| RedisStore.Redis.Sadd | src/redis/redis.service.ts:63-66 | The value joins the set; a string key is refused and nothing changes |
| RedisStore.Redis.Srem | src/redis/redis.service.ts:68-71 | The value leaves the set, and a set left empty loses its key |
| RedisStore.Redis.Smembers | src/redis/redis.service.ts:73-76 | Lists every member exactly once, in some order |
| RedisStore.Redis.Sismember | src/redis/redis.service.ts:78-81 | Membership, false for an absent key, an error for a string key |
| RedisStore.Redis.MgetJson | src/redis/redis.service.ts:93-102 | One answer for each key in the order asked, null for keys that are absent or hold a set |
| KeyspaceModel.CommandsByKey | src/redis/redis.service.ts:35-91 | Seen from any one key: a write replaces whatever was there, a deletion leaves nothing, adding to a set makes it, removing its last element unmakes it, and a string read of a set is an error; no other key changes |
| Refinement.RoomSaved | src/rooms/rooms.repository.ts:22-24 | Saving a record commutes with the abstraction and keeps the keyspace to the three families |
| Refinement.RoomDeleted | src/rooms/rooms.repository.ts:26-28 | Deleting both keys of a room commutes with the abstraction |
| Refinement.MemberAdded | src/rooms/rooms.repository.ts:30-32 | Adding a member commutes with the abstraction, and the key never holds a string |
| Refinement.MemberRemoved | src/rooms/rooms.repository.ts:34-36 | Removing a member commutes with the abstraction, down to the key of an emptied set |
| Refinement.UserSaved | src/users/users.repository.ts:24-26 | Saving a user commutes with the abstraction |
| Refinement.UsersRemoved | src/users/users.repository.ts:28-32 | The variadic delete removes exactly the listed users' records |
| Repositories.RoomsRepository.FindByCode | src/rooms/rooms.repository.ts:18-20 | Finds the abstract room for a proper code; any other code finds nothing or hits a key of the other type |
| Repositories.RoomsRepository.Save | src/rooms/rooms.repository.ts:22-24 | The new abstract store has this record under its code and is otherwise the old one |
| Repositories.RoomsRepository.Delete | src/rooms/rooms.repository.ts:26-28 | The new abstract store has lost the room and its member set |
| Repositories.RoomsRepository.AddMember | src/rooms/rooms.repository.ts:30-32 | The new abstract store has one more member in this room |
| Repositories.RoomsRepository.RemoveMember | src/rooms/rooms.repository.ts:34-36 | The new abstract store has this member no more |
| Repositories.RoomsRepository.GetMembers | src/rooms/rooms.repository.ts:38-40 | Lists the abstract member set, in some order |
| Repositories.RoomsRepository.IsMember | src/rooms/rooms.repository.ts:42-44 | Membership in the abstract member set |
| Repositories.RoomsRepository.ReserveRoomCode | src/rooms/rooms.repository.ts:50-54 | Succeeds exactly if the code has no room yet, and only then leaves a placeholder |
| Repositories.UsersRepository.FindById | src/users/users.repository.ts:14-16 | The abstract user of that id, if there is one |
| Repositories.UsersRepository.FindByIds | src/users/users.repository.ts:18-22 | For each id, in the order asked, what a single lookup finds |
| Repositories.UsersRepository.Save | src/users/users.repository.ts:24-26 | The new abstract store has this user record and is otherwise the old one |
| Repositories.UsersRepository.Delete | src/users/users.repository.ts:28-32 | The new abstract store has lost the listed users, and no more |
| Users.UsersService.Create | src/users/users.service.ts:20-30 | Stores a disconnected user of that room under the fresh id |
| Users.UsersService.GetById | src/users/users.service.ts:32-36 | The stored record, or "user not found" |
| Users.UsersService.FindByIds | src/users/users.service.ts:42-45 | The records that exist, in the order of the ids |
| Users.UsersService.UpdateConnection | src/users/users.service.ts:47-53 | Connects a stored user to the socket: the two fields of the connection change, the profile and every other record stay; fails and changes nothing for an unknown id |
| Users.UsersService.UpdateDisconnection | src/users/users.service.ts:55-61 | Disconnects a stored user: the two fields of the connection change, the profile and every other record stay; fails and changes nothing for an unknown id |
| Users.UsersService.Delete | src/users/users.service.ts:63-65 | Exactly that user's record is gone |
| Users.UsersService.DeleteMany | src/users/users.service.ts:67-69 | Exactly the listed users' records are gone |
| RoomCodes.Generator.GenerateRoomCode | src/rooms/util/generate-room-code.ts:8-22 | Returns the first clean draw, unless the next fifty draws are all profane |
| RoomCodes.ScanFinds | src/rooms/rooms.service.ts:53-80 | The nested retry loops find draw i exactly if it is the first clean and free draw with neither fifty profane draws in a row nor a hundred clean ones before it; at most 5000 draws |
| RoomCodes.ScanFails | src/rooms/rooms.service.ts:53-80 | They fail exactly if fifty profane draws in a row, or a hundred clean but taken ones, come before any draw is clean and free |
| RoomCodes.ScanIsFirstFree | src/rooms/rooms.service.ts:56-70 | What they find is the first free candidate among the clean draws |
| Rooms.RoomsService.ReserveRoomCode | src/rooms/rooms.service.ts:53-80 | The two loops equal one scan of the stream of draws; the found code is reserved, and on failure the store is unchanged |
| Rooms.RoomsService.Create | src/rooms/rooms.service.ts:82-108 | Store and result are those of creating atomically at the first free clean candidate |
| Rooms.RoomsService.Join | src/rooms/rooms.service.ts:110-134 | Store and result are those of the atomic join: one more user and member, or the error of the first ground that holds: no room, locked, full |
| Rooms.RoomsService.Rejoin | src/rooms/rooms.service.ts:136-148 | Succeeds exactly for a member with a record, and otherwise answers "user not found" |
| Rooms.RoomsService.Leave | src/rooms/rooms.service.ts:150-190 | Store and result are those of the atomic leave: the member and the record go; a host is followed by some remaining member, and the last member takes the room along |
| Rooms.RoomsService.Kick | src/rooms/rooms.service.ts:192-222 | Store and result are those of the atomic kick: host only, never oneself, and then the target's record goes, whatever its room, and its entry in the caller's room |
| Rooms.RoomsService.Close | src/rooms/rooms.service.ts:224-239 | Store and result are those of the atomic close: both room keys and every member's record go |
| Rooms.RoomsService.UpdateHost | src/rooms/rooms.service.ts:249-286 | Store and result are those of the atomic transfer: host only, to another member only, and then nothing but the host differs |
| Rooms.RoomsService.ToggleLock | src/rooms/rooms.service.ts:288-302 | Store and result are those of the atomic toggle: host only, and then nothing but the lock differs |
| Rooms.RoomsService.GetRoomMembersWithDetails | src/rooms/rooms.service.ts:304-307 | The existing records of the room's members, in the order in which the store lists them |
| Rooms.JwtAuthGuard.CanActivate | src/auth/jwt-auth.guard.ts:14-34 | Admits a token exactly if its own room exists and lists its user; "room not found" exactly if there is no room; "unauthorized" exactly if the room is there and does not list the user |
| Rooms.JwtAuthGuard.GuardedRejoin | src/rooms/rooms.controller.ts:65-75 | The guard on the token's room, then the service on the URL's code; the error is that of the first ground that holds, and the new token names the URL's code and the old one's user |
| Ledger.RefusedOnTheFirstGround | src/rooms/rooms.service.ts:75-302 | Whatever the store holds, every call fails exactly if one of its listed grounds, guards on the stored fields, holds, and then with the error of the first of them |
| Ledger.EachKeyAfter | src/rooms/rooms.service.ts:82-302 | What an accepted call replies and leaves under every user, member set and room key, old or new; a refused one leaves the store as it was |
| Ledger.RejoinOutcome | src/auth/jwt-auth.guard.ts:17-31 | The exact reply of a guarded rejoin to a signed token in every reachable state |
| Ledger.RecordsTellLives | src/users/users.service.ts:20-61 | After every run the record under an id tells its user's life: name and room of the create or join for ever, the socket of the last connection, and nothing before it or after the user has left, been kicked or had the room closed |
| Ledger.ProfileStep | src/users/users.service.ts:47-61 | No call changes the id, name or room of a user stored before and after it |
| Lifecycle.MasterInvariant | src/rooms/rooms.service.ts:82-302 | After every run: each room has one host, a member of it; no user is in two rooms; members only where there is a room, so a leave never finds its room gone; every user record's owner is a member of its existing room; no room above its limit.  With in-room kicks, member ids and user records coincide |
| Lifecycle.StrayKicksAreTheGap | src/rooms/rooms.service.ts:214-217 | From any consistent state, a step keeps member ids and user records together if and only if it is not a host's kick of somebody on record for another room |
| Sharpness.StrayKickSpoils | src/rooms/rooms.service.ts:201-221 | After any orderly run, a host's kick of a user on record elsewhere is accepted and leaves a member without a record |
| Sharpness.StrayKickHappens | src/rooms/rooms.service.ts:216-217 | And there is such a run: two rooms are enough |
| Lifecycle.TokenDeathIsPermanent | README.md:78-82 | Once a user has left, been kicked or had the room closed, no token naming that user is accepted by a connection or a rejoin in any continuation, reused codes and stray kicks included |
| Lifecycle.CheapCheckIsTheDocumentedOne | README.md:140-145 | With in-room kicks, for every issued token the single user lookup of a connection succeeds exactly if the documented check (room exists and lists the user) does |
| Lifecycle.BatchedLookupAgrees | src/rooms/rooms.service.ts:304-307 | With in-room kicks, the batched member lookup gives exactly one record a member, in order, each what a single lookup finds |
| Lifecycle.DetailsInOrder | src/users/users.service.ts:42-45 | The lookup goes through any listing in order, each id adding its record or, if it has none, nothing |
| Authority.AcceptedIsPermitted | src/rooms/rooms.service.ts:110-302 | In every reachable state a call succeeds if and only if it is permitted: joins into an existing, open, unfilled room; kicks, closings, transfers and toggles by the host only, never of oneself, transfers to members only; rejoins by recorded users of the token's room at its own URL |
| Authority.NewcomersAreSeated | src/rooms/rooms.service.ts:86-134 | A successful create or join signs a token for the fresh id and the room, stores that user offline and adds exactly that member; a create opens a new, unlocked room with the caller's settings, hosted by its only member; a join leaves the record alone |
| Authority.HostsHandOver | src/rooms/rooms.service.ts:249-286 | While a room exists its hosts form a chain, each change made by the host of the moment through transfer or leave |
| Authority.LockIsToggleParity | src/rooms/rooms.service.ts:288-302 | The lock is the parity of the hosts' toggles, and code, limit, state and timestamps never change |
| Authority.LockedRoomsNeverGrow | src/rooms/rooms.service.ts:114-117 | While a room stays locked nobody is added to it |
| Authority.RejectionChangesNothing | src/rooms/rooms.service.ts:110-302 | A rejected call leaves the store, the bindings and the tokens as they were |
| Drain.RoomsAreHeld | src/rooms/rooms.service.ts:150-190 | After every run with in-room kicks each room is held by exactly its members: one of them hosts, their user records are the room's, and all its keys are gone exactly if there are none |
| Drain.RoomDrains | src/rooms/rooms.service.ts:150-190 | In any run with in-room kicks in which nobody joins the room and its host does not close it, in whatever order its members leave or are kicked and whatever calls come in between, those left hold the room with one of them as host, and its keys are gone exactly when the last has gone |
| Effects.OtherRoomsUntouched | src/rooms/rooms.service.ts:82-302 | A call leaves the keys of every other room alone |
| Isolation.RoomsAreIsolated | src/rooms/rooms.service.ts:82-302 | With in-room kicks, replaying only the calls on one room gives that room the same record, members and users as the full run |
| Footprint.FootprintIsExact | README.md:330-372 | With in-room kicks, the keys are exactly `room:c` and `room:c:users` for the live rooms and `user:u` for their members |
| Footprint.NothingLeaks | README.md:375 | From every reachable state, once each host has closed their room, in any order, no key is left |
| Binding.OneRoomForEver | src/rooms/rooms.service.ts:86-106 | Under every interleaving an id keeps the room it was created for; every user record, member entry, room record with its stored host, and issued token respects that, so member sets stay disjoint |
| Failures.FailuresChangeNothing | src/rooms/rooms.service.ts:110-302 | Under every interleaving, a call that ends in a failure has changed nothing from its start to its end |
| Binding.RejoinStaysHome | src/auth/jwt-auth.guard.ts:17-31 | Under every interleaving a guarded rejoin that succeeds was for the token's own room, although the guard looks at the token's room and the service at the URL's |
| Reservation.ReservationIsOwned | src/rooms/rooms.service.ts:53-98 | Under every interleaving that never reserves a code twice: while a create holds a code no other create holds it, no other call is about to write or delete its record, and the placeholder is still there |
| Capacity.RacingJoinsOverfillBoundedly | src/rooms/rooms.service.ts:110-126 | With at most K joins between their count and their own entry, a room never holds more than its limit - 1 + K members |
| Racing.RacingJoinsReachTheBound | src/rooms/rooms.service.ts:111-126 | And that bound is exact: from any reachable open room with one place left, any number K of new joins can race to limit - 1 + K |
| Sequential.AloneIsAtomic | src/rooms/rooms.service.ts:53-302 | The commands of every call, creates with all their attempts and rejoins included, run back to back from any store, have the effect and the answer of the atomic operation |
| Scripts.CreateWritesInOrder | src/rooms/rooms.service.ts:53-100 | A create writes in this order: one attempt a candidate up to the first free one, user, room, member |
| Scripts.JoinWrites | src/rooms/rooms.service.ts:125-126 | A join: user, member |
| Scripts.LeaveWritesInOrder | src/rooms/rooms.service.ts:156-182 | A leave: the member goes, then the record, then the host's heir is saved or the room deleted |
| Scripts.KickWrites | src/rooms/rooms.service.ts:216-217 | A kick: the record goes, then the member |
| Scripts.CloseWrites | src/rooms/rooms.service.ts:234-236 | A closing: the members' records, if any, then the room |
| LostUpdates.TogglesAreLost | src/rooms/rooms.service.ts:288-302 | Of two toggles that both read before either saves one is lost, although both succeed; one after the other they cancel |
| LostUpdates.TransferIsLost | src/rooms/rooms.service.ts:249-302 | A transfer made between the read and the save of a toggle is undone by it |
| Reduction.RoomwiseSerialRunsAreAtomic | src/rooms/rooms.service.ts:82-302 | Every run with at most one writing call in flight a room, rejoins free to run beside them, in which kicks past their host check name users of the caller's room, ends, when quiet, in the same store and tokens as the calls run one at a time in the order in which they ended, each with the same reply |
| Rejoins.EveryReplyIsAtomic | src/rooms/rooms.service.ts:136-148 | With at most one call in flight a room, rejoins counted, every reply, those of rejoins included, is the one that the calls get one at a time in the order in which they ended |
| Events.EventsGateway.OnKick | src/events/events.gateway.ts:75-99 | A rejected kick changes nothing and tells nobody; otherwise the target's live socket hears `user:kicked` as the last thing ever and is cut off, and everyone left in the room hears who left |
| Events.EventsGateway.OnUpdateHost | src/events/events.gateway.ts:101-117 | Exactly the room's live sockets hear the host that the store now holds, and nobody hears of a rejected transfer |
| Events.EventsGateway.OnToggleLock | src/events/events.gateway.ts:119-133 | Exactly the room's live sockets hear the lock that the store now holds, and nobody hears of a rejected toggle |
| Events.EventsGateway.OnLeave | src/events/events.gateway.ts:135-159 | The leaver's socket is cut off before anything is sent; the rest of the room, and nobody else, hears of the leave and then, if the host left, of the heir that the store holds |
| Events.EventsGateway.OnCloseRoom | src/events/events.gateway.ts:161-180 | Every socket of the room is cut off, the last it hears being the closing, twice; no other socket is touched |
| Events.EventsGateway.HandleConnection | src/events/events.gateway.ts:182-223 | Refused, cut off, or joined: then the socket's queue starts with the snapshot of its room, followed by the news of its own connection, which the rest of the room hears too |
| Events.EventsGateway.HandleDisconnect | src/events/events.gateway.ts:225-250 | The stored user is disconnected and the room told, unless the record is gone |
| Sockets.SocketsAreBound | src/events/events.gateway.ts:199-202 | After every run a user is connected exactly if the record names a socket; that socket is live and bound to that user and room; so no two users share one |
| Broadcasts.RoomsHearTheirOwn | src/events/events.gateway.ts:75-250 | For every act, accepted or refused, a socket that stays hears exactly the listed events if it is of the session's room, and nothing if it is of another |
| Broadcasts.NewcomerHears | src/events/events.gateway.ts:199-212 | A socket let in has under way the snapshot of its room as now stored, then the news of its own connection |
| Broadcasts.LateConnection | src/events/events.gateway.ts:199-221 | If the room has gone by then the connection is saved, the socket cut off, and no room hears of it |
| Broadcasts.TableAfter | src/events/events.gateway.ts:75-250 | Which sockets each act takes off the table, by guards on the stored fields, and that it adds none but the one it opens |
| Broadcasts.EveryFarewell | src/events/events.gateway.ts:86-176 | A socket that is cut off has yet to receive what was under way and the last words: kicked once, closed twice, none for a leaver; nobody else's farewell changes |
| Broadcasts.DismissedShowNothing | sockets.html:89-146 | After a closing or a kick, a client cut off by it shows no room and no members once it has received everything sent to it, whatever it showed before |
| Broadcasts.EventsArriveInOrder | src/events/events.gateway.ts:55-69 | In every run a socket that stays live receives exactly the news of its own room, in order and once each |
| Liveness.ToldUnlessOneOfSeveralGoes | src/events/events.gateway.ts:225-240 | From any state in which each record tells whether its user has a live socket, an act ends in such a state if and only if it does not take one of several sockets of a user: by dropping it, leaving through it, or kicking a user whose record names it |
| Liveness.LivenessIsConnection | src/events/events.gateway.ts:86-91 | For every run with any number of sockets a user: stored connection and live sockets agree throughout if and only if the run never takes one of several |
| Liveness.OneSocketIsEnough | sockets.html:57-60 | With one live socket a user they always agree |
| Sharpness.SecondSocketMisleads | src/users/users.service.ts:55-61 | From any reachable state, opening a second socket and losing the first is possible and leaves the record disconnected while the second is live |
| Sharpness.SecondSocketHappens | src/events/events.gateway.ts:225-240 | And there is such a run: create, open, open again, drop the first |
| Client.EachEntryReduced | sockets.html:72-129 | What each event makes of what is shown under any one id: a connection adds or replaces, a disconnection only replaces, a departure removes, an exit clears |
| Client.PlacesKept | sockets.html:105-119 | Connections and disconnections keep every user's place, and a new user comes last |
| Client.GapsClose | sockets.html:126-129 | A departure removes that user's entries wherever they are and keeps the order of the rest |
| Replica.SnapshotFaithful | sockets.html:72-76 | Whatever a client still showed, the snapshot that it is sent makes it show its room exactly |
| Replica.ConnectedReduces | sockets.html:105-114 | A faithful view stays so when a user's record is saved and the client reduces the news of the connection, whether or not it showed that user |
| Replica.DisconnectedReduces | sockets.html:116-119 | The same for a disconnection, whose user the view may not show |
| Replica.LeftReduces | sockets.html:126-129 | The same when a record is deleted and the client hears who left |
| Replica.ReplicasConverge | sockets.html:72-129 | In every run with in-room kicks and any number of sockets a user, every live client that folds its undelivered events over its view shows throughout exactly the stored room record, each user as stored and none twice, and every connected user of the room, if and only if no last member ever leaves a room under another live socket |
| Replica.OneSocketConverges | sockets.html:57-60 | With one live socket a user the clients always do |
| Sharpness.EmptiedRoomHappens | src/events/events.gateway.ts:135-159 | The excepted case is real: a host alone, with two sockets, leaves through one, and the other client shows a room that is gone |

## Left out

- Key expiry and the clock: a save without a TTL drops the key's expiry (`src/redis/redis.service.ts:26-33`), so rooms, member sets and users would get unrelated lifetimes; nothing expires in the model, and the invariants hold between expiries.
- Signing and verifying tokens and the `exp` claim (section 4.1.4 of RFC 7519): a token is an unforgeable payload.
- JSON and dates: keys hold typed records, timestamps are copied only.
- nanoid and the profanity library: fresh ids are parameters; the draws are an arbitrary stream and the filter an arbitrary predicate.
- HTTP controllers, pipes, validation, exception filters and the error events sent to the caller: errors are a result datatype.
- Logging, correlation ids, health check, configuration, throttling, shutdown, connection retries and socket transport.
- Everything in `sockets.html` but the reducers of `connectSocket`.
- Races inside `handleConnection` between the snapshot and the subscription: `Network` takes each handler as one step; `Commands` interleaves its user update but not its reads of the room.
- A client's own disconnection and the `handleDisconnect` that follows it are one step of `Network`; for sockets that the server cuts off they are two.
- Reduction.RoomwiseSerialRunsAreAtomic: leaves the replies of rejoins out, because it lets them run beside anything; `EveryReplyIsAtomic` compares them where they have their room to themselves, too.
- Rooms.RoomsService.Join: for a code of the wrong length the contract says only that the call fails and changes nothing, since the error then depends on which key the code happens to name; so do the contracts of the other room operations.
- Events.EventsGateway.OnKick: like the other handlers it takes the session of a socket that was let in, whose code has the configured length.
