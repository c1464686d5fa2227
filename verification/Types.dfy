/** The entities that the room service stores, signs and throws. */
module Types {
  type Code = string
  type UserId = string
  type SocketId = string

  // Timestamps are only ever copied, so any values do.
  type Instant = int

  datatype Option<+T> = None | Some(value: T)

  datatype Error =
    | RoomNotFound | UserNotFound | NotHost | CannotKickSelf | AlreadyHost
    | RoomLocked | RoomFull | RoomCodeGenerationFailed | Unauthorized
    // A Redis command applied to a key that holds another type.
    | WrongType

  datatype Result<+T> = Success(value: T) | Failure(error: Error) {
    predicate IsFailure() {
      Failure?
    }

    function PropagateFailure<U>(): Result<U>
      requires Failure?
    {
      Failure(error)
    }

    function Extract(): T
      requires Success?
    {
      value
    }

    /** The error, if there is one. */
    function Problem(): Option<Error> {
      if Failure? then Some(error) else None
    }
  }

  datatype RoomState = Created | Closed

  /** What `room:{code}` can hold: the placeholder written by a reservation, which has no field
      but `code`, or a complete record.  A `maxUsers` of 0 stands for 0 and for undefined alike. */
  datatype Room =
    | Placeholder(code: Code)
    | Complete(code: Code, hostId: UserId, isLocked: bool, maxUsers: nat,
               state: RoomState, createdAt: Instant, updatedAt: Instant)
  {
    predicate HostedBy(user: UserId) {
      Complete? && hostId == user
    }

    predicate Locked() {
      Complete? && isLocked
    }

    /** Whether a room with this many members turns a join away. */
    predicate FullAt(count: nat) {
      Complete? && maxUsers != 0 && count >= maxUsers
    }
  }

  datatype User = User(id: UserId, displayName: string, roomCode: Code,
                       isConnected: bool, socketId: Option<SocketId>)

  /** The payload of a signed token; a socket's session data is a copy of it. */
  datatype Token = Token(roomCode: Code, userId: UserId)
}
