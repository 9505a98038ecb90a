/**
  The worker: one message becomes at most one row, and the user's caches are dropped for a new row only.
  A delivery may be cut off by a failure before the insert or between the insert and the invalidation.
 */
module UserActionConsumer {
  import opened Wrappers
  import opened ActionService
  import opened RedisKeyspace
  import Redis = RedisRhythmData

  /** The unique index of the table. */
  datatype RowKey = RowKey(user: string, idempotencyKey: string)

  function KeyOf(a: UserAction): RowKey
  {
    RowKey(a.user, a.idempotencyKey)
  }

  datatype Parsed = Unreadable | Incomplete | BadType | Action(action: UserAction)

  /** Text that is not JSON and objects without a required member are skipped; a value of another type throws. */
  function Parse(m: Message): Parsed
  {
    match m
    case NotJson => Unreadable
    case NotObject => BadType
    case Fields(f) =>
      if !("user_id" in f && "action_type" in f && "product_id" in f && "idempotency_key" in f) then Incomplete
      else if f["user_id"].OtherValue? || f["action_type"].OtherValue? || f["product_id"].OtherValue?
              || f["idempotency_key"].OtherValue? then BadType
      else Action(UserAction(f["user_id"].text, f["action_type"].text, f["product_id"].text, f["idempotency_key"].text))
  }

  /** What the service publishes, the worker reads back. */
  lemma MessageRoundTrip(a: UserAction)
    ensures Parse(Encode(a)) == Action(a)
  {
  }

  predicate HasKey(rows: seq<UserAction>, k: RowKey)
  {
    exists i :: 0 <= i < |rows| && KeyOf(rows[i]) == k
  }

  /** INSERT ... ON CONFLICT (user_id, idempotency_key) DO NOTHING. */
  function InsertRow(rows: seq<UserAction>, a: UserAction): seq<UserAction>
  {
    if HasKey(rows, KeyOf(a)) then rows else rows + [a]
  }

  datatype Fault = NoFault | BeforeInsert | AfterInsert

  datatype Delivery = Delivery(message: Message, fault: Fault)

  datatype Result = Skipped | Threw | AlreadyStored | Stored | StoredThenFailed

  function Consume(rows: seq<UserAction>, d: Delivery): (seq<UserAction>, Result)
  {
    match Parse(d.message)
    case Unreadable => (rows, Skipped)
    case Incomplete => (rows, Skipped)
    case BadType => (rows, Threw)
    case Action(a) =>
      if d.fault.BeforeInsert? then (rows, Threw)
      else
        var stored := InsertRow(rows, a);
        if stored == rows then (rows, AlreadyStored)
        else (stored, if d.fault.AfterInsert? then StoredThenFailed else Stored)
  }

  class Table {
    var rows: seq<UserAction>

    constructor ()
      ensures rows == []
    {
      rows := [];
    }

    method InsertOnConflictDoNothing(a: UserAction) returns (rowsAffected: nat)
      modifies this
      ensures rows == InsertRow(old(rows), a)
      ensures rowsAffected == |rows| - |old(rows)|
    {
      for i := 0 to |rows|
        invariant forall j :: 0 <= j < i ==> KeyOf(rows[j]) != KeyOf(a)
      {
        if KeyOf(rows[i]) == KeyOf(a) {
          return 0;
        }
      }
      rows := rows + [a];
      return 1;
    }
  }

  class Consumer {
    const table: Table
    const redisCache: Redis.RhythmData

    constructor (table: Table, redisCache: Redis.RhythmData)
      ensures this.table == table && this.redisCache == redisCache
    {
      this.table := table;
      this.redisCache := redisCache;
    }

    method Process(d: Delivery) returns (result: Result)
      modifies table, redisCache
      ensures (table.rows, result) == Consume(old(table.rows), d)
      ensures redisCache.db ==
              if result.Stored? then Redis.Invalidated(old(redisCache.db), Parse(d.message).action.user)
              else old(redisCache.db)
    {
      var parsed := Parse(d.message);
      if parsed.Unreadable? || parsed.Incomplete? {
        return Skipped;
      }
      if parsed.BadType? || d.fault.BeforeInsert? {
        return Threw;
      }
      var affected := table.InsertOnConflictDoNothing(parsed.action);
      if affected > 0 {
        if d.fault.AfterInsert? {
          return StoredThenFailed;
        }
        redisCache.InvalidateAfterUserAction(parsed.action.user);
        return Stored;
      }
      return AlreadyStored;
    }
  }

  predicate IsKeyOfUser(k: Key, user: string)
  {
    IsUserKey(k) && k.user == user
  }

  /**
    For plain user ids an invalidation removes the feed, the ranking and the visit mark of its user, and
    nothing else: other users, other lists and reservations keep their values.
   */
  lemma InvalidationRemovesThreeKeys(db: Redis.Db, user: string, k: Key)
    requires PlainUser(user) && Usable(k)
    ensures var db' := Redis.Invalidated(db, user);
      if IsKeyOfUser(k, user) then Name(k) !in db'
      else (Name(k) in db' <==> Name(k) in db) && (Name(k) in db ==> db'[Name(k)] == db[Name(k)])
  {
    hide Name;
    if !IsKeyOfUser(k, user) && Name(k) in {Name(FeedKey(user)), Name(GptRankKey(user)), Name(VisitLastKey(user))} {
      if Name(k) == Name(FeedKey(user)) {
        UsableKeysInjective(k, FeedKey(user));
      } else if Name(k) == Name(GptRankKey(user)) {
        UsableKeysInjective(k, GptRankKey(user));
      } else {
        UsableKeysInjective(k, VisitLastKey(user));
      }
    }
  }
}
