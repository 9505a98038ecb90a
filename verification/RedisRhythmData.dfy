/**
  The shared backend: every datum is one string under one key of a flat store that expires keys by
  itself.  The commands below say what the store does at one reading of its clock (milliseconds).
 */
module RedisRhythmData {
  import opened Wrappers
  import opened TtlPolicy
  import opened CachePorts
  import opened Decimal
  import opened IdListCodec
  import opened RedisKeyspace

  datatype Cell = Cell(value: string, expiry: Option<int>)

  type Db = map<string, Cell>

  datatype TtlReply = NoKey | NoExpiration | Expires(seconds: int)

  /** A key still exists in the millisecond in which it expires. */
  predicate Exists(db: Db, key: string, now: int)
  {
    key in db && (db[key].expiry.None? || now <= db[key].expiry.value)
  }

  function Get(db: Db, key: string, now: int): Option<string>
  {
    if Exists(db, key, now) then Some(db[key].value) else None
  }

  /** A non-positive time to live is an error of the command and stores nothing. */
  function Setex(db: Db, key: string, ttl: int, value: string, now: int): Db
  {
    if ttl <= 0 then db else db[key := Cell(value, Some(now + ttl * MS))]
  }

  function Del(db: Db, key: string): Db
  {
    db - {key}
  }

  /** Remaining life in seconds, rounded to the nearest one. */
  function Ttl(db: Db, key: string, now: int): TtlReply
  {
    if !Exists(db, key, now) then NoKey
    else if db[key].expiry.None? then NoExpiration
    else Expires((db[key].expiry.value - now + MS / 2) / MS)
  }

  function Expire(db: Db, key: string, ttl: int, now: int): Db
  {
    if !Exists(db, key, now) then db
    else if ttl <= 0 then db - {key}
    else db[key := db[key].(expiry := Some(now + ttl * MS))]
  }

  function SetIfNotExist(db: Db, key: string, value: string, ttlMs: int, now: int): (Db, bool)
  {
    if ttlMs <= 0 || Exists(db, key, now) then (db, false)
    else (db[key := Cell(value, Some(now + ttlMs))], true)
  }

  // The port operations, each on one key.

  function KeyOf(call: Call): Key
  {
    match call
    case TryGetFeed(user) => FeedKey(user)
    case PutFeed(user, _, _) => FeedKey(user)
    case TouchFeed(user, _) => FeedKey(user)
    case DropFeed(user) => FeedKey(user)
    case TryGetGptRanked(user) => GptRankKey(user)
    case PutGptRanked(user, _, _) => GptRankKey(user)
    case TryGetSimilar(anchor) => SimilarKey(anchor)
    case PutSimilar(anchor, _, _) => SimilarKey(anchor)
    case TryGetPopularGlobal => PopularGlobalKey
    case PutPopularGlobal(_, _) => PopularGlobalKey
    case InvalidateUserDerived(user) => GptRankKey(user)
    case TryReserve(token, _) => IdempotencyKey(token)
    case LastSeenUtc(user) => VisitLastKey(user)
    case MarkSeenUtc(user) => VisitLastKey(user)
  }

  function FetchFeed(db: Db, key: string, now: int): (Db, Option<FeedCacheEntry>)
  {
    var raw := Get(db, key, now);
    if raw.None? then (db, None)
    else
      var ids := DecodeIds(raw.value);
      if ids.None? then (Del(db, key), None)
      else
        match Ttl(db, key, now)
        case NoKey => (db, None)
        case NoExpiration => (db, Some(FeedCacheEntry(ids.value, 0)))
        case Expires(seconds) => (db, Some(FeedCacheEntry(ids.value, seconds)))
  }

  function FetchIds(db: Db, key: string, now: int): (Db, Option<seq<ProductId>>)
  {
    var raw := Get(db, key, now);
    if raw.None? then (db, None)
    else
      var ids := DecodeIds(raw.value);
      if ids.None? then (Del(db, key), None) else (db, ids)
  }

  function ExtendTtl(db: Db, key: string, extendBy: int, now: int): Db
  {
    if extendBy <= 0 then db
    else
      match Ttl(db, key, now)
      case Expires(seconds) => Expire(db, key, seconds + extendBy, now)
      case _ => db
  }

  function FetchVisit(db: Db, key: string, now: int): (Db, Option<int>)
  {
    var raw := Get(db, key, now);
    if raw.None? || raw.value == "" then (db, None)
    else
      var ms := Stoll(raw.value);
      if ms.None? || ms.value < 0 then (Del(db, key), None) else (db, ms)
  }

  function RedisStep(visitTtl: int, db: Db, now: int, call: Call): (Db, Reply)
  {
    var key := Name(KeyOf(call));
    match call
    case TryGetFeed(_) => var (db', entry) := FetchFeed(db, key, now); (db', Feed(entry))
    case PutFeed(_, ids, ttl) => (Setex(db, key, ttl, EncodeIds(ids), now), Done)
    case TouchFeed(_, extendBy) => (ExtendTtl(db, key, extendBy, now), Done)
    case DropFeed(_) => (Del(db, key), Done)
    case TryGetGptRanked(_) => var (db', found) := FetchIds(db, key, now); (db', Ids(found))
    case PutGptRanked(_, ids, ttl) => (Setex(db, key, ttl, EncodeIds(ids), now), Done)
    case TryGetSimilar(_) => var (db', found) := FetchIds(db, key, now); (db', Ids(found))
    case PutSimilar(_, ids, ttl) => (Setex(db, key, ttl, EncodeIds(ids), now), Done)
    case TryGetPopularGlobal => var (db', found) := FetchIds(db, key, now); (db', Ids(found))
    case PutPopularGlobal(ids, ttl) => (Setex(db, key, ttl, EncodeIds(ids), now), Done)
    case InvalidateUserDerived(_) => (Del(db, key), Done)
    case TryReserve(_, ttl) => var (db', ok) := SetIfNotExist(db, key, "1", ttl * MS, now); (db', Reserved(ok))
    case LastSeenUtc(_) => var (db', at) := FetchVisit(db, key, now); (db', Seen(at))
    case MarkSeenUtc(_) => (Setex(db, key, visitTtl, ToDecimal(now), now), Done)
  }

  /** What is left after the worker's invalidation: the three keys of the user are gone. */
  function Invalidated(db: Db, user: string): Db
  {
    db - {Name(FeedKey(user)), Name(GptRankKey(user)), Name(VisitLastKey(user))}
  }

  /** A non-positive time to live stores nothing and leaves what is stored; the command to expire deletes at once. */
  lemma WithoutLife(visitTtl: int, db: Db, now: int, call: Call, key: string, ttl: int)
    requires ttl <= 0
    requires call.PutFeed? || call.PutGptRanked? || call.PutSimilar? || call.PutPopularGlobal?
    requires call.ttl == ttl
    ensures RedisStep(visitTtl, db, now, call) == (db, Done)
    ensures Exists(db, key, now) ==> Expire(db, key, ttl, now) == db - {key}
  {
  }

  // Values that the service did not write.

  /** A list that cannot be decoded is a miss, and its key is deleted; nothing else changes. */
  lemma CorruptListIsErased(visitTtl: int, db: Db, now: int, call: Call)
    requires call.TryGetFeed? || call.TryGetGptRanked? || call.TryGetSimilar? || call.TryGetPopularGlobal?
    requires Exists(db, Name(KeyOf(call)), now) && DecodeIds(db[Name(KeyOf(call))].value) == None
    ensures RedisStep(visitTtl, db, now, call) ==
            (db - {Name(KeyOf(call))}, if call.TryGetFeed? then Feed(None) else Ids(None))
  {
  }

  /** A feed without an expiry is served with no remaining life, and extending it leaves it as it is. */
  lemma LastingFeedIsServed(visitTtl: int, db: Db, now: int, user: string, extendBy: int)
    requires Name(FeedKey(user)) in db && db[Name(FeedKey(user))].expiry == None
    requires DecodeIds(db[Name(FeedKey(user))].value).Some?
    ensures RedisStep(visitTtl, db, now, TryGetFeed(user)) ==
            (db, Feed(Some(FeedCacheEntry(DecodeIds(db[Name(FeedKey(user))].value).value, 0))))
    ensures RedisStep(visitTtl, db, now, TouchFeed(user, extendBy)) == (db, Done)
  {
    hide DecodeIds, Name;
  }

  /** A visit is what `std::stoll` reads, unless negative; what it cannot read is deleted, an empty text is kept. */
  lemma VisitIsReadOrErased(visitTtl: int, db: Db, now: int, user: string)
    requires Exists(db, Name(VisitLastKey(user)), now)
    ensures var key, reply := Name(VisitLastKey(user)), RedisStep(visitTtl, db, now, LastSeenUtc(user));
      var raw := db[key].value;
      if raw == "" then reply == (db, Seen(None))
      else if Stoll(raw).Some? && Stoll(raw).value >= 0 then reply == (db, Seen(Stoll(raw)))
      else reply == (db - {key}, Seen(None))
  {
    hide Stoll, Name;
  }

  class RhythmData {
    var db: Db
    const visitLastTtl: int

    constructor (visitLastTtl: int)
      ensures db == map[] && this.visitLastTtl == visitLastTtl
    {
      db := map[];
      this.visitLastTtl := visitLastTtl;
    }

    method TryGetFeed(user: string, now: int) returns (r: Option<FeedCacheEntry>)
      modifies this
      ensures (db, Feed(r)) == RedisStep(visitLastTtl, old(db), now, Call.TryGetFeed(user))
    {
      var key := Name(FeedKey(user));
      var raw := Get(db, key, now);
      if raw.None? {
        return None;
      }
      var ok, ids := JsonToIds(raw.value);
      if !ok {
        db := Del(db, key);
        return None;
      }
      var ttlRep := Ttl(db, key, now);
      if ttlRep.NoKey? {
        return None;
      }
      if ttlRep.NoExpiration? {
        return Some(FeedCacheEntry(ids, 0));
      }
      return Some(FeedCacheEntry(ids, ttlRep.seconds));
    }

    method PutFeed(user: string, ids: seq<ProductId>, ttl: int, now: int)
      modifies this
      ensures db == RedisStep(visitLastTtl, old(db), now, Call.PutFeed(user, ids, ttl)).0
    {
      var text := IdsToJson(ids);
      db := Setex(db, Name(FeedKey(user)), ttl, text, now);
    }

    method TouchFeed(user: string, extendBy: int, now: int)
      modifies this
      ensures db == RedisStep(visitLastTtl, old(db), now, Call.TouchFeed(user, extendBy)).0
    {
      if extendBy <= 0 {
        return;
      }
      var key := Name(FeedKey(user));
      var ttlRep := Ttl(db, key, now);
      if !ttlRep.Expires? {
        return;
      }
      db := Expire(db, key, ttlRep.seconds + extendBy, now);
    }

    method DropFeed(user: string)
      modifies this
      ensures db == Del(old(db), Name(FeedKey(user)))
    {
      db := Del(db, Name(FeedKey(user)));
    }

    /** The common shape of the three side-cache reads. */
    method TryGetIds(key: string, now: int) returns (r: Option<seq<ProductId>>)
      modifies this
      ensures (db, r) == FetchIds(old(db), key, now)
    {
      var raw := Get(db, key, now);
      if raw.None? {
        return None;
      }
      var ok, ids := JsonToIds(raw.value);
      if !ok {
        db := Del(db, key);
        return None;
      }
      return Some(ids);
    }

    method TryGetGptRanked(user: string, now: int) returns (r: Option<seq<ProductId>>)
      modifies this
      ensures (db, Ids(r)) == RedisStep(visitLastTtl, old(db), now, Call.TryGetGptRanked(user))
    {
      r := TryGetIds(Name(GptRankKey(user)), now);
    }

    method PutGptRanked(user: string, ids: seq<ProductId>, ttl: int, now: int)
      modifies this
      ensures db == RedisStep(visitLastTtl, old(db), now, Call.PutGptRanked(user, ids, ttl)).0
    {
      var text := IdsToJson(ids);
      db := Setex(db, Name(GptRankKey(user)), ttl, text, now);
    }

    method TryGetSimilar(anchor: ProductId, now: int) returns (r: Option<seq<ProductId>>)
      modifies this
      ensures (db, Ids(r)) == RedisStep(visitLastTtl, old(db), now, Call.TryGetSimilar(anchor))
    {
      r := TryGetIds(Name(SimilarKey(anchor)), now);
    }

    method PutSimilar(anchor: ProductId, ids: seq<ProductId>, ttl: int, now: int)
      modifies this
      ensures db == RedisStep(visitLastTtl, old(db), now, Call.PutSimilar(anchor, ids, ttl)).0
    {
      var text := IdsToJson(ids);
      db := Setex(db, Name(SimilarKey(anchor)), ttl, text, now);
    }

    method TryGetPopularGlobal(now: int) returns (r: Option<seq<ProductId>>)
      modifies this
      ensures (db, Ids(r)) == RedisStep(visitLastTtl, old(db), now, Call.TryGetPopularGlobal)
    {
      r := TryGetIds(Name(PopularGlobalKey), now);
    }

    method PutPopularGlobal(ids: seq<ProductId>, ttl: int, now: int)
      modifies this
      ensures db == RedisStep(visitLastTtl, old(db), now, Call.PutPopularGlobal(ids, ttl)).0
    {
      var text := IdsToJson(ids);
      db := Setex(db, Name(PopularGlobalKey), ttl, text, now);
    }

    method InvalidateUserDerived(user: string)
      modifies this
      ensures db == Del(old(db), Name(GptRankKey(user)))
    {
      db := Del(db, Name(GptRankKey(user)));
    }

    method InvalidateAfterUserAction(user: string)
      modifies this
      ensures db == Invalidated(old(db), user)
    {
      DropFeed(user);
      InvalidateUserDerived(user);
      db := Del(db, Name(VisitLastKey(user)));
    }

    method TryReserve(token: string, ttl: int, now: int) returns (ok: bool)
      modifies this
      ensures (db, Reserved(ok)) == RedisStep(visitLastTtl, old(db), now, Call.TryReserve(token, ttl))
    {
      var (db', wasSet) := SetIfNotExist(db, Name(IdempotencyKey(token)), "1", ttl * MS, now);
      db := db';
      return wasSet;
    }

    method LastSeenUtc(user: string, now: int) returns (r: Option<int>)
      modifies this
      ensures (db, Seen(r)) == RedisStep(visitLastTtl, old(db), now, Call.LastSeenUtc(user))
    {
      var key := Name(VisitLastKey(user));
      var raw := Get(db, key, now);
      if raw.None? || raw.value == "" {
        return None;
      }
      var ms := Stoll(raw.value);
      if ms.None? {
        db := Del(db, key);
        return None;
      }
      if ms.value < 0 {
        db := Del(db, key);
        return None;
      }
      return ms;
    }

    method MarkSeenUtc(user: string, now: int)
      modifies this
      ensures db == RedisStep(visitLastTtl, old(db), now, Call.MarkSeenUtc(user)).0
    {
      db := Setex(db, Name(VisitLastKey(user)), visitLastTtl, ToDecimal(now), now);
    }
  }
}
