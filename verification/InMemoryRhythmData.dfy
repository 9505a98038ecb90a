/**
  The process-local backend.  The maps expire lazily: a cell whose time has come stays in its map until
  the next access of the same key removes it.  Pure functions specify each operation on the value of the
  maps; the classes below update their fields in place and are proved against them.
 */
module InMemoryRhythmData {
  import opened Wrappers
  import opened TtlPolicy
  import opened CachePorts

  datatype TimedIds = TimedIds(ids: seq<ProductId>, expiresAt: int)

  datatype Mem = Mem(
    feed: map<string, TimedIds>,
    gpt: map<string, TimedIds>,
    similar: map<ProductId, TimedIds>,
    popular: TimedIds,
    popularInited: bool,
    idempotency: map<string, int>)

  const EMPTY_MEM := Mem(map[], map[], map[], TimedIds([], 0), false, map[])

  predicate IsExpired(expiresAt: int, now: int)
  {
    expiresAt <= now
  }

  /** A lookup in one of the lazily expiring maps: the ids if they are live, and the map afterwards. */
  function TryGet<K>(m: map<K, TimedIds>, k: K, now: int): (map<K, TimedIds>, Option<TimedIds>)
  {
    if k !in m then (m, None)
    else if IsExpired(m[k].expiresAt, now) then (m - {k}, None)
    else (m, Some(m[k]))
  }

  function Put<K>(m: map<K, TimedIds>, k: K, ids: seq<ProductId>, ttl: int, now: int): map<K, TimedIds>
  {
    m[k := TimedIds(ids, now + ttl * MS)]
  }

  function Touch(m: map<string, TimedIds>, user: string, extendBy: int, now: int): map<string, TimedIds>
  {
    if extendBy <= 0 || user !in m then m
    else if IsExpired(m[user].expiresAt, now) then m - {user}
    else m[user := TimedIds(m[user].ids, m[user].expiresAt + extendBy * MS)]
  }

  function EntryAt(cell: TimedIds, now: int): FeedCacheEntry
  {
    FeedCacheEntry(cell.ids, (cell.expiresAt - now) / MS)
  }

  function FeedReply(found: Option<TimedIds>, now: int): Reply
  {
    Feed(if found.None? then None else Some(EntryAt(found.value, now)))
  }

  function IdsReply(found: Option<TimedIds>): Reply
  {
    Ids(if found.None? then None else Some(found.value.ids))
  }

  function Reserve(held: map<string, int>, token: string, ttl: int, now: int): (map<string, int>, bool)
  {
    if token == "" || (token in held && held[token] > now) then (held, false)
    else (held[token := now + ttl * MS], true)
  }

  function TryGetPopular(m: Mem, now: int): (Mem, Option<TimedIds>)
  {
    if !m.popularInited then (m, None)
    else if IsExpired(m.popular.expiresAt, now) then (m.(popularInited := false), None)
    else (m, Some(m.popular))
  }

  /** One call on the maps, except for the visit ledger, which is a separate object in this deployment. */
  function MemStep(m: Mem, now: int, call: Call): (Mem, Reply)
  {
    match call
    case TryGetFeed(user) =>
      var (feed, found) := TryGet(m.feed, user, now);
      (m.(feed := feed), FeedReply(found, now))
    case PutFeed(user, ids, ttl) => (m.(feed := Put(m.feed, user, ids, ttl, now)), Done)
    case TouchFeed(user, extendBy) => (m.(feed := Touch(m.feed, user, extendBy, now)), Done)
    case DropFeed(user) => (m.(feed := m.feed - {user}), Done)
    case TryGetGptRanked(user) =>
      var (gpt, found) := TryGet(m.gpt, user, now);
      (m.(gpt := gpt), IdsReply(found))
    case PutGptRanked(user, ids, ttl) => (m.(gpt := Put(m.gpt, user, ids, ttl, now)), Done)
    case TryGetSimilar(anchor) =>
      var (similar, found) := TryGet(m.similar, anchor, now);
      (m.(similar := similar), IdsReply(found))
    case PutSimilar(anchor, ids, ttl) => (m.(similar := Put(m.similar, anchor, ids, ttl, now)), Done)
    case TryGetPopularGlobal =>
      var (m', found) := TryGetPopular(m, now);
      (m', IdsReply(found))
    case PutPopularGlobal(ids, ttl) =>
      (m.(popular := TimedIds(ids, now + ttl * MS), popularInited := true), Done)
    case InvalidateUserDerived(user) => (m.(gpt := m.gpt - {user}), Done)
    case TryReserve(token, ttl) =>
      var (held, ok) := Reserve(m.idempotency, token, ttl, now);
      (m.(idempotency := held), Reserved(ok))
    case LastSeenUtc(_) => (m, Done)
    case MarkSeenUtc(_) => (m, Done)
  }

  /** A read finds a cell that has not expired, and erases one that has; it changes nothing else. */
  lemma ReadsEraseExpired<K>(m: map<K, TimedIds>, k: K, now: int)
    ensures k in m && m[k].expiresAt <= now ==> TryGet(m, k, now) == (m - {k}, None)
    ensures k in m && now < m[k].expiresAt ==> TryGet(m, k, now) == (m, Some(m[k]))
    ensures k !in m ==> TryGet(m, k, now) == (m, None)
  {
  }

  /** The same for the one popular list: its flag is lowered when it is found expired. */
  lemma PopularFlagFollowsExpiry(m: Mem, now: int)
    ensures var (m', reply) := MemStep(m, now, TryGetPopularGlobal);
      if m.popularInited && now < m.popular.expiresAt then m' == m && reply == Ids(Some(m.popular.ids))
      else m' == m.(popularInited := false) && reply == Ids(None)
  {
  }

  /** Extending an expired feed erases it. */
  lemma TouchErasesExpired(m: Mem, user: string, extendBy: int, now: int)
    requires extendBy > 0 && user in m.feed && m.feed[user].expiresAt <= now
    ensures MemStep(m, now, TouchFeed(user, extendBy)).0 == m.(feed := m.feed - {user})
  {
  }

  /** The whole in-process deployment: the maps and the visit ledger, which never forgets. */
  datatype Local = Local(mem: Mem, lastSeen: map<string, int>)

  const EMPTY_LOCAL := Local(EMPTY_MEM, map[])

  function LookUp<K, V>(m: map<K, V>, k: K): Option<V>
  {
    if k in m then Some(m[k]) else None
  }

  function LocalStep(s: Local, now: int, call: Call): (Local, Reply)
  {
    match call
    case LastSeenUtc(user) => (s, Seen(LookUp(s.lastSeen, user)))
    case MarkSeenUtc(user) => (s.(lastSeen := s.lastSeen[user := now]), Done)
    case _ =>
      var (mem, reply) := MemStep(s.mem, now, call);
      (s.(mem := mem), reply)
  }

  class RhythmData {
    var feed: map<string, TimedIds>
    var gpt: map<string, TimedIds>
    var similar: map<ProductId, TimedIds>
    var popular: TimedIds
    var popularInited: bool
    var idempotency: map<string, int>

    ghost function Value(): Mem
      reads this
    {
      Mem(feed, gpt, similar, popular, popularInited, idempotency)
    }

    constructor ()
      ensures Value() == EMPTY_MEM
    {
      feed, gpt, similar, idempotency := map[], map[], map[], map[];
      popular, popularInited := TimedIds([], 0), false;
    }

    method TryGetFeed(user: string, now: int) returns (r: Option<FeedCacheEntry>)
      modifies this
      ensures (Value(), Feed(r)) == MemStep(old(Value()), now, Call.TryGetFeed(user))
    {
      if user !in feed {
        return None;
      }
      if feed[user].expiresAt <= now {
        feed := feed - {user};
        return None;
      }
      var ttlLeft := (feed[user].expiresAt - now) / MS;
      return Some(FeedCacheEntry(feed[user].ids, ttlLeft));
    }

    method PutFeed(user: string, ids: seq<ProductId>, ttl: int, now: int)
      modifies this
      ensures Value() == MemStep(old(Value()), now, Call.PutFeed(user, ids, ttl)).0
    {
      feed := feed[user := TimedIds(ids, now + ttl * MS)];
    }

    method TouchFeed(user: string, extendBy: int, now: int)
      modifies this
      ensures Value() == MemStep(old(Value()), now, Call.TouchFeed(user, extendBy)).0
    {
      if extendBy <= 0 {
        return;
      }
      if user !in feed {
        return;
      }
      var cell := feed[user];
      if cell.expiresAt <= now {
        feed := feed - {user};
        return;
      }
      feed := feed[user := cell.(expiresAt := cell.expiresAt + extendBy * MS)];
    }

    method DropFeed(user: string)
      modifies this
      ensures Value() == old(Value()).(feed := old(feed) - {user})
    {
      feed := feed - {user};
    }

    method TryGetGptRanked(user: string, now: int) returns (r: Option<seq<ProductId>>)
      modifies this
      ensures (Value(), Ids(r)) == MemStep(old(Value()), now, Call.TryGetGptRanked(user))
    {
      if user !in gpt {
        return None;
      }
      if IsExpired(gpt[user].expiresAt, now) {
        gpt := gpt - {user};
        return None;
      }
      return Some(gpt[user].ids);
    }

    method PutGptRanked(user: string, ids: seq<ProductId>, ttl: int, now: int)
      modifies this
      ensures Value() == MemStep(old(Value()), now, Call.PutGptRanked(user, ids, ttl)).0
    {
      gpt := gpt[user := TimedIds(ids, now + ttl * MS)];
    }

    method TryGetSimilar(anchor: ProductId, now: int) returns (r: Option<seq<ProductId>>)
      modifies this
      ensures (Value(), Ids(r)) == MemStep(old(Value()), now, Call.TryGetSimilar(anchor))
    {
      if anchor !in similar {
        return None;
      }
      if IsExpired(similar[anchor].expiresAt, now) {
        similar := similar - {anchor};
        return None;
      }
      return Some(similar[anchor].ids);
    }

    method PutSimilar(anchor: ProductId, ids: seq<ProductId>, ttl: int, now: int)
      modifies this
      ensures Value() == MemStep(old(Value()), now, Call.PutSimilar(anchor, ids, ttl)).0
    {
      similar := similar[anchor := TimedIds(ids, now + ttl * MS)];
    }

    method TryGetPopularGlobal(now: int) returns (r: Option<seq<ProductId>>)
      modifies this
      ensures (Value(), Ids(r)) == MemStep(old(Value()), now, Call.TryGetPopularGlobal)
    {
      if !popularInited {
        return None;
      }
      if IsExpired(popular.expiresAt, now) {
        popularInited := false;
        return None;
      }
      return Some(popular.ids);
    }

    method PutPopularGlobal(ids: seq<ProductId>, ttl: int, now: int)
      modifies this
      ensures Value() == MemStep(old(Value()), now, Call.PutPopularGlobal(ids, ttl)).0
    {
      popular := TimedIds(ids, now + ttl * MS);
      popularInited := true;
    }

    method InvalidateUserDerived(user: string)
      modifies this
      ensures Value() == old(Value()).(gpt := old(gpt) - {user})
    {
      gpt := gpt - {user};
    }

    method TryReserve(token: string, ttl: int, now: int) returns (ok: bool)
      modifies this
      ensures (Value(), Reserved(ok)) == MemStep(old(Value()), now, Call.TryReserve(token, ttl))
    {
      if token == "" {
        return false;
      }
      var until := now + ttl * MS;
      if token in idempotency && idempotency[token] > now {
        return false;
      }
      idempotency := idempotency[token := until];
      return true;
    }
  }

  class VisitLedger {
    var lastSeen: map<string, int>

    constructor ()
      ensures lastSeen == map[]
    {
      lastSeen := map[];
    }

    method LastSeenUtc(user: string) returns (r: Option<int>)
      ensures r == LookUp(lastSeen, user)
    {
      if user !in lastSeen {
        return None;
      }
      return Some(lastSeen[user]);
    }

    method MarkSeenUtc(user: string, now: int)
      modifies this
      ensures lastSeen == old(lastSeen)[user := now]
    {
      lastSeen := lastSeen[user := now];
    }
  }
}
