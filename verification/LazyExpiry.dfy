/**
  Lazy expiry refines eager expiry.  The eager store forgets every cell at the very instant it expires
  and has no expiry test in any operation; the lazily expiring maps answer every run of calls alike.
 */
module LazyExpiry {
  import opened Wrappers
  import opened TtlPolicy
  import opened CachePorts
  import opened InMemoryRhythmData

  datatype Eager = Eager(
    feed: map<string, TimedIds>,
    gpt: map<string, TimedIds>,
    similar: map<ProductId, TimedIds>,
    popular: Option<TimedIds>,
    idempotency: map<string, int>)

  const EMPTY_EAGER := Eager(map[], map[], map[], None, map[])

  function ForgetCells<K>(m: map<K, TimedIds>, now: int): map<K, TimedIds>
  {
    map k | k in m && now < m[k].expiresAt :: m[k]
  }

  function ForgetTokens(held: map<string, int>, now: int): map<string, int>
  {
    map k | k in held && now < held[k] :: held[k]
  }

  /** What is left of a store when the clock reaches `now`. */
  function Forget(s: Eager, now: int): Eager
  {
    Eager(
      ForgetCells(s.feed, now),
      ForgetCells(s.gpt, now),
      ForgetCells(s.similar, now),
      LivePopular(s.popular, now),
      ForgetTokens(s.idempotency, now))
  }

  /** A call on plain maps that hold live cells only. */
  function OnLiveCells(s: Eager, now: int, call: Call): (Eager, Reply)
  {
    match call
    case TryGetFeed(user) => (s, FeedReply(LookUp(s.feed, user), now))
    case PutFeed(user, ids, ttl) => (s.(feed := Put(s.feed, user, ids, ttl, now)), Done)
    case TouchFeed(user, extendBy) =>
      if user in s.feed && extendBy > 0 then
        (s.(feed := s.feed[user := TimedIds(s.feed[user].ids, s.feed[user].expiresAt + extendBy * MS)]), Done)
      else (s, Done)
    case DropFeed(user) => (s.(feed := s.feed - {user}), Done)
    case TryGetGptRanked(user) => (s, IdsReply(LookUp(s.gpt, user)))
    case PutGptRanked(user, ids, ttl) => (s.(gpt := Put(s.gpt, user, ids, ttl, now)), Done)
    case TryGetSimilar(anchor) => (s, IdsReply(LookUp(s.similar, anchor)))
    case PutSimilar(anchor, ids, ttl) => (s.(similar := Put(s.similar, anchor, ids, ttl, now)), Done)
    case TryGetPopularGlobal => (s, IdsReply(s.popular))
    case PutPopularGlobal(ids, ttl) => (s.(popular := Some(TimedIds(ids, now + ttl * MS))), Done)
    case InvalidateUserDerived(user) => (s.(gpt := s.gpt - {user}), Done)
    case TryReserve(token, ttl) =>
      if token != "" && token !in s.idempotency then
        (s.(idempotency := s.idempotency[token := now + ttl * MS]), Reserved(true))
      else (s, Reserved(false))
    case LastSeenUtc(_) => (s, Done)
    case MarkSeenUtc(_) => (s, Done)
  }

  function EagerStep(s: Eager, now: int, call: Call): (Eager, Reply)
  {
    OnLiveCells(Forget(s, now), now, call)
  }

  /** The cells of the concrete maps, with the popular flag read as presence. */
  function Cells(m: Mem): Eager
  {
    Eager(m.feed, m.gpt, m.similar, if m.popularInited then Some(m.popular) else None, m.idempotency)
  }

  function LivePopular(popular: Option<TimedIds>, now: int): Option<TimedIds>
  {
    if popular.Some? && now < popular.value.expiresAt then popular else None
  }

  function LiveCell<K>(m: map<K, TimedIds>, k: K, now: int): Option<TimedIds>
  {
    if k in m && now < m[k].expiresAt then Some(m[k]) else None
  }

  function LiveToken(held: map<string, int>, token: string, now: int): Option<int>
  {
    if token in held && now < held[token] then Some(held[token]) else None
  }

  ghost predicate SameCells<K(!new)>(a: map<K, TimedIds>, b: map<K, TimedIds>, now: int)
  {
    forall k :: LiveCell(a, k, now) == LiveCell(b, k, now)
  }

  ghost predicate SameTokens(a: map<string, int>, b: map<string, int>, now: int)
  {
    forall token :: LiveToken(a, token, now) == LiveToken(b, token, now)
  }

  /** The live views at `now` coincide. */
  ghost predicate SameView(m: Mem, s: Eager, now: int)
  {
    && SameCells(m.feed, s.feed, now)
    && SameCells(m.gpt, s.gpt, now)
    && SameCells(m.similar, s.similar, now)
    && LivePopular(Cells(m).popular, now) == LivePopular(s.popular, now)
    && SameTokens(m.idempotency, s.idempotency, now)
  }

  lemma SameCellsLater<K(!new)>(a: map<K, TimedIds>, b: map<K, TimedIds>, now: int, later: int)
    requires SameCells(a, b, now) && now <= later
    ensures SameCells(a, b, later)
  {
    forall k ensures LiveCell(a, k, later) == LiveCell(b, k, later) {
      assert LiveCell(a, k, now) == LiveCell(b, k, now);
    }
  }

  lemma SameViewLater(m: Mem, s: Eager, now: int, later: int)
    requires SameView(m, s, now) && now <= later
    ensures SameView(m, s, later)
  {
    SameCellsLater(m.feed, s.feed, now, later);
    SameCellsLater(m.gpt, s.gpt, now, later);
    SameCellsLater(m.similar, s.similar, now, later);
    forall token ensures LiveToken(m.idempotency, token, later) == LiveToken(s.idempotency, token, later) {
      assert LiveToken(m.idempotency, token, now) == LiveToken(s.idempotency, token, now);
    }
  }

  /** Forgetting what has expired is invisible. */
  lemma ForgettingIsInvisible(m: Mem, s: Eager, now: int)
    requires SameView(m, s, now)
    ensures SameView(m, Forget(s, now), now)
  {
    var live := Forget(s, now);
    assert forall k :: LiveCell(live.feed, k, now) == LiveCell(s.feed, k, now);
    assert forall k :: LiveCell(live.gpt, k, now) == LiveCell(s.gpt, k, now);
    assert forall k :: LiveCell(live.similar, k, now) == LiveCell(s.similar, k, now);
    assert forall k :: LiveToken(live.idempotency, k, now) == LiveToken(s.idempotency, k, now);
  }

  /** Every cell still in the map is live. */
  ghost predicate AllLive<K>(m: map<K, TimedIds>, now: int)
  {
    forall k :: k in m ==> now < m[k].expiresAt
  }

  /** A lookup finds exactly the live cell, and erasing an expired one does not change the view. */
  lemma TryGetSeesLiveCells<K(!new)>(m: map<K, TimedIds>, live: map<K, TimedIds>, k: K, now: int)
    requires SameCells(m, live, now) && AllLive(live, now)
    ensures TryGet(m, k, now).1 == LookUp(live, k)
    ensures SameCells(TryGet(m, k, now).0, live, now)
  {
    assert LiveCell(m, k, now) == LiveCell(live, k, now);
    forall x ensures LiveCell(TryGet(m, k, now).0, x, now) == LiveCell(live, x, now) {
      assert LiveCell(m, x, now) == LiveCell(live, x, now);
    }
  }

  lemma SameCellsAfterUpdate<K(!new)>(m: map<K, TimedIds>, live: map<K, TimedIds>, k: K, cell: TimedIds, now: int)
    requires SameCells(m, live, now)
    ensures SameCells(m[k := cell], live[k := cell], now)
    ensures SameCells(m - {k}, live - {k}, now)
  {
    var put, put' := m[k := cell], live[k := cell];
    forall x ensures LiveCell(put, x, now) == LiveCell(put', x, now) {
      assert LiveCell(m, x, now) == LiveCell(live, x, now);
    }
    var cut, cut' := m - {k}, live - {k};
    forall x ensures LiveCell(cut, x, now) == LiveCell(cut', x, now) {
      assert LiveCell(m, x, now) == LiveCell(live, x, now);
    }
  }

  lemma TouchExtendsLiveCells(m: map<string, TimedIds>, live: map<string, TimedIds>, k: string, extendBy: int, now: int)
    requires SameCells(m, live, now) && AllLive(live, now)
    ensures SameCells(
              Touch(m, k, extendBy, now),
              if k in live && extendBy > 0
              then live[k := TimedIds(live[k].ids, live[k].expiresAt + extendBy * MS)] else live,
              now)
  {
    assert LiveCell(m, k, now) == LiveCell(live, k, now);
    forall x ensures LiveCell(m - {k}, x, now) == LiveCell(live - {k}, x, now) {
      assert LiveCell(m, x, now) == LiveCell(live, x, now);
    }
    if k in live {
      SameCellsAfterUpdate(m, live, k, TimedIds(live[k].ids, live[k].expiresAt + extendBy * MS), now);
    } else {
      assert live - {k} == live;
    }
  }

  lemma ReserveSeesLiveTokens(held: map<string, int>, live: map<string, int>, token: string, ttl: int, now: int)
    requires SameTokens(held, live, now) && forall t :: t in live ==> now < live[t]
    ensures Reserve(held, token, ttl, now).1 == (token != "" && token !in live)
    ensures SameTokens(
              Reserve(held, token, ttl, now).0,
              if Reserve(held, token, ttl, now).1 then live[token := now + ttl * MS] else live,
              now)
  {
    assert LiveToken(held, token, now) == LiveToken(live, token, now);
    var held', live' := held[token := now + ttl * MS], live[token := now + ttl * MS];
    forall t ensures LiveToken(held', t, now) == LiveToken(live', t, now) {
      assert LiveToken(held, t, now) == LiveToken(live, t, now);
    }
  }

  ghost predicate StepAgrees(m: Mem, s: Eager, now: int, call: Call)
  {
    && MemStep(m, now, call).1 == EagerStep(s, now, call).1
    && SameView(MemStep(m, now, call).0, EagerStep(s, now, call).0, now)
  }

  lemma FeedStepIsEager(m: Mem, s: Eager, now: int, call: Call)
    requires SameView(m, s, now)
    requires call.TryGetFeed? || call.PutFeed? || call.TouchFeed? || call.DropFeed?
    ensures StepAgrees(m, s, now, call)
  {
    hide SameCells, SameTokens, Touch, TryGet, Reserve;
    ForgettingIsInvisible(m, s, now);
    var live := Forget(s, now);
    match call
    case TryGetFeed(user) => TryGetSeesLiveCells(m.feed, live.feed, user, now);
    case PutFeed(user, ids, ttl) => SameCellsAfterUpdate(m.feed, live.feed, user, TimedIds(ids, now + ttl * MS), now);
    case TouchFeed(user, extendBy) =>
      TouchExtendsLiveCells(m.feed, live.feed, user, extendBy, now);
    case DropFeed(user) => SameCellsAfterUpdate(m.feed, live.feed, user, TimedIds([], 0), now);
  }

  lemma GptStepIsEager(m: Mem, s: Eager, now: int, call: Call)
    requires SameView(m, s, now)
    requires call.TryGetGptRanked? || call.PutGptRanked? || call.InvalidateUserDerived?
    ensures StepAgrees(m, s, now, call)
  {
    ForgettingIsInvisible(m, s, now);
    var live := Forget(s, now);
    match call
    case TryGetGptRanked(user) => TryGetSeesLiveCells(m.gpt, live.gpt, user, now);
    case PutGptRanked(user, ids, ttl) =>
      SameCellsAfterUpdate(m.gpt, live.gpt, user, TimedIds(ids, now + ttl * MS), now);
    case InvalidateUserDerived(user) => SameCellsAfterUpdate(m.gpt, live.gpt, user, TimedIds([], 0), now);
  }

  lemma SimilarStepIsEager(m: Mem, s: Eager, now: int, call: Call)
    requires SameView(m, s, now)
    requires call.TryGetSimilar? || call.PutSimilar?
    ensures StepAgrees(m, s, now, call)
  {
    ForgettingIsInvisible(m, s, now);
    var live := Forget(s, now);
    match call
    case TryGetSimilar(anchor) => TryGetSeesLiveCells(m.similar, live.similar, anchor, now);
    case PutSimilar(anchor, ids, ttl) =>
      SameCellsAfterUpdate(m.similar, live.similar, anchor, TimedIds(ids, now + ttl * MS), now);
  }

  lemma GlobalStepIsEager(m: Mem, s: Eager, now: int, call: Call)
    requires SameView(m, s, now)
    requires call.TryGetPopularGlobal? || call.PutPopularGlobal? || call.TryReserve? || call.LastSeenUtc?
             || call.MarkSeenUtc?
    ensures StepAgrees(m, s, now, call)
  {
    ForgettingIsInvisible(m, s, now);
    if call.TryReserve? {
      ReserveSeesLiveTokens(m.idempotency, Forget(s, now).idempotency, call.token, call.ttl, now);
    }
  }

  /** A lazy step answers like an eager step from any store with the same view, and keeps the views equal. */
  lemma LazyStepIsEager(m: Mem, s: Eager, now: int, call: Call)
    requires SameView(m, s, now)
    ensures StepAgrees(m, s, now, call)
  {
    if call.TryGetFeed? || call.PutFeed? || call.TouchFeed? || call.DropFeed? {
      FeedStepIsEager(m, s, now, call);
    } else if call.TryGetGptRanked? || call.PutGptRanked? || call.InvalidateUserDerived? {
      GptStepIsEager(m, s, now, call);
    } else if call.TryGetSimilar? || call.PutSimilar? {
      SimilarStepIsEager(m, s, now, call);
    } else {
      GlobalStepIsEager(m, s, now, call);
    }
  }

  // Runs: a sequence of timed calls.

  datatype TimedCall = TimedCall(now: int, call: Call)

  ghost predicate Ordered(calls: seq<TimedCall>)
  {
    forall i, j :: 0 <= i < j < |calls| ==> calls[i].now <= calls[j].now
  }

  function LazyRun(m: Mem, calls: seq<TimedCall>): seq<Reply>
    decreases |calls|
  {
    if calls == [] then []
    else
      var (m', reply) := MemStep(m, calls[0].now, calls[0].call);
      [reply] + LazyRun(m', calls[1..])
  }

  function EagerRun(s: Eager, calls: seq<TimedCall>): seq<Reply>
    decreases |calls|
  {
    if calls == [] then []
    else
      var (s', reply) := EagerStep(s, calls[0].now, calls[0].call);
      [reply] + EagerRun(s', calls[1..])
  }

  /** Every run of calls on a clock that does not go backwards gets the same replies from both stores. */
  lemma {:induction false} LazyRunRefinesEagerRun(m: Mem, s: Eager, start: int, calls: seq<TimedCall>)
    requires SameView(m, s, start)
    requires Ordered(calls) && (calls != [] ==> start <= calls[0].now)
    ensures LazyRun(m, calls) == EagerRun(s, calls)
    decreases |calls|
  {
    if calls != [] {
      var now, call := calls[0].now, calls[0].call;
      SameViewLater(m, s, start, now);
      LazyStepIsEager(m, s, now, call);
      LazyRunRefinesEagerRun(MemStep(m, now, call).0, EagerStep(s, now, call).0, now, calls[1..]);
    }
  }

  /** In particular the two stores cannot be told apart by any run that starts with empty ones. */
  lemma EmptyStoresRunAlike(calls: seq<TimedCall>)
    requires Ordered(calls)
    ensures LazyRun(EMPTY_MEM, calls) == EagerRun(EMPTY_EAGER, calls)
  {
    if calls != [] {
      LazyRunRefinesEagerRun(EMPTY_MEM, EMPTY_EAGER, calls[0].now, calls);
    }
  }

  // Framing: a call leaves the live cells of every other user, anchor and token as they were.

  predicate ConcernsUser(call: Call, user: string)
  {
    (call.TryGetFeed? || call.PutFeed? || call.TouchFeed? || call.DropFeed? || call.TryGetGptRanked?
     || call.PutGptRanked? || call.InvalidateUserDerived?) && call.user == user
  }

  predicate ConcernsAnchor(call: Call, anchor: ProductId)
  {
    (call.TryGetSimilar? || call.PutSimilar?) && call.anchor == anchor
  }

  lemma CallsLeaveOthersUntouched(m: Mem, now: int, call: Call, t: int, user: string, anchor: ProductId, token: string)
    requires now <= t
    ensures !ConcernsUser(call, user) ==>
              LiveCell(MemStep(m, now, call).0.feed, user, t) == LiveCell(m.feed, user, t)
              && LiveCell(MemStep(m, now, call).0.gpt, user, t) == LiveCell(m.gpt, user, t)
    ensures !ConcernsAnchor(call, anchor) ==>
              LiveCell(MemStep(m, now, call).0.similar, anchor, t) == LiveCell(m.similar, anchor, t)
    ensures !(call.TryReserve? && call.token == token) ==>
              LiveToken(MemStep(m, now, call).0.idempotency, token, t) == LiveToken(m.idempotency, token, t)
  {
  }
}
