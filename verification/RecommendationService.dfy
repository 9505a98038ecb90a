/**
  GET /recommend: the visit decision, the feed cache with its lifetime extension, and the fan-out over
  four sources behind side caches.  `Serve` is parametric in the backend, as the source is in its ports;
  the class runs it on the in-process backend.
 */
module RecommendationService {
  import opened Wrappers
  import opened TtlPolicy
  import opened Ranking
  import opened CachePorts
  import InMemory = InMemoryRhythmData
  import Merge = FanOutMerge

  /** The answers the behaviour store and the ranking model would give to one request. */
  datatype Ports = Ports(
    recent: (string, nat) -> seq<ProductId>,
    popular: nat -> seq<ProductId>,
    neighbours: (ProductId, nat) -> seq<ProductId>,
    rank: (string, nat) -> seq<ProductId>)

  const HISTORY_LIMIT := 120
  const POPULAR_LIMIT := 120
  const SIMILAR_LIMIT := 60

  /**
    The clock readings of one request in program order.  A hit uses `classify`, `recheck` and `touch`;
    a miss uses the readings of the side caches and `put`.
   */
  datatype Readings = Readings(
    seen: int, decide: int, mark: int, lookup: int,
    classify: int, recheck: int, touch: int,
    popularGet: int, popularPut: int, gptGet: int, gptPut: int, similarGet: int, similarPut: int, put: int)
  {
    predicate Ordered()
    {
      && seen <= decide <= mark <= lookup
      && lookup <= classify <= recheck <= touch
      && lookup <= popularGet <= popularPut <= gptGet <= gptPut <= similarGet <= similarPut <= put
    }

    /** No reading of a later request precedes these. */
    function Last(): int
    {
      if touch < put then put else touch
    }
  }

  /** A request during which the clock is read once. */
  function Once(t: int): (c: Readings)
    ensures c.Ordered()
  {
    Readings(t, t, t, t, t, t, t, t, t, t, t, t, t, t)
  }

  function SimilarAnchor(history: seq<ProductId>, popular: seq<ProductId>): ProductId
  {
    if history != [] then history[0] else if popular != [] then popular[0] else 0
  }

  function FetchPopular<S>(step: Step<S>, s: S, c: Readings, p: Ports): (S, seq<ProductId>)
  {
    var (s1, reply) := step(s, c.popularGet, TryGetPopularGlobal);
    if reply.AsIds().Some? then (s1, reply.AsIds().value)
    else
      var popular := p.popular(POPULAR_LIMIT);
      (step(s1, c.popularPut, PutPopularGlobal(popular, POPULAR_PRODUCTS_TTL)).0, popular)
  }

  function FetchGpt<S>(step: Step<S>, s: S, user: string, c: Readings, p: Ports): (S, seq<ProductId>)
  {
    var (s1, reply) := step(s, c.gptGet, TryGetGptRanked(user));
    if reply.AsIds().Some? then (s1, reply.AsIds().value)
    else
      var ranked := p.rank(user, GPT_RECOMMENDATION_IDS);
      (step(s1, c.gptPut, PutGptRanked(user, ranked, GPT_RANKING_TTL)).0, ranked)
  }

  /** The catalogue neighbours of an anchor, or popular products when there are none. */
  function SimilarTo(p: Ports, anchor: ProductId): seq<ProductId>
  {
    var neighbours := p.neighbours(anchor, SIMILAR_LIMIT);
    if neighbours == [] then p.popular(SIMILAR_LIMIT) else neighbours
  }

  function FetchSimilar<S>(step: Step<S>, s: S, anchor: ProductId, c: Readings, p: Ports): (S, seq<ProductId>)
  {
    if anchor == 0 then (s, [])
    else
      var (s1, reply) := step(s, c.similarGet, TryGetSimilar(anchor));
      if reply.AsIds().Some? then (s1, reply.AsIds().value)
      else
        var similar := SimilarTo(p, anchor);
        (step(s1, c.similarPut, PutSimilar(anchor, similar, SIMILAR_PRODUCTS_TTL)).0, similar)
  }

  function FanOut<S>(step: Step<S>, s: S, user: string, c: Readings, p: Ports): (S, Sources)
  {
    var history := p.recent(user, HISTORY_LIMIT);
    var (s1, popular) := FetchPopular(step, s, c, p);
    var (s2, gptRanked) := FetchGpt(step, s1, user, c, p);
    var (s3, similar) := FetchSimilar(step, s2, SimilarAnchor(history, popular), c, p);
    (s3, Sources(history, popular, gptRanked, similar))
  }

  datatype Outcome =
    | Hit(answer: seq<ProductId>, extension: int)
    | Miss(answer: seq<ProductId>, sources: Sources)

  /** The ids a miss stores in the feed cache. */
  function StoredFeed(src: Sources): seq<ProductId>
  {
    TakeTop(Rank(src), GPT_RECOMMENDATION_IDS)
  }

  /** Everything up to the feed lookup: the previous visit, the state, and the reply. */
  function LookUpFeed<S>(step: Step<S>, s: S, user: string, c: Readings): (S, Option<int>, Option<FeedCacheEntry>)
  {
    var (s1, seen) := step(s, c.seen, LastSeenUtc(user));
    var prev := seen.AsSeen();
    var s2 := if ShouldInvalidateFeed(prev, c.decide) then step(s1, c.decide, DropFeed(user)).0 else s1;
    var s3 := step(s2, c.mark, MarkSeenUtc(user)).0;
    var (s4, found) := step(s3, c.lookup, TryGetFeed(user));
    (s4, prev, found.AsFeed())
  }

  function Serve<S>(step: Step<S>, s: S, user: string, c: Readings, p: Ports): (S, Outcome)
  {
    var (s1, prev, cached) := LookUpFeed(step, s, user, c);
    if cached.Some? then
      var extension := ExtendFeedTtlOnHit(ClassifyVisit(prev, c.classify, c.recheck));
      var answer := TakeTop(cached.value.productIds, FEED_LIST_SIZE);
      (step(s1, c.touch, TouchFeed(user, extension)).0, Hit(answer, extension))
    else
      var (s2, sources) := FanOut(step, s1, user, c, p);
      var top := StoredFeed(sources);
      (step(s2, c.put, PutFeed(user, top, FEED_KEY_TTL)).0, Miss(TakeTop(top, FEED_LIST_SIZE), sources))
  }

  class Service {
    const cache: InMemory.RhythmData
    const visits: InMemory.VisitLedger

    constructor (cache: InMemory.RhythmData, visits: InMemory.VisitLedger)
      ensures this.cache == cache && this.visits == visits
    {
      this.cache := cache;
      this.visits := visits;
    }

    ghost function State(): InMemory.Local
      reads this, cache, visits
    {
      InMemory.Local(cache.Value(), visits.lastSeen)
    }

    // FetchSources, one side cache at a time.

    method PopularList(c: Readings, p: Ports) returns (popular: seq<ProductId>)
      modifies cache
      ensures (State(), popular) == FetchPopular(InMemory.LocalStep, old(State()), c, p)
    {
      var cached := cache.TryGetPopularGlobal(c.popularGet);
      if cached.Some? {
        return cached.value;
      }
      popular := p.popular(POPULAR_LIMIT);
      cache.PutPopularGlobal(popular, POPULAR_PRODUCTS_TTL, c.popularPut);
    }

    method GptList(user: string, c: Readings, p: Ports) returns (gptRanked: seq<ProductId>)
      modifies cache
      ensures (State(), gptRanked) == FetchGpt(InMemory.LocalStep, old(State()), user, c, p)
    {
      var cached := cache.TryGetGptRanked(user, c.gptGet);
      if cached.Some? {
        return cached.value;
      }
      gptRanked := p.rank(user, GPT_RECOMMENDATION_IDS);
      cache.PutGptRanked(user, gptRanked, GPT_RANKING_TTL, c.gptPut);
    }

    method SimilarList(anchor: ProductId, c: Readings, p: Ports) returns (similar: seq<ProductId>)
      modifies cache
      ensures (State(), similar) == FetchSimilar(InMemory.LocalStep, old(State()), anchor, c, p)
    {
      similar := [];
      if anchor != 0 {
        var cached := cache.TryGetSimilar(anchor, c.similarGet);
        if cached.Some? {
          return cached.value;
        }
        similar := p.neighbours(anchor, SIMILAR_LIMIT);
        if similar == [] {
          similar := p.popular(SIMILAR_LIMIT);
        }
        cache.PutSimilar(anchor, similar, SIMILAR_PRODUCTS_TTL, c.similarPut);
      }
    }

    method FetchSources(user: string, c: Readings, p: Ports) returns (sources: Sources)
      modifies cache
      ensures (State(), sources) == FanOut(InMemory.LocalStep, old(State()), user, c, p)
    {
      var history := p.recent(user, HISTORY_LIMIT);
      var popular := PopularList(c, p);
      var gptRanked := GptList(user, c, p);
      var anchor: ProductId := 0;
      if history != [] {
        anchor := history[0];
      } else if popular != [] {
        anchor := popular[0];
      }
      var similar := SimilarList(anchor, c, p);
      sources := Sources(history, popular, gptRanked, similar);
    }

    /** The visit decision and the feed lookup, up to the branch on a hit. */
    method LookUp(user: string, c: Readings) returns (prevSeen: Option<int>, cached: Option<FeedCacheEntry>)
      modifies cache, visits
      ensures (State(), prevSeen, cached) == LookUpFeed(InMemory.LocalStep, old(State()), user, c)
    {
      prevSeen := visits.LastSeenUtc(user);
      if ShouldInvalidateFeed(prevSeen, c.decide) {
        cache.DropFeed(user);
      }
      visits.MarkSeenUtc(user, c.mark);
      cached := cache.TryGetFeed(user, c.lookup);
    }

    method GetRecommendations(user: string, c: Readings, p: Ports) returns (answer: seq<ProductId>)
      modifies cache, visits
      ensures State() == Serve(InMemory.LocalStep, old(State()), user, c, p).0
      ensures answer == Serve(InMemory.LocalStep, old(State()), user, c, p).1.answer
    {
      var prevSeen, cached := LookUp(user, c);
      if cached.Some? {
        var recency := ClassifyVisit(prevSeen, c.classify, c.recheck);
        cache.TouchFeed(user, ExtendFeedTtlOnHit(recency), c.touch);
        return TakeTop(cached.value.productIds, FEED_LIST_SIZE);
      }
      var sources := FetchSources(user, c, p);
      var merged := Merge.FanOutMerge(sources);
      var topRanked := TakeTop(merged, GPT_RECOMMENDATION_IDS);
      cache.PutFeed(user, topRanked, FEED_KEY_TTL, c.put);
      return TakeTop(topRanked, FEED_LIST_SIZE);
    }
  }
}
