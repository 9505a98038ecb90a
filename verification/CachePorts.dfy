/**
  The cache, idempotency and visit ports as a protocol of calls and replies.  A backend is a state
  together with a step that answers one call at one clock reading (milliseconds; TTLs are seconds).
 */
module CachePorts {
  import opened Wrappers

  datatype FeedCacheEntry = FeedCacheEntry(productIds: seq<ProductId>, ttlRemaining: int)

  datatype Call =
    | TryGetFeed(user: string)
    | PutFeed(user: string, ids: seq<ProductId>, ttl: int)
    | TouchFeed(user: string, extendBy: int)
    | DropFeed(user: string)
    | TryGetGptRanked(user: string)
    | PutGptRanked(user: string, ids: seq<ProductId>, ttl: int)
    | TryGetSimilar(anchor: ProductId)
    | PutSimilar(anchor: ProductId, ids: seq<ProductId>, ttl: int)
    | TryGetPopularGlobal
    | PutPopularGlobal(ids: seq<ProductId>, ttl: int)
    | InvalidateUserDerived(user: string)
    | TryReserve(token: string, ttl: int)
    | LastSeenUtc(user: string)
    | MarkSeenUtc(user: string)

  datatype Reply =
    | Done
    | Feed(entry: Option<FeedCacheEntry>)
    | Ids(found: Option<seq<ProductId>>)
    | Reserved(ok: bool)
    | Seen(at: Option<int>)
  {
    function AsFeed(): Option<FeedCacheEntry>
    {
      if Feed? then entry else None
    }

    function AsIds(): Option<seq<ProductId>>
    {
      if Ids? then found else None
    }

    function AsSeen(): Option<int>
    {
      if Seen? then at else None
    }
  }

  type Step<!S> = (S, int, Call) -> (S, Reply)
}
