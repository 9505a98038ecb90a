/**
  The protocol describes the deployment that has a worker: run alone, the steps of a request are the
  request of the service over the shared store, and the three deletes are the worker's invalidation.
 */
module ProtocolOnSharedStore {
  import opened Wrappers
  import opened TtlPolicy
  import opened Ranking
  import opened CachePorts
  import opened Decimal
  import opened IdListCodec
  import opened RedisKeyspace
  import opened RecommendationService
  import opened InvalidationProtocol
  import opened SharedStoreRuns
  import Scenarios = ProtocolScenarios
  import FeedRuns
  import InMemory = InMemoryRhythmData
  import Equivalence = ServiceEquivalence
  import Redis = RedisRhythmData

  /** For one user and one instant: the same feed, and a mark wherever the store knows a visit. */
  predicate ShowsShared(s: State, db: Redis.Db, user: string, now: int)
  {
    && (user in s.marks <==> SeenBefore(db, user, now).Some?)
    && match FeedFound(db, user, now)
       case None => user !in s.feeds
       case Some(entry) => user in s.feeds && entry.productIds == StoredFeed(s.feeds[user].sources)
  }

  lemma SeenDependsOnCell(db: Redis.Db, db': Redis.Db, user: string, now: int)
    requires VisitCell(db, user) == VisitCell(db', user)
    ensures SeenBefore(db, user, now) == SeenBefore(db', user, now)
  {
    hide Name, Stoll;
    assert Name(VisitLastKey(user)) in db <==> VisitCell(db, user).Some?;
    assert Name(VisitLastKey(user)) in db' <==> VisitCell(db', user).Some?;
  }

  /** The mark of a request is seen at once. */
  lemma MarkIsSeen(visitTtl: int, db: Redis.Db, user: string, now: int)
    requires visitTtl > 0 && 0 <= now < INT64_LIMIT && VisitCell(db, user) == Some(MarkCell(visitTtl, now))
    ensures SeenBefore(db, user, now) == Some(now)
  {
    hide Name, Stoll, ToDecimal;
    StollRoundTrip(now);
  }

  /** The feed of a miss is found at once. */
  lemma StoredIsFound(db: Redis.Db, user: string, ids: seq<ProductId>, expiry: int, now: int)
    requires FeedCell(db, user) == Some(Redis.Cell(EncodeIds(ids), Some(expiry))) && now <= expiry
    ensures FeedFound(db, user, now).Some? && FeedFound(db, user, now).value.productIds == ids
  {
    hide Name, EncodeIds, DecodeIds;
    IdListRoundTrip(ids);
  }

  /** A feed that was found is still found after it was extended. */
  lemma ExtendedIsFound(db: Redis.Db, db': Redis.Db, user: string, extendBy: int, now: int)
    requires FeedFound(db, user, now).Some? && FeedCell(db, user).Some?
    requires FeedCell(db', user) == Some(Extended(FeedCell(db, user).value, extendBy, now))
    ensures FeedFound(db', user, now).Some?
    ensures FeedFound(db', user, now).value.productIds == FeedFound(db, user, now).value.productIds
  {
    hide Name, DecodeIds;
  }

  ghost predicate AnswersAsShared(
    recent: History, s: State, db: Redis.Db, id: nat, r: FeedRuns.Request, now: int, db': Redis.Db, outcome: Outcome)
    requires id !in s.requests
  {
    var src := if outcome.Miss? then outcome.sources else Sources([], [], [], []);
    var stale := ShouldInvalidateFeed(SeenBefore(db, r.user, now), now);
    var s' := Scenarios.Alone(recent, s, id, r.user, stale, now, src);
    && s'.requests[id].phase.Finished?
    && Answer(s'.requests[id].phase.served) == outcome.answer
    && ShowsShared(s', db', r.user, now)
  }

  lemma AloneHitsAsShared(
    visitTtl: int, recent: History, s: State, db: Redis.Db, id: nat, r: FeedRuns.Request, now: int,
    db': Redis.Db, outcome: Outcome)
    requires id !in s.requests && r.clock == Once(now) && ShowsShared(s, db, r.user, now) && outcome.Hit?
    requires visitTtl > 0 && 0 <= now < INT64_LIMIT && SharedEffect(visitTtl, db, r, db', outcome)
    ensures AnswersAsShared(recent, s, db, id, r, now, db', outcome)
  {
    hide WorkerNext, StoredFeed, Scenarios.LookUpAlone, SeenBefore, FeedFound, Extended, FeedCell, VisitCell;
    hide MarkCell, ClassifyVisit;
    Scenarios.LookUpAloneEffect(recent, s, id, r.user, ShouldInvalidateFeed(SeenBefore(db, r.user, now), now));
    MarkIsSeen(visitTtl, db', r.user, now);
    ExtendedIsFound(db, db', r.user, outcome.extension, now);
  }

  lemma AloneMissesAsShared(
    visitTtl: int, recent: History, s: State, db: Redis.Db, id: nat, r: FeedRuns.Request, now: int,
    db': Redis.Db, outcome: Outcome)
    requires id !in s.requests && r.clock == Once(now) && ShowsShared(s, db, r.user, now) && outcome.Miss?
    requires r.ports.recent(r.user, HISTORY_LIMIT) == recent(now, s.rows, r.user)
    requires visitTtl > 0 && 0 <= now < INT64_LIMIT && SharedEffect(visitTtl, db, r, db', outcome)
    ensures AnswersAsShared(recent, s, db, id, r, now, db', outcome)
  {
    hide WorkerNext, StoredFeed, Scenarios.LookUpAlone, SeenBefore, FeedFound, Extended, FeedCell, VisitCell;
    hide MarkCell, EncodeIds;
    Scenarios.LookUpAloneEffect(recent, s, id, r.user, ShouldInvalidateFeed(SeenBefore(db, r.user, now), now));
    MarkIsSeen(visitTtl, db', r.user, now);
    StoredIsFound(db', r.user, StoredFeed(outcome.sources), now + FEED_KEY_TTL * MS, now);
  }

  /**
    Run without interference at one clock reading, the steps of a request answer as the service over the
    shared store does, for arbitrary user ids, and leave corresponding stores.
   */
  lemma AloneIsServeShared(
    visitTtl: int, recent: History, s: State, db: Redis.Db, id: nat, r: FeedRuns.Request, now: int)
    requires id !in s.requests && r.clock == Once(now) && ShowsShared(s, db, r.user, now)
    requires r.ports.recent(r.user, HISTORY_LIMIT) == recent(now, s.rows, r.user)
    requires visitTtl > 0 && 0 <= now < INT64_LIMIT
    ensures var (db', outcome) := Equivalence.ServeShared(visitTtl, db, r);
      AnswersAsShared(recent, s, db, id, r, now, db', outcome)
  {
    hide Equivalence.ServeShared, AnswersAsShared, SharedEffect;
    ServeHasSharedEffect(visitTtl, db, r);
    var (db', outcome) := Equivalence.ServeShared(visitTtl, db, r);
    if outcome.Hit? {
      AloneHitsAsShared(visitTtl, recent, s, db, id, r, now, db', outcome);
    } else {
      AloneMissesAsShared(visitTtl, recent, s, db, id, r, now, db', outcome);
    }
  }

  /** What the worker's invalidation does to the cells of each user. */
  lemma InvalidatedCells(db: Redis.Db, user: string, v: string)
    ensures FeedCell(Redis.Invalidated(db, user), v) == if v == user then None else FeedCell(db, v)
    ensures VisitCell(Redis.Invalidated(db, user), v) == if v == user then None else VisitCell(db, v)
  {
    hide Name;
    if v != user {
      NamesOfOthers(FeedKey(v), user);
      NamesOfOthers(VisitLastKey(v), user);
    }
  }

  lemma NamesOfOthers(k: Key, user: string)
    requires IsUserKey(k) && k.user != user
    ensures Name(k) !in {Name(FeedKey(user)), Name(GptRankKey(user)), Name(VisitLastKey(user))}
  {
    hide Name;
    if Name(k) == Name(FeedKey(user)) {
      UserKeysInjective(k, FeedKey(user));
    } else if Name(k) == Name(GptRankKey(user)) {
      UserKeysInjective(k, GptRankKey(user));
    } else if Name(k) == Name(VisitLastKey(user)) {
      UserKeysInjective(k, VisitLastKey(user));
    }
  }

  /** The three deletes with nothing in between. */
  function DeletesAlone(recent: History, s: State, at: nat): State
    requires Enabled(s, DeleteFeed(at))
  {
    Next(recent, Next(recent, Next(recent, s, DeleteFeed(at)), DeleteGpt(at)), DeleteMark(at))
  }

  /** They are the worker's invalidation, for the user of the row and for all others. */
  lemma DeletesAreInvalidation(recent: History, s: State, db: Redis.Db, at: nat, v: string, now: int)
    requires Enabled(s, DeleteFeed(at)) && ShowsShared(s, db, v, now)
    ensures ShowsShared(DeletesAlone(recent, s, at), Redis.Invalidated(db, s.rows[at].user), v, now)
  {
    hide RequestNext, SeenBefore, FeedFound, FeedCell, VisitCell, StoredFeed, Redis.Invalidated;
    var user := s.rows[at].user;
    var db' := Redis.Invalidated(db, user);
    InvalidatedCells(db, user, v);
    if v == user {
      NothingThere(v, now);
      FoundDependsOnCell(db', map[], v, now);
      SeenDependsOnCell(db', map[], v, now);
    } else {
      FoundDependsOnCell(db', db, v, now);
      SeenDependsOnCell(db', db, v, now);
    }
  }

  lemma NothingThere(user: string, now: int)
    ensures FeedCell(map[], user) == None && FeedFound(map[], user, now) == None
    ensures VisitCell(map[], user) == None && SeenBefore(map[], user, now) == None
  {
  }

  // Step by step: every step is one call of the shared store, under any interleaving.

  function AfterCall(visitTtl: int, db: Redis.Db, now: int, call: Call): Redis.Db
  {
    Redis.RedisStep(visitTtl, db, now, call).0
  }

  /** For all users. */
  ghost predicate ShowsAll(s: State, db: Redis.Db, now: int)
  {
    forall v :: ShowsShared(s, db, v, now)
  }

  /** A call for one user does not show in what another user finds. */
  lemma CallOfAnother(visitTtl: int, db: Redis.Db, now: int, call: Call, v: string)
    requires !call.TryReserve? && Redis.KeyOf(call) != FeedKey(v) && Redis.KeyOf(call) != VisitLastKey(v)
    ensures FeedFound(AfterCall(visitTtl, db, now, call), v, now) == FeedFound(db, v, now)
    ensures SeenBefore(AfterCall(visitTtl, db, now, call), v, now) == SeenBefore(db, v, now)
  {
    hide FeedCell, VisitCell, FeedFound, SeenBefore, Redis.RedisStep;
    var db' := AfterCall(visitTtl, db, now, call);
    StepKeepsUserCells(visitTtl, db, now, call, v);
    FoundDependsOnCell(db', db, v, now);
    SeenDependsOnCell(db', db, v, now);
  }

  /** What each call leaves of the feed and the visit of its own user. */
  lemma CallOfUser(visitTtl: int, db: Redis.Db, now: int, call: Call, user: string)
    requires call.LastSeenUtc? || call.MarkSeenUtc? || call.DropFeed? || call.TryGetFeed? || call.TouchFeed?
             || (call.PutFeed? && call.ttl > 0)
    requires call.user == user
    requires call.MarkSeenUtc? ==> visitTtl > 0 && 0 <= now < INT64_LIMIT
    ensures var db' := AfterCall(visitTtl, db, now, call);
      var found, found' := FeedFound(db, user, now), FeedFound(db', user, now);
      && SeenBefore(db', user, now) == (if call.MarkSeenUtc? then Some(now) else SeenBefore(db, user, now))
      && (if call.DropFeed? then found' == None
          else if call.PutFeed? then found'.Some? && found'.value.productIds == call.ids
          else (found'.Some? <==> found.Some?) && (found.Some? ==> found'.value.productIds == found.value.productIds))
  {
    hide FeedCell, VisitCell, FeedFound, SeenBefore, Redis.RedisStep, Name;
    var db' := AfterCall(visitTtl, db, now, call);
    StepKeepsUserCells(visitTtl, db, now, call, user);
    if Redis.KeyOf(call) == FeedKey(user) {
      SeenDependsOnCell(db', db, user, now);
      FeedCallEffect(visitTtl, db, now, call, user);
    } else {
      FoundDependsOnCell(db', db, user, now);
      VisitCallEffect(visitTtl, db, now, call, user);
    }
  }

  lemma FeedCallEffect(visitTtl: int, db: Redis.Db, now: int, call: Call, user: string)
    requires call.DropFeed? || call.TryGetFeed? || call.TouchFeed? || (call.PutFeed? && call.ttl > 0)
    requires call.user == user
    ensures var found, found' := FeedFound(db, user, now), FeedFound(AfterCall(visitTtl, db, now, call), user, now);
      if call.DropFeed? then found' == None
      else if call.PutFeed? then found'.Some? && found'.value.productIds == call.ids
      else (found'.Some? <==> found.Some?) && (found.Some? ==> found'.value.productIds == found.value.productIds)
  {
    hide Name, EncodeIds, DecodeIds;
    if call.PutFeed? {
      IdListRoundTrip(call.ids);
    }
  }

  lemma VisitCallEffect(visitTtl: int, db: Redis.Db, now: int, call: Call, user: string)
    requires call.LastSeenUtc? || call.MarkSeenUtc?
    requires call.user == user
    requires call.MarkSeenUtc? ==> visitTtl > 0 && 0 <= now < INT64_LIMIT
    ensures SeenBefore(AfterCall(visitTtl, db, now, call), user, now) ==
            if call.MarkSeenUtc? then Some(now) else SeenBefore(db, user, now)
  {
    hide Name, ToDecimal, Stoll;
    if call.MarkSeenUtc? {
      StollRoundTrip(now);
    }
  }

  /** A request begins with the visit lookup, and its decision is the service's. */
  lemma BeginIsCall(visitTtl: int, recent: History, s: State, db: Redis.Db, a: Action, now: int)
    requires a.Begin? && Enabled(s, a) && ShowsAll(s, db, now)
    requires a.stale == ShouldInvalidateFeed(SeenBefore(db, a.user, now), now)
    ensures var (db', reply) := Redis.RedisStep(visitTtl, db, now, LastSeenUtc(a.user));
      && ShowsAll(Next(recent, s, a), db', now)
      && Next(recent, s, a).requests[a.id].phase == Decided(ShouldInvalidateFeed(reply.AsSeen(), now))
  {
    hide WorkerNext, Redis.FetchVisit, FeedFound, StoredFeed, Name;
    var call := LastSeenUtc(a.user);
    assert ShowsShared(s, db, a.user, now);
    assert Redis.RedisStep(visitTtl, db, now, call).1.AsSeen() == SeenBefore(db, a.user, now);
    CallOfUser(visitTtl, db, now, call, a.user);
    forall v ensures ShowsShared(Next(recent, s, a), AfterCall(visitTtl, db, now, call), v, now) {
      assert ShowsShared(s, db, v, now) && ShowsShared(s, db, a.user, now);
      if v != a.user {
        CallOfAnother(visitTtl, db, now, call, v);
      }
    }
  }

  /** The call of a step of a request. */
  function RequestCall(s: State, a: Action, extendBy: int): Call
    requires (a.Drop? || a.Mark? || a.LookUp? || a.Touch? || a.Put?) && Enabled(s, a)
  {
    var user := s.requests[a.id].user;
    match a
    case Drop(_) => DropFeed(user)
    case Mark(_) => MarkSeenUtc(user)
    case LookUp(_) => TryGetFeed(user)
    case Touch(_) => TouchFeed(user, extendBy)
    case Put(id, popular, gptRanked, similar) =>
      PutFeed(user, StoredFeed(Gathering(s, id, popular, gptRanked, similar).sources), 5760)
  }

  /** The other steps of a request are the calls that follow, with the same effect for every user. */
  lemma RequestStepIsCall(visitTtl: int, recent: History, s: State, db: Redis.Db, a: Action, extendBy: int, now: int)
    requires (a.Drop? || a.Mark? || a.LookUp? || a.Touch? || a.Put?) && Enabled(s, a) && ShowsAll(s, db, now)
    requires visitTtl > 0 && 0 <= now < INT64_LIMIT
    ensures ShowsAll(Next(recent, s, a), AfterCall(visitTtl, db, now, RequestCall(s, a, extendBy)), now)
  {
    hide WorkerNext, FeedFound, SeenBefore, StoredFeed, Redis.RedisStep;
    var user, call := s.requests[a.id].user, RequestCall(s, a, extendBy);
    CallOfUser(visitTtl, db, now, call, user);
    forall v ensures ShowsShared(Next(recent, s, a), AfterCall(visitTtl, db, now, call), v, now) {
      assert ShowsShared(s, db, v, now) && ShowsShared(s, db, user, now);
      if v != user {
        CallOfAnother(visitTtl, db, now, call, v);
      }
    }
  }

  /** A lookup finds the feed of the protocol's store, or misses as the protocol does. */
  lemma LookUpIsReply(visitTtl: int, recent: History, s: State, db: Redis.Db, id: nat, now: int)
    requires Enabled(s, LookUp(id)) && ShowsAll(s, db, now)
    ensures var reply := Redis.RedisStep(visitTtl, db, now, TryGetFeed(s.requests[id].user)).1;
      match Next(recent, s, LookUp(id)).requests[id].phase
      case Touching(snap) => reply.AsFeed().Some? && reply.AsFeed().value.productIds == StoredFeed(snap.sources)
      case phase => phase == Missed && reply.AsFeed() == None
  {
    hide Name, Redis.FetchFeed, SeenBefore, StoredFeed, WorkerNext;
    assert ShowsShared(s, db, s.requests[id].user, now);
  }

  /** The worker's first delete drops the feed, the second one the ranking, the third one the visit. */
  lemma DeleteIsCall(visitTtl: int, recent: History, s: State, db: Redis.Db, a: Action, at: nat, user: string, now: int)
    requires a == DeleteFeed(at) || a == DeleteGpt(at) || a == DeleteMark(at)
    requires Enabled(s, a) && at < |s.rows| && s.rows[at].user == user && ShowsAll(s, db, now)
    ensures var db' := match a
                       case DeleteFeed(_) => AfterCall(visitTtl, db, now, DropFeed(user))
                       case DeleteGpt(_) => AfterCall(visitTtl, db, now, InvalidateUserDerived(user))
                       case _ => Redis.Del(db, Name(VisitLastKey(user)));
      ShowsAll(Next(recent, s, a), db', now)
  {
    hide RequestNext, FeedFound, SeenBefore, StoredFeed, Redis.RedisStep, Redis.Del, Name;
    var s' := Next(recent, s, a);
    forall v
      ensures a.DeleteFeed? ==> ShowsShared(s', AfterCall(visitTtl, db, now, DropFeed(user)), v, now)
      ensures a.DeleteGpt? ==> ShowsShared(s', AfterCall(visitTtl, db, now, InvalidateUserDerived(user)), v, now)
      ensures a.DeleteMark? ==> ShowsShared(s', Redis.Del(db, Name(VisitLastKey(user))), v, now)
    {
      assert ShowsShared(s, db, v, now);
      CallOfAnother(visitTtl, db, now, InvalidateUserDerived(user), v);
      DeletedVisit(db, user, v, now);
      if v == user {
        CallOfUser(visitTtl, db, now, DropFeed(user), user);
      } else {
        CallOfAnother(visitTtl, db, now, DropFeed(user), v);
      }
    }
  }

  lemma DeletedVisit(db: Redis.Db, user: string, v: string, now: int)
    ensures var db' := Redis.Del(db, Name(VisitLastKey(user)));
      && FeedFound(db', v, now) == FeedFound(db, v, now)
      && SeenBefore(db', v, now) == if v == user then None else SeenBefore(db, v, now)
  {
    hide FeedFound, Name, DecodeIds, Stoll;
    var db' := Redis.Del(db, Name(VisitLastKey(user)));
    if Name(FeedKey(v)) == Name(VisitLastKey(user)) {
      UserKeysInjective(FeedKey(v), VisitLastKey(user));
    }
    FoundDependsOnCell(db', db, v, now);
    if v != user && Name(VisitLastKey(v)) == Name(VisitLastKey(user)) {
      UserKeysInjective(VisitLastKey(v), VisitLastKey(user));
    }
  }

  // The passing of time.

  /** A step to a later instant: what is no longer found expires, and nothing else does. */
  function Later(recent: History, s: State, db: Redis.Db, v: string, later: int): State
  {
    var s1 := if FeedFound(db, v, later).None? then Next(recent, s, ExpireFeed(v)) else s;
    if SeenBefore(db, v, later).None? then Next(recent, s1, ExpireMark(v)) else s1
  }

  lemma TimeOnlyTakes(db: Redis.Db, v: string, now: int, later: int)
    requires now <= later
    ensures FeedFound(db, v, later).Some? ==>
              FeedFound(db, v, now).Some?
              && FeedFound(db, v, later).value.productIds == FeedFound(db, v, now).value.productIds
    ensures SeenBefore(db, v, later).Some? ==> SeenBefore(db, v, now).Some?
  {
    hide Name, DecodeIds, Stoll;
  }

  /** The expiries of the protocol are those of the store: the feed with its feed, the mark with its visit. */
  lemma ExpiryIsTime(recent: History, s: State, db: Redis.Db, v: string, now: int, later: int)
    requires ShowsShared(s, db, v, now) && now <= later
    ensures ShowsShared(Later(recent, s, db, v, later), db, v, later)
    ensures forall w :: w != v && ShowsShared(s, db, w, later) ==>
              ShowsShared(Later(recent, s, db, v, later), db, w, later)
  {
    hide RequestNext, FeedFound, SeenBefore, StoredFeed;
    TimeOnlyTakes(db, v, now, later);
  }
}
