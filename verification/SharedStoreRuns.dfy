/**
  Whole runs of the recommendation service on the shared store, for arbitrary user ids and a millisecond
  clock: which computation a cached answer comes from, and how far rounding carries the life of a feed.
 */
module SharedStoreRuns {
  import opened Wrappers
  import opened TtlPolicy
  import opened Ranking
  import opened CachePorts
  import opened Decimal
  import opened IdListCodec
  import opened RedisKeyspace
  import opened RedisRhythmData
  import opened RecommendationService
  import opened FeedRuns
  import InMemory = InMemoryRhythmData
  import Equivalence = ServiceEquivalence

  // Rounding.  A time to live is reported in whole seconds, and set again from such a report.

  /** A feed cell after a request to extend it. */
  function Extended(cell: Cell, extendBy: int, now: int): Cell
  {
    if extendBy <= 0 || cell.expiry.None? || cell.expiry.value < now then cell
    else cell.(expiry := Some(now + ((cell.expiry.value - now + MS / 2) / MS + extendBy) * MS))
  }

  /**
    Extending is exact if and only if a whole number of seconds is left; otherwise the expiry moves by
    half a second forward or less than half a second back.
   */
  lemma ExtensionIsExactIff(cell: Cell, extendBy: int, now: int)
    requires extendBy > 0 && cell.expiry.Some? && now <= cell.expiry.value
    ensures Extended(cell, extendBy, now).expiry.Some?
    ensures var drift := Extended(cell, extendBy, now).expiry.value - (cell.expiry.value + extendBy * 1000);
      -500 < drift <= 500 && (drift == 0 <==> (cell.expiry.value - now) % 1000 == 0)
  {
  }

  lemma ExtendTtlExtends(db: Db, key: string, extendBy: int, now: int)
    ensures InMemory.LookUp(ExtendTtl(db, key, extendBy, now), key) ==
            if key in db then Some(Extended(db[key], extendBy, now)) else None
    ensures forall name :: name != key ==>
              InMemory.LookUp(ExtendTtl(db, key, extendBy, now), name) == InMemory.LookUp(db, name)
  {
  }

  // What one request does to the feed and visit cells of the store.

  function FeedCell(db: Db, user: string): Option<Cell>
  {
    InMemory.LookUp(db, Name(FeedKey(user)))
  }

  function VisitCell(db: Db, user: string): Option<Cell>
  {
    InMemory.LookUp(db, Name(VisitLastKey(user)))
  }

  lemma StepKeepsOtherNames(visitTtl: int, db: Db, now: int, call: Call, name: string)
    requires name != Name(KeyOf(call))
    ensures InMemory.LookUp(RedisStep(visitTtl, db, now, call).0, name) == InMemory.LookUp(db, name)
  {
  }

  /** A call on another key than the feed and the visit of a user leaves both as they are. */
  lemma StepKeepsUserCells(visitTtl: int, db: Db, now: int, call: Call, user: string)
    requires !call.TryReserve?
    ensures KeyOf(call) != FeedKey(user) ==> FeedCell(RedisStep(visitTtl, db, now, call).0, user) == FeedCell(db, user)
    ensures KeyOf(call) != VisitLastKey(user) ==>
              VisitCell(RedisStep(visitTtl, db, now, call).0, user) == VisitCell(db, user)
  {
    hide Name, RedisStep, IsMistakenFor;
    var k := KeyOf(call);
    NoMistake(k);
    NamesCoincideIff(k, FeedKey(user));
    NamesCoincideIff(k, VisitLastKey(user));
    if k != FeedKey(user) {
      StepKeepsOtherNames(visitTtl, db, now, call, Name(FeedKey(user)));
    }
    if k != VisitLastKey(user) {
      StepKeepsOtherNames(visitTtl, db, now, call, Name(VisitLastKey(user)));
    }
  }

  lemma NoMistake(k: Key)
    requires !k.IdempotencyKey?
    ensures forall q: Key :: !q.IdempotencyKey? ==> !IsMistakenFor(k, q) && !IsMistakenFor(q, k)
  {
  }

  ghost predicate SameUserCells(db: Db, db': Db, user: string)
  {
    FeedCell(db', user) == FeedCell(db, user) && VisitCell(db', user) == VisitCell(db, user)
  }

  lemma PopularKeepsUserCells(visitTtl: int, db: Db, c: Readings, p: Ports, v: string)
    ensures SameUserCells(db, FetchPopular(Equivalence.RedisBackend(visitTtl), db, c, p).0, v)
  {
    hide RedisStep, FeedCell, VisitCell;
    var db1 := RedisStep(visitTtl, db, c.popularGet, TryGetPopularGlobal).0;
    StepKeepsUserCells(visitTtl, db, c.popularGet, TryGetPopularGlobal, v);
    var put := PutPopularGlobal(p.popular(POPULAR_LIMIT), POPULAR_PRODUCTS_TTL);
    StepKeepsUserCells(visitTtl, db1, c.popularPut, put, v);
  }

  lemma GptKeepsUserCells(visitTtl: int, db: Db, user: string, c: Readings, p: Ports, v: string)
    ensures SameUserCells(db, FetchGpt(Equivalence.RedisBackend(visitTtl), db, user, c, p).0, v)
  {
    hide RedisStep, FeedCell, VisitCell;
    var db1 := RedisStep(visitTtl, db, c.gptGet, TryGetGptRanked(user)).0;
    StepKeepsUserCells(visitTtl, db, c.gptGet, TryGetGptRanked(user), v);
    var put := PutGptRanked(user, p.rank(user, GPT_RECOMMENDATION_IDS), GPT_RANKING_TTL);
    StepKeepsUserCells(visitTtl, db1, c.gptPut, put, v);
  }

  lemma SimilarKeepsUserCells(visitTtl: int, db: Db, anchor: ProductId, c: Readings, p: Ports, v: string)
    ensures SameUserCells(db, FetchSimilar(Equivalence.RedisBackend(visitTtl), db, anchor, c, p).0, v)
  {
    hide RedisStep, FeedCell, VisitCell, SimilarTo;
    var db1 := RedisStep(visitTtl, db, c.similarGet, TryGetSimilar(anchor)).0;
    StepKeepsUserCells(visitTtl, db, c.similarGet, TryGetSimilar(anchor), v);
    var put := PutSimilar(anchor, SimilarTo(p, anchor), SIMILAR_PRODUCTS_TTL);
    StepKeepsUserCells(visitTtl, db1, c.similarPut, put, v);
  }

  lemma FanOutKeepsUserCells(visitTtl: int, db: Db, user: string, c: Readings, p: Ports, v: string)
    ensures var (db', sources) := FanOut(Equivalence.RedisBackend(visitTtl), db, user, c, p);
      SameUserCells(db, db', v) && sources.history == p.recent(user, HISTORY_LIMIT)
  {
    hide FeedCell, VisitCell, FetchPopular, FetchGpt, FetchSimilar, SimilarAnchor;
    var step := Equivalence.RedisBackend(visitTtl);
    PopularKeepsUserCells(visitTtl, db, c, p, v);
    var (db1, popular) := FetchPopular(step, db, c, p);
    GptKeepsUserCells(visitTtl, db1, user, c, p, v);
    var db2 := FetchGpt(step, db1, user, c, p).0;
    SimilarKeepsUserCells(visitTtl, db2, SimilarAnchor(p.recent(user, HISTORY_LIMIT), popular), c, p, v);
  }

  /** The visit and the feed that a lookup finds. */
  function SeenBefore(db: Db, user: string, now: int): Option<int>
  {
    FetchVisit(db, Name(VisitLastKey(user)), now).1
  }

  function FeedFound(db: Db, user: string, now: int): Option<FeedCacheEntry>
  {
    FetchFeed(db, Name(FeedKey(user)), now).1
  }

  lemma FoundDependsOnCell(db: Db, db': Db, user: string, now: int)
    requires FeedCell(db, user) == FeedCell(db', user)
    ensures FeedFound(db, user, now) == FeedFound(db', user, now)
    ensures FeedFound(db, user, now).Some? ==>
              FeedCell(FetchFeed(db, Name(FeedKey(user)), now).0, user) == FeedCell(db, user)
  {
    hide Name, DecodeIds;
    assert Name(FeedKey(user)) in db <==> FeedCell(db, user).Some?;
    assert Name(FeedKey(user)) in db' <==> FeedCell(db', user).Some?;
  }

  lemma LookUpKeepsOtherFeeds(visitTtl: int, db: Db, user: string, c: Readings, v: string)
    requires v != user
    ensures FeedCell(LookUpFeed(Equivalence.RedisBackend(visitTtl), db, user, c).0, v) == FeedCell(db, v)
  {
    hide RedisStep, FeedCell, VisitCell, ShouldInvalidateFeed;
    var step := Equivalence.RedisBackend(visitTtl);
    StepKeepsUserCells(visitTtl, db, c.seen, LastSeenUtc(user), v);
    var (db1, seen) := step(db, c.seen, LastSeenUtc(user));
    StepKeepsUserCells(visitTtl, db1, c.decide, DropFeed(user), v);
    var db2 := if ShouldInvalidateFeed(seen.AsSeen(), c.decide) then step(db1, c.decide, DropFeed(user)).0 else db1;
    StepKeepsUserCells(visitTtl, db2, c.mark, MarkSeenUtc(user), v);
    StepKeepsUserCells(visitTtl, step(db2, c.mark, MarkSeenUtc(user)).0, c.lookup, TryGetFeed(user), v);
  }

  function MarkCell(visitTtl: int, now: int): Cell
  {
    Cell(ToDecimal(now), Some(now + visitTtl * MS))
  }

  /** The visit decision and the lookup, as seen in the user's two cells. */
  lemma LookUpEffect(visitTtl: int, db: Db, user: string, c: Readings)
    ensures var (db', prev, found) := LookUpFeed(Equivalence.RedisBackend(visitTtl), db, user, c);
      && prev == SeenBefore(db, user, c.seen)
      && found == (if ShouldInvalidateFeed(prev, c.decide) then None else FeedFound(db, user, c.lookup))
      && (found.Some? ==> FeedCell(db', user) == FeedCell(db, user))
      && (visitTtl > 0 ==> VisitCell(db', user) == Some(MarkCell(visitTtl, c.mark)))
  {
    hide Name, FetchFeed, FetchVisit, ShouldInvalidateFeed, ToDecimal, IsMistakenFor;
    var step := Equivalence.RedisBackend(visitTtl);
    var (db1, seen) := step(db, c.seen, LastSeenUtc(user));
    StepKeepsUserCells(visitTtl, db, c.seen, LastSeenUtc(user), user);
    var db2 := if ShouldInvalidateFeed(seen.AsSeen(), c.decide) then step(db1, c.decide, DropFeed(user)).0 else db1;
    var db3 := step(db2, c.mark, MarkSeenUtc(user)).0;
    StepKeepsUserCells(visitTtl, db2, c.mark, MarkSeenUtc(user), user);
    StepKeepsUserCells(visitTtl, db3, c.lookup, TryGetFeed(user), user);
    if ShouldInvalidateFeed(seen.AsSeen(), c.decide) {
      assert FeedCell(db3, user) == FeedCell(map[], user);
      FoundDependsOnCell(db3, map[], user, c.lookup);
      NothingFound(user, c.lookup);
    } else {
      FoundDependsOnCell(db3, db, user, c.lookup);
    }
  }

  lemma NothingFound(user: string, now: int)
    ensures FeedFound(map[], user, now) == None
  {
  }

  /** The effect of one request on the shared store, for arbitrary readings. */
  ghost predicate SharedEffect(visitTtl: int, db: Db, r: Request, db': Db, o: Outcome)
  {
    var prev, found := SeenBefore(db, r.user, r.clock.seen), FeedFound(db, r.user, r.clock.lookup);
    && (forall v :: v != r.user ==> FeedCell(db', v) == FeedCell(db, v))
    && (visitTtl > 0 ==> VisitCell(db', r.user) == Some(MarkCell(visitTtl, r.clock.mark)))
    && (o.Hit? <==> !ShouldInvalidateFeed(prev, r.clock.decide) && found.Some?)
    && match o
       case Hit(answer, extension) =>
         && extension == ExtendFeedTtlOnHit(ClassifyVisit(prev, r.clock.classify, r.clock.recheck))
         && answer == TakeTop(found.value.productIds, FEED_LIST_SIZE)
         && FeedCell(db, r.user).Some?
         && FeedCell(db', r.user) == Some(Extended(FeedCell(db, r.user).value, extension, r.clock.touch))
       case Miss(answer, sources) =>
         && sources.history == r.ports.recent(r.user, HISTORY_LIMIT)
         && answer == TakeTop(StoredFeed(sources), FEED_LIST_SIZE)
         && FeedCell(db', r.user) ==
            Some(Cell(EncodeIds(StoredFeed(sources)), Some(r.clock.put + FEED_KEY_TTL * MS)))
  }

  lemma FoundIsStored(db: Db, user: string, now: int)
    ensures FeedFound(db, user, now).Some? ==> FeedCell(db, user).Some?
  {
    hide Name;
  }

  /** The feed cell after the last call of a request, which extends or stores it. */
  lemma LastCallEffect(visitTtl: int, db: Db, now: int, call: Call, v: string)
    requires call.TouchFeed? || (call.PutFeed? && call.ttl > 0)
    ensures var db' := RedisStep(visitTtl, db, now, call).0;
      && VisitCell(db', v) == VisitCell(db, v)
      && FeedCell(db', v) ==
         if v != call.user then FeedCell(db, v)
         else if call.PutFeed? then Some(Cell(EncodeIds(call.ids), Some(now + call.ttl * MS)))
         else if FeedCell(db, v).None? then None
         else Some(Extended(FeedCell(db, v).value, call.extendBy, now))
  {
    hide Name, ExtendTtl, EncodeIds, Extended;
    StepKeepsUserCells(visitTtl, db, now, call, v);
    if call.TouchFeed? {
      ExtendTtlExtends(db, Name(FeedKey(call.user)), call.extendBy, now);
    }
  }

  lemma HitHasEffect(visitTtl: int, db: Db, r: Request)
    ensures var (db', outcome) := Equivalence.ServeShared(visitTtl, db, r);
      outcome.Hit? ==> SharedEffect(visitTtl, db, r, db', outcome)
  {
    hide Name, LookUpFeed, FanOut, SeenBefore, FeedFound, RedisStep, Extended, ClassifyVisit, FeedCell, VisitCell;
    var c, step := r.clock, Equivalence.RedisBackend(visitTtl);
    var (db1, prev, found) := LookUpFeed(step, db, r.user, c);
    LookUpEffect(visitTtl, db, r.user, c);
    FoundIsStored(db, r.user, c.lookup);
    var touch := TouchFeed(r.user, ExtendFeedTtlOnHit(ClassifyVisit(prev, c.classify, c.recheck)));
    LastCallEffect(visitTtl, db1, c.touch, touch, r.user);
    forall v | v != r.user ensures FeedCell(RedisStep(visitTtl, db1, c.touch, touch).0, v) == FeedCell(db, v) {
      LookUpKeepsOtherFeeds(visitTtl, db, r.user, c, v);
      LastCallEffect(visitTtl, db1, c.touch, touch, v);
    }
  }

  lemma MissHasEffect(visitTtl: int, db: Db, r: Request)
    ensures var (db', outcome) := Equivalence.ServeShared(visitTtl, db, r);
      outcome.Miss? ==> SharedEffect(visitTtl, db, r, db', outcome)
  {
    hide Name, LookUpFeed, FanOut, SeenBefore, FeedFound, RedisStep, StoredFeed, ClassifyVisit, FeedCell, VisitCell;
    var c, step := r.clock, Equivalence.RedisBackend(visitTtl);
    var db1 := LookUpFeed(step, db, r.user, c).0;
    LookUpEffect(visitTtl, db, r.user, c);
    var (db2, sources) := FanOut(step, db1, r.user, c, r.ports);
    FanOutKeepsUserCells(visitTtl, db1, r.user, c, r.ports, r.user);
    var put := PutFeed(r.user, StoredFeed(sources), FEED_KEY_TTL);
    LastCallEffect(visitTtl, db2, c.put, put, r.user);
    forall v | v != r.user ensures FeedCell(RedisStep(visitTtl, db2, c.put, put).0, v) == FeedCell(db, v) {
      LookUpKeepsOtherFeeds(visitTtl, db, r.user, c, v);
      FanOutKeepsUserCells(visitTtl, db1, r.user, c, r.ports, v);
      LastCallEffect(visitTtl, db2, c.put, put, v);
    }
  }

  lemma ServeHasSharedEffect(visitTtl: int, db: Db, r: Request)
    ensures var (db', outcome) := Equivalence.ServeShared(visitTtl, db, r);
      SharedEffect(visitTtl, db, r, db', outcome)
  {
    hide SharedEffect, Equivalence.ServeShared;
    if Equivalence.ServeShared(visitTtl, db, r).1.Hit? {
      HitHasEffect(visitTtl, db, r);
    } else {
      MissHasEffect(visitTtl, db, r);
    }
  }

  // Runs.

  ghost predicate IsSharedRun(visitTtl: int, run: Run<Db>)
  {
    && |run.states| == |run.reqs| + 1 && |run.outcomes| == |run.reqs|
    && run.states[0] == map[]
    && forall i {:trigger Equivalence.ServeShared(visitTtl, run.states[i], run.reqs[i])} :: 0 <= i < |run.reqs| ==>
         (run.states[i + 1], run.outcomes[i]) == Equivalence.ServeShared(visitTtl, run.states[i], run.reqs[i])
  }

  lemma RunStepSharedEffect(visitTtl: int, run: Run<Db>, i: nat)
    requires IsSharedRun(visitTtl, run) && i < |run.reqs|
    ensures SharedEffect(visitTtl, run.states[i], run.reqs[i], run.states[i + 1], run.outcomes[i])
  {
    hide SharedEffect, Serve;
    ServeHasSharedEffect(visitTtl, run.states[i], run.reqs[i]);
  }

  /** The user's hits extend the feed at readings that do not go backwards. */
  ghost predicate TouchesInOrder(run: Run<Db>, user: string)
    requires |run.outcomes| == |run.reqs|
  {
    forall i, j :: 0 <= i < j < |run.reqs| && run.reqs[i].user == run.reqs[j].user == user
                   && run.outcomes[i].Hit? && run.outcomes[j].Hit? ==>
      run.reqs[i].clock.touch <= run.reqs[j].clock.touch
  }

  /** The feed had not expired when the user's hits among the first `n` requests extended it. */
  ghost predicate WasAlive(run: Run<Db>, n: nat, user: string, expiry: int)
    requires n <= |run.reqs| == |run.outcomes|
  {
    forall i :: 0 <= i < n && run.reqs[i].user == user && run.outcomes[i].Hit? ==> run.reqs[i].clock.touch <= expiry
  }

  /** Put time, 5760 s and the seconds granted: what the expiry would be without rounding. */
  function NominalExpiry(run: Run<Db>, log: FeedLog): int
    requires log.miss < |run.reqs|
  {
    run.reqs[log.miss].clock.put + (5760 + log.granted) * 1000
  }

  predicate SharedCellFollowsLog(run: Run<Db>, log: FeedLog, cell: Cell)
  {
    && log.miss < |run.reqs| == |run.outcomes| && run.outcomes[log.miss].Miss?
    && cell.value == EncodeIds(StoredFeed(run.outcomes[log.miss].sources)) && cell.expiry.Some?
  }

  /** How far rounding may have carried the expiry after so many extensions. */
  predicate WithinDrift(drift: int, extensions: nat)
  {
    -499 * extensions <= drift <= 500 * extensions
  }

  lemma DriftGrows(cell: Cell, extendBy: int, now: int, nominal: int, extensions: nat)
    requires cell.expiry.Some? && WithinDrift(cell.expiry.value - nominal, extensions)
    requires extendBy > 0 && now <= cell.expiry.value
    ensures Extended(cell, extendBy, now).expiry.Some?
    ensures WithinDrift(Extended(cell, extendBy, now).expiry.value - (nominal + extendBy * MS), extensions + 1)
  {
    hide Extended;
    ExtensionIsExactIff(cell, extendBy, now);
  }

  /** A cell that a hit leaves behind was not dead when the hit extended it, or is still dead. */
  lemma ExtendedWasAlive(cell: Cell, extendBy: int, now: int)
    requires cell.expiry.Some?
    ensures var e := Extended(cell, extendBy, now);
      && e.expiry.Some? && e.value == cell.value
      && (now <= e.expiry.value <==> now <= cell.expiry.value)
      && (extendBy <= 0 || now > cell.expiry.value ==> e == cell)
  {
  }

  lemma SharedRunShape(visitTtl: int, run: Run<Db>)
    requires IsSharedRun(visitTtl, run)
    ensures |run.states| == |run.reqs| + 1 && |run.outcomes| == |run.reqs|
    ensures forall user :: FeedCell(run.states[0], user) == None
  {
  }

  /** The feed cell of a user from one state of a run to the next. */
  lemma FeedCellStep(visitTtl: int, run: Run<Db>, i: nat, user: string)
    requires IsSharedRun(visitTtl, run) && i < |run.reqs|
    ensures var before, after := FeedCell(run.states[i], user), FeedCell(run.states[i + 1], user);
      if run.reqs[i].user != user then after == before
      else
        match run.outcomes[i]
        case Hit(_, extension) =>
          before.Some? && after == Some(Extended(before.value, extension, run.reqs[i].clock.touch))
        case Miss(_, sources) =>
          after == Some(Cell(EncodeIds(StoredFeed(sources)), Some(run.reqs[i].clock.put + FEED_KEY_TTL * MS)))
  {
    hide FeedCell, Extended, StoredFeed, EncodeIds, FeedFound, SeenBefore;
    RunStepSharedEffect(visitTtl, run, i);
  }

  /** In every reachable state of the shared deployment a stored feed is that of the user's last miss. */
  lemma {:induction false} SharedFeedFollowsLog(visitTtl: int, run: Run<Db>, n: nat, user: string)
    requires IsSharedRun(visitTtl, run) && n <= |run.reqs| && FeedCell(run.states[n], user).Some?
    ensures LogOf(run, n, user).Some?
    ensures SharedCellFollowsLog(run, LogOf(run, n, user).value, FeedCell(run.states[n], user).value)
  {
    hide FeedCell, Extended, StoredFeed, EncodeIds, IsSharedRun;
    SharedRunShape(visitTtl, run);
    if n > 0 {
      FeedCellStep(visitTtl, run, n - 1, user);
      if run.reqs[n - 1].user != user || run.outcomes[n - 1].Hit? {
        SharedFeedFollowsLog(visitTtl, run, n - 1, user);
      }
      if run.reqs[n - 1].user == user && run.outcomes[n - 1].Hit? {
        ExtendedWasAlive(FeedCell(run.states[n - 1], user).value, run.outcomes[n - 1].extension,
                         run.reqs[n - 1].clock.touch);
      }
    }
  }

  /** A hit on a cell within its drift leaves a cell within the drift of one more extension. */
  lemma HitKeepsDrift(run: Run<Db>, log: FeedLog, before: Cell, extension: int, touch: int)
    requires log.miss < |run.reqs| && before.expiry.Some?
    requires WithinDrift(before.expiry.value - NominalExpiry(run, log), log.extensions)
    requires touch <= Extended(before, extension, touch).expiry.value
    ensures var log', after := AfterHit(log, extension), Extended(before, extension, touch);
      extension >= 0 && after.expiry.Some? ==>
        WithinDrift(after.expiry.value - NominalExpiry(run, log'), log'.extensions)
  {
    hide Extended, WithinDrift;
    ExtendedWasAlive(before, extension, touch);
    if extension > 0 {
      DriftGrows(before, extension, touch, NominalExpiry(run, log), log.extensions);
    }
  }

  lemma FreshFeedHasNoDrift(run: Run<Db>, miss: nat)
    requires miss < |run.reqs|
    ensures var expiry := run.reqs[miss].clock.put + FEED_KEY_TTL * MS;
      WithinDrift(expiry - NominalExpiry(run, FeedLog(miss, 0, 0, 0)), 0)
  {
  }

  /** The feed was alive at earlier hits if it was alive at the last one. */
  lemma WasAliveBefore(run: Run<Db>, n: nat, user: string, expiry: int)
    requires 0 < n <= |run.reqs| == |run.outcomes| && TouchesInOrder(run, user)
    requires run.reqs[n - 1].user == user && run.outcomes[n - 1].Hit?
    requires run.reqs[n - 1].clock.touch <= expiry
    ensures WasAlive(run, n - 1, user, expiry)
  {
  }

  /**
    Lifetime on the shared store.  On a millisecond clock the expiry of a live feed is the put time plus
    5760 s plus all extensions granted since, up to half a second for each of the extensions.
   */
  lemma {:induction false} SharedLifetime(visitTtl: int, run: Run<Db>, n: nat, user: string)
    requires IsSharedRun(visitTtl, run) && n <= |run.reqs| && FeedCell(run.states[n], user).Some?
    requires LogOf(run, n, user).Some?
    requires SharedCellFollowsLog(run, LogOf(run, n, user).value, FeedCell(run.states[n], user).value)
    requires TouchesInOrder(run, user)
    requires WasAlive(run, n, user, FeedCell(run.states[n], user).value.expiry.value)
    ensures var log := LogOf(run, n, user).value;
      WithinDrift(FeedCell(run.states[n], user).value.expiry.value - NominalExpiry(run, log), log.extensions)
  {
    hide FeedCell, Extended, StoredFeed, EncodeIds, IsSharedRun, WithinDrift, NominalExpiry, AfterHit, TouchesInOrder;
    SharedRunShape(visitTtl, run);
    FeedCellStep(visitTtl, run, n - 1, user);
    if run.reqs[n - 1].user != user {
      SharedLifetime(visitTtl, run, n - 1, user);
    } else if run.outcomes[n - 1].Hit? {
      SharedFeedFollowsLog(visitTtl, run, n - 1, user);
      var before := FeedCell(run.states[n - 1], user).value;
      var extension, touch := run.outcomes[n - 1].extension, run.reqs[n - 1].clock.touch;
      ExtendedWasAlive(before, extension, touch);
      WasAliveBefore(run, n, user, before.expiry.value);
      SharedLifetime(visitTtl, run, n - 1, user);
      HitKeepsDrift(run, LogOf(run, n - 1, user).value, before, extension, touch);
      SharedExtensionIsNeverNegative(visitTtl, run, n - 1);
    } else {
      FreshFeedHasNoDrift(run, n - 1);
    }
  }

  lemma SharedExtensionIsNeverNegative(visitTtl: int, run: Run<Db>, i: nat)
    requires IsSharedRun(visitTtl, run) && i < |run.reqs| && run.outcomes[i].Hit?
    ensures run.outcomes[i].extension >= 0
  {
    hide FeedCell, Extended, EncodeIds, FeedFound, SeenBefore, ClassifyVisit;
    RunStepSharedEffect(visitTtl, run, i);
  }

  /** Cache agreement on the shared store: every cached answer is the top 50 of the full merge of the last miss. */
  lemma SharedAnswerIsLastMissAnswer(visitTtl: int, run: Run<Db>, i: nat) returns (j: nat)
    requires IsSharedRun(visitTtl, run) && i < |run.reqs| && run.outcomes[i].Hit?
    ensures IsLastMiss(run, run.reqs[i].user, j, i)
    ensures run.outcomes[i].answer == run.outcomes[j].answer
    ensures IsTop(run.outcomes[i].answer, Rank(run.outcomes[j].sources), 50)
  {
    hide FeedCell, Extended, StoredFeed, EncodeIds, DecodeIds, IsSharedRun, IsLastMiss;
    var user := run.reqs[i].user;
    SharedRunShape(visitTtl, run);
    RunStepSharedEffect(visitTtl, run, i);
    SharedFeedFollowsLog(visitTtl, run, i, user);
    LogNamesLastMiss(run, i, user);
    j := LogOf(run, i, user).value.miss;
    FoundIsEncoded(run.states[i], user, run.reqs[i].clock.lookup, StoredFeed(run.outcomes[j].sources));
    RunStepSharedEffect(visitTtl, run, j);
    StoredThenServed(run.outcomes[j].sources);
  }

  lemma FoundIsEncoded(db: Db, user: string, now: int, ids: seq<ProductId>)
    requires FeedCell(db, user).Some? && FeedCell(db, user).value.value == EncodeIds(ids)
    ensures FeedFound(db, user, now).Some? ==> FeedFound(db, user, now).value.productIds == ids
  {
    hide Name, EncodeIds, DecodeIds;
    IdListRoundTrip(ids);
  }

  lemma StoredThenServed(src: Sources)
    ensures TakeTop(StoredFeed(src), FEED_LIST_SIZE) == TakeTop(Rank(src), FEED_LIST_SIZE)
  {
    TruncatingTwice(Rank(src), GPT_RECOMMENDATION_IDS, FEED_LIST_SIZE);
  }

  // Both bounds of the drift are reached, for any number of extensions.

  /** A feed stored at 0 and extended by an hour `n` times, once every `beat` milliseconds. */
  function AfterTouches(user: string, ids: seq<ProductId>, beat: int, n: nat): Db
  {
    if n == 0 then RedisStep(0, map[], 0, PutFeed(user, ids, FEED_KEY_TTL)).0
    else RedisStep(0, AfterTouches(user, ids, beat, n - 1), beat * n, TouchFeed(user, EXTEND_IF_VISITED_TODAY)).0
  }

  /** The same calls on the in-process maps. */
  function LocalAfterTouches(user: string, ids: seq<ProductId>, beat: int, n: nat): InMemory.Local
  {
    if n == 0 then InMemory.LocalStep(InMemory.EMPTY_LOCAL, 0, PutFeed(user, ids, FEED_KEY_TTL)).0
    else
      var touch := TouchFeed(user, EXTEND_IF_VISITED_TODAY);
      InMemory.LocalStep(LocalAfterTouches(user, ids, beat, n - 1), beat * n, touch).0
  }

  lemma RoundedReport(left: int, seconds: int)
    requires seconds * MS <= left + MS / 2 < (seconds + 1) * MS
    ensures (left + MS / 2) / MS == seconds
  {
  }

  lemma LateTouch(value: string, n: nat)
    ensures var hour, put := EXTEND_IF_VISITED_TODAY * MS, FEED_KEY_TTL * MS;
      Extended(Cell(value, Some(put + (hour + 500) * n)), EXTEND_IF_VISITED_TODAY, 500 * (n + 1))
      == Cell(value, Some(put + (hour + 500) * (n + 1)))
  {
    var put, hour := FEED_KEY_TTL * MS, EXTEND_IF_VISITED_TODAY * MS;
    var left := put + (hour + 500) * n - 500 * (n + 1);
    RoundedReport(left, 5760 + 3600 * n);
  }

  lemma EarlyTouch(value: string, n: nat)
    ensures var hour, put := EXTEND_IF_VISITED_TODAY * MS, FEED_KEY_TTL * MS;
      Extended(Cell(value, Some(put + (hour - 499) * n)), EXTEND_IF_VISITED_TODAY, 501 * (n + 1))
      == Cell(value, Some(put + (hour - 499) * (n + 1)))
  {
    var put, hour := FEED_KEY_TTL * MS, EXTEND_IF_VISITED_TODAY * MS;
    var left := put + (hour - 499) * n - 501 * (n + 1);
    RoundedReport(left, 5759 + 3599 * n);
  }

  /** Extending twice a second gains half a second each time on the in-process maps. */
  lemma {:induction false} LateDriftIsReached(user: string, ids: seq<ProductId>, n: nat)
    ensures var put, hour := FEED_KEY_TTL * MS, EXTEND_IF_VISITED_TODAY * MS;
      && FeedCell(AfterTouches(user, ids, 500, n), user) == Some(Cell(EncodeIds(ids), Some(put + (hour + 500) * n)))
      && InMemory.LookUp(LocalAfterTouches(user, ids, 500, n).mem.feed, user)
         == Some(InMemory.TimedIds(ids, put + hour * n))
  {
    hide Name, EncodeIds, Extended, FeedCell, RedisStep;
    if n == 0 {
      LastCallEffect(0, map[], 0, PutFeed(user, ids, FEED_KEY_TTL), user);
    } else {
      LateDriftIsReached(user, ids, n - 1);
      var touch := TouchFeed(user, EXTEND_IF_VISITED_TODAY);
      LastCallEffect(0, AfterTouches(user, ids, 500, n - 1), 500 * n, touch, user);
      LateTouch(EncodeIds(ids), n - 1);
    }
  }

  /** Extending every 501 ms loses 499 ms each time. */
  lemma {:induction false} EarlyDriftIsReached(user: string, ids: seq<ProductId>, n: nat)
    ensures var put, hour := FEED_KEY_TTL * MS, EXTEND_IF_VISITED_TODAY * MS;
      && FeedCell(AfterTouches(user, ids, 501, n), user) == Some(Cell(EncodeIds(ids), Some(put + (hour - 499) * n)))
      && InMemory.LookUp(LocalAfterTouches(user, ids, 501, n).mem.feed, user)
         == Some(InMemory.TimedIds(ids, put + hour * n))
  {
    hide Name, EncodeIds, Extended, FeedCell, RedisStep;
    if n == 0 {
      LastCallEffect(0, map[], 0, PutFeed(user, ids, FEED_KEY_TTL), user);
    } else {
      EarlyDriftIsReached(user, ids, n - 1);
      var touch := TouchFeed(user, EXTEND_IF_VISITED_TODAY);
      LastCallEffect(0, AfterTouches(user, ids, 501, n - 1), 501 * n, touch, user);
      EarlyTouch(EncodeIds(ids), n - 1);
    }
  }
}
