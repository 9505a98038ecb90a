/**
  The two deployments, over the shared store and over the in-process maps, cannot be told apart by runs of
  requests and actions: the same branch, the same list, the same verdict on an action, the same messages.
 */
module ServiceEquivalence {
  import opened Wrappers
  import opened TtlPolicy
  import opened Ranking
  import opened CachePorts
  import opened RedisKeyspace
  import opened InMemoryRhythmData
  import opened RecommendationService
  import opened BackendSimulation
  import opened FeedRuns
  import Redis = RedisRhythmData
  import Actions = ActionService

  function RedisBackend(visitTtl: int): Step<Redis.Db>
  {
    (db, now, call) => Redis.RedisStep(visitTtl, db, now, call)
  }

  /** The in-process deployment, and whether all its calls so far were well-formed and comparable. */
  datatype Checked = Checked(local: Local, comparable: bool)

  function CheckedStep(c: Checked, now: int, call: Call): (Checked, Reply)
  {
    var (local, reply) := LocalStep(c.local, now, call);
    (Checked(local, c.comparable && WellFormed(call, now) && Comparable(c.local, call, now)), reply)
  }

  /** Related stores at `now`, for every key that deployments with plain user ids use. */
  ghost predicate Related(visitTtl: int, db: Redis.Db, s: Local, now: int)
  {
    Simulates(visitTtl, UsableKeys(), db, s, now)
  }

  /** The shared store follows the in-process one as long as all calls are comparable. */
  ghost predicate Follows(visitTtl: int, db: Redis.Db, c: Checked, now: int)
  {
    c.comparable ==> Related(visitTtl, db, c.local, now)
  }

  lemma FollowsLater(visitTtl: int, db: Redis.Db, c: Checked, now: int, later: int)
    requires Follows(visitTtl, db, c, now) && now <= later
    ensures Follows(visitTtl, db, c, later)
  {
    hide Matches;
    if c.comparable {
      SimulatesLater(visitTtl, UsableKeys(), db, c.local, now, later);
    }
  }

  /** One call at a later reading: if it is comparable too, the stores stay related and the replies are alike. */
  lemma CallAlike(visitTtl: int, db: Redis.Db, c: Checked, start: int, now: int, call: Call)
    requires visitTtl >= STALE_AFTER_NO_VISIT
    requires Follows(visitTtl, db, c, start) && start <= now && Usable(Redis.KeyOf(call))
    ensures var shared, local := RedisBackend(visitTtl)(db, now, call), CheckedStep(c, now, call);
      && Follows(visitTtl, shared.0, local.0, now)
      && (local.0.comparable ==> c.comparable && Alike(shared.1, local.1, now))
      && (local.0.comparable && !call.LastSeenUtc? && !call.TryGetFeed? ==> shared.1 == local.1)
  {
    hide Redis.RedisStep, LocalStep, Matches, Comparable, WellFormed, Alike;
    if CheckedStep(c, now, call).0.comparable {
      SimulatesLater(visitTtl, UsableKeys(), db, c.local, start, now);
      UsableKeysAreSeparate();
      StepKeepsSimulation(visitTtl, UsableKeys(), db, c.local, now, call);
    }
  }

  /** The drop, taken on both sides or on neither as long as all calls were comparable. */
  lemma DropAlike(
    visitTtl: int, db: Redis.Db, s: Checked, shared: Option<int>, local: Option<int>, user: string, c: Readings)
    requires visitTtl >= STALE_AFTER_NO_VISIT && PlainUser(user)
    requires Follows(visitTtl, db, s, c.seen) && c.Ordered()
    requires s.comparable ==> ShouldInvalidateFeed(shared, c.decide) == ShouldInvalidateFeed(local, c.decide)
    ensures var drop := DropFeed(user);
      var db' := if ShouldInvalidateFeed(shared, c.decide) then RedisBackend(visitTtl)(db, c.decide, drop).0 else db;
      var s' := if ShouldInvalidateFeed(local, c.decide) then CheckedStep(s, c.decide, drop).0 else s;
      Follows(visitTtl, db', s', c.decide) && (s'.comparable ==> s.comparable)
  {
    hide Redis.RedisStep, RedisBackend, CheckedStep, ShouldInvalidateFeed, Related;
    CallAlike(visitTtl, db, s, c.seen, c.decide, DropFeed(user));
    FollowsLater(visitTtl, db, s, c.seen, c.decide);
  }

  lemma LookUpAlike(visitTtl: int, db: Redis.Db, s: Checked, start: int, user: string, c: Readings)
    requires visitTtl >= STALE_AFTER_NO_VISIT && PlainUser(user)
    requires Follows(visitTtl, db, s, start) && start <= c.seen && c.Ordered()
    ensures var (db', prev', found') := LookUpFeed(RedisBackend(visitTtl), db, user, c);
      var (s', prev, found) := LookUpFeed(CheckedStep, s, user, c);
      && Follows(visitTtl, db', s', c.lookup)
      && (s'.comparable ==>
            && s.comparable && SameFeed(found', found)
            && ClassifyVisit(prev', c.classify, c.recheck) == ClassifyVisit(prev, c.classify, c.recheck))
  {
    hide Redis.RedisStep, Follows, RedisBackend, CheckedStep, ClassifyVisit, ShouldInvalidateFeed;
    var step := RedisBackend(visitTtl);
    CallAlike(visitTtl, db, s, start, c.seen, LastSeenUtc(user));
    var (db1, shared) := step(db, c.seen, LastSeenUtc(user));
    var (s1, local) := CheckedStep(s, c.seen, LastSeenUtc(user));
    if s1.comparable {
      AlikeVisitsDecideAlike(shared, local, c.seen, c.decide, c.classify, c.recheck);
    }
    var db2 := if ShouldInvalidateFeed(shared.AsSeen(), c.decide) then step(db1, c.decide, DropFeed(user)).0 else db1;
    var drop := DropFeed(user);
    var s2 := if ShouldInvalidateFeed(local.AsSeen(), c.decide) then CheckedStep(s1, c.decide, drop).0 else s1;
    DropAlike(visitTtl, db1, s1, shared.AsSeen(), local.AsSeen(), user, c);
    CallAlike(visitTtl, db2, s2, c.decide, c.mark, MarkSeenUtc(user));
    var db3, s3 := step(db2, c.mark, MarkSeenUtc(user)).0, CheckedStep(s2, c.mark, MarkSeenUtc(user)).0;
    CallAlike(visitTtl, db3, s3, c.mark, c.lookup, TryGetFeed(user));
  }

  lemma PopularAlike(visitTtl: int, db: Redis.Db, s: Checked, start: int, c: Readings, p: Ports)
    requires visitTtl >= STALE_AFTER_NO_VISIT && Follows(visitTtl, db, s, start)
    requires start <= c.popularGet && c.Ordered()
    ensures var (db', list') := FetchPopular(RedisBackend(visitTtl), db, c, p);
      var (s', list) := FetchPopular(CheckedStep, s, c, p);
      Follows(visitTtl, db', s', c.popularPut) && (s'.comparable ==> s.comparable && list' == list)
  {
    hide Redis.RedisStep, RedisBackend, CheckedStep, Related;
    var step, put := RedisBackend(visitTtl), PutPopularGlobal(p.popular(POPULAR_LIMIT), POPULAR_PRODUCTS_TTL);
    CallAlike(visitTtl, db, s, start, c.popularGet, TryGetPopularGlobal);
    var db1, s1 := step(db, c.popularGet, TryGetPopularGlobal).0, CheckedStep(s, c.popularGet, TryGetPopularGlobal).0;
    CallAlike(visitTtl, db1, s1, c.popularGet, c.popularPut, put);
    FollowsLater(visitTtl, db1, s1, c.popularGet, c.popularPut);
  }

  lemma GptAlike(visitTtl: int, db: Redis.Db, s: Checked, start: int, user: string, c: Readings, p: Ports)
    requires visitTtl >= STALE_AFTER_NO_VISIT && PlainUser(user) && Follows(visitTtl, db, s, start)
    requires start <= c.gptGet && c.Ordered()
    ensures var (db', list') := FetchGpt(RedisBackend(visitTtl), db, user, c, p);
      var (s', list) := FetchGpt(CheckedStep, s, user, c, p);
      Follows(visitTtl, db', s', c.gptPut) && (s'.comparable ==> s.comparable && list' == list)
  {
    hide Redis.RedisStep, RedisBackend, CheckedStep, Related;
    var step, put := RedisBackend(visitTtl), PutGptRanked(user, p.rank(user, GPT_RECOMMENDATION_IDS), GPT_RANKING_TTL);
    CallAlike(visitTtl, db, s, start, c.gptGet, TryGetGptRanked(user));
    var db1, s1 := step(db, c.gptGet, TryGetGptRanked(user)).0, CheckedStep(s, c.gptGet, TryGetGptRanked(user)).0;
    CallAlike(visitTtl, db1, s1, c.gptGet, c.gptPut, put);
    FollowsLater(visitTtl, db1, s1, c.gptGet, c.gptPut);
  }

  lemma SimilarAlike(visitTtl: int, db: Redis.Db, s: Checked, start: int, anchor: ProductId, c: Readings, p: Ports)
    requires visitTtl >= STALE_AFTER_NO_VISIT && Follows(visitTtl, db, s, start)
    requires start <= c.similarGet && c.Ordered()
    ensures var (db', list') := FetchSimilar(RedisBackend(visitTtl), db, anchor, c, p);
      var (s', list) := FetchSimilar(CheckedStep, s, anchor, c, p);
      Follows(visitTtl, db', s', c.similarPut) && (s'.comparable ==> s.comparable && list' == list)
  {
    hide Redis.RedisStep, RedisBackend, CheckedStep, Related, SimilarTo;
    var step, put := RedisBackend(visitTtl), PutSimilar(anchor, SimilarTo(p, anchor), SIMILAR_PRODUCTS_TTL);
    FollowsLater(visitTtl, db, s, start, c.similarPut);
    CallAlike(visitTtl, db, s, start, c.similarGet, TryGetSimilar(anchor));
    var get := TryGetSimilar(anchor);
    var db1, s1 := step(db, c.similarGet, get).0, CheckedStep(s, c.similarGet, get).0;
    CallAlike(visitTtl, db1, s1, c.similarGet, c.similarPut, put);
    FollowsLater(visitTtl, db1, s1, c.similarGet, c.similarPut);
  }

  /** The anchors agree if the popular lists did. */
  lemma AnchorsAlike(
    visitTtl: int, db: Redis.Db, s: Checked, shared: ProductId, anchor: ProductId, c: Readings, p: Ports, same: bool)
    requires visitTtl >= STALE_AFTER_NO_VISIT && Follows(visitTtl, db, s, c.gptPut) && c.Ordered()
    requires (same ==> shared == anchor) && (s.comparable ==> same)
    ensures var (db', list') := FetchSimilar(RedisBackend(visitTtl), db, shared, c, p);
      var (s', list) := FetchSimilar(CheckedStep, s, anchor, c, p);
      Follows(visitTtl, db', s', c.similarPut) && (s'.comparable ==> s.comparable && list' == list)
  {
    hide FetchSimilar, Related;
    SimilarAlike(visitTtl, db, s, c.gptPut, anchor, c, p);
  }

  lemma FanOutAlike(visitTtl: int, db: Redis.Db, s: Checked, start: int, user: string, c: Readings, p: Ports)
    requires visitTtl >= STALE_AFTER_NO_VISIT && PlainUser(user) && Follows(visitTtl, db, s, start)
    requires start <= c.popularGet && c.Ordered()
    ensures var (db', sources') := FanOut(RedisBackend(visitTtl), db, user, c, p);
      var (s', sources) := FanOut(CheckedStep, s, user, c, p);
      Follows(visitTtl, db', s', c.similarPut) && (s'.comparable ==> s.comparable && sources' == sources)
  {
    hide Follows, FetchPopular, FetchGpt, FetchSimilar, SimilarAnchor;
    var step, history := RedisBackend(visitTtl), p.recent(user, HISTORY_LIMIT);
    PopularAlike(visitTtl, db, s, start, c, p);
    var (db1, popular') := FetchPopular(step, db, c, p);
    var (s1, popular) := FetchPopular(CheckedStep, s, c, p);
    GptAlike(visitTtl, db1, s1, c.popularPut, user, c, p);
    var db2, s2 := FetchGpt(step, db1, user, c, p).0, FetchGpt(CheckedStep, s1, user, c, p).0;
    AnchorsAlike(visitTtl, db2, s2, SimilarAnchor(history, popular'), SimilarAnchor(history, popular), c, p,
                 popular' == popular);
  }

  function ServeShared(visitTtl: int, db: Redis.Db, r: Request): (Redis.Db, Outcome)
  {
    Serve(RedisBackend(visitTtl), db, r.user, r.clock, r.ports)
  }

  lemma ServeAlike(visitTtl: int, db: Redis.Db, s: Checked, start: int, r: Request)
    requires visitTtl >= STALE_AFTER_NO_VISIT && PlainUser(r.user) && Follows(visitTtl, db, s, start)
    requires start <= r.clock.seen && r.clock.Ordered()
    ensures var (db', outcome') := ServeShared(visitTtl, db, r);
      var (s', outcome) := Serve(CheckedStep, s, r.user, r.clock, r.ports);
      Follows(visitTtl, db', s', r.clock.Last()) && (s'.comparable ==> s.comparable && outcome' == outcome)
  {
    hide Redis.RedisStep, RedisBackend, CheckedStep, Related, LookUpFeed, FanOut, StoredFeed, ClassifyVisit;
    var c, p, step := r.clock, r.ports, RedisBackend(visitTtl);
    LookUpAlike(visitTtl, db, s, start, r.user, c);
    var (db1, prev', found') := LookUpFeed(step, db, r.user, c);
    var (s1, prev, found) := LookUpFeed(CheckedStep, s, r.user, c);
    if found.Some? {
      var touch := TouchFeed(r.user, ExtendFeedTtlOnHit(ClassifyVisit(prev, c.classify, c.recheck)));
      CallAlike(visitTtl, db1, s1, c.lookup, c.touch, touch);
      FollowsLater(visitTtl, step(db1, c.touch, touch).0, CheckedStep(s1, c.touch, touch).0, c.touch, c.Last());
    } else {
      FanOutAlike(visitTtl, db1, s1, c.lookup, r.user, c, p);
      var (s2, src) := FanOut(CheckedStep, s1, r.user, c, p);
      var db2 := FanOut(step, db1, r.user, c, p).0;
      var put := PutFeed(r.user, StoredFeed(src), FEED_KEY_TTL);
      CallAlike(visitTtl, db2, s2, c.similarPut, c.put, put);
      FollowsLater(visitTtl, step(db2, c.put, put).0, CheckedStep(s2, c.put, put).0, c.put, c.Last());
    }
  }

  // Both endpoints, over one store.

  datatype Event = Recommend(request: Request) | Submit(attempt: Actions.Attempt)

  datatype Reaction = Recommended(feed: Outcome) | Submitted(action: Actions.Outcome)

  function React<S>(step: Step<S>, s: Actions.Intake<S>, e: Event): (Actions.Intake<S>, Reaction)
  {
    match e
    case Recommend(r) =>
      var (store, outcome) := Serve(step, s.store, r.user, r.clock, r.ports);
      (s.(store := store), Recommended(outcome))
    case Submit(t) =>
      var (s', outcome) := Actions.Handle(step, s, t);
      (s', Submitted(outcome))
  }

  function FirstReading(e: Event): int
  {
    match e
    case Recommend(r) => r.clock.seen
    case Submit(t) => t.now
  }

  function LastReading(e: Event): int
  {
    match e
    case Recommend(r) => r.clock.Last()
    case Submit(t) => t.now
  }

  /** A request by a plain user with its readings in program order, or any action. */
  predicate PlainEvent(e: Event)
  {
    e.Recommend? ==> PlainUser(e.request.user) && e.request.clock.Ordered()
  }

  /** Equal queues, and stores that are related as long as all calls are comparable. */
  ghost predicate IntakeFollows(
    visitTtl: int, shared: Actions.Intake<Redis.Db>, local: Actions.Intake<Checked>, now: int)
  {
    && Follows(visitTtl, shared.store, local.store, now)
    && (local.store.comparable ==> shared.published == local.published)
  }

  /** An action never submits the empty token, on which the backends differ. */
  lemma HandleAlike(
    visitTtl: int, shared: Actions.Intake<Redis.Db>, local: Actions.Intake<Checked>, start: int, t: Actions.Attempt)
    requires visitTtl >= STALE_AFTER_NO_VISIT && IntakeFollows(visitTtl, shared, local, start) && start <= t.now
    ensures var (shared', outcome') := Actions.Handle(RedisBackend(visitTtl), shared, t);
      var (local', outcome) := Actions.Handle(CheckedStep, local, t);
      && IntakeFollows(visitTtl, shared', local', t.now)
      && (local'.store.comparable ==> local.store.comparable && outcome' == outcome)
  {
    hide Redis.RedisStep, RedisBackend, CheckedStep, Related;
    FollowsLater(visitTtl, shared.store, local.store, start, t.now);
    CallAlike(visitTtl, shared.store, local.store, start, t.now,
              TryReserve(t.action.idempotencyKey, IDEMPOTENCY_HOLD));
  }

  /** An action is the exception exactly if it comes at the very instant at which a hold on its token ends. */
  lemma HandleIsComparableIff(local: Actions.Intake<Checked>, t: Actions.Attempt)
    requires local.store.comparable
    ensures !Actions.Handle(CheckedStep, local, t).0.store.comparable <==>
            Actions.Complaint(t.action).None?
            && LookUp(local.store.local.mem.idempotency, t.action.idempotencyKey) == Some(t.now)
  {
  }

  lemma ReactAlike(
    visitTtl: int, shared: Actions.Intake<Redis.Db>, local: Actions.Intake<Checked>, start: int, e: Event)
    requires visitTtl >= STALE_AFTER_NO_VISIT && IntakeFollows(visitTtl, shared, local, start)
    requires PlainEvent(e) && start <= FirstReading(e)
    ensures var (shared', reaction') := React(RedisBackend(visitTtl), shared, e);
      var (local', reaction) := React(CheckedStep, local, e);
      && IntakeFollows(visitTtl, shared', local', LastReading(e))
      && (local'.store.comparable ==> local.store.comparable && reaction' == reaction)
  {
    hide Serve, Follows, CheckedStep, RedisBackend;
    match e
    case Recommend(r) => ServeAlike(visitTtl, shared.store, local.store, start, r);
    case Submit(t) => HandleAlike(visitTtl, shared, local, start, t);
  }

  // Runs.

  ghost predicate PlainEvents(es: seq<Event>)
  {
    && (forall i :: 0 <= i < |es| ==> PlainEvent(es[i]))
    && (forall i, j :: 0 <= i < j < |es| ==> LastReading(es[i]) <= FirstReading(es[j]))
  }

  function Reactions<S>(step: Step<S>, s: Actions.Intake<S>, es: seq<Event>): seq<Reaction>
    decreases |es|
  {
    if es == [] then []
    else
      var (s', reaction) := React(step, s, es[0]);
      [reaction] + Reactions(step, s', es[1..])
  }

  /** The store and the published messages at the end of the run. */
  function FinalIntake<S>(step: Step<S>, s: Actions.Intake<S>, es: seq<Event>): Actions.Intake<S>
    decreases |es|
  {
    if es == [] then s else FinalIntake(step, React(step, s, es[0]).0, es[1..])
  }

  lemma {:induction false} ReactionsAlike(
    visitTtl: int, shared: Actions.Intake<Redis.Db>, local: Actions.Intake<Checked>, start: int, es: seq<Event>)
    requires visitTtl >= STALE_AFTER_NO_VISIT && PlainEvents(es)
    requires IntakeFollows(visitTtl, shared, local, start) && (es != [] ==> start <= FirstReading(es[0]))
    ensures FinalIntake(CheckedStep, local, es).store.comparable ==>
              && local.store.comparable
              && Reactions(RedisBackend(visitTtl), shared, es) == Reactions(CheckedStep, local, es)
              && FinalIntake(RedisBackend(visitTtl), shared, es).published
                 == FinalIntake(CheckedStep, local, es).published
    decreases |es|
  {
    hide React, Follows, RedisBackend, CheckedStep, PlainEvent, FirstReading, LastReading;
    if es != [] {
      ReactAlike(visitTtl, shared, local, start, es[0]);
      var shared', local' := React(RedisBackend(visitTtl), shared, es[0]).0, React(CheckedStep, local, es[0]).0;
      ReactionsAlike(visitTtl, shared', local', LastReading(es[0]), es[1..]);
    }
  }

  // Checking the calls does not change what the service does.

  lemma CheckedLookUp(s: Checked, user: string, c: Readings)
    ensures var (s', prev', found') := LookUpFeed(CheckedStep, s, user, c);
      (s'.local, prev', found') == LookUpFeed(LocalStep, s.local, user, c)
  {
    hide LocalStep, Comparable, WellFormed, ShouldInvalidateFeed;
  }

  lemma CheckedFanOut(s: Checked, user: string, c: Readings, p: Ports)
    ensures var (s', sources') := FanOut(CheckedStep, s, user, c, p);
      (s'.local, sources') == FanOut(LocalStep, s.local, user, c, p)
  {
    hide FetchPopular, FetchGpt, FetchSimilar;
    CheckedSideCaches(s, user, 0, c, p);
    var (s1, popular) := FetchPopular(CheckedStep, s, c, p);
    CheckedSideCaches(s1, user, 0, c, p);
    var s2 := FetchGpt(CheckedStep, s1, user, c, p).0;
    CheckedSideCaches(s2, user, SimilarAnchor(p.recent(user, HISTORY_LIMIT), popular), c, p);
  }

  lemma CheckedSideCaches(s: Checked, user: string, anchor: ProductId, c: Readings, p: Ports)
    ensures var (s', list') := FetchPopular(CheckedStep, s, c, p);
      (s'.local, list') == FetchPopular(LocalStep, s.local, c, p)
    ensures var (s', list') := FetchGpt(CheckedStep, s, user, c, p);
      (s'.local, list') == FetchGpt(LocalStep, s.local, user, c, p)
    ensures var (s', list') := FetchSimilar(CheckedStep, s, anchor, c, p);
      (s'.local, list') == FetchSimilar(LocalStep, s.local, anchor, c, p)
  {
    hide LocalStep, Comparable, WellFormed, SimilarTo;
  }

  function Unchecked(s: Actions.Intake<Checked>): Actions.Intake<Local>
  {
    Actions.Intake(s.store.local, s.published)
  }

  lemma CheckedReact(s: Actions.Intake<Checked>, e: Event)
    ensures var (s', reaction) := React(CheckedStep, s, e);
      (Unchecked(s'), reaction) == React(LocalStep, Unchecked(s), e)
  {
    hide LocalStep, Comparable, WellFormed, LookUpFeed, FanOut, StoredFeed, ClassifyVisit;
    if e.Recommend? {
      var r := e.request;
      CheckedLookUp(s.store, r.user, r.clock);
      CheckedFanOut(LookUpFeed(CheckedStep, s.store, r.user, r.clock).0, r.user, r.clock, r.ports);
    }
  }

  lemma {:induction false} CheckingIsInvisible(s: Actions.Intake<Checked>, es: seq<Event>)
    ensures Reactions(CheckedStep, s, es) == Reactions(LocalStep, Unchecked(s), es)
    ensures Unchecked(FinalIntake(CheckedStep, s, es)) == FinalIntake(LocalStep, Unchecked(s), es)
    decreases |es|
  {
    hide React, LocalStep, CheckedStep;
    if es != [] {
      CheckedReact(s, es[0]);
      CheckingIsInvisible(React(CheckedStep, s, es[0]).0, es[1..]);
    }
  }

  const EMPTY_SHARED: Actions.Intake<Redis.Db> := Actions.Intake(map[], [])
  const EMPTY_CHECKED := Actions.Intake(Checked(EMPTY_LOCAL, true), [])

  /**
    Both deployments, started empty, answer alike every run of requests by plain users and of actions in
    which all calls are comparable, and publish the same messages, on a millisecond clock.
   */
  lemma DeploymentsReactAlike(visitTtl: int, es: seq<Event>)
    requires visitTtl >= STALE_AFTER_NO_VISIT && PlainEvents(es)
    requires FinalIntake(CheckedStep, EMPTY_CHECKED, es).store.comparable
    ensures Reactions(RedisBackend(visitTtl), EMPTY_SHARED, es)
            == Reactions(LocalStep, Actions.Intake(EMPTY_LOCAL, []), es)
    ensures FinalIntake(RedisBackend(visitTtl), EMPTY_SHARED, es).published
            == FinalIntake(LocalStep, Actions.Intake(EMPTY_LOCAL, []), es).published
  {
    hide React, Matches, RedisBackend, LocalStep, CheckedStep;
    if es != [] {
      EmptyStoresMatch(visitTtl, UsableKeys(), FirstReading(es[0]));
      ReactionsAlike(visitTtl, EMPTY_SHARED, EMPTY_CHECKED, FirstReading(es[0]), es);
    }
    CheckingIsInvisible(EMPTY_CHECKED, es);
  }
}
