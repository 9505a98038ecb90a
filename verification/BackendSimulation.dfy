/**
  The flat key space simulates the separate typed maps.  The relation speaks about one key at a time, so
  it is kept whenever the keys in use print to different names.
 */
module BackendSimulation {
  import opened Wrappers
  import opened TtlPolicy
  import opened CachePorts
  import opened Decimal
  import opened IdListCodec
  import opened RedisKeyspace
  import opened InMemoryRhythmData
  import opened LazyExpiry
  import Redis = RedisRhythmData

  /** No two keys of the set print alike. */
  ghost predicate Separate(keys: iset<Key>)
  {
    forall k, q :: k in keys && q in keys && Name(k) == Name(q) ==> k == q
  }

  function RedisCell(db: Redis.Db, key: string, now: int): Option<Redis.Cell>
  {
    if Redis.Exists(db, key, now) then Some(db[key]) else None
  }

  /** What the in-process deployment holds under a key; a visit is held as its instant. */
  datatype Slot = IdList(cell: Option<TimedIds>) | Held(until: Option<int>) | Visit(at: Option<int>)

  /** A cell that has not expired before `now`; it may expire at this very instant. */
  function Remaining<K>(m: map<K, TimedIds>, k: K, now: int): Option<TimedIds>
  {
    if k in m && now <= m[k].expiresAt then Some(m[k]) else None
  }

  function SlotOf(s: Local, k: Key, now: int): Slot
  {
    match k
    case FeedKey(user) => IdList(Remaining(s.mem.feed, user, now))
    case GptRankKey(user) => IdList(Remaining(s.mem.gpt, user, now))
    case SimilarKey(anchor) => IdList(Remaining(s.mem.similar, anchor, now))
    case PopularGlobalKey =>
      IdList(if s.mem.popularInited && now <= s.mem.popular.expiresAt then Some(s.mem.popular) else None)
    case IdempotencyKey(token) =>
      var held := s.mem.idempotency;
      Held(if token in held && now <= held[token] then Some(held[token]) else None)
    case VisitLastKey(user) => Visit(LookUp(s.lastSeen, user))
  }

  /** The stored string is the encoding of the slot, with the same expiry; visits expire on their own. */
  predicate Encodes(visitTtl: int, cell: Option<Redis.Cell>, slot: Slot, now: int)
  {
    match slot
    case IdList(None) => cell.None?
    case IdList(Some(ids)) => cell == Some(Redis.Cell(EncodeIds(ids.ids), Some(ids.expiresAt)))
    case Held(None) => cell.None?
    case Held(Some(until)) => cell == Some(Redis.Cell("1", Some(until)))
    case Visit(None) => cell.None?
    case Visit(Some(at)) =>
      var gone := at + visitTtl * MS;
      0 <= at < INT64_LIMIT && if now <= gone then cell == Some(Redis.Cell(ToDecimal(at), Some(gone))) else cell.None?
  }

  predicate Matches(visitTtl: int, db: Redis.Db, s: Local, k: Key, now: int)
  {
    Encodes(visitTtl, RedisCell(db, Name(k), now), SlotOf(s, k, now), now)
  }

  ghost predicate Simulates(visitTtl: int, keys: iset<Key>, db: Redis.Db, s: Local, now: int)
  {
    forall k :: k in keys ==> Matches(visitTtl, db, s, k, now)
  }

  /** What the service always passes: positive times to live, a token, and an instant of 64 bits after the epoch. */
  predicate WellFormed(call: Call, now: int)
  {
    && (call.PutFeed? || call.PutGptRanked? || call.PutSimilar? || call.PutPopularGlobal? ==> call.ttl > 0)
    && (call.TryReserve? ==> call.token != "" && call.ttl > 0)
    && (call.MarkSeenUtc? ==> 0 <= now < INT64_LIMIT)
  }

  /** The instant at which the cell that a call reads expires in the in-process maps, if there is one. */
  function ReadExpiry(s: Local, call: Call): Option<int>
  {
    match call
    case TryGetFeed(user) => ExpiryOf(s.mem.feed, user)
    case TouchFeed(user, extendBy) => if extendBy > 0 then ExpiryOf(s.mem.feed, user) else None
    case TryGetGptRanked(user) => ExpiryOf(s.mem.gpt, user)
    case TryGetSimilar(anchor) => ExpiryOf(s.mem.similar, anchor)
    case TryGetPopularGlobal => if s.mem.popularInited then Some(s.mem.popular.expiresAt) else None
    case TryReserve(token, _) => LookUp(s.mem.idempotency, token)
    case _ => None
  }

  function ExpiryOf<K>(m: map<K, TimedIds>, k: K): Option<int>
  {
    if k in m then Some(m[k].expiresAt) else None
  }

  /**
    The calls on which the backends agree: nothing is read in the very millisecond in which it expires,
    and a feed is extended at a whole number of seconds before its expiry.
   */
  predicate Comparable(s: Local, call: Call, now: int)
  {
    var expiry := ReadExpiry(s, call);
    && (expiry.Some? ==> now != expiry.value)
    && (call.TouchFeed? && expiry.Some? && now < expiry.value ==> (expiry.value - now) % 1000 == 0)
  }

  /**
    Equal replies, except that the shared ledger may have forgotten a visit that is stale anyway, and that
    the remaining life of a feed, which the service never looks at, may be rounded differently.
   */
  predicate Alike(shared: Reply, local: Reply, now: int)
  {
    || shared == local
    || (shared == Seen(None) && local.Seen? && ShouldInvalidateFeed(local.at, now))
    || (shared.Feed? && local.Feed? && SameFeed(shared.entry, local.entry))
  }

  predicate SameFeed(shared: Option<FeedCacheEntry>, local: Option<FeedCacheEntry>)
  {
    match (shared, local)
    case (Some(a), Some(b)) => a.productIds == b.productIds
    case (None, None) => true
    case _ => false
  }

  /** The calls whose replies are equal: all but visit lookups, and feed lookups off the beat. */
  predicate RepliesEqually(s: Local, call: Call, now: int)
  {
    && !call.LastSeenUtc?
    && (call.TryGetFeed? && call.user in s.mem.feed && now < s.mem.feed[call.user].expiresAt ==>
          (s.mem.feed[call.user].expiresAt - now) % 1000 < 500)
  }

  predicate SameDecision(shared: Option<int>, local: Option<int>, decide: int, classify: int, recheck: int)
  {
    && ShouldInvalidateFeed(shared, decide) == ShouldInvalidateFeed(local, decide)
    && ClassifyVisit(shared, classify, recheck) == ClassifyVisit(local, classify, recheck)
  }

  /** A forgotten visit leads to the same decision and the same class as the visit itself. */
  lemma AlikeVisitsDecideAlike(shared: Reply, local: Reply, seen: int, decide: int, classify: int, recheck: int)
    requires Alike(shared, local, seen) && seen <= decide && seen <= recheck
    ensures SameDecision(shared.AsSeen(), local.AsSeen(), decide, classify, recheck)
  {
  }

  lemma SimulatesLater(visitTtl: int, keys: iset<Key>, db: Redis.Db, s: Local, now: int, later: int)
    requires Simulates(visitTtl, keys, db, s, now) && now <= later
    ensures Simulates(visitTtl, keys, db, s, later)
  {
    forall k | k in keys ensures Matches(visitTtl, db, s, k, later) {
      assert Matches(visitTtl, db, s, k, now);
    }
  }

  /** A step that changes one slot and one name keeps the relation if it keeps it at that key. */
  lemma OneKeyChanged(
    visitTtl: int, keys: iset<Key>, db: Redis.Db, s: Local, db': Redis.Db, s': Local, k0: Key, now: int)
    requires Separate(keys) && k0 in keys && Simulates(visitTtl, keys, db, s, now)
    requires forall name :: name != Name(k0) ==> RedisCell(db', name, now) == RedisCell(db, name, now)
    requires forall k :: k != k0 ==> SlotOf(s', k, now) == SlotOf(s, k, now)
    requires Matches(visitTtl, db', s', k0, now)
    ensures Simulates(visitTtl, keys, db', s', now)
  {
    forall k | k in keys ensures Matches(visitTtl, db', s', k, now) {
      assert Matches(visitTtl, db, s, k, now);
    }
  }

  /** A shared step touches the name of its key only. */
  lemma RedisStepTouchesItsKeyOnly(visitTtl: int, db: Redis.Db, now: int, call: Call, name: string)
    requires name != Name(Redis.KeyOf(call))
    ensures RedisCell(Redis.RedisStep(visitTtl, db, now, call).0, name, now) == RedisCell(db, name, now)
  {
  }

  /** A local step changes the slot of its key only. */
  lemma LocalStepTouchesItsKeyOnly(s: Local, now: int, call: Call, k: Key)
    requires k != Redis.KeyOf(call)
    ensures SlotOf(LocalStep(s, now, call).0, k, now) == SlotOf(s, k, now)
  {
  }

  predicate StepMatches(visitTtl: int, db: Redis.Db, s: Local, now: int, call: Call)
  {
    var shared, local := Redis.RedisStep(visitTtl, db, now, call), LocalStep(s, now, call);
    Alike(shared.1, local.1, now) && Matches(visitTtl, shared.0, local.0, Redis.KeyOf(call), now)
  }

  predicate Matched(visitTtl: int, db: Redis.Db, s: Local, now: int, call: Call)
  {
    WellFormed(call, now) && Matches(visitTtl, db, s, Redis.KeyOf(call), now)
  }

  /** The replies to a feed lookup are equal exactly if less than half a second of the life is cut off. */
  lemma ReadFeedStepMatchesIff(visitTtl: int, db: Redis.Db, s: Local, now: int, call: Call)
    requires call.TryGetFeed? && Matched(visitTtl, db, s, now, call)
    ensures StepMatches(visitTtl, db, s, now, call) <==> Comparable(s, call, now)
    ensures Comparable(s, call, now) ==>
              (RepliesEqually(s, call, now) <==>
               Redis.RedisStep(visitTtl, db, now, call).1 == LocalStep(s, now, call).1)
  {
    hide Name, EncodeIds, DecodeIds;
    if call.user in s.mem.feed {
      IdListRoundTrip(s.mem.feed[call.user].ids);
    }
  }

  lemma WriteFeedStepMatches(visitTtl: int, db: Redis.Db, s: Local, now: int, call: Call)
    requires (call.PutFeed? || call.DropFeed?) && Matched(visitTtl, db, s, now, call)
    ensures StepMatches(visitTtl, db, s, now, call) && Comparable(s, call, now)
  {
    hide Name, EncodeIds, DecodeIds;
  }

  lemma TouchStepMatchesIff(visitTtl: int, db: Redis.Db, s: Local, now: int, call: Call)
    requires call.TouchFeed? && Matched(visitTtl, db, s, now, call)
    ensures StepMatches(visitTtl, db, s, now, call) <==> Comparable(s, call, now)
  {
    hide Name, EncodeIds, DecodeIds;
  }

  lemma GptStepMatchesIff(visitTtl: int, db: Redis.Db, s: Local, now: int, call: Call)
    requires call.TryGetGptRanked? || call.PutGptRanked? || call.InvalidateUserDerived?
    requires Matched(visitTtl, db, s, now, call)
    ensures StepMatches(visitTtl, db, s, now, call) <==> Comparable(s, call, now)
  {
    hide Name, EncodeIds, DecodeIds;
    if call.TryGetGptRanked? && call.user in s.mem.gpt {
      IdListRoundTrip(s.mem.gpt[call.user].ids);
    }
  }

  lemma SimilarStepMatchesIff(visitTtl: int, db: Redis.Db, s: Local, now: int, call: Call)
    requires call.TryGetSimilar? || call.PutSimilar?
    requires Matched(visitTtl, db, s, now, call)
    ensures StepMatches(visitTtl, db, s, now, call) <==> Comparable(s, call, now)
  {
    hide Name, EncodeIds, DecodeIds;
    if call.TryGetSimilar? && call.anchor in s.mem.similar {
      IdListRoundTrip(s.mem.similar[call.anchor].ids);
    }
  }

  lemma PopularStepMatchesIff(visitTtl: int, db: Redis.Db, s: Local, now: int, call: Call)
    requires call.TryGetPopularGlobal? || call.PutPopularGlobal?
    requires Matched(visitTtl, db, s, now, call)
    ensures StepMatches(visitTtl, db, s, now, call) <==> Comparable(s, call, now)
  {
    hide Name, EncodeIds, DecodeIds;
    if call.TryGetPopularGlobal? {
      IdListRoundTrip(s.mem.popular.ids);
    }
  }

  lemma ReserveStepMatchesIff(visitTtl: int, db: Redis.Db, s: Local, now: int, call: Call)
    requires call.TryReserve? && Matched(visitTtl, db, s, now, call)
    ensures StepMatches(visitTtl, db, s, now, call) <==> Comparable(s, call, now)
  {
    hide Name, EncodeIds, DecodeIds;
  }

  lemma VisitStepMatches(visitTtl: int, db: Redis.Db, s: Local, now: int, call: Call)
    requires visitTtl >= STALE_AFTER_NO_VISIT
    requires (call.LastSeenUtc? || call.MarkSeenUtc?) && Matched(visitTtl, db, s, now, call)
    ensures StepMatches(visitTtl, db, s, now, call) && Comparable(s, call, now)
  {
    hide Name, ToDecimal, Stoll;
    if call.LastSeenUtc? && call.user in s.lastSeen {
      StollRoundTrip(s.lastSeen[call.user]);
    }
  }

  /**
    The exact condition for one call: from matching stores a well-formed call is answered alike and leaves
    matching stores if and only if it reads nothing at its expiry and extends a feed on the beat.
   */
  lemma StepMatchesIffComparable(visitTtl: int, db: Redis.Db, s: Local, now: int, call: Call)
    requires visitTtl >= STALE_AFTER_NO_VISIT && Matched(visitTtl, db, s, now, call)
    ensures StepMatches(visitTtl, db, s, now, call) <==> Comparable(s, call, now)
  {
    hide StepMatches, Comparable, Matched;
    match call {
      case TryGetFeed(_) => ReadFeedStepMatchesIff(visitTtl, db, s, now, call);
      case TouchFeed(_, _) => TouchStepMatchesIff(visitTtl, db, s, now, call);
      case PutFeed(_, _, _) => WriteFeedStepMatches(visitTtl, db, s, now, call);
      case DropFeed(_) => WriteFeedStepMatches(visitTtl, db, s, now, call);
      case TryGetGptRanked(_) => GptStepMatchesIff(visitTtl, db, s, now, call);
      case PutGptRanked(_, _, _) => GptStepMatchesIff(visitTtl, db, s, now, call);
      case InvalidateUserDerived(_) => GptStepMatchesIff(visitTtl, db, s, now, call);
      case TryGetSimilar(_) => SimilarStepMatchesIff(visitTtl, db, s, now, call);
      case PutSimilar(_, _, _) => SimilarStepMatchesIff(visitTtl, db, s, now, call);
      case TryGetPopularGlobal => PopularStepMatchesIff(visitTtl, db, s, now, call);
      case PutPopularGlobal(_, _) => PopularStepMatchesIff(visitTtl, db, s, now, call);
      case TryReserve(_, _) => ReserveStepMatchesIff(visitTtl, db, s, now, call);
      case LastSeenUtc(_) => VisitStepMatches(visitTtl, db, s, now, call);
      case MarkSeenUtc(_) => VisitStepMatches(visitTtl, db, s, now, call);
    }
  }

  /** Apart from feed and visit lookups, like replies are equal replies. */
  lemma LikeRepliesAreEqual(visitTtl: int, db: Redis.Db, s: Local, now: int, call: Call)
    requires !call.TryGetFeed? && !call.LastSeenUtc?
    requires Alike(Redis.RedisStep(visitTtl, db, now, call).1, LocalStep(s, now, call).1, now)
    ensures Redis.RedisStep(visitTtl, db, now, call).1 == LocalStep(s, now, call).1
  {
    hide Name, EncodeIds, DecodeIds;
  }

  lemma StepKeepsSimulation(visitTtl: int, keys: iset<Key>, db: Redis.Db, s: Local, now: int, call: Call)
    requires visitTtl >= STALE_AFTER_NO_VISIT
    requires Separate(keys) && Redis.KeyOf(call) in keys && Simulates(visitTtl, keys, db, s, now)
    requires WellFormed(call, now) && Comparable(s, call, now)
    ensures var shared, local := Redis.RedisStep(visitTtl, db, now, call), LocalStep(s, now, call);
      && Alike(shared.1, local.1, now)
      && (RepliesEqually(s, call, now) ==> shared.1 == local.1)
      && Simulates(visitTtl, keys, shared.0, local.0, now)
  {
    hide Redis.RedisStep, LocalStep, Comparable, Alike, Name;
    var k0 := Redis.KeyOf(call);
    assert Matches(visitTtl, db, s, k0, now);
    StepMatchesIffComparable(visitTtl, db, s, now, call);
    if call.TryGetFeed? {
      ReadFeedStepMatchesIff(visitTtl, db, s, now, call);
    } else if !call.LastSeenUtc? {
      LikeRepliesAreEqual(visitTtl, db, s, now, call);
    }
    var db', s' := Redis.RedisStep(visitTtl, db, now, call).0, LocalStep(s, now, call).0;
    forall name | name != Name(k0) ensures RedisCell(db', name, now) == RedisCell(db, name, now) {
      RedisStepTouchesItsKeyOnly(visitTtl, db, now, call, name);
    }
    forall k | k != k0 ensures SlotOf(s', k, now) == SlotOf(s, k, now) {
      LocalStepTouchesItsKeyOnly(s, now, call, k);
    }
    OneKeyChanged(visitTtl, keys, db, s, db', s', k0, now);
  }

  // Runs.

  function RedisRun(visitTtl: int, db: Redis.Db, calls: seq<TimedCall>): (r: seq<Reply>)
    ensures |r| == |calls|
    decreases |calls|
  {
    if calls == [] then []
    else
      var (db', reply) := Redis.RedisStep(visitTtl, db, calls[0].now, calls[0].call);
      [reply] + RedisRun(visitTtl, db', calls[1..])
  }

  function LocalRun(s: Local, calls: seq<TimedCall>): (r: seq<Reply>)
    ensures |r| == |calls|
    decreases |calls|
  {
    if calls == [] then []
    else
      var (s', reply) := LocalStep(s, calls[0].now, calls[0].call);
      [reply] + LocalRun(s', calls[1..])
  }

  /** Every call of the run is comparable in the state in which it comes. */
  predicate ComparableRun(s: Local, calls: seq<TimedCall>)
    decreases |calls|
  {
    calls == [] ||
    (Comparable(s, calls[0].call, calls[0].now)
     && ComparableRun(LocalStep(s, calls[0].now, calls[0].call).0, calls[1..]))
  }

  ghost predicate Workload(keys: iset<Key>, s: Local, calls: seq<TimedCall>)
  {
    && Ordered(calls) && ComparableRun(s, calls)
    && forall i :: 0 <= i < |calls| ==> WellFormed(calls[i].call, calls[i].now) && Redis.KeyOf(calls[i].call) in keys
  }

  ghost predicate AnswersAlike(visitTtl: int, db: Redis.Db, s: Local, calls: seq<TimedCall>)
  {
    forall i :: 0 <= i < |calls| ==> Alike(RedisRun(visitTtl, db, calls)[i], LocalRun(s, calls)[i], calls[i].now)
  }

  /** Backend simulation.  From related stores, any comparable run on keys with separate names is answered alike. */
  lemma {:induction false} RunsAreAlike(
    visitTtl: int, keys: iset<Key>, db: Redis.Db, s: Local, start: int, calls: seq<TimedCall>)
    requires visitTtl >= STALE_AFTER_NO_VISIT
    requires Separate(keys) && Simulates(visitTtl, keys, db, s, start) && Workload(keys, s, calls)
    requires calls != [] ==> start <= calls[0].now
    ensures AnswersAlike(visitTtl, db, s, calls)
    decreases |calls|
  {
    hide Redis.RedisStep, LocalStep, Simulates, Separate, Alike, Comparable, WellFormed;
    if calls != [] {
      var now, call := calls[0].now, calls[0].call;
      SimulatesLater(visitTtl, keys, db, s, start, now);
      StepKeepsSimulation(visitTtl, keys, db, s, now, call);
      var db', s' := Redis.RedisStep(visitTtl, db, now, call).0, LocalStep(s, now, call).0;
      RunsAreAlike(visitTtl, keys, db', s', now, calls[1..]);
    }
  }

  lemma EmptyStoresMatch(visitTtl: int, keys: iset<Key>, start: int)
    ensures Simulates(visitTtl, keys, map[], EMPTY_LOCAL, start)
  {
  }

  // A condition on the readings alone: one phase of the second per user, whole seconds being one choice.

  predicate NeverReadAtExpiry(s: Local, calls: seq<TimedCall>)
    decreases |calls|
  {
    calls == [] ||
    (ReadExpiry(s, calls[0].call) != Some(calls[0].now)
     && NeverReadAtExpiry(LocalStep(s, calls[0].now, calls[0].call).0, calls[1..]))
  }

  /** Each user's feed is stored and extended at one phase of the second. */
  ghost predicate KeepsPhase(phase: string -> int, calls: seq<TimedCall>)
  {
    forall i :: 0 <= i < |calls| && (calls[i].call.PutFeed? || calls[i].call.TouchFeed?) ==>
      calls[i].now % MS == phase(calls[i].call.user)
  }

  ghost predicate FeedsInPhase(phase: string -> int, s: Local)
  {
    forall user :: user in s.mem.feed ==> s.mem.feed[user].expiresAt % MS == phase(user)
  }

  lemma StepKeepsPhase(phase: string -> int, s: Local, now: int, call: Call)
    requires FeedsInPhase(phase, s)
    requires call.PutFeed? || call.TouchFeed? ==> now % MS == phase(call.user)
    ensures FeedsInPhase(phase, LocalStep(s, now, call).0)
  {
  }

  lemma {:induction false} PhasedRunIsComparable(phase: string -> int, s: Local, calls: seq<TimedCall>)
    requires FeedsInPhase(phase, s) && KeepsPhase(phase, calls) && NeverReadAtExpiry(s, calls)
    ensures ComparableRun(s, calls)
    decreases |calls|
  {
    hide LocalStep;
    if calls != [] {
      StepKeepsPhase(phase, s, calls[0].now, calls[0].call);
      PhasedRunIsComparable(phase, LocalStep(s, calls[0].now, calls[0].call).0, calls[1..]);
    }
  }

  /** All keys of one user, together with all keys that belong to no user. */
  ghost function KeysWith(user: string): iset<Key>
  {
    iset k: Key | IsUserKey(k) ==> k.user == user
  }

  ghost function UsableKeys(): iset<Key>
  {
    iset k: Key | Usable(k)
  }

  lemma UsableKeysAreSeparate()
    ensures Separate(UsableKeys())
  {
    forall k, q | k in UsableKeys() && q in UsableKeys() && Name(k) == Name(q) ensures k == q {
      UsableKeysInjective(k, q);
    }
  }

  /** With plain user ids the two deployments answer every comparable run alike, starting empty. */
  lemma BackendsAnswerAlike(visitTtl: int, calls: seq<TimedCall>)
    requires visitTtl >= STALE_AFTER_NO_VISIT
    requires Workload(UsableKeys(), EMPTY_LOCAL, calls)
    ensures AnswersAlike(visitTtl, map[], EMPTY_LOCAL, calls)
  {
    UsableKeysAreSeparate();
    if calls != [] {
      EmptyStoresMatch(visitTtl, UsableKeys(), calls[0].now);
      RunsAreAlike(visitTtl, UsableKeys(), map[], EMPTY_LOCAL, calls[0].now, calls);
    }
  }

  ghost predicate AnswersAllRunsAlike(visitTtl: int, user: string)
  {
    forall calls :: Workload(KeysWith(user), EMPTY_LOCAL, calls) ==> AnswersAlike(visitTtl, map[], EMPTY_LOCAL, calls)
  }

  /** A stored feed of such a user passes for a reservation: the shared store then refuses a fresh token. */
  lemma FeedBlocksReservation(visitTtl: int, user: string) returns (calls: seq<TimedCall>)
    requires !PlainUser(user)
    ensures Workload(KeysWith(user), EMPTY_LOCAL, calls) && !AnswersAlike(visitTtl, map[], EMPTY_LOCAL, calls)
  {
    var token := OtherUserKeyIsReservation(FeedKey(user));
    var put, reserve := TimedCall(0, PutFeed(user, [], 1)), TimedCall(0, TryReserve(token, 1));
    calls := [put, reserve];
    var db, s := Redis.RedisStep(visitTtl, map[], 0, put.call).0, LocalStep(EMPTY_LOCAL, 0, put.call).0;
    assert calls[1..] == [reserve];
    assert RedisRun(visitTtl, map[], calls)[1] == Redis.RedisStep(visitTtl, db, 0, reserve.call).1 == Reserved(false);
    assert LocalRun(EMPTY_LOCAL, calls)[1] == LocalStep(s, 0, reserve.call).1 == Reserved(true);
  }

  /** The exact condition on a user id under which the flat store answers like the separate maps. */
  lemma BackendsAgreeIffPlainUser(visitTtl: int, user: string)
    requires visitTtl >= STALE_AFTER_NO_VISIT
    ensures AnswersAllRunsAlike(visitTtl, user) <==> PlainUser(user)
  {
    hide AnswersAlike, ComparableRun;
    if PlainUser(user) {
      forall calls | Workload(KeysWith(user), EMPTY_LOCAL, calls)
        ensures AnswersAlike(visitTtl, map[], EMPTY_LOCAL, calls)
      {
        assert forall k :: k in KeysWith(user) ==> k in UsableKeys();
        BackendsAnswerAlike(visitTtl, calls);
      }
    } else {
      var calls := FeedBlocksReservation(visitTtl, user);
    }
  }

  /** The shared store reserves the empty token, which the in-process maps refuse. */
  lemma EmptyTokenDiverges(visitTtl: int, ttl: int, now: int)
    requires ttl > 0
    ensures Redis.RedisStep(visitTtl, map[], now, TryReserve("", ttl)).1 == Reserved(true)
    ensures LocalStep(EMPTY_LOCAL, now, TryReserve("", ttl)).1 == Reserved(false)
  {
  }

  /** A run in which rounding shows: the feed that was extended off the beat is found in one store only. */
  lemma SubSecondTouchDiverges(visitTtl: int, user: string)
    ensures var calls := [TimedCall(0, PutFeed(user, [], 10)), TimedCall(1, TouchFeed(user, 1)),
                          TimedCall(11000, TryGetFeed(user))];
      RedisRun(visitTtl, map[], calls)[2] != LocalRun(EMPTY_LOCAL, calls)[2]
  {
    var put, touch, get := PutFeed(user, [], 10), TouchFeed(user, 1), TryGetFeed(user);
    var calls := [TimedCall(0, put), TimedCall(1, touch), TimedCall(11000, get)];
    assert calls[1..] == [TimedCall(1, touch), TimedCall(11000, get)];
    assert calls[1..][1..] == [TimedCall(11000, get)];
    var db := Redis.RedisStep(visitTtl, map[], 0, put).0;
    var db' := Redis.RedisStep(visitTtl, db, 1, touch).0;
    assert db'[Name(FeedKey(user))] == Redis.Cell(EncodeIds([]), Some(11001));
    IdListRoundTrip([]);
    assert RedisRun(visitTtl, map[], calls)[2] == RedisRun(visitTtl, db, calls[1..])[1];
    assert RedisRun(visitTtl, db, calls[1..])[1] == RedisRun(visitTtl, db', calls[1..][1..])[0];
    assert RedisRun(visitTtl, map[], calls)[2] == Redis.RedisStep(visitTtl, db', 11000, get).1;
    var s := LocalStep(EMPTY_LOCAL, 0, put).0;
    var s' := LocalStep(s, 1, touch).0;
    assert s'.mem.feed[user].expiresAt == 11000;
    assert LocalRun(EMPTY_LOCAL, calls)[2] == LocalRun(s, calls[1..])[1];
    assert LocalRun(s, calls[1..])[1] == LocalRun(s', calls[1..][1..])[0];
    assert LocalRun(EMPTY_LOCAL, calls)[2] == LocalStep(s', 11000, get).1;
  }

  // The visit ledgers alone, on a millisecond clock and for arbitrary user ids.

  ghost predicate VisitHistory(calls: seq<TimedCall>)
  {
    && Ordered(calls)
    && forall i :: 0 <= i < |calls| ==>
         (calls[i].call.LastSeenUtc? || calls[i].call.MarkSeenUtc?) && 0 <= calls[i].now < INT64_LIMIT
  }

  ghost function VisitKeys(): iset<Key>
  {
    iset k: Key | k.VisitLastKey?
  }

  /** Every lookup leads to the same drop decision and visit class at every later reading. */
  ghost predicate DecidesAlike(visitTtl: int, calls: seq<TimedCall>)
  {
    forall i, decide, classify, recheck ::
      0 <= i < |calls| && calls[i].call.LastSeenUtc? && calls[i].now <= decide && calls[i].now <= recheck ==>
        SameDecision(RedisRun(visitTtl, map[], calls)[i].AsSeen(), LocalRun(EMPTY_LOCAL, calls)[i].AsSeen(),
                     decide, classify, recheck)
  }

  lemma {:induction false} VisitHistoryIsComparable(s: Local, calls: seq<TimedCall>)
    requires VisitHistory(calls)
    ensures ComparableRun(s, calls)
    decreases |calls|
  {
    if calls != [] {
      VisitHistoryIsComparable(LocalStep(s, calls[0].now, calls[0].call).0, calls[1..]);
    }
  }

  lemma LongLedgerDecidesAlike(visitTtl: int, calls: seq<TimedCall>)
    requires visitTtl >= STALE_AFTER_NO_VISIT && VisitHistory(calls)
    ensures DecidesAlike(visitTtl, calls)
  {
    var keys := VisitKeys();
    assert Separate(keys) by {
      forall k, q | k in keys && q in keys && Name(k) == Name(q) ensures k == q {
        UserKeysInjective(k, q);
      }
    }
    if calls != [] {
      EmptyStoresMatch(visitTtl, keys, calls[0].now);
      VisitHistoryIsComparable(EMPTY_LOCAL, calls);
      RunsAreAlike(visitTtl, keys, map[], EMPTY_LOCAL, calls[0].now, calls);
    }
    forall i, decide, classify, recheck |
      0 <= i < |calls| && calls[i].call.LastSeenUtc? && calls[i].now <= decide && calls[i].now <= recheck
      ensures SameDecision(RedisRun(visitTtl, map[], calls)[i].AsSeen(), LocalRun(EMPTY_LOCAL, calls)[i].AsSeen(),
                           decide, classify, recheck)
    {
      AlikeVisitsDecideAlike(RedisRun(visitTtl, map[], calls)[i], LocalRun(EMPTY_LOCAL, calls)[i],
                             calls[i].now, decide, classify, recheck);
    }
  }

  lemma ShortLedgerForgetsTooSoon(visitTtl: int, user: string) returns (calls: seq<TimedCall>)
    requires visitTtl < STALE_AFTER_NO_VISIT
    ensures VisitHistory(calls) && !DecidesAlike(visitTtl, calls)
  {
    var later := if visitTtl > 0 then visitTtl * MS + 1 else 0;
    var mark, look := TimedCall(0, MarkSeenUtc(user)), TimedCall(later, LastSeenUtc(user));
    calls := [mark, look];
    assert calls[1..] == [look];
    var db, s := Redis.RedisStep(visitTtl, map[], 0, mark.call).0, LocalStep(EMPTY_LOCAL, 0, mark.call).0;
    assert RedisRun(visitTtl, map[], calls)[1] == Redis.RedisStep(visitTtl, db, later, look.call).1 == Seen(None);
    assert LocalRun(EMPTY_LOCAL, calls)[1] == LocalStep(s, later, look.call).1 == Seen(Some(0));
    assert !SameDecision(RedisRun(visitTtl, map[], calls)[1].AsSeen(), LocalRun(EMPTY_LOCAL, calls)[1].AsSeen(),
                         later, later, later);
  }

  /** The shared ledger may forget after `visitTtl` seconds without consequence exactly if that is a day or more. */
  lemma LedgersDecideAlikeIff(visitTtl: int)
    ensures (forall calls :: VisitHistory(calls) ==> DecidesAlike(visitTtl, calls))
            <==> visitTtl >= 86_400
  {
    if visitTtl >= STALE_AFTER_NO_VISIT {
      forall calls | VisitHistory(calls) ensures DecidesAlike(visitTtl, calls) {
        LongLedgerDecidesAlike(visitTtl, calls);
      }
    } else {
      var calls := ShortLedgerForgetsTooSoon(visitTtl, "");
    }
  }
}
