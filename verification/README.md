# rhythm-service: verified model

A Dafny model of rhythm-service, a recommendation service with three moving parts: a ranked feed per user
behind TTL caches (`GET /recommend`), an idempotent intake of user actions (`POST /action`), and a worker that
stores each published action once and then drops the user's caches. The model follows the code branch by
branch. Wherever the code reads a clock, the reading is a parameter (milliseconds since the epoch; times to live
stay in seconds), so the theorems hold for every schedule of readings they do not explicitly restrict.

`dafny verify dfyconfig.toml` checks the whole project.

## How the modules fit together

| Module | Content |
|---|---|
| `Wrappers`, `TtlPolicy`, `CachePorts` | product ids and actions, the visit and TTL policy, the cache ports as calls and replies |
| `Ranking`, `FanOutMerge` | the declarative ranking, and the imperative merge with its score map and in-place sort |
| `InMemoryRhythmData`, `LazyExpiry` | the in-process maps as classes over a step function, and an eagerly forgetting store as their reference |
| `Decimal`, `IdListCodec`, `RedisKeyspace`, `RedisRhythmData`, `BackendSimulation` | the flat string store, its keys and encodings, and its simulation of the separate maps |
| `RecommendationService`, `FeedRuns`, `SourceFreshness` | the request, and whole runs of requests on the in-process maps |
| `ServiceEquivalence`, `SharedStoreRuns` | the equivalence of both deployments, and whole runs on the shared store with its rounding |
| `InvalidationProtocol`, `InvalidationSafety`, `HypothesesNeeded` | requests and worker interleaved step by step, the exact conditions for safety, and why each hypothesis is needed |
| `ProtocolScenarios`, `ProtocolSteps`, `ProtocolOnSharedStore` | single-step invalidations, runs of overlapping requests, what the steps leave out (nothing) and leave alone, and each step as one call of the shared store |
| `ActionService`, `UserActionConsumer`, `ActionPipeline` | reservation, publication, delivery, deduplicated insert |

The main results are these.

* **Invalidation safety**. Port calls of requests, worker writes, expiries and crashes interleave arbitrarily, and
  the three deletes of an invalidation are separate steps. `AlwaysFreshIff` gives the exact condition on a state:
  however the system goes on, every request that begins later serves a feed whose history was read after the row,
  if and only if (1) no request of the user holds a history from before the row that it has not stored yet, and (2)
  a stored feed from before the row has no mark beside it, and no request past its drop is about to set one.
  `FreshForPatientIff` is the same if requests that begin later wait for those that hold an old history.
  `InvalidationIsSafe` derives the statement about runs: three hypotheses, all about an old history that waits when
  the deletes start, and none about the rest of the run. `SafeIffNothingIsAllowed` shows that runs are safe if and
  only if none of the three is given up. Non-overlapping requests are a special case (`DisciplinedRunsAreSafe`).
  The protocol's steps are the service's calls one by one and at any interleaving (`BeginIsCall`,
  `RequestStepIsCall`, `DeleteIsCall`, `ExpiryIsTime`), its new rows are the worker's (`InsertIsNewRow`), and nobody
  in it ever waits (`RequestsNeverWait`, `NothingElseWaits`).
* **One feed, two backends**. `StepMatchesIffComparable` gives the exact condition on one call: from matching stores
  it is answered alike and leaves matching stores if and only if it reads nothing in the very millisecond of its
  expiry and extends a feed at a whole number of seconds before its expiry. `BackendsAgreeIffPlainUser`: the flat
  string store answers all runs of such calls like the separate maps if and only if the user id is neither
  `idempotency` nor begins with `idempotency}:`. `DeploymentsReactAlike`: the service on one store or the other gives
  equal reactions to all runs of requests and actions made of such calls.
* **Life on the shared store**. Rounding carries the expiry of a feed by at most half a second for each extension
  (`SharedLifetime`), and both bounds are reached for any number of extensions.
* **The merge is the ranking** (`FanOutMerge`, `RankingIsUnique`), for every order in which the hash map may be
  enumerated, and it reacts to its inputs as it should (`OneMoreOccurrenceNeverDemotes`, `BetterListNeverDemotes`,
  `HistoryAndSimilarAreInterchangeable`).
* **Runs of the feed cache** (`CachedAnswerIsLastMissAnswer`, `StoredFeedFollowsLog`, `HitGrantsNothingIff`,
  `CacheAnswersOnlyRecentVisitors`, `SteadyVisitorIsServedOneFeed`, `SimilarListIsFresh` and its siblings), with the
  many clock readings of a request kept apart.
* **Actions end to end** (`OutcomeIsDecidedByReservations`, `FirstDeliveryWins`, `ConfluentIffDistinct`,
  `RowsAreAcceptedActions`, `TableHoldsAcceptedActions`, `InvalidationsMatchRowsIffNoneMissed`).

## What the proofs found

* The header comment of the stale-visit test speaks of more than a day (src/domain/ttl_policy.hpp:37), while the
  code drops the feed at 24 h exactly. The model follows the code.
* A user id that is `idempotency`, or begins with `idempotency}:`, owns keys that coincide with reservation keys:
  a stored feed of such a user makes the shared store refuse a token that nobody used (`FeedBlocksReservation`),
  and every clash of names is of this kind (`NamesCoincideIff`).
* The in-process maps refuse the empty token and the shared store reserves it (`EmptyTokenDiverges`); the service
  never gets that far with one, so the deployments still agree (`HandleAlike`).
* The shared store reports a remaining life in whole seconds, and an extension starts from that report. It is exact
  if and only if a whole number of seconds is left; otherwise it gains up to 500 ms or loses up to 499 ms against
  the in-process maps (`ExtensionIsExactIff`), and this adds up with every hit (`SharedLifetime`,
  `LateDriftIsReached`, `EarlyDriftIsReached`).
* In the millisecond of an expiry the shared store still has the key and the in-process maps do not
  (`StepMatchesIffComparable`).
* A hit extends nothing if the previous visit turns stale between the drop decision and the classification of the
  same request, and only then (`HitGrantsNothingIff`).
* A feed that misses a row can be served after the row's invalidation in three ways, each of which needs a request
  that read its history before the row and stores it late: a second request had decided to keep the feed but not
  set its mark when the deletes started, one begins between the deletes, or one begins after them before the late
  feed is stored (`MarkerAtStartIsUnsafe`, `BeginInsideIsUnsafe`, `BeginTooSoonIsUnsafe`).
* Reservations are keyed by the token alone, rows by user and token. A token in use blocks every user, and a
  message that the broker refused cannot be submitted again until the hold is over (`HeldTokenBlocksEveryUser`).
* If the worker fails between insert and invalidation, the redelivered message finds its row and does nothing, so
  that invalidation never happens (`RedeliveryDoesNothing`, `InvalidationsMatchRowsIffNoneMissed`).
* A token that is accepted again after the hold, by the same user with other fields, leaves no second row; this is
  the only way an accepted action can be missing from the table (`TableHoldsAcceptedActions`).
* Product 0, which also stands for no product, gets no similar list (`SimilarListIsFresh`).

## Model

| member | source | states |
|---|---|---|
| `TtlPolicy.NonStaleVisitIsTodayOrYesterday` | src/domain/ttl_policy.cpp:25-35 | a past visit that is not stale is Yesterday exactly if a UTC midnight lies between it and the request, otherwise Today; the extension on a hit is then one hour or six, never zero |
| `TtlPolicy.FallthroughIffVisitOnLaterDay` | src/domain/ttl_policy.cpp:32-34 | a visit that passed the 24 h test is still classed as a new session if and only if it lies on a later UTC day than the request |
| `TtlPolicy.ClassByUtcDays` | src/domain/ttl_policy.cpp:11-35 | for any two clock readings: Today exactly for a visit under 24 h old in the same UTC day, Yesterday exactly for one in the day before, a new session otherwise |
| `Ranking.RankingIsUnique` | src/services/recommendation_service.cpp:84-94 | a list has exactly the mentioned ids in strictly descending score order, ties by ascending id, if and only if it is the ranking |
| `Ranking.OrderIsUnique` | src/services/recommendation_service.cpp:84-87 | the comparator leaves no choice: two ordered lists of the same ids are equal |
| `Ranking.RankIgnoresListOrder` | src/services/recommendation_service.cpp:67-76 | permuting any source list does not change the ranking |
| `Ranking.OneMoreEffect` | src/services/recommendation_service.cpp:73-76 | one more occurrence of an id in any list raises its score and no other, and mentions no other id |
| `Ranking.OneMoreOccurrenceNeverDemotes` | src/services/recommendation_service.cpp:65-95 | one more occurrence never moves an id to a later position, and all other ids keep their relative order |
| `Ranking.BetterListNeverDemotes` | src/services/recommendation_service.cpp:12-15 | an occurrence that moves away from the popular list or into the ranked one never moves its id to a later position, and all other ids keep their order |
| `Ranking.HistoryAndSimilarAreInterchangeable` | src/services/recommendation_service.cpp:12-15 | moving an occurrence between history and similar changes nothing |
| `Ranking.TruncatingTwice` | src/services/recommendation_service.cpp:97-122 | cutting to 100 for storage and to 50 for the answer equals cutting the full ranking to 50 |
| `Ranking.OmittedNeverOutranksServed` | src/services/recommendation_service.cpp:97-100 | a mentioned id that a truncation leaves out ranks after every id it keeps, and the truncated list is full |
| `Ranking.ScoresFitInt32` | src/services/recommendation_service.cpp:66-69 | with the limits passed to the ports no score leaves the 32-bit range |
| `FanOutMerge.AddWeighted` | src/services/recommendation_service.cpp:67-71 | the loop adds the weight once per occurrence, for every id, and creates no other keys |
| `FanOutMerge.SortItems` | src/services/recommendation_service.cpp:84-87 | in place: a permutation of the items, ordered by the comparator |
| `FanOutMerge.SortedItemsAreRanking` | src/services/recommendation_service.cpp:78-94 | any sorted enumeration of the score map spells the ranking |
| `FanOutMerge.RankingByWeights` | src/services/recommendation_service.cpp:12-15 | of two ids of the ranking the earlier one has the greater sum of three for history, two for popular, four for the ranked list and three for similar, or an equal sum and the smaller id |
| `FanOutMerge.FanOutMerge` | src/services/recommendation_service.cpp:65-95 | the imperative merge returns the ranking, by these weights and with exactly the ids of the four lists, for every enumeration order of the hash map |
| `InMemoryRhythmData.RhythmData.TryGetFeed` | src/infra/in_memory_stubs.cpp:15-26 | reply and new maps are those of the specified step: expired cells are erased, the remaining life is whole seconds |
| `InMemoryRhythmData.RhythmData.PutFeed` | src/infra/in_memory_stubs.cpp:28-34 | overwrites ids and expiry of the user and nothing else |
| `InMemoryRhythmData.RhythmData.TouchFeed` | src/infra/in_memory_stubs.cpp:36-47 | adds the extension to the expiry of a live feed; erases an expired one; ignores a non-positive extension |
| `InMemoryRhythmData.RhythmData.DropFeed` | src/infra/in_memory_stubs.cpp:49-52 | forgets the feed of the user, live or not, and nothing else |
| `InMemoryRhythmData.RhythmData.TryGetGptRanked` | src/infra/in_memory_stubs.cpp:54-63 | the live list of the user; an expired one is erased and missed |
| `InMemoryRhythmData.RhythmData.PutGptRanked` | src/infra/in_memory_stubs.cpp:65-71 | overwrites list and expiry of the user and nothing else |
| `InMemoryRhythmData.RhythmData.TryGetSimilar` | src/infra/in_memory_stubs.cpp:73-82 | the live list of the anchor; an expired one is erased and missed |
| `InMemoryRhythmData.RhythmData.PutSimilar` | src/infra/in_memory_stubs.cpp:84-90 | overwrites list and expiry of the anchor and nothing else |
| `InMemoryRhythmData.RhythmData.TryGetPopularGlobal` | src/infra/in_memory_stubs.cpp:92-100 | an expired list lowers the flag, and the ids stay where they are |
| `InMemoryRhythmData.RhythmData.PutPopularGlobal` | src/infra/in_memory_stubs.cpp:102-107 | replaces the list and its expiry and raises the flag |
| `InMemoryRhythmData.RhythmData.InvalidateUserDerived` | src/infra/in_memory_stubs.cpp:109-112 | forgets the ranked list of the user and keeps the feed |
| `InMemoryRhythmData.RhythmData.TryReserve` | src/infra/in_memory_stubs.cpp:114-125 | refuses the empty token and one held beyond the reading; otherwise holds it for the TTL from the reading |
| `InMemoryRhythmData.VisitLedger.LastSeenUtc` | src/infra/visit_ledger.cpp:5-10 | the instant held for the user, whatever its age, or none |
| `InMemoryRhythmData.VisitLedger.MarkSeenUtc` | src/infra/visit_ledger.cpp:12-15 | overwrites the instant of the user and no other |
| `InMemoryRhythmData.ReadsEraseExpired` | src/infra/in_memory_stubs.cpp:54-63 | a read of the maps finds a cell that has not expired, erases one that has, and changes nothing else |
| `InMemoryRhythmData.PopularFlagFollowsExpiry` | src/infra/in_memory_stubs.cpp:92-100 | the flag of the popular list is lowered when the list is found expired |
| `InMemoryRhythmData.TouchErasesExpired` | src/infra/in_memory_stubs.cpp:42-45 | extending an expired feed erases it |
| `LazyExpiry.LazyStepIsEager` | src/infra/in_memory_stubs.cpp:15-125 | a step on lazily expiring maps answers like a store that forgets cells at their expiry, from every pair of stores with the same live view, and keeps the views equal |
| `LazyExpiry.LazyRunRefinesEagerRun` | src/infra/in_memory_stubs.cpp:15-125 | every run of calls on a clock that does not go backwards gets the same replies from both stores |
| `LazyExpiry.TryGetSeesLiveCells` | src/infra/in_memory_stubs.cpp:54-63 | a lookup finds exactly the live cell, and erasing an expired one does not change the live view |
| `LazyExpiry.EmptyStoresRunAlike` | src/infra/in_memory_stubs.cpp:15-125 | no ordered run that starts with empty stores tells the two apart |
| `LazyExpiry.CallsLeaveOthersUntouched` | src/infra/in_memory_stubs.cpp:15-125 | a call leaves the live cells of all other users, anchors and tokens as they were |
| `Decimal.IntegerRoundTrip` | src/infra/redis_rhythm_data.cpp:37-41 | reading a printed integer as a JSON number gives the integer back |
| `Decimal.StollRoundTrip` | src/infra/redis_rhythm_data.cpp:174-190 | the lenient reading of a stored visit gives back every 64-bit instant |
| `Decimal.StollReadsDigits` | src/infra/redis_rhythm_data.cpp:174 | blanks, one sign and digits are read, whatever follows, as far as 64 bits go |
| `Decimal.StollRefusesText` | src/infra/redis_rhythm_data.cpp:174 | text without a digit where one must be is refused |
| `IdListCodec.IdsToJson` | src/infra/redis_rhythm_data.cpp:19-25 | the loop writes the encoding of the list |
| `IdListCodec.JsonToIds` | src/infra/redis_rhythm_data.cpp:27-46 | succeeds exactly on arrays, with any whitespace, whose every element is a 64-bit integer, and then appends them in order, unsigned values wrapped |
| `IdListCodec.IdListRoundTrip` | src/infra/redis_rhythm_data.cpp:19-46 | every list of 64-bit ids that is stored is read back unchanged |
| `IdListCodec.ArrayIsReadIff` | src/infra/redis_rhythm_data.cpp:36-44 | an array of integers is refused if and only if one of them leaves both 64-bit ranges; unsigned ones are stored less two to the 64 |
| `IdListCodec.LeadingZeroIsRefused` | src/infra/redis_rhythm_data.cpp:30-34 | one number with a superfluous leading zero spoils the whole array |
| `IdListCodec.WhitespaceIsIgnored` | src/infra/redis_rhythm_data.cpp:27-46 | whitespace around the array and around its numbers makes no difference |
| `RedisKeyspace.NamesCoincideIff` | src/infra/redis_keyspace.hpp:10-22 | for arbitrary users, anchors and tokens two keys print alike if and only if they are the same key, or a user key is mistaken for the one token that spells it |
| `RedisKeyspace.UserKeysInjective` | src/infra/redis_keyspace.hpp:10-14 | feed, visit and ranking keys determine kind and user, whatever the user id contains |
| `RedisKeyspace.SimilarKeysInjective` | src/infra/redis_keyspace.hpp:16-18 | similar keys determine the anchor, negative ones included |
| `RedisKeyspace.UserKeyMeetsReservationIff` | src/infra/redis_keyspace.hpp:10-22 | a user key equals the key of some token if and only if the id is `idempotency` or begins with `idempotency}:` |
| `RedisKeyspace.UserKeysShareHashTag` | src/infra/redis_keyspace.hpp:8-14 | by the rule of the section "Hash tags" of the Redis Cluster Specification the three keys of a user have one tag, even if the id contains braces |
| `RedisKeyspace.NamesAsTested` | src/infra/redis_keyspace.hpp:10-22 | the six names that the unit tests of the key space expect |
| `RedisRhythmData.RhythmData.TryGetFeed` | src/infra/redis_rhythm_data.cpp:68-84 | undecodable values are deleted and missed; otherwise the ids with the remaining life, or zero without expiry |
| `RedisRhythmData.RhythmData.PutFeed` | src/infra/redis_rhythm_data.cpp:86-90 | stores the encoded list under the feed key with its TTL, and nothing for a non-positive one |
| `RedisRhythmData.RhythmData.TouchFeed` | src/infra/redis_rhythm_data.cpp:92-99 | sets the rounded remaining life plus the extension, if the key has an expiry |
| `RedisRhythmData.RhythmData.DropFeed` | src/infra/redis_rhythm_data.cpp:101 | deletes the feed key only |
| `RedisRhythmData.RhythmData.TryGetIds` | src/infra/redis_rhythm_data.cpp:103-113 | the common read of the three side caches: undecodable values are deleted and missed |
| `RedisRhythmData.RhythmData.TryGetGptRanked` | src/infra/redis_rhythm_data.cpp:103-113 | reads the ranking key of the user |
| `RedisRhythmData.RhythmData.PutGptRanked` | src/infra/redis_rhythm_data.cpp:115-118 | stores the encoded list under the ranking key with its TTL |
| `RedisRhythmData.RhythmData.TryGetSimilar` | src/infra/redis_rhythm_data.cpp:120-130 | reads the key of the anchor |
| `RedisRhythmData.RhythmData.PutSimilar` | src/infra/redis_rhythm_data.cpp:132-135 | stores the encoded list under the key of the anchor with its TTL |
| `RedisRhythmData.RhythmData.TryGetPopularGlobal` | src/infra/redis_rhythm_data.cpp:137-147 | reads the one popular key |
| `RedisRhythmData.RhythmData.PutPopularGlobal` | src/infra/redis_rhythm_data.cpp:149-151 | stores the encoded list under the popular key with its TTL |
| `RedisRhythmData.RhythmData.InvalidateUserDerived` | src/infra/redis_rhythm_data.cpp:153-155 | deletes the ranking key only |
| `RedisRhythmData.RhythmData.TryReserve` | src/infra/redis_rhythm_data.cpp:163-167 | stores the marker if the key is absent, and reports whether it did |
| `RedisRhythmData.RhythmData.LastSeenUtc` | src/infra/redis_rhythm_data.cpp:169-184 | the stored instant, read as leniently as `std::stoll` reads; unreadable, oversized and negative values are deleted and count as no visit |
| `RedisRhythmData.RhythmData.MarkSeenUtc` | src/infra/redis_rhythm_data.cpp:186-191 | stores the reading in decimal under the visit key with the ledger TTL |
| `RedisRhythmData.CorruptListIsErased` | src/infra/redis_rhythm_data.cpp:72-77 | a stored list that cannot be decoded is a miss and its key is deleted, on all four reads |
| `RedisRhythmData.LastingFeedIsServed` | src/infra/redis_rhythm_data.cpp:78-96 | a feed without expiry is served with no remaining life, and extending leaves it as it is |
| `RedisRhythmData.VisitIsReadOrErased` | src/infra/redis_rhythm_data.cpp:169-184 | unreadable, oversized and negative visits are deleted, an empty one is left in place, all others are read |
| `RedisRhythmData.RhythmData.InvalidateAfterUserAction` | src/infra/redis_rhythm_data.cpp:157-161 | removes the feed, ranking and visit keys of the user |
| `BackendSimulation.StepMatchesIffComparable` | src/infra/redis_rhythm_data.cpp:68-191 | from matching stores a well-formed call is answered alike and leaves matching stores if and only if it reads nothing in the millisecond of its expiry and extends a feed a whole number of seconds before its expiry |
| `BackendSimulation.ReadFeedStepMatchesIff` | src/infra/redis_rhythm_data.cpp:68-84 | among these, the replies to a feed lookup are equal, remaining life included, if and only if less than half a second of it is cut off |
| `BackendSimulation.StepKeepsSimulation` | src/infra/redis_rhythm_data.cpp:68-191 | one comparable call on related stores gets like replies and leaves related stores, if names in use do not clash |
| `BackendSimulation.RunsAreAlike` | src/infra/redis_rhythm_data.cpp:68-191 | the same for comparable runs of any length on a millisecond clock, on any set of keys with separate names |
| `BackendSimulation.PhasedRunIsComparable` | src/infra/redis_rhythm_data.cpp:92-99 | a run is comparable if each user's feed is stored and extended at one phase of the second, for instance on whole seconds, and nothing is read at its expiry |
| `BackendSimulation.BackendsAnswerAlike` | src/infra/in_memory_stubs.cpp:15-125 | from empty stores, with plain user ids, every comparable run is answered alike by both backends |
| `BackendSimulation.BackendsAgreeIffPlainUser` | src/infra/redis_keyspace.hpp:10-22 | all comparable runs of one user's calls and all shared calls, visit lookups included, are answered alike if and only if the user id is plain |
| `BackendSimulation.FeedBlocksReservation` | src/infra/redis_keyspace.hpp:10-22 | the two-call run on which the backends differ for a user id that is not plain |
| `BackendSimulation.EmptyTokenDiverges` | src/infra/in_memory_stubs.cpp:115 | the empty token is reserved by the shared store and refused by the maps |
| `BackendSimulation.SubSecondTouchDiverges` | src/infra/redis_rhythm_data.cpp:92-99 | a run in which the rounding is seen: a feed extended off the beat is found in one store only |
| `BackendSimulation.LedgersDecideAlikeIff` | src/infra/redis_rhythm_data.cpp:169-191 | the expiring ledger leads to the same drop decision and visit class as the ledger that never forgets, for all visit histories, if and only if its TTL is 24 h or more |
| `RecommendationService.Service.PopularList` | src/services/recommendation_service.cpp:30-35 | a live popular list as it is, otherwise the port's list, stored for an hour |
| `RecommendationService.Service.GptList` | src/services/recommendation_service.cpp:37-42 | a live ranked list of the user as it is, otherwise the port's list, stored for half an hour |
| `RecommendationService.Service.SimilarList` | src/services/recommendation_service.cpp:50-61 | nothing for anchor 0; a live list of the anchor as it is; otherwise neighbours, or popular products if there are none, stored for a day |
| `RecommendationService.Service.LookUp` | src/services/recommendation_service.cpp:103-111 | previous visit, feed found and state after drop, mark and lookup, in this order |
| `RecommendationService.Service.FetchSources` | src/services/recommendation_service.cpp:26-63 | sources and new state are those of the specified fan-out |
| `RecommendationService.Service.GetRecommendations` | src/services/recommendation_service.cpp:102-123 | answer and new state are those of the specified request |
| `FeedRuns.ServeHasFeedEffect` | src/services/recommendation_service.cpp:102-123 | a request is a hit exactly if the previous visit is known and under 24 h old and a live feed exists; what is served, stored, extended and left alone in either case |
| `FeedRuns.RunExists` | src/services/recommendation_service.cpp:102-123 | every list of requests, readings and port answers has a run |
| `FeedRuns.LedgerHoldsLastVisit` | src/services/recommendation_service.cpp:109 | the ledger holds the mark of the user's latest request |
| `FeedRuns.StoredFeedFollowsLog` | src/services/recommendation_service.cpp:111-121 | in every reachable state a stored feed is the top 100 of the merge of the user's last miss, and its expiry is the put time plus 5760 s plus all extensions granted since |
| `FeedRuns.CachedAnswerIsLastMissAnswer` | src/services/recommendation_service.cpp:111-122 | every cached answer equals the answer of the user's last miss, the top 50 of the full merge of the sources read then |
| `FeedRuns.MissAnswersFromItsSources` | src/services/recommendation_service.cpp:118-122 | a miss answers the top 50 of the merge of its sources, with the history of 120 products read in the request |
| `FeedRuns.CacheAnswersOnlyRecentVisitors` | src/services/recommendation_service.cpp:103-116 | the cache answers if and only if the previous request is known and under 24 h old and a feed is stored that has not expired |
| `FeedRuns.LifetimeGrowsWithHits` | src/domain/ttl_policy.cpp:46-56 | n extending hits add between 3600 n and 21600 n seconds, for any readings |
| `FeedRuns.HitGrantsNothingIff` | src/domain/ttl_policy.cpp:25-56 | with readings in program order a hit extends nothing if and only if the previous visit is 24 h old at the last reading; otherwise by six hours across a UTC midnight and by one hour within a day |
| `FeedRuns.HitsExtendIffInTime` | src/domain/ttl_policy.cpp:25-56 | all hits since the last miss extend the feed if and only if each was in time |
| `FeedRuns.SteadyVisitorIsServedOneFeed` | src/services/recommendation_service.cpp:102-122 | a user who comes back within the hour, counted to the last reading of the request, misses once and is then served one unchanged feed, whatever others do and however the readings of a request differ |
| `SourceFreshness.HistoryAndPopularAreFresh` | src/services/recommendation_service.cpp:28-35 | a merge uses the history read in the request and the popular list that its port returned to the last miss that had to ask; a miss has to ask exactly if no list was stored under 3600 s before |
| `SourceFreshness.GptListIsFresh` | src/services/recommendation_service.cpp:37-42 | the ranked list is what its port returned to the user's last miss that had to ask, that is one with no list stored under 1800 s before |
| `SourceFreshness.SimilarListIsFresh` | src/services/recommendation_service.cpp:44-61 | the similar list belongs to the first id of the history, or of the popular list if there is no history; it is what the ports answered for it to the last miss that had to ask (none stored under 86400 s before): 60 neighbours, or 60 popular products exactly if there were none; no list for product 0 |
| `ServiceEquivalence.ServeAlike` | src/services/recommendation_service.cpp:102-123 | one request on related stores, if all its calls are comparable, takes the same branch, returns the same list and leaves related stores |
| `ServiceEquivalence.HandleAlike` | src/services/action_service.cpp:28-51 | one action on related stores gets the same verdict and publishes the same message, if its reservation is comparable |
| `ServiceEquivalence.HandleIsComparableIff` | src/services/action_service.cpp:38-41 | which it is unless a valid action comes at the very millisecond at which a hold on its token ends |
| `ServiceEquivalence.CheckingIsInvisible` | src/app/port_resolution.cpp:35-69 | watching whether calls are comparable changes neither reactions nor stores |
| `ServiceEquivalence.DeploymentsReactAlike` | src/app/port_resolution.cpp:35-69 | started empty, both deployments give equal reactions to every run of requests by plain users and of actions whose calls are all comparable, and publish the same messages |
| `SharedStoreRuns.ExtensionIsExactIff` | src/infra/redis_rhythm_data.cpp:92-99 | extending a live feed is exact if and only if a whole number of seconds is left; otherwise the expiry moves by at most half a second |
| `SharedStoreRuns.ServeHasSharedEffect` | src/services/recommendation_service.cpp:102-123 | what a request does to the feed and visit keys of each user on the shared store, for any user id and any readings |
| `SharedStoreRuns.SharedFeedFollowsLog` | src/infra/redis_rhythm_data.cpp:86-99 | in every reachable state of the shared deployment a stored feed is that of the user's last miss |
| `SharedStoreRuns.SharedAnswerIsLastMissAnswer` | src/services/recommendation_service.cpp:111-122 | on the shared store too every cached answer is the top 50 of the full merge of the last miss |
| `SharedStoreRuns.SharedLifetime` | src/infra/redis_rhythm_data.cpp:92-99 | on a millisecond clock the expiry of a live feed is the put time plus 5760 s plus all extensions granted, up to half a second for each extension |
| `SharedStoreRuns.LateDriftIsReached` | src/infra/redis_rhythm_data.cpp:92-99 | half a second is gained with each of n extensions 500 ms apart, against the in-process maps |
| `SharedStoreRuns.EarlyDriftIsReached` | src/infra/redis_rhythm_data.cpp:92-99 | 499 ms are lost with each of n extensions 501 ms apart |
| `InvalidationProtocol.StepKeepsInv` | src/services/recommendation_service.cpp:102-123 | every step of every request and worker keeps the invariant; outside a request a stored feed older than the last invalidation implies that there is no visit mark |
| `InvalidationProtocol.DeleteMarkKeepsInv` | src/infra/redis_rhythm_data.cpp:157-161 | removing the visit mark repairs a feed stored too late by a request that overlapped the invalidation |
| `InvalidationProtocol.InvHolds` | src/services/recommendation_service.cpp:102-123 | the invariant holds in every state of every run that meets the hypotheses |
| `InvalidationSafety.TraceIsFaithful` | src/services/recommendation_service.cpp:118-121 | in every run, without hypotheses, each stored and served feed has the history that the store reported for the rows it was read from |
| `InvalidationSafety.AlwaysFreshIff` | src/services/recommendation_service.cpp:102-123 | from a state on, all later requests serve feeds with the row, however the system goes on, if and only if no request holds an older history and an older feed is unmarked and stays so |
| `InvalidationSafety.FreshForPatientIff` | src/services/recommendation_service.cpp:102-123 | the exact condition if requests that begin later wait for those that hold an older history |
| `InvalidationSafety.UnsettledGoesWrong` | src/services/recommendation_service.cpp:105-121 | from every state that breaks this condition a path leads to an old feed being served, to any new request id |
| `InvalidationSafety.InvalidationSettles` | src/infra/redis_rhythm_data.cpp:157-161 | the three deletes establish the condition, if no request with its mark to set stands beside an old history when they start, and none begins between them |
| `InvalidationSafety.InvalidationIsSafe` | src/workers/user_action_consumer.cpp:96-101 | a request that begins after the completed invalidation for a row serves a merge whose history was read from a table with that row; the hypotheses concern only an old history that waits when the deletes start |
| `InvalidationSafety.DisciplinedRunsAreSafe` | src/workers/user_action_consumer.cpp:96-101 | in particular if a user's requests do not overlap each other and at most one overlaps each invalidation |
| `HypothesesNeeded.MarkerAtStartIsUnsafe` | src/services/recommendation_service.cpp:105-121 | a run that breaks the first hypothesis only: a second request has decided to keep the feed when the deletes start |
| `HypothesesNeeded.BeginInsideIsUnsafe` | src/infra/redis_rhythm_data.cpp:157-161 | a run that breaks the second only: a request begins between the deletes |
| `HypothesesNeeded.BeginTooSoonIsUnsafe` | src/services/recommendation_service.cpp:105-121 | a run that breaks the third only: a request begins after the deletes while the old history still waits |
| `HypothesesNeeded.SafeIffNothingIsAllowed` | src/infra/redis_rhythm_data.cpp:157-161 | the runs that keep the remaining hypotheses are all safe if and only if none of the three is given up |
| `ProtocolScenarios.SingleStepsNeedOneHypothesis` | src/infra/redis_rhythm_data.cpp:157-161 | if the three deletes are one step it is enough that a user's requests do not overlap each other |
| `ProtocolScenarios.OverlappingRequestsServeTooOld` | src/services/recommendation_service.cpp:105-121 | the run in which two overlapping requests serve a feed older than a completed invalidation |
| `ProtocolScenarios.TwoRequestsInOneWindowServeTooOld` | src/infra/redis_rhythm_data.cpp:157-161 | the run in which two successive requests within the three deletes make a third one serve such a feed |
| `ProtocolSteps.InsertIsNewRow` | src/workers/user_action_consumer.cpp:96-101 | a delivery that brings a new row is the step of the protocol that adds it: the same table, its invalidation can start, and after a failure it cannot |
| `ProtocolSteps.EveryInvalidationCompletes` | src/workers/user_action_consumer.cpp:99-101 | for every table and every row of it there is a run with this table in which the row's invalidation completes |
| `ProtocolSteps.RequestsNeverWait` | src/services/recommendation_service.cpp:102-123 | a request that is not over can take its next step in every state |
| `ProtocolSteps.NothingElseWaits` | src/workers/user_action_consumer.cpp:96-101 | requests begin, rows arrive and cells expire at any time; an invalidation goes on or fails at any time |
| `ProtocolSteps.StepsLeaveOthersAlone` | src/services/recommendation_service.cpp:102-123 | a step leaves other requests, other users' feeds and marks, and other invalidations as they are |
| `ProtocolSteps.OverStaysOver` | src/services/recommendation_service.cpp:102-123 | a request that finished or gave up never moves again |
| `ProtocolSteps.EndedInvalidationIsFinal` | src/workers/user_action_consumer.cpp:99-108 | an invalidation that failed or is complete is never taken up again |
| `ProtocolScenarios.AloneIsServe` | src/services/recommendation_service.cpp:102-123 | without interference the protocol's request steps at one clock reading answer as the service on the in-process maps and leave corresponding stores |
| `ProtocolOnSharedStore.AloneIsServeShared` | src/services/recommendation_service.cpp:102-123 | the same for the service on the shared store, where the worker runs, for any user id |
| `ProtocolOnSharedStore.DeletesAreInvalidation` | src/infra/redis_rhythm_data.cpp:157-161 | the three delete steps do to the feed and mark of every user what the worker's invalidation does to their keys |
| `ProtocolOnSharedStore.BeginIsCall` | src/services/recommendation_service.cpp:103-107 | at any interleaving the first step of a request is the visit lookup, with the service's drop decision |
| `ProtocolOnSharedStore.RequestStepIsCall` | src/services/recommendation_service.cpp:105-121 | each later step of a request is one call of the shared store, with the same effect for every user |
| `ProtocolOnSharedStore.LookUpIsReply` | src/services/recommendation_service.cpp:111-118 | a lookup hits or misses as the store replies, with the same ids |
| `ProtocolOnSharedStore.DeleteIsCall` | src/infra/redis_rhythm_data.cpp:157-161 | the first delete drops the feed, the second the ranking, the third the visit, with the same effect for every user |
| `ProtocolOnSharedStore.ExpiryIsTime` | src/infra/redis_rhythm_data.cpp:68-71 | as time passes the feed step is taken exactly by feeds no longer found, the mark step exactly by visits no longer seen |
| `ActionService.EventQueue.PublishJson` | src/infra/ports.hpp:27-31 | appends the message, unless the broker refuses it |
| `ActionService.Service.HandleAction` | src/services/action_service.cpp:28-51 | verdict, reservations and queue are those of the specified call |
| `ActionService.RejectionNamesFirstFault` | src/services/action_service.cpp:13-36 | in every run an attempt is rejected if and only if a field is empty or the type is not one of the five, and the reason names the first empty field in the order of the checks, or else the type |
| `ActionService.OutcomeIsDecidedByReservations` | src/services/action_service.cpp:28-51 | in every run with readings in any order: rejected for a field or type at fault, else a duplicate exactly if a reservation of the token less than 48 h before the reading came earlier in the run, else published or failed as the broker decides |
| `ActionService.ReservationsAreSpaced` | src/infra/in_memory_stubs.cpp:114-125 | two reservations of one token have readings at least 48 h apart, in run order |
| `ActionService.HeldTokenBlocksEveryUser` | src/services/action_service.cpp:38-50 | a reserved token makes every later attempt within the hold a duplicate, also by another user and also if nothing was published |
| `ActionService.MessageCarriesFields` | src/services/action_service.cpp:43-47 | a message has the four members by name, each with its field, and no other |
| `ActionService.QueueHoldsAcceptedActions` | src/services/action_service.cpp:43-50 | the queue holds the messages of the accepted attempts under the routing key `user.action`, once each and in order, and no other |
| `ActionService.AcceptedActionsComeFromAttempts` | src/services/action_service.cpp:29-36 | an action is among the accepted ones exactly if some attempt with these fields was accepted, and is then valid |
| `UserActionConsumer.MessageRoundTrip` | src/workers/user_action_consumer.cpp:77-94 | the worker reads back the fields the service published |
| `UserActionConsumer.Table.InsertOnConflictDoNothing` | src/workers/user_action_consumer.cpp:19-22 | a row is appended exactly if no row has its user and key, and the count of affected rows says so |
| `UserActionConsumer.Consumer.Process` | src/workers/user_action_consumer.cpp:76-109 | the table is that of the specified delivery, and the user's keys are removed exactly if a new row was stored and no failure came between |
| `UserActionConsumer.InvalidationRemovesThreeKeys` | src/infra/redis_rhythm_data.cpp:157-161 | for plain user ids an invalidation removes the three keys of its user and keeps the values of all other keys |
| `ActionPipeline.TableHasUniqueKeys` | src/workers/user_action_consumer.cpp:19-22 | at most one row per user and key, in every run of deliveries |
| `ActionPipeline.TableHasReachedKeys` | src/workers/user_action_consumer.cpp:96-97 | the table has a row for a key exactly if a delivery with this key got as far as the insert |
| `ActionPipeline.FirstDeliveryWins` | src/workers/user_action_consumer.cpp:19-22 | an action is a row exactly if it came first among all deliveries with its user and key |
| `ActionPipeline.PublishedActionIsStoredOnce` | src/workers/user_action_consumer.cpp:96-108 | in every run a published action is stored if no delivery with its user and key reached the table before, and otherwise it is over as already stored, without an error |
| `ActionPipeline.SkippedIffUnusable` | src/workers/user_action_consumer.cpp:77-89 | a delivery is skipped if and only if it is no JSON or an object that lacks one of the four members |
| `ActionPipeline.ThrowsIff` | src/workers/user_action_consumer.cpp:85-97 | the worker throws if and only if the message is no object, or has all members but one is not text, or it is cut off before the insert |
| `ActionPipeline.InvalidationsAreConserved` | src/workers/user_action_consumer.cpp:99-108 | per user, rows are completed plus missed invalidations, in every run |
| `ActionPipeline.InvalidationsMatchRowsIffNoneMissed` | src/workers/user_action_consumer.cpp:99-108 | a user's invalidations never exceed the user's rows, and equal them if and only if no delivery that brought a new row failed before its invalidation |
| `ActionPipeline.RedeliveryDoesNothing` | src/workers/user_action_consumer.cpp:106-108 | once its key is stored, a redelivered message changes nothing, not even a missed invalidation |
| `ActionPipeline.RowsComeFromDeliveries` | src/workers/user_action_consumer.cpp:91-97 | every row carries the fields of some delivered action, and every delivered key has a row |
| `ActionPipeline.RowsAreAcceptedActions` | src/workers/user_action_consumer.cpp:76-109 | end to end, with loss, repetition and reordering: every row is an accepted action, at most one per user and key |
| `ActionPipeline.TableIsCompleteIffDistinct` | src/workers/user_action_consumer.cpp:91-108 | all delivered actions are rows in the end if and only if no two of them share user and key |
| `ActionPipeline.ConfluentIffDistinct` | src/workers/user_action_consumer.cpp:91-108 | all orders and repetitions of deliveries of a set of actions lead to the same rows if and only if no two of the actions share user and key |
| `ActionPipeline.AcceptedWithinOneHoldAreDistinct` | src/services/action_service.cpp:38-41 | actions accepted at readings within one 48 h span never share user and key |
| `ActionPipeline.TableHoldsAcceptedActions` | src/workers/user_action_consumer.cpp:76-109 | once every queued message was delivered, the table has a row for every accepted key, and holds exactly the accepted actions if and only if no two share user and key, in particular if all attempts lie within one hold |

## Left out

* HTTP handlers, JSON responses, argument parsing, `ProductService`, port resolution, configuration and build files: wiring with easy claims only.
* `std::sort` is represented by an in-place insertion sort with the same comparator; only its postcondition is used.
* System and steady clock are one clock, and the sources' finer ticks are not modelled below a millisecond.
* Mutexes: each locked method is one atomic step. The clock reading of a reservation comes before the lock, so readings may be out of order there; elsewhere it is the reading of the step.
* The Redis server is an assumption: a key set at t with a TTL of s seconds exists while now <= t + 1000 s (milliseconds), TTL replies are rounded to the nearest second, and a non-positive TTL stores nothing (the client throws). The sequences Get/Ttl and Ttl/Expire of one method are one step; commands of other clients do not come in between.
* Network failures of the cache client are not modelled in the sequential parts; in the protocol a request may abort at any step.
* JSON is modelled as far as needed: field maps for messages, and arrays of integers for id lists.
* Postgres is a table with a unique index. What history it reports is an arbitrary function of time, rows and user, so the safety theorem speaks of the table the history was read from, not of a product being in the list. The history is read without replication lag (the source reads from a replica, src/infra/pg_rhythm_data.cpp:114-119).
* The ranking model, popularity and catalogue neighbours are arbitrary ports that may answer every request differently. That they respect the limits passed to them matters only for `Ranking.ScoresFitInt32`.
* RabbitMQ is an abstract at-least-once queue. Exactly-once publication is not claimed, because the code reserves before it publishes.
* Exceptions out of the worker change nothing but what was already written; the row id and creation time of a row are not modelled.
* The worker build without Redis, which only logs the keys it would delete.
- IdListCodec.JsonToIds: refuses numbers with a fraction or an exponent, which the JSON library might take for integers; the service never writes them.
- InvalidationSafety.InvalidationIsSafe: forgets durations, so a feed or a mark may expire at any moment and a visit may count as stale at any moment; side caches other than the feed deliver arbitrary lists.
- ServiceEquivalence.DeploymentsReactAlike: does not include the worker, which the in-process deployment does not have; runs with a call that is not comparable are excluded, because the backends differ on that call (`BackendSimulation.StepMatchesIffComparable`).
- SourceFreshness.HistoryAndPopularAreFresh: counts the age of a list from the reading at which it was stored, as the TTL does; the time between the port's answer and that reading is not bounded by the code.
- SourceFreshness.GptListIsFresh: as for the popular list.
- SourceFreshness.SimilarListIsFresh: as for the popular list.
- UserActionConsumer.Consumer.Process: a failure after the insert comes before the first delete; failures between the deletes are steps of `InvalidationProtocol`.
