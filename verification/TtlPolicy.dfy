/**
  The time policy of the feed cache.  Instants are milliseconds since the epoch; durations taken from
  the source are seconds and are scaled by `MS` where they meet an instant.  Every reading of the clock
  is a parameter, because the source reads the clock again for every decision.
 */
module TtlPolicy {
  import opened Wrappers

  const MS := 1000

  const FEED_LIST_SIZE := 50
  const GPT_RECOMMENDATION_IDS := 100

  const FEED_KEY_TTL := 96 * 60
  const GPT_RANKING_TTL := 30 * 60
  const SIMILAR_PRODUCTS_TTL := 24 * 3600
  const POPULAR_PRODUCTS_TTL := 3600

  const EXTEND_IF_VISITED_TODAY := 3600
  const EXTEND_IF_VISITED_YESTERDAY := 6 * 3600
  const STALE_AFTER_NO_VISIT := 24 * 3600
  const IDEMPOTENCY_HOLD := 48 * 3600

  const DAY_MS := 24 * 3600 * MS

  datatype VisitRecency = Today | Yesterday | StaleNewSession

  /** The UTC day of an instant; Dafny's division by a positive number floors, also before the epoch. */
  function UtcDay(t: int): int
  {
    t / DAY_MS
  }

  predicate IsSameUtcDay(a: int, b: int)
  {
    UtcDay(a) == UtcDay(b)
  }

  predicate IsPreviousUtcDay(now: int, prev: int)
  {
    UtcDay(now) - UtcDay(prev) == 1
  }

  predicate ShouldInvalidateFeed(lastSeen: Option<int>, now: int)
  {
    lastSeen.None? || now - lastSeen.value >= STALE_AFTER_NO_VISIT * MS
  }

  /** `now` is the reading taken on entry, `recheck` the one taken inside the nested staleness test. */
  function ClassifyVisit(lastSeen: Option<int>, now: int, recheck: int): VisitRecency
  {
    if lastSeen.None? then StaleNewSession
    else if ShouldInvalidateFeed(lastSeen, recheck) then StaleNewSession
    else if IsSameUtcDay(now, lastSeen.value) then Today
    else if IsPreviousUtcDay(now, lastSeen.value) then Yesterday
    else StaleNewSession
  }

  function ExtendFeedTtlOnHit(recency: VisitRecency): int
  {
    match recency
    case Today => EXTEND_IF_VISITED_TODAY
    case Yesterday => EXTEND_IF_VISITED_YESTERDAY
    case StaleNewSession => 0
  }

  /**
    A visit that is not in the future and not stale is classed by whether a UTC midnight lies between
    it and the request, and the extension granted is never zero.
   */
  lemma NonStaleVisitIsTodayOrYesterday(last: int, now: int, recheck: int)
    requires last <= now <= recheck
    requires !ShouldInvalidateFeed(Some(last), recheck)
    ensures ClassifyVisit(Some(last), now, recheck) ==
            (if exists midnight :: last < midnight * 86_400_000 <= now then Yesterday else Today)
    ensures ExtendFeedTtlOnHit(ClassifyVisit(Some(last), now, recheck)) ==
            (if exists midnight :: last < midnight * 86_400_000 <= now then 6 * 3600 else 3600)
  {
    if UtcDay(last) == UtcDay(now) {
      forall midnight ensures !(last < midnight * 86_400_000 <= now) {
      }
    } else {
      assert last < UtcDay(now) * DAY_MS <= now;
    }
  }

  /**
    For readings that do not go backwards, a visit that passed the 24 h test falls through both day
    tests exactly when it lies on a later UTC day than the request.
   */
  lemma FallthroughIffVisitOnLaterDay(last: int, now: int, recheck: int)
    requires now <= recheck
    requires !ShouldInvalidateFeed(Some(last), recheck)
    ensures ClassifyVisit(Some(last), now, recheck) == StaleNewSession <==> UtcDay(now) < UtcDay(last)
  {
  }

  /** `t` lies in the UTC day that begins `day` days after the epoch. */
  predicate IsInDay(t: int, day: int)
  {
    day * 86_400_000 <= t < (day + 1) * 86_400_000
  }

  /** For any two readings, also of a clock that went back: the class of a visit by the days it lies in. */
  lemma ClassByUtcDays(last: int, now: int, recheck: int)
    ensures ClassifyVisit(Some(last), now, recheck) == Today <==>
            recheck - last < 86_400_000 && exists day :: IsInDay(last, day) && IsInDay(now, day)
    ensures ClassifyVisit(Some(last), now, recheck) == Yesterday <==>
            recheck - last < 86_400_000 && exists day :: IsInDay(last, day) && IsInDay(now, day + 1)
    ensures ClassifyVisit(None, now, recheck) == StaleNewSession
  {
    assert IsInDay(last, UtcDay(last)) && IsInDay(now, UtcDay(now));
    forall t, day ensures IsInDay(t, day) <==> day == UtcDay(t) {
      DayIsUnique(t, day);
    }
    assert UtcDay(now) - UtcDay(last) == 1 ==> IsInDay(now, UtcDay(last) + 1);
  }

  lemma DayIsUnique(t: int, day: int)
    ensures IsInDay(t, day) <==> day == UtcDay(t)
  {
  }
}
