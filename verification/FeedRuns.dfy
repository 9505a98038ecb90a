/**
  Whole runs of the recommendation service on the in-process backend: which computation a cached answer
  comes from, how far its life was stretched, when the cache may answer at all, and how old each source
  of a merge is.  Requests follow one another; their readings and port answers are arbitrary.
 */
module FeedRuns {
  import opened Wrappers
  import opened TtlPolicy
  import opened Ranking
  import opened InMemoryRhythmData
  import opened RecommendationService
  import LazyExpiry

  datatype Request = Request(user: string, clock: Readings, ports: Ports)

  function ServeLocal(s: Local, r: Request): (Local, Outcome)
  {
    Serve(LocalStep, s, r.user, r.clock, r.ports)
  }

  /** A run: the requests in order, the states between them, and their outcomes. */
  datatype Run<S> = Run(reqs: seq<Request>, states: seq<S>, outcomes: seq<Outcome>)

  ghost predicate IsRun(run: Run<Local>)
  {
    && |run.states| == |run.reqs| + 1 && |run.outcomes| == |run.reqs|
    && run.states[0] == EMPTY_LOCAL
    && forall i {:trigger ServeLocal(run.states[i], run.reqs[i])} :: 0 <= i < |run.reqs| ==>
         (run.states[i + 1], run.outcomes[i]) == ServeLocal(run.states[i], run.reqs[i])
  }

  /** Every list of requests has a run, whatever the readings and the ports. */
  lemma {:induction false} RunExists(reqs: seq<Request>) returns (run: Run<Local>)
    ensures IsRun(run) && run.reqs == reqs
  {
    hide ServeLocal;
    if reqs == [] {
      run := Run([], [EMPTY_LOCAL], []);
    } else {
      var n := |reqs| - 1;
      var before := RunExists(reqs[..n]);
      var (s, outcome) := ServeLocal(before.states[n], reqs[n]);
      run := Run(reqs, before.states + [s], before.outcomes + [outcome]);
      forall i | 0 <= i < |reqs|
        ensures (run.states[i + 1], run.outcomes[i]) == ServeLocal(run.states[i], reqs[i])
      {
        if i < n {
          assert (before.states[i + 1], before.outcomes[i]) == ServeLocal(before.states[i], before.reqs[i]);
        }
      }
    }
  }

  lemma StateCount(run: Run<Local>)
    requires IsRun(run)
    ensures |run.states| == |run.reqs| + 1 && |run.outcomes| == |run.reqs|
  {
  }

  // What one request does to the in-process state, part by part.

  function LiveFeed(s: Local, user: string, now: int): Option<TimedIds>
  {
    LazyExpiry.LiveCell(s.mem.feed, user, now)
  }

  lemma LookUpEffect(s: Local, user: string, c: Readings)
    ensures var (s', prev, found) := LookUpFeed(LocalStep, s, user, c);
      var kept := if ShouldInvalidateFeed(prev, c.decide) then s.mem.feed - {user} else s.mem.feed;
      && prev == LookUp(s.lastSeen, user)
      && s' == Local(s.mem.(feed := TryGet(kept, user, c.lookup).0), s.lastSeen[user := c.mark])
      && (found.Some? <==> TryGet(kept, user, c.lookup).1.Some?)
      && (found.Some? ==> found.value.productIds == kept[user].ids)
  {
  }

  lemma PopularEffect(s: Local, c: Readings, p: Ports)
    ensures var (s', list) := FetchPopular(LocalStep, s, c, p);
      if s.mem.popularInited && c.popularGet < s.mem.popular.expiresAt then s' == s && list == s.mem.popular.ids
      else
        && list == p.popular(POPULAR_LIMIT)
        && s' == s.(mem := s.mem.(
             popular := TimedIds(list, c.popularPut + POPULAR_PRODUCTS_TTL * MS), popularInited := true))
  {
  }

  lemma GptEffect(s: Local, user: string, c: Readings, p: Ports)
    ensures var (s', list) := FetchGpt(LocalStep, s, user, c, p);
      match LazyExpiry.LiveCell(s.mem.gpt, user, c.gptGet)
      case Some(cell) => s' == s && list == cell.ids
      case None =>
        && list == p.rank(user, GPT_RECOMMENDATION_IDS)
        && s' == s.(mem := s.mem.(gpt := s.mem.gpt[user := TimedIds(list, c.gptPut + GPT_RANKING_TTL * MS)]))
  {
    var cell := TimedIds(p.rank(user, GPT_RECOMMENDATION_IDS), c.gptPut + GPT_RANKING_TTL * MS);
    assert (s.mem.gpt - {user})[user := cell] == s.mem.gpt[user := cell];
  }

  lemma SimilarEffect(s: Local, anchor: ProductId, c: Readings, p: Ports)
    ensures var (s', list) := FetchSimilar(LocalStep, s, anchor, c, p);
      if anchor == 0 then s' == s && list == []
      else
        match LazyExpiry.LiveCell(s.mem.similar, anchor, c.similarGet)
        case Some(cell) => s' == s && list == cell.ids
        case None =>
          && list == SimilarTo(p, anchor)
          && s' == s.(mem := s.mem.(
               similar := s.mem.similar[anchor := TimedIds(list, c.similarPut + SIMILAR_PRODUCTS_TTL * MS)]))
  {
    var cell := TimedIds(SimilarTo(p, anchor), c.similarPut + SIMILAR_PRODUCTS_TTL * MS);
    assert (s.mem.similar - {anchor})[anchor := cell] == s.mem.similar[anchor := cell];
  }

  lemma FanOutKeepsFeeds(s: Local, user: string, c: Readings, p: Ports)
    ensures var (s', sources) := FanOut(LocalStep, s, user, c, p);
      && s'.mem.feed == s.mem.feed && s'.lastSeen == s.lastSeen
      && sources.history == p.recent(user, HISTORY_LIMIT)
  {
    var history := p.recent(user, HISTORY_LIMIT);
    var (s1, popular) := FetchPopular(LocalStep, s, c, p);
    PopularEffect(s, c, p);
    var (s2, gptRanked) := FetchGpt(LocalStep, s1, user, c, p);
    GptEffect(s1, user, c, p);
    SimilarEffect(s2, SimilarAnchor(history, popular), c, p);
  }

  /**
    What one request does to the visit ledger and to the feeds: the branch taken, what is served, what is
    stored, and that other users' feeds stay as they are.
   */
  ghost predicate FeedEffect(s: Local, r: Request, s': Local, o: Outcome)
  {
    var prev := LookUp(s.lastSeen, r.user);
    && s'.lastSeen == s.lastSeen[r.user := r.clock.mark]
    && (o.Hit? <==> !ShouldInvalidateFeed(prev, r.clock.decide) && LiveFeed(s, r.user, r.clock.lookup).Some?)
    && (forall v :: v != r.user ==> LookUp(s'.mem.feed, v) == LookUp(s.mem.feed, v))
    && match o
       case Hit(answer, extension) =>
         && extension == ExtendFeedTtlOnHit(ClassifyVisit(prev, r.clock.classify, r.clock.recheck))
         && answer == TakeTop(s.mem.feed[r.user].ids, FEED_LIST_SIZE)
         && s'.mem == s.mem.(feed := Touch(s.mem.feed, r.user, extension, r.clock.touch))
       case Miss(answer, sources) =>
         && sources.history == r.ports.recent(r.user, HISTORY_LIMIT)
         && answer == TakeTop(StoredFeed(sources), FEED_LIST_SIZE)
         && LookUp(s'.mem.feed, r.user) == Some(TimedIds(StoredFeed(sources), r.clock.put + FEED_KEY_TTL * MS))
  }

  lemma ServeHasFeedEffect(s: Local, r: Request)
    ensures FeedEffect(s, r, ServeLocal(s, r).0, ServeLocal(s, r).1)
  {
    hide LookUpFeed, FanOut;
    LookUpEffect(s, r.user, r.clock);
    var (s1, prev, found) := LookUpFeed(LocalStep, s, r.user, r.clock);
    FanOutKeepsFeeds(s1, r.user, r.clock, r.ports);
  }

  lemma RunStepEffect(run: Run<Local>, i: nat)
    requires IsRun(run) && i < |run.reqs|
    ensures FeedEffect(run.states[i], run.reqs[i], run.states[i + 1], run.outcomes[i])
  {
    hide Serve, FeedEffect;
    ServeHasFeedEffect(run.states[i], run.reqs[i]);
  }

  // The log of a user's feed, read off the outcomes of the first `n` requests.

  /** The miss that computed the feed, the hits since then, how many of them extended it, and the seconds granted. */
  datatype FeedLog = FeedLog(miss: nat, hits: nat, extensions: nat, granted: int)

  function AfterHit(log: FeedLog, extension: int): FeedLog
  {
    log.(hits := log.hits + 1,
         extensions := if extension > 0 then log.extensions + 1 else log.extensions,
         granted := log.granted + extension)
  }

  function LogOf<S>(run: Run<S>, n: nat, user: string): Option<FeedLog>
    requires n <= |run.reqs| == |run.outcomes|
  {
    if n == 0 then None
    else
      var before := LogOf(run, n - 1, user);
      if run.reqs[n - 1].user != user then before
      else
        match run.outcomes[n - 1]
        case Miss(_, _) => Some(FeedLog(n - 1, 0, 0, 0))
        case Hit(_, extension) =>
          if before.None? then None else Some(AfterHit(before.value, extension))
  }

  function LastVisit<S>(run: Run<S>, n: nat, user: string): Option<int>
    requires n <= |run.reqs|
  {
    if n == 0 then None
    else if run.reqs[n - 1].user == user then Some(run.reqs[n - 1].clock.mark)
    else LastVisit(run, n - 1, user)
  }

  lemma {:induction false} LedgerHoldsLastVisit(run: Run<Local>, n: nat, user: string)
    requires IsRun(run) && n <= |run.reqs|
    ensures LookUp(run.states[n].lastSeen, user) == LastVisit(run, n, user)
  {
    if n > 0 {
      LedgerHoldsLastVisit(run, n - 1, user);
      RunStepEffect(run, n - 1);
    }
  }

  /** `j` is the user's last miss before `i`: the requests of the user in between were hits. */
  ghost predicate IsLastMiss<S>(run: Run<S>, user: string, j: nat, i: nat)
    requires i <= |run.reqs| == |run.outcomes|
  {
    && j < i && run.reqs[j].user == user && run.outcomes[j].Miss?
    && forall k :: j < k < i && run.reqs[k].user == user ==> run.outcomes[k].Hit?
  }

  lemma {:induction false} LogNamesLastMiss<S>(run: Run<S>, n: nat, user: string)
    requires n <= |run.reqs| == |run.outcomes|
    ensures LogOf(run, n, user).Some? ==> IsLastMiss(run, user, LogOf(run, n, user).value.miss, n)
  {
    if n > 0 {
      LogNamesLastMiss(run, n - 1, user);
    }
  }

  /** The stored cell is what the log says: the feed of the last miss, with its life prolonged by the hits. */
  predicate CellFollowsLog(run: Run<Local>, log: FeedLog, cell: TimedIds)
  {
    && log.miss < |run.reqs| == |run.outcomes| && run.outcomes[log.miss].Miss?
    && IsTop(cell.ids, Rank(run.outcomes[log.miss].sources), 100)
    && cell.expiresAt == run.reqs[log.miss].clock.put + (5760 + log.granted) * 1000
  }

  /**
    Lifetime conservation.  In every reachable state a stored feed is the one computed by the user's last
    miss, and its expiry is the instant it was put plus 5760 s plus all extensions granted since.
   */
  lemma {:induction false} StoredFeedFollowsLog(run: Run<Local>, n: nat, user: string)
    requires IsRun(run) && n <= |run.reqs| && user in run.states[n].mem.feed
    ensures LogOf(run, n, user).Some?
    ensures CellFollowsLog(run, LogOf(run, n, user).value, run.states[n].mem.feed[user])
  {
    RunStepEffect(run, n - 1);
    var r := run.reqs[n - 1];
    assert r.user != user ==> LookUp(run.states[n].mem.feed, user) == LookUp(run.states[n - 1].mem.feed, user);
    if r.user != user || run.outcomes[n - 1].Hit? {
      StoredFeedFollowsLog(run, n - 1, user);
    }
  }

  /**
    Cache agreement.  Every cached answer equals the answer of the user's last miss: the top 50 of the
    full merge of the sources gathered then.
   */
  lemma CachedAnswerIsLastMissAnswer(run: Run<Local>, i: nat) returns (j: nat)
    requires IsRun(run) && i < |run.reqs| && run.outcomes[i].Hit?
    ensures IsLastMiss(run, run.reqs[i].user, j, i)
    ensures run.outcomes[i].answer == run.outcomes[j].answer
    ensures IsTop(run.outcomes[i].answer, Rank(run.outcomes[j].sources), 50)
  {
    RunStepEffect(run, i);
    StoredFeedFollowsLog(run, i, run.reqs[i].user);
    LogNamesLastMiss(run, i, run.reqs[i].user);
    j := LogOf(run, i, run.reqs[i].user).value.miss;
    RunStepEffect(run, j);
    TruncatingTwice(Rank(run.outcomes[j].sources), GPT_RECOMMENDATION_IDS, FEED_LIST_SIZE);
  }

  /** And so does the answer of a miss itself, whose history is what the store reports in the request. */
  lemma MissAnswersFromItsSources(run: Run<Local>, i: nat)
    requires IsRun(run) && i < |run.reqs| && run.outcomes[i].Miss?
    ensures IsTop(run.outcomes[i].answer, Rank(run.outcomes[i].sources), 50)
    ensures run.outcomes[i].sources.history == run.reqs[i].ports.recent(run.reqs[i].user, 120)
  {
    RunStepEffect(run, i);
    TruncatingTwice(Rank(run.outcomes[i].sources), GPT_RECOMMENDATION_IDS, FEED_LIST_SIZE);
  }

  /**
    Idle cut-off.  The cache answers exactly if the user's previous request is known and less than 24 h old
    and a feed is stored that has not expired, however far earlier hits have pushed the expiry.
   */
  lemma CacheAnswersOnlyRecentVisitors(run: Run<Local>, i: nat)
    requires IsRun(run) && i < |run.reqs|
    ensures var user, c, last := run.reqs[i].user, run.reqs[i].clock, LastVisit(run, i, run.reqs[i].user);
      run.outcomes[i].Hit? <==>
        && last.Some? && c.decide - last.value < 86_400_000
        && user in run.states[i].mem.feed && c.lookup < run.states[i].mem.feed[user].expiresAt
  {
    RunStepEffect(run, i);
    LedgerHoldsLastVisit(run, i, run.reqs[i].user);
  }

  // How far hits prolong a feed.

  /** After n extending hits a feed has gained between 3600 n and 21600 n seconds, whatever the readings. */
  lemma {:induction false} LifetimeGrowsWithHits(run: Run<Local>, n: nat, user: string)
    requires IsRun(run) && n <= |run.reqs| && LogOf(run, n, user).Some?
    ensures var log := LogOf(run, n, user).value;
      && log.extensions <= log.hits
      && 3600 * log.extensions <= log.granted <= 21600 * log.extensions
  {
    var hit := run.reqs[n - 1].user == user && run.outcomes[n - 1].Hit?;
    if run.reqs[n - 1].user != user || hit {
      LifetimeGrowsWithHits(run, n - 1, user);
    }
    if hit {
      RunStepEffect(run, n - 1);
    }
  }

  /** Request `i` reads the clock in program order, and not before the user's previous mark. */
  predicate ReadsInOrder<S>(run: Run<S>, i: nat)
    requires i < |run.reqs|
  {
    var last := LastVisit(run, i, run.reqs[i].user);
    run.reqs[i].clock.Ordered() && (last.Some? ==> last.value <= run.reqs[i].clock.seen)
  }

  /** At the last reading of the decision the previous visit is under 24 h old. */
  predicate InTime<S>(run: Run<S>, i: nat)
    requires i < |run.reqs|
  {
    var last := LastVisit(run, i, run.reqs[i].user);
    last.Some? && run.reqs[i].clock.recheck - last.value < 86_400_000
  }

  /**
    A hit grants nothing exactly if the previous visit turned stale between the first and the last
    reading of the request; otherwise six hours across a UTC midnight, and one hour within a day.
   */
  lemma HitGrantsNothingIff(run: Run<Local>, i: nat)
    requires IsRun(run) && i < |run.reqs| && run.outcomes[i].Hit? && ReadsInOrder(run, i)
    ensures LastVisit(run, i, run.reqs[i].user).Some?
    ensures run.outcomes[i].extension == 0 <==> !InTime(run, i)
    ensures var last, classify := LastVisit(run, i, run.reqs[i].user).value, run.reqs[i].clock.classify;
      InTime(run, i) ==>
        run.outcomes[i].extension ==
        if exists midnight :: last < midnight * 86_400_000 <= classify then 21600 else 3600
  {
    var c := run.reqs[i].clock;
    RunStepEffect(run, i);
    LedgerHoldsLastVisit(run, i, run.reqs[i].user);
    if InTime(run, i) {
      NonStaleVisitIsTodayOrYesterday(LastVisit(run, i, run.reqs[i].user).value, c.classify, c.recheck);
    }
  }

  /** All hits since the last miss extend the feed exactly if each of them was in time. */
  lemma {:induction false} HitsExtendIffInTime(run: Run<Local>, n: nat, user: string)
    requires IsRun(run) && n <= |run.reqs| && LogOf(run, n, user).Some?
    requires forall i :: 0 <= i < n && run.reqs[i].user == user ==> ReadsInOrder(run, i)
    ensures var log := LogOf(run, n, user).value;
      log.extensions == log.hits <==>
      forall i :: log.miss < i < n && run.reqs[i].user == user ==> InTime(run, i)
  {
    hide InTime, ReadsInOrder, IsRun, LastVisit;
    assert |run.outcomes| == |run.reqs| by {
      StateCount(run);
    }
    var hit := run.reqs[n - 1].user == user && run.outcomes[n - 1].Hit?;
    if run.reqs[n - 1].user != user || hit {
      HitsExtendIffInTime(run, n - 1, user);
      LifetimeGrowsWithHits(run, n - 1, user);
      LogNamesLastMiss(run, n - 1, user);
    }
    if hit {
      HitGrantsNothingIff(run, n - 1);
      ExtensionIsNeverNegative(run, n - 1);
    }
  }

  lemma ExtensionIsNeverNegative(run: Run<Local>, i: nat)
    requires IsRun(run) && i < |run.reqs| && run.outcomes[i].Hit?
    ensures run.outcomes[i].extension >= 0
  {
    RunStepEffect(run, i);
  }

  // Visitors who come back within the hour.

  /** From each mark of the user to the last reading of the user's next request on a hit it is at most an hour. */
  ghost predicate SteadyVisitor(run: Run<Local>, user: string)
  {
    forall i :: 0 <= i < |run.reqs| && run.reqs[i].user == user ==>
      && ReadsInOrder(run, i)
      && (LastVisit(run, i, user).Some? ==>
            run.reqs[i].clock.touch - LastVisit(run, i, user).value <= 3_600_000)
  }

  /** The inductive bound: between visits of a steady visitor at least 5760 s of life are left. */
  ghost predicate FeedOutlivesVisit(run: Run<Local>, n: nat, user: string)
    requires n <= |run.reqs| < |run.states|
  {
    LastVisit(run, n, user).Some? ==>
      && user in run.states[n].mem.feed
      && run.states[n].mem.feed[user].expiresAt - LastVisit(run, n, user).value >= FEED_KEY_TTL * MS
  }

  lemma SteadyVisitIsHit(run: Run<Local>, user: string, n: nat)
    requires IsRun(run) && SteadyVisitor(run, user)
    requires n < |run.reqs| && FeedOutlivesVisit(run, n, user)
    requires run.reqs[n].user == user && LastVisit(run, n, user).Some?
    ensures run.outcomes[n].Hit? && FeedOutlivesVisit(run, n + 1, user)
  {
    LedgerHoldsLastVisit(run, n, user);
    RunStepEffect(run, n);
    HitGrantsNothingIff(run, n);
  }

  /** A first visit stores a feed; a visit of another user leaves this one's feed alone. */
  lemma OtherStepKeepsFeed(run: Run<Local>, user: string, n: nat)
    requires IsRun(run) && SteadyVisitor(run, user)
    requires n < |run.reqs| && FeedOutlivesVisit(run, n, user)
    requires run.reqs[n].user == user ==> LastVisit(run, n, user).None?
    ensures FeedOutlivesVisit(run, n + 1, user)
  {
    RunStepEffect(run, n);
    LedgerHoldsLastVisit(run, n, user);
    assert run.reqs[n].user != user ==>
      LookUp(run.states[n + 1].mem.feed, user) == LookUp(run.states[n].mem.feed, user);
  }

  lemma {:induction false} SteadyVisitorKeepsFeed(run: Run<Local>, n: nat, user: string)
    requires IsRun(run) && SteadyVisitor(run, user) && n <= |run.reqs|
    ensures FeedOutlivesVisit(run, n, user)
  {
    hide IsRun, SteadyVisitor;
    if n > 0 {
      assert |run.states| == |run.reqs| + 1 by {
        StateCount(run);
      }
      SteadyVisitorKeepsFeed(run, n - 1, user);
      if run.reqs[n - 1].user == user && LastVisit(run, n - 1, user).Some? {
        SteadyVisitIsHit(run, user, n - 1);
      } else {
        OtherStepKeepsFeed(run, user, n - 1);
      }
    }
  }

  /**
    Steady visitor.  Whatever other users do, a user whose visits are at most an hour apart misses on the
    first visit only and is served that one feed on every later visit, for runs of any length.
   */
  lemma {:induction false} SteadyVisitorIsServedOneFeed(run: Run<Local>, user: string, first: nat, i: nat)
    requires IsRun(run) && SteadyVisitor(run, user)
    requires first <= i < |run.reqs| && run.reqs[first].user == run.reqs[i].user == user
    requires LastVisit(run, first, user).None?
    ensures run.outcomes[first].Miss?
    ensures i > first ==> run.outcomes[i].Hit? && run.outcomes[i].answer == run.outcomes[first].answer
    decreases i
  {
    if i == first {
      LedgerHoldsLastVisit(run, i, user);
      RunStepEffect(run, i);
    } else {
      SteadyVisitorKeepsFeed(run, i, user);
      VisitsAreRemembered(run, first, i, user);
      SteadyVisitIsHit(run, user, i);
      var j := CachedAnswerIsLastMissAnswer(run, i);
      if j < first {
        VisitsAreRemembered(run, j, first, user);
      }
      SteadyVisitorIsServedOneFeed(run, user, first, j);
    }
  }

  lemma {:induction false} VisitsAreRemembered<S>(run: Run<S>, i: nat, n: nat, user: string)
    requires i < n <= |run.reqs| && run.reqs[i].user == user
    ensures LastVisit(run, n, user).Some?
  {
    if run.reqs[n - 1].user != user {
      VisitsAreRemembered(run, i, n - 1, user);
    }
  }
}
