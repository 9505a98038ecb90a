/**
  How old each source of a merge can be.  Ports may answer every request differently; each list that
  enters a merge is exactly what its port returned to some request whose side-cache cell has not expired.
 */
module SourceFreshness {
  import opened Wrappers
  import opened TtlPolicy
  import opened Ranking
  import opened InMemoryRhythmData
  import opened RecommendationService
  import opened FeedRuns
  import opened LazyExpiry

  function Anchor(src: Sources): ProductId
  {
    SimilarAnchor(src.history, src.popular)
  }

  /** The list of a side cache: a live cell, left as it was, or the port's list, stored for `ttl` seconds. */
  predicate CachedOrFetched(
    before: Option<TimedIds>, after: Option<TimedIds>, get: int, put: int, ttl: int,
    list: seq<ProductId>, fromPort: seq<ProductId>)
  {
    if before.Some? && get < before.value.expiresAt then after == before && list == before.value.ids
    else after == Some(TimedIds(list, put + ttl * MS)) && list == fromPort
  }

  ghost predicate SideEffect(s: Local, r: Request, s': Local, o: Outcome)
  {
    match o
    case Hit(_, _) =>
      && Cells(s'.mem).popular == Cells(s.mem).popular && s'.mem.gpt == s.mem.gpt && s'.mem.similar == s.mem.similar
    case Miss(_, src) =>
      && src.history == r.ports.recent(r.user, HISTORY_LIMIT)
      && CachedOrFetched(Cells(s.mem).popular, Cells(s'.mem).popular, r.clock.popularGet, r.clock.popularPut,
                         POPULAR_PRODUCTS_TTL, src.popular, r.ports.popular(POPULAR_LIMIT))
      && CachedOrFetched(LookUp(s.mem.gpt, r.user), LookUp(s'.mem.gpt, r.user), r.clock.gptGet, r.clock.gptPut,
                         GPT_RANKING_TTL, src.gptRanked, r.ports.rank(r.user, GPT_RECOMMENDATION_IDS))
      && (forall v :: v != r.user ==> LookUp(s'.mem.gpt, v) == LookUp(s.mem.gpt, v))
      && (if Anchor(src) == 0 then src.similar == [] && s'.mem.similar == s.mem.similar
          else
            && CachedOrFetched(LookUp(s.mem.similar, Anchor(src)), LookUp(s'.mem.similar, Anchor(src)),
                               r.clock.similarGet, r.clock.similarPut,
                               SIMILAR_PRODUCTS_TTL, src.similar, SimilarTo(r.ports, Anchor(src)))
            && forall a :: a != Anchor(src) ==> LookUp(s'.mem.similar, a) == LookUp(s.mem.similar, a))
  }

  lemma FanOutHasSideEffect(s: Local, r: Request)
    ensures var (s', src) := FanOut(LocalStep, s, r.user, r.clock, r.ports);
      SideEffect(s, r, s', Miss([], src))
  {
    hide FetchPopular, FetchGpt, FetchSimilar, SimilarTo;
    var c, p := r.clock, r.ports;
    var history := p.recent(r.user, HISTORY_LIMIT);
    PopularEffect(s, c, p);
    var (s1, popular) := FetchPopular(LocalStep, s, c, p);
    GptEffect(s1, r.user, c, p);
    var (s2, gptRanked) := FetchGpt(LocalStep, s1, r.user, c, p);
    SimilarEffect(s2, SimilarAnchor(history, popular), c, p);
  }

  lemma ServeHasSideEffect(s: Local, r: Request)
    ensures SideEffect(s, r, ServeLocal(s, r).0, ServeLocal(s, r).1)
  {
    hide LookUpFeed, FanOut, CachedOrFetched;
    LookUpEffect(s, r.user, r.clock);
    var (s1, prev, found) := LookUpFeed(LocalStep, s, r.user, r.clock);
    FanOutHasSideEffect(s1, r);
  }

  lemma RunStepSideEffect(run: Run<Local>, i: nat)
    requires IsRun(run) && i < |run.reqs|
    ensures SideEffect(run.states[i], run.reqs[i], run.states[i + 1], run.outcomes[i])
  {
    hide Serve, SideEffect;
    ServeHasSideEffect(run.states[i], run.reqs[i]);
  }

  // Which miss a list comes from: the last one that had to ask the port.

  function PopularSource(run: Run<Local>, n: nat): (j: Option<nat>)
    requires n <= |run.reqs| == |run.outcomes|
    ensures j.Some? ==> j.value < n && run.outcomes[j.value].Miss?
  {
    if n == 0 then None
    else
      var before := PopularSource(run, n - 1);
      if run.outcomes[n - 1].Hit? then before
      else if before.Some? && run.reqs[n - 1].clock.popularGet < run.reqs[before.value].clock.popularPut + 3_600_000
      then before
      else Some(n - 1)
  }

  function GptSource(run: Run<Local>, n: nat, user: string): (j: Option<nat>)
    requires n <= |run.reqs| == |run.outcomes|
    ensures j.Some? ==> j.value < n && run.outcomes[j.value].Miss? && run.reqs[j.value].user == user
  {
    if n == 0 then None
    else
      var before := GptSource(run, n - 1, user);
      if run.outcomes[n - 1].Hit? || run.reqs[n - 1].user != user then before
      else if before.Some? && run.reqs[n - 1].clock.gptGet < run.reqs[before.value].clock.gptPut + 1_800_000
      then before
      else Some(n - 1)
  }

  /** The product whose neighbours a merge asks for: the latest of the history, else the most popular, else none. */
  predicate IsAskedFor(src: Sources, id: ProductId)
  {
    && (src.history != [] ==> id == src.history[0])
    && (src.history == [] && src.popular != [] ==> id == src.popular[0])
    && (src.history == [] && src.popular == [] ==> id == 0)
  }

  function SimilarSource(run: Run<Local>, n: nat, id: ProductId): (j: Option<nat>)
    requires n <= |run.reqs| == |run.outcomes|
    ensures j.Some? ==> j.value < n && run.outcomes[j.value].Miss? && IsAskedFor(run.outcomes[j.value].sources, id)
  {
    if n == 0 then None
    else
      var before := SimilarSource(run, n - 1, id);
      if run.outcomes[n - 1].Hit? || !IsAskedFor(run.outcomes[n - 1].sources, id) then before
      else if before.Some? && run.reqs[n - 1].clock.similarGet < run.reqs[before.value].clock.similarPut + 86_400_000
      then before
      else Some(n - 1)
  }

  /** The list that a port's answer leads to: the neighbours, or 60 popular products exactly if there are none. */
  function SimilarAnswer(p: Ports, id: ProductId): seq<ProductId>
  {
    if p.neighbours(id, 60) == [] then p.popular(60) else p.neighbours(id, 60)
  }

  // The side caches hold the lists of those misses, each with its own life.

  lemma {:induction false} PopularFollowsSource(run: Run<Local>, n: nat)
    requires IsRun(run) && n <= |run.reqs|
    ensures Cells(run.states[n].mem).popular ==
            match PopularSource(run, n)
            case None => None
            case Some(j) => Some(TimedIds(run.reqs[j].ports.popular(120), run.reqs[j].clock.popularPut + 3_600_000))
  {
    if n > 0 {
      PopularFollowsSource(run, n - 1);
      RunStepSideEffect(run, n - 1);
    }
  }

  lemma {:induction false} GptFollowsSource(run: Run<Local>, n: nat, user: string)
    requires IsRun(run) && n <= |run.reqs|
    ensures LookUp(run.states[n].mem.gpt, user) ==
            match GptSource(run, n, user)
            case None => None
            case Some(j) => Some(TimedIds(run.reqs[j].ports.rank(user, 100), run.reqs[j].clock.gptPut + 1_800_000))
  {
    if n > 0 {
      GptFollowsSource(run, n - 1, user);
      RunStepSideEffect(run, n - 1);
    }
  }

  lemma {:induction false} SimilarFollowsSource(run: Run<Local>, n: nat, id: ProductId)
    requires IsRun(run) && n <= |run.reqs| && id != 0
    ensures LookUp(run.states[n].mem.similar, id) ==
            match SimilarSource(run, n, id)
            case None => None
            case Some(j) =>
              Some(TimedIds(SimilarAnswer(run.reqs[j].ports, id), run.reqs[j].clock.similarPut + 86_400_000))
  {
    if n > 0 {
      SimilarFollowsSource(run, n - 1, id);
      RunStepSideEffect(run, n - 1);
      assert run.outcomes[n - 1].Miss? ==>
        (IsAskedFor(run.outcomes[n - 1].sources, id) <==> Anchor(run.outcomes[n - 1].sources) == id);
    }
  }

  /**
    Source freshness.  The history of a merge is read in the request.  The popular list is what its port
    returned to the last miss that had to ask, and a miss has to ask exactly if no list was stored under 3600 s before.
   */
  lemma HistoryAndPopularAreFresh(run: Run<Local>, i: nat)
    requires IsRun(run) && i < |run.reqs| && run.outcomes[i].Miss?
    ensures run.outcomes[i].sources.history == run.reqs[i].ports.recent(run.reqs[i].user, 120)
    ensures PopularSource(run, i + 1).Some?
    ensures run.outcomes[i].sources.popular == run.reqs[PopularSource(run, i + 1).value].ports.popular(120)
  {
    RunStepSideEffect(run, i);
    PopularFollowsSource(run, i);
  }

  /** The ranked list is what its port returned to the user's last miss that had to ask: none under 1800 s before. */
  lemma GptListIsFresh(run: Run<Local>, i: nat)
    requires IsRun(run) && i < |run.reqs| && run.outcomes[i].Miss?
    ensures var user := run.reqs[i].user;
      && GptSource(run, i + 1, user).Some?
      && run.outcomes[i].sources.gptRanked == run.reqs[GptSource(run, i + 1, user).value].ports.rank(user, 100)
  {
    RunStepSideEffect(run, i);
    GptFollowsSource(run, i, run.reqs[i].user);
  }

  /**
    The similar list of a merge belongs to its latest product, or to the most popular one of a user without
    history: it is what the ports answered for this product to the last miss that had to ask, none under
    86400 s before.  Product 0 has no list.
   */
  lemma SimilarListIsFresh(run: Run<Local>, i: nat, id: ProductId)
    requires IsRun(run) && i < |run.reqs| && run.outcomes[i].Miss? && IsAskedFor(run.outcomes[i].sources, id)
    ensures id == 0 ==> run.outcomes[i].sources.similar == []
    ensures id != 0 ==>
              var j := SimilarSource(run, i + 1, id);
              j.Some? && run.outcomes[i].sources.similar == SimilarAnswer(run.reqs[j.value].ports, id)
  {
    RunStepSideEffect(run, i);
    assert id == Anchor(run.outcomes[i].sources);
    if id != 0 {
      SimilarFollowsSource(run, i, id);
    }
  }
}
