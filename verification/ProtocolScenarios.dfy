/**
  What the hypotheses of the invalidation protocol are worth: single-step invalidations need only the
  first one, and without either one there is a run that serves a feed older than a finished invalidation.
  A request that runs alone is a request of the sequential service.
 */
module ProtocolScenarios {
  import opened Wrappers
  import opened TtlPolicy
  import opened Ranking
  import opened RecommendationService
  import opened InvalidationProtocol
  import InMemory = InMemoryRhythmData
  import FeedRuns

  // Invalidations whose three deletes are one step.

  /** No other step comes between the three deletes of an invalidation. */
  ghost predicate SingleStepInvalidations(t: Trace)
  {
    forall i :: 0 <= i < |t.actions| && t.actions[i].DeleteFeed? ==>
      && (i + 1 < |t.actions| ==> t.actions[i + 1] == DeleteGpt(t.actions[i].at))
      && (i + 2 < |t.actions| ==> t.actions[i + 2] == DeleteMark(t.actions[i].at))
  }

  predicate JustOpened(t: Trace, n: nat, at: nat)
    requires n <= |t.actions|
  {
    || (n >= 1 && t.actions[n - 1] == DeleteFeed(at))
    || (n >= 2 && t.actions[n - 2] == DeleteFeed(at) && t.actions[n - 1] == DeleteGpt(at))
  }

  /** The windows open at state `n` belong to the invalidation that is being carried out. */
  ghost predicate WindowsJustOpened(t: Trace, n: nat)
    requires n < |t.states| && n <= |t.actions|
  {
    forall at :: at in t.states[n].windows ==>
      && JustOpened(t, n, at) && at < |t.states[n].rows|
      && t.states[n].windows[at].overlap == ActiveOf(t.states[n], t.states[n].rows[at].user)
  }

  lemma RequestStepKeepsJustOpened(recent: History, t: Trace, n: nat)
    requires |t.states| == |t.actions| + 1 && n < |t.actions| && SingleStepInvalidations(t)
    requires IsRequestStep(t.actions[n]) && Enabled(t.states[n], t.actions[n])
    requires t.states[n + 1] == RequestNext(recent, t.states[n], t.actions[n])
    requires WindowsJustOpened(t, n)
    ensures WindowsJustOpened(t, n + 1)
  {
    assert forall at :: at in t.states[n].windows ==> !JustOpened(t, n, at);
  }

  lemma WorkerStepKeepsJustOpened(t: Trace, n: nat)
    requires |t.states| == |t.actions| + 1 && n < |t.actions| && SingleStepInvalidations(t)
    requires !IsRequestStep(t.actions[n]) && Enabled(t.states[n], t.actions[n])
    requires t.states[n + 1] == WorkerNext(t.states[n], t.actions[n])
    requires WindowsJustOpened(t, n)
    ensures WindowsJustOpened(t, n + 1)
  {
  }

  lemma {:induction false} WindowsAreJustOpened(recent: History, t: Trace, n: nat)
    requires IsTrace(recent, t) && SingleStepInvalidations(t) && n < |t.states|
    ensures WindowsJustOpened(t, n)
  {
    hide WindowsJustOpened, SingleStepInvalidations, Enabled, RequestNext, WorkerNext;
    if n == 0 {
      NoWindowsAtStart(t);
    } else {
      WindowsAreJustOpened(recent, t, n - 1);
      PathStep(recent, t, n - 1);
      if IsRequestStep(t.actions[n - 1]) {
        RequestStepKeepsJustOpened(recent, t, n - 1);
      } else {
        WorkerStepKeepsJustOpened(t, n - 1);
      }
    }
  }

  lemma NoWindowsAtStart(t: Trace)
    requires |t.states| == |t.actions| + 1 && t.states[0] == INITIAL
    ensures WindowsJustOpened(t, 0)
  {
  }

  /** With single-step invalidations it is enough that requests of a user do not overlap each other. */
  lemma SingleStepsNeedOneHypothesis(recent: History, t: Trace, user: string)
    requires IsTrace(recent, t) && SingleStepInvalidations(t)
    requires forall s :: s in t.states ==> OneAtATime(s, user)
    ensures Disciplined(t, user)
  {
    forall s | s in t.states ensures OnePerWindow(s, user) {
      var n :| 0 <= n < |t.states| && t.states[n] == s;
      WindowsAreJustOpened(recent, t, n);
    }
  }

  // Runs that break one hypothesis.

  /** The state a run has reached. */
  function Last(t: Trace): State
  {
    if t.states == [] then INITIAL else t.states[|t.states| - 1]
  }

  /** A run goes on with any step that is enabled. */
  lemma Extend(recent: History, t: Trace, a: Action) returns (t': Trace)
    requires IsTrace(recent, t) && Enabled(Last(t), a)
    ensures IsTrace(recent, t') && t'.actions == t.actions + [a]
    ensures t'.states == t.states + [Next(recent, Last(t), a)]
  {
    hide Next, Enabled;
    t' := Trace(t.states + [Next(recent, Last(t), a)], t.actions + [a]);
    forall i | 0 <= i < |t'.actions|
      ensures Enabled(t'.states[i], t'.actions[i]) && t'.states[i + 1] == Next(recent, t'.states[i], t'.actions[i])
    {
      if i < |t.actions| {
        PathStep(recent, t, i);
        assert t'.states[i] == t.states[i] && t'.actions[i] == t.actions[i];
      }
    }
  }

  ghost predicate NeverOverlap(t: Trace, user: string)
  {
    forall s :: s in t.states ==> OneAtATime(s, user)
  }

  ghost predicate NeverTwoInWindow(t: Trace, user: string)
  {
    forall s :: s in t.states ==> OnePerWindow(s, user)
  }

  /** Like `Extend`, for a step to a state that is given, in a run that keeps the hypotheses. */
  lemma Go(recent: History, t: Trace, a: Action, s: State, user: string) returns (t': Trace)
    requires IsTrace(recent, t) && Enabled(Last(t), a) && Next(recent, Last(t), a) == s
    ensures IsTrace(recent, t') && t'.actions == t.actions + [a] && Last(t') == s
    ensures NeverOverlap(t, user) && OneAtATime(s, user) ==> NeverOverlap(t', user)
    ensures NeverTwoInWindow(t, user) && OnePerWindow(s, user) ==> NeverTwoInWindow(t', user)
  {
    hide Next, Enabled, OneAtATime, OnePerWindow;
    t' := Extend(recent, t, a);
  }

  // The scenarios: one user, one row, and a first request with a snapshot of the empty table.

  function OldSnapshot(recent: History, user: string): Snapshot
  {
    Snapshot(Sources(recent(0, [], user), [], [], []), 0, 0)
  }

  function Waiting(recent: History, user: string): Req
  {
    Req(user, 0, Gathered(recent(0, [], user), 0, 0))
  }

  function Served(recent: History, user: string): Req
  {
    Req(user, 0, Finished(OldSnapshot(recent, user)))
  }

  lemma Start(recent: History, user: string) returns (t: Trace)
    ensures IsTrace(recent, t) && t.actions == [] && Last(t) == INITIAL
    ensures NeverOverlap(t, user) && NeverTwoInWindow(t, user)
  {
    t := Trace([INITIAL], []);
  }

  /** All scenarios start alike: a first visit has read the empty table. */
  lemma GatheredEarly(recent: History, user: string) returns (t: Trace)
    ensures IsTrace(recent, t) && |t.actions| == 5
    ensures Last(t) == State([], {}, map[], map[], map[], {user}, map[1 := Waiting(recent, user)])
    ensures NeverOverlap(t, user) && NeverTwoInWindow(t, user)
  {
    hide IsTrace, NeverOverlap, NeverTwoInWindow;
    t := Start(recent, user);
    t := Go(recent, t, Begin(1, user, false),
            State([], {}, map[], map[], map[], {}, map[1 := Req(user, 0, Decided(true))]), user);
    t := Go(recent, t, Drop(1),
            State([], {}, map[], map[], map[], {}, map[1 := Req(user, 0, Dropped)]), user);
    t := Go(recent, t, Mark(1),
            State([], {}, map[], map[], map[], {user}, map[1 := Req(user, 0, Marked)]), user);
    t := Go(recent, t, LookUp(1),
            State([], {}, map[], map[], map[], {user}, map[1 := Req(user, 0, Missed)]), user);
    t := Go(recent, t, ReadHistory(1, 0),
            State([], {}, map[], map[], map[], {user}, map[1 := Waiting(recent, user)]), user);
  }

  /** Then a row arrives. */
  lemma GatheredBeforeRow(recent: History, row: UserAction) returns (t: Trace)
    ensures IsTrace(recent, t) && |t.actions| == 6
    ensures Last(t) == State([row], {0}, map[], map[], map[], {row.user}, map[1 := Waiting(recent, row.user)])
    ensures NeverOverlap(t, row.user) && NeverTwoInWindow(t, row.user)
  {
    hide IsTrace, NeverOverlap, NeverTwoInWindow;
    t := GatheredEarly(recent, row.user);
    t := Go(recent, t, Insert(row),
            State([row], {0}, map[], map[], map[], {row.user}, map[1 := Waiting(recent, row.user)]), row.user);
  }

  function Keeping(user: string): Req
  {
    Req(user, 0, Decided(false))
  }

  /** Or a second visit decides to keep the feed before the row arrives. */
  lemma KeptBeforeRow(recent: History, row: UserAction) returns (t: Trace)
    ensures IsTrace(recent, t)
    ensures Last(t) == State([row], {0}, map[], map[], map[], {row.user},
                             map[1 := Waiting(recent, row.user), 2 := Keeping(row.user)])
  {
    hide IsTrace, NeverOverlap, NeverTwoInWindow;
    var user, both := row.user, map[1 := Waiting(recent, row.user), 2 := Keeping(row.user)];
    t := GatheredEarly(recent, user);
    t := Go(recent, t, Begin(2, user, false), State([], {}, map[], map[], map[], {user}, both), user);
    t := Go(recent, t, Insert(row), State([row], {0}, map[], map[], map[], {user}, both), user);
  }

  /** A request that began after the completed invalidation for row 0 served a feed that misses the row. */
  ghost predicate ServesTooOld(t: Trace, user: string, done: nat, begin: nat, id: nat)
  {
    && done < begin < |t.actions|
    && t.actions[done] == DeleteMark(0) && t.actions[begin] == Begin(id, user, false)
    && id in Last(t).requests && Last(t).requests[id].phase.Finished?
    && Last(t).requests[id].phase.served.asOf == 0
  }

  /** The invalidation of row 0 starts while the first request still waits to store its feed. */
  lemma FeedDeletedWhileWaiting(recent: History, row: UserAction) returns (t: Trace)
    ensures IsTrace(recent, t) && |t.actions| == 7
    ensures Last(t) == State([row], {}, map[0 := Window(false, {1})], map[], map[], {row.user},
                             map[1 := Waiting(recent, row.user)])
    ensures NeverOverlap(t, row.user) && NeverTwoInWindow(t, row.user)
  {
    hide IsTrace, NeverOverlap, NeverTwoInWindow;
    var user := row.user;
    t := GatheredBeforeRow(recent, row);
    assert ActiveOf(Last(t), user) == {1};
    t := Go(recent, t, DeleteFeed(0),
            State([row], {}, map[0 := Window(false, {1})], map[], map[], {user},
                  map[1 := Waiting(recent, user)]), user);
  }

  lemma InvalidatedWhileWaiting(recent: History, row: UserAction) returns (t: Trace)
    ensures IsTrace(recent, t) && |t.actions| == 9 && t.actions[8] == DeleteMark(0)
    ensures Last(t) == State([row], {}, map[], map[row.user := 1], map[], {}, map[1 := Waiting(recent, row.user)])
    ensures NeverOverlap(t, row.user) && NeverTwoInWindow(t, row.user)
  {
    hide IsTrace, NeverOverlap, NeverTwoInWindow;
    var user, q := row.user, map[1 := Waiting(recent, row.user)];
    t := FeedDeletedWhileWaiting(recent, row);
    t := Go(recent, t, DeleteGpt(0),
            State([row], {}, map[0 := Window(true, {1})], map[], map[], {user}, q), user);
    t := Go(recent, t, DeleteMark(0),
            State([row], {}, map[], map[user := 1], map[], {}, q), user);
  }

  /** A second request starts and passes the drop. */
  lemma SecondPassesDrop(recent: History, row: UserAction) returns (t: Trace)
    ensures IsTrace(recent, t) && |t.actions| == 11
    ensures t.actions[8] == DeleteMark(0) && t.actions[9] == Begin(2, row.user, false)
    ensures Last(t) == State([row], {}, map[], map[row.user := 1], map[], {},
                             map[1 := Waiting(recent, row.user), 2 := Req(row.user, 1, Dropped)])
    ensures NeverTwoInWindow(t, row.user)
  {
    hide IsTrace, NeverOverlap, NeverTwoInWindow;
    var user, floors, q := row.user, map[row.user := 1], Waiting(recent, row.user);
    t := InvalidatedWhileWaiting(recent, row);
    t := Go(recent, t, Begin(2, user, false),
            State([row], {}, map[], floors, map[], {}, map[1 := q, 2 := Req(user, 1, Decided(true))]), user);
    t := Go(recent, t, Drop(2),
            State([row], {}, map[], floors, map[], {}, map[1 := q, 2 := Req(user, 1, Dropped)]), user);
  }

  /** Only then does the first request store its feed. */
  lemma OldFeedAfterDrop(recent: History, row: UserAction) returns (t: Trace)
    ensures IsTrace(recent, t) && |t.actions| == 13
    ensures t.actions[8] == DeleteMark(0) && t.actions[9] == Begin(2, row.user, false)
    ensures Last(t) == State([row], {}, map[], map[row.user := 1], map[row.user := OldSnapshot(recent, row.user)],
                             {row.user}, map[1 := Served(recent, row.user), 2 := Req(row.user, 1, Marked)])
    ensures NeverTwoInWindow(t, row.user)
  {
    hide IsTrace, NeverOverlap, NeverTwoInWindow;
    var user, floors, q := row.user, map[row.user := 1], Waiting(recent, row.user);
    t := SecondPassesDrop(recent, row);
    t := Go(recent, t, Mark(2),
            State([row], {}, map[], floors, map[], {user}, map[1 := q, 2 := Req(user, 1, Marked)]), user);
    t := Go(recent, t, Put(1, [], [], []),
            State([row], {}, map[], floors, map[user := OldSnapshot(recent, user)], {user},
                  map[1 := Served(recent, user), 2 := Req(user, 1, Marked)]), user);
  }

  /** Two overlapping requests: the younger one serves the feed that the older one stored too late. */
  lemma OverlappingRequestsServeTooOld(recent: History, row: UserAction) returns (t: Trace)
    ensures IsTrace(recent, t) && ServesTooOld(t, row.user, 8, 9, 2)
    ensures NeverTwoInWindow(t, row.user)
  {
    hide IsTrace, NeverOverlap, NeverTwoInWindow;
    var user, snap := row.user, OldSnapshot(recent, row.user);
    t := OldFeedAfterDrop(recent, row);
    t := Go(recent, t, LookUp(2),
            State([row], {}, map[], map[user := 1], map[user := snap], {user},
                  map[1 := Served(recent, user), 2 := Req(user, 1, Touching(snap))]), user);
    t := Go(recent, t, Touch(2),
            State([row], {}, map[], map[user := 1], map[user := snap], {user},
                  map[1 := Served(recent, user), 2 := Req(user, 1, Finished(snap))]), user);
  }

  /** One after the other: within the invalidation the first stores its feed and the second begins. */
  lemma SecondVisitWithinWindow(recent: History, row: UserAction) returns (t: Trace)
    ensures IsTrace(recent, t) && |t.actions| == 9
    ensures Last(t) == State([row], {}, map[0 := Window(false, {1, 2})], map[],
                             map[row.user := OldSnapshot(recent, row.user)], {row.user},
                             map[1 := Served(recent, row.user), 2 := Req(row.user, 0, Decided(false))])
    ensures NeverOverlap(t, row.user)
  {
    hide IsTrace, NeverOverlap, NeverTwoInWindow;
    var user, feeds := row.user, map[row.user := OldSnapshot(recent, row.user)];
    t := FeedDeletedWhileWaiting(recent, row);
    t := Go(recent, t, Put(1, [], [], []),
            State([row], {}, map[0 := Window(false, {1})], map[], feeds, {user},
                  map[1 := Served(recent, user)]), user);
    assert Joined(Last(t), 2, user) == map[0 := Window(false, {1, 2})] by {
      assert {1} + {2} == {1, 2};
    }
    t := Go(recent, t, Begin(2, user, false),
            State([row], {}, map[0 := Window(false, {1, 2})], map[], feeds, {user},
                  map[1 := Served(recent, user), 2 := Req(user, 0, Decided(false))]), user);
  }

  lemma InvalidatedAfterDecision(recent: History, row: UserAction) returns (t: Trace)
    ensures IsTrace(recent, t) && |t.actions| == 11 && t.actions[10] == DeleteMark(0)
    ensures Last(t) == State([row], {}, map[], map[row.user := 1],
                             map[row.user := OldSnapshot(recent, row.user)], {},
                             map[1 := Served(recent, row.user), 2 := Req(row.user, 0, Decided(false))])
    ensures NeverOverlap(t, row.user)
  {
    hide IsTrace, NeverOverlap, NeverTwoInWindow;
    var user, feeds := row.user, map[row.user := OldSnapshot(recent, row.user)];
    var both := map[1 := Served(recent, user), 2 := Req(user, 0, Decided(false))];
    t := SecondVisitWithinWindow(recent, row);
    t := Go(recent, t, DeleteGpt(0),
            State([row], {}, map[0 := Window(true, {1, 2})], map[], feeds, {user}, both), user);
    t := Go(recent, t, DeleteMark(0),
            State([row], {}, map[], map[user := 1], feeds, {}, both), user);
  }

  /** The invalidation is over, and the second request sets the mark again. */
  lemma OldFeedWithMark(recent: History, row: UserAction) returns (t: Trace)
    ensures IsTrace(recent, t) && |t.actions| == 14 && t.actions[10] == DeleteMark(0)
    ensures Last(t) == State([row], {}, map[], map[row.user := 1],
                             map[row.user := OldSnapshot(recent, row.user)], {row.user},
                             map[1 := Served(recent, row.user), 2 := Served(recent, row.user)])
    ensures NeverOverlap(t, row.user)
  {
    hide IsTrace, NeverOverlap, NeverTwoInWindow;
    var user, snap := row.user, OldSnapshot(recent, row.user);
    t := InvalidatedAfterDecision(recent, row);
    t := Go(recent, t, Mark(2),
            State([row], {}, map[], map[user := 1], map[user := snap], {user},
                  map[1 := Served(recent, user), 2 := Req(user, 0, Marked)]), user);
    t := Go(recent, t, LookUp(2),
            State([row], {}, map[], map[user := 1], map[user := snap], {user},
                  map[1 := Served(recent, user), 2 := Req(user, 0, Touching(snap))]), user);
    t := Go(recent, t, Touch(2),
            State([row], {}, map[], map[user := 1], map[user := snap], {user},
                  map[1 := Served(recent, user), 2 := Served(recent, user)]), user);
  }

  lemma ThirdVisitSeesMark(recent: History, row: UserAction) returns (t: Trace)
    ensures IsTrace(recent, t) && |t.actions| == 16
    ensures t.actions[10] == DeleteMark(0) && t.actions[14] == Begin(3, row.user, false)
    ensures Last(t) == State([row], {}, map[], map[row.user := 1],
                             map[row.user := OldSnapshot(recent, row.user)], {row.user},
                             map[1 := Served(recent, row.user), 2 := Served(recent, row.user),
                                 3 := Req(row.user, 1, Marked)])
    ensures NeverOverlap(t, row.user)
  {
    hide IsTrace, NeverOverlap, NeverTwoInWindow;
    var user, snap, first := row.user, OldSnapshot(recent, row.user), Served(recent, row.user);
    t := OldFeedWithMark(recent, row);
    t := Go(recent, t, Begin(3, user, false),
            State([row], {}, map[], map[user := 1], map[user := snap], {user},
                  map[1 := first, 2 := first, 3 := Req(user, 1, Decided(false))]), user);
    t := Go(recent, t, Mark(3),
            State([row], {}, map[], map[user := 1], map[user := snap], {user},
                  map[1 := first, 2 := first, 3 := Req(user, 1, Marked)]), user);
  }

  /** The visit after the finished invalidation finds both the mark and the old feed, and serves it. */
  lemma TwoRequestsInOneWindowServeTooOld(recent: History, row: UserAction) returns (t: Trace)
    ensures IsTrace(recent, t) && ServesTooOld(t, row.user, 10, 14, 3)
    ensures NeverOverlap(t, row.user)
  {
    hide IsTrace, NeverOverlap, NeverTwoInWindow;
    var user, snap, first := row.user, OldSnapshot(recent, row.user), Served(recent, row.user);
    t := ThirdVisitSeesMark(recent, row);
    t := Go(recent, t, LookUp(3),
            State([row], {}, map[], map[user := 1], map[user := snap], {user},
                  map[1 := first, 2 := first, 3 := Req(user, 1, Touching(snap))]), user);
    t := Go(recent, t, Touch(3),
            State([row], {}, map[], map[user := 1], map[user := snap], {user},
                  map[1 := first, 2 := first, 3 := Req(user, 1, Finished(snap))]), user);
  }

  // A request that runs alone.

  /** For one user and one instant: the same live feed, and a mark wherever a visit is known. */
  predicate Shows(s: State, loc: InMemory.Local, user: string, now: int)
  {
    && (user in s.marks <==> user in loc.lastSeen)
    && match FeedRuns.LiveFeed(loc, user, now)
       case None => user !in s.feeds
       case Some(cell) => user in s.feeds && cell.ids == StoredFeed(s.feeds[user].sources)
  }

  /** The steps of a request up to the feed lookup, with nothing in between. */
  function LookUpAlone(recent: History, s: State, id: nat, user: string, stale: bool): State
    requires id !in s.requests
  {
    var s1 := Next(recent, s, Begin(id, user, stale));
    var s2 := if s1.requests[id].phase.drop then Next(recent, s1, Drop(id)) else s1;
    Next(recent, Next(recent, s2, Mark(id)), LookUp(id))
  }

  /** What the lookup leads to, as one step: the feed kept after the visit decision is found or missed. */
  lemma LookUpAloneEffect(recent: History, s: State, id: nat, user: string, stale: bool)
    requires id !in s.requests
    ensures var kept := if user !in s.marks || stale then s.feeds - {user} else s.feeds;
      var phase := if user in kept then Touching(kept[user]) else Missed;
      LookUpAlone(recent, s, id, user, stale) == s.(
        requests := s.requests[id := Req(user, Floor(s, user), phase)],
        windows := Joined(s, id, user), feeds := kept, marks := s.marks + {user})
  {
    hide WorkerNext;
  }

  /** The whole request alone; `src` gives the three sources behind side caches. */
  function Alone(recent: History, s: State, id: nat, user: string, stale: bool, now: int, src: Sources): State
    requires id !in s.requests
  {
    LookUpAloneEffect(recent, s, id, user, stale);
    var s4 := LookUpAlone(recent, s, id, user, stale);
    if s4.requests[id].phase.Touching? then Next(recent, s4, Touch(id))
    else Next(recent, Next(recent, s4, ReadHistory(id, now)), Put(id, src.popular, src.gptRanked, src.similar))
  }

  ghost predicate AnswersAs(recent: History, s: State, loc: InMemory.Local, id: nat, r: FeedRuns.Request, now: int,
                            loc': InMemory.Local, outcome: Outcome)
    requires id !in s.requests
  {
    var src := if outcome.Miss? then outcome.sources else Sources([], [], [], []);
    var stale := ShouldInvalidateFeed(InMemory.LookUp(loc.lastSeen, r.user), now);
    var s' := Alone(recent, s, id, r.user, stale, now, src);
    && s'.requests[id].phase.Finished?
    && Answer(s'.requests[id].phase.served) == outcome.answer
    && Shows(s', loc', r.user, now)
  }

  lemma AloneHitsAsServe(recent: History, s: State, loc: InMemory.Local, id: nat, r: FeedRuns.Request, now: int,
                         loc': InMemory.Local, outcome: Outcome)
    requires id !in s.requests && r.clock == Once(now) && Shows(s, loc, r.user, now) && outcome.Hit?
    requires FeedRuns.FeedEffect(loc, r, loc', outcome)
    ensures AnswersAs(recent, s, loc, id, r, now, loc', outcome)
  {
    hide WorkerNext, StoredFeed, LookUpAlone;
    LookUpAloneEffect(recent, s, id, r.user, ShouldInvalidateFeed(InMemory.LookUp(loc.lastSeen, r.user), now));
  }

  lemma AloneMissesAsServe(recent: History, s: State, loc: InMemory.Local, id: nat, r: FeedRuns.Request, now: int,
                           loc': InMemory.Local, outcome: Outcome)
    requires id !in s.requests && r.clock == Once(now) && Shows(s, loc, r.user, now) && outcome.Miss?
    requires r.ports.recent(r.user, HISTORY_LIMIT) == recent(now, s.rows, r.user)
    requires FeedRuns.FeedEffect(loc, r, loc', outcome)
    ensures AnswersAs(recent, s, loc, id, r, now, loc', outcome)
  {
    hide WorkerNext, StoredFeed, LookUpAlone;
    LookUpAloneEffect(recent, s, id, r.user, ShouldInvalidateFeed(InMemory.LookUp(loc.lastSeen, r.user), now));
  }

  /**
    Run without interference at one clock reading, the steps of a request answer as the sequential service
    does and leave corresponding stores.
   */
  lemma AloneIsServe(recent: History, s: State, loc: InMemory.Local, id: nat, r: FeedRuns.Request, now: int)
    requires id !in s.requests && r.clock == Once(now) && Shows(s, loc, r.user, now)
    requires r.ports.recent(r.user, HISTORY_LIMIT) == recent(now, s.rows, r.user)
    ensures AnswersAs(recent, s, loc, id, r, now, FeedRuns.ServeLocal(loc, r).0, FeedRuns.ServeLocal(loc, r).1)
  {
    hide Serve, AnswersAs, FeedRuns.FeedEffect;
    FeedRuns.ServeHasFeedEffect(loc, r);
    var (loc', outcome) := FeedRuns.ServeLocal(loc, r);
    if outcome.Hit? {
      AloneHitsAsServe(recent, s, loc, id, r, now, loc', outcome);
    } else {
      AloneMissesAsServe(recent, s, loc, id, r, now, loc', outcome);
    }
  }
}
