/**
  The hypotheses of the invalidation theorem are the exact ones: dropping any of the three admits a run in
  which a request that begins after the completed invalidation serves a feed without the row.
 */
module HypothesesNeeded {
  import opened Wrappers
  import opened InvalidationProtocol
  import opened InvalidationSafety
  import opened ProtocolScenarios

  /** Which of the hypotheses may be broken. */
  datatype Allowance = Allowance(markerAtStart: bool, beginInside: bool, beginTooSoon: bool)

  const NOTHING := Allowance(false, false, false)

  ghost predicate Follows(t: Trace, open: nat, done: nat, user: string, at: nat, d: Allowance)
    requires |t.states| == |t.actions| + 1 && open < |t.states|
  {
    && (d.markerAtStart || NoMarkerAtStart(t, open, user, at))
    && (d.beginInside || NoneBeginsInside(t, open, done, user, at))
    && (d.beginTooSoon || NoneBeginsTooSoon(t, done, user, at))
  }

  /** A run with a completed invalidation, and a request of the same user that begins later and has finished. */
  datatype LateVisit = LateVisit(
    t: Trace, open: nat, done: nat, at: nat, begin: nat, id: nat, stale: bool, n: nat)

  ghost predicate IsLateVisit(recent: History, v: LateVisit)
  {
    && IsTrace(recent, v.t) && IsInvalidation(v.t, v.open, v.done, v.at) && v.done < v.begin < v.n < |v.t.states|
    && v.at < |v.t.states[v.done].rows|
    && v.t.actions[v.begin] == Begin(v.id, v.t.states[v.done].rows[v.at].user, v.stale)
    && v.id in v.t.states[v.n].requests && v.t.states[v.n].requests[v.id].phase.Finished?
  }

  ghost predicate SafeUnder(recent: History, d: Allowance)
  {
    forall v :: IsLateVisit(recent, v) && Follows(v.t, v.open, v.done, v.t.states[v.done].rows[v.at].user, v.at, d) ==>
      ServesRow(recent, v.t, v.done, v.at, v.n, v.id)
  }

  /** A path from the first delete for row 0 to a request that began after the last one and serves an old feed. */
  ghost predicate IsBreach(recent: History, q: Trace, done: nat, user: string, id: nat, n: nat, d: Allowance)
  {
    && IsPath(recent, q) && IsInvalidation(q, 0, done, 0) && done < n < |q.states|
    && 0 < |q.states[0].rows| && q.states[0].rows[0].user == user
    && id !in q.states[done + 1].requests && ServesOld(q.states[n], user, 0, id)
    && Follows(q, 0, done, user, 0, d)
  }

  /** A path that goes on from the last state of another one. */
  function Concat(p: Trace, q: Trace): Trace
    requires |p.states| == |p.actions| + 1
  {
    Trace(p.states[..|p.actions|] + q.states, p.actions + q.actions)
  }

  lemma ConcatShape(p: Trace, q: Trace)
    requires |p.states| == |p.actions| + 1 && |q.states| == |q.actions| + 1 && q.states[0] == Last(p)
    ensures var t, m := Concat(p, q), |p.actions|;
      && |t.actions| == m + |q.actions| && |t.states| == |t.actions| + 1
      && (forall k :: 0 <= k <= m ==> t.states[k] == p.states[k])
      && (forall k :: 0 <= k < m ==> t.actions[k] == p.actions[k])
      && (forall k :: m <= k < |t.states| ==> t.states[k] == q.states[k - m])
      && (forall k :: m <= k < |t.actions| ==> t.actions[k] == q.actions[k - m])
  {
  }

  lemma Join(recent: History, p: Trace, q: Trace) returns (t: Trace)
    requires IsTrace(recent, p) && IsPath(recent, q) && q.states[0] == Last(p)
    ensures IsTrace(recent, t) && |t.actions| == |p.actions| + |q.actions|
    ensures forall k :: |p.actions| <= k < |t.states| ==> t.states[k] == q.states[k - |p.actions|]
    ensures forall k :: |p.actions| <= k < |t.actions| ==> t.actions[k] == q.actions[k - |p.actions|]
  {
    hide Next, Enabled, Concat;
    t := Concat(p, q);
    ConcatShape(p, q);
    var m := |p.actions|;
    forall i | 0 <= i < |t.actions|
      ensures Enabled(t.states[i], t.actions[i]) && t.states[i + 1] == Next(recent, t.states[i], t.actions[i])
    {
      if i < m {
        PathStep(recent, p, i);
      } else {
        PathStep(recent, q, i - m);
        assert t.states[i + 1] == q.states[i + 1 - m];
      }
    }
  }

  lemma JoinedFollows(
    recent: History, q: Trace, t: Trace, m: nat, done: nat, user: string, id: nat, n: nat, d: Allowance)
    requires IsBreach(recent, q, done, user, id, n, d)
    requires |t.states| == |t.actions| + 1 && |t.actions| == m + |q.actions|
    requires forall k :: m <= k < |t.states| ==> t.states[k] == q.states[k - m]
    requires forall k :: m <= k < |t.actions| ==> t.actions[k] == q.actions[k - m]
    ensures IsInvalidation(t, m, m + done, 0) && Follows(t, m, m + done, user, 0, d)
  {
    hide HoldsOldHistory, BeforeMark, BeginsFor, NoneHoldsOldHistory;
  }

  /** A request that appears on a path begins on it. */
  lemma {:induction false} BeganOnPath(recent: History, t: Trace, m: nat, n: nat, id: nat, user: string)
    returns (begin: nat, stale: bool)
    requires IsPath(recent, t) && m <= n < |t.states| && id !in t.states[m].requests && IsOf(t.states[n], id, user)
    ensures m <= begin < n && t.actions[begin] == Begin(id, user, stale)
    decreases n
  {
    hide IsPath, Enabled, Next;
    PathShape(recent, t);
    PathStep(recent, t, n - 1);
    if id in t.states[n - 1].requests {
      PathGrows(recent, t, n - 1, n);
      begin, stale := BeganOnPath(recent, t, m, n - 1, id, user);
    } else {
      NewRequestBegins(recent, t.states[n - 1], t.actions[n - 1], id, user);
      begin, stale := n - 1, t.actions[n - 1].stale;
    }
  }

  lemma NewRequestBegins(recent: History, s: State, a: Action, id: nat, user: string)
    requires Enabled(s, a) && id !in s.requests && IsOf(Next(recent, s, a), id, user)
    ensures a.Begin? && a == Begin(id, user, a.stale)
  {
  }

  lemma BreachIsUnsafe(
    recent: History, p: Trace, q: Trace, done: nat, user: string, id: nat, n: nat, d: Allowance)
    requires IsTrace(recent, p) && q.states != [] && q.states[0] == Last(p)
    requires IsBreach(recent, q, done, user, id, n, d)
    ensures !SafeUnder(recent, d)
  {
    hide Next, Enabled, Follows;
    var m := |p.actions|;
    var t := Join(recent, p, q);
    JoinedFollows(recent, q, t, m, done, user, id, n, d);
    var begin, stale := BeganOnPath(recent, t, m + done + 1, m + n, id, user);
    PathGrows(recent, t, m, m + done);
    assert t.states[m + done].rows[0] == t.states[m + done].rows[..|t.states[m].rows|][0];
    var v := LateVisit(t, m, m + done, 0, begin, id, stale, m + n);
    assert IsLateVisit(recent, v);
  }

  // The three breaches.

  /** The state in which an invalidation is about to start: requests as given, a mark, and nothing stored. */
  function AtStart(row: UserAction, requests: map<nat, Req>): State
  {
    State([row], {0}, map[], map[], map[], {row.user}, requests)
  }

  function AfterDeletes(row: UserAction, requests: map<nat, Req>): State
  {
    State([row], {}, map[], map[row.user := 1], map[], {}, requests)
  }

  /** The three deletes with nothing in between, and then a path. */
  lemma DeletesThen(recent: History, row: UserAction, requests: map<nat, Req>, u: Trace) returns (q: Trace)
    requires IsPath(recent, u) && u.states[0] == AfterDeletes(row, requests)
    ensures IsPath(recent, q) && q.states[0] == AtStart(row, requests) && |q.states| == |u.states| + 3
    ensures q.actions == [DeleteFeed(0), DeleteGpt(0), DeleteMark(0)] + u.actions
    ensures forall k :: 0 <= k < |u.states| ==> q.states[k + 3] == u.states[k]
  {
    hide RequestNext, IsPath, IsPatient;
    var s := AtStart(row, requests);
    var s1 := Next(recent, s, DeleteFeed(0));
    var s2 := Next(recent, s1, DeleteGpt(0));
    assert Next(recent, s2, DeleteMark(0)) == AfterDeletes(row, requests) by {
      EmptyWindows(recent, s);
    }
    var q2 := Prepend(recent, s2, DeleteMark(0), u, row.user, 0);
    var q1 := Prepend(recent, s1, DeleteGpt(0), q2, row.user, 0);
    q := Prepend(recent, s, DeleteFeed(0), q1, row.user, 0);
  }

  lemma EmptyWindows(recent: History, s: State)
    requires s.rows != [] && s.pending == {0} && s.windows == map[] && s.floors == map[]
    requires s.feeds == map[] && s.marks == {s.rows[0].user}
    ensures Enabled(s, DeleteFeed(0)) && Enabled(Next(recent, s, DeleteFeed(0)), DeleteGpt(0))
    ensures var s2 := Next(recent, Next(recent, s, DeleteFeed(0)), DeleteGpt(0));
      && Enabled(s2, DeleteMark(0))
      && Next(recent, s2, DeleteMark(0))
         == s.(pending := {}, windows := map[], floors := map[s.rows[0].user := 1], marks := {})
  {
  }

  /** After the three deletes a patient path goes wrong: only the start was at fault. */
  lemma MarkerAtStartIsUnsafe(recent: History, row: UserAction)
    ensures !SafeUnder(recent, Allowance(true, false, false))
  {
    hide SafeUnder, IsTrace;
    var user, both := row.user, map[1 := Waiting(recent, row.user), 2 := Keeping(row.user)];
    var p := KeptBeforeRow(recent, row);
    var s := AfterDeletes(row, both);
    assert HoldsOldHistory(s, user, 0, 1) && BeforeMark(s, user, 2);
    var u := MarkerMeetsHolder(recent, s, user, 0, 1, 2, 3);
    LastState(recent, s, user, 0, 3, u);
    var q := DeletesThen(recent, row, both, u);
    PatientAfterwards(q, u, 2, user);
    assert !q.actions[1].Begin?;
    BreachIsUnsafe(recent, p, q, 2, user, 3, |u.actions| + 3, Allowance(true, false, false));
  }

  /** From a path that goes on patiently after the last delete. */
  lemma PatientAfterwards(q: Trace, u: Trace, done: nat, user: string)
    requires |q.states| == |q.actions| + 1 && |u.states| == |u.actions| + 1 && IsPatient(u, user, 0)
    requires |q.states| == |u.states| + done + 1
    requires forall k :: 0 <= k < |u.states| ==> q.states[k + done + 1] == u.states[k]
    requires forall k :: 0 <= k < |u.actions| ==> q.actions[k + done + 1] == u.actions[k]
    ensures NoneBeginsTooSoon(q, done, user, 0)
  {
    hide NoneHoldsOldHistory;
    forall k | done < k < |q.actions| && BeginsFor(q.actions[k], user)
      ensures NoneHoldsOldHistory(q.states[k], user, 0)
    {
      assert q.actions[k - done - 1 + done + 1] == u.actions[k - done - 1];
      assert q.states[k - done - 1 + done + 1] == u.states[k - done - 1];
    }
  }

  lemma OneHolder(s: State, user: string)
    requires forall id :: id in s.requests ==> id == 1 && s.requests[id].phase.Gathered?
    ensures forall holder, id :: HoldsOldHistory(s, user, 0, holder) ==> !BeforeMark(s, user, id)
  {
  }

  /** A request begins after the deletes while the old history still waits. */
  lemma BeginTooSoonIsUnsafe(recent: History, row: UserAction)
    ensures !SafeUnder(recent, Allowance(false, false, true))
  {
    hide SafeUnder, IsTrace, BeginsFor, HoldsOldHistory, BeforeMark, IsPath;
    var user, one := row.user, map[1 := Waiting(recent, row.user)];
    var p := GatheredBeforeRow(recent, row);
    var s := AfterDeletes(row, one);
    var u := HolderGoesWrong(recent, s, user, 0, 1) by {
      WaitingHolds(recent, row, s);
    }
    PathShape(recent, u);
    var n, id :| 0 <= n < |u.states| && id !in u.states[0].requests && ServesOld(u.states[n], user, 0, id);
    var q := DeletesThen(recent, row, one, u);
    PathShape(recent, q);
    OneHolder(q.states[0], user);
    assert NoneBeginsInside(q, 0, 2, user, 0) by {
      DeleteIsNoBegin(q.actions[1], user);
    }
    PresentIsServed(u.states[n], user, id);
    BreachIsUnsafe(recent, p, q, 2, user, id, n + 3, Allowance(false, false, true));
  }

  lemma WaitingHolds(recent: History, row: UserAction, s: State)
    requires 1 in s.requests && s.requests[1] == Waiting(recent, row.user)
    ensures HoldsOldHistory(s, row.user, 0, 1)
  {
  }

  lemma DeleteIsNoBegin(a: Action, user: string)
    requires a.DeleteGpt?
    ensures !BeginsFor(a, user)
  {
  }

  lemma PresentIsServed(s: State, user: string, id: nat)
    requires ServesOld(s, user, 0, id)
    ensures id in s.requests
  {
  }

  /** After the feed is deleted, the old history is stored and a second request decides to keep it. */
  function AfterFeedDelete(recent: History, row: UserAction): State
  {
    var both := map[1 := Served(recent, row.user), 2 := Keeping(row.user)];
    State([row], {}, map[0 := Window(false, {1, 2})], map[], map[row.user := OldSnapshot(recent, row.user)],
          {row.user}, both)
  }

  lemma ThreeStepsInside(recent: History, row: UserAction) returns (s1: State, s2: State)
    ensures var s := AtStart(row, map[1 := Waiting(recent, row.user)]);
      && Enabled(s, DeleteFeed(0)) && s1 == Next(recent, s, DeleteFeed(0))
      && Enabled(s1, Put(1, [], [], [])) && s2 == Next(recent, s1, Put(1, [], [], []))
      && Enabled(s2, Begin(2, row.user, false))
      && Next(recent, s2, Begin(2, row.user, false)) == AfterFeedDelete(recent, row)
  {
    var user, one := row.user, map[1 := Waiting(recent, row.user)];
    assert ActiveOf(AtStart(row, one), user) == {1};
    s1 := State([row], {}, map[0 := Window(false, {1})], map[], map[], {user}, one);
    s2 := Next(recent, s1, Put(1, [], [], []));
    assert {1} + {2} == {1, 2};
    assert Joined(s2, 2, user) == map[0 := Window(false, {1, 2})];
  }

  lemma StoreAndBeginInside(recent: History, row: UserAction, u: Trace) returns (q: Trace)
    requires IsPath(recent, u) && u.states[0] == AfterFeedDelete(recent, row)
    ensures IsPath(recent, q) && q.states[0] == AtStart(row, map[1 := Waiting(recent, row.user)])
    ensures q.actions == [DeleteFeed(0), Put(1, [], [], []), Begin(2, row.user, false)] + u.actions
    ensures |q.states| == |u.states| + 3 && forall k :: 0 <= k < |u.states| ==> q.states[k + 3] == u.states[k]
  {
    hide IsPath, IsPatient, Next, Enabled, AtStart, AfterFeedDelete;
    var user := row.user;
    var s1, s2 := ThreeStepsInside(recent, row);
    var q2 := Prepend(recent, s2, Begin(2, user, false), u, user, 0);
    var q1 := Prepend(recent, s1, Put(1, [], [], []), q2, user, 0);
    q := Prepend(recent, AtStart(row, map[1 := Waiting(recent, user)]), DeleteFeed(0), q1, user, 0);
  }

  /** The two remaining deletes leave the old feed without a mark, beside a request that will set one. */
  lemma DeletesLeaveMarker(recent: History, row: UserAction) returns (s1: State, s2: State)
    ensures Enabled(AfterFeedDelete(recent, row), DeleteGpt(0))
    ensures s1 == Next(recent, AfterFeedDelete(recent, row), DeleteGpt(0)) && Enabled(s1, DeleteMark(0))
    ensures s2 == Next(recent, s1, DeleteMark(0)) && 3 !in s2.requests && 2 in s2.requests
    ensures !SettledForPatient(s2, row.user, 0)
  {
    s1 := Next(recent, AfterFeedDelete(recent, row), DeleteGpt(0));
    s2 := Next(recent, s1, DeleteMark(0));
    assert WillMark(s2, row.user, 2) && OldFeedStored(s2, row.user, 0);
  }

  /** A request begins between the deletes, after the old history was stored. */
  lemma BeginInsideIsUnsafe(recent: History, row: UserAction)
    ensures !SafeUnder(recent, Allowance(false, true, false))
  {
    hide SafeUnder, IsTrace, IsPath, Next, Enabled, HoldsOldHistory, BeforeMark, SettledForPatient;
    var user := row.user;
    var p := GatheredBeforeRow(recent, row);
    var s1, s2 := DeletesLeaveMarker(recent, row);
    var u := UnsettledGoesWrong(recent, s2, user, 0, 3);
    LastState(recent, s2, user, 0, 3, u);
    var q2 := Prepend(recent, s1, DeleteMark(0), u, user, 0);
    var q1 := Prepend(recent, AfterFeedDelete(recent, row), DeleteGpt(0), q2, user, 0);
    var q := StoreAndBeginInside(recent, row, q1);
    PathShape(recent, q);
    OneHolder(q.states[0], user);
    PatientAfterwards(q, u, 4, user);
    BreachIsUnsafe(recent, p, q, 4, user, 3, |u.actions| + 5, Allowance(false, true, false));
  }

  // The exact condition.

  lemma MoreAllowedLessSafe(recent: History, d: Allowance, more: Allowance)
    requires SafeUnder(recent, more)
    requires d.markerAtStart ==> more.markerAtStart
    requires d.beginInside ==> more.beginInside
    requires d.beginTooSoon ==> more.beginTooSoon
    ensures SafeUnder(recent, d)
  {
    hide IsTrace, ServesRow, NoMarkerAtStart, NoneBeginsInside, NoneBeginsTooSoon;
  }

  /** The runs that keep the remaining hypotheses are all safe if and only if none of the three is given up. */
  lemma SafeIffNothingIsAllowed(recent: History, d: Allowance)
    ensures SafeUnder(recent, d) <==> d == NOTHING
  {
    hide ServesRow;
    var row := UserAction("", "", "", "");
    if d == NOTHING {
      forall v | IsLateVisit(recent, v)
                 && Follows(v.t, v.open, v.done, v.t.states[v.done].rows[v.at].user, v.at, d)
        ensures ServesRow(recent, v.t, v.done, v.at, v.n, v.id)
      {
        InvalidationIsSafe(recent, v.t, v.open, v.done, v.at, v.begin, v.id, v.stale, v.n);
      }
    } else if SafeUnder(recent, d) {
      hide SafeUnder;
      if d.markerAtStart {
        MoreAllowedLessSafe(recent, Allowance(true, false, false), d);
        MarkerAtStartIsUnsafe(recent, row);
      } else if d.beginInside {
        MoreAllowedLessSafe(recent, Allowance(false, true, false), d);
        BeginInsideIsUnsafe(recent, row);
      } else {
        MoreAllowedLessSafe(recent, Allowance(false, false, true), d);
        BeginTooSoonIsUnsafe(recent, row);
      }
    }
  }
}
