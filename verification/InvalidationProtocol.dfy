/**
  Requests and the worker, step by step.  A step is one port call of a request, one write of the worker,
  or an expiry.  Requests of different users and any number of workers interleave arbitrarily; the three
  deletes of an invalidation are separate steps.  The model forgets how long things live: a feed or a
  visit mark may expire at any moment, and a visit may count as stale at any moment.
 */
module InvalidationProtocol {
  import opened Wrappers
  import opened TtlPolicy
  import opened Ranking
  import opened RecommendationService

  /** The behaviour store: the history it reports at a time, for a table of rows and a user. */
  type History = (int, seq<UserAction>, string) -> seq<ProductId>

  /** The sources a feed was merged from; the history was read at `readAt` from the first `asOf` rows. */
  datatype Snapshot = Snapshot(sources: Sources, readAt: int, asOf: nat)

  datatype Phase =
    | Decided(drop: bool)
    | Dropped
    | Marked
    | Touching(hit: Snapshot)
    | Missed
    | Gathered(history: seq<ProductId>, readAt: int, asOf: nat)
    | Finished(served: Snapshot)
    | Aborted

  /** `since` counts the rows of the user covered by invalidations completed before the request began. */
  datatype Req = Req(user: string, since: nat, phase: Phase)

  /** An invalidation in progress, with every request that was active at some moment of it. */
  datatype Window = Window(gptGone: bool, overlap: set<nat>)

  datatype State = State(
    rows: seq<UserAction>,
    pending: set<nat>,
    windows: map<nat, Window>,
    floors: map<string, nat>,
    feeds: map<string, Snapshot>,
    marks: set<string>,
    requests: map<nat, Req>)

  const INITIAL := State([], {}, map[], map[], map[], {}, map[])

  datatype Action =
    | Begin(id: nat, user: string, stale: bool)
    | Drop(id: nat)
    | Mark(id: nat)
    | LookUp(id: nat)
    | Touch(id: nat)
    | ReadHistory(id: nat, now: int)
    | Put(id: nat, popular: seq<ProductId>, gptRanked: seq<ProductId>, similar: seq<ProductId>)
    | Abort(id: nat)
    | ExpireFeed(user: string)
    | ExpireMark(user: string)
    | Insert(row: UserAction)
    | DeleteFeed(at: nat)
    | DeleteGpt(at: nat)
    | DeleteMark(at: nat)
    | Crash(at: nat)

  predicate IsActive(q: Req)
  {
    !q.phase.Finished? && !q.phase.Aborted?
  }

  function ActiveOf(s: State, user: string): set<nat>
  {
    set id | id in s.requests && s.requests[id].user == user && IsActive(s.requests[id])
  }

  /** How many rows of the table are covered by the user's completed invalidations. */
  function Floor(s: State, user: string): nat
  {
    if user in s.floors then s.floors[user] else 0
  }

  predicate Enabled(s: State, a: Action)
  {
    match a
    case Begin(id, user, stale) => id !in s.requests
    case Drop(id) => id in s.requests && s.requests[id].phase == Decided(true)
    case Mark(id) => id in s.requests && (s.requests[id].phase == Decided(false) || s.requests[id].phase == Dropped)
    case LookUp(id) => id in s.requests && s.requests[id].phase == Marked
    case Touch(id) => id in s.requests && s.requests[id].phase.Touching?
    case ReadHistory(id, now) => id in s.requests && s.requests[id].phase == Missed
    case Put(id, popular, gptRanked, similar) => id in s.requests && s.requests[id].phase.Gathered?
    case Abort(id) => id in s.requests && IsActive(s.requests[id])
    case ExpireFeed(user) => true
    case ExpireMark(user) => true
    case Insert(row) => true
    case DeleteFeed(at) => at in s.pending && at < |s.rows| && at !in s.windows
    case DeleteGpt(at) => at in s.windows && !s.windows[at].gptGone
    case DeleteMark(at) => at in s.windows && s.windows[at].gptGone && at < |s.rows|
    case Crash(at) => at in s.pending || at in s.windows
  }

  function SetPhase(s: State, id: nat, phase: Phase): State
    requires id in s.requests
  {
    s.(requests := s.requests[id := s.requests[id].(phase := phase)])
  }

  /** The user of a row in progress, if the index is one. */
  function UserOf(s: State, at: nat): Option<string>
  {
    if at < |s.rows| then Some(s.rows[at].user) else None
  }

  /** A starting request overlaps every open window of its user. */
  function Joined(s: State, id: nat, user: string): map<nat, Window>
  {
    map at | at in s.windows ::
      if UserOf(s, at) == Some(user) then s.windows[at].(overlap := s.windows[at].overlap + {id}) else s.windows[at]
  }

  function Gathering(s: State, id: nat, popular: seq<ProductId>, gptRanked: seq<ProductId>, similar: seq<ProductId>)
    : Snapshot
    requires id in s.requests && s.requests[id].phase.Gathered?
  {
    var p := s.requests[id].phase;
    Snapshot(Sources(p.history, popular, gptRanked, similar), p.readAt, p.asOf)
  }

  predicate IsRequestStep(a: Action)
  {
    a.Begin? || a.Drop? || a.Mark? || a.LookUp? || a.Touch? || a.ReadHistory? || a.Put? || a.Abort?
  }

  function RequestNext(recent: History, s: State, a: Action): State
    requires IsRequestStep(a) && Enabled(s, a)
  {
    match a
    case Begin(id, user, stale) =>
      var q := Req(user, Floor(s, user), Decided(user !in s.marks || stale));
      s.(requests := s.requests[id := q], windows := Joined(s, id, user))
    case Drop(id) => SetPhase(s, id, Dropped).(feeds := s.feeds - {s.requests[id].user})
    case Mark(id) => SetPhase(s, id, Marked).(marks := s.marks + {s.requests[id].user})
    case LookUp(id) =>
      var user := s.requests[id].user;
      SetPhase(s, id, if user in s.feeds then Touching(s.feeds[user]) else Missed)
    case Touch(id) => SetPhase(s, id, Finished(s.requests[id].phase.hit))
    case ReadHistory(id, now) =>
      SetPhase(s, id, Gathered(recent(now, s.rows, s.requests[id].user), now, |s.rows|))
    case Put(id, popular, gptRanked, similar) =>
      var snapshot := Gathering(s, id, popular, gptRanked, similar);
      SetPhase(s, id, Finished(snapshot)).(feeds := s.feeds[s.requests[id].user := snapshot])
    case Abort(id) => SetPhase(s, id, Aborted)
  }

  /** Steps of the worker and of the passing time. */
  function WorkerNext(s: State, a: Action): State
    requires !IsRequestStep(a) && Enabled(s, a)
  {
    match a
    case ExpireFeed(user) => s.(feeds := s.feeds - {user})
    case ExpireMark(user) => s.(marks := s.marks - {user})
    case Insert(row) => s.(rows := s.rows + [row], pending := s.pending + {|s.rows|})
    case DeleteFeed(at) =>
      var user := s.rows[at].user;
      s.(pending := s.pending - {at},
         windows := s.windows[at := Window(false, ActiveOf(s, user))],
         feeds := s.feeds - {user})
    case DeleteGpt(at) => s.(windows := s.windows[at := s.windows[at].(gptGone := true)])
    case DeleteMark(at) =>
      var user := s.rows[at].user;
      s.(windows := s.windows - {at},
         marks := s.marks - {user},
         floors := s.floors[user := if Floor(s, user) < at + 1 then at + 1 else Floor(s, user)])
    case Crash(at) => s.(pending := s.pending - {at}, windows := s.windows - {at})
  }

  function Next(recent: History, s: State, a: Action): State
    requires Enabled(s, a)
  {
    if IsRequestStep(a) then RequestNext(recent, s, a) else WorkerNext(s, a)
  }

  // The two hypotheses.

  /** Requests of the user do not overlap each other. */
  ghost predicate OneAtATime(s: State, user: string)
  {
    forall a, b :: a in ActiveOf(s, user) && b in ActiveOf(s, user) ==> a == b
  }

  /** At most one request of the user overlaps each invalidation of the user. */
  ghost predicate OnePerWindow(s: State, user: string)
  {
    forall at :: at in s.windows && UserOf(s, at) == Some(user) ==>
      forall a, b :: a in s.windows[at].overlap && b in s.windows[at].overlap ==> a == b
  }

  // The invariant, for one user.

  ghost predicate Faithful(recent: History, s: State, user: string, snap: Snapshot)
  {
    snap.asOf <= |s.rows| && snap.sources.history == recent(snap.readAt, s.rows[..snap.asOf], user)
  }

  /** A stored feed reflects every row whose invalidation is complete. */
  predicate Fresh(s: State, user: string)
  {
    user in s.feeds ==> Floor(s, user) <= s.feeds[user].asOf
  }

  ghost predicate RequestOk(recent: History, s: State, user: string, q: Req)
  {
    && q.since <= Floor(s, user)
    && match q.phase
       case Decided(drop) => if drop then user in s.marks ==> Fresh(s, user) else Fresh(s, user)
       case Dropped => Fresh(s, user)
       case Marked => Fresh(s, user)
       case Touching(snap) => q.since <= snap.asOf && Faithful(recent, s, user, snap) && Fresh(s, user)
       case Missed => user !in s.feeds
       case Gathered(history, readAt, asOf) =>
         && user !in s.feeds && q.since <= asOf <= |s.rows|
         && history == recent(readAt, s.rows[..asOf], user)
         && (user in s.marks ==> Floor(s, user) <= asOf)
       case Finished(snap) => q.since <= snap.asOf && Faithful(recent, s, user, snap)
       case Aborted => true
  }

  ghost predicate RequestsOk(recent: History, s: State, user: string)
  {
    forall id :: id in s.requests && s.requests[id].user == user ==> RequestOk(recent, s, user, s.requests[id])
  }

  /** Outside a request, a stored feed older than the last invalidation implies that there is no visit mark. */
  ghost predicate IdleOk(s: State, user: string)
  {
    (forall id :: id in s.requests && s.requests[id].user == user ==> !IsActive(s.requests[id])) ==>
      user in s.marks ==> Fresh(s, user)
  }

  /** A feed that misses the row of an open window was put by a request that overlapped it and is over. */
  ghost predicate WindowOk(s: State, user: string, at: nat)
    requires at in s.windows
  {
    && (forall id :: id in s.requests && s.requests[id].user == user && IsActive(s.requests[id]) ==>
          id in s.windows[at].overlap)
    && (user in s.feeds && s.feeds[user].asOf <= at ==>
          exists id :: id in s.windows[at].overlap && id in s.requests && !IsActive(s.requests[id]))
  }

  ghost predicate WindowsOk(s: State, user: string)
  {
    forall at :: at in s.windows && UserOf(s, at) == Some(user) ==> WindowOk(s, user, at)
  }

  ghost predicate StoreOk(recent: History, s: State, user: string)
  {
    && Floor(s, user) <= |s.rows|
    && (user in s.feeds ==> Faithful(recent, s, user, s.feeds[user]))
    && (forall at :: at in s.windows || at in s.pending ==> at < |s.rows|)
    && (forall at :: at in s.windows && UserOf(s, at) == Some(user) ==>
          forall id :: id in s.windows[at].overlap ==> id in s.requests)
  }

  ghost predicate Inv(recent: History, s: State, user: string)
  {
    StoreOk(recent, s, user) && RequestsOk(recent, s, user) && IdleOk(s, user) && WindowsOk(s, user)
  }

  lemma BeginKeepsInv(recent: History, s: State, a: Action, user: string)
    requires a.Begin? && Enabled(s, a) && Inv(recent, s, user) && OneAtATime(Next(recent, s, a), user)
    ensures Inv(recent, Next(recent, s, a), user)
  {
    hide WorkerNext;
  }

  lemma DropKeepsInv(recent: History, s: State, a: Action, user: string)
    requires a.Drop? && Enabled(s, a) && Inv(recent, s, user)
    ensures Inv(recent, Next(recent, s, a), user)
  {
    hide WorkerNext;
  }

  /** While one request of the user is active, all others of the user are over. */
  lemma OthersAreOver(s: State, id: nat)
    requires id in s.requests && IsActive(s.requests[id]) && OneAtATime(s, s.requests[id].user)
    ensures forall x :: x in s.requests && s.requests[x].user == s.requests[id].user && x != id ==>
              !IsActive(s.requests[x])
  {
    assert forall x :: x in s.requests && s.requests[x].user == s.requests[id].user && IsActive(s.requests[x]) ==>
      x in ActiveOf(s, s.requests[id].user);
  }

  lemma MarkKeepsInv(recent: History, s: State, a: Action, user: string)
    requires a.Mark? && Enabled(s, a) && s.requests[a.id].user == user
    requires Inv(recent, s, user) && OneAtATime(s, user)
    ensures Inv(recent, Next(recent, s, a), user)
  {
    hide WorkerNext;
    OthersAreOver(s, a.id);
  }

  /** Marks and feeds of other users are of no concern. */
  lemma ForeignMarkKeepsInv(recent: History, s: State, a: Action, user: string)
    requires a.Mark? && Enabled(s, a) && s.requests[a.id].user != user && Inv(recent, s, user)
    ensures Inv(recent, Next(recent, s, a), user)
  {
    hide WorkerNext;
  }

  lemma ForeignPutKeepsInv(recent: History, s: State, a: Action, user: string)
    requires a.Put? && Enabled(s, a) && s.requests[a.id].user != user && Inv(recent, s, user)
    ensures Inv(recent, Next(recent, s, a), user)
  {
    hide WorkerNext;
  }

  lemma LookUpKeepsInv(recent: History, s: State, a: Action, user: string)
    requires a.LookUp? && Enabled(s, a) && Inv(recent, s, user)
    ensures Inv(recent, Next(recent, s, a), user)
  {
    hide WorkerNext;
  }

  lemma TouchKeepsInv(recent: History, s: State, a: Action, user: string)
    requires a.Touch? && Enabled(s, a) && Inv(recent, s, user)
    ensures Inv(recent, Next(recent, s, a), user)
  {
    hide WorkerNext;
  }

  lemma ReadHistoryKeepsInv(recent: History, s: State, a: Action, user: string)
    requires a.ReadHistory? && Enabled(s, a) && Inv(recent, s, user)
    ensures Inv(recent, Next(recent, s, a), user)
  {
    hide WorkerNext;
    assert s.rows[..|s.rows|] == s.rows;
  }

  lemma PutKeepsInv(recent: History, s: State, a: Action, user: string)
    requires a.Put? && Enabled(s, a) && s.requests[a.id].user == user
    requires Inv(recent, s, user) && OneAtATime(s, user)
    ensures Inv(recent, Next(recent, s, a), user)
  {
    hide WorkerNext;
    OthersAreOver(s, a.id);
  }

  lemma AbortKeepsInv(recent: History, s: State, a: Action, user: string)
    requires a.Abort? && Enabled(s, a) && Inv(recent, s, user)
    ensures Inv(recent, Next(recent, s, a), user)
  {
    hide WorkerNext;
  }

  lemma ExpiryKeepsInv(recent: History, s: State, a: Action, user: string)
    requires a.ExpireFeed? || a.ExpireMark?
    requires Enabled(s, a) && Inv(recent, s, user)
    ensures Inv(recent, Next(recent, s, a), user)
  {
    hide RequestNext;
  }

  lemma CrashKeepsInv(recent: History, s: State, a: Action, user: string)
    requires a.Crash? || a.DeleteGpt?
    requires Enabled(s, a) && Inv(recent, s, user)
    ensures Inv(recent, Next(recent, s, a), user)
  {
    hide RequestNext;
  }

  lemma InsertKeepsInv(recent: History, s: State, a: Action, user: string)
    requires a.Insert? && Enabled(s, a) && Inv(recent, s, user)
    ensures Inv(recent, Next(recent, s, a), user)
  {
    hide RequestNext;
    assert forall n :: 0 <= n <= |s.rows| ==> (s.rows + [a.row])[..n] == s.rows[..n];
  }

  lemma DeleteFeedKeepsInv(recent: History, s: State, a: Action, user: string)
    requires a.DeleteFeed? && Enabled(s, a) && Inv(recent, s, user)
    ensures Inv(recent, Next(recent, s, a), user)
  {
    hide RequestNext;
  }

  /** Closing a window raises the floor and removes the mark; the invariant needs the window hypothesis. */
  lemma DeleteMarkKeepsInv(recent: History, s: State, a: Action, user: string)
    requires a.DeleteMark? && Enabled(s, a) && Inv(recent, s, user) && OnePerWindow(s, user)
    ensures Inv(recent, Next(recent, s, a), user)
  {
    hide RequestNext;
  }

  /** Every step keeps the invariant, if the hypotheses hold before and after it. */
  lemma StepKeepsInv(recent: History, s: State, a: Action, user: string)
    requires Enabled(s, a) && Inv(recent, s, user)
    requires OneAtATime(s, user) && OnePerWindow(s, user) && OneAtATime(Next(recent, s, a), user)
    ensures Inv(recent, Next(recent, s, a), user)
  {
    hide Next, Inv, OneAtATime, OnePerWindow;
    match a
    case Begin(_, _, _) => BeginKeepsInv(recent, s, a, user);
    case Drop(_) => DropKeepsInv(recent, s, a, user);
    case Mark(id) =>
      if s.requests[id].user == user {
        MarkKeepsInv(recent, s, a, user);
      } else {
        ForeignMarkKeepsInv(recent, s, a, user);
      }
    case LookUp(_) => LookUpKeepsInv(recent, s, a, user);
    case Touch(_) => TouchKeepsInv(recent, s, a, user);
    case ReadHistory(_, _) => ReadHistoryKeepsInv(recent, s, a, user);
    case Put(id, _, _, _) =>
      if s.requests[id].user == user {
        PutKeepsInv(recent, s, a, user);
      } else {
        ForeignPutKeepsInv(recent, s, a, user);
      }
    case Abort(_) => AbortKeepsInv(recent, s, a, user);
    case ExpireFeed(_) => ExpiryKeepsInv(recent, s, a, user);
    case ExpireMark(_) => ExpiryKeepsInv(recent, s, a, user);
    case Insert(_) => InsertKeepsInv(recent, s, a, user);
    case DeleteFeed(_) => DeleteFeedKeepsInv(recent, s, a, user);
    case DeleteGpt(_) => CrashKeepsInv(recent, s, a, user);
    case DeleteMark(_) => DeleteMarkKeepsInv(recent, s, a, user);
    case Crash(_) => CrashKeepsInv(recent, s, a, user);
  }

  // Runs.

  datatype Trace = Trace(states: seq<State>, actions: seq<Action>)

  /** Enabled steps, one after the other, from any state. */
  ghost predicate IsPath(recent: History, t: Trace)
  {
    && |t.states| == |t.actions| + 1
    && forall i {:trigger Enabled(t.states[i], t.actions[i])} :: 0 <= i < |t.actions| ==>
         Enabled(t.states[i], t.actions[i]) && t.states[i + 1] == Next(recent, t.states[i], t.actions[i])
  }

  ghost predicate IsTrace(recent: History, t: Trace)
  {
    IsPath(recent, t) && t.states[0] == INITIAL
  }

  lemma PathStep(recent: History, t: Trace, i: nat)
    requires IsPath(recent, t) && i < |t.actions|
    ensures Enabled(t.states[i], t.actions[i])
    ensures t.states[i + 1] == Next(recent, t.states[i], t.actions[i])
  {
    hide Next, Enabled;
    assert Enabled(t.states[i], t.actions[i]) && t.states[i + 1] == Next(recent, t.states[i], t.actions[i]);
  }

  /** The hypotheses on a run, for one user: requests do not overlap, and at most one overlaps each window. */
  ghost predicate Disciplined(t: Trace, user: string)
  {
    forall s :: s in t.states ==> OneAtATime(s, user) && OnePerWindow(s, user)
  }

  lemma {:induction false} InvHolds(recent: History, t: Trace, user: string, n: nat)
    requires IsTrace(recent, t) && Disciplined(t, user) && n < |t.states|
    ensures Inv(recent, t.states[n], user)
  {
    hide Next, Enabled, OneAtATime, OnePerWindow;
    if n > 0 {
      InvHolds(recent, t, user, n - 1);
      PathStep(recent, t, n - 1);
      assert t.states[n - 1] in t.states && t.states[n] in t.states;
      hide Inv;
      StepKeepsInv(recent, t.states[n - 1], t.actions[n - 1], user);
    }
  }

  /** Steps only add rows, raise floors, and keep who a request belongs to and what it began with. */
  ghost predicate Grows(s: State, s': State)
  {
    && |s.rows| <= |s'.rows| && s'.rows[..|s.rows|] == s.rows
    && (forall user :: Floor(s, user) <= Floor(s', user))
    && (forall id :: id in s.requests ==>
          id in s'.requests && s'.requests[id].user == s.requests[id].user
          && s'.requests[id].since == s.requests[id].since)
  }

  lemma StepGrows(recent: History, s: State, a: Action)
    requires Enabled(s, a)
    ensures Grows(s, Next(recent, s, a))
  {
  }

  lemma {:induction false} PathGrows(recent: History, t: Trace, m: nat, n: nat)
    requires IsPath(recent, t) && m <= n < |t.states|
    ensures Grows(t.states[m], t.states[n])
    decreases n
  {
    hide Next, Enabled;
    if m < n {
      PathGrows(recent, t, m, n - 1);
      PathStep(recent, t, n - 1);
      StepGrows(recent, t.states[n - 1], t.actions[n - 1]);
      var a, b, c := t.states[m], t.states[n - 1], t.states[n];
      assert c.rows[..|a.rows|] == c.rows[..|b.rows|][..|a.rows|];
    }
  }

  /** The list a finished request answered with. */
  function Answer(snap: Snapshot): seq<ProductId>
  {
    TakeTop(StoredFeed(snap.sources), FEED_LIST_SIZE)
  }
}
