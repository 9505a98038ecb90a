/**
  The protocol leaves nothing out: new rows are the worker's inserts, every table occurs, no request and no
  invalidation ever waits for another, and what is over stays over.
 */
module ProtocolSteps {
  import opened Wrappers
  import opened InvalidationProtocol
  import opened InvalidationSafety
  import ActionService
  import Worker = UserActionConsumer
  import Scenarios = ProtocolScenarios

  // Rows in progress.

  /** Rows in progress are rows, and each is either waiting or being invalidated. */
  ghost predicate RowsInProgress(s: State)
  {
    && (forall at :: at in s.pending ==> at < |s.rows| && at !in s.windows)
    && (forall at :: at in s.windows ==> at < |s.rows|)
  }

  lemma StepKeepsRowsInProgress(recent: History, s: State, a: Action)
    requires Enabled(s, a) && RowsInProgress(s)
    ensures RowsInProgress(Next(recent, s, a))
  {
  }

  lemma {:induction false} TraceKeepsRowsInProgress(recent: History, t: Trace, n: nat)
    requires IsTrace(recent, t) && n < |t.states|
    ensures RowsInProgress(t.states[n])
  {
    hide Enabled, Next;
    if n > 0 {
      TraceKeepsRowsInProgress(recent, t, n - 1);
      PathStep(recent, t, n - 1);
      hide RowsInProgress;
      StepKeepsRowsInProgress(recent, t.states[n - 1], t.actions[n - 1]);
    }
  }

  /**
    A delivery that brings a new row is the step `Insert`: the table afterwards is the worker's table, the row's
    invalidation can start, and a worker that fails here is the step `Crash`, after which it cannot.
   */
  lemma InsertIsNewRow(recent: History, s: State, d: Worker.Delivery, a: UserAction)
    requires RowsInProgress(s) && d.message == ActionService.Encode(a)
    requires Worker.Consume(s.rows, d).1.Stored? || Worker.Consume(s.rows, d).1.StoredThenFailed?
    ensures var s' := Next(recent, s, Insert(a));
      && s'.rows == Worker.Consume(s.rows, d).0 && s'.rows[|s.rows|] == a
      && Enabled(s', DeleteFeed(|s.rows|)) && Enabled(s', Crash(|s.rows|))
      && var s'' := Next(recent, s', Crash(|s.rows|));
         s''.rows == s'.rows && !Enabled(s'', DeleteFeed(|s.rows|)) && !Enabled(s'', Crash(|s.rows|))
  {
    Worker.MessageRoundTrip(a);
  }

  /** Any rows, one after the other. */
  lemma {:induction false} TableOccurs(recent: History, rows: seq<UserAction>) returns (t: Trace)
    ensures IsTrace(recent, t) && Scenarios.Last(t).rows == rows && Scenarios.Last(t).windows == map[]
    ensures forall at: nat :: at < |rows| ==> at in Scenarios.Last(t).pending
  {
    hide IsTrace;
    if rows == [] {
      t := EmptyTrace(recent);
    } else {
      var n := |rows| - 1;
      var t0 := TableOccurs(recent, rows[..n]);
      t := Scenarios.Extend(recent, t0, Insert(rows[n]));
      assert rows[..n] + [rows[n]] == rows;
    }
  }

  lemma EmptyTrace(recent: History) returns (t: Trace)
    ensures IsTrace(recent, t) && Scenarios.Last(t) == INITIAL
  {
    t := Trace([INITIAL], []);
  }

  /** Every table has a run in which the invalidation of any given row completes. */
  lemma EveryInvalidationCompletes(recent: History, rows: seq<UserAction>, at: nat) returns (t: Trace)
    requires at < |rows|
    ensures IsTrace(recent, t) && Scenarios.Last(t).rows == rows
    ensures t.actions != [] && t.actions[|t.actions| - 1] == DeleteMark(at)
    ensures Floor(Scenarios.Last(t), rows[at].user) > at
  {
    hide IsTrace;
    t := TableOccurs(recent, rows);
    t := Scenarios.Extend(recent, t, DeleteFeed(at));
    t := Scenarios.Extend(recent, t, DeleteGpt(at));
    t := Scenarios.Extend(recent, t, DeleteMark(at));
  }

  // Nobody waits.

  /** A request that is not over can always take its next step, whatever the rest of the system does. */
  lemma RequestsNeverWait(s: State, id: nat, now: int, popular: seq<ProductId>, gptRanked: seq<ProductId>,
                          similar: seq<ProductId>)
    requires id in s.requests && IsActive(s.requests[id])
    ensures Enabled(s, Abort(id))
    ensures match s.requests[id].phase
            case Decided(drop) => Enabled(s, if drop then Drop(id) else Mark(id))
            case Dropped => Enabled(s, Mark(id))
            case Marked => Enabled(s, LookUp(id))
            case Touching(_) => Enabled(s, Touch(id))
            case Missed => Enabled(s, ReadHistory(id, now))
            case Gathered(_, _, _) => Enabled(s, Put(id, popular, gptRanked, similar))
            case Finished(_) => false
            case Aborted => false
  {
  }

  /** Requests begin, rows arrive and cells expire at any time; an invalidation goes on or fails at any time. */
  lemma NothingElseWaits(s: State, id: nat, user: string, stale: bool, row: UserAction, at: nat)
    requires RowsInProgress(s)
    ensures id !in s.requests ==> Enabled(s, Begin(id, user, stale))
    ensures Enabled(s, Insert(row)) && Enabled(s, ExpireFeed(user)) && Enabled(s, ExpireMark(user))
    ensures at in s.pending ==> Enabled(s, DeleteFeed(at)) && Enabled(s, Crash(at))
    ensures at in s.windows ==>
              Enabled(s, if s.windows[at].gptGone then DeleteMark(at) else DeleteGpt(at)) && Enabled(s, Crash(at))
  {
  }

  /** Whose request a step belongs to, whose data it is about, and the row whose invalidation it is part of. */
  function RequestOf(a: Action): Option<nat>
  {
    if IsRequestStep(a) then Some(a.id) else None
  }

  function UserConcerned(s: State, a: Action): Option<string>
    requires Enabled(s, a)
  {
    match a
    case Begin(_, user, _) => Some(user)
    case ExpireFeed(user) => Some(user)
    case ExpireMark(user) => Some(user)
    case Insert(row) => None
    case DeleteFeed(at) => Some(s.rows[at].user)
    case DeleteGpt(_) => None
    case DeleteMark(at) => Some(s.rows[at].user)
    case Crash(_) => None
    case _ => Some(s.requests[a.id].user)
  }

  function RowConcerned(s: State, a: Action): Option<nat>
  {
    match a
    case Insert(_) => Some(|s.rows|)
    case DeleteFeed(at) => Some(at)
    case DeleteGpt(at) => Some(at)
    case DeleteMark(at) => Some(at)
    case Crash(at) => Some(at)
    case _ => None
  }

  /** Whatever else happens in between leaves a request, a user's stored data and an invalidation as they are. */
  lemma StepsLeaveOthersAlone(recent: History, s: State, a: Action)
    requires Enabled(s, a)
    ensures var s' := Next(recent, s, a);
      && (forall id :: id in s.requests && RequestOf(a) != Some(id) ==>
            id in s'.requests && s'.requests[id] == s.requests[id])
      && (forall id :: id in s'.requests && id !in s.requests ==> a.Begin? && a.id == id)
      && (forall v :: UserConcerned(s, a) != Some(v) ==>
            && (v in s'.marks <==> v in s.marks)
            && (v in s'.feeds <==> v in s.feeds) && (v in s.feeds ==> s'.feeds[v] == s.feeds[v]))
      && (forall at: nat :: RowConcerned(s, a) != Some(at) ==>
            && (at in s'.pending <==> at in s.pending)
            && (at in s'.windows <==> at in s.windows)
            && (at in s.windows ==> s'.windows[at].gptGone == s.windows[at].gptGone))
      && (if a.Insert? then s'.rows == s.rows + [a.row] else s'.rows == s.rows)
  {
  }

  // What is over stays over.

  /** A request that has finished or given up keeps its phase for good. */
  lemma {:induction false} OverStaysOver(recent: History, t: Trace, m: nat, n: nat, id: nat)
    requires IsPath(recent, t) && m <= n < |t.states|
    requires id in t.states[m].requests && !IsActive(t.states[m].requests[id])
    ensures id in t.states[n].requests && t.states[n].requests[id] == t.states[m].requests[id]
    decreases n
  {
    hide IsPath, Enabled, Next;
    PathShape(recent, t);
    if m < n {
      OverStaysOver(recent, t, m, n - 1, id);
      PathStep(recent, t, n - 1);
      OverIsLeftAlone(recent, t.states[n - 1], t.actions[n - 1], id);
    }
  }

  lemma OverIsLeftAlone(recent: History, s: State, a: Action, id: nat)
    requires Enabled(s, a) && id in s.requests && !IsActive(s.requests[id])
    ensures id in Next(recent, s, a).requests && Next(recent, s, a).requests[id] == s.requests[id]
  {
  }

  predicate Deletes(a: Action, at: nat)
  {
    a == DeleteFeed(at) || a == DeleteGpt(at) || a == DeleteMark(at)
  }

  /** An invalidation that failed or is complete is never taken up again. */
  lemma {:induction false} EndedInvalidationIsFinal(recent: History, t: Trace, m: nat, n: nat, at: nat)
    requires IsTrace(recent, t) && m < n < |t.states|
    requires t.actions[m] == Crash(at) || t.actions[m] == DeleteMark(at)
    ensures at < |t.states[n].rows| && at !in t.states[n].pending && at !in t.states[n].windows
    ensures n < |t.actions| ==> !Deletes(t.actions[n], at)
    decreases n
  {
    hide IsPath, Enabled, Next;
    PathShape(recent, t);
    PathStep(recent, t, n - 1);
    TraceKeepsRowsInProgress(recent, t, n - 1);
    if m + 1 < n {
      EndedInvalidationIsFinal(recent, t, m, n - 1, at);
    }
    EndedStaysEnded(recent, t.states[n - 1], t.actions[n - 1], at);
    if n < |t.actions| {
      PathStep(recent, t, n);
      EndedIsNotDeleted(t.states[n], t.actions[n], at);
    }
  }

  lemma EndedStaysEnded(recent: History, s: State, a: Action, at: nat)
    requires Enabled(s, a) && RowsInProgress(s)
    requires a == Crash(at) || a == DeleteMark(at) || (at < |s.rows| && at !in s.pending && at !in s.windows)
    ensures var s' := Next(recent, s, a);
      at < |s'.rows| && at !in s'.pending && at !in s'.windows
  {
  }

  lemma EndedIsNotDeleted(s: State, a: Action, at: nat)
    requires Enabled(s, a) && at !in s.pending && at !in s.windows
    ensures !Deletes(a, at)
  {
  }
}
