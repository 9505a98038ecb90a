/**
  When is a completed invalidation safe?  The exact conditions: for one state and every way in which the
  system may go on from it, and for whole runs.
 */
module InvalidationSafety {
  import opened Wrappers
  import opened Ranking
  import opened RecommendationService
  import opened InvalidationProtocol

  // Served snapshots are faithful in every run, without any hypothesis.

  ghost predicate AllFaithful(recent: History, s: State)
  {
    && (forall user :: user in s.feeds ==> Faithful(recent, s, user, s.feeds[user]))
    && (forall id :: id in s.requests ==> PhaseFaithful(recent, s, s.requests[id]))
  }

  ghost predicate PhaseFaithful(recent: History, s: State, q: Req)
  {
    match q.phase
    case Touching(snap) => Faithful(recent, s, q.user, snap)
    case Finished(snap) => Faithful(recent, s, q.user, snap)
    case Gathered(history, readAt, asOf) =>
      asOf <= |s.rows| && history == recent(readAt, s.rows[..asOf], q.user)
    case _ => true
  }

  lemma RequestStepKeepsFaithful(recent: History, s: State, a: Action)
    requires Enabled(s, a) && IsRequestStep(a) && AllFaithful(recent, s)
    ensures AllFaithful(recent, RequestNext(recent, s, a))
  {
    assert s.rows[..|s.rows|] == s.rows;
  }

  lemma WorkerStepKeepsFaithful(recent: History, s: State, a: Action)
    requires Enabled(s, a) && !IsRequestStep(a) && AllFaithful(recent, s)
    ensures AllFaithful(recent, WorkerNext(s, a))
  {
    if a.Insert? {
      assert forall n :: 0 <= n <= |s.rows| ==> (s.rows + [a.row])[..n] == s.rows[..n];
    }
  }

  lemma {:induction false} TraceIsFaithful(recent: History, t: Trace, n: nat)
    requires IsTrace(recent, t) && n < |t.states|
    ensures AllFaithful(recent, t.states[n])
  {
    hide Enabled, RequestNext, WorkerNext;
    if n > 0 {
      TraceIsFaithful(recent, t, n - 1);
      PathStep(recent, t, n - 1);
      hide AllFaithful;
      if IsRequestStep(t.actions[n - 1]) {
        RequestStepKeepsFaithful(recent, t.states[n - 1], t.actions[n - 1]);
      } else {
        WorkerStepKeepsFaithful(recent, t.states[n - 1], t.actions[n - 1]);
      }
    }
  }

  // What may still go wrong for a row, as seen in one state.

  predicate IsOf(s: State, id: nat, user: string)
  {
    id in s.requests && s.requests[id].user == user
  }

  /** A request that waits to store a feed whose history misses the row. */
  predicate HoldsOldHistory(s: State, user: string, at: nat, id: nat)
  {
    IsOf(s, id, user) && s.requests[id].phase.Gathered? && s.requests[id].phase.asOf <= at
  }

  predicate OldFeedStored(s: State, user: string, at: nat)
  {
    user in s.feeds && s.feeds[user].asOf <= at
  }

  /** A request that keeps a stored feed and has not set the visit mark yet. */
  predicate WillMark(s: State, user: string, id: nat)
  {
    IsOf(s, id, user) && (s.requests[id].phase == Decided(false) || s.requests[id].phase == Dropped)
  }

  predicate BeforeMark(s: State, user: string, id: nat)
  {
    WillMark(s, user, id) || (IsOf(s, id, user) && s.requests[id].phase == Decided(true))
  }

  ghost predicate NoneHoldsOldHistory(s: State, user: string, at: nat)
  {
    forall id :: !HoldsOldHistory(s, user, at, id)
  }

  /** An old feed, if there is one, will be dropped by the next request: there is and will be no mark. */
  ghost predicate OldFeedIsUnmarked(s: State, user: string, at: nat)
  {
    OldFeedStored(s, user, at) ==> user !in s.marks && forall id :: !WillMark(s, user, id)
  }

  /** While an old history waits to be stored there is no mark, and no request on the way to set one. */
  ghost predicate OldHistoryIsUnmarked(s: State, user: string, at: nat)
  {
    NoneHoldsOldHistory(s, user, at) || (user !in s.marks && forall id :: !BeforeMark(s, user, id))
  }

  /** The condition under which no request that begins now or later can serve a feed that misses the row. */
  ghost predicate Settled(s: State, user: string, at: nat)
  {
    NoneHoldsOldHistory(s, user, at) && OldFeedIsUnmarked(s, user, at)
  }

  /** The same, if requests that begin later wait for those that hold an old history. */
  ghost predicate SettledForPatient(s: State, user: string, at: nat)
  {
    OldHistoryIsUnmarked(s, user, at) && OldFeedIsUnmarked(s, user, at)
  }

  // The ways to go on.

  predicate BeginsFor(a: Action, user: string)
  {
    a.Begin? && a.user == user
  }

  /** No request of the user begins while another one holds an old history. */
  ghost predicate IsPatient(t: Trace, user: string, at: nat)
    requires |t.states| == |t.actions| + 1
  {
    forall i :: 0 <= i < |t.actions| && BeginsFor(t.actions[i], user) ==> NoneHoldsOldHistory(t.states[i], user, at)
  }

  predicate ServesOld(s: State, user: string, at: nat, id: nat)
  {
    IsOf(s, id, user) && s.requests[id].phase.Finished? && s.requests[id].phase.served.asOf <= at
  }

  /** Every request of the user that begins on the path and finishes has read a history with the row. */
  ghost predicate LaterVisitsAreFresh(t: Trace, user: string, at: nat)
    requires t.states != []
  {
    forall n, id :: 0 <= n < |t.states| && id !in t.states[0].requests ==> !ServesOld(t.states[n], user, at, id)
  }

  ghost predicate AlwaysFresh(recent: History, s: State, user: string, at: nat)
  {
    forall t :: IsPath(recent, t) && t.states[0] == s ==> LaterVisitsAreFresh(t, user, at)
  }

  ghost predicate FreshForPatient(recent: History, s: State, user: string, at: nat)
  {
    forall t :: IsPath(recent, t) && t.states[0] == s && IsPatient(t, user, at) ==> LaterVisitsAreFresh(t, user, at)
  }

  // Sufficiency.

  /** A request that began after `s0` serves, or is about to serve, a feed with the row. */
  ghost predicate LateIsFresh(s0: State, s: State, user: string, at: nat, id: nat)
  {
    IsOf(s, id, user) && id !in s0.requests ==>
      && NoneHoldsOldHistory(s, user, at)
      && match s.requests[id].phase
         case Marked => !OldFeedStored(s, user, at)
         case Touching(snap) => at < snap.asOf
         case Finished(snap) => at < snap.asOf
         case _ => true
  }

  ghost predicate StaysFresh(s0: State, s: State, user: string, at: nat)
  {
    && at < |s.rows| && SettledForPatient(s, user, at)
    && (forall id :: id in s0.requests ==> id in s.requests)
    && forall id :: LateIsFresh(s0, s, user, at, id)
  }

  /** Where the requests in the interesting phases come from. */
  ghost predicate RequestsComeFrom(s: State, s': State, a: Action, user: string, at: nat)
  {
    && (forall id :: id in s.requests ==> id in s'.requests)
    && (forall id :: HoldsOldHistory(s', user, at, id) ==> HoldsOldHistory(s, user, at, id))
    && (forall id :: BeforeMark(s', user, id) ==> BeforeMark(s, user, id) || (BeginsFor(a, user) && id == a.id))
    && (forall id :: WillMark(s', user, id) ==>
          || WillMark(s, user, id) || (BeginsFor(a, user) && id == a.id && user in s.marks)
          || (a.Drop? && id == a.id && user !in s'.feeds))
  }

  /** Where rows, an old feed and a mark come from. */
  predicate StoresComeFrom(s: State, s': State, a: Action, user: string, at: nat)
  {
    && |s.rows| <= |s'.rows|
    && (OldFeedStored(s', user, at) ==>
          OldFeedStored(s, user, at) || (a.Put? && HoldsOldHistory(s, user, at, a.id)))
    && (user in s'.marks ==> user in s.marks || (a.Mark? && WillMark(s, user, a.id)))
  }

  ghost predicate ComesFrom(s: State, s': State, a: Action, user: string, at: nat)
  {
    RequestsComeFrom(s, s', a, user, at) && StoresComeFrom(s, s', a, user, at)
  }

  lemma RequestsOfRequestStep(recent: History, s: State, a: Action, user: string, at: nat)
    requires Enabled(s, a) && IsRequestStep(a) && at < |s.rows|
    ensures RequestsComeFrom(s, RequestNext(recent, s, a), a, user, at)
  {
  }

  lemma StoresOfRequestStep(recent: History, s: State, a: Action, user: string, at: nat)
    requires Enabled(s, a) && IsRequestStep(a)
    ensures StoresComeFrom(s, RequestNext(recent, s, a), a, user, at)
  {
  }

  lemma WorkerStepComesFrom(s: State, a: Action, user: string, at: nat)
    requires Enabled(s, a) && !IsRequestStep(a) && at < |s.rows|
    ensures ComesFrom(s, WorkerNext(s, a), a, user, at)
  {
    var s' := WorkerNext(s, a);
    assert s'.requests == s.requests;
    assert forall id :: BeforeMark(s', user, id) ==> BeforeMark(s, user, id);
  }

  lemma MarkersAreBeforeMark(s: State, user: string)
    ensures forall id :: WillMark(s, user, id) ==> BeforeMark(s, user, id)
  {
  }

  lemma StepStaysSettled(s: State, s': State, a: Action, user: string, at: nat)
    requires ComesFrom(s, s', a, user, at) && SettledForPatient(s, user, at)
    requires BeginsFor(a, user) ==> NoneHoldsOldHistory(s, user, at)
    ensures SettledForPatient(s', user, at)
  {
    hide HoldsOldHistory, BeforeMark, WillMark;
    MarkersAreBeforeMark(s, user);
    MarkersAreBeforeMark(s', user);
    if !NoneHoldsOldHistory(s', user, at) {
      var waiting :| HoldsOldHistory(s', user, at, waiting);
      assert HoldsOldHistory(s, user, at, waiting);
      forall id ensures !BeforeMark(s', user, id) {
        assert !BeforeMark(s, user, id);
      }
    }
    if OldFeedStored(s', user, at) {
      forall id ensures !WillMark(s', user, id) {
        assert !WillMark(s, user, id);
        assert a.Put? && HoldsOldHistory(s, user, at, a.id) ==> !BeforeMark(s, user, id);
      }
    }
  }

  lemma LateStaysFreshByRequest(
    recent: History, s0: State, s: State, a: Action, user: string, at: nat, id: nat)
    requires Enabled(s, a) && IsRequestStep(a) && StaysFresh(s0, s, user, at)
    requires ComesFrom(s, RequestNext(recent, s, a), a, user, at)
    requires BeginsFor(a, user) ==> NoneHoldsOldHistory(s, user, at)
    ensures LateIsFresh(s0, RequestNext(recent, s, a), user, at, id)
  {
    assert LateIsFresh(s0, s, user, at, id);
    assert IsOf(s, id, user) && id !in s0.requests ==> !HoldsOldHistory(s, user, at, id);
  }

  lemma LateStaysFreshByWorker(s0: State, s: State, a: Action, user: string, at: nat, id: nat)
    requires Enabled(s, a) && !IsRequestStep(a) && StaysFresh(s0, s, user, at)
    requires ComesFrom(s, WorkerNext(s, a), a, user, at)
    ensures LateIsFresh(s0, WorkerNext(s, a), user, at, id)
  {
    assert LateIsFresh(s0, s, user, at, id);
  }

  lemma StepStaysFresh(recent: History, s0: State, s: State, a: Action, user: string, at: nat)
    requires Enabled(s, a) && StaysFresh(s0, s, user, at)
    requires BeginsFor(a, user) ==> NoneHoldsOldHistory(s, user, at)
    ensures StaysFresh(s0, Next(recent, s, a), user, at)
  {
    hide LateIsFresh, RequestNext, WorkerNext, Enabled, SettledForPatient, BeginsFor;
    if IsRequestStep(a) {
      RequestsOfRequestStep(recent, s, a, user, at);
      StoresOfRequestStep(recent, s, a, user, at);
    } else {
      WorkerStepComesFrom(s, a, user, at);
    }
    StepStaysSettled(s, Next(recent, s, a), a, user, at);
    forall id ensures LateIsFresh(s0, Next(recent, s, a), user, at, id) {
      if IsRequestStep(a) {
        LateStaysFreshByRequest(recent, s0, s, a, user, at, id);
      } else {
        LateStaysFreshByWorker(s0, s, a, user, at, id);
      }
    }
  }

  lemma {:induction false} PatientPathStaysFresh(recent: History, t: Trace, user: string, at: nat, n: nat)
    requires IsPath(recent, t) && IsPatient(t, user, at) && n < |t.states|
    requires at < |t.states[0].rows| && SettledForPatient(t.states[0], user, at)
    ensures StaysFresh(t.states[0], t.states[n], user, at)
  {
    hide Next, Enabled, SettledForPatient;
    if n > 0 {
      PatientPathStaysFresh(recent, t, user, at, n - 1);
      PathStep(recent, t, n - 1);
      hide StaysFresh;
      StepStaysFresh(recent, t.states[0], t.states[n - 1], t.actions[n - 1], user, at);
    }
  }

  lemma PatientPathIsFresh(recent: History, t: Trace, user: string, at: nat)
    requires IsPath(recent, t) && IsPatient(t, user, at)
    requires at < |t.states[0].rows| && SettledForPatient(t.states[0], user, at)
    ensures LaterVisitsAreFresh(t, user, at)
  {
    hide IsPath, IsPatient, SettledForPatient;
    assert |t.states| == |t.actions| + 1 by {
      PathShape(recent, t);
    }
    forall n, id | 0 <= n < |t.states| && id !in t.states[0].requests ensures !ServesOld(t.states[n], user, at, id) {
      PatientPathStaysFresh(recent, t, user, at, n);
      assert LateIsFresh(t.states[0], t.states[n], user, at, id);
    }
  }

  lemma PathShape(recent: History, t: Trace)
    requires IsPath(recent, t)
    ensures |t.states| == |t.actions| + 1
  {
  }

  /** Who holds an old history held it from the start: histories read later contain the row. */
  lemma {:induction false} HoldersAreOld(recent: History, t: Trace, user: string, at: nat, m: nat, n: nat, id: nat)
    requires IsPath(recent, t) && m <= n < |t.states| && at < |t.states[m].rows|
    ensures HoldsOldHistory(t.states[n], user, at, id) ==> HoldsOldHistory(t.states[m], user, at, id)
    ensures at < |t.states[n].rows|
    decreases n
  {
    hide Enabled, RequestNext, WorkerNext, HoldsOldHistory;
    if m < n {
      HoldersAreOld(recent, t, user, at, m, n - 1, id);
      PathStep(recent, t, n - 1);
      StepComesFrom(recent, t.states[n - 1], t.actions[n - 1], user, at);
    }
  }

  lemma StepComesFrom(recent: History, s: State, a: Action, user: string, at: nat)
    requires Enabled(s, a) && at < |s.rows|
    ensures ComesFrom(s, Next(recent, s, a), a, user, at)
  {
    hide RequestsComeFrom, StoresComeFrom, RequestNext, WorkerNext, Enabled;
    if IsRequestStep(a) {
      RequestsOfRequestStep(recent, s, a, user, at);
      StoresOfRequestStep(recent, s, a, user, at);
    } else {
      WorkerStepComesFrom(s, a, user, at);
    }
  }

  // Necessity: a run that goes wrong from every state that is not settled.

  /** One step and then a path. */
  lemma Prepend(recent: History, s: State, a: Action, t: Trace, user: string, at: nat) returns (t': Trace)
    requires Enabled(s, a) && IsPath(recent, t) && t.states[0] == Next(recent, s, a)
    ensures IsPath(recent, t') && t'.states[0] == s && |t'.states| == |t.states| + 1
    ensures t'.actions == [a] + t.actions
    ensures forall n :: 0 <= n < |t.states| ==> t'.states[n + 1] == t.states[n]
    ensures IsPatient(t, user, at) && (BeginsFor(a, user) ==> NoneHoldsOldHistory(s, user, at)) ==>
              IsPatient(t', user, at)
  {
    hide Next, Enabled, NoneHoldsOldHistory, BeginsFor;
    t' := Trace([s] + t.states, [a] + t.actions);
    forall i | 0 <= i < |t'.actions|
      ensures Enabled(t'.states[i], t'.actions[i]) && t'.states[i + 1] == Next(recent, t'.states[i], t'.actions[i])
    {
      if i > 0 {
        PathStep(recent, t, i - 1);
        assert t'.states[i] == t.states[i - 1] && t'.actions[i] == t.actions[i - 1];
      }
    }
  }

  /** A patient path on which request `id` serves an old feed in the end. */
  ghost predicate LeadsToOld(recent: History, s: State, user: string, at: nat, id: nat, t: Trace)
  {
    && IsPath(recent, t) && t.states[0] == s && IsPatient(t, user, at)
    && ServesOld(t.states[|t.actions|], user, at, id)
  }

  lemma StepBack(recent: History, s: State, a: Action, user: string, at: nat, id: nat, t: Trace) returns (t': Trace)
    requires Enabled(s, a) && LeadsToOld(recent, Next(recent, s, a), user, at, id, t)
    requires BeginsFor(a, user) ==> NoneHoldsOldHistory(s, user, at)
    ensures LeadsToOld(recent, s, user, at, id, t')
  {
    hide Next, Enabled, NoneHoldsOldHistory, BeginsFor, ServesOld, IsPath, IsPatient;
    PathShape(recent, t);
    t' := Prepend(recent, s, a, t, user, at);
    PathShape(recent, t');
  }

  /** A visit that finds a mark and an old feed serves it. */
  lemma MarkedOldFeedIsServed(recent: History, s: State, user: string, at: nat, id: nat) returns (t: Trace)
    requires OldFeedStored(s, user, at) && user in s.marks && NoneHoldsOldHistory(s, user, at)
    requires id !in s.requests
    ensures LeadsToOld(recent, s, user, at, id, t)
  {
    hide IsPath, IsPatient, LeadsToOld, NoneHoldsOldHistory, WorkerNext;
    var s1 := Next(recent, s, Begin(id, user, false));
    var s2 := Next(recent, s1, Mark(id));
    var s3 := Next(recent, s2, LookUp(id));
    var s4 := Next(recent, s3, Touch(id));
    t := AlreadyServed(recent, s4, user, at, id);
    t := StepBack(recent, s3, Touch(id), user, at, id, t);
    t := StepBack(recent, s2, LookUp(id), user, at, id, t);
    t := StepBack(recent, s1, Mark(id), user, at, id, t);
    t := StepBack(recent, s, Begin(id, user, false), user, at, id, t);
  }

  lemma AlreadyServed(recent: History, s: State, user: string, at: nat, id: nat) returns (t: Trace)
    requires ServesOld(s, user, at, id)
    ensures LeadsToOld(recent, s, user, at, id, t)
  {
    t := Trace([s], []);
  }

  ghost function Holders(s: State, user: string, at: nat): set<nat>
  {
    set id | id in s.requests && HoldsOldHistory(s, user, at, id)
  }

  /** The same while histories wait: their requests may give up first. */
  lemma {:induction false} MarkedOldFeedIsServedInTheEnd(recent: History, s: State, user: string, at: nat, id: nat)
    returns (t: Trace)
    requires OldFeedStored(s, user, at) && user in s.marks && id !in s.requests
    ensures LeadsToOld(recent, s, user, at, id, t)
    decreases |Holders(s, user, at)|
  {
    if NoneHoldsOldHistory(s, user, at) {
      t := MarkedOldFeedIsServed(recent, s, user, at, id);
    } else {
      var waiting :| HoldsOldHistory(s, user, at, waiting);
      var s' := Next(recent, s, Abort(waiting));
      assert Holders(s', user, at) == Holders(s, user, at) - {waiting};
      assert waiting in Holders(s, user, at);
      t := MarkedOldFeedIsServedInTheEnd(recent, s', user, at, id);
      t := StepBack(recent, s, Abort(waiting), user, at, id, t);
    }
  }

  /** An old history that waits is stored under a mark. */
  lemma MarkedHolderIsServed(recent: History, s: State, user: string, at: nat, holder: nat, id: nat) returns (t: Trace)
    requires HoldsOldHistory(s, user, at, holder) && user in s.marks && id !in s.requests
    ensures LeadsToOld(recent, s, user, at, id, t)
  {
    hide LeadsToOld, WorkerNext;
    t := MarkedOldFeedIsServedInTheEnd(recent, Next(recent, s, Put(holder, [], [], [])), user, at, id);
    t := StepBack(recent, s, Put(holder, [], [], []), user, at, id, t);
  }

  /** Every breach of the condition leads to an old feed being served, without impatience. */
  lemma UnsettledGoesWrong(recent: History, s: State, user: string, at: nat, id: nat) returns (t: Trace)
    requires !SettledForPatient(s, user, at) && id !in s.requests
    ensures LeadsToOld(recent, s, user, at, id, t)
  {
    hide LeadsToOld, WorkerNext;
    if !OldFeedIsUnmarked(s, user, at) {
      if user in s.marks {
        t := MarkedOldFeedIsServedInTheEnd(recent, s, user, at, id);
      } else {
        var marker :| WillMark(s, user, marker);
        t := MarkedOldFeedIsServedInTheEnd(recent, Next(recent, s, Mark(marker)), user, at, id);
        t := StepBack(recent, s, Mark(marker), user, at, id, t);
      }
    } else {
      var holder :| HoldsOldHistory(s, user, at, holder);
      if user in s.marks {
        t := MarkedHolderIsServed(recent, s, user, at, holder, id);
      } else {
        var marker :| BeforeMark(s, user, marker);
        t := MarkerMeetsHolder(recent, s, user, at, holder, marker, id);
      }
    }
  }

  lemma MarkerMeetsHolder(recent: History, s: State, user: string, at: nat, holder: nat, marker: nat, id: nat)
    returns (t: Trace)
    requires HoldsOldHistory(s, user, at, holder) && BeforeMark(s, user, marker) && id !in s.requests
    ensures LeadsToOld(recent, s, user, at, id, t)
  {
    hide LeadsToOld, WorkerNext;
    if s.requests[marker].phase == Decided(true) {
      var s' := Next(recent, s, Drop(marker));
      t := MarkedHolderIsServed(recent, Next(recent, s', Mark(marker)), user, at, holder, id);
      t := StepBack(recent, s', Mark(marker), user, at, id, t);
      t := StepBack(recent, s, Drop(marker), user, at, id, t);
    } else {
      t := MarkedHolderIsServed(recent, Next(recent, s, Mark(marker)), user, at, holder, id);
      t := StepBack(recent, s, Mark(marker), user, at, id, t);
    }
  }

  lemma FreshId(s: State) returns (id: nat)
    ensures id !in s.requests
  {
    id := Above(s.requests.Keys);
  }

  lemma {:induction false} Above(ids: set<nat>) returns (bound: nat)
    ensures forall id :: id in ids ==> id < bound
    decreases |ids|
  {
    bound := 0;
    if ids != {} {
      var id :| id in ids;
      bound := Above(ids - {id});
      bound := if bound <= id then id + 1 else bound;
      assert ids == (ids - {id}) + {id};
    }
  }

  // The exact conditions on a state.

  /**
    If later requests wait for those that hold an old history: however the system goes on, all of them
    serve feeds with the row, if and only if neither an old feed nor an old history can meet a mark.
   */
  lemma FreshForPatientIff(recent: History, s: State, user: string, at: nat)
    requires at < |s.rows|
    ensures FreshForPatient(recent, s, user, at) <==> SettledForPatient(s, user, at)
  {
    hide SettledForPatient, LaterVisitsAreFresh, IsPatient;
    if SettledForPatient(s, user, at) {
      forall t | IsPath(recent, t) && t.states[0] == s && IsPatient(t, user, at)
        ensures LaterVisitsAreFresh(t, user, at)
      {
        PatientPathIsFresh(recent, t, user, at);
      }
    } else {
      var id := FreshId(s);
      var t := UnsettledGoesWrong(recent, s, user, at, id);
      LeadsAway(recent, s, user, at, id, t);
    }
  }

  lemma LeadsAway(recent: History, s: State, user: string, at: nat, id: nat, t: Trace)
    requires LeadsToOld(recent, s, user, at, id, t) && id !in s.requests
    ensures !LaterVisitsAreFresh(t, user, at)
  {
  }

  /** A request that begins while an old history waits can drop too early and mark the old feed. */
  lemma HolderGoesWrong(recent: History, s: State, user: string, at: nat, holder: nat) returns (t: Trace)
    requires HoldsOldHistory(s, user, at, holder)
    ensures IsPath(recent, t) && t.states[0] == s && !LaterVisitsAreFresh(t, user, at)
  {
    hide LeadsToOld, WorkerNext, LaterVisitsAreFresh;
    var marker := FreshId(s);
    var s' := Next(recent, s, Begin(marker, user, true));
    var id := FreshId(s');
    t := MarkerMeetsHolder(recent, s', user, at, holder, marker, id);
    var n := |t.actions|;
    LastState(recent, s', user, at, id, t);
    t := Prepend(recent, s, Begin(marker, user, true), t, user, at);
    assert !LaterVisitsAreFresh(t, user, at) by {
      ServedOnPath(t, user, at, n + 1, id);
    }
  }

  lemma LastState(recent: History, s: State, user: string, at: nat, id: nat, t: Trace)
    requires LeadsToOld(recent, s, user, at, id, t)
    ensures IsPath(recent, t) && t.states[0] == s && |t.states| == |t.actions| + 1
    ensures ServesOld(t.states[|t.actions|], user, at, id)
  {
  }

  lemma ServedOnPath(t: Trace, user: string, at: nat, n: nat, id: nat)
    requires n < |t.states| && id !in t.states[0].requests && ServesOld(t.states[n], user, at, id)
    ensures !LaterVisitsAreFresh(t, user, at)
  {
  }

  /**
    Without any hypothesis on what comes: all later requests serve feeds with the row if and only if no
    request holds an old history, and an old feed, if stored, is unmarked and about to stay so.
   */
  lemma AlwaysFreshIff(recent: History, s: State, user: string, at: nat)
    requires at < |s.rows|
    ensures AlwaysFresh(recent, s, user, at) <==> Settled(s, user, at)
  {
    hide OldFeedIsUnmarked, LaterVisitsAreFresh;
    FreshForPatientIff(recent, s, user, at);
    if Settled(s, user, at) {
      forall t | IsPath(recent, t) && t.states[0] == s ensures LaterVisitsAreFresh(t, user, at) {
        NoHolderNoHurry(recent, t, user, at);
      }
    } else if !NoneHoldsOldHistory(s, user, at) {
      var holder :| HoldsOldHistory(s, user, at, holder);
      var t := HolderGoesWrong(recent, s, user, at, holder);
    }
  }

  lemma NoHolderNoHurry(recent: History, t: Trace, user: string, at: nat)
    requires IsPath(recent, t) && at < |t.states[0].rows| && NoneHoldsOldHistory(t.states[0], user, at)
    ensures IsPatient(t, user, at)
  {
    hide IsPath, HoldsOldHistory;
    PathShape(recent, t);
    forall i, id | 0 <= i < |t.actions| ensures !HoldsOldHistory(t.states[i], user, at, id) {
      HoldersAreOld(recent, t, user, at, 0, i, id);
    }
  }

  // Whole runs.

  /** The first and the last delete of the invalidation for row `at`. */
  predicate IsInvalidation(t: Trace, open: nat, done: nat, at: nat)
  {
    open < done < |t.actions| && t.actions[open] == DeleteFeed(at) && t.actions[done] == DeleteMark(at)
  }

  /** If an old history waits when the invalidation starts, no other request of the user has its mark to set. */
  ghost predicate NoMarkerAtStart(t: Trace, open: nat, user: string, at: nat)
    requires open < |t.states|
  {
    forall holder, id :: HoldsOldHistory(t.states[open], user, at, holder) ==> !BeforeMark(t.states[open], user, id)
  }

  /** In that case no request of the user begins during the invalidation. */
  ghost predicate NoneBeginsInside(t: Trace, open: nat, done: nat, user: string, at: nat)
    requires open < |t.states|
  {
    NoneHoldsOldHistory(t.states[open], user, at) ||
    forall k :: open < k < done && k < |t.actions| ==> !BeginsFor(t.actions[k], user)
  }

  /** Nor does one begin after it while the old history still waits. */
  ghost predicate NoneBeginsTooSoon(t: Trace, done: nat, user: string, at: nat)
    requires |t.states| == |t.actions| + 1
  {
    forall k :: done < k < |t.actions| && BeginsFor(t.actions[k], user) ==> NoneHoldsOldHistory(t.states[k], user, at)
  }

  ghost predicate Uncrossed(t: Trace, open: nat, done: nat, user: string, at: nat)
    requires |t.states| == |t.actions| + 1 && open < |t.states|
  {
    && NoMarkerAtStart(t, open, user, at) && NoneBeginsInside(t, open, done, user, at)
    && NoneBeginsTooSoon(t, done, user, at)
  }

  /** During the invalidation: an old feed goes back to an old history that waited at its start. */
  ghost predicate QuietInside(first: State, s: State, user: string, at: nat)
  {
    && (OldFeedStored(s, user, at) ==> !NoneHoldsOldHistory(first, user, at))
    && (!NoneHoldsOldHistory(first, user, at) ==> forall id :: !BeforeMark(s, user, id))
  }

  lemma DeleteFeedIsQuiet(s: State, at: nat, user: string)
    requires Enabled(s, DeleteFeed(at)) && s.rows[at].user == user
    requires forall holder, id :: HoldsOldHistory(s, user, at, holder) ==> !BeforeMark(s, user, id)
    ensures QuietInside(s, WorkerNext(s, DeleteFeed(at)), user, at)
  {
    var s' := WorkerNext(s, DeleteFeed(at));
    assert forall id :: BeforeMark(s', user, id) ==> BeforeMark(s, user, id);
  }

  lemma QuietStep(first: State, s: State, s': State, a: Action, user: string, at: nat)
    requires ComesFrom(s, s', a, user, at) && QuietInside(first, s, user, at)
    requires forall id :: HoldsOldHistory(s, user, at, id) ==> HoldsOldHistory(first, user, at, id)
    requires NoneHoldsOldHistory(first, user, at) || !BeginsFor(a, user)
    ensures QuietInside(first, s', user, at)
  {
    hide HoldsOldHistory, BeforeMark, WillMark;
    if !NoneHoldsOldHistory(first, user, at) {
      forall id ensures !BeforeMark(s', user, id) {
        assert !BeforeMark(s, user, id);
      }
    }
  }

  lemma {:induction false} InvalidationIsQuiet(
    recent: History, t: Trace, open: nat, done: nat, at: nat, user: string, k: nat)
    requires IsPath(recent, t) && IsInvalidation(t, open, done, at) && open < k <= done
    requires at < |t.states[open].rows| && t.states[open].rows[at].user == user
    requires NoMarkerAtStart(t, open, user, at) && NoneBeginsInside(t, open, done, user, at)
    ensures QuietInside(t.states[open], t.states[k], user, at)
    decreases k
  {
    hide IsPath, Enabled, RequestNext, WorkerNext, HoldsOldHistory, BeforeMark, NoneHoldsOldHistory, BeginsFor;
    PathShape(recent, t);
    PathStep(recent, t, k - 1);
    if k == open + 1 {
      DeleteFeedIsQuiet(t.states[open], at, user);
    } else {
      InvalidationIsQuiet(recent, t, open, done, at, user, k - 1);
      forall id
        ensures HoldsOldHistory(t.states[k - 1], user, at, id) ==> HoldsOldHistory(t.states[open], user, at, id)
      {
        HoldersAreOld(recent, t, user, at, open, k - 1, id);
      }
      HoldersAreOld(recent, t, user, at, open, k - 1, 0);
      StepComesFrom(recent, t.states[k - 1], t.actions[k - 1], user, at);
      hide QuietInside, ComesFrom;
      QuietStep(t.states[open], t.states[k - 1], t.states[k], t.actions[k - 1], user, at);
    }
  }

  /** The last delete leaves a settled state. */
  lemma DeleteMarkSettles(first: State, s: State, at: nat, user: string)
    requires Enabled(s, DeleteMark(at)) && s.rows[at].user == user && QuietInside(first, s, user, at)
    requires forall id :: HoldsOldHistory(s, user, at, id) ==> HoldsOldHistory(first, user, at, id)
    ensures SettledForPatient(WorkerNext(s, DeleteMark(at)), user, at)
  {
    var s' := WorkerNext(s, DeleteMark(at));
    assert forall id :: BeforeMark(s', user, id) ==> BeforeMark(s, user, id);
    assert forall id :: HoldsOldHistory(s', user, at, id) ==> HoldsOldHistory(s, user, at, id);
    MarkersAreBeforeMark(s', user);
  }

  lemma InvalidationSettles(recent: History, t: Trace, open: nat, done: nat, at: nat, user: string)
    requires IsPath(recent, t) && IsInvalidation(t, open, done, at)
    requires at < |t.states[done].rows| && t.states[done].rows[at].user == user
    requires NoMarkerAtStart(t, open, user, at) && NoneBeginsInside(t, open, done, user, at)
    ensures SettledForPatient(t.states[done + 1], user, at)
  {
    hide HoldsOldHistory, QuietInside, NoMarkerAtStart, NoneBeginsInside, RequestNext, SettledForPatient;
    PathStep(recent, t, open);
    PathStep(recent, t, done);
    PathGrows(recent, t, open, done);
    assert t.states[open].rows[at] == t.states[done].rows[..|t.states[open].rows|][at];
    InvalidationIsQuiet(recent, t, open, done, at, user, done);
    forall id ensures HoldsOldHistory(t.states[done], user, at, id) ==> HoldsOldHistory(t.states[open], user, at, id) {
      HoldersAreOld(recent, t, user, at, open, done, id);
    }
    DeleteMarkSettles(t.states[open], t.states[done], at, user);
  }

  function Suffix(t: Trace, n: nat): Trace
    requires n <= |t.actions| && |t.states| == |t.actions| + 1
  {
    Trace(t.states[n..], t.actions[n..])
  }

  lemma SuffixIsPatientPath(recent: History, t: Trace, n: nat, user: string, at: nat)
    requires IsPath(recent, t) && 0 < n <= |t.actions| && NoneBeginsTooSoon(t, n - 1, user, at)
    ensures IsPath(recent, Suffix(t, n)) && IsPatient(Suffix(t, n), user, at)
  {
    hide Next, Enabled, NoneHoldsOldHistory, BeginsFor;
    var u := Suffix(t, n);
    forall i | 0 <= i < |u.actions|
      ensures Enabled(u.states[i], u.actions[i]) && u.states[i + 1] == Next(recent, u.states[i], u.actions[i])
      ensures BeginsFor(u.actions[i], user) ==> NoneHoldsOldHistory(u.states[i], user, at)
    {
      PathStep(recent, t, n + i);
    }
  }

  /** What a request that began after step `done` serves. */
  ghost predicate ServesRow(recent: History, t: Trace, done: nat, at: nat, n: nat, id: nat)
    requires n < |t.states| && done < |t.states| && at < |t.states[done].rows|
    requires id in t.states[n].requests && t.states[n].requests[id].phase.Finished?
  {
    var snap := t.states[n].requests[id].phase.served;
    && at < snap.asOf <= |t.states[n].rows|
    && t.states[n].rows[at] == t.states[done].rows[at]
    && snap.sources.history == recent(snap.readAt, t.states[n].rows[..snap.asOf], t.states[done].rows[at].user)
  }

  /**
    Invalidation safety.  Let the three deletes for row `at` run from step `open` to step `done`, and let a
    request of the same user begin later.  If it finishes, it serves a merge whose history was read from a
    table that contains the row.  The only hypotheses concern a history that was read before the row and
    still waits to be stored when the deletes start; nothing is said about the rest of the run.
   */
  lemma InvalidationIsSafe(
    recent: History, t: Trace, open: nat, done: nat, at: nat, begin: nat, id: nat, stale: bool, n: nat)
    requires IsTrace(recent, t) && IsInvalidation(t, open, done, at) && done < begin < n < |t.states|
    requires at < |t.states[done].rows|
    requires Uncrossed(t, open, done, t.states[done].rows[at].user, at)
    requires t.actions[begin] == Begin(id, t.states[done].rows[at].user, stale)
    requires id in t.states[n].requests && t.states[n].requests[id].phase.Finished?
    ensures ServesRow(recent, t, done, at, n, id)
  {
    hide NoMarkerAtStart, NoneBeginsInside, NoneBeginsTooSoon, WorkerNext, SettledForPatient, AllFaithful;
    var user := t.states[done].rows[at].user;
    InvalidationSettles(recent, t, open, done, at, user);
    PathGrows(recent, t, done, done + 1);
    PathGrows(recent, t, done + 1, begin);
    PathStep(recent, t, begin);
    PathGrows(recent, t, begin + 1, n);
    PathGrows(recent, t, done, n);
    assert t.states[n].rows[at] == t.states[n].rows[..|t.states[done].rows|][at];
    SuffixIsPatientPath(recent, t, done + 1, user, at);
    var u := Suffix(t, done + 1);
    PatientPathIsFresh(recent, u, user, at);
    assert u.states[n - done - 1] == t.states[n];
    assert !ServesOld(u.states[n - done - 1], user, at, id);
    TraceIsFaithful(recent, t, n);
    FinishedIsFaithful(recent, t.states[n], id);
  }

  lemma FinishedIsFaithful(recent: History, s: State, id: nat)
    requires AllFaithful(recent, s) && id in s.requests && s.requests[id].phase.Finished?
    ensures Faithful(recent, s, s.requests[id].user, s.requests[id].phase.served)
  {
    assert PhaseFaithful(recent, s, s.requests[id]);
  }

  // Runs whose requests keep apart.

  /** An open window goes back to its first delete, and gathers everyone who is active since then. */
  lemma {:induction false} WindowWasOpened(recent: History, t: Trace, n: nat, at: nat) returns (open: nat)
    requires IsTrace(recent, t) && n < |t.states| && at in t.states[n].windows
    ensures open < n && t.actions[open] == DeleteFeed(at) && at < |t.states[open].rows|
    ensures forall k :: open < k <= n ==>
              at in t.states[k].windows
              && ActiveOf(t.states[open], t.states[open].rows[at].user) <= t.states[k].windows[at].overlap
  {
    hide IsPath, Enabled, RequestNext, WorkerNext, ActiveOf;
    PathShape(recent, t);
    PathStep(recent, t, n - 1);
    WindowStep(recent, t.states[n - 1], t.actions[n - 1], at);
    if t.actions[n - 1] == DeleteFeed(at) {
      open := n - 1;
    } else {
      open := WindowWasOpened(recent, t, n - 1, at);
    }
  }

  lemma WindowStep(recent: History, s: State, a: Action, at: nat)
    requires Enabled(s, a) && at in Next(recent, s, a).windows
    ensures a == DeleteFeed(at) ==>
              at < |s.rows| && Next(recent, s, a).windows[at].overlap == ActiveOf(s, s.rows[at].user)
    ensures a != DeleteFeed(at) ==>
              at in s.windows && s.windows[at].overlap <= Next(recent, s, a).windows[at].overlap
  {
  }

  lemma HolderIsActive(s: State, user: string, at: nat, id: nat)
    ensures HoldsOldHistory(s, user, at, id) ==> id in ActiveOf(s, user) && !BeforeMark(s, user, id)
    ensures BeforeMark(s, user, id) ==> id in ActiveOf(s, user)
  {
  }

  /** A request that begins is active, and overlaps every open window of its user. */
  lemma BeginJoins(recent: History, s: State, a: Action, user: string, at: nat)
    requires Enabled(s, a) && BeginsFor(a, user)
    ensures var s' := Next(recent, s, a);
      && a.id !in s.requests && a.id in ActiveOf(s', user) && ActiveOf(s, user) <= ActiveOf(s', user)
      && (at in s.windows && UserOf(s, at) == Some(user) ==>
            at in s'.windows && a.id in s'.windows[at].overlap && s.windows[at].overlap <= s'.windows[at].overlap)
  {
  }

  /** No request begins inside if at most one overlaps the window and an old history waits at its start. */
  lemma LoneHolderKeepsOthersOut(
    recent: History, t: Trace, open: nat, done: nat, at: nat, user: string, holder: nat, k: nat)
    requires IsTrace(recent, t) && IsInvalidation(t, open, done, at) && open < k < done
    requires at < |t.states[open].rows| && t.states[open].rows[at].user == user
    requires forall m :: open < m <= done ==>
               at in t.states[m].windows && ActiveOf(t.states[open], user) <= t.states[m].windows[at].overlap
    requires forall s :: s in t.states ==> OnePerWindow(s, user)
    requires HoldsOldHistory(t.states[open], user, at, holder)
    ensures !BeginsFor(t.actions[k], user)
  {
    hide Next, Enabled, IsPath, HoldsOldHistory, ActiveOf;
    PathShape(recent, t);
    HolderIsActive(t.states[open], user, at, holder);
    PathStep(recent, t, k);
    PathGrows(recent, t, open, k);
    PathGrows(recent, t, k, k + 1);
    assert UserOf(t.states[k], at) == Some(user) && UserOf(t.states[k + 1], at) == Some(user) by {
      assert t.states[k].rows[at] == t.states[k].rows[..|t.states[open].rows|][at];
      assert t.states[k + 1].rows[at] == t.states[k + 1].rows[..|t.states[k].rows|][at];
    }
    HolderIsPresent(t.states[open], user, at, holder);
    assert t.states[k + 1] in t.states;
    if BeginsFor(t.actions[k], user) {
      BeginJoins(recent, t.states[k], t.actions[k], user, at);
    }
  }

  lemma HolderIsPresent(s: State, user: string, at: nat, id: nat)
    requires HoldsOldHistory(s, user, at, id)
    ensures id in s.requests
  {
  }

  lemma DisciplineUncrosses(recent: History, t: Trace, open: nat, done: nat, at: nat, user: string)
    requires IsTrace(recent, t) && IsInvalidation(t, open, done, at) && Disciplined(t, user)
    requires at < |t.states[open].rows| && t.states[open].rows[at].user == user
    requires forall m :: open < m <= done ==>
               at in t.states[m].windows && ActiveOf(t.states[open], user) <= t.states[m].windows[at].overlap
    ensures Uncrossed(t, open, done, user, at)
  {
    hide Next, Enabled, HoldsOldHistory, BeforeMark, ActiveOf, OnePerWindow, BeginsFor;
    PathShape(recent, t);
    forall holder, id | HoldsOldHistory(t.states[open], user, at, holder)
      ensures !BeforeMark(t.states[open], user, id)
    {
      HolderIsActive(t.states[open], user, at, holder);
      HolderIsActive(t.states[open], user, at, id);
      assert t.states[open] in t.states;
    }
    if !NoneHoldsOldHistory(t.states[open], user, at) {
      var holder :| HoldsOldHistory(t.states[open], user, at, holder);
      forall k | open < k < done && k < |t.actions| ensures !BeginsFor(t.actions[k], user) {
        LoneHolderKeepsOthersOut(recent, t, open, done, at, user, holder, k);
      }
    }
    forall k, id | done < k < |t.actions| && BeginsFor(t.actions[k], user)
      ensures !HoldsOldHistory(t.states[k], user, at, id)
    {
      PathStep(recent, t, k);
      BeginJoins(recent, t.states[k], t.actions[k], user, at);
      HolderIsActive(t.states[k], user, at, id);
      assert t.states[k + 1] in t.states;
      if HoldsOldHistory(t.states[k], user, at, id) {
        HolderIsPresent(t.states[k], user, at, id);
      }
    }
  }

  /** In particular: if a user's requests never overlap, and at most one overlaps each invalidation of the user. */
  lemma DisciplinedRunsAreSafe(
    recent: History, t: Trace, done: nat, at: nat, begin: nat, id: nat, stale: bool, n: nat)
    requires IsTrace(recent, t) && done < begin < n < |t.states|
    requires at < |t.states[done].rows| && t.actions[done] == DeleteMark(at)
    requires t.actions[begin] == Begin(id, t.states[done].rows[at].user, stale)
    requires Disciplined(t, t.states[done].rows[at].user)
    requires id in t.states[n].requests && t.states[n].requests[id].phase.Finished?
    ensures ServesRow(recent, t, done, at, n, id)
  {
    hide Next, ActiveOf, Disciplined, Uncrossed, ServesRow;
    PathStep(recent, t, done);
    var open := WindowWasOpened(recent, t, done, at);
    PathGrows(recent, t, open, done);
    assert t.states[done].rows[at] == t.states[done].rows[..|t.states[open].rows|][at];
    DisciplineUncrosses(recent, t, open, done, at, t.states[done].rows[at].user);
    InvalidationIsSafe(recent, t, open, done, at, begin, id, stale, n);
  }
}
