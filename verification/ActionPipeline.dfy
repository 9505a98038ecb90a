/**
  Whole runs from the attempts of the callers to the rows of the table.  Deliveries may be lost, repeated
  and reordered, and each may fail before or after its insert.
 */
module ActionPipeline {
  import opened Wrappers
  import opened TtlPolicy
  import opened ActionService
  import opened UserActionConsumer

  /** The table, and for each new row whether its invalidation was carried out or missed, by user. */
  datatype Sink = Sink(rows: seq<UserAction>, invalidated: seq<string>, missed: seq<string>)

  const EMPTY_SINK := Sink([], [], [])

  function Deliver(s: Sink, d: Delivery): Sink
  {
    var (rows, result) := Consume(s.rows, d);
    match result
    case Stored => Sink(rows, s.invalidated + [Parse(d.message).action.user], s.missed)
    case StoredThenFailed => Sink(rows, s.invalidated, s.missed + [Parse(d.message).action.user])
    case _ => s
  }

  /** The state after the first `n` deliveries. */
  function After(ds: seq<Delivery>, n: nat): Sink
    requires n <= |ds|
  {
    if n == 0 then EMPTY_SINK else Deliver(After(ds, n - 1), ds[n - 1])
  }

  function Final(ds: seq<Delivery>): Sink
  {
    After(ds, |ds|)
  }

  /** The delivery carries an action as far as the insert. */
  predicate Reaches(d: Delivery)
  {
    Parse(d.message).Action? && !d.fault.BeforeInsert?
  }

  function ActionOf(d: Delivery): UserAction
    requires Reaches(d)
  {
    Parse(d.message).action
  }

  // The table.

  ghost predicate UniqueKeys(rows: seq<UserAction>)
  {
    forall i, j :: 0 <= i < j < |rows| ==> KeyOf(rows[i]) != KeyOf(rows[j])
  }

  lemma RowOfKeyIsUnique(rows: seq<UserAction>, a: UserAction, b: UserAction)
    requires UniqueKeys(rows) && a in rows && b in rows && KeyOf(a) == KeyOf(b)
    ensures a == b
  {
    var i :| 0 <= i < |rows| && rows[i] == a;
    var j :| 0 <= j < |rows| && rows[j] == b;
    assert i <= j || j <= i;
  }

  lemma DeliverEffect(s: Sink, d: Delivery)
    ensures Deliver(s, d).rows == if Reaches(d) then InsertRow(s.rows, ActionOf(d)) else s.rows
  {
  }

  /** At most one row per user and key, in every run. */
  lemma {:induction false} TableHasUniqueKeys(ds: seq<Delivery>, n: nat)
    requires n <= |ds|
    ensures UniqueKeys(After(ds, n).rows)
  {
    hide Deliver;
    if n > 0 {
      TableHasUniqueKeys(ds, n - 1);
      DeliverEffect(After(ds, n - 1), ds[n - 1]);
    }
  }

  ghost predicate ReachedKey(ds: seq<Delivery>, n: nat, k: RowKey)
    requires n <= |ds|
  {
    exists i :: 0 <= i < n && Reaches(ds[i]) && KeyOf(ActionOf(ds[i])) == k
  }

  /** The keys of the table are exactly the keys that were delivered as far as the insert. */
  lemma {:induction false} TableHasReachedKeys(ds: seq<Delivery>, n: nat, k: RowKey)
    requires n <= |ds|
    ensures HasKey(After(ds, n).rows, k) <==> ReachedKey(ds, n, k)
  {
    hide Deliver, Reaches, KeyOf;
    if n > 0 {
      TableHasReachedKeys(ds, n - 1, k);
      var before, d := After(ds, n - 1).rows, ds[n - 1];
      DeliverEffect(After(ds, n - 1), d);
      if Reaches(d) {
        InsertAddsKey(before, ActionOf(d), k);
      }
    }
  }

  lemma InsertAddsKey(rows: seq<UserAction>, a: UserAction, k: RowKey)
    ensures HasKey(InsertRow(rows, a), k) <==> HasKey(rows, k) || KeyOf(a) == k
  {
    var longer := rows + [a];
    assert longer[|rows|] == a;
    if HasKey(rows, k) {
      var i :| 0 <= i < |rows| && KeyOf(rows[i]) == k;
      assert longer[i] == rows[i];
    }
  }

  ghost predicate CameFirst(ds: seq<Delivery>, n: nat, a: UserAction)
    requires n <= |ds|
  {
    exists i :: 0 <= i < n && Reaches(ds[i]) && ActionOf(ds[i]) == a && !ReachedKey(ds, i, KeyOf(a))
  }

  /** The exact content of the table: of all deliveries with one user and key, the first one. */
  lemma {:induction false} FirstDeliveryWins(ds: seq<Delivery>, n: nat, a: UserAction)
    requires n <= |ds|
    ensures a in After(ds, n).rows <==> CameFirst(ds, n, a)
  {
    hide Deliver, Reaches, KeyOf, ReachedKey, HasKey;
    if n > 0 {
      FirstDeliveryWins(ds, n - 1, a);
      DeliverEffect(After(ds, n - 1), ds[n - 1]);
      TableHasReachedKeys(ds, n - 1, KeyOf(a));
    }
  }

  // The result of each delivery.

  /** What the worker does with delivery `n`. */
  function ResultOf(ds: seq<Delivery>, n: nat): Result
    requires n < |ds|
  {
    Consume(After(ds, n).rows, ds[n]).1
  }

  /** A published action is stored once; a redelivery finds its row and is over without an error. */
  lemma PublishedActionIsStoredOnce(ds: seq<Delivery>, n: nat, a: UserAction)
    requires n < |ds| && ds[n].message == Encode(a)
    ensures ds[n].fault.NoFault? ==>
              ResultOf(ds, n) == if ReachedKey(ds, n, RowKey(a.user, a.idempotencyKey)) then AlreadyStored else Stored
    ensures ds[n].fault.AfterInsert? ==>
              ResultOf(ds, n) ==
              if ReachedKey(ds, n, RowKey(a.user, a.idempotencyKey)) then AlreadyStored else StoredThenFailed
    ensures ds[n].fault.BeforeInsert? ==> ResultOf(ds, n) == Threw
  {
    hide Encode, Parse, ReachedKey, HasKey, After;
    MessageRoundTrip(a);
    TableHasReachedKeys(ds, n, RowKey(a.user, a.idempotencyKey));
  }

  /** The members a message must have. */
  predicate HasMembers(m: Message)
    requires m.Fields?
  {
    forall name :: name in {"user_id", "action_type", "product_id", "idempotency_key"} ==> name in m.fields
  }

  predicate AllText(m: Message)
    requires m.Fields? && HasMembers(m)
  {
    forall name :: name in {"user_id", "action_type", "product_id", "idempotency_key"} ==> m.fields[name].Text?
  }

  /** A message is skipped exactly if it is no JSON, or an object that lacks a member, whatever the fault. */
  lemma SkippedIffUnusable(ds: seq<Delivery>, n: nat)
    requires n < |ds|
    ensures var m := ds[n].message;
      ResultOf(ds, n).Skipped? <==> m.NotJson? || (m.Fields? && !HasMembers(m))
  {
    hide After;
    if ds[n].message.Fields? {
      MembersByName(ds[n].message);
    }
  }

  /** The worker throws exactly on a value of the wrong type, or if it is cut off before the insert. */
  lemma ThrowsIff(ds: seq<Delivery>, n: nat)
    requires n < |ds|
    ensures var m := ds[n].message;
      ResultOf(ds, n).Threw? <==>
        || m.NotObject?
        || (m.Fields? && HasMembers(m) && (!AllText(m) || ds[n].fault.BeforeInsert?))
  {
    hide After;
    if ds[n].message.Fields? {
      MembersByName(ds[n].message);
    }
  }

  lemma MembersByName(m: Message)
    requires m.Fields?
    ensures HasMembers(m) <==>
            "user_id" in m.fields && "action_type" in m.fields && "product_id" in m.fields
            && "idempotency_key" in m.fields
    ensures HasMembers(m) ==>
              (AllText(m) <==>
               m.fields["user_id"].Text? && m.fields["action_type"].Text? && m.fields["product_id"].Text?
               && m.fields["idempotency_key"].Text?)
  {
  }

  // Invalidations.

  function Users(rows: seq<UserAction>): (r: seq<string>)
    ensures |r| == |rows|
  {
    seq(|rows|, i requires 0 <= i < |rows| => rows[i].user)
  }

  /** The rows of each user are those whose invalidation was carried out and those whose was missed. */
  ghost predicate AllCounted(s: Sink)
  {
    multiset(Users(s.rows)) == multiset(s.invalidated) + multiset(s.missed)
  }

  lemma DeliverCounts(s: Sink, d: Delivery)
    requires AllCounted(s)
    ensures AllCounted(Deliver(s, d))
  {
    hide Parse, HasKey;
    if Deliver(s, d).rows != s.rows {
      assert Users(Deliver(s, d).rows) == Users(s.rows) + [ActionOf(d).user];
    }
  }

  /** Every new row is counted once: its invalidation was either carried out or missed. */
  lemma {:induction false} InvalidationsAreConserved(ds: seq<Delivery>, n: nat)
    requires n <= |ds|
    ensures multiset(Users(After(ds, n).rows)) == multiset(After(ds, n).invalidated) + multiset(After(ds, n).missed)
  {
    hide Deliver;
    if n > 0 {
      InvalidationsAreConserved(ds, n - 1);
      DeliverCounts(After(ds, n - 1), ds[n - 1]);
    }
  }

  /** The delivery that brought a new row of the user failed before the invalidation. */
  ghost predicate MissedOne(ds: seq<Delivery>, user: string)
  {
    exists i :: 0 <= i < |ds| && Reaches(ds[i]) && ds[i].fault.AfterInsert? && ActionOf(ds[i]).user == user
                && !ReachedKey(ds, i, KeyOf(ActionOf(ds[i])))
  }

  lemma {:induction false} MissedUsers(ds: seq<Delivery>, n: nat, user: string)
    requires n <= |ds|
    ensures user in After(ds, n).missed <==>
            exists i :: 0 <= i < n && Reaches(ds[i]) && ds[i].fault.AfterInsert? && ActionOf(ds[i]).user == user
                        && !ReachedKey(ds, i, KeyOf(ActionOf(ds[i])))
  {
    hide ReachedKey, HasKey;
    if n > 0 {
      MissedUsers(ds, n - 1, user);
      if Reaches(ds[n - 1]) {
        TableHasReachedKeys(ds, n - 1, KeyOf(ActionOf(ds[n - 1])));
      }
    }
  }

  /**
    A user's invalidations never exceed the user's new rows, and match them exactly if no delivery that
    brought a new row of the user failed between insert and invalidation.
   */
  lemma InvalidationsMatchRowsIffNoneMissed(ds: seq<Delivery>, user: string)
    ensures multiset(Final(ds).invalidated)[user] <= multiset(Users(Final(ds).rows))[user]
    ensures multiset(Final(ds).invalidated)[user] == multiset(Users(Final(ds).rows))[user] <==> !MissedOne(ds, user)
  {
    hide After;
    InvalidationsAreConserved(ds, |ds|);
    MissedUsers(ds, |ds|, user);
    assert user in Final(ds).missed <==> user in multiset(Final(ds).missed);
  }

  /** Redelivery never repairs a missed invalidation: once the key is stored, nothing happens any more. */
  lemma RedeliveryDoesNothing(s: Sink, d: Delivery)
    requires Reaches(d) && HasKey(s.rows, KeyOf(ActionOf(d)))
    ensures Deliver(s, d) == s
  {
  }

  // Confluence.

  /** The deliveries carry exactly these actions as far as the insert, in any order and any number. */
  ghost predicate Covers(ds: seq<Delivery>, actions: set<UserAction>)
  {
    forall a :: a in actions <==> exists i :: 0 <= i < |ds| && Reaches(ds[i]) && ActionOf(ds[i]) == a
  }

  ghost predicate DistinctKeys(actions: set<UserAction>)
  {
    forall a, b :: a in actions && b in actions && KeyOf(a) == KeyOf(b) ==> a == b
  }

  function RowSet(s: Sink): set<UserAction>
  {
    set a | a in s.rows
  }

  /** Every row carries the fields of some delivered action, and every delivered key has a row. */
  lemma RowsComeFromDeliveries(ds: seq<Delivery>, actions: set<UserAction>)
    requires Covers(ds, actions)
    ensures RowSet(Final(ds)) <= actions
    ensures forall a :: a in actions ==> HasKey(Final(ds).rows, KeyOf(a))
  {
    hide After, Reaches, KeyOf, HasKey;
    forall a ensures a in Final(ds).rows ==> a in actions {
      FirstDeliveryWins(ds, |ds|, a);
    }
    forall a | a in actions ensures HasKey(Final(ds).rows, KeyOf(a)) {
      TableHasReachedKeys(ds, |ds|, KeyOf(a));
    }
  }

  /** All covered actions end up as rows exactly if no two of them share user and key. */
  lemma TableIsCompleteIffDistinct(ds: seq<Delivery>, actions: set<UserAction>)
    requires Covers(ds, actions)
    ensures RowSet(Final(ds)) == actions <==> DistinctKeys(actions)
  {
    hide After, Reaches, KeyOf, Covers;
    RowsComeFromDeliveries(ds, actions);
    TableHasUniqueKeys(ds, |ds|);
    var rows := Final(ds).rows;
    if DistinctKeys(actions) {
      forall a | a in actions ensures a in rows {
        var i :| 0 <= i < |rows| && KeyOf(rows[i]) == KeyOf(a);
        assert rows[i] in RowSet(Final(ds));
      }
    } else {
      var a, b :| a in actions && b in actions && KeyOf(a) == KeyOf(b) && a != b;
      if a in rows && b in rows {
        RowOfKeyIsUnique(rows, a, b);
      }
    }
  }

  ghost predicate Confluent(actions: set<UserAction>)
  {
    forall ds, es :: Covers(ds, actions) && Covers(es, actions) ==> RowSet(Final(ds)) == RowSet(Final(es))
  }

  /** Some deliveries of the actions, one after the other. */
  lemma {:induction false} DeliverAll(actions: set<UserAction>) returns (ds: seq<Delivery>)
    ensures Covers(ds, actions)
    decreases |actions|
  {
    ds := [];
    if actions != {} {
      var a :| a in actions;
      var rest := DeliverAll(actions - {a});
      ds := DeliverFirst(a, rest, actions - {a});
      assert actions == (actions - {a}) + {a};
    }
  }

  lemma DeliverFirst(a: UserAction, rest: seq<Delivery>, actions: set<UserAction>) returns (ds: seq<Delivery>)
    requires Covers(rest, actions)
    ensures ds == [Delivery(Encode(a), NoFault)] + rest && Covers(ds, actions + {a})
    ensures a in Final(ds).rows
  {
    hide Encode, Parse;
    MessageRoundTrip(a);
    ds := [Delivery(Encode(a), NoFault)] + rest;
    assert Reaches(ds[0]) && ActionOf(ds[0]) == a;
    forall x ensures x in actions + {a} <==> exists i :: 0 <= i < |ds| && Reaches(ds[i]) && ActionOf(ds[i]) == x {
      if x in actions {
        var i :| 0 <= i < |rest| && Reaches(rest[i]) && ActionOf(rest[i]) == x;
        assert ds[i + 1] == rest[i];
      }
      assert forall i :: 0 < i < |ds| ==> ds[i] == rest[i - 1];
    }
    assert CameFirst(ds, |ds|, a) by {
      assert !ReachedKey(ds, 0, KeyOf(a));
    }
    FirstDeliveryWins(ds, |ds|, a);
  }

  /** Redelivery confluence: every order and repetition leads to the same rows exactly if keys are distinct. */
  lemma ConfluentIffDistinct(actions: set<UserAction>)
    ensures Confluent(actions) <==> DistinctKeys(actions)
  {
    hide Covers, Final, KeyOf;
    if DistinctKeys(actions) {
      forall ds, es | Covers(ds, actions) && Covers(es, actions) ensures RowSet(Final(ds)) == RowSet(Final(es)) {
        TableIsCompleteIffDistinct(ds, actions);
        TableIsCompleteIffDistinct(es, actions);
      }
    } else {
      var a, b :| a in actions && b in actions && KeyOf(a) == KeyOf(b) && a != b;
      OrderDecides(actions, a, b);
    }
  }

  lemma OrderDecides(actions: set<UserAction>, a: UserAction, b: UserAction)
    requires a in actions && b in actions && KeyOf(a) == KeyOf(b) && a != b
    ensures !Confluent(actions)
  {
    hide Covers, After, KeyOf;
    var all := DeliverAll(actions);
    var ds := DeliverFirst(a, all, actions);
    var es := DeliverFirst(b, all, actions);
    assert actions + {a} == actions == actions + {b};
    TableHasUniqueKeys(ds, |ds|);
    var rows := Final(ds).rows;
    if RowSet(Final(ds)) == RowSet(Final(es)) {
      assert b in RowSet(Final(es));
      RowOfKeyIsUnique(rows, a, b);
    }
  }

  // From end to end.

  function AcceptedSet(ts: seq<Attempt>): set<UserAction>
  {
    set a | a in AcceptedActions(ts, |ts|)
  }

  /** Only published messages are delivered; they may be lost, repeated and reordered. */
  ghost predicate FromQueue(ts: seq<Attempt>, ds: seq<Delivery>)
  {
    forall i :: 0 <= i < |ds| ==> Posting("user.action", ds[i].message) in StateAfter(ts, |ts|).published
  }

  /** Every published message was delivered as far as the insert at least once. */
  ghost predicate NoneLost(ts: seq<Attempt>, ds: seq<Delivery>)
  {
    forall p :: p in StateAfter(ts, |ts|).published ==>
      exists i :: 0 <= i < |ds| && ds[i].message == p.message && !ds[i].fault.BeforeInsert?
  }

  lemma DeliveredActionIsAccepted(ts: seq<Attempt>, ds: seq<Delivery>, i: nat)
    requires FromQueue(ts, ds) && i < |ds| && Reaches(ds[i])
    ensures ActionOf(ds[i]) in AcceptedSet(ts)
  {
    hide StateAfter, Encode, Parse;
    var queue, accepted := StateAfter(ts, |ts|).published, AcceptedActions(ts, |ts|);
    QueueHoldsAcceptedActions(ts, |ts|);
    var k :| 0 <= k < |queue| && queue[k].message == ds[i].message;
    MessageRoundTrip(accepted[k]);
  }

  /** Whatever is lost, repeated or reordered: every row is an accepted action, at most one per user and key. */
  lemma RowsAreAcceptedActions(ts: seq<Attempt>, ds: seq<Delivery>)
    requires FromQueue(ts, ds)
    ensures RowSet(Final(ds)) <= AcceptedSet(ts) && UniqueKeys(Final(ds).rows)
  {
    hide After, Reaches, KeyOf, AcceptedSet, FromQueue;
    TableHasUniqueKeys(ds, |ds|);
    forall a | a in Final(ds).rows ensures a in AcceptedSet(ts) {
      FirstDeliveryWins(ds, |ds|, a);
      var i :| 0 <= i < |ds| && Reaches(ds[i]) && ActionOf(ds[i]) == a;
      DeliveredActionIsAccepted(ts, ds, i);
    }
  }

  lemma DeliveredQueueCoversAccepted(ts: seq<Attempt>, ds: seq<Delivery>)
    requires FromQueue(ts, ds) && NoneLost(ts, ds)
    ensures Covers(ds, AcceptedSet(ts))
  {
    hide StateAfter, Encode, Parse;
    var queue, accepted := StateAfter(ts, |ts|).published, AcceptedActions(ts, |ts|);
    QueueHoldsAcceptedActions(ts, |ts|);
    forall i | 0 <= i < |ds| && Reaches(ds[i]) ensures ActionOf(ds[i]) in accepted {
      DeliveredActionIsAccepted(ts, ds, i);
    }
    forall a | a in accepted ensures exists i :: 0 <= i < |ds| && Reaches(ds[i]) && ActionOf(ds[i]) == a {
      var k :| 0 <= k < |accepted| && accepted[k] == a;
      assert queue[k] in queue;
      var i :| 0 <= i < |ds| && ds[i].message == queue[k].message && !ds[i].fault.BeforeInsert?;
      MessageRoundTrip(a);
      assert Reaches(ds[i]) && ActionOf(ds[i]) == a;
    }
  }

  /** Attempts whose readings all lie within one hold of 48 h. */
  ghost predicate WithinOneHold(ts: seq<Attempt>)
  {
    forall i, j :: 0 <= i < |ts| && 0 <= j < |ts| ==> ts[j].now - ts[i].now < 172_800_000
  }

  lemma AcceptedWithinOneHoldAreDistinct(ts: seq<Attempt>)
    requires WithinOneHold(ts)
    ensures DistinctKeys(AcceptedSet(ts))
  {
    hide StateAfter, OutcomeOf, Complaint;
    forall a, b | a in AcceptedSet(ts) && b in AcceptedSet(ts) && KeyOf(a) == KeyOf(b) ensures a == b {
      AcceptedActionsComeFromAttempts(ts, |ts|, a);
      AcceptedActionsComeFromAttempts(ts, |ts|, b);
      var i :| 0 <= i < |ts| && OutcomeOf(ts, i).Accepted? && ts[i].action == a;
      var j :| 0 <= j < |ts| && OutcomeOf(ts, j).Accepted? && ts[j].action == b;
      if i < j {
        ReservationsAreSpaced(ts, i, j);
      } else if j < i {
        ReservationsAreSpaced(ts, j, i);
      }
    }
  }

  /**
    Pipeline conservation.  However deliveries repeat and reorder, the table ends up with exactly the
    accepted actions if and only if no two of them share user and key; within one hold they never do.
   */
  lemma TableHoldsAcceptedActions(ts: seq<Attempt>, ds: seq<Delivery>)
    requires FromQueue(ts, ds) && NoneLost(ts, ds)
    ensures forall a :: a in AcceptedSet(ts) ==> HasKey(Final(ds).rows, KeyOf(a))
    ensures RowSet(Final(ds)) == AcceptedSet(ts) <==> DistinctKeys(AcceptedSet(ts))
    ensures WithinOneHold(ts) ==> RowSet(Final(ds)) == AcceptedSet(ts)
  {
    hide AcceptedSet, Final, HasKey, DistinctKeys, Covers, WithinOneHold, FromQueue, NoneLost;
    DeliveredQueueCoversAccepted(ts, ds);
    RowsComeFromDeliveries(ds, AcceptedSet(ts));
    TableIsCompleteIffDistinct(ds, AcceptedSet(ts));
    if WithinOneHold(ts) {
      AcceptedWithinOneHoldAreDistinct(ts);
    }
  }
}
