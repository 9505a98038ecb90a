/**
  POST /action: validate, reserve the idempotency key, publish.  The key is reserved before the message
  is published, and the clock is read before the lock is taken, so readings may come in any order.
 */
module ActionService {
  import opened Wrappers
  import opened TtlPolicy
  import opened CachePorts
  import InMemory = InMemoryRhythmData

  /** A queue message as the consumer may find it: field values that are not text carry no content here. */
  datatype Field = Text(text: string) | OtherValue
  datatype Message = NotJson | NotObject | Fields(fields: map<string, Field>)

  /** A message as it is published, with the key by which the broker routes it. */
  datatype Posting = Posting(routingKey: string, message: Message)

  datatype Outcome = Rejected(reason: string) | Duplicate | PublishFailed | Accepted

  const ROUTING_KEY := "user.action"

  predicate IsAllowedActionType(t: string)
  {
    t == "view" || t == "purchase" || t == "cart_add" || t == "like" || t == "save"
  }

  function EmptyField(name: string): Option<string>
  {
    Some("validation: empty field '" + name + "'")
  }

  /** The first complaint, in the order of the checks. */
  function Complaint(a: UserAction): Option<string>
  {
    if a.user == "" then EmptyField("user_id")
    else if a.actionType == "" then EmptyField("action_type")
    else if a.productId == "" then EmptyField("product_id")
    else if a.idempotencyKey == "" then EmptyField("idempotency_key")
    else if !IsAllowedActionType(a.actionType) then Some("validation: unknown action_type")
    else None
  }

  function Encode(a: UserAction): Message
  {
    Fields(map["user_id" := Text(a.user), "action_type" := Text(a.actionType), "product_id" := Text(a.productId),
               "idempotency_key" := Text(a.idempotencyKey)])
  }

  /** One call: the payload, the clock reading of the reservation, and whether the broker refuses the message. */
  datatype Attempt = Attempt(action: UserAction, now: int, broken: bool)

  datatype Intake<S> = Intake(store: S, published: seq<Posting>)

  function Handle<S>(step: Step<S>, s: Intake<S>, t: Attempt): (Intake<S>, Outcome)
  {
    var complaint := Complaint(t.action);
    if complaint.Some? then (s, Rejected(complaint.value))
    else
      var (store, reply) := step(s.store, t.now, TryReserve(t.action.idempotencyKey, IDEMPOTENCY_HOLD));
      if reply != Reserved(true) then (s.(store := store), Duplicate)
      else if t.broken then (s.(store := store), PublishFailed)
      else (Intake(store, s.published + [Posting(ROUTING_KEY, Encode(t.action))]), Accepted)
  }

  class EventQueue {
    var published: seq<Posting>

    constructor ()
      ensures published == []
    {
      published := [];
    }

    method PublishJson(routingKey: string, message: Message, broken: bool) returns (ok: bool)
      modifies this
      ensures ok == !broken
      ensures published == if broken then old(published) else old(published) + [Posting(routingKey, message)]
    {
      if broken {
        return false;
      }
      published := published + [Posting(routingKey, message)];
      return true;
    }
  }

  class Service {
    const queue: EventQueue
    const idempotency: InMemory.RhythmData

    constructor (queue: EventQueue, idempotency: InMemory.RhythmData)
      ensures this.queue == queue && this.idempotency == idempotency
    {
      this.queue := queue;
      this.idempotency := idempotency;
    }

    ghost function State(): Intake<InMemory.Mem>
      reads this, queue, idempotency
    {
      Intake(idempotency.Value(), queue.published)
    }

    method HandleAction(t: Attempt) returns (outcome: Outcome)
      modifies queue, idempotency
      ensures (State(), outcome) == Handle(InMemory.MemStep, old(State()), t)
    {
      var complaint := Complaint(t.action);
      if complaint.Some? {
        return Rejected(complaint.value);
      }
      var reserved := idempotency.TryReserve(t.action.idempotencyKey, IDEMPOTENCY_HOLD, t.now);
      if !reserved {
        return Duplicate;
      }
      var ok := queue.PublishJson(ROUTING_KEY, Encode(t.action), t.broken);
      if !ok {
        return PublishFailed;
      }
      return Accepted;
    }
  }

  // Runs of attempts on the in-process reservations, with readings in any order.

  const EMPTY_INTAKE := Intake(InMemory.EMPTY_MEM, [])

  function StateAfter(ts: seq<Attempt>, n: nat): Intake<InMemory.Mem>
    requires n <= |ts|
  {
    if n == 0 then EMPTY_INTAKE else Handle(InMemory.MemStep, StateAfter(ts, n - 1), ts[n - 1]).0
  }

  function OutcomeOf(ts: seq<Attempt>, n: nat): Outcome
    requires n < |ts|
  {
    Handle(InMemory.MemStep, StateAfter(ts, n), ts[n]).1
  }

  /** The attempt took the reservation, whether or not its message went out. */
  predicate Reserves(ts: seq<Attempt>, i: nat)
  {
    i < |ts| && (OutcomeOf(ts, i).Accepted? || OutcomeOf(ts, i).PublishFailed?)
  }

  function HeldUntil(t: Attempt): int
  {
    t.now + IDEMPOTENCY_HOLD * MS
  }

  /** A token is held until the latest of the ends that its reservations asked for. */
  ghost predicate TokenIsHeld(ts: seq<Attempt>, n: nat, token: string)
    requires n <= |ts|
  {
    var held := StateAfter(ts, n).store.idempotency;
    && (token in held ==>
          exists i :: 0 <= i < n && Reserves(ts, i) && ts[i].action.idempotencyKey == token
                      && held[token] == HeldUntil(ts[i]))
    && (forall i :: 0 <= i < n && Reserves(ts, i) && ts[i].action.idempotencyKey == token ==>
          token in held && HeldUntil(ts[i]) <= held[token])
  }

  /** What one attempt does to the reservations. */
  lemma HandleEffect(ts: seq<Attempt>, n: nat)
    requires n < |ts|
    ensures var held, token := StateAfter(ts, n).store.idempotency, ts[n].action.idempotencyKey;
      && StateAfter(ts, n + 1).store.idempotency == (if Reserves(ts, n) then held[token := HeldUntil(ts[n])] else held)
      && (Reserves(ts, n) <==> Complaint(ts[n].action).None? && (token in held ==> held[token] <= ts[n].now))
  {
  }

  lemma {:induction false} TokensAreHeld(ts: seq<Attempt>, n: nat, token: string)
    requires n <= |ts|
    ensures TokenIsHeld(ts, n, token)
  {
    hide Handle, Reserves, Complaint;
    if n > 0 {
      TokensAreHeld(ts, n - 1, token);
      HandleEffect(ts, n - 1);
    }
  }

  /** An earlier attempt with the same token holds it at the reading of attempt `j`. */
  ghost predicate IsBlocked(ts: seq<Attempt>, j: nat)
    requires j < |ts|
  {
    exists i :: 0 <= i < j && Reserves(ts, i) && ts[i].action.idempotencyKey == ts[j].action.idempotencyKey
                && ts[j].now < ts[i].now + 172_800_000
  }

  /** All four fields are given, and the type is one of the five. */
  predicate IsProper(a: UserAction)
  {
    && a.user != "" && a.actionType != "" && a.productId != "" && a.idempotencyKey != ""
    && a.actionType in {"view", "purchase", "cart_add", "like", "save"}
  }

  /** The reason names the first field that is empty, or else the type. */
  lemma RejectionNamesFirstFault(ts: seq<Attempt>, j: nat)
    requires j < |ts|
    ensures OutcomeOf(ts, j).Rejected? <==> !IsProper(ts[j].action)
    ensures var a := ts[j].action;
      && (a.user == "" ==> OutcomeOf(ts, j) == Rejected("validation: empty field 'user_id'"))
      && (a.user != "" && a.actionType == "" ==>
            OutcomeOf(ts, j) == Rejected("validation: empty field 'action_type'"))
      && (a.user != "" && a.actionType != "" && a.productId == "" ==>
            OutcomeOf(ts, j) == Rejected("validation: empty field 'product_id'"))
      && (a.user != "" && a.actionType != "" && a.productId != "" && a.idempotencyKey == "" ==>
            OutcomeOf(ts, j) == Rejected("validation: empty field 'idempotency_key'"))
      && (a.user != "" && a.actionType != "" && a.productId != "" && a.idempotencyKey != "" && !IsProper(a) ==>
            OutcomeOf(ts, j) == Rejected("validation: unknown action_type"))
  {
    hide StateAfter;
  }

  /**
    The outcome of every attempt of every run, for any order of clock readings: rejected if a field or the
    type is at fault, a duplicate exactly if an earlier reservation of the token reaches beyond the reading,
    and otherwise reserved, and accepted exactly if the broker takes the message.
   */
  lemma OutcomeIsDecidedByReservations(ts: seq<Attempt>, j: nat)
    requires j < |ts|
    ensures OutcomeOf(ts, j).Rejected? <==> !IsProper(ts[j].action)
    ensures IsProper(ts[j].action) ==>
              OutcomeOf(ts, j) ==
              if IsBlocked(ts, j) then Duplicate
              else if ts[j].broken then PublishFailed
              else Accepted
  {
    hide StateAfter, Reserves;
    TokensAreHeld(ts, j, ts[j].action.idempotencyKey);
  }

  /** Reservation spacing: two reservations of one token have readings at least 48 h apart, in run order. */
  lemma ReservationsAreSpaced(ts: seq<Attempt>, i: nat, j: nat)
    requires i < j && Reserves(ts, i) && Reserves(ts, j)
    requires ts[i].action.idempotencyKey == ts[j].action.idempotencyKey
    ensures ts[j].now - ts[i].now >= 172_800_000
  {
    hide OutcomeOf;
    OutcomeIsDecidedByReservations(ts, j);
  }

  /**
    A reserved token makes every later attempt within the hold a duplicate: also one by another user, and
    also if the broker refused the message, so that nothing was ever published under the token.
   */
  lemma HeldTokenBlocksEveryUser(ts: seq<Attempt>, i: nat, j: nat)
    requires i < j < |ts| && Reserves(ts, i) && IsProper(ts[j].action)
    requires ts[j].action.idempotencyKey == ts[i].action.idempotencyKey && ts[j].now < ts[i].now + 172_800_000
    ensures OutcomeOf(ts, j).Duplicate?
  {
    hide OutcomeOf;
    OutcomeIsDecidedByReservations(ts, j);
  }

  // What is published.

  /** The actions of the accepted attempts among the first `n`, in order. */
  function AcceptedActions(ts: seq<Attempt>, n: nat): seq<UserAction>
    requires n <= |ts|
  {
    if n == 0 then []
    else AcceptedActions(ts, n - 1) + if OutcomeOf(ts, n - 1).Accepted? then [ts[n - 1].action] else []
  }

  /** What the queue holds for a list of actions. */
  function PostAll(actions: seq<UserAction>): (r: seq<Posting>)
    ensures |r| == |actions| && forall k :: 0 <= k < |r| ==> r[k] == Posting("user.action", Encode(actions[k]))
  {
    seq(|actions|, k requires 0 <= k < |actions| => Posting("user.action", Encode(actions[k])))
  }

  /** A message carries the four fields under their names, and nothing else. */
  lemma MessageCarriesFields(a: UserAction)
    ensures Encode(a).Fields?
    ensures Encode(a).fields.Keys == {"user_id", "action_type", "product_id", "idempotency_key"}
    ensures Encode(a).fields["user_id"] == Text(a.user) && Encode(a).fields["action_type"] == Text(a.actionType)
    ensures Encode(a).fields["product_id"] == Text(a.productId)
    ensures Encode(a).fields["idempotency_key"] == Text(a.idempotencyKey)
  {
  }

  /** The queue holds the accepted actions, each once and in order, and nothing else. */
  lemma {:induction false} QueueHoldsAcceptedActions(ts: seq<Attempt>, n: nat)
    requires n <= |ts|
    ensures StateAfter(ts, n).published == PostAll(AcceptedActions(ts, n))
  {
    if n > 0 {
      QueueHoldsAcceptedActions(ts, n - 1);
    }
  }

  lemma AcceptedIsValid(ts: seq<Attempt>, n: nat)
    requires n < |ts|
    ensures OutcomeOf(ts, n).Accepted? ==> IsProper(ts[n].action)
  {
  }

  /** Every accepted action is the valid payload of an accepted attempt. */
  lemma {:induction false} AcceptedActionsComeFromAttempts(ts: seq<Attempt>, n: nat, a: UserAction)
    requires n <= |ts|
    ensures a in AcceptedActions(ts, n) <==>
            exists i :: 0 <= i < n && OutcomeOf(ts, i).Accepted? && ts[i].action == a
    ensures a in AcceptedActions(ts, n) ==> IsProper(a)
  {
    hide StateAfter, Complaint, OutcomeOf;
    if n > 0 {
      AcceptedActionsComeFromAttempts(ts, n - 1, a);
      AcceptedIsValid(ts, n - 1);
    }
  }
}
