/** What a claim is worth over a run: which task a Receive must hand out, how long its holder is alone
    with it, and what the retry counter of a claimed task means. */
module Claims {
  import opened Basics
  import opened TaskMachine
  import opened Runs

  // ------------------------------------------------------------------ what Receive hands out

  /** Unless it stops at a corrupt record, Receive reports an empty queue exactly when nothing is ready,
      no lease has run out and no delayed retry is due. */
  lemma EmptyIffNothingClaimable(o: Options, s: State, e: Event)
    requires Inv(s) && Enabled(o, s, e) && e.Receive? && !e.outcome.Aborted?
    ensures ReplyTo(o, s, e).QueueEmpty? <==> s.ready == [] && NoneExpired(s, e.now) && NoneDue(s, e.now)
    ensures ReplyTo(o, s, e).QueueEmpty? <==> forall id :: id in s.tasks ==>
              match s.tasks[id].phase
              case Ready => false
              case Inflight(_, leaseUntil) => e.now < leaseUntil
              case Delayed(due) => e.now < due
              case Failed(_) => true
    ensures !ReplyTo(o, s, e).QueueEmpty? ==> ReplyTo(o, s, e).Delivered?
  {
    var p := Promote(s, e.promoted);
    forall id ensures Expired(s, e.now, id) <==> Expired(p, e.now, id) {
      if id in e.promoted {
        assert Due(s, e.now, id);
      }
    }
    if e.promoted != [] {
      assert Due(s, e.now, e.promoted[0]);
      assert p.ready != [];
    }
  }

  /** An expired lease goes first, the one that ran out earliest; otherwise the oldest ready task. */
  lemma ClaimOrder(o: Options, s: State, e: Event)
    requires Inv(s) && Enabled(o, s, e) && ReplyTo(o, s, e).Delivered?
    ensures var d := ReplyTo(o, s, e).delivery;
            d.recovered <==> !NoneExpired(s, e.now)
    ensures var d := ReplyTo(o, s, e).delivery;
            d.recovered ==> EarliestExpired(s, e.now, d.id)
    ensures var d := ReplyTo(o, s, e).delivery;
            !d.recovered ==> d.id == (s.ready + e.promoted)[0]
    ensures var d := ReplyTo(o, s, e).delivery;
            && (d.recovered
               <==> exists j :: j in s.tasks && s.tasks[j].phase.Inflight? && s.tasks[j].phase.leaseUntil <= e.now)
            && (d.recovered ==>
                  && d.id in s.tasks && s.tasks[d.id].phase.Inflight? && s.tasks[d.id].phase.leaseUntil <= e.now
                  && forall j :: j in s.tasks && s.tasks[j].phase.Inflight? ==>
                       s.tasks[d.id].phase.leaseUntil <= s.tasks[j].phase.leaseUntil)
  {
    var p := Promote(s, e.promoted);
    forall id ensures Expired(s, e.now, id) <==> Expired(p, e.now, id) {
      if id in e.promoted {
        assert Due(s, e.now, id);
      }
    }
    forall j | j in s.tasks && s.tasks[j].phase.Inflight? ensures p.tasks[j] == s.tasks[j] {
      assert !Due(s, e.now, j);
    }
  }

  /** A delivery names the stored task and is its sole current claim. */
  lemma DeliveryIsCurrent(o: Options, s: State, e: Event)
    requires Inv(s) && Enabled(o, s, e) && ReplyTo(o, s, e).Delivered?
    ensures var d := ReplyTo(o, s, e).delivery; var t := Next(o, s, e);
            && d.id in s.tasks && d.data == s.tasks[d.id].data
            && d.retries == s.tasks[d.id].retries && d.attempt == s.tasks[d.id].deliveries + 1
            && d.token == e.token && Current(t, d.id, d.token)
            && (forall other: Token :: Current(t, d.id, other) ==> other == d.token)
            && t.tasks[d.id].phase.leaseUntil == e.now + o.lease
  {
  }

  // ------------------------------------------------------------------ no task is passed over

  predicate Claimable(s: State, now: int, id: Id) {
    id in s.tasks && (s.tasks[id].phase.Ready? || Expired(s, now, id) || Due(s, now, id))
  }

  ghost predicate Delivers(o: Options, s: State, e: Event, id: Id)
    requires Enabled(o, s, e)
  {
    ReplyTo(o, s, e).Delivered? && ReplyTo(o, s, e).delivery.id == id
  }

  // e settles or renews the current claim on id.
  predicate HolderActs(s: State, e: Event, id: Id) {
    (e.Ack? || e.Renew? || e.Retry? || e.Fail?) && e.id == id && Current(s, id, e.token)
  }

  lemma ClaimableStays(o: Options, s: State, e: Event, id: Id, later: int)
    requires Inv(s) && Enabled(o, s, e) && Claimable(s, e.now, id) && e.now <= later
    requires !Delivers(o, s, e, id) && !HolderActs(s, e, id)
    ensures Claimable(Next(o, s, e), later, id)
  {
    if e.Receive? {
      ReceiveEffect(o, s, e, id);
      hide Next, ReplyTo;
    }
  }

  ghost predicate DeliveredAt(o: Options, r: Run, k: int, id: Id)
    requires 0 <= k < |r.events| < |r.states|
  {
    StepAt(o, r, k) && Delivers(o, r.states[k], r.events[k], id)
  }

  lemma {:induction false} ClaimableAlong(o: Options, r: Run, i: nat, j: nat, id: Id)
    requires Lawful(o, r) && i <= j < |r.events| && Claimable(r.states[i], r.events[i].now, id)
    requires forall k :: i <= k < j ==> !DeliveredAt(o, r, k, id) && !HolderActs(r.states[k], r.events[k], id)
    ensures Claimable(r.states[j], r.events[j].now, id)
  {
    hide Claimable, HolderActs, Next, ReplyTo, Enabled, Inv, Delivers;
    if i < j {
      ClaimableAlong(o, r, i, j - 1, id);
      InvAlong(o, r, j - 1);
      assert StepAt(o, r, j - 1) && !DeliveredAt(o, r, j - 1, id);
      ClaimableStays(o, r.states[j - 1], r.events[j - 1], id, r.events[j].now);
    }
  }

  /** No task is passed over: if a task could be claimed at step i and a Receive at step j reports the queue
      empty, some Receive in between delivered it, unless its former holder settled or renewed it. */
  lemma NeverPassedOver(o: Options, r: Run, i: nat, j: nat, id: Id)
    requires Lawful(o, r) && i <= j < |r.events| && Claimable(r.states[i], r.events[i].now, id)
    requires StepAt(o, r, j) && r.events[j].Receive? && ReplyTo(o, r.states[j], r.events[j]).QueueEmpty?
    requires forall k :: i <= k < j ==> !HolderActs(r.states[k], r.events[k], id)
    ensures exists k :: i <= k < j && DeliveredAt(o, r, k, id)
  {
    if forall k :: i <= k < j ==> !DeliveredAt(o, r, k, id) {
      ClaimableAlong(o, r, i, j, id);
      InvAlong(o, r, j);
      EmptyIffNothingClaimable(o, r.states[j], r.events[j]);
      NothingClaimable(r.states[j], r.events[j].now, id);
    }
  }

  lemma NothingClaimable(s: State, now: int, id: Id)
    requires Inv(s) && s.ready == [] && NoneExpired(s, now) && NoneDue(s, now)
    ensures !Claimable(s, now, id)
  {
  }

  // ------------------------------------------------------------------ the order of service

  // a is in the queue, and b is not before it.
  ghost predicate InFront(queue: seq<Id>, a: Id, b: Id) {
    && a in queue
    && forall p, q :: 0 <= p < |queue| && 0 <= q < |queue| && queue[p] == b && queue[q] == a ==> q < p
  }

  lemma InFrontGrows(queue: seq<Id>, tail: seq<Id>, a: Id, b: Id)
    requires InFront(queue, a, b) && a !in tail
    ensures InFront(queue + tail, a, b)
  {
  }

  lemma InFrontPops(queue: seq<Id>, a: Id, b: Id)
    requires InFront(queue, a, b) && queue[0] != a && a != b
    ensures InFront(queue[1..], a, b) && queue[0] != b
  {
    var q :| 0 <= q < |queue| && queue[q] == a;
    assert queue[1..][q - 1] == a;
  }

  ghost predicate Hands(o: Options, s: State, e: Event, id: Id)
    requires Enabled(o, s, e)
  {
    Delivers(o, s, e, id) && !ReplyTo(o, s, e).delivery.recovered
  }

  // What a step does to the queue of ready ids: some go to the end, and the first of them all may be handed out.
  lemma QueueMoves(o: Options, s: State, e: Event) returns (tail: seq<Id>)
    requires Inv(s) && Enabled(o, s, e) && s.ready != []
    ensures forall id :: id in tail ==> id !in s.ready
    ensures if e.Receive? && ReplyTo(o, s, e).Delivered? && !ReplyTo(o, s, e).delivery.recovered
            then Next(o, s, e).ready == (s.ready + tail)[1..] && ReplyTo(o, s, e).delivery.id == s.ready[0]
            else Next(o, s, e).ready == s.ready + tail && forall id :: !Hands(o, s, e, id)
  {
    hide TokensIssued, TokensDistinct;
    match e
    case Receive(_, _, promoted, _) => tail := promoted;
    case Enqueue(_, id, _, _) => tail := if Next(o, s, e) == s then [] else [id];
    case Replay(_, id) => tail := if Next(o, s, e) == s then [] else [id];
    case _ => tail := [];
  }

  lemma InFrontStays(o: Options, s: State, e: Event, a: Id, b: Id)
    requires Inv(s) && Enabled(o, s, e) && a != b && InFront(s.ready, a, b) && !Delivers(o, s, e, a)
    ensures InFront(Next(o, s, e).ready, a, b) && !Hands(o, s, e, b)
  {
    hide Inv, Enabled, Next, ReplyTo;
    var tail := QueueMoves(o, s, e);
    InFrontGrows(s.ready, tail, a, b);
    if e.Receive? && ReplyTo(o, s, e).Delivered? && !ReplyTo(o, s, e).delivery.recovered {
      InFrontPops(s.ready + tail, a, b);
    }
  }

  lemma {:induction false} InFrontAlong(o: Options, r: Run, i: nat, j: nat, a: Id, b: Id)
    requires Lawful(o, r) && i <= j < |r.events| && a != b && InFront(r.states[i].ready, a, b)
    requires forall k :: i <= k < j ==> !DeliveredAt(o, r, k, a)
    ensures InFront(r.states[j].ready, a, b)
  {
    hide InFront, Next, ReplyTo, Enabled, Inv, Delivers, Hands;
    if i < j {
      InFrontAlong(o, r, i, j - 1, a, b);
      InvAlong(o, r, j - 1);
      assert StepAt(o, r, j - 1) && !DeliveredAt(o, r, j - 1, a);
      InFrontStays(o, r.states[j - 1], r.events[j - 1], a, b);
    }
  }

  /** First come, first served: a task that waits is handed out before any that becomes ready after it, be that one
      new, promoted or replayed. Only takeovers go before. */
  lemma FirstComeFirstServed(o: Options, r: Run, i: nat, j: nat, a: Id, b: Id)
    requires Lawful(o, r) && i <= j < |r.events| && a != b && InFront(r.states[i].ready, a, b)
    requires StepAt(o, r, j) && Hands(o, r.states[j], r.events[j], b)
    ensures exists k :: i <= k < j && DeliveredAt(o, r, k, a)
  {
    hide InFront, Next, ReplyTo, Enabled, Inv;
    if forall k :: i <= k < j ==> !DeliveredAt(o, r, k, a) {
      InFrontAlong(o, r, i, j, a, b);
      InvAlong(o, r, j);
      InFrontStays(o, r.states[j], r.events[j], a, b);
    }
  }

  // ------------------------------------------------------------------ lease exclusion

  ghost predicate HeldUntil(s: State, id: Id, token: Token, until: int) {
    Current(s, id, token) && s.tasks[id].phase.leaseUntil >= until
  }

  // The step granted this token a lease on id: a claim or a renewal that succeeded.
  ghost predicate Grants(o: Options, s: State, e: Event, id: Id, token: Token)
    requires Enabled(o, s, e)
  {
    var reply := ReplyTo(o, s, e);
    (reply.Delivered? && reply.delivery.id == id && reply.delivery.token == token)
    || (e.Renew? && e.id == id && e.token == token && reply == Done)
  }

  lemma GrantHolds(o: Options, s: State, e: Event, id: Id, token: Token)
    requires Enabled(o, s, e) && Grants(o, s, e, id, token)
    ensures HeldUntil(Next(o, s, e), id, token, e.now + o.lease)
  {
  }

  lemma HeldStays(o: Options, s: State, e: Event, id: Id, token: Token, until: int)
    requires Inv(s) && Enabled(o, s, e) && HeldUntil(s, id, token, until)
    requires e.now < until <= e.now + o.lease
    requires Presents(e, id, token) ==> e.Renew?
    ensures HeldUntil(Next(o, s, e), id, token, until)
    ensures ReplyTo(o, s, e).Delivered? ==> ReplyTo(o, s, e).delivery.id != id
  {
    if e.Receive? {
      ReceiveEffect(o, s, e, id);
      hide Next, ReplyTo;
    }
  }

  lemma {:induction false} HeldAlong(o: Options, r: Run, i: nat, j: nat, id: Id, token: Token, sentAt: int)
    requires Lawful(o, r) && i < j < |r.states|
    requires StepAt(o, r, i) && Grants(o, r.states[i], r.events[i], id, token) && sentAt <= r.events[i].now
    requires forall k :: i < k < j && Presents(r.events[k], id, token) ==> r.events[k].Renew?
    requires j > i + 1 ==> r.events[j - 1].now < sentAt + o.lease
    ensures HeldUntil(r.states[j], id, token, sentAt + o.lease)
  {
    GrantHolds(o, r.states[i], r.events[i], id, token);
    if i + 1 < j {
      assert r.events[j - 2].now <= r.events[j - 1].now;
      assert r.events[i].now <= r.events[j - 1].now;
      HeldAlong(o, r, i, j - 1, id, token, sentAt);
      InvAlong(o, r, j - 1);
      assert StepAt(o, r, j - 1);
      HeldStays(o, r.states[j - 1], r.events[j - 1], id, token, sentAt + o.lease);
    }
  }

  /** Lease exclusion. The Manager notes the instant sentAt before it sends a claim or a renewal; the
      engine grants the lease at i, not earlier. Until sentAt + LeaseDuration, and while the holder has
      not settled, the engine still regards the token as current with its lease in the future, and no
      Receive of any worker returns the task. */
  lemma LeaseExclusion(o: Options, r: Run, i: nat, j: nat, id: Id, token: Token, sentAt: int)
    requires Lawful(o, r) && i < j < |r.events|
    requires StepAt(o, r, i) && Grants(o, r.states[i], r.events[i], id, token) && sentAt <= r.events[i].now
    requires forall k :: i < k <= j && Presents(r.events[k], id, token) ==> r.events[k].Renew?
    requires r.events[j].now < sentAt + o.lease
    ensures Current(r.states[j], id, token) && r.states[j].tasks[id].phase.leaseUntil > r.events[j].now
    ensures StepAt(o, r, j)
    ensures ReplyTo(o, r.states[j], r.events[j]).Delivered? ==> ReplyTo(o, r.states[j], r.events[j]).delivery.id != id
    ensures r.events[j].Renew? && r.events[j].id == id && r.events[j].token == token
            ==> ReplyTo(o, r.states[j], r.events[j]) == Done
  {
    assert r.events[j - 1].now <= r.events[j].now;
    assert r.events[i].now <= r.events[j].now;
    HeldAlong(o, r, i, j, id, token, sentAt);
    InvAlong(o, r, j);
    assert StepAt(o, r, j);
    HeldStays(o, r.states[j], r.events[j], id, token, sentAt + o.lease);
  }

  // ------------------------------------------------------------------ retry budget

  ghost predicate DeliversAt(o: Options, r: Run, i: int, d: Delivery)
    requires 0 <= i < |r.events| < |r.states|
  {
    StepAt(o, r, i) && ReplyTo(o, r.states[i], r.events[i]) == Delivered(d)
  }

  ghost predicate Describes(d: Delivery, s: State) {
    d.id in s.tasks && d.data == s.tasks[d.id].data
    && d.retries == s.tasks[d.id].retries && d.attempt == s.tasks[d.id].deliveries
  }

  lemma CurrentStep(o: Options, s: State, e: Event, id: Id, token: Token)
    requires Inv(s) && Enabled(o, s, e) && token in s.issued && Current(Next(o, s, e), id, token)
    ensures Current(s, id, token)
    ensures Next(o, s, e).tasks[id].retries == s.tasks[id].retries
    ensures Next(o, s, e).tasks[id].deliveries == s.tasks[id].deliveries
    ensures Next(o, s, e).tasks[id].data == s.tasks[id].data
  {
    if e.Receive? && id in s.tasks {
      ReceiveEffect(o, s, e, id);
      hide Next, ReplyTo;
    }
  }

  lemma IssuedGrows(o: Options, s: State, e: Event, token: Token)
    requires Enabled(o, s, e) && token in s.issued
    ensures token in Next(o, s, e).issued
  {
  }

  /** While its token is current, a delivery still describes the stored task: same content, same number
      of retries and attempts, so a decision taken from the delivery is a decision about the record. */
  lemma {:induction false} DeliveryStaysAccurate(o: Options, r: Run, i: nat, j: nat, d: Delivery)
    requires Lawful(o, r) && i < j < |r.states| && DeliversAt(o, r, i, d)
    ensures d.token in r.states[j].issued
    ensures Current(r.states[j], d.id, d.token) ==> Describes(d, r.states[j])
  {
    InvAlong(o, r, j - 1);
    assert StepAt(o, r, j - 1);
    if i + 1 == j {
      DeliveryIsCurrent(o, r.states[i], r.events[i]);
    } else {
      DeliveryStaysAccurate(o, r, i, j - 1, d);
      IssuedGrows(o, r.states[j - 1], r.events[j - 1], d.token);
      if Current(r.states[j], d.id, d.token) {
        CurrentStep(o, r.states[j - 1], r.events[j - 1], d.id, d.token);
      }
    }
  }

  // Every retry of the run was decided from a delivery that still had budget.
  ghost predicate Disciplined(o: Options, r: Run, maxRetries: nat)
    requires |r.states| == |r.events| + 1
  {
    forall j :: 0 <= j < |r.events| && r.events[j].Retry? ==> RetryHasBudget(o, r, j, maxRetries)
  }

  ghost predicate RetryHasBudget(o: Options, r: Run, j: int, maxRetries: nat)
    requires 0 <= j < |r.events| < |r.states| && r.events[j].Retry?
  {
    exists i, d :: 0 <= i < j && DeliversAt(o, r, i, d)
                   && d.id == r.events[j].id && d.token == r.events[j].token && d.retries < maxRetries
  }

  ghost predicate WithinBudget(s: State, maxRetries: nat) {
    forall id :: id in s.tasks ==> s.tasks[id].retries <= maxRetries
  }

  lemma RetryDecision(o: Options, r: Run, k: nat, maxRetries: nat)
    requires Lawful(o, r) && k < |r.events| && r.events[k].Retry? && RetryHasBudget(o, r, k, maxRetries)
    requires Current(r.states[k], r.events[k].id, r.events[k].token)
    ensures r.states[k].tasks[r.events[k].id].retries < maxRetries
  {
    var i, d :| 0 <= i < k && DeliversAt(o, r, i, d)
                && d.id == r.events[k].id && d.token == r.events[k].token && d.retries < maxRetries;
    DeliveryStaysAccurate(o, r, i, k, d);
  }

  /** No task is ever retried more often than MaxRetries, nor more often than it was delivered. */
  lemma {:induction false} RetryBudget(o: Options, r: Run, j: nat, maxRetries: nat)
    requires Lawful(o, r) && j < |r.states| && Disciplined(o, r, maxRetries)
    requires WithinBudget(r.states[0], maxRetries)
    ensures WithinBudget(r.states[j], maxRetries)
    ensures forall id :: id in r.states[j].tasks ==> r.states[j].tasks[id].retries <= r.states[j].tasks[id].deliveries
  {
    InvAlong(o, r, j);
    assert forall id :: id in r.states[j].tasks ==> Budgeted(r.states[j].tasks[id]);
    if j > 0 {
      var k := j - 1;
      RetryBudget(o, r, k, maxRetries);
      InvAlong(o, r, k);
      assert StepAt(o, r, k);
      if r.events[k].Retry? && Current(r.states[k], r.events[k].id, r.events[k].token) {
        RetryDecision(o, r, k, maxRetries);
      }
      BudgetStep(o, r.states[k], r.events[k], maxRetries);
    }
  }

  lemma BudgetStep(o: Options, s: State, e: Event, maxRetries: nat)
    requires Inv(s) && Enabled(o, s, e) && WithinBudget(s, maxRetries)
    requires e.Retry? && Current(s, e.id, e.token) ==> s.tasks[e.id].retries < maxRetries
    ensures WithinBudget(Next(o, s, e), maxRetries)
  {
    hide Next, Enabled, Inv;
    forall id | id in Next(o, s, e).tasks ensures Next(o, s, e).tasks[id].retries <= maxRetries {
      if id in s.tasks {
        RetriesStep(o, s, e, id);
      } else {
        NewlyAccepted(o, s, e, id);
      }
    }
  }

  /** A delivery without budget left, still current, belongs to a task retried exactly MaxRetries times. */
  lemma ExhaustedMeansMaxRetries(o: Options, r: Run, i: nat, j: nat, d: Delivery, maxRetries: nat)
    requires Lawful(o, r) && i < j < |r.states| && Disciplined(o, r, maxRetries)
    requires WithinBudget(r.states[0], maxRetries)
    requires DeliversAt(o, r, i, d) && d.retries >= maxRetries && Current(r.states[j], d.id, d.token)
    ensures r.states[j].tasks[d.id].retries == maxRetries
  {
    DeliveryStaysAccurate(o, r, i, j, d);
    RetryBudget(o, r, j, maxRetries);
  }

  // ------------------------------------------------------------------ what the counters count

  predicate AcceptsId(s: State, e: Event, id: Id) {
    e.Enqueue? && e.id == id && Admission(s, e.now, id, e.data, e.dedup).Accepted?
  }

  ghost function RetriesAfter(s: State, e: Event, id: Id, before: nat): nat {
    if AcceptsId(s, e, id) then 0
    else if e.Replay? && e.id == id && id in s.tasks && s.tasks[id].phase.Failed? then 0
    else if e.Retry? && e.id == id && Current(s, id, e.token) then before + 1
    else before
  }

  ghost function DeliveriesAfter(o: Options, s: State, e: Event, id: Id, before: nat): nat
    requires Enabled(o, s, e)
  {
    if AcceptsId(s, e, id) then 0
    else if ReplyTo(o, s, e).Delivered? && ReplyTo(o, s, e).delivery.id == id then before + 1
    else before
  }

  // Effective retries of id in the first j steps since it was last accepted or replayed.
  ghost function RetriesSince(o: Options, r: Run, j: nat, id: Id): nat
    requires Lawful(o, r) && j < |r.states|
  {
    if j > 0 then RetriesAfter(r.states[j - 1], r.events[j - 1], id, RetriesSince(o, r, j - 1, id))
    else if id in r.states[0].tasks then r.states[0].tasks[id].retries
    else 0
  }

  // Deliveries of id in the first j steps since it was last accepted.
  ghost function DeliveriesSince(o: Options, r: Run, j: nat, id: Id): nat
    requires Lawful(o, r) && j < |r.states|
  {
    if j > 0 then
      assert StepAt(o, r, j - 1);
      DeliveriesAfter(o, r.states[j - 1], r.events[j - 1], id, DeliveriesSince(o, r, j - 1, id))
    else if id in r.states[0].tasks then r.states[0].tasks[id].deliveries
    else 0
  }

  lemma DeliveriesStep(o: Options, s: State, e: Event, id: Id)
    requires Inv(s) && Enabled(o, s, e) && id in s.tasks && id in Next(o, s, e).tasks
    ensures Next(o, s, e).tasks[id].deliveries == DeliveriesAfter(o, s, e, id, s.tasks[id].deliveries)
  {
    if e.Receive? {
      ReceiveEffect(o, s, e, id);
      hide Next, ReplyTo;
    }
  }

  lemma RetriesStep(o: Options, s: State, e: Event, id: Id)
    requires Inv(s) && Enabled(o, s, e) && id in s.tasks && id in Next(o, s, e).tasks
    ensures Next(o, s, e).tasks[id].retries == RetriesAfter(s, e, id, s.tasks[id].retries)
  {
    if e.Receive? {
      ReceiveEffect(o, s, e, id);
      hide Next, ReplyTo;
    }
  }

  lemma NewlyAccepted(o: Options, s: State, e: Event, id: Id)
    requires Inv(s) && Enabled(o, s, e) && id !in s.tasks && id in Next(o, s, e).tasks
    ensures AcceptsId(s, e, id)
    ensures Next(o, s, e).tasks[id].retries == 0 && Next(o, s, e).tasks[id].deliveries == 0
  {
  }

  /** retries counts the retries since the task was accepted or last replayed, deliveries every delivery
      since it was accepted; a replay resets only the former. */
  lemma {:induction false} CountersCount(o: Options, r: Run, j: nat, id: Id)
    requires Lawful(o, r) && j < |r.states| && id in r.states[j].tasks
    ensures r.states[j].tasks[id].retries == RetriesSince(o, r, j, id)
    ensures r.states[j].tasks[id].deliveries == DeliveriesSince(o, r, j, id)
  {
    if j > 0 {
      InvAlong(o, r, j - 1);
      assert StepAt(o, r, j - 1);
      if id in r.states[j - 1].tasks {
        CountersCount(o, r, j - 1, id);
        RetriesStep(o, r.states[j - 1], r.events[j - 1], id);
        DeliveriesStep(o, r.states[j - 1], r.events[j - 1], id);
      } else {
        NewlyAccepted(o, r.states[j - 1], r.events[j - 1], id);
      }
    }
  }
}
