/** Instants over a run: how long exactly a lease lasts, how long a retry waits, and what is known of a failure. */
module Timing {
  import opened Basics
  import opened TaskMachine
  import opened Runs
  import opened Claims

  // ------------------------------------------------------------------ the end of a lease

  // Between two grants a current claim keeps its lease as it is.
  lemma LeaseKept(o: Options, s: State, e: Event, id: Id, token: Token)
    requires Inv(s) && Enabled(o, s, e) && token in s.issued && Current(Next(o, s, e), id, token)
    requires !Grants(o, s, e, id, token)
    ensures Current(s, id, token) && s.tasks[id].phase == Next(o, s, e).tasks[id].phase
  {
    if e.Receive? && id in s.tasks {
      ReceiveEffect(o, s, e, id);
      hide Next, ReplyTo;
    }
  }

  // No step from i to j granted the token a lease on id again.
  ghost predicate NotRenewed(o: Options, r: Run, i: int, j: int, id: Id, token: Token)
    requires 0 <= i < j < |r.states| && |r.events| + 1 == |r.states|
  {
    forall k :: i < k < j ==> StepAt(o, r, k) && !Grants(o, r.states[k], r.events[k], id, token)
  }

  /** A lease ends exactly LeaseDuration after the claim or the renewal that granted it last. */
  lemma {:induction false} LeaseEnds(o: Options, r: Run, i: nat, j: nat, id: Id, token: Token)
    requires Lawful(o, r) && i < j < |r.states|
    requires StepAt(o, r, i) && Grants(o, r.states[i], r.events[i], id, token)
    requires NotRenewed(o, r, i, j, id, token) && Current(r.states[j], id, token)
    ensures r.states[j].tasks[id].phase.leaseUntil == r.events[i].now + o.lease
  {
    hide Next, Enabled, Grants, Inv;
    if i + 1 == j {
      GrantIs(o, r.states[i], r.events[i], id, token);
    } else {
      InvAlong(o, r, j - 1);
      IssuedAlong(o, r, i, j - 1, id, token);
      assert StepAt(o, r, j - 1) && !Grants(o, r.states[j - 1], r.events[j - 1], id, token);
      LeaseKept(o, r.states[j - 1], r.events[j - 1], id, token);
      LeaseEnds(o, r, i, j - 1, id, token);
    }
  }

  lemma GrantIs(o: Options, s: State, e: Event, id: Id, token: Token)
    requires Enabled(o, s, e) && Grants(o, s, e, id, token)
    ensures var t := Next(o, s, e);
            Current(t, id, token) && t.tasks[id].phase.leaseUntil == e.now + o.lease
  {
  }

  lemma {:induction false} IssuedAlong(o: Options, r: Run, i: nat, j: nat, id: Id, token: Token)
    requires Lawful(o, r) && i < j < |r.states|
    requires StepAt(o, r, i) && Grants(o, r.states[i], r.events[i], id, token)
    ensures token in r.states[j].issued
  {
    if i + 1 == j {
      GrantIs(o, r.states[i], r.events[i], id, token);
      InvAlong(o, r, j);
    } else {
      IssuedAlong(o, r, i, j - 1, id, token);
      assert StepAt(o, r, j - 1);
      IssuedGrows(o, r.states[j - 1], r.events[j - 1], token);
    }
  }

  /** From that instant on, a Receive takes over a task whose lease has run out: this one, or one whose lease ended
      no later. */
  lemma LeaseIsRecovered(o: Options, r: Run, i: nat, j: nat, id: Id, token: Token)
    requires Lawful(o, r) && i < j < |r.events|
    requires StepAt(o, r, i) && Grants(o, r.states[i], r.events[i], id, token)
    requires NotRenewed(o, r, i, j, id, token) && Current(r.states[j], id, token)
    requires r.events[j].Receive? && !r.events[j].outcome.Aborted? && r.events[j].now >= r.events[i].now + o.lease
    ensures StepAt(o, r, j)
    ensures var reply := ReplyTo(o, r.states[j], r.events[j]);
            && reply.Delivered? && reply.delivery.recovered && reply.delivery.id in r.states[j].tasks
            && r.states[j].tasks[reply.delivery.id].phase.Inflight?
            && r.states[j].tasks[reply.delivery.id].phase.leaseUntil <= r.events[i].now + o.lease
  {
    LeaseEnds(o, r, i, j, id, token);
    InvAlong(o, r, j);
    assert StepAt(o, r, j);
    hide Next, Enabled, Grants, ReplyTo, Inv;
    EmptyIffNothingClaimable(o, r.states[j], r.events[j]);
    ClaimOrder(o, r.states[j], r.events[j]);
  }

  // ------------------------------------------------------------------ the wait of a retry

  // Until it is due nothing touches a delayed task.
  lemma DelayedKept(o: Options, s: State, e: Event, id: Id)
    requires Inv(s) && Enabled(o, s, e) && id in s.tasks && s.tasks[id].phase.Delayed? && e.now < s.tasks[id].phase.due
    ensures id in Next(o, s, e).tasks && Next(o, s, e).tasks[id] == s.tasks[id]
    ensures ReplyTo(o, s, e).Delivered? ==> ReplyTo(o, s, e).delivery.id != id
  {
    if e.Receive? {
      ReceiveEffect(o, s, e, id);
      hide Next, ReplyTo;
    }
  }

  lemma RetryIs(o: Options, s: State, e: Event)
    requires Enabled(o, s, e) && e.Retry? && Current(s, e.id, e.token)
    ensures var t := Next(o, s, e);
            && e.id in t.tasks && t.tasks[e.id].phase == Delayed(e.now + e.delay) && t.tasks[e.id].reason == e.reason
            && t.tasks[e.id].retries == s.tasks[e.id].retries + 1 && t.tasks[e.id].data == s.tasks[e.id].data
            && t.tasks[e.id].deliveries == s.tasks[e.id].deliveries
  {
  }

  /** A retried task waits: until its delay has passed it stays as the Retry left it, with the reason given, and no
      Receive delivers it. */
  lemma {:induction false} RetryWaitsOut(o: Options, r: Run, i: nat, j: nat)
    requires Lawful(o, r) && i < j < |r.states|
    requires r.events[i].Retry? && Current(r.states[i], r.events[i].id, r.events[i].token)
    requires j > i + 1 ==> r.events[j - 1].now < r.events[i].now + r.events[i].delay
    ensures var e := r.events[i]; var id := e.id;
      && id in r.states[i].tasks && id in r.states[j].tasks
      && r.states[j].tasks[id].phase == Delayed(e.now + e.delay) && r.states[j].tasks[id].reason == e.reason
      && r.states[j].tasks[id].retries == r.states[i].tasks[id].retries + 1
      && r.states[j].tasks[id].data == r.states[i].tasks[id].data
    ensures j > i + 1 ==> StepAt(o, r, j - 1) && !DeliveredAt(o, r, j - 1, r.events[i].id)
  {
    hide Next, Enabled, ReplyTo, Inv;
    assert StepAt(o, r, j - 1);
    if i + 1 == j {
      RetryIs(o, r.states[i], r.events[i]);
    } else {
      assert r.events[j - 2].now <= r.events[j - 1].now;
      RetryWaitsOut(o, r, i, j - 1);
      InvAlong(o, r, j - 1);
      DelayedKept(o, r.states[j - 1], r.events[j - 1], r.events[i].id);
    }
  }

  // ------------------------------------------------------------------ what a failed task tells

  /** Each row of the failed list tells of the Fail that put it there: its instant and its reason. */
  lemma RowTells(o: Options, r: Run, j: nat, limit: nat, rows: seq<FailedMessage>, m: FailedMessage)
    requires Lawful(o, r) && j < |r.states| && FirstFailures(r.states[j], limit, rows) && m in rows
    requires forall k :: k in r.states[0].tasks ==> !r.states[0].tasks[k].phase.Failed?
    ensures exists i :: 0 <= i < j && FailsForGood(r, i, j, m.id)
                        && m.failedAt == r.events[i].now && m.reason == r.events[i].reason
  {
    var i := FailureOf(o, r, j, m.id);
    assert FailsForGood(r, i, j, m.id);
  }
}
