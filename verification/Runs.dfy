/** Runs of the task machine: any interleaving of any clients' calls, in the order they took effect.
    The theorems here are about every run; both engines carry such a run as ghost state. */
module Runs {
  import opened Basics
  import opened TaskMachine

  datatype Run = Run(states: seq<State>, events: seq<Event>) {
    function Last(): State
      requires states != []
    {
      states[|states| - 1]
    }
  }

  ghost predicate StepAt(o: Options, r: Run, i: int)
    requires 0 <= i < |r.events| < |r.states|
  {
    Enabled(o, r.states[i], r.events[i]) && r.states[i + 1] == Next(o, r.states[i], r.events[i])
  }

  ghost predicate Lawful(o: Options, r: Run) {
    && ValidOptions(o)
    && |r.states| == |r.events| + 1
    && Inv(r.states[0])
    && (forall i :: 0 <= i < |r.events| ==> StepAt(o, r, i))
    && (forall i, j :: 0 <= i <= j < |r.events| ==> r.events[i].now <= r.events[j].now)
  }

  // The instant of the last step is not after now.
  ghost predicate Reached(r: Run, now: int) {
    r.events != [] ==> r.events[|r.events| - 1].now <= now
  }

  ghost function Extended(o: Options, r: Run, e: Event): Run
    requires r.states != [] && Enabled(o, r.Last(), e)
  {
    Run(r.states + [Next(o, r.Last(), e)], r.events + [e])
  }

  lemma ExtendLawful(o: Options, r: Run, e: Event)
    requires Lawful(o, r) && Enabled(o, r.Last(), e) && Reached(r, e.now)
    ensures Lawful(o, Extended(o, r, e))
    ensures Extended(o, r, e).Last() == Next(o, r.Last(), e)
    ensures Reached(Extended(o, r, e), e.now)
  {
    var x := Extended(o, r, e);
    forall i | 0 <= i < |x.events| ensures StepAt(o, x, i) {
      if i < |r.events| {
        assert StepAt(o, r, i);
      }
    }
  }

  // after continues before by exactly these events; the rules of a lawful run fix the states in between.
  ghost predicate Grew(before: Run, after: Run, es: seq<Event>) {
    before.states <= after.states && after.events == before.events + es
  }

  lemma GrewTwice(a: Run, b: Run, c: Run, x: Event, y: Event)
    requires Grew(a, b, [x]) && Grew(b, c, [y])
    ensures Grew(a, c, [x, y])
  {
  }

  /** The invariant holds all along a run. */
  lemma {:induction false} InvAlong(o: Options, r: Run, i: nat)
    requires Lawful(o, r) && i < |r.states|
    ensures Inv(r.states[i])
  {
    if i > 0 {
      InvAlong(o, r, i - 1);
      assert StepAt(o, r, i - 1);
      NextKeepsInv(o, r.states[i - 1], r.events[i - 1]);
    }
  }

  // ------------------------------------------------------------------ fencing

  // The token was handed out and is no longer (or never was) the current claim on id.
  ghost predicate Dead(s: State, id: Id, token: Token) {
    token in s.issued && !Current(s, id, token)
  }

  // e is a Renew, Ack, Retry or Fail that presents this token for id.
  predicate Presents(e: Event, id: Id, token: Token) {
    (e.Ack? || e.Renew? || e.Retry? || e.Fail?) && e.id == id && e.token == token
  }

  lemma DeadStaysDead(o: Options, s: State, e: Event, id: Id, token: Token)
    requires Inv(s) && Enabled(o, s, e) && Dead(s, id, token)
    ensures Dead(Next(o, s, e), id, token)
  {
  }

  lemma DeadTokenIsRefused(o: Options, s: State, e: Event, id: Id, token: Token)
    requires Enabled(o, s, e) && Dead(s, id, token) && Presents(e, id, token)
    ensures Next(o, s, e) == s
    ensures ReplyTo(o, s, e) == if e.Ack? && id !in s.tasks then Done else LeaseLost
  {
  }

  // Settling with the current token, or any later claim of the task, kills the token.
  lemma TokenDies(o: Options, s: State, e: Event, id: Id, token: Token)
    requires Inv(s) && Enabled(o, s, e) && Current(s, id, token)
    requires (Presents(e, id, token) && !e.Renew?)
             || (ReplyTo(o, s, e).Delivered? && ReplyTo(o, s, e).delivery.id == id)
    ensures Dead(Next(o, s, e), id, token)
  {
  }

  lemma {:induction false} DeadAlong(o: Options, r: Run, i: nat, j: nat, id: Id, token: Token)
    requires Lawful(o, r) && i <= j < |r.states| && Dead(r.states[i], id, token)
    ensures Dead(r.states[j], id, token)
  {
    if i < j {
      DeadAlong(o, r, i, j - 1, id, token);
      InvAlong(o, r, j - 1);
      assert StepAt(o, r, j - 1);
      DeadStaysDead(o, r.states[j - 1], r.events[j - 1], id, token);
    }
  }

  /** Fencing: once a token has lost its task (takeover, Ack, Retry or Fail at step i), every later use
      of it is refused and changes nothing, whatever happens to the id in between. */
  lemma Fencing(o: Options, r: Run, i: nat, j: nat, id: Id, token: Token)
    requires Lawful(o, r) && i < j < |r.events|
    requires Current(r.states[i], id, token)
    requires var e := r.events[i];
             StepAt(o, r, i) &&
             ((Presents(e, id, token) && !e.Renew?)
              || (ReplyTo(o, r.states[i], e).Delivered? && ReplyTo(o, r.states[i], e).delivery.id == id))
    requires Presents(r.events[j], id, token)
    ensures r.states[j + 1] == r.states[j]
    ensures StepAt(o, r, j)
    ensures ReplyTo(o, r.states[j], r.events[j]) ==
            if r.events[j].Ack? && id !in r.states[j].tasks then Done else LeaseLost
  {
    InvAlong(o, r, i);
    TokenDies(o, r.states[i], r.events[i], id, token);
    DeadAlong(o, r, i + 1, j, id, token);
    assert StepAt(o, r, j);
    DeadTokenIsRefused(o, r.states[j], r.events[j], id, token);
  }

  // ------------------------------------------------------------------ conservation

  // The only two ways a task leaves the queue.
  ghost predicate Acknowledges(s: State, e: Event, id: Id) {
    e.Ack? && e.id == id && Current(s, id, e.token)
  }

  predicate PrunesId(e: Event, id: Id) {
    e.Prune? && id in e.aged
  }

  ghost predicate SameContent(a: Task, b: Task) {
    a.data == b.data && a.dedup == b.dedup && a.deliveries <= b.deliveries
  }

  lemma StepConserves(o: Options, s: State, e: Event, id: Id)
    requires Inv(s) && Enabled(o, s, e) && id in s.tasks
    ensures id in Next(o, s, e).tasks <==> !(Acknowledges(s, e, id) || PrunesId(e, id))
    ensures id in Next(o, s, e).tasks ==> SameContent(s.tasks[id], Next(o, s, e).tasks[id])
    ensures PrunesId(e, id) ==> Aged(o, s, e.now, id)
  {
    if e.Receive? {
      ReceiveEffect(o, s, e, id);
    }
  }

  ghost predicate RemovedAt(r: Run, k: int, id: Id)
    requires 0 <= k < |r.events| < |r.states|
  {
    Acknowledges(r.states[k], r.events[k], id) || PrunesId(r.events[k], id)
  }

  /** At-least-once conservation: a task present at i is still there at j with unchanged content, unless
      some step between acknowledged it with its then current token or pruned it after it had stayed
      failed for at least the retention, which must be positive. */
  lemma {:induction false} Conservation(o: Options, r: Run, i: nat, j: nat, id: Id)
    requires Lawful(o, r) && i <= j < |r.states| && id in r.states[i].tasks
    requires forall k :: i <= k < j ==> !RemovedAt(r, k, id)
    ensures id in r.states[j].tasks && SameContent(r.states[i].tasks[id], r.states[j].tasks[id])
    ensures id in r.states[j].ready <==> r.states[j].tasks[id].phase.Ready?
  {
    InvAlong(o, r, j);
    if i < j {
      Conservation(o, r, i, j - 1, id);
      InvAlong(o, r, j - 1);
      assert StepAt(o, r, j - 1);
      assert !RemovedAt(r, j - 1, id);
      StepConserves(o, r.states[j - 1], r.events[j - 1], id);
    }
  }

  // A failed task that is not replayed keeps the instant of its failure.
  lemma FailedInstant(o: Options, s: State, e: Event, id: Id)
    requires Inv(s) && Enabled(o, s, e)
    requires id in Next(o, s, e).tasks && Next(o, s, e).tasks[id].phase.Failed?
    ensures id in s.tasks
    ensures s.tasks[id].phase.Failed? ==>
            s.tasks[id].phase == Next(o, s, e).tasks[id].phase && s.tasks[id].reason == Next(o, s, e).tasks[id].reason
    ensures !s.tasks[id].phase.Failed? ==>
            && e.Fail? && Current(s, id, e.token) && e.id == id
            && Next(o, s, e).tasks[id].phase.at == e.now && Next(o, s, e).tasks[id].reason == e.reason
  {
    if e.Receive? {
      hide Inv, Next;
      FailedThroughReceive(o, s, e, id);
    }
  }

  lemma FailedThroughReceive(o: Options, s: State, e: Event, id: Id)
    requires Inv(s) && Enabled(o, s, e) && e.Receive? && id in Next(o, s, e).tasks
             && Next(o, s, e).tasks[id].phase.Failed?
    ensures id in s.tasks && s.tasks[id].phase == Next(o, s, e).tasks[id].phase
    ensures s.tasks[id].reason == Next(o, s, e).tasks[id].reason
  {
    ReceiveNext(o, s, e.now, e.token, e.promoted, e.outcome);
    ReceiveEffect(o, s, e, id);
  }

  /** A pruned task really was given up on: some earlier Fail presented its current token, at least one
      retention before the prune, and the task stayed failed from then on. */
  lemma PrunedWasFailed(o: Options, r: Run, j: nat, id: Id)
    requires Lawful(o, r) && j < |r.events| && PrunesId(r.events[j], id)
    requires forall k :: k in r.states[0].tasks ==> !r.states[0].tasks[k].phase.Failed?
    ensures o.retention > 0
    ensures exists i :: 0 <= i < j && FailsForGood(r, i, j, id)
                        && r.events[j].now - r.events[i].now >= o.retention
  {
    assert StepAt(o, r, j);
    assert Aged(o, r.states[j], r.events[j].now, id);
    var i := FailureOf(o, r, j, id);
    assert FailsForGood(r, i, j, id);
  }

  ghost predicate FailsForGood(r: Run, i: int, j: int, id: Id)
    requires 0 <= i < j < |r.states| && |r.events| + 1 == |r.states|
  {
    r.events[i].Fail? && r.events[i].id == id && Current(r.states[i], id, r.events[i].token)
    && forall k :: i < k <= j ==>
         && id in r.states[k].tasks && r.states[k].tasks[id].phase == Failed(r.events[i].now)
         && r.states[k].tasks[id].reason == r.events[i].reason
  }

  lemma {:induction false} FailureOf(o: Options, r: Run, j: nat, id: Id) returns (i: nat)
    requires Lawful(o, r) && j < |r.states|
    requires id in r.states[j].tasks && r.states[j].tasks[id].phase.Failed?
    requires forall k :: k in r.states[0].tasks ==> !r.states[0].tasks[k].phase.Failed?
    ensures i < j && FailsForGood(r, i, j, id)
  {
    InvAlong(o, r, j - 1);
    assert StepAt(o, r, j - 1);
    FailedInstant(o, r.states[j - 1], r.events[j - 1], id);
    if r.states[j - 1].tasks[id].phase.Failed? {
      i := FailureOf(o, r, j - 1, id);
    } else {
      i := j - 1;
    }
  }

  // ------------------------------------------------------------------ deduplication

  // id is remembered at least until the instant "until": by a live stable-id task or by its tombstone.
  ghost predicate Remembered(s: State, id: Id, until: int) {
    (id in s.tasks && s.tasks[id].dedup) || (id in s.done && s.done[id].until >= until)
  }

  lemma RememberedStays(o: Options, s: State, e: Event, id: Id, until: int)
    requires Enabled(o, s, e) && Remembered(s, id, until) && e.now < until
    requires Inv(s) && !PrunesId(e, id)
    requires Acknowledges(s, e, id) && s.tasks[id].dedup ==> o.dedupWindow > 0 && until <= e.now + o.dedupWindow
    ensures Remembered(Next(o, s, e), id, until)
  {
  }

  lemma RememberedAnswers(o: Options, s: State, e: Event, id: Id, until: int)
    requires Enabled(o, s, e) && Remembered(s, id, until) && e.now < until
    requires e.Enqueue? && e.id == id && e.dedup
    ensures Next(o, s, e) == s
    ensures ReplyTo(o, s, e) ==
            if (id in s.tasks && s.tasks[id].data == e.data) || (id !in s.tasks && s.done[id].hash == Digest(e.data))
            then Duplicate else Conflict
  {
  }

  // No stable-id acknowledgement of id in [i, j) has its window over at "until".
  ghost predicate WindowsOpen(o: Options, r: Run, i: int, j: int, id: Id, until: int)
    requires 0 <= i <= j < |r.states| && |r.events| + 1 == |r.states|
  {
    forall k :: i <= k < j ==>
      && !PrunesId(r.events[k], id)
      && (Acknowledges(r.states[k], r.events[k], id) && r.states[k].tasks[id].dedup
          ==> o.dedupWindow > 0 && until <= r.events[k].now + o.dedupWindow)
  }

  lemma {:induction false} RememberedAlong(o: Options, r: Run, i: nat, j: nat, id: Id, until: int)
    requires Lawful(o, r) && i <= j < |r.states|
    requires Remembered(r.states[i], id, until) && WindowsOpen(o, r, i, j, id, until)
    requires j > 0 ==> r.events[j - 1].now < until
    ensures Remembered(r.states[j], id, until)
  {
    if i < j {
      assert j > 1 ==> r.events[j - 2].now <= r.events[j - 1].now;
      RememberedAlong(o, r, i, j - 1, id, until);
      InvAlong(o, r, j - 1);
      assert StepAt(o, r, j - 1);
      assert !PrunesId(r.events[j - 1], id);
      RememberedStays(o, r.states[j - 1], r.events[j - 1], id, until);
    }
  }

  /** Deduplication: after a stable-id enqueue was accepted at i, a stable-id enqueue of the same id at j
      is never accepted as new, as long as the record was not pruned after failing and every stable-id
      acknowledgement in between still has its window open at j; enqueues of the id without
      deduplication may interleave freely. */
  lemma Deduplication(o: Options, r: Run, i: nat, j: nat, id: Id)
    requires Lawful(o, r) && i < j < |r.events|
    requires r.events[i].Enqueue? && r.events[i].id == id && r.events[i].dedup
    requires StepAt(o, r, i) && ReplyTo(o, r.states[i], r.events[i]) == Accepted
    requires r.events[j].Enqueue? && r.events[j].id == id && r.events[j].dedup
    requires WindowsOpen(o, r, i, j, id, r.events[j].now + 1)
    ensures StepAt(o, r, j) && r.states[j + 1] == r.states[j]
    ensures ReplyTo(o, r.states[j], r.events[j]).Duplicate? || ReplyTo(o, r.states[j], r.events[j]).Conflict?
  {
    var until := r.events[j].now + 1;
    assert Remembered(r.states[i + 1], id, until);
    RememberedAlong(o, r, i + 1, j, id, until);
    assert StepAt(o, r, j);
    RememberedAnswers(o, r.states[j], r.events[j], id, until);
  }

  // Step k enqueues id as a new task.
  ghost predicate AdmitsAt(o: Options, r: Run, k: int, id: Id)
    requires 0 <= k < |r.events| < |r.states|
  {
    var e := r.events[k];
    e.Enqueue? && e.id == id && Admission(r.states[k], e.now, id, e.data, e.dedup).Accepted?
  }

  // The last step before j that does, step i being one.
  ghost function LastAdmitted(o: Options, r: Run, i: nat, j: nat, id: Id): (k: nat)
    requires i < j <= |r.events| < |r.states|
    ensures i <= k < j && (k == i || AdmitsAt(o, r, k, id)) && forall x :: k < x < j ==> !AdmitsAt(o, r, x, id)
  {
    if j - 1 == i || AdmitsAt(o, r, j - 1, id) then j - 1 else LastAdmitted(o, r, i, j - 1, id)
  }

  // What is remembered about id: a live record holds "live", a stable-id one and a tombstone hold "stable".
  ghost predicate Recalls(s: State, id: Id, live: Bytes, stable: Bytes, until: int) {
    && (id in s.tasks ==> s.tasks[id].data == live && (s.tasks[id].dedup ==> live == stable))
    && (id in s.done && s.done[id].until >= until ==> s.done[id].hash == Digest(stable))
  }

  lemma RecallsStays(o: Options, s: State, e: Event, id: Id, live: Bytes, stable: Bytes, until: int)
    requires Inv(s) && Enabled(o, s, e) && Recalls(s, id, live, stable, until)
    requires Remembered(s, id, until) && e.now < until
    ensures Recalls(Next(o, s, e), id,
                    if e.Enqueue? && e.id == id && Admission(s, e.now, id, e.data, e.dedup).Accepted?
                    then e.data else live,
                    stable, until)
  {
    if e.Receive? {
      hide Recalls, Next;
      RecallsReceive(o, s, e, id, live, stable, until);
    }
  }

  lemma RecallsReceive(o: Options, s: State, e: Event, id: Id, live: Bytes, stable: Bytes, until: int)
    requires Inv(s) && Enabled(o, s, e) && e.Receive? && Recalls(s, id, live, stable, until)
    ensures Recalls(Next(o, s, e), id, live, stable, until)
  {
    ReceiveNext(o, s, e.now, e.token, e.promoted, e.outcome);
    if id in s.tasks {
      ReceiveEffect(o, s, e, id);
    }
    hide Inv, Enabled, ReplyTo;
  }

  lemma RecallsFirst(o: Options, s: State, e: Event, id: Id, until: int)
    requires Enabled(o, s, e) && e.Enqueue? && e.id == id && e.dedup && e.now < until
    requires Admission(s, e.now, id, e.data, true).Accepted?
    ensures Remembered(Next(o, s, e), id, until) && Recalls(Next(o, s, e), id, e.data, e.data, until)
  {
  }

  lemma {:induction false} RecallsAlong(o: Options, r: Run, i: nat, j: nat, id: Id, until: int)
    requires Lawful(o, r) && i < j < |r.states| && AdmitsAt(o, r, i, id) && r.events[i].dedup
    requires WindowsOpen(o, r, i, j, id, until) && r.events[j - 1].now < until
    ensures Remembered(r.states[j], id, until)
    ensures Recalls(r.states[j], id, r.events[LastAdmitted(o, r, i, j, id)].data, r.events[i].data, until)
  {
    hide Inv, Next, Recalls, Admission;
    var k := j - 1;
    InvAlong(o, r, k);
    assert StepAt(o, r, k);
    if i == k {
      RecallsFirst(o, r.states[k], r.events[k], id, until);
    } else {
      assert r.events[k - 1].now <= r.events[k].now;
      RecallsAlong(o, r, i, k, id, until);
      RememberedAlong(o, r, k, j, id, until);
      RecallsStays(o, r.states[k], r.events[k], id, r.events[LastAdmitted(o, r, i, k, id)].data, r.events[i].data,
          until);
    }
  }

  /** Deduplication, whatever interleaves: after a stable-id enqueue was accepted at i, the answer to another one at
      j compares with the task accepted last if it is still there, and otherwise with the content accepted at i. */
  lemma DeduplicationAnswer(o: Options, r: Run, i: nat, j: nat, id: Id)
    requires Lawful(o, r) && i < j < |r.events|
    requires r.events[i].Enqueue? && r.events[i].id == id && r.events[i].dedup
    requires StepAt(o, r, i) && ReplyTo(o, r.states[i], r.events[i]) == Accepted
    requires r.events[j].Enqueue? && r.events[j].id == id && r.events[j].dedup
    requires WindowsOpen(o, r, i, j, id, r.events[j].now + 1)
    ensures StepAt(o, r, j)
    ensures var last := if id in r.states[j].tasks then LastAdmitted(o, r, i, j, id) else i;
            ReplyTo(o, r.states[j], r.events[j])
            == if r.events[j].data == r.events[last].data then Duplicate else Conflict
  {
    var until := r.events[j].now + 1;
    assert r.events[j - 1].now <= r.events[j].now;
    RecallsAlong(o, r, i, j, id, until);
    assert StepAt(o, r, j);
    RememberedAnswers(o, r.states[j], r.events[j], id, until);
  }

  lemma OpenEarlier(o: Options, r: Run, i: nat, j: nat, k: nat, id: Id)
    requires Lawful(o, r) && i <= k <= j < |r.events| && WindowsOpen(o, r, i, j, id, r.events[j].now + 1)
    ensures WindowsOpen(o, r, i, k, id, r.events[k].now + 1)
  {
    assert r.events[k].now <= r.events[j].now;
  }

  /** So while only stable-id enqueues of the id take place, every answer compares with the accepted content. */
  lemma StableIdAnswer(o: Options, r: Run, i: nat, j: nat, id: Id)
    requires Lawful(o, r) && i < j < |r.events|
    requires r.events[i].Enqueue? && r.events[i].id == id && r.events[i].dedup
    requires StepAt(o, r, i) && ReplyTo(o, r.states[i], r.events[i]) == Accepted
    requires r.events[j].Enqueue? && r.events[j].id == id && r.events[j].dedup
    requires WindowsOpen(o, r, i, j, id, r.events[j].now + 1)
    requires forall k :: i < k < j && r.events[k].Enqueue? && r.events[k].id == id ==> r.events[k].dedup
    ensures StepAt(o, r, j)
    ensures ReplyTo(o, r.states[j], r.events[j])
            == if r.events[j].data == r.events[i].data then Duplicate else Conflict
  {
    DeduplicationAnswer(o, r, i, j, id);
    var k := LastAdmitted(o, r, i, j, id);
    if k != i {
      OpenEarlier(o, r, i, j, k, id);
      Deduplication(o, r, i, k, id);
    }
  }

  // Nothing is remembered about id from the instant "after" on.
  ghost predicate ForgottenFrom(s: State, id: Id, after: int) {
    id !in s.tasks && (id in s.done ==> s.done[id].until <= after)
  }

  lemma {:induction false} ForgottenAlong(o: Options, r: Run, i: nat, j: nat, id: Id, after: int)
    requires Lawful(o, r) && i <= j < |r.states| && ForgottenFrom(r.states[i], id, after)
    requires forall k :: i <= k < j && r.events[k].Enqueue? && r.events[k].id == id
                         ==> !Admission(r.states[k], r.events[k].now, id, r.events[k].data, r.events[k].dedup).Accepted?
    ensures ForgottenFrom(r.states[j], id, after)
  {
    if i < j {
      ForgottenAlong(o, r, i, j - 1, id, after);
      assert StepAt(o, r, j - 1);
    }
  }

  /** After the window the id is new again: an enqueue at least DedupWindow after the acknowledgement at i
      is accepted whatever its content, unless an enqueue of the id was accepted meanwhile. */
  lemma NewAgainAfterWindow(o: Options, r: Run, i: nat, j: nat, id: Id)
    requires Lawful(o, r) && i < j < |r.events|
    requires Acknowledges(r.states[i], r.events[i], id) && r.states[i].tasks[id].dedup
    requires r.events[j].Enqueue? && r.events[j].id == id
    requires r.events[j].now >= r.events[i].now + o.dedupWindow
    requires forall k :: i < k < j && r.events[k].Enqueue? && r.events[k].id == id
                         ==> !Admission(r.states[k], r.events[k].now, id, r.events[k].data, r.events[k].dedup).Accepted?
    requires o.dedupWindow == 0 && id in r.states[i].done ==> r.states[i].done[id].until <= r.events[j].now
    ensures StepAt(o, r, j) && ReplyTo(o, r.states[j], r.events[j]) == Accepted
  {
    assert StepAt(o, r, i);
    ForgottenAlong(o, r, i + 1, j, id, r.events[j].now);
    assert StepAt(o, r, j);
    AcceptedIffForgotten(o, r.states[j], r.events[j]);
  }

  /** Without the window the id is new again: an enqueue is accepted exactly when no live record and no
      open tombstone (for a stable id) is there. */
  lemma AcceptedIffForgotten(o: Options, s: State, e: Event)
    requires Enabled(o, s, e) && e.Enqueue?
    ensures ReplyTo(o, s, e) == Accepted <==> e.id !in s.tasks && (e.dedup ==> !Entombed(s, e.now, e.id))
    ensures ReplyTo(o, s, e) == Accepted ==>
            Next(o, s, e).tasks == s.tasks[e.id := Task(e.data, e.dedup, Ready, 0, 0, "")]
            && Next(o, s, e).ready == s.ready + [e.id] && Next(o, s, e).done == s.done
    ensures ReplyTo(o, s, e) != Accepted ==> Next(o, s, e) == s
    ensures e.id in s.tasks ==> ReplyTo(o, s, e) == (if s.tasks[e.id].data == e.data then Duplicate else Conflict)
  {
  }
}
