/** The abstract at-least-once queue both engines implement: one task per id, a FIFO of ready ids and
    the tombstones of acknowledged ids. An Event is one atomic step together with the choices the
    engines leave open (promotion order, which of several equally old leases, when aged records go). */
module TaskMachine {
  import opened Basics
  import opened Ranking

  datatype Options = Options(lease: int, dedupWindow: int, retention: int)

  predicate ValidOptions(o: Options) {
    o.lease > 0 && o.dedupWindow >= 0 && o.retention >= 0
  }

  datatype Phase = Ready | Inflight(token: Token, leaseUntil: int) | Delayed(due: int) | Failed(at: int)

  datatype Task = Task(data: Bytes, dedup: bool, phase: Phase, deliveries: nat, retries: nat, reason: string)

  datatype Tombstone = Tombstone(hash: Digest, until: int)

  datatype State = State(tasks: map<Id, Task>, ready: seq<Id>, done: map<Id, Tombstone>, issued: set<Token>)

  const EMPTY := State(map[], [], map[], {})

  datatype Delivery = Delivery(id: Id, data: Bytes, token: Token, attempt: nat, retries: nat, recovered: bool)

  datatype FailedMessage = FailedMessage(id: Id, data: Bytes, attempts: nat, reason: string, failedAt: int)

  // Why a call was turned away without an effect on the tasks.
  datatype Refusal =
    | InvalidId | ItemEmpty | Cancelled | EngineClosed | QueueFull | BadLimit
    | CorruptRecord | WrongType | ScriptError

  datatype Reply =
    | Accepted | Duplicate | Conflict
    | Delivered(delivery: Delivery) | QueueEmpty
    | Done | LeaseLost | NotFound
    | Listed(messages: seq<FailedMessage>)
    | Refused(why: Refusal)

  datatype Outcome = Recovered(id: Id) | Fresh | Nothing | Aborted(why: Refusal)

  datatype Event =
    | Enqueue(now: int, id: Id, data: Bytes, dedup: bool)
    | Receive(now: int, token: Token, promoted: seq<Id>, outcome: Outcome)
    | Ack(now: int, id: Id, token: Token)
    | Renew(now: int, id: Id, token: Token)
    | Retry(now: int, id: Id, token: Token, delay: nat, reason: string)
    | Fail(now: int, id: Id, token: Token, reason: string)
    | ListFailed(now: int, limit: nat)
    | Replay(now: int, id: Id)
    | Prune(now: int, aged: set<Id>, expired: set<Id>)
    | Decline(now: int, why: Refusal)

  predicate Current(s: State, id: Id, token: Token) {
    id in s.tasks && s.tasks[id].phase.Inflight? && s.tasks[id].phase.token == token
  }

  predicate Due(s: State, now: int, id: Id) {
    id in s.tasks && s.tasks[id].phase.Delayed? && s.tasks[id].phase.due <= now
  }

  predicate Expired(s: State, now: int, id: Id) {
    id in s.tasks && s.tasks[id].phase.Inflight? && s.tasks[id].phase.leaseUntil <= now
  }

  predicate Aged(o: Options, s: State, now: int, id: Id) {
    o.retention > 0 && id in s.tasks && s.tasks[id].phase.Failed? && now - s.tasks[id].phase.at >= o.retention
  }

  predicate Entombed(s: State, now: int, id: Id) {
    id in s.done && now < s.done[id].until
  }

  // What an enqueue of id with these contents is answered.
  function Admission(s: State, now: int, id: Id, data: Bytes, dedup: bool): Reply {
    if id in s.tasks then
      if s.tasks[id].data == data then Duplicate else Conflict
    else if dedup && Entombed(s, now, id) then
      if s.done[id].hash == Digest(data) then Duplicate else Conflict
    else
      Accepted
  }

  function Promote(s: State, promoted: seq<Id>): State {
    s.(tasks := map id | id in s.tasks :: if id in promoted then s.tasks[id].(phase := Ready) else s.tasks[id],
       ready := s.ready + promoted)
  }

  function Claim(o: Options, s: State, id: Id, token: Token, now: int): State
    requires id in s.tasks
  {
    var t := s.tasks[id];
    s.(tasks := s.tasks[id := t.(phase := Inflight(token, now + o.lease), deliveries := t.deliveries + 1)],
       issued := s.issued + {token})
  }

  ghost predicate NoneExpired(s: State, now: int) {
    forall id :: id in s.tasks ==> !Expired(s, now, id)
  }

  ghost predicate NoneDue(s: State, now: int) {
    forall id :: id in s.tasks ==> !Due(s, now, id)
  }

  ghost predicate EarliestExpired(s: State, now: int, id: Id) {
    Expired(s, now, id)
    && forall j :: j in s.tasks && s.tasks[j].phase.Inflight? ==>
         s.tasks[id].phase.leaseUntil <= s.tasks[j].phase.leaseUntil
  }

  ghost predicate Chosen(s: State, now: int, outcome: Outcome) {
    match outcome
    case Recovered(id) => EarliestExpired(s, now, id)
    case Fresh => NoneExpired(s, now) && s.ready != [] && s.ready[0] in s.tasks
    case Nothing => NoneExpired(s, now) && s.ready == []
    case Aborted(why) => why == CorruptRecord
  }

  ghost predicate Promotable(s: State, now: int, promoted: seq<Id>) {
    NoDup(promoted) && forall id :: id in promoted ==> Due(s, now, id)
  }

  ghost predicate Enabled(o: Options, s: State, e: Event) {
    match e
    case Enqueue(now, id, data, dedup) => ValidId(id) && data != []
    case Receive(now, token, promoted, outcome) =>
      && token !in s.issued
      && Promotable(s, now, promoted)
      && (outcome.Aborted? || promoted != [] || NoneDue(s, now))
      && Chosen(Promote(s, promoted), now, outcome)
    case Prune(now, aged, expired) =>
      && (forall id :: id in aged ==> Aged(o, s, now, id))
      && (forall id :: id in expired ==> id in s.done && s.done[id].until <= now)
    case _ => true
  }

  ghost function Next(o: Options, s: State, e: Event): State
    requires Enabled(o, s, e)
  {
    match e
    case Enqueue(now, id, data, dedup) =>
      if Admission(s, now, id, data, dedup).Accepted?
      then s.(tasks := s.tasks[id := Task(data, dedup, Ready, 0, 0, "")], ready := s.ready + [id])
      else s
    case Receive(now, token, promoted, outcome) =>
      var p := Promote(s, promoted);
      (match outcome
       case Recovered(id) => Claim(o, p, id, token, now)
       case Fresh => Claim(o, p.(ready := p.ready[1..]), p.ready[0], token, now)
       case Nothing => p
       case Aborted(_) => p)
    case Ack(now, id, token) =>
      if Current(s, id, token)
      then s.(tasks := s.tasks - {id},
              done := if s.tasks[id].dedup && o.dedupWindow > 0
                      then s.done[id := Tombstone(Digest(s.tasks[id].data), now + o.dedupWindow)] else s.done)
      else s
    case Renew(now, id, token) =>
      if Current(s, id, token)
      then s.(tasks := s.tasks[id := s.tasks[id].(phase := Inflight(token, now + o.lease))])
      else s
    case Retry(now, id, token, delay, reason) =>
      if Current(s, id, token)
      then s.(tasks := s.tasks[id := s.tasks[id].(phase := Delayed(now + delay), retries := s.tasks[id].retries + 1,
          reason := reason)])
      else s
    case Fail(now, id, token, reason) =>
      if Current(s, id, token)
      then s.(tasks := s.tasks[id := s.tasks[id].(phase := Failed(now), reason := reason)])
      else s
    case Replay(now, id) =>
      if id in s.tasks && s.tasks[id].phase.Failed?
      then s.(tasks := s.tasks[id := s.tasks[id].(phase := Ready, retries := 0)], ready := s.ready + [id])
      else s
    case Prune(now, aged, expired) => s.(tasks := s.tasks - aged, done := s.done - expired)
    case ListFailed(_, _) => s
    case Decline(_, _) => s
  }

  function DeliveryOf(s: State, id: Id, recovered: bool): Delivery
    requires id in s.tasks && s.tasks[id].phase.Inflight?
  {
    var t := s.tasks[id];
    Delivery(id, t.data, t.phase.token, t.deliveries, t.retries, recovered)
  }

  function FailedScores(s: State): Scores {
    map id | id in s.tasks && s.tasks[id].phase.Failed? :: s.tasks[id].phase.at
  }

  function Message(s: State, id: Id): FailedMessage {
    if id in s.tasks && s.tasks[id].phase.Failed?
    then FailedMessage(id, s.tasks[id].data, s.tasks[id].deliveries, s.tasks[id].reason, s.tasks[id].phase.at)
    else FailedMessage(id, [], 0, "", 0)
  }

  function Messages(s: State, ids: seq<Id>): seq<FailedMessage> {
    seq(|ids|, i requires 0 <= i < |ids| => Message(s, ids[i]))
  }

  function EarliestFailed(s: State, limit: nat): seq<FailedMessage> {
    Messages(s, Take(Ranked(FailedScores(s)), limit))
  }

  // What the list of the failed tasks has to show, without saying how it is found: at most limit of them, the
  // earliest by instant and then id, each with what is stored of it.
  ghost predicate FirstFailures(s: State, limit: nat, rows: seq<FailedMessage>) {
    var failed := set id | id in s.tasks && s.tasks[id].phase.Failed?;
    && |rows| == (if |failed| < limit then |failed| else limit)
    && (forall m :: m in rows ==>
          && m.id in failed && m.failedAt == s.tasks[m.id].phase.at && m.data == s.tasks[m.id].data
          && m.attempts == s.tasks[m.id].deliveries && m.reason == s.tasks[m.id].reason)
    && (forall i, j :: 0 <= i < j < |rows| ==>
          rows[i].failedAt < rows[j].failedAt
          || (rows[i].failedAt == rows[j].failedAt && IdLess(rows[i].id, rows[j].id)))
    && (forall id, i :: id in failed && 0 <= i < |rows| && (forall m :: m in rows ==> m.id != id) ==>
          rows[i].failedAt < s.tasks[id].phase.at
          || (rows[i].failedAt == s.tasks[id].phase.at && IdLess(rows[i].id, id)))
  }

  lemma EarliestAreFirst(s: State, limit: nat)
    ensures FirstFailures(s, limit, EarliestFailed(s, limit))
  {
    var z := FailedScores(s);
    var ids, rows := Take(Ranked(z), limit), EarliestFailed(s, limit);
    var failed := set id | id in s.tasks && s.tasks[id].phase.Failed?;
    TakeIsLeast(z, limit);
    assert z.Keys == failed;
    hide Ranked, Take, EarliestFailed, IdLess;
    assert rows == Messages(s, ids);
    forall i | 0 <= i < |rows| ensures ids[i] in failed && rows[i].id == ids[i] && rows[i].failedAt == z[ids[i]] {
      assert ids[i] in ids;
    }
    forall id | id in ids ensures exists m :: m in rows && m.id == id {
      var i :| 0 <= i < |ids| && ids[i] == id;
      assert rows[i] in rows && rows[i].id == id;
    }
  }

  ghost function ReplyTo(o: Options, s: State, e: Event): Reply
    requires Enabled(o, s, e)
  {
    match e
    case Enqueue(now, id, data, dedup) => Admission(s, now, id, data, dedup)
    case Receive(now, token, promoted, outcome) =>
      (match outcome
       case Recovered(id) => Delivered(DeliveryOf(Next(o, s, e), id, true))
       case Fresh => Delivered(DeliveryOf(Next(o, s, e), Promote(s, promoted).ready[0], false))
       case Nothing => QueueEmpty
       case Aborted(why) => Refused(why))
    case Ack(now, id, token) => if id in s.tasks && !Current(s, id, token) then LeaseLost else Done
    case Renew(now, id, token) => if Current(s, id, token) then Done else LeaseLost
    case Retry(now, id, token, delay, reason) => if Current(s, id, token) then Done else LeaseLost
    case Fail(now, id, token, reason) => if Current(s, id, token) then Done else LeaseLost
    case Replay(now, id) => if id in s.tasks && s.tasks[id].phase.Failed? then Done else NotFound
    case ListFailed(now, limit) => Listed(EarliestFailed(s, limit))
    case Prune(_, _, _) => Done
    case Decline(_, why) => Refused(why)
  }

  // ------------------------------------------------------------------ invariant

  ghost predicate ReadyExact(s: State) {
    NoDup(s.ready) && forall id :: id in s.ready <==> (id in s.tasks && s.tasks[id].phase.Ready?)
  }

  ghost predicate TokensIssued(s: State) {
    forall id :: id in s.tasks && s.tasks[id].phase.Inflight? ==> s.tasks[id].phase.token in s.issued
  }

  ghost predicate TokensDistinct(s: State) {
    forall i, j :: i in s.tasks && j in s.tasks && i != j && s.tasks[i].phase.Inflight? && s.tasks[j].phase.Inflight?
      ==> s.tasks[i].phase.token != s.tasks[j].phase.token
  }

  predicate Budgeted(t: Task) {
    t.retries <= t.deliveries && (t.phase.Inflight? ==> t.retries < t.deliveries)
  }

  ghost predicate Inv(s: State) {
    ReadyExact(s) && TokensIssued(s) && TokensDistinct(s)
    && forall id :: id in s.tasks ==> Budgeted(s.tasks[id]) && ValidId(id) && s.tasks[id].data != []
  }

  lemma PromoteKeepsInv(s: State, now: int, promoted: seq<Id>)
    requires Inv(s) && Promotable(s, now, promoted)
    ensures Inv(Promote(s, promoted))
  {
    var p := Promote(s, promoted);
    forall i, j | 0 <= i < j < |p.ready| ensures p.ready[i] != p.ready[j] {
      if i < |s.ready| <= j {
        assert p.ready[j] == promoted[j - |s.ready|];
        assert Due(s, now, p.ready[j]) && p.ready[i] in s.ready;
      }
    }
    forall id ensures id in p.ready <==> (id in p.tasks && p.tasks[id].phase.Ready?) {
      assert id in p.ready <==> id in s.ready || id in promoted;
    }
  }

  lemma ClaimKeepsInv(o: Options, s: State, id: Id, token: Token, now: int)
    requires Inv(s) && token !in s.issued && id in s.tasks && s.tasks[id].phase.Inflight?
    ensures Inv(Claim(o, s, id, token, now))
  {
  }

  lemma ClaimHeadKeepsInv(o: Options, s: State, token: Token, now: int)
    requires Inv(s) && token !in s.issued && s.ready != []
    ensures s.ready[0] in s.tasks
    ensures Inv(Claim(o, s.(ready := s.ready[1..]), s.ready[0], token, now))
  {
    var head := s.ready[0];
    assert head in s.ready;
    var c := Claim(o, s.(ready := s.ready[1..]), head, token, now);
    forall id ensures id in c.ready <==> (id in c.tasks && c.tasks[id].phase.Ready?) {
      assert s.ready == [head] + s.ready[1..];
      if id in c.ready {
        var k :| 0 <= k < |c.ready| && c.ready[k] == id;
        assert s.ready[k + 1] == id && s.ready[0] != s.ready[k + 1];
      }
    }
  }

  lemma AppendReadyKeepsExact(ready: seq<Id>, id: Id)
    requires NoDup(ready) && id !in ready
    ensures NoDup(ready + [id]) && forall j :: j in ready + [id] <==> j in ready || j == id
  {
  }

  // The effect of settling or renewing with the current token, spelled out.
  lemma CurrentNext(o: Options, s: State, now: int, id: Id, token: Token, delay: nat, reason: string)
    requires Current(s, id, token)
    ensures var t := s.tasks[id];
      && Next(o, s, Event.Renew(now, id, token))
         == s.(tasks := s.tasks[id := t.(phase := Inflight(token, now + o.lease))])
      && Next(o, s, Event.Retry(now, id, token, delay, reason))
         == s.(tasks := s.tasks[id := t.(phase := Delayed(now + delay), retries := t.retries + 1, reason := reason)])
      && Next(o, s, Event.Fail(now, id, token, reason))
         == s.(tasks := s.tasks[id := t.(phase := Failed(now), reason := reason)])
      && Next(o, s, Event.Ack(now, id, token))
         == s.(tasks := s.tasks - {id},
               done := if t.dedup && o.dedupWindow > 0 then s.done[id := Tombstone(Digest(t.data), now + o.dedupWindow)]
                   else s.done)
    ensures forall e :: e in [Event.Ack(now, id, token), Event.Renew(now, id, token),
                              Event.Retry(now, id, token, delay, reason), Event.Fail(now, id, token, reason)] ==>
      ReplyTo(o, s, e) == Done
  {
  }

  // Settling or renewing with any other token has no effect.
  lemma StaleNext(o: Options, s: State, now: int, id: Id, token: Token, delay: nat, reason: string)
    requires !Current(s, id, token)
    ensures forall e :: e in [Event.Ack(now, id, token), Event.Renew(now, id, token),
                              Event.Retry(now, id, token, delay, reason), Event.Fail(now, id, token, reason)] ==>
      Next(o, s, e) == s && ReplyTo(o, s, e) == if e.Ack? && id !in s.tasks then Done else LeaseLost
  {
  }

  // The four outcomes of a Receive, spelled out.
  lemma ReceiveNext(o: Options, s: State, now: int, token: Token, promoted: seq<Id>, outcome: Outcome)
    requires token !in s.issued && Promotable(s, now, promoted)
    requires outcome.Aborted? || promoted != [] || NoneDue(s, now)
    requires Chosen(Promote(s, promoted), now, outcome)
    ensures var e, p := Event.Receive(now, token, promoted, outcome), Promote(s, promoted);
      && Enabled(o, s, e)
      && (outcome.Nothing? ==> Next(o, s, e) == p && ReplyTo(o, s, e) == QueueEmpty)
      && (outcome.Aborted? ==> Next(o, s, e) == p && ReplyTo(o, s, e) == Refused(outcome.why))
      && (outcome.Recovered? ==>
            && Next(o, s, e) == Claim(o, p, outcome.id, token, now)
            && ReplyTo(o, s, e) == Delivered(DeliveryOf(Next(o, s, e), outcome.id, true)))
      && (outcome.Fresh? ==>
            && Next(o, s, e) == Claim(o, p.(ready := p.ready[1..]), p.ready[0], token, now)
            && ReplyTo(o, s, e) == Delivered(DeliveryOf(Next(o, s, e), p.ready[0], false)))
  {
  }

  // What a Receive does to one task: it is the delivered one, a promoted one, or as before.
  lemma ReceiveEffect(o: Options, s: State, e: Event, id: Id)
    requires ReadyExact(s) && Enabled(o, s, e) && e.Receive? && id in s.tasks
    ensures id in Next(o, s, e).tasks
    ensures var t, u, reply := s.tasks[id], Next(o, s, e).tasks[id], ReplyTo(o, s, e);
            if reply.Delivered? && reply.delivery.id == id then
              u == t.(phase := Inflight(e.token, e.now + o.lease), deliveries := t.deliveries + 1)
              && (t.phase.Inflight? ==> t.phase.leaseUntil <= e.now)
            else if id in e.promoted then u == t.(phase := Ready) && Due(s, e.now, id)
            else u == t
  {
    ReceiveNext(o, s, e.now, e.token, e.promoted, e.outcome);
    hide Next, ReplyTo, Enabled, NoneDue, NoneExpired;
    if e.outcome.Fresh? {
      PromotedHead(s, e.now, e.promoted, id);
    }
  }

  lemma PromotedHead(s: State, now: int, promoted: seq<Id>, id: Id)
    requires ReadyExact(s) && Promotable(s, now, promoted) && id in s.tasks && Promote(s, promoted).ready != []
    ensures Promote(s, promoted).ready[0] == id ==> Promote(s, promoted).tasks[id].phase.Ready?
  {
    var p := Promote(s, promoted);
    assert p.ready[0] in s.ready || p.ready[0] in promoted;
  }

  lemma ReceiveKeepsInv(o: Options, s: State, e: Event)
    requires Inv(s) && Enabled(o, s, e) && e.Receive?
    ensures Inv(Next(o, s, e))
  {
    var p := Promote(s, e.promoted);
    PromoteKeepsInv(s, e.now, e.promoted);
    ReceiveNext(o, s, e.now, e.token, e.promoted, e.outcome);
    hide Inv, Next, Promote, ReplyTo;
    match e.outcome {
      case Recovered(id) => ClaimKeepsInv(o, p, id, e.token, e.now);
      case Fresh => ClaimHeadKeepsInv(o, p, e.token, e.now);
      case _ =>
    }
  }

  lemma AppendKeepsInv(s: State, id: Id, t: Task)
    requires Inv(s) && (id in s.tasks ==> !s.tasks[id].phase.Ready?)
    requires t.phase.Ready? && Budgeted(t) && ValidId(id) && t.data != []
    ensures Inv(s.(tasks := s.tasks[id := t], ready := s.ready + [id]))
  {
    AppendReadyKeepsExact(s.ready, id);
  }

  /** Every step keeps the invariant. */
  lemma NextKeepsInv(o: Options, s: State, e: Event)
    requires Inv(s) && Enabled(o, s, e)
    ensures Inv(Next(o, s, e))
  {
    match e
    case Receive(_, _, _, _) => ReceiveKeepsInv(o, s, e);
    case Enqueue(now, id, data, dedup) =>
      if Admission(s, now, id, data, dedup).Accepted? {
        AppendKeepsInv(s, id, Task(data, dedup, Ready, 0, 0, ""));
      }
    case Replay(now, id) =>
      if id in s.tasks && s.tasks[id].phase.Failed? {
        AppendKeepsInv(s, id, s.tasks[id].(phase := Ready, retries := 0));
      }
    case _ =>
  }
}
