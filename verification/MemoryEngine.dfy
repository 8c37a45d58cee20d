/** The in-process engine: a map of mutable messages, a FIFO slice of ids and the tombstones. Every method
    is one critical section; its contract says which steps of the task machine it takes. */
module MemoryEngine {
  import opened Basics
  import opened Ranking
  import opened TaskMachine
  import opened Runs

  datatype MemState = MemReady | MemInflight | MemDelayed | MemFailed

  class MemMsg {
    const id: Id
    const data: Bytes
    const hash: Digest
    const dedup: bool
    var state: MemState
    var token: Token
    var deliveries: nat
    var retries: nat
    var leaseUntil: int
    var due: int
    var reason: string
    var failedAt: int

    constructor (id: Id, data: Bytes, hash: Digest, dedup: bool)
      ensures this.id == id && this.data == data && this.hash == hash && this.dedup == dedup
      ensures View() == Task(data, dedup, Ready, 0, 0, "")
    {
      this.id, this.data, this.hash, this.dedup := id, data, hash, dedup;
      state, token, deliveries, retries := MemReady, "", 0, 0;
      leaseUntil, due, reason, failedAt := 0, 0, "", 0;
    }

    method Extend(leaseUntil: int)
      requires state == MemInflight
      modifies this
      ensures View() == old(View()).(phase := Inflight(old(token), leaseUntil))
    {
      this.leaseUntil := leaseUntil;
    }

    // The field writes of Retry and Fail.
    method Postpone(due: int, reason: string)
      modifies this
      ensures View() == old(View()).(phase := Delayed(due), retries := old(View()).retries + 1, reason := reason)
    {
      state, token, this.reason := MemDelayed, "", reason;
      retries := retries + 1;
      this.due := due;
    }

    method Retain(failedAt: int, reason: string)
      modifies this
      ensures View() == old(View()).(phase := Failed(failedAt), reason := reason)
    {
      state, token, this.reason := MemFailed, "", reason;
      this.failedAt := failedAt;
    }

    ghost function View(): Task
      reads this
    {
      var phase := match state
        case MemReady => Ready
        case MemInflight => Inflight(token, leaseUntil)
        case MemDelayed => Delayed(due)
        case MemFailed => Failed(failedAt);
      Task(data, dedup, phase, deliveries, retries, reason)
    }
  }

  function AgedIds(o: Options, s: State, now: int): set<Id> {
    set id | id in s.tasks && Aged(o, s, now, id)
  }

  function ExpiredIds(s: State, now: int): set<Id> {
    set id | id in s.done && s.done[id].until <= now
  }

  // The prune that drops everything droppable, and the state it leaves.
  function PruneAll(o: Options, s: State, now: int): Event {
    Prune(now, AgedIds(o, s, now), ExpiredIds(s, now))
  }

  function Pruned(o: Options, s: State, now: int): State {
    s.(tasks := s.tasks - AgedIds(o, s, now), done := s.done - ExpiredIds(s, now))
  }

  lemma FewerKeys<V>(a: map<Id, V>, b: map<Id, V>)
    requires a.Keys <= b.Keys
    ensures |a| <= |b|
  {
    assert b.Keys == a.Keys + (b.Keys - a.Keys);
  }

  // Only an Enqueue adds a task.
  lemma NoneAdded(o: Options, s: State, e: Event)
    requires Enabled(o, s, e) && !e.Enqueue?
    ensures |Next(o, s, e).tasks| <= |s.tasks|
  {
    if e.Receive? {
      ReceiveNext(o, s, e.now, e.token, e.promoted, e.outcome);
    }
    FewerKeys(Next(o, s, e).tasks, s.tasks);
  }

  lemma OneKeyMore<V>(m: map<Id, V>, id: Id, v: V)
    requires id !in m
    ensures |m[id := v]| == |m| + 1
  {
    assert m[id := v].Keys == m.Keys + {id};
  }

  lemma OneAdded(o: Options, s: State, e: Event)
    requires Enabled(o, s, e) && e.Enqueue?
    ensures var t := Next(o, s, e);
            if Admission(s, e.now, e.id, e.data, e.dedup).Accepted? then |t.tasks| == |s.tasks| + 1 else t == s
  {
    if Admission(s, e.now, e.id, e.data, e.dedup).Accepted? {
      OneKeyMore(s.tasks, e.id, Task(e.data, e.dedup, Ready, 0, 0, ""));
    }
  }

  // No tombstone past its window and no task that failed the retention or longer ago.
  ghost predicate Swept(o: Options, s: State, now: int) {
    && (forall id :: id in s.tasks && s.tasks[id].phase.Failed? && o.retention > 0 ==>
          now - s.tasks[id].phase.at < o.retention)
    && (forall id :: id in s.done ==> now < s.done[id].until)
  }

  // The tasks that are younger.
  ghost function Remaining(o: Options, s: State, now: int): set<Id> {
    set id | id in s.tasks
             && !(s.tasks[id].phase.Failed? && o.retention > 0 && now - s.tasks[id].phase.at >= o.retention)
  }

  // A prune sweeps the state and takes nothing else.
  lemma PrunedIsSwept(o: Options, s: State, now: int)
    ensures Swept(o, Pruned(o, s, now), now) && Pruned(o, s, now).tasks.Keys == Remaining(o, s, now)
    ensures forall id :: id in Pruned(o, s, now).tasks ==> Pruned(o, s, now).tasks[id] == s.tasks[id]
    ensures forall id :: id in Pruned(o, s, now).done <==> id in s.done && now < s.done[id].until
    ensures |Pruned(o, s, now).tasks| == |Remaining(o, s, now)| <= |s.tasks|
  {
    FewerKeys(Pruned(o, s, now).tasks, s.tasks);
  }

  // Neither claiming nor enqueueing makes a task old.
  lemma SweptStays(o: Options, s: State, e: Event)
    requires Inv(s) && Enabled(o, s, e) && (e.Enqueue? || e.Receive?) && Swept(o, s, e.now)
    ensures Swept(o, Next(o, s, e), e.now)
  {
    if e.Receive? {
      ReceiveNext(o, s, e.now, e.token, e.promoted, e.outcome);
      forall id | id in Next(o, s, e).tasks && Next(o, s, e).tasks[id].phase.Failed?
        ensures id in s.tasks && s.tasks[id].phase == Next(o, s, e).tasks[id].phase
      {
        FailedInstant(o, s, e, id);
      }
    }
  }

  lemma SweptAfter(o: Options, before: State, e: Event)
    requires Inv(before) && Enabled(o, Pruned(o, before, e.now), e) && (e.Enqueue? || e.Receive?)
    ensures Swept(o, Next(o, Pruned(o, before, e.now), e), e.now)
  {
    hide Next, Enabled, Inv, Pruned, Swept;
    PruneIsStep(o, before, e.now);
    NextKeepsInv(o, before, PruneAll(o, before, e.now));
    PrunedIsSwept(o, before, e.now);
    SweptStays(o, Pruned(o, before, e.now), e);
  }

  lemma InvReady(s: State)
    requires Inv(s)
    ensures ReadyExact(s)
  {
  }

  // Promoting every due retry satisfies the rule that a Receive promotes one if there is one.
  lemma PromotesAll(s: State, now: int, promoted: seq<Id>)
    requires forall id :: Due(s, now, id) ==> id in promoted
    ensures promoted != [] || NoneDue(s, now)
  {
  }

  lemma NotCurrent(s: State, id: Id, token: Token)
    requires id !in s.tasks
    ensures !Current(s, id, token)
  {
  }

  lemma EnqueueEnabled(o: Options, s: State, now: int, id: Id, data: Bytes, dedup: bool)
    requires ValidId(id) && data != []
    ensures Enabled(o, s, Event.Enqueue(now, id, data, dedup))
  {
  }

  lemma PruneIsStep(o: Options, s: State, now: int)
    ensures Enabled(o, s, PruneAll(o, s, now)) && Next(o, s, PruneAll(o, s, now)) == Pruned(o, s, now)
  {
  }

  class MemoryEngine {
    const opts: Options
    const capacity: nat
    var msgs: map<Id, MemMsg>
    var ready: seq<Id>
    var done: map<Id, Tombstone>
    var closed: bool
    // Every token ever handed out, and the steps taken so far.
    ghost var issued: set<Token>
    ghost var run: Run

    ghost predicate Shape()
      reads `msgs, msgs.Values
    {
      forall id :: id in msgs ==> msgs[id].id == id && msgs[id].hash == Digest(msgs[id].data)
    }

    ghost function Tasks(): map<Id, Task>
      reads `msgs, msgs.Values
    {
      map id | id in msgs :: msgs[id].View()
    }

    ghost function Abs(): State
      reads `msgs, `ready, `done, `issued, msgs.Values
    {
      State(Tasks(), ready, done, issued)
    }

    ghost predicate Valid()
      reads this, msgs.Values
    {
      Shape() && Lawful(opts, run) && run.Last() == Abs() && Fits(Abs())
    }

    // No more tasks than the queue has room for.
    ghost predicate Fits(s: State) {
      capacity > 0 ==> |s.tasks| <= capacity
    }

    lemma AbsInv()
      requires Valid()
      ensures Inv(Abs())
    {
      InvAlong(opts, run, |run.states| - 1);
    }

    // Only the message of id was removed.
    twostate lemma OneGone(id: Id)
      requires msgs == old(msgs) - {id} && unchanged(old(msgs).Values)
      ensures Tasks() == old(Tasks()) - {id} && msgs.Values <= old(msgs.Values)
      ensures old(Shape()) ==> Shape()
    {
    }

    // Only the message m was written.
    twostate lemma OneChanged(m: MemMsg)
      requires unchanged(`msgs) && Shape() && m.id in msgs && msgs[m.id] == m
      requires forall id :: id in msgs && id != m.id ==> old(msgs[id].View()) == msgs[id].View()
      ensures Tasks() == old(Tasks())[m.id := m.View()]
    {
    }

    constructor (opts: Options, capacity: nat)
      requires ValidOptions(opts)
      ensures Valid() && this.opts == opts && this.capacity == capacity && !closed
      ensures msgs == map[] && Abs() == EMPTY && run == Run([EMPTY], [])
    {
      this.opts, this.capacity := opts, capacity;
      msgs, ready, done, closed := map[], [], map[], false;
      issued, run := {}, Run([EMPTY], []);
    }

    // Appends a step that the fields already show.
    ghost method Record(e: Event, before: State)
      requires Shape() && Lawful(opts, run) && run.Last() == before && Reached(run, e.now)
      requires Enabled(opts, before, e) && Abs() == Next(opts, before, e)
      requires Fits(before) && !e.Enqueue?
      modifies `run
      ensures Valid() && Reached(run, e.now) && Grew(old(run), run, [e])
    {
      hide Next, Enabled, Lawful, Shape, Tasks;
      NoneAdded(opts, before, e);
      ExtendLawful(opts, run, e);
      run := Extended(opts, run, e);
    }

    // Appends the prune a call begins with, then the step of the call itself.
    ghost method RecordBoth(now: int, e: Event, before: State)
      requires Shape() && Lawful(opts, run) && run.Last() == before && Reached(run, now) && e.now == now
      requires Enabled(opts, Pruned(opts, before, now), e) && Abs() == Next(opts, Pruned(opts, before, now), e)
      requires Fits(before) && (e.Enqueue? ==> Fits(Abs()))
      modifies `run
      ensures Valid() && Reached(run, now) && Grew(old(run), run, [PruneAll(opts, before, now), e])
    {
      hide Next, Enabled, Lawful, Shape, Tasks, Grew, Pruned;
      var prune := PruneAll(opts, before, now);
      PruneIsStep(opts, before, now);
      PrunedIsSwept(opts, before, now);
      if !e.Enqueue? {
        NoneAdded(opts, Pruned(opts, before, now), e);
      }
      ExtendLawful(opts, run, prune);
      var r := Extended(opts, run, prune);
      ExtendLawful(opts, r, e);
      GrewTwice(run, r, Extended(opts, r, e), prune, e);
      run := Extended(opts, r, e);
    }

    method ForgetExpired(now: int)
      modifies `done
      ensures done == old(done) - set id | id in old(done) && old(done)[id].until <= now
    {
      var todo := done.Keys;
      while todo != {}
        invariant todo <= done.Keys <= old(done).Keys
        invariant forall id :: id in done ==> done[id] == old(done)[id]
        invariant forall id :: id in old(done) && id !in todo ==> (id in done <==> now < old(done)[id].until)
        decreases todo
      {
        var id :| id in todo;
        if now >= done[id].until {
          done := done - {id};
        }
        todo := todo - {id};
      }
    }

    method DropAged(now: int)
      requires opts.retention > 0
      modifies `msgs
      ensures msgs == old(msgs) - AgedIds(opts, old(Abs()), now)
    {
      ghost var s := Abs();
      var todo := msgs.Keys;
      while todo != {}
        invariant todo <= msgs.Keys <= old(msgs).Keys
        invariant forall id :: id in msgs ==> msgs[id] == old(msgs)[id]
        invariant forall id :: id in old(msgs) && id !in todo ==> (id in msgs <==> !Aged(opts, s, now, id))
        decreases todo
      {
        var id :| id in todo;
        var m := msgs[id];
        if m.state == MemFailed && now - m.failedAt >= opts.retention {
          msgs := msgs - {id};
        }
        todo := todo - {id};
      }
    }

    method PruneLocked(now: int)
      requires Shape()
      modifies `msgs, `done
      ensures Shape() && msgs.Values <= old(msgs.Values)
      ensures Abs() == Pruned(opts, old(Abs()), now)
    {
      ghost var s := Abs();
      ForgetExpired(now);
      if opts.retention > 0 {
        DropAged(now);
      } else {
        assert AgedIds(opts, s, now) == {};
      }
      assert Tasks() == s.tasks - AgedIds(opts, s, now);
    }

    method Insert(id: Id, data: Bytes, h: Digest, dedup: bool)
      requires Shape() && id !in msgs && h == Digest(data)
      modifies `msgs, `ready
      ensures Shape() && fresh(msgs.Values - old(msgs.Values))
      ensures Tasks() == old(Tasks())[id := Task(data, dedup, Ready, 0, 0, "")] && ready == old(ready) + [id]
    {
      var m := new MemMsg(id, data, h, dedup);
      msgs := msgs[id := m];
      ready := ready + [id];
    }

    method Admit(now: int, id: Id, data: Bytes, dedup: bool) returns (reply: Reply)
      requires Shape() && (forall j :: j in done ==> now < done[j].until)
      modifies `msgs, `ready
      ensures Shape() && fresh(msgs.Values - old(msgs.Values))
      ensures reply == Bounded(old(Abs()), Admission(old(Abs()), now, id, data, dedup))
      ensures reply != Accepted ==> Abs() == old(Abs())
      ensures reply == Accepted ==> Tasks() == old(Tasks())[id := Task(data, dedup, Ready, 0, 0, "")]
                                    && ready == old(ready) + [id]
    {
      var h := Digest(data);
      assert Abs().tasks.Keys == msgs.Keys;
      if id in msgs {
        reply := if msgs[id].hash == h then Duplicate else Conflict;
      } else if dedup && id in done {
        reply := if done[id].hash == h then Duplicate else Conflict;
      } else if capacity > 0 && |msgs| >= capacity {
        reply := Refused(QueueFull);
      } else {
        Insert(id, data, h, dedup);
        reply := Accepted;
      }
    }

    // Only the memory engine limits the number of stored tasks.
    ghost function Bounded(s: State, reply: Reply): Reply {
      if reply == Accepted && capacity > 0 && |s.tasks| >= capacity then Refused(QueueFull) else reply
    }

    method EnqueueLocked(now: int, id: Id, data: Bytes, dedup: bool) returns (reply: Reply)
      requires Shape() && ValidId(id) && data != []
      modifies `msgs, `ready, `done
      ensures Shape() && fresh(msgs.Values - old(msgs.Values))
      ensures var s := Pruned(opts, old(Abs()), now);
              && reply == Bounded(s, Admission(s, now, id, data, dedup))
              && Abs() == if reply.Refused? then s else Next(opts, s, Event.Enqueue(now, id, data, dedup))
    {
      PruneLocked(now);
      reply := Admit(now, id, data, dedup);
    }

    method Enqueue(ctxErr: bool, now: int, id: Id, data: Bytes, dedup: bool) returns (reply: Reply)
      requires Valid() && Reached(run, now)
      modifies this
      ensures Valid() && Reached(run, now) && fresh(msgs.Values - old(msgs.Values))
      ensures var s, prune := Pruned(opts, old(Abs()), now), PruneAll(opts, old(Abs()), now);
              if !ValidId(id) then reply == Refused(InvalidId) && Grew(old(run), run, [])
              else if data == [] then reply == Refused(ItemEmpty) && Grew(old(run), run, [])
              else if ctxErr then reply == Refused(Cancelled) && Grew(old(run), run, [])
              else if old(closed) then reply == Refused(EngineClosed) && Grew(old(run), run, [])
              else reply == Bounded(s, Admission(s, now, id, data, dedup))
                   && Grew(old(run), run, if reply.Refused? then [prune]
                      else [prune, Event.Enqueue(now, id, data, dedup)])
      ensures reply == Refused(QueueFull) <==>
              && ValidId(id) && data != [] && !ctxErr && !old(closed)
              && id !in Remaining(opts, old(Abs()), now)
              && !(dedup && id in old(done) && now < old(done)[id].until)
              && capacity > 0 && |Remaining(opts, old(Abs()), now)| == capacity
      ensures (reply.Refused? && reply.why != QueueFull) || Swept(opts, Abs(), now)
    {
      hide Next, Enabled, Inv, Lawful, Shape, Tasks, Pruned, Swept, Remaining;
      if !ValidId(id) {
        reply := Refused(InvalidId);
      } else if |data| == 0 {
        reply := Refused(ItemEmpty);
      } else if ctxErr {
        reply := Refused(Cancelled);
      } else if closed {
        reply := Refused(EngineClosed);
      } else {
        ghost var before := Abs();
        AbsInv();
        PrunedIsSwept(opts, before, now);
        PruneIsStep(opts, before, now);
        reply := EnqueueLocked(now, id, data, dedup);
        if reply.Refused? {
          Record(PruneAll(opts, before, now), before);
        } else {
          ghost var s, e := Pruned(opts, before, now), Event.Enqueue(now, id, data, dedup);
          EnqueueEnabled(opts, s, now, id, data, dedup);
          OneAdded(opts, s, e);
          SweptAfter(opts, before, e);
          RecordBoth(now, e, before);
        }
      }
    }

    method PromoteDue(now: int) returns (ghost promoted: seq<Id>)
      requires Shape()
      modifies `ready, msgs.Values
      ensures Shape()
      ensures Promotable(old(Abs()), now, promoted)
      ensures forall id :: Due(old(Abs()), now, id) ==> id in promoted
      ensures Abs() == Promote(old(Abs()), promoted)
    {
      ghost var s := Abs();
      promoted := [];
      var todo := msgs.Keys;
      assert Abs().tasks == Promote(s, promoted).tasks;
      while todo != {}
        invariant todo <= msgs.Keys && Shape()
        invariant Scanned(s, now, todo, promoted)
        invariant Abs() == Promote(s, promoted)
        decreases todo
      {
        var id :| id in todo;
        var due := PromoteIfDue(now, id);
        PromoteOneMore(s, now, todo, promoted, id);
        if due {
          promoted := promoted + [id];
        }
        todo := todo - {id};
      }
    }

    // The due ids outside todo are exactly those promoted so far.
    static ghost predicate Scanned(s: State, now: int, todo: set<Id>, promoted: seq<Id>) {
      Promotable(s, now, promoted) && forall id :: id in promoted <==> Due(s, now, id) && id !in todo
    }

    static lemma PromoteOneMore(s: State, now: int, todo: set<Id>, promoted: seq<Id>, id: Id)
      requires Scanned(s, now, todo, promoted) && id in todo && id in s.tasks
      ensures Due(Promote(s, promoted), now, id) <==> Due(s, now, id)
      ensures Scanned(s, now, todo - {id}, if Due(s, now, id) then promoted + [id] else promoted)
      ensures Promote(s, promoted + [id])
              == var p := Promote(s, promoted); p.(tasks := p.tasks[id := p.tasks[id].(phase := Ready)],
                  ready := p.ready + [id])
    {
    }

    // One round of the promotion scan.
    method PromoteIfDue(now: int, id: Id) returns (due: bool)
      requires Shape() && id in msgs
      modifies `ready, msgs[id]
      ensures Shape() && due == Due(old(Abs()), now, id)
      ensures !due ==> Abs() == old(Abs())
      ensures due ==> Abs() == old(Abs()).(
        tasks := old(Abs()).tasks[id := old(Abs()).tasks[id].(phase := Ready)], ready := old(ready) + [id])
    {
      var m := msgs[id];
      assert Tasks()[id] == m.View();
      due := m.state == MemDelayed && now >= m.due;
      if due {
        m.state := MemReady;
        ready := ready + [id];
        OneChanged(m);
      }
    }

    // The scan for the expired lease that ran out first; ties fall to the map order.
    method FindExpired(now: int) returns (expired: MemMsg?)
      requires Shape()
      ensures expired == null ==> NoneExpired(Abs(), now)
      ensures expired != null ==> expired.id in msgs && msgs[expired.id] == expired
                                  && EarliestExpired(Abs(), now, expired.id)
    {
      expired := null;
      var todo := msgs.Keys;
      while todo != {}
        invariant todo <= msgs.Keys
        invariant expired != null
                  ==> expired.id in msgs && msgs[expired.id] == expired && Expired(Abs(), now, expired.id)
        invariant forall id :: id in msgs && id !in todo && msgs[id].state == MemInflight && msgs[id].leaseUntil <= now
                               ==> expired != null && expired.leaseUntil <= msgs[id].leaseUntil
        decreases todo
      {
        var id :| id in todo;
        var m := msgs[id];
        if m.state == MemInflight && now >= m.leaseUntil && (expired == null || m.leaseUntil < expired.leaseUntil) {
          expired := m;
        }
        todo := todo - {id};
      }
    }

    method ClaimLocked(m: MemMsg, now: int, token: Token, recovered: bool) returns (d: Delivery)
      requires Shape() && m.id in msgs && msgs[m.id] == m
      modifies m, `issued
      ensures Abs() == Claim(opts, old(Abs()), m.id, token, now)
      ensures d == DeliveryOf(Abs(), m.id, recovered)
    {
      m.state := MemInflight;
      m.token := token;
      m.deliveries := m.deliveries + 1;
      m.leaseUntil := now + opts.lease;
      issued := issued + {token};
      OneChanged(m);
      assert m.View()
          == old(m.View()).(phase := Inflight(token, now + opts.lease), deliveries := old(m.deliveries) + 1);
      d := Delivery(m.id, m.data, m.token, m.deliveries, m.retries, recovered);
    }

    // Takes ids off the front until one still names a ready message; skipped counts those passed over.
    method PopReady() returns (m: MemMsg?, ghost skipped: nat)
      requires Shape()
      modifies `ready
      ensures skipped <= |old(ready)|
      ensures forall i :: 0 <= i < skipped ==> !(old(ready)[i] in msgs && msgs[old(ready)[i]].state == MemReady)
      ensures m == null ==> skipped == |old(ready)| && ready == []
      ensures m != null ==>
        && skipped < |old(ready)| && ready == old(ready)[skipped + 1..]
        && old(ready)[skipped] in msgs && msgs[old(ready)[skipped]] == m && m.state == MemReady
    {
      skipped := 0;
      while |ready| > 0
        invariant skipped <= |old(ready)| && ready == old(ready)[skipped..]
        invariant forall i :: 0 <= i < skipped ==> !(old(ready)[i] in msgs && msgs[old(ready)[i]].state == MemReady)
      {
        var id := ready[0];
        ready := ready[1..];
        if id in msgs && msgs[id].state == MemReady {
          return msgs[id], skipped;
        }
        skipped := skipped + 1;
      }
      m := null;
    }

    /** ready holds the ready ids and nothing else, so the front is never passed over. */
    lemma FrontIsReady()
      requires ReadyExact(Abs())
      ensures forall i :: 0 <= i < |ready| ==> ready[i] in msgs && msgs[ready[i]].state == MemReady
    {
      forall i | 0 <= i < |ready| ensures ready[i] in msgs && msgs[ready[i]].state == MemReady {
        assert ready[i] in Abs().ready;
        assert Abs().tasks[ready[i]] == msgs[ready[i]].View();
      }
    }

    method ClaimReady(now: int, token: Token) returns (reply: Reply)
      requires Shape() && ReadyExact(Abs())
      modifies `ready, `issued, msgs.Values
      ensures old(ready) == [] ==> reply == QueueEmpty && Abs() == old(Abs())
      ensures old(ready) != [] ==>
        var s, head := old(Abs()), old(ready)[0];
        && head in s.tasks
        && Abs() == Claim(opts, s.(ready := s.ready[1..]), head, token, now)
        && reply == Delivered(DeliveryOf(Abs(), head, false))
    {
      FrontIsReady();
      var m, skipped := PopReady();
      if m != null {
        assert skipped == 0;
        var d := ClaimLocked(m, now, token, false);
        return Delivered(d);
      }
      reply := QueueEmpty;
    }

    // Receive once the prune is done.
    method Deliver(now: int, token: Token) returns (reply: Reply, ghost e: Event)
      requires Shape() && Inv(Abs()) && token !in issued
      modifies `ready, `issued, msgs.Values
      ensures Shape()
      ensures e.Receive? && e.now == now && e.token == token && Enabled(opts, old(Abs()), e) && !e.outcome.Aborted?
      ensures forall id :: Due(old(Abs()), now, id) ==> id in e.promoted
      ensures Abs() == Next(opts, old(Abs()), e) && reply == ReplyTo(opts, old(Abs()), e)
    {
      hide Next, ReplyTo, Enabled, Inv, Claim, Promote, Promotable, NoneDue, NoneExpired, EarliestExpired, ReadyExact,
        Tasks;
      ghost var promoted := PromoteDue(now);
      PromoteKeepsInv(old(Abs()), now, promoted);
      InvReady(Abs());
      PromotesAll(old(Abs()), now, promoted);
      var expired := FindExpired(now);
      if expired != null {
        e := Event.Receive(now, token, promoted, Recovered(expired.id));
        var d := ClaimLocked(expired, now, token, true);
        reply := Delivered(d);
      } else {
        e := Event.Receive(now, token, promoted, if ready == [] then Nothing else Fresh);
        reply := ClaimReady(now, token);
      }
      ReceiveNext(opts, old(Abs()), now, token, promoted, e.outcome);
    }

    method ReceiveLocked(now: int, token: Token) returns (reply: Reply, ghost e: Event)
      requires Shape() && Inv(Abs()) && token !in issued
      modifies `msgs, `ready, `done, `issued, msgs.Values
      ensures Shape() && msgs.Values <= old(msgs.Values)
      ensures var s := Pruned(opts, old(Abs()), now);
              && e.Receive? && e.now == now && e.token == token && Enabled(opts, s, e) && !e.outcome.Aborted?
              && (forall id :: Due(s, now, id) ==> id in e.promoted)
              && reply == ReplyTo(opts, s, e) && Abs() == Next(opts, s, e)
    {
      NextKeepsInv(opts, Abs(), PruneAll(opts, Abs(), now));
      PruneLocked(now);
      reply, e := Deliver(now, token);
    }

    method Receive(ctxErr: bool, now: int, token: Token) returns (reply: Reply, ghost e: Event)
      requires Valid() && Reached(run, now)
      requires token !in issued  // crypto/rand never repeats a token
      modifies this, msgs.Values
      ensures Valid() && Reached(run, now) && msgs.Values <= old(msgs.Values)
      ensures var s := Pruned(opts, old(Abs()), now);
              if ctxErr then reply == Refused(Cancelled) && Grew(old(run), run, [])
              else if old(closed) then reply == Refused(EngineClosed) && Grew(old(run), run, [])
              else
                && e.Receive? && e.now == now && e.token == token && Enabled(opts, s, e) && !e.outcome.Aborted?
                && (forall id :: Due(s, now, id) ==> id in e.promoted)
                && reply == ReplyTo(opts, s, e)
                && Grew(old(run), run, [PruneAll(opts, old(Abs()), now), e])
                && Swept(opts, Abs(), now)
    {
      hide Next, Enabled, Inv, Pruned, Lawful, ReplyTo, Shape, Tasks, Swept, Due;
      e := Decline(now, Cancelled);
      if ctxErr {
        reply := Refused(Cancelled);
      } else if closed {
        reply := Refused(EngineClosed);
      } else {
        AbsInv();
        ghost var before := Abs();
        reply, e := ReceiveLocked(now, token);
        SweptAfter(opts, before, e);
        RecordBoth(now, e, before);
      }
    }

    // The message id still holds under this token, or null.
    method Holder(id: Id, token: Token) returns (m: MemMsg?)
      requires Shape()
      ensures m != null <==> Current(Abs(), id, token)
      ensures m != null ==> id in msgs && msgs[id] == m && m.id == id && m.View() == Abs().tasks[id]
                            && m.state == MemInflight && m.token == token
    {
      if id !in msgs || msgs[id].state != MemInflight || msgs[id].token != token {
        return null;
      }
      m := msgs[id];
    }

    method AckLocked(now: int, id: Id, token: Token) returns (reply: Reply)
      requires Shape()
      modifies `msgs, `done
      ensures Shape() && msgs.Values <= old(msgs.Values)
      ensures Abs() == Next(opts, old(Abs()), Event.Ack(now, id, token))
      ensures reply == ReplyTo(opts, old(Abs()), Event.Ack(now, id, token))
    {
      hide Next, ReplyTo, Current;
      ghost var s := Abs();
      if id !in msgs {
        NotCurrent(s, id, token);
        StaleNext(opts, s, now, id, token, 0, "");
        return Done;
      }
      var m := Holder(id, token);
      if m == null {
        StaleNext(opts, s, now, id, token, 0, "");
        return LeaseLost;
      }
      CurrentNext(opts, s, now, id, token, 0, "");
      Forget(m, now);
      reply := Done;
    }

    // The writes of an Ack by the holder of m.
    method Forget(m: MemMsg, now: int)
      requires Shape() && m.id in msgs && msgs[m.id] == m
      modifies `msgs, `done
      ensures Shape() && msgs.Values <= old(msgs.Values)
      ensures Abs() == old(Abs()).(
                tasks := old(Abs()).tasks - {m.id},
                done := if m.dedup && opts.dedupWindow > 0
                        then old(done)[m.id := Tombstone(Digest(m.data), now + opts.dedupWindow)] else old(done))
    {
      if m.dedup && opts.dedupWindow > 0 {
        done := done[m.id := Tombstone(m.hash, now + opts.dedupWindow)];
      }
      msgs := msgs - {m.id};
      OneGone(m.id);
    }

    method Ack(now: int, id: Id, token: Token) returns (reply: Reply)
      requires Valid() && Reached(run, now)
      modifies this
      ensures Valid() && Reached(run, now) && msgs.Values <= old(msgs.Values)
      ensures reply == ReplyTo(opts, old(Abs()), Event.Ack(now, id, token))
      ensures Grew(old(run), run, [Event.Ack(now, id, token)])
    {
      ghost var s := Abs();
      reply := AckLocked(now, id, token);
      Record(Event.Ack(now, id, token), s);
    }

    method RenewLocked(now: int, id: Id, token: Token) returns (reply: Reply)
      requires Shape()
      modifies msgs.Values
      ensures Shape()
      ensures Abs() == Next(opts, old(Abs()), Event.Renew(now, id, token))
      ensures reply == ReplyTo(opts, old(Abs()), Event.Renew(now, id, token))
    {
      hide Next, ReplyTo, Current, MemMsg.View;
      ghost var s := Abs();
      var m := Holder(id, token);
      if m == null {
        StaleNext(opts, s, now, id, token, 0, "");
        return LeaseLost;
      }
      CurrentNext(opts, s, now, id, token, 0, "");
      m.Extend(now + opts.lease);
      OneChanged(m);
      assert m.View() == s.tasks[id].(phase := Inflight(token, now + opts.lease));
      reply := Done;
    }

    method Renew(now: int, id: Id, token: Token) returns (reply: Reply)
      requires Valid() && Reached(run, now)
      modifies `run, msgs.Values
      ensures Valid() && Reached(run, now)
      ensures reply == ReplyTo(opts, old(Abs()), Event.Renew(now, id, token))
      ensures Grew(old(run), run, [Event.Renew(now, id, token)])
    {
      ghost var s := Abs();
      reply := RenewLocked(now, id, token);
      Record(Event.Renew(now, id, token), s);
    }

    method RetryLocked(now: int, id: Id, token: Token, delay: nat, reason: string) returns (reply: Reply)
      requires Shape()
      modifies msgs.Values
      ensures Shape()
      ensures Abs() == Next(opts, old(Abs()), Event.Retry(now, id, token, delay, reason))
      ensures reply == ReplyTo(opts, old(Abs()), Event.Retry(now, id, token, delay, reason))
    {
      hide Next, ReplyTo, Current, MemMsg.View;
      ghost var s := Abs();
      var m := Holder(id, token);
      if m == null {
        StaleNext(opts, s, now, id, token, delay, reason);
        return LeaseLost;
      }
      CurrentNext(opts, s, now, id, token, delay, reason);
      m.Postpone(now + delay, reason);
      OneChanged(m);
      assert m.View()
          == s.tasks[id].(phase := Delayed(now + delay), retries := s.tasks[id].retries + 1, reason := reason);
      reply := Done;
    }

    method Retry(now: int, id: Id, token: Token, delay: int, reason: string) returns (reply: Reply)
      requires Valid() && Reached(run, now)
      modifies `run, msgs.Values
      ensures Valid() && Reached(run, now)
      ensures var e := Event.Retry(now, id, token, if delay < 0 then 0 else delay, reason);
              reply == ReplyTo(opts, old(Abs()), e) && Grew(old(run), run, [e])
    {
      ghost var s := Abs();
      var wait := if delay < 0 then 0 else delay;
      reply := RetryLocked(now, id, token, wait, reason);
      Record(Event.Retry(now, id, token, wait, reason), s);
    }

    method FailLocked(now: int, id: Id, token: Token, reason: string) returns (reply: Reply)
      requires Shape()
      modifies msgs.Values
      ensures Shape()
      ensures Abs() == Next(opts, old(Abs()), Event.Fail(now, id, token, reason))
      ensures reply == ReplyTo(opts, old(Abs()), Event.Fail(now, id, token, reason))
    {
      hide Next, ReplyTo, Current, MemMsg.View;
      ghost var s := Abs();
      var m := Holder(id, token);
      if m == null {
        StaleNext(opts, s, now, id, token, 0, reason);
        return LeaseLost;
      }
      CurrentNext(opts, s, now, id, token, 0, reason);
      m.Retain(now, reason);
      OneChanged(m);
      assert m.View() == s.tasks[id].(phase := Failed(now), reason := reason);
      reply := Done;
    }

    method Fail(now: int, id: Id, token: Token, reason: string) returns (reply: Reply)
      requires Valid() && Reached(run, now)
      modifies `run, msgs.Values
      ensures Valid() && Reached(run, now)
      ensures reply == ReplyTo(opts, old(Abs()), Event.Fail(now, id, token, reason))
      ensures Grew(old(run), run, [Event.Fail(now, id, token, reason)])
    {
      ghost var s := Abs();
      reply := FailLocked(now, id, token, reason);
      Record(Event.Fail(now, id, token, reason), s);
    }

    method ReplayLocked(ghost now: int, id: Id) returns (reply: Reply)
      requires Shape()
      modifies `ready, msgs.Values
      ensures Shape()
      ensures Abs() == Next(opts, old(Abs()), Event.Replay(now, id))
      ensures reply == ReplyTo(opts, old(Abs()), Event.Replay(now, id))
    {
      if id !in msgs || msgs[id].state != MemFailed {
        return NotFound;
      }
      var m := msgs[id];
      ghost var s := Abs();
      m.state, m.retries := MemReady, 0;
      ready := ready + [id];
      OneChanged(m);
      assert m.View() == s.tasks[id].(phase := Ready, retries := 0);
      reply := Done;
    }

    // The code reads no clock here; now only dates the step in the run.
    method ReplayFailed(ghost now: int, id: Id) returns (reply: Reply)
      requires Valid() && Reached(run, now)
      modifies `ready, `run, msgs.Values
      ensures Valid() && Reached(run, now)
      ensures !ValidId(id) ==> reply == Refused(InvalidId) && Grew(old(run), run, [])
      ensures ValidId(id) ==> reply == ReplyTo(opts, old(Abs()), Event.Replay(now, id))
                              && Grew(old(run), run, [Event.Replay(now, id)])
    {
      if !ValidId(id) {
        return Refused(InvalidId);
      }
      ghost var s := Abs();
      reply := ReplayLocked(now, id);
      Record(Event.Replay(now, id), s);
    }

    method Close()
      requires Valid()
      modifies `closed
      ensures Valid() && closed && Abs() == old(Abs())
    {
      closed := true;
    }

    // The failed messages in whatever order the map yields them.
    method CollectFailed() returns (all: seq<MemMsg>)
      requires Shape()
      ensures Distinct(all) && ExactlyFailed(all)
    {
      all := [];
      var todo := msgs.Keys;
      while todo != {}
        invariant todo <= msgs.Keys
        invariant Distinct(all)
        invariant forall m :: m in all ==> m.id in msgs && msgs[m.id] == m && m.state == MemFailed && m.id !in todo
        invariant forall id :: id in msgs && id !in todo && msgs[id].state == MemFailed ==> msgs[id] in all
        decreases todo
      {
        var id :| id in todo;
        var m := msgs[id];
        if m.state == MemFailed {
          all := all + [m];
        }
        todo := todo - {id};
      }
    }

    method SortedFailed() returns (sorted: seq<MemMsg>)
      requires Shape()
      ensures ExactlyFailed(sorted) && Ids(sorted) == Ranked(FailedScores(Abs()))
    {
      var found := CollectFailed();
      var all := new MemMsg[|found|](i requires 0 <= i < |found| => found[i]);
      assert all[..] == found;
      InsertionSort(all);
      sorted := all[..];
      RankedByFailure(sorted);
    }

    /** The earliest failures, by instant and then id, at most limit of them, whatever the map order. */
    method ListFailed(limit: int) returns (reply: Reply)
      requires Shape()
      ensures !(1 <= limit <= MAX_LIST_FAILED) ==> reply == Refused(BadLimit)
      ensures 1 <= limit <= MAX_LIST_FAILED ==> reply == Listed(EarliestFailed(Abs(), limit))
      ensures 1 <= limit <= 1000 ==> reply.Listed? && FirstFailures(Abs(), limit, reply.messages)
    {
      hide Ranked, FailedScores, Shape, FirstFailures;
      if limit < 1 || limit > MAX_LIST_FAILED {
        return Refused(BadLimit);
      }
      var all := SortedFailed();
      if |all| > limit {
        all := all[..limit];
      }
      var out := [];
      for i := 0 to |all|
        invariant |out| == i
        invariant forall k :: 0 <= k < i ==> out[k] == Message(Abs(), all[k].id)
      {
        var m := all[i];
        assert m in all && msgs[m.id] == m && Abs().tasks[m.id] == m.View();
        out := out + [FailedMessage(m.id, m.data, m.deliveries, m.reason, m.failedAt)];
      }
      assert out == EarliestFailed(Abs(), limit);
      EarliestAreFirst(Abs(), limit);
      reply := Listed(out);
    }

    ghost predicate ExactlyFailed(s: seq<MemMsg>)
      reads `msgs, msgs.Values, s
    {
      && (forall m :: m in s ==> m.id in msgs && msgs[m.id] == m && m.state == MemFailed)
      && (forall id :: id in msgs && msgs[id].state == MemFailed ==> msgs[id] in s)
    }

    lemma RankedByFailure(s: seq<MemMsg>)
      requires Shape() && Distinct(s) && Sorted(s) && ExactlyFailed(s)
      ensures Ids(s) == Ranked(FailedScores(Abs()))
    {
      var z, ids := FailedScores(Abs()), Ids(s);
      assert forall id :: id in z <==> id in msgs && msgs[id].state == MemFailed;
      forall i | 0 <= i < |s| ensures ids[i] in z && msgs[ids[i]] == s[i] && z[ids[i]] == s[i].failedAt {
        assert s[i] in s;
      }
      forall id | id in z ensures id in ids {
        var k :| 0 <= k < |s| && s[k] == msgs[id];
        assert ids[k] == id;
      }
      forall i, j | 0 <= i < j < |ids| ensures Before(z[ids[i]], ids[i], z[ids[j]], ids[j]) {
        IdLessTotal(ids[i], ids[j]);
      }
      RankedUnique(z, ids);
    }
  }

  const MAX_LIST_FAILED := 1000

  ghost predicate Distinct(s: seq<MemMsg>) {
    forall i, j :: 0 <= i < j < |s| ==> s[i] != s[j]
  }

  predicate Earlier(x: MemMsg, y: MemMsg)
    reads x, y
  {
    x.failedAt < y.failedAt || (x.failedAt == y.failedAt && IdLess(x.id, y.id))
  }

  ghost predicate Sorted(s: seq<MemMsg>)
    reads s
  {
    forall i, j :: 0 <= i < j < |s| ==> !Earlier(s[j], s[i])
  }

  ghost function Ids(s: seq<MemMsg>): seq<Id> {
    seq(|s|, i requires 0 <= i < |s| => s[i].id)
  }

  lemma EarlierIsOrder(x: MemMsg, y: MemMsg, z: MemMsg)
    ensures Earlier(x, y) ==> !Earlier(y, x)
    ensures !Earlier(y, x) && !Earlier(z, y) ==> !Earlier(z, x)
  {
    IdLessTotal(x.id, y.id);
    IdLessTotal(y.id, z.id);
    IdLessIrreflexive(x.id);
    if Earlier(x, y) && Earlier(y, x) {
      BeforeTransitive(x.failedAt, x.id, y.failedAt, y.id, x.failedAt, x.id);
    }
    if Earlier(z, x) && Earlier(x, y) {
      BeforeTransitive(z.failedAt, z.id, x.failedAt, x.id, y.failedAt, y.id);
    }
  }

  // Sorted up to and including index i, except that the element at j may have to move further down.
  ghost predicate SortedBut(s: seq<MemMsg>, i: int, j: int)
    reads s
  {
    forall a, b :: 0 <= a < b <= i && b < |s| && b != j ==> !Earlier(s[b], s[a])
  }

  lemma SwapDown(s: seq<MemMsg>, i: int, j: int)
    requires 0 < j <= i < |s| && SortedBut(s, i, j) && Earlier(s[j], s[j - 1])
    ensures SortedBut(s[j := s[j - 1]][j - 1 := s[j]], i, j - 1)
  {
    EarlierIsOrder(s[j], s[j - 1], s[j]);
  }

  lemma InPlace(s: seq<MemMsg>, i: int, j: int)
    requires 0 <= j <= i < |s| && SortedBut(s, i, j) && (j > 0 ==> !Earlier(s[j], s[j - 1]))
    ensures SortedBut(s, i, |s|)
  {
    forall a | 0 <= a < j ensures !Earlier(s[j], s[a]) {
      if a < j - 1 {
        EarlierIsOrder(s[a], s[j - 1], s[j]);
      }
    }
  }

  method InsertionSort(all: array<MemMsg>)
    requires Distinct(all[..])
    modifies all
    ensures Distinct(all[..]) && Sorted(all[..])
    ensures forall m :: m in all[..] <==> m in old(all[..])
  {
    var i := 1;
    while i < all.Length
      invariant 1 <= i
      invariant Distinct(all[..]) && SortedBut(all[..], i - 1, all.Length)
      invariant forall m :: m in all[..] <==> m in old(all[..])
    {
      var j := i;
      while j > 0 && Earlier(all[j], all[j - 1])
        invariant 0 <= j <= i < all.Length
        invariant Distinct(all[..]) && SortedBut(all[..], i, j)
        invariant forall m :: m in all[..] <==> m in old(all[..])
      {
        SwapDown(all[..], i, j);
        ghost var s := all[..];
        all[j], all[j - 1] := all[j - 1], all[j];
        assert all[..] == s[j := s[j - 1]][j - 1 := s[j]];
        SwapKeeps(s, j);
        j := j - 1;
      }
      InPlace(all[..], i, j);
      i := i + 1;
    }
  }

  lemma SwapKeeps(s: seq<MemMsg>, j: int)
    requires 0 < j < |s| && Distinct(s)
    ensures Distinct(s[j := s[j - 1]][j - 1 := s[j]])
    ensures forall m :: m in s[j := s[j - 1]][j - 1 := s[j]] <==> m in s
  {
    var t := s[j := s[j - 1]][j - 1 := s[j]];
    forall m | m in s ensures m in t {
      var k :| 0 <= k < |s| && s[k] == m;
      assert t[if k == j then j - 1 else if k == j - 1 then j else k] == m;
    }
  }
}
