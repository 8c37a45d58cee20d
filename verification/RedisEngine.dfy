/** The client of the Redis engine. Clients share nothing but the server, so any number of them may interleave:
    each call extends the one run of the server by the step it took. */
module RedisEngine {
  import opened Basics
  import opened Decimal
  import opened Ranking
  import opened TaskMachine
  import opened Runs
  import opened RedisStore
  import opened RedisStream
  import opened RedisSteps
  import opened RedisReceive
  import opened RedisScripts

  const MAX_LIST_FAILED := 1000

  // The claim is current and its retry counter cannot be incremented.
  predicate RetryAtLimit(r: Run, id: Id, token: Token) {
    r.states != [] && Current(r.Last(), id, token) && r.Last().tasks[id].retries == MAX_INT64
  }

  // The run grew by this step and the reply is the one it calls for.
  ghost predicate Took(o: Options, before: Run, after: Run, e: Event, reply: Reply) {
    && before.states != [] && Enabled(o, before.Last(), e)
    && Grew(before, after, [e]) && reply == ReplyTo(o, before.Last(), e)
  }

  // The tasks a Fail prunes: those that failed earliest, once they are old enough, PRUNE_BATCH of them at most.
  function Oldest(o: Options, s: State, now: int): seq<Id> {
    if o.retention > 0 then RangeByScore(FailedScores(s), now - o.retention, PRUNE_BATCH) else []
  }

  // The tasks that failed the retention or longer ago.
  ghost function Aged(o: Options, s: State, now: int): set<Id> {
    set id | id in s.tasks && s.tasks[id].phase.Failed? && o.retention > 0
             && now - s.tasks[id].phase.at >= o.retention
  }

  lemma AgedInIndex(o: Options, s: State, now: int)
    ensures var z := FailedScores(s);
      && Aged(o, s, now) == (if o.retention > 0 then set k | k in z && z[k] <= now - o.retention else {})
      && forall id :: id in Aged(o, s, now) ==> z[id] == s.tasks[id].phase.at
  {
  }

  lemma OldestCount(o: Options, s: State, now: int)
    ensures var gone, aged := Oldest(o, s, now), Aged(o, s, now);
            NoDup(gone) && |gone| == (if |aged| < 100 then |aged| else 100) && forall id :: id in gone ==> id in aged
  {
    hide IdLess, FailedScores, RangeByScore;
    AgedInIndex(o, s, now);
    RangeLists(FailedScores(s), now - o.retention, PRUNE_BATCH);
  }

  lemma OldestFirst(o: Options, s: State, now: int, id: Id, j: Id)
    requires id in Aged(o, s, now) && id !in Oldest(o, s, now) && j in Aged(o, s, now) && j in Oldest(o, s, now)
    ensures s.tasks[j].phase.at < s.tasks[id].phase.at
            || (s.tasks[j].phase.at == s.tasks[id].phase.at && IdLess(j, id))
  {
    hide IdLess, FailedScores, RangeByScore;
    AgedInIndex(o, s, now);
    RangeLists(FailedScores(s), now - o.retention, PRUNE_BATCH);
    var gone := Oldest(o, s, now);
    var i :| 0 <= i < |gone| && gone[i] == j;
  }

  /** The prune after a Fail takes aged tasks, 100 at most, and an aged task it leaves failed after all it takes. */
  lemma OldestAre(o: Options, s: State, now: int)
    ensures var gone, aged := Oldest(o, s, now), Aged(o, s, now);
      && NoDup(gone) && |gone| == (if |aged| < 100 then |aged| else 100)
      && (forall id :: id in gone ==> id in aged)
      && forall id, j :: id in aged && id !in gone && j in gone ==>
           s.tasks[j].phase.at < s.tasks[id].phase.at
           || (s.tasks[j].phase.at == s.tasks[id].phase.at && IdLess(j, id))
  {
    hide IdLess, Oldest;
    OldestCount(o, s, now);
    forall id, j | id in Aged(o, s, now) && id !in Oldest(o, s, now) && j in Oldest(o, s, now)
      ensures s.tasks[j].phase.at < s.tasks[id].phase.at
              || (s.tasks[j].phase.at == s.tasks[id].phase.at && IdLess(j, id))
    {
      OldestFirst(o, s, now, id, j);
    }
  }

  // A Fail that took effect is followed by the prune of the oldest failures.
  ghost predicate FailTook(o: Options, before: Run, after: Run, e: Event, reply: Reply) {
    && e.Fail? && before.states != [] && reply == ReplyTo(o, before.Last(), e)
    && Grew(before, after,
            if reply == Done then [e, Event.Prune(e.now, Members(Oldest(o, before.Last(), e.now)), {})] else [e])
  }

  class RedisStreamEngine {
    const server: RedisServer

    constructor (server: RedisServer)
      ensures this.server == server
    {
      this.server := server;
    }

    method Enqueue(now: int, id: Id, data: Bytes, dedup: bool) returns (reply: Reply)
      requires server.Valid() && Reached(server.run, now)
      modifies server
      ensures server.Valid() && Reached(server.run, now)
      ensures var e := Event.Enqueue(now, id, data, dedup);
              if !ValidId(id) then reply == Refused(InvalidId) && server.run == old(server.run)
              else if data == [] then reply == Refused(ItemEmpty) && server.run == old(server.run)
              else Took(server.opts, old(server.run), server.run, e, reply)
    {
      hide Coherent, Abs, Next, ReplyTo, Lawful, Reached, Grew, Enabled, ViewOf, Held, AckedFrom, ReplayedFrom;
      server.RunBegins();
      if !ValidId(id) {
        return Refused(InvalidId);
      }
      if |data| == 0 {
        return Refused(ItemEmpty);
      }
      ghost var was := server.Db();
      reply := server.EnqueueScript(now, id, data, dedup);
      server.Record(Event.Enqueue(now, id, data, dedup), was, server.issued);
    }

    /** token is what newToken returned: never used before. promoted and outcome are the step's choices. */
    method Receive(now: int, token: Token) returns (reply: Reply, ghost e: Event)
      requires server.Valid() && Reached(server.run, now) && token !in server.issued
      modifies server
      ensures server.Valid() && Reached(server.run, now)
      ensures e.Receive? && e.now == now && e.token == token && Enabled(server.opts, old(server.run).Last(), e)
      ensures Grew(old(server.run), server.run, [e]) && Reports(reply, ReplyTo(server.opts, old(server.run).Last(), e))
      ensures reply.Refused? <==> Blocked(old(server.run).Last(), now)
      ensures PromotesDue(old(server.run).Last(), now, e.promoted) || (reply.Refused? && e.promoted == [])
    {
      hide PromotesDue, Coherent, Abs, Next, ReplyTo, Lawful, Reached, Grew, Enabled, Reports, Blocked;
      ghost var was, held := server.Db(), server.issued;
      ghost var who;
      reply, who, e := server.ReceiveScript(now, token);
      ReceiveAnswer(server.opts, was, held, server.Db(), server.issued, now, token, reply, e);
      server.Record(e, was, held);
    }

    method Ack(now: int, id: Id, token: Token) returns (reply: Reply)
      requires server.Valid() && Reached(server.run, now)
      modifies server
      ensures server.Valid() && Reached(server.run, now)
      ensures Took(server.opts, old(server.run), server.run, Event.Ack(now, id, token), reply)
    {
      hide Coherent, Abs, Next, ReplyTo, Lawful, Reached, Grew, Enabled, ViewOf, Held, AckedFrom, ReplayedFrom;
      server.RunBegins();
      ghost var was := server.Db();
      reply := server.AckScript(now, id, token);
      server.Record(Event.Ack(now, id, token), was, server.issued);
    }

    method Renew(now: int, id: Id, token: Token) returns (reply: Reply)
      requires server.Valid() && Reached(server.run, now)
      modifies server
      ensures server.Valid() && Reached(server.run, now)
      ensures Took(server.opts, old(server.run), server.run, Event.Renew(now, id, token), reply)
    {
      hide Coherent, Abs, Next, ReplyTo, Lawful, Reached, Grew, Enabled, ViewOf, Held, AckedFrom, ReplayedFrom;
      server.RunBegins();
      ghost var was := server.Db();
      reply := server.RenewScript(now, id, token);
      server.Record(Event.Renew(now, id, token), was, server.issued);
    }

    method Retry(now: int, id: Id, token: Token, delay: int, reason: string) returns (reply: Reply)
      requires server.Valid() && Reached(server.run, now)
      modifies server
      ensures server.Valid() && Reached(server.run, now)
      ensures if RetryAtLimit(old(server.run), id, token)
              then reply == Refused(CorruptRecord) && server.run == old(server.run)
              else Took(server.opts, old(server.run), server.run,
                        Event.Retry(now, id, token, if delay < 0 then 0 else delay, reason), reply)
    {
      hide Coherent, Abs, Next, ReplyTo, Lawful, Reached, Grew, Enabled, ViewOf, Held, RetriedFrom, Current;
      server.RunBegins();
      var wait := if delay < 0 then 0 else delay;
      ghost var was := server.Db();
      reply := server.RetryScript(now, id, token, wait, reason);
      if !reply.Refused? {
        server.Record(Event.Retry(now, id, token, wait, reason), was, server.issued);
      }
    }

    method Fail(now: int, id: Id, token: Token, reason: string) returns (reply: Reply)
      requires server.Valid() && Reached(server.run, now)
      modifies server
      ensures server.Valid() && Reached(server.run, now)
      ensures FailTook(server.opts, old(server.run), server.run, Event.Fail(now, id, token, reason), reply)
    {
      hide Coherent, Abs, Next, ReplyTo, Lawful, Reached, Grew, Enabled, ViewOf, Held, RetainedFrom, DroppedFrom,
        RangeByScore, FailedScores;
      server.RunBegins();
      FailedIndexIsScores(server.Db(), server.issued);
      ghost var was, start := server.Db(), server.run;
      ghost var mid, aged;
      reply, mid, aged := server.FailScript(now, id, token, reason);
      if reply == Done {
        server.RecordTwice(Event.Fail(now, id, token, reason), Event.Prune(now, Members(aged), {}), was, mid);
      } else {
        server.Record(Event.Fail(now, id, token, reason), was, server.issued);
      }
    }

    method ListFailed(limit: int) returns (reply: Reply)
      requires server.Valid()
      ensures !(1 <= limit <= MAX_LIST_FAILED) ==> reply == Refused(BadLimit)
      ensures 1 <= limit <= MAX_LIST_FAILED ==> reply == Listed(EarliestFailed(server.run.Last(), limit))
      ensures 1 <= limit <= 1000 ==> reply.Listed? && FirstFailures(server.run.Last(), limit, reply.messages)
    {
      hide EarliestFailed, FirstFailures;
      if limit < 1 || limit > MAX_LIST_FAILED {
        return Refused(BadLimit);
      }
      reply := server.ListFailedScript(limit);
    }

    method ReplayFailed(ghost now: int, id: Id) returns (reply: Reply)
      requires server.Valid() && Reached(server.run, now)
      modifies server
      ensures server.Valid() && Reached(server.run, now)
      ensures var e := Event.Replay(now, id);
              if !ValidId(id) then reply == Refused(InvalidId) && server.run == old(server.run)
              else if ReplayAtLimit(old(server.Db()), id)
                  then reply == Refused(CorruptRecord) && server.run == old(server.run)
              else Took(server.opts, old(server.run), server.run, e, reply)
    {
      hide Coherent, Abs, Next, ReplyTo, Lawful, Reached, Grew, Enabled, ViewOf, Held, AckedFrom, ReplayedFrom;
      server.RunBegins();
      if !ValidId(id) {
        return Refused(InvalidId);
      }
      ghost var was := server.Db();
      reply := server.ReplayScript(now, id);
      if !reply.Refused? {
        server.Record(Event.Replay(now, id), was, server.issued);
      }
    }
  }

  // ------------------------------------------------------------------ no task is ever orphaned

  function Places(ids: seq<Id>): set<Id> {
    set id | id in ids
  }

  lemma {:induction false} PlacesCount(ids: seq<Id>)
    requires NoDup(ids)
    ensures |Places(ids)| == |ids|
    decreases |ids|
  {
    if ids != [] {
      var front, last := ids[..|ids| - 1], ids[|ids| - 1];
      PlacesCount(front);
      assert ids == front + [last] && last !in front;
      assert Places(ids) == Places(front) + {last};
    }
  }

  // A pairing of numbers with ids that is one-to-one and onto.
  lemma {:induction false} PairingCount(entries: set<nat>, owner: map<nat, Id>, ids: set<Id>)
    requires owner.Keys == entries && (forall id :: id in ids ==> exists e :: e in entries && owner[e] == id)
    requires forall e :: e in entries ==> owner[e] in ids
    requires forall e, f :: e in entries && f in entries && owner[e] == owner[f] ==> e == f
    ensures |entries| == |ids|
    decreases entries
  {
    if entries == {} {
      assert ids == {};
    } else {
      var e :| e in entries;
      var rest, others := entries - {e}, ids - {owner[e]};
      forall id | id in others ensures exists f :: f in rest && (owner - {e})[f] == id {
        var f :| f in entries && owner[f] == id;
        assert f in rest;
      }
      PairingCount(rest, owner - {e}, others);
    }
  }

  lemma PendingCount(db: Store)
    requires Coherent(db)
    ensures |db.pel| == |db.leases|
  {
    hide SoundReady, SoundIds, SoundKeys;
    var owner := map e | e in db.pel :: db.delivered[e].value;
    assert forall id :: id in db.leases.Keys ==>
      db.records[id].hash.e.value in db.pel && owner[db.records[id].hash.e.value] == id;
    PairingCount(db.pel, owner, db.leases.Keys);
  }

  lemma ReadyPlaces(db: Store)
    requires Coherent(db)
    ensures forall id :: id in Places(ReadyIds(db.undelivered)) <==> StateIs(db, id, "ready")
    ensures |Places(ReadyIds(db.undelivered))| == |db.undelivered|
  {
    hide SoundPending, SoundIds, SoundKeys, SoundIndexes;
    PlacesCount(ReadyIds(db.undelivered));
  }

  predicate InSomeState(db: Store, id: Id) {
    StateIs(db, id, "ready") || StateIs(db, id, "inflight") || StateIs(db, id, "delayed") || StateIs(db, id, "failed")
  }

  lemma FourStates(db: Store, id: Id)
    requires SoundKeys(db)
    ensures id in db.records <==> InSomeState(db, id)
  {
    hide IsCount;
  }

  lemma PlaceOf(db: Store, id: Id)
    requires Coherent(db)
    ensures id in Places(ReadyIds(db.undelivered)) <==> StateIs(db, id, "ready")
    ensures id in db.leases.Keys <==> StateIs(db, id, "inflight")
    ensures id in db.delayed.Keys <==> StateIs(db, id, "delayed")
    ensures id in db.failed.Keys <==> StateIs(db, id, "failed")
    ensures id in db.records.Keys <==> InSomeState(db, id)
  {
    hide SoundPending, SoundIds, SoundReady, SoundHash, Places;
    FourStates(db, id);
    ReadyPlaces(db);
  }

  lemma DisjointCount<T>(all: set<T>, a: set<T>, b: set<T>, c: set<T>, d: set<T>)
    requires a !! b !! c !! d && all == a + b + c + d
    ensures |all| == |a| + |b| + |c| + |d|
  {
    assert |(a + b) + c| == |a + b| + |c|;
  }

  // The four sets of ids a namespace keeps its tasks in.
  lemma Partition(db: Store)
    requires Coherent(db)
    ensures var ready := Places(ReadyIds(db.undelivered));
            && ready !! db.leases.Keys !! db.delayed.Keys !! db.failed.Keys
            && db.records.Keys == ready + db.leases.Keys + db.delayed.Keys + db.failed.Keys
  {
    hide Coherent, Places, ReadyIds;
    forall id
      ensures id in Places(ReadyIds(db.undelivered)) <==> StateIs(db, id, "ready")
      ensures id in db.leases.Keys <==> StateIs(db, id, "inflight")
      ensures id in db.delayed.Keys <==> StateIs(db, id, "delayed")
      ensures id in db.failed.Keys <==> StateIs(db, id, "failed")
      ensures id in db.records.Keys <==> InSomeState(db, id)
    {
      PlaceOf(db, id);
    }
  }

  /** No task is ever orphaned: the tasks are partitioned into those waiting in the stream, those pending
      under a lease, those in the delayed index and those in the failed index, and the counts add up. */
  lemma Accounted(db: Store)
    requires Coherent(db)
    ensures var ready := Places(ReadyIds(db.undelivered));
            && ready !! db.leases.Keys !! db.delayed.Keys !! db.failed.Keys
            && db.records.Keys == ready + db.leases.Keys + db.delayed.Keys + db.failed.Keys
    ensures |db.records| == |db.undelivered| + |db.pel| + |db.delayed| + |db.failed|
  {
    Partition(db);
    PendingCount(db);
    ReadyPlaces(db);
    hide Coherent, ReadyIds, Places;
    DisjointCount(db.records.Keys, Places(ReadyIds(db.undelivered)), db.leases.Keys, db.delayed.Keys, db.failed.Keys);
  }

  lemma ReceiveAnswer(o: Options, a: Store, i: set<Token>, b: Store, j: set<Token>, now: int, token: Token,
                      reply: Reply, e: Event)
    requires ReceiveStep(o, a, i, b, j, now, token, reply, e)
    ensures Enabled(o, Abs(a, i), e)
  {
    hide Coherent, Abs, Next, Blocked;
  }
}
