/** The writes of each script as one effect on the namespace, and the step of the task machine it is. */
module RedisSteps {
  import opened Basics
  import opened Ranking
  import opened Decimal
  import opened TaskMachine
  import opened RedisStore
  import opened RedisStream
  import opened RedisCoherence

  lemma CheckOnCoherent(db: Store, id: Id, want: string, incN: bool, incR: bool)
    requires SoundKeys(db) && StateIs(db, id, want)
    ensures var hash := db.records[id].hash;
            CheckRecord(hash, want, incN, incR)
            <==> (incN ==> Count(hash.n) < MAX_INT64) && (incR ==> Count(hash.r) < MAX_INT64)
    ensures Count(db.records[id].hash.n) <= MAX_INT64 && Count(db.records[id].hash.r) <= MAX_INT64
  {
    IncFailsOnlyAtMax(db.records[id].hash.n);
    IncFailsOnlyAtMax(db.records[id].hash.r);
  }

  // ------------------------------------------------------------------ promotion of one due retry

  function Promoted(db: Store, id: Id): Store
    requires !db.foreign.ready && !db.foreign.delayed && id in db.records && db.records[id].HashKey?
  {
    Zrem(Hset(Xadd(db, id), id, db.records[id].hash.(s := Some("ready"))), DelayedIndex, id)
  }

  lemma PromotedOnlyAt(db: Store, id: Id)
    requires !db.foreign.ready && !db.foreign.delayed && id in db.records && db.records[id].HashKey?
    ensures OnlyAt(db, Promoted(db, id), id)
  {
    hide SameBut;
    var t := Promoted(db, id);
    MapsAgree(db.records, id, t.records[id]);
    MapsAgree(db.leases, id, 0);
    MapsAgree(db.delayed, id, 0);
    MapsAgree(db.failed, id, 0);
  }

  lemma PromotedTask(db: Store, id: Id)
    requires SoundKeys(db) && StateIs(db, id, "delayed")
    ensures id in Promoted(db, id).records && Promoted(db, id).records[id].HashKey?
    ensures TaskOf(Promoted(db, id), id) == TaskOf(db, id).(phase := Ready)
    ensures SoundHash(Promoted(db, id).records[id].hash)
  {
    hide IsCount, Count;
  }

  lemma PromotedAppends(db: Store, id: Id)
    requires SoundKeys(db) && SoundIndexes(db) && StateIs(db, id, "delayed")
    ensures Appends(db, Promoted(db, id), id)
  {
    hide OnlyAt, SameBut, IsCount, IsInc, Count, Hincr, TaskOf, SoundHash;
    PromotedTask(db, id);
    PromotedOnlyAt(db, id);
  }

  lemma PromotedStep(db: Store, id: Id, issued: set<Token>)
    requires Coherent(db) && StateIs(db, id, "delayed")
    ensures Coherent(Promoted(db, id))
    ensures var s := Abs(db, issued);
            Abs(Promoted(db, id), issued)
            == s.(tasks := s.tasks[id := s.tasks[id].(phase := Ready)], ready := s.ready + [id])
  {
    hide SoundHash, SoundIndexes, SoundPending, SoundReady, SoundIds, Releases, Appends, Takes, Rewrites, Next,
      Claim, TaskOf, Tasks, Abs, Current, ReplyTo;
    PromotedAppends(db, id);
    PromotedTask(db, id);
    AppendsCoherent(db, Promoted(db, id), id);
    AppendsAbs(db, Promoted(db, id), id, issued);
    TasksOfSound(db, id, issued);
  }

  // ------------------------------------------------------------------ takeover of an expired lease

  function Reclaimed(db: Store, id: Id, token: Token, until: int): Store
    requires !db.foreign.leases && id in db.records && db.records[id].HashKey? && IsInc(db.records[id].hash.n)
  {
    CheckedIncrement(db.records[id].hash.n);
    var hash := db.records[id].hash;
    var claimed := Zadd(Hset(db, id, hash.(tok := Some(token), n := Hincr(hash.n))), LeaseIndex, id, until);
    if hash.e.Some? then Xclaim(claimed, hash.e.value) else claimed
  }

  lemma ReclaimedOnlyAt(db: Store, id: Id, token: Token, until: int)
    requires !db.foreign.leases && id in db.records && db.records[id].HashKey? && IsInc(db.records[id].hash.n)
    ensures OnlyAt(db, Reclaimed(db, id, token, until), id)
  {
    hide SameBut;
    var t := Reclaimed(db, id, token, until);
    MapsAgree(db.records, id, t.records[id]);
    MapsAgree(db.leases, id, until);
    MapsAgree(db.delayed, id, 0);
    MapsAgree(db.failed, id, 0);
  }

  // What a takeover leaves in the record: the new token and one more delivery.
  lemma ReclaimedFields(db: Store, id: Id, token: Token, until: int)
    requires !db.foreign.leases && StateIs(db, id, "inflight") && IsInc(db.records[id].hash.n)
    ensures var t, was := Reclaimed(db, id, token, until), db.records[id].hash;
            && id in t.records && t.records[id].HashKey? && id in t.leases && t.leases[id] == until
            && t.records[id].hash == was.(tok := Some(token), n := t.records[id].hash.n)
            && IsCount(t.records[id].hash.n) && Count(t.records[id].hash.n) == Count(was.n) + 1
  {
    CheckedIncrement(db.records[id].hash.n);
    hide IsCount, IsInc, Count, Hincr;
  }

  lemma ReclaimedTask(db: Store, id: Id, token: Token, until: int)
    requires !db.foreign.leases && StateIs(db, id, "inflight") && IsInc(db.records[id].hash.n)
    ensures var t, was := Reclaimed(db, id, token, until), TaskOf(db, id);
            && id in t.records && t.records[id].HashKey?
            && TaskOf(t, id) == was.(phase := Inflight(token, until), deliveries := was.deliveries + 1)
  {
    ReclaimedFields(db, id, token, until);
    hide Reclaimed, IsCount, IsInc, Count;
  }

  lemma ReclaimedSound(db: Store, id: Id, token: Token, until: int)
    requires !db.foreign.leases && StateIs(db, id, "inflight") && SoundHash(db.records[id].hash)
             && IsInc(db.records[id].hash.n)
    ensures var t := Reclaimed(db, id, token, until);
            id in t.records && t.records[id].HashKey? && SoundHash(t.records[id].hash)
  {
    ReclaimedFields(db, id, token, until);
    hide Reclaimed, IsCount, IsInc, Count;
  }

  lemma ReclaimedRewrites(db: Store, id: Id, token: Token, until: int)
    requires SoundKeys(db) && SoundIndexes(db) && SoundPending(db) && StateIs(db, id, "inflight")
             && IsInc(db.records[id].hash.n)
    ensures Rewrites(db, Reclaimed(db, id, token, until), id)
  {
    hide OnlyAt, SameBut, IsCount, IsInc, Count, Hincr, TaskOf, SoundHash;
    ReclaimedSound(db, id, token, until);
    CheckedIncrement(db.records[id].hash.n);
    ReclaimedOnlyAt(db, id, token, until);
  }

  lemma ClaimIs(o: Options, s: State, id: Id, token: Token, now: int)
    requires id in s.tasks
    ensures Claim(o, s, id, token, now)
            == s.(tasks := s.tasks[id := s.tasks[id].(phase := Inflight(token, now + o.lease),
                deliveries := s.tasks[id].deliveries + 1)],
                  issued := s.issued + {token})
  {
  }

  lemma TasksOfSound(db: Store, id: Id, issued: set<Token>)
    requires SoundKeys(db) && id in db.records
    ensures id in Abs(db, issued).tasks && Abs(db, issued).tasks[id] == TaskOf(db, id)
  {
  }

  lemma TasksAreRecords(db: Store, id: Id, issued: set<Token>)
    ensures id in Abs(db, issued).tasks ==> id in db.records
  {
  }

  lemma ReclaimedStep(o: Options, db: Store, id: Id, token: Token, now: int, issued: set<Token>)
    requires Coherent(db) && StateIs(db, id, "inflight") && IsInc(db.records[id].hash.n)
    ensures Coherent(Reclaimed(db, id, token, now + o.lease))
    ensures id in Abs(db, issued).tasks
    ensures Abs(Reclaimed(db, id, token, now + o.lease), issued + {token}) == Claim(o, Abs(db, issued), id, token, now)
  {
    hide SoundHash, SoundIndexes, SoundPending, SoundReady, SoundIds, Releases, Appends, Takes, Rewrites, Next,
      Claim, TaskOf, Tasks, Current, Reclaimed, Count, IsInc, Hincr;
    var t := Reclaimed(db, id, token, now + o.lease);
    ReclaimedRewrites(db, id, token, now + o.lease);
    ReclaimedTask(db, id, token, now + o.lease);
    RewritesCoherent(db, t, id);
    RewritesAbs(db, t, id, issued);
    TasksOfSound(db, id, issued);
    ClaimIs(o, Abs(db, issued), id, token, now);
  }

  // ------------------------------------------------------------------ claim of the stream head

  function Taken(db: Store, id: Id, token: Token, until: int): Store
    requires !db.foreign.ready && !db.foreign.leases && db.group && db.undelivered != []
    requires id in db.records && db.records[id].HashKey? && IsInc(db.records[id].hash.n)
  {
    CheckedIncrement(db.records[id].hash.n);
    var hash := db.records[id].hash;
    Zadd(Hset(XreadGroup(db), id,
              hash.(s := Some("inflight"), tok := Some(token), e := Some(db.undelivered[0].eid), n := Hincr(hash.n))),
         LeaseIndex, id, until)
  }

  lemma TakenOnlyAt(db: Store, id: Id, token: Token, until: int)
    requires !db.foreign.ready && !db.foreign.leases && db.group && db.undelivered != []
    requires id in db.records && db.records[id].HashKey? && IsInc(db.records[id].hash.n)
    ensures OnlyAt(db, Taken(db, id, token, until), id)
  {
    hide SameBut;
    var t := Taken(db, id, token, until);
    MapsAgree(db.records, id, t.records[id]);
    MapsAgree(db.leases, id, until);
    MapsAgree(db.delayed, id, 0);
    MapsAgree(db.failed, id, 0);
  }

  lemma TakenTask(db: Store, id: Id, token: Token, until: int)
    requires SoundKeys(db) && db.group && db.undelivered != [] && StateIs(db, id, "ready")
             && IsInc(db.records[id].hash.n)
    ensures id in Taken(db, id, token, until).records && Taken(db, id, token, until).records[id].HashKey?
    ensures TaskOf(Taken(db, id, token, until), id)
            == TaskOf(db, id).(phase := Inflight(token, until), deliveries := TaskOf(db, id).deliveries + 1)
    ensures SoundHash(Taken(db, id, token, until).records[id].hash)
  {
    hide IsCount, IsInc, Count, Hincr;
    CheckedIncrement(db.records[id].hash.n);
  }

  lemma TakenTakes(db: Store, id: Id, token: Token, until: int)
    requires SoundKeys(db) && SoundIndexes(db) && SoundReady(db) && db.group
    requires db.undelivered != [] && db.undelivered[0].id == Some(id) && StateIs(db, id, "ready")
             && IsInc(db.records[id].hash.n)
    ensures Takes(db, Taken(db, id, token, until), id)
  {
    hide OnlyAt, SameBut, IsCount, IsInc, Count, Hincr, TaskOf, SoundHash;
    TakenTask(db, id, token, until);
    CheckedIncrement(db.records[id].hash.n);
    TakenOnlyAt(db, id, token, until);
  }

  lemma TakenStep(o: Options, db: Store, id: Id, token: Token, now: int, issued: set<Token>)
    requires Coherent(db) && db.group && db.undelivered != [] && db.undelivered[0].id == Some(id)
    requires StateIs(db, id, "ready") && IsInc(db.records[id].hash.n)
    ensures Coherent(Taken(db, id, token, now + o.lease))
    ensures var s := Abs(db, issued);
            s.ready != [] && s.ready[0] == id && id in s.tasks
            && Abs(Taken(db, id, token, now + o.lease), issued + {token})
               == Claim(o, s.(ready := s.ready[1..]), id, token, now)
  {
    hide SoundHash, SoundIndexes, SoundPending, SoundReady, SoundIds, Releases, Appends, Takes, Rewrites, Next,
      Claim, TaskOf, Tasks, Current;
    var t := Taken(db, id, token, now + o.lease);
    TakenTakes(db, id, token, now + o.lease);
    TakenTask(db, id, token, now + o.lease);
    TakesCoherent(db, t, id);
    TakesAbs(db, t, id, issued);
    TasksOfSound(db, id, issued);
    var s := Abs(db, issued);
    ClaimIs(o, s.(ready := s.ready[1..]), id, token, now);
  }

  // ------------------------------------------------------------------ settling a claim

  // e is the step db -> t answered with reply.
  ghost predicate IsStep(o: Options, db: Store, t: Store, issued: set<Token>, reply: Reply, e: Event)
  {
    Enabled(o, Abs(db, issued), e)
    && Coherent(t) && Abs(t, issued) == Next(o, Abs(db, issued), e) && reply == ReplyTo(o, Abs(db, issued), e)
  }

  lemma CurrentIsInflight(db: Store, id: Id, token: Token, issued: set<Token>)
    requires SoundKeys(db) && SoundIndexes(db) && SoundPending(db)
    ensures Current(Abs(db, issued), id, token)
            <==> StateIs(db, id, "inflight") && db.records[id].hash.tok == Some(token)
    ensures id in Abs(db, issued).tasks <==> id in db.records
  {
  }

  function Acked(db: Store, id: Id, until: int, window: int): Store
    requires !db.foreign.ready && !db.foreign.leases && id in db.records && db.records[id].HashKey?
  {
    var hash := db.records[id].hash;
    var mark := hash.dd == Some("1") && window > 0 && hash.h.Some?;
    var marked := if mark then SetTomb(db, id, hash.h.value, until) else db;
    DelRecord(Zrem(ReleaseEntry(marked, hash.e), LeaseIndex, id), id)
  }

  // Releasing an entry touches nothing but the stream.
  lemma ReleaseFrame(db: Store, e: Option<nat>)
    requires !db.foreign.ready
    ensures var t := ReleaseEntry(db, e);
      && t.foreign == db.foreign && t.records == db.records && t.tombs == db.tombs
      && t.leases == db.leases && t.delayed == db.delayed && t.failed == db.failed
  {
  }

  lemma AckedOnlyAt(db: Store, id: Id, until: int, window: int)
    requires !db.foreign.ready && !db.foreign.leases && id in db.records && db.records[id].HashKey?
    ensures OnlyAt(db, Acked(db, id, until, window), id)
  {
    hide SameBut, ReleaseEntry;
    var hash := db.records[id].hash;
    var mark := hash.dd == Some("1") && window > 0 && hash.h.Some?;
    ReleaseFrame(if mark then SetTomb(db, id, hash.h.value, until) else db, hash.e);
    var t := Acked(db, id, until, window);
    MapsAgree(db.records, id, db.records[id]);
    MapsAgree(db.leases, id, 0);
    MapsAgree(db.delayed, id, 0);
    MapsAgree(db.failed, id, 0);
  }

  // What the acknowledgement leaves, field by field.
  lemma AckedFields(db: Store, id: Id, until: int, window: int)
    requires !db.foreign.ready && !db.foreign.leases && id in db.records && db.records[id].HashKey?
    requires db.records[id].hash.e.Some?
    requires ReleaseEntry(db, db.records[id].hash.e).undelivered == db.undelivered
    ensures var e, t := db.records[id].hash.e.value, Acked(db, id, until, window);
      && t == db.(records := db.records - {id}, leases := db.leases - {id},
                  delivered := db.delivered - {e}, pel := db.pel - {e}, tombs := t.tombs)
      && forall j :: j in t.tombs ==> t.tombs[j].StringKey? || (j in db.tombs && t.tombs[j] == db.tombs[j])
  {
  }

  lemma AckedReleases(db: Store, id: Id, until: int, window: int)
    requires !db.foreign.ready && !db.foreign.leases && StateIs(db, id, "inflight")
    requires SoundIndexes(db) && SoundPending(db) && SoundIds(db)
    requires forall j :: j in db.tombs ==> db.tombs[j].StringKey?
    ensures var t := Acked(db, id, until, window); Releases(db, t, id) && id !in t.records
  {
    ReleaseExact(db, id);
    hide SoundIds, SoundPending, OnlyAt, SameBut, SoundHash, Acked;
    AckedFields(db, id, until, window);
    AckedOnlyAt(db, id, until, window);
  }

  lemma AckedDone(db: Store, id: Id, until: int, window: int)
    requires SoundKeys(db) && SoundPending(db) && SoundIds(db) && StateIs(db, id, "inflight")
    ensures Acked(db, id, until, window).undelivered == db.undelivered
    ensures DoneOf(Acked(db, id, until, window).tombs)
            == if TaskOf(db, id).dedup && window > 0
               then DoneOf(db.tombs)[id := Tombstone(Digest(TaskOf(db, id).data), until)] else DoneOf(db.tombs)
  {
    hide IsCount, Count, DoneOf;
    WithoutAbsent(db.undelivered, db.records[id].hash.e.value);
    DoneOfSet(db.tombs, id, Tombstone(Digest(TaskOf(db, id).data), until));
  }

  lemma AckedStep(o: Options, db: Store, id: Id, token: Token, now: int, issued: set<Token>)
    requires Coherent(db) && StateIs(db, id, "inflight") && db.records[id].hash.tok == Some(token)
    ensures IsStep(o, db, Acked(db, id, now + o.dedupWindow, o.dedupWindow), issued, Done, Event.Ack(now, id, token))
  {
    hide SoundIndexes, SoundPending, SoundReady, SoundIds, IsCount, Releases, Next, TaskOf, Tasks, Current,
      DoneOf, Acked, ReplyTo;
    var t := Acked(db, id, now + o.dedupWindow, o.dedupWindow);
    AckedReleases(db, id, now + o.dedupWindow, o.dedupWindow);
    ReleasesCoherent(db, t, id);
    RemovesTask(db, t, id);
    AckedDone(db, id, now + o.dedupWindow, o.dedupWindow);
    CurrentIsInflight(db, id, token, issued);
    TasksOfSound(db, id, issued);
    CurrentNext(o, Abs(db, issued), now, id, token, 0, "");
  }

  function Retried(db: Store, id: Id, due: int, reason: string): Store
    requires !db.foreign.ready && !db.foreign.delayed && !db.foreign.leases
    requires id in db.records && db.records[id].HashKey? && IsInc(db.records[id].hash.r)
  {
    CheckedIncrement(db.records[id].hash.r);
    var hash := db.records[id].hash;
    var settled := Hset(ReleaseEntry(db, hash.e), id,
                        hash.(s := Some("delayed"), err := Some(reason), tok := None, e := None, r := Hincr(hash.r)));
    Zrem(Zadd(settled, DelayedIndex, id, due), LeaseIndex, id)
  }

  lemma RetriedOnlyAt(db: Store, id: Id, due: int, reason: string)
    requires !db.foreign.ready && !db.foreign.delayed && !db.foreign.leases
    requires id in db.records && db.records[id].HashKey? && IsInc(db.records[id].hash.r)
    ensures OnlyAt(db, Retried(db, id, due, reason), id)
  {
    hide SameBut;
    var t := Retried(db, id, due, reason);
    MapsAgree(db.records, id, t.records[id]);
    MapsAgree(db.leases, id, 0);
    MapsAgree(db.delayed, id, due);
    MapsAgree(db.failed, id, 0);
  }

  lemma RetriedTask(db: Store, id: Id, due: int, reason: string)
    requires SoundKeys(db) && StateIs(db, id, "inflight") && IsInc(db.records[id].hash.r)
    ensures Retried(db, id, due, reason).tombs == db.tombs && id in Retried(db, id, due, reason).records
    ensures Retried(db, id, due, reason).records[id].HashKey?
    ensures TaskOf(Retried(db, id, due, reason), id)
            == TaskOf(db, id).(phase := Delayed(due), retries := TaskOf(db, id).retries + 1, reason := reason)
    ensures SoundHash(Retried(db, id, due, reason).records[id].hash)
  {
    CheckedIncrement(db.records[id].hash.r);
    hide IsCount, IsInc, Count, Hincr, Without;
  }

  lemma RetriedReleases(db: Store, id: Id, due: int, reason: string)
    requires SoundKeys(db) && SoundIndexes(db) && SoundPending(db) && SoundIds(db)
    requires StateIs(db, id, "inflight") && IsInc(db.records[id].hash.r)
    ensures Releases(db, Retried(db, id, due, reason), id)
  {
    hide OnlyAt, SameBut, IsCount, IsInc, Count, Hincr, TaskOf, SoundHash;
    RetriedTask(db, id, due, reason);
    ReleaseExact(db, id);
    CheckedIncrement(db.records[id].hash.r);
    RetriedOnlyAt(db, id, due, reason);
  }

  lemma RetriedStep(o: Options, db: Store, id: Id, token: Token, now: int, delay: nat, reason: string,
      issued: set<Token>)
    requires Coherent(db) && StateIs(db, id, "inflight") && db.records[id].hash.tok == Some(token)
             && IsInc(db.records[id].hash.r)
    ensures IsStep(o, db, Retried(db, id, now + delay, reason), issued, Done,
            Event.Retry(now, id, token, delay, reason))
  {
    hide SoundHash, SoundIndexes, SoundPending, SoundReady, SoundIds, Releases, Appends, Takes, Rewrites, Next,
      Claim, TaskOf, Tasks, Abs, Current, ReplyTo, Retried, Count, IsInc, Hincr;
    var t := Retried(db, id, now + delay, reason);
    RetriedReleases(db, id, now + delay, reason);
    RetriedTask(db, id, now + delay, reason);
    ReleasesCoherent(db, t, id);
    ReleasesAbs(db, t, id, issued);
    CurrentIsInflight(db, id, token, issued);
    TasksOfSound(db, id, issued);
    CurrentNext(o, Abs(db, issued), now, id, token, delay, reason);
  }

  function Retained(db: Store, id: Id, now: int, reason: string): Store
    requires !db.foreign.ready && !db.foreign.leases && !db.foreign.failed
    requires id in db.records && db.records[id].HashKey?
  {
    var hash := db.records[id].hash;
    var settled := Hset(ReleaseEntry(db, hash.e), id,
                        hash.(s := Some("failed"), err := Some(reason), fa := Some(now), tok := None, e := None));
    Zrem(Zadd(settled, FailedIndex, id, now), LeaseIndex, id)
  }

  lemma RetainedOnlyAt(db: Store, id: Id, now: int, reason: string)
    requires !db.foreign.ready && !db.foreign.leases && !db.foreign.failed
    requires id in db.records && db.records[id].HashKey?
    ensures OnlyAt(db, Retained(db, id, now, reason), id)
  {
    hide SameBut;
    var t := Retained(db, id, now, reason);
    MapsAgree(db.records, id, t.records[id]);
    MapsAgree(db.leases, id, 0);
    MapsAgree(db.delayed, id, 0);
    MapsAgree(db.failed, id, now);
  }

  lemma RetainedTask(db: Store, id: Id, now: int, reason: string)
    requires SoundKeys(db) && StateIs(db, id, "inflight")
    ensures Retained(db, id, now, reason).tombs == db.tombs && id in Retained(db, id, now, reason).records
    ensures Retained(db, id, now, reason).records[id].HashKey?
    ensures TaskOf(Retained(db, id, now, reason), id) == TaskOf(db, id).(phase := Failed(now), reason := reason)
    ensures SoundHash(Retained(db, id, now, reason).records[id].hash)
  {
    hide IsCount, IsInc, Count, Hincr, Without;
  }

  lemma RetainedReleases(db: Store, id: Id, now: int, reason: string)
    requires SoundKeys(db) && SoundIndexes(db) && SoundPending(db) && SoundIds(db) && StateIs(db, id, "inflight")
    ensures Releases(db, Retained(db, id, now, reason), id)
  {
    hide OnlyAt, SameBut, IsCount, IsInc, Count, Hincr, TaskOf, SoundHash;
    RetainedTask(db, id, now, reason);
    ReleaseExact(db, id);
    RetainedOnlyAt(db, id, now, reason);
  }

  lemma RetainedStep(o: Options, db: Store, id: Id, token: Token, now: int, reason: string, issued: set<Token>)
    requires Coherent(db) && StateIs(db, id, "inflight") && db.records[id].hash.tok == Some(token)
    ensures IsStep(o, db, Retained(db, id, now, reason), issued, Done, Event.Fail(now, id, token, reason))
  {
    hide SoundHash, SoundIndexes, SoundPending, SoundReady, SoundIds, Releases, Appends, Takes, Rewrites, Next,
      Claim, TaskOf, Tasks, Abs, Current, ReplyTo;
    var t := Retained(db, id, now, reason);
    RetainedReleases(db, id, now, reason);
    RetainedTask(db, id, now, reason);
    ReleasesCoherent(db, t, id);
    ReleasesAbs(db, t, id, issued);
    CurrentIsInflight(db, id, token, issued);
    TasksOfSound(db, id, issued);
    CurrentNext(o, Abs(db, issued), now, id, token, 0, reason);
  }

  function Renewed(db: Store, id: Id, until: int): Store
    requires !db.foreign.leases
  {
    Zadd(db, LeaseIndex, id, until)
  }

  lemma RenewedStep(o: Options, db: Store, id: Id, token: Token, now: int, issued: set<Token>)
    requires Coherent(db) && StateIs(db, id, "inflight") && db.records[id].hash.tok == Some(token)
    ensures IsStep(o, db, Renewed(db, id, now + o.lease), issued, Done, Event.Renew(now, id, token))
  {
    hide SoundHash, SoundIndexes, SoundPending, SoundReady, SoundIds, Releases, Appends, Takes, Rewrites, Next,
      Claim, TaskOf, Tasks, Abs, Current, ReplyTo;
    var t := Renewed(db, id, now + o.lease);
    RenewedRewrites(db, id, token, now + o.lease);
    RenewedTask(db, id, token, now + o.lease);
    RewritesCoherent(db, t, id);
    RewritesAbs(db, t, id, issued);
    CurrentIsInflight(db, id, token, issued);
    TasksOfSound(db, id, issued);
    CurrentNext(o, Abs(db, issued), now, id, token, 0, "");
  }

  lemma RenewedOnlyAt(db: Store, id: Id, until: int)
    requires !db.foreign.leases && id in db.records
    ensures OnlyAt(db, Renewed(db, id, until), id)
  {
    hide SameBut;
    var t := Renewed(db, id, until);
    MapsAgree(db.records, id, db.records[id]);
    MapsAgree(db.leases, id, until);
    MapsAgree(db.delayed, id, 0);
    MapsAgree(db.failed, id, 0);
  }

  lemma RenewedTask(db: Store, id: Id, token: Token, until: int)
    requires SoundKeys(db) && StateIs(db, id, "inflight") && db.records[id].hash.tok == Some(token)
    ensures id in Renewed(db, id, until).records && Renewed(db, id, until).records[id].HashKey?
    ensures TaskOf(Renewed(db, id, until), id) == TaskOf(db, id).(phase := Inflight(token, until))
    ensures SoundHash(Renewed(db, id, until).records[id].hash)
  {
    hide IsCount, Count;
  }

  lemma RenewedRewrites(db: Store, id: Id, token: Token, until: int)
    requires SoundKeys(db) && SoundIndexes(db) && SoundPending(db) && StateIs(db, id, "inflight")
    requires db.records[id].hash.tok == Some(token)
    ensures Rewrites(db, Renewed(db, id, until), id)
  {
    hide OnlyAt, SameBut, IsCount, IsInc, Count, Hincr, TaskOf, SoundHash;
    RenewedTask(db, id, token, until);
    RenewedOnlyAt(db, id, until);
  }

  // ------------------------------------------------------------------ failed records

  lemma ReplayCounter(rp: Option<Bytes>)
    requires rp.Some? ==> IsInc(rp)
    ensures rp.Some? ==> exists k: nat :: k < MAX_INT64 && rp.value == Print(k)
  {
    if rp.Some? {
      CheckedIncrement(rp);
    }
  }

  // A missing replay counter counts as 0.
  predicate Replayable(hash: Hash) {
    hash.rp.Some? ==> IsInc(hash.rp)
  }

  function ReplayedHash(hash: Hash): Hash
    requires Replayable(hash)
  {
    ReplayCounter(hash.rp);
    hash.(s := Some("ready"), r := Some(Print(0)), rp := Hincr(hash.rp))
  }

  function Replayed(db: Store, id: Id): Store
    requires !db.foreign.ready && !db.foreign.failed && id in db.records && db.records[id].HashKey?
    requires Replayable(db.records[id].hash)
  {
    Zrem(Hset(Xadd(db, id), id, ReplayedHash(db.records[id].hash)), FailedIndex, id)
  }

  lemma ReplayedOnlyAt(db: Store, id: Id)
    requires !db.foreign.ready && !db.foreign.failed && id in db.records && db.records[id].HashKey?
    requires Replayable(db.records[id].hash)
    ensures OnlyAt(db, Replayed(db, id), id)
  {
    hide SameBut;
    var t := Replayed(db, id);
    MapsAgree(db.records, id, t.records[id]);
    MapsAgree(db.leases, id, 0);
    MapsAgree(db.delayed, id, 0);
    MapsAgree(db.failed, id, 0);
  }

  lemma ReplayedTask(db: Store, id: Id)
    requires SoundKeys(db) && StateIs(db, id, "failed") && IsInc(db.records[id].hash.rp)
    ensures id in Replayed(db, id).records && Replayed(db, id).records[id].HashKey?
    ensures TaskOf(Replayed(db, id), id) == TaskOf(db, id).(phase := Ready, retries := 0)
    ensures SoundHash(Replayed(db, id).records[id].hash)
  {
    hide IsCount, IsInc, Count, Hincr;
    ZeroIsCount();
    CheckedIncrement(db.records[id].hash.rp);
  }

  lemma ReplayedAppends(db: Store, id: Id)
    requires SoundKeys(db) && SoundIndexes(db) && StateIs(db, id, "failed") && IsInc(db.records[id].hash.rp)
    ensures Appends(db, Replayed(db, id), id)
  {
    hide OnlyAt, SameBut, IsCount, IsInc, Count, Hincr, TaskOf, SoundHash;
    ReplayedTask(db, id);
    ZeroIsCount();
    CheckedIncrement(db.records[id].hash.rp);
    ReplayedOnlyAt(db, id);
  }

  lemma ReplayNext(o: Options, s: State, now: int, id: Id)
    requires id in s.tasks && s.tasks[id].phase.Failed?
    ensures Next(o, s, Event.Replay(now, id))
            == s.(tasks := s.tasks[id := s.tasks[id].(phase := Ready, retries := 0)], ready := s.ready + [id])
    ensures ReplyTo(o, s, Event.Replay(now, id)) == Done
  {
  }

  lemma FailedIsFailed(db: Store, id: Id, issued: set<Token>)
    requires SoundKeys(db) && SoundIndexes(db)
    ensures id in Abs(db, issued).tasks && Abs(db, issued).tasks[id].phase.Failed? <==> StateIs(db, id, "failed")
  {
  }

  lemma ReplayedStep(o: Options, db: Store, id: Id, now: int, issued: set<Token>)
    requires Coherent(db) && StateIs(db, id, "failed") && IsInc(db.records[id].hash.rp)
    ensures IsStep(o, db, Replayed(db, id), issued, Done, Event.Replay(now, id))
  {
    hide SoundHash, SoundIndexes, SoundPending, SoundReady, SoundIds, Releases, Appends, Takes, Rewrites, Next,
      Claim, TaskOf, Tasks, Abs, Current, ReplyTo;
    ReplayedAppends(db, id);
    ReplayedTask(db, id);
    AppendsCoherent(db, Replayed(db, id), id);
    AppendsAbs(db, Replayed(db, id), id, issued);
    TasksOfSound(db, id, issued);
    FailedIsFailed(db, id, issued);
    ReplayNext(o, Abs(db, issued), now, id);
  }

  // ------------------------------------------------------------------ pruning of failed records

  // HGET on these ids raises no error.
  predicate Readable(records: map<Id, Record>, ids: seq<Id>) {
    forall id :: id in ids && id in records ==> records[id].HashKey?
  }

  function Dropped(db: Store, id: Id): Store
    requires !db.foreign.failed && Readable(db.records, [id])
  {
    Zrem(if HgetState(db.records, id) == Some("failed") then DelRecord(db, id) else db, FailedIndex, id)
  }

  lemma DroppedOnlyAt(db: Store, id: Id)
    requires !db.foreign.failed && StateIs(db, id, "failed")
    ensures OnlyAt(db, Dropped(db, id), id)
  {
    hide SameBut;
    MapsAgree(db.records, id, db.records[id]);
    MapsAgree(db.leases, id, 0);
    MapsAgree(db.delayed, id, 0);
    MapsAgree(db.failed, id, 0);
  }

  // ------------------------------------------------------------------ the records the scripts leave, field by field

  lemma ClaimLeaves(db: Store, id: Id, token: Token, until: int)
    requires id in db.records && db.records[id].HashKey? && IsInc(db.records[id].hash.n) && !db.foreign.leases
    ensures var a, was := Reclaimed(db, id, token, until), db.records[id].hash;
      && a.records[id] == HashKey(was.(tok := Some(token), n := a.records[id].hash.n))
      && Count(a.records[id].hash.n) == Count(was.n) + 1 && a.leases == db.leases[id := until]
    ensures !db.foreign.ready && db.group && db.undelivered != [] ==>
      var a, was := Taken(db, id, token, until), db.records[id].hash;
      && a.records[id] == HashKey(was.(s := Some("inflight"), tok := Some(token),
                                       e := Some(db.undelivered[0].eid), n := a.records[id].hash.n))
      && Count(a.records[id].hash.n) == Count(was.n) + 1 && a.leases == db.leases[id := until]
  {
    hide IsInc, IsCount, Count, Hincr;
    CheckedIncrement(db.records[id].hash.n);
  }

  lemma RetryLeaves(db: Store, id: Id, due: int, reason: string)
    requires !db.foreign.ready && !db.foreign.delayed && !db.foreign.leases
    requires id in db.records && db.records[id].HashKey? && IsInc(db.records[id].hash.r)
    ensures var a, was := Retried(db, id, due, reason), db.records[id].hash;
      && a.records[id] == HashKey(was.(s := Some("delayed"), err := Some(reason), tok := None, e := None,
                                       r := a.records[id].hash.r))
      && Count(a.records[id].hash.r) == Count(was.r) + 1
      && a.delayed == db.delayed[id := due] && a.leases == db.leases - {id}
  {
    hide IsInc, IsCount, Count, Hincr, ReleaseEntry;
    CheckedIncrement(db.records[id].hash.r);
    ReleaseFrame(db, db.records[id].hash.e);
  }

  lemma FailLeaves(db: Store, id: Id, now: int, reason: string)
    requires !db.foreign.ready && !db.foreign.leases && !db.foreign.failed
    requires id in db.records && db.records[id].HashKey?
    ensures var a, was := Retained(db, id, now, reason), db.records[id].hash;
      && a.records[id]
         == HashKey(was.(s := Some("failed"), err := Some(reason), fa := Some(now), tok := None, e := None))
      && a.failed == db.failed[id := now] && a.leases == db.leases - {id}
  {
    hide ReleaseEntry;
    ReleaseFrame(db, db.records[id].hash.e);
  }

  lemma ReplayLeaves(db: Store, id: Id)
    requires !db.foreign.ready && !db.foreign.failed && id in db.records && db.records[id].HashKey?
    requires Replayable(db.records[id].hash)
    ensures var a, was := Replayed(db, id), db.records[id].hash;
      && a.records[id] == HashKey(was.(s := Some("ready"), r := Some(Print(0)), rp := a.records[id].hash.rp))
      && Count(a.records[id].hash.rp) == Count(was.rp) + 1 && a.failed == db.failed - {id}
  {
    var rp := db.records[id].hash.rp;
    if rp.Some? {
      CheckedIncrement(rp);
    } else {
      PrintCanonical(1);
    }
    hide IsInc, IsCount, Print;
  }

  // What the prune of a batch does to any namespace whose records it can read.
  lemma {:induction false} DropAllIs(db: Store, ids: seq<Id>)
    requires !db.foreign.failed && Readable(db.records, ids)
    ensures forall id :: id in DropAll(db, ids).records <==>
              id in db.records && !(id in ids && StateIs(db, id, "failed"))
    ensures forall id :: id in DropAll(db, ids).failed <==> id in db.failed && id !in ids
    decreases |ids|
  {
    if ids != [] {
      var front, last := ids[..|ids| - 1], ids[|ids| - 1];
      assert ids == front + [last];
      DropAllIs(db, front);
    }
  }

  lemma DroppedIs(db: Store, id: Id)
    requires !db.foreign.failed && StateIs(db, id, "failed")
    ensures Dropped(db, id) == db.(records := db.records - {id}, failed := db.failed - {id})
    ensures SoundIndexes(db) ==> IndexedRight(Dropped(db, id), id)
  {
  }

  lemma DroppedStep(db: Store, id: Id, issued: set<Token>)
    requires Coherent(db) && StateIs(db, id, "failed")
    ensures Coherent(Dropped(db, id))
    ensures Abs(Dropped(db, id), issued) == Abs(db, issued).(tasks := Abs(db, issued).tasks - {id})
  {
    hide SoundHash, TaskOf, SameBut, OnlyAt, Dropped, SoundPending, SoundReady, SoundIndexes;
    var t := Dropped(db, id);
    DroppedIs(db, id);
    DroppedOnlyAt(db, id);
    KeysFrom(db, t, id);
    IndexesFrom(db, t, id);
    PendingKept(db, t, id);
    ReadyKept(db, t, id);
    TasksFrom(db, t, id);
  }

  function DropAll(db: Store, ids: seq<Id>): (t: Store)
    requires !db.foreign.failed && Readable(db.records, ids)
    ensures t.foreign == db.foreign
    ensures forall id :: id in t.records ==> id in db.records && t.records[id] == db.records[id]
    decreases |ids|
  {
    if ids == [] then db else Dropped(DropAll(db, ids[..|ids| - 1]), ids[|ids| - 1])
  }

  function Members(ids: seq<Id>): set<Id> {
    set id | id in ids
  }

  lemma {:induction false} DropAllStep(db: Store, ids: seq<Id>, issued: set<Token>)
    requires Coherent(db) && NoDup(ids) && forall id :: id in ids ==> StateIs(db, id, "failed")
    ensures Coherent(DropAll(db, ids))
    ensures Abs(DropAll(db, ids), issued) == Abs(db, issued).(tasks := Abs(db, issued).tasks - Members(ids))
    ensures forall id :: id !in ids && StateIs(db, id, "failed") ==> StateIs(DropAll(db, ids), id, "failed")
    decreases |ids|
  {
    hide SoundIndexes, SoundPending, SoundReady, SoundIds, SoundHash, Abs;
    if ids == [] {
      assert Abs(db, issued).tasks - Members(ids) == Abs(db, issued).tasks;
    } else {
      var front, last := ids[..|ids| - 1], ids[|ids| - 1];
      assert ids == front + [last] && last !in front;
      DropAllStep(db, front, issued);
      DroppedStep(DropAll(db, front), last, issued);
      var tasks := Abs(db, issued).tasks;
      assert tasks - Members(front) - {last} == tasks - Members(ids);
    }
  }

  // What the Fail script prunes: failed for at least the retention.
  lemma PrunableAged(o: Options, db: Store, now: int, limit: nat, issued: set<Token>)
    requires Coherent(db) && o.retention > 0
    ensures var gone := RangeByScore(db.failed, now - o.retention, limit);
            NoDup(gone) && forall id :: id in gone ==> StateIs(db, id, "failed") && Aged(o, Abs(db, issued), now, id)
  {
    hide SoundPending, SoundReady, SoundIds, SoundHash, RangeByScore, Count;
    RangeLists(db.failed, now - o.retention, limit);
    forall id | id in db.failed && db.failed[id] <= now - o.retention
      ensures StateIs(db, id, "failed") && Aged(o, Abs(db, issued), now, id)
    {
      TasksOfSound(db, id, issued);
    }
  }

  // The failed index is the failure instants of the task machine.
  lemma FailedIndexIsScores(db: Store, issued: set<Token>)
    requires Coherent(db)
    ensures FailedScores(Abs(db, issued)) == db.failed
  {
    hide SoundPending, SoundReady, SoundIds, SoundHash, Count;
    forall id | id in db.records ensures id in Abs(db, issued).tasks && Abs(db, issued).tasks[id] == TaskOf(db, id) {
      TasksOfSound(db, id, issued);
    }
  }

  // The answer of the enqueue script on a coherent namespace.
  lemma AdmissionIs(db: Store, now: int, id: Id, data: Bytes, dedup: bool, issued: set<Token>)
    requires Coherent(db)
    ensures Admission(Abs(db, issued), now, id, data, dedup) ==
      if id in db.records then
        if db.records[id].hash.h == Some(Digest(data)) then Duplicate else Conflict
      else if dedup && TombAlive(db.tombs, now, id) then
        if db.tombs[id].tomb.hash == Digest(data) then Duplicate else Conflict
      else Accepted
  {
    hide SoundPending, SoundReady, SoundIds, SoundIndexes, IsCount, Count;
    if id in db.records {
      TasksOfSound(db, id, issued);
    }
  }

  // A call that changes nothing on the tasks is a step that leaves the namespace alone.
  lemma Unmoved(o: Options, db: Store, issued: set<Token>, e: Event)
    requires Coherent(db) && Enabled(o, Abs(db, issued), e) && Next(o, Abs(db, issued), e) == Abs(db, issued)
    ensures IsStep(o, db, db, issued, ReplyTo(o, Abs(db, issued), e), e)
  {
    hide Coherent, Abs, Enabled, Next, ReplyTo;
  }

  lemma StaleRenewOrAck(o: Options, db: Store, issued: set<Token>, now: int, id: Id, token: Token)
    requires Coherent(db) && !Current(Abs(db, issued), id, token)
    ensures IsStep(o, db, db, issued,
                   if id in Abs(db, issued).tasks then LeaseLost else Done, Event.Ack(now, id, token))
    ensures IsStep(o, db, db, issued, LeaseLost, Event.Renew(now, id, token))
  {
    hide Coherent, Abs, IsStep;
    Unmoved(o, db, issued, Event.Ack(now, id, token));
    Unmoved(o, db, issued, Event.Renew(now, id, token));
  }

  lemma StaleRetryOrFail(o: Options, db: Store, issued: set<Token>, now: int, id: Id, token: Token, delay: nat,
      reason: string)
    requires Coherent(db) && !Current(Abs(db, issued), id, token)
    ensures IsStep(o, db, db, issued, LeaseLost, Event.Retry(now, id, token, delay, reason))
    ensures IsStep(o, db, db, issued, LeaseLost, Event.Fail(now, id, token, reason))
  {
    hide Coherent, Abs, IsStep;
    Unmoved(o, db, issued, Event.Retry(now, id, token, delay, reason));
    Unmoved(o, db, issued, Event.Fail(now, id, token, reason));
  }

  // A token that does not hold the claim: the refusal is the step.
  lemma StaleIsStep(o: Options, db: Store, issued: set<Token>, now: int, id: Id, token: Token, delay: nat,
      reason: string)
    requires Coherent(db)
    ensures id in db.records ==> db.records[id].HashKey?
    ensures !(StateIs(db, id, "inflight") && db.records[id].hash.tok == Some(token)) ==>
      && IsStep(o, db, db, issued, if id in db.records then LeaseLost else Done, Event.Ack(now, id, token))
      && IsStep(o, db, db, issued, LeaseLost, Event.Renew(now, id, token))
      && IsStep(o, db, db, issued, LeaseLost, Event.Retry(now, id, token, delay, reason))
      && IsStep(o, db, db, issued, LeaseLost, Event.Fail(now, id, token, reason))
  {
    hide SoundIndexes, SoundPending, SoundReady, SoundIds, SoundHash, Abs, Current, IsStep;
    CurrentIsInflight(db, id, token, issued);
    if id in db.records {
      TasksOfSound(db, id, issued);
    } else {
      assert id !in Abs(db, issued).tasks by { TasksAreRecords(db, id, issued); }
    }
    if !(StateIs(db, id, "inflight") && db.records[id].hash.tok == Some(token)) {
      StaleRenewOrAck(o, db, issued, now, id, token);
      StaleRetryOrFail(o, db, issued, now, id, token, delay, reason);
    }
  }
}
