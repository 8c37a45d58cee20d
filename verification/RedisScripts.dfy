/** The Lua scripts, each one atomic step on the namespace. Every script validates before it writes. Its
    contract has two parts: on any namespace, however corrupt its records, an error reply comes without
    writes to what is broken; on a coherent namespace the script is a step of the task machine. */
module RedisScripts {
  import opened Basics
  import opened Ranking
  import opened Decimal
  import opened TaskMachine
  import opened RedisStore
  import opened RedisStream
  import opened RedisCoherence
  import opened RedisSteps
  import opened RedisReceive
  import opened Runs

  // The claim on id is held under this token.
  predicate Held(db: Store, id: Id, token: Token) {
    StateIs(db, id, "inflight") && db.records[id].hash.tok == Some(token)
  }

  // The writes of a settled claim, with what was checked before them. Nothing but the record of id and its
  // index entries differs; the stream loses the entry the record names.
  ghost predicate AckedFrom(a: Store, b: Store, id: Id, until: int, window: int) {
    && !a.foreign.ready && !a.foreign.leases && id in a.records && a.records[id].HashKey?
    && (a.records[id].hash.dd == Some("1") && window > 0 ==> a.records[id].hash.h.Some?)
    && b == Acked(a, id, until, window) && OnlyAt(a, b, id)
  }

  ghost predicate RetriedFrom(a: Store, b: Store, id: Id, due: int, reason: string) {
    && !a.foreign.ready && !a.foreign.delayed && !a.foreign.leases && id in a.records && a.records[id].HashKey?
    && CheckRecord(a.records[id].hash, "inflight", false, true)
    && b == Retried(a, id, due, reason) && OnlyAt(a, b, id)
  }

  ghost predicate RetainedFrom(a: Store, b: Store, id: Id, now: int, reason: string) {
    && !a.foreign.ready && !a.foreign.leases && !a.foreign.failed && id in a.records && a.records[id].HashKey?
    && b == Retained(a, id, now, reason) && OnlyAt(a, b, id)
  }

  ghost predicate DroppedFrom(a: Store, b: Store, aged: seq<Id>) {
    !a.foreign.failed && Readable(a.records, aged) && b == DropAll(a, aged)
  }

  ghost predicate ReplayedFrom(a: Store, b: Store, id: Id) {
    && !a.foreign.ready && !a.foreign.failed && id in a.records && a.records[id].HashKey?
    && CheckRecord(a.records[id].hash, "failed", false, false) && Replayable(a.records[id].hash)
    && b == Replayed(a, id) && OnlyAt(a, b, id)
  }

  // Of a record just retained and the batch pruned after it.
  lemma RetainedSurvives(a: Store, mid: Store, id: Id, now: int, reason: string, aged: seq<Id>)
    requires RetainedFrom(a, mid, id, now, reason) && !mid.foreign.failed && Readable(mid.records, aged)
    ensures StateIs(DropAll(mid, aged), id, "failed") <==> id !in aged
    ensures id in DropAll(mid, aged).records <==> id !in aged
  {
    hide OnlyAt, ReleaseEntry, DropAll;
    DropAllIs(mid, aged);
  }

  // The task failed and its replay counter cannot be incremented.
  predicate ReplayAtLimit(db: Store, id: Id) {
    StateIs(db, id, "failed") && Count(db.records[id].hash.rp) == MAX_INT64
  }

  // ------------------------------------------------------------------ facts about one receive

  lemma EmptyView()
    ensures ViewOf(EMPTY_STREAM, EMPTY_KEYS) == EMPTY_STORE && Coherent(EMPTY_STORE) && Abs(EMPTY_STORE, {}) == EMPTY
  {
    hide Coherent, Abs, Ahead, Behind;
    EmptySplit();
    EmptyStore();
  }

  lemma EmptyStore()
    ensures Coherent(EMPTY_STORE) && Abs(EMPTY_STORE, {}) == EMPTY
  {
    hide SoundHash;
    assert ReadyIds([]) == [];
  }

  lemma PeekIsHead(stream: Stream, keys: Keys)
    ensures var db := ViewOf(stream, keys);
            Range(stream.entries, stream.cursor) == if db.undelivered == [] then None else Some(db.undelivered[0])
  {
    RangeIsNext(stream.entries, stream.cursor);
    NextIsHead(stream);
  }

  lemma ReadKeepsRecords(db: Store)
    requires !db.foreign.ready && db.group && db.undelivered != []
    ensures XreadGroup(db).records == db.records && XreadGroup(db).foreign == db.foreign
  {
  }

  lemma ViewIds(stream: Stream, keys: Keys)
    ensures SoundIds(ViewOf(stream, keys))
  {
    SplitOrdered(stream);
    hide Ahead, Behind;
  }

  lemma LeaseAnswered(o: Options, mid: Store, b: Store, who: Id, token: Token, now: int, reply: Reply)
    requires who in mid.records
    requires Passes(mid.records, who, "inflight") ==> TakenOver(o, mid, b, who, token, now, reply)
    requires !Passes(mid.records, who, "inflight") ==> b == mid && reply == Refused(FaultOf(mid.records[who]))
    ensures reply.Delivered? <==> Passes(mid.records, who, "inflight")
    ensures reply.Delivered? ==> reply.delivery.id == who && reply.delivery.recovered && OnlyClaimed(mid, b, who)
  {
    if Passes(mid.records, who, "inflight") {
      TakenOverFrame(o, mid, b, who, token, now, reply);
    }
    hide Reports, Reclaimed, CheckRecord, ClaimedDelivery;
  }

  lemma HeadAnswered(o: Options, start: Store, mid: Store, b: Store, who: Id, token: Token, now: int, reply: Reply)
    requires HeadAnswer(o, start, mid, b, who, token, now, reply)
    ensures reply.Delivered? ==> reply.delivery.id == who && !reply.delivery.recovered && OnlyClaimed(mid, b, who)
                                 && Passes(mid.records, who, "ready")
  {
    if reply.Delivered? {
      HeadTakenFrame(o, mid, b, who, token, now, reply);
    }
    hide Reports, Taken, CheckRecord, ClaimedDelivery;
  }

  lemma CleanedSelf(a: Store)
    ensures LeasesCleaned(a, a)
  {
  }

  lemma SelfKept(a: Store)
    ensures RecordsKept(a.records, a.records, {})
  {
  }

  lemma ForeignFacts(a: Store, now: int)
    ensures a.foreign.ready || a.foreign.delayed || a.foreign.leases ==> !Clash(a, now) && !Coherent(a)
    ensures !AllDuePass(a, now) ==> !Clash(a, now)
    ensures FoundEmpty(a, now) ==>
      !a.foreign.ready && !a.foreign.delayed && !a.foreign.leases && AllDuePass(a, now)
  {
    hide SoundHash, CheckRecord;
  }

  // An error of step 1.
  lemma EarlyRefusal(o: Options, a: Store, issued: set<Token>, now: int, token: Token)
    requires !AllDuePass(a, now)
    ensures Coherent(a) ==> Blocked(Abs(a, issued), now)
    ensures Coherent(a) && token !in issued ==>
      ReceiveStep(o, a, issued, a, issued, now, token, Refused(CorruptRecord),
          Event.Receive(now, token, [], Aborted(CorruptRecord)))
  {
    hide Coherent, AllDuePass, ReceiveStep, Abs, AtLimit;
    if Coherent(a) {
      DueBlocks(a, now, issued);
      CoherentScores(a, issued);
      hide RangeByScore;
      if token !in issued {
        AbortedAtOnce(o, a, issued, now, token);
      }
    }
  }

  // What steps 2 and 3 leave of any namespace.
  lemma LateFacts(a: Store, now: int, recovered: Store, mid: Store, b: Store, reply: Reply, who: Option<Id>)
    requires !a.foreign.ready && !a.foreign.delayed && !a.foreign.leases && AllDuePass(a, now)
    requires LeasesCleaned(Moved(a, now), recovered) && HeadsCleaned(recovered, mid)
    requires !reply.Delivered? ==> b == mid
    requires reply.Delivered? ==>
      && OnlyClaimed(mid, b, reply.delivery.id)
      && Passes(mid.records, reply.delivery.id, if reply.delivery.recovered then "inflight" else "ready")
    requires reply.Refused? && who.Some? ==> who.value in mid.records && reply.why == FaultOf(mid.records[who.value])
    requires reply.Refused? && who.Some? && who != Pick(Moved(a, now), now) ==> !Passes(mid.records, who.value, "ready")
    requires var live := Pick(Moved(a, now), now);
      live.Some? && !Passes(mid.records, live.value, "inflight") ==> reply.Refused? && who == live
    ensures reply.Refused? ==> KeepsClaims(a, b)
    ensures reply.Refused? && who.Some? ==> who.value in a.records && (Untouched(a, b, who.value) <==> !Clash(a, now))
    ensures Clash(a, now) ==> reply == Refused(CorruptRecord) && who == Pick(a, now)
    ensures reply.Delivered? ==> Checked(a.records, reply.delivery)
    ensures RecordsKept(a.records, b.records, if reply.Delivered? then {reply.delivery.id} else {})
  {
    MovedFrame(a, now);
    BatchPromotable(a, now);
    var start := Moved(a, now);
    FirstLiveSame(a.leases, a.records, start.records, now, ATTEMPTS);
    FirstLiveIn(a.leases, a.records, now, ATTEMPTS);
    assert Pick(start, now) == Pick(a, now);
    assert mid.records == start.records;
    if Clash(a, now) {
      ReadyIsNotInflight(start.records, Pick(a, now).value);
    }
    hide Moved, AllDuePass, Batch, DueBatch, FirstLive, CheckRecord, LeasesCleaned, HeadsCleaned, Pick, Untouched,
      KeepsClaims;
    LateClaims(a, now, recovered, mid);
    if reply.Refused? && who.Some? {
      LateUntouched(a, now, recovered, mid, who.value);
    }
  }

  lemma ReadyIsNotInflight(records: map<Id, Record>, id: Id)
    requires Passes(records, id, "ready")
    ensures !Passes(records, id, "inflight") && FaultOf(records[id]) == CorruptRecord
  {
  }

  // On a coherent namespace what step 1 leaves is where the task machine starts.
  lemma LateCoherent(a: Store, held: set<Token>, now: int, token: Token)
    requires Coherent(a) && AllDuePass(a, now) && !a.foreign.ready && !a.foreign.delayed
    ensures Coherent(Moved(a, now)) && (LateRefusal(Moved(a, now), now) <==> Blocked(Abs(a, held), now))
    ensures token !in held ==> Starts(a, Moved(a, now), held, now, token, Batch(a, now))
  {
    BatchOnCoherent(a, now);
    BatchPromotable(a, now);
    LateBlocks(a, now, held);
    DropNone(PromoteAll(XgroupCreate(a), Batch(a, now)));
    Started(a, held, now, Batch(a, now));
    hide Blocked, LateRefusal, PromoteAll, AllDuePass, Batch;
  }

  class RedisServer {
    const opts: Options
    var stream: Stream
    var keys: Keys
    // Every token ever handed out, and the steps all clients have taken so far.
    ghost var issued: set<Token>
    ghost var run: Run

    // The namespace with the stream split at the cursor of the group.
    ghost function Db(): Store
      reads `stream, `keys
    {
      ViewOf(stream, keys)
    }

    ghost predicate Valid()
      reads this
    {
      Coherent(Db()) && Lawful(opts, run) && run.Last() == Abs(Db(), issued)
    }

    constructor (opts: Options)
      requires ValidOptions(opts)
      ensures Valid() && this.opts == opts && Db() == EMPTY_STORE && run == Run([EMPTY], [])
    {
      EmptyView();
      hide ViewOf, Coherent, Abs;
      this.opts, stream, keys, issued, run := opts, EMPTY_STREAM, EMPTY_KEYS, {}, Run([EMPTY], []);
    }

    lemma RunBegins()
      requires Valid()
      ensures run.states != []
    {
    }

    // Appends a step that the namespace already shows.
    ghost method Record(e: Event, was: Store, held: set<Token>)
      requires Coherent(Db()) && Lawful(opts, run) && run.Last() == Abs(was, held) && Reached(run, e.now)
      requires Enabled(opts, Abs(was, held), e) && Abs(Db(), issued) == Next(opts, Abs(was, held), e)
      modifies `run
      ensures Valid() && Reached(run, e.now) && Grew(old(run), run, [e])
    {
      hide Coherent, Abs, Enabled, Next, Lawful, ViewOf;
      ExtendLawful(opts, run, e);
      run := Extended(opts, run, e);
    }

    // Appends the two steps of a script; mid is the namespace between them.
    ghost method RecordTwice(x: Event, y: Event, was: Store, mid: Store)
      requires Coherent(Db()) && Lawful(opts, run) && run.Last() == Abs(was, issued) && Reached(run, x.now)
               && x.now == y.now
      requires Enabled(opts, Abs(was, issued), x) && Abs(mid, issued) == Next(opts, Abs(was, issued), x)
      requires Enabled(opts, Abs(mid, issued), y) && Abs(Db(), issued) == Next(opts, Abs(mid, issued), y)
      modifies `run
      ensures Valid() && Reached(run, y.now) && Grew(old(run), run, [x, y])
    {
      hide Coherent, Abs, Enabled, Next, Lawful, ViewOf;
      ExtendLawful(opts, run, x);
      var r := Extended(opts, run, x);
      ExtendLawful(opts, r, y);
      GrewTwice(run, r, Extended(opts, r, y), x, y);
      run := Extended(opts, r, y);
    }

    // ---------------------------------------------------------------- commands

    method AddEntry(id: Id)
      requires !keys.foreign.ready
      modifies `stream
      ensures Db() == Xadd(old(Db()), id)
    {
      AddSplit(stream, id);
      hide Ahead, Behind;
      stream := Add(stream, id);
    }

    method CreateWorkers()
      requires !keys.foreign.ready
      modifies `stream
      ensures Db() == XgroupCreate(old(Db()))
    {
      stream := CreateGroup(stream);
    }

    method DeleteEntry(eid: nat)
      requires !keys.foreign.ready
      modifies `stream
      ensures Db() == Xdel(old(Db()), eid)
    {
      DeleteSplit(stream, eid);
      hide Ahead, Behind, Without;
      stream := Delete(stream, eid);
    }

    // XRANGE ready (last + COUNT 1, where last is the group's last-delivered-id from XINFO GROUPS.
    method PeekAfter(last: nat) returns (head: Option<Entry>)
      requires !keys.foreign.ready
      ensures head == Range(stream.entries, last)
    {
      head := Range(stream.entries, last);
    }

    // XREADGROUP GROUP workers c COUNT 1 STREAMS ready >
    method ReadNext() returns (read: Option<Entry>)
      requires !keys.foreign.ready && stream.group
      modifies `stream
      ensures read == NextEntry(old(stream))
      ensures read.None? ==> Db() == old(Db())
      ensures read.Some? ==> old(Db()).undelivered != [] && Db() == XreadGroup(old(Db()))
    {
      NextIsHead(stream);
      read := NextEntry(stream);
      if read.Some? {
        ReadSplit(stream);
        hide Ahead, Behind, NextEntry;
        stream := Read(stream);
      }
    }

    method ReleaseIt(e: Option<nat>)
      requires !keys.foreign.ready
      modifies `stream
      ensures Db() == ReleaseEntry(old(Db()), e)
    {
      if e.Some? {
        stream := Acknowledge(stream, e.value);
        DeleteEntry(e.value);
      }
    }

    // XCLAIM under pcall
    method ClaimAgain(e: Option<nat>)
      modifies `stream
      ensures Db() == if e.Some? then Xclaim(old(Db()), e.value) else old(Db())
    {
      if e.Some? {
        stream := Reassign(stream, e.value);
      }
    }

    method SetHash(id: Id, hash: Hash)
      requires id in keys.records ==> keys.records[id].HashKey?
      modifies `keys
      ensures Db() == Hset(old(Db()), id, hash)
    {
      keys := keys.(records := keys.records[id := HashKey(hash)]);
    }

    method SetScore(ix: Index, id: Id, score: int)
      requires !Wrong(Db(), ix)
      modifies `keys
      ensures Db() == Zadd(old(Db()), ix, id, score)
    {
      match ix {
        case DelayedIndex => keys := keys.(delayed := keys.delayed[id := score]);
        case LeaseIndex => keys := keys.(leases := keys.leases[id := score]);
        case FailedIndex => keys := keys.(failed := keys.failed[id := score]);
      }
    }

    method RemoveScore(ix: Index, id: Id)
      requires !Wrong(Db(), ix)
      modifies `keys
      ensures Db() == Zrem(old(Db()), ix, id)
    {
      match ix {
        case DelayedIndex => keys := keys.(delayed := keys.delayed - {id});
        case LeaseIndex => keys := keys.(leases := keys.leases - {id});
        case FailedIndex => keys := keys.(failed := keys.failed - {id});
      }
    }

    method DeleteRecord(id: Id)
      modifies `keys
      ensures Db() == DelRecord(old(Db()), id)
    {
      keys := keys.(records := keys.records - {id});
    }

    method SetTombstone(id: Id, hash: Digest, until: int)
      modifies `keys
      ensures Db() == SetTomb(old(Db()), id, hash, until)
    {
      keys := keys.(tombs := keys.tombs[id := StringKey(Tombstone(hash, until))]);
    }

    // ---------------------------------------------------------------- receive

    // Step 1, reading only: which due retries can be moved, which index entries have no record.
    method CheckDue(now: int) returns (refusal: Option<Refusal>, promote: seq<Id>, stale: seq<Id>, ghost offender: Id)
      requires !keys.foreign.delayed
      ensures refusal.None? <==> AllDuePass(Db(), now)
      ensures refusal.None? ==> promote == Batch(Db(), now) && stale == Lacking(DueBatch(Db(), now), keys.records)
      ensures refusal.Some? ==> offender in keys.records && refusal.value == FaultOf(keys.records[offender])
    {
      hide CheckRecord, RangeByScore, Ahead, Behind;
      var due := RangeByScore(keys.delayed, now, PROMOTE_BATCH);
      promote, stale, offender := [], [], "";
      for i := 0 to |due|
        invariant promote == Having(due[..i], keys.records) && stale == Lacking(due[..i], keys.records)
        invariant forall id :: id in due[..i] ==> DuePasses(keys.records, id)
      {
        var id := due[i];
        assert due[..i + 1][..i] == due[..i] && id in DueBatch(Db(), now);
        if id !in keys.records {
          stale := stale + [id];
        } else if keys.records[id].OtherKey? {
          return Some(WrongType), [], [], id;
        } else if !CheckRecord(keys.records[id].hash, "delayed", true, false) {
          return Some(CorruptRecord), [], [], id;
        } else {
          promote := promote + [id];
        }
      }
      assert due[..|due|] == due;
      refusal := None;
    }

    // The writes of step 1.
    method PromoteEach(promote: seq<Id>)
      requires !keys.foreign.ready && !keys.foreign.delayed && Promotables(Db(), promote)
      modifies `stream, `keys
      ensures Db() == PromoteAll(old(Db()), promote)
    {
      hide ViewOf, CheckRecord, Promoted;
      SameKeys();
      for i := 0 to |promote|
        invariant Db() == PromoteAll(old(Db()), promote[..i])
      {
        SameKeys();
        PromoteOne(promote[i]);
        assert promote[..i + 1][..i] == promote[..i];
      }
      assert promote[..|promote|] == promote;
    }

    // What the keys and the view have in common.
    lemma SameKeys()
      ensures Db().records == keys.records && Db().foreign == keys.foreign && Db().tombs == keys.tombs
      ensures Db().leases == keys.leases && Db().delayed == keys.delayed && Db().failed == keys.failed
      ensures Db().group == stream.group
    {
    }

    method PromoteOne(id: Id)
      requires !keys.foreign.ready && !keys.foreign.delayed && id in keys.records && keys.records[id].HashKey?
      modifies `stream, `keys
      ensures Db() == Promoted(old(Db()), id)
    {
      hide Ahead, Behind;
      var hash := keys.records[id].hash;
      AddEntry(id);
      SetHash(id, hash.(s := Some("ready")));
      RemoveScore(DelayedIndex, id);
    }

    method DropEach(stale: seq<Id>)
      requires !keys.foreign.delayed
      modifies `keys
      ensures Db() == DropDelayed(old(Db()), stale)
    {
      hide Ahead, Behind;
      for i := 0 to |stale|
        invariant Db() == DropDelayed(old(Db()), stale[..i])
      {
        RemoveScore(DelayedIndex, stale[i]);
        MembersGrow(stale, i);
      }
      assert stale[..|stale|] == stale;
    }

    /** Step 1: validates every due retry before it moves any; an error leaves the namespace as it was. */
    method MoveDue(now: int) returns (refusal: Option<Refusal>, ghost offender: Id)
      requires !keys.foreign.ready && !keys.foreign.delayed
      modifies `stream, `keys
      ensures refusal.None? <==> AllDuePass(old(Db()), now)
      ensures refusal.Some?
              ==> Db() == old(Db()) && offender in keys.records && refusal.value == FaultOf(keys.records[offender])
      ensures refusal.None? ==> Db() == Moved(old(Db()), now)
    {
      hide Ahead, Behind, CheckRecord, AllDuePass, Batch, DueBatch, Having, Lacking;
      var promote, stale;
      refusal, promote, stale, offender := CheckDue(now);
      if refusal.None? {
        BatchPromotable(Db(), now);
        CreateWorkers();
        PromoteEach(promote);
        DropEach(stale);
      }
    }

    // Step 2: take over the first live lease. mid is the namespace once stale index entries are gone.
    method Recover(now: int, token: Token) returns (reply: Option<Reply>, ghost mid: Store, ghost who: Id)
      requires !keys.foreign.leases
      modifies `stream, `keys, `issued
      ensures LeasesCleaned(old(Db()), mid)
      ensures Pick(old(Db()), now) == if reply.Some? then Some(who) else None
      ensures reply.None? ==> Db() == mid && issued == old(issued)
      ensures reply.Some? ==> who in mid.records
      ensures reply.Some? && Passes(mid.records, who, "inflight") ==>
        TakenOver(opts, mid, Db(), who, token, now, reply.value) && issued == old(issued) + {token}
      ensures reply.Some? && !Passes(mid.records, who, "inflight") ==>
        Db() == mid && issued == old(issued) && reply.value == Refused(FaultOf(mid.records[who]))
    {
      hide Count, RangeByScore, Reclaimed, Reports, ClaimedDelivery, ViewOf, CheckRecord, FirstLive, LeasesCleaned,
        Zrem;
      mid, who := Db(), "";
      SameKeys();
      CleanedSelf(mid);
      var i := 0;
      while i < ATTEMPTS
        invariant 0 <= i <= ATTEMPTS && Db() == mid && issued == old(issued)
        invariant !mid.foreign.leases
        invariant LeasesCleaned(old(Db()), mid)
        invariant FirstLive(mid.leases, mid.records, now, ATTEMPTS - i) == Pick(old(Db()), now)
      {
        SameKeys();
        LeaseLook(old(Db()), mid, now, ATTEMPTS - i);
        var cand := RangeByScore(keys.leases, now, 1);
        if |cand| == 0 {
          return None, mid, who;
        }
        var id := cand[0];
        who := id;
        if id !in keys.records {
          RemoveScore(LeaseIndex, id);
          mid := Db();
        } else if keys.records[id].OtherKey? {
          return Some(Refused(WrongType)), mid, who;
        } else if !CheckRecord(keys.records[id].hash, "inflight", true, false) {
          return Some(Refused(CorruptRecord)), mid, who;
        } else {
          var r := Reclaim(id, now, token);
          return Some(r), mid, who;
        }
        i := i + 1;
      }
      NoMoreTries(mid.leases, mid.records, now);
      reply := None;
    }

    method Reclaim(id: Id, now: int, token: Token) returns (reply: Reply)
      requires !keys.foreign.leases && id in keys.records && keys.records[id].HashKey?
      requires CheckRecord(keys.records[id].hash, "inflight", true, false)
      modifies `stream, `keys, `issued
      ensures Db() == Reclaimed(old(Db()), id, token, now + opts.lease) && issued == old(issued) + {token}
      ensures id in Db().records && Db().records[id].HashKey?
      ensures reply.Delivered? && Reports(reply, Delivered(ClaimedDelivery(Db(), id, token, true)))
    {
      hide CheckRecord, Reclaimed, Reports, ClaimedDelivery, ViewOf;
      PassedCheck(keys.records[id].hash);
      ReclaimWrites(id, token, now + opts.lease);
      issued := issued + {token};
      reply := Claimed(id, token, true);
    }

    method ReclaimWrites(id: Id, token: Token, until: int)
      requires !keys.foreign.leases && id in keys.records && keys.records[id].HashKey? && IsInc(keys.records[id].hash.n)
      modifies `stream, `keys
      ensures Db() == Reclaimed(old(Db()), id, token, until)
      ensures id in keys.records && keys.records[id].HashKey?
      ensures Db().records == keys.records
    {
      hide Ahead, Behind, Count, IsInc;
      var hash := keys.records[id].hash;
      CheckedIncrement(hash.n);
      SetHash(id, hash.(tok := Some(token), n := Hincr(hash.n)));
      SetScore(LeaseIndex, id, until);
      ClaimAgain(hash.e);
    }

    // The reply of a claim, as the client decodes it.
    method Claimed(id: Id, token: Token, recovered: bool) returns (reply: Reply)
      requires id in keys.records && keys.records[id].HashKey?
      ensures reply.Delivered? && Reports(reply, Delivered(ClaimedDelivery(Db(), id, token, recovered)))
    {
      var d := DeliveryFrom(keys.records[id].hash, id, token, recovered);
      var attempt := LuaNumber(d.attempt);
      reply := Delivered(d.(attempt := attempt));
    }

    /** Step 3: claim the oldest undelivered entry, after its record has been checked. */
    method ClaimHead(now: int, token: Token) returns (reply: Reply, ghost mid: Store, ghost who: Id)
      requires !keys.foreign.ready && !keys.foreign.leases && stream.group
      modifies `stream, `keys, `issued
      ensures HeadsCleaned(old(Db()), mid) && HeadAnswer(opts, old(Db()), mid, Db(), who, token, now, reply)
      ensures !reply.QueueEmpty? ==> |old(Db()).undelivered| < |mid.undelivered| + ATTEMPTS
      ensures issued == if reply.Delivered? then old(issued) + {token} else old(issued)
    {
      hide Count, Taken, Reports, ClaimedDelivery, HeadsCleaned, Ahead, Behind, CheckRecord;
      mid, who := Db(), "";
      HeadsCleanedNone(Db());
      var i := 0;
      while i < ATTEMPTS
        invariant 0 <= i <= ATTEMPTS && Db() == mid && issued == old(issued)
        invariant !keys.foreign.ready && !keys.foreign.leases && stream.group
        invariant HeadsCleaned(old(Db()), mid) && |old(Db()).undelivered| == |mid.undelivered| + i
      {
        var last := stream.cursor;
        var head := PeekAfter(last);
        PeekIsHead(stream, keys);
        if head.None? {
          return QueueEmpty, mid, who;
        }
        if head.value.id.None? {
          return Refused(CorruptRecord), mid, who;
        }
        var id := head.value.id.value;
        who := id;
        if id !in keys.records {
          ViewIds(stream, keys);
          DropHead(Db());
          HeadsCleanedMore(old(Db()), Db());
          DeleteEntry(head.value.eid);
          mid := Db();
        } else if keys.records[id].OtherKey? {
          return Refused(WrongType), mid, who;
        } else if !CheckRecord(keys.records[id].hash, "ready", true, false) {
          return Refused(CorruptRecord), mid, who;
        } else {
          reply := Take(head.value, now, token);
          return reply, mid, who;
        }
        i := i + 1;
      }
      reply := QueueEmpty;
    }

    // head is what XRANGE found after the last-delivered-id.
    method Take(head: Entry, now: int, token: Token) returns (reply: Reply)
      requires !keys.foreign.ready && !keys.foreign.leases && stream.group
      requires Range(stream.entries, stream.cursor) == Some(head) && head.id.Some?
      requires Passes(keys.records, head.id.value, "ready")
      modifies `stream, `keys, `issued
      ensures old(Db()).undelivered != [] && old(Db()).undelivered[0] == head
      ensures Db() == Taken(old(Db()), head.id.value, token, now + opts.lease) && issued == old(issued) + {token}
      ensures head.id.value in Db().records && Db().records[head.id.value].HashKey?
      ensures reply.Delivered? && Reports(reply, Delivered(ClaimedDelivery(Db(), head.id.value, token, false)))
    {
      hide Ahead, Behind, Count, IsInc, Reports, Range, From, CheckRecord, XreadGroup, Taken, ClaimedDelivery;
      var id := head.id.value;
      PeekIsHead(stream, keys);
      RangeIsNext(stream.entries, stream.cursor);
      PassedCheck(keys.records[id].hash);
      ghost var was := Db();
      var read := ReadNext();
      assert read == Some(head);  // so the reply "stream head changed during claim" cannot come
      ReadKeepsRecords(was);
      TakeWrites(head, now, token, was);
      issued := issued + {token};
      reply := Claimed(id, token, false);
    }

    // The writes after XREADGROUP has delivered head; was is the namespace before it.
    method TakeWrites(head: Entry, now: int, token: Token, ghost was: Store)
      requires !was.foreign.ready && !was.foreign.leases && was.group && was.undelivered != []
               && was.undelivered[0] == head
      requires head.id.Some? && head.id.value in was.records && was.records[head.id.value].HashKey?
      requires IsInc(was.records[head.id.value].hash.n) && Db() == XreadGroup(was)
      modifies `keys
      ensures Db() == Taken(was, head.id.value, token, now + opts.lease)
      ensures head.id.value in keys.records && keys.records[head.id.value].HashKey?
    {
      hide Ahead, Behind, Count, IsInc, ViewOf, XreadGroup;
      var id := head.id.value;
      SameKeys();
      ReadKeepsRecords(was);
      var hash := keys.records[id].hash;
      CheckedIncrement(hash.n);
      SetHash(id, hash.(s := Some("inflight"), tok := Some(token), e := Some(head.eid), n := Hincr(hash.n)));
      SetScore(LeaseIndex, id, now + opts.lease);
      SameKeys();
    }

    // Steps 2 and 3, after the due retries of the namespace a have been moved.
    method ClaimNext(now: int, token: Token, ghost a: Store, ghost promote: seq<Id>)
      returns (reply: Reply, ghost recovered: Store, ghost mid: Store, ghost who: Option<Id>, ghost outcome: Outcome)
      requires !keys.foreign.ready && !keys.foreign.leases && stream.group
      modifies `stream, `keys, `issued
      ensures LeasesCleaned(old(Db()), recovered) && HeadsCleaned(recovered, mid)
      ensures reply.Refused? || reply.QueueEmpty? || reply.Delivered?
      ensures !reply.Delivered? ==> Db() == mid && issued == old(issued)
      ensures reply.Delivered? ==>
        && OnlyClaimed(mid, Db(), reply.delivery.id)
        && Passes(mid.records, reply.delivery.id, if reply.delivery.recovered then "inflight" else "ready")
      ensures reply.Refused? && who.None? ==> mid.undelivered != [] && mid.undelivered[0].id.None?
      ensures reply.Refused? && who.Some? ==> who.value in mid.records && reply.why == FaultOf(mid.records[who.value])
      ensures reply.Refused? && who.Some? && who != Pick(old(Db()), now) ==> !Passes(mid.records, who.value, "ready")
      ensures Pick(old(Db()), now).Some? && !Passes(mid.records, Pick(old(Db()), now).value, "inflight") ==>
        reply.Refused? && who == Pick(old(Db()), now)
      ensures reply.QueueEmpty? <==>
        Pick(old(Db()), now).None? && NothingWaiting(old(Db()).undelivered, old(Db()).records)
      ensures Coherent(old(Db())) ==> (reply.Refused? <==> LateRefusal(old(Db()), now))
      ensures Starts(a, old(Db()), old(issued), now, token, promote) ==>
        ReceiveStep(opts, a, old(issued), Db(), issued, now, token, reply, Event.Receive(now, token, promote, outcome))
    {
      hide Coherent, ReceiveStep, HeadsCleaned, LateRefusal, Pick, Ahead, Behind, Passes, Starts, TakenOver, HeadTaken,
           OnlyClaimed, NothingWaiting;
      ghost var start, held := Db(), issued;
      var claimed, cleaned, taker := Recover(now, token);
      recovered, mid := cleaned, cleaned;
      HeadsCleanedNone(cleaned);
      if claimed.Some? {
        reply, who := claimed.value, Some(taker);
        LeaseAnswered(opts, mid, Db(), taker, token, now, reply);
        outcome := if reply.Refused? then Aborted(CorruptRecord) else Recovered(taker);
        if Starts(a, start, held, now, token, promote) {
          LeaseOutcome(opts, a, start, held, mid, Db(), issued, now, token, promote, taker, reply);
        }
      } else {
        ghost var head: Id;
        reply, mid, head := ClaimHead(now, token);
        HeadAnswered(opts, recovered, mid, Db(), head, token, now, reply);
        HeadEmptyIff(opts, recovered, mid, Db(), head, token, now, reply);
        who := if reply.Refused? && mid.undelivered[0].id.None? then None else Some(head);
        outcome := if reply.Refused? then Aborted(CorruptRecord) else if reply.QueueEmpty? then Nothing else Fresh;
        if Starts(a, start, held, now, token, promote) {
          StartFacts(a, start, held, now, token, promote);
          CoherentMid(start, recovered, mid);
          HeadOutcome(opts, a, start, held, mid, Db(), issued, now, token, promote, head, reply);
        }
      }
      if Coherent(start) {
        RefusalIs(opts, start, recovered, mid, Db(), who.GetOr(""), token, now, reply);
      }
    }

    /** receiveScript, on any namespace. An error claims nothing, and leaves the record at fault, its index
        entries and its stream entries as they were unless that record clashes: it is in the delayed batch and
        is the first live lease as well. A delivered record has passed its check, and no other record changes
        but those promoted, which have passed theirs. The answer that the queue is empty comes exactly when
        FoundEmpty says so, which is possible with tasks ready behind ATTEMPTS dangling entries. On a coherent
        namespace the script is a Receive of the task machine and refuses exactly when the counter limit stands in
        the way. */
    method ReceiveScript(now: int, token: Token) returns (reply: Reply, ghost who: Option<Id>, ghost e: Event)
      modifies `stream, `keys, `issued
      ensures reply.Refused? || reply.QueueEmpty? || reply.Delivered?
      ensures reply.Refused? ==> KeepsClaims(old(Db()), Db()) && issued == old(issued)
      ensures reply.Refused? && who.Some? ==>
        who.value in old(Db()).records && (Untouched(old(Db()), Db(), who.value) <==> !Clash(old(Db()), now))
      ensures reply.Refused? && who.None? ==>
        Db() == old(Db()) || (Db().undelivered != [] && Db().undelivered[0].id.None?)
      ensures Clash(old(Db()), now) ==> reply == Refused(CorruptRecord) && who == Pick(old(Db()), now)
      ensures reply.QueueEmpty? <==> FoundEmpty(old(Db()), now)
      ensures reply.Delivered? ==> Checked(old(Db()).records, reply.delivery)
      ensures RecordsKept(old(Db()).records, Db().records, if reply.Delivered? then {reply.delivery.id} else {})
      ensures Coherent(old(Db())) && token !in old(issued) ==>
        ReceiveStep(opts, old(Db()), old(issued), Db(), issued, now, token, reply, e)
      ensures Coherent(old(Db())) ==> (reply.Refused? <==> Blocked(Abs(old(Db()), old(issued)), now))
      ensures e.Receive?
      ensures Coherent(old(Db())) ==>
        PromotesDue(Abs(old(Db()), old(issued)), now, e.promoted) || (reply.Refused? && e.promoted == [])
    {
      hide Coherent, ReceiveStep, HeadsCleaned, LeasesCleaned, Untouched, Clash, Blocked, Abs, Ahead, Behind, Moved,
           AllDuePass, RecordsKept, Checked, Starts, LateRefusal, OnlyClaimed, Passes, Pick, KeepsClaims, FoundEmpty,
           NothingWaiting, PromotesDue;
      ghost var a := Db();
      e := Event.Receive(now, token, [], Aborted(CorruptRecord));
      UntouchedSelf(a);
      SelfKept(a);
      ForeignFacts(a, now);
      if keys.foreign.ready || keys.foreign.delayed || keys.foreign.leases {
        return Refused(WrongType), None, e;
      }
      var refusal, offender := MoveDue(now);
      if refusal.Some? {
        EarlyRefusal(opts, a, issued, now, token);
        if Coherent(a) {
          CoherentKeys(a);
          RefusedIsCorrupt(a, offender);
        }
        return Refused(refusal.value), Some(offender), e;
      }
      MovedFrame(a, now);
      FoundEmptyLate(a, now);
      ghost var start, held := Db(), issued;
      ghost var recovered: Store, mid: Store, outcome: Outcome;
      reply, recovered, mid, who, outcome := ClaimNext(now, token, a, Batch(a, now));
      e := Event.Receive(now, token, Batch(a, now), outcome);
      LateFacts(a, now, recovered, mid, Db(), reply, who);
      if Coherent(a) {
        LateCoherent(a, held, now, token);
        BatchPromotesDue(a, now, held);
      }
    }

    // ---------------------------------------------------------------- the other scripts

    /** enqueueScript */
    method EnqueueScript(now: int, id: Id, data: Bytes, dedup: bool) returns (reply: Reply)
      modifies `stream, `keys
      ensures reply != Accepted ==> Db() == old(Db())
      ensures reply == Accepted
              ==> !old(Db()).foreign.ready && id !in old(Db()).records && Db() == Enqueued(old(Db()), id, data, dedup)
      ensures Coherent(old(Db())) && ValidId(id) && data != [] ==>
        IsStep(opts, old(Db()), Db(), issued, reply, Event.Enqueue(now, id, data, dedup))
    {
      hide Coherent, Abs, Ahead, Behind, ViewOf, OnlyAt, Enqueued;
      SameKeys();
      if Coherent(Db()) {
        AdmissionIs(Db(), now, id, data, dedup, issued);
        CoherentKeys(Db());
        if id !in Db().records && data != [] {
          EnqueuedCoherent(Db(), id, data, dedup, issued);
        }
      }
      if keys.foreign.ready {
        return Refused(WrongType);
      }
      if id in keys.records {
        if keys.records[id].OtherKey? {
          return Refused(WrongType);
        }
        reply := if keys.records[id].hash.h == Some(Digest(data)) then Duplicate else Conflict;
      } else if dedup && TombAlive(keys.tombs, now, id) {
        if keys.tombs[id].OtherTomb? {
          return Refused(WrongType);
        }
        reply := if keys.tombs[id].tomb.hash == Digest(data) then Duplicate else Conflict;
      } else {
        EnqueueWrites(id, data, dedup);
        reply := Accepted;
      }
    }

    method EnqueueWrites(id: Id, data: Bytes, dedup: bool)
      requires !keys.foreign.ready && id !in keys.records
      modifies `stream, `keys
      ensures Db() == Enqueued(old(Db()), id, data, dedup)
    {
      hide Ahead, Behind;
      AddEntry(id);
      SetHash(id, Hash(Some("ready"), Some(data), Some(Digest(data)), Some(if dedup then "1" else "0"),
                       Some(Print(0)), Some(Print(0)), Some(Print(0)), None, None, None, None));
    }

    /** ackScript */
    method AckScript(now: int, id: Id, token: Token) returns (reply: Reply)
      modifies `stream, `keys
      ensures reply != Done || id !in old(Db()).records ==> Db() == old(Db())
      ensures reply == Done && id in old(Db()).records ==>
        && Held(old(Db()), id, token)
        && AckedFrom(old(Db()), Db(), id, now + opts.dedupWindow, opts.dedupWindow)
      ensures Coherent(old(Db())) ==> IsStep(opts, old(Db()), Db(), issued, reply, Event.Ack(now, id, token))
    {
      hide Coherent, IsStep, Abs, Ahead, Behind, ViewOf, OnlyAt, Acked;
      SameKeys();
      if Coherent(Db()) {
        StaleIsStep(opts, Db(), issued, now, id, token, 0, "");
        CoherentKeys(Db());
      }
      if id !in keys.records {
        return Done;
      }
      if keys.records[id].OtherKey? || keys.foreign.ready || keys.foreign.leases {
        return Refused(WrongType);
      }
      var hash := keys.records[id].hash;
      if hash.s != Some("inflight") || hash.tok != Some(token) {
        return LeaseLost;
      }
      if Coherent(Db()) {
        AckReads(Db(), id);
        AckedStep(opts, Db(), id, token, now, issued);
      }
      if hash.dd == Some("1") && opts.dedupWindow > 0 {
        if TombAlive(keys.tombs, now, id) && keys.tombs[id].OtherTomb? {
          return Refused(WrongType);
        }
        if hash.h.None? {
          return Refused(ScriptError);
        }
      }
      AckedOnlyAt(Db(), id, now + opts.dedupWindow, opts.dedupWindow);
      AckWrites(id, now + opts.dedupWindow);
      reply := Done;
    }

    method AckWrites(id: Id, until: int)
      requires !keys.foreign.ready && !keys.foreign.leases && id in keys.records && keys.records[id].HashKey?
      requires keys.records[id].hash.dd == Some("1") && opts.dedupWindow > 0 ==> keys.records[id].hash.h.Some?
      modifies `stream, `keys
      ensures Db() == Acked(old(Db()), id, until, opts.dedupWindow)
    {
      hide Ahead, Behind, ReleaseEntry;
      var hash := keys.records[id].hash;
      if hash.dd == Some("1") && opts.dedupWindow > 0 {
        SetTombstone(id, hash.h.value, until);
      }
      ReleaseIt(hash.e);
      RemoveScore(LeaseIndex, id);
      DeleteRecord(id);
    }

    /** renewScript */
    method RenewScript(now: int, id: Id, token: Token) returns (reply: Reply)
      modifies `keys
      ensures reply != Done ==> Db() == old(Db())
      ensures reply == Done ==> Held(old(Db()), id, token) && !old(Db()).foreign.leases
                                && Db() == Renewed(old(Db()), id, now + opts.lease)
      ensures Coherent(old(Db())) ==> IsStep(opts, old(Db()), Db(), issued, reply, Event.Renew(now, id, token))
    {
      hide Coherent, IsStep, Abs, Ahead, Behind;
      SameKeys();
      if Coherent(Db()) {
        StaleIsStep(opts, Db(), issued, now, id, token, 0, "");
        CoherentKeys(Db());
      }
      if id !in keys.records {
        return LeaseLost;
      }
      if keys.records[id].OtherKey? || keys.foreign.leases {
        return Refused(WrongType);
      }
      if keys.records[id].hash.s != Some("inflight") || keys.records[id].hash.tok != Some(token) {
        return LeaseLost;
      }
      if Coherent(Db()) {
        RenewedStep(opts, Db(), id, token, now, issued);
      }
      SetScore(LeaseIndex, id, now + opts.lease);
      reply := Done;
    }

    /** retryScript: it reports corruption only for a current claim whose retry counter is at its limit. */
    method RetryScript(now: int, id: Id, token: Token, delay: nat, reason: string) returns (reply: Reply)
      modifies `stream, `keys
      ensures reply != Done ==> Db() == old(Db())
      ensures reply == Done ==> Held(old(Db()), id, token) && RetriedFrom(old(Db()), Db(), id, now + delay, reason)
      ensures Coherent(old(Db())) && !reply.Refused? ==>
        IsStep(opts, old(Db()), Db(), issued, reply, Event.Retry(now, id, token, delay, reason))
      ensures Coherent(old(Db())) && reply.Refused? ==> reply.why == CorruptRecord
      ensures Coherent(old(Db())) ==> (reply.Refused? <==>
        Current(Abs(old(Db()), issued), id, token) && Abs(old(Db()), issued).tasks[id].retries == MAX_INT64)
    {
      hide Coherent, IsStep, Abs, Count, Current, CheckRecord, Ahead, Behind, ViewOf, OnlyAt, Retried;
      SameKeys();
      if Coherent(Db()) {
        StaleIsStep(opts, Db(), issued, now, id, token, delay, reason);
        CoherentKeys(Db());
        CurrentRetries(Db(), issued, id, token);
      }
      if id !in keys.records {
        return LeaseLost;
      }
      if keys.records[id].OtherKey? || keys.foreign.ready || keys.foreign.delayed || keys.foreign.leases {
        return Refused(WrongType);
      }
      var hash := keys.records[id].hash;
      if hash.s != Some("inflight") || hash.tok != Some(token) {
        return LeaseLost;
      }
      if !CheckRecord(hash, "inflight", false, true) {
        return Refused(CorruptRecord);
      }
      IncrementableRetries(hash);
      if Coherent(Db()) {
        RetriedStep(opts, Db(), id, token, now, delay, reason, issued);
      }
      RetriedOnlyAt(Db(), id, now + delay, reason);
      RetryWrites(id, now + delay, reason);
      reply := Done;
    }

    method RetryWrites(id: Id, due: int, reason: string)
      requires !keys.foreign.ready && !keys.foreign.delayed && !keys.foreign.leases
      requires id in keys.records && keys.records[id].HashKey? && IsInc(keys.records[id].hash.r)
      modifies `stream, `keys
      ensures Db() == Retried(old(Db()), id, due, reason)
    {
      hide Ahead, Behind, ReleaseEntry, IsInc, Count;
      var hash := keys.records[id].hash;
      CheckedIncrement(hash.r);
      ReleaseIt(hash.e);
      SetHash(id, hash.(s := Some("delayed"), err := Some(reason), tok := None, e := None, r := Hincr(hash.r)));
      SetScore(DelayedIndex, id, due);
      RemoveScore(LeaseIndex, id);
    }

    /** failScript: the Fail of the task machine, then a prune of at most PRUNE_BATCH aged failed tasks. mid is the
        namespace between the two. On any namespace the record just retained survives the prune exactly if its id
        was not in the batch, that is not among the earliest aged entries of the failed index before the call. */
    method FailScript(now: int, id: Id, token: Token, reason: string)
      returns (reply: Reply, ghost mid: Store, ghost aged: seq<Id>)
      modifies `stream, `keys
      ensures reply != Done ==> Db() == old(Db())
      ensures reply == Done ==>
        && Held(old(Db()), id, token) && RetainedFrom(old(Db()), mid, id, now, reason)
        && aged
           == (if opts.retention > 0 then RangeByScore(old(Db()).failed, now - opts.retention, PRUNE_BATCH) else [])
        && DroppedFrom(mid, Db(), aged)
        && (StateIs(Db(), id, "failed") <==> id !in aged) && (id in Db().records <==> id !in aged)
      ensures Coherent(old(Db())) ==> IsStep(opts, old(Db()), mid, issued, reply, Event.Fail(now, id, token, reason))
      ensures Coherent(old(Db())) && reply != Done ==> mid == Db()
      ensures Coherent(old(Db())) && reply == Done ==>
        IsStep(opts, mid, Db(), issued, Done, Event.Prune(now, Members(aged), {}))
    {
      hide Coherent, IsStep, Abs, Enabled, Dropped, RangeByScore, Ahead, Behind, ViewOf, OnlyAt, Retained;
      SameKeys();
      mid, aged := Db(), [];
      if Coherent(Db()) {
        StaleIsStep(opts, Db(), issued, now, id, token, 0, reason);
        CoherentKeys(Db());
      }
      if id !in keys.records {
        return LeaseLost, mid, aged;
      }
      if keys.records[id].OtherKey? || keys.foreign.ready || keys.foreign.leases || keys.foreign.failed {
        return Refused(WrongType), mid, aged;
      }
      var hash := keys.records[id].hash;
      if hash.s != Some("inflight") || hash.tok != Some(token) {
        return LeaseLost, mid, aged;
      }
      var gone := [];
      if opts.retention > 0 {
        gone := RangeByScore(keys.failed, now - opts.retention, PRUNE_BATCH);
      }
      if Coherent(Db()) {
        FailIsStep(opts, Db(), issued, now, id, token, reason, gone);
      }
      var bad := CheckGone(gone);
      if bad {
        return Refused(WrongType), mid, aged;
      }
      RetainedOnlyAt(Db(), id, now, reason);
      FailWrites(id, now, reason);
      SameKeys();
      mid, aged := Db(), gone;
      PruneEach(gone);
      RetainedSurvives(old(Db()), mid, id, now, reason, aged);
      reply := Done;
    }

    method FailWrites(id: Id, now: int, reason: string)
      requires !keys.foreign.ready && !keys.foreign.leases && !keys.foreign.failed
      requires id in keys.records && keys.records[id].HashKey?
      modifies `stream, `keys
      ensures Db() == Retained(old(Db()), id, now, reason) && keys.foreign == old(keys.foreign)
      ensures forall gone :: Readable(old(keys.records), gone) ==> Readable(keys.records, gone)
    {
      hide Ahead, Behind, ReleaseEntry;
      var hash := keys.records[id].hash;
      ReleaseIt(hash.e);
      SetHash(id, hash.(s := Some("failed"), err := Some(reason), fa := Some(now), tok := None, e := None));
      SetScore(FailedIndex, id, now);
      RemoveScore(LeaseIndex, id);
    }

    // Read-only: does any of these ids have a record key of another type?
    method CheckGone(gone: seq<Id>) returns (bad: bool)
      ensures bad <==> !Readable(keys.records, gone)
    {
      for i := 0 to |gone|
        invariant Readable(keys.records, gone[..i])
      {
        if gone[i] in keys.records && keys.records[gone[i]].OtherKey? {
          return true;
        }
      }
      assert gone[..|gone|] == gone;
      bad := false;
    }

    // The prune reads each state with HGET, which fails on a key of another type.
    method PruneEach(gone: seq<Id>)
      requires !keys.foreign.failed && Readable(keys.records, gone)
      modifies `keys
      ensures Db() == DropAll(old(Db()), gone)
    {
      hide Ahead, Behind;
      for i := 0 to |gone|
        invariant Readable(old(Db()).records, gone[..i]) && Db() == DropAll(old(Db()), gone[..i])
      {
        assert gone[..i + 1][..i] == gone[..i] && gone[i] in gone;
        if HgetState(keys.records, gone[i]) == Some("failed") {
          DeleteRecord(gone[i]);
        }
        RemoveScore(FailedIndex, gone[i]);
      }
      assert gone[..|gone|] == gone;
    }

    /** listFailedScript: the rows of the first limit ids of the index whose record says failed. On a coherent
        namespace these are the earliest failed tasks. */
    method ListFailedScript(limit: nat) returns (reply: Reply)
      ensures reply == if keys.foreign.failed then Refused(WrongType)
                       else Listed(Rows(keys.records, Ranking.Take(Ranked(keys.failed), limit)))
      ensures Coherent(Db()) ==>
        && reply == Listed(EarliestFailed(Abs(Db(), issued), limit))
        && FirstFailures(Abs(Db(), issued), limit, reply.messages)
    {
      if Coherent(Db()) {
        ListedIsEarliest(Db(), limit, issued);
        EarliestAreFirst(Abs(Db(), issued), limit);
      }
      hide Coherent, Abs, EarliestFailed, FirstFailures, Ranked, ViewOf, Rows;
      SameKeys();
      if keys.foreign.failed {
        return Refused(WrongType);
      }
      var ids := Ranking.Take(Ranked(keys.failed), limit);
      var out := CollectRows(ids);
      reply := Listed(out);
    }

    method CollectRows(ids: seq<Id>) returns (out: seq<FailedMessage>)
      ensures out == Rows(keys.records, ids)
    {
      out := [];
      for i := 0 to |ids|
        invariant out == Rows(keys.records, ids[..i])
      {
        assert ids[..i + 1][..i] == ids[..i];
        if ids[i] in keys.records && keys.records[ids[i]].HashKey?
            && HgetState(keys.records, ids[i]) == Some("failed") {
          out := out + [RowFrom(keys.records[ids[i]].hash, ids[i])];
        }
      }
      assert ids[..|ids|] == ids;
    }

    /** replayScript: it reports corruption only for a failed task whose replay counter is at its limit. */
    method ReplayScript(ghost now: int, id: Id) returns (reply: Reply)
      modifies `stream, `keys
      ensures reply != Done ==> Db() == old(Db())
      ensures reply == Done ==> ReplayedFrom(old(Db()), Db(), id)
      ensures Coherent(old(Db())) && !reply.Refused?
              ==> IsStep(opts, old(Db()), Db(), issued, reply, Event.Replay(now, id))
      ensures Coherent(old(Db())) && reply.Refused? ==> reply.why == CorruptRecord
      ensures Coherent(old(Db())) ==> (reply.Refused? <==> ReplayAtLimit(old(Db()), id))
    {
      hide Coherent, IsStep, Abs, Count, CheckRecord, IsInc, Ahead, Behind, ViewOf, OnlyAt, Replayed;
      SameKeys();
      if Coherent(Db()) {
        CoherentKeys(Db());
        ReplayOutcome(opts, Db(), issued, now, id);
      }
      if id !in keys.records {
        return NotFound;
      }
      if keys.records[id].OtherKey? || keys.foreign.ready || keys.foreign.failed {
        return Refused(WrongType);
      }
      var hash := keys.records[id].hash;
      if hash.s != Some("failed") {
        return NotFound;
      }
      if !CheckRecord(hash, "failed", false, false) {
        return Refused(CorruptRecord);
      }
      if hash.rp.Some? && !IsInc(hash.rp) {
        return Refused(CorruptRecord);
      }
      ReplayedOnlyAt(Db(), id);
      ReplayWrites(id);
      reply := Done;
    }

    method ReplayWrites(id: Id)
      requires !keys.foreign.ready && !keys.foreign.failed
      requires id in keys.records && keys.records[id].HashKey? && Replayable(keys.records[id].hash)
      modifies `stream, `keys
      ensures Db() == Replayed(old(Db()), id)
    {
      hide Ahead, Behind, IsInc, Count;
      var hash := keys.records[id].hash;
      ReplayCounter(hash.rp);
      AddEntry(id);
      SetHash(id, hash.(s := Some("ready"), r := Some(Print(0)), rp := Hincr(hash.rp)));
      RemoveScore(FailedIndex, id);
    }
  }

  // What the acknowledgement of a current claim reads is there.
  lemma AckReads(db: Store, id: Id)
    requires SoundKeys(db) && StateIs(db, id, "inflight")
    ensures db.records[id].hash.h.Some? && (id in db.tombs ==> db.tombs[id].StringKey?)
  {
  }

  lemma FailIsStep(o: Options, db: Store, issued: set<Token>, now: int, id: Id, token: Token, reason: string,
      gone: seq<Id>)
    requires Coherent(db) && StateIs(db, id, "inflight") && db.records[id].hash.tok == Some(token)
    requires gone == if o.retention > 0 then RangeByScore(db.failed, now - o.retention, PRUNE_BATCH) else []
    ensures forall j :: j in gone ==> StateIs(db, j, "failed")
    ensures var mid := Retained(db, id, now, reason); var e := Event.Prune(now, Members(gone), {});
      && IsStep(o, db, mid, issued, Done, Event.Fail(now, id, token, reason))
      && IsStep(o, mid, DropAll(mid, gone), issued, Done, e)
  {
    hide SoundIndexes, SoundPending, SoundReady, SoundIds, SoundHash, Abs, Next, ReplyTo, Retained,
      RangeByScore, Aged, Dropped;
    var mid := Retained(db, id, now, reason);
    RetainedStep(o, db, id, token, now, reason, issued);
    if o.retention > 0 {
      PrunableAged(o, db, now, PRUNE_BATCH, issued);
      RetainedOthers(o, db, id, token, now, reason, issued, gone);
    }
    DropAllStep(mid, gone, issued);
    PruneNext(o, Abs(mid, issued), now, Members(gone));
  }

  lemma PruneNext(o: Options, s: State, now: int, aged: set<Id>)
    requires forall id :: id in aged ==> Aged(o, s, now, id)
    ensures var e := Event.Prune(now, aged, {});
            Enabled(o, s, e) && Next(o, s, e) == s.(tasks := s.tasks - aged) && ReplyTo(o, s, e) == Done
  {
    assert s.done - {} == s.done;
  }

  // Failing one task leaves the tasks that failed before it alone.
  lemma RetainedOthers(o: Options, db: Store, id: Id, token: Token, now: int, reason: string, issued: set<Token>,
      gone: seq<Id>)
    requires Coherent(db) && StateIs(db, id, "inflight") && db.records[id].hash.tok == Some(token)
    requires forall j :: j in gone ==> StateIs(db, j, "failed") && Aged(o, Abs(db, issued), now, j)
    ensures var mid := Retained(db, id, now, reason);
            Coherent(mid) && forall j :: j in gone ==> StateIs(mid, j, "failed") && Aged(o, Abs(mid, issued), now, j)
  {
    hide SoundIndexes, SoundPending, SoundReady, SoundIds, SoundHash, Abs, Retained, Next;
    var mid := Retained(db, id, now, reason);
    RetainedOnlyAt(db, id, now, reason);
    RetainedStep(o, db, id, token, now, reason, issued);
    CurrentIsInflight(db, id, token, issued);
    CurrentNext(o, Abs(db, issued), now, id, token, 0, reason);
    forall j | j in gone ensures StateIs(mid, j, "failed") && Aged(o, Abs(mid, issued), now, j) {
      assert j != id;
    }
  }

  // ------------------------------------------------------------------ listing the failed tasks

  function RowFrom(hash: Hash, id: Id): FailedMessage {
    FailedMessage(id, hash.d.GetOr([]), Count(hash.n), hash.err.GetOr(""), hash.fa.GetOr(0))
  }

  function Rows(records: map<Id, Record>, ids: seq<Id>): seq<FailedMessage>
    decreases |ids|
  {
    if ids == [] then []
    else
      var last := ids[|ids| - 1];
      Rows(records, ids[..|ids| - 1])
      + if last in records && records[last].HashKey? && records[last].hash.s == Some("failed")
        then [RowFrom(records[last].hash, last)] else []
  }

  lemma {:induction false} RowsAreMessages(db: Store, ids: seq<Id>, issued: set<Token>)
    requires Coherent(db) && forall id :: id in ids ==> id in db.failed
    ensures Rows(db.records, ids) == Messages(Abs(db, issued), ids)
    decreases |ids|
  {
    hide SoundPending, SoundReady, SoundIds, SoundHash, Abs, Count;
    if ids != [] {
      var front, last := ids[..|ids| - 1], ids[|ids| - 1];
      RowsAreMessages(db, front, issued);
      assert last in ids;
      TasksOfSound(db, last, issued);
      assert Rows(db.records, ids) == Rows(db.records, front) + [RowFrom(db.records[last].hash, last)];
      assert Messages(Abs(db, issued), ids) == Messages(Abs(db, issued), front) + [Message(Abs(db, issued), last)];
    }
  }

  lemma ListedIsEarliest(db: Store, limit: nat, issued: set<Token>)
    requires Coherent(db)
    ensures !db.foreign.failed
    ensures Rows(db.records, Ranking.Take(Ranked(db.failed), limit)) == EarliestFailed(Abs(db, issued), limit)
  {
    hide SoundPending, SoundReady, SoundIds, SoundHash, Abs, SoundIndexes, Ranked, Rows, Messages;
    FailedIndexIsScores(db, issued);
    RankedLists(db.failed);
    var ids := Ranking.Take(Ranked(db.failed), limit);
    assert forall id :: id in ids ==> id in Ranked(db.failed);
    RowsAreMessages(db, ids, issued);
  }

  lemma IncrementableRetries(hash: Hash)
    requires CheckRecord(hash, "inflight", false, true)
    ensures IsInc(hash.r) && exists k: nat :: k < MAX_INT64 && hash.r.value == Print(k)
  {
    CheckedIncrement(hash.r);
  }

  lemma CurrentRetries(db: Store, issued: set<Token>, id: Id, token: Token)
    requires Coherent(db)
    ensures Current(Abs(db, issued), id, token)
            <==> StateIs(db, id, "inflight") && db.records[id].hash.tok == Some(token)
    ensures StateIs(db, id, "inflight") ==>
      id in Abs(db, issued).tasks
      && (CheckRecord(db.records[id].hash, "inflight", false, true) <==> Abs(db, issued).tasks[id].retries != MAX_INT64)
  {
    CurrentIsInflight(db, id, token, issued);
    hide SoundIndexes, SoundPending, SoundReady, SoundIds, SoundHash, Count, Abs, Current, CheckRecord;
    if StateIs(db, id, "inflight") {
      CheckOnCoherent(db, id, "inflight", false, true);
      TasksOfSound(db, id, issued);
    }
  }

  lemma ReplayOutcome(o: Options, db: Store, issued: set<Token>, now: int, id: Id)
    requires Coherent(db)
    ensures !StateIs(db, id, "failed") ==> IsStep(o, db, db, issued, NotFound, Event.Replay(now, id))
    ensures StateIs(db, id, "failed") ==>
      var hash := db.records[id].hash;
      && CheckRecord(hash, "failed", false, false) && hash.rp.Some?
      && (IsInc(hash.rp) <==> Count(hash.rp) != MAX_INT64)
      && (IsInc(hash.rp) ==> IsStep(o, db, Replayed(db, id), issued, Done, Event.Replay(now, id)))
  {
    FailedIsFailed(db, id, issued);
    hide SoundIndexes, SoundPending, SoundReady, SoundIds, Count, Abs, CheckRecord, IsCount, IsInc, Replayed;
    if StateIs(db, id, "failed") {
      CheckOnCoherent(db, id, "failed", false, false);
      IncFailsOnlyAtMax(db.records[id].hash.rp);
      if IsInc(db.records[id].hash.rp) {
        ReplayedStep(o, db, id, now, issued);
      }
    }
  }
}
