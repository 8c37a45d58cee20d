/** Concrete namespaces on which the scripts report corruption: a coherent one whose counters have reached the
    int64 limit, and one whose corrupt record a Receive promotes before it complains about it. */
module RedisWitnesses {
  import opened Basics
  import opened Ranking
  import opened Decimal
  import opened TaskMachine
  import opened RedisStore
  import opened RedisStream
  import opened RedisCoherence
  import opened RedisSteps
  import opened RedisReceive
  import opened RedisScripts

  const NOTHING_FOREIGN := Foreign(false, false, false, false)
  const ZERO_TEXT := Some(Print(0))
  const LIMIT_TEXT := Some(I64_MAX)

  function Plain(s: string): Hash {
    Hash(Some(s), Some([1]), Some(Digest([1])), Some("0"), ZERO_TEXT, ZERO_TEXT, ZERO_TEXT, None, None, None, None)
  }

  lemma CounterTexts()
    ensures IsCount(ZERO_TEXT) && IsInc(ZERO_TEXT) && Count(ZERO_TEXT) == 0
    ensures IsCount(LIMIT_TEXT) && Count(LIMIT_TEXT) == MAX_INT64
  {
    ZeroIsCount();
    IncFailsOnlyAtMax(ZERO_TEXT);
    LimitValues();
    IsIntExact(I64_MAX, I64_MAX);
  }

  // ------------------------------------------------------------------ counters at their limit

  // One task, ready after the largest number of deliveries ...
  const DELIVERED_OUT := Store(
    NOTHING_FOREIGN, [Entry(1, Some("a"))], map[], {}, true, 1, map[], map[], map[],
    map["a" := HashKey(Plain("ready").(n := LIMIT_TEXT))], map[])

  // ... inflight after the largest number of retries ...
  const RETRIED_OUT := Store(
    NOTHING_FOREIGN, [], map[1 := Some("a")], {1}, true, 1, map[], map["a" := 10], map[],
    map["a" := HashKey(Plain("inflight").(r := LIMIT_TEXT, tok := Some("t"), e := Some(1)))], map[])

  // ... or failed after the largest number of replays.
  const REPLAYED_OUT := Store(
    NOTHING_FOREIGN, [], map[], {}, true, 1, map[], map[], map["a" := 0],
    map["a" := HashKey(Plain("failed").(rp := LIMIT_TEXT, fa := Some(0)))], map[])

  /** Receive, Retry and Replay each answer that a record is corrupt on a coherent namespace. */
  lemma ReceiveRefusesCoherent()
    ensures Coherent(DELIVERED_OUT) && Blocked(Abs(DELIVERED_OUT, {}), 0)
  {
    hide IsInt, IsCount, Count, Print, RangeByScore;
    CounterTexts();
    assert ReadyIds(DELIVERED_OUT.undelivered) == ["a"];
    assert Abs(DELIVERED_OUT, {}).tasks["a"].deliveries == MAX_INT64;
  }

  lemma RetryRefusesCoherent()
    ensures Coherent(RETRIED_OUT)
    ensures Current(Abs(RETRIED_OUT, {}), "a", "t") && Abs(RETRIED_OUT, {}).tasks["a"].retries == MAX_INT64
  {
    hide Coherent, Abs, Current;
    RetriedOutIsCoherent();
    RetriedOutTask();
  }

  lemma RetriedOutIsCoherent()
    ensures Coherent(RETRIED_OUT)
  {
    hide IsInt, IsCount, Count, Print;
    CounterTexts();
    assert ReadyIds(RETRIED_OUT.undelivered) == [];
  }

  lemma RetriedOutTask()
    ensures Current(Abs(RETRIED_OUT, {}), "a", "t") && Abs(RETRIED_OUT, {}).tasks["a"].retries == MAX_INT64
  {
    hide IsInt, IsCount, Count, Print;
    CounterTexts();
  }

  lemma ReplayRefusesCoherent()
    ensures Coherent(REPLAYED_OUT) && ReplayAtLimit(REPLAYED_OUT, "a")
  {
    hide IsInt, IsCount, Count, Print;
    CounterTexts();
    assert ReadyIds(REPLAYED_OUT.undelivered) == [];
  }

  // ------------------------------------------------------------------ the record a Receive does not leave alone

  lemma Single(z: Scores, k: Id, max: int, limit: nat)
    requires k in z && z.Keys == {k}
    ensures First(z) == k && z != map[] && NoDup(RangeByScore(z, max, limit))
    ensures z[k] <= max && limit > 0 ==> k in RangeByScore(z, max, limit)
  {
    RangeLists(z, max, limit);
    hide RangeByScore;
  }

  // "x" waits for a retry at 100.
  const WAITING := Store(
    NOTHING_FOREIGN, [], map[], {}, true, 0, map["x" := 100], map[], map[],
    map["x" := HashKey(Plain("delayed"))], map[])

  lemma WaitingIsCoherent()
    ensures Coherent(WAITING)
  {
    hide IsInt, IsCount, Count, Print;
    CounterTexts();
    assert ReadyIds(WAITING.undelivered) == [];
  }

  // The record of "x" is deleted from outside, an enqueue of "x" is accepted and claimed at 0 ...
  function Reborn(db: Store): Store
    requires !db.foreign.ready
  {
    Enqueued(DelRecord(db, "x"), "x", [1], false)
  }

  function Claimed(): Store
    requires IsInc(ZERO_TEXT)
  {
    Taken(Reborn(WAITING), "x", "t", 500)
  }

  // ... and the state of the new record is overwritten from outside.
  function Corrupted(): Store
    requires IsInc(ZERO_TEXT)
  {
    var db := Claimed();
    Hset(db, "x", db.records["x"].hash.(s := Some("delayed")))
  }

  lemma CorruptedParts()
    requires IsInc(ZERO_TEXT)
    ensures var db := Corrupted();
      && db.foreign == NOTHING_FOREIGN && db.delayed == map["x" := 100] && db.leases == map["x" := 500]
      && db.records == map["x" := HashKey(Plain("delayed").(n := Hincr(ZERO_TEXT), tok := Some("t"), e := Some(1)))]
  {
    hide Hincr, IsInt, Print;
  }

  /** Two deletions or overwrites from outside are enough: at 500 the record is due and is the first live lease too, so
      one Receive promotes it and then answers that it is corrupt. */
  lemma ClashArises()
    ensures Coherent(WAITING) && IsInc(ZERO_TEXT) && Clash(Corrupted(), 500) && Pick(Corrupted(), 500) == Some("x")
  {
    WaitingIsCoherent();
    hide Coherent, Hincr, IsInt, Print, Corrupted, Count;
    CounterTexts();
    CorruptedParts();
    CheckedIncrement(ZERO_TEXT);
    IncFailsOnlyAtMax(Hincr(ZERO_TEXT));
    var db := Corrupted();
    Single(db.delayed, "x", 500, PROMOTE_BATCH);
    Single(db.leases, "x", 500, 1);
    hide RangeByScore;
  }

  // ------------------------------------------------------------------ the failure a Fail does not keep

  // "x" failed at 0.
  const KEPT := Store(
    NOTHING_FOREIGN, [], map[], {}, true, 0, map[], map[], map["x" := 0],
    map["x" := HashKey(Plain("failed").(fa := Some(0)))], map[])

  lemma KeptIsCoherent()
    ensures Coherent(KEPT)
  {
    hide IsInt, IsCount, Count, Print;
    CounterTexts();
    assert ReadyIds(KEPT.undelivered) == [];
  }

  // Deleted from outside, enqueued again and claimed as above, with the old entry still in the failed index.
  function ClaimedAgain(): Store
    requires IsInc(ZERO_TEXT)
  {
    Taken(Reborn(KEPT), "x", "t", 500)
  }

  lemma ClaimedAgainParts()
    requires IsInc(ZERO_TEXT)
    ensures var db := ClaimedAgain();
      && db.foreign == NOTHING_FOREIGN && db.failed == map["x" := 0]
      && db.records == map["x" := HashKey(Plain("inflight").(n := Hincr(ZERO_TEXT), tok := Some("t"), e := Some(1)))]
  {
    hide Hincr, IsInt, Print;
  }

  /** One deletion from outside is enough: with a retention of 500 a Fail at 1000 with the current token retains the
      task and then prunes it in the same script, though it has only just failed. */
  lemma FailureIsLost()
    ensures Coherent(KEPT) && IsInc(ZERO_TEXT) && Held(ClaimedAgain(), "x", "t")
    ensures var db := ClaimedAgain();
            var mid, aged := Retained(db, "x", 1000, "why"), RangeByScore(db.failed, 1000 - 500, PRUNE_BATCH);
            && RetainedFrom(db, mid, "x", 1000, "why") && StateIs(mid, "x", "failed")
            && Readable(mid.records, aged) && "x" !in DropAll(mid, aged).records
  {
    KeptIsCoherent();
    hide Coherent, Hincr, IsInt, Print, ClaimedAgain, Count, OnlyAt, DropAll, RangeByScore, Without;
    CounterTexts();
    ClaimedAgainParts();
    var db := ClaimedAgain();
    RetainedOnlyAt(db, "x", 1000, "why");
    var mid, aged := Retained(db, "x", 1000, "why"), RangeByScore(db.failed, 1000 - 500, PRUNE_BATCH);
    Single(db.failed, "x", 500, PRUNE_BATCH);
    assert mid.records.Keys == {"x"};
    RetainedSurvives(db, mid, "x", 1000, "why", aged);
  }

  // ------------------------------------------------------------------ the empty answer that hides a task

  // "a" is ready behind as many entries without a record as a receive looks at.
  function Hiding(): Store {
    var gone := seq(ATTEMPTS, i requires 0 <= i < ATTEMPTS => Entry(i + 1, Some("gone")));
    Store(NOTHING_FOREIGN, gone + [Entry(ATTEMPTS + 1, Some("a"))], map[], {}, true, ATTEMPTS + 1,
          map[], map[], map[], map["a" := HashKey(Plain("ready"))], map[])
  }

  lemma NoneInRange(max: int, limit: nat)
    ensures RangeByScore(map[], max, limit) == []
  {
    assert Ranking.UpTo(map[], max) == map[];
  }

  /** Receive answers that the queue is empty although a task is ready. */
  lemma EmptyThoughReady()
    ensures FoundEmpty(Hiding(), 0) && StateIs(Hiding(), "a", "ready")
  {
    hide CheckRecord, RangeByScore;
    var db := Hiding();
    NoneInRange(0, PROMOTE_BATCH);
    assert Batch(db, 0) == [] && Lacking([], db.records) == [];
    DropNone(db);
    assert Moved(db, 0) == db;
  }
}
