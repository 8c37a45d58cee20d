/** The receive script: what its three steps do to the namespace, that an error leaves the record at fault
    alone, and that on a coherent namespace the whole is a Receive of the task machine. */
module RedisReceive {
  import opened Basics
  import opened Ranking
  import opened Decimal
  import opened TaskMachine
  import opened RedisStore
  import opened RedisStream
  import opened RedisCoherence
  import opened RedisSteps

  const PROMOTE_BATCH: nat := 100
  const ATTEMPTS: nat := 20
  const PRUNE_BATCH: nat := 100

  // ------------------------------------------------------------------ promotion of a batch

  ghost predicate Promotables(db: Store, ids: seq<Id>) {
    NoDup(ids) && forall id :: id in ids ==> id in db.records && db.records[id].HashKey?
                                             && CheckRecord(db.records[id].hash, "delayed", true, false)
  }

  ghost function PromoteAll(db: Store, ids: seq<Id>): (t: Store)
    requires !db.foreign.ready && !db.foreign.delayed
    requires forall id :: id in ids ==> id in db.records && db.records[id].HashKey?
    ensures t.foreign == db.foreign && t.records.Keys == db.records.Keys
    ensures forall id :: id in db.records ==> (t.records[id].HashKey? <==> db.records[id].HashKey?)
    decreases |ids|
  {
    if ids == [] then db else Promoted(PromoteAll(db, ids[..|ids| - 1]), ids[|ids| - 1])
  }

  // Everything a batch leaves alone.
  lemma {:induction false} PromoteAllFrame(db: Store, ids: seq<Id>)
    requires !db.foreign.ready && !db.foreign.delayed
    requires forall id :: id in ids ==> id in db.records && db.records[id].HashKey?
    ensures var t := PromoteAll(db, ids);
            && t.leases == db.leases && t.failed == db.failed && t.tombs == db.tombs
            && t.delivered == db.delivered && t.pel == db.pel && t.group == db.group
            && db.undelivered <= t.undelivered
            && (forall x :: x in t.undelivered && x !in db.undelivered ==> x.id.Some? && x.id.value in ids)
            && (forall id :: id in db.records && id !in ids ==> t.records[id] == db.records[id])
            && (forall id :: id !in ids ==> (id in t.delayed <==> id in db.delayed))
            && (forall id :: id !in ids && id in db.delayed ==> t.delayed[id] == db.delayed[id])
    decreases |ids|
  {
    if ids != [] {
      var front, last := ids[..|ids| - 1], ids[|ids| - 1];
      PromoteAllFrame(db, front);
      assert ids == front + [last];
    }
  }

  // A promoted record is the old one, now ready.
  lemma {:induction false} PromoteAllRecords(db: Store, ids: seq<Id>)
    requires !db.foreign.ready && !db.foreign.delayed && NoDup(ids)
    requires forall id :: id in ids ==> id in db.records && db.records[id].HashKey?
    ensures forall id :: id in ids ==>
      PromoteAll(db, ids).records[id] == HashKey(db.records[id].hash.(s := Some("ready")))
    decreases |ids|
  {
    if ids != [] {
      var front, last := ids[..|ids| - 1], ids[|ids| - 1];
      assert ids == front + [last];
      assert last !in front;
      PromoteAllFrame(db, front);
      PromoteAllRecords(db, front);
    }
  }

  lemma PromoteOneMore(s: State, promoted: seq<Id>, id: Id)
    requires id in s.tasks && id !in promoted
    ensures Promote(s, promoted + [id])
            == var p := Promote(s, promoted); p.(tasks := p.tasks[id := p.tasks[id].(phase := Ready)],
                ready := p.ready + [id])
  {
  }

  lemma DelayedStays(db: Store, ids: seq<Id>, id: Id)
    requires !db.foreign.ready && !db.foreign.delayed && id !in ids && StateIs(db, id, "delayed")
    requires forall j :: j in ids ==> j in db.records && db.records[j].HashKey?
    ensures StateIs(PromoteAll(db, ids), id, "delayed")
  {
    PromoteAllFrame(db, ids);
  }

  /** Promoting a batch of delayed tasks keeps the namespace coherent and is Promote on the tasks. */
  lemma {:induction false} PromoteAllStep(db: Store, ids: seq<Id>, issued: set<Token>)
    requires Coherent(db) && NoDup(ids) && forall id :: id in ids ==> StateIs(db, id, "delayed")
    ensures Coherent(PromoteAll(db, ids))
    ensures Abs(PromoteAll(db, ids), issued) == Promote(Abs(db, issued), ids)
    decreases |ids|
  {
    hide SoundIndexes, SoundPending, SoundReady, SoundIds, SoundHash, Abs, Promote, Promoted;
    if ids == [] {
      PromoteNone(Abs(db, issued));
    } else {
      var front, last := ids[..|ids| - 1], ids[|ids| - 1];
      assert ids == front + [last] && last !in front;
      PromoteAllStep(db, front, issued);
      DelayedStays(db, front, last);
      PromotedStep(PromoteAll(db, front), last, issued);
      TasksOfSound(db, last, issued);
      PromoteOneMore(Abs(db, issued), front, last);
    }
  }

  lemma PromoteNone(s: State)
    ensures Promote(s, []) == s
  {
  }

  // ------------------------------------------------------------------ what each step looks at

  // The ids with a record, and those without, in order.
  function Having(ids: seq<Id>, records: map<Id, Record>): seq<Id> {
    if ids == [] then []
    else
      var last := ids[|ids| - 1];
      Having(ids[..|ids| - 1], records) + if last in records then [last] else []
  }

  function Lacking(ids: seq<Id>, records: map<Id, Record>): seq<Id> {
    if ids == [] then []
    else
      var last := ids[|ids| - 1];
      Lacking(ids[..|ids| - 1], records) + if last in records then [] else [last]
  }

  lemma {:induction false} HavingMembers(ids: seq<Id>, records: map<Id, Record>)
    ensures forall id :: id in Having(ids, records) <==> id in ids && id in records
    ensures forall id :: id in Lacking(ids, records) <==> id in ids && id !in records
    decreases |ids|
  {
    if ids != [] {
      var front, last := ids[..|ids| - 1], ids[|ids| - 1];
      assert ids == front + [last];
      HavingMembers(front, records);
    }
  }

  lemma {:induction false} HavingNoDup(ids: seq<Id>, records: map<Id, Record>)
    requires NoDup(ids)
    ensures NoDup(Having(ids, records))
    decreases |ids|
  {
    hide Lacking;
    if ids != [] {
      var front, last := ids[..|ids| - 1], ids[|ids| - 1];
      assert ids == front + [last] && last !in front;
      HavingNoDup(front, records);
      HavingMembers(front, records);
    }
  }

  lemma {:induction false} HavingAll(ids: seq<Id>, records: map<Id, Record>)
    requires forall id :: id in ids ==> id in records
    ensures Having(ids, records) == ids && Lacking(ids, records) == []
    decreases |ids|
  {
    if ids != [] {
      var front, last := ids[..|ids| - 1], ids[|ids| - 1];
      assert ids == front + [last];
      HavingAll(front, records);
    }
  }

  lemma HavingSplits(ids: seq<Id>, records: map<Id, Record>)
    ensures forall id :: id in Having(ids, records) <==> id in ids && id in records
    ensures forall id :: id in Lacking(ids, records) <==> id in ids && id !in records
    ensures NoDup(ids) ==> NoDup(Having(ids, records))
    ensures (forall id :: id in ids ==> id in records) ==> Having(ids, records) == ids && Lacking(ids, records) == []
  {
    hide Having, Lacking;
    HavingMembers(ids, records);
    if NoDup(ids) {
      HavingNoDup(ids, records);
    }
    if forall id :: id in ids ==> id in records {
      HavingAll(ids, records);
    }
  }

  // The batch step 1 looks at.
  function DueBatch(db: Store, now: int): seq<Id> {
    RangeByScore(db.delayed, now, PROMOTE_BATCH)
  }

  predicate DuePasses(records: map<Id, Record>, id: Id) {
    id in records ==> records[id].HashKey? && CheckRecord(records[id].hash, "delayed", true, false)
  }

  // Step 1 finds nothing wrong.
  ghost predicate AllDuePass(db: Store, now: int) {
    forall id :: id in DueBatch(db, now) ==> DuePasses(db.records, id)
  }

  ghost function Batch(db: Store, now: int): seq<Id> {
    Having(DueBatch(db, now), db.records)
  }

  lemma BatchPromotable(db: Store, now: int)
    requires AllDuePass(db, now)
    ensures Promotables(db, Batch(db, now))
    ensures forall id :: id in Batch(db, now) <==> id in DueBatch(db, now) && id in db.records
    ensures forall id :: id in Batch(db, now) ==> id in db.delayed && db.delayed[id] <= now
    ensures forall id :: id in Lacking(DueBatch(db, now), db.records) ==> id !in db.records
  {
    RangeLists(db.delayed, now, PROMOTE_BATCH);
    HavingSplits(DueBatch(db, now), db.records);
    hide RangeByScore, Having, Lacking, CheckRecord;
  }

  // The namespace after step 1.
  ghost function Moved(db: Store, now: int): Store
    requires !db.foreign.ready && !db.foreign.delayed && AllDuePass(db, now)
  {
    BatchPromotable(db, now);
    DropDelayed(PromoteAll(XgroupCreate(db), Batch(db, now)), Lacking(DueBatch(db, now), db.records))
  }

  // The record step 2 takes up: the first in order of lease end that exists, if its lease has run out;
  // entries without a record are passed over, tries of them at most.
  function FirstLive(leases: Scores, records: map<Id, Record>, now: int, tries: nat): Option<Id> {
    if tries == 0 || leases == map[] then None
    else
      var k := First(leases);
      if leases[k] > now then None
      else if k in records then Some(k)
      else FirstLive(leases - {k}, records, now, tries - 1)
  }

  lemma {:induction false} FirstLiveIn(leases: Scores, records: map<Id, Record>, now: int, tries: nat)
    ensures var live := FirstLive(leases, records, now, tries);
            live.Some? ==> live.value in leases && leases[live.value] <= now && live.value in records
  {
    if tries > 0 && leases != map[] {
      FirstLiveIn(leases - {First(leases)}, records, now, tries - 1);
    }
  }

  // The entries before that of id in the order of lease end.
  ghost function LeasedBefore(leases: Scores, id: Id): set<Id>
    requires id in leases
  {
    set k | k in leases && (leases[k] < leases[id] || (leases[k] == leases[id] && IdLess(k, id)))
  }

  // What step 2 takes up, told without the search: the lease of id has run out, its record exists, no record exists
  // for an entry before it, and there are fewer than tries of those.
  ghost predicate IsLive(leases: Scores, records: map<Id, Record>, now: int, tries: nat, id: Id) {
    && id in leases && leases[id] <= now && id in records
    && (forall k :: k in LeasedBefore(leases, id) ==> k !in records) && |LeasedBefore(leases, id)| < tries
  }

  lemma NoneAheadOfFirst(leases: Scores)
    requires leases != map[]
    ensures LeasedBefore(leases, First(leases)) == {}
    ensures forall id :: id in leases && id != First(leases) ==>
              && First(leases) in LeasedBefore(leases, id) && leases[First(leases)] <= leases[id]
              && LeasedBefore(leases - {First(leases)}, id) == LeasedBefore(leases, id) - {First(leases)}
  {
    var first := First(leases);
    IdLessIrreflexive(first);
    forall k | k in leases && k != first ensures !Before(leases[k], k, leases[first], first) {
      BeforeAsymmetric(leases[first], first, leases[k], k);
    }
    hide IdLess;
  }

  lemma {:induction false} FirstLiveIs(leases: Scores, records: map<Id, Record>, now: int, tries: nat, id: Id)
    ensures FirstLive(leases, records, now, tries) == Some(id) <==> IsLive(leases, records, now, tries, id)
  {
    hide LeasedBefore, IsFirst;
    if tries > 0 && leases != map[] {
      var first := First(leases);
      NoneAheadOfFirst(leases);
      FirstLiveIs(leases - {first}, records, now, tries - 1, id);
    }
  }

  lemma FirstLiveSame(leases: Scores, a: map<Id, Record>, b: map<Id, Record>, now: int, tries: nat)
    requires a.Keys == b.Keys
    ensures FirstLive(leases, a, now, tries) == FirstLive(leases, b, now, tries)
  {
  }

  // One look at the lease index: the first live record, or an entry to remove.
  lemma LeaseLook(a: Store, mid: Store, now: int, tries: nat)
    requires LeasesCleaned(a, mid) && tries > 0 && !mid.foreign.leases
    ensures var r, live := RangeByScore(mid.leases, now, 1), FirstLive(mid.leases, mid.records, now, tries);
      && (r == [] ==> live == None)
      && (r != [] && r[0] in mid.records ==> live == Some(r[0]))
      && (r != [] && r[0] !in mid.records ==>
            var t := Zrem(mid, LeaseIndex, r[0]);
            LeasesCleaned(a, t) && !t.foreign.leases && FirstLive(t.leases, t.records, now, tries - 1) == live)
  {
    RangeOfOne(mid.leases, now);
    hide RangeByScore;
  }

  lemma NoMoreTries(leases: Scores, records: map<Id, Record>, now: int)
    ensures FirstLive(leases, records, now, 0) == None
  {
  }

  // Without dangling entries the first of all decides.
  lemma FirstLiveSound(leases: Scores, records: map<Id, Record>, now: int)
    requires forall id :: id in leases ==> id in records
    ensures FirstLive(leases, records, now, ATTEMPTS)
            == if leases == map[] || leases[First(leases)] > now then None else Some(First(leases))
  {
  }

  ghost function Pick(db: Store, now: int): Option<Id> {
    FirstLive(db.leases, db.records, now, ATTEMPTS)
  }

  /** The one family of namespaces on which an error does not leave the record at fault alone: a record is in
      the delayed batch and is also the first live lease. It is promoted and then found not to be inflight. */
  ghost predicate Clash(db: Store, now: int) {
    && !db.foreign.ready && !db.foreign.delayed && !db.foreign.leases
    && AllDuePass(db, now) && Pick(db, now).Some? && Pick(db, now).value in DueBatch(db, now)
  }

  lemma CoherentNeverClashes(db: Store, now: int)
    requires Coherent(db)
    ensures !Clash(db, now)
  {
    hide SoundKeys, SoundPending, SoundReady, SoundIds, AllDuePass, FirstLive, RangeByScore;
    FirstLiveIn(db.leases, db.records, now, ATTEMPTS);
    RangeLists(db.delayed, now, PROMOTE_BATCH);
    assert forall id :: id in db.leases ==> StateIs(db, id, "inflight") && id !in db.delayed;
  }

  // ------------------------------------------------------------------ what an error leaves untouched

  ghost predicate SameAt<V>(a: map<Id, V>, b: map<Id, V>, id: Id) {
    (id in a <==> id in b) && (id in a && id in b ==> a[id] == b[id])
  }

  // The record of id, its index entries and its stream entries are as they were.
  ghost predicate Untouched(a: Store, b: Store, id: Id) {
    && SameAt(a.records, b.records, id)
    && SameAt(a.leases, b.leases, id) && SameAt(a.delayed, b.delayed, id) && SameAt(a.failed, b.failed, id)
    && a.delivered == b.delivered && a.pel == b.pel
    && forall x: Entry :: x.id == Some(id) ==> (x in a.undelivered <==> x in b.undelivered)
  }

  lemma MembersGrow(ids: seq<Id>, i: nat)
    requires i < |ids|
    ensures Members(ids[..i + 1]) == Members(ids[..i]) + {ids[i]}
  {
    assert ids[..i + 1] == ids[..i] + [ids[i]];
  }

  function DropDelayed(db: Store, stale: seq<Id>): Store {
    db.(delayed := db.delayed - Members(stale))
  }

  // Only lease entries whose record is gone have been removed.
  ghost predicate LeasesCleaned(a: Store, b: Store) {
    && b == a.(leases := b.leases)
    && (forall id :: id in b.leases ==> id in a.leases && b.leases[id] == a.leases[id])
    && (forall id :: id in a.leases && id !in b.leases ==> id !in a.records)
  }

  // Only leading undelivered entries whose record is gone have been removed.
  ghost predicate HeadsCleaned(a: Store, b: Store) {
    && |b.undelivered| <= |a.undelivered|
    && (var k := |a.undelivered| - |b.undelivered|;
        && b == a.(undelivered := a.undelivered[k..])
        && (forall i :: 0 <= i < k ==> a.undelivered[i].id.Some? && a.undelivered[i].id.value !in a.records))
  }

  // Stream ids are unique and ascending whatever the records hold, so deleting the head is all XDEL does.
  lemma DropHead(db: Store)
    requires SoundIds(db) && !db.foreign.ready && db.undelivered != []
    ensures Xdel(db, db.undelivered[0].eid) == db.(undelivered := db.undelivered[1..])
    ensures SoundIds(db.(undelivered := db.undelivered[1..]))
  {
    WithoutAbsent(db.undelivered[1..], db.undelivered[0].eid);
    var t := db.(undelivered := db.undelivered[1..]);
    assert forall i :: 0 <= i < |t.undelivered| ==> t.undelivered[i] == db.undelivered[i + 1];
  }

  lemma HeadsCleanedNone(a: Store)
    ensures HeadsCleaned(a, a)
  {
    assert a.undelivered[0..] == a.undelivered;
  }

  lemma HeadsCleanedMore(a: Store, b: Store)
    requires HeadsCleaned(a, b) && b.undelivered != []
    requires b.undelivered[0].id.Some? && b.undelivered[0].id.value !in b.records
    ensures HeadsCleaned(a, b.(undelivered := b.undelivered[1..]))
  {
    var k := |a.undelivered| - |b.undelivered|;
    assert b.undelivered[0] == a.undelivered[k];
    assert b.undelivered[1..] == a.undelivered[k + 1..];
  }

  const TWO53: nat := 9007199254740992

  // HINCRBY's result reaches Go through a Lua double, exact up to 2^53.
  method LuaNumber(n: nat) returns (x: nat)
    ensures n <= 9007199254740992 ==> x == n
  {
    x := n;
    if n > TWO53 {
      x := *;
    }
  }

  ghost predicate Reports(reply: Reply, expected: Reply) {
    reply == expected
    || (reply.Delivered? && expected.Delivered? && expected.delivery.attempt > TWO53
        && reply == Delivered(expected.delivery.(attempt := reply.delivery.attempt)))
  }

  function DeliveryFrom(hash: Hash, id: Id, token: Token, recovered: bool): Delivery {
    Delivery(id, hash.d.GetOr([]), token, Count(hash.n), Count(hash.r), recovered)
  }

  function ClaimedDelivery(db: Store, id: Id, token: Token, recovered: bool): Delivery
    requires id in db.records && db.records[id].HashKey?
  {
    DeliveryFrom(db.records[id].hash, id, token, recovered)
  }

  // What a script reports of a record that fails its check.
  function FaultOf(record: Record): Refusal {
    if record.OtherKey? then WrongType else CorruptRecord
  }

  // id has a record that can be claimed from this state.
  predicate Passes(records: map<Id, Record>, id: Id, want: string) {
    id in records && records[id].HashKey? && CheckRecord(records[id].hash, want, true, false)
  }

  // No claim was made or lost.
  ghost predicate KeepsClaims(a: Store, b: Store) {
    b.delivered == a.delivered && b.pel == a.pel && b.failed == a.failed && b.tombs == a.tombs
  }

  // A record as one promotion leaves it.
  ghost predicate PromotedRecord(x: Record, y: Record) {
    x.HashKey? && CheckRecord(x.hash, "delayed", true, false) && y == HashKey(x.hash.(s := Some("ready")))
  }

  // No record but that of the claimed id is changed, except by a promotion that checked it.
  ghost predicate RecordsKept(a: map<Id, Record>, b: map<Id, Record>, claimed: set<Id>) {
    && b.Keys == a.Keys
    && forall id :: id in a && id !in claimed ==> b[id] == a[id] || PromotedRecord(a[id], b[id])
  }

  // The delivered record passed its check: as inflight when taken over, as ready when claimed, where a retry
  // promoted by the same call was checked as delayed.
  ghost predicate Checked(records: map<Id, Record>, d: Delivery) {
    if d.recovered then Passes(records, d.id, "inflight")
    else Passes(records, d.id, "ready") || Passes(records, d.id, "delayed")
  }

  // The delivery counter of the task cannot be incremented.
  predicate AtLimit(s: State, id: Id) {
    id in s.tasks && s.tasks[id].deliveries == MAX_INT64
  }

  function DueScores(s: State): Scores {
    map id | id in s.tasks && s.tasks[id].phase.Delayed? :: s.tasks[id].phase.due
  }

  // The retries a Receive makes ready: of those that are due the earliest, by instant and then id, 100 of them or all;
  // none if it is turned away at once.
  ghost predicate PromotesDue(s: State, now: int, promoted: seq<Id>) {
    var due := set id | id in s.tasks && s.tasks[id].phase.Delayed? && s.tasks[id].phase.due <= now;
    && NoDup(promoted) && (forall id :: id in promoted ==> id in due)
    && |promoted| == (if |due| < 100 then |due| else 100)
    && forall id, j :: id in due && id !in promoted && j in promoted ==>
         s.tasks[j].phase.due < s.tasks[id].phase.due
         || (s.tasks[j].phase.due == s.tasks[id].phase.due && IdLess(j, id))
  }

  lemma BatchPromotesDue(db: Store, now: int, issued: set<Token>)
    requires Coherent(db)
    ensures PromotesDue(Abs(db, issued), now, Batch(db, now))
  {
    hide Coherent, RangeByScore, IdLess, Batch, Abs;
    BatchOnCoherent(db, now);
    CoherentScores(db, issued);
    var s, batch := Abs(db, issued), Batch(db, now);
    var due := set id | id in s.tasks && s.tasks[id].phase.Delayed? && s.tasks[id].phase.due <= now;
    RangeLists(db.delayed, now, PROMOTE_BATCH);
    assert due == set k | k in db.delayed && db.delayed[k] <= now;
    forall id, j | id in due && id !in batch && j in batch
      ensures s.tasks[j].phase.due < s.tasks[id].phase.due
              || (s.tasks[j].phase.due == s.tasks[id].phase.due && IdLess(j, id))
    {
      var i :| 0 <= i < |batch| && batch[i] == j;
    }
  }

  function LeaseScores(s: State): Scores {
    map id | id in s.tasks && s.tasks[id].phase.Inflight? :: s.tasks[id].phase.leaseUntil
  }

  /** The counter limit stands in the way of a Receive: of a retry in the batch to promote, or else of the very
      task that would be delivered. */
  ghost predicate Blocked(s: State, now: int) {
    (exists id :: id in RangeByScore(DueScores(s), now, PROMOTE_BATCH) && AtLimit(s, id))
    || (var z := LeaseScores(s);
        if z != map[] && z[First(z)] <= now then AtLimit(s, First(z)) else s.ready != [] && AtLimit(s, s.ready[0]))
  }

  ghost predicate ReceiveStep(o: Options, a: Store, i: set<Token>, b: Store, j: set<Token>,
                              now: int, token: Token, reply: Reply, e: Event) {
    && Coherent(b) && e.Receive? && e.now == now && e.token == token
    && Enabled(o, Abs(a, i), e) && Abs(b, j) == Next(o, Abs(a, i), e)
    && Reports(reply, ReplyTo(o, Abs(a, i), e))
    && (e.outcome.Aborted? <==> Blocked(Abs(a, i), now))
  }

  lemma AbortedAtOnce(o: Options, db: Store, issued: set<Token>, now: int, token: Token)
    requires Coherent(db) && token !in issued && Blocked(Abs(db, issued), now)
    ensures ReceiveStep(o, db, issued, db, issued, now, token, Refused(CorruptRecord),
                        Event.Receive(now, token, [], Aborted(CorruptRecord)))
  {
    hide Coherent, Abs, Blocked, Enabled, Next, ReplyTo, Promote;
    PromoteNone(Abs(db, issued));
    AbsIssued(db, issued);
    ReceiveNext(o, Abs(db, issued), now, token, [], Aborted(CorruptRecord));
  }

  // b is the coherent namespace a after step 1 of a receive.
  ghost predicate StartedFrom(a: Store, b: Store, issued: set<Token>, now: int, promote: seq<Id>) {
    var s := Abs(a, issued);
    && Coherent(b) && b.group && Abs(b, issued) == Promote(s, promote)
    && Promotable(s, now, promote) && (promote != [] || NoneDue(s, now))
  }

  lemma TasksDepend(a: Store, b: Store)
    requires a.records == b.records && a.leases == b.leases && a.delayed == b.delayed && a.failed == b.failed
    ensures Tasks(a) == Tasks(b)
  {
  }

  lemma GroupKeeps(db: Store, issued: set<Token>)
    requires Coherent(db)
    ensures Coherent(XgroupCreate(db)) && Abs(XgroupCreate(db), issued) == Abs(db, issued)
  {
    hide SoundHash, TaskOf;
    var t := XgroupCreate(db);
    assert forall id, s :: StateIs(t, id, s) <==> StateIs(db, id, s);
    TasksDepend(db, t);
  }

  lemma DelayedIsDue(db: Store, id: Id, issued: set<Token>, now: int)
    requires Coherent(db)
    ensures Due(Abs(db, issued), now, id) <==> id in db.delayed && db.delayed[id] <= now
    ensures id in db.delayed ==> StateIs(db, id, "delayed")
  {
    hide SoundPending, SoundReady, SoundIds, SoundHash, Count;
    if id in db.records {
      TasksOfSound(db, id, issued);
    }
  }

  lemma Started(db: Store, issued: set<Token>, now: int, promote: seq<Id>)
    requires Coherent(db) && promote == RangeByScore(db.delayed, now, PROMOTE_BATCH)
    requires forall id :: id in promote ==> id in db.records && db.records[id].HashKey?
    ensures StartedFrom(db, PromoteAll(XgroupCreate(db), promote), issued, now, promote)
  {
    hide SoundIndexes, SoundPending, SoundReady, SoundIds, SoundHash, RangeByScore, Abs, Promoted, Due, Promote;
    RangeLists(db.delayed, now, PROMOTE_BATCH);
    forall id ensures Due(Abs(db, issued), now, id) <==> id in db.delayed && db.delayed[id] <= now
              ensures id in db.delayed ==> StateIs(db, id, "delayed")
    {
      DelayedIsDue(db, id, issued, now);
    }
    GroupKeeps(db, issued);
    PromoteAllStep(XgroupCreate(db), promote, issued);
    PromoteAllFrame(XgroupCreate(db), promote);
  }

  lemma LeaseIsExpiry(db: Store, id: Id, issued: set<Token>, now: int)
    requires Coherent(db)
    ensures Expired(Abs(db, issued), now, id) <==> id in db.leases && db.leases[id] <= now
    ensures id in Abs(db, issued).tasks && Abs(db, issued).tasks[id].phase.Inflight? <==> id in db.leases
    ensures id in db.leases
            ==> Abs(db, issued).tasks[id].phase.leaseUntil == db.leases[id] && StateIs(db, id, "inflight")
  {
    hide SoundPending, SoundReady, SoundIds, SoundHash, Count;
    if id in db.records {
      TasksOfSound(db, id, issued);
    }
  }

  lemma EarliestLease(db: Store, who: Id, issued: set<Token>, now: int)
    requires Coherent(db) && who in db.leases && db.leases[who] <= now
    requires forall id :: id in db.leases ==> db.leases[who] <= db.leases[id]
    ensures EarliestExpired(Abs(db, issued), now, who)
  {
    hide Coherent, Abs, Expired;
    forall id
      ensures Expired(Abs(db, issued), now, id) <==> id in db.leases && db.leases[id] <= now
      ensures id in Abs(db, issued).tasks && Abs(db, issued).tasks[id].phase.Inflight? <==> id in db.leases
      ensures id in db.leases ==> Abs(db, issued).tasks[id].phase.leaseUntil == db.leases[id]
    {
      LeaseIsExpiry(db, id, issued, now);
    }
  }

  lemma NoLeaseExpired(db: Store, issued: set<Token>, now: int)
    requires Coherent(db) && forall id :: id in db.leases ==> db.leases[id] > now
    ensures NoneExpired(Abs(db, issued), now)
  {
    hide Coherent, Abs, Expired;
    forall id ensures Expired(Abs(db, issued), now, id) <==> id in db.leases && db.leases[id] <= now {
      LeaseIsExpiry(db, id, issued, now);
    }
  }

  lemma ClaimedIs(db: Store, id: Id, token: Token, recovered: bool, issued: set<Token>)
    requires SoundKeys(db) && id in db.records
    requires id in Abs(db, issued).tasks && Abs(db, issued).tasks[id].phase.Inflight?
             && Abs(db, issued).tasks[id].phase.token == token
    ensures ClaimedDelivery(db, id, token, recovered) == DeliveryOf(Abs(db, issued), id, recovered)
  {
    hide SoundHash, Count;
    TasksOfSound(db, id, issued);
  }

  lemma RecoveredReceive(o: Options, a: Store, b: Store, issued: set<Token>, now: int, token: Token,
                         promote: seq<Id>, who: Id, reply: Reply)
    requires StartedFrom(a, b, issued, now, promote) && token !in issued && !Blocked(Abs(a, issued), now)
    requires who in b.leases && b.leases[who] <= now && forall id :: id in b.leases ==> b.leases[who] <= b.leases[id]
    requires who in b.records && b.records[who].HashKey? && IsInc(b.records[who].hash.n)
    requires var t := Reclaimed(b, who, token, now + o.lease);
             who in t.records && t.records[who].HashKey?
                 && Reports(reply, Delivered(ClaimedDelivery(t, who, token, true)))
    ensures ReceiveStep(o, a, issued, Reclaimed(b, who, token, now + o.lease), issued + {token}, now, token, reply,
                        Event.Receive(now, token, promote, Recovered(who)))
  {
    hide Coherent, Tasks, Reclaimed, Promote, Promotable, NoneDue, EarliestExpired,
         ClaimedDelivery, DeliveryOf, Reports, IsInc, Enabled, Next, ReplyTo, Claim;
    CoherentKeys(b);
    var t, s := Reclaimed(b, who, token, now + o.lease), Abs(a, issued);
    EarliestLease(b, who, issued, now);
    LeaseIsExpiry(b, who, issued, now);
    ReclaimedStep(o, b, who, token, now, issued);
    CoherentKeys(t);
    ClaimedIsHeld(o, b, t, who, token, now, issued, true);
    ReceiveNext(o, s, now, token, promote, Recovered(who));
  }

  lemma FreshReceive(o: Options, a: Store, b: Store, issued: set<Token>, now: int, token: Token,
                     promote: seq<Id>, who: Id, reply: Reply)
    requires StartedFrom(a, b, issued, now, promote) && token !in issued && !Blocked(Abs(a, issued), now)
    requires forall id :: id in b.leases ==> b.leases[id] > now
    requires b.undelivered != [] && b.undelivered[0].id == Some(who) && StateIs(b, who, "ready")
    requires IsInc(b.records[who].hash.n) && !b.foreign.ready && !b.foreign.leases
    requires var t := Taken(b, who, token, now + o.lease);
             who in t.records && t.records[who].HashKey?
                 && Reports(reply, Delivered(ClaimedDelivery(t, who, token, false)))
    ensures ReceiveStep(o, a, issued, Taken(b, who, token, now + o.lease), issued + {token}, now, token, reply,
                        Event.Receive(now, token, promote, Fresh))
  {
    hide Coherent, SoundKeys, Tasks, Taken, Promote, Promotable, NoneDue, NoneExpired,
         ClaimedDelivery, DeliveryOf, Reports, IsInc, Enabled, Next, ReplyTo, Claim;
    var t, s := Taken(b, who, token, now + o.lease), Abs(a, issued);
    NoLeaseExpired(b, issued, now);
    TakenStep(o, b, who, token, now, issued);
    CoherentKeys(t);
    var p := Abs(b, issued);
    ClaimIs(o, p.(ready := p.ready[1..]), who, token, now);
    ClaimIs(o, p, who, token, now);
    ClaimedIsHeld(o, b, t, who, token, now, issued, false);
    ReceiveNext(o, s, now, token, promote, Fresh);
  }

  lemma NothingReceive(o: Options, a: Store, b: Store, issued: set<Token>, now: int, token: Token, promote: seq<Id>)
    requires StartedFrom(a, b, issued, now, promote) && token !in issued && !Blocked(Abs(a, issued), now)
    requires (forall id :: id in b.leases ==> b.leases[id] > now) && b.undelivered == []
    ensures ReceiveStep(o, a, issued, b, issued, now, token, QueueEmpty, Event.Receive(now, token, promote, Nothing))
  {
    hide Coherent, Tasks, Promote, Promotable, NoneDue, NoneExpired, Enabled, Next, ReplyTo;
    NoLeaseExpired(b, issued, now);
    ReceiveNext(o, Abs(a, issued), now, token, promote, Nothing);
  }

  lemma AbortedReceive(o: Options, a: Store, b: Store, issued: set<Token>, now: int, token: Token, promote: seq<Id>)
    requires StartedFrom(a, b, issued, now, promote) && token !in issued && Blocked(Abs(a, issued), now)
    ensures ReceiveStep(o, a, issued, b, issued, now, token, Refused(CorruptRecord),
                        Event.Receive(now, token, promote, Aborted(CorruptRecord)))
  {
    hide Coherent, Abs, Promote, Promotable, NoneDue, NoneExpired, Enabled, Next, ReplyTo, Blocked;
    AbsIssued(a, issued);
    ReceiveNext(o, Abs(a, issued), now, token, promote, Aborted(CorruptRecord));
  }

  lemma AbsIssued(db: Store, issued: set<Token>)
    ensures Abs(db, issued).issued == issued
  {
  }

  // ------------------------------------------------------------------ refusals of a coherent namespace

  // What is left to refuse once step 1 has passed.
  ghost predicate LateRefusal(db: Store, now: int) {
    var live := Pick(db, now);
    if live.Some? then !Passes(db.records, live.value, "inflight")
    else
      db.undelivered != []
      && !(db.undelivered[0].id.Some? && Passes(db.records, db.undelivered[0].id.value, "ready"))
  }

  lemma CoherentScores(db: Store, issued: set<Token>)
    requires Coherent(db)
    ensures DueScores(Abs(db, issued)) == db.delayed && LeaseScores(Abs(db, issued)) == db.leases
  {
    hide Coherent, Abs;
    forall id
      ensures id in DueScores(Abs(db, issued)) <==> id in db.delayed
      ensures id in db.delayed ==> DueScores(Abs(db, issued))[id] == db.delayed[id]
      ensures id in LeaseScores(Abs(db, issued)) <==> id in db.leases
      ensures id in db.leases ==> LeaseScores(Abs(db, issued))[id] == db.leases[id]
    {
      LeaseIsExpiry(db, id, issued, 0);
      DelayedIsPhase(db, id, issued);
    }
  }

  lemma DelayedIsPhase(db: Store, id: Id, issued: set<Token>)
    requires Coherent(db)
    ensures id in Abs(db, issued).tasks && Abs(db, issued).tasks[id].phase.Delayed? <==> id in db.delayed
    ensures id in db.delayed ==> Abs(db, issued).tasks[id].phase.due == db.delayed[id]
  {
    hide SoundPending, SoundReady, SoundIds, SoundHash, Count;
    if id in db.records {
      TasksOfSound(db, id, issued);
    }
  }

  // On a coherent namespace a record in its state passes the check unless its task is at the limit.
  lemma PassesUnlessLimit(db: Store, id: Id, want: string, issued: set<Token>)
    requires Coherent(db) && StateIs(db, id, want) && want != ""
    ensures Passes(db.records, id, want) <==> !AtLimit(Abs(db, issued), id)
  {
    CheckOnCoherent(db, id, want, true, false);
    TasksOfSound(db, id, issued);
    hide SoundIndexes, SoundPending, SoundReady, SoundIds, SoundHash, Count, Abs, CheckRecord;
  }

  lemma PickOnCoherent(db: Store, now: int)
    requires Coherent(db)
    ensures Pick(db, now)
            == if db.leases == map[] || db.leases[First(db.leases)] > now then None else Some(First(db.leases))
    ensures Pick(db, now).None? ==> forall id :: id in db.leases ==> db.leases[id] > now
    ensures Pick(db, now).Some? ==>
      && StateIs(db, Pick(db, now).value, "inflight")
      && forall id :: id in db.leases ==> db.leases[Pick(db, now).value] <= db.leases[id]
  {
    hide SoundPending, SoundReady, SoundIds, SoundHash, SoundKeys;
    FirstLiveSound(db.leases, db.records, now);
    if db.leases != map[] {
      assert IsFirst(db.leases, First(db.leases));
    }
  }

  // On a coherent namespace every due id has its record.
  lemma BatchOnCoherent(db: Store, now: int)
    requires Coherent(db)
    ensures Batch(db, now) == DueBatch(db, now) && Lacking(DueBatch(db, now), db.records) == []
    ensures forall id :: id in DueBatch(db, now) ==> StateIs(db, id, "delayed")
  {
    hide SoundPending, SoundReady, SoundIds, SoundHash, SoundKeys;
    RangeLists(db.delayed, now, PROMOTE_BATCH);
    HavingSplits(DueBatch(db, now), db.records);
  }

  lemma DueBlocks(db: Store, now: int, issued: set<Token>)
    requires Coherent(db)
    ensures !AllDuePass(db, now) <==> exists id :: id in DueBatch(db, now) && AtLimit(Abs(db, issued), id)
  {
    BatchOnCoherent(db, now);
    hide Coherent, DueBatch, Abs, AtLimit, CheckRecord;
    forall id | id in DueBatch(db, now) ensures DuePasses(db.records, id) <==> !AtLimit(Abs(db, issued), id) {
      PassesUnlessLimit(db, id, "delayed", issued);
    }
  }

  // The head of the ready tasks, on a coherent namespace.
  lemma HeadPasses(db: Store, issued: set<Token>)
    requires Coherent(db) && db.undelivered != []
    ensures Abs(db, issued).ready != [] && db.undelivered[0].id == Some(Abs(db, issued).ready[0])
    ensures Passes(db.records, db.undelivered[0].id.value, "ready")
            <==> !AtLimit(Abs(db, issued), Abs(db, issued).ready[0])
  {
    HeadIsReady(db);
    PassesUnlessLimit(db, db.undelivered[0].id.value, "ready", issued);
    hide SoundIndexes, SoundPending, SoundIds, SoundKeys, CheckRecord, AtLimit;
  }

  lemma PickMoved(a: Store, now: int)
    requires !a.foreign.ready && !a.foreign.delayed && AllDuePass(a, now)
    ensures Pick(Moved(a, now), now) == Pick(a, now)
  {
    MovedFrame(a, now);
    FirstLiveSame(a.leases, a.records, Moved(a, now).records, now, ATTEMPTS);
  }

  /** On a coherent namespace the late refusals are those of a task at the counter limit. */
  lemma LateBlocks(a: Store, now: int, issued: set<Token>)
    requires Coherent(a) && AllDuePass(a, now) && !a.foreign.ready && !a.foreign.delayed
    ensures LateRefusal(Moved(a, now), now) <==> Blocked(Abs(a, issued), now)
  {
    hide Coherent, Moved, Abs, AtLimit, Pick, CheckRecord, Batch, RangeByScore, AllDuePass, DueScores, LeaseScores,
      RecordsKept, KeepsClaims;
    CoherentScores(a, issued);
    DueBlocks(a, now, issued);
    PickOnCoherent(a, now);
    MovedFrame(a, now);
    MovedHead(a, now);
    PickMoved(a, now);
    var live := Pick(a, now);
    ReadyIsUndelivered(a, issued);
    if live.Some? {
      PassesUnlessLimit(a, live.value, "inflight", issued);
      NotInBatch(a, now, live.value, "inflight");
    } else if a.undelivered != [] {
      HeadPasses(a, issued);
      HeadIsReadyHere(a);
      NotInBatch(a, now, a.undelivered[0].id.value, "ready");
    }
  }

  lemma HeadIsReadyHere(db: Store)
    requires Coherent(db) && db.undelivered != []
    ensures db.undelivered[0].id.Some? && StateIs(db, db.undelivered[0].id.value, "ready")
  {
    HeadIsReady(db);
  }

  lemma ReadyIsUndelivered(db: Store, issued: set<Token>)
    ensures Abs(db, issued).ready == [] <==> db.undelivered == []
  {
  }

  // A record in any state but delayed is no part of the batch of a coherent namespace.
  lemma NotInBatch(db: Store, now: int, id: Id, want: string)
    requires Coherent(db) && StateIs(db, id, want) && want != "delayed" && AllDuePass(db, now)
    requires !db.foreign.ready && !db.foreign.delayed
    ensures id !in Batch(db, now) && Moved(db, now).records[id] == db.records[id]
  {
    BatchOnCoherent(db, now);
    MovedFrame(db, now);
  }

  // The head of the stream after step 1: the old one, or else the first record promoted.
  lemma MovedHead(a: Store, now: int)
    requires !a.foreign.ready && !a.foreign.delayed && AllDuePass(a, now)
    ensures var t := Moved(a, now);
      && (a.undelivered != [] ==> t.undelivered != [] && t.undelivered[0] == a.undelivered[0])
      && (a.undelivered == [] && t.undelivered != [] ==>
            t.undelivered[0].id.Some? && Passes(t.records, t.undelivered[0].id.value, "ready"))
  {
    BatchPromotable(a, now);
    MovedFrame(a, now);
    PromoteAllFrame(XgroupCreate(a), Batch(a, now));
    var t := Moved(a, now);
    assert t.undelivered != [] ==> t.undelivered[0] in t.undelivered;
    hide Batch, PromoteAll, CheckRecord;
  }

  lemma CoherentKeys(db: Store)
    requires Coherent(db)
    ensures SoundKeys(db)
  {
  }

  // The delivery reported after a claim is that of the task machine.
  lemma ClaimedIsHeld(o: Options, b: Store, t: Store, id: Id, token: Token, now: int, issued: set<Token>,
      recovered: bool)
    requires SoundKeys(t) && id in t.records && id in Abs(b, issued).tasks
    requires Abs(t, issued + {token}).tasks == Claim(o, Abs(b, issued), id, token, now).tasks
    ensures id in Abs(t, issued + {token}).tasks && Abs(t, issued + {token}).tasks[id].phase.Inflight?
    ensures ClaimedDelivery(t, id, token, recovered) == DeliveryOf(Abs(t, issued + {token}), id, recovered)
  {
    hide SoundKeys, Abs;
    ClaimedIs(t, id, token, recovered, issued + {token});
  }

  // ------------------------------------------------------------------ errors leave the culprit alone

  lemma PassedCheck(hash: Hash)
    ensures forall want :: CheckRecord(hash, want, true, false) ==> hash.s == Some(want) && IsInc(hash.n)
  {
  }

  lemma DropNone(db: Store)
    ensures DropDelayed(db, []) == db
  {
    assert db.delayed - Members([]) == db.delayed;
  }

  lemma UntouchedSelf(db: Store)
    ensures KeepsClaims(db, db) && forall id :: Untouched(db, db, id)
  {
  }

  lemma LateError(a: Store, promote: seq<Id>, stale: seq<Id>, recovered: Store, b: Store, who: Id)
    requires !a.foreign.ready && !a.foreign.delayed && Promotables(a, promote)
    requires forall id :: id in stale ==> id !in a.records
    requires LeasesCleaned(DropDelayed(PromoteAll(XgroupCreate(a), promote), stale), recovered)
    requires HeadsCleaned(recovered, b)
    ensures KeepsClaims(a, b)
    ensures who in a.records && who !in promote ==> Untouched(a, b, who)
  {
    PromoteAllFrame(XgroupCreate(a), promote);
    var k := |recovered.undelivered| - |b.undelivered|;
    assert recovered.undelivered == recovered.undelivered[..k] + b.undelivered;
  }

  // Step 1 as a whole: claims, leases and records outside the batch stay.
  lemma MovedFrame(a: Store, now: int)
    requires !a.foreign.ready && !a.foreign.delayed && AllDuePass(a, now)
    ensures var t := Moved(a, now);
      && t.leases == a.leases && t.foreign == a.foreign && t.group && KeepsClaims(a, t)
      && t.records.Keys == a.records.Keys && RecordsKept(a.records, t.records, {})
      && (forall id :: id in a.records && id !in Batch(a, now) ==> t.records[id] == a.records[id])
      && (forall id :: id in Batch(a, now) ==> Passes(t.records, id, "ready"))
  {
    BatchPromotable(a, now);
    var promote := Batch(a, now);
    PromoteAllFrame(XgroupCreate(a), promote);
    PromoteAllRecords(XgroupCreate(a), promote);
    hide Batch, CheckRecord, PromoteAll, Promotables, RangeByScore;
    forall id | id in promote ensures PromotedRecord(a.records[id], Moved(a, now).records[id])
                                      && CheckRecord(Moved(a, now).records[id].hash, "ready", true, false)
    {
      ReadyPasses(a.records[id].hash);
    }
  }

  lemma ReadyPasses(hash: Hash)
    ensures CheckRecord(hash, "delayed", true, false) ==> CheckRecord(hash.(s := Some("ready")), "ready", true, false)
  {
  }

  lemma LateClaims(a: Store, now: int, recovered: Store, b: Store)
    requires !a.foreign.ready && !a.foreign.delayed && AllDuePass(a, now)
    requires LeasesCleaned(Moved(a, now), recovered) && HeadsCleaned(recovered, b)
    ensures KeepsClaims(a, b) && b.records == Moved(a, now).records
  {
    MovedFrame(a, now);
    hide Moved, AllDuePass, CheckRecord;
  }

  // A late error leaves who alone exactly if step 1 has not promoted it.
  lemma LateUntouched(a: Store, now: int, recovered: Store, b: Store, who: Id)
    requires !a.foreign.ready && !a.foreign.delayed && AllDuePass(a, now) && who in a.records
    requires LeasesCleaned(Moved(a, now), recovered) && HeadsCleaned(recovered, b)
    ensures KeepsClaims(a, b) && b.records == Moved(a, now).records
    ensures Untouched(a, b, who) <==> who !in Batch(a, now)
  {
    BatchPromotable(a, now);
    LateError(a, Batch(a, now), Lacking(DueBatch(a, now), a.records), recovered, b, who);
    MovedFrame(a, now);
    if who in Batch(a, now) {
      PassedCheck(a.records[who].hash);
    }
    hide Batch, PromoteAll, RangeByScore, LeasesCleaned, KeepsClaims;
  }

  // ------------------------------------------------------------------ the outcomes of steps 2 and 3

  // The first live lease is taken over, its record having passed.
  ghost predicate TakenOver(o: Options, mid: Store, b: Store, who: Id, token: Token, now: int, reply: Reply) {
    && !mid.foreign.leases && Passes(mid.records, who, "inflight")
    && b == Reclaimed(mid, who, token, now + o.lease)
    && reply.Delivered? && Reports(reply, Delivered(ClaimedDelivery(b, who, token, true)))
  }

  // The head of the stream is claimed, its record having passed.
  ghost predicate HeadTaken(o: Options, mid: Store, b: Store, who: Id, token: Token, now: int, reply: Reply) {
    && !mid.foreign.ready && !mid.foreign.leases && mid.group
    && mid.undelivered != [] && mid.undelivered[0].id == Some(who) && Passes(mid.records, who, "ready")
    && b == Taken(mid, who, token, now + o.lease)
    && reply.Delivered? && Reports(reply, Delivered(ClaimedDelivery(b, who, token, false)))
  }

  // A claim changes no record but its own.
  ghost predicate OnlyClaimed(mid: Store, b: Store, who: Id) {
    && b.records.Keys == mid.records.Keys
    && forall id :: id in mid.records && id != who ==> b.records[id] == mid.records[id]
  }

  lemma TakenOverFrame(o: Options, mid: Store, b: Store, who: Id, token: Token, now: int, reply: Reply)
    requires TakenOver(o, mid, b, who, token, now, reply)
    ensures reply.delivery.id == who && reply.delivery.recovered && OnlyClaimed(mid, b, who)
  {
    hide Count, CheckRecord, IsInc, Hincr;
  }

  lemma HeadTakenFrame(o: Options, mid: Store, b: Store, who: Id, token: Token, now: int, reply: Reply)
    requires HeadTaken(o, mid, b, who, token, now, reply)
    ensures reply.delivery.id == who && !reply.delivery.recovered && OnlyClaimed(mid, b, who)
  {
    hide Count, CheckRecord, IsInc, Hincr;
  }

  lemma CoherentMid(a: Store, recovered: Store, mid: Store)
    requires Coherent(a) && LeasesCleaned(a, recovered) && HeadsCleaned(recovered, mid)
    ensures recovered == a && mid == a
  {
    hide SoundPending, SoundHash, SoundIds;
    assert recovered.leases == a.leases;
    if |mid.undelivered| < |a.undelivered| {
      HeadIsReady(a);
    }
    assert a.undelivered[0..] == a.undelivered;
  }

  ghost predicate Starts(a: Store, start: Store, held: set<Token>, now: int, token: Token, promote: seq<Id>) {
    && StartedFrom(a, start, held, now, promote) && token !in held
    && (Blocked(Abs(a, held), now) <==> LateRefusal(start, now))
  }

  lemma StartFacts(a: Store, start: Store, held: set<Token>, now: int, token: Token, promote: seq<Id>)
    requires Starts(a, start, held, now, token, promote)
    ensures StartedFrom(a, start, held, now, promote) && Coherent(start) && token !in held
    ensures !LateRefusal(start, now) ==> !Blocked(Abs(a, held), now)
  {
  }

  lemma LeaseFacts(start: Store, now: int, who: Id)
    requires Coherent(start) && Pick(start, now) == Some(who)
    ensures who in start.leases && start.leases[who] <= now
    ensures forall id :: id in start.leases ==> start.leases[who] <= start.leases[id]
  {
    PickOnCoherent(start, now);
    FirstLiveIn(start.leases, start.records, now, ATTEMPTS);
    hide Coherent, FirstLive;
  }

  lemma TakenOverFacts(o: Options, mid: Store, b: Store, who: Id, token: Token, now: int, reply: Reply)
    requires TakenOver(o, mid, b, who, token, now, reply)
    ensures !mid.foreign.leases && who in mid.records && mid.records[who].HashKey? && IsInc(mid.records[who].hash.n)
    ensures var t := Reclaimed(mid, who, token, now + o.lease);
            b == t && who in t.records && t.records[who].HashKey?
                && Reports(reply, Delivered(ClaimedDelivery(t, who, token, true)))
  {
    hide Reports, ClaimedDelivery, IsInc, Count;
  }

  lemma HeadTakenFacts(o: Options, mid: Store, b: Store, who: Id, token: Token, now: int, reply: Reply)
    requires HeadTaken(o, mid, b, who, token, now, reply)
    ensures !mid.foreign.ready && !mid.foreign.leases && mid.group && mid.undelivered != []
            && mid.undelivered[0].id == Some(who)
    ensures StateIs(mid, who, "ready") && IsInc(mid.records[who].hash.n)
    ensures var t := Taken(mid, who, token, now + o.lease);
            b == t && who in t.records && t.records[who].HashKey?
                && Reports(reply, Delivered(ClaimedDelivery(t, who, token, false)))
  {
    hide Reports, ClaimedDelivery, IsInc, Count;
  }

  lemma LeaseTaken(o: Options, a: Store, start: Store, held: set<Token>, b: Store, now: int, token: Token,
                   promote: seq<Id>, who: Id, reply: Reply)
    requires Starts(a, start, held, now, token, promote) && Pick(start, now) == Some(who)
    requires TakenOver(o, start, b, who, token, now, reply)
    ensures ReceiveStep(o, a, held, b, held + {token}, now, token, reply,
            Event.Receive(now, token, promote, Recovered(who)))
  {
    assert !LateRefusal(start, now);
    StartFacts(a, start, held, now, token, promote);
    hide Starts, StartedFrom, LateRefusal, Blocked, TakenOver, Coherent, Pick, Reclaimed, Reports, ClaimedDelivery,
      Passes,
         ReceiveStep, Abs, IsInc;
    TakenOverFacts(o, start, b, who, token, now, reply);
    LeaseFacts(start, now, who);
    RecoveredReceive(o, a, start, held, now, token, promote, who, reply);
  }

  // A refusal of steps 2 and 3.
  lemma LateRefused(o: Options, a: Store, start: Store, held: set<Token>, now: int, token: Token, promote: seq<Id>)
    requires Starts(a, start, held, now, token, promote) && LateRefusal(start, now)
    ensures ReceiveStep(o, a, held, start, held, now, token, Refused(CorruptRecord),
                        Event.Receive(now, token, promote, Aborted(CorruptRecord)))
  {
    hide StartedFrom, Blocked, LateRefusal, ReceiveStep;
    AbortedReceive(o, a, start, held, now, token, promote);
  }

  lemma LeaseOutcome(o: Options, a: Store, start: Store, held: set<Token>, mid: Store, b: Store, issued: set<Token>,
                     now: int, token: Token, promote: seq<Id>, who: Id, reply: Reply)
    requires Starts(a, start, held, now, token, promote)
    requires LeasesCleaned(start, mid) && Pick(start, now) == Some(who) && who in mid.records
    requires if Passes(mid.records, who, "inflight")
             then TakenOver(o, mid, b, who, token, now, reply) && issued == held + {token}
             else b == mid && issued == held && reply == Refused(FaultOf(mid.records[who]))
    ensures ReceiveStep(o, a, held, b, issued, now, token, reply,
                        Event.Receive(now, token, promote,
                                      if reply.Refused? then Aborted(CorruptRecord) else Recovered(who)))
  {
    HeadsCleanedNone(mid);
    CoherentMid(start, mid, mid);
    PickOnCoherent(start, now);
    CoherentKeys(start);
    RefusedIsCorrupt(start, who);
    var fine := Passes(mid.records, who, "inflight");
    assert !fine ==> LateRefusal(start, now);
    assert fine ==> reply.Delivered?;
    hide Starts, LeasesCleaned, Pick, Passes, TakenOver, LateRefusal, ReceiveStep, HeadsCleaned, Coherent, SoundKeys,
      FaultOf;
    if fine {
      LeaseTaken(o, a, start, held, b, now, token, promote, who, reply);
    } else {
      LateRefused(o, a, start, held, now, token, promote);
    }
  }

  lemma RefusedIsCorrupt(db: Store, who: Id)
    requires SoundKeys(db) && who in db.records
    ensures FaultOf(db.records[who]) == CorruptRecord
  {
  }

  lemma HeadFresh(o: Options, a: Store, start: Store, held: set<Token>, b: Store, now: int, token: Token,
                  promote: seq<Id>, who: Id, reply: Reply)
    requires Starts(a, start, held, now, token, promote) && Pick(start, now).None?
    requires HeadTaken(o, start, b, who, token, now, reply)
    ensures ReceiveStep(o, a, held, b, held + {token}, now, token, reply, Event.Receive(now, token, promote, Fresh))
  {
    assert !LateRefusal(start, now);
    StartFacts(a, start, held, now, token, promote);
    PickOnCoherent(start, now);
    hide Starts, StartedFrom, LateRefusal, Blocked, HeadTaken, Coherent, Pick, Taken, Reports, ClaimedDelivery, Passes,
         ReceiveStep, Abs, IsInc;
    HeadTakenFacts(o, start, b, who, token, now, reply);
    FreshReceive(o, a, start, held, now, token, promote, who, reply);
  }

  lemma HeadNothing(o: Options, a: Store, start: Store, held: set<Token>, now: int, token: Token, promote: seq<Id>)
    requires Starts(a, start, held, now, token, promote) && Pick(start, now).None? && start.undelivered == []
    ensures ReceiveStep(o, a, held, start, held, now, token, QueueEmpty, Event.Receive(now, token, promote, Nothing))
  {
    PickOnCoherent(start, now);
    hide Coherent, Blocked, Abs, ReceiveStep, Pick, Promotable, NoneDue, Promote;
    NothingReceive(o, a, start, held, now, token, promote);
  }

  // What claiming the head may answer.
  ghost predicate HeadAnswer(o: Options, start: Store, mid: Store, b: Store, who: Id, token: Token, now: int,
      reply: Reply) {
    match reply
    case Delivered(_) => HeadTaken(o, mid, b, who, token, now, reply)
    case Refused(why) =>
      && b == mid && mid.undelivered != []
      && (if mid.undelivered[0].id.None? then why == CorruptRecord
          else mid.undelivered[0].id == Some(who) && who in mid.records && !Passes(mid.records, who, "ready")
               && why == FaultOf(mid.records[who]))
    case QueueEmpty => b == mid && (mid.undelivered == [] || |start.undelivered| == |mid.undelivered| + ATTEMPTS)
    case _ => false
  }

  predicate Dangling(x: Entry, records: map<Id, Record>) {
    x.id.Some? && x.id.value !in records
  }

  // Every entry that claiming the head looks at lacks its record.
  predicate NothingWaiting(entries: seq<Entry>, records: map<Id, Record>) {
    forall i :: 0 <= i < |entries| && i < ATTEMPTS ==> Dangling(entries[i], records)
  }

  lemma NothingWaitingSame(entries: seq<Entry>, a: map<Id, Record>, b: map<Id, Record>)
    requires a.Keys == b.Keys
    ensures NothingWaiting(entries, a) <==> NothingWaiting(entries, b)
  {
    forall x: Entry ensures Dangling(x, a) <==> Dangling(x, b) {
    }
  }

  lemma HeadEmptyIff(o: Options, start: Store, mid: Store, b: Store, who: Id, token: Token, now: int, reply: Reply)
    requires HeadsCleaned(start, mid) && HeadAnswer(o, start, mid, b, who, token, now, reply)
    requires !reply.QueueEmpty? ==> |start.undelivered| < |mid.undelivered| + ATTEMPTS
    ensures reply.QueueEmpty? <==> NothingWaiting(start.undelivered, start.records)
  {
    hide Passes, Reports, Taken, ClaimedDelivery;
    var k := |start.undelivered| - |mid.undelivered|;
    if mid.undelivered != [] {
      assert mid.undelivered[0] == start.undelivered[k];
    }
    if reply.Delivered? {
      PassesRecord(mid.records, who, "ready");
    }
  }

  lemma PassesRecord(records: map<Id, Record>, id: Id, want: string)
    ensures Passes(records, id, want) ==> id in records
  {
  }

  /** On any namespace receive answers that the queue is empty exactly here: nothing is wrong with the keys or the
      retries due, no live lease is found, and the entries step 3 looks at all lack their record. */
  ghost predicate FoundEmpty(db: Store, now: int) {
    && !db.foreign.ready && !db.foreign.delayed && !db.foreign.leases
    && AllDuePass(db, now) && Pick(db, now).None? && NothingWaiting(Moved(db, now).undelivered, db.records)
  }

  lemma PromotedEntry(db: Store, id: Id)
    requires !db.foreign.ready && !db.foreign.delayed && id in db.records && db.records[id].HashKey?
    ensures Promoted(db, id).undelivered == db.undelivered + [Entry(db.lastId + 1, Some(id))]
  {
  }

  // A batch adds one entry for each id at the end of the stream.
  lemma {:induction false} PromoteAllEntries(db: Store, ids: seq<Id>)
    requires !db.foreign.ready && !db.foreign.delayed
    requires forall id :: id in ids ==> id in db.records && db.records[id].HashKey?
    ensures var t := PromoteAll(db, ids);
      && |t.undelivered| == |db.undelivered| + |ids| && db.undelivered <= t.undelivered
      && forall i :: 0 <= i < |ids| ==> t.undelivered[|db.undelivered| + i].id == Some(ids[i])
    decreases |ids|
  {
    hide PromoteAll, Promoted;
    PromoteAllUnfold(db, ids);
    if ids != [] {
      var front, last := ids[..|ids| - 1], ids[|ids| - 1];
      PromoteAllEntries(db, front);
      PromotedEntry(PromoteAll(db, front), last);
    }
  }

  lemma PromoteAllUnfold(db: Store, ids: seq<Id>)
    requires !db.foreign.ready && !db.foreign.delayed
    requires forall id :: id in ids ==> id in db.records && db.records[id].HashKey?
    ensures if ids == [] then PromoteAll(db, ids) == db
            else PromoteAll(db, ids) == Promoted(PromoteAll(db, ids[..|ids| - 1]), ids[|ids| - 1])
  {
    hide Promoted;
  }

  lemma MovedEntries(db: Store, now: int)
    requires !db.foreign.ready && !db.foreign.delayed && AllDuePass(db, now)
    ensures var t, ids := Moved(db, now), Batch(db, now);
      && |t.undelivered| == |db.undelivered| + |ids| && db.undelivered <= t.undelivered
      && forall i :: 0 <= i < |ids| ==> t.undelivered[|db.undelivered| + i].id == Some(ids[i])
  {
    hide PromoteAll, CheckRecord, DueBatch, Having, Lacking;
    BatchPromotable(db, now);
    PromoteAllEntries(XgroupCreate(db), Batch(db, now));
  }

  /** When the queue is found empty, told from the namespace as it was: no record is taken up, the entries that wait,
      the first 20 of them, lack their record, and with fewer than 20 no retry of the batch that is due has one. */
  lemma FoundEmptyIs(db: Store, now: int)
    ensures FoundEmpty(db, now) <==>
              && !db.foreign.ready && !db.foreign.delayed && !db.foreign.leases && AllDuePass(db, now)
              && (forall id :: !IsLive(db.leases, db.records, now, 20, id))
              && (forall i :: 0 <= i < |db.undelivered| && i < 20 ==>
                    db.undelivered[i].id.Some? && db.undelivered[i].id.value !in db.records)
              && (|db.undelivered| < 20 ==>
                    forall id :: id in RangeByScore(db.delayed, now, 100) ==> id !in db.records)
  {
    hide RangeByScore, FirstLive, IsLive, Moved, CheckRecord, Having;
    assert Pick(db, now).None? <==> forall id :: !IsLive(db.leases, db.records, now, 20, id) by {
      forall id ensures Pick(db, now) == Some(id) <==> IsLive(db.leases, db.records, now, 20, id) {
        FirstLiveIs(db.leases, db.records, now, ATTEMPTS, id);
      }
    }
    if !db.foreign.ready && !db.foreign.delayed && AllDuePass(db, now) {
      MovedEntries(db, now);
      BatchPromotable(db, now);
      WaitingSplits(db.undelivered, Batch(db, now), Moved(db, now).undelivered, db.records);
      NoneInBatch(db, now);
    }
  }

  // None of the first entries of a longer stream has a record.
  lemma WaitingSplits(was: seq<Entry>, ids: seq<Id>, now: seq<Entry>, records: map<Id, Record>)
    requires |now| == |was| + |ids| && was <= now && forall id :: id in ids ==> id in records
    requires forall i :: 0 <= i < |ids| ==> now[|was| + i].id == Some(ids[i])
    ensures NothingWaiting(now, records) <==>
              && (forall i :: 0 <= i < |was| && i < 20 ==> was[i].id.Some? && was[i].id.value !in records)
              && (|was| < 20 ==> ids == [])
  {
    if |was| < 20 && ids != [] {
      assert ids[0] in ids;
      assert !Dangling(now[|was| + 0], records);
    }
  }

  lemma NoneInBatch(db: Store, now: int)
    requires AllDuePass(db, now)
    ensures Batch(db, now) == [] <==> forall id :: id in RangeByScore(db.delayed, now, 100) ==> id !in db.records
  {
    BatchPromotable(db, now);
    hide RangeByScore, Batch, AllDuePass;
    var ids := Batch(db, now);
    assert ids != [] ==> ids[0] in ids;
  }

  lemma FoundEmptyLate(a: Store, now: int)
    requires !a.foreign.ready && !a.foreign.delayed && !a.foreign.leases && AllDuePass(a, now)
    ensures var start := Moved(a, now);
            FoundEmpty(a, now) <==> Pick(start, now).None? && NothingWaiting(start.undelivered, start.records)
  {
    hide Moved, AllDuePass, Pick, NothingWaiting, RecordsKept, KeepsClaims;
    PickMoved(a, now);
    MovedFrame(a, now);
    NothingWaitingSame(Moved(a, now).undelivered, a.records, Moved(a, now).records);
  }

  lemma HeadOutcome(o: Options, a: Store, start: Store, held: set<Token>, mid: Store, b: Store, issued: set<Token>,
                    now: int, token: Token, promote: seq<Id>, who: Id, reply: Reply)
    requires Starts(a, start, held, now, token, promote) && Pick(start, now).None? && HeadsCleaned(start, mid)
    requires HeadAnswer(o, start, mid, b, who, token, now, reply)
    requires issued == if reply.Delivered? then held + {token} else held
    ensures ReceiveStep(o, a, held, b, issued, now, token, reply,
                        Event.Receive(now, token, promote,
                                      if reply.Refused? then Aborted(CorruptRecord)
                                      else if reply.QueueEmpty? then Nothing else Fresh))
  {
    assert LeasesCleaned(start, start);
    CoherentMid(start, start, mid);
    if start.undelivered != [] {
      HeadIsReadyHere(start);
    }
    CoherentKeys(start);
    assert reply.Refused? ==> reply.why == CorruptRecord && LateRefusal(start, now);
    hide Starts, LeasesCleaned, HeadsCleaned, Pick, Passes, HeadTaken, LateRefusal, ReceiveStep, Coherent, SoundKeys,
      FaultOf;
    if reply.Delivered? {
      HeadFresh(o, a, start, held, b, now, token, promote, who, reply);
    } else if reply.Refused? {
      LateRefused(o, a, start, held, now, token, promote);
    } else {
      HeadNothing(o, a, start, held, now, token, promote);
    }
  }

  /** On a coherent namespace steps 2 and 3 refuse exactly when LateRefusal says so. */
  lemma RefusalIs(o: Options, start: Store, recovered: Store, mid: Store, b: Store, who: Id, token: Token, now: int,
      reply: Reply)
    requires Coherent(start) && LeasesCleaned(start, recovered) && HeadsCleaned(recovered, mid)
    requires Pick(start, now).Some? ==> (reply.Refused? <==> !Passes(mid.records, Pick(start, now).value, "inflight"))
    requires Pick(start, now).None? ==> HeadAnswer(o, recovered, mid, b, who, token, now, reply)
    ensures reply.Refused? <==> LateRefusal(start, now)
  {
    CoherentMid(start, recovered, mid);
    hide Coherent, Pick, CheckRecord, Reports, Taken;
  }
}
