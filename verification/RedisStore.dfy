/** One queue namespace inside Redis and what the commands of the scripts do to it. A Store shows the stream split at
    the consumer group's last-delivered-id: undelivered entries after it, delivered ones up to it. A command's
    precondition is Redis' condition for not raising an error, so a script that verifies never fails half way through
    its writes. */
module RedisStore {
  import opened Basics
  import opened Ranking
  import opened Decimal
  import opened TaskMachine
  import opened RedisStream

  // The record hash m:<id>. A missing field reads as None.
  datatype Hash = Hash(
    s: Option<string>, d: Option<Bytes>, h: Option<Digest>, dd: Option<string>,
    n: Option<Bytes>, r: Option<Bytes>, rp: Option<Bytes>,
    tok: Option<Token>, e: Option<nat>, err: Option<string>, fa: Option<int>)

  // A key that exists holds either the expected type or some other one.
  datatype Record = HashKey(hash: Hash) | OtherKey
  datatype Tomb = StringKey(tomb: Tombstone) | OtherTomb

  // Which of the four shared keys hold a value of an unexpected type.
  datatype Foreign = Foreign(ready: bool, delayed: bool, leases: bool, failed: bool)

  datatype Store = Store(
    foreign: Foreign,
    undelivered: seq<Entry>, delivered: map<nat, Option<Id>>, pel: set<nat>, group: bool, lastId: nat,
    delayed: Scores, leases: Scores, failed: Scores,
    records: map<Id, Record>, tombs: map<Id, Tomb>)

  // All keys of a namespace but the stream.
  datatype Keys = Keys(
    foreign: Foreign, delayed: Scores, leases: Scores, failed: Scores, records: map<Id, Record>, tombs: map<Id, Tomb>)

  const EMPTY_KEYS := Keys(Foreign(false, false, false, false), map[], map[], map[], map[], map[])

  // The namespace with its stream split at the cursor of the group.
  function ViewOf(stream: Stream, keys: Keys): Store {
    Store(keys.foreign, Ahead(stream), Behind(stream), stream.pel, stream.group, stream.lastId,
          keys.delayed, keys.leases, keys.failed, keys.records, keys.tombs)
  }

  const EMPTY_STORE := Store(
    Foreign(false, false, false, false), [], map[], {}, false, 0, map[], map[], map[], map[], map[])

  // ------------------------------------------------------------------ commands

  function Xadd(db: Store, id: Id): Store
    requires !db.foreign.ready
  {
    db.(undelivered := db.undelivered + [Entry(db.lastId + 1, Some(id))], lastId := db.lastId + 1)
  }

  function Xdel(db: Store, eid: nat): Store
    requires !db.foreign.ready
  {
    db.(undelivered := Without(db.undelivered, eid), delivered := db.delivered - {eid})
  }

  function Xack(db: Store, eid: nat): Store
    requires !db.foreign.ready
  {
    db.(pel := db.pel - {eid})
  }

  // XGROUP CREATE ... 0 MKSTREAM under pcall: an existing group stays as it is.
  function XgroupCreate(db: Store): Store
    requires !db.foreign.ready
  {
    db.(group := true)
  }

  // XREADGROUP ... COUNT 1 STREAMS ready >
  function XreadGroup(db: Store): Store
    requires !db.foreign.ready && db.group && db.undelivered != []
  {
    var head := db.undelivered[0];
    db.(undelivered := db.undelivered[1..], delivered := db.delivered[head.eid := head.id], pel := db.pel + {head.eid})
  }

  // XCLAIM to the same consumer; a pending entry that is no longer in the stream is dropped.
  function Xclaim(db: Store, eid: nat): Store {
    if eid in db.delivered then db else db.(pel := db.pel - {eid})
  }

  function Hset(db: Store, id: Id, hash: Hash): Store
    requires id in db.records ==> db.records[id].HashKey?
  {
    db.(records := db.records[id := HashKey(hash)])
  }

  // HGET of the state field: a WRONGTYPE error unless the key is missing or a hash.
  function HgetState(records: map<Id, Record>, id: Id): Option<string>
    requires id in records ==> records[id].HashKey?
  {
    if id in records then records[id].hash.s else None
  }

  function Count(text: Option<Bytes>): nat {
    if text.Some? && AllDigits(text.value) then Value(text.value) else 0
  }

  // HINCRBY 1 on the text of a counter: it must be an integer below the int64 maximum.
  function Hincr(text: Option<Bytes>): Option<Bytes>
    requires text.Some? ==> exists k: nat :: k < MAX_INT64 && text.value == Print(k)
  {
    Some(Print(Count(text) + 1))
  }

  datatype Index = DelayedIndex | LeaseIndex | FailedIndex

  predicate Wrong(db: Store, ix: Index) {
    match ix
    case DelayedIndex => db.foreign.delayed
    case LeaseIndex => db.foreign.leases
    case FailedIndex => db.foreign.failed
  }

  function Zadd(db: Store, ix: Index, id: Id, score: int): Store
    requires !Wrong(db, ix)
  {
    match ix
    case DelayedIndex => db.(delayed := db.delayed[id := score])
    case LeaseIndex => db.(leases := db.leases[id := score])
    case FailedIndex => db.(failed := db.failed[id := score])
  }

  function Zrem(db: Store, ix: Index, id: Id): Store
    requires !Wrong(db, ix)
  {
    match ix
    case DelayedIndex => db.(delayed := db.delayed - {id})
    case LeaseIndex => db.(leases := db.leases - {id})
    case FailedIndex => db.(failed := db.failed - {id})
  }

  function DelRecord(db: Store, id: Id): Store {
    db.(records := db.records - {id})
  }

  // SET d:<id> <digest> PX window
  function SetTomb(db: Store, id: Id, hash: Digest, until: int): Store {
    db.(tombs := db.tombs[id := StringKey(Tombstone(hash, until))])
  }

  function ReleaseEntry(db: Store, e: Option<nat>): Store
    requires !db.foreign.ready
  {
    if e.Some? then Xdel(Xack(db, e.value), e.value) else db
  }

  predicate TombAlive(tombs: map<Id, Tomb>, now: int, id: Id) {
    id in tombs && (tombs[id].StringKey? ==> now < tombs[id].tomb.until)
  }

  /** check_record: true when the record passes. */
  predicate CheckRecord(hash: Hash, want: string, incN: bool, incR: bool) {
    && hash.s == Some(want)
    && hash.d.Some? && hash.d.value != []
    && (if incN then IsInc(hash.n) else IsCount(hash.n))
    && (if incR then IsInc(hash.r) else IsCount(hash.r))
  }

  lemma CheckedIncrement(text: Option<Bytes>)
    requires IsInc(text)
    ensures exists k: nat :: k < MAX_INT64 && text.value == Print(k)
    ensures IsCount(Hincr(text)) && Count(Hincr(text)) == Count(text) + 1
  {
    LimitValues();
    IsIntExact(text.value, I64_MAX_MINUS_1);
    IncrementIsCount(text.value);
    forall k: nat | k < MAX_INT64 && text.value == Print(k) ensures k == Value(text.value) {
      PrintCanonical(k);
    }
  }

  lemma IncFailsOnlyAtMax(text: Option<Bytes>)
    requires IsCount(text)
    ensures IsInc(text) <==> Count(text) < MAX_INT64
    ensures Count(text) <= MAX_INT64
  {
    LimitValues();
    IsIntExact(text.value, I64_MAX);
    IsIntExact(text.value, I64_MAX_MINUS_1);
  }

  // The text is a whole number from 0 to max, written without a sign or leading zeros.
  ghost predicate NumberUpTo(text: Option<Bytes>, max: nat) {
    exists k: nat :: k <= max && text == Some(Print(k))
  }

  lemma NumberIs(text: Option<Bytes>, limit: Bytes)
    requires Canonical(limit)
    ensures IsInt(text, limit) <==> NumberUpTo(text, Value(limit))
  {
    hide Value;
    match text
    case None =>
    case Some(v) =>
      IsIntExact(v, limit);
      if n: nat :| n <= Value(limit) && text == Some(Print(n)) {
        assert v == Print(n);
      } else {
        assert !NumberUpTo(text, Value(limit));
      }
  }

  lemma CounterIs(text: Option<Bytes>, inc: bool)
    ensures (if inc then IsInc(text) else IsCount(text))
            <==> NumberUpTo(text, if inc then 9223372036854775806 else 9223372036854775807)
  {
    hide IsInt, Print, Value, NumberUpTo;
    LimitValues();
    assert MAX_INT64 == 9223372036854775807;
    NumberIs(text, I64_MAX);
    NumberIs(text, I64_MAX_MINUS_1);
  }

  /** What passing check_record means: the state asked for, a payload, and counters that are int64 numbers with room
      for the increments to come. */
  lemma CheckIff(hash: Hash, want: string, incN: bool, incR: bool)
    ensures CheckRecord(hash, want, incN, incR) <==>
              && hash.s == Some(want) && hash.d.Some? && |hash.d.value| > 0
              && NumberUpTo(hash.n, if incN then 9223372036854775806 else 9223372036854775807)
              && NumberUpTo(hash.r, if incR then 9223372036854775806 else 9223372036854775807)
  {
    hide IsInc, IsCount, NumberUpTo;
    CounterIs(hash.n, incN);
    CounterIs(hash.r, incR);
  }

  // ------------------------------------------------------------------ coherence

  predicate StateIs(db: Store, id: Id, s: string) {
    id in db.records && db.records[id].HashKey? && db.records[id].hash.s == Some(s)
  }

  predicate SoundHash(hash: Hash) {
    && hash.d.Some? && hash.d.value != [] && hash.h == Some(Digest(hash.d.value))
    && (hash.dd == Some("0") || hash.dd == Some("1"))
    && IsCount(hash.n) && IsCount(hash.r) && IsCount(hash.rp)
    && (hash.s == Some("ready") || hash.s == Some("inflight") || hash.s == Some("delayed") || hash.s == Some("failed"))
  }

  ghost predicate SoundKeys(db: Store) {
    && db.foreign == Foreign(false, false, false, false)
    && (forall id :: id in db.records ==> db.records[id].HashKey? && SoundHash(db.records[id].hash))
    && (forall id :: id in db.tombs ==> db.tombs[id].StringKey?)
  }

  // Each index holds exactly the ids whose record is in its state.
  ghost predicate SoundIndexes(db: Store) {
    && (forall id :: id in db.leases <==> StateIs(db, id, "inflight"))
    && (forall id :: id in db.delayed <==> StateIs(db, id, "delayed"))
    && (forall id :: id in db.failed <==> StateIs(db, id, "failed"))
    && (forall id :: id in db.failed ==> db.records[id].hash.fa == Some(db.failed[id]))
  }

  // Pending entries and the e fields of inflight records name each other.
  ghost predicate SoundPending(db: Store) {
    && db.pel == db.delivered.Keys
    && (forall e :: e in db.delivered ==>
          db.delivered[e].Some? && StateIs(db, db.delivered[e].value, "inflight")
          && db.records[db.delivered[e].value].hash.e == Some(e))
    && (forall id :: StateIs(db, id, "inflight") ==>
          var hash := db.records[id].hash;
          hash.tok.Some? && hash.e.Some? && hash.e.value in db.delivered && db.delivered[hash.e.value] == Some(id))
  }

  function ReadyIds(entries: seq<Entry>): seq<Id> {
    seq(|entries|, i requires 0 <= i < |entries| => entries[i].id.GetOr(""))
  }

  // The undelivered entries, in order, name each ready record exactly once.
  ghost predicate SoundReady(db: Store) {
    && (forall i :: 0 <= i < |db.undelivered| ==> db.undelivered[i].id.Some?)
    && NoDup(ReadyIds(db.undelivered))
    && (forall id :: id in ReadyIds(db.undelivered) <==> StateIs(db, id, "ready"))
  }

  ghost predicate SoundIds(db: Store) {
    && (forall i, j :: 0 <= i < j < |db.undelivered| ==> db.undelivered[i].eid < db.undelivered[j].eid)
    && (forall i :: 0 <= i < |db.undelivered| ==> db.undelivered[i].eid <= db.lastId)
    && (forall e :: e in db.delivered ==> e <= db.lastId)
    && (forall e, i :: e in db.delivered && 0 <= i < |db.undelivered| ==> e < db.undelivered[i].eid)
    && (!db.group ==> db.delivered == map[])
  }

  ghost predicate Coherent(db: Store) {
    SoundKeys(db) && SoundIndexes(db) && SoundPending(db) && SoundReady(db) && SoundIds(db)
  }

  // ------------------------------------------------------------------ abstraction

  function TaskOf(db: Store, id: Id): Task
    requires id in db.records && db.records[id].HashKey?
  {
    var hash := db.records[id].hash;
    var phase :=
      if hash.s == Some("inflight") && id in db.leases then Inflight(hash.tok.GetOr(""), db.leases[id])
      else if hash.s == Some("delayed") && id in db.delayed then Delayed(db.delayed[id])
      else if hash.s == Some("failed") && id in db.failed then Failed(db.failed[id])
      else Ready;
    Task(hash.d.GetOr([]), hash.dd == Some("1"), phase, Count(hash.n), Count(hash.r), hash.err.GetOr(""))
  }

  function Tasks(db: Store): map<Id, Task> {
    map id | id in db.records && db.records[id].HashKey? :: TaskOf(db, id)
  }

  function DoneOf(tombs: map<Id, Tomb>): map<Id, Tombstone> {
    map id | id in tombs && tombs[id].StringKey? :: tombs[id].tomb
  }

  lemma DoneOfSet(tombs: map<Id, Tomb>, id: Id, tomb: Tombstone)
    ensures DoneOf(tombs[id := StringKey(tomb)]) == DoneOf(tombs)[id := tomb]
  {
  }

  function Abs(db: Store, issued: set<Token>): State {
    State(Tasks(db), ReadyIds(db.undelivered), DoneOf(db.tombs), issued)
  }
}
