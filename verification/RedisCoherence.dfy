/** What each script's writes do to a coherent namespace: coherence is kept and the task machine takes the
    corresponding step. Every script rewrites one record, so the general lemmas come first. */
module RedisCoherence {
  import opened Basics
  import opened Decimal
  import opened TaskMachine
  import opened RedisStore
  import opened RedisStream

  ghost predicate SameBut<V>(a: map<Id, V>, b: map<Id, V>, id: Id) {
    forall j :: j != id ==> (j in a <==> j in b) && (j in a && j in b ==> a[j] == b[j])
  }

  // t differs from db in nothing but the record of id and its index entries (and the stream).
  ghost predicate OnlyAt(db: Store, t: Store, id: Id) {
    && t.foreign == db.foreign
    && SameBut(db.records, t.records, id) && SameBut(db.leases, t.leases, id)
    && SameBut(db.delayed, t.delayed, id) && SameBut(db.failed, t.failed, id)
  }

  lemma MapsAgree<V>(m: map<Id, V>, id: Id, v: V)
    ensures SameBut(m, m, id) && SameBut(m, m[id := v], id) && SameBut(m, m - {id}, id)
  {
  }

  ghost predicate IndexedRight(t: Store, id: Id) {
    && (id in t.leases <==> StateIs(t, id, "inflight"))
    && (id in t.delayed <==> StateIs(t, id, "delayed"))
    && (id in t.failed <==> StateIs(t, id, "failed"))
    && (id in t.failed ==> t.records[id].hash.fa == Some(t.failed[id]))
  }

  lemma KeysFrom(db: Store, t: Store, id: Id)
    requires SoundKeys(db) && OnlyAt(db, t, id)
    requires id in t.records ==> t.records[id].HashKey? && SoundHash(t.records[id].hash)
    requires forall j :: j in t.tombs ==> t.tombs[j].StringKey?
    ensures SoundKeys(t)
  {
  }

  lemma IndexesFrom(db: Store, t: Store, id: Id)
    requires SoundIndexes(db) && OnlyAt(db, t, id) && IndexedRight(t, id)
    ensures SoundIndexes(t)
  {
    forall j, s | j != id ensures StateIs(t, j, s) <==> StateIs(db, j, s) {
    }
  }

  lemma TaskKept(db: Store, t: Store, id: Id, j: Id)
    requires OnlyAt(db, t, id) && j != id
    ensures j in Tasks(t) <==> j in Tasks(db)
    ensures j in Tasks(t) ==> Tasks(t)[j] == Tasks(db)[j]
  {
  }

  lemma TasksFrom(db: Store, t: Store, id: Id)
    requires OnlyAt(db, t, id)
    ensures Tasks(t) == if id in t.records && t.records[id].HashKey? then Tasks(db)[id := TaskOf(t, id)]
            else Tasks(db) - {id}
  {
    forall j | j != id
      ensures j in Tasks(t) <==> j in Tasks(db)
      ensures j in Tasks(t) ==> Tasks(t)[j] == Tasks(db)[j]
    {
      TaskKept(db, t, id, j);
    }
  }

  // The pending entries stay as they are and id is not, and was not, inflight.
  lemma PendingKept(db: Store, t: Store, id: Id)
    requires SoundPending(db) && OnlyAt(db, t, id) && t.delivered == db.delivered && t.pel == db.pel
    requires !StateIs(db, id, "inflight") && !StateIs(t, id, "inflight")
    ensures SoundPending(t)
  {
  }

  // id holds entry e before and after, with a token.
  lemma PendingReclaimed(db: Store, t: Store, id: Id)
    requires SoundPending(db) && OnlyAt(db, t, id) && t.delivered == db.delivered && t.pel == db.pel
    requires StateIs(db, id, "inflight") && StateIs(t, id, "inflight")
    requires t.records[id].hash.e == db.records[id].hash.e && t.records[id].hash.tok.Some?
    ensures SoundPending(t)
  {
  }

  lemma PendingAdded(db: Store, t: Store, id: Id, e: nat)
    requires SoundPending(db) && OnlyAt(db, t, id) && e !in db.delivered
    requires t.delivered == db.delivered[e := Some(id)] && t.pel == db.pel + {e}
    requires !StateIs(db, id, "inflight") && StateIs(t, id, "inflight")
    requires t.records[id].hash.e == Some(e) && t.records[id].hash.tok.Some?
    ensures SoundPending(t)
  {
  }

  lemma PendingReleased(db: Store, t: Store, id: Id)
    requires SoundPending(db) && OnlyAt(db, t, id)
    requires StateIs(db, id, "inflight") && !StateIs(t, id, "inflight") && db.records[id].hash.e.Some?
    requires t.delivered == db.delivered - {db.records[id].hash.e.value}
             && t.pel == db.pel - {db.records[id].hash.e.value}
    ensures SoundPending(t)
  {
  }

  lemma ReadyKept(db: Store, t: Store, id: Id)
    requires SoundReady(db) && OnlyAt(db, t, id) && t.undelivered == db.undelivered
    requires !StateIs(db, id, "ready") && !StateIs(t, id, "ready")
    ensures SoundReady(t)
  {
  }

  lemma ReadyIdsAppend(entries: seq<Entry>, x: Entry)
    ensures ReadyIds(entries + [x]) == ReadyIds(entries) + [x.id.GetOr("")]
  {
  }

  lemma ReadyAppended(db: Store, t: Store, id: Id)
    requires SoundReady(db) && OnlyAt(db, t, id) && t.undelivered == db.undelivered + [Entry(t.lastId, Some(id))]
    requires !StateIs(db, id, "ready") && StateIs(t, id, "ready")
    ensures SoundReady(t) && ReadyIds(t.undelivered) == ReadyIds(db.undelivered) + [id]
  {
    ReadyIdsAppend(db.undelivered, Entry(t.lastId, Some(id)));
    assert id !in ReadyIds(db.undelivered);
    AppendReadyKeepsExact(ReadyIds(db.undelivered), id);
  }

  lemma ReadyTaken(db: Store, t: Store, id: Id)
    requires SoundReady(db) && OnlyAt(db, t, id) && db.undelivered != [] && t.undelivered == db.undelivered[1..]
    requires db.undelivered[0].id == Some(id) && !StateIs(t, id, "ready")
    ensures SoundReady(t) && ReadyIds(t.undelivered) == ReadyIds(db.undelivered)[1..]
  {
    var ids, rest := ReadyIds(db.undelivered), ReadyIds(t.undelivered);
    assert rest == ids[1..] && ids == [id] + rest;
    assert forall k :: 0 <= k < |rest| ==> rest[k] == ids[k + 1] && ids[k + 1] != ids[0];
    assert id !in rest;
    forall j ensures j in rest <==> StateIs(t, j, "ready") {
      assert j in ids <==> j == id || j in rest;
      if j != id {
        assert StateIs(t, j, "ready") <==> StateIs(db, j, "ready");
      }
    }
  }

  lemma {:induction false} WithoutAbsent(entries: seq<Entry>, eid: nat)
    requires forall i :: 0 <= i < |entries| ==> entries[i].eid != eid
    ensures Without(entries, eid) == entries
  {
    if entries != [] {
      WithoutAbsent(entries[1..], eid);
    }
  }

  // A pending entry is released without touching the undelivered ones.
  lemma ReleaseExact(db: Store, id: Id)
    requires !db.foreign.ready && SoundPending(db) && SoundIds(db) && StateIs(db, id, "inflight")
    ensures db.records[id].hash.e.Some?
    ensures var e := db.records[id].hash.e.value;
            ReleaseEntry(db, Some(e)) == db.(delivered := db.delivered - {e}, pel := db.pel - {e})
  {
    WithoutAbsent(db.undelivered, db.records[id].hash.e.value);
  }

  // ------------------------------------------------------------------ the four kinds of rewriting

  // id becomes ready at the end of the stream.
  ghost predicate Appends(db: Store, t: Store, id: Id) {
    && OnlyAt(db, t, id) && IndexedRight(t, id) && StateIs(t, id, "ready") && SoundHash(t.records[id].hash)
    && !StateIs(db, id, "inflight") && !StateIs(db, id, "ready")
    && t.lastId == db.lastId + 1 && t.undelivered == db.undelivered + [Entry(t.lastId, Some(id))]
    && t.delivered == db.delivered && t.pel == db.pel && t.group == db.group && t.tombs == db.tombs
  }

  lemma AppendsIds(db: Store, t: Store, id: Id)
    requires SoundIds(db) && Appends(db, t, id)
    ensures SoundIds(t)
  {
    var n := |db.undelivered|;
    assert forall i :: 0 <= i < n ==> t.undelivered[i] == db.undelivered[i];
    assert t.undelivered[n].eid == db.lastId + 1;
  }

  lemma AppendsCoherent(db: Store, t: Store, id: Id)
    requires Coherent(db) && Appends(db, t, id)
    ensures Coherent(t)
  {
    KeysFrom(db, t, id);
    IndexesFrom(db, t, id);
    PendingKept(db, t, id);
    ReadyAppended(db, t, id);
    AppendsIds(db, t, id);
  }

  lemma AppendsAbs(db: Store, t: Store, id: Id, issued: set<Token>)
    requires Appends(db, t, id)
    ensures Abs(t, issued) == Abs(db, issued).(
      tasks := Abs(db, issued).tasks[id := TaskOf(t, id)], ready := Abs(db, issued).ready + [id])
  {
    ReadyIdsAppend(db.undelivered, Entry(t.lastId, Some(id)));
    TasksFrom(db, t, id);
  }

  // The head of the undelivered entries is claimed.
  ghost predicate Takes(db: Store, t: Store, id: Id) {
    && OnlyAt(db, t, id) && IndexedRight(t, id) && StateIs(t, id, "inflight") && SoundHash(t.records[id].hash)
    && t.records[id].hash.tok.Some?
    && db.undelivered != [] && db.undelivered[0].id == Some(id) && t.undelivered == db.undelivered[1..]
    && t.records[id].hash.e == Some(db.undelivered[0].eid)
    && t.delivered == db.delivered[db.undelivered[0].eid := Some(id)] && t.pel == db.pel + {db.undelivered[0].eid}
    && t.group && t.lastId == db.lastId && t.tombs == db.tombs
  }

  lemma HeadIsReady(db: Store)
    requires SoundReady(db) && db.undelivered != []
    ensures db.undelivered[0].id.Some? && StateIs(db, db.undelivered[0].id.value, "ready")
  {
    assert ReadyIds(db.undelivered)[0] in ReadyIds(db.undelivered);
  }

  lemma TakesCoherent(db: Store, t: Store, id: Id)
    requires Coherent(db) && Takes(db, t, id)
    ensures Coherent(t)
  {
    HeadIsReady(db);
    KeysFrom(db, t, id);
    IndexesFrom(db, t, id);
    PendingAdded(db, t, id, db.undelivered[0].eid);
    ReadyTaken(db, t, id);
    TakesIds(db, t, id);
  }

  lemma TakesAbs(db: Store, t: Store, id: Id, issued: set<Token>)
    requires SoundReady(db) && Takes(db, t, id)
    ensures Abs(db, issued).ready[0] == id
    ensures Abs(t, issued) == Abs(db, issued).(
      tasks := Abs(db, issued).tasks[id := TaskOf(t, id)], ready := Abs(db, issued).ready[1..])
  {
    ReadyTaken(db, t, id);
    TasksFrom(db, t, id);
  }

  lemma TakesIds(db: Store, t: Store, id: Id)
    requires SoundIds(db) && Takes(db, t, id)
    ensures SoundIds(t)
  {
    forall i | 0 <= i < |t.undelivered| ensures t.undelivered[i] == db.undelivered[i + 1] {
    }
  }

  // An inflight record is rewritten in place: takeover or renewal.
  ghost predicate Rewrites(db: Store, t: Store, id: Id) {
    && OnlyAt(db, t, id) && IndexedRight(t, id) && StateIs(t, id, "inflight") && SoundHash(t.records[id].hash)
    && StateIs(db, id, "inflight") && t.records[id].hash.e == db.records[id].hash.e && t.records[id].hash.tok.Some?
    && t.undelivered == db.undelivered && t.delivered == db.delivered && t.pel == db.pel
    && t.group == db.group && t.lastId == db.lastId && t.tombs == db.tombs
  }

  lemma RewritesCoherent(db: Store, t: Store, id: Id)
    requires Coherent(db) && Rewrites(db, t, id)
    ensures Coherent(t)
  {
    KeysFrom(db, t, id);
    IndexesFrom(db, t, id);
    PendingReclaimed(db, t, id);
    ReadyKept(db, t, id);
    RewritesIds(db, t, id);
  }

  lemma RewritesIds(db: Store, t: Store, id: Id)
    requires SoundIds(db) && Rewrites(db, t, id)
    ensures SoundIds(t)
  {
  }

  lemma RewritesAbs(db: Store, t: Store, id: Id, issued: set<Token>)
    requires Rewrites(db, t, id)
    ensures Abs(t, issued) == Abs(db, issued).(tasks := Abs(db, issued).tasks[id := TaskOf(t, id)])
  {
    TasksFrom(db, t, id);
  }

  // The claim on id is released: its entry leaves the stream, its record goes or changes state.
  ghost predicate Releases(db: Store, t: Store, id: Id) {
    && OnlyAt(db, t, id) && IndexedRight(t, id)
    && (id in t.records ==> t.records[id].HashKey? && SoundHash(t.records[id].hash)
                            && !StateIs(t, id, "inflight") && !StateIs(t, id, "ready"))
    && StateIs(db, id, "inflight") && db.records[id].hash.e.Some?
    && t.undelivered == db.undelivered && t.delivered == db.delivered - {db.records[id].hash.e.value}
    && t.pel == db.pel - {db.records[id].hash.e.value} && t.group == db.group && t.lastId == db.lastId
    && (forall j :: j in t.tombs ==> t.tombs[j].StringKey?)
  }

  lemma ReleasesIds(db: Store, t: Store, id: Id)
    requires SoundIds(db) && Releases(db, t, id)
    ensures SoundIds(t)
  {
  }

  lemma ReleasesCoherent(db: Store, t: Store, id: Id)
    requires Coherent(db) && Releases(db, t, id)
    ensures Coherent(t)
  {
    KeysFrom(db, t, id);
    IndexesFrom(db, t, id);
    PendingReleased(db, t, id);
    ReadyKept(db, t, id);
    ReleasesIds(db, t, id);
  }

  lemma ReleasesAbs(db: Store, t: Store, id: Id, issued: set<Token>)
    requires Releases(db, t, id) && id in t.records && t.tombs == db.tombs
    ensures Abs(t, issued) == Abs(db, issued).(tasks := Abs(db, issued).tasks[id := TaskOf(t, id)])
  {
    TasksFrom(db, t, id);
  }

  lemma RemovesTask(db: Store, t: Store, id: Id)
    requires Releases(db, t, id) && id !in t.records
    ensures Tasks(t) == Tasks(db) - {id}
  {
    TasksFrom(db, t, id);
  }

  // ------------------------------------------------------------------ enqueue

  function Enqueued(db: Store, id: Id, data: Bytes, dedup: bool): Store
    requires !db.foreign.ready && id !in db.records
  {
    Hset(Xadd(db, id), id,
         Hash(Some("ready"), Some(data), Some(Digest(data)), Some(if dedup then "1" else "0"),
              Some(Print(0)), Some(Print(0)), Some(Print(0)), None, None, None, None))
  }

  lemma ZeroIsCount()
    ensures IsCount(Some(Print(0))) && Count(Some(Print(0))) == 0
  {
    LimitValues();
    IsIntExact(Print(0), I64_MAX);
    PrintCanonical(0);
  }

  lemma EnqueuedAppends(db: Store, id: Id, data: Bytes, dedup: bool)
    requires SoundKeys(db) && SoundIndexes(db) && id !in db.records && data != []
    ensures Appends(db, Enqueued(db, id, data, dedup), id)
    ensures TaskOf(Enqueued(db, id, data, dedup), id) == Task(data, dedup, Ready, 0, 0, "")
  {
    hide SameBut, IsCount, Count, Print;
    ZeroIsCount();
    var t := Enqueued(db, id, data, dedup);
    MapsAgree(db.records, id, t.records[id]);
    MapsAgree(db.leases, id, 0);
    MapsAgree(db.delayed, id, 0);
    MapsAgree(db.failed, id, 0);
  }

  lemma EnqueuedCoherent(db: Store, id: Id, data: Bytes, dedup: bool, issued: set<Token>)
    requires Coherent(db) && id !in db.records && data != []
    ensures Coherent(Enqueued(db, id, data, dedup))
    ensures var s := Abs(db, issued);
            Abs(Enqueued(db, id, data, dedup), issued)
            == s.(tasks := s.tasks[id := Task(data, dedup, Ready, 0, 0, "")], ready := s.ready + [id])
  {
    EnqueuedAppends(db, id, data, dedup);
    AppendsCoherent(db, Enqueued(db, id, data, dedup), id);
    AppendsAbs(db, Enqueued(db, id, data, dedup), id, issued);
  }
}
