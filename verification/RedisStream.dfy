/** The ready stream of one namespace with its consumer group: all entries in id order, the group's
    last-delivered-id and its pending entries. XRANGE and XREADGROUP are defined by ids; that they agree on the
    next entry, and that the cursor splits the stream in two, is proved here. */
module RedisStream {
  import opened Basics

  datatype Entry = Entry(eid: nat, id: Option<Id>)

  datatype RawStream = RawStream(entries: seq<Entry>, lastId: nat, group: bool, cursor: nat, pel: set<nat>)

  // What Redis itself enforces: ids grow and are never reused, and the group has read no further than the end.
  predicate Ordered(s: RawStream) {
    && (forall i, j :: 0 <= i < j < |s.entries| ==> s.entries[i].eid < s.entries[j].eid)
    && (forall i :: 0 <= i < |s.entries| ==> 0 < s.entries[i].eid <= s.lastId)
    && s.cursor <= s.lastId && (!s.group ==> s.cursor == 0)
  }

  type Stream = s: RawStream | Ordered(s) witness RawStream([], 0, false, 0, {})

  const EMPTY_STREAM: Stream := RawStream([], 0, false, 0, {})

  // XADD *
  function Add(s: Stream, id: Id): Stream {
    s.(entries := s.entries + [Entry(s.lastId + 1, Some(id))], lastId := s.lastId + 1)
  }

  function Without(entries: seq<Entry>, eid: nat): seq<Entry> {
    if entries == [] then []
    else if entries[0].eid == eid then Without(entries[1..], eid)
    else [entries[0]] + Without(entries[1..], eid)
  }

  lemma {:induction false} WithoutKeeps(entries: seq<Entry>, eid: nat)
    ensures forall x :: x in Without(entries, eid) <==> x in entries && x.eid != eid
    ensures (forall i, j :: 0 <= i < j < |entries| ==> entries[i].eid < entries[j].eid) ==>
      forall i, j :: 0 <= i < j < |Without(entries, eid)|
          ==> Without(entries, eid)[i].eid < Without(entries, eid)[j].eid
  {
    if entries != [] {
      WithoutKeeps(entries[1..], eid);
      var w := Without(entries[1..], eid);
      assert forall x :: x in entries <==> x == entries[0] || x in entries[1..];
      if forall i, j :: 0 <= i < j < |entries| ==> entries[i].eid < entries[j].eid {
        forall j | 0 <= j < |w| ensures entries[0].eid < w[j].eid {
          assert w[j] in entries[1..];
        }
      }
    }
  }

  // XDEL
  function Delete(s: Stream, eid: nat): Stream {
    WithoutKeeps(s.entries, eid);
    var t := s.(entries := Without(s.entries, eid));
    assert forall i :: 0 <= i < |t.entries| ==> t.entries[i] in s.entries;
    t
  }

  // XACK
  function Acknowledge(s: Stream, eid: nat): Stream {
    s.(pel := s.pel - {eid})
  }

  // XGROUP CREATE ... 0 MKSTREAM; an existing group answers BUSYGROUP and stays as it is.
  function CreateGroup(s: Stream): Stream {
    s.(group := true)
  }

  // XCLAIM to the same consumer; a pending entry that has left the stream is dropped.
  function Reassign(s: Stream, eid: nat): Stream {
    if eid in Behind(s) then s else s.(pel := s.pel - {eid})
  }

  // XRANGE ready (after + COUNT 1
  function Range(entries: seq<Entry>, after: nat): Option<Entry> {
    if entries == [] then None
    else if entries[0].eid > after then Some(entries[0])
    else Range(entries[1..], after)
  }

  // XREADGROUP COUNT 1 STREAMS ready >: the first entry from the one after last-delivered-id on.
  function From(entries: seq<Entry>, start: nat): Option<Entry> {
    if entries == [] then None
    else if start <= entries[0].eid then Some(entries[0])
    else From(entries[1..], start)
  }

  function NextEntry(s: Stream): Option<Entry> {
    From(s.entries, s.cursor + 1)
  }

  lemma {:induction false} FromIsEntry(entries: seq<Entry>, start: nat)
    ensures From(entries, start).Some?
            ==> From(entries, start).value in entries && start <= From(entries, start).value.eid
  {
    if entries != [] && entries[0].eid < start {
      FromIsEntry(entries[1..], start);
    }
  }

  // What XREADGROUP leaves behind when it returns an entry.
  function Read(s: Stream): Stream
    requires s.group && NextEntry(s).Some?
  {
    FromIsEntry(s.entries, s.cursor + 1);
    var e := NextEntry(s).value;
    s.(cursor := e.eid, pel := s.pel + {e.eid})
  }

  /** The entry XRANGE finds after the last-delivered-id is the one XREADGROUP delivers next. */
  lemma {:induction false} RangeIsNext(entries: seq<Entry>, cursor: nat)
    ensures Range(entries, cursor) == From(entries, cursor + 1)
  {
    if entries != [] {
      RangeIsNext(entries[1..], cursor);
    }
  }

  // ------------------------------------------------------------------ the two parts of the stream

  // How many leading entries the group has read.
  function Position(entries: seq<Entry>, cursor: nat): (k: nat)
    ensures k <= |entries| && (forall i :: 0 <= i < k ==> entries[i].eid <= cursor)
    ensures k < |entries| ==> entries[k].eid > cursor
  {
    if entries == [] || entries[0].eid > cursor then 0 else 1 + Position(entries[1..], cursor)
  }

  function Ahead(s: Stream): seq<Entry> {
    s.entries[Position(s.entries, s.cursor)..]
  }

  // The entries by id.
  function Listed(entries: seq<Entry>): map<nat, Option<Id>> {
    if entries == [] then map[]
    else
      var last := entries[|entries| - 1];
      Listed(entries[..|entries| - 1])[last.eid := last.id]
  }

  function Behind(s: Stream): map<nat, Option<Id>> {
    Listed(s.entries[..Position(s.entries, s.cursor)])
  }

  lemma EmptySplit()
    ensures Ahead(EMPTY_STREAM) == [] && Behind(EMPTY_STREAM) == map[]
  {
  }

  lemma {:induction false} ListedIn(entries: seq<Entry>)
    ensures forall e :: e in Listed(entries) <==> exists x :: x in entries && x.eid == e
    decreases |entries|
  {
    if entries != [] {
      var front, last := entries[..|entries| - 1], entries[|entries| - 1];
      assert entries == front + [last];
      ListedIn(front);
    }
  }

  /** The undelivered part is in id order beyond everything delivered. */
  lemma SplitOrdered(s: Stream)
    ensures var u := Ahead(s);
      && (forall i, j :: 0 <= i < j < |u| ==> u[i].eid < u[j].eid)
      && (forall i :: 0 <= i < |u| ==> s.cursor < u[i].eid <= s.lastId)
    ensures forall e :: e in Behind(s) ==> e <= s.cursor
    ensures !s.group ==> Behind(s) == map[]
  {
    ListedIn(s.entries[..Position(s.entries, s.cursor)]);
  }

  /** The next entry is the first undelivered one. */
  lemma NextIsHead(s: Stream)
    ensures NextEntry(s) == if Ahead(s) == [] then None else Some(Ahead(s)[0])
  {
    NextFrom(s.entries, s.cursor);
  }

  lemma {:induction false} NextFrom(entries: seq<Entry>, cursor: nat)
    ensures var k := Position(entries, cursor); From(entries, cursor + 1) == if k == |entries| then None
            else Some(entries[k])
  {
    if entries != [] && entries[0].eid <= cursor {
      NextFrom(entries[1..], cursor);
    }
  }

  lemma {:induction false} WithoutSplit(a: seq<Entry>, b: seq<Entry>, eid: nat)
    ensures Without(a + b, eid) == Without(a, eid) + Without(b, eid)
  {
    if a == [] {
      assert a + b == b;
    } else {
      assert (a + b)[1..] == a[1..] + b;
      WithoutSplit(a[1..], b, eid);
    }
  }

  lemma {:induction false} ListedWithout(entries: seq<Entry>, eid: nat)
    ensures Listed(Without(entries, eid)) == Listed(entries) - {eid}
    decreases |entries|
  {
    if entries != [] {
      var front, last := entries[..|entries| - 1], entries[|entries| - 1];
      assert entries == front + [last];
      ListedWithout(front, eid);
      WithoutSplit(front, [last], eid);
      var w := Without(front, eid);
      assert Without([last], eid) == if last.eid == eid then [] else [last];
      assert (w + [last])[..|w|] == w && w + [] == w;
    }
  }

  predicate UpTo(entries: seq<Entry>, cursor: nat) {
    forall i :: 0 <= i < |entries| ==> entries[i].eid <= cursor
  }

  predicate Beyond(entries: seq<Entry>, cursor: nat) {
    forall i :: 0 <= i < |entries| ==> entries[i].eid > cursor
  }

  // Where two parts on either side of the cursor meet.
  lemma PositionOf(a: seq<Entry>, b: seq<Entry>, cursor: nat)
    requires UpTo(a, cursor) && Beyond(b, cursor)
    ensures Position(a + b, cursor) == |a| && (a + b)[..|a|] == a && (a + b)[|a|..] == b
  {
    var s, k := a + b, Position(a + b, cursor);
    assert forall i :: 0 <= i < |a| ==> s[i] == a[i];
    assert k < |s| ==> s[k].eid > cursor;
    assert b != [] ==> s[|a|] == b[0];
  }

  lemma AddSplit(s: Stream, id: Id)
    ensures Ahead(Add(s, id)) == Ahead(s) + [Entry(s.lastId + 1, Some(id))]
    ensures Behind(Add(s, id)) == Behind(s)
  {
    hide Add, Position, Listed, Ordered, UpTo, Beyond;
    var k, next := Position(s.entries, s.cursor), Entry(s.lastId + 1, Some(id));
    var read, rest := s.entries[..k], s.entries[k..];
    assert s.entries == read + rest && s.entries + [next] == read + (rest + [next]);
    AddIs(s, id);
    SplitBounds(s);
    BeyondMore(rest, s.cursor, next);
    PositionOf(read, rest + [next], s.cursor);
  }

  lemma AddIs(s: Stream, id: Id)
    ensures Add(s, id).entries == s.entries + [Entry(s.lastId + 1, Some(id))]
            && Add(s, id).cursor == s.cursor <= s.lastId
  {
  }

  lemma BeyondMore(entries: seq<Entry>, cursor: nat, next: Entry)
    requires Beyond(entries, cursor) && next.eid > cursor
    ensures Beyond(entries + [next], cursor)
  {
  }

  lemma ReadSplit(s: Stream)
    requires s.group && Ahead(s) != []
    ensures NextEntry(s) == Some(Ahead(s)[0])
    ensures Ahead(Read(s)) == Ahead(s)[1..]
    ensures Behind(Read(s)) == Behind(s)[Ahead(s)[0].eid := Ahead(s)[0].id]
  {
    hide Read, NextEntry, Position, Ordered, UpTo, Beyond;
    NextIsHead(s);
    var k := Position(s.entries, s.cursor);
    var read, head, rest := s.entries[..k], s.entries[k], s.entries[k + 1..];
    assert s.entries == (read + [head]) + rest;
    ReadIs(s);
    ReadBounds(s);
    PositionOf(read + [head], rest, head.eid);
    assert (read + [head])[..k] == read;
  }

  lemma ReadIs(s: Stream)
    requires s.group && NextEntry(s).Some?
    ensures Read(s).entries == s.entries && Read(s).cursor == NextEntry(s).value.eid
  {
  }

  lemma ReadBounds(s: Stream)
    requires Position(s.entries, s.cursor) < |s.entries|
    ensures var k := Position(s.entries, s.cursor); var head := s.entries[k];
            UpTo(s.entries[..k] + [head], head.eid) && Beyond(s.entries[k + 1..], head.eid)
  {
  }

  lemma DeleteSplit(s: Stream, eid: nat)
    ensures Ahead(Delete(s, eid)) == Without(Ahead(s), eid)
    ensures Behind(Delete(s, eid)) == Behind(s) - {eid}
  {
    hide Without, Delete, Position, Listed, Ordered, UpTo, Beyond;
    var k := Position(s.entries, s.cursor);
    var read, rest := s.entries[..k], s.entries[k..];
    assert s.entries == read + rest;
    DeleteIs(s, eid);
    SplitBounds(s);
    WithoutSplit(read, rest, eid);
    ListedWithout(read, eid);
    WithoutBounds(read, rest, s.cursor, eid);
    PositionOf(Without(read, eid), Without(rest, eid), s.cursor);
  }

  lemma DeleteIs(s: Stream, eid: nat)
    ensures Delete(s, eid).entries == Without(s.entries, eid) && Delete(s, eid).cursor == s.cursor
  {
  }

  lemma SplitBounds(s: Stream)
    ensures var k := Position(s.entries, s.cursor); UpTo(s.entries[..k], s.cursor) && Beyond(s.entries[k..], s.cursor)
  {
  }

  lemma WithoutBounds(read: seq<Entry>, rest: seq<Entry>, cursor: nat, eid: nat)
    requires UpTo(read, cursor) && Beyond(rest, cursor)
    ensures UpTo(Without(read, eid), cursor) && Beyond(Without(rest, eid), cursor)
  {
    hide Without;
    WithoutKeeps(read, eid);
    WithoutKeeps(rest, eid);
    forall i | 0 <= i < |Without(read, eid)| ensures Without(read, eid)[i].eid <= cursor {
      assert Without(read, eid)[i] in read;
    }
    forall i | 0 <= i < |Without(rest, eid)| ensures Without(rest, eid)[i].eid > cursor {
      assert Without(rest, eid)[i] in rest;
    }
  }
}
