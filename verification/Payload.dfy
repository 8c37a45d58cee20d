/** The self-describing payload TPS1|id|size|filler: made from an id, recognised and checked byte for byte from
    the bytes alone. SHA-256 is any function to 32 bytes. */
module Payload {
  import opened Basics
  import opened Decimal

  // A Go int is 64 bits wide.
  const MIN_INT64: int := -9223372036854775808
  type Int64 = x: int | MIN_INT64 <= x <= MAX_INT64

  type Hash32 = s: Bytes | |s| == 32 witness seq(32, _ => 0)
  type Hasher = Bytes -> Hash32

  const PIPE: byte := 124
  const MAGIC: Bytes := [84, 80, 83, 49]
  const HEADER_WINDOW := 300

  // strconv.Itoa
  function Itoa(n: int): Bytes {
    if n < 0 then [45] + Print(-n) else Print(n)
  }

  // strconv.Atoi: an optional sign, then digits; leading zeros are allowed.
  function Atoi(s: Bytes): Option<int> {
    var signed := s != [] && (s[0] == 43 || s[0] == 45);
    var digits := if signed then s[1..] else s;
    if digits == [] || !AllDigits(digits) then None
    else
      var v: int := if signed && s[0] == 45 then -(Value(digits) as int) else Value(digits);
      if MIN_INT64 <= v <= MAX_INT64 then Some(v) else None
  }

  function Header(id: Bytes, size: int): Bytes {
    MAGIC + [PIPE] + id + [PIPE] + Itoa(size) + [PIPE]
  }

  // The k-th 32-byte block of filler.
  function Block(sha: Hasher, id: Bytes, k: nat): Hash32 {
    if k == 0 then sha(id) else sha(Block(sha, id, k - 1))
  }

  function Filler(sha: Hasher, id: Bytes, n: nat): (f: Bytes)
    ensures |f| == n
  {
    seq(n, i requires 0 <= i => Block(sha, id, i / 32)[i % 32])
  }

  // The payload of that id and size; None when the size cannot hold the header.
  function Made(sha: Hasher, id: Bytes, size: int): (p: Option<Bytes>)
    ensures p.Some? ==> |p.value| == size
  {
    var hdr := Header(id, size);
    if size < |hdr| then None else Some(hdr + Filler(sha, id, size - |hdr|))
  }

  lemma FillerGrows(sha: Hasher, id: Bytes, k: nat)
    ensures Filler(sha, id, 32 * k) + Block(sha, id, k) == Filler(sha, id, 32 * (k + 1))
  {
    var a, b := Filler(sha, id, 32 * k) + Block(sha, id, k), Filler(sha, id, 32 * (k + 1));
    forall i | 0 <= i < |a| ensures a[i] == b[i] {
      if i >= 32 * k {
        assert i / 32 == k && i % 32 == i - 32 * k;
      }
    }
  }

  lemma FillerCut(sha: Hasher, id: Bytes, m: nat, n: nat)
    requires n <= m
    ensures Filler(sha, id, m)[..n] == Filler(sha, id, n)
  {
  }

  // Block k of filler f, cut off where f ends: the hash of the id, or the hash of the block before.
  ghost predicate Linked(sha: Hasher, id: Bytes, f: Bytes, k: nat) {
    var at := 32 * k;
    at <= |f| ==> f[at..Min(at + 32, |f|)] <= if k == 0 then sha(id) else sha(f[at - 32..at])
  }

  // The filler is a chain of hashes that begins with that of the id.
  ghost predicate Chained(sha: Hasher, id: Bytes, f: Bytes) {
    forall k: nat :: Linked(sha, id, f, k)
  }

  lemma BlockOfFiller(sha: Hasher, id: Bytes, n: nat, k: nat)
    requires 32 * k <= n
    ensures Filler(sha, id, n)[32 * k..Min(32 * k + 32, n)] == Block(sha, id, k)[..Min(32, n - 32 * k)]
  {
    var at, f := 32 * k, Filler(sha, id, n);
    forall i | 0 <= i < Min(32, n - at) ensures f[at..Min(at + 32, n)][i] == Block(sha, id, k)[i] {
      assert (at + i) / 32 == k && (at + i) % 32 == i;
    }
  }

  lemma FillerIsChained(sha: Hasher, id: Bytes, n: nat)
    ensures Chained(sha, id, Filler(sha, id, n))
  {
    var f := Filler(sha, id, n);
    hide Filler;
    forall k: nat ensures Linked(sha, id, f, k) {
      if 32 * k <= n {
        BlockOfFiller(sha, id, n, k);
        if k > 0 {
          BlockOfFiller(sha, id, n, k - 1);
          assert Block(sha, id, k - 1)[..32] == Block(sha, id, k - 1);
        }
      }
    }
  }

  lemma {:induction false} LinkIsBlock(sha: Hasher, id: Bytes, f: Bytes, k: nat)
    requires Chained(sha, id, f) && 32 * k <= |f|
    ensures f[32 * k..Min(32 * k + 32, |f|)] <= Block(sha, id, k)
    decreases k
  {
    assert Linked(sha, id, f, k);
    if k > 0 {
      LinkIsBlock(sha, id, f, k - 1);
      assert f[32 * (k - 1)..32 * k] == Block(sha, id, k - 1);
    }
  }

  // There is only one chain of each length.
  lemma ChainedIsFiller(sha: Hasher, id: Bytes, f: Bytes)
    ensures Chained(sha, id, f) <==> f == Filler(sha, id, |f|)
  {
    FillerIsChained(sha, id, |f|);
    if Chained(sha, id, f) {
      forall i | 0 <= i < |f| ensures f[i] == Filler(sha, id, |f|)[i] {
        var k := i / 32;
        LinkIsBlock(sha, id, f, k);
        assert f[32 * k..Min(32 * k + 32, |f|)][i % 32] == f[i];
      }
    }
  }

  /** The payload is the header TPS1|id|size| followed by a chain of hashes, size bytes in all. */
  method MakePayload(sha: Hasher, id: Bytes, size: Int64) returns (payload: Option<Bytes>)
    ensures payload == Made(sha, id, size)
    ensures var hdr := [84, 80, 83, 49, 124] + id + [124] + Itoa(size) + [124];
      && (payload.None? <==> size < |hdr|)
      && (payload.Some? ==>
            |payload.value| == size && payload.value[..|hdr|] == hdr && Chained(sha, id, payload.value[|hdr|..]))
  {
    hide Filler, Chained, Itoa;
    var hdr := MAGIC + [PIPE] + id + [PIPE] + Itoa(size) + [PIPE];
    if size < |hdr| {
      return None;
    }
    var out := hdr;
    var seed := sha(id);
    ghost var k: nat := 0;
    assert Filler(sha, id, 0) == [];
    while |out| < size
      invariant out == hdr + Filler(sha, id, 32 * k) && seed == Block(sha, id, k)
    {
      FillerGrows(sha, id, k);
      out := out + seed;
      seed := sha(seed);
      k := k + 1;
    }
    FillerCut(sha, id, 32 * k, size - |hdr|);
    assert out[..size] == hdr + Filler(sha, id, size - |hdr|);
    FillerIsChained(sha, id, size - |hdr|);
    assert out[..size][|hdr|..] == Filler(sha, id, size - |hdr|);
    payload := Some(out[..size]);
  }

  // The index of the first pipe, or the length.
  function PipeAt(s: Bytes): (k: nat)
    ensures k <= |s| && PIPE !in s[..k] && (k < |s| ==> s[k] == PIPE)
  {
    if s == [] || s[0] == PIPE then 0
    else
      var k := 1 + PipeAt(s[1..]);
      assert s[..k] == [s[0]] + s[1..][..k - 1];
      k
  }

  // strings.SplitN(s, "|", n)
  function SplitN(s: Bytes, n: nat): seq<Bytes> {
    var k := PipeAt(s);
    if n <= 1 || k == |s| then [s] else [s[..k]] + SplitN(s[k + 1..], n - 1)
  }

  function ParsePayload(data: Bytes): Option<(Bytes, int)> {
    var parts := SplitN(data[..Min(|data|, HEADER_WINDOW)], 4);
    if |parts| < 4 || parts[0] != MAGIC then None
    else
      var size := Atoi(parts[2]);
      if size.None? then None else Some((parts[1], size.value))
  }

  // The id read from the payload, and whether the payload is exactly what that id and size make.
  function VerifyPayload(sha: Hasher, data: Bytes): (Bytes, bool) {
    var parsed := ParsePayload(data);
    if parsed.None? then ([], false)
    else
      var (id, size) := parsed.value;
      (id, size == |data| && Made(sha, id, size) == Some(data))
  }

  /** What VerifyPayload accepts: data is the payload of an id without a pipe whose header fits the window. */
  ghost predicate IsPayloadOf(sha: Hasher, data: Bytes, id: Bytes) {
    PIPE !in id && Made(sha, id, |data|) == Some(data) && |Header(id, |data|)| <= HEADER_WINDOW
  }

  // ------------------------------------------------------------------ splitting

  lemma PipeSplit(a: Bytes, rest: Bytes)
    requires PIPE !in a
    ensures PipeAt(a + [PIPE] + rest) == |a|
  {
    var s := a + [PIPE] + rest;
    var k := PipeAt(s);
    assert s[|a|] == PIPE && forall i :: 0 <= i < |a| ==> s[i] == a[i];
    forall i | 0 <= i < k ensures s[i] != PIPE {
      assert s[i] == s[..k][i];
    }
  }

  lemma SplitFirst(a: Bytes, rest: Bytes, n: nat)
    requires PIPE !in a && n > 1
    ensures SplitN(a + [PIPE] + rest, n) == [a] + SplitN(rest, n - 1)
  {
    var s := a + [PIPE] + rest;
    PipeSplit(a, rest);
    assert s[..|a|] == a && s[|a| + 1..] == rest;
  }

  // Two ways to cut at the first pipe agree.
  lemma SameCut(a: Bytes, x: Bytes, b: Bytes, y: Bytes)
    requires PIPE !in a && PIPE !in b && a + [PIPE] + x == b + [PIPE] + y
    ensures a == b && x == y
  {
    PipeSplit(a, x);
    PipeSplit(b, y);
    var s := a + [PIPE] + x;
    assert s[..|a|] == a && s[|a| + 1..] == x;
    assert s == b + [PIPE] + y;
    assert s[..|b|] == b && s[|b| + 1..] == y;
  }

  lemma {:induction false} SplitJoins(s: Bytes, n: nat)
    requires n > 1 && |SplitN(s, n)| > 1
    ensures PIPE !in SplitN(s, n)[0] && SplitN(s, n)[1..] == SplitN(s[PipeAt(s) + 1..], n - 1)
    ensures s == SplitN(s, n)[0] + [PIPE] + s[PipeAt(s) + 1..]
    ensures SplitN(s, n)[0] == s[..PipeAt(s)]
  {
    var k := PipeAt(s);
    hide PipeAt;
    assert SplitN(s, n) == [s[..k]] + SplitN(s[k + 1..], n - 1);
  }

  lemma FourParts(s: Bytes)
    requires |SplitN(s, 4)| == 4
    ensures var p := SplitN(s, 4);
            PIPE !in p[0] && PIPE !in p[1] && PIPE !in p[2]
            && s == p[0] + [PIPE] + (p[1] + [PIPE] + (p[2] + [PIPE] + p[3]))
  {
    SplitJoins(s, 4);
    var s1 := s[PipeAt(s) + 1..];
    SplitJoins(s1, 3);
    var s2 := s1[PipeAt(s1) + 1..];
    SplitJoins(s2, 2);
    assert SplitN(s2, 2)[1] == s2[PipeAt(s2) + 1..];
    hide SplitN, PipeAt;
    var p := SplitN(s, 4);
    assert p[1] == p[1..][0] && p[2] == p[1..][1..][0] && p[3] == p[1..][1..][1];
  }

  lemma SplitAtMost(s: Bytes, n: nat)
    requires n >= 1
    ensures 1 <= |SplitN(s, n)| <= n
  {
  }

  // ------------------------------------------------------------------ headers

  lemma ItoaParses(n: nat)
    requires n <= MAX_INT64
    ensures PIPE !in Itoa(n) && Atoi(Itoa(n)) == Some(n as int)
  {
    PrintCanonical(n);
  }

  lemma HeaderShape(id: Bytes, size: int, rest: Bytes)
    ensures Header(id, size) + rest == MAGIC + [PIPE] + (id + [PIPE] + (Itoa(size) + [PIPE] + rest))
    ensures |Header(id, size)| == |MAGIC| + |id| + |Itoa(size)| + 3
  {
  }

  lemma SplitOnce(s: Bytes)
    ensures SplitN(s, 1) == [s]
  {
  }

  lemma HeaderParses(id: Bytes, size: nat, rest: Bytes)
    requires PIPE !in id && size <= MAX_INT64
    ensures SplitN(Header(id, size) + rest, 4) == [MAGIC, id, Itoa(size), rest]
  {
    HeaderShape(id, size, rest);
    ItoaParses(size);
    SplitOnce(rest);
    hide SplitN, Header, Itoa, Atoi;
    var third := Itoa(size);
    var s2 := third + [PIPE] + rest;
    var s1 := id + [PIPE] + s2;
    SplitFirst(third, rest, 2);
    SplitFirst(id, s2, 3);
    SplitFirst(MAGIC, s1, 4);
    FourList(MAGIC, id, third, rest);
  }

  lemma FourList(a: Bytes, b: Bytes, c: Bytes, d: Bytes)
    ensures [a] + ([b] + ([c] + [d])) == [a, b, c, d]
  {
  }

  lemma PayloadParses(sha: Hasher, data: Bytes, id: Bytes)
    requires |data| <= MAX_INT64 && IsPayloadOf(sha, data, id)
    ensures ParsePayload(data) == Some((id, |data|))
  {
    var size, n := |data|, Min(|data|, HEADER_WINDOW);
    var hdr := Header(id, size);
    var rest := data[|hdr|..n];
    assert data == hdr + data[|hdr|..];
    assert data[..n] == hdr + rest;
    HeaderParses(id, size, rest);
    ItoaParses(size);
  }

  lemma Regroup(a: Bytes, b: Bytes, c: Bytes, d: Bytes, tail: Bytes)
    ensures (a + [PIPE] + (b + [PIPE] + (c + [PIPE] + d))) + tail
            == a + [PIPE] + (b + [PIPE] + (c + [PIPE] + (d + tail)))
  {
  }

  // Data that begins with magic, id and some third field, and also with a header for that id: the field is its size.
  lemma SameThird(id: Bytes, third: Bytes, x: Bytes, size: nat, y: Bytes)
    requires PIPE !in id && PIPE !in third && size <= MAX_INT64
    requires MAGIC + [PIPE] + (id + [PIPE] + (third + [PIPE] + x))
             == MAGIC + [PIPE] + (id + [PIPE] + (Itoa(size) + [PIPE] + y))
    ensures third == Itoa(size)
  {
    ItoaParses(size);
    SameCut(MAGIC, id + [PIPE] + (third + [PIPE] + x), MAGIC, id + [PIPE] + (Itoa(size) + [PIPE] + y));
    SameCut(id, third + [PIPE] + x, id, Itoa(size) + [PIPE] + y);
    SameCut(third, x, Itoa(size), y);
  }

  // What a successful parse says about the data.
  lemma ParsedShape(data: Bytes) returns (third: Bytes, rest: Bytes)
    requires ParsePayload(data).Some?
    ensures var id := ParsePayload(data).value.0;
            && PIPE !in id && PIPE !in third && |MAGIC| + |id| + |third| + 3 <= HEADER_WINDOW
            && data == MAGIC + [PIPE] + (id + [PIPE] + (third + [PIPE] + rest))
  {
    var n := Min(|data|, HEADER_WINDOW);
    var first, tail := data[..n], data[n..];
    var p := SplitN(first, 4);
    SplitAtMost(first, 4);
    FourParts(first);
    assert data == first + tail;
    third, rest := p[2], p[3] + tail;
    hide SplitN;
    Regroup(p[0], p[1], p[2], p[3], tail);
  }

  lemma ParsedIsPayload(sha: Hasher, data: Bytes)
    requires |data| <= MAX_INT64 && VerifyPayload(sha, data).1
    ensures IsPayloadOf(sha, data, VerifyPayload(sha, data).0)
  {
    var id, size := VerifyPayload(sha, data).0, |data|;
    var filler := data[|Header(id, size)|..];
    assert data == Header(id, size) + filler;
    var third, rest := ParsedShape(data);
    HeaderShape(id, size, filler);
    hide ParsePayload, Header, Made, Itoa;
    SameThird(id, third, rest, size, filler);
  }

  /** VerifyPayload accepts data for an id exactly if data is the payload of that id. */
  lemma VerifyExact(sha: Hasher, data: Bytes, id: Bytes)
    requires |data| <= MAX_INT64
    ensures VerifyPayload(sha, data) == (id, true) <==> IsPayloadOf(sha, data, id)
    ensures var hdr := [84, 80, 83, 49, 124] + id + [124] + Itoa(|data|) + [124];
            VerifyPayload(sha, data) == (id, true)
            <==> 124 !in id && |hdr| <= 300 && hdr <= data && Chained(sha, id, data[|hdr|..])
  {
    hide Filler, Chained, Itoa, Print;
    if VerifyPayload(sha, data).1 {
      ParsedIsPayload(sha, data);
    }
    if IsPayloadOf(sha, data, id) {
      PayloadParses(sha, data, id);
    }
    PayloadIsChain(sha, data, id);
    hide VerifyPayload, IsPayloadOf;
  }

  lemma PayloadIsChain(sha: Hasher, data: Bytes, id: Bytes)
    ensures var hdr := [84, 80, 83, 49, 124] + id + [124] + Itoa(|data|) + [124];
            IsPayloadOf(sha, data, id)
            <==> 124 !in id && |hdr| <= 300 && hdr <= data && Chained(sha, id, data[|hdr|..])
  {
    hide Filler, Chained, Itoa, Print;
    var hdr := Header(id, |data|);
    assert hdr == [84, 80, 83, 49, 124] + id + [124] + Itoa(|data|) + [124];
    if hdr <= data {
      assert data == hdr + data[|hdr|..];
      ChainedIsFiller(sha, id, data[|hdr|..]);
    }
  }

  /** Round trip: a payload that was made is recognised as that of its id exactly when the id holds no pipe and
      the header fits the window. */
  lemma RoundTrip(sha: Hasher, id: Bytes, size: Int64)
    requires Made(sha, id, size).Some?
    ensures VerifyPayload(sha, Made(sha, id, size).value) == (id, true)
            <==> 124 !in id && |id| + |Itoa(size)| + 7 <= 300
  {
    VerifyExact(sha, Made(sha, id, size).value, id);
  }

  /** Distinct ids never share an accepted payload; a payload even fixes id and size if neither id has a pipe. */
  lemma PayloadsDiffer(sha: Hasher, a: Bytes, x: Int64, b: Bytes, y: Int64)
    requires PIPE !in a && PIPE !in b && Made(sha, a, x).Some? && Made(sha, a, x) == Made(sha, b, y)
    ensures a == b && x == y
  {
    var data := Made(sha, a, x).value;
    var restA, restB := data[|Header(a, x)|..], data[|Header(b, y)|..];
    assert data == Header(a, x) + restA && data == Header(b, y) + restB;
    HeaderShape(a, x, restA);
    HeaderShape(b, y, restB);
    SameCut(MAGIC, a + [PIPE] + (Itoa(x) + [PIPE] + restA), MAGIC, b + [PIPE] + (Itoa(y) + [PIPE] + restB));
    SameCut(a, Itoa(x) + [PIPE] + restA, b, Itoa(y) + [PIPE] + restB);
  }

  /** An id with a pipe is cut short: the payload of "a|b" is read back as one of "a", if it is read at all. */
  lemma PipeCutsId(sha: Hasher, a: Bytes, b: Bytes, size: Int64)
    requires PIPE !in a && Made(sha, a + [PIPE] + b, size).Some?
    ensures var p := ParsePayload(Made(sha, a + [PIPE] + b, size).value); p.Some? ==> p.value.0 == a
  {
    var data := Made(sha, a + [PIPE] + b, size).value;
    if ParsePayload(data).Some? {
      var hdr := Header(a + [PIPE] + b, size);
      var filler := data[|hdr|..];
      assert data == hdr + filler;
      var third, rest := ParsedShape(data);
      HeaderShape(a + [PIPE] + b, size, filler);
      CutAtFirst(a, b, Itoa(size) + [PIPE] + filler, ParsePayload(data).value.0, third + [PIPE] + rest);
    }
  }

  lemma CutAtFirst(a: Bytes, b: Bytes, y: Bytes, id: Bytes, x: Bytes)
    requires PIPE !in a && PIPE !in id
    requires MAGIC + [PIPE] + (a + [PIPE] + b + [PIPE] + y) == MAGIC + [PIPE] + (id + [PIPE] + x)
    ensures id == a
  {
    assert a + [PIPE] + b + [PIPE] + y == a + [PIPE] + (b + [PIPE] + y);
    SameCut(MAGIC, a + [PIPE] + (b + [PIPE] + y), MAGIC, id + [PIPE] + x);
    SameCut(a, b + [PIPE] + y, id, x);
  }
}
