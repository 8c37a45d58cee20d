/** The order of a Redis sorted set: by score, ties by member bytes. Ranked lists a score map in that order. */
module Ranking {
  import opened Basics

  type Scores = map<Id, int>

  predicate IdLess(a: Id, b: Id) {
    if a == [] then b != []
    else if b == [] then false
    else a[0] < b[0] || (a[0] == b[0] && IdLess(a[1..], b[1..]))
  }

  // The order of byte strings: a is a proper prefix of b, or the first byte in which they differ is the smaller one.
  ghost predicate Diverges(a: Id, b: Id, k: nat) {
    && k <= |a| && k < |b| && a[..k] == b[..k]
    && (k < |a| ==> a[k] < b[k])
  }

  lemma SharedStart(a: Id, b: Id, k: nat)
    requires Diverges(a, b, k) && k > 0
    ensures a[0] == b[0]
  {
    assert a[..k][0] == a[0] && b[..k][0] == b[0];
  }

  lemma {:induction false} IdLessIs(a: Id, b: Id)
    ensures IdLess(a, b) <==> exists k: nat :: Diverges(a, b, k)
  {
    if a == [] || b == [] {
      assert a == [] && b != [] ==> Diverges(a, b, 0);
    } else if a[0] == b[0] {
      IdLessIs(a[1..], b[1..]);
      assert a == [a[0]] + a[1..] && b == [b[0]] + b[1..];
      if k: nat :| Diverges(a[1..], b[1..], k) {
        assert a[..k + 1] == [a[0]] + a[1..][..k] && b[..k + 1] == [b[0]] + b[1..][..k];
        assert Diverges(a, b, k + 1);
      }
      if k: nat :| Diverges(a, b, k) {
        assert k > 0;
        assert a[1..][..k - 1] == a[..k][1..] && b[1..][..k - 1] == b[..k][1..];
        assert Diverges(a[1..], b[1..], k - 1);
      }
    } else {
      assert a[0] < b[0] ==> Diverges(a, b, 0);
      forall k: nat | Diverges(a, b, k) ensures k == 0 {
        if k > 0 {
          SharedStart(a, b, k);
        }
      }
    }
  }

  predicate Before(x: int, a: Id, y: int, b: Id) {
    x < y || (x == y && IdLess(a, b))
  }

  lemma IdLessIrreflexive(a: Id)
    ensures !IdLess(a, a)
  {
  }

  lemma {:induction false} IdLessTotal(a: Id, b: Id)
    ensures a == b || IdLess(a, b) || IdLess(b, a)
  {
    if a != [] && b != [] && a[0] == b[0] {
      IdLessTotal(a[1..], b[1..]);
      assert a == [a[0]] + a[1..] && b == [b[0]] + b[1..];
    }
  }

  lemma {:induction false} IdLessTransitive(a: Id, b: Id, c: Id)
    requires IdLess(a, b) && IdLess(b, c)
    ensures IdLess(a, c)
  {
    if a != [] && a[0] == b[0] && b[0] == c[0] {
      IdLessTransitive(a[1..], b[1..], c[1..]);
    }
  }

  lemma BeforeTransitive(x: int, a: Id, y: int, b: Id, z: int, c: Id)
    requires Before(x, a, y, b) && Before(y, b, z, c)
    ensures Before(x, a, z, c)
  {
    if x == y == z {
      IdLessTransitive(a, b, c);
    }
  }

  lemma BeforeAsymmetric(x: int, a: Id, y: int, b: Id)
    requires Before(x, a, y, b)
    ensures !Before(y, b, x, a) && (x != y || a != b)
  {
    if Before(y, b, x, a) {
      IdLessTransitive(a, b, a);
    }
    IdLessIrreflexive(a);
  }

  // k is the first member of z.
  predicate IsFirst(z: Scores, k: Id) {
    k in z && forall j :: j in z && j != k ==> Before(z[k], k, z[j], j)
  }

  lemma FirstExists(z: Scores)
    requires z != map[]
    ensures exists k :: IsFirst(z, k)
    decreases |z|
  {
    var k :| k in z;
    var rest := z - {k};
    if rest == map[] {
      assert forall j :: j in z && j != k ==> j in rest;
      assert IsFirst(z, k);
    } else {
      FirstExists(rest);
      var f :| IsFirst(rest, f);
      IdLessTotal(k, f);
      var least := if Before(z[f], f, z[k], k) then f else k;
      forall j | j in z && j != least ensures Before(z[least], least, z[j], j) {
        if j != k && j != f {
          assert j in rest;
          assert Before(rest[f], f, rest[j], j);
          if least == k {
            BeforeTransitive(z[k], k, z[f], f, z[j], j);
          }
        }
      }
      assert IsFirst(z, least);
    }
  }

  lemma FirstUnique(z: Scores, a: Id, b: Id)
    requires IsFirst(z, a) && IsFirst(z, b)
    ensures a == b
  {
    if a != b {
      BeforeAsymmetric(z[a], a, z[b], b);
    }
  }

  function First(z: Scores): (k: Id)
    requires z != map[]
    ensures IsFirst(z, k)
  {
    FirstExists(z);
    assert forall a, b :: IsFirst(z, a) && IsFirst(z, b) ==> a == b by {
      forall a, b | IsFirst(z, a) && IsFirst(z, b) ensures a == b {
        FirstUnique(z, a, b);
      }
    }
    var k :| k in z && IsFirst(z, k);
    k
  }

  function Ranked(z: Scores): (s: seq<Id>)
    decreases |z|
  {
    if z == map[] then [] else
      var k := First(z);
      [k] + Ranked(z - {k})
  }

  ghost predicate Ascending(z: Scores, s: seq<Id>)
    requires forall k :: k in s ==> k in z
  {
    forall i, j :: 0 <= i < j < |s| ==> Before(z[s[i]], s[i], z[s[j]], s[j])
  }

  lemma {:induction false} RankedLists(z: Scores)
    ensures forall k :: k in Ranked(z) <==> k in z
    ensures |Ranked(z)| == |z|
    ensures Ascending(z, Ranked(z))
    decreases |z|
  {
    if z != map[] {
      var k := First(z);
      var rest := z - {k};
      RankedLists(rest);
      var tail := Ranked(rest);
      assert rest.Keys == z.Keys - {k};
      forall j ensures j in Ranked(z) <==> j in z {
        assert j in Ranked(z) <==> j == k || j in tail;
      }
      forall i, j | 0 <= i < j < |Ranked(z)|
        ensures Before(z[Ranked(z)[i]], Ranked(z)[i], z[Ranked(z)[j]], Ranked(z)[j])
      {
        assert tail[j - 1] in rest;
        if i > 0 {
          assert tail[i - 1] in rest;
        }
      }
    }
  }

  lemma AscendingNoDup(z: Scores, s: seq<Id>)
    requires forall k :: k in s ==> k in z
    requires Ascending(z, s)
    ensures NoDup(s)
  {
    forall i, j | 0 <= i < j < |s| ensures s[i] != s[j] {
      BeforeAsymmetric(z[s[i]], s[i], z[s[j]], s[j]);
    }
  }

  ghost predicate Lists(z: Scores, s: seq<Id>) {
    (forall k :: k in s <==> k in z) && Ascending(z, s)
  }

  lemma HeadIsFirst(z: Scores, s: seq<Id>)
    requires Lists(z, s) && s != []
    ensures z != map[] && s[0] == First(z)
  {
    assert s[0] in z;
    forall j | j in z && j != s[0] ensures Before(z[s[0]], s[0], z[j], j) {
      var i :| 0 <= i < |s| && s[i] == j;
      assert Before(z[s[0]], s[0], z[s[i]], s[i]);
    }
    FirstUnique(z, s[0], First(z));
  }

  lemma TailLists(z: Scores, s: seq<Id>)
    requires Lists(z, s) && s != []
    ensures Lists(z - {s[0]}, s[1..])
  {
    AscendingNoDup(z, s);
    var rest := z - {s[0]};
    forall j ensures j in s[1..] <==> j in rest {
      assert s == [s[0]] + s[1..];
      if j in s[1..] {
        var i :| 0 <= i < |s[1..]| && s[1..][i] == j;
        assert s[i + 1] == j;
      }
    }
    forall i, j | 0 <= i < j < |s[1..]|
      ensures Before(rest[s[1..][i]], s[1..][i], rest[s[1..][j]], s[1..][j])
    {
      assert Before(z[s[i + 1]], s[i + 1], z[s[j + 1]], s[j + 1]);
    }
  }

  // Any ascending listing of exactly the members is the ranked one.
  lemma {:induction false} RankedUnique(z: Scores, s: seq<Id>)
    requires Lists(z, s)
    ensures s == Ranked(z)
    decreases |s|
  {
    if s == [] {
      assert forall k :: k in z <==> k in s;
      assert z.Keys == {};
    } else {
      HeadIsFirst(z, s);
      TailLists(z, s);
      RankedUnique(z - {s[0]}, s[1..]);
    }
  }

  /** ZRANGEBYSCORE z -inf max LIMIT 0 limit */
  function UpTo(z: Scores, max: int): Scores {
    map k | k in z && z[k] <= max :: z[k]
  }

  function RangeByScore(z: Scores, max: int, limit: nat): seq<Id> {
    Take(Ranked(UpTo(z, max)), limit)
  }

  function Take<T>(s: seq<T>, n: nat): seq<T> {
    if |s| <= n then s else s[..n]
  }

  // s holds the least members of z in ascending order, limit of them or all there are.
  ghost predicate Least(z: Scores, s: seq<Id>, limit: nat) {
    && (forall k :: k in s ==> k in z) && Ascending(z, s)
    && |s| == (if |z| < limit then |z| else limit)
    && forall k, i :: k in z && k !in s && 0 <= i < |s| ==> Before(z[s[i]], s[i], z[k], k)
  }

  lemma TakeIsLeast(z: Scores, limit: nat)
    ensures Least(z, Take(Ranked(z), limit), limit)
  {
    var all, s := Ranked(z), Take(Ranked(z), limit);
    RankedLists(z);
    hide Ranked, Before;
    assert forall i :: 0 <= i < |s| ==> s[i] == all[i] && all[i] in s;
    forall k | k in s ensures k in z {
      assert k in all;
    }
    forall k, i | k in z && k !in s && 0 <= i < |s| ensures Before(z[s[i]], s[i], z[k], k) {
      assert k in all;
      var j :| 0 <= j < |all| && all[j] == k;
      assert j >= |s|;
    }
  }

  /** The range by score: the least of the members in range, ascending by score and then member, each once, limit of
      them or all there are; a member in range that is not listed comes after every one that is. */
  lemma RangeLists(z: Scores, max: int, limit: nat)
    ensures var r, due := RangeByScore(z, max, limit), set k | k in z && z[k] <= max;
            && NoDup(r) && |r| == (if |due| < limit then |due| else limit)
            && (forall k :: k in r ==> k in z && z[k] <= max)
            && (forall i, j :: 0 <= i < j < |r| ==>
                  z[r[i]] < z[r[j]] || (z[r[i]] == z[r[j]] && IdLess(r[i], r[j])))
            && (forall k, i :: k in due && k !in r && 0 <= i < |r| ==>
                  z[r[i]] < z[k] || (z[r[i]] == z[k] && IdLess(r[i], k)))
            && (r != [] ==> forall k :: k in z ==> z[r[0]] <= z[k])
            && (limit > 0 && r == [] ==> forall k :: k in z ==> z[k] > max)
  {
    var u, r := UpTo(z, max), RangeByScore(z, max, limit);
    var due := set k | k in z && z[k] <= max;
    assert u.Keys == due;
    TakeIsLeast(u, limit);
    AscendingNoDup(u, r);
    hide Ranked, Take, RangeByScore, IdLess;
    forall k | k in z && (r != [] || limit > 0) ensures if r != [] then z[r[0]] <= z[k] else z[k] > max {
      if k in due {
        if k in r {
          var i :| 0 <= i < |r| && r[i] == k;
          assert i > 0 ==> Before(u[r[0]], r[0], u[r[i]], r[i]);
        }
        assert due != {} && |due| > 0;
      }
    }
  }

  // ZRANGEBYSCORE ... LIMIT 0 1 yields the first member of all, if it is in range.
  lemma RangeOfOne(z: Scores, max: int)
    ensures RangeByScore(z, max, 1) == if z == map[] || z[First(z)] > max then [] else [First(z)]
  {
    var u := UpTo(z, max);
    if z != map[] && z[First(z)] <= max {
      assert First(z) in u;
      forall j | j in u && j != First(z) ensures Before(u[First(z)], First(z), u[j], j) {
        assert Before(z[First(z)], First(z), z[j], j);
      }
      FirstUnique(u, First(z), First(u));
    } else {
      forall k | k in z ensures z[k] > max {
        assert k == First(z) || Before(z[First(z)], First(z), z[k], k);
      }
      assert u == map[];
    }
  }
}
