/** The ledger's records, and counting them by what they say. Everything the validator concludes rests on such
    counts, so it does not depend on the order of the records. */
module Records {
  import opened Basics

  datatype Kind = Submit | ProcStart | ProcEnd | Final | Check | Event | OtherKind
  datatype Result = Accepted | Rejected | Uncertain | OtherResult
  datatype Seen = Done | Failed | DigestMismatch | OtherState

  datatype Rec = Rec(k: Kind, id: string, sha: string, len: int, res: Result, err: string,
                     call: string, pok: Option<bool>, state: Seen, name: string, pass: Option<bool>)

  predicate GoodSubmit(r: Rec) {
    r.k.Submit? && r.id != "" && r.sha != "" && r.len > 0
  }

  predicate GoodFinal(r: Rec) {
    r.k.Final? && r.id != "" && r.err == ""
  }

  predicate IsProc(r: Rec) {
    r.k.ProcStart? || r.k.ProcEnd?
  }

  predicate GoodProc(r: Rec) {
    IsProc(r) && r.id != "" && r.call != ""
  }

  datatype Filter =
    | AnySubmit | Submits(id: string) | Answers(id: string, res: Result) | Finals(id: string) | Procs
    | Starts(id: string) | Ends(id: string) | Called(call: string) | Open(ended: set<string>)
    | StartsAmong(ids: set<string>) | Showing(state: Seen) | Passing(name: string)

  predicate Fits(f: Filter, r: Rec) {
    match f
    case AnySubmit => r.k.Submit?
    case Submits(id) => GoodSubmit(r) && r.id == id
    case Answers(id, res) => GoodSubmit(r) && r.id == id && r.res == res
    case Finals(id) => GoodFinal(r) && r.id == id
    case Procs => IsProc(r)
    case Starts(id) => GoodProc(r) && r.k.ProcStart? && r.id == id
    case Ends(id) => GoodProc(r) && r.k.ProcEnd? && r.id == id
    case Called(call) => r.call == call
    case Open(ended) => r.call !in ended
    case StartsAmong(ids) => GoodProc(r) && r.k.ProcStart? && r.id in ids
    case Showing(state) => r.state == state
    case Passing(name) => r.k.Check? && r.err == "" && r.pass == Some(true) && r.name == name
  }

  // The records that fit, in order.
  function Select(recs: seq<Rec>, f: Filter): seq<Rec> {
    if recs == [] then []
    else
      var last := recs[|recs| - 1];
      Select(recs[..|recs| - 1], f) + if Fits(f, last) then [last] else []
  }

  function Count(recs: seq<Rec>, f: Filter): nat {
    |Select(recs, f)|
  }

  predicate Any(recs: seq<Rec>, f: Filter) {
    Count(recs, f) > 0
  }

  lemma SelectOneMore(recs: seq<Rec>, r: Rec, f: Filter)
    ensures Select(recs + [r], f) == Select(recs, f) + if Fits(f, r) then [r] else []
  {
    assert (recs + [r])[..|recs|] == recs;
  }

  lemma CountOneMore(recs: seq<Rec>, r: Rec, f: Filter)
    ensures Count(recs + [r], f) == Count(recs, f) + if Fits(f, r) then 1 else 0
  {
    SelectOneMore(recs, r, f);
  }

  lemma {:induction false} SelectIn(recs: seq<Rec>, f: Filter)
    ensures forall r :: r in Select(recs, f) <==> r in recs && Fits(f, r)
    ensures Any(recs, f) <==> exists r :: r in recs && Fits(f, r)
    decreases |recs|
  {
    if recs != [] {
      var front, last := recs[..|recs| - 1], recs[|recs| - 1];
      SelectIn(front, f);
      assert recs == front + [last];
    }
    if Any(recs, f) {
      assert Select(recs, f)[0] in Select(recs, f);
    }
  }

  // Where the records are that fit both filters.
  function Places(recs: seq<Rec>, f: Filter, g: Filter): set<int> {
    set i | 0 <= i < |recs| && Fits(f, recs[i]) && Fits(g, recs[i])
  }

  lemma PlaceOneMore(front: seq<Rec>, last: Rec, f: Filter, g: Filter, i: int)
    ensures i in Places(front + [last], f, g)
            <==> i in Places(front, f, g) || (i == |front| && Fits(f, last) && Fits(g, last))
    ensures i in Places(front, f, g) ==> i < |front|
  {
    hide Fits;
  }

  lemma PlacesOneMore(front: seq<Rec>, last: Rec, f: Filter, g: Filter)
    ensures |Places(front + [last], f, g)| == |Places(front, f, g)| + if Fits(f, last) && Fits(g, last) then 1 else 0
  {
    hide Fits, Places;
    var all, was, n := Places(front + [last], f, g), Places(front, f, g), |front|;
    forall i
      ensures i in all <==> i in was || (i == n && Fits(f, last) && Fits(g, last))
      ensures i in was ==> i < n
    {
      PlaceOneMore(front, last, f, g, i);
    }
    assert all == if Fits(f, last) && Fits(g, last) then was + {n} else was;
  }

  // Selecting twice, told by positions.
  lemma {:induction false} CountTwice(recs: seq<Rec>, f: Filter, g: Filter)
    ensures Count(Select(recs, f), g) == |Places(recs, f, g)|
    decreases |recs|
  {
    hide Fits;
    if recs != [] {
      hide Places;
      var front, last := recs[..|recs| - 1], recs[|recs| - 1];
      assert recs == front + [last];
      CountTwice(front, f, g);
      PlacesOneMore(front, last, f, g);
      SelectOneMore(front, last, f);
      CountOneMore(Select(front, f), last, g);
      hide Select, Count;
      assert Select(front, f) + [] == Select(front, f);
    }
  }

  lemma {:induction false} SelectedAgain(recs: seq<Rec>, f: Filter)
    ensures Select(Select(recs, f), f) == Select(recs, f)
    decreases |recs|
  {
    if recs != [] {
      var front, last := recs[..|recs| - 1], recs[|recs| - 1];
      SelectedAgain(front, f);
      SelectOneMore(Select(front, f), last, f);
      assert Select(front, f) + [] == Select(front, f);
    }
  }

  lemma TwoOf<T>(s: set<T>) returns (a: T, b: T)
    requires |s| > 1
    ensures a in s && b in s && a != b
  {
    a :| a in s;
    var rest := s - {a};
    assert s == rest + {a} && |rest| > 0;
    b :| b in rest;
  }

  // Selecting from the process records loses no start or end.
  lemma {:induction false} SelectProcs(recs: seq<Rec>, f: Filter)
    requires f.Starts? || f.Ends? || f.StartsAmong?
    ensures Select(Select(recs, Procs), f) == Select(recs, f)
    decreases |recs|
  {
    if recs != [] {
      var front, last := recs[..|recs| - 1], recs[|recs| - 1];
      SelectProcs(front, f);
      SelectOneMore(Select(front, Procs), last, f);
      assert Select(recs, Procs) == Select(front, Procs) + (if Fits(Procs, last) then [last] else []);
      assert Select(front, Procs) + [] == Select(front, Procs);
    }
  }

  ghost predicate Permuted(a: seq<Rec>, b: seq<Rec>) {
    multiset(a) == multiset(b)
  }

  lemma SameMembers(a: seq<Rec>, b: seq<Rec>)
    requires Permuted(a, b)
    ensures |a| == |b| && forall r :: r in a <==> r in b
  {
    assert |multiset(a)| == |multiset(b)|;
    forall r ensures r in a <==> r in b {
      assert r in a <==> r in multiset(a);
      assert r in b <==> r in multiset(b);
    }
  }

  // A record is selected as often as it occurs, or not at all.
  lemma {:induction false} Multiplicity(recs: seq<Rec>, f: Filter, r: Rec)
    ensures multiset(Select(recs, f))[r] == if Fits(f, r) then multiset(recs)[r] else 0
    decreases |recs|
  {
    if recs != [] {
      var front, last := recs[..|recs| - 1], recs[|recs| - 1];
      Multiplicity(front, f, r);
      assert recs == front + [last];
    }
  }

  /** Permuting the records permutes what is selected from them. */
  lemma SelectPermuted(a: seq<Rec>, b: seq<Rec>, f: Filter)
    requires Permuted(a, b)
    ensures Permuted(Select(a, f), Select(b, f)) && Count(a, f) == Count(b, f)
  {
    forall r ensures multiset(Select(a, f))[r] == multiset(Select(b, f))[r] {
      Multiplicity(a, f, r);
      Multiplicity(b, f, r);
    }
    SameMembers(Select(a, f), Select(b, f));
  }
}
