/** The strict validator of the append-only ledger. Its passes over the records are loops here as in the code;
    what a report says is stated in terms of the records alone. */
module Ledger {
  import opened Basics
  import opened Ranking
  import opened Records

  datatype Code =
    | BadRecord | SubmitShaConflict | QueryError | CheckFailed | EmptyLedger | MissingRequiredCheck
    | UnknownId | PayloadNotOk | PayloadMismatch | ExpectCallsUnknownId
    | ProcEndWithoutStart | StartWithoutEnd | CallCountMismatch | UnexpectedDuplicate | UnexplainedRedelivery
    | ProcessForbidden | RejectedButProcessed | AcceptedNotProcessed | TombstoneDigestMismatch
    | AcceptedNotConfirmed | FinalUnknown

  datatype Violation = Violation(code: Code, id: string)

  datatype Expect = Expect(
    allowRedelivery: bool, redeliveryNeedsUnfinished: bool, allowUnfinished: bool,
    mustNotProcess: seq<string>, expectedLost: seq<string>, expectedFailed: seq<string>,
    expectCalls: map<string, int>, requiredChecks: seq<string>)

  datatype Tally = Tally(
    submitAttempts: int, uniqueSubmitted: int, accepted: int, rejected: int, uncertain: int,
    procCalls: int, uniqueExecuted: int, duplicates: int, scriptedRepeats: int, unfinishedCalls: int,
    confirmed: int, confirmedFailed: int)

  datatype Report = Report(violations: seq<Violation>, tally: Tally)

  datatype IdInfo = IdInfo(shas: set<string>, accepted: bool, rejected: bool, uncert: bool,
                           starts: seq<Rec>, ends: set<string>, finals: seq<Rec>)

  const BLANK := IdInfo({}, false, false, false, [], {}, [])

  // ------------------------------------------------------------------ what the records say about an id

  function Shas(recs: seq<Rec>, id: string): set<string> {
    set r | r in Select(recs, Submits(id)) :: r.sha
  }

  function Calls(ends: seq<Rec>): set<string> {
    set r | r in ends :: r.call
  }

  // The length the last submit of id declared.
  function LastLen(recs: seq<Rec>, id: string): int {
    if recs == [] then 0
    else if Fits(Submits(id), recs[|recs| - 1]) then recs[|recs| - 1].len
    else LastLen(recs[..|recs| - 1], id)
  }

  function LastSha(recs: seq<Rec>, id: string): string {
    if recs == [] then ""
    else if Fits(Submits(id), recs[|recs| - 1]) then recs[|recs| - 1].sha
    else LastSha(recs[..|recs| - 1], id)
  }

  predicate Submitted(recs: seq<Rec>, id: string) {
    Any(recs, Submits(id))
  }

  predicate Mentioned(recs: seq<Rec>, id: string) {
    Any(recs, Submits(id)) || Any(recs, Finals(id))
  }

  // What submits and final observations say; the calls are attached later.
  function Gathered(recs: seq<Rec>, id: string): IdInfo {
    IdInfo(Shas(recs, id), Any(recs, Answers(id, Accepted)), Any(recs, Answers(id, Rejected)),
           Any(recs, Answers(id, Uncertain)), [], {}, Select(recs, Finals(id)))
  }

  function Attached(x: IdInfo, procs: seq<Rec>, id: string): IdInfo {
    if x.shas == {} then x
    else x.(starts := Select(procs, Starts(id)), ends := Calls(Select(procs, Ends(id))))
  }

  function Info(recs: seq<Rec>, id: string): IdInfo {
    Attached(Gathered(recs, id), recs, id)
  }

  // ------------------------------------------------------------------ violations

  predicate Conflict(recs: seq<Rec>, id: string) {
    exists a, b :: a in Shas(recs, id) && b in Shas(recs, id) && a != b
  }

  // What is wrong with a record by itself, and the id it is reported under.
  function Complaint(r: Rec): Option<Code> {
    match r.k
    case Submit => if !GoodSubmit(r) || r.res.OtherResult? then Some(BadRecord) else None
    case Final => if r.id == "" then Some(BadRecord) else if r.err != "" then Some(QueryError) else None
    case Check =>
      if r.err != "" then Some(QueryError) else if r.pass.None? then Some(BadRecord)
      else if !r.pass.value then Some(CheckFailed) else None
    case OtherKind => Some(BadRecord)
    case _ => None
  }

  function Subject(r: Rec): string {
    if r.k.Check? then "" else r.id
  }

  ghost predicate RecordBreach(recs: seq<Rec>, v: Violation) {
    (exists r :: r in recs && Complaint(r) == Some(v.code) && Subject(r) == v.id)
    || (v.code.SubmitShaConflict? && Conflict(recs, v.id))
  }

  ghost predicate SetupBreach(recs: seq<Rec>, exp: Expect, v: Violation) {
    (v == Violation(EmptyLedger, "") && !Any(recs, AnySubmit))
    || (v == Violation(MissingRequiredCheck, "") && exists name ::
       name in exp.requiredChecks && !Any(recs, Passing(name)))
    || (v.code.ExpectCallsUnknownId? && v.id in exp.expectCalls && !Submitted(recs, v.id))
  }

  // What is wrong with one process record, given what was submitted.
  predicate ProcFault(shas: set<string>, len: int, r: Rec, code: Code) {
    if !GoodProc(r) then code.BadRecord?
    else if shas == {} then code.UnknownId?
    else r.k.ProcStart? && ((code.PayloadNotOk? && r.pok != Some(true))
                            || (code.PayloadMismatch? && (r.sha !in shas || r.len != len)))
  }

  ghost predicate EndedTwice(procs: seq<Rec>, id: string) {
    exists call :: Count(Select(procs, Ends(id)), Called(call)) > 1
  }

  // recs says what was submitted, procs are the process records looked at.
  ghost predicate ProcBreach(recs: seq<Rec>, procs: seq<Rec>, v: Violation) {
    (exists r :: r in procs && IsProc(r) && r.id == v.id && ProcFault(Shas(recs, r.id), LastLen(recs, r.id), r, v.code))
    || (v.code.BadRecord? && Submitted(recs, v.id) && EndedTwice(procs, v.id))
  }

  function Opened(x: IdInfo): nat {
    Count(x.starts, Open(x.ends))
  }

  predicate Orphaned(x: IdInfo) {
    exists c :: c in x.ends && !Any(x.starts, Called(c))
  }

  function Want(id: string, exp: Expect): Seen {
    if id in exp.expectedFailed then Seen.Failed else Seen.Done
  }

  // The verdicts on one id: on its calls, on whether it should have been called, on its final state.
  predicate CallFault(x: IdInfo, id: string, exp: Expect, code: Code) {
    var n, scripted := |x.starts|, id in exp.expectCalls;
    match code
    case ProcEndWithoutStart => Orphaned(x)
    case StartWithoutEnd => Opened(x) > 0 && !exp.allowUnfinished
    case CallCountMismatch => scripted && n != exp.expectCalls[id]
    case UnexpectedDuplicate => !scripted && n > 1 && !exp.allowRedelivery
    case UnexplainedRedelivery => !scripted && n > 1 && exp.allowRedelivery && exp.redeliveryNeedsUnfinished
        && Opened(x) < n - 1
    case _ => false
  }

  predicate RuleFault(x: IdInfo, id: string, exp: Expect, code: Code) {
    var n, lost, barred := |x.starts|, id in exp.expectedLost, id in exp.mustNotProcess;
    match code
    case ProcessForbidden => (barred || lost) && n > 0
    case RejectedButProcessed => !x.accepted && !x.uncert && x.rejected && n > 0
    case AcceptedNotProcessed => x.accepted && !lost && !barred && n == 0
    case _ => false
  }

  predicate FinalFault(x: IdInfo, id: string, exp: Expect, code: Code) {
    var lost := id in exp.expectedLost;
    match code
    case TombstoneDigestMismatch => x.accepted && !lost && Any(x.finals, Showing(DigestMismatch))
    case AcceptedNotConfirmed => x.accepted && !lost && !Any(x.finals, Showing(Want(id, exp)))
    case FinalUnknown => !x.accepted && !x.uncert && x.finals != []
    case _ => false
  }

  predicate Fault(x: IdInfo, id: string, exp: Expect, code: Code) {
    CallFault(x, id, exp, code) || RuleFault(x, id, exp, code) || FinalFault(x, id, exp, code)
  }

  /** Everything the validator may report about these records. */
  ghost predicate Breach(recs: seq<Rec>, exp: Expect, v: Violation) {
    RecordBreach(recs, v) || SetupBreach(recs, exp, v) || ProcBreach(recs, recs, v)
    || (Mentioned(recs, v.id) && Fault(Info(recs, v.id), v.id, exp, v.code))
  }

  // ------------------------------------------------------------------ pass 1: submits, finals, checks

  // What the tables hold for one id.
  ghost predicate Row(recs: seq<Rec>, ids: map<string, IdInfo>, known: map<string, string>, lens: map<string, int>,
      id: string) {
    && (id in ids <==> Mentioned(recs, id)) && (id in ids ==> ids[id] == Gathered(recs, id))
    && (id in known <==> Submitted(recs, id)) && (id in known ==> known[id] == LastSha(recs, id))
    && (id in lens <==> Submitted(recs, id)) && (id in lens ==> lens[id] == LastLen(recs, id))
  }

  ghost predicate Tables(recs: seq<Rec>, ids: map<string, IdInfo>, known: map<string, string>, lens: map<string, int>) {
    forall id :: Row(recs, ids, known, lens, id)
  }

  lemma ShasOneMore(recs: seq<Rec>, r: Rec, id: string)
    ensures Shas(recs + [r], id) == Shas(recs, id) + if Fits(Submits(id), r) then {r.sha} else {}
  {
    SelectOneMore(recs, r, Submits(id));
  }

  // What one record adds to what is known of an id.
  function Learn(x: IdInfo, r: Rec, id: string): IdInfo {
    if Fits(Submits(id), r) then
      x.(shas := x.shas + {r.sha}, accepted := x.accepted || r.res.Accepted?,
         rejected := x.rejected || r.res.Rejected?, uncert := x.uncert || r.res.Uncertain?)
    else if Fits(Finals(id), r) then x.(finals := x.finals + [r])
    else x
  }

  lemma GatheredOneMore(recs: seq<Rec>, r: Rec, id: string)
    ensures Submitted(recs + [r], id) <==> Submitted(recs, id) || Fits(Submits(id), r)
    ensures Mentioned(recs + [r], id) <==> Mentioned(recs, id) || Fits(Submits(id), r) || Fits(Finals(id), r)
    ensures Gathered(recs + [r], id) == Learn(Gathered(recs, id), r, id)
    ensures LastLen(recs + [r], id) == if Fits(Submits(id), r) then r.len else LastLen(recs, id)
    ensures LastSha(recs + [r], id) == if Fits(Submits(id), r) then r.sha else LastSha(recs, id)
  {
    assert (recs + [r])[..|recs|] == recs;
    ShasOneMore(recs, r, id);
    SelectOneMore(recs, r, Submits(id));
    SelectOneMore(recs, r, Finals(id));
    SelectOneMore(recs, r, Answers(id, Accepted));
    SelectOneMore(recs, r, Answers(id, Rejected));
    SelectOneMore(recs, r, Answers(id, Uncertain));
  }

  lemma NothingGathered(recs: seq<Rec>, id: string)
    requires !Mentioned(recs, id)
    ensures Gathered(recs, id) == BLANK
  {
    SelectIn(recs, Submits(id));
    SelectIn(recs, Answers(id, Accepted));
    SelectIn(recs, Answers(id, Rejected));
    SelectIn(recs, Answers(id, Uncertain));
  }

  function Lookup(ids: map<string, IdInfo>, id: string): IdInfo {
    if id in ids then ids[id] else BLANK
  }

  // The tables after one more record.
  function NextIds(ids: map<string, IdInfo>, r: Rec): map<string, IdInfo> {
    if GoodSubmit(r) || GoodFinal(r) then ids[r.id := Learn(Lookup(ids, r.id), r, r.id)] else ids
  }

  function NextText(known: map<string, string>, r: Rec): map<string, string> {
    if GoodSubmit(r) then known[r.id := r.sha] else known
  }

  function NextLens(lens: map<string, int>, r: Rec): map<string, int> {
    if GoodSubmit(r) then lens[r.id := r.len] else lens
  }

  lemma RowElsewhere(recs: seq<Rec>, r: Rec, ids: map<string, IdInfo>, known: map<string, string>,
                     lens: map<string, int>, id: string)
    requires Row(recs, ids, known, lens, id) && (id != r.id || !(GoodSubmit(r) || GoodFinal(r)))
    ensures Row(recs + [r], NextIds(ids, r), NextText(known, r), NextLens(lens, r), id)
  {
    GatheredOneMore(recs, r, id);
    hide Gathered, LastLen, LastSha, Mentioned, Submitted, Lookup;
  }

  lemma RowHere(recs: seq<Rec>, r: Rec, ids: map<string, IdInfo>, known: map<string, string>, lens: map<string, int>)
    requires Row(recs, ids, known, lens, r.id) && (GoodSubmit(r) || GoodFinal(r))
    ensures Row(recs + [r], NextIds(ids, r), NextText(known, r), NextLens(lens, r), r.id)
  {
    if r.id !in ids {
      NothingGathered(recs, r.id);
    }
    assert Lookup(ids, r.id) == Gathered(recs, r.id);
    GatheredOneMore(recs, r, r.id);
    hide Gathered, LastLen, LastSha, Mentioned, Submitted, Lookup, Learn;
  }

  lemma TablesStep(recs: seq<Rec>, r: Rec, ids: map<string, IdInfo>, known: map<string, string>, lens: map<string, int>)
    requires Tables(recs, ids, known, lens)
    ensures Tables(recs + [r], NextIds(ids, r), NextText(known, r), NextLens(lens, r))
  {
    var all, idsNow, knownNow, lensNow := recs + [r], NextIds(ids, r), NextText(known, r), NextLens(lens, r);
    hide Row, NextIds, NextText, NextLens, GoodSubmit, GoodFinal;
    forall id ensures Row(all, idsNow, knownNow, lensNow, id) {
      assert Row(recs, ids, known, lens, id);
      if id != r.id || !(GoodSubmit(r) || GoodFinal(r)) {
        RowElsewhere(recs, r, ids, known, lens, id);
      } else {
        RowHere(recs, r, ids, known, lens);
      }
    }
  }

  // The last sha of a submitted id is among its shas, and all of them are equal to it unless they conflict.
  lemma {:induction false} LastShaIsOne(recs: seq<Rec>, id: string)
    ensures Submitted(recs, id) ==> LastSha(recs, id) in Shas(recs, id)
    ensures !Submitted(recs, id) ==> Shas(recs, id) == {}
    decreases |recs|
  {
    if recs != [] {
      var front, last := recs[..|recs| - 1], recs[|recs| - 1];
      assert recs == front + [last];
      LastShaIsOne(front, id);
      GatheredOneMore(front, last, id);
      ShasOneMore(front, last, id);
    }
  }

  // When one more record makes a conflict of shas.
  lemma ConflictOneMore(recs: seq<Rec>, r: Rec, id: string)
    ensures Conflict(recs + [r], id)
            <==> Conflict(recs, id) || (Fits(Submits(id), r) && Submitted(recs, id) && LastSha(recs, id) != r.sha)
  {
    ShasOneMore(recs, r, id);
    LastShaIsOne(recs, id);
  }

  // The violations found at record r, which follows recs.
  ghost predicate FoundAt(recs: seq<Rec>, r: Rec, v: Violation) {
    (Complaint(r) == Some(v.code) && Subject(r) == v.id)
    || (v == Violation(SubmitShaConflict, r.id) && GoodSubmit(r) && Submitted(recs, r.id)
       && LastSha(recs, r.id) != r.sha)
  }

  lemma BreachOneMore(recs: seq<Rec>, r: Rec, v: Violation)
    ensures RecordBreach(recs + [r], v) <==> RecordBreach(recs, v) || FoundAt(recs, r, v)
  {
    ConflictOneMore(recs, r, v.id);
    assert forall x :: x in recs + [r] <==> x in recs || x == r;
    hide Conflict, Complaint, Subject;
    assert (exists x :: x in recs + [r] && Complaint(x) == Some(v.code) && Subject(x) == v.id)
      <==> (exists x :: x in recs && Complaint(x) == Some(v.code) && Subject(x) == v.id)
           || (Complaint(r) == Some(v.code) && Subject(r) == v.id);
  }

  // A submit that passed the first test.
  method TakeSubmit(r: Rec, ids: map<string, IdInfo>, known: map<string, string>, lens: map<string, int>)
    returns (idsNow: map<string, IdInfo>, knownNow: map<string, string>, lensNow: map<string, int>, bad: seq<Violation>)
    requires GoodSubmit(r)
    ensures idsNow == NextIds(ids, r) && knownNow == NextText(known, r) && lensNow == NextLens(lens, r)
    ensures bad == (if r.id in known && known[r.id] != r.sha then [Violation(SubmitShaConflict, r.id)] else [])
                   + (if r.res.OtherResult? then [Violation(BadRecord, r.id)] else [])
  {
    bad := [];
    var x := Lookup(ids, r.id);
    if r.id in known && known[r.id] != r.sha {
      bad := [Violation(SubmitShaConflict, r.id)];
    }
    knownNow, lensNow := known[r.id := r.sha], lens[r.id := r.len];
    x := x.(shas := x.shas + {r.sha});
    match r.res {
      case Accepted => x := x.(accepted := true);
      case Rejected => x := x.(rejected := true);
      case Uncertain => x := x.(uncert := true);
      case OtherResult => bad := bad + [Violation(BadRecord, r.id)];
    }
    idsNow := ids[r.id := x];
  }

  // Any other record of the first pass.
  method TakeOther(r: Rec, ids: map<string, IdInfo>) returns (idsNow: map<string, IdInfo>, bad: seq<Violation>)
    requires !r.k.Submit?
    ensures idsNow == NextIds(ids, r)
    ensures bad == if Complaint(r).Some? then [Violation(Complaint(r).value, Subject(r))] else []
  {
    idsNow, bad := ids, [];
    match r.k {
      case Final =>
        if r.id == "" {
          bad := [Violation(BadRecord, "")];
        } else if r.err != "" {
          bad := [Violation(QueryError, r.id)];
        } else {
          var x := Lookup(ids, r.id);
          idsNow := ids[r.id := x.(finals := x.finals + [r])];
        }
      case Check =>
        if r.err != "" {
          bad := [Violation(QueryError, "")];
        } else if r.pass.None? {
          bad := [Violation(BadRecord, "")];
        } else if !r.pass.value {
          bad := [Violation(CheckFailed, "")];
        }
      case OtherKind =>
        bad := [Violation(BadRecord, r.id)];
      case _ =>
    }
  }

  // One record of the first pass: the tables after it and the violations it adds.
  method TakeRecord(r: Rec, ghost recs: seq<Rec>, ids: map<string, IdInfo>, known: map<string, string>,
      lens: map<string, int>)
    returns (idsNow: map<string, IdInfo>, knownNow: map<string, string>, lensNow: map<string, int>, bad: seq<Violation>)
    requires Tables(recs, ids, known, lens)
    ensures Tables(recs + [r], idsNow, knownNow, lensNow)
    ensures forall v :: v in bad <==> FoundAt(recs, r, v)
  {
    assert Row(recs, ids, known, lens, r.id);
    TablesStep(recs, r, ids, known, lens);
    hide Tables, Gathered, Mentioned, Submitted, LastLen, LastSha, Learn, Lookup;
    if r.k.Submit? && (r.id == "" || r.sha == "" || r.len <= 0) {
      return ids, known, lens, [Violation(BadRecord, r.id)];
    }
    if r.k.Submit? {
      idsNow, knownNow, lensNow, bad := TakeSubmit(r, ids, known, lens);
    } else {
      knownNow, lensNow := known, lens;
      idsNow, bad := TakeOther(r, ids);
    }
  }

  method Collect(recs: seq<Rec>)
    returns (ids: map<string, IdInfo>, lens: map<string, int>, procs: seq<Rec>, attempts: nat, bad: seq<Violation>,
             ghost known: map<string, string>)
    ensures Tables(recs, ids, known, lens)
    ensures procs == Select(recs, Procs) && attempts == Count(recs, AnySubmit)
    ensures forall v :: v in bad <==> RecordBreach(recs, v)
  {
    var declared: map<string, string> := map[];
    ids, lens, procs, attempts, bad := map[], map[], [], 0, [];
    assert forall id :: Row([], ids, declared, lens, id);
    for i := 0 to |recs|
      invariant Tables(recs[..i], ids, declared, lens)
      invariant procs == Select(recs[..i], Procs) && attempts == Count(recs[..i], AnySubmit)
      invariant forall v :: v in bad <==> RecordBreach(recs[..i], v)
    {
      var r, seen := recs[i], recs[..i];
      assert recs[..i + 1] == seen + [r];
      SelectOneMore(seen, r, Procs);
      SelectOneMore(seen, r, AnySubmit);
      if r.k.Submit? {
        attempts := attempts + 1;
      }
      if r.k.ProcStart? || r.k.ProcEnd? {
        procs := procs + [r];
      }
      var found;
      ids, declared, lens, found := TakeRecord(r, seen, ids, declared, lens);
      forall v ensures v in bad + found <==> RecordBreach(recs[..i + 1], v) {
        BreachOneMore(seen, r, v);
      }
      bad := bad + found;
    }
    assert recs[..|recs|] == recs;
    known := declared;
  }

  // ------------------------------------------------------------------ pass 2: the process records

  lemma ShasOfSubmitted(recs: seq<Rec>, id: string)
    ensures Shas(recs, id) == {} <==> !Submitted(recs, id)
  {
    LastShaIsOne(recs, id);
  }

  // What one process record adds to what is known of an id.
  function Plus(x: IdInfo, r: Rec, id: string): IdInfo {
    if x.shas == {} then x
    else if Fits(Starts(id), r) then x.(starts := x.starts + [r])
    else if Fits(Ends(id), r) then x.(ends := x.ends + {r.call})
    else x
  }

  lemma AttachedOneMore(x: IdInfo, seen: seq<Rec>, r: Rec, id: string)
    ensures Attached(x, seen + [r], id) == Plus(Attached(x, seen, id), r, id)
  {
    SelectOneMore(seen, r, Starts(id));
    SelectOneMore(seen, r, Ends(id));
    hide Select;
    CallsOneMore(Select(seen, Ends(id)), r);
  }

  lemma CallsOneMore(ends: seq<Rec>, r: Rec)
    ensures Calls(ends + [r]) == Calls(ends) + {r.call}
    ensures r.call in Calls(ends) <==> Any(ends, Called(r.call))
    ensures Calls(ends + []) == Calls(ends)
  {
    SelectIn(ends, Called(r.call));
    assert ends + [] == ends;
  }

  // A call ends twice when an end of a call already ended is added.
  lemma EndedTwiceOneMore(seen: seq<Rec>, r: Rec, id: string)
    ensures EndedTwice(seen + [r], id)
            <==> EndedTwice(seen, id) || (Fits(Ends(id), r) && r.call in Calls(Select(seen, Ends(id))))
  {
    var ends, after := Select(seen, Ends(id)), Select(seen + [r], Ends(id));
    SelectOneMore(seen, r, Ends(id));
    CallsOneMore(ends, r);
    hide Select, Count, Calls;
    if Fits(Ends(id), r) {
      forall call ensures Count(after, Called(call)) == Count(ends, Called(call)) + if r.call == call then 1 else 0 {
        CountOneMore(ends, r, Called(call));
      }
      assert Any(ends, Called(r.call)) <==> Count(after, Called(r.call)) > 1;
      assert EndedTwice(seen, id) ==> EndedTwice(seen + [r], id);
    } else {
      assert after == ends;
    }
  }

  // The violations found at process record r, which follows seen.
  ghost predicate ProcFoundAt(recs: seq<Rec>, seen: seq<Rec>, r: Rec, v: Violation) {
    (r.id == v.id && ProcFault(Shas(recs, r.id), LastLen(recs, r.id), r, v.code))
    || (v == Violation(BadRecord, r.id) && Submitted(recs, r.id) && Fits(Ends(r.id), r)
        && r.call in Calls(Select(seen, Ends(r.id))))
  }

  lemma ProcBreachOneMore(recs: seq<Rec>, seen: seq<Rec>, r: Rec, v: Violation)
    requires IsProc(r)
    ensures ProcBreach(recs, seen + [r], v) <==> ProcBreach(recs, seen, v) || ProcFoundAt(recs, seen, r, v)
  {
    EndedTwiceOneMore(seen, r, v.id);
    assert forall x :: x in seen + [r] <==> x in seen || x == r;
    hide EndedTwice, ProcFault, Shas, LastLen, Submitted, Select;
    assert (exists x ::
        x in seen + [r] && IsProc(x) && x.id == v.id && ProcFault(Shas(recs, x.id), LastLen(recs, x.id), x, v.code))
      <==> (exists x ::
          x in seen && IsProc(x) && x.id == v.id && ProcFault(Shas(recs, x.id), LastLen(recs, x.id), x, v.code))
           || (r.id == v.id && ProcFault(Shas(recs, r.id), LastLen(recs, r.id), r, v.code));
  }

  ghost predicate AttachedRow(recs: seq<Rec>, procs: seq<Rec>, ids: map<string, IdInfo>, id: string) {
    && (id in ids <==> Mentioned(recs, id))
    && (id in ids ==> ids[id] == Attached(Gathered(recs, id), procs, id))
  }

  // The ids after the process records procs have been attached.
  ghost predicate AttachedAll(recs: seq<Rec>, procs: seq<Rec>, ids: map<string, IdInfo>) {
    forall id :: AttachedRow(recs, procs, ids, id)
  }

  ghost predicate Lengths(recs: seq<Rec>, lens: map<string, int>, id: string) {
    (id in lens <==> Submitted(recs, id)) && (id in lens ==> lens[id] == LastLen(recs, id))
  }

  // A process record of a submitted id.
  method TakeCall(r: Rec, x: IdInfo, len: int) returns (y: IdInfo, bad: seq<Violation>)
    requires GoodProc(r) && x.shas != {}
    ensures y == Plus(x, r, r.id)
    ensures forall v :: v in bad <==>
      v.id == r.id && (ProcFault(x.shas, len, r, v.code) || (v.code.BadRecord? && r.k.ProcEnd? && r.call in x.ends))
  {
    y, bad := x, [];
    if r.k.ProcStart? {
      if r.pok != Some(true) {
        bad := bad + [Violation(PayloadNotOk, r.id)];
      }
      if r.sha !in x.shas || r.len != len {
        bad := bad + [Violation(PayloadMismatch, r.id)];
      }
      y := x.(starts := x.starts + [r]);
    } else {
      if r.call in x.ends {
        bad := bad + [Violation(BadRecord, r.id)];
      }
      y := x.(ends := x.ends + {r.call});
    }
  }

  method TakeProc(r: Rec, ghost recs: seq<Rec>, ghost seen: seq<Rec>, ids: map<string, IdInfo>, lens: map<string, int>)
    returns (idsNow: map<string, IdInfo>, started: bool, bad: seq<Violation>)
    requires IsProc(r) && AttachedAll(recs, seen, ids) && forall id :: Lengths(recs, lens, id)
    ensures AttachedAll(recs, seen + [r], idsNow)
    ensures started == Fits(StartsAmong(lens.Keys), r)
    ensures forall v :: v in bad <==> ProcFoundAt(recs, seen, r, v)
  {
    AttachedTo(recs, seen, ids, r);
    assert Lengths(recs, lens, r.id);
    hide Gathered, Mentioned, LastLen, Submitted, Select, Shas, AttachedAll, Calls;
    idsNow, started, bad := ids, false, [];
    if r.id == "" || r.call == "" {
      return idsNow, started, [Violation(BadRecord, r.id)];
    }
    if r.id !in ids || ids[r.id].shas == {} {
      return idsNow, started, [Violation(UnknownId, r.id)];
    }
    started := r.k.ProcStart?;
    var x;
    x, bad := TakeCall(r, ids[r.id], lens[r.id]);
    hide Plus;
    idsNow := ids[r.id := x];
  }

  lemma AttachedTo(recs: seq<Rec>, seen: seq<Rec>, ids: map<string, IdInfo>, r: Rec)
    requires IsProc(r) && AttachedAll(recs, seen, ids)
    ensures r.id in ids ==> ids[r.id].shas == Shas(recs, r.id)
    ensures r.id in ids && Shas(recs, r.id) != {} ==> ids[r.id].ends == Calls(Select(seen, Ends(r.id)))
    ensures r.id !in ids ==> Shas(recs, r.id) == {}
    ensures Shas(recs, r.id) == {} <==> !Submitted(recs, r.id)
    ensures AttachedAll(recs, seen + [r], if r.id in ids then ids[r.id := Plus(ids[r.id], r, r.id)] else ids)
    ensures r.id in ids && Plus(ids[r.id], r, r.id) == ids[r.id] ==> AttachedAll(recs, seen + [r], ids)
  {
    assert AttachedRow(recs, seen, ids, r.id);
    ShasOfSubmitted(recs, r.id);
    var all, idsNow := seen + [r], if r.id in ids then ids[r.id := Plus(ids[r.id], r, r.id)] else ids;
    hide Mentioned, Select, Shas;
    forall id ensures AttachedRow(recs, all, idsNow, id) {
      assert AttachedRow(recs, seen, ids, id);
      AttachedOneMore(Gathered(recs, id), seen, r, id);
      PlusElsewhere(Attached(Gathered(recs, id), seen, id), r, id);
    }
    assert r.id in ids && Plus(ids[r.id], r, r.id) == ids[r.id] ==> idsNow == ids;
  }

  lemma PlusElsewhere(x: IdInfo, r: Rec, id: string)
    ensures r.id != id ==> Plus(x, r, id) == x
  {
  }

  method Attach(ghost recs: seq<Rec>, procs: seq<Rec>, ids: map<string, IdInfo>, lens: map<string, int>,
                ghost known: map<string, string>)
    returns (attached: map<string, IdInfo>, calls: nat, bad: seq<Violation>)
    requires Tables(recs, ids, known, lens) && forall r :: r in procs ==> IsProc(r)
    ensures AttachedAll(recs, procs, attached)
    ensures calls == Count(procs, StartsAmong(lens.Keys))
    ensures forall v :: v in bad <==> ProcBreach(recs, procs, v)
  {
    NoneAttached(recs, ids, lens, known);
    hide AttachedAll, Tables, ProcBreach, ProcFoundAt;
    attached, calls, bad := ids, 0, [];
    for i := 0 to |procs|
      invariant AttachedAll(recs, procs[..i], attached)
      invariant calls == Count(procs[..i], StartsAmong(lens.Keys))
      invariant forall v :: v in bad <==> ProcBreach(recs, procs[..i], v)
    {
      var r, seen := procs[i], procs[..i];
      assert procs[..i + 1] == seen + [r];
      SelectOneMore(seen, r, StartsAmong(lens.Keys));
      var started, found;
      attached, started, found := TakeProc(r, recs, seen, attached, lens);
      if started {
        calls := calls + 1;
      }
      forall v ensures v in bad + found <==> ProcBreach(recs, procs[..i + 1], v) {
        ProcBreachOneMore(recs, seen, r, v);
      }
      bad := bad + found;
    }
    assert procs[..|procs|] == procs;
  }

  lemma NoneAttached(recs: seq<Rec>, ids: map<string, IdInfo>, lens: map<string, int>, known: map<string, string>)
    requires Tables(recs, ids, known, lens)
    ensures AttachedAll(recs, [], ids) && (forall id :: Lengths(recs, lens, id)) && forall v :: !ProcBreach(recs, [], v)
  {
    hide Mentioned, Submitted, LastLen, LastSha;
    forall id ensures AttachedRow(recs, [], ids, id) && Lengths(recs, lens, id) {
      assert Row(recs, ids, known, lens, id);
      assert Calls([]) == {};
    }
  }

  // ------------------------------------------------------------------ what must be there at all

  // The names of the checks that passed.
  method CollectPassed(recs: seq<Rec>) returns (passed: set<string>)
    ensures forall name :: name in passed <==> Any(recs, Passing(name))
  {
    passed := {};
    for i := 0 to |recs|
      invariant forall name :: name in passed <==> Any(recs[..i], Passing(name))
    {
      assert recs[..i + 1] == recs[..i] + [recs[i]];
      forall name ensures Any(recs[..i + 1], Passing(name))
          <==> Any(recs[..i], Passing(name)) || Fits(Passing(name), recs[i]) {
        CountOneMore(recs[..i], recs[i], Passing(name));
      }
      var r := recs[i];
      if r.k.Check? && r.err == "" && r.pass.Some? && r.pass.value {
        passed := passed + {r.name};
      }
    }
    assert recs[..|recs|] == recs;
  }

  method CheckSetup(recs: seq<Rec>, exp: Expect, attempts: nat) returns (bad: seq<Violation>)
    requires attempts == Count(recs, AnySubmit)
    ensures forall v :: v in bad <==>
      (v == Violation(EmptyLedger, "") && !Any(recs, AnySubmit))
      || (v == Violation(MissingRequiredCheck, "") && exists name ::
         name in exp.requiredChecks && !Any(recs, Passing(name)))
  {
    bad := [];
    if |recs| == 0 {
      bad := [Violation(EmptyLedger, "")];
    } else if attempts == 0 {
      bad := [Violation(EmptyLedger, "")];
    }
    ghost var first := bad;
    var passed := CollectPassed(recs);
    var names := exp.requiredChecks;
    for i := 0 to |names|
      invariant forall v :: v in bad <==>
        v in first || (v == Violation(MissingRequiredCheck, "") && exists k :: 0 <= k < i && names[k] !in passed)
    {
      if names[i] !in passed {
        bad := bad + [Violation(MissingRequiredCheck, "")];
      }
    }
    assert (exists k :: 0 <= k < |names| && names[k] !in passed)
        <==> exists name :: name in names && !Any(recs, Passing(name));
  }

  method CheckExpectedIds(ghost recs: seq<Rec>, exp: Expect, ids: map<string, IdInfo>) returns (bad: seq<Violation>)
    requires AttachedAll(recs, recs, ids)
    ensures forall v :: v in bad <==> v.code.ExpectCallsUnknownId? && v.id in exp.expectCalls && !Submitted(recs, v.id)
  {
    bad := [];
    var todo := exp.expectCalls.Keys;
    while todo != {}
      invariant todo <= exp.expectCalls.Keys
      invariant forall v :: v in bad <==>
        v.code.ExpectCallsUnknownId? && v.id in exp.expectCalls && v.id !in todo && !Submitted(recs, v.id)
      decreases todo
    {
      var id :| id in todo;
      SubmittedInTable(recs, ids, id);
      if id !in ids || ids[id].shas == {} {
        bad := bad + [Violation(ExpectCallsUnknownId, id)];
      }
      todo := todo - {id};
    }
  }

  lemma SubmittedInTable(recs: seq<Rec>, ids: map<string, IdInfo>, id: string)
    requires AttachedAll(recs, recs, ids)
    ensures Submitted(recs, id) <==> id in ids && ids[id].shas != {}
  {
    assert AttachedRow(recs, recs, ids, id);
    ShasOfSubmitted(recs, id);
  }

  // ------------------------------------------------------------------ pass 3: the verdict on each id

  function One(b: bool): int {
    if b then 1 else 0
  }

  function Max(a: int, b: int): int {
    if a < b then b else a
  }

  // What one id contributes to the report's counters.
  function CallTally(x: IdInfo, id: string, exp: Expect, was: Tally): Tally {
    var n := |x.starts|;
    was.(uniqueExecuted := was.uniqueExecuted + One(n > 0), duplicates := was.duplicates + Max(n - 1, 0),
         scriptedRepeats := was.scriptedRepeats
                            + (if n > 0 && id in exp.expectCalls then Max(Min(n, exp.expectCalls[id]) - 1, 0) else 0),
         unfinishedCalls := was.unfinishedCalls + Opened(x))
  }

  function FinalTally(x: IdInfo, id: string, exp: Expect, was: Tally): Tally {
    var confirmed, want := x.accepted && id !in exp.expectedLost
        && Any(x.finals, Showing(Want(id, exp))), Want(id, exp);
    was.(confirmed := was.confirmed + One(confirmed && want.Done?),
         confirmedFailed := was.confirmedFailed + One(confirmed && want.Failed?))
  }

  function AnswerTally(x: IdInfo, was: Tally): Tally {
    was.(uniqueSubmitted := was.uniqueSubmitted + 1, accepted := was.accepted + One(x.accepted),
         rejected := was.rejected + One(!x.accepted && x.rejected),
         uncertain := was.uncertain + One(!x.accepted && !x.rejected && x.uncert))
  }

  function TallyAfter(x: IdInfo, id: string, exp: Expect, was: Tally): Tally {
    FinalTally(x, id, exp, CallTally(x, id, exp, AnswerTally(x, was)))
  }

  method MatchCalls(id: string, x: IdInfo) returns (bad: seq<Violation>, unfinished: nat)
    ensures forall v :: v in bad <==> v == Violation(ProcEndWithoutStart, id) && Orphaned(x)
    ensures unfinished == Opened(x)
  {
    var started: set<string> := {};
    for i := 0 to |x.starts|
      invariant forall c :: c in started <==> Any(x.starts[..i], Called(c))
    {
      assert x.starts[..i + 1] == x.starts[..i] + [x.starts[i]];
      forall c ensures Any(x.starts[..i + 1], Called(c)) <==> Any(x.starts[..i], Called(c)) || c == x.starts[i].call {
        CountOneMore(x.starts[..i], x.starts[i], Called(c));
      }
      started := started + {x.starts[i].call};
    }
    assert x.starts[..|x.starts|] == x.starts;
    bad := [];
    var todo := x.ends;
    while todo != {}
      invariant todo <= x.ends
      invariant forall v :: v in bad <==>
        v == Violation(ProcEndWithoutStart, id) && exists c :: c in x.ends - todo && c !in started
      decreases todo
    {
      var c :| c in todo;
      if c !in started {
        bad := bad + [Violation(ProcEndWithoutStart, id)];
      }
      todo := todo - {c};
    }
    assert x.ends - todo == x.ends;
    unfinished := 0;
    for i := 0 to |x.starts|
      invariant unfinished == Count(x.starts[..i], Open(x.ends))
    {
      assert x.starts[..i + 1] == x.starts[..i] + [x.starts[i]];
      CountOneMore(x.starts[..i], x.starts[i], Open(x.ends));
      if x.starts[i].call !in x.ends {
        unfinished := unfinished + 1;
      }
    }
  }

  method ScanFinals(id: string, x: IdInfo, want: Seen) returns (bad: seq<Violation>, got: bool)
    ensures forall v :: v in bad <==>
              v == Violation(TombstoneDigestMismatch, id) && Any(x.finals, Showing(DigestMismatch))
    ensures got == Any(x.finals, Showing(want))
  {
    bad, got := [], false;
    for i := 0 to |x.finals|
      invariant forall v :: v in bad <==>
        v == Violation(TombstoneDigestMismatch, id) && Any(x.finals[..i], Showing(DigestMismatch))
      invariant got == Any(x.finals[..i], Showing(want))
    {
      assert x.finals[..i + 1] == x.finals[..i] + [x.finals[i]];
      CountOneMore(x.finals[..i], x.finals[i], Showing(DigestMismatch));
      CountOneMore(x.finals[..i], x.finals[i], Showing(want));
      if x.finals[i].state.DigestMismatch? {
        bad := bad + [Violation(TombstoneDigestMismatch, id)];
      }
      if x.finals[i].state == want {
        got := true;
      }
    }
    assert x.finals[..|x.finals|] == x.finals;
  }

  method JudgeCalls(id: string, x: IdInfo, exp: Expect, was: Tally) returns (bad: seq<Violation>, t: Tally)
    ensures t == CallTally(x, id, exp, was)
    ensures forall v :: v in bad <==> v.id == id && CallFault(x, id, exp, v.code)
  {
    hide Any, Count, Opened, Orphaned;
    var unfinished;
    bad, unfinished := MatchCalls(id, x);
    t := was.(unfinishedCalls := was.unfinishedCalls + unfinished);
    if unfinished > 0 && !exp.allowUnfinished {
      bad := bad + [Violation(StartWithoutEnd, id)];
    }
    var n, scripted := |x.starts|, id in exp.expectCalls;
    if scripted && n != exp.expectCalls[id] {
      bad := bad + [Violation(CallCountMismatch, id)];
    }
    if n > 0 {
      t := t.(uniqueExecuted := t.uniqueExecuted + 1, duplicates := t.duplicates + n - 1);
      if scripted {
        t := t.(scriptedRepeats := t.scriptedRepeats + Max(Min(n, exp.expectCalls[id]) - 1, 0));
      } else if n > 1 {
        if !exp.allowRedelivery {
          bad := bad + [Violation(UnexpectedDuplicate, id)];
        } else if exp.redeliveryNeedsUnfinished && unfinished < n - 1 {
          bad := bad + [Violation(UnexplainedRedelivery, id)];
        }
      }
    }
  }

  method JudgeRules(id: string, x: IdInfo, exp: Expect) returns (bad: seq<Violation>)
    ensures forall v :: v in bad <==> v.id == id && RuleFault(x, id, exp, v.code)
  {
    var lost, barred, n := id in exp.expectedLost, id in exp.mustNotProcess, |x.starts|;
    bad := [];
    if barred && n > 0 {
      bad := bad + [Violation(ProcessForbidden, id)];
    }
    if lost && n > 0 {
      bad := bad + [Violation(ProcessForbidden, id)];
    }
    if !x.accepted && !x.uncert && x.rejected && n > 0 {
      bad := bad + [Violation(RejectedButProcessed, id)];
    }
    var wantProc := x.accepted && !lost && !barred;
    if wantProc && n == 0 {
      bad := bad + [Violation(AcceptedNotProcessed, id)];
    }
  }

  method JudgeFinal(id: string, x: IdInfo, exp: Expect, was: Tally) returns (bad: seq<Violation>, t: Tally)
    ensures t == FinalTally(x, id, exp, was)
    ensures forall v :: v in bad <==> v.id == id && FinalFault(x, id, exp, v.code)
  {
    hide Any, Count;
    bad, t := [], was;
    if x.accepted && id !in exp.expectedLost {
      var want := Want(id, exp);
      var got;
      bad, got := ScanFinals(id, x, want);
      if got && want.Done? {
        t := t.(confirmed := t.confirmed + 1);
      } else if got {
        t := t.(confirmedFailed := t.confirmedFailed + 1);
      } else {
        bad := bad + [Violation(AcceptedNotConfirmed, id)];
      }
    }
    if !x.accepted && !x.uncert && |x.finals| > 0 {
      bad := bad + [Violation(FinalUnknown, id)];
    }
  }

  // One round of the last loop.
  method Judge(id: string, x: IdInfo, exp: Expect, was: Tally) returns (bad: seq<Violation>, t: Tally)
    ensures t == TallyAfter(x, id, exp, was)
    ensures forall v :: v in bad <==> v.id == id && Fault(x, id, exp, v.code)
  {
    t := was.(uniqueSubmitted := was.uniqueSubmitted + 1);
    if x.accepted {
      t := t.(accepted := t.accepted + 1);
    } else if x.rejected {
      t := t.(rejected := t.rejected + 1);
    } else if x.uncert {
      t := t.(uncertain := t.uncertain + 1);
    }
    hide CallFault, RuleFault, FinalFault, CallTally, FinalTally;
    var calls, rules, finals;
    calls, t := JudgeCalls(id, x, exp, t);
    rules := JudgeRules(id, x, exp);
    finals, t := JudgeFinal(id, x, exp, t);
    bad := calls + rules + finals;
  }

  // ------------------------------------------------------------------ the whole validation

  function MentionedIds(recs: seq<Rec>): set<string> {
    set r | r in recs && (GoodSubmit(r) || GoodFinal(r)) :: r.id
  }

  function SubmittedIds(recs: seq<Rec>): set<string> {
    set r | r in recs && GoodSubmit(r) :: r.id
  }

  lemma IdSets(recs: seq<Rec>, id: string)
    ensures id in MentionedIds(recs) <==> Mentioned(recs, id)
    ensures id in SubmittedIds(recs) <==> Submitted(recs, id)
  {
    SelectIn(recs, Submits(id));
    SelectIn(recs, Finals(id));
  }

  // The ids in sorted order.
  function Names(recs: seq<Rec>): seq<string> {
    Ranked(map id | id in MentionedIds(recs) :: 0)
  }

  function TallyAll(recs: seq<Rec>, exp: Expect, names: seq<string>, start: Tally): Tally {
    if names == [] then start
    else
      var last := names[|names| - 1];
      TallyAfter(Info(recs, last), last, exp, TallyAll(recs, exp, names[..|names| - 1], start))
  }

  // The counters before any id is judged.
  function AtFirst(recs: seq<Rec>): Tally {
    Tally(Count(recs, AnySubmit), 0, 0, 0, 0, Count(recs, StartsAmong(SubmittedIds(recs))), 0, 0, 0, 0, 0, 0)
  }

  function Totals(recs: seq<Rec>, exp: Expect): Tally {
    TallyAll(recs, exp, Names(recs), AtFirst(recs))
  }

  lemma NamesAreIds(recs: seq<Rec>)
    ensures NoDup(Names(recs)) && forall id :: id in Names(recs) <==> Mentioned(recs, id)
  {
    var z := map id | id in MentionedIds(recs) :: 0;
    RankedLists(z);
    AscendingNoDup(z, Names(recs));
    forall id ensures id in Names(recs) <==> Mentioned(recs, id) {
      IdSets(recs, id);
    }
  }

  method JudgeAll(recs: seq<Rec>, exp: Expect, ids: map<string, IdInfo>, start: Tally)
      returns (bad: seq<Violation>, t: Tally)
    requires AttachedAll(recs, recs, ids)
    ensures forall v :: v in bad <==> Mentioned(recs, v.id) && Fault(Info(recs, v.id), v.id, exp, v.code)
    ensures t == TallyAll(recs, exp, Names(recs), start)
  {
    hide Fault, TallyAfter, Info, Mentioned, Ranked;
    var names := SortedKeys(recs, ids);
    NamesAreIds(recs);
    bad, t := [], start;
    for i := 0 to |names|
      invariant t == TallyAll(recs, exp, names[..i], start)
      invariant forall v :: v in bad <==> v.id in names[..i] && Fault(Info(recs, v.id), v.id, exp, v.code)
    {
      InfoOf(recs, ids, names[i]);
      var found;
      found, t := Judge(names[i], ids[names[i]], exp, t);
      assert names[..i + 1] == names[..i] + [names[i]];
      assert names[..i + 1][..i] == names[..i];
      bad := bad + found;
    }
    assert names[..|names|] == names;
  }

  method SortedKeys(ghost recs: seq<Rec>, ids: map<string, IdInfo>) returns (names: seq<string>)
    requires AttachedAll(recs, recs, ids)
    ensures names == Names(recs) && forall id :: id in names ==> id in ids
  {
    var z := map id | id in ids :: 0;
    names := Ranked(z);
    RankedLists(z);
    forall id ensures id in ids <==> id in MentionedIds(recs) {
      assert AttachedRow(recs, recs, ids, id);
      IdSets(recs, id);
    }
    assert z == map id | id in MentionedIds(recs) :: 0;
  }

  lemma InfoOf(recs: seq<Rec>, ids: map<string, IdInfo>, id: string)
    requires AttachedAll(recs, recs, ids) && id in ids
    ensures ids[id] == Info(recs, id)
  {
    assert AttachedRow(recs, recs, ids, id);
  }

  /** The validator reports exactly the breaches, and the totals. */
  // Attaching the process records alone is as good as attaching all records.
  lemma AttachedWhole(recs: seq<Rec>, procs: seq<Rec>, attached: map<string, IdInfo>,
                      ids: map<string, IdInfo>, lens: map<string, int>, known: map<string, string>)
    requires procs == Select(recs, Procs) && AttachedAll(recs, procs, attached) && Tables(recs, ids, known, lens)
    ensures AttachedAll(recs, recs, attached)
    ensures lens.Keys == SubmittedIds(recs)
            && Count(procs, StartsAmong(lens.Keys)) == Count(recs, StartsAmong(lens.Keys))
    ensures forall v :: ProcBreach(recs, procs, v) <==> ProcBreach(recs, recs, v)
  {
    SelectIn(recs, Procs);
    hide Mentioned, Submitted, Select;
    SelectProcs(recs, StartsAmong(lens.Keys));
    forall id
      ensures AttachedRow(recs, recs, attached, id) && (id in lens.Keys <==> id in SubmittedIds(recs))
      ensures EndedTwice(procs, id) <==> EndedTwice(recs, id)
    {
      assert Row(recs, ids, known, lens, id) && AttachedRow(recs, procs, attached, id);
      SelectProcs(recs, Starts(id));
      SelectProcs(recs, Ends(id));
      IdSets(recs, id);
    }
  }
}
