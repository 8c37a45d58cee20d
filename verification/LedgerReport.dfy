/** What a report of the validator says, told from the records and the expectations alone: for every code when it is
    reported, for every counter what it counts. */
module LedgerReport {
  import opened Basics
  import opened Records
  import opened Ledger

  // ------------------------------------------------------------------ reading the records

  predicate IsSubmit(r: Rec, id: string) {
    r.k.Submit? && r.id == id && id != "" && r.sha != "" && r.len > 0
  }

  predicate IsFinal(r: Rec, id: string) {
    r.k.Final? && r.id == id && id != "" && r.err == ""
  }

  predicate IsStart(r: Rec, id: string) {
    r.k.ProcStart? && r.id == id && id != "" && r.call != ""
  }

  predicate IsEnd(r: Rec, id: string) {
    r.k.ProcEnd? && r.id == id && id != "" && r.call != ""
  }

  ghost predicate Sent(recs: seq<Rec>, id: string) {
    exists r :: r in recs && IsSubmit(r, id)
  }

  ghost predicate Said(recs: seq<Rec>, id: string, res: Result) {
    exists r :: r in recs && IsSubmit(r, id) && r.res == res
  }

  ghost predicate Observed(recs: seq<Rec>, id: string) {
    exists r :: r in recs && IsFinal(r, id)
  }

  ghost predicate ObservedAs(recs: seq<Rec>, id: string, state: Seen) {
    exists r :: r in recs && IsFinal(r, id) && r.state == state
  }

  // Where the calls of id start; the calls of an id without a submit are not looked at.
  ghost function CallsAt(recs: seq<Rec>, id: string): set<int> {
    set i | 0 <= i < |recs| && IsStart(recs[i], id) && Sent(recs, id)
  }

  ghost predicate Finished(recs: seq<Rec>, id: string, call: string) {
    exists e :: e in recs && IsEnd(e, id) && e.call == call
  }

  ghost predicate Begun(recs: seq<Rec>, id: string, call: string) {
    exists s :: s in recs && IsStart(s, id) && s.call == call
  }

  // ... and where those start that do not end.
  ghost function OpenAt(recs: seq<Rec>, id: string): set<int> {
    set i | i in CallsAt(recs, id) && !Finished(recs, id, recs[i].call)
  }

  ghost predicate LastSubmitAt(recs: seq<Rec>, id: string, i: int) {
    0 <= i < |recs| && IsSubmit(recs[i], id) && forall j :: i < j < |recs| ==> !IsSubmit(recs[j], id)
  }

  // The length the last submit of id declares.
  ghost predicate Declared(recs: seq<Rec>, id: string, len: int) {
    exists i :: LastSubmitAt(recs, id, i) && recs[i].len == len
  }

  ghost predicate EndsTwice(recs: seq<Rec>, id: string) {
    exists i, j :: 0 <= i < j < |recs| && IsEnd(recs[i], id) && IsEnd(recs[j], id) && recs[i].call == recs[j].call
  }

  // ------------------------------------------------------------------ when each code is reported

  ghost predicate Malformed(r: Rec, id: string) {
    || (r.k.Submit? && r.id == id && (id == "" || r.sha == "" || r.len <= 0 || r.res.OtherResult?))
    || (r.k.Final? && r.id == "" == id)
    || (r.k.Check? && id == "" && r.err == "" && r.pass == None)
    || (r.k.OtherKind? && r.id == id)
    || ((r.k.ProcStart? || r.k.ProcEnd?) && r.id == id && (id == "" || r.call == ""))
  }

  predicate Contradict(r: Rec, s: Rec, id: string) {
    IsSubmit(r, id) && IsSubmit(s, id) && r.sha != s.sha
  }

  predicate QueryFailed(r: Rec, id: string) {
    r.err != "" && ((r.k.Final? && r.id == id && id != "") || (r.k.Check? && id == ""))
  }

  predicate CheckFell(r: Rec, id: string) {
    r.k.Check? && id == "" && r.err == "" && r.pass == Some(false)
  }

  ghost predicate Passed(recs: seq<Rec>, name: string) {
    exists r :: r in recs && r.k.Check? && r.name == name && r.err == "" && r.pass == Some(true)
  }

  // The payload of the call is one that was submitted for id, of the length declared last.
  ghost predicate AsSent(recs: seq<Rec>, r: Rec, id: string) {
    Declared(recs, id, r.len) && exists s :: s in recs && IsSubmit(s, id) && s.sha == r.sha
  }

  // The codes that speak of the calls and of the final state of one id.
  ghost predicate Verdict(recs: seq<Rec>, exp: Expect, id: string, code: Code) {
    var n, open, lost := |CallsAt(recs, id)|, |OpenAt(recs, id)|, id in exp.expectedLost;
    var accepted, uncertain := Said(recs, id, Accepted), Said(recs, id, Uncertain);
    match code
    case ProcEndWithoutStart =>
      Sent(recs, id) && exists e :: e in recs && IsEnd(e, id) && !Begun(recs, id, e.call)
    case StartWithoutEnd => open > 0 && !exp.allowUnfinished
    case CallCountMismatch =>
      (Sent(recs, id) || Observed(recs, id)) && id in exp.expectCalls && n != exp.expectCalls[id]
    case UnexpectedDuplicate => n > 1 && id !in exp.expectCalls && !exp.allowRedelivery
    case UnexplainedRedelivery =>
      n > 1 && id !in exp.expectCalls && exp.allowRedelivery && exp.redeliveryNeedsUnfinished && open < n - 1
    case ProcessForbidden => n > 0 && (id in exp.mustNotProcess || lost)
    case RejectedButProcessed => n > 0 && Said(recs, id, Rejected) && !accepted && !uncertain
    case AcceptedNotProcessed => n == 0 && accepted && !lost && id !in exp.mustNotProcess
    case TombstoneDigestMismatch => accepted && !lost && ObservedAs(recs, id, DigestMismatch)
    case AcceptedNotConfirmed =>
      accepted && !lost && !ObservedAs(recs, id, if id in exp.expectedFailed then Seen.Failed else Seen.Done)
    case FinalUnknown => Observed(recs, id) && !accepted && !uncertain
    case _ => false
  }

  /** For each code, the ids it is reported for. */
  ghost predicate Reported(recs: seq<Rec>, exp: Expect, v: Violation) {
    var id := v.id;
    match v.code
    case BadRecord => (exists r :: r in recs && Malformed(r, id)) || (Sent(recs, id) && EndsTwice(recs, id))
    case SubmitShaConflict => exists r, s :: r in recs && s in recs && Contradict(r, s, id)
    case QueryError => exists r :: r in recs && QueryFailed(r, id)
    case CheckFailed => exists r :: r in recs && CheckFell(r, id)
    case EmptyLedger => id == "" && forall r :: r in recs ==> !r.k.Submit?
    case MissingRequiredCheck => id == "" && exists name :: name in exp.requiredChecks && !Passed(recs, name)
    case ExpectCallsUnknownId => id in exp.expectCalls && !Sent(recs, id)
    case UnknownId => !Sent(recs, id) && exists r :: r in recs && (IsStart(r, id) || IsEnd(r, id))
    case PayloadNotOk => Sent(recs, id) && exists r :: r in recs && IsStart(r, id) && r.pok != Some(true)
    case PayloadMismatch => Sent(recs, id) && exists r :: r in recs && IsStart(r, id) && !AsSent(recs, r, id)
    case _ => Verdict(recs, exp, id, v.code)
  }

  // ------------------------------------------------------------------ the tables say what the records say

  lemma SubmitsRead(recs: seq<Rec>, id: string)
    ensures Submitted(recs, id) <==> Sent(recs, id)
    ensures forall x :: x in Shas(recs, id) <==> exists r :: r in recs && IsSubmit(r, id) && r.sha == x
  {
    SelectIn(recs, Submits(id));
    hide Select, Count;
    assert forall r: Rec :: Fits(Submits(id), r) <==> IsSubmit(r, id);
  }

  lemma AnswersRead(recs: seq<Rec>, id: string, res: Result)
    ensures Any(recs, Answers(id, res)) <==> Said(recs, id, res)
  {
    SelectIn(recs, Answers(id, res));
    hide Select, Count;
  }

  lemma FinalsRead(recs: seq<Rec>, id: string, state: Seen)
    ensures Any(Select(recs, Finals(id)), Showing(state)) <==> ObservedAs(recs, id, state)
    ensures Any(recs, Finals(id)) <==> Observed(recs, id)
    ensures Select(recs, Finals(id)) != [] <==> Observed(recs, id)
  {
    var finals := Select(recs, Finals(id));
    SelectIn(recs, Finals(id));
    SelectIn(finals, Showing(state));
    hide Select;
    assert forall r :: r in finals <==> r in recs && IsFinal(r, id);
  }

  lemma StartsRead(recs: seq<Rec>, id: string)
    requires Sent(recs, id)
    ensures |Select(recs, Starts(id))| == |CallsAt(recs, id)|
    ensures Count(Select(recs, Starts(id)), Open(Calls(Select(recs, Ends(id))))) == |OpenAt(recs, id)|
  {
    var f, g := Starts(id), Open(Calls(Select(recs, Ends(id))));
    CountTwice(recs, f, f);
    CountTwice(recs, f, g);
    SelectedAgain(recs, f);
    SelectIn(recs, Ends(id));
    hide Select;
    assert Places(recs, f, f) == CallsAt(recs, id);
    EndsRead(recs, id);
    assert Places(recs, f, g) == OpenAt(recs, id);
  }

  lemma EndsRead(recs: seq<Rec>, id: string)
    ensures forall c :: c in Calls(Select(recs, Ends(id))) <==> Finished(recs, id, c)
  {
    SelectIn(recs, Ends(id));
    hide Select;
    forall c ensures c in Calls(Select(recs, Ends(id))) <==> Finished(recs, id, c) {
      if Finished(recs, id, c) {
        var e :| e in recs && IsEnd(e, id) && e.call == c;
        assert e in Select(recs, Ends(id));
      }
    }
  }

  lemma CalledRead(recs: seq<Rec>, id: string, c: string)
    ensures Any(Select(recs, Starts(id)), Called(c)) <==> Begun(recs, id, c)
  {
    SelectIn(recs, Starts(id));
    SelectIn(Select(recs, Starts(id)), Called(c));
    hide Select, Count;
  }

  lemma NoneOpen(ended: set<string>)
    ensures Count([], Open(ended)) == 0
  {
  }

  // What the calls of an id look like in the tables.
  lemma CallsRead(recs: seq<Rec>, id: string)
    ensures var x := Info(recs, id);
      && |x.starts| == |CallsAt(recs, id)| && Opened(x) == |OpenAt(recs, id)|
      && (Orphaned(x) <==> Sent(recs, id) && exists c :: Finished(recs, id, c) && !Begun(recs, id, c))
  {
    hide Select, Begun, Finished, Sent;
    SubmitsRead(recs, id);
    ShasOfSubmitted(recs, id);
    var x := Info(recs, id);
    if Sent(recs, id) {
      StartsRead(recs, id);
      EndsRead(recs, id);
      forall c ensures Any(x.starts, Called(c)) <==> Begun(recs, id, c) {
        CalledRead(recs, id, c);
      }
      hide Any, Count, CallsAt, OpenAt, Calls;
    } else {
      NoneOpen(x.ends);
      assert CallsAt(recs, id) == {} && OpenAt(recs, id) == {};
    }
  }

  lemma EndOfCall(recs: seq<Rec>, id: string)
    ensures (exists c :: Finished(recs, id, c) && !Begun(recs, id, c))
            <==> exists e :: e in recs && IsEnd(e, id) && !Begun(recs, id, e.call)
  {
    if c :| Finished(recs, id, c) && !Begun(recs, id, c) {
      var e :| e in recs && IsEnd(e, id) && e.call == c;
      assert !Begun(recs, id, e.call);
    }
    if e :| e in recs && IsEnd(e, id) && !Begun(recs, id, e.call) {
      assert Finished(recs, id, e.call);
    }
  }

  // What an id's flags and observations look like in the tables.
  lemma FlagsRead(recs: seq<Rec>, id: string)
    ensures var x := Info(recs, id);
      && (x.accepted <==> Said(recs, id, Accepted)) && (x.rejected <==> Said(recs, id, Rejected))
      && (x.uncert <==> Said(recs, id, Uncertain)) && (x.finals != [] <==> Observed(recs, id))
      && (forall state :: Any(x.finals, Showing(state)) <==> ObservedAs(recs, id, state))
    ensures Mentioned(recs, id) <==> Sent(recs, id) || Observed(recs, id)
  {
    hide Select, Any, Said, Observed, ObservedAs, Sent, Shas;
    SubmitsRead(recs, id);
    AnswersRead(recs, id, Accepted);
    AnswersRead(recs, id, Rejected);
    AnswersRead(recs, id, Uncertain);
    FinalsRead(recs, id, Done);
    forall state ensures Any(Select(recs, Finals(id)), Showing(state)) <==> ObservedAs(recs, id, state) {
      FinalsRead(recs, id, state);
    }
  }

  lemma CallsNeedSubmit(recs: seq<Rec>, id: string)
    ensures CallsAt(recs, id) != {} ==> Sent(recs, id)
    ensures OpenAt(recs, id) <= CallsAt(recs, id) && |OpenAt(recs, id)| <= |CallsAt(recs, id)|
    ensures forall res :: Said(recs, id, res) ==> Sent(recs, id)
  {
    assert CallsAt(recs, id) == OpenAt(recs, id) + (CallsAt(recs, id) - OpenAt(recs, id));
  }

  lemma SentCounts(recs: seq<Rec>, id: string)
    ensures |CallsAt(recs, id)| > 0 ==> Sent(recs, id)
  {
    assert |CallsAt(recs, id)| > 0 ==> CallsAt(recs, id) != {};
  }

  /** The verdict on one id. */
  lemma VerdictRead(recs: seq<Rec>, exp: Expect, id: string, code: Code)
    ensures Mentioned(recs, id) && Fault(Info(recs, id), id, exp, code) <==> Verdict(recs, exp, id, code)
  {
    hide Info, Any, Opened, Orphaned, Said, Sent, Observed, ObservedAs, CallsAt, OpenAt, Begun, Finished, Mentioned,
      IsEnd;
    FlagsRead(recs, id);
    CallsRead(recs, id);
    EndOfCall(recs, id);
    CallsNeedSubmit(recs, id);
    SentCounts(recs, id);
  }

  // ------------------------------------------------------------------ what is reported of the records themselves

  lemma ComplaintIs(r: Rec, id: string, code: Code)
    ensures Complaint(r) == Some(code) && Subject(r) == id <==>
              || (code.BadRecord? && !IsProc(r) && Malformed(r, id))
              || (code.QueryError? && QueryFailed(r, id)) || (code.CheckFailed? && CheckFell(r, id))
  {
  }

  lemma ConflictRead(recs: seq<Rec>, id: string)
    ensures Conflict(recs, id) <==> exists r, s :: r in recs && s in recs && Contradict(r, s, id)
  {
    SubmitsRead(recs, id);
    hide Shas, Sent;
    if a, b :| a in Shas(recs, id) && b in Shas(recs, id) && a != b {
      var r :| r in recs && IsSubmit(r, id) && r.sha == a;
      var s :| s in recs && IsSubmit(s, id) && s.sha == b;
      assert Contradict(r, s, id);
    }
    if r, s :| r in recs && s in recs && Contradict(r, s, id) {
      assert r.sha in Shas(recs, id) && s.sha in Shas(recs, id);
    }
  }

  lemma RecordsRead(recs: seq<Rec>, v: Violation)
    ensures RecordBreach(recs, v) <==>
              || (v.code.SubmitShaConflict? && exists r, s :: r in recs && s in recs && Contradict(r, s, v.id))
              || (v.code.BadRecord? && exists r :: r in recs && !IsProc(r) && Malformed(r, v.id))
              || (v.code.QueryError? && exists r :: r in recs && QueryFailed(r, v.id))
              || (v.code.CheckFailed? && exists r :: r in recs && CheckFell(r, v.id))
  {
    hide Conflict, Complaint, Subject, Malformed, QueryFailed, CheckFell, Contradict, IsProc;
    ConflictRead(recs, v.id);
    forall r | r in recs
      ensures Complaint(r) == Some(v.code) && Subject(r) == v.id <==>
                || (v.code.BadRecord? && !IsProc(r) && Malformed(r, v.id))
                || (v.code.QueryError? && QueryFailed(r, v.id)) || (v.code.CheckFailed? && CheckFell(r, v.id))
    {
      ComplaintIs(r, v.id, v.code);
    }
  }

  lemma SetupRead(recs: seq<Rec>, exp: Expect, v: Violation)
    ensures SetupBreach(recs, exp, v) <==>
              (v.code.EmptyLedger? || v.code.MissingRequiredCheck? || v.code.ExpectCallsUnknownId?)
                  && Reported(recs, exp, v)
  {
    hide Any, Sent, Verdict, Submitted, Passed;
    SubmitsRead(recs, v.id);
    AnyRead(recs, AnySubmit);
    forall name ensures Any(recs, Passing(name)) <==> Passed(recs, name) {
      PassedRead(recs, name);
    }
  }

  lemma AnyRead(recs: seq<Rec>, f: Filter)
    ensures Any(recs, f) <==> exists r :: r in recs && Fits(f, r)
  {
    SelectIn(recs, f);
  }

  lemma PassedRead(recs: seq<Rec>, name: string)
    ensures Any(recs, Passing(name)) <==> Passed(recs, name)
  {
    hide Any;
    AnyRead(recs, Passing(name));
  }

  lemma LastSubmitHere(recs: seq<Rec>, id: string, i: int)
    requires recs != [] && IsSubmit(recs[|recs| - 1], id)
    ensures LastSubmitAt(recs, id, i) <==> i == |recs| - 1
  {
  }

  lemma LastSubmitBefore(front: seq<Rec>, last: Rec, id: string, i: int)
    requires !IsSubmit(last, id)
    ensures LastSubmitAt(front + [last], id, i) <==> LastSubmitAt(front, id, i)
  {
    var recs := front + [last];
    assert forall j :: 0 <= j < |front| ==> recs[j] == front[j];
    assert LastSubmitAt(front, id, i) ==> forall j :: i < j < |recs| ==> j < |front| || recs[j] == last;
    assert LastSubmitAt(recs, id, i) ==> i != |front|;
  }

  lemma {:induction false} DeclaredRead(recs: seq<Rec>, id: string, len: int)
    requires Sent(recs, id)
    ensures LastLen(recs, id) == len <==> Declared(recs, id, len)
    decreases |recs|
  {
    hide LastSubmitAt;
    var front, last := recs[..|recs| - 1], recs[|recs| - 1];
    assert recs == front + [last];
    if IsSubmit(last, id) {
      forall i ensures LastSubmitAt(recs, id, i) <==> i == |front| {
        LastSubmitHere(recs, id, i);
      }
    } else {
      assert Sent(front, id);
      DeclaredRead(front, id, len);
      forall i ensures LastSubmitAt(recs, id, i) <==> LastSubmitAt(front, id, i) {
        LastSubmitBefore(front, last, id, i);
      }
      DeclaredSame(front, last, id, len);
    }
  }

  lemma DeclaredSame(front: seq<Rec>, last: Rec, id: string, len: int)
    requires forall i :: LastSubmitAt(front + [last], id, i) <==> LastSubmitAt(front, id, i)
    ensures Declared(front + [last], id, len) <==> Declared(front, id, len)
  {
  }

  lemma TwiceRead(recs: seq<Rec>, id: string)
    ensures EndedTwice(recs, id) <==> EndsTwice(recs, id)
  {
    hide Select, Count;
    forall call ensures Count(Select(recs, Ends(id)), Called(call)) == |CallEndsAt(recs, id, call)| {
      CallEndsRead(recs, id, call);
    }
    if call :| |CallEndsAt(recs, id, call)| > 1 {
      var i, j := TwoOf(CallEndsAt(recs, id, call));
      assert i < j || j < i;
    }
    if i, j :| 0 <= i < j < |recs| && IsEnd(recs[i], id) && IsEnd(recs[j], id) && recs[i].call == recs[j].call {
      var ends := CallEndsAt(recs, id, recs[i].call);
      assert ends == {i, j} + (ends - {i, j});
    }
  }

  lemma CallEndsRead(recs: seq<Rec>, id: string, call: string)
    ensures Count(Select(recs, Ends(id)), Called(call)) == |CallEndsAt(recs, id, call)|
  {
    CountTwice(recs, Ends(id), Called(call));
    hide Select, Count;
    assert Places(recs, Ends(id), Called(call)) == CallEndsAt(recs, id, call);
  }

  // Where this call of id ends.
  function CallEndsAt(recs: seq<Rec>, id: string, call: string): set<int> {
    set i | 0 <= i < |recs| && IsEnd(recs[i], id) && recs[i].call == call
  }

  // One process record is at fault.
  lemma ProcRead(recs: seq<Rec>, r: Rec, id: string, code: Code)
    requires IsProc(r) && r.id == id
    ensures ProcFault(Shas(recs, id), LastLen(recs, id), r, code) <==>
              || (code.BadRecord? && Malformed(r, id))
              || (code.UnknownId? && !Sent(recs, id) && (IsStart(r, id) || IsEnd(r, id)))
              || (code.PayloadNotOk? && Sent(recs, id) && IsStart(r, id) && r.pok != Some(true))
              || (code.PayloadMismatch? && Sent(recs, id) && IsStart(r, id) && !AsSent(recs, r, id))
  {
    SubmitsRead(recs, id);
    ShasOfSubmitted(recs, id);
    if Sent(recs, id) {
      DeclaredRead(recs, id, r.len);
    }
    hide Shas, LastLen, Sent, Declared, Submitted;
  }

  lemma ProcsRead(recs: seq<Rec>, exp: Expect, v: Violation)
    ensures ProcBreach(recs, recs, v) <==>
              || (v.code.BadRecord? && ((exists r :: r in recs && IsProc(r) && Malformed(r, v.id))
                                        || (Sent(recs, v.id) && EndsTwice(recs, v.id))))
              || ((v.code.UnknownId? || v.code.PayloadNotOk? || v.code.PayloadMismatch?) && Reported(recs, exp, v))
  {
    hide Shas, LastLen, Sent, AsSent, ProcFault, EndedTwice, EndsTwice, Submitted, Verdict, IsStart, IsEnd;
    SubmitsRead(recs, v.id);
    TwiceRead(recs, v.id);
    forall r | r in recs && IsProc(r) && r.id == v.id
      ensures ProcFault(Shas(recs, r.id), LastLen(recs, r.id), r, v.code) <==>
                || (v.code.BadRecord? && Malformed(r, v.id))
                || (v.code.UnknownId? && !Sent(recs, v.id) && (IsStart(r, v.id) || IsEnd(r, v.id)))
                || (v.code.PayloadNotOk? && Sent(recs, v.id) && IsStart(r, v.id) && r.pok != Some(true))
                || (v.code.PayloadMismatch? && Sent(recs, v.id) && IsStart(r, v.id) && !AsSent(recs, r, v.id))
    {
      ProcRead(recs, r, v.id, v.code);
    }
    CallsAreProcs(v.id);
  }

  lemma CallsAreProcs(id: string)
    ensures forall r :: IsStart(r, id) || IsEnd(r, id) ==> IsProc(r) && r.id == id
    ensures forall r :: IsProc(r) && Malformed(r, id) ==> r.id == id
  {
  }

  /** The breaches of a ledger, code by code. */
  lemma ReportedIff(recs: seq<Rec>, exp: Expect, v: Violation)
    ensures Breach(recs, exp, v) <==> Reported(recs, exp, v)
  {
    hide RecordBreach, SetupBreach, ProcBreach, Fault, Info, Mentioned, Malformed, QueryFailed, CheckFell, Contradict,
      Passed, Sent, EndsTwice, IsStart, IsEnd, AsSent, IsProc, Verdict;
    RecordsRead(recs, v);
    SetupRead(recs, exp, v);
    ProcsRead(recs, exp, v);
    VerdictRead(recs, exp, v.id, v.code);
    if Verdict(recs, exp, v.id, v.code) {
      VerdictOfRest(recs, exp, v.id, v.code);
    }
  }

  lemma VerdictOfRest(recs: seq<Rec>, exp: Expect, id: string, code: Code)
    requires Verdict(recs, exp, id, code)
    ensures !code.BadRecord? && !code.SubmitShaConflict? && !code.QueryError? && !code.CheckFailed?
    ensures !code.EmptyLedger? && !code.MissingRequiredCheck? && !code.ExpectCallsUnknownId?
    ensures !code.UnknownId? && !code.PayloadNotOk? && !code.PayloadMismatch?
  {
    hide CallsAt, OpenAt, Said, Sent, Observed, ObservedAs;
  }

  // ------------------------------------------------------------------ what each counter counts

  // The ids the report speaks of: those with a submit or a final observation that counts.
  ghost function KnownIds(recs: seq<Rec>): set<string> {
    set r | r in recs && (IsSubmit(r, r.id) || IsFinal(r, r.id)) :: r.id
  }

  // What an id can be counted as.
  datatype Standing = WasAccepted | WasRejected | WasUncertain | WasCalled | WasDone | WasFailed

  ghost predicate Stands(recs: seq<Rec>, exp: Expect, id: string, kind: Standing) {
    match kind
    case WasAccepted => Said(recs, id, Accepted)
    case WasRejected => !Said(recs, id, Accepted) && Said(recs, id, Rejected)
    case WasUncertain => !Said(recs, id, Accepted) && !Said(recs, id, Rejected) && Said(recs, id, Uncertain)
    case WasCalled => CallsAt(recs, id) != {}
    case WasDone =>
      Said(recs, id, Accepted) && id !in exp.expectedLost && id !in exp.expectedFailed
      && ObservedAs(recs, id, Seen.Done)
    case WasFailed =>
      Said(recs, id, Accepted) && id !in exp.expectedLost && id in exp.expectedFailed
      && ObservedAs(recs, id, Seen.Failed)
  }

  ghost function IdsThat(recs: seq<Rec>, exp: Expect, ids: set<string>, kind: Standing): set<string> {
    set id | id in ids && Stands(recs, exp, id, kind)
  }

  // The repeats of the calls of these ids: the k-th after the first, up to a number fixed for each id.
  ghost function Repeats(recs: seq<Rec>, exp: Expect, ids: set<string>): set<(string, int)> {
    set id, k | id in ids && 1 <= k < |CallsAt(recs, id)| :: (id, k)
  }

  // ... of which the script asks for these.
  ghost function Scripted(recs: seq<Rec>, exp: Expect, ids: set<string>): set<(string, int)> {
    set p | p in Repeats(recs, exp, ids) && p.0 in exp.expectCalls && p.1 < exp.expectCalls[p.0]
  }

  // The positions of the calls of these ids that never end.
  ghost function OpenOf(recs: seq<Rec>, ids: set<string>): set<int> {
    set i | 0 <= i < |recs| && recs[i].id in ids && i in OpenAt(recs, recs[i].id)
  }

  ghost function CallsOf(recs: seq<Rec>, ids: set<string>): set<int> {
    set i | 0 <= i < |recs| && recs[i].id in ids && i in CallsAt(recs, recs[i].id)
  }

  /** What the report's counters count. */
  ghost predicate Counted(recs: seq<Rec>, exp: Expect, t: Tally) {
    var ids := KnownIds(recs);
    && t.submitAttempts == |set i | 0 <= i < |recs| && recs[i].k.Submit?|
    && t.uniqueSubmitted == |ids|
    && t.accepted == |IdsThat(recs, exp, ids, WasAccepted)|
    && t.rejected == |IdsThat(recs, exp, ids, WasRejected)|
    && t.uncertain == |IdsThat(recs, exp, ids, WasUncertain)|
    && t.procCalls == |CallsOf(recs, ids)|
    && t.uniqueExecuted == |IdsThat(recs, exp, ids, WasCalled)|
    && t.duplicates == |Repeats(recs, exp, ids)|
    && t.scriptedRepeats == |Scripted(recs, exp, ids)|
    && t.unfinishedCalls == |OpenOf(recs, ids)|
    && t.confirmed == |IdsThat(recs, exp, ids, WasDone)|
    && t.confirmedFailed == |IdsThat(recs, exp, ids, WasFailed)|
  }

  function Members(names: seq<string>): set<string> {
    set id | id in names
  }

  lemma OneMoreStands(recs: seq<Rec>, exp: Expect, ids: set<string>, id: string, kind: Standing)
    requires id !in ids
    ensures |IdsThat(recs, exp, ids + {id}, kind)|
            == |IdsThat(recs, exp, ids, kind)| + One(Stands(recs, exp, id, kind))
  {
    hide Stands;
    var was := IdsThat(recs, exp, ids, kind);
    assert IdsThat(recs, exp, ids + {id}, kind) == if Stands(recs, exp, id, kind) then was + {id} else was;
  }

  // The pairs of id with the numbers from 1 to below n.
  ghost function Pairs(id: string, n: int): set<(string, int)> {
    set k | 1 <= k < n :: (id, k)
  }

  lemma {:induction false} PairsCount(id: string, n: int)
    ensures |Pairs(id, n)| == Max(n - 1, 0)
    decreases n
  {
    if n > 1 {
      PairsCount(id, n - 1);
      assert Pairs(id, n) == Pairs(id, n - 1) + {(id, n - 1)};
    } else {
      assert Pairs(id, n) == {};
    }
  }

  lemma OneMoreRepeats(recs: seq<Rec>, exp: Expect, ids: set<string>, id: string)
    requires id !in ids
    ensures |Repeats(recs, exp, ids + {id})| == |Repeats(recs, exp, ids)| + Max(|CallsAt(recs, id)| - 1, 0)
  {
    hide CallsAt;
    var n := |CallsAt(recs, id)|;
    PairsCount(id, n);
    assert Repeats(recs, exp, ids + {id}) == Repeats(recs, exp, ids) + Pairs(id, n);
    assert Repeats(recs, exp, ids) !! Pairs(id, n);
  }

  lemma OneMoreScripted(recs: seq<Rec>, exp: Expect, ids: set<string>, id: string)
    requires id !in ids
    ensures |Scripted(recs, exp, ids + {id})| == |Scripted(recs, exp, ids)|
            + if id in exp.expectCalls then Max(Min(|CallsAt(recs, id)|, exp.expectCalls[id]) - 1, 0) else 0
  {
    hide CallsAt;
    var was, now := Scripted(recs, exp, ids), Scripted(recs, exp, ids + {id});
    if id in exp.expectCalls {
      var m := Min(|CallsAt(recs, id)|, exp.expectCalls[id]);
      PairsCount(id, m);
      assert now == was + Pairs(id, m);
      assert was !! Pairs(id, m);
    } else {
      assert now == was;
    }
  }

  lemma OneMoreCalls(recs: seq<Rec>, ids: set<string>, id: string)
    requires id !in ids
    ensures |CallsOf(recs, ids + {id})| == |CallsOf(recs, ids)| + |CallsAt(recs, id)|
    ensures |OpenOf(recs, ids + {id})| == |OpenOf(recs, ids)| + |OpenAt(recs, id)|
  {
    hide Sent, Finished;
    assert CallsOf(recs, ids + {id}) == CallsOf(recs, ids) + CallsAt(recs, id);
    assert CallsOf(recs, ids) !! CallsAt(recs, id);
    assert OpenOf(recs, ids + {id}) == OpenOf(recs, ids) + OpenAt(recs, id);
    assert OpenOf(recs, ids) !! OpenAt(recs, id);
  }

  // One judged id adds to the counters what it stands for.
  lemma JudgedCounts(recs: seq<Rec>, exp: Expect, id: string, was: Tally)
    ensures var t := TallyAfter(Info(recs, id), id, exp, was); var n := |CallsAt(recs, id)|;
      && t.submitAttempts == was.submitAttempts && t.procCalls == was.procCalls
      && t.uniqueSubmitted == was.uniqueSubmitted + 1
      && t.accepted == was.accepted + One(Stands(recs, exp, id, WasAccepted))
      && t.rejected == was.rejected + One(Stands(recs, exp, id, WasRejected))
      && t.uncertain == was.uncertain + One(Stands(recs, exp, id, WasUncertain))
      && t.uniqueExecuted == was.uniqueExecuted + One(Stands(recs, exp, id, WasCalled))
      && t.duplicates == was.duplicates + Max(n - 1, 0)
      && t.scriptedRepeats == was.scriptedRepeats
                              + (if id in exp.expectCalls then Max(Min(n, exp.expectCalls[id]) - 1, 0) else 0)
      && t.unfinishedCalls == was.unfinishedCalls + |OpenAt(recs, id)|
      && t.confirmed == was.confirmed + One(Stands(recs, exp, id, WasDone))
      && t.confirmedFailed == was.confirmedFailed + One(Stands(recs, exp, id, WasFailed))
  {
    hide Info, Any, Opened, Said, ObservedAs, CallsAt, OpenAt;
    FlagsRead(recs, id);
    CallsRead(recs, id);
    assert |CallsAt(recs, id)| > 0 <==> CallsAt(recs, id) != {};
  }

  // The counters of the ids judged so far.
  ghost predicate CountedSoFar(recs: seq<Rec>, exp: Expect, ids: set<string>, start: Tally, t: Tally) {
    && t.submitAttempts == start.submitAttempts && t.procCalls == start.procCalls
    && t.uniqueSubmitted == start.uniqueSubmitted + |ids|
    && t.accepted == start.accepted + |IdsThat(recs, exp, ids, WasAccepted)|
    && t.rejected == start.rejected + |IdsThat(recs, exp, ids, WasRejected)|
    && t.uncertain == start.uncertain + |IdsThat(recs, exp, ids, WasUncertain)|
    && t.uniqueExecuted == start.uniqueExecuted + |IdsThat(recs, exp, ids, WasCalled)|
    && t.duplicates == start.duplicates + |Repeats(recs, exp, ids)|
    && t.scriptedRepeats == start.scriptedRepeats + |Scripted(recs, exp, ids)|
    && t.unfinishedCalls == start.unfinishedCalls + |OpenOf(recs, ids)|
    && t.confirmed == start.confirmed + |IdsThat(recs, exp, ids, WasDone)|
    && t.confirmedFailed == start.confirmedFailed + |IdsThat(recs, exp, ids, WasFailed)|
  }

  lemma NothingCounted(recs: seq<Rec>, exp: Expect, start: Tally)
    ensures CountedSoFar(recs, exp, {}, start, start)
  {
    hide Stands, CallsAt, OpenAt;
    forall kind ensures IdsThat(recs, exp, {}, kind) == {} {
    }
    assert Repeats(recs, exp, {}) == {} && Scripted(recs, exp, {}) == {} && OpenOf(recs, {}) == {};
  }

  lemma CountedMore(recs: seq<Rec>, exp: Expect, ids: set<string>, id: string, start: Tally, t: Tally)
    requires CountedSoFar(recs, exp, ids, start, t) && id !in ids
    ensures CountedSoFar(recs, exp, ids + {id}, start, TallyAfter(Info(recs, id), id, exp, t))
  {
    hide IdsThat, Repeats, Scripted, OpenOf, Stands, CallsAt, OpenAt, TallyAfter, Info, Max, Min, One;
    JudgedCounts(recs, exp, id, t);
    OneMoreStands(recs, exp, ids, id, WasAccepted);
    OneMoreStands(recs, exp, ids, id, WasRejected);
    OneMoreStands(recs, exp, ids, id, WasUncertain);
    OneMoreStands(recs, exp, ids, id, WasCalled);
    OneMoreStands(recs, exp, ids, id, WasDone);
    OneMoreStands(recs, exp, ids, id, WasFailed);
    OneMoreRepeats(recs, exp, ids, id);
    OneMoreScripted(recs, exp, ids, id);
    OneMoreCalls(recs, ids, id);
    assert |ids + {id}| == |ids| + 1;
  }

  lemma {:induction false} TallyCounts(recs: seq<Rec>, exp: Expect, names: seq<string>, start: Tally)
    requires NoDup(names)
    ensures CountedSoFar(recs, exp, Members(names), start, TallyAll(recs, exp, names, start))
    decreases |names|
  {
    hide CountedSoFar, TallyAfter, Info;
    if names == [] {
      assert Members(names) == {};
      NothingCounted(recs, exp, start);
    } else {
      var front, last := names[..|names| - 1], names[|names| - 1];
      assert names == front + [last] && last !in front;
      assert Members(names) == Members(front) + {last} && last !in Members(front);
      TallyCounts(recs, exp, front, start);
      CountedMore(recs, exp, Members(front), last, start, TallyAll(recs, exp, front, start));
    }
  }

  lemma KnownAreNames(recs: seq<Rec>)
    ensures NoDup(Names(recs)) && Members(Names(recs)) == KnownIds(recs)
  {
    NamesAreIds(recs);
    hide Names;
    forall id ensures id in Names(recs) <==> id in KnownIds(recs) {
      hide Mentioned;
      FlagsRead(recs, id);
      assert id in KnownIds(recs) <==> Sent(recs, id) || Observed(recs, id) by {
        KnownIs(recs, id);
      }
    }
  }

  lemma KnownIs(recs: seq<Rec>, id: string)
    ensures id in KnownIds(recs) <==> Sent(recs, id) || Observed(recs, id)
  {
    if Sent(recs, id) {
      var r :| r in recs && IsSubmit(r, id);
    } else if Observed(recs, id) {
      var r :| r in recs && IsFinal(r, id);
    }
  }

  // The calls are the starts of submitted ids.
  lemma CallsAreCounted(recs: seq<Rec>)
    ensures Count(recs, AnySubmit) == |set i | 0 <= i < |recs| && recs[i].k.Submit?|
    ensures Count(recs, StartsAmong(SubmittedIds(recs))) == |CallsOf(recs, KnownIds(recs))|
  {
    var f, g := AnySubmit, StartsAmong(SubmittedIds(recs));
    CountTwice(recs, f, f);
    SelectedAgain(recs, f);
    CountTwice(recs, g, g);
    SelectedAgain(recs, g);
    hide Select;
    assert Places(recs, f, f) == set i | 0 <= i < |recs| && recs[i].k.Submit?;
    forall id ensures id in SubmittedIds(recs) <==> Sent(recs, id)
              ensures Sent(recs, id) ==> id in KnownIds(recs)
    {
      IdSets(recs, id);
      SubmitsRead(recs, id);
      KnownIs(recs, id);
    }
    hide Sent, KnownIds, SubmittedIds;
    assert Places(recs, g, g) == CallsOf(recs, KnownIds(recs));
  }

  /** The counters of every report. */
  lemma TotalsCount(recs: seq<Rec>, exp: Expect)
    ensures Counted(recs, exp, Totals(recs, exp))
  {
    hide IdsThat, Repeats, Scripted, OpenOf, CallsOf, KnownIds, TallyAll, Names, Count, SubmittedIds;
    KnownAreNames(recs);
    TallyCounts(recs, exp, Names(recs), AtFirst(recs));
    CallsAreCounted(recs);
  }

  // ------------------------------------------------------------------ the whole validation

  lemma ProcsAre(recs: seq<Rec>, procs: seq<Rec>)
    requires procs == Select(recs, Procs)
    ensures forall r :: r in procs ==> IsProc(r)
  {
    SelectIn(recs, Procs);
  }

  lemma BreachesAreReported(recs: seq<Rec>, exp: Expect)
    ensures forall v :: Breach(recs, exp, v) <==> Reported(recs, exp, v)
  {
    hide Breach, Reported;
    forall v ensures Breach(recs, exp, v) <==> Reported(recs, exp, v) {
      ReportedIff(recs, exp, v);
    }
  }

  /** Validate: a violation is reported exactly if the records call for it, and each counter counts what it says. */
  method Validate(recs: seq<Rec>, exp: Expect) returns (rep: Report)
    ensures forall v :: v in rep.violations <==> Breach(recs, exp, v)
    ensures forall v :: v in rep.violations <==> Reported(recs, exp, v)
    ensures rep.tally == Totals(recs, exp) && Counted(recs, exp, rep.tally)
  {
    hide Reported, Counted, Tables, AttachedAll, RecordBreach, ProcBreach, Fault, Info, Mentioned, Submitted, TallyAll,
      SubmittedIds, Names, Count, Select, Any;
    var ids, lens, procs, attempts, bad1, known := Collect(recs);
    var bad2 := CheckSetup(recs, exp, attempts);
    ProcsAre(recs, procs);
    var attached, calls, bad3 := Attach(recs, procs, ids, lens, known);
    AttachedWhole(recs, procs, attached, ids, lens, known);
    var bad4 := CheckExpectedIds(recs, exp, attached);
    var bad5, t := JudgeAll(recs, exp, attached, Tally(attempts, 0, 0, 0, 0, calls, 0, 0, 0, 0, 0, 0));
    rep := Report(bad1 + bad2 + bad3 + bad4 + bad5, t);
    assert forall v :: v in rep.violations <==> Breach(recs, exp, v);
    BreachesAreReported(recs, exp);
    TotalsCount(recs, exp);
  }
}
